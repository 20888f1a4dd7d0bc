/** The packets between one sender and one receiver, and what it means to keep their order. */
module PacketOrder {
  import opened RegistryMessages
  import opened Delivery

  function Sel(packets: seq<Packet>, a: nat, d: nat): seq<Packet> {
    if packets == [] then []
    else
      var last := packets[|packets| - 1];
      Sel(packets[..|packets| - 1], a, d) + if last.from == a && last.to == d then [last] else []
  }

  lemma {:induction false} SelConcat(xs: seq<Packet>, ys: seq<Packet>, a: nat, d: nat)
    ensures Sel(xs + ys, a, d) == Sel(xs, a, d) + Sel(ys, a, d)
    decreases |ys|
  {
    if ys == [] {
      assert xs + ys == xs;
    } else {
      assert (xs + ys)[..|xs + ys| - 1] == xs + ys[..|ys| - 1];
      SelConcat(xs, ys[..|ys| - 1], a, d);
    }
  }

  lemma SelSplit(xs: seq<Packet>, n: nat, a: nat, d: nat)
    requires n <= |xs|
    ensures Sel(xs, a, d) == Sel(xs[..n], a, d) + Sel(xs[n..], a, d)
  {
    assert xs == xs[..n] + xs[n..];
    SelConcat(xs[..n], xs[n..], a, d);
  }

  lemma SelOne(xs: seq<Packet>, p: Packet, a: nat, d: nat)
    ensures Sel(xs + [p], a, d) == if p.from == a && p.to == d then Sel(xs, a, d) + [p] else Sel(xs, a, d)
  {
    assert (xs + [p])[..|xs + [p]| - 1] == xs;
  }

  lemma {:induction false} SelHas(xs: seq<Packet>, i: nat)
    requires i < |xs|
    ensures Sel(xs, xs[i].from, xs[i].to) != []
    decreases |xs|
  {
    if i < |xs| - 1 {
      SelHas(xs[..|xs| - 1], i);
    }
  }

  lemma {:induction false} SelFor(xs: seq<Packet>, a: nat, d: nat)
    ensures Sel(For(xs, d), a, d) == Sel(xs, a, d)
    decreases |xs|
  {
    if xs != [] {
      var init := xs[..|xs| - 1];
      SelFor(init, a, d);
      if xs[|xs| - 1].to == d {
        SelOne(For(init, d), xs[|xs| - 1], a, d);
      } else {
        assert For(xs, d) == For(init, d);
      }
    }
  }

  /** `xs` appears in `ys` in order, each packet at its own place. */
  ghost predicate Sub(xs: seq<Packet>, ys: seq<Packet>) {
    || xs == []
    || (ys != [] && (
          || Sub(xs, ys[..|ys| - 1])
          || (xs[|xs| - 1] == ys[|ys| - 1] && Sub(xs[..|xs| - 1], ys[..|ys| - 1]))))
  }

  lemma SubOne(xs: seq<Packet>, ys: seq<Packet>, p: Packet)
    requires Sub(xs, ys)
    ensures Sub(xs, ys + [p]) && Sub(xs + [p], ys + [p])
  {
    assert (ys + [p])[..|ys + [p]| - 1] == ys && (xs + [p])[..|xs + [p]| - 1] == xs;
  }

  lemma {:induction false} SubSelf(xs: seq<Packet>)
    ensures Sub(xs, xs)
    decreases |xs|
  {
    if xs != [] {
      SubSelf(xs[..|xs| - 1]);
    }
  }

  lemma {:induction false} SubLonger(xs: seq<Packet>, ys: seq<Packet>, zs: seq<Packet>)
    requires Sub(xs, ys)
    ensures Sub(xs, ys + zs)
    decreases |zs|
  {
    if zs == [] {
      assert ys + zs == ys;
    } else {
      SubLonger(xs, ys, zs[..|zs| - 1]);
      SubOne(xs, ys + zs[..|zs| - 1], zs[|zs| - 1]);
      assert ys + zs == ys + zs[..|zs| - 1] + [zs[|zs| - 1]];
    }
  }

  lemma {:induction false} SubInit(xs: seq<Packet>, ys: seq<Packet>)
    requires xs != [] && Sub(xs, ys)
    ensures Sub(xs[..|xs| - 1], ys)
    decreases |ys|
  {
    var last := ys[|ys| - 1];
    if Sub(xs, ys[..|ys| - 1]) {
      SubInit(xs, ys[..|ys| - 1]);
    }
    SubOne(xs[..|xs| - 1], ys[..|ys| - 1], last);
    assert ys == ys[..|ys| - 1] + [last];
  }

  lemma {:induction false} SubPrefix(xs: seq<Packet>, zs: seq<Packet>, ys: seq<Packet>)
    requires Sub(xs + zs, ys)
    ensures Sub(xs, ys)
    decreases |zs|
  {
    if zs == [] {
      assert xs + zs == xs;
    } else {
      SubInit(xs + zs, ys);
      assert (xs + zs)[..|xs + zs| - 1] == xs + zs[..|zs| - 1];
      SubPrefix(xs, zs[..|zs| - 1], ys);
    }
  }

  lemma {:induction false} SubLength(xs: seq<Packet>, ys: seq<Packet>)
    requires Sub(xs, ys)
    ensures |xs| <= |ys|
    ensures |xs| == |ys| ==> xs == ys
    decreases |ys|
  {
    if xs != [] {
      if Sub(xs, ys[..|ys| - 1]) {
        SubLength(xs, ys[..|ys| - 1]);
      } else {
        SubLength(xs[..|xs| - 1], ys[..|ys| - 1]);
        assert |xs| == |ys| ==> xs == xs[..|xs| - 1] + [xs[|xs| - 1]];
      }
    }
  }

  lemma {:induction false} SubSel(xs: seq<Packet>, ys: seq<Packet>, a: nat, d: nat)
    requires Sub(xs, ys)
    ensures Sub(Sel(xs, a, d), Sel(ys, a, d))
    decreases |ys|
  {
    if xs != [] {
      var last := ys[|ys| - 1];
      var ys' := Sel(ys[..|ys| - 1], a, d);
      assert Sel(ys, a, d) == if last.from == a && last.to == d then ys' + [last] else ys';
      if Sub(xs, ys[..|ys| - 1]) {
        SubSel(xs, ys[..|ys| - 1], a, d);
        SubOne(Sel(xs, a, d), ys', last);
      } else {
        var xs' := Sel(xs[..|xs| - 1], a, d);
        assert Sel(xs, a, d) == if last.from == a && last.to == d then xs' + [last] else xs';
        SubSel(xs[..|xs| - 1], ys[..|ys| - 1], a, d);
        SubOne(xs', ys', last);
      }
    }
  }

  /** `u` stands somewhere before `v`. */
  ghost predicate Precedes(xs: seq<Packet>, u: Packet, v: Packet) {
    exists i, j :: 0 <= i < j < |xs| && xs[i] == u && xs[j] == v
  }

  lemma PrecedesLonger(xs: seq<Packet>, ys: seq<Packet>, u: Packet, v: Packet)
    requires Precedes(xs, u, v)
    ensures Precedes(xs + ys, u, v)
  {
    var i, j :| 0 <= i < j < |xs| && xs[i] == u && xs[j] == v;
    assert (xs + ys)[i] == u && (xs + ys)[j] == v;
  }

  lemma {:induction false} SelKeepsMember(xs: seq<Packet>, i: nat)
    requires i < |xs|
    ensures xs[i] in Sel(xs, xs[i].from, xs[i].to)
    decreases |xs|
  {
    if i < |xs| - 1 {
      SelKeepsMember(xs[..|xs| - 1], i);
    }
  }

  lemma {:induction false} SelMember(xs: seq<Packet>, u: Packet, a: nat, d: nat)
    requires u in Sel(xs, a, d)
    ensures u in xs
    decreases |xs|
  {
    if u in Sel(xs[..|xs| - 1], a, d) {
      SelMember(xs[..|xs| - 1], u, a, d);
    }
  }

  lemma {:induction false} SelPrecedes(xs: seq<Packet>, i: nat, j: nat, a: nat, d: nat)
    requires i < j < |xs|
    requires xs[i].from == xs[j].from == a && xs[i].to == xs[j].to == d
    ensures Precedes(Sel(xs, a, d), xs[i], xs[j])
    decreases |xs|
  {
    var init := xs[..|xs| - 1];
    if j < |xs| - 1 {
      SelPrecedes(init, i, j, a, d);
      if xs[|xs| - 1].from == a && xs[|xs| - 1].to == d {
        PrecedesLonger(Sel(init, a, d), [xs[|xs| - 1]], xs[i], xs[j]);
      } else {
        assert Sel(xs, a, d) == Sel(init, a, d);
      }
    } else {
      SelKeepsMember(init, i);
      var s := Sel(init, a, d);
      var k :| 0 <= k < |s| && s[k] == xs[i];
      assert (s + [xs[j]])[k] == xs[i] && (s + [xs[j]])[|s|] == xs[j];
    }
  }

  lemma {:induction false} SubMember(xs: seq<Packet>, ys: seq<Packet>, u: Packet)
    requires Sub(xs, ys) && u in xs
    ensures u in ys
    decreases |ys|
  {
    if Sub(xs, ys[..|ys| - 1]) {
      SubMember(xs, ys[..|ys| - 1], u);
    } else if u != xs[|xs| - 1] {
      SubMember(xs[..|xs| - 1], ys[..|ys| - 1], u);
    }
  }

  lemma {:induction false} SubPrecedes(xs: seq<Packet>, ys: seq<Packet>, u: Packet, v: Packet)
    requires Sub(xs, ys) && Precedes(xs, u, v)
    ensures Precedes(ys, u, v)
    decreases |ys|
  {
    var i, j :| 0 <= i < j < |xs| && xs[i] == u && xs[j] == v;
    var ys' := ys[..|ys| - 1];
    assert ys == ys' + [ys[|ys| - 1]];
    if Sub(xs, ys') {
      SubPrecedes(xs, ys', u, v);
      PrecedesLonger(ys', [ys[|ys| - 1]], u, v);
    } else if j < |xs| - 1 {
      assert xs[..|xs| - 1][i] == u && xs[..|xs| - 1][j] == v;
      SubPrecedes(xs[..|xs| - 1], ys', u, v);
      PrecedesLonger(ys', [ys[|ys| - 1]], u, v);
    } else {
      assert xs[..|xs| - 1][i] == u;
      SubMember(xs[..|xs| - 1], ys', u);
      var k :| 0 <= k < |ys'| && ys'[k] == u;
      assert ys[k] == u && ys[|ys| - 1] == v;
    }
  }

  /** Without repeats, two packets stand in one order only. */
  lemma OneOrder(xs: seq<Packet>, u: Packet, v: Packet)
    requires NoDuplicates(xs) && Precedes(xs, u, v)
    ensures !Precedes(xs, v, u)
  {
  }
}
