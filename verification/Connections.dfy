/**
 * What a gate reads from the connections one peer made to it, one after the other. Each connection has its own
 * receive coroutine, so a connection keeps its own order, but an older one may still be read beside a newer one.
 */
module Connections {
  import opened RegistryMessages
  import opened Delivery
  import opened PacketOrder
  import RemoteLink

  /** A packet read from connection `conn`; `pos` is its place among all packets handed over on the link. */
  datatype Arrival = Arrival(conn: nat, pos: nat)

  /** How many packets have been read from connection `c`. */
  function Count(arrivals: seq<Arrival>, c: nat): nat {
    if arrivals == [] then 0
    else Count(arrivals[..|arrivals| - 1], c) + if arrivals[|arrivals| - 1].conn == c then 1 else 0
  }

  /** The place of the next packet to be read from connection `c`, if there is one. */
  function NextPos(l: Link, arrivals: seq<Arrival>, c: nat): Option<nat> {
    if c < |l.starts| && l.starts[c] + Count(arrivals, c) < RemoteLink.End(l, c)
    then Some(l.starts[c] + Count(arrivals, c)) else None
  }

  /** Arrival `i` was the next packet of its connection. */
  ghost predicate InTurn(l: Link, arrivals: seq<Arrival>, i: nat)
    requires i < |arrivals|
  {
    var a := arrivals[i];
    && a.conn < |l.starts|
    && a.pos == l.starts[a.conn] + Count(arrivals[..i], a.conn)
    && a.pos < RemoteLink.End(l, a.conn)
  }

  ghost predicate Regular(l: Link, arrivals: seq<Arrival>) {
    && RemoteLink.Split(l)
    && (forall i | 0 <= i < |arrivals| :: InTurn(l, arrivals, i))
  }

  function PacketAt(l: Link, pos: nat): Packet {
    if pos < |l.handed| then l.handed[pos] else Packet(0, 0, [])
  }

  /** The packets that arrived, in the order they were read. */
  function Packets(l: Link, arrivals: seq<Arrival>): seq<Packet> {
    seq(|arrivals|, i requires 0 <= i < |arrivals| => PacketAt(l, arrivals[i].pos))
  }

  lemma CountOne(arrivals: seq<Arrival>, a: Arrival, c: nat)
    ensures Count(arrivals + [a], c) == if a.conn == c then Count(arrivals, c) + 1 else Count(arrivals, c)
  {
    assert (arrivals + [a])[..|arrivals + [a]| - 1] == arrivals;
  }

  lemma {:induction false} CountGrows(arrivals: seq<Arrival>, i: nat, j: nat, c: nat)
    requires i <= j <= |arrivals|
    ensures Count(arrivals[..i], c) <= Count(arrivals[..j], c)
    decreases j - i
  {
    if i < j {
      CountGrows(arrivals, i, j - 1, c);
      assert arrivals[..j] == arrivals[..j - 1] + [arrivals[j - 1]];
      CountOne(arrivals[..j - 1], arrivals[j - 1], c);
    }
  }

  lemma InTurnBounds(l: Link, arrivals: seq<Arrival>, i: nat)
    requires RemoteLink.Split(l) && i < |arrivals| && InTurn(l, arrivals, i)
    ensures l.starts[arrivals[i].conn] <= arrivals[i].pos < RemoteLink.End(l, arrivals[i].conn) <= |l.handed|
  {
  }

  lemma RegularOne(l: Link, arrivals: seq<Arrival>, c: nat)
    requires Regular(l, arrivals) && NextPos(l, arrivals, c).Some?
    ensures var a := Arrival(c, NextPos(l, arrivals, c).value);
            && Regular(l, arrivals + [a]) && a.pos < |l.handed|
            && Packets(l, arrivals + [a]) == Packets(l, arrivals) + [l.handed[a.pos]]
  {
    var more := arrivals + [Arrival(c, NextPos(l, arrivals, c).value)];
    forall i | 0 <= i < |more| ensures InTurn(l, more, i) {
      if i < |arrivals| {
        assert InTurn(l, arrivals, i) && more[..i] == arrivals[..i];
      } else {
        assert more[..i] == arrivals;
      }
    }
    InTurnBounds(l, more, |arrivals|);
  }

  lemma RegularGrows(l: Link, l': Link, arrivals: seq<Arrival>)
    requires Regular(l, arrivals) && RemoteLink.Split(l') && RemoteLink.Grows(l, l')
    ensures Regular(l', arrivals) && Packets(l', arrivals) == Packets(l, arrivals)
  {
    forall i | 0 <= i < |arrivals|
      ensures InTurn(l', arrivals, i) && PacketAt(l', arrivals[i].pos) == PacketAt(l, arrivals[i].pos)
    {
      assert InTurn(l, arrivals, i);
      InTurnBounds(l, arrivals, i);
    }
  }

  // ---------------------------------------------------------------------------
  // Order

  lemma Apart(l: Link, c: nat, d: nat)
    requires RemoteLink.Split(l) && c < |l.starts| && d < |l.starts|
    ensures c < d ==> RemoteLink.End(l, c) <= l.starts[d]
  {
  }

  /** Of two arrivals, the first was handed over first exactly when it did not come on a newer connection. */
  lemma OrderOfTwo(l: Link, arrivals: seq<Arrival>, i: nat, j: nat)
    requires Regular(l, arrivals) && i < j < |arrivals|
    ensures arrivals[i].pos < arrivals[j].pos <==> arrivals[i].conn <= arrivals[j].conn
    ensures arrivals[i].pos != arrivals[j].pos
  {
    var a, b := arrivals[i], arrivals[j];
    assert InTurn(l, arrivals, i) && InTurn(l, arrivals, j);
    InTurnBounds(l, arrivals, i);
    InTurnBounds(l, arrivals, j);
    if a.conn == b.conn {
      assert arrivals[..i + 1] == arrivals[..i] + [a];
      CountOne(arrivals[..i], a, a.conn);
      CountGrows(arrivals, i + 1, j, a.conn);
    } else {
      Apart(l, a.conn, b.conn);
      Apart(l, b.conn, a.conn);
    }
  }

  /** The places read from connection `c`, in the order they were read. */
  function ReadFrom(arrivals: seq<Arrival>, c: nat): seq<nat> {
    if arrivals == [] then []
    else
      var last := arrivals[|arrivals| - 1];
      if last.conn == c then ReadFrom(arrivals[..|arrivals| - 1], c) + [last.pos]
      else ReadFrom(arrivals[..|arrivals| - 1], c)
  }

  function Places(from: nat, n: nat): seq<nat> {
    seq(n, i => from + i)
  }

  /** From each connection the first packets handed to it were read, in order, each once. */
  lemma {:induction false} EachConnectionInOrder(l: Link, arrivals: seq<Arrival>, c: nat)
    requires Regular(l, arrivals) && c < |l.starts|
    ensures ReadFrom(arrivals, c) == Places(l.starts[c], Count(arrivals, c))
    ensures l.starts[c] + Count(arrivals, c) <= RemoteLink.End(l, c)
    decreases |arrivals|
  {
    if arrivals != [] {
      var n := |arrivals| - 1;
      var init, last := arrivals[..n], arrivals[n];
      forall i | 0 <= i < n ensures InTurn(l, init, i) {
        assert InTurn(l, arrivals, i) && init[..i] == arrivals[..i];
      }
      EachConnectionInOrder(l, init, c);
      assert InTurn(l, arrivals, n);
    }
  }

  /** No packet arrives twice. */
  lemma NothingArrivesTwice(l: Link, arrivals: seq<Arrival>)
    requires Regular(l, arrivals)
    ensures forall i, j | 0 <= i < j < |arrivals| :: arrivals[i].pos != arrivals[j].pos
  {
    forall i, j | 0 <= i < j < |arrivals| ensures arrivals[i].pos != arrivals[j].pos {
      OrderOfTwo(l, arrivals, i, j);
    }
  }

  lemma ConnectionsInOrder(l: Link, arrivals: seq<Arrival>)
    requires Regular(l, arrivals)
    ensures forall c | 0 <= c < |l.starts| ::
              && ReadFrom(arrivals, c) == Places(l.starts[c], Count(arrivals, c))
              && l.starts[c] + Count(arrivals, c) <= RemoteLink.End(l, c)
    ensures forall i, j | 0 <= i < j < |arrivals| :: arrivals[i].pos != arrivals[j].pos
  {
    forall c | 0 <= c < |l.starts|
      ensures ReadFrom(arrivals, c) == Places(l.starts[c], Count(arrivals, c))
      ensures l.starts[c] + Count(arrivals, c) <= RemoteLink.End(l, c)
    {
      EachConnectionInOrder(l, arrivals, c);
    }
    NothingArrivesTwice(l, arrivals);
  }

  /** The arrival carries a packet from `a` to `d`. */
  predicate Between(l: Link, x: Arrival, a: nat, d: nat) {
    PacketAt(l, x.pos).from == a && PacketAt(l, x.pos).to == d
  }

  /** A packet from `a` to `d` on an older connection is read after one on a newer connection. */
  ghost predicate Overtaken(l: Link, arrivals: seq<Arrival>, a: nat, d: nat) {
    exists i, j :: 0 <= i < j < |arrivals| && Between(l, arrivals[i], a, d) && Between(l, arrivals[j], a, d)
                   && arrivals[i].conn > arrivals[j].conn
  }

  lemma SubWithNext(xs: seq<Packet>, handed: seq<Packet>, p: nat, n: nat, a: nat, d: nat)
    requires p < n <= |handed| && handed[p].from == a && handed[p].to == d
    requires Sub(xs, Sel(handed[..p], a, d))
    ensures Sub(xs + [handed[p]], Sel(handed[..n], a, d))
  {
    var upTo := Sel(handed[..p], a, d);
    assert Sel(handed[..n], a, d) == upTo + [handed[p]] + Sel(handed[p + 1..n], a, d) by {
      SelConcat(handed[..p] + [handed[p]], handed[p + 1..n], a, d);
      SelOne(handed[..p], handed[p], a, d);
      assert handed[..n] == handed[..p] + [handed[p]] + handed[p + 1..n];
    }
    assert Sub(xs + [handed[p]], upTo + [handed[p]]) by { SubOne(xs, upTo, handed[p]); }
    SubLonger(xs + [handed[p]], upTo + [handed[p]], Sel(handed[p + 1..n], a, d));
  }

  lemma {:induction false} InOrderIsSub(l: Link, arrivals: seq<Arrival>, a: nat, d: nat, n: nat)
    requires n <= |l.handed|
    requires forall i | 0 <= i < |arrivals| && Between(l, arrivals[i], a, d) :: arrivals[i].pos < n
    requires forall i, j | 0 <= i < j < |arrivals| && Between(l, arrivals[i], a, d) && Between(l, arrivals[j], a, d) ::
               arrivals[i].pos < arrivals[j].pos
    ensures Sub(Sel(Packets(l, arrivals), a, d), Sel(l.handed[..n], a, d))
    decreases |arrivals|
  {
    if arrivals != [] {
      var m := |arrivals| - 1;
      var init, last := arrivals[..m], arrivals[m];
      var before := Sel(Packets(l, init), a, d);
      assert Packets(l, arrivals) == Packets(l, init) + [PacketAt(l, last.pos)];
      SelOne(Packets(l, init), PacketAt(l, last.pos), a, d);
      if Between(l, last, a, d) {
        InOrderIsSub(l, init, a, d, last.pos);
        SubWithNext(before, l.handed, last.pos, n, a, d);
      } else {
        InOrderIsSub(l, init, a, d, n);
      }
    }
  }

  /** Without overtaking, what arrived is some of what was handed over, in order. */
  lemma NotOvertakenIsSub(l: Link, arrivals: seq<Arrival>, a: nat, d: nat)
    requires Regular(l, arrivals) && !Overtaken(l, arrivals, a, d)
    ensures Sub(Sel(Packets(l, arrivals), a, d), Sel(l.handed, a, d))
  {
    forall i, j | 0 <= i < j < |arrivals| && Between(l, arrivals[i], a, d) && Between(l, arrivals[j], a, d)
      ensures arrivals[i].pos < arrivals[j].pos
    {
      OrderOfTwo(l, arrivals, i, j);
    }
    forall i | 0 <= i < |arrivals| ensures arrivals[i].pos < |l.handed| {
      assert InTurn(l, arrivals, i);
      InTurnBounds(l, arrivals, i);
    }
    InOrderIsSub(l, arrivals, a, d, |l.handed|);
    assert l.handed[..|l.handed|] == l.handed;
  }

  /** Overtaking turns two packets around. */
  lemma OvertakenTurnsAround(l: Link, arrivals: seq<Arrival>, a: nat, d: nat) returns (u: Packet, v: Packet)
    requires Regular(l, arrivals) && Overtaken(l, arrivals, a, d)
    ensures Precedes(Sel(Packets(l, arrivals), a, d), u, v) && Precedes(Sel(l.handed, a, d), v, u)
  {
    var i, j :| 0 <= i < j < |arrivals| && Between(l, arrivals[i], a, d) && Between(l, arrivals[j], a, d)
                && arrivals[i].conn > arrivals[j].conn;
    assert InTurn(l, arrivals, i) && InTurn(l, arrivals, j);
    InTurnBounds(l, arrivals, i);
    InTurnBounds(l, arrivals, j);
    OrderOfTwo(l, arrivals, i, j);
    u, v := PacketAt(l, arrivals[i].pos), PacketAt(l, arrivals[j].pos);
    assert Packets(l, arrivals)[i] == u && Packets(l, arrivals)[j] == v;
    SelPrecedes(Packets(l, arrivals), i, j, a, d);
    SelPrecedes(l.handed, arrivals[j].pos, arrivals[i].pos, a, d);
  }

  lemma {:induction false} CountsAll(l: Link, arrivals: seq<Arrival>, n: nat)
    requires Regular(l, arrivals) && |l.starts| <= 1 && n <= |arrivals|
    ensures Count(arrivals[..n], 0) == n
    decreases n
  {
    if n > 0 {
      CountsAll(l, arrivals, n - 1);
      assert InTurn(l, arrivals, n - 1);
      assert arrivals[..n] == arrivals[..n - 1] + [arrivals[n - 1]];
      CountOne(arrivals[..n - 1], arrivals[n - 1], 0);
    }
  }

  /** On a link that was connected once, everything read so far is the beginning of what was handed over. */
  lemma {:induction false} OneConnectionIsExact(l: Link, arrivals: seq<Arrival>)
    requires Regular(l, arrivals) && |l.starts| <= 1
    ensures |arrivals| <= |l.handed| && Packets(l, arrivals) == l.handed[..|arrivals|]
  {
    forall i | 0 <= i < |arrivals| ensures arrivals[i].pos == i && i < |l.handed| {
      assert InTurn(l, arrivals, i);
      InTurnBounds(l, arrivals, i);
      CountsAll(l, arrivals, i);
    }
    var n := |arrivals|;
    assert n > 0 ==> arrivals[n - 1].pos < |l.handed|;
    assert forall i | 0 <= i < n :: Packets(l, arrivals)[i] == l.handed[i];
  }
}
