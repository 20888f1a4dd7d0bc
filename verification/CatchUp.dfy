/** A gate that has read its connection in order needs only the rest of it to agree with the master. */
module CatchUp {
  import opened RegistryMessages
  import opened GateMaster
  import opened RoutingTable
  import opened Replication
  import opened Cluster

  predicate Foreign(t: Table, s: Id, h: Id) {
    s in t.routes && t.routes[s].gate != h
  }

  /** The two tables of gate `h` say the same of all other gates. */
  ghost predicate SameForeign(t: Table, u: Table, h: Id) {
    && t.remotes == u.remotes
    && (forall s: Id :: Foreign(t, s, h) <==> Foreign(u, s, h))
    && (forall s: Id | Foreign(t, s, h) :: t.routes[s] == u.routes[s])
  }

  /** A service of `g` is routed to `g` in both tables, if at all. */
  lemma ServiceSame(t: Table, u: Table, g: Id, info: ServiceInfo, h: Id)
    requires SameForeign(t, u, h)
    requires U16(info.id) in t.routes ==> t.routes[U16(info.id)].gate == g
    requires U16(info.id) in u.routes ==> u.routes[U16(info.id)].gate == g
    ensures SameForeign(AddRemoteService(t, g, info), AddRemoteService(u, g, info), h)
  {
    var id, t', u' := U16(info.id), AddRemoteService(t, g, info), AddRemoteService(u, g, info);
    forall s: Id
      ensures Foreign(t', s, h) <==> Foreign(u', s, h)
      ensures Foreign(t', s, h) ==> t'.routes[s] == u'.routes[s]
    {
      assert Foreign(t, s, h) <==> Foreign(u, s, h);
      assert Foreign(t, id, h) <==> Foreign(u, id, h);
    }
  }

  lemma SoundRoute(t: Table, m: Master, h: Id, s: Id, g: Id)
    requires Sound(t, m, h) && s in m.services && m.services[s].gate == g
    ensures s in t.routes ==> t.routes[s].gate == g
  {
    assert s in t.routes ==> MatchesRecord(t.routes[s], m.services[s], h);
  }

  lemma {:induction false} ServicesSame(t: Table, u: Table, m: Master, g: Id, infos: seq<ServiceInfo>, h: Id)
    requires SameForeign(t, u, h) && Sound(t, m, h) && Sound(u, m, h) && TrueInfo(GateInfo(g, [], infos), m)
    ensures SameForeign(AddRemoteServices(t, g, infos), AddRemoteServices(u, g, infos), h)
    decreases |infos|
  {
    if infos != [] {
      var one, rest := [infos[0]], infos[1..];
      assert U16(g) == g;
      assert GateInfo(g, [], infos).services[0] == infos[0];
      assert forall i | 0 <= i < |rest| :: rest[i] == GateInfo(g, [], infos).services[i + 1];
      SoundRoute(t, m, h, U16(infos[0].id), g);
      SoundRoute(u, m, h, U16(infos[0].id), g);
      ServiceSame(t, u, g, infos[0], h);
      assert TrueInfo(GateInfo(g, [], one), m);
      ServicesKeepSound(t, m, g, one, h);
      ServicesKeepSound(u, m, g, one, h);
      assert AddRemoteServices(t, g, one) == AddRemoteService(t, g, infos[0]);
      assert AddRemoteServices(u, g, one) == AddRemoteService(u, g, infos[0]);
      ServicesSame(AddRemoteService(t, g, infos[0]), AddRemoteService(u, g, infos[0]), m, g, rest, h);
    }
  }

  lemma GateSame(t: Table, u: Table, m: Master, info: GateInfo, h: Id)
    requires SameForeign(t, u, h) && Sound(t, m, h) && Sound(u, m, h) && TrueInfo(info, m)
    ensures SameForeign(AddRemoteGate(t, info), AddRemoteGate(u, info), h)
    ensures Sound(AddRemoteGate(t, info), m, h) && Sound(AddRemoteGate(u, info), m, h)
  {
    var g := U16(info.id);
    var t', u' := t.(remotes := t.remotes[g := info.addresses]), u.(remotes := u.remotes[g := info.addresses]);
    assert U16(g) == g;
    assert SameForeign(t', u', h) by {
      assert forall s: Id :: Foreign(t', s, h) <==> Foreign(t, s, h);
      assert forall s: Id :: Foreign(u', s, h) <==> Foreign(u, s, h);
    }
    ServicesKeepSound(t', m, g, info.services, h);
    ServicesKeepSound(u', m, g, info.services, h);
    ServicesSame(t', u', m, g, info.services, h);
  }

  lemma {:induction false} GatesSame(t: Table, u: Table, m: Master, infos: seq<GateInfo>, h: Id)
    requires SameForeign(t, u, h) && Sound(t, m, h) && Sound(u, m, h) && TrueInfos(infos, m)
    ensures SameForeign(AddRemoteGates(t, infos), AddRemoteGates(u, infos), h)
    decreases |infos|
  {
    if infos != [] {
      assert TrueInfo(infos[0], m);
      GateSame(t, u, m, infos[0], h);
      GatesSame(AddRemoteGate(t, infos[0]), AddRemoteGate(u, infos[0]), m, infos[1..], h);
    }
  }

  lemma MessageSame(t: Table, u: Table, m: Master, msg: Message, h: Id)
    requires SameForeign(t, u, h) && Sound(t, m, h) && Sound(u, m, h) && TrueMessage(msg, m)
    ensures SameForeign(Apply(t, msg), Apply(u, msg), h)
  {
    match msg
    case RegisterAck(_, _, gates) => GatesSame(t, u, m, gates, h);
    case UploadAck(_, _) =>
    case RegisterBrd(gates) => GatesSame(t, u, m, gates, h);
  }

  ghost predicate AllTrue(msgs: seq<Message>, m: Master) {
    forall i | 0 <= i < |msgs| :: TrueMessage(msgs[i], m)
  }

  /** Replaying the same true messages over two such tables keeps them so. */
  lemma {:induction false} ReplaySame(t: Table, u: Table, m: Master, msgs: seq<Message>, h: Id)
    requires SameForeign(t, u, h) && Sound(t, m, h) && Sound(u, m, h) && AllTrue(msgs, m)
    ensures SameForeign(Replay(t, msgs), Replay(u, msgs), h)
    decreases |msgs|
  {
    if msgs != [] {
      var init, last := msgs[..|msgs| - 1], msgs[|msgs| - 1];
      ReplaySame(t, u, m, init, h);
      ReplayKeepsSound(t, m, init, h);
      ReplayKeepsSound(u, m, init, h);
      MessageSame(Replay(t, init), Replay(u, init), m, last, h);
    }
  }

  lemma {:induction false} ReplayConcat(t: Table, xs: seq<Message>, ys: seq<Message>)
    ensures Replay(t, xs + ys) == Replay(Replay(t, xs), ys)
    decreases |ys|
  {
    if ys == [] {
      assert xs + ys == xs;
    } else {
      assert (xs + ys)[..|xs + ys| - 1] == xs + ys[..|ys| - 1];
      ReplayConcat(t, xs, ys[..|ys| - 1]);
    }
  }

  // ---------------------------------------------------------------------------
  // One connection read in order

  /** Gate `h` made connection `k` with table `t0`, and has applied the first `n` messages of it, and no others. */
  ghost predicate InStep(w: World, h: Id, k: nat, n: nat, t0: Table) {
    && k in w.peer && w.peer[k] == h && h in w.procs && k in w.master.log && n <= |w.master.log[k]|
    && Sound(t0, w.master, h)
    && SameForeign(w.procs[h].table, Replay(t0, w.master.log[k][..n]), h)
  }

  lemma LocalSame(t: Table, u: Table, v: Table, h: Id)
    requires SameForeign(t, u, h) && v.remotes == t.remotes
    requires forall s: Id :: Foreign(v, s, h) <==> Foreign(t, s, h)
    requires forall s: Id | Foreign(t, s, h) :: s in v.routes && v.routes[s] == t.routes[s]
    ensures SameForeign(v, u, h)
  {
    forall s: Id
      ensures Foreign(v, s, h) <==> Foreign(u, s, h)
      ensures Foreign(v, s, h) ==> v.routes[s] == u.routes[s]
    {
      assert Foreign(t, s, h) <==> Foreign(u, s, h);
    }
  }

  /** A step that applies no message to gate `h`, and does not restart it. */
  predicate Elsewhere(w: World, e: Step, h: Id) {
    match e
    case Restart(g) => g != h
    case GateReceives(c, _) => c in w.peer && w.peer[c] != h
    case _ => true
  }

  lemma MasterStepInStep(w: World, e: Event, h: Id, k: nat, n: nat, t0: Table)
    requires Inv(w.master) && Enabled(w.master, e) && InStep(w, h, k, n, t0)
    ensures InStep(w.(master := Next(w.master, e)), h, k, n, t0)
  {
    NextAppends(w.master, e, k);
    NextKeepsInv(w.master, e);
    SoundIsPermanent(t0, w.master, Next(w.master, e), h);
    assert Next(w.master, e).log[k][..n] == w.master.log[k][..n];
  }

  lemma LocalInStep(w: World, w': World, h: Id, k: nat, n: nat, t0: Table)
    requires InStep(w, h, k, n, t0) && w'.master == w.master && h in w'.procs
    requires k in w'.peer && w'.peer[k] == h && w'.procs[h].table == w.procs[h].table
    ensures InStep(w', h, k, n, t0)
  {
  }

  lemma SetOnlineInStep(w: World, s: Id, online: bool, h: Id, k: nat, n: nat, t0: Table)
    requires InStep(w, h, k, n, t0) && IsLocal(w.procs[h], h, s)
    ensures var t := w.procs[h].table;
            var v := t.(routes := t.routes[s := t.routes[s].(online := online)]);
            InStep(w.(procs := w.procs[h := w.procs[h].(table := v)]), h, k, n, t0)
  {
    var t := w.procs[h].table;
    LocalSame(t, Replay(t0, w.master.log[k][..n]), t.(routes := t.routes[s := t.routes[s].(online := online)]), h);
  }

  /** The master's part of a step, if it has one. */
  lemma MasterPartInStep(w: World, e: Step, h: Id, k: nat, n: nat, t0: Table)
    requires WorldInv(w) && Possible(w, e) && InStep(w, h, k, n, t0)
    ensures InStep(w.(master := Take(w, e).master), h, k, n, t0)
  {
    MasterMoves(w, e);
    match MasterEvent(e) {
      case Some(x) => MasterStepInStep(w, x, h, k, n, t0);
      case None =>
    }
  }

  /** The rest of a step that applies no message to `h`: its table is as it was, or a local service changed. */
  lemma TableElsewhere(w: World, e: Step, h: Id, k: nat)
    requires Inv(w.master) && Possible(w, e) && Elsewhere(w, e, h) && h in w.procs
    requires k in w.peer && k in w.master.log
    ensures h in Take(w, e).procs && k in Take(w, e).peer && Take(w, e).peer[k] == w.peer[k]
    ensures (e.SetOnline? && e.h == h) || Take(w, e).procs[h].table == w.procs[h].table
  {
  }

  lemma StepInStep(w: World, e: Step, h: Id, k: nat, n: nat, t0: Table)
    requires WorldInv(w) && Possible(w, e) && InStep(w, h, k, n, t0) && Elsewhere(w, e, h)
    ensures InStep(Take(w, e), h, k, n, t0)
  {
    if e.SetOnline? && e.h == h {
      SetOnlineInStep(w, e.s, e.online, h, k, n, t0);
    } else {
      MasterPartInStep(w, e, h, k, n, t0);
      TableElsewhere(w, e, h, k);
      LocalInStep(w.(master := Take(w, e).master), Take(w, e), h, k, n, t0);
    }
  }

  /** An acknowledged registration adds at most a local service. */
  lemma AddLocalSame(t: Table, u: Table, h: Id, info: ServiceInfo)
    requires SameForeign(t, u, h)
    ensures SameForeign(AddLocal(t, h, info), u, h)
  {
    LocalSame(t, u, AddLocal(t, h, info), h);
  }

  lemma NextMessageInStep(w: World, h: Id, k: nat, n: nat, t0: Table)
    requires WorldInv(w) && InStep(w, h, k, n, t0) && n < |w.master.log[k]|
    ensures InStep(Take(w, GateReceives(k, n)), h, k, n + 1, t0)
  {
    var log, t, msg := w.master.log[k], w.procs[h].table, w.master.log[k][n];
    var r := Replay(t0, log[..n]);
    assert Replay(t0, log[..n + 1]) == Apply(r, msg) by { assert log[..n + 1][..n] == log[..n]; }
    assert Sound(t, w.master, h) && TrueMessage(msg, w.master);
    assert Sound(r, w.master, h) by { ReplayKeepsSound(t0, w.master, log[..n], h); }
    MessageSame(t, r, w.master, msg, h);
    if msg.UploadAck? && msg.session in w.procs[h].pending {
      AddLocalSame(t, r, h, w.procs[h].pending[msg.session]);
    }
  }

  // ---------------------------------------------------------------------------
  // Whole runs

  /** How the count of messages applied in order changes in step `e`. */
  ghost function ReadAfter(w: World, e: Step, h: Id, k: nat, n: Option<nat>): Option<nat> {
    if e.Connect? && e.k == k then (if e.h == h then Some(0) else None)
    else if e.GateReceives? && e.k == k && n == Some(e.i) then Some(e.i + 1)
    else if Elsewhere(w, e, h) then n
    else None
  }

  /** How many messages of connection `k` gate `h` has applied, if since it was made it applied just these, in order. */
  ghost function ReadInOrder(es: seq<Step>, h: Id, k: nat): Option<nat>
    requires CanRun(es)
    decreases |es|
  {
    if es == [] then None
    else
      var before := es[..|es| - 1];
      ReadAfter(Reached(before), es[|es| - 1], h, k, ReadInOrder(before, h, k))
  }

  lemma ConnectInStep(w: World, h: Id, k: nat)
    requires WorldInv(w) && Possible(w, Connect(h, k))
    ensures InStep(Take(w, Connect(h, k)), h, k, 0, w.procs[h].table)
  {
    var t := w.procs[h].table;
    NextKeepsInv(w.master, Accept(k));
    assert Sound(t, w.master, h);
    SoundIsPermanent(t, w.master, Next(w.master, Accept(k)), h);
    assert Take(w, Connect(h, k)).master.log[k][..0] == [];
  }

  lemma AfterInStep(w: World, e: Step, h: Id, k: nat, n: Option<nat>, t: Table) returns (t0: Table)
    requires WorldInv(w) && Possible(w, e) && (n.Some? ==> InStep(w, h, k, n.value, t))
    requires ReadAfter(w, e, h, k, n).Some?
    ensures InStep(Take(w, e), h, k, ReadAfter(w, e, h, k, n).value, t0)
  {
    if e.Connect? && e.k == k {
      ConnectInStep(w, h, k);
      return w.procs[h].table;
    }
    t0 := t;
    if e.GateReceives? && e.k == k && n == Some(e.i) {
      NextMessageInStep(w, h, k, e.i, t);
    } else {
      StepInStep(w, e, h, k, n.value, t);
    }
  }

  lemma {:induction false} RunInStep(es: seq<Step>, h: Id, k: nat) returns (t0: Table)
    requires CanRun(es) && ReadInOrder(es, h, k).Some?
    ensures InStep(Reached(es), h, k, ReadInOrder(es, h, k).value, t0)
    decreases |es|
  {
    var before := es[..|es| - 1];
    var n := ReadInOrder(before, h, k);
    t0 := Table(map[], map[]);
    if n.Some? {
      t0 := RunInStep(before, h, k);
    }
    t0 := AfterInStep(Reached(before), es[|es| - 1], h, k, n, t0);
  }

  /** The master's tables of the other gates, exactly. */
  ghost predicate ExactForeign(t: Table, m: Master, h: Id) {
    && (forall g | g in m.gates && g != h :: g in t.remotes && t.remotes[g] == m.gates[g].addresses)
    && (forall s: Id :: Foreign(t, s, h) <==> s in m.services && m.services[s].gate != h)
    && (forall s: Id | Foreign(t, s, h) :: t.routes[s] == RouteOf(m.services[s]))
  }

  lemma ReplayInTwo(t: Table, m: Master, h: Id, log: seq<Message>, n: nat, t0: Table)
    requires Sound(t, m, h) && Sound(t0, m, h) && AllTrue(log, m) && n <= |log|
    requires SameForeign(t, Replay(t0, log[..n]), h)
    ensures SameForeign(Replay(t, log[n..]), Replay(t0, log), h)
  {
    var r := Replay(t0, log[..n]);
    assert Replay(t0, log) == Replay(r, log[n..]) by {
      assert log == log[..n] + log[n..];
      ReplayConcat(t0, log[..n], log[n..]);
    }
    assert Sound(r, m, h) by { ReplayKeepsSound(t0, m, log[..n], h); }
    ReplaySame(t, r, m, log[n..], h);
  }

  lemma ForeignExact(t: Table, u: Table, m: Master, h: Id)
    requires SameForeign(t, u, h)
    requires forall g | g in m.gates && g != h :: g in u.remotes && u.remotes[g] == m.gates[g].addresses
    requires forall s: Id :: s in u.routes && u.routes[s].gate != h <==> s in m.services && m.services[s].gate != h
    requires forall s | s in u.routes && u.routes[s].gate != h :: u.routes[s] == RouteOf(m.services[s])
    ensures ExactForeign(t, m, h)
  {
    forall s: Id
      ensures Foreign(t, s, h) <==> s in m.services && m.services[s].gate != h
      ensures Foreign(t, s, h) ==> t.routes[s] == RouteOf(m.services[s])
    {
      assert Foreign(t, s, h) <==> Foreign(u, s, h);
    }
  }

  lemma RestAgrees(t: Table, ms: seq<Event>, h: Id, n: nat, t0: Table)
    requires Feasible(ms) && Bound(After(ms), h)
    requires var m := After(ms);
             var log := m.log[m.gates[h].socket];
             && Sound(t, m, h) && Sound(t0, m, h) && AllTrue(log, m) && n <= |log|
             && SameForeign(t, Replay(t0, log[..n]), h)
    ensures var m := After(ms); ExactForeign(Replay(t, m.log[m.gates[h].socket][n..]), m, h)
  {
    var m := After(ms);
    var log := m.log[m.gates[h].socket];
    ReplayInTwo(t, m, h, log, n, t0);
    ReplicaAgreement(t0, ms, h);
    ForeignExact(Replay(t, log[n..]), Replay(t0, log), m, h);
  }

  /**
   * In every run of the whole system, a bound gate that has read its connection in order, whatever it knew before and
   * whatever it registered in between, agrees with the master on all other gates once it applies just the unread rest.
   */
  lemma RestIsEnough(es: seq<Step>, h: Id)
    requires CanRun(es) && Bound(Reached(es).master, h)
    requires ReadInOrder(es, h, Reached(es).master.gates[h].socket).Some?
    ensures var w := Reached(es);
            var k := w.master.gates[h].socket;
            var n := ReadInOrder(es, h, k).value;
            && h in w.procs && k in w.master.log && n <= |w.master.log[k]|
            && ExactForeign(Replay(w.procs[h].table, w.master.log[k][n..]), w.master, h)
  {
    var w := Reached(es);
    var k := w.master.gates[h].socket;
    var t0 := RunInStep(es, h, k);
    var ms := MasterRun(es);
    assert Sound(w.procs[h].table, w.master, h) && AllTrue(w.master.log[k], w.master);
    RestAgrees(w.procs[h].table, ms, h, ReadInOrder(es, h, k).value, t0);
  }
}
