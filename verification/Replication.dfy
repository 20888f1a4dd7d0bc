/** Replica agreement: what a gate has been sent always determines the master's current tables. */
module Replication {
  import opened RegistryMessages
  import opened GateMaster
  import opened RoutingTable

  ghost predicate MatchesRecord(r: Route, s: Service, h: Id) {
    r.gate == s.gate && (s.gate != h ==> r.tp == s.tp)
  }

  /**
   * Gate `h`'s table nowhere contradicts an owner the master has recorded, nor the type of a service of
   * another gate. Its own services may carry another type: the master keeps the first type it was told.
   */
  ghost predicate Compatible(t: Table, m: Master, h: Id) {
    forall s | s in t.routes && s in m.services :: MatchesRecord(t.routes[s], m.services[s], h)
  }

  /** Every route and every remote gate in the table is one the master knows. */
  ghost predicate Sound(t: Table, m: Master, h: Id) {
    && Compatible(t, m, h)
    && t.routes.Keys <= m.services.Keys
    && t.remotes.Keys <= m.gates.Keys
  }

  function RouteOf(s: Service): Route {
    Route(s.gate, s.tp, s.online)
  }

  ghost predicate ExactGate(t: Table, m: Master, g: Id)
    requires g in m.gates
  {
    && g in t.remotes && t.remotes[g] == m.gates[g].addresses
    && (forall s | s in m.services && m.services[s].gate == g :: s in t.routes && t.routes[s] == RouteOf(m.services[s]))
  }

  /** The table holds the current addresses and services of every gate other than `h`. */
  ghost predicate Exact(t: Table, m: Master, h: Id) {
    forall g | g in m.gates && g != h :: ExactGate(t, m, g)
  }

  /** Applying a gate's service list sets exactly the routes of that gate. */
  lemma {:induction false} ServicesApplied(t: Table, services: map<Id, Service>, g: Id, list: seq<Id>, n: nat)
    requires n <= |list|
    requires ListsOwn(services, list, g)
    requires forall s | s in t.routes && s in services && services[s].gate == g ::
               t.routes[s].gate == g && t.routes[s].tp == services[s].tp
    ensures var r := AddRemoteServices(t, g, Describe(services, list)[n..]);
            && r.remotes == t.remotes
            && r.routes.Keys == t.routes.Keys + (set i | n <= i < |list| :: list[i])
            && (forall s | s in r.routes ::
                  r.routes[s] == if s in list[n..] then RouteOf(services[s]) else t.routes[s])
    decreases |list| - n
  {
    var infos := Describe(services, list);
    if n < |list| {
      var t' := AddRemoteService(t, g, infos[n]);
      assert infos[n..][1..] == infos[n + 1..];
      assert U16(list[n]) == list[n];
      ServicesApplied(t', services, g, list, n + 1);
      assert list[n..] == [list[n]] + list[n + 1..];
      assert list[n] !in list[n + 1..];
    } else {
      assert infos[n..] == [];
    }
  }

  /** Applying one gate's record makes the table exact for that gate and touches no other gate's routes. */
  lemma GateApplied(t: Table, m: Master, g: Id, h: Id)
    requires Partition(m.gates, m.services) && g in m.gates && Compatible(t, m, h) && g != h
    ensures var r := AddRemoteGate(t, InfoOf(m, g));
            && ExactGate(r, m, g) && Compatible(r, m, h)
            && (forall s | s in t.routes && !(s in m.services && m.services[s].gate == g) ::
                  s in r.routes && r.routes[s] == t.routes[s])
            && r.remotes == t.remotes[g := m.gates[g].addresses]
  {
    var list := m.gates[g].services;
    assert U16(g) == g;
    ServicesApplied(t.(remotes := t.remotes[g := m.gates[g].addresses]), m.services, g, list, 0);
    assert list[0..] == list;
    var infos := Describe(m.services, list);
    assert infos[0..] == infos;
  }

  lemma GateAppliedKeepsOthers(t: Table, m: Master, g: Id, h: Id, x: Id)
    requires Partition(m.gates, m.services) && g in m.gates && x in m.gates && Compatible(t, m, h) && g != h
    requires ExactGate(t, m, x)
    ensures ExactGate(AddRemoteGate(t, InfoOf(m, g)), m, x)
  {
    GateApplied(t, m, g, h);
  }

  /** A snapshot brings any compatible table up to date. */
  lemma {:induction false} SnapshotApplied(t: Table, m: Master, h: Id, order: seq<Id>)
    requires Partition(m.gates, m.services) && Listed(m) && Compatible(t, m, h)
    requires forall i | 0 <= i < |order| :: order[i] in m.gates
    ensures var r := AddRemoteGates(t, Snapshot(m, h, order));
            && Compatible(r, m, h)
            && (forall g | g in order && g != h :: ExactGate(r, m, g))
            && (forall g | g in m.gates && g != h && ExactGate(t, m, g) :: ExactGate(r, m, g))
    decreases |order|
  {
    var infos := Snapshot(m, h, order);
    if order == [] {
    } else if order[0] == h {
      assert infos == Snapshot(m, h, order[1..]);
      SnapshotApplied(t, m, h, order[1..]);
    } else {
      var t' := AddRemoteGate(t, InfoOf(m, order[0]));
      assert infos == [InfoOf(m, order[0])] + Snapshot(m, h, order[1..]);
      assert infos[1..] == Snapshot(m, h, order[1..]);
      GateApplied(t, m, order[0], h);
      forall g | g in m.gates && g != h && ExactGate(t, m, g) ensures ExactGate(t', m, g) {
        GateAppliedKeepsOthers(t, m, order[0], h, g);
      }
      SnapshotApplied(t', m, h, order[1..]);
    }
  }

  // ---------------------------------------------------------------------------
  // Everything ever written is, and stays, true

  /** The record names a known gate and only services the master records under that gate, with their types. */
  ghost predicate TrueInfo(info: GateInfo, m: Master) {
    && U16(info.id) in m.gates
    && (forall i | 0 <= i < |info.services| ::
          var id := U16(info.services[i].id);
          && id in m.services
          && m.services[id].gate == U16(info.id)
          && m.services[id].tp == U16(info.services[i].tp))
  }

  ghost predicate TrueInfos(infos: seq<GateInfo>, m: Master) {
    forall i | 0 <= i < |infos| :: TrueInfo(infos[i], m)
  }

  ghost predicate TrueMessage(msg: Message, m: Master) {
    match msg
    case RegisterAck(_, _, gates) => TrueInfos(gates, m)
    case UploadAck(_, _) => true
    case RegisterBrd(gates) => TrueInfos(gates, m)
  }

  ghost predicate TrueLog(log: map<nat, seq<Message>>, m: Master) {
    forall k, i | k in log && 0 <= i < |log[k]| :: TrueMessage(log[k][i], m)
  }

  /** A snapshot describes every listed gate but the one it is for. */
  lemma {:induction false} SnapshotListsOthers(m: Master, me: Id, order: seq<Id>, g: Id)
    requires Listed(m) && forall i | 0 <= i < |order| :: order[i] in m.gates
    ensures g in order && g != me <==> g in m.gates && InfoOf(m, g) in Snapshot(m, me, order)
    decreases |order|
  {
    if order != [] {
      var x, rest := order[0], order[1..];
      SnapshotListsOthers(m, me, rest, g);
      assert g in order <==> g == x || g in rest;
      assert g in m.gates && g != x ==> InfoOf(m, g).id != InfoOf(m, x).id;
      assert g in m.gates ==> (InfoOf(m, g) in Snapshot(m, me, order) <==>
                               (x != me && InfoOf(m, g) == InfoOf(m, x)) || InfoOf(m, g) in Snapshot(m, me, rest));
    }
  }

  lemma InfoOfIsTrue(m: Master, g: Id)
    requires Partition(m.gates, m.services) && g in m.gates
    ensures TrueInfo(InfoOf(m, g), m)
  {
    assert U16(g) == g;
    forall i | 0 <= i < |m.gates[g].services| ensures U16(m.gates[g].services[i]) == m.gates[g].services[i] {}
  }

  lemma {:induction false} SnapshotIsTrue(m: Master, h: Id, order: seq<Id>)
    requires Partition(m.gates, m.services) && Listed(m)
    requires forall i | 0 <= i < |order| :: order[i] in m.gates
    ensures TrueInfos(Snapshot(m, h, order), m)
    decreases |order|
  {
    if order != [] {
      InfoOfIsTrue(m, order[0]);
      SnapshotIsTrue(m, h, order[1..]);
    }
  }

  lemma TruthIsPermanent(log: map<nat, seq<Message>>, m: Master, m': Master)
    requires TrueLog(log, m) && Grows(m, m')
    ensures TrueLog(log, m')
  {
    forall k, i | k in log && 0 <= i < |log[k]| ensures TrueMessage(log[k][i], m') {
      assert TrueMessage(log[k][i], m);
    }
  }

  lemma WritingTruth(log: map<nat, seq<Message>>, m: Master, k: nat, msg: Message)
    requires TrueLog(log, m) && TrueMessage(msg, m)
    ensures TrueLog(Write(log, k, msg), m)
  {
  }

  lemma {:induction false} PublishingTruth(m: Master, log: map<nat, seq<Message>>, g: Id, order: seq<Id>)
    requires Partition(m.gates, m.services) && Listed(m) && g in m.gates && TrueLog(log, m)
    requires forall i | 0 <= i < |order| :: order[i] in m.gates
    ensures TrueLog(Publish(m, log, g, order), m)
    decreases |order|
  {
    if order != [] {
      var k := m.gates[order[0]].socket;
      var msg := RegisterBrd([InfoOf(m, g)]);
      InfoOfIsTrue(m, g);
      WritingTruth(log, m, k, msg);
      PublishingTruth(m, if k == 0 || order[0] == g then log else Write(log, k, msg), g, order[1..]);
    }
  }

  lemma AnnouncingTruth(b: Master, log: map<nat, seq<Message>>, g: Id, order: seq<Id>)
    requires Partition(b.gates, b.services) && Listed(b) && g in b.gates && TrueLog(log, b)
    requires forall i | 0 <= i < |order| :: order[i] in b.gates
    ensures TrueLog(Announce(b, log, g, order).log, Announce(b, log, g, order))
  {
    PublishingTruth(b, log, g, order);
    var a := Announce(b, log, g, order);
    forall k, i | k in a.log && 0 <= i < |a.log[k]| ensures TrueMessage(a.log[k][i], a) {
      assert TrueMessage(a.log[k][i], b);
    }
  }

  lemma RegisterWritesTruth(m: Master, k: nat, session: nat, info: GateInfo, order: seq<Id>)
    requires Inv(m) && Enabled(m, Receive(k, session, Register(info), order)) && !Refused(m, k, Register(info))
    requires TrueLog(m.log, m)
    ensures var m' := Next(m, Receive(k, session, Register(info), order)); TrueLog(m'.log, m')
  {
    BindKeepsTables(m, k, info);
    var b := Bind(m, k, info);
    var id := U16(info.id);
    var ack := RegisterAck(session, true, Snapshot(b, id, order));
    TruthIsPermanent(m.log, m, b);
    SnapshotIsTrue(b, id, order);
    WritingTruth(m.log, b, k, ack);
    AnnouncingTruth(b, Write(m.log, k, ack), id, order);
  }

  lemma UploadWritesTruth(m: Master, k: nat, session: nat, infos: seq<ServiceInfo>, order: seq<Id>)
    requires Inv(m) && Enabled(m, Receive(k, session, Upload(infos), order)) && !Refused(m, k, Upload(infos))
    requires TrueLog(m.log, m)
    ensures var m' := Next(m, Receive(k, session, Upload(infos), order)); TrueLog(m'.log, m')
  {
    var g := m.sockets[k].value;
    ExtendKeepsTables(m, g, infos);
    var b := Extend(m, g, infos);
    TruthIsPermanent(m.log, m, b);
    WritingTruth(m.log, b, k, UploadAck(session, true));
    AnnouncingTruth(b, Write(m.log, k, UploadAck(session, true)), g, order);
  }

  lemma NextWritesTruth(m: Master, e: Event)
    requires Inv(m) && Enabled(m, e) && TrueLog(m.log, m)
    ensures TrueLog(Next(m, e).log, Next(m, e))
  {
    match e {
      case Accept(_) =>
        TruthIsPermanent(m.log, m, Next(m, e));
      case Receive(k, session, request, order) =>
        if Refused(m, k, request) {
          WritingTruth(m.log, m, k, Refusal(session, request));
          TruthIsPermanent(Next(m, e).log, m, Next(m, e));
        } else {
          match request {
            case Register(info) => RegisterWritesTruth(m, k, session, info, order);
            case Upload(infos) => UploadWritesTruth(m, k, session, infos, order);
          }
        }
      case Disconnect(k, order) =>
        if Current(m, k) {
          var g := m.sockets[k].value;
          UnbindKeepsTables(m, k, g);
          TruthIsPermanent(m.log, m, Unbind(m, k, g));
          AnnouncingTruth(Unbind(m, k, g), m.log, g, order);
        } else {
          TruthIsPermanent(m.log, m, Next(m, e));
        }
    }
  }

  /** In every reachable state every message ever written is still true of the master's tables. */
  lemma {:induction false} LogIsTrue(es: seq<Event>)
    requires Feasible(es)
    ensures TrueLog(After(es).log, After(es))
    decreases |es|
  {
    if es != [] {
      LogIsTrue(es[..|es| - 1]);
      NextWritesTruth(After(es[..|es| - 1]), es[|es| - 1]);
    }
  }

  // ---------------------------------------------------------------------------
  // Applying true messages

  lemma {:induction false} ServicesKeepSound(t: Table, m: Master, g: Id, infos: seq<ServiceInfo>, h: Id)
    requires TrueInfo(GateInfo(g, [], infos), m)
    ensures Compatible(t, m, h) ==> Compatible(AddRemoteServices(t, g, infos), m, h)
    ensures Sound(t, m, h) ==> Sound(AddRemoteServices(t, g, infos), m, h)
    decreases |infos|
  {
    if infos != [] {
      assert U16(g) == g;
      assert GateInfo(g, [], infos).services[0] == infos[0];
      assert forall i | 0 <= i < |infos[1..]| :: infos[1..][i] == GateInfo(g, [], infos).services[i + 1];
      ServicesKeepSound(AddRemoteService(t, g, infos[0]), m, g, infos[1..], h);
    }
  }

  lemma {:induction false} GatesKeepSound(t: Table, m: Master, infos: seq<GateInfo>, h: Id)
    requires TrueInfos(infos, m)
    ensures Compatible(t, m, h) ==> Compatible(AddRemoteGates(t, infos), m, h)
    ensures Sound(t, m, h) ==> Sound(AddRemoteGates(t, infos), m, h)
    decreases |infos|
  {
    if infos != [] {
      var g := U16(infos[0].id);
      assert TrueInfo(infos[0], m);
      assert U16(g) == g;
      ServicesKeepSound(t.(remotes := t.remotes[g := infos[0].addresses]), m, g, infos[0].services, h);
      GatesKeepSound(AddRemoteGate(t, infos[0]), m, infos[1..], h);
    }
  }

  lemma {:induction false} ReplayKeepsSound(t: Table, m: Master, msgs: seq<Message>, h: Id)
    requires forall i | 0 <= i < |msgs| :: TrueMessage(msgs[i], m)
    ensures Compatible(t, m, h) ==> Compatible(Replay(t, msgs), m, h)
    ensures Sound(t, m, h) ==> Sound(Replay(t, msgs), m, h)
    decreases |msgs|
  {
    if msgs != [] {
      var pre := msgs[..|msgs| - 1];
      ReplayKeepsSound(t, m, pre, h);
      var r := Replay(t, pre);
      match msgs[|msgs| - 1]
      case RegisterAck(_, _, gates) => GatesKeepSound(r, m, gates, h);
      case UploadAck(_, _) =>
      case RegisterBrd(gates) => GatesKeepSound(r, m, gates, h);
    }
  }

  // ---------------------------------------------------------------------------
  // Agreement

  /** `b` differs from `m` at most in gate `g`, its binding and its services. */
  ghost predicate OnlyGateChanged(m: Master, b: Master, g: Id) {
    && b.gates.Keys == m.gates.Keys + {g}
    && (forall x | x in m.gates && x != g :: b.gates[x] == m.gates[x])
    && (forall s | s in m.services && m.services[s].gate != g :: s in b.services && b.services[s] == m.services[s])
    && (forall s | s in b.services && b.services[s].gate != g :: s in m.services && m.services[s] == b.services[s])
  }

  /** A table exact before the change is exact for all unchanged gates after it ... */
  lemma ChangeKeepsOthers(r: Table, m: Master, b: Master, g: Id, h: Id)
    requires OnlyGateChanged(m, b, g) && Exact(r, m, h)
    ensures forall x | x in b.gates && x != h && x != g :: ExactGate(r, b, x)
  {
    forall x | x in b.gates && x != h && x != g ensures ExactGate(r, b, x) {
      assert ExactGate(r, m, x);
    }
  }

  /** ... and one broadcast of the changed gate restores agreement. */
  lemma BroadcastRestores(r: Table, m: Master, b: Master, g: Id, h: Id)
    requires Partition(b.gates, b.services) && OnlyGateChanged(m, b, g)
    requires Exact(r, m, h) && Compatible(r, b, h) && g != h
    ensures Exact(Apply(r, RegisterBrd([InfoOf(b, g)])), b, h)
  {
    ChangeKeepsOthers(r, m, b, g, h);
    var info := InfoOf(b, g);
    var r' := AddRemoteGate(r, info);
    assert [info][1..] == [] && [info][0] == info;
    assert AddRemoteGates(r', []) == r';
    assert Apply(r, RegisterBrd([info])) == r';
    GateApplied(r, b, g, h);
    forall x | x in b.gates && x != h ensures ExactGate(r', b, x) {
      if x != g {
        GateAppliedKeepsOthers(r, b, g, h, x);
      }
    }
  }

  ghost predicate Bound(m: Master, h: Id) {
    h in m.gates && m.gates[h].socket != 0
  }

  ghost function Received(t: Table, m: Master, h: Id): Table
    requires Inv(m) && Bound(m, h)
  {
    Replay(t, m.log[m.gates[h].socket])
  }

  ghost predicate Agrees(t: Table, m: Master, h: Id)
    requires Inv(m)
  {
    Bound(m, h) ==> Exact(Received(t, m, h), m, h)
  }

  lemma ReplayOne(t: Table, msgs: seq<Message>, msg: Message)
    ensures Replay(t, msgs + [msg]) == Apply(Replay(t, msgs), msg)
  {
    assert (msgs + [msg])[..|msgs + [msg]| - 1] == msgs;
  }

  /** Every other bound gate's connection gets exactly one copy of the announcement. */
  lemma AnnounceReaches(b: Master, log: map<nat, seq<Message>>, g: Id, order: seq<Id>, h: Id)
    requires Partition(b.gates, b.services) && Listed(b) && Binding(b.(log := log)) && g in b.gates
    requires Enumerates(order, b.gates.Keys) && Bound(b, h)
    ensures var k := b.gates[h].socket;
            && k in log && k in Announce(b, log, g, order).log
            && Announce(b, log, g, order).log[k] == if h == g then log[k] else log[k] + [RegisterBrd([InfoOf(b, g)])]
  {
    BindingIsUnshared(b.(log := log));
    assert Unshared(b);
    PublishWrites(b, log, g, order);
    assert h in order;
  }

  lemma ReplayedAnnouncement(t: Table, m: Master, b: Master, g: Id, h: Id, msgs: seq<Message>)
    requires Partition(b.gates, b.services) && OnlyGateChanged(m, b, g) && Compatible(t, b, h) && g != h
    requires Keeps(m.services, b.services) && Exact(Replay(t, msgs), m, h)
    requires forall i | 0 <= i < |msgs| :: TrueMessage(msgs[i], m)
    ensures Exact(Replay(t, msgs + [RegisterBrd([InfoOf(b, g)])]), b, h)
  {
    assert forall i | 0 <= i < |msgs| :: TrueMessage(msgs[i], b) by {
      forall i | 0 <= i < |msgs| ensures TrueMessage(msgs[i], b) {
        assert TrueMessage(msgs[i], m);
      }
    }
    ReplayKeepsSound(t, b, msgs, h);
    ReplayOne(t, msgs, RegisterBrd([InfoOf(b, g)]));
    BroadcastRestores(Replay(t, msgs), m, b, g, h);
  }

  lemma SameTables(r: Table, m: Master, m': Master, h: Id)
    requires m'.gates == m.gates && m'.services == m.services && Exact(r, m, h)
    ensures Exact(r, m', h)
  {
    forall x | x in m'.gates && x != h ensures ExactGate(r, m', x) {
      assert ExactGate(r, m, x);
    }
  }

  /** A change to gate `g`, announced on top of `log`, seen from another gate that had received up to `m`. */
  lemma AnnounceAgrees(t: Table, m: Master, b: Master, log: map<nat, seq<Message>>, g: Id, order: seq<Id>, h: Id)
    requires Inv(m) && TrueLog(m.log, m) && Agrees(t, m, h)
    requires Partition(b.gates, b.services) && Listed(b) && Binding(b.(log := log)) && OnlyGateChanged(m, b, g)
    requires Enumerates(order, b.gates.Keys) && Grows(m, b.(log := log)) && Compatible(t, b, h)
    requires h != g && (Bound(m, h) ==> m.gates[h].socket in log && log[m.gates[h].socket] == m.log[m.gates[h].socket])
    ensures Inv(Announce(b, log, g, order)) && Agrees(t, Announce(b, log, g, order), h)
  {
    AnnounceKeepsInv(m, b, log, g, order);
    if Bound(m, h) {
      AnnounceReaches(b, log, g, order, h);
      ReplayedAnnouncement(t, m, b, g, h, m.log[m.gates[h].socket]);
      SameTables(Received(t, Announce(b, log, g, order), h), b, Announce(b, log, g, order), h);
    }
  }

  /** The registering connection gets the acknowledgement and nothing after it. */
  lemma RegisterWritesAck(m: Master, k: nat, session: nat, info: GateInfo, order: seq<Id>)
    requires Inv(m) && Enabled(m, Receive(k, session, Register(info), order)) && !Refused(m, k, Register(info))
    ensures var g, b, m' := U16(info.id), Bind(m, k, info), Next(m, Receive(k, session, Register(info), order));
            && Partition(b.gates, b.services) && Listed(b) && Enumerates(order, b.gates.Keys)
            && m'.gates == b.gates && m'.services == b.services && m'.gates[g].socket == k
            && k in m.log && k in m'.log && m'.log[k] == m.log[k] + [RegisterAck(session, true, Snapshot(b, g, order))]
  {
    var g := U16(info.id);
    var b := Bind(m, k, info);
    BindKeepsTables(m, k, info);
    BindKeepsBinding(m, k, info);
    AnnounceReaches(b, Write(m.log, k, RegisterAck(session, true, Snapshot(b, g, order))), g, order, g);
  }

  lemma SnapshotInforms(t: Table, b: Master, msgs: seq<Message>, session: nat, g: Id, order: seq<Id>)
    requires Partition(b.gates, b.services) && Listed(b) && Enumerates(order, b.gates.Keys) && Compatible(t, b, g)
    requires forall i | 0 <= i < |msgs| :: TrueMessage(msgs[i], b)
    ensures Exact(Replay(t, msgs + [RegisterAck(session, true, Snapshot(b, g, order))]), b, g)
  {
    ReplayKeepsSound(t, b, msgs, g);
    SnapshotApplied(Replay(t, msgs), b, g, order);
    ReplayOne(t, msgs, RegisterAck(session, true, Snapshot(b, g, order)));
  }

  /** A registering gate is brought up to date by its acknowledgement, whatever it had received before. */
  lemma RegisterInforms(t: Table, m: Master, k: nat, session: nat, info: GateInfo, order: seq<Id>)
    requires Inv(m) && TrueLog(m.log, m)
    requires Enabled(m, Receive(k, session, Register(info), order)) && !Refused(m, k, Register(info))
    requires Compatible(t, Next(m, Receive(k, session, Register(info), order)), U16(info.id))
    ensures var m' := Next(m, Receive(k, session, Register(info), order)); Inv(m') && Agrees(t, m', U16(info.id))
  {
    var g := U16(info.id);
    var b, m' := Bind(m, k, info), Next(m, Receive(k, session, Register(info), order));
    RegisterKeepsInv(m, k, session, info, order);
    RegisterWritesAck(m, k, session, info, order);
    BindKeepsTables(m, k, info);
    TruthIsPermanent(m.log, m, b);
    SnapshotInforms(t, b, m.log[k], session, g, order);
    SameTables(Received(t, m', g), b, m', g);
  }

  lemma BindChangesOneGate(m: Master, k: nat, info: GateInfo)
    requires Inv(m) && k in m.sockets && !Refused(m, k, Register(info))
    ensures OnlyGateChanged(m, Bind(m, k, info), U16(info.id))
  {
    BindKeepsTables(m, k, info);
  }

  /** The other gates learn of a registration from its broadcast. */
  lemma RegisterAgrees(t: Table, m: Master, k: nat, session: nat, info: GateInfo, order: seq<Id>, h: Id)
    requires Inv(m) && TrueLog(m.log, m) && Agrees(t, m, h) && h != U16(info.id)
    requires Enabled(m, Receive(k, session, Register(info), order)) && !Refused(m, k, Register(info))
    requires Compatible(t, Next(m, Receive(k, session, Register(info), order)), h)
    ensures var m' := Next(m, Receive(k, session, Register(info), order)); Inv(m') && Agrees(t, m', h)
  {
    var g := U16(info.id);
    BindKeepsTables(m, k, info);
    BindKeepsBinding(m, k, info);
    BindChangesOneGate(m, k, info);
    var b := Bind(m, k, info);
    AnnounceAgrees(t, m, b, Write(m.log, k, RegisterAck(session, true, Snapshot(b, g, order))), g, order, h);
  }

  lemma ExtendChangesOneGate(m: Master, g: Id, infos: seq<ServiceInfo>)
    requires Inv(m) && g in m.gates && Accepts(m.services, infos, g)
    ensures OnlyGateChanged(m, Extend(m, g, infos), g)
  {
    ExtendKeepsTables(m, g, infos);
  }

  /** The uploading gate's own connection gets the acknowledgement at most. */
  lemma UploadWritesAck(m: Master, k: nat, session: nat, infos: seq<ServiceInfo>, order: seq<Id>)
    requires Inv(m) && Enabled(m, Receive(k, session, Upload(infos), order)) && !Refused(m, k, Upload(infos))
    requires Bound(m, m.sockets[k].value)
    ensures var h := m.sockets[k].value;
            var kh, b, m' := m.gates[h].socket, Extend(m, h, infos), Next(m, Receive(k, session, Upload(infos), order));
            && m'.gates == b.gates && m'.services == b.services && m'.gates[h].socket == kh
            && kh in m.log && kh in m'.log
            && (m'.log[kh] == m.log[kh] || m'.log[kh] == m.log[kh] + [UploadAck(session, true)])
  {
    var h := m.sockets[k].value;
    ExtendKeepsTables(m, h, infos);
    AnnounceReaches(Extend(m, h, infos), Write(m.log, k, UploadAck(session, true)), h, order, h);
  }

  /** The uploading gate itself learns nothing new of the others. */
  lemma UploadInformsNobody(t: Table, m: Master, k: nat, session: nat, infos: seq<ServiceInfo>, order: seq<Id>)
    requires Inv(m) && Enabled(m, Receive(k, session, Upload(infos), order)) && !Refused(m, k, Upload(infos))
    requires var h := m.sockets[k].value; Bound(m, h) && Agrees(t, m, h)
    ensures var m' := Next(m, Receive(k, session, Upload(infos), order)); Inv(m') && Agrees(t, m', m.sockets[k].value)
  {
    var h := m.sockets[k].value;
    var b, kh := Extend(m, h, infos), m.gates[h].socket;
    UploadKeepsInv(m, k, session, infos, order);
    UploadWritesAck(m, k, session, infos, order);
    ExtendChangesOneGate(m, h, infos);
    ReplayOne(t, m.log[kh], UploadAck(session, true));
    ChangeKeepsOthers(Replay(t, m.log[kh]), m, b, h, h);
    SameTables(Replay(t, m.log[kh]), b, Next(m, Receive(k, session, Upload(infos), order)), h);
  }

  lemma UploadAgrees(t: Table, m: Master, k: nat, session: nat, infos: seq<ServiceInfo>, order: seq<Id>, h: Id)
    requires Inv(m) && TrueLog(m.log, m) && Agrees(t, m, h)
    requires Enabled(m, Receive(k, session, Upload(infos), order)) && !Refused(m, k, Upload(infos))
    requires Compatible(t, Next(m, Receive(k, session, Upload(infos), order)), h)
    ensures var m' := Next(m, Receive(k, session, Upload(infos), order)); Inv(m') && Agrees(t, m', h)
  {
    var g := m.sockets[k].value;
    UploadKeepsInv(m, k, session, infos, order);
    ExtendKeepsTables(m, g, infos);
    ExtendChangesOneGate(m, g, infos);
    if h != g {
      AnnounceAgrees(t, m, Extend(m, g, infos), Write(m.log, k, UploadAck(session, true)), g, order, h);
    } else if Bound(m, h) {
      UploadInformsNobody(t, m, k, session, infos, order);
    }
  }

  lemma UnbindChangesOneGate(m: Master, k: nat, g: Id)
    requires Inv(m) && g in m.gates
    ensures OnlyGateChanged(m, Unbind(m, k, g), g)
  {
    assert ListsOwn(m.services, m.gates[g].services, g);
  }

  lemma DisconnectAgrees(t: Table, m: Master, k: nat, order: seq<Id>, h: Id)
    requires Inv(m) && TrueLog(m.log, m) && Agrees(t, m, h)
    requires Enabled(m, Disconnect(k, order))
    requires Compatible(t, Next(m, Disconnect(k, order)), h)
    ensures var m' := Next(m, Disconnect(k, order)); Inv(m') && Agrees(t, m', h)
  {
    DisconnectKeepsInv(m, k, order);
    if !Current(m, k) {
      if Bound(m, h) {
        SameTables(Received(t, m, h), m, Next(m, Disconnect(k, order)), h);
      }
    } else {
      var g := m.sockets[k].value;
      if h != g {
        UnbindKeepsTables(m, k, g);
        UnbindChangesOneGate(m, k, g);
        AnnounceAgrees(t, m, Unbind(m, k, g), m.log, g, order, h);
      }
    }
  }

  lemma NextAgrees(t: Table, m: Master, e: Event, h: Id)
    requires Inv(m) && Enabled(m, e) && TrueLog(m.log, m) && Agrees(t, m, h)
    requires Compatible(t, Next(m, e), h)
    ensures Inv(Next(m, e)) && Agrees(t, Next(m, e), h)
  {
    NextKeepsInv(m, e);
    var m' := Next(m, e);
    match e {
      case Accept(_) =>
        if Bound(m', h) {
          SameTables(Received(t, m, h), m, m', h);
        }
      case Receive(k, session, request, order) =>
        if Refused(m, k, request) {
          if Bound(m', h) {
            ReplayOne(t, m.log[k], Refusal(session, request));
            assert Received(t, m', h) == Received(t, m, h);
            SameTables(Received(t, m, h), m, m', h);
          }
        } else {
          match request {
            case Register(info) =>
              if h == U16(info.id) {
                RegisterInforms(t, m, k, session, info, order);
              } else {
                RegisterAgrees(t, m, k, session, info, order, h);
              }
            case Upload(infos) => UploadAgrees(t, m, k, session, infos, order, h);
          }
        }
      case Disconnect(k, order) => DisconnectAgrees(t, m, k, order, h);
    }
  }

  lemma {:induction false} RunAgrees(t: Table, es: seq<Event>, h: Id)
    requires Feasible(es) && Compatible(t, After(es), h)
    ensures Agrees(t, After(es), h)
    decreases |es|
  {
    if es != [] {
      var pre, e := es[..|es| - 1], es[|es| - 1];
      var m := After(pre);
      NextKeepsInv(m, e);
      assert Compatible(t, m, h);
      RunAgrees(t, pre, h);
      LogIsTrue(pre);
      NextAgrees(t, m, e, h);
    }
  }

  /**
   * After any run, replaying what was written to a bound gate's connection over any table the gate may have
   * started from gives exactly the master's services and addresses of all other gates.
   */
  lemma ReplicaAgreement(t: Table, es: seq<Event>, h: Id)
    requires Feasible(es) && Sound(t, After(es), h) && Bound(After(es), h)
    ensures var m := After(es);
            var r := Received(t, m, h);
            && (forall g | g in m.gates && g != h :: g in r.remotes && r.remotes[g] == m.gates[g].addresses)
            && (forall s: Id :: s in r.routes && r.routes[s].gate != h <==> s in m.services && m.services[s].gate != h)
            && (forall s | s in r.routes && r.routes[s].gate != h :: r.routes[s] == RouteOf(m.services[s]))
            && r.remotes.Keys <= m.gates.Keys
  {
    var m := After(es);
    RunAgrees(t, es, h);
    LogIsTrue(es);
    ReplayKeepsSound(t, m, m.log[m.gates[h].socket], h);
    var r := Received(t, m, h);
    forall g | g in m.gates && g != h ensures ExactGate(r, m, g) {
      assert Exact(r, m, h);
    }
  }
}
