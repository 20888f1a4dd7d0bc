/** What registrations and updates achieve, from any state of the whole system, when their messages get through. */
module ClusterProgress {
  import opened RegistryMessages
  import opened GateMaster
  import opened RoutingTable
  import opened Replication
  import opened Cluster
  import opened MasterHistory

  /** Step `e` is possible in `w` and leads to `w'`. */
  ghost predicate Goes(w: World, e: Step, w': World) {
    Inv(w.master) && Possible(w, e) && w' == Take(w, e)
  }

  lemma OneMore(es: seq<Step>, e: Step, w': World)
    requires CanRun(es) && Goes(Reached(es), e, w')
    ensures CanRun(es + [e]) && Reached(es + [e]) == w'
  {
    assert (es + [e])[..|es + [e]| - 1] == es;
  }

  lemma TwoMore(es: seq<Step>, e: Step, f: Step, w1: World, w2: World)
    requires CanRun(es) && Goes(Reached(es), e, w1) && Goes(w1, f, w2)
    ensures CanRun(es + [e] + [f]) && Reached(es + [e] + [f]) == w2
  {
    OneMore(es, e, w1);
    OneMore(es + [e], f, w2);
  }

  lemma ThreeMore(es: seq<Step>, e: Step, f: Step, g: Step, w1: World, w2: World, w3: World)
    requires CanRun(es) && Goes(Reached(es), e, w1) && Goes(w1, f, w2) && Goes(w2, g, w3)
    ensures CanRun(es + [e] + [f] + [g]) && Reached(es + [e] + [f] + [g]) == w3
  {
    TwoMore(es, e, f, w1, w2);
    OneMore(es + [e] + [f], g, w3);
  }

  /** The gate process that opened connection `k`. */
  function ProcOf(w: World, k: nat): Proc
    requires k in w.peer && w.peer[k] in w.procs
  {
    w.procs[w.peer[k]]
  }

  /** Connection `k` is open and stands for the gate that opened it. */
  ghost predicate Attached(w: World, k: nat) {
    && k in w.peer && w.peer[k] in w.procs && k in w.master.log
    && k in w.master.sockets && w.master.sockets[k] == Some(w.peer[k])
  }

  /** The answer to an upload is all that is written to the connection it came on. */
  lemma UploadIsAnswered(m: Master, k: nat, session: nat, infos: seq<ServiceInfo>, order: seq<Id>)
    requires Inv(m) && Enabled(m, Receive(k, session, Upload(infos), order)) && m.sockets[k].Some? && k in m.log
    ensures var m' := Next(m, Receive(k, session, Upload(infos), order));
            k in m'.log && m'.log[k] == m.log[k] + [UploadAck(session, !Refused(m, k, Upload(infos)))]
  {
    if !Refused(m, k, Upload(infos)) {
      var g := m.sockets[k].value;
      ExtendKeepsTables(m, g, infos);
      var b, log := Extend(m, g, infos), Write(m.log, k, UploadAck(session, true));
      assert Binding(b.(log := log));
      BindingIsUnshared(b.(log := log));
      assert Unshared(b);
      PublishWrites(b, log, g, order);
      assert !Hears(b, g, k, order);
    }
  }

  lemma UploadIsRecorded(m: Master, k: nat, session: nat, info: ServiceInfo, order: seq<Id>)
    requires Inv(m) && Enabled(m, Receive(k, session, Upload([info]), order)) && !Refused(m, k, Upload([info]))
    ensures var m' := Next(m, Receive(k, session, Upload([info]), order));
            Find(m'.services, U16(info.id)) ==
            Told(Find(m.services, U16(info.id)), [info], m.sockets[k].value, U16(info.id))
  {
    var g := m.sockets[k].value;
    AddServicesTell(Tables(m.services, m.gates[g].services), [info], g, U16(info.id));
  }

  lemma UploadDecided(m: Master, k: nat, info: ServiceInfo)
    requires k in m.sockets && m.sockets[k].Some?
    ensures !Refused(m, k, Upload([info])) <==>
            (U16(info.id) in m.services ==> m.services[U16(info.id)].gate == m.sockets[k].value)
  {
    assert [info][0] == info;
  }

  // ---------------------------------------------------------------------------
  // A new service

  /** The id is free, or this gate's already. */
  ghost predicate Available(m: Master, id: Id, h: Id) {
    id in m.services ==> m.services[id].gate == h
  }

  function RegistrationOf(k: nat, session: nat, info: ServiceInfo): Envelope {
    Envelope(k, session, Upload([info.(online := false)]))
  }

  /** The gate has asked for the id, and the master has answered. */
  ghost predicate Answered(w: World, w': World, k: nat, session: nat, info: ServiceInfo)
    requires Attached(w, k)
  {
    var h, granted := w.peer[k], Available(w.master, U16(info.id), w.peer[k]);
    && w'.peer == w.peer && h in w'.procs
    && w'.procs[h].table == w.procs[h].table && w'.procs[h].pending == w.procs[h].pending[session := info]
    && k in w'.master.log && w'.master.log[k] == w.master.log[k] + [UploadAck(session, granted)]
    && (granted ==> Owned(w'.master, U16(info.id), h))
  }

  lemma RegistrationArrives(w: World, k: nat, session: nat, info: ServiceInfo, order: seq<Id>)
      returns (w1: World, w2: World)
    requires Inv(w.master) && Attached(w, k) && Possible(w, BeginRegistration(k, session, info))
    requires Enumerates(order, w.master.gates.Keys)
    ensures Goes(w, BeginRegistration(k, session, info), w1)
    ensures Goes(w1, MasterReceives(RegistrationOf(k, session, info), order), w2)
    ensures Answered(w, w2, k, session, info) && Inv(w2.master)
  {
    var infos := [info.(online := false)];
    w1 := Take(w, BeginRegistration(k, session, info));
    w2 := Take(w1, MasterReceives(RegistrationOf(k, session, info), order));
    UploadIsAnswered(w.master, k, session, infos, order);
    UploadDecided(w.master, k, infos[0]);
    NextKeepsInv(w.master, Receive(k, session, Upload(infos), order));
    if Available(w.master, U16(info.id), w.peer[k]) {
      UploadEarnsOwnership(w.master, Receive(k, session, Upload(infos), order));
    }
  }

  /** The registration is over: the id is this gate's, online, with its type, or it stays out. */
  ghost predicate Settled(w: World, w': World, k: nat, session: nat, info: ServiceInfo)
    requires Attached(w, k)
  {
    var h, id := w.peer[k], U16(info.id);
    && h in w'.procs && w'.procs[h].pending == w.procs[h].pending - {session}
    && (if Available(w.master, id, h)
        then w'.procs[h].table.routes == w.procs[h].table.routes[id := Route(h, U16(info.tp), true)] &&
             Owned(w'.master, id, h)
        else w'.procs[h].table.routes == w.procs[h].table.routes)
  }

  lemma AnswerIsHeeded(w: World, w2: World, k: nat, session: nat, info: ServiceInfo) returns (w3: World)
    requires Attached(w, k) && Answered(w, w2, k, session, info) && Inv(w2.master)
    requires U16(info.id) !in ProcOf(w, k).table.routes && session !in ProcOf(w, k).pending
    ensures Goes(w2, GateReceives(k, |w.master.log[k]|), w3) && Settled(w, w3, k, session, info)
  {
    assert w2.master.log[k][|w.master.log[k]|].UploadAck?;
    w3 := Take(w2, GateReceives(k, |w.master.log[k]|));
  }

  lemma UnusedIsNotPending(es: seq<Step>, h: Id, session: nat)
    requires CanRun(es) && h in Reached(es).procs && session !in Reached(es).procs[h].used
    ensures session !in Reached(es).procs[h].pending
  {
  }

  lemma RegistrationTaken(w: World, k: nat, session: nat, info: ServiceInfo, order: seq<Id>)
      returns (w1: World, w2: World, w3: World)
    requires Inv(w.master) && Attached(w, k) && Possible(w, BeginRegistration(k, session, info))
    requires Enumerates(order, w.master.gates.Keys) && session !in ProcOf(w, k).pending
    ensures Goes(w, BeginRegistration(k, session, info), w1)
    ensures Goes(w1, MasterReceives(RegistrationOf(k, session, info), order), w2)
    ensures Goes(w2, GateReceives(k, |w.master.log[k]|), w3)
    ensures Settled(w, w3, k, session, info)
  {
    w1, w2 := RegistrationArrives(w, k, session, info, order);
    w3 := AnswerIsHeeded(w, w2, k, session, info);
  }

  /**
   * From any state of the system, a registration whose messages get through is decided by the master's records: the id
   * becomes this gate's, online, with its type, if it was free or this gate's already, and stays out otherwise.
   */
  lemma RegistrationCompletes(es: seq<Step>, k: nat, session: nat, info: ServiceInfo, order: seq<Id>)
    requires CanRun(es) && Attached(Reached(es), k) && Possible(Reached(es), BeginRegistration(k, session, info))
    requires Enumerates(order, Reached(es).master.gates.Keys)
    ensures var w := Reached(es);
            var run := es + [BeginRegistration(k, session, info)] +
                       [MasterReceives(RegistrationOf(k, session, info), order)] +
                       [GateReceives(k, |w.master.log[k]|)];
            CanRun(run) && Settled(w, Reached(run), k, session, info)
  {
    var w := Reached(es);
    UnusedIsNotPending(es, w.peer[k], session);
    var w1, w2, w3 := RegistrationTaken(w, k, session, info, order);
    ThreeMore(es, BeginRegistration(k, session, info), MasterReceives(RegistrationOf(k, session, info), order),
              GateReceives(k, |w.master.log[k]|), w1, w2, w3);
  }

  /** The registration was given up: its session waits for nothing, and its answer changes nothing any more. */
  ghost predicate GivenUp(w: World, w': World, h: Id, session: nat)
    requires h in w.procs
  {
    h in w'.procs && w'.procs[h] == w.procs[h].(pending := w.procs[h].pending - {session})
  }

  lemma GiveUpIsFinal(w: World, k: nat, session: nat, i: nat) returns (w1: World, w2: World)
    requires Inv(w.master) && Possible(w, GateReceives(k, i)) && Possible(w, GiveUp(w.peer[k], session))
    requires w.master.log[k][i].UploadAck? && w.master.log[k][i].session == session
    ensures Goes(w, GiveUp(w.peer[k], session), w1) && Goes(w1, GateReceives(k, i), w2)
    ensures GivenUp(w, w2, w.peer[k], session)
  {
    w1 := Take(w, GiveUp(w.peer[k], session));
    w2 := Take(w1, GateReceives(k, i));
  }

  /** An answer that comes after its registration was given up registers nothing, even if the master granted it. */
  lemma LateAnswerIsIgnored(es: seq<Step>, k: nat, session: nat, i: nat)
    requires CanRun(es) && Possible(Reached(es), GateReceives(k, i))
    requires Possible(Reached(es), GiveUp(Reached(es).peer[k], session))
    requires var msg := Reached(es).master.log[k][i]; msg.UploadAck? && msg.session == session
    ensures var run := es + [GiveUp(Reached(es).peer[k], session)] + [GateReceives(k, i)];
            CanRun(run) && GivenUp(Reached(es), Reached(run), Reached(es).peer[k], session)
  {
    var w := Reached(es);
    var w1, w2 := GiveUpIsFinal(w, k, session, i);
    TwoMore(es, GiveUp(w.peer[k], session), GateReceives(k, i), w1, w2);
  }

  // ---------------------------------------------------------------------------
  // A changed service

  /** The master's record of `s` shows what the gate of connection `k` showed. */
  ghost predicate Updated(w: World, m: Master, k: nat, s: Id)
    requires k in w.peer && w.peer[k] in w.procs
  {
    && s in m.services && m.services[s].gate == w.peer[k] && s in ProcOf(w, k).table.routes
    && m.services[s].online == ProcOf(w, k).table.routes[s].online
  }

  function UpdateOf(w: World, k: nat, session: nat, s: Id): Envelope
    requires k in w.peer && w.peer[k] in w.procs && s in ProcOf(w, k).table.routes
  {
    Envelope(k, session, Upload(Advertised(ProcOf(w, k), [s])))
  }

  lemma UpdateArrives(w: World, k: nat, session: nat, s: Id, order: seq<Id>) returns (w1: World, w2: World)
    requires Inv(w.master) && Attached(w, k) && Possible(w, SendUpdate(k, session, s))
    requires Owned(w.master, s, w.peer[k]) && Enumerates(order, w.master.gates.Keys)
    ensures Goes(w, SendUpdate(k, session, s), w1) && Goes(w1, MasterReceives(UpdateOf(w, k, session, s), order), w2)
    ensures Updated(w, w2.master, k, s)
  {
    var p := ProcOf(w, k);
    var info := ServiceInfo(s, p.table.routes[s].tp, p.table.routes[s].online);
    assert Advertised(p, [s]) == [info] && U16(s) == s;
    w1 := Take(w, SendUpdate(k, session, s));
    w2 := Take(w1, MasterReceives(UpdateOf(w, k, session, s), order));
    UploadDecided(w.master, k, info);
    UploadIsRecorded(w.master, k, session, info, order);
    assert LastTold([info], s) == Some(info.online);
  }

  /** An update that gets through makes the master's record of the service show what its gate shows. */
  lemma UpdateReachesMaster(es: seq<Step>, k: nat, session: nat, s: Id, order: seq<Id>)
    requires CanRun(es) && Attached(Reached(es), k) && Possible(Reached(es), SendUpdate(k, session, s))
    requires Enumerates(order, Reached(es).master.gates.Keys)
    ensures var w := Reached(es);
            var run := es + [SendUpdate(k, session, s)] + [MasterReceives(UpdateOf(w, k, session, s), order)];
            CanRun(run) && Updated(w, Reached(run).master, k, s)
  {
    var w := Reached(es);
    assert Owned(w.master, s, w.peer[k]) by { RoutesFollowOwnership(es); }
    var w1, w2 := UpdateArrives(w, k, session, s, order);
    TwoMore(es, SendUpdate(k, session, s), MasterReceives(UpdateOf(w, k, session, s), order), w1, w2);
  }

  lemma SetOnlineSets(w: World, k: nat, s: Id, online: bool) returns (w1: World)
    requires Inv(w.master) && Attached(w, k) && IsLocal(ProcOf(w, k), w.peer[k], s)
    ensures Goes(w, SetOnline(w.peer[k], s, online), w1)
    ensures w1.master == w.master && w1.peer == w.peer && Attached(w1, k)
    ensures IsLocal(ProcOf(w1, k), w.peer[k], s) && ProcOf(w1, k).table.routes[s].online == online
    ensures ProcOf(w1, k).used == ProcOf(w, k).used
  {
    w1 := Take(w, SetOnline(w.peer[k], s, online));
  }

  /** A change of a service at its gate, sent on, becomes the state in the master's record. */
  lemma ChangeReachesMaster(es: seq<Step>, k: nat, session: nat, s: Id, online: bool, order: seq<Id>)
    requires CanRun(es) && Attached(Reached(es), k) && Possible(Reached(es), SendUpdate(k, session, s))
    requires Enumerates(order, Reached(es).master.gates.Keys)
    ensures var before := es + [SetOnline(Reached(es).peer[k], s, online)];
            && CanRun(before) && Attached(Reached(before), k)
            && IsLocal(ProcOf(Reached(before), k), Reached(es).peer[k], s)
            && var update := MasterReceives(UpdateOf(Reached(before), k, session, s), order);
            && CanRun(before + [SendUpdate(k, session, s)] + [update])
            && var m := Reached(before + [SendUpdate(k, session, s)] + [update]).master;
            && s in m.services && m.services[s].online == online
  {
    var w := Reached(es);
    var w1 := SetOnlineSets(w, k, s, online);
    OneMore(es, SetOnline(w.peer[k], s, online), w1);
    UpdateReachesMaster(es + [SetOnline(w.peer[k], s, online)], k, session, s, order);
  }

  /** A gate that restarts has forgotten its tables and what it waited for, but not the session numbers it used. */
  lemma RestartForgets(es: seq<Step>, h: Id)
    requires CanRun(es) && h in Reached(es).procs
    ensures var run := es + [Restart(h)];
            && CanRun(run) && h in Reached(run).procs
            && Reached(run).procs[h] == Proc(Table(map[], map[]), map[], Reached(es).procs[h].used)
            && Reached(run).master == Reached(es).master
  {
    OneMore(es, Restart(h), Take(Reached(es), Restart(h)));
  }

  // ---------------------------------------------------------------------------
  // A gate registers

  lemma {:induction false} AdvertisedTells(p: Proc, ids: seq<Id>, i: nat)
    requires i < |ids| && forall j | 0 <= j < |ids| :: ids[j] in p.table.routes
    ensures LastTold(Advertised(p, ids), ids[i]) == Some(p.table.routes[ids[i]].online)
    decreases |ids|
  {
    var n := |ids| - 1;
    assert Advertised(p, ids)[..n] == Advertised(p, ids[..n]);
    assert U16(ids[n]) == ids[n];
    if ids[n] != ids[i] {
      AdvertisedTells(p, ids[..n], i);
    }
  }

  lemma RegistrationIsRecorded(m: Master, k: nat, session: nat, info: GateInfo, order: seq<Id>, s: Id)
    requires Inv(m) && Enabled(m, Receive(k, session, Register(info), order)) && !Refused(m, k, Register(info))
    ensures var m', g := Next(m, Receive(k, session, Register(info), order)), U16(info.id);
            && g in m'.gates && m'.gates[g].socket == k && m'.gates[g].addresses == info.addresses
            && k in m'.sockets && m'.sockets[k] == Some(g)
            && Find(m'.services, s) == Told(Find(m.services, s), info.services, g, s)
  {
    var g := U16(info.id);
    AddServicesTell(Tables(m.services, if g in m.gates then m.gates[g].services else []), info.services, g, s);
  }

  /** The gate of connection `k` is bound to it, with these addresses. */
  ghost predicate BoundBy(w: World, m: Master, k: nat, addresses: seq<Address>)
    requires k in w.peer
  {
    var h := w.peer[k];
    && h in m.gates && m.gates[h].socket == k && m.gates[h].addresses == addresses
    && k in m.sockets && m.sockets[k] == Some(h)
  }

  function SignOn(w: World, k: nat, session: nat, addresses: seq<Address>, locals: seq<Id>): Envelope
    requires k in w.peer && w.peer[k] in w.procs
    requires forall i | 0 <= i < |locals| :: locals[i] in ProcOf(w, k).table.routes
  {
    Envelope(k, session, Register(GateInfo(w.peer[k], addresses, Advertised(ProcOf(w, k), locals))))
  }

  /** What a gate advertises is its own. */
  ghost predicate OwnsAll(m: Master, ids: seq<Id>, h: Id) {
    forall i | 0 <= i < |ids| :: Owned(m, ids[i], h)
  }

  lemma LocalsAreOwned(es: seq<Step>, h: Id, locals: seq<Id>)
    requires CanRun(es) && h in Reached(es).procs
    requires forall i | 0 <= i < |locals| :: IsLocal(Reached(es).procs[h], h, locals[i])
    ensures OwnsAll(Reached(es).master, locals, h)
  {
    RoutesFollowOwnership(es);
  }

  /** Nothing but another gate on the connection stands in the way of such a registration. */
  lemma SignOnIsGranted(w: World, k: nat, session: nat, addresses: seq<Address>, locals: seq<Id>)
    requires k in w.peer && w.peer[k] in w.procs && k in w.master.sockets
    requires w.master.sockets[k].None? || w.master.sockets[k] == Some(w.peer[k])
    requires forall i | 0 <= i < |locals| :: locals[i] in ProcOf(w, k).table.routes
    requires OwnsAll(w.master, locals, w.peer[k])
    ensures !Refused(w.master, k, SignOn(w, k, session, addresses, locals).request)
  {
    var infos := Advertised(ProcOf(w, k), locals);
    assert U16(w.peer[k]) == w.peer[k];
    forall i | 0 <= i < |infos| ensures Owned(w.master, U16(infos[i].id), w.peer[k]) {
      assert U16(locals[i]) == locals[i];
    }
  }

  lemma SignOnArrives(w: World, k: nat, session: nat, addresses: seq<Address>, locals: seq<Id>, order: seq<Id>, i: nat)
      returns (w1: World, w2: World)
    requires Inv(w.master) && Possible(w, SendRegister(k, session, addresses, locals)) && i < |locals|
    requires k in w.master.sockets && Enumerates(order, w.master.gates.Keys + {w.peer[k]})
    requires !Refused(w.master, k, SignOn(w, k, session, addresses, locals).request)
    requires Owned(w.master, locals[i], w.peer[k])
    ensures Goes(w, SendRegister(k, session, addresses, locals), w1)
    ensures Goes(w1, MasterReceives(SignOn(w, k, session, addresses, locals), order), w2)
    ensures BoundBy(w, w2.master, k, addresses) && Updated(w, w2.master, k, locals[i])
  {
    var p := ProcOf(w, k);
    var info := GateInfo(w.peer[k], addresses, Advertised(p, locals));
    assert U16(w.peer[k]) == w.peer[k];
    w1 := Take(w, SendRegister(k, session, addresses, locals));
    w2 := Take(w1, MasterReceives(SignOn(w, k, session, addresses, locals), order));
    RegistrationIsRecorded(w.master, k, session, info, order, locals[i]);
    AdvertisedTells(p, locals, i);
  }

  lemma StandsForItself(es: seq<Step>, k: nat)
    requires CanRun(es) && k in Reached(es).peer && k in Reached(es).master.sockets
    ensures var w := Reached(es); w.master.sockets[k].None? || w.master.sockets[k] == Some(w.peer[k])
  {
  }

  /**
   * A registration that gets through binds the gate to its connection, with the addresses it gives, and makes the
   * master's records of the services it advertises show what the gate shows.
   */
  lemma GateIsBound(es: seq<Step>, k: nat, session: nat, addresses: seq<Address>, locals: seq<Id>, order: seq<Id>,
                    i: nat)
    requires CanRun(es) && Possible(Reached(es), SendRegister(k, session, addresses, locals))
    requires k in Reached(es).master.sockets && i < |locals|
    requires Enumerates(order, Reached(es).master.gates.Keys + {Reached(es).peer[k]})
    ensures var w := Reached(es);
            var run := es + [SendRegister(k, session, addresses, locals)] +
                       [MasterReceives(SignOn(w, k, session, addresses, locals), order)];
            && CanRun(run)
            && BoundBy(w, Reached(run).master, k, addresses) && Updated(w, Reached(run).master, k, locals[i])
  {
    var w, sending := Reached(es), SendRegister(k, session, addresses, locals);
    LocalsAreOwned(es, w.peer[k], locals);
    StandsForItself(es, k);
    SignOnIsGranted(w, k, session, addresses, locals);
    var w1, w2 := SignOnArrives(w, k, session, addresses, locals, order, i);
    TwoMore(es, sending, MasterReceives(SignOn(w, k, session, addresses, locals), order), w1, w2);
  }
}
