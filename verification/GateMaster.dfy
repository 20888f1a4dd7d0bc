/** The gate master: three cross-linked tables and the messages written to each connection. */
module GateMaster {
  import opened RegistryMessages

  datatype Service = Service(tp: Id, gate: Id, online: bool)

  /** `services` is the list of service records hosted next to this gate, in registration order. */
  datatype Gate = Gate(socket: nat, addresses: seq<Address>, services: seq<Id>)

  /** `log[k]` is everything ever written to connection `k`; connection 0 means "none". */
  datatype Master = Master(
    gates: map<Id, Gate>,
    services: map<Id, Service>,
    sockets: map<nat, Option<Id>>,
    log: map<nat, seq<Message>>)

  const INITIAL := Master(map[], map[], map[], map[])

  /** The atomic steps; `order` is the hash order in which the gate table is iterated. */
  datatype Event =
    | Accept(socket: nat)
    | Receive(socket: nat, session: nat, request: Request, order: seq<Id>)
    | Disconnect(socket: nat, order: seq<Id>)

  // ---------------------------------------------------------------------------
  // The tables

  predicate Accepts(services: map<Id, Service>, infos: seq<ServiceInfo>, gate: Id) {
    forall i | 0 <= i < |infos| ::
      U16(infos[i].id) in services ==> services[U16(infos[i].id)].gate == gate
  }

  datatype Tables = Tables(services: map<Id, Service>, list: seq<Id>)

  function AddService(t: Tables, info: ServiceInfo, gate: Id): Tables {
    var id := U16(info.id);
    if id in t.services then
      t.(services := t.services[id := t.services[id].(online := info.online)])
    else
      Tables(t.services[id := Service(U16(info.tp), gate, info.online)], t.list + [id])
  }

  function AddServices(t: Tables, infos: seq<ServiceInfo>, gate: Id): Tables
    decreases |infos|
  {
    if infos == [] then t else AddServices(AddService(t, infos[0], gate), infos[1..], gate)
  }

  function TakeOffline(services: map<Id, Service>, list: seq<Id>): map<Id, Service> {
    map s | s in services :: if s in list then services[s].(online := false) else services[s]
  }

  // ---------------------------------------------------------------------------
  // Messages

  function Describe(services: map<Id, Service>, list: seq<Id>): seq<ServiceInfo>
    requires forall i | 0 <= i < |list| :: list[i] in services
  {
    seq(|list|, i requires 0 <= i < |list| =>
      ServiceInfo(list[i], services[list[i]].tp, services[list[i]].online))
  }

  ghost predicate Listed(m: Master) {
    forall g, i | g in m.gates && 0 <= i < |m.gates[g].services| :: m.gates[g].services[i] in m.services
  }

  function InfoOf(m: Master, g: Id): GateInfo
    requires g in m.gates
    requires forall i | 0 <= i < |m.gates[g].services| :: m.gates[g].services[i] in m.services
  {
    GateInfo(g, m.gates[g].addresses, Describe(m.services, m.gates[g].services))
  }

  function Write(log: map<nat, seq<Message>>, k: nat, msg: Message): map<nat, seq<Message>> {
    log[k := (if k in log then log[k] else []) + [msg]]
  }

  /** The snapshot in a register acknowledgement: every gate but `me`. */
  ghost function Snapshot(m: Master, me: Id, order: seq<Id>): seq<GateInfo>
    requires Listed(m)
    requires forall i | 0 <= i < |order| :: order[i] in m.gates
  {
    if order == [] then []
    else (if order[0] == me then [] else [InfoOf(m, order[0])]) + Snapshot(m, me, order[1..])
  }

  ghost function Publish(m: Master, log: map<nat, seq<Message>>, g: Id, order: seq<Id>): map<nat, seq<Message>>
    requires Listed(m) && g in m.gates
    requires forall i | 0 <= i < |order| :: order[i] in m.gates
    decreases |order|
  {
    if order == [] then log
    else
      var h := m.gates[order[0]];
      Publish(m,
              if h.socket == 0 || order[0] == g then log else Write(log, h.socket, RegisterBrd([InfoOf(m, g)])),
              g, order[1..])
  }

  // ---------------------------------------------------------------------------
  // Steps

  /** Why a request is refused, if it is. */
  predicate Refused(m: Master, k: nat, request: Request)
    requires k in m.sockets
  {
    match request
    case Register(info) =>
      || !Accepts(m.services, info.services, U16(info.id))
      || (m.sockets[k].Some? && m.sockets[k].value != U16(info.id))
    case Upload(infos) =>
      m.sockets[k].None? || !Accepts(m.services, infos, m.sockets[k].value)
  }

  function Refusal(session: nat, request: Request): Message {
    match request
    case Register(_) => RegisterAck(session, false, [])
    case Upload(_) => UploadAck(session, false)
  }

  /** The tables after an accepted registration, before anything is sent. */
  function Bind(m: Master, k: nat, info: GateInfo): Master
    requires k in m.sockets
  {
    var id := U16(info.id);
    var gate := if id in m.gates then m.gates[id] else Gate(0, [], []);
    var detached :=
      if m.sockets[k].Some? && gate.socket != k && gate.socket in m.sockets
      then m.sockets[gate.socket := None] else m.sockets;
    var t := AddServices(Tables(m.services, gate.services), info.services, id);
    Master(m.gates[id := Gate(k, info.addresses, t.list)], t.services, detached[k := Some(id)], m.log)
  }

  function Extend(m: Master, g: Id, infos: seq<ServiceInfo>): Master
    requires g in m.gates
  {
    var t := AddServices(Tables(m.services, m.gates[g].services), infos, g);
    m.(gates := m.gates[g := m.gates[g].(services := t.list)], services := t.services)
  }

  /** The tables after losing connection `k`, to which gate `g` was bound. */
  function Unbind(m: Master, k: nat, g: Id): Master
    requires g in m.gates
  {
    m.(gates := m.gates[g := m.gates[g].(socket := 0)],
       services := TakeOffline(m.services, m.gates[g].services),
       sockets := m.sockets - {k})
  }

  /** The end of every accepted change to gate `g`: broadcast its record on top of `log`. */
  ghost function Announce(m: Master, log: map<nat, seq<Message>>, g: Id, order: seq<Id>): Master
    requires Listed(m) && g in m.gates
    requires forall i | 0 <= i < |order| :: order[i] in m.gates
  {
    m.(log := Publish(m, log, g, order))
  }

  /** Is `k` the connection its gate is currently bound to? */
  predicate Current(m: Master, k: nat)
    requires k in m.sockets
  {
    m.sockets[k].Some? && m.sockets[k].value in m.gates && m.gates[m.sockets[k].value].socket == k
  }

  ghost predicate Enabled(m: Master, e: Event) {
    match e
    case Accept(k) => k != 0 && k !in m.log
    case Receive(k, _, request, order) =>
      && k in m.sockets
      && Enumerates(order, if request.Register? then m.gates.Keys + {U16(request.info.id)} else m.gates.Keys)
    case Disconnect(k, order) => k in m.sockets && Enumerates(order, m.gates.Keys)
  }

  // ---------------------------------------------------------------------------
  // Invariants

  /** A bound connection is open and points back at its gate. */
  ghost predicate Binding(m: Master) {
    && (forall g | g in m.gates && m.gates[g].socket != 0 ::
          m.gates[g].socket in m.sockets && m.sockets[m.gates[g].socket] == Some(g))
    && (forall k | k in m.sockets && m.sockets[k].Some? :: m.sockets[k].value in m.gates)
    && 0 !in m.log
    && m.sockets.Keys <= m.log.Keys
  }

  ghost predicate ListsOwn(services: map<Id, Service>, list: seq<Id>, g: Id) {
    && NoDuplicates(list)
    && (forall i | 0 <= i < |list| :: list[i] in services && services[list[i]].gate == g)
  }

  /** Every service record is listed exactly once, by exactly the gate it names. */
  ghost predicate Partition(gates: map<Id, Gate>, services: map<Id, Service>) {
    && (forall s | s in services :: services[s].gate in gates && s in gates[services[s].gate].services)
    && (forall g | g in gates :: ListsOwn(services, gates[g].services, g))
  }

  ghost predicate Inv(m: Master) {
    Binding(m) && Partition(m.gates, m.services)
  }

  /** Records are never removed and never change hands or type. */
  ghost predicate Keeps(before: map<Id, Service>, after: map<Id, Service>) {
    forall s | s in before ::
      s in after && after[s].gate == before[s].gate && after[s].tp == before[s].tp
  }

  /** `list` is all of gate `g`'s services, each once. */
  ghost predicate Owns(t: Tables, g: Id) {
    && ListsOwn(t.services, t.list, g)
    && (forall s | s in t.services && t.services[s].gate == g :: s in t.list)
  }

  /** `r` adds to `t` at most services of gate `g` and changes at most the online flags of that gate. */
  ghost predicate Adds(t: Tables, r: Tables, g: Id) {
    && Keeps(t.services, r.services)
    && (forall s | s in r.services && r.services[s].gate != g :: s in t.services && r.services[s] == t.services[s])
    && t.list <= r.list
  }

  lemma AddServiceKeeps(t: Tables, info: ServiceInfo, g: Id)
    requires Owns(t, g) && Accepts(t.services, [info], g)
    ensures Owns(AddService(t, info, g), g) && Adds(t, AddService(t, info, g), g)
  {
    var r := AddService(t, info, g);
    assert U16([info][0].id) in t.services ==> t.services[U16([info][0].id)].gate == g;
    forall s | s in r.services && r.services[s].gate == g ensures s in r.list {
      if s in t.services {
        var i :| 0 <= i < |t.list| && t.list[i] == s;
        assert r.list[i] == s;
      } else {
        assert r.list[|t.list|] == s;
      }
    }
  }

  /** Adding services for a gate that may own them extends that gate's list and nothing else. */
  lemma {:induction false} AddServicesKeeps(t: Tables, infos: seq<ServiceInfo>, g: Id)
    requires Owns(t, g) && Accepts(t.services, infos, g)
    ensures Owns(AddServices(t, infos, g), g) && Adds(t, AddServices(t, infos, g), g)
    decreases |infos|
  {
    if infos != [] {
      AddServiceKeeps(t, infos[0], g);
      assert forall i | 0 <= i < |infos[1..]| :: infos[1..][i] == infos[i + 1];
      AddServicesKeeps(AddService(t, infos[0], g), infos[1..], g);
    }
  }

  /** Replacing one gate's list along with the records it lists keeps the partition. */
  lemma PartitionWith(gates: map<Id, Gate>, services: map<Id, Service>, g: Id, gate: Gate, r: Tables)
    requires Partition(gates, services)
    requires Owns(r, g) && Adds(Tables(services, if g in gates then gates[g].services else []), r, g)
    requires gate.services == r.list
    ensures Partition(gates[g := gate], r.services)
  {
    var gates' := gates[g := gate];
    forall x | x in gates' ensures ListsOwn(r.services, gates'[x].services, x) {
      assert x != g ==> ListsOwn(services, gates[x].services, x);
    }
  }

  lemma BindKeepsTables(m: Master, k: nat, info: GateInfo)
    requires Inv(m) && k in m.sockets && !Refused(m, k, Register(info))
    ensures var b := Bind(m, k, info);
            && Partition(b.gates, b.services) && Listed(b)
            && Keeps(m.services, b.services)
            && (forall s | s in b.services && b.services[s].gate != U16(info.id) ::
                  s in m.services && b.services[s] == m.services[s])
  {
    var id := U16(info.id);
    var t := Tables(m.services, if id in m.gates then m.gates[id].services else []);
    assert Owns(t, id);
    AddServicesKeeps(t, info.services, id);
    PartitionWith(m.gates, m.services, id, Bind(m, k, info).gates[id], AddServices(t, info.services, id));
  }

  lemma ExtendKeepsTables(m: Master, g: Id, infos: seq<ServiceInfo>)
    requires Partition(m.gates, m.services) && g in m.gates && Accepts(m.services, infos, g)
    ensures var b := Extend(m, g, infos);
            && Partition(b.gates, b.services) && Listed(b)
            && Keeps(m.services, b.services)
            && (forall s | s in b.services && b.services[s].gate != g ::
                  s in m.services && b.services[s] == m.services[s])
  {
    var t := Tables(m.services, m.gates[g].services);
    assert Owns(t, g);
    AddServicesKeeps(t, infos, g);
    PartitionWith(m.gates, m.services, g, Extend(m, g, infos).gates[g], AddServices(t, infos, g));
  }

  // ---------------------------------------------------------------------------
  // Events

  ghost function Next(m: Master, e: Event): Master
    requires Inv(m) && Enabled(m, e)
  {
    match e
    case Accept(k) => m.(sockets := m.sockets[k := None], log := m.log[k := []])
    case Receive(k, session, request, order) =>
      if Refused(m, k, request) then m.(log := Write(m.log, k, Refusal(session, request)))
      else (
        match request
        case Register(info) =>
          var id := U16(info.id);
          BindKeepsTables(m, k, info);
          var b := Bind(m, k, info);
          Announce(b, Write(m.log, k, RegisterAck(session, true, Snapshot(b, id, order))), id, order)
        case Upload(infos) =>
          var g := m.sockets[k].value;
          ExtendKeepsTables(m, g, infos);
          var b := Extend(m, g, infos);
          Announce(b, Write(m.log, k, UploadAck(session, true)), g, order)
      )
    case Disconnect(k, order) =>
      if Current(m, k) then
        var g := m.sockets[k].value;
        Announce(Unbind(m, k, g), m.log, g, order)
      else
        m.(sockets := m.sockets - {k})
  }

  // ---------------------------------------------------------------------------
  // Every event keeps the invariants

  /** Does a publish of `g` reach connection `k`? */
  ghost predicate Hears(m: Master, g: Id, k: nat, order: seq<Id>) {
    exists i | 0 <= i < |order| :: order[i] != g && order[i] in m.gates && m.gates[order[i]].socket == k
  }

  /** No two gates are bound to one connection. */
  ghost predicate Unshared(m: Master) {
    forall g, h | g in m.gates && h in m.gates && m.gates[g].socket == m.gates[h].socket != 0 :: g == h
  }

  /** With unshared connections a publish appends one message to each of the others' connections. */
  lemma {:induction false} PublishWrites(m: Master, log: map<nat, seq<Message>>, g: Id, order: seq<Id>)
    requires Listed(m) && g in m.gates && Unshared(m)
    requires forall i | 0 <= i < |order| :: order[i] in m.gates
    requires NoDuplicates(order)
    requires forall h | h in m.gates && m.gates[h].socket != 0 :: m.gates[h].socket in log
    ensures Publish(m, log, g, order).Keys == log.Keys
    ensures forall k | k in log :: Publish(m, log, g, order)[k] ==
              if k != 0 && Hears(m, g, k, order) then log[k] + [RegisterBrd([InfoOf(m, g)])] else log[k]
    decreases |order|
  {
    if order != [] {
      var rest := order[1..];
      assert forall i | 0 <= i < |rest| :: rest[i] == order[i + 1];
      var h := m.gates[order[0]];
      var log' := if h.socket == 0 || order[0] == g then log else Write(log, h.socket, RegisterBrd([InfoOf(m, g)]));
      PublishWrites(m, log', g, rest);
      forall k | k in log && k != 0
        ensures Hears(m, g, k, order) <==> (order[0] != g && h.socket == k) || Hears(m, g, k, rest)
      {
        if Hears(m, g, k, order) {
          var i :| 0 <= i < |order| && order[i] != g && order[i] in m.gates && m.gates[order[i]].socket == k;
          assert i > 0 ==> rest[i - 1] == order[i];
        }
        if Hears(m, g, k, rest) {
          var i :| 0 <= i < |rest| && rest[i] != g && rest[i] in m.gates && m.gates[rest[i]].socket == k;
          assert order[i + 1] == rest[i];
        }
        if order[0] != g && h.socket == k {
          assert !Hears(m, g, k, rest);
        }
      }
    }
  }

  lemma BindingIsUnshared(m: Master)
    requires Binding(m)
    ensures Unshared(m)
  {
  }

  /** Registration, re-registration and takeover keep every binding two-way. */
  lemma BindKeepsBinding(m: Master, k: nat, info: GateInfo)
    requires Inv(m) && k in m.sockets && !Refused(m, k, Register(info))
    ensures Binding(Bind(m, k, info))
  {
  }

  /** What every step keeps, on top of the invariant. */
  ghost predicate Grows(m: Master, m': Master) {
    && Keeps(m.services, m'.services)
    && m.gates.Keys <= m'.gates.Keys
    && m.log.Keys <= m'.log.Keys
  }

  lemma AnnounceKeepsInv(m: Master, b: Master, log: map<nat, seq<Message>>, g: Id, order: seq<Id>)
    requires Partition(b.gates, b.services) && Listed(b) && Binding(b.(log := log)) && g in b.gates
    requires Enumerates(order, b.gates.Keys)
    requires Grows(m, b.(log := log))
    ensures Inv(Announce(b, log, g, order)) && Grows(m, Announce(b, log, g, order))
    ensures Announce(b, log, g, order).log.Keys == log.Keys
  {
    BindingIsUnshared(b.(log := log));
    assert Unshared(b);
    PublishWrites(b, log, g, order);
  }

  lemma RegisterKeepsInv(m: Master, k: nat, session: nat, info: GateInfo, order: seq<Id>)
    requires Inv(m) && Enabled(m, Receive(k, session, Register(info), order)) && !Refused(m, k, Register(info))
    ensures var m' := Next(m, Receive(k, session, Register(info), order));
            Inv(m') && Grows(m, m') && m'.log.Keys == m.log.Keys
  {
    BindKeepsTables(m, k, info);
    BindKeepsBinding(m, k, info);
    var b := Bind(m, k, info);
    var id := U16(info.id);
    AnnounceKeepsInv(m, b, Write(m.log, k, RegisterAck(session, true, Snapshot(b, id, order))), id, order);
  }

  lemma UploadKeepsInv(m: Master, k: nat, session: nat, infos: seq<ServiceInfo>, order: seq<Id>)
    requires Inv(m) && Enabled(m, Receive(k, session, Upload(infos), order)) && !Refused(m, k, Upload(infos))
    ensures var m' := Next(m, Receive(k, session, Upload(infos), order));
            Inv(m') && Grows(m, m') && m'.log.Keys == m.log.Keys
  {
    var g := m.sockets[k].value;
    ExtendKeepsTables(m, g, infos);
    AnnounceKeepsInv(m, Extend(m, g, infos), Write(m.log, k, UploadAck(session, true)), g, order);
  }

  lemma UnbindKeepsTables(m: Master, k: nat, g: Id)
    requires Inv(m) && g in m.gates && k != 0 && m.gates[g].socket == k
    ensures var b := Unbind(m, k, g); Binding(b) && Partition(b.gates, b.services) && Keeps(m.services, b.services)
  {
  }

  lemma DisconnectKeepsInv(m: Master, k: nat, order: seq<Id>)
    requires Inv(m) && Enabled(m, Disconnect(k, order))
    ensures var m' := Next(m, Disconnect(k, order)); Inv(m') && Grows(m, m') && m'.log.Keys == m.log.Keys
  {
    if Current(m, k) {
      var g := m.sockets[k].value;
      UnbindKeepsTables(m, k, g);
      AnnounceKeepsInv(m, Unbind(m, k, g), m.log, g, order);
    } else {
      assert forall g | g in m.gates :: m.gates[g].socket != k;
    }
  }

  lemma NextKeepsInv(m: Master, e: Event)
    requires Inv(m) && Enabled(m, e)
    ensures Inv(Next(m, e)) && Grows(m, Next(m, e))
    ensures Next(m, e).log.Keys == if e.Accept? then m.log.Keys + {e.socket} else m.log.Keys
  {
    match e {
      case Accept(_) =>
      case Receive(k, session, request, order) =>
        if !Refused(m, k, request) {
          match request {
            case Register(info) => RegisterKeepsInv(m, k, session, info, order);
            case Upload(infos) => UploadKeepsInv(m, k, session, infos, order);
          }
        }
      case Disconnect(k, order) => DisconnectKeepsInv(m, k, order);
    }
  }

  // ---------------------------------------------------------------------------
  // Runs

  /** Can the master take these steps in this order from the empty tables? */
  ghost predicate Feasible(es: seq<Event>)
    decreases |es|, 0
  {
    es == [] || (Feasible(es[..|es| - 1]) && Enabled(After(es[..|es| - 1]), es[|es| - 1]))
  }

  /** The state after a run; the invariants hold in every reachable state. */
  ghost function After(es: seq<Event>): (m: Master)
    requires Feasible(es)
    ensures Inv(m)
    decreases |es|, 1
  {
    if es == [] then INITIAL
    else
      var m := After(es[..|es| - 1]);
      NextKeepsInv(m, es[|es| - 1]);
      Next(m, es[|es| - 1])
  }

  lemma RunOneMore(es: seq<Event>, e: Event)
    requires Feasible(es) && Enabled(After(es), e)
    ensures Feasible(es + [e]) && After(es + [e]) == Next(After(es), e)
  {
    assert (es + [e])[..|es + [e]| - 1] == es;
  }

  /** Once recorded, the owner and type of a service never change, however long the run. */
  lemma {:induction false} OwnershipIsPermanent(es: seq<Event>, n: nat)
    requires n <= |es| && Feasible(es)
    ensures Feasible(es[..n]) && Grows(After(es[..n]), After(es))
    decreases |es|
  {
    if n == |es| {
      assert es[..n] == es;
    } else {
      var pre := es[..|es| - 1];
      OwnershipIsPermanent(pre, n);
      assert pre[..n] == es[..n];
      NextKeepsInv(After(pre), es[|es| - 1]);
    }
  }

  /** In every reachable state a bound connection leads back to its one gate. */
  lemma BoundConnections(es: seq<Event>, g: Id, h: Id)
    requires Feasible(es)
    ensures var m := After(es);
            && (g in m.gates && m.gates[g].socket != 0 ==>
                  m.gates[g].socket in m.sockets && Current(m, m.gates[g].socket))
            && (g in m.gates && h in m.gates && m.gates[g].socket == m.gates[h].socket != 0 ==> g == h)
  {
    BindingIsUnshared(After(es));
  }

  /**
   * A registration on a connection that already belonged to the gate detaches the connection it supersedes, whose
   * uploads are refused from then on; one on a new connection leaves the older one attached.
   */
  lemma TakeoverDetaches(m: Master, k: nat, session: nat, info: GateInfo, order: seq<Id>, infos: seq<ServiceInfo>)
    requires Inv(m) && Enabled(m, Receive(k, session, Register(info), order)) && !Refused(m, k, Register(info))
    requires var id := U16(info.id); id in m.gates && m.gates[id].socket != 0 && m.gates[id].socket != k
    ensures var m' := Next(m, Receive(k, session, Register(info), order));
            var former := m.gates[U16(info.id)].socket;
            && m'.gates[U16(info.id)].socket == k && m'.sockets[k] == Some(U16(info.id))
            && former in m'.sockets
            && m'.sockets[former] == (if m.sockets[k].Some? then None else Some(U16(info.id)))
            && (m.sockets[k].Some? ==> Refused(m', former, Upload(infos)))
  {
    BindKeepsTables(m, k, info);
  }

  /** Closing the bound connection takes exactly that gate's services offline. */
  lemma BoundCloseTakesOwnServicesOffline(m: Master, k: nat, order: seq<Id>, g: Id)
    requires Inv(m) && Enabled(m, Disconnect(k, order))
    requires g in m.gates && m.gates[g].socket == k
    ensures var m' := Next(m, Disconnect(k, order));
            && m'.gates == m.gates[g := m.gates[g].(socket := 0)]
            && m'.services.Keys == m.services.Keys
            && (forall s | s in m.services ::
                  m'.services[s] == if m.services[s].gate == g then m.services[s].(online := false) else m.services[s])
  {
    assert 0 !in m.sockets;
    assert Current(m, k) && m.sockets[k].value == g;
  }

  // ---------------------------------------------------------------------------
  // Who changes a service's state

  /** Step `e` comes from gate `g`: its accepted request, or the end of its bound connection. */
  ghost predicate SpeaksFor(m: Master, e: Event, g: Id) {
    match e
    case Accept(_) => false
    case Receive(k, _, request, _) =>
      && k in m.sockets && !Refused(m, k, request)
      && (if request.Register? then U16(request.info.id) == g else m.sockets[k] == Some(g))
    case Disconnect(k, _) => k in m.sockets && Current(m, k) && m.sockets[k] == Some(g)
  }

  ghost predicate Names(infos: seq<ServiceInfo>, s: Id, online: bool) {
    exists i :: 0 <= i < |infos| && U16(infos[i].id) == s && infos[i].online == online
  }

  /** What step `e` says of service `s`: a request by naming it, the end of a connection by taking it offline. */
  ghost predicate Says(e: Event, s: Id, online: bool) {
    match e
    case Accept(_) => false
    case Receive(_, _, request, _) =>
      Names(if request.Register? then request.info.services else request.services, s, online)
    case Disconnect(_, _) => !online
  }

  lemma {:induction false} AddServicesNames(t: Tables, infos: seq<ServiceInfo>, g: Id, s: Id)
    requires s in t.services
    ensures var r := AddServices(t, infos, g);
            s in r.services && (r.services[s].online == t.services[s].online || Names(infos, s, r.services[s].online))
    decreases |infos|
  {
    if infos != [] {
      var t', rest := AddService(t, infos[0], g), infos[1..];
      AddServicesNames(t', rest, g, s);
      var online := AddServices(t', rest, g).services[s].online;
      if Names(rest, s, online) {
        var i :| 0 <= i < |rest| && U16(rest[i].id) == s && rest[i].online == online;
        assert infos[i + 1] == rest[i];
      } else if U16(infos[0].id) == s {
        assert infos[0].online == t'.services[s].online;
      }
    }
  }

  lemma UploadSays(m: Master, g: Id, infos: seq<ServiceInfo>, s: Id)
    requires Inv(m) && g in m.gates && Accepts(m.services, infos, g) && s in m.services
    ensures s in Extend(m, g, infos).services
    ensures var was, now := m.services[s].online, Extend(m, g, infos).services[s].online;
            now != was ==> g == m.services[s].gate && Names(infos, s, now)
  {
    AddServicesNames(Tables(m.services, m.gates[g].services), infos, g, s);
    ExtendKeepsTables(m, g, infos);
  }

  lemma RegisterSays(m: Master, k: nat, info: GateInfo, s: Id)
    requires Inv(m) && k in m.sockets && !Refused(m, k, Register(info)) && s in m.services
    ensures s in Bind(m, k, info).services
    ensures var was, now := m.services[s].online, Bind(m, k, info).services[s].online;
            now != was ==> U16(info.id) == m.services[s].gate && Names(info.services, s, now)
  {
    var id := U16(info.id);
    BindKeepsTables(m, k, info);
    AddServicesNames(Tables(m.services, if id in m.gates then m.gates[id].services else []), info.services, id, s);
  }

  lemma RequestSays(m: Master, k: nat, session: nat, request: Request, order: seq<Id>, s: Id)
    requires Inv(m) && Enabled(m, Receive(k, session, request, order)) && !Refused(m, k, request) && s in m.services
    ensures var e := Receive(k, session, request, order);
            && s in Next(m, e).services
            && (Next(m, e).services[s].online != m.services[s].online ==>
                  SpeaksFor(m, e, m.services[s].gate) && Says(e, s, Next(m, e).services[s].online))
  {
    match request {
      case Register(info) => RegisterSays(m, k, info, s);
      case Upload(infos) => UploadSays(m, m.sockets[k].value, infos, s);
    }
  }

  lemma CloseSays(m: Master, k: nat, order: seq<Id>, s: Id)
    requires Inv(m) && Enabled(m, Disconnect(k, order)) && s in m.services
    ensures s in Next(m, Disconnect(k, order)).services
    ensures var now := Next(m, Disconnect(k, order)).services[s].online;
            now != m.services[s].online ==> SpeaksFor(m, Disconnect(k, order), m.services[s].gate) && !now
  {
    if Current(m, k) {
      BoundCloseTakesOwnServicesOffline(m, k, order, m.sockets[k].value);
    }
  }

  lemma NextSays(m: Master, e: Event, s: Id)
    requires Inv(m) && Enabled(m, e) && s in m.services
    ensures s in Next(m, e).services
    ensures var was, now := m.services[s].online, Next(m, e).services[s].online;
            now != was ==> SpeaksFor(m, e, m.services[s].gate) && Says(e, s, now)
  {
    match e {
      case Accept(_) =>
      case Receive(k, session, request, order) =>
        if !Refused(m, k, request) {
          RequestSays(m, k, session, request, order, s);
        }
      case Disconnect(k, order) => CloseSays(m, k, order, s);
    }
  }

  /**
   * In every run a service goes online or offline only by its owner: an accepted request of that gate which says so, or
   * the end of the connection that gate is bound to. Refused requests and superseded connections change nothing.
   */
  lemma OnlyTheOwnerChanges(es: seq<Event>, e: Event, s: Id)
    requires Feasible(es) && Enabled(After(es), e) && s in After(es).services
    ensures Feasible(es + [e]) && s in After(es + [e]).services
    ensures var m := After(es);
            var was, now := m.services[s].online, After(es + [e]).services[s].online;
            now != was ==> SpeaksFor(m, e, m.services[s].gate) && Says(e, s, now)
  {
    RunOneMore(es, e);
    NextSays(After(es), e, s);
  }
}
