/**
 * The master and all gates together, over a network that may lose, repeat, delay and reorder messages:
 * whatever was once sent on a connection may be delivered at any later time, any number of times.
 */
module Cluster {
  import opened RegistryMessages
  import opened GateMaster
  import opened RoutingTable
  import opened Replication

  /** A gate process. `pending` holds the registrations waiting for the master, by rpc session. */
  datatype Proc = Proc(table: Table, pending: map<nat, ServiceInfo>, used: set<nat>)

  datatype Envelope = Envelope(socket: nat, session: nat, request: Request)

  /** `peer[k]` is the gate process that opened connection `k`. */
  datatype World = World(master: Master, peer: map<nat, Id>, procs: map<Id, Proc>, sent: set<Envelope>)

  datatype Step =
    | Start(h: Id)
    | Restart(h: Id)
    | Connect(h: Id, k: nat)
    | SendRegister(k: nat, session: nat, addresses: seq<Address>, locals: seq<Id>)
    | BeginRegistration(k: nat, session: nat, info: ServiceInfo)
    | SendUpdate(k: nat, session: nat, s: Id)
    | MasterReceives(env: Envelope, order: seq<Id>)
    | MasterLoses(k: nat, order: seq<Id>)
    | GateReceives(k: nat, i: nat)
    | GiveUp(h: Id, session: nat)
    | SetOnline(h: Id, s: Id, online: bool)

  const EMPTY := World(INITIAL, map[], map[], {})

  predicate IsLocal(p: Proc, h: Id, s: Id) {
    s in p.table.routes && p.table.routes[s].gate == h
  }

  function Advertised(p: Proc, ids: seq<Id>): seq<ServiceInfo>
    requires forall i | 0 <= i < |ids| :: ids[i] in p.table.routes
  {
    seq(|ids|, i requires 0 <= i < |ids| =>
      ServiceInfo(ids[i], p.table.routes[ids[i]].tp, p.table.routes[ids[i]].online))
  }

  /** A registration accepted by the master: the id becomes local unless it is already routed. */
  function AddLocal(t: Table, h: Id, info: ServiceInfo): Table {
    var id := U16(info.id);
    if id in t.routes then t else t.(routes := t.routes[id := Route(h, U16(info.tp), true)])
  }

  function Receives(p: Proc, h: Id, msg: Message): Proc {
    match msg
    case UploadAck(session, ok) =>
      if session in p.pending then
        p.(pending := p.pending - {session},
           table := if ok then AddLocal(p.table, h, p.pending[session]) else p.table)
      else p
    case _ => p.(table := Apply(p.table, msg))
  }

  ghost predicate Possible(w: World, e: Step) {
    match e
    case Start(h) => h !in w.procs
    case Restart(h) => h in w.procs
    case Connect(h, k) => h in w.procs && Enabled(w.master, Accept(k))
    case SendRegister(k, session, _, locals) =>
      && k in w.peer && w.peer[k] in w.procs
      && var p := w.procs[w.peer[k]];
      && session !in p.used
      && forall i | 0 <= i < |locals| :: IsLocal(p, w.peer[k], locals[i])
    case BeginRegistration(k, session, info) =>
      && k in w.peer && w.peer[k] in w.procs
      && var p := w.procs[w.peer[k]];
      && session !in p.used && U16(info.id) != 0 && U16(info.id) !in p.table.routes
    case SendUpdate(k, session, s) =>
      && k in w.peer && w.peer[k] in w.procs
      && var p := w.procs[w.peer[k]];
      && session !in p.used && IsLocal(p, w.peer[k], s)
    case MasterReceives(env, order) =>
      && env in w.sent && Enabled(w.master, Receive(env.socket, env.session, env.request, order))
    case MasterLoses(k, order) => Enabled(w.master, Disconnect(k, order))
    case GateReceives(k, i) =>
      k in w.peer && w.peer[k] in w.procs && k in w.master.log && i < |w.master.log[k]|
    case GiveUp(h, session) => h in w.procs && session in w.procs[h].pending
    case SetOnline(h, s, _) => h in w.procs && IsLocal(w.procs[h], h, s)
  }

  ghost function Send(w: World, k: nat, session: nat, request: Request, pending: map<nat, ServiceInfo>): World
    requires k in w.peer && w.peer[k] in w.procs
  {
    var h := w.peer[k];
    w.(sent := w.sent + {Envelope(k, session, request)},
       procs := w.procs[h := w.procs[h].(pending := pending, used := w.procs[h].used + {session})])
  }

  ghost function Take(w: World, e: Step): World
    requires Inv(w.master) && Possible(w, e)
  {
    match e
    case Start(h) => w.(procs := w.procs[h := Proc(Table(map[], map[]), map[], {})])
    case Restart(h) => w.(procs := w.procs[h := Proc(Table(map[], map[]), map[], w.procs[h].used)])
    case Connect(h, k) => w.(master := Next(w.master, Accept(k)), peer := w.peer[k := h])
    case SendRegister(k, session, addresses, locals) =>
      var p := w.procs[w.peer[k]];
      Send(w, k, session, Register(GateInfo(w.peer[k], addresses, Advertised(p, locals))), p.pending)
    case BeginRegistration(k, session, info) =>
      var p := w.procs[w.peer[k]];
      Send(w, k, session, Upload([info.(online := false)]), p.pending[session := info])
    case SendUpdate(k, session, s) =>
      var p := w.procs[w.peer[k]];
      Send(w, k, session, Upload(Advertised(p, [s])), p.pending)
    case MasterReceives(env, order) =>
      w.(master := Next(w.master, Receive(env.socket, env.session, env.request, order)))
    case MasterLoses(k, order) => w.(master := Next(w.master, Disconnect(k, order)))
    case GateReceives(k, i) =>
      var h := w.peer[k];
      w.(procs := w.procs[h := Receives(w.procs[h], h, w.master.log[k][i])])
    case GiveUp(h, session) =>
      w.(procs := w.procs[h := w.procs[h].(pending := w.procs[h].pending - {session})])
    case SetOnline(h, s, online) =>
      var t := w.procs[h].table;
      w.(procs := w.procs[h := w.procs[h].(table := t.(routes := t.routes[s := t.routes[s].(online := online)]))])
  }

  // ---------------------------------------------------------------------------
  // Invariant

  /** The master records `s` as a service of gate `h`. */
  ghost predicate Owned(m: Master, s: Id, h: Id) {
    s in m.services && m.services[s].gate == h
  }

  ghost predicate TablesSound(w: World) {
    forall h | h in w.procs :: Sound(w.procs[h].table, w.master, h)
  }

  /** Each connection is attached only to the gate that opened it. */
  ghost predicate PeersAttached(w: World) {
    && w.master.log.Keys == w.peer.Keys
    && (forall k | k in w.peer :: w.peer[k] in w.procs)
    && (forall k | k in w.master.sockets && k in w.peer && w.master.sockets[k].Some? ::
          w.master.sockets[k].value == w.peer[k])
  }

  ghost predicate RequestSound(w: World, env: Envelope) {
    && env.socket in w.peer && w.peer[env.socket] in w.procs
    && var h := w.peer[env.socket];
    var p := w.procs[h];
    && env.session in p.used
    && match env.request
       case Register(info) =>
         && U16(info.id) == h && env.session !in p.pending
         && (forall i | 0 <= i < |info.services| :: Owned(w.master, U16(info.services[i].id), h))
       case Upload(infos) =>
         && |infos| == 1
         && (env.session in p.pending ==> U16(infos[0].id) == U16(p.pending[env.session].id))
  }

  ghost predicate RequestsSound(w: World) {
    forall env | env in w.sent :: RequestSound(w, env)
  }

  /** An acknowledgement the gate may still act on was earned by the id the gate will register. */
  ghost predicate AckSound(w: World, k: nat, msg: Message)
    requires k in w.peer && w.peer[k] in w.procs
  {
    var p := w.procs[w.peer[k]];
    msg.UploadAck? ==>
      && msg.session in p.used
      && (msg.ok && msg.session in p.pending ==> Owned(w.master, U16(p.pending[msg.session].id), w.peer[k]))
  }

  ghost predicate AcksSound(w: World)
    requires PeersAttached(w)
  {
    forall k, i | k in w.master.log && 0 <= i < |w.master.log[k]| :: AckSound(w, k, w.master.log[k][i])
  }

  ghost predicate PendingUsed(w: World) {
    forall h, session | h in w.procs && session in w.procs[h].pending :: session in w.procs[h].used
  }

  /** What holds between the gates and the master. */
  ghost predicate GatesSound(w: World) {
    TablesSound(w) && PeersAttached(w) && RequestsSound(w) && AcksSound(w) && PendingUsed(w)
  }

  ghost predicate WorldInv(w: World) {
    Inv(w.master) && TrueLog(w.master.log, w.master) && GatesSound(w)
  }

  // ---------------------------------------------------------------------------
  // Steps of the master

  lemma {:induction false} AddedAreOwned(t: Tables, infos: seq<ServiceInfo>, g: Id, i: nat)
    requires Owns(t, g) && Accepts(t.services, infos, g) && i < |infos|
    ensures var r := AddServices(t, infos, g); U16(infos[i].id) in r.services && r.services[U16(infos[i].id)].gate == g
    decreases |infos|
  {
    AddServiceKeeps(t, infos[0], g);
    var t' := AddService(t, infos[0], g);
    assert forall j | 0 <= j < |infos[1..]| :: infos[1..][j] == infos[j + 1];
    if i == 0 {
      AddServicesKeeps(t', infos[1..], g);
    } else {
      AddedAreOwned(t', infos[1..], g, i - 1);
    }
  }

  /** What a step of the master may add to connection `k`. */
  ghost predicate NewMessage(m: Master, e: Event, k: nat, msg: Message) {
    msg.UploadAck? ==>
      && e.Receive? && e.socket == k && e.request.Upload? && msg.session == e.session
      && (msg.ok ==> k in m.sockets && m.sockets[k].Some? && !Refused(m, k, e.request))
  }

  /** Connection `k` keeps what it had and gains only messages that step `e` may add. */
  ghost predicate Appends(m: Master, e: Event, k: nat, log': map<nat, seq<Message>>) {
    && k in log'
    && (k in m.log ==> m.log[k] <= log'[k])
    && (forall i | 0 <= i < |log'[k]| :: (k in m.log && i < |m.log[k]|) || NewMessage(m, e, k, log'[k][i]))
  }

  lemma PublishAppends(m: Master, e: Event, log: map<nat, seq<Message>>, log': map<nat, seq<Message>>, k: nat,
                       msg: Message)
    requires Appends(m, e, k, log) && k in log' && (log'[k] == log[k] || log'[k] == log[k] + [msg]) && msg.RegisterBrd?
    ensures Appends(m, e, k, log')
  {
    forall i | 0 <= i < |log'[k]| ensures (k in m.log && i < |m.log[k]|) || NewMessage(m, e, k, log'[k][i]) {
      assert i < |log[k]| ==> log'[k][i] == log[k][i];
    }
  }

  lemma AnnounceAppends(m: Master, e: Event, b: Master, log: map<nat, seq<Message>>, g: Id, order: seq<Id>, k: nat)
    requires Listed(b) && Binding(b.(log := log)) && g in b.gates
    requires Enumerates(order, b.gates.Keys) && Appends(m, e, k, log)
    ensures Appends(m, e, k, Announce(b, log, g, order).log)
  {
    assert Unshared(b) by { BindingIsUnshared(b.(log := log)); }
    PublishWrites(b, log, g, order);
    PublishAppends(m, e, log, Publish(b, log, g, order), k, RegisterBrd([InfoOf(b, g)]));
  }

  lemma RegisterAppends(m: Master, c: nat, session: nat, info: GateInfo, order: seq<Id>, k: nat)
    requires Inv(m) && Enabled(m, Receive(c, session, Register(info), order)) && k in m.log
    requires !Refused(m, c, Register(info))
    ensures var e := Receive(c, session, Register(info), order); Appends(m, e, k, Next(m, e).log)
  {
    BindKeepsTables(m, c, info);
    BindKeepsBinding(m, c, info);
    var b := Bind(m, c, info);
    var log := Write(m.log, c, RegisterAck(session, true, Snapshot(b, U16(info.id), order)));
    AnnounceAppends(m, Receive(c, session, Register(info), order), b, log, U16(info.id), order, k);
  }

  lemma UploadAppends(m: Master, c: nat, session: nat, infos: seq<ServiceInfo>, order: seq<Id>, k: nat)
    requires Inv(m) && Enabled(m, Receive(c, session, Upload(infos), order)) && k in m.log
    requires !Refused(m, c, Upload(infos))
    ensures var e := Receive(c, session, Upload(infos), order); Appends(m, e, k, Next(m, e).log)
  {
    var g := m.sockets[c].value;
    ExtendKeepsTables(m, g, infos);
    var log := Write(m.log, c, UploadAck(session, true));
    AnnounceAppends(m, Receive(c, session, Upload(infos), order), Extend(m, g, infos), log, g, order, k);
  }

  lemma NextAppends(m: Master, e: Event, k: nat)
    requires Inv(m) && Enabled(m, e) && k in m.log
    ensures Appends(m, e, k, Next(m, e).log)
  {
    match e {
      case Accept(_) =>
      case Receive(c, session, request, order) =>
        if !Refused(m, c, request) {
          match request {
            case Register(info) => RegisterAppends(m, c, session, info, order, k);
            case Upload(infos) => UploadAppends(m, c, session, infos, order, k);
          }
        }
      case Disconnect(c, order) =>
        if Current(m, c) {
          var g := m.sockets[c].value;
          UnbindKeepsTables(m, c, g);
          AnnounceAppends(m, e, Unbind(m, c, g), m.log, g, order, k);
        }
    }
  }

  lemma SoundIsPermanent(t: Table, m: Master, m': Master, h: Id)
    requires Sound(t, m, h) && Grows(m, m')
    ensures Sound(t, m', h)
  {
    forall s | s in t.routes && s in m'.services ensures MatchesRecord(t.routes[s], m'.services[s], h) {
      assert MatchesRecord(t.routes[s], m.services[s], h);
    }
  }

  /** What the world promises the master about a step. */
  ghost predicate Genuine(w: World, e: Event) {
    e.Receive? ==> Envelope(e.socket, e.session, e.request) in w.sent
  }

  /** A connection is attached to a gate only by that gate's registration on it. */
  lemma NextAttaches(m: Master, e: Event, k: nat)
    requires Inv(m) && Enabled(m, e) && k in Next(m, e).sockets && Next(m, e).sockets[k].Some?
    ensures || (k in m.sockets && m.sockets[k] == Next(m, e).sockets[k])
            || (e.Receive? && e.socket == k && e.request.Register?
                && Next(m, e).sockets[k].value == U16(e.request.info.id))
  {
  }

  lemma MasterStepAttaches(w: World, e: Event)
    requires WorldInv(w) && Enabled(w.master, e) && Genuine(w, e) && !e.Accept?
    ensures PeersAttached(w.(master := Next(w.master, e)))
  {
    NextKeepsInv(w.master, e);
    var sockets := Next(w.master, e).sockets;
    forall k | k in sockets && k in w.peer && sockets[k].Some? ensures sockets[k].value == w.peer[k] {
      NextAttaches(w.master, e, k);
      if e.Receive? {
        assert RequestSound(w, Envelope(e.socket, e.session, e.request));
      }
    }
  }

  lemma UploadEarnsOwnership(m: Master, e: Event)
    requires Inv(m) && Enabled(m, e) && e.Receive? && e.request.Upload? && |e.request.services| == 1
    requires !Refused(m, e.socket, e.request)
    ensures Owned(Next(m, e), U16(e.request.services[0].id), m.sockets[e.socket].value)
  {
    var g := m.sockets[e.socket].value;
    var t := Tables(m.services, m.gates[g].services);
    assert Owns(t, g);
    AddedAreOwned(t, e.request.services, g, 0);
  }

  lemma MasterStepAcks(w: World, e: Event, k: nat, i: nat)
    requires WorldInv(w) && Enabled(w.master, e) && Genuine(w, e) && !e.Accept?
    requires PeersAttached(w.(master := Next(w.master, e)))
    requires k in Next(w.master, e).log && i < |Next(w.master, e).log[k]|
    ensures AckSound(w.(master := Next(w.master, e)), k, Next(w.master, e).log[k][i])
  {
    NextKeepsInv(w.master, e);
    NextAppends(w.master, e, k);
    var msg := Next(w.master, e).log[k][i];
    if i < |w.master.log[k]| {
      assert AckSound(w, k, w.master.log[k][i]);
    } else if msg.UploadAck? {
      assert RequestSound(w, Envelope(e.socket, e.session, e.request));
      if msg.ok {
        UploadEarnsOwnership(w.master, e);
      }
    }
  }

  ghost predicate ProcEvolves(p: Proc, p': Proc) {
    && p.used <= p'.used
    && (forall session | session in p'.pending && session in p.used ::
          session in p.pending && p'.pending[session] == p.pending[session])
  }

  /**
   * From `w` to `w'` the master's records grow, gates and connections stay, and a session number already used waits
   * only for what it waited for before.
   */
  ghost predicate Evolves(w: World, w': World) {
    && Grows(w.master, w'.master)
    && (forall k | k in w.peer :: k in w'.peer && w'.peer[k] == w.peer[k])
    && (forall h | h in w.procs :: h in w'.procs && ProcEvolves(w.procs[h], w'.procs[h]))
  }

  lemma RequestStays(w: World, w': World, env: Envelope)
    requires RequestSound(w, env) && Evolves(w, w')
    ensures RequestSound(w', env)
  {
    assert ProcEvolves(w.procs[w.peer[env.socket]], w'.procs[w.peer[env.socket]]);
  }

  lemma AckStays(w: World, w': World, k: nat, msg: Message)
    requires k in w.peer && w.peer[k] in w.procs && AckSound(w, k, msg) && Evolves(w, w')
    ensures AckSound(w', k, msg)
  {
    assert ProcEvolves(w.procs[w.peer[k]], w'.procs[w.peer[k]]);
  }

  lemma RequestsStay(w: World, w': World)
    requires RequestsSound(w) && Evolves(w, w') && w'.sent == w.sent
    ensures RequestsSound(w')
  {
    forall env | env in w'.sent ensures RequestSound(w', env) {
      RequestStays(w, w', env);
    }
  }

  lemma AcksStay(w: World, w': World)
    requires PeersAttached(w) && PeersAttached(w') && AcksSound(w) && Evolves(w, w')
    requires forall k | k in w'.master.log :: w'.master.log[k] == if k in w.master.log then w.master.log[k] else []
    ensures AcksSound(w')
  {
    forall k, i | k in w'.master.log && 0 <= i < |w'.master.log[k]| ensures AckSound(w', k, w'.master.log[k][i]) {
      assert AckSound(w, k, w.master.log[k][i]);
      AckStays(w, w', k, w.master.log[k][i]);
    }
  }

  lemma TablesStay(w: World, m: Master)
    requires TablesSound(w) && Grows(w.master, m)
    ensures TablesSound(w.(master := m))
  {
    forall h | h in w.procs ensures Sound(w.procs[h].table, m, h) {
      SoundIsPermanent(w.procs[h].table, w.master, m, h);
    }
  }

  lemma MasterStepAllAcks(w: World, e: Event)
    requires WorldInv(w) && Enabled(w.master, e) && Genuine(w, e) && !e.Accept?
    requires PeersAttached(w.(master := Next(w.master, e)))
    ensures AcksSound(w.(master := Next(w.master, e)))
  {
    var w' := w.(master := Next(w.master, e));
    forall k, i | k in w'.master.log && 0 <= i < |w'.master.log[k]| ensures AckSound(w', k, w'.master.log[k][i]) {
      MasterStepAcks(w, e, k, i);
    }
  }

  lemma MasterStepKeeps(w: World, e: Event)
    requires WorldInv(w) && Enabled(w.master, e) && Genuine(w, e) && !e.Accept?
    ensures WorldInv(w.(master := Next(w.master, e)))
  {
    var w' := w.(master := Next(w.master, e));
    NextKeepsInv(w.master, e);
    NextWritesTruth(w.master, e);
    MasterStepAttaches(w, e);
    TablesStay(w, w'.master);
    RequestsStay(w, w');
    MasterStepAllAcks(w, e);
  }

  // ---------------------------------------------------------------------------
  // Steps of a gate

  lemma ConnectEvolves(w: World, m: Master, h: Id, k: nat)
    requires Grows(w.master, m) && k !in w.peer
    ensures Evolves(w, w.(master := m, peer := w.peer[k := h]))
  {
  }

  lemma ConnectAttaches(w: World, m: Master, h: Id, k: nat)
    requires PeersAttached(w) && h in w.procs && k !in w.master.log
    requires m.log == w.master.log[k := []] && m.sockets == w.master.sockets[k := None]
    ensures PeersAttached(w.(master := m, peer := w.peer[k := h]))
  {
  }

  lemma ConnectGates(w: World, m: Master, h: Id, k: nat)
    requires GatesSound(w) && Grows(w.master, m) && h in w.procs && k !in w.master.log
    requires m.log == w.master.log[k := []] && m.sockets == w.master.sockets[k := None]
    ensures GatesSound(w.(master := m, peer := w.peer[k := h]))
  {
    var w' := w.(master := m, peer := w.peer[k := h]);
    TablesStay(w, m);
    ConnectEvolves(w, m, h, k);
    ConnectAttaches(w, m, h, k);
    RequestsStay(w, w');
    AcksStay(w, w');
  }

  lemma ConnectKeeps(w: World, h: Id, k: nat)
    requires WorldInv(w) && Possible(w, Connect(h, k))
    ensures WorldInv(Take(w, Connect(h, k)))
  {
    NextKeepsInv(w.master, Accept(k));
    NextWritesTruth(w.master, Accept(k));
    ConnectGates(w, Next(w.master, Accept(k)), h, k);
  }

  lemma SendEvolves(w: World, k: nat, session: nat, request: Request, pending: map<nat, ServiceInfo>)
    requires k in w.peer && w.peer[k] in w.procs && session !in w.procs[w.peer[k]].used
    requires forall x | x in pending && x != session ::
               x in w.procs[w.peer[k]].pending && pending[x] == w.procs[w.peer[k]].pending[x]
    ensures Evolves(w, Send(w, k, session, request, pending))
  {
  }

  lemma SentSound(w: World, w': World, env: Envelope)
    requires RequestsSound(w) && Evolves(w, w') && w'.sent == w.sent + {env} && RequestSound(w', env)
    ensures RequestsSound(w')
  {
    forall e | e in w'.sent ensures RequestSound(w', e) {
      if e in w.sent {
        RequestStays(w, w', e);
      }
    }
  }

  /** A step that only changes gate `h`'s waiting set, session numbers and requests. */
  lemma SendKeeps(w: World, k: nat, session: nat, request: Request, pending: map<nat, ServiceInfo>)
    requires GatesSound(w) && k in w.peer && session !in w.procs[w.peer[k]].used
    requires forall x | x in pending && x != session ::
               x in w.procs[w.peer[k]].pending && pending[x] == w.procs[w.peer[k]].pending[x]
    requires RequestSound(Send(w, k, session, request, pending), Envelope(k, session, request))
    ensures GatesSound(Send(w, k, session, request, pending))
  {
    var w' := Send(w, k, session, request, pending);
    SendEvolves(w, k, session, request, pending);
    SentSound(w, w', Envelope(k, session, request));
    AcksStay(w, w');
  }

  lemma RegisterKeeps(w: World, k: nat, session: nat, addresses: seq<Address>, locals: seq<Id>)
    requires GatesSound(w) && Possible(w, SendRegister(k, session, addresses, locals))
    ensures var p := w.procs[w.peer[k]];
            GatesSound(Send(w, k, session, Register(GateInfo(w.peer[k], addresses, Advertised(p, locals))), p.pending))
  {
    var h := w.peer[k];
    var p := w.procs[h];
    assert Sound(p.table, w.master, h);
    var infos := Advertised(p, locals);
    forall i | 0 <= i < |infos| ensures Owned(w.master, U16(infos[i].id), h) {
      assert IsLocal(p, h, locals[i]) && U16(locals[i]) == locals[i];
    }
    assert U16(h) == h;
    SendKeeps(w, k, session, Register(GateInfo(h, addresses, infos)), p.pending);
  }

  lemma RequestKeeps(w: World, e: Step)
    requires WorldInv(w) && Possible(w, e) && (e.SendRegister? || e.BeginRegistration? || e.SendUpdate?)
    ensures WorldInv(Take(w, e))
  {
    var p := w.procs[w.peer[e.k]];
    match e {
      case SendRegister(k, session, addresses, locals) => RegisterKeeps(w, k, session, addresses, locals);
      case BeginRegistration(k, session, info) =>
        SendKeeps(w, k, session, Upload([info.(online := false)]), p.pending[session := info]);
      case SendUpdate(k, session, s) =>
        SendKeeps(w, k, session, Upload(Advertised(p, [s])), p.pending);
    }
  }

  /** Changing one gate to `p`, with no new waiting registration, keeps everything but that gate's table in order. */
  lemma ProcKeeps(w: World, h: Id, p: Proc)
    requires GatesSound(w) && h in w.procs && Sound(p.table, w.master, h)
    requires p.used == w.procs[h].used
    requires forall session | session in p.pending ::
               session in w.procs[h].pending && p.pending[session] == w.procs[h].pending[session]
    ensures GatesSound(w.(procs := w.procs[h := p]))
  {
    var w' := w.(procs := w.procs[h := p]);
    assert Evolves(w, w');
    RequestsStay(w, w');
    AcksStay(w, w');
  }

  lemma ReceiveKeepsTable(w: World, k: nat, i: nat)
    requires WorldInv(w) && Possible(w, GateReceives(k, i))
    ensures var h := w.peer[k]; Sound(Receives(w.procs[h], h, w.master.log[k][i]).table, w.master, h)
  {
    var h := w.peer[k];
    var t := w.procs[h].table;
    assert Sound(t, w.master, h);
    var msg := w.master.log[k][i];
    assert TrueMessage(msg, w.master) && AckSound(w, k, msg);
    match msg
    case RegisterAck(_, _, gates) => GatesKeepSound(t, w.master, gates, h);
    case RegisterBrd(gates) => GatesKeepSound(t, w.master, gates, h);
    case UploadAck(_, _) =>
  }

  lemma ReceiveKeeps(w: World, k: nat, i: nat)
    requires WorldInv(w) && Possible(w, GateReceives(k, i))
    ensures var h := w.peer[k];
            GatesSound(w.(procs := w.procs[h := Receives(w.procs[h], h, w.master.log[k][i])]))
  {
    ReceiveKeepsTable(w, k, i);
    ProcKeeps(w, w.peer[k], Receives(w.procs[w.peer[k]], w.peer[k], w.master.log[k][i]));
  }

  lemma GiveUpKeeps(w: World, h: Id, session: nat)
    requires GatesSound(w) && h in w.procs
    ensures GatesSound(w.(procs := w.procs[h := w.procs[h].(pending := w.procs[h].pending - {session})]))
  {
    assert Sound(w.procs[h].table, w.master, h);
    ProcKeeps(w, h, w.procs[h].(pending := w.procs[h].pending - {session}));
  }

  lemma StartKeeps(w: World, h: Id, p: Proc)
    requires GatesSound(w) && h !in w.procs && p == Proc(Table(map[], map[]), map[], {})
    ensures GatesSound(w.(procs := w.procs[h := p]))
  {
    var w' := w.(procs := w.procs[h := p]);
    assert Evolves(w, w');
    RequestsStay(w, w');
    AcksStay(w, w');
  }

  lemma SetOnlineKeeps(w: World, h: Id, s: Id, online: bool)
    requires GatesSound(w) && h in w.procs && IsLocal(w.procs[h], h, s)
    ensures var t := w.procs[h].table;
            var t' := t.(routes := t.routes[s := t.routes[s].(online := online)]);
            GatesSound(w.(procs := w.procs[h := w.procs[h].(table := t')]))
  {
    var t := w.procs[h].table;
    var t' := t.(routes := t.routes[s := t.routes[s].(online := online)]);
    assert Sound(t, w.master, h);
    forall x | x in t'.routes && x in w.master.services ensures MatchesRecord(t'.routes[x], w.master.services[x], h) {
      assert MatchesRecord(t.routes[x], w.master.services[x], h);
    }
    ProcKeeps(w, h, w.procs[h].(table := t'));
  }

  /** Everything a gate does by itself. */
  lemma ProcStepKeeps(w: World, e: Step)
    requires WorldInv(w) && Possible(w, e) && (e.Restart? || e.GateReceives? || e.GiveUp? || e.SetOnline?)
    ensures WorldInv(Take(w, e))
  {
    match e {
      case Restart(h) => ProcKeeps(w, h, Proc(Table(map[], map[]), map[], w.procs[h].used));
      case GateReceives(k, i) => ReceiveKeeps(w, k, i);
      case GiveUp(h, session) => GiveUpKeeps(w, h, session);
      case SetOnline(h, s, online) => SetOnlineKeeps(w, h, s, online);
    }
  }

  lemma TakeKeepsInv(w: World, e: Step)
    requires WorldInv(w) && Possible(w, e)
    ensures WorldInv(Take(w, e))
  {
    match e {
      case Start(h) => StartKeeps(w, h, Proc(Table(map[], map[]), map[], {}));
      case Connect(h, k) => ConnectKeeps(w, h, k);
      case MasterReceives(env, order) =>
        MasterStepKeeps(w, Receive(env.socket, env.session, env.request, order));
      case MasterLoses(k, order) => MasterStepKeeps(w, Disconnect(k, order));
      case SendRegister(_, _, _, _) => RequestKeeps(w, e);
      case BeginRegistration(_, _, _) => RequestKeeps(w, e);
      case SendUpdate(_, _, _) => RequestKeeps(w, e);
      case _ => ProcStepKeeps(w, e);
    }
  }

  // ---------------------------------------------------------------------------
  // Runs

  ghost predicate CanRun(es: seq<Step>)
    decreases |es|, 0
  {
    es == [] || (CanRun(es[..|es| - 1]) && Possible(Reached(es[..|es| - 1]), es[|es| - 1]))
  }

  ghost function Reached(es: seq<Step>): (w: World)
    requires CanRun(es)
    ensures WorldInv(w)
    decreases |es|, 1
  {
    if es == [] then EMPTY
    else
      var w := Reached(es[..|es| - 1]);
      TakeKeepsInv(w, es[|es| - 1]);
      Take(w, es[|es| - 1])
  }

  /**
   * However messages are lost, repeated or reordered: each entry of each gate's table names the gate the master
   * records as owner, entries for other gates also carry the recorded type, and no id is local on two gates.
   */
  lemma RoutesFollowOwnership(es: seq<Step>)
    requires CanRun(es)
    ensures var w := Reached(es);
            && (forall h, s | h in w.procs && s in w.procs[h].table.routes ::
                  && Owned(w.master, s, w.procs[h].table.routes[s].gate)
                  && (!IsLocal(w.procs[h], h, s) ==> w.procs[h].table.routes[s].tp == w.master.services[s].tp))
            && (forall g, h, s | g in w.procs && h in w.procs ::
                  IsLocal(w.procs[g], g, s) && IsLocal(w.procs[h], h, s) ==> g == h)
  {
    var w := Reached(es);
    forall h, s | h in w.procs && s in w.procs[h].table.routes
      ensures Owned(w.master, s, w.procs[h].table.routes[s].gate)
      ensures !IsLocal(w.procs[h], h, s) ==> w.procs[h].table.routes[s].tp == w.master.services[s].tp
    {
      assert Sound(w.procs[h].table, w.master, h);
      assert MatchesRecord(w.procs[h].table.routes[s], w.master.services[s], h);
    }
  }

  /** A gate's own registration is never refused: everything it advertises is already its own. */
  lemma OwnRegistrationIsAccepted(es: seq<Step>, env: Envelope, order: seq<Id>)
    requires CanRun(es) && Possible(Reached(es), MasterReceives(env, order)) && env.request.Register?
    ensures !Refused(Reached(es).master, env.socket, env.request)
  {
    var w := Reached(es);
    assert RequestSound(w, env);
    var infos := env.request.info.services;
    forall i | 0 <= i < |infos| && U16(infos[i].id) in w.master.services
      ensures w.master.services[U16(infos[i].id)].gate == U16(env.request.info.id)
    {
      assert Owned(w.master, U16(infos[i].id), w.peer[env.socket]);
    }
  }

  /** What the master does in one step of the system, if anything. */
  function MasterEvent(e: Step): Option<Event> {
    match e
    case Connect(_, k) => Some(Accept(k))
    case MasterReceives(env, order) => Some(Receive(env.socket, env.session, env.request, order))
    case MasterLoses(k, order) => Some(Disconnect(k, order))
    case _ => None
  }

  lemma MasterMoves(w: World, e: Step)
    requires Inv(w.master) && Possible(w, e)
    ensures match MasterEvent(e)
            case Some(x) => Enabled(w.master, x) && Take(w, e).master == Next(w.master, x)
            case None => Take(w, e).master == w.master
  {
  }

  /** The master's part of any run of the whole system is a run of the master alone. */
  lemma {:induction false} MasterRun(es: seq<Step>) returns (ms: seq<Event>)
    requires CanRun(es)
    ensures Feasible(ms) && After(ms) == Reached(es).master
    decreases |es|
  {
    if es == [] {
      return [];
    }
    var pre, e := es[..|es| - 1], es[|es| - 1];
    var before := MasterRun(pre);
    MasterMoves(Reached(pre), e);
    match MasterEvent(e) {
      case Some(x) =>
        RunOneMore(before, x);
        ms := before + [x];
      case None =>
        ms := before;
    }
  }

  /**
   * After any run, a bound gate that applies its connection's messages in order to the table it has, however
   * stale, ends up with exactly the master's services and addresses of all other gates.
   */
  lemma CatchingUp(es: seq<Step>, h: Id)
    requires CanRun(es) && h in Reached(es).procs && Bound(Reached(es).master, h)
    ensures var w := Reached(es);
            var r := Received(w.procs[h].table, w.master, h);
            && (forall g | g in w.master.gates && g != h ::
                  g in r.remotes && r.remotes[g] == w.master.gates[g].addresses)
            && (forall s: Id ::
                  s in r.routes && r.routes[s].gate != h <==>
                  s in w.master.services && w.master.services[s].gate != h)
            && (forall s | s in r.routes && r.routes[s].gate != h :: r.routes[s] == RouteOf(w.master.services[s]))
  {
    var ms := MasterRun(es);
    assert Sound(Reached(es).procs[h].table, After(ms), h);
    ReplicaAgreement(Reached(es).procs[h].table, ms, h);
  }
}
