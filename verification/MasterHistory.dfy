/**
 * The gate master's tables and answers, told from the events alone: who named a service first, what was said of it
 * last, which connection a gate registered on last. None of the definitions here looks at a state of the master.
 */
module MasterHistory {
  import opened RegistryMessages
  import opened GateMaster

  /** The services a request names. */
  function Named(request: Request): seq<ServiceInfo> {
    match request
    case Register(info) => info.services
    case Upload(infos) => infos
  }

  /** The state told by the last entry that names `s`. */
  function LastTold(infos: seq<ServiceInfo>, s: Id): Option<bool> {
    if infos == [] then None
    else
      var last := infos[|infos| - 1];
      if U16(last.id) == s then Some(last.online) else LastTold(infos[..|infos| - 1], s)
  }

  /** The type told by the first entry that names `s`. */
  function FirstType(infos: seq<ServiceInfo>, s: Id): Id
    requires LastTold(infos, s).Some?
  {
    var init := infos[..|infos| - 1];
    if LastTold(init, s).Some? then FirstType(init, s) else U16(infos[|infos| - 1].tp)
  }

  function Find<K, V>(m: map<K, V>, k: K): Option<V> {
    if k in m then Some(m[k]) else None
  }

  /** What is known of `s` once gate `g` has told `infos`: owner and type stay, the state is the last one told. */
  function Told(known: Option<Service>, infos: seq<ServiceInfo>, g: Id, s: Id): Option<Service> {
    match LastTold(infos, s)
    case None => known
    case Some(online) =>
      if known.Some? then Some(known.value.(online := online)) else Some(Service(FirstType(infos, s), g, online))
  }

  lemma {:induction false} AddServicesEnd(t: Tables, infos: seq<ServiceInfo>, g: Id)
    requires infos != []
    ensures AddServices(t, infos, g) == AddService(AddServices(t, infos[..|infos| - 1], g), infos[|infos| - 1], g)
    decreases |infos|
  {
    if |infos| > 1 {
      AddServicesEnd(AddService(t, infos[0], g), infos[1..], g);
      assert infos[1..][..|infos| - 2] == infos[..|infos| - 1][1..];
    }
  }

  /** Adding services leaves of each what its first and last entries say. */
  lemma {:induction false} AddServicesTell(t: Tables, infos: seq<ServiceInfo>, g: Id, s: Id)
    ensures Find(AddServices(t, infos, g).services, s) == Told(Find(t.services, s), infos, g, s)
    decreases |infos|
  {
    if infos != [] {
      AddServicesEnd(t, infos, g);
      AddServicesTell(t, infos[..|infos| - 1], g, s);
    }
  }

  // ---------------------------------------------------------------------------
  // Histories

  /** The gate a request comes from. */
  function Speaker(es: seq<Event>, k: nat, request: Request): Option<Id>
    decreases |es|, 1
  {
    match request
    case Register(info) => Some(U16(info.id))
    case Upload(_) => AttachedTo(es, k)
  }

  /** The connection stands for no other gate, and nothing the request names belongs to another gate. */
  predicate Granted(es: seq<Event>, k: nat, request: Request)
    decreases |es|, 2
  {
    var g, infos := Speaker(es, k, request), Named(request);
    && g.Some?
    && (AttachedTo(es, k).None? || AttachedTo(es, k) == g)
    && (forall i | 0 <= i < |infos| ::
          var r := Record(es, U16(infos[i].id)); r.Some? ==> r.value.gate == g.value)
  }

  /** Gate `g` registers on connection `k`. */
  predicate Registers(es: seq<Event>, e: Event, g: Id)
    decreases |es|, 3
  {
    && e.Receive? && e.request.Register? && U16(e.request.info.id) == g
    && Granted(es, e.socket, e.request)
  }

  /** What was told of service `s`: owner and type by whom it was named first, the state last told or lost. */
  function Record(es: seq<Event>, s: Id): Option<Service>
    decreases |es|, 0
  {
    if es == [] then None
    else
      var init, last := es[..|es| - 1], es[|es| - 1];
      var r := Record(init, s);
      match last
      case Accept(_) => r
      case Receive(k, _, request, _) =>
        if Granted(init, k, request) then Told(r, Named(request), Speaker(init, k, request).value, s) else r
      case Disconnect(k, _) =>
        if r.Some? && BoundTo(init, r.value.gate) == k then Some(r.value.(online := false)) else r
  }

  /** The gate connection `k` stands for; a registration on a connection that already stood for the gate ends others. */
  function AttachedTo(es: seq<Event>, k: nat): Option<Id>
    decreases |es|, 0
  {
    if es == [] then None
    else
      var init, last := es[..|es| - 1], es[|es| - 1];
      if last.Receive? && last.request.Register? && Granted(init, last.socket, last.request) then
        var g := U16(last.request.info.id);
        if last.socket == k then Some(g)
        else if AttachedTo(init, last.socket) == Some(g) && BoundTo(init, g) == k then None
        else AttachedTo(init, k)
      else if last.Disconnect? && last.socket == k then None
      else AttachedTo(init, k)
  }

  /** The connection gate `g` registered on last, while it is open; 0 for none. */
  function BoundTo(es: seq<Event>, g: Id): nat
    decreases |es|, 0
  {
    if es == [] then 0
    else
      var init, last := es[..|es| - 1], es[|es| - 1];
      if Registers(init, last, g) then last.socket
      else if last.Disconnect? && last.socket == BoundTo(init, g) then 0
      else BoundTo(init, g)
  }

  /** The addresses in gate `g`'s last accepted registration. */
  function AddressesOf(es: seq<Event>, g: Id): Option<seq<Address>> {
    if es == [] then None
    else
      var init, last := es[..|es| - 1], es[|es| - 1];
      if Registers(init, last, g) then Some(last.request.info.addresses) else AddressesOf(init, g)
  }

  predicate IsOpen(es: seq<Event>, k: nat) {
    es != [] &&
    var last := es[|es| - 1];
    if last.Accept? && last.socket == k then true
    else if last.Disconnect? && last.socket == k then false
    else IsOpen(es[..|es| - 1], k)
  }

  // ---------------------------------------------------------------------------
  // The tables follow the history

  ghost predicate ServicesMatch(m: Master, es: seq<Event>) {
    forall s: Id :: Find(m.services, s) == Record(es, s)
  }

  ghost predicate SocketMatches(m: Master, es: seq<Event>, k: nat) {
    && (k in m.sockets <==> IsOpen(es, k))
    && AttachedTo(es, k) == (if k in m.sockets then m.sockets[k] else None)
  }

  ghost predicate SocketsMatch(m: Master, es: seq<Event>) {
    forall k: nat :: SocketMatches(m, es, k)
  }

  ghost predicate GateMatches(m: Master, es: seq<Event>, g: Id) {
    && (g in m.gates <==> AddressesOf(es, g).Some?)
    && BoundTo(es, g) == (if g in m.gates then m.gates[g].socket else 0)
    && (g in m.gates ==> AddressesOf(es, g) == Some(m.gates[g].addresses))
  }

  ghost predicate GatesMatch(m: Master, es: seq<Event>) {
    forall g: Id :: GateMatches(m, es, g)
  }

  ghost predicate Matches(m: Master, es: seq<Event>) {
    ServicesMatch(m, es) && SocketsMatch(m, es) && GatesMatch(m, es)
  }

  lemma RefusedMatches(m: Master, es: seq<Event>, k: nat, request: Request)
    requires Matches(m, es) && k in m.sockets
    ensures Refused(m, k, request) <==> !Granted(es, k, request)
    ensures request.Upload? ==> Speaker(es, k, request) == m.sockets[k]
  {
    assert SocketMatches(m, es, k);
    var infos := Named(request);
    forall i | 0 <= i < |infos| ensures Find(m.services, U16(infos[i].id)) == Record(es, U16(infos[i].id)) {}
  }

  /** What is announced makes no difference to the tables. */
  lemma TablesMatch(b: Master, m: Master, es: seq<Event>)
    requires Matches(b, es) && m.gates == b.gates && m.services == b.services && m.sockets == b.sockets
    ensures Matches(m, es)
  {
    forall g: Id ensures GateMatches(m, es, g) {
      assert GateMatches(b, es, g);
    }
    forall k: nat ensures SocketMatches(m, es, k) {
      assert SocketMatches(b, es, k);
    }
  }

  lemma RegisterServices(m: Master, es: seq<Event>, k: nat, info: GateInfo)
    requires es != [] && es[|es| - 1].Receive? && es[|es| - 1].socket == k && es[|es| - 1].request == Register(info)
    requires ServicesMatch(m, es[..|es| - 1]) && k in m.sockets && Granted(es[..|es| - 1], k, Register(info))
    ensures ServicesMatch(Bind(m, k, info), es)
  {
    var id := U16(info.id);
    var list := if id in m.gates then m.gates[id].services else [];
    forall s: Id ensures Find(Bind(m, k, info).services, s) == Record(es, s) {
      assert Find(m.services, s) == Record(es[..|es| - 1], s);
      AddServicesTell(Tables(m.services, list), info.services, id, s);
    }
  }

  lemma UploadServices(m: Master, es: seq<Event>, k: nat, infos: seq<ServiceInfo>)
    requires es != [] && es[|es| - 1].Receive? && es[|es| - 1].socket == k && es[|es| - 1].request == Upload(infos)
    requires ServicesMatch(m, es[..|es| - 1]) && k in m.sockets && Granted(es[..|es| - 1], k, Upload(infos))
    requires AttachedTo(es[..|es| - 1], k) == m.sockets[k] && m.sockets[k].Some? && m.sockets[k].value in m.gates
    ensures ServicesMatch(Extend(m, m.sockets[k].value, infos), es)
  {
    var g := m.sockets[k].value;
    forall s: Id ensures Find(Extend(m, g, infos).services, s) == Record(es, s) {
      assert Find(m.services, s) == Record(es[..|es| - 1], s);
      AddServicesTell(Tables(m.services, m.gates[g].services), infos, g, s);
    }
  }

  lemma RegisterSockets(m: Master, es: seq<Event>, k: nat, info: GateInfo)
    requires es != [] && es[|es| - 1].Receive? && es[|es| - 1].socket == k && es[|es| - 1].request == Register(info)
    requires SocketsMatch(m, es[..|es| - 1]) && GatesMatch(m, es[..|es| - 1]) && k in m.sockets
    requires Granted(es[..|es| - 1], k, Register(info)) && 0 !in m.sockets
    ensures SocketsMatch(Bind(m, k, info), es)
  {
    var init, b, id := es[..|es| - 1], Bind(m, k, info), U16(info.id);
    assert GateMatches(m, init, id);
    assert SocketMatches(m, init, k);
    forall x: nat ensures SocketMatches(b, es, x) {
      assert SocketMatches(m, init, x);
    }
  }

  lemma RegisterGates(m: Master, es: seq<Event>, k: nat, info: GateInfo)
    requires es != [] && es[|es| - 1].Receive? && es[|es| - 1].socket == k && es[|es| - 1].request == Register(info)
    requires GatesMatch(m, es[..|es| - 1]) && k in m.sockets && Granted(es[..|es| - 1], k, Register(info))
    ensures GatesMatch(Bind(m, k, info), es)
  {
    forall g: Id ensures GateMatches(Bind(m, k, info), es, g) {
      assert GateMatches(m, es[..|es| - 1], g);
    }
  }

  /** An event that leaves gates and connections as they are. */
  lemma OthersStay(m: Master, m': Master, es: seq<Event>)
    requires es != [] && SocketsMatch(m, es[..|es| - 1]) && GatesMatch(m, es[..|es| - 1])
    requires var e := es[|es| - 1];
             e.Receive? && (e.request.Upload? || !Granted(es[..|es| - 1], e.socket, e.request))
    requires m'.sockets == m.sockets && m'.gates.Keys == m.gates.Keys
    requires forall g | g in m.gates ::
               m'.gates[g].socket == m.gates[g].socket && m'.gates[g].addresses == m.gates[g].addresses
    ensures SocketsMatch(m', es) && GatesMatch(m', es)
  {
    var init := es[..|es| - 1];
    forall g: Id ensures GateMatches(m', es, g) {
      assert GateMatches(m, init, g);
    }
    forall x: nat ensures SocketMatches(m', es, x) {
      assert SocketMatches(m, init, x);
    }
  }

  lemma RefusalMatches(m: Master, es: seq<Event>)
    requires es != [] && es[|es| - 1].Receive? && Inv(m) && Enabled(m, es[|es| - 1]) && Matches(m, es[..|es| - 1])
    requires Refused(m, es[|es| - 1].socket, es[|es| - 1].request)
    ensures Matches(Next(m, es[|es| - 1]), es)
  {
    var init, e := es[..|es| - 1], es[|es| - 1];
    RefusedMatches(m, init, e.socket, e.request);
    forall s: Id ensures Find(m.services, s) == Record(es, s) {
      assert Find(m.services, s) == Record(init, s);
    }
    OthersStay(m, Next(m, e), es);
  }

  lemma RegisterMatches(m: Master, es: seq<Event>)
    requires es != [] && es[|es| - 1].Receive? && Inv(m) && Enabled(m, es[|es| - 1]) && Matches(m, es[..|es| - 1])
    requires es[|es| - 1].request.Register? && !Refused(m, es[|es| - 1].socket, es[|es| - 1].request)
    ensures Matches(Next(m, es[|es| - 1]), es)
  {
    var e := es[|es| - 1];
    var b := Bind(m, e.socket, e.request.info);
    RefusedMatches(m, es[..|es| - 1], e.socket, e.request);
    assert 0 !in m.sockets;
    RegisterServices(m, es, e.socket, e.request.info);
    RegisterSockets(m, es, e.socket, e.request.info);
    RegisterGates(m, es, e.socket, e.request.info);
    TablesMatch(b, Next(m, e), es);
  }

  lemma UploadMatches(m: Master, es: seq<Event>)
    requires es != [] && es[|es| - 1].Receive? && Inv(m) && Enabled(m, es[|es| - 1]) && Matches(m, es[..|es| - 1])
    requires es[|es| - 1].request.Upload? && !Refused(m, es[|es| - 1].socket, es[|es| - 1].request)
    ensures Matches(Next(m, es[|es| - 1]), es)
  {
    var e := es[|es| - 1];
    var b := Extend(m, m.sockets[e.socket].value, e.request.services);
    RefusedMatches(m, es[..|es| - 1], e.socket, e.request);
    assert SocketMatches(m, es[..|es| - 1], e.socket);
    UploadServices(m, es, e.socket, e.request.services);
    OthersStay(m, b, es);
    TablesMatch(b, Next(m, e), es);
  }

  lemma ClosedServices(m: Master, es: seq<Event>)
    requires es != [] && es[|es| - 1].Disconnect? && Inv(m) && Enabled(m, es[|es| - 1])
    requires ServicesMatch(m, es[..|es| - 1]) && GatesMatch(m, es[..|es| - 1])
    ensures ServicesMatch(Next(m, es[|es| - 1]), es)
  {
    var init, e := es[..|es| - 1], es[|es| - 1];
    assert 0 !in m.sockets;
    forall s: Id ensures Find(Next(m, e).services, s) == Record(es, s) {
      assert Find(m.services, s) == Record(init, s);
      if s in m.services {
        assert GateMatches(m, init, m.services[s].gate);
      }
    }
  }

  lemma ClosedGates(m: Master, es: seq<Event>)
    requires es != [] && es[|es| - 1].Disconnect? && Inv(m) && Enabled(m, es[|es| - 1]) && GatesMatch(m, es[..|es| - 1])
    ensures GatesMatch(Next(m, es[|es| - 1]), es)
  {
    var m' := Next(m, es[|es| - 1]);
    forall g: Id ensures GateMatches(m', es, g) {
      assert GateMatches(m, es[..|es| - 1], g);
    }
  }

  lemma OpenedOrClosed(m: Master, es: seq<Event>)
    requires es != [] && !es[|es| - 1].Receive? && Inv(m) && Enabled(m, es[|es| - 1]) && SocketsMatch(m, es[..|es| - 1])
    ensures SocketsMatch(Next(m, es[|es| - 1]), es)
  {
    var init, m' := es[..|es| - 1], Next(m, es[|es| - 1]);
    forall x: nat ensures SocketMatches(m', es, x) {
      assert SocketMatches(m, init, x);
    }
  }

  lemma AcceptMatches(m: Master, es: seq<Event>)
    requires es != [] && es[|es| - 1].Accept? && Inv(m) && Enabled(m, es[|es| - 1]) && Matches(m, es[..|es| - 1])
    ensures Matches(Next(m, es[|es| - 1]), es)
  {
    OpenedOrClosed(m, es);
    var m' := Next(m, es[|es| - 1]);
    forall g: Id ensures GateMatches(m', es, g) {
      assert GateMatches(m, es[..|es| - 1], g);
    }
    forall s: Id ensures Find(Next(m, es[|es| - 1]).services, s) == Record(es, s) {
      assert Find(m.services, s) == Record(es[..|es| - 1], s);
    }
  }

  lemma NextMatches(m: Master, es: seq<Event>)
    requires es != [] && Inv(m) && Enabled(m, es[|es| - 1]) && Matches(m, es[..|es| - 1])
    ensures Matches(Next(m, es[|es| - 1]), es)
  {
    match es[|es| - 1] {
      case Accept(_) => AcceptMatches(m, es);
      case Receive(k, _, request, _) =>
        if Refused(m, k, request) {
          RefusalMatches(m, es);
        } else if request.Register? {
          RegisterMatches(m, es);
        } else {
          UploadMatches(m, es);
        }
      case Disconnect(_, _) =>
        ClosedServices(m, es);
        ClosedGates(m, es);
        OpenedOrClosed(m, es);
    }
  }

  /**
   * In every run the master's tables are what the events say: each service has the owner and type it was first named
   * with and the state last told, or offline since its gate's connection ended; each gate has the addresses of its last
   * registration and the connection it came on; each connection stands for the gate that registered on it.
   */
  lemma {:induction false} HistoryDecides(es: seq<Event>)
    requires Feasible(es)
    ensures Matches(After(es), es)
    decreases |es|
  {
    if es != [] {
      HistoryDecides(es[..|es| - 1]);
      NextMatches(After(es[..|es| - 1]), es);
    }
  }

  /** A request is accepted exactly when its connection stands for no other gate and it names nobody else's service. */
  lemma AcceptedExactly(es: seq<Event>, k: nat, request: Request)
    requires Feasible(es) && k in After(es).sockets
    ensures !Refused(After(es), k, request) <==> Granted(es, k, request)
  {
    HistoryDecides(es);
    RefusedMatches(After(es), es, k, request);
  }

  lemma {:induction false} LastEntry(infos: seq<ServiceInfo>, i: nat, n: nat)
    requires i < n <= |infos| && forall j | i < j < n :: U16(infos[j].id) != U16(infos[i].id)
    ensures LastTold(infos[..n], U16(infos[i].id)) == Some(infos[i].online)
    decreases n
  {
    if i < n - 1 {
      LastEntry(infos, i, n - 1);
      assert infos[..n][..n - 1] == infos[..n - 1];
    }
  }

  lemma {:induction false} NotNamed(infos: seq<ServiceInfo>, s: Id)
    requires forall j | 0 <= j < |infos| :: U16(infos[j].id) != s
    ensures LastTold(infos, s).None?
    decreases |infos|
  {
    if infos != [] {
      NotNamed(infos[..|infos| - 1], s);
    }
  }

  lemma {:induction false} FirstEntry(infos: seq<ServiceInfo>, i: nat, n: nat)
    requires i < n <= |infos| && forall j | 0 <= j < i :: U16(infos[j].id) != U16(infos[i].id)
    ensures LastTold(infos[..n], U16(infos[i].id)).Some? && FirstType(infos[..n], U16(infos[i].id)) == U16(infos[i].tp)
    decreases n
  {
    assert infos[..n][..n - 1] == infos[..n - 1];
    if i < n - 1 {
      FirstEntry(infos, i, n - 1);
    } else {
      NotNamed(infos[..i], U16(infos[i].id));
    }
  }

  /** After a gate's accepted request each service it names has the state of the last entry that names it. */
  lemma RequestIsHeeded(es: seq<Event>, e: Event, i: nat)
    requires Feasible(es) && Enabled(After(es), e) && e.Receive? && Granted(es, e.socket, e.request)
    requires i < |Named(e.request)|
    requires forall j | i < j < |Named(e.request)| :: U16(Named(e.request)[j].id) != U16(Named(e.request)[i].id)
    ensures var info := Named(e.request)[i];
            && Feasible(es + [e]) && U16(info.id) in After(es + [e]).services
            && After(es + [e]).services[U16(info.id)].online == info.online
            && Some(After(es + [e]).services[U16(info.id)].gate) == Speaker(es, e.socket, e.request)
  {
    RunOneMore(es, e);
    HistoryDecides(es + [e]);
    assert (es + [e])[..|es|] == es;
    var infos, s := Named(e.request), U16(Named(e.request)[i].id);
    LastEntry(infos, i, |infos|);
    assert infos[..|infos|] == infos;
    assert Find(After(es + [e]).services, s) == Record(es + [e], s);
    assert Record(es, s).Some? ==> Record(es, s).value.gate == Speaker(es, e.socket, e.request).value;
  }

  /** A service nobody named before is the requesting gate's, of the type in the first entry that names it. */
  lemma NewServiceIsRecorded(es: seq<Event>, e: Event, i: nat)
    requires Feasible(es) && Enabled(After(es), e) && e.Receive? && Granted(es, e.socket, e.request)
    requires i < |Named(e.request)| && Record(es, U16(Named(e.request)[i].id)).None?
    requires forall j | 0 <= j < i :: U16(Named(e.request)[j].id) != U16(Named(e.request)[i].id)
    ensures var info := Named(e.request)[i];
            && Feasible(es + [e]) && U16(info.id) in After(es + [e]).services
            && After(es + [e]).services[U16(info.id)].tp == U16(info.tp)
            && Some(After(es + [e]).services[U16(info.id)].gate) == Speaker(es, e.socket, e.request)
  {
    RunOneMore(es, e);
    HistoryDecides(es + [e]);
    assert (es + [e])[..|es|] == es;
    var infos, s := Named(e.request), U16(Named(e.request)[i].id);
    FirstEntry(infos, i, |infos|);
    assert infos[..|infos|] == infos;
    assert Find(After(es + [e]).services, s) == Record(es + [e], s);
  }

  // ---------------------------------------------------------------------------
  // Answers

  datatype Answer = Answer(session: nat, registering: bool, ok: bool)

  function AnswerIn(msg: Message): seq<Answer> {
    match msg
    case RegisterAck(session, ok, _) => [Answer(session, true, ok)]
    case UploadAck(session, ok) => [Answer(session, false, ok)]
    case RegisterBrd(_) => []
  }

  /** The answers among what was written to a connection. */
  function AnswersIn(msgs: seq<Message>): seq<Answer> {
    if msgs == [] then [] else AnswersIn(msgs[..|msgs| - 1]) + AnswerIn(msgs[|msgs| - 1])
  }

  /** One answer per request on connection `k`, with its session, saying whether it was granted. */
  function AnswersDue(es: seq<Event>, k: nat): seq<Answer> {
    if es == [] then []
    else
      var init, last := es[..|es| - 1], es[|es| - 1];
      if last.Receive? && last.socket == k
      then AnswersDue(init, k) + [Answer(last.session, last.request.Register?, Granted(init, k, last.request))]
      else AnswersDue(init, k)
  }

  lemma AnswersOne(msgs: seq<Message>, msg: Message)
    ensures AnswersIn(msgs + [msg]) == AnswersIn(msgs) + AnswerIn(msg)
  {
    assert (msgs + [msg])[..|msgs + [msg]| - 1] == msgs;
  }

  function LogOf(log: map<nat, seq<Message>>, k: nat): seq<Message> {
    if k in log then log[k] else []
  }

  lemma WriteAnswers(log: map<nat, seq<Message>>, c: nat, msg: Message, k: nat)
    ensures AnswersIn(LogOf(Write(log, c, msg), k)) == AnswersIn(LogOf(log, k)) + if k == c then AnswerIn(msg) else []
  {
    AnswersOne(LogOf(log, c), msg);
  }

  lemma {:induction false} PublishAnswers(m: Master, log: map<nat, seq<Message>>, g: Id, order: seq<Id>, k: nat)
    requires Listed(m) && g in m.gates && forall i | 0 <= i < |order| :: order[i] in m.gates
    ensures AnswersIn(LogOf(Publish(m, log, g, order), k)) == AnswersIn(LogOf(log, k))
    decreases |order|
  {
    if order != [] {
      var socket := m.gates[order[0]].socket;
      WriteAnswers(log, socket, RegisterBrd([InfoOf(m, g)]), k);
      PublishAnswers(m, Write(log, socket, RegisterBrd([InfoOf(m, g)])), g, order[1..], k);
      PublishAnswers(m, log, g, order[1..], k);
    }
  }

  lemma RegisterAnswers(m: Master, c: nat, session: nat, info: GateInfo, order: seq<Id>, k: nat)
    requires Inv(m) && Enabled(m, Receive(c, session, Register(info), order)) && !Refused(m, c, Register(info))
    ensures AnswersIn(LogOf(Next(m, Receive(c, session, Register(info), order)).log, k)) ==
            AnswersIn(LogOf(m.log, k)) + if k == c then [Answer(session, true, true)] else []
  {
    BindKeepsTables(m, c, info);
    var b := Bind(m, c, info);
    var msg := RegisterAck(session, true, Snapshot(b, U16(info.id), order));
    WriteAnswers(m.log, c, msg, k);
    PublishAnswers(b, Write(m.log, c, msg), U16(info.id), order, k);
  }

  lemma UploadAnswers(m: Master, c: nat, session: nat, infos: seq<ServiceInfo>, order: seq<Id>, k: nat)
    requires Inv(m) && Enabled(m, Receive(c, session, Upload(infos), order)) && !Refused(m, c, Upload(infos))
    ensures AnswersIn(LogOf(Next(m, Receive(c, session, Upload(infos), order)).log, k)) ==
            AnswersIn(LogOf(m.log, k)) + if k == c then [Answer(session, false, true)] else []
  {
    var g := m.sockets[c].value;
    ExtendKeepsTables(m, g, infos);
    WriteAnswers(m.log, c, UploadAck(session, true), k);
    PublishAnswers(Extend(m, g, infos), Write(m.log, c, UploadAck(session, true)), g, order, k);
  }

  lemma NextAnswers(m: Master, e: Event, k: nat)
    requires Inv(m) && Enabled(m, e)
    ensures AnswersIn(LogOf(Next(m, e).log, k)) == AnswersIn(LogOf(m.log, k)) +
            if e.Receive? && e.socket == k
            then [Answer(e.session, e.request.Register?, !Refused(m, k, e.request))] else []
  {
    match e {
      case Accept(_) =>
      case Receive(c, session, request, order) =>
        if Refused(m, c, request) {
          WriteAnswers(m.log, c, Refusal(session, request), k);
        } else if request.Register? {
          RegisterAnswers(m, c, session, request.info, order, k);
        } else {
          UploadAnswers(m, c, session, request.services, order, k);
        }
      case Disconnect(c, order) =>
        if Current(m, c) {
          PublishAnswers(Unbind(m, c, m.sockets[c].value), m.log, m.sockets[c].value, order, k);
        }
    }
  }

  /** In every run each request gets one answer, in order, on its own connection, saying whether it was granted. */
  lemma {:induction false} EveryRequestIsAnswered(es: seq<Event>, k: nat)
    requires Feasible(es)
    ensures AnswersIn(LogOf(After(es).log, k)) == AnswersDue(es, k)
    decreases |es|
  {
    if es != [] {
      var init, e := es[..|es| - 1], es[|es| - 1];
      EveryRequestIsAnswered(init, k);
      NextAnswers(After(init), e, k);
      if e.Receive? {
        AcceptedExactly(init, e.socket, e.request);
      }
    }
  }
}
