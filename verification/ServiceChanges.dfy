/** What each event at a gate's listener does to every service, and what every connection is told because of it. */
module ServiceChanges {
  import opened RegistryMessages
  import opened Subscriptions

  /** The connection may register the id: it stands for no service yet, and the id is known as one of this machine. */
  predicate MayRegister(s: Listener, c: nat, id: Id)
    requires Positions(s)
  {
    && c in s.conns && s.conns[c].live && s.conns[c].service.None?
    && id in s.byId && s.services[s.byId[id]].isLocal
  }

  /** Service `j` after event `e`: online by a registration, as told by its own gate, offline with its connection. */
  function Becomes(s: Listener, e: Event, j: nat): Service
    requires Positions(s) && j < |s.services|
  {
    var v := s.services[j];
    match e
    case RegisterKnown(c, id) =>
      if MayRegister(s, c, id) && s.byId[id] == j then Service(v.id, v.tp, v.isLocal, true, c) else v
    case Remote(id, _, online) =>
      if id in s.byId && s.byId[id] == j then Service(v.id, v.tp, v.isLocal, online, v.socket) else v
    case Disconnect(c) =>
      if Registered(s, c) && s.conns[c].service == Some(j) then Service(v.id, v.tp, v.isLocal, false, 0) else v
    case _ => v
  }

  /** The service event `e` brings in. If its connection closed during the wait, it is reached through none. */
  function Joins(s: Listener, e: Event): Option<Service> {
    match e
    case RegisterNew(c, id, tp) =>
      if c in s.conns then Some(Service(id, tp, true, true, if s.conns[c].live then c else 0)) else None
    case Remote(id, tp, online) => if id in s.byId then None else Some(Service(id, tp, false, online, 0))
    case _ => None
  }

  ghost predicate ServicesAfter(s: Listener, e: Event, s': Listener)
    requires Positions(s)
  {
    && |s'.services| == |s.services| + (if Joins(s, e).Some? then 1 else 0)
    && (forall j | 0 <= j < |s.services| :: s'.services[j] == Becomes(s, e, j))
    && (Joins(s, e).Some? ==> s'.services[|s.services|] == Joins(s, e).value)
  }

  lemma RegisterServices(s: Listener, e: Event)
    requires Inv(s) && (e.RegisterNew? || e.RegisterKnown?)
    ensures ServicesAfter(s, e, Next(s, e))
  {
  }

  lemma RemoteServices(s: Listener, e: Event)
    requires Inv(s) && e.Remote?
    ensures ServicesAfter(s, e, Next(s, e))
  {
  }

  lemma CloseServices(s: Listener, c: nat)
    requires Inv(s)
    ensures ServicesAfter(s, Disconnect(c), Next(s, Disconnect(c)))
  {
  }

  lemma NextServices(s: Listener, e: Event)
    requires Inv(s)
    ensures ServicesAfter(s, e, Next(s, e))
  {
    match e {
      case RegisterNew(_, _, _) => RegisterServices(s, e);
      case RegisterKnown(_, _) => RegisterServices(s, e);
      case Remote(_, _, _) => RemoteServices(s, e);
      case Disconnect(c) => CloseServices(s, c);
      case Accept(_) =>
      case Subscribe(_, _) =>
    }
  }

  /**
   * At every point of every run: a registration or the word of another gate changes the service it names, the end of a
   * connection takes offline the service registered through it, nothing else changes, and nothing else joins.
   */
  lemma EveryServiceAfter(es: seq<Event>, e: Event)
    ensures ServicesAfter(Play(es), e, Play(es + [e]))
  {
    PlayOne(es, e);
    NextServices(Play(es), e);
  }

  // ---------------------------------------------------------------------------
  // Who is told

  /** The service whose state event `e` makes known. */
  function Announced(s: Listener, e: Event): Option<Service>
    requires Positions(s)
  {
    match e
    case RegisterNew(_, _, _) => Joins(s, e)
    case RegisterKnown(c, id) => if MayRegister(s, c, id) then Some(Becomes(s, e, s.byId[id])) else None
    case Remote(id, _, _) => if id in s.byId then Some(Becomes(s, e, s.byId[id])) else Joins(s, e)
    case Disconnect(c) => if Registered(s, c) then Some(Becomes(s, e, s.conns[c].service.value)) else None
    case _ => None
  }

  predicate IsFollower(s: Listener, c: nat, t: Id) {
    c in s.conns && s.conns[c].live && t in s.conns[c].subscribe
  }

  /** What event `e` writes to connection `c`: the state of a service of a type it follows, or an answer. */
  function News(s: Listener, e: Event, c: nat): seq<Note>
    requires Positions(s)
  {
    match e
    case Subscribe(x, t) =>
      if x != c || c !in s.conns || !s.conns[c].live then []
      else if Registered(s, c) then [SubscribeAck(true, t, Infos(s, t))]
      else [SubscribeAck(false, t, [])]
    case _ =>
      match Announced(s, e)
      case None => []
      case Some(v) => if IsFollower(s, c, v.tp) then [SubscribeBrd(ServiceInfo(v.id, v.tp, v.online))] else []
  }

  lemma AnnouncementIs(s: Listener, e: Event)
    requires Inv(s) && Announcing(s, e).Some?
    ensures var a := Announcing(s, e).value;
            a.service < |a.state.services| && Announced(s, e) == Some(a.state.services[a.service])
  {
  }

  lemma ToldNews(s: Listener, e: Event, c: nat)
    requires Inv(s) && Announcing(s, e).Some?
    ensures List(Next(s, e).log, c) == List(s.log, c) + News(s, e, c)
  {
    var a := Announcing(s, e).value;
    AnnouncementIs(s, e);
    NextAnnounces(s, e);
    UpdateReaches(a.state, a.service, c);
  }

  lemma SubscribeNews(s: Listener, x: nat, t: Id, c: nat)
    requires Positions(s)
    ensures List(Next(s, Subscribe(x, t)).log, c) == List(s.log, c) + News(s, Subscribe(x, t), c)
  {
  }

  lemma QuietNews(s: Listener, e: Event, c: nat)
    requires Inv(s) && Announcing(s, e).None? && !e.Subscribe?
    ensures List(Next(s, e).log, c) == List(s.log, c) + News(s, e, c)
  {
    assert Next(s, e).log == s.log && News(s, e, c) == [];
  }

  /** At every point of every run each connection is written exactly what the event calls for. */
  lemma EveryoneIsTold(es: seq<Event>, e: Event, c: nat)
    ensures List(Play(es + [e]).log, c) == List(Play(es).log, c) + News(Play(es), e, c)
  {
    PlayOne(es, e);
    if Announcing(Play(es), e).Some? {
      ToldNews(Play(es), e, c);
    } else if e.Subscribe? {
      SubscribeNews(Play(es), e.conn, e.tp, c);
    } else {
      QuietNews(Play(es), e, c);
    }
  }

  /**
   * When the connection a service is registered through closes, the service is offline and unreachable, and every other
   * live follower of its type is told so, once. The end of any other connection changes no service and tells nobody.
   */
  lemma CloseTakesOffline(es: seq<Event>, c: nat, x: nat)
    ensures var s, s' := Play(es), Play(es + [Disconnect(c)]);
            if Registered(s, c) then
              var j := s.conns[c].service.value;
              && |s'.services| == |s.services| && !s'.services[j].online && s'.services[j].socket == 0
              && (forall i | 0 <= i < |s.services| && i != j :: s'.services[i] == s.services[i])
              && (x in s.conns && s.conns[x].live && s.services[j].tp in s.conns[x].subscribe ==>
                    List(s'.log, x) ==
                    List(s.log, x) + [SubscribeBrd(ServiceInfo(s.services[j].id, s.services[j].tp, false))])
            else s'.services == s.services && s'.log == s.log
  {
    var s := Play(es);
    EveryServiceAfter(es, Disconnect(c));
    EveryoneIsTold(es, Disconnect(c), x);
    PlayOne(es, Disconnect(c));
  }

  // ---------------------------------------------------------------------------
  // Connections

  /** Connection `c` after event `e`. */
  function ConnAfter(s: Listener, e: Event, c: nat): Option<Conn>
    requires Positions(s)
  {
    if c !in s.conns then (if e == Accept(c) && c != 0 then Some(Conn(true, None, [])) else None)
    else
      var k := s.conns[c];
      match e
      case RegisterNew(x, _, _) => Some(if x == c then Conn(k.live, Some(|s.services|), k.subscribe) else k)
      case RegisterKnown(x, id) =>
        Some(if x == c && MayRegister(s, c, id) then Conn(true, Some(s.byId[id]), k.subscribe) else k)
      case Subscribe(x, t) =>
        Some(if x == c && Registered(s, c) && t !in k.subscribe then Conn(true, k.service, k.subscribe + [t]) else k)
      case Disconnect(x) => Some(if x == c && k.live then Conn(false, None, k.subscribe) else k)
      case _ => Some(k)
  }

  ghost predicate ConnIs(s: Listener, c: nat, conn: Option<Conn>) {
    conn == if c in s.conns then Some(s.conns[c]) else None
  }

  lemma RegisterConn(s: Listener, e: Event, c: nat)
    requires Inv(s) && (e.RegisterNew? || e.RegisterKnown?)
    ensures ConnIs(Next(s, e), c, ConnAfter(s, e, c))
  {
  }

  lemma RemoteConn(s: Listener, e: Event, c: nat)
    requires Inv(s) && e.Remote?
    ensures ConnIs(Next(s, e), c, ConnAfter(s, e, c))
  {
    assert Next(s, e).conns == s.conns;
  }

  lemma SubscribeConn(s: Listener, e: Event, c: nat)
    requires Inv(s) && (e.Accept? || e.Subscribe?)
    ensures ConnIs(Next(s, e), c, ConnAfter(s, e, c))
  {
  }

  lemma CloseConn(s: Listener, e: Event, c: nat)
    requires Inv(s) && e.Disconnect?
    ensures ConnIs(Next(s, e), c, ConnAfter(s, e, c))
  {
    assert Release(s, e.conn).conns == s.conns;
  }

  lemma NextConn(s: Listener, e: Event, c: nat)
    requires Inv(s)
    ensures ConnIs(Next(s, e), c, ConnAfter(s, e, c))
  {
    match e {
      case RegisterNew(_, _, _) => RegisterConn(s, e, c);
      case RegisterKnown(_, _) => RegisterConn(s, e, c);
      case Remote(_, _, _) => RemoteConn(s, e, c);
      case Accept(_) => SubscribeConn(s, e, c);
      case Subscribe(_, _) => SubscribeConn(s, e, c);
      case Disconnect(_) => CloseConn(s, e, c);
    }
  }

  /** At every point of every run a connection stands for the service it registered last, until it closes. */
  lemma EveryConnectionAfter(es: seq<Event>, e: Event, c: nat)
    ensures ConnIs(Play(es + [e]), c, ConnAfter(Play(es), e, c))
  {
    PlayOne(es, e);
    NextConn(Play(es), e, c);
  }
}
