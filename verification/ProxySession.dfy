/** One client connection at the proxy: fresh, waiting for its login to be answered, or logged in. */
module ProxySession {
  import opened RegistryMessages

  const PING_REQ := 0x0001
  const LOGIN_REQ := 0x0002
  const ENTER_ROOM_REQ := 0x0004
  const MOVE_REQ := 0x0005

  datatype Message = Message(id: Id, session: nat, body: string)

  datatype Kind = Login | Room | Other

  function KindOf(id: Id): Kind {
    if id == LOGIN_REQ then Login
    else if id == ENTER_ROOM_REQ || id == MOVE_REQ then Room
    else Other
  }

  /** What a service tells the client, as far as the proxy looks into it. */
  datatype News =
    | LoginOk(userid: int, room: int)
    | LoginFailed
    | MatchOk(room: int)
    | GameOver
    | Plain

  /** What the proxy sends into the system for this connection. */
  datatype Out =
    | ToService(dest: Id, userid: int, message: Message)
    | Offline(dest: Id, userid: int)

  datatype Conn = Conn(
    open: bool,
    userid: int,
    logic: Id,
    room: Id,
    waitLogin: bool,
    cache: seq<Message>,
    sent: seq<Out>)

  /** `login` is the login service picked at random; `userid` and `logic` are in the header of a service's message. */
  datatype Event =
    | FromClient(message: Message, login: Id)
    | FromService(userid: int, logic: Id, news: News)
    | Closed

  const FRESH := Conn(true, 0, 0, 0, false, [], [])

  function Send(s: Conn, dest: Id, m: Message): Conn {
    s.(sent := s.sent + [ToService(dest, s.userid, m)])
  }

  function SendAll(s: Conn, ms: seq<Message>): Conn {
    if ms == [] then s else Send(SendAll(s, ms[..|ms| - 1]), s.logic, ms[|ms| - 1])
  }

  function FromClientNext(s: Conn, m: Message, login: Id): Conn {
    match KindOf(m.id)
    case Login =>
      if s.userid > 0 || s.waitLogin then s else Send(s.(waitLogin := true), login, m)
    case Room =>
      if s.room == 0 then s else Send(s, s.room, m)
    case Other =>
      if m.id == PING_REQ && (s.waitLogin || s.userid <= 0) then s
      else if s.waitLogin then s.(cache := s.cache + [m])
      else if s.userid <= 0 then s
      else Send(s, s.logic, m)
  }

  /** The state right after a successful login, before the cache is flushed. */
  function Granted(s: Conn, logic: Id, user: int, room: int): Conn {
    s.(logic := logic, waitLogin := false, room := U16(room), userid := user)
  }

  function FromServiceNext(s: Conn, userid: int, logic: Id, news: News): Conn {
    if s.userid != userid then s
    else
      match news
      case LoginOk(user, room) =>
        SendAll(Granted(s, logic, user, room), s.cache).(cache := [])
      case LoginFailed => s
      case MatchOk(room) => s.(room := U16(room))
      case GameOver => s.(room := 0)
      case Plain => s
  }

  /** A connection that was erased takes no further part. */
  function Next(s: Conn, e: Event): Conn {
    if !s.open then s
    else
      match e
      case FromClient(m, login) => FromClientNext(s, m, login)
      case FromService(userid, logic, news) => FromServiceNext(s, userid, logic, news)
      case Closed =>
        var s' := if s.logic > 0 then s.(sent := s.sent + [Offline(s.logic, s.userid)]) else s;
        s'.(open := false)
  }

  function Play(es: seq<Event>): Conn {
    if es == [] then FRESH else Next(Play(es[..|es| - 1]), es[|es| - 1])
  }

  // ---------------------------------------------------------------------------
  // The same run read off its events

  datatype Grant = Grant(userid: int, logic: Id)

  /** The first successful login answer. */
  function Success(es: seq<Event>): Option<Grant> {
    if es == [] then None
    else
      var last := es[|es| - 1];
      if Success(es[..|es| - 1]).Some? then Success(es[..|es| - 1])
      else if last.FromService? && last.news.LoginOk? then Some(Grant(last.news.userid, last.logic))
      else None
  }

  /** The first login request, if it came before a login succeeded, as it is forwarded. */
  function FirstLogin(es: seq<Event>): Option<Out> {
    if es == [] then None
    else
      var last, before := es[|es| - 1], es[..|es| - 1];
      if FirstLogin(before).Some? || Success(before).Some? then FirstLogin(before)
      else if last.FromClient? && KindOf(last.message.id) == Login then Some(ToService(last.login, 0, last.message))
      else None
  }

  /** Messages before any login request are discarded, and pings before success are answered on the spot. */
  predicate Counts(m: Message, asked: bool, granted: bool) {
    && KindOf(m.id) == Other
    && (asked || granted)
    && (m.id == PING_REQ ==> granted)
  }

  /** The client's messages that are for the logic service, in arrival order. */
  function ForLogic(es: seq<Event>): seq<Message> {
    if es == [] then []
    else
      var last, before := es[|es| - 1], es[..|es| - 1];
      if last.FromClient? && Counts(last.message, FirstLogin(before).Some?, Success(before).Some?)
      then ForLogic(before) + [last.message]
      else ForLogic(before)
  }

  function Stamp(ms: seq<Message>, g: Grant): seq<Out> {
    seq(|ms|, i requires 0 <= i < |ms| => ToService(g.logic, g.userid, ms[i]))
  }

  /** The part of `outs` of one kind. */
  function Sent(outs: seq<Out>, k: Kind): seq<Out> {
    if outs == [] then []
    else
      var last := outs[|outs| - 1];
      Sent(outs[..|outs| - 1], k) + if last.ToService? && KindOf(last.message.id) == k then [last] else []
  }

  /** Login answers carry user 0 in their header, and a success names a real user and logic service. */
  ghost predicate Proper(e: Event) {
    e.FromService? && e.news.LoginOk? ==> e.userid == 0 && e.news.userid > 0 && e.logic > 0
  }

  ghost predicate ProperRun(es: seq<Event>) {
    forall i | 0 <= i < |es| :: Proper(es[i]) && es[i] != Closed
  }

  // ---------------------------------------------------------------------------
  // Proofs

  lemma SentOne(outs: seq<Out>, o: Out, k: Kind)
    ensures Sent(outs + [o], k) ==
            if o.ToService? && KindOf(o.message.id) == k then Sent(outs, k) + [o] else Sent(outs, k)
  {
    assert (outs + [o])[..|outs + [o]| - 1] == outs;
  }

  lemma {:induction false} SendAllSends(s: Conn, ms: seq<Message>)
    ensures SendAll(s, ms) == s.(sent := s.sent + Stamp(ms, Grant(s.userid, s.logic)))
    decreases |ms|
  {
    if ms != [] {
      SendAllSends(s, ms[..|ms| - 1]);
    }
  }

  ghost predicate AllOther(ms: seq<Message>) {
    forall i | 0 <= i < |ms| :: KindOf(ms[i].id) == Other
  }

  lemma StampOne(ms: seq<Message>, m: Message, g: Grant)
    ensures Stamp(ms + [m], g) == Stamp(ms, g) + [ToService(g.logic, g.userid, m)]
  {
  }

  lemma {:induction false} SentStamp(outs: seq<Out>, ms: seq<Message>, g: Grant, k: Kind)
    requires AllOther(ms)
    ensures Sent(outs + Stamp(ms, g), k) == if k == Other then Sent(outs, k) + Stamp(ms, g) else Sent(outs, k)
    decreases |ms|
  {
    if ms == [] {
      assert outs + Stamp(ms, g) == outs;
    } else {
      var init, last := ms[..|ms| - 1], ms[|ms| - 1];
      var o, stamped := ToService(g.logic, g.userid, last), Stamp(init, g);
      SentStamp(outs, init, g, k);
      assert Stamp(ms, g) == stamped + [o] by {
        StampOne(init, last, g);
        assert ms == init + [last];
      }
      assert outs + (stamped + [o]) == (outs + stamped) + [o];
      SentOne(outs + stamped, o, k);
    }
  }

  /** A run's events, reduced to what decides the connection's state. */
  datatype Story = Story(success: Option<Grant>, first: Option<Out>, messages: seq<Message>)

  function StoryOf(es: seq<Event>): Story {
    Story(Success(es), FirstLogin(es), ForLogic(es))
  }

  function Told(t: Story, e: Event): Story {
    match e
    case FromClient(m, login) =>
      if Counts(m, t.first.Some?, t.success.Some?) then t.(messages := t.messages + [m])
      else if KindOf(m.id) == Login && t.first.None? && t.success.None? then t.(first := Some(ToService(login, 0, m)))
      else t
    case FromService(_, logic, news) =>
      if news.LoginOk? && t.success.None? then t.(success := Some(Grant(news.userid, logic))) else t
    case Closed => t
  }

  lemma StoryGoesOn(es: seq<Event>, e: Event)
    ensures StoryOf(es + [e]) == Told(StoryOf(es), e)
  {
    assert (es + [e])[..|es + [e]| - 1] == es;
  }

  ghost predicate SentAgrees(logins: seq<Out>, others: seq<Out>, t: Story) {
    && logins == (if t.first.Some? then [t.first.value] else [])
    && others == (if t.success.Some? then Stamp(t.messages, t.success.value) else [])
  }

  /** The state and the messages sent, told from the events alone. */
  ghost predicate Agrees(s: Conn, t: Story) {
    && s.open
    && AllOther(t.messages)
    && s.waitLogin == (t.first.Some? && t.success.None?)
    && s.cache == (if t.success.Some? then [] else t.messages)
    && (t.success.None? ==> s.userid == 0 && s.logic == 0)
    && (t.success.Some? ==> s.userid > 0 && s.logic > 0 && t.success.value == Grant(s.userid, s.logic))
    && SentAgrees(Sent(s.sent, Login), Sent(s.sent, Other), t)
  }

  ghost predicate OwnUser(s: Conn) {
    forall i | 0 <= i < |s.sent| :: s.sent[i].ToService? && (s.sent[i].userid == 0 || s.sent[i].userid == s.userid)
  }

  lemma LoginAgrees(s: Conn, t: Story, m: Message, login: Id)
    requires Agrees(s, t) && KindOf(m.id) == Login
    ensures Agrees(FromClientNext(s, m, login), Told(t, FromClient(m, login)))
  {
    SentOne(s.sent, ToService(login, s.userid, m), Login);
    SentOne(s.sent, ToService(login, s.userid, m), Other);
  }

  lemma RoomAgrees(s: Conn, t: Story, m: Message, login: Id)
    requires Agrees(s, t) && KindOf(m.id) == Room
    ensures Agrees(FromClientNext(s, m, login), Told(t, FromClient(m, login)))
  {
    SentOne(s.sent, ToService(s.room, s.userid, m), Login);
    SentOne(s.sent, ToService(s.room, s.userid, m), Other);
  }

  lemma OtherAgrees(s: Conn, t: Story, m: Message, login: Id)
    requires Agrees(s, t) && KindOf(m.id) == Other
    ensures Agrees(FromClientNext(s, m, login), Told(t, FromClient(m, login)))
  {
    SentOne(s.sent, ToService(s.logic, s.userid, m), Login);
    SentOne(s.sent, ToService(s.logic, s.userid, m), Other);
    StampOne(t.messages, m, Grant(s.userid, s.logic));
  }

  lemma ServiceAgrees(s: Conn, t: Story, e: Event)
    requires Agrees(s, t) && e.FromService? && Proper(e)
    ensures Agrees(Next(s, e), Told(t, e))
  {
    if e.news.LoginOk? && t.success.None? {
      var g := Grant(e.news.userid, e.logic);
      SendAllSends(Granted(s, e.logic, e.news.userid, e.news.room), s.cache);
      SentStamp(s.sent, s.cache, g, Login);
      SentStamp(s.sent, s.cache, g, Other);
    }
  }

  lemma NextAgrees(s: Conn, t: Story, e: Event)
    requires Agrees(s, t) && Proper(e) && e != Closed
    ensures Agrees(Next(s, e), Told(t, e))
  {
    match e {
      case FromClient(m, login) =>
        match KindOf(m.id) {
          case Login => LoginAgrees(s, t, m, login);
          case Room => RoomAgrees(s, t, m, login);
          case Other => OtherAgrees(s, t, m, login);
        }
      case FromService(_, _, _) => ServiceAgrees(s, t, e);
    }
  }

  lemma NextOwnUser(s: Conn, t: Story, e: Event)
    requires Agrees(s, t) && OwnUser(s) && Proper(e) && e != Closed
    ensures OwnUser(Next(s, e))
  {
    if e.FromService? && e.news.LoginOk? {
      SendAllSends(Granted(s, e.logic, e.news.userid, e.news.room), s.cache);
    }
  }

  /**
   * In every run, until the connection closes: at most one login request goes out; nothing reaches a logic service
   * before a login succeeds; from then on the cached and the later messages have gone to the granted logic service,
   * each once, in arrival order, under the granted user.
   */
  lemma {:induction false} RunAgrees(es: seq<Event>)
    requires ProperRun(es)
    ensures Agrees(Play(es), StoryOf(es)) && OwnUser(Play(es))
    decreases |es|
  {
    if es != [] {
      var before, last := es[..|es| - 1], es[|es| - 1];
      RunAgrees(before);
      assert es == before + [last] && Proper(last);
      StoryGoesOn(before, last);
      NextAgrees(Play(before), StoryOf(before), last);
      NextOwnUser(Play(before), StoryOf(before), last);
    }
  }

  lemma {:induction false} SuccessStays(es: seq<Event>, more: seq<Event>)
    requires Success(es).Some?
    ensures Success(es + more) == Success(es)
    decreases |more|
  {
    if more == [] {
      assert es + more == es;
    } else {
      SuccessStays(es, more[..|more| - 1]);
      assert (es + more)[..|es + more| - 1] == es + more[..|more| - 1];
    }
  }

  /** The granted user and logic service never change. */
  lemma GrantIsFinal(es: seq<Event>, more: seq<Event>)
    requires ProperRun(es + more) && Success(es).Some?
    ensures Success(es + more) == Success(es)
    ensures Play(es + more).userid == Success(es).value.userid && Play(es + more).logic == Success(es).value.logic
  {
    SuccessStays(es, more);
    RunAgrees(es + more);
  }

  lemma {:induction false} ClosedStays(es: seq<Event>, more: seq<Event>)
    requires !Play(es).open
    ensures Play(es + more) == Play(es)
    decreases |more|
  {
    if more == [] {
      assert es + more == es;
    } else {
      ClosedStays(es, more[..|more| - 1]);
      assert (es + more)[..|es + more| - 1] == es + more[..|more| - 1];
    }
  }

  lemma OnlyToServices(s: Conn)
    requires OwnUser(s)
    ensures forall o :: o in s.sent ==> o.ToService?
  {
    forall o | o in s.sent ensures o.ToService? {
      var i :| 0 <= i < |s.sent| && s.sent[i] == o;
    }
  }

  /** The logic service hears that the user left once, when the connection closes, iff the login had succeeded. */
  lemma {:induction false} OfflineOnce(es: seq<Event>, more: seq<Event>)
    requires ProperRun(es)
    ensures Play(es + [Closed] + more).sent == Play(es).sent +
            (match Success(es) case Some(g) => [Offline(g.logic, g.userid)] case None => [])
    ensures forall o :: o in Play(es).sent ==> o.ToService?
  {
    RunAgrees(es);
    assert (es + [Closed])[..|es|] == es;
    ClosedStays(es + [Closed], more);
    OnlyToServices(Play(es));
  }

  /** Services address everything but login answers to a logged-in user. */
  ghost predicate Addressed(es: seq<Event>) {
    forall i | 0 <= i < |es| :: es[i].FromService? && !es[i].news.LoginOk? ==> es[i].userid > 0
  }

  ghost predicate Quiet(s: Conn, t: Story) {
    t.success.None? ==> s.room == 0 && s.sent == match t.first case Some(o) => [o] case None => []
  }

  lemma NextQuiet(s: Conn, t: Story, e: Event)
    requires Quiet(s, t) && e != Closed && s.open
    requires t.success.None? ==> s.userid == 0 && s.waitLogin == t.first.Some?
    requires e.FromService? && !e.news.LoginOk? ==> e.userid > 0
    ensures Quiet(Next(s, e), Told(t, e))
  {
  }

  /** Then nothing but the login request leaves the proxy before the login succeeds, to any service. */
  lemma {:induction false} QuietBeforeLogin(es: seq<Event>)
    requires ProperRun(es) && Addressed(es)
    ensures Quiet(Play(es), StoryOf(es))
    decreases |es|
  {
    if es != [] {
      var before, last := es[..|es| - 1], es[|es| - 1];
      QuietBeforeLogin(before);
      RunAgrees(before);
      assert es == before + [last];
      StoryGoesOn(before, last);
      NextQuiet(Play(before), StoryOf(before), last);
    }
  }

  // ---------------------------------------------------------------------------
  // Rooms

  /** The user the connection stands for. */
  function UserNow(es: seq<Event>): int {
    match Success(es) case Some(g) => g.userid case None => 0
  }

  function RoomAfter(room: Id, news: News): Id {
    match news
    case LoginOk(_, r) => U16(r)
    case MatchOk(r) => U16(r)
    case GameOver => 0
    case _ => room
  }

  /** The room the services last told this user to be in; 0 for none. */
  function RoomNow(es: seq<Event>): Id {
    if es == [] then 0
    else
      var last, before := es[|es| - 1], es[..|es| - 1];
      if last.FromService? && last.userid == UserNow(before) then RoomAfter(RoomNow(before), last.news)
      else RoomNow(before)
  }

  /** The client's room messages while it has a room, addressed to that room. */
  function ForRoom(es: seq<Event>): seq<Out> {
    if es == [] then []
    else
      var last, before := es[|es| - 1], es[..|es| - 1];
      if last.FromClient? && KindOf(last.message.id) == Room && RoomNow(before) != 0
      then ForRoom(before) + [ToService(RoomNow(before), UserNow(before), last.message)]
      else ForRoom(before)
  }

  ghost predicate InRoom(s: Conn, room: Id, outs: seq<Out>) {
    s.room == room && Sent(s.sent, Room) == outs
  }

  lemma ClientInRoom(s: Conn, m: Message, login: Id)
    requires s.open
    ensures InRoom(Next(s, FromClient(m, login)), s.room,
                   if KindOf(m.id) == Room && s.room != 0
                   then Sent(s.sent, Room) + [ToService(s.room, s.userid, m)] else Sent(s.sent, Room))
  {
    SentOne(s.sent, ToService(login, s.userid, m), Room);
    SentOne(s.sent, ToService(s.room, s.userid, m), Room);
    SentOne(s.sent, ToService(s.logic, s.userid, m), Room);
  }

  lemma ServiceInRoom(s: Conn, e: Event)
    requires s.open && e.FromService? && AllOther(s.cache)
    ensures InRoom(Next(s, e), if e.userid == s.userid then RoomAfter(s.room, e.news) else s.room, Sent(s.sent, Room))
  {
    if e.news.LoginOk? {
      SendAllSends(Granted(s, e.logic, e.news.userid, e.news.room), s.cache);
      SentStamp(s.sent, s.cache, Grant(e.news.userid, e.logic), Room);
    }
  }

  /** In every run room messages go to the room the user is in at that moment, or nowhere. */
  lemma {:induction false} RoomsFollowMatches(es: seq<Event>)
    requires ProperRun(es)
    ensures InRoom(Play(es), RoomNow(es), ForRoom(es))
    decreases |es|
  {
    if es != [] {
      var before, last := es[..|es| - 1], es[|es| - 1];
      RoomsFollowMatches(before);
      RunAgrees(before);
      assert Agrees(Play(before), StoryOf(before)) && UserNow(before) == Play(before).userid;
      if last.FromClient? {
        ClientInRoom(Play(before), last.message, last.login);
      } else {
        ServiceInRoom(Play(before), last);
      }
    }
  }

  /**
   * Where a client's message goes, by its number: 2 is a login request and goes to the login service, once; 4 and 5 go
   * to the room, if there is one; anything else goes to the granted logic service, or nowhere yet.
   */
  lemma {:induction false} MessageGoesTo(es: seq<Event>, m: Message, login: Id)
    requires ProperRun(es)
    ensures Play(es + [FromClient(m, login)]).sent == Play(es).sent + (
            if m.id == 2 then
              if FirstLogin(es).None? && Success(es).None? then [ToService(login, 0, m)] else []
            else if m.id == 4 || m.id == 5 then
              if RoomNow(es) != 0 then [ToService(RoomNow(es), UserNow(es), m)] else []
            else
              match Success(es) case Some(g) => [ToService(g.logic, g.userid, m)] case None => [])
    ensures m.id == 1 && Success(es).None? ==> Play(es + [FromClient(m, login)]) == Play(es)
  {
    RunAgrees(es);
    RoomsFollowMatches(es);
    assert (es + [FromClient(m, login)])[..|es|] == es;
  }

  // ---------------------------------------------------------------------------
  // The program

  class Connection {
    var open: bool
    var userid: int
    var logic: Id
    var room: Id
    var waitLogin: bool
    var cache: seq<Message>
    var sent: seq<Out>

    function Value(): Conn
      reads this
    {
      Conn(open, userid, logic, room, waitLogin, cache, sent)
    }

    constructor ()
      ensures Value() == FRESH
    {
      open, userid, logic, room, waitLogin, cache, sent := true, 0, 0, 0, false, [], [];
    }

    method SendToService(dest: Id, m: Message)
      modifies `sent
      ensures Value() == Send(old(Value()), dest, m)
    {
      sent := sent + [ToService(dest, userid, m)];
    }

    method ClientRegister(m: Message, login: Id)
      requires open && KindOf(m.id) == Login
      modifies this
      ensures Value() == Next(old(Value()), FromClient(m, login))
    {
      if userid > 0 || waitLogin {
        return;
      }
      waitLogin := true;
      SendToService(login, m);
    }

    method ClientRoom(m: Message, login: Id)
      requires open && KindOf(m.id) == Room
      modifies this
      ensures Value() == Next(old(Value()), FromClient(m, login))
    {
      if room > 0 {
        SendToService(room, m);
      }
    }

    method ClientOther(m: Message, login: Id)
      requires open && KindOf(m.id) == Other
      modifies this
      ensures Value() == Next(old(Value()), FromClient(m, login))
    {
      if m.id == PING_REQ && (waitLogin || userid <= 0) {
        return;
      }
      if waitLogin {
        cache := cache + [m];
        return;
      } else if userid <= 0 {
        return;
      }
      SendToService(logic, m);
    }

    method FlushCache()
      modifies `sent, `cache
      ensures Value() == SendAll(old(Value()), old(cache)).(cache := [])
    {
      for i := 0 to |cache|
        invariant cache == old(cache)
        invariant Value() == SendAll(old(Value()), cache[..i])
      {
        assert cache[..i + 1][..i] == cache[..i];
        SendAllSends(old(Value()), cache[..i]);
        SendToService(logic, cache[i]);
      }
      assert cache[..|cache|] == cache;
      SendAllSends(old(Value()), cache);
      cache := [];
    }

    method ServiceMessage(user: int, from: Id, news: News)
      requires open
      modifies this
      ensures Value() == Next(old(Value()), FromService(user, from, news))
    {
      if userid != user {
        return;
      }
      match news {
        case LoginOk(u, r) =>
          logic := from;
          waitLogin := false;
          room := U16(r);
          userid := u;
          FlushCache();
        case LoginFailed =>
        case MatchOk(r) => room := U16(r);
        case GameOver => room := 0;
        case Plain =>
      }
    }

    method SocketClosed()
      requires open
      modifies this
      ensures Value() == Next(old(Value()), Closed)
    {
      if logic > 0 {
        sent := sent + [Offline(logic, userid)];
      }
      open := false;
    }
  }
}
