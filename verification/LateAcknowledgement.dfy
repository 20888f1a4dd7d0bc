/** Runs in which a subscriber misses or delays an acknowledgement. */
module LateAcknowledgement {
  import opened RegistryMessages
  import opened Subscriptions
  import opened GateNotes
  import opened Subscriber

  /** Service 7 subscribes to its own type 3, of which the remote service 8 is another one. */
  const FIRST := ServiceInfo(7, 3, true)

  function Second(online: bool): ServiceInfo {
    ServiceInfo(8, 3, online)
  }

  /** The gate lists both services; connection 1 is service 7's and has been sent `notes`. */
  ghost predicate Lists(s: Listener, online: bool, subscribed: bool, notes: seq<Note>) {
    && s.services == [Service(7, 3, true, true, 1), Service(8, 3, false, online, 0)]
    && List(s.types, 3) == [0, 1]
    && s.byId == map[7 := 0, 8 := 1]
    && s.conns == map[1 := Conn(true, Some(0), if subscribed then [3] else [])]
    && List(s.index, 3) == (if subscribed then [1] else [])
    && List(s.log, 1) == notes
  }

  lemma ListingIs(s: Listener, online: bool, subscribed: bool, notes: seq<Note>)
    requires Lists(s, online, subscribed, notes)
    ensures Listing(s, 3) == [Entry(7, true), Entry(8, online)]
  {
  }

  lemma SubscribedLists(s: Listener, online: bool, subscribed: bool, notes: seq<Note>)
    requires Positions(s) && Lists(s, online, subscribed, notes)
    ensures Lists(Subscribed(s, 1, 3), online, true, notes + [SubscribeAck(true, 3, [FIRST, Second(online)])])
  {
    assert Infos(s, 3) == [FIRST, Second(online)];
    assert AddOnce(List(s.index, 3), 1) == [1] && AddOnce(s.conns[1].subscribe, 3) == [3];
    assert Subscribed(s, 1, 3).conns == map[1 := Conn(true, Some(0), [3])];
  }

  lemma Subscribing(s: Listener, online: bool, subscribed: bool, notes: seq<Note>)
    requires Inv(s) && Lists(s, online, subscribed, notes)
    ensures Lists(Next(s, Subscribe(1, 3)), online, true, notes + [SubscribeAck(true, 3, [FIRST, Second(online)])])
  {
    assert Registered(s, 1);
    SubscribedLists(s, online, subscribed, notes);
  }

  lemma Changing(s: Listener, before: bool, online: bool, notes: seq<Note>)
    requires Inv(s) && Lists(s, before, true, notes)
    ensures Lists(Next(s, Remote(8, 3, online)), online, true, notes + [SubscribeBrd(Second(online))])
  {
    var s' := WithRemote(s, 8, 3, online);
    assert s'.services == [Service(7, 3, true, true, 1), Service(8, 3, false, online, 0)];
    assert InfoOf(s'.services[1]) == Second(online);
    assert List(s'.index, 3)[..0] == [];
    assert Broadcast(s'.log, [1], SubscribeBrd(Second(online))) ==
           Append(Broadcast(s'.log, [], SubscribeBrd(Second(online))), 1, SubscribeBrd(Second(online)));
  }

  // ---------------------------------------------------------------------------
  // Both services are there, and nothing was sent yet

  const ALONE: seq<Event> := [Accept(1)] + [RegisterNew(1, 7, 3)]

  const REGISTERING: seq<Event> := ALONE + [Remote(8, 3, true)]

  /** Service 7 alone, connected and not subscribed. */
  ghost predicate Seven(s: Listener) {
    && s.services == [Service(7, 3, true, true, 1)] && s.types == map[3 := [0]] && s.byId == map[7 := 0]
    && s.conns == map[1 := Conn(true, Some(0), [])] && s.index == map[] && s.log == map[]
  }

  const CONNECTED := NOTHING.(conns := map[1 := Conn(true, None, [])])

  lemma SevenRegisters()
    requires Inv(CONNECTED)
    ensures Seven(Next(CONNECTED, RegisterNew(1, 7, 3)))
  {
    var s := Emplace(CONNECTED, Service(7, 3, true, false, 0));
    assert List(CONNECTED.types, 3) == [] && s.types[3] == [0];
    assert s.services == [Service(7, 3, true, false, 0)] && s.types == map[3 := [0]] && s.byId == map[7 := 0];
  }

  lemma EightJoins(s: Listener)
    requires Inv(s) && Seven(s)
    ensures Lists(Next(s, Remote(8, 3, true)), true, false, [])
  {
    var s' := Emplace(s, Service(8, 3, false, false, 0));
    assert s'.services == s.services + [Service(8, 3, false, false, 0)];
    assert List(s.types, 3) + [1] == [0, 1];
  }

  lemma OneConnects()
    ensures Play([Accept(1)]) == CONNECTED
  {
    PlayOne([], Accept(1));
    assert [] + [Accept(1)] == [Accept(1)];
  }

  lemma OneService()
    ensures Seven(Play(ALONE))
  {
    OneConnects();
    PlayOne([Accept(1)], RegisterNew(1, 7, 3));
    SevenRegisters();
  }

  lemma JoinedAfter(es: seq<Event>)
    requires Seven(Play(es))
    ensures Lists(Play(es + [Remote(8, 3, true)]), true, false, [])
  {
    PlayOne(es, Remote(8, 3, true));
    EightJoins(Play(es));
  }

  lemma Prepared()
    ensures Lists(Play(REGISTERING), true, false, [])
  {
    OneService();
    JoinedAfter(ALONE);
  }

  // ---------------------------------------------------------------------------
  // Steps of gate and subscriber

  function Gates(es: seq<Event>): seq<Step> {
    seq(|es|, i requires 0 <= i < |es| => AtGate(es[i]))
  }

  lemma RunOne(es: seq<Step>, e: Step)
    ensures Run(es + [e]) == Advance(Run(es), e)
  {
    assert (es + [e])[..|es + [e]| - 1] == es;
  }

  lemma {:induction false} OnlyGate(es: seq<Event>)
    ensures Run(Gates(es)) == System(Play(es), START.follower)
    decreases |es|
  {
    if es == [] {
      assert Play(es) == NOTHING;
    } else {
      var init, e := es[..|es| - 1], es[|es| - 1];
      OnlyGate(init);
      RunOne(Gates(init), AtGate(e));
      assert Gates(es) == Gates(init) + [AtGate(e)];
    }
  }

  /** The whole state, with service 7 subscribed. */
  ghost predicate At(y: System, online: bool, notes: seq<Note>, f: Follower) {
    Inv(y.gate) && Lists(y.gate, online, true, notes) && y.follower == f
  }

  lemma Changes(es: seq<Step>, before: bool, online: bool, notes: seq<Note>, f: Follower)
    requires At(Run(es), before, notes, f)
    ensures At(Run(es + [AtGate(Remote(8, 3, online))]), online, notes + [SubscribeBrd(Second(online))], f)
  {
    RunOne(es, AtGate(Remote(8, 3, online)));
    NextKeeps(Run(es).gate, Remote(8, 3, online));
    Changing(Run(es).gate, before, online, notes);
  }

  lemma Resubscribes(es: seq<Step>, online: bool, notes: seq<Note>, f: Follower)
    requires At(Run(es), online, notes, f)
    ensures At(Run(es + [AtGate(Subscribe(1, 3))]), online,
               notes + [SubscribeAck(true, 3, [FIRST, Second(online)])], f)
  {
    RunOne(es, AtGate(Subscribe(1, 3)));
    NextKeeps(Run(es).gate, Subscribe(1, 3));
    Subscribing(Run(es).gate, online, true, notes);
  }

  lemma Moves(es: seq<Step>, online: bool, notes: seq<Note>, f: Follower, m: Move)
    requires At(Run(es), online, notes, f)
    ensures At(Run(es + [AtFollower(m)]), online, notes, Moved(f, Run(es).gate.log, m))
    ensures List(Run(es).gate.log, 1) == notes
  {
    RunOne(es, AtFollower(m));
  }

  // ---------------------------------------------------------------------------
  // The runs

  const ACK := SubscribeAck(true, 3, [FIRST, Second(true)])
  const LATER_ACK := SubscribeAck(true, 3, [FIRST, Second(false)])
  const BRD := SubscribeBrd(Second(false))

  function Beginning(): seq<Step> {
    Gates(REGISTERING + [Subscribe(1, 3)]) + [AtFollower(Connect(1))]
  }

  lemma Acknowledged()
    ensures At(Run(Beginning()), true, [ACK], Follower(1, 0, [], 0, []))
  {
    Prepared();
    PlayOne(REGISTERING, Subscribe(1, 3));
    NextKeeps(Play(REGISTERING), Subscribe(1, 3));
    Subscribing(Play(REGISTERING), true, false, []);
    OnlyGate(REGISTERING + [Subscribe(1, 3)]);
    assert [] + [ACK] == [ACK];
    Moves(Gates(REGISTERING + [Subscribe(1, 3)]), true, [ACK], START.follower, Connect(1));
  }

  lemma FirstRead(take: bool)
    ensures At(Run(Beginning() + [AtFollower(Read(take))]), true, [ACK],
               Follower(1, 1, if take then [Taken(1, 0, 0, 0)] else [], 0, []))
  {
    var held := if take then [Taken(1, 0, 0, 0)] else [];
    Acknowledged();
    Moves(Beginning(), true, [ACK], Follower(1, 0, [], 0, []), Read(take));
    assert [] + held == held;
  }

  function Reading(take: bool): seq<Step> {
    Beginning() + [AtFollower(Read(take))] + [AtGate(Remote(8, 3, false))] + [AtFollower(Read(true))]
  }

  /** The subscriber has read the acknowledgement, taking it or not, and then that service 8 is offline. */
  lemma ReadBoth(take: bool)
    ensures At(Run(Reading(take)), false, [ACK, BRD],
               Follower(1, 2, if take then [Taken(1, 0, 0, 0)] else [], 0, [Second(false)]))
  {
    var es := Beginning() + [AtFollower(Read(take))];
    var f := Follower(1, 1, if take then [Taken(1, 0, 0, 0)] else [], 0, []);
    FirstRead(take);
    Changes(es, true, false, [ACK], f);
    assert [ACK] + [BRD] == [ACK, BRD];
    Moves(es + [AtGate(Remote(8, 3, false))], false, [ACK, BRD], f, Read(true));
    assert [] + [Second(false)] == [Second(false)];
  }

  lemma HeardThree(a: ServiceInfo, b: ServiceInfo, c: ServiceInfo)
    ensures HeardAll([], 3, [a, b, c]) == Heard(Heard(Heard([], 3, a), 3, b), 3, c)
  {
    HeardMore([], 3, [], a);
    HeardMore([], 3, [a], b);
    HeardMore([], 3, [a, b], c);
    assert [] + [a] == [a] && [a] + [b] == [a, b] && [a, b] + [c] == [a, b, c];
  }

  lemma PutBoth(first: bool, last: bool)
    ensures Put(Put(Put([], Entry(8, first)), Entry(7, true)), Entry(8, last)) == [Entry(8, last), Entry(7, true)]
  {
    assert Put([], Entry(8, first)) == [Entry(8, first)];
    assert Ids([Entry(8, first)]) == [8];
    assert Put([Entry(8, first)], Entry(7, true)) == [Entry(8, first), Entry(7, true)];
    assert Ids([Entry(8, first), Entry(7, true)]) == [8, 7];
  }

  lemma ListAfter(f: Follower, online: bool)
    requires f.applied == [Second(false), FIRST, Second(online)]
    ensures ListOf(f, 3) == [Entry(8, online), Entry(7, true)]
  {
    HeardThree(Second(false), FIRST, Second(online));
    PutBoth(false, online);
  }

  /** The acknowledgement is applied after a later broadcast: the subscriber takes service 8 for online. */
  lemma BroadcastOvertakesAck()
    ensures var y := Run(Reading(true) + [AtFollower(Apply(0))]);
            && CaughtUp(y.follower, y.gate)
            && ListOf(y.follower, 3) == [Entry(8, true), Entry(7, true)]
            && Listing(y.gate, 3) == [Entry(7, true), Entry(8, false)]
  {
    var f := Follower(1, 2, [Taken(1, 0, 0, 0)], 0, [Second(false)]);
    ReadBoth(true);
    Moves(Reading(true), false, [ACK, BRD], f, Apply(0));
    var y := Run(Reading(true) + [AtFollower(Apply(0))]);
    assert y.follower.applied == [Second(false), FIRST, Second(true)];
    ListAfter(y.follower, true);
    ListingIs(y.gate, false, true, [ACK, BRD]);
  }

  lemma Retries()
    ensures At(Run(Reading(false) + [AtGate(Subscribe(1, 3))] + [AtFollower(Read(true))]), false,
               [ACK, BRD, LATER_ACK], Follower(1, 3, [Taken(1, 2, 0, 1)], 0, [Second(false)]))
  {
    var f := Follower(1, 2, [], 0, [Second(false)]);
    ReadBoth(false);
    Resubscribes(Reading(false), false, [ACK, BRD], f);
    assert [ACK, BRD] + [LATER_ACK] == [ACK, BRD, LATER_ACK];
    Moves(Reading(false) + [AtGate(Subscribe(1, 3))], false, [ACK, BRD, LATER_ACK], f, Read(true));
    assert [] + [Taken(1, 2, 0, 1)] == [Taken(1, 2, 0, 1)];
  }

  lemma SameTwo(a: Entry, b: Entry)
    requires a.id != b.id
    ensures forall x: Id :: Lookup([a, b], x) == Lookup([b, a], x)
  {
    assert Ids([a, b]) == [a.id, b.id] && Ids([b, a]) == [b.id, a.id];
  }

  /** The first acknowledgement is ignored and a retried one applied: the lists differ, but only in order. */
  lemma IgnoredAckChangesOrder()
    ensures var es := Reading(false) + [AtGate(Subscribe(1, 3))] + [AtFollower(Read(true))];
            var y := Run(es + [AtFollower(Apply(0))]);
            && CaughtUp(y.follower, y.gate)
            && ListOf(y.follower, 3) == [Entry(8, false), Entry(7, true)]
            && Listing(y.gate, 3) == [Entry(7, true), Entry(8, false)]
            && (forall x: Id :: Agree(y.follower, y.gate, 3, x))
  {
    var es := Reading(false) + [AtGate(Subscribe(1, 3))] + [AtFollower(Read(true))];
    var f := Follower(1, 3, [Taken(1, 2, 0, 1)], 0, [Second(false)]);
    Retries();
    Moves(es, false, [ACK, BRD, LATER_ACK], f, Apply(0));
    var y := Run(es + [AtFollower(Apply(0))]);
    assert y.follower.applied == [Second(false), FIRST, Second(false)];
    ListAfter(y.follower, false);
    ListingIs(y.gate, false, true, [ACK, BRD, LATER_ACK]);
    SameTwo(Entry(8, false), Entry(7, true));
  }
}
