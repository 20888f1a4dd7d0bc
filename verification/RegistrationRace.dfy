/** A run in which two connections register the same new service at the same time. */
module RegistrationRace {
  import opened RegistryMessages
  import opened Subscriptions
  import opened LateAcknowledgement

  /** Service 7 of type 3 registers through connection 1 and follows its own type; connection 2 is there too. */
  const BEFORE_RACE: seq<Event> := ALONE + [Subscribe(1, 3)] + [Accept(2)]

  /** Service 7 alone, following its type. */
  ghost predicate Follows3(s: Listener) {
    && |s.services| == 1 && s.services[0].id == 7 && List(s.types, 3) == [0]
    && 1 in s.conns && s.conns[1].live && 3 in s.conns[1].subscribe
  }

  lemma SevenSubscribes(s: Listener)
    requires Inv(s) && Seven(s)
    ensures Follows3(Next(s, Subscribe(1, 3)))
  {
    assert Registered(s, 1);
  }

  lemma AnotherConnects(s: Listener)
    requires Inv(s) && Follows3(s)
    ensures Follows3(Next(s, Accept(2))) && 2 in Next(s, Accept(2)).conns
  {
  }

  lemma FollowsAfter(es: seq<Event>)
    requires Seven(Play(es))
    ensures Follows3(Play(es + [Subscribe(1, 3)]))
  {
    PlayOne(es, Subscribe(1, 3));
    SevenSubscribes(Play(es));
  }

  lemma ConnectedAfter(es: seq<Event>)
    requires Follows3(Play(es))
    ensures Follows3(Play(es + [Accept(2)])) && 2 in Play(es + [Accept(2)]).conns
  {
    PlayOne(es, Accept(2));
    AnotherConnects(Play(es));
  }

  lemma FollowerBeforeRace()
    ensures Follows3(Play(BEFORE_RACE)) && 2 in Play(BEFORE_RACE).conns
  {
    OneService();
    FollowsAfter(ALONE);
    ConnectedAfter(ALONE + [Subscribe(1, 3)]);
  }

  /** After connection 2 registers service 7 as well, the follower on connection 1 disagrees with the gate. */
  lemma RaceHappens()
    ensures var s := Play(BEFORE_RACE + [RegisterNew(2, 7, 3)]);
            && 1 in s.conns && s.conns[1].live && 3 in s.conns[1].subscribe
            && View(List(s.log, 1), 3) != Listing(s, 3)
  {
    FollowerBeforeRace();
    RaceBreaksAgreement(BEFORE_RACE, 1, 2, 7, 3, 0);
  }
}
