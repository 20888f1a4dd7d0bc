/** The sending side of one gate-to-gate connection, across disconnects. */
module RemoteLink {
  /**
   * `handed` is everything given to the network, `sent` everything passed to `send`; socket 0 means none.
   * `starts[c]` is how much had been handed over when the `c`th connection was made.
   */
  datatype Link<M> = Link(socket: nat, queue: seq<M>, handed: seq<M>, sent: seq<M>, starts: seq<nat>)

  datatype Event<M> =
    | Send(buffer: M)
    | Connected(socket: nat)
    | Lost

  function Idle<M>(): Link<M> {
    Link(0, [], [], [], [])
  }

  function Next<M>(l: Link<M>, e: Event<M>): Link<M> {
    match e
    case Send(buffer) =>
      if l.socket > 0 then l.(handed := l.handed + [buffer], sent := l.sent + [buffer])
      else l.(queue := l.queue + [buffer], sent := l.sent + [buffer])
    case Connected(k) =>
      if k == 0 then l.(socket := 0)
      else l.(socket := k, handed := l.handed + l.queue, queue := [], starts := l.starts + [|l.handed|])
    case Lost => l.(socket := 0)
  }

  function Play<M>(l: Link<M>, es: seq<Event<M>>): Link<M> {
    if es == [] then l else Next(Play(l, es[..|es| - 1]), es[|es| - 1])
  }

  /** Where the messages handed to connection `c` end. */
  function End<M>(l: Link<M>, c: nat): nat {
    if c + 1 < |l.starts| then l.starts[c + 1] else |l.handed|
  }

  /** Every handed message went to exactly one connection, in the order of the connections. */
  ghost predicate Split<M>(l: Link<M>) {
    && (l.starts == [] ==> l.handed == [])
    && (l.starts != [] ==> l.starts[0] == 0)
    && (forall c | 0 <= c < |l.starts| :: l.starts[c] <= |l.handed|)
    && (forall c, d | 0 <= c < d < |l.starts| :: l.starts[c] <= l.starts[d])
  }

  ghost predicate Inv<M>(l: Link<M>) {
    && l.handed + l.queue == l.sent
    && (l.socket != 0 ==> l.queue == [] && l.starts != [])
    && Split(l)
  }

  /** `l'` has the connections of `l`, with more handed to the last one at most, and perhaps newer ones. */
  ghost predicate Grows<M>(l: Link<M>, l': Link<M>) {
    && l.handed <= l'.handed
    && l.starts <= l'.starts
    && (forall c | |l.starts| <= c < |l'.starts| :: |l.handed| <= l'.starts[c])
  }

  lemma NextKeeps<M>(l: Link<M>, e: Event<M>)
    requires Inv(l)
    ensures Inv(Next(l, e)) && Grows(l, Next(l, e))
  {
  }

  /** Over any number of reconnects: handed messages followed by queued ones are the sent ones, in order. */
  lemma {:induction false} OrderAcrossReconnects<M>(l: Link<M>, es: seq<Event<M>>)
    requires Inv(l)
    ensures Inv(Play(l, es)) && Grows(l, Play(l, es)) && l.sent <= Play(l, es).sent
    decreases |es|
  {
    if es != [] {
      OrderAcrossReconnects(l, es[..|es| - 1]);
      NextKeeps(Play(l, es[..|es| - 1]), es[|es| - 1]);
    }
  }

  // ---------------------------------------------------------------------------
  // The same, told from the events

  /** The messages passed to `send`, in order. */
  function Sends<M>(es: seq<Event<M>>): seq<M> {
    if es == [] then []
    else
      var before, last := Sends(es[..|es| - 1]), es[|es| - 1];
      if last.Send? then before + [last.buffer] else before
  }

  /** The socket of the last attempt, until it is lost. */
  function SocketNow<M>(es: seq<Event<M>>): nat {
    if es == [] then 0
    else
      match es[|es| - 1]
      case Send(_) => SocketNow(es[..|es| - 1])
      case Connected(k) => k
      case Lost => 0
  }

  /** How many of them a connection has taken: those sent while one is up, and all earlier ones when one is made. */
  function Taken<M>(es: seq<Event<M>>): (n: nat)
    ensures n <= |Sends(es)|
  {
    if es == [] then 0
    else
      var init := es[..|es| - 1];
      match es[|es| - 1]
      case Send(_) => if SocketNow(init) > 0 then |Sends(es)| else Taken(init)
      case Connected(k) => if k > 0 then |Sends(es)| else Taken(init)
      case Lost => Taken(init)
  }

  /** How many had been taken before each connection was made. */
  function Starts<M>(es: seq<Event<M>>): seq<nat> {
    if es == [] then []
    else
      var init, last := es[..|es| - 1], es[|es| - 1];
      if last.Connected? && last.socket > 0 then Starts(init) + [Taken(init)] else Starts(init)
  }

  /**
   * In every run the messages sent while a connection is up go out on it at once; those sent while none is up wait and
   * go out first on the next one; nothing goes out while no connection is up.
   */
  lemma {:induction false} HandedWhileConnected<M>(es: seq<Event<M>>)
    ensures var l := Play(Idle(), es);
            && l.socket == SocketNow(es) && l.starts == Starts(es)
            && l.handed + l.queue == Sends(es) && |l.handed| == Taken(es)
    decreases |es|
  {
    if es != [] {
      HandedWhileConnected(es[..|es| - 1]);
      assert Inv(Play(Idle<M>(), es[..|es| - 1])) by { OrderAcrossReconnects(Idle<M>(), es[..|es| - 1]); }
    }
  }

  class RemoteGate<M> {
    var socket: nat
    var queue: seq<M>
    var handed: seq<M>
    ghost var sent: seq<M>
    ghost var starts: seq<nat>

    ghost function Value(): Link<M>
      reads this
    {
      Link(socket, queue, handed, sent, starts)
    }

    constructor ()
      ensures Inv(Value()) && Value() == Idle()
    {
      socket, queue, handed, sent, starts := 0, [], [], [], [];
    }

    method SendBuffer(buffer: M)
      requires Inv(Value())
      modifies this
      ensures Inv(Value()) && Value() == Next(old(Value()), Send(buffer))
    {
      sent := sent + [buffer];
      if socket > 0 {
        handed := handed + [buffer];
      } else {
        queue := queue + [buffer];
      }
    }

    method AutoSend()
      modifies `queue, `handed
      ensures handed == old(handed) + old(queue) && queue == []
    {
      for i := 0 to |queue|
        invariant queue == old(queue) && handed == old(handed) + queue[..i]
      {
        handed := handed + [queue[i]];
      }
      queue := [];
    }

    /** One round of the connect loop, up to its first suspension after connecting. */
    method Connect(k: nat)
      requires Inv(Value())
      modifies this
      ensures Inv(Value()) && Value() == Next(old(Value()), Connected(k))
    {
      socket := k;
      if socket != 0 {
        starts := starts + [|handed|];
        AutoSend();
      }
    }

    method Disconnect()
      requires Inv(Value())
      modifies this
      ensures Inv(Value()) && Value() == Next(old(Value()), Lost)
    {
      socket := 0;
    }
  }
}
