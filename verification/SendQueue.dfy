/**
 * A sender with a fast path and a fallback queue in front of a bounded channel. `gate_connector` (whose channel is
 * created late) and `local_service` (whose channel exists from the start) are both of this kind.
 */
module SendQueue {

  /** Where the drain coroutine is. A notified coroutine is `Running` again: it will re-read the queue. */
  datatype Drain = NotStarted | Running | Parked | Writing | Written

  /** `given` is everything submitted so far, `out` everything ever written to the channel. */
  datatype Stage<M> = Stage(open: bool, queue: seq<M>, drain: Drain, out: seq<M>, given: seq<M>)

  /** `room` says whether the channel can take the message at that moment. */
  datatype Event<M> =
    | Write(message: M, room: bool)
    | Open
    | Advance(room: bool)

  /** A `gate_connector` before its first registration. */
  function Closed<M>(): Stage<M> {
    Stage(false, [], NotStarted, [], [])
  }

  /** A `local_service` just after `start`. */
  function Opened<M>(): Stage<M> {
    Stage(true, [], Running, [], [])
  }

  /** `notify_all`: only a coroutine that is waiting is woken. */
  function Notify(d: Drain): Drain {
    if d == Parked then Running else d
  }

  function Next<M>(s: Stage<M>, e: Event<M>): Stage<M> {
    match e
    case Write(m, room) =>
      if !s.open || s.queue != [] || !room then
        s.(queue := s.queue + [m], drain := Notify(s.drain), given := s.given + [m])
      else
        s.(out := s.out + [m], given := s.given + [m])
    case Open =>
      if s.open then s else s.(open := true, drain := Running)
    case Advance(room) =>
      match s.drain
      case NotStarted => s
      case Parked => s
      case Running =>
        if s.queue == [] then s.(drain := Parked)
        else if room then s.(drain := Written, out := s.out + [s.queue[0]])
        else s.(drain := Writing)
      case Writing =>
        if room && s.queue != [] then s.(drain := Written, out := s.out + [s.queue[0]]) else s
      case Written =>
        if s.queue != [] then s.(drain := Running, queue := s.queue[1..]) else s
  }

  function Play<M>(s: Stage<M>, es: seq<Event<M>>): Stage<M> {
    if es == [] then s else Next(Play(s, es[..|es| - 1]), es[|es| - 1])
  }

  /** The queued messages not yet in the channel. */
  function Rest<M>(s: Stage<M>): seq<M> {
    if s.drain == Written && s.queue != [] then s.queue[1..] else s.queue
  }

  ghost predicate Inv<M>(s: Stage<M>) {
    && s.out + Rest(s) == s.given
    && (s.drain == Parked ==> s.queue == [])
    && (s.drain == Writing || s.drain == Written ==> s.queue != [])
    && (s.open <==> s.drain != NotStarted)
    && (!s.open ==> s.out == [])
  }

  lemma NextKeeps<M>(s: Stage<M>, e: Event<M>)
    requires Inv(s)
    ensures Inv(Next(s, e))
  {
    match e {
      case Write(m, room) =>
        var s' := Next(s, e);
        assert Rest(s') == if s'.queue == s.queue then Rest(s) else Rest(s) + [m];
      case Open =>
      case Advance(room) =>
    }
  }

  /** The messages submitted by `es`, in order. */
  function Submitted<M>(es: seq<Event<M>>): seq<M> {
    if es == [] then []
    else
      var before, last := Submitted(es[..|es| - 1]), es[|es| - 1];
      if last.Write? then before + [last.message] else before
  }

  /** Whatever the interleaving, the channel gets the submitted messages in order, each once, and the rest is queued. */
  lemma {:induction false} FirstInFirstOut<M>(s: Stage<M>, es: seq<Event<M>>)
    requires Inv(s)
    ensures Inv(Play(s, es))
    ensures Play(s, es).out + Rest(Play(s, es)) == s.out + Rest(s) + Submitted(es)
    decreases |es|
  {
    if es != [] {
      FirstInFirstOut(s, es[..|es| - 1]);
      NextKeeps(Play(s, es[..|es| - 1]), es[|es| - 1]);
    }
  }

  lemma {:induction false} OpenedBy<M>(es: seq<Event<M>>, start: Stage<M>)
    ensures Play(start, es).open <==> start.open || Open in es
    decreases |es|
  {
    if es != [] {
      OpenedBy(es[..|es| - 1], start);
      assert es == es[..|es| - 1] + [es[|es| - 1]];
    }
  }

  /** From the start the channel has got the first messages submitted; a parked drain coroutine has nothing to do. */
  lemma NoLostWakeUp<M>(es: seq<Event<M>>, start: Stage<M>)
    requires start == Closed() || start == Opened()
    ensures var s := Play(start, es);
            && s.out + Rest(s) == Submitted(es)
            && (s.drain == Parked ==> s.queue == [] && s.out == Submitted(es))
            && (s.drain == NotStarted <==> !s.open)
            && (s.open <==> start == Opened<M>() || Open in es)
  {
    FirstInFirstOut(start, es);
    OpenedBy(es, start);
  }

  /** While the channel is open and always has room, messages go straight through and nothing is ever queued. */
  lemma {:induction false} StraightThrough<M>(es: seq<Event<M>>)
    requires forall i | 0 <= i < |es| :: es[i].Open? || es[i].room
    ensures Play(Opened(), es).queue == [] && Play(Opened(), es).out == Submitted(es)
    decreases |es|
  {
    FirstInFirstOut(Opened(), es);
    if es != [] {
      StraightThrough(es[..|es| - 1]);
      OpenedBy(es[..|es| - 1], Opened());
    }
  }

  // ---------------------------------------------------------------------------
  // Progress

  /** How many drain steps are still needed when the channel has room. */
  function Remaining<M>(s: Stage<M>): nat {
    match s.drain
    case NotStarted => 0
    case Parked => 0
    case Running => 2 * |s.queue| + 1
    case Writing => 2 * |s.queue| + 1
    case Written => 2 * |s.queue|
  }

  lemma AdvanceProgresses<M>(s: Stage<M>)
    requires Inv(s) && s.open && s.drain != Parked
    ensures Remaining(Next(s, Event<M>.Advance(true))) == Remaining(s) - 1
  {
  }

  function Advances<M>(n: nat): seq<Event<M>> {
    seq(n, _ => Advance(true))
  }

  lemma {:induction false} Drains<M>(s: Stage<M>, n: nat)
    requires Inv(s) && s.open && n <= Remaining(s)
    ensures var r := Play(s, Advances(n));
            Inv(r) && r.open && r.given == s.given && Remaining(r) == Remaining(s) - n
    decreases n
  {
    if n > 0 {
      Drains(s, n - 1);
      var es := Advances<M>(n);
      assert es[..n - 1] == Advances(n - 1);
      var r := Play(s, Advances(n - 1));
      NextKeeps(r, Advance(true));
      if r.drain != Parked {
        AdvanceProgresses(r);
      }
    }
  }

  /** From any reachable state with an open channel, enough drain steps with room deliver everything submitted. */
  lemma EverythingIsDelivered<M>(s: Stage<M>)
    requires Inv(s) && s.open
    ensures var r := Play(s, Advances(Remaining(s)));
            r.out == s.given && r.queue == [] && r.drain == Parked
  {
    Drains(s, Remaining(s));
  }

  // ---------------------------------------------------------------------------
  // The program

  class Sender<M(==)> {
    var open: bool
    var queue: seq<M>
    var drain: Drain
    var out: seq<M>
    ghost var given: seq<M>

    ghost function Value(): Stage<M>
      reads this
    {
      Stage(open, queue, drain, out, given)
    }

    constructor (hasChannel: bool)
      ensures Inv(Value()) && Value() == if hasChannel then Opened() else Closed()
    {
      open, queue, out, given := hasChannel, [], [], [];
      drain := if hasChannel then Running else NotStarted;
    }

    /** All-or-nothing append to the channel. */
    method TryWrite(m: M, room: bool) returns (ok: bool)
      modifies `out
      ensures ok == room && out == if ok then old(out) + [m] else old(out)
    {
      ok := room;
      if ok {
        out := out + [m];
      }
    }

    method Write(m: M, room: bool)
      requires Inv(Value())
      modifies this
      ensures Value() == Next(old(Value()), Event<M>.Write(m, room)) && Inv(Value())
    {
      NextKeeps(Value(), Event<M>.Write(m, room));
      given := given + [m];
      if !open || queue != [] {
        queue := queue + [m];
        drain := Notify(drain);
        return;
      }
      var ok := TryWrite(m, room);
      if !ok {
        queue := queue + [m];
        drain := Notify(drain);
      }
    }

    method CreateChannel()
      requires Inv(Value())
      modifies this
      ensures Value() == Next(old(Value()), Event<M>.Open) && Inv(Value())
    {
      NextKeeps(Value(), Event<M>.Open);
      if !open {
        open := true;
        drain := Running;
      }
    }

    /** The drain loop from one suspension point to the next. */
    method Resume(room: bool)
      requires Inv(Value())
      modifies this
      ensures Value() == Next(old(Value()), Event<M>.Advance(room)) && Inv(Value())
    {
      NextKeeps(Value(), Event<M>.Advance(room));
      match drain {
        case NotStarted =>
        case Parked =>
        case Running =>
          if queue == [] {
            drain := Parked;
          } else {
            var ok := TryWrite(queue[0], room);
            drain := if ok then Written else Writing;
          }
        case Writing =>
          var ok := TryWrite(queue[0], room);
          if ok {
            drain := Written;
          }
        case Written =>
          queue := queue[1..];
          drain := Running;
      }
    }
  }
}
