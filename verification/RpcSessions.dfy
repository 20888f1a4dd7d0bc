/** Session numbers of remote calls and the table of callers waiting for an answer. */
module RpcSessions {
  import opened RegistryMessages

  const SEQUENCES := 0x200_0000
  const CLOCKS := 0x1_0000_0000

  // ---------------------------------------------------------------------------
  // Session numbers

  /** `time_` and the 32-bit `sequence_`. */
  datatype Counter = Counter(time: nat, sequence: nat)

  const START := Counter(0, 0)

  function Tick(c: Counter, now: nat): Counter {
    var c' := if now > c.time then Counter(now, 0) else c;
    c'.(sequence := (c'.sequence + 1) % 0x1_0000_0000)
  }

  /** 32 bits of clock, 7 of process id and 25 of sequence. */
  function Pack(c: Counter, pid: nat): nat {
    c.time % CLOCKS * 0x1_0000_0000 + pid % 128 * SEQUENCES + c.sequence % SEQUENCES
  }

  /** The counter after the first `n` clock readings. */
  function Ticks(cs: seq<nat>, n: nat): Counter
    requires n <= |cs|
  {
    if n == 0 then START else Tick(Ticks(cs, n - 1), cs[n - 1])
  }

  /** The `i`th session number handed out. */
  function Session(cs: seq<nat>, i: nat, pid: nat): nat
    requires i < |cs|
  {
    Pack(Ticks(cs, i + 1), pid)
  }

  /** The latest of the first `n` readings: a clock that steps back is ignored. */
  function Clock(cs: seq<nat>, n: nat): nat
    requires n <= |cs|
  {
    if n == 0 then 0
    else
      var before := Clock(cs, n - 1);
      if cs[n - 1] > before then cs[n - 1] else before
  }

  /** How many of the first `n` numbers were handed out while the clock stood at `t`. */
  function Uses(cs: seq<nat>, n: nat, t: nat): nat
    requires n <= |cs|
  {
    if n == 0 then 0 else Uses(cs, n - 1, t) + if Clock(cs, n) == t then 1 else 0
  }

  /** Readings that fit the 32 bits kept of them. */
  ghost predicate Readable(cs: seq<nat>) {
    forall i | 0 <= i < |cs| :: cs[i] < CLOCKS
  }

  lemma {:induction false} ClockMoves(cs: seq<nat>, i: nat, j: nat)
    requires i <= j <= |cs|
    ensures Clock(cs, i) <= Clock(cs, j)
    decreases j - i
  {
    if i < j {
      ClockMoves(cs, i, j - 1);
    }
  }

  /** `Clock` is the maximum of the readings. */
  lemma {:induction false} ClockIsLatest(cs: seq<nat>, n: nat)
    requires n <= |cs|
    ensures forall i | 0 <= i < n :: cs[i] <= Clock(cs, n)
    ensures n > 0 ==> Clock(cs, n) == 0 || exists i :: 0 <= i < n && cs[i] == Clock(cs, n)
    decreases n
  {
    if n > 0 {
      ClockIsLatest(cs, n - 1);
      assert Clock(cs, n) == cs[n - 1] || Clock(cs, n) == Clock(cs, n - 1);
    }
  }

  lemma {:induction false} UsesGrow(cs: seq<nat>, i: nat, j: nat, t: nat)
    requires i <= j <= |cs|
    ensures Uses(cs, i, t) <= Uses(cs, j, t)
    decreases j - i
  {
    if i < j {
      UsesGrow(cs, i, j - 1, t);
    }
  }

  lemma {:induction false} UnusedAhead(cs: seq<nat>, n: nat, t: nat)
    requires n <= |cs| && t > Clock(cs, n)
    ensures Uses(cs, n, t) == 0
    decreases n
  {
    if n > 0 {
      UnusedAhead(cs, n - 1, t);
    }
  }

  lemma CountOn(n: nat)
    ensures (n % 0x1_0000_0000 + 1) % 0x1_0000_0000 == (n + 1) % 0x1_0000_0000
  {
  }

  /** The counter holds the latest reading and how often it was used, modulo its width. */
  lemma {:induction false} TicksCount(cs: seq<nat>, n: nat)
    requires n <= |cs|
    ensures Ticks(cs, n) == Counter(Clock(cs, n), Uses(cs, n, Clock(cs, n)) % 0x1_0000_0000)
    decreases n
  {
    if n > 0 {
      TicksCount(cs, n - 1);
      CountOn(Uses(cs, n - 1, Clock(cs, n - 1)));
      if cs[n - 1] > Clock(cs, n - 1) {
        UnusedAhead(cs, n - 1, Clock(cs, n));
      }
    }
  }

  lemma {:induction false} Wrap(r: nat, k: nat)
    ensures (r + k * SEQUENCES) % SEQUENCES == r % SEQUENCES
    decreases k
  {
    if k > 0 {
      Wrap(r, k - 1);
      assert r + k * SEQUENCES == r + (k - 1) * SEQUENCES + SEQUENCES;
    }
  }

  /** The 32-bit counter wraps at a multiple of the 25 bits kept of it. */
  lemma SequenceMask(n: nat)
    ensures n % 0x1_0000_0000 % SEQUENCES == n % SEQUENCES
  {
    var q, r := n / 0x1_0000_0000, n % 0x1_0000_0000;
    assert n == r + q * 128 * SEQUENCES;
    Wrap(r, q * 128);
  }

  /** Use of its clock value by the `i`th number. */
  function Use(cs: seq<nat>, i: nat): nat
    requires i < |cs|
  {
    Uses(cs, i + 1, Clock(cs, i + 1))
  }

  lemma SessionParts(cs: seq<nat>, i: nat, pid: nat)
    requires i < |cs| && Readable(cs)
    ensures Session(cs, i, pid) ==
            Clock(cs, i + 1) * 0x1_0000_0000 + pid % 128 * SEQUENCES + Use(cs, i) % SEQUENCES
  {
    ClockIsLatest(cs, i + 1);
    TicksCount(cs, i + 1);
    SequenceMask(Use(cs, i));
  }

  /** Two numbers compare by clock, then by use of that clock value. */
  lemma SessionOrder(cs: seq<nat>, i: nat, j: nat, pid: nat)
    requires i < |cs| && j < |cs| && Readable(cs)
    ensures var ti, tj := Clock(cs, i + 1), Clock(cs, j + 1);
            Session(cs, i, pid) < Session(cs, j, pid) <==>
            ti < tj || (ti == tj && Use(cs, i) % SEQUENCES < Use(cs, j) % SEQUENCES)
  {
    SessionParts(cs, i, pid);
    SessionParts(cs, j, pid);
  }

  lemma {:induction false} NthUse(cs: seq<nat>, m: nat, t: nat, n: nat) returns (i: nat)
    requires m <= |cs| && 0 < n <= Uses(cs, m, t)
    ensures i < m && Clock(cs, i + 1) == t && Use(cs, i) == n
    decreases m
  {
    if Uses(cs, m, t) == n && Clock(cs, m) == t {
      i := m - 1;
    } else {
      i := NthUse(cs, m - 1, t, n);
    }
  }

  lemma LaterUse(cs: seq<nat>, i: nat, j: nat)
    requires i < j < |cs| && Clock(cs, i + 1) == Clock(cs, j + 1)
    ensures 0 < Use(cs, i) < Use(cs, j) <= Uses(cs, |cs|, Clock(cs, i + 1))
  {
    UsesGrow(cs, i + 1, j, Clock(cs, i + 1));
    UsesGrow(cs, j + 1, |cs|, Clock(cs, i + 1));
  }

  ghost predicate Increasing(cs: seq<nat>, pid: nat) {
    forall i, j | 0 <= i < j < |cs| :: Session(cs, i, pid) < Session(cs, j, pid)
  }

  ghost predicate Distinct(cs: seq<nat>, pid: nat) {
    forall i, j | 0 <= i < j < |cs| :: Session(cs, i, pid) != Session(cs, j, pid)
  }

  lemma EarlierIsSmaller(cs: seq<nat>, i: nat, j: nat, pid: nat)
    requires Readable(cs) && i < j < |cs| && Uses(cs, |cs|, Clock(cs, i + 1)) < SEQUENCES
    ensures Session(cs, i, pid) < Session(cs, j, pid)
  {
    SessionOrder(cs, i, j, pid);
    ClockMoves(cs, i + 1, j + 1);
    if Clock(cs, i + 1) == Clock(cs, j + 1) {
      LaterUse(cs, i, j);
    }
  }

  lemma OverflowGoesBack(cs: seq<nat>, t: nat, pid: nat)
    requires Readable(cs) && Uses(cs, |cs|, t) >= SEQUENCES
    ensures !Increasing(cs, pid)
  {
    var i := NthUse(cs, |cs|, t, 1);
    var j := NthUse(cs, |cs|, t, SEQUENCES);
    SessionOrder(cs, i, j, pid);
    if j < i {
      LaterUse(cs, j, i);
    }
  }

  /** Numbers increase exactly when no clock value serves 2^25 of them, however the clock jumps. */
  lemma SessionsIncrease(cs: seq<nat>, pid: nat)
    requires Readable(cs)
    ensures Increasing(cs, pid) <==> (forall t :: Uses(cs, |cs|, t) < SEQUENCES)
  {
    if t :| Uses(cs, |cs|, t) >= SEQUENCES {
      OverflowGoesBack(cs, t, pid);
    } else {
      forall i, j | 0 <= i < j < |cs| ensures Session(cs, i, pid) < Session(cs, j, pid) {
        EarlierIsSmaller(cs, i, j, pid);
      }
    }
  }

  lemma Residues(m: nat, n: nat)
    requires 0 < m < n <= SEQUENCES
    ensures m % SEQUENCES != n % SEQUENCES
  {
  }

  lemma TwoDiffer(cs: seq<nat>, i: nat, j: nat, pid: nat)
    requires Readable(cs) && i < j < |cs| && Uses(cs, |cs|, Clock(cs, i + 1)) <= SEQUENCES
    ensures Session(cs, i, pid) != Session(cs, j, pid)
  {
    SessionOrder(cs, i, j, pid);
    SessionOrder(cs, j, i, pid);
    if Clock(cs, i + 1) == Clock(cs, j + 1) {
      LaterUse(cs, i, j);
      Residues(Use(cs, i), Use(cs, j));
    }
  }

  lemma OverflowRepeats(cs: seq<nat>, t: nat, pid: nat)
    requires Readable(cs) && Uses(cs, |cs|, t) > SEQUENCES
    ensures !Distinct(cs, pid)
  {
    var i := NthUse(cs, |cs|, t, 1);
    var j := NthUse(cs, |cs|, t, SEQUENCES + 1);
    SessionOrder(cs, i, j, pid);
    SessionOrder(cs, j, i, pid);
    if j < i {
      LaterUse(cs, j, i);
    }
  }

  /** Numbers are pairwise distinct exactly when no clock value serves more than 2^25 of them. */
  lemma SessionsDiffer(cs: seq<nat>, pid: nat)
    requires Readable(cs)
    ensures Distinct(cs, pid) <==> (forall t :: Uses(cs, |cs|, t) <= SEQUENCES)
  {
    if t :| Uses(cs, |cs|, t) > SEQUENCES {
      OverflowRepeats(cs, t, pid);
    } else {
      forall i, j | 0 <= i < j < |cs| ensures Session(cs, i, pid) != Session(cs, j, pid) {
        TwoDiffer(cs, i, j, pid);
      }
    }
  }

  /** With a clock past zero no call gets session 0, which stands for "no session". */
  lemma SessionsNonZero(cs: seq<nat>, i: nat, pid: nat)
    requires Readable(cs) && i < |cs| && cs[0] > 0
    ensures Session(cs, i, pid) > 0
  {
    SessionParts(cs, i, pid);
    ClockIsLatest(cs, i + 1);
  }

  lemma SameFields(c: nat, p: nat, q: nat, c': nat, p': nat, q': nat)
    requires p < 128 && p' < 128 && q < SEQUENCES && q' < SEQUENCES
    requires c * 0x1_0000_0000 + p * SEQUENCES + q == c' * 0x1_0000_0000 + p' * SEQUENCES + q'
    ensures c == c' && p == p' && q == q'
  {
    assert 128 * c + p == 128 * c' + p';
  }

  /** Processes whose ids differ in their low seven bits never hand out the same number. */
  lemma ProcessesDiffer(cs: seq<nat>, i: nat, pid: nat, cs': seq<nat>, j: nat, pid': nat)
    requires Readable(cs) && Readable(cs') && i < |cs| && j < |cs'| && pid % 128 != pid' % 128
    ensures Session(cs, i, pid) != Session(cs', j, pid')
  {
    SessionParts(cs, i, pid);
    SessionParts(cs', j, pid');
    if Session(cs, i, pid) == Session(cs', j, pid') {
      SameFields(Clock(cs, i + 1), pid % 128, Use(cs, i) % SEQUENCES,
                 Clock(cs', j + 1), pid' % 128, Use(cs', j) % SEQUENCES);
    }
  }

  // ---------------------------------------------------------------------------
  // Callers

  /** Whether a caller can be cancelled, and whether that was asked for. */
  datatype Token = Never | Live | Requested

  datatype Phase = Waiting | Scheduled | Done

  /** `wakes` counts how often the scheduler was told to continue this caller. */
  datatype Awaiter<D> = Awaiter(session: nat, token: Token, reply: Option<D>, phase: Phase, wakes: nat)

  datatype Rpc<D> = Rpc(counter: Counter, waiting: map<nat, nat>, awaiters: seq<Awaiter<D>>)

  datatype Event<D> =
    | Call(now: nat, token: Token)
    | Ack(session: nat, data: D)
    | Cancel(caller: nat)
    | Resume(caller: nat)

  function Empty<D>(): Rpc<D> {
    Rpc(START, map[], [])
  }

  function Wake<D>(s: Rpc<D>, session: nat, reply: Option<D>): Rpc<D> {
    if session in s.waiting && s.waiting[session] < |s.awaiters| then
      var n := s.waiting[session];
      var a := s.awaiters[n];
      s.(waiting := s.waiting - {session},
         awaiters := s.awaiters[n := a.(phase := Scheduled, reply := reply, wakes := a.wakes + 1)])
    else s
  }

  function Next<D>(s: Rpc<D>, e: Event<D>, pid: nat): Rpc<D> {
    match e
    case Call(now, token) =>
      var counter := Tick(s.counter, now);
      var session := Pack(counter, pid);
      if token == Requested then
        Rpc(counter, s.waiting, s.awaiters + [Awaiter(session, token, None, Done, 0)])
      else
        Rpc(counter,
            if session in s.waiting then s.waiting else s.waiting[session := |s.awaiters|],
            s.awaiters + [Awaiter(session, token, None, Waiting, 0)])
    case Ack(session, data) => Wake(s, session, Some(data))
    case Cancel(n) =>
      if n < |s.awaiters| && s.awaiters[n].token == Live && s.awaiters[n].phase != Done
      then Wake(s.(awaiters := s.awaiters[n := s.awaiters[n].(token := Requested)]), s.awaiters[n].session, None)
      else s
    case Resume(n) =>
      if n < |s.awaiters| && s.awaiters[n].phase == Scheduled
      then s.(awaiters := s.awaiters[n := s.awaiters[n].(phase := Done)])
      else s
  }

  function Play<D>(es: seq<Event<D>>, pid: nat): Rpc<D> {
    if es == [] then Empty() else Next(Play(es[..|es| - 1], pid), es[|es| - 1], pid)
  }

  /** The clock as each call read it. */
  function Clocks<D>(es: seq<Event<D>>): seq<nat> {
    if es == [] then []
    else
      var last := es[|es| - 1];
      Clocks(es[..|es| - 1]) + if last.Call? then [last.now] else []
  }

  ghost predicate AwaiterSound<D>(s: Rpc<D>, i: nat)
    requires i < |s.awaiters|
  {
    var a := s.awaiters[i];
    && (a.phase == Waiting <==> a.session in s.waiting && s.waiting[a.session] == i)
    && (a.phase == Waiting ==> a.wakes == 0 && a.reply == None && a.token != Requested)
    && (a.phase == Scheduled ==> a.wakes == 1)
    && (a.phase == Done ==> a.wakes <= 1)
    && (a.phase != Waiting && a.token != Requested ==> a.reply.Some? && a.wakes == 1)
  }

  ghost predicate TableSound<D>(s: Rpc<D>) {
    forall k | k in s.waiting :: s.waiting[k] < |s.awaiters| && s.awaiters[s.waiting[k]].session == k
  }

  /** Every caller has the outcome its state calls for, and the table holds exactly the callers still waiting. */
  ghost predicate Exact<D>(s: Rpc<D>) {
    && TableSound(s)
    && (forall i | 0 <= i < |s.awaiters| :: AwaiterSound(s, i))
  }

  /** No two unfinished calls share a session number. */
  ghost predicate Unshared<D>(s: Rpc<D>) {
    forall i, j | 0 <= i < j < |s.awaiters| && s.awaiters[i].phase != Done && s.awaiters[j].phase != Done ::
      s.awaiters[i].session != s.awaiters[j].session
  }

  ghost predicate Inv<D>(s: Rpc<D>) {
    Exact(s) && Unshared(s)
  }

  /** Callers keep their numbers, and the finished ones stay finished. */
  ghost predicate SameCallers<D>(s: Rpc<D>, s': Rpc<D>) {
    && |s'.awaiters| == |s.awaiters|
    && (forall i | 0 <= i < |s.awaiters| ::
          && s'.awaiters[i].session == s.awaiters[i].session
          && (s.awaiters[i].phase == Done ==> s'.awaiters[i].phase == Done))
  }

  /** Cancelling this caller wakes another one: it was woken already, and somebody else waits for its number. */
  ghost predicate WakesAnother<D>(s: Rpc<D>, n: nat) {
    && n < |s.awaiters| && s.awaiters[n].token == Live && s.awaiters[n].phase == Scheduled
    && s.awaiters[n].session in s.waiting
  }

  /** A cancellation keeps the table exact, unless it wakes another caller, who then has no answer. */
  lemma CancelWakes<D>(s: Rpc<D>, n: nat, pid: nat)
    requires Exact(s)
    ensures Exact(Next(s, Event<D>.Cancel(n), pid)) <==> !WakesAnother(s, n)
    ensures SameCallers(s, Next(s, Event<D>.Cancel(n), pid))
  {
    if n < |s.awaiters| {
      var session, s' := s.awaiters[n].session, Next(s, Event<D>.Cancel(n), pid);
      assert AwaiterSound(s, n);
      assert session in s.waiting ==> AwaiterSound(s, s.waiting[session]);
      if WakesAnother(s, n) {
        assert !AwaiterSound(s', s.waiting[session]);
      } else {
        forall i | 0 <= i < |s'.awaiters| ensures AwaiterSound(s', i) {
          assert AwaiterSound(s, i);
        }
      }
    }
  }

  lemma AckWakes<D>(s: Rpc<D>, session: nat, data: D, pid: nat)
    requires Exact(s)
    ensures Exact(Next(s, Ack(session, data), pid)) && SameCallers(s, Next(s, Ack(session, data), pid))
  {
    var s' := Next(s, Ack(session, data), pid);
    assert session in s.waiting ==> AwaiterSound(s, s.waiting[session]);
    forall i | 0 <= i < |s'.awaiters| ensures AwaiterSound(s', i) {
      assert AwaiterSound(s, i);
    }
  }

  lemma ResumeFinishes<D>(s: Rpc<D>, n: nat, pid: nat)
    requires Exact(s)
    ensures Exact(Next(s, Event<D>.Resume(n), pid)) && SameCallers(s, Next(s, Event<D>.Resume(n), pid))
  {
    var s' := Next(s, Event<D>.Resume(n), pid);
    forall i | 0 <= i < |s'.awaiters| ensures AwaiterSound(s', i) {
      assert AwaiterSound(s, i);
    }
  }

  lemma CancelKeeps<D>(s: Rpc<D>, n: nat, pid: nat)
    requires Inv(s)
    ensures Inv(Next(s, Event<D>.Cancel(n), pid))
  {
    CancelWakes(s, n, pid);
    assert n < |s.awaiters| && s.awaiters[n].session in s.waiting ==>
        AwaiterSound(s, n) && AwaiterSound(s, s.waiting[s.awaiters[n].session]);
  }

  lemma AckKeeps<D>(s: Rpc<D>, session: nat, data: D, pid: nat)
    requires Inv(s)
    ensures Inv(Next(s, Ack(session, data), pid))
  {
    AckWakes(s, session, data, pid);
  }

  lemma ResumeKeeps<D>(s: Rpc<D>, n: nat, pid: nat)
    requires Inv(s)
    ensures Inv(Next(s, Event<D>.Resume(n), pid))
  {
    ResumeFinishes(s, n, pid);
  }

  /** An unfinished caller holds the session number. */
  ghost predicate Held<D>(s: Rpc<D>, session: nat) {
    exists i :: 0 <= i < |s.awaiters| && s.awaiters[i].phase != Done && s.awaiters[i].session == session
  }

  /** A caller enters the table without shadowing another exactly when nobody waits for its number. */
  lemma CallEnters<D>(s: Rpc<D>, now: nat, token: Token, pid: nat)
    requires Exact(s)
    ensures Exact(Next(s, Event<D>.Call(now, token), pid)) <==>
            token == Requested || Pack(Tick(s.counter, now), pid) !in s.waiting
  {
    var s', session := Next(s, Event<D>.Call(now, token), pid), Pack(Tick(s.counter, now), pid);
    var n := |s.awaiters|;
    assert forall i | 0 <= i < n :: s'.awaiters[i] == s.awaiters[i];
    if token == Requested || session !in s.waiting {
      forall i | 0 <= i < |s'.awaiters| ensures AwaiterSound(s', i) {
        assert i < n ==> AwaiterSound(s, i);
      }
    } else {
      assert s'.awaiters[n].phase == Waiting && s'.waiting[session] == s.waiting[session] < n;
      assert !AwaiterSound(s', n);
    }
  }

  /** A call keeps the invariant exactly when no unfinished caller holds its number, or it does not suspend at all. */
  lemma CallKeeps<D>(s: Rpc<D>, now: nat, token: Token, pid: nat)
    requires Inv(s)
    ensures Inv(Next(s, Event<D>.Call(now, token), pid)) <==>
            token == Requested || !Held(s, Pack(Tick(s.counter, now), pid))
  {
    var s', session := Next(s, Event<D>.Call(now, token), pid), Pack(Tick(s.counter, now), pid);
    var n := |s.awaiters|;
    assert forall i | 0 <= i < n :: s'.awaiters[i] == s.awaiters[i];
    CallEnters(s, now, token, pid);
    assert session in s.waiting ==> AwaiterSound(s, s.waiting[session]);
    if token != Requested && Held(s, session) {
      var i :| 0 <= i < n && s.awaiters[i].phase != Done && s.awaiters[i].session == session;
      assert s'.awaiters[i].session == s'.awaiters[n].session;
    }
  }

  // ---------------------------------------------------------------------------
  // Every run

  /** The table leads only to callers that were never woken, whatever numbers they share. */
  ghost predicate Once<D>(s: Rpc<D>) {
    && (forall k | k in s.waiting :: s.waiting[k] < |s.awaiters|)
    && (forall k | k in s.waiting ::
          s.awaiters[s.waiting[k]].phase == Waiting && s.awaiters[s.waiting[k]].session == k)
    && (forall i | 0 <= i < |s.awaiters| ::
          s.awaiters[i].wakes <= if s.awaiters[i].phase == Waiting then 0 else 1)
  }

  lemma WakeOnce<D>(s: Rpc<D>, session: nat, reply: Option<D>)
    requires Once(s)
    ensures Once(Wake(s, session, reply))
  {
  }

  lemma CallOnce<D>(s: Rpc<D>, now: nat, token: Token, pid: nat)
    requires Once(s)
    ensures Once(Next(s, Event<D>.Call(now, token), pid))
  {
    var s' := Next(s, Event<D>.Call(now, token), pid);
    assert forall i | 0 <= i < |s.awaiters| :: s'.awaiters[i] == s.awaiters[i];
  }

  lemma NextOnce<D>(s: Rpc<D>, e: Event<D>, pid: nat)
    requires Once(s)
    ensures Once(Next(s, e, pid))
  {
    match e {
      case Call(now, token) => CallOnce(s, now, token, pid);
      case Ack(session, data) => WakeOnce(s, session, Some(data));
      case Cancel(n) =>
        if n < |s.awaiters| {
          var a := s.awaiters[n];
          WakeOnce(s.(awaiters := s.awaiters[n := a.(token := Requested)]), a.session, None);
        }
      case Resume(n) =>
    }
  }

  /** No caller is ever woken twice, even when session numbers repeat. */
  lemma {:induction false} WokenAtMostOnce<D>(es: seq<Event<D>>, pid: nat)
    ensures Once(Play(es, pid))
    ensures forall i | 0 <= i < |Play(es, pid).awaiters| :: Play(es, pid).awaiters[i].wakes <= 1
    decreases |es|
  {
    if es != [] {
      WokenAtMostOnce(es[..|es| - 1], pid);
      NextOnce(Play(es[..|es| - 1], pid), es[|es| - 1], pid);
    }
  }

  /** What became of a caller after it was woken or turned away. */
  ghost predicate Settled<D>(a: Awaiter<D>, a': Awaiter<D>) {
    && a'.reply == a.reply && a'.wakes == a.wakes && a'.session == a.session
    && (a'.phase == a.phase || (a.phase == Scheduled && a'.phase == Done))
    && (a.phase == Done ==> a' == a)
  }

  lemma NextSettles<D>(s: Rpc<D>, e: Event<D>, n: nat, pid: nat)
    requires Once(s) && n < |s.awaiters| && s.awaiters[n].phase != Waiting
    ensures n < |Next(s, e, pid).awaiters| && Settled(s.awaiters[n], Next(s, e, pid).awaiters[n])
  {
  }

  /** In every run a caller that was answered or cancelled keeps that outcome: later events only let it finish. */
  lemma {:induction false} OutcomeIsFinal<D>(es: seq<Event<D>>, more: seq<Event<D>>, n: nat, pid: nat)
    requires n < |Play(es, pid).awaiters| && Play(es, pid).awaiters[n].phase != Waiting
    ensures n < |Play(es + more, pid).awaiters|
    ensures Settled(Play(es, pid).awaiters[n], Play(es + more, pid).awaiters[n])
    decreases |more|
  {
    if more == [] {
      assert es + more == es;
    } else {
      var init := more[..|more| - 1];
      OutcomeIsFinal(es, init, n, pid);
      WokenAtMostOnce(es + init, pid);
      assert (es + more)[..|es + more| - 1] == es + init;
      NextSettles(Play(es + init, pid), more[|more| - 1], n, pid);
    }
  }

  // ---------------------------------------------------------------------------
  // Runs in which the table stays exact

  /** A suspending call gets a number that somebody waits for, or a cancellation wakes another caller. */
  ghost predicate Misleads<D>(s: Rpc<D>, e: Event<D>, pid: nat) {
    match e
    case Call(now, token) => token != Requested && Pack(Tick(s.counter, now), pid) in s.waiting
    case Cancel(n) => WakesAnother(s, n)
    case _ => false
  }

  ghost predicate NeverMisled<D>(es: seq<Event<D>>, pid: nat) {
    es == [] || (NeverMisled(es[..|es| - 1], pid) && !Misleads(Play(es[..|es| - 1], pid), es[|es| - 1], pid))
  }

  ghost predicate AlwaysExact<D>(es: seq<Event<D>>, pid: nat) {
    Exact(Play(es, pid)) && (es == [] || AlwaysExact(es[..|es| - 1], pid))
  }

  /** Whatever the callers share, a step leaves an exact table exact exactly when it misleads nobody. */
  lemma NextExact<D>(s: Rpc<D>, e: Event<D>, pid: nat)
    requires Exact(s)
    ensures Exact(Next(s, e, pid)) <==> !Misleads(s, e, pid)
  {
    match e {
      case Call(now, token) => CallEnters(s, now, token, pid);
      case Ack(session, data) => AckWakes(s, session, data, pid);
      case Cancel(n) => CancelWakes(s, n, pid);
      case Resume(n) => ResumeFinishes(s, n, pid);
    }
  }

  /** Throughout a run the table holds exactly the waiting callers, exactly when no step misleads. */
  lemma {:induction false} ExactIffNeverMisled<D>(es: seq<Event<D>>, pid: nat)
    ensures AlwaysExact(es, pid) <==> NeverMisled(es, pid)
    decreases |es|
  {
    if es != [] {
      ExactIffNeverMisled(es[..|es| - 1], pid);
      if AlwaysExact(es[..|es| - 1], pid) {
        NextExact(Play(es[..|es| - 1], pid), es[|es| - 1], pid);
      }
    }
  }

  /** A suspending call gets a number that an unfinished caller still holds. */
  ghost predicate Clashes<D>(s: Rpc<D>, e: Event<D>, pid: nat) {
    e.Call? && e.token != Requested && Held(s, Pack(Tick(s.counter, e.now), pid))
  }

  ghost predicate NoClash<D>(es: seq<Event<D>>, pid: nat) {
    es == [] || (NoClash(es[..|es| - 1], pid) && !Clashes(Play(es[..|es| - 1], pid), es[|es| - 1], pid))
  }

  ghost predicate AlwaysInv<D>(es: seq<Event<D>>, pid: nat) {
    Inv(Play(es, pid)) && (es == [] || AlwaysInv(es[..|es| - 1], pid))
  }

  lemma NextKeeps<D>(s: Rpc<D>, e: Event<D>, pid: nat)
    requires Inv(s)
    ensures Inv(Next(s, e, pid)) <==> !Clashes(s, e, pid)
  {
    match e {
      case Call(now, token) => CallKeeps(s, now, token, pid);
      case Ack(session, data) => AckKeeps(s, session, data, pid);
      case Cancel(n) => CancelKeeps(s, n, pid);
      case Resume(n) => ResumeKeeps(s, n, pid);
    }
  }

  /** The table is exact and no two unfinished callers share a number throughout, exactly when no number clashes. */
  lemma {:induction false} UnsharedIffNoClash<D>(es: seq<Event<D>>, pid: nat)
    ensures AlwaysInv(es, pid) <==> NoClash(es, pid)
    ensures AlwaysInv(es, pid) ==> AlwaysExact(es, pid)
    decreases |es|
  {
    if es != [] {
      UnsharedIffNoClash(es[..|es| - 1], pid);
      if AlwaysInv(es[..|es| - 1], pid) {
        NextKeeps(Play(es[..|es| - 1], pid), es[|es| - 1], pid);
      }
    }
  }

  // ---------------------------------------------------------------------------
  // The clock decides

  lemma {:induction false} TicksOfPrefix(cs: seq<nat>, more: seq<nat>, n: nat)
    requires n <= |cs|
    ensures Ticks(cs + more, n) == Ticks(cs, n)
    decreases n
  {
    if n > 0 {
      TicksOfPrefix(cs, more, n - 1);
    }
  }

  /** Calls get the session numbers of the clock readings they made, in order. */
  ghost predicate Numbered<D>(s: Rpc<D>, cs: seq<nat>, pid: nat) {
    && s.counter == Ticks(cs, |cs|)
    && |s.awaiters| == |cs|
    && (forall i | 0 <= i < |cs| :: s.awaiters[i].session == Session(cs, i, pid))
  }

  lemma NextNumbers<D>(s: Rpc<D>, e: Event<D>, cs: seq<nat>, pid: nat)
    requires Numbered(s, cs, pid)
    ensures Numbered(Next(s, e, pid), if e.Call? then cs + [e.now] else cs, pid)
  {
    if e.Call? {
      var cs' := cs + [e.now];
      TicksOfPrefix(cs, [e.now], |cs|);
      forall i | 0 <= i < |cs| ensures Session(cs', i, pid) == Session(cs, i, pid) {
        TicksOfPrefix(cs, [e.now], i + 1);
      }
    }
  }

  lemma {:induction false} PlayNumbers<D>(es: seq<Event<D>>, pid: nat)
    ensures Numbered(Play(es, pid), Clocks(es), pid)
    decreases |es|
  {
    if es != [] {
      var last := es[|es| - 1];
      PlayNumbers(es[..|es| - 1], pid);
      NextNumbers(Play(es[..|es| - 1], pid), last, Clocks(es[..|es| - 1]), pid);
      assert Clocks(es) == if last.Call? then Clocks(es[..|es| - 1]) + [last.now] else Clocks(es[..|es| - 1]);
    }
  }

  function Sessions<D>(s: Rpc<D>): seq<nat> {
    seq(|s.awaiters|, i requires 0 <= i < |s.awaiters| => s.awaiters[i].session)
  }

  /** Numbers that were never handed out twice do not clash. */
  lemma {:induction false} DistinctNeverClash<D>(es: seq<Event<D>>, pid: nat)
    requires NoDuplicates(Sessions(Play(es, pid)))
    ensures NoClash(es, pid)
    decreases |es|
  {
    if es != [] {
      var s, s', e := Play(es[..|es| - 1], pid), Play(es, pid), es[|es| - 1];
      assert Sessions(s) <= Sessions(s') by {
        assert |s.awaiters| <= |s'.awaiters|;
        assert forall i | 0 <= i < |s.awaiters| :: s'.awaiters[i].session == s.awaiters[i].session;
      }
      assert forall i | 0 <= i < |s.awaiters| :: Sessions(s)[i] == Sessions(s')[i];
      DistinctNeverClash(es[..|es| - 1], pid);
      forall i | e.Call? && 0 <= i < |s.awaiters| ensures s.awaiters[i].session != Pack(Tick(s.counter, e.now), pid) {
        assert Sessions(s')[i] != Sessions(s')[|s.awaiters|];
      }
    }
  }

  lemma ExactIfDistinct<D>(es: seq<Event<D>>, pid: nat)
    requires Distinct(Clocks(es), pid)
    ensures AlwaysExact(es, pid) && AlwaysInv(es, pid) && NoDuplicates(Sessions(Play(es, pid)))
  {
    PlayNumbers(es, pid);
    DistinctNeverClash(es, pid);
    UnsharedIffNoClash(es, pid);
  }

  /** So the table is exact throughout every run in which no clock value serves more than 2^25 calls. */
  lemma ExactByClock<D>(es: seq<Event<D>>, pid: nat)
    requires Readable(Clocks(es)) && (forall t :: Uses(Clocks(es), |Clocks(es)|, t) <= SEQUENCES)
    ensures AlwaysExact(es, pid) && AlwaysInv(es, pid) && NoDuplicates(Sessions(Play(es, pid)))
  {
    SessionsDiffer(Clocks(es), pid);
    ExactIfDistinct(es, pid);
  }

  /** Callers that suspend, and nothing else: no answer comes and nobody gives up. */
  ghost predicate OnlyCalls<D>(es: seq<Event<D>>) {
    forall i | 0 <= i < |es| :: es[i].Call? && es[i].token != Requested
  }

  lemma {:induction false} CallersWait<D>(es: seq<Event<D>>, pid: nat)
    requires OnlyCalls(es)
    ensures forall i | 0 <= i < |Play(es, pid).awaiters| :: Play(es, pid).awaiters[i].phase == Waiting
    decreases |es|
  {
    if es != [] {
      CallersWait(es[..|es| - 1], pid);
    }
  }

  lemma TwoWaitForOneNumber<D>(s: Rpc<D>, i: nat, j: nat)
    requires i < j < |s.awaiters| && s.awaiters[i].phase == Waiting && s.awaiters[j].phase == Waiting
    requires s.awaiters[i].session == s.awaiters[j].session
    ensures !Exact(s)
  {
    assert !(AwaiterSound(s, i) && AwaiterSound(s, j));
  }

  lemma RepeatedIsMisleading<D>(es: seq<Event<D>>, pid: nat)
    requires OnlyCalls(es) && !Distinct(Clocks(es), pid)
    ensures !Exact(Play(es, pid))
  {
    var cs := Clocks(es);
    PlayNumbers(es, pid);
    CallersWait(es, pid);
    var i, j :| 0 <= i < j < |cs| && Session(cs, i, pid) == Session(cs, j, pid);
    TwoWaitForOneNumber(Play(es, pid), i, j);
  }

  /** The bound is sharp: while no answer comes, the table stays exact only as long as the clock keeps to it. */
  lemma UnansweredExactly<D>(es: seq<Event<D>>, pid: nat)
    requires OnlyCalls(es) && Readable(Clocks(es))
    ensures AlwaysExact(es, pid) <==> (forall t :: Uses(Clocks(es), |Clocks(es)|, t) <= SEQUENCES)
  {
    SessionsDiffer(Clocks(es), pid);
    if Distinct(Clocks(es), pid) {
      ExactIfDistinct(es, pid);
    } else {
      RepeatedIsMisleading(es, pid);
    }
  }

  /** Some caller waits for the session number. */
  ghost predicate Awaited<D>(s: Rpc<D>, session: nat) {
    exists i :: 0 <= i < |s.awaiters| && s.awaiters[i].phase == Waiting && s.awaiters[i].session == session
  }

  /**
   * An answer reaches the one caller that waits for its number and touches nobody else. One for a caller that was
   * woken already changes nothing; one for a finished caller changes nothing unless its number is in use again.
   */
  lemma AckReachesItsCaller<D>(s: Rpc<D>, n: nat, data: D, pid: nat)
    requires Inv(s) && n < |s.awaiters|
    ensures var a := s.awaiters[n];
            var s' := Next(s, Ack(a.session, data), pid);
            match a.phase
            case Waiting =>
              s' == s.(waiting := s.waiting - {a.session},
                       awaiters := s.awaiters[n := a.(phase := Scheduled, reply := Some(data), wakes := 1)])
            case Scheduled => s' == s
            case Done => s' == s <==> !Awaited(s, a.session)
  {
    var a := s.awaiters[n];
    assert AwaiterSound(s, n);
    assert forall i | 0 <= i < |s.awaiters| && s.awaiters[i].session == a.session :: AwaiterSound(s, i);
    if a.session in s.waiting {
      var m := s.waiting[a.session];
      assert AwaiterSound(s, m) && s.awaiters[m].phase == Waiting;
      assert Next(s, Ack(a.session, data), pid).awaiters[m].phase == Scheduled;
    }
  }

  /**
   * A cancellation wakes its own caller, without a reply, if that one still waits; it only marks a caller that was
   * woken already; and it changes nothing for one that is finished, cannot be cancelled or was cancelled before.
   */
  lemma CancelReachesItsCaller<D>(s: Rpc<D>, n: nat, pid: nat)
    requires Inv(s)
    ensures var s' := Next(s, Event<D>.Cancel(n), pid);
            if n >= |s.awaiters| || s.awaiters[n].token != Live then s' == s
            else
              var a := s.awaiters[n];
              match a.phase
              case Waiting =>
                s' == s.(waiting := s.waiting - {a.session},
                         awaiters := s.awaiters[n := Awaiter(a.session, Requested, None, Scheduled, 1)])
              case Scheduled => s' == s.(awaiters := s.awaiters[n := a.(token := Requested)])
              case Done => s' == s
  {
    if n < |s.awaiters| {
      var session := s.awaiters[n].session;
      assert AwaiterSound(s, n);
      assert session in s.waiting ==> AwaiterSound(s, s.waiting[session]);
    }
  }

  /** With at most 2^25 calls per clock value, an answer that comes late changes nothing. */
  lemma LateAnswersChangeNothing<D>(es: seq<Event<D>>, n: nat, data: D, pid: nat)
    requires Readable(Clocks(es)) && (forall t :: Uses(Clocks(es), |Clocks(es)|, t) <= SEQUENCES)
    requires n < |Play(es, pid).awaiters| && Play(es, pid).awaiters[n].phase != Waiting
    ensures Next(Play(es, pid), Ack(Play(es, pid).awaiters[n].session, data), pid) == Play(es, pid)
  {
    var s := Play(es, pid);
    ExactByClock(es, pid);
    AckReachesItsCaller(s, n, data, pid);
    forall m | 0 <= m < |s.awaiters| && m != n ensures s.awaiters[m].session != s.awaiters[n].session {
      assert Sessions(s)[m] != Sessions(s)[n];
    }
  }

  // ---------------------------------------------------------------------------
  // Outcomes, told from the events

  /** What event `e` decides for caller `n`, which waits for `session`. */
  function Decides<D>(e: Event<D>, n: nat, session: nat, token: Token): Option<Option<D>> {
    match e
    case Ack(x, data) => if x == session then Some(Some(data)) else None
    case Cancel(m) => if m == n && token == Live then Some(None) else None
    case _ => None
  }

  /** The token the `n`th call came with. */
  function TokenOf<D>(es: seq<Event<D>>, n: nat): Token {
    if es == [] then Never
    else
      var init, last := es[..|es| - 1], es[|es| - 1];
      if last.Call? && |Clocks(init)| == n then last.token else TokenOf(init, n)
  }

  /** The first event after the `n`th call that answers or cancels it decides; one cancelled beforehand is decided. */
  function Verdict<D>(es: seq<Event<D>>, n: nat, session: nat): Option<Option<D>> {
    if es == [] then None
    else
      var init, last := es[..|es| - 1], es[|es| - 1];
      if Verdict(init, n, session).Some? then Verdict(init, n, session)
      else if last.Call? && |Clocks(init)| == n && last.token == Requested then Some(None)
      else if n < |Clocks(init)| then Decides(last, n, session, TokenOf(init, n))
      else None
  }

  /** The caller went on: at once, or when it was resumed after the decision. */
  predicate WentOn<D>(es: seq<Event<D>>, n: nat, session: nat) {
    es != [] &&
    var init, last := es[..|es| - 1], es[|es| - 1];
    || WentOn(init, n, session)
    || (last.Call? && |Clocks(init)| == n && last.token == Requested)
    || (last == Resume(n) && Verdict(init, n, session).Some?)
  }

  /** Caller `a` stands where the history puts it. */
  ghost predicate Stands<D>(a: Awaiter<D>, session: nat, token: Token, verdict: Option<Option<D>>, gone: bool) {
    && a.session == session
    && (a.phase == Waiting <==> verdict.None?)
    && (a.phase == Done <==> gone)
    && (verdict.None? ==> a.token == token)
    && (verdict.Some? ==> a.reply == verdict.value)
  }

  lemma AnswerStands<D>(s: Rpc<D>, x: nat, data: D, n: nat, session: nat, token: Token, verdict: Option<Option<D>>,
                        gone: bool, pid: nat)
    requires Inv(s) && n < |s.awaiters| && Stands(s.awaiters[n], session, token, verdict, gone)
    ensures var e := Ack(x, data);
            && n < |Next(s, e, pid).awaiters|
            && Stands(Next(s, e, pid).awaiters[n], session, token,
                      if verdict.Some? then verdict else Decides(e, n, session, token), gone)
  {
    assert AwaiterSound(s, n);
    assert x in s.waiting ==> AwaiterSound(s, s.waiting[x]);
  }

  lemma CancelStands<D>(s: Rpc<D>, m: nat, n: nat, session: nat, token: Token, verdict: Option<Option<D>>, gone: bool,
                        pid: nat)
    requires Inv(s) && n < |s.awaiters| && Stands(s.awaiters[n], session, token, verdict, gone)
    ensures var e := Event<D>.Cancel(m);
            && n < |Next(s, e, pid).awaiters|
            && Stands(Next(s, e, pid).awaiters[n], session, token,
                      if verdict.Some? then verdict else Decides(e, n, session, token), gone)
  {
    CancelReachesItsCaller(s, m, pid);
  }

  lemma EventStands<D>(s: Rpc<D>, e: Event<D>, n: nat, session: nat, token: Token, verdict: Option<Option<D>>,
                       gone: bool, pid: nat)
    requires Inv(s) && n < |s.awaiters| && Stands(s.awaiters[n], session, token, verdict, gone)
    ensures n < |Next(s, e, pid).awaiters|
    ensures Stands(Next(s, e, pid).awaiters[n], session, token,
                   if verdict.Some? then verdict else Decides(e, n, session, token),
                   gone || (e == Resume(n) && verdict.Some?))
  {
    match e {
      case Call(_, _) =>
      case Ack(x, data) => AnswerStands(s, x, data, n, session, token, verdict, gone, pid);
      case Cancel(m) => CancelStands(s, m, n, session, token, verdict, gone, pid);
      case Resume(_) =>
    }
  }

  lemma {:induction false} NothingBeforeTheCall<D>(es: seq<Event<D>>, n: nat, session: nat)
    requires n >= |Clocks(es)|
    ensures Verdict(es, n, session).None? && !WentOn(es, n, session)
    decreases |es|
  {
    if es != [] {
      NothingBeforeTheCall(es[..|es| - 1], n, session);
    }
  }

  lemma CalledStands<D>(s: Rpc<D>, now: nat, token: Token, pid: nat)
    ensures var s' := Next(s, Event<D>.Call(now, token), pid);
            && |s'.awaiters| == |s.awaiters| + 1
            && Stands(s'.awaiters[|s.awaiters|], Pack(Tick(s.counter, now), pid), token,
                      if token == Requested then Some(None) else None, token == Requested)
  {
  }

  lemma SessionStays(cs: seq<nat>, now: nat, n: nat, pid: nat)
    requires n < |cs|
    ensures Session(cs + [now], n, pid) == Session(cs, n, pid)
  {
    TicksOfPrefix(cs, [now], n + 1);
  }

  lemma OutcomeOfCall<D>(es: seq<Event<D>>, n: nat, pid: nat)
    requires es != [] && n == |Clocks(es)| - 1 && es[|es| - 1].Call?
    ensures var s, session := Play(es, pid), Session(Clocks(es), n, pid);
            && n < |s.awaiters|
            && Stands(s.awaiters[n], session, TokenOf(es, n), Verdict(es, n, session), WentOn(es, n, session))
  {
    var init, last := es[..|es| - 1], es[|es| - 1];
    var session := Session(Clocks(es), n, pid);
    PlayNumbers(init, pid);
    TicksOfPrefix(Clocks(init), [last.now], n);
    NothingBeforeTheCall(init, n, session);
    CalledStands(Play(init, pid), last.now, last.token, pid);
  }

  /**
   * In every run in which no number clashes, a caller's outcome is decided by the first event that answers its number
   * or cancels it: the answer's data, or no reply. Until then it waits, and it goes on only after that.
   */
  lemma {:induction false} FirstEventDecides<D>(es: seq<Event<D>>, n: nat, pid: nat)
    requires NoClash(es, pid) && n < |Clocks(es)|
    ensures var s, session := Play(es, pid), Session(Clocks(es), n, pid);
            && n < |s.awaiters|
            && Stands(s.awaiters[n], session, TokenOf(es, n), Verdict(es, n, session), WentOn(es, n, session))
    decreases |es|
  {
    var init, last := es[..|es| - 1], es[|es| - 1];
    if n == |Clocks(init)| {
      OutcomeOfCall(es, n, pid);
    } else {
      var s, session := Play(init, pid), Session(Clocks(init), n, pid);
      FirstEventDecides(init, n, pid);
      UnsharedIffNoClash(init, pid);
      if last.Call? {
        SessionStays(Clocks(init), last.now, n, pid);
      } else {
        assert Clocks(es) == Clocks(init);
      }
      EventStands(s, last, n, session, TokenOf(init, n), Verdict(init, n, session), WentOn(init, n, session), pid);
    }
  }

  // ---------------------------------------------------------------------------
  // The program

  class RpcSystem<D> {
    const pid: nat
    var time: nat
    var sequence: nat
    var waiting: map<nat, nat>
    var awaiters: seq<Awaiter<D>>

    function Value(): Rpc<D>
      reads this
    {
      Rpc(Counter(time, sequence), waiting, awaiters)
    }

    constructor (pid: nat)
      ensures this.pid == pid && Value() == Empty() && Inv(Value())
    {
      this.pid := pid;
      time, sequence, waiting, awaiters := 0, 0, map[], [];
    }

    method CreateSession(now: nat) returns (session: nat)
      modifies `time, `sequence
      ensures Counter(time, sequence) == Tick(old(Counter(time, sequence)), now)
      ensures session == Pack(Counter(time, sequence), pid)
    {
      var ti := now;
      if ti < time {
        ti := time;
      } else if ti > time {
        time := ti;
        sequence := 0;
      }
      sequence := (sequence + 1) % 0x1_0000_0000;
      session := ti % CLOCKS * 0x1_0000_0000;
      session := session + pid % 128 * SEQUENCES;
      session := session + sequence % SEQUENCES;
    }

    /** `get_awaiter` and `await_suspend`; the caller goes on at once when `suspended` is false. */
    method CallAndSuspend(now: nat, token: Token) returns (suspended: bool)
      modifies this
      ensures Value() == Next(old(Value()), Event<D>.Call(now, token), pid)
      ensures suspended <==> token != Requested
    {
      var session := CreateSession(now);
      if token == Requested {
        awaiters := awaiters + [Awaiter(session, token, None, Done, 0)];
        return false;
      }
      if session !in waiting {
        waiting := waiting[session := |awaiters|];
      }
      awaiters := awaiters + [Awaiter(session, token, None, Waiting, 0)];
      return true;
    }

    method WakeUp(session: nat, reply: Option<D>) returns (found: bool)
      requires TableSound(Value())
      modifies `waiting, `awaiters
      ensures Value() == Wake(old(Value()), session, reply)
      ensures found <==> session in old(waiting)
    {
      found := session in waiting;
      if found {
        var n := waiting[session];
        waiting := waiting - {session};
        awaiters := awaiters[n := awaiters[n].(phase := Scheduled, reply := reply, wakes := awaiters[n].wakes + 1)];
      }
    }

    /** An answer that nobody waits for is left to the caller of this method to dispatch. */
    method Answer(session: nat, data: D) returns (found: bool)
      requires Inv(Value())
      modifies this
      ensures Value() == Next(old(Value()), Ack(session, data), pid) && Inv(Value())
      ensures found <==> exists n :: 0 <= n < |old(awaiters)| && old(awaiters)[n].session == session
                                     && old(awaiters)[n].phase == Waiting
    {
      AckKeeps(Value(), session, data, pid);
      ghost var was := Value();
      found := WakeUp(session, Some(data));
      if found {
        assert AwaiterSound(was, was.waiting[session]) && was.awaiters[was.waiting[session]].phase == Waiting;
      } else {
        assert forall n | 0 <= n < |was.awaiters| && was.awaiters[n].session == session :: AwaiterSound(was, n);
      }
    }

    method RequestCancel(n: nat)
      requires Inv(Value()) && n < |awaiters|
      modifies this
      ensures Value() == Next(old(Value()), Event<D>.Cancel(n), pid) && Inv(Value())
      ensures old(awaiters[n]).token == Live && old(awaiters[n]).phase == Waiting ==>
                awaiters[n] == old(awaiters[n]).(token := Requested, phase := Scheduled, wakes := 1)
    {
      CancelKeeps(Value(), n, pid);
      CancelReachesItsCaller(Value(), n, pid);
      assert AwaiterSound(Value(), n);
      var a := awaiters[n];
      if a.token == Live && a.phase != Done {
        awaiters := awaiters[n := a.(token := Requested)];
        var _ := WakeUp(a.session, None);
      }
    }
  }
}
