/**
 * A subscribed service reading what its gate wrote to it. Broadcasts are applied as they are read. An acknowledgement
 * is applied by another coroutine, some time after it was read, or not at all if the call that it answers has given
 * up. The subscriber's list outlives its connections.
 */
module Subscriber {
  import opened RegistryMessages
  import opened Subscriptions
  import opened GateNotes

  /** An acknowledgement taken but not yet applied; `mark` is how much had been applied when it was taken. */
  datatype Taken = Taken(conn: nat, index: nat, applies: nat, mark: nat)

  /**
   * The subscriber reads its present connection up to `read`. `applied` is all it ever applied to its lists, over all
   * connections, and `applies` counts the acknowledgements among it.
   */
  datatype Follower = Follower(conn: nat, read: nat, held: seq<Taken>, applies: nat, applied: seq<ServiceInfo>)

  type Log = map<nat, seq<Note>>

  /** `take` says whether the call that a successful acknowledgement answers is still waiting. */
  datatype Move =
    | Connect(conn: nat)
    | Read(take: bool)
    | Apply(k: nat)

  /** The subscriber's list of type `t`. */
  function ListOf(f: Follower, t: Id): seq<Entry> {
    HeardAll([], t, f.applied)
  }

  function TakenInfos(log: Log, h: Taken): seq<ServiceInfo> {
    if h.index < |List(log, h.conn)| then Told(List(log, h.conn)[h.index]) else []
  }

  function AfterRead(f: Follower, note: Note, take: bool): Follower {
    match note
    case SubscribeBrd(info) => f.(read := f.read + 1, applied := f.applied + [info])
    case SubscribeAck(ok, _, _) =>
      if ok && take
      then f.(read := f.read + 1, held := f.held + [Taken(f.conn, f.read, f.applies, |f.applied|)])
      else f.(read := f.read + 1)
  }

  /** Connections are numbered upwards. A move that is not possible changes nothing. */
  function Moved(f: Follower, log: Log, e: Move): Follower {
    match e
    case Connect(c) => if c > f.conn then f.(conn := c, read := 0) else f
    case Read(take) =>
      if f.read < |List(log, f.conn)| then AfterRead(f, List(log, f.conn)[f.read], take) else f
    case Apply(k) =>
      if k < |f.held| then
        f.(held := f.held[..k] + f.held[k + 1..], applies := f.applies + 1,
           applied := f.applied + TakenInfos(log, f.held[k]))
      else f
  }

  // ---------------------------------------------------------------------------
  // The subscriber against any log

  /** Of this connection's notes after `h`, exactly the broadcasts were applied since it was taken. */
  ghost predicate OnlyBroadcasts(f: Follower, notes: seq<Note>, h: Taken) {
    && h.index < f.read <= |notes| && h.mark <= |f.applied|
    && (h.applies == f.applies ==> f.applied[h.mark..] == Broadcasts(notes, h.index + 1, f.read))
  }

  /** A taken acknowledgement is in its connection's notes; since then only broadcasts were applied. */
  ghost predicate TakenSound(f: Follower, log: Log, h: Taken) {
    var notes := List(log, h.conn);
    && h.conn <= f.conn && h.applies <= f.applies
    && h.index < |notes| && notes[h.index].SubscribeAck? && notes[h.index].ok
    && (h.conn == f.conn ==> OnlyBroadcasts(f, notes, h))
  }

  ghost predicate FollowerSound(f: Follower, log: Log) {
    && f.read <= |List(log, f.conn)|
    && (forall k | 0 <= k < |f.held| :: TakenSound(f, log, f.held[k]))
  }

  lemma ReadKeepsOnly(f: Follower, notes: seq<Note>, take: bool, h: Taken)
    requires f.read < |notes| && OnlyBroadcasts(f, notes, h)
    ensures OnlyBroadcasts(AfterRead(f, notes[f.read], take), notes, h)
  {
    var f', note := AfterRead(f, notes[f.read], take), notes[f.read];
    assert f'.applied[h.mark..] ==
           if note.SubscribeBrd? then f.applied[h.mark..] + [note.service] else f.applied[h.mark..];
  }

  lemma ReadKeepsTaken(f: Follower, log: Log, take: bool, h: Taken)
    requires f.read < |List(log, f.conn)| && TakenSound(f, log, h)
    ensures TakenSound(Moved(f, log, Read(take)), log, h)
  {
    if h.conn == f.conn {
      ReadKeepsOnly(f, List(log, f.conn), take, h);
    }
  }

  lemma ReadKeeps(f: Follower, log: Log, take: bool)
    requires FollowerSound(f, log) && f.read < |List(log, f.conn)|
    ensures FollowerSound(Moved(f, log, Read(take)), log)
  {
    var f' := Moved(f, log, Read(take));
    forall k | 0 <= k < |f'.held| ensures TakenSound(f', log, f'.held[k]) {
      if k < |f.held| {
        assert f'.held[k] == f.held[k] && TakenSound(f, log, f.held[k]);
        ReadKeepsTaken(f, log, take, f.held[k]);
      } else {
        assert Broadcasts(List(log, f.conn), f.read + 1, f.read + 1) == [];
      }
    }
  }

  lemma MoveKeeps(f: Follower, log: Log, e: Move)
    requires FollowerSound(f, log)
    ensures FollowerSound(Moved(f, log, e), log)
  {
    var f' := Moved(f, log, e);
    match e {
      case Connect(c) =>
        forall k | 0 <= k < |f'.held| ensures TakenSound(f', log, f'.held[k]) {
          assert TakenSound(f, log, f.held[k]);
        }
      case Read(take) =>
        if f.read < |List(log, f.conn)| {
          ReadKeeps(f, log, take);
        }
      case Apply(k) =>
        forall i | 0 <= i < |f'.held| ensures TakenSound(f', log, f'.held[i]) {
          assert TakenSound(f, log, f.held[if i < k || k >= |f.held| then i else i + 1]);
        }
    }
  }

  /** Every connection's notes are those of `log`, and perhaps more. */
  ghost predicate Longer(log: Log, log': Log) {
    forall c: nat :: List(log, c) <= List(log', c)
  }

  lemma LongerKeeps(f: Follower, log: Log, log': Log)
    requires FollowerSound(f, log) && Longer(log, log')
    ensures FollowerSound(f, log')
  {
    assert List(log, f.conn) <= List(log', f.conn);
    forall k | 0 <= k < |f.held| ensures TakenSound(f, log', f.held[k]) {
      var h := f.held[k];
      assert TakenSound(f, log, h);
      var notes, notes' := List(log, h.conn), List(log', h.conn);
      assert notes'[h.index] == notes[h.index];
      if h.conn == f.conn {
        BroadcastsPrefix(notes, notes', h.index + 1, f.read);
      }
    }
  }

  lemma ListMoves(f: Follower, f': Follower, late: seq<ServiceInfo>, t: Id, x: Id)
    requires f'.applied == f.applied + late
    ensures Lookup(ListOf(f', t), x) == Else(Last(late, t, x), Lookup(ListOf(f, t), x))
  {
    LookupHeard([], t, f.applied, x);
    LookupHeard([], t, f'.applied, x);
    LastConcat(f.applied, late, t, x);
  }

  /** An acknowledgement decides what it names and leaves the rest as it was. */
  lemma ApplyShows(f: Follower, log: Log, k: nat, t: Id, x: Id)
    requires k < |f.held|
    ensures Lookup(ListOf(Moved(f, log, Apply(k)), t), x) ==
            Else(Last(TakenInfos(log, f.held[k]), t, x), Lookup(ListOf(f, t), x))
  {
    ListMoves(f, Moved(f, log, Apply(k)), TakenInfos(log, f.held[k]), t, x);
  }

  // ---------------------------------------------------------------------------
  // Gate and subscriber together

  datatype System = System(gate: Listener, follower: Follower)

  datatype Step =
    | AtGate(event: Event)
    | AtFollower(move: Move)

  const START := System(NOTHING, Follower(0, 0, [], 0, []))

  /** What was written to the subscriber's present connection. */
  function Notes(y: System): seq<Note> {
    List(y.gate.log, y.follower.conn)
  }

  /** The gate's tables are sound in every run. */
  ghost function GateAfter(s: Listener, e: Event): Listener {
    if Inv(s) then Next(s, e) else s
  }

  /** One step of either side. */
  ghost function Advance(y: System, e: Step): System {
    match e
    case AtGate(event) => y.(gate := GateAfter(y.gate, event))
    case AtFollower(move) => y.(follower := Moved(y.follower, y.gate.log, move))
  }

  ghost predicate GateSound(s: Listener) {
    Inv(s) && AllFollow(s) && Tracked(s) && NotesKnown(s)
  }

  ghost predicate Sound(y: System) {
    && GateSound(y.gate)
    && FollowerSound(y.follower, y.gate.log)
    && AllKnown(y.gate.services, y.follower.applied)
  }

  lemma GateStepKeeps(y: System, e: Event)
    requires Sound(y)
    ensures Sound(Advance(y, AtGate(e)))
  {
    var s' := Next(y.gate, e);
    assert GateSound(s') by {
      NextKeeps(y.gate, e);
      NextFollows(y.gate, e);
      NextTracked(y.gate, e);
      NextKnown(y.gate, e);
    }
    assert Longer(y.gate.log, s'.log) by {
      forall c: nat ensures List(y.gate.log, c) <= List(s'.log, c) {
        NextLogs(y.gate, e, c);
      }
    }
    LongerKeeps(y.follower, y.gate.log, s'.log);
    NextStays(y.gate, e);
    KnownStays(y.gate.services, s'.services, y.follower.applied);
  }

  lemma MoveKeepsKnown(y: System, e: Move)
    requires NotesKnown(y.gate) && AllKnown(y.gate.services, y.follower.applied)
    ensures AllKnown(y.gate.services, Moved(y.follower, y.gate.log, e).applied)
  {
    var f, log := y.follower, y.gate.log;
    if e.Read? && f.read < |List(log, f.conn)| {
      assert AllKnown(y.gate.services, Told(List(log, f.conn)[f.read]));
    } else if e.Apply? && e.k < |f.held| {
      var h := f.held[e.k];
      assert h.index < |List(log, h.conn)| ==> AllKnown(y.gate.services, Told(List(log, h.conn)[h.index]));
    }
  }

  lemma StepKeeps(y: System, e: Step)
    requires Sound(y)
    ensures Sound(Advance(y, e))
  {
    if e.AtGate? {
      GateStepKeeps(y, e.event);
    } else {
      MoveKeeps(y.follower, y.gate.log, e.move);
      MoveKeepsKnown(y, e.move);
    }
  }

  ghost function Continue(y: System, es: seq<Step>): System {
    if es == [] then y else Advance(Continue(y, es[..|es| - 1]), es[|es| - 1])
  }

  /** The state after a run of gate and subscriber. */
  ghost function Run(es: seq<Step>): System {
    Continue(START, es)
  }

  lemma {:induction false} RunSound(es: seq<Step>)
    ensures Sound(Run(es))
    decreases |es|
  {
    if es == [] {
      assert Play([]) == NOTHING;
      PlayFollows([]);
    } else {
      RunSound(es[..|es| - 1]);
      StepKeeps(Run(es[..|es| - 1]), es[|es| - 1]);
    }
  }

  /** The step reads a successful acknowledgement that its call still waits for. */
  ghost predicate TakesOne(y: System, e: Step) {
    && e == AtFollower(Read(true)) && y.follower.read < |Notes(y)|
    && Notes(y)[y.follower.read].SubscribeAck? && Notes(y)[y.follower.read].ok
  }

  /** How many acknowledgements were taken in the run. */
  ghost function TakenIn(es: seq<Step>): nat {
    if es == [] then 0
    else TakenIn(es[..|es| - 1]) + if TakesOne(Run(es[..|es| - 1]), es[|es| - 1]) then 1 else 0
  }

  lemma StepTakes(y: System, e: Step)
    ensures var f, f' := y.follower, Advance(y, e).follower;
            |f'.held| + f'.applies == |f.held| + f.applies + if TakesOne(y, e) then 1 else 0
  {
  }

  /** In every run each acknowledgement taken is applied once or still held, over any number of reconnects. */
  lemma {:induction false} NothingTakenIsLost(es: seq<Step>)
    ensures TakenIn(es) == |Run(es).follower.held| + Run(es).follower.applies
    decreases |es|
  {
    if es != [] {
      NothingTakenIsLost(es[..|es| - 1]);
      StepTakes(Run(es[..|es| - 1]), es[|es| - 1]);
    }
  }

  // ---------------------------------------------------------------------------
  // Agreement

  /** The gate still serves the subscriber's present connection. */
  ghost predicate Online(f: Follower, s: Listener) {
    f.conn in s.conns && s.conns[f.conn].live
  }

  /** The subscriber has read everything written to its present connection, which is live. */
  ghost predicate CaughtUp(f: Follower, s: Listener) {
    f.read == |List(s.log, f.conn)| && Online(f, s)
  }

  /** The subscriber and the gate agree on `x`. */
  ghost predicate Agree(f: Follower, s: Listener, t: Id, x: Id) {
    Lookup(ListOf(f, t), x) == Lookup(Listing(s, t), x)
  }

  lemma KnownIsListed(s: Listener, t: Id, info: ServiceInfo)
    requires Inv(s) && Known(s.services, info) && U16(info.tp) == t
    ensures Lookup(Listing(s, t), U16(info.id)).Some?
  {
    var j :| 0 <= j < |s.services| && s.services[j].id == U16(info.id) && s.services[j].tp == U16(info.tp);
    var p :| 0 <= p < |s.types[t]| && s.types[t][p] == j;
    assert Ids(Listing(s, t))[p] == U16(info.id);
  }

  lemma {:induction false} LastIsListed(s: Listener, t: Id, infos: seq<ServiceInfo>, x: Id)
    requires Inv(s) && AllKnown(s.services, infos) && Last(infos, t, x).Some?
    ensures Lookup(Listing(s, t), x).Some?
    decreases |infos|
  {
    var info := infos[|infos| - 1];
    if U16(info.tp) == t && U16(info.id) == x {
      KnownIsListed(s, t, info);
    } else {
      LastIsListed(s, t, infos[..|infos| - 1], x);
    }
  }

  lemma PrefixIsDistinct(l: seq<Entry>, l': seq<Entry>)
    requires Ids(l) <= Ids(l') && DistinctIds(l')
    ensures DistinctIds(l)
  {
    forall i, j | 0 <= i < j < |l| ensures l[i].id != l[j].id {
      assert Ids(l)[i] == Ids(l')[i] && Ids(l)[j] == Ids(l')[j];
    }
  }

  /** The gate's view of `x`: the last broadcast since acknowledgement `i`, or what the acknowledgement said. */
  lemma GateShows(s: Listener, c: nat, t: Id, i: nat, x: Id)
    requires Tracked(s) && c in s.conns && s.conns[c].live && DistinctIds(Listing(s, t))
    requires IsAck(List(s.log, c), i, t)
    ensures var notes := List(s.log, c);
            Lookup(Listing(s, t), x) ==
            Else(Last(Broadcasts(notes, i + 1, |notes|), t, x), Last(notes[i].services, t, x))
  {
    var notes := List(s.log, c);
    var infos, since := notes[i].services, Broadcasts(notes, i + 1, |notes|);
    assert SinceAck(s, c, t, i);
    LookupHeard(Entries(infos), t, since, x);
    assert DistinctIds(Entries(infos)) by {
      HeardKeepsIds(Entries(infos), t, since);
      PrefixIsDistinct(Entries(infos), Listing(s, t));
    }
    LookupEntries(infos, t, x);
  }

  /** A broadcast of `x` since the acknowledgement leaves another state than the acknowledgement told. */
  ghost predicate Outdated(infos: seq<ServiceInfo>, since: seq<ServiceInfo>, t: Id, x: Id) {
    Last(infos, t, x).Some? && Last(since, t, x).Some? && Last(infos, t, x) != Last(since, t, x)
  }

  /** The subscriber agrees on `x` once acknowledgement `k` of those taken is applied. */
  ghost predicate AgreesAfter(f: Follower, s: Listener, k: nat, t: Id, x: Id) {
    Agree(Moved(f, s.log, Apply(k)), s, t, x)
  }

  lemma ApplyAgrees(f: Follower, s: Listener, k: nat, t: Id, i: nat, x: Id)
    requires Tracked(s) && Online(f, s) && DistinctIds(Listing(s, t))
    requires k < |f.held| && IsAck(List(s.log, f.conn), i, t)
    ensures var notes, told := List(s.log, f.conn), Last(TakenInfos(s.log, f.held[k]), t, x);
            AgreesAfter(f, s, k, t, x) <==>
            if told.Some?
            then told == Else(Last(Broadcasts(notes, i + 1, |notes|), t, x), Last(notes[i].services, t, x))
            else Agree(f, s, t, x)
  {
    ApplyShows(f, s.log, k, t, x);
    GateShows(s, f.conn, t, i, x);
  }

  /**
   * In every run, after the subscriber applies any acknowledgement it has taken, on whatever connection and however
   * late, it agrees with the gate on an id exactly when: where the acknowledgement names the id, it tells the state
   * that an acknowledgement `i` on the present connection and the broadcasts since `i` leave; where it does not, the
   * two agreed before.
   */
  lemma AnyAckAgrees(es: seq<Step>, k: nat, t: Id, i: nat, x: Id)
    requires var System(s, f) := Run(es);
             && Online(f, s) && DistinctIds(Listing(s, t))
             && k < |f.held| && IsAck(List(s.log, f.conn), i, t)
    ensures var System(s, f) := Run(es);
            var notes, told := List(s.log, f.conn), Last(TakenInfos(s.log, f.held[k]), t, x);
            AgreesAfter(f, s, k, t, x) <==>
            if told.Some?
            then told == Else(Last(Broadcasts(notes, i + 1, |notes|), t, x), Last(notes[i].services, t, x))
            else Agree(f, s, t, x)
  {
    var System(s, f) := Run(es);
    assert Tracked(s) by { RunSound(es); }
    ApplyAgrees(f, s, k, t, i, x);
  }

  /** Acknowledgement `k` of those taken is of type `t` and was written to the present connection. */
  ghost predicate OnConnection(f: Follower, s: Listener, k: nat, t: Id) {
    k < |f.held| && f.held[k].conn == f.conn && IsAck(List(s.log, f.conn), f.held[k].index, t)
  }

  /** What acknowledgement `k` says about `x`. */
  ghost function Says(f: Follower, s: Listener, k: nat, t: Id, x: Id): Option<bool>
    requires OnConnection(f, s, k, t)
  {
    Last(List(s.log, f.conn)[f.held[k].index].services, t, x)
  }

  /** A broadcast written since acknowledgement `k` left `x` in another state than it told. */
  ghost predicate Overtaken(f: Follower, s: Listener, k: nat, t: Id, x: Id)
    requires OnConnection(f, s, k, t)
  {
    var notes, i := List(s.log, f.conn), f.held[k].index;
    Outdated(notes[i].services, Broadcasts(notes, i + 1, |notes|), t, x)
  }

  /**
   * So an acknowledgement on the present connection, however late it is applied and whatever was applied since it was
   * taken, brings agreement on an id it names exactly when no broadcast since left that id in another state. On an id
   * it does not name, the two agree afterwards exactly when they did before.
   */
  lemma AppliedAckAgrees(es: seq<Step>, k: nat, t: Id, x: Id)
    requires var System(s, f) := Run(es); Online(f, s) && OnConnection(f, s, k, t) && DistinctIds(Listing(s, t))
    ensures var System(s, f) := Run(es);
            AgreesAfter(f, s, k, t, x) <==>
            if Says(f, s, k, t, x).Some? then !Overtaken(f, s, k, t, x) else Agree(f, s, t, x)
  {
    AnyAckAgrees(es, k, t, Run(es).follower.held[k].index, x);
  }

  /** The gate lists whatever the subscriber lists. */
  lemma ListedByGate(f: Follower, s: Listener, t: Id, x: Id)
    requires Inv(s) && AllKnown(s.services, f.applied)
    ensures Lookup(ListOf(f, t), x).Some? ==> Lookup(Listing(s, t), x).Some?
  {
    LookupHeard([], t, f.applied, x);
    if Last(f.applied, t, x).Some? {
      LastIsListed(s, t, f.applied, x);
    }
  }

  /** An acknowledgement applied while it is the newest note brings agreement on every id of its type. */
  lemma PromptAckAgrees(es: seq<Step>, k: nat, t: Id, x: Id)
    requires var System(s, f) := Run(es); Online(f, s) && OnConnection(f, s, k, t) && DistinctIds(Listing(s, t))
    requires Run(es).follower.held[k].index + 1 == |Notes(Run(es))|
    ensures var System(s, f) := Run(es); AgreesAfter(f, s, k, t, x)
  {
    var System(s, f) := Run(es);
    var i := f.held[k].index;
    assert Broadcasts(List(s.log, f.conn), i + 1, i + 1) == [];
    AppliedAckAgrees(es, k, t, x);
    assert Sound(System(s, f)) by { RunSound(es); }
    ListedByGate(f, s, t, x);
    GateShows(s, f.conn, t, i, x);
  }

  // ---------------------------------------------------------------------------
  // No acknowledgement applied in between

  /** Acknowledgement `k` is of type `t` and on this connection, and none was applied since it was taken. */
  ghost predicate Pending(f: Follower, s: Listener, k: nat, t: Id) {
    OnConnection(f, s, k, t) && f.held[k].applies == f.applies
  }

  /** With only broadcasts applied since it was taken, the two agree on what the acknowledgement does not name. */
  lemma UnnamedAgrees(f: Follower, s: Listener, k: nat, t: Id, x: Id)
    requires Tracked(s) && FollowerSound(f, s.log) && CaughtUp(f, s) && DistinctIds(Listing(s, t))
    requires Pending(f, s, k, t) && Says(f, s, k, t, x).None?
    requires Lookup(ListOf(f, t), x).Some? ==> Lookup(Listing(s, t), x).Some?
    ensures Agree(f, s, t, x)
  {
    var h, notes := f.held[k], List(s.log, f.conn);
    assert TakenSound(f, s.log, h);
    var before, since := f.applied[..h.mark], Broadcasts(notes, h.index + 1, |notes|);
    assert f.applied == before + since;
    LookupHeard([], t, before + since, x);
    LastConcat(before, since, t, x);
    GateShows(s, f.conn, t, h.index, x);
  }

  /**
   * In every run, when a subscriber that has read everything applies an acknowledgement, and applied no other since it
   * took this one, it agrees with the gate on an id exactly when the last broadcast of it since the acknowledgement
   * was written, if any, left the state told there. What it kept from earlier connections does not matter.
   */
  lemma PendingAckAgrees(es: seq<Step>, k: nat, t: Id, x: Id)
    requires var System(s, f) := Run(es); CaughtUp(f, s) && Pending(f, s, k, t) && DistinctIds(Listing(s, t))
    ensures var System(s, f) := Run(es);
            AgreesAfter(f, s, k, t, x) <==> !Overtaken(f, s, k, t, x)
  {
    var System(s, f) := Run(es);
    assert Sound(System(s, f)) by { RunSound(es); }
    AppliedAckAgrees(es, k, t, x);
    if Says(f, s, k, t, x).None? {
      ListedByGate(f, s, t, x);
      UnnamedAgrees(f, s, k, t, x);
    }
  }

  // ---------------------------------------------------------------------------
  // Broadcasts settle

  lemma LastWord(infos: seq<ServiceInfo>, info: ServiceInfo, t: Id)
    requires U16(info.tp) == t
    ensures Last(infos + [info], t, U16(info.id)) == Some(info.online)
  {
    assert (infos + [info])[..|infos + [info]| - 1] == infos;
  }

  /** The next note is the newest one, and a broadcast of type `t`. */
  ghost predicate NewestNext(f: Follower, s: Listener, t: Id) {
    var notes := List(s.log, f.conn);
    && f.read + 1 == |notes| && notes[f.read].SubscribeBrd? && U16(notes[f.read].service.tp) == t
    && f.conn in s.conns && s.conns[f.conn].live
  }

  lemma ReadSettles(f: Follower, s: Listener, take: bool, t: Id, i: nat)
    requires Tracked(s) && NewestNext(f, s, t) && IsAck(List(s.log, f.conn), i, t) && DistinctIds(Listing(s, t))
    ensures Agree(Moved(f, s.log, Read(take)), s, t, U16(List(s.log, f.conn)[f.read].service.id))
  {
    var notes, n := List(s.log, f.conn), f.read;
    var info := notes[n].service;
    var x, early := U16(info.id), Broadcasts(notes, i + 1, n);
    assert Lookup(Listing(s, t), x) == Some(info.online) by {
      GateShows(s, f.conn, t, i, x);
      LastWord(early, info, t);
    }
    LookupHeard([], t, f.applied + [info], x);
    LastWord(f.applied, info, t);
  }

  /** Reading the newest broadcast of a service settles that service, whatever happened before. */
  lemma BroadcastSettles(es: seq<Step>, take: bool, t: Id, i: nat)
    requires var System(s, f) := Run(es);
             NewestNext(f, s, t) && IsAck(List(s.log, f.conn), i, t) && DistinctIds(Listing(s, t))
    ensures var System(s, f) := Run(es);
            Agree(Moved(f, s.log, Read(take)), s, t, U16(List(s.log, f.conn)[f.read].service.id))
  {
    var System(s, f) := Run(es);
    assert Sound(System(s, f)) by { RunSound(es); }
    ReadSettles(f, s, take, t, i);
  }

  // ---------------------------------------------------------------------------
  // The gate's part of a run

  function GateEvents(es: seq<Step>): seq<Event> {
    if es == [] then []
    else
      var before, last := GateEvents(es[..|es| - 1]), es[|es| - 1];
      if last.AtGate? then before + [last.event] else before
  }

  lemma {:induction false} GateRuns(es: seq<Step>)
    ensures Run(es).gate == Play(GateEvents(es))
    decreases |es|
  {
    if es == [] {
      assert Play([]) == NOTHING;
    } else {
      GateRuns(es[..|es| - 1]);
      if es[|es| - 1].AtGate? {
        PlayOne(GateEvents(es[..|es| - 1]), es[|es| - 1].event);
      }
    }
  }

  /** In a run in which no registration races with another, the gate lists no id twice. */
  lemma DistinctWithoutRaces(es: seq<Step>, t: Id)
    requires NoRace(GateEvents(es))
    ensures DistinctIds(Listing(Run(es).gate, t))
  {
    GateRuns(es);
    UniqueIffNoRace(GateEvents(es));
    UniqueIsDistinct(Play(GateEvents(es)), t);
  }

  // ---------------------------------------------------------------------------
  // Agreement lasts

  lemma {:induction false} ContinueConcat(y: System, es: seq<Step>, more: seq<Step>)
    ensures Continue(y, es + more) == Continue(Continue(y, es), more)
    decreases |more|
  {
    if more == [] {
      assert es + more == es;
    } else {
      ContinueConcat(y, es, more[..|more| - 1]);
      assert (es + more)[..|es + more| - 1] == es + more[..|more| - 1];
    }
  }

  ghost predicate OnlyReads(es: seq<Step>) {
    forall i | 0 <= i < |es| :: es[i].AtGate? || es[i].move.Read?
  }

  /** `f'` came from `f` by reading on in notes that grew meanwhile: the broadcasts read were applied. */
  ghost predicate ReadOn(f: Follower, f': Follower, notes: seq<Note>, notes': seq<Note>) {
    && f'.conn == f.conn && notes <= notes'
    && f.read <= f'.read <= |notes'|
    && f'.applied == f.applied + Broadcasts(notes', f.read, f'.read)
  }

  lemma ReadOnLonger(f: Follower, f': Follower, notes: seq<Note>, notes': seq<Note>, more: seq<Note>)
    requires ReadOn(f, f', notes, notes') && notes' <= more
    ensures ReadOn(f, f', notes, more)
  {
    BroadcastsPrefix(notes', more, f.read, f'.read);
  }

  lemma ReadOnNext(f: Follower, f': Follower, notes: seq<Note>, notes': seq<Note>, take: bool)
    requires ReadOn(f, f', notes, notes') && f'.read < |notes'|
    ensures ReadOn(f, AfterRead(f', notes'[f'.read], take), notes, notes')
  {
  }

  lemma ReadOnByStep(f: Follower, notes: seq<Note>, y: System, e: Step)
    requires ReadOn(f, y.follower, notes, Notes(y)) && (e.AtGate? || e.move.Read?)
    ensures ReadOn(f, Advance(y, e).follower, notes, Notes(Advance(y, e)))
  {
    if e.AtGate? {
      if Inv(y.gate) {
        NextLogs(y.gate, e.event, y.follower.conn);
      }
      ReadOnLonger(f, y.follower, notes, Notes(y), Notes(Advance(y, e)));
    } else if y.follower.read < |Notes(y)| {
      ReadOnNext(f, y.follower, notes, Notes(y), e.move.take);
    }
  }

  lemma {:induction false} ReadingOn(y: System, more: seq<Step>)
    requires OnlyReads(more) && y.follower.read <= |Notes(y)|
    ensures ReadOn(y.follower, Continue(y, more).follower, Notes(y), Notes(Continue(y, more)))
    decreases |more|
  {
    if more != [] {
      var init := more[..|more| - 1];
      ReadingOn(y, init);
      ReadOnByStep(y.follower, Notes(y), Continue(y, init), more[|more| - 1]);
    }
  }

  /** What the gate shows later, from what it showed before and the broadcasts in between. */
  lemma GateMoves(s: Listener, s': Listener, c: nat, t: Id, i: nat, x: Id)
    requires Tracked(s) && Tracked(s') && List(s.log, c) <= List(s'.log, c) && IsAck(List(s.log, c), i, t)
    requires c in s.conns && s.conns[c].live && DistinctIds(Listing(s, t))
    requires c in s'.conns && s'.conns[c].live && DistinctIds(Listing(s', t))
    ensures var notes, notes' := List(s.log, c), List(s'.log, c);
            Lookup(Listing(s', t), x) ==
            Else(Last(Broadcasts(notes', |notes|, |notes'|), t, x), Lookup(Listing(s, t), x))
  {
    var notes, notes' := List(s.log, c), List(s'.log, c);
    var early, late := Broadcasts(notes, i + 1, |notes|), Broadcasts(notes', |notes|, |notes'|);
    assert notes'[i] == notes[i];
    assert Broadcasts(notes', i + 1, |notes'|) == early + late by {
      BroadcastsSplit(notes', i + 1, |notes|, |notes'|);
      BroadcastsPrefix(notes, notes', i + 1, |notes|);
    }
    GateShows(s, c, t, i, x);
    GateShows(s', c, t, i, x);
    LastConcat(early, late, t, x);
  }

  lemma ReadOnAgrees(f: Follower, s: Listener, f': Follower, s': Listener, t: Id, i: nat, x: Id)
    requires Tracked(s) && Tracked(s') && CaughtUp(f, s) && CaughtUp(f', s')
    requires ReadOn(f, f', List(s.log, f.conn), List(s'.log, f.conn))
    requires IsAck(List(s.log, f.conn), i, t) && DistinctIds(Listing(s, t)) && DistinctIds(Listing(s', t))
    requires Agree(f, s, t, x)
    ensures Agree(f', s', t, x)
  {
    var notes, notes' := List(s.log, f.conn), List(s'.log, f.conn);
    GateMoves(s, s', f.conn, t, i, x);
    ListMoves(f, f', Broadcasts(notes', |notes|, |notes'|), t, x);
  }

  /** Once in agreement on a service, a subscriber that only reads on stays in agreement whenever it has caught up. */
  lemma AgreementLasts(es: seq<Step>, more: seq<Step>, t: Id, i: nat, x: Id)
    requires OnlyReads(more)
    requires var System(s, f) := Run(es);
             CaughtUp(f, s) && IsAck(List(s.log, f.conn), i, t) && DistinctIds(Listing(s, t)) && Agree(f, s, t, x)
    requires var System(s, f) := Run(es + more); CaughtUp(f, s) && DistinctIds(Listing(s, t))
    ensures Agree(Run(es + more).follower, Run(es + more).gate, t, x)
  {
    var System(s, f) := Run(es);
    var System(s', f') := Run(es + more);
    assert Tracked(s) && Tracked(s') by {
      RunSound(es);
      RunSound(es + more);
    }
    ContinueConcat(START, es, more);
    ReadingOn(Run(es), more);
    ReadOnAgrees(f, s, f', s', t, i, x);
  }

  // ---------------------------------------------------------------------------
  // In-order processing as a special case

  /** All that `notes` say, in order. */
  function ToldAll(notes: seq<Note>): seq<ServiceInfo> {
    if notes == [] then [] else ToldAll(notes[..|notes| - 1]) + Told(notes[|notes| - 1])
  }

  lemma ToldUpTo(notes: seq<Note>, n: nat)
    requires n < |notes|
    ensures ToldAll(notes[..n + 1]) == ToldAll(notes[..n]) + Told(notes[n])
  {
    assert notes[..n + 1][..n] == notes[..n];
  }

  lemma {:induction false} HeardConcat(list: seq<Entry>, t: Id, xs: seq<ServiceInfo>, ys: seq<ServiceInfo>)
    ensures HeardAll(list, t, xs + ys) == HeardAll(HeardAll(list, t, xs), t, ys)
    decreases |ys|
  {
    if ys == [] {
      assert xs + ys == xs;
    } else {
      assert (xs + ys)[..|xs + ys| - 1] == xs + ys[..|ys| - 1];
      HeardConcat(list, t, xs, ys[..|ys| - 1]);
    }
  }

  lemma {:induction false} ViewIsHeard(notes: seq<Note>, t: Id)
    ensures View(notes, t) == HeardAll([], t, ToldAll(notes))
    decreases |notes|
  {
    if notes != [] {
      ViewIsHeard(notes[..|notes| - 1], t);
      HeardConcat([], t, ToldAll(notes[..|notes| - 1]), Told(notes[|notes| - 1]));
    }
  }

  /** Every note read so far was applied as it was read. */
  ghost predicate InOrder(f: Follower, notes: seq<Note>) {
    f.held == [] && f.read <= |notes| && f.applied == ToldAll(notes[..f.read])
  }

  lemma InOrderAgrees(f: Follower, s: Listener, t: Id)
    requires AllFollow(s) && InOrder(f, List(s.log, f.conn)) && CaughtUp(f, s) && t in s.conns[f.conn].subscribe
    ensures ListOf(f, t) == Listing(s, t) <==> DistinctIds(Listing(s, t))
  {
    var notes := List(s.log, f.conn);
    assert Follows(s, f.conn, t);
    assert notes[..|notes|] == notes;
    ViewIsHeard(notes, t);
    ViewIsDistinct(notes, t);
  }

  /**
   * A subscriber that applied every note in order lists the services of a type exactly as the gate does, exactly when
   * the gate lists no id of that type twice.
   */
  lemma InOrderAgreement(es: seq<Step>, t: Id)
    requires var System(s, f) := Run(es);
             InOrder(f, List(s.log, f.conn)) && CaughtUp(f, s) && t in s.conns[f.conn].subscribe
    ensures var System(s, f) := Run(es); ListOf(f, t) == Listing(s, t) <==> DistinctIds(Listing(s, t))
  {
    var System(s, f) := Run(es);
    assert AllFollow(s) by { RunSound(es); }
    InOrderAgrees(f, s, t);
  }

  /** Every note read so far was applied as it was read, except perhaps an acknowledgement read last. */
  ghost predicate InStep(f: Follower, notes: seq<Note>) {
    && f.read <= |notes| && |f.held| <= 1
    && (f.held == [] ==> f.applied == ToldAll(notes[..f.read]))
    && (f.held != [] ==>
          && f.held[0].conn == f.conn && f.held[0].index + 1 == f.read
          && f.applied == ToldAll(notes[..f.read - 1]))
  }

  lemma InStepLonger(f: Follower, notes: seq<Note>, notes': seq<Note>)
    requires InStep(f, notes) && notes <= notes'
    ensures InStep(f, notes')
  {
    assert notes'[..f.read] == notes[..f.read];
    assert f.read > 0 ==> notes'[..f.read - 1] == notes[..f.read - 1];
  }

  /** The subscriber chooses its connection before it reads, and applies what it took before it reads on. */
  ghost predicate Orderly(f: Follower, e: Move) {
    match e
    case Connect(_) => f.read == 0
    case Read(take) => take && f.held == []
    case Apply(_) => true
  }

  lemma ReadInStep(f: Follower, notes: seq<Note>)
    requires f.held == [] && f.read < |notes| && f.applied == ToldAll(notes[..f.read])
    ensures InStep(AfterRead(f, notes[f.read], true), notes)
  {
    ToldUpTo(notes, f.read);
  }

  lemma ApplyInStep(f: Follower, log: Log)
    requires InStep(f, List(log, f.conn)) && f.held != []
    ensures InStep(Moved(f, log, Apply(0)), List(log, f.conn))
  {
    ToldUpTo(List(log, f.conn), f.read - 1);
    assert f.held[..0] + f.held[1..] == [];
  }

  lemma MoveInStep(f: Follower, log: Log, e: Move)
    requires InStep(f, List(log, f.conn)) && Orderly(f, e)
    ensures var f' := Moved(f, log, e); InStep(f', List(log, f'.conn))
  {
    var notes := List(log, f.conn);
    match e {
      case Connect(_) =>
      case Read(_) =>
        if f.read < |notes| {
          ReadInStep(f, notes);
        }
      case Apply(k) =>
        if k < |f.held| {
          ApplyInStep(f, log);
        }
    }
  }

  lemma StepInStep(y: System, e: Step)
    requires InStep(y.follower, Notes(y)) && (e.AtFollower? ==> Orderly(y.follower, e.move))
    ensures InStep(Advance(y, e).follower, Notes(Advance(y, e)))
  {
    if e.AtFollower? {
      MoveInStep(y.follower, y.gate.log, e.move);
    } else if Inv(y.gate) {
      NextLogs(y.gate, e.event, y.follower.conn);
      InStepLonger(y.follower, Notes(y), Notes(Advance(y, e)));
    }
  }

  /** A run on one connection in which the subscriber applies each acknowledgement before it reads on. */
  ghost predicate AtOnce(es: seq<Step>) {
    es == [] ||
    var init, last := es[..|es| - 1], es[|es| - 1];
    AtOnce(init) && (last.AtFollower? ==> Orderly(Run(init).follower, last.move))
  }

  lemma {:induction false} AtOnceInStep(es: seq<Step>)
    requires AtOnce(es)
    ensures InStep(Run(es).follower, Notes(Run(es)))
    decreases |es|
  {
    if es != [] {
      AtOnceInStep(es[..|es| - 1]);
      StepInStep(Run(es[..|es| - 1]), es[|es| - 1]);
    }
  }

  /** In such a run a subscriber that has caught up lists a type as the gate does, exactly when no id is there twice. */
  lemma AtOnceAgreement(es: seq<Step>, t: Id)
    requires AtOnce(es)
    requires var System(s, f) := Run(es); f.held == [] && CaughtUp(f, s) && t in s.conns[f.conn].subscribe
    ensures InOrder(Run(es).follower, Notes(Run(es)))
    ensures var System(s, f) := Run(es); ListOf(f, t) == Listing(s, t) <==> DistinctIds(Listing(s, t))
  {
    AtOnceInStep(es);
    InOrderAgreement(es, t);
  }
}
