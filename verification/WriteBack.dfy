/**
 * Coalescing write-back to the database (`update_user` and `update_account` share this protocol).
 * The scheduler thread merges updates into pending entries; pool threads copy each entry under its lock,
 * run one bulk write, and the scheduler then erases the entries and acknowledges the copied versions.
 * Each event is one atomic section, so a run is any interleaving of the two sides.
 */
module WriteBack {
  import opened RegistryMessages

  /** One element of a request. */
  datatype Update<D> = Update(user: int, version: int, data: D)

  /** A submitted value as recorded: the version is already narrowed. */
  datatype Submission<D> = Submission(version: int, data: D)

  /** `num` tells which of the user's submissions this is; the program itself does not store it. */
  datatype Entry<D> = Entry(version: int, data: D, num: nat)

  datatype Op<D> = Op(user: int, version: int, data: D, num: nat)

  /** A database row; `num` is -1 until the first write. */
  datatype Row<D> = Row(data: D, num: int)

  datatype Status = Running | Done | Failed

  /** A request's batch: `ops` copied so far, `applied` of them already executed by the server. */
  datatype Job<D> = Job(users: seq<int>, ops: seq<Op<D>>, applied: nat, status: Status)

  datatype Ack = Ack(user: int, version: int, num: nat)

  datatype State<D> = State(
    pending: map<int, Entry<D>>,
    building: seq<int>,
    jobs: map<nat, Job<D>>,
    db: map<int, Row<D>>,
    history: map<int, seq<Submission<D>>>,
    acks: seq<Ack>)

  datatype Event<D> =
    | Submit(update: Update<D>)
    | Post(id: nat)
    | Copy(id: nat)
    | Execute(id: nat)
    | Succeed(id: nat)
    | Fail(id: nat)
    | Complete(id: nat)

  function History<D>(s: State<D>, user: int): seq<Submission<D>> {
    if user in s.history then s.history[user] else []
  }

  function AcksOf<D>(ops: seq<Op<D>>): seq<Ack> {
    seq(|ops|, i requires 0 <= i < |ops| => Ack(ops[i].user, ops[i].version, ops[i].num))
  }

  /** The whole batch has been copied and the bulk write is under way. */
  predicate Executing<D>(job: Job<D>) {
    job.status == Running && |job.ops| == |job.users| && job.applied < |job.ops|
  }

  /** One atomic section; an event that is not possible in `s` changes nothing. */
  function Next<D>(s: State<D>, e: Event<D>): State<D> {
    match e
    case Submit(u) =>
      var past := History(s, u.user);
      var entry := Entry(U16(u.version), u.data, |past|);
      s.(history := s.history[u.user := past + [Submission(U16(u.version), u.data)]],
         pending := s.pending[u.user := entry],
         building := if u.user in s.pending then s.building else s.building + [u.user])
    case Post(id) =>
      if id in s.jobs || s.building == [] then s
      else s.(jobs := s.jobs[id := Job(s.building, [], 0, Running)], building := [])
    case Copy(id) =>
      if id !in s.jobs || s.jobs[id].status != Running || |s.jobs[id].ops| >= |s.jobs[id].users| then s
      else
        var job := s.jobs[id];
        var user := job.users[|job.ops|];
        if user !in s.pending then s
        else
          var entry := s.pending[user];
          s.(jobs := s.jobs[id := job.(ops := job.ops + [Op(user, entry.version, entry.data, entry.num)])])
    case Execute(id) =>
      if id !in s.jobs || !Executing(s.jobs[id]) then s
      else
        var job := s.jobs[id];
        var op := job.ops[job.applied];
        s.(jobs := s.jobs[id := job.(applied := job.applied + 1)],
           db := if op.user in s.db then s.db[op.user := Row(op.data, op.num)] else s.db)
    case Succeed(id) =>
      if id !in s.jobs || s.jobs[id].status != Running || s.jobs[id].applied < |s.jobs[id].users| then s
      else s.(jobs := s.jobs[id := s.jobs[id].(status := Done)])
    case Fail(id) =>
      if id !in s.jobs || s.jobs[id].status != Running then s
      else s.(jobs := s.jobs[id := s.jobs[id].(status := Failed)])
    case Complete(id) =>
      if id !in s.jobs || s.jobs[id].status == Running then s
      else
        var job := s.jobs[id];
        s.(jobs := s.jobs - {id},
           pending := s.pending - (set u | u in job.users),
           acks := if job.status == Done then s.acks + AcksOf(job.ops) else s.acks)
  }

  function Play<D>(s: State<D>, es: seq<Event<D>>): State<D> {
    if es == [] then s else Next(Play(s, es[..|es| - 1]), es[|es| - 1])
  }

  function Initial<D>(db: map<int, D>): State<D> {
    State(map[], [], map[], map u | u in db :: Row(db[u], -1), map[], [])
  }

  // ---------------------------------------------------------------------------
  // Invariant

  ghost predicate Apart(xs: seq<int>, ys: seq<int>) {
    forall u | u in xs :: u !in ys
  }

  ghost predicate InFlight<D>(s: State<D>, u: int) {
    exists j | j in s.jobs :: u in s.jobs[j].users
  }

  /** The pending users are exactly those of the request being read and of the jobs in flight, each once. */
  ghost predicate OneWriter<D>(s: State<D>) {
    && NoDuplicates(s.building)
    && (forall u | u in s.building :: u in s.pending)
    && (forall j | j in s.jobs ::
          && NoDuplicates(s.jobs[j].users) && Apart(s.jobs[j].users, s.building)
          && (forall u | u in s.jobs[j].users :: u in s.pending))
    && (forall i, j | i in s.jobs && j in s.jobs && i != j :: Apart(s.jobs[i].users, s.jobs[j].users))
    && (forall u | u in s.pending :: u in s.building || InFlight(s, u))
  }

  /** `version` and `data` are those of the user's submission `num`. */
  ghost predicate Recorded<D>(s: State<D>, user: int, version: int, data: D, num: int) {
    0 <= num < |History(s, user)| && History(s, user)[num] == Submission(version, data)
  }

  /** A pending entry is the user's latest submission. */
  ghost predicate PendingLatest<D>(s: State<D>) {
    forall u | u in s.pending ::
      && Recorded(s, u, s.pending[u].version, s.pending[u].data, s.pending[u].num)
      && s.pending[u].num == |History(s, u)| - 1
  }

  ghost predicate RowsRecorded<D>(s: State<D>) {
    forall u | u in s.db ::
      && s.db[u].num < |History(s, u)|
      && (s.db[u].num >= 0 ==> History(s, u)[s.db[u].num].data == s.db[u].data)
  }

  /** A copied operation is one of the user's submissions, not older than the row, and in it once applied. */
  ghost predicate OpSound<D>(s: State<D>, job: Job<D>, i: int)
    requires 0 <= i < |job.ops| <= |job.users|
  {
    var op := job.ops[i];
    && op.user == job.users[i]
    && Recorded(s, op.user, op.version, op.data, op.num)
    && (op.user in s.db ==>
          && s.db[op.user].num <= op.num
          && (i < job.applied ==> s.db[op.user] == Row(op.data, op.num)))
  }

  ghost predicate JobSound<D>(s: State<D>, job: Job<D>) {
    && |job.ops| <= |job.users|
    && job.applied <= |job.ops|
    && (job.applied > 0 ==> |job.ops| == |job.users|)
    && (job.status == Done ==> job.applied == |job.users|)
    && (forall i | 0 <= i < |job.ops| :: OpSound(s, job, i))
  }

  ghost predicate JobsSound<D>(s: State<D>) {
    forall j | j in s.jobs :: JobSound(s, s.jobs[j])
  }

  /** An acknowledged submission is recorded, and the row never falls behind it again. */
  ghost predicate AckSound<D>(s: State<D>, a: Ack) {
    && a.num < |History(s, a.user)|
    && History(s, a.user)[a.num].version == a.version
    && (a.user in s.db ==> a.num <= s.db[a.user].num)
  }

  ghost predicate AcksSound<D>(s: State<D>) {
    forall i | 0 <= i < |s.acks| :: AckSound(s, s.acks[i])
  }

  ghost predicate Inv<D>(s: State<D>) {
    OneWriter(s) && PendingLatest(s) && RowsRecorded(s) && JobsSound(s) && AcksSound(s)
  }

  /** Rows are neither created nor removed, and no row goes back to an earlier submission. */
  ghost predicate Forward<D>(s: State<D>, s': State<D>) {
    && s'.db.Keys == s.db.Keys
    && (forall u | u in s.db :: s.db[u].num <= s'.db[u].num)
    && (forall u :: History(s, u) <= History(s', u))
  }

  // One writer

  lemma SameWriters<D>(s: State<D>, s': State<D>)
    requires OneWriter(s) && s'.building == s.building && s'.pending.Keys == s.pending.Keys
    requires s'.jobs.Keys == s.jobs.Keys && (forall j | j in s.jobs :: s'.jobs[j].users == s.jobs[j].users)
    ensures OneWriter(s')
  {
    forall u | u in s'.pending ensures u in s'.building || InFlight(s', u) {
      if InFlight(s, u) {
        var j :| j in s.jobs && u in s.jobs[j].users;
        assert u in s'.jobs[j].users;
      }
    }
  }

  lemma SubmitKeepsOneWriter<D>(s: State<D>, u: Update<D>)
    requires OneWriter(s)
    ensures OneWriter(Next(s, Submit(u)))
  {
    var s' := Next(s, Submit(u));
    forall x | x in s'.pending ensures x in s'.building || InFlight(s', x) {
      if x in s.pending && InFlight(s, x) {
        var j :| j in s.jobs && x in s.jobs[j].users;
        assert x in s'.jobs[j].users;
      }
    }
  }

  lemma PostKeepsOneWriter<D>(s: State<D>, id: nat)
    requires OneWriter(s)
    ensures OneWriter(Next(s, Event<D>.Post(id)))
  {
    var s' := Next(s, Event<D>.Post(id));
    if id !in s.jobs && s.building != [] {
      forall x | x in s'.pending ensures InFlight(s', x) {
        if x in s.building {
          assert x in s'.jobs[id].users;
        } else {
          var j :| j in s.jobs && x in s.jobs[j].users;
          assert x in s'.jobs[j].users;
        }
      }
    }
  }

  lemma CompleteKeepsOneWriter<D>(s: State<D>, id: nat)
    requires OneWriter(s)
    ensures OneWriter(Next(s, Event<D>.Complete(id)))
  {
    var s' := Next(s, Event<D>.Complete(id));
    if id in s.jobs && s.jobs[id].status != Running {
      forall x | x in s'.pending ensures x in s'.building || InFlight(s', x) {
        if InFlight(s, x) {
          var j :| j in s.jobs && x in s.jobs[j].users;
          assert x in s'.jobs[j].users;
        }
      }
    }
  }

  // Jobs and acknowledgements

  /** Later submissions, and writes to other users' rows, leave a job sound. */
  lemma JobFrame<D>(s: State<D>, s': State<D>, job: Job<D>)
    requires JobSound(s, job)
    requires forall u | u in job.users :: History(s, u) <= History(s', u)
    requires forall u | u in job.users :: u in s'.db ==> u in s.db && s'.db[u] == s.db[u]
    ensures JobSound(s', job)
  {
    forall i | 0 <= i < |job.ops| ensures OpSound(s', job, i) {
      assert OpSound(s, job, i) && job.users[i] in job.users;
    }
  }

  lemma AcksFrame<D>(s: State<D>, s': State<D>)
    requires AcksSound(s) && Forward(s, s') && s'.acks == s.acks
    ensures AcksSound(s')
  {
    forall i | 0 <= i < |s'.acks| ensures AckSound(s', s'.acks[i]) {
      assert AckSound(s, s.acks[i]);
    }
  }

  lemma SubmitKeeps<D>(s: State<D>, u: Update<D>)
    requires Inv(s)
    ensures Inv(Next(s, Submit(u))) && Forward(s, Next(s, Submit(u)))
  {
    var s' := Next(s, Submit(u));
    SubmitKeepsOneWriter(s, u);
    forall x ensures History(s, x) <= History(s', x) {}
    forall j | j in s'.jobs ensures JobSound(s', s'.jobs[j]) {
      JobFrame(s, s', s.jobs[j]);
    }
    AcksFrame(s, s');
  }

  /** Replacing job `id` by one with the same users. */
  lemma JobStepKeeps<D>(s: State<D>, id: nat, job: Job<D>)
    requires Inv(s) && id in s.jobs && job.users == s.jobs[id].users && JobSound(s, job)
    ensures Inv(s.(jobs := s.jobs[id := job]))
  {
    var s' := s.(jobs := s.jobs[id := job]);
    SameWriters(s, s');
    forall j | j in s'.jobs ensures JobSound(s', s'.jobs[j]) {
      JobFrame(s, s', s'.jobs[j]);
    }
    AcksFrame(s, s');
  }

  lemma PostJobs<D>(s: State<D>, id: nat)
    requires JobsSound(s)
    ensures JobsSound(Next(s, Event<D>.Post(id)))
  {
    var s' := Next(s, Event<D>.Post(id));
    forall j | j in s'.jobs ensures JobSound(s', s'.jobs[j]) {
      if j in s.jobs {
        JobFrame(s, s', s.jobs[j]);
      }
    }
  }

  lemma PostKeeps<D>(s: State<D>, id: nat)
    requires Inv(s)
    ensures Inv(Next(s, Event<D>.Post(id)))
  {
    PostKeepsOneWriter(s, id);
    PostJobs(s, id);
    AcksFrame(s, Next(s, Event<D>.Post(id)));
  }

  lemma CopyKeeps<D>(s: State<D>, id: nat)
    requires Inv(s)
    ensures Inv(Next(s, Event<D>.Copy(id)))
  {
    var s' := Next(s, Event<D>.Copy(id));
    if s' != s {
      var job := s.jobs[id];
      assert JobSound(s, job);
      var user := job.users[|job.ops|];
      var entry := s.pending[user];
      var job' := job.(ops := job.ops + [Op(user, entry.version, entry.data, entry.num)]);
      forall i | 0 <= i < |job'.ops| ensures OpSound(s, job', i) {
        if i < |job.ops| {
          assert OpSound(s, job, i);
        }
      }
      JobStepKeeps(s, id, job');
    }
  }

  /** The executing job's own promises after one more operation. */
  lemma ExecutedJob<D>(s: State<D>, id: nat)
    requires Inv(s) && id in s.jobs && Executing(s.jobs[id])
    ensures var s' := Next(s, Event<D>.Execute(id)); JobSound(s', s'.jobs[id]) && Forward(s, s')
  {
    var s' := Next(s, Event<D>.Execute(id));
    var job := s.jobs[id];
    assert JobSound(s, job) && OpSound(s, job, job.applied);
    forall i | 0 <= i < |job.ops| ensures OpSound(s', s'.jobs[id], i) {
      assert OpSound(s, job, i);
      assert i != job.applied ==> job.users[i] != job.users[job.applied];
    }
  }

  /** The operation's user belongs to no other job, so no other job's promises change. */
  lemma ExecuteJobs<D>(s: State<D>, id: nat)
    requires OneWriter(s) && JobsSound(s) && id in s.jobs && Executing(s.jobs[id])
    requires JobSound(Next(s, Event<D>.Execute(id)), Next(s, Event<D>.Execute(id)).jobs[id])
    ensures JobsSound(Next(s, Event<D>.Execute(id)))
  {
    var s', job := Next(s, Event<D>.Execute(id)), s.jobs[id];
    assert JobSound(s, job) && OpSound(s, job, job.applied) && job.users[job.applied] in job.users;
    forall j | j in s'.jobs ensures JobSound(s', s'.jobs[j]) {
      if j != id {
        assert Apart(job.users, s.jobs[j].users);
        JobFrame(s, s', s.jobs[j]);
      }
    }
  }

  lemma ExecuteRows<D>(s: State<D>, id: nat)
    requires RowsRecorded(s) && JobsSound(s) && id in s.jobs && Executing(s.jobs[id])
    ensures RowsRecorded(Next(s, Event<D>.Execute(id)))
  {
    var job := s.jobs[id];
    assert JobSound(s, job) && OpSound(s, job, job.applied);
  }

  lemma ExecuteKeeps<D>(s: State<D>, id: nat)
    requires Inv(s)
    ensures Inv(Next(s, Event<D>.Execute(id))) && Forward(s, Next(s, Event<D>.Execute(id)))
  {
    if id in s.jobs && Executing(s.jobs[id]) {
      var s' := Next(s, Event<D>.Execute(id));
      ExecutedJob(s, id);
      SameWriters(s, s');
      ExecuteRows(s, id);
      ExecuteJobs(s, id);
      AcksFrame(s, s');
    }
  }

  lemma CompleteJobs<D>(s: State<D>, id: nat)
    requires JobsSound(s)
    ensures JobsSound(Next(s, Event<D>.Complete(id)))
  {
    var s' := Next(s, Event<D>.Complete(id));
    forall j | j in s'.jobs ensures JobSound(s', s'.jobs[j]) {
      JobFrame(s, s', s.jobs[j]);
    }
  }

  lemma CompleteAcks<D>(s: State<D>, id: nat)
    requires JobsSound(s) && AcksSound(s)
    ensures AcksSound(Next(s, Event<D>.Complete(id)))
  {
    var s' := Next(s, Event<D>.Complete(id));
    forall i | 0 <= i < |s'.acks| ensures AckSound(s', s'.acks[i]) {
      if i < |s.acks| {
        assert AckSound(s, s.acks[i]);
      } else {
        assert JobSound(s, s.jobs[id]) && OpSound(s, s.jobs[id], i - |s.acks|);
      }
    }
  }

  lemma CompleteKeeps<D>(s: State<D>, id: nat)
    requires Inv(s)
    ensures Inv(Next(s, Event<D>.Complete(id)))
  {
    CompleteKeepsOneWriter(s, id);
    CompleteJobs(s, id);
    CompleteAcks(s, id);
  }

  /** The outcome of a bulk write. */
  lemma StatusKeeps<D>(s: State<D>, id: nat, status: Status)
    requires Inv(s) && id in s.jobs && (status == Done ==> s.jobs[id].applied == |s.jobs[id].users|)
    ensures Inv(s.(jobs := s.jobs[id := s.jobs[id].(status := status)]))
  {
    var job := s.jobs[id].(status := status);
    assert JobSound(s, s.jobs[id]);
    forall i | 0 <= i < |job.ops| ensures OpSound(s, job, i) {
      assert OpSound(s, s.jobs[id], i);
    }
    JobStepKeeps(s, id, job);
  }

  /** Only submissions add to the history and only executed operations change rows. */
  lemma OthersForward<D>(s: State<D>, e: Event<D>)
    requires !e.Submit? && !e.Execute?
    ensures Forward(s, Next(s, e))
  {
    assert Next(s, e).db == s.db && Next(s, e).history == s.history;
  }

  lemma OutcomeKeeps<D>(s: State<D>, e: Event<D>)
    requires Inv(s) && (e.Succeed? || e.Fail?)
    ensures Inv(Next(s, e))
  {
    if Next(s, e) != s {
      assert JobSound(s, s.jobs[e.id]);
      StatusKeeps(s, e.id, if e.Succeed? then Done else Failed);
    }
  }

  lemma NextKeeps<D>(s: State<D>, e: Event<D>)
    requires Inv(s)
    ensures Inv(Next(s, e)) && Forward(s, Next(s, e))
  {
    if !e.Submit? && !e.Execute? {
      OthersForward(s, e);
    }
    match e {
      case Submit(u) => SubmitKeeps(s, u);
      case Post(id) => PostKeeps(s, id);
      case Copy(id) => CopyKeeps(s, id);
      case Execute(id) => ExecuteKeeps(s, id);
      case Complete(id) => CompleteKeeps(s, id);
      case Succeed(id) => OutcomeKeeps(s, e);
      case Fail(id) => OutcomeKeeps(s, e);
    }
  }

  // ---------------------------------------------------------------------------
  // Every interleaving

  lemma {:induction false} PlayKeeps<D>(s: State<D>, es: seq<Event<D>>)
    requires Inv(s)
    ensures Inv(Play(s, es)) && Forward(s, Play(s, es))
    decreases |es|
  {
    if es != [] {
      PlayKeeps(s, es[..|es| - 1]);
      NextKeeps(Play(s, es[..|es| - 1]), es[|es| - 1]);
    }
  }

  lemma PlayOne<D>(s: State<D>, es: seq<Event<D>>, e: Event<D>)
    ensures Play(s, es + [e]) == Next(Play(s, es), e)
  {
    assert (es + [e])[..|es + [e]| - 1] == es;
  }

  lemma {:induction false} PlayConcat<D>(s: State<D>, es: seq<Event<D>>, fs: seq<Event<D>>)
    ensures Play(s, es + fs) == Play(Play(s, es), fs)
    decreases |fs|
  {
    if fs == [] {
      assert es + fs == es;
    } else {
      assert (es + fs)[..|es + fs| - 1] == es + fs[..|fs| - 1];
      PlayConcat(s, es, fs[..|fs| - 1]);
    }
  }

  lemma PlayForward<D>(s: State<D>, es: seq<Event<D>>, fs: seq<Event<D>>)
    requires Inv(s)
    ensures Forward(Play(s, es), Play(s, es + fs))
  {
    PlayKeeps(s, es);
    PlayKeeps(Play(s, es), fs);
    PlayConcat(s, es, fs);
  }

  lemma InitialInv<D>(db: map<int, D>)
    ensures Inv(Initial(db))
  {
  }

  lemma RunInv<D>(db: map<int, D>, es: seq<Event<D>>)
    ensures Inv(Play(Initial(db), es)) && Play(Initial(db), es).db.Keys == db.Keys
  {
    InitialInv(db);
    PlayKeeps(Initial(db), es);
  }

  /** The submission a row holds only moves forward, and updates create no rows, over any interleaving. */
  lemma DatabaseNeverGoesBack<D>(db: map<int, D>, es: seq<Event<D>>, more: seq<Event<D>>)
    ensures Forward(Play(Initial(db), es), Play(Initial(db), es + more))
  {
    InitialInv(db);
    PlayForward(Initial(db), es, more);
  }

  /** What `es` submit for the user, with narrowed versions. */
  function Submissions<D>(es: seq<Event<D>>, user: int): seq<Submission<D>> {
    if es == [] then []
    else
      var before, last := Submissions(es[..|es| - 1], user), es[|es| - 1];
      if last.Submit? && last.update.user == user
      then before + [Submission(last.update.version % 0x1_0000, last.update.data)]
      else before
  }

  /** The numbers that entries, rows and acknowledgements carry count the updates submitted for the user. */
  lemma {:induction false} HistoryIsSubmitted<D>(db: map<int, D>, es: seq<Event<D>>, user: int)
    ensures History(Play(Initial(db), es), user) == Submissions(es, user)
    decreases |es|
  {
    if es != [] {
      HistoryIsSubmitted(db, es[..|es| - 1], user);
    }
  }

  lemma WritersApart<D>(s: State<D>)
    requires OneWriter(s)
    ensures forall i, j, u | i in s.jobs && j in s.jobs && u in s.jobs[i].users && u in s.jobs[j].users :: i == j
    ensures forall j, a, b | j in s.jobs && 0 <= a < b < |s.jobs[j].users| :: s.jobs[j].users[a] != s.jobs[j].users[b]
    ensures forall u :: u in s.pending <==> u in s.building || InFlight(s, u)
    ensures s.jobs == map[] && s.building == [] ==> s.pending == map[]
  {
    forall i, j, u | i in s.jobs && j in s.jobs && u in s.jobs[i].users && u in s.jobs[j].users ensures i == j {
      assert i != j ==> Apart(s.jobs[i].users, s.jobs[j].users);
    }
    forall j, a, b | j in s.jobs && 0 <= a < b < |s.jobs[j].users| ensures s.jobs[j].users[a] != s.jobs[j].users[b] {
      assert NoDuplicates(s.jobs[j].users);
    }
    forall u ensures u in s.pending <==> u in s.building || InFlight(s, u) {
      if InFlight(s, u) {
        var j :| j in s.jobs && u in s.jobs[j].users;
      }
    }
    if s.jobs == map[] && s.building == [] {
      assert forall u :: u !in s.pending;
    }
  }

  /** No two bulk writes for one user overlap, and nothing stays pending once nothing is in flight. */
  lemma OneWriterPerUser<D>(db: map<int, D>, es: seq<Event<D>>)
    ensures var s := Play(Initial(db), es);
            && (forall i, j, u | i in s.jobs && j in s.jobs && u in s.jobs[i].users && u in s.jobs[j].users :: i == j)
            && (forall j, a, b | j in s.jobs && 0 <= a < b < |s.jobs[j].users| ::
                  s.jobs[j].users[a] != s.jobs[j].users[b])
            && (forall u :: u in s.pending <==> u in s.building || InFlight(s, u))
            && (s.jobs == map[] && s.building == [] ==> s.pending == map[])
  {
    assert OneWriter(Play(Initial(db), es)) by { RunInv(db, es); }
    WritersApart(Play(Initial(db), es));
  }

  /** The row of `op`'s user holds what `op` carried. */
  ghost predicate Holds<D>(s: State<D>, op: Op<D>) {
    op.user in s.db && s.db[op.user] == Row(op.data, op.num)
  }

  /** One acknowledgement per user, in order, with what was copied for that user. */
  ghost predicate AcksFor<D>(acks: seq<Ack>, users: seq<int>, ops: seq<Op<D>>) {
    && |acks| == |users| == |ops|
    && (forall i | 0 <= i < |acks| :: acks[i] == Ack(users[i], ops[i].version, ops[i].num))
  }

  /** `acks'` adds to `acks` one acknowledgement per user of the batch, or none if the write failed. */
  ghost predicate Acknowledges<D>(acks: seq<Ack>, acks': seq<Ack>, job: Job<D>) {
    && acks <= acks'
    && if job.status == Done then AcksFor(acks'[|acks|..], job.users, job.ops) else acks' == acks
  }

  lemma NewAcks<D>(acks: seq<Ack>, ops: seq<Op<D>>)
    ensures (acks + AcksOf(ops))[|acks|..] == AcksOf(ops)
  {
  }

  lemma CompletedAcks<D>(s: State<D>, id: nat)
    requires JobsSound(s) && id in s.jobs && s.jobs[id].status != Running
    ensures Acknowledges(s.acks, Next(s, Event<D>.Complete(id)).acks, s.jobs[id])
  {
    var job := s.jobs[id];
    assert JobSound(s, job);
    NewAcks(s.acks, job.ops);
    if job.status == Done {
      forall i | 0 <= i < |job.ops|
        ensures AcksOf(job.ops)[i] == Ack(job.users[i], job.ops[i].version, job.ops[i].num)
      {
        assert OpSound(s, job, i);
      }
    }
  }

  /**
   * A completed job acknowledges each of its users once, in order, with the version of one of that user's submissions;
   * the row holds exactly that submission's data if and only if the user has a row at all. A failed job acknowledges
   * nothing.
   */
  lemma AcknowledgedIsStored<D>(db: map<int, D>, es: seq<Event<D>>, id: nat)
    requires var s := Play(Initial(db), es); id in s.jobs && s.jobs[id].status != Running
    ensures var s := Play(Initial(db), es);
            var s' := Next(s, Event<D>.Complete(id));
            var job := s.jobs[id];
            && Acknowledges(s.acks, s'.acks, job)
            && (job.status == Done ==>
                  && |job.ops| == |job.users|
                  && (forall i | 0 <= i < |job.users| ::
                        && job.ops[i].user == job.users[i]
                        && Recorded(s', job.ops[i].user, job.ops[i].version, job.ops[i].data, job.ops[i].num)
                        && (Holds(s', job.ops[i]) <==> job.ops[i].user in db)))
  {
    RunInv(db, es);
    var s := Play(Initial(db), es);
    var job := s.jobs[id];
    assert JobSound(s, job);
    CompletedAcks(s, id);
    if job.status == Done {
      forall i | 0 <= i < |job.ops|
        ensures job.ops[i].user == job.users[i]
        ensures Recorded(s, job.ops[i].user, job.ops[i].version, job.ops[i].data, job.ops[i].num)
        ensures Holds(s, job.ops[i]) <==> job.ops[i].user in db
      {
        assert OpSound(s, job, i);
      }
    }
  }

  /** After any later run the row still holds the acknowledged submission or a newer one. */
  lemma AcknowledgedIsNeverLost<D>(db: map<int, D>, es: seq<Event<D>>, i: nat)
    requires i < |Play(Initial(db), es).acks|
    ensures var s := Play(Initial(db), es);
            var a := s.acks[i];
            && a.num < |History(s, a.user)| && History(s, a.user)[a.num].version == a.version
            && (a.user in db ==> a.user in s.db && a.num <= s.db[a.user].num)
  {
    RunInv(db, es);
    assert AckSound(Play(Initial(db), es), Play(Initial(db), es).acks[i]);
  }

  // ---------------------------------------------------------------------------
  // A request from beginning to end

  function Submits<D>(updates: seq<Update<D>>): seq<Event<D>> {
    seq(|updates|, i requires 0 <= i < |updates| => Submit(updates[i]))
  }

  /** The users of a request that are not pending yet, each at its first place. */
  function Entering<D>(updates: seq<Update<D>>, pending: set<int>): seq<int> {
    if updates == [] then []
    else
      var before, user := Entering(updates[..|updates| - 1], pending), updates[|updates| - 1].user;
      if user in pending || user in before then before else before + [user]
  }

  lemma {:induction false} Entered<D>(s: State<D>, updates: seq<Update<D>>)
    requires s.building == []
    ensures var s' := Play(s, Submits(updates));
            && s'.building == Entering(updates, s.pending.Keys) && s'.jobs == s.jobs
            && (forall u :: u in s'.pending <==> u in s.pending || u in s'.building)
    decreases |updates|
  {
    if updates != [] {
      var init := updates[..|updates| - 1];
      Entered(s, init);
      assert Submits(updates)[..|updates| - 1] == Submits(init);
    }
  }

  /** A request posts one batch: exactly its users that were not pending before it, if there are any. */
  lemma RequestPosts<D>(s: State<D>, updates: seq<Update<D>>, id: nat)
    requires s.building == [] && id !in s.jobs
    ensures var s', users := Play(s, Submits(updates) + [Post(id)]), Entering(updates, s.pending.Keys);
            s'.building == [] && s'.jobs == if users == [] then s.jobs else s.jobs[id := Job(users, [], 0, Running)]
  {
    Entered(s, updates);
    PlayOne(s, Submits(updates), Post(id));
  }

  function Repeat<D>(e: Event<D>, n: nat): seq<Event<D>> {
    seq(n, _ => e)
  }

  lemma PlayRepeat<D>(s: State<D>, e: Event<D>, n: nat)
    requires n > 0
    ensures Play(s, Repeat(e, n)) == Next(Play(s, Repeat(e, n - 1)), e)
  {
    assert Repeat(e, n)[..n - 1] == Repeat(e, n - 1);
  }

  /** The batch as its entries stand now. */
  function Latest<D>(pending: map<int, Entry<D>>, users: seq<int>): (ops: seq<Op<D>>)
    requires forall i | 0 <= i < |users| :: users[i] in pending
    ensures |ops| == |users|
  {
    seq(|users|, i requires 0 <= i < |users| =>
      var e := pending[users[i]]; Op(users[i], e.version, e.data, e.num))
  }

  /** Job `id` was posted and nothing was done for it yet. */
  ghost predicate Posted<D>(s: State<D>, id: nat) {
    id in s.jobs && s.jobs[id].status == Running && s.jobs[id].ops == [] && s.jobs[id].applied == 0
  }

  ghost predicate Fresh<D>(s: State<D>, id: nat) {
    Posted(s, id) && forall i | 0 <= i < |s.jobs[id].users| :: s.jobs[id].users[i] in s.pending
  }

  /** The state with job `id` replaced. */
  function WithJob<D>(s: State<D>, id: nat, job: Job<D>): State<D> {
    s.(jobs := s.jobs[id := job])
  }

  lemma CopyStep<D>(s: State<D>, id: nat, job: Job<D>)
    requires job.status == Running && |job.ops| < |job.users| && job.users[|job.ops|] in s.pending
    ensures var e := s.pending[job.users[|job.ops|]];
            Next(WithJob(s, id, job), Event<D>.Copy(id)) ==
            WithJob(s, id, job.(ops := job.ops + [Op(job.users[|job.ops|], e.version, e.data, e.num)]))
  {
    var e := s.pending[job.users[|job.ops|]];
    var job' := job.(ops := job.ops + [Op(job.users[|job.ops|], e.version, e.data, e.num)]);
    assert s.jobs[id := job][id := job'] == s.jobs[id := job'];
  }

  lemma LatestOneMore<D>(pending: map<int, Entry<D>>, users: seq<int>, n: nat)
    requires n < |users| && forall i | 0 <= i < |users| :: users[i] in pending
    ensures var e := pending[users[n]];
            Latest(pending, users[..n + 1]) ==
            Latest(pending, users[..n]) + [Op(users[n], e.version, e.data, e.num)]
  {
  }

  lemma {:induction false} CopiesGoThrough<D>(s: State<D>, id: nat, n: nat)
    requires Fresh(s, id) && n <= |s.jobs[id].users|
    ensures var job := s.jobs[id];
            Play(s, Repeat(Event<D>.Copy(id), n)) == WithJob(s, id, job.(ops := Latest(s.pending, job.users[..n])))
    decreases n
  {
    var job := s.jobs[id];
    if n > 0 {
      CopiesGoThrough(s, id, n - 1);
      PlayRepeat(s, Event<D>.Copy(id), n);
      LatestOneMore(s.pending, job.users, n - 1);
      CopyStep(s, id, job.(ops := Latest(s.pending, job.users[..n - 1])));
    } else {
      assert WithJob(s, id, job) == s && Latest(s.pending, job.users[..0]) == job.ops;
    }
  }

  /** `db` holds the first `n` operations, and is `before` elsewhere. */
  ghost predicate Written<D>(before: map<int, Row<D>>, db: map<int, Row<D>>, ops: seq<Op<D>>, n: nat)
    requires n <= |ops|
  {
    && db.Keys == before.Keys
    && (forall i | 0 <= i < n && ops[i].user in db :: db[ops[i].user] == Row(ops[i].data, ops[i].num))
    && (forall u | u in db && (forall i | 0 <= i < n :: ops[i].user != u) :: db[u] == before[u])
  }

  function Stored<D>(db: map<int, Row<D>>, op: Op<D>): map<int, Row<D>> {
    if op.user in db then db[op.user := Row(op.data, op.num)] else db
  }

  ghost predicate DistinctUsers<D>(ops: seq<Op<D>>) {
    forall i, j | 0 <= i < j < |ops| :: ops[i].user != ops[j].user
  }

  lemma OneMoreWritten<D>(first: map<int, Row<D>>, db: map<int, Row<D>>, ops: seq<Op<D>>, n: nat)
    requires n < |ops| && Written(first, db, ops, n) && DistinctUsers(ops)
    ensures Written(first, Stored(db, ops[n]), ops, n + 1)
  {
    var db' := Stored(db, ops[n]);
    forall u | u in db' && (forall i | 0 <= i < n + 1 :: ops[i].user != u) ensures db'[u] == first[u] {
      assert ops[n].user != u;
    }
  }

  lemma ExecuteStep<D>(s: State<D>, id: nat, job: Job<D>, db: map<int, Row<D>>)
    requires Executing(job)
    ensures Next(WithJob(s, id, job).(db := db), Event<D>.Execute(id)) ==
            WithJob(s, id, job.(applied := job.applied + 1)).(db := Stored(db, job.ops[job.applied]))
  {
    var job' := job.(applied := job.applied + 1);
    assert s.jobs[id := job][id := job'] == s.jobs[id := job'];
  }

  lemma {:induction false} ExecutesGoThrough<D>(s: State<D>, id: nat, job: Job<D>, n: nat)
    requires job.status == Running && |job.ops| == |job.users| && job.applied == 0 && n <= |job.ops|
    requires DistinctUsers(job.ops)
    ensures var r := Play(WithJob(s, id, job), Repeat(Event<D>.Execute(id), n));
            r == WithJob(s, id, job.(applied := n)).(db := r.db) && Written(s.db, r.db, job.ops, n)
    decreases n
  {
    if n > 0 {
      ExecutesGoThrough(s, id, job, n - 1);
      PlayRepeat(WithJob(s, id, job), Event<D>.Execute(id), n);
      var db := Play(WithJob(s, id, job), Repeat(Event<D>.Execute(id), n - 1)).db;
      ExecuteStep(s, id, job.(applied := n - 1), db);
      OneMoreWritten(s.db, db, job.ops, n - 1);
    }
  }

  lemma FinishSteps<D>(s: State<D>, id: nat, job: Job<D>)
    requires job.status == Running && job.applied == |job.users| == |job.ops|
    ensures var r := WithJob(s, id, job);
            Next(Next(r, Event<D>.Succeed(id)), Event<D>.Complete(id)) ==
            s.(jobs := s.jobs - {id}, pending := s.pending - (set u | u in job.users), acks := s.acks + AcksOf(job.ops))
  {
    var done := Next(WithJob(s, id, job), Event<D>.Succeed(id));
    assert done.jobs[id] == job.(status := Done);
    assert done.jobs - {id} == s.jobs - {id};
  }

  /** The pool thread's whole work on a batch when nothing fails. */
  function Undisturbed<D>(id: nat, n: nat): seq<Event<D>> {
    Repeat(Copy(id), n) + Repeat(Execute(id), n) + [Succeed(id)] + [Complete(id)]
  }

  lemma PlayUndisturbed<D>(s: State<D>, id: nat, n: nat)
    ensures var worked := Play(Play(s, Repeat(Event<D>.Copy(id), n)), Repeat(Event<D>.Execute(id), n));
            Play(s, Undisturbed(id, n)) == Next(Next(worked, Event<D>.Succeed(id)), Event<D>.Complete(id))
  {
    var copies, executes := Repeat(Event<D>.Copy(id), n), Repeat(Event<D>.Execute(id), n);
    PlayConcat(s, copies, executes);
    PlayOne(s, copies + executes, Succeed(id));
    PlayOne(s, copies + executes + [Succeed(id)], Complete(id));
  }

  lemma WorkedOff<D>(s: State<D>, id: nat)
    requires Fresh(s, id) && NoDuplicates(s.jobs[id].users)
    ensures var users := s.jobs[id].users;
            var s', ops := Play(s, Undisturbed(id, |users|)), Latest(s.pending, users);
            && s' == State(s.pending - (set u | u in users), s.building, s.jobs - {id}, s'.db, s.history,
                           s.acks + AcksOf(ops))
            && Written(s.db, s'.db, ops, |users|)
  {
    var job := s.jobs[id];
    var n, ops := |job.users|, Latest(s.pending, job.users);
    PlayUndisturbed(s, id, n);
    CopiesGoThrough(s, id, n);
    assert job.users[..n] == job.users;
    assert DistinctUsers(ops);
    ExecutesGoThrough(s, id, job.(ops := ops), n);
    var r := Play(WithJob(s, id, job.(ops := ops)), Repeat(Event<D>.Execute(id), n));
    FinishSteps(s.(db := r.db), id, job.(ops := ops, applied := n));
  }

  lemma PostedIsFresh<D>(s: State<D>, id: nat)
    requires OneWriter(s) && Posted(s, id)
    ensures Fresh(s, id) && NoDuplicates(s.jobs[id].users)
  {
    var users := s.jobs[id].users;
    forall i | 0 <= i < |users| ensures users[i] in s.pending {
      var u := users[i];
      assert u in s.jobs[id].users;
    }
  }

  /**
   * In every run a batch that is worked off undisturbed leaves each of its users' latest submission in the row, if
   * there is one, acknowledges every user with that submission's version, in order, and touches nobody else.
   */
  lemma BatchGoesThrough<D>(db: map<int, D>, es: seq<Event<D>>, id: nat)
    requires Posted(Play(Initial(db), es), id)
    ensures var s := Play(Initial(db), es);
            var users := s.jobs[id].users;
            var s' := Play(s, Undisturbed(id, |users|));
            && Fresh(s, id)
            && s'.jobs == s.jobs - {id} && s'.pending == s.pending - (set u | u in users)
            && s.acks <= s'.acks && AcksFor(s'.acks[|s.acks|..], users, Latest(s.pending, users))
            && Written(s.db, s'.db, Latest(s.pending, users), |users|)
  {
    var s := Play(Initial(db), es);
    assert OneWriter(s) by { RunInv(db, es); }
    PostedIsFresh(s, id);
    WorkedOff(s, id);
    NewAcks(s.acks, Latest(s.pending, s.jobs[id].users));
  }

  /** The pool thread's work on a batch whose bulk write fails after `m` operations. */
  function Interrupted<D>(id: nat, n: nat, m: nat): seq<Event<D>> {
    Repeat(Copy(id), n) + Repeat(Execute(id), m) + [Fail(id)] + [Complete(id)]
  }

  lemma PlayInterrupted<D>(s: State<D>, id: nat, n: nat, m: nat)
    ensures var worked := Play(Play(s, Repeat(Event<D>.Copy(id), n)), Repeat(Event<D>.Execute(id), m));
            Play(s, Interrupted(id, n, m)) == Next(Next(worked, Event<D>.Fail(id)), Event<D>.Complete(id))
  {
    var copies, executes := Repeat(Event<D>.Copy(id), n), Repeat(Event<D>.Execute(id), m);
    PlayConcat(s, copies, executes);
    PlayOne(s, copies + executes, Fail(id));
    PlayOne(s, copies + executes + [Fail(id)], Complete(id));
  }

  lemma FailSteps<D>(s: State<D>, id: nat, job: Job<D>)
    requires job.status == Running
    ensures var r := WithJob(s, id, job);
            Next(Next(r, Event<D>.Fail(id)), Event<D>.Complete(id)) ==
            s.(jobs := s.jobs - {id}, pending := s.pending - (set u | u in job.users))
  {
    var failed := Next(WithJob(s, id, job), Event<D>.Fail(id));
    assert failed.jobs[id] == job.(status := Failed);
    assert failed.jobs - {id} == s.jobs - {id};
  }

  lemma BrokenOff<D>(s: State<D>, id: nat, m: nat)
    requires Fresh(s, id) && NoDuplicates(s.jobs[id].users) && m <= |s.jobs[id].users|
    ensures var users := s.jobs[id].users;
            var s' := Play(s, Interrupted(id, |users|, m));
            && s' == State(s.pending - (set u | u in users), s.building, s.jobs - {id}, s'.db, s.history, s.acks)
            && Written(s.db, s'.db, Latest(s.pending, users), m)
  {
    var job := s.jobs[id];
    var n, ops := |job.users|, Latest(s.pending, job.users);
    PlayInterrupted(s, id, n, m);
    CopiesGoThrough(s, id, n);
    assert job.users[..n] == job.users;
    assert DistinctUsers(ops);
    ExecutesGoThrough(s, id, job.(ops := ops), m);
    var r := Play(WithJob(s, id, job.(ops := ops)), Repeat(Event<D>.Execute(id), m));
    FailSteps(s.(db := r.db), id, job.(ops := ops, applied := m));
  }

  /**
   * In every run a batch whose bulk write fails after `m` operations leaves exactly those in the rows, acknowledges
   * nobody, and leaves none of its users pending: their next update enters a new batch.
   */
  lemma BatchFails<D>(db: map<int, D>, es: seq<Event<D>>, id: nat, m: nat)
    requires Posted(Play(Initial(db), es), id) && m <= |Play(Initial(db), es).jobs[id].users|
    ensures var s := Play(Initial(db), es);
            var users := s.jobs[id].users;
            var s' := Play(s, Interrupted(id, |users|, m));
            && Fresh(s, id)
            && s'.jobs == s.jobs - {id} && s'.pending == s.pending - (set u | u in users) && s'.acks == s.acks
            && Written(s.db, s'.db, Latest(s.pending, users), m)
  {
    var s := Play(Initial(db), es);
    assert OneWriter(s) by { RunInv(db, es); }
    PostedIsFresh(s, id);
    BrokenOff(s, id, m);
  }

  /** The narrowed versions of the user's submissions from `num` on are pairwise different. */
  ghost predicate VersionsDistinct<D>(s: State<D>, user: int, num: nat) {
    forall i, j | num <= i < j < |History(s, user)| :: History(s, user)[i].version != History(s, user)[j].version
  }

  lemma CopiedIsRecorded<D>(s: State<D>, id: nat, i: nat)
    requires JobsSound(s) && id in s.jobs && i < |s.jobs[id].ops|
    ensures var op := s.jobs[id].ops[i]; Recorded(s, op.user, op.version, op.data, op.num)
  {
    assert JobSound(s, s.jobs[id]) && OpSound(s, s.jobs[id], i);
  }

  /**
   * While the versions that coexist are distinct, the acknowledged version equals the latest submitted one
   * exactly when no update was merged after the copy.
   */
  lemma LateMergeShows<D>(db: map<int, D>, es: seq<Event<D>>, id: nat, i: nat)
    requires var s := Play(Initial(db), es);
             id in s.jobs && s.jobs[id].status == Done && i < |s.jobs[id].ops|
    requires var s := Play(Initial(db), es);
             VersionsDistinct(s, s.jobs[id].ops[i].user, s.jobs[id].ops[i].num)
    ensures var s := Play(Initial(db), es);
            var op := s.jobs[id].ops[i];
            var past := History(s, op.user);
            && op.num < |past|
            && (op.version == past[|past| - 1].version <==> op.num == |past| - 1)
  {
    assert JobsSound(Play(Initial(db), es)) by { RunInv(db, es); }
    CopiedIsRecorded(Play(Initial(db), es), id, i);
  }

  /** The logic service numbers a user's submissions consecutively. */
  ghost predicate Consecutive<D>(s: State<D>, user: int, first: int) {
    forall i | 0 <= i < |History(s, user)| :: History(s, user)[i].version == U16(first + i)
  }

  lemma SameNarrowed(x: int, y: int)
    ensures U16(x) == U16(y) <==> (y - x) % 0x1_0000 == 0
  {
    assert x == x / 0x1_0000 * 0x1_0000 + U16(x);
    assert y == y / 0x1_0000 * 0x1_0000 + U16(y);
    assert y - x == (y / 0x1_0000 - x / 0x1_0000) * 0x1_0000 + (U16(y) - U16(x));
  }

  lemma HiddenExactly<D>(s: State<D>, id: nat, i: nat, first: int)
    requires JobsSound(s) && id in s.jobs && i < |s.jobs[id].ops| && Consecutive(s, s.jobs[id].ops[i].user, first)
    ensures var op := s.jobs[id].ops[i];
            var past := History(s, op.user);
            && op.num < |past|
            && (op.version == past[|past| - 1].version <==> (|past| - 1 - op.num) % 0x1_0000 == 0)
  {
    CopiedIsRecorded(s, id, i);
    var op := s.jobs[id].ops[i];
    var last := |History(s, op.user)| - 1;
    assert History(s, op.user)[op.num].version == U16(first + op.num);
    assert History(s, op.user)[last].version == U16(first + last);
    SameNarrowed(first + op.num, first + last);
  }

  /**
   * With consecutive versions, acknowledging the latest version number hides a merged update exactly when the
   * number of updates merged after the copy is a positive multiple of 65536.
   */
  lemma LateMergeHiddenExactly<D>(db: map<int, D>, es: seq<Event<D>>, id: nat, i: nat, first: int)
    requires var s := Play(Initial(db), es);
             id in s.jobs && s.jobs[id].status == Done && i < |s.jobs[id].ops|
             && Consecutive(s, s.jobs[id].ops[i].user, first)
    ensures var s := Play(Initial(db), es);
            var op := s.jobs[id].ops[i];
            var past := History(s, op.user);
            && op.num < |past|
            && (op.version == past[|past| - 1].version <==> (|past| - 1 - op.num) % 0x1_0000 == 0)
  {
    assert JobsSound(Play(Initial(db), es)) by { RunInv(db, es); }
    HiddenExactly(Play(Initial(db), es), id, i, first);
  }

  /** A run in which an update is merged after the copy and carries the copied version plus 65536. */
  function LateRun(): seq<Event<int>> {
    [Submit(Update(7, 1, 10)), Post(0), Copy(0), Submit(Update(7, 65537, 20)), Execute(0), Succeed(0), Complete(0)]
  }

  /** The states along that run; the last one is reached after the acknowledgement. */
  function LateState(n: nat): State<int>
    requires n <= 7
  {
    var first, both := map[7 := [Submission(1, 10)]], map[7 := [Submission(1, 10), Submission(1, 20)]];
    var ops := [Op(7, 1, 10, 0)];
    var one, two := map[7 := Entry(1, 10, 0)], map[7 := Entry(1, 20, 1)];
    var before, written := map[7 := Row(0, -1)], map[7 := Row(10, 0)];
    if n == 0 then Initial(map[7 := 0])
    else if n == 1 then State(one, [7], map[], before, first, [])
    else if n == 2 then State(one, [], map[0 := Job([7], [], 0, Running)], before, first, [])
    else if n == 3 then State(one, [], map[0 := Job([7], ops, 0, Running)], before, first, [])
    else if n == 4 then State(two, [], map[0 := Job([7], ops, 0, Running)], before, both, [])
    else if n == 5 then State(two, [], map[0 := Job([7], ops, 1, Running)], written, both, [])
    else if n == 6 then State(two, [], map[0 := Job([7], ops, 1, Done)], written, both, [])
    else State(map[], [], map[], written, both, [Ack(7, 1, 0)])
  }

  lemma LateStepUntilCopy(n: nat)
    requires n < 3
    ensures Next(LateState(n), LateRun()[n]) == LateState(n + 1)
  {
    var s, s' := LateState(n), LateState(n + 1);
    if n == 0 {
      assert s.db == s'.db;
      assert s.building + [7] == s'.building && History(s, 7) + [Submission(1, 10)] == [Submission(1, 10)];
    } else if n == 2 {
      assert s.jobs[0].ops + s'.jobs[0].ops == s'.jobs[0].ops;
      assert s.jobs[0 := s'.jobs[0]] == s'.jobs;
    }
  }

  lemma LateStepAfterCopy(n: nat)
    requires 3 <= n < 7
    ensures Next(LateState(n), LateRun()[n]) == LateState(n + 1)
  {
    var s, s' := LateState(n), LateState(n + 1);
    if n == 3 {
      assert [Submission(1, 10)] + [Submission(1, 20)] == s'.history[7];
    } else if n == 6 {
      assert AcksOf(s.jobs[0].ops) == [Ack(7, 1, 0)];
      assert 7 in s.jobs[0].users;
      assert s.pending - (set u | u in s.jobs[0].users) == s'.pending;
    } else {
      assert s.jobs[0 := s'.jobs[0]] == s'.jobs;
    }
  }

  lemma LateStep(n: nat)
    requires n < 7
    ensures Next(LateState(n), LateRun()[n]) == LateState(n + 1)
  {
    if n < 3 {
      LateStepUntilCopy(n);
    } else {
      LateStepAfterCopy(n);
    }
  }

  lemma {:induction false} LateRunReaches(n: nat)
    requires n <= 7
    ensures Play(Initial(map[7 := 0]), LateRun()[..n]) == LateState(n)
  {
    if n > 0 {
      LateRunReaches(n - 1);
      LateStep(n - 1);
      assert LateRun()[..n] == LateRun()[..n - 1] + [LateRun()[n - 1]];
      PlayOne(Initial(map[7 := 0]), LateRun()[..n - 1], LateRun()[n - 1]);
    }
  }

  /** Distinctness is needed: versions 65536 apart are narrowed alike and hide a merged update. */
  lemma WrappedVersionHidesUpdate()
    ensures var s := Play(Initial(map[7 := 0]), LateRun());
            && s.acks == [Ack(7, 1, 0)]
            && History(s, 7) == [Submission(1, 10), Submission(1, 20)]
            && s.db == map[7 := Row(10, 0)] && s.pending == map[]
  {
    LateRunReaches(7);
    assert LateRun()[..7] == LateRun();
  }

  // ---------------------------------------------------------------------------
  // The program

  /** The first `n` copies of job `id`, each after the scheduler merged some updates. */
  function Woven<D>(merges: seq<seq<Update<D>>>, id: nat, n: nat): seq<Event<D>>
    requires n <= |merges|
  {
    if n == 0 then [] else Woven(merges, id, n - 1) + Submits(merges[n - 1]) + [Copy(id)]
  }

  class DbProxy<D> {
    var pending: map<int, Entry<D>>
    var building: seq<int>
    var jobs: map<nat, Job<D>>
    ghost var db: map<int, Row<D>>
    var history: map<int, seq<Submission<D>>>
    var acks: seq<Ack>

    ghost function Value(): State<D>
      reads this
    {
      State(pending, building, jobs, db, history, acks)
    }

    constructor (rows: map<int, D>)
      ensures Inv(Value()) && Value() == Initial(rows)
    {
      pending, building, jobs := map[], [], map[];
      db := map u | u in rows :: Row(rows[u], -1);
      history, acks := map[], [];
    }

    /** One element: merge it into the user's pending entry, or enter it. */
    method SubmitOne(u: Update<D>)
      modifies this
      ensures Value() == Next(old(Value()), Submit(u)) && jobs == old(jobs) && old(pending).Keys <= pending.Keys
    {
      var past := if u.user in history then history[u.user] else [];
      history := history[u.user := past + [Submission(U16(u.version), u.data)]];
      var found := u.user in pending;
      pending := pending[u.user := Entry(U16(u.version), u.data, |past|)];
      if !found {
        building := building + [u.user];
      }
    }

    /** All elements of a request in turn. */
    method Merge(updates: seq<Update<D>>)
      modifies this
      ensures Value() == Play(old(Value()), Submits(updates))
      ensures jobs == old(jobs) && old(pending).Keys <= pending.Keys
    {
      ghost var es := Submits(updates);
      for i := 0 to |updates|
        invariant Value() == Play(old(Value()), es[..i])
        invariant jobs == old(jobs) && old(pending).Keys <= pending.Keys
      {
        SubmitOne(updates[i]);
        PlayOne(old(Value()), es[..i], es[i]);
        assert es[..i + 1] == es[..i] + [es[i]];
      }
      assert es[..|updates|] == es;
    }

    /** The scheduler's half of a request: merge or enter each element, then post the new ones as job `id`. */
    method Request(updates: seq<Update<D>>, id: nat)
      requires Inv(Value()) && building == [] && id !in jobs
      modifies this
      ensures Value() == Play(old(Value()), Submits(updates) + [Post(id)])
      ensures Inv(Value()) && building == []
    {
      PlayKeeps(Value(), Submits(updates));
      Merge(updates);
      PlayOne(old(Value()), Submits(updates), Post(id));
      NextKeeps(Value(), Post(id));
      if building != [] {
        jobs := jobs[id := Job(building, [], 0, Running)];
        building := [];
      }
    }

    /** One turn of the pool thread's copying loop: one entry, under its lock. */
    method CopyNext(id: nat)
      requires Inv(Value()) && id in jobs && jobs[id].status == Running && |jobs[id].ops| < |jobs[id].users|
      modifies `jobs
      ensures Value() == Next(old(Value()), Copy(id)) && Inv(Value())
      ensures id in jobs && jobs[id] == old(jobs[id]).(ops := jobs[id].ops) && |jobs[id].ops| == |old(jobs[id]).ops| + 1
    {
      NextKeeps(Value(), Copy(id));
      var job := jobs[id];
      var user := job.users[|job.ops|];
      assert user in job.users;
      var entry := pending[user];
      jobs := jobs[id := job.(ops := job.ops + [Op(user, entry.version, entry.data, entry.num)])];
    }

    /** The whole copying loop; `merges[i]` is what the scheduler merges before the `i`th entry is copied. */
    method CopyAll(id: nat, merges: seq<seq<Update<D>>>)
      requires Inv(Value()) && id in jobs && jobs[id].status == Running && jobs[id].ops == []
      requires |merges| == |jobs[id].users|
      modifies this
      ensures Value() == Play(old(Value()), Woven(merges, id, |merges|)) && Inv(Value())
      ensures id in jobs && jobs[id].users == old(jobs[id]).users && |jobs[id].ops| == |jobs[id].users|
    {
      ghost var s := Value();
      for i := 0 to |merges|
        invariant Value() == Play(s, Woven(merges, id, i)) && Inv(Value())
        invariant id in jobs && jobs[id].status == Running
        invariant jobs[id].users == old(jobs[id]).users && |jobs[id].ops| == i
      {
        ghost var es := Woven(merges, id, i);
        PlayKeeps(Value(), Submits(merges[i]));
        Merge(merges[i]);
        PlayConcat(s, es, Submits(merges[i]));
        PlayOne(s, es + Submits(merges[i]), Copy(id));
        CopyNext(id);
      }
    }

    method Close(id: nat)
      requires id in jobs && jobs[id].status != Running
      modifies this
      ensures Value() == Next(old(Value()), Complete(id))
    {
      var job := jobs[id];
      for i := 0 to |job.users|
        invariant pending == old(pending) - (set u | u in job.users[..i])
        invariant unchanged(`building) && unchanged(`jobs) && unchanged(`db) && unchanged(`history) && unchanged(`acks)
      {
        assert job.users[..i + 1] == job.users[..i] + [job.users[i]];
        pending := pending - {job.users[i]};
      }
      assert job.users[..|job.users|] == job.users;
      jobs := jobs - {id};
      if job.status == Done {
        acks := acks + AcksOf(job.ops);
      }
    }

    /** The scheduler's last section: erase the batch, then acknowledge what was copied unless the write failed. */
    method Finish(id: nat)
      requires Inv(Value()) && id in jobs && jobs[id].status != Running
      modifies this
      ensures Value() == Next(old(Value()), Complete(id)) && Inv(Value())
      ensures Acknowledges(old(acks), acks, old(jobs[id]))
    {
      NextKeeps(Value(), Complete(id));
      CompletedAcks(Value(), id);
      Close(id);
    }
  }
}
