/** What the notes a gate wrote to one connection say about its services, and about the gate's own list. */
module GateNotes {
  import opened RegistryMessages
  import opened Subscriptions

  // ---------------------------------------------------------------------------
  // What the infos of one type say about one id

  /** The last word on service `x` of type `t`. */
  function Last(infos: seq<ServiceInfo>, t: Id, x: Id): Option<bool> {
    if infos == [] then None
    else
      var info := infos[|infos| - 1];
      if U16(info.tp) == t && U16(info.id) == x then Some(info.online) else Last(infos[..|infos| - 1], t, x)
  }

  /** Whether a list shows `x` online, if it shows it at all. */
  function Lookup(list: seq<Entry>, x: Id): Option<bool> {
    var i := Find(Ids(list), x);
    if i < |list| then Some(list[i].online) else None
  }

  function Else<T>(a: Option<T>, b: Option<T>): Option<T> {
    if a.Some? then a else b
  }

  lemma FindAfterPut(list: seq<Entry>, e: Entry, x: Id)
    ensures var i, n := Find(Ids(list), x), Find(Ids(Put(list, e)), x);
            n == if e.id == x || i < |list| then i else |list| + (if Find(Ids(list), e.id) < |list| then 0 else 1)
  {
    var ids, ids' := Ids(list), Ids(Put(list, e));
    assert forall k | 0 <= k < |list| :: ids'[k] == ids[k];
    assert |ids'| > |list| ==> ids'[|list|] == e.id;
  }

  lemma LookupPut(list: seq<Entry>, e: Entry, x: Id)
    ensures Lookup(Put(list, e), x) == if x == e.id then Some(e.online) else Lookup(list, x)
  {
    FindAfterPut(list, e, x);
    FindAfterPut(list, e, e.id);
  }

  /** A list after hearing `infos` shows the last word on each id, or what it showed before. */
  lemma {:induction false} LookupHeard(list: seq<Entry>, t: Id, infos: seq<ServiceInfo>, x: Id)
    ensures Lookup(HeardAll(list, t, infos), x) == Else(Last(infos, t, x), Lookup(list, x))
    decreases |infos|
  {
    if infos != [] {
      var init, info := infos[..|infos| - 1], infos[|infos| - 1];
      LookupHeard(list, t, init, x);
      if U16(info.tp) == t {
        LookupPut(HeardAll(list, t, init), Entry(U16(info.id), info.online), x);
      }
    }
  }

  lemma {:induction false} LastConcat(xs: seq<ServiceInfo>, ys: seq<ServiceInfo>, t: Id, x: Id)
    ensures Last(xs + ys, t, x) == Else(Last(ys, t, x), Last(xs, t, x))
    decreases |ys|
  {
    if ys == [] {
      assert xs + ys == xs;
    } else {
      assert (xs + ys)[..|xs + ys| - 1] == xs + ys[..|ys| - 1];
      LastConcat(xs, ys[..|ys| - 1], t, x);
    }
  }

  /** The infos as list entries. */
  function Entries(infos: seq<ServiceInfo>): seq<Entry> {
    seq(|infos|, i requires 0 <= i < |infos| => Entry(U16(infos[i].id), infos[i].online))
  }

  ghost predicate AllOfType(infos: seq<ServiceInfo>, t: Id) {
    forall i | 0 <= i < |infos| :: U16(infos[i].tp) == t
  }

  lemma LookupEntries(infos: seq<ServiceInfo>, t: Id, x: Id)
    requires AllOfType(infos, t) && DistinctIds(Entries(infos))
    ensures Lookup(Entries(infos), x) == Last(infos, t, x)
  {
    HeardFirst(infos, t, Entries(infos));
    LookupHeard([], t, infos, x);
  }

  lemma PutKeepsIds(list: seq<Entry>, e: Entry)
    ensures Ids(list) <= Ids(Put(list, e))
  {
    assert forall k | 0 <= k < |list| :: Ids(Put(list, e))[k] == Ids(list)[k];
  }

  lemma {:induction false} HeardKeepsIds(list: seq<Entry>, t: Id, infos: seq<ServiceInfo>)
    ensures Ids(list) <= Ids(HeardAll(list, t, infos))
    decreases |infos|
  {
    if infos != [] {
      var init, info := infos[..|infos| - 1], infos[|infos| - 1];
      HeardKeepsIds(list, t, init);
      PutKeepsIds(HeardAll(list, t, init), Entry(U16(info.id), info.online));
    }
  }

  /** The broadcasts among `notes[i..n]`. */
  function Broadcasts(notes: seq<Note>, i: nat, n: nat): seq<ServiceInfo>
    requires i <= n <= |notes|
  {
    if n == i then []
    else if notes[n - 1].SubscribeBrd? then Broadcasts(notes, i, n - 1) + [notes[n - 1].service]
    else Broadcasts(notes, i, n - 1)
  }

  lemma {:induction false} BroadcastsPrefix(notes: seq<Note>, more: seq<Note>, i: nat, n: nat)
    requires notes <= more && i <= n <= |notes|
    ensures Broadcasts(more, i, n) == Broadcasts(notes, i, n)
    decreases n
  {
    if i < n {
      BroadcastsPrefix(notes, more, i, n - 1);
    }
  }

  lemma {:induction false} BroadcastsSplit(notes: seq<Note>, i: nat, m: nat, n: nat)
    requires i <= m <= n <= |notes|
    ensures Broadcasts(notes, i, n) == Broadcasts(notes, i, m) + Broadcasts(notes, m, n)
    decreases n
  {
    if m < n {
      BroadcastsSplit(notes, i, m, n - 1);
    }
  }

  // ---------------------------------------------------------------------------
  // The gate's list, told from what it wrote to one connection

  predicate IsAck(notes: seq<Note>, i: int, t: Id) {
    0 <= i < |notes| && notes[i].SubscribeAck? && notes[i].ok && notes[i].tp == t
  }

  /** The gate's list of `t` is acknowledgement `i` followed by the broadcasts written since. */
  ghost predicate SinceAck(s: Listener, c: nat, t: Id, i: int)
    requires IsAck(List(s.log, c), i, t)
  {
    var notes := List(s.log, c);
    && AllOfType(notes[i].services, t)
    && (c in s.conns && s.conns[c].live ==> t in s.conns[c].subscribe)
    && (c in s.conns && s.conns[c].live && DistinctIds(Listing(s, t)) ==>
          Listing(s, t) == HeardAll(Entries(notes[i].services), t, Broadcasts(notes, i + 1, |notes|)))
  }

  ghost predicate Tracked(s: Listener) {
    forall c: nat, t: Id, i: int | IsAck(List(s.log, c), i, t) :: SinceAck(s, c, t, i)
  }

  lemma HeardMore(list: seq<Entry>, t: Id, infos: seq<ServiceInfo>, info: ServiceInfo)
    ensures HeardAll(list, t, infos + [info]) == Heard(HeardAll(list, t, infos), t, info)
  {
    assert (infos + [info])[..|infos + [info]| - 1] == infos;
  }

  lemma BroadcastsSince(notes: seq<Note>, i: nat, note: Note)
    requires i <= |notes|
    ensures Broadcasts(notes + [note], i, |notes| + 1) ==
            if note.SubscribeBrd? then Broadcasts(notes, i, |notes|) + [note.service] else Broadcasts(notes, i, |notes|)
  {
    BroadcastsPrefix(notes, notes + [note], i, |notes|);
  }

  /** The same connection in both states, as far as its subscriptions go. */
  ghost predicate SameConn(s: Listener, s': Listener, c: nat) {
    && (c in s.conns <==> c in s'.conns)
    && (c in s.conns ==> s'.conns[c].live == s.conns[c].live && s'.conns[c].subscribe == s.conns[c].subscribe)
  }

  /** The change of the list that a broadcast of `v` tells of. */
  ghost predicate Moves(l: seq<Entry>, l': seq<Entry>, t: Id, v: Service) {
    if t != v.tp then l' == l
    else DistinctIds(l') ==> DistinctIds(l) && l' == Put(l, Entry(v.id, v.online))
  }

  lemma HeardMoves(entries: seq<Entry>, t: Id, infos: seq<ServiceInfo>, v: Service, l: seq<Entry>, l': seq<Entry>)
    requires Moves(l, l', t, v)
    requires DistinctIds(l) ==> l == HeardAll(entries, t, infos)
    requires DistinctIds(l')
    ensures l' == HeardAll(entries, t, infos + [InfoOf(v)])
  {
    HeardMore(entries, t, infos, InfoOf(v));
  }

  /** One more broadcast brings the change it tells of into the list. */
  lemma SinceTold(s: Listener, u: Listener, c: nat, t: Id, i: nat, v: Service)
    requires IsAck(List(s.log, c), i, t) && SinceAck(s, c, t, i) && SameConn(s, u, c)
    requires List(u.log, c) == List(s.log, c) + [SubscribeBrd(InfoOf(v))]
    requires Moves(Listing(s, t), Listing(u, t), t, v)
    ensures IsAck(List(u.log, c), i, t) && SinceAck(u, c, t, i)
  {
    var notes, notes' := List(s.log, c), List(u.log, c);
    var infos := Broadcasts(notes, i + 1, |notes|);
    assert notes'[i] == notes[i];
    BroadcastsSince(notes, i + 1, SubscribeBrd(InfoOf(v)));
    if c in s.conns && s.conns[c].live && DistinctIds(Listing(u, t)) {
      HeardMoves(Entries(notes[i].services), t, infos, v, Listing(s, t), Listing(u, t));
    }
  }

  lemma SinceUpdate(s: Listener, s': Listener, j: nat, c: nat, t: Id, i: nat)
    requires Announces(s, s', j) && IsAck(List(s.log, c), i, t) && SinceAck(s, c, t, i)
    ensures IsAck(List(Update(s', j).log, c), i, t) && SinceAck(Update(s', j), c, t, i)
  {
    var u := Update(s', j);
    assert Shows(s, s', j, t);
    assert Listing(u, t) == Listing(s', t);
    UpdateReaches(s', j, c);
    if c in s.conns && s.conns[c].live && s'.services[j].tp in s.conns[c].subscribe {
      SinceTold(s, u, c, t, i, s'.services[j]);
    } else {
      assert c in s.conns && s.conns[c].live ==> t != s'.services[j].tp;
      assert c in u.conns && u.conns[c].live ==> Listing(u, t) == Listing(s, t);
    }
  }

  /** No acknowledgement was there before that is not there now. */
  lemma AnnouncedTracked(s: Listener, s': Listener, j: nat)
    requires Announces(s, s', j) && Tracked(s)
    ensures Tracked(Update(s', j))
  {
    forall c: nat, t: Id, i: int | IsAck(List(Update(s', j).log, c), i, t) ensures SinceAck(Update(s', j), c, t, i) {
      UpdateReaches(s', j, c);
      assert IsAck(List(s.log, c), i, t);
      SinceUpdate(s, s', j, c, t, i);
    }
  }

  lemma ForgetTracked(s: Listener, c: nat)
    requires Tracked(s) && c in s.conns
    ensures Tracked(Forget(s, c))
  {
    forall x: nat, t: Id, i: int | IsAck(List(Forget(s, c).log, x), i, t) ensures SinceAck(Forget(s, c), x, t, i) {
      assert IsAck(List(s.log, x), i, t) && SinceAck(s, x, t, i);
      assert Listing(Forget(s, c), t) == Listing(s, t);
    }
  }

  lemma InfosAreListing(s: Listener, t: Id)
    requires Inv(s)
    ensures Entries(Infos(s, t)) == Listing(s, t) && AllOfType(Infos(s, t), t)
  {
  }

  /** A new acknowledgement, or one more note that is no broadcast. */
  lemma SinceNoted(s: Listener, s': Listener, c: nat, note: Note, t: Id, i: nat)
    requires IsAck(List(s.log, c), i, t) && SinceAck(s, c, t, i) && !note.SubscribeBrd?
    requires List(s'.log, c) == List(s.log, c) + [note] && Listing(s', t) == Listing(s, t)
    requires c in s'.conns && s'.conns[c].live ==> c in s.conns && s.conns[c].live
    requires c in s'.conns && c in s.conns ==> forall u | u in s.conns[c].subscribe :: u in s'.conns[c].subscribe
    ensures IsAck(List(s'.log, c), i, t) && SinceAck(s', c, t, i)
  {
    BroadcastsSince(List(s.log, c), i + 1, note);
    assert List(s'.log, c)[i] == List(s.log, c)[i];
  }

  lemma SubscribedTracked(s: Listener, c: nat, t: Id)
    requires Inv(s) && Tracked(s) && c in s.conns && s.conns[c].live
    ensures Tracked(Subscribed(s, c, t))
  {
    var s', note := Subscribed(s, c, t), SubscribeAck(true, t, Infos(s, t));
    forall x: nat, u: Id, i: int | IsAck(List(s'.log, x), i, u) ensures SinceAck(s', x, u, i) {
      assert Listing(s', u) == Listing(s, u);
      if x != c {
        assert IsAck(List(s.log, x), i, u) && SinceAck(s, x, u, i);
      } else if i < |List(s.log, c)| {
        assert IsAck(List(s.log, c), i, u) && SinceAck(s, c, u, i);
        SinceNoted(s, s', c, note, u, i);
      } else {
        InfosAreListing(s, t);
        assert Broadcasts(List(s'.log, c), i + 1, i + 1) == [];
      }
    }
  }

  lemma RefusedTracked(s: Listener, c: nat, t: Id)
    requires Tracked(s) && c in s.conns
    ensures Tracked(s.(log := Append(s.log, c, SubscribeAck(false, t, []))))
  {
    var s' := s.(log := Append(s.log, c, SubscribeAck(false, t, [])));
    forall x: nat, u: Id, i: int | IsAck(List(s'.log, x), i, u) ensures SinceAck(s', x, u, i) {
      assert Listing(s', u) == Listing(s, u);
      assert IsAck(List(s.log, x), i, u) && SinceAck(s, x, u, i);
      if x == c {
        SinceNoted(s, s', c, SubscribeAck(false, t, []), u, i);
      }
    }
  }

  lemma AcceptTracked(s: Listener, c: nat)
    requires Inv(s) && AllFollow(s) && Tracked(s)
    ensures Tracked(Next(s, Accept(c)))
  {
    var s' := Next(s, Accept(c));
    forall x: nat, u: Id, i: int | IsAck(List(s'.log, x), i, u) ensures SinceAck(s', x, u, i) {
      assert Follows(s, x, u) && IsAck(List(s.log, x), i, u) && SinceAck(s, x, u, i);
      assert Listing(s', u) == Listing(s, u);
    }
  }

  lemma NextTracked(s: Listener, e: Event)
    requires Inv(s) && AllFollow(s) && Tracked(s)
    ensures Tracked(Next(s, e))
  {
    NextAnnounces(s, e);
    if Announcing(s, e).Some? {
      var a := Announcing(s, e).value;
      AnnouncedTracked(s, a.state, a.service);
      if e.Disconnect? {
        ForgetTracked(Update(a.state, a.service), e.conn);
      }
    } else if e.Accept? {
      AcceptTracked(s, e.conn);
    } else if e.Subscribe? && Registered(s, e.conn) {
      SubscribedTracked(s, e.conn, e.tp);
    } else if e.Subscribe? && e.conn in s.conns && s.conns[e.conn].live {
      RefusedTracked(s, e.conn, e.tp);
    } else if e.Disconnect? && e.conn in s.conns {
      ForgetTracked(s, e.conn);
    }
  }

  // ---------------------------------------------------------------------------
  // Notes are only added, and name services the gate has

  lemma QuietLogs(s: Listener, e: Event)
    requires Inv(s) && Announcing(s, e).None? && !e.Subscribe?
    ensures Next(s, e).log == s.log
  {
  }

  /** What a step may write to a connection. */
  ghost predicate NewNote(s: Listener, e: Event, note: Note)
    requires Inv(s)
  {
    match note
    case SubscribeAck(ok, t, infos) => infos == if ok then Infos(s, t) else []
    case SubscribeBrd(info) =>
      && Announcing(s, e).Some? && Announcing(s, e).value.service < |Announcing(s, e).value.state.services|
      && info == InfoOf(Announcing(s, e).value.state.services[Announcing(s, e).value.service])
  }

  lemma SubscribeLogs(s: Listener, x: nat, t: Id, c: nat)
    requires Inv(s)
    ensures var log := List(Next(s, Subscribe(x, t)).log, c);
            || log == List(s.log, c)
            || (|log| == |List(s.log, c)| + 1 && List(s.log, c) <= log && NewNote(s, Subscribe(x, t), log[|log| - 1]))
  {
  }

  lemma AnnouncedLogs(s: Listener, e: Event, c: nat)
    requires Inv(s) && Announcing(s, e).Some?
    ensures var log := List(Next(s, e).log, c);
            || log == List(s.log, c)
            || (|log| == |List(s.log, c)| + 1 && List(s.log, c) <= log && NewNote(s, e, log[|log| - 1]))
  {
    var a := Announcing(s, e).value;
    assert Indexed(a.state) && a.service < |a.state.services| && a.state.log == s.log by { NextAnnounces(s, e); }
    assert Next(s, e).log == Update(a.state, a.service).log by { NextAnnounces(s, e); }
    UpdateReaches(a.state, a.service, c);
  }

  lemma NextLogs(s: Listener, e: Event, c: nat)
    requires Inv(s)
    ensures List(s.log, c) <= List(Next(s, e).log, c)
    ensures forall i | |List(s.log, c)| <= i < |List(Next(s, e).log, c)| :: NewNote(s, e, List(Next(s, e).log, c)[i])
  {
    if Announcing(s, e).Some? {
      AnnouncedLogs(s, e, c);
    } else if e.Subscribe? {
      SubscribeLogs(s, e.conn, e.tp, c);
    } else {
      QuietLogs(s, e);
    }
  }

  /** Services are never removed and never change id or type. */
  ghost predicate Stay(services: seq<Service>, services': seq<Service>) {
    && |services| <= |services'|
    && (forall j | 0 <= j < |services| :: services'[j].id == services[j].id && services'[j].tp == services[j].tp)
  }

  lemma AnnouncingStays(s: Listener, e: Event)
    requires Inv(s) && Announcing(s, e).Some?
    ensures Stay(s.services, Announcing(s, e).value.state.services)
  {
  }

  lemma NextStays(s: Listener, e: Event)
    requires Inv(s)
    ensures Stay(s.services, Next(s, e).services)
    ensures Announcing(s, e).Some? ==> Next(s, e).services == Announcing(s, e).value.state.services
  {
    NextAnnounces(s, e);
    if Announcing(s, e).Some? {
      AnnouncingStays(s, e);
    }
  }

  ghost predicate Known(services: seq<Service>, info: ServiceInfo) {
    exists j :: 0 <= j < |services| && services[j].id == U16(info.id) && services[j].tp == U16(info.tp)
  }

  ghost predicate AllKnown(services: seq<Service>, infos: seq<ServiceInfo>) {
    forall i | 0 <= i < |infos| :: Known(services, infos[i])
  }

  ghost predicate NotesKnown(s: Listener) {
    forall c: nat, i | 0 <= i < |List(s.log, c)| :: AllKnown(s.services, Told(List(s.log, c)[i]))
  }

  lemma KnownStays(services: seq<Service>, services': seq<Service>, infos: seq<ServiceInfo>)
    requires AllKnown(services, infos) && Stay(services, services')
    ensures AllKnown(services', infos)
  {
    forall i | 0 <= i < |infos| ensures Known(services', infos[i]) {
      assert Known(services, infos[i]);
      var j :| 0 <= j < |services| && services[j].id == U16(infos[i].id) && services[j].tp == U16(infos[i].tp);
      assert services'[j].id == U16(infos[i].id) && services'[j].tp == U16(infos[i].tp);
    }
  }

  lemma InfosKnown(s: Listener, t: Id)
    requires Inv(s)
    ensures AllKnown(s.services, Infos(s, t))
  {
    var infos := Infos(s, t);
    forall i | 0 <= i < |infos| ensures Known(s.services, infos[i]) {
      var j := List(s.types, t)[i];
      assert infos[i] == InfoOf(s.services[j]) && U16(infos[i].id) == s.services[j].id;
    }
  }

  lemma ToldIsKnown(services: seq<Service>, j: nat)
    requires j < |services|
    ensures Known(services, InfoOf(services[j]))
  {
    assert services[j].id == U16(InfoOf(services[j]).id) && services[j].tp == U16(InfoOf(services[j]).tp);
  }

  lemma NewNoteKnown(s: Listener, e: Event, note: Note)
    requires Inv(s) && NewNote(s, e, note) && Stay(s.services, Next(s, e).services)
    requires Announcing(s, e).Some? ==> Next(s, e).services == Announcing(s, e).value.state.services
    ensures AllKnown(Next(s, e).services, Told(note))
  {
    if note.SubscribeAck? {
      InfosKnown(s, note.tp);
      KnownStays(s.services, Next(s, e).services, Told(note));
    } else {
      ToldIsKnown(Next(s, e).services, Announcing(s, e).value.service);
    }
  }

  lemma NextKnown(s: Listener, e: Event)
    requires Inv(s) && NotesKnown(s)
    ensures NotesKnown(Next(s, e))
  {
    NextStays(s, e);
    forall c: nat, i | 0 <= i < |List(Next(s, e).log, c)|
      ensures AllKnown(Next(s, e).services, Told(List(Next(s, e).log, c)[i]))
    {
      NextLogs(s, e, c);
      if i < |List(s.log, c)| {
        KnownStays(s.services, Next(s, e).services, Told(List(s.log, c)[i]));
      } else {
        NewNoteKnown(s, e, List(Next(s, e).log, c)[i]);
      }
    }
  }
}
