/** The account slots a center keeps in shared memory, the indexes over them, eviction and rebuilding after a crash. */
module AccountIndex {
  import opened RegistryMessages

  const TIMEOUT_DELETE := 3600
  const FRAME := 256

  datatype Account = Account(name: string)

  /** `account_info`; user 0 marks a free slot. */
  datatype Slot = Slot(lastTime: int, version: Id, versionDb: Id, userid: int, account: Account, password: string)

  const BLANK := Slot(0, 0, 0, 0, Account(""), "")

  /** Indexes and free list hold positions in `slots`. */
  datatype Center = Center(slots: seq<Slot>, users: map<int, nat>, accounts: map<Account, nat>, free: seq<nat>)

  // ---------------------------------------------------------------------------
  // What the indexes should be

  predicate Used(slots: seq<Slot>, i: int) {
    0 <= i < |slots| && slots[i].userid != 0
  }

  ghost predicate UsersIndexed(s: Center) {
    && (forall u | u in s.users :: Used(s.slots, s.users[u]) && s.slots[s.users[u]].userid == u)
    && (forall i | Used(s.slots, i) :: s.slots[i].userid in s.users && s.users[s.slots[i].userid] == i)
  }

  ghost predicate AccountsIndexed(s: Center) {
    && (forall a | a in s.accounts :: Used(s.slots, s.accounts[a]) && s.slots[s.accounts[a]].account == a)
    && (forall i | Used(s.slots, i) :: s.slots[i].account in s.accounts && s.accounts[s.slots[i].account] == i)
  }

  ghost predicate FreeListed(s: Center) {
    && NoDuplicates(s.free)
    && (forall i: nat :: i in s.free <==> i < |s.slots| && s.slots[i].userid == 0)
  }

  /** Every slot is free, and listed once, or found under its own user and account, and nothing else is found. */
  ghost predicate Partition(s: Center) {
    UsersIndexed(s) && AccountsIndexed(s) && FreeListed(s)
  }

  // ---------------------------------------------------------------------------
  // Rebuilding from raw memory

  function AddSlot(s: Center, i: nat): Center
    requires i < |s.slots|
  {
    var slot := s.slots[i];
    if slot.userid == 0 then s.(free := s.free + [i])
    else s.(users := s.users[slot.userid := i], accounts := s.accounts[slot.account := i])
  }

  /** `restore_shm` after its first `n` slots. */
  function Rebuild(slots: seq<Slot>, n: nat): (s: Center)
    requires n <= |slots|
    ensures s.slots == slots
  {
    if n == 0 then Center(slots, map[], map[], [])
    else
      AddSlot(Rebuild(slots, n - 1), n - 1)
  }

  ghost predicate FreeCovered(slots: seq<Slot>, free: seq<nat>, n: nat) {
    && NoDuplicates(free)
    && (forall i: nat :: i in free <==> i < n && i < |slots| && slots[i].userid == 0)
  }

  ghost predicate UsersCovered(slots: seq<Slot>, users: map<int, nat>, n: nat) {
    && (forall u | u in users :: users[u] < n && Used(slots, users[u]) && slots[users[u]].userid == u)
    && (forall i | 0 <= i < n && Used(slots, i) :: slots[i].userid in users)
  }

  ghost predicate AccountsCovered(slots: seq<Slot>, accounts: map<Account, nat>, n: nat) {
    && (forall a | a in accounts :: accounts[a] < n && Used(slots, accounts[a]) && slots[accounts[a]].account == a)
    && (forall i | 0 <= i < n && Used(slots, i) :: slots[i].account in accounts)
  }

  lemma AddSlotFree(s: Center, n: nat)
    requires FreeCovered(s.slots, s.free, n) && n < |s.slots|
    ensures FreeCovered(s.slots, AddSlot(s, n).free, n + 1)
  {
    var free := AddSlot(s, n).free;
    forall i: nat ensures i in free <==> i < n + 1 && i < |s.slots| && s.slots[i].userid == 0 {
      assert i in free <==> i in s.free || (i == n && s.slots[n].userid == 0);
    }
  }

  lemma UsersOneMore(slots: seq<Slot>, users: map<int, nat>, n: nat)
    requires UsersCovered(slots, users, n) && n < |slots|
    ensures UsersCovered(slots, if slots[n].userid == 0 then users else users[slots[n].userid := n], n + 1)
  {
  }

  lemma AccountsOneMore(slots: seq<Slot>, accounts: map<Account, nat>, n: nat)
    requires AccountsCovered(slots, accounts, n) && n < |slots|
    ensures AccountsCovered(slots, if slots[n].userid == 0 then accounts else accounts[slots[n].account := n], n + 1)
  {
  }

  lemma {:induction false} RebuildFree(slots: seq<Slot>, n: nat)
    requires n <= |slots|
    ensures FreeCovered(slots, Rebuild(slots, n).free, n)
    decreases n
  {
    if n > 0 {
      RebuildFree(slots, n - 1);
      AddSlotFree(Rebuild(slots, n - 1), n - 1);
    }
  }

  lemma {:induction false} RebuildUsers(slots: seq<Slot>, n: nat)
    requires n <= |slots|
    ensures UsersCovered(slots, Rebuild(slots, n).users, n)
    decreases n
  {
    if n > 0 {
      RebuildUsers(slots, n - 1);
      UsersOneMore(slots, Rebuild(slots, n - 1).users, n - 1);
    }
  }

  lemma {:induction false} RebuildAccounts(slots: seq<Slot>, n: nat)
    requires n <= |slots|
    ensures AccountsCovered(slots, Rebuild(slots, n).accounts, n)
    decreases n
  {
    if n > 0 {
      var slot, accounts := slots[n - 1], Rebuild(slots, n - 1).accounts;
      assert Rebuild(slots, n).accounts == if slot.userid == 0 then accounts else accounts[slot.account := n - 1];
      RebuildAccounts(slots, n - 1);
      AccountsOneMore(slots, accounts, n - 1);
    }
  }

  ghost predicate DistinctUsers(slots: seq<Slot>) {
    forall i, j | Used(slots, i) && Used(slots, j) && i != j :: slots[i].userid != slots[j].userid
  }

  ghost predicate DistinctAccounts(slots: seq<Slot>) {
    forall i, j | Used(slots, i) && Used(slots, j) && i != j :: slots[i].account != slots[j].account
  }

  lemma UsersIffDistinct(s: Center)
    requires UsersCovered(s.slots, s.users, |s.slots|)
    ensures UsersIndexed(s) <==> DistinctUsers(s.slots)
  {
  }

  lemma AccountsIffDistinct(s: Center)
    requires AccountsCovered(s.slots, s.accounts, |s.slots|)
    ensures AccountsIndexed(s) <==> DistinctAccounts(s.slots)
  {
  }

  /** A rebuild finds every slot again, exactly when no two used slots share a user or an account. */
  lemma RebuildIsExact(slots: seq<Slot>)
    ensures Partition(Rebuild(slots, |slots|)) <==> DistinctUsers(slots) && DistinctAccounts(slots)
  {
    var s := Rebuild(slots, |slots|);
    RebuildFree(slots, |slots|);
    RebuildUsers(slots, |slots|);
    RebuildAccounts(slots, |slots|);
    UsersIffDistinct(s);
    AccountsIffDistinct(s);
  }

  /** No used slot from `i` on and before `n` has slot `i`'s user, or its account. */
  ghost predicate LastOfUser(slots: seq<Slot>, i: nat, n: nat)
    requires i < n <= |slots|
  {
    forall j | i < j < n :: slots[j].userid == 0 || slots[j].userid != slots[i].userid
  }

  ghost predicate LastOfAccount(slots: seq<Slot>, i: nat, n: nat)
    requires i < n <= |slots|
  {
    forall j | i < j < n :: slots[j].userid == 0 || slots[j].account != slots[i].account
  }

  /** Where slots share a user or an account, the index leads to the last of them. */
  lemma {:induction false} RebuildFindsLast(slots: seq<Slot>, n: nat, i: nat)
    requires i < n <= |slots| && Used(slots, i)
    ensures var s, slot := Rebuild(slots, n), slots[i];
            && (LastOfUser(slots, i, n) ==> slot.userid in s.users && s.users[slot.userid] == i)
            && (LastOfAccount(slots, i, n) ==> slot.account in s.accounts && s.accounts[slot.account] == i)
    decreases n
  {
    var before, last := Rebuild(slots, n - 1), slots[n - 1];
    assert Rebuild(slots, n).users == if last.userid == 0 then before.users else before.users[last.userid := n - 1];
    assert Rebuild(slots, n).accounts ==
           if last.userid == 0 then before.accounts else before.accounts[last.account := n - 1];
    if i < n - 1 {
      RebuildFindsLast(slots, n - 1, i);
    }
  }

  ghost predicate Ascending(free: seq<nat>, n: nat) {
    && (forall a | 0 <= a < |free| :: free[a] < n)
    && (forall a, b | 0 <= a < b < |free| :: free[a] < free[b])
  }

  lemma AscendingOne(free: seq<nat>, n: nat)
    requires Ascending(free, n)
    ensures Ascending(free, n + 1) && Ascending(free + [n], n + 1)
  {
  }

  /** A rebuild lists the free slots from the first to the last. */
  lemma {:induction false} RebuildFreeAscends(slots: seq<Slot>, n: nat)
    requires n <= |slots|
    ensures Ascending(Rebuild(slots, n).free, n)
    decreases n
  {
    if n > 0 {
      var before := Rebuild(slots, n - 1);
      RebuildFreeAscends(slots, n - 1);
      AscendingOne(before.free, n - 1);
      assert Rebuild(slots, n).free == AddSlot(before, n - 1).free;
    }
  }

  /** What the indexes must be is decided by the slots. */
  lemma IndexesAreDetermined(s: Center, r: Center)
    requires Partition(s) && Partition(r) && s.slots == r.slots
    ensures s.users == r.users && s.accounts == r.accounts
    ensures forall i: nat :: i in s.free <==> i in r.free
  {
    forall u ensures u in s.users <==> u in r.users {
      assert u in s.users ==> Used(r.slots, s.users[u]);
      assert u in r.users ==> Used(s.slots, r.users[u]);
    }
    assert s.users == r.users by {
      assert forall u | u in s.users :: Used(s.slots, s.users[u]) && r.users[u] == s.users[u];
    }
    forall a ensures a in s.accounts <==> a in r.accounts {
      assert a in s.accounts ==> Used(r.slots, s.accounts[a]);
      assert a in r.accounts ==> Used(s.slots, r.accounts[a]);
    }
    assert s.accounts == r.accounts by {
      assert forall a | a in s.accounts :: Used(s.slots, s.accounts[a]) && r.accounts[a] == s.accounts[a];
    }
  }

  /** Rebuilding from the slots gives the indexes over them. */
  lemma RebuildRecovers(s: Center)
    requires Partition(s)
    ensures var r := Rebuild(s.slots, |s.slots|);
            && Partition(r) && r.slots == s.slots && r.users == s.users && r.accounts == s.accounts
            && (forall i: nat :: i in r.free <==> i in s.free)
  {
    assert DistinctUsers(s.slots) && DistinctAccounts(s.slots);
    RebuildIsExact(s.slots);
    IndexesAreDetermined(s, Rebuild(s.slots, |s.slots|));
  }

  // ---------------------------------------------------------------------------
  // Eviction

  /** Written to the database and not used for an hour. */
  predicate Stale(slot: Slot, now: int) {
    slot.userid != 0 && slot.version == slot.versionDb && now - slot.lastTime >= TIMEOUT_DELETE
  }

  function Visit(s: Center, i: nat, now: int): Center
    requires i < |s.slots|
  {
    var slot := s.slots[i];
    if Stale(slot, now) then
      Center(s.slots[i := BLANK], s.users - {slot.userid}, s.accounts - {slot.account}, s.free + [i])
    else s
  }

  lemma VisitKeeps(s: Center, i: nat, now: int)
    requires Partition(s) && i < |s.slots|
    ensures Partition(Visit(s, i, now))
  {
  }

  /** Other processes update times, versions and passwords in place; they do not change whose slot it is. */
  predicate SameKeys(slots: seq<Slot>, slots': seq<Slot>) {
    && |slots'| == |slots|
    && (forall i | 0 <= i < |slots| :: slots'[i].userid == slots[i].userid && slots'[i].account == slots[i].account)
  }

  lemma OthersKeep(s: Center, slots': seq<Slot>)
    requires Partition(s) && SameKeys(s.slots, slots')
    ensures Partition(s.(slots := slots'))
  {
    assert forall i :: Used(slots', i) <==> Used(s.slots, i);
  }

  // ---------------------------------------------------------------------------
  // Any sequence of visits, with others writing in between

  /** A scan visits slots; whenever it yields, others may write. */
  datatype Turn =
    | Look(slot: nat, now: int)
    | Others(slots: seq<Slot>)

  /** A turn that is not possible changes nothing. */
  function Next(s: Center, e: Turn): Center {
    match e
    case Look(i, now) => if i < |s.slots| then Visit(s, i, now) else s
    case Others(slots) => if SameKeys(s.slots, slots) then s.(slots := slots) else s
  }

  function Play(s: Center, es: seq<Turn>, n: nat): Center
    requires n <= |es|
  {
    if n == 0 then s else Next(Play(s, es, n - 1), es[n - 1])
  }

  lemma {:induction false} PlayKeeps(s: Center, es: seq<Turn>, n: nat)
    requires Partition(s) && n <= |es|
    ensures Partition(Play(s, es, n)) && |Play(s, es, n).slots| == |s.slots|
    decreases n
  {
    if n > 0 {
      PlayKeeps(s, es, n - 1);
      var r, e := Play(s, es, n - 1), es[n - 1];
      if e.Look? && e.slot < |r.slots| {
        VisitKeeps(r, e.slot, e.now);
      } else if e.Others? && SameKeys(r.slots, e.slots) {
        OthersKeep(r, e.slots);
      }
    }
  }

  /** Turn `k` looks at slot `i` and finds it saved, with equal versions, and not used for an hour or more. */
  ghost predicate Frees(s: Center, es: seq<Turn>, k: nat, i: nat)
    requires k < |es|
  {
    && es[k].Look? && es[k].slot == i && Used(Play(s, es, k).slots, i)
    && var slot := Play(s, es, k).slots[i];
    && slot.version == slot.versionDb
    && es[k].now - slot.lastTime >= 3600
  }

  lemma NextKeys(s: Center, e: Turn, i: nat)
    requires i < |s.slots|
    ensures |Next(s, e).slots| == |s.slots|
    ensures var slot, slot' := s.slots[i], Next(s, e).slots[i];
            if e.Look? && e.slot == i && Stale(slot, e.now) then slot' == Slot(0, 0, 0, 0, Account(""), "")
            else slot'.userid == slot.userid && slot'.account == slot.account
  {
  }

  lemma {:induction false} PlayLength(s: Center, es: seq<Turn>, n: nat)
    requires n <= |es|
    ensures |Play(s, es, n).slots| == |s.slots|
    decreases n
  {
    if n > 0 {
      PlayLength(s, es, n - 1);
    }
  }

  /**
   * Over any visits and writes of others, a used slot is freed exactly when some visit finds it stale: written to the
   * database and not used for an hour at that moment. Any other slot keeps its user and account.
   */
  lemma {:induction false} FreedExactly(s: Center, es: seq<Turn>, n: nat, i: nat)
    requires n <= |es| && Used(s.slots, i)
    ensures i < |Play(s, es, n).slots|
    ensures Used(Play(s, es, n).slots, i) <==> forall k | 0 <= k < n :: !Frees(s, es, k, i)
    ensures Used(Play(s, es, n).slots, i) ==>
              && Play(s, es, n).slots[i].userid == s.slots[i].userid
              && Play(s, es, n).slots[i].account == s.slots[i].account
    decreases n
  {
    if n > 0 {
      var r, e := Play(s, es, n - 1), es[n - 1];
      FreedExactly(s, es, n - 1, i);
      PlayLength(s, es, n - 1);
      NextKeys(r, e, i);
      assert Frees(s, es, n - 1, i) <==> e.Look? && e.slot == i && Stale(r.slots[i], e.now);
      assert (forall k | 0 <= k < n :: !Frees(s, es, k, i)) <==>
             (forall k | 0 <= k < n - 1 :: !Frees(s, es, k, i)) && !Frees(s, es, n - 1, i);
    }
  }

  /** While nobody else writes, a slot that is not freed keeps its whole content. */
  lemma {:induction false} QuietScanKeeps(s: Center, es: seq<Turn>, n: nat, i: nat)
    requires n <= |es| && Used(s.slots, i) && forall k | 0 <= k < n :: es[k].Look?
    ensures |Play(s, es, n).slots| == |s.slots|
    ensures Used(Play(s, es, n).slots, i) ==> Play(s, es, n).slots[i] == s.slots[i]
    decreases n
  {
    if n > 0 {
      QuietScanKeeps(s, es, n - 1, i);
    }
  }

  /** Slot `i` was not saved, or used less than an hour ago, whenever it was looked at. */
  ghost predicate Needed(slot: Slot, es: seq<Turn>, n: nat, i: nat)
    requires n <= |es|
  {
    forall k | 0 <= k < n && es[k].Look? && es[k].slot == i ::
      slot.version != slot.versionDb || es[k].now - slot.lastTime < 3600
  }

  /** While nobody else writes, a slot with unsaved changes, or used within the hour, comes through any scan whole. */
  lemma {:induction false} NeededSurvives(s: Center, es: seq<Turn>, n: nat, i: nat)
    requires n <= |es| && Used(s.slots, i) && Needed(s.slots[i], es, n, i) && forall k | 0 <= k < n :: es[k].Look?
    ensures |Play(s, es, n).slots| == |s.slots| && Play(s, es, n).slots[i] == s.slots[i]
    decreases n
  {
    if n > 0 {
      NeededSurvives(s, es, n - 1, i);
    }
  }

  /** The slots freed, in order. */
  ghost function Freed(s: Center, es: seq<Turn>, n: nat): seq<nat>
    requires n <= |es|
  {
    if n == 0 then []
    else if es[n - 1].Look? && Frees(s, es, n - 1, es[n - 1].slot) then Freed(s, es, n - 1) + [es[n - 1].slot]
    else Freed(s, es, n - 1)
  }

  lemma {:induction false} FreeListGrows(s: Center, es: seq<Turn>, n: nat)
    requires n <= |es|
    ensures Play(s, es, n).free == s.free + Freed(s, es, n)
    decreases n
  {
    if n > 0 {
      FreeListGrows(s, es, n - 1);
    }
  }

  lemma {:induction false} PlayPrefix(s: Center, es: seq<Turn>, more: seq<Turn>, n: nat)
    requires n <= |es|
    ensures Play(s, es + more, n) == Play(s, es, n)
    decreases n
  {
    if n > 0 {
      PlayPrefix(s, es, more, n - 1);
    }
  }

  /** The scan yields before it visits slot `i`. */
  predicate Yields(i: nat) {
    i % FRAME == FRAME - 1
  }

  /** How often it has yielded before slot `n`. */
  function YieldsBefore(n: nat): nat {
    if n == 0 then 0 else if Yields(n - 1) then YieldsBefore(n - 1) + 1 else YieldsBefore(n - 1)
  }

  lemma {:induction false} EveryFrame(n: nat)
    ensures YieldsBefore(n) == n / FRAME
    decreases n
  {
    if n > 0 {
      EveryFrame(n - 1);
    }
  }

  lemma {:induction false} YieldsGrow(i: nat, n: nat)
    requires i <= n
    ensures YieldsBefore(i) <= YieldsBefore(n)
    decreases n - i
  {
    if i < n {
      YieldsGrow(i, n - 1);
    }
  }

  /** The turns of a pass over `n` slots: after each yield the clock is read again. */
  function Turns(n: nat, readings: seq<int>, updates: seq<seq<Slot>>): seq<Turn>
    requires YieldsBefore(n) < |readings| && YieldsBefore(n) <= |updates|
  {
    if n == 0 then []
    else
      var es, k := Turns(n - 1, readings, updates), YieldsBefore(n);
      (if Yields(n - 1) then es + [Others(updates[k - 1])] else es) + [Look(n - 1, readings[k])]
  }

  /** The turns that look at a slot, in order. */
  function Looks(es: seq<Turn>): seq<Turn> {
    if es == [] then []
    else
      var before, last := Looks(es[..|es| - 1]), es[|es| - 1];
      if last.Look? then before + [last] else before
  }

  lemma LooksOne(es: seq<Turn>, e: Turn)
    ensures Looks(es + [e]) == if e.Look? then Looks(es) + [e] else Looks(es)
  {
    assert (es + [e])[..|es + [e]| - 1] == es;
  }

  lemma TurnsLook(n: nat, readings: seq<int>, updates: seq<seq<Slot>>)
    requires n > 0 && YieldsBefore(n) < |readings| && YieldsBefore(n) <= |updates|
    ensures Looks(Turns(n, readings, updates)) ==
            Looks(Turns(n - 1, readings, updates)) + [Look(n - 1, readings[YieldsBefore(n)])]
  {
    var es, k := Turns(n - 1, readings, updates), YieldsBefore(n);
    if Yields(n - 1) {
      LooksOne(es, Others(updates[k - 1]));
      LooksOne(es + [Others(updates[k - 1])], Look(n - 1, readings[k]));
    } else {
      LooksOne(es, Look(n - 1, readings[k]));
    }
  }

  lemma {:induction false} LooksLength(n: nat, readings: seq<int>, updates: seq<seq<Slot>>)
    requires YieldsBefore(n) < |readings| && YieldsBefore(n) <= |updates|
    ensures |Looks(Turns(n, readings, updates))| == n
    decreases n
  {
    if n > 0 {
      YieldsGrow(n - 1, n);
      LooksLength(n - 1, readings, updates);
      TurnsLook(n, readings, updates);
    }
  }

  lemma {:induction false} LooksAreInOrder(n: nat, readings: seq<int>, updates: seq<seq<Slot>>, i: nat)
    requires YieldsBefore(n) < |readings| && YieldsBefore(n) <= |updates| && i < n
    ensures i < |Looks(Turns(n, readings, updates))| && YieldsBefore(i + 1) < |readings|
    ensures Looks(Turns(n, readings, updates))[i] == Look(i, readings[YieldsBefore(i + 1)])
    decreases n
  {
    YieldsGrow(n - 1, n);
    LooksLength(n - 1, readings, updates);
    TurnsLook(n, readings, updates);
    if i < n - 1 {
      LooksAreInOrder(n - 1, readings, updates, i);
    }
  }

  /** A pass looks at every slot once, from the first to the last, by a clock read again after every 256 slots. */
  lemma EverySlotOnce(n: nat, readings: seq<int>, updates: seq<seq<Slot>>, i: nat)
    requires YieldsBefore(n) < |readings| && YieldsBefore(n) <= |updates| && i < n
    ensures |Looks(Turns(n, readings, updates))| == n && (i + 1) / 256 < |readings|
    ensures Looks(Turns(n, readings, updates))[i] == Look(i, readings[(i + 1) / 256])
  {
    LooksAreInOrder(n, readings, updates, i);
    LooksLength(n, readings, updates);
    EveryFrame(i + 1);
  }

  lemma LookedAt(es: seq<Turn>, j: nat) returns (k: nat)
    requires j < |Looks(es)|
    ensures k < |es| && es[k] == Looks(es)[j] && es[k].Look?
    decreases |es|
  {
    var before := Looks(es[..|es| - 1]);
    if j < |before| {
      k := LookedAt(es[..|es| - 1], j);
    } else {
      k := |es| - 1;
    }
  }

  /** Whatever others write meanwhile, a pass frees slot `i` if it is saved and unused for an hour all along. */
  lemma PassFreesStale(s: Center, readings: seq<int>, updates: seq<seq<Slot>>, i: nat)
    requires YieldsBefore(|s.slots|) < |readings| && YieldsBefore(|s.slots|) <= |updates| && Used(s.slots, i)
    requires var es := Turns(|s.slots|, readings, updates);
             forall k | 0 <= k < |es| && es[k].Look? && es[k].slot == i && Used(Play(s, es, k).slots, i) ::
               var slot := Play(s, es, k).slots[i];
               slot.version == slot.versionDb && es[k].now - slot.lastTime >= 3600
    ensures var es := Turns(|s.slots|, readings, updates); !Used(Play(s, es, |es|).slots, i)
  {
    var es := Turns(|s.slots|, readings, updates);
    EverySlotOnce(|s.slots|, readings, updates, i);
    var k := LookedAt(es, i);
    FreedExactly(s, es, |es|, i);
    FreedExactly(s, es, k, i);
    if Used(Play(s, es, k).slots, i) {
      assert Frees(s, es, k, i);
    } else {
      var j :| 0 <= j < k && Frees(s, es, j, i);
    }
  }

  /** A crash at any moment loses nothing: a rebuild gives the indexes and free slots of that moment. */
  lemma CrashRecovers(s: Center, es: seq<Turn>, n: nat)
    requires Partition(s) && n <= |es|
    ensures var p := Play(s, es, n);
            var r := Rebuild(p.slots, |p.slots|);
            && Partition(r) && r.slots == p.slots && r.users == p.users && r.accounts == p.accounts
            && (forall i: nat :: i in r.free <==> i in p.free)
  {
    PlayKeeps(s, es, n);
    RebuildRecovers(Play(s, es, n));
  }

  lemma PlayOne(s: Center, es: seq<Turn>, e: Turn)
    ensures Play(s, es + [e], |es| + 1) == Next(Play(s, es, |es|), e)
  {
    PlayPrefix(s, es, [e], |es|);
  }

  /** The center after a pass over the first `n` slots. */
  function Passed(s: Center, n: nat, readings: seq<int>, updates: seq<seq<Slot>>): Center
    requires YieldsBefore(n) < |readings| && YieldsBefore(n) <= |updates|
  {
    var es := Turns(n, readings, updates);
    Play(s, es, |es|)
  }

  lemma PlayTurns(s: Center, i: nat, readings: seq<int>, updates: seq<seq<Slot>>)
    requires YieldsBefore(i + 1) < |readings| && YieldsBefore(i + 1) <= |updates|
    ensures var r := Passed(s, i, readings, updates);
            Passed(s, i + 1, readings, updates) ==
            Next(if Yields(i) then Next(r, Others(updates[YieldsBefore(i)])) else r,
                 Look(i, readings[YieldsBefore(i + 1)]))
  {
    var es := Turns(i, readings, updates);
    if Yields(i) {
      var other := Others(updates[YieldsBefore(i)]);
      PlayOne(s, es, other);
      PlayOne(s, es + [other], Look(i, readings[YieldsBefore(i + 1)]));
    } else {
      PlayOne(s, es, Look(i, readings[YieldsBefore(i + 1)]));
    }
  }

  // ---------------------------------------------------------------------------
  // The program

  class AccountCenter {
    const memory: array<Slot>
    var users: map<int, nat>
    var accounts: map<Account, nat>
    var free: seq<nat>

    ghost function Value(): Center
      reads this, memory
    {
      Center(memory[..], users, accounts, free)
    }

    /** `restore_shm`: newly created memory is cleared, existing memory is read back. */
    constructor (memory: array<Slot>, created: bool)
      modifies memory
      ensures this.memory == memory
      ensures created ==> forall i | 0 <= i < memory.Length :: memory[i] == BLANK
      ensures !created ==> memory[..] == old(memory[..])
      ensures Value() == Rebuild(memory[..], memory.Length)
      ensures Partition(Value()) <==> DistinctUsers(memory[..]) && DistinctAccounts(memory[..])
    {
      this.memory := memory;
      users, accounts, free := map[], map[], [];
      new;
      if created {
        for i := 0 to memory.Length
          invariant forall k | 0 <= k < i :: memory[k] == BLANK
          invariant users == map[] && accounts == map[] && free == []
        {
          memory[i] := BLANK;
        }
      }
      ghost var slots := memory[..];
      for i := 0 to memory.Length
        invariant memory[..] == slots
        invariant Value() == Rebuild(slots, i)
      {
        var slot := memory[i];
        if slot.userid == 0 {
          free := free + [i];
        } else {
          users := users[slot.userid := i];
          accounts := accounts[slot.account := i];
        }
      }
      RebuildIsExact(slots);
    }

    method Evict(i: nat, now: int)
      requires i < memory.Length
      modifies this, memory
      ensures Value() == Visit(old(Value()), i, now)
    {
      var slot := memory[i];
      if slot.userid == 0 {
        return;
      }
      if slot.version != slot.versionDb {
        return;
      }
      if now - slot.lastTime < TIMEOUT_DELETE {
        return;
      }
      users := users - {slot.userid};
      accounts := accounts - {slot.account};
      memory[i] := BLANK;
      free := free + [i];
    }

    /** Others writing while the scan yields. */
    method Yield(slots: seq<Slot>)
      modifies memory
      ensures Value() == Next(old(Value()), Others(slots))
    {
      if SameKeys(memory[..], slots) {
        for i := 0 to memory.Length
          invariant forall k | 0 <= k < i :: memory[k] == slots[k]
          invariant users == old(users) && accounts == old(accounts) && free == old(free)
        {
          memory[i] := slots[i];
        }
        assert memory[..] == slots;
      }
    }

    /** The scan's loop body for slot `i`. */
    method ScanSlot(i: nat, time: int, yielded: nat, readings: seq<int>, updates: seq<seq<Slot>>)
        returns (now: int, k: nat)
      requires i < memory.Length
      requires Yields(i) ==> yielded + 1 < |readings| && yielded < |updates|
      modifies this, memory
      ensures k == (if Yields(i) then yielded + 1 else yielded) && now == (if Yields(i) then readings[k] else time)
      ensures Value() ==
              Next(if Yields(i) then Next(old(Value()), Others(updates[yielded])) else old(Value()), Look(i, now))
    {
      now, k := time, yielded;
      if i % FRAME == FRAME - 1 {
        Yield(updates[k]);
        k := k + 1;
        now := readings[k];
      }
      Evict(i, now);
    }

    /** One pass over all slots, whatever they hold. */
    method PassOver(readings: seq<int>, updates: seq<seq<Slot>>)
      requires YieldsBefore(memory.Length) < |readings| && YieldsBefore(memory.Length) <= |updates|
      modifies this, memory
      ensures Value() == Passed(old(Value()), memory.Length, readings, updates)
    {
      ghost var s := Value();
      var now, k, n := readings[0], 0, memory.Length;
      for i := 0 to n
        invariant k == YieldsBefore(i) <= YieldsBefore(n) && now == readings[k]
        invariant Value() == Passed(s, i, readings, updates)
      {
        YieldsGrow(i + 1, n);
        PlayTurns(s, i, readings, updates);
        now, k := ScanSlot(i, now, k, readings, updates);
      }
    }

    /** `updates` is what others write at each yield. */
    method CheckAccounts(readings: seq<int>, updates: seq<seq<Slot>>)
      requires Partition(Value())
      requires YieldsBefore(memory.Length) < |readings| && YieldsBefore(memory.Length) <= |updates|
      modifies this, memory
      ensures var es := Turns(memory.Length, readings, updates);
              Value() == Play(old(Value()), es, |es|) && Partition(Value())
    {
      ghost var es := Turns(memory.Length, readings, updates);
      PlayKeeps(Value(), es, |es|);
      PassOver(readings, updates);
    }
  }
}
