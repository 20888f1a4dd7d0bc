/**
 * Services following other services: a gate keeps, per service type, the connections that subscribed to it, and tells
 * them of every change; each subscriber keeps its own list of that type.
 */
module Subscriptions {
  import opened RegistryMessages

  /** `service_info` with the fields of `local_service`; `socket` 0 means not connected. */
  datatype Service = Service(id: Id, tp: Id, isLocal: bool, online: bool, socket: nat)

  /** `socket_data`; `live` until the connection was cleaned up. `service` is a position in `services`. */
  datatype Conn = Conn(live: bool, service: Option<nat>, subscribe: seq<Id>)

  /** An acknowledgement's type is known to the subscriber from the request it answers. */
  datatype Note =
    | SubscribeAck(ok: bool, tp: Id, services: seq<ServiceInfo>)
    | SubscribeBrd(service: ServiceInfo)

  /** `byId` is `services_`, `types` is `service_types_`, `index` is `subscribe_infos_`. */
  datatype Listener = Listener(
    services: seq<Service>,
    byId: map<Id, nat>,
    types: map<Id, seq<nat>>,
    conns: map<nat, Conn>,
    index: map<Id, seq<nat>>,
    log: map<nat, seq<Note>>)

  /** `RegisterNew` is the part of a registration after the wait for the gate master. */
  datatype Event =
    | Accept(conn: nat)
    | RegisterNew(conn: nat, id: Id, tp: Id)
    | RegisterKnown(conn: nat, id: Id)
    | Remote(id: Id, tp: Id, online: bool)
    | Subscribe(conn: nat, tp: Id)
    | Disconnect(conn: nat)

  const NOTHING := Listener([], map[], map[], map[], map[], map[])

  function List<K, V>(m: map<K, seq<V>>, k: K): seq<V> {
    if k in m then m[k] else []
  }

  function Append<K, V>(m: map<K, seq<V>>, k: K, v: V): map<K, seq<V>> {
    m[k := List(m, k) + [v]]
  }

  function InfoOf(s: Service): ServiceInfo {
    ServiceInfo(s.id, s.tp, s.online)
  }

  ghost predicate Positions(s: Listener) {
    && (forall id | id in s.byId :: s.byId[id] < |s.services|)
    && (forall t, i | t in s.types && 0 <= i < |s.types[t]| :: s.types[t][i] < |s.services|)
  }

  /** The services of type `t`, as sent to a subscriber. */
  function Infos(s: Listener, t: Id): seq<ServiceInfo>
    requires Positions(s)
  {
    var js := List(s.types, t);
    seq(|js|, i requires 0 <= i < |js| => InfoOf(s.services[js[i]]))
  }

  function Broadcast(log: map<nat, seq<Note>>, to: seq<nat>, note: Note): map<nat, seq<Note>> {
    if to == [] then log else Append(Broadcast(log, to[..|to| - 1], note), to[|to| - 1], note)
  }

  /** `service->update()`: subscribers of the type are told the service's present state. */
  function Update(s: Listener, j: nat): Listener
    requires j < |s.services|
  {
    s.(log := Broadcast(s.log, List(s.index, s.services[j].tp), SubscribeBrd(InfoOf(s.services[j]))))
  }

  /** `emplace_service`: the first service of an id is the one found by it, but every one is listed. */
  function Emplace(s: Listener, service: Service): Listener {
    var j := |s.services|;
    s.(services := s.services + [service],
       byId := if service.id in s.byId then s.byId else s.byId[service.id := j],
       types := Append(s.types, service.tp, j))
  }

  /** The tables with connection `c` bound to service `j`, before subscribers are told. */
  function Attached(s: Listener, c: nat, j: nat): Listener
    requires c in s.conns && j < |s.services|
  {
    var socket := if s.conns[c].live then c else 0;
    s.(conns := s.conns[c := s.conns[c].(service := Some(j))],
       services := s.services[j := s.services[j].(socket := socket, online := true)])
  }

  function Attach(s: Listener, c: nat, j: nat): Listener
    requires c in s.conns && j < |s.services|
  {
    Update(Attached(s, c, j), j)
  }

  /** The connection is the one its service is registered through. */
  predicate Registered(s: Listener, c: nat) {
    && c in s.conns && s.conns[c].live && s.conns[c].service.Some?
    && s.conns[c].service.value < |s.services|
    && s.services[s.conns[c].service.value].socket == c
  }

  /** The first position of `c`, or the length. */
  function Find<T(==)>(list: seq<T>, c: T): (i: nat)
    ensures i <= |list|
    ensures i < |list| ==> list[i] == c
    ensures forall k | 0 <= k < i :: list[k] != c
  {
    if list == [] then 0
    else if list[0] == c then 0
    else Find(list[1..], c) + 1
  }

  /** The first place of `c` takes the last element, and the list gets one shorter. */
  function RemoveSwap(list: seq<nat>, c: nat): seq<nat> {
    var i := Find(list, c);
    if i == |list| then list
    else if i == |list| - 1 then list[..i]
    else list[i := list[|list| - 1]][..|list| - 1]
  }

  function Unsubscribe(index: map<Id, seq<nat>>, c: nat, types: seq<Id>): map<Id, seq<nat>> {
    if types == [] then index
    else
      var before, t := Unsubscribe(index, c, types[..|types| - 1]), types[|types| - 1];
      if t in before then before[t := RemoveSwap(before[t], c)] else before
  }

  function AddOnce<T(==)>(list: seq<T>, x: T): seq<T> {
    if x in list then list else list + [x]
  }

  function Subscribed(s: Listener, c: nat, t: Id): Listener
    requires c in s.conns && Positions(s)
  {
    s.(index := s.index[t := AddOnce(List(s.index, t), c)],
       conns := s.conns[c := s.conns[c].(subscribe := AddOnce(s.conns[c].subscribe, t))],
       log := Append(s.log, c, SubscribeAck(true, t, Infos(s, t))))
  }

  /** The tables with the service of a closing connection offline, before subscribers are told. */
  function Released(s: Listener, c: nat): Listener
    requires Registered(s, c)
  {
    var j := s.conns[c].service.value;
    s.(services := s.services[j := s.services[j].(socket := 0, online := false)])
  }

  /** The service of a closing connection goes offline, unless another connection has taken it over. */
  function Release(s: Listener, c: nat): Listener {
    if Registered(s, c) then Update(Released(s, c), s.conns[c].service.value) else s
  }

  function Forget(s: Listener, c: nat): Listener
    requires c in s.conns
  {
    s.(index := Unsubscribe(s.index, c, s.conns[c].subscribe),
       conns := s.conns[c := s.conns[c].(service := None, live := false)])
  }

  /** The tables with the remote service's new state, before subscribers are told. */
  function WithRemote(s: Listener, id: Id, tp: Id, online: bool): Listener
    requires Positions(s)
  {
    var s' := if id in s.byId then s else Emplace(s, Service(id, tp, false, false, 0));
    var j := s'.byId[id];
    s'.(services := s'.services[j := s'.services[j].(online := online)])
  }

  /** One atomic section; an event that is not possible in `s` changes nothing. */
  function Next(s: Listener, e: Event): Listener
    requires Positions(s)
  {
    match e
    case Accept(c) => if c == 0 || c in s.conns then s else s.(conns := s.conns[c := Conn(true, None, [])])
    case RegisterNew(c, id, tp) =>
      if c !in s.conns then s
      else Attach(Emplace(s, Service(id, tp, true, false, 0)), c, |s.services|)
    case RegisterKnown(c, id) =>
      if c in s.conns && s.conns[c].live && s.conns[c].service.None?
         && id in s.byId && s.services[s.byId[id]].isLocal
      then Attach(s, c, s.byId[id])
      else s
    case Remote(id, tp, online) =>
      var s' := WithRemote(s, id, tp, online);
      Update(s', s'.byId[id])
    case Subscribe(c, t) =>
      if c !in s.conns || !s.conns[c].live then s
      else if !Registered(s, c) then s.(log := Append(s.log, c, SubscribeAck(false, t, [])))
      else Subscribed(s, c, t)
    case Disconnect(c) =>
      if c in s.conns && s.conns[c].live then Forget(Release(s, c), c) else s
  }

  // ---------------------------------------------------------------------------
  // The subscriber's list

  /** `service_info_subscribe`. */
  datatype Entry = Entry(id: Id, online: bool)

  function Ids(list: seq<Entry>): seq<Id> {
    seq(|list|, i requires 0 <= i < |list| => list[i].id)
  }

  /** `update_subscribe` on the list of one type. */
  function Put(list: seq<Entry>, e: Entry): seq<Entry> {
    var i := Find(Ids(list), e.id);
    if i < |list| then list[i := e] else list + [e]
  }

  function Heard(list: seq<Entry>, t: Id, info: ServiceInfo): seq<Entry> {
    if U16(info.tp) == t then Put(list, Entry(U16(info.id), info.online)) else list
  }

  function HeardAll(list: seq<Entry>, t: Id, infos: seq<ServiceInfo>): seq<Entry> {
    if infos == [] then list else Heard(HeardAll(list, t, infos[..|infos| - 1]), t, infos[|infos| - 1])
  }

  function Told(note: Note): seq<ServiceInfo> {
    match note
    case SubscribeAck(ok, _, infos) => if ok then infos else []
    case SubscribeBrd(info) => [info]
  }

  /** The list of type `t` after the subscriber processed `notes`. */
  function View(notes: seq<Note>, t: Id): seq<Entry> {
    if notes == [] then []
    else HeardAll(View(notes[..|notes| - 1], t), t, Told(notes[|notes| - 1]))
  }

  function EntryAt(services: seq<Service>, j: nat): Entry {
    if j < |services| then Entry(services[j].id, services[j].online) else Entry(0, false)
  }

  /** The gate's own list of type `t`; positions beyond the table do not occur. */
  function Listing(s: Listener, t: Id): seq<Entry> {
    var js := List(s.types, t);
    seq(|js|, i requires 0 <= i < |js| => EntryAt(s.services, js[i]))
  }

  // ---------------------------------------------------------------------------
  // The two-way index

  lemma {:induction false} RemoveSwapRemoves(list: seq<nat>, c: nat)
    requires NoDuplicates(list)
    ensures NoDuplicates(RemoveSwap(list, c))
    ensures forall x :: x in RemoveSwap(list, c) <==> x in list && x != c
  {
    var i, r := Find(list, c), RemoveSwap(list, c);
    if i < |list| {
      var last := |list| - 1;
      forall x | x in list && x != c ensures x in r {
        var k :| 0 <= k < |list| && list[k] == x;
        assert if k == last then r[i] == x else r[k] == x;
      }
    }
  }

  lemma {:induction false} Unsubscribes(index: map<Id, seq<nat>>, c: nat, types: seq<Id>, t: Id)
    requires NoDuplicates(List(index, t))
    ensures var r := Unsubscribe(index, c, types);
            && NoDuplicates(List(r, t))
            && (forall x :: x in List(r, t) <==> x in List(index, t) && (x != c || t !in types))
    decreases |types|
  {
    if types != [] {
      var last, init := types[|types| - 1], types[..|types| - 1];
      Unsubscribes(index, c, init, t);
      assert forall u :: u in types <==> u in init || u == last;
      if t == last {
        RemoveSwapRemoves(List(Unsubscribe(index, c, init), t), c);
      }
    }
  }

  /** A connection is in the list of a type exactly when it is live and has the type in its own list. */
  ghost predicate TwoWay(index: map<Id, seq<nat>>, conns: map<nat, Conn>, t: Id) {
    && NoDuplicates(List(index, t))
    && (forall c :: c in List(index, t) <==> c in conns && conns[c].live && t in conns[c].subscribe)
  }

  ghost predicate Indexed(s: Listener) {
    && (forall t: Id :: TwoWay(s.index, s.conns, t))
    && (forall c | c in s.conns :: NoDuplicates(s.conns[c].subscribe))
  }

  lemma ForgetKeepsIndex(s: Listener, c: nat)
    requires Indexed(s) && c in s.conns
    ensures Indexed(Forget(s, c))
    ensures forall t: Id :: c !in List(Forget(s, c).index, t)
    ensures forall t: Id, x | x != c :: x in List(Forget(s, c).index, t) <==> x in List(s.index, t)
  {
    var s' := Forget(s, c);
    forall t: Id
      ensures TwoWay(s'.index, s'.conns, t) && c !in List(s'.index, t)
      ensures forall x | x != c :: x in List(s'.index, t) <==> x in List(s.index, t)
    {
      assert TwoWay(s.index, s.conns, t);
      Unsubscribes(s.index, c, s.conns[c].subscribe, t);
    }
  }

  lemma SubscribedKeepsIndex(s: Listener, c: nat, t: Id)
    requires Indexed(s) && Positions(s) && c in s.conns && s.conns[c].live
    ensures Indexed(Subscribed(s, c, t))
  {
    var s' := Subscribed(s, c, t);
    forall u: Id ensures TwoWay(s'.index, s'.conns, u) {
      assert TwoWay(s.index, s.conns, u);
    }
  }

  // ---------------------------------------------------------------------------
  // Tables and index

  ghost predicate TypesSound(services: seq<Service>, types: map<Id, seq<nat>>) {
    && (forall t, i | t in types && 0 <= i < |types[t]| :: types[t][i] < |services| && services[types[t][i]].tp == t)
    && (forall t | t in types :: NoDuplicates(types[t]))
    && (forall j | 0 <= j < |services| :: services[j].tp in types && j in types[services[j].tp])
  }

  ghost predicate IdsSound(services: seq<Service>, byId: map<Id, nat>) {
    forall id | id in byId :: byId[id] < |services| && services[byId[id]].id == id
  }

  ghost predicate ConnsSound(conns: map<nat, Conn>, n: nat) {
    && (forall c | c in conns && conns[c].service.Some? :: conns[c].service.value < n)
    && 0 !in conns
  }

  ghost predicate Tables(s: Listener) {
    IdsSound(s.services, s.byId) && TypesSound(s.services, s.types) && ConnsSound(s.conns, |s.services|)
  }

  ghost predicate Inv(s: Listener) {
    Tables(s) && Indexed(s)
  }

  lemma TypesExtended(services: seq<Service>, types: map<Id, seq<nat>>, v: Service)
    requires TypesSound(services, types)
    ensures TypesSound(services + [v], Append(types, v.tp, |services|))
  {
    var services', types', n := services + [v], Append(types, v.tp, |services|), |services|;
    forall j | 0 <= j < |services'| ensures services'[j].tp in types' && j in types'[services'[j].tp] {
      if j < n {
        assert j in types[services[j].tp];
      } else {
        assert types'[v.tp][|List(types, v.tp)|] == n;
      }
    }
  }

  lemma TypesChanged(services: seq<Service>, types: map<Id, seq<nat>>, j: nat, v: Service)
    requires TypesSound(services, types) && j < |services| && v.tp == services[j].tp
    ensures TypesSound(services[j := v], types)
  {
  }

  /** Which connections are live, and what they subscribed to, is the same in both states. */
  ghost predicate SameSubscribers(s: Listener, s': Listener) {
    && s'.index == s.index && s'.conns.Keys == s.conns.Keys
    && (forall c | c in s.conns :: s'.conns[c].live == s.conns[c].live && s'.conns[c].subscribe == s.conns[c].subscribe)
  }

  lemma IndexStays(s: Listener, s': Listener)
    requires Indexed(s) && SameSubscribers(s, s')
    ensures Indexed(s')
  {
    forall t: Id ensures TwoWay(s'.index, s'.conns, t) {
      assert TwoWay(s.index, s.conns, t);
    }
  }

  lemma UpdateKeeps(s: Listener, j: nat)
    requires Inv(s) && j < |s.services|
    ensures Inv(Update(s, j))
  {
    IndexStays(s, Update(s, j));
  }

  lemma ForgetKeeps(s: Listener, c: nat)
    requires Inv(s) && c in s.conns
    ensures Inv(Forget(s, c))
  {
    ForgetKeepsIndex(s, c);
  }

  // ---------------------------------------------------------------------------
  // Lists as they are heard

  ghost predicate DistinctIds(list: seq<Entry>) {
    forall i, j | 0 <= i < j < |list| :: list[i].id != list[j].id
  }

  lemma PutKeepsDistinct(list: seq<Entry>, e: Entry)
    requires DistinctIds(list)
    ensures DistinctIds(Put(list, e))
  {
    var i := Find(Ids(list), e.id);
    if i == |list| {
      forall k | 0 <= k < |list| ensures list[k].id != e.id {
        assert Ids(list)[k] == list[k].id;
      }
    } else {
      assert Ids(list)[i] == e.id;
    }
  }

  lemma {:induction false} HeardKeepsDistinct(list: seq<Entry>, t: Id, infos: seq<ServiceInfo>)
    requires DistinctIds(list)
    ensures DistinctIds(HeardAll(list, t, infos))
    decreases |infos|
  {
    if infos != [] {
      var info := infos[|infos| - 1];
      HeardKeepsDistinct(list, t, infos[..|infos| - 1]);
      PutKeepsDistinct(HeardAll(list, t, infos[..|infos| - 1]), Entry(U16(info.id), info.online));
    }
  }

  /** A subscriber never lists an id twice. */
  lemma {:induction false} ViewIsDistinct(notes: seq<Note>, t: Id)
    ensures DistinctIds(View(notes, t))
    decreases |notes|
  {
    if notes != [] {
      ViewIsDistinct(notes[..|notes| - 1], t);
      HeardKeepsDistinct(View(notes[..|notes| - 1], t), t, Told(notes[|notes| - 1]));
    }
  }

  lemma PutReplaces(list: seq<Entry>, p: nat, e: Entry)
    requires DistinctIds(list) && p < |list| && list[p].id == e.id
    ensures Put(list, e) == list[p := e]
  {
    var i := Find(Ids(list), e.id);
    assert Ids(list)[p] == e.id;
  }

  lemma PutAppends(list: seq<Entry>, e: Entry)
    requires DistinctIds(list + [e])
    ensures Put(list, e) == list + [e]
  {
    var i := Find(Ids(list), e.id);
    if i < |list| {
      assert (list + [e])[i].id == (list + [e])[|list|].id;
    }
  }

  lemma ViewOne(notes: seq<Note>, note: Note, t: Id)
    ensures View(notes + [note], t) == HeardAll(View(notes, t), t, Told(note))
  {
    assert (notes + [note])[..|notes + [note]| - 1] == notes;
  }

  lemma HeardOne(list: seq<Entry>, t: Id, info: ServiceInfo)
    ensures HeardAll(list, t, [info]) == Heard(list, t, info)
  {
    assert [info][..0] == [];
  }

  lemma {:induction false} HeardElsewhere(list: seq<Entry>, t: Id, infos: seq<ServiceInfo>)
    requires forall i | 0 <= i < |infos| :: U16(infos[i].tp) != t
    ensures HeardAll(list, t, infos) == list
    decreases |infos|
  {
    if infos != [] {
      HeardElsewhere(list, t, infos[..|infos| - 1]);
    }
  }

  /** What `infos` say about one type, as list entries. */
  ghost predicate Describes(infos: seq<ServiceInfo>, t: Id, l: seq<Entry>) {
    && |infos| == |l|
    && (forall i | 0 <= i < |l| :: U16(infos[i].tp) == t && Entry(U16(infos[i].id), infos[i].online) == l[i])
  }

  /** A subscriber without a list of the type takes over the list it is told. */
  lemma {:induction false} HeardFirst(infos: seq<ServiceInfo>, t: Id, l: seq<Entry>)
    requires Describes(infos, t, l) && DistinctIds(l)
    ensures HeardAll([], t, infos) == l
    decreases |infos|
  {
    if infos != [] {
      var n := |infos| - 1;
      assert Describes(infos[..n], t, l[..n]);
      HeardFirst(infos[..n], t, l[..n]);
      assert l == l[..n] + [l[n]];
      PutAppends(l[..n], l[n]);
    }
  }

  /** Hearing the first `n` entries of its own list again changes nothing. */
  lemma {:induction false} HeardAgain(infos: seq<ServiceInfo>, t: Id, l: seq<Entry>, n: nat)
    requires Describes(infos, t, l) && DistinctIds(l) && n <= |infos|
    ensures HeardAll(l, t, infos[..n]) == l
    decreases n
  {
    if n > 0 {
      HeardAgain(infos, t, l, n - 1);
      assert infos[..n][..n - 1] == infos[..n - 1];
      PutReplaces(l, n - 1, l[n - 1]);
    }
  }

  lemma {:induction false} BroadcastReaches(log: map<nat, seq<Note>>, to: seq<nat>, note: Note, c: nat)
    requires NoDuplicates(to)
    ensures List(Broadcast(log, to, note), c) == if c in to then List(log, c) + [note] else List(log, c)
    decreases |to|
  {
    if to != [] {
      BroadcastReaches(log, to[..|to| - 1], note, c);
      assert c in to <==> c in to[..|to| - 1] || c == to[|to| - 1];
    }
  }

  // ---------------------------------------------------------------------------
  // Agreement

  /** A subscriber's list of `t` is the gate's, as long as the gate lists no id twice; others have no such list. */
  ghost predicate Follows(s: Listener, c: nat, t: Id) {
    var view := View(List(s.log, c), t);
    if c !in s.conns then List(s.log, c) == []
    else if !s.conns[c].live then true
    else if t in s.conns[c].subscribe then DistinctIds(Listing(s, t)) ==> view == Listing(s, t)
    else view == []
  }

  /** The change to service `j` from `s` to `s'`, seen in the list of `t`. */
  ghost predicate Shows(s: Listener, s': Listener, j: nat, t: Id)
    requires j < |s'.services|
  {
    var v := s'.services[j];
    if t != v.tp then Listing(s', t) == Listing(s, t)
    else DistinctIds(Listing(s', t)) ==>
           DistinctIds(Listing(s, t)) && Listing(s', t) == Put(Listing(s, t), Entry(v.id, v.online))
  }

  lemma ChangeShows(s: Listener, s': Listener, j: nat, t: Id)
    requires Tables(s) && Tables(s') && j < |s.services| == |s'.services| && s'.types == s.types
    requires s'.services == s.services[j := s'.services[j]]
    requires s'.services[j].id == s.services[j].id && s'.services[j].tp == s.services[j].tp
    ensures Shows(s, s', j, t)
  {
    var v := s'.services[j];
    if t == v.tp {
      var js := s.types[t];
      assert j in js;
      var p :| 0 <= p < |js| && js[p] == j;
      var l, l' := Listing(s, t), Listing(s', t);
      assert l' == l[p := Entry(v.id, v.online)];
      if DistinctIds(l') {
        assert DistinctIds(l) by {
          assert forall i | 0 <= i < |l| :: l[i].id == l'[i].id;
        }
        PutReplaces(l, p, Entry(v.id, v.online));
      }
    }
  }

  lemma NewShows(s: Listener, s': Listener, t: Id)
    requires Tables(s) && Tables(s') && |s'.services| == |s.services| + 1
    requires var j := |s.services|; s'.services[..j] == s.services && s'.types == Append(s.types, s'.services[j].tp, j)
    ensures Shows(s, s', |s.services|, t)
  {
    var j := |s.services|;
    var v := s'.services[j];
    var l, l' := Listing(s, t), Listing(s', t);
    assert forall i | 0 <= i < j :: s'.services[i] == s.services[i];
    if t == v.tp {
      assert l' == l + [Entry(v.id, v.online)];
      if DistinctIds(l') {
        assert DistinctIds(l) by {
          assert forall i | 0 <= i < |l| :: l[i] == l'[i];
        }
        PutAppends(l, Entry(v.id, v.online));
      }
    }
  }

  // ---------------------------------------------------------------------------
  // Changes and the broadcasts that tell of them

  /** A state of the tables, and the service whose change subscribers are about to be told of. */
  datatype Announcement = Announcement(state: Listener, service: nat)

  function Announcing(s: Listener, e: Event): Option<Announcement>
    requires Positions(s)
  {
    match e
    case RegisterNew(c, id, tp) =>
      if c !in s.conns then None
      else Some(Announcement(Attached(Emplace(s, Service(id, tp, true, false, 0)), c, |s.services|), |s.services|))
    case RegisterKnown(c, id) =>
      if c in s.conns && s.conns[c].live && s.conns[c].service.None?
         && id in s.byId && s.services[s.byId[id]].isLocal
      then Some(Announcement(Attached(s, c, s.byId[id]), s.byId[id]))
      else None
    case Remote(id, tp, online) =>
      Some(Announcement(WithRemote(s, id, tp, online), WithRemote(s, id, tp, online).byId[id]))
    case Disconnect(c) =>
      if Registered(s, c) then Some(Announcement(Released(s, c), s.conns[c].service.value)) else None
    case _ => None
  }

  /** `s'` differs from `s` in service `j` only, changed or new, and keeps the invariant. */
  ghost predicate Announces(s: Listener, s': Listener, j: nat) {
    && Inv(s) && Inv(s') && j < |s'.services|
    && s'.log == s.log && SameSubscribers(s, s')
    && (forall t: Id :: Shows(s, s', j, t))
  }

  lemma ChangeAnnounces(s: Listener, s': Listener, j: nat)
    requires Inv(s) && j < |s.services| == |s'.services|
    requires s'.services == s.services[j := s'.services[j]] && s'.types == s.types && s'.byId == s.byId
    requires s'.services[j].id == s.services[j].id && s'.services[j].tp == s.services[j].tp
    requires s'.log == s.log && SameSubscribers(s, s') && ConnsSound(s'.conns, |s'.services|)
    ensures Announces(s, s', j)
  {
    TypesChanged(s.services, s.types, j, s'.services[j]);
    IndexStays(s, s');
    forall t: Id ensures Shows(s, s', j, t) {
      ChangeShows(s, s', j, t);
    }
  }

  lemma NewAnnounces(s: Listener, s': Listener, v: Service)
    requires Inv(s) && s'.services == s.services + [v] && s'.types == Append(s.types, v.tp, |s.services|)
    requires s'.byId == if v.id in s.byId then s.byId else s.byId[v.id := |s.services|]
    requires s'.log == s.log && SameSubscribers(s, s') && ConnsSound(s'.conns, |s'.services|)
    ensures Announces(s, s', |s.services|)
  {
    TypesExtended(s.services, s.types, v);
    IndexStays(s, s');
    forall t: Id ensures Shows(s, s', |s.services|, t) {
      NewShows(s, s', t);
    }
  }

  lemma RegisterAnnounces(s: Listener, c: nat, id: Id, tp: Id)
    requires Inv(s) && c in s.conns
    ensures Announces(s, Attached(Emplace(s, Service(id, tp, true, false, 0)), c, |s.services|), |s.services|)
  {
    var s' := Attached(Emplace(s, Service(id, tp, true, false, 0)), c, |s.services|);
    NewAnnounces(s, s', s'.services[|s.services|]);
  }

  lemma RemoteAnnounces(s: Listener, id: Id, tp: Id, online: bool)
    requires Inv(s)
    ensures var s' := WithRemote(s, id, tp, online); Announces(s, s', s'.byId[id])
  {
    var s' := WithRemote(s, id, tp, online);
    if id in s.byId {
      ChangeAnnounces(s, s', s'.byId[id]);
    } else {
      NewAnnounces(s, s', s'.services[|s.services|]);
    }
  }

  lemma EventAnnounces(s: Listener, e: Event)
    requires Inv(s) && Announcing(s, e).Some?
    ensures Announces(s, Announcing(s, e).value.state, Announcing(s, e).value.service)
  {
    match e {
      case RegisterNew(c, id, tp) => RegisterAnnounces(s, c, id, tp);
      case RegisterKnown(c, id) => ChangeAnnounces(s, Attached(s, c, s.byId[id]), s.byId[id]);
      case Remote(id, tp, online) => RemoteAnnounces(s, id, tp, online);
      case Disconnect(c) => ChangeAnnounces(s, Released(s, c), s.conns[c].service.value);
    }
  }

  /** What a step does, as a change that is announced, followed by forgetting a closed connection. */
  lemma NextAnnounces(s: Listener, e: Event)
    requires Inv(s)
    ensures var a := Announcing(s, e);
            && (a.Some? ==> Announces(s, a.value.state, a.value.service))
            && (a.Some? && !e.Disconnect? ==> Next(s, e) == Update(a.value.state, a.value.service))
            && (a.Some? && e.Disconnect? ==> Next(s, e) == Forget(Update(a.value.state, a.value.service), e.conn))
  {
    if Announcing(s, e).Some? {
      EventAnnounces(s, e);
    }
  }

  lemma ReleaseKeeps(s: Listener, c: nat)
    requires Inv(s)
    ensures Inv(Release(s, c))
  {
    if Registered(s, c) {
      EventAnnounces(s, Disconnect(c));
      UpdateKeeps(Released(s, c), s.conns[c].service.value);
    }
  }

  lemma AcceptKeeps(s: Listener, c: nat)
    requires Inv(s)
    ensures Inv(Next(s, Accept(c)))
  {
    var s' := Next(s, Accept(c));
    forall t: Id ensures TwoWay(s'.index, s'.conns, t) {
      assert TwoWay(s.index, s.conns, t);
    }
  }

  lemma SubscribeKeeps(s: Listener, c: nat, t: Id)
    requires Inv(s) && c in s.conns && s.conns[c].live
    ensures Inv(Next(s, Subscribe(c, t)))
  {
    if Registered(s, c) {
      SubscribedKeepsIndex(s, c, t);
    } else {
      IndexStays(s, Next(s, Subscribe(c, t)));
    }
  }

  lemma NextKeeps(s: Listener, e: Event)
    requires Inv(s)
    ensures Inv(Next(s, e))
  {
    NextAnnounces(s, e);
    if Announcing(s, e).Some? {
      var a := Announcing(s, e).value;
      UpdateKeeps(a.state, a.service);
      if e.Disconnect? {
        ForgetKeeps(Update(a.state, a.service), e.conn);
      }
    } else if e.Accept? {
      AcceptKeeps(s, e.conn);
    } else if e.Subscribe? && e.conn in s.conns && s.conns[e.conn].live {
      SubscribeKeeps(s, e.conn, e.tp);
    } else if e.Disconnect? && e.conn in s.conns {
      ForgetKeeps(s, e.conn);
    }
  }

  /** What a subscriber of type `t` lists after it was told of `v`. */
  lemma ToldOf(notes: seq<Note>, v: Service, t: Id)
    ensures View(notes + [SubscribeBrd(InfoOf(v))], t) ==
            if v.tp == t then Put(View(notes, t), Entry(v.id, v.online)) else View(notes, t)
  {
    var l := View(notes, t);
    assert View(notes + [SubscribeBrd(InfoOf(v))], t) == Heard(l, t, InfoOf(v)) by {
      ViewOne(notes, SubscribeBrd(InfoOf(v)), t);
      HeardOne(l, t, InfoOf(v));
    }
  }

  /** A broadcast reaches exactly the live connections subscribed to its type, once each. */
  lemma UpdateReaches(s: Listener, j: nat, c: nat)
    requires Indexed(s) && j < |s.services|
    ensures List(Update(s, j).log, c) ==
            if c in s.conns && s.conns[c].live && s.services[j].tp in s.conns[c].subscribe
            then List(s.log, c) + [SubscribeBrd(InfoOf(s.services[j]))] else List(s.log, c)
  {
    assert TwoWay(s.index, s.conns, s.services[j].tp);
    BroadcastReaches(s.log, List(s.index, s.services[j].tp), SubscribeBrd(InfoOf(s.services[j])), c);
  }

  lemma UpdateFollows(s: Listener, s': Listener, j: nat, c: nat, t: Id)
    requires Inv(s) && Inv(s') && j < |s'.services| && Shows(s, s', j, t) && Follows(s, c, t)
    requires s'.log == s.log && s'.conns.Keys == s.conns.Keys
    requires c in s.conns ==> s'.conns[c].live == s.conns[c].live && s'.conns[c].subscribe == s.conns[c].subscribe
    ensures Follows(Update(s', j), c, t)
  {
    UpdateReaches(s', j, c);
    ToldOf(List(s.log, c), s'.services[j], t);
    assert Listing(Update(s', j), t) == Listing(s', t);
  }

  lemma AckFollows(s: Listener, t: Id, view: seq<Entry>)
    requires Inv(s) && DistinctIds(Listing(s, t)) && (view == [] || view == Listing(s, t))
    ensures HeardAll(view, t, Infos(s, t)) == Listing(s, t)
  {
    var infos := Infos(s, t);
    assert Describes(infos, t, Listing(s, t));
    HeardFirst(infos, t, Listing(s, t));
    HeardAgain(infos, t, Listing(s, t), |infos|);
    assert infos[..|infos|] == infos;
  }

  lemma AckIsOfType(s: Listener, t: Id, u: Id, view: seq<Entry>)
    requires Inv(s) && u != t
    ensures HeardAll(view, u, Infos(s, t)) == view
  {
    assert forall i | 0 <= i < |Infos(s, t)| :: U16(Infos(s, t)[i].tp) == t;
    HeardElsewhere(view, u, Infos(s, t));
  }

  lemma SubscriberFollows(s: Listener, c: nat, t: Id, u: Id)
    requires Inv(s) && c in s.conns && s.conns[c].live && Follows(s, c, u)
    ensures Follows(Subscribed(s, c, t), c, u)
  {
    var s', view := Subscribed(s, c, t), View(List(s.log, c), u);
    assert Listing(s', u) == Listing(s, u);
    assert View(List(s'.log, c), u) == HeardAll(view, u, Infos(s, t)) by {
      ViewOne(List(s.log, c), SubscribeAck(true, t, Infos(s, t)), u);
    }
    if u != t {
      AckIsOfType(s, t, u, view);
    } else if DistinctIds(Listing(s, t)) {
      AckFollows(s, t, view);
    }
  }

  lemma SubscribedFollows(s: Listener, c: nat, t: Id, x: nat, u: Id)
    requires Inv(s) && c in s.conns && s.conns[c].live && Follows(s, x, u)
    ensures Follows(Subscribed(s, c, t), x, u)
  {
    if x == c {
      SubscriberFollows(s, c, t, u);
    } else {
      assert Listing(Subscribed(s, c, t), u) == Listing(s, u);
    }
  }

  ghost predicate AllFollow(s: Listener) {
    forall c: nat, t: Id :: Follows(s, c, t)
  }

  lemma AnnouncedFollows(s: Listener, s': Listener, j: nat)
    requires Announces(s, s', j) && AllFollow(s)
    ensures Inv(Update(s', j)) && AllFollow(Update(s', j))
  {
    UpdateKeeps(s', j);
    forall c: nat, t: Id ensures Follows(Update(s', j), c, t) {
      assert Follows(s, c, t) && Shows(s, s', j, t);
      UpdateFollows(s, s', j, c, t);
    }
  }

  lemma ForgetFollows(s: Listener, c: nat)
    requires Inv(s) && AllFollow(s) && c in s.conns
    ensures Inv(Forget(s, c)) && AllFollow(Forget(s, c))
  {
    ForgetKeeps(s, c);
    forall x: nat, t: Id ensures Follows(Forget(s, c), x, t) {
      assert Follows(s, x, t);
      assert Listing(Forget(s, c), t) == Listing(s, t);
    }
  }

  lemma RefusalFollows(s: Listener, c: nat, t: Id, x: nat, u: Id)
    requires Inv(s) && Follows(s, x, u) && c in s.conns
    ensures Follows(s.(log := Append(s.log, c, SubscribeAck(false, t, []))), x, u)
  {
    var s' := s.(log := Append(s.log, c, SubscribeAck(false, t, [])));
    ViewOne(List(s.log, x), SubscribeAck(false, t, []), u);
    assert Listing(s', u) == Listing(s, u);
  }

  lemma SubscribeFollows(s: Listener, c: nat, t: Id)
    requires Inv(s) && AllFollow(s) && c in s.conns && s.conns[c].live
    ensures AllFollow(Next(s, Subscribe(c, t)))
  {
    if Registered(s, c) {
      forall x: nat, u: Id ensures Follows(Subscribed(s, c, t), x, u) {
        SubscribedFollows(s, c, t, x, u);
      }
    } else {
      forall x: nat, u: Id ensures Follows(s.(log := Append(s.log, c, SubscribeAck(false, t, []))), x, u) {
        RefusalFollows(s, c, t, x, u);
      }
    }
  }

  lemma AcceptFollows(s: Listener, c: nat)
    requires Inv(s) && AllFollow(s)
    ensures AllFollow(Next(s, Accept(c)))
  {
    var s' := Next(s, Accept(c));
    forall x: nat, u: Id ensures Follows(s', x, u) {
      assert Follows(s, x, u);
      assert Listing(s', u) == Listing(s, u);
    }
  }

  lemma NextFollows(s: Listener, e: Event)
    requires Inv(s) && AllFollow(s)
    ensures AllFollow(Next(s, e))
  {
    NextAnnounces(s, e);
    if Announcing(s, e).Some? {
      var a := Announcing(s, e).value;
      AnnouncedFollows(s, a.state, a.service);
      if e.Disconnect? {
        ForgetFollows(Update(a.state, a.service), e.conn);
      }
    } else if e.Accept? {
      AcceptFollows(s, e.conn);
    } else if e.Subscribe? && e.conn in s.conns && s.conns[e.conn].live {
      SubscribeFollows(s, e.conn, e.tp);
    } else if e.Disconnect? && e.conn in s.conns {
      ForgetFollows(s, e.conn);
    }
  }

  /** The state after `es`; table and index agree in every one. */
  function Play(es: seq<Event>): (s: Listener)
    ensures Inv(s)
  {
    if es == [] then
      assert forall t: Id :: TwoWay(map[], map[], t);
      NOTHING
    else
      var s := Play(es[..|es| - 1]);
      NextKeeps(s, es[|es| - 1]);
      Next(s, es[|es| - 1])
  }

  lemma {:induction false} PlayFollows(es: seq<Event>)
    ensures AllFollow(Play(es))
    decreases |es|
  {
    if es != [] {
      PlayFollows(es[..|es| - 1]);
      NextFollows(Play(es[..|es| - 1]), es[|es| - 1]);
    }
  }

  /**
   * At every point of every run, a live subscriber that has processed what was written to it lists the services of
   * its type exactly as the gate does, exactly when the gate lists no id of that type twice.
   */
  lemma SubscriberAgreement(es: seq<Event>, c: nat, t: Id)
    requires var s := Play(es); c in s.conns && s.conns[c].live && t in s.conns[c].subscribe
    ensures var s := Play(es); View(List(s.log, c), t) == Listing(s, t) <==> DistinctIds(Listing(s, t))
  {
    PlayFollows(es);
    assert Follows(Play(es), c, t);
    ViewIsDistinct(List(Play(es).log, c), t);
  }

  // ---------------------------------------------------------------------------
  // When an id is listed twice

  ghost predicate UniqueIds(s: Listener) {
    forall i, j | 0 <= i < j < |s.services| :: s.services[i].id != s.services[j].id
  }

  ghost predicate Found(s: Listener) {
    forall j | 0 <= j < |s.services| :: s.services[j].id in s.byId
  }

  /** A registration comes back from its wait for the gate master and finds its id taken meanwhile. */
  ghost predicate Races(s: Listener, e: Event) {
    e.RegisterNew? && e.conn in s.conns && e.id in s.byId
  }

  /** `s'` has the services of `s`, and one more of the given id if there is one. */
  ghost predicate Adds(s: Listener, s': Listener, more: Option<Id>) {
    && |s'.services| == |s.services| + (if more.Some? then 1 else 0)
    && (forall i | 0 <= i < |s.services| :: s'.services[i].id == s.services[i].id)
    && (more.Some? ==> s'.services[|s.services|].id == more.value)
    && s'.byId.Keys == s.byId.Keys + if more.Some? then {more.value} else {}
  }

  function Adding(s: Listener, e: Event): Option<Id> {
    match e
    case RegisterNew(c, id, _) => if c in s.conns then Some(id) else None
    case Remote(id, _, _) => if id in s.byId then None else Some(id)
    case _ => None
  }

  lemma RegisterAdds(s: Listener, c: nat, id: Id, tp: Id)
    requires Inv(s) && c in s.conns
    ensures Adds(s, Next(s, RegisterNew(c, id, tp)), Some(id))
  {
  }

  lemma RemoteAdds(s: Listener, id: Id, tp: Id, online: bool)
    requires Inv(s)
    ensures Adds(s, Next(s, Remote(id, tp, online)), if id in s.byId then None else Some(id))
  {
  }

  lemma CloseAddsNone(s: Listener, c: nat)
    requires Inv(s) && c in s.conns
    ensures Adds(s, Forget(Release(s, c), c), None)
  {
    assert Adds(s, Release(s, c), None);
  }

  lemma OthersAddNone(s: Listener, e: Event)
    requires Inv(s) && !e.RegisterNew? && !e.Remote? && !e.Disconnect?
    ensures Adds(s, Next(s, e), None)
  {
  }

  lemma NextAdds(s: Listener, e: Event)
    requires Inv(s)
    ensures Adds(s, Next(s, e), Adding(s, e))
  {
    if e.RegisterNew? && e.conn in s.conns {
      RegisterAdds(s, e.conn, e.id, e.tp);
    } else if e.Remote? {
      RemoteAdds(s, e.id, e.tp, e.online);
    } else if e.Disconnect? && e.conn in s.conns {
      CloseAddsNone(s, e.conn);
    } else if !e.RegisterNew? && !e.Disconnect? {
      OthersAddNone(s, e);
    }
  }

  lemma AddsUnique(s: Listener, s': Listener, more: Option<Id>)
    requires Tables(s) && Found(s) && Adds(s, s', more)
    ensures Found(s')
    ensures UniqueIds(s') <==> UniqueIds(s) && (more.Some? ==> more.value !in s.byId)
  {
    if more.Some? && more.value in s.byId {
      assert s'.services[s.byId[more.value]].id == s'.services[|s.services|].id;
    }
    if UniqueIds(s') {
      forall i, j | 0 <= i < j < |s.services| ensures s.services[i].id != s.services[j].id {
        assert s'.services[i].id != s'.services[j].id;
      }
    }
  }

  lemma NextUnique(s: Listener, e: Event)
    requires Inv(s) && Found(s)
    ensures Found(Next(s, e))
    ensures UniqueIds(Next(s, e)) <==> UniqueIds(s) && !Races(s, e)
  {
    NextAdds(s, e);
    AddsUnique(s, Next(s, e), Adding(s, e));
  }

  ghost predicate NoRace(es: seq<Event>) {
    es == [] || (NoRace(es[..|es| - 1]) && !Races(Play(es[..|es| - 1]), es[|es| - 1]))
  }

  /** The gate keeps one service per id exactly in the runs without such a race. */
  lemma {:induction false} UniqueIffNoRace(es: seq<Event>)
    ensures Found(Play(es))
    ensures UniqueIds(Play(es)) <==> NoRace(es)
    decreases |es|
  {
    if es != [] {
      UniqueIffNoRace(es[..|es| - 1]);
      NextUnique(Play(es[..|es| - 1]), es[|es| - 1]);
    }
  }

  lemma UniqueIsDistinct(s: Listener, t: Id)
    requires Inv(s) && UniqueIds(s)
    ensures DistinctIds(Listing(s, t))
  {
    var js := List(s.types, t);
    forall i, j | 0 <= i < j < |js| ensures Listing(s, t)[i].id != Listing(s, t)[j].id {
      assert js[i] != js[j];
      if js[i] < js[j] {
        assert s.services[js[i]].id != s.services[js[j]].id;
      } else {
        assert s.services[js[j]].id != s.services[js[i]].id;
      }
    }
  }

  /** In a run without races every subscriber agrees with the gate on every type it follows. */
  lemma AgreementWithoutRaces(es: seq<Event>, c: nat, t: Id)
    requires NoRace(es)
    requires var s := Play(es); c in s.conns && s.conns[c].live && t in s.conns[c].subscribe
    ensures var s := Play(es); View(List(s.log, c), t) == Listing(s, t)
  {
    UniqueIffNoRace(es);
    UniqueIsDistinct(Play(es), t);
    SubscriberAgreement(es, c, t);
  }

  lemma PlayOne(es: seq<Event>, e: Event)
    ensures Play(es + [e]) == Next(Play(es), e)
  {
    assert (es + [e])[..|es + [e]| - 1] == es;
  }

  lemma ListedTwice(s: Listener, x: nat, id: Id, t: Id, k: nat)
    requires Inv(s) && x in s.conns && k < |Listing(s, t)| && Listing(s, t)[k].id == id
    ensures Inv(Next(s, RegisterNew(x, id, t))) && !DistinctIds(Listing(Next(s, RegisterNew(x, id, t)), t))
  {
    NextKeeps(s, RegisterNew(x, id, t));
    var l, l' := Listing(s, t), Listing(Next(s, RegisterNew(x, id, t)), t);
    assert |l'| == |l| + 1;
    assert l'[k].id == l'[|l|].id;
  }

  /** After a race on an id of type `t`, no subscriber of `t` agrees with the gate. */
  lemma RaceBreaksAgreement(es: seq<Event>, c: nat, x: nat, id: Id, t: Id, k: nat)
    requires var s := Play(es);
             && c in s.conns && s.conns[c].live && t in s.conns[c].subscribe
             && x in s.conns && k < |Listing(s, t)| && Listing(s, t)[k].id == id
    ensures var s := Play(es + [RegisterNew(x, id, t)]);
            && c in s.conns && s.conns[c].live && t in s.conns[c].subscribe
            && View(List(s.log, c), t) != Listing(s, t)
  {
    PlayOne(es, RegisterNew(x, id, t));
    ListedTwice(Play(es), x, id, t, k);
    SubscriberAgreement(es + [RegisterNew(x, id, t)], c, t);
  }

  // ---------------------------------------------------------------------------
  // Connections and their services

  /** Only services of this machine are reached through a connection. */
  ghost predicate LocalOnly(services: seq<Service>, conns: map<nat, Conn>) {
    && (forall c | c in conns && conns[c].service.Some? ::
          conns[c].service.value < |services| && services[conns[c].service.value].isLocal)
    && (forall j | 0 <= j < |services| && services[j].socket != 0 :: services[j].isLocal)
  }

  lemma AnnouncingLocal(s: Listener, e: Event)
    requires Inv(s) && LocalOnly(s.services, s.conns) && Announcing(s, e).Some?
    ensures LocalOnly(Announcing(s, e).value.state.services, Announcing(s, e).value.state.conns)
  {
  }

  lemma QuietLocal(s: Listener, e: Event)
    requires Inv(s) && LocalOnly(s.services, s.conns) && Announcing(s, e).None?
    ensures LocalOnly(Next(s, e).services, Next(s, e).conns)
  {
    assert Next(s, e).services == s.services;
  }

  lemma NextLocal(s: Listener, e: Event)
    requires Inv(s) && LocalOnly(s.services, s.conns)
    ensures LocalOnly(Next(s, e).services, Next(s, e).conns)
  {
    NextAnnounces(s, e);
    if Announcing(s, e).Some? {
      AnnouncingLocal(s, e);
    } else {
      QuietLocal(s, e);
    }
  }

  lemma {:induction false} PlayLocal(es: seq<Event>)
    ensures LocalOnly(Play(es).services, Play(es).conns)
    decreases |es|
  {
    if es != [] {
      PlayLocal(es[..|es| - 1]);
      NextLocal(Play(es[..|es| - 1]), es[|es| - 1]);
    }
  }

  /** A live connection that registers an id is the one its service is reached through, and the service is online. */
  lemma RegistrationTakesOver(s: Listener, c: nat, id: Id)
    requires Inv(s) && c in s.conns && s.conns[c].live && s.conns[c].service.None?
    requires id in s.byId && s.services[s.byId[id]].isLocal
    ensures var s' := Next(s, RegisterKnown(c, id));
            && Registered(s', c) && s'.conns[c].service == Some(s.byId[id])
            && s'.services[s.byId[id]].online
            && (forall j | 0 <= j < |s.services| && j != s.byId[id] :: s'.services[j] == s.services[j])
            && (forall x | x in s.conns && x != c && Registered(s, x) && s.conns[x].service == Some(s.byId[id]) ::
                  !Registered(s', x))
  {
  }

  /** Why step `e` may leave service `j` online or offline. */
  ghost predicate Causes(s: Listener, e: Event, j: nat, online: bool)
    requires Inv(s) && j < |s.services|
  {
    match e
    case RegisterKnown(c, id) =>
      online && c in s.conns && s.conns[c].live && s.services[j].isLocal && s.services[j].id == id
    case Remote(id, _, on) => online == on && s.services[j].id == id
    case Disconnect(c) => !online && Registered(s, c) && s.conns[c].service == Some(j)
    case _ => false
  }

  lemma AnnouncingCauses(s: Listener, e: Event, j: nat)
    requires Inv(s) && j < |s.services| && Announcing(s, e).Some?
    ensures var services := Announcing(s, e).value.state.services;
            && j < |services|
            && (services[j].online != s.services[j].online ==> Causes(s, e, j, services[j].online))
  {
  }

  lemma NextCauses(s: Listener, e: Event, j: nat)
    requires Inv(s) && j < |s.services|
    ensures j < |Next(s, e).services|
    ensures Next(s, e).services[j].online != s.services[j].online ==> Causes(s, e, j, Next(s, e).services[j].online)
  {
    NextAnnounces(s, e);
    if Announcing(s, e).Some? {
      AnnouncingCauses(s, e, j);
    } else {
      assert Next(s, e).services == s.services;
    }
  }

  /**
   * In every run a service comes online only by a live connection registering it or by word from its own gate, and
   * goes offline only by such word or by the end of the connection it is registered through. The end of a connection
   * whose service was taken over takes nothing offline.
   */
  lemma ServiceChangesBy(es: seq<Event>, e: Event, j: nat)
    requires j < |Play(es).services|
    ensures j < |Play(es + [e]).services|
    ensures var was, now := Play(es).services[j].online, Play(es + [e]).services[j].online;
            now != was ==> Causes(Play(es), e, j, now)
  {
    PlayOne(es, e);
    NextCauses(Play(es), e, j);
  }

  // ---------------------------------------------------------------------------
  // Picking a service

  /** The ids a subscriber may pick. */
  function Online(list: seq<Entry>): seq<Id> {
    if list == [] then []
    else
      var last := list[|list| - 1];
      if last.online then Online(list[..|list| - 1]) + [last.id] else Online(list[..|list| - 1])
  }

  lemma {:induction false} OnlineIds(list: seq<Entry>, id: Id)
    ensures id in Online(list) <==> exists i :: 0 <= i < |list| && list[i] == Entry(id, true)
    decreases |list|
  {
    if list != [] {
      var n := |list| - 1;
      OnlineIds(list[..n], id);
      assert forall i | 0 <= i < n :: list[..n][i] == list[i];
      if i :| 0 <= i < |list| && list[i] == Entry(id, true) {
        assert i < n ==> list[..n][i] == Entry(id, true);
      }
    }
  }

  /** `rand_subscribe`: one of the services marked online, or 0; `dice` stands for the random engine. */
  method RandSubscribe(list: seq<Entry>, dice: nat) returns (id: Id)
    ensures Online(list) == [] ==> id == 0
    ensures Online(list) != [] ==> id == Online(list)[dice % |Online(list)|]
    ensures Online(list) != [] ==> exists i :: 0 <= i < |list| && list[i] == Entry(id, true)
  {
    var online: seq<Id> := [];
    for i := 0 to |list|
      invariant online == Online(list[..i])
    {
      assert list[..i + 1][..i] == list[..i];
      if list[i].online {
        online := online + [list[i].id];
      }
    }
    assert list[..|list|] == list;
    if |online| == 0 {
      return 0;
    }
    id := online[dice % |online|];
    OnlineIds(list, id);
  }
}
