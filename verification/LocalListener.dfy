/** The gate's listener for services on its machine, and the list a subscribed service keeps, as they run. */
module LocalListener {
  import opened RegistryMessages
  import opened Subscriptions

  class ServiceListener {
    var services: seq<Service>
    var byId: map<Id, nat>
    var types: map<Id, seq<nat>>
    var conns: map<nat, Conn>
    var index: map<Id, seq<nat>>
    var log: map<nat, seq<Note>>

    function Value(): Listener
      reads this
    {
      Listener(services, byId, types, conns, index, log)
    }

    constructor ()
      ensures Value() == NOTHING
    {
      services, byId, types, conns, index, log := [], map[], map[], map[], map[], map[];
    }

    method UpdateService(j: nat)
      requires j < |services|
      modifies `log
      ensures Value() == Update(old(Value()), j)
    {
      var tp := services[j].tp;
      if tp !in index {
        return;
      }
      var note := SubscribeBrd(InfoOf(services[j]));
      for i := 0 to |index[tp]|
        invariant log == Broadcast(old(log), index[tp][..i], note)
      {
        assert index[tp][..i + 1][..i] == index[tp][..i];
        log := Append(log, index[tp][i], note);
      }
      assert index[tp][..|index[tp]|] == index[tp];
    }

    method EmplaceService(service: Service)
      modifies `services, `byId, `types
      ensures Value() == Emplace(old(Value()), service)
    {
      if service.id !in byId {
        byId := byId[service.id := |services|];
      }
      types := Append(types, service.tp, |services|);
      services := services + [service];
    }

    method Connect(c: nat, j: nat)
      requires c in conns && j < |services|
      modifies this
      ensures Value() == Attach(old(Value()), c, j)
    {
      conns := conns[c := conns[c].(service := Some(j))];
      services := services[j := services[j].(socket := if conns[c].live then c else 0)];
      services := services[j := services[j].(online := true)];
      UpdateService(j);
    }

    method RegisterUnknown(c: nat, id: Id, tp: Id)
      requires Inv(Value()) && c in conns
      modifies this
      ensures Inv(Value()) && Value() == Next(old(Value()), RegisterNew(c, id, tp))
    {
      NextKeeps(Value(), RegisterNew(c, id, tp));
      EmplaceService(Service(id, tp, true, false, 0));
      Connect(c, |services| - 1);
    }

    method AddRemoteService(id: Id, tp: Id, online: bool)
      requires Inv(Value())
      modifies this
      ensures Inv(Value()) && Value() == Next(old(Value()), Remote(id, tp, online))
    {
      NextKeeps(Value(), Remote(id, tp, online));
      SetRemote(id, tp, online);
    }

    method SetRemote(id: Id, tp: Id, online: bool)
      requires Positions(Value())
      modifies this
      ensures Value() == Next(old(Value()), Remote(id, tp, online))
    {
      if id !in byId {
        EmplaceService(Service(id, tp, false, false, 0));
      }
      var j := byId[id];
      services := services[j := services[j].(online := online)];
      assert Value() == WithRemote(old(Value()), id, tp, online);
      UpdateService(j);
    }

    /** The state of every service of the type. */
    method Describe(t: Id) returns (infos: seq<ServiceInfo>)
      requires Tables(Value())
      ensures infos == Infos(Value(), t)
    {
      var js := if t in types then types[t] else [];
      infos := [];
      for i := 0 to |js|
        invariant infos == Infos(Value(), t)[..i]
      {
        infos := infos + [InfoOf(services[js[i]])];
      }
    }

    method EnterIndex(c: nat, t: Id)
      requires c in conns
      modifies `index, `conns
      ensures index == old(index)[t := AddOnce(List(old(index), t), c)]
      ensures conns == old(conns)[c := old(conns)[c].(subscribe := AddOnce(old(conns)[c].subscribe, t))]
    {
      var list := if t in index then index[t] else [];
      if c !in list {
        list := list + [c];
      }
      index := index[t := list];
      if t !in conns[c].subscribe {
        conns := conns[c := conns[c].(subscribe := conns[c].subscribe + [t])];
      }
    }

    method ServiceSubscribe(c: nat, t: Id)
      requires Inv(Value()) && c in conns && conns[c].live
      modifies this
      ensures Inv(Value()) && Value() == Next(old(Value()), Subscribe(c, t))
    {
      NextKeeps(Value(), Subscribe(c, t));
      if conns[c].service.None? || services[conns[c].service.value].socket != c {
        log := Append(log, c, SubscribeAck(false, t, []));
        return;
      }
      var infos := Describe(t);
      EnterIndex(c, t);
      log := Append(log, c, SubscribeAck(true, t, infos));
    }

    /** The closing connection leaves the list; the last entry takes its place. */
    static method Leave(list: seq<nat>, c: nat) returns (r: seq<nat>)
      ensures r == RemoveSwap(list, c)
      ensures NoDuplicates(list) ==> NoDuplicates(r) && forall x :: x in r <==> x in list && x != c
    {
      r := list;
      var size := |list|;
      var i := 0;
      while i < size && list[i] != c
        invariant i <= size
        invariant forall k | 0 <= k < i :: list[k] != c
      {
        i := i + 1;
      }
      if i < size {
        if i != size - 1 {
          r := r[i := r[size - 1]];
        }
        r := r[..size - 1];
      }
      if NoDuplicates(list) {
        RemoveSwapRemoves(list, c);
      }
    }

    method LeaveIndex(c: nat, mine: seq<Id>)
      modifies `index
      ensures index == Unsubscribe(old(index), c, mine)
    {
      for i := 0 to |mine|
        invariant index == Unsubscribe(old(index), c, mine[..i])
      {
        assert mine[..i + 1][..i] == mine[..i];
        if mine[i] in index {
          var r := Leave(index[mine[i]], c);
          index := index[mine[i] := r];
        }
      }
      assert mine[..|mine|] == mine;
    }

    /** The clean-up when the receive loop of a connection has failed. */
    method CleanUp(c: nat)
      requires Positions(Value()) && c in conns && conns[c].live
      requires conns[c].service.Some? ==> conns[c].service.value < |services|
      modifies this
      ensures Value() == Forget(Release(old(Value()), c), c)
    {
      if conns[c].service.Some? && services[conns[c].service.value].socket == c {
        var j := conns[c].service.value;
        services := services[j := services[j].(socket := 0, online := false)];
        UpdateService(j);
      }
      assert Value() == Release(old(Value()), c);
      LeaveIndex(c, conns[c].subscribe);
      conns := conns[c := conns[c].(service := None, live := false)];
    }

    method SocketClosed(c: nat)
      requires Inv(Value()) && c in conns && conns[c].live
      modifies this
      ensures Inv(Value()) && Value() == Next(old(Value()), Disconnect(c))
      ensures old(Registered(Value(), c)) ==>
                var j := old(conns[c].service.value); j < |services| && !services[j].online && services[j].socket == 0
      ensures forall t: Id :: c !in List(index, t)
      ensures forall t: Id, x | x != c :: x in List(index, t) <==> x in List(old(index), t)
    {
      NextKeeps(Value(), Disconnect(c));
      ReleaseKeeps(Value(), c);
      ForgetKeepsIndex(Release(Value(), c), c);
      CleanUp(c);
    }
  }

  /** `subscribes_` of a gate connector. */
  class ServiceBook {
    var lists: map<Id, seq<Entry>>

    constructor ()
      ensures forall t: Id :: List(lists, t) == []
    {
      lists := map[];
    }

    method UpdateSubscribe(info: ServiceInfo)
      modifies this
      ensures forall t: Id :: List(lists, t) == Heard(old(List(lists, t)), t, info)
    {
      var tp, e := U16(info.tp), Entry(U16(info.id), info.online);
      var list := if tp in lists then lists[tp] else [];
      var i := 0;
      while i < |list| && list[i].id != e.id
        invariant i <= |list|
        invariant forall k | 0 <= k < i :: list[k].id != e.id
      {
        i := i + 1;
      }
      assert Find(Ids(list), e.id) == i by {
        assert i < |list| ==> Ids(list)[i] == e.id;
        assert forall k | 0 <= k < i :: Ids(list)[k] != e.id;
      }
      if i < |list| {
        list := list[i := e];
      } else {
        list := list + [e];
      }
      lists := lists[tp := list];
    }

    /** A subscribe acknowledgement or a broadcast. */
    method Hear(note: Note)
      modifies this
      ensures forall t: Id :: List(lists, t) == HeardAll(old(List(lists, t)), t, Told(note))
    {
      var infos := Told(note);
      for i := 0 to |infos|
        invariant forall t: Id :: List(lists, t) == HeardAll(old(List(lists, t)), t, infos[..i])
      {
        assert infos[..i + 1][..i] == infos[..i];
        UpdateSubscribe(infos[i]);
      }
      assert infos[..|infos|] == infos;
    }
  }
}
