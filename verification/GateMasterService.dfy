/** The gate master as it runs: tables updated in place by one handler at a time. */
module GateMasterService {
  import opened RegistryMessages
  import opened GateMaster

  /** The messages depend on the tables only. */
  lemma {:induction false} PublishFrame(m: Master, m': Master, log: map<nat, seq<Message>>, g: Id, order: seq<Id>)
    requires m.gates == m'.gates && m.services == m'.services && Listed(m) && g in m.gates
    requires forall i | 0 <= i < |order| :: order[i] in m.gates
    ensures Publish(m, log, g, order) == Publish(m', log, g, order)
    decreases |order|
  {
    if order != [] {
      var k := m.gates[order[0]].socket;
      PublishFrame(m, m', log, g, order[1..]);
      PublishFrame(m, m', Write(log, k, RegisterBrd([InfoOf(m, g)])), g, order[1..]);
    }
  }

  class Registry {
    var gates: map<Id, Gate>
    var services: map<Id, Service>
    var sockets: map<nat, Option<Id>>
    /** Everything handed to the network, per connection. */
    var log: map<nat, seq<Message>>

    ghost function State(): Master
      reads this
    {
      Master(gates, services, sockets, log)
    }

    ghost predicate Valid()
      reads this
    {
      Inv(State())
    }

    constructor ()
      ensures Valid() && State() == INITIAL
    {
      gates, services, sockets, log := map[], map[], map[], map[];
    }

    method AcceptSocket(k: nat)
      requires Valid() && k != 0 && k !in log
      modifies this
      ensures Valid() && State() == Next(old(State()), Accept(k))
    {
      sockets := sockets[k := None];
      log := log[k := []];
    }

    /** One iteration order of an unordered table with these keys. */
    static method HashOrder(keys: set<Id>) returns (order: seq<Id>)
      ensures Enumerates(order, keys)
    {
      order := [];
      var left := keys;
      while left != {}
        invariant left <= keys && NoDuplicates(order)
        invariant forall i | 0 <= i < |order| :: order[i] in keys && order[i] !in left
        invariant forall g | g in keys :: g in left || g in order
        decreases left
      {
        var g :| g in left;
        order := order + [g];
        left := left - {g};
      }
    }

    method CheckServices(infos: seq<ServiceInfo>, gate: Id) returns (ok: bool)
      ensures ok == Accepts(services, infos, gate)
    {
      for i := 0 to |infos|
        invariant forall j | 0 <= j < i :: U16(infos[j].id) in services ==> services[U16(infos[j].id)].gate == gate
      {
        var id := U16(infos[i].id);
        if id in services && services[id].gate != gate {
          return false;
        }
      }
      return true;
    }

    method AddAll(infos: seq<ServiceInfo>, gate: Id)
      requires gate in gates
      modifies `gates, `services
      ensures var t := AddServices(Tables(old(services), old(gates[gate].services)), infos, gate);
              services == t.services && gates == old(gates)[gate := old(gates[gate]).(services := t.list)]
    {
      ghost var start := Tables(services, gates[gate].services);
      for i := 0 to |infos|
        invariant gate in gates && gates == old(gates)[gate := old(gates[gate]).(services := gates[gate].services)]
        invariant AddServices(Tables(services, gates[gate].services), infos[i..], gate) ==
                  AddServices(start, infos, gate)
      {
        var s := infos[i];
        var id := U16(s.id);
        assert infos[i..][1..] == infos[i + 1..];
        if id in services {
          services := services[id := services[id].(online := s.online)];
        } else {
          services := services[id := Service(U16(s.tp), gate, s.online)];
          gates := gates[gate := gates[gate].(services := gates[gate].services + [id])];
        }
      }
    }

    method Info(g: Id) returns (info: GateInfo)
      requires Listed(State()) && g in gates
      ensures info == InfoOf(State(), g)
    {
      var list := gates[g].services;
      var infos: seq<ServiceInfo> := [];
      for i := 0 to |list|
        invariant infos == Describe(services, list)[..i]
      {
        infos := infos + [ServiceInfo(list[i], services[list[i]].tp, services[list[i]].online)];
      }
      info := GateInfo(g, gates[g].addresses, infos);
    }

    method PublishGate(g: Id, order: seq<Id>)
      requires Listed(State()) && g in gates && Enumerates(order, gates.Keys)
      modifies `log
      ensures log == Publish(old(State()), old(log), g, order)
    {
      var info := Info(g);
      for i := 0 to |order|
        invariant Publish(old(State()), log, g, order[i..]) == Publish(old(State()), old(log), g, order)
      {
        assert order[i..][1..] == order[i + 1..];
        var h := gates[order[i]];
        if h.socket != 0 && order[i] != g {
          log := Write(log, h.socket, RegisterBrd([info]));
        }
      }
    }

    method SnapshotFor(me: Id, order: seq<Id>) returns (infos: seq<GateInfo>)
      requires Listed(State()) && Enumerates(order, gates.Keys)
      ensures infos == Snapshot(State(), me, order)
    {
      infos := [];
      for i := 0 to |order|
        invariant infos + Snapshot(State(), me, order[i..]) == Snapshot(State(), me, order)
      {
        assert order[i..][1..] == order[i + 1..];
        ghost var rest := Snapshot(State(), me, order[i + 1..]);
        if order[i] != me {
          var info := Info(order[i]);
          assert infos + ([info] + rest) == infos + [info] + rest;
          infos := infos + [info];
        } else {
          assert [] + rest == rest;
        }
      }
    }

    /** The accepted part of a registration, up to the acknowledgement. */
    method Attach(k: nat, info: GateInfo)
      requires k in sockets && !Refused(State(), k, Request.Register(info))
      requires sockets[k].Some? ==> sockets[k].value in gates
      modifies this
      ensures State() == Bind(old(State()), k, info)
    {
      var id := U16(info.id);
      if sockets[k].Some? {
        var bound := gates[id].socket;
        if bound != k && bound in sockets {
          sockets := sockets[bound := None];
        }
      } else if id !in gates {
        gates := gates[id := Gate(0, [], [])];
      }
      sockets := sockets[k := Some(id)];
      gates := gates[id := gates[id].(socket := k, addresses := info.addresses)];
      ghost var list := if id in old(gates) then old(gates)[id].services else [];
      assert gates == old(gates)[id := Gate(k, info.addresses, list)];
      AddAll(info.services, id);
    }

    method Admit(k: nat, session: nat, info: GateInfo) returns (order: seq<Id>)
      requires Valid() && k in sockets && !Refused(State(), k, Request.Register(info))
      modifies this
      ensures Enabled(old(State()), Receive(k, session, Request.Register(info), order))
      ensures State() == Next(old(State()), Receive(k, session, Request.Register(info), order))
    {
      var id := U16(info.id);
      ghost var b := Bind(State(), k, info);
      BindKeepsTables(State(), k, info);
      Attach(k, info);
      order := HashOrder(gates.Keys);
      var infos := SnapshotFor(id, order);
      log := Write(log, k, RegisterAck(session, true, infos));
      PublishFrame(State(), b, log, id, order);
      PublishGate(id, order);
    }

    /** Handles a gate's registration on connection `k`; `order` is the hash order it met. */
    method Register(k: nat, session: nat, info: GateInfo) returns (order: seq<Id>)
      requires Valid() && k in sockets
      modifies this
      ensures Valid() && Enabled(old(State()), Receive(k, session, Request.Register(info), order))
      ensures State() == Next(old(State()), Receive(k, session, Request.Register(info), order))
    {
      var id := U16(info.id);
      ghost var m := State();
      var ok := CheckServices(info.services, id);
      if !ok || (sockets[k].Some? && sockets[k].value != id) {
        order := HashOrder(gates.Keys + {id});
        log := Write(log, k, RegisterAck(session, false, []));
      } else {
        order := Admit(k, session, info);
      }
      NextKeepsInv(m, Receive(k, session, Request.Register(info), order));
    }

    method UploadServices(k: nat, session: nat, infos: seq<ServiceInfo>) returns (order: seq<Id>)
      requires Valid() && k in sockets
      modifies this
      ensures Valid() && Enabled(old(State()), Receive(k, session, Upload(infos), order))
      ensures State() == Next(old(State()), Receive(k, session, Upload(infos), order))
    {
      ghost var m := State();
      order := HashOrder(gates.Keys);
      var ok := false;
      if sockets[k].Some? {
        ok := CheckServices(infos, sockets[k].value);
      }
      if !ok {
        log := Write(log, k, UploadAck(session, false));
      } else {
        var g := sockets[k].value;
        AddAll(infos, g);
        ExtendKeepsTables(m, g, infos);
        assert State() == Extend(m, g, infos);
        log := Write(log, k, UploadAck(session, true));
        PublishFrame(State(), Extend(m, g, infos), log, g, order);
        PublishGate(g, order);
      }
      NextKeepsInv(m, Receive(k, session, Upload(infos), order));
    }

    method GateDisconnect(g: Id, order: seq<Id>)
      requires Listed(State()) && g in gates && Enumerates(order, gates.Keys)
      modifies `gates, `services, `log
      ensures gates == old(gates)[g := old(gates[g]).(socket := 0)]
      ensures services == TakeOffline(old(services), old(gates[g]).services)
      ensures Listed(State()) && log == Publish(State(), old(log), g, order)
    {
      gates := gates[g := gates[g].(socket := 0)];
      var list := gates[g].services;
      for i := 0 to |list|
        invariant services == TakeOffline(old(services), list[..i])
        invariant gates == old(gates)[g := old(gates[g]).(socket := 0)] && log == old(log)
      {
        assert list[..i + 1] == list[..i] + [list[i]];
        services := services[list[i] := services[list[i]].(online := false)];
      }
      assert list[..|list|] == list;
      ghost var b := State();
      PublishGate(g, order);
      PublishFrame(State(), b, old(log), g, order);
    }

    /** The tail of a connection's coroutine, after its receive loop has failed. */
    method SocketClosed(k: nat) returns (order: seq<Id>)
      requires Valid() && k in sockets
      modifies this
      ensures Valid() && Enabled(old(State()), Disconnect(k, order))
      ensures State() == Next(old(State()), Disconnect(k, order))
    {
      ghost var m := State();
      order := HashOrder(gates.Keys);
      if sockets[k].Some? && gates[sockets[k].value].socket == k {
        var g := sockets[k].value;
        GateDisconnect(g, order);
        PublishFrame(State(), Unbind(m, k, g), m.log, g, order);
      }
      sockets := sockets - {k};
      NextKeepsInv(m, Disconnect(k, order));
    }
  }
}
