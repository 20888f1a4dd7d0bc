/** A gate's copy of the registry: which gate hosts each service, and where the other gates listen. */
module RoutingTable {
  import opened RegistryMessages

  datatype Route = Route(gate: Id, tp: Id, online: bool)

  datatype Table = Table(routes: map<Id, Route>, remotes: map<Id, seq<Address>>)

  /** An unknown id becomes a service of gate `g`; a known one only changes its online flag. */
  function AddRemoteService(t: Table, g: Id, info: ServiceInfo): Table {
    var id := U16(info.id);
    if id in t.routes then
      t.(routes := t.routes[id := t.routes[id].(online := info.online)])
    else
      t.(routes := t.routes[id := Route(g, U16(info.tp), info.online)])
  }

  function AddRemoteServices(t: Table, g: Id, infos: seq<ServiceInfo>): Table
    decreases |infos|
  {
    if infos == [] then t else AddRemoteServices(AddRemoteService(t, g, infos[0]), g, infos[1..])
  }

  function AddRemoteGate(t: Table, info: GateInfo): Table {
    AddRemoteServices(t.(remotes := t.remotes[U16(info.id) := info.addresses]), U16(info.id), info.services)
  }

  function AddRemoteGates(t: Table, infos: seq<GateInfo>): Table
    decreases |infos|
  {
    if infos == [] then t else AddRemoteGates(AddRemoteGate(t, infos[0]), infos[1..])
  }

  /** What one message from the master does to the table. */
  function Apply(t: Table, msg: Message): Table {
    match msg
    case RegisterAck(_, ok, gates) => if ok then AddRemoteGates(t, gates) else t
    case UploadAck(_, _) => t
    case RegisterBrd(gates) => AddRemoteGates(t, gates)
  }

  function Replay(t: Table, msgs: seq<Message>): Table {
    if msgs == [] then t else Apply(Replay(t, msgs[..|msgs| - 1]), msgs[|msgs| - 1])
  }

  /** The receiving side as it runs: tables updated in place, one received gate record at a time. */
  class MasterConnector {
    var routes: map<Id, Route>
    var remotes: map<Id, seq<Address>>

    ghost function State(): Table
      reads this
    {
      Table(routes, remotes)
    }

    constructor ()
      ensures State() == Table(map[], map[])
    {
      routes, remotes := map[], map[];
    }

    method AcceptGate(info: GateInfo)
      modifies this
      ensures State() == AddRemoteGate(old(State()), info)
    {
      var g := U16(info.id);
      remotes := remotes[g := info.addresses];
      ghost var start := State();
      for i := 0 to |info.services|
        invariant AddRemoteServices(State(), g, info.services[i..]) == AddRemoteServices(start, g, info.services)
      {
        ghost var before := State();
        var s := info.services[i];
        var id := U16(s.id);
        assert info.services[i..][1..] == info.services[i + 1..];
        if id !in routes {
          routes := routes[id := Route(g, U16(s.tp), false)];
        }
        routes := routes[id := routes[id].(online := s.online)];
        assert State() == AddRemoteService(before, g, s);
      }
    }

    method Receive(msg: Message)
      modifies this
      ensures State() == Apply(old(State()), msg)
    {
      var gates := match msg
        case RegisterAck(_, ok, gates) => if ok then gates else []
        case UploadAck(_, _) => []
        case RegisterBrd(gates) => gates;
      for i := 0 to |gates|
        invariant AddRemoteGates(State(), gates[i..]) == AddRemoteGates(old(State()), gates)
      {
        assert gates[i..][1..] == gates[i + 1..];
        AcceptGate(gates[i]);
      }
    }
  }
}
