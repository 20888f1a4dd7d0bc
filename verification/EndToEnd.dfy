/**
 * Many machines: services write to the gate beside them, gates write to services or to each other. Each connection
 * between gates keeps its order; what is left on it when it breaks may still be read, or never.
 */
module EndToEnd {
  import opened RegistryMessages
  import opened Framing
  import opened Delivery
  import opened PacketOrder
  import opened Connections
  import SendQueue
  import RemoteLink

  /** A service's side of its channel to the gate, and how far the gate has read it. */
  datatype Source = Source(stage: Stage, read: nat)

  /** `wires[(g, h)]` is what `h` has read from `g`. A gate, source or wire that is absent has its initial value. */
  datatype World = World(gates: map<nat, Gate>, sources: map<nat, Source>, wires: map<(nat, nat), seq<Arrival>>)

  datatype Step =
    | Submit(sender: Id, to: Id, id: Id, session: nat, body: Bytes, room: bool)
    | OpenChannel(service: nat)
    | Drain(service: nat, room: bool)
    | Relay(service: nat, room: bool)
    | Arrive(from: nat, here: nat, conn: nat, room: bool)
    | Inside(gate: nat, event: Event)

  const BEGIN := World(map[], map[], map[])

  function GateOf(w: World, g: nat): Gate {
    if g in w.gates then w.gates[g] else Delivery.EMPTY
  }

  function SourceOf(w: World, a: nat): Source {
    if a in w.sources then w.sources[a] else Source(SendQueue.Closed(), 0)
  }

  function WireOf(w: World, g: nat, h: nat): seq<Arrival> {
    if (g, h) in w.wires then w.wires[(g, h)] else []
  }

  /** Gate `s`'s side of the link to gate `h`. */
  function LinkOf(s: Gate, h: nat): Link {
    if h in s.links then s.links[h] else RemoteLink.Idle()
  }

  /** What gate `g` handed to the network for gate `h`. */
  function Handed(w: World, g: nat, h: nat): seq<Packet> {
    LinkOf(GateOf(w, g), h).handed
  }

  /** What gate `h` has read from gate `g`, in that order. */
  function Got(w: World, g: nat, h: nat): seq<Packet> {
    Packets(LinkOf(GateOf(w, g), h), WireOf(w, g, h))
  }

  function SetStage(w: World, a: nat, stage: Stage): World {
    w.(sources := w.sources[a := Source(stage, SourceOf(w, a).read)])
  }

  /** A gate routes by ownership: local services are its own, remote ones sit at the gate that owns them. */
  predicate Routed(home: nat -> nat, g: nat, e: Event) {
    match e
    case Forward(_, _) => false
    case AddLocal(d, _) => home(d) == g
    case AddRemote(d, k) => home(d) == k && k != g
    case _ => true
  }

  /** Only a packet's bytes travel: the gate that gets them reads sender and receiver from the header. */
  function Forwarded(s: Gate, p: Packet, room: bool): Gate {
    Delivery.Next(s, Event.Forward(p.bytes, room))
  }

  /** `home(a)` is the gate that owns service `a`; a step that is not possible changes nothing. */
  function Next(w: World, e: Step, home: nat -> nat): World {
    match e
    case Submit(a, to, id, session, body, room) =>
      var p := Parse(Addressed(a, to, id, session, body));
      SetStage(w, a, SendQueue.Next(SourceOf(w, a).stage, SendQueue.Write(p, room)))
    case OpenChannel(a) => SetStage(w, a, SendQueue.Next(SourceOf(w, a).stage, SendQueue.Open))
    case Drain(a, room) => SetStage(w, a, SendQueue.Next(SourceOf(w, a).stage, SendQueue.Advance(room)))
    case Relay(a, room) =>
      var src := SourceOf(w, a);
      if src.read < |src.stage.out|
      then w.(sources := w.sources[a := src.(read := src.read + 1)],
              gates := w.gates[home(a) := Forwarded(GateOf(w, home(a)), src.stage.out[src.read], room)])
      else w
    case Arrive(g, h, c, room) =>
      var l, arrivals := LinkOf(GateOf(w, g), h), WireOf(w, g, h);
      var next := NextPos(l, arrivals, c);
      if g == h || next.None? then w
      else w.(wires := w.wires[(g, h) := arrivals + [Arrival(c, next.value)]],
              gates := w.gates[h := Forwarded(GateOf(w, h), PacketAt(l, next.value), room)])
    case Inside(g, ev) =>
      if Routed(home, g, ev) then w.(gates := w.gates[g := Delivery.Next(GateOf(w, g), ev)]) else w
  }

  function Play(es: seq<Step>, home: nat -> nat): World {
    if es == [] then BEGIN else Next(Play(es[..|es| - 1], home), es[|es| - 1], home)
  }

  // ---------------------------------------------------------------------------
  // Invariant

  ghost predicate AllFrom(packets: seq<Packet>, a: nat) {
    forall i | 0 <= i < |packets| :: packets[i].from == a
  }

  /** The packet's header says what the packet says. */
  ghost predicate Genuine(p: Packet) {
    |p.bytes| >= FORWARD_SIZE && p == Parse(p.bytes)
  }

  ghost predicate AllGenuine(packets: seq<Packet>) {
    forall i | 0 <= i < |packets| :: Genuine(packets[i])
  }

  lemma GenuineRoutes(s: Gate, p: Packet, room: bool)
    requires Genuine(p)
    ensures Forwarded(s, p, room) == Route(s, p, room)
  {
  }

  ghost predicate SourceSound(w: World, a: nat) {
    var s := SourceOf(w, a);
    && SendQueue.Inv(s.stage)
    && s.read <= |s.stage.out|
    && AllFrom(s.stage.given, a) && AllGenuine(s.stage.given)
  }

  ghost predicate Placed(s: Gate, g: nat, home: nat -> nat) {
    forall d | d in s.targets ::
      match s.targets[d]
      case Local(_) => home(d) == g
      case Remote(k) => home(d) == k && k != g
  }

  ghost predicate GateSound(w: World, g: nat, home: nat -> nat) {
    Delivery.Inv(GateOf(w, g)) && Placed(GateOf(w, g), g, home)
  }

  ghost predicate WireSound(w: World, g: nat, h: nat) {
    Regular(LinkOf(GateOf(w, g), h), WireOf(w, g, h))
  }

  /** What the gate has read from `a`. */
  function Read(s: Source): seq<Packet> {
    if s.read <= |s.stage.out| then s.stage.out[..s.read] else s.stage.out
  }

  /** What of `a`'s packets for `d` has come to gate `g`. */
  function Come(w: World, g: nat, a: nat, d: nat, home: nat -> nat): seq<Packet> {
    if home(a) == g then Sel(Read(SourceOf(w, a)), a, d)
    else if home(d) == g then Sel(Got(w, home(a), g), a, d)
    else []
  }

  ghost predicate Accounted(w: World, g: nat, a: nat, d: nat, home: nat -> nat) {
    Sel(At(GateOf(w, g).forwarded, d), a, d) == Come(w, g, a, d, home)
  }

  ghost predicate Inv(w: World, home: nat -> nat) {
    && (forall a: nat :: SourceSound(w, a))
    && (forall g: nat :: GateSound(w, g, home))
    && (forall g: nat, h: nat :: WireSound(w, g, h))
    && (forall g: nat, a: nat, d: nat :: Accounted(w, g, a, d, home))
  }

  /** A step inside gate `s` keeps what went to each connection. */
  ghost predicate Appends(s: Gate, s': Gate) {
    forall h: nat :: RemoteLink.Grows(LinkOf(s, h), LinkOf(s', h))
  }

  lemma {:induction false} SendAllAppends(link: Link, messages: seq<Packet>)
    ensures RemoteLink.Grows(link, SendAll(link, messages))
    decreases |messages|
  {
    if messages != [] {
      SendAllAppends(link, messages[..|messages| - 1]);
    }
  }

  lemma InsidePlaces(s: Gate, e: Event, g: nat, home: nat -> nat)
    requires Placed(s, g, home) && Routed(home, g, e)
    ensures Placed(Delivery.Next(s, e), g, home) && Delivery.Next(s, e).forwarded == s.forwarded
  {
  }

  lemma LinkAppends(s: Gate, s': Gate, g: nat)
    requires s'.links == s.links || s'.links == s.links[g := LinkOf(s', g)]
    requires RemoteLink.Grows(LinkOf(s, g), LinkOf(s', g))
    ensures Appends(s, s')
  {
    forall h: nat ensures RemoteLink.Grows(LinkOf(s, h), LinkOf(s', h)) {
      assert h != g ==> LinkOf(s', h) == LinkOf(s, h);
    }
  }

  lemma RouteAppends(s: Gate, p: Packet, room: bool, g: nat, home: nat -> nat)
    requires Placed(s, g, home)
    ensures Placed(Route(s, p, room), g, home) && Appends(s, Route(s, p, room))
  {
    if p.to in s.targets && s.targets[p.to].Remote? {
      LinkAppends(s, Route(s, p, room), s.targets[p.to].gate);
    } else {
      LinkAppends(s, Route(s, p, room), g);
    }
  }

  lemma InsideAppends(s: Gate, e: Event, g: nat, home: nat -> nat)
    requires Routed(home, g, e)
    ensures Appends(s, Delivery.Next(s, e))
  {
    match e {
      case AddLink(k) => LinkAppends(s, Delivery.Next(s, e), k);
      case AddRemote(d, k) =>
        SendAllAppends(LinkOf(s, k), At(s.waiting, d));
        LinkAppends(s, Delivery.Next(s, e), k);
      case LinkConnected(k, _) => LinkAppends(s, Delivery.Next(s, e), k);
      case LinkLost(k) => LinkAppends(s, Delivery.Next(s, e), k);
      case AddLocal(_, _) => LinkAppends(s, Delivery.Next(s, e), g);
      case Advance(_, _) => LinkAppends(s, Delivery.Next(s, e), g);
    }
  }

  // ---------------------------------------------------------------------------
  // Each step keeps the invariant

  lemma GatesKept(w: World, w': World, g: nat, home: nat -> nat)
    requires forall k: nat :: GateSound(w, k, home)
    requires w'.gates == w.gates || (w'.gates == w.gates[g := GateOf(w', g)] && GateSound(w', g, home))
    ensures forall k: nat :: GateSound(w', k, home)
  {
    forall k: nat ensures GateSound(w', k, home) {
      assert GateSound(w, k, home);
      assert k != g ==> GateOf(w', k) == GateOf(w, k);
    }
  }

  lemma SourcesKept(w: World, w': World, a: nat)
    requires forall x: nat :: SourceSound(w, x)
    requires w'.sources == w.sources || (w'.sources == w.sources[a := SourceOf(w', a)] && SourceSound(w', a))
    ensures forall x: nat :: SourceSound(w', x)
  {
    forall x: nat ensures SourceSound(w', x) {
      assert SourceSound(w, x);
      assert x != a ==> SourceOf(w', x) == SourceOf(w, x);
    }
  }

  lemma LinkSplit(w: World, g: nat, h: nat, home: nat -> nat)
    requires GateSound(w, g, home)
    ensures RemoteLink.Split(LinkOf(GateOf(w, g), h))
  {
    if h in GateOf(w, g).links {
      assert LinkSound(GateOf(w, g), h);
    }
  }

  lemma WireKept(w: World, w': World, k: nat, h: nat, home: nat -> nat)
    requires WireSound(w, k, h) && GateSound(w', k, home)
    requires WireOf(w', k, h) == WireOf(w, k, h) && Appends(GateOf(w, k), GateOf(w', k))
    ensures WireSound(w', k, h) && Got(w', k, h) == Got(w, k, h)
  {
    LinkSplit(w', k, h, home);
    assert RemoteLink.Grows(LinkOf(GateOf(w, k), h), LinkOf(GateOf(w', k), h));
    RegularGrows(LinkOf(GateOf(w, k), h), LinkOf(GateOf(w', k), h), WireOf(w, k, h));
  }

  lemma WiresKept(w: World, w': World, g: nat, home: nat -> nat)
    requires forall k: nat, h: nat :: WireSound(w, k, h)
    requires forall k: nat :: GateSound(w', k, home)
    requires w'.gates == w.gates || w'.gates == w.gates[g := GateOf(w', g)]
    requires Appends(GateOf(w, g), GateOf(w', g)) && w'.wires == w.wires
    ensures forall k: nat, h: nat :: WireSound(w', k, h) && Got(w', k, h) == Got(w, k, h)
  {
    forall k: nat, h: nat ensures WireSound(w', k, h) && Got(w', k, h) == Got(w, k, h) {
      assert WireSound(w, k, h) && GateSound(w', k, home);
      assert k != g ==> GateOf(w', k) == GateOf(w, k);
      WireKept(w, w', k, h, home);
    }
  }

  lemma AccountsKept(w: World, w': World, home: nat -> nat)
    requires forall g: nat, a: nat, d: nat :: Accounted(w, g, a, d, home)
    requires forall g: nat :: GateOf(w', g).forwarded == GateOf(w, g).forwarded
    requires forall a: nat :: Read(SourceOf(w', a)) == Read(SourceOf(w, a))
    requires forall g: nat, h: nat :: Got(w', g, h) == Got(w, g, h)
    ensures forall g: nat, a: nat, d: nat :: Accounted(w', g, a, d, home)
  {
    forall g: nat, a: nat, d: nat ensures Accounted(w', g, a, d, home) {
      assert Accounted(w, g, a, d, home);
      assert GateOf(w', g).forwarded == GateOf(w, g).forwarded;
    }
  }

  lemma StageStepKeeps(w: World, a: nat, stage: Stage, home: nat -> nat)
    requires Inv(w, home) && SendQueue.Inv(stage) && SourceOf(w, a).stage.out <= stage.out
    requires AllFrom(stage.given, a) && AllGenuine(stage.given)
    ensures Inv(SetStage(w, a, stage), home)
  {
    var w' := SetStage(w, a, stage);
    assert SourceSound(w, a);
    assert Read(SourceOf(w', a)) == Read(SourceOf(w, a));
    SourcesKept(w, w', a);
    GatesKept(w, w', 0, home);
    WiresKept(w, w', 0, home);
    AccountsKept(w, w', home);
  }

  lemma GateStepKeeps(w: World, g: nat, s: Gate, home: nat -> nat)
    requires Inv(w, home) && Delivery.Inv(s) && Placed(s, g, home)
    requires Appends(GateOf(w, g), s) && s.forwarded == GateOf(w, g).forwarded
    ensures Inv(w.(gates := w.gates[g := s]), home)
  {
    var w' := w.(gates := w.gates[g := s]);
    SourcesKept(w, w', 0);
    GatesKept(w, w', g, home);
    WiresKept(w, w', g, home);
    AccountsKept(w, w', home);
  }

  lemma ReadIsGenuine(w: World, a: nat, p: Packet)
    requires SourceSound(w, a) && p in Read(SourceOf(w, a))
    ensures Genuine(p)
  {
    var s := SourceOf(w, a);
    var i :| 0 <= i < |Read(s)| && Read(s)[i] == p;
    assert s.stage.given[i] == p;
  }

  /** A packet on the wire from `g` to `h` was sent by a service of `g` to a service of `h`, as its header says. */
  lemma HandedBelongs(w: World, g: nat, h: nat, i: nat, home: nat -> nat)
    requires Inv(w, home) && i < |Handed(w, g, h)|
    ensures var p := Handed(w, g, h)[i]; home(p.from) == g && home(p.to) == h && g != h && Genuine(p)
  {
    var s := GateOf(w, g);
    var link := s.links[h];
    var p := link.handed[i];
    assert GateSound(w, g, home) && LinkSound(s, h) && TargetSound(s, p.to) && SourceSound(w, p.from);
    assert link.sent[i] == p;
    SelHas(link.sent, i);
    SelKeepsMember(link.sent, i);
    SelFor(link.sent, p.from, p.to);
    assert Accounted(w, g, p.from, p.to, home);
    assert p in Sel(Read(SourceOf(w, p.from)), p.from, p.to);
    SelMember(Read(SourceOf(w, p.from)), p, p.from, p.to);
    ReadIsGenuine(w, p.from, p);
  }

  /** One more packet at the end, if it is between `x` and `d`. */
  function Plus(xs: seq<Packet>, p: Packet, x: nat, d: nat): seq<Packet> {
    if p.from == x && p.to == d then xs + [p] else xs
  }

  lemma Recorded(s: Gate, p: Packet, room: bool, x: nat, d: nat)
    requires Delivery.Inv(s)
    ensures Sel(At(Route(s, p, room).forwarded, d), x, d) == Plus(Sel(At(s.forwarded, d), x, d), p, x, d)
  {
    assert TargetSound(s, p.to);
    RouteRecords(s, p, room, d);
    SelOne(At(s.forwarded, d), p, x, d);
  }

  lemma RelayCome(w: World, w': World, a: nat, p: Packet, home: nat -> nat, k: nat, x: nat, d: nat)
    requires p.from == a
    requires w'.sources == w.sources[a := SourceOf(w', a)] && Got(w', home(x), k) == Got(w, home(x), k)
    requires Read(SourceOf(w', a)) == Read(SourceOf(w, a)) + [p]
    ensures Come(w', k, x, d, home) ==
            if k == home(a) then Plus(Come(w, k, x, d, home), p, x, d) else Come(w, k, x, d, home)
  {
    if x == a {
      SelOne(Read(SourceOf(w, a)), p, x, d);
    } else {
      assert SourceOf(w', x) == SourceOf(w, x);
    }
  }

  lemma ArriveCome(w: World, w': World, g: nat, h: nat, p: Packet, home: nat -> nat, k: nat, x: nat, d: nat)
    requires home(p.from) == g && home(p.to) == h && g != h
    requires w'.sources == w.sources
    requires Got(w', home(x), k) == if home(x) == g && k == h then Got(w, g, h) + [p] else Got(w, home(x), k)
    ensures Come(w', k, x, d, home) ==
            if k == h then Plus(Come(w, k, x, d, home), p, x, d) else Come(w, k, x, d, home)
  {
    assert SourceOf(w', x) == SourceOf(w, x);
    if home(x) != k && home(d) == k && home(x) == g && k == h {
      SelOne(Got(w, g, h), p, x, d);
    } else {
      assert Come(w', k, x, d, home) == Come(w, k, x, d, home);
    }
  }

  lemma RelayAccounts(w: World, w': World, a: nat, p: Packet, room: bool, home: nat -> nat)
    requires Inv(w, home) && p.from == a
    requires w'.sources == w.sources[a := SourceOf(w', a)]
    requires Read(SourceOf(w', a)) == Read(SourceOf(w, a)) + [p]
    requires w'.gates == w.gates[home(a) := Route(GateOf(w, home(a)), p, room)]
    requires forall k: nat, h: nat :: Got(w', k, h) == Got(w, k, h)
    ensures forall k: nat, x: nat, d: nat :: Accounted(w', k, x, d, home)
  {
    forall k: nat, x: nat, d: nat ensures Accounted(w', k, x, d, home) {
      assert Accounted(w, k, x, d, home) && GateSound(w, home(a), home);
      Recorded(GateOf(w, home(a)), p, room, x, d);
      RelayCome(w, w', a, p, home, k, x, d);
    }
  }

  /** A gate reads the next packet of its service and routes it by its header. */
  lemma RelayMoves(w: World, a: nat, room: bool, home: nat -> nat)
    requires SourceSound(w, a) && SourceOf(w, a).read < |SourceOf(w, a).stage.out|
    ensures var w', p := Next(w, Relay(a, room), home), SourceOf(w, a).stage.out[SourceOf(w, a).read];
            && p.from == a && w'.wires == w.wires
            && w'.gates == w.gates[home(a) := Route(GateOf(w, home(a)), p, room)]
            && w'.sources == w.sources[a := SourceOf(w', a)] && SourceSound(w', a)
            && Read(SourceOf(w', a)) == Read(SourceOf(w, a)) + [p]
  {
    var src := SourceOf(w, a);
    var p := src.stage.out[src.read];
    assert src.stage.given[src.read] == p && Genuine(p);
    GenuineRoutes(GateOf(w, home(a)), p, room);
  }

  lemma RelayKeeps(w: World, a: nat, room: bool, home: nat -> nat)
    requires Inv(w, home) && SourceOf(w, a).read < |SourceOf(w, a).stage.out|
    ensures Inv(Next(w, Relay(a, room), home), home)
  {
    var w', g, src := Next(w, Relay(a, room), home), home(a), SourceOf(w, a);
    var p := src.stage.out[src.read];
    assert SourceSound(w, a) && GateSound(w, g, home);
    RelayMoves(w, a, room, home);
    RouteKeeps(GateOf(w, g), p, room);
    RouteAppends(GateOf(w, g), p, room, g, home);
    SourcesKept(w, w', a);
    GatesKept(w, w', g, home);
    WiresKept(w, w', g, home);
    RelayAccounts(w, w', a, p, room, home);
  }

  /** One more packet read on the wire from `g` to `h`, and all other wires as they were. */
  lemma ArriveWires(w: World, w': World, g: nat, h: nat, c: nat, home: nat -> nat, k: nat, x: nat)
    requires WireSound(w, k, x) && WireSound(w, g, h) && GateSound(w', k, home) && g != h
    requires NextPos(LinkOf(GateOf(w, g), h), WireOf(w, g, h), c).Some?
    requires var pos := NextPos(LinkOf(GateOf(w, g), h), WireOf(w, g, h), c).value;
             w'.wires == w.wires[(g, h) := WireOf(w, g, h) + [Arrival(c, pos)]]
    requires w'.gates == w.gates[h := GateOf(w', h)] && Appends(GateOf(w, h), GateOf(w', h))
    ensures WireSound(w', k, x)
    ensures var pos := NextPos(LinkOf(GateOf(w, g), h), WireOf(w, g, h), c).value;
            && pos < |Handed(w, g, h)|
            && Got(w', k, x) == if k == g && x == h then Got(w, g, h) + [Handed(w, g, h)[pos]] else Got(w, k, x)
  {
    RegularOne(LinkOf(GateOf(w, g), h), WireOf(w, g, h), c);
    if k == g && x == h {
      assert GateOf(w', g) == GateOf(w, g);
    } else {
      assert WireOf(w', k, x) == WireOf(w, k, x);
      assert k != h ==> GateOf(w', k) == GateOf(w, k);
      WireKept(w, w', k, x, home);
    }
  }

  lemma ArriveAccounts(w: World, w': World, g: nat, h: nat, p: Packet, room: bool, home: nat -> nat)
    requires Inv(w, home) && home(p.from) == g && home(p.to) == h && g != h
    requires w'.sources == w.sources && w'.gates == w.gates[h := Route(GateOf(w, h), p, room)]
    requires forall k: nat, x: nat ::
               Got(w', k, x) == if k == g && x == h then Got(w, g, h) + [p] else Got(w, k, x)
    ensures forall k: nat, x: nat, d: nat :: Accounted(w', k, x, d, home)
  {
    forall k: nat, x: nat, d: nat ensures Accounted(w', k, x, d, home) {
      assert Accounted(w, k, x, d, home) && GateSound(w, h, home);
      Recorded(GateOf(w, h), p, room, x, d);
      ArriveCome(w, w', g, h, p, home, k, x, d);
    }
  }

  lemma ArriveKeeps(w: World, g: nat, h: nat, c: nat, room: bool, home: nat -> nat)
    requires Inv(w, home) && g != h && NextPos(LinkOf(GateOf(w, g), h), WireOf(w, g, h), c).Some?
    ensures Inv(Next(w, Arrive(g, h, c, room), home), home)
  {
    var w', l := Next(w, Arrive(g, h, c, room), home), LinkOf(GateOf(w, g), h);
    var pos := NextPos(l, WireOf(w, g, h), c).value;
    var p, s := PacketAt(l, pos), GateOf(w, h);
    assert GateSound(w, h, home) && WireSound(w, g, h);
    RegularOne(l, WireOf(w, g, h), c);
    HandedBelongs(w, g, h, pos, home);
    GenuineRoutes(s, p, room);
    RouteKeeps(s, p, room);
    RouteAppends(s, p, room, h, home);
    SourcesKept(w, w', 0);
    GatesKept(w, w', h, home);
    forall k: nat, x: nat
      ensures WireSound(w', k, x)
      ensures Got(w', k, x) == if k == g && x == h then Got(w, g, h) + [p] else Got(w, k, x)
    {
      assert WireSound(w, k, x) && GateSound(w', k, home);
      ArriveWires(w, w', g, h, c, home, k, x);
    }
    ArriveAccounts(w, w', g, h, p, room, home);
  }

  lemma StageNextKeeps(w: World, a: nat, e: SendQueue.Event<Packet>, home: nat -> nat)
    requires Inv(w, home) && (e.Write? ==> e.message.from == a && Genuine(e.message))
    ensures Inv(SetStage(w, a, SendQueue.Next(SourceOf(w, a).stage, e)), home)
  {
    assert SourceSound(w, a);
    SendQueue.NextKeeps(SourceOf(w, a).stage, e);
    StageStepKeeps(w, a, SendQueue.Next(SourceOf(w, a).stage, e), home);
  }

  lemma NextKeeps(w: World, e: Step, home: nat -> nat)
    requires Inv(w, home)
    ensures Inv(Next(w, e, home), home)
  {
    match e {
      case Submit(a, to, id, session, body, room) =>
        ParseAddressed(a, to, id, session, body);
        StageNextKeeps(w, a, SendQueue.Write(Parse(Addressed(a, to, id, session, body)), room), home);
      case OpenChannel(a) => StageNextKeeps(w, a, SendQueue.Open, home);
      case Drain(a, room) => StageNextKeeps(w, a, SendQueue.Advance(room), home);
      case Relay(a, room) =>
        if SourceOf(w, a).read < |SourceOf(w, a).stage.out| {
          RelayKeeps(w, a, room, home);
        }
      case Arrive(g, h, c, room) =>
        if g != h && NextPos(LinkOf(GateOf(w, g), h), WireOf(w, g, h), c).Some? {
          ArriveKeeps(w, g, h, c, room, home);
        }
      case Inside(g, ev) =>
        if Routed(home, g, ev) {
          assert GateSound(w, g, home);
          Delivery.NextKeeps(GateOf(w, g), ev);
          InsidePlaces(GateOf(w, g), ev, g, home);
          InsideAppends(GateOf(w, g), ev, g, home);
          GateStepKeeps(w, g, Delivery.Next(GateOf(w, g), ev), home);
        }
    }
  }

  lemma {:induction false} PlayKeeps(es: seq<Step>, home: nat -> nat)
    ensures Inv(Play(es, home), home)
    decreases |es|
  {
    if es == [] {
      forall g: nat ensures GateSound(BEGIN, g, home) {
        Delivery.PlayKeeps([]);
      }
    } else {
      PlayKeeps(es[..|es| - 1], home);
      NextKeeps(Play(es[..|es| - 1], home), es[|es| - 1], home);
    }
  }

  // ---------------------------------------------------------------------------
  // From sender to receiver

  /** The messages from `a` to `d` that `es` submit, as packets. */
  function Submissions(es: seq<Step>, a: nat, d: nat): seq<Packet> {
    if es == [] then []
    else
      match es[|es| - 1]
      case Submit(from, to, id, session, body, _) =>
        if from == a && to == d
        then Submissions(es[..|es| - 1], a, d) + [Packet(from, to, Addressed(from, to, id, session, body))]
        else Submissions(es[..|es| - 1], a, d)
      case _ => Submissions(es[..|es| - 1], a, d)
  }

  /** What `a` submitted for `d`. */
  function Submitted(w: World, a: nat, d: nat): seq<Packet> {
    Sel(SourceOf(w, a).stage.given, a, d)
  }

  /** What the gate of `d` wrote to `d`'s channel for `a`. */
  function Delivered(w: World, a: nat, d: nat, home: nat -> nat): seq<Packet> {
    Sel(Out(GateOf(w, home(d)), d), a, d)
  }

  /** What of `a`'s packets for `d` gate `g` still holds. */
  function HeldAt(w: World, g: nat, a: nat, d: nat): seq<Packet> {
    Sel(Held(GateOf(w, g), d), a, d)
  }

  /** Not yet read by `a`'s gate: in the channel, then in `a`'s own queue. */
  function Unread(w: World, a: nat, d: nat): seq<Packet> {
    var s := SourceOf(w, a);
    if s.read <= |s.stage.out| then Sel(s.stage.out[s.read..], a, d) + Sel(SendQueue.Rest(s.stage), a, d) else []
  }

  lemma Reading(w: World, a: nat, d: nat)
    requires SourceSound(w, a)
    ensures Submitted(w, a, d) == Sel(Read(SourceOf(w, a)), a, d) + Unread(w, a, d)
  {
    var s := SourceOf(w, a);
    assert s.stage.out == Read(s) + s.stage.out[s.read..];
    SelConcat(Read(s), s.stage.out[s.read..], a, d);
    SelConcat(s.stage.out, SendQueue.Rest(s.stage), a, d);
  }

  lemma Holding(w: World, g: nat, a: nat, d: nat, home: nat -> nat)
    requires Inv(w, home)
    ensures Come(w, g, a, d, home) == Sel(Out(GateOf(w, g), d), a, d) + HeldAt(w, g, a, d)
  {
    assert GateSound(w, g, home) && Accounted(w, g, a, d, home);
    SplitOut(GateOf(w, g), d);
    SelConcat(Out(GateOf(w, g), d), Held(GateOf(w, g), d), a, d);
  }

  /** A gate hands a foreign service's packets to the gate that owns it, and to no other. */
  lemma Crossing(w: World, g: nat, a: nat, d: nat, home: nat -> nat)
    requires Inv(w, home) && home(d) != g
    ensures Sel(Out(GateOf(w, g), d), a, d) == Sel(Handed(w, g, home(d)), a, d)
  {
    var s, h := GateOf(w, g), home(d);
    assert GateSound(w, g, home) && TargetSound(s, d);
    SelFor(Handed(w, g, h), a, d);
    if d !in s.targets && h in s.links {
      assert LinkSound(s, h);
      ForConcat(s.links[h].handed, s.links[h].queue, d);
    }
  }

  lemma SubmitAdds(w: World, a: Id, to: Id, id: Id, session: nat, body: Bytes, room: bool, x: nat, d: nat)
    ensures var p := Packet(a, to, Addressed(a, to, id, session, body));
            var stage := SendQueue.Next(SourceOf(w, a).stage, SendQueue.Write(Parse(p.bytes), room));
            Submitted(SetStage(w, a, stage), x, d) ==
            if x == a && d == to then Submitted(w, x, d) + [p] else Submitted(w, x, d)
  {
    ParseAddressed(a, to, id, session, body);
    SelOne(SourceOf(w, a).stage.given, Packet(a, to, Addressed(a, to, id, session, body)), x, d);
  }

  lemma OthersSubmitNothing(w: World, e: Step, home: nat -> nat, a: nat, d: nat)
    requires !e.Submit?
    ensures Submitted(Next(w, e, home), a, d) == Submitted(w, a, d)
  {
  }

  /** In every run what counts as submitted is what the services' messages say, with their headers. */
  lemma {:induction false} SubmittedByHeader(es: seq<Step>, home: nat -> nat, a: nat, d: nat)
    ensures Submitted(Play(es, home), a, d) == Submissions(es, a, d)
    decreases |es|
  {
    if es != [] {
      var w, last := Play(es[..|es| - 1], home), es[|es| - 1];
      SubmittedByHeader(es[..|es| - 1], home, a, d);
      match last {
        case Submit(from, to, id, session, body, room) => SubmitAdds(w, from, to, id, session, body, room, a, d);
        case _ => OthersSubmitNothing(w, last, home, a, d);
      }
    }
  }

  /** Between two services of one gate nothing is lost, duplicated or reordered. */
  lemma OneHop(es: seq<Step>, home: nat -> nat, a: nat, d: nat)
    requires home(a) == home(d)
    ensures var w := Play(es, home);
            Submitted(w, a, d) == Delivered(w, a, d, home) + HeldAt(w, home(d), a, d) + Unread(w, a, d)
  {
    var w := Play(es, home);
    PlayKeeps(es, home);
    assert SourceSound(w, a);
    Reading(w, a, d);
    Holding(w, home(a), a, d, home);
  }

  /** What of `a`'s packets for `d` has come to `d`'s gate: delivered, or held there. */
  function Landed(w: World, a: nat, d: nat, home: nat -> nat): seq<Packet> {
    Delivered(w, a, d, home) + HeldAt(w, home(d), a, d)
  }

  /** The link from `a`'s gate to `d`'s gate, and what was read from it. */
  function Path(w: World, a: nat, d: nat, home: nat -> nat): Link {
    LinkOf(GateOf(w, home(a)), home(d))
  }

  function Reads(w: World, a: nat, d: nat, home: nat -> nat): seq<Arrival> {
    WireOf(w, home(a), home(d))
  }

  lemma Departed(w: World, a: nat, d: nat, home: nat -> nat)
    requires Inv(w, home) && home(a) != home(d)
    ensures Submitted(w, a, d) ==
            Sel(Handed(w, home(a), home(d)), a, d) + HeldAt(w, home(a), a, d) + Unread(w, a, d)
  {
    assert SourceSound(w, a);
    Reading(w, a, d);
    Crossing(w, home(a), a, d, home);
    Holding(w, home(a), a, d, home);
  }

  /**
   * Between services of two gates, in every run: what was submitted is what was handed to the network, held at the
   * sender's gate and unread, in that order; what came is what was read from the connections; from each connection the
   * first packets handed to it were read, in order; and nothing is read twice.
   */
  lemma TwoHops(es: seq<Step>, home: nat -> nat, a: nat, d: nat)
    requires home(a) != home(d)
    ensures var w := Play(es, home);
            var l, arrivals := Path(w, a, d, home), Reads(w, a, d, home);
            && Submitted(w, a, d) == Sel(l.handed, a, d) + HeldAt(w, home(a), a, d) + Unread(w, a, d)
            && Landed(w, a, d, home) == Sel(Packets(l, arrivals), a, d)
            && RemoteLink.Split(l)
            && (forall c | 0 <= c < |l.starts| ::
                  && ReadFrom(arrivals, c) == Places(l.starts[c], Count(arrivals, c))
                  && l.starts[c] + Count(arrivals, c) <= RemoteLink.End(l, c))
            && (forall i, j | 0 <= i < j < |arrivals| :: arrivals[i].pos != arrivals[j].pos)
  {
    var w := Play(es, home);
    assert Inv(w, home) by { PlayKeeps(es, home); }
    Departed(w, a, d, home);
    Holding(w, home(d), a, d, home);
    assert WireSound(w, home(a), home(d));
    ConnectionsInOrder(Path(w, a, d, home), Reads(w, a, d, home));
  }

  /** While the first connection between the gates lasts, nothing is lost, duplicated or reordered. */
  lemma SteadyConnection(es: seq<Step>, home: nat -> nat, a: nat, d: nat)
    requires home(a) != home(d) && |Path(Play(es, home), a, d, home).starts| <= 1
    ensures var w := Play(es, home);
            var l, n := Path(w, a, d, home), |Reads(w, a, d, home)|;
            && n <= |l.handed|
            && Submitted(w, a, d) ==
               Landed(w, a, d, home) + Sel(l.handed[n..], a, d) + HeldAt(w, home(a), a, d) + Unread(w, a, d)
  {
    var w := Play(es, home);
    var l, arrivals := Path(w, a, d, home), Reads(w, a, d, home);
    PlayKeeps(es, home);
    assert WireSound(w, home(a), home(d));
    OneConnectionIsExact(l, arrivals);
    SelSplit(l.handed, |arrivals|, a, d);
    TwoHops(es, home, a, d);
  }

  /** `a`'s packets for `d` were read in another order than that of the connections that carried them. */
  ghost predicate OvertakenOnTheWay(w: World, a: nat, d: nat, home: nat -> nat) {
    home(a) != home(d) && Overtaken(Path(w, a, d, home), Reads(w, a, d, home), a, d)
  }

  lemma LandedInOrder(es: seq<Step>, home: nat -> nat, a: nat, d: nat)
    requires !OvertakenOnTheWay(Play(es, home), a, d, home)
    ensures var w := Play(es, home); Sub(Landed(w, a, d, home), Submitted(w, a, d))
  {
    var w := Play(es, home);
    var landed := Landed(w, a, d, home);
    if home(a) == home(d) {
      OneHop(es, home, a, d);
      SubSelf(landed);
      SubLonger(landed, landed, Unread(w, a, d));
    } else {
      var l, arrivals := Path(w, a, d, home), Reads(w, a, d, home);
      assert Regular(l, arrivals) by {
        PlayKeeps(es, home);
        assert WireSound(w, home(a), home(d));
      }
      NotOvertakenIsSub(l, arrivals, a, d);
      TwoHops(es, home, a, d);
      var behind, unread := HeldAt(w, home(a), a, d), Unread(w, a, d);
      SubLonger(landed, Sel(l.handed, a, d), behind);
      SubLonger(landed, Sel(l.handed, a, d) + behind, unread);
    }
  }

  /**
   * What a service receives from another is some of what was submitted, in order and without repeats, in every run in
   * which no packet of an older connection between their gates is read after one of a newer connection.
   */
  lemma DeliveredInOrder(es: seq<Step>, home: nat -> nat, a: nat, d: nat)
    requires !OvertakenOnTheWay(Play(es, home), a, d, home)
    ensures var w := Play(es, home); Sub(Delivered(w, a, d, home), Submitted(w, a, d))
  {
    var w := Play(es, home);
    LandedInOrder(es, home, a, d);
    SubPrefix(Delivered(w, a, d, home), HeldAt(w, home(d), a, d), Submitted(w, a, d));
  }

  /** For distinct packets the condition is exact: what came is in order exactly when nothing was overtaken. */
  lemma InOrderExactly(es: seq<Step>, home: nat -> nat, a: nat, d: nat)
    requires NoDuplicates(Submitted(Play(es, home), a, d))
    ensures var w := Play(es, home);
            Sub(Landed(w, a, d, home), Submitted(w, a, d)) <==> !OvertakenOnTheWay(w, a, d, home)
  {
    var w := Play(es, home);
    if OvertakenOnTheWay(w, a, d, home) {
      var l, arrivals := Path(w, a, d, home), Reads(w, a, d, home);
      assert Regular(l, arrivals) by {
        PlayKeeps(es, home);
        assert WireSound(w, home(a), home(d));
      }
      var u, v := OvertakenTurnsAround(l, arrivals, a, d);
      TwoHops(es, home, a, d);
      var behind, unread := HeldAt(w, home(a), a, d), Unread(w, a, d);
      PrecedesLonger(Sel(l.handed, a, d), behind, v, u);
      PrecedesLonger(Sel(l.handed, a, d) + behind, unread, v, u);
      OneOrder(Submitted(w, a, d), v, u);
      if Sub(Landed(w, a, d, home), Submitted(w, a, d)) {
        SubPrecedes(Landed(w, a, d, home), Submitted(w, a, d), u, v);
      }
    } else {
      LandedInOrder(es, home, a, d);
    }
  }
}
