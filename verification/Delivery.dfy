/** Routing inside a gate: direct writes, messages waiting for a registration, and the links to other gates. */
module Delivery {
  import opened RegistryMessages
  import opened Framing
  import SendQueue
  import RemoteLink

  /** A message with the sender and receiver its first bytes name. */
  datatype Packet = Packet(from: nat, to: nat, bytes: Bytes)

  function Parse(bytes: Bytes): Packet
    requires |bytes| >= FORWARD_SIZE
  {
    Packet(GetForward(bytes).from, GetForward(bytes).to, bytes)
  }

  /** The sender is in the first two bytes and the receiver in the next two. */
  lemma ParseReads(bytes: Bytes)
    requires |bytes| >= 16
    ensures Parse(bytes).from == bytes[0] as int + 256 * bytes[1] as int
    ensures Parse(bytes).to == bytes[2] as int + 256 * bytes[3] as int
    ensures Parse(bytes).bytes == bytes
  {
    assert bytes[..2] == [bytes[0], bytes[1]] && bytes[2..4] == [bytes[2], bytes[3]];
    Get2(bytes[0], bytes[1]);
    Get2(bytes[2], bytes[3]);
  }

  /** `init_forward_buffer` and the message after it. */
  function Addressed(from: Id, to: Id, id: Id, session: nat, body: Bytes): (bytes: Bytes)
    ensures |bytes| >= FORWARD_SIZE
  {
    PutForward(Framing.Forward.Forward(from, to, id, session)) + body
  }

  lemma ParseAddressed(from: Id, to: Id, id: Id, session: nat, body: Bytes)
    ensures var bytes := Addressed(from, to, id, session, body); Parse(bytes) == Packet(from, to, bytes)
  {
    var part := PutForward(Framing.Forward.Forward(from, to, id, session));
    ForwardLayout(Framing.Forward.Forward(from, to, id, session));
    assert forall i | 0 <= i < 8 :: (part + body)[i] == part[..8][i];
    ParseReads(part + body);
  }

  type Stage = SendQueue.Stage<Packet>
  type Link = RemoteLink.Link<Packet>

  /** A service is reached through its channel or through the gate next to it. */
  datatype Target = Local(stage: Stage) | Remote(gate: nat)

  /** `waiting` is `send_queues_`; `forwarded[d]` is everything forwarded to `d` so far. */
  datatype Gate = Gate(
    targets: map<nat, Target>,
    links: map<nat, Link>,
    waiting: map<nat, seq<Packet>>,
    forwarded: map<nat, seq<Packet>>)

  /** Room answers of the channel, in the order it is asked. */
  datatype Event =
    | Forward(message: Bytes, room: bool)
    | AddLink(gate: nat)
    | AddLocal(id: nat, rooms: seq<bool>)
    | AddRemote(id: nat, gate: nat)
    | Advance(id: nat, room: bool)
    | LinkConnected(gate: nat, socket: nat)
    | LinkLost(gate: nat)

  const EMPTY := Gate(map[], map[], map[], map[])

  function At(m: map<nat, seq<Packet>>, d: nat): seq<Packet> {
    if d in m then m[d] else []
  }

  function WriteAll(stage: Stage, messages: seq<Packet>, rooms: seq<bool>): Stage {
    if messages == [] then stage
    else
      var last := |messages| - 1;
      SendQueue.Next(WriteAll(stage, messages[..last], rooms),
                     SendQueue.Write(messages[last], last < |rooms| && rooms[last]))
  }

  function SendAll(link: Link, messages: seq<Packet>): Link {
    if messages == [] then link
    else RemoteLink.Next(SendAll(link, messages[..|messages| - 1]), RemoteLink.Send(messages[|messages| - 1]))
  }

  function Route(s: Gate, p: Packet, room: bool): Gate {
    var log := s.forwarded[p.to := At(s.forwarded, p.to) + [p]];
    if p.to !in s.targets then
      s.(waiting := s.waiting[p.to := At(s.waiting, p.to) + [p]], forwarded := log)
    else
      match s.targets[p.to]
      case Local(stage) =>
        s.(targets := s.targets[p.to := Local(SendQueue.Next(stage, SendQueue.Write(p, room)))], forwarded := log)
      case Remote(g) =>
        if g in s.links
        then s.(links := s.links[g := RemoteLink.Next(s.links[g], RemoteLink.Send(p))], forwarded := log)
        else s
  }

  /** One atomic section; an event that is not possible in `s` changes nothing. */
  function Next(s: Gate, e: Event): Gate {
    match e
    case Forward(bytes, room) => if |bytes| < FORWARD_SIZE then s else Route(s, Parse(bytes), room)
    case AddLink(g) =>
      if g in s.links then s else s.(links := s.links[g := RemoteLink.Idle()])
    case AddLocal(d, rooms) =>
      if d in s.targets then s
      else
        s.(targets := s.targets[d := Local(WriteAll(SendQueue.Opened(), At(s.waiting, d), rooms))],
           waiting := s.waiting - {d})
    case AddRemote(d, g) =>
      if d in s.targets || g !in s.links then s
      else
        s.(targets := s.targets[d := Remote(g)],
           links := s.links[g := SendAll(s.links[g], At(s.waiting, d))],
           waiting := s.waiting - {d})
    case Advance(d, room) =>
      if d in s.targets && s.targets[d].Local?
      then s.(targets := s.targets[d := Local(SendQueue.Next(s.targets[d].stage, SendQueue.Advance(room)))])
      else s
    case LinkConnected(g, k) =>
      if g in s.links then s.(links := s.links[g := RemoteLink.Next(s.links[g], RemoteLink.Connected(k))]) else s
    case LinkLost(g) =>
      if g in s.links then s.(links := s.links[g := RemoteLink.Next(s.links[g], RemoteLink.Lost)]) else s
  }

  function Play(es: seq<Event>): Gate {
    if es == [] then EMPTY else Next(Play(es[..|es| - 1]), es[|es| - 1])
  }

  // ---------------------------------------------------------------------------
  // What has gone out for one destination

  /** The packets for `d` on a link. */
  function For(packets: seq<Packet>, d: nat): seq<Packet> {
    if packets == [] then []
    else
      var last := packets[|packets| - 1];
      For(packets[..|packets| - 1], d) + if last.to == d then [last] else []
  }

  lemma {:induction false} ForConcat(xs: seq<Packet>, ys: seq<Packet>, d: nat)
    ensures For(xs + ys, d) == For(xs, d) + For(ys, d)
    decreases |ys|
  {
    if ys == [] {
      assert xs + ys == xs;
    } else {
      assert (xs + ys)[..|xs + ys| - 1] == xs + ys[..|ys| - 1];
      ForConcat(xs, ys[..|ys| - 1], d);
    }
  }

  lemma ForOne(xs: seq<Packet>, p: Packet, d: nat)
    ensures For(xs + [p], d) == if p.to == d then For(xs, d) + [p] else For(xs, d)
  {
    assert (xs + [p])[..|xs + [p]| - 1] == xs;
  }

  ghost predicate AllFor(packets: seq<Packet>, d: nat) {
    forall i | 0 <= i < |packets| :: packets[i].to == d
  }

  /** Written to `d`'s channel, or handed to the network for it. */
  function Out(s: Gate, d: nat): seq<Packet> {
    if d !in s.targets then []
    else
      match s.targets[d]
      case Local(stage) => stage.out
      case Remote(g) => if g in s.links then For(s.links[g].handed, d) else []
  }

  /** Still inside the gate: queued for the channel or the link, or waiting for `d` to register. */
  function Held(s: Gate, d: nat): seq<Packet> {
    if d !in s.targets then At(s.waiting, d)
    else
      match s.targets[d]
      case Local(stage) => SendQueue.Rest(stage)
      case Remote(g) => if g in s.links then For(s.links[g].queue, d) else []
  }

  // ---------------------------------------------------------------------------
  // Invariant

  ghost predicate TargetSound(s: Gate, d: nat) {
    if d !in s.targets then
      && At(s.waiting, d) == At(s.forwarded, d)
      && AllFor(At(s.waiting, d), d)
    else
      && d !in s.waiting
      && match s.targets[d]
         case Local(stage) => SendQueue.Inv(stage) && stage.open && stage.given == At(s.forwarded, d)
         case Remote(g) => g in s.links && For(s.links[g].sent, d) == At(s.forwarded, d)
  }

  ghost predicate LinkSound(s: Gate, g: nat)
    requires g in s.links
  {
    && RemoteLink.Inv(s.links[g])
    && (forall d | !(d in s.targets && s.targets[d] == Remote(g)) :: For(s.links[g].sent, d) == [])
  }

  ghost predicate Inv(s: Gate) {
    && (forall d: nat :: TargetSound(s, d))
    && (forall g | g in s.links :: LinkSound(s, g))
  }

  lemma {:induction false} WriteAllGives(stage: Stage, messages: seq<Packet>, rooms: seq<bool>)
    requires SendQueue.Inv(stage)
    ensures SendQueue.Inv(WriteAll(stage, messages, rooms)) && WriteAll(stage, messages, rooms).open == stage.open
    ensures WriteAll(stage, messages, rooms).given == stage.given + messages
    decreases |messages|
  {
    if messages != [] {
      var last := |messages| - 1;
      WriteAllGives(stage, messages[..last], rooms);
      SendQueue.NextKeeps(WriteAll(stage, messages[..last], rooms),
                          SendQueue.Write(messages[last], last < |rooms| && rooms[last]));
      assert messages == messages[..last] + [messages[last]];
    }
  }

  lemma {:induction false} SendAllSends(link: Link, messages: seq<Packet>)
    requires RemoteLink.Inv(link)
    ensures RemoteLink.Inv(SendAll(link, messages)) && SendAll(link, messages).sent == link.sent + messages
    decreases |messages|
  {
    if messages != [] {
      SendAllSends(link, messages[..|messages| - 1]);
      RemoteLink.NextKeeps(SendAll(link, messages[..|messages| - 1]), RemoteLink.Send(messages[|messages| - 1]));
    }
  }

  lemma {:induction false} ForAll(packets: seq<Packet>, d: nat, x: nat)
    requires AllFor(packets, d)
    ensures For(packets, x) == if x == d then packets else []
    decreases |packets|
  {
    if packets != [] {
      ForAll(packets[..|packets| - 1], d, x);
    }
  }

  lemma LinksUnchanged(s: Gate, s': Gate)
    requires forall g | g in s.links :: LinkSound(s, g)
    requires s'.links == s.links
    requires forall d, g | d in s.targets && s.targets[d] == Remote(g) :: d in s'.targets && s'.targets[d] == Remote(g)
    ensures forall g | g in s'.links :: LinkSound(s', g)
  {
    forall g | g in s'.links ensures LinkSound(s', g) {
      assert LinkSound(s, g);
    }
  }

  /** A receiver is unaffected by changes elsewhere. */
  lemma TargetStays(s: Gate, s': Gate, x: nat)
    requires TargetSound(s, x)
    requires x in s.targets <==> x in s'.targets
    requires x in s.targets ==> s'.targets[x] == s.targets[x]
    requires (x in s.waiting <==> x in s'.waiting) && At(s'.waiting, x) == At(s.waiting, x)
    requires At(s'.forwarded, x) == At(s.forwarded, x)
    requires x in s.targets && s.targets[x].Remote? ==>
               && s.targets[x].gate in s'.links
               && For(s'.links[s.targets[x].gate].sent, x) == For(s.links[s.targets[x].gate].sent, x)
    ensures TargetSound(s', x)
  {
  }

  /** A step of one receiver's own channel or waiting queue keeps everything else. */
  lemma ChannelStepKeeps(s: Gate, s': Gate, d: nat)
    requires Inv(s) && s'.links == s.links && TargetSound(s', d)
    requires d in s.targets ==> s.targets[d].Local?
    requires forall x: nat | x != d ::
               && (x in s.targets <==> x in s'.targets) && (x in s.targets ==> s'.targets[x] == s.targets[x])
               && (x in s.waiting <==> x in s'.waiting) && At(s'.waiting, x) == At(s.waiting, x)
               && At(s'.forwarded, x) == At(s.forwarded, x)
    ensures Inv(s')
  {
    forall x: nat ensures TargetSound(s', x) {
      assert TargetSound(s, x);
      if x != d {
        TargetStays(s, s', x);
      }
    }
    LinksUnchanged(s, s');
  }

  lemma RouteToChannelKeeps(s: Gate, p: Packet, room: bool)
    requires Inv(s) && (p.to in s.targets ==> s.targets[p.to].Local?)
    ensures Inv(Route(s, p, room))
  {
    assert TargetSound(s, p.to);
    if p.to in s.targets {
      SendQueue.NextKeeps(s.targets[p.to].stage, SendQueue.Write(p, room));
    }
    ChannelStepKeeps(s, Route(s, p, room), p.to);
  }

  lemma RouteToLinkTarget(s: Gate, p: Packet, room: bool)
    requires Inv(s) && p.to in s.targets && s.targets[p.to].Remote?
    ensures TargetSound(Route(s, p, room), p.to)
  {
    assert TargetSound(s, p.to);
    ForOne(s.links[s.targets[p.to].gate].sent, p, p.to);
  }

  lemma RouteToLinkOthers(s: Gate, p: Packet, room: bool, x: nat)
    requires TargetSound(s, p.to) && TargetSound(s, x)
    requires p.to in s.targets && s.targets[p.to].Remote? && x != p.to
    ensures TargetSound(Route(s, p, room), x)
  {
    ForOne(s.links[s.targets[p.to].gate].sent, p, x);
    TargetStays(s, Route(s, p, room), x);
  }

  lemma RouteToLinkLink(s: Gate, p: Packet, room: bool, l: nat)
    requires Inv(s) && p.to in s.targets && s.targets[p.to].Remote? && l in Route(s, p, room).links
    ensures LinkSound(Route(s, p, room), l)
  {
    var s' := Route(s, p, room);
    assert TargetSound(s, p.to) && LinkSound(s, l);
    RemoteLink.NextKeeps(s.links[l], RemoteLink.Send(p));
    forall x: nat | !(x in s'.targets && s'.targets[x] == Remote(l)) ensures For(s'.links[l].sent, x) == [] {
      ForOne(s.links[l].sent, p, x);
    }
  }

  lemma RouteKeeps(s: Gate, p: Packet, room: bool)
    requires Inv(s)
    ensures Inv(Route(s, p, room))
  {
    if p.to in s.targets && s.targets[p.to].Remote? {
      forall x: nat ensures TargetSound(Route(s, p, room), x) {
        if x == p.to {
          RouteToLinkTarget(s, p, room);
        } else {
          assert TargetSound(s, p.to) && TargetSound(s, x);
          RouteToLinkOthers(s, p, room, x);
        }
      }
      forall l | l in Route(s, p, room).links ensures LinkSound(Route(s, p, room), l) {
        RouteToLinkLink(s, p, room, l);
      }
    } else {
      RouteToChannelKeeps(s, p, room);
    }
  }

  lemma AddLocalKeeps(s: Gate, d: nat, rooms: seq<bool>)
    requires Inv(s)
    ensures Inv(Next(s, AddLocal(d, rooms)))
  {
    if d !in s.targets {
      assert TargetSound(s, d);
      WriteAllGives(SendQueue.Opened(), At(s.waiting, d), rooms);
      ChannelStepKeeps(s, Next(s, AddLocal(d, rooms)), d);
    }
  }

  lemma FlushedLink(link: Link, held: seq<Packet>, d: nat, x: nat)
    requires RemoteLink.Inv(link) && AllFor(held, d) && For(link.sent, d) == []
    ensures RemoteLink.Inv(SendAll(link, held))
    ensures For(SendAll(link, held).sent, x) == if x == d then held else For(link.sent, x)
  {
    SendAllSends(link, held);
    ForConcat(link.sent, held, x);
    ForAll(held, d, x);
  }

  lemma FlushedTarget(s: Gate, d: nat, g: nat)
    requires TargetSound(s, d) && d !in s.targets && g in s.links
    requires For(SendAll(s.links[g], At(s.waiting, d)).sent, d) == At(s.waiting, d)
    ensures TargetSound(Next(s, AddRemote(d, g)), d)
  {
  }

  lemma FlushedOther(s: Gate, d: nat, g: nat, x: nat)
    requires TargetSound(s, x) && x != d && d !in s.targets && g in s.links
    requires For(SendAll(s.links[g], At(s.waiting, d)).sent, x) == For(s.links[g].sent, x)
    ensures TargetSound(Next(s, AddRemote(d, g)), x)
  {
    TargetStays(s, Next(s, AddRemote(d, g)), x);
  }

  lemma AddRemoteTarget(s: Gate, d: nat, g: nat, x: nat)
    requires d !in s.targets && g in s.links && TargetSound(s, d) && LinkSound(s, g) && TargetSound(s, x)
    ensures TargetSound(Next(s, AddRemote(d, g)), x)
  {
    FlushedLink(s.links[g], At(s.waiting, d), d, x);
    if x == d {
      FlushedTarget(s, d, g);
    } else {
      FlushedOther(s, d, g, x);
    }
  }

  lemma AddRemoteLink(s: Gate, d: nat, g: nat)
    requires d !in s.targets && g in s.links && AllFor(At(s.waiting, d), d) && LinkSound(s, g)
    ensures LinkSound(Next(s, AddRemote(d, g)), g)
  {
    var s', link, held := Next(s, AddRemote(d, g)), s.links[g], At(s.waiting, d);
    FlushedLink(link, held, d, d);
    forall x: nat | !(x in s'.targets && s'.targets[x] == Remote(g)) ensures For(s'.links[g].sent, x) == [] {
      FlushedLink(link, held, d, x);
    }
  }

  lemma AddRemoteKeeps(s: Gate, d: nat, g: nat)
    requires Inv(s) && d !in s.targets && g in s.links
    ensures Inv(Next(s, AddRemote(d, g)))
  {
    var s' := Next(s, AddRemote(d, g));
    forall x: nat ensures TargetSound(s', x) {
      assert TargetSound(s, d) && LinkSound(s, g) && TargetSound(s, x);
      AddRemoteTarget(s, d, g, x);
    }
    forall l | l in s'.links ensures LinkSound(s', l) {
      if l == g {
        assert TargetSound(s, d) && LinkSound(s, g);
        AddRemoteLink(s, d, g);
      } else {
        assert LinkSound(s, l);
      }
    }
  }

  lemma LinkStepKeeps(s: Gate, g: nat, link: Link)
    requires Inv(s) && g in s.links && RemoteLink.Inv(link) && link.sent == s.links[g].sent
    ensures Inv(s.(links := s.links[g := link]))
  {
    var s' := s.(links := s.links[g := link]);
    forall x: nat ensures TargetSound(s', x) {
      assert TargetSound(s, x);
    }
    forall l | l in s'.links ensures LinkSound(s', l) {
      assert LinkSound(s, l);
    }
  }

  lemma AdvanceKeeps(s: Gate, d: nat, room: bool)
    requires Inv(s)
    ensures Inv(Next(s, Advance(d, room)))
  {
    assert TargetSound(s, d);
    if d in s.targets && s.targets[d].Local? {
      SendQueue.NextKeeps(s.targets[d].stage, SendQueue.Advance(room));
      ChannelStepKeeps(s, Next(s, Advance(d, room)), d);
    }
  }

  lemma AddLinkKeeps(s: Gate, g: nat)
    requires Inv(s)
    ensures Inv(Next(s, AddLink(g)))
  {
    var s' := Next(s, AddLink(g));
    forall x: nat ensures TargetSound(s', x) {
      assert TargetSound(s, x);
      TargetStays(s, s', x);
    }
    forall l | l in s'.links ensures LinkSound(s', l) {
      if l in s.links {
        assert LinkSound(s, l);
      }
    }
  }

  lemma NextKeeps(s: Gate, e: Event)
    requires Inv(s)
    ensures Inv(Next(s, e))
  {
    match e {
      case Forward(bytes, room) =>
        if |bytes| >= FORWARD_SIZE {
          RouteKeeps(s, Parse(bytes), room);
        }
      case AddLink(g) => AddLinkKeeps(s, g);
      case AddLocal(d, rooms) => AddLocalKeeps(s, d, rooms);
      case AddRemote(d, g) =>
        if d !in s.targets && g in s.links {
          AddRemoteKeeps(s, d, g);
        }
      case Advance(d, room) => AdvanceKeeps(s, d, room);
      case LinkConnected(g, k) =>
        if g in s.links {
          assert LinkSound(s, g);
          RemoteLink.NextKeeps(s.links[g], RemoteLink.Connected(k));
          LinkStepKeeps(s, g, RemoteLink.Next(s.links[g], RemoteLink.Connected(k)));
        }
      case LinkLost(g) =>
        if g in s.links {
          assert LinkSound(s, g);
          RemoteLink.NextKeeps(s.links[g], RemoteLink.Lost);
          LinkStepKeeps(s, g, RemoteLink.Next(s.links[g], RemoteLink.Lost));
        }
    }
  }

  lemma {:induction false} PlayKeeps(es: seq<Event>)
    ensures Inv(Play(es))
    decreases |es|
  {
    if es != [] {
      PlayKeeps(es[..|es| - 1]);
      NextKeeps(Play(es[..|es| - 1]), es[|es| - 1]);
    }
  }

  lemma SplitOut(s: Gate, d: nat)
    requires Inv(s)
    ensures Out(s, d) + Held(s, d) == At(s.forwarded, d)
  {
    assert TargetSound(s, d);
    if d in s.targets && s.targets[d].Remote? {
      var link := s.links[s.targets[d].gate];
      assert LinkSound(s, s.targets[d].gate);
      ForConcat(link.handed, link.queue, d);
    }
  }

  // ---------------------------------------------------------------------------
  // The same, told from the events

  function Raw(packets: seq<Packet>): seq<Bytes> {
    seq(|packets|, i requires 0 <= i < |packets| => packets[i].bytes)
  }

  /** The message is long enough and its third and fourth byte name `d`. */
  predicate IsFor(bytes: Bytes, d: nat) {
    |bytes| >= 16 && bytes[2] as int + 256 * bytes[3] as int == d
  }

  /** The messages for `d` among those the gate was given to forward. */
  function MessagesFor(es: seq<Event>, d: nat): seq<Bytes> {
    if es == [] then []
    else
      var before, last := MessagesFor(es[..|es| - 1], d), es[|es| - 1];
      if last.Forward? && IsFor(last.message, d) then before + [last.message] else before
  }

  lemma RouteRecords(s: Gate, p: Packet, room: bool, x: nat)
    requires TargetSound(s, p.to)
    ensures At(Route(s, p, room).forwarded, x) == if x == p.to then At(s.forwarded, x) + [p] else At(s.forwarded, x)
  {
  }

  lemma RawOne(xs: seq<Packet>, p: Packet)
    ensures Raw(xs + [p]) == Raw(xs) + [p.bytes]
  {
  }

  lemma ForwardRecords(s: Gate, bytes: Bytes, room: bool, d: nat)
    requires Inv(s)
    ensures Raw(At(Next(s, Event.Forward(bytes, room)).forwarded, d)) ==
            Raw(At(s.forwarded, d)) + if IsFor(bytes, d) then [bytes] else []
  {
    if |bytes| >= FORWARD_SIZE {
      var p := Parse(bytes);
      ParseReads(bytes);
      assert TargetSound(s, p.to);
      RouteRecords(s, p, room, d);
      RawOne(At(s.forwarded, d), p);
    }
  }

  lemma OthersForwardNothing(s: Gate, e: Event)
    requires !e.Forward?
    ensures Next(s, e).forwarded == s.forwarded
  {
  }

  lemma {:induction false} ForwardedByAddress(es: seq<Event>, d: nat)
    ensures Raw(At(Play(es).forwarded, d)) == MessagesFor(es, d)
    decreases |es|
  {
    if es != [] {
      var s, last := Play(es[..|es| - 1]), es[|es| - 1];
      ForwardedByAddress(es[..|es| - 1], d);
      if last.Forward? {
        PlayKeeps(es[..|es| - 1]);
        ForwardRecords(s, last.message, last.room, d);
      } else {
        OthersForwardNothing(s, last);
      }
    }
  }

  /**
   * In every run, what went out for a receiver followed by what the gate still holds for it is, byte for byte, the
   * messages whose header names that receiver, in the order in which they came.
   */
  lemma GateIsFifo(es: seq<Event>, d: nat)
    ensures Raw(Out(Play(es), d)) + Raw(Held(Play(es), d)) == MessagesFor(es, d)
  {
    PlayKeeps(es);
    SplitOut(Play(es), d);
    ForwardedByAddress(es, d);
    assert Raw(Out(Play(es), d)) + Raw(Held(Play(es), d)) == Raw(Out(Play(es), d) + Held(Play(es), d));
  }

  /** A message goes to the receiver its header names, from the sender it names, and to nobody else. */
  lemma ForwardGoesTo(s: Gate, from: Id, to: Id, id: Id, session: nat, body: Bytes, room: bool, d: nat)
    requires Inv(s)
    ensures var bytes := Addressed(from, to, id, session, body);
            At(Next(s, Event.Forward(bytes, room)).forwarded, d) ==
            At(s.forwarded, d) + if d == to then [Packet(from, to, bytes)] else []
  {
    assert TargetSound(s, to);
    ParseAddressed(from, to, id, session, body);
    RouteRecords(s, Packet(from, to, Addressed(from, to, id, session, body)), room, d);
  }

  /** Where a receiver is: on this machine, or beside another gate. */
  datatype Place = Here | Beside(gate: nat)

  predicate Linked(es: seq<Event>, g: nat) {
    AddLink(g) in es
  }

  /** What the first registration of `d` said that the gate could act on. */
  function PlaceOf(es: seq<Event>, d: nat): Option<Place> {
    if es == [] then None
    else
      var init, last := es[..|es| - 1], es[|es| - 1];
      if PlaceOf(init, d).Some? then PlaceOf(init, d)
      else if last.AddLocal? && last.id == d then Some(Here)
      else if last.AddRemote? && last.id == d && Linked(init, last.gate) then Some(Beside(last.gate))
      else None
  }

  /** The socket of the link to gate `g`, from the last word on it. */
  function SocketOf(es: seq<Event>, g: nat): nat {
    if es == [] then 0
    else
      var init, last := es[..|es| - 1], es[|es| - 1];
      if last.LinkConnected? && last.gate == g && Linked(init, g) then last.socket
      else if last.LinkLost? && last.gate == g then 0
      else SocketOf(init, g)
  }

  ghost predicate TargetAt(s: Gate, d: nat, place: Option<Place>) {
    match place
    case None => d !in s.targets
    case Some(Here) => d in s.targets && s.targets[d].Local?
    case Some(Beside(g)) => d in s.targets && s.targets[d] == Remote(g)
  }

  ghost predicate LinkAt(s: Gate, g: nat, linked: bool, socket: nat) {
    (g in s.links <==> linked) && (if g in s.links then s.links[g].socket == socket else socket == 0)
  }

  lemma {:induction false} SendAllSocket(link: Link, messages: seq<Packet>)
    ensures SendAll(link, messages).socket == link.socket
    decreases |messages|
  {
    if messages != [] {
      SendAllSocket(link, messages[..|messages| - 1]);
    }
  }

  lemma LinkedOne(es: seq<Event>, g: nat)
    requires es != []
    ensures Linked(es, g) <==> Linked(es[..|es| - 1], g) || es[|es| - 1] == AddLink(g)
  {
    assert es == es[..|es| - 1] + [es[|es| - 1]];
  }

  /** In every run receivers are where they first registered, and links have the socket last heard of. */
  lemma {:induction false} PlacesAndLinks(es: seq<Event>, d: nat, g: nat)
    ensures TargetAt(Play(es), d, PlaceOf(es, d)) && LinkAt(Play(es), g, Linked(es, g), SocketOf(es, g))
    decreases |es|
  {
    if es != [] {
      var init, last := es[..|es| - 1], es[|es| - 1];
      PlacesAndLinks(init, d, g);
      LinkedOne(es, g);
      if last.AddRemote? {
        PlacesAndLinks(init, d, last.gate);
        if last.gate in Play(init).links {
          SendAllSocket(Play(init).links[last.gate], At(Play(init).waiting, last.id));
        }
      }
    }
  }

  /** `n` turns of `d`'s drain coroutine with room in the channel. */
  function Drains(d: nat, n: nat): seq<Event> {
    seq(n, _ => Advance(d, true))
  }

  function WithStage(s: Gate, d: nat, stage: Stage): Gate {
    s.(targets := s.targets[d := Local(stage)])
  }

  lemma DrainOnce(s: Gate, d: nat, stage: Stage)
    ensures Next(WithStage(s, d, stage), Advance(d, true)) ==
            WithStage(s, d, SendQueue.Next(stage, SendQueue.Advance(true)))
  {
    var stage' := SendQueue.Next(stage, SendQueue.Advance(true));
    assert s.targets[d := Local(stage)][d := Local(stage')] == s.targets[d := Local(stage')];
  }

  lemma DrainsOne(es: seq<Event>, d: nat, n: nat)
    requires n > 0
    ensures Play(es + Drains(d, n)) == Next(Play(es + Drains(d, n - 1)), Advance(d, true))
  {
    assert (es + Drains(d, n))[..|es| + n - 1] == es + Drains(d, n - 1);
  }

  lemma AdvancesOne(stage: Stage, n: nat)
    requires n > 0
    ensures SendQueue.Play(stage, SendQueue.Advances(n)) ==
            SendQueue.Next(SendQueue.Play(stage, SendQueue.Advances(n - 1)), SendQueue.Advance(true))
  {
    assert SendQueue.Advances<Packet>(n)[..n - 1] == SendQueue.Advances(n - 1);
  }

  lemma {:induction false} Draining(es: seq<Event>, d: nat, stage: Stage, n: nat)
    requires Play(es) == WithStage(Play(es), d, stage)
    ensures Play(es + Drains(d, n)) == WithStage(Play(es), d, SendQueue.Play(stage, SendQueue.Advances(n)))
    decreases n
  {
    if n == 0 {
      assert es + Drains(d, 0) == es;
    } else {
      Draining(es, d, stage, n - 1);
      DrainsOne(es, d, n);
      AdvancesOne(stage, n);
      DrainOnce(Play(es), d, SendQueue.Play(stage, SendQueue.Advances(n - 1)));
    }
  }

  /** In every run, enough drain turns with room bring a local receiver every message addressed to it. */
  lemma GateDelivers(es: seq<Event>, d: nat) returns (n: nat)
    requires PlaceOf(es, d) == Some(Here)
    ensures Raw(Out(Play(es + Drains(d, n)), d)) == MessagesFor(es, d)
  {
    PlacesAndLinks(es, d, 0);
    PlayKeeps(es);
    assert TargetSound(Play(es), d);
    var stage := Play(es).targets[d].stage;
    n := SendQueue.Remaining(stage);
    assert Play(es).targets[d := Local(stage)] == Play(es).targets;
    Draining(es, d, stage, n);
    SendQueue.EverythingIsDelivered(stage);
    ForwardedByAddress(es, d);
  }

  /** In every run, while the link to a receiver's gate is up, nothing for that receiver is held back. */
  lemma LinkDelivers(es: seq<Event>, d: nat, g: nat)
    requires PlaceOf(es, d) == Some(Beside(g)) && SocketOf(es, g) > 0
    ensures Raw(Out(Play(es), d)) == MessagesFor(es, d)
  {
    PlacesAndLinks(es, d, g);
    PlayKeeps(es);
    assert LinkSound(Play(es), g);
    GateIsFifo(es, d);
  }

  // ---------------------------------------------------------------------------
  // The program

  class GateService {
    var targets: map<nat, Target>
    var links: map<nat, Link>
    var waiting: map<nat, seq<Packet>>
    ghost var forwarded: map<nat, seq<Packet>>

    ghost function Value(): Gate
      reads this
    {
      Gate(targets, links, waiting, forwarded)
    }

    constructor ()
      ensures Value() == EMPTY
    {
      targets, links, waiting, forwarded := map[], map[], map[], map[];
    }

    /** `service->write`, for either kind of service. */
    method WriteTo(d: nat, p: Packet, room: bool)
      requires d in targets && (targets[d].Remote? ==> targets[d].gate in links)
      modifies `targets, `links
      ensures match old(targets)[d]
              case Local(stage) =>
                && targets == old(targets)[d := Local(SendQueue.Next(stage, SendQueue.Write(p, room)))]
                && links == old(links)
              case Remote(g) =>
                targets == old(targets) && links == old(links)[g := RemoteLink.Next(old(links)[g], RemoteLink.Send(p))]
    {
      match targets[d] {
        case Local(stage) => targets := targets[d := Local(SendQueue.Next(stage, SendQueue.Write(p, room)))];
        case Remote(g) => links := links[g := RemoteLink.Next(links[g], RemoteLink.Send(p))];
      }
    }

    method ForwardMessage(bytes: Bytes, room: bool)
      requires Inv(Value())
      modifies this
      ensures Inv(Value()) && Value() == Next(old(Value()), Event.Forward(bytes, room))
    {
      NextKeeps(Value(), Event.Forward(bytes, room));
      if |bytes| < FORWARD_SIZE {
        return;
      }
      var p := Parse(bytes);
      assert TargetSound(Value(), p.to);
      forwarded := forwarded[p.to := At(forwarded, p.to) + [p]];
      if p.to !in targets {
        waiting := waiting[p.to := (if p.to in waiting then waiting[p.to] else []) + [p]];
      } else {
        WriteTo(p.to, p, room);
      }
    }

    method FlushToChannel(d: nat, held: seq<Packet>, rooms: seq<bool>)
      requires d in targets && targets[d].Local?
      modifies `targets, `links
      ensures targets == old(targets)[d := Local(WriteAll(old(targets)[d].stage, held, rooms))] && links == old(links)
    {
      for i := 0 to |held|
        invariant links == old(links)
        invariant targets == old(targets)[d := Local(WriteAll(old(targets)[d].stage, held[..i], rooms))]
      {
        WriteTo(d, held[i], i < |rooms| && rooms[i]);
        assert held[..i + 1][..i] == held[..i];
      }
      assert held[..|held|] == held;
    }

    method FlushToLink(d: nat, held: seq<Packet>, g: nat)
      requires d in targets && targets[d] == Remote(g) && g in links
      modifies `targets, `links
      ensures targets == old(targets) && links == old(links)[g := SendAll(old(links)[g], held)]
    {
      for i := 0 to |held|
        invariant targets == old(targets)
        invariant links == old(links)[g := SendAll(old(links)[g], held[..i])]
      {
        WriteTo(d, held[i], true);
        assert held[..i + 1][..i] == held[..i];
      }
      assert held[..|held|] == held;
    }

    method InstallLocal(d: nat, rooms: seq<bool>)
      requires d !in targets
      modifies this
      ensures Value() == Next(old(Value()), AddLocal(d, rooms))
    {
      targets := targets[d := Local(SendQueue.Opened())];
      var held := if d in waiting then waiting[d] else [];
      FlushToChannel(d, held, rooms);
      assert targets == old(targets)[d := Local(WriteAll(SendQueue.Opened(), held, rooms))];
      waiting := waiting - {d};
    }

    method InstallRemote(d: nat, g: nat)
      requires d !in targets && g in links
      modifies this
      ensures Value() == Next(old(Value()), AddRemote(d, g))
    {
      targets := targets[d := Remote(g)];
      var held := if d in waiting then waiting[d] else [];
      FlushToLink(d, held, g);
      waiting := waiting - {d};
    }

    /** `emplace_service` for a service on this machine: install it, then flush what was waiting for it. */
    method EmplaceLocal(d: nat, rooms: seq<bool>)
      requires Inv(Value())
      modifies this
      ensures Inv(Value()) && Value() == Next(old(Value()), AddLocal(d, rooms))
    {
      NextKeeps(Value(), AddLocal(d, rooms));
      if d !in targets {
        InstallLocal(d, rooms);
      }
    }

    /** `emplace_service` for a service next to gate `g`. */
    method EmplaceRemote(d: nat, g: nat)
      requires Inv(Value()) && g in links
      modifies this
      ensures Inv(Value()) && Value() == Next(old(Value()), AddRemote(d, g))
    {
      NextKeeps(Value(), AddRemote(d, g));
      if d !in targets {
        InstallRemote(d, g);
      }
    }
  }
}
