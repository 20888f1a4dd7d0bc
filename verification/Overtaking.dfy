/** A run in which a packet on a new connection between two gates overtakes one left on the old connection. */
module Overtaking {
  import opened RegistryMessages
  import opened Framing
  import opened Delivery
  import opened PacketOrder
  import opened Connections
  import opened EndToEnd
  import SendQueue
  import RemoteLink

  /** Service 20 sits at gate 1, all others at gate 0. */
  function Home(service: nat): nat {
    if service == 20 then 1 else 0
  }

  function Message(b: Byte): Packet {
    Packet(10, 20, Addressed(10, 20, 0, 0, [b]))
  }

  /** Service 10 has sent `handed` to service 20, all of it handed to the network; gate 1 has read nothing. */
  ghost predicate Ready(w: World, handed: seq<Packet>, starts: seq<nat>) {
    var s := GateOf(w, 0);
    && s.targets == map[20 := Remote(1)]
    && 1 in s.links && s.links[1].socket > 0 && s.links[1].queue == []
    && s.links[1].handed == handed && s.links[1].starts == starts
    && SourceOf(w, 10) == Source(SendQueue.Stage(true, [], SendQueue.Running, handed, handed), |handed|)
    && GateOf(w, 1) == Delivery.EMPTY
    && w.wires == map[]
  }

  function Setup(): seq<Step> {
    [Inside(0, AddLink(1)), Inside(0, AddRemote(20, 1)), Inside(0, LinkConnected(1, 5)), OpenChannel(10)]
  }

  function Sending(b: Byte): seq<Step> {
    [Submit(10, 20, 0, 0, [b], true), Relay(10, true)]
  }

  function Reconnecting(): seq<Step> {
    [Inside(0, LinkLost(1)), Inside(0, LinkConnected(1, 6))]
  }

  lemma {:induction false} PlayOne(es: seq<Step>, e: Step)
    ensures EndToEnd.Play(es + [e], Home) == EndToEnd.Next(EndToEnd.Play(es, Home), e, Home)
  {
    assert (es + [e])[..|es + [e]| - 1] == es;
  }

  lemma {:induction false} PlayTwo(es: seq<Step>, e: Step, f: Step)
    ensures EndToEnd.Play(es + [e, f], Home) ==
            EndToEnd.Next(EndToEnd.Next(EndToEnd.Play(es, Home), e, Home), f, Home)
  {
    PlayOne(es, e);
    PlayOne(es + [e], f);
    assert es + [e] + [f] == es + [e, f];
  }

  lemma {:induction false} PlayThree(es: seq<Step>, e: Step, f: Step, g: Step)
    ensures EndToEnd.Play(es + [e] + [f] + [g], Home) ==
            EndToEnd.Next(EndToEnd.Next(EndToEnd.Next(EndToEnd.Play(es, Home), e, Home), f, Home), g, Home)
  {
    PlayOne(es, e);
    PlayOne(es + [e], f);
    PlayOne(es + [e] + [f], g);
  }

  lemma Linked()
    ensures var w := EndToEnd.Play([Inside(0, AddLink(1)), Inside(0, AddRemote(20, 1))], Home);
            && GateOf(w, 0).targets == map[20 := Remote(1)] && GateOf(w, 0).links == map[1 := RemoteLink.Idle()]
            && w.gates.Keys == {0} && w.sources == map[] && w.wires == map[]
  {
    PlayTwo([], Inside(0, AddLink(1)), Inside(0, AddRemote(20, 1)));
    assert [] + Setup()[..2] == Setup()[..2] == [Inside(0, AddLink(1)), Inside(0, AddRemote(20, 1))];
    var w1 := EndToEnd.Next(BEGIN, Inside(0, AddLink(1)), Home);
    assert GateOf(w1, 0).links == map[1 := RemoteLink.Idle()];
  }

  lemma Connects(w: World)
    requires GateOf(w, 0).targets == map[20 := Remote(1)] && GateOf(w, 0).links == map[1 := RemoteLink.Idle()]
    requires w.gates.Keys == {0} && w.sources == map[] && w.wires == map[]
    ensures Ready(EndToEnd.Next(EndToEnd.Next(w, Inside(0, LinkConnected(1, 5)), Home), OpenChannel(10), Home), [], [0])
  {
    assert GateOf(EndToEnd.Next(w, Inside(0, LinkConnected(1, 5)), Home), 0).links[1].starts == [0];
  }

  lemma SetupReady()
    ensures Ready(EndToEnd.Play(Setup(), Home), [], [0])
  {
    Linked();
    PlayTwo(Setup()[..2], Inside(0, LinkConnected(1, 5)), OpenChannel(10));
    assert Setup()[..2] == [Inside(0, AddLink(1)), Inside(0, AddRemote(20, 1))];
    assert Setup()[..2] + [Inside(0, LinkConnected(1, 5)), OpenChannel(10)] == Setup();
    Connects(EndToEnd.Play(Setup()[..2], Home));
  }

  lemma MessageIsGenuine(b: Byte)
    ensures Genuine(Message(b)) && Message(b).bytes[FORWARD_SIZE] == b
  {
    ParseAddressed(10, 20, 0, 0, [b]);
  }

  lemma Submits(w: World, b: Byte, handed: seq<Packet>, starts: seq<nat>)
    requires Ready(w, handed, starts)
    ensures var sent := handed + [Message(b)];
            EndToEnd.Next(w, Submit(10, 20, 0, 0, [b], true), Home) ==
            w.(sources := w.sources[10 := Source(SendQueue.Stage(true, [], SendQueue.Running, sent, sent), |handed|)])
  {
    ParseAddressed(10, 20, 0, 0, [b]);
  }

  lemma Relays(w: World, b: Byte, handed: seq<Packet>, starts: seq<nat>)
    requires Ready(w, handed, starts)
    ensures var sent := handed + [Message(b)];
            var src := Source(SendQueue.Stage(true, [], SendQueue.Running, sent, sent), |handed|);
            Ready(EndToEnd.Next(w.(sources := w.sources[10 := src]), Relay(10, true), Home), sent, starts)
  {
    MessageIsGenuine(b);
    GenuineRoutes(GateOf(w, 0), Message(b), true);
  }

  lemma SendingReady(es: seq<Step>, b: Byte, handed: seq<Packet>, starts: seq<nat>)
    requires Ready(EndToEnd.Play(es, Home), handed, starts)
    ensures Ready(EndToEnd.Play(es + Sending(b), Home), handed + [Message(b)], starts)
  {
    PlayTwo(es, Submit(10, 20, 0, 0, [b], true), Relay(10, true));
    Submits(EndToEnd.Play(es, Home), b, handed, starts);
    Relays(EndToEnd.Play(es, Home), b, handed, starts);
  }

  lemma ReconnectingReady(es: seq<Step>, handed: seq<Packet>, starts: seq<nat>)
    requires Ready(EndToEnd.Play(es, Home), handed, starts)
    ensures Ready(EndToEnd.Play(es + Reconnecting(), Home), handed, starts + [|handed|])
  {
    PlayTwo(es, Inside(0, LinkLost(1)), Inside(0, LinkConnected(1, 6)));
  }

  /** Service 20 has registered and gate 1 has read `arrivals`. */
  ghost predicate Reached(w: World, handed: seq<Packet>, starts: seq<nat>, arrivals: seq<Arrival>, out: seq<Packet>) {
    && 1 in GateOf(w, 0).links && GateOf(w, 0).links[1].handed == handed && GateOf(w, 0).links[1].starts == starts
    && SourceOf(w, 10).stage.given == handed
    && WireOf(w, 0, 1) == arrivals
    && 20 in GateOf(w, 1).targets && GateOf(w, 1).targets[20].Local?
    && var stage := GateOf(w, 1).targets[20].stage; stage.open && stage.queue == [] && stage.out == out
  }

  lemma Registers(w: World, handed: seq<Packet>, starts: seq<nat>)
    requires Ready(w, handed, starts)
    ensures Reached(EndToEnd.Next(w, Inside(1, AddLocal(20, [])), Home), handed, starts, [], [])
  {
  }

  lemma Arrives(w: World, handed: seq<Packet>, starts: seq<nat>, arrivals: seq<Arrival>, out: seq<Packet>,
                c: nat, pos: nat)
    requires Reached(w, handed, starts, arrivals, out)
    requires NextPos(LinkOf(GateOf(w, 0), 1), arrivals, c) == Some(pos)
    requires pos < |handed| && handed[pos].to == 20 && Genuine(handed[pos])
    ensures Reached(EndToEnd.Next(w, Arrive(0, 1, c, true), Home), handed, starts,
                    arrivals + [Arrival(c, pos)], out + [handed[pos]])
  {
    GenuineRoutes(GateOf(w, 1), handed[pos], true);
  }

  lemma SecondArrives(w: World, p: Packet, q: Packet)
    requires Reached(w, [p, q], [0, 1], [], []) && q.to == 20 && Genuine(q)
    ensures Reached(EndToEnd.Next(w, Arrive(0, 1, 1, true), Home), [p, q], [0, 1], [Arrival(1, 1)], [q])
  {
    Arrives(w, [p, q], [0, 1], [], [], 1, 1);
    assert [] + [Arrival(1, 1)] == [Arrival(1, 1)] && [] + [q] == [q];
  }

  lemma FirstArrives(w: World, p: Packet, q: Packet)
    requires Reached(w, [p, q], [0, 1], [Arrival(1, 1)], [q]) && p.to == 20 && Genuine(p)
    ensures Reached(EndToEnd.Next(w, Arrive(0, 1, 0, true), Home), [p, q], [0, 1],
                    [Arrival(1, 1), Arrival(0, 0)], [q, p])
  {
    CountOne([], Arrival(1, 1), 0);
    assert [] + [Arrival(1, 1)] == [Arrival(1, 1)];
    Arrives(w, [p, q], [0, 1], [Arrival(1, 1)], [q], 0, 0);
    assert [Arrival(1, 1)] + [Arrival(0, 0)] == [Arrival(1, 1), Arrival(0, 0)] && [q] + [p] == [q, p];
  }

  function Handing(): seq<Step> {
    Setup() + Sending(1) + Reconnecting() + Sending(2)
  }

  /** The receiver reads the new connection before what is left on the old one. */
  function Run(): seq<Step> {
    Handing() + [Inside(1, AddLocal(20, []))] + [Arrive(0, 1, 1, true)] + [Arrive(0, 1, 0, true)]
  }

  lemma BothHanded()
    ensures Ready(EndToEnd.Play(Handing(), Home), [Message(1), Message(2)], [0, 1])
  {
    SetupReady();
    SendingReady(Setup(), 1, [], [0]);
    assert [] + [Message(1)] == [Message(1)];
    ReconnectingReady(Setup() + Sending(1), [Message(1)], [0]);
    assert [0] + [|[Message(1)]|] == [0, 1];
    SendingReady(Setup() + Sending(1) + Reconnecting(), 2, [Message(1)], [0, 1]);
    assert [Message(1)] + [Message(2)] == [Message(1), Message(2)];
  }

  lemma BothArrive(w: World, p: Packet, q: Packet)
    requires Ready(w, [p, q], [0, 1]) && p.to == q.to == 20 && Genuine(p) && Genuine(q)
    ensures var w' := EndToEnd.Next(EndToEnd.Next(w, Inside(1, AddLocal(20, [])), Home), Arrive(0, 1, 1, true), Home);
            Reached(EndToEnd.Next(w', Arrive(0, 1, 0, true), Home), [p, q], [0, 1],
                    [Arrival(1, 1), Arrival(0, 0)], [q, p])
  {
    var w1 := EndToEnd.Next(w, Inside(1, AddLocal(20, [])), Home);
    Registers(w, [p, q], [0, 1]);
    SecondArrives(w1, p, q);
    FirstArrives(EndToEnd.Next(w1, Arrive(0, 1, 1, true), Home), p, q);
  }

  lemma RunReaches()
    ensures Reached(EndToEnd.Play(Run(), Home), [Message(1), Message(2)], [0, 1],
                    [Arrival(1, 1), Arrival(0, 0)], [Message(2), Message(1)])
  {
    BothHanded();
    MessageIsGenuine(1);
    MessageIsGenuine(2);
    BothArrive(EndToEnd.Play(Handing(), Home), Message(1), Message(2));
    PlayThree(Handing(), Inside(1, AddLocal(20, [])), Arrive(0, 1, 1, true), Arrive(0, 1, 0, true));
  }

  lemma SelTwo(p: Packet, q: Packet)
    requires p.from == q.from == 10 && p.to == q.to == 20
    ensures Sel([p, q], 10, 20) == [p, q]
  {
    SelOne([], p, 10, 20);
    SelOne([p], q, 10, 20);
    assert [] + [p] == [p] && [p] + [q] == [p, q];
  }

  lemma TurnedAround(w: World, p: Packet, q: Packet)
    requires Reached(w, [p, q], [0, 1], [Arrival(1, 1), Arrival(0, 0)], [q, p])
    requires p.from == q.from == 10 && p.to == q.to == 20 && p != q
    ensures Submitted(w, 10, 20) == [p, q] && Delivered(w, 10, 20, Home) == [q, p]
    ensures !Sub([q, p], [p, q]) && OvertakenOnTheWay(w, 10, 20, Home)
  {
    SelTwo(p, q);
    SelTwo(q, p);
    var arrivals, l := Reads(w, 10, 20, Home), Path(w, 10, 20, Home);
    assert Between(l, arrivals[0], 10, 20) && Between(l, arrivals[1], 10, 20) && arrivals[0].conn > arrivals[1].conn;
    assert [q, p][0] != [p, q][0];
    if Sub([q, p], [p, q]) {
      SubLength([q, p], [p, q]);
    }
  }

  /** The receiver gets the second message before the first. */
  lemma NewConnectionOvertakes()
    ensures var w := EndToEnd.Play(Run(), Home);
            && Submitted(w, 10, 20) == [Message(1), Message(2)]
            && Delivered(w, 10, 20, Home) == [Message(2), Message(1)]
            && !Sub(Delivered(w, 10, 20, Home), Submitted(w, 10, 20))
            && OvertakenOnTheWay(w, 10, 20, Home)
  {
    RunReaches();
    MessageIsGenuine(1);
    MessageIsGenuine(2);
    TurnedAround(EndToEnd.Play(Run(), Home), Message(1), Message(2));
  }
}
