/** The byte layouts of `headers.hpp` and the stream framing built on them. All integers are little-endian. */
module Framing {
  type Byte = x: int | 0 <= x < 256
  type Bytes = seq<Byte>

  const FLAG_VALID: Byte := 0xe4
  const HEADER_SIZE := 16
  const MSG_LEN_LIMIT := 1024 * 1024 * 10

  function Pow256(n: nat): nat {
    if n == 0 then 1 else 256 * Pow256(n - 1)
  }

  /** `n` bytes of `x`, lowest first; higher digits are cut off. */
  function Put(x: nat, n: nat): (bs: Bytes)
    ensures |bs| == n
  {
    if n == 0 then [] else [x % 256] + Put(x / 256, n - 1)
  }

  function Get(bs: Bytes): nat {
    if bs == [] then 0 else bs[0] + 256 * Get(bs[1..])
  }

  lemma {:induction false} GetPut(x: nat, n: nat)
    requires x < Pow256(n)
    ensures Get(Put(x, n)) == x
    decreases n
  {
    if n > 0 {
      assert Put(x, n)[1..] == Put(x / 256, n - 1);
      GetPut(x / 256, n - 1);
    }
  }

  lemma {:induction false} PutGet(bs: Bytes)
    ensures Put(Get(bs), |bs|) == bs && Get(bs) < Pow256(|bs|)
    decreases |bs|
  {
    if bs != [] {
      var x, rest := Get(bs), bs[1..];
      PutGet(rest);
      assert x % 256 == bs[0] && x / 256 == Get(rest);
    }
  }

  lemma Get2(a: Byte, b: Byte)
    ensures Get([a, b]) == a as int + 256 * b as int
  {
    assert [a, b][1..] == [b] && [b][1..] == [];
    assert Get([b]) == b;
  }

  lemma Get3(a: Byte, b: Byte, c: Byte)
    ensures Get([a, b, c]) == a + 256 * b + 65536 * c
  {
    assert [a, b, c][1..] == [b, c] && [b, c][1..] == [c] && [c][1..] == [];
    assert Get([c]) == c;
    assert Get([b, c]) == b + 256 * c;
  }

  lemma Put3(x: nat)
    ensures Put(x, 3) == [x % 256, x / 256 % 256, x / 256 / 256 % 256]
  {
    assert Put(x / 256 / 256, 1) == [x / 256 / 256 % 256] + [];
    assert Put(x / 256, 2) == [x / 256 % 256] + Put(x / 256 / 256, 1);
    assert Put(x, 3) == [x % 256] + Put(x / 256, 2);
  }

  lemma Put2(x: nat)
    ensures Put(x, 2) == [x % 256, x / 256 % 256]
  {
    assert Put(x / 256, 1) == [x / 256 % 256] + [];
    assert Put(x, 2) == [x % 256] + Put(x / 256, 1);
  }

  /** Digit `i` of `x` in base 256. */
  function Digit(x: nat, i: nat): Byte {
    if i == 0 then x % 256 else Digit(x / 256, i - 1)
  }

  lemma {:induction false} ZeroDigit(i: nat)
    ensures Digit(0, i) == 0
    decreases i
  {
    if i > 0 {
      ZeroDigit(i - 1);
    }
  }

  lemma ZeroDigits()
    ensures forall i: nat :: Digit(0, i) == 0
  {
    forall i: nat ensures Digit(0, i) == 0 {
      ZeroDigit(i);
    }
  }

  lemma {:induction false} PutDigit(x: nat, n: nat, i: nat)
    requires i < n
    ensures Put(x, n)[i] == Digit(x, i)
    decreases n
  {
    if i > 0 {
      PutDigit(x / 256, n - 1, i - 1);
    }
  }

  lemma Low24(x: nat, w: nat, r: nat)
    requires x == 0x100_0000 * w + r && r < 0x100_0000
    ensures x % 0x100_0000 == r
  {
  }

  lemma Compose3(x: nat, y: nat, z: nat, w: nat, a: Byte, b: Byte, c: Byte)
    requires x == 256 * y + a && y == 256 * z + b && z == 256 * w + c
    ensures x == 0x100_0000 * w + (a + 256 * b + 65536 * c)
  {
  }

  lemma Digits3(x: nat)
    ensures x % 0x100_0000 == x % 256 + 256 * (x / 256 % 256) + 65536 * (x / 256 / 256 % 256)
  {
    var y := x / 256;
    var z := y / 256;
    var a, b, c := x % 256, y % 256, z % 256;
    Compose3(x, y, z, z / 256, a, b, c);
    Low24(x, z / 256, a + 256 * b + 65536 * c);
  }

  /** A 24-bit field keeps the low 24 bits. */
  lemma GetPut24(x: nat)
    ensures Get(Put(x, 3)) == x % 0x100_0000
  {
    Put3(x);
    Get3(x % 256, x / 256 % 256, x / 256 / 256 % 256);
    Digits3(x);
  }

  // ---------------------------------------------------------------------------
  // Frames

  /** `net_header` without the fixed fields; `len` is a 24-bit field. */
  datatype Header = Header(flag: Byte, len: nat, id: nat, session: nat)

  function PutHeader(h: Header): (bs: Bytes)
    ensures |bs| == HEADER_SIZE
  {
    [h.flag] + Put(h.len, 3) + Put(h.id, 2) + Put(0, 2) + Put(h.session, 8)
  }

  function GetHeader(bs: Bytes): Header
    requires |bs| == HEADER_SIZE
  {
    Header(bs[0], Get(bs[1..4]), Get(bs[4..6]), Get(bs[8..]))
  }

  datatype Frame = Frame(id: nat, session: nat, body: Bytes)

  /** Ids are `uint16_t`, sessions `uint64_t`. */
  ghost predicate Fits(f: Frame) {
    f.id < Pow256(2) && f.session < Pow256(8)
  }

  /** The wrapping in `remote_service::write`, and `create_net_buffer` for bodies below 2^24 bytes. */
  function Encode(f: Frame): Bytes {
    PutHeader(Header(FLAG_VALID, |f.body|, f.id, f.session)) + f.body
  }

  datatype Received =
    | Ok(frame: Frame, rest: Bytes)
    | Eof
    | BadFlag(flag: Byte)
    | TooLong(len: nat)

  function ReceiveBody(h: Header, rest: Bytes): Received {
    if h.flag != FLAG_VALID then BadFlag(h.flag)
    else if h.len > MSG_LEN_LIMIT then TooLong(h.len)
    else if |rest| < h.len then Eof
    else Ok(Frame(h.id, h.session, rest[..h.len]), rest[h.len..])
  }

  /** `recv_net_buffer` on the bytes still to come; `read_size` delivers all it was asked for or reports the end. */
  function Receive(stream: Bytes): Received {
    if |stream| < HEADER_SIZE then Eof
    else ReceiveBody(GetHeader(stream[..HEADER_SIZE]), stream[HEADER_SIZE..])
  }

  lemma HeaderRoundTrip(h: Header)
    requires h.id < Pow256(2) && h.session < Pow256(8)
    ensures GetHeader(PutHeader(h)) == h.(len := h.len % 0x100_0000)
  {
    var bs := PutHeader(h);
    assert bs[1..4] == Put(h.len, 3) && bs[4..6] == Put(h.id, 2) && bs[8..] == Put(h.session, 8);
    GetPut24(h.len);
    GetPut(h.id, 2);
    GetPut(h.session, 8);
  }

  /** `net_header` as it lies in memory: flag, 24-bit length, id, padding, session, each lowest byte first. */
  lemma HeaderLayout(h: Header)
    ensures PutHeader(h)[..8] == [h.flag, h.len % 256, h.len / 256 % 256, h.len / 256 / 256 % 256,
                                  h.id % 256, h.id / 256 % 256, 0, 0]
    ensures forall i | 0 <= i < 8 :: PutHeader(h)[8 + i] == Digit(h.session, i)
  {
    Put3(h.len);
    Put2(h.id);
    Put2(0);
    forall i | 0 <= i < 8 ensures PutHeader(h)[8 + i] == Digit(h.session, i) {
      PutDigit(h.session, 8, i);
    }
  }

  /** A frame on the wire begins with 0xe4 and the length of its body, which follows after 16 bytes. */
  lemma FrameLayout(f: Frame)
    ensures |Encode(f)| == 16 + |f.body| && Encode(f)[16..] == f.body
    ensures Encode(f)[..6] == [0xe4, |f.body| % 256, |f.body| / 256 % 256, |f.body| / 256 / 256 % 256,
                               f.id % 256, f.id / 256 % 256]
  {
    var head := PutHeader(Header(FLAG_VALID, |f.body|, f.id, f.session));
    HeaderLayout(Header(FLAG_VALID, |f.body|, f.id, f.session));
    assert Encode(f)[..6] == head[..8][..6];
  }

  lemma ReceiveSplit(head: Bytes, rest: Bytes)
    requires |head| == HEADER_SIZE
    ensures Receive(head + rest) == ReceiveBody(GetHeader(head), rest)
  {
    assert (head + rest)[..HEADER_SIZE] == head && (head + rest)[HEADER_SIZE..] == rest;
  }

  lemma ReceiveEncoded(f: Frame, rest: Bytes)
    requires Fits(f)
    ensures Receive(Encode(f) + rest) ==
              ReceiveBody(Header(FLAG_VALID, |f.body| % 0x100_0000, f.id, f.session), f.body + rest)
  {
    var h := Header(FLAG_VALID, |f.body|, f.id, f.session);
    assert Encode(f) + rest == PutHeader(h) + (f.body + rest);
    ReceiveSplit(PutHeader(h), f.body + rest);
    HeaderRoundTrip(h);
  }

  /** Exactly the frames with bodies up to the limit come back as sent, leaving the rest of the stream untouched. */
  lemma FrameRoundTrip(f: Frame, rest: Bytes)
    requires Fits(f)
    ensures Receive(Encode(f) + rest) == Ok(f, rest) <==> |f.body| <= MSG_LEN_LIMIT
  {
    ReceiveEncoded(f, rest);
    if |f.body| <= MSG_LEN_LIMIT {
      assert (f.body + rest)[..|f.body|] == f.body && (f.body + rest)[|f.body|..] == rest;
    }
  }

  /** Longer bodies up to 24 bits are refused; beyond that the length wraps and the stream loses its framing. */
  lemma LongBody(f: Frame, rest: Bytes)
    requires Fits(f) && |f.body| > MSG_LEN_LIMIT
    ensures var len := |f.body| % 0x100_0000;
            Receive(Encode(f) + rest) ==
              if len > MSG_LEN_LIMIT then TooLong(len)
              else Ok(Frame(f.id, f.session, f.body[..len]), f.body[len..] + rest)
  {
    var len := |f.body| % 0x100_0000;
    ReceiveEncoded(f, rest);
    assert (f.body + rest)[..len] == f.body[..len] && (f.body + rest)[len..] == f.body[len..] + rest;
  }

  lemma HeaderReadBack(bs: Bytes)
    requires |bs| == HEADER_SIZE && bs[6] == 0 && bs[7] == 0
    ensures PutHeader(GetHeader(bs)) == bs
    ensures GetHeader(bs).id < Pow256(2) && GetHeader(bs).session < Pow256(8)
  {
    PutGet(bs[1..4]);
    PutGet(bs[4..6]);
    PutGet(bs[8..]);
    Put2(0);
    assert bs == [bs[0]] + bs[1..4] + bs[4..6] + [0, 0] + bs[8..];
  }

  /** Whatever is received was a frame: encoding it again gives the very bytes it was read from. */
  lemma ReceivedWasSent(stream: Bytes)
    requires Receive(stream).Ok? && stream[6] == 0 && stream[7] == 0
    ensures var Ok(f, rest) := Receive(stream);
            Encode(f) + rest == stream && Fits(f) && |f.body| <= MSG_LEN_LIMIT
  {
    var head := stream[..HEADER_SIZE];
    HeaderReadBack(head);
    var Ok(f, rest) := Receive(stream);
    assert GetHeader(head) == Header(FLAG_VALID, |f.body|, f.id, f.session);
    assert stream == head + (f.body + rest);
  }

  /** What else can happen, told from the first bytes of the stream. */
  lemma NotReceived(stream: Bytes)
    ensures |stream| < 16 ==> Receive(stream) == Eof
    ensures |stream| >= 16 ==>
              var len: int := stream[1] as int + 256 * stream[2] as int + 65536 * stream[3] as int;
              && (stream[0] != 0xe4 ==> Receive(stream) == BadFlag(stream[0]))
              && (stream[0] == 0xe4 && len > 10485760 ==> Receive(stream) == TooLong(len))
              && (stream[0] == 0xe4 && len <= 10485760 ==> (Receive(stream) == Eof <==> |stream| < 16 + len))
              && (Receive(stream).Ok? <==> stream[0] == 0xe4 && len <= 10485760 && |stream| >= 16 + len)
  {
    if |stream| >= 16 {
      assert stream[..HEADER_SIZE][1..4] == [stream[1], stream[2], stream[3]];
      Get3(stream[1], stream[2], stream[3]);
    }
  }

  // ---------------------------------------------------------------------------
  // Streams

  function EncodeAll(fs: seq<Frame>): Bytes {
    if fs == [] then [] else Encode(fs[0]) + EncodeAll(fs[1..])
  }

  /** Everything a receive loop gets from a stream, and how it ends. */
  datatype Session = Session(frames: seq<Frame>, end: Received)

  /** The receive loop over any way of receiving one frame that makes progress. */
  function Collect(receive: Bytes -> Received, stream: Bytes): Session
    decreases |stream|
  {
    match receive(stream)
    case Ok(f, rest) =>
      if |rest| < |stream| then
        var s := Collect(receive, rest);
        Session([f] + s.frames, s.end)
      else Session([], Eof)
    case end => Session([], end)
  }

  function ReceiveAll(stream: Bytes): Session {
    Collect(Receive, stream)
  }

  lemma CollectStep(receive: Bytes -> Received, stream: Bytes, r: Received)
    requires r == receive(stream)
    ensures r.Ok? && |r.rest| < |stream| ==>
              && Collect(receive, stream).frames == [r.frame] + Collect(receive, r.rest).frames
              && Collect(receive, stream).end == Collect(receive, r.rest).end
    ensures r.Ok? && |r.rest| >= |stream| ==> Collect(receive, stream) == Session([], Eof)
    ensures !r.Ok? ==> Collect(receive, stream) == Session([], r)
  {
  }

  /** The receive loop as it runs. */
  method CollectLoop(receive: Bytes -> Received, stream: Bytes) returns (frames: seq<Frame>, end: Received)
    ensures Session(frames, end) == Collect(receive, stream) && !end.Ok?
  {
    frames := [];
    var left := stream;
    while true
      invariant frames + Collect(receive, left).frames == Collect(receive, stream).frames
      invariant Collect(receive, left).end == Collect(receive, stream).end
      decreases |left|
    {
      var r := receive(left);
      CollectStep(receive, left, r);
      if r.Ok? && |r.rest| < |left| {
        assert frames + ([r.frame] + Collect(receive, r.rest).frames) ==
               (frames + [r.frame]) + Collect(receive, r.rest).frames;
        frames := frames + [r.frame];
        left := r.rest;
      } else {
        end := if r.Ok? then Eof else r;
        return;
      }
    }
  }

  /** The frames of a stream, and why the loop ended. */
  method ReceiveLoop(stream: Bytes) returns (frames: seq<Frame>, end: Received)
    ensures Session(frames, end) == ReceiveAll(stream) && !end.Ok?
  {
    frames, end := CollectLoop(Receive, stream);
  }

  ghost predicate AllFit(fs: seq<Frame>) {
    forall i | 0 <= i < |fs| :: Fits(fs[i]) && |fs[i].body| <= MSG_LEN_LIMIT
  }

  /** Receiving from `stream` gives the frames `fs` one after the other and leaves `tail`. */
  ghost predicate Yields(receive: Bytes -> Received, stream: Bytes, fs: seq<Frame>, tail: Bytes)
    decreases |fs|
  {
    if fs == [] then stream == tail
    else
      var r := receive(stream);
      r.Ok? && |r.rest| < |stream| && r.frame == fs[0] && Yields(receive, r.rest, fs[1..], tail)
  }

  lemma {:induction false} EncodedYields(fs: seq<Frame>, tail: Bytes)
    requires AllFit(fs)
    ensures Yields(Receive, EncodeAll(fs) + tail, fs, tail)
    decreases |fs|
  {
    if fs == [] {
      assert EncodeAll(fs) + tail == tail;
    } else {
      var rest := EncodeAll(fs[1..]) + tail;
      EncodedYields(fs[1..], tail);
      assert EncodeAll(fs) + tail == Encode(fs[0]) + rest;
      FrameRoundTrip(fs[0], rest);
    }
  }

  lemma {:induction false} YieldsAll(receive: Bytes -> Received, stream: Bytes, fs: seq<Frame>, tail: Bytes)
    requires Yields(receive, stream, fs, tail)
    ensures Collect(receive, stream).frames == fs + Collect(receive, tail).frames
    ensures Collect(receive, stream).end == Collect(receive, tail).end
    decreases |fs|
  {
    if fs != [] {
      var r := receive(stream);
      YieldsAll(receive, r.rest, fs[1..], tail);
      CollectStep(receive, stream, r);
      assert [fs[0]] + (fs[1..] + Collect(receive, tail).frames) == fs + Collect(receive, tail).frames;
    }
  }

  /** Parsing a concatenation of frames returns them all, then whatever follows is parsed as if nothing preceded it. */
  lemma StreamRoundTrip(fs: seq<Frame>, tail: Bytes)
    requires AllFit(fs)
    ensures ReceiveAll(EncodeAll(fs) + tail).frames == fs + ReceiveAll(tail).frames
    ensures ReceiveAll(EncodeAll(fs) + tail).end == ReceiveAll(tail).end
  {
    EncodedYields(fs, tail);
    YieldsAll(Receive, EncodeAll(fs) + tail, fs, tail);
  }

  /** A stream cut anywhere inside a frame yields the complete frames before it and then the end of the stream. */
  lemma CutStream(fs: seq<Frame>, f: Frame, n: nat)
    requires AllFit(fs) && Fits(f) && |f.body| <= MSG_LEN_LIMIT && n < |Encode(f)|
    ensures ReceiveAll(EncodeAll(fs) + Encode(f)[..n]) == Session(fs, Eof)
  {
    var cut := Encode(f)[..n];
    if n >= HEADER_SIZE {
      var h := Header(FLAG_VALID, |f.body|, f.id, f.session);
      assert cut[..HEADER_SIZE] == PutHeader(h);
      HeaderRoundTrip(h);
    }
    assert Receive(cut) == Eof;
    StreamRoundTrip(fs, cut);
  }

  // ---------------------------------------------------------------------------
  // Forwarded messages

  const FORWARD_SIZE := 16
  const ID_GATE_FORWARD := 0x6005

  /** `forward_part`: who sends what to whom. */
  datatype Forward = Forward(from: nat, to: nat, id: nat, session: nat)

  function PutForward(p: Forward): (bs: Bytes)
    ensures |bs| == FORWARD_SIZE
  {
    Put(p.from, 2) + Put(p.to, 2) + Put(p.id, 2) + Put(0, 2) + Put(p.session, 8)
  }

  function GetForward(bs: Bytes): Forward
    requires |bs| >= FORWARD_SIZE
  {
    Forward(Get(bs[..2]), Get(bs[2..4]), Get(bs[4..6]), Get(bs[8..16]))
  }

  /** `forward_part` as it lies in memory: sender, receiver, id, padding, session, each lowest byte first. */
  lemma ForwardLayout(p: Forward)
    ensures PutForward(p)[..8] == [p.from % 256, p.from / 256 % 256, p.to % 256, p.to / 256 % 256,
                                   p.id % 256, p.id / 256 % 256, 0, 0]
    ensures forall i | 0 <= i < 8 :: PutForward(p)[8 + i] == Digit(p.session, i)
  {
    Put2(p.from);
    Put2(p.to);
    Put2(p.id);
    Put2(0);
    forall i | 0 <= i < 8 ensures PutForward(p)[8 + i] == Digit(p.session, i) {
      PutDigit(p.session, 8, i);
    }
  }

  /** `init_forward_buffer`, then a gate or a service reading the part back. */
  lemma ForwardRoundTrip(p: Forward, body: Bytes)
    requires p.from < Pow256(2) && p.to < Pow256(2) && p.id < Pow256(2) && p.session < Pow256(8)
    ensures GetForward(PutForward(p) + body) == p
  {
    var bs := PutForward(p) + body;
    assert bs[..2] == Put(p.from, 2) && bs[2..4] == Put(p.to, 2);
    assert bs[4..6] == Put(p.id, 2) && bs[8..16] == Put(p.session, 8);
    GetPut(p.from, 2);
    GetPut(p.to, 2);
    GetPut(p.id, 2);
    GetPut(p.session, 8);
  }

  /** What one gate writes to another for a forwarded message. */
  function Wrap(message: Bytes): Bytes {
    Encode(Frame(ID_GATE_FORWARD, 0, message))
  }

  /** Between gates a message travels in a frame of id 0x6005 and session 0. */
  lemma WrapLayout(message: Bytes)
    ensures |Wrap(message)| == 16 + |message| && Wrap(message)[16..] == message
    ensures Wrap(message)[0] == 0xe4 && Wrap(message)[4..16] == [0x05, 0x60, 0, 0, 0, 0, 0, 0, 0, 0, 0, 0]
  {
    var bs := Wrap(message);
    FrameLayout(Frame(ID_GATE_FORWARD, 0, message));
    HeaderLayout(Header(FLAG_VALID, |message|, ID_GATE_FORWARD, 0));
    assert forall i | 0 <= i < 8 :: bs[8 + i] == Digit(0, i) by {
      assert bs[..16] == PutHeader(Header(FLAG_VALID, |message|, ID_GATE_FORWARD, 0));
    }
    ZeroDigits();
    assert bs[..6][4] == 5 && bs[..6][5] == 0x60;
    assert bs[..16][..8] == PutHeader(Header(FLAG_VALID, |message|, ID_GATE_FORWARD, 0))[..8];
    assert bs[6] == bs[..16][..8][6] && bs[7] == bs[..16][..8][7];
    forall i | 8 <= i < 16 ensures bs[i] == 0 {
      assert bs[8 + (i - 8)] == Digit(0, i - 8);
    }
  }

  function Concat(parts: seq<Bytes>): Bytes {
    if parts == [] then [] else parts[0] + Concat(parts[1..])
  }

  lemma {:induction false} ConcatWrapped(fs: seq<Frame>, parts: seq<Bytes>)
    requires |fs| == |parts| && forall i | 0 <= i < |fs| :: parts[i] == Encode(fs[i])
    ensures Concat(parts) == EncodeAll(fs)
    decreases |fs|
  {
    if fs != [] {
      ConcatWrapped(fs[1..], parts[1..]);
    }
  }

  lemma Pow256Positive(n: nat)
    ensures Pow256(n) > 0
  {
  }

  /** Any sequence of forwarded messages survives the hop between gates unchanged and in order. */
  lemma {:induction false} GateHop(messages: seq<Bytes>)
    requires forall i | 0 <= i < |messages| :: |messages[i]| <= MSG_LEN_LIMIT
    ensures var wrapped := seq(|messages|, i requires 0 <= i < |messages| => Frame(ID_GATE_FORWARD, 0, messages[i]));
            var stream := Concat(seq(|messages|, i requires 0 <= i < |messages| => Wrap(messages[i])));
            ReceiveAll(stream) == Session(wrapped, Eof)
  {
    var wrapped := seq(|messages|, i requires 0 <= i < |messages| => Frame(ID_GATE_FORWARD, 0, messages[i]));
    forall i | 0 <= i < |wrapped| ensures Fits(wrapped[i]) {
      assert Pow256(2) == 256 * 256;
      Pow256Positive(8);
    }
    ConcatWrapped(wrapped, seq(|messages|, i requires 0 <= i < |messages| => Wrap(messages[i])));
    StreamRoundTrip(wrapped, []);
    assert EncodeAll(wrapped) + [] == EncodeAll(wrapped);
  }
}
