/** The frames of a bridge (src/tcp/mod.rs): what `thread_tx` writes to the stream and what `thread_rx` makes of it. */
module BridgeCodec {
  import opened Base
  import opened RawMessages
  import opened RingArithmetic

  /** What crosses a bridge: four addresses and the bytes of a raw message. */
  datatype Frame = Frame(srcsid: nat, srceid: nat, dstsid: nat, dsteid: nat, body: seq<Byte>)

  /** The bytes of a frame before the body, not counting its size. */
  const HEADER: nat := 1 + 8 * 4

  // ----- big-endian words -----

  function BigEndian(v: nat, n: nat): (b: seq<Byte>)
    ensures |b| == n
  {
    if n == 0 then [] else BigEndian(v / 256, n - 1) + [v % 256]
  }

  function Value(b: seq<Byte>): nat {
    if b == [] then 0 else Value(b[..|b| - 1]) * 256 + b[|b| - 1]
  }

  function Power(n: nat): nat {
    if n == 0 then 1 else 256 * Power(n - 1)
  }

  lemma {:induction false} ValueBigEndian(v: nat, n: nat)
    requires v < Power(n)
    ensures Value(BigEndian(v, n)) == v
  {
    if n > 0 {
      var b := BigEndian(v, n);
      assert b[..|b| - 1] == BigEndian(v / 256, n - 1);
      ValueBigEndian(v / 256, n - 1);
    }
  }

  lemma DivideTwice(v: nat, b: nat)
    requires b > 0
    ensures v / (256 * b) == v / 256 / b
  {
    var q, r := v / 256, v % 256;
    var q', r' := q / b, q % b;
    assert q == q' * b + r';
    assert 256 * (q' * b) == q' * (256 * b);
    RemainderOf(v, q', 256 * r' + r, 256 * b);
  }

  lemma PowerPositive(n: nat)
    ensures Power(n) > 0
  {
  }

  /** The first byte of a word is its highest digit. */
  lemma {:induction false} DigitAt(v: nat, n: nat, i: nat)
    requires i < n
    ensures Power(n - 1 - i) > 0 && BigEndian(v, n)[i] == v / Power(n - 1 - i) % 256
  {
    PowerPositive(n - 1 - i);
    if i < n - 1 {
      DigitAt(v / 256, n - 1, i);
      PowerPositive(n - 2 - i);
      DivideTwice(v, Power(n - 2 - i));
    }
  }

  /** What bytes are worth, by their places. */
  function Weighted(b: seq<Byte>): nat {
    if b == [] then 0 else b[0] * Power(|b| - 1) + Weighted(b[1..])
  }

  lemma {:induction false} WeightedLast(b: seq<Byte>, x: Byte)
    ensures Weighted(b + [x]) == Weighted(b) * 256 + x
  {
    if b == [] {
      assert [] + [x] == [x];
    } else {
      assert (b + [x])[1..] == b[1..] + [x];
      WeightedLast(b[1..], x);
      assert b[0] * Power(|b|) == b[0] * Power(|b| - 1) * 256;
    }
  }

  lemma {:induction false} ValueIsSum(b: seq<Byte>)
    ensures Value(b) == Weighted(b)
  {
    if b != [] {
      ValueIsSum(b[..|b| - 1]);
      WeightedLast(b[..|b| - 1], b[|b| - 1]);
      assert b == b[..|b| - 1] + [b[|b| - 1]];
    }
  }

  /** The eight bytes from `at` on are the digits of `v`, the highest first. */
  ghost predicate WordAt(b: seq<Byte>, at: nat, v: nat) {
    at + 8 <= |b| && forall i :: at <= i < at + 8 ==> b[i] == Digit(v, at + 7 - i)
  }

  function Digit(v: nat, place: nat): Byte {
    PowerPositive(place);
    v / Power(place) % 256
  }

  lemma WordPlaced(start: seq<Byte>, v: nat, rest: seq<Byte>)
    ensures WordAt(start + BigEndian(v, 8) + rest, |start|, v)
  {
    var b := start + BigEndian(v, 8) + rest;
    forall i | |start| <= i < |start| + 8 ensures b[i] == Digit(v, |start| + 7 - i) {
      DigitAt(v, 8, i - |start|);
    }
  }

  lemma WordIsPower()
    ensures Power(8) == WORD
  {
    assert Power(4) == 0x1_0000_0000;
    assert Power(8) == 256 * 256 * 256 * 256 * Power(4);
  }

  // ----- what is written -----

  /** The size of the frame without this word, the type, and the addresses. */
  function Head(f: Frame): seq<Byte> {
    BigEndian(HEADER + |f.body|, 8) + [1] + BigEndian(f.srcsid, 8) + BigEndian(f.srceid, 8)
    + BigEndian(f.dstsid, 8) + BigEndian(f.dsteid, 8)
  }

  function EncodeFrame(f: Frame): seq<Byte> {
    Head(f) + f.body
  }

  function Encode(fs: seq<Frame>): seq<Byte> {
    if fs == [] then [] else EncodeFrame(fs[0]) + Encode(fs[1..])
  }

  /** The bytes from `at` on are the frame: its size without this word, the type, the four addresses, and the body. */
  ghost predicate FrameAt(b: seq<Byte>, at: nat, f: Frame) {
    && at + 41 + |f.body| <= |b|
    && WordAt(b, at, 33 + |f.body|) && b[at + 8] == 1
    && WordAt(b, at + 9, f.srcsid) && WordAt(b, at + 17, f.srceid) && WordAt(b, at + 25, f.dstsid) && WordAt(b, at + 33, f.dsteid)
    && BodyAt(b, at + 41, f.body)
  }

  ghost predicate BodyAt(b: seq<Byte>, at: nat, body: seq<Byte>) {
    at + |body| <= |b| && forall i :: 0 <= i < |body| ==> b[at + i] == body[i]
  }

  lemma WordSlice(b: seq<Byte>, at: nat, v: nat)
    requires at + 8 <= |b| && b[at..at + 8] == BigEndian(v, 8)
    ensures WordAt(b, at, v)
  {
    forall i | at <= i < at + 8 ensures b[i] == Digit(v, at + 7 - i) {
      DigitAt(v, 8, i - at);
      assert b[i] == b[at..at + 8][i - at];
    }
  }

  lemma HeadParts(f: Frame)
    ensures var h := Head(f);
      && |h| == 41 && h[0..8] == BigEndian(HEADER + |f.body|, 8) && h[8] == 1 && h[9..17] == BigEndian(f.srcsid, 8)
      && h[17..25] == BigEndian(f.srceid, 8) && h[25..33] == BigEndian(f.dstsid, 8) && h[33..41] == BigEndian(f.dsteid, 8)
  {
  }

  lemma MiddleSlice(start: seq<Byte>, h: seq<Byte>, rest: seq<Byte>, i: nat, j: nat)
    requires i <= j <= |h|
    ensures (start + h + rest)[|start| + i..|start| + j] == h[i..j]
  {
  }

  lemma PartPlaced(start: seq<Byte>, h: seq<Byte>, rest: seq<Byte>, i: nat, v: nat)
    requires i + 8 <= |h| && h[i..i + 8] == BigEndian(v, 8)
    ensures WordAt(start + h + rest, |start| + i, v)
  {
    MiddleSlice(start, h, rest, i, i + 8);
    WordSlice(start + h + rest, |start| + i, v);
  }

  lemma FramePlaced(start: seq<Byte>, f: Frame, rest: seq<Byte>)
    ensures FrameAt(start + EncodeFrame(f) + rest, |start|, f)
  {
    var h := Head(f);
    HeadParts(f);
    BodyPlaced(start, h, f.body, rest);
    PartPlaced(start, h, f.body + rest, 0, HEADER + |f.body|);
    PartPlaced(start, h, f.body + rest, 9, f.srcsid);
    PartPlaced(start, h, f.body + rest, 17, f.srceid);
    PartPlaced(start, h, f.body + rest, 25, f.dstsid);
    PartPlaced(start, h, f.body + rest, 33, f.dsteid);
  }

  lemma BodyPlaced(start: seq<Byte>, h: seq<Byte>, body: seq<Byte>, rest: seq<Byte>)
    requires |h| == 41
    ensures start + (h + body) + rest == start + h + (body + rest)
    ensures (start + h + (body + rest))[|start| + 8] == h[8]
    ensures (start + h + (body + rest))[|start| + 41..|start| + 41 + |body|] == body
  {
  }

  /** From `at` on, the bytes are these frames, one after another, and nothing follows. */
  ghost predicate FramesAt(b: seq<Byte>, at: nat, fs: seq<Frame>)
    decreases fs
  {
    if fs == [] then |b| == at else FrameAt(b, at, fs[0]) && FramesAt(b, at + 41 + |fs[0].body|, fs[1..])
  }

  lemma FrameLength(f: Frame)
    ensures |EncodeFrame(f)| == 41 + |f.body|
  {
    HeadParts(f);
  }

  /** The first frame, and where the others start. */
  lemma FirstPlaced(b: seq<Byte>, start: seq<Byte>, fs: seq<Frame>)
    requires fs != [] && b == start + Encode(fs)
    ensures FrameAt(b, |start|, fs[0])
  {
    Regroup(start, EncodeFrame(fs[0]), Encode(fs[1..]));
    FramePlaced(start, fs[0], Encode(fs[1..]));
  }

  lemma OthersPlaced(b: seq<Byte>, start: seq<Byte>, fs: seq<Frame>)
    requires fs != [] && b == start + Encode(fs)
    ensures b == start + EncodeFrame(fs[0]) + Encode(fs[1..]) && |start + EncodeFrame(fs[0])| == |start| + 41 + |fs[0].body|
  {
    Regroup(start, EncodeFrame(fs[0]), Encode(fs[1..]));
    HeadParts(fs[0]);
  }

  lemma {:induction false} FramesStep(b: seq<Byte>, at: nat, fs: seq<Frame>)
    requires fs != [] && FrameAt(b, at, fs[0]) && FramesAt(b, at + 41 + |fs[0].body|, fs[1..])
    ensures FramesAt(b, at, fs)
  {
  }

  lemma {:induction false} FramesPlaced(b: seq<Byte>, start: seq<Byte>, fs: seq<Frame>)
    requires b == start + Encode(fs)
    ensures FramesAt(b, |start|, fs)
    decreases fs
  {
    if fs == [] {
      assert b == start;
    } else {
      OthersPlaced(b, start, fs);
      FramesPlaced(b, start + EncodeFrame(fs[0]), fs[1..]);
      FirstPlaced(b, start, fs);
      FramesStep(b, |start|, fs);
    }
  }

  /** What the endpoint of the bridge receives. Only raw messages can cross. */
  datatype Event = TimedOut | Terminate | NotRaw | Raw(frame: Frame)

  /** The messages to forward: the raw ones before the bridge is told to terminate. */
  function Forwarded(inbox: seq<Event>): seq<Frame> {
    if inbox == [] || inbox[0].Terminate? then []
    else (if inbox[0].Raw? then [inbox[0].frame] else []) + Forwarded(inbox[1..])
  }

  /** Before the end, what is forwarded of two stretches is what is forwarded of the one and then of the other. */
  lemma {:induction false} ForwardedJoin(a: seq<Event>, b: seq<Event>)
    requires Terminate !in a
    ensures Forwarded(a + b) == Forwarded(a) + Forwarded(b)
  {
    if a == [] {
      assert a + b == b;
    } else {
      assert (a + b)[1..] == a[1..] + b;
      ForwardedJoin(a[1..], b);
    }
  }

  /** A raw message is forwarded, a timeout or another message leaves no trace, and nothing after the end is forwarded. */
  lemma ForwardedOne(event: Event, rest: seq<Event>)
    ensures Forwarded([event]) == if event.Raw? then [event.frame] else []
    ensures Forwarded([Terminate] + rest) == []
  {
    assert Forwarded([event][1..]) == [];
  }

  // ----- what is read -----

  datatype End = Closed | Panicked

  /** The body that `thread_rx` passes on when `n` bytes are announced. What it could not read is whatever memory held. */
  ghost predicate BodyRead(b: seq<Byte>, n: nat, body: seq<Byte>) {
    && |body| == (if n == 0 then 1 else n)
    && (1 <= n <= |b| ==> body == b[..n])
  }

  /** Reading the frames `b` can end this way, having passed on the messages `fs`. */
  ghost predicate Reads(b: seq<Byte>, fs: seq<Frame>, end: End)
    decreases |b|
  {
    if |b| < 8 then fs == [] && end.Closed?
    else if |b| < 8 + HEADER || Value(b[..8]) < HEADER || b[8] != 1 then fs == [] && end.Panicked?
    else
      var n := Value(b[..8]) - HEADER;
      && fs != []
      && fs[0].srcsid == Value(b[9..17]) && fs[0].srceid == Value(b[17..25])
      && fs[0].dstsid == Value(b[25..33]) && fs[0].dsteid == Value(b[33..41])
      && BodyRead(b[41..], n, fs[0].body)
      && Reads(if n <= |b| - 41 then b[41 + n..] else [], fs[1..], end)
  }

  // ----- the byte stream between the two threads -----

  /** A connection: the bytes written to it and not yet read. */
  class Stream {
    var data: seq<Byte>

    constructor ()
      ensures data == []
    {
      data := [];
    }

    method Write(bytes: seq<Byte>)
      modifies this
      ensures data == old(data) + bytes
    {
      data := data + bytes;
    }

    method WriteU8(b: Byte)
      modifies this
      ensures data == old(data) + [b]
    {
      data := data + [b];
    }

    method WriteU64(v: nat)
      modifies this
      ensures data == old(data) + BigEndian(v, 8)
    {
      data := data + BigEndian(v, 8);
    }

    /** A read that finds too few bytes fails, and the bytes are gone. */
    method ReadU8() returns (r: Option<Byte>)
      modifies this
      ensures r == if |old(data)| < 1 then None else Some(old(data)[0])
      ensures data == if |old(data)| < 1 then [] else old(data)[1..]
    {
      if |data| < 1 { r := None; data := []; } else { r := Some(data[0]); data := data[1..]; }
    }

    method ReadU64() returns (r: Option<nat>)
      modifies this
      ensures r == if |old(data)| < 8 then None else Some(Value(old(data)[..8]))
      ensures data == if |old(data)| < 8 then [] else old(data)[8..]
    {
      if |data| < 8 { r := None; data := []; } else { r := Some(Value(data[..8])); data := data[8..]; }
    }

    /** `read_at_least`: fills `buf`, or as much of it as there are bytes. */
    method ReadInto(buf: array<Byte>)
      modifies this, buf
      ensures |old(data)| >= buf.Length ==> buf[..] == old(data)[..buf.Length]
      ensures data == if |old(data)| >= buf.Length then old(data)[buf.Length..] else []
    {
      var n := if |data| < buf.Length then |data| else buf.Length;
      for i := 0 to n
        invariant data == old(data) && buf[..i] == data[..i]
      {
        buf[i] := data[i];
      }
      assert buf[..n] == data[..n];
      data := data[n..];
    }
  }

  // ----- the two threads -----

  lemma {:induction false} EncodeAppend(start: seq<Byte>, fs: seq<Frame>, f: Frame)
    ensures start + Encode(fs) + EncodeFrame(f) == start + Encode(fs + [f])
    decreases fs
  {
    if fs == [] {
      assert fs + [f] == [f];
      assert Encode([f]) == EncodeFrame(f) + [];
    } else {
      assert (fs + [f])[1..] == fs[1..] + [f];
      EncodeAppend(start + EncodeFrame(fs[0]), fs[1..], f);
      Regroup(start, EncodeFrame(fs[0]), Encode(fs[1..]));
      Regroup(start, EncodeFrame(fs[0]), Encode(fs[1..] + [f]));
    }
  }

  lemma Regroup(a: seq<Byte>, b: seq<Byte>, c: seq<Byte>)
    ensures a + b + c == a + (b + c)
  {
  }

  method WriteFrame(stream: Stream, f: Frame)
    modifies stream
    ensures stream.data == old(stream.data) + EncodeFrame(f)
  {
    stream.WriteU64(HEADER + |f.body|);
    stream.WriteU8(1);
    stream.WriteU64(f.srcsid);
    stream.WriteU64(f.srceid);
    stream.WriteU64(f.dstsid);
    stream.WriteU64(f.dsteid);
    stream.Write(f.body);
  }

  /** From `at` on, the bytes are the identifier `sid` and then these frames. */
  ghost predicate WireAt(b: seq<Byte>, at: nat, sid: nat, fs: seq<Frame>) {
    WordAt(b, at, sid) && FramesAt(b, at + 8, fs)
  }

  lemma WireIs(start: seq<Byte>, sid: nat, fs: seq<Frame>)
    ensures WireAt(start + BigEndian(sid, 8) + Encode(fs), |start|, sid, fs)
  {
    WordPlaced(start, sid, Encode(fs));
    FramesPlaced(start + BigEndian(sid, 8) + Encode(fs), start + BigEndian(sid, 8), fs);
  }

  /** `thread_tx`, over the messages its endpoint receives. */
  method ThreadTx(sid: nat, inbox: seq<Event>, stream: Stream)
    modifies stream
    ensures stream.data == old(stream.data) + BigEndian(sid, 8) + Encode(Forwarded(inbox))
    ensures WireAt(stream.data, |old(stream.data)|, sid, Forwarded(inbox))
  {
    WireIs(stream.data, sid, Forwarded(inbox));
    stream.WriteU64(sid);
    ghost var start := stream.data;
    ghost var done := [];
    assert inbox[0..] == inbox;
    for i := 0 to |inbox|
      invariant Forwarded(inbox) == done + Forwarded(inbox[i..])
      invariant stream.data == start + Encode(done)
    {
      ForwardedNext(inbox, i, done);
      var event := inbox[i];
      if event.TimedOut? { continue; }
      if event.Terminate? { return; }
      if !event.Raw? { continue; }
      WriteFrame(stream, event.frame);
      EncodeAppend(start, done, event.frame);
      done := done + [event.frame];
    }
    assert inbox[|inbox|..] == [];
    assert Forwarded(inbox) == done;
  }

  lemma ForwardedNext(inbox: seq<Event>, i: nat, done: seq<Frame>)
    requires i < |inbox|
    ensures var event, rest := inbox[i], Forwarded(inbox[i + 1..]);
      done + Forwarded(inbox[i..]) == if event.Terminate? then done else if event.Raw? then done + [event.frame] + rest else done + rest
  {
    assert inbox[i..][1..] == inbox[i + 1..];
  }

  /** `f` is what is read after the size `n + 33`, and `rest` is what it leaves. */
  ghost predicate Taken(b: seq<Byte>, n: nat, f: Frame, rest: seq<Byte>) {
    && |b| >= HEADER && b[0] == 1
    && f.srcsid == Value(b[1..9]) && f.srceid == Value(b[9..17]) && f.dstsid == Value(b[17..25]) && f.dsteid == Value(b[25..33])
    && BodyRead(b[33..], n, f.body)
    && rest == if n <= |b| - 33 then b[33 + n..] else []
  }

  lemma TailSlices(b: seq<Byte>)
    requires |b| >= 41
    ensures b[8..][1..9] == b[9..17] && b[8..][9..17] == b[17..25] && b[8..][17..25] == b[25..33] && b[8..][25..33] == b[33..41]
    ensures b[8..][33..] == b[41..]
  {
  }

  lemma FrameTaken(b: seq<Byte>, rest: seq<Byte>, f: Frame, fs: seq<Frame>, end: End)
    requires |b| >= 8 && Value(b[..8]) >= HEADER && Taken(b[8..], Value(b[..8]) - HEADER, f, rest) && Reads(rest, fs, end)
    ensures Reads(b, [f] + fs, end)
  {
    TailSlices(b);
    assert ([f] + fs)[1..] == fs;
  }

  /** Having passed on `sent`, what is read from `b` completes what is read from `input`. */
  ghost predicate Continues(input: seq<Byte>, sent: seq<Frame>, b: seq<Byte>) {
    forall fs, e :: Reads(b, fs, e) ==> Reads(input, sent + fs, e)
  }

  lemma ContinuesStart(input: seq<Byte>)
    ensures Continues(input, [], input)
  {
    forall fs, e | Reads(input, fs, e) ensures Reads(input, [] + fs, e) { assert [] + fs == fs; }
  }

  lemma ContinuesEnd(input: seq<Byte>, sent: seq<Frame>, b: seq<Byte>, end: End)
    requires Continues(input, sent, b) && Reads(b, [], end)
    ensures Reads(input, sent, end)
  {
    assert sent + [] == sent;
  }

  lemma ContinuesNext(input: seq<Byte>, sent: seq<Frame>, b: seq<Byte>, f: Frame, rest: seq<Byte>)
    requires Continues(input, sent, b)
    requires |b| >= 8 && Value(b[..8]) >= HEADER && Taken(b[8..], Value(b[..8]) - HEADER, f, rest)
    ensures Continues(input, sent + [f], rest)
  {
    forall fs, e | Reads(rest, fs, e) ensures Reads(input, sent + [f] + fs, e) {
      FrameTaken(b, rest, f, fs, e);
      assert sent + [f] + fs == sent + ([f] + fs);
    }
  }

  /** The messages of `thread_rx` go to `Endpoint::sendx`; `sid` is what the endpoint is told the far net is called. */
  method ThreadRx(stream: Stream) returns (sid: Option<nat>, sent: seq<Frame>, end: End)
    modifies stream
    ensures if |old(stream.data)| < 8 then sid.None? && sent == [] && end.Panicked?
            else sid == Some(Value(old(stream.data)[..8])) && Reads(old(stream.data)[8..], sent, end)
  {
    sent := [];
    sid := stream.ReadU64();
    if sid.None? { end := Panicked; return; }
    ghost var input := stream.data;
    ContinuesStart(input);
    while true
      invariant Continues(input, sent, stream.data)
      decreases |stream.data|
    {
      ghost var b := stream.data;
      var size := stream.ReadU64();
      if size.None? {
        end := Closed;
        ContinuesEnd(input, sent, b, end);
        return;
      }
      var frame, ok := ReadFrame(stream, size.value);
      if !ok {
        end := Panicked;
        ContinuesEnd(input, sent, b, end);
        return;
      }
      ContinuesNext(input, sent, b, frame, stream.data);
      sent := sent + [frame];
    }
  }

  /** The type byte and the four addresses of a frame. */
  method ReadHeader(stream: Stream) returns (kind: Byte, f: Frame, ok: bool)
    modifies stream
    ensures ok <==> |old(stream.data)| >= HEADER
    ensures ok ==> var b := old(stream.data);
      && kind == b[0] && stream.data == b[33..] && f == Frame(Value(b[1..9]), Value(b[9..17]), Value(b[17..25]), Value(b[25..33]), [])
  {
    ghost var b := stream.data;
    kind, f, ok := 0, Frame(0, 0, 0, 0, []), false;
    var type_ := stream.ReadU8();
    var srcsid := stream.ReadU64();
    var srceid := stream.ReadU64();
    var dstsid := stream.ReadU64();
    var dsteid := stream.ReadU64();
    if type_.None? || srcsid.None? || srceid.None? || dstsid.None? || dsteid.None? { return; }
    assert b[1..][..8] == b[1..9] && b[1..][8..] == b[9..];
    assert b[9..][..8] == b[9..17] && b[9..][8..] == b[17..];
    assert b[17..][..8] == b[17..25] && b[17..][8..] == b[25..];
    assert b[25..][..8] == b[25..33] && b[25..][8..] == b[33..];
    kind, f, ok := type_.value, Frame(srcsid.value, srceid.value, dstsid.value, dsteid.value, []), true;
  }

  /** The bytes of the message, copied into a new raw message. */
  method ReadBody(stream: Stream, n: nat) returns (raw: RawMessage)
    modifies stream
    ensures fresh(raw) && raw.Valid() && BodyRead(old(stream.data), n, raw.Slice())
    ensures stream.data == if n <= |old(stream.data)| then old(stream.data)[n..] else []
  {
    var vbuf := new Byte[n];
    stream.ReadInto(vbuf);
    raw := new RawMessage(n);
    var outcome := raw.WriteFromSlice(0, vbuf[..]);
    assert n > 0 ==> raw.buf[..] == vbuf[..];
  }

  /** The rest of a frame after its size. Sizes below 33 wrap around, and no memory can be had for them. */
  method ReadFrame(stream: Stream, size: nat) returns (f: Frame, ok: bool)
    modifies stream
    ensures ok <==> |old(stream.data)| >= HEADER && size >= HEADER && old(stream.data)[0] == 1
    ensures ok ==> Taken(old(stream.data), size - HEADER, f, stream.data)
  {
    var kind;
    kind, f, ok := ReadHeader(stream);
    if !ok || size < HEADER { ok := false; return; }
    var raw := ReadBody(stream, size - HEADER);
    if kind != 1 { ok := false; return; }
    f := f.(body := raw.buf[..raw.len]);
  }

  // ----- round trip -----

  /** The addresses are words and the size of the frame fits into one. */
  predicate Fits(f: Frame) {
    f.srcsid < WORD && f.srceid < WORD && f.dstsid < WORD && f.dsteid < WORD && HEADER + |f.body| < WORD
  }

  lemma HeadFields(f: Frame)
    requires Fits(f)
    ensures var h := Head(f);
      && |h| == 41 && Value(h[..8]) == HEADER + |f.body| && h[8] == 1
      && Value(h[9..17]) == f.srcsid && Value(h[17..25]) == f.srceid && Value(h[25..33]) == f.dstsid && Value(h[33..41]) == f.dsteid
  {
    WordIsPower();
    ValueBigEndian(HEADER + |f.body|, 8);
    ValueBigEndian(f.srcsid, 8);
    ValueBigEndian(f.srceid, 8);
    ValueBigEndian(f.dstsid, 8);
    ValueBigEndian(f.dsteid, 8);
    var h := Head(f);
    assert h[..8] == BigEndian(HEADER + |f.body|, 8);
    assert h[9..17] == BigEndian(f.srcsid, 8);
    assert h[17..25] == BigEndian(f.srceid, 8);
    assert h[25..33] == BigEndian(f.dstsid, 8);
    assert h[33..41] == BigEndian(f.dsteid, 8);
  }

  lemma PrefixSlice(h: seq<Byte>, rest: seq<Byte>, i: nat, j: nat)
    requires i <= j <= |h|
    ensures (h + rest)[i..j] == h[i..j]
  {
  }

  lemma FrameFields(f: Frame, tail: seq<Byte>)
    requires Fits(f)
    ensures var b := EncodeFrame(f) + tail;
      && |b| >= 41 + |f.body| && Value(b[..8]) == HEADER + |f.body| && b[8] == 1
      && Value(b[9..17]) == f.srcsid && Value(b[17..25]) == f.srceid && Value(b[25..33]) == f.dstsid && Value(b[33..41]) == f.dsteid
      && b[41..] == f.body + tail
  {
    HeadFields(f);
    var h, rest := Head(f), f.body + tail;
    assert EncodeFrame(f) + tail == h + rest;
    PrefixSlice(h, rest, 0, 8);
    PrefixSlice(h, rest, 9, 17);
    PrefixSlice(h, rest, 17, 25);
    PrefixSlice(h, rest, 25, 33);
    PrefixSlice(h, rest, 33, 41);
  }

  /** The frame that comes out of one written frame. */
  ghost predicate Carries(f: Frame, g: Frame) {
    && g.srcsid == f.srcsid && g.srceid == f.srceid && g.dstsid == f.dstsid && g.dsteid == f.dsteid
    && |g.body| == (if |f.body| == 0 then 1 else |f.body|)
    && (|f.body| > 0 ==> g.body == f.body)
  }

  /** Whatever follows a written frame on the stream, reading takes exactly that frame off. */
  lemma FrameReads(f: Frame, tail: seq<Byte>, gs: seq<Frame>, end: End)
    requires Fits(f) && Reads(EncodeFrame(f) + tail, gs, end)
    ensures gs != [] && Carries(f, gs[0]) && Reads(tail, gs[1..], end)
  {
    FrameFields(f, tail);
    var b := EncodeFrame(f) + tail;
    assert b[41..][..|f.body|] == f.body;
    assert b[41 + |f.body|..] == b[41..][|f.body|..] == tail;
  }

  lemma {:induction false} FramesRead(fs: seq<Frame>, tail: seq<Byte>, gs: seq<Frame>, end: End)
    requires (forall i :: 0 <= i < |fs| ==> Fits(fs[i])) && Reads(Encode(fs) + tail, gs, end)
    ensures |gs| >= |fs| && (forall i :: 0 <= i < |fs| ==> Carries(fs[i], gs[i])) && Reads(tail, gs[|fs|..], end)
  {
    if fs == [] {
      assert Encode(fs) + tail == tail;
      assert gs[0..] == gs;
    } else {
      EncodeHead(fs, tail);
      FrameReads(fs[0], Encode(fs[1..]) + tail, gs, end);
      FramesRead(fs[1..], tail, gs[1..], end);
      CarriesShift(fs, gs);
    }
  }

  lemma EncodeHead(fs: seq<Frame>, tail: seq<Byte>)
    requires fs != []
    ensures Encode(fs) + tail == EncodeFrame(fs[0]) + (Encode(fs[1..]) + tail)
  {
  }

  lemma CarriesShift(fs: seq<Frame>, gs: seq<Frame>)
    requires 0 < |fs| <= |gs| && Carries(fs[0], gs[0])
    requires forall i :: 0 <= i < |fs[1..]| ==> Carries(fs[1..][i], gs[1..][i])
    ensures forall i :: 0 <= i < |fs| ==> Carries(fs[i], gs[i])
    ensures gs[1..][|fs[1..]|..] == gs[|fs|..]
  {
    forall i | 0 <= i < |fs| ensures Carries(fs[i], gs[i]) {
      if i > 0 { assert Carries(fs[1..][i - 1], gs[1..][i - 1]); }
    }
  }

  /** All frames come out in order and the stream is used up; they are the frames that went in exactly if no body is empty. */
  lemma RoundTrip(fs: seq<Frame>, gs: seq<Frame>, end: End)
    requires (forall i :: 0 <= i < |fs| ==> Fits(fs[i])) && Reads(Encode(fs), gs, end)
    ensures end == Closed && |gs| == |fs|
    ensures gs == fs <==> forall i :: 0 <= i < |fs| ==> |fs[i].body| >= 1
  {
    assert Encode(fs) + [] == Encode(fs);
    FramesRead(fs, [], gs, end);
    if forall i :: 0 <= i < |fs| ==> |fs[i].body| >= 1 {
      assert forall i :: 0 <= i < |fs| ==> Carries(fs[i], gs[i]) && gs[i] == fs[i];
    } else {
      var i :| 0 <= i < |fs| && |fs[i].body| < 1;
      assert Carries(fs[i], gs[i]);
      assert gs[i] != fs[i];
    }
  }

  /** The two threads at the two ends of a connection, and the bytes that went over it. */
  method Connect(sid: nat, inbox: seq<Event>) returns (wire: seq<Byte>, remote: Option<nat>, sent: seq<Frame>)
    requires sid < WORD && forall i :: 0 <= i < |Forwarded(inbox)| ==> Fits(Forwarded(inbox)[i])
    ensures wire == BigEndian(sid, 8) + Encode(Forwarded(inbox)) && remote == Some(sid) && |sent| == |Forwarded(inbox)|
    ensures sent == Forwarded(inbox) <==> forall i :: 0 <= i < |Forwarded(inbox)| ==> |Forwarded(inbox)[i].body| >= 1
  {
    var stream := new Stream();
    ThreadTx(sid, inbox, stream);
    wire := stream.data;
    assert wire[..8] == BigEndian(sid, 8) && wire[8..] == Encode(Forwarded(inbox));
    WordIsPower();
    ValueBigEndian(sid, 8);
    var end;
    remote, sent, end := ThreadRx(stream);
    RoundTrip(Forwarded(inbox), sent, end);
  }
}
