// The event relay's binary frames: a big-endian length, a thread id, the
// event type's length, the event type and the payload.

module FrameCodec {
  import opened Wrappers

  type byte = x: int | 0 <= x < 256

  const MAX_FRAME_SIZE := 16 * 1024 * 1024
  const HEADER_SIZE := 13
  const MIN_INT64 := -0x8000_0000_0000_0000
  const MAX_INT64 := 0x7fff_ffff_ffff_ffff

  type int64 = x: int | MIN_INT64 <= x <= MAX_INT64

  datatype Frame = Frame(threadId: int64, eventType: seq<byte>, payload: seq<byte>)

  datatype ReadError = EndOfStream | UnexpectedEndOfStream | FrameTooLarge | InvalidFrame

  // ---------------------------------------------------------------------
  // Big-endian integers
  // ---------------------------------------------------------------------

  // n written in width bytes, most significant first; higher bits are lost.
  function Put(n: nat, width: nat): (bytes: seq<byte>)
    ensures |bytes| == width
  {
    if width == 0 then [] else Put(n / 256, width - 1) + [n % 256]
  }

  function Get(bytes: seq<byte>): nat {
    if bytes == [] then 0 else Get(bytes[..|bytes| - 1]) * 256 + bytes[|bytes| - 1]
  }

  function Pow256(width: nat): (p: nat)
    ensures p > 0
  {
    if width == 0 then 1 else 256 * Pow256(width - 1)
  }

  lemma Distribute(a: int, b: int, d: int)
    ensures (a - b) * d == a * d - b * d
  {
  }

  lemma SmallMultiple(a: int, d: int)
    requires d > 0 && -d < a * d < d
    ensures a == 0
  {
  }

  lemma DivisionIsUnique(n: nat, d: nat, q: nat, r: nat)
    requires d > 0 && n == q * d + r && r < d
    ensures n % d == r
  {
    var k := n / d;
    assert n == k * d + n % d;
    assert (q - k) * d == n % d - r by {
      Distribute(q, k, d);
    }
    SmallMultiple(q - k, d);
  }

  lemma SplitLastByte(n: nat, p: nat)
    requires p > 0
    ensures n % (256 * p) == ((n / 256) % p) * 256 + n % 256
  {
    var q, r := n / 256 / p, (n / 256) % p;
    assert n / 256 == q * p + r;
    var low := r * 256 + n % 256;
    assert n == q * (256 * p) + low;
    assert 0 <= low < 256 * p;
    DivisionIsUnique(n, 256 * p, q, low);
  }

  lemma {:induction false} GetOfPut(n: nat, width: nat)
    ensures Get(Put(n, width)) == n % Pow256(width)
  {
    if width > 0 {
      GetOfPut(n / 256, width - 1);
      SplitLastByte(n, Pow256(width - 1));
      assert Put(n, width)[..width - 1] == Put(n / 256, width - 1);
    }
  }

  lemma {:induction false} PutOfGet(bytes: seq<byte>)
    ensures Put(Get(bytes), |bytes|) == bytes && Get(bytes) < Pow256(|bytes|)
  {
    if bytes != [] {
      var init, last := bytes[..|bytes| - 1], bytes[|bytes| - 1];
      PutOfGet(init);
      assert (Get(init) * 256 + last) / 256 == Get(init) && (Get(init) * 256 + last) % 256 == last;
    }
  }

  lemma Powers()
    ensures Pow256(4) == 0x1_0000_0000 && Pow256(8) == 0x1_0000_0000_0000_0000
  {
    assert Pow256(1) == 256 && Pow256(2) == 0x1_0000 && Pow256(3) == 0x100_0000 && Pow256(4) == 0x1_0000_0000;
    assert Pow256(5) == 0x100_0000_0000 && Pow256(6) == 0x1_0000_0000_0000 && Pow256(7) == 0x100_0000_0000_0000;
  }

  // Conversions between int64 and uint64 keep the bits.
  function Unsigned(n: int64): (u: nat)
    ensures u < 0x1_0000_0000_0000_0000
  {
    if n < 0 then n + 0x1_0000_0000_0000_0000 else n
  }

  function Signed(u: nat): (n: int64)
    requires u < 0x1_0000_0000_0000_0000
    ensures Unsigned(n) == u
  {
    if u > MAX_INT64 then u - 0x1_0000_0000_0000_0000 else u
  }

  // ---------------------------------------------------------------------
  // The wire form
  // ---------------------------------------------------------------------

  function FrameLen(f: Frame): nat {
    8 + 1 + |f.eventType| + |f.payload|
  }

  function Wire(f: Frame): seq<byte>
    requires |f.eventType| <= 255
  {
    Put(FrameLen(f), 4) + Put(Unsigned(f.threadId), 8) + [|f.eventType|] + f.eventType + f.payload
  }

  lemma GetBound(bytes: seq<byte>)
    requires |bytes| == 8
    ensures Get(bytes) < 0x1_0000_0000_0000_0000
  {
    PutOfGet(bytes);
    Powers();
  }

  // What a reader makes of a stream: the frame and the rest, or an error. A
  // stream that ends right after a header reads as a clean end.
  function Parse(input: seq<byte>): Result<(Frame, seq<byte>), ReadError> {
    if |input| == 0 then Err(EndOfStream)
    else if |input| < HEADER_SIZE then Err(UnexpectedEndOfStream)
    else
      var frameLen := Get(input[0..4]);
      if frameLen > MAX_FRAME_SIZE then Err(FrameTooLarge)
      else
        var etLen, remaining := input[12], frameLen - 8 - 1;
        if remaining < etLen then Err(InvalidFrame)
        else if |input| - HEADER_SIZE < remaining then
          Err(if |input| == HEADER_SIZE then EndOfStream else UnexpectedEndOfStream)
        else
          GetBound(input[4..12]);
          Ok((Frame(Signed(Get(input[4..12])), input[13..13 + etLen], input[13 + etLen..13 + remaining]), input[13 + remaining..]))
  }

  // ---------------------------------------------------------------------
  // Writer and reader over a byte stream
  // ---------------------------------------------------------------------

  class ByteStream {
    var data: seq<byte>

    constructor ()
      ensures data == []
    {
      data := [];
    }

    method Write(bytes: seq<byte>)
      modifies this
      ensures data == old(data) + bytes
    {
      data := data + bytes;
    }

    // io.ReadFull: all of buf, or an error once the stream runs dry.
    method ReadFull(buf: array<byte>) returns (err: Option<ReadError>)
      modifies this, buf
      ensures |old(data)| >= buf.Length ==>
        err == None && buf[..] == old(data)[..buf.Length] && data == old(data)[buf.Length..]
      ensures |old(data)| < buf.Length ==>
        err == Some(if old(data) == [] then EndOfStream else UnexpectedEndOfStream) && data == []
    {
      var n := if |data| < buf.Length then |data| else buf.Length;
      for i := 0 to n
        invariant n <= buf.Length && n <= |data| && data == old(data)
        invariant buf[..i] == data[..i]
      {
        buf[i] := data[i];
      }
      data := data[n..];
      if n == buf.Length {
        return None;
      }
      err := Some(if n == 0 then EndOfStream else UnexpectedEndOfStream);
    }
  }

  method PutInto(header: array<byte>, at: nat, n: nat, width: nat)
    requires at + width <= header.Length
    modifies header
    ensures header[..] == old(header[..at]) + Put(n, width) + old(header[at + width..])
  {
    var rest := n;
    var i := width;
    while i > 0
      invariant 0 <= i <= width
      invariant Put(n, width) == Put(rest, i) + header[at + i..at + width]
      invariant header[..at] == old(header[..at]) && header[at + width..] == old(header[at + width..])
    {
      i := i - 1;
      ghost var tail := header[at + i + 1..at + width];
      header[at + i] := rest % 256;
      assert header[at + i..at + width] == [rest % 256] + tail;
      rest := rest / 256;
    }
    assert header[..] == header[..at] + header[at..at + width] + header[at + width..];
  }

  method FillHeader(f: Frame) returns (header: array<byte>)
    requires |f.eventType| <= 255
    ensures fresh(header)
    ensures header[..] == Put(FrameLen(f), 4) + Put(Unsigned(f.threadId), 8) + [|f.eventType|]
  {
    header := new byte[HEADER_SIZE](_ => 0);
    PutInto(header, 0, FrameLen(f), 4);
    PutInto(header, 4, Unsigned(f.threadId), 8);
    header[12] := |f.eventType|;
    assert header[..] == header[0..4] + header[4..12] + [header[12]];
  }

  method WriteFrame(w: ByteStream, f: Frame) returns (ok: bool)
    modifies w
    ensures ok <==> |f.eventType| <= 255
    ensures w.data == old(w.data) + if ok then Wire(f) else []
  {
    if |f.eventType| > 255 {
      return false;
    }
    var header := FillHeader(f);
    ghost var before := w.data;
    w.Write(header[..]);
    w.Write(f.eventType);
    w.Write(f.payload);
    assert w.data == before + (header[..] + f.eventType + f.payload);
    ok := true;
  }

  method ReadFrame(r: ByteStream) returns (res: Result<Frame, ReadError>)
    modifies r
    ensures match Parse(old(r.data))
            case Ok((f, rest)) => res == Ok(f) && r.data == rest
            case Err(e) => res == Err(e)
  {
    var header := new byte[HEADER_SIZE](_ => 0);
    ghost var input := r.data;
    var err := r.ReadFull(header);
    if err.Some? {
      return Err(err.value);
    }
    assert header[..] == input[..HEADER_SIZE];
    assert header[0..4] == input[0..4] && header[4..12] == input[4..12] && header[12] == input[12];
    var frameLen := Get(header[0..4]);
    if frameLen > MAX_FRAME_SIZE {
      return Err(FrameTooLarge);
    }
    GetBound(header[4..12]);
    var threadId := Signed(Get(header[4..12]));
    var etLen: int := header[12];
    var remaining := frameLen - 8 - 1;
    if remaining < etLen {
      return Err(InvalidFrame);
    }
    var buf := new byte[remaining](_ => 0);
    err := r.ReadFull(buf);
    if err.Some? {
      return Err(err.value);
    }
    assert buf[..] == input[13..13 + remaining];
    assert buf[..etLen] == input[13..13 + etLen] && buf[etLen..] == input[13 + etLen..13 + remaining];
    res := Ok(Frame(threadId, buf[..etLen], buf[etLen..]));
  }

  // ---------------------------------------------------------------------
  // Round trips
  // ---------------------------------------------------------------------

  lemma WireSlices(f: Frame, rest: seq<byte>)
    requires |f.eventType| <= 255
    ensures var input, body := Wire(f) + rest, 13 + |f.eventType|;
      && |input| == 4 + FrameLen(f) + |rest|
      && input[0..4] == Put(FrameLen(f), 4) && input[4..12] == Put(Unsigned(f.threadId), 8) && input[12] == |f.eventType|
      && input[13..body] == f.eventType && input[body..4 + FrameLen(f)] == f.payload && input[4 + FrameLen(f)..] == rest
  {
    var header := Put(FrameLen(f), 4) + Put(Unsigned(f.threadId), 8) + [|f.eventType|];
    assert |header| == 13;
    assert Wire(f) + rest == header + (f.eventType + f.payload + rest);
  }

  lemma HeaderNumbers(f: Frame, rest: seq<byte>)
    requires |f.eventType| <= 255 && FrameLen(f) <= MAX_FRAME_SIZE
    ensures var input := Wire(f) + rest;
      |input| >= 12 && Get(input[0..4]) == FrameLen(f) && Get(input[4..12]) == Unsigned(f.threadId)
  {
    WireSlices(f, rest);
    GetOfPut(FrameLen(f), 4);
    GetOfPut(Unsigned(f.threadId), 8);
    Powers();
  }

  lemma ParseOfSlices(input: seq<byte>, f: Frame, rest: seq<byte>)
    requires |f.eventType| <= 255 && FrameLen(f) <= MAX_FRAME_SIZE && |input| == 4 + FrameLen(f) + |rest|
    requires Get(input[0..4]) == FrameLen(f) && Get(input[4..12]) == Unsigned(f.threadId) && input[12] == |f.eventType|
    requires var body := 13 + |f.eventType|;
      input[13..body] == f.eventType && input[body..4 + FrameLen(f)] == f.payload && input[4 + FrameLen(f)..] == rest
    ensures Parse(input) == Ok((f, rest))
  {
  }

  lemma FittingFrameParses(f: Frame, rest: seq<byte>)
    requires |f.eventType| <= 255 && FrameLen(f) <= MAX_FRAME_SIZE
    ensures Parse(Wire(f) + rest) == Ok((f, rest))
  {
    HeaderNumbers(f, rest);
    WireSlices(f, rest);
    ParseOfSlices(Wire(f) + rest, f, rest);
  }

  // Only written bytes are accepted: whatever parses is the wire form of the
  // frame it gives, followed by what is left.
  lemma AcceptedBytesAreWire(input: seq<byte>)
    requires Parse(input).Ok?
    ensures var (f, rest) := Parse(input).value;
      |f.eventType| <= 255 && FrameLen(f) <= MAX_FRAME_SIZE && input == Wire(f) + rest
  {
    var (f, rest) := Parse(input).value;
    PutOfGet(input[0..4]);
    PutOfGet(input[4..12]);
    var frameLen := Get(input[0..4]);
    assert FrameLen(f) == frameLen;
    assert input == input[0..4] + input[4..12] + [input[12]] + f.eventType + f.payload + rest;
  }

  // The base-256 digit of n that is `place` places from the last.
  function DigitAt(n: nat, place: nat): byte {
    if place == 0 then n % 256 else DigitAt(n / 256, place - 1)
  }

  lemma {:induction false} PutIsBigEndian(n: nat, width: nat, i: nat)
    requires i < width
    ensures Put(n, width)[i] == DigitAt(n, width - 1 - i)
  {
    if i < width - 1 {
      PutIsBigEndian(n / 256, width - 1, i);
    }
  }

  // The bytes of a frame, one by one: its length after the length field in
  // four bytes and its thread id in eight, most significant first and
  // negative ids in two's complement, the length of the event type in one,
  // then event type and payload.
  lemma WireByteByByte(f: Frame, i: nat)
    requires |f.eventType| <= 255 && i < |Wire(f)|
    ensures |Wire(f)| == 13 + |f.eventType| + |f.payload|
    ensures Wire(f)[i] ==
      if i < 4 then DigitAt(9 + |f.eventType| + |f.payload|, 3 - i)
      else if i < 12 then DigitAt(if f.threadId < 0 then f.threadId + 0x1_0000_0000_0000_0000 else f.threadId, 11 - i)
      else if i == 12 then |f.eventType|
      else if i < 13 + |f.eventType| then f.eventType[i - 13]
      else f.payload[i - 13 - |f.eventType|]
  {
    if i < 4 {
      PutIsBigEndian(FrameLen(f), 4, i);
    } else if i < 12 {
      PutIsBigEndian(Unsigned(f.threadId), 8, i - 4);
    }
  }

  // Why a reader refuses: the stream ends, the length is over the limit, or it
  // is too short for the event type it announces.
  lemma ParseErrors(input: seq<byte>)
    ensures Parse(input) == Err(EndOfStream) <==>
      input == [] || (|input| == 13 && Get(input[0..4]) <= 16 * 1024 * 1024 && Get(input[0..4]) - 9 >= input[12] && Get(input[0..4]) > 9)
    ensures Parse(input) == Err(FrameTooLarge) <==> |input| >= 13 && Get(input[0..4]) > 16 * 1024 * 1024
    ensures Parse(input) == Err(InvalidFrame) <==>
      |input| >= 13 && Get(input[0..4]) <= 16 * 1024 * 1024 && Get(input[0..4]) - 9 < input[12]
  {
  }

  // Reading back what was written, with anything behind it, gives the same
  // frame and leaves exactly what was behind it, exactly when the frame fits
  // the size limit; the writer itself does not check the limit.
  lemma FrameRoundTripIff(f: Frame, rest: seq<byte>)
    requires |f.eventType| <= 255
    ensures Parse(Wire(f) + rest) == Ok((f, rest)) <==> 9 + |f.eventType| + |f.payload| <= 16 * 1024 * 1024
  {
    if FrameLen(f) <= MAX_FRAME_SIZE {
      FittingFrameParses(f, rest);
    } else if Parse(Wire(f) + rest) == Ok((f, rest)) {
      AcceptedBytesAreWire(Wire(f) + rest);
    }
  }

  // The writer accepts a frame one byte over the limit; the reader refuses
  // what it wrote.
  lemma OverlongFrameIsRefused(f: Frame, rest: seq<byte>)
    requires f == Frame(1, [], seq(16 * 1024 * 1024 - 8, _ => 0))
    ensures |f.eventType| <= 255 && FrameLen(f) == 16 * 1024 * 1024 + 1
    ensures Parse(Wire(f) + rest) == Err(FrameTooLarge)
  {
    WireSlices(f, rest);
    GetOfPut(FrameLen(f), 4);
    Powers();
  }

  function WireAll(frames: seq<Frame>): seq<byte>
    requires forall i :: 0 <= i < |frames| ==> |frames[i].eventType| <= 255
  {
    if frames == [] then [] else Wire(frames[0]) + WireAll(frames[1..])
  }

  // Reading `count` frames one after another.
  function ParseMany(input: seq<byte>, count: nat): Result<(seq<Frame>, seq<byte>), ReadError> {
    if count == 0 then Ok(([], input))
    else
      match Parse(input)
      case Err(e) => Err(e)
      case Ok((f, left)) =>
        match ParseMany(left, count - 1)
        case Err(e) => Err(e)
        case Ok((frames, rest)) => Ok(([f] + frames, rest))
  }

  lemma LongFrameIsLost(input: seq<byte>, f: Frame)
    requires FrameLen(f) > MAX_FRAME_SIZE
    ensures Parse(input).Ok? ==> Parse(input).value.0 != f
  {
    if Parse(input).Ok? {
      AcceptedBytesAreWire(input);
    }
  }

  // Reading a list that starts with a fitting frame goes on with the rest.
  lemma FirstOfMany(f: Frame, later: seq<byte>, count: nat)
    requires |f.eventType| <= 255 && FrameLen(f) <= MAX_FRAME_SIZE
    ensures ParseMany(Wire(f) + later, count + 1) ==
      match ParseMany(later, count)
      case Err(e) => Err(e)
      case Ok((frames, rest)) => Ok(([f] + frames, rest))
  {
    FittingFrameParses(f, later);
  }

  ghost predicate AllFit(frames: seq<Frame>) {
    forall i :: 0 <= i < |frames| ==> FrameLen(frames[i]) <= MAX_FRAME_SIZE
  }

  lemma FirstFits(frames: seq<Frame>)
    requires frames != []
    ensures AllFit(frames) <==> FrameLen(frames[0]) <= MAX_FRAME_SIZE && AllFit(frames[1..])
  {
    assert forall i :: 0 < i < |frames| ==> frames[i] == frames[1..][i - 1];
  }

  // A list of frames written one after another reads back as the same list,
  // consuming exactly the bytes written, exactly when every frame fits.
  lemma {:induction false} FramesRoundTripIff(frames: seq<Frame>, rest: seq<byte>)
    requires forall i :: 0 <= i < |frames| ==> |frames[i].eventType| <= 255
    ensures ParseMany(WireAll(frames) + rest, |frames|) == Ok((frames, rest)) <==> AllFit(frames)
  {
    if frames != [] {
      var f, later := frames[0], WireAll(frames[1..]) + rest;
      assert WireAll(frames) + rest == Wire(f) + later;
      FramesRoundTripIff(frames[1..], rest);
      FirstFits(frames);
      if FrameLen(f) <= MAX_FRAME_SIZE {
        FirstOfMany(f, later, |frames| - 1);
        assert [f] + frames[1..] == frames;
      } else {
        LongFrameIsLost(Wire(f) + later, f);
      }
    } else {
      assert WireAll(frames) + rest == rest;
    }
  }

  // ---------------------------------------------------------------------
  // Truncated streams
  // ---------------------------------------------------------------------

  // A frame that is cut short reads as the end of the stream when nothing of
  // it, or exactly its header, is there; anywhere else the cut is noticed.
  lemma CutFrame(f: Frame, cut: nat)
    requires |f.eventType| <= 255 && FrameLen(f) <= MAX_FRAME_SIZE && cut < |Wire(f)|
    ensures Parse(Wire(f)[..cut]) == Err(if cut == 0 || cut == HEADER_SIZE then EndOfStream else UnexpectedEndOfStream)
  {
    if cut >= HEADER_SIZE {
      var input := Wire(f) + [];
      HeaderNumbers(f, []);
      WireSlices(f, []);
      assert input == Wire(f);
      assert Wire(f)[..cut][0..4] == input[0..4];
    }
  }

  // Reading frames until none is left, and how the reading ended.
  function ReadAll(input: seq<byte>): (seq<Frame>, ReadError)
    decreases |input|
  {
    match Parse(input)
    case Err(e) => ([], e)
    case Ok((f, left)) =>
      var (frames, e) := ReadAll(left);
      ([f] + frames, e)
  }

  // The cut falls after k whole frames, or after k frames and a header.
  ghost predicate CutAt(frames: seq<Frame>, k: nat, cut: nat)
    requires forall i :: 0 <= i < |frames| ==> |frames[i].eventType| <= 255
  {
    && k <= |frames|
    && (cut == |WireAll(frames[..k])| || (k < |frames| && cut == |WireAll(frames[..k])| + HEADER_SIZE))
  }

  ghost predicate CleanCut(frames: seq<Frame>, cut: nat)
    requires forall i :: 0 <= i < |frames| ==> |frames[i].eventType| <= 255
  {
    exists k :: CutAt(frames, k, cut)
  }

  lemma CutInFirstFrame(frames: seq<Frame>, cut: nat)
    requires frames != [] && forall i :: 0 <= i < |frames| ==> |frames[i].eventType| <= 255
    requires cut < |Wire(frames[0])|
    ensures CleanCut(frames, cut) <==> cut == 0 || cut == HEADER_SIZE
  {
    assert CutAt(frames, 0, cut) <==> cut == 0 || cut == HEADER_SIZE;
    forall k: nat | 0 < k <= |frames|
      ensures !CutAt(frames, k, cut)
    {
      assert frames[..k][0] == frames[0];
    }
  }

  lemma CutBehindFirstFrame(frames: seq<Frame>, cut: nat)
    requires frames != [] && forall i :: 0 <= i < |frames| ==> |frames[i].eventType| <= 255
    requires |Wire(frames[0])| <= cut
    ensures CleanCut(frames, cut) <==> CleanCut(frames[1..], cut - |Wire(frames[0])|)
  {
    var rest, left := frames[1..], cut - |Wire(frames[0])|;
    forall k: nat | k < |frames|
      ensures CutAt(frames, k + 1, cut) <==> CutAt(rest, k, left)
    {
      assert frames[..k + 1][1..] == rest[..k];
    }
    if k: nat :| CutAt(frames, k, cut) {
      if k == 0 {
        assert |Wire(frames[0])| == HEADER_SIZE == cut;
        assert rest[..0] == [] && CutAt(rest, 0, left);
      } else {
        assert CutAt(rest, k - 1, left);
      }
    }
    if k: nat :| CutAt(rest, k, left) {
      assert CutAt(frames, k + 1, cut);
    }
  }

  // A list of frames cut short anywhere reads as a clean end of stream
  // exactly when the cut is at a frame boundary or right after a header.
  lemma {:induction false} CutReadsAsEndIff(frames: seq<Frame>, cut: nat)
    requires forall i :: 0 <= i < |frames| ==> |frames[i].eventType| <= 255 && FrameLen(frames[i]) <= MAX_FRAME_SIZE
    requires cut <= |WireAll(frames)|
    ensures ReadAll(WireAll(frames)[..cut]).1 == EndOfStream <==> CleanCut(frames, cut)
  {
    var input := WireAll(frames)[..cut];
    if frames == [] {
      assert CutAt(frames, 0, cut);
    } else if cut < |Wire(frames[0])| {
      assert input == Wire(frames[0])[..cut];
      CutFrame(frames[0], cut);
      CutInFirstFrame(frames, cut);
    } else {
      var f, rest, left := frames[0], frames[1..], cut - |Wire(frames[0])|;
      assert input == Wire(f) + WireAll(rest)[..left];
      FittingFrameParses(f, WireAll(rest)[..left]);
      CutReadsAsEndIff(rest, left);
      CutBehindFirstFrame(frames, cut);
    }
  }

  // A frame of one payload byte, cut right after its header, reads as if
  // nothing had been sent.
  lemma HeaderAloneReadsAsEnd()
    ensures var f := Frame(1, [], [0]);
      |Wire(f)| == HEADER_SIZE + 1 && ReadAll(Wire(f)[..HEADER_SIZE]) == ([], EndOfStream)
  {
    CutFrame(Frame(1, [], [0]), HEADER_SIZE);
  }
}
