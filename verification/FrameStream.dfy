/** The batch upload body: the client writes each compressed collab behind a 4-byte big-endian length,
    the server parses frames incrementally from whatever chunks arrive. */
module FrameStream {
  import opened Common

  // ---------------------------------------------------------------- the frame format

  /** u32::to_be_bytes. */
  function BigEndian(n: nat): (r: Bytes)
    requires n < U32
    ensures |r| == 4
  {
    [n / 0x100_0000, n / 0x1_0000 % 0x100, n / 0x100 % 0x100, n % 0x100]
  }

  /** u32::from_be_bytes. */
  function FromBigEndian(b: Bytes): (n: nat)
    requires |b| >= 4
    ensures n < U32
  {
    var b0: int, b1: int, b2: int, b3: int := b[0], b[1], b[2], b[3];
    b0 * 0x100_0000 + b1 * 0x1_0000 + b2 * 0x100 + b3
  }

  lemma BigEndianRoundTrip(n: nat, rest: Bytes)
    requires n < U32
    ensures FromBigEndian(BigEndian(n) + rest) == n
  {
    var b := BigEndian(n);
    assert (b + rest)[0] == b[0] && (b + rest)[1] == b[1] && (b + rest)[2] == b[2] && (b + rest)[3] == b[3];
    DigitsOf(n);
  }

  /** The most significant byte comes first. */
  lemma BigEndianMeaning(a: Byte, b: Byte, c: Byte, d: Byte)
    ensures var n: nat := ((a as nat * 256 + b as nat) * 256 + c as nat) * 256 + d as nat;
            n < U32 && FromBigEndian([a, b, c, d]) == n && BigEndian(n) == [a, b, c, d]
  {
  }

  lemma DigitsOf(n: nat)
    requires n < U32
    ensures n / 0x100_0000 * 0x100_0000 + n / 0x1_0000 % 0x100 * 0x1_0000 + n / 0x100 % 0x100 * 0x100 + n % 0x100 == n
  {
    var a, b := n / 0x100, n / 0x1_0000;
    assert n == a * 0x100 + n % 0x100;
    assert a / 0x100 == b && a == b * 0x100 + a % 0x100;
    assert b / 0x100 == n / 0x100_0000 && b == b / 0x100 * 0x100 + b % 0x100;
  }

  /** `len() as u32` keeps the low 32 bits. */
  function WriteFrame(frame: Bytes): Bytes {
    BigEndian(|frame| % U32) + frame
  }

  function WriteFrames(frames: seq<Bytes>): Bytes {
    if frames == [] then [] else WriteFrame(frames[0]) + WriteFrames(frames[1..])
  }

  // ---------------------------------------------------------------- the parser

  /** Frames emitted so far and the bytes of an unfinished one; or the first frame that did not decode. */
  datatype Parsed = Parsed(frames: seq<Bytes>, rest: Bytes) | Rejected(frames: seq<Bytes>, bad: Bytes)

  predicate HasFrame(buf: Bytes) {
    |buf| >= 4 && |buf| >= 4 + FromBigEndian(buf)
  }

  function FirstFrame(buf: Bytes): Bytes
    requires HasFrame(buf)
  {
    buf[4..4 + FromBigEndian(buf)]
  }

  function AfterFrame(buf: Bytes): (r: Bytes)
    requires HasFrame(buf)
    ensures |r| < |buf|
  {
    buf[4 + FromBigEndian(buf)..]
  }

  /** The inner loop: take whole frames off the buffer, decoding each. `ok` stands for decompression,
      deserialization and validation of one frame. */
  function Parse(ok: Bytes -> bool, buf: Bytes): Parsed
    decreases |buf|
  {
    if !HasFrame(buf) then Parsed([], buf)
    else if !ok(FirstFrame(buf)) then Rejected([], FirstFrame(buf))
    else
      match Parse(ok, AfterFrame(buf))
      case Parsed(frames, rest) => Parsed([FirstFrame(buf)] + frames, rest)
      case Rejected(frames, bad) => Rejected([FirstFrame(buf)] + frames, bad)
  }

  /** What was parsed, behind the frames emitted before. */
  function Onto(frames: seq<Bytes>, p: Parsed): Parsed {
    p.(frames := frames + p.frames)
  }

  /** One more chunk: `None` is a network error, which the handler skips. */
  function Feed(ok: Bytes -> bool, p: Parsed, chunk: Option<Bytes>): Parsed {
    match (p, chunk)
    case (Rejected(_, _), _) => p
    case (_, None) => p
    case (Parsed(frames, rest), Some(bytes)) => Onto(frames, Parse(ok, rest + bytes))
  }

  function FeedAll(ok: Bytes -> bool, p: Parsed, chunks: seq<Option<Bytes>>): Parsed
    decreases |chunks|
  {
    if chunks == [] then p else FeedAll(ok, Feed(ok, p, chunks[0]), chunks[1..])
  }

  function Flatten(chunks: seq<Option<Bytes>>): Bytes {
    if chunks == [] then []
    else (if chunks[0].Some? then chunks[0].value else []) + Flatten(chunks[1..])
  }

  // ---------------------------------------------------------------- chunking does not matter

  lemma FrameSurvivesMoreBytes(buf: Bytes, more: Bytes)
    requires HasFrame(buf)
    ensures HasFrame(buf + more) && FirstFrame(buf + more) == FirstFrame(buf)
    ensures AfterFrame(buf + more) == AfterFrame(buf) + more
  {
    assert (buf + more)[..4] == buf[..4];
    assert forall i | 0 <= i < 4 :: (buf + more)[i] == buf[i];
    assert FromBigEndian(buf + more) == FromBigEndian(buf);
    assert FirstFrame(buf + more) == FirstFrame(buf);
  }

  lemma ParseStep(ok: Bytes -> bool, buf: Bytes)
    requires HasFrame(buf) && ok(FirstFrame(buf))
    ensures Parse(ok, buf) ==
            match Parse(ok, AfterFrame(buf))
            case Parsed(frames, rest) => Parsed([FirstFrame(buf)] + frames, rest)
            case Rejected(frames, bad) => Rejected([FirstFrame(buf)] + frames, bad)
  {
  }

  lemma {:induction false} ParseThenMore(ok: Bytes -> bool, buf: Bytes, more: Bytes)
    ensures Parse(ok, buf + more) ==
            match Parse(ok, buf)
            case Rejected(_, _) => Parse(ok, buf)
            case Parsed(frames, rest) => Feed(ok, Parsed(frames, rest), Some(more))
    decreases |buf|
  {
    if !HasFrame(buf) {
      assert [] + Parse(ok, buf + more).frames == Parse(ok, buf + more).frames;
    } else {
      FrameSurvivesMoreBytes(buf, more);
      if ok(FirstFrame(buf)) {
        ParseThenMore(ok, AfterFrame(buf), more);
        ParseStep(ok, buf);
        ParseStep(ok, buf + more);
        var tail := Parse(ok, AfterFrame(buf));
        if tail.Parsed? {
          hide HasFrame;
          hide FirstFrame;
          hide AfterFrame;
          PrependAssociates(ok, FirstFrame(buf), tail, more);
        }
      }
    }
  }

  lemma PrependAssociates(ok: Bytes -> bool, frame: Bytes, p: Parsed, more: Bytes)
    requires p.Parsed?
    ensures match (Feed(ok, p, Some(more)), Feed(ok, Parsed([frame] + p.frames, p.rest), Some(more)))
            case (Parsed(f, r), q) => q == Parsed([frame] + f, r)
            case (Rejected(f, b), q) => q == Rejected([frame] + f, b)
  {
    var tail := Parse(ok, p.rest + more);
    assert [frame] + p.frames + tail.frames == [frame] + (p.frames + tail.frames);
  }

  lemma {:induction false} FeedFromPartial(ok: Bytes -> bool, buf: Bytes, chunks: seq<Option<Bytes>>)
    ensures FeedAll(ok, Parse(ok, buf), chunks) == Parse(ok, buf + Flatten(chunks))
    decreases |chunks|
  {
    hide Parse;
    if chunks == [] {
      assert buf + [] == buf;
    } else {
      var bytes := if chunks[0].Some? then chunks[0].value else [];
      ParseThenMore(ok, buf, bytes);
      if chunks[0].None? {
        assert buf + [] == buf;
      }
      FeedFromPartial(ok, buf + bytes, chunks[1..]);
      assert buf + bytes + Flatten(chunks[1..]) == buf + Flatten(chunks);
    }
  }

  /** For every way of cutting a byte stream into chunks, with any failed reads among them, the frames
      emitted, the bytes left over, and the first rejected frame are the same: those of the stream
      parsed in one piece. */
  lemma ChunkingDoesNotMatter(ok: Bytes -> bool, chunks: seq<Option<Bytes>>)
    ensures FeedAll(ok, Parsed([], []), chunks) == Parse(ok, Flatten(chunks))
  {
    FeedFromPartial(ok, [], chunks);
    assert [] + Flatten(chunks) == Flatten(chunks);
  }

  // ---------------------------------------------------------------- the parser inverts the writer

  lemma FrameReadsBack(frame: Bytes, more: Bytes)
    requires |frame| < U32
    ensures var buf := WriteFrame(frame) + more;
            HasFrame(buf) && FirstFrame(buf) == frame && AfterFrame(buf) == more
  {
    var buf := WriteFrame(frame) + more;
    BigEndianRoundTrip(|frame|, frame + more);
    assert buf == BigEndian(|frame|) + (frame + more);
    assert buf[4..] == frame + more;
  }

  /** A frame of 2^32 bytes or more is read back short. */
  lemma LongFrameReadsShort(frame: Bytes, more: Bytes)
    requires |frame| >= U32
    ensures var buf := WriteFrame(frame) + more;
            HasFrame(buf) && FirstFrame(buf) == frame[..|frame| % U32] && FirstFrame(buf) != frame
  {
    var buf := WriteFrame(frame) + more;
    var n := |frame| % U32;
    BigEndianRoundTrip(n, frame + more);
    assert buf == BigEndian(n) + (frame + more);
    assert buf[4..][..n] == frame[..n];
  }

  predicate FitsHeaders(frames: seq<Bytes>) {
    forall f <- frames :: |f| < U32
  }

  /** Reading a frame that fits its header, and then the rest. */
  lemma FirstFrameRead(ok: Bytes -> bool, frame: Bytes, more: Bytes)
    requires |frame| < U32
    ensures var p := Parse(ok, more);
            Parse(ok, WriteFrame(frame) + more) ==
              if !ok(frame) then Rejected([], frame)
              else if p.Parsed? then Parsed([frame] + p.frames, p.rest) else Rejected([frame] + p.frames, p.bad)
  {
    FrameReadsBack(frame, more);
    if ok(frame) {
      ParseStep(ok, WriteFrame(frame) + more);
    }
  }

  lemma LongFirstFrame(ok: Bytes -> bool, frame: Bytes, more: Bytes)
    requires |frame| >= U32
    ensures var p := Parse(ok, WriteFrame(frame) + more);
            p.Rejected? || (|p.frames| > 0 && p.frames[0] != frame)
  {
    LongFrameReadsShort(frame, more);
    if ok(FirstFrame(WriteFrame(frame) + more)) {
      ParseStep(ok, WriteFrame(frame) + more);
    }
  }

  /** The server reads back exactly the frames the client wrote, with nothing left over, if and only
      if every frame decodes and every frame's length fits its header. */
  lemma {:induction false} ParserInvertsWriter(ok: Bytes -> bool, frames: seq<Bytes>)
    ensures Parse(ok, WriteFrames(frames)) == Parsed(frames, []) <==>
            FitsHeaders(frames) && forall f <- frames :: ok(f)
  {
    if frames == [] {
    } else {
      var first, more := frames[0], WriteFrames(frames[1..]);
      assert WriteFrames(frames) == WriteFrame(first) + more;
      assert frames == [first] + frames[1..];
      if |first| < U32 {
        FirstFrameRead(ok, first, more);
        ParserInvertsWriter(ok, frames[1..]);
        hide Parse;
        hide WriteFrame;
        var tail := Parse(ok, more);
        if tail.Parsed? {
          assert ([first] + tail.frames)[1..] == tail.frames;
        }
      } else {
        LongFirstFrame(ok, first, more);
      }
    }
  }

  /** If frame `i` is the first that does not decode, the server reports exactly that, having read the
      frames before it. */
  lemma {:induction false} FirstBadFrameIsRejected(ok: Bytes -> bool, frames: seq<Bytes>, i: nat)
    requires FitsHeaders(frames) && i < |frames|
    requires !ok(frames[i]) && forall j | 0 <= j < i :: ok(frames[j])
    ensures Parse(ok, WriteFrames(frames)) == Rejected(frames[..i], frames[i])
  {
    FrameReadsBack(frames[0], WriteFrames(frames[1..]));
    if i > 0 {
      FirstBadFrameIsRejected(ok, frames[1..], i - 1);
      assert frames[..i] == [frames[0]] + frames[1..][..i - 1];
    }
  }

  // ---------------------------------------------------------------- the two loops

  /** The client's framing loop. */
  method WriteFramedData(frames: seq<Bytes>) returns (framedData: Bytes)
    ensures framedData == WriteFrames(frames)
  {
    framedData := [];
    var i := 0;
    while i < |frames|
      invariant i <= |frames|
      invariant framedData + WriteFrames(frames[i..]) == WriteFrames(frames)
    {
      var size := |frames[i]| % U32;
      assert frames[i..][1..] == frames[i + 1..];
      assert WriteFrames(frames[i..]) == BigEndian(size) + frames[i] + WriteFrames(frames[i + 1..]);
      framedData := framedData + BigEndian(size);
      framedData := framedData + frames[i];
      i := i + 1;
    }
  }

  lemma TakeFrame(ok: Bytes -> bool, list: seq<Bytes>, buf: Bytes)
    requires HasFrame(buf)
    ensures !ok(FirstFrame(buf)) ==> Onto(list, Parse(ok, buf)).Rejected?
    ensures ok(FirstFrame(buf)) ==>
              Onto(list, Parse(ok, buf)) == Onto(list + [FirstFrame(buf)], Parse(ok, AfterFrame(buf)))
  {
    if ok(FirstFrame(buf)) {
      ParseStep(ok, buf);
      var tail := Parse(ok, AfterFrame(buf));
      assert list + ([FirstFrame(buf)] + tail.frames) == list + [FirstFrame(buf)] + tail.frames;
    }
  }

  lemma NoFrameLeft(ok: Bytes -> bool, list: seq<Bytes>, buf: Bytes)
    requires !HasFrame(buf)
    ensures Onto(list, Parse(ok, buf)) == Parsed(list, buf)
  {
    assert list + [] == list;
  }

  /** The server's handler: None is the request's failure, on a frame that does not decode or when no
      frame arrived at all. Bytes left in the buffer at the end are ignored. */
  method ReadFramedData(ok: Bytes -> bool, chunks: seq<Option<Bytes>>) returns (list: Option<seq<Bytes>>)
    ensures match Parse(ok, Flatten(chunks))
            case Parsed(frames, _) => list == if frames == [] then None else Some(frames)
            case Rejected(_, _) => list == None
  {
    var collabParamsList: seq<Bytes> := [];
    var payloadBuffer: Bytes := [];
    ChunkingDoesNotMatter(ok, chunks);
    hide Parse; hide FromBigEndian; hide Flatten;
    var i := 0;
    while i < |chunks|
      invariant i <= |chunks|
      invariant FeedAll(ok, Parsed(collabParamsList, payloadBuffer), chunks[i..]) == Parse(ok, Flatten(chunks))
    {
      var item := chunks[i];
      ghost var rest := chunks[i + 1..];
      assert chunks[i..][0] == item && chunks[i..][1..] == rest;
      ghost var next := Feed(ok, Parsed(collabParamsList, payloadBuffer), item);
      if item.Some? {
        payloadBuffer := payloadBuffer + item.value;
        hide Onto; hide FeedAll;
        while |payloadBuffer| >= 4
          invariant next == Onto(collabParamsList, Parse(ok, payloadBuffer))
          invariant FeedAll(ok, next, rest) == Parse(ok, Flatten(chunks))
          decreases |payloadBuffer|
        {
          var size := FromBigEndian(payloadBuffer);
          if |payloadBuffer| < 4 + size {
            break;
          }
          var data := payloadBuffer[4..4 + size];
          TakeFrame(ok, collabParamsList, payloadBuffer);
          if !ok(data) {
            RejectionStays(ok, next, rest);
            return None;
          }
          collabParamsList := collabParamsList + [data];
          payloadBuffer := payloadBuffer[4 + size..];
        }
        NoFrameLeft(ok, collabParamsList, payloadBuffer);
      }
      i := i + 1;
    }
    list := if collabParamsList == [] then None else Some(collabParamsList);
  }

  lemma {:induction false} RejectionStays(ok: Bytes -> bool, p: Parsed, chunks: seq<Option<Bytes>>)
    requires p.Rejected?
    ensures FeedAll(ok, p, chunks) == p
    decreases |chunks|
  {
    if chunks != [] {
      RejectionStays(ok, p, chunks[1..]);
    }
  }
}
