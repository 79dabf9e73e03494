/** The tagged message codec of the realtime protocol: messages are appended to an encoder as
    varints and length-prefixed buffers, and read back one by one from a cursor. */
module MessageCodec {
  import opened Common

  datatype ReadError = EndOfBuffer | UnexpectedValue | VarIntSizeExceeded

  /** The outcome of reading one item: its value and the bytes after it, or an error. */
  datatype Read<+T> = Got(value: T, rest: Bytes) | Stop(error: ReadError)

  const MSG_SYNC: Byte := 0
  const MSG_AWARENESS: Byte := 1
  const MSG_AUTH: Byte := 2
  const MSG_CUSTOM: Byte := 3
  const PERMISSION_DENIED: Byte := 0
  const PERMISSION_GRANTED: Byte := 1
  const MSG_CUSTOM_START_SYNC: Byte := 0
  const MSG_SYNC_STEP_1: Byte := 0
  const MSG_SYNC_STEP_2: Byte := 1
  const MSG_SYNC_UPDATE: Byte := 2
  /** bincode writes an i64 as eight bytes. */
  const META_SIZE: nat := 8

  datatype SyncMessage = SyncStep1(sv: Bytes) | SyncStep2(diff: Bytes) | Update(update: Bytes)

  datatype Message =
    | Sync(msg: SyncMessage)
    | Auth(reason: Option<Bytes>)
    | Awareness(clients: Bytes)
    | Custom(meta: Bytes)

  /** What the yrs and collab libraries say about the inner bytes of a message: None when they
      decode, and the decoder's error when they do not. */
  datatype Library = Library(stateVector: Bytes -> Option<ReadError>, awareness: Bytes -> Option<ReadError>)

  // ---------------------------------------------------------------- varints and buffers

  function VarInt(n: nat): (r: Bytes)
    ensures |r| >= 1
  {
    if n < 128 then [n] else [128 + n % 128] + VarInt(n / 128)
  }

  function ReadDigits(buf: Bytes): (r: Read<nat>)
    ensures r.Got? ==> |r.rest| < |buf|
  {
    if buf == [] then Stop(EndOfBuffer)
    else if buf[0] < 128 then Got(buf[0], buf[1..])
    else
      match ReadDigits(buf[1..])
      case Stop(e) => Stop(e)
      case Got(n, rest) => Got(buf[0] - 128 + 128 * n, rest)
  }

  /** A varint read into a type that holds the values below `limit`. */
  function ReadVar(buf: Bytes, limit: nat): (r: Read<nat>)
    ensures r.Got? ==> r.value < limit && |r.rest| < |buf|
  {
    match ReadDigits(buf)
    case Stop(e) => Stop(e)
    case Got(n, rest) => if n < limit then Got(n, rest) else Stop(VarIntSizeExceeded)
  }

  function Buffer(b: Bytes): Bytes {
    VarInt(|b|) + b
  }

  function ReadBuffer(buf: Bytes): (r: Read<Bytes>)
    ensures r.Got? ==> |r.rest| < |buf|
  {
    match ReadVar(buf, U32)
    case Stop(e) => Stop(e)
    case Got(n, rest) => if n <= |rest| then Got(rest[..n], rest[n..]) else Stop(EndOfBuffer)
  }

  // ---------------------------------------------------------------- messages

  function SyncTag(m: SyncMessage): Byte {
    match m
    case SyncStep1(_) => MSG_SYNC_STEP_1
    case SyncStep2(_) => MSG_SYNC_STEP_2
    case Update(_) => MSG_SYNC_UPDATE
  }

  function SyncBytes(m: SyncMessage): Bytes {
    match m
    case SyncStep1(sv) => sv
    case SyncStep2(u) => u
    case Update(u) => u
  }

  /** Tags are written as varints; every tag is below 128, so it is one byte. */
  function EncodeSync(m: SyncMessage): Bytes {
    [SyncTag(m)] + Buffer(SyncBytes(m))
  }

  function EncodeAuth(reason: Option<Bytes>): Bytes {
    match reason
    case Some(b) => [PERMISSION_DENIED] + Buffer(b)
    case None => [PERMISSION_GRANTED]
  }

  function EncodeCustom(meta: Bytes): Bytes {
    [MSG_CUSTOM_START_SYNC] + Buffer(meta)
  }

  function Tag(m: Message): Byte {
    match m
    case Sync(_) => MSG_SYNC
    case Auth(_) => MSG_AUTH
    case Awareness(_) => MSG_AWARENESS
    case Custom(_) => MSG_CUSTOM
  }

  function EncodeBody(m: Message): Bytes {
    match m
    case Sync(s) => EncodeSync(s)
    case Auth(reason) => EncodeAuth(reason)
    case Awareness(u) => Buffer(u)
    case Custom(meta) => EncodeCustom(meta)
  }

  function Encode(m: Message): Bytes {
    [Tag(m)] + EncodeBody(m)
  }

  function DecodeSync(lib: Library, buf: Bytes): (r: Read<SyncMessage>)
    ensures r.Got? ==> |r.rest| < |buf|
  {
    match ReadVar(buf, U8)
    case Stop(e) => Stop(e)
    case Got(tag, rest) =>
      if tag > MSG_SYNC_UPDATE then Stop(UnexpectedValue)
      else
        match ReadBuffer(rest)
        case Stop(e) => Stop(e)
        case Got(b, rest') =>
          if tag == MSG_SYNC_STEP_1 then
            match lib.stateVector(b)
            case Some(e) => Stop(e)
            case None => Got(SyncStep1(b), rest')
          else if tag == MSG_SYNC_STEP_2 then Got(SyncStep2(b), rest')
          else Got(Update(b), rest')
  }

  function DecodeCustom(buf: Bytes): (r: Read<Bytes>)
    ensures r.Got? ==> |r.rest| < |buf|
  {
    match ReadVar(buf, U8)
    case Stop(e) => Stop(e)
    case Got(tag, rest) =>
      if tag != MSG_CUSTOM_START_SYNC then Stop(UnexpectedValue)
      else
        match ReadBuffer(rest)
        case Stop(e) => Stop(e)
        // bincode needs all eight bytes and ignores what follows them
        case Got(b, rest') => if |b| < META_SIZE then Stop(UnexpectedValue) else Got(b[..META_SIZE], rest')
  }

  function DecodeAuth(buf: Bytes): (r: Read<Option<Bytes>>)
    ensures r.Got? ==> |r.rest| < |buf|
  {
    match ReadVar(buf, U8)
    case Stop(e) => Stop(e)
    case Got(flag, rest) =>
      if flag == PERMISSION_DENIED then
        match ReadBuffer(rest)
        case Stop(e) => Stop(e)
        case Got(b, rest') => Got(Some(b), rest')
      else Got(None, rest)
  }

  /** The body of a message once its tag is known. */
  function DecodeBody(lib: Library, tag: nat, buf: Bytes): (r: Read<Message>)
    ensures r.Got? ==> |r.rest| <= |buf|
  {
    if tag == MSG_SYNC then
      match DecodeSync(lib, buf)
      case Stop(e) => Stop(e)
      case Got(s, rest) => Got(Sync(s), rest)
    else if tag == MSG_AWARENESS then
      match ReadBuffer(buf)
      case Stop(e) => Stop(e)
      case Got(b, rest) =>
        (match lib.awareness(b)
         case Some(e) => Stop(e)
         case None => Got(Awareness(b), rest))
    else if tag == MSG_AUTH then
      match DecodeAuth(buf)
      case Stop(e) => Stop(e)
      case Got(reason, rest) => Got(Auth(reason), rest)
    else if tag == MSG_CUSTOM then
      match DecodeCustom(buf)
      case Stop(e) => Stop(e)
      case Got(meta, rest) => Got(Custom(meta), rest)
    else Stop(UnexpectedValue)
  }

  function Decode(lib: Library, buf: Bytes): (r: Read<Message>)
    ensures r.Got? ==> |r.rest| < |buf|
  {
    match ReadVar(buf, U8)
    case Stop(e) => Stop(e)
    case Got(tag, rest) => DecodeBody(lib, tag, rest)
  }

  /** How a stream of messages ends for its reader: no more messages, or an item that fails. */
  datatype StreamEnd = Exhausted | Failed(error: ReadError)

  datatype Stream = Stream(messages: seq<Message>, end: StreamEnd)

  /** Everything MessageReader yields up to its first error. EndOfBuffer is not an error to it. */
  function ReadAll(lib: Library, buf: Bytes): Stream
    decreases |buf|
  {
    match Decode(lib, buf)
    case Stop(EndOfBuffer) => Stream([], Exhausted)
    case Stop(e) => Stream([], Failed(e))
    case Got(m, rest) =>
      var tail := ReadAll(lib, rest);
      Stream([m] + tail.messages, tail.end)
  }

  function EncodeAll(ms: seq<Message>): Bytes {
    if ms == [] then [] else Encode(ms[0]) + EncodeAll(ms[1..])
  }

  /** The messages the protocol can carry: buffers fit their u32 length, inner bytes decode. */
  predicate Encodable(lib: Library, m: Message) {
    match m
    case Sync(SyncStep1(sv)) => |sv| < U32 && lib.stateVector(sv) == None
    case Sync(SyncStep2(u)) => |u| < U32
    case Sync(Update(u)) => |u| < U32
    case Auth(Some(reason)) => |reason| < U32
    case Auth(None) => true
    case Awareness(u) => |u| < U32 && lib.awareness(u) == None
    case Custom(meta) => |meta| == META_SIZE
  }

  // ---------------------------------------------------------------- round trips

  lemma {:induction false} DigitsRoundTrip(n: nat, suffix: Bytes)
    ensures ReadDigits(VarInt(n) + suffix) == Got(n, suffix)
  {
    var buf := VarInt(n) + suffix;
    if n < 128 {
      assert buf[1..] == suffix;
    } else {
      DigitsRoundTrip(n / 128, suffix);
      assert buf[0] == 128 + n % 128;
      assert buf[1..] == VarInt(n / 128) + suffix;
    }
  }

  lemma {:induction false} DigitsCut(n: nat, k: nat)
    requires k < |VarInt(n)|
    ensures ReadDigits(VarInt(n)[..k]) == Stop(EndOfBuffer)
  {
    if n >= 128 && k > 0 {
      DigitsCut(n / 128, k - 1);
      assert VarInt(n)[..k][1..] == VarInt(n / 128)[..k - 1];
    }
  }

  lemma BufferRoundTrip(b: Bytes, suffix: Bytes)
    requires |b| < U32
    ensures ReadBuffer(Buffer(b) + suffix) == Got(b, suffix)
  {
    DigitsRoundTrip(|b|, b + suffix);
    assert Buffer(b) + suffix == VarInt(|b|) + (b + suffix);
    assert (b + suffix)[..|b|] == b && (b + suffix)[|b|..] == suffix;
  }

  lemma BufferCut(b: Bytes, k: nat)
    requires |b| < U32 && k < |Buffer(b)|
    ensures ReadBuffer(Buffer(b)[..k]) == Stop(EndOfBuffer)
  {
    var header := VarInt(|b|);
    if k < |header| {
      DigitsCut(|b|, k);
      assert Buffer(b)[..k] == header[..k];
    } else {
      DigitsRoundTrip(|b|, b[..k - |header|]);
      assert Buffer(b)[..k] == header + b[..k - |header|];
    }
  }

  /** A one-byte tag in front of anything. */
  lemma TagRoundTrip(tag: Byte, body: Bytes)
    requires tag < 128
    ensures ReadVar([tag] + body, U8) == Got(tag, body)
  {
    assert ([tag] + body)[1..] == body;
  }

  lemma SyncRoundTrip(lib: Library, m: SyncMessage, suffix: Bytes)
    requires Encodable(lib, Sync(m))
    ensures DecodeSync(lib, EncodeSync(m) + suffix) == Got(m, suffix)
  {
    var tag, b := SyncTag(m), SyncBytes(m);
    TagRoundTrip(tag, Buffer(b) + suffix);
    BufferRoundTrip(b, suffix);
    assert EncodeSync(m) + suffix == [tag] + (Buffer(b) + suffix);
  }

  lemma SyncCut(lib: Library, m: SyncMessage, k: nat)
    requires Encodable(lib, Sync(m)) && k < |EncodeSync(m)|
    ensures DecodeSync(lib, EncodeSync(m)[..k]) == Stop(EndOfBuffer)
  {
    var tag, b := SyncTag(m), SyncBytes(m);
    if k > 0 {
      TagRoundTrip(tag, Buffer(b)[..k - 1]);
      BufferCut(b, k - 1);
      assert EncodeSync(m)[..k] == [tag] + Buffer(b)[..k - 1];
    }
  }

  lemma AuthRoundTrip(reason: Option<Bytes>, suffix: Bytes)
    requires reason.Some? ==> |reason.value| < U32
    ensures DecodeAuth(EncodeAuth(reason) + suffix) == Got(reason, suffix)
  {
    match reason
    case Some(b) =>
      TagRoundTrip(PERMISSION_DENIED, Buffer(b) + suffix);
      BufferRoundTrip(b, suffix);
      assert EncodeAuth(reason) + suffix == [PERMISSION_DENIED] + (Buffer(b) + suffix);
    case None =>
      TagRoundTrip(PERMISSION_GRANTED, suffix);
  }

  lemma AuthCut(reason: Option<Bytes>, k: nat)
    requires reason.Some? ==> |reason.value| < U32
    requires k < |EncodeAuth(reason)|
    ensures DecodeAuth(EncodeAuth(reason)[..k]) == Stop(EndOfBuffer)
  {
    if k > 0 {
      var b := reason.value;
      TagRoundTrip(PERMISSION_DENIED, Buffer(b)[..k - 1]);
      BufferCut(b, k - 1);
      assert EncodeAuth(reason)[..k] == [PERMISSION_DENIED] + Buffer(b)[..k - 1];
    }
  }

  lemma CustomRoundTrip(meta: Bytes, suffix: Bytes)
    requires |meta| == META_SIZE
    ensures DecodeCustom(EncodeCustom(meta) + suffix) == Got(meta, suffix)
  {
    TagRoundTrip(MSG_CUSTOM_START_SYNC, Buffer(meta) + suffix);
    BufferRoundTrip(meta, suffix);
    assert meta[..META_SIZE] == meta;
    assert EncodeCustom(meta) + suffix == [MSG_CUSTOM_START_SYNC] + (Buffer(meta) + suffix);
  }

  lemma CustomCut(meta: Bytes, k: nat)
    requires |meta| == META_SIZE && k < |EncodeCustom(meta)|
    ensures DecodeCustom(EncodeCustom(meta)[..k]) == Stop(EndOfBuffer)
  {
    if k > 0 {
      TagRoundTrip(MSG_CUSTOM_START_SYNC, Buffer(meta)[..k - 1]);
      BufferCut(meta, k - 1);
      assert EncodeCustom(meta)[..k] == [MSG_CUSTOM_START_SYNC] + Buffer(meta)[..k - 1];
    }
  }

  lemma BodyRoundTrip(lib: Library, m: Message, suffix: Bytes)
    requires Encodable(lib, m)
    ensures DecodeBody(lib, Tag(m), EncodeBody(m) + suffix) == Got(m, suffix)
  {
    match m
    case Sync(s) => SyncRoundTrip(lib, s, suffix);
    case Auth(reason) => AuthRoundTrip(reason, suffix);
    case Awareness(u) => BufferRoundTrip(u, suffix);
    case Custom(meta) => CustomRoundTrip(meta, suffix);
  }

  lemma BodyCut(lib: Library, m: Message, k: nat)
    requires Encodable(lib, m) && k < |EncodeBody(m)|
    ensures DecodeBody(lib, Tag(m), EncodeBody(m)[..k]) == Stop(EndOfBuffer)
  {
    match m
    case Sync(s) => SyncCut(lib, s, k);
    case Auth(reason) => AuthCut(reason, k);
    case Awareness(u) => BufferCut(u, k);
    case Custom(meta) => CustomCut(meta, k);
  }

  /** Decoding inverts encoding, and leaves what follows the message untouched. */
  lemma MessageRoundTrip(lib: Library, m: Message, suffix: Bytes)
    requires Encodable(lib, m)
    ensures Decode(lib, Encode(m) + suffix) == Got(m, suffix)
  {
    hide EncodeBody; hide DecodeBody; hide ReadVar; hide Encodable;
    TagRoundTrip(Tag(m), EncodeBody(m) + suffix);
    BodyRoundTrip(lib, m, suffix);
    assert Encode(m) + suffix == [Tag(m)] + (EncodeBody(m) + suffix);
  }

  /** A message cut anywhere before its end reads as an exhausted buffer, never as another message. */
  lemma MessageCut(lib: Library, m: Message, k: nat)
    requires Encodable(lib, m) && k < |Encode(m)|
    ensures Decode(lib, Encode(m)[..k]) == Stop(EndOfBuffer)
  {
    if k > 0 {
      TagRoundTrip(Tag(m), EncodeBody(m)[..k - 1]);
      BodyCut(lib, m, k - 1);
      assert Encode(m)[..k] == [Tag(m)] + EncodeBody(m)[..k - 1];
    }
  }

  /** Reading the concatenated encodings of any messages yields those messages and then stops. */
  lemma {:induction false} StreamRoundTrip(lib: Library, ms: seq<Message>)
    requires forall m <- ms :: Encodable(lib, m)
    ensures ReadAll(lib, EncodeAll(ms)) == Stream(ms, Exhausted)
  {
    if ms == [] {
    } else {
      MessageRoundTrip(lib, ms[0], EncodeAll(ms[1..]));
      StreamRoundTrip(lib, ms[1..]);
    }
  }

  /** How many of the messages end at or before byte `k` of their stream. */
  function WholeBefore(ms: seq<Message>, k: nat): (n: nat)
    ensures n <= |ms|
  {
    if ms == [] || k < |Encode(ms[0])| then 0 else 1 + WholeBefore(ms[1..], k - |Encode(ms[0])|)
  }

  lemma {:induction false} WholeBeforeMeaning(ms: seq<Message>, k: nat)
    ensures var n := WholeBefore(ms, k);
            && |EncodeAll(ms[..n])| <= k
            && (n < |ms| ==> k < |EncodeAll(ms[..n + 1])|)
  {
    if ms == [] {
    } else if k < |Encode(ms[0])| {
      assert ms[..1] == [ms[0]];
    } else {
      var n := WholeBefore(ms[1..], k - |Encode(ms[0])|);
      WholeBeforeMeaning(ms[1..], k - |Encode(ms[0])|);
      assert ms[..n + 1][1..] == ms[1..][..n];
      if n + 1 < |ms| {
        assert ms[..n + 2][1..] == ms[1..][..n + 1];
      }
    }
  }

  lemma ReadAllStep(lib: Library, m: Message, tail: Bytes)
    requires Encodable(lib, m)
    ensures ReadAll(lib, Encode(m) + tail)
         == Stream([m] + ReadAll(lib, tail).messages, ReadAll(lib, tail).end)
  {
    MessageRoundTrip(lib, m, tail);
  }

  lemma ReadAllCut(lib: Library, m: Message, k: nat)
    requires Encodable(lib, m) && k < |Encode(m)|
    ensures ReadAll(lib, Encode(m)[..k]) == Stream([], Exhausted)
  {
    MessageCut(lib, m, k);
  }

  /** A stream cut at any byte yields exactly the messages that end before the cut, without an error. */
  lemma {:induction false} StreamCut(lib: Library, ms: seq<Message>, k: nat)
    requires forall m <- ms :: Encodable(lib, m)
    requires k <= |EncodeAll(ms)|
    ensures var n := WholeBefore(ms, k);
            && ReadAll(lib, EncodeAll(ms)[..k]) == Stream(ms[..n], Exhausted)
            && |EncodeAll(ms[..n])| <= k && (n < |ms| ==> k < |EncodeAll(ms[..n + 1])|)
    decreases |ms|, 1
  {
    WholeBeforeMeaning(ms, k);
    if ms == [] {
      assert EncodeAll(ms)[..k] == [];
    } else {
      var first, rest := Encode(ms[0]), EncodeAll(ms[1..]);
      if k < |first| {
        ReadAllCut(lib, ms[0], k);
        assert EncodeAll(ms)[..k] == first[..k];
      } else {
        StreamCutTail(lib, ms, k);
      }
    }
  }

  lemma {:induction false} StreamCutTail(lib: Library, ms: seq<Message>, k: nat)
    requires forall m <- ms :: Encodable(lib, m)
    requires ms != [] && |Encode(ms[0])| <= k <= |EncodeAll(ms)|
    ensures ReadAll(lib, EncodeAll(ms)[..k]) == Stream(ms[..WholeBefore(ms, k)], Exhausted)
    decreases |ms|, 0
  {
    hide Encode; hide ReadAll; hide Encodable;
    var first, rest := Encode(ms[0]), EncodeAll(ms[1..]);
    var k' := k - |first|;
    assert EncodeAll(ms)[..k] == first + rest[..k'];
    ReadAllStep(lib, ms[0], rest[..k']);
    StreamCut(lib, ms[1..], k');
    assert ms[..WholeBefore(ms, k)] == [ms[0]] + ms[1..][..WholeBefore(ms[1..], k')];
  }

  // ---------------------------------------------------------------- the wire format

  /** Seven bits to a byte, the lowest first, the high bit set on all but the last. */
  lemma VarIntFormat(n: nat)
    ensures n < 0x80 ==> VarInt(n) == [n]
    ensures 0x80 <= n < 0x4000 ==> VarInt(n) == [0x80 + n % 0x80, n / 0x80]
    ensures 0x4000 <= n < 0x20_0000 ==> VarInt(n) == [0x80 + n % 0x80, 0x80 + n / 0x80 % 0x80, n / 0x4000]
  {
    if n >= 0x80 {
      assert VarInt(n) == [0x80 + n % 0x80] + VarInt(n / 0x80);
      assert n / 0x80 / 0x80 == n / 0x4000;
      if 0x4000 <= n < 0x20_0000 {
        assert VarInt(n / 0x80) == [0x80 + n / 0x80 % 0x80] + VarInt(n / 0x80 / 0x80);
        assert VarInt(n / 0x4000) == [n / 0x4000];
      } else if n < 0x4000 {
        assert VarInt(n / 0x80) == [n / 0x80];
      }
    }
  }

  /** The bytes of each kind of message. */
  lemma WireFormat(b: Bytes)
    ensures Encode(Sync(SyncStep1(b))) == [0, 0] + VarInt(|b|) + b
    ensures Encode(Sync(SyncStep2(b))) == [0, 1] + VarInt(|b|) + b
    ensures Encode(Sync(Update(b))) == [0, 2] + VarInt(|b|) + b
    ensures Encode(Awareness(b)) == [1] + VarInt(|b|) + b
    ensures Encode(Auth(Some(b))) == [2, 0] + VarInt(|b|) + b && Encode(Auth(None)) == [2, 1]
    ensures Encode(Custom(b)) == [3, 0] + VarInt(|b|) + b
  {
    hide VarInt;
    Front(1, VarInt(|b|), b);
    FrontTwo(0, 0, VarInt(|b|), b);
    FrontTwo(0, 1, VarInt(|b|), b);
    FrontTwo(0, 2, VarInt(|b|), b);
    FrontTwo(2, 0, VarInt(|b|), b);
    FrontTwo(3, 0, VarInt(|b|), b);
  }

  lemma Front(x: Byte, a: Bytes, b: Bytes)
    ensures [x] + (a + b) == [x] + a + b
  {
  }

  lemma FrontTwo(x: Byte, y: Byte, a: Bytes, b: Bytes)
    ensures [x] + ([y] + (a + b)) == [x, y] + a + b
    ensures [x] + ([y] + a + b) == [x, y] + a + b
  {
  }

  /** What is refused by its first bytes: an unknown kind of message, of sync message or of custom message, and a
      tag that does not fit its byte. Any flag of an auth message but "denied" grants. */
  lemma UnknownTags(lib: Library, tag: nat, rest: Bytes)
    ensures tag >= 256 ==> Decode(lib, VarInt(tag) + rest) == Stop(VarIntSizeExceeded)
    ensures 3 < tag < 256 ==> Decode(lib, VarInt(tag) + rest) == Stop(UnexpectedValue)
    ensures tag >= 256 ==> Decode(lib, [0] + (VarInt(tag) + rest)) == Stop(VarIntSizeExceeded)
    ensures 2 < tag < 256 ==> Decode(lib, [0] + (VarInt(tag) + rest)) == Stop(UnexpectedValue)
    ensures 0 < tag < 256 ==> Decode(lib, [2] + (VarInt(tag) + rest)) == Got(Auth(None), rest)
    ensures 0 < tag < 256 ==> Decode(lib, [3] + (VarInt(tag) + rest)) == Stop(UnexpectedValue)
  {
    var body := VarInt(tag) + rest;
    DigitsRoundTrip(tag, rest);
    assert ReadVar(body, U8) == if tag < 256 then Got(tag, rest) else Stop(VarIntSizeExceeded);
    TagRoundTrip(0, body);
    TagRoundTrip(2, body);
    TagRoundTrip(3, body);
    hide ReadVar; hide VarInt; hide ReadDigits; hide ReadBuffer;
  }

  /** What is refused by its buffer: one that is longer than the input or than a u32, and one the library does
      not decode, with the library's own error. */
  lemma BadBuffers(lib: Library, n: nat, b: Bytes, rest: Bytes)
    requires |b| < U32
    ensures |b| < n < U32 ==> Decode(lib, [1] + (VarInt(n) + b)) == Stop(EndOfBuffer)
    ensures n >= U32 ==> Decode(lib, [1] + (VarInt(n) + b)) == Stop(VarIntSizeExceeded)
    ensures lib.awareness(b).Some? ==> Decode(lib, [1] + (Buffer(b) + rest)) == Stop(lib.awareness(b).value)
    ensures lib.stateVector(b).Some? ==>
              Decode(lib, [0] + ([0] + (Buffer(b) + rest))) == Stop(lib.stateVector(b).value)
  {
    DigitsRoundTrip(n, b);
    BufferRoundTrip(b, rest);
    assert |b| < n < U32 ==> ReadBuffer(VarInt(n) + b) == Stop(EndOfBuffer);
    assert n >= U32 ==> ReadBuffer(VarInt(n) + b) == Stop(VarIntSizeExceeded);
    TagRoundTrip(1, VarInt(n) + b);
    TagRoundTrip(1, Buffer(b) + rest);
    TagRoundTrip(0, Buffer(b) + rest);
    TagRoundTrip(0, [0] + (Buffer(b) + rest));
    hide ReadVar; hide VarInt; hide Buffer; hide ReadDigits; hide ReadBuffer;
  }

  /** Custom metadata of fewer than eight bytes is refused, and of more the first eight are read. */
  lemma MetadataLength(lib: Library, b: Bytes, rest: Bytes)
    requires |b| < U32
    ensures Decode(lib, [3] + ([0] + (Buffer(b) + rest))) ==
            if |b| < 8 then Stop(UnexpectedValue) else Got(Custom(b[..8]), rest)
  {
    BufferRoundTrip(b, rest);
    TagRoundTrip(0, Buffer(b) + rest);
    TagRoundTrip(3, [0] + (Buffer(b) + rest));
    hide ReadVar; hide Buffer; hide ReadBuffer;
  }

  /** The broadcaster writes its update messages without building a Message; the bytes are the same. */
  lemma GenUpdateMessageIsEncode(update: Bytes)
    ensures VarInt(MSG_SYNC) + VarInt(MSG_SYNC_UPDATE) + Buffer(update) == Encode(Sync(Update(update)))
  {
    assert VarInt(MSG_SYNC) == [MSG_SYNC] && VarInt(MSG_SYNC_UPDATE) == [MSG_SYNC_UPDATE];
    assert [MSG_SYNC] + [MSG_SYNC_UPDATE] + Buffer(update) == [MSG_SYNC] + ([MSG_SYNC_UPDATE] + Buffer(update));
  }

  // ---------------------------------------------------------------- the encoder and the reader

  class Encoder {
    var buf: Bytes

    constructor ()
      ensures buf == []
    {
      buf := [];
    }

    method WriteVar(n: nat)
      modifies this
      ensures buf == old(buf) + VarInt(n)
    {
      var rest := n;
      while rest >= 128
        invariant buf + VarInt(rest) == old(buf) + VarInt(n)
      {
        assert VarInt(rest) == [128 + rest % 128] + VarInt(rest / 128);
        buf := buf + [128 + rest % 128];
        rest := rest / 128;
      }
      buf := buf + [rest];
    }

    method WriteTag(tag: Byte)
      requires tag < 128
      modifies this
      ensures buf == old(buf) + [tag]
    {
      WriteVar(tag);
    }

    method WriteBuf(b: Bytes)
      modifies this
      ensures buf == old(buf) + Buffer(b)
    {
      WriteVar(|b|);
      buf := buf + b;
    }

    method WriteSync(m: SyncMessage)
      modifies this
      ensures buf == old(buf) + EncodeSync(m)
    {
      match m {
        case SyncStep1(sv) =>
          WriteTag(MSG_SYNC_STEP_1);
          WriteBuf(sv);
        case SyncStep2(u) =>
          WriteTag(MSG_SYNC_STEP_2);
          WriteBuf(u);
        case Update(u) =>
          WriteTag(MSG_SYNC_UPDATE);
          WriteBuf(u);
      }
    }

    method WriteCustom(meta: Bytes)
      modifies this
      ensures buf == old(buf) + EncodeCustom(meta)
    {
      WriteTag(MSG_CUSTOM_START_SYNC);
      WriteBuf(meta);
    }

    method WriteAuth(reason: Option<Bytes>)
      modifies this
      ensures buf == old(buf) + EncodeAuth(reason)
    {
      if reason.Some? {
        WriteTag(PERMISSION_DENIED);
        WriteBuf(reason.value);
      } else {
        WriteTag(PERMISSION_GRANTED);
      }
    }

    method WriteMessage(m: Message)
      modifies this
      ensures buf == old(buf) + Encode(m)
    {
      hide EncodeSync; hide EncodeAuth; hide EncodeCustom; hide Buffer;
      match m {
        case Sync(s) =>
          WriteTag(MSG_SYNC);
          WriteSync(s);
        case Auth(reason) =>
          WriteTag(MSG_AUTH);
          WriteAuth(reason);
        case Awareness(u) =>
          WriteTag(MSG_AWARENESS);
          WriteBuf(u);
        case Custom(meta) =>
          WriteTag(MSG_CUSTOM);
          WriteCustom(meta);
      }
    }
  }

  /** A cursor over a payload, and the MessageReader iterator on top of it. */
  class MessageReader {
    const lib: Library
    const payload: Bytes
    var pos: nat

    ghost predicate Valid()
      reads this
    {
      pos <= |payload|
    }

    /** The bytes not read yet. */
    function Rest(): Bytes
      requires Valid()
      reads this
    {
      payload[pos..]
    }

    constructor (lib: Library, payload: Bytes)
      ensures Valid() && Rest() == payload && this.lib == lib && this.payload == payload
    {
      this.lib, this.payload, pos := lib, payload, 0;
    }

    method TakeVar(limit: nat) returns (r: Result<nat, ReadError>)
      requires Valid()
      modifies this
      ensures Valid() && pos >= old(pos)
      ensures match ReadVar(old(Rest()), limit)
              case Got(n, rest) => r == Success(n) && Rest() == rest
              case Stop(e) => r == Failure(e)
    {
      hide ReadDigits; hide ReadsOn;
      var num: nat, scale: nat := 0, 1;
      ghost var start := Rest();
      ReadsOnStart(start);
      while pos < |payload| && payload[pos] >= 128
        invariant Valid() && pos >= old(pos)
        invariant ReadsOn(start, Rest(), num, scale)
        decreases |payload| - pos
      {
        ReadsOnStep(start, Rest(), num, scale);
        assert Rest()[1..] == payload[pos + 1..];
        num, scale := num + scale * (payload[pos] - 128), scale * 128;
        pos := pos + 1;
      }
      ReadsOnEnd(start, Rest(), num, scale);
      if pos == |payload| {
        return Failure(EndOfBuffer);
      }
      assert Rest()[1..] == payload[pos + 1..];
      num := num + scale * payload[pos];
      pos := pos + 1;
      r := if num < limit then Success(num) else Failure(VarIntSizeExceeded);
    }

    method TakeBuf() returns (r: Result<Bytes, ReadError>)
      requires Valid()
      modifies this
      ensures Valid() && pos >= old(pos)
      ensures match ReadBuffer(old(Rest()))
              case Got(b, rest) => r == Success(b) && Rest() == rest
              case Stop(e) => r == Failure(e)
    {
      var n := TakeVar(U32);
      if n.Failure? {
        return Failure(n.error);
      }
      if |payload| - pos < n.value {
        return Failure(EndOfBuffer);
      }
      assert Rest()[..n.value] == payload[pos..pos + n.value];
      r := Success(payload[pos..pos + n.value]);
      pos := pos + n.value;
    }

    method TakeSync() returns (r: Result<SyncMessage, ReadError>)
      requires Valid()
      modifies this
      ensures Valid() && pos >= old(pos)
      ensures match DecodeSync(lib, old(Rest()))
              case Got(m, rest) => r == Success(m) && Rest() == rest
              case Stop(e) => r == Failure(e)
    {
      var tag := TakeVar(U8);
      if tag.Failure? {
        return Failure(tag.error);
      }
      if tag.value > MSG_SYNC_UPDATE {
        return Failure(UnexpectedValue);
      }
      var b := TakeBuf();
      if b.Failure? {
        return Failure(b.error);
      }
      if tag.value == MSG_SYNC_STEP_1 {
        var bad := lib.stateVector(b.value);
        return if bad.Some? then Failure(bad.value) else Success(SyncStep1(b.value));
      } else if tag.value == MSG_SYNC_STEP_2 {
        return Success(SyncStep2(b.value));
      } else {
        return Success(Update(b.value));
      }
    }

    method TakeMessage() returns (r: Result<Message, ReadError>)
      requires Valid()
      modifies this
      ensures Valid() && pos >= old(pos)
      ensures match Decode(lib, old(Rest()))
              case Got(m, rest) => r == Success(m) && Rest() == rest
              case Stop(e) => r == Failure(e)
    {
      var tag := TakeVar(U8);
      if tag.Failure? {
        return Failure(tag.error);
      }
      if tag.value == MSG_SYNC {
        var s := TakeSync();
        return if s.Success? then Success(Sync(s.value)) else Failure(s.error);
      } else if tag.value == MSG_AWARENESS {
        var b := TakeBuf();
        if b.Failure? {
          return Failure(b.error);
        }
        var bad := lib.awareness(b.value);
        return if bad.Some? then Failure(bad.value) else Success(Awareness(b.value));
      } else if tag.value == MSG_AUTH {
        var flag := TakeVar(U8);
        if flag.Failure? {
          return Failure(flag.error);
        }
        if flag.value != PERMISSION_DENIED {
          return Success(Auth(None));
        }
        var reason := TakeBuf();
        return if reason.Success? then Success(Auth(Some(reason.value))) else Failure(reason.error);
      } else if tag.value == MSG_CUSTOM {
        var subtag := TakeVar(U8);
        if subtag.Failure? {
          return Failure(subtag.error);
        }
        if subtag.value != MSG_CUSTOM_START_SYNC {
          return Failure(UnexpectedValue);
        }
        var b := TakeBuf();
        if b.Failure? {
          return Failure(b.error);
        }
        return if |b.value| < META_SIZE then Failure(UnexpectedValue) else Success(Custom(b.value[..META_SIZE]));
      } else {
        return Failure(UnexpectedValue);
      }
    }

    /** The iterator step: None at the end of the buffer, and every other error handed to the caller. */
    method Next() returns (item: Option<Result<Message, ReadError>>)
      requires Valid()
      modifies this
      ensures Valid() && pos >= old(pos)
      ensures var before := ReadAll(lib, old(Rest()));
              match item
              case None => before == Stream([], Exhausted)
              case Some(Failure(e)) => before == Stream([], Failed(e))
              case Some(Success(m)) =>
                && |Rest()| < |old(Rest())|
                && var after := ReadAll(lib, Rest());
                   before == Stream([m] + after.messages, after.end)
    {
      var r := TakeMessage();
      if r.Success? {
        return Some(r);
      } else if r.error == EndOfBuffer {
        return None;
      } else {
        return Some(r);
      }
    }
  }

  /** The digits of `start` are `num` and then, `scale` times as much, those of `rest`. */
  ghost predicate ReadsOn(start: Bytes, rest: Bytes, num: nat, scale: nat) {
    match ReadDigits(rest)
    case Got(n, after) => ReadDigits(start) == Got(num + scale * n, after)
    case Stop(e) => ReadDigits(start) == Stop(e)
  }

  lemma ReadsOnStart(start: Bytes)
    ensures ReadsOn(start, start, 0, 1)
  {
  }

  lemma ReadsOnStep(start: Bytes, rest: Bytes, num: nat, scale: nat)
    requires ReadsOn(start, rest, num, scale) && rest != [] && rest[0] >= 128
    ensures ReadsOn(start, rest[1..], num + scale * (rest[0] - 128), scale * 128)
  {
    var tail := ReadDigits(rest[1..]);
    if tail.Got? {
      ShiftDigit(num, scale, rest[0] - 128, tail.value);
    }
  }

  lemma ReadsOnEnd(start: Bytes, rest: Bytes, num: nat, scale: nat)
    requires ReadsOn(start, rest, num, scale) && (rest == [] || rest[0] < 128)
    ensures ReadDigits(start) == if rest == [] then Stop(EndOfBuffer) else Got(num + scale * rest[0], rest[1..])
  {
  }

  lemma ShiftDigit(num: nat, scale: nat, digit: nat, n: nat)
    ensures num + scale * (digit + 128 * n) == num + scale * digit + scale * 128 * n
  {
  }
}
