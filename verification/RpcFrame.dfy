/**
  The RPC frame: a varint with the header's size, the `RpcHeader` message (default fields left
  out), then the arguments.  Encoding follows mprpcchannel.cpp and rpcheader.pb.cpp, decoding
  rpcprovider.cpp and rpcheader.pb.cpp; varints and tags are those of the Protocol Buffers Encoding
  guide, sections "Base 128 Varints" and "Message Structure".
*/
module RpcFrame {

  datatype Option<T> = None | Some(value: T)

  type Byte = b: int | 0 <= b < 256

  type Bytes = seq<Byte>

  const TWO31 := 0x8000_0000
  const TWO32 := 0x1_0000_0000
  /** The longest length-delimited field the parser takes: INT_MAX less its slop bytes. */
  const MAX_FIELD := 0x7FFF_FFF0

  datatype Header = Header(service: Bytes, method_: Bytes, argsSize: nat)

  datatype Frame = Frame(service: Bytes, method_: Bytes, args: Bytes)

  /** A decoded number and how many bytes it took. */
  datatype Decoded = Decoded(value: nat, length: nat)

  // ----- varints ---------------------------------------------------------------------------

  function Varint(n: nat): Bytes {
    if n < 128 then [n] else [n % 128 + 128] + Varint(n / 128)
  }

  /** Reads a varint of at most `max` bytes. */
  function ReadVarint(s: Bytes, max: nat): Option<Decoded> {
    if s == [] || max == 0 then None
    else if s[0] < 128 then Some(Decoded(s[0], 1))
    else
      match ReadVarint(s[1..], max - 1)
      case None => None
      case Some(d) => Some(Decoded(s[0] - 128 + 128 * d.value, d.length + 1))
  }

  lemma {:induction false} ReadVarintLength(s: Bytes, max: nat)
    ensures ReadVarint(s, max).Some? ==> 1 <= ReadVarint(s, max).value.length <= |s|
  {
    if s != [] && max > 0 && s[0] >= 128 {
      ReadVarintLength(s[1..], max - 1);
    }
  }

  /** A varint decodes to its number, whatever follows it. */
  lemma {:induction false} VarintRoundTrip(n: nat, rest: Bytes, max: nat)
    requires |Varint(n)| <= max
    ensures ReadVarint(Varint(n) + rest, max) == Some(Decoded(n, |Varint(n)|))
    decreases n
  {
    if n >= 128 {
      VarintRoundTrip(n / 128, rest, max - 1);
      assert (Varint(n) + rest)[1..] == Varint(n / 128) + rest;
    }
  }

  /** The size a 32-bit varint takes. */
  function VarintSize(n: nat): nat {
    if n < 0x80 then 1 else if n < 0x4000 then 2 else if n < 0x20_0000 then 3 else if n < 0x1000_0000 then 4 else 5
  }

  lemma VarintLength(n: nat)
    requires n < TWO32
    ensures |Varint(n)| == VarintSize(n)
  {
    var a, b, c, d := n / 128, n / 128 / 128, n / 128 / 128 / 128, n / 128 / 128 / 128 / 128;
    assert n >= 128 ==> |Varint(n)| == 1 + |Varint(a)|;
    assert a >= 128 ==> |Varint(a)| == 1 + |Varint(b)|;
    assert b >= 128 ==> |Varint(b)| == 1 + |Varint(c)|;
    assert c >= 128 ==> |Varint(c)| == 1 + |Varint(d)|;
    assert d < 128;
  }

  lemma VarintShort(n: nat)
    requires n < TWO32
    ensures |Varint(n)| <= 5
  {
    VarintLength(n);
  }

  // ----- the header ------------------------------------------------------------------------

  function BytesField(tag: Byte, s: Bytes): Bytes {
    if |s| > 0 then [tag] + Varint(|s|) + s else []
  }

  function NumberField(tag: Byte, n: nat): Bytes {
    if n != 0 then [tag] + Varint(n) else []
  }

  function HeaderBytes(h: Header): Bytes {
    BytesField(10, h.service) + BytesField(18, h.method_) + NumberField(24, h.argsSize)
  }

  /** `ByteSizeLong`. */
  function ByteSize(h: Header): nat {
    (if |h.service| > 0 then 1 + VarintSize(|h.service|) + |h.service| else 0)
    + (if |h.method_| > 0 then 1 + VarintSize(|h.method_|) + |h.method_| else 0)
    + (if h.argsSize != 0 then 1 + VarintSize(h.argsSize) else 0)
  }

  /** The size computed ahead is the size written. */
  lemma ByteSizeIsWritten(h: Header)
    requires |h.service| < TWO32 && |h.method_| < TWO32 && h.argsSize < TWO32
    ensures |HeaderBytes(h)| == ByteSize(h)
  {
    VarintLength(|h.service|);
    VarintLength(|h.method_|);
    VarintLength(h.argsSize);
  }

  /** A length and that many bytes: the bytes, and how many the whole took. */
  function ReadBytes(s: Bytes): Option<(Bytes, nat)> {
    match ReadVarint(s, 5)
    case None => None
    case Some(d) =>
      ReadVarintLength(s, 5);
      if d.value >= MAX_FIELD || d.value > |s| - d.length then None
      else Some((s[d.length..d.length + d.value], d.length + d.value))
  }

  /** How much an unknown field takes; groups are not modelled. */
  function SkipField(tag: nat, s: Bytes): Option<nat> {
    if tag / 8 == 0 then None
    else if tag % 8 == 0 then
      match ReadVarint(s, 10)
      case None => None
      case Some(d) => Some(d.length)
    else if tag % 8 == 1 then
      if |s| < 8 then None else Some(8)
    else if tag % 8 == 2 then
      match ReadBytes(s)
      case None => None
      case Some(b) => Some(b.1)
    else if tag % 8 == 5 then
      if |s| < 4 then None else Some(4)
    else
      None
  }

  lemma SkipBounds(tag: nat, s: Bytes)
    ensures SkipField(tag, s).Some? ==> SkipField(tag, s).value <= |s|
    ensures ReadBytes(s).Some? ==> ReadBytes(s).value.1 <= |s|
  {
    ReadVarintLength(s, 10);
    ReadVarintLength(s, 5);
  }

  /** One turn of the parse loop: the header after one field, and how much it took. */
  function ParseField(h: Header, s: Bytes): Option<(Header, nat)>
    requires s != []
  {
    match ReadVarint(s, 5)
    case None => None
    case Some(d) =>
      ReadVarintLength(s, 5);
      var tag, rest := d.value % TWO32, s[d.length..];
      if tag == 10 then
        match ReadBytes(rest)
        case None => None
        case Some(b) => Some((h.(service := b.0), d.length + b.1))
      else if tag == 18 then
        match ReadBytes(rest)
        case None => None
        case Some(b) => Some((h.(method_ := b.0), d.length + b.1))
      else if tag == 24 then
        match ReadVarint(rest, 10)
        case None => None
        case Some(n) => Some((h.(argsSize := n.value % TWO32), d.length + n.length))
      else if tag % 8 == 4 || tag == 0 then
        None
      else
        match SkipField(tag, rest)
        case None => None
        case Some(k) => Some((h, d.length + k))
  }

  lemma ParseFieldTakes(h: Header, s: Bytes)
    requires s != []
    ensures ParseField(h, s).Some? ==> 1 <= ParseField(h, s).value.1 <= |s|
  {
    ReadVarintLength(s, 5);
    if ReadVarint(s, 5).Some? {
      var rest := s[ReadVarint(s, 5).value.length..];
      SkipBounds(ReadVarint(s, 5).value.value % TWO32, rest);
      ReadVarintLength(rest, 10);
    }
  }

  function ParseHeader(h: Header, s: Bytes): Option<Header>
    decreases |s|
  {
    if s == [] then Some(h)
    else
      ParseFieldTakes(h, s);
      match ParseField(h, s)
      case None => None
      case Some(f) => ParseHeader(f.0, s[f.1..])
  }

  const EMPTY := Header([], [], 0)

  lemma BytesRoundTrip(s: Bytes, rest: Bytes)
    requires |s| < MAX_FIELD
    ensures ReadBytes(Varint(|s|) + s + rest) == Some((s, |Varint(|s|)| + |s|))
  {
    VarintLength(|s|);
    assert Varint(|s|) + s + rest == Varint(|s|) + (s + rest);
    VarintRoundTrip(|s|, s + rest, 5);
    var all, k := Varint(|s|) + s + rest, |Varint(|s|)|;
    assert all[k..k + |s|] == s;
  }

  lemma TagRead(tag: Byte, rest: Bytes)
    requires tag < 128
    ensures ReadVarint([tag] + rest, 5) == Some(Decoded(tag, 1)) && ([tag] + rest)[1..] == rest
  {
  }

  /** A service name field at the front is read back, whatever an earlier one said, and the rest is left to parse. */
  lemma ServiceParsed(h: Header, s: Bytes, rest: Bytes)
    requires |s| < MAX_FIELD && (s == [] ==> h.service == [])
    ensures ParseHeader(h, BytesField(10, s) + rest) == ParseHeader(h.(service := s), rest)
  {
    if s == [] {
      assert BytesField(10, s) + rest == rest && h == h.(service := s);
    } else {
      var all := BytesField(10, s) + rest;
      assert all == [10] + (Varint(|s|) + s + rest);
      TagRead(10, Varint(|s|) + s + rest);
      BytesRoundTrip(s, rest);
      assert all[1 + |Varint(|s|)| + |s|..] == rest;
    }
  }

  lemma MethodParsed(h: Header, s: Bytes, rest: Bytes)
    requires |s| < MAX_FIELD && (s == [] ==> h.method_ == [])
    ensures ParseHeader(h, BytesField(18, s) + rest) == ParseHeader(h.(method_ := s), rest)
  {
    if s == [] {
      assert BytesField(18, s) + rest == rest && h == h.(method_ := s);
    } else {
      var all := BytesField(18, s) + rest;
      assert all == [18] + (Varint(|s|) + s + rest);
      TagRead(18, Varint(|s|) + s + rest);
      BytesRoundTrip(s, rest);
      assert all[1 + |Varint(|s|)| + |s|..] == rest;
    }
  }

  lemma SizeParsed(h: Header, n: nat)
    requires n < TWO32 && (n == 0 ==> h.argsSize == 0)
    ensures ParseHeader(h, NumberField(24, n)) == Some(h.(argsSize := n))
  {
    if n == 0 {
      assert h == h.(argsSize := n);
    } else {
      var all := NumberField(24, n);
      TagRead(24, Varint(n));
      VarintLength(n);
      assert Varint(n) + [] == Varint(n);
      VarintRoundTrip(n, [], 10);
      assert all[1 + |Varint(n)|..] == [];
    }
  }

  /** The header survives, elided default fields included. */
  lemma HeaderRoundTrip(h: Header)
    requires |h.service| < MAX_FIELD && |h.method_| < MAX_FIELD && h.argsSize < TWO32
    ensures ParseHeader(EMPTY, HeaderBytes(h)) == Some(h)
  {
    var tail := NumberField(24, h.argsSize);
    assert HeaderBytes(h) == BytesField(10, h.service) + (BytesField(18, h.method_) + tail);
    ServiceParsed(EMPTY, h.service, BytesField(18, h.method_) + tail);
    var named := EMPTY.(service := h.service);
    MethodParsed(named, h.method_, tail);
    SizeParsed(named.(method_ := h.method_), h.argsSize);
  }

  // ----- no shorter encoding ---------------------------------------------------------------

  lemma {:induction false} VarintMonotone(m: nat, n: nat)
    requires m <= n
    ensures 1 <= |Varint(m)| <= |Varint(n)|
    decreases n
  {
    if n >= 128 {
      VarintMonotone(m / 128, n / 128);
    }
  }

  /** Whatever a varint reader makes of its bytes, the number's own varint is no longer. */
  lemma {:induction false} VarintShortest(s: Bytes, max: nat)
    requires ReadVarint(s, max).Some?
    ensures |Varint(ReadVarint(s, max).value.value)| <= ReadVarint(s, max).value.length
    decreases max
  {
    if s[0] >= 128 {
      VarintShortest(s[1..], max - 1);
    }
  }

  lemma BytesCost(s: Bytes)
    requires ReadBytes(s).Some?
    ensures |Varint(|ReadBytes(s).value.0|)| + |ReadBytes(s).value.0| <= ReadBytes(s).value.1
  {
    hide Varint, ReadVarint;
    ReadVarintLength(s, 5);
    VarintShortest(s, 5);
  }

  lemma NumberCost(s: Bytes)
    requires ReadVarint(s, 10).Some?
    ensures |Varint(ReadVarint(s, 10).value.value % TWO32)| <= ReadVarint(s, 10).value.length
  {
    hide Varint, ReadVarint;
    VarintShortest(s, 10);
    VarintMonotone(ReadVarint(s, 10).value.value % TWO32, ReadVarint(s, 10).value.value);
  }

  lemma HeaderLength(h: Header)
    ensures |HeaderBytes(h)| == |BytesField(10, h.service)| + |BytesField(18, h.method_)| + |NumberField(24, h.argsSize)|
    ensures |BytesField(10, h.service)| <= 1 + |Varint(|h.service|)| + |h.service|
    ensures |BytesField(18, h.method_)| <= 1 + |Varint(|h.method_|)| + |h.method_|
    ensures |NumberField(24, h.argsSize)| <= 1 + |Varint(h.argsSize)|
  {
    hide Varint;
  }

  lemma FieldCost(h: Header, s: Bytes)
    requires s != [] && ParseField(h, s).Some?
    ensures |HeaderBytes(ParseField(h, s).value.0)| <= |HeaderBytes(h)| + ParseField(h, s).value.1
  {
    hide Varint, ReadVarint, ReadBytes, HeaderBytes, BytesField, NumberField, SkipField;
    ReadVarintLength(s, 5);
    var d := ReadVarint(s, 5).value;
    var rest, h' := s[d.length..], ParseField(h, s).value.0;
    HeaderLength(h);
    HeaderLength(h');
    if d.value % TWO32 == 10 || d.value % TWO32 == 18 {
      BytesCost(rest);
    } else if d.value % TWO32 == 24 {
      NumberCost(rest);
    }
  }

  /** No bytes shorter than a header's own parse to it. */
  lemma {:induction false} HeaderShortest(h: Header, s: Bytes)
    requires ParseHeader(h, s).Some?
    ensures |HeaderBytes(ParseHeader(h, s).value)| <= |HeaderBytes(h)| + |s|
    decreases |s|
  {
    hide HeaderBytes, ParseField;
    if s != [] {
      ParseFieldTakes(h, s);
      FieldCost(h, s);
      HeaderShortest(ParseField(h, s).value.0, s[ParseField(h, s).value.1..]);
    }
  }

  // ----- fields too long to be read --------------------------------------------------------

  lemma LongBytes(s: Bytes, rest: Bytes)
    requires MAX_FIELD <= |s| < TWO32
    ensures ReadBytes(Varint(|s|) + s + rest) == None
  {
    VarintLength(|s|);
    assert Varint(|s|) + s + rest == Varint(|s|) + (s + rest);
    VarintRoundTrip(|s|, s + rest, 5);
  }

  lemma LongField(h: Header, tag: Byte, s: Bytes, rest: Bytes)
    requires MAX_FIELD <= |s| < TWO32 && (tag == 10 || tag == 18)
    ensures ParseHeader(h, BytesField(tag, s) + rest) == None
  {
    var whole, behind := BytesField(tag, s) + rest, Varint(|s|) + s + rest;
    assert whole == [tag] + behind;
    TagRead(tag, behind);
    LongBytes(s, rest);
  }

  predicate NamesReadable(h: Header) {
    |h.service| < MAX_FIELD && |h.method_| < MAX_FIELD
  }

  /** A header is parsed exactly when both names are short enough for the parser. */
  lemma HeaderReadable(h: Header)
    requires |h.service| < TWO32 && |h.method_| < TWO32 && h.argsSize < TWO32
    ensures ParseHeader(EMPTY, HeaderBytes(h)) == if NamesReadable(h) then Some(h) else None
  {
    hide BytesField, NumberField, ParseHeader;
    var tail := NumberField(24, h.argsSize);
    assert HeaderBytes(h) == BytesField(10, h.service) + (BytesField(18, h.method_) + tail);
    if |h.service| >= MAX_FIELD {
      LongField(EMPTY, 10, h.service, BytesField(18, h.method_) + tail);
    } else if |h.method_| >= MAX_FIELD {
      ServiceParsed(EMPTY, h.service, BytesField(18, h.method_) + tail);
      LongField(EMPTY.(service := h.service), 18, h.method_, tail);
    } else {
      HeaderRoundTrip(h);
    }
  }

  // ----- the frame -------------------------------------------------------------------------

  function HeaderOf(f: Frame): Header {
    Header(f.service, f.method_, |f.args| % TWO32)
  }

  function FrameBytes(f: Frame): Bytes {
    Varint(|HeaderBytes(HeaderOf(f))| % TWO32) + HeaderBytes(HeaderOf(f)) + f.args
  }

  /** Serialising refuses a message of more than INT_MAX bytes, and then nothing is sent. */
  predicate Sendable(f: Frame) {
    |f.args| < TWO31 && |HeaderBytes(HeaderOf(f))| < TWO31
  }

  function Encode(f: Frame): Option<Bytes> {
    if Sendable(f) then Some(FrameBytes(f)) else None
  }

  /** A buffer's size as the input stream's 32-bit int has it; from 2^31 on it is negative. */
  function SeenSize(size: nat): nat {
    size % TWO32
  }

  /** What the input stream sees of a buffer: a negative size is nothing. */
  function Seen(received: Bytes): Bytes {
    var n := SeenSize(|received|);
    if n >= TWO31 then [] else received[..n]
  }

  /** `ReadString`: a size of 2^31 or more is negative to it, and nothing is read. */
  function Take(s: Bytes, size: nat): Bytes {
    if size >= TWO31 then [] else if size <= |s| then s[..size] else s
  }

  /** The header's size and what follows it; a size that cannot be read comes out as all ones. */
  function HeaderSize(seen: Bytes): (nat, Bytes) {
    match ReadVarint(seen, 10)
    case None => (TWO32 - 1, [])
    case Some(d) =>
      ReadVarintLength(seen, 10);
      var rest := seen[d.length..];
      (d.value % TWO32, rest)
  }

  /** The arguments, once the header is parsed. */
  function WithArgs(h: Header, rest: Bytes): Option<Frame> {
    if h.argsSize >= TWO31 || h.argsSize > |rest| then None
    else Some(Frame(h.service, h.method_, rest[..h.argsSize]))
  }

  function DecodeSeen(seen: Bytes): Option<Frame> {
    var (size, rest) := HeaderSize(seen);
    var headerBytes := Take(rest, size);
    match ParseHeader(EMPTY, headerBytes)
    case None => None
    case Some(h) => WithArgs(h, rest[|headerBytes|..])
  }

  /** What `OnMessage` makes of the bytes received, up to looking the service up. */
  function Decode(received: Bytes): Option<Frame> {
    DecodeSeen(Seen(received))
  }

  lemma SizeOf(seen: Bytes, d: Decoded)
    requires ReadVarint(seen, 10) == Some(d) && d.value < TWO32 && d.length <= |seen|
    ensures HeaderSize(seen) == (d.value, seen[d.length..])
  {
    hide ReadVarint;
  }

  lemma Split(first: Bytes, rest: Bytes)
    ensures (first + rest)[..|first|] == first && (first + rest)[|first|..] == rest
  {
  }

  /** The header's size is read back, and the header is what follows it. */
  lemma SizeRead(n: nat, rest: Bytes)
    requires n < TWO31
    ensures HeaderSize(Varint(n) + rest) == (n, rest)
  {
    hide Varint, ReadVarint, VarintSize, HeaderSize;
    VarintShort(n);
    VarintRoundTrip(n, rest, 10);
    Split(Varint(n), rest);
    SizeOf(Varint(n) + rest, Decoded(n, |Varint(n)|));
  }

  /** A varint cut short cannot be read. */
  lemma {:induction false} VarintCut(n: nat, k: nat, max: nat)
    requires k < |Varint(n)|
    ensures ReadVarint(Varint(n)[..k], max) == None
    decreases n
  {
    if n >= 128 && k > 0 && max > 0 {
      VarintCut(n / 128, k - 1, max - 1);
      assert Varint(n)[..k][1..] == Varint(n / 128)[..k - 1];
    }
  }

  lemma Taken(header: Bytes, body: Bytes)
    requires |header| < TWO31
    ensures Take(header + body, |header|) == header && (header + body)[|header|..] == body
  {
    Split(header, body);
  }

  /** A frame whose header arrives whole. */
  lemma HeaderArrives(header: Bytes, body: Bytes)
    requires |header| < TWO31
    ensures DecodeSeen(Varint(|header|) + (header + body)) ==
      match ParseHeader(EMPTY, header) case None => None case Some(h) => WithArgs(h, body)
  {
    hide Varint, ParseHeader, HeaderSize, Take, WithArgs;
    SizeRead(|header|, header + body);
    Taken(header, body);
  }

  /** A frame whose header is cut short, or that has nothing behind its size. */
  lemma HeaderCut(size: nat, part: Bytes)
    requires |part| < size < TWO31
    ensures DecodeSeen(Varint(size) + part) ==
      match ParseHeader(EMPTY, part) case None => None case Some(h) => WithArgs(h, [])
  {
    hide Varint, ParseHeader, HeaderSize, WithArgs;
    SizeRead(size, part);
    assert part[|part|..] == [];
  }

  const NOTHING := Frame([], [], [])

  /** From nothing the empty frame is decoded. */
  lemma NothingSeen(seen: Bytes)
    requires ReadVarint(seen, 10) == None
    ensures DecodeSeen(seen) == Some(NOTHING)
  {
    hide ReadVarint;
  }

  lemma SentSizes(f: Frame)
    requires Sendable(f)
    ensures |f.service| < TWO31 && |f.method_| < TWO31 && HeaderOf(f).argsSize == |f.args|
    ensures |HeaderBytes(HeaderOf(f))| % TWO32 == |HeaderBytes(HeaderOf(f))|
  {
    hide Varint;
  }

  /** Seen whole, a frame decodes to itself exactly when its names are short enough for the parser. */
  lemma WholeDecodes(f: Frame, trailing: Bytes)
    requires Sendable(f)
    ensures DecodeSeen(FrameBytes(f) + trailing) == if NamesReadable(HeaderOf(f)) then Some(f) else None
  {
    hide Varint, ParseHeader, HeaderBytes, DecodeSeen;
    var h, header := HeaderOf(f), HeaderBytes(HeaderOf(f));
    SentSizes(f);
    HeaderArrives(header, f.args + trailing);
    HeaderReadable(h);
    assert FrameBytes(f) + trailing == Varint(|header|) + (header + (f.args + trailing));
    Split(f.args, trailing);
  }

  /** Cut short, a frame does not decode to itself, unless it is the empty one. */
  lemma CutDecodes(f: Frame, n: nat)
    requires Sendable(f) && n < |FrameBytes(f)| && f != NOTHING
    ensures DecodeSeen(FrameBytes(f)[..n]) != Some(f)
  {
    hide Varint, ParseHeader, HeaderBytes, DecodeSeen, ReadVarint;
    var h, header := HeaderOf(f), HeaderBytes(HeaderOf(f));
    var size := Varint(|header|);
    SentSizes(f);
    assert FrameBytes(f) == size + (header + f.args);
    if n < |size| {
      assert FrameBytes(f)[..n] == size[..n];
      VarintCut(|header|, n, 10);
      NothingSeen(size[..n]);
    } else if n < |size| + |header| {
      var part := header[..n - |size|];
      assert FrameBytes(f)[..n] == size + part;
      HeaderCut(|header|, part);
      if ParseHeader(EMPTY, part).Some? {
        PartIsOther(f, part);
      }
    } else {
      var args := f.args[..n - |size| - |header|];
      assert FrameBytes(f)[..n] == size + (header + args);
      HeaderArrives(header, args);
      HeaderReadable(h);
    }
  }

  /** Cut short in its arguments, a frame is dropped. */
  lemma ArgsCutDropped(f: Frame, n: nat)
    requires Sendable(f) && NamesReadable(HeaderOf(f))
    requires |Varint(|HeaderBytes(HeaderOf(f))|)| + |HeaderBytes(HeaderOf(f))| <= n < |FrameBytes(f)|
    ensures DecodeSeen(FrameBytes(f)[..n]) == None
  {
    hide Varint, ParseHeader, HeaderBytes, DecodeSeen;
    var h, header := HeaderOf(f), HeaderBytes(HeaderOf(f));
    var size := Varint(|header|);
    SentSizes(f);
    assert FrameBytes(f) == size + (header + f.args);
    var args := f.args[..n - |size| - |header|];
    assert FrameBytes(f)[..n] == size + (header + args);
    HeaderArrives(header, args);
    HeaderReadable(h);
  }

  lemma PartIsOther(f: Frame, part: Bytes)
    requires |part| < |HeaderBytes(HeaderOf(f))| && ParseHeader(EMPTY, part).Some?
    ensures WithArgs(ParseHeader(EMPTY, part).value, []) != Some(f)
  {
    hide HeaderBytes, ParseHeader;
    HeaderShortest(EMPTY, part);
    EmptyHeader();
  }

  lemma EmptyHeader()
    ensures HeaderBytes(EMPTY) == []
  {
  }

  // ----- the round trip --------------------------------------------------------------------

  /**
    The frame round trip, for every frame that is sent and any bytes behind it: it decodes to itself
    if and only if the buffer's size, as the receiver's int has it, is not negative and covers the
    frame, and the names are short enough for the parser; the empty frame always does.
  */
  lemma FrameRoundTrip(f: Frame, trailing: Bytes)
    requires Encode(f).Some?
    ensures var sent := Encode(f).value;
      Decode(sent + trailing) == Some(f) <==>
        || f == NOTHING
        || (|sent| <= SeenSize(|sent| + |trailing|) < TWO31 && |f.service| < MAX_FIELD && |f.method_| < MAX_FIELD)
  {
    hide FrameBytes, DecodeSeen, Sendable, ReadVarint;
    var sent := Encode(f).value;
    var n := SeenSize(|sent| + |trailing|);
    if n >= TWO31 {
      ReadNothing([], 10);
      NothingSeen([]);
    } else if n >= |sent| {
      assert (sent + trailing)[..n] == sent + trailing[..n - |sent|];
      WholeDecodes(f, trailing[..n - |sent|]);
    } else if f != NOTHING {
      assert (sent + trailing)[..n] == sent[..n];
      CutDecodes(f, n);
    } else {
      EmptySent();
      ReadNothing([], 10);
      NothingSeen([]);
      assert (sent + trailing)[..n] == [];
    }
  }

  lemma EmptySent()
    ensures FrameBytes(NOTHING) == [0]
  {
    EmptyHeader();
  }

  /** Whatever a buffer of 2^31 bytes up to 2^32 holds, the receiver makes the empty frame of it. */
  lemma OversizeReadsNothing(received: Bytes)
    requires TWO31 <= SeenSize(|received|)
    ensures Decode(received) == Some(NOTHING)
  {
    hide DecodeSeen, ReadVarint;
    ReadNothing([], 10);
    NothingSeen([]);
  }

  /** The smallest buffer it happens to: one byte less behind the same frame, and it is read. */
  lemma SmallestOversize(f: Frame, trailing: Bytes)
    requires f == Frame([115], [], []) && |trailing| == TWO31 - 4
    ensures Encode(f) == Some([3, 10, 1, 115])
    ensures Decode(Encode(f).value + trailing) == Some(NOTHING) != Some(f)
    ensures Decode(Encode(f).value + trailing[1..]) == Some(f)
  {
    hide Varint, DecodeSeen, ReadVarint, FrameBytes, HeaderBytes, Sendable, Decode;
    OneByteSent(f);
    OversizeReadsNothing(FrameBytes(f) + trailing);
    FrameRoundTrip(f, trailing[1..]);
  }

  lemma OneByteSent(f: Frame)
    requires f == Frame([115], [], [])
    ensures FrameBytes(f) == [3, 10, 1, 115] && Sendable(f)
  {
    assert Varint(3) == [3] && Varint(1) == [1];
    assert HeaderBytes(HeaderOf(f)) == [10, 1, 115];
  }

  /** Whatever is received, the arguments handed on are as many as the header announces, and those right behind it. */
  lemma DecodedArgs(received: Bytes, g: Frame)
    requires Decode(received) == Some(g)
    ensures var (size, rest) := HeaderSize(Seen(received));
      var k := |Take(rest, size)|;
      var parsed := ParseHeader(EMPTY, Take(rest, size));
      && parsed.Some? && g.service == parsed.value.service && g.method_ == parsed.value.method_
      && |g.args| == parsed.value.argsSize && k + |g.args| <= |rest| && g.args == rest[k..k + |g.args|]
  {
    hide ParseHeader, HeaderSize;
    var (size, rest) := HeaderSize(Seen(received));
    var k, n := |Take(rest, size)|, |g.args|;
    assert k + n <= |rest| ==> rest[k..][..n] == rest[k..k + n];
  }

  /** A frame on the wire, and what is made of it when only ten of its bytes have come. */
  lemma OneFrame()
    ensures var f := Frame([115], [109], [1, 2, 3]);
      && FrameBytes(f) == [8, 10, 1, 115, 18, 1, 109, 24, 3, 1, 2, 3]
      && DecodeSeen(FrameBytes(f)[..10]) == None
  {
    var f := Frame([115], [109], [1, 2, 3]);
    hide Varint, HeaderBytes, DecodeSeen, FrameBytes, Sendable;
    OneFrameBytes();
    OneHeader();
    SmallVarint(8);
    ArgsCutDropped(f, 10);
  }

  lemma OneFrameBytes()
    ensures var f := Frame([115], [109], [1, 2, 3]);
      FrameBytes(f) == [8, 10, 1, 115, 18, 1, 109, 24, 3, 1, 2, 3] && Sendable(f)
  {
    hide Varint, HeaderBytes;
    SmallVarint(8);
    OneHeader();
  }

  lemma SmallVarint(n: nat)
    requires n < 128
    ensures Varint(n) == [n]
  {
  }

  lemma OneHeader()
    ensures HeaderBytes(HeaderOf(Frame([115], [109], [1, 2, 3]))) == [10, 1, 115, 18, 1, 109, 24, 3]
  {
    SmallVarint(1);
    SmallVarint(3);
    hide Varint;
  }

  // ----- fields of other numbers -----------------------------------------------------------

  /** The bytes of a field's value, by the wire type of its tag. */
  ghost predicate ValueOf(tag: nat, body: Bytes) {
    || (tag % 8 == 0 && exists n: nat :: |Varint(n)| <= 10 && body == Varint(n))
    || (tag % 8 == 1 && |body| == 8)
    || (tag % 8 == 2 && exists s: Bytes :: |s| < MAX_FIELD && body == Varint(|s|) + s)
    || (tag % 8 == 5 && |body| == 4)
  }

  lemma ValueSkipped(tag: nat, body: Bytes, rest: Bytes)
    requires tag / 8 > 0 && ValueOf(tag, body)
    ensures SkipField(tag, body + rest) == Some(|body|)
  {
    if tag % 8 == 0 {
      var n: nat :| |Varint(n)| <= 10 && body == Varint(n);
      VarintRoundTrip(n, rest, 10);
    } else if tag % 8 == 2 {
      var s: Bytes :| |s| < MAX_FIELD && body == Varint(|s|) + s;
      BytesRoundTrip(s, rest);
    }
    hide Varint, ReadVarint, ReadBytes;
  }

  lemma WireTypes(tag: nat, body: Bytes)
    requires ValueOf(tag, body)
    ensures tag % 8 != 4
  {
  }

  /** A field the header does not know is passed over, wherever it stands. */
  lemma UnknownSkipped(h: Header, tag: nat, body: Bytes, rest: Bytes)
    requires tag < TWO32 && tag / 8 > 3 && ValueOf(tag, body)
    ensures ParseHeader(h, Varint(tag) + (body + rest)) == ParseHeader(h, rest)
  {
    hide Varint, ReadVarint, SkipField, ValueOf, ReadBytes;
    WireTypes(tag, body);
    VarintShort(tag);
    VarintMonotone(0, tag);
    VarintRoundTrip(tag, body + rest, 5);
    ValueSkipped(tag, body, rest);
    Split(Varint(tag), body + rest);
    var whole := Varint(tag) + (body + rest);
    assert whole[|Varint(tag)| + |body|..] == rest;
  }

  /** A varint is read the same whatever follows it. */
  lemma {:induction false} VarintAlone(s: Bytes, rest: Bytes, max: nat)
    requires ReadVarint(s, max).Some?
    ensures ReadVarint(s + rest, max) == ReadVarint(s, max)
    decreases |s|
  {
    if s[0] >= 128 {
      VarintAlone(s[1..], rest, max - 1);
      assert (s + rest)[1..] == s[1..] + rest;
    }
  }

  /** The arguments' size is taken from any varint of up to ten bytes, its low 32 bits, whatever an earlier one said. */
  lemma NumberParsed(h: Header, s: Bytes, rest: Bytes)
    requires ReadVarint(s, 10).Some? && ReadVarint(s, 10).value.length == |s|
    ensures ParseHeader(h, [24] + (s + rest)) == ParseHeader(h.(argsSize := ReadVarint(s, 10).value.value % TWO32), rest)
  {
    VarintAlone(s, rest, 10);
    TagRead(24, s + rest);
    hide ReadVarint;
    assert ([24] + (s + rest))[1 + |s|..] == rest;
  }

  // ----- the program's loops ---------------------------------------------------------------

  /** `WriteVarint32`: seven bits at a time, the lowest first. */
  method WriteVarint(n: nat) returns (out: Bytes)
    ensures out == Varint(n)
  {
    out := [];
    var left := n;
    while left >= 128
      invariant out + Varint(left) == Varint(n)
      decreases left
    {
      assert Varint(left) == [left % 128 + 128] + Varint(left / 128);
      out := out + [left % 128 + 128];
      left := left / 128;
    }
    out := out + [left];
  }

  /** `_InternalSerialize`. */
  method Serialize(h: Header) returns (out: Bytes)
    ensures out == HeaderBytes(h)
  {
    out := [];
    if |h.service| > 0 {
      var size := WriteVarint(|h.service|);
      out := out + [10] + size + h.service;
    }
    assert out == BytesField(10, h.service);
    if |h.method_| > 0 {
      var size := WriteVarint(|h.method_|);
      out := out + ([18] + size + h.method_);
    }
    assert out == BytesField(10, h.service) + BytesField(18, h.method_);
    if h.argsSize != 0 {
      var size := WriteVarint(h.argsSize);
      out := out + ([24] + size);
    }
  }

  /** The frame `CallMethod` sends; None where serialising fails and the call is given up. */
  method BuildFrame(service: Bytes, method_: Bytes, args: Bytes) returns (out: Option<Bytes>)
    ensures out == Encode(Frame(service, method_, args))
  {
    hide HeaderBytes, Varint;
    if |args| >= TWO31 {
      return None;
    }
    var header := Serialize(Header(service, method_, |args| % TWO32));
    if |header| >= TWO31 {
      return None;
    }
    var bytes := WriteVarint(|header| % TWO32);
    bytes := bytes + header;
    bytes := bytes + args;
    return Some(bytes);
  }

  function Power128(k: nat): nat {
    if k == 0 then 1 else 128 * Power128(k - 1)
  }

  /** A number read with some of its low groups already taken in. */
  function Resume(low: nat, k: nat, d: Option<Decoded>): Option<Decoded> {
    match d
    case None => None
    case Some(d) => Some(Decoded(low + Power128(k) * d.value, k + d.length))
  }

  lemma ResumeStep(low: nat, k: nat, b: Byte, d: Option<Decoded>)
    requires b >= 128
    ensures Resume(low, k, match d case None => None case Some(e) => Some(Decoded(b - 128 + 128 * e.value, e.length + 1))) ==
      Resume(low + Power128(k) * (b - 128), k + 1, d)
  {
    if d.Some? {
      var p, v := Power128(k), d.value.value;
      assert p * (b - 128 + 128 * v) == p * (b - 128) + (128 * p) * v;
    }
  }

  lemma ReadStep(s: Bytes, max: nat)
    requires s != [] && max > 0
    ensures ReadVarint(s, max) ==
      if s[0] < 128 then Some(Decoded(s[0], 1))
      else match ReadVarint(s[1..], max - 1) case None => None case Some(e) => Some(Decoded(s[0] - 128 + 128 * e.value, e.length + 1))
  {
  }

  lemma ReadNothing(s: Bytes, max: nat)
    requires s == [] || max == 0
    ensures ReadVarint(s, max) == None
  {
  }

  lemma PowerStep(k: nat)
    ensures Power128(0) == 1 && Power128(k + 1) == 128 * Power128(k)
  {
  }

  /** The reading loop of a varint. */
  method ReadVarintLoop(s: Bytes, max: nat) returns (d: Option<Decoded>)
    ensures d == ReadVarint(s, max)
  {
    hide ReadVarint, Power128, Resume;
    var low: nat, k: nat, scale: nat := 0, 0, 1;
    ResumeStart(s, max);
    while k < max && k < |s|
      invariant k <= max && k <= |s| && scale == Power128(k)
      invariant ReadVarint(s, max) == Resume(low, k, ReadVarint(s[k..], max - k))
    {
      var b: nat := s[k];
      assert s[k..][0] == b && s[k..][1..] == s[k + 1..];
      ReadStep(s[k..], max - k);
      if b < 128 {
        ResumeEnd(low, k, b);
        return Some(Decoded(low + scale * b, k + 1));
      }
      ResumeStep(low, k, b, ReadVarint(s[k + 1..], max - k - 1));
      PowerStep(k);
      low, k, scale := low + scale * (b - 128), k + 1, 128 * scale;
    }
    ReadNothing(s[k..], max - k);
    ResumeNone(low, k);
    return None;
  }

  lemma ResumeStart(s: Bytes, max: nat)
    ensures Power128(0) == 1 && s[0..] == s && ReadVarint(s, max) == Resume(0, 0, ReadVarint(s, max))
  {
  }

  lemma ResumeEnd(low: nat, k: nat, b: nat)
    ensures Resume(low, k, Some(Decoded(b, 1))) == Some(Decoded(low + Power128(k) * b, k + 1))
  {
  }

  lemma ResumeNone(low: nat, k: nat)
    ensures Resume(low, k, None) == None
  {
  }

  /** The tag-dispatch loop of `_InternalParse`. */
  method Parse(s: Bytes) returns (r: Option<Header>)
    ensures r == ParseHeader(EMPTY, s)
  {
    hide ParseField;
    var h, pos := EMPTY, 0;
    while pos < |s|
      invariant 0 <= pos <= |s|
      invariant ParseHeader(EMPTY, s) == ParseHeader(h, s[pos..])
    {
      ParseFieldTakes(h, s[pos..]);
      var field := ParseOne(h, s[pos..]);
      if field == None {
        return None;
      }
      assert s[pos..][field.value.1..] == s[pos + field.value.1..];
      h, pos := field.value.0, pos + field.value.1;
    }
    return Some(h);
  }

  method ParseOne(h: Header, s: Bytes) returns (field: Option<(Header, nat)>)
    requires s != []
    ensures field == ParseField(h, s)
  {
    var d := ReadVarintLoop(s, 5);
    if d == None {
      return None;
    }
    ReadVarintLength(s, 5);
    var tag, rest := d.value.value % TWO32, s[d.value.length..];
    if tag == 10 || tag == 18 {
      var b := ReadBytesField(rest);
      if b == None {
        return None;
      }
      return Some((if tag == 10 then h.(service := b.value.0) else h.(method_ := b.value.0), d.value.length + b.value.1));
    }
    if tag == 24 {
      var n := ReadVarintLoop(rest, 10);
      if n == None {
        return None;
      }
      return Some((h.(argsSize := n.value.value % TWO32), d.value.length + n.value.length));
    }
    if tag % 8 == 4 || tag == 0 {
      return None;
    }
    var k := SkipField(tag, rest);
    if k == None {
      return None;
    }
    return Some((h, d.value.length + k.value));
  }

  method ReadBytesField(s: Bytes) returns (b: Option<(Bytes, nat)>)
    ensures b == ReadBytes(s)
  {
    var d := ReadVarintLoop(s, 5);
    if d == None {
      return None;
    }
    ReadVarintLength(s, 5);
    if d.value.value >= MAX_FIELD || d.value.value > |s| - d.value.length {
      return None;
    }
    return Some((s[d.value.length..d.value.length + d.value.value], d.value.length + d.value.value));
  }

  /** `OnMessage` up to the service lookup. */
  method OnMessage(received: Bytes) returns (f: Option<Frame>)
    ensures f == Decode(received)
  {
    hide ParseHeader, ReadVarint;
    var seen := Seen(received);
    var d := ReadVarintLoop(seen, 10);
    var size, rest := TWO32 - 1, [];
    if d.Some? {
      ReadVarintLength(seen, 10);
      size, rest := d.value.value % TWO32, seen[d.value.length..];
    }
    var headerBytes := Take(rest, size);
    var parsed := Parse(headerBytes);
    if parsed == None {
      return None;
    }
    rest := rest[|headerBytes|..];
    if parsed.value.argsSize >= TWO31 || parsed.value.argsSize > |rest| {
      return None;
    }
    return Some(Frame(parsed.value.service, parsed.value.method_, rest[..parsed.value.argsSize]));
  }
}
