// The binary frame codec: how a frame becomes bytes, how bytes become a frame,
// and why the two undo each other on a byte stream that carries many frames.

module Wire {
  import opened Basics

  type u8 = i: int | 0 <= i < 0x100
  type u32 = i: int | 0 <= i < 0x1_0000_0000

  const MAGIC0: u8 := 0x4A
  const MAGIC1: u8 := 0x53
  const PROTOCOL_VERSION: u8 := 1
  const MAX_PAYLOAD := 0x100_0000
  const MAX_METADATA := 0xFFFF
  const HEADER_SIZE := 14
  const META_LEN_SIZE := 2

  // Frame types.
  const CONNECT: u8 := 0x01
  const CONNACK: u8 := 0x02
  const PING: u8 := 0x03
  const PONG: u8 := 0x04
  const REQUEST: u8 := 0x05
  const RESPONSE: u8 := 0x06
  const COMPLETE: u8 := 0x07
  const CANCEL: u8 := 0x08
  const ONEWAY: u8 := 0x09
  const ERROR: u8 := 0x0A
  const SUBSCRIBE: u8 := 0x0B
  const SUBACK: u8 := 0x0C
  const UNSUBSCRIBE: u8 := 0x0D
  const PUBLISH: u8 := 0x0E
  const CREDIT: u8 := 0x0F

  /** The flag byte, bit by bit; `reserved` holds bits 5 to 7. */
  datatype Flags = Flags(compressed: bool, encrypted: bool, hasMeta: bool, stream: bool, channel: bool, reserved: u3)
  type u3 = i: int | 0 <= i < 8

  const NO_FLAGS := Flags(false, false, false, false, false, 0)

  /** A frame in memory. A nil and an empty metadata slice are the same here: the source only ever asks for the
      length. */
  datatype Frame = Frame(version: u8, flags: Flags, ty: u8, sid: u32, meta: seq<u8>, payload: seq<u8>)

  /** A frame of the current protocol version without flags or metadata. */
  function Plain(ty: u8, sid: u32, payload: seq<u8>): Frame {
    Frame(PROTOCOL_VERSION, NO_FLAGS, ty, sid, [], payload)
  }

  // ---- the flag byte -----------------------------------------------------------

  /** A number with one more binary digit at the low end. */
  function Push(low: bool, n: nat): nat {
    2 * n + if low then 1 else 0
  }

  lemma PushSplits(low: bool, n: nat)
    ensures Push(low, n) / 2 == n && (Push(low, n) % 2 == 1) == low
  {
  }

  lemma SplitPushes(n: nat)
    ensures Push(n % 2 == 1, n / 2) == n
  {
  }

  function FlagByte(f: Flags): (b: u8) {
    Push(f.compressed, Push(f.encrypted, Push(f.hasMeta, Push(f.stream, Push(f.channel, f.reserved)))))
  }

  function ByteFlags(b: u8): (f: Flags) {
    Flags(b % 2 == 1, b / 2 % 2 == 1, b / 2 / 2 % 2 == 1, b / 2 / 2 / 2 % 2 == 1, b / 2 / 2 / 2 / 2 % 2 == 1,
      b / 2 / 2 / 2 / 2 / 2)
  }

  lemma FlagByteInverse(f: Flags)
    ensures ByteFlags(FlagByte(f)) == f
  {
    PushSplits(f.channel, f.reserved);
    var n1 := Push(f.channel, f.reserved);
    PushSplits(f.stream, n1);
    var n2 := Push(f.stream, n1);
    PushSplits(f.hasMeta, n2);
    var n3 := Push(f.hasMeta, n2);
    PushSplits(f.encrypted, n3);
    PushSplits(f.compressed, Push(f.encrypted, n3));
  }

  lemma ByteFlagsInverse(b: u8)
    ensures FlagByte(ByteFlags(b)) == b
  {
    SplitPushes(b);
    SplitPushes(b / 2);
    SplitPushes(b / 2 / 2);
    SplitPushes(b / 2 / 2 / 2);
    SplitPushes(b / 2 / 2 / 2 / 2);
  }

  // ---- big-endian integers ---------------------------------------------------

  function U16(n: int): (b: seq<u8>)
    requires 0 <= n < 0x1_0000
    ensures |b| == 2
  {
    [n / 0x100, n % 0x100]
  }

  function U32(n: u32): (b: seq<u8>)
    ensures |b| == 4
  {
    U16(n / 0x1_0000) + U16(n % 0x1_0000)
  }

  function Val16(b: seq<u8>): (n: int)
    requires |b| == 2
    ensures 0 <= n < 0x1_0000
  {
    b[0] as int * 0x100 + b[1]
  }

  function Val32(b: seq<u8>): (n: u32)
    requires |b| == 4
  {
    Val16(b[..2]) * 0x1_0000 + Val16(b[2..])
  }

  lemma U16Inverse(n: int)
    requires 0 <= n < 0x1_0000
    ensures Val16(U16(n)) == n
  {
  }

  lemma Val16Inverse(b: seq<u8>)
    requires |b| == 2
    ensures U16(Val16(b)) == b
  {
  }

  lemma U32Inverse(n: u32)
    ensures Val32(U32(n)) == n
  {
    var hi, lo := n / 0x1_0000, n % 0x1_0000;
    assert U32(n)[..2] == U16(hi) && U32(n)[2..] == U16(lo);
    U16Inverse(hi);
    U16Inverse(lo);
  }

  lemma Val32Inverse(b: seq<u8>)
    requires |b| == 4
    ensures U32(Val32(b)) == b
  {
    var hi, lo := Val16(b[..2]), Val16(b[2..]);
    assert Val32(b) / 0x1_0000 == hi && Val32(b) % 0x1_0000 == lo;
    Val16Inverse(b[..2]);
    Val16Inverse(b[2..]);
  }

  // ---- encoding --------------------------------------------------------------

  datatype EncodeError = MetadataTooLong | PayloadTooLong

  /** The sizes `appendTo` accepts. */
  predicate Fits(f: Frame) {
    |f.meta| <= MAX_METADATA && |f.payload| <= MAX_PAYLOAD
  }

  /** A frame `ReadFrame` will admit: current version, no reserved flag bit. */
  predicate Admissible(f: Frame) {
    f.version == PROTOCOL_VERSION && f.flags.reserved == 0
  }

  /** The flags that go on the wire: metadata forces HasMeta. */
  function WireFlags(f: Frame): Flags {
    if |f.meta| > 0 then f.flags.(hasMeta := true) else f.flags
  }

  /** What a frame looks like after a trip over the wire. */
  function Normal(f: Frame): Frame {
    f.(flags := WireFlags(f))
  }

  function Header(f: Frame): (h: seq<u8>)
    requires Fits(f)
    ensures |h| == HEADER_SIZE
  {
    [MAGIC0, MAGIC1, f.version, FlagByte(WireFlags(f)), f.ty, 0] + U32(f.sid) + U32(|f.payload|)
  }

  function MetaPart(f: Frame): seq<u8>
    requires Fits(f)
  {
    if WireFlags(f).hasMeta then U16(|f.meta|) + f.meta else []
  }

  /** The bytes of one frame. */
  function Encode(f: Frame): seq<u8>
    requires Fits(f)
  {
    Header(f) + MetaPart(f) + f.payload
  }

  /** `Frame.appendTo`: grow a buffer piece by piece, or leave it alone and report the field that is too long. */
  method AppendTo(f: Frame, dst: seq<u8>) returns (out: seq<u8>, err: Option<EncodeError>)
    ensures err == if |f.meta| > MAX_METADATA then Some(MetadataTooLong) else if |f.payload| > MAX_PAYLOAD
      then Some(PayloadTooLong) else None
    ensures err.None? <==> Fits(f)
    ensures out == if Fits(f) then dst + Encode(f) else dst
  {
    out, err := dst, None;
    if |f.meta| > MAX_METADATA {
      err := Some(MetadataTooLong);
      return;
    }
    if |f.payload| > MAX_PAYLOAD {
      err := Some(PayloadTooLong);
      return;
    }
    var flags := f.flags;
    if |f.meta| > 0 {
      flags := flags.(hasMeta := true);
    }
    out := out + [MAGIC0, MAGIC1];
    out := out + [f.version, FlagByte(flags), f.ty, 0];
    out := out + U32(f.sid);
    out := out + U32(|f.payload|);
    assert out == dst + Header(f);
    if flags.hasMeta {
      out := out + U16(|f.meta|);
      out := out + f.meta;
    }
    assert out == dst + (Header(f) + MetaPart(f));
    out := out + f.payload;
    assert out == dst + Encode(f);
  }

  // ---- decoding --------------------------------------------------------------

  datatype Malformed =
    | ShortHeader | BadMagic | BadVersion | ReservedFlags | Oversize
    | ShortMetaLen | ShortMeta | ShortPayload

  /** The outcome of one ReadFrame, with the bytes still unread afterwards. */
  datatype ReadResult = Got(frame: Frame, rest: seq<u8>) | Bad(why: Malformed, rest: seq<u8>)

  /** The checks on the fixed header, in the order the source makes them. */
  function HeaderFault(h: seq<u8>): (fault: Option<Malformed>)
    requires |h| == HEADER_SIZE
  {
    if h[0] != MAGIC0 || h[1] != MAGIC1 then Some(BadMagic)
    else if h[2] != PROTOCOL_VERSION then Some(BadVersion)
    else if ByteFlags(h[3]).reserved != 0 then Some(ReservedFlags)
    else if Val32(h[10..14]) > MAX_PAYLOAD then Some(Oversize)
    else None
  }

  /** What ReadFrame makes of a byte stream. A short read consumes what is left, as io.ReadFull does. */
  function Parse(b: seq<u8>): (r: ReadResult)
    ensures r.Got? ==> |r.rest| + HEADER_SIZE <= |b|
  {
    if |b| < HEADER_SIZE then Bad(ShortHeader, [])
    else
      match HeaderFault(b[..HEADER_SIZE])
      case Some(why) => Bad(why, b[HEADER_SIZE..])
      case None => ParseBody(b[..HEADER_SIZE], b[HEADER_SIZE..])
  }

  function ParseBody(h: seq<u8>, body: seq<u8>): (r: ReadResult)
    requires |h| == HEADER_SIZE
    ensures r.Got? ==> |r.rest| <= |body|
  {
    if ByteFlags(h[3]).hasMeta then
      if |body| < META_LEN_SIZE then Bad(ShortMetaLen, [])
      else
        var n := Val16(body[..2]);
        var after := body[2..];
        if |after| < n then Bad(ShortMeta, []) else ParsePayload(h, after[..n], after[n..])
    else ParsePayload(h, [], body)
  }

  function ParsePayload(h: seq<u8>, meta: seq<u8>, b: seq<u8>): (r: ReadResult)
    requires |h| == HEADER_SIZE
    ensures r.Got? ==> |r.rest| <= |b|
  {
    var n := Val32(h[10..14]);
    if |b| < n then Bad(ShortPayload, [])
    else Got(Frame(h[2], ByteFlags(h[3]), h[4], Val32(h[6..10]), meta, b[..n]), b[n..])
  }

  /** Which fault a frame's fixed header shows first, byte by byte; what follows it can then only be too short. */
  lemma {:induction false} FirstFault(b: seq<u8>)
    ensures |b| < 14 ==> Parse(b) == Bad(ShortHeader, [])
    ensures |b| >= 14 ==>
      var n := b[10] as int * 0x100_0000 + b[11] as int * 0x1_0000 + b[12] as int * 0x100 + b[13];
      if b[0] != 0x4A || b[1] != 0x53 then Parse(b) == Bad(BadMagic, b[14..])
      else if b[2] != 1 then Parse(b) == Bad(BadVersion, b[14..])
      else if b[3] >= 32 then Parse(b) == Bad(ReservedFlags, b[14..])
      else if n > 0x100_0000 then Parse(b) == Bad(Oversize, b[14..])
      else Parse(b).Got? || (Parse(b).why in {ShortMetaLen, ShortMeta, ShortPayload} && Parse(b).rest == [])
  {
    if |b| >= 14 {
      var h := b[..14];
      assert h[10..14][..2] == [b[10], b[11]] && h[10..14][2..] == [b[12], b[13]];
      assert b[3] / 2 / 2 / 2 / 2 / 2 == b[3] / 32;
    }
  }

  /** The buffered reader that the handshake and the read loop share. */
  class Reader {
    var rest: seq<u8>

    constructor (bytes: seq<u8>)
      ensures rest == bytes
    {
      rest := bytes;
    }

    /** io.ReadFull: exactly n bytes, or everything that is left and a failure. */
    method ReadFull(n: nat) returns (ok: bool, buf: seq<u8>)
      modifies this
      ensures ok == (n <= |old(rest)|)
      ensures ok ==> buf == old(rest)[..n] && rest == old(rest)[n..]
      ensures !ok ==> buf == old(rest) && rest == []
    {
      if n <= |rest| {
        ok, buf, rest := true, rest[..n], rest[n..];
      } else {
        ok, buf, rest := false, rest, [];
      }
    }

    method ReadFrame() returns (r: ReadResult)
      modifies this
      ensures r == Parse(old(rest)) && rest == r.rest
    {
      var ok, head := ReadFull(HEADER_SIZE);
      if !ok { return Bad(ShortHeader, rest); }
      if head[0] != MAGIC0 || head[1] != MAGIC1 { return Bad(BadMagic, rest); }
      var version, flags, ty, sid := head[2], ByteFlags(head[3]), head[4], Val32(head[6..10]);
      if version != PROTOCOL_VERSION { return Bad(BadVersion, rest); }
      if flags.reserved != 0 { return Bad(ReservedFlags, rest); }
      var payloadLen := Val32(head[10..14]);
      if payloadLen > MAX_PAYLOAD { return Bad(Oversize, rest); }
      var meta, payload := [], [];
      if flags.hasMeta {
        var ok1, ml := ReadFull(META_LEN_SIZE);
        if !ok1 { return Bad(ShortMetaLen, rest); }
        ok1, meta := ReadFull(Val16(ml));
        if !ok1 { return Bad(ShortMeta, rest); }
      }
      if payloadLen > 0 {
        var ok2, p := ReadFull(payloadLen);
        if !ok2 { return Bad(ShortPayload, rest); }
        payload := p;
      }
      r := Got(Frame(version, flags, ty, sid, meta, payload), rest);
    }
  }

  // ---- one frame: where its bytes are ----------------------------------------

  /** The wire format, byte by byte: magic, version, the flag bits, type, a reserved byte, the two big-endian numbers,
      then the metadata behind its length, if it is flagged or present, and the payload. */
  lemma {:induction false} Layout(f: Frame)
    requires Fits(f)
    ensures var e, m := Encode(f), |f.meta|;
      var flagged := f.flags.hasMeta || m > 0;
      var start := 14 + if flagged then 2 + m else 0;
      && |e| == start + |f.payload|
      && e[0] == 0x4A && e[1] == 0x53 && e[2] == f.version && e[4] == f.ty && e[5] == 0
      && e[3] == (if f.flags.compressed then 1 else 0) + (if f.flags.encrypted then 2 else 0)
        + (if flagged then 4 else 0) + (if f.flags.stream then 8 else 0) + (if f.flags.channel then 16 else 0)
        + 32 * f.flags.reserved
      && e[6] as int * 0x100_0000 + e[7] as int * 0x1_0000 + e[8] as int * 0x100 + e[9] == f.sid
      && e[10] as int * 0x100_0000 + e[11] as int * 0x1_0000 + e[12] as int * 0x100 + e[13] == |f.payload|
      && (flagged ==> e[14] as int * 0x100 + e[15] == m && e[16..start] == f.meta)
      && e[start..] == f.payload
  {
    var h, mp := Header(f), MetaPart(f);
    var e := Encode(f);
    assert e == h + mp + f.payload && e[..14] == h;
    BigEndian(f.sid);
    BigEndian(|f.payload|);
    assert h[6..10] == U32(f.sid) && h[10..14] == U32(|f.payload|);
    assert forall i :: 0 <= i < 14 ==> e[i] == h[i];
    if WireFlags(f).hasMeta {
      assert mp == U16(|f.meta|) + f.meta;
      assert e[14] == mp[0] && e[15] == mp[1] && e[16..16 + |f.meta|] == f.meta;
    }
  }

  lemma {:induction false} BigEndian(n: u32)
    ensures var b := U32(n); b[0] as int * 0x100_0000 + b[1] as int * 0x1_0000 + b[2] as int * 0x100 + b[3] == n
  {
    var hi, lo := n / 0x1_0000, n % 0x1_0000;
    U16Inverse(hi);
    U16Inverse(lo);
  }

  // ---- one frame: encode then parse ------------------------------------------

  /** The header fields sit where the parser looks for them. */
  lemma {:induction false} HeaderFields(f: Frame, tail: seq<u8>)
    requires Fits(f)
    ensures var h := (Header(f) + tail)[..HEADER_SIZE];
      && h == Header(f) && (Header(f) + tail)[HEADER_SIZE..] == tail
      && h[0] == MAGIC0 && h[1] == MAGIC1 && h[2] == f.version && ByteFlags(h[3]) == WireFlags(f) && h[4] == f.ty
      && Val32(h[6..10]) == f.sid && Val32(h[10..14]) == |f.payload|
  {
    var h := Header(f);
    assert h[6..10] == U32(f.sid);
    assert h[10..14] == U32(|f.payload|);
    FlagByteInverse(WireFlags(f));
    U32Inverse(f.sid);
    U32Inverse(|f.payload|);
  }

  lemma {:induction false} BodyRoundTrip(f: Frame, tail: seq<u8>)
    requires Fits(f)
    ensures ParseBody(Header(f), MetaPart(f) + f.payload + tail) == Got(Normal(f), tail)
  {
    HeaderFields(f, []);
    assert Header(f) + [] == Header(f);
    var body := MetaPart(f) + f.payload + tail;
    var after := f.meta + f.payload + tail;
    assert (f.payload + tail)[..|f.payload|] == f.payload && (f.payload + tail)[|f.payload|..] == tail;
    if WireFlags(f).hasMeta {
      U16Inverse(|f.meta|);
      assert body == U16(|f.meta|) + after;
      assert body[..2] == U16(|f.meta|) && body[2..] == after;
      assert after[..|f.meta|] == f.meta && after[|f.meta|..] == f.payload + tail;
    } else {
      assert f.meta == [];
      assert body == f.payload + tail;
    }
  }

  /** A frame that can be encoded reads back as itself, and exactly the inadmissible ones are refused. */
  lemma {:induction false} ParseEncode(f: Frame, tail: seq<u8>)
    requires Fits(f)
    ensures Admissible(f) ==> Parse(Encode(f) + tail) == Got(Normal(f), tail)
    ensures Parse(Encode(f) + tail).Got? <==> Admissible(f)
  {
    var body := MetaPart(f) + f.payload + tail;
    assert Encode(f) + tail == Header(f) + body;
    HeaderFields(f, body);
    BodyRoundTrip(f, tail);
  }

  // ---- one frame: parse then encode ------------------------------------------

  lemma {:induction false} ParsedShape(b: seq<u8>)
    requires Parse(b).Got?
    ensures |b| >= HEADER_SIZE && HeaderFault(b[..HEADER_SIZE]).None?
    ensures Parse(b) == ParseBody(b[..HEADER_SIZE], b[HEADER_SIZE..])
    ensures var f := Parse(b).frame; Fits(f) && Admissible(f) && Normal(f) == f
  {
  }

  lemma {:induction false} ParsedHeader(h: seq<u8>, f: Frame)
    requires |h| == HEADER_SIZE && HeaderFault(h).None? && Fits(f) && Normal(f) == f
    requires f.version == h[2] && f.flags == ByteFlags(h[3]) && f.ty == h[4]
    requires f.sid == Val32(h[6..10]) && |f.payload| == Val32(h[10..14])
    ensures Header(f) == h[5 := 0]
  {
    Val32Inverse(h[6..10]);
    Val32Inverse(h[10..14]);
    ByteFlagsInverse(h[3]);
    assert h[5 := 0] == [h[0], h[1], h[2], h[3], h[4], 0] + h[6..10] + h[10..14];
  }

  lemma {:induction false} ParsedMeta(body: seq<u8>)
    requires |body| >= 2 && Val16(body[..2]) <= |body[2..]|
    ensures var n := Val16(body[..2]); var after := body[2..];
      body == U16(n) + after[..n] + after[n..]
  {
    Val16Inverse(body[..2]);
    var n, after := Val16(body[..2]), body[2..];
    assert body == body[..2] + after;
    assert after == after[..n] + after[n..];
  }

  lemma {:induction false} ParsedBody(h: seq<u8>, body: seq<u8>)
    requires |h| == HEADER_SIZE && HeaderFault(h).None? && ParseBody(h, body).Got?
    ensures var f := ParseBody(h, body).frame;
      Fits(f) && body == MetaPart(f) + (f.payload + ParseBody(h, body).rest)
  {
    var f, rest := ParseBody(h, body).frame, ParseBody(h, body).rest;
    if ByteFlags(h[3]).hasMeta {
      ParsedMeta(body);
      var after := body[2..];
      assert after[|f.meta|..] == f.payload + rest;
      assert MetaPart(f) == U16(|f.meta|) + f.meta;
    } else {
      assert body == f.payload + rest;
    }
  }

  lemma {:induction false} ParsedPieces(h: seq<u8>, body: seq<u8>) returns (m: seq<u8>)
    requires |h| == HEADER_SIZE && HeaderFault(h).None? && ParseBody(h, body).Got?
    requires Normal(ParseBody(h, body).frame) == ParseBody(h, body).frame
    ensures var f := ParseBody(h, body).frame;
      Fits(f) && Encode(f) == h[5 := 0] + m && body == m + ParseBody(h, body).rest
  {
    var f, rest := ParseBody(h, body).frame, ParseBody(h, body).rest;
    ParsedBody(h, body);
    ParsedHeader(h, f);
    m := MetaPart(f) + f.payload;
    assert MetaPart(f) + (f.payload + rest) == m + rest;
    assert Header(f) + MetaPart(f) + f.payload == Header(f) + m;
  }

  /** Everything ReadFrame accepts is the encoding of what it returned, the reserved byte aside. */
  lemma {:induction false} EncodeParse(b: seq<u8>)
    requires Parse(b).Got?
    ensures var f := Parse(b).frame;
      var used := |b| - |Parse(b).rest|;
      && Fits(f) && Admissible(f) && Normal(f) == f
      && HEADER_SIZE <= used && Parse(b).rest == b[used..]
      && Encode(f) == b[..used][5 := 0]
  {
    ParsedShape(b);
    var f, rest := Parse(b).frame, Parse(b).rest;
    var m := ParsedPieces(b[..HEADER_SIZE], b[HEADER_SIZE..]);
    Splice(b, b[..HEADER_SIZE], m, rest);
  }

  lemma {:induction false} Splice(b: seq<u8>, h: seq<u8>, m: seq<u8>, rest: seq<u8>)
    requires |h| == HEADER_SIZE && b == h + (m + rest)
    ensures var used := |b| - |rest|; used == |h| + |m| && b[used..] == rest && b[..used][5 := 0] == h[5 := 0] + m
  {
    assert b == (h + m) + rest;
    assert b[..|h| + |m|] == h + m;
  }

  /** No proper prefix of an encoding parses: a cut frame is always recognised as cut, never misread. */
  lemma {:induction false} PrefixFree(f: Frame, k: nat)
    requires Fits(f) && Admissible(f) && k < |Encode(f)|
    ensures Parse(Encode(f)[..k]).Bad? && Parse(Encode(f)[..k]).rest == []
  {
    var cut := Encode(f)[..k];
    if k >= HEADER_SIZE {
      var m := MetaPart(f) + f.payload;
      HeaderFields(f, m);
      assert Encode(f) == Header(f) + m;
      assert cut[..HEADER_SIZE] == Header(f) && cut[HEADER_SIZE..] == m[..k - HEADER_SIZE];
      CutBody(f, k - HEADER_SIZE);
    }
  }

  lemma {:induction false} CutBody(f: Frame, j: nat)
    requires Fits(f) && j < |MetaPart(f) + f.payload|
    ensures ParseBody(Header(f), (MetaPart(f) + f.payload)[..j]) in {Bad(ShortMetaLen, []), Bad(ShortMeta, []),
      Bad(ShortPayload, [])}
  {
    HeaderFields(f, []);
    assert Header(f) + [] == Header(f);
    var body := (MetaPart(f) + f.payload)[..j];
    if WireFlags(f).hasMeta && j >= 2 {
      assert body[..2] == U16(|f.meta|) by {
        assert MetaPart(f)[..2] == U16(|f.meta|);
      }
      U16Inverse(|f.meta|);
    }
  }

  // ---- many frames on one stream ---------------------------------------------

  ghost predicate AllLegal(fs: seq<Frame>) {
    forall i :: 0 <= i < |fs| ==> Fits(fs[i]) && Admissible(fs[i])
  }

  function Flatten(chunks: seq<seq<u8>>): seq<u8> {
    if chunks == [] then [] else chunks[0] + Flatten(chunks[1..])
  }

  function Chunks(fs: seq<Frame>): (r: seq<seq<u8>>)
    requires forall i :: 0 <= i < |fs| ==> Fits(fs[i])
    ensures |r| == |fs| && forall i :: 0 <= i < |fs| ==> r[i] == Encode(fs[i])
  {
    seq(|fs|, i requires 0 <= i < |fs| => Encode(fs[i]))
  }

  /** What the write loop puts on the connection for a list of frames. */
  function EncodeAll(fs: seq<Frame>): seq<u8>
    requires forall i :: 0 <= i < |fs| ==> Fits(fs[i])
  {
    Flatten(Chunks(fs))
  }

  function NormalAll(fs: seq<Frame>): (r: seq<Frame>)
    ensures |r| == |fs| && forall i :: 0 <= i < |fs| ==> r[i] == Normal(fs[i])
  {
    seq(|fs|, i requires 0 <= i < |fs| => Normal(fs[i]))
  }

  /** ReadFrame repeated until it fails: the frames read, and the failure that ended it. */
  function ReadAll(b: seq<u8>): (r: (seq<Frame>, Malformed))
    decreases |b|
  {
    match Parse(b)
    case Bad(why, _) => ([], why)
    case Got(f, rest) => var (fs, why) := ReadAll(rest); ([f] + fs, why)
  }

  /** The chunk reads as frame n wherever it stands, and none of its proper prefixes reads as anything. */
  ghost predicate Delimits(chunk: seq<u8>, n: Frame) {
    && (forall t {:trigger Parse(chunk + t)} :: Parse(chunk + t) == Got(n, t))
    && (forall k {:trigger chunk[..k]} :: 0 <= k < |chunk| ==> ReadAll(chunk[..k]).0 == [])
  }

  lemma EncodeDelimits(f: Frame)
    requires Fits(f) && Admissible(f)
    ensures Delimits(Encode(f), Normal(f))
  {
    forall t ensures Parse(Encode(f) + t) == Got(Normal(f), t) {
      ParseEncode(f, t);
    }
    forall k | 0 <= k < |Encode(f)| ensures ReadAll(Encode(f)[..k]).0 == [] {
      PrefixFree(f, k);
    }
  }

  ghost predicate AllDelimit(chunks: seq<seq<u8>>, ns: seq<Frame>) {
    |chunks| == |ns| && forall i :: 0 <= i < |ns| ==> Delimits(chunks[i], ns[i])
  }

  lemma ChunksDelimit(fs: seq<Frame>)
    requires AllLegal(fs)
    ensures AllDelimit(Chunks(fs), NormalAll(fs))
  {
    forall i | 0 <= i < |fs| ensures Delimits(Chunks(fs)[i], NormalAll(fs)[i]) {
      EncodeDelimits(fs[i]);
    }
  }

  lemma ReadOne(chunk: seq<u8>, n: Frame, more: seq<u8>)
    requires Delimits(chunk, n)
    ensures ReadAll(chunk + more) == ([n] + ReadAll(more).0, ReadAll(more).1)
  {
    assert Parse(chunk + more) == Got(n, more);
  }

  lemma Assoc<T>(x: seq<T>, y: seq<T>, z: seq<T>)
    ensures x + y + z == x + (y + z)
  {
  }

  lemma {:induction false} ReadChunks(chunks: seq<seq<u8>>, ns: seq<Frame>, tail: seq<u8>)
    requires AllDelimit(chunks, ns)
    ensures ReadAll(Flatten(chunks) + tail) == (ns + ReadAll(tail).0, ReadAll(tail).1)
    decreases |chunks|
  {
    var out := ReadAll(tail);
    if chunks == [] {
      assert Flatten(chunks) + tail == tail && ns + out.0 == out.0;
    } else {
      var rest := Flatten(chunks[1..]);
      ReadChunks(chunks[1..], ns[1..], tail);
      ReadOne(chunks[0], ns[0], rest + tail);
      Assoc(chunks[0], rest, tail);
      Assoc([ns[0]], ns[1..], out.0);
      assert ns == [ns[0]] + ns[1..];
    }
  }

  /** A list of legal frames followed by anything reads back as the list, then as whatever the rest reads as. */
  lemma {:induction false} StreamRoundTrip(fs: seq<Frame>, tail: seq<u8>)
    requires AllLegal(fs)
    ensures ReadAll(EncodeAll(fs) + tail) == (NormalAll(fs) + ReadAll(tail).0, ReadAll(tail).1)
  {
    ChunksDelimit(fs);
    ReadChunks(Chunks(fs), NormalAll(fs), tail);
  }

  lemma ReadsBackWhole(fs: seq<Frame>)
    requires AllLegal(fs)
    ensures ReadAll(EncodeAll(fs)) == (NormalAll(fs), ShortHeader)
  {
    StreamRoundTrip(fs, []);
    assert EncodeAll(fs) + [] == EncodeAll(fs) && NormalAll(fs) + [] == NormalAll(fs);
  }

  lemma SameNormalSameChunks(fs: seq<Frame>, gs: seq<Frame>)
    requires AllLegal(fs) && AllLegal(gs) && NormalAll(fs) == NormalAll(gs)
    ensures Chunks(fs) == Chunks(gs)
  {
    assert |fs| == |NormalAll(fs)| == |gs|;
    forall i | 0 <= i < |fs| ensures Chunks(fs)[i] == Chunks(gs)[i] {
      assert NormalAll(fs)[i] == NormalAll(gs)[i];
    }
  }

  /** Nothing is left over after the last frame, and the byte stream determines the frames. */
  lemma UniquelyDecodable(fs: seq<Frame>, gs: seq<Frame>)
    requires AllLegal(fs) && AllLegal(gs)
    ensures ReadAll(EncodeAll(fs)) == (NormalAll(fs), ShortHeader)
    ensures EncodeAll(fs) == EncodeAll(gs) <==> NormalAll(fs) == NormalAll(gs)
  {
    ReadsBackWhole(fs);
    ReadsBackWhole(gs);
    if NormalAll(fs) == NormalAll(gs) {
      SameNormalSameChunks(fs, gs);
    }
  }

  /** How many whole chunks the first k bytes hold. */
  function Whole(chunks: seq<seq<u8>>, k: nat): (n: nat)
    ensures n <= |chunks|
  {
    if chunks == [] || k < |chunks[0]| then 0 else 1 + Whole(chunks[1..], k - |chunks[0]|)
  }

  lemma {:induction false} CutChunks(chunks: seq<seq<u8>>, ns: seq<Frame>, k: nat)
    requires AllDelimit(chunks, ns) && k <= |Flatten(chunks)|
    ensures ReadAll(Flatten(chunks)[..k]).0 == ns[..Whole(chunks, k)]
    decreases |chunks|
  {
    if chunks == [] {
      assert Flatten(chunks)[..k] == [];
    } else if k < |chunks[0]| {
      assert Flatten(chunks)[..k] == chunks[0][..k];
      NoFrameYet(chunks[0], ns[0], k);
    } else {
      var j := k - |chunks[0]|;
      var more := Flatten(chunks[1..])[..j];
      CutBehind(chunks[0], Flatten(chunks[1..]), k);
      CutChunks(chunks[1..], ns[1..], j);
      ReadOne(chunks[0], ns[0], more);
      PrefixOfCons(ns, Whole(chunks[1..], j));
    }
  }

  lemma NoFrameYet(chunk: seq<u8>, n: Frame, k: nat)
    requires Delimits(chunk, n) && k < |chunk|
    ensures ReadAll(chunk[..k]).0 == []
  {
  }

  lemma CutBehind(chunk: seq<u8>, rest: seq<u8>, k: nat)
    requires |chunk| <= k <= |chunk| + |rest|
    ensures (chunk + rest)[..k] == chunk + rest[..k - |chunk|]
  {
  }

  lemma PrefixOfCons(ns: seq<Frame>, n: nat)
    requires ns != [] && n <= |ns| - 1
    ensures [ns[0]] + ns[1..][..n] == ns[..n + 1]
  {
  }

  /** A connection that dies after k bytes has delivered exactly the frames those bytes complete:
      a prefix of what was written, each frame intact. */
  lemma CutStreamYieldsPrefix(fs: seq<Frame>, k: nat)
    requires AllLegal(fs) && k <= |EncodeAll(fs)|
    ensures ReadAll(EncodeAll(fs)[..k]).0 == NormalAll(fs)[..Whole(Chunks(fs), k)]
  {
    ChunksDelimit(fs);
    CutChunks(Chunks(fs), NormalAll(fs), k);
  }
}
