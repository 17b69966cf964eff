/** The DATA_CHANNEL_OPEN and DATA_CHANNEL_ACK messages of the WebRTC data
    channel establishment protocol: the encoder writes into an allocated byte
    buffer, the parser reads big-endian fields back out of one. */
module DataChannelOpen {
  import opened Integers
  import opened Wrappers

  const MESSAGE_TYPE_ACK: Byte := 0x02
  const MESSAGE_TYPE_OPEN_REQUEST: Byte := 0x03

  const CHANNEL_TYPE_RELIABLE: Byte := 0x00
  const CHANNEL_TYPE_REMIX: Byte := 0x01
  const CHANNEL_TYPE_TIMED: Byte := 0x02
  const CHANNEL_TYPE_UNORDERED: Byte := 0x80

  const OPEN_MIN_SIZE := 12
  const UNSET: GInt := -1

  const PRIORITIES: set<int> := {0, 128, 256, 512, 1024}

  /** What an OPEN carries, as a channel keeps it. UNSET marks a lifetime or a
      retransmit limit that does not apply. Strings are C strings: byte 0 ends them. */
  datatype Params = Params(
    ordered: bool,
    maxLifeTime: GInt,
    maxRetransmits: GInt,
    priority: UInt32,
    labelText: seq<Byte>,
    protocol: seq<Byte>)

  // ---- C conversions and strings ----

  function ToUInt32(x: GInt): UInt32 { if x < 0 then x + 0x1_0000_0000 else x }

  function ToGInt(x: UInt32): GInt { if x >= 0x8000_0000 then x - 0x1_0000_0000 else x }

  /** The bytes of a C string: everything before the first 0 byte. */
  function CString(s: seq<Byte>): (r: seq<Byte>)
    ensures r <= s && 0 !in r
    ensures |r| < |s| ==> s[|r|] == 0
  {
    if s == [] || s[0] == 0 then [] else [s[0]] + CString(s[1..])
  }

  lemma {:induction false} CStringFixed(s: seq<Byte>)
    ensures CString(s) == s <==> 0 !in s
  {
    if s != [] && s[0] != 0 {
      CStringFixed(s[1..]);
      assert s == [s[0]] + s[1..];
    }
  }

  // ---- Big-endian fields ----

  /** Byte k of x, counting from the least significant. */
  function ByteOf(x: UInt32, k: nat): Byte
    requires k < 4
  {
    if k == 0 then x % 0x100 else if k == 1 then x / 0x100 % 0x100
    else if k == 2 then x / 0x100 / 0x100 % 0x100 else x / 0x100 / 0x100 / 0x100
  }

  function Join16(hi: Byte, lo: Byte): UInt16 {
    var h: int := hi;
    h * 0x100 + lo
  }

  function Join32(b3: Byte, b2: Byte, b1: Byte, b0: Byte): UInt32 {
    var h: int := Join16(b3, b2);
    (h * 0x100 + b1) * 0x100 + b0
  }

  lemma Split16(x: UInt16)
    ensures Join16(ByteOf(x, 1), ByteOf(x, 0)) == x
  {
  }

  lemma Split32(x: UInt32)
    ensures Join32(ByteOf(x, 3), ByteOf(x, 2), ByteOf(x, 1), ByteOf(x, 0)) == x
  {
  }

  lemma Joined16(hi: Byte, lo: Byte)
    ensures ByteOf(Join16(hi, lo), 1) == hi && ByteOf(Join16(hi, lo), 0) == lo
  {
  }

  lemma Joined32(b3: Byte, b2: Byte, b1: Byte, b0: Byte)
    ensures var x := Join32(b3, b2, b1, b0);
            ByteOf(x, 3) == b3 && ByteOf(x, 2) == b2 && ByteOf(x, 1) == b1 && ByteOf(x, 0) == b0
  {
    var x: int, h: int := Join32(b3, b2, b1, b0), Join16(b3, b2);
    assert x / 0x100 == h * 0x100 + b1;
    assert x / 0x100 / 0x100 == h;
  }

  function ReadBE16(data: seq<Byte>, at: nat): UInt16
    requires at + 2 <= |data|
  {
    Join16(data[at], data[at + 1])
  }

  function ReadBE32(data: seq<Byte>, at: nat): UInt32
    requires at + 4 <= |data|
  {
    Join32(data[at], data[at + 1], data[at + 2], data[at + 3])
  }

  // ---- The encoder ----

  /** The fixed part of an OPEN, in network byte order. */
  function Header(channelType: Byte, reliability: UInt32, priority: UInt16,
                  labelLen: UInt16, protocolLen: UInt16): (h: seq<Byte>)
    ensures |h| == OPEN_MIN_SIZE
  {
    [MESSAGE_TYPE_OPEN_REQUEST, channelType, ByteOf(priority, 1), ByteOf(priority, 0),
     ByteOf(reliability, 3), ByteOf(reliability, 2), ByteOf(reliability, 1), ByteOf(reliability, 0),
     ByteOf(labelLen, 1), ByteOf(labelLen, 0), ByteOf(protocolLen, 1), ByteOf(protocolLen, 0)]
  }

  /** The wire image of one OPEN. */
  function OpenBytes(channelType: Byte, reliability: UInt32, priority: UInt16,
                     labelText: seq<Byte>, protocol: seq<Byte>): seq<Byte>
    requires |labelText| < 0x1_0000 && |protocol| < 0x1_0000
  {
    Header(channelType, reliability, priority, |labelText|, |protocol|) + labelText + protocol
  }

  method CreateOpenRequest(channelType: Byte, reliability: UInt32, priority: UInt16,
                           labelText: seq<Byte>, labelLen: UInt16,
                           protocol: seq<Byte>, protocolLen: UInt16)
    returns (buf: array<Byte>)
    requires labelLen <= |labelText| && protocolLen <= |protocol|
    ensures fresh(buf)
    ensures buf[..] == OpenBytes(channelType, reliability, priority, labelText[..labelLen], protocol[..protocolLen])
    ensures OnWire(buf[..], channelType, priority, reliability, labelText[..labelLen], protocol[..protocolLen])
  {
    buf := new Byte[OPEN_MIN_SIZE + labelLen + protocolLen];
    WriteHeader(buf, channelType, reliability, priority, labelLen, protocolLen);
    ghost var header := buf[..OPEN_MIN_SIZE];
    CopyInto(buf, OPEN_MIN_SIZE, labelText, labelLen);
    CopyInto(buf, OPEN_MIN_SIZE + labelLen, protocol, protocolLen);
    assert buf[..OPEN_MIN_SIZE] == buf[..OPEN_MIN_SIZE + labelLen][..OPEN_MIN_SIZE];
    assert buf[..] == buf[..OPEN_MIN_SIZE + labelLen] + buf[OPEN_MIN_SIZE + labelLen..];
    assert buf[..OPEN_MIN_SIZE + labelLen] == header + labelText[..labelLen];
    WrittenOnWire(channelType, reliability, priority, labelText[..labelLen], protocol[..protocolLen]);
  }

  method WriteHeader(buf: array<Byte>, channelType: Byte, reliability: UInt32, priority: UInt16,
                     labelLen: UInt16, protocolLen: UInt16)
    requires buf.Length >= OPEN_MIN_SIZE
    modifies buf
    ensures buf[..OPEN_MIN_SIZE] == Header(channelType, reliability, priority, labelLen, protocolLen)
  {
    buf[0] := MESSAGE_TYPE_OPEN_REQUEST;
    buf[1] := channelType;
    WriteUInt16(buf, 2, priority);
    WriteUInt32(buf, 4, reliability);
    WriteUInt16(buf, 8, labelLen);
    WriteUInt16(buf, 10, protocolLen);
  }

  /** Writes x big-endian at buf + at. */
  method WriteUInt16(buf: array<Byte>, at: nat, x: UInt16)
    requires at + 2 <= buf.Length
    modifies buf
    ensures buf[at] == ByteOf(x, 1) && buf[at + 1] == ByteOf(x, 0)
    ensures forall i :: 0 <= i < buf.Length && i != at && i != at + 1 ==> buf[i] == old(buf[i])
  {
    buf[at], buf[at + 1] := ByteOf(x, 1), ByteOf(x, 0);
  }

  method WriteUInt32(buf: array<Byte>, at: nat, x: UInt32)
    requires at + 4 <= buf.Length
    modifies buf
    ensures buf[at] == ByteOf(x, 3) && buf[at + 1] == ByteOf(x, 2)
    ensures buf[at + 2] == ByteOf(x, 1) && buf[at + 3] == ByteOf(x, 0)
    ensures forall i :: 0 <= i < buf.Length && !(at <= i < at + 4) ==> buf[i] == old(buf[i])
  {
    buf[at], buf[at + 1], buf[at + 2], buf[at + 3] := ByteOf(x, 3), ByteOf(x, 2), ByteOf(x, 1), ByteOf(x, 0);
  }

  /** memcpy of the first len bytes of src to buf + at. */
  method CopyInto(buf: array<Byte>, at: nat, src: seq<Byte>, len: nat)
    requires len <= |src| && at + len <= buf.Length
    modifies buf
    ensures buf[at..at + len] == src[..len]
    ensures buf[..at] == old(buf[..at]) && buf[at + len..] == old(buf[at + len..])
  {
    for i := 0 to len
      invariant buf[at..at + i] == src[..i]
      invariant buf[..at] == old(buf[..at]) && buf[at + len..] == old(buf[at + len..])
    {
      buf[at + i] := src[i];
      assert buf[at..at + i + 1] == buf[at..at + i] + [buf[at + i]];
    }
  }

  /** The channel type a bin computes from its properties (bits ored together). */
  function ChannelType(p: Params): Byte {
    (if p.ordered then CHANNEL_TYPE_RELIABLE else CHANNEL_TYPE_UNORDERED)
    + (if p.maxLifeTime != UNSET then CHANNEL_TYPE_TIMED else 0)
    + (if p.maxRetransmits != UNSET then CHANNEL_TYPE_REMIX else 0)
  }

  function Reliability(p: Params): UInt32 {
    var channelType := ChannelType(p);
    if channelType in {0x01, 0x81} then ToUInt32(p.maxRetransmits)
    else if channelType in {0x02, 0x82} then ToUInt32(p.maxLifeTime)
    else 0
  }

  /** A string cut to the 16 bits its length is passed in. */
  function Cut(s: seq<Byte>): (r: seq<Byte>)
    ensures |r| < 0x1_0000 && r <= CString(s) && 0 !in r
    ensures |s| < 0x1_0000 ==> r == CString(s)
  {
    var c := CString(s);
    c[..|c| % 0x1_0000]
  }

  /** The OPEN a bin with these properties sends; None is the "unsupported
      channel type" error of a bin with both limits set. */
  function Encode(p: Params): Option<seq<Byte>> {
    if ChannelType(p) in {0x00, 0x80, 0x01, 0x81, 0x02, 0x82} then
      Some(OpenBytes(ChannelType(p), Reliability(p), p.priority % 0x1_0000, Cut(p.labelText), Cut(p.protocol)))
    else
      None
  }

  // ---- The parser ----

  /** What a channel stores from the fields of an OPEN; None for an unknown priority. */
  function Interpret(channelType: Byte, priority: UInt16, reliability: UInt32,
                     labelText: seq<Byte>, protocol: seq<Byte>): Option<Params> {
    if priority !in PRIORITIES then None
    else
      Some(Params(
             channelType < CHANNEL_TYPE_UNORDERED,
             if channelType in {0x02, 0x82} then ToGInt(reliability) else UNSET,
             if channelType in {0x01, 0x81} then ToGInt(reliability) else UNSET,
             priority, CString(labelText), CString(protocol)))
  }

  /** What handling an OPEN stores; None is a message that resets the channel. */
  function Parse(data: seq<Byte>): Option<Params> {
    if |data| < OPEN_MIN_SIZE then None
    else
      var labelLen := ReadBE16(data, 8);
      if |data| != OPEN_MIN_SIZE + labelLen + ReadBE16(data, 10) then None
      else
        Interpret(data[1], ReadBE16(data, 2), ReadBE32(data, 4),
                  data[12..12 + labelLen], data[12 + labelLen..])
  }

  // ---- The two are inverse to each other, exactly on these domains ----

  predicate RoundTrips(p: Params) {
    && (p.maxLifeTime == UNSET || p.maxRetransmits == UNSET)
    && p.priority in PRIORITIES
    && 0 !in p.labelText && |p.labelText| < 0x1_0000
    && 0 !in p.protocol && |p.protocol| < 0x1_0000
  }

  predicate CanonicalFields(channelType: Byte, reliability: UInt32, labelText: seq<Byte>, protocol: seq<Byte>) {
    && (if channelType in {0x00, 0x80} then reliability == 0
        else channelType in {0x01, 0x02, 0x81, 0x82} && reliability != 0xFFFF_FFFF)
    && 0 !in labelText && 0 !in protocol
  }

  predicate Canonical(m: seq<Byte>)
    requires Parse(m).Some?
  {
    var labelLen := ReadBE16(m, 8);
    && m[0] == MESSAGE_TYPE_OPEN_REQUEST
    && CanonicalFields(m[1], ReadBE32(m, 4), m[12..12 + labelLen], m[12 + labelLen..])
  }

  lemma ReadBack(channelType: Byte, reliability: UInt32, priority: UInt16, labelText: seq<Byte>, protocol: seq<Byte>)
    requires |labelText| < 0x1_0000 && |protocol| < 0x1_0000
    ensures var m := OpenBytes(channelType, reliability, priority, labelText, protocol);
            && |m| == OPEN_MIN_SIZE + |labelText| + |protocol|
            && m[0] == MESSAGE_TYPE_OPEN_REQUEST && m[1] == channelType
            && ReadBE16(m, 2) == priority && ReadBE32(m, 4) == reliability
            && ReadBE16(m, 8) == |labelText| && ReadBE16(m, 10) == |protocol|
            && m[12..12 + |labelText|] == labelText && m[12 + |labelText|..] == protocol
  {
    var h := Header(channelType, reliability, priority, |labelText|, |protocol|);
    var m := OpenBytes(channelType, reliability, priority, labelText, protocol);
    assert m == h + (labelText + protocol);
    assert forall i :: 0 <= i < 12 ==> m[i] == h[i];
    Split16(priority);
    Split32(reliability);
    Split16(|labelText|);
    Split16(|protocol|);
  }

  // ---- The message as the standard lays it out ----

  /** The number two, or four, bytes stand for, the most significant first. */
  function Big16(m: seq<Byte>, at: nat): int
    requires at + 2 <= |m|
  {
    var b1: int, b0: int := m[at], m[at + 1];
    b1 * 256 + b0
  }

  function Big32(m: seq<Byte>, at: nat): int
    requires at + 4 <= |m|
  {
    var b3: int, b2: int, b1: int, b0: int := m[at], m[at + 1], m[at + 2], m[at + 3];
    b3 * 16777216 + b2 * 65536 + b1 * 256 + b0
  }

  /** A message with these fields, each at its offset: type, channel type, priority, reliability
      parameter, the two lengths, label and protocol (section 5.1 of RFC 8832). */
  predicate OnWire(m: seq<Byte>, channelType: int, priority: int, reliability: int,
                   labelText: seq<Byte>, protocol: seq<Byte>) {
    && |m| == 12 + |labelText| + |protocol|
    && m[0] == 3 && m[1] == channelType
    && Big16(m, 2) == priority && Big32(m, 4) == reliability
    && Big16(m, 8) == |labelText| && Big16(m, 10) == |protocol|
    && m[12..12 + |labelText|] == labelText && m[12 + |labelText|..] == protocol
  }

  lemma Read16(m: seq<Byte>, at: nat)
    requires at + 2 <= |m|
    ensures ReadBE16(m, at) == Big16(m, at)
  {
  }

  lemma Read32(m: seq<Byte>, at: nat)
    requires at + 4 <= |m|
    ensures ReadBE32(m, at) == Big32(m, at)
  {
    var h: int, b1: int := Join16(m[at], m[at + 1]), m[at + 2];
    assert (h * 256 + b1) * 256 == h * 65536 + b1 * 256;
  }

  lemma WrittenOnWire(channelType: Byte, reliability: UInt32, priority: UInt16,
                      labelText: seq<Byte>, protocol: seq<Byte>)
    requires |labelText| < 0x1_0000 && |protocol| < 0x1_0000
    ensures OnWire(OpenBytes(channelType, reliability, priority, labelText, protocol),
                   channelType, priority, reliability, labelText, protocol)
  {
    var m := OpenBytes(channelType, reliability, priority, labelText, protocol);
    ReadBack(channelType, reliability, priority, labelText, protocol);
    Read16(m, 2);
    Read32(m, 4);
    Read16(m, 8);
    Read16(m, 10);
  }

  /** Any accepted message is the image of the fields read out of it. */
  lemma WriteBack(m: seq<Byte>)
    requires |m| >= OPEN_MIN_SIZE && m[0] == MESSAGE_TYPE_OPEN_REQUEST
    requires |m| == OPEN_MIN_SIZE + ReadBE16(m, 8) + ReadBE16(m, 10)
    ensures var labelLen := ReadBE16(m, 8);
            m == OpenBytes(m[1], ReadBE32(m, 4), ReadBE16(m, 2), m[12..12 + labelLen], m[12 + labelLen..])
  {
    var labelLen, protocolLen := ReadBE16(m, 8), ReadBE16(m, 10);
    var h := Header(m[1], ReadBE32(m, 4), ReadBE16(m, 2), labelLen, protocolLen);
    Joined16(m[2], m[3]);
    Joined32(m[4], m[5], m[6], m[7]);
    Joined16(m[8], m[9]);
    Joined16(m[10], m[11]);
    assert m[..12] == h;
    assert m == m[..12] + m[12..12 + labelLen] + m[12 + labelLen..];
  }

  lemma ParseImage(channelType: Byte, reliability: UInt32, priority: UInt16, labelText: seq<Byte>, protocol: seq<Byte>)
    requires |labelText| < 0x1_0000 && |protocol| < 0x1_0000
    ensures Parse(OpenBytes(channelType, reliability, priority, labelText, protocol))
         == Interpret(channelType, priority, reliability, labelText, protocol)
  {
    ReadBack(channelType, reliability, priority, labelText, protocol);
  }

  /** Field by field, what is sent is canonical. */
  lemma EncodedFields(p: Params)
    requires p.maxLifeTime == UNSET || p.maxRetransmits == UNSET
    ensures Encode(p).Some?
    ensures CanonicalFields(ChannelType(p), Reliability(p), Cut(p.labelText), Cut(p.protocol))
  {
  }

  /** Field by field, what is sent is stored as it was, with strings cut. */
  lemma InterpretEncoded(p: Params)
    requires p.maxLifeTime == UNSET || p.maxRetransmits == UNSET
    requires p.priority in PRIORITIES
    ensures p.priority % 0x1_0000 == p.priority
    ensures Interpret(ChannelType(p), p.priority, Reliability(p), Cut(p.labelText), Cut(p.protocol))
         == Some(p.(labelText := Cut(p.labelText), protocol := Cut(p.protocol)))
  {
    CStringFixed(Cut(p.labelText));
    CStringFixed(Cut(p.protocol));
  }

  /** Parsing what was encoded gives back every field, whatever the strings: only
      over-long ones are cut, to their length modulo 65536. */
  lemma ParseEncoded(p: Params)
    requires p.maxLifeTime == UNSET || p.maxRetransmits == UNSET
    requires p.priority in PRIORITIES
    ensures Encode(p).Some?
    ensures |Encode(p).value| >= OPEN_MIN_SIZE && Encode(p).value[0] == MESSAGE_TYPE_OPEN_REQUEST
    ensures Parse(Encode(p).value) == Some(p.(labelText := Cut(p.labelText), protocol := Cut(p.protocol)))
  {
    InterpretEncoded(p);
    ParseImage(ChannelType(p), Reliability(p), p.priority, Cut(p.labelText), Cut(p.protocol));
    assert Encode(p) == Some(OpenBytes(ChannelType(p), Reliability(p), p.priority, Cut(p.labelText), Cut(p.protocol)));
    EncodedStart(p);
  }

  lemma EncodedStart(p: Params)
    requires Encode(p).Some?
    ensures |Encode(p).value| >= OPEN_MIN_SIZE && Encode(p).value[0] == MESSAGE_TYPE_OPEN_REQUEST
  {
    ReadBack(ChannelType(p), Reliability(p), p.priority % 0x1_0000, Cut(p.labelText), Cut(p.protocol));
  }

  lemma ReencodedIsCanonical(m: seq<Byte>, p: Params)
    requires Parse(m) == Some(p) && Encode(p) == Some(m)
    requires p.maxLifeTime == UNSET || p.maxRetransmits == UNSET
    ensures Canonical(m)
  {
    EncodedFields(p);
    ReadBack(ChannelType(p), Reliability(p), p.priority % 0x1_0000, Cut(p.labelText), Cut(p.protocol));
  }

  lemma CutFixed(s: seq<Byte>)
    ensures Cut(s) == s <==> 0 !in s && |s| < 0x1_0000
  {
    CStringFixed(s);
  }

  lemma RoundTrip(p: Params)
    ensures (Encode(p).Some? && Parse(Encode(p).value) == Some(p)) <==> RoundTrips(p)
  {
    CutFixed(p.labelText);
    CutFixed(p.protocol);
    if p.maxLifeTime != UNSET && p.maxRetransmits != UNSET {
      assert Encode(p).None?;
    } else if p.priority in PRIORITIES {
      ParseEncoded(p);
    } else if Encode(p).Some? {
      ParseImage(ChannelType(p), Reliability(p), p.priority % 0x1_0000, Cut(p.labelText), Cut(p.protocol));
    }
  }

  /** A message the parser accepts is encoded again byte for byte exactly when it is canonical. */
  lemma Reencode(m: seq<Byte>)
    requires Parse(m).Some?
    ensures Encode(Parse(m).value) == Some(m) <==> Canonical(m)
  {
    var labelLen := ReadBE16(m, 8);
    var labelText, protocol := m[12..12 + labelLen], m[12 + labelLen..];
    if Canonical(m) {
      WriteBack(m);
      CanonicalFieldsKept(m[1], ReadBE32(m, 4), ReadBE16(m, 2), labelText, protocol);
    }
    if Encode(Parse(m).value) == Some(m) {
      ReencodedIsCanonical(m, Parse(m).value);
    }
  }

  lemma CanonicalFieldsKept(channelType: Byte, reliability: UInt32, priority: UInt16,
                            labelText: seq<Byte>, protocol: seq<Byte>)
    requires |labelText| < 0x1_0000 && |protocol| < 0x1_0000 && priority in PRIORITIES
    requires CanonicalFields(channelType, reliability, labelText, protocol)
    ensures Encode(Interpret(channelType, priority, reliability, labelText, protocol).value)
         == Some(OpenBytes(channelType, reliability, priority, labelText, protocol))
  {
    var p := Interpret(channelType, priority, reliability, labelText, protocol).value;
    CanonicalFieldsRead(channelType, reliability, priority, labelText, protocol);
    assert Encode(p) == Some(OpenBytes(ChannelType(p), Reliability(p), p.priority, Cut(p.labelText), Cut(p.protocol)));
  }

  lemma CanonicalFieldsRead(channelType: Byte, reliability: UInt32, priority: UInt16,
                            labelText: seq<Byte>, protocol: seq<Byte>)
    requires |labelText| < 0x1_0000 && |protocol| < 0x1_0000 && priority in PRIORITIES
    requires CanonicalFields(channelType, reliability, labelText, protocol)
    ensures var p := Interpret(channelType, priority, reliability, labelText, protocol).value;
            && ChannelType(p) == channelType && Reliability(p) == reliability
            && p.priority == priority == priority % 0x1_0000
            && Cut(p.labelText) == labelText && Cut(p.protocol) == protocol
  {
    CStringFixed(labelText);
    CStringFixed(protocol);
    CutFixed(labelText);
    CutFixed(protocol);
  }
}
