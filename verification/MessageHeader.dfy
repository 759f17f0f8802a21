/** The common header of every message (section 13.3 of IEEE 1588-2019) and the fields shared by bodies. */
module MessageHeader {
  import opened Prelude
  import opened DataSets
  import opened Bytes

  const HEADER_SIZE := 34

  // ----- fields -----

  function PutPort(p: PortIdentity): (r: seq<u8>)
    ensures |r| == 10
  {
    Put(8, p.clock) + Put(2, p.port)
  }

  function GetPort(s: seq<u8>): PortIdentity
    requires |s| == 10
  {
    PortIdentity(Get64(s[0..8]), Get16(s[8..10]))
  }

  lemma PortRoundTrip(p: PortIdentity)
    ensures GetPort(PutPort(p)) == p
  {
    Powers();
    GetPut(8, p.clock);
    GetPut(2, p.port);
    assert PutPort(p)[0..8] == Put(8, p.clock) && PutPort(p)[8..10] == Put(2, p.port);
  }

  function PutTime(t: WireTimestamp): (r: seq<u8>)
    ensures |r| == 10
  {
    Put(6, t.seconds) + Put(4, t.nanos)
  }

  function GetTime(s: seq<u8>): WireTimestamp
    requires |s| == 10
  {
    WireTimestamp(Get48(s[0..6]), Get32(s[6..10]))
  }

  lemma TimeRoundTrip(t: WireTimestamp)
    ensures GetTime(PutTime(t)) == t
  {
    Powers();
    GetPut(6, t.seconds);
    GetPut(4, t.nanos);
    assert PutTime(t)[0..6] == Put(6, t.seconds) && PutTime(t)[6..10] == Put(4, t.nanos);
  }

  function PutI64(x: i64): (r: seq<u8>)
    ensures |r| == 8
  {
    Powers(); PutSigned(8, x)
  }

  function GetI64(s: seq<u8>): i64
    requires |s| == 8
  {
    Powers(); GetSigned(s)
  }

  function PutI8(x: i8): u8 { if x < 0 then x + 0x100 else x }

  function GetI8(b: u8): i8 { if b < 0x80 then b else b - 0x100 }

  // ----- the header -----

  function FlagsLow(h: Header): seq<bool> {
    [h.alternateMaster, h.twoStep, h.unicast, false, false, h.profile1, h.profile2]
  }

  function FlagsHigh(h: Header): seq<bool> {
    [h.leap61, h.leap59, h.utcOffsetValid, h.ptpTimescale, h.timeTraceable, h.frequencyTraceable, h.synchronizationUncertain]
  }

  function FlagByte(flags: seq<bool>): u8
    requires |flags| == 7
  {
    TwoToSeven(); Bits(flags)
  }

  function ControlField(kind: u4): u8 {
    if kind == 0 then 0 else if kind == 1 then 1 else if kind == 8 then 2 else if kind == 9 then 3
    else if kind == 0xd then 4 else 5
  }

  function Nibbles(high: u4, low: u4): (r: u8)
    ensures r / 0x10 == high && r % 0x10 == low
  {
    high * 0x10 + low
  }

  function StartBytes(h: Header, kind: u4, length: u16): (r: seq<u8>)
    ensures |r| == 8
  {
    [Nibbles(h.sdoId / 0x100, kind), Nibbles(h.minor, h.major)]
    + Put(2, length)
    + [h.domain, h.sdoId % 0x100, FlagByte(FlagsLow(h)), FlagByte(FlagsHigh(h))]
  }

  function EndBytes(h: Header, kind: u4): (r: seq<u8>)
    ensures |r| == 14
  {
    PutPort(h.source) + Put(2, h.sequenceId) + [ControlField(kind), PutI8(h.logInterval)]
  }

  /** The length field keeps 16 bits. */
  function HeaderBytes(h: Header, kind: u4, length: nat): (r: seq<u8>)
    ensures |r| == HEADER_SIZE
  {
    StartBytes(h, kind, length % 0x1_0000) + PutI64(h.correction) + [0, 0, 0, 0] + EndBytes(h, kind)
  }

  function SdoId(high: u4, low: u8): (r: u12)
    ensures r / 0x100 == high && r % 0x100 == low
  {
    high * 0x100 + low
  }

  function ReadHeader(s: seq<u8>): Header
    requires |s| >= HEADER_SIZE
  {
    Header(
      SdoId(s[0] / 0x10, s[5]), s[1] % 0x10, s[1] / 0x10, s[4],
      Bit(s[6], 0), Bit(s[6], 1), Bit(s[6], 2), Bit(s[6], 5), Bit(s[6], 6),
      Bit(s[7], 0), Bit(s[7], 1), Bit(s[7], 2), Bit(s[7], 3), Bit(s[7], 4), Bit(s[7], 5), Bit(s[7], 6),
      GetI64(s[8..16]), GetPort(s[20..30]), Get16(s[30..32]), GetI8(s[33]))
  }

  function KindField(s: seq<u8>): u4
    requires |s| >= HEADER_SIZE
  {
    s[0] % 0x10
  }

  function LengthField(s: seq<u8>): u16
    requires |s| >= HEADER_SIZE
  {
    Get16(s[2..4])
  }

  lemma Slices(a: seq<u8>, b: seq<u8>, c: seq<u8>, d: seq<u8>, rest: seq<u8>)
    requires |a| == 8 && |b| == 8 && |c| == 4 && |d| == 14
    ensures var s := a + b + c + d + rest;
            s[0..8] == a && s[8..16] == b && s[16..20] == c && s[20..34] == d
  {}

  lemma StartSlices(h: Header, kind: u4, length: u16, s: seq<u8>)
    requires |s| >= HEADER_SIZE && s[0..8] == StartBytes(h, kind, length)
    ensures s[0] == Nibbles(h.sdoId / 0x100, kind) && s[1] == Nibbles(h.minor, h.major) && s[2..4] == Put(2, length)
    ensures s[4] == h.domain && s[5] == h.sdoId % 0x100 && s[6] == FlagByte(FlagsLow(h)) && s[7] == FlagByte(FlagsHigh(h))
  {
    assert forall k :: 0 <= k < 8 ==> s[k] == s[0..8][k];
    SubSlice(s, 0, 8, 2, 4);
  }

  lemma EndSlices(h: Header, kind: u4, s: seq<u8>)
    requires |s| >= HEADER_SIZE && s[20..34] == EndBytes(h, kind)
    ensures s[20..30] == PutPort(h.source) && s[30..32] == Put(2, h.sequenceId) && s[33] == PutI8(h.logInterval)
  {
    SubSlice(s, 20, 34, 0, 10);
    SubSlice(s, 20, 34, 10, 12);
    assert s[33] == s[20..34][13];
  }

  lemma FlagsRoundTrip(flags: seq<bool>)
    requires |flags| == 7
    ensures forall k :: 0 <= k < 7 ==> Bit(FlagByte(flags), k) == flags[k]
  {
    forall k | 0 <= k < 7 ensures Bit(FlagByte(flags), k) == flags[k] {
      BitsAt(flags, k);
    }
  }

  lemma NumberRoundTrip(v: u16)
    ensures Get16(Put(2, v)) == v
  {
    Powers();
    GetPut(2, v);
  }

  lemma StartFields(h: Header, kind: u4, length: u16, s: seq<u8>)
    requires |s| >= HEADER_SIZE && s[0..8] == StartBytes(h, kind, length)
    ensures KindField(s) == kind && LengthField(s) == length && SdoId(s[0] / 0x10, s[5]) == h.sdoId
    ensures s[1] % 0x10 == h.major && s[1] / 0x10 == h.minor && s[4] == h.domain
    ensures forall k :: 0 <= k < 7 ==> Bit(s[6], k) == FlagsLow(h)[k] && Bit(s[7], k) == FlagsHigh(h)[k]
  {
    StartSlices(h, kind, length, s);
    NumberRoundTrip(length);
    FlagsRoundTrip(FlagsLow(h));
    FlagsRoundTrip(FlagsHigh(h));
  }

  lemma EndFields(h: Header, kind: u4, s: seq<u8>)
    requires |s| >= HEADER_SIZE && s[20..34] == EndBytes(h, kind)
    ensures GetPort(s[20..30]) == h.source && Get16(s[30..32]) == h.sequenceId && GetI8(s[33]) == h.logInterval
  {
    EndSlices(h, kind, s);
    NumberRoundTrip(h.sequenceId);
    PortRoundTrip(h.source);
  }

  lemma CorrectionRoundTrip(x: i64)
    ensures GetI64(PutI64(x)) == x
  {
    Powers();
    GetPutSigned(8, x);
  }

  lemma HeaderFields(h: Header, kind: u4, length: u16, s: seq<u8>)
    requires |s| >= HEADER_SIZE && s[0..8] == StartBytes(h, kind, length)
    requires s[8..16] == PutI64(h.correction) && s[20..34] == EndBytes(h, kind)
    ensures ReadHeader(s) == h && KindField(s) == kind && LengthField(s) == length
  {
    StartFields(h, kind, length, s);
    EndFields(h, kind, s);
    CorrectionRoundTrip(h.correction);
  }

  /** The fields come back from the bytes, whatever follows. */
  lemma HeaderRoundTrip(h: Header, kind: u4, length: u16, rest: seq<u8>)
    ensures var s := HeaderBytes(h, kind, length) + rest;
            ReadHeader(s) == h && KindField(s) == kind && LengthField(s) == length
  {
    var s := HeaderBytes(h, kind, length) + rest;
    Slices(StartBytes(h, kind, length), PutI64(h.correction), [0, 0, 0, 0], EndBytes(h, kind), rest);
    HeaderFields(h, kind, length, s);
  }

  method SerializeStart(h: Header, kind: u4, length: u16, buffer: array<u8>)
    requires buffer.Length >= HEADER_SIZE
    modifies buffer
    ensures buffer[..8] == StartBytes(h, kind, length)
    ensures forall k :: 8 <= k < buffer.Length ==> buffer[k] == old(buffer[k])
  {
    Write(buffer, 0, [Nibbles(h.sdoId / 0x100, kind), Nibbles(h.minor, h.major)]);
    Write(buffer, 2, Put(2, length));
    Write(buffer, 4, [h.domain, h.sdoId % 0x100, FlagByte(FlagsLow(h)), FlagByte(FlagsHigh(h))]);
  }

  method SerializeEnd(h: Header, kind: u4, buffer: array<u8>)
    requires buffer.Length >= HEADER_SIZE
    modifies buffer
    ensures buffer[..HEADER_SIZE] == old(buffer[..20]) + EndBytes(h, kind)
    ensures forall k :: HEADER_SIZE <= k < buffer.Length ==> buffer[k] == old(buffer[k])
  {
    Write(buffer, 20, PutPort(h.source));
    Write(buffer, 30, Put(2, h.sequenceId));
    Write(buffer, 32, [ControlField(kind), PutI8(h.logInterval)]);
  }

  /** Field by field into the buffer, as one sequence of bytes. */
  method SerializeHeader(h: Header, kind: u4, contentLength: nat, buffer: array<u8>)
    requires buffer.Length >= HEADER_SIZE
    modifies buffer
    ensures buffer[..HEADER_SIZE] == HeaderBytes(h, kind, contentLength + HEADER_SIZE)
    ensures forall k :: HEADER_SIZE <= k < buffer.Length ==> buffer[k] == old(buffer[k])
  {
    SerializeStart(h, kind, (contentLength + HEADER_SIZE) % 0x1_0000, buffer);
    Write(buffer, 8, PutI64(h.correction));
    Write(buffer, 16, [0, 0, 0, 0]);
    SerializeEnd(h, kind, buffer);
  }
}
