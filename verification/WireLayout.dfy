/** Where every field is on the wire, byte by byte: the tables of sections 13.3, 13.5 and 14.1 of
    IEEE 1588-2019, against which writing and reading back alone could not tell swapped fields. */
module WireLayout {
  import opened Prelude
  import opened DataSets
  import opened Bytes
  import opened MessageHeader
  import opened Messages
  import TlvSets

  /** The number in two bytes. */
  function TwoBytes(b: seq<u8>, at: nat): int
    requires at + 2 <= |b|
  {
    0x100 * (b[at] as int) + b[at + 1] as int
  }

  /** In any number of bytes the first one counts most. */
  lemma {:induction false} BigEndian(s: seq<u8>)
    requires |s| > 0
    ensures Bytes.Get(s) == s[0] * Power(|s| - 1) + Bytes.Get(s[1..])
  {
    if |s| > 1 {
      var front := s[..|s| - 1];
      BigEndian(front);
      assert front[1..] == s[1..][..|s| - 2];
      var first, power, rest := s[0], Power(|s| - 2), Bytes.Get(front[1..]);
      assert (first * power + rest) * 0x100 == first * (0x100 * power) + rest * 0x100;
    } else {
      assert s[1..] == [] && s[..0] == [];
    }
  }

  lemma TwoBytesOf(b: seq<u8>, at: nat, v: u16)
    requires at + 2 <= |b| && b[at..at + 2] == Put(2, v)
    ensures TwoBytes(b, at) == v
  {
    assert Put(1, v / 0x100) == [] + [v / 0x100 % 0x100];
    assert b[at] == b[at..at + 2][0] && b[at + 1] == b[at..at + 2][1];
  }

  lemma LengthIsTwoBytes(s: seq<u8>)
    requires |s| >= HEADER_SIZE
    ensures LengthField(s) == TwoBytes(s, 2)
  {
    PutGet(s[2..4]);
    TwoBytesOf(s, 2, Get16(s[2..4]));
  }

  /** Two's complement in n bytes. */
  predicate IsSigned(s: seq<u8>, x: int) { Bytes.Get(s) == if x < 0 then x + Power(|s|) else x }

  predicate BitsAre(b: u8, flags: seq<bool>) { forall k: nat :: k < |flags| ==> Bit(b, k) == flags[k] }

  /** The flags of the common header, lowest bit first; the bits between them are zero. */
  predicate FlagsAt(low: u8, high: u8, h: Header) {
    && BitsAre(low, [h.alternateMaster, h.twoStep, h.unicast, false, false, h.profile1, h.profile2])
    && BitsAre(high, [h.leap61, h.leap59, h.utcOffsetValid, h.ptpTimescale, h.timeTraceable, h.frequencyTraceable,
                      h.synchronizationUncertain])
  }

  lemma FlagLayout(h: Header)
    ensures FlagsAt(FlagByte(FlagsLow(h)), FlagByte(FlagsHigh(h)), h)
  {
    FlagsRoundTrip(FlagsLow(h));
    FlagsRoundTrip(FlagsHigh(h));
  }

  lemma StartLayout(h: Header, kind: u4, length: u16, b: seq<u8>)
    requires |b| >= HEADER_SIZE && b[0..8] == StartBytes(h, kind, length)
    ensures b[0] as int == 0x10 * (h.sdoId / 0x100) + kind && b[1] as int == 0x10 * (h.minor as int) + h.major
    ensures TwoBytes(b, 2) == length && b[4] == h.domain && b[5] == h.sdoId % 0x100 && FlagsAt(b[6], b[7], h)
  {
    StartSlices(h, kind, length, b);
    TwoBytesOf(b, 2, length);
    FlagLayout(h);
  }

  /** The control field, which repeats the type for the standard's first edition. */
  function ControlOf(kind: u4): u8 {
    match kind
    case 0x0 => 0
    case 0x1 => 1
    case 0x8 => 2
    case 0x9 => 3
    case 0xD => 4
    case _ => 5
  }

  lemma EndLayout(h: Header, kind: u4, b: seq<u8>)
    requires |b| >= HEADER_SIZE && b[20..34] == EndBytes(h, kind)
    ensures Bytes.Get(b[20..28]) == h.source.clock && TwoBytes(b, 28) == h.source.port && TwoBytes(b, 30) == h.sequenceId
    ensures IsSigned(b[33..34], h.logInterval) && b[32] == ControlOf(kind)
  {
    assert b[32] == b[20..34][12];
    EndSlices(h, kind, b);
    SubSlice(b, 20, 30, 0, 8);
    SubSlice(b, 20, 30, 8, 10);
    assert PutPort(h.source)[0..8] == Put(8, h.source.clock) && PutPort(h.source)[8..10] == Put(2, h.source.port);
    Powers();
    GetPut(8, h.source.clock);
    TwoBytesOf(b, 28, h.source.port);
    TwoBytesOf(b, 30, h.sequenceId);
    assert b[33..34] == [PutI8(h.logInterval)] && Bytes.Get([PutI8(h.logInterval)]) == PutI8(h.logInterval);
  }

  lemma CorrectionLayout(x: i64)
    ensures IsSigned(PutI64(x), x)
  {
    Powers();
    GetPut(8, Wrap(8, x));
  }

  /** The common header: type and length, flags, correction, source, sequence number, control and interval. */
  lemma HeaderLayout(h: Header, kind: u4, length: u16)
    ensures var b := HeaderBytes(h, kind, length);
            && b[0] as int == 0x10 * (h.sdoId / 0x100) + kind && b[1] as int == 0x10 * (h.minor as int) + h.major
            && TwoBytes(b, 2) == length && b[4] == h.domain && b[5] == h.sdoId % 0x100 && FlagsAt(b[6], b[7], h)
            && IsSigned(b[8..16], h.correction) && b[16..20] == [0, 0, 0, 0]
            && Bytes.Get(b[20..28]) == h.source.clock && TwoBytes(b, 28) == h.source.port && TwoBytes(b, 30) == h.sequenceId
            && b[32] == ControlOf(kind) && IsSigned(b[33..34], h.logInterval)
  {
    var b := HeaderBytes(h, kind, length);
    Slices(StartBytes(h, kind, length), PutI64(h.correction), [0, 0, 0, 0], EndBytes(h, kind), []);
    assert b + [] == b;
    StartLayout(h, kind, length, b);
    EndLayout(h, kind, b);
    CorrectionLayout(h.correction);
  }

  /** The announce body: origin, UTC offset, and the grandmaster's priority 1, quality, priority 2 and identity,
      the steps to it and its time source. */
  lemma AnnounceLayout(a: Announce, skipped: u8)
    ensures var b := AnnounceFront(a, skipped) + AnnounceBack(a);
            && |b| == 30 && Bytes.Get(b[0..6]) == a.origin.seconds && Bytes.Get(b[6..10]) == a.origin.nanos
            && IsSigned(b[10..12], a.utcOffset)
            && b[13] == a.gmPriority1 && b[14] == a.gmQuality.clockClass && b[15] == a.gmQuality.accuracy
            && TwoBytes(b, 16) == a.gmQuality.variance && b[18] == a.gmPriority2 && Bytes.Get(b[19..27]) == a.gmIdentity
            && TwoBytes(b, 27) == a.stepsRemoved && b[29] == PutTimeSource(a.timeSource)
  {
    var b := AnnounceFront(a, skipped) + AnnounceBack(a);
    Powers();
    assert b[0..6] == Put(6, a.origin.seconds) && b[6..10] == Put(4, a.origin.nanos);
    GetPut(6, a.origin.seconds);
    GetPut(4, a.origin.nanos);
    assert b[10..12] == PutI16(a.utcOffset);
    GetPut(2, Wrap(2, a.utcOffset));
    TwoBytesOf(b, 16, a.gmQuality.variance);
    assert b[19..27] == Put(8, a.gmIdentity);
    GetPut(8, a.gmIdentity);
    TwoBytesOf(b, 27, a.stepsRemoved);
  }

  /** Every other body starts with a time or a port identity; a port identity follows a time. */
  lemma TimeLayout(t: WireTimestamp, p: PortIdentity)
    ensures var b := PutTime(t) + PutPort(p);
            && Bytes.Get(b[0..6]) == t.seconds && Bytes.Get(b[6..10]) == t.nanos
            && Bytes.Get(b[10..18]) == p.clock && TwoBytes(b, 18) == p.port
  {
    var b := PutTime(t) + PutPort(p);
    Powers();
    assert b[0..6] == Put(6, t.seconds) && b[6..10] == Put(4, t.nanos) && b[10..18] == Put(8, p.clock);
    GetPut(6, t.seconds);
    GetPut(4, t.nanos);
    GetPut(8, p.clock);
    TwoBytesOf(b, 18, p.port);
  }

  /** A whole message: its type in the low half of the first byte and its length in bytes three and four;
      an announce's fields where the two tables together put them. */
  lemma MessageLayout(m: Message, previous: seq<u8>)
    requires |previous| == WireSize(m) < 0x1_0000
    ensures var b := MessageBytes(m, previous);
            && b[0] % 0x10 == Kind(m.body) && TwoBytes(b, 2) == |b| == 34 + SizeOf(Kind(m.body)) + |m.suffix|
            && b[34 + SizeOf(Kind(m.body))..] == m.suffix
            && (m.body.AnnounceBody? ==>
                  var a := m.body.announce;
                  && b[47] == a.gmPriority1 && b[48] == a.gmQuality.clockClass && b[49] == a.gmQuality.accuracy
                  && TwoBytes(b, 50) == a.gmQuality.variance && b[52] == a.gmPriority2 && TwoBytes(b, 61) == a.stepsRemoved)
  {
    var b := MessageBytes(m, previous);
    var head := HeaderBytes(m.header, Kind(m.body), WireSize(m));
    HeaderLayout(m.header, Kind(m.body), WireSize(m));
    assert b[0] == head[0] && b[2] == head[2] && b[3] == head[3];
    if m.body.AnnounceBody? {
      var skipped := previous[34..64][12];
      AnnounceLayout(m.body.announce, skipped);
      var body := AnnounceFront(m.body.announce, skipped) + AnnounceBack(m.body.announce);
      assert b == head + body + m.suffix;
      assert forall k :: 0 <= k < 30 ==> b[34 + k] == body[k];
    }
  }

  lemma {:induction false} RecordsKeepTheirErrors(b: seq<u8>)
    ensures TlvSets.Check(b) != Some(EnumConversion)
    decreases |b|
  {
    if |b| > 4 && TlvSets.LengthField(b) % 2 == 0 && 4 + TlvSets.LengthField(b) <= |b| {
      RecordsKeepTheirErrors(b[4 + TlvSets.LengthField(b)..]);
    }
  }

  /** Bytes are a message exactly if the header is all there, the type is one of the ten, the length covers header
      and body and no more than there is, and the records between body and length are accepted. */
  lemma ReceivedIff(s: seq<u8>)
    ensures Parse(s).Ok? <==>
              && |s| >= 34
              && (s[0] % 0x10 < 4 || 8 <= s[0] % 0x10 < 14)
              && 34 + SizeOf(s[0] % 0x10) <= TwoBytes(s, 2) <= |s|
              && TlvSets.Accepted(s[34 + SizeOf(s[0] % 0x10)..TwoBytes(s, 2)])
    ensures Parse(s) == Err(EnumConversion) <==> |s| >= 34 && !(s[0] % 0x10 < 4 || 8 <= s[0] % 0x10 < 14)
  {
    if |s| >= 34 {
      LengthIsTwoBytes(s);
      var kind := s[0] % 0x10;
      if 34 + SizeOf(kind) <= TwoBytes(s, 2) <= |s| {
        var records := s[34 + SizeOf(kind)..TwoBytes(s, 2)];
        assert s[34..TwoBytes(s, 2)][SizeOf(kind)..] == records;
        RecordsKeepTheirErrors(records);
      }
    }
  }

  lemma RecordParts(code: u16, length: u16, value: seq<u8>)
    ensures var b := Put(2, code) + Put(2, length) + value;
            TwoBytes(b, 0) == code && TwoBytes(b, 2) == length && b[4..] == value
  {
    var b := Put(2, code) + Put(2, length) + value;
    assert b[0..2] == Put(2, code) && b[2..4] == Put(2, length);
    TwoBytesOf(b, 0, code);
    TwoBytesOf(b, 2, length);
  }

  /** A record: type, length of the value, value. */
  lemma RecordLayout(t: TlvSets.Tlv)
    requires |t.value| < 0x1_0000
    ensures var b := TlvSets.TlvBytes(t);
            TwoBytes(b, 0) == TlvSets.ToPrimitive(t.kind) && TwoBytes(b, 2) == |t.value| && b[4..] == t.value
  {
    var code, length: u16 := TlvSets.ToPrimitive(t.kind), |t.value|;
    assert length % 0x1_0000 == length;
    assert TlvSets.TlvBytes(t) == Put(2, code) + Put(2, length) + t.value;
    RecordParts(code, length, t.value);
  }

  /** The type codes: event messages below 4, general messages from 8. */
  lemma TypeCodes(sync: Body, request: Body, peerRequest: Body, peerAnswer: Body, followUp: Body, answer: Body,
                  peerFollowUp: Body, announce: Body, signaling: Body, management: Body)
    requires sync.SyncBody? && request.DelayReqBody? && peerRequest.PDelayReqBody? && peerAnswer.PDelayRespBody?
    requires followUp.FollowUpBody? && answer.DelayRespBody? && peerFollowUp.PDelayRespFollowUpBody?
    requires announce.AnnounceBody? && signaling.SignalingBody? && management.ManagementBody?
    ensures [Kind(sync), Kind(request), Kind(peerRequest), Kind(peerAnswer)] == [0, 1, 2, 3]
    ensures [Kind(followUp), Kind(answer), Kind(peerFollowUp), Kind(announce), Kind(signaling), Kind(management)]
         == [8, 9, 10, 11, 12, 13]
  {}

  /** A management body: target, then one byte skipped, the two hop counts and the action's code. */
  lemma ManagementLayout(b: Body, previous: seq<u8>)
    requires b.ManagementBody? && |previous| == 14
    ensures var s := BodyBytes(b, previous);
            && Bytes.Get(s[0..8]) == b.target.clock && TwoBytes(s, 8) == b.target.port && s[10] == previous[10]
            && s[11] == b.startingHops && s[12] == b.hops
            && (s[13] <= 4 ==> [Get, Set, Response, Command, Acknowledge][s[13]] == b.action)
            && (s[13] > 4 ==> b.action == Reserved)
  {
    var s := BodyBytes(b, previous);
    Powers();
    assert s[0..8] == Put(8, b.target.clock);
    GetPut(8, b.target.clock);
    TwoBytesOf(s, 8, b.target.port);
  }

  /** The time source codes. */
  lemma TimeSourceCodes(profile: u8)
    ensures [PutTimeSource(AtomicClock), PutTimeSource(Gnss), PutTimeSource(TerrestrialRadio), PutTimeSource(SerialTimeCode),
             PutTimeSource(Ptp), PutTimeSource(Ntp), PutTimeSource(HandSet), PutTimeSource(Other),
             PutTimeSource(InternalOscillator)]
         == [0x10, 0x20, 0x30, 0x39, 0x40, 0x50, 0x60, 0x90, 0xA0]
    ensures profile < 0xF ==> PutTimeSource(ProfileSpecific(profile)) as int == 0xF0 + profile as int
  {}

  /** An accuracy is kept if the standard names it or leaves it to profiles; every other one is read as zero, and
      zero is what a reserved accuracy is written as. */
  lemma AccuraciesKept(b: u8)
    ensures ReadAccuracy(b) == if 0x17 <= b <= 0x31 || 0x80 <= b <= 0xFE then b else 0
  {}

  /** The type codes of records: some keep an old or an experimental meaning, these have a name, and all
      others are reserved. */
  lemma RecordTypeCodes(v: u16)
    ensures var t := TlvSets.FromPrimitive(v);
            && (t.Legacy? <==> v / 4 == 0x800) && (t.Experimental? <==> 0x2004 <= v < 0x2030 || v / 0x100 == 0x7F)
            && (t.Management? <==> v == 1) && (t.ManagementErrorStatus? <==> v == 2) && (t.OrganizationExtension? <==> v == 3)
            && (t.RequestUnicastTransmission? <==> v == 4) && (t.GrantUnicastTransmission? <==> v == 5)
            && (t.CancelUnicastTransmission? <==> v == 6) && (t.AcknowledgeCancelUnicastTransmission? <==> v == 7)
            && (t.PathTrace? <==> v == 8) && (t.AlternateTimeOffsetIndicator? <==> v == 9)
            && (t.OrganizationExtensionPropagate? <==> v == 0x4000) && (t.EnhancedAccuracyMetrics? <==> v == 0x4001)
            && (t.OrganizationExtensionDoNotPropagate? <==> v == 0x8000) && (t.L1Sync? <==> v == 0x8001)
            && (t.PortCommunicationAvailability? <==> v == 0x8002) && (t.ProtocolAddress? <==> v == 0x8003)
            && (t.SlaveRxSyncTimingData? <==> v == 0x8004) && (t.SlaveRxSyncComputedData? <==> v == 0x8005)
            && (t.SlaveTxEventTimestamps? <==> v == 0x8006) && (t.CumulativeRateRatio? <==> v == 0x8007)
            && (t.Pad? <==> v == 0x8008) && (t.Authentication? <==> v == 0x8009)
  {}
}
