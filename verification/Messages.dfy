/** Whole messages: header, body and trailing records (section 13 of IEEE 1588-2019). */
module Messages {
  import opened Prelude
  import opened DataSets
  import opened Bytes
  import opened MessageHeader
  import TlvSets

  datatype Action = Reserved | Get | Set | Response | Command | Acknowledge

  datatype Body =
    | SyncBody(origin: WireTimestamp)
    | DelayReqBody(origin: WireTimestamp)
    | PDelayReqBody(origin: WireTimestamp)
    | PDelayRespBody(received: WireTimestamp, requesting: PortIdentity)
    | FollowUpBody(precise: WireTimestamp)
    | DelayRespBody(received: WireTimestamp, requesting: PortIdentity)
    | PDelayRespFollowUpBody(sent: WireTimestamp, requesting: PortIdentity)
    | AnnounceBody(announce: Announce)
    | SignalingBody(target: PortIdentity)
    | ManagementBody(target: PortIdentity, startingHops: u8, hops: u8, action: Action)

  /** `suffix` is the bytes of the trailing records. */
  datatype Message = Message(header: Header, body: Body, suffix: seq<u8>)

  // ----- enumerations -----

  /** Reserved accuracies are all read as one. */
  function ReadAccuracy(b: u8): u8 {
    if b <= 0x16 || 0x32 <= b <= 0x7f || b == 0xff then 0 else b
  }

  function PutTimeSource(t: TimeSource): u8 {
    match t
    case AtomicClock => 0x10
    case Gnss => 0x20
    case TerrestrialRadio => 0x30
    case SerialTimeCode => 0x39
    case Ptp => 0x40
    case Ntp => 0x50
    case HandSet => 0x60
    case Other => 0x90
    case InternalOscillator => 0xa0
    case ProfileSpecific(p) => (0xf0 + p) % 0x100
    case ReservedSource => 0xff
    case UnknownSource(v) => v
  }

  function ReadTimeSource(b: u8): (t: TimeSource)
    ensures PutTimeSource(t) == b
  {
    if b == 0x10 then AtomicClock
    else if b == 0x20 then Gnss
    else if b == 0x30 then TerrestrialRadio
    else if b == 0x39 then SerialTimeCode
    else if b == 0x40 then Ptp
    else if b == 0x50 then Ntp
    else if b == 0x60 then HandSet
    else if b == 0x90 then Other
    else if b == 0xa0 then InternalOscillator
    else if 0xf0 <= b <= 0xfe then ProfileSpecific(b - 0xf0)
    else if b == 0xff then ReservedSource
    else UnknownSource(b)
  }

  function PutAction(a: Action): u8 {
    match a
    case Get => 0
    case Set => 1
    case Response => 2
    case Command => 3
    case Acknowledge => 4
    case Reserved => 5
  }

  function ReadAction(b: u8): Action {
    if b == 0 then Get else if b == 1 then Set else if b == 2 then Response else if b == 3 then Command
    else if b == 4 then Acknowledge else Reserved
  }

  // ----- bodies -----

  function Kind(b: Body): u4 {
    match b
    case SyncBody(_) => 0
    case DelayReqBody(_) => 1
    case PDelayReqBody(_) => 2
    case PDelayRespBody(_, _) => 3
    case FollowUpBody(_) => 8
    case DelayRespBody(_, _) => 9
    case PDelayRespFollowUpBody(_, _) => 0xa
    case AnnounceBody(_) => 0xb
    case SignalingBody(_) => 0xc
    case ManagementBody(_, _, _, _) => 0xd
  }

  function BodySize(b: Body): nat { SizeOf(Kind(b)) }

  function SizeOf(kind: u4): nat {
    if kind == 0 || kind == 1 || kind == 8 || kind == 0xc then 10
    else if kind == 0xb then 30
    else if kind == 0xd then 14
    else 20
  }

  function PutI16(x: i16): (r: seq<u8>)
    ensures |r| == 2
  {
    Powers(); PutSigned(2, x)
  }

  function GetI16(s: seq<u8>): i16
    requires |s| == 2
  {
    Powers(); GetSigned(s)
  }

  /** One byte of an announce is skipped: it keeps whatever was there. */
  function AnnounceFront(a: Announce, skipped: u8): (r: seq<u8>)
    ensures |r| == 16
  {
    PutTime(a.origin) + PutI16(a.utcOffset) + [skipped, a.gmPriority1, a.gmQuality.clockClass, a.gmQuality.accuracy]
  }

  function AnnounceBack(a: Announce): (r: seq<u8>)
    ensures |r| == 14
  {
    Put(2, a.gmQuality.variance) + [a.gmPriority2] + Put(8, a.gmIdentity) + Put(2, a.stepsRemoved) + [PutTimeSource(a.timeSource)]
  }

  /** The body over `previous`, the bytes it is written onto. */
  function BodyBytes(b: Body, previous: seq<u8>): (r: seq<u8>)
    requires |previous| == BodySize(b)
    ensures |r| == BodySize(b)
  {
    match b
    case SyncBody(t) => PutTime(t)
    case DelayReqBody(t) => PutTime(t)
    case PDelayReqBody(t) => PutTime(t) + [0, 0, 0, 0, 0, 0, 0, 0, 0, 0]
    case PDelayRespBody(t, p) => PutTime(t) + PutPort(p)
    case FollowUpBody(t) => PutTime(t)
    case DelayRespBody(t, p) => PutTime(t) + PutPort(p)
    case PDelayRespFollowUpBody(t, p) => PutTime(t) + PutPort(p)
    case AnnounceBody(a) => AnnounceFront(a, previous[12]) + AnnounceBack(a)
    case SignalingBody(p) => PutPort(p)
    case ManagementBody(p, starting, hops, action) => PutPort(p) + [previous[10], starting, hops, PutAction(action)]
  }

  function ReadAnnounce(h: Header, s: seq<u8>): Announce
    requires |s| >= 30
  {
    Announce(h, GetTime(s[0..10]), GetI16(s[10..12]), s[13],
             ClockQuality(s[14], ReadAccuracy(s[15]), Get16(s[16..18])), s[18], Get64(s[19..27]), Get16(s[27..29]),
             ReadTimeSource(s[29]))
  }

  predicate KnownKind(kind: u4) { kind <= 3 || 8 <= kind <= 0xd }

  function ReadBody(kind: u4, h: Header, s: seq<u8>): Result<Body>
    requires KnownKind(kind)
  {
    if |s| < SizeOf(kind) then Err(BufferTooShort)
    else if kind == 0 then Ok(SyncBody(GetTime(s[0..10])))
    else if kind == 1 then Ok(DelayReqBody(GetTime(s[0..10])))
    else if kind == 2 then Ok(PDelayReqBody(GetTime(s[0..10])))
    else if kind == 3 then Ok(PDelayRespBody(GetTime(s[0..10]), GetPort(s[10..20])))
    else if kind == 8 then Ok(FollowUpBody(GetTime(s[0..10])))
    else if kind == 9 then Ok(DelayRespBody(GetTime(s[0..10]), GetPort(s[10..20])))
    else if kind == 0xa then Ok(PDelayRespFollowUpBody(GetTime(s[0..10]), GetPort(s[10..20])))
    else if kind == 0xb then Ok(AnnounceBody(ReadAnnounce(h, s)))
    else if kind == 0xc then Ok(SignalingBody(GetPort(s[0..10])))
    else Ok(ManagementBody(GetPort(s[0..10]), s[11], s[12], ReadAction(s[13])))
  }

  /** Values a body can hold and still be told apart on the wire; an announce repeats its header. */
  predicate BodyFits(b: Body, h: Header) {
    b.AnnounceBody? ==>
      && b.announce.header == h
      && ReadAccuracy(b.announce.gmQuality.accuracy) == b.announce.gmQuality.accuracy
      && ReadTimeSource(PutTimeSource(b.announce.timeSource)) == b.announce.timeSource
  }

  // ----- messages -----

  function WireSize(m: Message): nat { HEADER_SIZE + BodySize(m.body) + |m.suffix| }

  function MessageBytes(m: Message, previous: seq<u8>): (r: seq<u8>)
    requires |previous| == WireSize(m)
    ensures |r| == WireSize(m)
  {
    HeaderBytes(m.header, Kind(m.body), WireSize(m))
    + BodyBytes(m.body, previous[HEADER_SIZE..HEADER_SIZE + BodySize(m.body)])
    + m.suffix
  }

  /** The header's length field decides where the message ends; what follows is padding. */
  function Parse(s: seq<u8>): Result<Message> {
    if |s| < HEADER_SIZE then Err(BufferTooShort)
    else if !KnownKind(KindField(s)) then Err(EnumConversion)
    else if LengthField(s) < HEADER_SIZE then Err(Invalid)
    else if LengthField(s) > |s| then Err(BufferTooShort)
    else
      var content := s[HEADER_SIZE..LengthField(s)];
      var body := ReadBody(KindField(s), ReadHeader(s), content);
      if body.Err? then Err(body.error)
      else
        var suffix := content[SizeOf(KindField(s))..];
        if TlvSets.Accepted(suffix) then Ok(Message(ReadHeader(s), body.value, suffix))
        else Err(TlvSets.Check(suffix).value)
  }

  predicate MessageFits(m: Message) {
    WireSize(m) < 0x1_0000 && BodyFits(m.body, m.header) && TlvSets.Accepted(m.suffix)
  }

  // ----- reading gives what fits -----

  lemma ReadBodyFits(kind: u4, h: Header, s: seq<u8>)
    requires KnownKind(kind) && ReadBody(kind, h, s).Ok?
    ensures var b := ReadBody(kind, h, s).value; Kind(b) == kind && BodyFits(b, h) && BodySize(b) <= |s|
  {}

  /** An accepted message is as long as its header says, and no longer than the input. */
  lemma ParsedFits(s: seq<u8>)
    requires Parse(s).Ok?
    ensures var m := Parse(s).value; MessageFits(m) && WireSize(m) == LengthField(s) <= |s|
  {
    ReadBodyFits(KindField(s), ReadHeader(s), s[HEADER_SIZE..LengthField(s)]);
  }

  // ----- writing and reading back -----

  lemma I16RoundTrip(x: i16)
    ensures GetI16(PutI16(x)) == x
  {
    Powers();
    GetPutSigned(2, x);
  }

  lemma AnnounceFrontSlices(a: Announce, skipped: u8)
    ensures var f := AnnounceFront(a, skipped);
            && f[0..10] == PutTime(a.origin) && f[10..12] == PutI16(a.utcOffset)
            && f[13] == a.gmPriority1 && f[14] == a.gmQuality.clockClass && f[15] == a.gmQuality.accuracy
  {}

  lemma AnnounceFrontFields(a: Announce, skipped: u8, s: seq<u8>)
    requires |s| >= 30 && s[0..16] == AnnounceFront(a, skipped)
    ensures GetTime(s[0..10]) == a.origin && GetI16(s[10..12]) == a.utcOffset
    ensures s[13] == a.gmPriority1 && s[14] == a.gmQuality.clockClass && s[15] == a.gmQuality.accuracy
  {
    AnnounceFrontSlices(a, skipped);
    SubSlice(s, 0, 16, 0, 10);
    SubSlice(s, 0, 16, 10, 12);
    assert s[13] == s[0..16][13] && s[14] == s[0..16][14] && s[15] == s[0..16][15];
    TimeRoundTrip(a.origin);
    I16RoundTrip(a.utcOffset);
  }

  lemma AnnounceBackSlices(a: Announce)
    ensures var f := AnnounceBack(a);
            && f[0..2] == Put(2, a.gmQuality.variance) && f[2] == a.gmPriority2 && f[3..11] == Put(8, a.gmIdentity)
            && f[11..13] == Put(2, a.stepsRemoved) && f[13] == PutTimeSource(a.timeSource)
  {}

  lemma AnnounceBackFields(a: Announce, s: seq<u8>)
    requires |s| >= 30 && s[16..30] == AnnounceBack(a)
    ensures Get16(s[16..18]) == a.gmQuality.variance && s[18] == a.gmPriority2 && Get64(s[19..27]) == a.gmIdentity
    ensures Get16(s[27..29]) == a.stepsRemoved && s[29] == PutTimeSource(a.timeSource)
  {
    AnnounceBackSlices(a);
    SubSlice(s, 16, 30, 0, 2);
    SubSlice(s, 16, 30, 3, 11);
    SubSlice(s, 16, 30, 11, 13);
    assert s[18] == s[16..30][2] && s[29] == s[16..30][13];
    NumberRoundTrip(a.gmQuality.variance);
    NumberRoundTrip(a.stepsRemoved);
    Powers();
    GetPut(8, a.gmIdentity);
  }

  lemma AnnounceRoundTrip(a: Announce, skipped: u8, rest: seq<u8>)
    requires BodyFits(AnnounceBody(a), a.header)
    ensures ReadAnnounce(a.header, AnnounceFront(a, skipped) + AnnounceBack(a) + rest) == a
  {
    var s := AnnounceFront(a, skipped) + AnnounceBack(a) + rest;
    assert s[0..16] == AnnounceFront(a, skipped);
    assert s[16..30] == AnnounceBack(a);
    AnnounceFrontFields(a, skipped, s);
    AnnounceBackFields(a, s);
  }

  lemma TimeAndPort(t: WireTimestamp, p: PortIdentity, rest: seq<u8>)
    ensures var s := PutTime(t) + PutPort(p) + rest; GetTime(s[0..10]) == t && GetPort(s[10..20]) == p
  {
    var s := PutTime(t) + PutPort(p) + rest;
    assert s[0..10] == PutTime(t);
    assert s[10..20] == PutPort(p);
    TimeRoundTrip(t);
    PortRoundTrip(p);
  }

  lemma TimeFirst(t: WireTimestamp, rest: seq<u8>)
    ensures GetTime((PutTime(t) + rest)[0..10]) == t
  {
    assert (PutTime(t) + rest)[0..10] == PutTime(t);
    TimeRoundTrip(t);
  }

  lemma ManagementRoundTrip(p: PortIdentity, skipped: u8, starting: u8, hops: u8, action: Action, rest: seq<u8>)
    ensures var s := PutPort(p) + [skipped, starting, hops, PutAction(action)] + rest;
            GetPort(s[0..10]) == p && s[11] == starting && s[12] == hops && ReadAction(s[13]) == action
  {
    var s := PutPort(p) + [skipped, starting, hops, PutAction(action)] + rest;
    assert s[0..10] == PutPort(p);
    PortRoundTrip(p);
  }

  lemma BodyRoundTrip(b: Body, h: Header, previous: seq<u8>, rest: seq<u8>)
    requires |previous| == BodySize(b) && BodyFits(b, h)
    ensures ReadBody(Kind(b), h, BodyBytes(b, previous) + rest) == Ok(b)
  {
    match b
    case SyncBody(t) => TimeFirst(t, rest);
    case DelayReqBody(t) => TimeFirst(t, rest);
    case PDelayReqBody(t) =>
      var zeros: seq<u8> := [0, 0, 0, 0, 0, 0, 0, 0, 0, 0];
      assert PutTime(t) + zeros + rest == PutTime(t) + (zeros + rest);
      TimeFirst(t, zeros + rest);
    case PDelayRespBody(t, p) => TimeAndPort(t, p, rest);
    case FollowUpBody(t) => TimeFirst(t, rest);
    case DelayRespBody(t, p) => TimeAndPort(t, p, rest);
    case PDelayRespFollowUpBody(t, p) => TimeAndPort(t, p, rest);
    case AnnounceBody(a) => AnnounceRoundTrip(a, previous[12], rest);
    case SignalingBody(p) =>
      assert (PutPort(p) + rest)[0..10] == PutPort(p);
      PortRoundTrip(p);
    case ManagementBody(p, starting, hops, action) => ManagementRoundTrip(p, previous[10], starting, hops, action, rest);
  }

  lemma Parts(head: seq<u8>, body: seq<u8>, suffix: seq<u8>, padding: seq<u8>)
    requires |head| == HEADER_SIZE
    ensures var s := head + body + suffix + padding;
            && s == head + (body + suffix + padding)
            && s[HEADER_SIZE..HEADER_SIZE + |body| + |suffix|] == body + suffix
            && (body + suffix)[|body|..] == suffix
  {}

  /** A message that fits survives, whatever buffer it was written into and whatever padding follows. */
  lemma FittingRoundTrips(m: Message, previous: seq<u8>, padding: seq<u8>)
    requires MessageFits(m) && |previous| == WireSize(m)
    ensures Parse(MessageBytes(m, previous) + padding) == Ok(m)
  {
    var head := HeaderBytes(m.header, Kind(m.body), WireSize(m));
    var under := previous[HEADER_SIZE..HEADER_SIZE + BodySize(m.body)];
    var body := BodyBytes(m.body, under);
    Parts(head, body, m.suffix, padding);
    HeaderRoundTrip(m.header, Kind(m.body), WireSize(m), body + m.suffix + padding);
    BodyRoundTrip(m.body, m.header, under, m.suffix);
  }

  /** Exactly the fitting messages survive. */
  lemma RoundTripsIffFits(m: Message, previous: seq<u8>)
    requires |previous| == WireSize(m)
    ensures Parse(MessageBytes(m, previous)) == Ok(m) <==> MessageFits(m)
  {
    if MessageFits(m) {
      FittingRoundTrips(m, previous, []);
      assert MessageBytes(m, previous) + [] == MessageBytes(m, previous);
    } else if Parse(MessageBytes(m, previous)) == Ok(m) {
      ParsedFits(MessageBytes(m, previous));
    }
  }

  /** Whatever was received can be sent on and is received as the same message. */
  lemma ReserializedIsSame(s: seq<u8>, previous: seq<u8>)
    requires Parse(s).Ok? && |previous| == LengthField(s)
    ensures Parse(MessageBytes(Parse(s).value, previous)) == Parse(s)
  {
    ParsedFits(s);
    RoundTripsIffFits(Parse(s).value, previous);
  }

  // ----- writing in place -----

  method SerializeAnnounceFront(a: Announce, buffer: array<u8>, at: nat)
    requires at + 16 <= buffer.Length
    modifies buffer
    ensures buffer[..at + 16] == old(buffer[..at]) + AnnounceFront(a, old(buffer[at + 12]))
    ensures forall k :: at + 16 <= k < buffer.Length ==> buffer[k] == old(buffer[k])
  {
    ghost var skipped := buffer[at + 12];
    Write(buffer, at, PutTime(a.origin));
    Write(buffer, at + 10, PutI16(a.utcOffset));
    assert buffer[..at + 13] == buffer[..at + 12] + [skipped];
    Write(buffer, at + 13, [a.gmPriority1]);
    Write(buffer, at + 14, [a.gmQuality.clockClass, a.gmQuality.accuracy]);
  }

  method SerializeAnnounceBack(a: Announce, buffer: array<u8>, at: nat)
    requires at + 14 <= buffer.Length
    modifies buffer
    ensures buffer[..at + 14] == old(buffer[..at]) + AnnounceBack(a)
    ensures forall k :: at + 14 <= k < buffer.Length ==> buffer[k] == old(buffer[k])
  {
    Write(buffer, at, Put(2, a.gmQuality.variance));
    Write(buffer, at + 2, [a.gmPriority2]);
    Write(buffer, at + 3, Put(8, a.gmIdentity));
    Write(buffer, at + 11, Put(2, a.stepsRemoved));
    Write(buffer, at + 13, [PutTimeSource(a.timeSource)]);
  }

  method SerializeAnnounce(a: Announce, buffer: array<u8>, at: nat)
    requires at + 30 <= buffer.Length
    modifies buffer
    ensures buffer[..at + 30] == old(buffer[..at]) + (AnnounceFront(a, old(buffer[at + 12])) + AnnounceBack(a))
    ensures forall k :: at + 30 <= k < buffer.Length ==> buffer[k] == old(buffer[k])
  {
    SerializeAnnounceFront(a, buffer, at);
    SerializeAnnounceBack(a, buffer, at + 16);
  }

  method SerializeTimeAndPort(t: WireTimestamp, p: PortIdentity, buffer: array<u8>, at: nat)
    requires at + 20 <= buffer.Length
    modifies buffer
    ensures buffer[..at + 20] == old(buffer[..at]) + (PutTime(t) + PutPort(p))
    ensures forall k :: at + 20 <= k < buffer.Length ==> buffer[k] == old(buffer[k])
  {
    Write(buffer, at, PutTime(t));
    Write(buffer, at + 10, PutPort(p));
  }

  method SerializePDelayReq(t: WireTimestamp, buffer: array<u8>, at: nat)
    requires at + 20 <= buffer.Length
    modifies buffer
    ensures buffer[..at + 20] == old(buffer[..at]) + (PutTime(t) + [0, 0, 0, 0, 0, 0, 0, 0, 0, 0])
    ensures forall k :: at + 20 <= k < buffer.Length ==> buffer[k] == old(buffer[k])
  {
    Write(buffer, at, PutTime(t));
    Write(buffer, at + 10, [0, 0, 0, 0, 0, 0, 0, 0, 0, 0]);
  }

  method SerializeManagement(b: Body, buffer: array<u8>, at: nat)
    requires b.ManagementBody? && at + 14 <= buffer.Length
    modifies buffer
    ensures buffer[..at + 14]
         == old(buffer[..at]) + (PutPort(b.target) + [old(buffer[at + 10]), b.startingHops, b.hops, PutAction(b.action)])
    ensures forall k :: at + 14 <= k < buffer.Length ==> buffer[k] == old(buffer[k])
  {
    ghost var skipped := buffer[at + 10];
    Write(buffer, at, PutPort(b.target));
    assert buffer[..at + 11] == buffer[..at + 10] + [skipped];
    Write(buffer, at + 11, [b.startingHops, b.hops, PutAction(b.action)]);
  }

  method SerializeBody(b: Body, buffer: array<u8>, at: nat)
    requires at + BodySize(b) <= buffer.Length
    modifies buffer
    ensures buffer[..at + BodySize(b)] == old(buffer[..at]) + BodyBytes(b, old(buffer[at..at + BodySize(b)]))
    ensures forall k :: at + BodySize(b) <= k < buffer.Length ==> buffer[k] == old(buffer[k])
  {
    match b {
      case SyncBody(t) => Write(buffer, at, PutTime(t));
      case DelayReqBody(t) => Write(buffer, at, PutTime(t));
      case PDelayReqBody(t) => SerializePDelayReq(t, buffer, at);
      case PDelayRespBody(t, p) => SerializeTimeAndPort(t, p, buffer, at);
      case FollowUpBody(t) => Write(buffer, at, PutTime(t));
      case DelayRespBody(t, p) => SerializeTimeAndPort(t, p, buffer, at);
      case PDelayRespFollowUpBody(t, p) => SerializeTimeAndPort(t, p, buffer, at);
      case AnnounceBody(a) => SerializeAnnounce(a, buffer, at);
      case SignalingBody(p) => Write(buffer, at, PutPort(p));
      case ManagementBody(_, _, _, _) => SerializeManagement(b, buffer, at);
    }
  }

  method Serialize(m: Message, buffer: array<u8>) returns (size: nat)
    requires WireSize(m) <= buffer.Length
    modifies buffer
    ensures size == WireSize(m)
    ensures buffer[..size] == MessageBytes(m, old(buffer[..size]))
    ensures forall k :: size <= k < buffer.Length ==> buffer[k] == old(buffer[k])
  {
    size := WireSize(m);
    var n := BodySize(m.body);
    ghost var previous := buffer[..size];
    SerializeHeader(m.header, Kind(m.body), n + |m.suffix|, buffer);
    assert buffer[HEADER_SIZE..HEADER_SIZE + n] == previous[HEADER_SIZE..HEADER_SIZE + n];
    SerializeBody(m.body, buffer, HEADER_SIZE);
    Write(buffer, HEADER_SIZE + n, m.suffix);
  }

  /** Any buffer as long as the received message will do, and receiving from it gives the message again. */
  method Resend(s: seq<u8>, buffer: array<u8>) returns (r: Result<nat>)
    requires Parse(s).Ok? ==> LengthField(s) <= buffer.Length
    modifies buffer
    ensures if Parse(s).Err? then r == Err(Parse(s).error) && buffer[..] == old(buffer[..])
            else r == Ok(LengthField(s)) && r.value <= |s| && Parse(buffer[..r.value]) == Parse(s)
  {
    var parsed := Parse(s);
    if parsed.Err? {
      return Err(parsed.error);
    }
    ParsedFits(s);
    ghost var previous := buffer[..LengthField(s)];
    var size := Serialize(parsed.value, buffer);
    ReserializedIsSame(s, previous);
    return Ok(size);
  }
}
