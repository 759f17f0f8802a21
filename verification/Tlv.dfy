/** Type-length-value lists: the records at the end of a message (section 14.1 of IEEE 1588-2019). */
module TlvSets {
  import opened Prelude
  import opened Bytes

  datatype TlvType =
    | Reserved(code: u16) | Management | ManagementErrorStatus | OrganizationExtension
    | RequestUnicastTransmission | GrantUnicastTransmission | CancelUnicastTransmission
    | AcknowledgeCancelUnicastTransmission | PathTrace | AlternateTimeOffsetIndicator
    | Legacy(code: u16) | Experimental(code: u16) | OrganizationExtensionPropagate | EnhancedAccuracyMetrics
    | OrganizationExtensionDoNotPropagate | L1Sync | PortCommunicationAvailability | ProtocolAddress
    | SlaveRxSyncTimingData | SlaveRxSyncComputedData | SlaveTxEventTimestamps | CumulativeRateRatio
    | Pad | Authentication

  function ToPrimitive(t: TlvType): u16 {
    match t
    case Reserved(v) => v
    case Management => 0x0001
    case ManagementErrorStatus => 0x0002
    case OrganizationExtension => 0x0003
    case RequestUnicastTransmission => 0x0004
    case GrantUnicastTransmission => 0x0005
    case CancelUnicastTransmission => 0x0006
    case AcknowledgeCancelUnicastTransmission => 0x0007
    case PathTrace => 0x0008
    case AlternateTimeOffsetIndicator => 0x0009
    case Legacy(v) => v
    case Experimental(v) => v
    case OrganizationExtensionPropagate => 0x4000
    case EnhancedAccuracyMetrics => 0x4001
    case OrganizationExtensionDoNotPropagate => 0x8000
    case L1Sync => 0x8001
    case PortCommunicationAvailability => 0x8002
    case ProtocolAddress => 0x8003
    case SlaveRxSyncTimingData => 0x8004
    case SlaveRxSyncComputedData => 0x8005
    case SlaveTxEventTimestamps => 0x8006
    case CumulativeRateRatio => 0x8007
    case Pad => 0x8008
    case Authentication => 0x8009
  }

  /** No code is lost: the catch-all variants keep it. */
  function FromPrimitive(v: u16): (t: TlvType)
    ensures ToPrimitive(t) == v
  {
    if v == 0x0001 then Management
    else if v == 0x0002 then ManagementErrorStatus
    else if v == 0x0003 then OrganizationExtension
    else if v == 0x0004 then RequestUnicastTransmission
    else if v == 0x0005 then GrantUnicastTransmission
    else if v == 0x0006 then CancelUnicastTransmission
    else if v == 0x0007 then AcknowledgeCancelUnicastTransmission
    else if v == 0x0008 then PathTrace
    else if v == 0x0009 then AlternateTimeOffsetIndicator
    else if 0x2000 <= v <= 0x2003 then Legacy(v)
    else if 0x2004 <= v <= 0x202f || 0x7f00 <= v <= 0x7fff then Experimental(v)
    else if v == 0x4000 then OrganizationExtensionPropagate
    else if v == 0x4001 then EnhancedAccuracyMetrics
    else if v == 0x8000 then OrganizationExtensionDoNotPropagate
    else if v == 0x8001 then L1Sync
    else if v == 0x8002 then PortCommunicationAvailability
    else if v == 0x8003 then ProtocolAddress
    else if v == 0x8004 then SlaveRxSyncTimingData
    else if v == 0x8005 then SlaveRxSyncComputedData
    else if v == 0x8006 then SlaveTxEventTimestamps
    else if v == 0x8007 then CumulativeRateRatio
    else if v == 0x8008 then Pad
    else if v == 0x8009 then Authentication
    else Reserved(v)
  }

  datatype Tlv = Tlv(kind: TlvType, value: seq<u8>)

  function WireSize(t: Tlv): nat { 4 + |t.value| }

  /** The length field keeps 16 bits. */
  function TlvBytes(t: Tlv): (r: seq<u8>)
    ensures |r| == WireSize(t)
  {
    Put(2, ToPrimitive(t.kind)) + Put(2, |t.value| % 0x1_0000) + t.value
  }

  function SetBytes(ts: seq<Tlv>): seq<u8> {
    if |ts| == 0 then [] else TlvBytes(ts[0]) + SetBytes(ts[1..])
  }

  // ----- reading -----

  function LengthField(b: seq<u8>): u16
    requires |b| >= 4
  {
    Get16(b[2..4])
  }

  /** What the acceptance loop decides. Four bytes or fewer never start a record. */
  function Check(b: seq<u8>): Option<WireError>
    decreases |b|
  {
    if |b| <= 4 then
      if |b| == 0 then None else Some(BufferTooShort)
    else
      var length := LengthField(b);
      if length % 2 != 0 then Some(Invalid)
      else if 4 + length > |b| then Some(BufferTooShort)
      else Check(b[4 + length..])
  }

  predicate Accepted(b: seq<u8>) { Check(b).None? }

  method DeserializeSet(original: seq<u8>) returns (r: Result<seq<u8>>)
    ensures r == if Accepted(original) then Ok(original) else Err(Check(original).value)
  {
    var buffer := original;
    var total: nat := 0;
    while |buffer| > 4
      invariant total + |buffer| == |original| && Check(buffer) == Check(original)
      decreases |buffer|
    {
      var length := LengthField(buffer);
      if length % 2 != 0 {
        return Err(Invalid);
      }
      if 4 + length > |buffer| {
        return Err(BufferTooShort);
      }
      buffer := buffer[4 + length..];
      total := total + 4 + length;
    }
    if |buffer| != 0 {
      return Err(BufferTooShort);
    }
    assert original[..total] == original;
    return Ok(original[..total]);
  }

  function DeserializeTlv(b: seq<u8>): Result<Tlv> {
    if |b| < 4 || |b| < 4 + LengthField(b) then Err(BufferTooShort)
    else Ok(Tlv(FromPrimitive(Get16(b[0..2])), b[4..4 + LengthField(b)]))
  }

  /** What iterating over the bytes yields, until the first four bytes or fewer. */
  function Items(b: seq<u8>): seq<Tlv>
    requires Accepted(b)
    decreases |b|
  {
    if |b| <= 4 then []
    else
      var t := DeserializeTlv(b).value;
      [t] + Items(b[WireSize(t)..])
  }

  class TlvSetIterator {
    var buffer: seq<u8>

    constructor (bytes: seq<u8>)
      ensures buffer == bytes
    {
      buffer := bytes;
    }

    /** On accepted bytes the record is always there; what is left is accepted again. */
    method Next() returns (r: Option<Tlv>)
      requires Accepted(buffer)
      modifies this
      ensures Accepted(buffer)
      ensures if old(buffer) == [] then r.None? && buffer == []
              else r.Some? && Items(old(buffer)) == [r.value] + Items(buffer) && |buffer| < |old(buffer)|
    {
      if |buffer| <= 4 {
        return None;
      }
      var t := DeserializeTlv(buffer).value;
      buffer := buffer[WireSize(t)..];
      return Some(t);
    }
  }

  method Collect(bytes: seq<u8>) returns (ts: seq<Tlv>)
    requires Accepted(bytes)
    ensures ts == Items(bytes) && SetBytes(ts) == bytes
  {
    ts := [];
    var records := new TlvSetIterator(bytes);
    var done := false;
    while !done
      invariant Accepted(records.buffer) && ts + Items(records.buffer) == Items(bytes)
      invariant done ==> records.buffer == []
      decreases !done, |records.buffer|
    {
      var next := records.Next();
      match next
      case None => done := true;
      case Some(t) => ts := ts + [t];
    }
    ItemsAreTheBytes(bytes);
  }

  // ----- exactly which lists survive -----

  predicate Canonical(t: Tlv) { FromPrimitive(ToPrimitive(t.kind)) == t.kind }

  /** Lists that can be read back: even values, and a last value that is not empty. */
  predicate Readable(ts: seq<Tlv>) {
    && (forall t :: t in ts ==> |t.value| % 2 == 0)
    && (|ts| > 0 ==> |ts[|ts| - 1].value| > 0)
  }

  /** The record at the front is exactly the bytes it was read from. */
  lemma FrontIsRecord(b: seq<u8>)
    requires |b| > 4 && LengthField(b) + 4 <= |b|
    ensures DeserializeTlv(b).Ok?
    ensures var t := DeserializeTlv(b).value;
            |t.value| == LengthField(b) && Canonical(t) && b == TlvBytes(t) + b[WireSize(t)..]
  {
    var length := LengthField(b);
    PutGet(b[0..2]);
    PutGet(b[2..4]);
    assert b == b[0..2] + b[2..4] + b[4..4 + length] + b[4 + length..];
  }

  /** What was accepted is the bytes of a readable list: nothing is dropped, nothing invented. */
  lemma {:induction false} ItemsAreTheBytes(b: seq<u8>)
    requires Accepted(b)
    ensures SetBytes(Items(b)) == b && Readable(Items(b))
    ensures forall t :: t in Items(b) ==> Canonical(t) && |t.value| < 0x1_0000
    decreases |b|
  {
    if |b| > 4 {
      FrontIsRecord(b);
      var t := DeserializeTlv(b).value;
      var rest := b[WireSize(t)..];
      ItemsAreTheBytes(rest);
      assert Items(b) == [t] + Items(rest);
      assert Items(b)[1..] == Items(rest);
      assert rest == [] ==> |t.value| > 0;
      assert rest != [] ==> |Items(rest)| > 0;
    }
  }

  lemma FirstRecord(t: Tlv, rest: seq<u8>)
    requires |t.value| < 0x1_0000
    ensures var b := TlvBytes(t) + rest;
            && LengthField(b) == |t.value| && b[4 + |t.value|..] == rest
            && DeserializeTlv(b) == Ok(Tlv(FromPrimitive(ToPrimitive(t.kind)), t.value))
  {
    var b := TlvBytes(t) + rest;
    Powers();
    GetPut(2, ToPrimitive(t.kind));
    GetPut(2, |t.value|);
    assert b[0..2] == Put(2, ToPrimitive(t.kind));
    assert b[2..4] == Put(2, |t.value|);
    assert b[4..4 + |t.value|] == t.value;
  }

  /** A list of records is accepted exactly when it is readable. */
  lemma {:induction false} AcceptedIffReadable(ts: seq<Tlv>)
    requires forall t :: t in ts ==> |t.value| < 0x1_0000
    ensures Accepted(SetBytes(ts)) <==> Readable(ts)
  {
    if |ts| > 0 {
      var t, rest := ts[0], ts[1..];
      var b := SetBytes(ts);
      FirstRecord(t, SetBytes(rest));
      AcceptedIffReadable(rest);
      assert forall u :: u in ts <==> u == t || u in rest;
      if |rest| > 0 {
        assert |SetBytes(rest)| >= 4;
        assert Check(b) == if |t.value| % 2 != 0 then Some(Invalid) else Check(SetBytes(rest));
      } else {
        assert SetBytes(rest) == [];
        assert |b| > 4 ==> (Accepted(b) <==> |t.value| % 2 == 0);
      }
    }
  }

  /** Writing a readable list of canonical records and reading it back gives the same list. */
  lemma {:induction false} ReadableListsRoundTrip(ts: seq<Tlv>)
    requires forall t :: t in ts ==> |t.value| < 0x1_0000 && Canonical(t)
    requires Readable(ts)
    ensures Accepted(SetBytes(ts)) && Items(SetBytes(ts)) == ts
  {
    AcceptedIffReadable(ts);
    if |ts| > 0 {
      FirstRecord(ts[0], SetBytes(ts[1..]));
      if |ts| == 1 {
        assert ts[1..] == [];
      }
      ReadableListsRoundTrip(ts[1..]);
      assert ts == [ts[0]] + ts[1..];
      assert |SetBytes(ts)| > 4;
    }
  }

  // ----- building -----

  lemma {:induction false} SetBytesAppend(ts: seq<Tlv>, t: Tlv)
    ensures SetBytes(ts + [t]) == SetBytes(ts) + TlvBytes(t)
  {
    if |ts| == 0 {
      assert (ts + [t])[1..] == [];
    } else {
      SetBytesAppend(ts[1..], t);
      assert (ts + [t])[1..] == ts[1..] + [t];
    }
  }

  method SerializeTlv(t: Tlv, buffer: array<u8>, at: nat)
    requires at + WireSize(t) <= buffer.Length
    modifies buffer
    ensures buffer[..at + WireSize(t)] == old(buffer[..at]) + TlvBytes(t)
  {
    Write(buffer, at, Put(2, ToPrimitive(t.kind)));
    Write(buffer, at + 2, Put(2, |t.value| % 0x1_0000));
    Write(buffer, at + 4, t.value);
  }

  class TlvSetBuilder {
    const buffer: array<u8>
    var used: nat
    ghost var added: seq<Tlv>

    ghost predicate Valid()
      reads this, buffer
    {
      used <= buffer.Length && buffer[..used] == SetBytes(added)
    }

    constructor (buffer: array<u8>)
      ensures Valid() && this.buffer == buffer && used == 0 && added == []
    {
      this.buffer := buffer;
      used, added := 0, [];
    }

    method Add(t: Tlv)
      requires Valid() && used + WireSize(t) <= buffer.Length
      modifies this, buffer
      ensures Valid() && added == old(added) + [t] && used == old(used) + WireSize(t)
    {
      SetBytesAppend(added, t);
      SerializeTlv(t, buffer, used);
      used := used + WireSize(t);
      added := added + [t];
    }

    method Build() returns (bytes: seq<u8>)
      requires Valid()
      ensures bytes == SetBytes(added)
    {
      return buffer[..used];
    }
  }
}
