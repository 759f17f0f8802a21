/** Which records an announce carries on: the sender's own path trace and what it forwards. */
module AnnounceSender {
  import opened Prelude
  import opened DataSets
  import opened Bytes
  import TlvSets
  import opened Messages

  const MAX_DATA_LEN := 1024

  /** An announce without records. */
  const ANNOUNCE_SIZE := 64

  /** A record waiting to be forwarded, and who sent it. */
  datatype Offer = Offer(tlv: TlvSets.Tlv, sender: PortIdentity)

  function Size(o: Offer): nat { TlvSets.WireSize(o.tlv) }

  /** Only the parent's records are forwarded, and no path trace when we send our own. */
  predicate Forwards(o: Offer, parent: PortIdentity, trace: bool) {
    o.sender == parent && !(trace && o.tlv.kind == TlvSets.PathTrace)
  }

  function Chosen(o: Offer, parent: PortIdentity, trace: bool): seq<TlvSets.Tlv> {
    if Forwards(o, parent, trace) then [o.tlv] else []
  }

  function Forwarded(offers: seq<Offer>, parent: PortIdentity, trace: bool): seq<TlvSets.Tlv> {
    if |offers| == 0 then []
    else
      var o := offers[|offers| - 1];
      Forwarded(offers[..|offers| - 1], parent, trace) + Chosen(o, parent, trace)
  }

  /** What is left of the margin when the first k offers have been dealt with. */
  function Room(offers: seq<Offer>, k: nat, margin: int, parent: PortIdentity, trace: bool): int
    requires k <= |offers|
  {
    margin - |TlvSets.SetBytes(Forwarded(offers[..k], parent, trace))|
  }

  /** The first n offers were each strictly smaller than the room they found. */
  predicate TakenUpTo(offers: seq<Offer>, n: nat, margin: int, parent: PortIdentity, trace: bool)
    requires n <= |offers|
  {
    forall k :: 0 <= k < n ==> Size(offers[k]) < Room(offers, k, margin, parent, trace)
  }

  lemma RoomAfter(offers: seq<Offer>, k: nat, margin: int, parent: PortIdentity, trace: bool)
    requires k < |offers|
    ensures Forwarded(offers[..k + 1], parent, trace)
         == Forwarded(offers[..k], parent, trace) + Chosen(offers[k], parent, trace)
    ensures Room(offers, k + 1, margin, parent, trace)
         == Room(offers, k, margin, parent, trace) - if Forwards(offers[k], parent, trace) then Size(offers[k]) else 0
  {
    assert offers[..k + 1][..k] == offers[..k];
    var before := Forwarded(offers[..k], parent, trace);
    TlvSets.SetBytesAppend(before, offers[k].tlv);
    assert before + [] == before;
  }

  /** How many offers are taken, from offer k on: up to the first that is not strictly smaller than
      the room it finds. */
  function Taking(offers: seq<Offer>, k: nat, margin: int, parent: PortIdentity, trace: bool): (n: nat)
    requires k <= |offers|
    ensures k <= n <= |offers|
    decreases |offers| - k
  {
    if k < |offers| && Size(offers[k]) < Room(offers, k, margin, parent, trace)
    then Taking(offers, k + 1, margin, parent, trace) else k
  }

  lemma {:induction false} TakingStops(offers: seq<Offer>, k: nat, margin: int, parent: PortIdentity, trace: bool)
    requires k <= |offers| && TakenUpTo(offers, k, margin, parent, trace)
    ensures var n := Taking(offers, k, margin, parent, trace);
            && TakenUpTo(offers, n, margin, parent, trace)
            && (n < |offers| ==> Size(offers[n]) >= Room(offers, n, margin, parent, trace))
    decreases |offers| - k
  {
    if k < |offers| && Size(offers[k]) < Room(offers, k, margin, parent, trace) {
      TakingStops(offers, k + 1, margin, parent, trace);
    }
  }

  /** Some offer, with all before it taken, fills the room that is left: the provider may hand it out,
      and the sender's assertion fails. */
  ghost predicate Breaks(offers: seq<Offer>, margin: int, parent: PortIdentity, trace: bool) {
    exists k :: && 0 <= k < |offers| && TakenUpTo(offers, k, margin, parent, trace)
                && Size(offers[k]) == Room(offers, k, margin, parent, trace)
  }

  lemma BreaksWhereTakingStops(offers: seq<Offer>, margin: int, parent: PortIdentity, trace: bool)
    ensures var n := Taking(offers, 0, margin, parent, trace);
            Breaks(offers, margin, parent, trace) <==>
              n < |offers| && Size(offers[n]) == Room(offers, n, margin, parent, trace)
  {
    var n := Taking(offers, 0, margin, parent, trace);
    TakingStops(offers, 0, margin, parent, trace);
    if k :| && 0 <= k < |offers| && TakenUpTo(offers, k, margin, parent, trace)
            && Size(offers[k]) == Room(offers, k, margin, parent, trace) {
      assert k == n;
    }
  }

  /** What is taken leaves room. */
  lemma {:induction false} RoomStaysPositive(offers: seq<Offer>, n: nat, margin: int, parent: PortIdentity, trace: bool)
    requires margin > 0 && n <= |offers| && TakenUpTo(offers, n, margin, parent, trace)
    ensures 0 < Room(offers, n, margin, parent, trace) <= margin
  {
    if n > 0 {
      RoomStaysPositive(offers, n - 1, margin, parent, trace);
      RoomAfter(offers, n - 1, margin, parent, trace);
    }
  }

  lemma Associates<T>(a: seq<T>, b: seq<T>, c: seq<T>)
    ensures a + (b + c) == a + b + c
  {}

  // ----- the path trace -----

  function PathBytes(path: seq<ClockIdentity>): (r: seq<u8>)
    ensures |r| == 8 * |path|
  {
    if |path| == 0 then [] else Put(8, path[0]) + PathBytes(path[1..])
  }

  function PathTlv(path: seq<ClockIdentity>, own: ClockIdentity): TlvSets.Tlv {
    TlvSets.Tlv(TlvSets.PathTrace, PathBytes(path + [own]))
  }

  /** Our own record, when path trace is on, the path has a free place and the record fits. */
  function OwnTrace(path: Option<seq<ClockIdentity>>, own: ClockIdentity, margin: int): seq<TlvSets.Tlv> {
    if path.Some? && |path.value| < MAX_DATA_LEN / 8 && margin > TlvSets.WireSize(PathTlv(path.value, own))
    then [PathTlv(path.value, own)] else []
  }

  method AddOwnTrace(builder: TlvSets.TlvSetBuilder, path: Option<seq<ClockIdentity>>, own: ClockIdentity, margin: nat)
      returns (left: nat)
    requires builder.Valid() && builder.added == [] && builder.used == 0 && margin <= builder.buffer.Length
    modifies builder, builder.buffer
    ensures builder.Valid() && builder.added == OwnTrace(path, own, margin) && left + builder.used == margin
    ensures margin > 0 ==> left > 0
  {
    left := margin;
    if path.Some? && |path.value| < MAX_DATA_LEN / 8 {
      var t := PathTlv(path.value, own);
      if margin > TlvSets.WireSize(t) {
        left := margin - TlvSets.WireSize(t);
        builder.Add(t);
      }
    }
  }

  method TakeOffer(builder: TlvSets.TlvSetBuilder, o: Offer, parent: PortIdentity, trace: bool, margin: nat) returns (left: nat)
    requires builder.Valid() && builder.used + margin <= builder.buffer.Length && Size(o) < margin
    modifies builder, builder.buffer
    ensures builder.Valid() && builder.added == old(builder.added) + Chosen(o, parent, trace)
    ensures left == margin - (if Forwards(o, parent, trace) then Size(o) else 0)
    ensures builder.used + left == old(builder.used) + margin
  {
    left := margin;
    if Forwards(o, parent, trace) {
      left := left - Size(o);
      builder.Add(o.tlv);
    }
  }

  /** The provider answers with the next offer unless it is larger than the room. An answer that
      fills the room exactly breaks the sender's assertion: not ok. */
  method AddForwarded(builder: TlvSets.TlvSetBuilder, parent: PortIdentity, trace: bool, offers: seq<Offer>, margin: nat)
      returns (ok: bool)
    requires builder.Valid() && builder.used + margin <= builder.buffer.Length && margin > 0
    modifies builder, builder.buffer
    ensures builder.Valid()
    ensures ok <==> !Breaks(offers, margin, parent, trace)
    ensures var n := Taking(offers, 0, margin, parent, trace);
            builder.added == old(builder.added) + Forwarded(offers[..n], parent, trace)
    ensures builder.used < old(builder.used) + margin
  {
    var left, n := margin, 0;
    ghost var start := builder.added;
    assert offers[..0] == [];
    BreaksWhereTakingStops(offers, margin, parent, trace);
    while n < |offers| && Size(offers[n]) <= left
      invariant n <= |offers| && builder.Valid()
      invariant builder.added == start + Forwarded(offers[..n], parent, trace)
      invariant left == Room(offers, n, margin, parent, trace) > 0
      invariant builder.used + left == old(builder.used) + margin
      invariant Taking(offers, n, margin, parent, trace) == Taking(offers, 0, margin, parent, trace)
    {
      if Size(offers[n]) == left {
        return false;
      }
      RoomAfter(offers, n, margin, parent, trace);
      Associates(start, Forwarded(offers[..n], parent, trace), Chosen(offers[n], parent, trace));
      left := TakeOffer(builder, offers[n], parent, trace, left);
      n := n + 1;
    }
    return true;
  }

  /** The room for forwarded records in an announce of `size` bytes. */
  function MarginFor(path: Option<seq<ClockIdentity>>, own: ClockIdentity, size: nat): int {
    MAX_DATA_LEN - size - |TlvSets.SetBytes(OwnTrace(path, own, MAX_DATA_LEN - size))|
  }

  /** All records of an announce of `size` bytes: the own path trace and what is forwarded. */
  function RecordsOf(path: Option<seq<ClockIdentity>>, own: ClockIdentity, parent: PortIdentity, offers: seq<Offer>, size: nat)
      : seq<TlvSets.Tlv>
  {
    var n := Taking(offers, 0, MarginFor(path, own, size), parent, path.Some?);
    OwnTrace(path, own, MAX_DATA_LEN - size) + Forwarded(offers[..n], parent, path.Some?)
  }

  /** The records of an announce of `size` bytes, or None where the assertion breaks. With the records,
      the announce stays below the limit. */
  method ChooseRecords(path: Option<seq<ClockIdentity>>, own: ClockIdentity, parent: PortIdentity, offers: seq<Offer>, size: nat)
      returns (bytes: Option<seq<u8>>)
    requires size < MAX_DATA_LEN
    ensures bytes.None? <==> Breaks(offers, MarginFor(path, own, size), parent, path.Some?)
    ensures bytes.Some? ==>
              bytes.value == TlvSets.SetBytes(RecordsOf(path, own, parent, offers, size)) && size + |bytes.value| < MAX_DATA_LEN
  {
    var buffer := new u8[MAX_DATA_LEN](_ => 0);
    var builder := new TlvSets.TlvSetBuilder(buffer);
    var left := AddOwnTrace(builder, path, own, MAX_DATA_LEN - size);
    assert left == MarginFor(path, own, size);
    var ok := AddForwarded(builder, parent, path.Some?, offers, left);
    RecordsFit(path, own, parent, offers, size);
    bytes := None;
    if ok {
      var built := builder.Build();
      bytes := Some(built);
    }
  }

  /** An offer that fills the room of a plain announce exactly. */
  lemma FullRoomBreaks(own: ClockIdentity, parent: PortIdentity)
    ensures var offer := Offer(TlvSets.Tlv(TlvSets.OrganizationExtensionPropagate, seq(956, _ => 0)), parent);
            Size(offer) == 960 == MarginFor(None, own, ANNOUNCE_SIZE) && Breaks([offer], 960, parent, false)
  {
    var offer := Offer(TlvSets.Tlv(TlvSets.OrganizationExtensionPropagate, seq(956, _ => 0)), parent);
    assert [offer][..0] == [];
    assert TakenUpTo([offer], 0, 960, parent, false) && Size([offer][0]) == Room([offer], 0, 960, parent, false);
  }

  // ----- what arrives -----

  function AnnounceWith(a: Announce, records: seq<TlvSets.Tlv>): Message {
    Message(a.header, AnnounceBody(a), TlvSets.SetBytes(records))
  }

  lemma {:induction false} ForwardedAreOffered(offers: seq<Offer>, parent: PortIdentity, trace: bool)
    ensures forall t :: t in Forwarded(offers, parent, trace) ==> exists o :: o in offers && o.tlv == t && Forwards(o, parent, trace)
  {
    if |offers| > 0 {
      ForwardedAreOffered(offers[..|offers| - 1], parent, trace);
    }
  }

  /** Every record sent is small: it fitted a packet. */
  lemma RecordsAreSmall(path: Option<seq<ClockIdentity>>, own: ClockIdentity, parent: PortIdentity, offers: seq<Offer>, size: nat)
    requires size < MAX_DATA_LEN
    ensures forall t :: t in RecordsOf(path, own, parent, offers, size) ==> |t.value| < MAX_DATA_LEN
  {
    var margin := MarginFor(path, own, size);
    var n := Taking(offers, 0, margin, parent, path.Some?);
    ForwardedAreOffered(offers[..n], parent, path.Some?);
    TakingStops(offers, 0, margin, parent, path.Some?);
    forall o | o in offers[..n] ensures |o.tlv.value| < MAX_DATA_LEN {
      var j :| 0 <= j < n && offers[j] == o;
      assert Size(offers[j]) < Room(offers, j, margin, parent, path.Some?);
    }
  }

  lemma OwnTraceSize(path: Option<seq<ClockIdentity>>, own: ClockIdentity, margin: int)
    requires margin > 0
    ensures |TlvSets.SetBytes(OwnTrace(path, own, margin))| < margin
  {
    var ts := OwnTrace(path, own, margin);
    assert ts != [] ==> ts[1..] == [];
  }

  lemma {:induction false} SetBytesConcat(a: seq<TlvSets.Tlv>, b: seq<TlvSets.Tlv>)
    ensures TlvSets.SetBytes(a + b) == TlvSets.SetBytes(a) + TlvSets.SetBytes(b)
  {
    if |a| == 0 {
      assert a + b == b;
    } else {
      SetBytesConcat(a[1..], b);
      assert (a + b)[0] == a[0] && (a + b)[1..] == a[1..] + b;
      Associates(TlvSets.TlvBytes(a[0]), TlvSets.SetBytes(a[1..]), TlvSets.SetBytes(b));
    }
  }

  lemma RecordsFit(path: Option<seq<ClockIdentity>>, own: ClockIdentity, parent: PortIdentity, offers: seq<Offer>, size: nat)
    requires size < MAX_DATA_LEN
    ensures size + |TlvSets.SetBytes(RecordsOf(path, own, parent, offers, size))| < MAX_DATA_LEN
  {
    var first, margin := OwnTrace(path, own, MAX_DATA_LEN - size), MarginFor(path, own, size);
    var n := Taking(offers, 0, margin, parent, path.Some?);
    OwnTraceSize(path, own, MAX_DATA_LEN - size);
    TakingStops(offers, 0, margin, parent, path.Some?);
    RoomStaysPositive(offers, n, margin, parent, path.Some?);
    SetBytesConcat(first, Forwarded(offers[..n], parent, path.Some?));
  }

  /** Whatever is offered: the announce arrives exactly if its own data survive the wire, all its
      records have even length and the last one is not empty. */
  lemma AnnounceArrives(a: Announce, path: Option<seq<ClockIdentity>>, own: ClockIdentity, parent: PortIdentity,
                        offers: seq<Offer>, previous: seq<u8>)
    requires |previous| == WireSize(AnnounceWith(a, RecordsOf(path, own, parent, offers, ANNOUNCE_SIZE)))
    ensures var records := RecordsOf(path, own, parent, offers, ANNOUNCE_SIZE);
            var m := AnnounceWith(a, records);
            Parse(MessageBytes(m, previous)) == Ok(m) <==> BodyFits(m.body, m.header) && TlvSets.Readable(records)
  {
    var records := RecordsOf(path, own, parent, offers, ANNOUNCE_SIZE);
    RecordsFit(path, own, parent, offers, ANNOUNCE_SIZE);
    RecordsAreSmall(path, own, parent, offers, ANNOUNCE_SIZE);
    TlvSets.AcceptedIffReadable(records);
    RoundTripsIffFits(AnnounceWith(a, records), previous);
  }

  /** A record as it comes out of a received message: even length, a type that keeps its code. */
  predicate Receivable(t: TlvSets.Tlv) { |t.value| % 2 == 0 && TlvSets.Canonical(t) }

  lemma ReceivedIsReceivable(b: seq<u8>)
    requires TlvSets.Accepted(b)
    ensures forall t :: t in TlvSets.Items(b) ==> Receivable(t)
  {
    TlvSets.ItemsAreTheBytes(b);
  }

  lemma OwnTraceIsReceivable(path: Option<seq<ClockIdentity>>, own: ClockIdentity, margin: int)
    ensures forall t :: t in OwnTrace(path, own, margin) ==> Receivable(t)
  {}

  lemma RecordsAreReceivable(path: Option<seq<ClockIdentity>>, own: ClockIdentity, parent: PortIdentity, offers: seq<Offer>)
    requires forall o :: o in offers ==> Receivable(o.tlv)
    ensures forall t :: t in RecordsOf(path, own, parent, offers, ANNOUNCE_SIZE) ==> Receivable(t)
  {
    var n := Taking(offers, 0, MarginFor(path, own, ANNOUNCE_SIZE), parent, path.Some?);
    var first, rest := OwnTrace(path, own, MAX_DATA_LEN - ANNOUNCE_SIZE), Forwarded(offers[..n], parent, path.Some?);
    OwnTraceIsReceivable(path, own, MAX_DATA_LEN - ANNOUNCE_SIZE);
    ForwardedAreOffered(offers[..n], parent, path.Some?);
    forall t: TlvSets.Tlv | t in first + rest ensures Receivable(t) {
      if t in rest {
        var o :| o in offers[..n] && o.tlv == t;
        assert o in offers;
      }
    }
  }

  lemma ReceivableListsRoundTrip(records: seq<TlvSets.Tlv>)
    requires forall t :: t in records ==> Receivable(t) && |t.value| < MAX_DATA_LEN
    ensures TlvSets.Readable(records) <==> records == [] || records[|records| - 1].value != []
    ensures TlvSets.Readable(records) ==>
              TlvSets.Accepted(TlvSets.SetBytes(records)) && TlvSets.Items(TlvSets.SetBytes(records)) == records
  {
    if TlvSets.Readable(records) {
      TlvSets.ReadableListsRoundTrip(records);
    }
  }

  /** When all that is offered was received from somebody, an empty last record is the only thing that
      keeps the announce from arriving; if it arrives, it arrives with exactly these records. */
  lemma ForwardedRecordsArrive(a: Announce, path: Option<seq<ClockIdentity>>, own: ClockIdentity, parent: PortIdentity,
                               offers: seq<Offer>, previous: seq<u8>)
    requires forall o :: o in offers ==> Receivable(o.tlv)
    requires BodyFits(AnnounceBody(a), a.header)
    requires |previous| == WireSize(AnnounceWith(a, RecordsOf(path, own, parent, offers, ANNOUNCE_SIZE)))
    ensures var records := RecordsOf(path, own, parent, offers, ANNOUNCE_SIZE);
            var m := AnnounceWith(a, records);
            if records == [] || records[|records| - 1].value != []
            then Parse(MessageBytes(m, previous)) == Ok(m) && TlvSets.Accepted(m.suffix) && TlvSets.Items(m.suffix) == records
            else Parse(MessageBytes(m, previous)) != Ok(m)
  {
    var records := RecordsOf(path, own, parent, offers, ANNOUNCE_SIZE);
    AnnounceArrives(a, path, own, parent, offers, previous);
    RecordsAreReceivable(path, own, parent, offers);
    RecordsAreSmall(path, own, parent, offers, ANNOUNCE_SIZE);
    ReceivableListsRoundTrip(records);
  }

  /** A single small offer of the parent is taken. */
  lemma SingleIsTaken(own: ClockIdentity, offer: Offer)
    requires Size(offer) < 960
    ensures RecordsOf(None, own, offer.sender, [offer], ANNOUNCE_SIZE) == [offer.tlv]
    ensures !Breaks([offer], MarginFor(None, own, ANNOUNCE_SIZE), offer.sender, false)
  {
    var offers := [offer];
    assert offers[..0] == [] && offers[..1] == offers;
    assert MarginFor(None, own, ANNOUNCE_SIZE) == 960 == Room(offers, 0, 960, offer.sender, false);
    assert Taking(offers, 1, 960, offer.sender, false) == 1 == Taking(offers, 0, 960, offer.sender, false);
    assert Forwarded(offers, offer.sender, false) == [] + [offer.tlv];
    BreaksWhereTakingStops(offers, 960, offer.sender, false);
  }

  lemma SingleSize(t: TlvSets.Tlv)
    ensures TlvSets.SetBytes([t]) == TlvSets.TlvBytes(t) && |TlvSets.SetBytes([t])| == TlvSets.WireSize(t)
  {
    assert [t][1..] == [] && TlvSets.SetBytes([t][1..]) == [];
    assert TlvSets.TlvBytes(t) + [] == TlvSets.TlvBytes(t);
  }

  lemma EmptyIsNotReadable(t: TlvSets.Tlv)
    requires t.value == []
    ensures !TlvSets.Readable([t])
  {
    assert [t][|[t]| - 1] == t;
  }

  /** An empty record, which a received message may carry before its last one, forwarded alone: the
      announce is sent and nobody can read it. */
  lemma EmptyRecordIsUnreadable(a: Announce, own: ClockIdentity, offer: Offer, previous: seq<u8>)
    requires offer.tlv.value == [] && |previous| == 68
    ensures !Breaks([offer], MarginFor(None, own, ANNOUNCE_SIZE), offer.sender, false)
    ensures var m := AnnounceWith(a, RecordsOf(None, own, offer.sender, [offer], ANNOUNCE_SIZE));
            WireSize(m) == 68 && Parse(MessageBytes(m, previous)) != Ok(m)
  {
    SingleIsTaken(own, offer);
    SingleSize(offer.tlv);
    EmptyIsNotReadable(offer.tlv);
    AnnounceArrives(a, None, own, offer.sender, [offer], previous);
  }

  /** Choosing the records and writing the announce into the packet buffer: nothing is sent exactly
      where the assertion breaks; what is sent can be read exactly if its records allow it. */
  method SendAnnounce(a: Announce, path: Option<seq<ClockIdentity>>, own: ClockIdentity, parent: PortIdentity,
                      offers: seq<Offer>, packet: array<u8>)
      returns (sent: Option<nat>)
    requires packet.Length == MAX_DATA_LEN
    modifies packet
    ensures sent.None? <==> Breaks(offers, MarginFor(path, own, ANNOUNCE_SIZE), parent, path.Some?)
    ensures sent.Some? ==>
              var records := RecordsOf(path, own, parent, offers, ANNOUNCE_SIZE);
              var m := AnnounceWith(a, records);
              && sent.value == WireSize(m) < MAX_DATA_LEN
              && (Parse(packet[..sent.value]) == Ok(m) <==> BodyFits(m.body, m.header) && TlvSets.Readable(records))
  {
    var bytes := ChooseRecords(path, own, parent, offers, ANNOUNCE_SIZE);
    if bytes.None? {
      return None;
    }
    var m := Message(a.header, AnnounceBody(a), bytes.value);
    ghost var previous := packet[..WireSize(m)];
    var size := Serialize(m, packet);
    AnnounceArrives(a, path, own, parent, offers, previous);
    return Some(size);
  }
}
