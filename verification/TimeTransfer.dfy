/** What the wire does to a time, and what the two-way exchange recovers of a clock offset.
    Times count units of 2^-32 ns. */
module TimeTransfer {
  import opened Prelude
  import opened DataSets
  import opened Measurement
  import opened Provenance
  import opened MeasuringPort
  import Bytes
  import TlvSets
  import Messages

  const NANO := 0x1_0000_0000
  const SECOND := 1_000_000_000 * NANO

  /** A correction field's unit, 2^-16 ns. */
  const TICK := 0x1_0000

  function Secs(t: nat): nat { t / 1_000_000_000 / NANO }

  function SubsecNanos(t: nat): u32 { t % SECOND / NANO }

  function Subnano(t: nat): (r: u16) { t % NANO / TICK }

  /** The seconds keep 48 bits on the wire. */
  function ToWire(t: nat): WireTimestamp { WireTimestamp(Secs(t) % 0x1_0000_0000_0000, SubsecNanos(t)) }

  function FromWire(w: WireTimestamp): nat { (w.seconds * 1_000_000_000 + w.nanos) * NANO }

  // ----- the master's side -----

  function FollowUpFor(base: Header, t1: nat): Event {
    FollowUp(base.(correction := Subnano(t1)), FromWire(ToWire(t1)))
  }

  function DelayRespFor(request: Header, own: PortIdentity, interval: i8, t4: nat): Event {
    DelayResp(
      request.(twoStep := false, source := own, correction := WrapI64(request.correction + Subnano(t4)), logInterval := interval),
      request.source, FromWire(ToWire(t4)))
  }

  // ----- the same messages as bytes -----

  /** What a received message is to the measurement handlers. */
  function Delivered(m: Messages.Message): Option<Event> {
    match m.body
    case FollowUpBody(t) => Some(FollowUp(m.header, FromWire(t)))
    case DelayRespBody(t, requesting) => Some(DelayResp(m.header, requesting, FromWire(t)))
    case _ => None
  }

  function FollowUpMessage(base: Header, t1: nat): Messages.Message {
    Messages.Message(base.(correction := Subnano(t1)), Messages.FollowUpBody(ToWire(t1)), [])
  }

  function DelayRespMessage(request: Header, own: PortIdentity, interval: i8, t4: nat): Messages.Message {
    Messages.Message(
      request.(twoStep := false, source := own, correction := WrapI64(request.correction + Subnano(t4)), logInterval := interval),
      Messages.DelayRespBody(ToWire(t4), request.source), [])
  }

  /** Both messages reach the slave's handlers through the codec unchanged. */
  lemma FollowUpCrossesTheWire(h: Header, t: nat, previous: seq<u8>)
    requires |previous| == 44
    ensures Messages.Parse(Messages.MessageBytes(FollowUpMessage(h, t), previous)) == Bytes.Ok(FollowUpMessage(h, t))
    ensures Delivered(FollowUpMessage(h, t)) == Some(FollowUpFor(h, t))
  {
    Messages.RoundTripsIffFits(FollowUpMessage(h, t), previous);
  }

  lemma DelayRespCrossesTheWire(h: Header, own: PortIdentity, interval: i8, t: nat, previous: seq<u8>)
    requires |previous| == 54
    ensures var m := DelayRespMessage(h, own, interval, t);
            Messages.Parse(Messages.MessageBytes(m, previous)) == Bytes.Ok(m) && Delivered(m) == Some(DelayRespFor(h, own, interval, t))
  {
    Messages.RoundTripsIffFits(DelayRespMessage(h, own, interval, t), previous);
  }

  // ----- what survives the wire -----

  lemma SecsIsFloor(t: nat)
    ensures t == Secs(t) * SECOND + t % SECOND
  {
    var q, r := t / 1_000_000_000, t % 1_000_000_000;
    assert q == q / NANO * NANO + q % NANO;
    var low := (q % NANO) * 1_000_000_000 + r;
    assert t == (q / NANO) * SECOND + low && 0 <= low < SECOND;
  }

  /** A wire timestamp carries the whole nanoseconds, up to 2^48 seconds. */
  lemma WireKeepsNanos(t: nat)
    ensures FromWire(ToWire(t)) == t - t % NANO - (Secs(t) / 0x1_0000_0000_0000) * 0x1_0000_0000_0000 * SECOND
  {
    SecsIsFloor(t);
    var rest := t % SECOND;
    assert rest == rest / NANO * NANO + rest % NANO;
    assert t % NANO == rest % NANO by {
      assert t == (Secs(t) * 1_000_000_000 + rest / NANO) * NANO + rest % NANO;
    }
    assert Secs(t) == Secs(t) / 0x1_0000_0000_0000 * 0x1_0000_0000_0000 + Secs(t) % 0x1_0000_0000_0000;
  }

  lemma FractionInTicks(t: nat)
    ensures t % NANO == Subnano(t) * TICK + t % TICK
  {
    var f := t % NANO;
    assert t == (t / NANO * 0x1_0000 + f / TICK) * TICK + f % TICK;
  }

  /** The slave recovers the send time rounded down to 2^-16 ns, exactly when its seconds fit 48 bits. */
  lemma FollowUpRecovers(base: Header, t1: nat)
    ensures var e := FollowUpFor(base, t1);
            e.precise + Correction(e.h) == t1 - t1 % TICK <==> Secs(t1) < 0x1_0000_0000_0000
  {
    WireKeepsNanos(t1);
    FractionInTicks(t1);
    var lost := Secs(t1) / 0x1_0000_0000_0000;
    assert lost == 0 <==> Secs(t1) < 0x1_0000_0000_0000;
  }

  /** What the response leg adds to the receipt time: its fraction, once lost and once subtracted. */
  function ResponseError(t4: nat): int { t4 % NANO + Subnano(t4) * TICK }

  lemma DelayRespRecovers(request: Header, own: PortIdentity, interval: i8, t4: nat)
    requires Secs(t4) < 0x1_0000_0000_0000 && request.correction < 0x7FFF_FFFF_FFFF_0000
    ensures var e := DelayRespFor(request, own, interval, t4);
            && e.received - Correction(e.h) == t4 - request.correction * TICK - ResponseError(t4)
            && (e.received - Correction(e.h) == t4 - request.correction * TICK <==> t4 % NANO == 0)
            && 0 <= ResponseError(t4) < 2 * NANO
  {
    WireKeepsNanos(t4);
    assert Secs(t4) / 0x1_0000_0000_0000 == 0;
    assert 0 <= Subnano(t4) * TICK <= t4 % NANO;
  }

  // ----- the two-way exchange -----

  /** A master whose clock is `theta` behind ours, with one-way delays `down` and `up`; the residence
      times that clocks on the way report come on top. */
  datatype Path = Path(theta: int, down: int, up: int)

  /** Our receipt time of what the master sent at t1. */
  function Arrival(path: Path, t1: int, h: Header): int { t1 + path.down + Correction(h) + path.theta }

  /** The master's receipt time of what we sent at t3. */
  function MasterReceipt(path: Path, t3: int, request: Header): int { t3 - path.theta + path.up + Correction(request) }

  /** Both messages of a sync, in the order given. */
  function SyncEvents(hs: Header, path: Path, t1: nat, followUpFirst: bool): (Event, Event) {
    var s, f := Sync(hs, 0, Arrival(path, t1, hs)), FollowUpFor(hs, t1);
    if followUpFirst then (f, s) else (s, f)
  }

  function ReplyEvents(id: u16, t3: int, reply: Event, replyFirst: bool): (Event, Event) {
    if replyFirst then (reply, DelayTimestamp(id, t3)) else (DelayTimestamp(id, t3), reply)
  }

  /** Each sync measures the offset plus the way down, off by less than 2^-16 ns. */
  lemma SyncMeasures(p: Port, hs: Header, path: Path, t1: nat, followUpFirst: bool, mean: Option<int>)
    requires NothingComplete(p) && p.state.Slave? && FreshFor(p.state.s.sync, hs.sequenceId)
    requires hs.source == p.state.s.remote && hs.twoStep && Secs(t1) < 0x1_0000_0000_0000
    ensures var e := SyncEvents(hs, path, t1, followUpFirst);
            var r := Steps2(p, e.0, e.1, mean);
            var raw := path.theta + path.down + t1 % TICK - p.config.asymmetry;
            && r.2.Some? && r.2.value.rawSync == Some(raw) && r.2.value.rawDelay.None? && r.2.value.peerDelay.None?
            && r.2.value.offset == (if p.meanDelay.Some? then Some(raw - p.meanDelay.value) else None)
            && r.0 == p.(state := Slave(p.state.s.(sync := Empty, lastRawSync := Some(raw))), arrivals := p.arrivals + 2,
                         meanDelay := if mean.Some? then mean else p.meanDelay)
  {
    FollowUpRecovers(hs, t1);
    var f := FollowUpFor(hs, t1);
    SyncOrder(p, hs, 0, Arrival(path, t1, hs), f.h, f.precise, mean);
  }

  /** Each answered request measures the offset minus the way up, and with the last sync the mean delay. */
  lemma DelayMeasures(p: Port, path: Path, t3: int, request: Header, interval: i8, replyFirst: bool, mean: Option<int>)
    requires NothingComplete(p) && p.state.Slave? && p.state.s.delay == Measuring(request.sequenceId, None, None)
    requires request.source == p.config.identity && request.correction < 0x7FFF_FFFF_FFFF_0000
    requires 0 <= MasterReceipt(path, t3, request) && Secs(MasterReceipt(path, t3, request)) < 0x1_0000_0000_0000
    ensures var t4 := MasterReceipt(path, t3, request);
            var e := ReplyEvents(request.sequenceId, t3, DelayRespFor(request, p.state.s.remote, interval, t4), replyFirst);
            var r := Steps2(p, e.0, e.1, mean);
            var raw := path.theta - path.up + ResponseError(t4) - p.config.asymmetry;
            && r.2.Some? && r.2.value.rawDelay == Some(raw) && r.2.value.rawSync.None? && r.2.value.peerDelay.None?
            && r.2.value.delay == (if p.state.s.lastRawSync.Some? then Some(Half(p.state.s.lastRawSync.value - raw)) else None)
            && r.0 == p.(state := Slave(p.state.s.(delay := Empty)), arrivals := p.arrivals + 2,
                         meanDelay := if mean.Some? then mean else p.meanDelay)
  {
    var t4: nat := MasterReceipt(path, t3, request);
    DelayRespRecovers(request, p.state.s.remote, interval, t4);
    var e := DelayRespFor(request, p.state.s.remote, interval, t4);
    DelayOrder(p, t3, e.h, e.received, mean);
  }

  /** A sync, a delay exchange whose delay the filter adopts, and a later sync, each pair of messages
      in either order: the offset the later sync reports is the clock offset plus half the difference
      of the ways minus the configured asymmetry, up to the fractions the wire drops and one unit. */
  lemma OffsetIsRecovered(p: Port, path: Path, h1: Header, t1: nat, first1: bool, t3: int, request: Header, interval: i8,
                          first3: bool, h2: Header, t5: nat, first5: bool)
    requires NothingComplete(p) && p.state.Slave? && !p.config.peerToPeer && p.delayIds == request.sequenceId
    requires FreshFor(p.state.s.sync, h1.sequenceId) && request.source == p.config.identity
    requires h1.source == h2.source == p.state.s.remote && h1.twoStep && h2.twoStep && request.correction < 0x7FFF_FFFF_FFFF_0000
    requires Secs(t1) < 0x1_0000_0000_0000 && Secs(t5) < 0x1_0000_0000_0000
    requires 0 <= MasterReceipt(path, t3, request) && Secs(MasterReceipt(path, t3, request)) < 0x1_0000_0000_0000
    ensures var t4 := MasterReceipt(path, t3, request);
            var s1 := SyncEvents(h1, path, t1, first1);
            var p1 := Steps2(p, s1.0, s1.1, None).0;
            var p2 := Step(p1, DelayRequest, None).port;
            var e := ReplyEvents(request.sequenceId, t3, DelayRespFor(request, p.state.s.remote, interval, t4), first3);
            var measured := Steps2(p2, e.0, e.1, None).2;
            && measured.Some? && measured.value.delay.Some?
            && var p3 := Steps2(p2, e.0, e.1, measured.value.delay).0;
            && var s5 := SyncEvents(h2, path, t5, first5);
            && var last := Steps2(p3, s5.0, s5.1, None).2;
            && last.Some? && last.value.offset.Some?
            && var exact := 2 * path.theta + path.down - path.up - 2 * p.config.asymmetry;
            && var lost := 2 * (t5 % TICK) - t1 % TICK + ResponseError(t4);
            && exact + lost - 1 <= 2 * last.value.offset.value <= exact + lost + 1
            && (t4 % NANO == 0 ==> exact - TICK <= 2 * last.value.offset.value <= exact + 2 * TICK)
  {
    var t4: nat := MasterReceipt(path, t3, request);
    SyncMeasures(p, h1, path, t1, first1, None);
    var s1 := SyncEvents(h1, path, t1, first1);
    var p1 := Steps2(p, s1.0, s1.1, None).0;
    var p2 := Step(p1, DelayRequest, None).port;
    DelayMeasures(p2, path, t3, request, interval, first3, None);
    var e := ReplyEvents(request.sequenceId, t3, DelayRespFor(request, p.state.s.remote, interval, t4), first3);
    var measured := Steps2(p2, e.0, e.1, None).2;
    DelayMeasures(p2, path, t3, request, interval, first3, measured.value.delay);
    var p3 := Steps2(p2, e.0, e.1, measured.value.delay).0;
    SyncMeasures(p3, h2, path, t5, first5, None);
  }
}
