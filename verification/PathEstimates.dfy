/** The true offset and delay of a path are what the filter, fed by the exchanges on it, goes on believing. */
module PathEstimates {
  import opened Prelude
  import opened DataSets
  import opened Provenance
  import opened MeasuringPort
  import opened TimeTransfer
  import Measurement
  import Matrix
  import Kalman
  import ClockFilter
  import FilterLaws

  /** A duration in units of 2^-32 ns, in seconds. */
  function Seconds(t: int): real { t as real / 4294967296000000000.0 }

  function InSeconds(t: Option<int>): Option<real> { if t.Some? then Some(Seconds(t.value)) else None }

  /** A sample as the filter takes it. */
  function Taken(m: Measurement.Sample): ClockFilter.Measurement {
    ClockFilter.Measurement(Seconds(m.eventTime), InSeconds(m.rawSync), InSeconds(m.rawDelay), InSeconds(m.peerDelay))
  }

  lemma SecondsAdd(a: int, b: int)
    ensures Seconds(a + b) == Seconds(a) + Seconds(b) && Seconds(a - b) == Seconds(a) - Seconds(b)
  {}

  /** The configured asymmetry is the path's: half of what the way down is longer than the way up. */
  predicate Symmetric(path: Path, asymmetry: int) { 2 * asymmetry == path.down - path.up }

  /** The filter believes the path's clock offset and mean delay. */
  predicate Knows(s: Matrix.Vec3, path: Path, asymmetry: int) {
    s.x == Seconds(path.theta) && s.z == Seconds(path.down - asymmetry) == Seconds(path.up + asymmetry)
  }

  /** What a sync on the path measures confirms the true offset and delay. */
  lemma SyncConfirms(p: Measurement.Port, hs: Header, path: Path, t1: nat, followUpFirst: bool, mean: Option<int>,
                     s: Matrix.Vec3)
    requires NothingComplete(p) && p.state.Slave? && FreshFor(p.state.s.sync, hs.sequenceId)
    requires hs.source == p.state.s.remote && hs.twoStep && Secs(t1) < 0x1_0000_0000_0000 && t1 % TICK == 0
    requires Symmetric(path, p.config.asymmetry) && Knows(s, path, p.config.asymmetry)
    ensures var e := SyncEvents(hs, path, t1, followUpFirst);
            var sample := Steps2(p, e.0, e.1, mean).2;
            && sample.Some? && Taken(sample.value).rawSync.Some? && FilterLaws.Confirms(Taken(sample.value), s)
  {
    SyncMeasures(p, hs, path, t1, followUpFirst, mean);
    SecondsAdd(path.theta, path.down - p.config.asymmetry);
  }

  /** So does a delay exchange. */
  lemma DelayConfirms(p: Measurement.Port, path: Path, t3: int, request: Header, interval: i8, replyFirst: bool,
                      mean: Option<int>, s: Matrix.Vec3)
    requires NothingComplete(p) && p.state.Slave? && p.state.s.delay == Measurement.Measuring(request.sequenceId, None, None)
    requires request.source == p.config.identity && request.correction < 0x7FFF_FFFF_FFFF_0000
    requires 0 <= MasterReceipt(path, t3, request) && Secs(MasterReceipt(path, t3, request)) < 0x1_0000_0000_0000
    requires MasterReceipt(path, t3, request) % NANO == 0
    requires Symmetric(path, p.config.asymmetry) && Knows(s, path, p.config.asymmetry)
    ensures var t4 := MasterReceipt(path, t3, request);
            var e := ReplyEvents(request.sequenceId, t3, DelayRespFor(request, p.state.s.remote, interval, t4), replyFirst);
            var sample := Steps2(p, e.0, e.1, mean).2;
            && sample.Some? && Taken(sample.value).rawDelay.Some? && FilterLaws.Confirms(Taken(sample.value), s)
  {
    DelayMeasures(p, path, t3, request, interval, replyFirst, mean);
    SecondsAdd(path.theta, path.up + p.config.asymmetry);
  }

  /** A peer that receives our request, answers at t3 of its clock and tells both times, the residence times
      reported in the corrections: the sample is half the sum of the two ways, whatever the clock offset. */
  lemma PeerMeasures(path: Path, t1: int, hr: Header, hf: Header, sent: int)
    ensures var t3 := sent + Measurement.Correction(hf);
            var recv := t3 + path.theta + path.down + Measurement.Correction(hr);
            var m := PeerDelayOf(t1, hr, t1 - path.theta + path.up, recv, hf, sent);
            m.peerDelay == Some(Measurement.Half(path.down + path.up)) && m.rawSync.None? && m.rawDelay.None?
  {}

  lemma PeerConfirms(path: Path, asymmetry: int, t1: int, hr: Header, hf: Header, sent: int, s: Matrix.Vec3)
    requires Symmetric(path, asymmetry) && Knows(s, path, asymmetry)
    ensures var t3 := sent + Measurement.Correction(hf);
            var recv := t3 + path.theta + path.down + Measurement.Correction(hr);
            var m := PeerDelayOf(t1, hr, t1 - path.theta + path.up, recv, hf, sent);
            FilterLaws.Confirms(Taken(m), s) && Taken(m).peerDelay.Some?
  {
    PeerMeasures(path, t1, hr, hf, sent);
    assert path.down + path.up == 2 * (path.down - asymmetry);
  }

  /** A filter that knows the path is not moved by a sync on it. */
  lemma TrueEstimateStaysOnSync(p: Measurement.Port, hs: Header, path: Path, t1: nat, followUpFirst: bool, mean: Option<int>,
                                f: ClockFilter.Filter, env: ClockFilter.Env, config: Kalman.Config)
    requires NothingComplete(p) && p.state.Slave? && FreshFor(p.state.s.sync, hs.sequenceId)
    requires hs.source == p.state.s.remote && hs.twoStep && Secs(t1) < 0x1_0000_0000_0000 && t1 % TICK == 0
    requires Symmetric(path, p.config.asymmetry) && f.running.Some? && Knows(f.running.value.state, path, p.config.asymmetry)
    requires Kalman.Abs(f.running.value.state.z) <= config.stepThreshold
    ensures var e := SyncEvents(hs, path, t1, followUpFirst);
            var sample := Steps2(p, e.0, e.1, mean).2;
            && sample.Some?
            && var g := ClockFilter.Absorbed(f, Taken(sample.value), env, config).running;
            g.Some? && g.value.state == f.running.value.state
  {
    SyncConfirms(p, hs, path, t1, followUpFirst, mean, f.running.value.state);
    var e := SyncEvents(hs, path, t1, followUpFirst);
    FilterLaws.ExactEstimateStays(f, Taken(Steps2(p, e.0, e.1, mean).2.value), env, config);
  }

  /** ... nor by a delay exchange. */
  lemma TrueEstimateStaysOnDelay(p: Measurement.Port, path: Path, t3: int, request: Header, interval: i8, replyFirst: bool,
                                 mean: Option<int>, f: ClockFilter.Filter, env: ClockFilter.Env, config: Kalman.Config)
    requires NothingComplete(p) && p.state.Slave? && p.state.s.delay == Measurement.Measuring(request.sequenceId, None, None)
    requires request.source == p.config.identity && request.correction < 0x7FFF_FFFF_FFFF_0000
    requires 0 <= MasterReceipt(path, t3, request) && Secs(MasterReceipt(path, t3, request)) < 0x1_0000_0000_0000
    requires MasterReceipt(path, t3, request) % NANO == 0
    requires Symmetric(path, p.config.asymmetry) && f.running.Some? && Knows(f.running.value.state, path, p.config.asymmetry)
    requires Kalman.Abs(f.running.value.state.z) <= config.stepThreshold
    ensures var t4 := MasterReceipt(path, t3, request);
            var e := ReplyEvents(request.sequenceId, t3, DelayRespFor(request, p.state.s.remote, interval, t4), replyFirst);
            var sample := Steps2(p, e.0, e.1, mean).2;
            && sample.Some?
            && var g := ClockFilter.Absorbed(f, Taken(sample.value), env, config).running;
            g.Some? && g.value.state == f.running.value.state
  {
    DelayConfirms(p, path, t3, request, interval, replyFirst, mean, f.running.value.state);
    var t4 := MasterReceipt(path, t3, request);
    var e := ReplyEvents(request.sequenceId, t3, DelayRespFor(request, p.state.s.remote, interval, t4), replyFirst);
    FilterLaws.ExactEstimateStays(f, Taken(Steps2(p, e.0, e.1, mean).2.value), env, config);
  }
}
