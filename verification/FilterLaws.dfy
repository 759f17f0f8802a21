/** What the measurements mean to the filter: which estimates they confirm, where they pull the others, and
    what time and steering do to an estimate, entry by entry. */
module FilterLaws {
  import opened Prelude
  import opened DataSets
  import opened Matrix
  import opened Kalman
  import opened ClockFilter

  /** The estimated way of the master's messages to us, as an offset: clock offset plus delay. */
  function Down(s: Vec3): real { s.x + s.z }

  /** The way of ours to the master: clock offset minus delay. */
  function Up(s: Vec3): real { s.x - s.z }

  // The variances of the two and of the delay, from the entries of a covariance.

  function DownVariance(p: Mat3): real { p.r0.x + p.r0.z + p.r2.x + p.r2.z }

  function UpVariance(p: Mat3): real { p.r0.x - p.r0.z - p.r2.x + p.r2.z }

  function DelayVariance(p: Mat3): real { p.r2.z }

  // ----- what each row measures -----

  lemma SyncRow(p: Mat3, s: Vec3)
    ensures Dot(MEASUREMENT_SYNC, s) == Down(s) && Quad(p, MEASUREMENT_SYNC) == DownVariance(p)
  {}

  lemma DelayRow(p: Mat3, s: Vec3)
    ensures Dot(MEASUREMENT_DELAY, s) == Up(s) && Quad(p, MEASUREMENT_DELAY) == UpVariance(p)
  {}

  lemma PeerRow(p: Mat3, s: Vec3)
    ensures Dot(MEASUREMENT_PEER_DELAY, s) == s.z && Quad(p, MEASUREMENT_PEER_DELAY) == DelayVariance(p)
  {}

  // ----- an exact estimate stays -----

  lemma ExactStays(f: Inner, h: Vec3, variance: real)
    ensures Absorbing(f, Dot(h, f.state), h, variance).state == f.state
    ensures Absorbing(f, Dot(h, f.state), h, variance).time == f.time
  {
    if Innovation(f.uncertainty, h, variance) != 0.0 {
      var k := Gain(f.uncertainty, h, variance);
      assert Dot(h, f.state) - Dot(h, f.state) == 0.0;
      assert Scale(0.0, k) == Vec3(0.0, 0.0, 0.0);
    }
  }

  /** The measurement is what the estimate says, as far as it says anything. */
  predicate Confirms(m: Measurement, s: Vec3) {
    && (m.rawSync.Some? ==> m.rawSync.value == s.x + s.z)
    && (m.rawDelay.Some? ==> m.rawDelay.value == s.x - s.z)
    && (m.peerDelay.Some? ==> m.peerDelay.value == s.z)
  }

  lemma ConfirmedSyncStays(f: Filter, m: Measurement, env: Env, config: Config)
    requires f.running.Some? && Confirms(m, f.running.value.state) && Abs(f.running.value.state.z) <= config.stepThreshold
    ensures var g := SyncAbsorbed(f, m, env, config).running; g.Some? && g.value.state == f.running.value.state
  {
    SyncRow(f.running.value.uncertainty, f.running.value.state);
    ExactStays(f.running.value, MEASUREMENT_SYNC, env.variance);
  }

  lemma ConfirmedDelayStays(f: Filter, m: Measurement, env: Env, config: Config)
    requires f.running.Some? && Confirms(m, f.running.value.state) && Abs(f.running.value.state.z) <= config.stepThreshold
    ensures var g := DelayAbsorbed(f, m, env, config).running; g.Some? && g.value.state == f.running.value.state
  {
    DelayRow(f.running.value.uncertainty, f.running.value.state);
    ExactStays(f.running.value, MEASUREMENT_DELAY, env.variance);
  }

  lemma ConfirmedPeerStays(f: Filter, m: Measurement, env: Env)
    requires f.running.Some? && Confirms(m, f.running.value.state)
    ensures var g := PeerAbsorbed(f, m, env).running; g.Some? && g.value.state == f.running.value.state
  {
    PeerRow(f.running.value.uncertainty, f.running.value.state);
    ExactStays(f.running.value, MEASUREMENT_PEER_DELAY, env.variance);
  }

  /** A filter that believes in offset, frequency and delay (theta, f, d) is left believing so by a sync
      that measures theta + d, a delay exchange that measures theta - d and a peer exchange that
      measures d, whatever its covariance: alone or together, with |d| within the step threshold. */
  lemma ExactEstimateStays(f: Filter, m: Measurement, env: Env, config: Config)
    requires f.running.Some? && Confirms(m, f.running.value.state) && Abs(f.running.value.state.z) <= config.stepThreshold
    ensures var g := Absorbed(f, m, env, config).running; g.Some? && g.value.state == f.running.value.state
  {
    ConfirmedSyncStays(f, m, env, config);
    var g := SyncAbsorbed(f, m, env, config);
    ConfirmedDelayStays(g, m, env, config);
    ConfirmedPeerStays(DelayAbsorbed(g, m, env, config), m, env);
  }

  // ----- any other is pulled towards the measurement -----

  /** What is left of a prediction error: the share of the measurement noise in the whole variance. */
  predicate Pulled(measured: real, before: real, after: real, variance: real, noise: real)
    requires variance + noise != 0.0
  {
    measured - after == Times(noise / (variance + noise), measured - before)
  }

  lemma AbsorbingPulls(f: Inner, measured: real, h: Vec3, noise: real)
    requires Covariance(f.uncertainty) && noise > 0.0
    ensures var v, g := Quad(f.uncertainty, h), Absorbing(f, measured, h, noise);
            v >= 0.0 && Pulled(measured, Dot(h, f.state), Dot(h, g.state), v, noise)
  {
    InnovationIsQuad(f.uncertainty, h, noise);
    AbsorbMovesTowardsMeasurement(f, measured, h, noise);
  }

  /** A sync within the threshold pulls offset plus delay towards what it measured. */
  lemma SyncPulls(f: Filter, m: Measurement, env: Env, config: Config)
    requires f.running.Some? && Covariance(f.running.value.uncertainty) && env.variance > 0.0 && m.rawSync.Some?
    requires Abs(m.rawSync.value - f.running.value.state.x) <= config.stepThreshold
    ensures var s, p, g := f.running.value.state, f.running.value.uncertainty, SyncAbsorbed(f, m, env, config).running;
            && g.Some? && DownVariance(p) >= 0.0
            && Pulled(m.rawSync.value, s.x + s.z, g.value.state.x + g.value.state.z, DownVariance(p), env.variance)
  {
    AbsorbingPulls(f.running.value, m.rawSync.value, MEASUREMENT_SYNC, env.variance);
    SyncRow(f.running.value.uncertainty, f.running.value.state);
    SyncRow(f.running.value.uncertainty, SyncAbsorbed(f, m, env, config).running.value.state);
  }

  /** A delay exchange pulls offset minus delay. */
  lemma DelayPulls(f: Filter, m: Measurement, env: Env, config: Config)
    requires f.running.Some? && Covariance(f.running.value.uncertainty) && env.variance > 0.0 && m.rawDelay.Some?
    requires Abs(m.rawDelay.value - f.running.value.state.x) <= config.stepThreshold
    ensures var s, p, g := f.running.value.state, f.running.value.uncertainty, DelayAbsorbed(f, m, env, config).running;
            && g.Some? && UpVariance(p) >= 0.0
            && Pulled(m.rawDelay.value, s.x - s.z, g.value.state.x - g.value.state.z, UpVariance(p), env.variance)
  {
    AbsorbingPulls(f.running.value, m.rawDelay.value, MEASUREMENT_DELAY, env.variance);
    DelayRow(f.running.value.uncertainty, f.running.value.state);
    DelayRow(f.running.value.uncertainty, DelayAbsorbed(f, m, env, config).running.value.state);
  }

  /** A peer exchange pulls the delay. */
  lemma PeerPulls(f: Filter, m: Measurement, env: Env)
    requires f.running.Some? && Covariance(f.running.value.uncertainty) && env.variance > 0.0 && m.peerDelay.Some?
    ensures var s, p, g := f.running.value.state, f.running.value.uncertainty, PeerAbsorbed(f, m, env).running;
            && g.Some? && DelayVariance(p) >= 0.0
            && Pulled(m.peerDelay.value, s.z, g.value.state.z, DelayVariance(p), env.variance)
  {
    AbsorbingPulls(f.running.value, m.peerDelay.value, MEASUREMENT_PEER_DELAY, env.variance);
    PeerRow(f.running.value.uncertainty, f.running.value.state);
    PeerRow(f.running.value.uncertainty, PeerAbsorbed(f, m, env).running.value.state);
  }

  lemma PositiveProduct(a: real, b: real)
    requires a > 0.0 && b > 0.0
    ensures a * b > 0.0
  {}

  lemma NegativeProduct(a: real, b: real)
    requires a <= 0.0 && b > 0.0
    ensures a * b <= 0.0
  {}

  lemma SignOfShare(share: real, whole: real, part: real)
    requires whole > 0.0 && share * whole == part
    ensures share > 0.0 <==> part > 0.0
  {
    if share > 0.0 {
      PositiveProduct(share, whole);
    } else {
      NegativeProduct(share, whole);
    }
  }

  lemma NoiseShare(variance: real, noise: real)
    requires variance >= 0.0 && noise > 0.0
    ensures var share := noise / (variance + noise); 0.0 < share <= 1.0 && (share < 1.0 <==> variance > 0.0)
  {
    var share, whole := noise / (variance + noise), variance + noise;
    assert share * whole == noise;
    assert (1.0 - share) * whole == variance && (share - 1.0) * whole == -variance;
    SignOfShare(share, whole, noise);
    SignOfShare(1.0 - share, whole, variance);
    SignOfShare(share - 1.0, whole, -variance);
  }

  lemma ShrunkByShare(share: real, d: real)
    requires 0.0 < share <= 1.0 && d >= 0.0
    ensures 0.0 <= share * d <= d && (share * d < d <==> share < 1.0 && d > 0.0)
  {
    NonNegativeProduct(share, d);
    NonNegativeProduct(1.0 - share, d);
    assert (1.0 - share) * d == d - share * d;
    if share < 1.0 && d > 0.0 {
      PositiveProduct(1.0 - share, d);
    }
  }

  lemma Opposite(a: real, b: real)
    ensures Times(a, -b) == -(a * b)
  {}

  /** Pulled means nearer, strictly unless it was right already or nothing was uncertain, and never past
      the measurement. */
  lemma PulledIsNearer(measured: real, before: real, after: real, variance: real, noise: real)
    requires variance >= 0.0 && noise > 0.0 && Pulled(measured, before, after, variance, noise)
    ensures Abs(measured - after) <= Abs(measured - before)
    ensures Abs(measured - after) < Abs(measured - before) <==> variance > 0.0 && measured != before
    ensures (measured >= before ==> measured >= after) && (measured <= before ==> measured <= after)
  {
    var share, d := noise / (variance + noise), measured - before;
    NoiseShare(variance, noise);
    if d >= 0.0 {
      ShrunkByShare(share, d);
    } else {
      var size := -d;
      ShrunkByShare(share, size);
      Opposite(share, size);
    }
  }

  // ----- too far off -----

  /** An estimate that starts again from an offset alone: frequency and delay zero, nothing correlated, the
      offset and the delay known to the step threshold. */
  predicate StartsFrom(g: Inner, offset: real, time: real, config: Config) {
    var p := g.uncertainty;
    && g.state.x == offset && g.state.y == 0.0 && g.state.z == 0.0 && g.time == time
    && p.r0.x == p.r2.z == config.stepThreshold * config.stepThreshold
    && p.r1.y == config.initialFrequencyUncertainty * config.initialFrequencyUncertainty
    && p.r0.y == p.r0.z == p.r1.x == p.r1.z == p.r2.x == p.r2.y == 0.0
  }

  /** An offset farther from the estimate than the step threshold is believed outright, with nothing known
      of frequency and delay; a peer delay never is. */
  lemma FarOffsetRestarts(f: Filter, m: Measurement, env: Env, config: Config)
    requires f.running.Some?
    ensures m.rawSync.Some? && Abs(m.rawSync.value - f.running.value.state.x) > config.stepThreshold ==>
              var g := SyncAbsorbed(f, m, env, config).running;
              g.Some? && StartsFrom(g.value, m.rawSync.value, f.running.value.time, config)
    ensures m.rawDelay.Some? && Abs(m.rawDelay.value - f.running.value.state.x) > config.stepThreshold ==>
              var g := DelayAbsorbed(f, m, env, config).running;
              g.Some? && StartsFrom(g.value, m.rawDelay.value, f.running.value.time, config)
  {}

  /** The very first measurement starts an estimate at its own time, with offset zero, and is then absorbed. */
  lemma FirstMeasurementStarts(f: Filter, m: Measurement, env: Env, config: Config)
    requires f.running.None?
    ensures var g := CaughtUp(f, m, env, config).running; g.Some? && StartsFrom(g.value, 0.0, m.eventTime, config)
  {}

  // ----- time -----

  /** Time lets the offset drift by the frequency, and the uncertainties with it; the clock's wander adds to
      frequency as a random walk and so to the offset, and a delay wanders in proportion to itself. */
  lemma TimeDrifts(f: Inner, time: real, wander: real, config: Config)
    requires Symmetric(f.uncertainty) && time >= f.time
    ensures var dt, s, p := time - f.time, f.state, f.uncertainty;
            var g := Progress(f, time, wander, config);
            && g.time == time && g.state == Vec3(s.x + s.y * dt, s.y, s.z)
            && g.uncertainty.r1.y == p.r1.y + wander * dt
            && g.uncertainty.r0.y == p.r0.y + dt * p.r1.y + wander * dt * dt / 2.0
            && g.uncertainty.r0.x == p.r0.x + 2.0 * (dt * p.r0.y) + dt * (dt * p.r1.y) + wander * dt * dt * dt / 3.0
            && g.uncertainty.r0.z == p.r0.z + dt * p.r1.z && g.uncertainty.r1.z == p.r1.z
            && g.uncertainty.r2.z == p.r2.z + config.delayWander * (s.z * s.z) * dt
  {
    AdvanceEntries(f.uncertainty, time - f.time);
  }

  /** A measurement from before the filter's time changes nothing at all. */
  lemma OldMeasurementsAreIgnored(f: Filter, m: Measurement, env: Env, config: Config)
    requires config.Good() && f.running.Some? && m.eventTime < f.running.value.time
    ensures Measured(f, m, env, config) == f
  {}

  // ----- steering -----

  /** Steering for the steer time takes the offset exactly to the edge of the dead zone, or stops short of it
      where the maximum bites; inside the zone nothing is done. */
  lemma SteersToTheDeadZone(error: real, sigma: real, config: Config)
    requires config.Good() && sigma * config.deadzone >= 0.0
    ensures var zone, target := sigma * config.deadzone, SteerTarget(error, sigma, config);
            var left := error + target / 1000000.0 * config.steerTime;
            && (Abs(error) <= zone ==> target == 0.0)
            && (Abs(error) > zone && Abs(target) < config.maxSteer ==> left == if error < 0.0 then -zone else zone)
            && (Abs(error) > zone && Abs(target) == config.maxSteer ==> if error < 0.0 then left <= -zone else left >= zone)
  {}

  /** Until the clock took the new frequency the offset drifted by the old one; then both filters' frequencies
      change by what the clock's did, in parts per million. */
  lemma SteersAfterDrift(f: Filter, target: real, t: real, config: Config)
    requires f.frequency.Some? && f.running.Some? && t >= f.running.value.time
    ensures var s, g := f.running.value.state, ChangeFrequency(f, target, Some(t), config);
            && g.frequency.Some? && g.running.Some? && g.running.value.time == t && g.wander == f.wander && g.score == f.score
            && var change := (g.frequency.value - f.frequency.value) / 1000000.0;
            && g.running.value.state == Vec3(s.x + s.y * (t - f.running.value.time), s.y + change, s.z)
            && (f.wanderFilter.Some? && t >= f.wanderFilter.value.time ==>
                  var w := f.wanderFilter.value;
                  && g.wanderFilter.Some? && g.wanderFilter.value.time == t
                  && g.wanderFilter.value.state == Vec3(w.state.x + w.state.y * (t - w.time), w.state.y + change, w.state.z))
  {}

  /** The estimate without its offset: what a step of the clock must not touch. */
  predicate Stepped(before: Option<Inner>, after: Option<Inner>, shift: real) {
    match before
    case None => after.None?
    case Some(f) =>
      && after.Some? && after.value.state == Vec3(f.state.x + shift, f.state.y, f.state.z)
      && after.value.uncertainty == f.uncertainty && after.value.time == f.time + shift
  }

  /** An estimated offset of at least the step threshold is stepped away if the clock lets itself be stepped, both
      filters and their times moving with the clock, and nothing else is touched; a smaller one is never
      stepped, and is left alone if the clock refuses the new frequency. */
  lemma StepsFromTheThreshold(f: Filter, env: Env, config: Config)
    requires config.Good()
    ensures var x, g := Offset(f.running), Steer(f, env, config);
            && g.wander == f.wander && g.score == f.score
            && (Abs(x) >= config.stepThreshold ==>
                  && g.frequency == f.frequency
                  && if env.stepOk then Stepped(f.running, g.running, -x) && Stepped(f.wanderFilter, g.wanderFilter, -x)
                     else g == f)
            && (Abs(x) < config.stepThreshold && (f.frequency.None? || env.frequencySet.None?) ==> g == f)
  {}

  /** The clock's frequency is first set, to zero, by the first offset that finds the clock willing; a peer
      delay alone never starts it. */
  lemma FrequencyStartsAtZero(f: Filter, m: Measurement, env: Env, config: Config)
    ensures Absorbed(f, m, env, config).frequency ==
              if f.frequency.None? && ((m.rawSync.Some? && env.syncInitOk) || (m.rawDelay.Some? && env.delayInitOk))
              then Some(0.0) else f.frequency
  {}

  // ----- the wander -----

  /** A run of sync measurements that are all judged alike. */
  function JudgedAlike(f: Filter, ms: seq<Measurement>, env: Env, config: Config): Filter {
    if |ms| == 0 then f else WanderUpdated(JudgedAlike(f, ms[..|ms| - 1], env, config), ms[|ms| - 1], env, config)
  }

  /** Predictions that keep failing, or keep fitting too well, leave the wander alone up to the hysteresis;
      the next one quarters it or makes it four times as large, and the count begins again. With the
      largest hysteresis, 127, the count saturates before it can make the wander larger. */
  lemma {:induction false} VerdictsAddUp(f: Filter, ms: seq<Measurement>, env: Env, config: Config)
    requires config.Good() && f.score == 0 && |ms| <= config.hysteresis as int + 1
    requires forall i :: 0 <= i < |ms| ==> ms[i].rawSync.Some? && ms[i].rawDelay.None?
    ensures var g, n, past := JudgedAlike(f, ms, env, config), |ms|, |ms| > config.hysteresis;
            && (env.syncVerdict.Unlikely? ==>
                  g.wander == (if past then f.wander / 4.0 else f.wander) && g.score as int == if past then 0 else 0 - n)
            && (env.syncVerdict.Likely? && config.hysteresis < 127 ==>
                  g.wander == (if past then f.wander * 4.0 else f.wander) && g.score as int == if past then 0 else n)
            && (env.syncVerdict.Likely? && config.hysteresis == 127 ==>
                  g.wander == f.wander && g.score as int == if n < 127 then n else 127)
  {
    if |ms| > 0 {
      VerdictsAddUp(f, ms[..|ms| - 1], env, config);
    }
  }

  /** An unremarkable prediction brings the count back by one. */
  lemma ExpectedVerdictsCalm(f: Filter, env: Env, m: Measurement, config: Config)
    requires config.Good() && f.score + config.hysteresis >= 0 && f.score <= config.hysteresis
    requires m.rawSync.Some? && m.rawDelay.None? && env.syncVerdict.Expected?
    ensures var g := WanderUpdated(f, m, env, config);
            && g.wander == f.wander && (f.score == 0 ==> g.score == 0)
            && (f.score > 0 ==> g.score == f.score - 1) && (f.score < 0 ==> g.score == f.score + 1)
  {}

  /** Without a verdict on the wander the count and the wander stay. */
  lemma OtherVerdictsLeaveTheCount(f: Filter, env: Env, m: Measurement, config: Config)
    requires config.Good() && f.score + config.hysteresis >= 0 && f.score <= config.hysteresis
    requires m.rawSync.Some? ==> env.syncVerdict.Uninformative? || env.syncVerdict.Recalibrate?
    requires m.rawDelay.Some? ==> env.delayVerdict.Uninformative? || env.delayVerdict.Recalibrate?
    ensures var g := WanderUpdated(f, m, env, config); g.wander == f.wander && g.score == f.score
  {}

  predicate SaysNothing(m: Measurement, env: Env) {
    (m.rawSync.Some? ==> env.syncVerdict.Uninformative?) && (m.rawDelay.Some? ==> env.delayVerdict.Uninformative?)
  }

  /** Every verdict that means anything starts the second filter again from the running one; without one it
      only lets time pass. */
  lemma VerdictsRebase(f: Filter, m: Measurement, env: Env, config: Config)
    ensures var g := WanderUpdated(f, m, env, config);
            && g.running == f.running && g.frequency == f.frequency
            && g.wanderFilter == if SaysNothing(m, env) then Advanced(f.wanderFilter, m.eventTime, f.wander, config)
                                 else f.running
  {}
}
