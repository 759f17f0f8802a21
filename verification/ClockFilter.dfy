/** The filter of a port: a running estimate, a second estimate used to judge the clock's wander,
    and the steering of the clock. */
module ClockFilter {
  import opened Prelude
  import opened Matrix
  import opened Kalman

  datatype Measurement = Measurement(
    eventTime: real, rawSync: Option<real>, rawDelay: Option<real>, peerDelay: Option<real>)

  /** How a prediction of the wander filter fared. */
  datatype Verdict = Uninformative | Recalibrate | Unlikely | Likely | Expected

  /** What the clock and the channel statistics answered during one call. */
  datatype Env = Env(
    variance: real, syncVerdict: Verdict, delayVerdict: Verdict, sigma: real,
    syncInitOk: bool, delayInitOk: bool, frequencySet: Option<real>, stepOk: bool)

  datatype Filter = Filter(
    running: Option<Inner>, wanderFilter: Option<Inner>, wander: real, score: i8, frequency: Option<real>)

  const MILLION := 1000000.0

  function NewFilter(config: Config): Filter { Filter(None, None, config.initialWander, 0, None) }

  // ----- an optional filter -----

  function Advanced(b: Option<Inner>, time: real, wander: real, config: Config): Option<Inner> {
    match b
    case Some(f) => Some(Progress(f, time, wander, config))
    case None => Some(NewInner(0.0, time, config))
  }

  /** Absorption divides by the innovation. A zero innovation leaves the filter as it is here; no run
      meets one, see InnovationIsPositive. */
  function Absorbing(f: Inner, measured: real, h: Vec3, variance: real): Inner {
    if Innovation(f.uncertainty, h, variance) == 0.0 then f else Absorb(f, measured, h, variance)
  }

  /** A sync or delay offset: too far from the estimate resets the filter, else it is absorbed. */
  function OffsetAbsorbed(b: Option<Inner>, offset: real, h: Vec3, variance: real, config: Config): Option<Inner> {
    if b.None? then b
    else if Abs(offset - b.value.state.x) > config.stepThreshold then Some(NewInner(offset, b.value.time, config))
    else Some(Absorbing(b.value, offset, h, variance))
  }

  function PeerDelayAbsorbed(b: Option<Inner>, delay: real, variance: real): Option<Inner> {
    if b.None? then b else Some(Absorbing(b.value, delay, MEASUREMENT_PEER_DELAY, variance))
  }

  function FrequencySteered(b: Option<Inner>, steer: real, time: real, wander: real, config: Config): Option<Inner> {
    match b
    case Some(f) =>
      var g := Progress(f, time, wander, config);
      Some(g.(state := VAdd(g.state, Vec3(0.0, steer / MILLION, 0.0))))
    case None => Some(NewInner(0.0, time, config))
  }

  function OffsetSteered(b: Option<Inner>, steer: real): Option<Inner> {
    match b
    case Some(f) => Some(f.(state := VAdd(f.state, Vec3(steer, 0.0, 0.0)), time := f.time + steer))
    case None => None
  }

  function Offset(b: Option<Inner>): real { if b.Some? then b.value.state.x else 0.0 }

  function FreqOffset(b: Option<Inner>): real { if b.Some? then b.value.state.y else 0.0 }

  predicate AfterFilterTime(b: Option<Inner>, time: real) { b.Some? ==> time >= b.value.time }

  // ----- the invariant every call keeps -----

  ghost predicate Sound(b: Option<Inner>) { b.Some? ==> Covariance(b.value.uncertainty) }

  /** Both covariances are covariances; the wander filter is never ahead of the running one; a clock
      is steered only by a started filter and within the configured bound. */
  ghost predicate Inv(f: Filter, config: Config) {
    && f.wander >= 0.0
    && Sound(f.running) && Sound(f.wanderFilter)
    && (f.wanderFilter.Some? ==> f.running.Some? && f.wanderFilter.value.time <= f.running.value.time)
    && (f.frequency.Some? ==> f.running.Some? && Abs(f.frequency.value) <= config.maxFreqOffset)
  }

  lemma InnovationIsPositive(b: Option<Inner>, h: Vec3, variance: real)
    requires Sound(b) && variance > 0.0
    ensures b.Some? ==> Innovation(b.value.uncertainty, h, variance) > 0.0
  {
    if b.Some? {
      InnovationIsQuad(b.value.uncertainty, h, variance);
    }
  }

  lemma AdvancedIsSound(b: Option<Inner>, time: real, wander: real, config: Config)
    requires Sound(b) && wander >= 0.0 && config.delayWander >= 0.0
    ensures Sound(Advanced(b, time, wander, config))
  {
    match b
    case Some(f) => ProgressKeepsCovariance(f, time, wander, config);
    case None => NewInnerIsCovariance(0.0, time, config);
  }

  lemma OffsetAbsorbedIsSound(b: Option<Inner>, offset: real, h: Vec3, variance: real, config: Config)
    requires Sound(b) && variance > 0.0 && (b.Some? ==> Innovation(b.value.uncertainty, h, variance) > 0.0)
    ensures var c := OffsetAbsorbed(b, offset, h, variance, config);
            Sound(c) && (b.Some? <==> c.Some?) && (b.Some? ==> c.value.time == b.value.time)
  {
    if b.Some? {
      NewInnerIsCovariance(offset, b.value.time, config);
      AbsorbKeepsCovariance(b.value, offset, h, variance);
    }
  }

  lemma FrequencySteeredIsSound(b: Option<Inner>, steer: real, time: real, wander: real, config: Config)
    requires Sound(b) && wander >= 0.0 && config.delayWander >= 0.0
    ensures Sound(FrequencySteered(b, steer, time, wander, config))
  {
    AdvancedIsSound(b, time, wander, config);
  }

  // ----- steering -----

  function ClampAdjustment(current: real, error: real, bound: real): real {
    if current + error > bound then bound - current
    else if current + error < -bound then -bound - current
    else error
  }

  /** The adjusted frequency is in bounds, is the wanted one exactly when that is in bounds, and
      is otherwise the nearest bound. */
  lemma ClampIsNearest(current: real, error: real, bound: real, any: real)
    requires bound >= 0.0 && Abs(any) <= bound
    ensures var e := ClampAdjustment(current, error, bound);
            && Abs(current + e) <= bound
            && (e == error <==> Abs(current + error) <= bound)
            && Abs((current + e) - (current + error)) <= Abs(any - (current + error))
  {}

  function ChangeFrequency(f: Filter, target: real, frequencySet: Option<real>, config: Config): Filter {
    if f.frequency.None? || frequencySet.None? then f
    else
      var current, time := f.frequency.value, frequencySet.value;
      var error := ClampAdjustment(current, target - FreqOffset(f.running) * MILLION, config.maxFreqOffset);
      f.(frequency := Some(current + error),
         running := FrequencySteered(f.running, error, time, f.wander, config),
         wanderFilter := FrequencySteered(f.wanderFilter, error, time, f.wander, config))
  }

  /** Steering accounts for itself: what is added to the clock is added to the estimate, and when
      the bound does not bite the estimate becomes exactly the target. */
  lemma SteeringIsAccounted(f: Filter, target: real, frequencySet: Option<real>, config: Config)
    requires Inv(f, config) && config.Good()
    requires f.frequency.Some? && frequencySet.Some?
    ensures var g := ChangeFrequency(f, target, frequencySet, config);
            && g.frequency.Some? && g.running.Some?
            && g.frequency.value - 1000000.0 * FreqOffset(g.running) == f.frequency.value - 1000000.0 * FreqOffset(f.running)
            && (Abs(f.frequency.value + target - FreqOffset(f.running) * 1000000.0) <= config.maxFreqOffset
                <==> 1000000.0 * FreqOffset(g.running) == target)
  {
    var inner := f.running.value;
    var moved := Progress(inner, frequencySet.value, f.wander, config);
    assert moved.state.y == inner.state.y;
    ClampIsNearest(f.frequency.value, target - inner.state.y * MILLION, config.maxFreqOffset, 0.0);
  }

  lemma ChangeFrequencyKeepsInv(f: Filter, target: real, frequencySet: Option<real>, config: Config)
    requires Inv(f, config) && config.Good()
    ensures Inv(ChangeFrequency(f, target, frequencySet, config), config)
  {
    if f.frequency.Some? && frequencySet.Some? {
      var current, time := f.frequency.value, frequencySet.value;
      var wanted := target - FreqOffset(f.running) * MILLION;
      var error := ClampAdjustment(current, wanted, config.maxFreqOffset);
      ClampIsNearest(current, wanted, config.maxFreqOffset, 0.0);
      FrequencySteeredIsSound(f.running, error, time, f.wander, config);
      FrequencySteeredIsSound(f.wanderFilter, error, time, f.wander, config);
    }
  }

  function Max(a: real, b: real): real { if a < b then b else a }

  function Clamp(x: real, lo: real, hi: real): real
    requires lo <= hi
  {
    if x < lo then lo else if hi < x then hi else x
  }

  function SteerTarget(error: real, sigma: real, config: Config): real
    requires config.Good()
  {
    var desired := (if error < 0.0 then -1.0 else 1.0) * Max(Abs(error) - sigma * config.deadzone, 0.0);
    Clamp(-desired * MILLION / config.steerTime, -config.maxSteer, config.maxSteer)
  }

  function Step(f: Filter, offset: real, ok: bool): Filter {
    if !ok then f
    else f.(running := OffsetSteered(f.running, -offset), wanderFilter := OffsetSteered(f.wanderFilter, -offset))
  }

  function Steer(f: Filter, env: Env, config: Config): Filter
    requires config.Good()
  {
    var error := Offset(f.running);
    if Abs(error) < config.stepThreshold
    then ChangeFrequency(f, SteerTarget(error, env.sigma, config), env.frequencySet, config)
    else Step(f, error, env.stepOk)
  }

  /** A steer pulls against the estimated offset, never past the configured maximum; a step
      removes the estimated offset and moves both filters' times alike. */
  lemma SteerOpposesOffset(f: Filter, env: Env, config: Config)
    requires config.Good()
    ensures var target := SteerTarget(Offset(f.running), env.sigma, config);
            && Abs(target) <= config.maxSteer
            && (Offset(f.running) >= 0.0 ==> target <= 0.0)
            && (Offset(f.running) <= 0.0 && env.sigma * config.deadzone >= 0.0 ==> target >= 0.0)
    ensures var g := Step(f, Offset(f.running), true);
            && Offset(g.running) == 0.0
            && (f.running.Some? && f.wanderFilter.Some? ==>
                  g.running.value.time - g.wanderFilter.value.time == f.running.value.time - f.wanderFilter.value.time)
  {
    var error := Offset(f.running);
    var size := Max(Abs(error) - env.sigma * config.deadzone, 0.0);
    assert size >= 0.0;
    QuotientSign(size * MILLION, config.steerTime);
    QuotientSign(-size * MILLION, config.steerTime);
  }

  lemma QuotientSign(a: real, b: real)
    requires b > 0.0
    ensures a >= 0.0 ==> a / b >= 0.0
    ensures a <= 0.0 ==> a / b <= 0.0
  {
    assert (a / b) * b == a;
  }

  lemma SteerKeepsInv(f: Filter, env: Env, config: Config)
    requires Inv(f, config) && config.Good()
    ensures Inv(Steer(f, env, config), config)
  {
    ChangeFrequencyKeepsInv(f, SteerTarget(Offset(f.running), env.sigma, config), env.frequencySet, config);
  }

  // ----- wander -----

  function SaturatingAdd(score: i8, d: int): i8
    requires -1 <= d <= 1
  {
    if score + d > 127 then 127 else if score + d < -128 then -128 else score + d
  }

  function Signum(score: i8): int { if score > 0 then 1 else if score < 0 then -1 else 0 }

  function Judged(f: Filter, verdict: Verdict): Filter {
    match verdict
    case Uninformative => f
    case Recalibrate => f.(wanderFilter := f.running)
    case Unlikely => f.(score := SaturatingAdd(f.score, -1), wanderFilter := f.running)
    case Likely => f.(score := SaturatingAdd(f.score, 1), wanderFilter := f.running)
    case Expected => f.(score := f.score - Signum(f.score), wanderFilter := f.running)
  }

  function Rescaled(f: Filter, config: Config): Filter {
    var g := if f.score + config.hysteresis < 0 then f.(wander := f.wander / 4.0, score := 0) else f;
    if g.score > config.hysteresis then g.(wander := g.wander * 4.0, score := 0) else g
  }

  function WanderUpdated(f: Filter, m: Measurement, env: Env, config: Config): Filter {
    var f1 := f.(wanderFilter := Advanced(f.wanderFilter, m.eventTime, f.wander, config));
    var f2 := if m.rawSync.Some? then Judged(f1, env.syncVerdict) else f1;
    var f3 := if m.rawDelay.Some? then Judged(f2, env.delayVerdict) else f2;
    Rescaled(f3, config)
  }

  // ----- a measurement -----

  function FrequencyStarted(f: Filter, ok: bool): Filter {
    if f.frequency.None? && ok then f.(frequency := Some(0.0)) else f
  }

  function SyncAbsorbed(f: Filter, m: Measurement, env: Env, config: Config): Filter
  {
    if m.rawSync.None? then f
    else
      var g := FrequencyStarted(f, env.syncInitOk);
      g.(running := OffsetAbsorbed(g.running, m.rawSync.value, MEASUREMENT_SYNC, env.variance, config))
  }

  function DelayAbsorbed(f: Filter, m: Measurement, env: Env, config: Config): Filter
  {
    if m.rawDelay.None? then f
    else
      var g := FrequencyStarted(f, env.delayInitOk);
      g.(running := OffsetAbsorbed(g.running, m.rawDelay.value, MEASUREMENT_DELAY, env.variance, config))
  }

  function PeerAbsorbed(f: Filter, m: Measurement, env: Env): Filter
  {
    if m.peerDelay.None? then f
    else f.(running := PeerDelayAbsorbed(f.running, m.peerDelay.value, env.variance))
  }

  /** The filter once it has caught up with a measurement, before absorbing it. */
  function CaughtUp(f: Filter, m: Measurement, env: Env, config: Config): Filter {
    var g := WanderUpdated(f, m, env, config);
    g.(running := Advanced(g.running, m.eventTime, g.wander, config))
  }

  /** While catching up with time t: nothing is past t yet. */
  ghost predicate Behind(f: Filter, t: real) {
    && f.wander >= 0.0 && Sound(f.running) && Sound(f.wanderFilter)
    && AfterFilterTime(f.running, t) && AfterFilterTime(f.wanderFilter, t)
  }

  lemma WanderUpdatedStaysBehind(f: Filter, m: Measurement, env: Env, config: Config)
    requires Behind(f, m.eventTime) && config.Good()
    ensures Behind(WanderUpdated(f, m, env, config), m.eventTime)
    ensures WanderUpdated(f, m, env, config).running == f.running
    ensures WanderUpdated(f, m, env, config).frequency == f.frequency
    ensures WanderUpdated(f, m, env, config).wanderFilter in
              {Advanced(f.wanderFilter, m.eventTime, f.wander, config), f.running}
  {
    AdvancedIsSound(f.wanderFilter, m.eventTime, f.wander, config);
  }

  /** An accepted measurement is one the running filter has not passed; that one test covers both
      filters, so catching up is a step forward for both. */
  lemma CatchingUpKeepsInv(f: Filter, m: Measurement, env: Env, config: Config)
    requires Inv(f, config) && config.Good() && AfterFilterTime(f.running, m.eventTime)
    ensures AfterFilterTime(f.wanderFilter, m.eventTime)
    ensures var g := CaughtUp(f, m, env, config);
            && Inv(g, config)
            && g.running.Some? && g.running.value.time == m.eventTime
            && (f.running.Some? ==> f.running.value.time <= g.running.value.time)
            && (f.wanderFilter.Some? && g.wanderFilter.Some? ==> f.wanderFilter.value.time <= g.wanderFilter.value.time)
  {
    WanderUpdatedStaysBehind(f, m, env, config);
    var g := WanderUpdated(f, m, env, config);
    AdvancedIsSound(g.running, m.eventTime, g.wander, config);
  }

  lemma SyncAbsorbedKeepsInv(f: Filter, m: Measurement, env: Env, config: Config)
    requires Inv(f, config) && config.Good() && env.variance > 0.0 && f.running.Some?
    ensures Innovation(f.running.value.uncertainty, MEASUREMENT_SYNC, env.variance) > 0.0
    ensures var g := SyncAbsorbed(f, m, env, config);
            Inv(g, config) && g.running.Some? && g.running.value.time == f.running.value.time
  {
    InnovationIsPositive(f.running, MEASUREMENT_SYNC, env.variance);
    if m.rawSync.Some? {
      OffsetAbsorbedIsSound(f.running, m.rawSync.value, MEASUREMENT_SYNC, env.variance, config);
    }
  }

  lemma DelayAbsorbedKeepsInv(f: Filter, m: Measurement, env: Env, config: Config)
    requires Inv(f, config) && config.Good() && env.variance > 0.0 && f.running.Some?
    ensures Innovation(f.running.value.uncertainty, MEASUREMENT_DELAY, env.variance) > 0.0
    ensures var g := DelayAbsorbed(f, m, env, config);
            Inv(g, config) && g.running.Some? && g.running.value.time == f.running.value.time
  {
    InnovationIsPositive(f.running, MEASUREMENT_DELAY, env.variance);
    if m.rawDelay.Some? {
      OffsetAbsorbedIsSound(f.running, m.rawDelay.value, MEASUREMENT_DELAY, env.variance, config);
    }
  }

  lemma PeerAbsorbedKeepsInv(f: Filter, m: Measurement, env: Env, config: Config)
    requires Inv(f, config) && config.Good() && env.variance > 0.0 && f.running.Some?
    ensures Innovation(f.running.value.uncertainty, MEASUREMENT_PEER_DELAY, env.variance) > 0.0
    ensures var g := PeerAbsorbed(f, m, env);
            Inv(g, config) && g.running.Some? && g.running.value.time == f.running.value.time
  {
    InnovationIsPositive(f.running, MEASUREMENT_PEER_DELAY, env.variance);
    if m.peerDelay.Some? {
      AbsorbKeepsCovariance(f.running.value, m.peerDelay.value, MEASUREMENT_PEER_DELAY, env.variance);
    }
  }

  /** A caught-up filter with the measurement absorbed, before steering. */
  function Absorbed(f: Filter, m: Measurement, env: Env, config: Config): Filter {
    PeerAbsorbed(DelayAbsorbed(SyncAbsorbed(f, m, env, config), m, env, config), m, env)
  }

  lemma AbsorbedKeepsInv(f: Filter, m: Measurement, env: Env, config: Config)
    requires Inv(f, config) && config.Good() && env.variance > 0.0 && f.running.Some?
    ensures var g := Absorbed(f, m, env, config);
            Inv(g, config) && g.running.Some? && g.running.value.time == f.running.value.time
  {
    SyncAbsorbedKeepsInv(f, m, env, config);
    var g1 := SyncAbsorbed(f, m, env, config);
    DelayAbsorbedKeepsInv(g1, m, env, config);
    PeerAbsorbedKeepsInv(DelayAbsorbed(g1, m, env, config), m, env, config);
  }

  function Measured(f: Filter, m: Measurement, env: Env, config: Config): Filter
    requires config.Good()
  {
    if !AfterFilterTime(f.running, m.eventTime) then f
    else Steer(Absorbed(CaughtUp(f, m, env, config), m, env, config), env, config)
  }

  lemma MeasuredKeepsInv(f: Filter, m: Measurement, env: Env, config: Config)
    requires Inv(f, config) && config.Good() && env.variance > 0.0
    ensures Inv(Measured(f, m, env, config), config)
  {
    if AfterFilterTime(f.running, m.eventTime) {
      CatchingUpKeepsInv(f, m, env, config);
      AbsorbedKeepsInv(CaughtUp(f, m, env, config), m, env, config);
      SteerKeepsInv(Absorbed(CaughtUp(f, m, env, config), m, env, config), env, config);
    }
  }

  // ----- whole runs -----

  datatype Call = Measure(m: Measurement, env: Env) | Update(frequencySet: Option<real>) | Replace

  predicate Admissible(c: Call) { c.Measure? ==> c.env.variance > 0.0 }

  function After(f: Filter, c: Call, config: Config): Filter
    requires config.Good()
  {
    match c
    case Measure(m, env) => Measured(f, m, env, config)
    case Update(frequencySet) => ChangeFrequency(f, 0.0, frequencySet, config)
    case Replace => NewFilter(config)
  }

  ghost predicate IsRun(states: seq<Filter>, calls: seq<Call>, config: Config)
    requires config.Good()
  {
    && |states| == |calls| + 1
    && states[0] == NewFilter(config)
    && forall i :: 0 <= i < |calls| ==> Link(states, calls, config, i)
  }

  ghost predicate Link(states: seq<Filter>, calls: seq<Call>, config: Config, i: nat)
    requires config.Good()
  {
    && i < |calls| && i + 1 < |states|
    && Admissible(calls[i]) && states[i + 1] == After(states[i], calls[i], config)
  }

  /** Every state of every run: covariances stay symmetric and positive semidefinite, the frequency
      stays in bounds, and the wander filter never leads. */
  lemma {:induction false} RunsKeepInv(states: seq<Filter>, calls: seq<Call>, config: Config, i: nat)
    requires config.Good() && IsRun(states, calls, config) && i < |states|
    ensures Inv(states[i], config)
  {
    if i > 0 {
      RunsKeepInv(states, calls, config, i - 1);
      assert Link(states, calls, config, i - 1);
      match calls[i - 1]
      case Measure(m, env) => MeasuredKeepsInv(states[i - 1], m, env, config);
      case Update(frequencySet) => ChangeFrequencyKeepsInv(states[i - 1], 0.0, frequencySet, config);
      case Replace =>
    }
  }

  // ----- the filter object -----

  class KalmanFilter {
    const config: Config
    var running: Option<Inner>
    var wanderFilter: Option<Inner>
    var wander: real
    var score: i8
    var frequency: Option<real>

    ghost function Model(): Filter
      reads this
    {
      Filter(running, wanderFilter, wander, score, frequency)
    }

    ghost predicate Valid()
      reads this
    {
      config.Good() && Inv(Model(), config)
    }

    constructor (config: Config)
      requires config.Good()
      ensures Valid() && this.config == config && Model() == NewFilter(config)
    {
      this.config := config;
      running, wanderFilter, wander, score, frequency := None, None, config.initialWander, 0, None;
    }

    method Measure(m: Measurement, env: Env)
      requires Valid() && env.variance > 0.0
      modifies this
      ensures Valid() && Model() == Measured(old(Model()), m, env, config)
    {
      MeasuredKeepsInv(Model(), m, env, config);
      if !AfterFilterTime(running, m.eventTime) {
        return;
      }
      UpdateWander(m, env);
      running := Advanced(running, m.eventTime, wander, config);
      assert Model() == CaughtUp(old(Model()), m, env, config);
      AbsorbMeasurement(m, env);
      SteerClock(env);
    }

    method AbsorbMeasurement(m: Measurement, env: Env)
      modifies this
      ensures Model() == Absorbed(old(Model()), m, env, config)
    {
      if m.rawSync.Some? {
        EnsureFrequency(env.syncInitOk);
        running := OffsetAbsorbed(running, m.rawSync.value, MEASUREMENT_SYNC, env.variance, config);
      }
      if m.rawDelay.Some? {
        EnsureFrequency(env.delayInitOk);
        running := OffsetAbsorbed(running, m.rawDelay.value, MEASUREMENT_DELAY, env.variance, config);
      }
      if m.peerDelay.Some? {
        running := PeerDelayAbsorbed(running, m.peerDelay.value, env.variance);
      }
    }

    method Update(frequencySet: Option<real>)
      requires Valid()
      modifies this
      ensures Valid() && Model() == ChangeFrequency(old(Model()), 0.0, frequencySet, config)
    {
      ChangeFrequencyKeepsInv(Model(), 0.0, frequencySet, config);
      SetFrequency(0.0, frequencySet);
    }

    method UpdateWander(m: Measurement, env: Env)
      modifies this
      ensures Model() == WanderUpdated(old(Model()), m, env, config)
    {
      wanderFilter := Advanced(wanderFilter, m.eventTime, wander, config);
      if m.rawSync.Some? {
        ScoreWander(env.syncVerdict);
      }
      if m.rawDelay.Some? {
        ScoreWander(env.delayVerdict);
      }
      if score + config.hysteresis < 0 {
        wander, score := wander / 4.0, 0;
      }
      if score > config.hysteresis {
        wander, score := wander * 4.0, 0;
      }
    }

    method ScoreWander(verdict: Verdict)
      modifies this
      ensures Model() == Judged(old(Model()), verdict)
    {
      if verdict == Uninformative {
        return;
      }
      if verdict == Unlikely {
        score := SaturatingAdd(score, -1);
      } else if verdict == Likely {
        score := SaturatingAdd(score, 1);
      } else if verdict == Expected {
        score := score - Signum(score);
      }
      wanderFilter := running;
    }

    method EnsureFrequency(ok: bool)
      modifies this
      ensures Model() == FrequencyStarted(old(Model()), ok)
    {
      if frequency.None? && ok {
        frequency := Some(0.0);
      }
    }

    method SetFrequency(target: real, frequencySet: Option<real>)
      modifies this
      ensures Model() == ChangeFrequency(old(Model()), target, frequencySet, config)
    {
      if frequency.Some? {
        var error := ClampAdjustment(frequency.value, target - FreqOffset(running) * MILLION, config.maxFreqOffset);
        if frequencySet.Some? {
          frequency := Some(frequency.value + error);
          running := FrequencySteered(running, error, frequencySet.value, wander, config);
          wanderFilter := FrequencySteered(wanderFilter, error, frequencySet.value, wander, config);
        }
      }
    }

    method SteerClock(env: Env)
      requires config.Good()
      modifies this
      ensures Model() == Steer(old(Model()), env, config)
    {
      var error := Offset(running);
      if Abs(error) < config.stepThreshold {
        SetFrequency(SteerTarget(error, env.sigma, config), env.frequencySet);
      } else if env.stepOk {
        running := OffsetSteered(running, -error);
        wanderFilter := OffsetSteered(wanderFilter, -error);
      }
    }
  }
}
