/** The Kalman filter that steers a port's clock, over exact reals.
    Channel error estimation, square roots and likelihoods enter as the values they produced. */
module Kalman {
  import opened Prelude
  import opened Matrix

  datatype Config = Config(
    stepThreshold: real, deadzone: real, steerTime: real, maxSteer: real, maxFreqOffset: real,
    initialFrequencyUncertainty: real, initialWander: real, delayWander: real, hysteresis: u8)
  {
    predicate Good() {
      && steerTime > 0.0 && maxSteer >= 0.0 && maxFreqOffset >= 0.0
      && initialWander >= 0.0 && delayWander >= 0.0 && hysteresis <= 127
    }
  }

  // ----- one filter: state (offset, frequency offset, delay), its covariance, its time -----

  datatype Inner = Inner(state: Vec3, uncertainty: Mat3, time: real)

  const MEASUREMENT_SYNC := Vec3(1.0, 0.0, 1.0)
  const MEASUREMENT_DELAY := Vec3(1.0, 0.0, -1.0)
  const MEASUREMENT_PEER_DELAY := Vec3(0.0, 0.0, 1.0)

  function Sqr(x: real): real { x * x }

  function Abs(x: real): real { if x < 0.0 then -x else x }

  function NewInner(offset: real, time: real, config: Config): Inner {
    Inner(Vec3(offset, 0.0, 0.0),
          Mat3(Vec3(Sqr(config.stepThreshold), 0.0, 0.0),
               Vec3(0.0, Sqr(config.initialFrequencyUncertainty), 0.0),
               Vec3(0.0, 0.0, Sqr(config.stepThreshold))),
          time)
  }

  function Transition(dt: real): Mat3 { Unit.(r0 := Vec3(1.0, dt, 0.0)) }

  function ProcessNoise(dt: real, wander: real, delayNoise: real): Mat3 {
    Mat3(Vec3(wander * dt * dt * dt / 3.0, wander * dt * dt / 2.0, 0.0),
         Vec3(wander * dt * dt / 2.0, wander * dt, 0.0),
         Vec3(0.0, 0.0, delayNoise * dt))
  }

  function Progress(f: Inner, time: real, wander: real, config: Config): Inner {
    if time < f.time then f
    else
      var dt := time - f.time;
      var update := Transition(dt);
      Inner(Apply(update, f.state),
            MAdd(Mul(Mul(update, f.uncertainty), Transpose(update)),
                 ProcessNoise(dt, wander, Times(config.delayWander, Sqr(f.state.z)))),
            time)
  }

  /** The variance a measurement along h is expected to show: h p h^T + noise. */
  function Innovation(p: Mat3, h: Vec3, noise: real): real { Dot(RowTimes(h, p), h) + noise }

  function Gain(p: Mat3, h: Vec3, noise: real): Vec3
    requires Innovation(p, h, noise) != 0.0
  {
    Scale(1.0 / Innovation(p, h, noise), Apply(p, h))
  }

  function Absorb(f: Inner, measured: real, h: Vec3, noise: real): Inner
    requires Innovation(f.uncertainty, h, noise) != 0.0
  {
    var k := Gain(f.uncertainty, h, noise);
    f.(state := VAdd(f.state, Scale(measured - Dot(h, f.state), k)),
       uncertainty := Symmetrize(Mul(MSub(Unit, Outer(k, h)), f.uncertainty)))
  }

  lemma NewInnerIsCovariance(offset: real, time: real, config: Config)
    ensures Covariance(NewInner(offset, time, config).uncertainty)
  {
    var p := NewInner(offset, time, config).uncertainty;
    forall v ensures Quad(p, v) >= 0.0 {
      var s, q := Sqr(config.stepThreshold), Sqr(config.initialFrequencyUncertainty);
      assert s >= 0.0 && q >= 0.0;
      assert v.x * (s * v.x) == s * Sqr(v.x) >= 0.0;
      assert v.y * (q * v.y) == q * Sqr(v.y) >= 0.0;
      assert v.z * (s * v.z) == s * Sqr(v.z) >= 0.0;
    }
  }

  // ----- progress keeps a covariance, and is the flow of one process -----

  lemma SquareIsNonNegative(x: real)
    ensures x * x >= 0.0
  {}

  lemma NonNegativeProduct(a: real, b: real)
    requires a >= 0.0 && b >= 0.0
    ensures a * b >= 0.0
  {}

  lemma NoiseForm(c: real, u: real, y: real)
    requires c >= 0.0
    ensures c * (u * u) / 3.0 + c * (u * y) + c * (y * y) >= 0.0
  {
    var square := (y + u / 2.0) * (y + u / 2.0) + u * u / 12.0;
    assert square == u * u / 3.0 + u * y + y * y;
    SquareIsNonNegative(y + u / 2.0);
    SquareIsNonNegative(u);
    assert c * square == c * (u * u) / 3.0 + c * (u * y) + c * (y * y);
  }

  lemma NoiseRows(dt: real, wander: real, x: real, y: real)
    ensures x * (wander * dt * dt * dt / 3.0 * x + wander * dt * dt / 2.0 * y)
         == wander * dt * ((dt * x) * (dt * x)) / 3.0 + wander * dt * ((dt * x) * y) / 2.0
    ensures y * (wander * dt * dt / 2.0 * x + wander * dt * y)
         == wander * dt * ((dt * x) * y) / 2.0 + wander * dt * (y * y)
  {}

  lemma NoiseIsNonNegative(dt: real, wander: real, delayNoise: real, v: Vec3)
    requires dt >= 0.0 && wander >= 0.0 && delayNoise >= 0.0
    ensures Quad(ProcessNoise(dt, wander, delayNoise), v) >= 0.0
  {
    NoiseRows(dt, wander, v.x, v.y);
    NoiseForm(wander * dt, dt * v.x, v.y);
    NonNegativeProduct(delayNoise, dt);
    NonNegativeProduct(delayNoise * dt, Sqr(v.z));
    assert v.z * (delayNoise * dt * v.z) == delayNoise * dt * Sqr(v.z);
  }

  /** The congruence p -> F p F^T of a step of length dt, entry by entry. */
  function Advance(p: Mat3, dt: real): Mat3 {
    Mat3(Vec3(Along(Along(p.r0.x, p.r1.x, dt), Along(p.r0.y, p.r1.y, dt), dt), Along(p.r0.y, p.r1.y, dt), Along(p.r0.z, p.r1.z, dt)),
         Vec3(Along(p.r1.x, p.r1.y, dt), p.r1.y, p.r1.z),
         Vec3(Along(p.r2.x, p.r2.y, dt), p.r2.y, p.r2.z))
  }

  /** A value drifting at a rate. */
  function Along(x: real, rate: real, dt: real): real { x + dt * rate }

  lemma AdvanceEntries(p: Mat3, dt: real)
    ensures Mul(Mul(Transition(dt), p), Transpose(Transition(dt))) == Advance(p, dt)
  {
    var m := Mul(Transition(dt), p);
    assert m.r0 == Vec3(p.r0.x + dt * p.r1.x, p.r0.y + dt * p.r1.y, p.r0.z + dt * p.r1.z);
    assert m.r1 == p.r1 && m.r2 == p.r2;
  }

  lemma ProgressKeepsCovariance(f: Inner, time: real, wander: real, config: Config)
    requires Covariance(f.uncertainty) && wander >= 0.0 && config.delayWander >= 0.0
    ensures Covariance(Progress(f, time, wander, config).uncertainty)
  {
    if time >= f.time {
      var dt := time - f.time;
      var update, noise := Transition(dt), Times(config.delayWander, Sqr(f.state.z));
      var moved := Mul(Mul(update, f.uncertainty), Transpose(update));
      var q := MAdd(moved, ProcessNoise(dt, wander, noise));
      AdvanceEntries(f.uncertainty, dt);
      assert q == Progress(f, time, wander, config).uncertainty;
      assert noise >= 0.0 by { assert Sqr(f.state.z) >= 0.0; }
      forall v ensures Quad(q, v) >= 0.0 {
        QuadSum(moved, ProcessNoise(dt, wander, noise), v);
        Congruence(update, f.uncertainty, v);
        assert Quad(f.uncertainty, Apply(Transpose(update), v)) >= 0.0;
        NoiseIsNonNegative(dt, wander, noise, v);
      }
    }
  }

  /** Progressing in two stages is progressing at once: when the filter is woken does not change
      what it believes at a later time. */
  lemma ProgressComposes(f: Inner, t1: real, t2: real, wander: real, config: Config)
    requires f.time <= t1 <= t2
    ensures Progress(Progress(f, t1, wander, config), t2, wander, config) == Progress(f, t2, wander, config)
  {
    var a, b := t1 - f.time, t2 - t1;
    var p, s, noise := f.uncertainty, f.state, Times(config.delayWander, Sqr(f.state.z));
    var g := Progress(f, t1, wander, config);
    assert g.state == Vec3(s.x + a * s.y, s.y, s.z);
    assert a * s.y + b * s.y == (a + b) * s.y;
    var qa, qb := ProcessNoise(a, wander, noise), ProcessNoise(b, wander, noise);
    AdvanceEntries(p, a);
    AdvanceEntries(g.uncertainty, b);
    AdvanceEntries(p, a + b);
    assert g.uncertainty == MAdd(Advance(p, a), qa);
    AdvanceIsLinear(Advance(p, a), qa, b);
    AdvanceComposes(p, a, b);
    NoiseComposes(a, b, wander, noise);
    MAddAssociates(Advance(Advance(p, a), b), Advance(qa, b), qb);
    var two, one := Progress(g, t2, wander, config), Progress(f, t2, wander, config);
    assert two.uncertainty == MAdd(Advance(g.uncertainty, b), qb);
    assert one.uncertainty == MAdd(Advance(p, a + b), ProcessNoise(a + b, wander, noise));
    assert two.state == one.state;
  }

  lemma MAddAssociates(a: Mat3, b: Mat3, c: Mat3)
    ensures MAdd(MAdd(a, b), c) == MAdd(a, MAdd(b, c))
  {}

  lemma AdvanceIsLinear(p: Mat3, q: Mat3, b: real)
    ensures Advance(MAdd(p, q), b) == MAdd(Advance(p, b), Advance(q, b))
  {}

  lemma AlongComposes(x: real, rate: real, a: real, b: real)
    ensures Along(Along(x, rate, a), rate, b) == Along(x, rate, a + b)
  {}

  /** The variance of the offset drifts at a rate that itself drifts. */
  lemma AlongComposesTwice(xx: real, xy: real, yx: real, yy: real, a: real, b: real)
    ensures Along(Along(Along(Along(xx, yx, a), Along(xy, yy, a), a), Along(yx, yy, a), b), Along(xy, yy, a + b), b)
         == Along(Along(xx, yx, a + b), Along(xy, yy, a + b), a + b)
  {
    var w := xy + (a + b) * yy;
    assert a * w == a * (xy + a * yy) + a * (b * yy);
    assert b * (yx + a * yy) == b * yx + a * (b * yy);
  }

  lemma AdvanceComposes(p: Mat3, a: real, b: real)
    ensures Advance(Advance(p, a), b) == Advance(p, a + b)
  {
    AlongComposesTwice(p.r0.x, p.r0.y, p.r1.x, p.r1.y, a, b);
    AlongComposes(p.r0.y, p.r1.y, a, b);
    AlongComposes(p.r0.z, p.r1.z, a, b);
    AlongComposes(p.r1.x, p.r1.y, a, b);
    AlongComposes(p.r2.x, p.r2.y, a, b);
  }

  lemma NoiseComposes(a: real, b: real, wander: real, delayNoise: real)
    ensures MAdd(Advance(ProcessNoise(a, wander, delayNoise), b), ProcessNoise(b, wander, delayNoise))
         == ProcessNoise(a + b, wander, delayNoise)
  {
    assert (a + b) * (a + b) == a * a + 2.0 * (a * b) + b * b;
    assert (a + b) * (a + b) * (a + b) == a * a * a + 3.0 * (a * a * b) + 3.0 * (a * b * b) + b * b * b;
    assert wander * (a + b) * (a + b) == wander * ((a + b) * (a + b));
    assert wander * (a + b) * (a + b) * (a + b) == wander * ((a + b) * (a + b) * (a + b));
  }

  // ----- absorbing a measurement -----

  lemma InnovationIsQuad(p: Mat3, h: Vec3, noise: real)
    ensures Innovation(p, h, noise) == Quad(p, h) + noise
  {
    DotCommutes(RowTimes(h, p), h);
    Adjoint(p, h, h);
    DotCommutes(Apply(p, h), h);
  }

  /** How much variance along a direction a measurement takes away: its squared covariance with
      the measurement over the innovation. */
  function Reduction(b: real, s: real): real
    requires s != 0.0
  {
    b * b / s
  }

  lemma Reciprocal(b: real, s: real)
    requires s != 0.0
    ensures Times(1.0 / s, b) == b / s && Times(b, b / s) == Reduction(b, s)
  {
    var q := 1.0 / s;
    assert q * s == 1.0;
    assert (q * b) * s == b * (q * s);
    assert (b * (q * b)) * s == (b * b) * (q * s);
  }

  /** What absorption does to the variance along any direction v. */
  lemma PosteriorVariance(f: Inner, measured: real, h: Vec3, noise: real, v: Vec3)
    requires Symmetric(f.uncertainty) && Innovation(f.uncertainty, h, noise) != 0.0
    ensures Quad(Absorb(f, measured, h, noise).uncertainty, v)
         == Quad(f.uncertainty, v) - Reduction(Dot(v, Apply(f.uncertainty, h)), Innovation(f.uncertainty, h, noise))
  {
    var p := f.uncertainty;
    var k, s := Gain(p, h, noise), Innovation(p, h, noise);
    var m := MSub(Unit, Outer(k, h));
    var pv := Apply(p, v);
    QuadSymmetrize(Mul(m, p), v);
    ApplyMul(m, p, v);
    ApplySum(Unit, Outer(k, h), pv);
    assert Apply(Unit, pv) == pv;
    ApplyOuter(k, h, pv);
    DotAdd(v, pv, Scale(Dot(h, pv), k));
    DotScale(v, Dot(h, pv), k);
    DotScale(v, 1.0 / s, Apply(p, h));
    SymmetricSwap(p, h, v);
    Reciprocal(Dot(v, Apply(p, h)), s);
  }

  /** Absorbing a measurement keeps a covariance and never increases the variance of anything,
      in particular no diagonal entry, whenever the division it performs is by a positive number. */
  lemma AbsorbKeepsCovariance(f: Inner, measured: real, h: Vec3, noise: real)
    requires Covariance(f.uncertainty) && noise >= 0.0 && Innovation(f.uncertainty, h, noise) > 0.0
    ensures var q := Absorb(f, measured, h, noise).uncertainty;
            && Covariance(q)
            && (forall v :: Quad(q, v) <= Quad(f.uncertainty, v))
            && q.r0.x <= f.uncertainty.r0.x && q.r1.y <= f.uncertainty.r1.y && q.r2.z <= f.uncertainty.r2.z
  {
    var p, s := f.uncertainty, Innovation(f.uncertainty, h, noise);
    var q := Absorb(f, measured, h, noise).uncertainty;
    InnovationIsQuad(p, h, noise);
    forall v ensures 0.0 <= Quad(q, v) <= Quad(p, v) {
      PosteriorVariance(f, measured, h, noise, v);
      CauchySchwarz(p, v, h);
      ReductionBounds(Dot(v, Apply(p, h)), s, Quad(p, v), Quad(p, h), noise);
    }
    var x, y, z := Vec3(1.0, 0.0, 0.0), Vec3(0.0, 1.0, 0.0), Vec3(0.0, 0.0, 1.0);
    assert Quad(q, x) == q.r0.x && Quad(p, x) == p.r0.x;
    assert Quad(q, y) == q.r1.y && Quad(p, y) == p.r1.y;
    assert Quad(q, z) == q.r2.z && Quad(p, z) == p.r2.z;
  }

  lemma ReductionBounds(b: real, s: real, qv: real, qh: real, noise: real)
    requires s > 0.0 && s == qh + noise && noise >= 0.0 && qv >= 0.0 && Times(b, b) <= Times(qv, qh)
    ensures 0.0 <= Reduction(b, s) <= qv
  {
    var q := Reduction(b, s);
    assert q * s == b * b;
    assert b * b <= qv * s by { assert qv * s == qv * qh + qv * noise && qv * noise >= 0.0; }
    assert (q - qv) * s <= 0.0 by { assert (q - qv) * s == q * s - qv * s; }
    assert q > qv ==> (q - qv) * s > 0.0;
    SquareIsNonNegative(b);
    assert q < 0.0 ==> q * s < 0.0;
  }

  /** The covariance of the estimate state + g (measured - h state) for any gain g:
      (1 - g h) p (1 - g h)^T + g noise g^T, as a quadratic form. */
  function GainVariance(p: Mat3, h: Vec3, noise: real, g: Vec3, v: Vec3): real {
    Quad(p, VAdd(v, Scale(-Dot(v, g), h))) + Times(noise, Sqr(Dot(v, g)))
  }

  /** The gain used is the best one: no linear correction leaves less variance in any direction, and
      the covariance stored is the one that gain really leaves. */
  lemma AbsorbIsOptimal(f: Inner, measured: real, h: Vec3, noise: real, g: Vec3, v: Vec3)
    requires Covariance(f.uncertainty) && noise >= 0.0 && Innovation(f.uncertainty, h, noise) > 0.0
    ensures Quad(Absorb(f, measured, h, noise).uncertainty, v) <= GainVariance(f.uncertainty, h, noise, g, v)
    ensures Quad(Absorb(f, measured, h, noise).uncertainty, v)
         == GainVariance(f.uncertainty, h, noise, Gain(f.uncertainty, h, noise), v)
  {
    var p, s, k := f.uncertainty, Innovation(f.uncertainty, h, noise), Gain(f.uncertainty, h, noise);
    InnovationIsQuad(p, h, noise);
    PosteriorVariance(f, measured, h, noise, v);
    DotScale(v, 1.0 / s, Apply(p, h));
    Reciprocal(Dot(v, Apply(p, h)), s);
    QuadLine(p, v, -Dot(v, g), h);
    QuadLine(p, v, -Dot(v, k), h);
    CompleteSquare(Quad(p, v), Dot(v, Apply(p, h)), Quad(p, h), noise, s, Dot(v, g));
    CompleteSquare(Quad(p, v), Dot(v, Apply(p, h)), Quad(p, h), noise, s, Dot(v, k));
  }

  lemma CompleteSquare(qv: real, b: real, qh: real, noise: real, s: real, c: real)
    requires s > 0.0 && s == qh + noise
    ensures qv + 2.0 * Times(-c, b) + Times(-c, Times(-c, qh)) + Times(noise, Sqr(c)) >= qv - Reduction(b, s)
    ensures c == b / s ==>
              qv + 2.0 * Times(-c, b) + Times(-c, Times(-c, qh)) + Times(noise, Sqr(c)) == qv - Reduction(b, s)
  {
    var d := b / s;
    assert d * s == b;
    assert Reduction(b, s) == d * b by { Reciprocal(b, s); }
    var square := (c - d) * (c - d);
    assert s * square == s * (c * c) - 2.0 * (c * (d * s)) + d * (d * s);
    assert c * (d * s) == c * b && d * (d * s) == d * b;
    assert Times(-c, Times(-c, qh)) + Times(noise, Sqr(c)) == s * (c * c);
    SquareIsNonNegative(c - d);
    assert s * square >= 0.0;
    assert c == d ==> square == 0.0;
  }

  /** Absorption moves the prediction towards the measurement, by the share of the variance that
      is not measurement noise. */
  lemma AbsorbMovesTowardsMeasurement(f: Inner, measured: real, h: Vec3, noise: real)
    requires Covariance(f.uncertainty) && noise >= 0.0 && Innovation(f.uncertainty, h, noise) > 0.0
    ensures var s := Innovation(f.uncertainty, h, noise);
            && 0.0 <= noise / s <= 1.0
            && measured - Dot(h, Absorb(f, measured, h, noise).state) == Times(noise / s, measured - Dot(h, f.state))
  {
    var p, s, k := f.uncertainty, Innovation(f.uncertainty, h, noise), Gain(f.uncertainty, h, noise);
    var d := measured - Dot(h, f.state);
    InnovationIsQuad(p, h, noise);
    DotAdd(h, f.state, Scale(d, k));
    DotScale(h, d, k);
    DotScale(h, 1.0 / s, Apply(p, h));
    assert Quad(p, h) >= 0.0;
    ShareOfNoise(Quad(p, h), noise, s, d);
  }

  lemma ShareOfNoise(qh: real, noise: real, s: real, d: real)
    requires s > 0.0 && s == qh + noise && qh >= 0.0 && noise >= 0.0
    ensures 0.0 <= noise / s <= 1.0
    ensures d - Times(d, Times(1.0 / s, qh)) == Times(noise / s, d)
  {
    var share, q := noise / s, 1.0 / s;
    assert share * s == noise && q * s == 1.0;
    assert share == q * noise;
    assert share < 0.0 ==> share * s < 0.0;
    assert share > 1.0 ==> (share - 1.0) * s > 0.0;
    assert q * qh == q * s - q * noise;
    assert d * (1.0 - share) == d - share * d;
  }
}
