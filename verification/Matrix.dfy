/** The small matrices of the Kalman filter, over exact reals.
    The source is generic in the dimensions; only 3x3, 3x1, 1x3 and 1x1 occur, so a 3-vector stands
    for a column or a row and a 1x1 matrix is a number. */
module Matrix {

  datatype Vec3 = Vec3(x: real, y: real, z: real)

  datatype Mat3 = Mat3(r0: Vec3, r1: Vec3, r2: Vec3)

  const Unit := Mat3(Vec3(1.0, 0.0, 0.0), Vec3(0.0, 1.0, 0.0), Vec3(0.0, 0.0, 1.0))

  function VAdd(u: Vec3, v: Vec3): Vec3 { Vec3(u.x + v.x, u.y + v.y, u.z + v.z) }

  function VSub(u: Vec3, v: Vec3): Vec3 { Vec3(u.x - v.x, u.y - v.y, u.z - v.z) }

  function Scale(c: real, v: Vec3): Vec3 { Vec3(c * v.x, c * v.y, c * v.z) }

  /** Multiplication by name: the solver rewrites equals for equals under a named function. */
  function Times(a: real, b: real): real { a * b }

  /** A row times a column. */
  function Dot(u: Vec3, v: Vec3): real { u.x * v.x + u.y * v.y + u.z * v.z }

  function Transpose(a: Mat3): Mat3 {
    Mat3(Vec3(a.r0.x, a.r1.x, a.r2.x), Vec3(a.r0.y, a.r1.y, a.r2.y), Vec3(a.r0.z, a.r1.z, a.r2.z))
  }

  function MAdd(a: Mat3, b: Mat3): Mat3 { Mat3(VAdd(a.r0, b.r0), VAdd(a.r1, b.r1), VAdd(a.r2, b.r2)) }

  function MSub(a: Mat3, b: Mat3): Mat3 { Mat3(VSub(a.r0, b.r0), VSub(a.r1, b.r1), VSub(a.r2, b.r2)) }

  /** A matrix times a column. */
  function Apply(a: Mat3, v: Vec3): Vec3 { Vec3(Dot(a.r0, v), Dot(a.r1, v), Dot(a.r2, v)) }

  /** A row times a matrix. */
  function RowTimes(v: Vec3, a: Mat3): Vec3 { Apply(Transpose(a), v) }

  function Mul(a: Mat3, b: Mat3): Mat3 { Mat3(RowTimes(a.r0, b), RowTimes(a.r1, b), RowTimes(a.r2, b)) }

  /** A column times a row. */
  function Outer(k: Vec3, h: Vec3): Mat3 { Mat3(Scale(k.x, h), Scale(k.y, h), Scale(k.z, h)) }

  function Symmetrize(a: Mat3): Mat3 {
    Mat3(Vec3((a.r0.x + a.r0.x) / 2.0, (a.r0.y + a.r1.x) / 2.0, (a.r0.z + a.r2.x) / 2.0),
         Vec3((a.r1.x + a.r0.y) / 2.0, (a.r1.y + a.r1.y) / 2.0, (a.r1.z + a.r2.y) / 2.0),
         Vec3((a.r2.x + a.r0.z) / 2.0, (a.r2.y + a.r1.z) / 2.0, (a.r2.z + a.r2.z) / 2.0))
  }

  predicate Symmetric(a: Mat3) { a.r0.y == a.r1.x && a.r0.z == a.r2.x && a.r1.z == a.r2.y }

  /** The quadratic form of a: v^T a v. */
  function Quad(a: Mat3, v: Vec3): real { Dot(v, Apply(a, v)) }

  /** Symmetric and positive semidefinite: what every covariance matrix must be. */
  ghost predicate Covariance(a: Mat3) { Symmetric(a) && forall v :: Quad(a, v) >= 0.0 }

  lemma DotCommutes(u: Vec3, v: Vec3)
    ensures Dot(u, v) == Dot(v, u)
  {}

  lemma DotAdd(u: Vec3, v: Vec3, w: Vec3)
    ensures Dot(u, VAdd(v, w)) == Dot(u, v) + Dot(u, w)
    ensures Dot(u, VSub(v, w)) == Dot(u, v) - Dot(u, w)
  {
    assert u.x * (v.x + w.x) == u.x * v.x + u.x * w.x && u.x * (v.x - w.x) == u.x * v.x - u.x * w.x;
    assert u.y * (v.y + w.y) == u.y * v.y + u.y * w.y && u.y * (v.y - w.y) == u.y * v.y - u.y * w.y;
    assert u.z * (v.z + w.z) == u.z * v.z + u.z * w.z && u.z * (v.z - w.z) == u.z * v.z - u.z * w.z;
  }

  lemma DotScale(u: Vec3, c: real, v: Vec3)
    ensures Dot(u, Scale(c, v)) == Times(c, Dot(u, v))
  {
    assert u.x * (c * v.x) == c * (u.x * v.x);
    assert u.y * (c * v.y) == c * (u.y * v.y);
    assert u.z * (c * v.z) == c * (u.z * v.z);
    assert c * (u.x * v.x + u.y * v.y + u.z * v.z) == c * (u.x * v.x) + c * (u.y * v.y) + c * (u.z * v.z);
  }

  lemma ApplyAdd(a: Mat3, u: Vec3, v: Vec3)
    ensures Apply(a, VAdd(u, v)) == VAdd(Apply(a, u), Apply(a, v))
  {
    DotAdd(a.r0, u, v);
    DotAdd(a.r1, u, v);
    DotAdd(a.r2, u, v);
  }

  lemma ApplyScale(a: Mat3, c: real, v: Vec3)
    ensures Apply(a, Scale(c, v)) == Scale(c, Apply(a, v))
  {
    DotScale(a.r0, c, v);
    DotScale(a.r1, c, v);
    DotScale(a.r2, c, v);
  }

  lemma ApplySum(a: Mat3, b: Mat3, v: Vec3)
    ensures Apply(MAdd(a, b), v) == VAdd(Apply(a, v), Apply(b, v))
    ensures Apply(MSub(a, b), v) == VSub(Apply(a, v), Apply(b, v))
  {
    forall r: Vec3, s: Vec3
      ensures Dot(VAdd(r, s), v) == Dot(r, v) + Dot(s, v)
      ensures Dot(VSub(r, s), v) == Dot(r, v) - Dot(s, v)
    {
      DotAdd(v, r, s);
    }
  }

  lemma ApplyOuter(k: Vec3, h: Vec3, v: Vec3)
    ensures Apply(Outer(k, h), v) == Scale(Dot(h, v), k)
  {
    DotCommutes(Scale(k.x, h), v);
    DotCommutes(Scale(k.y, h), v);
    DotCommutes(Scale(k.z, h), v);
    DotScale(v, k.x, h);
    DotScale(v, k.y, h);
    DotScale(v, k.z, h);
    DotCommutes(v, h);
  }

  /** Moving a matrix to the other side of a product transposes it. */
  lemma {:induction false} Adjoint(a: Mat3, u: Vec3, v: Vec3)
    ensures Dot(u, Apply(Transpose(a), v)) == Dot(Apply(a, u), v)
  {
    var t := Transpose(a);
    assert u.x * Dot(t.r0, v) == u.x * (a.r0.x * v.x) + u.x * (a.r1.x * v.y) + u.x * (a.r2.x * v.z);
    assert u.y * Dot(t.r1, v) == u.y * (a.r0.y * v.x) + u.y * (a.r1.y * v.y) + u.y * (a.r2.y * v.z);
    assert u.z * Dot(t.r2, v) == u.z * (a.r0.z * v.x) + u.z * (a.r1.z * v.y) + u.z * (a.r2.z * v.z);
    assert Dot(a.r0, u) * v.x == u.x * (a.r0.x * v.x) + u.y * (a.r0.y * v.x) + u.z * (a.r0.z * v.x);
    assert Dot(a.r1, u) * v.y == u.x * (a.r1.x * v.y) + u.y * (a.r1.y * v.y) + u.z * (a.r1.z * v.y);
    assert Dot(a.r2, u) * v.z == u.x * (a.r2.x * v.z) + u.y * (a.r2.y * v.z) + u.z * (a.r2.z * v.z);
  }

  lemma TransposeTwice(a: Mat3)
    ensures Transpose(Transpose(a)) == a
    ensures Symmetric(a) <==> Transpose(a) == a
  {}

  /** A product acts as its factors one after the other. */
  lemma ApplyMul(a: Mat3, b: Mat3, v: Vec3)
    ensures Apply(Mul(a, b), v) == Apply(a, Apply(b, v))
  {
    forall r: Vec3
      ensures Dot(RowTimes(r, b), v) == Dot(r, Apply(b, v))
    {
      DotCommutes(RowTimes(r, b), v);
      Adjoint(b, v, r);
      DotCommutes(Apply(b, v), r);
    }
  }

  lemma SymmetricSwap(a: Mat3, u: Vec3, v: Vec3)
    requires Symmetric(a)
    ensures Dot(u, Apply(a, v)) == Dot(v, Apply(a, u))
  {
    TransposeTwice(a);
    Adjoint(a, u, v);
    DotCommutes(Apply(a, u), v);
  }

  lemma QuadSymmetrize(a: Mat3, v: Vec3)
    ensures Symmetric(Symmetrize(a)) && Quad(Symmetrize(a), v) == Quad(a, v)
  {
    var half := Symmetrize(a);
    var t := Transpose(a);
    assert MAdd(half, half) == MAdd(a, t);
    ApplySum(half, half, v);
    ApplySum(a, t, v);
    DotAdd(v, Apply(half, v), Apply(half, v));
    DotAdd(v, Apply(a, v), Apply(t, v));
    Adjoint(a, v, v);
    DotCommutes(Apply(a, v), v);
  }

  /** The quadratic form along a line through v. */
  lemma QuadLine(a: Mat3, v: Vec3, t: real, h: Vec3)
    requires Symmetric(a)
    ensures Quad(a, VAdd(v, Scale(t, h))) 
         == Quad(a, v) + 2.0 * Times(t, Dot(v, Apply(a, h))) + Times(t, Times(t, Quad(a, h)))
  {
    var w := Scale(t, h);
    var av, ah, aw := Apply(a, v), Apply(a, h), Apply(a, w);
    ApplyAdd(a, v, w);
    ApplyScale(a, t, h);
    DotAdd(VAdd(v, w), av, aw);
    DotCommutes(VAdd(v, w), av);
    DotCommutes(VAdd(v, w), aw);
    DotAdd(av, v, w);
    DotAdd(aw, v, w);
    DotCommutes(av, v);
    DotCommutes(aw, v);
    DotScale(v, t, ah);
    DotScale(av, t, h);
    DotCommutes(av, h);
    SymmetricSwap(a, h, v);
    DotScale(aw, t, h);
    DotCommutes(aw, h);
    DotScale(h, t, ah);
  }

  /** Cauchy-Schwarz for the form of a covariance matrix. */
  lemma CauchySchwarz(a: Mat3, v: Vec3, h: Vec3)
    requires Covariance(a)
    ensures Times(Dot(v, Apply(a, h)), Dot(v, Apply(a, h))) <= Times(Quad(a, v), Quad(a, h))
  {
    var b, qv, qh := Dot(v, Apply(a, h)), Quad(a, v), Quad(a, h);
    assert qv >= 0.0 && qh >= 0.0;
    if qh > 0.0 {
      var t := -b / qh;
      QuadLine(a, v, t, h);
      Discriminant(qv, b, qh, t);
    } else if b != 0.0 {
      var t := -(qv + 1.0) / (2.0 * b);
      assert Times(t, b) == -(qv + 1.0) / 2.0 && Times(t, qh) == 0.0 && Times(t, 0.0) == 0.0;
      QuadLine(a, v, t, h);
      assert false;
    }
  }

  lemma Discriminant(qv: real, b: real, qh: real, t: real)
    requires qh > 0.0 && t == -b / qh
    requires qv + 2.0 * Times(t, b) + Times(t, Times(t, qh)) >= 0.0
    ensures Times(b, b) <= Times(qv, qh)
  {
    assert t * qh == -b;
    assert t * (t * qh) == t * (-b) == -(t * b);
    assert qv + t * b >= 0.0;
    assert (qv + t * b) * qh >= 0.0;
    assert (qv + t * b) * qh == qv * qh + (t * qh) * b;
  }

  /** Congruence keeps positive semidefiniteness. */
  lemma Congruence(f: Mat3, p: Mat3, v: Vec3)
    ensures Quad(Mul(Mul(f, p), Transpose(f)), v) == Quad(p, Apply(Transpose(f), v))
  {
    var w := Apply(Transpose(f), v);
    ApplyMul(Mul(f, p), Transpose(f), v);
    ApplyMul(f, p, w);
    TransposeTwice(f);
    Adjoint(Transpose(f), v, Apply(p, w));
  }

  lemma QuadSum(a: Mat3, b: Mat3, v: Vec3)
    ensures Quad(MAdd(a, b), v) == Quad(a, v) + Quad(b, v)
  {
    ApplySum(a, b, v);
    DotAdd(v, Apply(a, v), Apply(b, v));
  }
}
