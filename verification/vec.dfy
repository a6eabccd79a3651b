/**
 * Three-component vectors over the reals, standing for the engine's `v3` (f32)
 * and `v3d` (f64) types, and the handful of math-library routines the physics
 * code calls but whose definitions are not part of this model (`length`,
 * `normalize`, `get_tetrahedron_volume`).  Those routines are carried as
 * function values in a `Math` record; `Lawful` states what they must satisfy.
 */
module Vec {

  datatype Vec3 = Vec3(x: real, y: real, z: real)

  const Zero: Vec3 := Vec3(0.0, 0.0, 0.0)

  function Add(a: Vec3, b: Vec3): Vec3 { Vec3(a.x + b.x, a.y + b.y, a.z + b.z) }

  function Sub(a: Vec3, b: Vec3): Vec3 { Vec3(a.x - b.x, a.y - b.y, a.z - b.z) }

  function Neg(a: Vec3): Vec3 { Vec3(-a.x, -a.y, -a.z) }

  function Scale(s: real, a: Vec3): Vec3 { Vec3(s * a.x, s * a.y, s * a.z) }

  function Dot(a: Vec3, b: Vec3): real { a.x * b.x + a.y * b.y + a.z * b.z }

  function Cross(a: Vec3, b: Vec3): Vec3
  {
    Vec3(a.y * b.z - a.z * b.y, a.z * b.x - a.x * b.z, a.x * b.y - a.y * b.x)
  }

  /** The squared Euclidean length; `length` is its non-negative square root. */
  function LengthSquared(a: Vec3): real { Dot(a, a) }

  /**
   * The math-library routines used by the physics code, as opaque functions:
   * `length(v)`, `normalize(v)` and `get_tetrahedron_volume(x0, x1, x2, x3)`.
   */
  datatype Math = Math(
    length: Vec3 -> real,
    normalize: Vec3 -> Vec3,
    tetrahedronVolume: (Vec3, Vec3, Vec3, Vec3) -> real)

  /**
   * What the physics code relies on: `length` is the Euclidean norm and
   * `normalize` divides a vector of non-zero length by that length, so it
   * yields a unit vector.  Nothing is assumed about the tetrahedron volume.
   */
  ghost predicate Lawful(m: Math)
  {
    && (forall v {:trigger LengthLaw(m, v)} :: LengthLaw(m, v))
    && (forall v {:trigger NormalizeLaw(m, v)} :: NormalizeLaw(m, v))
  }

  /** `length(v)` is the non-negative square root of the squared length of v. */
  ghost predicate LengthLaw(m: Math, v: Vec3)
  {
    0.0 <= m.length(v) && m.length(v) * m.length(v) == LengthSquared(v)
  }

  /** `normalize(v)` is v divided by its length, when that length is not zero. */
  ghost predicate NormalizeLaw(m: Math, v: Vec3)
  {
    m.length(v) != 0.0 ==> m.normalize(v) == Scale(1.0 / m.length(v), v)
  }

  /** The length law at one vector. */
  lemma LengthOf(m: Math, v: Vec3)
    requires Lawful(m)
    ensures 0.0 <= m.length(v) && m.length(v) * m.length(v) == LengthSquared(v)
  {
    assert LengthLaw(m, v);
  }

  /** Smallest integer not below `x`: the value of `ceil_f32_to_u32` for x >= 0. */
  function Ceil(x: real): (n: int)
    ensures n as real - 1.0 < x <= n as real
    ensures 0.0 <= x ==> 0 <= n
    ensures 0.0 < x ==> 1 <= n
  {
    -((-x).Floor)
  }

  /** `normalize` divides a vector of non-zero length by that length. */
  lemma NormalizeDivides(m: Math, v: Vec3)
    requires Lawful(m)
    requires m.length(v) != 0.0
    ensures 0.0 < m.length(v) && m.normalize(v) == Scale(1.0 / m.length(v), v)
  {
    LengthOf(m, v);
    assert NormalizeLaw(m, v);
  }

  /** A normalised vector of non-zero length is a unit vector. */
  lemma NormalizeIsUnit(m: Math, v: Vec3)
    requires Lawful(m)
    requires m.length(v) != 0.0
    ensures LengthSquared(m.normalize(v)) == 1.0
  {
    var l := m.length(v);
    LengthOf(m, v);
    NormalizeDivides(m, v);
    var n := m.normalize(v);
    LengthSquaredScale(1.0 / l, v);
    calc {
      LengthSquared(n);
      (1.0 / l) * (1.0 / l) * LengthSquared(v);
      (1.0 / l) * (1.0 / l) * (l * l);
      1.0;
    }
  }

  /** Scaling by a non-negative factor scales the length by that factor. */
  lemma LengthOfScaled(m: Math, f: real, v: Vec3)
    requires Lawful(m)
    requires 0.0 <= f
    ensures m.length(Scale(f, v)) == f * m.length(v)
  {
    var l, ls := m.length(v), m.length(Scale(f, v));
    LengthOf(m, v);
    LengthOf(m, Scale(f, v));
    LengthSquaredScale(f, v);
    assert ls * ls == f * f * (l * l);
    assert f * f * (l * l) == (f * l) * (f * l);
    SquareRootUnique(ls, f * l);
  }

  /** A vector of squared length one has length one. */
  lemma UnitLength(m: Math, v: Vec3)
    requires Lawful(m)
    requires LengthSquared(v) == 1.0
    ensures m.length(v) == 1.0
  {
    LengthOf(m, v);
    SquareRootUnique(m.length(v), 1.0);
  }

  /** `length` does not depend on the direction a difference is taken in. */
  lemma LengthOfReversedDifference(m: Math, a: Vec3, b: Vec3)
    requires Lawful(m)
    ensures m.length(Sub(a, b)) == m.length(Sub(b, a))
  {
    var l1, l2 := m.length(Sub(a, b)), m.length(Sub(b, a));
    LengthOf(m, Sub(a, b));
    LengthOf(m, Sub(b, a));
    assert LengthSquared(Sub(a, b)) == LengthSquared(Sub(b, a));
    assert l1 * l1 == l2 * l2;
    SquareRootUnique(l1, l2);
  }

  lemma ScaleScale(a: real, b: real, v: Vec3)
    ensures Scale(a, Scale(b, v)) == Scale(a * b, v)
  {
  }

  lemma ScaleScaleTo(a: real, b: real, c: real, v: Vec3)
    requires a * b == c
    ensures Scale(a, Scale(b, v)) == Scale(c, v)
  {
    ScaleScale(a, b, v);
  }

  lemma LengthSquaredScale(f: real, v: Vec3)
    ensures LengthSquared(Scale(f, v)) == f * f * LengthSquared(v)
  {
  }

  lemma LengthSquaredNeg(v: Vec3)
    ensures LengthSquared(Neg(v)) == LengthSquared(v)
  {
  }

  lemma SubOfSums(a: Vec3, s: Vec3, b: Vec3, t: Vec3)
    ensures Sub(Add(a, s), Add(b, t)) == Add(Sub(a, b), Sub(s, t))
  {
  }

  lemma OpposedScales(f: real, g: real, v: Vec3)
    ensures Sub(Scale(f, v), Scale(g, Neg(v))) == Scale(f + g, v)
  {
  }

  lemma AddScaled(v: Vec3, f: real)
    ensures Add(v, Scale(f, v)) == Scale(1.0 + f, v)
  {
  }

  lemma ScaleInverse(f: real, v: Vec3)
    requires f != 0.0
    ensures Scale(f, Scale(1.0 / f, v)) == v
  {
    ScaleScale(f, 1.0 / f, v);
    assert f * (1.0 / f) == 1.0;
  }

  lemma SubSelf(v: Vec3)
    ensures Sub(v, v) == Zero
  {
  }

  lemma SubAddLeft(a: Vec3, t: Vec3, b: Vec3)
    ensures Sub(Add(a, t), b) == Add(Sub(a, b), t)
  {
  }

  lemma DotAddRight(c: Vec3, a: Vec3, t: Vec3)
    ensures Dot(c, Add(a, t)) == Dot(c, a) + Dot(c, t)
  {
  }

  lemma ScaleAdd(f: real, a: Vec3, b: Vec3)
    ensures Scale(f, Add(a, b)) == Add(Scale(f, a), Scale(f, b))
  {
  }

  /** Moving an accumulated moment by one more weighted point, relative to an origin c. */
  lemma ShiftStep(sum: Vec3, total: real, c: Vec3, mass: real, p: Vec3)
    ensures Add(Sub(sum, Scale(total, c)), Scale(mass, Sub(p, c)))
         == Sub(Add(sum, Scale(mass, p)), Scale(total + mass, c))
  {
    calc {
      Add(Sub(sum, Scale(total, c)), Scale(mass, Sub(p, c)));
      { ScaleSub(mass, p, c); }
      Add(Sub(sum, Scale(total, c)), Sub(Scale(mass, p), Scale(mass, c)));
      Sub(Add(sum, Scale(mass, p)), Add(Scale(total, c), Scale(mass, c)));
      { AddScales(total, mass, c); }
      Sub(Add(sum, Scale(mass, p)), Scale(total + mass, c));
    }
  }

  lemma ScaleSub(f: real, a: Vec3, b: Vec3)
    ensures Scale(f, Sub(a, b)) == Sub(Scale(f, a), Scale(f, b))
  {
  }

  lemma AddScales(f: real, g: real, v: Vec3)
    ensures Add(Scale(f, v), Scale(g, v)) == Scale(f + g, v)
  {
  }

  /** Non-negative reals with equal squares are equal. */
  lemma SquareRootUnique(a: real, b: real)
    requires 0.0 <= a && 0.0 <= b && a * a == b * b
    ensures a == b
  {
    assert (a + b) * (a - b) == a * a - b * b == 0.0;
    if a + b == 0.0 {
      assert a == 0.0 && b == 0.0;
    } else {
      assert a - b == 0.0;
    }
  }
}
