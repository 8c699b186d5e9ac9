/**
 Relative poses: what they do not depend on, and how they scale distances.
 */
module Poses {
  import opened Basics
  import opened Quaternions

  /** q x q*, of which `_rotate_vector` returns the imaginary part. */
  function Sandwich(q: Quaternion, x: Quaternion): Quaternion
  {
    Multiply(Multiply(q, x), Conjugate(q))
  }

  /* ---------- Sandwiches ---------- */

  lemma ConjugateTwice(q: Quaternion)
    ensures Conjugate(Conjugate(q)) == q
  {
  }

  /** Rotating by a product is rotating twice. */
  lemma SandwichProduct(a: Quaternion, b: Quaternion, x: Quaternion)
    ensures Sandwich(Multiply(a, b), x) == Sandwich(a, Sandwich(b, x))
  {
    var a', b' := Conjugate(a), Conjugate(b);
    ConjugateProduct(a, b);
    Associative(a, b, x);
    Associative(Multiply(a, Multiply(b, x)), b', a');
    Associative(a, Multiply(b, x), b');
  }

  lemma SandwichScale(q: Quaternion, s: real, x: Quaternion)
    ensures Sandwich(q, Scale(s, x)) == Scale(s, Sandwich(q, x))
  {
    ScaleProduct(s, q, x);
    ScaleProduct(s, Multiply(q, x), Conjugate(q));
  }

  lemma SandwichScalar(s: real, x: Quaternion)
    ensures Sandwich(Quaternion(0.0, 0.0, 0.0, s), x) == Scale(s * s, x)
  {
    var k := Quaternion(0.0, 0.0, 0.0, s);
    ScalarLeft(s, x);
    ScalarLeft(s, Scale(s, x));
    assert Conjugate(k) == k;
    ScaleTwice(s, x);
  }

  lemma ScaleTwice(s: real, x: Quaternion)
    ensures Scale(s, Scale(s, x)) == Scale(s * s, x)
  {
  }

  lemma ScaleOne(x: Quaternion)
    ensures Scale(1.0, x) == x && Scale(1.0 * 1.0, x) == x
  {
  }

  /** The rotation of a vector is a vector: its real part vanishes. */
  lemma SandwichPure(q: Quaternion, v: Vector)
    ensures Sandwich(q, Pure(v)) == Pure(Rotate(q, v))
  {
    var p, x := Sandwich(q, Pure(v)), Pure(v);
    ConjugateProduct(Multiply(q, x), Conjugate(q));
    ConjugateTwice(q);
    ConjugateProduct(q, x);
    Associative(q, Conjugate(x), Conjugate(q));
    assert Conjugate(p) == Sandwich(q, Conjugate(x));
    ConjugatePure(v);
    SandwichScale(q, -1.0, x);
    MinusOne(p);
  }

  lemma ConjugatePure(v: Vector)
    ensures Conjugate(Pure(v)) == Scale(-1.0, Pure(v))
  {
  }

  lemma MinusOne(p: Quaternion)
    requires Conjugate(p) == Scale(-1.0, p)
    ensures p.w == 0.0
  {
  }

  /* ---------- Linearity ---------- */

  function Subtract(a: Quaternion, b: Quaternion): Quaternion
  {
    Quaternion(a.x - b.x, a.y - b.y, a.z - b.z, a.w - b.w)
  }

  lemma ProductMinus(u: Times, m: real, a: real, b: real)
    requires IsProduct(u)
    ensures u(m, a - b) == u(m, a) - u(m, b) && u(a - b, m) == u(a, m) - u(b, m)
  {
    assert u(m, a - b) == Product(m, a - b) && u(a - b, m) == Product(a - b, m);
    assert u(m, a) == Product(m, a) && u(m, b) == Product(m, b);
    assert u(a, m) == Product(a, m) && u(b, m) == Product(b, m);
  }

  lemma MultiplyMinusBy(u: Times, m: Quaternion, a: Quaternion, b: Quaternion)
    requires IsProduct(u)
    ensures MultiplyBy(u, m, Subtract(a, b)) == Subtract(MultiplyBy(u, m, a), MultiplyBy(u, m, b))
  {
    RowMinus(u, m.x, a, b);
    RowMinus(u, m.y, a, b);
    RowMinus(u, m.z, a, b);
    RowMinus(u, m.w, a, b);
  }

  lemma RowMinus(u: Times, m: real, a: Quaternion, b: Quaternion)
    requires IsProduct(u)
    ensures var d := Subtract(a, b);
      u(m, d.x) == u(m, a.x) - u(m, b.x) && u(m, d.y) == u(m, a.y) - u(m, b.y) &&
      u(m, d.z) == u(m, a.z) - u(m, b.z) && u(m, d.w) == u(m, a.w) - u(m, b.w)
    ensures var d := Subtract(a, b);
      u(d.x, m) == u(a.x, m) - u(b.x, m) && u(d.y, m) == u(a.y, m) - u(b.y, m) &&
      u(d.z, m) == u(a.z, m) - u(b.z, m) && u(d.w, m) == u(a.w, m) - u(b.w, m)
  {
    ProductMinus(u, m, a.x, b.x);
    ProductMinus(u, m, a.y, b.y);
    ProductMinus(u, m, a.z, b.z);
    ProductMinus(u, m, a.w, b.w);
  }

  lemma MinusMultiplyBy(u: Times, m: Quaternion, a: Quaternion, b: Quaternion)
    requires IsProduct(u)
    ensures MultiplyBy(u, Subtract(a, b), m) == Subtract(MultiplyBy(u, a, m), MultiplyBy(u, b, m))
  {
    RowMinus(u, m.x, a, b);
    RowMinus(u, m.y, a, b);
    RowMinus(u, m.z, a, b);
    RowMinus(u, m.w, a, b);
  }

  lemma MultiplyMinus(m: Quaternion, a: Quaternion, b: Quaternion)
    ensures Multiply(m, Subtract(a, b)) == Subtract(Multiply(m, a), Multiply(m, b))
    ensures Multiply(Subtract(a, b), m) == Subtract(Multiply(a, m), Multiply(b, m))
  {
    MultiplyMinusBy(Product, m, a, b);
    MinusMultiplyBy(Product, m, a, b);
    MultiplyIs(m, Subtract(a, b));
    MultiplyIs(m, a);
    MultiplyIs(m, b);
    MultiplyIs(Subtract(a, b), m);
    MultiplyIs(a, m);
    MultiplyIs(b, m);
  }

  lemma RotateMinus(q: Quaternion, a: Vector, b: Vector)
    ensures Minus(Rotate(q, a), Rotate(q, b)) == Rotate(q, Minus(a, b))
  {
    assert Pure(Minus(a, b)) == Subtract(Pure(a), Pure(b));
    MultiplyMinus(q, Pure(a), Pure(b));
    MultiplyMinus(Conjugate(q), Multiply(q, Pure(a)), Multiply(q, Pure(b)));
  }

  /* ---------- Rigid transforms ---------- */

  /** The pose after rotating the world by r and moving it by t. */
  function Transform(r: Quaternion, t: Vector, p: Pose): Pose
  {
    Pose(Plus(Rotate(r, p.position), t), Multiply(r, p.orientation))
  }

  lemma TransformedDelta(r: Quaternion, t: Vector, a: Pose, b: Pose)
    ensures Minus(Transform(r, t, a).position, Transform(r, t, b).position) == Rotate(r, Minus(a.position, b.position))
  {
    RotateMinus(r, a.position, b.position);
  }

  /** A unit rotation is undone by its conjugate. */
  lemma Undone(r: Quaternion, x: Quaternion)
    requires NormSquared(r) == 1.0
    ensures Multiply(Conjugate(r), Multiply(r, x)) == x && Sandwich(Conjugate(r), Sandwich(r, x)) == x
  {
    Associative(Conjugate(r), r, x);
    ConjugateNorm(r);
    ScalarLeft(1.0, x);
    SandwichProduct(Conjugate(r), r, x);
    SandwichScalar(1.0, x);
    ScaleOne(x);
  }

  lemma TransformedPosition(r: Quaternion, q: Quaternion, d: Vector)
    requires NormSquared(r) == 1.0
    ensures Rotate(Conjugate(Multiply(r, q)), Rotate(r, d)) == Rotate(Conjugate(q), d)
  {
    var q', r' := Conjugate(q), Conjugate(r);
    ConjugateProduct(r, q);
    SandwichPure(r, d);
    SandwichProduct(q', r', Pure(Rotate(r, d)));
    Undone(r, Pure(d));
    assert Sandwich(Conjugate(Multiply(r, q)), Pure(Rotate(r, d))) == Sandwich(q', Pure(d));
  }

  lemma TransformedOrientation(r: Quaternion, q: Quaternion, c: Quaternion)
    requires NormSquared(r) == 1.0
    ensures Multiply(Conjugate(Multiply(r, q)), Multiply(r, c)) == Multiply(Conjugate(q), c)
  {
    ConjugateProduct(r, q);
    Associative(Conjugate(q), Conjugate(r), Multiply(r, c));
    Undone(r, c);
  }

  /** A relative pose does not change when one rigid transform is applied to both poses. */
  lemma RigidInvariant(r: Quaternion, t: Vector, parent: Pose, child: Pose)
    requires NormSquared(r) == 1.0
    ensures RelativePose(Transform(r, t, parent), Transform(r, t, child)) == RelativePose(parent, child)
  {
    TransformedDelta(r, t, child, parent);
    TransformedPosition(r, parent.orientation, Minus(child.position, parent.position));
    TransformedOrientation(r, parent.orientation, child.orientation);
  }

  lemma NegateIsScale(q: Quaternion)
    ensures Negate(q) == Scale(-1.0, q) && Conjugate(Negate(q)) == Scale(-1.0, Conjugate(q))
  {
  }

  /** Two quaternions that differ in sign have one canonical form, unless their real part is zero. */
  lemma CanonicalSign(q: Quaternion)
    ensures q.w != 0.0 ==> Canonical(Negate(q)) == Canonical(q)
    ensures q.w == 0.0 ==> Canonical(Negate(q)) == Negate(Canonical(q))
    ensures Canonical(q).w >= 0.0 && (Canonical(q) == q || Canonical(q) == Negate(q))
  {
  }

  lemma NegateDiffers(q: Quaternion)
    ensures Negate(q) == q ==> NormSquared(q) == 0.0
  {
    if Negate(q) == q {
      assert q == Quaternion(0.0, 0.0, 0.0, 0.0);
    }
  }

  lemma NonzeroProduct(a: Quaternion, b: Quaternion)
    requires NormSquared(a) != 0.0 && NormSquared(b) != 0.0
    ensures NormSquared(Multiply(Conjugate(a), b)) != 0.0
  {
    NormMultiplicative(Conjugate(a), b);
    ConjugateSameNorm(a);
  }

  lemma CanonicalSignExactly(q: Quaternion)
    requires NormSquared(q) != 0.0
    ensures Canonical(Negate(q)) == Canonical(q) <==> q.w != 0.0
  {
    CanonicalSign(q);
    NegateDiffers(q);
  }

  /** The parent with its quaternion negated, which is the same rotation. */
  function Flipped(parent: Pose): Pose
  {
    parent.(orientation := Negate(parent.orientation))
  }

  lemma FlippedProduct(parent: Pose, child: Pose)
    ensures var o := Multiply(Conjugate(parent.orientation), child.orientation);
      Multiply(Conjugate(Flipped(parent).orientation), child.orientation) == Negate(o)
  {
    var q := parent.orientation;
    NegateIsScale(q);
    ScaleProduct(-1.0, Conjugate(q), child.orientation);
    NegateIsScale(Multiply(Conjugate(q), child.orientation));
  }

  /**
   Negating the parent's quaternion leaves the relative position always, and the relative orientation
   exactly if the real part of the product is not zero; otherwise it negates the orientation.
   */
  lemma ParentSign(parent: Pose, child: Pose)
    ensures var r, s, o := RelativePose(parent, child), RelativePose(Flipped(parent), child),
                           Multiply(Conjugate(parent.orientation), child.orientation);
      s.position == r.position && (o.w != 0.0 ==> s.orientation == r.orientation) &&
      (o.w == 0.0 ==> s.orientation == Negate(r.orientation)) &&
      (NormSquared(parent.orientation) != 0.0 && NormSquared(child.orientation) != 0.0 ==>
      (s.orientation == r.orientation <==> o.w != 0.0))
  {
    var o := Multiply(Conjugate(parent.orientation), child.orientation);
    NegateIsScale(parent.orientation);
    NegatedRotation(Conjugate(parent.orientation), Minus(child.position, parent.position));
    FlippedProduct(parent, child);
    CanonicalSign(o);
    if NormSquared(parent.orientation) != 0.0 && NormSquared(child.orientation) != 0.0 {
      NonzeroProduct(parent.orientation, child.orientation);
      CanonicalSignExactly(o);
    }
  }

  ghost predicate IsIdentity(i: Quaternion)
  {
    i == Quaternion(0.0, 0.0, 0.0, 1.0)
  }

  lemma IdentityLeft(i: Quaternion, q: Quaternion)
    requires IsIdentity(i)
    ensures Multiply(i, q) == q
  {
    ScalarLeft(i.w, q);
    ScaleOne(q);
  }

  lemma IdentityConjugate(i: Quaternion)
    requires IsIdentity(i)
    ensures Conjugate(i) == i
  {
  }

  lemma IdentityNorm(i: Quaternion)
    requires IsIdentity(i)
    ensures NormSquared(i) == 1.0
  {
  }

  lemma IdentityRight(i: Quaternion, q: Quaternion)
    requires IsIdentity(i)
    ensures Multiply(q, i) == q
  {
    ScalarLeft(i.w, q);
    ScaleOne(q);
  }

  lemma IdentityRotates(i: Quaternion, v: Vector)
    requires IsIdentity(i)
    ensures Rotate(i, v) == v
  {
    IdentityConjugate(i);
    IdentityLeft(i, Pure(v));
    IdentityRight(i, Pure(v));
  }

  lemma MinusOrigin(v: Vector)
    ensures Minus(v, ORIGIN) == v
  {
  }

  lemma CanonicalSame(q: Quaternion)
    requires q.w >= 0.0
    ensures Canonical(q) == q
  {
  }

  /** In the coordinates of an unrotated parent at the origin, a pose is what it is. */
  lemma IdentityRelative(i: Quaternion, v: Vector)
    requires IsIdentity(i)
    ensures RelativePose(Pose(ORIGIN, i), Pose(v, i)) == Pose(v, i)
  {
    IdentityConjugate(i);
    IdentityRotates(i, v);
    MinusOrigin(v);
    IdentityLeft(i, i);
    CanonicalSame(i);
  }

  ghost predicate IsHalfTurn(h: Quaternion)
  {
    h == Quaternion(1.0, 0.0, 0.0, 0.0)
  }

  lemma HalfTurnNorm(h: Quaternion)
    requires IsHalfTurn(h)
    ensures NormSquared(h) == 1.0 && h.w == 0.0
  {
  }

  lemma IdentityProduct(i: Quaternion, h: Quaternion)
    requires IsIdentity(i)
    ensures Multiply(Conjugate(i), h) == h
  {
    IdentityConjugate(i);
    IdentityLeft(i, h);
  }

  lemma RealPartZero(i: Quaternion, h: Quaternion)
    requires Multiply(Conjugate(i), h) == h && h.w == 0.0
    ensures Multiply(Conjugate(i), h).w == 0.0
  {
  }

  lemma HalfTurnFacts(i: Quaternion, h: Quaternion)
    requires IsIdentity(i) && IsHalfTurn(h)
    ensures NormSquared(i) != 0.0 && NormSquared(h) != 0.0 && Multiply(Conjugate(i), h).w == 0.0
  {
    assert NormSquared(i) != 0.0 by {
      IdentityNorm(i);
    }
    assert NormSquared(h) != 0.0 by {
      HalfTurnNorm(h);
    }
    assert Multiply(Conjugate(i), h).w == 0.0 by {
      IdentityProduct(i, h);
      RealPartZero(i, h);
    }
  }

  lemma ParentSignDiffers(parent: Pose, child: Pose)
    requires NormSquared(parent.orientation) != 0.0 && NormSquared(child.orientation) != 0.0
    requires Multiply(Conjugate(parent.orientation), child.orientation).w == 0.0
    ensures RelativePose(Flipped(parent), child).orientation != RelativePose(parent, child).orientation
  {
    ParentSign(parent, child);
  }

  /** At a half turn from the parent, the two signs of the parent's quaternion give different orientations. */
  lemma ParentSignMatters(parent: Pose, child: Pose)
    requires IsIdentity(parent.orientation) && IsHalfTurn(child.orientation)
    ensures RelativePose(Flipped(parent), child).orientation != RelativePose(parent, child).orientation
  {
    HalfTurnFacts(parent.orientation, child.orientation);
    ParentSignDiffers(parent, child);
  }

  lemma NegatedRotation(q: Quaternion, v: Vector)
    ensures Rotate(Scale(-1.0, q), v) == Rotate(q, v)
  {
    var x := Pure(v);
    ScaleProduct(-1.0, q, x);
    assert Conjugate(Scale(-1.0, q)) == Scale(-1.0, Conjugate(q));
    ScaleProduct(-1.0, Multiply(q, x), Scale(-1.0, Conjugate(q)));
    ScaleProduct(-1.0, Multiply(q, x), Conjugate(q));
    ScaleTwice(-1.0, Sandwich(q, x));
    ScaleOne(Sandwich(q, x));
  }

  /* ---------- Lengths ---------- */

  /** d is the distance of a and b. */
  ghost predicate IsDistance(d: real, a: Vector, b: Vector)
  {
    d >= 0.0 && d * d == LengthSquared(Minus(a, b))
  }

  /** Rotating by q scales squared lengths by the fourth power of the norm of q. */
  lemma RotatedLength(q: Quaternion, v: Vector)
    ensures LengthSquared(Rotate(q, v)) == NormSquared(q) * LengthSquared(v) * NormSquared(q)
  {
    var x := Pure(v);
    SandwichPure(q, v);
    PureNorm(v);
    PureNorm(Rotate(q, v));
    NormMultiplicative(Multiply(q, x), Conjugate(q));
    NormMultiplicative(q, x);
    ConjugateSameNorm(q);
  }

  lemma PureNorm(v: Vector)
    ensures NormSquared(Pure(v)) == LengthSquared(v)
  {
  }

  lemma ConjugateSameNorm(q: Quaternion)
    ensures NormSquared(Conjugate(q)) == NormSquared(q)
  {
  }

  lemma SquareReflects(a: real, b: real)
    requires b >= 0.0 && a * a <= b * b
    ensures a <= b
  {
    if a > b {
      var e := a - b;
      ProductPositive(e, e);
      ProductNonnegative(e, b);
      SquareOfSum(e, b);
    }
  }

  lemma SquareRootUnique(a: real, b: real)
    requires a >= 0.0 && b >= 0.0 && a * a == b * b
    ensures a == b
  {
    SquareReflects(a, b);
    SquareReflects(b, a);
  }

  lemma NormNonnegative(q: Quaternion)
    ensures NormSquared(q) >= 0.0
  {
    SquareNonnegative(q.x);
    SquareNonnegative(q.y);
    SquareNonnegative(q.z);
    SquareNonnegative(q.w);
  }

  lemma SquareNonnegative(a: real)
    ensures a * a >= 0.0
  {
    if a < 0.0 {
      assert (-a) * (-a) >= 0.0;
    }
  }

  /** The origin of the parent's coordinates. */
  const ORIGIN := Vector(0.0, 0.0, 0.0)

  /** The length of a relative position is the world distance scaled by the squared norm of the parent. */
  lemma RelativeLength(parent: Pose, child: Pose, near: real, far: real)
    requires IsDistance(far, child.position, parent.position)
    requires IsDistance(near, RelativePose(parent, child).position, ORIGIN)
    ensures near == NormSquared(parent.orientation) * far
  {
    var q := parent.orientation;
    var n := NormSquared(q);
    var d := Minus(child.position, parent.position);
    RotatedLength(Conjugate(q), d);
    ConjugateSameNorm(q);
    NormNonnegative(q);
    assert Minus(RelativePose(parent, child).position, ORIGIN) == RelativePose(parent, child).position;
    assert near * near == n * (far * far) * n;
    SquaredProduct(n, far);
    SquareRootUnique(near, n * far);
  }

  lemma SquaredProduct(n: real, far: real)
    requires n >= 0.0 && far >= 0.0
    ensures n * far >= 0.0 && (n * far) * (n * far) == n * (far * far) * n
  {
  }

  const NORM_TOLERANCE: real := 0.000001

  /** (1 - 1e-6)^2 and (1 + 1e-6)^2 */
  const LEAST_SCALE: real := 0.999998000001
  const GREATEST_SCALE: real := 1.000002000001

  /** The check of `_quaternion`: the norm differs from one by at most the tolerance. */
  ghost predicate NearUnit(q: Quaternion)
  {
    exists n: real :: NormIs(q, n) && 1.0 - NORM_TOLERANCE <= n <= 1.0 + NORM_TOLERANCE
  }

  ghost predicate NormIs(q: Quaternion, n: real)
  {
    n >= 0.0 && n * n == NormSquared(q)
  }

  lemma SquareMonotone(a: real, b: real)
    requires 0.0 <= a <= b
    ensures a * a <= b * b
  {
    ProductMonotone(a, b, a);
    ProductMonotone(a, b, b);
  }

  lemma NearUnitBounds(q: Quaternion)
    requires NearUnit(q)
    ensures LEAST_SCALE <= NormSquared(q) <= GREATEST_SCALE
  {
    var n: real :| NormIs(q, n) && 1.0 - NORM_TOLERANCE <= n <= 1.0 + NORM_TOLERANCE;
    SquareMonotone(1.0 - NORM_TOLERANCE, n);
    SquareMonotone(n, 1.0 + NORM_TOLERANCE);
  }

  /** With an accepted parent quaternion, lengths change by factors within (1 - 1e-6)^2 and (1 + 1e-6)^2. */
  lemma RelativeLengthBounds(parent: Pose, child: Pose, near: real, far: real)
    requires NearUnit(parent.orientation)
    requires IsDistance(far, child.position, parent.position)
    requires IsDistance(near, RelativePose(parent, child).position, ORIGIN)
    ensures LEAST_SCALE * far <= near <= GREATEST_SCALE * far
  {
    RelativeLength(parent, child, near, far);
    NearUnitBounds(parent.orientation);
    Between(LEAST_SCALE, NormSquared(parent.orientation), GREATEST_SCALE, far, near);
  }

  lemma Between(low: real, n: real, high: real, far: real, near: real)
    requires low <= n <= high && far >= 0.0 && near == n * far
    ensures low * far <= near <= high * far
  {
    ProductMonotone(low, n, far);
    ProductMonotone(n, high, far);
  }

  lemma ProductMonotone(a: real, b: real, c: real)
    requires a <= b && c >= 0.0
    ensures a * c <= b * c
  {
    ProductNonnegative(b - a, c);
    assert (b - a) * c == b * c - a * c;
  }

  /* ---------- The triangle inequality ---------- */

  function Dot(a: Vector, b: Vector): real
  {
    a.x * b.x + a.y * b.y + a.z * b.z
  }

  /** Cauchy's inequality, from the norm of the product of two pure quaternions. */
  lemma Cauchy(a: Vector, b: Vector)
    ensures Dot(a, b) * Dot(a, b) <= LengthSquared(a) * LengthSquared(b)
  {
    var p := Multiply(Pure(a), Pure(b));
    NormMultiplicative(Pure(a), Pure(b));
    PureNorm(a);
    PureNorm(b);
    PureProduct(a, b);
    RealPart(p, Dot(a, b));
  }

  lemma PureProduct(a: Vector, b: Vector)
    ensures Multiply(Pure(a), Pure(b)).w == -Dot(a, b)
  {
  }

  lemma RealPart(p: Quaternion, d: real)
    requires p.w == -d
    ensures d * d <= NormSquared(p)
  {
    SquareNonnegative(p.x);
    SquareNonnegative(p.y);
    SquareNonnegative(p.z);
    assert p.w * p.w == d * d;
  }

  lemma SumLength(a: Vector, b: Vector)
    ensures LengthSquared(Plus(a, b)) == LengthSquared(a) + 2.0 * Dot(a, b) + LengthSquared(b)
  {
    SquareOfSum(a.x, b.x);
    SquareOfSum(a.y, b.y);
    SquareOfSum(a.z, b.z);
  }

  lemma SquareOfSum(a: real, b: real)
    ensures (a + b) * (a + b) == a * a + 2.0 * (a * b) + b * b
  {
  }

  lemma DotBound(a: Vector, b: Vector, m: real, n: real)
    requires m >= 0.0 && n >= 0.0 && m * m == LengthSquared(a) && n * n == LengthSquared(b)
    ensures Dot(a, b) <= m * n
  {
    Cauchy(a, b);
    assert m * n >= 0.0;
    assert (m * n) * (m * n) == (m * m) * (n * n);
    SquareReflects(Dot(a, b), m * n);
  }

  /** The triangle inequality, without the third distance. */
  lemma TriangleSquared(a: Vector, b: Vector, c: Vector, ab: real, bc: real)
    requires IsDistance(ab, a, b) && IsDistance(bc, b, c)
    ensures LengthSquared(Minus(a, c)) <= (ab + bc) * (ab + bc)
  {
    var u, v := Minus(a, b), Minus(b, c);
    assert Plus(u, v) == Minus(a, c);
    SumLength(u, v);
    DotBound(u, v, ab, bc);
    SquareOfSum(ab, bc);
  }

  /** The triangle inequality. */
  lemma Triangle(a: Vector, b: Vector, c: Vector, ab: real, bc: real, ac: real)
    requires IsDistance(ab, a, b) && IsDistance(bc, b, c) && IsDistance(ac, a, c)
    ensures ac <= ab + bc
  {
    TriangleSquared(a, b, c, ab, bc);
    SquareReflects(ac, ab + bc);
  }

  lemma DistanceSymmetric(a: Vector, b: Vector, d: real)
    requires IsDistance(d, a, b)
    ensures IsDistance(d, b, a)
  {
    OppositeSquare(a.x, b.x);
    OppositeSquare(a.y, b.y);
    OppositeSquare(a.z, b.z);
  }

  lemma OppositeSquare(a: real, b: real)
    ensures (a - b) * (a - b) == (b - a) * (b - a)
  {
  }
}
