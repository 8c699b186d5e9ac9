/**
 Quaternion poses over the reals.  A distance is given by the number whose square is the squared
 distance, so square roots do not appear.
 */
module Quaternions {

  datatype Quaternion = Quaternion(x: real, y: real, z: real, w: real)

  datatype Vector = Vector(x: real, y: real, z: real)

  datatype Pose = Pose(position: Vector, orientation: Quaternion)

  /** `_quaternion_conjugate` */
  function Conjugate(q: Quaternion): Quaternion
  {
    Quaternion(-q.x, -q.y, -q.z, q.w)
  }

  /** `_quaternion_multiply` */
  function Multiply(l: Quaternion, r: Quaternion): Quaternion
  {
    Quaternion(
      l.w * r.x + l.x * r.w + l.y * r.z - l.z * r.y,
      l.w * r.y - l.x * r.z + l.y * r.w + l.z * r.x,
      l.w * r.z + l.x * r.y - l.y * r.x + l.z * r.w,
      l.w * r.w - l.x * r.x - l.y * r.y - l.z * r.z)
  }

  function Pure(v: Vector): Quaternion
  {
    Quaternion(v.x, v.y, v.z, 0.0)
  }

  function Imaginary(q: Quaternion): Vector
  {
    Vector(q.x, q.y, q.z)
  }

  /** `_rotate_vector` */
  function Rotate(q: Quaternion, v: Vector): Vector
  {
    Imaginary(Multiply(Multiply(q, Pure(v)), Conjugate(q)))
  }

  function Minus(a: Vector, b: Vector): Vector
  {
    Vector(a.x - b.x, a.y - b.y, a.z - b.z)
  }

  function Plus(a: Vector, b: Vector): Vector
  {
    Vector(a.x + b.x, a.y + b.y, a.z + b.z)
  }

  function Negate(q: Quaternion): Quaternion
  {
    Quaternion(-q.x, -q.y, -q.z, -q.w)
  }

  function Canonical(q: Quaternion): Quaternion
  {
    if q.w < 0.0 then Negate(q) else q
  }

  /** `relative_pose`: the child in the coordinates of the parent. */
  function RelativePose(parent: Pose, child: Pose): Pose
  {
    var inverse := Conjugate(parent.orientation);
    Pose(
      Rotate(inverse, Minus(child.position, parent.position)), Canonical(Multiply(inverse, child.orientation)))
  }

  function NormSquared(q: Quaternion): real
  {
    q.x * q.x + q.y * q.y + q.z * q.z + q.w * q.w
  }

  function LengthSquared(v: Vector): real
  {
    v.x * v.x + v.y * v.y + v.z * v.z
  }

  function Scale(s: real, q: Quaternion): Quaternion
  {
    Quaternion(s * q.x, s * q.y, s * q.z, s * q.w)
  }

  /* ---------- Algebra ---------- */

  /* Products are given by functions here, so that the proof of associativity is linear. */

  function Product(a: real, b: real): real
  {
    a * b
  }

  function Triple(a: real, b: real, c: real): real
  {
    a * b * c
  }

  type Times = (real, real) -> real

  type Times3 = (real, real, real) -> real

  ghost predicate IsProduct(u: Times)
  {
    forall a, b {:trigger Product(a, b)} :: u(a, b) == Product(a, b)
  }

  ghost predicate IsTriple(t: Times3)
  {
    forall a, b, c {:trigger Triple(a, b, c)} :: t(a, b, c) == Triple(a, b, c)
  }

  lemma Monomial(u: Times, t: Times3, a: real, b: real, c: real)
    requires IsProduct(u) && IsTriple(t)
    ensures u(u(a, b), c) == t(a, b, c) && u(a, u(b, c)) == t(a, b, c)
  {
    assert u(a, b) == Product(a, b) && u(b, c) == Product(b, c) && t(a, b, c) == Triple(a, b, c);
    assert u(u(a, b), c) == Product(u(a, b), c) && u(a, u(b, c)) == Product(a, u(b, c));
  }

  /** A product distributes over a sum of four, in either order. */
  lemma Distribute(u: Times, s: real, a: real, b: real, c: real, d: real, m: real)
    requires IsProduct(u) && s == a + b + c + d
    ensures u(s, m) == u(a, m) + u(b, m) + u(c, m) + u(d, m)
    ensures u(m, s) == u(m, a) + u(m, b) + u(m, c) + u(m, d)
  {
    assert u(s, m) == Product(s, m) && u(m, s) == Product(m, s);
    assert u(a, m) == Product(a, m) && u(m, a) == Product(m, a);
    assert u(b, m) == Product(b, m) && u(m, b) == Product(m, b);
    assert u(c, m) == Product(c, m) && u(m, c) == Product(m, c);
    assert u(d, m) == Product(d, m) && u(m, d) == Product(m, d);
  }

  lemma Opposite(u: Times, a: real, m: real)
    requires IsProduct(u)
    ensures u(-a, m) == -u(a, m) && u(m, -a) == -u(m, a)
  {
    assert u(-a, m) == Product(-a, m) && u(m, -a) == Product(m, -a);
    assert u(a, m) == Product(a, m) && u(m, a) == Product(m, a);
  }

  /** The product of two quaternions, with the given product of reals. */
  function MultiplyBy(u: Times, l: Quaternion, r: Quaternion): Quaternion
  {
    Quaternion(
      u(l.w, r.x) + u(l.x, r.w) + u(l.y, r.z) - u(l.z, r.y),
      u(l.w, r.y) - u(l.x, r.z) + u(l.y, r.w) + u(l.z, r.x),
      u(l.w, r.z) + u(l.x, r.y) - u(l.y, r.x) + u(l.z, r.w),
      u(l.w, r.w) - u(l.x, r.x) - u(l.y, r.y) - u(l.z, r.z))
  }

  lemma ExpandX(u: Times, t: Times3, a: Quaternion, b: Quaternion, m: real)
    requires IsProduct(u) && IsTriple(t)
    ensures u(MultiplyBy(u, a, b).x, m) ==
      t(a.w, b.x, m) + t(a.x, b.w, m) + t(a.y, b.z, m) - t(a.z, b.y, m)
    ensures u(m, MultiplyBy(u, a, b).x) ==
      t(m, a.w, b.x) + t(m, a.x, b.w) + t(m, a.y, b.z) - t(m, a.z, b.y)
  {
    Distribute(u, MultiplyBy(u, a, b).x, u(a.w, b.x), u(a.x, b.w), u(a.y, b.z), -u(a.z, b.y), m);
    Monomial(u, t, a.w, b.x, m);
    Monomial(u, t, m, a.w, b.x);
    Monomial(u, t, a.x, b.w, m);
    Monomial(u, t, m, a.x, b.w);
    Monomial(u, t, a.y, b.z, m);
    Monomial(u, t, m, a.y, b.z);
    Opposite(u, u(a.z, b.y), m);
    Monomial(u, t, a.z, b.y, m);
    Monomial(u, t, m, a.z, b.y);
  }

  lemma ExpandY(u: Times, t: Times3, a: Quaternion, b: Quaternion, m: real)
    requires IsProduct(u) && IsTriple(t)
    ensures u(MultiplyBy(u, a, b).y, m) ==
      t(a.w, b.y, m) - t(a.x, b.z, m) + t(a.y, b.w, m) + t(a.z, b.x, m)
    ensures u(m, MultiplyBy(u, a, b).y) ==
      t(m, a.w, b.y) - t(m, a.x, b.z) + t(m, a.y, b.w) + t(m, a.z, b.x)
  {
    Distribute(u, MultiplyBy(u, a, b).y, u(a.w, b.y), -u(a.x, b.z), u(a.y, b.w), u(a.z, b.x), m);
    Monomial(u, t, a.w, b.y, m);
    Monomial(u, t, m, a.w, b.y);
    Opposite(u, u(a.x, b.z), m);
    Monomial(u, t, a.x, b.z, m);
    Monomial(u, t, m, a.x, b.z);
    Monomial(u, t, a.y, b.w, m);
    Monomial(u, t, m, a.y, b.w);
    Monomial(u, t, a.z, b.x, m);
    Monomial(u, t, m, a.z, b.x);
  }

  lemma ExpandZ(u: Times, t: Times3, a: Quaternion, b: Quaternion, m: real)
    requires IsProduct(u) && IsTriple(t)
    ensures u(MultiplyBy(u, a, b).z, m) ==
      t(a.w, b.z, m) + t(a.x, b.y, m) - t(a.y, b.x, m) + t(a.z, b.w, m)
    ensures u(m, MultiplyBy(u, a, b).z) ==
      t(m, a.w, b.z) + t(m, a.x, b.y) - t(m, a.y, b.x) + t(m, a.z, b.w)
  {
    Distribute(u, MultiplyBy(u, a, b).z, u(a.w, b.z), u(a.x, b.y), -u(a.y, b.x), u(a.z, b.w), m);
    Monomial(u, t, a.w, b.z, m);
    Monomial(u, t, m, a.w, b.z);
    Monomial(u, t, a.x, b.y, m);
    Monomial(u, t, m, a.x, b.y);
    Opposite(u, u(a.y, b.x), m);
    Monomial(u, t, a.y, b.x, m);
    Monomial(u, t, m, a.y, b.x);
    Monomial(u, t, a.z, b.w, m);
    Monomial(u, t, m, a.z, b.w);
  }

  lemma ExpandW(u: Times, t: Times3, a: Quaternion, b: Quaternion, m: real)
    requires IsProduct(u) && IsTriple(t)
    ensures u(MultiplyBy(u, a, b).w, m) ==
      t(a.w, b.w, m) - t(a.x, b.x, m) - t(a.y, b.y, m) - t(a.z, b.z, m)
    ensures u(m, MultiplyBy(u, a, b).w) ==
      t(m, a.w, b.w) - t(m, a.x, b.x) - t(m, a.y, b.y) - t(m, a.z, b.z)
  {
    Distribute(u, MultiplyBy(u, a, b).w, u(a.w, b.w), -u(a.x, b.x), -u(a.y, b.y), -u(a.z, b.z), m);
    Monomial(u, t, a.w, b.w, m);
    Monomial(u, t, m, a.w, b.w);
    Opposite(u, u(a.x, b.x), m);
    Monomial(u, t, a.x, b.x, m);
    Monomial(u, t, m, a.x, b.x);
    Opposite(u, u(a.y, b.y), m);
    Monomial(u, t, a.y, b.y, m);
    Monomial(u, t, m, a.y, b.y);
    Opposite(u, u(a.z, b.z), m);
    Monomial(u, t, a.z, b.z, m);
    Monomial(u, t, m, a.z, b.z);
  }

  lemma AssociativeX(u: Times, t: Times3, a: Quaternion, b: Quaternion, c: Quaternion)
    requires IsProduct(u) && IsTriple(t)
    ensures MultiplyBy(u, MultiplyBy(u, a, b), c).x == MultiplyBy(u, a, MultiplyBy(u, b, c)).x
  {
    ExpandW(u, t, a, b, c.x);
    ExpandX(u, t, a, b, c.w);
    ExpandY(u, t, a, b, c.z);
    ExpandZ(u, t, a, b, c.y);
    ExpandX(u, t, b, c, a.w);
    ExpandW(u, t, b, c, a.x);
    ExpandZ(u, t, b, c, a.y);
    ExpandY(u, t, b, c, a.z);
  }

  lemma AssociativeY(u: Times, t: Times3, a: Quaternion, b: Quaternion, c: Quaternion)
    requires IsProduct(u) && IsTriple(t)
    ensures MultiplyBy(u, MultiplyBy(u, a, b), c).y == MultiplyBy(u, a, MultiplyBy(u, b, c)).y
  {
    ExpandW(u, t, a, b, c.y);
    ExpandX(u, t, a, b, c.z);
    ExpandY(u, t, a, b, c.w);
    ExpandZ(u, t, a, b, c.x);
    ExpandY(u, t, b, c, a.w);
    ExpandZ(u, t, b, c, a.x);
    ExpandW(u, t, b, c, a.y);
    ExpandX(u, t, b, c, a.z);
  }

  lemma AssociativeZ(u: Times, t: Times3, a: Quaternion, b: Quaternion, c: Quaternion)
    requires IsProduct(u) && IsTriple(t)
    ensures MultiplyBy(u, MultiplyBy(u, a, b), c).z == MultiplyBy(u, a, MultiplyBy(u, b, c)).z
  {
    ExpandW(u, t, a, b, c.z);
    ExpandX(u, t, a, b, c.y);
    ExpandY(u, t, a, b, c.x);
    ExpandZ(u, t, a, b, c.w);
    ExpandZ(u, t, b, c, a.w);
    ExpandY(u, t, b, c, a.x);
    ExpandX(u, t, b, c, a.y);
    ExpandW(u, t, b, c, a.z);
  }

  lemma AssociativeW(u: Times, t: Times3, a: Quaternion, b: Quaternion, c: Quaternion)
    requires IsProduct(u) && IsTriple(t)
    ensures MultiplyBy(u, MultiplyBy(u, a, b), c).w == MultiplyBy(u, a, MultiplyBy(u, b, c)).w
  {
    ExpandW(u, t, a, b, c.w);
    ExpandX(u, t, a, b, c.x);
    ExpandY(u, t, a, b, c.y);
    ExpandZ(u, t, a, b, c.z);
    ExpandW(u, t, b, c, a.w);
    ExpandX(u, t, b, c, a.x);
    ExpandY(u, t, b, c, a.y);
    ExpandZ(u, t, b, c, a.z);
  }

  lemma MultiplyIsX(l: Quaternion, r: Quaternion)
    ensures MultiplyBy(Product, l, r).x == Multiply(l, r).x
  {
  }

  lemma MultiplyIsY(l: Quaternion, r: Quaternion)
    ensures MultiplyBy(Product, l, r).y == Multiply(l, r).y
  {
  }

  lemma MultiplyIsZ(l: Quaternion, r: Quaternion)
    ensures MultiplyBy(Product, l, r).z == Multiply(l, r).z
  {
  }

  lemma MultiplyIsW(l: Quaternion, r: Quaternion)
    ensures MultiplyBy(Product, l, r).w == Multiply(l, r).w
  {
  }

  lemma MultiplyIs(l: Quaternion, r: Quaternion)
    ensures MultiplyBy(Product, l, r) == Multiply(l, r)
  {
    MultiplyIsX(l, r);
    MultiplyIsY(l, r);
    MultiplyIsZ(l, r);
    MultiplyIsW(l, r);
  }

  lemma Associative(a: Quaternion, b: Quaternion, c: Quaternion)
    ensures Multiply(Multiply(a, b), c) == Multiply(a, Multiply(b, c))
  {
    AssociativeX(Product, Triple, a, b, c);
    AssociativeY(Product, Triple, a, b, c);
    AssociativeZ(Product, Triple, a, b, c);
    AssociativeW(Product, Triple, a, b, c);
    MultiplyIs(a, b);
    MultiplyIs(b, c);
    MultiplyIs(Multiply(a, b), c);
    MultiplyIs(a, Multiply(b, c));
  }

  lemma Commute(u: Times, a: real, b: real)
    requires IsProduct(u)
    ensures u(a, b) == u(b, a)
  {
    assert u(a, b) == Product(a, b) && u(b, a) == Product(b, a);
  }

  /** The signs of a product of conjugated parts. */
  lemma SignedProduct(u: Times, a: real, b: real)
    requires IsProduct(u)
    ensures u(-b, -a) == u(a, b) && u(b, -a) == -u(a, b) && u(-b, a) == -u(a, b) && u(b, a) == u(a, b)
  {
    Commute(u, a, b);
    Opposite(u, b, -a);
    Opposite(u, a, b);
    Opposite(u, b, a);
  }

  lemma ConjugateProductBy(u: Times, a: Quaternion, b: Quaternion)
    requires IsProduct(u)
    ensures Conjugate(MultiplyBy(u, a, b)) == MultiplyBy(u, Conjugate(b), Conjugate(a))
  {
    SignedProduct(u, a.x, b.x);
    SignedProduct(u, a.x, b.y);
    SignedProduct(u, a.x, b.z);
    SignedProduct(u, a.x, b.w);
    SignedProduct(u, a.y, b.x);
    SignedProduct(u, a.y, b.y);
    SignedProduct(u, a.y, b.z);
    SignedProduct(u, a.y, b.w);
    SignedProduct(u, a.z, b.x);
    SignedProduct(u, a.z, b.y);
    SignedProduct(u, a.z, b.z);
    SignedProduct(u, a.z, b.w);
    SignedProduct(u, a.w, b.x);
    SignedProduct(u, a.w, b.y);
    SignedProduct(u, a.w, b.z);
    SignedProduct(u, a.w, b.w);
  }

  lemma ConjugateProduct(a: Quaternion, b: Quaternion)
    ensures Conjugate(Multiply(a, b)) == Multiply(Conjugate(b), Conjugate(a))
  {
    ConjugateProductBy(Product, a, b);
    MultiplyIs(a, b);
    MultiplyIs(Conjugate(b), Conjugate(a));
  }

  /** A quaternion times its conjugate is its squared norm. */
  lemma ConjugateNorm(q: Quaternion)
    ensures Multiply(q, Conjugate(q)) == Quaternion(0.0, 0.0, 0.0, NormSquared(q))
    ensures Multiply(Conjugate(q), q) == Quaternion(0.0, 0.0, 0.0, NormSquared(q))
  {
  }

  lemma ScalarLeft(s: real, q: Quaternion)
    ensures Multiply(Quaternion(0.0, 0.0, 0.0, s), q) == Scale(s, q)
    ensures Multiply(q, Quaternion(0.0, 0.0, 0.0, s)) == Scale(s, q)
  {
  }

  /** The norm is multiplicative: Euler's four-square identity. */
  lemma NormMultiplicative(a: Quaternion, b: Quaternion)
    ensures NormSquared(Multiply(a, b)) == NormSquared(a) * NormSquared(b)
  {
    var p := Multiply(a, b);
    var a', b' := Conjugate(a), Conjugate(b);
    ConjugateNorm(p);
    ConjugateProduct(a, b);
    Associative(p, b', a');
    Associative(a, b, b');
    ConjugateNorm(b);
    ScalarLeft(NormSquared(b), a);
    ScaleProduct(NormSquared(b), a, a');
    ConjugateNorm(a);
    assert Multiply(p, Conjugate(p)) == Scale(NormSquared(b), Multiply(a, a'));
  }

  lemma ScaleProduct(s: real, a: Quaternion, b: Quaternion)
    ensures Multiply(Scale(s, a), b) == Scale(s, Multiply(a, b))
    ensures Multiply(a, Scale(s, b)) == Scale(s, Multiply(a, b))
  {
    var k := Quaternion(0.0, 0.0, 0.0, s);
    ScalarLeft(s, a);
    ScalarLeft(s, b);
    ScalarLeft(s, Multiply(a, b));
    Associative(k, a, b);
    Associative(a, b, k);
  }
}
