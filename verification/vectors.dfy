/** Three-dimensional vectors over the reals, following the `Vec3` type of the
    glam linear-algebra library that the simulator uses. Every `f32` component
    becomes an exact `real`. */
module Vectors {

  datatype Vec3 = V(x: real, y: real, z: real)

  const Zero: Vec3 := V(0.0, 0.0, 0.0)
  const One: Vec3 := V(1.0, 1.0, 1.0)
  const X: Vec3 := V(1.0, 0.0, 0.0)
  const Y: Vec3 := V(0.0, 1.0, 0.0)
  const Z: Vec3 := V(0.0, 0.0, 1.0)
  const NegY: Vec3 := V(0.0, -1.0, 0.0)

  function Add(a: Vec3, b: Vec3): Vec3 {
    V(a.x + b.x, a.y + b.y, a.z + b.z)
  }

  function Sub(a: Vec3, b: Vec3): Vec3 {
    V(a.x - b.x, a.y - b.y, a.z - b.z)
  }

  /** `v * k` */
  function Scale(v: Vec3, k: real): Vec3 {
    V(v.x * k, v.y * k, v.z * k)
  }

  function Dot(a: Vec3, b: Vec3): real {
    a.x * b.x + a.y * b.y + a.z * b.z
  }

  function Cross(a: Vec3, b: Vec3): Vec3 {
    V(a.y * b.z - a.z * b.y, a.z * b.x - a.x * b.z, a.x * b.y - a.y * b.x)
  }

  /** glam's `project_onto`: `rhs * (self . rhs) * (1 / (rhs . rhs))`. Over the
      reals it is defined exactly when `rhs` is not the zero vector. */
  function ProjectOnto(v: Vec3, onto: Vec3): (p: Vec3)
    requires onto != Zero
    ensures Cross(onto, p) == Zero
    ensures Dot(Sub(v, p), onto) == 0.0
  {
    DotSelfPositive(onto);
    var k := Dot(v, onto) * (1.0 / Dot(onto, onto));
    CrossScaledSelf(onto, k);
    var p := Scale(onto, k);
    assert Dot(Sub(v, p), onto) == Dot(v, onto) - k * Dot(onto, onto);
    p
  }

  /** glam's `project_onto_normalized`: `rhs * (self . rhs)`, meaningful when
      `rhs` has unit length. */
  function ProjectOntoNormalized(v: Vec3, onto: Vec3): Vec3 {
    Scale(onto, Dot(v, onto))
  }

  /** The squared length is never negative and vanishes only at the origin. */
  lemma DotSelfPositive(v: Vec3)
    ensures v == Zero <==> Dot(v, v) == 0.0
    ensures Dot(v, v) >= 0.0
  {
    assert Dot(v, v) == Square(v.x) + Square(v.y) + Square(v.z);
    SquareNonNegative(v.x);
    SquareNonNegative(v.y);
    SquareNonNegative(v.z);
    if Dot(v, v) == 0.0 {
      SquaresVanish(v.x, v.y, v.z);
    }
  }

  function Square(a: real): real {
    a * a
  }

  function Product(a: real, b: real): real {
    a * b
  }

  lemma ProductPositive(a: real, b: real)
    requires a > 0.0 && b > 0.0
    ensures Product(a, b) > 0.0
  {
  }

  lemma SquareNonNegative(a: real)
    ensures Square(a) >= 0.0
  {
  }

  lemma SquarePositive(a: real)
    requires a != 0.0
    ensures Square(a) > 0.0
  {
    if a > 0.0 {
      ProductPositive(a, a);
    } else {
      ProductPositive(-a, -a);
      assert Product(-a, -a) == Square(a);
    }
  }

  lemma SquaresVanish(a: real, b: real, c: real)
    requires Square(a) + Square(b) + Square(c) == 0.0
    ensures a == 0.0 && b == 0.0 && c == 0.0
  {
    SquareNonNegative(a);
    SquareNonNegative(b);
    SquareNonNegative(c);
    if a != 0.0 {
      SquarePositive(a);
    }
    if b != 0.0 {
      SquarePositive(b);
    }
    if c != 0.0 {
      SquarePositive(c);
    }
  }

  /** A vector crossed with any multiple of itself vanishes. */
  lemma CrossScaledSelf(v: Vec3, k: real)
    ensures Cross(v, Scale(v, k)) == Zero
  {
    assert v.y * (v.z * k) == v.z * (v.y * k);
    assert v.z * (v.x * k) == v.x * (v.z * k);
    assert v.x * (v.y * k) == v.y * (v.x * k);
  }

  lemma CrossSubRight(a: Vec3, b: Vec3, c: Vec3)
    ensures Cross(a, Sub(b, c)) == Sub(Cross(a, b), Cross(a, c))
  {
    assert a.y * (b.z - c.z) - a.z * (b.y - c.y) == (a.y * b.z - a.z * b.y) - (a.y * c.z - a.z * c.y);
    assert a.z * (b.x - c.x) - a.x * (b.z - c.z) == (a.z * b.x - a.x * b.z) - (a.z * c.x - a.x * c.z);
    assert a.x * (b.y - c.y) - a.y * (b.x - c.x) == (a.x * b.y - a.y * b.x) - (a.x * c.y - a.y * c.x);
  }

  lemma CrossAddRight(a: Vec3, b: Vec3, c: Vec3)
    ensures Cross(a, Add(b, c)) == Add(Cross(a, b), Cross(a, c))
  {
    assert a.y * (b.z + c.z) - a.z * (b.y + c.y) == (a.y * b.z - a.z * b.y) + (a.y * c.z - a.z * c.y);
    assert a.z * (b.x + c.x) - a.x * (b.z + c.z) == (a.z * b.x - a.x * b.z) + (a.z * c.x - a.x * c.z);
    assert a.x * (b.y + c.y) - a.y * (b.x + c.x) == (a.x * b.y - a.y * b.x) + (a.x * c.y - a.y * c.x);
  }

  lemma CrossScaleLeft(a: Vec3, b: Vec3, k: real)
    ensures Cross(Scale(a, k), b) == Scale(Cross(a, b), k)
  {
    CrossScaledLeftEntries(a, b, k);
    ScaledCrossEntries(a, b, k);
    ScaledDifferenceLeft(a.y, b.z, a.z, b.y, k);
    ScaledDifferenceLeft(a.z, b.x, a.x, b.z, k);
    ScaledDifferenceLeft(a.x, b.y, a.y, b.x, k);
    SameEntries((a.y * k) * b.z - (a.z * k) * b.y, (a.z * k) * b.x - (a.x * k) * b.z, (a.x * k) * b.y - (a.y * k) * b.x,
                (a.y * b.z - a.z * b.y) * k, (a.z * b.x - a.x * b.z) * k, (a.x * b.y - a.y * b.x) * k);
    Link(Cross(Scale(a, k), b),
         V((a.y * k) * b.z - (a.z * k) * b.y, (a.z * k) * b.x - (a.x * k) * b.z, (a.x * k) * b.y - (a.y * k) * b.x),
         V((a.y * b.z - a.z * b.y) * k, (a.z * b.x - a.x * b.z) * k, (a.x * b.y - a.y * b.x) * k),
         Scale(Cross(a, b), k));
  }

  lemma CrossScaleRight(a: Vec3, b: Vec3, k: real)
    ensures Cross(a, Scale(b, k)) == Scale(Cross(a, b), k)
  {
    CrossScaledRightEntries(a, b, k);
    ScaledCrossEntries(a, b, k);
    ScaledDifference(a.y, b.z, a.z, b.y, k);
    ScaledDifference(a.z, b.x, a.x, b.z, k);
    ScaledDifference(a.x, b.y, a.y, b.x, k);
    SameEntries(a.y * (b.z * k) - a.z * (b.y * k), a.z * (b.x * k) - a.x * (b.z * k), a.x * (b.y * k) - a.y * (b.x * k),
                (a.y * b.z - a.z * b.y) * k, (a.z * b.x - a.x * b.z) * k, (a.x * b.y - a.y * b.x) * k);
    Link(Cross(a, Scale(b, k)),
         V(a.y * (b.z * k) - a.z * (b.y * k), a.z * (b.x * k) - a.x * (b.z * k), a.x * (b.y * k) - a.y * (b.x * k)),
         V((a.y * b.z - a.z * b.y) * k, (a.z * b.x - a.x * b.z) * k, (a.x * b.y - a.y * b.x) * k),
         Scale(Cross(a, b), k));
  }

  /** `Cross` written out entry by entry. */
  lemma CrossComponents(a: Vec3, b: Vec3)
    ensures Cross(a, b) == V(a.y * b.z - a.z * b.y, a.z * b.x - a.x * b.z, a.x * b.y - a.y * b.x)
  {
  }

  /** `Cross` with a left operand given by its entries. */
  lemma CrossOf(p: real, q: real, r: real, b: Vec3)
    ensures Cross(V(p, q, r), b) == V(q * b.z - r * b.y, r * b.x - p * b.z, p * b.y - q * b.x)
  {
  }

  /** `Cross` with a right operand given by its entries. */
  lemma CrossOfRight(a: Vec3, p: real, q: real, r: real)
    ensures Cross(a, V(p, q, r)) == V(a.y * r - a.z * q, a.z * p - a.x * r, a.x * q - a.y * p)
  {
  }

  /** `Cross(Scale(a, k), b)` entry by entry. */
  lemma CrossScaledLeftEntries(a: Vec3, b: Vec3, k: real)
    ensures Cross(Scale(a, k), b)
         == V((a.y * k) * b.z - (a.z * k) * b.y, (a.z * k) * b.x - (a.x * k) * b.z, (a.x * k) * b.y - (a.y * k) * b.x)
  {
    ScaleComponents(a, k);
    CrossOf(a.x * k, a.y * k, a.z * k, b);
  }

  /** `Cross(a, Scale(b, k))` entry by entry. */
  lemma CrossScaledRightEntries(a: Vec3, b: Vec3, k: real)
    ensures Cross(a, Scale(b, k))
         == V(a.y * (b.z * k) - a.z * (b.y * k), a.z * (b.x * k) - a.x * (b.z * k), a.x * (b.y * k) - a.y * (b.x * k))
  {
    ScaleComponents(b, k);
    CrossOfRight(a, b.x * k, b.y * k, b.z * k);
  }

  /** `Scale(Cross(a, b), k)` entry by entry. */
  lemma ScaledCrossEntries(a: Vec3, b: Vec3, k: real)
    ensures Scale(Cross(a, b), k)
         == V((a.y * b.z - a.z * b.y) * k, (a.z * b.x - a.x * b.z) * k, (a.x * b.y - a.y * b.x) * k)
  {
    CrossComponents(a, b);
    ScaleOf(a.y * b.z - a.z * b.y, a.z * b.x - a.x * b.z, a.x * b.y - a.y * b.x, k);
  }

  /** One component of a cross product whose right operand is scaled. */
  lemma ScaledDifference(p: real, u: real, q: real, v: real, k: real)
    ensures p * (u * k) - q * (v * k) == (p * u - q * v) * k
  {
  }

  /** One component of a cross product whose left operand is scaled. */
  lemma ScaledDifferenceLeft(p: real, u: real, q: real, v: real, k: real)
    ensures (p * k) * u - (q * k) * v == (p * u - q * v) * k
  {
  }


  /** The vector triple product: `(o x f) x o == (o . o) f - (f . o) o`. */
  lemma TripleProduct(o: Vec3, f: Vec3)
    ensures Cross(Cross(o, f), o) == Sub(Scale(f, Dot(o, o)), Scale(o, Dot(f, o)))
  {
    var oo := Dot(o, o);
    var fo := Dot(f, o);
    TripleProductComponent(o.x, o.y, o.z, f.x, f.y, f.z, oo, fo);
    TripleProductComponent(o.y, o.z, o.x, f.y, f.z, f.x, oo, fo);
    TripleProductComponent(o.z, o.x, o.y, f.z, f.x, f.y, oo, fo);
  }

  /** One component of the triple product, with `(p, q, r)` the offset's and
      `(u, v, w)` the force's components in cyclic order. */
  lemma TripleProductComponent(p: real, q: real, r: real, u: real, v: real, w: real, oo: real, fo: real)
    requires oo == p * p + q * q + r * r
    requires fo == u * p + v * q + w * r
    ensures (r * u - p * w) * r - (p * v - q * u) * q == u * oo - p * fo
  {
  }

  /** Normalising first and projecting onto the unit vector (what the source
      does with `try_normalize` and `project_onto_normalized`) gives the same
      vector as the rational projection, for any positive length `len` with
      `len * len == o . o`. This is why no square root is needed. */
  lemma NormalizedProjectionIsProjection(f: Vec3, o: Vec3, len: real)
    requires len > 0.0 && len * len == Dot(o, o)
    ensures o != Zero
    ensures ProjectOntoNormalized(f, Scale(o, 1.0 / len)) == ProjectOnto(f, o)
  {
    NormalizedIsScaled(f, o, len);
    DotSelfPositive(o);
    ProjectOntoIs(f, o);
  }

  /** Projecting onto `o / len` scales `o` by `(f . o) / (o . o)`. */
  lemma NormalizedIsScaled(f: Vec3, o: Vec3, len: real)
    requires len > 0.0 && len * len == Dot(o, o)
    ensures Dot(o, o) > 0.0
    ensures ProjectOntoNormalized(f, Scale(o, 1.0 / len)) == Scale(o, Dot(f, o) * (1.0 / Dot(o, o)))
  {
    NormalizedScaled(f, o, 1.0 / len);
    ScaleByFactor(o, len, Dot(f, o));
  }

  /** Projecting onto `o * i` scales `o` by `i ((f . o) i)`. */
  lemma NormalizedScaled(f: Vec3, o: Vec3, i: real)
    ensures ProjectOntoNormalized(f, Scale(o, i)) == Scale(o, i * (Dot(f, o) * i))
  {
    ScaleByDot(f, o, i);
    ScaleTwiceProduct(o, i, Dot(f, o) * i);
    Link(ProjectOntoNormalized(f, Scale(o, i)), Scale(Scale(o, i), Dot(f, o) * i), Scale(Scale(o, i), Dot(f, o) * i),
         Scale(o, i * (Dot(f, o) * i)));
  }

  /** Projecting onto `o * i` multiplies by `(f . o) i`. */
  lemma ScaleByDot(f: Vec3, o: Vec3, i: real)
    ensures Scale(Scale(o, i), Dot(f, Scale(o, i))) == Scale(Scale(o, i), Dot(f, o) * i)
  {
    DotScaleRight(f, o, i);
    ScaleBy(Scale(o, i), Dot(f, Scale(o, i)), Dot(f, o) * i);
  }

  /** Scaling by `fo / len` twice is scaling by `fo / (o . o)`. */
  lemma ScaleByFactor(o: Vec3, len: real, fo: real)
    requires len > 0.0 && len * len == Dot(o, o)
    ensures Dot(o, o) > 0.0
    ensures Scale(o, (1.0 / len) * (fo * (1.0 / len))) == Scale(o, fo * (1.0 / Dot(o, o)))
  {
    NormalizedFactor(len, Dot(o, o), fo);
    ScaleBy(o, (1.0 / len) * (fo * (1.0 / len)), fo * (1.0 / Dot(o, o)));
  }

  /** Dividing by `len` twice divides by `len * len`. */
  lemma NormalizedFactor(len: real, oo: real, fo: real)
    requires len > 0.0 && len * len == oo
    ensures oo > 0.0
    ensures (1.0 / len) * (fo * (1.0 / len)) == fo * (1.0 / oo)
  {
    InverseSquare(len, oo);
    InverseTwice(1.0 / len, fo, 1.0 / oo);
  }

  lemma Reciprocal(x: real)
    requires x != 0.0
    ensures x * (1.0 / x) == 1.0
  {
  }

  /** Scaling by equal factors gives equal vectors. */
  lemma ScaleBy(v: Vec3, k1: real, k2: real)
    requires k1 == k2
    ensures Scale(v, k1) == Scale(v, k2)
  {
  }

  /** The projection's closed form. */
  lemma ProjectOntoIs(v: Vec3, onto: Vec3)
    requires onto != Zero
    ensures Dot(onto, onto) > 0.0
    ensures ProjectOnto(v, onto) == Scale(onto, Dot(v, onto) * (1.0 / Dot(onto, onto)))
  {
    DotSelfPositive(onto);
  }

  /** Scaling by `inv` twice scales by its square `sq`. */
  lemma InverseTwice(inv: real, d: real, sq: real)
    requires inv * inv == sq
    ensures inv * (d * inv) == d * sq
  {
  }

  lemma InverseSquare(len: real, sq: real)
    requires len > 0.0 && len * len == sq
    ensures sq > 0.0
    ensures (1.0 / len) * (1.0 / len) == 1.0 / sq
  {
    ProductPositive(len, len);
  }

  lemma DotScaleRight(a: Vec3, b: Vec3, k: real)
    ensures Dot(a, Scale(b, k)) == Dot(a, b) * k
  {
    assert a.x * (b.x * k) == (a.x * b.x) * k;
    assert a.y * (b.y * k) == (a.y * b.y) * k;
    assert a.z * (b.z * k) == (a.z * b.z) * k;
  }

  lemma ScaleCancel(v: Vec3, d: real, k: real)
    requires d * k == 1.0
    ensures Scale(Scale(v, d), k) == v
  {
    assert (v.x * d) * k == v.x * (d * k);
    assert (v.y * d) * k == v.y * (d * k);
    assert (v.z * d) * k == v.z * (d * k);
  }

  lemma ScaleTwiceProduct(v: Vec3, a: real, b: real)
    ensures Scale(Scale(v, a), b) == Scale(v, a * b)
  {
    assert (v.x * a) * b == v.x * (a * b);
    assert (v.y * a) * b == v.y * (a * b);
    assert (v.z * a) * b == v.z * (a * b);
  }

  lemma DotScaleLeft(a: Vec3, b: Vec3, k: real)
    ensures Dot(Scale(a, k), b) == Dot(a, b) * k
  {
    assert (a.x * k) * b.x == (a.x * b.x) * k;
    assert (a.y * k) * b.y == (a.y * b.y) * k;
    assert (a.z * k) * b.z == (a.z * b.z) * k;
  }

  /** `Scale` written out entry by entry. */
  lemma ScaleComponents(v: Vec3, k: real)
    ensures Scale(v, k) == V(v.x * k, v.y * k, v.z * k)
  {
  }

  /** `Scale` of a vector given by its entries. */
  lemma ScaleOf(p: real, q: real, r: real, k: real)
    ensures Scale(V(p, q, r), k) == V(p * k, q * k, r * k)
  {
  }

  /** `Add` of a vector given by its entries. */
  lemma AddOf(u: Vec3, p: real, q: real, r: real)
    ensures Add(u, V(p, q, r)) == V(u.x + p, u.y + q, u.z + r)
  {
  }

  /** `Add` of two vectors given by their entries. */
  lemma AddEntries(p1: real, p2: real, p3: real, q1: real, q2: real, q3: real)
    ensures Add(V(p1, p2, p3), V(q1, q2, q3)) == V(p1 + q1, p2 + q2, p3 + q3)
  {
  }

  lemma DotAddRight(a: Vec3, b: Vec3, c: Vec3)
    ensures Dot(a, Add(b, c)) == Dot(a, b) + Dot(a, c)
  {
    assert a.x * (b.x + c.x) == a.x * b.x + a.x * c.x;
    assert a.y * (b.y + c.y) == a.y * b.y + a.y * c.y;
    assert a.z * (b.z + c.z) == a.z * b.z + a.z * c.z;
  }

  lemma DotSub(a: Vec3, b: Vec3, c: Vec3)
    ensures Dot(Sub(a, b), c) == Dot(a, c) - Dot(b, c)
  {
  }

  /** Vectors with equal entries are equal. */
  lemma SameEntries(l1: real, l2: real, l3: real, r1: real, r2: real, r3: real)
    requires l1 == r1 && l2 == r2 && l3 == r3
    ensures V(l1, l2, l3) == V(r1, r2, r3)
  {
  }

  /** Two vectors equal to the two ends of an equation are equal. */
  lemma Link(l: Vec3, x: Vec3, y: Vec3, r: Vec3)
    requires l == x && x == y && r == y
    ensures l == r
  {
  }

}
