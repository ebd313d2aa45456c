/** The slice of the gl-matrix library that the math classes call.

    Vectors and matrices are flat sequences of reals; matrices are stored
    column-major, so entry (row i, column j) of a 3x3 matrix sits at index
    3 * j + i and of a 4x4 matrix at 4 * j + i.

    The standard algebra (vector sum, difference, cross and dot product, the
    identity, the matrix product and the elementary translation, scaling and
    rotation matrices) is written out. The routines whose code is not part of
    this model (sin, cos, vec3.normalize, mat3.projection, mat3.invert,
    mat4.perspective, mat4.ortho, mat4.invert) are the fields of `Lib`, a
    value every method that calls them receives; the laws they are known to
    obey are the predicates NormalizeLaw, InvertLaw3 and TrigAtZero. */
module GlMatrix {

  datatype Option<T> = None | Some(value: T)

  type Vec2 = s: seq<real> | |s| == 2 witness [0.0, 0.0]
  type Vec3 = s: seq<real> | |s| == 3 witness [0.0, 0.0, 0.0]
  type Mat3 = s: seq<real> | |s| == 9 witness [1.0, 0.0, 0.0, 0.0, 1.0, 0.0, 0.0, 0.0, 1.0]
  type Mat4 = s: seq<real> | |s| == 16
    witness [1.0, 0.0, 0.0, 0.0, 0.0, 1.0, 0.0, 0.0, 0.0, 0.0, 1.0, 0.0, 0.0, 0.0, 0.0, 1.0]

  /** The library routines whose code is not modelled. */
  datatype Lib = Lib(
    sin: real -> real,
    cos: real -> real,
    normalize: Vec3 -> Vec3,
    projection: (real, real) -> Mat3,
    invert3: Mat3 -> Option<Mat3>,
    perspective: (real, real, real, real) -> Mat4,
    ortho: (real, real, real, real, real, real) -> Mat4,
    invert4: Mat4 -> Option<Mat4>)

  // ---------------------------------------------------------------- vectors

  const Zero3: Vec3 := [0.0, 0.0, 0.0]

  function Add2(a: Vec2, b: Vec2): Vec2 { [a[0] + b[0], a[1] + b[1]] }

  function Add3(a: Vec3, b: Vec3): Vec3 { [a[0] + b[0], a[1] + b[1], a[2] + b[2]] }

  function Sub3(a: Vec3, b: Vec3): Vec3 { [a[0] - b[0], a[1] - b[1], a[2] - b[2]] }

  function Scale3(k: real, v: Vec3): Vec3 { [k * v[0], k * v[1], k * v[2]] }

  function Dot3(a: Vec3, b: Vec3): real { a[0] * b[0] + a[1] * b[1] + a[2] * b[2] }

  function Cross(a: Vec3, b: Vec3): Vec3 {
    [a[1] * b[2] - a[2] * b[1],
     a[2] * b[0] - a[0] * b[2],
     a[0] * b[1] - a[1] * b[0]]
  }

  /** n is the unit vector pointing the same way as v: it has length 1, it is
      parallel to v (zero cross product) and it is not opposed to v. */
  ghost predicate IsDirectionOf(v: Vec3, n: Vec3) {
    Dot3(n, n) == 1.0 && Cross(n, v) == Zero3 && Dot3(n, v) > 0.0
  }

  /** vec3.normalize divides a non-zero vector by its length. */
  ghost predicate NormalizeLaw(normalize: Vec3 -> Vec3) {
    forall v: Vec3 :: v != Zero3 ==> IsDirectionOf(v, normalize(v))
  }

  lemma CrossIsOrthogonal(a: Vec3, b: Vec3)
    ensures Dot3(Cross(a, b), a) == 0.0 && Dot3(Cross(a, b), b) == 0.0
  {
  }

  // The vector identities below are reduced to polynomial identities over
  // the components, one per scalar lemma; x1, x2, ... name the components of
  // an inner product so that the solver sees plain polynomials.

  /** Component 0 of a x (b x c) = b (a . c) - c (a . b), with x = b x c. */
  lemma TripleComponent(a0: real, a1: real, a2: real, b0: real, b1: real, b2: real,
                        c0: real, c1: real, c2: real, x1: real, x2: real, ac: real, ab: real)
    requires x1 == b2 * c0 - b0 * c2 && x2 == b0 * c1 - b1 * c0
    requires ac == a0 * c0 + a1 * c1 + a2 * c2 && ab == a0 * b0 + a1 * b1 + a2 * b2
    ensures a1 * x2 - a2 * x1 == ac * b0 - ab * c0
  {
  }

  /** a x (b x c) = b (a . c) - c (a . b), the identity behind every fact
      about normalized axes below. */
  lemma TripleProduct(a: Vec3, b: Vec3, c: Vec3)
    ensures Cross(a, Cross(b, c)) == Sub3(Scale3(Dot3(a, c), b), Scale3(Dot3(a, b), c))
  {
    var x, ac, ab := Cross(b, c), Dot3(a, c), Dot3(a, b);
    TripleComponent(a[0], a[1], a[2], b[0], b[1], b[2], c[0], c[1], c[2], x[1], x[2], ac, ab);
    TripleComponent(a[1], a[2], a[0], b[1], b[2], b[0], c[1], c[2], c[0], x[2], x[0], ac, ab);
    TripleComponent(a[2], a[0], a[1], b[2], b[0], b[1], c[2], c[0], c[1], x[0], x[1], ac, ab);
    var l, r := Cross(a, x), Sub3(Scale3(ac, b), Scale3(ab, c));
    assert l[0] == r[0] && l[1] == r[1] && l[2] == r[2];
  }

  lemma LagrangeComponents(a0: real, a1: real, a2: real, b0: real, b1: real, b2: real,
                           x0: real, x1: real, x2: real)
    requires x0 == a1 * b2 - a2 * b1 && x1 == a2 * b0 - a0 * b2 && x2 == a0 * b1 - a1 * b0
    ensures x0 * x0 + x1 * x1 + x2 * x2
         == (a0 * a0 + a1 * a1 + a2 * a2) * (b0 * b0 + b1 * b1 + b2 * b2)
            - (a0 * b0 + a1 * b1 + a2 * b2) * (a0 * b0 + a1 * b1 + a2 * b2)
  {
  }

  /** |a x b|^2 = |a|^2 |b|^2 - (a . b)^2. */
  lemma Lagrange(a: Vec3, b: Vec3)
    ensures Dot3(Cross(a, b), Cross(a, b)) == Dot3(a, a) * Dot3(b, b) - Dot3(a, b) * Dot3(a, b)
  {
    var x := Cross(a, b);
    LagrangeComponents(a[0], a[1], a[2], b[0], b[1], b[2], x[0], x[1], x[2]);
  }

  lemma ScaledComponents(k: real, u0: real, u1: real, u2: real, v0: real, v1: real, v2: real)
    requires v0 == k * u0 && v1 == k * u1 && v2 == k * u2
    ensures v0 * v0 + v1 * v1 + v2 * v2 == k * k * (u0 * u0 + u1 * u1 + u2 * u2)
  {
  }

  /** |k u|^2 = k^2 |u|^2. */
  lemma DotScaled(k: real, u: Vec3)
    ensures Dot3(Scale3(k, u), Scale3(k, u)) == k * k * Dot3(u, u)
  {
    var v := Scale3(k, u);
    ScaledComponents(k, u[0], u[1], u[2], v[0], v[1], v[2]);
  }

  lemma PositiveSquareRootOfOne(d: real)
    requires d * d == 1.0 && d > 0.0
    ensures d == 1.0
  {
    assert (d - 1.0) * (d + 1.0) == 0.0;
  }

  /** A vector parallel to w is orthogonal to everything w is orthogonal to. */
  lemma {:induction false} ParallelKeepsOrthogonal(n: Vec3, w: Vec3, z: Vec3)
    requires w != Zero3 && Cross(n, w) == Zero3 && Dot3(z, w) == 0.0
    ensures Dot3(z, n) == 0.0
  {
    TripleProduct(z, n, w);
    var d := Dot3(z, n);
    // z x (n x w) = n (z . w) - w (z . n) = -d w, and n x w = 0
    assert Cross(z, Cross(n, w)) == Zero3;
    assert d * w[0] == 0.0 && d * w[1] == 0.0 && d * w[2] == 0.0;
    if w[0] == 0.0 && w[1] == 0.0 {
      assert w[2] != 0.0 by { assert w != [0.0, 0.0, 0.0]; }
    }
  }

  /** Normalizing a unit vector returns it unchanged. */
  lemma {:induction false} DirectionOfUnit(u: Vec3, n: Vec3)
    requires Dot3(u, u) == 1.0 && IsDirectionOf(u, n)
    ensures n == u
  {
    TripleProduct(u, n, u);
    assert Cross(u, Zero3) == Zero3;
    var d := Dot3(u, n);
    assert d == Dot3(n, u);
    // 0 = u x (n x u) = n (u . u) - u (u . n) = n - d u
    assert n == Scale3(d, u);
    DotScaled(d, u);
    PositiveSquareRootOfOne(d);
  }

  lemma CrossScaledComponents(k: real, n1: real, n2: real, u1: real, u2: real, v1: real, v2: real)
    requires v1 == k * u1 && v2 == k * u2
    ensures n1 * v2 - n2 * v1 == k * (n1 * u2 - n2 * u1)
  {
  }

  lemma DotScaledComponents(k: real, n0: real, n1: real, n2: real, u0: real, u1: real, u2: real,
                            v0: real, v1: real, v2: real)
    requires v0 == k * u0 && v1 == k * u1 && v2 == k * u2
    ensures n0 * v0 + n1 * v1 + n2 * v2 == k * (n0 * u0 + n1 * u1 + n2 * u2)
  {
  }

  lemma ZeroFactor(k: real, c: real)
    requires k > 0.0 && k * c == 0.0
    ensures c == 0.0
  {
  }

  /** n x (k v) = k (n x v). */
  lemma CrossScaled(k: real, n: Vec3, v: Vec3)
    ensures Cross(n, Scale3(k, v)) == Scale3(k, Cross(n, v))
  {
    var kv := Scale3(k, v);
    var c, ck := Cross(n, v), Cross(n, kv);
    assert ck[0] == k * c[0] by { CrossScaledComponents(k, n[1], n[2], v[1], v[2], kv[1], kv[2]); }
    assert ck[1] == k * c[1] by { CrossScaledComponents(k, n[2], n[0], v[2], v[0], kv[2], kv[0]); }
    assert ck[2] == k * c[2] by { CrossScaledComponents(k, n[0], n[1], v[0], v[1], kv[0], kv[1]); }
    var r := Scale3(k, c);
    assert ck[0] == r[0] && ck[1] == r[1] && ck[2] == r[2];
  }

  /** n . (k v) = k (n . v). */
  lemma DotScaledRight(k: real, n: Vec3, v: Vec3)
    ensures Dot3(n, Scale3(k, v)) == k * Dot3(n, v)
  {
    var kv := Scale3(k, v);
    DotScaledComponents(k, n[0], n[1], n[2], v[0], v[1], v[2], kv[0], kv[1], kv[2]);
  }

  lemma PositiveFactor(k: real, d: real)
    requires k > 0.0 && k * d > 0.0
    ensures d > 0.0
  {
  }

  /** The direction of k v, for k > 0, is the direction of v. */
  lemma {:induction false} DirectionOfScaled(k: real, v: Vec3, n: Vec3)
    requires k > 0.0 && IsDirectionOf(Scale3(k, v), n)
    ensures IsDirectionOf(v, n)
  {
    CrossScaled(k, n, v);
    var c := Cross(n, v);
    ZeroFactor(k, c[0]);
    ZeroFactor(k, c[1]);
    ZeroFactor(k, c[2]);
    DotScaledRight(k, n, v);
    PositiveFactor(k, Dot3(n, v));
  }

  /** normalize(k u) == u for a unit vector u and a positive factor k. */
  lemma NormalizeScaledUnit(normalize: Vec3 -> Vec3, k: real, u: Vec3)
    requires NormalizeLaw(normalize) && k > 0.0 && Dot3(u, u) == 1.0
    ensures normalize(Scale3(k, u)) == u
  {
    var v := Scale3(k, u);
    DotScaled(k, u);
    assert k * k > 0.0;
    assert Dot3(v, v) == k * k;
    DirectionOfScaled(k, u, normalize(v));
    DirectionOfUnit(u, normalize(v));
  }

  // --------------------------------------------------------------- matrices

  const Identity3: Mat3 := [1.0, 0.0, 0.0, 0.0, 1.0, 0.0, 0.0, 0.0, 1.0]

  /** The column-major product a * b (mat3.multiply). */
  function Mul3(a: Mat3, b: Mat3): Mat3 {
    [a[0] * b[0] + a[3] * b[1] + a[6] * b[2],
     a[1] * b[0] + a[4] * b[1] + a[7] * b[2],
     a[2] * b[0] + a[5] * b[1] + a[8] * b[2],
     a[0] * b[3] + a[3] * b[4] + a[6] * b[5],
     a[1] * b[3] + a[4] * b[4] + a[7] * b[5],
     a[2] * b[3] + a[5] * b[4] + a[8] * b[5],
     a[0] * b[6] + a[3] * b[7] + a[6] * b[8],
     a[1] * b[6] + a[4] * b[7] + a[7] * b[8],
     a[2] * b[6] + a[5] * b[7] + a[8] * b[8]]
  }

  /** The image of the homogeneous point p under m. */
  function Apply3(m: Mat3, p: Vec3): Vec3 {
    [m[0] * p[0] + m[3] * p[1] + m[6] * p[2],
     m[1] * p[0] + m[4] * p[1] + m[7] * p[2],
     m[2] * p[0] + m[5] * p[1] + m[8] * p[2]]
  }

  /** Moves a 2D point by v. */
  function Translation3(v: Vec2): Mat3 { [1.0, 0.0, 0.0, 0.0, 1.0, 0.0, v[0], v[1], 1.0] }

  /** Stretches a 2D point by v[0] along x and v[1] along y. */
  function Scaling3(v: Vec2): Mat3 { [v[0], 0.0, 0.0, 0.0, v[1], 0.0, 0.0, 0.0, 1.0] }

  /** Turns a 2D point by the angle whose sine is s and cosine is c. */
  function Rotation3(s: real, c: real): Mat3 { [c, s, 0.0, -s, c, 0.0, 0.0, 0.0, 1.0] }

  function Det3(m: Mat3): real {
    m[0] * (m[8] * m[4] - m[5] * m[7])
    + m[1] * (m[5] * m[6] - m[8] * m[3])
    + m[2] * (m[7] * m[3] - m[4] * m[6])
  }

  /** mat3.invert fails exactly on a singular matrix and otherwise returns
      a right inverse. */
  ghost predicate InvertLaw3(invert: Mat3 -> Option<Mat3>) {
    forall m: Mat3 ::
      (invert(m).Some? <==> Det3(m) != 0.0) &&
      (invert(m).Some? ==> Mul3(m, invert(m).value) == Identity3)
  }

  predicate TrigAtZero(gl: Lib) {
    gl.sin(0.0) == 0.0 && gl.cos(0.0) == 1.0
  }

  lemma ComposeRow(r0: real, r1: real, r2: real, b0: real, b1: real, b2: real,
                   b3: real, b4: real, b5: real, b6: real, b7: real, b8: real,
                   p0: real, p1: real, p2: real, m0: real, m1: real, m2: real,
                   q0: real, q1: real, q2: real)
    requires m0 == r0 * b0 + r1 * b1 + r2 * b2
    requires m1 == r0 * b3 + r1 * b4 + r2 * b5
    requires m2 == r0 * b6 + r1 * b7 + r2 * b8
    requires q0 == b0 * p0 + b3 * p1 + b6 * p2
    requires q1 == b1 * p0 + b4 * p1 + b7 * p2
    requires q2 == b2 * p0 + b5 * p1 + b8 * p2
    ensures m0 * p0 + m1 * p1 + m2 * p2 == r0 * q0 + r1 * q1 + r2 * q2
  {
  }

  /** The product is composition: applying a * b is applying b, then a. */
  lemma Mul3Composes(a: Mat3, b: Mat3, p: Vec3)
    ensures Apply3(Mul3(a, b), p) == Apply3(a, Apply3(b, p))
  {
    var m, q := Mul3(a, b), Apply3(b, p);
    var l, r := Apply3(m, p), Apply3(a, q);
    assert l[0] == r[0] by {
      ComposeRow(a[0], a[3], a[6], b[0], b[1], b[2], b[3], b[4], b[5], b[6], b[7], b[8],
                 p[0], p[1], p[2], m[0], m[3], m[6], q[0], q[1], q[2]);
    }
    assert l[1] == r[1] by {
      ComposeRow(a[1], a[4], a[7], b[0], b[1], b[2], b[3], b[4], b[5], b[6], b[7], b[8],
                 p[0], p[1], p[2], m[1], m[4], m[7], q[0], q[1], q[2]);
    }
    assert l[2] == r[2] by {
      ComposeRow(a[2], a[5], a[8], b[0], b[1], b[2], b[3], b[4], b[5], b[6], b[7], b[8],
                 p[0], p[1], p[2], m[2], m[5], m[8], q[0], q[1], q[2]);
    }
  }

  lemma Mul3Identity(m: Mat3)
    ensures Mul3(Identity3, m) == m && Mul3(m, Identity3) == m
  {
  }

  const Identity4: Mat4 :=
    [1.0, 0.0, 0.0, 0.0, 0.0, 1.0, 0.0, 0.0, 0.0, 0.0, 1.0, 0.0, 0.0, 0.0, 0.0, 1.0]

  /** Entry (row i, column j) of the column-major product a * b. */
  function Entry4(a: Mat4, b: Mat4, i: nat, j: nat): real
    requires i < 4 && j < 4
  {
    a[i] * b[4 * j] + a[4 + i] * b[4 * j + 1] + a[8 + i] * b[4 * j + 2] + a[12 + i] * b[4 * j + 3]
  }

  /** The column-major product a * b (mat4.multiply). */
  function Mul4(a: Mat4, b: Mat4): Mat4 {
    [Entry4(a, b, 0, 0), Entry4(a, b, 1, 0), Entry4(a, b, 2, 0), Entry4(a, b, 3, 0),
     Entry4(a, b, 0, 1), Entry4(a, b, 1, 1), Entry4(a, b, 2, 1), Entry4(a, b, 3, 1),
     Entry4(a, b, 0, 2), Entry4(a, b, 1, 2), Entry4(a, b, 2, 2), Entry4(a, b, 3, 2),
     Entry4(a, b, 0, 3), Entry4(a, b, 1, 3), Entry4(a, b, 2, 3), Entry4(a, b, 3, 3)]
  }

  /** Moves a 3D point by v (mat4.fromTranslation). */
  function Translation4(v: Vec3): Mat4 {
    [1.0, 0.0, 0.0, 0.0, 0.0, 1.0, 0.0, 0.0, 0.0, 0.0, 1.0, 0.0, v[0], v[1], v[2], 1.0]
  }

  /** Stretches a 3D point by v component-wise. */
  function Scaling4(v: Vec3): Mat4 {
    [v[0], 0.0, 0.0, 0.0, 0.0, v[1], 0.0, 0.0, 0.0, 0.0, v[2], 0.0, 0.0, 0.0, 0.0, 1.0]
  }

  lemma Mul4Identity(m: Mat4)
    ensures Mul4(Identity4, m) == m && Mul4(m, Identity4) == m
  {
    var l, r := Mul4(Identity4, m), Mul4(m, Identity4);
    assert l[0] == m[0] && l[1] == m[1] && l[2] == m[2] && l[3] == m[3] && l[4] == m[4] && l[5] == m[5] && l[6] == m[6] && l[7] == m[7];
    assert l[8] == m[8] && l[9] == m[9] && l[10] == m[10] && l[11] == m[11] && l[12] == m[12] && l[13] == m[13] && l[14] == m[14] && l[15] == m[15];
    assert r[0] == m[0] && r[1] == m[1] && r[2] == m[2] && r[3] == m[3] && r[4] == m[4] && r[5] == m[5] && r[6] == m[6] && r[7] == m[7];
    assert r[8] == m[8] && r[9] == m[9] && r[10] == m[10] && r[11] == m[11] && r[12] == m[12] && r[13] == m[13] && r[14] == m[14] && r[15] == m[15];
  }

  /** Overwrites every entry of `out` (the write-back every gl-matrix routine
      ends with; mat3.copy and mat4.copy are exactly this). */
  method Copy(out: array<real>, a: seq<real>)
    requires out.Length == |a|
    modifies out
    ensures out[..] == a
  {
    var i := 0;
    while i < out.Length
      invariant 0 <= i <= out.Length
      invariant out[..i] == a[..i]
    {
      out[i] := a[i];
      i := i + 1;
    }
  }
}
