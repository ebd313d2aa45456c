/** Matrix4 (src/lib/math/matrix4.ts): a 4x4 transform of 3D homogeneous
    points over a buffer of 16 reals in column-major order. */
module Matrices4 {
  import opened GlMatrix
  import opened Vectors3

  /** Column j (0 to 3) of m, without its fourth row. */
  function Axis(m: Mat4, j: nat): Vec3
    requires j < 4
  {
    [m[4 * j], m[4 * j + 1], m[4 * j + 2]]
  }

  /** The camera matrix lookAt writes: the columns are the camera's x, y and
      z axes and its position,
        z = normalize(eye - target)
        x = normalize(up x z)
        y = normalize(z x x)
      with 0, 0, 0, 1 as the bottom row. */
  function LookAtMatrix(eye: Vec3, target: Vec3, up: Vec3, normalize: Vec3 -> Vec3): Mat4 {
    var z := normalize(Sub3(eye, target));
    var x := normalize(Cross(up, z));
    var y := normalize(Cross(z, x));
    x + [0.0] + y + [0.0] + z + [0.0] + eye + [1.0]
  }

  /** LookAtMatrix entry by entry, given its three axes. */
  lemma LookAtMatrixColumns(eye: Vec3, target: Vec3, up: Vec3, normalize: Vec3 -> Vec3, x: Vec3, y: Vec3, z: Vec3)
    requires z == normalize(Sub3(eye, target))
    requires x == normalize(Cross(up, z))
    requires y == normalize(Cross(z, x))
    ensures LookAtMatrix(eye, target, up, normalize)
         == [x[0], x[1], x[2], 0.0, y[0], y[1], y[2], 0.0,
             z[0], z[1], z[2], 0.0, eye[0], eye[1], eye[2], 1.0]
  {
  }

  lemma SubZeroMeansEqual(a: Vec3, b: Vec3)
    ensures Sub3(a, b) == Zero3 ==> a == b
  {
    if Sub3(a, b) == Zero3 {
      assert a[0] == b[0] && a[1] == b[1] && a[2] == b[2];
    }
  }

  /** When the camera is not at its target and `up` is not along the line of
      sight, lookAt's three axes form a right-handed orthonormal basis. */
  lemma {:induction false} LookAtOrthonormal(eye: Vec3, target: Vec3, up: Vec3, normalize: Vec3 -> Vec3)
    requires NormalizeLaw(normalize)
    requires eye != target
    requires Cross(up, normalize(Sub3(eye, target))) != Zero3
    ensures var m := LookAtMatrix(eye, target, up, normalize);
      var x, y, z := Axis(m, 0), Axis(m, 1), Axis(m, 2);
      && Dot3(x, x) == 1.0 && Dot3(y, y) == 1.0 && Dot3(z, z) == 1.0
      && Dot3(x, y) == 0.0 && Dot3(y, z) == 0.0 && Dot3(z, x) == 0.0
      && Cross(x, y) == z
  {
    var d := Sub3(eye, target);
    SubZeroMeansEqual(eye, target);
    var z := normalize(d);
    var w := Cross(up, z);
    var x := normalize(w);
    CrossIsOrthogonal(up, z);
    ParallelKeepsOrthogonal(x, w, z);
    var v := Cross(z, x);
    Lagrange(z, x);
    assert Dot3(v, v) == 1.0;
    assert v != Zero3;
    var y := normalize(v);
    DirectionOfUnit(v, y);
    CrossIsOrthogonal(z, x);
    TripleProduct(x, z, x);
    assert Cross(x, y) == Sub3(Scale3(1.0, z), Scale3(0.0, x));
    var m := LookAtMatrix(eye, target, up, normalize);
    assert Axis(m, 0) == x && Axis(m, 1) == y && Axis(m, 2) == z;
  }

  /** A camera at (0, 0, 5) looking at the origin with y up keeps the world
      axes as its own. */
  lemma {:induction false} LookAtExample(normalize: Vec3 -> Vec3)
    requires NormalizeLaw(normalize)
    ensures LookAtMatrix([0.0, 0.0, 5.0], Zero3, [0.0, 1.0, 0.0], normalize)
         == [1.0, 0.0, 0.0, 0.0, 0.0, 1.0, 0.0, 0.0, 0.0, 0.0, 1.0, 0.0, 0.0, 0.0, 5.0, 1.0]
  {
    assert Sub3([0.0, 0.0, 5.0], Zero3) == Scale3(5.0, [0.0, 0.0, 1.0]);
    NormalizeScaledUnit(normalize, 5.0, [0.0, 0.0, 1.0]);
    assert Cross([0.0, 1.0, 0.0], [0.0, 0.0, 1.0]) == Scale3(1.0, [1.0, 0.0, 0.0]);
    NormalizeScaledUnit(normalize, 1.0, [1.0, 0.0, 0.0]);
    assert Cross([0.0, 0.0, 1.0], [1.0, 0.0, 0.0]) == Scale3(1.0, [0.0, 1.0, 0.0]);
    NormalizeScaledUnit(normalize, 1.0, [0.0, 1.0, 0.0]);
  }

  class Matrix4 {
    const data: array<real>

    predicate Valid() { data.Length == 16 }

    /** The length getter: always 16. */
    function Length(): (n: nat)
      requires Valid()
      ensures n == 16
    {
      data.Length
    }

    function Value(): Mat4
      reads data
      requires Valid()
    {
      data[..]
    }

    /** The default buffer comes from mat4.create(), the identity. */
    constructor ()
      ensures Valid() && fresh(data)
      ensures Value() == Identity4
    {
      data := new real[16] [1.0, 0.0, 0.0, 0.0, 0.0, 1.0, 0.0, 0.0, 0.0, 0.0, 1.0, 0.0, 0.0, 0.0, 0.0, 1.0];
    }

    /** A caller's buffer is adopted, not copied. */
    constructor Wrap(matrix: array<real>)
      requires matrix.Length == 16
      ensures Valid() && data == matrix
    {
      data := matrix;
    }

    /** The same as FromTranslation, without returning the receiver. */
    method SetPosition(pos: Vector3)
      requires Valid() && pos.Valid()
      modifies data
      ensures Value() == Translation4(pos.Value())
    {
      var _ := FromTranslation(pos);
    }

    /** The translation by `translation`, whatever the matrix held before. */
    method FromTranslation(translation: Vector3) returns (self: Matrix4)
      requires Valid() && translation.Valid()
      modifies data
      ensures self == this
      ensures Value() == Translation4(translation.Value())
    {
      Copy(data, Translation4(translation.data[..]));
      self := this;
    }

    method Perspective(fov: real, aspect: real, near: real, far: real, gl: Lib) returns (self: Matrix4)
      requires Valid()
      modifies data
      ensures self == this
      ensures Value() == gl.perspective(fov, aspect, near, far)
    {
      Copy(data, gl.perspective(fov, aspect, near, far));
      self := this;
    }

    method Ortho(left: real, right: real, bottom: real, top: real, near: real, far: real, gl: Lib)
      returns (self: Matrix4)
      requires Valid()
      modifies data
      ensures self == this
      ensures Value() == gl.ortho(left, right, bottom, top, near, far)
    {
      Copy(data, gl.ortho(left, right, bottom, top, near, far));
      self := this;
    }

    method Translate(offset: Vector3) returns (self: Matrix4)
      requires Valid() && offset.Valid()
      modifies data
      ensures self == this
      ensures Value() == Mul4(old(Value()), Translation4(offset.Value()))
    {
      Copy(data, Mul4(data[..], Translation4(offset.data[..])));
      self := this;
    }

    method Scale(scale: Vector3) returns (self: Matrix4)
      requires Valid() && scale.Valid()
      modifies data
      ensures self == this
      ensures Value() == Mul4(old(Value()), Scaling4(scale.Value()))
    {
      Copy(data, Mul4(data[..], Scaling4(scale.data[..])));
      self := this;
    }

    /** Writes the inverse into `out` (by default the receiver) and returns
        `out`. There is no success flag: when mat4.invert fails, `out` keeps
        what it held. */
    method Inverse(gl: Lib, out: Matrix4 := this) returns (r: Matrix4)
      requires Valid() && out.Valid()
      modifies out.data
      ensures r == out
      ensures out.Value() == match gl.invert4(old(Value()))
                             case Some(inv) => inv
                             case None => old(out.Value())
      ensures out.data != data ==> Value() == old(Value())
    {
      var result := gl.invert4(data[..]);
      if result.Some? {
        Copy(out.data, result.value);
      }
      r := out;
    }

    /** self := a * b. */
    method MultiplyMatrices(a: Matrix4, b: Matrix4) returns (self: Matrix4)
      requires Valid() && a.Valid() && b.Valid()
      modifies data
      ensures self == this
      ensures Value() == Mul4(old(a.Value()), old(b.Value()))
    {
      Copy(data, Mul4(a.data[..], b.data[..]));
      self := this;
    }

    /** Writes all 16 entries of `out` (by default the receiver) with the
        camera matrix of LookAtMatrix and returns `out`; what `out` held
        before does not matter and no other matrix changes. */
    method LookAt(cameraPosition: Vector3, target: Vector3, up: Vector3, gl: Lib, out: Matrix4 := this)
      returns (r: Matrix4)
      requires Valid() && cameraPosition.Valid() && target.Valid() && up.Valid() && out.Valid()
      modifies out.data
      ensures r == out
      ensures out.data != data ==> Value() == old(Value())
      ensures out.Value() == LookAtMatrix(old(cameraPosition.Value()), old(target.Value()), old(up.Value()), gl.normalize)
    {
      var tmp1 := new Vector3();
      var zAxis := tmp1.SubtractVectors(cameraPosition, target);
      zAxis := zAxis.Normalize(gl);
      var tmp2 := new Vector3();
      var xAxis := tmp2.CrossVectors(up, zAxis);
      xAxis := xAxis.Normalize(gl);
      var tmp3 := new Vector3();
      var yAxis := tmp3.CrossVectors(zAxis, xAxis);
      yAxis := yAxis.Normalize(gl);

      var x, y, z := xAxis.Value(), yAxis.Value(), zAxis.Value();
      var eye := cameraPosition.Value();
      assert eye == old(cameraPosition.Value());
      LookAtMatrixColumns(eye, old(target.Value()), old(up.Value()), gl.normalize, x, y, z);
      Copy(out.data, [x[0], x[1], x[2], 0.0,
                      y[0], y[1], y[2], 0.0,
                      z[0], z[1], z[2], 0.0,
                      eye[0], eye[1], eye[2], 1.0]);
      r := out;
    }

    static method CreateOrtho(left: real, right: real, bottom: real, top: real, near: real, far: real, gl: Lib)
      returns (m: Matrix4)
      ensures m.Valid() && fresh(m.data)
      ensures m.Value() == gl.ortho(left, right, bottom, top, near, far)
    {
      var blank := new Matrix4();
      m := blank.Ortho(left, right, bottom, top, near, far, gl);
    }

    static method CreatePerspective(fov: real, aspect: real, near: real, far: real, gl: Lib)
      returns (m: Matrix4)
      ensures m.Valid() && fresh(m.data)
      ensures m.Value() == gl.perspective(fov, aspect, near, far)
    {
      var blank := new Matrix4();
      m := blank.Perspective(fov, aspect, near, far, gl);
    }

    static method CreateFromTranslation(vec3: Vector3) returns (m: Matrix4)
      requires vec3.Valid()
      ensures m.Valid() && fresh(m.data)
      ensures m.Value() == Translation4(vec3.Value())
    {
      var blank := new Matrix4();
      m := blank.FromTranslation(vec3);
    }
  }

  /** Translating the identity gives the same matrix as fromTranslation. */
  lemma TranslateIdentity(v: Vec3)
    ensures Mul4(Identity4, Translation4(v)) == Translation4(v)
  {
    Mul4Identity(Translation4(v));
  }
}
