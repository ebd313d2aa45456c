/** Matrix3 (src/lib/math/matrix3.ts): a 3x3 transform of 2D homogeneous
    points over a buffer of 9 reals in column-major order. Every operation
    overwrites the buffer in place through gl-matrix and, except inverse
    and ortho, returns the receiver. The composing operations put the new
    elementary transform on the right of the current matrix. */
module Matrices3 {
  import opened GlMatrix
  import opened Vectors2

  class Matrix3 {
    const data: array<real>

    predicate Valid() { data.Length == 9 }

    /** The length getter: always 9. */
    function Length(): (n: nat)
      requires Valid()
      ensures n == 9
    {
      data.Length
    }

    function Value(): Mat3
      reads data
      requires Valid()
    {
      data[..]
    }

    /** The default buffer comes from mat3.create(), the identity. */
    constructor ()
      ensures Valid() && fresh(data)
      ensures Value() == Identity3
    {
      data := new real[9] [1.0, 0.0, 0.0, 0.0, 1.0, 0.0, 0.0, 0.0, 1.0];
    }

    /** A caller's buffer is adopted, not copied. */
    constructor Wrap(mat3: array<real>)
      requires mat3.Length == 9
      ensures Valid() && data == mat3
    {
      data := mat3;
    }

    /** Does nothing. */
    method Ortho()
      requires Valid()
      ensures Value() == old(Value())
    {
    }

    /** Replaces the matrix by its inverse and reports true, or reports false
        and leaves it as it was when the matrix is singular. */
    method Inverse(gl: Lib) returns (ok: bool)
      requires Valid()
      modifies data
      ensures ok == gl.invert3(old(Value())).Some?
      ensures Value() == if ok then gl.invert3(old(Value())).value else old(Value())
      ensures InvertLaw3(gl.invert3) ==> (ok <==> Det3(old(Value())) != 0.0)
      ensures InvertLaw3(gl.invert3) && ok ==> Mul3(old(Value()), Value()) == Identity3
    {
      var result := gl.invert3(data[..]);
      if result.Some? {
        Copy(data, result.value);
        return true;
      }
      return false;
    }

    /** The pixel-to-clip-space matrix of a width x height screen, whatever
        the matrix held before. */
    method Projection(width: real, height: real, gl: Lib) returns (self: Matrix3)
      requires Valid()
      modifies data
      ensures self == this
      ensures Value() == gl.projection(width, height)
    {
      Copy(data, gl.projection(width, height));
      self := this;
    }

    method Identity() returns (self: Matrix3)
      requires Valid()
      modifies data
      ensures self == this
      ensures Value() == Identity3
    {
      Copy(data, Identity3);
      self := this;
    }

    /** self := self * other; `other` (`by` in the source) may be this very
        matrix. */
    method Multiply(other: Matrix3) returns (self: Matrix3)
      requires Valid() && other.Valid()
      modifies data
      ensures self == this
      ensures Value() == Mul3(old(Value()), old(other.Value()))
      ensures other.data != data ==> other.Value() == old(other.Value())
    {
      Copy(data, Mul3(data[..], other.data[..]));
      self := this;
    }

    method Translate(offset: Vector2) returns (self: Matrix3)
      requires Valid() && offset.Valid()
      modifies data
      ensures self == this
      ensures Value() == Mul3(old(Value()), Translation3(offset.Value()))
    {
      Copy(data, Mul3(data[..], Translation3(offset.data[..])));
      self := this;
    }

    method Scale(scale: Vector2) returns (self: Matrix3)
      requires Valid() && scale.Valid()
      modifies data
      ensures self == this
      ensures Value() == Mul3(old(Value()), Scaling3(scale.Value()))
    {
      Copy(data, Mul3(data[..], Scaling3(scale.data[..])));
      self := this;
    }

    method Rotate(radians: real, gl: Lib) returns (self: Matrix3)
      requires Valid()
      modifies data
      ensures self == this
      ensures Value() == Mul3(old(Value()), Rotation3(gl.sin(radians), gl.cos(radians)))
    {
      Copy(data, Mul3(data[..], Rotation3(gl.sin(radians), gl.cos(radians))));
      self := this;
    }

    /** A value copy: the two matrices keep separate buffers. */
    method CopyFrom(src: Matrix3) returns (self: Matrix3)
      requires Valid() && src.Valid()
      modifies data
      ensures self == this
      ensures Value() == old(src.Value())
      ensures src.Value() == old(src.Value())
    {
      Copy(data, src.data[..]);
      self := this;
    }
  }

  /** identity().translate((10, 0)).scale((2, 1)) takes (1, 0) to (12, 0):
      the scale applies first, in the translated frame. */
  lemma TranslateThenScaleExample()
    ensures Apply3(Mul3(Mul3(Identity3, Translation3([10.0, 0.0])), Scaling3([2.0, 1.0])), [1.0, 0.0, 1.0])
         == [12.0, 0.0, 1.0]
  {
    var m := Mul3(Mul3(Identity3, Translation3([10.0, 0.0])), Scaling3([2.0, 1.0]));
    assert m == [2.0, 0.0, 0.0, 0.0, 1.0, 0.0, 10.0, 0.0, 1.0];
  }

  /** The identity inverts to itself. */
  lemma {:induction false} IdentityInverse(gl: Lib)
    requires InvertLaw3(gl.invert3)
    ensures gl.invert3(Identity3) == Some(Identity3)
  {
    var r := gl.invert3(Identity3);
    assert Det3(Identity3) == 1.0;
    Mul3Identity(r.value);
  }

  /** A matrix with a zero column has no inverse. */
  lemma {:induction false} ZeroColumnNotInvertible(gl: Lib, m: Mat3)
    requires InvertLaw3(gl.invert3)
    requires m[0] == 0.0 && m[1] == 0.0 && m[2] == 0.0
    ensures gl.invert3(m) == None
  {
    assert Det3(m) == 0.0;
  }
}
