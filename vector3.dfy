/** Vector3 (src/lib/math/vector3.ts): a 3-component vector over a buffer
    of length 3. Every mutator overwrites the buffer in place and returns the
    receiver for chaining; each reads its inputs before it writes, so an
    input may be the receiver itself. */
module Vectors3 {
  import opened GlMatrix

  class Vector3 {
    /** The buffer: x, y, z at indices 0, 1, 2. */
    const data: array<real>

    predicate Valid() { data.Length == 3 }

    /** The length getter: always 3. */
    function Length(): (n: nat)
      requires Valid()
      ensures n == 3
    {
      data.Length
    }

    function Value(): Vec3
      reads data
      requires Valid()
    {
      data[..]
    }

    function X(): real
      reads data
      requires Valid()
    {
      data[0]
    }

    function Y(): real
      reads data
      requires Valid()
    {
      data[1]
    }

    function Z(): real
      reads data
      requires Valid()
    {
      data[2]
    }

    constructor (x: real := 0.0, y: real := 0.0, z: real := 0.0)
      ensures Valid() && fresh(data)
      ensures Value() == [x, y, z]
    {
      data := new real[3] [x, y, z];
    }

    static method Up() returns (v: Vector3)
      ensures v.Valid() && fresh(v.data)
      ensures v.Value() == [0.0, 1.0, 0.0]
    {
      v := new Vector3(0.0, 1.0, 0.0);
    }

    static method Zero() returns (v: Vector3)
      ensures v.Valid() && fresh(v.data)
      ensures v.Value() == Zero3
    {
      v := new Vector3();
    }

    /** self := a - b. */
    method SubtractVectors(a: Vector3, b: Vector3) returns (self: Vector3)
      requires Valid() && a.Valid() && b.Valid()
      modifies data
      ensures self == this
      ensures Value() == Sub3(old(a.Value()), old(b.Value()))
    {
      var d := Sub3(a.data[..], b.data[..]);
      Copy(data, d);
      self := this;
    }

    /** self := a x b, which is orthogonal to both a and b. */
    method CrossVectors(a: Vector3, b: Vector3) returns (self: Vector3)
      requires Valid() && a.Valid() && b.Valid()
      modifies data
      ensures self == this
      ensures Value() == Cross(old(a.Value()), old(b.Value()))
      ensures Dot3(Value(), old(a.Value())) == 0.0 && Dot3(Value(), old(b.Value())) == 0.0
    {
      var c := Cross(a.data[..], b.data[..]);
      CrossIsOrthogonal(a.data[..], b.data[..]);
      Copy(data, c);
      self := this;
    }

    /** self := self - other. */
    method Subtract(other: Vector3) returns (self: Vector3)
      requires Valid() && other.Valid()
      modifies data
      ensures self == this
      ensures Value() == Sub3(old(Value()), old(other.Value()))
    {
      var d := Sub3(data[..], other.data[..]);
      Copy(data, d);
      self := this;
    }

    /** self := self / |self|, by the library's vec3.normalize: a non-zero
        vector becomes the unit vector pointing its way. */
    method Normalize(gl: Lib) returns (self: Vector3)
      requires Valid()
      modifies data
      ensures self == this
      ensures Value() == gl.normalize(old(Value()))
      ensures NormalizeLaw(gl.normalize) && old(Value()) != Zero3 ==>
                IsDirectionOf(old(Value()), Value())
    {
      var n := gl.normalize(data[..]);
      Copy(data, n);
      self := this;
    }

    method Set(x: real, y: real, z: real) returns (self: Vector3)
      requires Valid()
      modifies data
      ensures self == this
      ensures Value() == [x, y, z]
    {
      data[0], data[1], data[2] := x, y, z;
      self := this;
    }

    /** self := self + other. */
    method Add(other: Vector3) returns (self: Vector3)
      requires Valid() && other.Valid()
      modifies data
      ensures self == this
      ensures Value() == Add3(old(Value()), old(other.Value()))
    {
      var s := Add3(data[..], other.data[..]);
      Copy(data, s);
      self := this;
    }

    method SetX(value: real)
      requires Valid()
      modifies data
      ensures Value() == [value, old(Y()), old(Z())]
    {
      data[0] := value;
    }

    method SetY(value: real)
      requires Valid()
      modifies data
      ensures Value() == [old(X()), value, old(Z())]
    {
      data[1] := value;
    }

    method SetZ(value: real)
      requires Valid()
      modifies data
      ensures Value() == [old(X()), old(Y()), value]
    {
      data[2] := value;
    }
  }
}
