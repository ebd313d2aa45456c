/** Vector2 (src/lib/math/vector2.ts): a 2-component vector over a buffer
    of length 2. Every mutator writes the buffer in place and returns the
    receiver for chaining. */
module Vectors2 {
  import opened GlMatrix

  class Vector2 {
    /** The buffer, element 0 is x and element 1 is y. */
    const data: array<real>

    predicate Valid() { data.Length == 2 }

    /** The length getter: always 2. */
    function Length(): (n: nat)
      requires Valid()
      ensures n == 2
    {
      data.Length
    }

    function Value(): Vec2
      reads data
      requires Valid()
    {
      data[..]
    }

    function X(): real
      reads data
      requires Valid()
    {
      data[0]
    }

    function Y(): real
      reads data
      requires Valid()
    {
      data[1]
    }

    constructor (x: real := 0.0, y: real := 0.0)
      ensures Valid() && fresh(data)
      ensures Value() == [x, y]
    {
      data := new real[2] [x, y];
    }

    static method One() returns (v: Vector2)
      ensures v.Valid() && fresh(v.data)
      ensures v.Value() == [1.0, 1.0]
    {
      v := new Vector2(1.0, 1.0);
    }

    method Set(x: real, y: real) returns (self: Vector2)
      requires Valid()
      modifies data
      ensures self == this
      ensures Value() == [x, y]
    {
      data[0], data[1] := x, y;
      self := this;
    }

    /** self += other; `other` may be this very vector. */
    method Add(other: Vector2) returns (self: Vector2)
      requires Valid() && other.Valid()
      modifies data
      ensures self == this
      ensures Value() == Add2(old(Value()), old(other.Value()))
      ensures other.data != data ==> other.Value() == old(other.Value())
    {
      data[0] := data[0] + other.data[0];
      data[1] := data[1] + other.data[1];
      self := this;
    }

    method SetX(value: real)
      requires Valid()
      modifies data
      ensures X() == value && Y() == old(Y())
    {
      data[0] := value;
    }

    method SetY(value: real)
      requires Valid()
      modifies data
      ensures Y() == value && X() == old(X())
    {
      data[1] := value;
    }
  }
}
