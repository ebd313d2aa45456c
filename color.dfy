/** Color (src/lib/math/color.ts): four independent channels r, g, b, a
    over a buffer of length 4. Channels are stored as given, never clamped. */
module Colors {
  import opened Writeable

  class Color {
    /** The buffer: r, g, b, a at indices 0, 1, 2, 3. */
    const data: array<real>

    predicate Valid() { data.Length == 4 }

    /** The length getter: always 4. */
    function Length(): (n: nat)
      requires Valid()
      ensures n == 4
    {
      data.Length
    }

    function Value(): seq<real>
      reads data
      requires Valid()
    {
      data[..]
    }

    function R(): real reads data requires Valid() { data[0] }
    function G(): real reads data requires Valid() { data[1] }
    function B(): real reads data requires Valid() { data[2] }
    function A(): real reads data requires Valid() { data[3] }

    /** Opaque black unless told otherwise. */
    constructor (r: real := 0.0, g: real := 0.0, b: real := 0.0, a: real := 1.0)
      ensures Valid() && fresh(data)
      ensures Value() == [r, g, b, a]
    {
      data := new real[4] [r, g, b, a];
    }

    method SetR(value: real)
      requires Valid()
      modifies data
      ensures Value() == [value, old(G()), old(B()), old(A())]
    {
      data[0] := value;
    }

    method SetG(value: real)
      requires Valid()
      modifies data
      ensures Value() == [old(R()), value, old(B()), old(A())]
    {
      data[1] := value;
    }

    method SetB(value: real)
      requires Valid()
      modifies data
      ensures Value() == [old(R()), old(G()), value, old(A())]
    {
      data[2] := value;
    }

    method SetA(value: real)
      requires Valid()
      modifies data
      ensures Value() == [old(R()), old(G()), old(B()), value]
    {
      data[3] := value;
    }

    /** copyToArray as Color inherits it: r, g, b, a land at offset,
        offset + 1, offset + 2, offset + 3 when they fit. */
    method CopyToArray(target: array<real>, offset: nat := 0)
      requires Valid()
      modifies target
      ensures target != data ==> target[..] == CopiedTo(old(target[..]), old(Value()), offset)
      ensures target != data && offset + 4 <= target.Length ==>
                target[offset] == old(R()) && target[offset + 1] == old(G()) &&
                target[offset + 2] == old(B()) && target[offset + 3] == old(A())
    {
      Writeable.CopyToArray(data, target, offset);
      if target != data && offset + 4 <= target.Length {
        CopiedToAt(old(target[..]), old(Value()), offset, offset);
        CopiedToAt(old(target[..]), old(Value()), offset, offset + 1);
        CopiedToAt(old(target[..]), old(Value()), offset, offset + 2);
        CopiedToAt(old(target[..]), old(Value()), offset, offset + 3);
      }
    }
  }
}
