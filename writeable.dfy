/** ArrayBasedStructure (src/lib/math/writeable.ts): the flat numeric buffer
    behind every vector, matrix and color, and the two copies between such a
    buffer and a caller's array.

    Dafny has no class inheritance here, so the buffer is the `data` array of
    each class and the two copies are methods over arrays that each class
    passes its own `data` to. A target that is too short behaves as a typed
    array does: a write past its end is dropped. */
module Writeable {

  function Min(a: nat, b: nat): nat { if a <= b then a else b }

  /** `target` after the structure's elements `src` are written into it,
      element i at index offset + i. */
  function CopiedTo(target: seq<real>, src: seq<real>, offset: nat): (r: seq<real>)
    ensures |r| == |target|
  {
    if |target| <= offset then target
    else if offset + |src| <= |target| then target[..offset] + src + target[offset + |src|..]
    else target[..offset] + src[..|target| - offset]
  }

  /** Index j of the target holds src[j - offset] inside the written window
      and is untouched outside it. */
  lemma CopiedToAt(target: seq<real>, src: seq<real>, offset: nat, j: nat)
    requires j < |target|
    ensures CopiedTo(target, src, offset)[j]
         == if offset <= j < offset + |src| then src[j - offset] else target[j]
  {
    if |target| <= offset {
    } else if offset + |src| <= |target| {
      var r := CopiedTo(target, src, offset);
      if j < offset {
        assert r[j] == target[..offset][j];
      } else if j < offset + |src| {
        assert r[j] == (target[..offset] + src)[j];
      } else {
        assert r[j] == target[offset + |src|..][j - offset - |src|];
      }
    } else {
      var r := CopiedTo(target, src, offset);
      if j < offset {
        assert r[j] == target[..offset][j];
      } else {
        assert r[j] == src[..|target| - offset][j - offset];
      }
    }
  }

  /** The structure's elements `self` after the first min(|self|, |src|)
      of them are overwritten from `src`. */
  function CopiedFrom(self: seq<real>, src: seq<real>): (r: seq<real>)
    ensures |r| == |self|
  {
    var n := Min(|self|, |src|);
    src[..n] + self[n..]
  }

  /** Index j takes src[j] where src reaches and keeps self[j] beyond it. */
  lemma CopiedFromAt(self: seq<real>, src: seq<real>, j: nat)
    requires j < |self|
    ensures CopiedFrom(self, src)[j] == if j < |src| then src[j] else self[j]
  {
    var n := Min(|self|, |src|);
    if j < n {
      assert CopiedFrom(self, src)[j] == src[..n][j];
    } else {
      assert CopiedFrom(self, src)[j] == self[n..][j - n];
    }
  }

  /** a.copyToArray(t, 0) followed by b.copyFromArray(t), with b as long as
      a and t long enough to hold a, makes b equal to a. */
  lemma {:induction false} CopyRoundTrip(a: seq<real>, b: seq<real>, t: seq<real>)
    requires |a| == |b| <= |t|
    ensures CopiedFrom(b, CopiedTo(t, a, 0)) == a
  {
    var c := CopiedTo(t, a, 0);
    var r := CopiedFrom(b, c);
    forall j | 0 <= j < |a| ensures r[j] == a[j] {
      CopiedFromAt(b, c, j);
      CopiedToAt(t, a, 0, j);
    }
  }

  /** copyToArray(target, offset): writes the structure's elements into
      `target` from `offset` on and touches nothing else. What happens when
      the target is the structure's own buffer is not specified. */
  method CopyToArray(self: array<real>, target: array<real>, offset: nat := 0)
    modifies target
    ensures target != self ==> target[..] == CopiedTo(old(target[..]), old(self[..]), offset)
    ensures target != self ==> self[..] == old(self[..])
  {
    var i := 0;
    while i < self.Length
      invariant 0 <= i <= self.Length
      invariant target != self ==> forall j :: 0 <= j < target.Length ==>
        target[j] == if offset <= j < offset + i then self[j - offset] else old(target[j])
    {
      // a typed array ignores a write past its end
      if i + offset < target.Length {
        target[i + offset] := self[i];
      }
      i := i + 1;
    }
    if target != self {
      forall j | 0 <= j < target.Length
        ensures target[j] == CopiedTo(old(target[..]), old(self[..]), offset)[j]
      {
        CopiedToAt(old(target[..]), old(self[..]), offset, j);
      }
    }
  }

  /** copyFromArray(source): overwrites the first min(self.Length,
      source.Length) elements from `source`; the length never changes. */
  method CopyFromArray(self: array<real>, source: array<real>)
    modifies self
    ensures self[..] == CopiedFrom(old(self[..]), old(source[..]))
    ensures source != self ==> source[..] == old(source[..])
  {
    var totalLength := Min(self.Length, source.Length);
    var i := 0;
    while i < totalLength
      invariant 0 <= i <= totalLength
      invariant forall j :: 0 <= j < i ==> self[j] == old(source[j])
      invariant forall j :: i <= j < self.Length ==> self[j] == old(self[j])
      invariant forall j :: i <= j < source.Length ==> source[j] == old(source[j])
    {
      self[i] := source[i];
      i := i + 1;
    }
    forall j | 0 <= j < self.Length
      ensures self[j] == CopiedFrom(old(self[..]), old(source[..]))[j]
    {
      CopiedFromAt(old(self[..]), old(source[..]), j);
    }
  }
}
