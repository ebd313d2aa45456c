/** Space2 (src/lib/math/space2.ts): an axis-aligned rectangle used only as
    the domain or range of a coordinate remap, e.g. from pixel space to
    normalized device space. */
module Spaces {
  import opened GlMatrix
  import opened Numbers
  import opened Vectors2

  datatype Rect = Rect(minX: real, maxX: real, minY: real, maxY: real)

  /** The remap divides by the widths of the source rectangle. */
  predicate NonDegenerate(s: Rect) { s.minX != s.maxX && s.minY != s.maxY }

  /** The point p of space `from` expressed in space `to`: x is remapped
      between the X ranges, y between the Y ranges. */
  function Transformed(from: Rect, to: Rect, p: Vec2): Vec2
    requires NonDegenerate(from)
  {
    [NumberInRange(from.minX, from.maxX, to.minX, to.maxX, p[0]),
     NumberInRange(from.minY, from.maxY, to.minY, to.maxY, p[1])]
  }

  /** The new x depends only on the X ranges and the old x, and the new y
      only on the Y ranges and the old y. */
  lemma AxesIndependent(from: Rect, to: Rect, p: Vec2, from': Rect, to': Rect, p': Vec2)
    requires NonDegenerate(from) && NonDegenerate(from')
    ensures from.minX == from'.minX && from.maxX == from'.maxX && to.minX == to'.minX &&
            to.maxX == to'.maxX && p[0] == p'[0]
            ==> Transformed(from, to, p)[0] == Transformed(from', to', p')[0]
    ensures from.minY == from'.minY && from.maxY == from'.maxY && to.minY == to'.minY &&
            to.maxY == to'.maxY && p[1] == p'[1]
            ==> Transformed(from, to, p)[1] == Transformed(from', to', p')[1]
  {
  }

  /** The min corner maps onto the min corner and the max corner onto the
      max corner. */
  lemma CornersMap(from: Rect, to: Rect)
    requires NonDegenerate(from)
    ensures Transformed(from, to, [from.minX, from.minY]) == [to.minX, to.minY]
    ensures Transformed(from, to, [from.maxX, from.maxY]) == [to.maxX, to.maxY]
  {
    MinMapsToNewMin(from.minX, from.maxX, to.minX, to.maxX);
    MinMapsToNewMin(from.minY, from.maxY, to.minY, to.maxY);
    MaxMapsToNewMax(from.minX, from.maxX, to.minX, to.maxX);
    MaxMapsToNewMax(from.minY, from.maxY, to.minY, to.maxY);
  }

  /** Going from one space to another and back returns the point. */
  lemma {:induction false} TransformRoundTrip(a: Rect, b: Rect, p: Vec2)
    requires NonDegenerate(a) && NonDegenerate(b)
    ensures Transformed(b, a, Transformed(a, b, p)) == p
  {
    RoundTrip(a.minX, a.maxX, b.minX, b.maxX, p[0]);
    RoundTrip(a.minY, a.maxY, b.minY, b.maxY, p[1]);
  }

  /** The centre of a 200 x 100 screen is the centre of the unit square. */
  lemma TransformExample()
    ensures Transformed(Rect(0.0, 200.0, 0.0, 100.0), Rect(0.0, 1.0, 0.0, 1.0), [100.0, 50.0]) == [0.5, 0.5]
  {
    var r := Transformed(Rect(0.0, 200.0, 0.0, 100.0), Rect(0.0, 1.0, 0.0, 1.0), [100.0, 50.0]);
    Cancel(r[0], 0.5, 200.0);
    Cancel(r[1], 0.5, 100.0);
  }

  class Space2 {
    var minX: real
    var maxX: real
    var minY: real
    var maxY: real

    function Bounds(): Rect
      reads this
    {
      Rect(minX, maxX, minY, maxY)
    }

    /** Note the order: the maxima first, the minima optional and 0. */
    constructor (maxX: real, maxY: real, minX: real := 0.0, minY: real := 0.0)
      ensures Bounds() == Rect(minX, maxX, minY, maxY)
    {
      this.maxX := maxX;
      this.maxY := maxY;
      this.minX := minX;
      this.minY := minY;
    }

    /** Writes vec2, expressed in bySpace, into `out` (by default vec2
        itself) and returns `out`. Both coordinates are computed before the
        write, so `out` may be vec2. Neither space changes. */
    method Transform(bySpace: Space2, vec2: Vector2, out: Vector2 := vec2) returns (r: Vector2)
      requires NonDegenerate(Bounds())
      requires vec2.Valid() && out.Valid()
      modifies out.data
      ensures r == out
      ensures out.Value() == Transformed(old(Bounds()), old(bySpace.Bounds()), old(vec2.Value()))
      ensures Bounds() == old(Bounds()) && bySpace.Bounds() == old(bySpace.Bounds())
    {
      var newX := NumberInRange(minX, maxX, bySpace.minX, bySpace.maxX, vec2.X());
      var newY := NumberInRange(minY, maxY, bySpace.minY, bySpace.maxY, vec2.Y());
      r := out.Set(newX, newY);
    }
  }
}
