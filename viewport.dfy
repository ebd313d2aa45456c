/** Viewport (src/lib/math/viewport.ts): a 2D camera over a screen. Its
    public state is a scale, a position, a rotation and the screen size; it
    owns two scratch matrices that every call to viewProjectionMatrix
    rebuilds from the identity and returns one of. */
module Viewports {
  import opened GlMatrix
  import opened Vectors2
  import opened Matrices3

  /** The camera transform identity * T(position) * R(rotation) * S(scale). */
  function CameraMatrix(position: Vec2, rotation: real, scale: Vec2, gl: Lib): Mat3 {
    Mul3(Mul3(Mul3(Identity3, Translation3(position)), Rotation3(gl.sin(rotation), gl.cos(rotation))),
         Scaling3(scale))
  }

  /** What viewProjectionMatrix returns: the screen projection after the
      camera transform. */
  function ViewProjection(screenSize: Vec2, position: Vec2, rotation: real, scale: Vec2, gl: Lib): Mat3 {
    Mul3(gl.projection(screenSize[0], screenSize[1]), CameraMatrix(position, rotation, scale, gl))
  }

  /** The camera scales a point first, then rotates it, then moves it. */
  lemma {:induction false} CameraOrder(position: Vec2, rotation: real, scale: Vec2, gl: Lib, p: Vec3)
    ensures Apply3(CameraMatrix(position, rotation, scale, gl), p)
         == Apply3(Translation3(position),
                   Apply3(Rotation3(gl.sin(rotation), gl.cos(rotation)), Apply3(Scaling3(scale), p)))
  {
    var t, r, s := Translation3(position), Rotation3(gl.sin(rotation), gl.cos(rotation)), Scaling3(scale);
    Mul3Identity(t);
    Mul3Composes(Mul3(t, r), s, p);
    Mul3Composes(t, r, Apply3(s, p));
  }

  /** Unrotated, the camera takes the point (x, y) to (scale.x * x +
      position.x, scale.y * y + position.y). */
  lemma {:induction false} UnrotatedCamera(position: Vec2, scale: Vec2, gl: Lib, x: real, y: real)
    requires TrigAtZero(gl)
    ensures Apply3(CameraMatrix(position, 0.0, scale, gl), [x, y, 1.0])
         == [scale[0] * x + position[0], scale[1] * y + position[1], 1.0]
  {
    CameraOrder(position, 0.0, scale, gl, [x, y, 1.0]);
    var scaled := Apply3(Scaling3(scale), [x, y, 1.0]);
    assert scaled[0] == scale[0] * x && scaled[1] == scale[1] * y && scaled[2] == 1.0;
    assert Apply3(Rotation3(gl.sin(0.0), gl.cos(0.0)), scaled) == scaled;
  }

  /** With the default scale, position and rotation the camera is the
      identity, so the result is the plain screen projection. */
  lemma {:induction false} DefaultViewProjection(screenSize: Vec2, gl: Lib)
    requires TrigAtZero(gl)
    ensures ViewProjection(screenSize, [0.0, 0.0], 0.0, [1.0, 1.0], gl) == gl.projection(screenSize[0], screenSize[1])
  {
    assert CameraMatrix([0.0, 0.0], 0.0, [1.0, 1.0], gl) == Identity3;
    Mul3Identity(gl.projection(screenSize[0], screenSize[1]));
  }

  class Viewport {
    var scale: Vector2
    var position: Vector2
    var screenSize: Vector2
    var rotation: real
    const camera: Matrix3
    const projection: Matrix3

    /** The two scratch matrices are distinct buffers. */
    predicate Valid()
      reads this
    {
      scale.Valid() && position.Valid() && screenSize.Valid() &&
      camera.Valid() && projection.Valid() && camera.data != projection.data
    }

    /** The matrix viewProjectionMatrix builds from the current state. */
    function Expected(gl: Lib): Mat3
      reads this, scale.data, position.data, screenSize.data
      requires Valid()
    {
      ViewProjection(screenSize.Value(), position.Value(), rotation, scale.Value(), gl)
    }

    /** Scale (1, 1), position (0, 0), rotation 0 and a w x h screen; both
        scratch matrices start as the identity. */
    constructor (w: real, h: real)
      ensures Valid()
      ensures fresh(scale.data) && fresh(position.data) && fresh(screenSize.data)
      ensures fresh(camera.data) && fresh(projection.data)
      ensures scale.Value() == [1.0, 1.0] && position.Value() == [0.0, 0.0]
      ensures rotation == 0.0 && screenSize.Value() == [w, h]
      ensures camera.Value() == Identity3 && projection.Value() == Identity3
    {
      var one := Vector2.One();
      scale := one;
      position := new Vector2();
      rotation := 0.0;
      camera := new Matrix3();
      projection := new Matrix3();
      screenSize := new Vector2(w, h);
    }

    /** Rebuilds both scratch matrices and returns the projection one, which
        then holds projection(screenSize) * camera; the viewport's own state
        is left as it was. */
    method ViewProjectionMatrix(gl: Lib) returns (r: Matrix3)
      requires Valid()
      modifies camera.data, projection.data
      ensures Valid() && r == projection
      ensures r.Value() == Expected(gl)
      ensures camera.Value() == CameraMatrix(position.Value(), rotation, scale.Value(), gl)
      ensures unchanged(scale.data, position.data, screenSize.data)
    {
      var p := projection.Identity();
      p := p.Projection(screenSize.X(), screenSize.Y(), gl);
      var c := camera.Identity();
      c := c.Translate(position);
      c := c.Rotate(rotation, gl);
      c := c.Scale(scale);
      r := p.Multiply(c);
    }
  }

  /** Two calls with nothing changed in between return the same object
      holding the same matrix. */
  method CallTwice(v: Viewport, gl: Lib) returns (first: Matrix3, firstValue: Mat3, second: Matrix3)
    requires v.Valid()
    modifies v.camera.data, v.projection.data
    ensures first == second == v.projection
    ensures second.Value() == firstValue == v.Expected(gl)
  {
    first := v.ViewProjectionMatrix(gl);
    firstValue := first.Value();
    second := v.ViewProjectionMatrix(gl);
  }

  /** A caller that keeps the returned matrix sees it overwritten by the
      next call: after the position moves and the matrix is asked for
      again, the earlier result holds the new matrix. */
  method MoveAndRecompute(v: Viewport, delta: Vector2, gl: Lib) returns (first: Matrix3)
    requires v.Valid() && delta.Valid() && delta.data != v.position.data
    modifies v.camera.data, v.projection.data, v.position.data
    ensures v.Valid() && first == v.projection
    ensures v.position.Value() == Add2(old(v.position.Value()), old(delta.Value()))
    ensures first.Value() == v.Expected(gl)
  {
    first := v.ViewProjectionMatrix(gl);
    var moved := v.position.Add(delta);
    var second := v.ViewProjectionMatrix(gl);
    assert second == first;
  }

  /** A new w x h viewport's first matrix is the plain projection of the
      screen, provided sin 0 = 0 and cos 0 = 1. */
  method DefaultMatrix(w: real, h: real, gl: Lib) returns (m: Mat3)
    requires TrigAtZero(gl)
    ensures m == gl.projection(w, h)
  {
    var v := new Viewport(w, h);
    var r := v.ViewProjectionMatrix(gl);
    m := r.Value();
    DefaultViewProjection([w, h], gl);
  }
}
