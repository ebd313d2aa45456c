# Linear-algebra kernel of a small WebGL toolkit, in Dafny

This project models the math classes under `src/lib/math`:
- the scalar range remap `numberInRange`;
- the flat-buffer base class `ArrayBasedStructure` with its two buffer copies;
- the fixed-length containers `Vector2`, `Vector3` and `Color` built on that base;
- the coordinate-space mapper `Space2`;
- the 3x3 and 4x4 matrices `Matrix3` and `Matrix4`;
- the 2D camera `Viewport`.

Numbers are exact `real`s. Each class holds its buffer as an `array<real>`, and every method writes that array in place, as the source does through gl-matrix. The order is column-major: entry (row i, column j) of a 3x3 matrix sits at index `3 * j + i`, and of a 4x4 matrix at `4 * j + i`. Methods that return `this` for chaining return the receiver here too.

One Dafny module per source file:

| file | module | models |
|---|---|---|
| `number.dfy` | `Numbers` | `numberInRange` |
| `writeable.dfy` | `Writeable` | `copyToArray`, `copyFromArray` |
| `vector2.dfy` | `Vectors2` | `Vector2` |
| `vector3.dfy` | `Vectors3` | `Vector3` |
| `color.dfy` | `Colors` | `Color` |
| `space2.dfy` | `Spaces` | `Space2` |
| `matrix3.dfy` | `Matrices3` | `Matrix3` |
| `matrix4.dfy` | `Matrices4` | `Matrix4` |
| `viewport.dfy` | `Viewports` | `Viewport` |
| `glmatrix.dfy` | `GlMatrix` | the part of gl-matrix that the classes call |

`GlMatrix` splits gl-matrix in two:
- The textbook algebra is written out as functions over fixed-length sequences: vector sum, difference, cross and dot product, the identity, the matrix product, and the translation, scaling and rotation matrices.
- The routines whose formulas are not part of this model are fields of a value `gl: Lib` that the methods calling them receive: `sin`, `cos`, `vec3.normalize`, `mat3.projection`, `mat3.invert`, `mat4.perspective`, `mat4.ortho` and `mat4.invert`. The laws they obey are stated as predicates, and only the lemmas that need a law require it:
  - `NormalizeLaw`: a non-zero vector normalizes to the unit vector in its direction.
  - `InvertLaw3`: the inverse exists exactly when the determinant is non-zero, and is then a right inverse.
  - `TrigAtZero`: sin 0 = 0 and cos 0 = 1.

## Model

| member | source | states |
|---|---|---|
| Numbers.NumberInRange | src/lib/math/number.ts:1-3 | with oldMax ≠ oldMin, the result lies as far along [newMin, newMax], relative to that range's width, as value lies along [oldMin, oldMax] |
| Numbers.MinMapsToNewMin | src/lib/math/number.ts:2 | oldMin maps exactly to newMin |
| Numbers.MaxMapsToNewMax | src/lib/math/number.ts:2 | oldMax maps exactly to newMax |
| Numbers.RoundTrip | src/lib/math/number.ts:1-3 | remapping back with the ranges swapped returns the original value when both ranges are non-degenerate |
| Numbers.Affine | src/lib/math/number.ts:2 | no clamping: two values any distance apart, inside or outside the old range, land that distance times newWidth/oldWidth apart |
| Numbers.SameRangeIsIdentity | src/lib/math/number.ts:2 | mapping a range onto itself returns the value |
| Numbers.Example | src/lib/math/number.ts:2 | numberInRange(0, 100, 0, 1, 50) = 0.5 |
| Writeable.CopiedToAt | src/lib/math/writeable.ts:18-23 | after copyToArray, target index j holds self[j - offset] inside [offset, offset + length) and its old value everywhere else |
| Writeable.CopiedFromAt | src/lib/math/writeable.ts:25-32 | after copyFromArray, index j holds src[j] when j < src.length and its old value otherwise; the length is unchanged |
| Writeable.CopyRoundTrip | src/lib/math/writeable.ts:18-32 | a.copyToArray(t, 0) then b.copyFromArray(t), with b as long as a, makes b equal to a |
| Writeable.CopyToArray | src/lib/math/writeable.ts:18-23 | the target becomes CopiedTo of its old contents; the structure's own buffer is unchanged |
| Writeable.CopyFromArray | src/lib/math/writeable.ts:25-32 | the buffer becomes CopiedFrom of its old contents, copying min(length, source.length) elements; the source is unchanged |
| Vectors2.Vector2.Length | src/lib/math/writeable.ts:14-16 | the length getter is always 2, the length of the buffer |
| Vectors2.Vector2.constructor | src/lib/math/vector2.ts:5-7 | a new buffer holding (x, y), with default (0, 0) |
| Vectors2.Vector2.One | src/lib/math/vector2.ts:9-11 | a new vector (1, 1) |
| Vectors2.Vector2.Set | src/lib/math/vector2.ts:13-16 | both components overwritten; returns the receiver |
| Vectors2.Vector2.Add | src/lib/math/vector2.ts:18-21 | self becomes the component-wise sum of the old values, even when other is self; other is unchanged when it is a different vector; returns the receiver |
| Vectors2.Vector2.SetX | src/lib/math/vector2.ts:23-33 | x reads back the value written; y is unchanged |
| Vectors2.Vector2.SetY | src/lib/math/vector2.ts:27-37 | y reads back the value written; x is unchanged |
| Vectors3.Vector3.Length | src/lib/math/writeable.ts:14-16 | the length getter is always 3 |
| Vectors3.Vector3.constructor | src/lib/math/vector3.ts:9-11 | a new buffer holding (x, y, z), with default (0, 0, 0) |
| Vectors3.Vector3.Up | src/lib/math/vector3.ts:13-15 | a new vector (0, 1, 0) |
| Vectors3.Vector3.Zero | src/lib/math/vector3.ts:17-19 | a new vector (0, 0, 0) |
| Vectors3.Vector3.SubtractVectors | src/lib/math/vector3.ts:21-24 | self becomes a − b of the old values; returns the receiver |
| Vectors3.Vector3.CrossVectors | src/lib/math/vector3.ts:26-29 | self becomes a × b, which has zero dot product with both a and b; returns the receiver |
| Vectors3.Vector3.Subtract | src/lib/math/vector3.ts:31-34 | self becomes self − other; returns the receiver |
| Vectors3.Vector3.Normalize | src/lib/math/vector3.ts:36-39 | self becomes vec3.normalize of its old value; under NormalizeLaw a non-zero vector becomes a unit vector parallel to the old value and on its side |
| Vectors3.Vector3.Set | src/lib/math/vector3.ts:41-44 | all three components overwritten; returns the receiver |
| Vectors3.Vector3.Add | src/lib/math/vector3.ts:46-49 | self becomes self + other; returns the receiver |
| Vectors3.Vector3.SetX | src/lib/math/vector3.ts:51-61 | x reads back the value written; y and z are unchanged |
| Vectors3.Vector3.SetY | src/lib/math/vector3.ts:55-65 | y reads back the value written; x and z are unchanged |
| Vectors3.Vector3.SetZ | src/lib/math/vector3.ts:67-73 | z reads back the value written; x and y are unchanged |
| GlMatrix.CrossIsOrthogonal | src/lib/math/vector3.ts:26-29 | a × b is orthogonal to a and to b |
| GlMatrix.TripleProduct | src/lib/math/matrix4.ts:55-57 | a × (b × c) = (a·c) b − (a·b) c, the step showing that lookAt's axes are right-handed |
| GlMatrix.Lagrange | src/lib/math/matrix4.ts:56-57 | \|a × b\|² = \|a\|²\|b\|² − (a·b)², so the cross product of orthogonal unit vectors is a unit vector |
| GlMatrix.NormalizeScaledUnit | src/lib/math/vector3.ts:36-39 | under NormalizeLaw, a positive multiple of a unit vector normalizes to that unit vector |
| GlMatrix.Mul3Composes | src/lib/math/matrix3.ts:35-53 | applying a * b to a point is applying b and then a, so composing on the right applies the new transform first |
| GlMatrix.Mul3Identity | src/lib/math/matrix3.ts:30-38 | the identity is a two-sided unit of the 3x3 product |
| GlMatrix.Mul4Identity | src/lib/math/matrix4.ts:34-42 | the identity is a two-sided unit of the 4x4 product |
| GlMatrix.Copy | src/lib/math/matrix3.ts:55-58 | every entry of the buffer is overwritten with the given values, which is how a gl-matrix routine writes its out argument |
| Colors.Color.Length | src/lib/math/color.ts:5-10 | the buffer always has length 4 |
| Colors.Color.constructor | src/lib/math/color.ts:4-11 | a new buffer holding (r, g, b, a), by default opaque black (0, 0, 0, 1) |
| Colors.Color.SetR | src/lib/math/color.ts:13-19 | index 0 becomes the value, unclamped; g, b and a are unchanged |
| Colors.Color.SetG | src/lib/math/color.ts:21-27 | index 1 becomes the value, unclamped; r, b and a are unchanged |
| Colors.Color.SetB | src/lib/math/color.ts:29-35 | index 2 becomes the value, unclamped; r, g and a are unchanged |
| Colors.Color.SetA | src/lib/math/color.ts:37-43 | index 3 becomes the value, unclamped; r, g and b are unchanged |
| Colors.Color.CopyToArray | src/lib/math/color.ts:3-11 | the inherited copyToArray puts r, g, b, a at offset to offset + 3, in that order, when they fit |
| Spaces.AxesIndependent | src/lib/math/space2.ts:17-18 | the new x depends only on the X ranges and the old x, the new y only on the Y ranges and the old y |
| Spaces.CornersMap | src/lib/math/space2.ts:17-18 | the min corner maps to the target's min corner and the max corner to its max corner |
| Spaces.TransformRoundTrip | src/lib/math/space2.ts:16-19 | transforming A→B and then B→A returns the point when both spaces are non-degenerate |
| Spaces.TransformExample | src/lib/math/space2.ts:16-19 | (100, 50) in a 200 x 100 space is (0.5, 0.5) in the unit space |
| Spaces.Space2.constructor | src/lib/math/space2.ts:9-14 | the arguments are taken as (maxX, maxY, minX = 0, minY = 0) |
| Spaces.Space2.Transform | src/lib/math/space2.ts:16-20 | out (by default vec2) receives the remapped point computed from the old values, so aliasing out with vec2 is safe; returns out; neither space changes |
| Matrices3.Matrix3.Length | src/lib/math/writeable.ts:14-16 | the length getter is always 9 |
| Matrices3.Matrix3.constructor | src/lib/math/matrix3.ts:8-10 | the default buffer is the identity |
| Matrices3.Matrix3.Wrap | src/lib/math/matrix3.ts:8-10 | a caller's 9-element buffer is adopted as the matrix's own, not copied |
| Matrices3.Matrix3.Ortho | src/lib/math/matrix3.ts:12-14 | a no-op: the matrix is unchanged |
| Matrices3.Matrix3.Inverse | src/lib/math/matrix3.ts:16-23 | returns whether mat3.invert succeeded; on success the matrix is the inverse, otherwise unchanged; under InvertLaw3 it succeeds exactly when the determinant is non-zero and then old × new = identity |
| Matrices3.Matrix3.Projection | src/lib/math/matrix3.ts:25-28 | the matrix becomes projection(width, height) whatever it held; returns the receiver |
| Matrices3.Matrix3.Identity | src/lib/math/matrix3.ts:30-33 | the matrix becomes the identity whatever it held; returns the receiver |
| Matrices3.Matrix3.Multiply | src/lib/math/matrix3.ts:35-38 | self becomes old self × old other, even when other is self; other is unchanged when distinct; returns the receiver |
| Matrices3.Matrix3.Translate | src/lib/math/matrix3.ts:40-43 | self becomes self × T(offset); returns the receiver |
| Matrices3.Matrix3.Scale | src/lib/math/matrix3.ts:45-48 | self becomes self × S(scale); returns the receiver |
| Matrices3.Matrix3.Rotate | src/lib/math/matrix3.ts:50-53 | self becomes self × R(sin radians, cos radians); returns the receiver |
| Matrices3.Matrix3.CopyFrom | src/lib/math/matrix3.ts:55-58 | self becomes equal to src entry by entry, while keeping its own buffer; src is unchanged |
| Matrices3.TranslateThenScaleExample | src/lib/math/matrix3.ts:40-48 | identity·translate((10, 0))·scale((2, 1)) takes (1, 0) to (12, 0): the scale applies first |
| Matrices3.IdentityInverse | src/lib/math/matrix3.ts:16-21 | under InvertLaw3 the identity inverts to itself |
| Matrices3.ZeroColumnNotInvertible | src/lib/math/matrix3.ts:16-23 | under InvertLaw3 a matrix with a zero column has no inverse, so inverse() returns false |
| Matrices4.LookAtMatrixColumns | src/lib/math/matrix4.ts:55-77 | entries 0–2 are x = normalize(up × z), 4–6 are y = normalize(z × x), 8–10 are z = normalize(eye − target), 12–14 are the camera position, entries 3, 7 and 11 are 0 and entry 15 is 1 |
| Matrices4.LookAtOrthonormal | src/lib/math/matrix4.ts:55-72 | under NormalizeLaw, with eye ≠ target and up not along the line of sight, the three axes are unit length, pairwise orthogonal and right-handed (x × y = z) |
| Matrices4.LookAtExample | src/lib/math/matrix4.ts:54-80 | eye (0, 0, 5), target at the origin and up (0, 1, 0) give the columns x = (1, 0, 0), y = (0, 1, 0), z = (0, 0, 1) |
| Matrices4.Matrix4.Length | src/lib/math/writeable.ts:14-16 | the length getter is always 16 |
| Matrices4.Matrix4.constructor | src/lib/math/matrix4.ts:10-12 | the default buffer is the identity |
| Matrices4.Matrix4.Wrap | src/lib/math/matrix4.ts:10-12 | a caller's 16-element buffer is adopted as the matrix's own, not copied |
| Matrices4.Matrix4.SetPosition | src/lib/math/matrix4.ts:14-17 | the matrix becomes the same translation fromTranslation writes |
| Matrices4.Matrix4.FromTranslation | src/lib/math/matrix4.ts:19-22 | the matrix becomes the translation by the vector whatever it held; returns the receiver |
| Matrices4.Matrix4.Perspective | src/lib/math/matrix4.ts:24-27 | the matrix becomes mat4.perspective of the arguments; returns the receiver |
| Matrices4.Matrix4.Ortho | src/lib/math/matrix4.ts:29-32 | the matrix becomes mat4.ortho of the arguments; returns the receiver |
| Matrices4.Matrix4.Translate | src/lib/math/matrix4.ts:34-37 | self becomes self × T(offset); returns the receiver |
| Matrices4.Matrix4.Scale | src/lib/math/matrix4.ts:39-42 | self becomes self × S(scale); returns the receiver |
| Matrices4.Matrix4.Inverse | src/lib/math/matrix4.ts:44-47 | out (by default the receiver) becomes the inverse when mat4.invert succeeds and keeps its contents when it fails; returns out; the receiver is unchanged when out is another matrix |
| Matrices4.Matrix4.MultiplyMatrices | src/lib/math/matrix4.ts:49-52 | self becomes a × b of the old values; returns the receiver |
| Matrices4.Matrix4.LookAt | src/lib/math/matrix4.ts:54-80 | all 16 entries of out are written with LookAtMatrix of the old camera position, target and up, whatever out held; returns out; the receiver is unchanged when out is another matrix |
| Matrices4.Matrix4.CreateOrtho | src/lib/math/matrix4.ts:82-84 | a fresh matrix holding what ortho writes |
| Matrices4.Matrix4.CreatePerspective | src/lib/math/matrix4.ts:86-88 | a fresh matrix holding what perspective writes |
| Matrices4.Matrix4.CreateFromTranslation | src/lib/math/matrix4.ts:90-92 | a fresh matrix holding what fromTranslation writes |
| Matrices4.TranslateIdentity | src/lib/math/matrix4.ts:19-37 | translating the identity gives the same matrix as fromTranslation |
| Viewports.CameraOrder | src/lib/math/viewport.ts:24-27 | the camera matrix identity·T(position)·R(rotation)·S(scale) scales a point first, then rotates it, then moves it |
| Viewports.UnrotatedCamera | src/lib/math/viewport.ts:24-27 | with rotation 0, the camera takes (x, y) to (scale.x·x + position.x, scale.y·y + position.y) |
| Viewports.DefaultViewProjection | src/lib/math/viewport.ts:10-30 | with the default scale, position and rotation the camera is the identity, so the result is the plain projection of the screen |
| Viewports.Viewport.constructor | src/lib/math/viewport.ts:10-20 | scale (1, 1), position (0, 0), rotation 0 and screenSize (w, h); both scratch matrices start as the identity in distinct buffers |
| Viewports.Viewport.ViewProjectionMatrix | src/lib/math/viewport.ts:22-30 | returns the internal projection matrix, which then holds projection(screenSize) × identity·T(position)·R(rotation)·S(scale); the camera matrix holds the camera part; scale, position and screenSize are unchanged |
| Viewports.CallTwice | src/lib/math/viewport.ts:22-30 | two calls with nothing changed in between return the same object, holding an equal matrix |
| Viewports.MoveAndRecompute | src/lib/math/viewport.ts:22-30 | a matrix kept from an earlier call is overwritten by the next call: after the position moves, it holds the new view-projection |
| Viewports.DefaultMatrix | src/lib/math/viewport.ts:10-30 | a new w x h viewport's first matrix is projection(w, h) |

## Left out

- Floating point. The model computes over exact reals, so IEEE rounding is not modelled. Neither are NaN or Infinity from a zero-width range or from normalizing a zero vector, nor the Float32 rounding of `Color` and of the gl-matrix buffers.
- Zero-width ranges. `numberInRange` and `Space2.transform` divide by the width of the source range. The model requires that width to be non-zero instead of producing the source's Infinity or NaN.
- The formulas of `vec3.normalize`, `mat3.projection`, `mat3.invert`, `mat4.perspective`, `mat4.ortho`, `mat4.invert`, `Math.sin` and `Math.cos`. gl-matrix is not part of this model; these are the fields of `Lib`, constrained only by `NormalizeLaw`, `InvertLaw3` and `TrigAtZero`.
- Writeable.CopyToArray: says nothing about the result when the target is the structure's own buffer. The source's overlapping self-copy is not specified.
- Writeable.CopyToArray: a plain JavaScript array as target would grow when written past its end. The model has a fixed-length target and drops such writes, as a typed array does. Negative and fractional offsets are outside `nat` and not modelled.
- The `array` getter and the reassignment of `_array`. Every gl-matrix routine the classes call returns its `out` argument, so `_array` is only ever reassigned to itself. The model keeps the buffer in a `const data` field.
- Vectors3.Vector3.Normalize: what normalize does to the zero vector is left to `Lib`; only non-zero inputs are constrained.
- The module-level scratch objects `invertMat` and `_tmp1` to `_tmp3` are locals in the model. They are allocation reuse and hold nothing between calls.
- `degreesToRadians` from `./util` is not part of this model. The viewport's default rotation is taken as 0.
- Renamed identifiers. The TypeScript parameters named `by` are `other` in `Matrix3.Multiply` and `offset` in the two `Translate` methods, because `by` is a Dafny keyword. The static `ortho`, `perspective` and `fromTranslation` of `Matrix4` are `CreateOrtho`, `CreatePerspective` and `CreateFromTranslation`, because Dafny does not let a static method share a name with an instance method.
- The `IWriteableStructure` interface and `ArrayLike` type of `types.ts`. They are declarations only; `array<real>` stands for them.
- `src/test.ts`: WebGL context creation, shader compilation, buffer upload and drawing. This is GPU input/output with nothing to state.
