# Matrix4 and Vector3 of webgpu-101, in Dafny

The examples of webgpu-101 build every transformation they send to the GPU
with two small mutable classes:

- `Matrix4` (examples/src/matrix.ts) holds a 4x4 matrix as 16 numbers in
  row-major order. It offers setters that overwrite the matrix with a
  translation, a scaling, a rotation about one axis, a look-at view matrix or
  a perspective projection. `multiply` post-multiplies in place. The chainable
  `translate`, `scale`, `rotateX/Y/Z` and `lookAt` post-multiply by a fresh
  elementary matrix. `toWebGPUMatrix` serialises the matrix column by column.
  Every operation except the serialisation returns `this`.
- `Vector3` (examples/src/vector.ts) holds three numbers. Its `multiply`
  replaces the vector in place by its cross product with another vector.

The model keeps that shape:

- `Matrix.Matrix4` is a class. Every state-changing operation, when it
  succeeds, replaces its `data: array<real>` field by a freshly built array, as
  the source replaces its `number[]`. `Reverse` and `ToWebGPUMatrix` only read
  the matrix, and a refused `SetPerspective` keeps the old array.
- `Vectors.Vector3` is a class with three `real` fields.
- Every method is proved against pure specification functions:
  - in module `MatrixSpec`: `Identity`, `Product`, `Transposed`,
    `Translation`, `Scaling`, `RotationXBy/YBy/ZBy`, `LookAtRotation`,
    `LookAtView`, `PerspectiveError` and `Perspective`;
  - in module `Vectors`: `Cross` and `Dot`.
- Lemmas about those functions state what the operations mean. Examples:
  - the identity is neutral;
  - `(a * b) p == a (b p)`;
  - serialising twice is the identity;
  - two translations compose into one;
  - the product is associative;
  - a rotation times its transpose is `c^2 + s^2` on the rotated plane;
  - the view matrix sends the eye to the origin and the target onto the
    viewing axis;
  - the projection sends the near and far points to depth `-1` and `+1`;
  - the cross product is orthogonal to both operands and anticommutes.

Numbers are modelled as mathematical reals. The host's `Math.sin`, `Math.cos`
and `Math.sqrt` are a parameter `math: MathLib`. No property depends on what
those functions compute. `Math.PI` is the real constant `3.141592653589793`.

The projection follows the source: it maps the near plane to depth `-1` and
the far plane to depth `+1` after the perspective divide. This is the OpenGL
convention of the library the code was adapted from. WebGPU clips depth to
`[0, 1]`, but the model states and proves what the code computes.

## Model

| member | source | states |
|---|---|---|
| Matrix.Matrix4.constructor | examples/src/matrix.ts:7-14 | a new matrix holds the identity |
| Matrix.Matrix4.Reverse | examples/src/matrix.ts:16-23 | the loop reads slot `i % 4 * 4 + i / 4` for i = 0..15, which is the column-major serialisation of the current matrix; `data` is not changed |
| Matrix.Matrix4.SetTranslate | examples/src/matrix.ts:25-33 | the matrix becomes the translation by (x, y, z); returns this |
| Matrix.Matrix4.SetScale | examples/src/matrix.ts:35-43 | the matrix becomes the scaling by (x, y, z); returns this |
| Matrix.Matrix4.SetRotateZ | examples/src/matrix.ts:45-56 | the matrix becomes the rotation about z by cos/sin of `PI * angle / 180`; returns this |
| Matrix.Matrix4.SetRotateX | examples/src/matrix.ts:58-69 | the matrix becomes the rotation about x by that angle; returns this |
| Matrix.Matrix4.SetRotateY | examples/src/matrix.ts:71-82 | the matrix becomes the rotation about y by that angle; returns this |
| Matrix.Matrix4.SetLookAtRotation | examples/src/matrix.ts:86-113 | the normalised forward f, the normalised side f x up and the true up side x f, computed step by step, fill rows side, up, -f |
| Matrix.Matrix4.SetLookAt | examples/src/matrix.ts:85-116 | the matrix becomes the rotation times a translation by -eye (the view matrix); returns this |
| Matrix.Matrix4.SetPerspective | examples/src/matrix.ts:119-146 | fails exactly when the arguments are refused, with the error the source throws first ("null frustum", "near <= 0", "far <= 0", or "null frustum" for a zero sine), and then leaves the matrix unchanged; otherwise the matrix becomes the perspective projection and the result is this |
| Matrix.Matrix4.Multiply | examples/src/matrix.ts:148-160 | the matrix becomes old(this) * old(m), each entry being row i times column j; m may be this; when it is not, m is unchanged; returns this |
| Matrix.Matrix4.ToWebGPUMatrix | examples/src/matrix.ts:162-164 | the column-major serialisation of the matrix |
| Matrix.Matrix4.Translate | examples/src/matrix.ts:166-168 | this := this * Translation(x, y, z); returns this |
| Matrix.Matrix4.Scale | examples/src/matrix.ts:170-172 | this := this * Scaling(x, y, z); returns this |
| Matrix.Matrix4.RotateZ | examples/src/matrix.ts:174-176 | this := this * RotationZ(angle); returns this |
| Matrix.Matrix4.RotateY | examples/src/matrix.ts:178-180 | this := this * RotationY(angle); returns this |
| Matrix.Matrix4.RotateX | examples/src/matrix.ts:182-184 | this := this * RotationX(angle); returns this |
| Matrix.Matrix4.LookAt | examples/src/matrix.ts:186-188 | this := this * LookAtView(eye, target, up); returns this |
| Matrix.TriangleModelView | examples/src/chapter-2.ts:135 | the chain `new Matrix4().translate(-0.5, 0.5, 0).scale(0.5, 0.5, 1).rotateZ(a).toWebGPUMatrix()` serialises T * S * R |
| MatrixSpec.Identity | examples/src/matrix.ts:8-13 | the initial matrix has ones on the diagonal and zeros elsewhere |
| MatrixSpec.Product | examples/src/matrix.ts:150-157 | entry (i, j) of a * b is the four-term sum of row i of a times column j of b, in the source's order |
| MatrixSpec.ProductIsRowDotColumn | examples/src/matrix.ts:150-157 | that entry equals the dot product of row i of a and column j of b, defined recursively on sequences |
| MatrixSpec.ProductIdentityLeft | examples/src/matrix.ts:148-160 | identity * a == a |
| MatrixSpec.ProductIdentityRight | examples/src/matrix.ts:148-160 | a * identity == a (so `new Matrix4().translate(..)` is the translation) |
| MatrixSpec.ProductAssociative | examples/src/matrix.ts:148-160 | (a * b) * c == a * (b * c), so a chain of in-place multiplications does not depend on grouping |
| MatrixSpec.ProductAssociativeAt | examples/src/matrix.ts:150-157 | entry (i, j) of (a * b) * c equals entry (i, j) of a * (b * c), for any matrices with those entries |
| MatrixSpec.CellAssociative | examples/src/matrix.ts:150-157 | row i of a times b, times column j of c, equals row i of a times (b times column j of c) |
| MatrixSpec.ApplyProduct | examples/src/matrix.ts:148-160 | (a * b) p == a (b p): in a chain the right-most factor acts on a point first |
| MatrixSpec.ApplyIdentity | examples/src/matrix.ts:7-14 | the identity leaves every point unchanged |
| MatrixSpec.TransposedIndex | examples/src/matrix.ts:16-23 | slot i of the serialisation holds entry `i % 4 * 4 + i / 4` |
| MatrixSpec.Transposed | examples/src/matrix.ts:16-23 | entry (i, j) of the matrix is entry (j, i) of its serialisation |
| MatrixSpec.TransposedInvolution | examples/src/matrix.ts:16-23 | serialising twice gives back the original entries |
| MatrixSpec.TransposedIdentity | examples/src/matrix.ts:16-23 | the identity serialises to itself |
| MatrixSpec.TransposedProduct | examples/src/matrix.ts:16-23 | serialising a * b gives the product of the serialised b and a |
| MatrixSpec.Translation | examples/src/matrix.ts:25-33 | slots 3, 7, 11 hold x, y, z and every other slot is that of the identity |
| MatrixSpec.TranslationMovesPoint | examples/src/matrix.ts:25-33 | the translation moves every point (v, 1) to (v + (x, y, z), 1) |
| MatrixSpec.TranslationCompose | examples/src/matrix.ts:25-33 | two translations compose into the translation by the sum of the offsets |
| MatrixSpec.Scaling | examples/src/matrix.ts:35-43 | the diagonal is x, y, z, 1 and every other entry is zero |
| MatrixSpec.ScalingScalesPoint | examples/src/matrix.ts:35-43 | the scaling multiplies each coordinate of a point by its factor |
| MatrixSpec.ScalingCompose | examples/src/matrix.ts:35-43 | two scalings compose into the scaling by the products of the factors |
| MatrixSpec.RotationZBy | examples/src/matrix.ts:49-54 | slots 0, 1, 4, 5 hold c, -s, s, c; rows and columns 2 and 3 are those of the identity |
| MatrixSpec.RotationXBy | examples/src/matrix.ts:62-67 | slots 5, 6, 9, 10 hold c, -s, s, c; rows and columns 0 and 3 are those of the identity |
| MatrixSpec.RotationYBy | examples/src/matrix.ts:75-80 | slots 0, 2, 8, 10 hold c, s, -s, c; rows and columns 1 and 3 are those of the identity |
| MatrixSpec.RotationZ | examples/src/matrix.ts:45-56 | with c and s the host's cos and sin of `PI * angle / 180`, slots 0 and 5 hold c, slot 4 holds s and slot 1 holds -s |
| MatrixSpec.RotationX | examples/src/matrix.ts:58-69 | slots 5 and 10 hold c, slot 9 holds s and slot 6 holds -s |
| MatrixSpec.RotationY | examples/src/matrix.ts:71-82 | slots 0 and 10 hold c, slot 2 holds s and slot 8 holds -s |
| MatrixSpec.RotationTransposeNegatesSine | examples/src/matrix.ts:45-82 | transposing a rotation about any axis is the rotation with the sine negated |
| MatrixSpec.RotationZUndo | examples/src/matrix.ts:45-56 | the product of R(c, s) and R(c, -s) scales the xy plane by c^2 + s^2 |
| MatrixSpec.RotationXUndo | examples/src/matrix.ts:58-69 | the same for the yz plane |
| MatrixSpec.RotationYUndo | examples/src/matrix.ts:71-82 | the same for the xz plane |
| MatrixSpec.RotationZOrthogonal | examples/src/matrix.ts:45-56 | R * transpose(R) is the identity scaled by c^2 + s^2 on the rotated plane, so it is orthonormal exactly when c^2 + s^2 == 1 |
| MatrixSpec.RotationXOrthogonal | examples/src/matrix.ts:58-69 | the same for rotations about x |
| MatrixSpec.RotationYOrthogonal | examples/src/matrix.ts:71-82 | the same for rotations about y |
| MatrixSpec.OrthogonalToNormalized | examples/src/matrix.ts:90-93 | normalising by a non-zero factor keeps orthogonality: w is orthogonal to v when it is orthogonal to v normalised |
| MatrixSpec.LookAtBasisOrthogonal | examples/src/matrix.ts:86-106 | side, true up and forward are pairwise orthogonal, whatever the host's sqrt returns |
| MatrixSpec.LookAtRotation | examples/src/matrix.ts:86-113 | the rotation part of the view matrix: its fourth column is (0, 0, 0) and its last row is (0, 0, 0, 1) |
| MatrixSpec.LookAtView | examples/src/matrix.ts:85-116 | the view matrix (rotation times translation by -eye) keeps the last row (0, 0, 0, 1) |
| MatrixSpec.LookAtRotationApply | examples/src/matrix.ts:108-113 | the rotation block maps a point to its coordinates along side, true up and -forward |
| MatrixSpec.LookAtEyeToOrigin | examples/src/matrix.ts:85-116 | the view matrix sends the eye to the origin |
| MatrixSpec.LookAtTargetOnAxis | examples/src/matrix.ts:85-116 | the view matrix sends the target onto the camera's z axis (x == y == 0, w == 1) |
| MatrixSpec.PerspectiveError | examples/src/matrix.ts:120-134 | for each possible outcome, the exact conditions under which the checks, in the source's order, produce it: no error, "null frustum", "near <= 0" or "far <= 0" |
| MatrixSpec.Perspective | examples/src/matrix.ts:136-144 | slot 5 is cot(fov / 2), slot 0 is that over aspect, slots 10 and 11 are -(far + near) / (far - near) and -2 near far / (far - near), the last row is (0, 0, -1, 0), and the other slots of the first two rows are zero |
| MatrixSpec.PerspectiveDepthRange | examples/src/matrix.ts:136-144 | the point at distance near in front of the camera goes to (0, 0, -near, near), so its depth is -1, and the point at distance far goes to (0, 0, far, far), so its depth is +1 |
| Vectors.Vector3.constructor | examples/src/vector.ts:6-10 | the new vector holds (x, y, z) |
| Vectors.Vector3.Multiply | examples/src/vector.ts:12-21 | the vector becomes old(this) x old(v), with all three components computed from the old values; v is unchanged unless it is this; returns this |
| Vectors.Vector3.ToArray | examples/src/vector.ts:23-25 | the components in the order x, y, z |
| Vectors.CrossOrthogonalLeft | examples/src/vector.ts:13-15 | the cross product is orthogonal to its left operand |
| Vectors.CrossOrthogonalRight | examples/src/vector.ts:13-15 | the cross product is orthogonal to its right operand |
| Vectors.CrossAnticommutes | examples/src/vector.ts:13-15 | b x a == -(a x b) |
| Vectors.Cross | examples/src/vector.ts:13-15 | a x a is the zero vector |
| Vectors.MultiplySelf | examples/src/vector.ts:12-21 | the aliased call `a.multiply(a)` leaves `a` at zero |
| Vectors.CrossCopies | examples/src/vector.ts:12-21 | multiplying copies of u by w, and of w by u, gives opposite vectors |
| Vectors.MultiplyOrthogonal | examples/src/vector.ts:12-21 | after `u.multiply(v)`, u is orthogonal to its old value and to v |

## Left out

- Matrix.Matrix4.ToWebGPUMatrix: the model returns the real entries. The source rounds them into a Float32Array, and that rounding is not modelled.
- Floating-point arithmetic in general: all numbers are mathematical reals. There is no rounding, no NaN and no Infinity.
- Matrix.Matrix4.SetLookAt: requires `LookAtDefined`. The source divides by `sqrt` of the squared length of target - eye and of forward x up without checking them. In JavaScript a zero there yields Infinity or NaN entries, which reals cannot represent.
- Matrix.Matrix4.LookAt: the same precondition, for the same reason.
- `Math.sin`, `Math.cos` and `Math.sqrt`: these host functions are a parameter `math`. The model assumes nothing about them, so it does not prove facts such as sin^2 + cos^2 == 1, which would make the rotations orthonormal.
- The thrown `Error` objects of setPerspective: they are the three constructors of `FrustumError`, one per distinct message. The exception becomes a `Failure` result.
- `Matrix.Matrix4.SetLookAtRotation`: this is lines 86-113 of setLookAt as a method of its own, so that its proof is separate from the final `translate`. The source has one method.
- `setInverseOf`, `transpose` and `loadObj`: the chapters call them, but they are not part of this model, because matrix.ts and vector.ts do not define them.
- The chapters, utils.ts and main.js: they create GPU devices, buffers, pipelines and animation loops, and load files. Only the matrix chain of chapter-2.ts:135 is modelled, as `Matrix.TriangleModelView`.
- The privacy of `data`, `x`, `y` and `z`: Dafny fields are public, and nothing here relies on access control.
