# Exact-arithmetic core of the cloudstudyJ/Math library, in Dafny

This project models the header-only C++ library's small linear-algebra value
types. The element type `T` is instantiated with the unbounded Dafny `int`:

- `Math` (math.hpp): integer `abs`, `square`, the `isZero` test that guards
  the vector and matrix divisions, and the `EPSILON` thresholds of its floating branch.
  `Math.TruncDiv` is C++ integer `/`, which truncates toward zero; Dafny's
  own `/` is Euclidean.
- `Vector2`, `Vector3` and `Vector4` (vector/vec2.hpp, vector/vec3.hpp,
  vector/vec4.hpp): fixed-size vectors.
- `Matrix4` (matrix/mat4.hpp): the 4x4 matrix of four `Vec4` rows.
- `ComplexNumbers` (complex.hpp): complex numbers with an integer element
  type.
- `ComplexField` (complex.hpp): the floating instantiation idealised as
  exact reals. It is used only for the division law `(a / b) * b == a`.

Each type has two halves:

- **The value.** A datatype (`V2`, `V3`, `V4`, `M4`, `Cx`). The pure C++
  members become functions on it: the binary operators, `dot`, `cross`,
  `lengthSquare`, `trace`, `identity`, `translate` and `conjugate`.
- **The object.** A class (`Vec2`, `Vec3`, `Vec4`, `Mat4`, `Complex`) whose
  fields the source updates in place. The constructors build it; among
  them only the move constructor has a `modifies` clause, for its source.
  These members are methods with `modifies` clauses:
  - copy and move assignment;
  - the partial setters `operator()`;
  - writes through `operator[]`;
  - the compound operators;
  - the complex setters.

  Each method's `ensures` ties the new field values to the value functions
  applied to the old state.

The matrix product and the transpose fill a local matrix in nested `for`
loops in the source. They are the methods `Matrix4.Multiply` and
`Matrix4.Transpose`, which are proved by loop invariants against the
reference functions `Matrix4.Product` and `Matrix4.Transposed`.

The source places the translation of `translate(v)` in column `w` of rows 0
to 2 (`t[row].w = v.…`). The model follows the code. A point with `w = 1` is
moved by multiplying each row into it with `Vector4.Dot`.

## Model

| member | source | states |
|---|---|---|
| Math.Epsilon | math.hpp:20 | the isZero threshold is 1e-6 for `float` and 1e-15 otherwise, and positive |
| Math.Abs | math.hpp:48-52 | signed: result >= 0 and equal to `val` or `-val`; unsigned (never negative): result is `val` |
| Math.AbsIdempotent | math.hpp:48-52 | `abs(abs(x)) == abs(x)` on both integer branches |
| Math.Magnitude | math.hpp:35-47 | for float and double, the magnitude a cleared sign bit yields is >= 0 and is `f` or `-f` |
| Math.Square | math.hpp:55 | `val * val` is >= 0, is zero exactly when `val` is, and equals `abs(val)²` |
| Math.IsZero | math.hpp:57-63 | isZero on an integer holds iff it is 0; on a floating value iff it lies within EPSILON of 0 |
| Math.IsZeroInteger | math.hpp:62 | on integers isZero holds iff the value is 0 |
| Math.IsZeroFloating | math.hpp:58-63 | on floating values isZero holds iff `-EPSILON <= f <= EPSILON`; true at 0 and at the threshold, false above it |
| Math.TruncDiv | vector/vec2.hpp:182-183 | C++ integer `/`: the remainder is smaller than the divisor in magnitude and is zero or has the sign of the dividend |
| Math.TruncDivExact | vector/vec2.hpp:182-183 | `(k * d) / d == k` for every nonzero `d` under truncating division |
| Vector2.GetWith | vector/vec2.hpp:137-154 | a write through `[idx]` (idx < 2; 0 is x, 1 is y) is read back at idx and leaves the other component |
| Vector2.LengthSquare | vector/vec2.hpp:225 | `x² + y²` is >= 0 and is zero only for the zero vector |
| Vector2.LengthSquareIsSelfDot | vector/vec2.hpp:219-225 | `lengthSquare() == dot(self)` |
| Vector2.Add | vector/vec2.hpp:187-193 | `+` adds component by component, and subtracting the second operand again restores the first |
| Vector2.Sub | vector/vec2.hpp:194-200 | `-` subtracts component by component |
| Vector2.Scale | vector/vec2.hpp:201-207 | `* val` multiplies every component by `val` |
| Vector2.Div | vector/vec2.hpp:208-216 | `/ val` requires `!isZero(val)` and divides every component with C++ truncating division |
| Vector2.Dot | vector/vec2.hpp:219 | `v.dot(v)` is never negative and is zero only for the zero vector |
| Vector2.Cross | vector/vec2.hpp:221 | `v.cross(v) == 0` |
| Vector2.AddSubCancel | vector/vec2.hpp:187-200 | `(v + w) - w == v` |
| Vector2.ScaleOne | vector/vec2.hpp:201-207 | `v * 1 == v` |
| Vector2.DivUndoesScale | vector/vec2.hpp:201-216 | `(v * c) / c == v` for nonzero c |
| Vector2.DotSymmetric | vector/vec2.hpp:219 | `x*ox + y*oy` is symmetric |
| Vector2.CrossAntisymmetric | vector/vec2.hpp:221 | `x*oy - y*ox` is antisymmetric and `v.cross(v) == 0` |
| Vector2.Vec2.constructor | vector/vec2.hpp:72 | default construction gives (0, 0) |
| Vector2.Vec2.OfX | vector/vec2.hpp:83 | one-argument construction sets x and leaves y at zero |
| Vector2.Vec2.OfXY | vector/vec2.hpp:85 | two-argument construction sets both components |
| Vector2.Vec2.CopyOf | vector/vec2.hpp:73 | the copy has the source's value |
| Vector2.Vec2.MoveFrom | vector/vec2.hpp:74 | the new vector has the source's old value and the source is (0, 0) |
| Vector2.Vec2.Assign | vector/vec2.hpp:87-92 | copy assignment takes the source's value and leaves the source unchanged |
| Vector2.Vec2.MoveAssign | vector/vec2.hpp:93-101 | move assignment takes the source's old value (when distinct) and leaves the source at (0, 0) |
| Vector2.Vec2.SetFrom | vector/vec2.hpp:122 | `operator()(Vec)` acts as copy assignment |
| Vector2.Vec2.SetX | vector/vec2.hpp:124-128 | sets x, leaves y |
| Vector2.Vec2.SetXY | vector/vec2.hpp:130-135 | sets x and y |
| Vector2.Vec2.Put | vector/vec2.hpp:137-145 | a write through `[idx]` changes that component only |
| Vector2.Vec2.AddAssign | vector/vec2.hpp:156-162 | `+=` leaves the vector equal to old value `+` other |
| Vector2.Vec2.SubAssign | vector/vec2.hpp:163-169 | `-=` leaves the vector equal to old value `-` other |
| Vector2.Vec2.ScaleAssign | vector/vec2.hpp:170-176 | `*=` leaves the vector equal to old value `*` val |
| Vector2.Vec2.DivAssign | vector/vec2.hpp:177-185 | `/=` requires `!isZero(val)` and leaves old value `/` val |
| Vector3.GetWith | vector/vec3.hpp:166-185 | a write through `[idx]` (idx < 3; 0, 1, 2 are x, y, z) is read back at idx and leaves the others |
| Vector3.LengthSquare | vector/vec3.hpp:276-282 | `x² + y² + z²` is >= 0 and is zero only for the zero vector |
| Vector3.LengthSquareIsSelfDot | vector/vec3.hpp:257-282 | `lengthSquare() == dot(self)` |
| Vector3.Add | vector/vec3.hpp:222-229 | `+` adds component by component, and subtracting the second operand again restores the first |
| Vector3.Sub | vector/vec3.hpp:230-237 | `-` subtracts component by component |
| Vector3.Scale | vector/vec3.hpp:238-245 | `* val` multiplies every component by `val` |
| Vector3.Div | vector/vec3.hpp:246-255 | `/ val` requires `!isZero(val)` and divides every component with C++ truncating division |
| Vector3.Dot | vector/vec3.hpp:257-264 | `v.dot(v)` is never negative and is zero only for the zero vector |
| Vector3.Cross | vector/vec3.hpp:265-272 | `v.cross(v)` is the zero vector |
| Vector3.AddSubCancel | vector/vec3.hpp:222-237 | `(v + w) - w == v` |
| Vector3.ScaleOne | vector/vec3.hpp:238-245 | `v * 1 == v` |
| Vector3.DivUndoesScale | vector/vec3.hpp:238-255 | `(v * c) / c == v` for nonzero c |
| Vector3.DotSymmetric | vector/vec3.hpp:257-264 | `dot` is symmetric |
| Vector3.CrossAnticommutative | vector/vec3.hpp:265-272 | `v.cross(w) == w.cross(v) * -1` and `v.cross(v)` is zero |
| Vector3.CrossOrthogonal | vector/vec3.hpp:257-272 | `v.dot(v.cross(w)) == 0` and `w.dot(v.cross(w)) == 0` |
| Vector3.CrossOfAxes | vector/vec3.hpp:265-272 | `(s,0,0) × (0,t,0) == (0,0,s*t)` |
| Vector3.CrossOfUnitVectors | vector/vec3.hpp:265-272 | `(1,0,0) × (0,1,0) == (0,0,1)` |
| Vector3.Vec3.constructor | vector/vec3.hpp:85 | default construction gives (0, 0, 0) |
| Vector3.Vec3.OfX | vector/vec3.hpp:96 | sets x; y and z stay zero |
| Vector3.Vec3.OfXY | vector/vec3.hpp:98 | sets x and y; z stays zero |
| Vector3.Vec3.OfXYZ | vector/vec3.hpp:100 | sets all three components |
| Vector3.Vec3.CopyOf | vector/vec3.hpp:86 | the copy has the source's value |
| Vector3.Vec3.MoveFrom | vector/vec3.hpp:87 | the new vector has the source's old value and the source is zero |
| Vector3.Vec3.Assign | vector/vec3.hpp:102-108 | copy assignment takes the source's value and leaves the source unchanged |
| Vector3.Vec3.MoveAssign | vector/vec3.hpp:109-119 | move assignment transfers x, y, z (when distinct) and zeroes the source |
| Vector3.Vec3.SetFrom | vector/vec3.hpp:143 | `operator()(Vec)` acts as copy assignment |
| Vector3.Vec3.SetX | vector/vec3.hpp:144-149 | sets x, leaves y and z |
| Vector3.Vec3.SetXY | vector/vec3.hpp:150-156 | sets x and y, leaves z |
| Vector3.Vec3.SetXYZ | vector/vec3.hpp:158-164 | sets x, y and z |
| Vector3.Vec3.Put | vector/vec3.hpp:166-175 | a write through `[idx]` changes that component only |
| Vector3.Vec3.AddAssign | vector/vec3.hpp:187-194 | `+=` leaves old value `+` other |
| Vector3.Vec3.SubAssign | vector/vec3.hpp:195-202 | `-=` leaves old value `-` other |
| Vector3.Vec3.ScaleAssign | vector/vec3.hpp:203-210 | `*=` leaves old value `*` val |
| Vector3.Vec3.DivAssign | vector/vec3.hpp:211-220 | `/=` requires `!isZero(val)` and divides every component |
| Vector4.GetWith | vector/vec4.hpp:182-203 | a write through `[idx]` (idx < 4; 0..3 are x, y, z, w) is read back at idx and leaves the others |
| Vector4.LengthSquare | vector/vec4.hpp:331-338 | the sum of four squares is >= 0 and is zero only for the zero vector |
| Vector4.LengthSquareIsSelfDot | vector/vec4.hpp:319-338 | `lengthSquare() == dot(self)` |
| Vector4.Add | vector/vec4.hpp:262-270 | `+` adds component by component, and subtracting the second operand again restores the first |
| Vector4.Sub | vector/vec4.hpp:271-279 | `-` subtracts component by component |
| Vector4.AddScalar | vector/vec4.hpp:280-288 | `+ val` adds the scalar to every component |
| Vector4.SubScalar | vector/vec4.hpp:289-297 | `- val` subtracts the scalar from every component |
| Vector4.Scale | vector/vec4.hpp:298-306 | `* val` multiplies every component by `val` |
| Vector4.Div | vector/vec4.hpp:307-317 | `/ val` requires `!isZero(val)` and divides every component with C++ truncating division |
| Vector4.Dot | vector/vec4.hpp:319-327 | `v.dot(v)` is never negative and is zero only for the zero vector |
| Vector4.AddSubCancel | vector/vec4.hpp:262-279 | `(v + u) - u == v` |
| Vector4.AddScalarSubScalarCancel | vector/vec4.hpp:280-297 | `(v + c) - c == v` for a scalar c |
| Vector4.ScaleOne | vector/vec4.hpp:298-306 | `v * 1 == v` |
| Vector4.DivUndoesScale | vector/vec4.hpp:298-317 | `(v * c) / c == v` for nonzero c |
| Vector4.DotSymmetric | vector/vec4.hpp:319-327 | the sum of four products is symmetric |
| Vector4.Vec4.constructor | vector/vec4.hpp:84 | default construction gives (0, 0, 0, 0) |
| Vector4.Vec4.OfX | vector/vec4.hpp:95 | sets x; the rest stay zero |
| Vector4.Vec4.OfXY | vector/vec4.hpp:97 | sets x and y; z and w stay zero |
| Vector4.Vec4.OfXYZ | vector/vec4.hpp:99 | sets x, y and z; w stays zero |
| Vector4.Vec4.OfXYZW | vector/vec4.hpp:101 | sets all four components |
| Vector4.Vec4.CopyOf | vector/vec4.hpp:85 | the copy has the source's value |
| Vector4.Vec4.MoveFrom | vector/vec4.hpp:86 | the new vector has the source's old value and the source is zero |
| Vector4.Vec4.Assign | vector/vec4.hpp:103-110 | copy assignment makes target equal source and leaves the source unchanged |
| Vector4.Vec4.MoveAssign | vector/vec4.hpp:111-123 | move assignment transfers the value (when distinct) and zeroes all four source components |
| Vector4.Vec4.SetFrom | vector/vec4.hpp:150 | `operator()(Vec)` acts as copy assignment |
| Vector4.Vec4.SetX | vector/vec4.hpp:151-156 | sets x, the rest unchanged |
| Vector4.Vec4.SetXY | vector/vec4.hpp:157-163 | sets x and y, the rest unchanged |
| Vector4.Vec4.SetXYZ | vector/vec4.hpp:164-171 | sets x, y and z, w unchanged |
| Vector4.Vec4.SetXYZW | vector/vec4.hpp:173-180 | sets all four components |
| Vector4.Vec4.Put | vector/vec4.hpp:182-192 | a write through `[idx]` changes that component only |
| Vector4.Vec4.AddAssign | vector/vec4.hpp:205-213 | `+=` leaves old value `+` other |
| Vector4.Vec4.SubAssign | vector/vec4.hpp:214-222 | `-=` leaves old value `-` other |
| Vector4.Vec4.AddScalarAssign | vector/vec4.hpp:223-231 | scalar `+=` adds val to every component |
| Vector4.Vec4.SubScalarAssign | vector/vec4.hpp:232-240 | scalar `-=` subtracts val from every component |
| Vector4.Vec4.ScaleAssign | vector/vec4.hpp:241-249 | `*=` scales every component |
| Vector4.Vec4.DivAssign | vector/vec4.hpp:250-260 | `/=` requires `!isZero(val)` and divides every component |
| Matrix4.AtWithAt | matrix/mat4.hpp:154-158 | a write through `m[row][col]` is read back there and changes no other entry |
| Matrix4.Add | matrix/mat4.hpp:222-230 | `+` adds the 16 entries pairwise |
| Matrix4.Sub | matrix/mat4.hpp:231-239 | `-` subtracts the 16 entries pairwise |
| Matrix4.AddScalar | matrix/mat4.hpp:257-265 | `+ val` adds the scalar to every entry |
| Matrix4.SubScalar | matrix/mat4.hpp:266-274 | `- val` subtracts the scalar from every entry |
| Matrix4.Scale | matrix/mat4.hpp:275-283 | `* val` multiplies every entry by `val` |
| Matrix4.DivScalar | matrix/mat4.hpp:284-292 | `/ val` requires `!isZero(val)` and divides every entry with C++ truncating division |
| Matrix4.AddSubCancel | matrix/mat4.hpp:222-239 | `(A + B) - B == A` |
| Matrix4.ScalarInverses | matrix/mat4.hpp:257-292 | scalar `-` undoes scalar `+`, and scalar `/` undoes scalar `*` for a nonzero scalar |
| Matrix4.Product | matrix/mat4.hpp:240-256 | entry (r, c) of `A * B` is row r of A times column c of B, summed over the four terms |
| Matrix4.ProductAt | matrix/mat4.hpp:240-256 | entry (r, c) of the product is `Σ_k A[r][k] * B[k][c]` |
| Matrix4.Multiply | matrix/mat4.hpp:240-256 | the triple loop, with its accumulator reset after each cell, returns exactly the row-by-column product |
| Matrix4.Trace | matrix/mat4.hpp:294-301 | `trace()` is the sum of the four diagonal entries |
| Matrix4.Transposed | matrix/mat4.hpp:302-311 | entry (r, c) of `transpose()` is entry (c, r) of the matrix |
| Matrix4.TransposedAt | matrix/mat4.hpp:302-311 | `transpose()[r][c] == m[c][r]` |
| Matrix4.Transpose | matrix/mat4.hpp:302-311 | the nested loop returns exactly the transpose |
| Matrix4.TransposeInvolution | matrix/mat4.hpp:294-311 | transposing twice gives back the matrix, and `trace(transpose(m)) == trace(m)` |
| Matrix4.Identity | matrix/mat4.hpp:315-327 | `identity()` has 1 on the diagonal and 0 elsewhere |
| Matrix4.IdentityAt | matrix/mat4.hpp:315-327 | the identity has 1 on the diagonal and 0 elsewhere |
| Matrix4.IdentityNeutral | matrix/mat4.hpp:315-327 | `identity() * A == A` and `A * identity() == A` |
| Matrix4.Translate | matrix/mat4.hpp:329-344 | `translate(v)` has 1 on the diagonal, v's components in column w of rows 0-2 and 0 elsewhere |
| Matrix4.TranslateShape | matrix/mat4.hpp:329-344 | `translate(v)` has 1 on the diagonal, v.x, v.y, v.z in column w of rows 0-2 and 0 elsewhere; its trace is 4 |
| Matrix4.TranslateMovesPoint | matrix/mat4.hpp:329-344 | the rows of `translate(v)` move a point with w = 1 by v and keep w = 1 |
| Matrix4.TranslateOriginExample | matrix/mat4.hpp:329-344 | `translate({1,2,3})` takes (0,0,0,1) to (1,2,3,1) |
| Matrix4.TranslateRowColSum | matrix/mat4.hpp:240-256 | each entry of `translate(u) * translate(v)` equals the same entry of `translate(u + v)` |
| Matrix4.TranslateCompose | matrix/mat4.hpp:329-344 | `translate(u) * translate(v) == translate(u + v)` |
| Matrix4.Mat4.constructor | matrix/mat4.hpp:85 | default construction gives the zero matrix |
| Matrix4.Mat4.OfRows | matrix/mat4.hpp:96 | construction from four rows stores them in order |
| Matrix4.Mat4.CopyOf | matrix/mat4.hpp:86 | the copy has the source's rows |
| Matrix4.Mat4.MoveFrom | matrix/mat4.hpp:87 | the new matrix has the source's old rows and every source row is zero |
| Matrix4.Mat4.Assign | matrix/mat4.hpp:98-105 | copy assignment takes all four rows and leaves the source unchanged |
| Matrix4.Mat4.MoveAssign | matrix/mat4.hpp:106-118 | move assignment copies the four rows (when distinct) and zeroes every source row |
| Matrix4.Mat4.SetRows | matrix/mat4.hpp:145-152 | `operator()` replaces the four rows |
| Matrix4.Mat4.Row | matrix/mat4.hpp:159-163 | reading row `idx` (idx < 4) through `operator[]` yields that row's four entries |
| Matrix4.Mat4.PutRow | matrix/mat4.hpp:154-158 | a write to row `idx` (idx < 4) changes that row only |
| Matrix4.Mat4.PutAt | matrix/mat4.hpp:154-158 | a write through `m[row][col]` changes that entry only |
| Matrix4.Mat4.AddAssign | matrix/mat4.hpp:165-173 | `+=` leaves old matrix `+` other, row by row |
| Matrix4.Mat4.SubAssign | matrix/mat4.hpp:174-182 | `-=` leaves old matrix `-` other, row by row |
| Matrix4.Mat4.MulAssign | matrix/mat4.hpp:184 | `A *= B` yields the product of the old values, also when B is A |
| Matrix4.Mat4.AddScalarAssign | matrix/mat4.hpp:185-193 | scalar `+=` adds val to all 16 entries |
| Matrix4.Mat4.SubScalarAssign | matrix/mat4.hpp:194-202 | scalar `-=` subtracts val from all 16 entries |
| Matrix4.Mat4.ScaleAssign | matrix/mat4.hpp:203-211 | scalar `*=` scales all 16 entries |
| Matrix4.Mat4.DivScalarAssign | matrix/mat4.hpp:212-220 | scalar `/=` requires `!isZero(val)` (through each row's `/=`) and divides all 16 entries |
| ComplexNumbers.NormSquare | complex.hpp:103 | the denominator `re² + im²` is >= 0 and is zero only for zero |
| ComplexNumbers.Add | complex.hpp:78-86 | `+` adds the parts, and subtracting the second operand again restores the first |
| ComplexNumbers.Sub | complex.hpp:87-93 | `-` subtracts the parts |
| ComplexNumbers.Mul | complex.hpp:94-100 | `*` has (1, 0) as right identity, and `z * z.conjugate()` is the real number re² + im² |
| ComplexNumbers.Div | complex.hpp:101-109 | `/` is `a * b.conjugate()` with both parts divided by re² + im² of b, truncating toward zero |
| ComplexNumbers.Conjugate | complex.hpp:111 | `conjugate()` keeps the real part, negates the imaginary part and keeps re² + im² |
| ComplexNumbers.AddSubCancel | complex.hpp:78-93 | `(a + b) - b == a` |
| ComplexNumbers.MulCommutative | complex.hpp:94-100 | `(ac − bd, ad + bc)` is commutative |
| ComplexNumbers.ConjugateInvolution | complex.hpp:111 | `conjugate()` negates only the imaginary part and is an involution |
| ComplexNumbers.MulConjugateIsReal | complex.hpp:94-111 | `z * z.conjugate() == (re² + im², 0)` |
| ComplexNumbers.MulConjugateExample | complex.hpp:94-111 | `(1,1) * (1,−1) == (2,0)` |
| ComplexNumbers.DivUndoesMul | complex.hpp:94-109 | with integer division, `(c * b) / b == c` for a nonzero b |
| ComplexNumbers.Complex.constructor | complex.hpp:46 | default construction gives (0, 0) |
| ComplexNumbers.Complex.Of | complex.hpp:47-48 | construction stores the real and imaginary parts |
| ComplexNumbers.Complex.CopyOf | complex.hpp:49 | the copy has the source's value |
| ComplexNumbers.Complex.MoveFrom | complex.hpp:50 | the new number has the source's old value and the source is zero |
| ComplexNumbers.Complex.Assign | complex.hpp:53-58 | copy assignment takes both parts and leaves the source unchanged |
| ComplexNumbers.Complex.MoveAssign | complex.hpp:59-67 | move assignment transfers both parts (when distinct) and zeroes the source |
| ComplexNumbers.Complex.AddAssign | complex.hpp:69-70 | `+=` leaves `*this` equal to old `*this + other` |
| ComplexNumbers.Complex.SubAssign | complex.hpp:71-72 | `-=` leaves old `*this - other` |
| ComplexNumbers.Complex.MulAssign | complex.hpp:73-74 | `*=` leaves old `*this * other`, also when other is this |
| ComplexNumbers.Complex.DivAssign | complex.hpp:75-76 | `/=` leaves old `*this / other`, for a nonzero divisor |
| ComplexNumbers.Complex.SetReal | complex.hpp:113 | the `real(x)` setter changes the real part only |
| ComplexNumbers.Complex.SetImaginary | complex.hpp:114 | the `imaginary(x)` setter changes the imaginary part only |
| ComplexField.Mul | complex.hpp:94-100 | over exact reals, `*` has (1, 0) as right identity |
| ComplexField.NormSquare | complex.hpp:101-104 | the denominator re² + im² is the real number a value times its conjugate gives |
| ComplexField.Div | complex.hpp:101-109 | over exact reals, requires `re² + im² != 0` of the divisor, and `(a / b) * b == a` |

## Left out

- Integer overflow, `static_cast<T>` narrowing and mixed element types
  `U ≠ T`: every operand has the one element type, and integers are
  unbounded.
- The floating `abs` (math.hpp:35-47) reinterprets IEEE bits through a union.
  Only its effect on a non-NaN value, the magnitude, is modelled
  (`Math.Magnitude`). Floating values are exact reals, and `EPSILON` is the
  exact real 1e-6 or 1e-15, not the nearest binary float.
- `Math.Magnitude`: holds for float and double only. For `long double` the
  source masks the low 64 bits of an 80-bit or wider value, which clears a
  significand bit rather than the sign bit; that case is not modelled.
- `length`, `normalize` and their static wrappers in the three vector headers
  rely on `std::sqrt` over floating point.
- `rotateX`, `rotateY`, `rotateZ`, `view` and `projection`
  (matrix/mat4.hpp:355-424) rely on trigonometry, `normalize` and
  `Math::toRad`.
- `Mat4::scale` (matrix/mat4.hpp:345-354, 428-429) writes into its const
  parameter instead of the local matrix, so as written it has no
  well-defined result to model.
- Row-major vs column-major convention for `translate`: the source uses
  column `w` of rows 0 to 2, and the model follows it. The overload
  `translate(x, y, z)` (matrix/mat4.hpp:426-427) only forwards to it and has no
  member of its own.
- Static wrappers `trace(m)`, `transpose(m)` (matrix/mat4.hpp:313-314), and
  the static `dot`/`cross` of the vector headers delegate to the members
  modelled here.
- `identity()` keeps a function-local static copy. It is modelled as the
  constant function `Matrix4.Identity`, since the cache never changes.
- The `r, g, b, a` and `s, t` union aliases are other names for the same
  fields.
- Release builds compile out the `operator[]` assertion. In the vector
  headers an index out of range then falls through to `x`; in `Mat4`
  (matrix/mat4.hpp:154-158) it reads `mROW[idx]` out of bounds, which is
  undefined behaviour. The model keeps the debug-build precondition
  `idx < N` in both. The same
  applies to the `!isZero(val)` assertion before divisions.
- A matrix row is held as a `Vector4.V4` value inside `Mat4.mROW`, not as a
  `Vec4` object. Row writes therefore go through `PutRow`/`PutAt` rather
  than through a reference to the row.
- Arguments that alias a field of the receiver. The source takes the
  scalars of `operator()`, `*=`, `/=` and the Vec4 scalar `+=`/`-=` as
  `const U&`, and the rows of `Mat4::operator()` as `const Vec4<U>&`. It then
  writes the fields one after another, so a later write can read a field
  that an earlier write already changed. For example, `v /= v.x` on a Vec4
  gives (1, y, z, w), `v(v.y, v.x)` on a Vec2 gives (y, y), and
  `m *= m[0].x` scales rows 1-3 by x². The model passes these arguments by
  value, as if copied before the first write. This affects `SetXY`,
  `SetXYZ` and `SetXYZW` (where the class has them), `ScaleAssign` and
  `DivAssign` of `Vec2`, `Vec3` and `Vec4`; `AddScalarAssign` and `SubScalarAssign` of `Vec4`; and
  `SetRows`, `AddScalarAssign`, `SubScalarAssign`, `ScaleAssign` and
  `DivScalarAssign` of `Mat4`. Aliasing of a whole object (`other == this`)
  is modelled.
- The returned `*this` reference of assignments, setters and compound
  operators is not modelled. Chaining is not modelled either.
- The getters `Real()` and `Imaginary()` are plain field reads with no
  contract of their own. The setters' contracts mention them.
- `ComplexNumbers.Div`: integer complex division truncates each part, and
  `ComplexNumbers.Complex.DivAssign` inherits this. Only `(c * b) / b == c`
  is proved for it (`ComplexNumbers.DivUndoesMul`), not `(a / b) * b == a`, which
  fails with truncation. The exact law is `ComplexField.Div`.
- `Math::min` and `Math::max` are not part of this model: math.hpp defines
  neither.
- vector/vec3.h (a draft of vector/vec3.hpp), typeHandler.hpp and base.hpp
  are not part of this model. They are a superseded header and compile-time
  plumbing.
