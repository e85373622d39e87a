# terrain: the vector and matrix library, in Dafny

This project models the 3D math of the terrain renderer, found in `Vector.h`
and `Matrix.h`, and proves properties of that model. A `Vector` holds three
scalars in `float v[3]`. A `Matrix` is a 4x4 homogeneous matrix that keeps
its sixteen cells column by column in `float m[16]`. Both classes have
in-place operators that update their buffer cell by cell. Their free
operators copy an operand and then run the in-place operator on the copy.
The factory functions build the rotation, translation, scaling, frustum and
perspective matrices.

The model is in three modules:

- `Vectors` (Vector.dfy) holds the value type `Vec3`, the pure functions
  `squareLength`, `dotProduct` and `crossProduct`, and the class `Vector`
  over an `array<real>` of length 3 with its in-place operators. It also
  holds the free operators as methods that build a fresh `Vector`. The
  shortcut operators `a * b` and `a % b` only forward to `dotProduct(a, b)`
  and `crossProduct(a, b)`, so they have no members of their own.
- `Matrices` (Matrix.dfy) holds the value type `Mat`, with one field per
  cell in storage order. Beside it are the storage index and the access
  macros, and the product as the source writes it together with the
  textbook sum over k. The value of every in-place shortcut is a function
  here, as are the special matrices and the point transform. The module
  also has the class `Matrix` over an `array<real>` of length 16, whose
  methods are proved to leave exactly those values behind, and the free
  operators and copy wrappers.
- `MatrixLaws` (MatrixLaws.dfy) relates them. `IDENTITY` is a two-sided
  unit. Transposition is an involution that reverses products.
  `translate(x, y, z)` is a left product with `translationMatrix` exactly
  when (x, y, z) is 0 or the matrix is affine. `scale(x, y, z)` is a left
  product with `scalingMatrix` exactly when, in each of rows 0, 1 and 2,
  the factor is 1 or the cell in column 3 is 0. `rotateX`, `rotateY` and `rotateZ` are right
  products with `rotationMatrix`. For an axis of length 1 and
  s^2 + c^2 = 1, `rotationMatrix` fixes the axis and is orthogonal, and
  the rotation by -angle undoes it. The laws of the point transform are
  here too, together with the planes the frustum and perspective matrices
  map onto the clip volume.

Scalars are exact reals. `sin`, `cos`, `sqrt` and `tan` are not modelled:

- Every rotation takes `s` and `c`, the values the source computes as
  `sin(angle)` and `cos(angle)`. A rotation fact therefore holds "for the
  same s and c".
- `length`, `normalize` and `rotationMatrix` take `sqrt` as a function
  parameter, and `perspectiveMatrix` takes `tan` the same way. Nothing is
  assumed about these functions.

The in-place shortcuts do not all compose on the same side. `translate` and
`scale` act on the rows. `translate` equals a product with
`translationMatrix` on the LEFT on an affine matrix, and for a zero shift
on any matrix; for a nonzero shift on a matrix that is not affine it does
not. `scale` equals a product with `scalingMatrix` on the LEFT when, for
each of rows 0, 1 and 2, the factor is 1 or the cell in column 3 is 0.
Otherwise it differs in column 3: `scale` leaves those cells alone, where
the left product would scale them. `rotate`, `rotateX`, `rotateY` and
`rotateZ` equal a product with the rotation on the RIGHT. So starting from
`IDENTITY`, `translate(1, 0, 0)` and then `rotateZ` turn a point first and
shift it after. At 90 degrees, (1, 0, 0) goes to (1, -1, 0) as written and
to (1, 1, 0) with the corrected signs.

Every in-place operator of both classes, and `v *= m`, returns the object
it changed (`*this`, or `v`), so that calls can be chained. The methods
return it as the out-parameter `self` (`r` for `v *= m`) and promise that
it is that same object.

## Model

| member | source | states |
|---|---|---|
| Vectors.Zero | Vector.h:31-33 | the components `Vector()` stores, as written; SquareLength is 0 exactly on it |
| Vectors.Add | Vector.h:54-59 | the componentwise sum that `+=` leaves, as written; AddSubInverse and AddCommutes constrain it |
| Vectors.Sub | Vector.h:61-66 | the componentwise difference that `-=` leaves, as written; AddSubInverse constrains it |
| Vectors.Scale | Vector.h:68-73 | the components scaled by s, as `*= s` leaves them, as written; ScaleThenDivide and NegationIsInverse constrain it |
| Vectors.Length | Vector.h:83-85 | `sqrt(squareLength())` as written, with sqrt a parameter; NormalizedIsUnit constrains it |
| Vectors.DotProduct | Vector.h:144-156 | `dotProduct` as written, last term `a[2] + b[2]`, which is also what `a * b` returns; DotProductSymmetric, DotProductDeviation and DotProductCounterexample constrain it |
| Vectors.CrossProduct | Vector.h:149-162 | `crossProduct` as written, x component beginning `a[1] + b[2]`, which is also what `a % b` returns; CrossProductTail, CrossProductHeadDeviation and CrossProductCounterexample constrain it |
| Vectors.StandardDotProduct | Vector.h:154-156 | the corrected `dotProduct`, with `a[2] * b[2]` as last term; the StandardDotProduct lemmas constrain it |
| Vectors.StandardCrossProduct | Vector.h:158-162 | the corrected `crossProduct`, with `a[1] * b[2]`; the StandardCrossProduct lemmas constrain it |
| Vectors.SquareLength | Vector.h:79-81 | `squareLength()` is never negative, and it is 0 exactly for the zero vector |
| Vectors.AddSubInverse | Vector.h:54-66 | `-=` undoes `+=`, and `+=` undoes `-=` |
| Vectors.AddCommutes | Vector.h:120-122 | `a + b == b + a` |
| Vectors.ScaleThenDivide | Vector.h:68-77 | for s != 0, scaling by s and then dividing by s (`*= 1 / s`) gives back the vector |
| Vectors.NegationIsInverse | Vector.h:116-118 | unary `-v`, which is `v * -1`, is the additive inverse, and negating twice is the identity |
| Vectors.DotProductSymmetric | Vector.h:154-156 | `dotProduct` as written is symmetric in its operands |
| Vectors.DotProductDeviation | Vector.h:154-156 | for all inputs, `dotProduct` as written is the inner product plus a[2] + b[2] - a[2]*b[2]; the two agree exactly when a[2] + b[2] == a[2]*b[2] |
| Vectors.DotProductCounterexample | Vector.h:155 | the unit z vector dotted with itself gives 2 as written, where the inner product gives 1 |
| Vectors.CrossProductTail | Vector.h:158-162 | the y and z components of `crossProduct` are the standard ones: anti-commutative, and 0 for a x a |
| Vectors.CrossProductHeadDeviation | Vector.h:159 | for all inputs, the x component differs from the standard one by a[1] + b[2] - a[1]*b[2] |
| Vectors.CrossProductCounterexample | Vector.h:159 | the unit y vector crossed with itself gives (1, 0, 0) as written, where the standard cross product gives the zero vector |
| Vectors.StandardDotProductSquareLength | Vector.h:79-81 | the corrected dot product of a vector with itself is its `squareLength` |
| Vectors.StandardDotProductBilinear | Vector.h:154-156 | the corrected dot product is symmetric and linear in its first operand |
| Vectors.StandardCrossProductAntiCommutes | Vector.h:158-162 | the corrected cross product is anti-commutative and is 0 on a x a |
| Vectors.StandardCrossProductOrthogonal | Vector.h:158-162 | the corrected cross product is orthogonal to both of its operands |
| Vectors.NormalizedIsUnit | Vector.h:83-89 | when `sqrt` returns a true, nonzero root of `squareLength`, `normalize()` leaves a vector of square length 1 |
| Vectors.Vector.constructor | Vector.h:31-33 | `Vector()` holds (0, 0, 0) in a fresh buffer |
| Vectors.Vector.FromComponents | Vector.h:41-45 | `Vector(x, y, z)` stores x, y, z at indices 0, 1, 2 |
| Vectors.Vector.Copy | Vector.h:35-39 | the copy constructor holds the same components in a buffer of its own |
| Vectors.Vector.Assign | Vector.h:47-52 | after `=`, the vector holds the other vector's components, and returns the object itself |
| Vectors.Vector.AddAssign | Vector.h:54-59 | `+=` adds the other vector's components one by one, and returns the object itself |
| Vectors.Vector.SubAssign | Vector.h:61-66 | `-=` subtracts the other vector's components one by one, and returns the object itself |
| Vectors.Vector.MulAssign | Vector.h:68-73 | `*= s` scales all three components by s, and returns the object itself |
| Vectors.Vector.DivAssign | Vector.h:75-77 | `/= s` leaves exactly what `*= (1 / s)` leaves, and returns the object itself |
| Vectors.Vector.Normalize | Vector.h:87-89 | `normalize()` leaves the vector scaled by 1 / `length()`, and returns the object itself |
| Vectors.Vector.Set | Vector.h:91-93 | the writable `operator[]` changes component i and no other |
| Vectors.Positive | Vector.h:112-114 | unary `+v` is an equal copy |
| Vectors.Negative | Vector.h:116-118 | unary `-v` is the copy scaled by -1 |
| Vectors.Plus | Vector.h:120-122 | `a + b` is componentwise and leaves both operands unchanged |
| Vectors.Minus | Vector.h:124-126 | `a - b` is componentwise and leaves both operands unchanged |
| Vectors.TimesScalar | Vector.h:128-130 | `v * s` is v scaled by s |
| Vectors.ScalarTimes | Vector.h:132-134 | `s * v` is v scaled by s |
| Vectors.DividedBy | Vector.h:136-138 | `v / s` is v scaled by 1 / s |
| Vectors.ScalarDividedBy | Vector.h:140-142 | `s / v` is also v scaled by 1 / s: s is not divided by the vector |
| Matrices.FromCells | Matrix.h:74-78 | the matrix a buffer of sixteen cells holds, in storage order; CellsRoundTrip constrains it |
| Matrices.At | Matrix.h:170-176 | the cell at (row, col), as `operator()(row, col)` reads it; AtIndex and MacrosNameCells constrain it |
| Matrices.Rows | Matrix.h:90-98 | the 16-argument constructor, arguments row by row; RowsAt constrains it |
| Matrices.Identity | Matrix.h:82-88 | `Matrix()` and `IDENTITY` (Matrix.h:315), as written; IdentityAt, IdentityRightUnit and IdentityLeftUnit constrain it |
| Matrices.Product | Matrix.h:358-376 | the free `operator*` with its sixteen sums as written; ProductAt ties it to the sum Dot, and Matrix.MulAssign leaves it |
| Matrices.Add | Matrix.h:115-121 | the cellwise sum `+=` leaves, as written; AddSubInverse and AddCommutes constrain it |
| Matrices.Sub | Matrix.h:123-129 | the cellwise difference `-=` leaves, as written; AddSubInverse constrains it |
| Matrices.MulScalar | Matrix.h:131-137 | every cell times s, as `*= s` leaves it, as written; NegationIsInverse constrains it |
| Matrices.Translated | Matrix.h:186-191 | the value `translate(x, y, z)` leaves, as written; TranslatedCells, TranslatedIsLeftProductExactly and TransformTranslated constrain it |
| Matrices.Scaled | Matrix.h:197-202 | the value `scale(x, y, z)` leaves, as written; ScaledCells and ScaledIsLeftProductExactly constrain it |
| Matrices.RotatedX | Matrix.h:216-236 | the value `rotateX` leaves, as written; RotatedXIsProduct and RotatedXIsXRotation constrain it |
| Matrices.RotatedY | Matrix.h:238-258 | the value `rotateY` leaves, as written; RotatedYIsProduct and RotatedYIsYRotation constrain it |
| Matrices.RotatedZ | Matrix.h:260-280 | the value `rotateZ` leaves, as written, sign included; RotatedZIsProductWithNegatedSine and RotatedZCounterexample constrain it |
| Matrices.IntendedRotatedZ | Matrix.h:260-280 | the corrected `rotateZ`; IntendedRotatedZIsProduct constrains it |
| Matrices.Transposed | Matrix.h:282-293 | the value the six swaps of `transpose` leave; TransposedAt, TransposeInvolution and TransposeOfProduct constrain it |
| Matrices.TranslationMatrix | Matrix.h:455-460 | `translationMatrix(x, y, z)` as written; ShortcutsOnIdentity, TranslatedIsLeftProduct and TransformTranslation constrain it |
| Matrices.ScalingMatrix | Matrix.h:466-471 | `scalingMatrix(x, y, z)` as written; ShortcutsOnIdentity, ScaledIsLeftProduct and TransformScaling constrain it |
| Matrices.AxisRotation | Matrix.h:445-448 | the matrix `rotationMatrix` returns for its final axis, as written; AxisRowsFixAxis, RowSquares and RowProducts constrain it |
| Matrices.RotationMatrix | Matrix.h:434-449 | `rotationMatrix(angle, x, y, z)` as written, normalising an axis whose squared length is not 1; RotationMatrixIsAffine, the axis rotation lemmas, RotationFixesAxis, RotationIsOrthogonal and ReverseAngleUndoesRotation constrain it |
| Matrices.FrustumMatrix | Matrix.h:477-482 | `frustumMatrix` as written, cell (1, 2) included; FrustumMapsXAndDepth, FrustumDiffersInOneCell and FrustumBottomEdgeCounterexample constrain it |
| Matrices.IntendedFrustumMatrix | Matrix.h:477-482 | the corrected `frustumMatrix`, with `(t+b)/(t-b)`; IntendedFrustumMapsEdges constrains it |
| Matrices.PerspectiveMatrix | Matrix.h:484-490 | `perspectiveMatrix` as written, with t = 1/tan(fovy/2); PerspectiveMapsFieldOfView constrains it |
| Matrices.Transform | Matrix.h:328-332 | the point `m * v` returns, as written; TransformIdentity, TransformTranslation, TransformScaling and TransformOfProduct constrain it |
| Matrices.Cells | Matrix.h:74-78 | the buffer of a matrix has sixteen cells |
| Matrices.CellsRoundTrip | Matrix.h:74-78 | buffers of sixteen cells and matrix values correspond one to one, in both directions |
| Matrices.Index | Matrix.h:170-176 | `operator()`'s index `y + (x << 2)` lies in 0..15 |
| Matrices.IndexInverse | Matrix.h:170-176 | the index of a cell recovers its row (index % 4) and its column (index / 4) |
| Matrices.IndexOnto | Matrix.h:170-176 | every index in 0..15 is the index of some cell |
| Matrices.IndexInjective | Matrix.h:170-176 | two cells share an index exactly when they are the same cell |
| Matrices.AtIndex | Matrix.h:170-176 | the buffer at `Index(row, col)` holds the cell at (row, col) |
| Matrices.MacrosNameCells | Matrix.h:54-69 | macro `Mij` names buffer index `Index(i-1, j-1)`, the field `mij` and `operator()(i-1, j-1)` |
| Matrices.RowsAt | Matrix.h:90-98 | argument `mij` of the 16-argument constructor lands in cell (i-1, j-1) |
| Matrices.IdentityAt | Matrix.h:82-88 | `Matrix()` and `IDENTITY` have 1 on the diagonal and 0 elsewhere |
| Matrices.DotByRow | Matrix.h:358-376 | the textbook sum for cell (i, j) has four terms, row i of a against column j of b |
| Matrices.ProductAt | Matrix.h:358-376 | each of the sixteen sums the free `operator*` writes out is Σ_k a(i,k)·b(k,j): no index is mistyped |
| Matrices.AddSubInverse | Matrix.h:115-129 | `-=` undoes `+=` |
| Matrices.AddCommutes | Matrix.h:350-352 | `a + b == b + a` |
| Matrices.NegationIsInverse | Matrix.h:346-348 | unary `-m`, which is `m * -1`, is the additive inverse, and adding it is subtracting |
| Matrices.TranslatedCells | Matrix.h:186-191 | `translate(x, y, z)` adds x, y, z to cells (0,3), (1,3), (2,3) and changes no other cell |
| Matrices.ScaledCells | Matrix.h:197-202 | `scale(x, y, z)` multiplies columns 0-2 of rows 0, 1, 2 by x, y, z and changes no other cell |
| Matrices.RotatedColumnsKept | Matrix.h:216-280 | `rotateX`, `rotateY` and `rotateZ` leave columns 0 and 3, columns 1 and 3, and columns 2 and 3 alone |
| Matrices.TransposedAt | Matrix.h:282-293 | after `transpose`, cell (i, j) holds the old cell (j, i), so the diagonal stays |
| Matrices.RotationMatrixIsAffine | Matrix.h:434-449 | `rotationMatrix` always has (0, 0, 0, 1) as last row and as last column |
| Matrices.Matrix.Get | Matrix.h:174-176 | the const `operator()(y, x)` reads the cell at row y, column x |
| Matrices.Matrix.constructor | Matrix.h:82-88 | `Matrix()` holds the identity in a fresh buffer |
| Matrices.Matrix.FromRows | Matrix.h:90-98 | the 16-argument constructor holds the matrix whose rows are those arguments |
| Matrices.Matrix.FromValue | Matrix.h:208-210 | a matrix built from a factory's value holds that value |
| Matrices.Matrix.Copy | Matrix.h:100-105 | the copy constructor holds the same cells in a buffer of its own |
| Matrices.Matrix.Assign | Matrix.h:107-113 | after `=`, the matrix holds the other matrix's cells, and returns the object itself |
| Matrices.Matrix.AddAssign | Matrix.h:115-121 | `+=` adds the other matrix cell by cell, and returns the object itself |
| Matrices.Matrix.SubAssign | Matrix.h:123-129 | `-=` subtracts the other matrix cell by cell, and returns the object itself |
| Matrices.Matrix.MulAssignScalar | Matrix.h:131-137 | `*= s` multiplies all sixteen cells by s, and returns the object itself |
| Matrices.Matrix.DivAssign | Matrix.h:166-168 | `/= s` leaves exactly what `*= 1 / s` leaves, and returns the object itself |
| Matrices.Matrix.MulAssign | Matrix.h:139-164 | in-place `A *= B`, for B not aliasing A, leaves the free product A * B, even though the row snapshots m1..m3 are taken while the same cells are overwritten, and returns the object itself |
| Matrices.Matrix.Set | Matrix.h:170-172 | the writable `operator()(y, x)` changes buffer index `y + 4x`, which is cell (y, x), and no other |
| Matrices.Matrix.Translate | Matrix.h:186-191 | `translate(x, y, z)` leaves the translated value (see TranslatedCells), and returns the object itself |
| Matrices.Matrix.TranslateBy | Matrix.h:193-195 | `translate(v)` is `translate(v[0], v[1], v[2])`, and returns the object itself |
| Matrices.Matrix.Scale | Matrix.h:197-202 | `scale(x, y, z)` leaves the scaled value (see ScaledCells), and returns the object itself |
| Matrices.Matrix.ScaleBy | Matrix.h:204-206 | `scale(v)` is `scale(v[0], v[1], v[2])`, and returns the object itself |
| Matrices.Matrix.Rotate | Matrix.h:208-210 | `rotate(angle, x, y, z)` leaves the product with `rotationMatrix(angle, x, y, z)` on the right, and returns the object itself |
| Matrices.Matrix.RotateAbout | Matrix.h:212-214 | `rotate(angle, v)` is `rotate(angle, v[0], v[1], v[2])`, and returns the object itself |
| Matrices.Matrix.RotateX | Matrix.h:216-236 | `rotateX`, with its `tmp`, leaves the value that RotatedXIsProduct shows to be the product with the x rotation, and returns the object itself |
| Matrices.Matrix.RotateY | Matrix.h:238-258 | `rotateY`, with its `tmp`, leaves the value that RotatedYIsProduct shows to be the product with the y rotation, and returns the object itself |
| Matrices.Matrix.RotateZ | Matrix.h:260-280 | `rotateZ`, with its `tmp`, leaves the value that RotatedZIsProductWithNegatedSine shows to be the product with the z rotation by -angle, and returns the object itself |
| Matrices.Matrix.Transpose | Matrix.h:282-293 | the six swaps leave the transpose (see TransposedAt), and returns the object itself |
| Matrices.Positive | Matrix.h:342-344 | unary `+m` is an equal copy |
| Matrices.Negative | Matrix.h:346-348 | unary `-m` is the copy times -1 |
| Matrices.Plus | Matrix.h:350-352 | `a + b` is cellwise and leaves both operands unchanged |
| Matrices.Minus | Matrix.h:354-356 | `a - b` is cellwise and leaves both operands unchanged |
| Matrices.TimesScalar | Matrix.h:378-380 | `m * s` is every cell times s, and m is unchanged |
| Matrices.ScalarTimes | Matrix.h:382-384 | `s * m` is `m * s` |
| Matrices.DividedBy | Matrix.h:386-388 | `m / s` is every cell times 1 / s, and m is unchanged |
| Matrices.Rotated | Matrix.h:398-400 | the free `rotate(m, angle, x, y, z)` is m times `rotationMatrix`, and m is unchanged |
| Matrices.RotatedAbout | Matrix.h:394-396 | the free `rotate(m, angle, v)` is m times the rotation about v, and m is unchanged |
| Matrices.RotatedXCopy | Matrix.h:402-404 | the free `rotateX(m, angle)` is the rotated copy, and m is unchanged |
| Matrices.RotatedYCopy | Matrix.h:406-408 | the free `rotateY(m, angle)` is the rotated copy, and m is unchanged |
| Matrices.RotatedZCopy | Matrix.h:410-412 | the free `rotateZ(m, angle)` is the rotated copy, and m is unchanged |
| Matrices.TranslatedCopy | Matrix.h:414-416 | the free `translate(m, x, y, z)` is the translated copy, and m is unchanged |
| Matrices.TranslatedCopyBy | Matrix.h:418-420 | the free `translate(m, v)` is the copy translated by v, and m is unchanged |
| Matrices.ScaledCopyBy | Matrix.h:422-424 | the free `scale(m, v)` is the copy scaled by v, and m is unchanged |
| Matrices.TransposedCopy | Matrix.h:426-428 | the free `transpose(m)` is the transposed copy, and m is unchanged |
| Matrices.TransformInPlace | Matrix.h:320-326 | `v *= m` leaves exactly what `m * v` returns, although it overwrites v[0] and v[1] before the last row reads v[2], and returns the object itself |
| Matrices.TransformPoint | Matrix.h:328-332 | `m * v` has component i = m(i,0)·v0 + m(i,1)·v1 + m(i,2)·v2 + m(i,3) for i in 0..2 |
| Matrices.PointTimesMatrix | Matrix.h:334-336 | `v * m` returns what `m * v` returns |
| MatrixLaws.IdentityRightUnit | Matrix.h:358-376 | A * `IDENTITY` == A |
| MatrixLaws.IdentityLeftUnit | Matrix.h:358-376 | `IDENTITY` * A == A |
| MatrixLaws.TransposeInvolution | Matrix.h:282-293 | transposing twice gives back the matrix |
| MatrixLaws.TransposeOfProduct | Matrix.h:282-293 | the transpose of A * B is transpose(B) * transpose(A) |
| MatrixLaws.ShortcutsOnIdentity | Matrix.h:455-471 | `translate` and `scale` applied to the identity give `translationMatrix` and `scalingMatrix` |
| MatrixLaws.TranslatedIsLeftProduct | Matrix.h:186-191 | on an affine matrix, `translate(x, y, z)` is left multiplication by `translationMatrix(x, y, z)` |
| MatrixLaws.ScaledIsLeftProduct | Matrix.h:197-202 | when the top three cells of the last column are 0, `scale(x, y, z)` is left multiplication by `scalingMatrix(x, y, z)` |
| MatrixLaws.TranslationProductCells | Matrix.h:358-376 | `translationMatrix(x, y, z) * a` adds to rows 0, 1 and 2 of a the shift x, y or z times row 3, and keeps row 3 |
| MatrixLaws.ScalingProductCells | Matrix.h:358-376 | `scalingMatrix(x, y, z) * a` multiplies all four cells of rows 0, 1 and 2 of a by x, y and z, and keeps row 3 |
| MatrixLaws.TranslatedIsLeftProductExactly | Matrix.h:186-191 | `translate(x, y, z)` is left multiplication by `translationMatrix(x, y, z)` if and only if (x, y, z) is 0 or the matrix is affine |
| MatrixLaws.ScaledIsLeftProductExactly | Matrix.h:197-202 | `scale(x, y, z)` is left multiplication by `scalingMatrix(x, y, z)` if and only if, for each of rows 0, 1 and 2, the factor is 1 or the cell in column 3 is 0 |
| MatrixLaws.XAxisRotation | Matrix.h:434-449 | `rotationMatrix` about (1, 0, 0) is the standard rotation about x |
| MatrixLaws.YAxisRotation | Matrix.h:434-449 | `rotationMatrix` about (0, 1, 0) is the standard rotation about y |
| MatrixLaws.ZAxisRotation | Matrix.h:434-449 | `rotationMatrix` about (0, 0, 1) is the standard rotation about z |
| MatrixLaws.RotatedXIsXRotation | Matrix.h:216-236 | `rotateX` right-multiplies by the rotation about x |
| MatrixLaws.RotatedYIsYRotation | Matrix.h:238-258 | `rotateY` right-multiplies by the rotation about y |
| MatrixLaws.RotatedZIsZRotationBack | Matrix.h:260-280 | `rotateZ` right-multiplies by the rotation about z with the sine negated |
| MatrixLaws.IntendedRotatedZIsZRotation | Matrix.h:260-280 | the corrected `rotateZ` right-multiplies by the rotation about z |
| MatrixLaws.RotatedXIsProduct | Matrix.h:216-236 | for the same s and c, `rotateX(angle)` equals `*this *= rotationMatrix(angle, 1, 0, 0)` |
| MatrixLaws.RotatedYIsProduct | Matrix.h:238-258 | for the same s and c, `rotateY(angle)` equals `*this *= rotationMatrix(angle, 0, 1, 0)` |
| MatrixLaws.RotatedZIsProductWithNegatedSine | Matrix.h:260-280 | `rotateZ(angle)` equals `*this *= rotationMatrix` about (0, 0, 1) built with -s, which is a rotation by -angle |
| MatrixLaws.IntendedRotatedZIsProduct | Matrix.h:260-280 | the corrected `rotateZ(angle)` equals `*this *= rotationMatrix(angle, 0, 0, 1)` |
| MatrixLaws.RotatedZOnIdentity | Matrix.h:264-266 | on the identity with s = 1 and c = 0, `rotateZ` puts 1 in cell (0, 1) |
| MatrixLaws.ZAxisRotationQuarter | Matrix.h:445 | `rotationMatrix` about (0, 0, 1) with s = 1 and c = 0 has -1 in cell (0, 1) |
| MatrixLaws.RotatedZCounterexample | Matrix.h:260-280 | at 90 degrees, `rotateZ` applied to the identity does not give `rotationMatrix(angle, 0, 0, 1)` |
| MatrixLaws.TransformIdentity | Matrix.h:328-332 | `IDENTITY * v == v` |
| MatrixLaws.TransformTranslation | Matrix.h:455-460 | `translationMatrix(x, y, z) * v == v + (x, y, z)`, so the origin goes to (x, y, z) |
| MatrixLaws.TransformScaling | Matrix.h:466-471 | `scalingMatrix(x, y, z) * v` multiplies the coordinates by x, y, z, so (1, 1, 1) goes to (x, y, z) |
| MatrixLaws.TransformTranslated | Matrix.h:186-191 | after `translate(x, y, z)` every point's image moves by (x, y, z) |
| MatrixLaws.ComposedRow | Matrix.h:328-332 | one row of (A * B) * v equals that row of A applied to B * v, when the last row of B is (0, 0, 0, 1) |
| MatrixLaws.TransformOfProduct | Matrix.h:358-376 | for affine B, (A * B) * v == A * (B * v) |
| MatrixLaws.ZRotationTurnsXAxis | Matrix.h:434-449 | the rotation about z turns (1, 0, 0) to (c, s, 0) |
| MatrixLaws.RotatedZTurnsXAxisBack | Matrix.h:260-280 | `rotateZ` applied to the identity turns (1, 0, 0) to (c, -s, 0), the other way |
| MatrixLaws.RotatedZOfTranslation | Matrix.h:260-280 | `translate(tx, ty, tz)` on the identity and then `rotateZ` give the z-rotation block beside the untouched translation column, as written and corrected |
| MatrixLaws.TranslateThenRotateZTurnsXAxis | Matrix.h:260-280 | after `translate(tx, ty, tz)` and then `rotateZ` on the identity, (1, 0, 0) is turned first and shifted after: to (c + tx, -s + ty, tz) as written and (c + tx, s + ty, tz) corrected |
| MatrixLaws.TranslateThenRotateZ | Matrix.h:260-280 | the worked composition example at 90 degrees: `rotateZ` on `translationMatrix(1, 0, 0)` sends (1, 0, 0) to (1, -1, 0) as written |
| MatrixLaws.TranslateThenIntendedRotateZ | Matrix.h:260-280 | the same example with the corrected signs sends (1, 0, 0) to (1, 1, 0) |
| MatrixLaws.AxisRowsFixAxis | Matrix.h:445-447 | for an axis of length 1, each of the first three rows of `rotationMatrix` maps the axis to its own coordinate of the axis |
| MatrixLaws.RotationFixesAxis | Matrix.h:434-449 | `rotationMatrix(a, x, y, z)` leaves an axis (x, y, z) of length 1 where it is, for every s and c |
| MatrixLaws.RowSquares | Matrix.h:445-447 | each of the first three rows of `rotationMatrix` times itself equals c^2 + s^2 * (the other two squares) + (1 - c^2) * (its own square), plus a multiple of (axis length^2 - 1) |
| MatrixLaws.RowProducts | Matrix.h:445-447 | two different rows of `rotationMatrix` multiplied together equal (product of their axis coordinates) * (1 - c^2 - s^2), plus a multiple of (axis length^2 - 1) |
| MatrixLaws.RowsAreUnit | Matrix.h:445-447 | for s^2 + c^2 = 1 and an axis of length 1, each of the first three rows of `rotationMatrix` has length 1 |
| MatrixLaws.RowsAreOrthogonal | Matrix.h:445-447 | for s^2 + c^2 = 1 and an axis of length 1, any two different rows of `rotationMatrix` are orthogonal, in both orders |
| MatrixLaws.RotationIsOrthogonal | Matrix.h:434-449 | for s^2 + c^2 = 1 and an axis of length 1, `rotationMatrix` times its transpose is `IDENTITY` |
| MatrixLaws.TransposedRotationReversesAngle | Matrix.h:434-449 | for every usable axis, the transpose of `rotationMatrix` built with (s, c) is the one built with (-s, c), the rotation by -angle |
| MatrixLaws.ReverseAngleUndoesRotation | Matrix.h:434-449 | for s^2 + c^2 = 1 and an axis of length 1, the rotations by angle and by -angle multiply to `IDENTITY` in both orders |
| MatrixLaws.DepthRowMapsPlanes | Matrix.h:480 | the depth row of the projections sends the plane z = -n to clip depth -n and the plane z = -f to clip depth f |
| MatrixLaws.EdgeRowMapsEdges | Matrix.h:478-479 | a row (2n/(hi-lo), 0, (hi+lo)/(hi-lo), 0) sends the edge lo of the near plane to -n and the edge hi to n |
| MatrixLaws.FrustumMapsXAndDepth | Matrix.h:477-482 | `frustumMatrix` as written gives clip w = -z for every point, sends x = l and x = r on the near plane to -w and w, and sends the near and far planes to depth -w and w |
| MatrixLaws.IntendedFrustumMapsEdges | Matrix.h:477-482 | the corrected frustum also sends y = b and y = t on the near plane to -w and w |
| MatrixLaws.FrustumDiffersInOneCell | Matrix.h:479 | the written and the corrected frustum differ only in cell (1, 2), which is (t + b)/(t - n) as written |
| MatrixLaws.FrustumBottomEdgeCounterexample | Matrix.h:479 | with l=-1, r=1, b=0, t=1, n=2, f=3, the bottom edge point (0, 0, -2) goes to clip y = 2 = w as written and to y = -2 = -w when corrected |
| MatrixLaws.PerspectiveMapsFieldOfView | Matrix.h:484-490 | for t = 1/tan(fovy/2), points on the upper and right edges of the field of view go to clip y = w and x = w, w is -z, and the near and far planes go to depth -w and w |

## Left out

- Floating-point rounding and the `float` width. Every scalar is an exact real, and there are no claims of the form "approximately the identity".
- `sin`, `cos`, `sqrt` and `tan`. The rotations take s and c as parameters, and `sqrt` and `tan` are function parameters with no properties. `length()` is modelled only as `sqrt(squareLength())`.
- Vectors.Vector.Normalize, Vectors.Vector.DivAssign, Vectors.DividedBy, Vectors.ScalarDividedBy, Matrices.Matrix.DivAssign and Matrices.DividedBy: these require a nonzero divisor, because division by 0 is not a real number. The source divides anyway and gets an infinity.
- Matrices.Matrix.Rotate, Matrices.Matrix.RotateAbout, Matrices.Rotated and Matrices.RotatedAbout: these require the axis to be usable (`AxisUsable`). That means a squared length of 1, or a square root that is not 0. The source divides by `sqrt(0)` for the zero axis.
- Matrices.FrustumMatrix and Matrices.PerspectiveMatrix have nonzero-denominator preconditions (r != l, t != b, t != n and n != f; tan(fovy/2) != 0, aspect != 0 and n != f) for the same reason.
- Matrices.Matrix.MulAssign requires `other` not to share this matrix's buffer. With `m *= m`, cells of the right operand are read after the rows of the left operand were already written, so the result is not the product.
- Matrices.Index models `x << 2` as `x * 4`, for columns in 0..3 only. `operator()` and `operator[]` do not check their bounds; the model requires indices in 0..3 and 0..2.
- The reading `operator[]` of `Vector` has no member of its own: the model reads component i as `Value()[i]`.
- The entrywise operators `=`, `+=`, `-=` and `*= s` of `Matrix` are written as one simultaneous update of all sixteen cells. They are equivalent to the source's sequential updates, because each cell reads only itself and the other matrix's cell.
- The `operator float*` conversions of both classes. They only expose the buffer, which `Cells` and `Index` describe.
- The `#undef` block at Matrix.h:298-313. It has no behaviour.
- `scale(const Matrix&, float, float, float)`, declared at Matrix.h:37. It is never defined, so there is nothing to model.
- `perspectiveMatrix` is declared with six parameters at Matrix.h:51. It is modelled with the four it is defined with at Matrix.h:484.
- The `Vector` overloads of the factories (`rotationMatrix(angle, v)`, `translationMatrix(v)` and `scalingMatrix(v)`). Each only forwards v[0], v[1] and v[2], as `TranslateBy` and `RotateAbout` show for the member functions.
- There is no claim that `perspectiveMatrix` equals a symmetric `frustumMatrix`. Because of the defect at Matrix.h:479 the written frustum is not that matrix.
- Matrices.RotationMatrix: for an axis whose squared length is not 1, the normalisation through `sqrt` is left abstract, so the claims that it fixes the axis and is orthogonal are made for an axis of length 1 only. For a general axis only its last row and column are stated.
- MatrixLaws.TranslatedIsLeftProduct and MatrixLaws.ScaledIsLeftProduct state sufficient conditions: an affine matrix, and zero cells (0, 3), (1, 3) and (2, 3). The exact conditions are stated by MatrixLaws.TranslatedIsLeftProductExactly and MatrixLaws.ScaledIsLeftProductExactly.
- MatrixLaws.TranslateThenRotateZ and MatrixLaws.TranslateThenIntendedRotateZ state the 90-degree example on `translationMatrix(1, 0, 0)`, the value `translate(1, 0, 0)` leaves on `IDENTITY` by MatrixLaws.ShortcutsOnIdentity. MatrixLaws.TranslateThenRotateZTurnsXAxis states it on `translate` itself, for every shift, sine and cosine.
- Terrain.cpp: the window, event loop, OpenGL drawing and height-field setup. These are I/O and driver calls. Terrain.cpp is not part of this model.
- List.h: it does not compile and nothing includes it. List.h is not part of this model.

## Findings

| source | as written | input that shows it | evidently intended | confidence | as-written member | corrected member |
|---|---|---|---|---|---|---|
| Vector.h:155 | `a[0] * b[0] + a[1] * b[1] + a[2] + b[2]` | a = b = (0, 0, 1) gives 2 | `a[2] * b[2]` as the last term, giving 1 | high, not executed | Vectors.DotProductCounterexample | Vectors.StandardDotProductSquareLength |
| Vector.h:159 | x component `a[1] + b[2] - a[2] * b[1]` | a = b = (0, 1, 0) gives (1, 0, 0) | `a[1] * b[2] - a[2] * b[1]`, giving the zero vector | high, not executed | Vectors.CrossProductCounterexample | Vectors.StandardCrossProductAntiCommutes |
| Matrix.h:264-278 | `M11 = c * M11 + -s * M12; M12 = s * tmp + c * M12` (and the same in every row) | s = 1, c = 0 on the identity gives 1 in cell (0, 1); `rotationMatrix(90°, 0, 0, 1)` has -1 there | `c * M11 + s * M12` and `-s * tmp + c * M12`, the right product with `rotationMatrix(angle, 0, 0, 1)` as in `rotateX` and `rotateY` | medium, not executed | MatrixLaws.RotatedZCounterexample | MatrixLaws.IntendedRotatedZIsProduct |
| Matrix.h:479 | cell (1, 2) is `(t+b)/(t-n)` | l=-1, r=1, b=0, t=1, n=2, f=3: the bottom edge (0, 0, -2) goes to clip y = 2 = w, the top of the clip volume | `(t+b)/(t-b)`, as cell (0, 2) uses `(r-l)` | high, not executed | MatrixLaws.FrustumBottomEdgeCounterexample | MatrixLaws.IntendedFrustumMapsEdges |
