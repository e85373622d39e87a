/** 4x4 homogeneous matrices (Matrix.h): the value a `Matrix` holds, the
    in-place operators of class `Matrix` over its `m[16]` buffer, the free
    operators, the point transform and the special matrices.

    The sixteen cells are stored column by column: cell (row, col) lives at
    index `row + 4 * col`. Scalars are exact reals. `sin` and `cos` are not
    modelled: every rotation takes `s` and `c`, the values the source computes
    as `sin(a)` and `cos(a)`, so rotation facts hold "for the same s and c". */
module Matrices {
  import Vectors

  /** The value of a `Matrix`: one field per cell, named like the access
      macros (`mij` is row i, column j, counting from 1) and listed in
      storage order, column by column. */
  datatype Mat = Mat(m11: real, m21: real, m31: real, m41: real,
                     m12: real, m22: real, m32: real, m42: real,
                     m13: real, m23: real, m33: real, m43: real,
                     m14: real, m24: real, m34: real, m44: real)

  // ---------------------------------------------------------------------------
  // Storage layout

  /** The access macros: `Mij` names `m[...]` for row i, column j (1-based). */
  const M11: int := 0
  const M21: int := 1
  const M31: int := 2
  const M41: int := 3
  const M12: int := 4
  const M22: int := 5
  const M32: int := 6
  const M42: int := 7
  const M13: int := 8
  const M23: int := 9
  const M33: int := 10
  const M43: int := 11
  const M14: int := 12
  const M24: int := 13
  const M34: int := 14
  const M44: int := 15

  /** The buffer `m[16]` that holds a value. */
  function Cells(a: Mat): (s: seq<real>)
    ensures |s| == 16
  {
    [a.m11, a.m21, a.m31, a.m41, a.m12, a.m22, a.m32, a.m42,
     a.m13, a.m23, a.m33, a.m43, a.m14, a.m24, a.m34, a.m44]
  }

  /** The value a buffer holds. */
  function FromCells(s: seq<real>): Mat
    requires |s| == 16
  {
    Mat(s[0], s[1], s[2], s[3], s[4], s[5], s[6], s[7],
        s[8], s[9], s[10], s[11], s[12], s[13], s[14], s[15])
  }

  /** Buffers of sixteen cells and values correspond one to one. */
  lemma CellsRoundTrip(a: Mat, s: seq<real>)
    requires |s| == 16
    ensures FromCells(Cells(a)) == a
    ensures Cells(FromCells(s)) == s
  {
    assert Cells(FromCells(s))[..8] == s[..8];
    assert Cells(FromCells(s))[8..] == s[8..];
    assert s == s[..8] + s[8..];
  }

  /** `operator()(y, x)` reads `m[y + (x << 2)]`; for a column in 0..3 the
      shift is a multiplication by 4. */
  function Index(row: int, col: int): (k: int)
    requires 0 <= row < 4 && 0 <= col < 4
    ensures 0 <= k < 16
  {
    row + col * 4
  }

  /** The row of a cell is its index modulo 4, the column its index divided
      by 4. */
  lemma IndexInverse(row: int, col: int)
    requires 0 <= row < 4 && 0 <= col < 4
    ensures Index(row, col) % 4 == row && Index(row, col) / 4 == col
  {
  }

  /** Every storage index belongs to some cell. */
  lemma IndexOnto(k: int)
    requires 0 <= k < 16
    ensures 0 <= k % 4 < 4 && 0 <= k / 4 < 4
    ensures Index(k % 4, k / 4) == k
  {
  }

  /** Two cells with the same storage index are the same cell. */
  lemma IndexInjective(r1: int, c1: int, r2: int, c2: int)
    requires 0 <= r1 < 4 && 0 <= c1 < 4 && 0 <= r2 < 4 && 0 <= c2 < 4
    ensures Index(r1, c1) == Index(r2, c2) <==> r1 == r2 && c1 == c2
  {
    IndexInverse(r1, c1);
    IndexInverse(r2, c2);
  }

  /** The cell at (row, col), by field. */
  function At(a: Mat, row: int, col: int): real
    requires 0 <= row < 4 && 0 <= col < 4
  {
    match col
    case 0 => (match row case 0 => a.m11 case 1 => a.m21 case 2 => a.m31 case _ => a.m41)
    case 1 => (match row case 0 => a.m12 case 1 => a.m22 case 2 => a.m32 case _ => a.m42)
    case 2 => (match row case 0 => a.m13 case 1 => a.m23 case 2 => a.m33 case _ => a.m43)
    case _ => (match row case 0 => a.m14 case 1 => a.m24 case 2 => a.m34 case _ => a.m44)
  }

  /** `operator()(row, col)` reads storage index `Index(row, col)`, which
      holds the cell at (row, col). */
  lemma AtIndex(a: Mat, row: int, col: int)
    requires 0 <= row < 4 && 0 <= col < 4
    ensures Cells(a)[Index(row, col)] == At(a, row, col)
  {
  }

  /** Macro `Mij`, field `mij` and `operator()(i-1, j-1)` name the same cell. */
  lemma MacrosNameCells(a: Mat)
    ensures Cells(a)[M11] == a.m11 == At(a, 0, 0) && Cells(a)[M12] == a.m12 == At(a, 0, 1)
    ensures Cells(a)[M13] == a.m13 == At(a, 0, 2) && Cells(a)[M14] == a.m14 == At(a, 0, 3)
    ensures Cells(a)[M21] == a.m21 == At(a, 1, 0) && Cells(a)[M22] == a.m22 == At(a, 1, 1)
    ensures Cells(a)[M23] == a.m23 == At(a, 1, 2) && Cells(a)[M24] == a.m24 == At(a, 1, 3)
    ensures Cells(a)[M31] == a.m31 == At(a, 2, 0) && Cells(a)[M32] == a.m32 == At(a, 2, 1)
    ensures Cells(a)[M33] == a.m33 == At(a, 2, 2) && Cells(a)[M34] == a.m34 == At(a, 2, 3)
    ensures Cells(a)[M41] == a.m41 == At(a, 3, 0) && Cells(a)[M42] == a.m42 == At(a, 3, 1)
    ensures Cells(a)[M43] == a.m43 == At(a, 3, 2) && Cells(a)[M44] == a.m44 == At(a, 3, 3)
  {
  }

  /** Matrices that agree field by field are equal. */
  lemma FieldsEqual(a: Mat, b: Mat)
    requires a.m11 == b.m11 && a.m21 == b.m21 && a.m31 == b.m31 && a.m41 == b.m41
    requires a.m12 == b.m12 && a.m22 == b.m22 && a.m32 == b.m32 && a.m42 == b.m42
    requires a.m13 == b.m13 && a.m23 == b.m23 && a.m33 == b.m33 && a.m43 == b.m43
    requires a.m14 == b.m14 && a.m24 == b.m24 && a.m34 == b.m34 && a.m44 == b.m44
    ensures a == b
  {
  }

  /** The 16-argument constructor: the arguments come row by row and are
      stored column by column. */
  function Rows(m11: real, m12: real, m13: real, m14: real,
                m21: real, m22: real, m23: real, m24: real,
                m31: real, m32: real, m33: real, m34: real,
                m41: real, m42: real, m43: real, m44: real): Mat
  {
    Mat(m11, m21, m31, m41, m12, m22, m32, m42, m13, m23, m33, m43, m14, m24, m34, m44)
  }

  /** Argument `mij` of the 16-argument constructor lands in cell (i-1, j-1). */
  lemma RowsAt(m11: real, m12: real, m13: real, m14: real,
               m21: real, m22: real, m23: real, m24: real,
               m31: real, m32: real, m33: real, m34: real,
               m41: real, m42: real, m43: real, m44: real)
    ensures var r := Rows(m11, m12, m13, m14, m21, m22, m23, m24, m31, m32, m33, m34, m41, m42, m43, m44);
      At(r, 0, 0) == m11 && At(r, 0, 1) == m12 && At(r, 0, 2) == m13 && At(r, 0, 3) == m14 &&
      At(r, 1, 0) == m21 && At(r, 1, 1) == m22 && At(r, 1, 2) == m23 && At(r, 1, 3) == m24 &&
      At(r, 2, 0) == m31 && At(r, 2, 1) == m32 && At(r, 2, 2) == m33 && At(r, 2, 3) == m34 &&
      At(r, 3, 0) == m41 && At(r, 3, 1) == m42 && At(r, 3, 2) == m43 && At(r, 3, 3) == m44
  {
  }

  /** The default constructor and `IDENTITY`. */
  function Identity(): Mat
  {
    Rows(1.0, 0.0, 0.0, 0.0,
         0.0, 1.0, 0.0, 0.0,
         0.0, 0.0, 1.0, 0.0,
         0.0, 0.0, 0.0, 1.0)
  }

  /** The identity has ones on the diagonal and zeros elsewhere. */
  lemma IdentityAt()
    ensures forall i, j | 0 <= i < 4 && 0 <= j < 4 :: At(Identity(), i, j) == if i == j then 1.0 else 0.0
  {
  }

  // ---------------------------------------------------------------------------
  // The product

  /** x0 * w0 + x1 * w1 + x2 * w2 + x3 * w3: a row of the left factor times a
      column of the right factor, the sum the source writes for each cell of
      a product. */
  function RowTimesColumn(x0: real, x1: real, x2: real, x3: real,
                          w0: real, w1: real, w2: real, w3: real): real
  {
    x0 * w0 + x1 * w1 + x2 * w2 + x3 * w3
  }

  /** `operator*(const Matrix&, const Matrix&)`: the 16-argument constructor
      applied to the sixteen sums, row by row. */
  function Product(a: Mat, b: Mat): Mat
  {
    Rows(RowTimesColumn(a.m11, a.m12, a.m13, a.m14, b.m11, b.m21, b.m31, b.m41),
         RowTimesColumn(a.m11, a.m12, a.m13, a.m14, b.m12, b.m22, b.m32, b.m42),
         RowTimesColumn(a.m11, a.m12, a.m13, a.m14, b.m13, b.m23, b.m33, b.m43),
         RowTimesColumn(a.m11, a.m12, a.m13, a.m14, b.m14, b.m24, b.m34, b.m44),
         RowTimesColumn(a.m21, a.m22, a.m23, a.m24, b.m11, b.m21, b.m31, b.m41),
         RowTimesColumn(a.m21, a.m22, a.m23, a.m24, b.m12, b.m22, b.m32, b.m42),
         RowTimesColumn(a.m21, a.m22, a.m23, a.m24, b.m13, b.m23, b.m33, b.m43),
         RowTimesColumn(a.m21, a.m22, a.m23, a.m24, b.m14, b.m24, b.m34, b.m44),
         RowTimesColumn(a.m31, a.m32, a.m33, a.m34, b.m11, b.m21, b.m31, b.m41),
         RowTimesColumn(a.m31, a.m32, a.m33, a.m34, b.m12, b.m22, b.m32, b.m42),
         RowTimesColumn(a.m31, a.m32, a.m33, a.m34, b.m13, b.m23, b.m33, b.m43),
         RowTimesColumn(a.m31, a.m32, a.m33, a.m34, b.m14, b.m24, b.m34, b.m44),
         RowTimesColumn(a.m41, a.m42, a.m43, a.m44, b.m11, b.m21, b.m31, b.m41),
         RowTimesColumn(a.m41, a.m42, a.m43, a.m44, b.m12, b.m22, b.m32, b.m42),
         RowTimesColumn(a.m41, a.m42, a.m43, a.m44, b.m13, b.m23, b.m33, b.m43),
         RowTimesColumn(a.m41, a.m42, a.m43, a.m44, b.m14, b.m24, b.m34, b.m44))
  }

  /** The first n terms of a(i, 0) * b(0, j) + ... + a(i, 3) * b(3, j): the
      textbook definition of cell (i, j) of a product, by recursion on the
      number of terms. */
  function Dot(a: Mat, b: Mat, i: int, j: int, n: nat): real
    requires 0 <= i < 4 && 0 <= j < 4 && n <= 4
  {
    if n == 0 then 0.0 else Dot(a, b, i, j, n - 1) + At(a, i, n - 1) * At(b, n - 1, j)
  }

  /** The four terms of `Dot` for cell (i, j), with the factors of row i of a
      named x0..x3. */
  lemma DotByRow(a: Mat, b: Mat, i: int, j: int, x0: real, x1: real, x2: real, x3: real)
    requires 0 <= i < 4 && 0 <= j < 4
    requires At(a, i, 0) == x0 && At(a, i, 1) == x1 && At(a, i, 2) == x2 && At(a, i, 3) == x3
    ensures Dot(a, b, i, j, 4) == RowTimesColumn(x0, x1, x2, x3, At(b, 0, j), At(b, 1, j), At(b, 2, j), At(b, 3, j))
  {
    assert Dot(a, b, i, j, 1) == x0 * At(b, 0, j);
    assert Dot(a, b, i, j, 2) == x0 * At(b, 0, j) + x1 * At(b, 1, j);
    assert Dot(a, b, i, j, 3) == x0 * At(b, 0, j) + x1 * At(b, 1, j) + x2 * At(b, 2, j);
  }

  /** Each of the sixteen sums the source writes out is the sum over k of
      a(i, k) * b(k, j): no index is mistyped. */
  lemma ProductAt(a: Mat, b: Mat, i: int, j: int)
    requires 0 <= i < 4 && 0 <= j < 4
    ensures At(Product(a, b), i, j) == Dot(a, b, i, j, 4)
  {
    DotByRow(a, b, i, j, At(a, i, 0), At(a, i, 1), At(a, i, 2), At(a, i, 3));
  }

  // ---------------------------------------------------------------------------
  // Entrywise arithmetic on values

  /** The value `operator+=` leaves behind: the cells added one by one. */
  function Add(a: Mat, b: Mat): Mat
  {
    Mat(a.m11 + b.m11, a.m21 + b.m21, a.m31 + b.m31, a.m41 + b.m41,
        a.m12 + b.m12, a.m22 + b.m22, a.m32 + b.m32, a.m42 + b.m42,
        a.m13 + b.m13, a.m23 + b.m23, a.m33 + b.m33, a.m43 + b.m43,
        a.m14 + b.m14, a.m24 + b.m24, a.m34 + b.m34, a.m44 + b.m44)
  }

  /** The value `operator-=` leaves behind: the cells subtracted one by one. */
  function Sub(a: Mat, b: Mat): Mat
  {
    Mat(a.m11 - b.m11, a.m21 - b.m21, a.m31 - b.m31, a.m41 - b.m41,
        a.m12 - b.m12, a.m22 - b.m22, a.m32 - b.m32, a.m42 - b.m42,
        a.m13 - b.m13, a.m23 - b.m23, a.m33 - b.m33, a.m43 - b.m43,
        a.m14 - b.m14, a.m24 - b.m24, a.m34 - b.m34, a.m44 - b.m44)
  }

  /** x * s: a cell multiplied by a factor, the update `*=` and `scale`
      make to each cell they touch. */
  function CellTimes(x: real, s: real): real
  {
    x * s
  }

  /** The value `operator*=(float s)` leaves behind: every cell times s. */
  function MulScalar(a: Mat, s: real): Mat
  {
    Mat(CellTimes(a.m11, s), CellTimes(a.m21, s), CellTimes(a.m31, s), CellTimes(a.m41, s),
        CellTimes(a.m12, s), CellTimes(a.m22, s), CellTimes(a.m32, s), CellTimes(a.m42, s),
        CellTimes(a.m13, s), CellTimes(a.m23, s), CellTimes(a.m33, s), CellTimes(a.m43, s),
        CellTimes(a.m14, s), CellTimes(a.m24, s), CellTimes(a.m34, s), CellTimes(a.m44, s))
  }

  /** The zero matrix. */
  function Zero(): Mat
  {
    Rows(0.0, 0.0, 0.0, 0.0, 0.0, 0.0, 0.0, 0.0, 0.0, 0.0, 0.0, 0.0, 0.0, 0.0, 0.0, 0.0)
  }

  /** `-=` undoes `+=`. */
  lemma AddSubInverse(a: Mat, b: Mat)
    ensures Sub(Add(a, b), b) == a
  {
  }

  /** The order of the operands of `+` does not matter. */
  lemma AddCommutes(a: Mat, b: Mat)
    ensures Add(a, b) == Add(b, a)
  {
  }

  /** Unary minus, `m * -1`, gives the additive inverse, and adding it is subtracting. */
  lemma NegationIsInverse(a: Mat, b: Mat)
    ensures Add(a, MulScalar(a, -1.0)) == Zero()
    ensures Add(b, MulScalar(a, -1.0)) == Sub(b, a)
  {
  }

  // ---------------------------------------------------------------------------
  // The in-place shortcuts, on values

  /** x, y or z, by position 0, 1 or 2. */
  function Pick(i: int, x: real, y: real, z: real): real
    requires 0 <= i < 3
  {
    if i == 0 then x else if i == 1 then y else z
  }

  /** The value `translate(x, y, z)` leaves behind. */
  function Translated(a: Mat, x: real, y: real, z: real): Mat
  {
    a.(m14 := a.m14 + x, m24 := a.m24 + y, m34 := a.m34 + z)
  }

  /** `translate(x, y, z)` adds x, y, z to the top three cells of the last
      column and changes nothing else. */
  lemma TranslatedCells(a: Mat, x: real, y: real, z: real)
    ensures forall i | 0 <= i < 3 :: At(Translated(a, x, y, z), i, 3) == At(a, i, 3) + Pick(i, x, y, z)
    ensures forall i, j | 0 <= i < 4 && 0 <= j < 4 && (i == 3 || j < 3) ::
      At(Translated(a, x, y, z), i, j) == At(a, i, j)
  {
  }

  /** The value `scale(x, y, z)` leaves behind. */
  function Scaled(a: Mat, x: real, y: real, z: real): Mat
  {
    a.(m11 := CellTimes(a.m11, x), m12 := CellTimes(a.m12, x), m13 := CellTimes(a.m13, x),
       m21 := CellTimes(a.m21, y), m22 := CellTimes(a.m22, y), m23 := CellTimes(a.m23, y),
       m31 := CellTimes(a.m31, z), m32 := CellTimes(a.m32, z), m33 := CellTimes(a.m33, z))
  }

  /** `scale(x, y, z)` multiplies the first three cells of row 0 by x, of
      row 1 by y and of row 2 by z, and changes nothing else. */
  lemma ScaledCells(a: Mat, x: real, y: real, z: real)
    ensures forall j | 0 <= j < 3 :: At(Scaled(a, x, y, z), 0, j) == At(a, 0, j) * x
    ensures forall j | 0 <= j < 3 :: At(Scaled(a, x, y, z), 1, j) == At(a, 1, j) * y
    ensures forall j | 0 <= j < 3 :: At(Scaled(a, x, y, z), 2, j) == At(a, 2, j) * z
    ensures forall i, j | 0 <= i < 4 && 0 <= j < 4 && (i == 3 || j == 3) ::
      At(Scaled(a, x, y, z), i, j) == At(a, i, j)
  {
  }

  /** p * x + q * y: the sum each rotation shortcut writes for a cell it
      rotates. */
  function Combine(p: real, x: real, q: real, y: real): real
  {
    p * x + q * y
  }

  /** The value `rotateX(angle)` leaves behind, for s = sin(angle), c = cos(angle):
      in every row, the cells of columns 1 and 2 are rotated. */
  function RotatedX(a: Mat, s: real, c: real): Mat
  {
    a.(m12 := Combine(c, a.m12, s, a.m13), m13 := Combine(-s, a.m12, c, a.m13),
       m22 := Combine(c, a.m22, s, a.m23), m23 := Combine(-s, a.m22, c, a.m23),
       m32 := Combine(c, a.m32, s, a.m33), m33 := Combine(-s, a.m32, c, a.m33),
       m42 := Combine(c, a.m42, s, a.m43), m43 := Combine(-s, a.m42, c, a.m43))
  }

  /** The value `rotateY(angle)` leaves behind: columns 0 and 2 are rotated. */
  function RotatedY(a: Mat, s: real, c: real): Mat
  {
    a.(m11 := Combine(c, a.m11, -s, a.m13), m13 := Combine(s, a.m11, c, a.m13),
       m21 := Combine(c, a.m21, -s, a.m23), m23 := Combine(s, a.m21, c, a.m23),
       m31 := Combine(c, a.m31, -s, a.m33), m33 := Combine(s, a.m31, c, a.m33),
       m41 := Combine(c, a.m41, -s, a.m43), m43 := Combine(s, a.m41, c, a.m43))
  }

  /** The value `rotateZ(angle)` leaves behind: columns 0 and 1 are rotated. */
  function RotatedZ(a: Mat, s: real, c: real): Mat
  {
    a.(m11 := Combine(c, a.m11, -s, a.m12), m12 := Combine(s, a.m11, c, a.m12),
       m21 := Combine(c, a.m21, -s, a.m22), m22 := Combine(s, a.m21, c, a.m22),
       m31 := Combine(c, a.m31, -s, a.m32), m32 := Combine(s, a.m31, c, a.m32),
       m41 := Combine(c, a.m41, -s, a.m42), m42 := Combine(s, a.m41, c, a.m42))
  }

  /** `rotateZ` with the sine terms of `rotateX` and `rotateY`'s convention:
      columns 0 and 1 rotated the way `rotationMatrix` about (0, 0, 1) rotates
      them. */
  function IntendedRotatedZ(a: Mat, s: real, c: real): Mat
  {
    a.(m11 := Combine(c, a.m11, s, a.m12), m12 := Combine(-s, a.m11, c, a.m12),
       m21 := Combine(c, a.m21, s, a.m22), m22 := Combine(-s, a.m21, c, a.m22),
       m31 := Combine(c, a.m31, s, a.m32), m32 := Combine(-s, a.m31, c, a.m32),
       m41 := Combine(c, a.m41, s, a.m42), m42 := Combine(-s, a.m41, c, a.m42))
  }

  /** Each rotation shortcut leaves the two columns it does not rotate alone. */
  lemma RotatedColumnsKept(a: Mat, s: real, c: real)
    ensures forall i | 0 <= i < 4 :: At(RotatedX(a, s, c), i, 0) == At(a, i, 0) && At(RotatedX(a, s, c), i, 3) == At(a, i, 3)
    ensures forall i | 0 <= i < 4 :: At(RotatedY(a, s, c), i, 1) == At(a, i, 1) && At(RotatedY(a, s, c), i, 3) == At(a, i, 3)
    ensures forall i | 0 <= i < 4 :: At(RotatedZ(a, s, c), i, 2) == At(a, i, 2) && At(RotatedZ(a, s, c), i, 3) == At(a, i, 3)
  {
  }

  /** The value `transpose()` leaves behind: six cells swapped with their mirror cells. */
  function Transposed(a: Mat): Mat
  {
    a.(m12 := a.m21, m21 := a.m12, m13 := a.m31, m31 := a.m13, m14 := a.m41, m41 := a.m14,
       m23 := a.m32, m32 := a.m23, m24 := a.m42, m42 := a.m24, m34 := a.m43, m43 := a.m34)
  }

  /** Cell (i, j) of the transpose is cell (j, i); the diagonal stays. */
  lemma TransposedAt(a: Mat)
    ensures forall i, j | 0 <= i < 4 && 0 <= j < 4 :: At(Transposed(a), i, j) == At(a, j, i)
  {
  }

  // ---------------------------------------------------------------------------
  // Special matrices

  /** A matrix whose last row is (0, 0, 0, 1): it maps points to points. */
  predicate IsAffine(a: Mat)
  {
    At(a, 3, 0) == 0.0 && At(a, 3, 1) == 0.0 && At(a, 3, 2) == 0.0 && At(a, 3, 3) == 1.0
  }

  /** `translationMatrix(x, y, z)`. */
  function TranslationMatrix(x: real, y: real, z: real): Mat
  {
    Rows(1.0, 0.0, 0.0, x,
         0.0, 1.0, 0.0, y,
         0.0, 0.0, 1.0, z,
         0.0, 0.0, 0.0, 1.0)
  }

  /** `scalingMatrix(x, y, z)`. */
  function ScalingMatrix(x: real, y: real, z: real): Mat
  {
    Rows(x, 0.0, 0.0, 0.0,
         0.0, y, 0.0, 0.0,
         0.0, 0.0, z, 0.0,
         0.0, 0.0, 0.0, 1.0)
  }

  /** The literal `rotationMatrix` returns once the axis (x, y, z) is final,
      with ic = 1 - c. */
  function AxisRotation(s: real, c: real, x: real, y: real, z: real): Mat
  {
    var ic := 1.0 - c;
    Rows(c + ic * x * x,     ic * x * y - s * z, ic * x * z + s * y, 0.0,
         ic * x * y + s * z, c + ic * y * y,     ic * y * z - s * x, 0.0,
         ic * x * z - s * y, ic * y * z + s * x, c + ic * z * z,     0.0,
         0.0,                0.0,                0.0,                1.0)
  }

  /** What `rotationMatrix` needs of its axis over the reals: a squared
      length of 1 (used as is) or one whose square root is not 0 (the axis is
      divided by it). */
  predicate AxisUsable(x: real, y: real, z: real, sqrt: real -> real)
  {
    var len := x * x + y * y + z * z;
    len == 1.0 || sqrt(len) != 0.0
  }

  /** `rotationMatrix(angle, x, y, z)` with s = sin(angle) and c = cos(angle):
      an axis whose squared length is not 1 is first scaled by
      1 / sqrt(squared length). */
  function RotationMatrix(s: real, c: real, x: real, y: real, z: real, sqrt: real -> real): Mat
    requires AxisUsable(x, y, z, sqrt)
  {
    var len := x * x + y * y + z * z;
    if len != 1.0 then
      var k := 1.0 / sqrt(len);
      AxisRotation(s, c, x * k, y * k, z * k)
    else
      AxisRotation(s, c, x, y, z)
  }

  /** `rotationMatrix` always has (0, 0, 0, 1) as last row and as last column. */
  lemma RotationMatrixIsAffine(s: real, c: real, x: real, y: real, z: real, sqrt: real -> real)
    requires AxisUsable(x, y, z, sqrt)
    ensures IsAffine(RotationMatrix(s, c, x, y, z, sqrt))
    ensures var r := RotationMatrix(s, c, x, y, z, sqrt);
      At(r, 0, 3) == 0.0 && At(r, 1, 3) == 0.0 && At(r, 2, 3) == 0.0
  {
  }

  /** The rotation by (s, c) about the x axis: y goes to (0, c, s). */
  function XRotation(s: real, c: real): Mat
  {
    Rows(1.0, 0.0, 0.0, 0.0,
         0.0, c, -s, 0.0,
         0.0, s, c, 0.0,
         0.0, 0.0, 0.0, 1.0)
  }

  /** The rotation by (s, c) about the y axis: z goes to (s, 0, c). */
  function YRotation(s: real, c: real): Mat
  {
    Rows(c, 0.0, s, 0.0,
         0.0, 1.0, 0.0, 0.0,
         -s, 0.0, c, 0.0,
         0.0, 0.0, 0.0, 1.0)
  }

  /** The rotation by (s, c) about the z axis: x goes to (c, s, 0). */
  function ZRotation(s: real, c: real): Mat
  {
    Rows(c, -s, 0.0, 0.0,
         s, c, 0.0, 0.0,
         0.0, 0.0, 1.0, 0.0,
         0.0, 0.0, 0.0, 1.0)
  }

  /** `frustumMatrix(l, r, b, t, n, f)` as written; cell (1, 2) divides by
      t - n. Over the reals the four denominators must not be 0. */
  function FrustumMatrix(l: real, r: real, b: real, t: real, n: real, f: real): Mat
    requires r != l && t != b && t != n && n != f
  {
    Rows(2.0 * n / (r - l), 0.0,               (r + l) / (r - l), 0.0,
         0.0,               2.0 * n / (t - b), (t + b) / (t - n), 0.0,
         0.0,               0.0,               (f + n) / (n - f), 2.0 * f * n / (n - f),
         0.0,               0.0,               -1.0,              0.0)
  }

  /** `frustumMatrix` with cell (1, 2) divided by t - b, like cell (0, 2) is
      divided by r - l. */
  function IntendedFrustumMatrix(l: real, r: real, b: real, t: real, n: real, f: real): Mat
    requires r != l && t != b && n != f
  {
    Rows(2.0 * n / (r - l), 0.0,               (r + l) / (r - l), 0.0,
         0.0,               2.0 * n / (t - b), (t + b) / (t - b), 0.0,
         0.0,               0.0,               (f + n) / (n - f), 2.0 * f * n / (n - f),
         0.0,               0.0,               -1.0,              0.0)
  }

  /** `perspectiveMatrix(fovy, aspect, n, f)`, with the tangent as a parameter:
      t = 1 / tan(fovy / 2). Over the reals the tangent, the aspect ratio and
      n - f must not be 0. */
  function PerspectiveMatrix(fovy: real, aspect: real, n: real, f: real, tan: real -> real): Mat
    requires tan(fovy / 2.0) != 0.0 && aspect != 0.0 && n != f
  {
    var t := 1.0 / tan(fovy / 2.0);
    Rows(t / aspect, 0.0, 0.0,               0.0,
         0.0,        t,   0.0,               0.0,
         0.0,        0.0, (f + n) / (n - f), 2.0 * f * n / (n - f),
         0.0,        0.0, -1.0,              0.0)
  }

  // ---------------------------------------------------------------------------
  // Points

  /** x * r0 + y * r1 + z * r2 + r3: the point (x, y, z, 1) against one row of
      a matrix, the sum the source writes for each component of `m * v`. */
  function PointTimesRow(x: real, y: real, z: real, r0: real, r1: real, r2: real, r3: real): real
  {
    x * r0 + y * r1 + z * r2 + r3
  }

  /** `operator*(const Matrix&, const Vector&)`: the first three rows applied
      to (v[0], v[1], v[2], 1); the last row is not used. */
  function Transform(a: Mat, v: Vectors.Vec3): Vectors.Vec3
  {
    [PointTimesRow(v[0], v[1], v[2], a.m11, a.m12, a.m13, a.m14),
     PointTimesRow(v[0], v[1], v[2], a.m21, a.m22, a.m23, a.m24),
     PointTimesRow(v[0], v[1], v[2], a.m31, a.m32, a.m33, a.m34)]
  }

  /** The four homogeneous coordinates of the image of (x, y, z, 1). */
  datatype Point4 = Point4(x: real, y: real, z: real, w: real)

  /** All four rows applied to (x, y, z, 1): the point in clip coordinates
      that a projection matrix is designed for. */
  function Homogeneous(a: Mat, x: real, y: real, z: real): Point4
  {
    Point4(PointTimesRow(x, y, z, a.m11, a.m12, a.m13, a.m14),
           PointTimesRow(x, y, z, a.m21, a.m22, a.m23, a.m24),
           PointTimesRow(x, y, z, a.m31, a.m32, a.m33, a.m34),
           PointTimesRow(x, y, z, a.m41, a.m42, a.m43, a.m44))
  }

  // ---------------------------------------------------------------------------
  // The class: a matrix whose cells live in the buffer `m`

  class Matrix {
    /** `float m[16]`, column by column. */
    var m: array<real>

    ghost predicate Valid()
      reads this
    {
      m.Length == 16
    }

    /** The value the buffer currently holds. */
    function Value(): Mat
      requires Valid()
      reads this, m
    {
      FromCells(m[..])
    }

    /** The const `operator()(y, x)`: the cell at row y, column x. */
    function Get(y: int, x: int): (r: real)
      requires Valid()
      requires 0 <= y < 4 && 0 <= x < 4
      reads this, m
      ensures r == At(Value(), y, x)
    {
      m[Index(y, x)]
    }

    /** `Matrix()`: ones on the diagonal, zeros elsewhere. */
    constructor ()
      ensures Valid() && fresh(m)
      ensures Value() == Identity()
    {
      m := new real[16] [1.0, 0.0, 0.0, 0.0, 0.0, 1.0, 0.0, 0.0,
                         0.0, 0.0, 1.0, 0.0, 0.0, 0.0, 0.0, 1.0];
    }

    /** The 16-argument constructor: the arguments come row by row and are
        stored column by column. */
    constructor FromRows(m11: real, m12: real, m13: real, m14: real,
                         m21: real, m22: real, m23: real, m24: real,
                         m31: real, m32: real, m33: real, m34: real,
                         m41: real, m42: real, m43: real, m44: real)
      ensures Valid() && fresh(m)
      ensures Value() == Rows(m11, m12, m13, m14, m21, m22, m23, m24,
                              m31, m32, m33, m34, m41, m42, m43, m44)
    {
      m := new real[16] [m11, m21, m31, m41, m12, m22, m32, m42,
                         m13, m23, m33, m43, m14, m24, m34, m44];
    }

    /** A matrix holding the value a factory function returns. */
    constructor FromValue(a: Mat)
      ensures Valid() && fresh(m)
      ensures Value() == a
    {
      m := new real[16] [a.m11, a.m21, a.m31, a.m41, a.m12, a.m22, a.m32, a.m42,
                         a.m13, a.m23, a.m33, a.m43, a.m14, a.m24, a.m34, a.m44];
    }

    /** `Matrix(const Matrix&)`: a copy in a buffer of its own. */
    constructor Copy(other: Matrix)
      requires other.Valid()
      ensures Valid() && fresh(m)
      ensures Value() == other.Value()
    {
      var o := other.m;
      m := new real[16] [o[0], o[1], o[2], o[3], o[4], o[5], o[6], o[7],
                         o[8], o[9], o[10], o[11], o[12], o[13], o[14], o[15]];
    }

    /** `operator=`: each cell takes the value of the same cell of `other`
        (which may be this matrix). */
    method Assign(other: Matrix) returns (self: Matrix)
      requires Valid() && other.Valid()
      modifies m
      ensures Valid() && self == this
      ensures Value() == old(other.Value())
    {
      var o := other.m;
      forall k | 0 <= k < 16 {
        m[k] := o[k];
      }
      self := this;
    }

    /** `operator+=`: each cell grows by the same cell of `other`. */
    method AddAssign(other: Matrix) returns (self: Matrix)
      requires Valid() && other.Valid()
      modifies m
      ensures Valid() && self == this
      ensures Value() == Add(old(Value()), old(other.Value()))
    {
      var o := other.m;
      forall k | 0 <= k < 16 {
        m[k] := m[k] + o[k];
      }
      self := this;
    }

    /** `operator-=`: each cell shrinks by the same cell of `other`. */
    method SubAssign(other: Matrix) returns (self: Matrix)
      requires Valid() && other.Valid()
      modifies m
      ensures Valid() && self == this
      ensures Value() == Sub(old(Value()), old(other.Value()))
    {
      var o := other.m;
      forall k | 0 <= k < 16 {
        m[k] := m[k] - o[k];
      }
      self := this;
    }

    /** `operator*=(float s)`: every cell times s. */
    method MulAssignScalar(s: real) returns (self: Matrix)
      requires Valid()
      modifies m
      ensures Valid() && self == this
      ensures Value() == MulScalar(old(Value()), s)
    {
      forall k | 0 <= k < 16 {
        m[k] := CellTimes(m[k], s);
      }
      self := this;
    }

    /** `operator/=(float s)`: exactly `*this *= 1 / s`; over the reals s must
        not be 0. */
    method DivAssign(s: real) returns (self: Matrix)
      requires Valid()
      requires s != 0.0
      modifies m
      ensures Valid() && self == this
      ensures Value() == MulScalar(old(Value()), 1.0 / s)
    {
      self := MulAssignScalar(1.0 / s);
    }

    /** `operator*=(const Matrix&)`: this matrix times `other`, computed in
        place row by row. The first three cells of a row are saved in m1, m2,
        m3 before they are overwritten; the fourth is read for the last time
        in the statement that overwrites it. `other` must not share this
        matrix's buffer: its cells are read after cells of this matrix have
        been written. */
    method MulAssign(other: Matrix) returns (self: Matrix)
      requires Valid() && other.Valid()
      requires other.m != m
      modifies m
      ensures Valid() && self == this
      ensures Value() == Product(old(Value()), old(other.Value()))
    {
      var o := other.m;
      var m1, m2, m3 := m[M11], m[M12], m[M13];
      m[M11] := RowTimesColumn(m1, m2, m3, m[M14], o[M11], o[M21], o[M31], o[M41]);
      m[M12] := RowTimesColumn(m1, m2, m3, m[M14], o[M12], o[M22], o[M32], o[M42]);
      m[M13] := RowTimesColumn(m1, m2, m3, m[M14], o[M13], o[M23], o[M33], o[M43]);
      m[M14] := RowTimesColumn(m1, m2, m3, m[M14], o[M14], o[M24], o[M34], o[M44]);

      m1, m2, m3 := m[M21], m[M22], m[M23];
      m[M21] := RowTimesColumn(m1, m2, m3, m[M24], o[M11], o[M21], o[M31], o[M41]);
      m[M22] := RowTimesColumn(m1, m2, m3, m[M24], o[M12], o[M22], o[M32], o[M42]);
      m[M23] := RowTimesColumn(m1, m2, m3, m[M24], o[M13], o[M23], o[M33], o[M43]);
      m[M24] := RowTimesColumn(m1, m2, m3, m[M24], o[M14], o[M24], o[M34], o[M44]);

      m1, m2, m3 := m[M31], m[M32], m[M33];
      m[M31] := RowTimesColumn(m1, m2, m3, m[M34], o[M11], o[M21], o[M31], o[M41]);
      m[M32] := RowTimesColumn(m1, m2, m3, m[M34], o[M12], o[M22], o[M32], o[M42]);
      m[M33] := RowTimesColumn(m1, m2, m3, m[M34], o[M13], o[M23], o[M33], o[M43]);
      m[M34] := RowTimesColumn(m1, m2, m3, m[M34], o[M14], o[M24], o[M34], o[M44]);

      m1, m2, m3 := m[M41], m[M42], m[M43];
      m[M41] := RowTimesColumn(m1, m2, m3, m[M44], o[M11], o[M21], o[M31], o[M41]);
      m[M42] := RowTimesColumn(m1, m2, m3, m[M44], o[M12], o[M22], o[M32], o[M42]);
      m[M43] := RowTimesColumn(m1, m2, m3, m[M44], o[M13], o[M23], o[M33], o[M43]);
      m[M44] := RowTimesColumn(m1, m2, m3, m[M44], o[M14], o[M24], o[M34], o[M44]);
      self := this;
    }

    /** The writable `operator()(y, x)`: stores r in the cell at row y,
        column x; no other cell changes. */
    method Set(y: int, x: int, r: real)
      requires Valid()
      requires 0 <= y < 4 && 0 <= x < 4
      modifies m
      ensures Valid()
      ensures m[..] == old(m[..])[Index(y, x) := r]
      ensures At(Value(), y, x) == r
    {
      m[Index(y, x)] := r;
      AtIndex(Value(), y, x);
      CellsRoundTrip(Value(), m[..]);
    }

    /** `translate(x, y, z)`. */
    method Translate(x: real, y: real, z: real) returns (self: Matrix)
      requires Valid()
      modifies m
      ensures Valid() && self == this
      ensures Value() == Translated(old(Value()), x, y, z)
    {
      m[M14] := m[M14] + x;
      m[M24] := m[M24] + y;
      m[M34] := m[M34] + z;
      self := this;
    }

    /** `translate(const Vector& v)`: `translate(v[0], v[1], v[2])`. */
    method TranslateBy(v: Vectors.Vector) returns (self: Matrix)
      requires Valid() && v.Valid()
      modifies m
      ensures Valid() && self == this
      ensures Value() == Translated(old(Value()), old(v.Value()[0]), old(v.Value()[1]), old(v.Value()[2]))
    {
      self := Translate(v.v[0], v.v[1], v.v[2]);
    }

    /** `scale(x, y, z)`. */
    method Scale(x: real, y: real, z: real) returns (self: Matrix)
      requires Valid()
      modifies m
      ensures Valid() && self == this
      ensures Value() == Scaled(old(Value()), x, y, z)
    {
      m[M11] := CellTimes(m[M11], x); m[M12] := CellTimes(m[M12], x); m[M13] := CellTimes(m[M13], x);
      m[M21] := CellTimes(m[M21], y); m[M22] := CellTimes(m[M22], y); m[M23] := CellTimes(m[M23], y);
      m[M31] := CellTimes(m[M31], z); m[M32] := CellTimes(m[M32], z); m[M33] := CellTimes(m[M33], z);
      self := this;
    }

    /** `scale(const Vector& v)`: `scale(v[0], v[1], v[2])`. */
    method ScaleBy(v: Vectors.Vector) returns (self: Matrix)
      requires Valid() && v.Valid()
      modifies m
      ensures Valid() && self == this
      ensures Value() == Scaled(old(Value()), old(v.Value()[0]), old(v.Value()[1]), old(v.Value()[2]))
    {
      self := Scale(v.v[0], v.v[1], v.v[2]);
    }

    /** `rotate(angle, x, y, z)`: `*this *= rotationMatrix(angle, x, y, z)`, with
        s = sin(angle) and c = cos(angle). */
    method Rotate(s: real, c: real, x: real, y: real, z: real, sqrt: real -> real) returns (self: Matrix)
      requires Valid()
      requires AxisUsable(x, y, z, sqrt)
      modifies m
      ensures Valid() && self == this
      ensures Value() == Product(old(Value()), RotationMatrix(s, c, x, y, z, sqrt))
    {
      var r := new Matrix.FromValue(RotationMatrix(s, c, x, y, z, sqrt));
      self := MulAssign(r);
    }

    /** `rotate(angle, const Vector& v)`: `rotate(angle, v[0], v[1], v[2])`. */
    method RotateAbout(s: real, c: real, v: Vectors.Vector, sqrt: real -> real) returns (self: Matrix)
      requires Valid() && v.Valid()
      requires AxisUsable(v.Value()[0], v.Value()[1], v.Value()[2], sqrt)
      modifies m
      ensures Valid() && self == this
      ensures Value() == Product(old(Value()), RotationMatrix(s, c, old(v.Value()[0]), old(v.Value()[1]), old(v.Value()[2]), sqrt))
    {
      self := Rotate(s, c, v.v[0], v.v[1], v.v[2], sqrt);
    }

    /** `rotateX(angle)`, with s = sin(angle) and c = cos(angle): in every row
        the cells of columns 1 and 2 are rotated, the old column-1 cell kept in
        `tmp`. */
    method RotateX(s: real, c: real) returns (self: Matrix)
      requires Valid()
      modifies m
      ensures Valid() && self == this
      ensures Value() == RotatedX(old(Value()), s, c)
    {
      var tmp := m[M12];
      m[M12] := Combine(c, m[M12], s, m[M13]);
      m[M13] := Combine(-s, tmp, c, m[M13]);

      tmp := m[M22];
      m[M22] := Combine(c, m[M22], s, m[M23]);
      m[M23] := Combine(-s, tmp, c, m[M23]);

      tmp := m[M32];
      m[M32] := Combine(c, m[M32], s, m[M33]);
      m[M33] := Combine(-s, tmp, c, m[M33]);

      tmp := m[M42];
      m[M42] := Combine(c, m[M42], s, m[M43]);
      m[M43] := Combine(-s, tmp, c, m[M43]);
      self := this;
    }

    /** `rotateY(angle)`: in every row the cells of columns 0 and 2 are rotated. */
    method RotateY(s: real, c: real) returns (self: Matrix)
      requires Valid()
      modifies m
      ensures Valid() && self == this
      ensures Value() == RotatedY(old(Value()), s, c)
    {
      var tmp := m[M11];
      m[M11] := Combine(c, m[M11], -s, m[M13]);
      m[M13] := Combine(s, tmp, c, m[M13]);

      tmp := m[M21];
      m[M21] := Combine(c, m[M21], -s, m[M23]);
      m[M23] := Combine(s, tmp, c, m[M23]);

      tmp := m[M31];
      m[M31] := Combine(c, m[M31], -s, m[M33]);
      m[M33] := Combine(s, tmp, c, m[M33]);

      tmp := m[M41];
      m[M41] := Combine(c, m[M41], -s, m[M43]);
      m[M43] := Combine(s, tmp, c, m[M43]);
      self := this;
    }

    /** `rotateZ(angle)`: in every row the cells of columns 0 and 1 are rotated. */
    method RotateZ(s: real, c: real) returns (self: Matrix)
      requires Valid()
      modifies m
      ensures Valid() && self == this
      ensures Value() == RotatedZ(old(Value()), s, c)
    {
      var tmp := m[M11];
      m[M11] := Combine(c, m[M11], -s, m[M12]);
      m[M12] := Combine(s, tmp, c, m[M12]);

      tmp := m[M21];
      m[M21] := Combine(c, m[M21], -s, m[M22]);
      m[M22] := Combine(s, tmp, c, m[M22]);

      tmp := m[M31];
      m[M31] := Combine(c, m[M31], -s, m[M32]);
      m[M32] := Combine(s, tmp, c, m[M32]);

      tmp := m[M41];
      m[M41] := Combine(c, m[M41], -s, m[M42]);
      m[M42] := Combine(s, tmp, c, m[M42]);
      self := this;
    }

    /** `transpose()`: six swaps through `t`, one per pair of mirror cells. */
    method Transpose() returns (self: Matrix)
      requires Valid()
      modifies m
      ensures Valid() && self == this
      ensures Value() == Transposed(old(Value()))
    {
      var t;
      t := m[M12]; m[M12] := m[M21]; m[M21] := t;
      t := m[M13]; m[M13] := m[M31]; m[M31] := t;
      t := m[M14]; m[M14] := m[M41]; m[M41] := t;
      t := m[M23]; m[M23] := m[M32]; m[M32] := t;
      t := m[M24]; m[M24] := m[M42]; m[M42] := t;
      t := m[M34]; m[M34] := m[M43]; m[M43] := t;
      self := this;
    }
  }

  // ---------------------------------------------------------------------------
  // Free operators: copy the operand, then run an in-place operator on the copy

  /** Unary `+m`: an equal copy. */
  method Positive(a: Matrix) returns (r: Matrix)
    requires a.Valid()
    ensures fresh(r) && fresh(r.m) && r.Valid()
    ensures r.Value() == a.Value()
  {
    r := new Matrix.Copy(a);
  }

  /** Unary `-m`: `m * -1`. */
  method Negative(a: Matrix) returns (r: Matrix)
    requires a.Valid()
    ensures fresh(r) && fresh(r.m) && r.Valid()
    ensures r.Value() == MulScalar(a.Value(), -1.0)
  {
    r := TimesScalar(a, -1.0);
  }

  /** `a + b`, leaving both operands as they were. */
  method Plus(a: Matrix, b: Matrix) returns (r: Matrix)
    requires a.Valid() && b.Valid()
    ensures fresh(r) && fresh(r.m) && r.Valid()
    ensures r.Value() == Add(a.Value(), b.Value())
    ensures a.Value() == old(a.Value()) && b.Value() == old(b.Value())
  {
    r := new Matrix.Copy(a);
    var _ := r.AddAssign(b);
  }

  /** `a - b`, leaving both operands as they were. */
  method Minus(a: Matrix, b: Matrix) returns (r: Matrix)
    requires a.Valid() && b.Valid()
    ensures fresh(r) && fresh(r.m) && r.Valid()
    ensures r.Value() == Sub(a.Value(), b.Value())
    ensures a.Value() == old(a.Value()) && b.Value() == old(b.Value())
  {
    r := new Matrix.Copy(a);
    var _ := r.SubAssign(b);
  }

  /** `m * s`, leaving m as it was. */
  method TimesScalar(a: Matrix, s: real) returns (r: Matrix)
    requires a.Valid()
    ensures fresh(r) && fresh(r.m) && r.Valid()
    ensures r.Value() == MulScalar(a.Value(), s)
    ensures a.Value() == old(a.Value())
  {
    r := new Matrix.Copy(a);
    var _ := r.MulAssignScalar(s);
  }

  /** `s * m`: `m * s`. */
  method ScalarTimes(s: real, a: Matrix) returns (r: Matrix)
    requires a.Valid()
    ensures fresh(r) && fresh(r.m) && r.Valid()
    ensures r.Value() == MulScalar(a.Value(), s)
    ensures a.Value() == old(a.Value())
  {
    r := TimesScalar(a, s);
  }

  /** `m / s`, leaving m as it was; over the reals s must not be 0. */
  method DividedBy(a: Matrix, s: real) returns (r: Matrix)
    requires a.Valid()
    requires s != 0.0
    ensures fresh(r) && fresh(r.m) && r.Valid()
    ensures r.Value() == MulScalar(a.Value(), 1.0 / s)
    ensures a.Value() == old(a.Value())
  {
    r := new Matrix.Copy(a);
    var _ := r.DivAssign(s);
  }

  /** The free `rotate(m, angle, x, y, z)`: a rotated copy. */
  method Rotated(a: Matrix, s: real, c: real, x: real, y: real, z: real, sqrt: real -> real) returns (r: Matrix)
    requires a.Valid()
    requires AxisUsable(x, y, z, sqrt)
    ensures fresh(r) && fresh(r.m) && r.Valid()
    ensures r.Value() == Product(a.Value(), RotationMatrix(s, c, x, y, z, sqrt))
    ensures a.Value() == old(a.Value())
  {
    r := new Matrix.Copy(a);
    var _ := r.Rotate(s, c, x, y, z, sqrt);
  }

  /** The free `rotate(m, angle, v)`: a copy rotated about v. */
  method RotatedAbout(a: Matrix, s: real, c: real, v: Vectors.Vector, sqrt: real -> real) returns (r: Matrix)
    requires a.Valid() && v.Valid()
    requires AxisUsable(v.Value()[0], v.Value()[1], v.Value()[2], sqrt)
    ensures fresh(r) && fresh(r.m) && r.Valid()
    ensures r.Value() == Product(a.Value(), RotationMatrix(s, c, v.Value()[0], v.Value()[1], v.Value()[2], sqrt))
    ensures a.Value() == old(a.Value())
  {
    r := new Matrix.Copy(a);
    var _ := r.RotateAbout(s, c, v, sqrt);
  }

  /** The free `rotateX(m, angle)`. */
  method RotatedXCopy(a: Matrix, s: real, c: real) returns (r: Matrix)
    requires a.Valid()
    ensures fresh(r) && fresh(r.m) && r.Valid()
    ensures r.Value() == RotatedX(a.Value(), s, c)
    ensures a.Value() == old(a.Value())
  {
    r := new Matrix.Copy(a);
    var _ := r.RotateX(s, c);
  }

  /** The free `rotateY(m, angle)`. */
  method RotatedYCopy(a: Matrix, s: real, c: real) returns (r: Matrix)
    requires a.Valid()
    ensures fresh(r) && fresh(r.m) && r.Valid()
    ensures r.Value() == RotatedY(a.Value(), s, c)
    ensures a.Value() == old(a.Value())
  {
    r := new Matrix.Copy(a);
    var _ := r.RotateY(s, c);
  }

  /** The free `rotateZ(m, angle)`. */
  method RotatedZCopy(a: Matrix, s: real, c: real) returns (r: Matrix)
    requires a.Valid()
    ensures fresh(r) && fresh(r.m) && r.Valid()
    ensures r.Value() == RotatedZ(a.Value(), s, c)
    ensures a.Value() == old(a.Value())
  {
    r := new Matrix.Copy(a);
    var _ := r.RotateZ(s, c);
  }

  /** The free `translate(m, x, y, z)`. */
  method TranslatedCopy(a: Matrix, x: real, y: real, z: real) returns (r: Matrix)
    requires a.Valid()
    ensures fresh(r) && fresh(r.m) && r.Valid()
    ensures r.Value() == Translated(a.Value(), x, y, z)
    ensures a.Value() == old(a.Value())
  {
    r := new Matrix.Copy(a);
    var _ := r.Translate(x, y, z);
  }

  /** The free `translate(m, v)`. */
  method TranslatedCopyBy(a: Matrix, v: Vectors.Vector) returns (r: Matrix)
    requires a.Valid() && v.Valid()
    ensures fresh(r) && fresh(r.m) && r.Valid()
    ensures r.Value() == Translated(a.Value(), v.Value()[0], v.Value()[1], v.Value()[2])
    ensures a.Value() == old(a.Value())
  {
    r := new Matrix.Copy(a);
    var _ := r.TranslateBy(v);
  }

  /** The free `scale(m, v)`. */
  method ScaledCopyBy(a: Matrix, v: Vectors.Vector) returns (r: Matrix)
    requires a.Valid() && v.Valid()
    ensures fresh(r) && fresh(r.m) && r.Valid()
    ensures r.Value() == Scaled(a.Value(), v.Value()[0], v.Value()[1], v.Value()[2])
    ensures a.Value() == old(a.Value())
  {
    r := new Matrix.Copy(a);
    var _ := r.ScaleBy(v);
  }

  /** The free `transpose(m)`. */
  method TransposedCopy(a: Matrix) returns (r: Matrix)
    requires a.Valid()
    ensures fresh(r) && fresh(r.m) && r.Valid()
    ensures r.Value() == Transposed(a.Value())
    ensures a.Value() == old(a.Value())
  {
    r := new Matrix.Copy(a);
    var _ := r.Transpose();
  }

  // ---------------------------------------------------------------------------
  // Points, in place and by copy

  /** `operator*=(Vector& v, const Matrix& m)`: v[0] and v[1] are saved in x
      and y before they are overwritten; v[2] is read for the last time in
      the statement that overwrites it. */
  method TransformInPlace(v: Vectors.Vector, a: Matrix) returns (r: Vectors.Vector)
    requires v.Valid() && a.Valid()
    modifies v.v
    ensures v.Valid() && r == v
    ensures v.Value() == Transform(old(a.Value()), old(v.Value()))
  {
    var x, y := v.v[0], v.v[1];
    v.v[0] := PointTimesRow(x, y, v.v[2], a.Get(0, 0), a.Get(0, 1), a.Get(0, 2), a.Get(0, 3));
    v.v[1] := PointTimesRow(x, y, v.v[2], a.Get(1, 0), a.Get(1, 1), a.Get(1, 2), a.Get(1, 3));
    v.v[2] := PointTimesRow(x, y, v.v[2], a.Get(2, 0), a.Get(2, 1), a.Get(2, 2), a.Get(2, 3));
    r := v;
  }

  /** `operator*(const Matrix& m, const Vector& v)`: a new vector. */
  method TransformPoint(a: Matrix, v: Vectors.Vector) returns (r: Vectors.Vector)
    requires a.Valid() && v.Valid()
    ensures fresh(r) && fresh(r.v) && r.Valid()
    ensures r.Value() == Transform(a.Value(), v.Value())
  {
    r := new Vectors.Vector.FromComponents(
      PointTimesRow(v.v[0], v.v[1], v.v[2], a.Get(0, 0), a.Get(0, 1), a.Get(0, 2), a.Get(0, 3)),
      PointTimesRow(v.v[0], v.v[1], v.v[2], a.Get(1, 0), a.Get(1, 1), a.Get(1, 2), a.Get(1, 3)),
      PointTimesRow(v.v[0], v.v[1], v.v[2], a.Get(2, 0), a.Get(2, 1), a.Get(2, 2), a.Get(2, 3)));
  }

  /** `operator*(const Vector& v, const Matrix& m)`: `m * v`. */
  method PointTimesMatrix(v: Vectors.Vector, a: Matrix) returns (r: Vectors.Vector)
    requires a.Valid() && v.Valid()
    ensures fresh(r) && fresh(r.v) && r.Valid()
    ensures r.Value() == Transform(a.Value(), v.Value())
  {
    r := TransformPoint(a, v);
  }
}
