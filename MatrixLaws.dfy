/** Laws of the 4x4 matrices of Matrix.h: `IDENTITY` is a unit of the product,
    transposition is an involution that reverses products, and each in-place
    shortcut is a product with one of the special matrices. The rotation
    shortcuts are compared with `rotationMatrix` for the same sine and
    cosine. */
module MatrixLaws {
  import opened Matrices

  // ---------------------------------------------------------------------------
  // Sums with a sparse factor

  /** A row times a unit column picks one cell of the row. */
  lemma RowTimesUnitColumn(x0: real, x1: real, x2: real, x3: real)
    ensures RowTimesColumn(x0, x1, x2, x3, 1.0, 0.0, 0.0, 0.0) == x0
    ensures RowTimesColumn(x0, x1, x2, x3, 0.0, 1.0, 0.0, 0.0) == x1
    ensures RowTimesColumn(x0, x1, x2, x3, 0.0, 0.0, 1.0, 0.0) == x2
    ensures RowTimesColumn(x0, x1, x2, x3, 0.0, 0.0, 0.0, 1.0) == x3
  {
  }

  /** A unit row times a column picks one cell of the column. */
  lemma UnitRowTimesColumn(w0: real, w1: real, w2: real, w3: real)
    ensures RowTimesColumn(1.0, 0.0, 0.0, 0.0, w0, w1, w2, w3) == w0
    ensures RowTimesColumn(0.0, 1.0, 0.0, 0.0, w0, w1, w2, w3) == w1
    ensures RowTimesColumn(0.0, 0.0, 1.0, 0.0, w0, w1, w2, w3) == w2
    ensures RowTimesColumn(0.0, 0.0, 0.0, 1.0, w0, w1, w2, w3) == w3
  {
  }

  /** A row times a column that is zero outside two places combines the two
      matching cells of the row. */
  lemma RowTimesSparseColumn(x0: real, x1: real, x2: real, x3: real, p: real, q: real)
    ensures RowTimesColumn(x0, x1, x2, x3, p, q, 0.0, 0.0) == Combine(p, x0, q, x1)
    ensures RowTimesColumn(x0, x1, x2, x3, p, 0.0, q, 0.0) == Combine(p, x0, q, x2)
    ensures RowTimesColumn(x0, x1, x2, x3, 0.0, p, q, 0.0) == Combine(p, x1, q, x2)
  {
  }

  /** Swapping the row and the column does not change the sum. */
  lemma RowTimesColumnSwap(x0: real, x1: real, x2: real, x3: real, w0: real, w1: real, w2: real, w3: real)
    ensures RowTimesColumn(x0, x1, x2, x3, w0, w1, w2, w3) == RowTimesColumn(w0, w1, w2, w3, x0, x1, x2, x3)
  {
  }

  // ---------------------------------------------------------------------------
  // The product and the transpose

  /** `IDENTITY` is a unit on the right. */
  lemma IdentityRightUnit(a: Mat)
    ensures Product(a, Identity()) == a
  {
    RowTimesUnitColumn(a.m11, a.m12, a.m13, a.m14);
    RowTimesUnitColumn(a.m21, a.m22, a.m23, a.m24);
    RowTimesUnitColumn(a.m31, a.m32, a.m33, a.m34);
    RowTimesUnitColumn(a.m41, a.m42, a.m43, a.m44);
    FieldsEqual(Product(a, Identity()), a);
  }

  /** `IDENTITY` is a unit on the left. */
  lemma IdentityLeftUnit(a: Mat)
    ensures Product(Identity(), a) == a
  {
    UnitRowTimesColumn(a.m11, a.m21, a.m31, a.m41);
    UnitRowTimesColumn(a.m12, a.m22, a.m32, a.m42);
    UnitRowTimesColumn(a.m13, a.m23, a.m33, a.m43);
    UnitRowTimesColumn(a.m14, a.m24, a.m34, a.m44);
    FieldsEqual(Product(Identity(), a), a);
  }

  /** Transposing twice gives back the matrix. */
  lemma TransposeInvolution(a: Mat)
    ensures Transposed(Transposed(a)) == a
  {
  }

  /** The transpose of a product is the product of the transposes, in the
      other order. */
  lemma TransposeOfProduct(a: Mat, b: Mat)
    ensures Transposed(Product(a, b)) == Product(Transposed(b), Transposed(a))
  {
    RowTimesColumnSwap(a.m11, a.m12, a.m13, a.m14, b.m11, b.m21, b.m31, b.m41);
    RowTimesColumnSwap(a.m11, a.m12, a.m13, a.m14, b.m12, b.m22, b.m32, b.m42);
    RowTimesColumnSwap(a.m11, a.m12, a.m13, a.m14, b.m13, b.m23, b.m33, b.m43);
    RowTimesColumnSwap(a.m11, a.m12, a.m13, a.m14, b.m14, b.m24, b.m34, b.m44);
    RowTimesColumnSwap(a.m21, a.m22, a.m23, a.m24, b.m11, b.m21, b.m31, b.m41);
    RowTimesColumnSwap(a.m21, a.m22, a.m23, a.m24, b.m12, b.m22, b.m32, b.m42);
    RowTimesColumnSwap(a.m21, a.m22, a.m23, a.m24, b.m13, b.m23, b.m33, b.m43);
    RowTimesColumnSwap(a.m21, a.m22, a.m23, a.m24, b.m14, b.m24, b.m34, b.m44);
    RowTimesColumnSwap(a.m31, a.m32, a.m33, a.m34, b.m11, b.m21, b.m31, b.m41);
    RowTimesColumnSwap(a.m31, a.m32, a.m33, a.m34, b.m12, b.m22, b.m32, b.m42);
    RowTimesColumnSwap(a.m31, a.m32, a.m33, a.m34, b.m13, b.m23, b.m33, b.m43);
    RowTimesColumnSwap(a.m31, a.m32, a.m33, a.m34, b.m14, b.m24, b.m34, b.m44);
    RowTimesColumnSwap(a.m41, a.m42, a.m43, a.m44, b.m11, b.m21, b.m31, b.m41);
    RowTimesColumnSwap(a.m41, a.m42, a.m43, a.m44, b.m12, b.m22, b.m32, b.m42);
    RowTimesColumnSwap(a.m41, a.m42, a.m43, a.m44, b.m13, b.m23, b.m33, b.m43);
    RowTimesColumnSwap(a.m41, a.m42, a.m43, a.m44, b.m14, b.m24, b.m34, b.m44);
    FieldsEqual(Transposed(Product(a, b)), Product(Transposed(b), Transposed(a)));
  }

  // ---------------------------------------------------------------------------
  // The translation and scaling shortcuts against the special matrices

  /** On the identity, `translate` and `scale` build `translationMatrix` and
      `scalingMatrix`. */
  lemma ShortcutsOnIdentity(x: real, y: real, z: real)
    ensures Translated(Identity(), x, y, z) == TranslationMatrix(x, y, z)
    ensures Scaled(Identity(), x, y, z) == ScalingMatrix(x, y, z)
  {
  }

  /** On an affine matrix, `translate(x, y, z)` is left-multiplication by
      `translationMatrix(x, y, z)`. */
  lemma TranslatedIsLeftProduct(a: Mat, x: real, y: real, z: real)
    requires IsAffine(a)
    ensures Translated(a, x, y, z) == Product(TranslationMatrix(x, y, z), a)
  {
    FieldsEqual(Translated(a, x, y, z), Product(TranslationMatrix(x, y, z), a));
  }

  /** When the last column of a is (0, 0, 0, w), `scale(x, y, z)` is
      left-multiplication by `scalingMatrix(x, y, z)`. */
  lemma ScaledIsLeftProduct(a: Mat, x: real, y: real, z: real)
    requires At(a, 0, 3) == 0.0 && At(a, 1, 3) == 0.0 && At(a, 2, 3) == 0.0
    ensures Scaled(a, x, y, z) == Product(ScalingMatrix(x, y, z), a)
  {
    FieldsEqual(Scaled(a, x, y, z), Product(ScalingMatrix(x, y, z), a));
  }

  /** w + t * u: a cell of the left product with `translationMatrix`, where
      row 3 of the right factor contributes u times the shift t. */
  function Shifted(w: real, t: real, u: real): real
  {
    w + t * u
  }

  /** A shift leaves a cell alone exactly when the shift or the row-3 cell
      under it is 0. */
  lemma ShiftKeeps(w: real, t: real, u: real)
    ensures w == Shifted(w, t, u) <==> t == 0.0 || u == 0.0
  {
    if t != 0.0 && u != 0.0 {
      assert t * u != 0.0;
    }
  }

  /** A shift adds t to a cell exactly when t is 0 or the row-3 cell under it
      is 1. */
  lemma ShiftAdds(w: real, t: real, u: real)
    ensures w + t == Shifted(w, t, u) <==> t == 0.0 || u == 1.0
  {
    if t != 0.0 && u != 1.0 {
      assert t * (u - 1.0) != 0.0;
    }
  }

  /** Scaling leaves a cell alone exactly when the factor is 1 or the cell
      is 0. */
  lemma FactorKeeps(w: real, s: real)
    ensures w == CellTimes(w, s) <==> s == 1.0 || w == 0.0
  {
    if s != 1.0 && w != 0.0 {
      assert w * (s - 1.0) != 0.0;
    }
  }

  /** A row (1, 0, 0, t) and its permutations times a column. */
  lemma ShiftRowTimesColumn(t: real, w0: real, w1: real, w2: real, w3: real)
    ensures RowTimesColumn(1.0, 0.0, 0.0, t, w0, w1, w2, w3) == Shifted(w0, t, w3)
    ensures RowTimesColumn(0.0, 1.0, 0.0, t, w0, w1, w2, w3) == Shifted(w1, t, w3)
    ensures RowTimesColumn(0.0, 0.0, 1.0, t, w0, w1, w2, w3) == Shifted(w2, t, w3)
  {
  }

  /** A row with the single nonzero s in place 0, 1 or 2 times a column. */
  lemma DiagonalRowTimesColumn(s: real, w0: real, w1: real, w2: real, w3: real)
    ensures RowTimesColumn(s, 0.0, 0.0, 0.0, w0, w1, w2, w3) == CellTimes(w0, s)
    ensures RowTimesColumn(0.0, s, 0.0, 0.0, w0, w1, w2, w3) == CellTimes(w1, s)
    ensures RowTimesColumn(0.0, 0.0, s, 0.0, w0, w1, w2, w3) == CellTimes(w2, s)
  {
  }

  /** The left product with `translationMatrix(x, y, z)` adds to each of the
      first three rows the shift times row 3. */
  lemma TranslationProductCells(a: Mat, x: real, y: real, z: real)
    ensures Product(TranslationMatrix(x, y, z), a) ==
      a.(m11 := Shifted(a.m11, x, a.m41), m12 := Shifted(a.m12, x, a.m42),
         m13 := Shifted(a.m13, x, a.m43), m14 := Shifted(a.m14, x, a.m44),
         m21 := Shifted(a.m21, y, a.m41), m22 := Shifted(a.m22, y, a.m42),
         m23 := Shifted(a.m23, y, a.m43), m24 := Shifted(a.m24, y, a.m44),
         m31 := Shifted(a.m31, z, a.m41), m32 := Shifted(a.m32, z, a.m42),
         m33 := Shifted(a.m33, z, a.m43), m34 := Shifted(a.m34, z, a.m44))
  {
    ShiftRowTimesColumn(x, a.m11, a.m21, a.m31, a.m41);
    ShiftRowTimesColumn(x, a.m12, a.m22, a.m32, a.m42);
    ShiftRowTimesColumn(x, a.m13, a.m23, a.m33, a.m43);
    ShiftRowTimesColumn(x, a.m14, a.m24, a.m34, a.m44);
    ShiftRowTimesColumn(y, a.m11, a.m21, a.m31, a.m41);
    ShiftRowTimesColumn(y, a.m12, a.m22, a.m32, a.m42);
    ShiftRowTimesColumn(y, a.m13, a.m23, a.m33, a.m43);
    ShiftRowTimesColumn(y, a.m14, a.m24, a.m34, a.m44);
    ShiftRowTimesColumn(z, a.m11, a.m21, a.m31, a.m41);
    ShiftRowTimesColumn(z, a.m12, a.m22, a.m32, a.m42);
    ShiftRowTimesColumn(z, a.m13, a.m23, a.m33, a.m43);
    ShiftRowTimesColumn(z, a.m14, a.m24, a.m34, a.m44);
    UnitRowTimesColumn(a.m11, a.m21, a.m31, a.m41);
    UnitRowTimesColumn(a.m12, a.m22, a.m32, a.m42);
    UnitRowTimesColumn(a.m13, a.m23, a.m33, a.m43);
    UnitRowTimesColumn(a.m14, a.m24, a.m34, a.m44);
  }

  /** The left product with `scalingMatrix(x, y, z)` multiplies all four cells
      of rows 0, 1 and 2 by x, y and z. */
  lemma ScalingProductCells(a: Mat, x: real, y: real, z: real)
    ensures Product(ScalingMatrix(x, y, z), a) ==
      Scaled(a, x, y, z).(m14 := CellTimes(a.m14, x), m24 := CellTimes(a.m24, y), m34 := CellTimes(a.m34, z))
  {
    DiagonalRowTimesColumn(x, a.m11, a.m21, a.m31, a.m41);
    DiagonalRowTimesColumn(x, a.m12, a.m22, a.m32, a.m42);
    DiagonalRowTimesColumn(x, a.m13, a.m23, a.m33, a.m43);
    DiagonalRowTimesColumn(x, a.m14, a.m24, a.m34, a.m44);
    DiagonalRowTimesColumn(y, a.m11, a.m21, a.m31, a.m41);
    DiagonalRowTimesColumn(y, a.m12, a.m22, a.m32, a.m42);
    DiagonalRowTimesColumn(y, a.m13, a.m23, a.m33, a.m43);
    DiagonalRowTimesColumn(y, a.m14, a.m24, a.m34, a.m44);
    DiagonalRowTimesColumn(z, a.m11, a.m21, a.m31, a.m41);
    DiagonalRowTimesColumn(z, a.m12, a.m22, a.m32, a.m42);
    DiagonalRowTimesColumn(z, a.m13, a.m23, a.m33, a.m43);
    DiagonalRowTimesColumn(z, a.m14, a.m24, a.m34, a.m44);
    UnitRowTimesColumn(a.m11, a.m21, a.m31, a.m41);
    UnitRowTimesColumn(a.m12, a.m22, a.m32, a.m42);
    UnitRowTimesColumn(a.m13, a.m23, a.m33, a.m43);
    UnitRowTimesColumn(a.m14, a.m24, a.m34, a.m44);
  }

  /** `translate(x, y, z)` is left-multiplication by `translationMatrix(x, y, z)`
      exactly when the shift is 0 or the matrix is affine. */
  lemma TranslatedIsLeftProductExactly(a: Mat, x: real, y: real, z: real)
    ensures Translated(a, x, y, z) == Product(TranslationMatrix(x, y, z), a) <==>
      (x == 0.0 && y == 0.0 && z == 0.0) || IsAffine(a)
  {
    TranslationProductCells(a, x, y, z);
    ShiftKeeps(a.m11, x, a.m41); ShiftKeeps(a.m12, x, a.m42); ShiftKeeps(a.m13, x, a.m43);
    ShiftKeeps(a.m21, y, a.m41); ShiftKeeps(a.m22, y, a.m42); ShiftKeeps(a.m23, y, a.m43);
    ShiftKeeps(a.m31, z, a.m41); ShiftKeeps(a.m32, z, a.m42); ShiftKeeps(a.m33, z, a.m43);
    ShiftAdds(a.m14, x, a.m44); ShiftAdds(a.m24, y, a.m44); ShiftAdds(a.m34, z, a.m44);
    if (x == 0.0 && y == 0.0 && z == 0.0) || IsAffine(a) {
      FieldsEqual(Translated(a, x, y, z), Product(TranslationMatrix(x, y, z), a));
    }
  }

  /** `scale(x, y, z)` is left-multiplication by `scalingMatrix(x, y, z)`
      exactly when, in each of rows 0, 1 and 2, the factor is 1 or the cell in
      column 3 is 0. */
  lemma ScaledIsLeftProductExactly(a: Mat, x: real, y: real, z: real)
    ensures Scaled(a, x, y, z) == Product(ScalingMatrix(x, y, z), a) <==>
      (x == 1.0 || At(a, 0, 3) == 0.0) && (y == 1.0 || At(a, 1, 3) == 0.0) && (z == 1.0 || At(a, 2, 3) == 0.0)
  {
    ScalingProductCells(a, x, y, z);
    FactorKeeps(a.m14, x); FactorKeeps(a.m24, y); FactorKeeps(a.m34, z);
    if (x == 1.0 || a.m14 == 0.0) && (y == 1.0 || a.m24 == 0.0) && (z == 1.0 || a.m34 == 0.0) {
      FieldsEqual(Scaled(a, x, y, z), Product(ScalingMatrix(x, y, z), a));
    }
  }

  // ---------------------------------------------------------------------------
  // Reference rotations about the coordinate axes

  /** About the x axis, which has length 1 already, `rotationMatrix` is the
      standard rotation about x. */
  lemma XAxisRotation(s: real, c: real, sqrt: real -> real)
    ensures RotationMatrix(s, c, 1.0, 0.0, 0.0, sqrt) == XRotation(s, c)
  {
  }

  /** About the y axis, `rotationMatrix` is the standard rotation about y. */
  lemma YAxisRotation(s: real, c: real, sqrt: real -> real)
    ensures RotationMatrix(s, c, 0.0, 1.0, 0.0, sqrt) == YRotation(s, c)
  {
  }

  /** About the z axis, `rotationMatrix` is the standard rotation about z. */
  lemma ZAxisRotation(s: real, c: real, sqrt: real -> real)
    ensures RotationMatrix(s, c, 0.0, 0.0, 1.0, sqrt) == ZRotation(s, c)
  {
  }

  // ---------------------------------------------------------------------------
  // The rotation shortcuts against `rotationMatrix`

  /** `rotateX` right-multiplies by the rotation about the x axis. */
  lemma RotatedXIsXRotation(a: Mat, s: real, c: real)
    ensures RotatedX(a, s, c) == Product(a, XRotation(s, c))
  {
    RowTimesUnitColumn(a.m11, a.m12, a.m13, a.m14);
    RowTimesSparseColumn(a.m11, a.m12, a.m13, a.m14, c, s);
    RowTimesSparseColumn(a.m11, a.m12, a.m13, a.m14, -s, c);
    RowTimesUnitColumn(a.m21, a.m22, a.m23, a.m24);
    RowTimesSparseColumn(a.m21, a.m22, a.m23, a.m24, c, s);
    RowTimesSparseColumn(a.m21, a.m22, a.m23, a.m24, -s, c);
    RowTimesUnitColumn(a.m31, a.m32, a.m33, a.m34);
    RowTimesSparseColumn(a.m31, a.m32, a.m33, a.m34, c, s);
    RowTimesSparseColumn(a.m31, a.m32, a.m33, a.m34, -s, c);
    RowTimesUnitColumn(a.m41, a.m42, a.m43, a.m44);
    RowTimesSparseColumn(a.m41, a.m42, a.m43, a.m44, c, s);
    RowTimesSparseColumn(a.m41, a.m42, a.m43, a.m44, -s, c);
    FieldsEqual(RotatedX(a, s, c), Product(a, XRotation(s, c)));
  }

  /** `rotateY` right-multiplies by the rotation about the y axis. */
  lemma RotatedYIsYRotation(a: Mat, s: real, c: real)
    ensures RotatedY(a, s, c) == Product(a, YRotation(s, c))
  {
    RowTimesUnitColumn(a.m11, a.m12, a.m13, a.m14);
    RowTimesSparseColumn(a.m11, a.m12, a.m13, a.m14, c, -s);
    RowTimesSparseColumn(a.m11, a.m12, a.m13, a.m14, s, c);
    RowTimesUnitColumn(a.m21, a.m22, a.m23, a.m24);
    RowTimesSparseColumn(a.m21, a.m22, a.m23, a.m24, c, -s);
    RowTimesSparseColumn(a.m21, a.m22, a.m23, a.m24, s, c);
    RowTimesUnitColumn(a.m31, a.m32, a.m33, a.m34);
    RowTimesSparseColumn(a.m31, a.m32, a.m33, a.m34, c, -s);
    RowTimesSparseColumn(a.m31, a.m32, a.m33, a.m34, s, c);
    RowTimesUnitColumn(a.m41, a.m42, a.m43, a.m44);
    RowTimesSparseColumn(a.m41, a.m42, a.m43, a.m44, c, -s);
    RowTimesSparseColumn(a.m41, a.m42, a.m43, a.m44, s, c);
    FieldsEqual(RotatedY(a, s, c), Product(a, YRotation(s, c)));
  }

  /** `rotateZ` right-multiplies by the rotation about the z axis with the
      sine negated. */
  lemma RotatedZIsZRotationBack(a: Mat, s: real, c: real)
    ensures RotatedZ(a, s, c) == Product(a, ZRotation(-s, c))
  {
    RowTimesUnitColumn(a.m11, a.m12, a.m13, a.m14);
    RowTimesSparseColumn(a.m11, a.m12, a.m13, a.m14, c, -s);
    RowTimesSparseColumn(a.m11, a.m12, a.m13, a.m14, s, c);
    RowTimesUnitColumn(a.m21, a.m22, a.m23, a.m24);
    RowTimesSparseColumn(a.m21, a.m22, a.m23, a.m24, c, -s);
    RowTimesSparseColumn(a.m21, a.m22, a.m23, a.m24, s, c);
    RowTimesUnitColumn(a.m31, a.m32, a.m33, a.m34);
    RowTimesSparseColumn(a.m31, a.m32, a.m33, a.m34, c, -s);
    RowTimesSparseColumn(a.m31, a.m32, a.m33, a.m34, s, c);
    RowTimesUnitColumn(a.m41, a.m42, a.m43, a.m44);
    RowTimesSparseColumn(a.m41, a.m42, a.m43, a.m44, c, -s);
    RowTimesSparseColumn(a.m41, a.m42, a.m43, a.m44, s, c);
    FieldsEqual(RotatedZ(a, s, c), Product(a, ZRotation(-s, c)));
  }

  /** The corrected `rotateZ` right-multiplies by the rotation about the z axis. */
  lemma IntendedRotatedZIsZRotation(a: Mat, s: real, c: real)
    ensures IntendedRotatedZ(a, s, c) == Product(a, ZRotation(s, c))
  {
    RowTimesUnitColumn(a.m11, a.m12, a.m13, a.m14);
    RowTimesSparseColumn(a.m11, a.m12, a.m13, a.m14, c, s);
    RowTimesSparseColumn(a.m11, a.m12, a.m13, a.m14, -s, c);
    RowTimesUnitColumn(a.m21, a.m22, a.m23, a.m24);
    RowTimesSparseColumn(a.m21, a.m22, a.m23, a.m24, c, s);
    RowTimesSparseColumn(a.m21, a.m22, a.m23, a.m24, -s, c);
    RowTimesUnitColumn(a.m31, a.m32, a.m33, a.m34);
    RowTimesSparseColumn(a.m31, a.m32, a.m33, a.m34, c, s);
    RowTimesSparseColumn(a.m31, a.m32, a.m33, a.m34, -s, c);
    RowTimesUnitColumn(a.m41, a.m42, a.m43, a.m44);
    RowTimesSparseColumn(a.m41, a.m42, a.m43, a.m44, c, s);
    RowTimesSparseColumn(a.m41, a.m42, a.m43, a.m44, -s, c);
    FieldsEqual(IntendedRotatedZ(a, s, c), Product(a, ZRotation(s, c)));
  }

  /** `rotateX(angle)` is `*this *= rotationMatrix(angle, 1, 0, 0)`, for the same
      sine and cosine. */
  lemma RotatedXIsProduct(a: Mat, s: real, c: real, sqrt: real -> real)
    ensures RotatedX(a, s, c) == Product(a, RotationMatrix(s, c, 1.0, 0.0, 0.0, sqrt))
  {
    RotatedXIsXRotation(a, s, c);
    XAxisRotation(s, c, sqrt);
  }

  /** `rotateY(angle)` is `*this *= rotationMatrix(angle, 0, 1, 0)`, for the same
      sine and cosine. */
  lemma RotatedYIsProduct(a: Mat, s: real, c: real, sqrt: real -> real)
    ensures RotatedY(a, s, c) == Product(a, RotationMatrix(s, c, 0.0, 1.0, 0.0, sqrt))
  {
    RotatedYIsYRotation(a, s, c);
    YAxisRotation(s, c, sqrt);
  }

  /** `rotateZ(angle)` is `*this *= rotationMatrix` about (0, 0, 1) built with
      the sine negated: it rotates by -angle. */
  lemma RotatedZIsProductWithNegatedSine(a: Mat, s: real, c: real, sqrt: real -> real)
    ensures RotatedZ(a, s, c) == Product(a, RotationMatrix(-s, c, 0.0, 0.0, 1.0, sqrt))
  {
    RotatedZIsZRotationBack(a, s, c);
    ZAxisRotation(-s, c, sqrt);
  }

  /** The corrected `rotateZ(angle)` is `*this *= rotationMatrix(angle, 0, 0, 1)`. */
  lemma IntendedRotatedZIsProduct(a: Mat, s: real, c: real, sqrt: real -> real)
    ensures IntendedRotatedZ(a, s, c) == Product(a, RotationMatrix(s, c, 0.0, 0.0, 1.0, sqrt))
  {
    IntendedRotatedZIsZRotation(a, s, c);
    ZAxisRotation(s, c, sqrt);
  }

  /** On the identity, with s = 1 and c = 0, `rotateZ` puts 1 in cell (0, 1). */
  lemma RotatedZOnIdentity()
    ensures RotatedZ(Identity(), 1.0, 0.0).m12 == 1.0
  {
  }

  /** `rotationMatrix` about (0, 0, 1) with s = 1 and c = 0 has -1 in cell (0, 1). */
  lemma ZAxisRotationQuarter(sqrt: real -> real)
    ensures RotationMatrix(1.0, 0.0, 0.0, 0.0, 1.0, sqrt).m12 == -1.0
  {
    ZAxisRotation(1.0, 0.0, sqrt);
  }

  /** On the identity, with angle 90 degrees (s = 1, c = 0), `rotateZ` does not
      give `rotationMatrix(angle, 0, 0, 1)`: cell (0, 1) is 1 instead of -1. */
  lemma RotatedZCounterexample(sqrt: real -> real)
    ensures RotatedZ(Identity(), 1.0, 0.0) != RotationMatrix(1.0, 0.0, 0.0, 0.0, 1.0, sqrt)
  {
    RotatedZOnIdentity();
    ZAxisRotationQuarter(sqrt);
  }

  // ---------------------------------------------------------------------------
  // Points

  /** `IDENTITY` leaves every point where it is. */
  lemma TransformIdentity(v: Vectors.Vec3)
    ensures Transform(Identity(), v) == v
  {
    Vectors.Equal3(Transform(Identity(), v), v);
  }

  /** `translationMatrix(x, y, z)` moves every point by (x, y, z); the origin
      goes to (x, y, z). */
  lemma TransformTranslation(v: Vectors.Vec3, x: real, y: real, z: real)
    ensures Transform(TranslationMatrix(x, y, z), v) == Vectors.Add(v, [x, y, z])
    ensures Transform(TranslationMatrix(x, y, z), Vectors.Zero()) == [x, y, z]
  {
    Vectors.Equal3(Transform(TranslationMatrix(x, y, z), v), Vectors.Add(v, [x, y, z]));
    Vectors.Equal3(Transform(TranslationMatrix(x, y, z), Vectors.Zero()), [x, y, z]);
  }

  /** `scalingMatrix(x, y, z)` multiplies the coordinates of a point by x, y and
      z; the point (1, 1, 1) goes to (x, y, z). */
  lemma TransformScaling(v: Vectors.Vec3, x: real, y: real, z: real)
    ensures Transform(ScalingMatrix(x, y, z), v) == [v[0] * x, v[1] * y, v[2] * z]
    ensures Transform(ScalingMatrix(x, y, z), [1.0, 1.0, 1.0]) == [x, y, z]
  {
    Vectors.Equal3(Transform(ScalingMatrix(x, y, z), v), [v[0] * x, v[1] * y, v[2] * z]);
    Vectors.Equal3(Transform(ScalingMatrix(x, y, z), [1.0, 1.0, 1.0]), [x, y, z]);
  }

  /** Adding d to the last cell of a row adds d to the image. */
  lemma PointTimesShiftedRow(x: real, y: real, z: real, r0: real, r1: real, r2: real, r3: real, d: real)
    ensures PointTimesRow(x, y, z, r0, r1, r2, r3 + d) == PointTimesRow(x, y, z, r0, r1, r2, r3) + d
  {
  }

  /** `translate(x, y, z)` moves every image by (x, y, z). */
  lemma TransformTranslated(a: Mat, v: Vectors.Vec3, x: real, y: real, z: real)
    ensures Transform(Translated(a, x, y, z), v) == Vectors.Add(Transform(a, v), [x, y, z])
  {
    PointTimesShiftedRow(v[0], v[1], v[2], a.m11, a.m12, a.m13, a.m14, x);
    PointTimesShiftedRow(v[0], v[1], v[2], a.m21, a.m22, a.m23, a.m24, y);
    PointTimesShiftedRow(v[0], v[1], v[2], a.m31, a.m32, a.m33, a.m34, z);
    Vectors.Equal3(Transform(Translated(a, x, y, z), v), Vectors.Add(Transform(a, v), [x, y, z]));
  }

  /** A coordinate times a column sum, spread over the row. */
  lemma CoordinateTimesColumn(x: real, r0: real, r1: real, r2: real, r3: real, w0: real, w1: real, w2: real)
    ensures x * RowTimesColumn(r0, r1, r2, r3, w0, w1, w2, 0.0) == r0 * (x * w0) + r1 * (x * w1) + r2 * (x * w2)
  {
  }

  /** A point-times-row sum times a factor, spread over the coordinates. */
  lemma RowImageTimes(r: real, x: real, y: real, z: real, w0: real, w1: real, w2: real, w3: real)
    ensures PointTimesRow(x, y, z, w0, w1, w2, w3) * r == r * (x * w0) + r * (y * w1) + r * (z * w2) + r * w3
  {
  }

  /** One row of `(a * b) * v` is that row of a applied to `b * v`, when the
      last row of b is (0, 0, 0, 1). */
  lemma ComposedRow(x: real, y: real, z: real, r0: real, r1: real, r2: real, r3: real,
                    b11: real, b12: real, b13: real, b14: real,
                    b21: real, b22: real, b23: real, b24: real,
                    b31: real, b32: real, b33: real, b34: real)
    ensures PointTimesRow(x, y, z,
                          RowTimesColumn(r0, r1, r2, r3, b11, b21, b31, 0.0),
                          RowTimesColumn(r0, r1, r2, r3, b12, b22, b32, 0.0),
                          RowTimesColumn(r0, r1, r2, r3, b13, b23, b33, 0.0),
                          RowTimesColumn(r0, r1, r2, r3, b14, b24, b34, 1.0)) ==
            PointTimesRow(PointTimesRow(x, y, z, b11, b12, b13, b14),
                          PointTimesRow(x, y, z, b21, b22, b23, b24),
                          PointTimesRow(x, y, z, b31, b32, b33, b34),
                          r0, r1, r2, r3)
  {
    CoordinateTimesColumn(x, r0, r1, r2, r3, b11, b21, b31);
    CoordinateTimesColumn(y, r0, r1, r2, r3, b12, b22, b32);
    CoordinateTimesColumn(z, r0, r1, r2, r3, b13, b23, b33);
    RowImageTimes(r0, x, y, z, b11, b12, b13, b14);
    RowImageTimes(r1, x, y, z, b21, b22, b23, b24);
    RowImageTimes(r2, x, y, z, b31, b32, b33, b34);
  }

  /** Transforming by a product is transforming by the right factor, then by
      the left one, when the right factor is affine. */
  lemma TransformOfProduct(a: Mat, b: Mat, v: Vectors.Vec3)
    requires IsAffine(b)
    ensures Transform(Product(a, b), v) == Transform(a, Transform(b, v))
  {
    ComposedRow(v[0], v[1], v[2], a.m11, a.m12, a.m13, a.m14,
                b.m11, b.m12, b.m13, b.m14, b.m21, b.m22, b.m23, b.m24, b.m31, b.m32, b.m33, b.m34);
    ComposedRow(v[0], v[1], v[2], a.m21, a.m22, a.m23, a.m24,
                b.m11, b.m12, b.m13, b.m14, b.m21, b.m22, b.m23, b.m24, b.m31, b.m32, b.m33, b.m34);
    ComposedRow(v[0], v[1], v[2], a.m31, a.m32, a.m33, a.m34,
                b.m11, b.m12, b.m13, b.m14, b.m21, b.m22, b.m23, b.m24, b.m31, b.m32, b.m33, b.m34);
    Vectors.Equal3(Transform(Product(a, b), v), Transform(a, Transform(b, v)));
  }

  /** The rotation about z turns the x axis towards the y axis: (1, 0, 0)
      goes to (c, s, 0). */
  lemma ZRotationTurnsXAxis(s: real, c: real)
    ensures Transform(ZRotation(s, c), [1.0, 0.0, 0.0]) == [c, s, 0.0]
  {
    Vectors.Equal3(Transform(ZRotation(s, c), [1.0, 0.0, 0.0]), [c, s, 0.0]);
  }

  /** `rotateZ` applied to the identity turns the x axis the other way:
      (1, 0, 0) goes to (c, -s, 0). */
  lemma RotatedZTurnsXAxisBack(s: real, c: real)
    ensures Transform(RotatedZ(Identity(), s, c), [1.0, 0.0, 0.0]) == [c, -s, 0.0]
  {
    Vectors.Equal3(Transform(RotatedZ(Identity(), s, c), [1.0, 0.0, 0.0]), [c, -s, 0.0]);
  }

  /** Combining with a unit or zero pair picks one weight or gives 0. */
  lemma CombineUnits(p: real, q: real)
    ensures Combine(p, 1.0, q, 0.0) == p
    ensures Combine(p, 0.0, q, 1.0) == q
    ensures Combine(p, 0.0, q, 0.0) == 0.0
  {
  }

  /** `rotateZ` after `translate(tx, ty, tz)` on `IDENTITY`: the rotated block
      sits beside the translation column, which the rotation does not touch. */
  lemma RotatedZOfTranslation(s: real, c: real, tx: real, ty: real, tz: real)
    ensures RotatedZ(Translated(Identity(), tx, ty, tz), s, c) ==
      Rows(c, s, 0.0, tx, -s, c, 0.0, ty, 0.0, 0.0, 1.0, tz, 0.0, 0.0, 0.0, 1.0)
    ensures IntendedRotatedZ(Translated(Identity(), tx, ty, tz), s, c) ==
      Rows(c, -s, 0.0, tx, s, c, 0.0, ty, 0.0, 0.0, 1.0, tz, 0.0, 0.0, 0.0, 1.0)
  {
    ShortcutsOnIdentity(tx, ty, tz);
    CombineUnits(c, -s);
    CombineUnits(s, c);
    CombineUnits(c, s);
    CombineUnits(-s, c);
  }

  /** A row applied to (1, 0, 0, 1) adds its first and last cells. */
  lemma PointTimesRowOnXAxis(r0: real, r1: real, r2: real, r3: real)
    ensures PointTimesRow(1.0, 0.0, 0.0, r0, r1, r2, r3) == r0 + r3
  {
  }

  /** Starting from `IDENTITY`, `translate(tx, ty, tz)` and then `rotateZ`
      turn (1, 0, 0) first and shift it after: to (c, -s, 0) as written, to
      (c, s, 0) with the corrected signs, and then by (tx, ty, tz). */
  lemma TranslateThenRotateZTurnsXAxis(s: real, c: real, tx: real, ty: real, tz: real)
    ensures Transform(RotatedZ(Translated(Identity(), tx, ty, tz), s, c), [1.0, 0.0, 0.0]) == [c + tx, -s + ty, tz]
    ensures Transform(IntendedRotatedZ(Translated(Identity(), tx, ty, tz), s, c), [1.0, 0.0, 0.0]) == [c + tx, s + ty, tz]
  {
    RotatedZOfTranslation(s, c, tx, ty, tz);
    PointTimesRowOnXAxis(c, s, 0.0, tx);
    PointTimesRowOnXAxis(-s, c, 0.0, ty);
    PointTimesRowOnXAxis(0.0, 0.0, 1.0, tz);
    PointTimesRowOnXAxis(c, -s, 0.0, tx);
    PointTimesRowOnXAxis(s, c, 0.0, ty);
    Vectors.Equal3(Transform(RotatedZ(Translated(Identity(), tx, ty, tz), s, c), [1.0, 0.0, 0.0]), [c + tx, -s + ty, tz]);
    Vectors.Equal3(Transform(IntendedRotatedZ(Translated(Identity(), tx, ty, tz), s, c), [1.0, 0.0, 0.0]), [c + tx, s + ty, tz]);
  }

  /** `rotateZ` at 90 degrees (s = 1, c = 0) on `translationMatrix(1, 0, 0)`,
      cell by cell, as written. */
  lemma QuarterTurnAfterShift()
    ensures RotatedZ(TranslationMatrix(1.0, 0.0, 0.0), 1.0, 0.0) ==
      Rows(0.0, 1.0, 0.0, 1.0, -1.0, 0.0, 0.0, 0.0, 0.0, 0.0, 1.0, 0.0, 0.0, 0.0, 0.0, 1.0)
  {
    ShortcutsOnIdentity(1.0, 0.0, 0.0);
    RotatedZOfTranslation(1.0, 0.0, 1.0, 0.0, 0.0);
  }

  /** The same with the corrected signs. */
  lemma IntendedQuarterTurnAfterShift()
    ensures IntendedRotatedZ(TranslationMatrix(1.0, 0.0, 0.0), 1.0, 0.0) ==
      Rows(0.0, -1.0, 0.0, 1.0, 1.0, 0.0, 0.0, 0.0, 0.0, 0.0, 1.0, 0.0, 0.0, 0.0, 0.0, 1.0)
  {
    ShortcutsOnIdentity(1.0, 0.0, 0.0);
    RotatedZOfTranslation(1.0, 0.0, 1.0, 0.0, 0.0);
  }

  /** The first matrix above sends (1, 0, 0) to (1, -1, 0). */
  lemma QuarterTurnMovesXAxis()
    ensures Transform(Rows(0.0, 1.0, 0.0, 1.0, -1.0, 0.0, 0.0, 0.0, 0.0, 0.0, 1.0, 0.0, 0.0, 0.0, 0.0, 1.0), [1.0, 0.0, 0.0]) == [1.0, -1.0, 0.0]
  {
    Vectors.Equal3(Transform(Rows(0.0, 1.0, 0.0, 1.0, -1.0, 0.0, 0.0, 0.0, 0.0, 0.0, 1.0, 0.0, 0.0, 0.0, 0.0, 1.0), [1.0, 0.0, 0.0]), [1.0, -1.0, 0.0]);
  }

  /** The second matrix above sends (1, 0, 0) to (1, 1, 0). */
  lemma IntendedQuarterTurnMovesXAxis()
    ensures Transform(Rows(0.0, -1.0, 0.0, 1.0, 1.0, 0.0, 0.0, 0.0, 0.0, 0.0, 1.0, 0.0, 0.0, 0.0, 0.0, 1.0), [1.0, 0.0, 0.0]) == [1.0, 1.0, 0.0]
  {
    Vectors.Equal3(Transform(Rows(0.0, -1.0, 0.0, 1.0, 1.0, 0.0, 0.0, 0.0, 0.0, 0.0, 1.0, 0.0, 0.0, 0.0, 0.0, 1.0), [1.0, 0.0, 0.0]), [1.0, 1.0, 0.0]);
  }

  /** Composition order, worked out at 90 degrees (s = 1, c = 0) on
      `translationMatrix(1, 0, 0)`, the value `translate(1, 0, 0)` leaves on
      `IDENTITY` (ShortcutsOnIdentity): `rotateZ` then sends (1, 0, 0) to
      (1, -1, 0) as written. The point is turned first, to (0, -1, 0), and
      shifted after. */
  lemma TranslateThenRotateZ()
    ensures Transform(RotatedZ(TranslationMatrix(1.0, 0.0, 0.0), 1.0, 0.0), [1.0, 0.0, 0.0]) == [1.0, -1.0, 0.0]
  {
    QuarterTurnAfterShift();
    QuarterTurnMovesXAxis();
  }

  /** The worked example with the corrected signs: (1, 0, 0) is turned to
      (0, 1, 0) and lands on (1, 1, 0). */
  lemma TranslateThenIntendedRotateZ()
    ensures Transform(IntendedRotatedZ(TranslationMatrix(1.0, 0.0, 0.0), 1.0, 0.0), [1.0, 0.0, 0.0]) == [1.0, 1.0, 0.0]
  {
    IntendedQuarterTurnAfterShift();
    IntendedQuarterTurnMovesXAxis();
  }

  /** Each of the first three rows of `rotationMatrix` about a unit axis
      (x, y, z) sends the axis to the matching coordinate of the axis. */
  lemma AxisRowsFixAxis(s: real, c: real, x: real, y: real, z: real)
    requires x * x + y * y + z * z == 1.0
    ensures PointTimesRow(x, y, z, c + (1.0 - c) * x * x, (1.0 - c) * x * y - s * z,
                          (1.0 - c) * x * z + s * y, 0.0) == x
    ensures PointTimesRow(x, y, z, (1.0 - c) * x * y + s * z, c + (1.0 - c) * y * y,
                          (1.0 - c) * y * z - s * x, 0.0) == y
    ensures PointTimesRow(x, y, z, (1.0 - c) * x * z - s * y, (1.0 - c) * y * z + s * x,
                          c + (1.0 - c) * z * z, 0.0) == z
  {
    var ic := 1.0 - c;
    assert x * (c + ic * x * x) + y * (ic * x * y - s * z) + z * (ic * x * z + s * y)
        == c * x + ic * x * (x * x + y * y + z * z);
    assert x * (ic * x * y + s * z) + y * (c + ic * y * y) + z * (ic * y * z - s * x)
        == c * y + ic * y * (x * x + y * y + z * z);
    assert x * (ic * x * z - s * y) + y * (ic * y * z + s * x) + z * (c + ic * z * z)
        == c * z + ic * z * (x * x + y * y + z * z);
  }

  /** `rotationMatrix(angle, x, y, z)` about an axis of length 1 leaves the
      axis where it is, for every s and c. */
  lemma RotationFixesAxis(s: real, c: real, x: real, y: real, z: real, sqrt: real -> real)
    requires x * x + y * y + z * z == 1.0
    ensures Transform(RotationMatrix(s, c, x, y, z, sqrt), [x, y, z]) == [x, y, z]
  {
    AxisRowsFixAxis(s, c, x, y, z);
    var r := RotationMatrix(s, c, x, y, z, sqrt);
    assert r == AxisRotation(s, c, x, y, z);
    Vectors.Equal3(Transform(r, [x, y, z]), [x, y, z]);
  }

  // Orthogonality: each product of two rows of `rotationMatrix` is written
  // as a polynomial identity first, and the two unit conditions are then
  // substituted into it.

  /** cc + ss * rest + (1 - cc) * xx + k * e: the shape of a row of
      `rotationMatrix` times itself, with cc = c^2, ss = s^2, xx the square of
      the row's own axis coordinate, rest the squares of the other two, and e
      the squared length of the axis minus 1. */
  function SquareForm(cc: real, ss: real, xx: real, rest: real, k: real, e: real): real
  {
    cc + ss * rest + (1.0 - cc) * xx + k * e
  }

  /** p * (1 - cc - ss) + k * e: the shape of two different rows of
      `rotationMatrix` multiplied together. */
  function CrossForm(p: real, cc: real, ss: real, k: real, e: real): real
  {
    p * (1.0 - cc - ss) + k * e
  }

  /** The rows of `rotationMatrix` about (x, y, z), each with itself. */
  lemma RowSquares(s: real, c: real, x: real, y: real, z: real)
    ensures RowTimesColumn(c + (1.0 - c) * x * x, (1.0 - c) * x * y - s * z, (1.0 - c) * x * z + s * y, 0.0, c + (1.0 - c) * x * x, (1.0 - c) * x * y - s * z, (1.0 - c) * x * z + s * y, 0.0)
         == SquareForm(c * c, s * s, x * x, y * y + z * z, (1.0 - c) * (1.0 - c) * (x * x), (x * x + y * y + z * z - 1.0))
    ensures RowTimesColumn((1.0 - c) * x * y + s * z, c + (1.0 - c) * y * y, (1.0 - c) * y * z - s * x, 0.0, (1.0 - c) * x * y + s * z, c + (1.0 - c) * y * y, (1.0 - c) * y * z - s * x, 0.0)
         == SquareForm(c * c, s * s, y * y, x * x + z * z, (1.0 - c) * (1.0 - c) * (y * y), (x * x + y * y + z * z - 1.0))
    ensures RowTimesColumn((1.0 - c) * x * z - s * y, (1.0 - c) * y * z + s * x, c + (1.0 - c) * z * z, 0.0, (1.0 - c) * x * z - s * y, (1.0 - c) * y * z + s * x, c + (1.0 - c) * z * z, 0.0)
         == SquareForm(c * c, s * s, z * z, x * x + y * y, (1.0 - c) * (1.0 - c) * (z * z), (x * x + y * y + z * z - 1.0))
  {
  }

  /** The rows of `rotationMatrix` about (x, y, z), each with another. */
  lemma RowProducts(s: real, c: real, x: real, y: real, z: real)
    ensures RowTimesColumn(c + (1.0 - c) * x * x, (1.0 - c) * x * y - s * z, (1.0 - c) * x * z + s * y, 0.0, (1.0 - c) * x * y + s * z, c + (1.0 - c) * y * y, (1.0 - c) * y * z - s * x, 0.0) == CrossForm(x * y, c * c, s * s, (1.0 - c) * (1.0 - c) * (x * y), (x * x + y * y + z * z - 1.0))
    ensures RowTimesColumn(c + (1.0 - c) * x * x, (1.0 - c) * x * y - s * z, (1.0 - c) * x * z + s * y, 0.0, (1.0 - c) * x * z - s * y, (1.0 - c) * y * z + s * x, c + (1.0 - c) * z * z, 0.0) == CrossForm(x * z, c * c, s * s, (1.0 - c) * (1.0 - c) * (x * z), (x * x + y * y + z * z - 1.0))
    ensures RowTimesColumn((1.0 - c) * x * y + s * z, c + (1.0 - c) * y * y, (1.0 - c) * y * z - s * x, 0.0, (1.0 - c) * x * z - s * y, (1.0 - c) * y * z + s * x, c + (1.0 - c) * z * z, 0.0) == CrossForm(y * z, c * c, s * s, (1.0 - c) * (1.0 - c) * (y * z), (x * x + y * y + z * z - 1.0))
  {
  }

  /** A row squared is 1 once s^2 + c^2 = 1 and the axis has length 1. */
  lemma SquareIsOne(cc: real, ss: real, xx: real, rest: real, k: real, e: real)
    requires cc + ss == 1.0 && xx + rest == 1.0 && e == 0.0
    ensures SquareForm(cc, ss, xx, rest, k, e) == 1.0
  {
    assert SquareForm(cc, ss, xx, rest, k, e) == cc + ss * rest + (1.0 - cc) * xx + k * e;
    assert k * e == 0.0;
    assert (1.0 - cc) * xx == ss * xx;
    assert ss * rest + ss * xx == ss * (rest + xx);
    assert ss * (rest + xx) == ss;
  }

  /** Two different rows are orthogonal once s^2 + c^2 = 1 and the axis has
      length 1. */
  lemma ProductIsZero(p: real, cc: real, ss: real, k: real, e: real)
    requires cc + ss == 1.0 && e == 0.0
    ensures CrossForm(p, cc, ss, k, e) == 0.0
  {
  }

  /** For s^2 + c^2 = 1 and an axis of length 1, each row of `rotationMatrix`
      has length 1. */
  lemma RowsAreUnit(s: real, c: real, x: real, y: real, z: real)
    requires x * x + y * y + z * z == 1.0 && s * s + c * c == 1.0
    ensures RowTimesColumn(c + (1.0 - c) * x * x, (1.0 - c) * x * y - s * z, (1.0 - c) * x * z + s * y, 0.0, c + (1.0 - c) * x * x, (1.0 - c) * x * y - s * z, (1.0 - c) * x * z + s * y, 0.0) == 1.0
    ensures RowTimesColumn((1.0 - c) * x * y + s * z, c + (1.0 - c) * y * y, (1.0 - c) * y * z - s * x, 0.0, (1.0 - c) * x * y + s * z, c + (1.0 - c) * y * y, (1.0 - c) * y * z - s * x, 0.0) == 1.0
    ensures RowTimesColumn((1.0 - c) * x * z - s * y, (1.0 - c) * y * z + s * x, c + (1.0 - c) * z * z, 0.0, (1.0 - c) * x * z - s * y, (1.0 - c) * y * z + s * x, c + (1.0 - c) * z * z, 0.0) == 1.0
  {
    RowSquares(s, c, x, y, z);
    SquareIsOne(c * c, s * s, x * x, y * y + z * z, (1.0 - c) * (1.0 - c) * (x * x), (x * x + y * y + z * z - 1.0));
    SquareIsOne(c * c, s * s, y * y, x * x + z * z, (1.0 - c) * (1.0 - c) * (y * y), (x * x + y * y + z * z - 1.0));
    SquareIsOne(c * c, s * s, z * z, x * x + y * y, (1.0 - c) * (1.0 - c) * (z * z), (x * x + y * y + z * z - 1.0));
  }

  /** For s^2 + c^2 = 1 and an axis of length 1, two different rows of
      `rotationMatrix` are orthogonal. */
  lemma RowsAreOrthogonal(s: real, c: real, x: real, y: real, z: real)
    requires x * x + y * y + z * z == 1.0 && s * s + c * c == 1.0
    ensures RowTimesColumn(c + (1.0 - c) * x * x, (1.0 - c) * x * y - s * z, (1.0 - c) * x * z + s * y, 0.0, (1.0 - c) * x * y + s * z, c + (1.0 - c) * y * y, (1.0 - c) * y * z - s * x, 0.0) == 0.0 && RowTimesColumn((1.0 - c) * x * y + s * z, c + (1.0 - c) * y * y, (1.0 - c) * y * z - s * x, 0.0, c + (1.0 - c) * x * x, (1.0 - c) * x * y - s * z, (1.0 - c) * x * z + s * y, 0.0) == 0.0
    ensures RowTimesColumn(c + (1.0 - c) * x * x, (1.0 - c) * x * y - s * z, (1.0 - c) * x * z + s * y, 0.0, (1.0 - c) * x * z - s * y, (1.0 - c) * y * z + s * x, c + (1.0 - c) * z * z, 0.0) == 0.0 && RowTimesColumn((1.0 - c) * x * z - s * y, (1.0 - c) * y * z + s * x, c + (1.0 - c) * z * z, 0.0, c + (1.0 - c) * x * x, (1.0 - c) * x * y - s * z, (1.0 - c) * x * z + s * y, 0.0) == 0.0
    ensures RowTimesColumn((1.0 - c) * x * y + s * z, c + (1.0 - c) * y * y, (1.0 - c) * y * z - s * x, 0.0, (1.0 - c) * x * z - s * y, (1.0 - c) * y * z + s * x, c + (1.0 - c) * z * z, 0.0) == 0.0 && RowTimesColumn((1.0 - c) * x * z - s * y, (1.0 - c) * y * z + s * x, c + (1.0 - c) * z * z, 0.0, (1.0 - c) * x * y + s * z, c + (1.0 - c) * y * y, (1.0 - c) * y * z - s * x, 0.0) == 0.0
  {
    RowProducts(s, c, x, y, z);
    ProductIsZero(x * y, c * c, s * s, (1.0 - c) * (1.0 - c) * (x * y), (x * x + y * y + z * z - 1.0));
    ProductIsZero(x * z, c * c, s * s, (1.0 - c) * (1.0 - c) * (x * z), (x * x + y * y + z * z - 1.0));
    ProductIsZero(y * z, c * c, s * s, (1.0 - c) * (1.0 - c) * (y * z), (x * x + y * y + z * z - 1.0));
    RowTimesColumnSwap(c + (1.0 - c) * x * x, (1.0 - c) * x * y - s * z, (1.0 - c) * x * z + s * y, 0.0, (1.0 - c) * x * y + s * z, c + (1.0 - c) * y * y, (1.0 - c) * y * z - s * x, 0.0);
    RowTimesColumnSwap(c + (1.0 - c) * x * x, (1.0 - c) * x * y - s * z, (1.0 - c) * x * z + s * y, 0.0, (1.0 - c) * x * z - s * y, (1.0 - c) * y * z + s * x, c + (1.0 - c) * z * z, 0.0);
    RowTimesColumnSwap((1.0 - c) * x * y + s * z, c + (1.0 - c) * y * y, (1.0 - c) * y * z - s * x, 0.0, (1.0 - c) * x * z - s * y, (1.0 - c) * y * z + s * x, c + (1.0 - c) * z * z, 0.0);
  }

  /** For s^2 + c^2 = 1 and an axis of length 1, `rotationMatrix` times its
      transpose is `IDENTITY`: the matrix is orthogonal, a rotation. */
  lemma RotationIsOrthogonal(s: real, c: real, x: real, y: real, z: real, sqrt: real -> real)
    requires x * x + y * y + z * z == 1.0 && s * s + c * c == 1.0
    ensures Product(RotationMatrix(s, c, x, y, z, sqrt), Transposed(RotationMatrix(s, c, x, y, z, sqrt))) == Identity()
  {
    var r := RotationMatrix(s, c, x, y, z, sqrt);
    assert r == AxisRotation(s, c, x, y, z);
    RowsAreUnit(s, c, x, y, z);
    RowsAreOrthogonal(s, c, x, y, z);
    RowTimesUnitColumn(c + (1.0 - c) * x * x, (1.0 - c) * x * y - s * z, (1.0 - c) * x * z + s * y, 0.0);
    RowTimesUnitColumn((1.0 - c) * x * y + s * z, c + (1.0 - c) * y * y, (1.0 - c) * y * z - s * x, 0.0);
    RowTimesUnitColumn((1.0 - c) * x * z - s * y, (1.0 - c) * y * z + s * x, c + (1.0 - c) * z * z, 0.0);
    UnitRowTimesColumn(c + (1.0 - c) * x * x, (1.0 - c) * x * y - s * z, (1.0 - c) * x * z + s * y, 0.0);
    UnitRowTimesColumn((1.0 - c) * x * y + s * z, c + (1.0 - c) * y * y, (1.0 - c) * y * z - s * x, 0.0);
    UnitRowTimesColumn((1.0 - c) * x * z - s * y, (1.0 - c) * y * z + s * x, c + (1.0 - c) * z * z, 0.0);
    RowTimesUnitColumn(0.0, 0.0, 0.0, 1.0);
    FieldsEqual(Product(r, Transposed(r)), Identity());
  }

  /** Transposing `rotationMatrix(angle, x, y, z)` gives the rotation by
      -angle about the same axis: sin(-angle) = -s and cos(-angle) = c. */
  lemma TransposedRotationReversesAngle(s: real, c: real, x: real, y: real, z: real, sqrt: real -> real)
    requires AxisUsable(x, y, z, sqrt)
    ensures Transposed(RotationMatrix(s, c, x, y, z, sqrt)) == RotationMatrix(-s, c, x, y, z, sqrt)
  {
  }

  /** For s^2 + c^2 = 1 and an axis of length 1, the rotation by -angle undoes
      the rotation by angle, on either side. */
  lemma ReverseAngleUndoesRotation(s: real, c: real, x: real, y: real, z: real, sqrt: real -> real)
    requires x * x + y * y + z * z == 1.0 && s * s + c * c == 1.0
    ensures Product(RotationMatrix(s, c, x, y, z, sqrt), RotationMatrix(-s, c, x, y, z, sqrt)) == Identity()
    ensures Product(RotationMatrix(-s, c, x, y, z, sqrt), RotationMatrix(s, c, x, y, z, sqrt)) == Identity()
  {
    RotationIsOrthogonal(s, c, x, y, z, sqrt);
    TransposedRotationReversesAngle(s, c, x, y, z, sqrt);
    assert (-s) * (-s) == s * s;
    RotationIsOrthogonal(-s, c, x, y, z, sqrt);
    TransposedRotationReversesAngle(-s, c, x, y, z, sqrt);
    assert -(-s) == s;
  }

  // ---------------------------------------------------------------------------
  // Projections

  /** The depth row of both projection matrices sends the near plane z = -n
      to clip depth -n and the far plane z = -f to clip depth f. */
  lemma DepthRowMapsPlanes(x: real, y: real, n: real, f: real)
    requires n != f
    ensures PointTimesRow(x, y, -n, 0.0, 0.0, (f + n) / (n - f), 2.0 * f * n / (n - f)) == -n
    ensures PointTimesRow(x, y, -f, 0.0, 0.0, (f + n) / (n - f), 2.0 * f * n / (n - f)) == f
  {
    var d := n - f;
    var p, q := (f + n) / d, 2.0 * f * n / d;
    assert p * d == f + n;
    assert q * d == 2.0 * f * n;
    assert (-n * p + q) * d == -n * d;
    assert (-f * p + q) * d == f * d;
  }

  /** A row (2n/w, 0, (hi + lo)/w, 0) with w = hi - lo sends the edge lo of
      the near plane to -n and the edge hi to n. */
  lemma EdgeRowMapsEdges(lo: real, hi: real, other: real, n: real)
    requires hi != lo
    ensures PointTimesRow(lo, other, -n, 2.0 * n / (hi - lo), 0.0, (hi + lo) / (hi - lo), 0.0) == -n
    ensures PointTimesRow(hi, other, -n, 2.0 * n / (hi - lo), 0.0, (hi + lo) / (hi - lo), 0.0) == n
    ensures PointTimesRow(other, lo, -n, 0.0, 2.0 * n / (hi - lo), (hi + lo) / (hi - lo), 0.0) == -n
    ensures PointTimesRow(other, hi, -n, 0.0, 2.0 * n / (hi - lo), (hi + lo) / (hi - lo), 0.0) == n
  {
    var w := hi - lo;
    var p, q := 2.0 * n / w, (hi + lo) / w;
    assert p * w == 2.0 * n;
    assert q * w == hi + lo;
    assert (lo * p - n * q) * w == -n * w;
    assert (hi * p - n * q) * w == n * w;
  }

  /** `frustumMatrix` as written: its last row makes the clip w equal to -z,
      the left and right planes go to x = -w and x = w on the near plane, and
      the near and far planes go to depth -w and w. */
  lemma FrustumMapsXAndDepth(l: real, r: real, b: real, t: real, n: real, f: real, x: real, y: real, z: real)
    requires r != l && t != b && t != n && n != f
    ensures Homogeneous(FrustumMatrix(l, r, b, t, n, f), x, y, z).w == -z
    ensures Homogeneous(FrustumMatrix(l, r, b, t, n, f), x, y, -n).w == n
    ensures Homogeneous(FrustumMatrix(l, r, b, t, n, f), x, y, -f).w == f
    ensures Homogeneous(FrustumMatrix(l, r, b, t, n, f), l, y, -n).x == -n
    ensures Homogeneous(FrustumMatrix(l, r, b, t, n, f), r, y, -n).x == n
    ensures Homogeneous(FrustumMatrix(l, r, b, t, n, f), x, y, -n).z == -n
    ensures Homogeneous(FrustumMatrix(l, r, b, t, n, f), x, y, -f).z == f
  {
    EdgeRowMapsEdges(l, r, y, n);
    DepthRowMapsPlanes(x, y, n, f);
  }

  /** The corrected frustum also sends the bottom and top planes to y = -w
      and y = w on the near plane. */
  lemma IntendedFrustumMapsEdges(l: real, r: real, b: real, t: real, n: real, f: real, x: real, y: real)
    requires r != l && t != b && n != f
    ensures Homogeneous(IntendedFrustumMatrix(l, r, b, t, n, f), x, y, -n).w == n
    ensures Homogeneous(IntendedFrustumMatrix(l, r, b, t, n, f), x, y, -f).w == f
    ensures Homogeneous(IntendedFrustumMatrix(l, r, b, t, n, f), l, y, -n).x == -n
    ensures Homogeneous(IntendedFrustumMatrix(l, r, b, t, n, f), r, y, -n).x == n
    ensures Homogeneous(IntendedFrustumMatrix(l, r, b, t, n, f), x, b, -n).y == -n
    ensures Homogeneous(IntendedFrustumMatrix(l, r, b, t, n, f), x, t, -n).y == n
    ensures Homogeneous(IntendedFrustumMatrix(l, r, b, t, n, f), x, y, -n).z == -n
    ensures Homogeneous(IntendedFrustumMatrix(l, r, b, t, n, f), x, y, -f).z == f
  {
    EdgeRowMapsEdges(l, r, y, n);
    EdgeRowMapsEdges(b, t, x, n);
    DepthRowMapsPlanes(x, y, n, f);
  }

  /** The two frustum matrices differ in cell (1, 2) only. */
  lemma FrustumDiffersInOneCell(l: real, r: real, b: real, t: real, n: real, f: real)
    requires r != l && t != b && t != n && n != f
    ensures IntendedFrustumMatrix(l, r, b, t, n, f) ==
            FrustumMatrix(l, r, b, t, n, f).(m23 := (t + b) / (t - b))
    ensures FrustumMatrix(l, r, b, t, n, f).m23 == (t + b) / (t - n)
  {
  }

  /** With l = -1, r = 1, b = 0, t = 1, n = 2, f = 3 the bottom edge of the
      near plane, (0, 0, -2), goes to clip y = 2 = w, the top of the clip
      volume, under `frustumMatrix` as written, and to y = -2 = -w under the
      corrected matrix. */
  lemma FrustumBottomEdgeCounterexample()
    ensures Homogeneous(FrustumMatrix(-1.0, 1.0, 0.0, 1.0, 2.0, 3.0), 0.0, 0.0, -2.0) ==
            Point4(0.0, 2.0, -2.0, 2.0)
    ensures Homogeneous(IntendedFrustumMatrix(-1.0, 1.0, 0.0, 1.0, 2.0, 3.0), 0.0, 0.0, -2.0) ==
            Point4(0.0, -2.0, -2.0, 2.0)
  {
    assert FrustumMatrix(-1.0, 1.0, 0.0, 1.0, 2.0, 3.0) ==
           Rows(2.0, 0.0, 0.0, 0.0,  0.0, 4.0, -1.0, 0.0,  0.0, 0.0, -5.0, -12.0,  0.0, 0.0, -1.0, 0.0);
    assert IntendedFrustumMatrix(-1.0, 1.0, 0.0, 1.0, 2.0, 3.0) ==
           Rows(2.0, 0.0, 0.0, 0.0,  0.0, 4.0, 1.0, 0.0,  0.0, 0.0, -5.0, -12.0,  0.0, 0.0, -1.0, 0.0);
  }

  /** `perspectiveMatrix`: a point on the upper edge of the vertical field of
      view, y = -z tan(fovy / 2), goes to clip y = w, and a point on the right
      edge, x = -z tan(fovy / 2) aspect, to clip x = w; the near and far planes
      go to depth -w and w as for the frustum. */
  lemma PerspectiveMapsFieldOfView(fovy: real, aspect: real, n: real, f: real, tan: real -> real, z: real)
    requires tan(fovy / 2.0) != 0.0 && aspect != 0.0 && n != f
    ensures Homogeneous(PerspectiveMatrix(fovy, aspect, n, f, tan), 0.0, -z * tan(fovy / 2.0), z).y == -z
    ensures Homogeneous(PerspectiveMatrix(fovy, aspect, n, f, tan), -z * tan(fovy / 2.0) * aspect, 0.0, z).x == -z
    ensures Homogeneous(PerspectiveMatrix(fovy, aspect, n, f, tan), 0.0, 0.0, z).w == -z
    ensures Homogeneous(PerspectiveMatrix(fovy, aspect, n, f, tan), 0.0, 0.0, -n).z == -n
    ensures Homogeneous(PerspectiveMatrix(fovy, aspect, n, f, tan), 0.0, 0.0, -f).z == f
  {
    var h := tan(fovy / 2.0);
    var t := 1.0 / h;
    assert t * h == 1.0;
    assert (t / aspect) * aspect == t;
    DepthRowMapsPlanes(0.0, 0.0, n, f);
  }
}
