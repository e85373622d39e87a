/** Three-component vectors (Vector.h): the value they hold, the in-place
    operators of class `Vector` over its `v[3]` buffer, and the free operators
    that copy a vector and then run an in-place operator on the copy.

    Scalars are exact reals: there is no floating-point rounding in this model.
    `dotProduct` and `crossProduct` are modelled exactly as Vector.h writes them;
    the standard formulas stand beside them as `StandardDotProduct` and
    `StandardCrossProduct`, with lemmas that show where the two differ. */
module Vectors {

  /** The value of a `Vector`: the components v[0], v[1], v[2]. */
  type Vec3 = s: seq<real> | |s| == 3 witness [0.0, 0.0, 0.0]

  /** Two vectors with the same components are equal. */
  lemma Equal3(a: Vec3, b: Vec3)
    requires a[0] == b[0] && a[1] == b[1] && a[2] == b[2]
    ensures a == b
  {
  }

  /** The zero vector, the value of a default-constructed `Vector`. */
  function Zero(): Vec3 { [0.0, 0.0, 0.0] }

  // ---------------------------------------------------------------------------
  // Componentwise arithmetic on values

  /** The value `+=` leaves behind. */
  function Add(a: Vec3, b: Vec3): Vec3 { [a[0] + b[0], a[1] + b[1], a[2] + b[2]] }

  /** The value `-=` leaves behind. */
  function Sub(a: Vec3, b: Vec3): Vec3 { [a[0] - b[0], a[1] - b[1], a[2] - b[2]] }

  /** The value `*= s` leaves behind. */
  function Scale(a: Vec3, s: real): Vec3 { [a[0] * s, a[1] * s, a[2] * s] }

  /** `squareLength()`: the sum of the squared components. It is never
      negative, and it is zero for the zero vector only. */
  function SquareLength(a: Vec3): (r: real)
    ensures r >= 0.0
    ensures r == 0.0 <==> a == Zero()
  {
    SquareSign(a[0]);
    SquareSign(a[1]);
    SquareSign(a[2]);
    assert a == Zero() <==> a[0] == 0.0 && a[1] == 0.0 && a[2] == 0.0 by {
      if a[0] == 0.0 && a[1] == 0.0 && a[2] == 0.0 {
        Equal3(a, Zero());
      }
    }
    Square(a[0]) + Square(a[1]) + Square(a[2])
  }

  function Square(x: real): real
  {
    x * x
  }

  lemma SquareSign(x: real)
    ensures Square(x) >= 0.0
    ensures Square(x) == 0.0 <==> x == 0.0
  {
    // The square is written as x * (-y) with y = -x, so that the product of
    // two positive factors can be named by ProductPositive.
    var y := -x;
    if x > 0.0 {
      ProductPositive(x, -y);
      assert Square(x) == x * (-y);
    } else if x < 0.0 {
      ProductPositive(y, -x);
      assert Square(x) == y * (-x);
    } else {
      assert Square(x) == Square(0.0);
    }
  }

  lemma ProductPositive(a: real, b: real)
    requires a > 0.0 && b > 0.0
    ensures a * b > 0.0
  {
  }

  /** `length()`: the square root of `squareLength()`. `sqrt` stands for the
      C library's square root, of which the model assumes nothing. */
  function Length(a: Vec3, sqrt: real -> real): real
  {
    sqrt(SquareLength(a))
  }

  // ---------------------------------------------------------------------------
  // Products, as Vector.h writes them

  /** `dotProduct(a, b)` as written: its last term is `a[2] + b[2]`, not a product. */
  function DotProduct(a: Vec3, b: Vec3): real
  {
    a[0] * b[0] + a[1] * b[1] + a[2] + b[2]
  }

  /** `crossProduct(a, b)` as written: the first component begins `a[1] + b[2]`
      where `a[1] * b[2]` is meant; the other two are standard. */
  function CrossProduct(a: Vec3, b: Vec3): Vec3
  {
    [a[1] + b[2] - a[2] * b[1],
     a[2] * b[0] - a[0] * b[2],
     a[0] * b[1] - a[1] * b[0]]
  }

  // ---------------------------------------------------------------------------
  // The standard products (the formulas the two functions above are meant to be)

  /** The Euclidean inner product. */
  function StandardDotProduct(a: Vec3, b: Vec3): real
  {
    a[0] * b[0] + a[1] * b[1] + a[2] * b[2]
  }

  /** The right-handed cross product. */
  function StandardCrossProduct(a: Vec3, b: Vec3): Vec3
  {
    [a[1] * b[2] - a[2] * b[1],
     a[2] * b[0] - a[0] * b[2],
     a[0] * b[1] - a[1] * b[0]]
  }

  // ---------------------------------------------------------------------------
  // Lemmas about the values

  /** `-=` undoes `+=` and the other way round. */
  lemma AddSubInverse(a: Vec3, b: Vec3)
    ensures Sub(Add(a, b), b) == a
    ensures Add(Sub(a, b), b) == a
  {
  }

  /** `+=` does not depend on the order of its operands. */
  lemma AddCommutes(a: Vec3, b: Vec3)
    ensures Add(a, b) == Add(b, a)
  {
  }

  /** Scaling by s and then by 1/s (what `/= s` does) gives back the vector. */
  lemma ScaleThenDivide(a: Vec3, s: real)
    requires s != 0.0
    ensures Scale(Scale(a, s), 1.0 / s) == a
  {
    var k := 1.0 / s;
    assert s * k == 1.0;
    forall i | 0 <= i < 3
      ensures Scale(Scale(a, s), k)[i] == a[i]
    {
      assert a[i] * s * k == a[i] * (s * k);
    }
  }

  /** Unary minus, `v * -1`, is the additive inverse. */
  lemma NegationIsInverse(a: Vec3)
    ensures Add(a, Scale(a, -1.0)) == Zero()
    ensures Scale(Scale(a, -1.0), -1.0) == a
  {
  }

  /** The written `dotProduct` is still symmetric in its operands. */
  lemma DotProductSymmetric(a: Vec3, b: Vec3)
    ensures DotProduct(a, b) == DotProduct(b, a)
  {
  }

  /** How far the written `dotProduct` is from the inner product, for all inputs:
      the two agree exactly when a[2] + b[2] == a[2] * b[2]. */
  lemma DotProductDeviation(a: Vec3, b: Vec3)
    ensures DotProduct(a, b) == StandardDotProduct(a, b) + a[2] + b[2] - a[2] * b[2]
    ensures DotProduct(a, b) == StandardDotProduct(a, b) <==> a[2] + b[2] == a[2] * b[2]
  {
  }

  /** An input on which the written `dotProduct` is wrong: the unit z vector
      with itself gives 2 where the inner product gives 1. */
  lemma DotProductCounterexample()
    ensures DotProduct([0.0, 0.0, 1.0], [0.0, 0.0, 1.0]) == 2.0
    ensures StandardDotProduct([0.0, 0.0, 1.0], [0.0, 0.0, 1.0]) == 1.0
  {
  }

  /** The second and third components of the written `crossProduct` are the
      standard ones: anti-commutative, and zero for a vector with itself. */
  lemma CrossProductTail(a: Vec3, b: Vec3)
    ensures CrossProduct(a, b)[1] == StandardCrossProduct(a, b)[1]
    ensures CrossProduct(a, b)[2] == StandardCrossProduct(a, b)[2]
    ensures CrossProduct(b, a)[1] == -CrossProduct(a, b)[1]
    ensures CrossProduct(b, a)[2] == -CrossProduct(a, b)[2]
    ensures CrossProduct(a, a)[1] == 0.0 && CrossProduct(a, a)[2] == 0.0
  {
  }

  /** The first component of the written `crossProduct` differs from the
      standard one by a[1] + b[2] - a[1] * b[2], for all inputs. */
  lemma CrossProductHeadDeviation(a: Vec3, b: Vec3)
    ensures CrossProduct(a, b)[0] == StandardCrossProduct(a, b)[0] + a[1] + b[2] - a[1] * b[2]
  {
  }

  /** An input on which the written `crossProduct` is wrong: the unit y vector
      crossed with itself is not the zero vector. */
  lemma CrossProductCounterexample()
    ensures CrossProduct([0.0, 1.0, 0.0], [0.0, 1.0, 0.0]) == [1.0, 0.0, 0.0]
    ensures StandardCrossProduct([0.0, 1.0, 0.0], [0.0, 1.0, 0.0]) == Zero()
  {
  }

  /** The inner product of a vector with itself is its square length. */
  lemma StandardDotProductSquareLength(a: Vec3)
    ensures StandardDotProduct(a, a) == SquareLength(a)
    ensures StandardDotProduct(a, a) >= 0.0
  {
  }

  /** The inner product is symmetric and linear in its first operand. */
  lemma StandardDotProductBilinear(a: Vec3, b: Vec3, c: Vec3, s: real)
    ensures StandardDotProduct(a, b) == StandardDotProduct(b, a)
    ensures StandardDotProduct(Add(a, c), b) == StandardDotProduct(a, b) + StandardDotProduct(c, b)
    ensures StandardDotProduct(Scale(a, s), b) == s * StandardDotProduct(a, b)
  {
  }

  /** The cross product is anti-commutative and vanishes on a vector with itself. */
  lemma StandardCrossProductAntiCommutes(a: Vec3, b: Vec3)
    ensures StandardCrossProduct(b, a) == Scale(StandardCrossProduct(a, b), -1.0)
    ensures StandardCrossProduct(a, a) == Zero()
  {
  }

  /** The cross product is orthogonal to both of its operands. */
  lemma StandardCrossProductOrthogonal(a: Vec3, b: Vec3)
    ensures StandardDotProduct(a, StandardCrossProduct(a, b)) == 0.0
    ensures StandardDotProduct(b, StandardCrossProduct(a, b)) == 0.0
  {
    var c := StandardCrossProduct(a, b);
    assert a[0] * c[0] + a[1] * c[1] + a[2] * c[2]
        == a[0] * a[1] * b[2] - a[0] * a[2] * b[1]
         + a[1] * a[2] * b[0] - a[1] * a[0] * b[2]
         + a[2] * a[0] * b[1] - a[2] * a[1] * b[0];
    assert b[0] * c[0] + b[1] * c[1] + b[2] * c[2]
        == b[0] * a[1] * b[2] - b[0] * a[2] * b[1]
         + b[1] * a[2] * b[0] - b[1] * a[0] * b[2]
         + b[2] * a[0] * b[1] - b[2] * a[1] * b[0];
  }

  /** `normalize()` divides by the length; when `sqrt` returns a true, non-zero
      square root r of the square length, the result has square length 1. */
  lemma NormalizedIsUnit(a: Vec3, r: real)
    requires r != 0.0 && r * r == SquareLength(a)
    ensures SquareLength(Scale(a, 1.0 / r)) == 1.0
  {
    var k := 1.0 / r;
    assert k * r == 1.0;
    calc {
      SquareLength(Scale(a, k));
      a[0] * k * (a[0] * k) + a[1] * k * (a[1] * k) + a[2] * k * (a[2] * k);
      (a[0] * a[0] + a[1] * a[1] + a[2] * a[2]) * (k * k);
      (r * r) * (k * k);
      (k * r) * (k * r);
    }
  }

  // ---------------------------------------------------------------------------
  // The class: a vector whose components live in the buffer `v`

  class Vector {
    /** `float v[3]`. */
    var v: array<real>

    ghost predicate Valid()
      reads this
    {
      v.Length == 3
    }

    /** The components currently in the buffer. */
    function Value(): Vec3
      requires Valid()
      reads this, v
    {
      v[..]
    }

    /** `Vector()`: the zero vector. */
    constructor ()
      ensures Valid() && fresh(v)
      ensures Value() == Zero()
    {
      v := new real[3];
      new;
      v[0] := 0.0;
      v[1] := 0.0;
      v[2] := 0.0;
    }

    /** `Vector(x, y, z)`: x, y, z at indices 0, 1, 2. */
    constructor FromComponents(x: real, y: real, z: real)
      ensures Valid() && fresh(v)
      ensures Value() == [x, y, z]
    {
      v := new real[3];
      new;
      v[0] := x;
      v[1] := y;
      v[2] := z;
    }

    /** `Vector(const Vector&)`: a copy in a buffer of its own. */
    constructor Copy(other: Vector)
      requires other.Valid()
      ensures Valid() && fresh(v)
      ensures Value() == other.Value()
    {
      v := new real[3];
      new;
      v[0] := other.v[0];
      v[1] := other.v[1];
      v[2] := other.v[2];
    }

    /** `operator=`: copies the three components of `other`. */
    method Assign(other: Vector) returns (self: Vector)
      requires Valid() && other.Valid()
      modifies v
      ensures Valid() && self == this
      ensures Value() == old(other.Value())
    {
      v[0] := other.v[0];
      v[1] := other.v[1];
      v[2] := other.v[2];
      self := this;
    }

    /** `operator+=`: each component grows by the matching component of `other`. */
    method AddAssign(other: Vector) returns (self: Vector)
      requires Valid() && other.Valid()
      modifies v
      ensures Valid() && self == this
      ensures Value() == Add(old(Value()), old(other.Value()))
    {
      v[0] := v[0] + other.v[0];
      v[1] := v[1] + other.v[1];
      v[2] := v[2] + other.v[2];
      self := this;
    }

    /** `operator-=`: each component shrinks by the matching component of `other`. */
    method SubAssign(other: Vector) returns (self: Vector)
      requires Valid() && other.Valid()
      modifies v
      ensures Valid() && self == this
      ensures Value() == Sub(old(Value()), old(other.Value()))
    {
      v[0] := v[0] - other.v[0];
      v[1] := v[1] - other.v[1];
      v[2] := v[2] - other.v[2];
      self := this;
    }

    /** `operator*=(float s)`: all three components scaled by s. */
    method MulAssign(s: real) returns (self: Vector)
      requires Valid()
      modifies v
      ensures Valid() && self == this
      ensures Value() == Scale(old(Value()), s)
    {
      ghost var a := Value();
      v[0] := v[0] * s;
      v[1] := v[1] * s;
      v[2] := v[2] * s;
      Equal3(Value(), Scale(a, s));
      self := this;
    }

    /** `operator/=(float s)`: exactly `*= (1 / s)`; over the reals s must not be 0. */
    method DivAssign(s: real) returns (self: Vector)
      requires Valid()
      requires s != 0.0
      modifies v
      ensures Valid() && self == this
      ensures Value() == Scale(old(Value()), 1.0 / s)
    {
      self := MulAssign(1.0 / s);
    }

    /** `normalize()`: `/= length()`; the length must not be 0. */
    method Normalize(sqrt: real -> real) returns (self: Vector)
      requires Valid()
      requires Length(Value(), sqrt) != 0.0
      modifies v
      ensures Valid() && self == this
      ensures Value() == Scale(old(Value()), 1.0 / Length(old(Value()), sqrt))
    {
      self := DivAssign(Length(Value(), sqrt));
    }

    /** The writable `operator[]`: stores x at index i, the other components stay. */
    method Set(i: int, x: real)
      requires Valid()
      requires 0 <= i < 3
      modifies v
      ensures Valid()
      ensures Value() == old(Value())[i := x]
    {
      v[i] := x;
    }
  }

  // ---------------------------------------------------------------------------
  // Free operators: copy the operand, then run an in-place operator on the copy

  /** Unary `+v`: an equal copy. */
  method Positive(a: Vector) returns (r: Vector)
    requires a.Valid()
    ensures fresh(r) && fresh(r.v) && r.Valid()
    ensures r.Value() == a.Value()
  {
    r := new Vector.Copy(a);
  }

  /** Unary `-v`: `v * -1`. */
  method Negative(a: Vector) returns (r: Vector)
    requires a.Valid()
    ensures fresh(r) && fresh(r.v) && r.Valid()
    ensures r.Value() == Scale(a.Value(), -1.0)
  {
    r := TimesScalar(a, -1.0);
  }

  /** `a + b`, leaving both operands as they were. */
  method Plus(a: Vector, b: Vector) returns (r: Vector)
    requires a.Valid() && b.Valid()
    ensures fresh(r) && fresh(r.v) && r.Valid()
    ensures r.Value() == Add(a.Value(), b.Value())
    ensures a.Value() == old(a.Value()) && b.Value() == old(b.Value())
  {
    r := new Vector.Copy(a);
    var _ := r.AddAssign(b);
  }

  /** `a - b`, leaving both operands as they were. */
  method Minus(a: Vector, b: Vector) returns (r: Vector)
    requires a.Valid() && b.Valid()
    ensures fresh(r) && fresh(r.v) && r.Valid()
    ensures r.Value() == Sub(a.Value(), b.Value())
    ensures a.Value() == old(a.Value()) && b.Value() == old(b.Value())
  {
    r := new Vector.Copy(a);
    var _ := r.SubAssign(b);
  }

  /** `v * s`. */
  method TimesScalar(a: Vector, s: real) returns (r: Vector)
    requires a.Valid()
    ensures fresh(r) && fresh(r.v) && r.Valid()
    ensures r.Value() == Scale(a.Value(), s)
  {
    r := new Vector.Copy(a);
    var _ := r.MulAssign(s);
  }

  /** `s * v`: the same as `v * s`. */
  method ScalarTimes(s: real, a: Vector) returns (r: Vector)
    requires a.Valid()
    ensures fresh(r) && fresh(r.v) && r.Valid()
    ensures r.Value() == Scale(a.Value(), s)
  {
    r := new Vector.Copy(a);
    var _ := r.MulAssign(s);
  }

  /** `v / s`. */
  method DividedBy(a: Vector, s: real) returns (r: Vector)
    requires a.Valid()
    requires s != 0.0
    ensures fresh(r) && fresh(r.v) && r.Valid()
    ensures r.Value() == Scale(a.Value(), 1.0 / s)
  {
    r := new Vector.Copy(a);
    var _ := r.DivAssign(s);
  }

  /** `s / v`: the source divides the vector by s, so this is `v / s` again
      and not s divided componentwise by v. */
  method ScalarDividedBy(s: real, a: Vector) returns (r: Vector)
    requires a.Valid()
    requires s != 0.0
    ensures fresh(r) && fresh(r.v) && r.Valid()
    ensures r.Value() == Scale(a.Value(), 1.0 / s)
  {
    r := new Vector.Copy(a);
    var _ := r.DivAssign(s);
  }
}
