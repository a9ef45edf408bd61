/** Vector3: three scalars x, y, z stored as m_data[0..2].  Every operator is a
    pure function here; a compound assignment (v += w, v *= s, ...) is the same
    function with its result stored back in the receiver, and the setters
    (setX, setValue, ...) are Dafny's constructor and update expressions. */
module Vectors {
  import opened Numerics

  datatype Vector3 = Vector3(x: real, y: real, z: real)

  /** Vector3(num) and setValue(num): all three components are num. */
  function Splat(num: real): (v: Vector3)
    ensures forall i | 0 <= i < 3 :: Get(v, i) == num
  {
    Vector3(num, num, num)
  }

  const ZERO := Splat(0.0)
  const UNIT := Splat(1.0)
  const UNIT_NEG := Splat(-1.0)
  const UNIT_X := Vector3(1.0, 0.0, 0.0)
  const UNIT_Y := Vector3(0.0, 1.0, 0.0)
  const UNIT_Z := Vector3(0.0, 0.0, 1.0)
  const UNIT_X_NEG := Vector3(-1.0, 0.0, 0.0)
  const UNIT_Y_NEG := Vector3(0.0, -1.0, 0.0)
  const UNIT_Z_NEG := Vector3(0.0, 0.0, -1.0)

  /** get(i): the i-th stored component. */
  function Get(v: Vector3, i: int): real
    requires 0 <= i < 3
  {
    if i == 0 then v.x else if i == 1 then v.y else v.z
  }

  /** Two vectors with the same three components are the same vector. */
  lemma {:induction false} ComponentsDetermine(a: Vector3, b: Vector3)
    requires forall i | 0 <= i < 3 :: Get(a, i) == Get(b, i)
    ensures a == b
  {
    assert Get(a, 0) == Get(b, 0) && Get(a, 1) == Get(b, 1) && Get(a, 2) == Get(b, 2);
  }

  function Neg(v: Vector3): (r: Vector3)
    ensures forall i | 0 <= i < 3 :: Get(r, i) == -Get(v, i)
  {
    Vector3(-v.x, -v.y, -v.z)
  }

  function Add(a: Vector3, b: Vector3): (r: Vector3)
    ensures forall i | 0 <= i < 3 :: Get(r, i) == Get(a, i) + Get(b, i)
  {
    Vector3(a.x + b.x, a.y + b.y, a.z + b.z)
  }

  function AddScalar(v: Vector3, s: real): (r: Vector3)
    ensures forall i | 0 <= i < 3 :: Get(r, i) == Get(v, i) + s
  {
    Vector3(v.x + s, v.y + s, v.z + s)
  }

  function Sub(a: Vector3, b: Vector3): (r: Vector3)
    ensures forall i | 0 <= i < 3 :: Get(r, i) == Get(a, i) - Get(b, i)
  {
    Vector3(a.x - b.x, a.y - b.y, a.z - b.z)
  }

  /** `v -= s` is written as `v += -s`; componentwise it subtracts s. */
  function SubScalar(v: Vector3, s: real): (r: Vector3)
    ensures forall i | 0 <= i < 3 :: Get(r, i) == Get(v, i) - s
  {
    AddScalar(v, -s)
  }

  /** `v * w` multiplies componentwise (it is not a dot or cross product). */
  function Mul(a: Vector3, b: Vector3): (r: Vector3)
    ensures forall i | 0 <= i < 3 :: Get(r, i) == Get(a, i) * Get(b, i)
  {
    Vector3(a.x * b.x, a.y * b.y, a.z * b.z)
  }

  function Scale(v: Vector3, s: real): (r: Vector3)
    ensures forall i | 0 <= i < 3 :: Get(r, i) == Get(v, i) * s
  {
    Vector3(v.x * s, v.y * s, v.z * s)
  }

  /** `v / w` divides componentwise; a zero component of w is a division by zero. */
  function Div(a: Vector3, b: Vector3): (r: Vector3)
    requires b.x != 0.0 && b.y != 0.0 && b.z != 0.0
    ensures forall i | 0 <= i < 3 :: Get(r, i) * Get(b, i) == Get(a, i)
  {
    Vector3(a.x / b.x, a.y / b.y, a.z / b.z)
  }

  /** `v / s` is written as `v *= ONE / s`: a multiplication by the reciprocal. */
  function DivScalar(v: Vector3, s: real): (r: Vector3)
    requires s != 0.0
    ensures forall i | 0 <= i < 3 :: Get(r, i) * s == Get(v, i)
  {
    Scale(v, 1.0 / s)
  }

  /** operator==: all three components equal, which is equality of the values. */
  function Equal(a: Vector3, b: Vector3): (r: bool)
    ensures r <==> a == b
  {
    a.x == b.x && a.y == b.y && a.z == b.z
  }

  /** operator!=: the negation of operator==. */
  function NotEqual(a: Vector3, b: Vector3): (r: bool)
    ensures r <==> a != b
  {
    !Equal(a, b)
  }

  function Dot(a: Vector3, b: Vector3): real {
    a.x * b.x + a.y * b.y + a.z * b.z
  }

  /** lengthSquared() is dot(*this); it is never negative (and is zero only
      at ZERO, LengthSquaredZeroIff). */
  function LengthSquared(v: Vector3): (r: real)
    ensures 0.0 <= r
  {
    SquareNonNegative(v.x);
    SquareNonNegative(v.y);
    SquareNonNegative(v.z);
    Dot(v, v)
  }

  lemma LengthSquaredZeroIff(v: Vector3)
    ensures LengthSquared(v) == 0.0 <==> v == ZERO
  {
    if LengthSquared(v) == 0.0 {
      SumOfSquaresZero(v.x, v.y, v.z);
    }
  }

  function Length(lib: Libm, v: Vector3): real {
    Sqrt(lib, LengthSquared(v))
  }

  /** distance(v) is (v - *this).length(). */
  function Distance(lib: Libm, a: Vector3, b: Vector3): real {
    Length(lib, Sub(b, a))
  }

  /** distanceSquared(v) is (v - *this).lengthSquared(). */
  function DistanceSquared(a: Vector3, b: Vector3): (r: real)
    ensures 0.0 <= r
  {
    LengthSquared(Sub(b, a))
  }

  /** The squared distance is zero exactly between equal vectors. */
  lemma DistanceSquaredZeroIff(a: Vector3, b: Vector3)
    ensures DistanceSquared(a, b) == 0.0 <==> a == b
  {
    if DistanceSquared(a, b) == 0.0 {
      var d := Sub(b, a);
      SumOfSquaresZero(d.x, d.y, d.z);
    }
  }

  /** A sum of three squares is zero only when all three are zero. */
  lemma SumOfSquaresZero(x: real, y: real, z: real)
    requires x * x + y * y + z * z == 0.0
    ensures x == 0.0 && y == 0.0 && z == 0.0
  {
    SquareNonNegative(x);
    SquareNonNegative(y);
    SquareNonNegative(z);
  }

  /** angle(v) = acos(dot(v) / sqrt(|this|^2 |v|^2)); a zero vector divides by zero. */
  function Angle(lib: Libm, a: Vector3, b: Vector3): real
    requires Sqrt(lib, LengthSquared(a) * LengthSquared(b)) != 0.0
  {
    Acos(lib, Dot(a, b) / Sqrt(lib, LengthSquared(a) * LengthSquared(b)))
  }

  function Cross(a: Vector3, b: Vector3): (r: Vector3)
    ensures Dot(r, a) == 0.0 && Dot(r, b) == 0.0
  {
    Vector3(a.y * b.z - a.z * b.y,
            a.z * b.x - a.x * b.z,
            a.x * b.y - a.y * b.x)
  }

  /** normalized() divides by length(); the zero vector divides by zero. */
  function Normalized(lib: Libm, v: Vector3): Vector3
    requires Length(lib, v) != 0.0
  {
    DivScalar(v, Length(lib, v))
  }

  /** rotate(axis, angle) with the cosine and sine of the angle already taken:
      the part of v along axis is kept, the rest is turned by the angle. */
  function RotateCosSin(v: Vector3, axis: Vector3, c: real, s: real): Vector3 {
    Add(Add(AxialPart(v, axis), Scale(RadialPart(v, axis), c)), Scale(Cross(axis, v), s))
  }

  /** o in rotate(): the part of v along axis, axis * axis.dot(v). */
  function AxialPart(v: Vector3, axis: Vector3): Vector3 {
    Scale(axis, Dot(axis, v))
  }

  /** x in rotate(): what is left of v once its axial part is taken away. */
  function RadialPart(v: Vector3, axis: Vector3): Vector3 {
    Sub(v, AxialPart(v, axis))
  }

  /** rotate(axis, angle): Rodrigues' decomposition with std::cos and std::sin. */
  function Rotate(lib: Libm, v: Vector3, axis: Vector3, angle: real): Vector3 {
    RotateCosSin(v, axis, Cos(lib, angle), Sin(lib, angle))
  }

  /** lerp(v, t) moves from this towards v by the fraction t. */
  function Lerp(a: Vector3, b: Vector3, t: real): (r: Vector3)
    ensures t == 0.0 ==> r == a
    ensures t == 1.0 ==> r == b
  {
    Vector3(a.x + (b.x - a.x) * t,
            a.y + (b.y - a.y) * t,
            a.z + (b.z - a.z) * t)
  }

  // ---------------------------------------------------------------------------
  // Algebraic laws of the operators

  lemma AddCommutes(a: Vector3, b: Vector3)
    ensures Add(a, b) == Add(b, a)
  {
  }

  lemma AddAssociates(a: Vector3, b: Vector3, c: Vector3)
    ensures Add(Add(a, b), c) == Add(a, Add(b, c))
  {
  }

  /** Subtraction is addition of the negation, and undoes addition. */
  lemma SubIsAddNeg(a: Vector3, b: Vector3)
    ensures Sub(a, b) == Add(a, Neg(b))
    ensures Add(Sub(a, b), b) == a
    ensures Sub(Add(a, b), b) == a
  {
  }

  /** Scaling by s and then dividing by s gives the vector back. */
  lemma DivScalarUndoesScale(v: Vector3, s: real)
    requires s != 0.0
    ensures DivScalar(Scale(v, s), s) == v
  {
    var r := DivScalar(Scale(v, s), s);
    forall i | 0 <= i < 3 ensures Get(r, i) == Get(v, i) {
      assert Get(r, i) * s == Get(v, i) * s;
    }
    ComponentsDetermine(r, v);
  }

  lemma DotSymmetric(a: Vector3, b: Vector3)
    ensures Dot(a, b) == Dot(b, a)
  {
  }

  lemma DistanceSquaredSymmetric(a: Vector3, b: Vector3)
    ensures DistanceSquared(a, b) == DistanceSquared(b, a)
  {
  }

  /** distance() does not depend on the order of its arguments. */
  lemma DistanceSymmetric(lib: Libm, a: Vector3, b: Vector3)
    ensures Distance(lib, a, b) == Distance(lib, b, a)
  {
    DistanceSquaredSymmetric(a, b);
    assert LengthSquared(Sub(b, a)) == LengthSquared(Sub(a, b));
  }

  /** angle() does not depend on the order of its arguments. */
  lemma AngleSymmetric(lib: Libm, a: Vector3, b: Vector3)
    requires Sqrt(lib, LengthSquared(a) * LengthSquared(b)) != 0.0
    ensures Sqrt(lib, LengthSquared(b) * LengthSquared(a)) != 0.0
    ensures Angle(lib, a, b) == Angle(lib, b, a)
  {
    DotSymmetric(a, b);
    assert LengthSquared(b) * LengthSquared(a) == LengthSquared(a) * LengthSquared(b);
  }

  lemma CrossAnticommutes(a: Vector3, b: Vector3)
    ensures Cross(a, b) == Neg(Cross(b, a))
    ensures Cross(a, a) == ZERO
  {
  }

  /** |a x b|^2 == |a|^2 |b|^2 - (a . b)^2 (Lagrange's identity). */
  lemma CrossLengthSquared(a: Vector3, b: Vector3)
    ensures LengthSquared(Cross(a, b)) == LengthSquared(a) * LengthSquared(b) - Dot(a, b) * Dot(a, b)
  {
  }

  /** With a sound square root, normalized() has unit length. */
  lemma NormalizedIsUnit(lib: Libm, v: Vector3)
    requires SqrtSound(lib)
    requires Length(lib, v) != 0.0
    ensures LengthSquared(Normalized(lib, v)) == 1.0
  {
    var l := Length(lib, v);
    assert l * l == LengthSquared(v);
    var n := Normalized(lib, v);
    assert n == Scale(v, 1.0 / l);
    calc {
      LengthSquared(n);
      (v.x * (1.0 / l)) * (v.x * (1.0 / l)) + (v.y * (1.0 / l)) * (v.y * (1.0 / l)) + (v.z * (1.0 / l)) * (v.z * (1.0 / l));
      LengthSquared(v) * ((1.0 / l) * (1.0 / l));
      (l * l) * ((1.0 / l) * (1.0 / l));
      (l * (1.0 / l)) * (l * (1.0 / l));
      1.0;
    }
  }

  /** rotate(axis, angle) with cos == 1 and sin == 0 leaves the vector as it is,
      whatever the axis. */
  lemma RotateByZeroAngle(lib: Libm, v: Vector3, axis: Vector3, angle: real)
    requires Cos(lib, angle) == 1.0 && Sin(lib, angle) == 0.0
    ensures Rotate(lib, v, axis, angle) == v
  {
  }

  /** About a unit axis, rotate keeps the component of v along the axis. */
  lemma RotateKeepsAxialPart(v: Vector3, axis: Vector3, c: real, s: real)
    requires LengthSquared(axis) == 1.0
    ensures Dot(axis, RotateCosSin(v, axis, c, s)) == Dot(axis, v)
  {
    var d := Dot(axis, v);
    var o, x, y := AxialPart(v, axis), RadialPart(v, axis), Cross(axis, v);
    DotScale(axis, axis, d);
    assert Dot(axis, o) == d;
    DotSub(axis, v, o);
    DotAdd(axis, Add(o, Scale(x, c)), Scale(y, s));
    DotAdd(axis, o, Scale(x, c));
    DotScale(axis, x, c);
    DotScale(axis, y, s);
  }

  /** About a unit axis, with cos^2 + sin^2 == 1, rotate preserves length. */
  lemma RotatePreservesLength(v: Vector3, axis: Vector3, c: real, s: real)
    requires LengthSquared(axis) == 1.0
    requires c * c + s * s == 1.0
    ensures LengthSquared(RotateCosSin(v, axis, c, s)) == LengthSquared(v)
  {
    var d := Dot(axis, v);
    DecompositionOrthogonal(v, axis);
    DecompositionLengths(v, axis);
    OrthogonalSumLength(AxialPart(v, axis), RadialPart(v, axis), Cross(axis, v), c, s);
    var l := LengthSquared(v) - d * d;
    assert LengthSquared(RotateCosSin(v, axis, c, s)) == d * d + (c * c) * l + (s * s) * l;
    assert (c * c) * l + (s * s) * l == (c * c + s * s) * l;
  }

  /** About a unit axis the axial part, the radial part and axis x v are
      pairwise orthogonal. */
  lemma DecompositionOrthogonal(v: Vector3, axis: Vector3)
    requires LengthSquared(axis) == 1.0
    ensures Dot(AxialPart(v, axis), RadialPart(v, axis)) == 0.0
    ensures Dot(AxialPart(v, axis), Cross(axis, v)) == 0.0
    ensures Dot(RadialPart(v, axis), Cross(axis, v)) == 0.0
  {
    var d := Dot(axis, v);
    var o, x, y := AxialPart(v, axis), RadialPart(v, axis), Cross(axis, v);
    DotScale(axis, axis, d);
    DotSub(axis, v, o);
    assert Dot(axis, x) == 0.0;
    DotSymmetric(axis, x);
    DotScale(x, axis, d);
    DotSymmetric(o, x);
    DotSymmetric(axis, y);
    DotScale(y, axis, d);
    DotSymmetric(o, y);
    DotSub(y, v, o);
    DotSymmetric(y, v);
    DotSymmetric(x, y);
  }

  /** About a unit axis, with d the component of v along it: the axial part has
      squared length d^2, and the radial part and axis x v have |v|^2 - d^2. */
  lemma DecompositionLengths(v: Vector3, axis: Vector3)
    requires LengthSquared(axis) == 1.0
    ensures LengthSquared(AxialPart(v, axis)) == Dot(axis, v) * Dot(axis, v)
    ensures LengthSquared(RadialPart(v, axis)) == LengthSquared(v) - Dot(axis, v) * Dot(axis, v)
    ensures LengthSquared(Cross(axis, v)) == LengthSquared(v) - Dot(axis, v) * Dot(axis, v)
  {
    var d := Dot(axis, v);
    var o := AxialPart(v, axis);
    LengthSquaredScale(axis, d);
    CrossLengthSquared(axis, v);
    LengthSquaredSub(v, o);
    DotScale(v, axis, d);
    DotSymmetric(v, axis);
  }

  /** Pythagoras for o + c a + s b with o, a, b pairwise orthogonal. */
  lemma OrthogonalSumLength(o: Vector3, a: Vector3, b: Vector3, c: real, s: real)
    requires Dot(o, a) == 0.0 && Dot(o, b) == 0.0 && Dot(a, b) == 0.0
    ensures LengthSquared(Add(Add(o, Scale(a, c)), Scale(b, s)))
         == LengthSquared(o) + (c * c) * LengthSquared(a) + (s * s) * LengthSquared(b)
  {
    var ac, bs := Scale(a, c), Scale(b, s);
    LengthSquaredScale(a, c);
    LengthSquaredScale(b, s);
    DotScale(o, a, c);
    DotScale(o, b, s);
    DotScale(ac, b, s);
    DotSymmetric(ac, b);
    DotScale(b, a, c);
    DotSymmetric(b, a);
    LengthSquaredAdd(o, ac);
    DotAdd(bs, o, ac);
    DotSymmetric(bs, o);
    DotSymmetric(bs, ac);
    LengthSquaredAdd(Add(o, ac), bs);
    DotSymmetric(Add(o, ac), bs);
  }

  // ---------------------------------------------------------------------------
  // Bilinearity of the dot product, used by the proofs above

  lemma DotAdd(a: Vector3, b: Vector3, c: Vector3)
    ensures Dot(a, Add(b, c)) == Dot(a, b) + Dot(a, c)
  {
  }

  lemma DotSub(a: Vector3, b: Vector3, c: Vector3)
    ensures Dot(a, Sub(b, c)) == Dot(a, b) - Dot(a, c)
  {
  }

  lemma DotScale(a: Vector3, b: Vector3, k: real)
    ensures Dot(a, Scale(b, k)) == Dot(a, b) * k
  {
  }

  lemma LengthSquaredAdd(a: Vector3, b: Vector3)
    ensures LengthSquared(Add(a, b)) == LengthSquared(a) + LengthSquared(b) + 2.0 * Dot(a, b)
  {
  }

  lemma LengthSquaredSub(a: Vector3, b: Vector3)
    ensures LengthSquared(Sub(a, b)) == LengthSquared(a) + LengthSquared(b) - 2.0 * Dot(a, b)
  {
  }

  lemma LengthSquaredScale(a: Vector3, k: real)
    ensures LengthSquared(Scale(a, k)) == (k * k) * LengthSquared(a)
  {
  }
}
