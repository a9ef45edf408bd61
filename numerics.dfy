/** The C library calls the linear-math kernel makes (std::sqrt, std::sin, std::cos,
    std::acos, std::asin, std::atan2) and the scalar constant EPSILON.
    They are parameters of the model: a member that uses one says so by taking a
    Libm, and a lemma that relies on a property of one states that property as a
    requires clause (SqrtSound, TrigSound).  Nothing else about them is known. */
module Numerics {

  datatype Libm = Libm(
    sqrt: real -> real,
    sin: real -> real,
    cos: real -> real,
    acos: real -> real,
    asin: real -> real,
    atan2: (real, real) -> real,
    epsilon: real)

  /** std::sqrt, std::sin, std::cos, std::acos, std::asin and std::atan2 as
      supplied by lib. */
  function Sqrt(lib: Libm, a: real): real { lib.sqrt(a) }
  function Sin(lib: Libm, a: real): real { lib.sin(a) }
  function Cos(lib: Libm, a: real): real { lib.cos(a) }
  function Acos(lib: Libm, a: real): real { lib.acos(a) }
  function Asin(lib: Libm, a: real): real { lib.asin(a) }
  function Atan2(lib: Libm, y: real, x: real): real { lib.atan2(y, x) }

  /** std::sqrt on a non-negative argument returns its non-negative square root. */
  ghost predicate SqrtSound(lib: Libm) {
    forall a :: 0.0 <= a ==> 0.0 <= Sqrt(lib, a) && Sqrt(lib, a) * Sqrt(lib, a) == a
  }

  /** sin^2 + cos^2 == 1 at every angle. */
  ghost predicate TrigSound(lib: Libm) {
    forall a :: Sin(lib, a) * Sin(lib, a) + Cos(lib, a) * Cos(lib, a) == 1.0
  }

  /** A sound square root is determined by its defining property: the only
      non-negative root of a is Sqrt(lib, a). */
  lemma SqrtUnique(lib: Libm, a: real, root: real)
    requires SqrtSound(lib)
    requires 0.0 <= root && root * root == a
    ensures Sqrt(lib, a) == root
  {
    var s := Sqrt(lib, a);
    assert 0.0 <= s && s * s == a;
    if s < root {
      MulStrictlyMonotone(s, root);
    } else if root < s {
      MulStrictlyMonotone(root, s);
    }
  }

  /** The square root of a square is the non-negative factor. */
  lemma SqrtOfSquare(lib: Libm, a: real)
    requires SqrtSound(lib)
    requires 0.0 <= a
    ensures Sqrt(lib, a * a) == a
  {
    SquareNonNegative(a);
    SqrtUnique(lib, a * a, a);
  }

  /** Squaring is strictly increasing on the non-negative reals. */
  lemma MulStrictlyMonotone(a: real, b: real)
    requires 0.0 <= a < b
    ensures a * a < b * b
  {
    assert 0.0 < b - a;
    assert 0.0 <= a * (b - a);
    assert 0.0 < b * (b - a);
  }

  /** A square is non-negative, and zero only at zero. */
  lemma SquareNonNegative(a: real)
    ensures 0.0 <= a * a
    ensures a * a == 0.0 <==> a == 0.0
  {
    if a < 0.0 {
      assert a * a == (-a) * (-a);
      MulStrictlyMonotone(0.0, -a);
    } else if 0.0 < a {
      MulStrictlyMonotone(0.0, a);
    }
  }

  /** A sound square root vanishes exactly at zero. */
  lemma SqrtZeroIff(lib: Libm, a: real)
    requires SqrtSound(lib)
    requires 0.0 <= a
    ensures Sqrt(lib, a) == 0.0 <==> a == 0.0
  {
    if a == 0.0 {
      SqrtUnique(lib, a, 0.0);
    }
  }
}
