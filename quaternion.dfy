/** Quaternion: four scalars w, x, y, z stored as m_data[0..3].  The binary
    operators are pure functions; a compound assignment (q *= p, q /= s, ...) is
    the same function with its result stored back in the receiver.  The mixed
    Quaternion/Vector3 products and Vector3::rotate(const Quaternion&) are here
    because they need both types. */
module Quaternions {
  import opened Numerics
  import V = Vectors

  datatype Quaternion = Quaternion(w: real, x: real, y: real, z: real)

  /** QUATERNION_IDENTITY. */
  const IDENTITY := Quaternion(1.0, 0.0, 0.0, 0.0)

  /** m_data: the stored components in the order w, x, y, z. */
  function Data(q: Quaternion): (d: seq<real>)
    ensures |d| == 4
    ensures d[0] == q.w && d[1] == q.x && d[2] == q.y && d[3] == q.z
  {
    [q.w, q.x, q.y, q.z]
  }

  /** The quaternion (0, v.x, v.y, v.z) that a vector stands for in a product. */
  function Pure(v: V.Vector3): Quaternion {
    Quaternion(0.0, v.x, v.y, v.z)
  }

  /** The vector (x, y, z) of a quaternion; Pure and VectorPart are inverse on
      quaternions whose w is zero. */
  function VectorPart(q: Quaternion): V.Vector3 {
    V.Vector3(q.x, q.y, q.z)
  }

  function Neg(q: Quaternion): (r: Quaternion)
    ensures forall i | 0 <= i < 4 :: Data(r)[i] == -Data(q)[i]
  {
    Quaternion(-q.w, -q.x, -q.y, -q.z)
  }

  function Add(p: Quaternion, q: Quaternion): (r: Quaternion)
    ensures forall i | 0 <= i < 4 :: Data(r)[i] == Data(p)[i] + Data(q)[i]
  {
    Quaternion(p.w + q.w, p.x + q.x, p.y + q.y, p.z + q.z)
  }

  function Sub(p: Quaternion, q: Quaternion): (r: Quaternion)
    ensures forall i | 0 <= i < 4 :: Data(r)[i] == Data(p)[i] - Data(q)[i]
  {
    Quaternion(p.w - q.w, p.x - q.x, p.y - q.y, p.z - q.z)
  }

  /** operator*=(scalar) and operator*(scalar). */
  function Scale(q: Quaternion, s: real): (r: Quaternion)
    ensures forall i | 0 <= i < 4 :: Data(r)[i] == Data(q)[i] * s
  {
    Quaternion(q.w * s, q.x * s, q.y * s, q.z * s)
  }

  /** `q / s` is written as `q *= ONE / s`: a multiplication by the reciprocal. */
  function DivScalar(q: Quaternion, s: real): (r: Quaternion)
    requires s != 0.0
    ensures forall i | 0 <= i < 4 :: Data(r)[i] * s == Data(q)[i]
  {
    Scale(q, 1.0 / s)
  }

  /** operator*=(Quaternion): the Hamilton product this * q. */
  function Mul(p: Quaternion, q: Quaternion): Quaternion {
    Quaternion(
      p.w * q.w - p.x * q.x - p.y * q.y - p.z * q.z,
      p.w * q.x + p.x * q.w + p.y * q.z - p.z * q.y,
      p.w * q.y + p.y * q.w + p.z * q.x - p.x * q.z,
      p.w * q.z + p.z * q.w + p.x * q.y - p.y * q.x)
  }

  /** operator==: all four components equal, which is equality of the values. */
  function Equal(p: Quaternion, q: Quaternion): (r: bool)
    ensures r <==> p == q
  {
    p.w == q.w && p.x == q.x && p.y == q.y && p.z == q.z
  }

  /** operator!=: the negation of operator==. */
  function NotEqual(p: Quaternion, q: Quaternion): (r: bool)
    ensures r <==> p != q
  {
    !Equal(p, q)
  }

  function Dot(p: Quaternion, q: Quaternion): real {
    p.w * q.w + p.x * q.x + p.y * q.y + p.z * q.z
  }

  /** lengthSquared() is dot(*this); it is never negative (and is zero only
      at the zero quaternion, LengthSquaredZeroIff). */
  function LengthSquared(q: Quaternion): (r: real)
    ensures 0.0 <= r
  {
    SquareNonNegative(q.w);
    SquareNonNegative(q.x);
    SquareNonNegative(q.y);
    SquareNonNegative(q.z);
    Dot(q, q)
  }

  lemma LengthSquaredZeroIff(q: Quaternion)
    ensures LengthSquared(q) == 0.0 <==> q == Quaternion(0.0, 0.0, 0.0, 0.0)
  {
    SquareNonNegative(q.w);
    SquareNonNegative(q.x);
    SquareNonNegative(q.y);
    SquareNonNegative(q.z);
  }

  function Length(lib: Libm, q: Quaternion): real {
    Sqrt(lib, LengthSquared(q))
  }

  /** A quaternion that represents an orientation has unit length. */
  predicate IsUnit(q: Quaternion) {
    LengthSquared(q) == 1.0
  }

  /** inverse(): the conjugate, w kept and x, y, z negated.  It is the true
      inverse only for unit quaternions (MulInverse). */
  function Inverse(q: Quaternion): (r: Quaternion)
    ensures Data(r)[0] == Data(q)[0]
    ensures forall i | 1 <= i < 4 :: Data(r)[i] == -Data(q)[i]
  {
    Quaternion(q.w, -q.x, -q.y, -q.z)
  }

  /** normalized() divides by length(); the zero quaternion divides by zero. */
  function Normalized(lib: Libm, q: Quaternion): Quaternion
    requires Length(lib, q) != 0.0
  {
    DivScalar(q, Length(lib, q))
  }

  /** |p|^2 |q|^2, the number angle() and slerp() take the square root of. */
  function LengthsProduct(p: Quaternion, q: Quaternion): real {
    LengthSquared(p) * LengthSquared(q)
  }

  /** angle(q) = acos(dot(q) / sqrt(|this|^2 |q|^2)). */
  function Angle(lib: Libm, p: Quaternion, q: Quaternion): real
    requires Sqrt(lib, LengthsProduct(p, q)) != 0.0
  {
    Acos(lib, Dot(p, q) / Sqrt(lib, LengthsProduct(p, q)))
  }

  /** s_squared in getAxis(): 1 - w^2, the squared sine of half the angle of a
      unit quaternion. */
  function HalfSineSquared(q: Quaternion): real {
    1.0 - q.w * q.w
  }

  /** The division in getAxis() is by sqrt(1 - w^2) whenever the guard lets it through. */
  predicate AxisDefined(lib: Libm, q: Quaternion) {
    HalfSineSquared(q) < 10.0 * lib.epsilon || Sqrt(lib, HalfSineSquared(q)) != 0.0
  }

  /** getAxis(): when 1 - w^2 is below 10 EPSILON the axis is arbitrary and
      UNIT_X is returned; otherwise (x, y, z) divided by sqrt(1 - w^2). */
  function GetAxis(lib: Libm, q: Quaternion): (axis: V.Vector3)
    requires AxisDefined(lib, q)
    ensures HalfSineSquared(q) < 10.0 * lib.epsilon ==> axis == V.UNIT_X
    ensures !(HalfSineSquared(q) < 10.0 * lib.epsilon) ==>
      V.Scale(axis, Sqrt(lib, HalfSineSquared(q))) == VectorPart(q)
  {
    if HalfSineSquared(q) < 10.0 * lib.epsilon then V.UNIT_X
    else
      var s := 1.0 / Sqrt(lib, HalfSineSquared(q));
      V.Vector3(q.x * s, q.y * s, q.z * s)
  }

  /** getAngle() = 2 acos(w). */
  function GetAngle(lib: Libm, q: Quaternion): real {
    2.0 * Acos(lib, q.w)
  }

  /** Quaternion(axis, angle) and setAxisAngle: cos of the half angle, and the
      axis scaled by sin of the half angle over the axis length. */
  function AxisAngle(lib: Libm, axis: V.Vector3, angle: real): Quaternion
    requires V.Length(lib, axis) != 0.0
  {
    var halfAngle := angle * 0.5;
    var s := Sin(lib, halfAngle) / V.Length(lib, axis);
    Quaternion(Cos(lib, halfAngle), axis.x * s, axis.y * s, axis.z * s)
  }

  /** Quaternion(yaw, pitch, roll) and setEuler: the cosines and sines of the
      three half angles, combined by EulerFromHalfAngles. */
  function FromEuler(lib: Libm, yaw: real, pitch: real, roll: real): Quaternion {
    EulerFromHalfAngles(Cos(lib, yaw * 0.5), Sin(lib, yaw * 0.5),
                        Cos(lib, pitch * 0.5), Sin(lib, pitch * 0.5),
                        Cos(lib, roll * 0.5), Sin(lib, roll * 0.5))
  }

  /** The value setEuler stores, from the cosines and sines of the half angles. */
  function EulerFromHalfAngles(cosYaw: real, sinYaw: real, cosPitch: real, sinPitch: real,
                               cosRoll: real, sinRoll: real): Quaternion {
    Quaternion(
      cosRoll * cosPitch * cosYaw + sinRoll * sinPitch * sinYaw,
      cosRoll * sinPitch * cosYaw + sinRoll * cosPitch * sinYaw,
      cosRoll * cosPitch * sinYaw - sinRoll * sinPitch * cosYaw,
      sinRoll * cosPitch * cosYaw - cosRoll * sinPitch * sinYaw)
  }

  /** The argument getYaw() passes to asin: -2 (x z - w y). */
  function YawSine(q: Quaternion): real {
    -2.0 * (q.x * q.z - q.w * q.y)
  }

  /** The two arguments getPitch() passes to atan2. */
  function PitchTerms(q: Quaternion): (real, real) {
    (2.0 * (q.y * q.z + q.w * q.x), q.w * q.w - q.x * q.x - q.y * q.y + q.z * q.z)
  }

  /** The two arguments getRoll() passes to atan2. */
  function RollTerms(q: Quaternion): (real, real) {
    (2.0 * (q.x * q.y + q.w * q.z), q.w * q.w + q.x * q.x - q.y * q.y - q.z * q.z)
  }

  function GetYaw(lib: Libm, q: Quaternion): real {
    Asin(lib, YawSine(q))
  }

  function GetPitch(lib: Libm, q: Quaternion): real {
    Atan2(lib, PitchTerms(q).0, PitchTerms(q).1)
  }

  function GetRoll(lib: Libm, q: Quaternion): real {
    Atan2(lib, RollTerms(q).0, RollTerms(q).1)
  }

  function Abs(a: real): real {
    if a < 0.0 then -a else a
  }

  /** The cosine of the angle between p and q that slerp starts from. */
  function SlerpCosine(lib: Libm, p: Quaternion, q: Quaternion): real
    requires Sqrt(lib, LengthsProduct(p, q)) != 0.0
  {
    Dot(p, q) / Sqrt(lib, LengthsProduct(p, q))
  }

  /** The two divisions in slerp are by non-zero numbers: the product of the
      lengths, and (when the interpolation branch is taken) sin(theta). */
  predicate SlerpDefined(lib: Libm, p: Quaternion, q: Quaternion) {
    && Sqrt(lib, LengthsProduct(p, q)) != 0.0
    && var product := SlerpCosine(lib, p, q);
       var sign := if product < 0.0 then -1.0 else 1.0;
       Abs(product) != 1.0 ==> Sin(lib, Acos(lib, sign * product)) != 0.0
  }

  /** slerp(q, t): when |product| == 1 the receiver is returned unchanged;
      otherwise the weighted sum with the sign taken into the angle. */
  function Slerp(lib: Libm, p: Quaternion, q: Quaternion, t: real): (r: Quaternion)
    requires SlerpDefined(lib, p, q)
    ensures Abs(SlerpCosine(lib, p, q)) == 1.0 ==> r == p
  {
    var product := SlerpCosine(lib, p, q);
    if Abs(product) != 1.0 then
      var sign := if product < 0.0 then -1.0 else 1.0;
      var theta := Acos(lib, sign * product);
      var s1 := Sin(lib, sign * t * theta);
      var d := 1.0 / Sin(lib, theta);
      var s0 := Sin(lib, (1.0 - t) * theta);
      Quaternion((p.w * s0 + q.w * s1) * d,
                 (p.x * s0 + q.x * s1) * d,
                 (p.y * s0 + q.y * s1) * d,
                 (p.z * s0 + q.z * s1) * d)
    else
      p
  }

  /** operator*(const Quaternion&, const Vector3&): q times the pure quaternion of v. */
  function MulVector(q: Quaternion, v: V.Vector3): (r: Quaternion)
    ensures r == Mul(q, Pure(v))
  {
    Quaternion(-q.x * v.x - q.y * v.y - q.z * v.z,
                q.w * v.x + q.y * v.z - q.z * v.y,
                q.w * v.y + q.z * v.x - q.x * v.z,
                q.w * v.z + q.x * v.y - q.y * v.x)
  }

  /** operator*(const Vector3&, const Quaternion&): the pure quaternion of v times q. */
  function VectorMul(v: V.Vector3, q: Quaternion): (r: Quaternion)
    ensures r == Mul(Pure(v), q)
  {
    Quaternion(-v.x * q.x - v.y * q.y - v.z * q.z,
                v.x * q.w + v.y * q.z - v.z * q.y,
                v.y * q.w + v.z * q.x - v.x * q.z,
                v.z * q.w + v.x * q.y - v.y * q.x)
  }

  /** Vector3::rotate(const Quaternion&): the vector part of q * v * q.inverse(). */
  function RotateVector(v: V.Vector3, q: Quaternion): V.Vector3 {
    var q1 := Mul(MulVector(q, v), Inverse(q));
    VectorPart(q1)
  }

  // ---------------------------------------------------------------------------
  // Laws of the Hamilton product and the conjugate

  /** QUATERNION_IDENTITY is a two-sided unit of the product. */
  lemma MulIdentity(q: Quaternion)
    ensures Mul(IDENTITY, q) == q
    ensures Mul(q, IDENTITY) == q
  {
  }

  lemma MulAssociates(p: Quaternion, q: Quaternion, r: Quaternion)
    ensures Mul(Mul(p, q), r) == Mul(p, Mul(q, r))
  {
    MulAssociatesScalar(p.w, p.x, p.y, p.z, q.w, q.x, q.y, q.z, r.w, r.x, r.y, r.z,
      p.w * q.w - p.x * q.x - p.y * q.y - p.z * q.z,
      p.w * q.x + p.x * q.w + p.y * q.z - p.z * q.y,
      p.w * q.y + p.y * q.w + p.z * q.x - p.x * q.z,
      p.w * q.z + p.z * q.w + p.x * q.y - p.y * q.x,
      q.w * r.w - q.x * r.x - q.y * r.y - q.z * r.z,
      q.w * r.x + q.x * r.w + q.y * r.z - q.z * r.y,
      q.w * r.y + q.y * r.w + q.z * r.x - q.x * r.z,
      q.w * r.z + q.z * r.w + q.x * r.y - q.y * r.x);
  }

  /** The product is not commutative: p q == q p exactly when the vector parts
      of p and q are parallel (their cross product is zero). */
  lemma MulCommutesIff(p: Quaternion, q: Quaternion)
    ensures Mul(p, q) == Mul(q, p) <==> V.Cross(VectorPart(p), VectorPart(q)) == V.ZERO
  {
  }

  lemma InverseInvolution(q: Quaternion)
    ensures Inverse(Inverse(q)) == q
  {
  }

  /** The conjugate of a product is the product of the conjugates, reversed. */
  lemma InverseOfProduct(p: Quaternion, q: Quaternion)
    ensures Inverse(Mul(p, q)) == Mul(Inverse(q), Inverse(p))
  {
  }

  /** q times its conjugate is the real number |q|^2, on either side; so the
      conjugate is the inverse exactly when q has unit length. */
  lemma MulInverse(q: Quaternion)
    ensures Mul(q, Inverse(q)) == Quaternion(LengthSquared(q), 0.0, 0.0, 0.0)
    ensures Mul(Inverse(q), q) == Quaternion(LengthSquared(q), 0.0, 0.0, 0.0)
    ensures Mul(q, Inverse(q)) == IDENTITY <==> IsUnit(q)
  {
  }

  lemma DotSymmetric(p: Quaternion, q: Quaternion)
    ensures Dot(p, q) == Dot(q, p)
  {
  }

  /** |p q|^2 == |p|^2 |q|^2 (Euler's four-square identity). */
  lemma LengthSquaredMul(p: Quaternion, q: Quaternion)
    ensures LengthSquared(Mul(p, q)) == LengthSquared(p) * LengthSquared(q)
  {
    LengthSquaredMulScalar(p.w, p.x, p.y, p.z, q.w, q.x, q.y, q.z,
      p.w * q.w - p.x * q.x - p.y * q.y - p.z * q.z,
      p.w * q.x + p.x * q.w + p.y * q.z - p.z * q.y,
      p.w * q.y + p.y * q.w + p.z * q.x - p.x * q.z,
      p.w * q.z + p.z * q.w + p.x * q.y - p.y * q.x,
      p.w * p.w + p.x * p.x + p.y * p.y + p.z * p.z,
      q.w * q.w + q.x * q.x + q.y * q.y + q.z * q.z);
  }

  /** A product of unit quaternions is a unit quaternion. */
  lemma UnitMul(p: Quaternion, q: Quaternion)
    requires IsUnit(p) && IsUnit(q)
    ensures IsUnit(Mul(p, q))
  {
    LengthSquaredMul(p, q);
  }

  lemma UnitInverse(q: Quaternion)
    requires IsUnit(q)
    ensures IsUnit(Inverse(q))
  {
  }

  /** Associativity on the twelve scalars of p, q and r, with a == p q and
      b == q r given by their components: the four components of a r and p b agree. */
  lemma MulAssociatesScalar(pw: real, px: real, py: real, pz: real,
      qw: real, qx: real, qy: real, qz: real,
      rw: real, rx: real, ry: real, rz: real,
      aw: real, ax: real, ay: real, az: real,
      bw: real, bx: real, bY: real, bz: real)
    requires aw == pw * qw - px * qx - py * qy - pz * qz
    requires ax == pw * qx + px * qw + py * qz - pz * qy
    requires ay == pw * qy + py * qw + pz * qx - px * qz
    requires az == pw * qz + pz * qw + px * qy - py * qx
    requires bw == qw * rw - qx * rx - qy * ry - qz * rz
    requires bx == qw * rx + qx * rw + qy * rz - qz * ry
    requires bY == qw * ry + qy * rw + qz * rx - qx * rz
    requires bz == qw * rz + qz * rw + qx * ry - qy * rx
    ensures aw * rw - ax * rx - ay * ry - az * rz == pw * bw - px * bx - py * bY - pz * bz
    ensures aw * rx + ax * rw + ay * rz - az * ry == pw * bx + px * bw + py * bz - pz * bY
    ensures aw * ry + ay * rw + az * rx - ax * rz == pw * bY + py * bw + pz * bx - px * bz
    ensures aw * rz + az * rw + ax * ry - ay * rx == pw * bz + pz * bw + px * bY - py * bx
  {
    MulAssociatesW(pw, px, py, pz, qw, qx, qy, qz, rw, rx, ry, rz, aw, ax, ay, az, bw, bx, bY, bz);
    MulAssociatesX(pw, px, py, pz, qw, qx, qy, qz, rw, rx, ry, rz, aw, ax, ay, az, bw, bx, bY, bz);
    MulAssociatesY(pw, px, py, pz, qw, qx, qy, qz, rw, rx, ry, rz, aw, ax, ay, az, bw, bx, bY, bz);
    MulAssociatesZ(pw, px, py, pz, qw, qx, qy, qz, rw, rx, ry, rz, aw, ax, ay, az, bw, bx, bY, bz);
  }

  /** Component w of MulAssociatesScalar. */
  lemma MulAssociatesW(pw: real, px: real, py: real, pz: real,
      qw: real, qx: real, qy: real, qz: real,
      rw: real, rx: real, ry: real, rz: real,
      aw: real, ax: real, ay: real, az: real,
      bw: real, bx: real, bY: real, bz: real)
    requires aw == pw * qw - px * qx - py * qy - pz * qz
    requires ax == pw * qx + px * qw + py * qz - pz * qy
    requires ay == pw * qy + py * qw + pz * qx - px * qz
    requires az == pw * qz + pz * qw + px * qy - py * qx
    requires bw == qw * rw - qx * rx - qy * ry - qz * rz
    requires bx == qw * rx + qx * rw + qy * rz - qz * ry
    requires bY == qw * ry + qy * rw + qz * rx - qx * rz
    requires bz == qw * rz + qz * rw + qx * ry - qy * rx
    ensures aw * rw - ax * rx - ay * ry - az * rz == pw * bw - px * bx - py * bY - pz * bz
  {
  }

  /** Component x of MulAssociatesScalar. */
  lemma MulAssociatesX(pw: real, px: real, py: real, pz: real,
      qw: real, qx: real, qy: real, qz: real,
      rw: real, rx: real, ry: real, rz: real,
      aw: real, ax: real, ay: real, az: real,
      bw: real, bx: real, bY: real, bz: real)
    requires aw == pw * qw - px * qx - py * qy - pz * qz
    requires ax == pw * qx + px * qw + py * qz - pz * qy
    requires ay == pw * qy + py * qw + pz * qx - px * qz
    requires az == pw * qz + pz * qw + px * qy - py * qx
    requires bw == qw * rw - qx * rx - qy * ry - qz * rz
    requires bx == qw * rx + qx * rw + qy * rz - qz * ry
    requires bY == qw * ry + qy * rw + qz * rx - qx * rz
    requires bz == qw * rz + qz * rw + qx * ry - qy * rx
    ensures aw * rx + ax * rw + ay * rz - az * ry == pw * bx + px * bw + py * bz - pz * bY
  {
  }

  /** Component y of MulAssociatesScalar. */
  lemma MulAssociatesY(pw: real, px: real, py: real, pz: real,
      qw: real, qx: real, qy: real, qz: real,
      rw: real, rx: real, ry: real, rz: real,
      aw: real, ax: real, ay: real, az: real,
      bw: real, bx: real, bY: real, bz: real)
    requires aw == pw * qw - px * qx - py * qy - pz * qz
    requires ax == pw * qx + px * qw + py * qz - pz * qy
    requires ay == pw * qy + py * qw + pz * qx - px * qz
    requires az == pw * qz + pz * qw + px * qy - py * qx
    requires bw == qw * rw - qx * rx - qy * ry - qz * rz
    requires bx == qw * rx + qx * rw + qy * rz - qz * ry
    requires bY == qw * ry + qy * rw + qz * rx - qx * rz
    requires bz == qw * rz + qz * rw + qx * ry - qy * rx
    ensures aw * ry + ay * rw + az * rx - ax * rz == pw * bY + py * bw + pz * bx - px * bz
  {
  }

  /** Component z of MulAssociatesScalar. */
  lemma MulAssociatesZ(pw: real, px: real, py: real, pz: real,
      qw: real, qx: real, qy: real, qz: real,
      rw: real, rx: real, ry: real, rz: real,
      aw: real, ax: real, ay: real, az: real,
      bw: real, bx: real, bY: real, bz: real)
    requires aw == pw * qw - px * qx - py * qy - pz * qz
    requires ax == pw * qx + px * qw + py * qz - pz * qy
    requires ay == pw * qy + py * qw + pz * qx - px * qz
    requires az == pw * qz + pz * qw + px * qy - py * qx
    requires bw == qw * rw - qx * rx - qy * ry - qz * rz
    requires bx == qw * rx + qx * rw + qy * rz - qz * ry
    requires bY == qw * ry + qy * rw + qz * rx - qx * rz
    requires bz == qw * rz + qz * rw + qx * ry - qy * rx
    ensures aw * rz + az * rw + ax * ry - ay * rx == pw * bz + pz * bw + px * bY - py * bx
  {
  }

  /** Euler's four-square identity, with m == p q and the two squared lengths
      lp and lq written as their own variables. */
  lemma LengthSquaredMulScalar(pw: real, px: real, py: real, pz: real,
                               qw: real, qx: real, qy: real, qz: real,
                               mw: real, mx: real, my: real, mz: real,
                               lp: real, lq: real)
    requires mw == pw * qw - px * qx - py * qy - pz * qz
    requires mx == pw * qx + px * qw + py * qz - pz * qy
    requires my == pw * qy + py * qw + pz * qx - px * qz
    requires mz == pw * qz + pz * qw + px * qy - py * qx
    requires lp == pw * pw + px * px + py * py + pz * pz
    requires lq == qw * qw + qx * qx + qy * qy + qz * qz
    ensures mw * mw + mx * mx + my * my + mz * mz == lp * lq
  {
  }

  // ---------------------------------------------------------------------------
  // Normalisation

  /** With a sound square root, normalized() has unit length. */
  lemma NormalizedIsUnit(lib: Libm, q: Quaternion)
    requires SqrtSound(lib)
    requires Length(lib, q) != 0.0
    ensures IsUnit(Normalized(lib, q))
  {
    var l := Length(lib, q);
    assert l * l == LengthSquared(q);
    var k := 1.0 / l;
    assert Normalized(lib, q) == Scale(q, k);
    LengthSquaredScale(q, k);
    assert (l * l) * (k * k) == (l * k) * (l * k);
  }

  /** With a sound square root, a unit quaternion has length 1 and normalized()
      leaves it as it is. */
  lemma NormalizedOfUnit(lib: Libm, q: Quaternion)
    requires SqrtSound(lib)
    requires IsUnit(q)
    ensures Length(lib, q) == 1.0
    ensures Normalized(lib, q) == q
  {
    SqrtUnique(lib, 1.0, 1.0);
  }

  /** A non-zero quaternion has non-zero length under a sound square root. */
  lemma LengthNonZero(lib: Libm, q: Quaternion)
    requires SqrtSound(lib)
    requires LengthSquared(q) != 0.0
    ensures Length(lib, q) != 0.0
  {
    SqrtZeroIff(lib, LengthSquared(q));
  }

  lemma LengthSquaredScale(q: Quaternion, k: real)
    ensures LengthSquared(Scale(q, k)) == (k * k) * LengthSquared(q)
  {
  }

  // ---------------------------------------------------------------------------
  // Axis, angle and Euler angles

  /** For a unit quaternion past the guard, getAxis() is a unit vector. */
  lemma GetAxisIsUnit(lib: Libm, q: Quaternion)
    requires SqrtSound(lib)
    requires IsUnit(q)
    requires !(HalfSineSquared(q) < 10.0 * lib.epsilon)
    requires AxisDefined(lib, q)
    ensures V.LengthSquared(GetAxis(lib, q)) == 1.0
  {
    assert 0.0 <= HalfSineSquared(q) by {
      assert HalfSineSquared(q) == q.x * q.x + q.y * q.y + q.z * q.z;
      SquareNonNegative(q.x);
      SquareNonNegative(q.y);
      SquareNonNegative(q.z);
    }
    assert 0.0 <= Sqrt(lib, HalfSineSquared(q)) && Sqrt(lib, HalfSineSquared(q)) * Sqrt(lib, HalfSineSquared(q)) == HalfSineSquared(q);
    VectorPartOverRoot(q, Sqrt(lib, HalfSineSquared(q)));
    assert GetAxis(lib, q) == V.Scale(VectorPart(q), 1.0 / Sqrt(lib, HalfSineSquared(q)));
  }

  /** The vector part of a unit quaternion divided by a square root of 1 - w^2
      is a unit vector. */
  lemma VectorPartOverRoot(q: Quaternion, root: real)
    requires IsUnit(q)
    requires root * root == HalfSineSquared(q)
    requires root != 0.0
    ensures V.LengthSquared(V.Scale(VectorPart(q), 1.0 / root)) == 1.0
  {
    var k := 1.0 / root;
    V.LengthSquaredScale(VectorPart(q), k);
    assert V.LengthSquared(VectorPart(q)) == root * root;
    assert (k * k) * (root * root) == (k * root) * (k * root);
  }

  /** setAxisAngle gives a unit quaternion for any non-zero axis. */
  lemma AxisAngleIsUnit(lib: Libm, axis: V.Vector3, angle: real)
    requires SqrtSound(lib) && TrigSound(lib)
    requires V.Length(lib, axis) != 0.0
    ensures IsUnit(AxisAngle(lib, axis, angle))
  {
    var l := V.Length(lib, axis);
    assert l * l == V.LengthSquared(axis);
    var h := angle * 0.5;
    var s := Sin(lib, h) / l;
    var q := AxisAngle(lib, axis, angle);
    assert Quaternion(0.0, q.x, q.y, q.z) == Pure(V.Scale(axis, s));
    V.LengthSquaredScale(axis, s);
    assert (s * s) * (l * l) == (s * l) * (s * l);
    assert s * l == Sin(lib, h);
    assert LengthSquared(q) == Cos(lib, h) * Cos(lib, h) + (s * s) * V.LengthSquared(axis);
  }

  /** About a unit axis, setAxisAngle is (cos(a/2), sin(a/2) axis). */
  lemma AxisAngleOfUnit(lib: Libm, axis: V.Vector3, a: real)
    requires SqrtSound(lib)
    requires V.LengthSquared(axis) == 1.0
    ensures V.Length(lib, axis) == 1.0
    ensures AxisAngle(lib, axis, a)
         == Quaternion(Cos(lib, a * 0.5), axis.x * Sin(lib, a * 0.5), axis.y * Sin(lib, a * 0.5), axis.z * Sin(lib, a * 0.5))
  {
    SqrtUnique(lib, 1.0, 1.0);
  }

  /** getAngle() of the axis-angle quaternion is twice the arc cosine of the
      cosine of the half angle, whatever nonzero axis it was built about. */
  lemma GetAngleOfAxisAngle(lib: Libm, axis: V.Vector3, a: real)
    requires V.Length(lib, axis) != 0.0
    ensures GetAngle(lib, AxisAngle(lib, axis, a)) == 2.0 * Acos(lib, Cos(lib, a * 0.5))
  {
  }

  /** getAxis() gives back the unit axis the quaternion was built from, when the
      half angle has a positive sine and the guard does not intervene. */
  lemma GetAxisOfAxisAngle(lib: Libm, axis: V.Vector3, a: real)
    requires SqrtSound(lib) && TrigSound(lib)
    requires V.LengthSquared(axis) == 1.0
    requires 0.0 < Sin(lib, a * 0.5)
    ensures V.Length(lib, axis) != 0.0
    ensures AxisDefined(lib, AxisAngle(lib, axis, a))
    ensures !(HalfSineSquared(AxisAngle(lib, axis, a)) < 10.0 * lib.epsilon) ==>
      GetAxis(lib, AxisAngle(lib, axis, a)) == axis
  {
    AxisAngleOfUnit(lib, axis, a);
    var q := AxisAngle(lib, axis, a);
    var s := Sin(lib, a * 0.5);
    var c := Cos(lib, a * 0.5);
    assert q == Quaternion(c, axis.x * s, axis.y * s, axis.z * s);
    assert s * s + c * c == 1.0;
    assert HalfSineSquared(q) == s * s;
    SqrtOfSquare(lib, s);
    assert Sqrt(lib, HalfSineSquared(q)) == s;
    if !(HalfSineSquared(q) < 10.0 * lib.epsilon) {
      var k := 1.0 / s;
      assert s * k == 1.0;
      assert GetAxis(lib, q) == V.Vector3((axis.x * s) * k, (axis.y * s) * k, (axis.z * s) * k);
      assert (axis.x * s) * k == axis.x * (s * k);
      assert (axis.y * s) * k == axis.y * (s * k);
      assert (axis.z * s) * k == axis.z * (s * k);
    }
  }

  /** setAxisAngle(UNIT_X, a), the rotation by a about the x axis. */
  lemma AxisAngleAboutX(lib: Libm, a: real)
    requires SqrtSound(lib)
    ensures AxisAngle(lib, V.UNIT_X, a) == Quaternion(Cos(lib, a * 0.5), Sin(lib, a * 0.5), 0.0, 0.0)
  {
    var q := AxisAngle(lib, V.UNIT_X, a);
    AxisAngleOfUnit(lib, V.UNIT_X, a);
    assert q.w == Cos(lib, a * 0.5);
    assert q.x == Sin(lib, a * 0.5);
    assert q.y == 0.0;
    assert q.z == 0.0;
  }

  /** setAxisAngle(UNIT_Y, a), the rotation by a about the y axis. */
  lemma AxisAngleAboutY(lib: Libm, a: real)
    requires SqrtSound(lib)
    ensures AxisAngle(lib, V.UNIT_Y, a) == Quaternion(Cos(lib, a * 0.5), 0.0, Sin(lib, a * 0.5), 0.0)
  {
    var q := AxisAngle(lib, V.UNIT_Y, a);
    AxisAngleOfUnit(lib, V.UNIT_Y, a);
    assert q.w == Cos(lib, a * 0.5);
    assert q.x == 0.0;
    assert q.y == Sin(lib, a * 0.5);
    assert q.z == 0.0;
  }

  /** setAxisAngle(UNIT_Z, a), the rotation by a about the z axis. */
  lemma AxisAngleAboutZ(lib: Libm, a: real)
    requires SqrtSound(lib)
    ensures AxisAngle(lib, V.UNIT_Z, a) == Quaternion(Cos(lib, a * 0.5), 0.0, 0.0, Sin(lib, a * 0.5))
  {
    var q := AxisAngle(lib, V.UNIT_Z, a);
    AxisAngleOfUnit(lib, V.UNIT_Z, a);
    assert q.w == Cos(lib, a * 0.5);
    assert q.x == 0.0;
    assert q.y == 0.0;
    assert q.z == Sin(lib, a * 0.5);
  }

  /** setEuler(yaw, pitch, roll) is the rotation by yaw about Y, then pitch
      about X, then roll about Z, composed as yaw * pitch * roll. */
  lemma EulerComposes(lib: Libm, yaw: real, pitch: real, roll: real)
    requires SqrtSound(lib)
    ensures FromEuler(lib, yaw, pitch, roll)
         == Mul(Mul(AxisAngle(lib, V.UNIT_Y, yaw), AxisAngle(lib, V.UNIT_X, pitch)), AxisAngle(lib, V.UNIT_Z, roll))
  {
    AxisAngleAboutY(lib, yaw);
    AxisAngleAboutX(lib, pitch);
    AxisAngleAboutZ(lib, roll);
    HalfAnglesCompose(Cos(lib, yaw * 0.5), Sin(lib, yaw * 0.5), Cos(lib, pitch * 0.5), Sin(lib, pitch * 0.5),
                      Cos(lib, roll * 0.5), Sin(lib, roll * 0.5));
  }

  /** EulerComposes on the cosines and sines of the half angles. */
  lemma HalfAnglesCompose(cy: real, sy: real, cp: real, sp: real, cr: real, sr: real)
    ensures Mul(Mul(Quaternion(cy, 0.0, sy, 0.0), Quaternion(cp, sp, 0.0, 0.0)), Quaternion(cr, 0.0, 0.0, sr))
         == EulerFromHalfAngles(cy, sy, cp, sp, cr, sr)
  {
    YawTimesPitch(cy, sy, cp, sp);
    YawPitchTimesRoll(cy, sy, cp, sp, cr, sr);
  }

  lemma YawTimesPitch(cy: real, sy: real, cp: real, sp: real)
    ensures Mul(Quaternion(cy, 0.0, sy, 0.0), Quaternion(cp, sp, 0.0, 0.0))
         == Quaternion(cy * cp, cy * sp, sy * cp, -(sy * sp))
  {
  }

  lemma YawPitchTimesRoll(cy: real, sy: real, cp: real, sp: real, cr: real, sr: real)
    ensures Mul(Quaternion(cy * cp, cy * sp, sy * cp, -(sy * sp)), Quaternion(cr, 0.0, 0.0, sr))
         == EulerFromHalfAngles(cy, sy, cp, sp, cr, sr)
  {
  }

  /** q and -q stand for the same rotation: the Euler angles read from them agree. */
  lemma EulerAnglesOfNegation(lib: Libm, q: Quaternion)
    ensures GetYaw(lib, Neg(q)) == GetYaw(lib, q)
    ensures GetPitch(lib, Neg(q)) == GetPitch(lib, q)
    ensures GetRoll(lib, Neg(q)) == GetRoll(lib, q)
  {
    assert YawSine(Neg(q)) == YawSine(q);
    var n := Neg(q);
    assert n.w * n.w == q.w * q.w && n.x * n.x == q.x * q.x && n.y * n.y == q.y * q.y && n.z * n.z == q.z * q.z;
    assert PitchTerms(n).0 == PitchTerms(q).0 && PitchTerms(n).1 == PitchTerms(q).1;
    assert RollTerms(n).0 == RollTerms(q).0 && RollTerms(n).1 == RollTerms(q).1;
  }

  lemma AngleSymmetric(lib: Libm, p: Quaternion, q: Quaternion)
    requires Sqrt(lib, LengthsProduct(p, q)) != 0.0
    ensures Sqrt(lib, LengthsProduct(q, p)) != 0.0
    ensures Angle(lib, p, q) == Angle(lib, q, p)
  {
  }

  /** The cosine slerp computes between a non-zero quaternion and itself is 1. */
  lemma SlerpCosineOfSelf(lib: Libm, q: Quaternion)
    requires SqrtSound(lib)
    requires LengthSquared(q) != 0.0
    ensures Sqrt(lib, LengthsProduct(q, q)) != 0.0
    ensures SlerpCosine(lib, q, q) == 1.0
  {
    SqrtOfSquare(lib, LengthSquared(q));
    assert LengthsProduct(q, q) == LengthSquared(q) * LengthSquared(q);
    CosineOfSelfByRoot(lib, q);
  }

  /** SlerpCosineOfSelf once the square root of |q|^4 is known to be |q|^2. */
  lemma CosineOfSelfByRoot(lib: Libm, q: Quaternion)
    requires Sqrt(lib, LengthsProduct(q, q)) == LengthSquared(q)
    requires LengthSquared(q) != 0.0
    ensures SlerpCosine(lib, q, q) == 1.0
  {
    var c := SlerpCosine(lib, q, q);
    var d := Dot(q, q);
    var s := Sqrt(lib, LengthsProduct(q, q));
    assert c == d / s;
    assert d == s;
    assert d / s == 1.0;
  }

  /** Slerp from a non-zero quaternion to itself returns it, for every t. */
  lemma SlerpOfSelf(lib: Libm, q: Quaternion, t: real)
    requires SqrtSound(lib)
    requires LengthSquared(q) != 0.0
    ensures SlerpDefined(lib, q, q)
    ensures Slerp(lib, q, q, t) == q
  {
    SlerpCosineOfSelf(lib, q);
    assert Abs(SlerpCosine(lib, q, q)) == 1.0;
    assert SlerpDefined(lib, q, q);
  }

  // ---------------------------------------------------------------------------
  // Rotating a vector by a quaternion

  lemma RotateByIdentity(v: V.Vector3)
    ensures RotateVector(v, IDENTITY) == v
  {
    MulIdentity(Pure(v));
    assert MulVector(IDENTITY, v) == Pure(v);
    assert Inverse(IDENTITY) == IDENTITY;
  }

  /** The scalar part of q * v * q.inverse() is zero, so taking its vector part
      loses nothing. */
  lemma RotateIsPure(v: V.Vector3, q: Quaternion)
    ensures Pure(RotateVector(v, q)) == Mul(Mul(q, Pure(v)), Inverse(q))
  {
  }

  /** Rotating by q and then by p is rotating by p * q. */
  lemma RotateComposes(v: V.Vector3, p: Quaternion, q: Quaternion)
    ensures RotateVector(RotateVector(v, q), p) == RotateVector(v, Mul(p, q))
  {
    var a := Mul(Mul(q, Pure(v)), Inverse(q));
    RotateIsPure(v, q);
    RotateIsPure(RotateVector(v, q), p);
    RotateIsPure(v, Mul(p, q));
    calc {
      Mul(Mul(p, a), Inverse(p));
      { MulAssociates(q, Pure(v), Inverse(q)); }
      Mul(Mul(p, Mul(q, Mul(Pure(v), Inverse(q)))), Inverse(p));
      { MulAssociates(p, q, Mul(Pure(v), Inverse(q))); }
      Mul(Mul(Mul(p, q), Mul(Pure(v), Inverse(q))), Inverse(p));
      { MulAssociates(Mul(p, q), Mul(Pure(v), Inverse(q)), Inverse(p)); }
      Mul(Mul(p, q), Mul(Mul(Pure(v), Inverse(q)), Inverse(p)));
      { MulAssociates(Pure(v), Inverse(q), Inverse(p)); }
      Mul(Mul(p, q), Mul(Pure(v), Mul(Inverse(q), Inverse(p))));
      { InverseOfProduct(p, q); }
      Mul(Mul(p, q), Mul(Pure(v), Inverse(Mul(p, q))));
      { MulAssociates(Mul(p, q), Pure(v), Inverse(Mul(p, q))); }
      Mul(Mul(Mul(p, q), Pure(v)), Inverse(Mul(p, q)));
    }
  }

  /** A unit quaternion rotates a vector without changing its length. */
  lemma RotatePreservesLength(v: V.Vector3, q: Quaternion)
    requires IsUnit(q)
    ensures V.LengthSquared(RotateVector(v, q)) == V.LengthSquared(v)
  {
    var r := RotateVector(v, q);
    RotateIsPure(v, q);
    UnitInverse(q);
    MulUnitKeepsLength(Mul(q, Pure(v)), Inverse(q));
    MulUnitKeepsLength(Pure(v), q);
    assert LengthSquared(Pure(r)) == V.LengthSquared(r);
    assert LengthSquared(Pure(v)) == V.LengthSquared(v);
  }

  /** Multiplying by a unit quaternion, on either side, keeps the length. */
  lemma MulUnitKeepsLength(p: Quaternion, u: Quaternion)
    requires IsUnit(u)
    ensures LengthSquared(Mul(p, u)) == LengthSquared(p)
    ensures LengthSquared(Mul(u, p)) == LengthSquared(p)
  {
    LengthSquaredMul(p, u);
    LengthSquaredMul(u, p);
  }
}
