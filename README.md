# Shoggoth engine spatial kernel in Dafny

This project models the spatial kernel of the Shoggoth game engine and proves properties of that model. The kernel has four parts:

- **Linear algebra.** `Vector3` (three components) and `Quaternion` (w, x, y, z) with their componentwise arithmetic, dot and cross products, the Hamilton product, the conjugate used as inverse, the mixed vector–quaternion products, the axis–angle and Euler constructions, `slerp`, and rotation of a vector.
- **Scene-graph node pose (`Entity`).** Each node keeps an absolute and a relative position and orientation, plus the previous absolute orientation. The setters overwrite one form and derive the other from the parent's absolute pose.
- **Component registration.** A component inserts `type -> component` into its entity's component map when it is built, and erases its type when it is destroyed.
- **Renderer.** This covers:
  - the choice of data-upload and mipmap techniques from the OpenGL version and two extensions;
  - the light-index to light-slot mapping;
  - the column-major model matrix;
  - the vertex-array branches of model upload and deletion;
  - the text listing of cameras, meshes and lights.

Scalars are Dafny `real`. Rounding, NaN and infinities are outside the model.

The transcendental functions (`sqrt`, `sin`, `cos`, `acos`, `asin`, `atan2`) and the library `EPSILON` are fields of a parameter record, `Numerics.Libm`. Nothing is assumed about them except what a lemma states in its `requires`:

- `SqrtSound`: the square root of a non-negative number is non-negative and squares back.
- `TrigSound`: `sin² + cos² = 1`.

Files (one module each):

- `numerics.dfy` (`Numerics`): the `Libm` record and facts about square roots.
- `vector3.dfy` (`Vectors`): `Vector3` and its operations and laws.
- `quaternion.dfy` (`Quaternions`): `Quaternion`, the mixed products, and `Vector3::rotate(Quaternion)`. This last one lives here because it needs the Hamilton product.
- `kernel.dfy` (`Kernel`): the classes `Entity` and `Component`. They sit in one module because each refers to the other.
  - The component table is a `map<string, Component>` field, matching the map used by component.cpp.
  - Hooks whose bodies are not part of this model are appended to a `hooks` log field. These are the physics sync, the child cascades, and `translate`/`rotate` by vector or quaternion. The setters are modelled on the assumption that these hooks do not change the node's own pose.
- `renderer.dfy` (`Rendering`):
  - the two technique globals as the fields of class `Techniques`;
  - the `Renderer` class with its camera, mesh and light lists;
  - the matrix written into an `array<real>`.

Three behaviours of the code shape the model:

- The relative position is a plain difference from the parent's absolute position, with no rotation into the parent's frame.
- All pose setters read through the parent link, so the root is not special-cased and the setters require a parent.
- Registering a second component of a type already present leaves the first mapping in place (`std::map::insert` does not overwrite). No error is reported.

## Model

| member | source | states |
|---|---|---|
| Vectors.Splat | include/shoggoth-engine/linearmath/vector3.hpp:133-135 | `Vector3(num)` / `setValue(num)` sets every component to `num` |
| Vectors.Get | include/shoggoth-engine/linearmath/vector3.hpp:246-248 | definition: index 0, 1, 2 reads x, y, z; its property is in `Vectors.ComponentsDetermine` |
| Vectors.ComponentsDetermine | include/shoggoth-engine/linearmath/vector3.hpp:246-248 | two vectors that agree at every index of `get` are equal |
| Vectors.Neg | include/shoggoth-engine/linearmath/vector3.hpp:148-150 | unary minus negates each component |
| Vectors.Add | include/shoggoth-engine/linearmath/vector3.hpp:152-158 | `+` / `+=` add componentwise |
| Vectors.AddScalar | include/shoggoth-engine/linearmath/vector3.hpp:159-165 | adding a scalar adds it to every component |
| Vectors.Sub | include/shoggoth-engine/linearmath/vector3.hpp:166-172 | `-` / `-=` subtract componentwise |
| Vectors.SubScalar | include/shoggoth-engine/linearmath/vector3.hpp:173-175 | subtracting a scalar (written as adding its negation) subtracts it from every component |
| Vectors.Mul | include/shoggoth-engine/linearmath/vector3.hpp:177-183 | vector `*` multiplies componentwise |
| Vectors.Scale | include/shoggoth-engine/linearmath/vector3.hpp:184-190 | scalar `*` scales every component |
| Vectors.Div | include/shoggoth-engine/linearmath/vector3.hpp:191-197 | for nonzero divisors, each result component times the divisor component gives back the dividend component |
| Vectors.DivScalar | include/shoggoth-engine/linearmath/vector3.hpp:198-200 | for a nonzero scalar, each result component times the scalar gives back the original component |
| Vectors.Equal | include/shoggoth-engine/linearmath/vector3.hpp:234-238 | `==` holds exactly when the vectors are equal |
| Vectors.NotEqual | include/shoggoth-engine/linearmath/vector3.hpp:240-242 | `!=` holds exactly when the vectors differ |
| Vectors.LengthSquared | include/shoggoth-engine/linearmath/vector3.hpp:298-300 | the squared length (dot with itself) is never negative |
| Vectors.LengthSquaredZeroIff | include/shoggoth-engine/linearmath/vector3.hpp:298-300 | the squared length is zero if and only if the vector is `VECTOR3_ZERO` |
| Vectors.DistanceSquared | include/shoggoth-engine/linearmath/vector3.hpp:306-308 | the squared distance is never negative |
| Vectors.DistanceSquaredZeroIff | include/shoggoth-engine/linearmath/vector3.hpp:306-308 | the squared distance is zero if and only if the two points coincide |
| Vectors.DistanceSquaredSymmetric | include/shoggoth-engine/linearmath/vector3.hpp:306-308 | the squared distance does not depend on argument order |
| Vectors.DistanceSymmetric | include/shoggoth-engine/linearmath/vector3.hpp:302-304 | `distance` does not depend on argument order |
| Vectors.AngleSymmetric | include/shoggoth-engine/linearmath/vector3.hpp:310-313 | `angle` does not depend on argument order, and is defined both ways when defined one way |
| Vectors.Dot | include/shoggoth-engine/linearmath/vector3.hpp:315-319 | definition; its properties are in `Vectors.DotSymmetric`, `DotAdd`, `DotSub`, `DotScale` and `Cross` |
| Vectors.Length | include/shoggoth-engine/linearmath/vector3.hpp:294-296 | definition; its properties are in `Vectors.NormalizedIsUnit` |
| Vectors.Distance | include/shoggoth-engine/linearmath/vector3.hpp:302-304 | definition; its properties are in `Vectors.DistanceSymmetric` |
| Vectors.Angle | include/shoggoth-engine/linearmath/vector3.hpp:310-313 | definition; its properties are in `Vectors.AngleSymmetric` |
| Vectors.Normalized | include/shoggoth-engine/linearmath/vector3.hpp:329-335 | definition; its properties are in `Vectors.NormalizedIsUnit` |
| Vectors.Rotate | include/shoggoth-engine/linearmath/vector3.hpp:337-342 | definition; its properties are in `Vectors.RotateByZeroAngle`, `RotateKeepsAxialPart`, `RotatePreservesLength` and `DecompositionOrthogonal` |
| Vectors.Cross | include/shoggoth-engine/linearmath/vector3.hpp:321-327 | the cross product is orthogonal to both operands |
| Vectors.CrossAnticommutes | include/shoggoth-engine/linearmath/vector3.hpp:321-327 | swapping the operands negates the cross product; a vector crossed with itself is zero |
| Vectors.CrossLengthSquared | include/shoggoth-engine/linearmath/vector3.hpp:321-327 | Lagrange's identity: the squared length of `a × b` is `‖a‖²‖b‖² − (a·b)²` |
| Vectors.NormalizedIsUnit | include/shoggoth-engine/linearmath/vector3.hpp:329-335 | a vector of nonzero length normalizes to squared length 1 |
| Vectors.Lerp | include/shoggoth-engine/linearmath/vector3.hpp:360-367 | `lerp` at `t = 0` is the receiver and at `t = 1` is the target |
| Vectors.AddCommutes | include/shoggoth-engine/linearmath/vector3.hpp:202-208 | vector addition is commutative |
| Vectors.AddAssociates | include/shoggoth-engine/linearmath/vector3.hpp:202-208 | vector addition is associative |
| Vectors.SubIsAddNeg | include/shoggoth-engine/linearmath/vector3.hpp:210-216 | `a − b = a + (−b)`, and adding then subtracting `b` (either order) returns `a` |
| Vectors.DivScalarUndoesScale | include/shoggoth-engine/linearmath/vector3.hpp:226-232 | dividing by a nonzero scalar undoes scaling by it |
| Vectors.DotSymmetric | include/shoggoth-engine/linearmath/vector3.hpp:315-319 | the dot product is symmetric |
| Vectors.DotAdd | include/shoggoth-engine/linearmath/vector3.hpp:315-319 | the dot product distributes over addition |
| Vectors.DotSub | include/shoggoth-engine/linearmath/vector3.hpp:315-319 | the dot product distributes over subtraction |
| Vectors.DotScale | include/shoggoth-engine/linearmath/vector3.hpp:315-319 | scaling one operand scales the dot product |
| Vectors.LengthSquaredAdd | include/shoggoth-engine/linearmath/vector3.hpp:298-300 | `‖a + b‖² = ‖a‖² + ‖b‖² + 2 a·b` |
| Vectors.LengthSquaredSub | include/shoggoth-engine/linearmath/vector3.hpp:298-300 | `‖a − b‖² = ‖a‖² + ‖b‖² − 2 a·b` |
| Vectors.LengthSquaredScale | include/shoggoth-engine/linearmath/vector3.hpp:298-300 | `‖k a‖² = k² ‖a‖²` |
| Vectors.SumOfSquaresZero | include/shoggoth-engine/linearmath/vector3.hpp:298-300 | a sum of three real squares is zero only when all three are zero |
| Vectors.RotateByZeroAngle | include/shoggoth-engine/linearmath/vector3.hpp:337-342 | `rotate(axis, angle)` with cos = 1 and sin = 0 returns the vector unchanged, for any axis |
| Vectors.RotateKeepsAxialPart | include/shoggoth-engine/linearmath/vector3.hpp:337-342 | rotating about a unit axis keeps the component along the axis |
| Vectors.RotatePreservesLength | include/shoggoth-engine/linearmath/vector3.hpp:337-342 | rotating about a unit axis with cos² + sin² = 1 keeps the squared length |
| Vectors.DecompositionOrthogonal | include/shoggoth-engine/linearmath/vector3.hpp:337-342 | the axial part, the radial part and `axis × v` used by `rotate` are pairwise orthogonal |
| Vectors.DecompositionLengths | include/shoggoth-engine/linearmath/vector3.hpp:337-342 | squared lengths of the axial part, radial part and `axis × v` in terms of `‖v‖²` and `axis·v` |
| Vectors.OrthogonalSumLength | include/shoggoth-engine/linearmath/vector3.hpp:337-342 | squared length of `o + c a + s b` for pairwise orthogonal `o, a, b` |
| Quaternions.Data | include/shoggoth-engine/linearmath/quaternion.hpp:216-230 | the stored data is four scalars, `m_data[0..3]` holding w, x, y, z in that order, as `getW`…`getZ` read them |
| Quaternions.Neg | include/shoggoth-engine/linearmath/quaternion.hpp:141-143 | unary minus negates all four components |
| Quaternions.Add | include/shoggoth-engine/linearmath/quaternion.hpp:145-151 | `+` / `+=` add componentwise |
| Quaternions.Sub | include/shoggoth-engine/linearmath/quaternion.hpp:153-159 | `-` / `-=` subtract componentwise |
| Quaternions.Scale | include/shoggoth-engine/linearmath/quaternion.hpp:171-177 | scalar `*` scales all four components |
| Quaternions.DivScalar | include/shoggoth-engine/linearmath/quaternion.hpp:179-181 | for a nonzero scalar, each result component times the scalar gives back the original component |
| Quaternions.Equal | include/shoggoth-engine/linearmath/quaternion.hpp:203-208 | `==` holds exactly when the quaternions are equal |
| Quaternions.NotEqual | include/shoggoth-engine/linearmath/quaternion.hpp:210-212 | `!=` holds exactly when the quaternions differ |
| Quaternions.LengthSquared | include/shoggoth-engine/linearmath/quaternion.hpp:306-308 | the squared length (dot with itself) is never negative |
| Quaternions.LengthSquaredZeroIff | include/shoggoth-engine/linearmath/quaternion.hpp:306-308 | the squared length is zero if and only if all four components are zero |
| Quaternions.Inverse | include/shoggoth-engine/linearmath/quaternion.hpp:322-324 | `inverse` keeps w and negates x, y, z |
| Quaternions.GetAxis | include/shoggoth-engine/linearmath/quaternion.hpp:232-239 | returns `VECTOR3_UNIT_X` when `1 − w² < 10·EPSILON`; otherwise the axis scaled by `sqrt(1 − w²)` is the vector part |
| Quaternions.Slerp | include/shoggoth-engine/linearmath/quaternion.hpp:348-370 | when the normalized dot product has absolute value 1, the receiver is returned unchanged |
| Quaternions.MulVector | include/shoggoth-engine/linearmath/quaternion.hpp:372-377 | `q * v` equals the Hamilton product of `q` with the pure quaternion `(0, v)` |
| Quaternions.VectorMul | include/shoggoth-engine/linearmath/quaternion.hpp:379-384 | `v * q` equals the Hamilton product of `(0, v)` with `q` |
| Quaternions.MulIdentity | include/shoggoth-engine/linearmath/quaternion.hpp:91 | `QUATERNION_IDENTITY` is a two-sided unit of the Hamilton product |
| Quaternions.MulAssociates | include/shoggoth-engine/linearmath/quaternion.hpp:161-169 | the Hamilton product is associative |
| Quaternions.MulAssociatesScalar | include/shoggoth-engine/linearmath/quaternion.hpp:161-169 | associativity of the Hamilton product, all four components, over scalars |
| Quaternions.MulAssociatesW | include/shoggoth-engine/linearmath/quaternion.hpp:161-169 | associativity of the Hamilton product, w component |
| Quaternions.MulAssociatesX | include/shoggoth-engine/linearmath/quaternion.hpp:161-169 | associativity of the Hamilton product, x component |
| Quaternions.MulAssociatesY | include/shoggoth-engine/linearmath/quaternion.hpp:161-169 | associativity of the Hamilton product, y component |
| Quaternions.MulAssociatesZ | include/shoggoth-engine/linearmath/quaternion.hpp:161-169 | associativity of the Hamilton product, z component |
| Quaternions.MulCommutesIff | include/shoggoth-engine/linearmath/quaternion.hpp:161-169 | `p * q == q * p` if and only if the vector parts have zero cross product |
| Quaternions.InverseInvolution | include/shoggoth-engine/linearmath/quaternion.hpp:322-324 | inverting twice gives back the quaternion |
| Quaternions.InverseOfProduct | include/shoggoth-engine/linearmath/quaternion.hpp:322-324 | `(p q)⁻¹ = q⁻¹ p⁻¹` |
| Quaternions.MulInverse | include/shoggoth-engine/linearmath/quaternion.hpp:322-324 | `q q⁻¹ = q⁻¹ q = (‖q‖², 0, 0, 0)`, and `q q⁻¹` is the identity exactly when `q` is a unit |
| Quaternions.DotSymmetric | include/shoggoth-engine/linearmath/quaternion.hpp:315-320 | the dot product is symmetric |
| Quaternions.LengthSquaredMul | include/shoggoth-engine/linearmath/quaternion.hpp:161-169 | the squared length of a product is the product of the squared lengths |
| Quaternions.LengthSquaredMulScalar | include/shoggoth-engine/linearmath/quaternion.hpp:161-169 | the four-square identity behind the multiplicativity of the squared length |
| Quaternions.UnitMul | include/shoggoth-engine/linearmath/quaternion.hpp:161-169 | the product of two unit quaternions is a unit |
| Quaternions.UnitInverse | include/shoggoth-engine/linearmath/quaternion.hpp:322-324 | the inverse of a unit quaternion is a unit |
| Quaternions.MulUnitKeepsLength | include/shoggoth-engine/linearmath/quaternion.hpp:161-169 | multiplying by a unit quaternion on either side keeps the squared length |
| Quaternions.NormalizedIsUnit | include/shoggoth-engine/linearmath/quaternion.hpp:326-332 | a quaternion of nonzero length normalizes to a unit |
| Quaternions.NormalizedOfUnit | include/shoggoth-engine/linearmath/quaternion.hpp:326-332 | a unit quaternion has length 1 and normalizing leaves it unchanged |
| Quaternions.LengthNonZero | include/shoggoth-engine/linearmath/quaternion.hpp:302-304 | a nonzero squared length gives a nonzero length |
| Quaternions.LengthSquaredScale | include/shoggoth-engine/linearmath/quaternion.hpp:306-308 | `‖k q‖² = k² ‖q‖²` |
| Quaternions.GetAxisIsUnit | include/shoggoth-engine/linearmath/quaternion.hpp:232-239 | outside the small-angle guard, `getAxis` of a unit quaternion is a unit vector |
| Quaternions.VectorPartOverRoot | include/shoggoth-engine/linearmath/quaternion.hpp:232-239 | for a unit quaternion, the vector part divided by `sqrt(1 − w²)` has squared length 1 |
| Quaternions.AxisAngleIsUnit | include/shoggoth-engine/linearmath/quaternion.hpp:272-276 | the axis–angle construction with a nonzero axis yields a unit quaternion |
| Quaternions.AxisAngleOfUnit | include/shoggoth-engine/linearmath/quaternion.hpp:272-276 | with a unit axis, the axis–angle quaternion is `(cos(a/2), axis · sin(a/2))` |
| Quaternions.AxisAngleAboutX | include/shoggoth-engine/linearmath/quaternion.hpp:272-276 | rotation by `a` about `VECTOR3_UNIT_X` is `(cos(a/2), sin(a/2), 0, 0)` |
| Quaternions.AxisAngleAboutY | include/shoggoth-engine/linearmath/quaternion.hpp:272-276 | rotation by `a` about `VECTOR3_UNIT_Y` is `(cos(a/2), 0, sin(a/2), 0)` |
| Quaternions.AxisAngleAboutZ | include/shoggoth-engine/linearmath/quaternion.hpp:272-276 | rotation by `a` about `VECTOR3_UNIT_Z` is `(cos(a/2), 0, 0, sin(a/2))` |
| Quaternions.EulerComposes | include/shoggoth-engine/linearmath/quaternion.hpp:278-294 | `setEuler(yaw, pitch, roll)` is the product yaw-about-Y × pitch-about-X × roll-about-Z |
| Quaternions.HalfAnglesCompose | include/shoggoth-engine/linearmath/quaternion.hpp:278-294 | the Euler half-angle formula equals the product of the three single-axis quaternions |
| Quaternions.YawTimesPitch | include/shoggoth-engine/linearmath/quaternion.hpp:278-294 | first step of that product: yaw times pitch |
| Quaternions.YawPitchTimesRoll | include/shoggoth-engine/linearmath/quaternion.hpp:278-294 | second step of that product: (yaw · pitch) times roll |
| Quaternions.EulerAnglesOfNegation | include/shoggoth-engine/linearmath/quaternion.hpp:334-346 | `getYaw`, `getPitch` and `getRoll` give the same angles for `q` and `−q` |
| Quaternions.Mul | include/shoggoth-engine/linearmath/quaternion.hpp:161-169 | definition (the Hamilton product); its properties are in `Quaternions.MulIdentity`, `MulAssociates`, `MulInverse`, `MulCommutesIff` and `LengthSquaredMul` |
| Quaternions.Dot | include/shoggoth-engine/linearmath/quaternion.hpp:315-320 | definition; its properties are in `Quaternions.DotSymmetric` and `LengthSquared` |
| Quaternions.Length | include/shoggoth-engine/linearmath/quaternion.hpp:302-304 | definition; its properties are in `Quaternions.LengthNonZero` and `NormalizedOfUnit` |
| Quaternions.Normalized | include/shoggoth-engine/linearmath/quaternion.hpp:326-332 | definition; its properties are in `Quaternions.NormalizedIsUnit` and `NormalizedOfUnit` |
| Quaternions.Angle | include/shoggoth-engine/linearmath/quaternion.hpp:310-313 | definition; its properties are in `Quaternions.AngleSymmetric` |
| Quaternions.GetAngle | include/shoggoth-engine/linearmath/quaternion.hpp:241-243 | definition; its properties are in `Quaternions.GetAngleOfAxisAngle` |
| Quaternions.AxisAngle | include/shoggoth-engine/linearmath/quaternion.hpp:272-276 | definition; its properties are in `Quaternions.AxisAngleIsUnit`, `AxisAngleOfUnit`, `AxisAngleAboutX/Y/Z` and `GetAxisOfAxisAngle` |
| Quaternions.FromEuler | include/shoggoth-engine/linearmath/quaternion.hpp:278-294 | definition; its properties are in `Quaternions.EulerComposes` and `Kernel.FromEulerIsUnit` |
| Quaternions.GetYaw | include/shoggoth-engine/linearmath/quaternion.hpp:334-336 | definition; its properties are in `Quaternions.EulerAnglesOfNegation` |
| Quaternions.GetPitch | include/shoggoth-engine/linearmath/quaternion.hpp:338-341 | definition; its properties are in `Quaternions.EulerAnglesOfNegation` |
| Quaternions.GetRoll | include/shoggoth-engine/linearmath/quaternion.hpp:343-346 | definition; its properties are in `Quaternions.EulerAnglesOfNegation` |
| Quaternions.RotateVector | include/shoggoth-engine/linearmath/vector3.hpp:344-349 | definition; its properties are in `Quaternions.RotateByIdentity`, `RotateIsPure`, `RotateComposes` and `RotatePreservesLength` |
| Quaternions.GetAngleOfAxisAngle | include/shoggoth-engine/linearmath/quaternion.hpp:241-243 | `getAngle` of the axis–angle quaternion about any nonzero axis is `2·acos(cos(a/2))` |
| Quaternions.GetAxisOfAxisAngle | include/shoggoth-engine/linearmath/quaternion.hpp:232-239 | past the guard, `getAxis` gives back the unit axis an axis–angle quaternion was built from, when `sin(a/2) > 0` |
| Quaternions.AngleSymmetric | include/shoggoth-engine/linearmath/quaternion.hpp:310-313 | the angle between two quaternions does not depend on argument order |
| Quaternions.SlerpCosineOfSelf | include/shoggoth-engine/linearmath/quaternion.hpp:348-350 | the normalized dot product of a nonzero quaternion with itself is 1 |
| Quaternions.CosineOfSelfByRoot | include/shoggoth-engine/linearmath/quaternion.hpp:348-350 | the same, given the square root of `‖q‖⁴` as `‖q‖²` |
| Quaternions.SlerpOfSelf | include/shoggoth-engine/linearmath/quaternion.hpp:348-370 | slerping a nonzero quaternion with itself returns it, for every `t` |
| Quaternions.RotateByIdentity | include/shoggoth-engine/linearmath/vector3.hpp:344-349 | `rotate(QUATERNION_IDENTITY)` returns the vector unchanged |
| Quaternions.RotateIsPure | include/shoggoth-engine/linearmath/vector3.hpp:344-349 | `q v q⁻¹` is a pure quaternion whose vector part is `rotate(q)` |
| Quaternions.RotateComposes | include/shoggoth-engine/linearmath/vector3.hpp:344-349 | rotating by `q` then by `p` is rotating by `p q` |
| Quaternions.RotatePreservesLength | include/shoggoth-engine/linearmath/vector3.hpp:344-349 | rotating by a unit quaternion keeps the squared length |
| Kernel.MapInsert | src/shoggoth-engine/kernel/component.cpp:40 | `insert` adds the key, keeps every existing entry (the key's included), and maps a new key to the value |
| Kernel.MapErase | src/shoggoth-engine/kernel/component.cpp:44 | `erase` removes exactly the key and keeps every other entry |
| Kernel.EraseUndoesInsert | src/shoggoth-engine/kernel/component.cpp:35-45 | destroying a component whose type was new restores the entity's map |
| Kernel.InsertKeepsFirst | src/shoggoth-engine/kernel/component.cpp:40 | a second insert under the same type changes nothing |
| Kernel.InsertAfterErase | src/shoggoth-engine/kernel/component.cpp:40-44 | after an erase, an insert under the same type does take effect |
| Kernel.ProductNormalizable | include/engine/kernel/entity.hpp:223-249 | with a nonzero parent orientation and a unit child orientation, both products the setters normalize have nonzero length |
| Kernel.RelativeThenAbsolute | include/engine/kernel/entity.hpp:223-229 | for unit orientations, the relative orientation derived by `setOrientationAbs` composes with the parent's back to the absolute one |
| Kernel.AbsoluteThenRelative | include/engine/kernel/entity.hpp:243-249 | for unit orientations, the absolute orientation derived by `setOrientationRel` composes with the parent's inverse back to the relative one |
| Kernel.FromEulerIsUnit | include/engine/kernel/entity.hpp:239-241 | the Euler quaternion the Euler setters pass on is a unit |
| Kernel.AxisAngleSetterAsWritten | include/engine/kernel/entity.hpp:235-237 | definition of the self-call as written, unrolled to a given depth; its property is in `Kernel.AxisAngleSetterNeverStores` |
| Kernel.AxisAngleSetterNeverStores | include/engine/kernel/entity.hpp:235-237 | the axis–angle overload as written never reaches a stored orientation at any recursion depth |
| Kernel.Entity.SetParent | include/engine/kernel/entity.hpp:197-199 | only the parent changes |
| Kernel.Entity.SetPositionAbs | include/engine/kernel/entity.hpp:201-206 | abs = p, rel = p − parent.abs, so abs = rel + parent.abs; orientations and components unchanged; physics and translation hooks run |
| Kernel.Entity.SetPositionAbsComponents | include/engine/kernel/entity.hpp:208-210 | same as `SetPositionAbs` on `Vector3(x, y, z)` |
| Kernel.Entity.SetPositionRel | include/engine/kernel/entity.hpp:212-217 | rel = p, abs = p + parent.abs, and rel = abs − parent.abs whenever the parent is another node; orientations unchanged; hooks run |
| Kernel.Entity.SetPositionRelComponents | include/engine/kernel/entity.hpp:219-221 | same as `SetPositionRel` on `Vector3(x, y, z)` |
| Kernel.Entity.SetOrientationAbs | include/engine/kernel/entity.hpp:223-229 | last = previous abs; abs = normalized(q), a unit; rel = normalized(parent.abs⁻¹ · abs); a unit parent times rel gives abs back; positions unchanged; orientation hooks run |
| Kernel.Entity.SetOrientationAbsComponents | include/engine/kernel/entity.hpp:231-233 | same as `SetOrientationAbs` on `Quaternion(w, x, y, z)` |
| Kernel.Entity.SetOrientationAbsAxisAngle | include/engine/kernel/entity.hpp:235-237 | corrected overload: abs = the axis–angle quaternion, rel derived from the parent as in `SetOrientationAbs` |
| Kernel.Entity.SetOrientationAbsEuler | include/engine/kernel/entity.hpp:239-241 | abs = the Euler quaternion (already a unit), rel derived from the parent |
| Kernel.Entity.SetOrientationRel | include/engine/kernel/entity.hpp:243-249 | last = previous abs; rel = normalized(q), a unit; abs = normalized(parent.abs · rel); a unit parent's inverse times abs gives rel back; positions unchanged; hooks run |
| Kernel.Entity.SetOrientationRelComponents | include/engine/kernel/entity.hpp:251-253 | same as `SetOrientationRel` on `Quaternion(w, x, y, z)` |
| Kernel.Entity.SetOrientationRelAxisAngle | include/engine/kernel/entity.hpp:255-257 | corrected overload: rel = the axis–angle quaternion, abs derived from the parent as in `SetOrientationRel` |
| Kernel.Entity.SetOrientationRelEuler | include/engine/kernel/entity.hpp:259-261 | rel = the Euler quaternion, abs = normalized(parent.abs · rel) |
| Kernel.Entity.Translate | include/engine/kernel/entity.hpp:84 | records one translation by the displacement in the given space (default local); the pose is left unconstrained |
| Kernel.Entity.TranslateComponents | include/engine/kernel/entity.hpp:265-267 | forwards `Vector3(x, y, z)` with the same space |
| Kernel.Entity.TranslateX | include/engine/kernel/entity.hpp:269-271 | forwards a displacement of `distX` along `VECTOR3_UNIT_X` and zero elsewhere, same space |
| Kernel.Entity.TranslateY | include/engine/kernel/entity.hpp:273-275 | forwards a displacement of `distY` along `VECTOR3_UNIT_Y` and zero elsewhere, same space |
| Kernel.Entity.TranslateZ | include/engine/kernel/entity.hpp:277-279 | forwards a displacement of `distZ` along `VECTOR3_UNIT_Z` and zero elsewhere, same space |
| Kernel.Entity.Rotate | include/engine/kernel/entity.hpp:90 | records one rotation by the quaternion in the given space (default local); the pose is left unconstrained |
| Kernel.Entity.RotateComponents | include/engine/kernel/entity.hpp:281-283 | forwards `Quaternion(w, x, y, z)` with the same space |
| Kernel.Entity.RotateAxisAngle | include/engine/kernel/entity.hpp:285-287 | forwards the axis–angle quaternion with the same space |
| Kernel.Entity.Yaw | include/engine/kernel/entity.hpp:289-291 | forwards the rotation by `radians` about `VECTOR3_UNIT_Y`, same space |
| Kernel.Entity.Pitch | include/engine/kernel/entity.hpp:293-295 | forwards the rotation by `radians` about `VECTOR3_UNIT_X`, same space |
| Kernel.Entity.Roll | include/engine/kernel/entity.hpp:297-299 | forwards the rotation by `radians` about `VECTOR3_UNIT_Z`, same space |
| Kernel.Component.constructor | src/shoggoth-engine/kernel/component.cpp:35-41 | stores entity and type, empty description, and registers in the entity's map with no-overwrite insert; the entity's pose is untouched |
| Kernel.Component.Destroy | src/shoggoth-engine/kernel/component.cpp:43-45 | erases the type key from the entity's map, whichever component it maps to, and keeps every other entry |
| Kernel.Component.Copy | src/shoggoth-engine/kernel/component.cpp:47-53 | the copy has the same entity, type and description |
| Kernel.Component.Assign | src/shoggoth-engine/kernel/component.cpp:55-58 | assignment changes nothing and returns the receiver |
| Rendering.DataUploadFor | src/engine/renderer/renderer.cpp:407-446 | definition (the data-upload column of the version table); its properties are in `Rendering.VertexArrayIsLastResort`, `ExtensionOnlyAsFallback`, `Version14`, `UnknownVersionAsLegacy` and `Techniques.Select` |
| Rendering.MipmapFor | src/engine/renderer/renderer.cpp:408-448 | definition (the mipmap column of the version table); its properties are in `Rendering.GluIsLastResort`, `BufferObjectsImplyMipmapParameter`, `Version14` and `Techniques.Select` |
| Rendering.VertexArrayIsLastResort | src/engine/renderer/renderer.cpp:407-446 | vertex arrays are used exactly when the version is below 1.5 or unknown and the ARB buffer-object extension is absent |
| Rendering.ExtensionOnlyAsFallback | src/engine/renderer/renderer.cpp:412-446 | the ARB buffer-object path is chosen exactly when the core path is not and the extension is present |
| Rendering.GluIsLastResort | src/engine/renderer/renderer.cpp:408-448 | GLU mipmaps are used exactly when the version is below 1.4 or unknown and the SGIS extension is absent |
| Rendering.BufferObjectsImplyMipmapParameter | src/engine/renderer/renderer.cpp:423-427 | the fall-through: every version that selects core buffer objects also selects core mipmap generation |
| Rendering.Version14 | src/engine/renderer/renderer.cpp:425-427 | version 1.4 selects core mipmap generation but not core buffer objects |
| Rendering.UnknownVersionAsLegacy | src/engine/renderer/renderer.cpp:407-408 | an unlisted version keeps the defaults and ends up with the same choice as version 1.1 |
| Rendering.Techniques.constructor | src/engine/renderer/renderer.cpp:50-51 | the globals start as vertex arrays and GLU mipmaps |
| Rendering.Techniques.Select | src/engine/renderer/renderer.cpp:406-448 | the reset, the fall-through switch and the extension upgrades leave exactly the table's choice for the version and the extensions |
| Rendering.LightSlot | src/engine/renderer/renderer.cpp:66-91 | light `i` uses slot `i` for `i ≤ 7` and slot 7 beyond |
| Rendering.FirstEightSlotsDistinct | src/engine/renderer/renderer.cpp:66-91 | the first eight lights get eight different slots |
| Rendering.SlotOccupant | src/engine/renderer/renderer.cpp:62-97 | the light left configuring a slot is one of the lights and is mapped to that slot |
| Rendering.SlotOccupants | src/engine/renderer/renderer.cpp:62-97 | slot `n < 7` is used exactly when there are more than `n` lights, and holds light `n`; slot 7 is used when there are at least eight, and holds the last one |
| Rendering.LightPosition | src/engine/renderer/renderer.cpp:589-590 | the position array is the entity's absolute position followed by `w = 1` |
| Rendering.OpenGLMatrix | src/engine/renderer/renderer.cpp:596-613 | the matrix has sixteen entries |
| Rendering.OpenGLMatrixLayout | src/engine/renderer/renderer.cpp:596-613 | column-major: `m[4c + r]` is row `r`, column `c` of the rotation; `m[12..14]` the position; `m[3] = m[7] = m[11] = 0`; `m[15] = 1` |
| Rendering.OpenGLMatrixTransformsPoints | src/engine/renderer/renderer.cpp:596-613 | applied to `(p, 1)`, the matrix gives rotation row · `p` plus the position, with `w = 1` |
| Rendering.Renderer.SetOpenGLMatrix | src/engine/renderer/renderer.cpp:596-613 | the first sixteen array cells become that matrix and the rest of the array is untouched |
| Rendering.Renderer.InitLighting | src/engine/renderer/renderer.cpp:59-98 | one setup per light, in order, each with the light's slot and colours |
| Rendering.Renderer.DisplayLegacyLights | src/engine/renderer/renderer.cpp:559-594 | one position per light, in order, each with the light's slot and its entity's absolute position |
| Rendering.Renderer.UploadModel | src/engine/renderer/renderer.cpp:100-178 | in vertex-array mode both ids are left unchanged; otherwise they are the generated buffer ids |
| Rendering.Renderer.DeleteModel | src/engine/renderer/renderer.cpp:180-195 | nothing is deleted exactly in vertex-array mode; otherwise the mesh and index buffers are |
| Rendering.Renderer.constructor | src/engine/renderer/renderer.cpp:358-448 | empty lists, no active camera, and the techniques chosen from the version and the extensions |
| Rendering.LightDescriptions | src/engine/renderer/renderer.cpp:351-353 | one description per light, in order |
| Rendering.CameraLine | src/engine/renderer/renderer.cpp:339-342 | definition; its properties are in `Rendering.CameraLineMarked` |
| Rendering.Marked | src/engine/renderer/renderer.cpp:341-342 | definition; its properties are in `Rendering.CameraLineMarked` and `ActiveMarkedOnce` |
| Rendering.CameraLines | src/engine/renderer/renderer.cpp:338-343 | definition; its properties are in `Rendering.CameraLinesAppend`, `CameraLinesSnoc` and `Renderer.ListCameras` |
| Rendering.DescriptionLines | src/engine/renderer/renderer.cpp:346-353 | definition; its properties are in `Rendering.DescriptionLinesSnoc` and `ListDescriptions` |
| Rendering.ListsText | src/engine/renderer/renderer.cpp:334-356 | definition; its properties are in `Rendering.Renderer.ListsToString` |
| Rendering.CameraLineMarked | src/engine/renderer/renderer.cpp:338-343 | each camera line starts with two spaces and the description, and ends in ` *` exactly for the active camera |
| Rendering.CameraLinesAppend | src/engine/renderer/renderer.cpp:338-343 | the camera listing of a concatenation is the concatenation of the listings |
| Rendering.ActiveMarkedOnce | src/engine/renderer/renderer.cpp:338-343 | among distinct cameras, exactly one line of the listing carries the ` *` mark when the active camera is listed, and none otherwise |
| Rendering.Renderer.ListCameras | src/engine/renderer/renderer.cpp:337-343 | the loop builds exactly the camera listing |
| Rendering.ListDescriptions | src/engine/renderer/renderer.cpp:346-353 | the loop builds one indented line per description, in order |
| Rendering.Renderer.ListsToString | src/engine/renderer/renderer.cpp:334-356 | the text is the camera header and listing, then the mesh header and listing, then the light header and listing |

## Left out

- `Entity::translate(Vector3, space)`, `rotate(Quaternion, space)`, `lookAt`, `addChild`, `removeChild`, `removeAllChildren`, `treeToString`, `applyTranslationToChildren`, `applyOrientationToChildren` and `applyTransformToPhysicsComponent`: their bodies are in entity.cpp, which is not part of this model. The model only records them, in order, in the `hooks` log. The setters' contracts take the recorded hooks to leave this node's own position, orientation and last orientation as the setter left them. For example, `SetPositionAbs` promises `positionAbs == position` after `applyTransformToPhysicsComponent` and `applyTranslationToChildren`.
- Kernel.Entity.Translate, Kernel.Entity.Rotate and the wrappers that forward to them: these promise the recorded call only, not any change of pose, because the body that moves the node is not part of this model.
- Kernel.Entity.Yaw, Kernel.Entity.Pitch, Kernel.Entity.Roll: they state the forwarded rotation as the axis–angle quaternion about the unit axis. The closed form `(cos(a/2), …)` is a separate lemma (`AxisAngleAboutX/Y/Z`) and is not repeated in the method contracts.
- Kernel.Entity.SetPositionRel: `rel = abs − parent.abs` is promised only when the parent is another node. A node that is its own parent also changes the parent's position.
- Entity getters (`getParent`, `getPositionAbs/Rel`, `getOrientationAbs/Rel`, the child iterators): plain field reads. Dafny reads the fields directly.
- `Entity::getComponent` and the `std::vector<Component*>` storage in entity.hpp: component.cpp, which this model follows, treats the storage as a map keyed by type name.
- The entity's device link and child set: only the cascades in entity.cpp use them.
- The Euler-angle getters are modelled as functions (`GetYaw`, `GetPitch`, `GetRoll`). Only their invariance under negation is proved: their values are `asin`/`atan2` of the components, and nothing more is known about those functions here.
- `Vector3::angle` and `Quaternion::angle`/`getAngle`: modelled as functions of `acos`. Proved: both angles are symmetric (`Vectors.AngleSymmetric`, `Quaternions.AngleSymmetric`), and `getAngle` of an axis–angle quaternion is `2·acos(cos(a/2))` (`Quaternions.GetAngleOfAxisAngle`). Not proved: the round trip `getAngle(Quaternion(axis, a)) == a`, because nothing is known here about `acos` beyond its being a function.
- Floating-point rounding, NaN and infinities: scalars are real numbers. The `float` casts in the renderer are identities here. `floor(openGLVersion * 10 + 0.5)` is replaced by taking the integer version as input.
- `sqrt`, `sin`, `cos`, `acos`, `asin`, `atan2` and `EPSILON`: foreign library calls, taken as the `Libm` parameter record.
- Division by zero in `normalize`, `getAxis`, `angle`, `slerp`, `setAxisAngle` and the `/` and `/=` operators (`Vectors.Div`, `Vectors.DivScalar`, `Quaternions.DivScalar`): every such member requires a nonzero divisor. The source would produce an infinity or NaN.
- Vectors.Get: an index outside 0..2 reads past `m_data` in the source, which is undefined behaviour. The model requires `0 <= i < 3`.
- Bullet conversions (`btVector3`, `btQuaternion`): foreign library types.
- The engine's `Matrix3x3(rot)` (engine/kernel/matrix3x3.hpp, not part of this model): the rotation matrix that `setOpenGLMatrix` builds from the quaternion is a parameter.
- The stream operators `<<` and `>>` on vectors and quaternions: console I/O.
- Renderer OpenGL, GLU and GLEW calls, and `cout`/`cerr` output: GPU and console I/O. This covers `draw`, `uploadTexture`, `deleteTexture`, `initCamera`, `initialize`, `deinitialize`, `setAmbientLight`, and the renderer's copy constructor and assignment. The buffer-object branches of `uploadModel` and `deleteModel` are reduced to the ids they create or delete. Extension support is a boolean input.
- The `cerr` messages printed by the copy constructor and the assignment operator of `Component`: console output. The model keeps only what these two members do to the component's fields.
- Iteration order of `std::set` for cameras, meshes and lights: modelled as the order of a sequence.
- Scene persistence, device and input handling, the demo program, and mesh and model loading: application wiring, I/O and asset loading outside the spatial kernel.

## Findings

| source | as written | input that shows it | evidently intended | confidence | as-written member | corrected member |
|---|---|---|---|---|---|---|
| include/engine/kernel/entity.hpp:235-237 | `setOrientationAbs(axis, angle)` calls itself with the same arguments, so it never returns and never stores an orientation | any axis and angle, e.g. `UNIT_X`, `0` | forward `Quaternion(axis, angle)` to `setOrientationAbs(Quaternion)` | not executed | Kernel.AxisAngleSetterNeverStores | Kernel.Entity.SetOrientationAbsAxisAngle |
| include/engine/kernel/entity.hpp:255-257 | `setOrientationRel(axis, angle)` calls itself with the same arguments, so it never returns and never stores an orientation | any axis and angle, e.g. `UNIT_X`, `0` | forward `Quaternion(axis, angle)` to `setOrientationRel(Quaternion)` | not executed | Kernel.AxisAngleSetterNeverStores | Kernel.Entity.SetOrientationRelAxisAngle |
