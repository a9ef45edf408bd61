/** The scene-graph kernel: the pose of an Entity (include/engine/kernel/entity.hpp)
    and the registration of a Component in its entity's component table
    (src/shoggoth-engine/kernel/component.cpp).

    The bodies of translate(Vector3, space), rotate(Quaternion, space) and the
    three apply... hooks live in entity.cpp, which is not part of this model.  A
    call to one of them is recorded, with its arguments, in the entity's hooks
    log; nothing is assumed about what it does. */
module Kernel {
  import opened Numerics
  import V = Vectors
  import Q = Quaternions

  datatype Option<T> = None | Some(value: T)

  /** transform_space_t: the frame a translate or rotate is expressed in. */
  datatype TransformSpace = SpaceLocal | SpaceParent | SpaceGlobal

  /** A call into entity.cpp, with the arguments it was given. */
  datatype Hook =
    | ApplyTransformToPhysicsComponent
    | ApplyTranslationToChildren
    | ApplyOrientationToChildren
    | TranslateCall(displacement: V.Vector3, relativeTo: TransformSpace)
    | RotateCall(deltaRotation: Q.Quaternion, relativeTo: TransformSpace)

  // ---------------------------------------------------------------------------
  // The component table, with std::map insert and erase

  /** std::map::insert: adds k -> v when k is absent; an existing entry for k,
      and every other entry, is kept as it was. */
  function MapInsert<Key, Value>(m: map<Key, Value>, k: Key, v: Value): (r: map<Key, Value>)
    ensures r.Keys == m.Keys + {k}
    ensures forall j | j in m :: r[j] == m[j]
    ensures k !in m ==> r[k] == v
  {
    if k in m then m else m[k := v]
  }

  /** std::map::erase(key): removes the entry for k, if any, and keeps the rest. */
  function MapErase<Key, Value>(m: map<Key, Value>, k: Key): (r: map<Key, Value>)
    ensures r.Keys == m.Keys - {k}
    ensures forall j | j in r :: r[j] == m[j]
  {
    m - {k}
  }

  /** Registering a component of a new type and then destroying it leaves the
      table as it was. */
  lemma EraseUndoesInsert<Key, Value>(m: map<Key, Value>, k: Key, v: Value)
    requires k !in m
    ensures MapErase(MapInsert(m, k, v), k) == m
  {
    var r := MapErase(MapInsert(m, k, v), k);
    assert r.Keys == m.Keys;
    assert forall j | j in r :: r[j] == m[j];
  }

  /** A second registration under a type already present changes nothing. */
  lemma InsertKeepsFirst<Key, Value>(m: map<Key, Value>, k: Key, v: Value, w: Value)
    ensures MapInsert(MapInsert(m, k, v), k, w) == MapInsert(m, k, v)
  {
  }

  /** Destroying a component removes its type whichever instance was mapped,
      so a later registration of that type succeeds. */
  lemma InsertAfterErase<Key, Value>(m: map<Key, Value>, k: Key, v: Value)
    ensures MapInsert(MapErase(m, k), k, v)[k] == v
  {
  }

  // ---------------------------------------------------------------------------
  // Orientation bookkeeping

  /** A non-zero parent orientation and a unit orientation give a product that
      normalized() can divide by, on either side of the conjugate. */
  lemma ProductNormalizable(lib: Libm, p: Q.Quaternion, u: Q.Quaternion)
    requires SqrtSound(lib)
    requires Q.LengthSquared(p) != 0.0
    requires Q.IsUnit(u)
    ensures Q.Length(lib, Q.Mul(Q.Inverse(p), u)) != 0.0
    ensures Q.Length(lib, Q.Mul(p, u)) != 0.0
  {
    Q.LengthSquaredMul(Q.Inverse(p), u);
    Q.LengthSquaredMul(p, u);
    assert Q.LengthSquared(Q.Inverse(p)) == Q.LengthSquared(p);
    Q.LengthNonZero(lib, Q.Mul(Q.Inverse(p), u));
    Q.LengthNonZero(lib, Q.Mul(p, u));
  }

  /** For a unit parent orientation p, the relative orientation setOrientationAbs
      derives from a unit absolute a is p^-1 a, already of unit length, and
      composing it with p (as setOrientationRel does) gives back a. */
  lemma RelativeThenAbsolute(lib: Libm, p: Q.Quaternion, a: Q.Quaternion)
    requires SqrtSound(lib)
    requires Q.IsUnit(p) && Q.IsUnit(a)
    ensures Q.IsUnit(Q.Mul(Q.Inverse(p), a))
    ensures Q.Normalized(lib, Q.Mul(Q.Inverse(p), a)) == Q.Mul(Q.Inverse(p), a)
    ensures Q.Mul(p, Q.Mul(Q.Inverse(p), a)) == a
  {
    var i := Q.Inverse(p);
    Q.UnitInverse(p);
    Q.UnitMul(i, a);
    Q.NormalizedOfUnit(lib, Q.Mul(i, a));
    Q.MulAssociates(p, i, a);
    Q.MulInverse(p);
    Q.MulIdentity(a);
  }

  /** For a unit parent orientation p, the absolute orientation setOrientationRel
      derives from a unit relative r is p r, already of unit length, and
      undoing p (as setOrientationAbs does) gives back r. */
  lemma AbsoluteThenRelative(lib: Libm, p: Q.Quaternion, r: Q.Quaternion)
    requires SqrtSound(lib)
    requires Q.IsUnit(p) && Q.IsUnit(r)
    ensures Q.IsUnit(Q.Mul(p, r))
    ensures Q.Normalized(lib, Q.Mul(p, r)) == Q.Mul(p, r)
    ensures Q.Mul(Q.Inverse(p), Q.Mul(p, r)) == r
  {
    var i := Q.Inverse(p);
    Q.UnitMul(p, r);
    Q.NormalizedOfUnit(lib, Q.Mul(p, r));
    Q.MulAssociates(i, p, r);
    Q.MulInverse(p);
    Q.MulIdentity(r);
  }

  /** Quaternion(yaw, pitch, roll) is a unit quaternion: the product of three
      unit rotations about the coordinate axes. */
  lemma FromEulerIsUnit(lib: Libm, yaw: real, pitch: real, roll: real)
    requires SqrtSound(lib) && TrigSound(lib)
    ensures Q.IsUnit(Q.FromEuler(lib, yaw, pitch, roll))
  {
    Q.EulerComposes(lib, yaw, pitch, roll);
    Q.AxisAngleOfUnit(lib, V.UNIT_Y, yaw);
    Q.AxisAngleOfUnit(lib, V.UNIT_X, pitch);
    Q.AxisAngleOfUnit(lib, V.UNIT_Z, roll);
    var y := Q.AxisAngle(lib, V.UNIT_Y, yaw);
    var p := Q.AxisAngle(lib, V.UNIT_X, pitch);
    var r := Q.AxisAngle(lib, V.UNIT_Z, roll);
    Q.AxisAngleIsUnit(lib, V.UNIT_Y, yaw);
    Q.AxisAngleIsUnit(lib, V.UNIT_X, pitch);
    Q.AxisAngleIsUnit(lib, V.UNIT_Z, roll);
    Q.UnitMul(y, p);
    Q.UnitMul(Q.Mul(y, p), r);
  }

  // ---------------------------------------------------------------------------
  // The axis-angle orientation setters as written

  /** setOrientationAbs(axis, angle) and setOrientationRel(axis, angle) as
      written: the body is a call to the same overload with the same arguments.
      The result after fuel nested calls is the orientation stored, None while
      the chain of calls has not reached an assignment. */
  function AxisAngleSetterAsWritten(axis: V.Vector3, angle: real, fuel: nat): Option<Q.Quaternion>
    decreases fuel
  {
    if fuel == 0 then None else AxisAngleSetterAsWritten(axis, angle, fuel - 1)
  }

  /** However deep the calls go, no orientation is ever stored: the overload
      never returns. */
  lemma {:induction false} AxisAngleSetterNeverStores(axis: V.Vector3, angle: real, fuel: nat)
    ensures AxisAngleSetterAsWritten(axis, angle, fuel).None?
  {
    if fuel > 0 {
      AxisAngleSetterNeverStores(axis, angle, fuel - 1);
    }
  }

  // ---------------------------------------------------------------------------
  // Entity

  /** A node of the scene graph.  Its pose is kept twice, absolute and relative
      to the parent; each setter writes one form and derives the other from the
      parent's absolute pose. */
  class Entity {
    var parent: Entity?
    var positionAbs: V.Vector3
    var positionRel: V.Vector3
    var orientationAbs: Q.Quaternion
    var orientationRel: Q.Quaternion
    var lastOrientation: Q.Quaternion
    /** The component table, keyed by component type. */
    var components: map<string, Component>
    /** The calls made into entity.cpp, oldest first. */
    var hooks: seq<Hook>

    /** setParent: only the parent link changes. */
    method SetParent(parent: Entity?)
      modifies this
      ensures this.parent == parent
      ensures positionAbs == old(positionAbs) && positionRel == old(positionRel)
      ensures orientationAbs == old(orientationAbs) && orientationRel == old(orientationRel)
      ensures lastOrientation == old(lastOrientation)
      ensures components == old(components) && hooks == old(hooks)
    {
      this.parent := parent;
    }

    /** setPositionAbs: the absolute position is the argument and the relative
      position its difference from the parent's absolute position, read after
      the write (so an entity that is its own parent gets a zero offset). */
    method SetPositionAbs(position: V.Vector3)
      requires parent != null
      modifies this
      ensures parent == old(parent)
      ensures positionAbs == position
      ensures positionRel == V.Sub(position, parent.positionAbs)
      ensures positionAbs == V.Add(positionRel, parent.positionAbs)
      ensures orientationAbs == old(orientationAbs) && orientationRel == old(orientationRel)
      ensures lastOrientation == old(lastOrientation) && components == old(components)
      ensures hooks == old(hooks) + [ApplyTransformToPhysicsComponent, ApplyTranslationToChildren]
    {
      positionAbs := position;
      positionRel := V.Sub(positionAbs, parent.positionAbs);
      V.SubIsAddNeg(position, parent.positionAbs);
      hooks := hooks + [ApplyTransformToPhysicsComponent, ApplyTranslationToChildren];
    }

    /** setPositionAbs(x, y, z). */
    method SetPositionAbsComponents(posX: real, posY: real, posZ: real)
      requires parent != null
      modifies this
      ensures parent == old(parent)
      ensures positionAbs == V.Vector3(posX, posY, posZ)
      ensures positionRel == V.Sub(positionAbs, parent.positionAbs)
      ensures orientationAbs == old(orientationAbs) && orientationRel == old(orientationRel)
      ensures lastOrientation == old(lastOrientation) && components == old(components)
      ensures hooks == old(hooks) + [ApplyTransformToPhysicsComponent, ApplyTranslationToChildren]
    {
      SetPositionAbs(V.Vector3(posX, posY, posZ));
    }

    /** setPositionRel: the relative position is the argument and the absolute
      position its sum with the parent's absolute position as it was before the
      call; with a distinct parent the two stay consistent. */
    method SetPositionRel(position: V.Vector3)
      requires parent != null
      modifies this
      ensures parent == old(parent)
      ensures positionRel == position
      ensures positionAbs == V.Add(position, old(parent.positionAbs))
      ensures parent != this ==> positionRel == V.Sub(positionAbs, parent.positionAbs)
      ensures orientationAbs == old(orientationAbs) && orientationRel == old(orientationRel)
      ensures lastOrientation == old(lastOrientation) && components == old(components)
      ensures hooks == old(hooks) + [ApplyTransformToPhysicsComponent, ApplyTranslationToChildren]
    {
      positionRel := position;
      positionAbs := V.Add(positionRel, parent.positionAbs);
      V.SubIsAddNeg(position, parent.positionAbs);
      hooks := hooks + [ApplyTransformToPhysicsComponent, ApplyTranslationToChildren];
    }

    /** setPositionRel(x, y, z). */
    method SetPositionRelComponents(posX: real, posY: real, posZ: real)
      requires parent != null
      modifies this
      ensures parent == old(parent)
      ensures positionRel == V.Vector3(posX, posY, posZ)
      ensures positionAbs == V.Add(positionRel, old(parent.positionAbs))
      ensures orientationAbs == old(orientationAbs) && orientationRel == old(orientationRel)
      ensures lastOrientation == old(lastOrientation) && components == old(components)
      ensures hooks == old(hooks) + [ApplyTransformToPhysicsComponent, ApplyTranslationToChildren]
    {
      SetPositionRel(V.Vector3(posX, posY, posZ));
    }

    /** setOrientationAbs: the previous absolute orientation is saved, the
      absolute orientation becomes the argument normalized, and the relative
      one parent^-1 abs normalized, read after the write.  With a distinct
      unit parent, composing the parent with the new relative orientation gives
      back the new absolute one. */
    method SetOrientationAbs(lib: Libm, orientation: Q.Quaternion)
      requires SqrtSound(lib)
      requires parent != null
      requires Q.Length(lib, orientation) != 0.0
      requires parent != this ==> Q.LengthSquared(parent.orientationAbs) != 0.0
      modifies this
      ensures parent == old(parent)
      ensures lastOrientation == old(orientationAbs)
      ensures orientationAbs == Q.Normalized(lib, orientation)
      ensures Q.IsUnit(orientationAbs)
      ensures Q.Length(lib, Q.Mul(Q.Inverse(parent.orientationAbs), orientationAbs)) != 0.0
      ensures orientationRel == Q.Normalized(lib, Q.Mul(Q.Inverse(parent.orientationAbs), orientationAbs))
      ensures parent != this && Q.IsUnit(parent.orientationAbs) ==>
        Q.Mul(parent.orientationAbs, orientationRel) == orientationAbs
      ensures positionAbs == old(positionAbs) && positionRel == old(positionRel)
      ensures components == old(components)
      ensures hooks == old(hooks) + [ApplyTransformToPhysicsComponent, ApplyOrientationToChildren]
    {
      lastOrientation := orientationAbs;
      orientationAbs := Q.Normalized(lib, orientation);
      Q.NormalizedIsUnit(lib, orientation);
      var parentAbs := parent.orientationAbs;
      ProductNormalizable(lib, parentAbs, orientationAbs);
      orientationRel := Q.Normalized(lib, Q.Mul(Q.Inverse(parentAbs), orientationAbs));
      if parent != this && Q.IsUnit(parentAbs) {
        RelativeThenAbsolute(lib, parentAbs, orientationAbs);
      }
      hooks := hooks + [ApplyTransformToPhysicsComponent, ApplyOrientationToChildren];
    }

    /** setOrientationAbs(w, x, y, z). */
    method SetOrientationAbsComponents(lib: Libm, w: real, x: real, y: real, z: real)
      requires SqrtSound(lib)
      requires parent != null
      requires Q.Length(lib, Q.Quaternion(w, x, y, z)) != 0.0
      requires parent != this ==> Q.LengthSquared(parent.orientationAbs) != 0.0
      modifies this
      ensures parent == old(parent)
      ensures lastOrientation == old(orientationAbs)
      ensures orientationAbs == Q.Normalized(lib, Q.Quaternion(w, x, y, z))
      ensures Q.Length(lib, Q.Mul(Q.Inverse(parent.orientationAbs), orientationAbs)) != 0.0
      ensures orientationRel == Q.Normalized(lib, Q.Mul(Q.Inverse(parent.orientationAbs), orientationAbs))
      ensures positionAbs == old(positionAbs) && positionRel == old(positionRel)
      ensures components == old(components)
      ensures hooks == old(hooks) + [ApplyTransformToPhysicsComponent, ApplyOrientationToChildren]
    {
      SetOrientationAbs(lib, Q.Quaternion(w, x, y, z));
    }

    /** setOrientationAbs(axis, angle) as evidently intended: the absolute
      orientation becomes the rotation by angle about axis, which is already of
      unit length and so is stored as it is. */
    method SetOrientationAbsAxisAngle(lib: Libm, axis: V.Vector3, angle: real)
      requires SqrtSound(lib) && TrigSound(lib)
      requires parent != null
      requires V.Length(lib, axis) != 0.0
      requires parent != this ==> Q.LengthSquared(parent.orientationAbs) != 0.0
      modifies this
      ensures parent == old(parent)
      ensures lastOrientation == old(orientationAbs)
      ensures orientationAbs == Q.AxisAngle(lib, axis, angle)
      ensures Q.Length(lib, Q.Mul(Q.Inverse(parent.orientationAbs), orientationAbs)) != 0.0
      ensures orientationRel == Q.Normalized(lib, Q.Mul(Q.Inverse(parent.orientationAbs), orientationAbs))
      ensures positionAbs == old(positionAbs) && positionRel == old(positionRel)
      ensures components == old(components)
      ensures hooks == old(hooks) + [ApplyTransformToPhysicsComponent, ApplyOrientationToChildren]
    {
      var q := Q.AxisAngle(lib, axis, angle);
      Q.AxisAngleIsUnit(lib, axis, angle);
      Q.NormalizedOfUnit(lib, q);
      SetOrientationAbs(lib, q);
    }

    /** setOrientationAbs(yaw, pitch, roll): the absolute orientation becomes
      the Euler quaternion, which is of unit length and so is stored as it is. */
    method SetOrientationAbsEuler(lib: Libm, yawRad: real, pitchRad: real, rollRad: real)
      requires SqrtSound(lib) && TrigSound(lib)
      requires parent != null
      requires parent != this ==> Q.LengthSquared(parent.orientationAbs) != 0.0
      modifies this
      ensures parent == old(parent)
      ensures lastOrientation == old(orientationAbs)
      ensures orientationAbs == Q.FromEuler(lib, yawRad, pitchRad, rollRad)
      ensures Q.Length(lib, Q.Mul(Q.Inverse(parent.orientationAbs), orientationAbs)) != 0.0
      ensures orientationRel == Q.Normalized(lib, Q.Mul(Q.Inverse(parent.orientationAbs), orientationAbs))
      ensures positionAbs == old(positionAbs) && positionRel == old(positionRel)
      ensures components == old(components)
      ensures hooks == old(hooks) + [ApplyTransformToPhysicsComponent, ApplyOrientationToChildren]
    {
      var q := Q.FromEuler(lib, yawRad, pitchRad, rollRad);
      FromEulerIsUnit(lib, yawRad, pitchRad, rollRad);
      Q.NormalizedOfUnit(lib, q);
      SetOrientationAbs(lib, q);
    }

    /** setOrientationRel: the previous absolute orientation is saved, the
      relative orientation becomes the argument normalized, and the absolute one
      the parent's absolute orientation (as it was before the call) times it,
      normalized.  With a distinct unit parent, undoing the parent from the new
      absolute orientation gives back the new relative one. */
    method SetOrientationRel(lib: Libm, orientation: Q.Quaternion)
      requires SqrtSound(lib)
      requires parent != null
      requires Q.Length(lib, orientation) != 0.0
      requires Q.LengthSquared(parent.orientationAbs) != 0.0
      modifies this
      ensures parent == old(parent)
      ensures lastOrientation == old(orientationAbs)
      ensures orientationRel == Q.Normalized(lib, orientation)
      ensures Q.IsUnit(orientationRel)
      ensures Q.Length(lib, Q.Mul(old(parent.orientationAbs), orientationRel)) != 0.0
      ensures orientationAbs == Q.Normalized(lib, Q.Mul(old(parent.orientationAbs), orientationRel))
      ensures parent != this && Q.IsUnit(parent.orientationAbs) ==>
        Q.Mul(Q.Inverse(parent.orientationAbs), orientationAbs) == orientationRel
      ensures positionAbs == old(positionAbs) && positionRel == old(positionRel)
      ensures components == old(components)
      ensures hooks == old(hooks) + [ApplyTransformToPhysicsComponent, ApplyOrientationToChildren]
    {
      lastOrientation := orientationAbs;
      orientationRel := Q.Normalized(lib, orientation);
      Q.NormalizedIsUnit(lib, orientation);
      var parentAbs := parent.orientationAbs;
      ProductNormalizable(lib, parentAbs, orientationRel);
      orientationAbs := Q.Normalized(lib, Q.Mul(parentAbs, orientationRel));
      if parent != this && Q.IsUnit(parentAbs) {
        AbsoluteThenRelative(lib, parentAbs, orientationRel);
      }
      hooks := hooks + [ApplyTransformToPhysicsComponent, ApplyOrientationToChildren];
    }

    /** setOrientationRel(w, x, y, z). */
    method SetOrientationRelComponents(lib: Libm, w: real, x: real, y: real, z: real)
      requires SqrtSound(lib)
      requires parent != null
      requires Q.Length(lib, Q.Quaternion(w, x, y, z)) != 0.0
      requires Q.LengthSquared(parent.orientationAbs) != 0.0
      modifies this
      ensures parent == old(parent)
      ensures lastOrientation == old(orientationAbs)
      ensures orientationRel == Q.Normalized(lib, Q.Quaternion(w, x, y, z))
      ensures Q.Length(lib, Q.Mul(old(parent.orientationAbs), orientationRel)) != 0.0
      ensures orientationAbs == Q.Normalized(lib, Q.Mul(old(parent.orientationAbs), orientationRel))
      ensures positionAbs == old(positionAbs) && positionRel == old(positionRel)
      ensures components == old(components)
      ensures hooks == old(hooks) + [ApplyTransformToPhysicsComponent, ApplyOrientationToChildren]
    {
      SetOrientationRel(lib, Q.Quaternion(w, x, y, z));
    }

    /** setOrientationRel(axis, angle) as evidently intended: the relative
      orientation becomes the rotation by angle about axis, stored as it is. */
    method SetOrientationRelAxisAngle(lib: Libm, axis: V.Vector3, angle: real)
      requires SqrtSound(lib) && TrigSound(lib)
      requires parent != null
      requires V.Length(lib, axis) != 0.0
      requires Q.LengthSquared(parent.orientationAbs) != 0.0
      modifies this
      ensures parent == old(parent)
      ensures lastOrientation == old(orientationAbs)
      ensures orientationRel == Q.AxisAngle(lib, axis, angle)
      ensures Q.Length(lib, Q.Mul(old(parent.orientationAbs), orientationRel)) != 0.0
      ensures orientationAbs == Q.Normalized(lib, Q.Mul(old(parent.orientationAbs), orientationRel))
      ensures positionAbs == old(positionAbs) && positionRel == old(positionRel)
      ensures components == old(components)
      ensures hooks == old(hooks) + [ApplyTransformToPhysicsComponent, ApplyOrientationToChildren]
    {
      var q := Q.AxisAngle(lib, axis, angle);
      Q.AxisAngleIsUnit(lib, axis, angle);
      Q.NormalizedOfUnit(lib, q);
      SetOrientationRel(lib, q);
    }

    /** setOrientationRel(yaw, pitch, roll): the relative orientation becomes
      the Euler quaternion, stored as it is. */
    method SetOrientationRelEuler(lib: Libm, yawRad: real, pitchRad: real, rollRad: real)
      requires SqrtSound(lib) && TrigSound(lib)
      requires parent != null
      requires Q.LengthSquared(parent.orientationAbs) != 0.0
      modifies this
      ensures parent == old(parent)
      ensures lastOrientation == old(orientationAbs)
      ensures orientationRel == Q.FromEuler(lib, yawRad, pitchRad, rollRad)
      ensures Q.Length(lib, Q.Mul(old(parent.orientationAbs), orientationRel)) != 0.0
      ensures orientationAbs == Q.Normalized(lib, Q.Mul(old(parent.orientationAbs), orientationRel))
      ensures positionAbs == old(positionAbs) && positionRel == old(positionRel)
      ensures components == old(components)
      ensures hooks == old(hooks) + [ApplyTransformToPhysicsComponent, ApplyOrientationToChildren]
    {
      var q := Q.FromEuler(lib, yawRad, pitchRad, rollRad);
      FromEulerIsUnit(lib, yawRad, pitchRad, rollRad);
      Q.NormalizedOfUnit(lib, q);
      SetOrientationRel(lib, q);
    }

    /** translate(Vector3, space): its body is in entity.cpp; the call is
      recorded and nothing is promised about the pose. */
    method Translate(displacement: V.Vector3, relativeTo: TransformSpace := SpaceLocal)
      modifies this
      ensures hooks == old(hooks) + [TranslateCall(displacement, relativeTo)]
    {
      hooks := hooks + [TranslateCall(displacement, relativeTo)];
    }

    /** translate(x, y, z, space). */
    method TranslateComponents(distX: real, distY: real, distZ: real, relativeTo: TransformSpace := SpaceLocal)
      modifies this
      ensures hooks == old(hooks) + [TranslateCall(V.Vector3(distX, distY, distZ), relativeTo)]
    {
      Translate(V.Vector3(distX, distY, distZ), relativeTo);
    }

    /** translateX: a translation by distX along x only. */
    method TranslateX(distX: real, relativeTo: TransformSpace := SpaceLocal)
      modifies this
      ensures |hooks| == |old(hooks)| + 1 && hooks[..|old(hooks)|] == old(hooks)
      ensures hooks[|old(hooks)|].TranslateCall?
      ensures hooks[|old(hooks)|].displacement == V.Scale(V.UNIT_X, distX)
      ensures hooks[|old(hooks)|].relativeTo == relativeTo
    {
      Translate(V.Vector3(distX, 0.0, 0.0), relativeTo);
    }

    /** translateY: a translation by distY along y only. */
    method TranslateY(distY: real, relativeTo: TransformSpace := SpaceLocal)
      modifies this
      ensures |hooks| == |old(hooks)| + 1 && hooks[..|old(hooks)|] == old(hooks)
      ensures hooks[|old(hooks)|].TranslateCall?
      ensures hooks[|old(hooks)|].displacement == V.Scale(V.UNIT_Y, distY)
      ensures hooks[|old(hooks)|].relativeTo == relativeTo
    {
      Translate(V.Vector3(0.0, distY, 0.0), relativeTo);
    }

    /** translateZ: a translation by distZ along z only. */
    method TranslateZ(distZ: real, relativeTo: TransformSpace := SpaceLocal)
      modifies this
      ensures |hooks| == |old(hooks)| + 1 && hooks[..|old(hooks)|] == old(hooks)
      ensures hooks[|old(hooks)|].TranslateCall?
      ensures hooks[|old(hooks)|].displacement == V.Scale(V.UNIT_Z, distZ)
      ensures hooks[|old(hooks)|].relativeTo == relativeTo
    {
      Translate(V.Vector3(0.0, 0.0, distZ), relativeTo);
    }

    /** rotate(Quaternion, space): its body is in entity.cpp; the call is
      recorded and nothing is promised about the pose. */
    method Rotate(deltaRotation: Q.Quaternion, relativeTo: TransformSpace := SpaceLocal)
      modifies this
      ensures hooks == old(hooks) + [RotateCall(deltaRotation, relativeTo)]
    {
      hooks := hooks + [RotateCall(deltaRotation, relativeTo)];
    }

    /** rotate(w, x, y, z, space). */
    method RotateComponents(w: real, x: real, y: real, z: real, relativeTo: TransformSpace := SpaceLocal)
      modifies this
      ensures hooks == old(hooks) + [RotateCall(Q.Quaternion(w, x, y, z), relativeTo)]
    {
      Rotate(Q.Quaternion(w, x, y, z), relativeTo);
    }

    /** rotate(axis, angle, space): a rotation by the axis-angle quaternion. */
    method RotateAxisAngle(lib: Libm, axis: V.Vector3, angle: real, relativeTo: TransformSpace := SpaceLocal)
      requires V.Length(lib, axis) != 0.0
      modifies this
      ensures hooks == old(hooks) + [RotateCall(Q.AxisAngle(lib, axis, angle), relativeTo)]
    {
      Rotate(Q.AxisAngle(lib, axis, angle), relativeTo);
    }

    /** yaw: rotate(UNIT_Y, radians, space), a rotation by radians about
      the y axis (its value is given by Quaternions.AxisAngleAboutY). */
    method Yaw(lib: Libm, radians: real, relativeTo: TransformSpace := SpaceLocal)
      requires V.Length(lib, V.UNIT_Y) != 0.0
      modifies this
      ensures hooks == old(hooks) + [RotateCall(Q.AxisAngle(lib, V.UNIT_Y, radians), relativeTo)]
    {
      RotateAxisAngle(lib, V.UNIT_Y, radians, relativeTo);
    }

    /** pitch: rotate(UNIT_X, radians, space), a rotation by radians about
      the x axis (its value is given by Quaternions.AxisAngleAboutX). */
    method Pitch(lib: Libm, radians: real, relativeTo: TransformSpace := SpaceLocal)
      requires V.Length(lib, V.UNIT_X) != 0.0
      modifies this
      ensures hooks == old(hooks) + [RotateCall(Q.AxisAngle(lib, V.UNIT_X, radians), relativeTo)]
    {
      RotateAxisAngle(lib, V.UNIT_X, radians, relativeTo);
    }

    /** roll: rotate(UNIT_Z, radians, space), a rotation by radians about
      the z axis (its value is given by Quaternions.AxisAngleAboutZ). */
    method Roll(lib: Libm, radians: real, relativeTo: TransformSpace := SpaceLocal)
      requires V.Length(lib, V.UNIT_Z) != 0.0
      modifies this
      ensures hooks == old(hooks) + [RotateCall(Q.AxisAngle(lib, V.UNIT_Z, radians), relativeTo)]
    {
      RotateAxisAngle(lib, V.UNIT_Z, radians, relativeTo);
    }
  }

  // ---------------------------------------------------------------------------
  // Component

  /** A component of an entity, registered in the entity's component table
      under its type for as long as it lives. */
  class Component {
    const entity: Entity
    const componentType: string
    var description: string

    /** Component(type, entity): stores the entity and the type, starts with an
      empty description, and registers itself under its type unless a
      component of that type is already registered (std::map::insert). */
    constructor (componentType: string, entity: Entity)
      modifies entity
      ensures this.entity == entity && this.componentType == componentType
      ensures description == ""
      ensures entity.components == MapInsert(old(entity.components), componentType, this)
      ensures entity.parent == old(entity.parent) && entity.hooks == old(entity.hooks)
      ensures entity.positionAbs == old(entity.positionAbs) && entity.positionRel == old(entity.positionRel)
      ensures entity.orientationAbs == old(entity.orientationAbs)
      ensures entity.orientationRel == old(entity.orientationRel)
      ensures entity.lastOrientation == old(entity.lastOrientation)
    {
      this.entity := entity;
      this.componentType := componentType;
      description := "";
      new;
      entity.components := MapInsert(entity.components, componentType, this);
    }

    /** ~Component: the entry for this component's type is erased, whichever
      component it maps to. */
    method Destroy()
      modifies entity
      ensures entity.components == MapErase(old(entity.components), componentType)
      ensures entity.parent == old(entity.parent) && entity.hooks == old(entity.hooks)
      ensures entity.positionAbs == old(entity.positionAbs) && entity.positionRel == old(entity.positionRel)
      ensures entity.orientationAbs == old(entity.orientationAbs)
      ensures entity.orientationRel == old(entity.orientationRel)
      ensures entity.lastOrientation == old(entity.lastOrientation)
    {
      entity.components := MapErase(entity.components, componentType);
    }

    /** The copy constructor copies the three fields and registers nothing (its
      error message goes to the console). */
    constructor Copy(rhs: Component)
      ensures entity == rhs.entity && componentType == rhs.componentType
      ensures description == rhs.description
    {
      entity := rhs.entity;
      componentType := rhs.componentType;
      description := rhs.description;
    }

    /** operator=: changes nothing and returns the receiver (its error message
      goes to the console). */
    method Assign(rhs: Component) returns (r: Component)
      ensures r == this
    {
      r := this;
    }
  }
}
