// Unity's value types and the Transform component, as the PoseSynth runtime uses them.
//
// Vectors are exact (real) triples. Quaternions are symbolic terms: the model never
// evaluates a rotation, it records how a rotation was obtained. The smart constructors
// `Mul`, `Inv` and `FromEuler` apply only identity laws, so two equal terms always
// denote equal rotations and every equation proved about terms holds of the real
// quaternions too.
module Geometry {

  datatype Vec3 = Vec3(x: real, y: real, z: real)
  {
    function Add(o: Vec3): Vec3 { Vec3(x + o.x, y + o.y, z + o.z) }
    function Scale(k: real): Vec3 { Vec3(k * x, k * y, k * z) }
  }

  const Zero := Vec3(0.0, 0.0, 0.0)

  /** A rotation term. `Identity` is Quaternion.identity, `Euler` is Quaternion.Euler of a
      non-zero angle triple, `SlerpOf` is Quaternion.Slerp, `Product` is the Hamilton
      product and `Inverse` is Quaternion.Inverse. */
  datatype Quat =
    | Identity
    | Euler(ex: real, ey: real, ez: real)
    | SlerpOf(from: Quat, to: Quat, t: real)
    | Product(lhs: Quat, rhs: Quat)
    | Inverse(of: Quat)

  /** Quaternion multiplication `p * q`. */
  function Mul(p: Quat, q: Quat): (r: Quat)
    ensures p == Identity ==> r == q
    ensures q == Identity ==> r == p
  {
    if p == Identity then q else if q == Identity then p else Product(p, q)
  }

  /** Quaternion.Inverse. */
  function Inv(q: Quat): (r: Quat)
    ensures r == Identity <==> q == Identity
  {
    if q == Identity then Identity else Inverse(q)
  }

  /** Quaternion.Slerp(a, b, t): the parameter is clamped to [0, 1], and the end points
      of the arc are `a` and `b` themselves; the arc from a rotation to itself stays put. */
  function Slerp(a: Quat, b: Quat, t: real): (r: Quat)
    ensures t <= 0.0 ==> r == a
    ensures t >= 1.0 ==> r == b
    ensures a == b ==> r == a
  {
    if t <= 0.0 || a == b then a else if t >= 1.0 then b else SlerpOf(a, b, t)
  }

  /** Quaternion.Euler(x, y, z): the zero triple is the identity rotation. */
  function FromEuler(x: real, y: real, z: real): (r: Quat)
    ensures r == Identity <==> x == 0.0 && y == 0.0 && z == 0.0
  {
    if x == 0.0 && y == 0.0 && z == 0.0 then Identity else Euler(x, y, z)
  }

  /** Mathf.Clamp(v, lo, hi): lower bound first, then upper bound. */
  function Clamp(v: real, lo: real, hi: real): (r: real)
    ensures lo <= hi ==> lo <= r <= hi
    ensures lo <= v <= hi ==> r == v
  {
    if v < lo then lo else if v > hi then hi else v
  }

  /** Mathf.Clamp applied n times: the mixers' SetWeight clamps its own, already
      clamped, argument once per group it writes. */
  function ClampTimes(w: real, lo: real, hi: real, n: nat): real
  {
    if n == 0 then w else Clamp(ClampTimes(w, lo, hi, n - 1), lo, hi)
  }

  /** With a sensible range, clamping again changes nothing. */
  lemma {:induction false} ClampTimesOnce(w: real, lo: real, hi: real, n: nat)
    requires lo <= hi && n >= 1
    ensures ClampTimes(w, lo, hi, n) == Clamp(w, lo, hi)
  {
    if n > 1 {
      ClampTimesOnce(w, lo, hi, n - 1);
    }
  }

  /** The None/Local/Global choice every remapper makes for positions and rotations;
      `None` is also the C# default value of each of those enums. */
  datatype Space = None | Local | Global

  /** A Unity Transform: world and local position and rotation, and the local Euler
      angles, held as independent fields. */
  class Transform {
    var position: Vec3
    var rotation: Quat
    var localPosition: Vec3
    var localRotation: Quat
    var localEulerAngles: Vec3

    constructor (p: Vec3, q: Quat)
      ensures position == p && rotation == q && localPosition == p && localRotation == q
      ensures localEulerAngles == Zero
    {
      position := p;
      rotation := q;
      localPosition := p;
      localRotation := q;
      localEulerAngles := Zero;
    }
  }

  /** The five values a Transform holds, as one value. */
  datatype TransformState = TransformState(position: Vec3, rotation: Quat, localPosition: Vec3,
                                           localRotation: Quat, localEulerAngles: Vec3)

  /** What `t` holds now. */
  function StateOf(t: Transform): TransformState
    reads t
  {
    TransformState(t.position, t.rotation, t.localPosition, t.localRotation, t.localEulerAngles)
  }

  /** The transform holds the values it held in the earlier state. */
  twostate predicate Unmoved(t: Transform)
    reads t
  {
    t.position == old(t.position) && t.localPosition == old(t.localPosition) &&
    t.rotation == old(t.rotation) && t.localRotation == old(t.localRotation) &&
    t.localEulerAngles == old(t.localEulerAngles)
  }

  /** Writes `p` into the position of `t` in the given space; `None` writes nothing.
      (World and local coordinates are coupled through the parent in Unity; the model
      promises only the field written.) */
  method SetPosition(t: Transform, p: Vec3, space: Space)
    modifies t
    ensures t.position == (if space == Global then p else old(t.position))
    ensures t.localPosition == (if space == Local then p else old(t.localPosition))
    ensures t.rotation == old(t.rotation) && t.localRotation == old(t.localRotation)
    ensures t.localEulerAngles == old(t.localEulerAngles)
  {
    match space
    case None =>
    case Local => t.localPosition := p;
    case Global => t.position := p;
  }

  /** Writes `q` into the rotation of `t` in the given space; `None` writes nothing. */
  method SetRotation(t: Transform, q: Quat, space: Space)
    modifies t
    ensures t.rotation == (if space == Global then q else old(t.rotation))
    ensures t.localRotation == (if space == Local then q else old(t.localRotation))
    ensures t.position == old(t.position) && t.localPosition == old(t.localPosition)
    ensures t.localEulerAngles == old(t.localEulerAngles)
  {
    match space
    case None =>
    case Local => t.localRotation := q;
    case Global => t.rotation := q;
  }
}
