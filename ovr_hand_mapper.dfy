// OVRHandMapper: the HandMapper for the Oculus hand-tracking rig. Its joints are
// fifteen Finger fields and two DoubleFinger fields (the thumb and little-finger
// proximal joints, which follow the metacarpal and proximal trackers together).
// Initialize names each joint's tracker for the chosen hand, takes the bone targets
// from a humanoid avatar, and copies the joints into two HashSets; MapOnUpdate walks
// the sets; InitializeOffset fills the offsets from a constant table per hand.
module OVRHandMapperModel {
  import opened Wrappers
  import opened Geometry
  import opened PoseModel
  import opened CameraRigs
  import opened TrackerTypes
  import opened PoseMapperModel
  import opened HandMapperModel

  /** The seventeen serialized joint fields, WristRoot through Pinky3. */
  datatype Joints = Joints(
    wristRoot: Finger, forearmStub: Finger,
    thumb1: DoubleFinger, thumb2: Finger, thumb3: Finger,
    index1: Finger, index2: Finger, index3: Finger,
    middle1: Finger, middle2: Finger, middle3: Finger,
    ring1: Finger, ring2: Finger, ring3: Finger,
    pinky1: DoubleFinger, pinky2: Finger, pinky3: Finger)

  /** Initialize on the forearm stub: the tracker only; its target is never
      assigned. */
  function InitStub(f: Finger, s: Side): (r: Finger)
    ensures r.tracker == HandFinger(s, ForearmStub) && r.offset == f.offset && r.target == f.target
  {
    f.(tracker := HandFinger(s, ForearmStub))
  }

  /** Initialize on one DoubleFinger field, which follows the trackers of two
      consecutive bones on the chosen hand and drives the avatar's bone of the second. */
  function InitDouble(d: DoubleFinger, s: Side, b0: HandBone, b: HandBone, human: bool,
                      bones: map<HandBone, Transform?>): (r: DoubleFinger)
    ensures r.tracker0 == HandFinger(s, b0) && r.tracker1 == HandFinger(s, b)
    ensures r.offset0 == d.offset0 && r.offset1 == d.offset1
    ensures r.target == if human then BoneOf(bones, b) else d.target
  {
    d.(tracker0 := HandFinger(s, b0), tracker1 := HandFinger(s, b), target := if human then BoneOf(bones, b) else d.target)
  }

  /** Initialize on every field: Thumb1 follows Thumb0 and Thumb1, Pinky1 follows
      Pinky0 and Pinky1, every other field the tracker of its own bone. */
  function InitJoints(j: Joints, s: Side, human: bool, bones: map<HandBone, Transform?>): Joints
  {
    Joints(
      InitField(j.wristRoot, s, WristRoot, human, bones), InitStub(j.forearmStub, s),
      InitDouble(j.thumb1, s, Thumb0, Thumb1, human, bones),
      InitField(j.thumb2, s, Thumb2, human, bones), InitField(j.thumb3, s, Thumb3, human, bones),
      InitField(j.index1, s, Index1, human, bones), InitField(j.index2, s, Index2, human, bones),
      InitField(j.index3, s, Index3, human, bones),
      InitField(j.middle1, s, Middle1, human, bones), InitField(j.middle2, s, Middle2, human, bones),
      InitField(j.middle3, s, Middle3, human, bones),
      InitField(j.ring1, s, Ring1, human, bones), InitField(j.ring2, s, Ring2, human, bones),
      InitField(j.ring3, s, Ring3, human, bones),
      InitDouble(j.pinky1, s, Pinky0, Pinky1, human, bones),
      InitField(j.pinky2, s, Pinky2, human, bones), InitField(j.pinky3, s, Pinky3, human, bones))
  }

  /** The initializer of m_fingers: copies of every Finger field but the wrist and the
      forearm stub. */
  function SingleCopies(j: Joints): set<Finger>
  {
    set f | f in SingleFields(j)
  }

  /** The Finger fields of the initializer of m_fingers, in declaration order. */
  function SingleFields(j: Joints): seq<Finger>
  {
    [j.thumb2, j.thumb3, j.index1, j.index2, j.index3, j.middle1, j.middle2, j.middle3,
     j.ring1, j.ring2, j.ring3, j.pinky2, j.pinky3]
  }

  /** The bones of those fields, in the same order. */
  const SingleBones: seq<HandBone> :=
    [Thumb2, Thumb3, Index1, Index2, Index3, Middle1, Middle2, Middle3, Ring1, Ring2, Ring3, Pinky2, Pinky3]

  /** Those bones follow the order of the enumeration, and the wrist and the forearm
      stub are not among them. */
  lemma SingleBonesAscending()
    ensures BonesAscending(SingleBones)
    ensures WristRoot !in SingleBones && ForearmStub !in SingleBones
  {
  }

  /** The initializer of m_doubleFingers. */
  function DoubleCopies(j: Joints): set<DoubleFinger>
  {
    {j.thumb1, j.pinky1}
  }

  /** After Initialize, m_fingers holds thirteen joints: the trackers tell every field
      apart, so no two copies collapse in the HashSet. */
  lemma InitializedSingleCount(j: Joints, s: Side, human: bool, bones: map<HandBone, Transform?>)
    ensures |SingleCopies(InitJoints(j, s, human, bones))| == 13
  {
    var k := InitJoints(j, s, human, bones);
    SingleBonesAscending();
    RunSize(SingleFields(k), s, SingleBones);
  }

  /** After Initialize, m_fingers holds joints of the chosen hand only, and neither
      the wrist nor the forearm stub. */
  lemma InitializedSingleMembers(j: Joints, s: Side, human: bool, bones: map<HandBone, Transform?>)
    ensures var k := InitJoints(j, s, human, bones);
            k.wristRoot !in SingleCopies(k) && k.forearmStub !in SingleCopies(k)
    ensures var k := InitJoints(j, s, human, bones);
            forall f :: f in SingleCopies(k) ==> f.tracker.HandFinger? && f.tracker.side == s
  {
    var k := InitJoints(j, s, human, bones);
    SingleBonesAscending();
    RunMembers(SingleFields(k), s, SingleBones);
  }

  /** After Initialize, m_doubleFingers holds the thumb and little-finger bases, both
      of the chosen hand. */
  lemma InitializedDoubles(j: Joints, s: Side, human: bool, bones: map<HandBone, Transform?>)
    ensures var k := InitJoints(j, s, human, bones);
            |DoubleCopies(k)| == 2 && k.thumb1 in DoubleCopies(k) && k.pinky1 in DoubleCopies(k)
    ensures var k := InitJoints(j, s, human, bones);
            forall d :: d in DoubleCopies(k) ==> d.tracker1.HandFinger? && d.tracker1.side == s
  {
  }

  /** On a humanoid avatar, Initialize points every joint of m_fingers at the
      avatar's bone of its own tracker. */
  lemma InitializedTargets(j: Joints, s: Side, bones: map<HandBone, Transform?>)
    ensures var k := InitJoints(j, s, true, bones);
            forall f :: f in SingleCopies(k) ==> f.tracker.HandFinger? && f.target == BoneOf(bones, f.tracker.bone)
  {
    var k := InitJoints(j, s, true, bones);
    RunTargets(SingleFields(k), s, SingleBones, bones);
  }

  /** On a humanoid avatar, Initialize points both joints of m_doubleFingers at the
      avatar's bone of their second tracker. */
  lemma InitializedDoubleTargets(j: Joints, s: Side, bones: map<HandBone, Transform?>)
    ensures var k := InitJoints(j, s, true, bones);
            forall d :: d in DoubleCopies(k) ==> d.tracker1.HandFinger? && d.target == BoneOf(bones, d.tracker1.bone)
  {
  }

  /** The Euler angles (degrees) InitializeOffset gives a Finger field. */
  function SingleAngles(s: Side, b: HandBone): Vec3
  {
    match b
    case Thumb2 | Thumb3 =>
      if s == Left then Vec3(0.0, 180.0, 270.0) else Vec3(0.0, 0.0, 270.0)
    case Index1 | Index2 | Index3 | Middle1 | Middle2 | Middle3 | Ring1 | Ring2 | Ring3 | Pinky2 | Pinky3 =>
      if s == Left then Vec3(270.0, 90.0, 0.0) else Vec3(90.0, 90.0, 0.0)
    case _ => Zero
  }

  /** The Euler angles of the two offsets of a DoubleFinger field. */
  function DoubleAngles(s: Side, b: HandBone): (Vec3, Vec3)
  {
    if b == Thumb1 then
      if s == Left then (Vec3(315.0, 180.0, 225.0), Vec3(270.0, 135.0, 0.0))
      else (Vec3(45.0, 180.0, 225.0), Vec3(90.0, 135.0, 0.0))
    else if b == Pinky1 then
      if s == Left then (Vec3(270.0, 150.0, 0.0), Vec3(300.0, 355.0, 90.0))
      else (Vec3(90.0, 150.0, 0.0), Vec3(60.0, 175.0, 90.0))
    else (Zero, Zero)
  }

  function Rotation(v: Vec3): Quat { FromEuler(v.x, v.y, v.z) }

  /** An angle reflected through the x = 0 plane, in [0, 360). */
  function Reflected(a: real): real { if a == 0.0 then 0.0 else 360.0 - a }

  /** The shape of the offset table: the wrist and forearm stub keep no offset; on
      every other joint the right hand's first Euler angle is the left hand's
      reflected, the third is the same, and the second is the same except on the
      thumb's intermediate and distal joints and the little finger's second offset,
      where it is turned by half a turn. */
  lemma OffsetTable(b: HandBone)
    ensures Rotation(SingleAngles(Left, WristRoot)) == Identity && Rotation(SingleAngles(Right, WristRoot)) == Identity
    ensures Rotation(SingleAngles(Left, ForearmStub)) == Identity && Rotation(SingleAngles(Right, ForearmStub)) == Identity
    ensures b !in {Thumb0, Thumb1, Pinky0, Pinky1} ==>
              SingleAngles(Right, b).x == Reflected(SingleAngles(Left, b).x) &&
              SingleAngles(Right, b).z == SingleAngles(Left, b).z &&
              SingleAngles(Right, b).y == SingleAngles(Left, b).y - (if b in {Thumb2, Thumb3} then 180.0 else 0.0)
    ensures b in {Thumb1, Pinky1} ==>
              var (l0, l1) := DoubleAngles(Left, b);
              var (r0, r1) := DoubleAngles(Right, b);
              r0.x == Reflected(l0.x) && r0.y == l0.y && r0.z == l0.z &&
              r1.x == Reflected(l1.x) && r1.z == l1.z &&
              r1.y == l1.y - (if b == Pinky1 then 180.0 else 0.0)
  {
  }

  /** InitializeOffset on every field: the offsets of the chosen hand's table. */
  function WithOffsets(j: Joints, s: Side): Joints
  {
    var single := (f: Finger, b: HandBone) => f.(offset := Rotation(SingleAngles(s, b)));
    var double := (d: DoubleFinger, b: HandBone) =>
      d.(offset0 := Rotation(DoubleAngles(s, b).0), offset1 := Rotation(DoubleAngles(s, b).1));
    Joints(
      single(j.wristRoot, WristRoot), single(j.forearmStub, ForearmStub),
      double(j.thumb1, Thumb1), single(j.thumb2, Thumb2), single(j.thumb3, Thumb3),
      single(j.index1, Index1), single(j.index2, Index2), single(j.index3, Index3),
      single(j.middle1, Middle1), single(j.middle2, Middle2), single(j.middle3, Middle3),
      single(j.ring1, Ring1), single(j.ring2, Ring2), single(j.ring3, Ring3),
      double(j.pinky1, Pinky1), single(j.pinky2, Pinky2), single(j.pinky3, Pinky3))
  }

  /** InitializeOffset changes offsets only: trackers and targets stay, so a later
      Initialize leaves the new offsets in place. */
  lemma OffsetsKeepInitialization(j: Joints, s: Side, human: bool, bones: map<HandBone, Transform?>)
    ensures WithOffsets(InitJoints(j, s, human, bones), s) == InitJoints(WithOffsets(j, s), s, human, bones)
  {
  }

  /** Initializing twice is initializing once (OnValidate and Awake both initialize). */
  lemma InitializeIdempotent(j: Joints, s: Side, human: bool, bones: map<HandBone, Transform?>)
    ensures InitJoints(InitJoints(j, s, human, bones), s, human, bones) == InitJoints(j, s, human, bones)
  {
  }

  class OVRHandMapper {
    /** The PoseMapper part; its Notify stays abstract and is counted there. */
    const base: PoseMapper
    /** Type: which hand this mapper follows. */
    var side: Side
    /** The serialized joint fields. */
    var joints: Joints
    /** m_fingers and m_doubleFingers: copies of the fields, taken by Initialize. */
    var fingerSet: set<Finger>
    var doubleSet: set<DoubleFinger>

    /** The serialized fields; the sets are empty until Initialize runs. */
    constructor (found: Pose?, obj: Option<ComponentRef>, side: Side, joints: Joints)
      ensures fresh(base) && base.target == found && base.referenceObject == obj && base.reference == null
      ensures base.isValid && !base.hasModified && base.notifyCount == 0
      ensures this.side == side && this.joints == joints
      ensures fingerSet == {} && doubleSet == {}
    {
      base := new PoseMapper(found, obj);
      this.side := side;
      this.joints := joints;
      fingerSet := {};
      doubleSet := {};
    }

    /** Initialize: every field gets its trackers for the chosen hand and, on a
        humanoid avatar, its bone (`bones` is the avatar's bone transforms of the chosen
        hand); then the sets are rebuilt from the fields. */
    method Initialize(human: bool, bones: map<HandBone, Transform?>)
      modifies this`joints, this`fingerSet, this`doubleSet
      ensures joints == InitJoints(old(joints), side, human, bones)
      ensures fingerSet == SingleCopies(joints) && doubleSet == DoubleCopies(joints)
    {
      var k := InitJoints(joints, side, human, bones);
      Store(k, SingleCopies(k), DoubleCopies(k));
    }

    /** The stores of Initialize. */
    method Store(k: Joints, fs: set<Finger>, ds: set<DoubleFinger>)
      modifies this`joints, this`fingerSet, this`doubleSet
      ensures joints == k && fingerSet == fs && doubleSet == ds
    {
      joints := k;
      fingerSet := fs;
      doubleSet := ds;
    }

    /** InitializeOffset: every field's offset from the table of the chosen hand. The
        sets are not touched, so MapOnUpdate keeps the old offsets until the next
        Initialize copies the fields again. */
    method InitializeOffset()
      modifies this`joints
      ensures joints == WithOffsets(old(joints), side)
    {
      var hand := side;
      joints := WithOffsets(joints, hand);
      assert side == hand;
    }

    /** What MapOnUpdate needs of the rig and the bones: a rig, no two joints of the sets
        on one bone, and no joint on a tracker transform. */
    predicate Mappable()
      reads this, base, base.reference
    {
      && base.reference != null
      && SeparateFingers(fingerSet, base.reference.trackers)
      && SeparateDoubles(doubleSet, base.reference.trackers)
      && Targets(fingerSet) !! DoubleTargets(doubleSet)
    }

    /** MapOnUpdate: every joint of the two sets that has a target is driven by its
        trackers, from the values before the walk. */
    method MapOnUpdate()
      requires Mappable()
      modifies (Targets(fingerSet) + DoubleTargets(doubleSet))`localRotation
      ensures forall f :: f in fingerSet && f.target != null ==>
                f.target.localRotation ==
                  FingerRotation(f, old(Source(base.reference.trackers, f.tracker)), old(f.target.localRotation))
      ensures forall d :: d in doubleSet && d.target != null ==>
                d.target.localRotation ==
                  DoubleRotation(d, old(Source(base.reference.trackers, d.tracker0)),
                                 old(Source(base.reference.trackers, d.tracker1)), old(d.target.localRotation))
    {
      var rig := base.reference.trackers;
      MapFingers(fingerSet, rig);
      MapDoubles(doubleSet, rig);
    }

    /** OnValidate: the PoseMapper's, then Initialize. */
    method OnValidate(own: Pose?, parent: Pose?, human: bool, bones: map<HandBone, Transform?>)
      modifies base`target, base`referenceObject, base`reference, this`joints, this`fingerSet, this`doubleSet
      ensures base.target == FoundPose(own, parent) && base.InSync()
      ensures old(base.referenceObject).None? ==> base.referenceObject.None? && base.reference == null
      ensures old(base.referenceObject).Some? && FoundRig(old(base.referenceObject).value).Some? ==>
                base.referenceObject == old(base.referenceObject) &&
                base.reference == FoundRig(old(base.referenceObject).value).value
      ensures old(base.referenceObject).Some? && FoundRig(old(base.referenceObject).value).None? ==>
                base.referenceObject.None? && base.reference == null
      ensures joints == InitJoints(old(joints), side, human, bones)
      ensures fingerSet == SingleCopies(joints) && doubleSet == DoubleCopies(joints)
    {
      base.OnValidate(own, parent);
      Initialize(human, bones);
    }

    /** Awake: the PoseMapper's, then Initialize. */
    method Awake(human: bool, bones: map<HandBone, Transform?>)
      modifies base`referenceObject, base`reference, base`notifyCount, this`joints, this`fingerSet, this`doubleSet
      ensures old(base.referenceObject).None? ==>
                base.referenceObject.None? && base.reference == null &&
                base.notifyCount == old(base.notifyCount) + 1
      ensures old(base.referenceObject).Some? && FoundRig(old(base.referenceObject).value).Some? ==>
                base.reference == FoundRig(old(base.referenceObject).value).value &&
                base.referenceObject == Some(RigComponent(base.reference)) &&
                base.notifyCount == old(base.notifyCount) + 1
      ensures old(base.referenceObject).Some? && FoundRig(old(base.referenceObject).value).None? ==>
                base.referenceObject == old(base.referenceObject) && base.reference == old(base.reference) &&
                base.notifyCount == old(base.notifyCount)
      ensures old(base.referenceObject).None? || FoundRig(old(base.referenceObject).value).Some? ==> base.InSync()
      ensures joints == InitJoints(old(joints), side, human, bones)
      ensures fingerSet == SingleCopies(joints) && doubleSet == DoubleCopies(joints)
    {
      base.Awake();
      Initialize(human, bones);
    }

    /** Update (the PoseMapper's): the modified flag is cleared and, while the latching
        IsValid holds, MapOnUpdate runs. */
    method Update() returns (mapped: bool)
      requires base.isValid && base.target != null ==> Mappable()
      modifies base`hasModified, base`isValid, (Targets(fingerSet) + DoubleTargets(doubleSet))`localRotation
      ensures !base.hasModified
      ensures base.isValid == (old(base.isValid) && base.target != null)
      ensures mapped == base.isValid
      ensures !mapped ==> unchanged(Targets(fingerSet) + DoubleTargets(doubleSet))
      ensures mapped ==> forall f :: f in fingerSet && f.target != null ==>
                f.target.localRotation ==
                  FingerRotation(f, old(Source(base.reference.trackers, f.tracker)), old(f.target.localRotation))
      ensures mapped ==> forall d :: d in doubleSet && d.target != null ==>
                d.target.localRotation ==
                  DoubleRotation(d, old(Source(base.reference.trackers, d.tracker0)),
                                 old(Source(base.reference.trackers, d.tracker1)), old(d.target.localRotation))
    {
      mapped := base.Update();
      if mapped {
        MapOnUpdate();
      }
    }
  }
}
