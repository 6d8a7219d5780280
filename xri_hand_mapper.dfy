// XRIHandMapper: the HandMapper for the XR Interaction Toolkit hand-tracking rig. Its
// joints are sixteen Finger fields, the wrist and three per finger; Initialize names
// each joint's tracker for the chosen hand, takes the bone targets from a humanoid
// avatar and copies the fifteen finger joints into a HashSet, which MapOnUpdate walks.
// It overrides Notify with an observer set of its own, so every assignment of the
// reference (Awake's included) is announced to those observers.
module XRIHandMapperModel {
  import opened Wrappers
  import opened Geometry
  import opened PoseModel
  import opened CameraRigs
  import opened TrackerTypes
  import opened Observers
  import opened PoseMapperModel
  import opened HandMapperModel

  /** The sixteen serialized joint fields, WristRoot through Pinky3. */
  datatype XRIJoints = XRIJoints(
    wristRoot: Finger,
    thumb1: Finger, thumb2: Finger, thumb3: Finger,
    index1: Finger, index2: Finger, index3: Finger,
    middle1: Finger, middle2: Finger, middle3: Finger,
    ring1: Finger, ring2: Finger, ring3: Finger,
    pinky1: Finger, pinky2: Finger, pinky3: Finger)

  /** Initialize on every field, each with the tracker of its own bone. */
  function InitJoints(j: XRIJoints, s: Side, human: bool, bones: map<HandBone, Transform?>): XRIJoints
  {
    XRIJoints(
      InitField(j.wristRoot, s, WristRoot, human, bones),
      InitField(j.thumb1, s, Thumb1, human, bones), InitField(j.thumb2, s, Thumb2, human, bones),
      InitField(j.thumb3, s, Thumb3, human, bones),
      InitField(j.index1, s, Index1, human, bones), InitField(j.index2, s, Index2, human, bones),
      InitField(j.index3, s, Index3, human, bones),
      InitField(j.middle1, s, Middle1, human, bones), InitField(j.middle2, s, Middle2, human, bones),
      InitField(j.middle3, s, Middle3, human, bones),
      InitField(j.ring1, s, Ring1, human, bones), InitField(j.ring2, s, Ring2, human, bones),
      InitField(j.ring3, s, Ring3, human, bones),
      InitField(j.pinky1, s, Pinky1, human, bones), InitField(j.pinky2, s, Pinky2, human, bones),
      InitField(j.pinky3, s, Pinky3, human, bones))
  }

  /** The fields of the initializer of m_fingers, in declaration order: all but the
      wrist. */
  function FingerFields(j: XRIJoints): seq<Finger>
  {
    [j.thumb1, j.thumb2, j.thumb3, j.index1, j.index2, j.index3, j.middle1, j.middle2, j.middle3,
     j.ring1, j.ring2, j.ring3, j.pinky1, j.pinky2, j.pinky3]
  }

  /** The bones of those fields, in the same order. */
  const FingerBones: seq<HandBone> :=
    [Thumb1, Thumb2, Thumb3, Index1, Index2, Index3, Middle1, Middle2, Middle3,
     Ring1, Ring2, Ring3, Pinky1, Pinky2, Pinky3]

  /** The initializer of m_fingers. */
  function FingerCopies(j: XRIJoints): set<Finger>
  {
    set f | f in FingerFields(j)
  }

  /** Those bones follow the order of the enumeration, and the wrist is not among
      them. */
  lemma FingerBonesAscending()
    ensures BonesAscending(FingerBones)
    ensures WristRoot !in FingerBones
  {
  }

  /** After Initialize, m_fingers holds fifteen joints: the trackers tell every field
      apart, so no two copies collapse in the HashSet. */
  lemma InitializedCount(j: XRIJoints, s: Side, human: bool, bones: map<HandBone, Transform?>)
    ensures |FingerCopies(InitJoints(j, s, human, bones))| == 15
  {
    var k := InitJoints(j, s, human, bones);
    FingerBonesAscending();
    RunSize(FingerFields(k), s, FingerBones);
  }

  /** After Initialize, m_fingers holds joints of the chosen hand only, and not the
      wrist. */
  lemma InitializedMembers(j: XRIJoints, s: Side, human: bool, bones: map<HandBone, Transform?>)
    ensures var k := InitJoints(j, s, human, bones);
            k.wristRoot !in FingerCopies(k)
    ensures var k := InitJoints(j, s, human, bones);
            forall f :: f in FingerCopies(k) ==> f.tracker.HandFinger? && f.tracker.side == s
  {
    var k := InitJoints(j, s, human, bones);
    FingerBonesAscending();
    RunMembers(FingerFields(k), s, FingerBones);
  }

  /** On a humanoid avatar, Initialize points every joint at the avatar's bone of its
      own tracker: the hand bone for the wrist, the finger bone for every copy in
      m_fingers. */
  lemma InitializedTargets(j: XRIJoints, s: Side, bones: map<HandBone, Transform?>)
    ensures var k := InitJoints(j, s, true, bones);
            k.wristRoot.target == BoneOf(bones, WristRoot)
    ensures var k := InitJoints(j, s, true, bones);
            forall f :: f in FingerCopies(k) ==> f.tracker.HandFinger? && f.target == BoneOf(bones, f.tracker.bone)
  {
    var k := InitJoints(j, s, true, bones);
    RunTargets(FingerFields(k), s, FingerBones, bones);
  }

  /** Initializing twice is initializing once (OnValidate and Awake both initialize). */
  lemma InitializeIdempotent(j: XRIJoints, s: Side, human: bool, bones: map<HandBone, Transform?>)
    ensures InitJoints(InitJoints(j, s, human, bones), s, human, bones) == InitJoints(j, s, human, bones)
  {
  }

  class XRIHandMapper {
    /** The PoseMapper part. Its Notify is overridden here, so its counter of the
        abstract Notify is never advanced. */
    const base: PoseMapper
    /** Type: which hand this mapper follows. */
    var side: Side
    /** The serialized joint fields. */
    var joints: XRIJoints
    /** m_fingers: copies of the fields, taken by Initialize. */
    var fingerSet: set<Finger>
    /** The observers of this mapper. */
    const observers: ObserverSet

    /** The serialized fields; no observers, and the set is empty until Initialize
        runs. */
    constructor (found: Pose?, obj: Option<ComponentRef>, side: Side, joints: XRIJoints)
      ensures fresh(base) && base.target == found && base.referenceObject == obj && base.reference == null
      ensures base.isValid && !base.hasModified && base.notifyCount == 0
      ensures this.side == side && this.joints == joints && fingerSet == {}
      ensures fresh(observers) && observers.members == {} && observers.calls == []
    {
      base := new PoseMapper(found, obj);
      this.side := side;
      this.joints := joints;
      fingerSet := {};
      observers := new ObserverSet();
    }

    method AddObserver(o: ObserverId)
      modifies observers
      ensures observers.members == old(observers.members) + {o}
      ensures observers.calls == old(observers.calls)
    {
      observers.Add(o);
    }

    method RemoveObserver(o: ObserverId)
      modifies observers
      ensures observers.members == old(observers.members) - {o}
      ensures observers.calls == old(observers.calls)
    {
      observers.Remove(o);
    }

    /** Notify, overridden: every observer is called once. */
    method Notify()
      modifies observers
      ensures observers.members == old(observers.members)
      ensures observers.NotifiedOnce(old(observers.calls))
    {
      observers.Notify();
    }

    /** Reference (set): the PoseMapper's SetCameraRigWithoutNotice, then the
        overridden Notify. */
    method SetReference(value: CameraRig?)
      modifies base`referenceObject, base`reference, observers
      ensures base.referenceObject == AsComponent(value) && base.reference == value && base.InSync()
      ensures observers.members == old(observers.members)
      ensures observers.NotifiedOnce(old(observers.calls))
    {
      base.SetCameraRigWithoutNotice(value);
      observers.Notify();
    }

    /** Initialize: every field gets its tracker for the chosen hand and, on a humanoid
        avatar, its bone (`bones` is the avatar's bone transforms of the chosen hand,
        the hand bone under WristRoot); then the set is rebuilt from the fields. */
    method Initialize(human: bool, bones: map<HandBone, Transform?>)
      modifies this`joints, this`fingerSet
      ensures joints == InitJoints(old(joints), side, human, bones)
      ensures fingerSet == FingerCopies(joints)
    {
      var k := InitJoints(joints, side, human, bones);
      Store(k, FingerCopies(k));
    }

    /** The stores of Initialize. */
    method Store(k: XRIJoints, fs: set<Finger>)
      modifies this`joints, this`fingerSet
      ensures joints == k && fingerSet == fs
    {
      joints := k;
      fingerSet := fs;
    }

    /** InitializeOffset: not implemented; every call raises NotImplementedException
        and changes nothing. */
    method InitializeOffset() returns (raised: bool)
      ensures raised
    {
      raised := true;
    }

    /** What MapOnUpdate needs of the rig and the bones: a rig, no two joints of the set
        on one bone, and no joint on a tracker transform. */
    predicate Mappable()
      reads this, base, base.reference
    {
      base.reference != null && SeparateFingers(fingerSet, base.reference.trackers)
    }

    /** MapOnUpdate: every joint of the set that has a target is driven by its tracker,
        from the values before the walk. */
    method MapOnUpdate()
      requires Mappable()
      modifies Targets(fingerSet)`localRotation
      ensures forall f :: f in fingerSet && f.target != null ==>
                f.target.localRotation ==
                  FingerRotation(f, old(Source(base.reference.trackers, f.tracker)), old(f.target.localRotation))
    {
      MapFingers(fingerSet, base.reference.trackers);
    }

    /** OnValidate (the HandMapper's): the PoseMapper's, then Initialize. */
    method OnValidate(own: Pose?, parent: Pose?, human: bool, bones: map<HandBone, Transform?>)
      modifies base`target, base`referenceObject, base`reference, this`joints, this`fingerSet
      ensures base.target == FoundPose(own, parent) && base.InSync()
      ensures old(base.referenceObject).None? ==> base.referenceObject.None? && base.reference == null
      ensures old(base.referenceObject).Some? && FoundRig(old(base.referenceObject).value).Some? ==>
                base.referenceObject == old(base.referenceObject) &&
                base.reference == FoundRig(old(base.referenceObject).value).value
      ensures old(base.referenceObject).Some? && FoundRig(old(base.referenceObject).value).None? ==>
                base.referenceObject.None? && base.reference == null
      ensures joints == InitJoints(old(joints), side, human, bones)
      ensures fingerSet == FingerCopies(joints)
    {
      base.OnValidate(own, parent);
      Initialize(human, bones);
    }

    /** Awake (the HandMapper's): the PoseMapper's, whose assignments of the reference
        reach the overridden Notify, then Initialize. */
    method Awake(human: bool, bones: map<HandBone, Transform?>)
      modifies base`referenceObject, base`reference, observers, this`joints, this`fingerSet
      ensures observers.members == old(observers.members)
      ensures old(base.referenceObject).None? ==>
                base.referenceObject.None? && base.reference == null && observers.NotifiedOnce(old(observers.calls))
      ensures old(base.referenceObject).Some? && FoundRig(old(base.referenceObject).value).Some? ==>
                base.reference == FoundRig(old(base.referenceObject).value).value &&
                base.referenceObject == Some(RigComponent(base.reference)) &&
                observers.NotifiedOnce(old(observers.calls))
      ensures old(base.referenceObject).Some? && FoundRig(old(base.referenceObject).value).None? ==>
                base.referenceObject == old(base.referenceObject) && base.reference == old(base.reference) &&
                observers.calls == old(observers.calls)
      ensures joints == InitJoints(old(joints), side, human, bones)
      ensures fingerSet == FingerCopies(joints)
    {
      if base.referenceObject.None? {
        SetReference(null);
      } else if FoundRig(base.referenceObject.value).Some? {
        SetReference(FoundRig(base.referenceObject.value).value);
      }
      Initialize(human, bones);
    }

    /** Update (the PoseMapper's): the modified flag is cleared and, while the latching
        IsValid holds, MapOnUpdate runs. */
    method Update() returns (mapped: bool)
      requires base.isValid && base.target != null ==> Mappable()
      modifies base`hasModified, base`isValid, Targets(fingerSet)`localRotation
      ensures !base.hasModified
      ensures base.isValid == (old(base.isValid) && base.target != null)
      ensures mapped == base.isValid
      ensures !mapped ==> unchanged(Targets(fingerSet))
      ensures mapped ==> forall f :: f in fingerSet && f.target != null ==>
                f.target.localRotation ==
                  FingerRotation(f, old(Source(base.reference.trackers, f.tracker)), old(f.target.localRotation))
    {
      mapped := base.Update();
      if mapped {
        MapOnUpdate();
      }
    }
  }
}
