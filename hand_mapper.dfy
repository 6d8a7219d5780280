// HandMapper: the PoseMapper that maps the finger trackers of one hand onto the finger
// bones of a humanoid pose. A Finger joint follows one tracker, a DoubleFinger joint
// the product of two; the concrete mappers keep their joints as struct fields and copy
// them into HashSets when they initialize, and MapOnUpdate walks those sets.
module HandMapperModel {
  import opened Wrappers
  import opened Geometry
  import opened PoseModel
  import opened CameraRigs
  import opened TrackerTypes
  import opened Utilities
  import opened PoseMapperModel

  /** Finger: the tracker a joint follows, the offset applied to it, and the bone
      transform it drives (null when the avatar has none). */
  datatype Finger = Finger(tracker: TrackerType, offset: Quat, target: Transform?)
  {
    predicate HasTarget() { target != null }
  }

  /** DoubleFinger: a joint driven by two trackers, each with its own offset. */
  datatype DoubleFinger = DoubleFinger(tracker0: TrackerType, offset0: Quat, tracker1: TrackerType, offset1: Quat,
                                       target: Transform?)
  {
    predicate HasTarget() { target != null }
  }

  /** Animator.GetBoneTransform: the avatar's transform of a bone, null when the avatar
      has none. */
  function BoneOf(bones: map<HandBone, Transform?>, b: HandBone): (r: Transform?)
    ensures b !in bones ==> r == null
    ensures b in bones ==> r == bones[b]
  {
    if b in bones then bones[b] else null
  }

  /** Initialize (of either concrete mapper) on one Finger field: the tracker of its bone on the chosen hand and, on a
      humanoid avatar, the avatar's transform of that bone as its target. */
  function InitField(f: Finger, s: Side, b: HandBone, human: bool, bones: map<HandBone, Transform?>): (r: Finger)
    ensures r.tracker == HandFinger(s, b) && r.offset == f.offset
    ensures human ==> r.target == BoneOf(bones, b)
    ensures !human ==> r.target == f.target
  {
    f.(tracker := HandFinger(s, b), target := if human then BoneOf(bones, b) else f.target)
  }

  /** The local rotation SetProperties(Finger) leaves in a target holding `current`,
      given the tracker transform's values when the rig has that tracker: the tracker's
      local rotation seen in the frame of the offset, or no change. */
  function FingerRotation(f: Finger, src: Option<TransformState>, current: Quat): (r: Quat)
    ensures src.None? ==> r == current
    ensures src.Some? && f.offset == Identity ==> r == src.value.localRotation
  {
    if src.Some? then Multiply(src.value.localRotation, f.offset) else current
  }

  /** The local rotation SetProperties(DoubleFinger) leaves: the product of both
      trackers' rotations, each in the frame of its offset, when the rig has both
      trackers; no change when either is missing. */
  function DoubleRotation(d: DoubleFinger, src0: Option<TransformState>, src1: Option<TransformState>,
                          current: Quat): (r: Quat)
    ensures src0.None? || src1.None? ==> r == current
    ensures src0.Some? && src1.Some? && d.offset0 == Identity && d.offset1 == Identity ==>
              r == Mul(src0.value.localRotation, src1.value.localRotation)
  {
    if src0.Some? && src1.Some? then
      Mul(Multiply(src0.value.localRotation, d.offset0), Multiply(src1.value.localRotation, d.offset1))
    else current
  }

  /** The bone transforms a set of joints drives. */
  function Targets(fs: set<Finger>): (r: set<Transform>)
    ensures forall f :: f in fs && f.target != null ==> f.target in r
  {
    set f | f in fs && f.target != null :: f.target as Transform
  }

  function DoubleTargets(ds: set<DoubleFinger>): (r: set<Transform>)
    ensures forall d :: d in ds && d.target != null ==> d.target in r
  {
    set d | d in ds && d.target != null :: d.target as Transform
  }

  /** No two joints of the set drive the same bone, and no joint drives a tracker
      transform of the rig (the walk over a HashSet has no fixed order, so only then is
      its outcome the same in every order). */
  predicate SeparateFingers(fs: set<Finger>, rig: seq<TrackerEntry>)
  {
    && (forall f, g :: f in fs && g in fs && f != g && f.target != null ==> f.target != g.target)
    && (forall f :: f in fs && f.target != null ==> f.target !in Values(rig))
  }

  predicate SeparateDoubles(ds: set<DoubleFinger>, rig: seq<TrackerEntry>)
  {
    && (forall d, e :: d in ds && e in ds && d != e && d.target != null ==> d.target != e.target)
    && (forall d :: d in ds && d.target != null ==> d.target !in Values(rig))
  }

  /** SetProperties(Finger): no target, or no tracker of its type, writes nothing;
      otherwise the target's local rotation is the tracker's in the offset's frame. */
  method SetFinger(f: Finger, rig: seq<TrackerEntry>)
    requires f.target != null ==> f.target !in Values(rig)
    modifies (if f.target == null then {} else {f.target})`localRotation
    ensures f.target != null ==>
              f.target.localRotation == FingerRotation(f, old(Source(rig, f.tracker)), old(f.target.localRotation))
  {
    if f.target == null {
      return;
    }
    var t := Lookup(rig, f.tracker);
    if t.Some? {
      f.target.localRotation := Multiply(t.value.localRotation, f.offset);
    }
  }

  /** SetProperties(DoubleFinger): both trackers are needed for a write. */
  method SetDouble(d: DoubleFinger, rig: seq<TrackerEntry>)
    requires d.target != null ==> d.target !in Values(rig)
    modifies (if d.target == null then {} else {d.target})`localRotation
    ensures d.target != null ==>
              d.target.localRotation ==
                DoubleRotation(d, old(Source(rig, d.tracker0)), old(Source(rig, d.tracker1)), old(d.target.localRotation))
  {
    if d.target == null {
      return;
    }
    var t0 := Lookup(rig, d.tracker0);
    var t1 := Lookup(rig, d.tracker1);
    if t0.Some? && t1.Some? {
      var offset0 := Multiply(t0.value.localRotation, d.offset0);
      var offset1 := Multiply(t1.value.localRotation, d.offset1);
      d.target.localRotation := Mul(offset0, offset1);
    }
  }

  /** The foreach over a HashSet of Finger copies, in whatever order the set yields
      them: every joint with a target ends as FingerRotation says, from the values
      before the walk. */
  method MapFingers(fs: set<Finger>, rig: seq<TrackerEntry>)
    requires SeparateFingers(fs, rig)
    modifies Targets(fs)`localRotation
    ensures forall f :: f in fs && f.target != null ==>
              f.target.localRotation == FingerRotation(f, old(Source(rig, f.tracker)), old(f.target.localRotation))
  {
    var rest := fs;
    while rest != {}
      invariant rest <= fs
      invariant forall k :: Source(rig, k) == old(Source(rig, k))
      invariant forall f :: f in rest && f.target != null ==> f.target.localRotation == old(f.target.localRotation)
      invariant forall f :: f in fs - rest && f.target != null ==>
                  f.target.localRotation == FingerRotation(f, old(Source(rig, f.tracker)), old(f.target.localRotation))
      decreases |rest|
    {
      var f :| f in rest;
      SetFinger(f, rig);
      rest := rest - {f};
    }
  }

  /** The foreach over the HashSet of DoubleFinger copies. */
  method MapDoubles(ds: set<DoubleFinger>, rig: seq<TrackerEntry>)
    requires SeparateDoubles(ds, rig)
    modifies DoubleTargets(ds)`localRotation
    ensures forall d :: d in ds && d.target != null ==>
              d.target.localRotation ==
                DoubleRotation(d, old(Source(rig, d.tracker0)), old(Source(rig, d.tracker1)), old(d.target.localRotation))
  {
    var rest := ds;
    while rest != {}
      invariant rest <= ds
      invariant forall k :: Source(rig, k) == old(Source(rig, k))
      invariant forall d :: d in rest && d.target != null ==> d.target.localRotation == old(d.target.localRotation)
      invariant forall d :: d in ds - rest && d.target != null ==>
                  d.target.localRotation ==
                    DoubleRotation(d, old(Source(rig, d.tracker0)), old(Source(rig, d.tracker1)), old(d.target.localRotation))
      decreases |rest|
    {
      var d :| d in rest;
      SetDouble(d, rig);
      rest := rest - {d};
    }
  }

  /** Where the bone of a finger tracker lies in its hand's block (0 for any other
      tracker). */
  function BoneRank(f: Finger): (k: nat)
    ensures f.tracker.HandFinger? ==> k == BoneOrdinal(f.tracker.bone)
  {
    if f.tracker.HandFinger? then BoneOrdinal(f.tracker.bone) else 0
  }

  /** Every joint of `fs` lies further down the hand than the one before it. */
  predicate Ascending(fs: seq<Finger>)
  {
    forall i :: 0 <= i < |fs| - 1 ==> BoneRank(fs[i]) < BoneRank(fs[i + 1])
  }

  /** Every joint of an ascending run after the first lies further down the hand than
      the first. */
  lemma {:induction false} RanksAbove(fs: seq<Finger>, j: nat)
    requires Ascending(fs)
    requires 0 < j < |fs|
    ensures BoneRank(fs[0]) < BoneRank(fs[j])
  {
    if j > 1 {
      RanksAbove(fs, j - 1);
    }
  }

  /** A HashSet built from an ascending run of joints holds one copy per joint. */
  lemma {:induction false} CopiesSize(fs: seq<Finger>)
    requires Ascending(fs)
    ensures |set f | f in fs| == |fs|
  {
    if fs != [] {
      var rest := fs[1..];
      assert Ascending(rest) by {
        forall i | 0 <= i < |rest| - 1
          ensures BoneRank(rest[i]) < BoneRank(rest[i + 1])
        {
          assert rest[i] == fs[i + 1] && rest[i + 1] == fs[i + 2];
        }
      }
      CopiesSize(rest);
      forall j | 0 <= j < |rest|
        ensures rest[j] != fs[0]
      {
        RanksAbove(fs, j + 1);
      }
      assert fs[0] !in rest;
      assert (set f | f in fs) == (set f | f in rest) + {fs[0]} by {
        assert fs == [fs[0]] + rest;
      }
    }
  }

  /** Bones listed in the order of the enumeration, without repeats. */
  predicate BonesAscending(bs: seq<HandBone>)
  {
    forall i :: 0 <= i < |bs| - 1 ==> BoneOrdinal(bs[i]) < BoneOrdinal(bs[i + 1])
  }

  /** Joints that follow the trackers of ascending bones of one hand, one bone each,
      make a HashSet with one copy per joint. */
  lemma RunSize(fs: seq<Finger>, s: Side, bs: seq<HandBone>)
    requires |fs| == |bs| && BonesAscending(bs)
    requires forall i :: 0 <= i < |fs| ==> fs[i].tracker == HandFinger(s, bs[i])
    ensures |set f | f in fs| == |fs|
  {
    assert Ascending(fs);
    CopiesSize(fs);
  }

  /** Joints that follow the trackers of the listed bones of one hand follow trackers
      of that hand and of those bones only. */
  lemma RunMembers(fs: seq<Finger>, s: Side, bs: seq<HandBone>)
    requires |fs| == |bs|
    requires forall i :: 0 <= i < |fs| ==> fs[i].tracker == HandFinger(s, bs[i])
    ensures forall f :: f in fs ==> f.tracker.HandFinger? && f.tracker.side == s && f.tracker.bone in bs
  {
    forall f | f in fs
      ensures f.tracker.HandFinger? && f.tracker.side == s && f.tracker.bone in bs
    {
      var i :| 0 <= i < |fs| && fs[i] == f;
      assert bs[i] in bs;
    }
  }

  /** Joints that follow the trackers of the listed bones and drive the avatar's
      transforms of those bones each drive the bone of their own tracker. */
  lemma RunTargets(fs: seq<Finger>, s: Side, bs: seq<HandBone>, bones: map<HandBone, Transform?>)
    requires |fs| == |bs|
    requires forall i :: 0 <= i < |fs| ==> fs[i].tracker == HandFinger(s, bs[i]) && fs[i].target == BoneOf(bones, bs[i])
    ensures forall f :: f in fs ==> f.tracker.HandFinger? && f.target == BoneOf(bones, f.tracker.bone)
  {
    forall f | f in fs
      ensures f.tracker.HandFinger? && f.target == BoneOf(bones, f.tracker.bone)
    {
      var i :| 0 <= i < |fs| && fs[i] == f;
    }
  }

  /** The abstract HandMapper: OnValidate and Awake run the PoseMapper's, then the
      concrete mapper's Initialize, which the model logs with the target and rig it
      finds (so it sees the state the base step leaves). */
  class HandMapper {
    const base: PoseMapper
    /** Type: which hand this mapper follows. */
    var side: Side
    /** The calls of the abstract Initialize, each with the target and rig it saw. */
    var initialized: seq<(Pose?, CameraRig?)>

    constructor (found: Pose?, obj: Option<ComponentRef>, side: Side)
      ensures fresh(base) && base.target == found && base.referenceObject == obj && base.reference == null
      ensures base.isValid && !base.hasModified && base.notifyCount == 0
      ensures this.side == side && initialized == []
    {
      base := new PoseMapper(found, obj);
      this.side := side;
      initialized := [];
    }

    /** InitializeOffset, the default: the concrete mappers that keep offsets override
        it; here it leaves every field of the mapper and its base as it was. */
    method InitializeOffset()
      ensures unchanged(this, base)
    {
    }

    method OnValidate(own: Pose?, parent: Pose?)
      modifies base`target, base`referenceObject, base`reference, this`initialized
      ensures base.target == FoundPose(own, parent) && base.InSync()
      ensures old(base.referenceObject).None? ==> base.referenceObject.None? && base.reference == null
      ensures old(base.referenceObject).Some? && FoundRig(old(base.referenceObject).value).Some? ==>
                base.referenceObject == old(base.referenceObject) &&
                base.reference == FoundRig(old(base.referenceObject).value).value
      ensures old(base.referenceObject).Some? && FoundRig(old(base.referenceObject).value).None? ==>
                base.referenceObject.None? && base.reference == null
      ensures initialized == old(initialized) + [(base.target, base.reference)]
    {
      base.OnValidate(own, parent);
      initialized := initialized + [(base.target, base.reference)];
    }

    method Awake()
      modifies base`referenceObject, base`reference, base`notifyCount, this`initialized
      ensures old(base.referenceObject).None? ==>
                base.referenceObject.None? && base.reference == null &&
                base.notifyCount == old(base.notifyCount) + 1
      ensures old(base.referenceObject).Some? && FoundRig(old(base.referenceObject).value).Some? ==>
                base.reference == FoundRig(old(base.referenceObject).value).value &&
                base.referenceObject == Some(RigComponent(base.reference)) &&
                base.notifyCount == old(base.notifyCount) + 1
      ensures old(base.referenceObject).Some? && FoundRig(old(base.referenceObject).value).None? ==>
                base.referenceObject == old(base.referenceObject) && base.reference == old(base.reference) &&
                base.notifyCount == old(base.notifyCount)
      ensures old(base.referenceObject).None? || FoundRig(old(base.referenceObject).value).Some? ==> base.InSync()
      ensures initialized == old(initialized) + [(base.target, base.reference)]
    {
      base.Awake();
      initialized := initialized + [(base.target, base.reference)];
    }
  }
}
