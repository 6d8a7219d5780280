// PoseOffsetter: every bone of the result pose becomes the matching bone of the
// reference pose (by index in the flattened bone list), plus the matching bone of
// an offset pose, for position and rotation separately.
module PoseOffsetterModel {
  import opened Geometry
  import opened PoseModel
  import opened RefPoseRemapperModel

  /** What one pass of the loop leaves in a bone that held `bone`, given the values
      of its reference bone and its offset bone. Position: None (and any other value)
      copies the reference's local position, Local adds the offset's local position,
      Global writes the sum of the world positions. Rotation: None copies the
      reference's local rotation, Local is offset * reference on local rotations,
      Global the same on world rotations. What a policy does not name keeps its value. */
  function Offset(bone: TransformState, ref: TransformState, off: TransformState,
                  position: Space, rotation: Space): (r: TransformState)
    ensures r.localPosition == (match position
                                  case None => ref.localPosition
                                  case Local => ref.localPosition.Add(off.localPosition)
                                  case Global => bone.localPosition)
    ensures r.position == (if position == Global then ref.position.Add(off.position) else bone.position)
    ensures r.localRotation == (match rotation
                                  case None => ref.localRotation
                                  case Local => Mul(off.localRotation, ref.localRotation)
                                  case Global => bone.localRotation)
    ensures r.rotation == (if rotation == Global then Mul(off.rotation, ref.rotation) else bone.rotation)
    ensures r.localEulerAngles == bone.localEulerAngles
  {
    var p := match position
      case None => bone.(localPosition := ref.localPosition)
      case Local => bone.(localPosition := ref.localPosition.Add(off.localPosition))
      case Global => bone.(position := ref.position.Add(off.position));
    match rotation
    case None => p.(localRotation := ref.localRotation)
    case Local => p.(localRotation := Mul(off.localRotation, ref.localRotation))
    case Global => p.(rotation := Mul(off.rotation, ref.rotation))
  }

  /** An offset bone at rest (zero offset, identity rotation, in the space the policy
      names) leaves the reference values unchanged: the result bone copies the
      reference in that space. */
  lemma RestOffsetCopies(bone: TransformState, ref: TransformState, off: TransformState,
                         position: Space, rotation: Space)
    requires position == Local ==> off.localPosition == Zero
    requires position == Global ==> off.position == Zero
    requires rotation == Local ==> off.localRotation == Identity
    requires rotation == Global ==> off.rotation == Identity
    ensures position != Global ==> Offset(bone, ref, off, position, rotation).localPosition == ref.localPosition
    ensures position == Global ==> Offset(bone, ref, off, position, rotation).position == ref.position
    ensures rotation != Global ==> Offset(bone, ref, off, position, rotation).localRotation == ref.localRotation
    ensures rotation == Global ==> Offset(bone, ref, off, position, rotation).rotation == ref.rotation
  {
    var v := ref.localPosition;
    assert v.Add(Zero) == v;
    var w := ref.position;
    assert w.Add(Zero) == w;
  }

  /** The offset pose only matters through the policies: with both None the result
      bone is the reference bone's local values, whatever the offset. */
  lemma NoneIgnoresOffset(bone: TransformState, ref: TransformState, off1: TransformState, off2: TransformState)
    ensures Offset(bone, ref, off1, Space.None, Space.None) == Offset(bone, ref, off2, Space.None, Space.None)
    ensures Offset(bone, ref, off1, Space.None, Space.None) ==
              bone.(localPosition := ref.localPosition, localRotation := ref.localRotation)
  {
  }

  /** The tick is idempotent: offsetting a bone that is already offset from the same
      reference and offset bones changes nothing. */
  lemma OffsetIdempotent(bone: TransformState, ref: TransformState, off: TransformState,
                         position: Space, rotation: Space)
    ensures Offset(Offset(bone, ref, off, position, rotation), ref, off, position, rotation) ==
              Offset(bone, ref, off, position, rotation)
  {
  }

  /** One pass of the loop: the position switch, then the rotation switch. */
  method OffsetBone(bone: Transform, refBone: Transform, offsetBone: Transform, position: Space, rotation: Space)
    requires bone != refBone && bone != offsetBone
    modifies bone
    ensures StateOf(bone) == Offset(old(StateOf(bone)), StateOf(refBone), StateOf(offsetBone), position, rotation)
  {
    match position {
      case None => bone.localPosition := refBone.localPosition;
      case Local => bone.localPosition := refBone.localPosition.Add(offsetBone.localPosition);
      case Global => bone.position := refBone.position.Add(offsetBone.position);
    }
    match rotation {
      case None => bone.localRotation := refBone.localRotation;
      case Local => bone.localRotation := Mul(offsetBone.localRotation, refBone.localRotation);
      case Global => bone.rotation := Mul(offsetBone.rotation, refBone.rotation);
    }
  }

  /** What the tick needs: all three poses, the reference and offset poses at least
      as long as the result pose (the loop indexes them by the result's bone index),
      the result's bones distinct and none of them a reference or offset bone. */
  predicate Offsettable(pose: Pose?, refPose: Pose?, offset: Pose?)
    reads pose, refPose, offset
  {
    pose != null && refPose != null && offset != null &&
    |refPose.Contents()| >= |pose.Contents()| && |offset.Contents()| >= |pose.Contents()| &&
    DistinctJoints(pose.Contents()) &&
    Disjoint(pose.Contents(), refPose.Contents()) && Disjoint(pose.Contents(), offset.Contents())
  }

  class PoseOffsetter {
    /** The PoseRemapper part: result pose, reference, latch and observers. */
    const base: RefPoseRemapper
    var position: Space
    var rotation: Space
    var offset: Pose?

    /** The serialized defaults: None for both policies, no offset pose. */
    constructor (found: Pose?)
      ensures fresh(base) && base.pose == found && base.refPose == null && base.isValid
      ensures position == Space.None && rotation == Space.None && offset == null
    {
      base := new RefPoseRemapper(found);
      position := Space.None;
      rotation := Space.None;
      offset := null;
    }

    /** RemapOnUpdate: bone i of the result pose is offset from bone i of the
        reference by bone i of the offset pose (those two poses are only read, as the
        modifies clause and Offsettable's disjointness say). */
    method RemapOnUpdate()
      requires Offsettable(base.pose, base.refPose, offset)
      modifies Transforms(base.pose.Contents())
      ensures forall i :: 0 <= i < |base.pose.Contents()| ==>
                StateOf(base.pose.Contents()[i].transform) ==
                  Offset(old(StateOf(base.pose.Contents()[i].transform)), StateOf(base.refPose.Contents()[i].transform),
                         StateOf(offset.Contents()[i].transform), position, rotation)
    {
      OffsetAll(Transforms(base.pose.Contents()), Transforms(base.refPose.Contents()), Transforms(offset.Contents()),
                position, rotation);
    }

    /** FixedUpdate: the base's IsValid decides whether RemapOnUpdate runs. */
    method FixedUpdate() returns (remapped: bool)
      requires base.isValid && base.pose != null ==> Offsettable(base.pose, base.refPose, offset)
      modifies base`isValid, if base.pose == null then [] else Transforms(base.pose.Contents())
      ensures base.isValid == (old(base.isValid) && base.pose != null)
      ensures remapped == base.isValid
      ensures !remapped && base.pose != null ==> forall i :: 0 <= i < |base.pose.Contents()| ==>
                StateOf(base.pose.Contents()[i].transform) == old(StateOf(base.pose.Contents()[i].transform))
      ensures remapped ==> forall i :: 0 <= i < |base.pose.Contents()| ==>
                StateOf(base.pose.Contents()[i].transform) ==
                  Offset(old(StateOf(base.pose.Contents()[i].transform)), StateOf(base.refPose.Contents()[i].transform),
                         StateOf(offset.Contents()[i].transform), position, rotation)
    {
      if base.pose != null {
        base.pose.ContentsAllocated();
      }
      remapped := base.FixedUpdate();
      if remapped {
        RemapOnUpdate();
      }
    }
  }

  /** The loop of RemapOnUpdate, over the bones' transforms: bone i from reference
      bone i and offset bone i. */
  method OffsetAll(bones: seq<Transform>, refs: seq<Transform>, offs: seq<Transform>, position: Space, rotation: Space)
    requires |refs| >= |bones| && |offs| >= |bones|
    requires forall i, j :: 0 <= i < j < |bones| ==> bones[i] != bones[j]
    requires forall i, j :: 0 <= i < |bones| && 0 <= j < |refs| ==> bones[i] != refs[j]
    requires forall i, j :: 0 <= i < |bones| && 0 <= j < |offs| ==> bones[i] != offs[j]
    modifies bones
    ensures forall i :: 0 <= i < |bones| ==>
              StateOf(bones[i]) == Offset(old(StateOf(bones[i])), StateOf(refs[i]), StateOf(offs[i]), position, rotation)
  {
    var i := 0;
    while i < |bones|
      invariant 0 <= i <= |bones|
      invariant forall j :: 0 <= j < i ==>
                  StateOf(bones[j]) == Offset(old(StateOf(bones[j])), StateOf(refs[j]), StateOf(offs[j]), position, rotation)
      invariant forall j :: i <= j < |bones| ==> StateOf(bones[j]) == old(StateOf(bones[j]))
    {
      assert forall j :: 0 <= j < |refs| ==> refs[j] != bones[i];
      assert forall j :: 0 <= j < |offs| ==> offs[j] != bones[i];
      OffsetBone(bones[i], refs[i], offs[i], position, rotation);
      i := i + 1;
    }
  }
}
