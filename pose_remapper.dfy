// PoseRemapper: the base of the transformers that turn one reference pose into a
// target pose (the Target/Reference generation). It owns the two poses, the validity
// latch and the modified flag. Its Notify and RemapOnUpdate are abstract: the model
// counts the calls of Notify, and Update returns whether it calls RemapOnUpdate.
module PoseRemapperModel {
  import opened PoseModel

  class PoseRemapper {
    var target: Pose?
    var reference: Pose?
    var isValid: bool
    var hasModified: bool
    /** How many times the abstract Notify has been called. */
    var notifyCount: nat

    /** The serialized defaults (valid, not modified, no reference) and Awake, which
        takes the Pose found on the game object as the target. */
    constructor (found: Pose?)
      ensures target == found && reference == null
      ensures isValid && !hasModified && notifyCount == 0
    {
      target := found;
      reference := null;
      isValid := true;
      hasModified := false;
      notifyCount := 0;
    }

    /** IsValid (get): a missing target forces the flag to false, and it stays false
        when a target appears later, until it is set again. */
    method GetIsValid() returns (v: bool)
      modifies this`isValid
      ensures v == isValid
      ensures isValid == (old(isValid) && target != null)
    {
      if target == null {
        isValid := false;
      }
      v := isValid;
    }

    /** IsValid (set): without a target the value is ignored in favour of false. */
    method SetIsValid(value: bool)
      modifies this`isValid
      ensures isValid == (target != null && value)
    {
      if target == null {
        isValid := false;
        return;
      }
      isValid := value;
    }

    /** Target (set): a plain assignment; the latch keeps its value. */
    method SetTarget(value: Pose?)
      modifies this`target
      ensures target == value
    {
      target := value;
    }

    /** Reference (set): assigns through SetRefPoseWithoutNotice, then notifies once,
        whether or not the value changed. */
    method SetReference(value: Pose?)
      modifies this`reference, this`notifyCount
      ensures reference == value && notifyCount == old(notifyCount) + 1
    {
      SetRefPoseWithoutNotice(value);
      notifyCount := notifyCount + 1;
    }

    /** SetRefPoseWithoutNotice: assigns the reference and nothing else. */
    method SetRefPoseWithoutNotice(value: Pose?)
      modifies this`reference
      ensures reference == value
    {
      reference := value;
    }

    /** OnValidate and Awake: the target becomes the Pose found on the game object. */
    method FindTarget(found: Pose?)
      modifies this`target
      ensures target == found
    {
      target := found;
    }

    /** Update, the first phase of a frame: the modified flag is cleared, then
        RemapOnUpdate runs exactly when the latching IsValid says so. */
    method Update() returns (remap: bool)
      modifies this`hasModified, this`isValid
      ensures !hasModified
      ensures isValid == (old(isValid) && target != null)
      ensures remap == isValid
    {
      hasModified := false;
      remap := GetIsValid();
    }

    /** LateUpdate, the second phase: Notify runs exactly when the frame modified
        something. */
    method LateUpdate()
      modifies this`notifyCount
      ensures notifyCount == old(notifyCount) + (if hasModified then 1 else 0)
    {
      if hasModified {
        notifyCount := notifyCount + 1;
      }
    }
  }
}
