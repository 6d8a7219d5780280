// The oldest PoseRemapper (RefPose/Pose generation, no observers): the base of the
// legacy root-bone redirector. RefPose and Pose are both the reference field;
// RemapOnUpdate is abstract and FixedUpdate returns whether it calls it.
module LegacyPoseRemapperModel {
  import opened PoseModel

  class LegacyPoseRemapper {
    var refPose: Pose?
    var pose: Pose?
    var isValid: bool

    /** The serialized defaults and OnValidate, which takes the Pose found on the
        game object as the result pose. */
    constructor (found: Pose?)
      ensures pose == found && refPose == null && isValid
    {
      pose := found;
      refPose := null;
      isValid := true;
    }

    /** RefPose (set): a plain assignment, with no other effect. */
    method SetRefPose(value: Pose?)
      modifies this`refPose
      ensures refPose == value && pose == old(pose) && isValid == old(isValid)
    {
      refPose := value;
    }

    /** Pose (get): returns the reference, not the result pose. */
    function GetPose(): (p: Pose?)
      reads this
      ensures p == refPose
    {
      refPose
    }

    /** Pose (set): writes the reference, not the result pose. */
    method SetPose(value: Pose?)
      modifies this`refPose
      ensures refPose == value && pose == old(pose) && GetPose() == value
    {
      refPose := value;
    }

    /** IsValid (get): forced to false, and latched, while the result pose is missing. */
    method GetIsValid() returns (v: bool)
      modifies this`isValid
      ensures v == isValid
      ensures isValid == (old(isValid) && pose != null)
    {
      if pose == null {
        isValid := false;
      }
      v := isValid;
    }

    /** IsValid (set): without a result pose the value is ignored in favour of false. */
    method SetIsValid(value: bool)
      modifies this`isValid
      ensures isValid == (pose != null && value)
    {
      if pose == null {
        isValid := false;
        return;
      }
      isValid := value;
    }

    /** OnValidate: the result pose becomes the Pose found on the game object. */
    method FindPose(found: Pose?)
      modifies this`pose
      ensures pose == found
    {
      pose := found;
    }

    /** FixedUpdate: RemapOnUpdate runs exactly when IsValid holds. */
    method FixedUpdate() returns (remap: bool)
      modifies this`isValid
      ensures isValid == (old(isValid) && pose != null)
      ensures remap == isValid
    {
      remap := GetIsValid();
    }
  }
}
