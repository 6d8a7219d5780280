// PoseRemapperMultipleReferences: the base of the transformers that turn several
// reference poses into one target pose. It owns the target, the reference list, the
// validity latch and the modified flag; what a subclass does on a tick (RemapOnUpdate)
// and how it notifies (Notify) are its abstract hooks, which the model records: Update
// returns whether it would call RemapOnUpdate, and every Notify is counted.
module MultipleReferencesModel {
  import opened PoseModel
  import opened Lists

  class PoseRemapperMultipleReferences {
    var target: Pose?
    var references: seq<Pose?>
    var isValid: bool
    var hasModified: bool
    /** How many times LateUpdate has called the abstract Notify. */
    var notifyCount: nat

    /** The serialized defaults: no references, valid, not modified; the target is
        the one OnValidate or Awake found on the game object. */
    constructor (target: Pose?)
      ensures this.target == target && references == []
      ensures isValid && !hasModified && notifyCount == 0
    {
      this.target := target;
      references := [];
      isValid := true;
      hasModified := false;
      notifyCount := 0;
    }

    /** IsValid (get): a missing target forces the flag false, and the flag stays
        false after a target appears until it is set again. */
    method GetIsValid() returns (v: bool)
      modifies this`isValid
      ensures v == isValid
      ensures isValid == (old(isValid) && target != null)
    {
      if target == null {
        isValid := false;
      }
      v := isValid;
    }

    /** IsValid (set): ignored in favour of false while there is no target. */
    method SetIsValid(value: bool)
      modifies this`isValid
      ensures isValid == (target != null && value)
    {
      if target == null {
        isValid := false;
        return;
      }
      isValid := value;
    }

    /** Target (set): a plain assignment; the latch is not touched. */
    method SetTarget(t: Pose?)
      modifies this`target
      ensures target == t
    {
      target := t;
    }

    /** References (set): replaces the list wholesale. */
    method SetReferences(refs: seq<Pose?>)
      modifies this`references
      ensures references == refs
    {
      references := refs;
    }

    /** AddPose: a null pose is refused, a present one is not added twice. */
    method AddPose(pose: Pose?)
      modifies this`references
      ensures pose == null || pose in old(references) ==> references == old(references)
      ensures pose != null && pose !in old(references) ==> references == old(references) + [pose]
      ensures NoDuplicates(old(references)) ==> NoDuplicates(references)
    {
      if pose == null {
        return;
      }
      if pose !in references {
        references := references + [pose];
      }
    }

    /** RemovePose: a null or absent pose changes nothing; otherwise the first
        occurrence goes. */
    method RemovePose(pose: Pose?)
      modifies this`references
      ensures pose == null || pose !in old(references) ==> references == old(references)
      ensures pose != null && pose in old(references) ==> references == RemoveFirst(old(references), pose)
      ensures NoDuplicates(old(references)) ==> NoDuplicates(references) && (pose != null ==> pose !in references)
    {
      if pose == null {
        return;
      }
      if pose in references {
        if NoDuplicates(references) {
          RemoveFirstNoDuplicates(references, pose);
        }
        references := RemoveFirst(references, pose);
      }
    }

    /** OnValidate: the target becomes the pose found on the game object or, failing
        that, on a parent (the lookup is the parameter). */
    method OnValidate(found: Pose?)
      modifies this`target
      ensures target == found
    {
      target := found;
    }

    /** Awake: the same lookup, but only while no target is assigned. */
    method Awake(found: Pose?)
      modifies this`target
      ensures old(target) != null ==> target == old(target)
      ensures old(target) == null ==> target == found
    {
      if target == null {
        target := found;
      }
    }

    /** Update, first phase of a tick: clears the modified flag, then asks for
        RemapOnUpdate when the raw flag (not the latching property) is set and there
        is at least one reference. */
    method Update() returns (remap: bool)
      modifies this`hasModified
      ensures !hasModified
      ensures remap <==> isValid && |references| > 0
    {
      hasModified := false;
      remap := isValid && |references| > 0;
    }

    /** LateUpdate, second phase: Notify runs exactly when the tick modified
        something. */
    method LateUpdate()
      modifies this`notifyCount
      ensures notifyCount == old(notifyCount) + (if hasModified then 1 else 0)
    {
      if hasModified {
        notifyCount := notifyCount + 1;
      }
    }
  }
}
