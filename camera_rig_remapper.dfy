// CameraRigRemapper: the base of the camera-rig transformers that turn one reference
// rig into a target rig. It owns the two rigs, the validity latch and a HashSet of
// observers; RemapOnUpdate is the subclass's hook, and FixedUpdate returns whether it
// would be called.
//
// The reference field is never assigned by this class: SetReferenceWithoutNotice
// writes the target instead, so every setter here leaves the reference as the
// constructor made it (null), and FixedUpdate never asks for RemapOnUpdate.
module CameraRigRemapperModel {
  import opened Observers
  import opened CameraRigs

  class CameraRigRemapper {
    var target: CameraRig?
    var reference: CameraRig?
    var isValid: bool
    const observers: ObserverSet

    /** The serialized defaults (valid, no reference, no observers); the target is the
        rig OnValidate found on the game object. */
    constructor (found: CameraRig?)
      ensures target == found && reference == null && isValid
      ensures fresh(observers) && observers.members == {} && observers.calls == []
    {
      target := found;
      reference := null;
      isValid := true;
      observers := new ObserverSet();
    }

    /** IsValid (get): a missing target forces the flag false, and the flag stays
        false after a target appears until it is set again. */
    method GetIsValid() returns (v: bool)
      modifies this`isValid
      ensures v == isValid
      ensures isValid == (old(isValid) && target != null)
    {
      if target == null {
        isValid := false;
      }
      v := isValid;
    }

    /** IsValid (set): ignored in favour of false while there is no target. */
    method SetIsValid(value: bool)
      modifies this`isValid
      ensures isValid == (target != null && value)
    {
      if target == null {
        isValid := false;
        return;
      }
      isValid := value;
    }

    /** Target (set): a plain assignment. */
    method SetTarget(value: CameraRig?)
      modifies this`target
      ensures target == value
    {
      target := value;
    }

    /** SetReferenceWithoutNotice: overwrites the target; the reference keeps its
        value (the modifies clause names only the target). */
    method SetReferenceWithoutNotice(rig: CameraRig?)
      modifies this`target
      ensures target == rig
    {
      target := rig;
    }

    /** Reference (set): SetReferenceWithoutNotice, then one Notify, whether or not
        anything changed. The Reference getter still answers the old reference. */
    method SetReference(value: CameraRig?)
      modifies this`target, observers
      ensures target == value
      ensures observers.members == old(observers.members)
      ensures observers.NotifiedOnce(old(observers.calls))
    {
      SetReferenceWithoutNotice(value);
      observers.Notify();
    }

    /** OnValidate: the target becomes the rig found on the game object. */
    method OnValidate(found: CameraRig?)
      modifies this`target
      ensures target == found
    {
      target := found;
    }

    /** FixedUpdate: RemapOnUpdate runs when the latching IsValid holds and there is a
        reference; with the reference still null it never runs. */
    method FixedUpdate() returns (remap: bool)
      modifies this`isValid
      ensures isValid == (old(isValid) && target != null)
      ensures remap <==> isValid && reference != null
      ensures reference == null ==> !remap
    {
      var v := GetIsValid();
      remap := v && reference != null;
    }

    method AddObserver(o: ObserverId)
      modifies observers
      ensures observers.members == old(observers.members) + {o}
      ensures observers.calls == old(observers.calls)
    {
      observers.Add(o);
    }

    method RemoveObserver(o: ObserverId)
      modifies observers
      ensures observers.members == old(observers.members) - {o}
      ensures observers.calls == old(observers.calls)
    {
      observers.Remove(o);
    }
  }
}
