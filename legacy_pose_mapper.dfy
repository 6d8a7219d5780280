// The legacy PoseMapper (the ISynthesizer generation, CameraRig/Pose API): the base of
// the mappers that turn a camera rig into a pose, with its own observer set. Its
// SetCameraRigWithoutNotice assigns the rig only, never the serialized component, and
// it maps on every FixedUpdate while its validity latch holds. The legacy IKMapper
// overrides the CameraRig setter: the rig is assigned, the IK targets are wired to it
// (or reset), and nothing is announced.
module LegacyPoseMapperModel {
  import opened Wrappers
  import opened PoseModel
  import opened CameraRigs
  import opened Observers
  import opened PoseMapperModel

  class PoseMapper {
    /** _cameraRig: the serialized component naming the rig. */
    var cameraRigObject: Option<ComponentRef>
    /** m_cameraRig: the rig MapOnUpdate reads. */
    var cameraRig: CameraRig?
    /** m_pose: the pose this mapper writes. */
    var pose: Pose?
    var isValid: bool
    /** m_observers. */
    const observers: ObserverSet

    /** The serialized defaults (valid, no rig resolved yet, no observers) with the
        given serialized pose and component. */
    constructor (found: Pose?, obj: Option<ComponentRef>)
      ensures cameraRigObject == obj && cameraRig == null && pose == found && isValid
      ensures fresh(observers) && observers.members == {} && observers.calls == []
    {
      cameraRigObject := obj;
      cameraRig := null;
      pose := found;
      isValid := true;
      observers := new ObserverSet();
    }

    /** The serialized component and the rig agree: no component and no rig, or the
        rig is the one the component resolves to. */
    predicate InSync()
      reads this
    {
      match cameraRigObject
      case None => cameraRig == null
      case Some(c) => FoundRig(c).Some? && cameraRig == FoundRig(c).value
    }

    /** Pose (set): a plain assignment. */
    method SetPose(value: Pose?)
      modifies this`pose
      ensures pose == value
    {
      pose := value;
    }

    /** IsValid (get): a missing pose forces the flag false, and the flag stays false
        after a pose appears until it is set again. */
    method GetIsValid() returns (v: bool)
      modifies this`isValid
      ensures v == isValid
      ensures isValid == (old(isValid) && pose != null)
    {
      if pose == null {
        isValid := false;
      }
      v := isValid;
    }

    /** IsValid (set): ignored in favour of false while there is no pose. */
    method SetIsValid(value: bool)
      modifies this`isValid
      ensures isValid == (pose != null && value)
    {
      if pose == null {
        isValid := false;
        return;
      }
      isValid := value;
    }

    method AddObserver(o: ObserverId)
      modifies observers
      ensures observers.members == old(observers.members) + {o}
      ensures observers.calls == old(observers.calls)
    {
      observers.Add(o);
    }

    method RemoveObserver(o: ObserverId)
      modifies observers
      ensures observers.members == old(observers.members) - {o}
      ensures observers.calls == old(observers.calls)
    {
      observers.Remove(o);
    }

    /** SetCameraRigWithoutNotice: the rig only; the serialized component keeps its
        value (so the two may disagree afterwards). */
    method SetCameraRigWithoutNotice(value: CameraRig?)
      modifies this`cameraRig
      ensures cameraRig == value && cameraRigObject == old(cameraRigObject)
    {
      cameraRig := value;
    }

    /** CameraRig (set): SetCameraRigWithoutNotice, then every observer is notified
        once, whether or not anything changed. */
    method SetCameraRig(value: CameraRig?)
      modifies this`cameraRig, observers
      ensures cameraRig == value && cameraRigObject == old(cameraRigObject)
      ensures observers.members == old(observers.members)
      ensures observers.NotifiedOnce(old(observers.calls))
    {
      SetCameraRigWithoutNotice(value);
      observers.Notify();
    }

    /** Awake: no component assigns (and announces) no rig; a component that resolves
        assigns (and announces) its rig; a component that does not resolve changes
        nothing and announces nothing. The component itself is never rewritten. */
    method Awake()
      modifies this`cameraRig, observers
      ensures cameraRigObject == old(cameraRigObject) && observers.members == old(observers.members)
      ensures cameraRigObject.None? ==> cameraRig == null && observers.NotifiedOnce(old(observers.calls))
      ensures cameraRigObject.Some? && FoundRig(cameraRigObject.value).Some? ==>
                cameraRig == FoundRig(cameraRigObject.value).value && observers.NotifiedOnce(old(observers.calls))
      ensures cameraRigObject.Some? && FoundRig(cameraRigObject.value).None? ==>
                cameraRig == old(cameraRig) && observers.calls == old(observers.calls)
      ensures cameraRigObject.None? || FoundRig(cameraRigObject.value).Some? ==> InSync()
    {
      if cameraRigObject.None? {
        SetCameraRig(null);
      } else if FoundRig(cameraRigObject.value).Some? {
        SetCameraRig(FoundRig(cameraRigObject.value).value);
      }
    }

    /** OnValidate: the pose becomes the Pose on the game object (`found`); the rig is
        resolved from the component again, and a component that does not resolve is
        cleared. Nothing is announced, and afterwards the two agree. */
    method OnValidate(found: Pose?)
      modifies this`pose, this`cameraRigObject, this`cameraRig
      ensures pose == found
      ensures old(cameraRigObject).None? ==> cameraRigObject.None? && cameraRig == null
      ensures old(cameraRigObject).Some? && FoundRig(old(cameraRigObject).value).Some? ==>
                cameraRigObject == old(cameraRigObject) && cameraRig == FoundRig(old(cameraRigObject).value).value
      ensures old(cameraRigObject).Some? && FoundRig(old(cameraRigObject).value).None? ==>
                cameraRigObject.None? && cameraRig == null
      ensures InSync()
    {
      pose := found;
      if cameraRigObject.None? {
        cameraRig := null;
      } else if FoundRig(cameraRigObject.value).Some? {
        cameraRig := FoundRig(cameraRigObject.value).value;
      } else {
        cameraRigObject := None;
        cameraRig := null;
      }
    }

    /** FixedUpdate: the abstract MapOnUpdate runs exactly when the latching IsValid
        says so. */
    method FixedUpdate() returns (mapped: bool)
      modifies this`isValid
      ensures isValid == (old(isValid) && pose != null)
      ensures mapped == isValid
    {
      mapped := GetIsValid();
    }
  }

  class IKMapper {
    /** The PoseMapper part. */
    const base: PoseMapper
    /** The calls of SetIKTargets and ResetIKTargets, in order. */
    var ikCalls: seq<IKCall>

    constructor (found: Pose?, obj: Option<ComponentRef>)
      ensures fresh(base) && base.cameraRigObject == obj && base.cameraRig == null && base.pose == found
      ensures base.isValid && fresh(base.observers) && base.observers.members == {} && base.observers.calls == []
      ensures ikCalls == []
    {
      base := new PoseMapper(found, obj);
      ikCalls := [];
    }

    /** CameraRig (set), overridden: the rig is assigned, then the IK targets are wired
        to it, or reset when it is null; no observer is notified. */
    method SetCameraRig(value: CameraRig?)
      modifies base`cameraRig, this`ikCalls
      ensures base.cameraRig == value
      ensures ikCalls == old(ikCalls) + [HookFor(value)]
    {
      base.cameraRig := value;
      ikCalls := ikCalls + [HookFor(value)];
    }

    /** Awake (the base's), dispatching to the overridden setter: the three cases of
        the PoseMapper's, each assignment calling an IK hook and none announced. */
    method Awake()
      modifies base`cameraRig, this`ikCalls
      ensures base.cameraRigObject.None? ==> base.cameraRig == null && ikCalls == old(ikCalls) + [ResetIKTargets]
      ensures base.cameraRigObject.Some? && FoundRig(base.cameraRigObject.value).Some? ==>
                base.cameraRig == FoundRig(base.cameraRigObject.value).value &&
                ikCalls == old(ikCalls) + [SetIKTargets(FoundRig(base.cameraRigObject.value).value)]
      ensures base.cameraRigObject.Some? && FoundRig(base.cameraRigObject.value).None? ==>
                base.cameraRig == old(base.cameraRig) && ikCalls == old(ikCalls)
      ensures base.cameraRigObject.None? || FoundRig(base.cameraRigObject.value).Some? ==> base.InSync()
    {
      if base.cameraRigObject.None? {
        SetCameraRig(null);
      } else if FoundRig(base.cameraRigObject.value).Some? {
        SetCameraRig(FoundRig(base.cameraRigObject.value).value);
      }
    }

    /** FixedUpdate: MapOnUpdate is empty here, so a tick only updates the latch. */
    method FixedUpdate() returns (mapped: bool)
      modifies base`isValid
      ensures base.isValid == (old(base.isValid) && base.pose != null)
      ensures mapped == base.isValid
    {
      mapped := base.FixedUpdate();
    }
  }
}
