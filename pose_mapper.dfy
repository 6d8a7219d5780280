// PoseMapper: the base of the transformers that turn a camera rig into a pose (the
// Target/Reference generation). It owns the target pose, the serialized component that
// names the reference rig, the rig itself, the validity latch and the modified flag.
// Its Notify and MapOnUpdate are abstract: the model counts the calls of Notify, and
// Update returns whether it calls MapOnUpdate.
//
// IKMapper overrides the reference setter so that every assignment also wires the IK
// targets to the new rig (or resets them); the model logs those hook calls.
module PoseMapperModel {
  import opened Wrappers
  import opened PoseModel
  import opened CameraRigs

  /** A serialized Component field: either a camera-rig component, or some other
      component whose game object may carry a camera rig. */
  datatype ComponentRef =
    | RigComponent(rig: CameraRig)
    | OtherComponent(id: nat, onObject: Option<CameraRig>)

  /** TryGetComponent<ICameraRig> on the component's game object: a rig component
      answers with itself, any other component with the rig on its object, if any. */
  function FoundRig(c: ComponentRef): (r: Option<CameraRig>)
    ensures c.RigComponent? ==> r == Some(c.rig)
    ensures c.OtherComponent? ==> r == c.onObject
  {
    match c
    case RigComponent(rig) => Some(rig)
    case OtherComponent(_, onObject) => onObject
  }

  /** `value as Component`: every camera rig of the package is a component; null stays
      null. */
  function AsComponent(value: CameraRig?): (r: Option<ComponentRef>)
    ensures r.None? <==> value == null
    ensures r.Some? ==> FoundRig(r.value).Some? && FoundRig(r.value).value == value
  {
    if value == null then None else Some(RigComponent(value))
  }

  /** The target of OnValidate: the Pose on the game object, else the nearest one on a
      parent. */
  function FoundPose(own: Pose?, parent: Pose?): (r: Pose?)
    ensures own != null ==> r == own
    ensures own == null ==> r == parent
  {
    if own != null then own else parent
  }

  class PoseMapper {
    var target: Pose?
    /** m_referenceObject: the serialized component naming the reference rig. */
    var referenceObject: Option<ComponentRef>
    /** m_reference: the rig MapOnUpdate reads. */
    var reference: CameraRig?
    var isValid: bool
    var hasModified: bool
    /** How many times the abstract Notify has been called. */
    var notifyCount: nat

    /** The serialized defaults (valid, not modified, no rig resolved yet) with the
        given serialized target and component. */
    constructor (found: Pose?, obj: Option<ComponentRef>)
      ensures target == found && referenceObject == obj && reference == null
      ensures isValid && !hasModified && notifyCount == 0
    {
      target := found;
      referenceObject := obj;
      reference := null;
      isValid := true;
      hasModified := false;
      notifyCount := 0;
    }

    /** The serialized component and the rig agree: no component and no rig, or the
        rig is the one the component resolves to. */
    predicate InSync()
      reads this
    {
      match referenceObject
      case None => reference == null
      case Some(c) => FoundRig(c).Some? && reference == FoundRig(c).value
    }

    /** IsValid (get): a missing target forces the flag false, and the flag stays
        false after a target appears until it is set again. */
    method GetIsValid() returns (v: bool)
      modifies this`isValid
      ensures v == isValid
      ensures isValid == (old(isValid) && target != null)
    {
      if target == null {
        isValid := false;
      }
      v := isValid;
    }

    /** IsValid (set): ignored in favour of false while there is no target. */
    method SetIsValid(value: bool)
      modifies this`isValid
      ensures isValid == (target != null && value)
    {
      if target == null {
        isValid := false;
        return;
      }
      isValid := value;
    }

    /** Target (set): a plain assignment. */
    method SetTarget(value: Pose?)
      modifies this`target
      ensures target == value
    {
      target := value;
    }

    /** SetCameraRigWithoutNotice: the component and the rig both become the given rig,
        so the two agree afterwards. */
    method SetCameraRigWithoutNotice(value: CameraRig?)
      modifies this`referenceObject, this`reference
      ensures referenceObject == AsComponent(value) && reference == value
      ensures InSync()
    {
      referenceObject := AsComponent(value);
      reference := value;
    }

    /** Reference (set): SetCameraRigWithoutNotice, then one Notify, whether or not
        anything changed. */
    method SetReference(value: CameraRig?)
      modifies this`referenceObject, this`reference, this`notifyCount
      ensures referenceObject == AsComponent(value) && reference == value
      ensures InSync()
      ensures notifyCount == old(notifyCount) + 1
    {
      SetCameraRigWithoutNotice(value);
      notifyCount := notifyCount + 1;
    }

    /** Awake: no component assigns (and announces) no rig; a component that resolves
        assigns (and announces) its rig, the component then being the rig itself; a
        component that does not resolve changes nothing and announces nothing. */
    method Awake()
      modifies this`referenceObject, this`reference, this`notifyCount
      ensures old(referenceObject).None? ==>
                referenceObject.None? && reference == null && notifyCount == old(notifyCount) + 1
      ensures old(referenceObject).Some? && FoundRig(old(referenceObject).value).Some? ==>
                reference == FoundRig(old(referenceObject).value).value &&
                referenceObject == Some(RigComponent(reference)) && notifyCount == old(notifyCount) + 1
      ensures old(referenceObject).Some? && FoundRig(old(referenceObject).value).None? ==>
                referenceObject == old(referenceObject) && reference == old(reference) &&
                notifyCount == old(notifyCount)
      ensures old(referenceObject).None? || FoundRig(old(referenceObject).value).Some? ==> InSync()
    {
      if referenceObject.None? {
        SetReference(null);
      } else if FoundRig(referenceObject.value).Some? {
        SetReference(FoundRig(referenceObject.value).value);
      }
    }

    /** OnValidate: the target becomes the Pose on the game object (or on a parent);
        the rig is resolved from the component again, and a component that does not
        resolve is cleared. Nothing is announced, and afterwards the two agree. */
    method OnValidate(own: Pose?, parent: Pose?)
      modifies this`target, this`referenceObject, this`reference
      ensures target == FoundPose(own, parent)
      ensures old(referenceObject).None? ==> referenceObject.None? && reference == null
      ensures old(referenceObject).Some? && FoundRig(old(referenceObject).value).Some? ==>
                referenceObject == old(referenceObject) && reference == FoundRig(old(referenceObject).value).value
      ensures old(referenceObject).Some? && FoundRig(old(referenceObject).value).None? ==>
                referenceObject.None? && reference == null
      ensures InSync()
    {
      target := FoundPose(own, parent);
      if referenceObject.None? {
        reference := null;
      } else if FoundRig(referenceObject.value).Some? {
        reference := FoundRig(referenceObject.value).value;
      } else {
        referenceObject := None;
        reference := null;
      }
    }

    /** Update: the modified flag is cleared, then MapOnUpdate runs exactly when the
        latching IsValid says so. */
    method Update() returns (mapped: bool)
      modifies this`hasModified, this`isValid
      ensures !hasModified
      ensures isValid == (old(isValid) && target != null)
      ensures mapped == isValid
    {
      hasModified := false;
      mapped := GetIsValid();
    }
  }

  /** A call of one of IKMapper's abstract hooks. */
  datatype IKCall = SetIKTargets(rig: CameraRig) | ResetIKTargets

  /** The hook SetCameraRigWithoutNotice calls for a rig. */
  function HookFor(value: CameraRig?): (r: IKCall)
    ensures r.ResetIKTargets? <==> value == null
    ensures r.SetIKTargets? ==> r.rig == value
  {
    if value == null then ResetIKTargets else SetIKTargets(value)
  }

  class IKMapper {
    /** The PoseMapper part. */
    const base: PoseMapper
    /** The calls of SetIKTargets and ResetIKTargets, in order. */
    var ikCalls: seq<IKCall>

    constructor (found: Pose?, obj: Option<ComponentRef>)
      ensures fresh(base) && base.target == found && base.referenceObject == obj && base.reference == null
      ensures base.isValid && !base.hasModified && base.notifyCount == 0
      ensures ikCalls == []
    {
      base := new PoseMapper(found, obj);
      ikCalls := [];
    }

    /** The override of SetCameraRigWithoutNotice: only the rig is assigned (the
        serialized component keeps its value), then the IK targets are wired to the
        rig, or reset when it is null. */
    method SetCameraRigWithoutNotice(value: CameraRig?)
      modifies base`reference, this`ikCalls
      ensures base.reference == value
      ensures ikCalls == old(ikCalls) + [HookFor(value)]
    {
      base.reference := value;
      ikCalls := ikCalls + [HookFor(value)];
    }

    /** Reference (set), overridden: the override above, then one Notify. */
    method SetReference(value: CameraRig?)
      modifies base`reference, base`notifyCount, this`ikCalls
      ensures base.reference == value
      ensures ikCalls == old(ikCalls) + [HookFor(value)]
      ensures base.notifyCount == old(base.notifyCount) + 1
    {
      SetCameraRigWithoutNotice(value);
      base.notifyCount := base.notifyCount + 1;
    }

    /** Awake (the base's), dispatching to the overridden setter: the same three cases
        as PoseMapper's, except that the component is never rewritten and every
        assignment calls an IK hook. */
    method Awake()
      modifies base`reference, base`notifyCount, this`ikCalls
      ensures base.referenceObject == old(base.referenceObject)
      ensures base.referenceObject.None? ==>
                base.reference == null && ikCalls == old(ikCalls) + [ResetIKTargets] &&
                base.notifyCount == old(base.notifyCount) + 1
      ensures base.referenceObject.Some? && FoundRig(base.referenceObject.value).Some? ==>
                base.reference == FoundRig(base.referenceObject.value).value &&
                ikCalls == old(ikCalls) + [SetIKTargets(FoundRig(base.referenceObject.value).value)] &&
                base.notifyCount == old(base.notifyCount) + 1
      ensures base.referenceObject.Some? && FoundRig(base.referenceObject.value).None? ==>
                base.reference == old(base.reference) && ikCalls == old(ikCalls) &&
                base.notifyCount == old(base.notifyCount)
      ensures base.referenceObject.None? || FoundRig(base.referenceObject.value).Some? ==> base.InSync()
    {
      if base.referenceObject.None? {
        SetReference(null);
      } else if FoundRig(base.referenceObject.value).Some? {
        SetReference(FoundRig(base.referenceObject.value).value);
      }
    }
  }
}
