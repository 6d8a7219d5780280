// The PoseRemapper of the RefPose/Pose generation that keeps its own observer set:
// the base of the pose delayer and the bone redirector. The result pose is m_pose and
// the reference is m_refPose, but the public Pose property reads and writes the
// reference. RemapOnUpdate is abstract: FixedUpdate returns whether it calls it.
module RefPoseRemapperModel {
  import opened PoseModel
  import opened Observers

  class RefPoseRemapper {
    var refPose: Pose?
    var pose: Pose?
    var isValid: bool
    const observers: ObserverSet

    /** The serialized defaults (valid, no reference, no observers) and OnValidate,
        which takes the Pose found on the game object as the result pose. */
    constructor (found: Pose?)
      ensures pose == found && refPose == null && isValid
      ensures fresh(observers) && observers.members == {} && observers.calls == []
    {
      pose := found;
      refPose := null;
      isValid := true;
      observers := new ObserverSet();
    }

    /** RefPose (set): assigns without notice, then notifies every observer once. */
    method SetRefPose(value: Pose?)
      modifies this`refPose, observers
      ensures refPose == value && pose == old(pose)
      ensures observers.members == old(observers.members)
      ensures observers.NotifiedOnce(old(observers.calls))
    {
      SetRefPoseWithoutNotice(value);
      Notify();
    }

    /** Notify: every registered observer is called once. */
    method Notify()
      modifies observers
      ensures observers.members == old(observers.members)
      ensures observers.NotifiedOnce(old(observers.calls))
    {
      observers.Notify();
    }

    /** SetRefPoseWithoutNotice: assigns the reference; no observer is called. */
    method SetRefPoseWithoutNotice(value: Pose?)
      modifies this`refPose
      ensures refPose == value
    {
      refPose := value;
    }

    /** Pose (get): documented as the result pose, it returns the reference. */
    function GetPose(): (p: Pose?)
      reads this
      ensures p == refPose
    {
      refPose
    }

    /** Pose (set): assigns the reference, leaves the result pose alone and does
        not notify. */
    method SetPose(value: Pose?)
      modifies this`refPose
      ensures refPose == value && pose == old(pose)
      ensures GetPose() == value
    {
      refPose := value;
    }

    /** IsValid (get): forced to false, and latched, while the result pose is missing. */
    method GetIsValid() returns (v: bool)
      modifies this`isValid
      ensures v == isValid
      ensures isValid == (old(isValid) && pose != null)
    {
      if pose == null {
        isValid := false;
      }
      v := isValid;
    }

    /** IsValid (set): without a result pose the value is ignored in favour of false. */
    method SetIsValid(value: bool)
      modifies this`isValid
      ensures isValid == (pose != null && value)
    {
      if pose == null {
        isValid := false;
        return;
      }
      isValid := value;
    }

    /** AddObserver: set semantics. */
    method AddObserver(o: ObserverId)
      modifies observers
      ensures observers.members == old(observers.members) + {o}
      ensures observers.calls == old(observers.calls)
    {
      observers.Add(o);
    }

    /** RemoveObserver: set semantics. */
    method RemoveObserver(o: ObserverId)
      modifies observers
      ensures observers.members == old(observers.members) - {o}
      ensures observers.calls == old(observers.calls)
    {
      observers.Remove(o);
    }

    /** OnValidate: the result pose becomes the Pose found on the game object. */
    method FindPose(found: Pose?)
      modifies this`pose
      ensures pose == found
    {
      pose := found;
    }

    /** FixedUpdate: RemapOnUpdate runs exactly when IsValid holds. */
    method FixedUpdate() returns (remap: bool)
      modifies this`isValid
      ensures isValid == (old(isValid) && pose != null)
      ensures remap == isValid
    {
      remap := GetIsValid();
    }
  }

  /** Observers form a set: adding one twice still gets it a single call per Notify. */
  method AddTwiceNotifiesOnce(r: RefPoseRemapper, o: ObserverId, value: Pose?)
    requires r.observers.members == {}
    modifies r, r.observers
    ensures |r.observers.calls| == |old(r.observers.calls)| + 1
    ensures r.observers.calls[|old(r.observers.calls)|] == o
  {
    r.AddObserver(o);
    r.AddObserver(o);
    assert r.observers.members == {o};
    ghost var n := |r.observers.calls|;
    r.SetRefPose(value);
    assert multiset(r.observers.calls[n..]) == multiset{o};
    assert r.observers.calls[n..] == [r.observers.calls[n]];
  }
}
