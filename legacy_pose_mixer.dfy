// The legacy PoseMixer (m_poseMixed / Poses / MixedBoneGroups API): a component of its
// own, not a remapper subclass, that mixes several poses into the pose it sits on. Its
// weight table has the same shape and rules as the current mixer's, so it is built from
// the functions of PoseMixerModel (a MixedBoneGroup is a MixedJointGroup); the class
// keeps its own fields, validity latch and observer set, and mixes and notifies on
// every valid FixedUpdate.
module LegacyPoseMixerModel {
  import opened Geometry
  import opened PoseModel
  import opened Observers
  import opened Lists
  import opened PoseMixerModel

  class PoseMixer {
    /** m_poseMixed: the result pose. */
    var poseMixed: Pose?
    /** Poses: the mixed poses, in list order (entries may be null). */
    var poses: seq<Pose?>
    /** m_previousPoses: the list the last OnValidate saw. */
    var previousPoses: seq<Pose?>
    /** MixedBoneGroups. */
    var mixedBoneGroups: seq<MixedJointGroup>
    var isValid: bool
    const observers: ObserverSet

    /** The serialized defaults: no poses, no groups, valid, no observers; the result
        pose is the one OnValidate found on the game object. */
    constructor (found: Pose?)
      ensures poseMixed == found && poses == [] && previousPoses == [] && mixedBoneGroups == [] && isValid
      ensures fresh(observers) && observers.members == {} && observers.calls == []
    {
      poseMixed := found;
      poses := [];
      previousPoses := [];
      mixedBoneGroups := [];
      isValid := true;
      observers := new ObserverSet();
    }

    /** Pose (set): a plain assignment of the result pose. */
    method SetPose(value: Pose?)
      modifies this`poseMixed
      ensures poseMixed == value
    {
      poseMixed := value;
    }

    /** IsValid (get): a missing result pose forces the flag false, and the flag stays
        false after a pose appears until it is set again. */
    method GetIsValid() returns (v: bool)
      modifies this`isValid
      ensures v == isValid
      ensures isValid == (old(isValid) && poseMixed != null)
    {
      if poseMixed == null {
        isValid := false;
      }
      v := isValid;
    }

    /** IsValid (set): ignored in favour of false while there is no result pose. */
    method SetIsValid(value: bool)
      modifies this`isValid
      ensures isValid == (poseMixed != null && value)
    {
      if poseMixed == null {
        isValid := false;
        return;
      }
      isValid := value;
    }

    /** InitializeMixedBoneGroups(mergeCurrentValue): a group per group of the result
        pose, each merged with every old group of its label. */
    method InitializeMixedBoneGroups(merge: bool)
      requires poseMixed != null && Searchable(poses)
      modifies this`mixedBoneGroups
      ensures mixedBoneGroups == Rebuilt(GetLabels(poseMixed.jointGroups), poses, old(mixedBoneGroups), merge)
    {
      mixedBoneGroups := RebuildTable(poseMixed.jointGroups, poses, mixedBoneGroups, merge);
    }

    /** AddPose: appends the pose even when it is listed already (the source only
        warns, naming the pose, so a listed null is not allowed), then rebuilds the
        table. */
    method AddPose(pose: Pose?)
      requires pose in poses ==> pose != null
      requires poseMixed != null && Searchable(poses + [pose])
      modifies this`poses, this`mixedBoneGroups
      ensures poses == old(poses) + [pose]
      ensures mixedBoneGroups == Rebuilt(GetLabels(poseMixed.jointGroups), poses, old(mixedBoneGroups), true)
    {
      poses := poses + [pose];
      InitializeMixedBoneGroups(true);
    }

    /** RemovePose: an absent pose changes nothing; otherwise its first occurrence is
        removed and the table rebuilt. */
    method RemovePose(pose: Pose?)
      requires pose in poses ==> poseMixed != null && Searchable(RemoveFirst(poses, pose))
      modifies this`poses, this`mixedBoneGroups
      ensures pose !in old(poses) ==> poses == old(poses) && mixedBoneGroups == old(mixedBoneGroups)
      ensures pose in old(poses) ==> poses == RemoveFirst(old(poses), pose)
      ensures pose in old(poses) ==>
                mixedBoneGroups == old(Rebuilt(GetLabels(poseMixed.jointGroups), RemoveFirst(poses, pose), mixedBoneGroups, true))
    {
      if pose in poses {
        poses := RemoveFirst(poses, pose);
        InitializeMixedBoneGroups(true);
      }
    }

    /** SearchWeightOf: the first group with the label, then its first entry for the
        pose; (false, 0) when either is missing. */
    function SearchWeightOf(pose: Pose, name: string): (r: (bool, real))
      reads this
      ensures r == TableWeight(mixedBoneGroups, pose, name)
    {
      TableWeight(mixedBoneGroups, pose, name)
    }

    /** SetWeightOf(pose, label, weight, min, max): every group of the label clamps the
        running weight again and stores it for the pose; there is no change flag. */
    method SetWeightOf(pose: Pose, name: string, weight: real, lo: real, hi: real)
      modifies this`mixedBoneGroups
      ensures mixedBoneGroups == SetTable(old(mixedBoneGroups), pose, name, weight, lo, hi)
    {
      var groups, _ := SetTableIn(mixedBoneGroups, pose, name, weight, lo, hi);
      mixedBoneGroups := groups;
    }

    /** AddWeightOf: nothing without a stored weight; otherwise the stored weight plus
        delta, clamped to [0, 1], is set as SetWeightOf sets it. */
    method AddWeightOf(pose: Pose, name: string, delta: real, lo: real, hi: real)
      modifies this`mixedBoneGroups
      ensures var (found, w) := old(TableWeight(mixedBoneGroups, pose, name));
              if found then mixedBoneGroups == SetTable(old(mixedBoneGroups), pose, name, Clamp(w + delta, 0.0, 1.0), lo, hi)
              else mixedBoneGroups == old(mixedBoneGroups)
    {
      var (found, w) := SearchWeightOf(pose, name);
      if found {
        SetWeightOf(pose, name, Clamp(w + delta, 0.0, 1.0), lo, hi);
      }
    }

    /** OnValidate: the result pose becomes the one on the game object, the table is
        rebuilt (merging the old weights) exactly when the list differs from the one
        the last OnValidate saw, and the list is then saved. */
    method OnValidate(found: Pose?)
      requires poses != previousPoses ==> found != null && Searchable(poses)
      modifies this`poseMixed, this`mixedBoneGroups, this`previousPoses
      ensures poseMixed == found && previousPoses == poses && poses == old(poses)
      ensures old(poses) != old(previousPoses) ==>
                mixedBoneGroups == Rebuilt(GetLabels(found.jointGroups), poses, old(mixedBoneGroups), true)
      ensures old(poses) == old(previousPoses) ==> mixedBoneGroups == old(mixedBoneGroups)
    {
      poseMixed := found;
      var same := SameReferences(poses, previousPoses);
      if !same {
        InitializeMixedBoneGroups(true);
      }
      previousPoses := poses;
    }

    /** Mix(poses): every group of the result pose, in order, is mixed from the given
        poses' groups of its label, weighted by the table; a group whose fold fails
        keeps its entry. */
    method Mix(refs: seq<Pose?>)
      requires poseMixed != null && null !in refs && Searchable(refs) && Mixable(poseMixed, refs)
      modifies poseMixed`jointGroups, AllTransforms(poseMixed.jointGroups)`localRotation
      ensures MixedInto(poseMixed, refs, mixedBoneGroups, old(poseMixed.jointGroups))
    {
      MixPoses(poseMixed, refs, mixedBoneGroups);
    }

    /** FixedUpdate: while the latching IsValid holds, the null poses are dropped (the
        table is rebuilt when there were any), the poses are mixed, and every observer
        is notified, on every such tick. */
    method FixedUpdate() returns (mixed: bool)
      requires poseMixed != null ==> Searchable(poses) && Mixable(poseMixed, WithoutNullPoses(poses))
      modifies this`isValid, this`poses, this`mixedBoneGroups, observers
      modifies (if poseMixed == null then {} else {poseMixed})`jointGroups
      modifies if poseMixed == null then {} else AllTransforms(poseMixed.jointGroups)`localRotation
      ensures isValid == (old(isValid) && poseMixed != null)
      ensures mixed <==> isValid
      ensures observers.members == old(observers.members)
      ensures !mixed ==> poses == old(poses) && mixedBoneGroups == old(mixedBoneGroups) && observers.calls == old(observers.calls)
      ensures !mixed && poseMixed != null ==> poseMixed.jointGroups == old(poseMixed.jointGroups)
      ensures mixed ==> poses == WithoutNullPoses(old(poses)) && observers.NotifiedOnce(old(observers.calls))
      ensures mixed ==> (mixedBoneGroups ==
                if null in old(poses) then old(Rebuilt(GetLabels(poseMixed.jointGroups), WithoutNullPoses(poses), mixedBoneGroups, true))
                else old(mixedBoneGroups))
      ensures mixed ==> null !in poses && MixedInto(poseMixed, poses, mixedBoneGroups, old(poseMixed.jointGroups))
    {
      if poseMixed == null {
        isValid := false;
        return false;
      }
      if !isValid {
        return false;
      }
      ValidTick();
      mixed := true;
    }

    /** The valid branch of FixedUpdate. Neither the mix nor the model's observers read
        the list or the table field, so the model computes the new list and table
        first and stores them after mixing with them and notifying. */
    method ValidTick()
      requires poseMixed != null && Searchable(poses) && Mixable(poseMixed, WithoutNullPoses(poses))
      modifies this`poses, this`mixedBoneGroups, observers, poseMixed`jointGroups
      modifies AllTransforms(poseMixed.jointGroups)`localRotation
      ensures observers.members == old(observers.members)
      ensures poses == WithoutNullPoses(old(poses)) && observers.NotifiedOnce(old(observers.calls))
      ensures mixedBoneGroups ==
                if null in old(poses) then old(Rebuilt(GetLabels(poseMixed.jointGroups), WithoutNullPoses(poses), mixedBoneGroups, true))
                else old(mixedBoneGroups)
      ensures null !in poses && MixedInto(poseMixed, poses, mixedBoneGroups, old(poseMixed.jointGroups))
    {
      var refs := WithoutNullPoses(poses);
      var table := mixedBoneGroups;
      if null in poses {
        table := Rebuilt(GetLabels(poseMixed.jointGroups), refs, mixedBoneGroups, true);
      }
      MixAndNotify(refs, table);
      poses := refs;
      mixedBoneGroups := table;
    }

    /** Mixes the references into the target with the table, then notifies the
        observers. */
    method MixAndNotify(refs: seq<Pose?>, table: seq<MixedJointGroup>)
      requires poseMixed != null && null !in refs && Searchable(refs) && Mixable(poseMixed, refs)
      modifies observers, poseMixed`jointGroups, AllTransforms(poseMixed.jointGroups)`localRotation
      ensures observers.members == old(observers.members) && observers.NotifiedOnce(old(observers.calls))
      ensures MixedInto(poseMixed, refs, table, old(poseMixed.jointGroups))
    {
      MixPoses(poseMixed, refs, table);
      observers.Notify();
    }

    method AddObserver(o: ObserverId)
      modifies observers
      ensures observers.members == old(observers.members) + {o}
      ensures observers.calls == old(observers.calls)
    {
      observers.Add(o);
    }

    method RemoveObserver(o: ObserverId)
      modifies observers
      ensures observers.members == old(observers.members) - {o}
      ensures observers.calls == old(observers.calls)
    {
      observers.Remove(o);
    }
  }
}
