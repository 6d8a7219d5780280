// CameraRigRemapperMultipleReferences: the base of the camera-rig transformers that
// turn several reference rigs into one target rig. It owns the target, the list of
// reference components (entries may be null once a component is destroyed), the
// validity latch and a HashSet of observers; RemapOnUpdate is the subclass's hook,
// and FixedUpdate returns whether it would be called.
module CameraRigMultipleReferencesModel {
  import opened Observers
  import opened Lists
  import opened CameraRigs

  /** List.RemoveAll(x => x == null), and the References getter: the non-null entries,
      in their order. */
  function WithoutNulls(s: seq<CameraRig?>): (r: seq<CameraRig>)
    ensures |r| <= |s|
    ensures forall i :: 0 <= i < |r| ==> r[i] in s
    ensures forall i :: 0 <= i < |s| && s[i] != null ==> s[i] in r
    ensures (forall i :: 0 <= i < |s| ==> s[i] != null) ==> r == s
  {
    if s == [] then []
    else if s[0] == null then WithoutNulls(s[1..])
    else [s[0]] + WithoutNulls(s[1..])
  }

  /** Dropping the nulls of a concatenation drops them from each part. */
  lemma {:induction false} WithoutNullsAppend(a: seq<CameraRig?>, b: seq<CameraRig?>)
    ensures WithoutNulls(a + b) == WithoutNulls(a) + WithoutNulls(b)
  {
    if a == [] {
      assert a + b == b;
    } else {
      assert (a + b)[0] == a[0] && (a + b)[1..] == a[1..] + b;
      WithoutNullsAppend(a[1..], b);
    }
  }

  /** Dropping nulls keeps a list free of duplicates. */
  lemma {:induction false} WithoutNullsNoDuplicates(s: seq<CameraRig?>)
    requires NoDuplicates(s)
    ensures NoDuplicates(WithoutNulls(s))
  {
    if s != [] {
      assert NoDuplicates(s[1..]);
      WithoutNullsNoDuplicates(s[1..]);
      if s[0] != null {
        assert s[0] !in s[1..];
      }
    }
  }

  /** Dropping nulls twice is dropping them once. */
  lemma WithoutNullsIdempotent(s: seq<CameraRig?>)
    ensures WithoutNulls(WithoutNulls(s)) == WithoutNulls(s)
  {
  }

  class CameraRigRemapperMultipleReferences {
    var target: CameraRig?
    /** m_references: the serialized components, in list order. */
    var references: seq<CameraRig?>
    var isValid: bool
    const observers: ObserverSet

    /** The serialized defaults: no references, valid, no observers; the target is the
        rig OnValidate found on the game object. */
    constructor (found: CameraRig?)
      ensures target == found && references == [] && isValid
      ensures fresh(observers) && observers.members == {} && observers.calls == []
    {
      target := found;
      references := [];
      isValid := true;
      observers := new ObserverSet();
    }

    /** IsValid (get): a missing target forces the flag false, and the flag stays
        false after a target appears until it is set again. */
    method GetIsValid() returns (v: bool)
      modifies this`isValid
      ensures v == isValid
      ensures isValid == (old(isValid) && target != null)
    {
      if target == null {
        isValid := false;
      }
      v := isValid;
    }

    /** IsValid (set): ignored in favour of false while there is no target. */
    method SetIsValid(value: bool)
      modifies this`isValid
      ensures isValid == (target != null && value)
    {
      if target == null {
        isValid := false;
        return;
      }
      isValid := value;
    }

    /** Target (set): a plain assignment. */
    method SetTarget(value: CameraRig?)
      modifies this`target
      ensures target == value
    {
      target := value;
    }

    /** References (get): the rigs of the non-null entries, in list order. */
    function References(): (r: seq<CameraRig>)
      reads this
      ensures forall i :: 0 <= i < |r| ==> r[i] in references
      ensures forall i :: 0 <= i < |references| && references[i] != null ==> references[i] in r
    {
      WithoutNulls(references)
    }

    /** AddReference: a rig already listed (or null while a null entry is listed)
        changes nothing and notifies no one; otherwise the rig is appended, every null
        entry is dropped, and the observers are notified when withNotice is set. */
    method AddReference(reference: CameraRig?, withNotice: bool)
      modifies this`references, observers
      ensures observers.members == old(observers.members)
      ensures reference in old(references) ==> references == old(references) && observers.calls == old(observers.calls)
      ensures reference !in old(references) ==> references == WithoutNulls(old(references) + [reference])
      ensures reference !in old(references) && withNotice ==> observers.NotifiedOnce(old(observers.calls))
      ensures reference !in old(references) && !withNotice ==> observers.calls == old(observers.calls)
      ensures reference !in old(references) && reference != null ==> references == WithoutNulls(old(references)) + [reference]
      ensures NoDuplicates(old(references)) ==> NoDuplicates(references)
    {
      if reference in references {
        return;
      }
      WithoutNullsAppend(references, [reference]);
      if NoDuplicates(references) {
        WithoutNullsNoDuplicates(references + [reference]);
      }
      references := WithoutNulls(references + [reference]);
      if withNotice {
        observers.Notify();
      }
    }

    /** RemoveReference: a rig not listed changes nothing and notifies no one;
        otherwise its first entry goes, every null entry is dropped, and the observers
        are notified when withNotice is set. */
    method RemoveReference(reference: CameraRig?, withNotice: bool)
      modifies this`references, observers
      ensures observers.members == old(observers.members)
      ensures reference !in old(references) ==> references == old(references) && observers.calls == old(observers.calls)
      ensures reference in old(references) ==> references == WithoutNulls(RemoveFirst(old(references), reference))
      ensures reference in old(references) && withNotice ==> observers.NotifiedOnce(old(observers.calls))
      ensures reference in old(references) && !withNotice ==> observers.calls == old(observers.calls)
      ensures NoDuplicates(old(references)) ==> NoDuplicates(references) && reference !in references
    {
      if reference !in references {
        return;
      }
      if NoDuplicates(references) {
        RemoveFirstNoDuplicates(references, reference);
        WithoutNullsNoDuplicates(RemoveFirst(references, reference));
      }
      references := WithoutNulls(RemoveFirst(references, reference));
      if withNotice {
        observers.Notify();
      }
    }

    /** OnValidate: the target becomes the rig found on the game object. (Dropping the
        entries that are not rigs changes nothing here: every entry is a rig or null.) */
    method OnValidate(found: CameraRig?)
      modifies this`target
      ensures target == found
    {
      target := found;
    }

    /** FixedUpdate: RemapOnUpdate runs when the raw flag (not the latching property)
        is set and the list has an entry, whether or not that entry is null. */
    method FixedUpdate() returns (remap: bool)
      ensures remap <==> isValid && |references| > 0
    {
      remap := isValid && |references| > 0;
    }

    method AddObserver(o: ObserverId)
      modifies observers
      ensures observers.members == old(observers.members) + {o}
      ensures observers.calls == old(observers.calls)
    {
      observers.Add(o);
    }

    method RemoveObserver(o: ObserverId)
      modifies observers
      ensures observers.members == old(observers.members) - {o}
      ensures observers.calls == old(observers.calls)
    {
      observers.Remove(o);
    }
  }
}
