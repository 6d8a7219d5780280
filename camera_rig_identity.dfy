// CameraRigIdentity: a CameraRigRemapper that copies, for every tracker type of its
// list, the reference rig's transform into the target rig's, in world or local
// coordinates as the position and rotation policies say. It keeps its own observer
// set, which its Notify override calls.
module CameraRigIdentityModel {
  import opened Wrappers
  import opened Geometry
  import opened CameraRigs
  import opened TrackerTypes
  import opened Observers
  import opened CameraRigRemapperModel

  /** What the copy leaves in a target transform holding `s`, from a reference
      transform holding `src`: Global copies the world field, Local the local field,
      None nothing; position and rotation independently. */
  function Copied(s: TransformState, src: TransformState, position: Space, rotation: Space): (r: TransformState)
    ensures r.position == (if position == Global then src.position else s.position)
    ensures r.localPosition == (if position == Local then src.localPosition else s.localPosition)
    ensures r.rotation == (if rotation == Global then src.rotation else s.rotation)
    ensures r.localRotation == (if rotation == Local then src.localRotation else s.localRotation)
    ensures r.localEulerAngles == s.localEulerAngles
  {
    var p := match position
      case None => s
      case Local => s.(localPosition := src.localPosition)
      case Global => s.(position := src.position);
    match rotation
    case None => p
    case Local => p.(localRotation := src.localRotation)
    case Global => p.(rotation := src.rotation)
  }

  /** Copying twice from the same reference values is copying once. */
  lemma CopiedIdempotent(s: TransformState, src: TransformState, position: Space, rotation: Space)
    ensures Copied(Copied(s, src, position, rotation), src, position, rotation) == Copied(s, src, position, rotation)
  {
  }

  /** With both policies None the copy writes nothing; with both Global (or both
      Local) the target holds the reference's world (or local) pose. */
  lemma CopiedPolicies(s: TransformState, src: TransformState)
    ensures Copied(s, src, Space.None, Space.None) == s
    ensures var r := Copied(s, src, Global, Global);
              r.position == src.position && r.rotation == src.rotation &&
              r.localPosition == s.localPosition && r.localRotation == s.localRotation
    ensures var r := Copied(s, src, Local, Local);
              r.localPosition == src.localPosition && r.localRotation == src.localRotation &&
              r.position == s.position && r.rotation == s.rotation
  {
  }

  /** What one tick leaves in a target transform holding `s`: a copy when its tracker
      type is listed and the reference rig has that tracker, nothing otherwise. */
  function Identified(s: TransformState, listed: bool, src: Option<TransformState>,
                      position: Space, rotation: Space): (r: TransformState)
    ensures !listed || src.None? ==> r == s
    ensures listed && src.Some? ==> r == Copied(s, src.value, position, rotation)
  {
    if listed && src.Some? then Copied(s, src.value, position, rotation) else s
  }

  /** The two switches of one pass of the loop. */
  method CopyEntry(t: Transform, ref: Transform, position: Space, rotation: Space)
    requires t != ref
    modifies t
    ensures StateOf(t) == Copied(old(StateOf(t)), StateOf(ref), position, rotation)
  {
    match position {
      case None =>
      case Local => t.localPosition := ref.localPosition;
      case Global => t.position := ref.position;
    }
    match rotation {
      case None =>
      case Local => t.localRotation := ref.localRotation;
      case Global => t.rotation := ref.rotation;
    }
  }

  /** A transform copied by two passes is copied by one pass when either lists it. */
  lemma IdentifiedTwice(s: TransformState, a: bool, b: bool, src: Option<TransformState>,
                        position: Space, rotation: Space)
    ensures Identified(Identified(s, a, src, position, rotation), b, src, position, rotation) ==
              Identified(s, a || b, src, position, rotation)
  {
    if a && b && src.Some? {
      CopiedIdempotent(s, src.value, position, rotation);
    }
  }

  /** One pass of the loop, for tracker type k: the target transform of k (if the
      target has one) is copied from the reference transform of k (if there is one);
      every other transform, and all of the reference rig, keep their values. */
  method CopyKey(k: TrackerType, own: seq<TrackerEntry>, src: seq<TrackerEntry>, position: Space, rotation: Space)
    requires Syncable(own, src)
    modifies Values(own)
    ensures forall j :: 0 <= j < |own| ==>
              StateOf(own[j].value) ==
                Identified(old(StateOf(own[j].value)), own[j].key == k, old(Source(src, own[j].key)), position, rotation)
    ensures forall k' :: Source(src, k') == old(Source(src, k'))
  {
    var found := Lookup(own, k);
    var ref := Lookup(src, k);
    if found.Some? && ref.Some? {
      var t := found.value;
      assert t in Values(own) && ref.value in Values(src);
      CopyEntry(t, ref.value, position, rotation);
      forall j | 0 <= j < |own| && own[j].key != k
        ensures own[j].value != t
      {
        var n :| 0 <= n < |own| && own[n].key == k && own[n].value == t;
        assert n != j;
      }
    }
  }

  /** The loop of RemapOnUpdate over the listed tracker types, in list order: every
      target transform ends as Identified says, from the values before the tick. */
  method CopyAll(listed: seq<TrackerType>, own: seq<TrackerEntry>, src: seq<TrackerEntry>,
                 position: Space, rotation: Space)
    requires Syncable(own, src)
    modifies Values(own)
    ensures forall j :: 0 <= j < |own| ==>
              StateOf(own[j].value) ==
                Identified(old(StateOf(own[j].value)), own[j].key in listed, old(Source(src, own[j].key)), position, rotation)
  {
    var i := 0;
    while i < |listed|
      invariant 0 <= i <= |listed|
      invariant forall k :: Source(src, k) == old(Source(src, k))
      invariant forall j :: 0 <= j < |own| ==>
                  StateOf(own[j].value) ==
                    Identified(old(StateOf(own[j].value)), own[j].key in listed[..i], old(Source(src, own[j].key)), position, rotation)
    {
      var k := listed[i];
      assert listed[..i + 1] == listed[..i] + [k];
      CopyKey(k, own, src, position, rotation);
      forall j | 0 <= j < |own|
        ensures StateOf(own[j].value) ==
                  Identified(old(StateOf(own[j].value)), own[j].key in listed[..i + 1], old(Source(src, own[j].key)), position, rotation)
      {
        IdentifiedTwice(old(StateOf(own[j].value)), own[j].key in listed[..i], own[j].key == k,
                        old(Source(src, own[j].key)), position, rotation);
      }
      i := i + 1;
    }
    assert listed[..i] == listed;
  }

  class CameraRigIdentity {
    /** The CameraRigRemapper part: target, reference and latch. */
    const base: CameraRigRemapper
    /** m_trackers: the tracker types to copy, in list order. */
    var trackers: seq<TrackerType>
    var position: Space
    var rotation: Space
    /** The observers of this class, which its Notify override calls. */
    const observers: ObserverSet

    /** The serialized defaults: no trackers, both policies None, no observers. */
    constructor (found: CameraRig?)
      ensures fresh(base) && base.target == found && base.reference == null && base.isValid
      ensures trackers == [] && position == Space.None && rotation == Space.None
      ensures fresh(observers) && observers.members == {} && observers.calls == []
    {
      base := new CameraRigRemapper(found);
      trackers := [];
      position := Space.None;
      rotation := Space.None;
      observers := new ObserverSet();
    }

    /** The rig RemapOnUpdate writes: the target, or the rig on the game object when
        the target is missing. */
    function Destination(component: CameraRig): (r: CameraRig)
      reads base
      ensures base.target != null ==> r == base.target
      ensures base.target == null ==> r == component
    {
      if base.target == null then component else base.target
    }

    /** Reference (set), through the override of Notify: the base's
        SetReferenceWithoutNotice, then this class's observers are called once each. */
    method SetReference(value: CameraRig?)
      modifies base`target, observers
      ensures base.target == value
      ensures observers.members == old(observers.members)
      ensures observers.NotifiedOnce(old(observers.calls))
    {
      base.SetReferenceWithoutNotice(value);
      observers.Notify();
    }

    /** RemapOnUpdate: with no reference nothing is written; otherwise a missing
        target is replaced by the rig on the game object, and every target transform
        whose tracker type is listed and present in the reference rig gets the
        reference's pose as the policies say. The reference rig is only read. */
    method RemapOnUpdate(component: CameraRig)
      requires base.reference != null ==> Syncable(Destination(component).trackers, base.reference.trackers)
      modifies base`target, Values(Destination(component).trackers)
      ensures base.reference == null ==>
                base.target == old(base.target) && unchanged(Values(old(Destination(component)).trackers))
      ensures base.reference != null ==> base.target == old(Destination(component))
      ensures base.reference != null ==> var d := old(Destination(component)); forall j :: 0 <= j < |d.trackers| ==>
                StateOf(d.trackers[j].value) ==
                  Identified(old(StateOf(d.trackers[j].value)), d.trackers[j].key in trackers,
                             old(Source(base.reference.trackers, d.trackers[j].key)), position, rotation)
    {
      if base.reference == null {
        return;
      }
      if base.target == null {
        base.target := component;
      }
      CopyAll(trackers, base.target.trackers, base.reference.trackers, position, rotation);
    }

    /** FixedUpdate (the base's): RemapOnUpdate runs when the latching IsValid holds
        and there is a reference. */
    method FixedUpdate(component: CameraRig) returns (remapped: bool)
      requires base.reference != null ==> Syncable(Destination(component).trackers, base.reference.trackers)
      modifies base`isValid, base`target, Values(Destination(component).trackers)
      ensures base.isValid == (old(base.isValid) && old(base.target) != null)
      ensures remapped <==> base.isValid && base.reference != null
      ensures !remapped ==> base.target == old(base.target) && unchanged(Values(old(Destination(component)).trackers))
      ensures remapped ==> var d := old(Destination(component)); forall j :: 0 <= j < |d.trackers| ==>
                StateOf(d.trackers[j].value) ==
                  Identified(old(StateOf(d.trackers[j].value)), d.trackers[j].key in trackers,
                             old(Source(base.reference.trackers, d.trackers[j].key)), position, rotation)
    {
      remapped := base.FixedUpdate();
      if remapped {
        RemapOnUpdate(component);
      }
    }

    method AddObserver(o: ObserverId)
      modifies observers
      ensures observers.members == old(observers.members) + {o}
      ensures observers.calls == old(observers.calls)
    {
      observers.Add(o);
    }

    method RemoveObserver(o: ObserverId)
      modifies observers
      ensures observers.members == old(observers.members) - {o}
      ensures observers.calls == old(observers.calls)
    {
      observers.Remove(o);
    }
  }
}
