// Camera rigs: the tracker dictionary every ICameraRig wraps, the LocalCameraRig that
// pushes its trackers to the ServerCameraRigs observing it, and the ServerCameraRig
// with its static registry by client id.
module CameraRigs {
  import opened Wrappers
  import opened Geometry
  import opened TrackerTypes

  // ---- the tracker dictionary ----

  /** One key/value pair of a TrackerDictionary. */
  datatype TrackerEntry = TrackerEntry(key: TrackerType, value: Transform)

  /** A dictionary holds each key once; its entries are listed in enumeration order. */
  predicate UniqueKeys(d: seq<TrackerEntry>)
  {
    forall i, j :: 0 <= i < j < |d| ==> d[i].key != d[j].key
  }

  /** No transform is the value of two keys. */
  predicate DistinctValues(d: seq<TrackerEntry>)
  {
    forall i, j :: 0 <= i < j < |d| ==> d[i].value != d[j].value
  }

  /** The transforms of a dictionary. */
  function Values(d: seq<TrackerEntry>): (s: set<Transform>)
    ensures forall i :: 0 <= i < |d| ==> d[i].value in s
    ensures forall t :: t in s ==> exists i :: 0 <= i < |d| && d[i].value == t
  {
    set i | 0 <= i < |d| :: d[i].value
  }

  /** Index of the first entry from i on with key k, or -1. */
  function KeyIndex(d: seq<TrackerEntry>, k: TrackerType, i: nat): (n: int)
    requires i <= |d|
    ensures n == -1 || i <= n < |d|
    ensures n >= 0 ==> d[n].key == k && forall j :: i <= j < n ==> d[j].key != k
    ensures n == -1 ==> forall j :: i <= j < |d| ==> d[j].key != k
    decreases |d| - i
  {
    if i == |d| then -1 else if d[i].key == k then i else KeyIndex(d, k, i + 1)
  }

  /** Index of the first entry from i on whose value is t, or -1. */
  function ValueIndex(d: seq<TrackerEntry>, t: Transform, i: nat): (n: int)
    requires i <= |d|
    ensures n == -1 || i <= n < |d|
    ensures n >= 0 ==> d[n].value == t && forall j :: i <= j < n ==> d[j].value != t
    ensures n == -1 ==> forall j :: i <= j < |d| ==> d[j].value != t
    decreases |d| - i
  {
    if i == |d| then -1 else if d[i].value == t then i else ValueIndex(d, t, i + 1)
  }

  /** TryGetTransform (Dictionary.TryGetValue): the value of key k, when k is a key. */
  function Lookup(d: seq<TrackerEntry>, k: TrackerType): (r: Option<Transform>)
    ensures r.None? <==> forall i :: 0 <= i < |d| ==> d[i].key != k
    ensures r.Some? ==> exists i :: 0 <= i < |d| && d[i].key == k && d[i].value == r.value
    ensures UniqueKeys(d) ==> forall i :: 0 <= i < |d| && d[i].key == k ==> r == Some(d[i].value)
  {
    var n := KeyIndex(d, k, 0);
    if n >= 0 then Some(d[n].value) else Option.None
  }

  /** TryGetType: the first key, in enumeration order, whose value is t; None stands
      for the (false, TrackerType.None) result. */
  function ReverseLookup(d: seq<TrackerEntry>, t: Transform): (r: Option<TrackerType>)
    ensures r.None? <==> forall i :: 0 <= i < |d| ==> d[i].value != t
    ensures r.Some? ==> exists i :: 0 <= i < |d| && d[i].value == t && d[i].key == r.value &&
                          forall j :: 0 <= j < i ==> d[j].value != t
  {
    var n := ValueIndex(d, t, 0);
    if n >= 0 then Some(d[n].key) else Option.None
  }

  /** The forward/reverse round trip: when k is the only key that maps to t, the
      reverse scan finds k and the lookup of k gives t back. */
  lemma LookupRoundTrip(d: seq<TrackerEntry>, k: TrackerType, t: Transform)
    requires UniqueKeys(d)
    requires exists i :: 0 <= i < |d| && d[i] == TrackerEntry(k, t)
    requires forall i :: 0 <= i < |d| && d[i].value == t ==> d[i].key == k
    ensures ReverseLookup(d, t) == Some(k) && Lookup(d, k) == Some(t)
  {
  }

  /** The other direction: whatever key the reverse scan finds maps back to the
      transform it was given. */
  lemma ReverseLookupSound(d: seq<TrackerEntry>, t: Transform)
    requires UniqueKeys(d) && ReverseLookup(d, t).Some?
    ensures Lookup(d, ReverseLookup(d, t).value) == Some(t)
  {
  }

  /** The values of a key's transform, when the dictionary has that key. */
  function Source(d: seq<TrackerEntry>, k: TrackerType): (r: Option<TransformState>)
    reads Values(d)
    ensures r.Some? <==> Lookup(d, k).Some?
    ensures r.Some? ==> r.value == StateOf(Lookup(d, k).value)
  {
    match Lookup(d, k)
    case None => Option.None
    case Some(t) => Some(StateOf(t))
  }

  /** ICameraRig: a rig is its tracker dictionary (TryGetTransform and TryGetType are
      Lookup and ReverseLookup on it). */
  class CameraRig {
    var trackers: seq<TrackerEntry>

    constructor (d: seq<TrackerEntry>)
      ensures trackers == d
    {
      trackers := d;
    }
  }

  // ---- ServerCameraRig ----

  /** What one key of UpdateTrackerTransforms leaves in the server's transform: the
      local rig's local position and rotation when it has the key, nothing otherwise.
      World values are never copied. */
  function Synced(s: TransformState, src: Option<TransformState>): (r: TransformState)
    ensures src.None? ==> r == s
    ensures src.Some? ==> r.localPosition == src.value.localPosition && r.localRotation == src.value.localRotation
    ensures r.position == s.position && r.rotation == s.rotation && r.localEulerAngles == s.localEulerAngles
  {
    match src
    case None => s
    case Some(v) => s.(localPosition := v.localPosition, localRotation := v.localRotation)
  }

  /** Syncing twice from the same values is syncing once. */
  lemma SyncedIdempotent(s: TransformState, src: Option<TransformState>)
    ensures Synced(Synced(s, src), src) == Synced(s, src)
  {
  }

  /** What UpdateTrackerTransforms needs: a server dictionary whose transforms are
      distinct and none of them a transform of the local rig. */
  predicate Syncable(own: seq<TrackerEntry>, src: seq<TrackerEntry>)
  {
    UniqueKeys(own) && DistinctValues(own) && Values(own) !! Values(src)
  }

  /** The loop of UpdateTrackerTransforms over the server's keys, in enumeration order. */
  method SyncAll(own: seq<TrackerEntry>, src: seq<TrackerEntry>)
    requires Syncable(own, src)
    modifies Values(own)
    ensures forall i :: 0 <= i < |own| ==>
              StateOf(own[i].value) == Synced(old(StateOf(own[i].value)), old(Source(src, own[i].key)))
  {
    var i := 0;
    while i < |own|
      invariant 0 <= i <= |own|
      invariant forall j :: 0 <= j < i ==>
                  StateOf(own[j].value) == Synced(old(StateOf(own[j].value)), old(Source(src, own[j].key)))
      invariant forall j :: i <= j < |own| ==> StateOf(own[j].value) == old(StateOf(own[j].value))
    {
      var entry := own[i];
      var found := Lookup(src, entry.key);
      var transform := own[KeyIndex(own, entry.key, 0)].value;
      assert transform == entry.value;
      assert forall j :: 0 <= j < |own| && j != i ==> own[j].value != transform;
      SyncEntry(transform, found);
      i := i + 1;
    }
  }

  /** One key of UpdateTrackerTransforms: the found transform's local values into the
      server's transform. */
  method SyncEntry(transform: Transform, found: Option<Transform>)
    requires found.Some? ==> found.value != transform
    modifies transform
    ensures StateOf(transform) == Synced(old(StateOf(transform)), if found.Some? then Some(old(StateOf(found.value))) else Option.None)
  {
    if found.Some? {
      transform.localPosition := found.value.localPosition;
      transform.localRotation := found.value.localRotation;
    }
  }

  class ServerCameraRig {
    /** The server's own trackers. */
    const rig: CameraRig
    /** NetworkObject.OwnerClientId. */
    const ownerId: nat

    constructor (d: seq<TrackerEntry>, owner: nat)
      ensures fresh(rig) && rig.trackers == d && ownerId == owner
    {
      rig := new CameraRig(d);
      ownerId := owner;
    }

    /** UpdateTrackerTransforms: every key of this rig that the local rig also has gets
        the local rig's local position and rotation; the other keys are left alone (a
        warning is logged). */
    method UpdateTrackerTransforms(wrapper: CameraRig)
      requires Syncable(rig.trackers, wrapper.trackers)
      modifies Values(rig.trackers)
      ensures forall i :: 0 <= i < |rig.trackers| ==>
                StateOf(rig.trackers[i].value) ==
                  Synced(old(StateOf(rig.trackers[i].value)), old(Source(wrapper.trackers, rig.trackers[i].key)))
    {
      SyncAll(rig.trackers, wrapper.trackers);
    }
  }

  /** The static dictionary of ServerCameraRigs by client id. */
  class Registry {
    var rigs: map<nat, ServerCameraRig>

    constructor ()
      ensures rigs == map[]
    {
      rigs := map[];
    }

    /** TryGetServerCameraRig: a plain lookup. */
    function TryGet(clientId: nat): (r: Option<ServerCameraRig>)
      reads this
      ensures r.Some? <==> clientId in rigs
      ensures r.Some? ==> r.value == rigs[clientId]
    {
      if clientId in rigs then Some(rigs[clientId]) else Option.None
    }
  }

  class LocalCameraRig {
    const rig: CameraRig
    /** The ServerCameraRigs observing this rig (a HashSet). */
    var observers: set<ServerCameraRig>

    constructor (d: seq<TrackerEntry>)
      ensures fresh(rig) && rig.trackers == d && observers == {}
    {
      rig := new CameraRig(d);
      observers := {};
    }

    method AddObserver(o: ServerCameraRig)
      modifies this
      ensures observers == old(observers) + {o}
    {
      observers := observers + {o};
    }

    method RemoveObserver(o: ServerCameraRig)
      modifies this
      ensures observers == old(observers) - {o}
    {
      observers := observers - {o};
    }

    /** What NotifyObserver needs: every observer can sync from this rig, and no two
        observers share a transform. */
    predicate Observable()
      reads this, rig, observers, set o | o in observers :: o.rig
    {
      (forall o :: o in observers ==> Syncable(o.rig.trackers, rig.trackers)) &&
      (forall o1, o2 :: o1 in observers && o2 in observers && o1 != o2 ==>
         Values(o1.rig.trackers) !! Values(o2.rig.trackers))
    }

    /** The transforms the observers own. */
    function ObserverTransforms(): set<Transform>
      reads this, observers, set o | o in observers :: o.rig
    {
      set o, t | o in observers && t in Values(o.rig.trackers) :: t
    }

    /** One pass of NotifyObserver's loop: o syncs from this rig, and the other
        observers and this rig keep their values. */
    method NotifyOne(o: ServerCameraRig, others: set<ServerCameraRig>)
      requires Syncable(o.rig.trackers, rig.trackers)
      requires forall o2 :: o2 in others ==> Values(o2.rig.trackers) !! Values(o.rig.trackers)
      modifies Values(o.rig.trackers)
      ensures forall i :: 0 <= i < |o.rig.trackers| ==>
                StateOf(o.rig.trackers[i].value) ==
                  Synced(old(StateOf(o.rig.trackers[i].value)), old(Source(rig.trackers, o.rig.trackers[i].key)))
      ensures forall o2, i :: o2 in others && 0 <= i < |o2.rig.trackers| ==>
                StateOf(o2.rig.trackers[i].value) == old(StateOf(o2.rig.trackers[i].value))
      ensures forall k :: Source(rig.trackers, k) == old(Source(rig.trackers, k))
    {
      o.UpdateTrackerTransforms(rig);
      forall o2, i | o2 in others && 0 <= i < |o2.rig.trackers|
        ensures StateOf(o2.rig.trackers[i].value) == old(StateOf(o2.rig.trackers[i].value))
      {
        assert o2.rig.trackers[i].value in Values(o2.rig.trackers);
      }
    }

    /** NotifyObserver: UpdateTrackerTransforms(this) on every observer, once each;
        afterwards every observer holds this rig's local values for the keys both have. */
    method NotifyObserver()
      requires Observable()
      modifies ObserverTransforms()
      ensures forall o, i :: o in observers && 0 <= i < |o.rig.trackers| ==>
                StateOf(o.rig.trackers[i].value) ==
                  Synced(old(StateOf(o.rig.trackers[i].value)), old(Source(rig.trackers, o.rig.trackers[i].key)))
    {
      var rest := observers;
      while rest != {}
        invariant rest <= observers
        invariant forall k :: Source(rig.trackers, k) == old(Source(rig.trackers, k))
        invariant forall o, i :: o in observers - rest && 0 <= i < |o.rig.trackers| ==>
                    StateOf(o.rig.trackers[i].value) ==
                      Synced(old(StateOf(o.rig.trackers[i].value)), old(Source(rig.trackers, o.rig.trackers[i].key)))
        invariant forall o, i :: o in rest && 0 <= i < |o.rig.trackers| ==>
                    StateOf(o.rig.trackers[i].value) == old(StateOf(o.rig.trackers[i].value))
        decreases |rest|
      {
        var o :| o in rest;
        label before:
        NotifyOne(o, observers - {o});
        forall o2, i | o2 in observers - (rest - {o}) && 0 <= i < |o2.rig.trackers|
          ensures StateOf(o2.rig.trackers[i].value) ==
                    Synced(old(StateOf(o2.rig.trackers[i].value)), old(Source(rig.trackers, o2.rig.trackers[i].key)))
        {
          if o2 == o {
            assert old@before(StateOf(o2.rig.trackers[i].value)) == old(StateOf(o2.rig.trackers[i].value));
            assert old@before(Source(rig.trackers, o2.rig.trackers[i].key)) == old(Source(rig.trackers, o2.rig.trackers[i].key));
          }
        }
        rest := rest - {o};
      }
    }
  }

  /** OnNetworkSpawn: an owner rig starts observing the local rig, then the rig is
      registered under its owner id; Dictionary.Add throws on an id already there, and
      then the registry is left as it was (the observer stays added). */
  method OnNetworkSpawn(s: ServerCameraRig, isOwner: bool, local: LocalCameraRig, registry: Registry)
    returns (ok: bool)
    modifies local, registry
    ensures local.observers == if isOwner then old(local.observers) + {s} else old(local.observers)
    ensures ok <==> s.ownerId !in old(registry.rigs)
    ensures ok ==> registry.rigs == old(registry.rigs)[s.ownerId := s]
    ensures !ok ==> registry.rigs == old(registry.rigs)
  {
    if isOwner {
      local.AddObserver(s);
    }
    if s.ownerId in registry.rigs {
      return false;
    }
    registry.rigs := registry.rigs[s.ownerId := s];
    ok := true;
  }

  /** OnNetworkDespawn: the rig stops observing the local rig and leaves the registry. */
  method OnNetworkDespawn(s: ServerCameraRig, local: LocalCameraRig, registry: Registry)
    modifies local, registry
    ensures local.observers == old(local.observers) - {s}
    ensures registry.rigs == old(registry.rigs) - {s.ownerId}
  {
    local.RemoveObserver(s);
    registry.rigs := registry.rigs - {s.ownerId};
  }

  /** A spawn followed by a despawn, as the registry's lookup sees them: after the
      spawn TryGet finds the rig under its owner id when that id was free (and the rig
      already there when it was not); after the despawn it finds nothing under that id,
      every other id finds what it found before, and the rig no longer observes. */
  method SpawnThenDespawn(s: ServerCameraRig, isOwner: bool, local: LocalCameraRig, registry: Registry)
    returns (afterSpawn: Option<ServerCameraRig>, afterDespawn: Option<ServerCameraRig>)
    modifies local, registry
    ensures s.ownerId !in old(registry.rigs) ==> afterSpawn == Some(s)
    ensures s.ownerId in old(registry.rigs) ==> afterSpawn == Some(old(registry.rigs[s.ownerId]))
    ensures afterDespawn == Option.None
    ensures forall id :: id != s.ownerId ==> registry.TryGet(id) == old(registry.TryGet(id))
    ensures local.observers == old(local.observers) - {s}
  {
    var ok := OnNetworkSpawn(s, isOwner, local, registry);
    afterSpawn := registry.TryGet(s.ownerId);
    OnNetworkDespawn(s, local, registry);
    afterDespawn := registry.TryGet(s.ownerId);
  }
}
