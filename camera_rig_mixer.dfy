// CameraRigMixer: blends several reference rigs into the target rig, tracker type by
// tracker type, with a weight per (tracker type, reference rig) kept in a table of
// MixedTrackerGroups that is rebuilt whenever the reference list changes.
module CameraRigMixerModel {
  import opened Wrappers
  import opened Geometry
  import opened TrackerTypes
  import opened Observers
  import opened Lists
  import opened CameraRigs
  import opened CameraRigMultipleReferencesModel
  import opened CameraRigIdentityModel
  import PoseModel

  // ---- the weight table ----

  /** CameraRigWeight: a rig and its weight. The struct has no Equals of its own, so
      two entries are equal when both the rig and the weight are. */
  datatype RigWeight = RigWeight(rig: CameraRig, weight: real)

  /** MixedTrackerGroup: the tracker type and one weight entry per mixed rig. */
  datatype MixedTrackerGroup = MixedTrackerGroup(tracker: TrackerType, weights: seq<RigWeight>)

  /** The rig has a transform for the tracker type. */
  predicate Has(rig: CameraRig, tracker: TrackerType)
    reads rig
  {
    Lookup(rig.trackers, tracker).Some?
  }

  /** The MixedTrackerGroup constructor: a weight-1 entry for every rig that has the
      tracker type, in the order of the rigs. */
  function NewGroup(tracker: TrackerType, rigs: seq<CameraRig>): (g: MixedTrackerGroup)
    reads rigs
    ensures g.tracker == tracker && |g.weights| <= |rigs|
    ensures forall i :: 0 <= i < |g.weights| ==>
              g.weights[i].weight == 1.0 && g.weights[i].rig in rigs && Has(g.weights[i].rig, tracker)
    ensures forall j :: 0 <= j < |rigs| && Has(rigs[j], tracker) ==>
              exists i :: 0 <= i < |g.weights| && g.weights[i].rig == rigs[j]
  {
    NewGroupOf(tracker, rigs, |rigs|)
  }

  /** The group built from the first n rigs. */
  function NewGroupOf(tracker: TrackerType, rigs: seq<CameraRig>, n: nat): (g: MixedTrackerGroup)
    reads rigs
    requires n <= |rigs|
    ensures g.tracker == tracker && |g.weights| <= n
    ensures forall i :: 0 <= i < |g.weights| ==>
              g.weights[i].weight == 1.0 && g.weights[i].rig in rigs && Has(g.weights[i].rig, tracker)
    ensures forall j :: 0 <= j < n && Has(rigs[j], tracker) ==>
              exists i :: 0 <= i < |g.weights| && g.weights[i].rig == rigs[j]
  {
    if n == 0 then MixedTrackerGroup(tracker, [])
    else
      var g := NewGroupOf(tracker, rigs, n - 1);
      if Has(rigs[n - 1], tracker) then
        var r := MixedTrackerGroup(tracker, g.weights + [RigWeight(rigs[n - 1], 1.0)]);
        assert r.weights[|g.weights|].rig == rigs[n - 1];
        assert forall i :: 0 <= i < |g.weights| ==> r.weights[i] == g.weights[i];
        r
      else g
  }

  /** Index of the first entry for the rig, or -1. */
  function IndexOfRig(ws: seq<RigWeight>, rig: CameraRig): (k: int)
    ensures -1 <= k < |ws|
    ensures k >= 0 ==> ws[k].rig == rig && forall j :: 0 <= j < k ==> ws[j].rig != rig
    ensures k == -1 ==> forall j :: 0 <= j < |ws| ==> ws[j].rig != rig
  {
    FindIndex(ws, (w: RigWeight) => w.rig, rig)
  }

  /** List.IndexOf on entries: the first entry equal to e, rig and weight, or -1. */
  function IndexOfEntry(ws: seq<RigWeight>, e: RigWeight): (k: int)
    ensures -1 <= k < |ws|
    ensures k >= 0 ==> ws[k] == e && forall j :: 0 <= j < k ==> ws[j] != e
    ensures k == -1 ==> e !in ws
  {
    FindIndex(ws, (w: RigWeight) => w, e)
  }

  /** The weight of the first entry for the rig, or (false, 0). */
  function TryGetWeightIn(g: MixedTrackerGroup, rig: CameraRig): (r: (bool, real))
    ensures r.0 <==> exists i :: 0 <= i < |g.weights| && g.weights[i].rig == rig
    ensures r.0 ==> exists i :: 0 <= i < |g.weights| && g.weights[i] == RigWeight(rig, r.1) &&
                      forall j :: 0 <= j < i ==> g.weights[j].rig != rig
    ensures !r.0 ==> r.1 == 0.0
  {
    var k := IndexOfRig(g.weights, rig);
    if k < 0 then (false, 0.0) else (true, g.weights[k].weight)
  }

  /** MixedTrackerGroup.Merge(old, new) as written: List.Contains and List.IndexOf
      compare whole entries, rig and weight, so an old entry is substituted only when
      it equals the new one. */
  function MergeAsWritten(oldGroup: MixedTrackerGroup, newGroup: MixedTrackerGroup): (r: MixedTrackerGroup)
    ensures r.tracker == oldGroup.tracker && |r.weights| == |newGroup.weights|
  {
    MixedTrackerGroup(oldGroup.tracker,
      seq(|newGroup.weights|, i requires 0 <= i < |newGroup.weights| =>
        var k := IndexOfEntry(oldGroup.weights, newGroup.weights[i]);
        if k >= 0 then oldGroup.weights[k] else newGroup.weights[i]))
  }

  /** The merge as written keeps nothing of the old group but its tracker type: the
      result is the new group's entries, fresh weights included. */
  lemma MergeAsWrittenIsNew(oldGroup: MixedTrackerGroup, newGroup: MixedTrackerGroup)
    ensures MergeAsWritten(oldGroup, newGroup) == MixedTrackerGroup(oldGroup.tracker, newGroup.weights)
  {
  }

  /** A weight the user set to 0.5 is lost: rebuilding the table (which merges with a
      freshly built group, whose weights are 1) brings it back to 1. */
  lemma MergeAsWrittenForgets(rig: CameraRig, tracker: TrackerType)
    ensures TryGetWeightIn(MixedTrackerGroup(tracker, [RigWeight(rig, 0.5)]), rig) == (true, 0.5)
    ensures TryGetWeightIn(MergeAsWritten(MixedTrackerGroup(tracker, [RigWeight(rig, 0.5)]),
                                          MixedTrackerGroup(tracker, [RigWeight(rig, 1.0)])), rig) == (true, 1.0)
  {
    MergeAsWrittenIsNew(MixedTrackerGroup(tracker, [RigWeight(rig, 0.5)]), MixedTrackerGroup(tracker, [RigWeight(rig, 1.0)]));
  }

  /** Merge as intended ("the same ICameraRig"): the entries of the new group in its
      order, each replaced by the old group's first entry for the same rig when there
      is one; the tracker type is the old group's. */
  function Merge(oldGroup: MixedTrackerGroup, newGroup: MixedTrackerGroup): (r: MixedTrackerGroup)
    ensures r.tracker == oldGroup.tracker && |r.weights| == |newGroup.weights|
    ensures forall i :: 0 <= i < |r.weights| ==> r.weights[i].rig == newGroup.weights[i].rig
  {
    MixedTrackerGroup(oldGroup.tracker,
      seq(|newGroup.weights|, i requires 0 <= i < |newGroup.weights| =>
        var k := IndexOfRig(oldGroup.weights, newGroup.weights[i].rig);
        if k >= 0 then oldGroup.weights[k] else newGroup.weights[i]))
  }

  /** After a merge, a rig of the new group has its old weight when the old group had
      the rig and its new weight otherwise; a rig only the old group had is gone. */
  lemma MergeLookup(oldGroup: MixedTrackerGroup, newGroup: MixedTrackerGroup, rig: CameraRig)
    ensures var r := TryGetWeightIn(Merge(oldGroup, newGroup), rig);
            var o := TryGetWeightIn(oldGroup, rig);
            var n := TryGetWeightIn(newGroup, rig);
            r == if !n.0 then (false, 0.0) else if o.0 then o else n
  {
    var m := Merge(oldGroup, newGroup);
    var kn := IndexOfRig(newGroup.weights, rig);
    assert IndexOfRig(m.weights, rig) == kn by {
      if kn >= 0 {
        assert m.weights[kn].rig == rig;
        assert forall j :: 0 <= j < kn ==> m.weights[j].rig != rig;
      }
    }
  }

  /** All entries of the same rig are equal: true of every freshly built group. */
  predicate Uniform(g: MixedTrackerGroup)
  {
    forall i, j :: 0 <= i < |g.weights| && 0 <= j < |g.weights| && g.weights[i].rig == g.weights[j].rig ==>
      g.weights[i] == g.weights[j]
  }

  /** Merging the same new group a second time changes nothing. */
  lemma MergeStable(oldGroup: MixedTrackerGroup, newGroup: MixedTrackerGroup)
    requires Uniform(newGroup)
    ensures Merge(Merge(oldGroup, newGroup), newGroup) == Merge(oldGroup, newGroup)
  {
    var m := Merge(oldGroup, newGroup);
    var m2 := Merge(m, newGroup);
    forall i | 0 <= i < |m2.weights|
      ensures m2.weights[i] == m.weights[i]
    {
      var p := newGroup.weights[i].rig;
      var k := IndexOfRig(m.weights, p);
      assert m.weights[i].rig == p;
      assert 0 <= k <= i;
      assert newGroup.weights[k].rig == p;
      assert newGroup.weights[k] == newGroup.weights[i];
    }
  }

  /** Every freshly built group is uniform. */
  lemma NewGroupUniform(tracker: TrackerType, rigs: seq<CameraRig>)
    ensures Uniform(NewGroup(tracker, rigs))
  {
  }

  // ---- rebuilding the table ----

  /** The merge a rebuild applies: the source's (AsWritten), or the intended one of
      the Findings row (Intended), which the component does not use. */
  datatype MergeKind = AsWritten | Intended

  function MergeBy(kind: MergeKind, oldGroup: MixedTrackerGroup, newGroup: MixedTrackerGroup): (r: MixedTrackerGroup)
    ensures r.tracker == oldGroup.tracker && |r.weights| == |newGroup.weights|
    ensures forall i :: 0 <= i < |r.weights| ==> r.weights[i].rig == newGroup.weights[i].rig
  {
    match kind
    case AsWritten =>
      MergeAsWrittenIsNew(oldGroup, newGroup);
      MergeAsWritten(oldGroup, newGroup)
    case Intended => Merge(oldGroup, newGroup)
  }

  /** The inner loop of InitializeMixedTrackerGroups: the new group merged, in table
      order, with every old group of the same tracker type (when merging is asked for). */
  function MergeOld(group: MixedTrackerGroup, olds: seq<MixedTrackerGroup>, merge: bool, kind: MergeKind): (r: MixedTrackerGroup)
    ensures r.tracker == group.tracker && |r.weights| == |group.weights|
    ensures forall i :: 0 <= i < |r.weights| ==> r.weights[i].rig == group.weights[i].rig
  {
    MergeOldOf(group, olds, merge, kind, |olds|)
  }

  /** The merge with the first n old groups. */
  function MergeOldOf(group: MixedTrackerGroup, olds: seq<MixedTrackerGroup>, merge: bool, kind: MergeKind, n: nat): (r: MixedTrackerGroup)
    requires n <= |olds|
    ensures r.tracker == group.tracker && |r.weights| == |group.weights|
    ensures forall i :: 0 <= i < |r.weights| ==> r.weights[i].rig == group.weights[i].rig
  {
    if n == 0 then group
    else
      var g := MergeOldOf(group, olds, merge, kind, n - 1);
      if g.tracker == olds[n - 1].tracker && merge then MergeBy(kind, olds[n - 1], g) else g
  }

  /** The inner loop of InitializeMixedTrackerGroups over the old table, with the
      source's Merge. */
  method MergeAll(built: MixedTrackerGroup, olds: seq<MixedTrackerGroup>, merge: bool) returns (group: MixedTrackerGroup)
    ensures group == MergeOld(built, olds, merge, AsWritten)
  {
    group := built;
    var j := 0;
    while j < |olds|
      invariant 0 <= j <= |olds|
      invariant group == MergeOldOf(built, olds, merge, AsWritten, j)
    {
      if group.tracker == olds[j].tracker && merge {
        group := MergeAsWritten(olds[j], group);
      }
      j := j + 1;
    }
  }

  /** InitializeMixedTrackerGroups: one group per listed tracker type, in list order,
      over the given rigs. */
  function Rebuilt(trackers: seq<TrackerType>, rigs: seq<CameraRig>, olds: seq<MixedTrackerGroup>, merge: bool, kind: MergeKind): (t: seq<MixedTrackerGroup>)
    reads rigs
    ensures |t| == |trackers| && forall i :: 0 <= i < |trackers| ==> t[i].tracker == trackers[i]
    ensures forall i :: 0 <= i < |trackers| ==>
              (|t[i].weights| == |NewGroup(trackers[i], rigs).weights| &&
               forall j :: 0 <= j < |t[i].weights| ==> t[i].weights[j].rig == NewGroup(trackers[i], rigs).weights[j].rig)
  {
    seq(|trackers|, i requires 0 <= i < |trackers| reads rigs => MergeOld(NewGroup(trackers[i], rigs), olds, merge, kind))
  }

  /** Without merging, every rebuilt entry has weight 1. */
  lemma RebuiltFresh(trackers: seq<TrackerType>, rigs: seq<CameraRig>, olds: seq<MixedTrackerGroup>, kind: MergeKind)
    ensures forall i :: 0 <= i < |trackers| ==> Rebuilt(trackers, rigs, olds, false, kind)[i] == NewGroup(trackers[i], rigs)
    ensures forall i, e :: 0 <= i < |trackers| && e in Rebuilt(trackers, rigs, olds, false, kind)[i].weights ==> e.weight == 1.0
  {
    forall i | 0 <= i < |trackers|
      ensures Rebuilt(trackers, rigs, olds, false, kind)[i] == NewGroup(trackers[i], rigs)
    {
      MergeOldOfOff(NewGroup(trackers[i], rigs), olds, kind, |olds|);
    }
  }

  lemma {:induction false} MergeOldOfOff(group: MixedTrackerGroup, olds: seq<MixedTrackerGroup>, kind: MergeKind, n: nat)
    requires n <= |olds|
    ensures MergeOldOf(group, olds, false, kind, n) == group
  {
    if n > 0 {
      MergeOldOfOff(group, olds, kind, n - 1);
    }
  }

  /** With the source's Merge, merging with the old groups gives back the fresh group. */
  lemma {:induction false} MergeOldOfAsWritten(group: MixedTrackerGroup, olds: seq<MixedTrackerGroup>, merge: bool, n: nat)
    requires n <= |olds|
    ensures MergeOldOf(group, olds, merge, AsWritten, n) == group
  {
    if n > 0 {
      MergeOldOfAsWritten(group, olds, merge, n - 1);
      MergeAsWrittenIsNew(olds[n - 1], group);
    }
  }

  /** The rebuild as written forgets the old table: it is the rebuild without
      merging, so every entry is back at weight 1, whatever weight was stored. */
  lemma RebuiltAsWrittenIsFresh(trackers: seq<TrackerType>, rigs: seq<CameraRig>, olds: seq<MixedTrackerGroup>, merge: bool)
    ensures Rebuilt(trackers, rigs, olds, merge, AsWritten) == Rebuilt(trackers, rigs, olds, false, AsWritten)
    ensures forall i, e :: 0 <= i < |trackers| && e in Rebuilt(trackers, rigs, olds, merge, AsWritten)[i].weights ==> e.weight == 1.0
  {
    forall i | 0 <= i < |trackers|
      ensures Rebuilt(trackers, rigs, olds, merge, AsWritten)[i] == NewGroup(trackers[i], rigs)
    {
      MergeOldOfAsWritten(NewGroup(trackers[i], rigs), olds, merge, |olds|);
    }
    RebuiltFresh(trackers, rigs, olds, AsWritten);
  }

  /** With the intended merge, a merge with the only old group of the same tracker
      type keeps that group's weights: a rig the old table weighted w, and still
      mixed, is weighted w again. */
  lemma RebuiltKeeps(trackers: seq<TrackerType>, rigs: seq<CameraRig>, olds: seq<MixedTrackerGroup>, i: nat, j: nat, r: nat)
    requires i < |trackers| && j < |olds| && olds[j].tracker == trackers[i]
    requires forall j' :: 0 <= j' < |olds| && j' != j ==> olds[j'].tracker != trackers[i]
    requires r < |rigs| && Has(rigs[r], trackers[i]) && TryGetWeightIn(olds[j], rigs[r]).0
    ensures TryGetWeightIn(Rebuilt(trackers, rigs, olds, true, Intended)[i], rigs[r]) == TryGetWeightIn(olds[j], rigs[r])
  {
    var g := NewGroup(trackers[i], rigs);
    MergeOldSingle(g, olds, j, |olds|);
    MergeLookup(olds[j], g, rigs[r]);
  }

  lemma {:induction false} MergeOldSingle(group: MixedTrackerGroup, olds: seq<MixedTrackerGroup>, j: nat, n: nat)
    requires j < |olds| && n <= |olds| && olds[j].tracker == group.tracker
    requires forall j' :: 0 <= j' < |olds| && j' != j ==> olds[j'].tracker != group.tracker
    ensures MergeOldOf(group, olds, true, Intended, n) == if n <= j then group else Merge(olds[j], group)
  {
    if n > 0 {
      MergeOldSingle(group, olds, j, n - 1);
    }
  }

  // ---- setting weights ----

  /** The group after every entry of the rig is given weight w. */
  function WithWeight(g: MixedTrackerGroup, rig: CameraRig, w: real): (r: MixedTrackerGroup)
    ensures r.tracker == g.tracker && |r.weights| == |g.weights|
  {
    MixedTrackerGroup(g.tracker, seq(|g.weights|, i requires 0 <= i < |g.weights| =>
      if g.weights[i].rig == rig then RigWeight(rig, w) else g.weights[i]))
  }

  /** Some entry of the rig holds a weight other than w. */
  predicate Differs(g: MixedTrackerGroup, rig: CameraRig, w: real)
  {
    exists i :: 0 <= i < |g.weights| && g.weights[i].rig == rig && g.weights[i].weight != w
  }

  /** MixedTrackerGroup.SetWeightOf(rig, weight, out hasModified). */
  method SetWeightOf(g: MixedTrackerGroup, rig: CameraRig, w: real) returns (r: MixedTrackerGroup, changed: bool)
    ensures r == WithWeight(g, rig, w)
    ensures changed == Differs(g, rig, w)
  {
    var ws := g.weights;
    changed := false;
    var i := 0;
    while i < |ws|
      invariant 0 <= i <= |ws| && |ws| == |g.weights|
      invariant forall j :: 0 <= j < i ==> ws[j] == WithWeight(g, rig, w).weights[j]
      invariant forall j :: i <= j < |ws| ==> ws[j] == g.weights[j]
      invariant changed <==> exists j :: 0 <= j < i && g.weights[j].rig == rig && g.weights[j].weight != w
    {
      if ws[i].rig == rig {
        if ws[i].weight != w {
          changed := true;
        }
        ws := ws[i := RigWeight(rig, w)];
      }
      i := i + 1;
    }
    r := MixedTrackerGroup(g.tracker, ws);
  }

  /** Reading back a weight just set gives that weight, and other rigs keep theirs. */
  lemma SetThenGet(g: MixedTrackerGroup, rig: CameraRig, w: real, q: CameraRig)
    ensures TryGetWeightIn(WithWeight(g, rig, w), q) ==
              if q != rig then TryGetWeightIn(g, q)
              else if TryGetWeightIn(g, rig).0 then (true, w) else (false, 0.0)
  {
    var r := WithWeight(g, rig, w);
    assert forall j :: 0 <= j < |g.weights| ==> r.weights[j].rig == g.weights[j].rig;
    var k := IndexOfRig(g.weights, q);
    assert IndexOfRig(r.weights, q) == k by {
      if k >= 0 {
        assert r.weights[k].rig == q;
        assert forall j :: 0 <= j < k ==> r.weights[j].rig != q;
      }
    }
  }

  /** Setting the same weight again reports no change. */
  lemma SetTwice(g: MixedTrackerGroup, rig: CameraRig, w: real)
    ensures !Differs(WithWeight(g, rig, w), rig, w)
    ensures WithWeight(WithWeight(g, rig, w), rig, w) == WithWeight(g, rig, w)
  {
  }

  // ---- the table-level accessors ----

  /** Index of the first group of the tracker type, or -1. */
  function FirstGroup(table: seq<MixedTrackerGroup>, tracker: TrackerType): (k: int)
    ensures -1 <= k < |table|
    ensures k >= 0 ==> table[k].tracker == tracker && forall j :: 0 <= j < k ==> table[j].tracker != tracker
    ensures k == -1 ==> forall j :: 0 <= j < |table| ==> table[j].tracker != tracker
  {
    FindIndex(table, (g: MixedTrackerGroup) => g.tracker, tracker)
  }

  /** CameraRigMixer.TryGetWeight: the first group of the tracker type, then its first
      entry for the rig; (false, 0) when either is missing, where the source catches
      the exception of an empty First(). */
  function TableWeight(table: seq<MixedTrackerGroup>, rig: CameraRig, tracker: TrackerType): (r: (bool, real))
    ensures r.0 <==> exists i :: 0 <= i < |table| && table[i].tracker == tracker &&
                       (forall j :: 0 <= j < i ==> table[j].tracker != tracker) && TryGetWeightIn(table[i], rig).0
    ensures r.0 ==> exists i, e :: 0 <= i < |table| && table[i].tracker == tracker && e in table[i].weights && e == RigWeight(rig, r.1)
    ensures !r.0 ==> r.1 == 0.0
  {
    var k := FirstGroup(table, tracker);
    if k < 0 then (false, 0.0)
    else
      var r := TryGetWeightIn(table[k], rig);
      assert r.0 ==> RigWeight(rig, r.1) in table[k].weights;
      r
  }

  /** How many of the first n groups are of the tracker type. */
  function TrackerCount(table: seq<MixedTrackerGroup>, tracker: TrackerType, n: nat): (c: nat)
    requires n <= |table|
    ensures c <= n
  {
    if n == 0 then 0
    else TrackerCount(table, tracker, n - 1) + (if table[n - 1].tracker == tracker then 1 else 0)
  }

  /** The table after CameraRigMixer.SetWeight: the i-th group of the tracker type has
      its entries for the rig set to the weight clamped i times. */
  function SetTable(table: seq<MixedTrackerGroup>, rig: CameraRig, tracker: TrackerType, w: real, lo: real, hi: real): (t: seq<MixedTrackerGroup>)
    ensures |t| == |table|
  {
    seq(|table|, i requires 0 <= i < |table| =>
      if table[i].tracker == tracker then WithWeight(table[i], rig, ClampTimes(w, lo, hi, TrackerCount(table, tracker, i + 1)))
      else table[i])
  }

  /** Whether CameraRigMixer.SetWeight changes a stored weight. */
  predicate TableDiffers(table: seq<MixedTrackerGroup>, rig: CameraRig, tracker: TrackerType, w: real, lo: real, hi: real)
  {
    DiffersBefore(table, rig, tracker, w, lo, hi, |table|)
  }

  /** Whether SetWeight changes a stored weight of one of the first n groups. */
  predicate DiffersBefore(table: seq<MixedTrackerGroup>, rig: CameraRig, tracker: TrackerType, w: real, lo: real, hi: real, n: nat)
    requires n <= |table|
  {
    exists i :: 0 <= i < n && ChangesGroup(table, rig, tracker, w, lo, hi, i)
  }

  /** Whether SetWeight changes a stored weight of the i-th group. */
  predicate ChangesGroup(table: seq<MixedTrackerGroup>, rig: CameraRig, tracker: TrackerType, w: real, lo: real, hi: real, i: nat)
    requires i < |table|
  {
    table[i].tracker == tracker && Differs(table[i], rig, ClampTimes(w, lo, hi, TrackerCount(table, tracker, i + 1)))
  }

  /** One iteration of SetWeight's loop: with the weight clamped once per earlier group
      of the tracker type, the i-th group is what SetTable makes of it. */
  lemma SetTableStep(table: seq<MixedTrackerGroup>, rig: CameraRig, tracker: TrackerType, weight: real, lo: real, hi: real, i: nat, w: real)
    requires i < |table| && w == ClampTimes(weight, lo, hi, TrackerCount(table, tracker, i))
    ensures TrackerCount(table, tracker, i + 1) == TrackerCount(table, tracker, i) + if table[i].tracker == tracker then 1 else 0
    ensures SetTable(table, rig, tracker, weight, lo, hi)[i] ==
              if table[i].tracker == tracker then WithWeight(table[i], rig, Clamp(w, lo, hi)) else table[i]
    ensures DiffersBefore(table, rig, tracker, weight, lo, hi, i + 1) <==>
              DiffersBefore(table, rig, tracker, weight, lo, hi, i) || (table[i].tracker == tracker && Differs(table[i], rig, Clamp(w, lo, hi)))
  {
    assert ChangesGroup(table, rig, tracker, weight, lo, hi, i) <==> table[i].tracker == tracker && Differs(table[i], rig, Clamp(w, lo, hi));
    DiffersBeforeStep(table, rig, tracker, weight, lo, hi, i);
  }

  lemma DiffersBeforeStep(table: seq<MixedTrackerGroup>, rig: CameraRig, tracker: TrackerType, w: real, lo: real, hi: real, i: nat)
    requires i < |table|
    ensures DiffersBefore(table, rig, tracker, w, lo, hi, i + 1) <==>
              DiffersBefore(table, rig, tracker, w, lo, hi, i) || ChangesGroup(table, rig, tracker, w, lo, hi, i)
  {
    if DiffersBefore(table, rig, tracker, w, lo, hi, i + 1) && !ChangesGroup(table, rig, tracker, w, lo, hi, i) {
      var k :| 0 <= k < i + 1 && ChangesGroup(table, rig, tracker, w, lo, hi, k);
      assert k < i;
    }
  }

  /** The loop of CameraRigMixer.SetWeight over the table: each group of the tracker
      type clamps the running weight again and sets it for the rig. */
  method SetTableIn(table: seq<MixedTrackerGroup>, rig: CameraRig, tracker: TrackerType, weight: real, lo: real, hi: real)
    returns (groups: seq<MixedTrackerGroup>, changed: bool)
    ensures groups == SetTable(table, rig, tracker, weight, lo, hi)
    ensures changed == TableDiffers(table, rig, tracker, weight, lo, hi)
  {
    groups := table;
    changed := false;
    var w := weight;
    var i := 0;
    ghost var n := 0;
    ghost var target := SetTable(table, rig, tracker, weight, lo, hi);
    while i < |groups|
      invariant 0 <= i <= |groups| == |table| == |target|
      invariant n == TrackerCount(table, tracker, i) && w == ClampTimes(weight, lo, hi, n)
      invariant forall k :: 0 <= k < i ==> groups[k] == target[k]
      invariant forall k :: i <= k < |table| ==> groups[k] == table[k]
      invariant changed == DiffersBefore(table, rig, tracker, weight, lo, hi, i)
    {
      SetTableStep(table, rig, tracker, weight, lo, hi, i, w);
      assert groups[i] == table[i];
      if table[i].tracker == tracker {
        w := Clamp(w, lo, hi);
        var g, differs := SetWeightOf(table[i], rig, w);
        assert g == target[i];
        groups := groups[i := g];
        changed := changed || differs;
        n := n + 1;
      }
      assert groups[i] == target[i];
      i := i + 1;
    }
  }

  /** With lo <= hi, SetWeight stores the clamped weight in every group of the tracker
      type, and a later TryGetWeight returns it when the rig was there. */
  lemma SetTableThenGet(table: seq<MixedTrackerGroup>, rig: CameraRig, tracker: TrackerType, w: real, lo: real, hi: real)
    requires lo <= hi
    ensures forall i :: 0 <= i < |table| && table[i].tracker == tracker ==>
              SetTable(table, rig, tracker, w, lo, hi)[i] == WithWeight(table[i], rig, Clamp(w, lo, hi))
    ensures forall i :: 0 <= i < |table| && table[i].tracker != tracker ==> SetTable(table, rig, tracker, w, lo, hi)[i] == table[i]
    ensures TableWeight(SetTable(table, rig, tracker, w, lo, hi), rig, tracker) ==
              if TableWeight(table, rig, tracker).0 then (true, Clamp(w, lo, hi)) else (false, 0.0)
  {
    var t := SetTable(table, rig, tracker, w, lo, hi);
    forall i | 0 <= i < |table| && table[i].tracker == tracker
      ensures t[i] == WithWeight(table[i], rig, Clamp(w, lo, hi))
    {
      assert TrackerCount(table, tracker, i + 1) >= 1;
      ClampTimesOnce(w, lo, hi, TrackerCount(table, tracker, i + 1));
    }
    var k := FirstGroup(table, tracker);
    assert FirstGroup(t, tracker) == k by {
      FirstGroupSame(table, t, tracker);
    }
    if k >= 0 {
      SetThenGet(table[k], rig, Clamp(w, lo, hi), rig);
    }
  }

  lemma FirstGroupSame(a: seq<MixedTrackerGroup>, b: seq<MixedTrackerGroup>, tracker: TrackerType)
    requires |a| == |b| && forall i :: 0 <= i < |a| ==> a[i].tracker == b[i].tracker
    ensures FirstGroup(a, tracker) == FirstGroup(b, tracker)
  {
    var ka, kb := FirstGroup(a, tracker), FirstGroup(b, tracker);
    if ka >= 0 && kb >= 0 {
      assert !(ka < kb) && !(kb < ka);
    }
  }

  // ---- mixing, on values ----

  /** The position a transform holds in the given space. */
  function PositionIn(s: TransformState, isLocal: bool): Vec3
  {
    if isLocal then s.localPosition else s.position
  }

  /** The rotation a transform holds in the given space. */
  function RotationIn(s: TransformState, isLocal: bool): Quat
  {
    if isLocal then s.localRotation else s.rotation
  }

  /** One entry of a group at mixing time: what the rig's transform of the group's
      tracker type holds (none when the rig lacks it), and the entry's weight. */
  datatype Sample = Sample(state: Option<TransformState>, weight: real)

  /** The weights of the first n samples that have a transform. */
  function WeightSum(samples: seq<Sample>, n: nat): real
    requires n <= |samples|
  {
    if n == 0 then 0.0
    else if samples[n - 1].state.Some? then WeightSum(samples, n - 1) + samples[n - 1].weight
    else WeightSum(samples, n - 1)
  }

  /** The weighted positions of the first n samples that have a transform. */
  function PositionSum(samples: seq<Sample>, isLocal: bool, n: nat): Vec3
    requires n <= |samples|
  {
    if n == 0 then Zero
    else if samples[n - 1].state.Some? then
      PositionSum(samples, isLocal, n - 1).Add(PositionIn(samples[n - 1].state.value, isLocal).Scale(samples[n - 1].weight))
    else PositionSum(samples, isLocal, n - 1)
  }

  /** MixedTrackerGroup.GetMixedPosition: the weighted mean of the positions, or the
      origin when the weights add up to zero. */
  function MixedPosition(samples: seq<Sample>, isLocal: bool): (p: Vec3)
    ensures WeightSum(samples, |samples|) == 0.0 ==> p == Zero
  {
    var w := WeightSum(samples, |samples|);
    if w == 0.0 then Zero else PositionSum(samples, isLocal, |samples|).Scale(1.0 / w)
  }

  /** When every weighted sample holds the same position p, the weighted sum is p
      times the sum of the weights. */
  lemma {:induction false} PositionSumAgree(samples: seq<Sample>, isLocal: bool, n: nat, p: Vec3)
    requires n <= |samples|
    requires forall i :: 0 <= i < n && samples[i].state.Some? && samples[i].weight != 0.0 ==>
               PositionIn(samples[i].state.value, isLocal) == p
    ensures PositionSum(samples, isLocal, n) == p.Scale(WeightSum(samples, n))
  {
    if n > 0 {
      PositionSumAgree(samples, isLocal, n - 1, p);
      var a := WeightSum(samples, n - 1);
      var s := samples[n - 1];
      if s.state.Some? {
        var q := PositionIn(s.state.value, isLocal);
        if s.weight == 0.0 {
          assert q.Scale(s.weight) == Zero;
        } else {
          assert q == p;
        }
        assert p.Scale(a).Add(p.Scale(s.weight)) == p.Scale(a + s.weight);
      }
    }
  }

  /** References that agree on a tracker's position mix to that position, whatever
      their (not all zero) weights; a single weighted reference is copied. */
  lemma MixedPositionAgree(samples: seq<Sample>, isLocal: bool, p: Vec3)
    requires WeightSum(samples, |samples|) != 0.0
    requires forall i :: 0 <= i < |samples| && samples[i].state.Some? && samples[i].weight != 0.0 ==>
               PositionIn(samples[i].state.value, isLocal) == p
    ensures MixedPosition(samples, isLocal) == p
  {
    var w := WeightSum(samples, |samples|);
    PositionSumAgree(samples, isLocal, |samples|, p);
    assert (1.0 / w) * (w * p.x) == p.x && (1.0 / w) * (w * p.y) == p.y && (1.0 / w) * (w * p.z) == p.z;
  }

  /** A (rotation, weight) argument of GetMixedQuaternion. */
  datatype RotationArg = RotationArg(q: Quat, w: real)

  /** GetMixedRotation's arguments: the rotation and weight of each entry, or the
      identity with weight 0 for a rig that lacks the tracker type. */
  function RotationArgs(samples: seq<Sample>, isLocal: bool): (args: seq<RotationArg>)
    ensures |args| == |samples|
  {
    seq(|samples|, i requires 0 <= i < |samples| =>
      if samples[i].state.Some? then RotationArg(RotationIn(samples[i].state.value, isLocal), samples[i].weight)
      else RotationArg(Identity, 0.0))
  }

  /** The pairwise GetMixedQuaternion: a side of weight zero yields the other side;
      otherwise the right rotation is approached by its share of the weight. The
      weights always add up. */
  function MixPair(left: RotationArg, right: RotationArg): (m: RotationArg)
    ensures m.w == left.w + right.w
    ensures left.w == 0.0 ==> m == right
    ensures left.w != 0.0 && right.w == 0.0 ==> m == left
    ensures left.q == right.q ==> m.q == left.q
  {
    if left.w == 0.0 then right
    else if right.w == 0.0 then left
    else RotationArg(Slerp(left.q, right.q, PoseModel.SlerpParam(left.w, right.w)), left.w + right.w)
  }

  /** The running pair after the first n arguments have been folded, left to right. */
  function Fold(args: seq<RotationArg>, n: nat): RotationArg
    requires 1 <= n <= |args|
  {
    if n == 1 then args[0] else MixPair(Fold(args, n - 1), args[n - 1])
  }

  /** The weights of the first n arguments. */
  function ArgWeightSum(args: seq<RotationArg>, n: nat): real
    requires n <= |args|
  {
    if n == 0 then 0.0 else ArgWeightSum(args, n - 1) + args[n - 1].w
  }

  /** The n-ary GetMixedQuaternion: the identity for no argument, the rotation of the
      fold otherwise (for one argument, that argument's rotation). */
  function MixedQuaternion(args: seq<RotationArg>): (q: Quat)
    ensures |args| == 1 ==> q == args[0].q
  {
    if |args| == 0 then Identity else Fold(args, |args|).q
  }

  /** The fold carries the sum of the weights it has folded. */
  lemma {:induction false} FoldWeight(args: seq<RotationArg>, n: nat)
    requires 1 <= n <= |args|
    ensures Fold(args, n).w == ArgWeightSum(args, n)
  {
    if n > 1 {
      FoldWeight(args, n - 1);
    }
  }

  /** Arguments whose weighted rotations all equal q fold to q, once some weight has
      been folded. */
  lemma {:induction false} FoldAgree(args: seq<RotationArg>, n: nat, q: Quat)
    requires 1 <= n <= |args|
    requires forall i :: 0 <= i < n && args[i].w != 0.0 ==> args[i].q == q
    ensures Fold(args, n).w != 0.0 ==> Fold(args, n).q == q
  {
    if n > 1 {
      FoldAgree(args, n - 1, q);
      var l, r := Fold(args, n - 1), args[n - 1];
      if l.w != 0.0 && r.w != 0.0 {
        assert l.q == r.q;
      }
    }
  }

  /** With every weight zero, the fold is the last argument. */
  lemma {:induction false} FoldUnweighted(args: seq<RotationArg>, n: nat)
    requires 1 <= n <= |args|
    requires forall i :: 0 <= i < n ==> args[i].w == 0.0
    ensures Fold(args, n) == args[n - 1]
  {
    if n > 1 {
      FoldUnweighted(args, n - 1);
    }
  }

  /** With exactly one argument of nonzero weight, the n-ary mix is that argument's
      rotation. */
  lemma {:induction false} MixedQuaternionSingle(args: seq<RotationArg>, k: nat)
    requires k < |args| && args[k].w != 0.0
    requires forall i :: 0 <= i < |args| && i != k ==> args[i].w == 0.0
    ensures MixedQuaternion(args) == args[k].q
  {
    SingleArgWeight(args, k, |args|);
    FoldWeight(args, |args|);
    FoldAgree(args, |args|, args[k].q);
  }

  lemma {:induction false} SingleArgWeight(args: seq<RotationArg>, k: nat, n: nat)
    requires k < n <= |args|
    requires forall i :: 0 <= i < n && i != k ==> args[i].w == 0.0
    ensures ArgWeightSum(args, n) == args[k].w
  {
    if n - 1 == k {
      ZeroArgWeights(args, k);
    } else {
      SingleArgWeight(args, k, n - 1);
    }
  }

  lemma {:induction false} ZeroArgWeights(args: seq<RotationArg>, n: nat)
    requires n <= |args|
    requires forall i :: 0 <= i < n ==> args[i].w == 0.0
    ensures ArgWeightSum(args, n) == 0.0
  {
    if n > 0 {
      ZeroArgWeights(args, n - 1);
    }
  }

  /** The arguments carry the weights of the samples that have a transform. */
  lemma {:induction false} ArgWeightsOfSamples(samples: seq<Sample>, isLocal: bool, n: nat)
    requires n <= |samples|
    ensures ArgWeightSum(RotationArgs(samples, isLocal), n) == WeightSum(samples, n)
  {
    if n > 0 {
      ArgWeightsOfSamples(samples, isLocal, n - 1);
    }
  }

  /** References that agree on a tracker's rotation mix to that rotation, whatever
      their (not all zero) weights; a single weighted reference is copied. */
  lemma {:induction false} MixedRotationAgree(samples: seq<Sample>, isLocal: bool, q: Quat)
    requires WeightSum(samples, |samples|) != 0.0
    requires forall i :: 0 <= i < |samples| && samples[i].state.Some? && samples[i].weight != 0.0 ==>
               RotationIn(samples[i].state.value, isLocal) == q
    ensures MixedQuaternion(RotationArgs(samples, isLocal)) == q
  {
    var args := RotationArgs(samples, isLocal);
    ArgWeightsOfSamples(samples, isLocal, |samples|);
    assert |samples| > 0;
    FoldWeight(args, |args|);
    FoldAgree(args, |args|, q);
  }

  /** When no reference weighs anything, the position goes to the origin while the
      rotation is the last reference's, or the identity when that rig lacks the
      tracker type. */
  lemma MixedUnweighted(samples: seq<Sample>, isLocal: bool)
    requires |samples| > 0
    requires forall i :: 0 <= i < |samples| ==> samples[i].state.None? || samples[i].weight == 0.0
    ensures MixedPosition(samples, isLocal) == Zero
    ensures var last := samples[|samples| - 1];
            MixedQuaternion(RotationArgs(samples, isLocal)) ==
              if last.state.Some? then RotationIn(last.state.value, isLocal) else Identity
  {
    var args := RotationArgs(samples, isLocal);
    ArgWeightsOfSamples(samples, isLocal, |samples|);
    FoldUnweighted(args, |args|);
    ZeroWeights(samples, isLocal, |samples|);
  }

  lemma {:induction false} ZeroWeights(samples: seq<Sample>, isLocal: bool, n: nat)
    requires n <= |samples|
    requires forall i :: 0 <= i < n ==> samples[i].state.None? || samples[i].weight == 0.0
    ensures WeightSum(samples, n) == 0.0
  {
    if n > 0 {
      ZeroWeights(samples, isLocal, n - 1);
    }
  }

  /** What RemapOnUpdate leaves, for one group, in a target transform holding s:
      the mixed position and rotation written in the space each policy names. */
  function Blend(s: TransformState, samples: seq<Sample>, position: Space, rotation: Space): (r: TransformState)
    ensures r.position == (if position == Global then MixedPosition(samples, false) else s.position)
    ensures r.localPosition == (if position == Local then MixedPosition(samples, true) else s.localPosition)
    ensures r.rotation == (if rotation == Global then MixedQuaternion(RotationArgs(samples, false)) else s.rotation)
    ensures r.localRotation == (if rotation == Local then MixedQuaternion(RotationArgs(samples, true)) else s.localRotation)
    ensures r.localEulerAngles == s.localEulerAngles
  {
    var p := match position
      case None => s
      case Local => s.(localPosition := MixedPosition(samples, true))
      case Global => s.(position := MixedPosition(samples, false));
    match rotation
    case None => p
    case Local => p.(localRotation := MixedQuaternion(RotationArgs(samples, true)))
    case Global => p.(rotation := MixedQuaternion(RotationArgs(samples, false)))
  }

  /** A blend is a position write followed by a rotation write. */
  lemma BlendFields(s0: TransformState, s1: TransformState, s2: TransformState, samples: seq<Sample>, position: Space, rotation: Space)
    requires s1.position == (if position == Global then MixedPosition(samples, false) else s0.position)
    requires s1.localPosition == (if position == Local then MixedPosition(samples, true) else s0.localPosition)
    requires s1.rotation == s0.rotation && s1.localRotation == s0.localRotation && s1.localEulerAngles == s0.localEulerAngles
    requires s2.rotation == (if rotation == Global then MixedQuaternion(RotationArgs(samples, false)) else s1.rotation)
    requires s2.localRotation == (if rotation == Local then MixedQuaternion(RotationArgs(samples, true)) else s1.localRotation)
    requires s2.position == s1.position && s2.localPosition == s1.localPosition && s2.localEulerAngles == s1.localEulerAngles
    ensures s2 == Blend(s0, samples, position, rotation)
  {
  }

  /** A later group of the same tracker type overwrites what an earlier one wrote. */
  lemma BlendOverwrite(s: TransformState, a: seq<Sample>, b: seq<Sample>, position: Space, rotation: Space)
    ensures Blend(Blend(s, a, position, rotation), b, position, rotation) == Blend(s, b, position, rotation)
  {
  }

  /** With one weighted reference that has the tracker type, the mixer copies it as
      CameraRigIdentity would, whatever the weight. */
  lemma BlendSingle(s: TransformState, samples: seq<Sample>, k: nat, position: Space, rotation: Space)
    requires k < |samples| && samples[k].state.Some? && samples[k].weight != 0.0
    requires forall i :: 0 <= i < |samples| && i != k ==> samples[i].state.None? || samples[i].weight == 0.0
    ensures Blend(s, samples, position, rotation) == Copied(s, samples[k].state.value, position, rotation)
  {
    var src := samples[k].state.value;
    SingleWeight(samples, k, |samples|);
    MixedPositionAgree(samples, true, src.localPosition);
    MixedPositionAgree(samples, false, src.position);
    MixedRotationAgree(samples, true, src.localRotation);
    MixedRotationAgree(samples, false, src.rotation);
  }

  lemma {:induction false} SingleWeight(samples: seq<Sample>, k: nat, n: nat)
    requires k < n <= |samples| && samples[k].state.Some?
    requires forall i :: 0 <= i < n && i != k ==> samples[i].state.None? || samples[i].weight == 0.0
    ensures WeightSum(samples, n) == samples[k].weight
  {
    if n - 1 == k {
      ZeroWeights(samples, true, k);
    } else {
      SingleWeight(samples, k, n - 1);
    }
  }

  /** What a tick leaves in a target transform of tracker type `key` holding s, after
      the first n groups: each group of that type blends in its samples S[i]. */
  function Ticked(s: TransformState, key: TrackerType, table: seq<MixedTrackerGroup>, S: seq<seq<Sample>>,
                  position: Space, rotation: Space, n: nat): TransformState
    requires n <= |table| == |S|
  {
    if n == 0 then s
    else
      var a := Ticked(s, key, table, S, position, rotation, n - 1);
      if table[n - 1].tracker == key then Blend(a, S[n - 1], position, rotation) else a
  }

  /** Index of the last of the first n groups of the tracker type, or -1. */
  function LastGroup(table: seq<MixedTrackerGroup>, key: TrackerType, n: nat): (k: int)
    requires n <= |table|
    ensures -1 <= k < n
    ensures k >= 0 ==> table[k].tracker == key && forall j :: k < j < n ==> table[j].tracker != key
    ensures k == -1 ==> forall j :: 0 <= j < n ==> table[j].tracker != key
  {
    if n == 0 then -1 else if table[n - 1].tracker == key then n - 1 else LastGroup(table, key, n - 1)
  }

  /** Only the last group of the tracker type counts; with none, the transform keeps
      its values. */
  lemma {:induction false} TickedLast(s: TransformState, key: TrackerType, table: seq<MixedTrackerGroup>, S: seq<seq<Sample>>,
                                      position: Space, rotation: Space, n: nat)
    requires n <= |table| == |S|
    ensures var k := LastGroup(table, key, n);
            Ticked(s, key, table, S, position, rotation, n) == if k < 0 then s else Blend(s, S[k], position, rotation)
  {
    if n > 0 {
      TickedLast(s, key, table, S, position, rotation, n - 1);
      var a := Ticked(s, key, table, S, position, rotation, n - 1);
      var k := LastGroup(table, key, n - 1);
      if table[n - 1].tracker == key {
        assert LastGroup(table, key, n) == n - 1;
        assert Ticked(s, key, table, S, position, rotation, n) == Blend(a, S[n - 1], position, rotation);
        if k >= 0 {
          assert a == Blend(s, S[k], position, rotation);
          BlendOverwrite(s, S[k], S[n - 1], position, rotation);
        }
      } else {
        assert LastGroup(table, key, n) == k;
        assert Ticked(s, key, table, S, position, rotation, n) == a;
      }
    }
  }

  // ---- mixing, on the heap ----

  /** The rigs of a group's entries. */
  function Rigs(ws: seq<RigWeight>): (r: set<CameraRig>)
    ensures forall i :: 0 <= i < |ws| ==> ws[i].rig in r
  {
    set i | 0 <= i < |ws| :: ws[i].rig
  }

  /** The transforms of those rigs. */
  function RigValues(ws: seq<RigWeight>): (r: set<Transform>)
    reads Rigs(ws)
    ensures forall i :: 0 <= i < |ws| ==> Values(ws[i].rig.trackers) <= r
  {
    set i, t | 0 <= i < |ws| && t in Values(ws[i].rig.trackers) :: t
  }

  /** One entry at mixing time. */
  function SampleOf(e: RigWeight, tracker: TrackerType): (s: Sample)
    reads e.rig, Values(e.rig.trackers)
    ensures s.weight == e.weight && (s.state.Some? <==> Has(e.rig, tracker))
  {
    Sample(Source(e.rig.trackers, tracker), e.weight)
  }

  /** The group's entries at mixing time, in order. */
  function Samples(g: MixedTrackerGroup): (s: seq<Sample>)
    reads Rigs(g.weights), RigValues(g.weights)
    ensures |s| == |g.weights| && forall i :: 0 <= i < |g.weights| ==> s[i] == SampleOf(g.weights[i], g.tracker)
  {
    seq(|g.weights|, i requires 0 <= i < |g.weights| reads Rigs(g.weights), RigValues(g.weights) =>
      SampleOf(g.weights[i], g.tracker))
  }

  /** The rigs of every group. */
  function TableRigs(table: seq<MixedTrackerGroup>): (r: set<CameraRig>)
    ensures forall i :: 0 <= i < |table| ==> Rigs(table[i].weights) <= r
  {
    set i, e | 0 <= i < |table| && e in table[i].weights :: e.rig
  }

  /** The transforms of the rigs of every group. */
  function TableValues(table: seq<MixedTrackerGroup>): (r: set<Transform>)
    reads TableRigs(table)
    ensures forall i :: 0 <= i < |table| ==> RigValues(table[i].weights) <= r
  {
    set i, e, t | 0 <= i < |table| && e in table[i].weights && t in Values(e.rig.trackers) :: t
  }

  /** Every group's entries at mixing time. */
  function SamplesTable(table: seq<MixedTrackerGroup>): (S: seq<seq<Sample>>)
    reads TableRigs(table), TableValues(table)
    ensures |S| == |table| && forall i :: 0 <= i < |table| ==> S[i] == Samples(table[i])
  {
    seq(|table|, i requires 0 <= i < |table| reads TableRigs(table), TableValues(table) => Samples(table[i]))
  }

  /** MixedTrackerGroup.GetMixedPosition, reading the rigs' transforms. */
  method GetMixedPosition(g: MixedTrackerGroup, isLocal: bool, ghost samples: seq<Sample>) returns (p: Vec3)
    requires samples == Samples(g)
    ensures p == MixedPosition(samples, isLocal)
  {
    var result := Zero;
    var sum := 0.0;
    var i := 0;
    while i < |g.weights|
      invariant 0 <= i <= |g.weights|
      invariant result == PositionSum(samples, isLocal, i) && sum == WeightSum(samples, i)
    {
      var e := g.weights[i];
      var found := Lookup(e.rig.trackers, g.tracker);
      if found.Some? {
        var t := found.value;
        result := result.Add((if isLocal then t.localPosition else t.position).Scale(e.weight));
        sum := sum + e.weight;
      }
      i := i + 1;
    }
    p := if sum == 0.0 then Zero else result.Scale(1.0 / sum);
  }

  /** The n-ary GetMixedQuaternion, in place: each slot from the second on is
      overwritten by the pair folded so far, and the last slot's rotation returned. */
  method GetMixedQuaternion(args: array<RotationArg>) returns (q: Quat)
    modifies args
    ensures q == MixedQuaternion(old(args[..]))
    ensures forall k :: 0 <= k < args.Length ==> args[k] == Fold(old(args[..]), k + 1)
  {
    ghost var a := args[..];
    if args.Length == 0 {
      return Identity;
    }
    if args.Length == 1 {
      return args[0].q;
    }
    var i := 0;
    while i < args.Length - 1
      invariant 0 <= i <= args.Length - 1
      invariant forall k :: 0 <= k <= i ==> args[k] == Fold(a, k + 1)
      invariant forall k :: i < k < args.Length ==> args[k] == a[k]
    {
      var m := MixPair(args[i], args[i + 1]);
      args[i + 1] := m;
      i := i + 1;
    }
    q := args[args.Length - 1].q;
  }

  /** MixedTrackerGroup.GetMixedRotation: the arguments gathered from the rigs, then
      the n-ary GetMixedQuaternion; `samples` names the group's entries at the call. */
  method GetMixedRotation(g: MixedTrackerGroup, isLocal: bool, ghost samples: seq<Sample>) returns (q: Quat)
    requires samples == Samples(g)
    ensures q == MixedQuaternion(RotationArgs(samples, isLocal))
  {
    var n := |g.weights|;
    var args := new RotationArg[n](_ => RotationArg(Identity, 0.0));
    ghost var expected := RotationArgs(samples, isLocal);
    var i := 0;
    while i < n
      invariant 0 <= i <= n == args.Length
      invariant forall k :: 0 <= k < i ==> args[k] == expected[k]
    {
      var e := g.weights[i];
      var found := Lookup(e.rig.trackers, g.tracker);
      if found.Some? {
        var t := found.value;
        args[i] := RotationArg(if isLocal then t.localRotation else t.rotation, e.weight);
      } else {
        args[i] := RotationArg(Identity, 0.0);
      }
      i := i + 1;
    }
    assert args[..] == expected;
    q := GetMixedQuaternion(args);
  }

  /** The two switches of one pass of RemapOnUpdate's loop, on the target transform t
      of the group's tracker type; the rigs of the group are only read, so `samples`
      still names their entries at the end. */
  method MixInto(t: Transform, g: MixedTrackerGroup, position: Space, rotation: Space, ghost samples: seq<Sample>)
    requires t !in RigValues(g.weights) && samples == Samples(g)
    modifies t
    ensures StateOf(t) == Blend(old(StateOf(t)), samples, position, rotation)
  {
    if position != Space.None {
      var p := GetMixedPosition(g, position == Local, samples);
      SetPosition(t, p, position);
    }
    ghost var s1 := StateOf(t);
    if rotation != Space.None {
      var q := GetMixedRotation(g, rotation == Local, samples);
      SetRotation(t, q, rotation);
    }
    BlendFields(old(StateOf(t)), s1, StateOf(t), samples, position, rotation);
  }

  /** One pass of RemapOnUpdate's loop, for group i: the target transform of its
      tracker type, if the target has one, gets the group's blend; every other target
      transform and every reference transform keep their values. */
  method MixGroup(own: seq<TrackerEntry>, table: seq<MixedTrackerGroup>, i: nat, position: Space, rotation: Space)
    requires i < |table| && UniqueKeys(own) && DistinctValues(own) && Values(own) !! TableValues(table)
    modifies Values(own)
    ensures forall k :: 0 <= k < |table| ==> Samples(table[k]) == old(Samples(table[k]))
    ensures forall j :: 0 <= j < |own| ==>
              StateOf(own[j].value) ==
                if own[j].key == table[i].tracker then Blend(old(StateOf(own[j].value)), old(Samples(table[i])), position, rotation)
                else old(StateOf(own[j].value))
  {
    var g := table[i];
    var found := Lookup(own, g.tracker);
    if found.Some? {
      var t := found.value;
      MixFound(t, table, i, position, rotation);
      forall j | 0 <= j < |own| && own[j].key != g.tracker
        ensures own[j].value != t
      {
        var n :| 0 <= n < |own| && own[n].key == g.tracker && own[n].value == t;
        assert n != j;
      }
    }
  }

  /** MixGroup when the target has a transform t for the group's tracker type: t gets
      the group's blend, and no rig of the table is touched. */
  method MixFound(t: Transform, table: seq<MixedTrackerGroup>, i: nat, position: Space, rotation: Space)
    requires i < |table| && t !in TableValues(table)
    modifies t
    ensures forall k :: 0 <= k < |table| ==> Samples(table[k]) == old(Samples(table[k]))
    ensures StateOf(t) == Blend(old(StateOf(t)), old(Samples(table[i])), position, rotation)
  {
    MixInto(t, table[i], position, rotation, Samples(table[i]));
    forall k | 0 <= k < |table|
      ensures Samples(table[k]) == old(Samples(table[k]))
    {
      assert t !in RigValues(table[k].weights);
    }
  }

  /** RemapOnUpdate's loop over the table, in table order: every target transform
      ends as Ticked says, from the values before the tick. */
  method MixAll(own: seq<TrackerEntry>, table: seq<MixedTrackerGroup>, position: Space, rotation: Space)
    requires UniqueKeys(own) && DistinctValues(own) && Values(own) !! TableValues(table)
    modifies Values(own)
    ensures forall j :: 0 <= j < |own| ==>
              StateOf(own[j].value) ==
                Ticked(old(StateOf(own[j].value)), own[j].key, table, old(SamplesTable(table)), position, rotation, |table|)
  {
    ghost var S := SamplesTable(table);
    var i := 0;
    while i < |table|
      invariant 0 <= i <= |table|
      invariant forall k :: 0 <= k < |table| ==> Samples(table[k]) == S[k]
      invariant forall j :: 0 <= j < |own| ==>
                  StateOf(own[j].value) == Ticked(old(StateOf(own[j].value)), own[j].key, table, S, position, rotation, i)
    {
      MixGroup(own, table, i, position, rotation);
      i := i + 1;
    }
  }

  /** The loop of InitializeMixedTrackerGroups: a fresh group per tracker type, in list
      order, each merged with the old groups of its type. */
  method BuildTable(trackers: seq<TrackerType>, references: seq<CameraRig>, oldGroup: seq<MixedTrackerGroup>, merge: bool)
    returns (result: seq<MixedTrackerGroup>)
    ensures result == Rebuilt(trackers, references, oldGroup, merge, AsWritten)
  {
    result := [];
    var i := 0;
    while i < |trackers|
      invariant 0 <= i <= |trackers| && |result| == i
      invariant forall k :: 0 <= k < i ==> result[k] == MergeOld(NewGroup(trackers[k], references), oldGroup, merge, AsWritten)
    {
      var group := NewGroup(trackers[i], references);
      group := MergeAll(group, oldGroup, merge);
      result := result + [group];
      i := i + 1;
    }
  }

  // ---- the component ----

  class CameraRigMixer {
    /** The CameraRigRemapperMultipleReferences part: target, references, latch and
        observers. */
    const base: CameraRigRemapperMultipleReferences
    /** m_trackers: the tracker types to mix, in list order. */
    var trackers: seq<TrackerType>
    /** m_mixedTrackerGroups. */
    var table: seq<MixedTrackerGroup>
    var position: Space
    var rotation: Space
    /** m_hasModified: some SetWeight changed a stored weight. */
    var hasModified: bool

    /** The serialized defaults: no trackers, no groups, both policies None. */
    constructor (found: CameraRig?)
      ensures fresh(base) && base.target == found && base.references == [] && base.isValid
      ensures fresh(base.observers) && base.observers.members == {} && base.observers.calls == []
      ensures trackers == [] && table == [] && position == Space.None && rotation == Space.None && !hasModified
    {
      base := new CameraRigRemapperMultipleReferences(found);
      trackers := [];
      table := [];
      position := Space.None;
      rotation := Space.None;
      hasModified := false;
    }

    /** InitializeMixedTrackerGroups(removeNull, mergeCurrentValue): the null entries
        are dropped from the list when asked, then the table is rebuilt over the
        References getter. The source's Merge matches only equal entries, and a fresh
        entry has weight 1, so even with merging every weight comes out as 1. */
    method InitializeMixedTrackerGroups(removeNull: bool, merge: bool)
      modifies base`references, this`table
      ensures base.references == if removeNull then WithoutNulls(old(base.references)) else old(base.references)
      ensures table == Rebuilt(trackers, WithoutNulls(old(base.references)), old(table), merge, AsWritten)
      ensures forall i, e :: 0 <= i < |table| && e in table[i].weights ==> e.weight == 1.0
    {
      if removeNull {
        WithoutNullsIdempotent(base.references);
        base.references := WithoutNulls(base.references);
      }
      var references := base.References();
      RebuiltAsWrittenIsFresh(trackers, references, table, merge);
      table := BuildTable(trackers, references, table, merge);
    }

    /** AddReference: the base's AddReference (with notice), then a rebuild with
        merging, which as written keeps no stored weight: every entry is back at 1. */
    method AddReference(reference: CameraRig?)
      modifies base`references, base.observers, this`table
      ensures base.observers.members == old(base.observers.members)
      ensures reference in old(base.references) ==>
                base.references == WithoutNulls(old(base.references)) && base.observers.calls == old(base.observers.calls)
      ensures reference !in old(base.references) ==>
                base.references == WithoutNulls(old(base.references) + [reference]) &&
                base.observers.NotifiedOnce(old(base.observers.calls))
      ensures table == Rebuilt(trackers, base.references, old(table), true, AsWritten)
      ensures forall i, e :: 0 <= i < |table| && e in table[i].weights ==> e.weight == 1.0
    {
      base.AddReference(reference, true);
      WithoutNullsIdempotent(base.references);
      InitializeMixedTrackerGroups(true, true);
    }

    /** RemoveReference: the base's RemoveReference (with notice), then the rebuild. */
    method RemoveReference(reference: CameraRig?)
      modifies base`references, base.observers, this`table
      ensures base.observers.members == old(base.observers.members)
      ensures reference !in old(base.references) ==>
                base.references == WithoutNulls(old(base.references)) && base.observers.calls == old(base.observers.calls)
      ensures reference in old(base.references) ==>
                base.references == WithoutNulls(RemoveFirst(old(base.references), reference)) &&
                base.observers.NotifiedOnce(old(base.observers.calls))
      ensures table == Rebuilt(trackers, base.references, old(table), true, AsWritten)
      ensures forall i, e :: 0 <= i < |table| && e in table[i].weights ==> e.weight == 1.0
    {
      base.RemoveReference(reference, true);
      WithoutNullsIdempotent(base.references);
      InitializeMixedTrackerGroups(true, true);
    }

    /** CameraRigMixer.TryGetWeight. */
    function TryGetWeight(rig: CameraRig, tracker: TrackerType): (r: (bool, real))
      reads this
      ensures r == TableWeight(table, rig, tracker)
    {
      TableWeight(table, rig, tracker)
    }

    /** CameraRigMixer.SetWeight(rig, type, weight, min, max). */
    method SetWeight(rig: CameraRig, tracker: TrackerType, weight: real, lo: real, hi: real)
      modifies this`table, this`hasModified
      ensures table == SetTable(old(table), rig, tracker, weight, lo, hi)
      ensures hasModified == (old(hasModified) || TableDiffers(old(table), rig, tracker, weight, lo, hi))
    {
      var groups, changed := SetTableIn(table, rig, tracker, weight, lo, hi);
      table := groups;
      hasModified := hasModified || changed;
    }

    /** AddWeight: nothing without a stored weight; otherwise the stored weight plus
        delta, clamped to [min, max], is set as SetWeight sets it. */
    method AddWeight(rig: CameraRig, tracker: TrackerType, delta: real, lo: real, hi: real)
      modifies this`table, this`hasModified
      ensures var (found, w) := old(TableWeight(table, rig, tracker));
              if found then
                table == SetTable(old(table), rig, tracker, Clamp(w + delta, lo, hi), lo, hi) &&
                hasModified == (old(hasModified) || TableDiffers(old(table), rig, tracker, Clamp(w + delta, lo, hi), lo, hi))
              else
                table == old(table) && hasModified == old(hasModified)
    {
      var (found, w) := TryGetWeight(rig, tracker);
      if found {
        var newWeight := Clamp(w + delta, lo, hi);
        SetWeight(rig, tracker, newWeight, lo, hi);
      }
    }

    /** RemapOnUpdate: every group, in table order, blends its rigs into the target
        transform of its tracker type; the last group of a type is the one that
        shows. */
    method RemapOnUpdate()
      requires base.target != null
      requires UniqueKeys(base.target.trackers) && DistinctValues(base.target.trackers)
      requires Values(base.target.trackers) !! TableValues(table)
      modifies Values(base.target.trackers)
      ensures forall j :: 0 <= j < |base.target.trackers| ==>
                StateOf(base.target.trackers[j].value) ==
                  Ticked(old(StateOf(base.target.trackers[j].value)), base.target.trackers[j].key, table,
                         old(SamplesTable(table)), position, rotation, |table|)
    {
      MixAll(base.target.trackers, table, position, rotation);
    }

    /** OnValidate: the base's, then a rebuild that keeps the null entries. */
    method OnValidate(found: CameraRig?)
      modifies base`target, base`references, this`table
      ensures base.target == found && base.references == old(base.references)
      ensures table == Rebuilt(trackers, WithoutNulls(base.references), old(table), true, AsWritten)
      ensures forall i, e :: 0 <= i < |table| && e in table[i].weights ==> e.weight == 1.0
    {
      base.OnValidate(found);
      InitializeMixedTrackerGroups(false, true);
    }

    /** Awake: the rebuild, dropping the null entries. */
    method Awake()
      modifies base`references, this`table
      ensures base.references == WithoutNulls(old(base.references))
      ensures table == Rebuilt(trackers, base.references, old(table), true, AsWritten)
      ensures forall i, e :: 0 <= i < |table| && e in table[i].weights ==> e.weight == 1.0
    {
      WithoutNullsIdempotent(base.references);
      InitializeMixedTrackerGroups(true, true);
    }

    /** FixedUpdate (the base's): RemapOnUpdate runs when the raw flag is set and the
        list has an entry. */
    method FixedUpdate() returns (remapped: bool)
      requires base.isValid && |base.references| > 0 ==>
                 base.target != null && UniqueKeys(base.target.trackers) && DistinctValues(base.target.trackers) &&
                 Values(base.target.trackers) !! TableValues(table)
      modifies if base.target == null then {} else Values(base.target.trackers)
      ensures remapped <==> base.isValid && |base.references| > 0
      ensures !remapped ==> base.target == null || unchanged(Values(base.target.trackers))
      ensures remapped ==> base.target != null && forall j :: 0 <= j < |base.target.trackers| ==>
                StateOf(base.target.trackers[j].value) ==
                  Ticked(old(StateOf(base.target.trackers[j].value)), base.target.trackers[j].key, table,
                         old(SamplesTable(table)), position, rotation, |table|)
    {
      ghost var S := SamplesTable(table);
      remapped := base.FixedUpdate();
      forall k | 0 <= k < |table|
        ensures Samples(table[k]) == S[k]
      {
      }
      assert SamplesTable(table) == S;
      if remapped {
        RemapOnUpdate();
      }
    }
  }
}
