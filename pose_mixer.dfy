// PoseMixer: blends several reference poses into the target pose, group label by
// group label, with a weight per (label, reference pose) kept in a table of
// MixedJointGroups that survives rebuilds of the reference list.
module PoseMixerModel {
  import opened Geometry
  import opened PoseModel
  import opened Lists
  import opened Observers
  import opened MultipleReferencesModel

  // ---- the weight table ----

  /** PoseNameAndWeights: a pose and its weight. Two entries are equal when their
      poses are: Equals compares hash codes, and a pose's hash code is its identity. */
  datatype PoseWeight = PoseWeight(pose: Pose, weight: real)

  /** MixedJointGroup: the label and one weight entry per mixed pose. */
  datatype MixedJointGroup = MixedJointGroup(name: string, weights: seq<PoseWeight>)

  /** Every non-null pose has at least one joint group; TrySearchFromLabel indexes the
      first group of the list it searches. */
  predicate Searchable(poses: seq<Pose?>)
    reads set p: Pose | p in poses
  {
    forall p: Pose :: p in poses ==> |p.jointGroups| > 0
  }

  /** The MixedJointGroup constructor: a weight-1 entry for every non-null pose that has
      a group with the label, in the order of the poses. */
  function NewGroup(name: string, poses: seq<Pose?>): (g: MixedJointGroup)
    reads set p: Pose | p in poses
    requires Searchable(poses)
    ensures g.name == name && |g.weights| <= |poses|
    ensures forall e :: e in g.weights ==> e.weight == 1.0 && e.pose in poses && HasLabel(e.pose.jointGroups, name)
    ensures forall p: Pose :: p in poses && HasLabel(p.jointGroups, name) ==> exists e :: e in g.weights && e.pose == p
  {
    var g := NewGroupOf(name, poses, |poses|);
    assert forall p: Pose :: p in poses ==> exists j :: 0 <= j < |poses| && poses[j] == p;
    g
  }

  /** The group built from the first n poses. */
  function NewGroupOf(name: string, poses: seq<Pose?>, n: nat): (g: MixedJointGroup)
    reads set p: Pose | p in poses
    requires Searchable(poses) && n <= |poses|
    ensures g.name == name && |g.weights| <= n
    ensures forall e :: e in g.weights ==> e.weight == 1.0 && e.pose in poses && HasLabel(e.pose.jointGroups, name)
    ensures forall j :: 0 <= j < n && poses[j] != null && HasLabel(poses[j].jointGroups, name) ==>
              exists e :: e in g.weights && e.pose == poses[j]
  {
    if n == 0 then MixedJointGroup(name, [])
    else
      var g := NewGroupOf(name, poses, n - 1);
      var p := poses[n - 1];
      if p != null && TrySearchFromLabel(p.jointGroups, name).0 then
        var r := MixedJointGroup(name, g.weights + [PoseWeight(p, 1.0)]);
        assert PoseWeight(p, 1.0) in r.weights;
        r
      else g
  }

  /** Index of the first entry for the pose, or -1. */
  function IndexOfPose(ws: seq<PoseWeight>, pose: Pose): (k: int)
    ensures -1 <= k < |ws|
    ensures k >= 0 ==> ws[k].pose == pose && forall j :: 0 <= j < k ==> ws[j].pose != pose
    ensures k == -1 ==> forall j :: 0 <= j < |ws| ==> ws[j].pose != pose
  {
    FindIndex(ws, (w: PoseWeight) => w.pose, pose)
  }

  /** MixedJointGroup.TryGetWeight: the weight of the first entry for the pose, or
      (false, 0). */
  function TryGetWeightIn(g: MixedJointGroup, pose: Pose): (r: (bool, real))
    ensures r.0 <==> exists i :: 0 <= i < |g.weights| && g.weights[i].pose == pose
    ensures r.0 ==> exists i :: 0 <= i < |g.weights| && g.weights[i] == PoseWeight(pose, r.1) &&
                      forall j :: 0 <= j < i ==> g.weights[j].pose != pose
    ensures !r.0 ==> r.1 == 0.0
  {
    var k := IndexOfPose(g.weights, pose);
    if k < 0 then (false, 0.0) else (true, g.weights[k].weight)
  }

  /** MixedJointGroup.Merge(old, new): the entries of the new group in its order, each
      replaced by the old group's first entry for the same pose when there is one;
      the label is the old group's. */
  function Merge(oldGroup: MixedJointGroup, newGroup: MixedJointGroup): (r: MixedJointGroup)
    ensures r.name == oldGroup.name && |r.weights| == |newGroup.weights|
    ensures forall i :: 0 <= i < |r.weights| ==> r.weights[i].pose == newGroup.weights[i].pose
  {
    MixedJointGroup(oldGroup.name,
      seq(|newGroup.weights|, i requires 0 <= i < |newGroup.weights| =>
        var k := IndexOfPose(oldGroup.weights, newGroup.weights[i].pose);
        if k >= 0 then oldGroup.weights[k] else newGroup.weights[i]))
  }

  /** After a merge, a pose of the new group has its old weight when the old group
      had the pose and its new weight otherwise; a pose only the old group had is
      gone. */
  lemma MergeLookup(oldGroup: MixedJointGroup, newGroup: MixedJointGroup, p: Pose)
    ensures var r := TryGetWeightIn(Merge(oldGroup, newGroup), p);
            var o := TryGetWeightIn(oldGroup, p);
            var n := TryGetWeightIn(newGroup, p);
            r == if !n.0 then (false, 0.0) else if o.0 then o else n
  {
    var m := Merge(oldGroup, newGroup);
    var kn := IndexOfPose(newGroup.weights, p);
    assert IndexOfPose(m.weights, p) == kn by {
      if kn >= 0 {
        assert m.weights[kn].pose == p;
        assert forall j :: 0 <= j < kn ==> m.weights[j].pose != p;
      }
    }
  }

  /** All entries of the same pose are equal: true of every freshly built group. */
  predicate Uniform(g: MixedJointGroup)
  {
    forall i, j :: 0 <= i < |g.weights| && 0 <= j < |g.weights| && g.weights[i].pose == g.weights[j].pose ==>
      g.weights[i] == g.weights[j]
  }

  /** Merging the same new group a second time changes nothing. */
  lemma MergeStable(oldGroup: MixedJointGroup, newGroup: MixedJointGroup)
    requires Uniform(newGroup)
    ensures Merge(Merge(oldGroup, newGroup), newGroup) == Merge(oldGroup, newGroup)
  {
    var m := Merge(oldGroup, newGroup);
    var m2 := Merge(m, newGroup);
    forall i | 0 <= i < |m2.weights|
      ensures m2.weights[i] == m.weights[i]
    {
      var p := newGroup.weights[i].pose;
      var k := IndexOfPose(m.weights, p);
      assert m.weights[i].pose == p;
      assert 0 <= k <= i;
      assert newGroup.weights[k].pose == p;
      assert newGroup.weights[k] == newGroup.weights[i];
    }
  }

  /** Every freshly built group is uniform. */
  lemma NewGroupUniform(name: string, poses: seq<Pose?>)
    requires Searchable(poses)
    ensures Uniform(NewGroup(name, poses))
  {
    var g := NewGroup(name, poses);
    forall i, j | 0 <= i < |g.weights| && 0 <= j < |g.weights| && g.weights[i].pose == g.weights[j].pose
      ensures g.weights[i] == g.weights[j]
    {
      assert g.weights[i] in g.weights && g.weights[j] in g.weights;
    }
  }

  // ---- rebuilding the table ----

  /** The inner loop of InitializeMixedJointGroups: the new group merged, in table
      order, with every old group of the same label (when merging is asked for). */
  function MergeOld(group: MixedJointGroup, olds: seq<MixedJointGroup>, merge: bool): (r: MixedJointGroup)
    ensures r.name == group.name && |r.weights| == |group.weights|
    ensures forall i :: 0 <= i < |r.weights| ==> r.weights[i].pose == group.weights[i].pose
  {
    MergeOldOf(group, olds, merge, |olds|)
  }

  /** The merge with the first n old groups. */
  function MergeOldOf(group: MixedJointGroup, olds: seq<MixedJointGroup>, merge: bool, n: nat): (r: MixedJointGroup)
    requires n <= |olds|
    ensures r.name == group.name && |r.weights| == |group.weights|
    ensures forall i :: 0 <= i < |r.weights| ==> r.weights[i].pose == group.weights[i].pose
  {
    if n == 0 then group
    else
      var g := MergeOldOf(group, olds, merge, n - 1);
      if g.name == olds[n - 1].name && merge then Merge(olds[n - 1], g) else g
  }

  /** The inner loop of InitializeMixedJointGroups over the old table. */
  method MergeAll(built: MixedJointGroup, olds: seq<MixedJointGroup>, merge: bool) returns (group: MixedJointGroup)
    ensures group == MergeOld(built, olds, merge)
  {
    group := built;
    var j := 0;
    while j < |olds|
      invariant 0 <= j <= |olds|
      invariant group == MergeOldOf(built, olds, merge, j)
    {
      if group.name == olds[j].name && merge {
        group := Merge(olds[j], group);
      }
      j := j + 1;
    }
  }

  /** InitializeMixedJointGroups: one group per target group label, in order. */
  function Rebuilt(labels: seq<string>, refs: seq<Pose?>, olds: seq<MixedJointGroup>, merge: bool): (t: seq<MixedJointGroup>)
    reads set p: Pose | p in refs
    requires Searchable(refs)
    ensures |t| == |labels| && forall i :: 0 <= i < |labels| ==> t[i].name == labels[i]
    ensures forall i :: 0 <= i < |labels| ==>
              (|t[i].weights| == |NewGroup(labels[i], refs).weights| &&
               forall j :: 0 <= j < |t[i].weights| ==> t[i].weights[j].pose == NewGroup(labels[i], refs).weights[j].pose)
  {
    seq(|labels|, i requires 0 <= i < |labels| && Searchable(refs) reads set p: Pose | p in refs => MergeOld(NewGroup(labels[i], refs), olds, merge))
  }

  /** Without merging, every rebuilt entry has weight 1. */
  lemma RebuiltFresh(labels: seq<string>, refs: seq<Pose?>, olds: seq<MixedJointGroup>)
    requires Searchable(refs)
    ensures forall i :: 0 <= i < |labels| ==> Rebuilt(labels, refs, olds, false)[i] == NewGroup(labels[i], refs)
    ensures forall i, e :: 0 <= i < |labels| && e in Rebuilt(labels, refs, olds, false)[i].weights ==> e.weight == 1.0
  {
    forall i | 0 <= i < |labels|
      ensures Rebuilt(labels, refs, olds, false)[i] == NewGroup(labels[i], refs)
    {
      MergeOldOff(NewGroup(labels[i], refs), olds);
    }
  }

  lemma MergeOldOff(group: MixedJointGroup, olds: seq<MixedJointGroup>)
    ensures MergeOld(group, olds, false) == group
  {
    MergeOldOfOff(group, olds, |olds|);
  }

  lemma {:induction false} MergeOldOfOff(group: MixedJointGroup, olds: seq<MixedJointGroup>, n: nat)
    requires n <= |olds|
    ensures MergeOldOf(group, olds, false, n) == group
  {
    if n > 0 {
      MergeOldOfOff(group, olds, n - 1);
    }
  }

  /** A merge with the only old group of the same label keeps that group's weights:
      a pose the old table weighted w, and still mixed, is weighted w again. */
  lemma RebuiltKeeps(labels: seq<string>, refs: seq<Pose?>, olds: seq<MixedJointGroup>, i: nat, j: nat, p: Pose)
    requires Searchable(refs) && i < |labels| && j < |olds| && olds[j].name == labels[i]
    requires forall j' :: 0 <= j' < |olds| && j' != j ==> olds[j'].name != labels[i]
    requires p in refs && HasLabel(p.jointGroups, labels[i]) && TryGetWeightIn(olds[j], p).0
    ensures TryGetWeightIn(Rebuilt(labels, refs, olds, true)[i], p) == TryGetWeightIn(olds[j], p)
  {
    var g := NewGroup(labels[i], refs);
    MergeOldSingle(g, olds, j, |olds|);
    MergeLookup(olds[j], g, p);
    var e :| e in g.weights && e.pose == p;
  }

  lemma {:induction false} MergeOldSingle(group: MixedJointGroup, olds: seq<MixedJointGroup>, j: nat, n: nat)
    requires j < |olds| && n <= |olds| && olds[j].name == group.name
    requires forall j' :: 0 <= j' < |olds| && j' != j ==> olds[j'].name != group.name
    ensures MergeOldOf(group, olds, true, n) == if n <= j then group else Merge(olds[j], group)
  {
    if n > 0 {
      MergeOldSingle(group, olds, j, n - 1);
    }
  }

  /** The loop of InitializeMixedJointGroups: for each target group, in order, the new
      group of its label merged with every old group of that label. */
  method RebuildTable(groups: seq<JointGroup>, refs: seq<Pose?>, olds: seq<MixedJointGroup>, merge: bool)
    returns (result: seq<MixedJointGroup>)
    requires Searchable(refs)
    ensures result == Rebuilt(GetLabels(groups), refs, olds, merge)
  {
    result := [];
    ghost var labels := GetLabels(groups);
    var i := 0;
    while i < |groups|
      invariant 0 <= i <= |groups| && |result| == i
      invariant forall k :: 0 <= k < i ==> result[k] == MergeOld(NewGroup(labels[k], refs), olds, merge)
    {
      var built := NewGroup(groups[i].name, refs);
      var group := MergeAll(built, olds, merge);
      result := result + [group];
      i := i + 1;
    }
  }

  // ---- setting weights ----

  /** The group after every entry of the pose is given weight w. */
  function WithWeight(g: MixedJointGroup, pose: Pose, w: real): (r: MixedJointGroup)
    ensures r.name == g.name && |r.weights| == |g.weights|
  {
    MixedJointGroup(g.name, seq(|g.weights|, i requires 0 <= i < |g.weights| =>
      if g.weights[i].pose == pose then PoseWeight(pose, w) else g.weights[i]))
  }

  /** Some entry of the pose holds a weight other than w. */
  predicate Differs(g: MixedJointGroup, pose: Pose, w: real)
  {
    exists i :: 0 <= i < |g.weights| && g.weights[i].pose == pose && g.weights[i].weight != w
  }

  /** MixedJointGroup.SetWeight(pose, weight, out hasModified). */
  method SetWeightIn(g: MixedJointGroup, pose: Pose, w: real) returns (r: MixedJointGroup, changed: bool)
    ensures r == WithWeight(g, pose, w)
    ensures changed == Differs(g, pose, w)
  {
    var ws := g.weights;
    changed := false;
    var i := 0;
    while i < |ws|
      invariant 0 <= i <= |ws| && |ws| == |g.weights|
      invariant forall j :: 0 <= j < i ==> ws[j] == WithWeight(g, pose, w).weights[j]
      invariant forall j :: i <= j < |ws| ==> ws[j] == g.weights[j]
      invariant changed <==> exists j :: 0 <= j < i && g.weights[j].pose == pose && g.weights[j].weight != w
    {
      if ws[i].pose == pose {
        if ws[i].weight != w {
          changed := true;
        }
        ws := ws[i := PoseWeight(pose, w)];
      }
      i := i + 1;
    }
    r := MixedJointGroup(g.name, ws);
  }

  /** Reading back a weight just set gives that weight, and other poses keep theirs. */
  lemma SetThenGet(g: MixedJointGroup, pose: Pose, w: real, q: Pose)
    ensures TryGetWeightIn(WithWeight(g, pose, w), q) ==
              if q != pose then TryGetWeightIn(g, q)
              else if TryGetWeightIn(g, pose).0 then (true, w) else (false, 0.0)
  {
    var r := WithWeight(g, pose, w);
    assert forall j :: 0 <= j < |g.weights| ==> r.weights[j].pose == g.weights[j].pose;
    var k := IndexOfPose(g.weights, q);
    assert IndexOfPose(r.weights, q) == k by {
      if k >= 0 {
        assert r.weights[k].pose == q;
        assert forall j :: 0 <= j < k ==> r.weights[j].pose != q;
      }
    }
  }

  /** Setting the same weight again reports no change. */
  lemma SetTwice(g: MixedJointGroup, pose: Pose, w: real)
    ensures !Differs(WithWeight(g, pose, w), pose, w)
    ensures WithWeight(WithWeight(g, pose, w), pose, w) == WithWeight(g, pose, w)
  {
  }

  // ---- the table-level accessors ----

  /** Index of the first group with the label, or -1. */
  function FirstGroup(table: seq<MixedJointGroup>, name: string): (k: int)
    ensures -1 <= k < |table|
    ensures k >= 0 ==> table[k].name == name && forall j :: 0 <= j < k ==> table[j].name != name
    ensures k == -1 ==> forall j :: 0 <= j < |table| ==> table[j].name != name
  {
    FindIndex(table, (g: MixedJointGroup) => g.name, name)
  }

  /** PoseMixer.TryGetWeight: the first group with the label, then its first entry for
      the pose; (false, 0) when either is missing, where the source catches the
      exception of an empty First(). */
  function TableWeight(table: seq<MixedJointGroup>, pose: Pose, name: string): (r: (bool, real))
    ensures r.0 <==> exists i :: 0 <= i < |table| && table[i].name == name &&
                       (forall j :: 0 <= j < i ==> table[j].name != name) && TryGetWeightIn(table[i], pose).0
    ensures r.0 ==> exists i, e :: 0 <= i < |table| && table[i].name == name && e in table[i].weights && e == PoseWeight(pose, r.1)
    ensures !r.0 ==> r.1 == 0.0
  {
    var k := FirstGroup(table, name);
    if k < 0 then (false, 0.0)
    else
      var r := TryGetWeightIn(table[k], pose);
      assert r.0 ==> PoseWeight(pose, r.1) in table[k].weights;
      r
  }

  /** How many of the first n groups carry the label. */
  function LabelCount(table: seq<MixedJointGroup>, name: string, n: nat): (c: nat)
    requires n <= |table|
    ensures c <= n
  {
    if n == 0 then 0
    else LabelCount(table, name, n - 1) + (if table[n - 1].name == name then 1 else 0)
  }

  /** The table after PoseMixer.SetWeight: the i-th group with the label has its
      entries for the pose set to the weight clamped i times. */
  function SetTable(table: seq<MixedJointGroup>, pose: Pose, name: string, w: real, lo: real, hi: real): (t: seq<MixedJointGroup>)
    ensures |t| == |table|
  {
    seq(|table|, i requires 0 <= i < |table| =>
      if table[i].name == name then WithWeight(table[i], pose, ClampTimes(w, lo, hi, LabelCount(table, name, i + 1)))
      else table[i])
  }

  /** Whether PoseMixer.SetWeight changes a stored weight. */
  predicate TableDiffers(table: seq<MixedJointGroup>, pose: Pose, name: string, w: real, lo: real, hi: real)
  {
    DiffersBefore(table, pose, name, w, lo, hi, |table|)
  }

  /** Whether SetWeight changes a stored weight of one of the first n groups. */
  predicate DiffersBefore(table: seq<MixedJointGroup>, pose: Pose, name: string, w: real, lo: real, hi: real, n: nat)
    requires n <= |table|
  {
    exists i :: 0 <= i < n && ChangesGroup(table, pose, name, w, lo, hi, i)
  }

  /** Whether SetWeight changes a stored weight of the i-th group. */
  predicate ChangesGroup(table: seq<MixedJointGroup>, pose: Pose, name: string, w: real, lo: real, hi: real, i: nat)
    requires i < |table|
  {
    table[i].name == name && Differs(table[i], pose, ClampTimes(w, lo, hi, LabelCount(table, name, i + 1)))
  }

  /** One iteration of SetWeight's loop: with the weight clamped once per earlier group
      of the label, the i-th group is what SetTable makes of it. */
  lemma SetTableStep(table: seq<MixedJointGroup>, pose: Pose, name: string, weight: real, lo: real, hi: real, i: nat, w: real)
    requires i < |table| && w == ClampTimes(weight, lo, hi, LabelCount(table, name, i))
    ensures LabelCount(table, name, i + 1) == LabelCount(table, name, i) + if table[i].name == name then 1 else 0
    ensures SetTable(table, pose, name, weight, lo, hi)[i] ==
              if table[i].name == name then WithWeight(table[i], pose, Clamp(w, lo, hi)) else table[i]
    ensures DiffersBefore(table, pose, name, weight, lo, hi, i + 1) <==>
              DiffersBefore(table, pose, name, weight, lo, hi, i) || (table[i].name == name && Differs(table[i], pose, Clamp(w, lo, hi)))
  {
    assert ChangesGroup(table, pose, name, weight, lo, hi, i) <==> table[i].name == name && Differs(table[i], pose, Clamp(w, lo, hi));
    DiffersBeforeStep(table, pose, name, weight, lo, hi, i);
  }

  lemma DiffersBeforeStep(table: seq<MixedJointGroup>, pose: Pose, name: string, w: real, lo: real, hi: real, i: nat)
    requires i < |table|
    ensures DiffersBefore(table, pose, name, w, lo, hi, i + 1) <==>
              DiffersBefore(table, pose, name, w, lo, hi, i) || ChangesGroup(table, pose, name, w, lo, hi, i)
  {
    if DiffersBefore(table, pose, name, w, lo, hi, i + 1) && !ChangesGroup(table, pose, name, w, lo, hi, i) {
      var k :| 0 <= k < i + 1 && ChangesGroup(table, pose, name, w, lo, hi, k);
      assert k < i;
    }
  }

  /** The loop of PoseMixer.SetWeight over the table: each group of the label clamps
      the running weight again and sets it for the pose. */
  method SetTableIn(table: seq<MixedJointGroup>, pose: Pose, name: string, weight: real, lo: real, hi: real)
    returns (groups: seq<MixedJointGroup>, changed: bool)
    ensures groups == SetTable(table, pose, name, weight, lo, hi)
    ensures changed == TableDiffers(table, pose, name, weight, lo, hi)
  {
    groups := table;
    changed := false;
    var w := weight;
    var i := 0;
    ghost var n := 0;
    ghost var target := SetTable(table, pose, name, weight, lo, hi);
    while i < |groups|
      invariant 0 <= i <= |groups| == |table| == |target|
      invariant n == LabelCount(table, name, i) && w == ClampTimes(weight, lo, hi, n)
      invariant forall k :: 0 <= k < i ==> groups[k] == target[k]
      invariant forall k :: i <= k < |table| ==> groups[k] == table[k]
      invariant changed == DiffersBefore(table, pose, name, weight, lo, hi, i)
    {
      SetTableStep(table, pose, name, weight, lo, hi, i, w);
      assert groups[i] == table[i];
      if table[i].name == name {
        w := Clamp(w, lo, hi);
        var g, differs := SetWeightIn(table[i], pose, w);
        assert g == target[i];
        groups := groups[i := g];
        changed := changed || differs;
        n := n + 1;
      }
      assert groups[i] == target[i];
      i := i + 1;
    }
  }

  /** With lo <= hi, SetWeight stores the clamped weight in every group of the label,
      and a later TryGetWeight returns it when the pose was there. */
  lemma SetTableThenGet(table: seq<MixedJointGroup>, pose: Pose, name: string, w: real, lo: real, hi: real)
    requires lo <= hi
    ensures forall i :: 0 <= i < |table| && table[i].name == name ==>
              SetTable(table, pose, name, w, lo, hi)[i] == WithWeight(table[i], pose, Clamp(w, lo, hi))
    ensures forall i :: 0 <= i < |table| && table[i].name != name ==> SetTable(table, pose, name, w, lo, hi)[i] == table[i]
    ensures TableWeight(SetTable(table, pose, name, w, lo, hi), pose, name) ==
              if TableWeight(table, pose, name).0 then (true, Clamp(w, lo, hi)) else (false, 0.0)
  {
    var t := SetTable(table, pose, name, w, lo, hi);
    forall i | 0 <= i < |table| && table[i].name == name
      ensures t[i] == WithWeight(table[i], pose, Clamp(w, lo, hi))
    {
      LabelCountPositive(table, name, i + 1);
      ClampTimesOnce(w, lo, hi, LabelCount(table, name, i + 1));
    }
    var k := FirstGroup(table, name);
    assert FirstGroup(t, name) == k by {
      FirstGroupSame(table, t, name);
    }
    if k >= 0 {
      SetThenGet(table[k], pose, Clamp(w, lo, hi), pose);
    }
  }

  lemma LabelCountPositive(table: seq<MixedJointGroup>, name: string, n: nat)
    requires 0 < n <= |table| && table[n - 1].name == name
    ensures LabelCount(table, name, n) >= 1
  {
  }

  lemma FirstGroupSame(a: seq<MixedJointGroup>, b: seq<MixedJointGroup>, name: string)
    requires |a| == |b| && forall i :: 0 <= i < |a| ==> a[i].name == b[i].name
    ensures FirstGroup(a, name) == FirstGroup(b, name)
  {
    var ka, kb := FirstGroup(a, name), FirstGroup(b, name);
    if ka >= 0 && kb >= 0 {
      assert !(ka < kb) && !(kb < ka);
    }
  }

  // ---- mixing ----

  /** A reference's group as RemapOnUpdate mixes it: a copy of the pose's group whose
      master weight is scaled by the mixer weight, when the table has one. */
  function Weighted(g: JointGroup, w: (bool, real)): JointGroup
  {
    JointGroup(g.name, if w.0 then g.masterWeight * w.1 else g.masterWeight, g.contents)
  }

  /** The joint groups of every reference, in reference order: the part of the
      references the cache loop reads. */
  function Views(refs: seq<Pose?>): (v: seq<seq<JointGroup>>)
    reads set p: Pose | p in refs
    requires null !in refs
    ensures |v| == |refs| && forall j :: 0 <= j < |refs| ==> v[j] == refs[j].jointGroups
  {
    seq(|refs|, j requires 0 <= j < |refs| && null !in refs reads set p: Pose | p in refs => refs[j].jointGroups)
  }

  /** Every reference has a group to fall back on. */
  predicate Filled(views: seq<seq<JointGroup>>)
  {
    forall j :: 0 <= j < |views| ==> |views[j]| > 0
  }

  lemma ViewsFilled(refs: seq<Pose?>)
    requires null !in refs && Searchable(refs)
    ensures Filled(Views(refs))
  {
    var v := Views(refs);
    forall j | 0 <= j < |v|
      ensures |v[j]| > 0
    {
      assert refs[j] in refs;
    }
  }

  /** The group reference pose p, whose groups are `groups`, contributes under the label. */
  function RefGroup(p: Pose, groups: seq<JointGroup>, name: string, table: seq<MixedJointGroup>): JointGroup
    requires |groups| > 0
  {
    Weighted(TrySearchFromLabel(groups, name).1, TableWeight(table, p, name))
  }

  /** The cache RemapOnUpdate builds for a label: the contribution of every reference
      that has a group with the label, in reference order. */
  function Cache(refs: seq<Pose?>, views: seq<seq<JointGroup>>, name: string, table: seq<MixedJointGroup>): (c: seq<JointGroup>)
    requires null !in refs && |views| == |refs| && Filled(views)
    ensures |c| <= |refs|
    ensures forall k :: 0 <= k < |c| ==> c[k].name == name
  {
    CacheOf(refs, views, name, table, |refs|)
  }

  /** The cache of the first n references. */
  function CacheOf(refs: seq<Pose?>, views: seq<seq<JointGroup>>, name: string, table: seq<MixedJointGroup>, n: nat): (c: seq<JointGroup>)
    requires null !in refs && |views| == |refs| && Filled(views) && n <= |refs|
    ensures |c| <= n
    ensures forall k :: 0 <= k < |c| ==> c[k].name == name
  {
    if n == 0 then []
    else
      var c := CacheOf(refs, views, name, table, n - 1);
      if TrySearchFromLabel(views[n - 1], name).0 then c + [RefGroup(refs[n - 1], views[n - 1], name, table)] else c
  }

  /** Every entry of the cache is the contribution of a reference with the label:
      the a-th entry is that of reference j. */
  lemma CacheSource(refs: seq<Pose?>, views: seq<seq<JointGroup>>, name: string, table: seq<MixedJointGroup>, a: nat)
    returns (j: nat)
    requires null !in refs && |views| == |refs| && Filled(views) && a < |Cache(refs, views, name, table)|
    ensures j < |refs| && HasLabel(views[j], name)
    ensures Cache(refs, views, name, table)[a] == RefGroup(refs[j], views[j], name, table)
  {
    j := CacheOfSource(refs, views, name, table, |refs|, a);
  }

  lemma {:induction false} CacheOfSource(refs: seq<Pose?>, views: seq<seq<JointGroup>>, name: string, table: seq<MixedJointGroup>,
                                         n: nat, a: nat) returns (j: nat)
    requires null !in refs && |views| == |refs| && Filled(views) && n <= |refs| && a < |CacheOf(refs, views, name, table, n)|
    ensures j < n && HasLabel(views[j], name)
    ensures CacheOf(refs, views, name, table, n)[a] == RefGroup(refs[j], views[j], name, table)
  {
    var c := CacheOf(refs, views, name, table, n - 1);
    if a < |c| {
      j := CacheOfSource(refs, views, name, table, n - 1, a);
    } else {
      j := n - 1;
    }
  }

  /** Every reference with the label contributes to the cache. */
  lemma CacheHas(refs: seq<Pose?>, views: seq<seq<JointGroup>>, name: string, table: seq<MixedJointGroup>, j: nat)
    requires null !in refs && |views| == |refs| && Filled(views) && j < |refs| && HasLabel(views[j], name)
    ensures RefGroup(refs[j], views[j], name, table) in Cache(refs, views, name, table)
  {
    CacheOfHas(refs, views, name, table, |refs|, j);
  }

  lemma {:induction false} CacheOfHas(refs: seq<Pose?>, views: seq<seq<JointGroup>>, name: string, table: seq<MixedJointGroup>,
                                      n: nat, j: nat)
    requires null !in refs && |views| == |refs| && Filled(views) && j < n <= |refs| && HasLabel(views[j], name)
    ensures RefGroup(refs[j], views[j], name, table) in CacheOf(refs, views, name, table, n)
  {
    if j < n - 1 {
      CacheOfHas(refs, views, name, table, n - 1, j);
    }
  }

  /** The name and the joints of every group: what TryAdd's preconditions look at. */
  function Shapes(c: seq<JointGroup>): (r: seq<(string, seq<Joint>)>)
    ensures |r| == |c| && forall k :: 0 <= k < |c| ==> r[k] == (c[k].name, c[k].contents)
  {
    seq(|c|, k requires 0 <= k < |c| => (c[k].name, c[k].contents))
  }

  /** The mixer weights change the master weights of the cache and nothing else. */
  lemma CacheShape(refs: seq<Pose?>, views: seq<seq<JointGroup>>, name: string, t1: seq<MixedJointGroup>, t2: seq<MixedJointGroup>)
    requires null !in refs && |views| == |refs| && Filled(views)
    ensures Shapes(Cache(refs, views, name, t1)) == Shapes(Cache(refs, views, name, t2))
  {
    CacheOfShape(refs, views, name, t1, t2, |refs|);
  }

  lemma {:induction false} CacheOfShape(refs: seq<Pose?>, views: seq<seq<JointGroup>>, name: string,
                                        t1: seq<MixedJointGroup>, t2: seq<MixedJointGroup>, n: nat)
    requires null !in refs && |views| == |refs| && Filled(views) && n <= |refs|
    ensures Shapes(CacheOf(refs, views, name, t1, n)) == Shapes(CacheOf(refs, views, name, t2, n))
  {
    if n > 0 {
      CacheOfShape(refs, views, name, t1, t2, n - 1);
      var c1 := CacheOf(refs, views, name, t1, n - 1);
      var c2 := CacheOf(refs, views, name, t2, n - 1);
      if TrySearchFromLabel(views[n - 1], name).0 {
        var g1, g2 := RefGroup(refs[n - 1], views[n - 1], name, t1), RefGroup(refs[n - 1], views[n - 1], name, t2);
        ShapesSnoc(c1, g1);
        ShapesSnoc(c2, g2);
        assert (g1.name, g1.contents) == (g2.name, g2.contents);
      }
    }
  }

  lemma ShapesSnoc(c: seq<JointGroup>, g: JointGroup)
    ensures Shapes(c + [g]) == Shapes(c) + [(g.name, g.contents)]
  {
    assert |Shapes(c + [g])| == |c| + 1;
    forall k | 0 <= k < |c| + 1
      ensures Shapes(c + [g])[k] == (Shapes(c) + [(g.name, g.contents)])[k]
    {
      if k < |c| {
        assert (c + [g])[k] == c[k];
      }
    }
  }

  /** Groups of equal names and joints fit a result alike. */
  lemma SameShapeFits(result: JointGroup, a: seq<JointGroup>, b: seq<JointGroup>)
    requires Shapes(a) == Shapes(b)
    ensures FoldFits(result, a) == FoldFits(result, b)
    ensures SeparateFrom(result, a) == SeparateFrom(result, b)
  {
  }

  /** What mixing one target group needs, whatever the weights: the index bounds of
      TryAdd, and joints that are distinct and not shared with any reference. */
  predicate GroupMixable(g: JointGroup, refs: seq<Pose?>)
    reads set p: Pose | p in refs
    requires null !in refs && Searchable(refs)
  {
    ViewsFilled(refs);
    var c := Cache(refs, Views(refs), g.name, []);
    DistinctJoints(g.contents) && FoldFits(g, c) && SeparateFrom(g, c)
  }

  /** What RemapOnUpdate needs: a target that is not among the references, whose groups
      share no joints, each of them mixable. */
  predicate Mixable(target: Pose, refs: seq<Pose?>)
    reads target, set p: Pose | p in refs
    requires null !in refs && Searchable(refs)
  {
    && target !in refs
    && (forall i, j :: 0 <= i < |target.jointGroups| && 0 <= j < |target.jointGroups| && i != j ==>
          Disjoint(target.jointGroups[i].contents, target.jointGroups[j].contents))
    && (forall i, p: Pose, h :: 0 <= i < |target.jointGroups| && p in refs && 0 <= h < |p.jointGroups| ==>
          Disjoint(target.jointGroups[i].contents, p.jointGroups[h].contents))
    && (forall i :: 0 <= i < |target.jointGroups| ==> GroupMixable(target.jointGroups[i], refs))
  }

  /** The target group after a tick: TryAdd's group when it succeeds, the old one
      otherwise. */
  function MixedGroup(g: JointGroup, c: seq<JointGroup>): JointGroup
    requires FoldFits(g, c)
  {
    if FoldStatus(g, c).0 then FoldStatus(g, c).1 else g
  }

  /** With a single reference, or weights that leave one contributor, mixing copies or
      folds exactly as TryAdd does; a successful mix carries the summed master weight. */
  lemma MixedGroupWeight(g: JointGroup, c: seq<JointGroup>)
    requires FoldFits(g, c) && |c| >= 2 && forall k :: 1 <= k < |c| ==> Compatible(c[0], c[k])
    ensures MixedGroup(g, c).name == c[0].name && MixedGroup(g, c).masterWeight == Sum(Weights(c))
  {
  }

  /** The caches of all target groups. */
  function Caches(refs: seq<Pose?>, views: seq<seq<JointGroup>>, groups: seq<JointGroup>, table: seq<MixedJointGroup>): (cs: seq<seq<JointGroup>>)
    requires null !in refs && |views| == |refs| && Filled(views)
    ensures |cs| == |groups| && forall i :: 0 <= i < |groups| ==> cs[i] == Cache(refs, views, groups[i].name, table)
  {
    seq(|groups|, i requires 0 <= i < |groups| => Cache(refs, views, groups[i].name, table))
  }

  /** No joint of a cache is a joint of the target, and each target group fits its
      cache whatever the weights. */
  lemma CachesApart(target: Pose, refs: seq<Pose?>, table: seq<MixedJointGroup>)
    requires null !in refs && Searchable(refs) && Mixable(target, refs)
    ensures Filled(Views(refs))
    ensures forall k :: 0 <= k < |target.jointGroups| ==>
              AllTransforms(Cache(refs, Views(refs), target.jointGroups[k].name, table)) !! AllTransforms(target.jointGroups)
    ensures forall k :: 0 <= k < |target.jointGroups| ==>
              FoldFits(target.jointGroups[k], Cache(refs, Views(refs), target.jointGroups[k].name, table)) &&
              SeparateFrom(target.jointGroups[k], Cache(refs, Views(refs), target.jointGroups[k].name, table))
  {
    ViewsFilled(refs);
    forall k | 0 <= k < |target.jointGroups|
      ensures AllTransforms(Cache(refs, Views(refs), target.jointGroups[k].name, table)) !! AllTransforms(target.jointGroups)
      ensures FoldFits(target.jointGroups[k], Cache(refs, Views(refs), target.jointGroups[k].name, table))
      ensures SeparateFrom(target.jointGroups[k], Cache(refs, Views(refs), target.jointGroups[k].name, table))
    {
      CacheApart(target, refs, table, k);
    }
  }

  lemma CacheApart(target: Pose, refs: seq<Pose?>, table: seq<MixedJointGroup>, k: nat)
    requires null !in refs && Searchable(refs) && Mixable(target, refs) && k < |target.jointGroups|
    ensures Filled(Views(refs))
    ensures AllTransforms(Cache(refs, Views(refs), target.jointGroups[k].name, table)) !! AllTransforms(target.jointGroups)
    ensures FoldFits(target.jointGroups[k], Cache(refs, Views(refs), target.jointGroups[k].name, table))
    ensures SeparateFrom(target.jointGroups[k], Cache(refs, Views(refs), target.jointGroups[k].name, table))
  {
    ViewsFilled(refs);
    var G := target.jointGroups;
    var v := Views(refs);
    var c := Cache(refs, v, G[k].name, table);
    assert GroupMixable(G[k], refs);
    CacheShape(refs, v, G[k].name, table, []);
    SameShapeFits(G[k], c, Cache(refs, v, G[k].name, []));
    forall a, b | 0 <= a < |c| && 0 <= b < |G|
      ensures Disjoint(G[b].contents, c[a].contents)
    {
      var j := CacheSource(refs, v, G[k].name, table, a);
      var p := refs[j];
      var h := FirstWithLabel(p.jointGroups, G[k].name);
      assert c[a].contents == p.jointGroups[h].contents;
      assert Disjoint(G[b].contents, p.jointGroups[h].contents);
    }
    GroupsDisjoint(G, c);
  }

  /** Groups whose joints are pairwise disjoint have no transform in common. */
  lemma GroupsDisjoint(G: seq<JointGroup>, c: seq<JointGroup>)
    requires forall a, b :: 0 <= a < |c| && 0 <= b < |G| ==> Disjoint(G[b].contents, c[a].contents)
    ensures AllTransforms(c) !! AllTransforms(G)
  {
    forall t | t in AllTransforms(c)
      ensures t !in AllTransforms(G)
    {
      var a, x :| 0 <= a < |c| && 0 <= x < |c[a].contents| && c[a].contents[x].transform == t;
      forall b, y | 0 <= b < |G| && 0 <= y < |G[b].contents|
        ensures G[b].contents[y].transform != t
      {
        assert Disjoint(G[b].contents, c[a].contents);
      }
    }
  }

  /** The rotations of every cache, cache by cache. */
  function Snapshots(cs: seq<seq<JointGroup>>): (ts: seq<seq<seq<Quat>>>)
    reads set k, t | 0 <= k < |cs| && t in AllTransforms(cs[k]) :: t
    ensures |ts| == |cs| && forall k :: 0 <= k < |cs| ==> ts[k] == Snapshot(cs[k])
  {
    seq(|cs|, i requires 0 <= i < |cs| reads set k, t | 0 <= k < |cs| && t in AllTransforms(cs[k]) :: t => Snapshot(cs[i]))
  }

  /** The joints of one target group are not joints of another. */
  lemma GroupsApart(groups: seq<JointGroup>, k: nat)
    requires k < |groups|
    requires forall i, j :: 0 <= i < |groups| && 0 <= j < |groups| && i != j ==> Disjoint(groups[i].contents, groups[j].contents)
    ensures forall i, x :: 0 <= i < |groups| && i != k && 0 <= x < |groups[i].contents| ==>
              groups[i].contents[x].transform !in Transforms(groups[k].contents)
    ensures forall t :: t in Transforms(groups[k].contents) ==> t in AllTransforms(groups)
  {
    forall i, x | 0 <= i < |groups| && i != k && 0 <= x < |groups[i].contents|
      ensures groups[i].contents[x].transform !in Transforms(groups[k].contents)
    {
      assert Disjoint(groups[i].contents, groups[k].contents);
    }
    forall t | t in Transforms(groups[k].contents)
      ensures t in AllTransforms(groups)
    {
      var y :| 0 <= y < |groups[k].contents| && Transforms(groups[k].contents)[y] == t;
    }
  }

  /** List.RemoveAll(p => p == null): the non-null poses, in their order. */
  function WithoutNullPoses(s: seq<Pose?>): (r: seq<Pose?>)
    ensures null !in r
    ensures forall i :: 0 <= i < |r| ==> r[i] in s
    ensures forall i :: 0 <= i < |s| && s[i] != null ==> s[i] in r
    ensures null !in s ==> r == s
  {
    if s == [] then []
    else if s[0] == null then WithoutNullPoses(s[1..])
    else [s[0]] + WithoutNullPoses(s[1..])
  }

  /** The comparison loop of OnValidate: the two lists have the same count and the
      same pose at every index. */
  method SameReferences(a: seq<Pose?>, b: seq<Pose?>) returns (same: bool)
    ensures same <==> a == b
  {
    if |a| != |b| {
      return false;
    }
    var i := 0;
    while i < |a|
      invariant 0 <= i <= |a|
      invariant a[..i] == b[..i]
    {
      if a[i] != b[i] {
        return false;
      }
      assert a[..i + 1] == a[..i] + [a[i]] && b[..i + 1] == b[..i] + [b[i]];
      i := i + 1;
    }
    assert a == a[..i] && b == b[..i];
    return true;
  }

  // ---- the component ----

  class PoseMixer {
    /** The PoseRemapperMultipleReferences part: target, references and flags. */
    const base: PoseRemapperMultipleReferences
    var mixedJointGroups: seq<MixedJointGroup>
    var lastReferences: seq<Pose?>
    const observers: ObserverSet

    constructor (target: Pose?)
      ensures fresh(base) && fresh(observers)
      ensures base.target == target && base.references == [] && base.isValid && !base.hasModified
      ensures mixedJointGroups == [] && lastReferences == [] && observers.members == {} && observers.calls == []
    {
      base := new PoseRemapperMultipleReferences(target);
      observers := new ObserverSet();
      mixedJointGroups := [];
      lastReferences := [];
    }

    /** AddObserver and RemoveObserver: set semantics. */
    method AddObserver(o: ObserverId)
      modifies observers
      ensures observers.members == old(observers.members) + {o}
      ensures observers.calls == old(observers.calls)
    {
      observers.Add(o);
    }

    method RemoveObserver(o: ObserverId)
      modifies observers
      ensures observers.members == old(observers.members) - {o}
      ensures observers.calls == old(observers.calls)
    {
      observers.Remove(o);
    }

    /** Notify: every registered observer is called once. */
    method Notify()
      modifies observers
      ensures observers.members == old(observers.members)
      ensures observers.NotifiedOnce(old(observers.calls))
    {
      observers.Notify();
    }

    /** LateUpdate (the base's), dispatching to this Notify: the observers are called
        exactly when the tick modified something. */
    method LateUpdate()
      modifies observers
      ensures observers.members == old(observers.members)
      ensures base.hasModified ==> observers.NotifiedOnce(old(observers.calls))
      ensures !base.hasModified ==> observers.calls == old(observers.calls)
    {
      if base.hasModified {
        observers.Notify();
      }
    }

    /** PoseMixer.TryGetWeight. */
    function TryGetWeight(pose: Pose, name: string): (r: (bool, real))
      reads this
      ensures r == TableWeight(mixedJointGroups, pose, name)
    {
      TableWeight(mixedJointGroups, pose, name)
    }

    /** InitializeMixedJointGroups(mergeCurrentValue): a group per target group, each
        merged with every old group of its label. */
    method InitializeMixedJointGroups(merge: bool)
      requires base.target != null && Searchable(base.references)
      modifies this`mixedJointGroups
      ensures mixedJointGroups == Rebuilt(GetLabels(base.target.jointGroups), base.references, old(mixedJointGroups), merge)
    {
      mixedJointGroups := RebuildTable(base.target.jointGroups, base.references, mixedJointGroups, merge);
    }

    /** AddPose: appends the pose even when it is there already (the source only warns,
        naming the pose, so a duplicate null is not allowed), then rebuilds the table. */
    method AddPose(pose: Pose?)
      requires pose in base.references ==> pose != null
      requires base.target != null && Searchable(base.references + [pose])
      modifies base`references, this`mixedJointGroups
      ensures base.references == old(base.references) + [pose]
      ensures mixedJointGroups == Rebuilt(GetLabels(base.target.jointGroups), base.references, old(mixedJointGroups), true)
    {
      base.references := base.references + [pose];
      InitializeMixedJointGroups(true);
    }

    /** RemovePose: an absent pose changes nothing; otherwise its first occurrence is
        removed and the table rebuilt. */
    method RemovePose(pose: Pose?)
      requires pose in base.references ==> base.target != null && Searchable(RemoveFirst(base.references, pose))
      modifies base`references, this`mixedJointGroups
      ensures pose !in old(base.references) ==> base.references == old(base.references) && mixedJointGroups == old(mixedJointGroups)
      ensures pose in old(base.references) ==> base.references == RemoveFirst(old(base.references), pose)
      ensures pose in old(base.references) ==>
                mixedJointGroups == old(Rebuilt(GetLabels(base.target.jointGroups), RemoveFirst(base.references, pose), mixedJointGroups, true))
    {
      if pose in base.references {
        base.references := RemoveFirst(base.references, pose);
        InitializeMixedJointGroups(true);
      }
    }

    /** PoseMixer.SetWeight(pose, label, weight, min, max). */
    method SetWeight(pose: Pose, name: string, weight: real, lo: real, hi: real)
      modifies this`mixedJointGroups, base`hasModified
      ensures mixedJointGroups == SetTable(old(mixedJointGroups), pose, name, weight, lo, hi)
      ensures base.hasModified == (old(base.hasModified) || TableDiffers(old(mixedJointGroups), pose, name, weight, lo, hi))
    {
      var groups, changed := SetTableIn(mixedJointGroups, pose, name, weight, lo, hi);
      mixedJointGroups := groups;
      base.hasModified := base.hasModified || changed;
    }

    /** AddWeight: nothing without a stored weight; otherwise the stored weight plus
        delta, clamped to [0, 1], is set as SetWeight sets it. */
    method AddWeight(pose: Pose, name: string, delta: real, lo: real, hi: real)
      modifies this`mixedJointGroups, base`hasModified
      ensures var (found, w) := old(TableWeight(mixedJointGroups, pose, name));
              if found then
                mixedJointGroups == SetTable(old(mixedJointGroups), pose, name, Clamp(w + delta, 0.0, 1.0), lo, hi) &&
                base.hasModified == (old(base.hasModified) || TableDiffers(old(mixedJointGroups), pose, name, Clamp(w + delta, 0.0, 1.0), lo, hi))
              else
                mixedJointGroups == old(mixedJointGroups) && base.hasModified == old(base.hasModified)
    {
      var (found, w) := TryGetWeight(pose, name);
      if found {
        var newWeight := Clamp(w + delta, 0.0, 1.0);
        SetWeight(pose, name, newWeight, lo, hi);
      }
    }


    /** OnValidate: the base's lookup of the target, then a rebuild (merging the old
        weights) exactly when the references differ from the ones the last OnValidate
        saw; the current references are then saved. */
    method OnValidate(found: Pose?)
      requires base.references != lastReferences ==> found != null && Searchable(base.references)
      modifies base`target, this`mixedJointGroups, this`lastReferences
      ensures base.target == found && lastReferences == base.references
      ensures base.references == old(base.references)
      ensures old(base.references) != old(lastReferences) ==>
                mixedJointGroups == Rebuilt(GetLabels(found.jointGroups), base.references, old(mixedJointGroups), true)
      ensures old(base.references) == old(lastReferences) ==> mixedJointGroups == old(mixedJointGroups)
    {
      base.OnValidate(found);
      var same := SameReferences(base.references, lastReferences);
      if !same {
        InitializeMixedJointGroups(true);
      }
      lastReferences := base.references;
    }

    /** Update: while the latching IsValid holds, dropping null references (if there
        were any) rebuilds the table, merging the old weights; then the base's Update
        clears the modified flag and asks for RemapOnUpdate. */
    method Update() returns (remap: bool)
      requires Searchable(base.references)
      modifies base`isValid, base`references, base`hasModified, this`mixedJointGroups
      ensures base.isValid == (old(base.isValid) && base.target != null)
      ensures base.isValid && null in old(base.references) ==>
                base.references == WithoutNullPoses(old(base.references)) &&
                mixedJointGroups == Rebuilt(GetLabels(base.target.jointGroups), base.references, old(mixedJointGroups), true)
      ensures !(base.isValid && null in old(base.references)) ==>
                base.references == old(base.references) && mixedJointGroups == old(mixedJointGroups)
      ensures null !in base.references || !base.isValid
      ensures !base.hasModified
      ensures remap <==> base.isValid && |base.references| > 0
    {
      var valid := base.GetIsValid();
      if valid && null in base.references {
        base.references := WithoutNullPoses(base.references);
        InitializeMixedJointGroups(true);
      }
      remap := base.Update();
    }

    /** RemapOnUpdate: every target group, in order, is mixed from the references'
        groups of its label, weighted by the table. A group whose fold fails keeps its
        entry, though its joints hold what the additions before the failure wrote. */
    method RemapOnUpdate()
      requires base.target != null && null !in base.references && Searchable(base.references)
      requires Mixable(base.target, base.references)
      modifies base.target`jointGroups, AllTransforms(base.target.jointGroups)`localRotation
      ensures MixedInto(base.target, base.references, mixedJointGroups, old(base.target.jointGroups))
    {
      MixPoses(base.target, base.references, mixedJointGroups);
    }
  }

  /** The group loop of RemapOnUpdate: every target group, in order, is mixed from the
      references' groups of its label, weighted by the table. */
  method MixPoses(target: Pose, refs: seq<Pose?>, table: seq<MixedJointGroup>)
    requires null !in refs && Searchable(refs) && Mixable(target, refs)
    modifies target`jointGroups, AllTransforms(target.jointGroups)`localRotation
    ensures MixedInto(target, refs, table, old(target.jointGroups))
  {
    ghost var G := target.jointGroups;
    ghost var V := Views(refs);
    PlanOf(target, refs, table);
    ghost var C := Caches(refs, V, G, table);
    ghost var N := CacheTransforms(C);
    ghost var B := Snapshot(G);
    ghost var T := Snapshots(C);
    assert Shaped(G, C, B, T);
    MixAll(target, refs, table, G, V, C, N, B, T);
  }

  /** Since the previous state, every group of the target, whose groups were G, was
      mixed from the references' groups of its label weighted by the table: the entry
      is TryAdd's group when the fold succeeds and the old one otherwise, and its
      joints hold what the fold wrote. */
  twostate predicate MixedInto(target: Pose, refs: seq<Pose?>, table: seq<MixedJointGroup>, G: seq<JointGroup>)
    requires null !in refs
    reads target, AllTransforms(G)
  {
    TransformsIn(G);
    && old(Filled(Views(refs)))
    && |target.jointGroups| == |G|
    && forall i :: 0 <= i < |G| ==>
         var c := Cache(refs, old(Views(refs)), G[i].name, table);
         && FoldFits(G[i], c) && target.jointGroups[i] == MixedGroup(G[i], c)
         && Rotations(G[i].contents) == FoldedRotations(G[i], c, old(Rotations(G[i].contents)), old(Snapshot(c)))
  }

  /** The transforms of one group are among the transforms of all groups. */
  lemma TransformsIn(groups: seq<JointGroup>)
    ensures forall k, t :: 0 <= k < |groups| && t in Transforms(groups[k].contents) ==> t in AllTransforms(groups)
  {
    forall k, t | 0 <= k < |groups| && t in Transforms(groups[k].contents)
      ensures t in AllTransforms(groups)
    {
      var y :| 0 <= y < |groups[k].contents| && Transforms(groups[k].contents)[y] == t;
    }
  }

  /** The transforms of the joints of every cache. */
  function CacheTransforms(C: seq<seq<JointGroup>>): (N: set<Transform>)
    ensures forall i :: 0 <= i < |C| ==> AllTransforms(C[i]) <= N
  {
    set j, t | 0 <= j < |C| && t in AllTransforms(C[j]) :: t
  }

  /** A mixable target and its references satisfy the plan of the group loop. */
  lemma PlanOf(target: Pose, refs: seq<Pose?>, table: seq<MixedJointGroup>)
    requires null !in refs && Searchable(refs) && Mixable(target, refs)
    ensures Filled(Views(refs))
    ensures Plan(refs, table, target.jointGroups, Views(refs), Caches(refs, Views(refs), target.jointGroups, table),
                 CacheTransforms(Caches(refs, Views(refs), target.jointGroups, table)))
  {
    CachesApart(target, refs, table);
    var C := Caches(refs, Views(refs), target.jointGroups, table);
    var N := CacheTransforms(C);
    forall t | t in N
      ensures t !in AllTransforms(target.jointGroups)
    {
      var j :| 0 <= j < |C| && t in AllTransforms(C[j]);
    }
  }

  /** The cache loop of RemapOnUpdate for one label: the contribution of every
      reference that has a group with the label, in reference order. */
  method BuildCache(refs: seq<Pose?>, table: seq<MixedJointGroup>, name: string, ghost views: seq<seq<JointGroup>>)
    returns (cache: seq<JointGroup>)
    requires null !in refs && views == Views(refs) && Filled(views)
    ensures cache == Cache(refs, views, name, table)
  {
    cache := [];
    var j := 0;
    while j < |refs|
      invariant 0 <= j <= |refs|
      invariant cache == CacheOf(refs, views, name, table, j)
    {
      var p := refs[j];
      assert p.jointGroups == views[j];
      var search := TrySearchFromLabel(p.jointGroups, name);
      if search.0 {
        var g := search.1;
        var weight := TableWeight(table, p, g.name);
        cache := cache + [Weighted(g, weight)];
      }
      j := j + 1;
    }
  }

  /** The joints of different groups are different transforms. */
  predicate PairwiseDisjoint(G: seq<JointGroup>)
  {
    forall a, b :: 0 <= a < |G| && 0 <= b < |G| && a != b ==> Disjoint(G[a].contents, G[b].contents)
  }

  /** The rest of one pass of RemapOnUpdate's group loop: folds the cache into the
      joints of target group i and keeps TryAdd's group only when TryAdd succeeds.
      G are the target groups as the tick found them; the joints of the other groups
      keep their rotations. */
  method FoldGroup(target: Pose, i: nat, cache: seq<JointGroup>, ghost G: seq<JointGroup>)
    requires i < |G| == |target.jointGroups| && target.jointGroups[i] == G[i]
    requires DistinctJoints(G[i].contents) && FoldFits(G[i], cache) && SeparateFrom(G[i], cache)
    requires PairwiseDisjoint(G)
    modifies target`jointGroups, Transforms(G[i].contents)`localRotation
    ensures target.jointGroups == old(target.jointGroups)[i := MixedGroup(G[i], cache)]
    ensures Rotations(G[i].contents) == FoldedRotations(G[i], cache, old(Rotations(G[i].contents)), old(Snapshot(cache)))
    ensures forall j :: 0 <= j < |G| && j != i ==> Rotations(G[j].contents) == old(Rotations(G[j].contents))
  {
    GroupsApart(G, i);
    var group := target.jointGroups[i];
    var ok, res, raised := TryAdd(group, cache);
    if ok {
      target.jointGroups := target.jointGroups[i := res];
    }
  }

  /** What the group loop of RemapOnUpdate relies on, about values only: C are the
      caches of the target groups G, each group fits its cache, and no joint is shared
      between two target groups or between a target group and a cache (N holds the
      caches' transforms). */
  predicate Plan(refs: seq<Pose?>, table: seq<MixedJointGroup>, G: seq<JointGroup>, V: seq<seq<JointGroup>>,
                 C: seq<seq<JointGroup>>, N: set<Transform>)
  {
    && null !in refs && |V| == |refs| && Filled(V) && |C| == |G|
    && (forall i :: 0 <= i < |G| ==> Ready(refs, table, G, V, C, N, i))
    && (forall i :: 0 <= i < |G| ==> FoldFits(G[i], C[i]))
    && PairwiseDisjoint(G)
    && N !! AllTransforms(G)
  }

  /** What mixing target group i needs: its cache, joints that fit the cache and are
      not shared with it, and the cache's transforms among N. */
  predicate Ready(refs: seq<Pose?>, table: seq<MixedJointGroup>, G: seq<JointGroup>, V: seq<seq<JointGroup>>,
                  C: seq<seq<JointGroup>>, N: set<Transform>, i: nat)
    requires null !in refs && |V| == |refs| && Filled(V) && i < |G| && i < |C|
  {
    && C[i] == Cache(refs, V, G[i].name, table)
    && DistinctJoints(G[i].contents) && FoldFits(G[i], C[i]) && SeparateFrom(G[i], C[i])
    && AllTransforms(C[i]) <= N
  }

  /** B has the shape of the target groups' joints and T that of the caches' joints. */
  predicate Shaped(G: seq<JointGroup>, C: seq<seq<JointGroup>>, B: seq<seq<Quat>>, T: seq<seq<seq<Quat>>>)
  {
    && |B| == |G| == |C| == |T|
    && (forall i :: 0 <= i < |G| ==> |B[i]| == |G[i].contents|)
    && (forall i :: 0 <= i < |C| ==> |T[i]| == |C[i]| && forall x :: 0 <= x < |C[i]| ==> |T[i][x]| == |C[i][x].contents|)
  }

  /** RemapOnUpdate's group loop over the target groups G as the tick found them,
      whose joints then held the rotations B while the caches' joints held T. */
  method MixAll(target: Pose, refs: seq<Pose?>, table: seq<MixedJointGroup>, ghost G: seq<JointGroup>,
                ghost V: seq<seq<JointGroup>>, ghost C: seq<seq<JointGroup>>, ghost N: set<Transform>,
                ghost B: seq<seq<Quat>>, ghost T: seq<seq<seq<Quat>>>)
    requires Plan(refs, table, G, V, C, N)
    requires target.jointGroups == G && target !in refs && V == Views(refs)
    requires |B| == |G| && forall i :: 0 <= i < |G| ==> B[i] == Rotations(G[i].contents)
    requires |T| == |C| && forall i :: 0 <= i < |C| ==> T[i] == Snapshot(C[i])
    requires Shaped(G, C, B, T)
    modifies target`jointGroups, AllTransforms(G)`localRotation
    ensures |target.jointGroups| == |G|
    ensures forall i :: 0 <= i < |G| ==> target.jointGroups[i] == MixedGroup(G[i], C[i])
    ensures forall i :: 0 <= i < |G| ==> Rotations(G[i].contents) == FoldedRotations(G[i], C[i], B[i], T[i])
  {
    ghost var MG := seq(|G|, i requires 0 <= i < |G| && Plan(refs, table, G, V, C, N) => MixedGroup(G[i], C[i]));
    ghost var R := seq(|G|, i requires 0 <= i < |G| && Plan(refs, table, G, V, C, N) && Shaped(G, C, B, T)
                      => FoldedRotations(G[i], C[i], B[i], T[i]));
    var k := 0;
    while k < |target.jointGroups|
      invariant 0 <= k <= |G| == |target.jointGroups|
      invariant forall i :: 0 <= i < |G| ==> target.jointGroups[i] == if i < k then MG[i] else G[i]
      invariant forall i :: 0 <= i < |G| ==> Rotations(G[i].contents) == if i < k then R[i] else B[i]
      invariant unchanged(N) && V == Views(refs)
    {
      assert Ready(refs, table, G, V, C, N, k);
      MixStep(target, refs, table, k, G, V, C, N, B[k], T[k], MG[k], R[k]);
      k := k + 1;
    }
  }

  /** One pass of the group loop: builds the cache Ck of group k and folds it in,
      leaving the entry MGk and the rotations Rk. */
  method MixStep(target: Pose, refs: seq<Pose?>, table: seq<MixedJointGroup>, k: nat, ghost G: seq<JointGroup>,
                 ghost V: seq<seq<JointGroup>>, ghost C: seq<seq<JointGroup>>, ghost N: set<Transform>,
                 ghost Bk: seq<Quat>, ghost Tk: seq<seq<Quat>>, ghost MGk: JointGroup, ghost Rk: seq<Quat>)
    requires k < |G| && null !in refs && |V| == |refs| && Filled(V) && k < |C|
    requires Ready(refs, table, G, V, C, N, k) && PairwiseDisjoint(G) && N !! AllTransforms(G)
    requires |Bk| == |G[k].contents| && |Tk| == |C[k]| && forall x :: 0 <= x < |C[k]| ==> |Tk[x]| == |C[k][x].contents|
    requires MGk == MixedGroup(G[k], C[k]) && Rk == FoldedRotations(G[k], C[k], Bk, Tk)
    requires |target.jointGroups| == |G| && target.jointGroups[k] == G[k] && target !in refs && V == Views(refs)
    requires Rotations(G[k].contents) == Bk && Snapshot(C[k]) == Tk
    modifies target`jointGroups, Transforms(G[k].contents)`localRotation
    ensures target.jointGroups == old(target.jointGroups)[k := MGk]
    ensures Rotations(G[k].contents) == Rk
    ensures forall j :: 0 <= j < |G| && j != k ==> Rotations(G[j].contents) == old(Rotations(G[j].contents))
    ensures unchanged(N) && V == Views(refs)
  {
    GroupsApart(G, k);
    var cache := BuildCache(refs, table, target.jointGroups[k].name, V);
    assert cache == C[k] && Rotations(G[k].contents) == Bk && Snapshot(cache) == Tk;
    assert Rk == FoldedRotations(G[k], cache, Bk, Tk);
    FoldGroup(target, k, cache, G);
  }
}
