// The Pose component: a character's joints in labelled groups, the weighted
// combination of groups that the pose mixer is built on, and the flattened
// local-rotation view of a pose.
module PoseModel {
  import opened Geometry
  import opened Lists

  /** A joint: its Transform. Its local rotation is the transform's. */
  datatype Joint = Joint(transform: Transform)

  /** A labelled group of joints with a master weight. */
  datatype JointGroup = JointGroup(name: string, masterWeight: real, contents: seq<Joint>)

  /** The transforms of a list of joints, in order. */
  function Transforms(js: seq<Joint>): (ts: seq<Transform>)
    ensures |ts| == |js| && forall i :: 0 <= i < |js| ==> ts[i] == js[i].transform
  {
    seq(|js|, i requires 0 <= i < |js| => js[i].transform)
  }

  /** The local rotations of a list of joints, in order. */
  function Rotations(js: seq<Joint>): (qs: seq<Quat>)
    reads Transforms(js)
    ensures |qs| == |js| && forall i :: 0 <= i < |js| ==> qs[i] == js[i].transform.localRotation
  {
    seq(|js|, i requires 0 <= i < |js| reads Transforms(js) => js[i].transform.localRotation)
  }

  /** No transform occurs twice among the joints. */
  predicate DistinctJoints(js: seq<Joint>)
  {
    forall i, j :: 0 <= i < j < |js| ==> js[i].transform != js[j].transform
  }

  /** No joint of `a` shares its transform with a joint of `b`. */
  predicate Disjoint(a: seq<Joint>, b: seq<Joint>)
  {
    forall i, j :: 0 <= i < |a| && 0 <= j < |b| ==> a[i].transform != b[j].transform
  }

  // ---- looking up groups ----

  /** Index of the first group with the name, or -1. */
  function FirstWithLabel(groups: seq<JointGroup>, name: string): (k: int)
    ensures -1 <= k < |groups|
    ensures k >= 0 ==> groups[k].name == name && forall j :: 0 <= j < k ==> groups[j].name != name
    ensures k == -1 ==> forall j :: 0 <= j < |groups| ==> groups[j].name != name
  {
    FindIndex(groups, (g: JointGroup) => g.name, name)
  }

  /** JointGroup.TrySearchFromLabel: the first group with the name, or the first group
      of the list together with `false`. The source indexes the list's first element
      when nothing matches, so the list must not be empty. */
  function TrySearchFromLabel(groups: seq<JointGroup>, name: string): (r: (bool, JointGroup))
    requires |groups| > 0
    ensures r.0 <==> exists j :: 0 <= j < |groups| && groups[j].name == name
    ensures r.0 ==> r.1.name == name && r.1 in groups
    ensures r.0 ==> exists k :: 0 <= k < |groups| && r.1 == groups[k] && forall j :: 0 <= j < k ==> groups[j].name != name
    ensures !r.0 ==> r.1 == groups[0]
  {
    var k := FirstWithLabel(groups, name);
    if k >= 0 then (true, groups[k]) else (false, groups[0])
  }

  /** JointGroup.GetLabels: the labels, one per group, in order. */
  function GetLabels(groups: seq<JointGroup>): (r: seq<string>)
    ensures |r| == |groups| && forall i :: 0 <= i < |groups| ==> r[i] == groups[i].name
  {
    seq(|groups|, i requires 0 <= i < |groups| => groups[i].name)
  }

  predicate HasLabel(groups: seq<JointGroup>, name: string)
  {
    exists j :: 0 <= j < |groups| && groups[j].name == name
  }

  // ---- adding groups ----

  /** The interpolation parameter with which Slerp moves a left group (weight lw)
      towards a right group (weight rw): rw / (lw + rw), or 1/2 when the weights add
      up to zero. */
  function SlerpParam(lw: real, rw: real): (t: real)
    ensures lw + rw == 0.0 ==> t == 0.5
    ensures lw + rw != 0.0 && rw == 0.0 ==> t == 0.0
    ensures lw == 0.0 && rw != 0.0 ==> t == 1.0
    ensures 0.0 <= lw && 0.0 <= rw && lw + rw > 0.0 ==> 0.0 <= t <= 1.0
  {
    if lw + rw == 0.0 then 0.5 else rw / (lw + rw)
  }

  /** Two groups can be added: same name and the same number of joints. */
  predicate Compatible(left: JointGroup, right: JointGroup)
  {
    left.name == right.name && |left.contents| == |right.contents|
  }

  /** Slerp of two rotation lists, entry by entry. */
  function SlerpRows(a: seq<Quat>, b: seq<Quat>, t: real): (r: seq<Quat>)
    requires |a| == |b|
    ensures |r| == |a| && forall i :: 0 <= i < |a| ==> r[i] == Slerp(a[i], b[i], t)
  {
    seq(|a|, i requires 0 <= i < |a| => Slerp(a[i], b[i], t))
  }

  /** Joint i of `a` shares its transform with no joint of `b` other than joint i. */
  predicate AlignedWith(a: seq<Joint>, b: seq<Joint>)
  {
    forall i, j :: 0 <= i < |a| && 0 <= j < |b| && i != j ==> a[i].transform != b[j].transform
  }

  /** JointGroup.TryAdd(ref result, left, right). On a name or size mismatch it fails
      and hands back `left`. Otherwise it writes, into the transform of result's i-th
      joint, the Slerp of left's and right's i-th local rotations by
      SlerpParam(left weight, right weight), and returns a group with left's name,
      the sum of the two master weights and result's first joints. When result has
      fewer joints than left, reading result.Contents[i] past its end raises
      ArgumentOutOfRangeException, after every joint of result was written. The model
      takes result's joints to be distinct and no operand joint to share a transform
      with a result joint at a different index. */
  method TryAddPair(result: JointGroup, left: JointGroup, right: JointGroup) returns (ok: bool, res: JointGroup, raised: bool)
    requires DistinctJoints(result.contents)
    requires AlignedWith(left.contents, result.contents) && AlignedWith(right.contents, result.contents)
    modifies Transforms(result.contents)`localRotation
    ensures raised <==> Compatible(left, right) && |result.contents| < |left.contents|
    ensures ok <==> Compatible(left, right) && !raised
    ensures !Compatible(left, right) ==> res == left && Rotations(result.contents) == old(Rotations(result.contents))
    ensures ok ==> res == JointGroup(left.name, left.masterWeight + right.masterWeight, result.contents[..|left.contents|])
    ensures ok ==> (Rotations(result.contents)[..|left.contents|] ==
              SlerpRows(old(Rotations(left.contents)), old(Rotations(right.contents)), SlerpParam(left.masterWeight, right.masterWeight)))
    ensures ok ==> Rotations(result.contents)[|left.contents|..] == old(Rotations(result.contents))[|left.contents|..]
    ensures raised ==> (Rotations(result.contents) ==
              SlerpRows(old(Rotations(left.contents))[..|result.contents|], old(Rotations(right.contents))[..|result.contents|],
                        SlerpParam(left.masterWeight, right.masterWeight)))
  {
    if left.name != right.name || |left.contents| != |right.contents| {
      return false, left, false;
    }
    var t := SlerpParam(left.masterWeight, right.masterWeight);
    var n := |left.contents|;
    var i := 0;
    while i < n
      invariant 0 <= i <= n && i <= |result.contents|
      invariant forall j :: 0 <= j < i ==>
        result.contents[j].transform.localRotation ==
        Slerp(old(left.contents[j].transform.localRotation), old(right.contents[j].transform.localRotation), t)
      invariant forall j :: i <= j < |result.contents| ==>
        result.contents[j].transform.localRotation == old(result.contents[j].transform.localRotation)
      invariant forall j :: i <= j < n ==>
        left.contents[j].transform.localRotation == old(left.contents[j].transform.localRotation) &&
        right.contents[j].transform.localRotation == old(right.contents[j].transform.localRotation)
    {
      if i == |result.contents| {
        return false, left, true;
      }
      var q := Slerp(left.contents[i].transform.localRotation, right.contents[i].transform.localRotation, t);
      result.contents[i].transform.localRotation := q;
      i := i + 1;
    }
    ok, res, raised := true, JointGroup(left.name, left.masterWeight + right.masterWeight, result.contents[..n]), false;
  }

  /** Sum of a list of weights. */
  function Sum(ws: seq<real>): real
  {
    if ws == [] then 0.0 else Sum(ws[..|ws| - 1]) + ws[|ws| - 1]
  }

  /** The master weights of the groups, in order. */
  function Weights(groups: seq<JointGroup>): (ws: seq<real>)
    ensures |ws| == |groups| && forall k :: 0 <= k < |groups| ==> ws[k] == groups[k].masterWeight
  {
    seq(|groups|, k requires 0 <= k < |groups| => groups[k].masterWeight)
  }

  /** The rotation the pairwise additions build for one joint, left to right, from its
      rotations `qs` in the groups with weights `ws`: each new rotation is approached
      from the running result by SlerpParam(weight so far, its weight). */
  function FoldRotation(qs: seq<Quat>, ws: seq<real>): Quat
    requires |qs| == |ws| > 0
  {
    if |qs| == 1 then qs[0]
    else
      var n := |qs| - 1;
      Slerp(FoldRotation(qs[..n], ws[..n]), qs[n], SlerpParam(Sum(ws[..n]), ws[n]))
  }

  /** Every row has the length of the first. */
  predicate Rectangular(table: seq<seq<Quat>>)
  {
    forall k :: 0 <= k < |table| ==> |table[k]| == |table[0]|
  }

  /** FoldRotation on every joint at once: rows are the groups' rotation lists. */
  function FoldRows(table: seq<seq<Quat>>, ws: seq<real>): (r: seq<Quat>)
    requires |table| == |ws| > 0 && Rectangular(table)
    ensures |r| == |table[0]|
  {
    if |table| == 1 then table[0]
    else
      var n := |table| - 1;
      SlerpRows(FoldRows(table[..n], ws[..n]), table[n], SlerpParam(Sum(ws[..n]), ws[n]))
  }

  /** The i-th entry of every row. */
  function Column(table: seq<seq<Quat>>, i: nat): (qs: seq<Quat>)
    requires forall k :: 0 <= k < |table| ==> i < |table[k]|
    ensures |qs| == |table| && forall k :: 0 <= k < |table| ==> qs[k] == table[k][i]
  {
    seq(|table|, k requires 0 <= k < |table| => table[k][i])
  }

  /** Joint i of the folded rows is the fold of joint i's rotations. */
  lemma {:induction false} FoldRowsAt(table: seq<seq<Quat>>, ws: seq<real>, i: nat)
    requires |table| == |ws| > 0 && Rectangular(table) && i < |table[0]|
    ensures FoldRows(table, ws)[i] == FoldRotation(Column(table, i), ws)
  {
    if |table| > 1 {
      var n := |table| - 1;
      FoldRowsAt(table[..n], ws[..n], i);
      assert Column(table, i)[..n] == Column(table[..n], i);
    }
  }

  /** One more pairwise addition extends the fold by one row. */
  lemma FoldRowsStep(table: seq<seq<Quat>>, ws: seq<real>, k: nat)
    requires |table| == |ws| && k + 1 < |table| && Rectangular(table)
    ensures Rectangular(table[..k + 1]) && Rectangular(table[..k + 2])
    ensures FoldRows(table[..1], ws[..1]) == table[0] && Sum(ws[..1]) == ws[0]
    ensures Sum(ws[..k + 2]) == Sum(ws[..k + 1]) + ws[k + 1]
    ensures FoldRows(table[..k + 2], ws[..k + 2]) ==
            SlerpRows(FoldRows(table[..k + 1], ws[..k + 1]), table[k + 1], SlerpParam(Sum(ws[..k + 1]), ws[k + 1]))
  {
    assert table[..k + 2][..k + 1] == table[..k + 1];
    assert ws[..k + 2][..k + 1] == ws[..k + 1];
    assert ws[..1][..0] == [];
  }

  /** Number of groups after the first that can be added onto it, before the first
      one that cannot. */
  function CompatiblePrefix(groups: seq<JointGroup>): (m: nat)
    requires |groups| > 0
    ensures m < |groups|
    ensures forall k :: 1 <= k <= m ==> Compatible(groups[0], groups[k])
    ensures m < |groups| - 1 ==> !Compatible(groups[0], groups[m + 1])
  {
    CompatibleFrom(groups, 0)
  }

  /** Counting on from group k, which is known to be addable: the last group of the
      run of addable groups that starts there. */
  function CompatibleFrom(groups: seq<JointGroup>, k: nat): (m: nat)
    requires k < |groups|
    ensures k <= m < |groups|
    ensures forall j :: k < j <= m ==> Compatible(groups[0], groups[j])
    ensures m < |groups| - 1 ==> !Compatible(groups[0], groups[m + 1])
    decreases |groups| - k
  {
    if k + 1 < |groups| && Compatible(groups[0], groups[k + 1]) then CompatibleFrom(groups, k + 1) else k
  }

  /** The transforms of every joint of every group. */
  function AllTransforms(groups: seq<JointGroup>): set<Transform>
  {
    set k, j | 0 <= k < |groups| && 0 <= j < |groups[k].contents| :: groups[k].contents[j].transform
  }

  /** The local rotations of every group's joints, group by group. */
  function Snapshot(groups: seq<JointGroup>): (t: seq<seq<Quat>>)
    reads AllTransforms(groups)
    ensures |t| == |groups| && forall k :: 0 <= k < |groups| ==> t[k] == Rotations(groups[k].contents)
  {
    seq(|groups|, k requires 0 <= k < |groups| reads AllTransforms(groups) => Rotations(groups[k].contents))
  }

  /** No group joint shares a transform with a result joint. */
  predicate SeparateFrom(result: JointGroup, groups: seq<JointGroup>)
  {
    forall k :: 0 <= k < |groups| ==> Disjoint(groups[k].contents, result.contents)
  }

  /** When the variadic TryAdd indexes safely: one group must cover result's joints;
      for two or more, when the first two can be added, result must cover the first
      group's joints. Otherwise it raises ArgumentOutOfRangeException. */
  predicate FoldFits(result: JointGroup, groups: seq<JointGroup>)
  {
    (|groups| == 1 ==> |groups[0].contents| >= |result.contents|) &&
    (|groups| >= 2 && Compatible(groups[0], groups[1]) ==> |result.contents| >= |groups[0].contents|)
  }

  /** JointGroup.TryAdd(ref result, params groups).
      No group: fails, nothing changes.
      One group: copies its rotations into result's joints and succeeds; result keeps
      its name and master weight.
      Otherwise: adds the groups pairwise from the left into result's joints and stops
      at the first group that cannot be added (m = CompatiblePrefix(groups) groups
      were). It succeeds when all were; the result then has the first group's name
      and the sum of all master weights, and its joints hold FoldRows of the rotations
      of the first m + 1 groups.
      When an index runs past the end of a group (FoldFits fails) it raises, leaving
      the joints RaisedRotations says. The model takes result's joints to be distinct
      and apart from the groups' joints. */
  method TryAdd(result: JointGroup, groups: seq<JointGroup>) returns (ok: bool, res: JointGroup, raised: bool)
    requires DistinctJoints(result.contents) && SeparateFrom(result, groups)
    modifies Transforms(result.contents)`localRotation
    ensures raised <==> !FoldFits(result, groups)
    ensures !raised ==> (ok, res) == FoldStatus(result, groups)
    ensures !raised ==> Rotations(result.contents) == FoldedRotations(result, groups, old(Rotations(result.contents)), old(Snapshot(groups)))
    ensures raised ==> Rotations(result.contents) == RaisedRotations(result, groups, old(Rotations(result.contents)), old(Snapshot(groups)))
  {
    ghost var before := Rotations(result.contents);
    ghost var table := Snapshot(groups);
    if |groups| == 0 {
      return false, result, false;
    }
    if |groups| == 1 {
      raised := CopyRotations(result, groups[0]);
      if !raised {
        RotationsPrefix(groups[0].contents, |result.contents|);
      }
      return !raised, result, raised;
    }
    if Compatible(groups[0], groups[1]) && |result.contents| < |groups[0].contents| {
      PrefixSeparate(result, groups, |result.contents|);
      assert result.contents[..|result.contents|] == result.contents;
      ok, res, raised := TryAddPair(result, groups[0], groups[1]);
      return false, res, raised;
    }
    raised := false;
    ok, res := AddFold(result, groups);
    FoldStatusOfOutcome(result, groups, ok, res, before, table, Rotations(result.contents));
    AddedIsFolded(result, groups, before, table, Rotations(result.contents));
  }

  /** The rotations TryAdd leaves in result's joints when it raises: a single group's
      rotations over result's first joints (the rest untouched), or the Slerp of the
      first two groups in every one of result's joints. */
  function RaisedRotations(result: JointGroup, groups: seq<JointGroup>, before: seq<Quat>, table: seq<seq<Quat>>): (after: seq<Quat>)
    requires !FoldFits(result, groups) && |before| == |result.contents|
    requires |table| == |groups| && forall k :: 0 <= k < |groups| ==> |table[k]| == |groups[k].contents|
    ensures |after| == |result.contents|
  {
    var n := |result.contents|;
    if |groups| == 1 then table[0] + before[|table[0]|..]
    else SlerpRows(table[0][..n], table[1][..n], SlerpParam(groups[0].masterWeight, groups[1].masterWeight))
  }

  /** The flag and the group TryAdd(ref result, groups) hands back, as a function of
      the groups: success exactly when every group can be added onto the first, and
      then the first group's name with the sum of all master weights. */
  function FoldStatus(result: JointGroup, groups: seq<JointGroup>): (r: (bool, JointGroup))
    requires FoldFits(result, groups)
    ensures |groups| <= 1 ==> r == (|groups| == 1, result)
    ensures |groups| >= 2 ==> (r.0 <==> forall k :: 1 <= k < |groups| ==> Compatible(groups[0], groups[k]))
    ensures |groups| >= 2 && r.0 ==> r.1 == JointGroup(groups[0].name, Sum(Weights(groups)), result.contents[..|groups[0].contents|])
    ensures |groups| >= 2 && !Compatible(groups[0], groups[1]) ==> r == (false, groups[0])
  {
    if |groups| <= 1 then (|groups| == 1, result)
    else
      var m := CompatiblePrefix(groups);
      var n := |groups[0].contents|;
      assert m == |groups| - 1 ==> groups[..m + 1] == groups;
      (m == |groups| - 1,
       if m == 0 then groups[0] else JointGroup(groups[0].name, Sum(Weights(groups[..m + 1])), result.contents[..n]))
  }

  /** What TryAdd leaves in result's joints (`after`, from `before`), for any number of
      groups whose rotations are `table`. */
  ghost predicate Added(result: JointGroup, groups: seq<JointGroup>, before: seq<Quat>, table: seq<seq<Quat>>, after: seq<Quat>)
  {
    && FoldFits(result, groups) && |before| == |result.contents| && |after| == |result.contents|
    && |table| == |groups| && (forall k :: 0 <= k < |groups| ==> |table[k]| == |groups[k].contents|)
    && (|groups| == 0 ==> after == before)
    && (|groups| == 1 ==> after == table[0][..|result.contents|])
    && (|groups| >= 2 ==> FoldOutcome(result, groups, FoldStatus(result, groups).0, FoldStatus(result, groups).1, before, table, after))
  }

  /** The rotations TryAdd(ref result, groups) leaves in result's joints, from their
      rotations `before` and the groups' rotations `table`: untouched without groups,
      a copy of the single group's, and otherwise the fold of the groups that could be
      added, written over result's first joints, or untouched when the very first pair
      could not be added. */
  function FoldedRotations(result: JointGroup, groups: seq<JointGroup>, before: seq<Quat>, table: seq<seq<Quat>>): (after: seq<Quat>)
    requires FoldFits(result, groups) && |before| == |result.contents|
    requires |table| == |groups| && forall k :: 0 <= k < |groups| ==> |table[k]| == |groups[k].contents|
    ensures |after| == |result.contents|
  {
    if |groups| == 0 then before
    else if |groups| == 1 then table[0][..|result.contents|]
    else
      var m := CompatiblePrefix(groups);
      var n := |groups[0].contents|;
      if m == 0 then before
      else
        assert Rectangular(table[..m + 1]) by {
          var t := table[..m + 1];
          forall k | 0 <= k < |t|
            ensures |t[k]| == |t[0]|
          {
            if k > 0 {
              assert Compatible(groups[0], groups[k]);
            }
          }
        }
        FoldRows(table[..m + 1], Weights(groups[..m + 1])) + before[n..]
  }

  /** The relational description of TryAdd's effect on the joints and the functional
      one agree: `after` is what TryAdd may leave exactly when it is FoldedRotations. */
  lemma AddedIsFolded(result: JointGroup, groups: seq<JointGroup>, before: seq<Quat>, table: seq<seq<Quat>>, after: seq<Quat>)
    requires FoldFits(result, groups) && |before| == |result.contents| && |after| == |result.contents|
    requires |table| == |groups| && forall k :: 0 <= k < |groups| ==> |table[k]| == |groups[k].contents|
    ensures Added(result, groups, before, table, after) <==> after == FoldedRotations(result, groups, before, table)
  {
    if |groups| >= 2 {
      var m := CompatiblePrefix(groups);
      var n := |groups[0].contents|;
      if m > 0 {
        var f := FoldedRotations(result, groups, before, table);
        assert f[..n] == FoldRows(table[..m + 1], Weights(groups[..m + 1]));
        assert f[n..] == before[n..];
        if after[..n] == f[..n] && after[n..] == f[n..] {
          assert after == after[..n] + after[n..];
          assert f == f[..n] + f[n..];
        }
      }
    }
  }

  /** FoldOutcome fixes the flag and the group: they are FoldStatus's. */
  lemma FoldStatusOfOutcome(result: JointGroup, groups: seq<JointGroup>, ok: bool, res: JointGroup,
                            before: seq<Quat>, table: seq<seq<Quat>>, after: seq<Quat>)
    requires |groups| >= 2 && FoldFits(result, groups) && |before| == |after| == |result.contents|
    requires |table| == |groups| && forall k :: 0 <= k < |groups| ==> |table[k]| == |groups[k].contents|
    requires FoldOutcome(result, groups, ok, res, before, table, after)
    ensures (ok, res) == FoldStatus(result, groups)
  {
  }

  /** What the pairwise additions of two or more groups leave behind, given result's
      joint rotations before (`before`) and after (`after`) and the groups' rotations
      (`table`): success exactly when every group could be added; after a failure on
      the very first pair, the first group and untouched joints; otherwise a group with
      the first group's name, the summed weight of the groups added so far and
      result's first joints, which hold the fold of those groups' rotations. Joints
      past the first group's size are never written. */
  ghost predicate FoldOutcome(result: JointGroup, groups: seq<JointGroup>, ok: bool, res: JointGroup,
                              before: seq<Quat>, table: seq<seq<Quat>>, after: seq<Quat>)
    requires |groups| >= 2 && FoldFits(result, groups) && |before| == |after| == |result.contents|
    requires |table| == |groups| && forall k :: 0 <= k < |groups| ==> |table[k]| == |groups[k].contents|
  {
    var m := CompatiblePrefix(groups);
    var n := |groups[0].contents|;
    && ok == (m == |groups| - 1)
    && (m == 0 ==> res == groups[0] && after == before)
    && (m > 0 ==> res == JointGroup(groups[0].name, Sum(Weights(groups[..m + 1])), result.contents[..n]))
    && (m > 0 ==> after[..n] == FoldRows(table[..m + 1], Weights(groups[..m + 1])) && after[n..] == before[n..])
  }

  /** A prefix of result keeps the aliasing facts TryAdd relies on, and its joints
      are neither among the later ones nor among the groups' joints. */
  lemma PrefixSeparate(result: JointGroup, groups: seq<JointGroup>, n: nat)
    requires DistinctJoints(result.contents) && SeparateFrom(result, groups) && n <= |result.contents|
    ensures DistinctJoints(result.contents[..n]) && AlignedWith(result.contents[..n], result.contents[..n])
    ensures forall k :: 0 <= k < |groups| ==> AlignedWith(groups[k].contents, result.contents[..n])
    ensures forall p :: n <= p < |result.contents| ==> result.contents[p].transform !in Transforms(result.contents[..n])
    ensures forall k, i :: 0 <= k < |groups| && 0 <= i < |groups[k].contents| ==>
              groups[k].contents[i].transform !in Transforms(result.contents[..n])
  {
    forall k | 0 <= k < |groups|
      ensures AlignedWith(groups[k].contents, result.contents[..n])
    {
      assert Disjoint(groups[k].contents, result.contents);
    }
    forall k, i | 0 <= k < |groups| && 0 <= i < |groups[k].contents|
      ensures groups[k].contents[i].transform !in Transforms(result.contents[..n])
    {
      assert Disjoint(groups[k].contents, result.contents);
    }
  }

  /** The rotations of a prefix of joints are that prefix of their rotations. */
  lemma RotationsPrefix(js: seq<Joint>, n: nat)
    requires n <= |js|
    ensures Rotations(js[..n]) == Rotations(js)[..n]
  {
  }

  /** The first n rotations are the fold of the first k + 1 rows of the table. */
  ghost predicate FoldedPrefix(rots: seq<Quat>, n: nat, all: seq<seq<Quat>>, w: seq<real>, k: nat)
  {
    && n <= |rots| && k < |all| && k < |w| && Rectangular(all[..k + 1]) && |all[0]| == n
    && rots[..n] == FoldRows(all[..k + 1], w[..k + 1])
  }

  /** Slerping the folded prefix towards row k + 1 folds one more row. */
  lemma NextFolded(w: seq<real>, all: seq<seq<Quat>>, k: nat, n: nat, before: seq<Quat>, after: seq<Quat>)
    requires k + 1 < |w| && k + 1 < |all| && |all[k + 1]| == n
    requires FoldedPrefix(before, n, all, w, k) && |after| == |before|
    requires after[..n] == SlerpRows(before[..n], all[k + 1], SlerpParam(Sum(w[..k + 1]), w[k + 1]))
    ensures FoldedPrefix(after, n, all, w, k + 1)
    ensures Sum(w[..k + 2]) == Sum(w[..k + 1]) + w[k + 1]
  {
    assert all[..k + 2][..k + 1] == all[..k + 1];
    assert Rectangular(all[..k + 2]);
    FoldRowsStep(all[..k + 2], w[..k + 2], k);
    assert w[..k + 2][..k + 1] == w[..k + 1];
  }

  /** The fold of the first two rows is their Slerp. */
  lemma FirstFolded(w: seq<real>, all: seq<seq<Quat>>, n: nat, after: seq<Quat>)
    requires 1 < |w| && 1 < |all| && |all[0]| == n && |all[1]| == n && n <= |after|
    requires after[..n] == SlerpRows(all[0], all[1], SlerpParam(w[0], w[1]))
    ensures FoldedPrefix(after, n, all, w, 1)
    ensures Sum(w[..2]) == w[0] + w[1]
  {
    assert Rectangular(all[..2]);
    FoldRowsStep(all[..2], w[..2], 0);
    assert all[..2][..1] == all[..1] && w[..2][..1] == w[..1];
  }

  /** The first turn of TryAdd's loop: adds the second group onto the first, into
      result's joints. */
  method FirstStep(result: JointGroup, groups: seq<JointGroup>, w: seq<real>, ghost all: seq<seq<Quat>>)
    returns (ok: bool, next: JointGroup)
    requires 1 < |groups| && 1 < |all| && FoldFits(result, groups)
    requires DistinctJoints(result.contents) && SeparateFrom(result, groups)
    requires Compatible(groups[0], groups[1]) ==> 1 < |w| && w[0] == groups[0].masterWeight && w[1] == groups[1].masterWeight
    requires Rotations(groups[0].contents) == all[0] && Rotations(groups[1].contents) == all[1]
    modifies Transforms(result.contents)`localRotation
    ensures ok == Compatible(groups[0], groups[1])
    ensures !ok ==> Rotations(result.contents) == old(Rotations(result.contents))
    ensures ok ==> (var n := |groups[0].contents|;
      && next == JointGroup(groups[0].name, Sum(w[..2]), result.contents[..n])
      && FoldedPrefix(Rotations(result.contents), n, all, w, 1)
      && Rotations(result.contents)[n..] == old(Rotations(result.contents))[n..])
  {
    PrefixSeparate(result, groups, |result.contents|);
    assert result.contents[..|result.contents|] == result.contents;
    var raised;
    ok, next, raised := TryAddPair(result, groups[0], groups[1]);
    if ok {
      FirstFolded(w, all, |groups[0].contents|, Rotations(result.contents));
    }
  }

  /** A later turn of TryAdd's loop: result's first n joints hold the fold of the
      first k + 1 groups (the rows of `all`, weighted by `w`) and carry their summed
      weight; adds group k + 1. The loop only reaches group k + 1 while the earlier
      ones could all be added, so it can be added exactly when it is compatible with
      the first group. */
  method NextStep(result: JointGroup, groups: seq<JointGroup>, w: seq<real>, ghost all: seq<seq<Quat>>, k: nat)
    returns (ok: bool, next: JointGroup)
    requires 0 < k && k + 1 < |groups| && k < |w| && k + 1 < |all| && |groups[0].contents| <= |result.contents|
    requires DistinctJoints(result.contents) && SeparateFrom(result, groups)
    requires Compatible(groups[0], groups[k + 1]) ==> k + 1 < |w| && w[k + 1] == groups[k + 1].masterWeight
    requires Rotations(groups[k + 1].contents) == all[k + 1]
    requires FoldedPrefix(Rotations(result.contents), |groups[0].contents|, all, w, k)
    modifies Transforms(result.contents)`localRotation
    ensures ok == Compatible(groups[0], groups[k + 1])
    ensures !ok ==> Rotations(result.contents) == old(Rotations(result.contents))
    ensures ok ==> (var n := |groups[0].contents|;
      && next == JointGroup(groups[0].name, Sum(w[..k + 2]), result.contents[..n])
      && FoldedPrefix(Rotations(result.contents), n, all, w, k + 1)
      && Rotations(result.contents)[n..] == old(Rotations(result.contents))[n..])
    ensures forall j, i :: 0 <= j < |groups| && 0 <= i < |groups[j].contents| ==>
              groups[j].contents[i].transform.localRotation == old(groups[j].contents[i].transform.localRotation)
  {
    var n := |groups[0].contents|;
    var acc := JointGroup(groups[0].name, Sum(w[..k + 1]), result.contents[..n]);
    ghost var before := Rotations(result.contents);
    PrefixSeparate(result, groups, n);
    RotationsPrefix(result.contents, n);
    var raised;
    ok, next, raised := TryAddPair(acc, acc, groups[k + 1]);
    RotationsPrefix(result.contents, n);
    ghost var after := Rotations(result.contents);
    assert after[n..] == before[n..];
    if ok {
      NextFolded(w, all, k, n, before, after);
    }
  }

  /** The loop reaches group k + 1 only while groups 1..k were compatible, so group
      k + 1 lies inside the compatible prefix exactly when it is compatible. */
  lemma NextCompatible(groups: seq<JointGroup>, w: seq<real>, k: nat)
    requires k + 1 < |groups| && k <= CompatiblePrefix(groups) && w == Weights(groups[..CompatiblePrefix(groups) + 1])
    ensures Compatible(groups[0], groups[k + 1]) ==>
              k + 1 <= CompatiblePrefix(groups) && k + 1 < |w| && w[k + 1] == groups[k + 1].masterWeight
  {
    var m := CompatiblePrefix(groups);
    if Compatible(groups[0], groups[k + 1]) {
      assert k < m;
      assert groups[..m + 1][k + 1] == groups[k + 1];
    }
  }

  /** How TryAdd's loop ends: with the first group that cannot be added, or after the
      last group. */
  lemma LoopOutcome(result: JointGroup, groups: seq<JointGroup>, w: seq<real>, all: seq<seq<Quat>>,
                    before: seq<Quat>, after: seq<Quat>, k: nat, ok: bool, res: JointGroup)
    requires |groups| >= 2 && FoldFits(result, groups) && |before| == |after| == |result.contents|
    requires |all| == |groups| && forall j :: 0 <= j < |groups| ==> |all[j]| == |groups[j].contents|
    requires k == CompatiblePrefix(groups) && w == Weights(groups[..k + 1]) && ok == (k == |groups| - 1)
    requires k == 0 ==> res == groups[0] && after == before
    requires k > 0 ==> (var n := |groups[0].contents|;
      && res == JointGroup(groups[0].name, Sum(w[..k + 1]), result.contents[..n])
      && FoldedPrefix(after, n, all, w, k) && after[n..] == before[n..])
    ensures FoldOutcome(result, groups, ok, res, before, all, after)
  {
    assert w[..k + 1] == w && all[..k + 1] == all[..k + 1][..k + 1];
  }

  /** The branch of TryAdd for two or more groups: the source's loop of pairwise
      additions, each writing into result's joints. */
  method AddFold(result: JointGroup, groups: seq<JointGroup>) returns (ok: bool, res: JointGroup)
    requires |groups| >= 2 && FoldFits(result, groups)
    requires DistinctJoints(result.contents) && SeparateFrom(result, groups)
    modifies Transforms(result.contents)`localRotation
    ensures FoldOutcome(result, groups, ok, res, old(Rotations(result.contents)), old(Snapshot(groups)), Rotations(result.contents))
  {
    var m := CompatiblePrefix(groups);
    var n := |groups[0].contents|;
    var w := Weights(groups[..m + 1]);
    ghost var all := Snapshot(groups);
    ghost var before := Rotations(result.contents);
    PrefixSeparate(result, groups, |result.contents|);
    assert result.contents[..|result.contents|] == result.contents;
    assert Rotations(groups[0].contents) == all[0] && Rotations(groups[1].contents) == all[1];
    var acc;
    ok, acc := FirstStep(result, groups, w, all);
    if !ok {
      LoopOutcome(result, groups, w, all, before, Rotations(result.contents), 0, false, groups[0]);
      return false, groups[0];
    }
    ok, res := FoldLoop(result, groups, w, all, before, acc);
  }

  /** TryAdd's loop after the first pairwise addition succeeded: adds groups 2.. in
      turn, and stops at the first that cannot be added. */
  method FoldLoop(result: JointGroup, groups: seq<JointGroup>, w: seq<real>, ghost all: seq<seq<Quat>>,
                  ghost before: seq<Quat>, first: JointGroup) returns (ok: bool, res: JointGroup)
    requires |groups| >= 2 && FoldFits(result, groups) && |groups[0].contents| <= |result.contents|
    requires DistinctJoints(result.contents) && SeparateFrom(result, groups) && |before| == |result.contents|
    requires CompatiblePrefix(groups) >= 1 && w == Weights(groups[..CompatiblePrefix(groups) + 1])
    requires |all| == |groups| && forall j :: 0 <= j < |groups| ==> all[j] == Rotations(groups[j].contents)
    requires forall j :: 0 <= j < |groups| ==> |all[j]| == |groups[j].contents|
    requires first == JointGroup(groups[0].name, Sum(w[..2]), result.contents[..|groups[0].contents|])
    requires FoldedPrefix(Rotations(result.contents), |groups[0].contents|, all, w, 1)
    requires Rotations(result.contents)[|groups[0].contents|..] == before[|groups[0].contents|..]
    modifies Transforms(result.contents)`localRotation
    ensures FoldOutcome(result, groups, ok, res, before, all, Rotations(result.contents))
  {
    var m := CompatiblePrefix(groups);
    var n := |groups[0].contents|;
    var acc := first;
    var k := 1;
    while k < |groups| - 1
      invariant 1 <= k <= m
      invariant forall j, i :: 0 <= j < |groups| && 0 <= i < |groups[j].contents| ==>
        groups[j].contents[i].transform.localRotation == all[j][i]
      invariant acc == JointGroup(groups[0].name, Sum(w[..k + 1]), result.contents[..n])
      invariant FoldedPrefix(Rotations(result.contents), n, all, w, k)
      invariant Rotations(result.contents)[n..] == before[n..]
      decreases |groups| - k
    {
      assert Rotations(groups[k + 1].contents) == all[k + 1];
      NextCompatible(groups, w, k);
      var next;
      ok, next := NextStep(result, groups, w, all, k);
      if !ok {
        LoopOutcome(result, groups, w, all, before, Rotations(result.contents), k, false, acc);
        return false, acc;
      }
      acc := next;
      k := k + 1;
    }
    LoopOutcome(result, groups, w, all, before, Rotations(result.contents), k, true, acc);
    ok, res := true, acc;
  }

  /** The single-group branch of TryAdd: result's i-th joint takes the group's i-th
      rotation. A group shorter than result raises ArgumentOutOfRangeException at its
      first missing joint, after the joints before it were written. */
  method CopyRotations(result: JointGroup, source: JointGroup) returns (raised: bool)
    requires DistinctJoints(result.contents) && Disjoint(source.contents, result.contents)
    modifies Transforms(result.contents)`localRotation
    ensures raised <==> |source.contents| < |result.contents|
    ensures !raised ==> Rotations(result.contents) == old(Rotations(source.contents[..|result.contents|]))
    ensures raised ==> Rotations(result.contents) == old(Rotations(source.contents)) + old(Rotations(result.contents))[|source.contents|..]
  {
    var i := 0;
    while i < |result.contents|
      invariant 0 <= i <= |result.contents| && i <= |source.contents|
      invariant forall j :: i <= j < |result.contents| ==> result.contents[j].transform.localRotation == old(result.contents[j].transform.localRotation)
      invariant forall j :: 0 <= j < i ==> result.contents[j].transform.localRotation == old(source.contents[j].transform.localRotation)
      invariant forall j :: 0 <= j < |source.contents| ==> source.contents[j].transform.localRotation == old(source.contents[j].transform.localRotation)
    {
      if i == |source.contents| {
        return true;
      }
      result.contents[i].transform.localRotation := source.contents[i].transform.localRotation;
      i := i + 1;
    }
    raised := false;
  }

  // ---- the pose ----

  /** The joints of all groups, group after group. */
  function Concat(groups: seq<JointGroup>): seq<Joint>
  {
    if groups == [] then [] else Concat(groups[..|groups| - 1]) + groups[|groups| - 1].contents
  }

  /** The joints of allocated groups are allocated. */
  lemma {:induction false} ConcatAllocated(groups: seq<JointGroup>)
    requires allocated(groups)
    ensures allocated(Concat(groups))
  {
    if groups != [] {
      ConcatAllocated(groups[..|groups| - 1]);
    }
  }

  /** A Pose component: its root joint and its joint groups. */
  class Pose {
    var root: Joint
    var jointGroups: seq<JointGroup>

    constructor (root: Joint, groups: seq<JointGroup>)
      ensures this.root == root && jointGroups == groups
    {
      this.root := root;
      jointGroups := groups;
    }

    /** Pose.Contents: every joint of every group, group after group. */
    function Contents(): seq<Joint>
      reads this
    {
      Concat(jointGroups)
    }

    /** Every joint transform of Contents is allocated, so its earlier state can be named. */
    lemma ContentsAllocated()
      ensures forall j :: 0 <= j < |Contents()| ==> allocated(Contents()[j].transform)
    {
      ConcatAllocated(jointGroups);
    }

    /** Pose.LocalRotations (get): the local rotation of every joint of Contents. */
    function LocalRotations(): (qs: seq<Quat>)
      reads this, Transforms(Contents())
      ensures |qs| == |Contents()|
      ensures forall n :: 0 <= n < |qs| ==> qs[n] == Contents()[n].transform.localRotation
    {
      Rotations(Contents())
    }

    /** Pose.LocalRotations (set): with a list of the wrong length it only logs an error;
        otherwise the n-th value goes to the n-th joint of Contents, so every joint whose
        transform does not occur again later holds its value. */
    method SetLocalRotations(value: seq<Quat>)
      modifies Transforms(Contents())`localRotation
      ensures |value| != |Contents()| ==> Rotations(Contents()) == old(Rotations(Contents()))
      ensures |value| == |Contents()| ==> forall n :: 0 <= n < |value| && LastOccurrence(Contents(), n) ==>
                Contents()[n].transform.localRotation == value[n]
      ensures |value| == |Contents()| && DistinctJoints(Contents()) ==> LocalRotations() == value
    {
      var all := Contents();
      if |all| != |value| {
        return;
      }
      var n := 0;
      var i := 0;
      while i < |jointGroups|
        invariant 0 <= i <= |jointGroups|
        invariant n == |Concat(jointGroups[..i])| <= |all|
        invariant forall p :: 0 <= p < n && LastBefore(all, p, n) ==> all[p].transform.localRotation == value[p]
        decreases |jointGroups| - i
      {
        ConcatSplit(jointGroups, i);
        WriteRun(all, value, n, |jointGroups[i].contents|);
        n := n + |jointGroups[i].contents|;
        assert jointGroups[..i + 1][..i] == jointGroups[..i];
        i := i + 1;
      }
      assert jointGroups[..|jointGroups|] == jointGroups;
      AllWritten(all, value);
    }
  }

  /** The inner loop of the LocalRotations setter: the joints of one group, which sit
      at positions start.. of the flattened list `all`, take the values from position
      start on, one after the other. */
  method WriteRun(all: seq<Joint>, value: seq<Quat>, start: nat, count: nat)
    requires |all| == |value| && start + count <= |all|
    requires forall p :: 0 <= p < start && LastBefore(all, p, start) ==> all[p].transform.localRotation == value[p]
    modifies Transforms(all)`localRotation
    ensures forall p :: 0 <= p < start + count && LastBefore(all, p, start + count) ==>
              all[p].transform.localRotation == value[p]
  {
    var j := 0;
    while j < count
      invariant 0 <= j <= count
      invariant forall p :: 0 <= p < start + j && LastBefore(all, p, start + j) ==> all[p].transform.localRotation == value[p]
    {
      var t := all[start + j].transform;
      assert t == Transforms(all)[start + j];
      LastBeforeShrink(all, start + j);
      t.localRotation := value[start + j];
      j := j + 1;
    }
  }

  /** Once every value is written in order, each joint whose transform does not
      occur again holds its value; with distinct joints, all of them do. */
  lemma AllWritten(all: seq<Joint>, value: seq<Quat>)
    requires |all| == |value|
    requires forall p :: 0 <= p < |all| && LastBefore(all, p, |all|) ==> all[p].transform.localRotation == value[p]
    ensures forall n :: 0 <= n < |value| && LastOccurrence(all, n) ==> all[n].transform.localRotation == value[n]
    ensures DistinctJoints(all) ==> Rotations(all) == value
  {
    if DistinctJoints(all) {
      forall p | 0 <= p < |all| ensures LastBefore(all, p, |all|) {
      }
    }
  }

  /** Joint p's transform does not occur again before index n. */
  predicate LastBefore(js: seq<Joint>, p: nat, n: nat)
    requires p < n <= |js|
  {
    forall q :: p < q < n ==> js[q].transform != js[p].transform
  }

  /** A joint that does not occur again before n + 1 does not occur again before n,
      and is not joint n. */
  lemma LastBeforeShrink(js: seq<Joint>, n: nat)
    requires n < |js|
    ensures forall p :: 0 <= p < n && LastBefore(js, p, n + 1) ==> LastBefore(js, p, n) && js[p].transform != js[n].transform
  {
  }

  /** Joint n's transform does not occur again later in the list. */
  predicate LastOccurrence(js: seq<Joint>, n: nat)
    requires n < |js|
  {
    LastBefore(js, n, |js|)
  }

  /** Contents of the first i + 1 groups extend those of the first i by group i, and
      are a prefix of all the contents. */
  lemma ConcatSplit(groups: seq<JointGroup>, i: nat)
    requires i < |groups|
    ensures Concat(groups[..i + 1]) == Concat(groups[..i]) + groups[i].contents
    ensures Concat(groups[..i + 1]) <= Concat(groups)
  {
    assert groups[..i + 1][..i] == groups[..i];
    ConcatPrefix(groups, i + 1);
  }

  lemma {:induction false} ConcatPrefix(groups: seq<JointGroup>, i: nat)
    requires i <= |groups|
    ensures Concat(groups[..i]) <= Concat(groups)
    decreases |groups| - i
  {
    if i < |groups| {
      ConcatPrefix(groups, i + 1);
      assert groups[..i + 1][..i] == groups[..i];
    } else {
      assert groups[..i] == groups;
    }
  }

  // ---- properties of the fold ----

  /** The weight the fold accumulates over the first k + 1 groups. */
  lemma SumSnoc(ws: seq<real>, k: nat)
    requires k < |ws|
    ensures Sum(ws[..k + 1]) == Sum(ws[..k]) + ws[k]
  {
    assert ws[..k + 1][..k] == ws[..k];
  }

  /** When every weight but the k-th is zero and that one is not, the fold returns the
      k-th rotation: a single contributing group is reproduced exactly. */
  lemma {:induction false} FoldSingleContributor(qs: seq<Quat>, ws: seq<real>, k: nat)
    requires |qs| == |ws| > 0 && k < |ws|
    requires ws[k] != 0.0 && forall j :: 0 <= j < |ws| && j != k ==> ws[j] == 0.0
    ensures FoldRotation(qs, ws) == qs[k]
  {
    var n := |qs| - 1;
    if n == 0 {
    } else if k == n {
      ZeroSum(ws[..n]);
    } else {
      FoldSingleContributor(qs[..n], ws[..n], k);
      SumSingle(ws[..n], k);
    }
  }

  lemma {:induction false} ZeroSum(ws: seq<real>)
    requires forall j :: 0 <= j < |ws| ==> ws[j] == 0.0
    ensures Sum(ws) == 0.0
  {
    if ws != [] { ZeroSum(ws[..|ws| - 1]); }
  }

  lemma {:induction false} SumSingle(ws: seq<real>, k: nat)
    requires k < |ws| && forall j :: 0 <= j < |ws| && j != k ==> ws[j] == 0.0
    ensures Sum(ws) == ws[k]
  {
    var n := |ws| - 1;
    if k == n {
      ZeroSum(ws[..n]);
    } else {
      SumSingle(ws[..n], k);
    }
  }

  /** When all groups carry the same rotation the fold returns it. */
  lemma {:induction false} FoldConstant(qs: seq<Quat>, ws: seq<real>, q: Quat)
    requires |qs| == |ws| > 0 && forall j :: 0 <= j < |qs| ==> qs[j] == q
    ensures FoldRotation(qs, ws) == q
  {
    if |qs| > 1 {
      var n := |qs| - 1;
      FoldConstant(qs[..n], ws[..n], q);
    }
  }
}
