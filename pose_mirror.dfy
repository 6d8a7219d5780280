// PoseMirror: pairs the joint groups of the target by their labels ("Arm Left" with
// "Arm Right", "Spine" with itself), builds one mirroring pair per joint, and each
// tick writes into every pair's bone the reference bone's local Euler angles with
// the flagged components negated.
module PoseMirrorModel {
  import opened Wrappers
  import opened Geometry
  import opened PoseModel
  import opened Observers
  import opened PoseRemapperModel

  // ---- string.Contains and string.Replace(keyword, "") ----

  /** `p` is a prefix of `s`. */
  predicate StartsWith(s: string, p: string)
  {
    |p| <= |s| && s[..|p|] == p
  }

  /** string.Contains (ordinal): `sub` occurs somewhere in `s`. */
  predicate Contains(s: string, sub: string)
    ensures Contains(s, sub) ==> |sub| <= |s|
    decreases |s|
  {
    StartsWith(s, sub) || (s != [] && Contains(s[1..], sub))
  }

  /** `sub` occurs in `s` at position i. */
  predicate OccursAt(s: string, sub: string, i: int)
  {
    0 <= i && i + |sub| <= |s| && s[i..i + |sub|] == sub
  }

  /** Contains agrees with the definition by position. */
  lemma {:induction false} ContainsAt(s: string, sub: string)
    ensures Contains(s, sub) <==> exists i :: OccursAt(s, sub, i)
    decreases |s|
  {
    if StartsWith(s, sub) {
      assert OccursAt(s, sub, 0);
    }
    if s != [] {
      ContainsAt(s[1..], sub);
      if Contains(s[1..], sub) {
        var i :| OccursAt(s[1..], sub, i);
        assert s[i + 1..i + 1 + |sub|] == s[1..][i..i + |sub|];
        assert OccursAt(s, sub, i + 1);
      }
      if i :| OccursAt(s, sub, i) {
        if i > 0 {
          assert s[1..][i - 1..i - 1 + |sub|] == s[i..i + |sub|];
          assert OccursAt(s[1..], sub, i - 1);
        }
      }
    } else {
      if i :| OccursAt(s, sub, i) {
        assert StartsWith(s, sub);
      }
    }
  }

  /** string.Replace(pat, ""): every occurrence of `pat`, found left to right without
      overlap, removed. The empty pattern makes Replace throw. */
  function RemoveAll(s: string, pat: string): (r: string)
    requires pat != []
    ensures !Contains(s, pat) ==> r == s
    ensures Contains(s, pat) ==> |r| + |pat| <= |s|
    decreases |s|
  {
    if |s| < |pat| then s
    else if s[..|pat|] == pat then RemoveAll(s[|pat|..], pat)
    else [s[0]] + RemoveAll(s[1..], pat)
  }

  // ---- GetPairLabels ----

  /** other is the right partner of a left label whose left-stripped form is `stripped`. */
  predicate IsPartner(other: string, stripped: string, right: string)
    requires right != []
  {
    RemoveAll(other, right) == stripped && Contains(other, right)
  }

  /** The inner search: the first label from index j on that is a partner, or -1. */
  function PartnerFrom(labels: seq<string>, stripped: string, right: string, j: nat): (k: int)
    requires right != [] && j <= |labels|
    ensures k == -1 || j <= k < |labels|
    ensures k >= 0 ==> IsPartner(labels[k], stripped, right)
    ensures k >= 0 ==> forall m :: j <= m < k ==> !IsPartner(labels[m], stripped, right)
    ensures k == -1 ==> forall m :: j <= m < |labels| ==> !IsPartner(labels[m], stripped, right)
    decreases |labels| - j
  {
    if j == |labels| then -1
    else if IsPartner(labels[j], stripped, right) then j
    else PartnerFrom(labels, stripped, right, j + 1)
  }

  /** What label i contributes: a label with the left keyword gives [label, partner]
      for its first partner and nothing without one; a label with only the right
      keyword gives nothing (its left partner pairs it); any other label gives a
      singleton. */
  function Entry(labels: seq<string>, left: string, right: string, i: nat): (e: seq<seq<string>>)
    requires left != [] && right != [] && i < |labels|
    ensures !Contains(labels[i], left) && !Contains(labels[i], right) ==> e == [[labels[i]]]
    ensures !Contains(labels[i], left) && Contains(labels[i], right) ==> e == []
    ensures Contains(labels[i], left) ==>
              (e == [] <==> forall m :: 0 <= m < |labels| ==> !IsPartner(labels[m], RemoveAll(labels[i], left), right))
    ensures Contains(labels[i], left) && e != [] ==>
              var k := PartnerFrom(labels, RemoveAll(labels[i], left), right, 0);
              0 <= k < |labels| && e == [[labels[i], labels[k]]] && IsPartner(labels[k], RemoveAll(labels[i], left), right)
  {
    var name := labels[i];
    if Contains(name, left) then
      var k := PartnerFrom(labels, RemoveAll(name, left), right, 0);
      if k >= 0 then [[name, labels[k]]] else []
    else if Contains(name, right) then []
    else [[name]]
  }

  /** The inner loop of GetPairLabels: the index of the first partner, or -1. */
  method FindPartner(labels: seq<string>, stripped: string, right: string) returns (k: int)
    requires right != []
    ensures k == PartnerFrom(labels, stripped, right, 0)
  {
    var j := 0;
    while j < |labels|
      invariant 0 <= j <= |labels|
      invariant PartnerFrom(labels, stripped, right, 0) == PartnerFrom(labels, stripped, right, j)
    {
      var other := labels[j];
      if RemoveAll(other, right) == stripped && Contains(other, right) {
        return j;
      }
      j := j + 1;
    }
    return -1;
  }

  /** The entries of the first n labels, in label order. */
  function PairLabels(labels: seq<string>, left: string, right: string, n: nat): seq<seq<string>>
    requires left != [] && right != [] && n <= |labels|
  {
    if n == 0 then [] else PairLabels(labels, left, right, n - 1) + Entry(labels, left, right, n - 1)
  }

  /** Every entry is a keyword-free label on its own, or a left label with a partner. */
  predicate WellPaired(labels: seq<string>, left: string, right: string, e: seq<string>)
    requires left != [] && right != []
  {
    (|e| == 1 && e[0] in labels && !Contains(e[0], left) && !Contains(e[0], right)) ||
    (|e| == 2 && e[0] in labels && e[1] in labels && Contains(e[0], left) &&
     IsPartner(e[1], RemoveAll(e[0], left), right))
  }

  /** Every entry of GetPairLabels is a keyword-free singleton or a left/right pair. */
  lemma {:induction false} PairLabelsWellPaired(labels: seq<string>, left: string, right: string, n: nat)
    requires left != [] && right != [] && n <= |labels|
    ensures forall e :: e in PairLabels(labels, left, right, n) ==> WellPaired(labels, left, right, e)
  {
    if n > 0 {
      PairLabelsWellPaired(labels, left, right, n - 1);
      var e := Entry(labels, left, right, n - 1);
      assert PairLabels(labels, left, right, n) == PairLabels(labels, left, right, n - 1) + e;
      forall x | x in e ensures WellPaired(labels, left, right, x) {
        assert labels[n - 1] in labels;
      }
    }
  }

  /** A keyword-free label among the first n is there as a singleton. */
  lemma {:induction false} SinglePresent(labels: seq<string>, left: string, right: string, n: nat, i: nat)
    requires left != [] && right != [] && n <= |labels| && i < n
    requires !Contains(labels[i], left) && !Contains(labels[i], right)
    ensures [labels[i]] in PairLabels(labels, left, right, n)
  {
    assert PairLabels(labels, left, right, n) ==
           PairLabels(labels, left, right, n - 1) + Entry(labels, left, right, n - 1);
    if i < n - 1 {
      SinglePresent(labels, left, right, n - 1, i);
    }
  }

  /** Every keyword-free label among the first n is there as a singleton. */
  lemma PairLabelsSingles(labels: seq<string>, left: string, right: string, n: nat)
    requires left != [] && right != [] && n <= |labels|
    ensures forall i :: 0 <= i < n && !Contains(labels[i], left) && !Contains(labels[i], right) ==>
              [labels[i]] in PairLabels(labels, left, right, n)
  {
    forall i | 0 <= i < n && !Contains(labels[i], left) && !Contains(labels[i], right)
      ensures [labels[i]] in PairLabels(labels, left, right, n)
    {
      SinglePresent(labels, left, right, n, i);
    }
  }

  /** A left label among the first n that has a partner is there with its first
      partner. */
  lemma {:induction false} PairPresent(labels: seq<string>, left: string, right: string, n: nat, i: nat, m: nat)
    requires left != [] && right != [] && n <= |labels| && i < n && m < |labels|
    requires Contains(labels[i], left) && IsPartner(labels[m], RemoveAll(labels[i], left), right)
    ensures var k := PartnerFrom(labels, RemoveAll(labels[i], left), right, 0);
            0 <= k < |labels| && [labels[i], labels[k]] in PairLabels(labels, left, right, n)
  {
    var k := PartnerFrom(labels, RemoveAll(labels[i], left), right, 0);
    assert PairLabels(labels, left, right, n) ==
           PairLabels(labels, left, right, n - 1) + Entry(labels, left, right, n - 1);
    if i == n - 1 {
      assert Entry(labels, left, right, i) == [[labels[i], labels[k]]];
    } else {
      PairPresent(labels, left, right, n - 1, i, m);
    }
  }

  /** Every left label among the first n that has a partner is there with a partner. */
  lemma PairLabelsPairs(labels: seq<string>, left: string, right: string, n: nat)
    requires left != [] && right != [] && n <= |labels|
    ensures forall i, m :: (0 <= i < n && 0 <= m < |labels| && Contains(labels[i], left) &&
                            IsPartner(labels[m], RemoveAll(labels[i], left), right)) ==>
              exists k :: 0 <= k < |labels| && [labels[i], labels[k]] in PairLabels(labels, left, right, n)
  {
    forall i, m | 0 <= i < n && 0 <= m < |labels| && Contains(labels[i], left) &&
                  IsPartner(labels[m], RemoveAll(labels[i], left), right)
      ensures exists k :: 0 <= k < |labels| && [labels[i], labels[k]] in PairLabels(labels, left, right, n)
    {
      PairPresent(labels, left, right, n, i, m);
    }
  }

  /** What GetPairLabels returns: only singletons of keyword-free labels and
      left/right pairs; every keyword-free label is there as a singleton, and every
      left label that has a partner is there paired with one. */
  lemma PairLabelsShape(labels: seq<string>, left: string, right: string, n: nat)
    requires left != [] && right != [] && n <= |labels|
    ensures forall e :: e in PairLabels(labels, left, right, n) ==> WellPaired(labels, left, right, e)
    ensures forall i :: 0 <= i < n && !Contains(labels[i], left) && !Contains(labels[i], right) ==>
              [labels[i]] in PairLabels(labels, left, right, n)
    ensures forall i, m :: (0 <= i < n && 0 <= m < |labels| && Contains(labels[i], left) &&
                            IsPartner(labels[m], RemoveAll(labels[i], left), right)) ==>
              exists k :: 0 <= k < |labels| && [labels[i], labels[k]] in PairLabels(labels, left, right, n)
  {
    PairLabelsWellPaired(labels, left, right, n);
    PairLabelsSingles(labels, left, right, n);
    PairLabelsPairs(labels, left, right, n);
  }

  /** The example of the documentation comment: "Spine", "Arm Left", "Arm Right". */
  lemma PairLabelsExample()
    ensures PairLabels(["Spine", "Arm Left", "Arm Right"], "Left", "Right", 3) == [["Spine"], ["Arm Left", "Arm Right"]]
  {
    assert "Arm Left" == "Arm " + "Left" && "Arm Right" == "Arm " + "Right";
    ThreeLabels("Spine", "Arm ", "Left", "Right");
  }

  /** The example in general: a label without either keyword's first letter, then a
      stem with the left keyword and the same stem with the right keyword, give the
      singleton and the pair. */
  lemma ThreeLabels(single: string, stem: string, left: string, right: string)
    requires left != [] && right != [] && single != stem
    requires left[0] !in single && right[0] !in single
    requires left[0] !in stem + right && right[0] !in stem + left
    ensures PairLabels([single, stem + left, stem + right], left, right, 3) == [[single], [stem + left, stem + right]]
  {
    var l, r := stem + left, stem + right;
    assert forall c :: c in stem ==> c in l && c in r;
    NotContains(single, left);
    NotContains(single, right);
    KeywordAtEnd(stem, left, right);
    KeywordAtEnd(stem, right, left);
    var labels := [single, l, r];
    assert !IsPartner(labels[0], stem, right);
    assert !IsPartner(labels[1], stem, right);
    assert IsPartner(labels[2], stem, right);
    assert PartnerFrom(labels, stem, right, 2) == 2;
    assert PartnerFrom(labels, stem, right, 1) == 2;
    assert PartnerFrom(labels, stem, right, 0) == 2;
    var e0 := Entry(labels, left, right, 0);
    var e1 := Entry(labels, left, right, 1);
    var e2 := Entry(labels, left, right, 2);
    assert e0 == [[single]];
    assert e1 == [[l, r]];
    assert e2 == [];
    assert PairLabels(labels, left, right, 1) == e0;
    assert PairLabels(labels, left, right, 2) == e0 + e1;
  }

  /** A keyword-free stem followed by one keyword contains that keyword and not the
      other, and loses exactly the keyword. */
  lemma KeywordAtEnd(stem: string, key: string, other: string)
    requires key != [] && other != [] && key[0] !in stem && other[0] !in stem + key
    ensures Contains(stem + key, key) && RemoveAll(stem + key, key) == stem
    ensures !Contains(stem + key, other) && RemoveAll(stem + key, other) == stem + key
  {
    assert (stem + key)[|stem|..|stem| + |key|] == key;
    assert OccursAt(stem + key, key, |stem|);
    ContainsAt(stem + key, key);
    RemoveSuffix(stem, key);
    NotContains(stem + key, other);
  }

  /** A string without the keyword's first letter does not contain it. */
  lemma {:induction false} NotContains(s: string, sub: string)
    requires sub != [] && sub[0] !in s
    ensures !Contains(s, sub)
    decreases |s|
  {
    if s != [] {
      assert s[0] in s;
      assert forall c :: c in s[1..] ==> c in s;
      NotContains(s[1..], sub);
    }
  }

  /** Removing a keyword from a string without it leaves the string. */
  lemma NotContainsRemove(s: string, pat: string)
    requires pat != [] && pat[0] !in s
    ensures RemoveAll(s, pat) == s
  {
    NotContains(s, pat);
  }

  /** A keyword-free prefix followed by the keyword loses exactly the keyword. */
  lemma {:induction false} RemoveSuffix(s: string, pat: string)
    requires pat != [] && pat[0] !in s
    ensures RemoveAll(s + pat, pat) == s
    decreases |s|
  {
    if s == [] {
      assert (s + pat)[..|pat|] == pat;
      assert (s + pat)[|pat|..] == [];
    } else {
      assert (s + pat)[..|pat|] != pat by { assert (s + pat)[0] == s[0]; assert s[0] in s; }
      assert (s + pat)[1..] == s[1..] + pat;
      assert forall c :: c in s[1..] ==> c in s;
      RemoveSuffix(s[1..], pat);
      assert [s[0]] + s[1..] == s;
    }
  }

  // ---- InitializePairs ----

  /** A reference bone, the bone of this pose it is mirrored onto, and the planes. */
  datatype MirroringPair = MirroringPair(refBone: Transform, thisBone: Transform, x: bool, y: bool, z: bool)

  /** List.Find on the groups by label: the first group with the label. */
  function Find(groups: seq<JointGroup>, name: string): (g: Option<JointGroup>)
    ensures g.Some? <==> HasLabel(groups, name)
    ensures g.Some? ==> g.value.name == name && g.value in groups
    ensures g.Some? ==> g.value == groups[FirstWithLabel(groups, name)]
  {
    var k := FirstWithLabel(groups, name);
    if k >= 0 then Some(groups[k]) else Option.None
  }

  /** The self pairs of a singleton entry: joint j of the reference group onto joint
      j of the target group, for the first n joints. */
  function SinglePairs(rg: JointGroup, g: JointGroup, x: bool, y: bool, z: bool, n: nat): seq<MirroringPair>
    requires n <= |g.contents| && n <= |rg.contents|
  {
    if n == 0 then []
    else SinglePairs(rg, g, x, y, z, n - 1) + [MirroringPair(rg.contents[n - 1].transform, g.contents[n - 1].transform, x, y, z)]
  }

  lemma {:induction false} SinglePairsAt(rg: JointGroup, g: JointGroup, x: bool, y: bool, z: bool, n: nat)
    requires n <= |g.contents| && n <= |rg.contents|
    ensures |SinglePairs(rg, g, x, y, z, n)| == n
    ensures forall j :: 0 <= j < n ==>
              SinglePairs(rg, g, x, y, z, n)[j] == MirroringPair(rg.contents[j].transform, g.contents[j].transform, x, y, z)
  {
    if n > 0 {
      SinglePairsAt(rg, g, x, y, z, n - 1);
    }
  }

  /** The crossed pairs of a left/right entry, two per joint: reference-left onto
      target-right, then reference-right onto target-left. */
  function CrossedPairs(refLeft: JointGroup, refRight: JointGroup, left: JointGroup, right: JointGroup,
                        x: bool, y: bool, z: bool, n: nat): seq<MirroringPair>
    requires n <= |refLeft.contents| && n <= |refRight.contents| && n <= |left.contents| && n <= |right.contents|
  {
    if n == 0 then []
    else CrossedPairs(refLeft, refRight, left, right, x, y, z, n - 1) +
         [MirroringPair(refLeft.contents[n - 1].transform, right.contents[n - 1].transform, x, y, z),
          MirroringPair(refRight.contents[n - 1].transform, left.contents[n - 1].transform, x, y, z)]
  }

  lemma {:induction false} CrossedPairsAt(refLeft: JointGroup, refRight: JointGroup, left: JointGroup, right: JointGroup,
                                          x: bool, y: bool, z: bool, n: nat)
    requires n <= |refLeft.contents| && n <= |refRight.contents| && n <= |left.contents| && n <= |right.contents|
    ensures |CrossedPairs(refLeft, refRight, left, right, x, y, z, n)| == 2 * n
    ensures forall j :: 0 <= j < n ==>
              CrossedPairs(refLeft, refRight, left, right, x, y, z, n)[2 * j] ==
                MirroringPair(refLeft.contents[j].transform, right.contents[j].transform, x, y, z) &&
              CrossedPairs(refLeft, refRight, left, right, x, y, z, n)[2 * j + 1] ==
                MirroringPair(refRight.contents[j].transform, left.contents[j].transform, x, y, z)
  {
    if n > 0 {
      CrossedPairsAt(refLeft, refRight, left, right, x, y, z, n - 1);
    }
  }

  /** The pairs one entry adds, or None when building them throws: a group the entry
      names is missing (List.Find returns the empty struct, whose joint list is null)
      or shorter than the group the loop counts over. Entries of length 0 or more
      than 2 only log a warning. */
  function EntryPairs(e: seq<string>, target: seq<JointGroup>, ref: seq<JointGroup>,
                      x: bool, y: bool, z: bool): Option<seq<MirroringPair>>
  {
    if |e| == 1 then
      var g := Find(target, e[0]);
      if g.None? then Option.None
      else if |g.value.contents| == 0 then Some([])
      else
        var rg := Find(ref, e[0]);
        if rg.None? || |rg.value.contents| < |g.value.contents| then Option.None
        else Some(SinglePairs(rg.value, g.value, x, y, z, |g.value.contents|))
    else if |e| == 2 then
      var refLeft := Find(ref, e[0]);
      if refLeft.None? then Option.None
      else if |refLeft.value.contents| == 0 then Some([])
      else
        var n := |refLeft.value.contents|;
        var refRight := Find(ref, e[1]);
        var left := Find(target, e[0]);
        var right := Find(target, e[1]);
        if refRight.None? || left.None? || right.None? then Option.None
        else if |refRight.value.contents| < n || |left.value.contents| < n || |right.value.contents| < n then Option.None
        else Some(CrossedPairs(refLeft.value, refRight.value, left.value, right.value, x, y, z, n))
    else Some([])
  }

  /** The pairs of the first n entries, in order; None once one of them throws. */
  function PairsFor(entries: seq<seq<string>>, target: seq<JointGroup>, ref: seq<JointGroup>,
                    x: bool, y: bool, z: bool, n: nat): Option<seq<MirroringPair>>
    requires n <= |entries|
  {
    if n == 0 then Some([])
    else
      var p := PairsFor(entries, target, ref, x, y, z, n - 1);
      var q := EntryPairs(entries[n - 1], target, ref, x, y, z);
      if p.None? || q.None? then Option.None else Some(p.value + q.value)
  }

  /** Whether some entry has one or two labels, so that InitializePairs looks it up in
      the reference's groups. */
  predicate NeedsReference(entries: seq<seq<string>>)
  {
    exists i :: 0 <= i < |entries| && 1 <= |entries[i]| <= 2
  }

  /** Entries that never look at the reference give no pairs, whatever the reference
      holds, so that a missing reference then gives the same empty list. */
  lemma {:induction false} NoReferenceNoPairs(entries: seq<seq<string>>, target: seq<JointGroup>, ref: seq<JointGroup>,
                                              x: bool, y: bool, z: bool, n: nat)
    requires n <= |entries| && forall i :: 0 <= i < n ==> !(1 <= |entries[i]| <= 2)
    ensures PairsFor(entries, target, ref, x, y, z, n) == Some([])
    decreases n
  {
    if n > 0 {
      NoReferenceNoPairs(entries, target, ref, x, y, z, n - 1);
      var none: seq<MirroringPair> := [];
      assert EntryPairs(entries[n - 1], target, ref, x, y, z) == Some(none);
      assert none + none == none;
    }
  }

  /** Once an entry throws, so does everything after it. */
  lemma {:induction false} PairsForFails(entries: seq<seq<string>>, target: seq<JointGroup>, ref: seq<JointGroup>,
                                         x: bool, y: bool, z: bool, i: nat, n: nat)
    requires i < n <= |entries| && EntryPairs(entries[i], target, ref, x, y, z).None?
    ensures PairsFor(entries, target, ref, x, y, z, n).None?
    decreases n
  {
    if n > i + 1 {
      PairsForFails(entries, target, ref, x, y, z, i, n - 1);
    }
  }

  /** The pairs of MirroringPair values all carrying the flags x, y, z. */
  predicate Flagged(ps: seq<MirroringPair>, x: bool, y: bool, z: bool)
  {
    forall p :: p in ps ==> p.x == x && p.y == y && p.z == z
  }

  lemma {:induction false} SinglePairsFlagged(rg: JointGroup, g: JointGroup, x: bool, y: bool, z: bool, n: nat)
    requires n <= |g.contents| && n <= |rg.contents|
    ensures Flagged(SinglePairs(rg, g, x, y, z, n), x, y, z)
  {
    if n > 0 {
      SinglePairsFlagged(rg, g, x, y, z, n - 1);
    }
  }

  lemma {:induction false} CrossedPairsFlagged(refLeft: JointGroup, refRight: JointGroup, left: JointGroup, right: JointGroup,
                                               x: bool, y: bool, z: bool, n: nat)
    requires n <= |refLeft.contents| && n <= |refRight.contents| && n <= |left.contents| && n <= |right.contents|
    ensures Flagged(CrossedPairs(refLeft, refRight, left, right, x, y, z, n), x, y, z)
  {
    if n > 0 {
      CrossedPairsFlagged(refLeft, refRight, left, right, x, y, z, n - 1);
    }
  }

  /** Every pair carries the flags InitializePairs was given. */
  lemma {:induction false} PairsForFlags(entries: seq<seq<string>>, target: seq<JointGroup>, ref: seq<JointGroup>,
                                         x: bool, y: bool, z: bool, n: nat)
    requires n <= |entries| && PairsFor(entries, target, ref, x, y, z, n).Some?
    ensures Flagged(PairsFor(entries, target, ref, x, y, z, n).value, x, y, z)
  {
    if n > 0 {
      PairsForFlags(entries, target, ref, x, y, z, n - 1);
      var e := entries[n - 1];
      if |e| == 1 {
        var g := Find(target, e[0]).value;
        if |g.contents| > 0 {
          SinglePairsFlagged(Find(ref, e[0]).value, g, x, y, z, |g.contents|);
        }
      } else if |e| == 2 {
        var refLeft := Find(ref, e[0]).value;
        var m := |refLeft.contents|;
        if m > 0 {
          CrossedPairsFlagged(refLeft, Find(ref, e[1]).value, Find(target, e[0]).value, Find(target, e[1]).value, x, y, z, m);
        }
      }
    }
  }

  // ---- RemapOnUpdate ----

  /** Each component flagged for mirroring is multiplied by -1, the others by 1;
      multiplying by -1 negates. */
  function Flip(v: Vec3, x: bool, y: bool, z: bool): Vec3
  {
    Vec3(if x then -v.x else v.x, if y then -v.y else v.y, if z then -v.z else v.z)
  }

  /** Mirroring twice with the same planes gives back the angles. */
  lemma FlipTwice(v: Vec3, x: bool, y: bool, z: bool)
    ensures Flip(Flip(v, x, y, z), x, y, z) == v
  {
  }

  /** Every bone a pair of the list reads or writes. */
  function Frame(ps: seq<MirroringPair>): (f: set<Transform>)
    ensures forall i :: 0 <= i < |ps| ==> ps[i].refBone in f && ps[i].thisBone in f
  {
    (set i | 0 <= i < |ps| :: ps[i].refBone) + (set i | 0 <= i < |ps| :: ps[i].thisBone)
  }

  /** The bones the list writes. */
  function Written(ps: seq<MirroringPair>): (f: set<Transform>)
    ensures forall i :: 0 <= i < |ps| ==> ps[i].thisBone in f
  {
    set i | 0 <= i < |ps| :: ps[i].thisBone
  }

  /** The local Euler angles of every bone of a frame. */
  function Angles(f: set<Transform>): (a: map<Transform, Vec3>)
    reads f
    ensures a.Keys == f && forall t :: t in f ==> a[t] == t.localEulerAngles
  {
    map t | t in f :: t.localEulerAngles
  }

  /** One pass of the loop on the angles of a frame holding both bones of the pair. */
  function MirrorStep(a: map<Transform, Vec3>, p: MirroringPair): (r: map<Transform, Vec3>)
    requires p.refBone in a && p.thisBone in a
    ensures r.Keys == a.Keys
    ensures r[p.thisBone] == Flip(a[p.refBone], p.x, p.y, p.z)
    ensures forall t :: t in a && t != p.thisBone ==> r[t] == a[t]
  {
    a[p.thisBone := Flip(a[p.refBone], p.x, p.y, p.z)]
  }

  /** The pairs of the list, in order. */
  function MirrorRun(a: map<Transform, Vec3>, ps: seq<MirroringPair>): (r: map<Transform, Vec3>)
    requires forall i :: 0 <= i < |ps| ==> ps[i].refBone in a && ps[i].thisBone in a
    ensures r.Keys == a.Keys
  {
    if ps == [] then a else MirrorStep(MirrorRun(a, ps[..|ps| - 1]), ps[|ps| - 1])
  }

  /** No written bone is read by the list (the reference pose and this pose apart). */
  predicate Unchained(ps: seq<MirroringPair>)
  {
    forall i, j :: 0 <= i < |ps| && 0 <= j < |ps| ==> ps[i].refBone != ps[j].thisBone
  }

  /** Pair i is the last of the list that writes its bone. */
  predicate LastWriter(ps: seq<MirroringPair>, i: nat)
    requires i < |ps|
  {
    forall j :: i < j < |ps| ==> ps[j].thisBone != ps[i].thisBone
  }

  /** A bone no pair of the list writes keeps its angles. */
  lemma {:induction false} MirrorUntouched(a: map<Transform, Vec3>, ps: seq<MirroringPair>, t: Transform)
    requires forall i :: 0 <= i < |ps| ==> ps[i].refBone in a && ps[i].thisBone in a
    requires t in a && forall i :: 0 <= i < |ps| ==> ps[i].thisBone != t
    ensures MirrorRun(a, ps)[t] == a[t]
  {
    if ps != [] {
      var prev := ps[..|ps| - 1];
      MirrorUntouched(a, prev, t);
      assert MirrorRun(a, ps) == MirrorStep(MirrorRun(a, prev), ps[|ps| - 1]);
    }
  }

  /** With the reference apart from this pose, the bone of the last pair that writes
      it ends with the flipped angles of that pair's reference bone. */
  lemma {:induction false} MirrorLastWins(a: map<Transform, Vec3>, ps: seq<MirroringPair>, i: nat)
    requires forall j :: 0 <= j < |ps| ==> ps[j].refBone in a && ps[j].thisBone in a
    requires Unchained(ps) && i < |ps| && LastWriter(ps, i)
    ensures MirrorRun(a, ps)[ps[i].thisBone] == Flip(a[ps[i].refBone], ps[i].x, ps[i].y, ps[i].z)
  {
    var n := |ps| - 1;
    var prev := ps[..n];
    var last := ps[n];
    assert MirrorRun(a, ps) == MirrorStep(MirrorRun(a, prev), last);
    if i == n {
      MirrorUntouched(a, prev, last.refBone);
    } else {
      assert last.thisBone != ps[i].thisBone;
      assert prev[i] == ps[i];
      MirrorLastWins(a, prev, i);
    }
  }

  class PoseMirror {
    /** The PoseRemapper part: target, reference, latch and modified flag. */
    const base: PoseRemapper
    const observers: ObserverSet
    var pairs: seq<MirroringPair>
    var leftLabel: string
    var rightLabel: string

    /** The serialized defaults: no pairs, the keywords "Left" and "Right". */
    constructor (found: Pose?)
      ensures fresh(base) && fresh(observers)
      ensures base.target == found && base.reference == null && base.isValid && !base.hasModified
      ensures observers.members == {} && observers.calls == []
      ensures pairs == [] && leftLabel == "Left" && rightLabel == "Right"
    {
      base := new PoseRemapper(found);
      observers := new ObserverSet();
      pairs := [];
      leftLabel := "Left";
      rightLabel := "Right";
    }

    /** GetPairLabels: for each target group in order, the outer branch on the
        keywords and, for a left label, the inner search for its partner. The
        duplicate check compares a fresh array by reference, so it never fires: the
        first partner is always taken. */
    method GetPairLabels() returns (result: seq<seq<string>>)
      requires base.target != null && leftLabel != [] && rightLabel != []
      ensures result == PairLabels(GetLabels(base.target.jointGroups), leftLabel, rightLabel, |base.target.jointGroups|)
    {
      var labels := GetLabels(base.target.jointGroups);
      var left, right := leftLabel, rightLabel;
      result := [];
      var i := 0;
      while i < |labels|
        invariant 0 <= i <= |labels|
        invariant result == PairLabels(labels, left, right, i)
      {
        var name := labels[i];
        assert PairLabels(labels, left, right, i + 1) == result + Entry(labels, left, right, i);
        if Contains(name, left) {
          var k := FindPartner(labels, RemoveAll(name, left), right);
          if k >= 0 {
            result := result + [[name, labels[k]]];
          }
        } else if Contains(name, right) {
        } else {
          result := result + [[name]];
        }
        i := i + 1;
      }
    }

    /** The pairs InitializePairs builds from the current poses, or None when it throws.
        Without a reference the first entry of one or two labels throws on it. */
    function Planned(x: bool, y: bool, z: bool): Option<seq<MirroringPair>>
      requires base.target != null && leftLabel != [] && rightLabel != []
      reads this, base, base.target, base.reference
    {
      var entries := PairLabels(GetLabels(base.target.jointGroups), leftLabel, rightLabel, |base.target.jointGroups|);
      if base.reference == null then (if NeedsReference(entries) then Option.None else Some([]))
      else PairsFor(entries, base.target.jointGroups, base.reference.jointGroups, x, y, z, |entries|)
    }

    /** InitializePairs: the pairs of every entry of GetPairLabels replace Pairs as a
        whole; when building them throws, Pairs is left as it was. */
    method InitializePairs(x: bool, y: bool, z: bool) returns (ok: bool)
      requires base.target != null && leftLabel != [] && rightLabel != []
      modifies this`pairs
      ensures ok == Planned(x, y, z).Some?
      ensures ok ==> pairs == Planned(x, y, z).value
      ensures !ok ==> pairs == old(pairs)
    {
      var entries := GetPairLabels();
      if base.reference == null {
        if NeedsReference(entries) {
          return false;
        }
        pairs := [];
        return true;
      }
      var built := BuildPairs(entries, base.target.jointGroups, base.reference.jointGroups, x, y, z);
      if built.None? {
        return false;
      }
      pairs := built.value;
      ok := true;
    }

    /** InitializePairs with its default arguments: mirror in the Y and Z planes. */
    method InitializePairsByDefault() returns (ok: bool)
      requires base.target != null && leftLabel != [] && rightLabel != []
      modifies this`pairs
      ensures ok == Planned(false, true, true).Some?
      ensures ok ==> pairs == Planned(false, true, true).value
      ensures ok ==> forall p :: p in pairs ==> !p.x && p.y && p.z
      ensures !ok ==> pairs == old(pairs)
    {
      ok := InitializePairs(false, true, true);
      if ok && base.reference != null {
        var entries := PairLabels(GetLabels(base.target.jointGroups), leftLabel, rightLabel, |base.target.jointGroups|);
        PairsForFlags(entries, base.target.jointGroups, base.reference.jointGroups, false, true, true, |entries|);
      }
    }

    /** RemapOnUpdate: every pair in order writes its bone's local Euler angles from
        its reference bone's, flipped. Only the written bones' angles change. */
    method RemapOnUpdate()
      modifies Written(pairs)`localEulerAngles
      ensures Angles(Frame(pairs)) == MirrorRun(old(Angles(Frame(pairs))), pairs)
      ensures Unchained(pairs) ==> forall i :: 0 <= i < |pairs| && LastWriter(pairs, i) ==>
                pairs[i].thisBone.localEulerAngles == Flip(old(pairs[i].refBone.localEulerAngles), pairs[i].x, pairs[i].y, pairs[i].z)
    {
      var f := Frame(pairs);
      ghost var start := Angles(f);
      var i := 0;
      while i < |pairs|
        invariant 0 <= i <= |pairs|
        invariant Angles(f) == MirrorRun(start, pairs[..i])
      {
        assert pairs[..i + 1][..i] == pairs[..i];
        MirrorPair(pairs[i], f);
        i := i + 1;
      }
      assert pairs[..i] == pairs;
      if Unchained(pairs) {
        forall i | 0 <= i < |pairs| && LastWriter(pairs, i)
          ensures pairs[i].thisBone.localEulerAngles == Flip(old(pairs[i].refBone.localEulerAngles), pairs[i].x, pairs[i].y, pairs[i].z)
        {
          MirrorLastWins(start, pairs, i);
        }
      }
    }

    /** Update: the base's Update (clear the flag, then the latching IsValid) decides
        whether RemapOnUpdate runs. */
    method Update() returns (remapped: bool)
      modifies base`hasModified, base`isValid, Written(pairs)`localEulerAngles
      ensures !base.hasModified
      ensures base.isValid == (old(base.isValid) && base.target != null)
      ensures remapped == base.isValid
      ensures remapped ==> Angles(Frame(pairs)) == MirrorRun(old(Angles(Frame(pairs))), pairs)
      ensures !remapped ==> Angles(Frame(pairs)) == old(Angles(Frame(pairs)))
    {
      remapped := base.Update();
      if remapped {
        RemapOnUpdate();
      }
    }

    /** LateUpdate: the overridden Notify (every observer once) exactly when the frame
        modified something. */
    method LateUpdate()
      modifies observers
      ensures observers.members == old(observers.members)
      ensures base.hasModified ==> observers.NotifiedOnce(old(observers.calls))
      ensures !base.hasModified ==> observers.calls == old(observers.calls)
    {
      if base.hasModified {
        observers.Notify();
      }
    }

    /** AddObserver: set semantics. */
    method AddObserver(o: ObserverId)
      modifies observers
      ensures observers.members == old(observers.members) + {o}
      ensures observers.calls == old(observers.calls)
    {
      observers.Add(o);
    }

    /** RemoveObserver: set semantics. */
    method RemoveObserver(o: ObserverId)
      modifies observers
      ensures observers.members == old(observers.members) - {o}
      ensures observers.calls == old(observers.calls)
    {
      observers.Remove(o);
    }
  }

  /** One pass of the loop: the reference bone's angles, flipped, into the pair's bone. */
  method MirrorPair(pair: MirroringPair, ghost f: set<Transform>)
    requires pair.refBone in f && pair.thisBone in f
    modifies pair.thisBone`localEulerAngles
    ensures Angles(f) == MirrorStep(old(Angles(f)), pair)
  {
    var rot := pair.refBone.localEulerAngles;
    rot := Flip(rot, pair.x, pair.y, pair.z);
    pair.thisBone.localEulerAngles := rot;
  }

  /** The loop of InitializePairs over the entries; None once an entry throws. */
  method BuildPairs(entries: seq<seq<string>>, target: seq<JointGroup>, ref: seq<JointGroup>, x: bool, y: bool, z: bool)
    returns (r: Option<seq<MirroringPair>>)
    ensures r == PairsFor(entries, target, ref, x, y, z, |entries|)
  {
    var result := [];
    var i := 0;
    while i < |entries|
      invariant 0 <= i <= |entries|
      invariant PairsFor(entries, target, ref, x, y, z, i) == Some(result)
    {
      var added := BuildEntry(entries[i], target, ref, x, y, z);
      if added.None? {
        PairsForFails(entries, target, ref, x, y, z, i, |entries|);
        return Option.None;
      }
      result := result + added.value;
      i := i + 1;
    }
    return Some(result);
  }

  /** One entry of InitializePairs: the 1- and 2-label branches with their joint loops. */
  method BuildEntry(e: seq<string>, target: seq<JointGroup>, ref: seq<JointGroup>, x: bool, y: bool, z: bool)
    returns (r: Option<seq<MirroringPair>>)
    ensures r == EntryPairs(e, target, ref, x, y, z)
  {
    if |e| == 0 {
      return Some([]);
    } else if |e| == 1 {
      var refGroup := Find(ref, e[0]);
      var group := Find(target, e[0]);
      if group.None? {
        return Option.None;
      }
      r := BuildSingle(refGroup, group.value, x, y, z);
    } else if |e| == 2 {
      var refLeft := Find(ref, e[0]);
      var refRight := Find(ref, e[1]);
      var left := Find(target, e[0]);
      var right := Find(target, e[1]);
      if refLeft.None? {
        return Option.None;
      }
      var n := |refLeft.value.contents|;
      if n == 0 {
        return Some([]);
      }
      if refRight.None? || left.None? || right.None? ||
         |refRight.value.contents| < n || |left.value.contents| < n || |right.value.contents| < n {
        return Option.None;
      }
      var acc := BuildCrossed(refLeft.value, refRight.value, left.value, right.value, x, y, z, n);
      return Some(acc);
    } else {
      return Some([]);
    }
  }

  /** The joint loop of a singleton entry: it throws at the first joint the reference
      group lacks. */
  method BuildSingle(refGroup: Option<JointGroup>, group: JointGroup, x: bool, y: bool, z: bool)
    returns (r: Option<seq<MirroringPair>>)
    ensures |group.contents| == 0 ==> r == Some([])
    ensures |group.contents| > 0 && (refGroup.None? || |refGroup.value.contents| < |group.contents|) ==> r == Option.None
    ensures |group.contents| > 0 && refGroup.Some? && |refGroup.value.contents| >= |group.contents| ==>
              r == Some(SinglePairs(refGroup.value, group, x, y, z, |group.contents|))
  {
    var acc := [];
    var j := 0;
    while j < |group.contents|
      invariant 0 <= j <= |group.contents|
      invariant (refGroup.Some? && j <= |refGroup.value.contents| && acc == SinglePairs(refGroup.value, group, x, y, z, j))
                || (j == 0 && acc == [])
    {
      if refGroup.None? || j >= |refGroup.value.contents| {
        return Option.None;
      }
      acc := acc + [MirroringPair(refGroup.value.contents[j].transform, group.contents[j].transform, x, y, z)];
      j := j + 1;
    }
    return Some(acc);
  }

  /** The joint loop of a left/right entry, over the reference left group. */
  method BuildCrossed(refLeft: JointGroup, refRight: JointGroup, left: JointGroup, right: JointGroup,
                      x: bool, y: bool, z: bool, n: nat) returns (acc: seq<MirroringPair>)
    requires n <= |refLeft.contents| && n <= |refRight.contents| && n <= |left.contents| && n <= |right.contents|
    ensures acc == CrossedPairs(refLeft, refRight, left, right, x, y, z, n)
  {
    acc := [];
    var j := 0;
    while j < n
      invariant 0 <= j <= n
      invariant acc == CrossedPairs(refLeft, refRight, left, right, x, y, z, j)
    {
      acc := acc + [MirroringPair(refLeft.contents[j].transform, right.contents[j].transform, x, y, z)];
      acc := acc + [MirroringPair(refRight.contents[j].transform, left.contents[j].transform, x, y, z)];
      j := j + 1;
    }
  }
}
