// PoseRemapper_RotationTransformation: a list of mappings, each of which rotates one
// bone from the local rotation of another. The mappings run in list order, each
// reading the rotations as the earlier ones left them.
module RotationTransformationModel {
  import opened Geometry
  import opened Utilities
  import PoseModel
  import opened RefPoseRemapperModel

  /** A pair of bones with the two rotations of the mapping. */
  datatype Mapping = Mapping(boneBefore: Transform, boneAfter: Transform, rotation: Quat, offset: Quat)

  /** The rotation Remap writes into BoneAfter, from q, BoneBefore's local rotation:
      q seen in the frame of Rotation (Inverse(A) * q * A), then times Offset. */
  function Remapped(q: Quat, m: Mapping): (r: Quat)
    ensures m.rotation == Identity ==> r == Mul(q, m.offset)
    ensures m.offset == Identity ==> r == Multiply(q, m.rotation)
  {
    Mul(Multiply(q, m.rotation), m.offset)
  }

  /** With both rotations the identity, a mapping copies the local rotation. */
  lemma IdentityMappingCopies(q: Quat, m: Mapping)
    requires m.rotation == Identity && m.offset == Identity
    ensures Remapped(q, m) == q
  {
  }

  /** Every bone a mapping of the list reads or writes. */
  function Frame(ms: seq<Mapping>): (f: set<Transform>)
    ensures forall i :: 0 <= i < |ms| ==> ms[i].boneBefore in f && ms[i].boneAfter in f
  {
    (set i | 0 <= i < |ms| :: ms[i].boneBefore) + (set i | 0 <= i < |ms| :: ms[i].boneAfter)
  }

  /** The bones the list writes. */
  function Afters(ms: seq<Mapping>): (f: set<Transform>)
    ensures forall i :: 0 <= i < |ms| ==> ms[i].boneAfter in f
  {
    set i | 0 <= i < |ms| :: ms[i].boneAfter
  }

  /** The local rotation of every bone of a frame, as a map. */
  function Rotations(f: set<Transform>): (rs: map<Transform, Quat>)
    reads f
    ensures rs.Keys == f && forall t :: t in f ==> rs[t] == t.localRotation
  {
    map t | t in f :: t.localRotation
  }

  /** One mapping on the rotations of a frame holding both of its bones. */
  function Step(rs: map<Transform, Quat>, m: Mapping): (r: map<Transform, Quat>)
    requires m.boneBefore in rs && m.boneAfter in rs
    ensures r.Keys == rs.Keys
    ensures r[m.boneAfter] == Remapped(rs[m.boneBefore], m)
    ensures forall t :: t in rs && t != m.boneAfter ==> r[t] == rs[t]
  {
    rs[m.boneAfter := Remapped(rs[m.boneBefore], m)]
  }

  /** The mappings of the list, in order. */
  function Run(rs: map<Transform, Quat>, ms: seq<Mapping>): (r: map<Transform, Quat>)
    requires forall i :: 0 <= i < |ms| ==> ms[i].boneBefore in rs && ms[i].boneAfter in rs
    ensures r.Keys == rs.Keys
  {
    if ms == [] then rs else Step(Run(rs, ms[..|ms| - 1]), ms[|ms| - 1])
  }

  /** Mapping i is the last of the list that writes its bone. */
  predicate LastWriter(ms: seq<Mapping>, i: nat)
    requires i < |ms|
  {
    forall j :: i < j < |ms| ==> ms[j].boneAfter != ms[i].boneAfter
  }

  /** No bone the list writes is also read by it. */
  predicate Unchained(ms: seq<Mapping>)
  {
    forall i, j :: 0 <= i < |ms| && 0 <= j < |ms| ==> ms[i].boneBefore != ms[j].boneAfter
  }

  /** A bone no mapping of the list writes keeps its rotation. */
  lemma {:induction false} RunUntouched(rs: map<Transform, Quat>, ms: seq<Mapping>, t: Transform)
    requires forall i :: 0 <= i < |ms| ==> ms[i].boneBefore in rs && ms[i].boneAfter in rs
    requires t in rs && forall i :: 0 <= i < |ms| ==> ms[i].boneAfter != t
    ensures Run(rs, ms)[t] == rs[t]
  {
    if ms != [] {
      var prev := ms[..|ms| - 1];
      RunUntouched(rs, prev, t);
      assert Run(rs, ms) == Step(Run(rs, prev), ms[|ms| - 1]);
    }
  }

  /** When no bone the list writes is also read by it, the bone of the last mapping
      that writes it ends with what that mapping computes from the rotations before
      the tick. */
  lemma {:induction false} LastWriterWins(rs: map<Transform, Quat>, ms: seq<Mapping>, i: nat)
    requires forall j :: 0 <= j < |ms| ==> ms[j].boneBefore in rs && ms[j].boneAfter in rs
    requires Unchained(ms) && i < |ms| && LastWriter(ms, i)
    ensures Run(rs, ms)[ms[i].boneAfter] == Remapped(rs[ms[i].boneBefore], ms[i])
  {
    var n := |ms| - 1;
    var prev := ms[..n];
    var last := ms[n];
    assert Run(rs, ms) == Step(Run(rs, prev), last);
    if i == n {
      RunUntouched(rs, prev, last.boneBefore);
    } else {
      assert last.boneAfter != ms[i].boneAfter;
      assert prev[i] == ms[i];
      LastWriterWins(rs, prev, i);
    }
  }

  /** A list of one mapping: Remap on its own. */
  lemma RunSingle(rs: map<Transform, Quat>, m: Mapping)
    requires m.boneBefore in rs && m.boneAfter in rs
    ensures Run(rs, [m]) == Step(rs, m)
  {
    assert [m][..0] == [];
  }

  /** Mapping.Remap: BoneAfter's local rotation from BoneBefore's. */
  method Remap(m: Mapping, ghost f: set<Transform>)
    requires m.boneBefore in f && m.boneAfter in f
    modifies m.boneAfter`localRotation
    ensures m.boneAfter.localRotation == Remapped(old(m.boneBefore.localRotation), m)
    ensures Rotations(f) == Step(old(Rotations(f)), m)
  {
    m.boneAfter.localRotation := Remapped(m.boneBefore.localRotation, m);
  }

  class RotationTransformation {
    /** The PoseRemapper part: result pose, reference, latch and observers. */
    const base: RefPoseRemapper
    var mappings: seq<Mapping>

    constructor (found: PoseModel.Pose?)
      ensures fresh(base) && base.pose == found && base.refPose == null && base.isValid
      ensures mappings == []
    {
      base := new RefPoseRemapper(found);
      mappings := [];
    }

    /** RemapOnUpdate: Remap on every mapping, in list order. The bones of the list
        end with the rotations Run computes from those before the tick; only the
        written bones' local rotations change. */
    method RemapOnUpdate()
      modifies Afters(mappings)`localRotation
      ensures Rotations(Frame(mappings)) == Run(old(Rotations(Frame(mappings))), mappings)
      ensures Unchained(mappings) ==> forall i :: 0 <= i < |mappings| && LastWriter(mappings, i) ==>
                mappings[i].boneAfter.localRotation == Remapped(old(mappings[i].boneBefore.localRotation), mappings[i])
    {
      var f := Frame(mappings);
      ghost var start := Rotations(f);
      var i := 0;
      while i < |mappings|
        invariant 0 <= i <= |mappings|
        invariant Rotations(f) == Run(start, mappings[..i])
      {
        var m := mappings[i];
        assert mappings[..i + 1][..i] == mappings[..i];
        Remap(m, f);
        i := i + 1;
      }
      assert mappings[..i] == mappings;
      if Unchained(mappings) {
        forall i | 0 <= i < |mappings| && LastWriter(mappings, i)
          ensures mappings[i].boneAfter.localRotation == Remapped(old(mappings[i].boneBefore.localRotation), mappings[i])
        {
          LastWriterWins(start, mappings, i);
        }
      }
    }

    /** FixedUpdate: the base's IsValid decides whether RemapOnUpdate runs. */
    method FixedUpdate() returns (remapped: bool)
      modifies base`isValid, Afters(mappings)`localRotation
      ensures base.isValid == (old(base.isValid) && base.pose != null)
      ensures remapped == base.isValid
      ensures remapped ==> Rotations(Frame(mappings)) == Run(old(Rotations(Frame(mappings))), mappings)
      ensures !remapped ==> Rotations(Frame(mappings)) == old(Rotations(Frame(mappings)))
    {
      ghost var f := Frame(mappings);
      ghost var before := Rotations(f);
      remapped := base.FixedUpdate();
      assert Rotations(f) == before;
      if remapped {
        RemapOnUpdate();
      }
    }
  }
}
