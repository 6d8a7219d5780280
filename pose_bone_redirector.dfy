// PoseBoneRedirector: copies the position and rotation of one bone of the reference
// pose (a joint group found by label, and an index into it) onto the same bone of
// the result pose, a fixed number of physics frames late.
module PoseBoneRedirectorModel {
  import opened Wrappers
  import opened Geometry
  import opened PoseModel
  import opened DelayLine
  import opened BoneCommandModel
  import opened RefPoseRemapperModel

  /** Group / RefGroup: the first joint group of the pose with the label. When there
      is none the source logs an error and returns an empty group, so no bone of it
      can be indexed. */
  function Group(p: Pose, groupName: string): (g: JointGroup)
    reads p
    ensures HasLabel(p.jointGroups, groupName) ==> g == p.jointGroups[FirstWithLabel(p.jointGroups, groupName)]
    ensures HasLabel(p.jointGroups, groupName) ==> g.name == groupName
    ensures !HasLabel(p.jointGroups, groupName) ==> g.contents == []
  {
    var k := FirstWithLabel(p.jointGroups, groupName);
    if k >= 0 then p.jointGroups[k] else JointGroup("", 0.0, [])
  }

  /** The pose has the bone: a group with the label, long enough for the index. */
  predicate HasBone(p: Pose, groupName: string, index: int)
    reads p
  {
    0 <= index < |Group(p, groupName).contents|
  }

  /** BoneTransform / RefBoneTransform. */
  function BoneTransform(p: Pose, groupName: string, index: int): (t: Transform)
    requires HasBone(p, groupName, index)
    reads p
    ensures HasLabel(p.jointGroups, groupName)
    ensures t in AllTransforms(p.jointGroups)
  {
    var g := Group(p, groupName);
    var k := FirstWithLabel(p.jointGroups, groupName);
    assert g == p.jointGroups[k];
    g.contents[index].transform
  }

  /** Every joint transform of a pose that may be missing. */
  function JointFrame(p: Pose?): set<Transform>
    reads p
  {
    if p == null then {} else AllTransforms(p.jointGroups)
  }

  /** GetRefPosition: zero without a reference or with the None policy; otherwise
      the reference bone's local or world position. */
  function GetRefPosition(refPose: Pose?, groupName: string, index: int, space: Space): (v: Vec3)
    requires refPose != null && space != Space.None ==> HasBone(refPose, groupName, index)
    reads refPose, JointFrame(refPose)
    ensures refPose == null || space == Space.None ==> v == Zero
    ensures refPose != null && space == Local ==> v == BoneTransform(refPose, groupName, index).localPosition
    ensures refPose != null && space == Global ==> v == BoneTransform(refPose, groupName, index).position
  {
    if refPose == null then Zero
    else match space
      case None => Zero
      case Local => BoneTransform(refPose, groupName, index).localPosition
      case Global => BoneTransform(refPose, groupName, index).position
  }

  /** GetRefRotation: the identity without a reference or with the None policy;
      otherwise the reference bone's local or world rotation. */
  function GetRefRotation(refPose: Pose?, groupName: string, index: int, space: Space): (q: Quat)
    requires refPose != null && space != Space.None ==> HasBone(refPose, groupName, index)
    reads refPose, JointFrame(refPose)
    ensures refPose == null || space == Space.None ==> q == Identity
    ensures refPose != null && space == Local ==> q == BoneTransform(refPose, groupName, index).localRotation
    ensures refPose != null && space == Global ==> q == BoneTransform(refPose, groupName, index).rotation
  {
    if refPose == null then Identity
    else match space
      case None => Identity
      case Local => BoneTransform(refPose, groupName, index).localRotation
      case Global => BoneTransform(refPose, groupName, index).rotation
  }

  class PoseBoneRedirector {
    /** The PoseRemapper part: result pose, reference, latch and observers. */
    const base: RefPoseRemapper
    var positionType: Space
    var rotationType: Space
    var groupName: string
    var index: int
    var delayFixedFrame: int
    var commands: seq<ApplyCommand>
    /** The queue when it was last created, or kept by a raising Initialize. */
    ghost var start: seq<ApplyCommand>
    /** Every command enqueued since then. */
    ghost var history: seq<ApplyCommand>

    ghost predicate Valid()
      reads this
    {
      && commands == Queue(start, history, delayFixedFrame, |history|)
      && (!CreateRaises(delayFixedFrame) ==> start == [])
    }

    /** The serialized defaults (no delay, None policies, index 0) and Awake's
        Initialize. */
    constructor (found: Pose?, groupName: string)
      ensures fresh(base) && base.pose == found && base.refPose == null && base.isValid
      ensures this.groupName == groupName && index == 0 && positionType == Space.None && rotationType == Space.None
      ensures delayFixedFrame == 0 && commands == [] && start == [] && history == [] && Valid()
    {
      base := new RefPoseRemapper(found);
      this.groupName := groupName;
      index := 0;
      positionType := Space.None;
      rotationType := Space.None;
      delayFixedFrame := 0;
      commands := [];
      start := [];
      history := [];
    }

    /** Initialize: a new, empty queue; for a negative delay the constructor of the
        queue raises and the old queue stays. */
    method Initialize() returns (raised: bool)
      modifies this`commands, this`start, this`history
      ensures raised == CreateRaises(delayFixedFrame)
      ensures commands == if raised then old(commands) else []
      ensures start == commands && history == [] && Valid()
    {
      raised := CreateRaises(delayFixedFrame);
      if !raised {
        commands := [];
      }
      start, history := commands, [];
    }

    /** DelayFixedFrame (set): stores the delay, then Initialize, which empties the
        queue or, for a negative delay, raises and keeps it. */
    method SetDelayFixedFrame(value: int) returns (raised: bool)
      modifies this`delayFixedFrame, this`commands, this`start, this`history
      ensures delayFixedFrame == value && raised == CreateRaises(value)
      ensures commands == if raised then old(commands) else []
      ensures start == commands && history == [] && Valid()
    {
      delayFixedFrame := value;
      raised := Initialize();
    }

    /** OnValidate: the PoseRemapper's, which takes the Pose found on the game object,
        then Initialize. */
    method OnValidate(found: Pose?) returns (raised: bool)
      modifies base`pose, this`commands, this`start, this`history
      ensures base.pose == found && raised == CreateRaises(delayFixedFrame)
      ensures commands == if raised then old(commands) else []
      ensures start == commands && history == [] && Valid()
    {
      base.FindPose(found);
      raised := Initialize();
    }

    /** What RemapOnUpdate dereferences: the result pose's bone always, the
        reference's bone when there is a reference and a policy other than None. */
    predicate Ready()
      reads this, base, base.pose, base.refPose
    {
      base.pose != null && HasBone(base.pose, groupName, index) &&
      (base.refPose != null && (positionType != Space.None || rotationType != Space.None) ==> HasBone(base.refPose, groupName, index))
    }

    /** The command a tick enqueues now. */
    function Capture(): (c: ApplyCommand)
      requires Ready()
      reads this, base, base.pose, base.refPose, JointFrame(base.refPose)
      ensures c.bone == BoneTransform(base.pose, groupName, index)
      ensures c.positionType == positionType && c.rotationType == rotationType
    {
      ApplyCommand(BoneTransform(base.pose, groupName, index),
                   GetRefPosition(base.refPose, groupName, index, positionType),
                   GetRefRotation(base.refPose, groupName, index, rotationType),
                   positionType, rotationType)
    }

    /** The bone the next executed command writes. */
    function NextBone(): Transform
      requires Ready()
      reads this, base, base.pose, base.refPose
    {
      if commands != [] then commands[0].bone else BoneTransform(base.pose, groupName, index)
    }

    /** RemapOnUpdate: the bone, the reference values and both policies are frozen
        into a command and enqueued; when the queue then holds more than the delay,
        the oldest command is executed. */
    method RemapOnUpdate() returns (executed: Option<ApplyCommand>)
      requires Valid() && Ready()
      modifies this`commands, this`history, NextBone()
      ensures Valid()
      ensures history == old(history) + [old(Capture())]
      ensures executed == Executed(start, history, delayFixedFrame, |history|)
      ensures (commands, executed) == Tick(old(commands), old(Capture()), delayFixedFrame)
      ensures delayFixedFrame == 0 ==> executed == Some(old(Capture()))
      ensures executed.Some? ==> executed.value.bone == old(NextBone()) && Applied(executed.value)
      ensures executed.None? ==> unchanged(old(NextBone()))
    {
      var c := Capture();
      QueueSnoc(start, history, c, delayFixedFrame);
      QueueIsSuffix(start, history, delayFixedFrame, |history|);
      history := history + [c];
      var q := commands + [c];
      if |q| <= delayFixedFrame {
        commands := q;
        executed := Option.None;
        return;
      }
      commands := q[1..];
      executed := Some(q[0]);
      Execute(q[0]);
    }

    /** FixedUpdate: the base's IsValid decides whether RemapOnUpdate runs. */
    method FixedUpdate() returns (executed: Option<ApplyCommand>)
      requires Valid() && (base.isValid && base.pose != null ==> Ready())
      modifies base`isValid, this`commands, this`history
      modifies if base.isValid && base.pose != null then {NextBone()} else {}
      ensures Valid()
      ensures base.isValid == (old(base.isValid) && base.pose != null)
      ensures !base.isValid ==> executed == Option.None && commands == old(commands) && history == old(history)
      ensures base.isValid ==> history == old(history) + [old(Capture())] &&
                               executed == Executed(start, history, delayFixedFrame, |history|)
    {
      var remap := base.FixedUpdate();
      if remap {
        executed := RemapOnUpdate();
      } else {
        executed := Option.None;
      }
    }
  }
}
