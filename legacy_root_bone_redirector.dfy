// The legacy PoseRootBoneRedirector (RefPose/Pose generation): a delay line of
// commands that write the result pose's root with values captured from the
// reference pose's root.
module LegacyRootBoneRedirectorModel {
  import opened Wrappers
  import opened Geometry
  import opened PoseModel
  import opened DelayLine
  import opened BoneCommandModel
  import opened LegacyPoseRemapperModel

  class LegacyRootBoneRedirector {
    /** The PoseRemapper part: result pose, reference and latch. */
    const base: LegacyPoseRemapper
    var positionType: Space
    var rotationType: Space
    var delayFixedFrame: int
    var commands: seq<ApplyCommand>
    /** The queue when it was last created, or kept by a raising Initialize. */
    ghost var start: seq<ApplyCommand>
    /** Every command enqueued since then. */
    ghost var history: seq<ApplyCommand>

    ghost predicate Valid()
      reads this
    {
      && commands == Queue(start, history, delayFixedFrame, |history|)
      && (!CreateRaises(delayFixedFrame) ==> start == [])
    }

    /** The serialized defaults (no delay, None policies) and Awake's Initialize. */
    constructor (found: Pose?)
      ensures fresh(base) && base.pose == found && base.refPose == null && base.isValid
      ensures positionType == Space.None && rotationType == Space.None
      ensures delayFixedFrame == 0 && commands == [] && start == [] && history == [] && Valid()
    {
      base := new LegacyPoseRemapper(found);
      positionType := Space.None;
      rotationType := Space.None;
      delayFixedFrame := 0;
      commands := [];
      start := [];
      history := [];
    }

    /** Initialize: a new, empty queue; for a negative delay the constructor of the
        queue raises and the old queue stays. */
    method Initialize() returns (raised: bool)
      modifies this`commands, this`start, this`history
      ensures raised == CreateRaises(delayFixedFrame)
      ensures commands == if raised then old(commands) else []
      ensures start == commands && history == [] && Valid()
    {
      raised := CreateRaises(delayFixedFrame);
      if !raised {
        commands := [];
      }
      start, history := commands, [];
    }

    /** DelayFixedFrame (set): stores the delay, then Initialize, which empties the
        queue or, for a negative delay, raises and keeps it. */
    method SetDelayFixedFrame(value: int) returns (raised: bool)
      modifies this`delayFixedFrame, this`commands, this`start, this`history
      ensures delayFixedFrame == value && raised == CreateRaises(value)
      ensures commands == if raised then old(commands) else []
      ensures start == commands && history == [] && Valid()
    {
      delayFixedFrame := value;
      raised := Initialize();
    }

    /** OnValidate: the PoseRemapper's, which takes the Pose found on the game object,
        then Initialize. */
    method OnValidate(found: Pose?) returns (raised: bool)
      modifies base`pose, this`commands, this`start, this`history
      ensures base.pose == found && raised == CreateRaises(delayFixedFrame)
      ensures commands == if raised then old(commands) else []
      ensures start == commands && history == [] && Valid()
    {
      base.FindPose(found);
      raised := Initialize();
    }

    /** RootBone: the result pose's root, the bone the commands write. */
    function RootBone(): (t: Transform)
      requires base.pose != null
      reads this, base, base.pose
      ensures t == base.pose.root.transform
    {
      base.pose.root.transform
    }

    /** GetRefPosition: zero without a reference or with the None policy; otherwise
        the reference root's (RefRootBone's) local or world position. */
    function GetRefPosition(): (v: Vec3)
      reads this, base, base.refPose, if base.refPose == null then {} else {base.refPose.root.transform}
      ensures base.refPose == null || positionType == Space.None ==> v == Zero
      ensures base.refPose != null && positionType == Local ==> v == base.refPose.root.transform.localPosition
      ensures base.refPose != null && positionType == Global ==> v == base.refPose.root.transform.position
    {
      if base.refPose == null then Zero
      else match positionType
        case None => Zero
        case Local => base.refPose.root.transform.localPosition
        case Global => base.refPose.root.transform.position
    }

    /** GetRefRotation: the identity without a reference or with the None policy. */
    function GetRefRotation(): (q: Quat)
      reads this, base, base.refPose, if base.refPose == null then {} else {base.refPose.root.transform}
      ensures base.refPose == null || rotationType == Space.None ==> q == Identity
      ensures base.refPose != null && rotationType == Local ==> q == base.refPose.root.transform.localRotation
      ensures base.refPose != null && rotationType == Global ==> q == base.refPose.root.transform.rotation
    {
      if base.refPose == null then Identity
      else match rotationType
        case None => Identity
        case Local => base.refPose.root.transform.localRotation
        case Global => base.refPose.root.transform.rotation
    }

    /** The command a tick enqueues now. */
    function Capture(): (c: ApplyCommand)
      requires base.pose != null
      reads this, base, base.pose, base.refPose, if base.refPose == null then {} else {base.refPose.root.transform}
      ensures c.bone == base.pose.root.transform
      ensures c.positionType == positionType && c.rotationType == rotationType
    {
      ApplyCommand(RootBone(), GetRefPosition(), GetRefRotation(), positionType, rotationType)
    }

    /** The bone the next executed command writes. */
    function NextBone(): Transform
      requires base.pose != null
      reads this, base, base.pose
    {
      if commands != [] then commands[0].bone else RootBone()
    }

    /** RemapOnUpdate: enqueues a command for the result pose's root, and executes
        the oldest command when the queue then holds more than the delay. With no
        delay, a Local policy copies the reference root's local value onto the
        result root in the same tick. */
    method RemapOnUpdate() returns (executed: Option<ApplyCommand>)
      requires Valid() && base.pose != null
      modifies this`commands, this`history, NextBone()
      ensures Valid()
      ensures history == old(history) + [old(Capture())]
      ensures executed == Executed(start, history, delayFixedFrame, |history|)
      ensures (commands, executed) == Tick(old(commands), old(Capture()), delayFixedFrame)
      ensures executed.Some? ==> executed.value.bone == old(NextBone()) && Applied(executed.value)
      ensures executed.None? ==> unchanged(old(NextBone()))
      ensures delayFixedFrame == 0 ==> executed == Some(old(Capture()))
      ensures delayFixedFrame == 0 && base.refPose != null && positionType == Local ==>
                RootBone().localPosition == old(base.refPose.root.transform.localPosition)
      ensures delayFixedFrame == 0 && base.refPose != null && rotationType == Local ==>
                RootBone().localRotation == old(base.refPose.root.transform.localRotation)
    {
      var c := Capture();
      QueueSnoc(start, history, c, delayFixedFrame);
      QueueIsSuffix(start, history, delayFixedFrame, |history|);
      history := history + [c];
      var q := commands + [c];
      if |q| <= delayFixedFrame {
        commands := q;
        executed := Option.None;
        return;
      }
      commands := q[1..];
      executed := Some(q[0]);
      Execute(q[0]);
    }

    /** FixedUpdate: the base's IsValid decides whether RemapOnUpdate runs. */
    method FixedUpdate() returns (executed: Option<ApplyCommand>)
      requires Valid()
      modifies base`isValid, this`commands, this`history
      modifies if base.pose == null then {} else {NextBone()}
      ensures Valid()
      ensures base.isValid == (old(base.isValid) && base.pose != null)
      ensures !base.isValid ==> executed == Option.None && commands == old(commands) && history == old(history)
      ensures base.isValid ==> |history| == |old(history)| + 1 && executed == Executed(start, history, delayFixedFrame, |history|)
    {
      var remap := base.FixedUpdate();
      if remap {
        executed := RemapOnUpdate();
      } else {
        executed := Option.None;
      }
    }
  }
}
