// PoseDelayer: replays the reference pose's local rotations on the result pose a
// fixed number of physics frames late, through the shared delay line.
module PoseDelayerModel {
  import opened Wrappers
  import Geometry
  import opened PoseModel
  import opened DelayLine
  import opened RefPoseRemapperModel

  /** ApplyPoseCommand: the pose to write and its own copy of the rotation list. */
  datatype ApplyPoseCommand = ApplyPoseCommand(pose: Pose, localRotations: seq<Geometry.Quat>)

  /** ApplyPoseCommand.Execute: the copied rotations go through the pose's
      LocalRotations setter, which writes nothing when the length is wrong. */
  method Execute(c: ApplyPoseCommand)
    modifies Transforms(c.pose.Contents())`localRotation
    ensures |c.localRotations| != |c.pose.Contents()| ==>
              Rotations(c.pose.Contents()) == old(Rotations(c.pose.Contents()))
    ensures |c.localRotations| == |c.pose.Contents()| && DistinctJoints(c.pose.Contents()) ==>
              c.pose.LocalRotations() == c.localRotations
  {
    c.pose.SetLocalRotations(c.localRotations);
  }

  class PoseDelayer {
    /** The PoseRemapper part: result pose, reference, latch and observers. */
    const base: RefPoseRemapper
    var delayFixedFrame: int
    var commands: seq<ApplyPoseCommand>
    /** The queue when it was last created, or kept by a raising Initialize. */
    ghost var start: seq<ApplyPoseCommand>
    /** Every command enqueued since then. */
    ghost var history: seq<ApplyPoseCommand>

    /** The queue is what the delay line holds after the ticks since then. */
    ghost predicate Valid()
      reads this
    {
      && commands == Queue(start, history, delayFixedFrame, |history|)
      && (!CreateRaises(delayFixedFrame) ==> start == [])
    }

    /** The serialized default delay of 30 frames, and Awake's Initialize. */
    constructor (found: Pose?)
      ensures fresh(base) && base.pose == found && base.refPose == null && base.isValid
      ensures delayFixedFrame == 30 && commands == [] && start == [] && history == [] && Valid()
    {
      base := new RefPoseRemapper(found);
      delayFixedFrame := 30;
      commands := [];
      start := [];
      history := [];
    }

    /** Initialize: a new, empty queue; for a negative delay the constructor of the
        queue raises and the old queue stays. */
    method Initialize() returns (raised: bool)
      modifies this`commands, this`start, this`history
      ensures raised == CreateRaises(delayFixedFrame)
      ensures commands == if raised then old(commands) else []
      ensures start == commands && history == [] && Valid()
    {
      raised := CreateRaises(delayFixedFrame);
      if !raised {
        commands := [];
      }
      start, history := commands, [];
    }

    /** DelayFixedFrame (set): stores the delay, then Initialize, which empties the
        queue or, for a negative delay, raises and keeps it. */
    method SetDelayFixedFrame(value: int) returns (raised: bool)
      modifies this`delayFixedFrame, this`commands, this`start, this`history
      ensures delayFixedFrame == value && raised == CreateRaises(value)
      ensures commands == if raised then old(commands) else []
      ensures start == commands && history == [] && Valid()
    {
      delayFixedFrame := value;
      raised := Initialize();
    }

    /** OnValidate: the PoseRemapper's, which takes the Pose found on the game object,
        then Initialize. */
    method OnValidate(found: Pose?) returns (raised: bool)
      modifies base`pose, this`commands, this`start, this`history
      ensures base.pose == found && raised == CreateRaises(delayFixedFrame)
      ensures commands == if raised then old(commands) else []
      ensures start == commands && history == [] && Valid()
    {
      base.FindPose(found);
      raised := Initialize();
    }

    /** The pose the next executed command writes: that of the oldest waiting
        command, or the result pose when nothing waits. */
    function NextPose(): Pose?
      reads this, base
    {
      if commands != [] then commands[0].pose else base.pose
    }

    /** RemapOnUpdate: a snapshot of the reference's rotations is enqueued; when the
        queue then holds more than the delay, the oldest snapshot is executed. */
    method RemapOnUpdate() returns (executed: Option<ApplyPoseCommand>)
      requires Valid() && base.pose != null && base.refPose != null
      modifies this`commands, this`history, Transforms(NextPose().Contents())`localRotation
      ensures Valid()
      ensures history == old(history) + [ApplyPoseCommand(base.pose, old(base.refPose.LocalRotations()))]
      ensures executed == Executed(start, history, delayFixedFrame, |history|)
      ensures (commands, executed) == Tick(old(commands), history[|history| - 1], delayFixedFrame)
      ensures executed.Some? ==> executed.value.pose == old(NextPose())
      ensures executed.None? ==> Rotations(old(NextPose()).Contents()) == old(Rotations(NextPose().Contents()))
      ensures executed.Some? && |executed.value.localRotations| != |executed.value.pose.Contents()| ==>
                Rotations(executed.value.pose.Contents()) == old(Rotations(executed.value.pose.Contents()))
      ensures executed.Some? && |executed.value.localRotations| == |executed.value.pose.Contents()| &&
              DistinctJoints(executed.value.pose.Contents()) ==>
                executed.value.pose.LocalRotations() == executed.value.localRotations
    {
      var c := ApplyPoseCommand(base.pose, base.refPose.LocalRotations());
      QueueSnoc(start, history, c, delayFixedFrame);
      history := history + [c];
      var q := commands + [c];
      if |q| <= delayFixedFrame {
        commands := q;
        executed := None;
        return;
      }
      commands := q[1..];
      executed := Some(q[0]);
      Execute(q[0]);
    }

    /** FixedUpdate: the base's IsValid decides whether RemapOnUpdate runs; the
        reference is then dereferenced, so it must be present. */
    method FixedUpdate() returns (executed: Option<ApplyPoseCommand>)
      requires Valid() && (base.isValid && base.pose != null ==> base.refPose != null)
      modifies base`isValid, this`commands, this`history
      modifies (if NextPose() == null then [] else Transforms(NextPose().Contents()))`localRotation
      ensures Valid()
      ensures base.isValid == (old(base.isValid) && base.pose != null)
      ensures !base.isValid ==> executed == None && commands == old(commands) && history == old(history)
      ensures base.isValid ==> |history| == |old(history)| + 1 && executed == Executed(start, history, delayFixedFrame, |history|)
    {
      var remap := base.FixedUpdate();
      if remap {
        executed := RemapOnUpdate();
      } else {
        executed := None;
      }
    }
  }

  /** With delay d, tick k since the queue was created executes the snapshot taken
      d ticks earlier, and nothing during the first d ticks. */
  lemma DelayedSnapshot(history: seq<ApplyPoseCommand>, d: nat, k: nat)
    requires 1 <= k <= |history|
    ensures k <= d ==> Executed([], history, d, k) == None
    ensures k > d ==> Executed([], history, d, k) == Some(history[k - 1 - d])
    ensures |Queue([], history, d, k)| == if k <= d then k else d
  {
    ExecutedIsDelayed(history, d, k);
    QueueLength(history, d, k);
  }
}
