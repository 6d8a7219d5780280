// PoseRootBoneRedirector (Target/Reference generation): a delay line of root-bone
// commands with its own observer set. Both the bone the commands write (RootBone)
// and the bone they read (RefRootBone) are the reference pose's root, so the commands
// write the reference back into itself and never touch the target.
module PoseRootBoneRedirectorModel {
  import opened Wrappers
  import opened Geometry
  import opened PoseModel
  import opened DelayLine
  import opened Observers
  import opened BoneCommandModel
  import opened PoseRemapperModel

  class PoseRootBoneRedirector {
    /** The PoseRemapper part: target, reference, latch and modified flag. */
    const base: PoseRemapper
    const observers: ObserverSet
    var positionType: Space
    var rotationType: Space
    var delayFixedFrame: int
    var commands: seq<ApplyCommand>
    /** The queue when it was last created, or kept by a raising Initialize. */
    ghost var start: seq<ApplyCommand>
    /** Every command enqueued since then. */
    ghost var history: seq<ApplyCommand>

    ghost predicate Valid()
      reads this
    {
      && commands == Queue(start, history, delayFixedFrame, |history|)
      && (!CreateRaises(delayFixedFrame) ==> start == [])
    }

    /** The serialized defaults (no delay, None policies, no observers), and Awake:
        the base's Awake, then Initialize. */
    constructor (found: Pose?)
      ensures fresh(base) && fresh(observers)
      ensures base.target == found && base.reference == null && base.isValid && !base.hasModified
      ensures observers.members == {} && observers.calls == []
      ensures positionType == Space.None && rotationType == Space.None
      ensures delayFixedFrame == 0 && commands == [] && start == [] && history == [] && Valid()
    {
      base := new PoseRemapper(found);
      observers := new ObserverSet();
      positionType := Space.None;
      rotationType := Space.None;
      delayFixedFrame := 0;
      commands := [];
      start := [];
      history := [];
    }

    /** Initialize: a new, empty queue; for a negative delay the constructor of the
        queue raises and the old queue stays. */
    method Initialize() returns (raised: bool)
      modifies this`commands, this`start, this`history
      ensures raised == CreateRaises(delayFixedFrame)
      ensures commands == if raised then old(commands) else []
      ensures start == commands && history == [] && Valid()
    {
      raised := CreateRaises(delayFixedFrame);
      if !raised {
        commands := [];
      }
      start, history := commands, [];
    }

    /** DelayFixedFrame (set): stores the delay, then Initialize, which empties the
        queue or, for a negative delay, raises and keeps it. */
    method SetDelayFixedFrame(value: int) returns (raised: bool)
      modifies this`delayFixedFrame, this`commands, this`start, this`history
      ensures delayFixedFrame == value && raised == CreateRaises(value)
      ensures commands == if raised then old(commands) else []
      ensures start == commands && history == [] && Valid()
    {
      delayFixedFrame := value;
      raised := Initialize();
    }

    /** OnValidate: the PoseRemapper's, which takes the Pose found on the game object,
        then Initialize. */
    method OnValidate(found: Pose?) returns (raised: bool)
      modifies base`target, this`commands, this`start, this`history
      ensures base.target == found && raised == CreateRaises(delayFixedFrame)
      ensures commands == if raised then old(commands) else []
      ensures start == commands && history == [] && Valid()
    {
      base.FindTarget(found);
      raised := Initialize();
    }

    /** RootBone, the bone the commands write: the reference's root. */
    function RootBone(): (t: Transform)
      requires base.reference != null
      reads this, base, base.reference
      ensures t == base.reference.root.transform
    {
      base.reference.root.transform
    }

    /** RefRootBone, the bone the values are read from: the reference's root too. */
    function RefRootBone(): (t: Transform)
      requires base.reference != null
      reads this, base, base.reference
      ensures t == RootBone()
    {
      base.reference.root.transform
    }

    /** GetRefPosition: zero without a reference or with the None policy. */
    function GetRefPosition(): (v: Vec3)
      reads this, base, base.reference, if base.reference == null then {} else {base.reference.root.transform}
      ensures base.reference == null || positionType == Space.None ==> v == Zero
      ensures base.reference != null && positionType == Local ==> v == RefRootBone().localPosition
      ensures base.reference != null && positionType == Global ==> v == RefRootBone().position
    {
      if base.reference == null then Zero
      else match positionType
        case None => Zero
        case Local => RefRootBone().localPosition
        case Global => RefRootBone().position
    }

    /** GetRefRotation: the identity without a reference or with the None policy. */
    function GetRefRotation(): (q: Quat)
      reads this, base, base.reference, if base.reference == null then {} else {base.reference.root.transform}
      ensures base.reference == null || rotationType == Space.None ==> q == Identity
      ensures base.reference != null && rotationType == Local ==> q == RefRootBone().localRotation
      ensures base.reference != null && rotationType == Global ==> q == RefRootBone().rotation
    {
      if base.reference == null then Identity
      else match rotationType
        case None => Identity
        case Local => RefRootBone().localRotation
        case Global => RefRootBone().rotation
    }

    /** The command a tick enqueues now. */
    function Capture(): (c: ApplyCommand)
      requires base.reference != null
      reads this, base, base.reference, base.reference.root.transform
      ensures c.bone == base.reference.root.transform
      ensures c.positionType == positionType && c.rotationType == rotationType
    {
      ApplyCommand(RootBone(), GetRefPosition(), GetRefRotation(), positionType, rotationType)
    }

    /** The bone the next executed command writes. */
    function NextBone(): Transform
      requires base.reference != null
      reads this, base, base.reference
    {
      if commands != [] then commands[0].bone else RootBone()
    }

    /** RemapOnUpdate: enqueues a command for the reference's root, and executes the
        oldest command when the queue then holds more than the delay. RootBone is
        evaluated first, so a missing reference is an error even though the capture
        functions check for it. */
    method RemapOnUpdate() returns (executed: Option<ApplyCommand>)
      requires Valid() && base.reference != null
      modifies this`commands, this`history, NextBone()
      ensures Valid()
      ensures history == old(history) + [old(Capture())]
      ensures executed == Executed(start, history, delayFixedFrame, |history|)
      ensures (commands, executed) == Tick(old(commands), old(Capture()), delayFixedFrame)
      ensures executed.Some? ==> executed.value.bone == old(NextBone()) && Applied(executed.value)
      ensures executed.None? ==> unchanged(old(NextBone()))
      ensures delayFixedFrame == 0 ==> executed == Some(old(Capture()))
      ensures delayFixedFrame == 0 ==> Unmoved(old(RootBone()))
    {
      var c := Capture();
      QueueSnoc(start, history, c, delayFixedFrame);
      QueueIsSuffix(start, history, delayFixedFrame, |history|);
      history := history + [c];
      var q := commands + [c];
      if |q| <= delayFixedFrame {
        commands := q;
        executed := Option.None;
        return;
      }
      commands := q[1..];
      executed := Some(q[0]);
      Execute(q[0]);
      if delayFixedFrame == 0 {
        assert q[0] == c;
      }
    }

    /** Update: the base's Update (clear the flag, then the latching IsValid)
        decides whether RemapOnUpdate runs. */
    method Update() returns (executed: Option<ApplyCommand>)
      requires Valid() && (base.isValid && base.target != null ==> base.reference != null)
      modifies base`hasModified, base`isValid, this`commands, this`history
      modifies if base.reference == null then {} else {NextBone()}
      ensures Valid() && !base.hasModified
      ensures base.isValid == (old(base.isValid) && base.target != null)
      ensures !base.isValid ==> executed == Option.None && commands == old(commands) && history == old(history)
      ensures base.isValid ==> |history| == |old(history)| + 1 && executed == Executed(start, history, delayFixedFrame, |history|)
    {
      var remap := base.Update();
      if remap {
        executed := RemapOnUpdate();
      } else {
        executed := Option.None;
      }
    }

    /** LateUpdate: Notify (every observer once) exactly when the frame modified
        something; RemapOnUpdate never sets the flag. */
    method LateUpdate()
      modifies observers
      ensures observers.members == old(observers.members)
      ensures base.hasModified ==> observers.NotifiedOnce(old(observers.calls))
      ensures !base.hasModified ==> observers.calls == old(observers.calls)
    {
      if base.hasModified {
        observers.Notify();
      }
    }

    /** AddObserver: set semantics. */
    method AddObserver(o: ObserverId)
      modifies observers
      ensures observers.members == old(observers.members) + {o}
      ensures observers.calls == old(observers.calls)
    {
      observers.Add(o);
    }

    /** RemoveObserver: set semantics. */
    method RemoveObserver(o: ObserverId)
      modifies observers
      ensures observers.members == old(observers.members) - {o}
      ensures observers.calls == old(observers.calls)
    {
      observers.Remove(o);
    }
  }
}
