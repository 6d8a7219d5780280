// The TrackerType enumeration: the body parts a camera rig can hold a tracker for,
// with the numeric layout the enumeration fixes.
module TrackerTypes {
  import opened Wrappers

  /** The hand bones that the finger trackers of one hand follow, in declaration order. */
  datatype HandBone =
    | WristRoot | ForearmStub
    | Thumb0 | Thumb1 | Thumb2 | Thumb3
    | Index1 | Index2 | Index3
    | Middle1 | Middle2 | Middle3
    | Ring1 | Ring2 | Ring3
    | Pinky0 | Pinky1 | Pinky2 | Pinky3

  datatype Side = Left | Right

  /** A tracker type. The 38 finger members (HandWristRootLeft … Pinky3Right) are written
      `HandFinger(side, bone)`: HandFinger(Left, Thumb0) is Thumb0Left. */
  datatype TrackerType =
    | None
    | Head | HeadIKTarget
    | HandLeft | ControllerLeft | HandLeftIKTarget
    | HandRight | ControllerRight | HandRightIKTarget
    | Pelvis | Chest | LegLeft | LegRight
    | HandFinger(side: Side, bone: HandBone)

  /** Position of a bone within its hand's block of the enumeration. */
  function BoneOrdinal(b: HandBone): (k: nat)
    ensures k < 19
  {
    match b
    case WristRoot => 0   case ForearmStub => 1
    case Thumb0 => 2      case Thumb1 => 3      case Thumb2 => 4      case Thumb3 => 5
    case Index1 => 6      case Index2 => 7      case Index3 => 8
    case Middle1 => 9     case Middle2 => 10    case Middle3 => 11
    case Ring1 => 12      case Ring2 => 13      case Ring3 => 14
    case Pinky0 => 15     case Pinky1 => 16     case Pinky2 => 17     case Pinky3 => 18
  }

  function BoneAt(k: nat): Option<HandBone>
  {
    if k == 0 then Some(WristRoot) else if k == 1 then Some(ForearmStub)
    else if k == 2 then Some(Thumb0) else if k == 3 then Some(Thumb1)
    else if k == 4 then Some(Thumb2) else if k == 5 then Some(Thumb3)
    else if k == 6 then Some(Index1) else if k == 7 then Some(Index2)
    else if k == 8 then Some(Index3) else if k == 9 then Some(Middle1)
    else if k == 10 then Some(Middle2) else if k == 11 then Some(Middle3)
    else if k == 12 then Some(Ring1) else if k == 13 then Some(Ring2)
    else if k == 14 then Some(Ring3) else if k == 15 then Some(Pinky0)
    else if k == 16 then Some(Pinky1) else if k == 17 then Some(Pinky2)
    else if k == 18 then Some(Pinky3) else Option.None
  }

  /** First value of a hand's block: 200 for the left hand, 300 for the right hand. */
  function HandBase(s: Side): int { if s == Left then 200 else 300 }

  /** The enumeration's integer value of each member. */
  function Value(t: TrackerType): int
  {
    match t
    case None => 0
    case Head => 10
    case HeadIKTarget => 11
    case HandLeft => 20
    case ControllerLeft => 21
    case HandLeftIKTarget => 22
    case HandRight => 30
    case ControllerRight => 31
    case HandRightIKTarget => 32
    case Pelvis => 100
    case Chest => 101
    case LegLeft => 102
    case LegRight => 103
    case HandFinger(s, b) => HandBase(s) + BoneOrdinal(b)
  }

  /** The member with a given integer value, if there is one (a cast back from int). */
  function FromValue(n: int): Option<TrackerType>
  {
    if n == 0 then Some(TrackerType.None)
    else if n == 10 then Some(Head)
    else if n == 11 then Some(HeadIKTarget)
    else if n == 20 then Some(HandLeft)
    else if n == 21 then Some(ControllerLeft)
    else if n == 22 then Some(HandLeftIKTarget)
    else if n == 30 then Some(HandRight)
    else if n == 31 then Some(ControllerRight)
    else if n == 32 then Some(HandRightIKTarget)
    else if n == 100 then Some(Pelvis)
    else if n == 101 then Some(Chest)
    else if n == 102 then Some(LegLeft)
    else if n == 103 then Some(LegRight)
    else if 200 <= n < 219 then FingerAt(Left, n - 200)
    else if 300 <= n < 319 then FingerAt(Right, n - 300)
    else Option.None
  }

  function FingerAt(s: Side, k: nat): Option<TrackerType>
  {
    match BoneAt(k)
    case None => Option.None
    case Some(b) => Some(HandFinger(s, b))
  }

  lemma {:induction false} BoneAtOrdinal(b: HandBone)
    ensures BoneAt(BoneOrdinal(b)) == Some(b)
  {
    match b
    case WristRoot =>   case ForearmStub =>
    case Thumb0 =>      case Thumb1 =>      case Thumb2 =>      case Thumb3 =>
    case Index1 =>      case Index2 =>      case Index3 =>
    case Middle1 =>     case Middle2 =>     case Middle3 =>
    case Ring1 =>       case Ring2 =>       case Ring3 =>
    case Pinky0 =>      case Pinky1 =>      case Pinky2 =>      case Pinky3 =>
  }

  lemma {:induction false} OrdinalOfBoneAt(k: nat, b: HandBone)
    requires BoneAt(k) == Some(b)
    ensures BoneOrdinal(b) == k
  {
  }

  /** The value-to-member cast and the member-to-value cast are inverse: a value names a
      member exactly when that member's value is it. In particular no two members share
      a value. */
  lemma {:induction false} ValueRoundTrip(n: int, t: TrackerType)
    ensures FromValue(n) == Some(t) <==> Value(t) == n
  {
    if Value(t) == n {
      if t.HandFinger? {
        BoneAtOrdinal(t.bone);
      }
    }
    if FromValue(n) == Some(t) && (200 <= n < 219 || 300 <= n < 319) {
      var k := if n < 219 then n - 200 else n - 300;
      OrdinalOfBoneAt(k, t.bone);
    }
  }

  /** Distinct members have distinct values. */
  lemma ValuesDistinct(a: TrackerType, b: TrackerType)
    requires a != b
    ensures Value(a) != Value(b)
  {
    ValueRoundTrip(Value(a), a);
    ValueRoundTrip(Value(a), b);
  }

  /** Each right-hand finger member is its left-hand counterpart plus 100. */
  lemma RightHandOffset(b: HandBone)
    ensures Value(HandFinger(Right, b)) == Value(HandFinger(Left, b)) + 100
    ensures 200 <= Value(HandFinger(Left, b)) < 219
  {
  }
}
