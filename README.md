# PoseSynth runtime core, modelled in Dafny

PoseSynth is a Unity library that builds character poses from tracked input. A
*camera rig* holds one Transform per tracker type (head, hands, fingers, body
trackers). A *pose* holds a character's joints in labelled joint groups. Between
them sit chains of transformers, which implement three patterns:

- *mappers* turn a camera rig into a pose: the IK mappers and the hand mappers;
- *remappers* turn one or more poses into a pose: the mixer, mirror, offsetter,
  delayer, rotation transformation and bone and root-bone redirectors;
- *camera-rig remappers* turn rigs into a rig: the identity and the mixer.

Each transformer keeps a validity latch and a "modified" flag, or an observer set.
It works once per physics frame, and it announces changes to the transformers
downstream. The model also covers the tracker-type enumeration, the runtime's
static helpers and the network GUI state machine.

The model follows the source file by file:

- An entity whose fields the source updates becomes a Dafny `class`. Its setters,
  Awake, OnValidate, Update and FixedUpdate become methods with `modifies` clauses.
  Each method states the whole new state in its postcondition.
- Pure computations become functions, with lemmas about them. Examples are the
  mixing weight tables, the label pairing of the mirror, the tracker-type layout
  and the ordinal words.
- A loop that writes transforms stays a loop. Its postcondition is stated through
  a function of the values read before the loop.

The source has two generations of its API, and the model keeps both, each in its
own module:

- the Target/Reference generation: `PoseRemapperModel`, `PoseMapperModel`,
  `PoseMixerModel` and so on;
- the older RefPose/Pose and ISynthesizer generation: `RefPoseRemapperModel`,
  `LegacyPoseRemapperModel`, `LegacyPoseMapperModel`, `LegacyPoseMixerModel` and
  `LegacyRootBoneRedirectorModel`.

Some representation choices run through the whole model:

- Vectors and weights are exact reals.
- Quaternions are symbolic terms, built from identity, Euler angles, Slerp, product
  and inverse. Their smart constructors simplify only identity laws.
- A Transform's world and local fields are independent. The scene graph that
  couples them is not modelled.
- An abstract hook, such as `RemapOnUpdate`, `MapOnUpdate` or `Notify` in a base
  class, appears as a returned flag or as a counter. That way a subclass's
  behaviour can be stated as "the base ran the hook exactly when its latch
  allowed".
- Unity's component lookups (`GetComponent`, `TryGetComponent`) and the Animator's
  bone lookup are parameters or fixed functions of a component reference:
  `FoundRig`, `FoundPose`, `AsComponent` and `BoneOf`.

Outside the two places logged under "## Findings", the model does what the code
does, including where the code departs from what its names or comments suggest:

- `CameraRigRemapper.SetReferenceWithoutNotice` writes the target rig, and not the
  reference.
- In the Target/Reference generation, both the bone PoseRootBoneRedirector writes
  and the bone it reads are the reference pose's root.
- In the RefPose/Pose generation, the `Pose` getter of the remappers returns the
  reference.
- `Utilities.Multiply(p, q)` computes Inverse(q) * p * q, although its comment says
  Q P Q^-1.

Two places where the code is evidently wrong are logged under "## Findings". For
GetNumberWord the model keeps the code as written beside the corrected function;
nothing else in the model calls GetNumberWord, since the source uses it only in log
warnings (Runtime/PoseTransformers/PoseMirror.cs:120 and :152). For CameraRigMixer's Merge the
component follows the code as written, so every rebuild gives each weight 1 again;
the corrected merge and the rebuild built on it, which keeps stored weights, sit
beside it as functions.

## Model

| member | source | states |
|---|---|---|
| TrackerTypes.BoneOrdinal | Runtime/CameraRig/TrackerType.cs:44-62 | a hand bone's place in its hand's block lies in 0..18 |
| TrackerTypes.BoneAtOrdinal | Runtime/CameraRig/TrackerType.cs:44-62 | reading back the bone at a bone's own place gives that bone |
| TrackerTypes.OrdinalOfBoneAt | Runtime/CameraRig/TrackerType.cs:44-62 | the bone found at place k has place k |
| TrackerTypes.ValueRoundTrip | Runtime/CameraRig/TrackerType.cs:18-86 | an integer casts to a member exactly when that member's value is the integer (None 0, Head 10/11, hands 20-22 and 30-32, body 100-103, fingers 200-218 and 300-318) |
| TrackerTypes.ValuesDistinct | Runtime/CameraRig/TrackerType.cs:18-86 | distinct members have distinct values |
| TrackerTypes.RightHandOffset | Runtime/CameraRig/TrackerType.cs:44-83 | every right finger value is its left counterpart plus 100, and the left ones lie in 200..218 |
| Utilities.Wrap32 | Runtime/Utility/Utilities.cs:16-21 | the 32-bit wrap-around of the int counter stays in the int range and is the identity inside it |
| Utilities.WindowIds.constructor | Runtime/Utility/Utilities.cs:16 | the static counter starts at 0 |
| Utilities.WindowIds.GetWindowId | Runtime/Utility/Utilities.cs:16-21 | returns the counter before the post-increment; below the int maximum the next id is one more, so ids are distinct and increasing until the counter wraps |
| Utilities.FlatLength | Runtime/Utility/Utilities.cs:30-40 | the flattened list has three entries per vector |
| Utilities.FlatAt | Runtime/Utility/Utilities.cs:30-40 | vector i's x, y, z sit at positions 3i, 3i+1, 3i+2 |
| Utilities.Flatten | Runtime/Utility/Utilities.cs:30-40 | the loop builds exactly the x, y, z layout |
| Utilities.VectorsOfFlat | Runtime/Utility/Utilities.cs:30-54 | Vectorize3 undoes Flatten |
| Utilities.FlatOfVectors | Runtime/Utility/Utilities.cs:46-54 | Vectorize3 succeeds exactly on lengths divisible by 3, and then Flatten undoes it |
| Utilities.Vectorize3 | Runtime/Utility/Utilities.cs:46-54 | the stride-3 loop reads the vectors of that layout, and fails (the source reads past the end) when the length is not a multiple of 3 |
| Utilities.RepeatTurn | Runtime/Utility/Utilities.cs:62 | Mathf.Repeat(t, 360) lies in [0, 360) and differs from t by whole turns |
| Utilities.CyclicAngle | Runtime/Utility/Utilities.cs:56-64 | the result lies in (-180, 180] and differs from the input by whole turns |
| Utilities.CyclicAngleFixes | Runtime/Utility/Utilities.cs:56-64 | an angle already in (-180, 180] is returned unchanged |
| Utilities.CyclicAnglePeriodic | Runtime/Utility/Utilities.cs:56-64 | angles a whole number of turns apart give the same result |
| Utilities.CyclicAngleIdempotent | Runtime/Utility/Utilities.cs:56-64 | normalising twice is normalising once |
| Utilities.CyclicAngles | Runtime/Utility/Utilities.cs:65-77 | each component of the vector overload is normalised on its own |
| Utilities.Multiply | Runtime/Utility/Utilities.cs:78-88 | the code computes Inverse(q) * p * q, not the Q P Q^-1 of its comment: an identity q gives p back |
| Utilities.IntToString | Runtime/Utility/Utilities.cs:101 | the interpolated decimal form is non-empty, with a leading minus exactly for negatives |
| Utilities.GetNumberWord | Runtime/Utility/Utilities.cs:91-121 | corrected: the number followed by a two-letter suffix, "st", "nd" or "rd" exactly for a positive number whose last digit is 1, 2 or 3 and whose last two digits are not 11, 12 or 13, and "th" exactly for every other number |
| Utilities.NumberWordExamples | Runtime/Utility/Utilities.cs:91-121 | corrected: 1st, 2nd, 3rd, 11th-13th, 20th, 21st, 112th, 0th, -1th |
| Utilities.NumberWordAsWrittenCounterexample | Runtime/Utility/Utilities.cs:116-120 | as written, 20 gives "ERROR" and 21 gives "1st" |
| Utilities.NumberWordAsWrittenAgrees | Runtime/Utility/Utilities.cs:96-121 | as written agrees with corrected exactly at numbers up to 3, numbers ending in 4-9 and the teens of every hundred |
| Geometry.Slerp | Runtime/Pose/Pose.cs:119-120 | Quaternion.Slerp clamps its parameter: at 0 or below it is the first rotation, at 1 or above the second, and equal ends give that rotation |
| Geometry.Clamp | Runtime/PoseTransformers/PoseMixer/PoseMixer.cs:296 | Mathf.Clamp lands in a well-formed range and leaves values already inside it unchanged |
| Geometry.ClampTimesOnce | Runtime/PoseTransformers/PoseMixer/PoseMixer.cs:290-301 | clamping an already clamped weight again changes nothing |
| Geometry.SetPosition | Runtime/PoseTransformers/PoseRemapper/PoseBoneRedirector.cs:36-50 | writes the world or the local position as the policy says, nothing for None, and no other field |
| Geometry.SetRotation | Runtime/PoseTransformers/PoseRemapper/PoseBoneRedirector.cs:51-65 | writes the world or the local rotation as the policy says, nothing for None, and no other field |
| Lists.RemoveFirst | Runtime/PoseTransformers/PoseRemapperMultipleReferences.cs:95-104 | List.Remove leaves a list without the element unchanged and otherwise removes one occurrence, keeping every other element |
| Lists.RemoveFirstAt | Runtime/PoseTransformers/PoseRemapperMultipleReferences.cs:95-104 | List.Remove removes the first occurrence: with x at position i and nowhere before, the result is the list without position i |
| Lists.RemoveFirstNoDuplicates | Runtime/PoseTransformers/PoseRemapperMultipleReferences.cs:95-104 | removing from a duplicate-free list keeps it duplicate-free, and the element is then absent |
| Observers.ObserverSet.Add | Runtime/PoseTransformers/PoseRemapper/PoseRootBoneRedirector.cs:90-91 | HashSet.Add: set union, no call made |
| Observers.ObserverSet.Remove | Runtime/PoseTransformers/PoseRemapper/PoseRootBoneRedirector.cs:92 | HashSet.Remove: set difference, no call made |
| Observers.ObserverSet.Notify | Runtime/PoseTransformers/PoseRemapper/PoseRootBoneRedirector.cs:93-101 | every member is called exactly once, after the earlier calls, and no one else is called |
| DelayLine.Tick | Runtime/PoseTransformers/PoseRemapper/PoseDelayer.cs:47-60 | one tick enqueues the command and dequeues the oldest exactly when the queue then holds more than the delay |
| DelayLine.Held | Runtime/PoseTransformers/PoseRemapper/PoseDelayer.cs:52-59 | the queue grows by one per tick up to the delay and never shrinks; a queue already as long as the delay, as every queue is under a negative delay, keeps its length |
| DelayLine.QueueIsSuffix | Runtime/PoseTransformers/PoseRemapper/PoseDelayer.cs:47-60 | after k ticks the queue is exactly the last Held commands of the starting queue followed by the ones enqueued, oldest first |
| DelayLine.ExecutedOldest | Runtime/PoseTransformers/PoseRemapper/PoseDelayer.cs:52-59 | a tick executes exactly when the queue it finds is as long as the delay, and then the oldest command waiting |
| DelayLine.ExecutedIsDelayed | Runtime/PoseTransformers/PoseRemapper/PoseDelayer.cs:52-59 | on a fresh queue with a delay d >= 0, nothing runs during the first d ticks; tick k > d runs the command of tick k-d; a delay of 0 runs each tick's own command |
| DelayLine.NegativeDelayLags | Runtime/PoseTransformers/PoseRemapper/PoseDelayer.cs:42-60 | with a negative delay the queue Initialize failed to replace stays: every tick executes one command, the old queue's first and then each new one as many ticks late as the old queue was long, and the queue keeps its length |
| DelayLine.QueueLength | Runtime/PoseTransformers/PoseRemapper/PoseDelayer.cs:52-59 | on a fresh queue with a delay d >= 0, the queue length after k ticks is min(k, d) |
| DelayLine.QueuePrefix | Runtime/PoseTransformers/PoseRemapper/PoseDelayer.cs:47-60 | the queue after k ticks depends only on the first k commands |
| DelayLine.QueueSnoc | Runtime/PoseTransformers/PoseRemapper/PoseDelayer.cs:47-60 | enqueueing one more command is one more tick of the queue |
| BoneCommandModel.Execute | Runtime/PoseTransformers/PoseRemapper/PoseBoneRedirector.cs:31-65 | ApplyPosition then ApplyRotation: each captured value lands in the field its policy names, and None leaves that component alone |
| PoseModel.Transforms | Runtime/Pose/Pose.cs:189-200 | the transforms of a joint list, one per joint, in order |
| PoseModel.Rotations | Runtime/Pose/Pose.cs:204-215 | the local rotations of a joint list, one per joint, in order |
| PoseModel.FirstWithLabel | Runtime/Pose/Pose.cs:63-72 | the index of the first group with the label, or -1 when no group has it |
| PoseModel.TrySearchFromLabel | Runtime/Pose/Pose.cs:63-75 | true exactly when some group has the label, and then the first such group; otherwise false with the list's first group (so it needs a non-empty list) |
| PoseModel.GetLabels | Runtime/Pose/Pose.cs:173-181 | one label per group, in group order |
| PoseModel.SlerpParam | Runtime/Pose/Pose.cs:119-120 | right/(left+right), 0.5 when the weights add up to zero; 0 and 1 at the extremes and within [0, 1] for non-negative weights |
| PoseModel.SlerpRows | Runtime/Pose/Pose.cs:113-125 | entry i is the Slerp of the two i-th rotations |
| PoseModel.TryAddPair | Runtime/Pose/Pose.cs:84-129 | fails on a label or size mismatch with `left` and no write; otherwise left's label, the summed master weight, result's joints holding the Slerp of left and right by SlerpParam, and the joints past left's size untouched; a result shorter than left gets the Slerp in every joint and then raises on the index past its end |
| PoseModel.Weights | Runtime/Pose/Pose.cs:111 | the master weights, one per group |
| PoseModel.CompatiblePrefix | Runtime/Pose/Pose.cs:155-163 | how many groups after the first can be added before the first failure |
| PoseModel.FoldRows | Runtime/Pose/Pose.cs:155-163 | the pairwise fold of a rectangular rotation table keeps the row length |
| PoseModel.FoldRowsAt | Runtime/Pose/Pose.cs:155-163 | entry i of the fold is the fold of column i |
| PoseModel.FoldStatus | Runtime/Pose/Pose.cs:136-167 | no groups fail and one group succeeds with `result`; two or more succeed exactly when every group can be added onto the first, and then with the first label and the sum of all master weights; a failing first pair hands back the first group |
| PoseModel.TryAdd | Runtime/Pose/Pose.cs:136-167 | raises exactly when an index runs past a group (FoldFits fails), leaving RaisedRotations; otherwise the flag and group are FoldStatus, and result's joints become FoldedRotations of their old rotations and the groups' rotations |
| PoseModel.FoldedRotations | Runtime/Pose/Pose.cs:136-167 | the joint rotations TryAdd leaves, one per result joint |
| PoseModel.AddedIsFolded | Runtime/Pose/Pose.cs:136-167 | the relational description of TryAdd's writes and FoldedRotations agree, both ways |
| PoseModel.FoldStatusOfOutcome | Runtime/Pose/Pose.cs:155-166 | the outcome of the pairwise additions fixes the flag and group to FoldStatus |
| PoseModel.AddFold | Runtime/Pose/Pose.cs:155-166 | the pairwise loop stops at the first failing pair; on success the joints hold the fold of all groups and the weight is the sum of all master weights |
| PoseModel.FirstStep | Runtime/Pose/Pose.cs:157-162 | the first pairwise addition of the loop: success exactly when the first two groups are compatible |
| PoseModel.NextStep | Runtime/Pose/Pose.cs:157-162 | a later pairwise addition: success exactly when the next group is compatible with the first, folding it into the prefix |
| PoseModel.FoldLoop | Runtime/Pose/Pose.cs:155-166 | the rest of the loop, ending in the same outcome the relational description gives |
| PoseModel.CopyRotations | Runtime/Pose/Pose.cs:142-151 | with one group, result's i-th joint takes the group's i-th rotation; a group shorter than result raises after copying all its rotations, the later joints untouched |
| PoseModel.FoldSingleContributor | Runtime/Pose/Pose.cs:119-120 | when only one group has a non-zero weight, the fold reproduces its rotation exactly |
| PoseModel.FoldConstant | Runtime/Pose/Pose.cs:119-120 | when every group has the same rotation, the fold returns it |
| PoseModel.Pose.constructor | Runtime/Pose/Pose.cs:246-251 | a pose with the given root and groups |
| PoseModel.Pose.LocalRotations | Runtime/Pose/Pose.cs:204-215 | one rotation per joint of Contents, the n-th being the n-th joint's |
| PoseModel.Pose.SetLocalRotations | Runtime/Pose/Pose.cs:216-241 | a list of the wrong length writes nothing; otherwise every joint not repeated later holds value[n], so with distinct joints the getter returns `value` |
| PoseModel.AllWritten | Runtime/Pose/Pose.cs:229-240 | after the group-by-group loop each last occurrence holds its value, and with distinct joints the rotations are `value` |
| PoseModel.ConcatSplit | Runtime/Pose/Pose.cs:189-200 | Contents is group after group: the first i+1 groups' joints are the first i groups' joints followed by group i's |
| PoseMixerModel.NewGroup | Runtime/PoseTransformers/PoseMixer/PoseMixer.cs:84-98 | the MixedJointGroup constructor: the label, at most one entry per pose, every entry weight 1 for a non-null pose having the label, and every such pose listed |
| PoseMixerModel.NewGroupOf | Runtime/PoseTransformers/PoseMixer/PoseMixer.cs:87-97 | the same for the first n poses, in pose order |
| PoseMixerModel.IndexOfPose | Runtime/PoseTransformers/PoseMixer/PoseMixer.cs:46-53 | the first entry whose pose is the given one (entry equality is pose identity), or -1 |
| PoseMixerModel.TryGetWeightIn | Runtime/PoseTransformers/PoseMixer/PoseMixer.cs:166-179 | true exactly when some entry is for the pose, with the first such entry's weight; otherwise (false, 0) |
| PoseMixerModel.Merge | Runtime/PoseTransformers/PoseMixer/PoseMixer.cs:122-145 | the old label and one entry per new entry, in new order, for the same pose |
| PoseMixerModel.MergeLookup | Runtime/PoseTransformers/PoseMixer/PoseMixer.cs:115-145 | after a merge a pose of the new group keeps its old weight when the old group had it and gets weight 1 otherwise; a pose only the old group had is dropped |
| PoseMixerModel.MergeStable | Runtime/PoseTransformers/PoseMixer/PoseMixer.cs:122-145 | merging the same new group a second time changes nothing |
| PoseMixerModel.NewGroupUniform | Runtime/PoseTransformers/PoseMixer/PoseMixer.cs:84-98 | all entries of one pose in a freshly built group are equal |
| PoseMixerModel.MergeOld | Runtime/PoseTransformers/PoseMixer/PoseMixer.cs:249-255 | the new group merged with every old group of its label keeps its label and its poses in order |
| PoseMixerModel.MergeAll | Runtime/PoseTransformers/PoseMixer/PoseMixer.cs:249-255 | the inner loop computes MergeOld |
| PoseMixerModel.Rebuilt | Runtime/PoseTransformers/PoseMixer/PoseMixer.cs:236-261 | exactly one group per target group label, in target order |
| PoseMixerModel.RebuiltFresh | Runtime/PoseTransformers/PoseMixer/PoseMixer.cs:236-261 | with mergeCurrentValue false every group is freshly built and every weight is 1 |
| PoseMixerModel.MergeOldOff | Runtime/PoseTransformers/PoseMixer/PoseMixer.cs:251 | without merging, the old table is ignored |
| PoseMixerModel.RebuiltKeeps | Runtime/PoseTransformers/PoseMixer/PoseMixer.cs:236-261 | when exactly one old group has the label, every pose's weight is read from that old group |
| PoseMixerModel.MergeOldSingle | Runtime/PoseTransformers/PoseMixer/PoseMixer.cs:249-255 | with exactly one old group of the label, the inner loop merges with it once |
| PoseMixerModel.RebuildTable | Runtime/PoseTransformers/PoseMixer/PoseMixer.cs:236-261 | the outer loop computes Rebuilt |
| PoseMixerModel.WithWeight | Runtime/PoseTransformers/PoseMixer/PoseMixer.cs:152-165 | every entry for the pose gets the weight, the others and the label are kept |
| PoseMixerModel.SetWeightIn | Runtime/PoseTransformers/PoseMixer/PoseMixer.cs:152-165 | the loop writes WithWeight and reports a change exactly when some stored weight for the pose differed |
| PoseMixerModel.SetThenGet | Runtime/PoseTransformers/PoseMixer/PoseMixer.cs:152-179 | reading back a weight just set gives it (when the pose has an entry), and other poses keep theirs |
| PoseMixerModel.SetTwice | Runtime/PoseTransformers/PoseMixer/PoseMixer.cs:152-165 | setting the same weight again reports no change and is idempotent |
| PoseMixerModel.FirstGroup | Runtime/PoseTransformers/PoseMixer/PoseMixer.cs:273 | the first table group with the label, or -1 |
| PoseMixerModel.TableWeight | Runtime/PoseTransformers/PoseMixer/PoseMixer.cs:269-283 | true exactly when the first group of the label has an entry for the pose, with that entry's weight; otherwise (false, 0) |
| PoseMixerModel.SetTable | Runtime/PoseTransformers/PoseMixer/PoseMixer.cs:290-301 | one group per table group, in order |
| PoseMixerModel.SetTableStep | Runtime/PoseTransformers/PoseMixer/PoseMixer.cs:292-300 | one pass of the loop: the weight is clamped again for every group of the label, and the change flag grows by that group's change |
| PoseMixerModel.SetTableIn | Runtime/PoseTransformers/PoseMixer/PoseMixer.cs:290-301 | the loop computes SetTable and reports whether some stored weight changed |
| PoseMixerModel.SetTableThenGet | Runtime/PoseTransformers/PoseMixer/PoseMixer.cs:290-301 | every group of the label holds the clamped weight for the pose, other groups are unchanged, and TryGetWeight then reads the clamped weight |
| PoseMixerModel.FirstGroupSame | Runtime/PoseTransformers/PoseMixer/PoseMixer.cs:290-301 | SetWeight keeps the labels, so the first group of a label stays where it was |
| PoseMixerModel.Views | Runtime/PoseTransformers/PoseMixer/PoseMixer.cs:375-377 | the groups of every reference, in reference order |
| PoseMixerModel.ViewsFilled | Runtime/PoseTransformers/PoseMixer/PoseMixer.cs:377 | with searchable references every view has a group to fall back on |
| PoseMixerModel.Cache | Runtime/PoseTransformers/PoseMixer/PoseMixer.cs:369-398 | at most one entry per reference, every entry under the label |
| PoseMixerModel.CacheSource | Runtime/PoseTransformers/PoseMixer/PoseMixer.cs:375-397 | every cache entry is the contribution (master weight times the mixer weight, when there is one) of a reference having the label |
| PoseMixerModel.CacheHas | Runtime/PoseTransformers/PoseMixer/PoseMixer.cs:375-397 | every reference with the label contributes to the cache |
| PoseMixerModel.CacheShape | Runtime/PoseTransformers/PoseMixer/PoseMixer.cs:381-393 | the mixer weights change only the master weights of the cache, never the labels or joints |
| PoseMixerModel.MixedGroupWeight | Runtime/PoseTransformers/PoseMixer/PoseMixer.cs:405-408 | a successful fold leaves the cache's label and the sum of its master weights |
| PoseMixerModel.Caches | Runtime/PoseTransformers/PoseMixer/PoseMixer.cs:361-398 | one cache per target group label |
| PoseMixerModel.CachesApart | Runtime/PoseTransformers/PoseMixer/PoseMixer.cs:361-413 | with a mixable target every cache is disjoint from the target and fits its target group |
| PoseMixerModel.WithoutNullPoses | Runtime/PoseTransformers/PoseMixer/PoseMixer.cs:454 | RemoveAll(null) keeps exactly the non-null references, and a list without nulls is unchanged |
| PoseMixerModel.SameReferences | Runtime/PoseTransformers/PoseMixer/PoseMixer.cs:424-439 | the comparison reports equality exactly when both lists are equal |
| PoseMixerModel.BuildCache | Runtime/PoseTransformers/PoseMixer/PoseMixer.cs:369-398 | the reference loop computes Cache |
| PoseMixerModel.FoldGroup | Runtime/PoseTransformers/PoseMixer/PoseMixer.cs:405-412 | group i becomes TryAdd's group when the fold succeeds and is kept otherwise; its joints hold FoldedRotations and other groups' joints are untouched |
| PoseMixerModel.MixAll | Runtime/PoseTransformers/PoseMixer/PoseMixer.cs:356-414 | every target group, in order, is mixed from its label's cache |
| PoseMixerModel.MixStep | Runtime/PoseTransformers/PoseMixer/PoseMixer.cs:363-412 | one group of the loop: its cache is built from the references and folded in, nothing else changes |
| PoseMixerModel.MixPoses | Runtime/PoseTransformers/PoseMixer/PoseMixer.cs:356-414 | the whole group loop establishes MixedInto |
| PoseMixerModel.PoseMixer.constructor | Runtime/PoseTransformers/PoseMixer/PoseMixer.cs:25 | no references, an empty table, no observers; see also lines 186-190 |
| PoseMixerModel.PoseMixer.AddObserver | Runtime/PoseTransformers/PoseMixer/PoseMixer.cs:194 | set union of observers, nothing called |
| PoseMixerModel.PoseMixer.RemoveObserver | Runtime/PoseTransformers/PoseMixer/PoseMixer.cs:195 | set difference of observers, nothing called |
| PoseMixerModel.PoseMixer.Notify | Runtime/PoseTransformers/PoseMixer/PoseMixer.cs:196-202 | each observer is called exactly once |
| PoseMixerModel.PoseMixer.LateUpdate | Runtime/PoseTransformers/PoseRemapperMultipleReferences.cs:143-149 | the inherited LateUpdate reaches this Notify exactly when the tick modified something |
| PoseMixerModel.PoseMixer.TryGetWeight | Runtime/PoseTransformers/PoseMixer/PoseMixer.cs:269-283 | the table lookup TableWeight |
| PoseMixerModel.PoseMixer.InitializeMixedJointGroups | Runtime/PoseTransformers/PoseMixer/PoseMixer.cs:236-261 | the table becomes Rebuilt from the target's labels, the references and the old table |
| PoseMixerModel.PoseMixer.AddPose | Runtime/PoseTransformers/PoseMixer/PoseMixer.cs:210-219 | appends even a pose already present (duplicates allowed), then rebuilds with merging |
| PoseMixerModel.PoseMixer.RemovePose | Runtime/PoseTransformers/PoseMixer/PoseMixer.cs:224-231 | an absent pose changes nothing; otherwise its first occurrence is removed and the table rebuilt with merging |
| PoseMixerModel.PoseMixer.SetWeight | Runtime/PoseTransformers/PoseMixer/PoseMixer.cs:290-301 | the table becomes SetTable, and the modified flag is raised only by a real change |
| PoseMixerModel.PoseMixer.AddWeight | Runtime/PoseTransformers/PoseMixer/PoseMixer.cs:340-347 | nothing without a stored weight; otherwise SetWeight of clamp(w + delta, 0, 1) within [min, max] |
| PoseMixerModel.PoseMixer.OnValidate | Runtime/PoseTransformers/PoseMixer/PoseMixer.cs:418-446 | the base lookup of the target, a rebuild exactly when the references differ from last time's, and the references remembered |
| PoseMixerModel.PoseMixer.Update | Runtime/PoseTransformers/PoseMixer/PoseMixer.cs:449-461 | while valid, null references are dropped and the table rebuilt if any were; then the base tick: flag cleared, remap exactly when valid with a reference |
| PoseMixerModel.PoseMixer.RemapOnUpdate | Runtime/PoseTransformers/PoseMixer/PoseMixer.cs:356-414 | every target group is mixed from the references of its label weighted by the table (MixedInto) |
| MultipleReferencesModel.PoseRemapperMultipleReferences.constructor | Runtime/PoseTransformers/PoseRemapperMultipleReferences.cs:53-55 | no references, valid, not modified; see also line 71 |
| MultipleReferencesModel.PoseRemapperMultipleReferences.GetIsValid | Runtime/PoseTransformers/PoseRemapperMultipleReferences.cs:15-24 | a missing target forces and latches the flag false |
| MultipleReferencesModel.PoseRemapperMultipleReferences.SetIsValid | Runtime/PoseTransformers/PoseRemapperMultipleReferences.cs:25-33 | the value is stored only while there is a target; otherwise false |
| MultipleReferencesModel.PoseRemapperMultipleReferences.SetTarget | Runtime/PoseTransformers/PoseRemapperMultipleReferences.cs:36-40 | a plain assignment of the target |
| MultipleReferencesModel.PoseRemapperMultipleReferences.SetReferences | Runtime/PoseTransformers/PoseRemapperMultipleReferences.cs:45-49 | the list is replaced wholesale |
| MultipleReferencesModel.PoseRemapperMultipleReferences.AddPose | Runtime/PoseTransformers/PoseRemapperMultipleReferences.cs:80-89 | null or an already present pose changes nothing; otherwise it is appended, so a duplicate-free list stays duplicate-free |
| MultipleReferencesModel.PoseRemapperMultipleReferences.RemovePose | Runtime/PoseTransformers/PoseRemapperMultipleReferences.cs:95-104 | null or an absent pose changes nothing; otherwise the first occurrence goes, and from a duplicate-free list the pose is then gone |
| MultipleReferencesModel.PoseRemapperMultipleReferences.OnValidate | Runtime/PoseTransformers/PoseRemapperMultipleReferences.cs:116-123 | the target becomes the Pose found on the object or a parent |
| MultipleReferencesModel.PoseRemapperMultipleReferences.Awake | Runtime/PoseTransformers/PoseRemapperMultipleReferences.cs:124-134 | the lookup happens only while no target is assigned |
| MultipleReferencesModel.PoseRemapperMultipleReferences.Update | Runtime/PoseTransformers/PoseRemapperMultipleReferences.cs:135-142 | clears the modified flag; remaps exactly when the raw flag is set and a reference exists |
| MultipleReferencesModel.PoseRemapperMultipleReferences.LateUpdate | Runtime/PoseTransformers/PoseRemapperMultipleReferences.cs:143-149 | one Notify exactly when the modified flag is set |
| PoseRemapperModel.PoseRemapper.constructor | Runtime/PoseTransformers/PoseRemapper.cs:20 | valid, not modified, no reference, the target found by Awake; see also lines 65-79, 95-98 |
| PoseRemapperModel.PoseRemapper.GetIsValid | Runtime/PoseTransformers/PoseRemapper.cs:21-30 | a missing target forces and latches false, which survives a later target until set again |
| PoseRemapperModel.PoseRemapper.SetIsValid | Runtime/PoseTransformers/PoseRemapper.cs:31-39 | the value is ignored in favour of false while the target is missing |
| PoseRemapperModel.PoseRemapper.SetTarget | Runtime/PoseTransformers/PoseRemapper.cs:41-48 | a plain assignment; the latch is untouched |
| PoseRemapperModel.PoseRemapper.SetReference | Runtime/PoseTransformers/PoseRemapper.cs:49-58 | assigns the reference, then exactly one Notify, even when the value is unchanged |
| PoseRemapperModel.PoseRemapper.SetRefPoseWithoutNotice | Runtime/PoseTransformers/PoseRemapper.cs:82-85 | assigns only the reference, never notifies |
| PoseRemapperModel.PoseRemapper.FindTarget | Runtime/PoseTransformers/PoseRemapper.cs:91-98 | OnValidate and Awake: the target becomes the Pose on the object |
| PoseRemapperModel.PoseRemapper.Update | Runtime/PoseTransformers/PoseRemapper.cs:99-107 | clears the modified flag, then remaps exactly when the latching IsValid holds |
| PoseRemapperModel.PoseRemapper.LateUpdate | Runtime/PoseTransformers/PoseRemapper.cs:108-114 | Notify exactly when the modified flag is set |
| RefPoseRemapperModel.RefPoseRemapper.constructor | Runtime/PoseTransformers/PoseRemapper/PoseRemapper.cs:21-22 | valid, no reference, no observers, the result pose found by OnValidate; see also lines 36-37, 48-49, 72, 92-95 |
| RefPoseRemapperModel.RefPoseRemapper.SetRefPose | Runtime/PoseTransformers/PoseRemapper/PoseRemapper.cs:23-32 | assigns the reference, then every observer is notified once |
| RefPoseRemapperModel.RefPoseRemapper.Notify | Runtime/PoseTransformers/PoseRemapper/PoseRemapper.cs:79-85 | every registered observer is called exactly once |
| RefPoseRemapperModel.RefPoseRemapper.SetRefPoseWithoutNotice | Runtime/PoseTransformers/PoseRemapper/PoseRemapper.cs:86-89 | assigns the reference, no observer called |
| RefPoseRemapperModel.RefPoseRemapper.GetPose | Runtime/PoseTransformers/PoseRemapper/PoseRemapper.cs:38-40 | the Pose getter returns the reference, not the result pose |
| RefPoseRemapperModel.RefPoseRemapper.SetPose | Runtime/PoseTransformers/PoseRemapper/PoseRemapper.cs:41-46 | the Pose setter silently writes the reference, keeps the result pose, does not notify |
| RefPoseRemapperModel.RefPoseRemapper.GetIsValid | Runtime/PoseTransformers/PoseRemapper/PoseRemapper.cs:50-59 | a missing result pose forces and latches false |
| RefPoseRemapperModel.RefPoseRemapper.SetIsValid | Runtime/PoseTransformers/PoseRemapper/PoseRemapper.cs:60-68 | the value is ignored in favour of false without a result pose |
| RefPoseRemapperModel.RefPoseRemapper.AddObserver | Runtime/PoseTransformers/PoseRemapper/PoseRemapper.cs:73 | set union, nothing called |
| RefPoseRemapperModel.RefPoseRemapper.RemoveObserver | Runtime/PoseTransformers/PoseRemapper/PoseRemapper.cs:74 | set difference, nothing called |
| RefPoseRemapperModel.RefPoseRemapper.FindPose | Runtime/PoseTransformers/PoseRemapper/PoseRemapper.cs:92-95 | OnValidate: the result pose becomes the Pose on the object |
| RefPoseRemapperModel.RefPoseRemapper.FixedUpdate | Runtime/PoseTransformers/PoseRemapper/PoseRemapper.cs:96-102 | remaps exactly when the latching IsValid holds |
| RefPoseRemapperModel.AddTwiceNotifiesOnce | Runtime/PoseTransformers/PoseRemapper/PoseRemapper.cs:72-85 | an observer added twice gets exactly one call from one Notify |
| LegacyPoseRemapperModel.LegacyPoseRemapper.constructor | Runtime/PoseRemapper.cs:20-39 | valid, no reference, the result pose found by OnValidate; see also lines 61-64 |
| LegacyPoseRemapperModel.LegacyPoseRemapper.SetRefPose | Runtime/PoseRemapper.cs:22-26 | a plain assignment with no other effect (there are no observers) |
| LegacyPoseRemapperModel.LegacyPoseRemapper.GetPose | Runtime/PoseRemapper.cs:32-34 | the Pose getter returns the reference |
| LegacyPoseRemapperModel.LegacyPoseRemapper.SetPose | Runtime/PoseRemapper.cs:35 | the Pose setter writes the reference and keeps the result pose |
| LegacyPoseRemapperModel.LegacyPoseRemapper.GetIsValid | Runtime/PoseRemapper.cs:40-49 | a missing result pose forces and latches false |
| LegacyPoseRemapperModel.LegacyPoseRemapper.SetIsValid | Runtime/PoseRemapper.cs:50-58 | the value is ignored in favour of false without a result pose |
| LegacyPoseRemapperModel.LegacyPoseRemapper.FindPose | Runtime/PoseRemapper.cs:61-64 | OnValidate: the result pose becomes the Pose on the object |
| LegacyPoseRemapperModel.LegacyPoseRemapper.FixedUpdate | Runtime/PoseRemapper.cs:65-71 | remaps exactly when the latching IsValid holds |
| PoseDelayerModel.Execute | Runtime/PoseTransformers/PoseRemapper/PoseDelayer.cs:18-26 | the copied rotations go through the pose's LocalRotations setter: written when the length matches, nothing written otherwise |
| PoseDelayerModel.PoseDelayer.constructor | Runtime/PoseTransformers/PoseRemapper/PoseDelayer.cs:30 | the default delay of 30 frames and an empty queue; see also lines 68-71 |
| PoseDelayerModel.PoseDelayer.Initialize | Runtime/PoseTransformers/PoseRemapper/PoseDelayer.cs:42-45 | raises ArgumentOutOfRangeException exactly when the delay is negative, and then keeps the old queue; otherwise a new, empty queue |
| PoseDelayerModel.PoseDelayer.SetDelayFixedFrame | Runtime/PoseTransformers/PoseRemapper/PoseDelayer.cs:31-39 | the delay is stored; a negative one makes the new queue raise and the old queue stay, any other empties the queue |
| PoseDelayerModel.PoseDelayer.OnValidate | Runtime/PoseTransformers/PoseRemapper/PoseDelayer.cs:61-67 | the base's OnValidate, which makes the result pose the Pose found on the object, then Initialize: a negative delay raises and keeps the queue, any other empties it |
| PoseDelayerModel.PoseDelayer.RemapOnUpdate | Runtime/PoseTransformers/PoseRemapper/PoseDelayer.cs:46-60 | a snapshot of the reference's rotations is enqueued; the oldest is executed exactly when the queue then exceeds the delay; the queue stays what the delay line holds after the ticks so far |
| PoseDelayerModel.PoseDelayer.FixedUpdate | Runtime/PoseTransformers/PoseRemapper/PoseRemapper.cs:96-102 | the latching IsValid decides whether a tick of the delay line happens |
| PoseDelayerModel.DelayedSnapshot | Runtime/PoseTransformers/PoseRemapper/PoseDelayer.cs:46-60 | tick k executes the snapshot taken d ticks earlier, nothing in the first d ticks, and the queue holds min(k, d) snapshots |
| PoseBoneRedirectorModel.Group | Runtime/PoseTransformers/PoseRemapper/PoseBoneRedirector.cs:92-117 | the first joint group with the label, or an empty group when there is none |
| PoseBoneRedirectorModel.BoneTransform | Runtime/PoseTransformers/PoseRemapper/PoseBoneRedirector.cs:118-121 | the indexed bone of the labelled group, one of the pose's joints |
| PoseBoneRedirectorModel.GetRefPosition | Runtime/PoseTransformers/PoseRemapper/PoseBoneRedirector.cs:127-141 | zero without a reference or under the None policy, else the reference bone's local or world position |
| PoseBoneRedirectorModel.GetRefRotation | Runtime/PoseTransformers/PoseRemapper/PoseBoneRedirector.cs:142-156 | the identity without a reference or under the None policy, else the reference bone's local or world rotation |
| PoseBoneRedirectorModel.PoseBoneRedirector.constructor | Runtime/PoseTransformers/PoseRemapper/PoseBoneRedirector.cs:74-80 | no delay, None policies, index 0 and an empty queue; see also lines 175-178 |
| PoseBoneRedirectorModel.PoseBoneRedirector.Initialize | Runtime/PoseTransformers/PoseRemapper/PoseBoneRedirector.cs:123-126 | raises ArgumentOutOfRangeException exactly when the delay is negative, and then keeps the old queue; otherwise a new, empty queue |
| PoseBoneRedirectorModel.PoseBoneRedirector.SetDelayFixedFrame | Runtime/PoseTransformers/PoseRemapper/PoseBoneRedirector.cs:81-89 | the delay is stored; a negative one makes the new queue raise and the old queue stay, any other empties the queue |
| PoseBoneRedirectorModel.PoseBoneRedirector.OnValidate | Runtime/PoseTransformers/PoseRemapper/PoseBoneRedirector.cs:169-174 | the base's OnValidate, which makes the result pose the Pose found on the object, then Initialize: a negative delay raises and keeps the queue, any other empties it |
| PoseBoneRedirectorModel.PoseBoneRedirector.Capture | Runtime/PoseTransformers/PoseRemapper/PoseBoneRedirector.cs:160 | the enqueued command targets the result pose's bone and freezes both policies |
| PoseBoneRedirectorModel.PoseBoneRedirector.RemapOnUpdate | Runtime/PoseTransformers/PoseRemapper/PoseBoneRedirector.cs:157-168 | the captured command is enqueued; the oldest is executed and applied exactly when the queue exceeds the delay (at once with no delay); nothing is written otherwise |
| PoseBoneRedirectorModel.PoseBoneRedirector.FixedUpdate | Runtime/PoseTransformers/PoseRemapper/PoseRemapper.cs:96-102 | the latching IsValid decides whether a tick happens |
| PoseRootBoneRedirectorModel.PoseRootBoneRedirector.constructor | Runtime/PoseTransformers/PoseRemapper/PoseRootBoneRedirector.cs:74-90 | no delay, None policies, no observers and an empty queue; see also lines 158-162 |
| PoseRootBoneRedirectorModel.PoseRootBoneRedirector.Initialize | Runtime/PoseTransformers/PoseRemapper/PoseRootBoneRedirector.cs:106-109 | raises ArgumentOutOfRangeException exactly when the delay is negative, and then keeps the old queue; otherwise a new, empty queue |
| PoseRootBoneRedirectorModel.PoseRootBoneRedirector.SetDelayFixedFrame | Runtime/PoseTransformers/PoseRemapper/PoseRootBoneRedirector.cs:79-87 | the delay is stored; a negative one makes the new queue raise and the old queue stay, any other empties the queue |
| PoseRootBoneRedirectorModel.PoseRootBoneRedirector.OnValidate | Runtime/PoseTransformers/PoseRemapper/PoseRootBoneRedirector.cs:152-157 | the base's OnValidate, which makes the result pose the Pose found on the object, then Initialize: a negative delay raises and keeps the queue, any other empties it |
| PoseRootBoneRedirectorModel.PoseRootBoneRedirector.RootBone | Runtime/PoseTransformers/PoseRemapper/PoseRootBoneRedirector.cs:104 | the written bone is the reference's root |
| PoseRootBoneRedirectorModel.PoseRootBoneRedirector.RefRootBone | Runtime/PoseTransformers/PoseRemapper/PoseRootBoneRedirector.cs:105 | the read bone is the same transform as the written one |
| PoseRootBoneRedirectorModel.PoseRootBoneRedirector.GetRefPosition | Runtime/PoseTransformers/PoseRemapper/PoseRootBoneRedirector.cs:110-124 | zero without a reference or under the None policy, else the reference root's local or world position |
| PoseRootBoneRedirectorModel.PoseRootBoneRedirector.GetRefRotation | Runtime/PoseTransformers/PoseRemapper/PoseRootBoneRedirector.cs:125-139 | the identity without a reference or under the None policy, else the reference root's local or world rotation |
| PoseRootBoneRedirectorModel.PoseRootBoneRedirector.Capture | Runtime/PoseTransformers/PoseRemapper/PoseRootBoneRedirector.cs:143 | the command targets the reference's root and freezes both policies |
| PoseRootBoneRedirectorModel.PoseRootBoneRedirector.RemapOnUpdate | Runtime/PoseTransformers/PoseRemapper/PoseRootBoneRedirector.cs:140-151 | the captured command is enqueued and the oldest executed exactly when the queue exceeds the delay; with no delay the root is written back with its own values and does not move |
| PoseRootBoneRedirectorModel.PoseRootBoneRedirector.Update | Runtime/PoseTransformers/PoseRemapper.cs:99-107 | the modified flag is cleared and the latching IsValid decides whether a tick happens |
| PoseRootBoneRedirectorModel.PoseRootBoneRedirector.LateUpdate | Runtime/PoseTransformers/PoseRemapper.cs:108-114 | every observer is notified once exactly when the frame modified something |
| PoseRootBoneRedirectorModel.PoseRootBoneRedirector.AddObserver | Runtime/PoseTransformers/PoseRemapper/PoseRootBoneRedirector.cs:93 | set insertion, nothing notified |
| PoseRootBoneRedirectorModel.PoseRootBoneRedirector.RemoveObserver | Runtime/PoseTransformers/PoseRemapper/PoseRootBoneRedirector.cs:94 | set removal, nothing notified |
| LegacyRootBoneRedirectorModel.LegacyRootBoneRedirector.constructor | Runtime/PoseRootBoneRedirector.cs:74-78 | no delay, None policies and an empty queue; see also lines 144-147 |
| LegacyRootBoneRedirectorModel.LegacyRootBoneRedirector.Initialize | Runtime/PoseRootBoneRedirector.cs:92-95 | raises ArgumentOutOfRangeException exactly when the delay is negative, and then keeps the old queue; otherwise a new, empty queue |
| LegacyRootBoneRedirectorModel.LegacyRootBoneRedirector.SetDelayFixedFrame | Runtime/PoseRootBoneRedirector.cs:79-87 | the delay is stored; a negative one makes the new queue raise and the old queue stay, any other empties the queue |
| LegacyRootBoneRedirectorModel.LegacyRootBoneRedirector.OnValidate | Runtime/PoseRootBoneRedirector.cs:138-143 | the base's OnValidate, which makes the result pose the Pose found on the object, then Initialize: a negative delay raises and keeps the queue, any other empties it |
| LegacyRootBoneRedirectorModel.LegacyRootBoneRedirector.RootBone | Runtime/PoseRootBoneRedirector.cs:90 | the written bone is the result pose's root |
| LegacyRootBoneRedirectorModel.LegacyRootBoneRedirector.GetRefPosition | Runtime/PoseRootBoneRedirector.cs:96-110 | zero without a reference or under the None policy, else the reference root's local or world position; see also line 91 |
| LegacyRootBoneRedirectorModel.LegacyRootBoneRedirector.GetRefRotation | Runtime/PoseRootBoneRedirector.cs:111-125 | the identity without a reference or under the None policy, else the reference root's local or world rotation; see also line 91 |
| LegacyRootBoneRedirectorModel.LegacyRootBoneRedirector.Capture | Runtime/PoseRootBoneRedirector.cs:129 | the command targets the result pose's root and freezes both policies |
| LegacyRootBoneRedirectorModel.LegacyRootBoneRedirector.RemapOnUpdate | Runtime/PoseRootBoneRedirector.cs:126-137 | the captured command is enqueued and the oldest executed exactly when the queue exceeds the delay; with no delay a Local policy copies the reference root's local value onto the result root in the same tick |
| LegacyRootBoneRedirectorModel.LegacyRootBoneRedirector.FixedUpdate | Runtime/PoseRemapper.cs:65-71 | the latching IsValid decides whether a tick happens |
| PoseOffsetterModel.RestOffsetCopies | Runtime/PoseTransformers/PoseRemapper/PoseOffsetter.cs:41-66 | an offset bone at rest (zero offset, identity rotation) makes the result bone copy the reference in the policy's space |
| PoseOffsetterModel.NoneIgnoresOffset | Runtime/PoseTransformers/PoseRemapper/PoseOffsetter.cs:43-58 | under the None policies the offset pose plays no part: the bone gets the reference's local position and rotation |
| PoseOffsetterModel.OffsetIdempotent | Runtime/PoseTransformers/PoseRemapper/PoseOffsetter.cs:35-67 | a second pass from the same reference and offset bones changes nothing |
| PoseOffsetterModel.OffsetBone | Runtime/PoseTransformers/PoseRemapper/PoseOffsetter.cs:37-66 | one pass of the loop: the position switch then the rotation switch, each writing only the field its policy names |
| PoseOffsetterModel.OffsetAll | Runtime/PoseTransformers/PoseRemapper/PoseOffsetter.cs:34-67 | bone i ends offset from reference bone i by offset bone i, for every i |
| PoseOffsetterModel.PoseOffsetter.constructor | Runtime/PoseTransformers/PoseRemapper/PoseOffsetter.cs:22-28 | None policies and no offset pose |
| PoseOffsetterModel.PoseOffsetter.RemapOnUpdate | Runtime/PoseTransformers/PoseRemapper/PoseOffsetter.cs:32-68 | every result bone is offset from the same-index reference bone by the same-index offset bone |
| PoseOffsetterModel.PoseOffsetter.FixedUpdate | Runtime/PoseTransformers/PoseRemapper/PoseRemapper.cs:96-102 | the latching IsValid decides whether the bones are offset or left as they were |
| RotationTransformationModel.Remapped | Runtime/PoseTransformers/PoseRemapper/PoseRemapper_RotationTransformation.cs:38-41 | an identity Rotation reduces the mapping to a right multiplication by Offset, an identity Offset to the change of frame alone |
| RotationTransformationModel.IdentityMappingCopies | Runtime/PoseTransformers/PoseRemapper/PoseRemapper_RotationTransformation.cs:38-41 | with both rotations the identity a mapping copies the local rotation |
| RotationTransformationModel.Step | Runtime/PoseTransformers/PoseRemapper/PoseRemapper_RotationTransformation.cs:40 | one mapping changes its BoneAfter only, to the remapped rotation of its BoneBefore |
| RotationTransformationModel.RunUntouched | Runtime/PoseTransformers/PoseRemapper/PoseRemapper_RotationTransformation.cs:45-51 | a bone no mapping writes keeps its rotation |
| RotationTransformationModel.LastWriterWins | Runtime/PoseTransformers/PoseRemapper/PoseRemapper_RotationTransformation.cs:45-51 | when no written bone is also read, each bone ends with what its last mapping computes from the rotations before the tick |
| RotationTransformationModel.RunSingle | Runtime/PoseTransformers/PoseRemapper/PoseRemapper_RotationTransformation.cs:45-51 | a list of one mapping is that mapping's Remap |
| RotationTransformationModel.Remap | Runtime/PoseTransformers/PoseRemapper/PoseRemapper_RotationTransformation.cs:38-41 | BoneAfter's local rotation is written from BoneBefore's, and no other rotation of the frame changes |
| RotationTransformationModel.RotationTransformation.constructor | Runtime/PoseTransformers/PoseRemapper/PoseRemapper_RotationTransformation.cs:43 | an empty mapping list |
| RotationTransformationModel.RotationTransformation.RemapOnUpdate | Runtime/PoseTransformers/PoseRemapper/PoseRemapper_RotationTransformation.cs:45-51 | the mappings run in list order, each seeing the rotations the earlier ones left; with disjoint reads and writes each bone gets its last mapping's result |
| RotationTransformationModel.RotationTransformation.FixedUpdate | Runtime/PoseTransformers/PoseRemapper/PoseRemapper.cs:96-102 | the latching IsValid decides whether the mappings run or the rotations stay |
| PoseMirrorModel.Contains | Runtime/PoseTransformers/PoseRemapper/PoseMirror.cs:177 | string.Contains compared ordinally; containment implies the keyword is no longer than the label |
| PoseMirrorModel.ContainsAt | Runtime/PoseTransformers/PoseRemapper/PoseMirror.cs:177 | Contains holds exactly when the keyword occurs at some position |
| PoseMirrorModel.RemoveAll | Runtime/PoseTransformers/PoseRemapper/PoseMirror.cs:179-183 | Replace with the empty string: a label without the keyword is returned as is, one with it loses at least one occurrence |
| PoseMirrorModel.PartnerFrom | Runtime/PoseTransformers/PoseRemapper/PoseMirror.cs:180-193 | the inner search: the first label from j on that is a partner (its right keyword removed gives the stripped left label, and it contains the keyword), or -1 when none is |
| PoseMirrorModel.FindPartner | Runtime/PoseTransformers/PoseRemapper/PoseMirror.cs:180-193 | the inner loop returns the index of the first partner, or -1 when there is none, as PartnerFrom says |
| PoseMirrorModel.Entry | Runtime/PoseTransformers/PoseRemapper/PoseMirror.cs:176-204 | a keyword-free label is a singleton, a right-only label gives nothing, a left label gives itself with its first partner, or nothing without one |
| PoseMirrorModel.PairLabelsShape | Runtime/PoseTransformers/PoseRemapper/PoseMirror.cs:168-209 | every entry is a keyword-free singleton or a left label with a partner; every keyword-free label appears, and every left label that has a partner appears paired |
| PoseMirrorModel.PairLabelsWellPaired | Runtime/PoseTransformers/PoseRemapper/PoseMirror.cs:168-209 | every entry is a keyword-free label on its own, or a left label followed by one of its partners |
| PoseMirrorModel.SinglePresent | Runtime/PoseTransformers/PoseRemapper/PoseMirror.cs:200-204 | a label with neither keyword is an entry on its own |
| PoseMirrorModel.PairLabelsSingles | Runtime/PoseTransformers/PoseRemapper/PoseMirror.cs:200-204 | every label with neither keyword is an entry on its own |
| PoseMirrorModel.PairPresent | Runtime/PoseTransformers/PoseRemapper/PoseMirror.cs:176-193 | a left label that has a partner is paired with its first partner |
| PoseMirrorModel.PairLabelsPairs | Runtime/PoseTransformers/PoseRemapper/PoseMirror.cs:176-193 | every left label that has a partner is paired with one |
| PoseMirrorModel.PairLabelsExample | Runtime/PoseTransformers/PoseRemapper/PoseMirror.cs:168-209 | "Spine", "Arm Left", "Arm Right" give the singleton Spine and the pair of the arms |
| PoseMirrorModel.ThreeLabels | Runtime/PoseTransformers/PoseRemapper/PoseMirror.cs:168-209 | the same for any stem and any single label free of the keywords' first letters |
| PoseMirrorModel.KeywordAtEnd | Runtime/PoseTransformers/PoseRemapper/PoseMirror.cs:177-183 | a keyword-free stem followed by one keyword contains that keyword and not the other, and Replace strips exactly the keyword |
| PoseMirrorModel.NotContains | Runtime/PoseTransformers/PoseRemapper/PoseMirror.cs:177 | a label without the keyword's first letter does not contain the keyword |
| PoseMirrorModel.NotContainsRemove | Runtime/PoseTransformers/PoseRemapper/PoseMirror.cs:179 | Replace leaves such a label as it is |
| PoseMirrorModel.RemoveSuffix | Runtime/PoseTransformers/PoseRemapper/PoseMirror.cs:179 | Replace strips a trailing keyword from a keyword-free stem |
| PoseMirrorModel.Find | Runtime/PoseTransformers/PoseRemapper/PoseMirror.cs:127-141 | List.Find by label: present exactly when some group has the label, and then the first group with that label |
| PoseMirrorModel.SinglePairsAt | Runtime/PoseTransformers/PoseRemapper/PoseMirror.cs:129-132 | a singleton entry gives n pairs, pair j mirroring reference joint j onto target joint j |
| PoseMirrorModel.CrossedPairsAt | Runtime/PoseTransformers/PoseRemapper/PoseMirror.cs:142-146 | a left/right entry gives 2n pairs crossing the sides: reference-left onto target-right, then reference-right onto target-left |
| PoseMirrorModel.PairsForFails | Runtime/PoseTransformers/PoseRemapper/PoseMirror.cs:113-155 | once an entry throws, InitializePairs throws |
| PoseMirrorModel.NoReferenceNoPairs | Runtime/PoseTransformers/PoseRemapper/PoseMirror.cs:113-157 | entries all empty or longer than two labels give no pairs, whatever the reference holds |
| PoseMirrorModel.SinglePairsFlagged | Runtime/PoseTransformers/PoseRemapper/PoseMirror.cs:131 | every singleton pair carries the given flags |
| PoseMirrorModel.CrossedPairsFlagged | Runtime/PoseTransformers/PoseRemapper/PoseMirror.cs:144-145 | every crossed pair carries the given flags |
| PoseMirrorModel.PairsForFlags | Runtime/PoseTransformers/PoseRemapper/PoseMirror.cs:108-158 | every pair InitializePairs builds carries the flags it was given |
| PoseMirrorModel.FlipTwice | Runtime/PoseTransformers/PoseRemapper/PoseMirror.cs:90-94 | mirroring twice with the same flags gives back the angles |
| PoseMirrorModel.MirrorStep | Runtime/PoseTransformers/PoseRemapper/PoseMirror.cs:89-94 | one pass writes the flipped angles of the reference bone into the pair's bone and nothing else |
| PoseMirrorModel.MirrorUntouched | Runtime/PoseTransformers/PoseRemapper/PoseMirror.cs:85-96 | a bone no pair writes keeps its angles |
| PoseMirrorModel.MirrorLastWins | Runtime/PoseTransformers/PoseRemapper/PoseMirror.cs:85-96 | with the reference apart from the target, each written bone ends with the flipped reference angles of its last pair |
| PoseMirrorModel.PoseMirror.constructor | Runtime/PoseTransformers/PoseRemapper/PoseMirror.cs:60-72 | no pairs, the keywords "Left" and "Right", no observers |
| PoseMirrorModel.PoseMirror.GetPairLabels | Runtime/PoseTransformers/PoseRemapper/PoseMirror.cs:168-209 | the nested loops compute PairLabels over the target's labels; the duplicate check never fires, so the first partner is taken |
| PoseMirrorModel.PoseMirror.InitializePairs | Runtime/PoseTransformers/PoseRemapper/PoseMirror.cs:108-158 | Pairs is replaced by the pairs of every entry when none throws, and left as it was otherwise; without a reference it throws exactly when some entry has one or two labels, and otherwise sets no pairs |
| PoseMirrorModel.PoseMirror.InitializePairsByDefault | Runtime/PoseTransformers/PoseRemapper/PoseMirror.cs:108 | the default flags mirror in Y and Z: every pair built is flagged y and z and not x |
| PoseMirrorModel.PoseMirror.RemapOnUpdate | Runtime/PoseTransformers/PoseRemapper/PoseMirror.cs:85-96 | the pairs run in order; each written bone ends with its last pair's flipped reference angles when reads and writes are apart |
| PoseMirrorModel.PoseMirror.Update | Runtime/PoseTransformers/PoseRemapper.cs:99-107 | the modified flag is cleared and the latching IsValid decides whether the pairs run or the angles stay |
| PoseMirrorModel.PoseMirror.LateUpdate | Runtime/PoseTransformers/PoseRemapper.cs:108-114 | every observer is notified once exactly when the frame modified something |
| PoseMirrorModel.PoseMirror.AddObserver | Runtime/PoseTransformers/PoseRemapper/PoseMirror.cs:74 | set insertion, nothing notified |
| PoseMirrorModel.PoseMirror.RemoveObserver | Runtime/PoseTransformers/PoseRemapper/PoseMirror.cs:75 | set removal, nothing notified |
| PoseMirrorModel.MirrorPair | Runtime/PoseTransformers/PoseRemapper/PoseMirror.cs:89-94 | one pass of the loop is MirrorStep on the frame's angles |
| PoseMirrorModel.BuildPairs | Runtime/PoseTransformers/PoseRemapper/PoseMirror.cs:113-157 | the entry loop computes PairsFor, None once an entry throws |
| PoseMirrorModel.BuildEntry | Runtime/PoseTransformers/PoseRemapper/PoseMirror.cs:115-154 | the empty, 1-label, 2-label and longer entry branches compute EntryPairs |
| PoseMirrorModel.BuildSingle | Runtime/PoseTransformers/PoseRemapper/PoseMirror.cs:127-132 | no pairs for an empty target group, a throw when the reference group is missing or shorter, else the self pairs |
| PoseMirrorModel.BuildCrossed | Runtime/PoseTransformers/PoseRemapper/PoseMirror.cs:142-146 | the joint loop computes the crossed pairs |
| CameraRigs.Values | Runtime/CameraRig/TrackerTransformDictionary.cs:13 | exactly the transforms the dictionary's entries hold |
| CameraRigs.KeyIndex | Runtime/CameraRig/LocalCameraRig.cs:68-71 | the first entry from i on with the key, or -1 exactly when none has it |
| CameraRigs.ValueIndex | Runtime/CameraRig/LocalCameraRig.cs:75-82 | the first entry from i on holding the transform, or -1 exactly when none does |
| CameraRigs.Lookup | Runtime/CameraRig/LocalCameraRig.cs:68-71 | TryGetTransform fails exactly when the key is absent; otherwise it gives the value of that key (the only one when keys are unique) |
| CameraRigs.ReverseLookup | Runtime/CameraRig/LocalCameraRig.cs:73-86 | TryGetType fails exactly when no entry holds the transform; otherwise it gives the key of the first entry, in enumeration order, that does |
| CameraRigs.LookupRoundTrip | Runtime/CameraRig/LocalCameraRig.cs:68-86 | when k is the only key mapping to t, TryGetType(t) gives k and TryGetTransform(k) gives t |
| CameraRigs.ReverseLookupSound | Runtime/CameraRig/LocalCameraRig.cs:68-86 | the key TryGetType finds maps back to the transform it was given |
| CameraRigs.Source | Runtime/Network/CameraRig/ServerCameraRig.cs:48 | the values of the transform a key maps to, present exactly when the key is |
| CameraRigs.CameraRig.constructor | Runtime/CameraRig/ICameraRig.cs:11-30 | a rig is its tracker dictionary |
| CameraRigs.Synced | Runtime/Network/CameraRig/ServerCameraRig.cs:48-57 | a key the local rig has copies its local position and rotation; a missing key changes nothing; world values are never copied |
| CameraRigs.SyncedIdempotent | Runtime/Network/CameraRig/ServerCameraRig.cs:44-59 | syncing twice from the same values is syncing once |
| CameraRigs.SyncAll | Runtime/Network/CameraRig/ServerCameraRig.cs:46-58 | every key of the server's dictionary ends synced from the local rig's values before the call |
| CameraRigs.SyncEntry | Runtime/Network/CameraRig/ServerCameraRig.cs:48-53 | one key: the found transform's local values copied into the server's transform |
| CameraRigs.ServerCameraRig.constructor | Runtime/Network/CameraRig/ServerCameraRig.cs:20-22 | the server's own tracker dictionary and owner id |
| CameraRigs.ServerCameraRig.UpdateTrackerTransforms | Runtime/Network/CameraRig/ServerCameraRig.cs:44-59 | every key the local rig also has gets its local position and rotation; the other keys are left alone |
| CameraRigs.Registry.constructor | Runtime/Network/CameraRig/ServerCameraRig.cs:31 | the static registry starts empty |
| CameraRigs.Registry.TryGet | Runtime/Network/CameraRig/ServerCameraRig.cs:38 | found exactly when the client id is registered, and then the registered rig |
| CameraRigs.LocalCameraRig.constructor | Runtime/CameraRig/LocalCameraRig.cs:20 | the rig's dictionary and no observers; see also lines 57-58 |
| CameraRigs.LocalCameraRig.AddObserver | Runtime/CameraRig/LocalCameraRig.cs:26-29 | set insertion |
| CameraRigs.LocalCameraRig.RemoveObserver | Runtime/CameraRig/LocalCameraRig.cs:35-38 | set removal |
| CameraRigs.LocalCameraRig.NotifyOne | Runtime/CameraRig/LocalCameraRig.cs:49 | one observer syncs from this rig; the other observers and this rig keep their values |
| CameraRigs.LocalCameraRig.NotifyObserver | Runtime/CameraRig/LocalCameraRig.cs:45-51 | every observer, once each, ends synced from this rig's values before the call; see also lines 88-91 |
| CameraRigs.OnNetworkSpawn | Runtime/Network/CameraRig/ServerCameraRig.cs:86-109 | an owner rig starts observing the local rig; registration succeeds exactly when the owner id is new, and a duplicate leaves the registry as it was |
| CameraRigs.OnNetworkDespawn | Runtime/Network/CameraRig/ServerCameraRig.cs:110-117 | the rig stops observing the local rig and leaves the registry |
| CameraRigs.SpawnThenDespawn | Runtime/Network/CameraRig/ServerCameraRig.cs:86-117 | after OnNetworkSpawn TryGet finds the rig under its owner id when that id was free, after OnNetworkDespawn it finds nothing there, every other id reads as before, and the rig no longer observes; see also line 38 |
| CameraRigIdentityModel.Copied | Runtime/CameraRigTransformers/CameraRigIdentity.cs:64-88 | Global copies the world field, Local the local field, None nothing, for position and rotation independently; the Euler angles are kept |
| CameraRigIdentityModel.CopiedIdempotent | Runtime/CameraRigTransformers/CameraRigIdentity.cs:59-90 | copying twice from the same reference values is copying once |
| CameraRigIdentityModel.CopiedPolicies | Runtime/CameraRigTransformers/CameraRigIdentity.cs:64-88 | None/None writes nothing; Global/Global gives the reference's world pose and Local/Local its local pose, the other space kept |
| CameraRigIdentityModel.Identified | Runtime/CameraRigTransformers/CameraRigIdentity.cs:61-62 | a transform is copied exactly when its tracker type is listed and the reference rig has that tracker |
| CameraRigIdentityModel.CopyEntry | Runtime/CameraRigTransformers/CameraRigIdentity.cs:64-88 | the two switches of one pass write what Copied says |
| CameraRigIdentityModel.IdentifiedTwice | Runtime/CameraRigTransformers/CameraRigIdentity.cs:59-90 | a type listed twice is copied as if listed once |
| CameraRigIdentityModel.CopyKey | Runtime/CameraRigTransformers/CameraRigIdentity.cs:61-89 | one pass for tracker type k: only the target transform of k changes, copied from the reference transform of k; the reference rig is only read |
| CameraRigIdentityModel.CopyAll | Runtime/CameraRigTransformers/CameraRigIdentity.cs:59-90 | after the loop every target transform is as Identified says, from the values before the tick |
| CameraRigIdentityModel.CameraRigIdentity.constructor | Runtime/CameraRigTransformers/CameraRigIdentity.cs:27-32 | no trackers, both policies None, no observers |
| CameraRigIdentityModel.CameraRigIdentity.Destination | Runtime/CameraRigTransformers/CameraRigIdentity.cs:55 | the rig written is the target, or the rig on the game object when the target is missing |
| CameraRigIdentityModel.CameraRigIdentity.SetReference | Runtime/CameraRigTransformers/CameraRigRemapper.cs:46-54 | the base's SetReferenceWithoutNotice, then this class's observers notified once each |
| CameraRigIdentityModel.CameraRigIdentity.RemapOnUpdate | Runtime/CameraRigTransformers/CameraRigIdentity.cs:48-91 | nothing happens without a reference; otherwise a missing target is replaced by the component and every listed tracker the reference has is copied |
| CameraRigIdentityModel.CameraRigIdentity.FixedUpdate | Runtime/CameraRigTransformers/CameraRigRemapper.cs:92-98 | the copy runs exactly when the latching IsValid holds and there is a reference |
| CameraRigIdentityModel.CameraRigIdentity.AddObserver | Runtime/CameraRigTransformers/CameraRigIdentity.cs:36 | set insertion, nothing notified |
| CameraRigIdentityModel.CameraRigIdentity.RemoveObserver | Runtime/CameraRigTransformers/CameraRigIdentity.cs:37 | set removal, nothing notified |
| CameraRigRemapperModel.CameraRigRemapper.constructor | Runtime/CameraRigTransformers/CameraRigRemapper.cs:58-64 | valid, no reference, no observers, the target found on the game object; see also lines 88-91 |
| CameraRigRemapperModel.CameraRigRemapper.GetIsValid | Runtime/CameraRigTransformers/CameraRigRemapper.cs:20-27 | a missing target forces and latches the flag false |
| CameraRigRemapperModel.CameraRigRemapper.SetIsValid | Runtime/CameraRigTransformers/CameraRigRemapper.cs:28-36 | the value is stored only while there is a target; otherwise false |
| CameraRigRemapperModel.CameraRigRemapper.SetTarget | Runtime/CameraRigTransformers/CameraRigRemapper.cs:38-45 | a plain assignment of the target |
| CameraRigRemapperModel.CameraRigRemapper.SetReferenceWithoutNotice | Runtime/CameraRigTransformers/CameraRigRemapper.cs:77-80 | the target is overwritten; the reference keeps its value |
| CameraRigRemapperModel.CameraRigRemapper.SetReference | Runtime/CameraRigTransformers/CameraRigRemapper.cs:46-54 | SetReferenceWithoutNotice, then every observer notified once, changed or not |
| CameraRigRemapperModel.CameraRigRemapper.OnValidate | Runtime/CameraRigTransformers/CameraRigRemapper.cs:88-91 | the target becomes the rig on the game object |
| CameraRigRemapperModel.CameraRigRemapper.FixedUpdate | Runtime/CameraRigTransformers/CameraRigRemapper.cs:92-98 | RemapOnUpdate runs exactly when the latching IsValid holds and there is a reference, so never while the reference is null |
| CameraRigRemapperModel.CameraRigRemapper.AddObserver | Runtime/CameraRigTransformers/CameraRigRemapper.cs:65 | set insertion, nothing notified |
| CameraRigRemapperModel.CameraRigRemapper.RemoveObserver | Runtime/CameraRigTransformers/CameraRigRemapper.cs:66 | set removal, nothing notified |
| CameraRigMultipleReferencesModel.WithoutNulls | Runtime/CameraRigTransformers/CameraRigRemapperMultipleReferences.cs:45-57 | the non-null entries in their order: no more entries, no new ones, every non-null one kept, a null-free list unchanged; see also line 91 |
| CameraRigMultipleReferencesModel.WithoutNullsAppend | Runtime/CameraRigTransformers/CameraRigRemapperMultipleReferences.cs:90-91 | dropping the nulls of a concatenation drops them from each part |
| CameraRigMultipleReferencesModel.WithoutNullsNoDuplicates | Runtime/CameraRigTransformers/CameraRigRemapperMultipleReferences.cs:91 | dropping nulls keeps a list free of duplicates; see also line 104 |
| CameraRigMultipleReferencesModel.WithoutNullsIdempotent | Runtime/CameraRigTransformers/CameraRigRemapperMultipleReferences.cs:91 | dropping nulls twice is dropping them once; see also line 104 |
| CameraRigMultipleReferencesModel.CameraRigRemapperMultipleReferences.constructor | Runtime/CameraRigTransformers/CameraRigRemapperMultipleReferences.cs:63-69 | no references, valid, no observers, the target found on the game object; see also lines 117-123 |
| CameraRigMultipleReferencesModel.CameraRigRemapperMultipleReferences.GetIsValid | Runtime/CameraRigTransformers/CameraRigRemapperMultipleReferences.cs:20-27 | a missing target forces and latches the flag false |
| CameraRigMultipleReferencesModel.CameraRigRemapperMultipleReferences.SetIsValid | Runtime/CameraRigTransformers/CameraRigRemapperMultipleReferences.cs:28-36 | the value is stored only while there is a target; otherwise false |
| CameraRigMultipleReferencesModel.CameraRigRemapperMultipleReferences.SetTarget | Runtime/CameraRigTransformers/CameraRigRemapperMultipleReferences.cs:38-42 | a plain assignment of the target |
| CameraRigMultipleReferencesModel.CameraRigRemapperMultipleReferences.References | Runtime/CameraRigTransformers/CameraRigRemapperMultipleReferences.cs:43-57 | exactly the rigs of the non-null entries |
| CameraRigMultipleReferencesModel.CameraRigRemapperMultipleReferences.AddReference | Runtime/CameraRigTransformers/CameraRigRemapperMultipleReferences.cs:82-96 | a listed rig changes nothing and notifies no one; otherwise it is appended, nulls are dropped and the observers notified once when asked; no duplicate is introduced |
| CameraRigMultipleReferencesModel.CameraRigRemapperMultipleReferences.RemoveReference | Runtime/CameraRigTransformers/CameraRigRemapperMultipleReferences.cs:97-109 | an unlisted rig changes nothing; otherwise its first entry goes, nulls are dropped and the observers notified once when asked; without duplicates it is gone |
| CameraRigMultipleReferencesModel.CameraRigRemapperMultipleReferences.OnValidate | Runtime/CameraRigTransformers/CameraRigRemapperMultipleReferences.cs:117-123 | the target becomes the rig on the game object |
| CameraRigMultipleReferencesModel.CameraRigRemapperMultipleReferences.FixedUpdate | Runtime/CameraRigTransformers/CameraRigRemapperMultipleReferences.cs:124-130 | RemapOnUpdate runs exactly when the raw flag is set and the list has an entry, null or not |
| CameraRigMultipleReferencesModel.CameraRigRemapperMultipleReferences.AddObserver | Runtime/CameraRigTransformers/CameraRigRemapperMultipleReferences.cs:70 | set insertion, nothing notified |
| CameraRigMultipleReferencesModel.CameraRigRemapperMultipleReferences.RemoveObserver | Runtime/CameraRigTransformers/CameraRigRemapperMultipleReferences.cs:71 | set removal, nothing notified |
| CameraRigMixerModel.NewGroup | Runtime/CameraRigTransformers/CameraRigMixer.cs:35-48 | a weight-1 entry for exactly the rigs that have the tracker, and no other |
| CameraRigMixerModel.IndexOfRig | Runtime/CameraRigTransformers/CameraRigMixer.cs:77 | the first entry of the rig, or -1 exactly when none is; see also line 228 |
| CameraRigMixerModel.IndexOfEntry | Runtime/CameraRigTransformers/CameraRigMixer.cs:57-59 | List.IndexOf by whole-entry equality: the first equal entry, or -1 exactly when none is equal |
| CameraRigMixerModel.TryGetWeightIn | Runtime/CameraRigTransformers/CameraRigMixer.cs:228-236 | found exactly when the group has an entry of the rig, and then the first such entry's weight; 0 otherwise |
| CameraRigMixerModel.MergeAsWritten | Runtime/CameraRigTransformers/CameraRigMixer.cs:50-70 | Merge as written: the old group's tracker type and one entry per new entry |
| CameraRigMixerModel.MergeAsWrittenIsNew | Runtime/CameraRigTransformers/CameraRigMixer.cs:50-70 | the merge as written is the new group's entries under the old tracker type |
| CameraRigMixerModel.MergeAsWrittenForgets | Runtime/CameraRigTransformers/CameraRigMixer.cs:50-70 | a weight set to 0.5 goes back to 1 when the groups are rebuilt; see also lines 207-214 |
| CameraRigMixerModel.Merge | Runtime/CameraRigTransformers/CameraRigMixer.cs:56 | the corrected merge keeps the new group's rigs in its order, under the old tracker type |
| CameraRigMixerModel.MergeLookup | Runtime/CameraRigTransformers/CameraRigMixer.cs:56-67 | after the corrected merge a rig of the new group has its old weight if the old group had it, its new weight otherwise; a rig only the old group had is gone |
| CameraRigMixerModel.MergeStable | Runtime/CameraRigTransformers/CameraRigMixer.cs:50-70 | merging again with the same fresh group changes nothing |
| CameraRigMixerModel.NewGroupUniform | Runtime/CameraRigTransformers/CameraRigMixer.cs:35-48 | a freshly built group gives every rig the same entry |
| CameraRigMixerModel.MergeOld | Runtime/CameraRigTransformers/CameraRigMixer.cs:210-216 | the inner loop over the old groups of the type, with the merge as written or the corrected one, keeps the built group's rigs and tracker type |
| CameraRigMixerModel.MergeBy | Runtime/CameraRigTransformers/CameraRigMixer.cs:50-70 | either merge keeps the old tracker type and the new group's rigs in order |
| CameraRigMixerModel.MergeOldOfAsWritten | Runtime/CameraRigTransformers/CameraRigMixer.cs:210-216 | with the merge as written the inner loop hands back the freshly built group, whatever the old groups hold |
| CameraRigMixerModel.MergeAll | Runtime/CameraRigTransformers/CameraRigMixer.cs:210-216 | the inner loop, with the merge as written, computes MergeOld |
| CameraRigMixerModel.Rebuilt | Runtime/CameraRigTransformers/CameraRigMixer.cs:198-221 | one group per listed tracker type, in order, each over the rigs the fresh group has, with the merge as written or the corrected one |
| CameraRigMixerModel.RebuiltFresh | Runtime/CameraRigTransformers/CameraRigMixer.cs:192-221 | without merging, every group is freshly built and every weight is 1 |
| CameraRigMixerModel.RebuiltAsWrittenIsFresh | Runtime/CameraRigTransformers/CameraRigMixer.cs:198-221 | as written, the merging rebuild is the rebuild without merging, so every weight comes out as 1 |
| CameraRigMixerModel.RebuiltKeeps | Runtime/CameraRigTransformers/CameraRigMixer.cs:205-219 | corrected: with the intended merge, when exactly one old group has the tracker type, a rig it weighs keeps that weight |
| CameraRigMixerModel.MergeOldSingle | Runtime/CameraRigTransformers/CameraRigMixer.cs:210-216 | corrected: with one old group of the tracker type, the inner loop with the intended merge merges with it once |
| CameraRigMixerModel.SetWeightOf | Runtime/CameraRigTransformers/CameraRigMixer.cs:72-85 | every entry of the rig gets the weight; modified exactly when one of them had another weight |
| CameraRigMixerModel.SetThenGet | Runtime/CameraRigTransformers/CameraRigMixer.cs:72-85 | after SetWeightOf the rig reads back the new weight if it was there, and other rigs read what they did; see also lines 223-237 |
| CameraRigMixerModel.SetTwice | Runtime/CameraRigTransformers/CameraRigMixer.cs:72-85 | setting the same weight again reports no modification and changes nothing |
| CameraRigMixerModel.FirstGroup | Runtime/CameraRigTransformers/CameraRigMixer.cs:227 | the first group of the tracker type, or -1 exactly when none is |
| CameraRigMixerModel.TableWeight | Runtime/CameraRigTransformers/CameraRigMixer.cs:223-237 | found exactly when the first group of the type has the rig, and then its first entry's weight; 0 otherwise |
| CameraRigMixerModel.SetTableIn | Runtime/CameraRigTransformers/CameraRigMixer.cs:238-249 | the loop computes the clamped weight per matching group, and the modified flag says whether some group changed |
| CameraRigMixerModel.SetTableThenGet | Runtime/CameraRigTransformers/CameraRigMixer.cs:238-249 | groups of the type get the clamped weight, other groups are unchanged, and TryGetWeight then reads the clamped weight |
| CameraRigMixerModel.FirstGroupSame | Runtime/CameraRigTransformers/CameraRigMixer.cs:238-249 | SetWeight keeps the tracker types, so the first group of a type stays where it was |
| CameraRigMixerModel.MixedPosition | Runtime/CameraRigTransformers/CameraRigMixer.cs:87-102 | zero when the weights sum to 0 |
| CameraRigMixerModel.MixedPositionAgree | Runtime/CameraRigTransformers/CameraRigMixer.cs:87-102 | when every weighted rig has the same position, the mix is that position |
| CameraRigMixerModel.MixPair | Runtime/CameraRigTransformers/CameraRigMixer.cs:122-132 | the weights add; a zero-weight side is skipped; equal rotations mix to themselves |
| CameraRigMixerModel.MixedQuaternion | Runtime/CameraRigTransformers/CameraRigMixer.cs:133-136 | a single argument gives its rotation |
| CameraRigMixerModel.FoldWeight | Runtime/CameraRigTransformers/CameraRigMixer.cs:140-145 | the folded weight is the sum of the weights |
| CameraRigMixerModel.FoldAgree | Runtime/CameraRigTransformers/CameraRigMixer.cs:140-145 | when every weighted argument has the same rotation, a weighted fold is that rotation |
| CameraRigMixerModel.FoldUnweighted | Runtime/CameraRigTransformers/CameraRigMixer.cs:140-145 | with all weights 0 the fold ends at the last argument; see also line 125 |
| CameraRigMixerModel.MixedQuaternionSingle | Runtime/CameraRigTransformers/CameraRigMixer.cs:125-147 | one weighted argument alone decides the mix |
| CameraRigMixerModel.ArgWeightsOfSamples | Runtime/CameraRigTransformers/CameraRigMixer.cs:105-118 | the built arguments weigh what the samples weigh |
| CameraRigMixerModel.MixedRotationAgree | Runtime/CameraRigTransformers/CameraRigMixer.cs:103-120 | when every weighted rig has the same rotation, the mix is that rotation |
| CameraRigMixerModel.MixedUnweighted | Runtime/CameraRigTransformers/CameraRigMixer.cs:101-125 | with no weighted rig the position is zero and the rotation is the last rig's, or the identity when it lacks the tracker |
| CameraRigMixerModel.ZeroWeights | Runtime/CameraRigTransformers/CameraRigMixer.cs:97 | with no weighted rig the weights sum to 0 |
| CameraRigMixerModel.Blend | Runtime/CameraRigTransformers/CameraRigMixer.cs:270-293 | each policy writes the mix into its field only, position and rotation independently |
| CameraRigMixerModel.BlendOverwrite | Runtime/CameraRigTransformers/CameraRigMixer.cs:264-295 | a later blend of the same transform overwrites an earlier one |
| CameraRigMixerModel.BlendSingle | Runtime/CameraRigTransformers/CameraRigMixer.cs:264-295 | one weighted rig alone makes the blend a copy of its transform |
| CameraRigMixerModel.SingleWeight | Runtime/CameraRigTransformers/CameraRigMixer.cs:97 | one weighted rig alone makes the sum its weight |
| CameraRigMixerModel.LastGroup | Runtime/CameraRigTransformers/CameraRigMixer.cs:264-295 | the last group of the tracker type, or -1 exactly when none is |
| CameraRigMixerModel.TickedLast | Runtime/CameraRigTransformers/CameraRigMixer.cs:264-295 | after the loop a target transform holds the blend of the last group of its type, or its old values without one |
| CameraRigMixerModel.Samples | Runtime/CameraRigTransformers/CameraRigMixer.cs:94-108 | one sample per entry: its weight, and the rig's transform exactly when the rig has the tracker |
| CameraRigMixerModel.GetMixedPosition | Runtime/CameraRigTransformers/CameraRigMixer.cs:87-102 | the loop computes MixedPosition of the group's samples |
| CameraRigMixerModel.GetMixedQuaternion | Runtime/CameraRigTransformers/CameraRigMixer.cs:133-147 | the in-place fold leaves prefix folds in the array and returns the mix |
| CameraRigMixerModel.GetMixedRotation | Runtime/CameraRigTransformers/CameraRigMixer.cs:103-120 | the argument array built from the samples, folded |
| CameraRigMixerModel.MixInto | Runtime/CameraRigTransformers/CameraRigMixer.cs:268-293 | the position switch then the rotation switch write the group's blend |
| CameraRigMixerModel.MixGroup | Runtime/CameraRigTransformers/CameraRigMixer.cs:266-294 | one pass: only the target transform of the group's type changes, to the blend; reference transforms are only read |
| CameraRigMixerModel.MixFound | Runtime/CameraRigTransformers/CameraRigMixer.cs:268-294 | the target transform found for the type gets the group's blend of the entries read before the write, and every group's entries stay as they were |
| CameraRigMixerModel.MixAll | Runtime/CameraRigTransformers/CameraRigMixer.cs:264-295 | every target transform ends as TickedLast says, from the values before the tick |
| CameraRigMixerModel.CameraRigMixer.constructor | Runtime/CameraRigTransformers/CameraRigMixer.cs:169-176 | no trackers, no groups, both policies None, not modified |
| CameraRigMixerModel.CameraRigMixer.InitializeMixedTrackerGroups | Runtime/CameraRigTransformers/CameraRigMixer.cs:190-222 | nulls dropped when asked; the table rebuilt from the non-null references through the merge as written, so every weight is 1 whether or not merging was asked |
| CameraRigMixerModel.BuildTable | Runtime/CameraRigTransformers/CameraRigMixer.cs:204-219 | one group per tracker type, in list order, each the fresh group run through the merge as written with the old groups of its type (Rebuilt) |
| CameraRigMixerModel.CameraRigMixer.AddReference | Runtime/CameraRigTransformers/CameraRigMixer.cs:180-184 | the base's AddReference with notice, then a merging rebuild as written over the null-free list, every weight 1 |
| CameraRigMixerModel.CameraRigMixer.RemoveReference | Runtime/CameraRigTransformers/CameraRigMixer.cs:185-189 | the base's RemoveReference with notice, then a merging rebuild as written over the null-free list, every weight 1 |
| CameraRigMixerModel.CameraRigMixer.TryGetWeight | Runtime/CameraRigTransformers/CameraRigMixer.cs:223-237 | the weight of the rig in the first group of the type |
| CameraRigMixerModel.CameraRigMixer.SetWeight | Runtime/CameraRigTransformers/CameraRigMixer.cs:238-249 | the table per SetTable, and the modified flag raised exactly when a weight changed |
| CameraRigMixerModel.CameraRigMixer.AddWeight | Runtime/CameraRigTransformers/CameraRigMixer.cs:250-257 | a found weight plus delta, clamped, is set; nothing changes when none is found |
| CameraRigMixerModel.CameraRigMixer.RemapOnUpdate | Runtime/CameraRigTransformers/CameraRigMixer.cs:261-296 | every target transform ends with the blend of the last group of its type |
| CameraRigMixerModel.CameraRigMixer.OnValidate | Runtime/CameraRigTransformers/CameraRigMixer.cs:300-304 | the target found again, nulls kept, the table rebuilt with the merge as written, every weight 1 |
| CameraRigMixerModel.CameraRigMixer.Awake | Runtime/CameraRigTransformers/CameraRigMixer.cs:305-309 | nulls dropped and the table rebuilt with the merge as written, every weight 1 |
| CameraRigMixerModel.CameraRigMixer.FixedUpdate | Runtime/CameraRigTransformers/CameraRigRemapperMultipleReferences.cs:124-130 | the mix runs exactly when the raw flag is set and the list has an entry |
| LegacyPoseMixerModel.PoseMixer.constructor | Runtime/PoseMixer.cs:23-38 | the serialized defaults: no poses, no saved list, no groups, valid, an empty observer set; see also lines 179-180, 326, 338-339 |
| LegacyPoseMixerModel.PoseMixer.SetPose | Runtime/PoseMixer.cs:25-29 | the result pose is assigned and nothing else changes |
| LegacyPoseMixerModel.PoseMixer.GetIsValid | Runtime/PoseMixer.cs:340-349 | the returned flag is the stored one, which a missing result pose forces false and keeps false |
| LegacyPoseMixerModel.PoseMixer.SetIsValid | Runtime/PoseMixer.cs:350-358 | the flag becomes the value exactly when there is a result pose, and false otherwise |
| LegacyPoseMixerModel.PoseMixer.InitializeMixedBoneGroups | Runtime/PoseMixer.cs:212-239 | the table becomes the rebuilt table: one group per label of the result pose, each merged with the old groups of that label when merging is asked for |
| LegacyPoseMixerModel.PoseMixer.AddPose | Runtime/PoseMixer.cs:186-195 | the pose is appended even when it is already listed, and the table is rebuilt with merging |
| LegacyPoseMixerModel.PoseMixer.RemovePose | Runtime/PoseMixer.cs:200-207 | an absent pose changes nothing; a listed one loses its first occurrence and the table is rebuilt with merging |
| LegacyPoseMixerModel.PoseMixer.SearchWeightOf | Runtime/PoseMixer.cs:247-261 | the same first-group, first-entry lookup as the current mixer's table lookup, failing with weight 0 |
| LegacyPoseMixerModel.PoseMixer.SetWeightOf | Runtime/PoseMixer.cs:163-174 | every group of the label stores the clamped weight for every entry of the pose, and nothing else changes; see also lines 268-278 |
| LegacyPoseMixerModel.PoseMixer.AddWeightOf | Runtime/PoseMixer.cs:316-323 | without a stored weight nothing changes; otherwise the stored weight plus delta, clamped to 0-1 (not to the given bounds), is set as SetWeightOf sets it |
| LegacyPoseMixerModel.PoseMixer.OnValidate | Runtime/PoseMixer.cs:360-388 | the result pose becomes the found one; the table is rebuilt exactly when the list differs from the saved list, which then becomes the current list |
| LegacyPoseMixerModel.PoseMixer.Mix | Runtime/PoseMixer.cs:395-446 | every group of the result pose is the weighted mix of the given poses' groups of its label, scaled by the table's weights |
| LegacyPoseMixerModel.PoseMixer.FixedUpdate | Runtime/PoseMixer.cs:448-462 | mixing happens exactly when the latching validity holds; then the null poses are dropped, the table is rebuilt only if there were any, the poses are mixed, and every observer is notified once; otherwise nothing but the latch changes |
| LegacyPoseMixerModel.PoseMixer.ValidTick | Runtime/PoseMixer.cs:450-461 | the valid branch: the list without nulls, the table rebuilt only when a null was dropped, the mix computed with them, every observer notified once |
| LegacyPoseMixerModel.PoseMixer.AddObserver | Runtime/PoseMixer.cs:326-327 | the observer joins the set and no one is notified |
| LegacyPoseMixerModel.PoseMixer.RemoveObserver | Runtime/PoseMixer.cs:328 | the observer leaves the set and no one is notified |
| PoseMapperModel.FoundRig | Runtime/PoseTransformers/PoseMapper.cs:114 | a rig component resolves to itself; any other component to the rig on its game object, if there is one |
| PoseMapperModel.AsComponent | Runtime/PoseTransformers/PoseMapper.cs:93 | null becomes no component; a rig becomes a component that resolves back to that same rig |
| PoseMapperModel.FoundPose | Runtime/PoseTransformers/PoseMapper.cs:121-125 | the Pose on the game object when there is one, else the one found on a parent |
| PoseMapperModel.HookFor | Runtime/PoseTransformers/PoseMapper/IKMapper.cs:26-34 | ResetIKTargets exactly for a null rig, otherwise SetIKTargets with that rig |
| PoseMapperModel.PoseMapper.constructor | Runtime/PoseTransformers/PoseMapper.cs:59-66 | the serialized defaults: valid, not modified, no rig resolved, no notice yet; see also line 78 |
| PoseMapperModel.PoseMapper.GetIsValid | Runtime/PoseTransformers/PoseMapper.cs:19-26 | the returned flag is the stored one, which a missing target forces false and keeps false |
| PoseMapperModel.PoseMapper.SetIsValid | Runtime/PoseTransformers/PoseMapper.cs:27-35 | the flag becomes the value exactly when there is a target, and false otherwise |
| PoseMapperModel.PoseMapper.SetTarget | Runtime/PoseTransformers/PoseMapper.cs:38-42 | the target is assigned and nothing else changes |
| PoseMapperModel.PoseMapper.SetCameraRigWithoutNotice | Runtime/PoseTransformers/PoseMapper.cs:91-95 | the serialized component and the rig both become the given rig, so the two agree |
| PoseMapperModel.PoseMapper.SetReference | Runtime/PoseTransformers/PoseMapper.cs:47-55 | the rig is set as without notice, and Notify is called exactly once whether or not anything changed |
| PoseMapperModel.PoseMapper.Awake | Runtime/PoseTransformers/PoseMapper.cs:108-118 | no component: a null rig is set and announced; a component that resolves: its rig is set and announced and the component becomes that rig; a component that does not resolve: nothing changes and nothing is announced |
| PoseMapperModel.PoseMapper.OnValidate | Runtime/PoseTransformers/PoseMapper.cs:119-142 | the target is the Pose found on the object or a parent; the rig is resolved again, a component that does not resolve is cleared, nothing is announced, and afterwards component and rig agree |
| PoseMapperModel.PoseMapper.Update | Runtime/PoseTransformers/PoseMapper.cs:143-151 | the modified flag is cleared, and MapOnUpdate runs exactly when the latching validity holds |
| PoseMapperModel.IKMapper.constructor | Runtime/PoseTransformers/PoseMapper.cs:59-66 | the base's serialized defaults and no IK hook calls; see also line 78 |
| PoseMapperModel.IKMapper.SetCameraRigWithoutNotice | Runtime/PoseTransformers/PoseMapper/IKMapper.cs:24-35 | only the rig is assigned (the component keeps its value) and exactly one IK hook matching the rig is called |
| PoseMapperModel.IKMapper.SetReference | Runtime/PoseTransformers/PoseMapper/IKMapper.cs:14-22 | the overridden assignment with its one IK hook, then exactly one Notify |
| PoseMapperModel.IKMapper.Awake | Runtime/PoseTransformers/PoseMapper.cs:108-118 | the base's three cases dispatched to the override: the component is never rewritten, every assignment calls one IK hook and one Notify, an unresolved component changes nothing |
| LegacyPoseMapperModel.PoseMapper.constructor | Runtime/PoseMapper.cs:12-14 | the serialized defaults: valid, no rig resolved, an empty observer set; see also lines 24-25, 31-32, 55 |
| LegacyPoseMapperModel.PoseMapper.SetPose | Runtime/PoseMapper.cs:26-30 | the pose is assigned and nothing else changes |
| LegacyPoseMapperModel.PoseMapper.GetIsValid | Runtime/PoseMapper.cs:35-42 | the returned flag is the stored one, which a missing pose forces false and keeps false |
| LegacyPoseMapperModel.PoseMapper.SetIsValid | Runtime/PoseMapper.cs:43-51 | the flag becomes the value exactly when there is a pose, and false otherwise |
| LegacyPoseMapperModel.PoseMapper.AddObserver | Runtime/PoseMapper.cs:55-56 | the observer joins the set and no one is notified |
| LegacyPoseMapperModel.PoseMapper.RemoveObserver | Runtime/PoseMapper.cs:57 | the observer leaves the set and no one is notified |
| LegacyPoseMapperModel.PoseMapper.SetCameraRigWithoutNotice | Runtime/PoseMapper.cs:72-75 | only the rig is assigned; the serialized component keeps its value, so the two may disagree |
| LegacyPoseMapperModel.PoseMapper.SetCameraRig | Runtime/PoseMapper.cs:15-23 | the rig is set without notice, then every observer is notified exactly once, whether or not anything changed; see also lines 58-64 |
| LegacyPoseMapperModel.PoseMapper.Awake | Runtime/PoseMapper.cs:77-87 | no component: a null rig is set and announced; a component that resolves: its rig is set and announced; one that does not resolve: nothing changes and no one is notified; the component is never rewritten |
| LegacyPoseMapperModel.PoseMapper.OnValidate | Runtime/PoseMapper.cs:88-107 | the pose becomes the one found on the object; the rig is resolved again, a component that does not resolve is cleared, nothing is announced, and afterwards component and rig agree |
| LegacyPoseMapperModel.PoseMapper.FixedUpdate | Runtime/PoseMapper.cs:108-114 | MapOnUpdate runs exactly when the latching validity holds |
| LegacyPoseMapperModel.IKMapper.constructor | Runtime/PoseMapper.cs:12-14 | the base's serialized defaults and no IK hook calls; see also lines 24-25, 31-32, 55 |
| LegacyPoseMapperModel.IKMapper.SetCameraRig | Runtime/IKMapper.cs:9-23 | the rig is assigned, exactly one IK hook matching the rig is called, and no observer is notified |
| LegacyPoseMapperModel.IKMapper.Awake | Runtime/PoseMapper.cs:77-87 | the base's three cases dispatched to the override: every assignment calls one IK hook and nothing is announced; an unresolved component changes nothing |
| LegacyPoseMapperModel.IKMapper.FixedUpdate | Runtime/PoseMapper.cs:108-114 | MapOnUpdate is empty, so a tick changes only the validity latch; see also Runtime/IKMapper.cs:24 |
| HandMapperModel.BoneOf | Runtime/VR/OVR/OVRHandMapper.cs:80-95 | the avatar's transform of the bone, or null when the avatar has none |
| HandMapperModel.InitField | Runtime/VR/OVR/OVRHandMapper.cs:55-95 | the joint follows its bone's tracker on the chosen hand, keeps its offset, and takes the avatar's bone as target exactly on a humanoid avatar |
| HandMapperModel.FingerRotation | Runtime/VR/OVR/OVRHandMapper.cs:34-41 | no tracker of the joint's type leaves the rotation as it was; otherwise it is the tracker's rotation in the offset's frame, the tracker's own rotation under an identity offset |
| HandMapperModel.DoubleRotation | Runtime/VR/OVR/OVRHandMapper.cs:42-51 | a missing tracker of either type leaves the rotation as it was; otherwise it is the product of both trackers' rotations, each in its offset's frame |
| HandMapperModel.SetFinger | Runtime/VR/OVR/OVRHandMapper.cs:34-41 | a joint without target writes nothing; a joint with one leaves its target's local rotation as FingerRotation says |
| HandMapperModel.SetDouble | Runtime/VR/OVR/OVRHandMapper.cs:42-51 | a joint without target writes nothing; a joint with one leaves its target's local rotation as DoubleRotation says |
| HandMapperModel.MapFingers | Runtime/VR/OVR/OVRHandMapper.cs:176-182 | the walk over the set, in any order, leaves every targeted joint as FingerRotation says from the values before the walk |
| HandMapperModel.MapDoubles | Runtime/VR/OVR/OVRHandMapper.cs:184-190 | the walk over the set of double joints, in any order, leaves every targeted joint as DoubleRotation says |
| HandMapperModel.CopiesSize | Runtime/VR/OVR/OVRHandMapper.cs:99-116 | a HashSet built from joints whose bones strictly ascend holds one copy per joint |
| HandMapperModel.RunSize | Runtime/VR/OVR/OVRHandMapper.cs:99-116 | joints that follow ascending bones of one hand make a HashSet of one copy per joint |
| HandMapperModel.RunMembers | Runtime/VR/OVR/OVRHandMapper.cs:99-116 | such joints follow trackers of that hand and of the listed bones only |
| HandMapperModel.RunTargets | Runtime/VR/OVR/OVRHandMapper.cs:80-116 | such joints, given the avatar's bones as targets, each drive the bone of their own tracker |
| HandMapperModel.HandMapper.constructor | Runtime/PoseTransformers/PoseMapper/HandMapper.cs:37-41 | the base's serialized defaults, the chosen hand, and no Initialize yet |
| HandMapperModel.HandMapper.InitializeOffset | Runtime/PoseTransformers/PoseMapper/HandMapper.cs:47 | the default changes no state of the mapper or its base |
| HandMapperModel.HandMapper.OnValidate | Runtime/PoseTransformers/PoseMapper/HandMapper.cs:59-63 | the PoseMapper's OnValidate (the target found on the object or a parent; no component gives no rig, a resolving component is kept with its rig, one that does not resolve is cleared), then one Initialize, which sees the target and rig that step leaves; see also Runtime/PoseTransformers/PoseMapper.cs:119-142 |
| HandMapperModel.HandMapper.Awake | Runtime/PoseTransformers/PoseMapper/HandMapper.cs:64-68 | the PoseMapper's Awake (no component assigns and announces a null rig, a resolving component assigns and announces its rig, one that does not resolve changes and announces nothing), then one Initialize, which sees the rig that step leaves; see also Runtime/PoseTransformers/PoseMapper.cs:108-118 |
| OVRHandMapperModel.InitStub | Runtime/VR/OVR/OVRHandMapper.cs:56 | the forearm stub follows its tracker on the chosen hand and keeps its offset and target |
| OVRHandMapperModel.InitDouble | Runtime/VR/OVR/OVRHandMapper.cs:57-58 | a double joint follows the trackers of two consecutive bones on the chosen hand and takes the second bone as target on a humanoid avatar; see also lines 70-71, 81, 93 |
| OVRHandMapperModel.SingleBonesAscending | Runtime/VR/OVR/OVRHandMapper.cs:99-116 | the bones of m_fingers' initializer ascend and leave out the wrist and the forearm stub |
| OVRHandMapperModel.InitializedSingleCount | Runtime/VR/OVR/OVRHandMapper.cs:99-116 | after Initialize m_fingers holds thirteen distinct joints |
| OVRHandMapperModel.InitializedSingleMembers | Runtime/VR/OVR/OVRHandMapper.cs:99-116 | after Initialize m_fingers holds joints of the chosen hand only, and neither the wrist nor the forearm stub |
| OVRHandMapperModel.InitializedDoubles | Runtime/VR/OVR/OVRHandMapper.cs:117-121 | after Initialize m_doubleFingers holds exactly the thumb and little-finger bases, both of the chosen hand |
| OVRHandMapperModel.InitializedTargets | Runtime/VR/OVR/OVRHandMapper.cs:78-116 | on a humanoid avatar every joint of m_fingers drives the avatar's bone of its own tracker |
| OVRHandMapperModel.InitializedDoubleTargets | Runtime/VR/OVR/OVRHandMapper.cs:117-121 | on a humanoid avatar both double joints drive the avatar's bone of their second tracker; see also lines 81, 93 |
| OVRHandMapperModel.OffsetTable | Runtime/VR/OVR/OVRHandMapper.cs:126-172 | the offset table's shape: the wrist and stub keep the identity; the right hand mirrors the left in the first angle, keeps the third, and turns the second by half a turn on the thumb's distal joints and the little finger's second offset |
| OVRHandMapperModel.OffsetsKeepInitialization | Runtime/VR/OVR/OVRHandMapper.cs:52-172 | InitializeOffset and Initialize commute: offsets and trackers/targets are separate fields |
| OVRHandMapperModel.InitializeIdempotent | Runtime/VR/OVR/OVRHandMapper.cs:52-122 | initializing twice is initializing once |
| OVRHandMapperModel.OVRHandMapper.constructor | Runtime/VR/OVR/OVRHandMapper.cs:13-32 | the serialized joints and hand, with both sets empty |
| OVRHandMapperModel.OVRHandMapper.Initialize | Runtime/VR/OVR/OVRHandMapper.cs:52-122 | every field is initialized for the chosen hand and both sets are rebuilt as copies of the fields |
| OVRHandMapperModel.OVRHandMapper.InitializeOffset | Runtime/VR/OVR/OVRHandMapper.cs:126-172 | every field gets the offsets of the chosen hand's table; the sets keep their old copies |
| OVRHandMapperModel.OVRHandMapper.MapOnUpdate | Runtime/VR/OVR/OVRHandMapper.cs:174-191 | every targeted joint of both sets is driven by its trackers, from the values before the walk |
| OVRHandMapperModel.OVRHandMapper.OnValidate | Runtime/PoseTransformers/PoseMapper/HandMapper.cs:59-63 | the PoseMapper's OnValidate with its three cases for the rig component (none, resolving, not resolving: cleared), then Initialize; see also Runtime/PoseTransformers/PoseMapper.cs:119-142 |
| OVRHandMapperModel.OVRHandMapper.Awake | Runtime/PoseTransformers/PoseMapper/HandMapper.cs:64-68 | the PoseMapper's Awake with its three cases (no component: a null rig announced; a resolving one: its rig assigned and announced; one that does not resolve: rig, component and announcements unchanged), then Initialize; see also Runtime/PoseTransformers/PoseMapper.cs:108-118 |
| OVRHandMapperModel.OVRHandMapper.Update | Runtime/PoseTransformers/PoseMapper.cs:143-151 | the modified flag is cleared; mapping happens exactly when the latching validity holds, and then every targeted joint is driven as MapOnUpdate says; otherwise no bone changes |
| XRIHandMapperModel.FingerBonesAscending | Runtime/VR/XRHands/XRIHandMapper.cs:100-107 | the bones of m_fingers' initializer ascend and leave out the wrist |
| XRIHandMapperModel.InitializedCount | Runtime/VR/XRHands/XRIHandMapper.cs:100-107 | after Initialize m_fingers holds fifteen distinct joints |
| XRIHandMapperModel.InitializedMembers | Runtime/VR/XRHands/XRIHandMapper.cs:100-107 | after Initialize m_fingers holds joints of the chosen hand only, and not the wrist |
| XRIHandMapperModel.InitializedTargets | Runtime/VR/XRHands/XRIHandMapper.cs:79-107 | on a humanoid avatar the wrist drives the hand bone and every joint of m_fingers the avatar's bone of its own tracker |
| XRIHandMapperModel.InitializeIdempotent | Runtime/VR/XRHands/XRIHandMapper.cs:56-108 | initializing twice is initializing once |
| XRIHandMapperModel.XRIHandMapper.constructor | Runtime/VR/XRHands/XRIHandMapper.cs:14-32 | the serialized joints and hand, an empty set of joints, an empty observer set |
| XRIHandMapperModel.XRIHandMapper.AddObserver | Runtime/VR/XRHands/XRIHandMapper.cs:36 | the observer joins the set and no one is notified |
| XRIHandMapperModel.XRIHandMapper.RemoveObserver | Runtime/VR/XRHands/XRIHandMapper.cs:37 | the observer leaves the set and no one is notified |
| XRIHandMapperModel.XRIHandMapper.Notify | Runtime/VR/XRHands/XRIHandMapper.cs:38-44 | every observer is notified exactly once |
| XRIHandMapperModel.XRIHandMapper.SetReference | Runtime/PoseTransformers/PoseMapper.cs:47-55 | component and rig both become the given rig, and the overridden Notify reaches every observer once; see also lines 91-95 |
| XRIHandMapperModel.XRIHandMapper.Initialize | Runtime/VR/XRHands/XRIHandMapper.cs:56-108 | every field is initialized for the chosen hand and the set is rebuilt as copies of the fifteen finger fields |
| XRIHandMapperModel.XRIHandMapper.InitializeOffset | Runtime/VR/XRHands/XRIHandMapper.cs:109-112 | every call raises and nothing changes |
| XRIHandMapperModel.XRIHandMapper.MapOnUpdate | Runtime/VR/XRHands/XRIHandMapper.cs:113-122 | every targeted joint of the set is driven by its tracker, from the values before the walk |
| XRIHandMapperModel.XRIHandMapper.OnValidate | Runtime/PoseTransformers/PoseMapper/HandMapper.cs:59-63 | the PoseMapper's OnValidate with its three cases for the rig component (none, resolving, not resolving: cleared), then Initialize; see also Runtime/PoseTransformers/PoseMapper.cs:119-142 |
| XRIHandMapperModel.XRIHandMapper.Awake | Runtime/PoseTransformers/PoseMapper/HandMapper.cs:64-68 | the PoseMapper's three cases, each assignment announced to this mapper's observers once, then Initialize; see also Runtime/PoseTransformers/PoseMapper.cs:108-118 |
| XRIHandMapperModel.XRIHandMapper.Update | Runtime/PoseTransformers/PoseMapper.cs:143-151 | the modified flag is cleared; mapping happens exactly when the latching validity holds, and then every targeted joint is driven as MapOnUpdate says; otherwise no bone changes |
| NetworkGUIStateMachineModel.TransitEventsShape | Runtime/Network/GUI/NetworkGUIStateMachine.cs:34-41 | no invocation exactly when the state does not change; otherwise the old state's OnExit first (when there is one) and the new state's OnEnter last (when there is one), never an OnUpdate |
| NetworkGUIStateMachineModel.Selected | Runtime/Network/GUI/NetworkGUIStateMachine.cs:55-66 | a client (host included) selects the client state, else a server the server state, else the offline state |
| NetworkGUIStateMachineModel.UpdateCount | Runtime/Network/GUI/NetworkGUIStateMachine.cs:68 | the number of OnUpdate invocations, at most the length of the log |
| NetworkGUIStateMachineModel.UpdateCountAppend | Runtime/Network/GUI/NetworkGUIStateMachine.cs:52-69 | OnUpdate counts add up over concatenated logs |
| NetworkGUIStateMachineModel.UpdateCountQuiet | Runtime/Network/GUI/NetworkGUIStateMachine.cs:34-41 | a log without OnUpdate counts none |
| NetworkGUIStateMachineModel.RunUpdatesOncePerFrame | Runtime/Network/GUI/NetworkGUIStateMachine.cs:52-69 | a run of Updates fires exactly one OnUpdate per frame |
| NetworkGUIStateMachineModel.SteadyRunQuiet | Runtime/Network/GUI/NetworkGUIStateMachine.cs:52-69 | while the status keeps selecting the current state, a run fires only that state's OnUpdate, once per frame, and no OnEnter or OnExit |
| NetworkGUIStateMachineModel.Final | Runtime/Network/GUI/NetworkGUIStateMachine.cs:55-66 | the state a run ends in: the one the last status selects, or the starting state for an empty run |
| NetworkGUIStateMachineModel.RunSplit | Runtime/Network/GUI/NetworkGUIStateMachine.cs:52-69 | a run extended by one frame is the run followed by that frame's Update from the state the run ended in |
| NetworkGUIStateMachineModel.NetworkGUIStateMachine.constructor | Runtime/Network/GUI/NetworkGUIStateMachine.cs:13-30 | the three serialized states, no current state, no invocations yet |
| NetworkGUIStateMachineModel.NetworkGUIStateMachine.Transit | Runtime/Network/GUI/NetworkGUIStateMachine.cs:34-41 | the current state becomes the next one and the log grows by exactly TransitEvents |
| NetworkGUIStateMachineModel.NetworkGUIStateMachine.Update | Runtime/Network/GUI/NetworkGUIStateMachine.cs:52-69 | the current state becomes the selected one and the log grows by that transition followed by the selected state's OnUpdate |

## Left out

- Netcode transport and RPC glue: every Network wrapper of a transformer, the player spawner, the network poses, the client, the network behaviours and the network manager. It is replication plumbing over an external library. ServerCameraRig's dictionary update and its registry are modelled.
- VR SDK adapters: the OVR, XRI, XR Hands and SteamVR local rigs and the OVR GUI scaler. They only fill tracker dictionaries from platform objects.
- Runtime/IK/FinalIK/VRIKMapper.cs is not part of this model. It assigns fields of a third-party IK solver whose code is not available. The IK mappers' SetIKTargets/ResetIKTargets hooks are logged as calls (`IKCall`).
- IMGUI and UI: the mixers' OnGUI/DrawGUI sections, the offline and client network GUIs, the pooled buttons, toggles and avatars with their pool managers, the mapper and remapper controllers, and Pose.ShowWeightHandlerForMixer. These are drawing and button glue.
- The Editor folder and ComponentRestrictionAttribute: inspector code only.
- Singleton: it depends on the engine's object search.
- The obsolete SetGraduallyWeight/SetGraduallyWeightOf coroutines: they depend on frame timing (Time.deltaTime).
- Floating point: Slerp, quaternion normalisation, Euler decomposition, the read-back of localEulerAngles and IEEE rounding are not modelled. Quaternions are symbolic terms and weights and positions are exact reals. So a mix is stated as the term it builds, not as a numeric rotation.
- The scene graph: a Transform's world and local fields are independent, so writing one does not move the other.
- Interfaces (ICameraRig, IPoseTransformer, ISynthesizer, ICommand, the observer interface) are not modelled as types of their own. Observers are identities in an observer set, and a subclass holds its base class as a `base` object. Virtual dispatch is resolved by the subclass's method calling the base's, or by the base returning a flag when it would call the abstract hook.
- The legacy Pose API (BoneGroups, Bones, RootBone, BoneLocalRotations) is not part of this model. The legacy transformers use the current Pose model in its place.
- The twins Runtime/TrackerType.cs, Runtime/LocalCameraRig.cs and Runtime/Network/ServerCameraRig.cs, and the abstract CustomLocalCameraRig files, repeat or only declare what the modelled files define.
- CameraRigType is a plain enumeration with no behaviour.
- The tracker dictionary (a serializable dictionary) is a sequence of key/transform entries in enumeration order.
- The Animator bone lookup of the hand mappers' Initialize is a fixed map from hand bone to Transform (`BoneOf`, null when absent) plus a flag saying whether the animator is humanoid. GetComponent/TryGetComponent are the fixed functions `FoundRig`, `FoundPose` and `AsComponent` of a component reference, or a `found` parameter.
- UnityEvent listeners of the network GUI states are not modelled: only the order of the invocations is logged.
- NetworkGUIStateMachineModel.NetworkGUIStateMachine.Update: an Update before Start, with no network manager yet, is not modelled. Its status is a parameter, and a serialized state is never null.
- Utilities.WindowIds.GetWindowId: the ids are distinct and increasing only until the counter reaches the largest 32-bit integer. There, the model wraps as the C# increment does.
- OVRHandMapperModel.OVRHandMapper.MapOnUpdate: it reads the rig as its base's reference. The source names an m_cameraRig field, which the current PoseMapper does not declare.
- Two classes named PoseMapper (and two named IKMapper and PoseMixer) sit in the same namespace across the two API generations. Each is its own module here.
- CameraRigMixerModel.CameraRigMixer: its base class, which is generic in the source, is the non-generic CameraRigRemapperMultipleReferences.
- Mapping bones of RotationTransformation and PoseMirror are non-null Transforms, where a null bone would make the source throw.
- PoseMixerModel.PoseMixer.AddPose and LegacyPoseMixerModel.PoseMixer.AddPose: a null pose that is already listed would make the source's warning dereference it. They require a listed pose to be non-null.
- PoseMixerModel.PoseMixer.InitializeMixedJointGroups, RemovePose, OnValidate, Update, RemapOnUpdate, PoseMixerModel.RebuildTable and PoseMixerModel.MixPoses: these require every listed pose to have a joint group (`Searchable`). On a pose with no group, TrySearchFromLabel indexes the first group and throws.
- LegacyPoseMixerModel.PoseMixer.InitializeMixedBoneGroups, RemovePose, OnValidate, Mix, FixedUpdate and ValidTick: the same `Searchable` requirement.
- PoseMixerModel.MixPoses and LegacyPoseMixerModel.PoseMixer.Mix: these require `Mixable`. The target is not a reference, its groups share no joint, and no target joint is a reference joint. Without that, the model's statement of which rotation each joint ends with would depend on aliasing.
- LegacyPoseMixerModel.PoseMixer.ValidTick: the tick stores the weight-table fields after mixing and notifying, not in the source's order. No observer reads the table during the tick.
- PoseOffsetterModel.PoseOffsetter.RemapOnUpdate, FixedUpdate and PoseOffsetterModel.OffsetAll: these require `Offsettable`. All three poses are present, the reference and offset poses are at least as long as the result, and the result's bones are distinct from each other and from the reference and offset bones.
- CameraRigs.SyncAll, CameraRigs.ServerCameraRig.UpdateTrackerTransforms and CameraRigs.LocalCameraRig.NotifyObserver: these require `Syncable`/`Observable`. A server rig's transforms are distinct and not the local rig's, and two observers share no transform.
- CameraRigIdentityModel.CopyAll, CameraRigIdentityModel.CameraRigIdentity.RemapOnUpdate and FixedUpdate: the same `Syncable` requirement between target and reference.
- CameraRigIdentityModel.Identified, CopyKey and CopyAll: a tracker entry always holds a transform, so the source's skip of a tracker whose target or reference transform is null (Runtime/CameraRigTransformers/CameraRigIdentity.cs:61-62) is not modelled; a rig's dictionary of the model holds present transforms only.
- CameraRigMixerModel.CameraRigMixer.RemapOnUpdate, FixedUpdate, CameraRigMixerModel.MixAll and MixGroup: these require a target whose dictionary has unique keys and distinct transforms, none of them a reference rig's. A null target would throw in the source.
- HandMapperModel.MapFingers and HandMapperModel.MapDoubles: these require that no two joints of the set drive one bone and that no joint drives a tracker transform. A HashSet walk has no fixed order, and only then is its outcome order-independent.
- OVRHandMapperModel.OVRHandMapper.MapOnUpdate, Update, XRIHandMapperModel.XRIHandMapper.MapOnUpdate and Update: these require `Mappable`, the separation above plus a rig. The source dereferences the rig only while walking a joint that has a target (Runtime/VR/OVR/OVRHandMapper.cs:36-37, Runtime/VR/XRHands/XRIHandMapper.cs:50-51), so a null rig throws only when some joint has one; the model asks for a rig in every case.
- PoseBoneRedirectorModel.PoseBoneRedirector.RemapOnUpdate and FixedUpdate: these require `Ready`. The result pose has the named bone, and so does the reference whenever a policy reads it. Otherwise the source throws.
- PoseDelayerModel.PoseDelayer.RemapOnUpdate and FixedUpdate, PoseRootBoneRedirectorModel.PoseRootBoneRedirector.RemapOnUpdate and Update, and LegacyRootBoneRedirectorModel.LegacyRootBoneRedirector.RemapOnUpdate: these require the poses they dereference to be present. Otherwise the source throws.
- PoseMirrorModel.PoseMirror.GetPairLabels, InitializePairs and InitializePairsByDefault: these require non-empty left and right labels. With an empty left keyword every label contains it, and `label.Replace("", "")` throws ArgumentException at Runtime/PoseTransformers/PoseRemapper/PoseMirror.cs:179; an empty right keyword throws the same way at line 183 once some label contains the left one. They also require a target pose, which the source dereferences before anything else.
- XRIHandMapperModel.XRIHandMapper.InitializeOffset: the exception it throws is a `raised` flag.
- PoseModel.TryAddPair: the short-result exception is a `raised` flag. The method requires result's joints to be distinct and no operand joint to share a transform with a result joint at another index. With such aliasing a later write would change an operand the loop still reads.
- PoseModel.TryAdd: the exception of a group too short to index is a `raised` flag. The method requires result's joints to be distinct and apart from every group's joints, for the same reason.
- PoseModel.CopyRotations: the exception of a group shorter than result is a `raised` flag. The method requires result's joints to be distinct and apart from the group's joints, for the same reason.
- PoseDelayerModel.PoseDelayer.Initialize, SetDelayFixedFrame and their counterparts in PoseBoneRedirectorModel, PoseRootBoneRedirectorModel and LegacyRootBoneRedirectorModel: the exception of a negative delay is a `raised` flag. The components start from the serialized default delay, so a first Initialize that raises and leaves no queue at all is not modelled.

## Findings

| source | as written | input that shows it | evidently intended | confidence | as-written member | corrected member |
|---|---|---|---|---|---|---|
| Runtime/Utility/Utilities.cs:116-120 | GetNumberWord returns a bare "1st", "2nd" or "3rd" for a positive number ending in 1, 2 or 3 outside the teens, and "ERROR" for one ending in 0 | 20 gives "ERROR"; 21 gives "1st" | the number followed by its suffix: "20th", "21st" | not executed | Utilities.NumberWordAsWrittenCounterexample | Utilities.GetNumberWord |
| Runtime/CameraRigTransformers/CameraRigMixer.cs:56-66 | Merge looks up the new entry in the old group with List.Contains/IndexOf, which compare the whole (rig, weight) struct, so an old weight survives only when it equals the new entry's weight of 1 | a rig whose weight was set to 0.5 is back at 1 after the reference list is rebuilt | keep the old entry of the same rig, as the comment on line 56 says | not executed | CameraRigMixerModel.MergeAsWrittenForgets | CameraRigMixerModel.RebuiltKeeps |
