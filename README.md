# OpenXR hand pose replication, gesture input state, filters and settings in Dafny

This project models the logic of the OpenXRExpansionPlugin (an Unreal Engine
plugin for OpenXR hand tracking) that survives without the engine. It covers
five parts:

- **Skeletal replication.** A hand skeleton is an array of 26 joint transforms,
  numbered as in the `XrHandJointEXT` enumeration of the XR_EXT_hand_tracking
  extension to OpenXR 1.0. `FBPXRSkeletalRepContainer` packs the joints worth
  sending into a compact array. It drops the palm, the five tips and, with
  "hand-rep savings" on, the four finger metacarpals. `CopyReplicatedTo`
  scatters the compact array back into a 26-joint skeleton.
- **Smoothing and the pose component.** On remote machines,
  `FTransformLerpManager` blends each newly received pose in over one network
  update interval. The component's OnRep handlers and server RPC unpack a
  received container into the first action of the matching hand. The
  animation proxy copies the component's actions every frame.
- **Gesture types and validation.** The gesture template types (five finger
  requirements per gesture), the hand-side bit test, and the editor-time
  validator of a gesture database. `EOpenXRGestureFingerState`
  (`OpenXRHandGestures.h:14-20`) has four values: INVALID, IGNORED, CLOSED and
  EXTENDED. There is no pinched finger state, although the settings carry
  pinch thresholds. `IsDataValid` (`OpenXRHandGestures.cpp:19-38`) checks
  each gesture's name, display name and hand, and never its fingers: a
  gesture whose five fingers are all IGNORED passes
  (`AllIgnoredGesturePasses`).
- **Gesture input state.** A table of one button flag per gesture name,
  seeded to "released" from the database. Get and Set demand that the name
  is present.
- **Filters and settings.** The exponential, simple and one-euro low-pass
  filters used for fingertip positions. The global settings, with their
  defaults and the range-checked threshold lookups.

Files:

- `joints.dfy` (`HandJoints`): joint numbering, the opaque `Transform`, and
  which joints travel in which packed slot.
- `replication.dfy` (`SkeletalReplication`): the action record, the
  `RepContainer` class, and pack/unpack with the round trip.
- `lerp.dfy` (`TransformLerp`): the `TransformLerpManager` class and its
  specification on values.
- `pose_component.dfy` (`HandPose`): the `HandPoseComponent` class, the
  first-match receive loops, and `AnimInstanceProxy`.
- `gestures.dfy` (`HandGestures`): finger states, gestures, `HandsOverlap`,
  and `GestureDatabase.IsDataValid`.
- `input_state.dfy` (`GestureInput`): the `GestureInputState` class.
- `filters.dfy` (`LowpassFilters`): the three filter classes.
- `settings.dfy` (`XRSettings`): the settings record and the threshold getters.

Modelling conventions:

- Floats are `real`.
- `FTransform` is opaque. The model distinguishes `Identity`, and it marks
  `Uninitialized` the slots that `AddUninitialized` created and nothing has
  written.
- Engine math is passed in as a function parameter: `FTransform::Blend` (as
  `BlendFn`) and `FMath::Exp`.
- `1.0f / NetUpdateRate` with a rate of 0 is +infinity in IEEE arithmetic.
  The model writes it as `Seconds.PositiveInfinity`.
- The float-to-int conversion of `ReplicationRateForSkeletalAnimations`
  truncates toward zero (`TruncateToInt`).
- Weak object pointers are checked against a `live` set of components, which
  the caller supplies.
- Methods that change state are proved against value-level functions. For
  example, `UpdateManager` ensures `(State(), r) == Updated(old(State()), ...)`.
  The properties are then proved as lemmas about those functions.

## Model

| member | source | states |
|---|---|---|
| HandJoints.PackedJoints | OpenXRExpansionPlugin/Source/OpenXRExpansionPlugin/Private/OpenXRHandPoseComponent.cpp:355-393 | The joints written into the container, in wire order. There are 20, or 16 with savings on. Each is carried (not palm, not a tip, not a finger metacarpal under savings). They are strictly increasing, so no joint is sent twice. |
| HandJoints.PackedCount | OpenXRExpansionPlugin/Source/OpenXRExpansionPlugin/Private/OpenXRHandPoseComponent.cpp:347-353 | The container length 26 − (5 + 4·savings) is one more than the number of joints written, so the last slot is never written. |
| HandJoints.SlotOf | OpenXRExpansionPlugin/Source/OpenXRExpansionPlugin/Private/OpenXRHandPoseComponent.cpp:418-474 | The unpack's `idx++` cursor as a closed form: every carried joint is read from the slot where the pack wrote it. |
| HandJoints.SlotOfPackedJoint | OpenXRExpansionPlugin/Source/OpenXRExpansionPlugin/Private/OpenXRHandPoseComponent.cpp:418-474 | Slots and carried joints correspond one to one: `SlotOf` inverts the packing order. |
| HandJoints.NotPackedJoints | OpenXRExpansionPlugin/Source/OpenXRExpansionPlugin/Private/OpenXRHandPoseComponent.cpp:355-393 | The joints not sent are exactly the palm, the tips and, with savings on, the four finger metacarpals. |
| SkeletalReplication.Uninit | OpenXRExpansionPlugin/Source/OpenXRExpansionPlugin/Private/OpenXRHandPoseComponent.cpp:352 | `AddUninitialized(n)` appends n slots with no written content. |
| SkeletalReplication.Pack | OpenXRExpansionPlugin/Source/OpenXRExpansionPlugin/Private/OpenXRHandPoseComponent.cpp:355-393 | The packed prefix has one entry per carried joint. |
| SkeletalReplication.PackedTransforms | OpenXRExpansionPlugin/Source/OpenXRExpansionPlugin/Private/OpenXRHandPoseComponent.cpp:347-393 | After a successful pack, the container holds 21 or 17 transforms. Slot k holds the source joint `PackedJoints[k]`. The last slot is the resize's unwritten slot, or the old content when the length already matched. |
| SkeletalReplication.Unpack | OpenXRExpansionPlugin/Source/OpenXRExpansionPlugin/Private/OpenXRHandPoseComponent.cpp:418-474 | Scattering keeps the target's length. |
| SkeletalReplication.ReplicatedTo | OpenXRExpansionPlugin/Source/OpenXRExpansionPlugin/Private/OpenXRHandPoseComponent.cpp:396-477 | Unpack with the intended resize. A container shorter than 26 − adjustment empties the target and clears its valid flag, leaving its other flags alone. Otherwise the target holds 26 transforms. The palm is Identity, the finger metacarpals are Identity under savings, and every carried joint comes from its slot. Tips keep the resized target's content. The flags are copied and the valid flag is set. The hand and the old pose are untouched. |
| SkeletalReplication.WritePacked | OpenXRExpansionPlugin/Source/OpenXRExpansionPlugin/Private/OpenXRHandPoseComponent.cpp:355-393 | The cursor-driven writes of the pack produce `Pack(src)` followed by the untouched rest of the array. |
| SkeletalReplication.WriteUnpacked | OpenXRExpansionPlugin/Source/OpenXRExpansionPlugin/Private/OpenXRHandPoseComponent.cpp:418-474 | The cursor-driven writes of the unpack produce exactly `Unpack`. |
| SkeletalReplication.RepContainer.constructor | OpenXRExpansionPlugin/Source/OpenXRExpansionPlugin/Public/OpenXRHandPoseComponent.h:41-47 | A new container has hand Left, no mesh deformation, savings on, `BoneCount` 0 and no transforms. |
| SkeletalReplication.RepContainer.HasValidData | OpenXRExpansionPlugin/Source/OpenXRExpansionPlugin/Public/OpenXRHandPoseComponent.h:49-52 | True exactly when the transform array is non-empty. |
| SkeletalReplication.RepContainer.CopyFrom | OpenXRExpansionPlugin/Source/OpenXRExpansionPlugin/Private/OpenXRHandPoseComponent.cpp:53 | Struct assignment copies all five fields. |
| SkeletalReplication.RepContainer.CopyForReplication | OpenXRExpansionPlugin/Source/OpenXRExpansionPlugin/Private/OpenXRHandPoseComponent.cpp:328-394 | The hand is always copied. Without valid data nothing else changes. With fewer than 26 transforms the flags are copied and the array is emptied. Otherwise the array becomes `PackedTransforms`. `HasValidData` afterwards is characterised in both directions. |
| SkeletalReplication.RepContainer.CopyReplicatedTo | OpenXRExpansionPlugin/Source/OpenXRExpansionPlugin/Private/OpenXRHandPoseComponent.cpp:396-477 | The corrected unpack returns exactly `ReplicatedTo` of the container's fields. |
| SkeletalReplication.RepContainer.CopyReplicatedToAsWritten | OpenXRExpansionPlugin/Source/OpenXRExpansionPlugin/Private/OpenXRHandPoseComponent.cpp:396-477 | The unpack as written returns exactly `ReplicatedToAsWritten`. |
| SkeletalReplication.RoundTrip | OpenXRExpansionPlugin/Source/OpenXRExpansionPlugin/Private/OpenXRHandPoseComponent.cpp:355-474 | Unpacking a container packed from a full skeleton with valid data reproduces every carried joint at the same index. It also reproduces both flags and sets the valid flag. |
| SkeletalReplication.AsWrittenGrowsFullTarget | OpenXRExpansionPlugin/Source/OpenXRExpansionPlugin/Private/OpenXRHandPoseComponent.cpp:412-416 | As written, a target that already holds 26 transforms comes out holding 52. |
| SkeletalReplication.ReplicatedKeepsKeypointCount | OpenXRExpansionPlugin/Source/OpenXRExpansionPlugin/Private/OpenXRHandPoseComponent.cpp:412-416 | The corrected unpack always leaves 26 transforms, and it agrees with the as-written version on those 26. |
| TransformLerp.Reciprocal | OpenXRExpansionPlugin/Source/OpenXRExpansionPlugin/Private/OpenXRHandPoseComponent.cpp:236 | `1/NetUpdateRate` is infinite exactly for rate 0. Otherwise its product with the rate is 1. |
| TransformLerp.Clamp01 | OpenXRExpansionPlugin/Source/OpenXRExpansionPlugin/Private/OpenXRHandPoseComponent.cpp:258 | The clamped value lies in [0,1] and equals its input inside that range. It reaches 1 exactly when the input does. |
| TransformLerp.BlendAll | OpenXRExpansionPlugin/Source/OpenXRExpansionPlugin/Private/OpenXRHandPoseComponent.cpp:273-314 | The blended pose keeps the array length. `UpdatedMidLerp` states what it writes, joint by joint, and `BlendPose` proves the source's sequence of bone blends equal to it. |
| TransformLerp.Updated | OpenXRExpansionPlugin/Source/OpenXRExpansionPlugin/Private/OpenXRHandPoseComponent.cpp:249-321 | One update keeps the manager's state valid: a running lerp never has rate 0. |
| TransformLerp.TransformLerpManager.constructor | OpenXRExpansionPlugin/Source/OpenXRExpansionPlugin/Private/OpenXRHandPoseComponent.cpp:226-232 | A new manager has not replicated, is not lerping, and has count 0 and rate 0. |
| TransformLerp.TransformLerpManager.NotifyNewData | OpenXRExpansionPlugin/Source/OpenXRExpansionPlugin/Private/OpenXRHandPoseComponent.cpp:234-247 | The new state is `Notified(old state)`, and validity is kept. |
| TransformLerp.TransformLerpManager.BlendBone | OpenXRExpansionPlugin/Source/OpenXRExpansionPlugin/Public/OpenXRHandPoseComponent.h:146-149 | Only slot `bone` of the pose changes. It becomes the blend of the old and new transforms of that bone, and no other field changes. |
| TransformLerp.TransformLerpManager.BlendFinger | OpenXRExpansionPlugin/Source/OpenXRExpansionPlugin/Private/OpenXRHandPoseComponent.cpp:281-287 | One finger's block (metacarpal unless savings, then proximal, intermediate, distal) advances the partial blend by that finger's five joints. |
| TransformLerp.TransformLerpManager.BlendPose | OpenXRExpansionPlugin/Source/OpenXRExpansionPlugin/Private/OpenXRHandPoseComponent.cpp:273-314 | The palm reset and the bone blends together give exactly `BlendAll`: palm Identity, each carried joint blended, every other joint untouched. |
| TransformLerp.TransformLerpManager.UpdateManager | OpenXRExpansionPlugin/Source/OpenXRExpansionPlugin/Private/OpenXRHandPoseComponent.cpp:249-321 | The new manager state and the returned action are exactly `Updated(old state)`, using the corrected length guard, and validity is kept. |
| TransformLerp.NotifiedFirstAndLater | OpenXRExpansionPlugin/Source/OpenXRExpansionPlugin/Private/OpenXRHandPoseComponent.cpp:234-247 | Both calls set the rate to `1/NetUpdateRate`. The first call only sets the replicated-once flag. Later calls start a lerp with count 0 toward the action's transforms. |
| TransformLerp.UpdatedIdle | OpenXRExpansionPlugin/Source/OpenXRExpansionPlugin/Private/OpenXRHandPoseComponent.cpp:251-255 | Without valid data, or with no lerp running, nothing changes. |
| TransformLerp.UpdatedFinishes | OpenXRExpansionPlugin/Source/OpenXRExpansionPlugin/Private/OpenXRHandPoseComponent.cpp:256-264 | Once count/rate reaches 1, the new transforms are installed, the lerp stops, and the count returns to 0. |
| TransformLerp.UpdatedMidLerp | OpenXRExpansionPlugin/Source/OpenXRExpansionPlugin/Private/OpenXRHandPoseComponent.cpp:266-314 | Mid-lerp the count advances by dt. If the lengths disagree or are short, the action is untouched. Otherwise only the pose changes: the palm becomes Identity, every carried joint becomes the blend of its old and new transforms by the clamped progress, and every other joint keeps its transform. |
| TransformLerp.UpdateRun | OpenXRExpansionPlugin/Source/OpenXRExpansionPlugin/Private/OpenXRHandPoseComponent.cpp:249-262 | A run of updates with no new data keeps the manager state valid. |
| TransformLerp.InfiniteRateKeepsLerping | OpenXRExpansionPlugin/Source/OpenXRExpansionPlugin/Private/OpenXRHandPoseComponent.cpp:256-264 | With an infinite interval (rate 0), an update leaves the lerp running and the interval infinite. |
| TransformLerp.InfiniteRunKeepsLerping | OpenXRExpansionPlugin/Source/OpenXRExpansionPlugin/Private/OpenXRHandPoseComponent.cpp:249-264 | With an infinite interval, the lerp is still running after any number of updates. |
| TransformLerp.ZeroRateNeverFinishes | OpenXRExpansionPlugin/Source/OpenXRExpansionPlugin/Private/OpenXRHandPoseComponent.cpp:234-246 | A rate of 0, notified after the first pose, starts a lerp with an infinite interval. No run of updates with no new data ever completes it. |
| TransformLerp.BlendGuardAsWritten | OpenXRExpansionPlugin/Source/OpenXRExpansionPlugin/Private/OpenXRHandPoseComponent.cpp:268-271 | The guard as written: the three lengths are equal and at least 26 − (5 + 4·savings). |
| TransformLerp.BlendGuardAsWrittenAdmitsShortArrays | OpenXRExpansionPlugin/Source/OpenXRExpansionPlugin/Private/OpenXRHandPoseComponent.cpp:268-271 | The guard as written accepts three arrays of 17 or 21 transforms, although bone 24 is blended afterwards. |
| TransformLerp.BlendGuardAgreesInRange | OpenXRExpansionPlugin/Source/OpenXRExpansionPlugin/Private/OpenXRHandPoseComponent.cpp:268-271 | The corrected guard passes exactly when the guard as written passes and the arrays reach bone 24, the last bone the blends write. |
| TransformLerp.BlendGuardCoversBlendedBones | OpenXRExpansionPlugin/Source/OpenXRExpansionPlugin/Private/OpenXRHandPoseComponent.cpp:268-314 | The corrected guard admits only arrays in which every written bone (palm and carried joints) exists in all three arrays. |
| HandPose.TruncateToInt | OpenXRExpansionPlugin/Source/OpenXRExpansionPlugin/Public/OpenXRHandPoseComponent.h:170 | The float rate passed to the int parameter is truncated toward zero. |
| HandPose.FirstMatch | OpenXRExpansionPlugin/Source/OpenXRExpansionPlugin/Public/OpenXRHandPoseComponent.h:161-163 | The loop's stopping index is the first action for the hand, with none before it. It is `|actions|` when there is none. |
| HandPose.ReceivedByFirstMatch | OpenXRExpansionPlugin/Source/OpenXRExpansionPlugin/Public/OpenXRHandPoseComponent.h:159-174 | Only the first matching action changes, and nothing changes without a match. The changed action keeps its previous pose as the old pose. |
| HandPose.HandPoseComponent.constructor | OpenXRExpansionPlugin/Source/OpenXRExpansionPlugin/Private/OpenXRHandPoseComponent.cpp:17-30 | Defaults: rate 10 (sent as 10), no replication, smoothing on, gesture detection on, no mock-up pose, count 0. The containers and managers are fresh and idle. |
| HandPose.HandPoseComponent.SetDetectGestures | OpenXRExpansionPlugin/Source/OpenXRExpansionPlugin/Public/OpenXRHandPoseComponent.h:83-86 | Sets the detection flag to its argument. Its frame allows no other field to change. |
| HandPose.HandPoseComponent.ReceiveFirstMatch | OpenXRExpansionPlugin/Source/OpenXRExpansionPlugin/Public/OpenXRHandPoseComponent.h:159-174 | The shared loop returns the first-match index and leaves the actions as `ReceivedByFirstMatch`. The manager is notified with the truncated rate only on a match with smoothing on; otherwise it is unchanged. |
| HandPose.HandPoseComponent.OnRepSkeletalTransformLeft | OpenXRExpansionPlugin/Source/OpenXRExpansionPlugin/Public/OpenXRHandPoseComponent.h:159-174 | As `ReceiveFirstMatch`, with the left container and left manager. |
| HandPose.HandPoseComponent.OnRepSkeletalTransformRight | OpenXRExpansionPlugin/Source/OpenXRExpansionPlugin/Public/OpenXRHandPoseComponent.h:177-192 | As `ReceiveFirstMatch`, with the right container and right manager. |
| HandPose.HandPoseComponent.ServerSendSkeletalTransforms | OpenXRExpansionPlugin/Source/OpenXRExpansionPlugin/Private/OpenXRHandPoseComponent.cpp:41-67 | The actions become `ReceivedByFirstMatch`. On a match, the container of the sender's hand becomes a copy of the received one, and that hand's manager is notified if smoothing is on. The other hand's container and manager never change. |
| HandPose.SyncActionData | OpenXRExpansionPlugin/Source/OpenXRExpansionPlugin/Private/OpenXRHandPoseComponent.cpp:82-97 | Both branches (rebuild, element-wise copy) leave an exact copy of the source actions. |
| HandPose.AnimInstanceProxy.constructor | OpenXRExpansionPlugin/Source/OpenXRExpansionPlugin/Public/OpenXRHandPoseComponent.h:220 | A new proxy holds no action data. |
| HandPose.AnimInstanceProxy.PreUpdate | OpenXRExpansionPlugin/Source/OpenXRExpansionPlugin/Private/OpenXRHandPoseComponent.cpp:74-100 | With an owning component, the proxy's actions equal the component's. Without one they are unchanged. |
| HandPose.ReceivedChangesOnlyFirstMatch | OpenXRExpansionPlugin/Source/OpenXRExpansionPlugin/Public/OpenXRHandPoseComponent.h:161-171 | Any action that changed is for the container's hand, and no earlier action is. |
| HandPose.AsWrittenReceiveBlocksBlending | OpenXRExpansionPlugin/Source/OpenXRExpansionPlugin/Public/OpenXRHandPoseComponent.h:159-174 | With the unpack as written, receiving into an action that holds 26 transforms leaves 52 current over 26 old transforms. Neither length guard then admits a blend, so a mid-lerp update leaves the action as received. |
| HandPose.ReceivedReproducesSender | OpenXRExpansionPlugin/Source/OpenXRExpansionPlugin/Public/OpenXRHandPoseComponent.h:165-167 | End to end: take the sender's full skeleton, pack it, and receive it. The first matching action then has valid data, every carried joint equal to the sender's, and its replaced pose as the old pose. |
| HandGestures.FingerStateCode | OpenXRExpansionPlugin/Source/OpenXRExpansionPlugin/Public/OpenXRHandGestures.h:14-20 | The four states have codes below 4, and only INVALID has code 0. |
| HandGestures.FingerStateOfCode | OpenXRExpansionPlugin/Source/OpenXRExpansionPlugin/Public/OpenXRHandGestures.h:14-20 | Every code below 4 names a state whose code it is. |
| HandGestures.FingerStateCodeInjective | OpenXRExpansionPlugin/Source/OpenXRExpansionPlugin/Public/OpenXRHandGestures.h:14-20 | The code determines the state (both directions), and decoding inverts encoding. |
| HandGestures.DefaultFinger | OpenXRExpansionPlugin/Source/OpenXRExpansionPlugin/Public/OpenXRHandGestures.h:42-46 | A default finger is INVALID (code 0) on the index tip. |
| HandGestures.HandsOverlap | OpenXRExpansionPlugin/Source/OpenXRExpansionPlugin/Private/OpenXRHandGestures.cpp:7-10 | The bit test is never true with INVALID, and a valid hand always overlaps itself. |
| HandGestures.HandsOverlapSymmetric | OpenXRExpansionPlugin/Source/OpenXRExpansionPlugin/Private/OpenXRHandGestures.cpp:7-10 | The test does not depend on operand order. |
| HandGestures.DefaultFingerValues | OpenXRExpansionPlugin/Source/OpenXRExpansionPlugin/Public/OpenXRHandGestures.h:71-79 | Five entries, all IGNORED, on the thumb, index, middle, ring and little tips in that order. |
| HandGestures.DefaultGesture | OpenXRExpansionPlugin/Source/OpenXRExpansionPlugin/Public/OpenXRHandGestures.h:64-68 | A default gesture has name None and five ignored fingers. |
| HandGestures.GestureReports | OpenXRExpansionPlugin/Source/OpenXRExpansionPlugin/Private/OpenXRHandGestures.cpp:21-37 | There are no reports exactly when the gesture is valid, and never more than three. |
| HandGestures.GestureReportsExplainFailures | OpenXRExpansionPlugin/Source/OpenXRExpansionPlugin/Private/OpenXRHandGestures.cpp:21-37 | Each of the three reports is present exactly when its own check fails. |
| HandGestures.GestureDatabase.constructor | OpenXRExpansionPlugin/Source/OpenXRExpansionPlugin/Public/OpenXRHandGestures.h:96-98 | A new database holds no gestures. |
| HandGestures.GestureDatabase.IsDataValid | OpenXRExpansionPlugin/Source/OpenXRExpansionPlugin/Private/OpenXRHandGestures.cpp:15-41 | The result is Valid exactly when every gesture passes all three checks (so an empty database is Valid). The reports are every gesture's reports in order, with no early exit. |
| HandGestures.DatabaseReportsAppend | OpenXRExpansionPlugin/Source/OpenXRExpansionPlugin/Private/OpenXRHandGestures.cpp:19-38 | The reports of a concatenation are the concatenated reports. |
| HandGestures.EveryGestureReported | OpenXRExpansionPlugin/Source/OpenXRExpansionPlugin/Private/OpenXRHandGestures.cpp:19-38 | For any gesture in the list, the database's reports are the reports of the gestures before it, then its own reports, then the reports of the gestures after it. |
| HandGestures.NoReportsIffAllValid | OpenXRExpansionPlugin/Source/OpenXRExpansionPlugin/Private/OpenXRHandGestures.cpp:17-40 | The database reports nothing exactly when every gesture is valid. |
| HandGestures.AllIgnoredGesturePasses | OpenXRExpansionPlugin/Source/OpenXRExpansionPlugin/Private/OpenXRHandGestures.cpp:19-38 | A named gesture with a display name and a valid hand passes even though all five of its fingers are IGNORED. |
| HandGestures.EmptyDisplayNameIsOnlyAWarning | OpenXRExpansionPlugin/Source/OpenXRExpansionPlugin/Private/OpenXRHandGestures.cpp:27-31 | An empty display name alone yields a single warning, yet the gesture is not valid. |
| GestureInput.GestureNames | OpenXRExpansionPlugin/Source/OpenXRExpansionPlugin/Private/OpenXRHandGestureInputState.cpp:42-43 | The names are exactly those of some gesture in the list. |
| GestureInput.SeededButtonStates | OpenXRExpansionPlugin/Source/OpenXRExpansionPlugin/Private/OpenXRHandGestureInputState.cpp:36-44 | The seeded table's keys are exactly the gesture names, all released. |
| GestureInput.GestureInputState.constructor | OpenXRExpansionPlugin/Source/OpenXRExpansionPlugin/Private/OpenXRHandGestureInputState.cpp:11-46 | The component must be live. The ids are stored. Without a database the table is empty; with one, the seeding loop yields `SeededButtonStates` of its gestures. |
| GestureInput.GestureInputState.IsValid | OpenXRExpansionPlugin/Source/OpenXRExpansionPlugin/Private/OpenXRHandGestureInputState.cpp:48-51 | The weak reference to the hand pose component is valid exactly when that component is in the `live` set. |
| GestureInput.GestureInputState.GetHandPoseComponent | OpenXRExpansionPlugin/Source/OpenXRExpansionPlugin/Private/OpenXRHandGestureInputState.h:13-18 | Non-null exactly when `IsValid` holds, and then it is the stored component. |
| GestureInput.GestureInputState.GetGestureButtonState | OpenXRExpansionPlugin/Source/OpenXRExpansionPlugin/Private/OpenXRHandGestureInputState.cpp:53-57 | Requires the name to be present and returns its flag without changing anything. |
| GestureInput.GestureInputState.SetGestureButtonState | OpenXRExpansionPlugin/Source/OpenXRExpansionPlugin/Private/OpenXRHandGestureInputState.cpp:59-63 | Requires the name to be present. The key set is kept, that name gets the new flag, and every other name keeps its flag. |
| GestureInput.SetThenGet | OpenXRExpansionPlugin/Source/OpenXRExpansionPlugin/Private/OpenXRHandGestureInputState.cpp:53-63 | Get after Set returns the value just set, and another name still reads its old value. |
| GestureInput.SeededStatesAllReleased | OpenXRExpansionPlugin/Source/OpenXRExpansionPlugin/Private/OpenXRHandGestureInputState.cpp:36-44 | Every gesture's name reads released after seeding, and no other name is present. |
| LowpassFilters.Abs | OpenXRExpansionPlugin/Source/OpenXRExpansionPlugin/Private/OpenXRHandGestureFilters.cpp:83 | `GetAbs` per component: non-negative, and either the value or its negation. |
| LowpassFilters.BaseLowpassFilter.constructor | OpenXRExpansionPlugin/Source/OpenXRExpansionPlugin/Private/OpenXRHandGestureFilters.cpp:6-10 | Previous is zero and the first-sample flag is set. |
| LowpassFilters.BaseLowpassFilter.Filter | OpenXRExpansionPlugin/Source/OpenXRExpansionPlugin/Private/OpenXRHandGestureFilters.cpp:12-29 | Returns the input on the first sample and α·in + (1−α)·Previous otherwise. Previous becomes the output, PreviousRaw the input, and the flag is cleared. |
| LowpassFilters.BaseLowpassFilter.Reset | OpenXRExpansionPlugin/Source/OpenXRExpansionPlugin/Private/OpenXRHandGestureFilters.h:27 | Sets only the first-sample flag. Its frame keeps Previous and PreviousRaw. |
| LowpassFilters.SimpleLowpassFilter.constructor | OpenXRExpansionPlugin/Source/OpenXRExpansionPlugin/Private/OpenXRHandGestureFilters.cpp:33-36 | Cutoff 1 Hz, with a fresh base filter. |
| LowpassFilters.SimpleLowpassFilter.WithCutoff | OpenXRExpansionPlugin/Source/OpenXRExpansionPlugin/Private/OpenXRHandGestureFilters.cpp:37-40 | Stores the given cutoff, with a fresh base filter. |
| LowpassFilters.SimpleLowpassFilter.Filter | OpenXRExpansionPlugin/Source/OpenXRExpansionPlugin/Private/OpenXRHandGestureFilters.cpp:42-46 | The base filter is applied with the same alpha 1 − exp(−dt·2π·cutoff) in all three components, and `GetOutput` then returns the result. |
| LowpassFilters.SimpleLowpassFilter.GetOutput | OpenXRExpansionPlugin/Source/OpenXRExpansionPlugin/Private/OpenXRHandGestureFilters.h:47 | The base filter's Previous, which is the value the last `Filter` call returned (stated by `Filter`). |
| LowpassFilters.SimpleLowpassFilter.Reset | OpenXRExpansionPlugin/Source/OpenXRExpansionPlugin/Private/OpenXRHandGestureFilters.h:48 | Re-arms the base filter's first sample. |
| LowpassFilters.AlphaTau | OpenXRExpansionPlugin/Source/OpenXRExpansionPlugin/Private/OpenXRHandGestureFilters.cpp:86-90 | For dt > 0 and a non-negative cutoff, alpha lies in [0,1). It is positive for a positive cutoff. |
| LowpassFilters.AlphaTauVec | OpenXRExpansionPlugin/Source/OpenXRExpansionPlugin/Private/OpenXRHandGestureFilters.cpp:86-90 | Non-negative cutoffs give alphas in [0,1] in every component. |
| LowpassFilters.DerivativeEstimate | OpenXRExpansionPlugin/Source/OpenXRExpansionPlugin/Private/OpenXRHandGestureFilters.cpp:73 | The estimate is zero on the first sample. Otherwise each of its x, y and z components times dt is that component's change since the previous raw sample. |
| LowpassFilters.Cutoff | OpenXRExpansionPlugin/Source/OpenXRExpansionPlugin/Private/OpenXRHandGestureFilters.cpp:81-84 | With a non-negative slope, every component is at least MinCutoff, and non-negative when MinCutoff is. |
| LowpassFilters.OneEuroLowpassFilter.constructor | OpenXRExpansionPlugin/Source/OpenXRExpansionPlugin/Private/OpenXRHandGestureFilters.cpp:50-55 | Defaults 0.9, 1.0 and 0.007, with two distinct fresh inner filters. |
| LowpassFilters.OneEuroLowpassFilter.WithParameters | OpenXRExpansionPlugin/Source/OpenXRExpansionPlugin/Private/OpenXRHandGestureFilters.cpp:57-62 | Stores the given parameters, with two distinct fresh inner filters. |
| LowpassFilters.OneEuroLowpassFilter.Filter | OpenXRExpansionPlugin/Source/OpenXRExpansionPlugin/Private/OpenXRHandGestureFilters.cpp:66-79 | With dt ≤ 0, returns the input and changes neither inner filter. Otherwise the derivative filter smooths the estimate, and the raw filter runs with the adaptive alphas. `GetOutput` then returns the result, and with non-negative parameters each component is no farther from the input than the previous output. |
| LowpassFilters.OneEuroLowpassFilter.GetOutput | OpenXRExpansionPlugin/Source/OpenXRExpansionPlugin/Private/OpenXRHandGestureFilters.h:68 | The raw filter's Previous, not the derivative filter's. It is the value the last `Filter` call with dt > 0 returned (stated by `Filter`). |
| LowpassFilters.OneEuroLowpassFilter.CalculateCutoff | OpenXRExpansionPlugin/Source/OpenXRExpansionPlugin/Private/OpenXRHandGestureFilters.cpp:81-84 | With a non-negative slope, every component of the cutoff is at least MinCutoff. |
| LowpassFilters.OneEuroLowpassFilter.Reset | OpenXRExpansionPlugin/Source/OpenXRExpansionPlugin/Private/OpenXRHandGestureFilters.h:69-73 | Re-arms both inner filters. |
| LowpassFilters.BlendApproachesInput | OpenXRExpansionPlugin/Source/OpenXRExpansionPlugin/Private/OpenXRHandGestureFilters.cpp:23 | With alpha in [0,1], one blend moves no component farther from the input. |
| LowpassFilters.ConstantInputNeverRecedes | OpenXRExpansionPlugin/Source/OpenXRExpansionPlugin/Private/OpenXRHandGestureFilters.cpp:12-29 | Fed a constant input, the base filter is exact from a first sample. Otherwise no output is farther from the input, component by component, than the one before. |
| LowpassFilters.ResetMakesNextSampleExact | OpenXRExpansionPlugin/Source/OpenXRExpansionPlugin/Private/OpenXRHandGestureFilters.h:27 | After Reset the next output is the input, whatever the filter held before. |
| XRSettings.DefaultSettings | OpenXRExpansionPlugin/Source/OpenXRExpansionPlugin/Private/OpenXRGlobalSettings.cpp:6-34 | The constructor's nineteen values, in declaration order. `DefaultThresholdsOrdered` and `DefaultFilterSelection` state what they imply. |
| XRSettings.GetExtendedThreshold | OpenXRExpansionPlugin/Source/OpenXRExpansionPlugin/Private/OpenXRGlobalSettings.cpp:36-53 | Found exactly for indices 0..4, and then it is that finger's extended field. Otherwise the out-parameter is untouched. |
| XRSettings.GetClosedThreshold | OpenXRExpansionPlugin/Source/OpenXRExpansionPlugin/Private/OpenXRGlobalSettings.cpp:55-72 | The same over 0..4, with the closed fields. |
| XRSettings.GetPinchedThreshold | OpenXRExpansionPlugin/Source/OpenXRExpansionPlugin/Private/OpenXRGlobalSettings.cpp:74-91 | Found exactly for 1..4 (never the thumb), and then it is that finger's pinch field. Otherwise the out-parameter is untouched. |
| XRSettings.DefaultThresholdsOrdered | OpenXRExpansionPlugin/Source/OpenXRExpansionPlugin/Private/OpenXRGlobalSettings.cpp:18-33 | In the defaults, every finger's extended threshold exceeds its closed one. Every pinch threshold is positive and below the closed one. |
| XRSettings.DefaultFilterSelection | OpenXRExpansionPlugin/Source/OpenXRExpansionPlugin/Private/OpenXRGlobalSettings.cpp:9-15 | The defaults select the simple filter with a 2 Hz cutoff, and the one-euro parameters are non-negative. |

## Left out

- `NetSerialize` (bit-level archive I/O, quantised vectors and compressed rotators) is engine serialisation with lossy floats.
- The rest of the pose component is engine plumbing and is not modelled: `TickComponent` with its device registration, net-mode branching and send timer, plus `BeginPlay`, `GetLifetimeReplicatedProps`, `Server_SendSkeletalTransforms_Validate` and the animation instance's begin-play and custom bone mapping.
- The gesture device and the module files: their methods are empty stubs or module-lifecycle code.
- Finger classification, template matching, press/release edges and source pruning: the code for them is not part of this model, so nothing of them is modelled.
- The numbers behind `FTransform::Blend` and `FMath::Exp` are left out. Both are function parameters with no stated properties, and float rounding is not modelled.
- HandGestures.HandCode: the declaration of `EOpenXRGestureHand` is not part of this model. The hand is its integer code, and OXR_GESTURE_HAND_INVALID is taken to be 0.
- How the input state's user id and device id are derived (the pawn, the controller, the local player and the device mapper) is left out: they are constructor arguments. `GetPlatformUserId` and `GetInputDeviceId` read the two `const` fields directly.
- Weak-pointer liveness is a caller-supplied `live` set of components. The engine's garbage collection is not modelled.
- `FName` comparison is case-insensitive in the engine. `Name` here compares its text exactly. In the engine `FName("")` and `FName("None")` are NAME_None; here `Named("")` and `Named("None")` are distinct, non-empty names, so the model's validator accepts them where the engine's would report an invalid name.
- LowpassFilters.AlphaTau: a zero cutoff gives tau = +infinity and alpha 0 in IEEE arithmetic; the model returns 0 directly. The model also returns 0 where 1 + tau/dt would be 0, which is unreachable for non-negative cutoffs.
- LowpassFilters.BaseLowpassFilter.constructor: `PreviousRaw` is left uninitialised, as in the source. The first `Filter` call never reads it.
- HandPose.ReceivedByFirstMatch, HandPose.HandPoseComponent.ReceiveFirstMatch, HandPose.HandPoseComponent.OnRepSkeletalTransformLeft, HandPose.HandPoseComponent.OnRepSkeletalTransformRight, HandPose.HandPoseComponent.ServerSendSkeletalTransforms and HandPose.ReceivedReproducesSender follow the corrected resize of `CopyReplicatedTo` (first Findings row). As written, a target that already holds 26 transforms grows to 52; these members leave it at 26. `HandPose.AsWrittenReceiveBlocksBlending` states the as-written consequence.
- TransformLerp.TransformLerpManager.BlendBone takes the bone as a `nat`. The source's `uint8` parameter is not narrowed, because every bone passed is below 26.

## Findings

| source | as written | input that shows it | evidently intended | confidence | as-written member | corrected member |
|---|---|---|---|---|---|---|
| OpenXRExpansionPlugin/Source/OpenXRExpansionPlugin/Private/OpenXRHandPoseComponent.cpp:412-416 | `AddUninitialized(EHandKeypointCount)` sits in a brace block after the `if` without being governed by it, so it runs on every accepted container. | A target action that already holds 26 transforms comes out holding 52. The next unpack resets it to 26, so the length alternates. The 52-long pose also fails both length guards of the lerp against its 26-long old pose, so a mid-lerp update does not blend. | Resize to 26 only when the length differs, leaving the target at 26 transforms. | not executed | SkeletalReplication.RepContainer.CopyReplicatedToAsWritten (SkeletalReplication.AsWrittenGrowsFullTarget) | SkeletalReplication.RepContainer.CopyReplicatedTo (SkeletalReplication.ReplicatedKeepsKeypointCount) |
| OpenXRExpansionPlugin/Source/OpenXRExpansionPlugin/Private/OpenXRHandPoseComponent.cpp:268-271 | The mid-lerp length guard accepts arrays of at least 26 − (5 + 4·savings) transforms, the packed length, and then blends bones up to 24 (the little distal). | New, current and old pose arrays all of length 17 (savings on) or 21 (savings off) pass the guard, and then index 24 is out of range. | Require every bone the blends write, up to the little distal (index 24), in all three arrays. A 25-long triple passes the guard as written and is blended safely, and the corrected guard lets it through too. | not executed | TransformLerp.BlendGuardAsWritten (TransformLerp.BlendGuardAsWrittenAdmitsShortArrays) | TransformLerp.TransformLerpManager.UpdateManager (TransformLerp.BlendGuardCoversBlendedBones) |
