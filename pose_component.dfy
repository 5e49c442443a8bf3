/**
 * The hand pose component (UOpenXRHandPoseComponent): its per-action skeletal
 * records, the two replicated containers with their smoothing managers, the
 * handlers that unpack a received container into the first action of the
 * matching hand, and the animation proxy's copy of the records.
 */
module HandPose {
  import opened HandJoints
  import opened SkeletalReplication
  import opened TransformLerp
  import opened HandGestures

  /** A C++ float-to-int conversion: truncation toward zero. */
  function TruncateToInt(x: real): (n: int)
    ensures x >= 0.0 ==> 0 <= n && n as real <= x < n as real + 1.0
    ensures x < 0.0 ==> n <= 0 && n as real - 1.0 < x <= n as real
  {
    if x >= 0.0 then x.Floor else -((-x).Floor)
  }

  /** The index of the first action for `hand`, or |actions| when there is none. */
  function FirstMatch(actions: seq<ActionSkeletalData>, hand: SkeletalHand): (i: nat)
    ensures i <= |actions|
    ensures i < |actions| ==> actions[i].targetHand == hand
    ensures forall k :: 0 <= k < i ==> actions[k].targetHand != hand
  {
    if |actions| == 0 then 0
    else if actions[0].targetHand == hand then 0
    else 1 + FirstMatch(actions[1..], hand)
  }

  /** An action after a container arrives for it: the current pose becomes the old one, then the container is unpacked. */
  function Received(a: ActionSkeletalData, savings: bool, deform: bool, packed: seq<Transform>): ActionSkeletalData {
    ReplicatedTo(savings, deform, packed, a.(oldSkeletalTransforms := a.skeletalTransforms))
  }

  /** Received with the unpack as written, whose resize always appends 26 uninitialised slots. */
  function ReceivedAsWritten(a: ActionSkeletalData, savings: bool, deform: bool, packed: seq<Transform>): ActionSkeletalData {
    ReplicatedToAsWritten(savings, deform, packed, a.(oldSkeletalTransforms := a.skeletalTransforms))
  }

  /**
   * As written, a container received into an action that already holds 26
   * transforms leaves a 52-long current pose over a 26-long old pose. The
   * manager is then notified with the 52-long pose, so neither length guard
   * lets a mid-lerp blend through and the action is left as received.
   */
  lemma AsWrittenReceiveBlocksBlending(a: ActionSkeletalData, savings: bool, deform: bool, packed: seq<Transform>,
                                       s: LerpState, netUpdateRate: int, deltaTime: real, blend: BlendFn)
    requires |packed| >= PackedCount(savings) && |a.skeletalTransforms| == HAND_KEYPOINT_COUNT
    requires s.replicatedOnce && ValidState(s)
    ensures var b := ReceivedAsWritten(a, savings, deform, packed);
      var n := Notified(s, b.skeletalTransforms, netUpdateRate);
      && |b.skeletalTransforms| == 2 * HAND_KEYPOINT_COUNT && |b.oldSkeletalTransforms| == HAND_KEYPOINT_COUNT
      && !BlendGuardAsWritten(|n.newTransforms|, |b.skeletalTransforms|, |b.oldSkeletalTransforms|, savings)
      && !BlendGuard(|n.newTransforms|, |b.skeletalTransforms|, |b.oldSkeletalTransforms|)
      && (Progress(n.updateCount + deltaTime, n.updateRate) < 1.0 ==> Updated(n, deltaTime, b, blend).1 == b)
  {
    var b := ReceivedAsWritten(a, savings, deform, packed);
    AsWrittenGrowsFullTarget(savings, deform, packed, a.(oldSkeletalTransforms := a.skeletalTransforms));
    var n := Notified(s, b.skeletalTransforms, netUpdateRate);
    NotifiedFirstAndLater(s, b.skeletalTransforms, netUpdateRate);
    if Progress(n.updateCount + deltaTime, n.updateRate) < 1.0 {
      UpdatedMidLerp(n, deltaTime, b, blend);
    }
  }

  /** The actions after a container for `hand` arrives: only the first action for that hand is updated. */
  function ReceivedByFirstMatch(actions: seq<ActionSkeletalData>, hand: SkeletalHand, savings: bool, deform: bool, packed: seq<Transform>)
    : (r: seq<ActionSkeletalData>)
    ensures |r| == |actions|
    ensures forall k :: 0 <= k < |r| && k != FirstMatch(actions, hand) ==> r[k] == actions[k]
    ensures FirstMatch(actions, hand) == |actions| ==> r == actions
    ensures FirstMatch(actions, hand) < |actions| ==>
      var a := actions[FirstMatch(actions, hand)];
      var b := r[FirstMatch(actions, hand)];
      b.oldSkeletalTransforms == a.skeletalTransforms && b.targetHand == hand
  {
    var i := FirstMatch(actions, hand);
    if i == |actions| then actions
    else actions[i := Received(actions[i], savings, deform, packed)]
  }

  /** UOpenXRHandPoseComponent, reduced to the state the replication and the gesture input read. */
  class HandPoseComponent {
    var detectGestures: bool
    var gesturesDB: GestureDatabase?
    var getMockUpPoseForDebugging: bool
    var handSkeletalActions: seq<ActionSkeletalData>
    const leftHandRep: RepContainer
    const rightHandRep: RepContainer
    const leftHandRepManager: TransformLerpManager
    const rightHandRepManager: TransformLerpManager
    var replicateSkeletalData: bool
    var smoothReplicatedSkeletalData: bool
    var replicationRateForSkeletalAnimations: real
    var skeletalNetUpdateCount: real

    ghost predicate Valid()
      reads this, leftHandRepManager, rightHandRepManager
    {
      && leftHandRep != rightHandRep
      && leftHandRepManager != rightHandRepManager
      && leftHandRepManager.Valid()
      && rightHandRepManager.Valid()
    }

    /** The rate handed to NotifyNewData, whose parameter is an int. */
    function NetUpdateRate(): int
      reads this
    {
      TruncateToInt(replicationRateForSkeletalAnimations)
    }

    constructor ()
      ensures Valid()
      ensures replicationRateForSkeletalAnimations == 10.0 && NetUpdateRate() == 10
      ensures !replicateSkeletalData && smoothReplicatedSkeletalData && detectGestures && !getMockUpPoseForDebugging
      ensures skeletalNetUpdateCount == 0.0 && handSkeletalActions == [] && gesturesDB == null
      ensures fresh(leftHandRep) && fresh(rightHandRep) && fresh(leftHandRepManager) && fresh(rightHandRepManager)
      ensures !leftHandRepManager.lerping && !rightHandRepManager.lerping
      ensures !leftHandRep.HasValidData() && !rightHandRep.HasValidData()
    {
      detectGestures := true;
      gesturesDB := null;
      getMockUpPoseForDebugging := false;
      handSkeletalActions := [];
      leftHandRep := new RepContainer();
      rightHandRep := new RepContainer();
      leftHandRepManager := new TransformLerpManager();
      rightHandRepManager := new TransformLerpManager();
      replicateSkeletalData := false;
      smoothReplicatedSkeletalData := true;
      replicationRateForSkeletalAnimations := 10.0;
      skeletalNetUpdateCount := 0.0;
    }

    method SetDetectGestures(newDetectGestures: bool)
      modifies `detectGestures
      ensures detectGestures == newDetectGestures
    {
      detectGestures := newDetectGestures;
    }

    /**
     * The body shared by the two OnRep handlers and the server RPC: find the
     * first action for the container's hand, keep its pose as the old one,
     * unpack the container into it, notify the manager if smoothing is on, stop.
     * Returns the index updated, or |handSkeletalActions| when none matched.
     */
    method ReceiveFirstMatch(rep: RepContainer, manager: TransformLerpManager) returns (i: nat)
      requires Valid() && (manager == leftHandRepManager || manager == rightHandRepManager)
      modifies `handSkeletalActions, manager
      ensures Valid()
      ensures i == FirstMatch(old(handSkeletalActions), rep.targetHand)
      ensures handSkeletalActions == ReceivedByFirstMatch(old(handSkeletalActions), rep.targetHand,
                                       rep.enableUE4HandRepSavings, rep.allowDeformingMesh, rep.skeletalTransforms)
      ensures i < |handSkeletalActions| && smoothReplicatedSkeletalData ==>
        manager.State() == Notified(old(manager.State()), handSkeletalActions[i].skeletalTransforms, NetUpdateRate())
      ensures i == |handSkeletalActions| || !smoothReplicatedSkeletalData ==> unchanged(manager)
    {
      i := 0;
      while i < |handSkeletalActions|
        invariant i <= |handSkeletalActions|
        invariant handSkeletalActions == old(handSkeletalActions) && unchanged(manager)
        invariant forall k :: 0 <= k < i ==> handSkeletalActions[k].targetHand != rep.targetHand
      {
        if handSkeletalActions[i].targetHand == rep.targetHand {
          var action := handSkeletalActions[i].(oldSkeletalTransforms := handSkeletalActions[i].skeletalTransforms);
          action := RepContainer.CopyReplicatedTo(rep, action);
          handSkeletalActions := handSkeletalActions[i := action];

          if smoothReplicatedSkeletalData {
            manager.NotifyNewData(handSkeletalActions[i], NetUpdateRate());
          }
          return;
        }
        i := i + 1;
      }
    }

    method OnRepSkeletalTransformLeft()
      requires Valid()
      modifies `handSkeletalActions, leftHandRepManager
      ensures Valid()
      ensures handSkeletalActions == ReceivedByFirstMatch(old(handSkeletalActions), leftHandRep.targetHand,
                                       leftHandRep.enableUE4HandRepSavings, leftHandRep.allowDeformingMesh, leftHandRep.skeletalTransforms)
      ensures var i := FirstMatch(old(handSkeletalActions), leftHandRep.targetHand);
        if i < |handSkeletalActions| && smoothReplicatedSkeletalData then
          leftHandRepManager.State() == Notified(old(leftHandRepManager.State()), handSkeletalActions[i].skeletalTransforms, NetUpdateRate())
        else unchanged(leftHandRepManager)
    {
      var _ := ReceiveFirstMatch(leftHandRep, leftHandRepManager);
    }

    method OnRepSkeletalTransformRight()
      requires Valid()
      modifies `handSkeletalActions, rightHandRepManager
      ensures Valid()
      ensures handSkeletalActions == ReceivedByFirstMatch(old(handSkeletalActions), rightHandRep.targetHand,
                                       rightHandRep.enableUE4HandRepSavings, rightHandRep.allowDeformingMesh, rightHandRep.skeletalTransforms)
      ensures var i := FirstMatch(old(handSkeletalActions), rightHandRep.targetHand);
        if i < |handSkeletalActions| && smoothReplicatedSkeletalData then
          rightHandRepManager.State() == Notified(old(rightHandRepManager.State()), handSkeletalActions[i].skeletalTransforms, NetUpdateRate())
        else unchanged(rightHandRepManager)
    {
      var _ := ReceiveFirstMatch(rightHandRep, rightHandRepManager);
    }

    /**
     * Server_SendSkeletalTransforms_Implementation: as the OnRep handlers, and
     * when an action matched, the container is also stored as the replicated
     * container of its hand (Left, otherwise Right).
     */
    method ServerSendSkeletalTransforms(skeletalInfo: RepContainer)
      requires Valid()
      modifies `handSkeletalActions, leftHandRep, rightHandRep, leftHandRepManager, rightHandRepManager
      ensures Valid()
      ensures handSkeletalActions == ReceivedByFirstMatch(old(handSkeletalActions), old(skeletalInfo.targetHand),
                                       old(skeletalInfo.enableUE4HandRepSavings), old(skeletalInfo.allowDeformingMesh),
                                       old(skeletalInfo.skeletalTransforms))
      ensures var i := FirstMatch(old(handSkeletalActions), old(skeletalInfo.targetHand));
        var rep := if old(skeletalInfo.targetHand) == Left then leftHandRep else rightHandRep;
        var other := if old(skeletalInfo.targetHand) == Left then rightHandRep else leftHandRep;
        var manager := if old(skeletalInfo.targetHand) == Left then leftHandRepManager else rightHandRepManager;
        var otherManager := if old(skeletalInfo.targetHand) == Left then rightHandRepManager else leftHandRepManager;
        && unchanged(other, otherManager)
        && (i == |handSkeletalActions| ==> unchanged(rep, manager))
        && (i < |handSkeletalActions| ==>
              && rep.targetHand == old(skeletalInfo.targetHand)
              && rep.allowDeformingMesh == old(skeletalInfo.allowDeformingMesh)
              && rep.enableUE4HandRepSavings == old(skeletalInfo.enableUE4HandRepSavings)
              && rep.skeletalTransforms == old(skeletalInfo.skeletalTransforms)
              && rep.boneCount == old(skeletalInfo.boneCount)
              && (smoothReplicatedSkeletalData ==>
                    manager.State() == Notified(old(manager.State()), handSkeletalActions[i].skeletalTransforms, NetUpdateRate()))
              && (!smoothReplicatedSkeletalData ==> unchanged(manager)))
    {
      var i := 0;
      while i < |handSkeletalActions|
        invariant i <= |handSkeletalActions|
        invariant handSkeletalActions == old(handSkeletalActions)
        invariant unchanged(leftHandRep, rightHandRep, leftHandRepManager, rightHandRepManager)
        invariant forall k :: 0 <= k < i ==> handSkeletalActions[k].targetHand != skeletalInfo.targetHand
      {
        if handSkeletalActions[i].targetHand == skeletalInfo.targetHand {
          var action := handSkeletalActions[i].(oldSkeletalTransforms := handSkeletalActions[i].skeletalTransforms);
          action := RepContainer.CopyReplicatedTo(skeletalInfo, action);
          handSkeletalActions := handSkeletalActions[i := action];

          if skeletalInfo.targetHand == Left {
            leftHandRep.CopyFrom(skeletalInfo);
            if smoothReplicatedSkeletalData {
              leftHandRepManager.NotifyNewData(handSkeletalActions[i], NetUpdateRate());
            }
          } else {
            rightHandRep.CopyFrom(skeletalInfo);
            if smoothReplicatedSkeletalData {
              rightHandRepManager.NotifyNewData(handSkeletalActions[i], NetUpdateRate());
            }
          }
          return;
        }
        i := i + 1;
      }
    }
  }

  /** Copies `source` into `data` as FOpenXRAnimInstanceProxy::PreUpdate does: rebuilt when the lengths differ, else element by element. */
  method SyncActionData(data: seq<ActionSkeletalData>, source: seq<ActionSkeletalData>) returns (r: seq<ActionSkeletalData>)
    ensures r == source
  {
    r := data;
    if |r| != |source| {
      r := [];
      var i := 0;
      while i < |source|
        invariant i <= |source| && r == source[..i]
      {
        r := r + [source[i]];
        i := i + 1;
      }
    } else {
      var i := 0;
      while i < |source|
        invariant i <= |source| && |r| == |source|
        invariant r[..i] == source[..i]
      {
        r := r[i := source[i]];
        i := i + 1;
      }
    }
  }

  /** FOpenXRAnimInstanceProxy */
  class AnimInstanceProxy {
    var targetHand: SkeletalHand
    var handSkeletalActionData: seq<ActionSkeletalData>

    constructor ()
      ensures handSkeletalActionData == []
    {
      targetHand := Left;
      handSkeletalActionData := [];
    }

    /**
     * PreUpdate, given the owning instance's pose component (null when the
     * instance is not an OpenXR anim instance or has no component).
     */
    method PreUpdate(owningPoseComp: HandPoseComponent?)
      modifies `handSkeletalActionData
      ensures owningPoseComp == null ==> handSkeletalActionData == old(handSkeletalActionData)
      ensures owningPoseComp != null ==> handSkeletalActionData == owningPoseComp.handSkeletalActions
    {
      if owningPoseComp != null {
        handSkeletalActionData := SyncActionData(handSkeletalActionData, owningPoseComp.handSkeletalActions);
      }
    }
  }

  /** A received container changes at most one action: the first for its hand, and only if there is one. */
  lemma ReceivedChangesOnlyFirstMatch(actions: seq<ActionSkeletalData>, hand: SkeletalHand, savings: bool, deform: bool, packed: seq<Transform>)
    ensures var r := ReceivedByFirstMatch(actions, hand, savings, deform, packed);
      forall k :: 0 <= k < |actions| && r[k] != actions[k] ==>
        actions[k].targetHand == hand && forall l :: 0 <= l < k ==> actions[l].targetHand != hand
  {
  }

  /**
   * End to end: when some action exists for the sender's hand, receiving a
   * container packed from the sender's full skeleton makes every carried joint
   * of the first such action equal to the sender's, and keeps the replaced
   * pose as the old one.
   */
  lemma {:induction false} ReceivedReproducesSender(actions: seq<ActionSkeletalData>, src: ActionSkeletalData, prior: seq<Transform>)
    requires src.hasValidData && |src.skeletalTransforms| >= HAND_KEYPOINT_COUNT
    requires FirstMatch(actions, src.targetHand) < |actions|
    ensures var savings := src.enableUE4HandRepSavings;
      var packed := PackedTransforms(prior, src.skeletalTransforms, savings);
      var i := FirstMatch(actions, src.targetHand);
      var r := ReceivedByFirstMatch(actions, src.targetHand, savings, src.allowDeformingMesh, packed);
      && r[i].hasValidData
      && r[i].oldSkeletalTransforms == actions[i].skeletalTransforms
      && forall j: nat :: IsPacked(j, savings) ==> r[i].skeletalTransforms[j] == src.skeletalTransforms[j]
  {
    var savings := src.enableUE4HandRepSavings;
    var i := FirstMatch(actions, src.targetHand);
    RoundTrip(src, prior, actions[i].(oldSkeletalTransforms := actions[i].skeletalTransforms));
  }
}
