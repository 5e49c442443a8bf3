/**
 * Smoothing of replicated hand poses on remote machines
 * (UOpenXRHandPoseComponent::FTransformLerpManager): each new pose is blended
 * in over one network update interval.
 */
module TransformLerp {
  import opened HandJoints
  import opened SkeletalReplication

  /** FTransform::Blend(Atom1, Atom2, Alpha), supplied by the engine. */
  type BlendFn = (Transform, Transform, real) -> Transform

  /**
   * A float number of seconds that may be +infinity: `1.0f / NetUpdateRate`
   * with a rate of 0 gives +infinity rather than failing.
   */
  datatype Seconds = Finite(value: real) | PositiveInfinity

  /** `1.0f / NetUpdateRate` */
  function Reciprocal(netUpdateRate: int): (s: Seconds)
    ensures s == PositiveInfinity <==> netUpdateRate == 0
    ensures s.Finite? ==> s.value * netUpdateRate as real == 1.0
  {
    if netUpdateRate == 0 then PositiveInfinity else Finite(1.0 / netUpdateRate as real)
  }

  /** `UpdateCount / UpdateRate` for a finite count. */
  function Progress(count: real, rate: Seconds): real
    requires rate != Finite(0.0)
  {
    match rate
    case PositiveInfinity => 0.0
    case Finite(v) => count / v
  }

  /** The manager's fields as a value. */
  datatype LerpState = LerpState(
    replicatedOnce: bool,
    lerping: bool,
    updateCount: real,
    updateRate: Seconds,
    newTransforms: seq<Transform>)

  /** A lerp only runs with a rate NotifyNewData set, which is never 0. */
  predicate ValidState(s: LerpState) {
    s.lerping ==> s.updateRate != Finite(0.0)
  }

  /** FMath::Clamp(x, 0, 1) */
  function Clamp01(x: real): (r: real)
    ensures 0.0 <= r <= 1.0
    ensures 0.0 <= x <= 1.0 ==> r == x
    ensures r == 1.0 <==> x >= 1.0
  {
    if x < 0.0 then 0.0 else if x > 1.0 then 1.0 else x
  }

  /** The state after NotifyNewData. */
  function Notified(s: LerpState, transforms: seq<Transform>, netUpdateRate: int): LerpState
  {
    var s := s.(updateRate := Reciprocal(netUpdateRate));
    if s.replicatedOnce then s.(lerping := true, updateCount := 0.0, newTransforms := transforms)
    else s.(replicatedOnce := true)
  }

  /** The length guard of UpdateManager exactly as written: true when blending goes ahead. */
  predicate BlendGuardAsWritten(newLen: nat, curLen: nat, oldLen: nat, savings: bool) {
    !(newLen < HAND_KEYPOINT_COUNT - BoneCountAdjustment(savings) || newLen != curLen || newLen != oldLen)
  }

  /**
   * The length guard with the bound the blends need: every bone they write,
   * up to the little finger's distal bone, must be present.
   */
  predicate BlendGuard(newLen: nat, curLen: nat, oldLen: nat) {
    !(newLen <= LITTLE_DISTAL || newLen != curLen || newLen != oldLen)
  }

  /** The bones UpdateManager blends, in the order it blends them: exactly the packed joints. */
  function BlendAll(cur: seq<Transform>, from: seq<Transform>, to: seq<Transform>, alpha: real, savings: bool, blend: BlendFn): (r: seq<Transform>)
    requires |cur| == |from| == |to| > LITTLE_DISTAL
    ensures |r| == |cur|
  {
    seq(|cur|, j requires 0 <= j < |cur| =>
      if j == PALM then Identity
      else if IsPacked(j, savings) then blend(from[j], to[j], alpha)
      else cur[j])
  }

  /** BlendAll restricted to the joints below `n`: the pose part way through the blends. */
  ghost function BlendedBelow(cur: seq<Transform>, from: seq<Transform>, to: seq<Transform>, alpha: real, savings: bool, blend: BlendFn, n: nat): (r: seq<Transform>)
    requires |cur| == |from| == |to| > LITTLE_DISTAL
    ensures |r| == |cur|
  {
    seq(|cur|, j requires 0 <= j < |cur| =>
      if j == PALM then Identity
      else if j < n && IsPacked(j, savings) then blend(from[j], to[j], alpha)
      else cur[j])
  }

  /** Moving the bound past a joint that is not blended changes nothing. */
  lemma BlendedBelowSkip(cur: seq<Transform>, from: seq<Transform>, to: seq<Transform>, alpha: real, savings: bool, blend: BlendFn, n: nat)
    requires |cur| == |from| == |to| > LITTLE_DISTAL && !IsPacked(n, savings)
    ensures BlendedBelow(cur, from, to, alpha, savings, blend, n + 1) == BlendedBelow(cur, from, to, alpha, savings, blend, n)
  {
    var a := BlendedBelow(cur, from, to, alpha, savings, blend, n + 1);
    var b := BlendedBelow(cur, from, to, alpha, savings, blend, n);
    forall j | 0 <= j < |cur|
      ensures a[j] == b[j]
    {
    }
  }

  /** Moving the bound past a blended joint blends that joint. */
  lemma BlendedBelowStep(cur: seq<Transform>, from: seq<Transform>, to: seq<Transform>, alpha: real, savings: bool, blend: BlendFn, n: nat)
    requires |cur| == |from| == |to| > LITTLE_DISTAL && IsPacked(n, savings)
    ensures BlendedBelow(cur, from, to, alpha, savings, blend, n + 1)
         == BlendedBelow(cur, from, to, alpha, savings, blend, n)[n := blend(from[n], to[n], alpha)]
  {
    var a := BlendedBelow(cur, from, to, alpha, savings, blend, n + 1);
    var b := BlendedBelow(cur, from, to, alpha, savings, blend, n)[n := blend(from[n], to[n], alpha)];
    forall j | 0 <= j < |cur|
      ensures a[j] == b[j]
    {
    }
  }

  /** With every keypoint below the bound, the partial blend is the whole blend. */
  lemma BlendedBelowAll(cur: seq<Transform>, from: seq<Transform>, to: seq<Transform>, alpha: real, savings: bool, blend: BlendFn)
    requires |cur| == |from| == |to| > LITTLE_DISTAL
    ensures BlendedBelow(cur, from, to, alpha, savings, blend, HAND_KEYPOINT_COUNT) == BlendAll(cur, from, to, alpha, savings, blend)
  {
    var a := BlendedBelow(cur, from, to, alpha, savings, blend, HAND_KEYPOINT_COUNT);
    var b := BlendAll(cur, from, to, alpha, savings, blend);
    forall j | 0 <= j < |cur|
      ensures a[j] == b[j]
    {
      assert IsPacked(j, savings) ==> j < HAND_KEYPOINT_COUNT;
    }
  }

  /** The manager state and the action after UpdateManager. */
  function Updated(s: LerpState, deltaTime: real, a: ActionSkeletalData, blend: BlendFn): (r: (LerpState, ActionSkeletalData))
    requires ValidState(s)
    ensures ValidState(r.0)
  {
    if !a.hasValidData || !s.lerping then (s, a)
    else
      var count := s.updateCount + deltaTime;
      var lerpVal := Clamp01(Progress(count, s.updateRate));
      if lerpVal >= 1.0 then
        (s.(lerping := false, updateCount := 0.0), a.(skeletalTransforms := s.newTransforms))
      else if !BlendGuard(|s.newTransforms|, |a.skeletalTransforms|, |a.oldSkeletalTransforms|) then
        (s.(updateCount := count), a)
      else
        (s.(updateCount := count),
         a.(skeletalTransforms := BlendAll(a.skeletalTransforms, a.oldSkeletalTransforms, s.newTransforms,
                                           lerpVal, a.enableUE4HandRepSavings, blend)))
  }

  /** UOpenXRHandPoseComponent::FTransformLerpManager */
  class TransformLerpManager {
    var replicatedOnce: bool
    var lerping: bool
    var updateCount: real
    var updateRate: Seconds
    var newTransforms: seq<Transform>

    ghost predicate Valid()
      reads this
    {
      ValidState(State())
    }

    function State(): LerpState
      reads this
    {
      LerpState(replicatedOnce, lerping, updateCount, updateRate, newTransforms)
    }

    constructor ()
      ensures Valid()
      ensures State() == LerpState(false, false, 0.0, Finite(0.0), [])
    {
      replicatedOnce := false;
      lerping := false;
      updateCount := 0.0;
      updateRate := Finite(0.0);
      newTransforms := [];
    }

    method NotifyNewData(actionInfo: ActionSkeletalData, netUpdateRate: int)
      requires Valid()
      modifies this
      ensures Valid()
      ensures State() == Notified(old(State()), actionInfo.skeletalTransforms, netUpdateRate)
    {
      updateRate := Reciprocal(netUpdateRate);
      if replicatedOnce {
        lerping := true;
        updateCount := 0.0;
        newTransforms := actionInfo.skeletalTransforms;
      } else {
        replicatedOnce := true;
      }
    }

    /** Blends one bone from the previous pose toward the new one; no other slot and no other field changes. */
    method BlendBone(bone: nat, actionInfo: ActionSkeletalData, lerpVal: real, blend: BlendFn) returns (r: ActionSkeletalData)
      requires bone < |actionInfo.skeletalTransforms| && bone < |actionInfo.oldSkeletalTransforms| && bone < |newTransforms|
      ensures r == actionInfo.(skeletalTransforms := actionInfo.skeletalTransforms[
                    bone := blend(actionInfo.oldSkeletalTransforms[bone], newTransforms[bone], lerpVal)])
    {
      var t := actionInfo.skeletalTransforms;
      t := t[bone := blend(actionInfo.oldSkeletalTransforms[bone], newTransforms[bone], lerpVal)];
      r := actionInfo.(skeletalTransforms := t);
    }

    /**
     * One finger's block of blends: the metacarpal unless the savings are on,
     * then the proximal, intermediate and distal bones; the tip is left alone.
     */
    method BlendFinger(metacarpal: nat, actionInfo: ActionSkeletalData, lerpVal: real, blend: BlendFn, ghost cur: seq<Transform>)
        returns (r: ActionSkeletalData)
      requires IsFingerMetacarpal(metacarpal)
      requires BlendGuard(|newTransforms|, |cur|, |actionInfo.oldSkeletalTransforms|)
      requires actionInfo.skeletalTransforms == BlendedBelow(cur, actionInfo.oldSkeletalTransforms, newTransforms, lerpVal,
                                                             actionInfo.enableUE4HandRepSavings, blend, metacarpal)
      ensures r == actionInfo.(skeletalTransforms := BlendedBelow(cur, actionInfo.oldSkeletalTransforms, newTransforms, lerpVal,
                                                                 actionInfo.enableUE4HandRepSavings, blend, metacarpal + 5))
    {
      var savings := actionInfo.enableUE4HandRepSavings;
      ghost var from := actionInfo.oldSkeletalTransforms;
      r := actionInfo;
      if !savings {
        r := BlendBone(metacarpal, r, lerpVal, blend);
        BlendedBelowStep(cur, from, newTransforms, lerpVal, savings, blend, metacarpal);
      } else {
        BlendedBelowSkip(cur, from, newTransforms, lerpVal, savings, blend, metacarpal);
      }
      assert r.skeletalTransforms == BlendedBelow(cur, from, newTransforms, lerpVal, savings, blend, metacarpal + 1);
      r := BlendBone(metacarpal + 1, r, lerpVal, blend);
      BlendedBelowStep(cur, from, newTransforms, lerpVal, savings, blend, metacarpal + 1);
      r := BlendBone(metacarpal + 2, r, lerpVal, blend);
      BlendedBelowStep(cur, from, newTransforms, lerpVal, savings, blend, metacarpal + 2);
      r := BlendBone(metacarpal + 3, r, lerpVal, blend);
      BlendedBelowStep(cur, from, newTransforms, lerpVal, savings, blend, metacarpal + 3);
      BlendedBelowSkip(cur, from, newTransforms, lerpVal, savings, blend, metacarpal + 4);
    }

    /** The palm reset and the bone blends of one mid-lerp update, in the source's order. */
    method BlendPose(actionInfo: ActionSkeletalData, lerpVal: real, blend: BlendFn) returns (r: ActionSkeletalData)
      requires BlendGuard(|newTransforms|, |actionInfo.skeletalTransforms|, |actionInfo.oldSkeletalTransforms|)
      ensures r == actionInfo.(skeletalTransforms := BlendAll(actionInfo.skeletalTransforms, actionInfo.oldSkeletalTransforms,
                                                            newTransforms, lerpVal, actionInfo.enableUE4HandRepSavings, blend))
    {
      var savings := actionInfo.enableUE4HandRepSavings;
      ghost var cur, from := actionInfo.skeletalTransforms, actionInfo.oldSkeletalTransforms;

      r := actionInfo.(skeletalTransforms := actionInfo.skeletalTransforms[PALM := Identity]);
      r := BlendBone(WRIST, r, lerpVal, blend);

      r := BlendBone(THUMB_METACARPAL, r, lerpVal, blend);
      r := BlendBone(THUMB_PROXIMAL, r, lerpVal, blend);
      r := BlendBone(THUMB_DISTAL, r, lerpVal, blend);
      assert r.skeletalTransforms == BlendedBelow(cur, from, newTransforms, lerpVal, savings, blend, THUMB_TIP);
      BlendedBelowSkip(cur, from, newTransforms, lerpVal, savings, blend, THUMB_TIP);

      r := BlendFinger(INDEX_METACARPAL, r, lerpVal, blend, cur);
      r := BlendFinger(MIDDLE_METACARPAL, r, lerpVal, blend, cur);
      r := BlendFinger(RING_METACARPAL, r, lerpVal, blend, cur);
      r := BlendFinger(LITTLE_METACARPAL, r, lerpVal, blend, cur);
      BlendedBelowAll(cur, from, newTransforms, lerpVal, savings, blend);
      assert r.skeletalTransforms == BlendAll(cur, from, newTransforms, lerpVal, savings, blend);
    }

    method UpdateManager(deltaTime: real, actionInfo: ActionSkeletalData, blend: BlendFn) returns (r: ActionSkeletalData)
      requires Valid()
      modifies this
      ensures Valid()
      ensures (State(), r) == Updated(old(State()), deltaTime, actionInfo, blend)
    {
      r := actionInfo;
      if !r.hasValidData {
        return;
      }

      if lerping {
        updateCount := updateCount + deltaTime;
        var lerpVal := Clamp01(Progress(updateCount, updateRate));

        if lerpVal >= 1.0 {
          lerping := false;
          updateCount := 0.0;
          r := r.(skeletalTransforms := newTransforms);
        } else {
          if |newTransforms| <= LITTLE_DISTAL
             || |newTransforms| != |r.skeletalTransforms| || |newTransforms| != |r.oldSkeletalTransforms| {
            return;
          }
          r := BlendPose(r, lerpVal, blend);
        }
      }
    }
  }

  /** The first notification only records that a pose has arrived; later ones start a lerp toward it. */
  lemma NotifiedFirstAndLater(s: LerpState, transforms: seq<Transform>, netUpdateRate: int)
    ensures var n := Notified(s, transforms, netUpdateRate);
      && n.updateRate == Reciprocal(netUpdateRate)
      && ValidState(n)
      && n.replicatedOnce
      && (!s.replicatedOnce ==> n == s.(replicatedOnce := true, updateRate := n.updateRate))
      && (s.replicatedOnce ==> n.lerping && n.updateCount == 0.0 && n.newTransforms == transforms)
  {
  }

  /** With no valid data or no lerp running, UpdateManager changes nothing. */
  lemma UpdatedIdle(s: LerpState, deltaTime: real, a: ActionSkeletalData, blend: BlendFn)
    requires ValidState(s) && (!a.hasValidData || !s.lerping)
    ensures Updated(s, deltaTime, a, blend) == (s, a)
  {
  }

  /** Once UpdateCount / UpdateRate reaches 1, the new pose is installed and the lerp stops. */
  lemma UpdatedFinishes(s: LerpState, deltaTime: real, a: ActionSkeletalData, blend: BlendFn)
    requires a.hasValidData && s.lerping && ValidState(s)
    requires Progress(s.updateCount + deltaTime, s.updateRate) >= 1.0
    ensures var (s', a') := Updated(s, deltaTime, a, blend);
      && !s'.lerping && s'.updateCount == 0.0
      && a' == a.(skeletalTransforms := s.newTransforms)
  {
  }

  /**
   * Mid-lerp, the action changes only when the three arrays agree in length and
   * hold every bone the blends write; then the palm becomes Identity, each packed
   * joint is blended from the old pose toward the new one by the clamped progress,
   * and the tips (and, with savings on, the finger metacarpals) are left alone.
   */
  lemma {:induction false} UpdatedMidLerp(s: LerpState, deltaTime: real, a: ActionSkeletalData, blend: BlendFn)
    requires a.hasValidData && s.lerping && ValidState(s)
    requires Progress(s.updateCount + deltaTime, s.updateRate) < 1.0
    ensures var (s', a') := Updated(s, deltaTime, a, blend);
      && s'.lerping && s'.updateCount == s.updateCount + deltaTime
      && (!BlendGuard(|s.newTransforms|, |a.skeletalTransforms|, |a.oldSkeletalTransforms|) ==> a' == a)
      && (BlendGuard(|s.newTransforms|, |a.skeletalTransforms|, |a.oldSkeletalTransforms|) ==>
            && a' == a.(skeletalTransforms := a'.skeletalTransforms)
            && |a'.skeletalTransforms| == |a.skeletalTransforms|
            && a'.skeletalTransforms[PALM] == Identity
            && (forall j: nat :: 0 < j < |a.skeletalTransforms| && !IsPacked(j, a.enableUE4HandRepSavings) ==>
                  a'.skeletalTransforms[j] == a.skeletalTransforms[j])
            && forall j: nat :: j < |a.skeletalTransforms| && IsPacked(j, a.enableUE4HandRepSavings) ==>
                 a'.skeletalTransforms[j] == blend(a.oldSkeletalTransforms[j], s.newTransforms[j],
                                                   Clamp01(Progress(s.updateCount + deltaTime, s.updateRate))))
  {
    var lerpVal := Clamp01(Progress(s.updateCount + deltaTime, s.updateRate));
    assert lerpVal < 1.0;
  }

  /** Successive UpdateManager calls with the given frame times and no new data in between. */
  function UpdateRun(s: LerpState, deltaTimes: seq<real>, a: ActionSkeletalData, blend: BlendFn): (r: (LerpState, ActionSkeletalData))
    requires ValidState(s)
    ensures ValidState(r.0)
    decreases |deltaTimes|
  {
    if |deltaTimes| == 0 then (s, a)
    else
      var (s', a') := Updated(s, deltaTimes[0], a, blend);
      UpdateRun(s', deltaTimes[1..], a', blend)
  }

  /** With an infinite interval the progress stays 0, so one update keeps the lerp running. */
  lemma InfiniteRateKeepsLerping(s: LerpState, deltaTime: real, a: ActionSkeletalData, blend: BlendFn)
    requires s.lerping && s.updateRate == PositiveInfinity
    ensures Updated(s, deltaTime, a, blend).0.lerping
    ensures Updated(s, deltaTime, a, blend).0.updateRate == PositiveInfinity
  {
  }

  /**
   * A rate that truncates to 0 makes the interval +infinity: until new data
   * arrives the lerp never completes, however many updates and however much
   * time pass.
   */
  lemma {:induction false} ZeroRateNeverFinishes(s: LerpState, transforms: seq<Transform>, deltaTimes: seq<real>, a: ActionSkeletalData, blend: BlendFn)
    requires s.replicatedOnce
    ensures var n := Notified(s, transforms, 0);
      && n.lerping && n.updateRate == PositiveInfinity
      && UpdateRun(n, deltaTimes, a, blend).0.lerping
  {
    InfiniteRunKeepsLerping(Notified(s, transforms, 0), deltaTimes, a, blend);
  }

  /** Every update of a run keeps a lerp with an infinite interval running. */
  lemma {:induction false} InfiniteRunKeepsLerping(s: LerpState, deltaTimes: seq<real>, a: ActionSkeletalData, blend: BlendFn)
    requires s.lerping && s.updateRate == PositiveInfinity
    ensures UpdateRun(s, deltaTimes, a, blend).0.lerping
    decreases |deltaTimes|
  {
    if |deltaTimes| > 0 {
      InfiniteRateKeepsLerping(s, deltaTimes[0], a, blend);
      var (s', a') := Updated(s, deltaTimes[0], a, blend);
      InfiniteRunKeepsLerping(s', deltaTimes[1..], a', blend);
    }
  }

  /**
   * The guard as written lets through arrays of PackedCount(savings) transforms
   * (17 or 21), although the blends then write bone 24 (the little distal).
   */
  lemma BlendGuardAsWrittenAdmitsShortArrays(savings: bool)
    ensures BlendGuardAsWritten(PackedCount(savings), PackedCount(savings), PackedCount(savings), savings)
    ensures PackedCount(savings) <= LITTLE_DISTAL
  {
  }

  /**
   * The corrected guard is the guard as written plus the bound the blends
   * need: on every input where the blends stay in range the two agree.
   */
  lemma BlendGuardAgreesInRange(newLen: nat, curLen: nat, oldLen: nat, savings: bool)
    ensures BlendGuard(newLen, curLen, oldLen) <==> BlendGuardAsWritten(newLen, curLen, oldLen, savings) && LITTLE_DISTAL < newLen
  {
  }

  /** The corrected guard admits only arrays in which every bone the lerp writes exists. */
  lemma BlendGuardCoversBlendedBones(newLen: nat, curLen: nat, oldLen: nat, savings: bool)
    requires BlendGuard(newLen, curLen, oldLen)
    ensures forall j: nat :: (j == PALM || IsPacked(j, savings)) ==> j < newLen && j < curLen && j < oldLen
  {
  }
}
