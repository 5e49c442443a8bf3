/**
 * The compact container that carries one hand's skeletal pose across the
 * network (FBPXRSkeletalRepContainer), the per-action skeletal record it is
 * packed from and unpacked into, and the index-selection codec between them.
 */
module SkeletalReplication {
  import opened HandJoints

  /** FBPOpenXRActionSkeletalData, reduced to the fields the replication reads and writes. */
  datatype ActionSkeletalData = ActionSkeletalData(
    targetHand: SkeletalHand,
    hasValidData: bool,
    allowDeformingMesh: bool,
    enableUE4HandRepSavings: bool,
    skeletalTransforms: seq<Transform>,
    oldSkeletalTransforms: seq<Transform>)

  /** What TArray::AddUninitialized(n) appends. */
  function Uninit(n: nat): (t: seq<Transform>)
    ensures |t| == n && forall i :: 0 <= i < n ==> t[i] == Uninitialized
  {
    seq(n, _ => Uninitialized)
  }

  /** `if (Num() != n) { Reset(n); AddUninitialized(n); }` */
  function Resized(t: seq<Transform>, n: nat): seq<Transform> {
    if |t| == n then t else Uninit(n)
  }

  /** `if (Num() != n) Reset(n); { AddUninitialized(n); }`: the block is not governed by the `if`. */
  function ResizedAsWritten(t: seq<Transform>, n: nat): seq<Transform> {
    (if |t| != n then [] else t) + Uninit(n)
  }

  /** The joints a full skeleton contributes to the wire, in wire order. */
  function Pack(src: seq<Transform>, savings: bool): (p: seq<Transform>)
    requires |src| >= HAND_KEYPOINT_COUNT
    ensures |p| == |PackedJoints(savings)|
  {
    var js := PackedJoints(savings);
    seq(|js|, k requires 0 <= k < |js| => src[js[k]])
  }

  /**
   * The container's transform array after a successful pack: the packed joints,
   * then one slot that the pack never writes (whatever the resize left there).
   */
  function PackedTransforms(prior: seq<Transform>, src: seq<Transform>, savings: bool): (p: seq<Transform>)
    requires |src| >= HAND_KEYPOINT_COUNT
    ensures |p| == PackedCount(savings)
    ensures p[..|PackedJoints(savings)|] == Pack(src, savings)
    ensures forall k :: 0 <= k < |PackedJoints(savings)| ==> p[k] == src[PackedJoints(savings)[k]]
    ensures |prior| != PackedCount(savings) ==> p[PackedCount(savings) - 1] == Uninitialized
    ensures |prior| == PackedCount(savings) ==> p[PackedCount(savings) - 1] == prior[PackedCount(savings) - 1]
  {
    var n := PackedCount(savings);
    Pack(src, savings) + [Resized(prior, n)[n - 1]]
  }

  /**
   * The target array after the unpack has written into `dst`: palm and, with
   * savings on, the finger metacarpals become Identity; every carried joint is
   * read from its slot; tips and anything past the 26 keypoints stay as they were.
   */
  function Unpack(dst: seq<Transform>, packed: seq<Transform>, savings: bool): (r: seq<Transform>)
    requires |dst| >= HAND_KEYPOINT_COUNT && |packed| >= |PackedJoints(savings)|
    ensures |r| == |dst|
  {
    seq(|dst|, j requires 0 <= j < |dst| =>
      if j == PALM then Identity
      else if IsPacked(j, savings) then packed[SlotOf(j, savings)]
      else if savings && IsFingerMetacarpal(j) then Identity
      else dst[j])
  }

  /** The action after `CopyReplicatedTo(Container, Other)`, with the resize the code evidently intends. */
  function ReplicatedTo(savings: bool, deform: bool, packed: seq<Transform>, other: ActionSkeletalData): (r: ActionSkeletalData)
    ensures r.targetHand == other.targetHand && r.oldSkeletalTransforms == other.oldSkeletalTransforms
    ensures |packed| < PackedCount(savings) ==>
      && r.skeletalTransforms == [] && !r.hasValidData
      && r.allowDeformingMesh == other.allowDeformingMesh
      && r.enableUE4HandRepSavings == other.enableUE4HandRepSavings
    ensures |packed| >= PackedCount(savings) ==>
      && r.hasValidData
      && r.allowDeformingMesh == deform && r.enableUE4HandRepSavings == savings
      && |r.skeletalTransforms| == HAND_KEYPOINT_COUNT
      && r.skeletalTransforms[PALM] == Identity
      && (forall j: nat :: IsPacked(j, savings) ==> r.skeletalTransforms[j] == packed[SlotOf(j, savings)])
      && (savings ==> forall j: nat :: IsFingerMetacarpal(j) ==> r.skeletalTransforms[j] == Identity)
      && (forall j :: 0 <= j < HAND_KEYPOINT_COUNT && IsTip(j) ==>
            r.skeletalTransforms[j] == Resized(other.skeletalTransforms, HAND_KEYPOINT_COUNT)[j])
  {
    if |packed| < PackedCount(savings) then
      other.(skeletalTransforms := [], hasValidData := false)
    else
      other.(allowDeformingMesh := deform, enableUE4HandRepSavings := savings,
             skeletalTransforms := Unpack(Resized(other.skeletalTransforms, HAND_KEYPOINT_COUNT), packed, savings),
             hasValidData := true)
  }

  /** The action after `CopyReplicatedTo(Container, Other)` exactly as the source writes it. */
  function ReplicatedToAsWritten(savings: bool, deform: bool, packed: seq<Transform>, other: ActionSkeletalData): ActionSkeletalData {
    if |packed| < PackedCount(savings) then
      other.(skeletalTransforms := [], hasValidData := false)
    else
      other.(allowDeformingMesh := deform, enableUE4HandRepSavings := savings,
             skeletalTransforms := Unpack(ResizedAsWritten(other.skeletalTransforms, HAND_KEYPOINT_COUNT), packed, savings),
             hasValidData := true)
  }

  /** Writes the carried joints of `src` into the first slots of `dst` with a running slot cursor. */
  method WritePacked(dst: seq<Transform>, src: seq<Transform>, savings: bool) returns (t: seq<Transform>)
    requires |src| >= HAND_KEYPOINT_COUNT && |dst| == PackedCount(savings)
    ensures t == Pack(src, savings) + dst[|PackedJoints(savings)|..]
  {
    t := dst;
    var idx := 0;
    t := t[idx := src[WRIST]]; idx := idx + 1;
    t := t[idx := src[THUMB_METACARPAL]]; idx := idx + 1;
    t := t[idx := src[THUMB_PROXIMAL]]; idx := idx + 1;
    t := t[idx := src[THUMB_DISTAL]]; idx := idx + 1;

    if !savings {
      t := t[idx := src[INDEX_METACARPAL]]; idx := idx + 1;
    }
    t := t[idx := src[INDEX_PROXIMAL]]; idx := idx + 1;
    t := t[idx := src[INDEX_INTERMEDIATE]]; idx := idx + 1;
    t := t[idx := src[INDEX_DISTAL]]; idx := idx + 1;

    if !savings {
      t := t[idx := src[MIDDLE_METACARPAL]]; idx := idx + 1;
    }
    t := t[idx := src[MIDDLE_PROXIMAL]]; idx := idx + 1;
    t := t[idx := src[MIDDLE_INTERMEDIATE]]; idx := idx + 1;
    t := t[idx := src[MIDDLE_DISTAL]]; idx := idx + 1;

    if !savings {
      t := t[idx := src[RING_METACARPAL]]; idx := idx + 1;
    }
    t := t[idx := src[RING_PROXIMAL]]; idx := idx + 1;
    t := t[idx := src[RING_INTERMEDIATE]]; idx := idx + 1;
    t := t[idx := src[RING_DISTAL]]; idx := idx + 1;

    if !savings {
      t := t[idx := src[LITTLE_METACARPAL]]; idx := idx + 1;
    }
    t := t[idx := src[LITTLE_PROXIMAL]]; idx := idx + 1;
    t := t[idx := src[LITTLE_INTERMEDIATE]]; idx := idx + 1;
    t := t[idx := src[LITTLE_DISTAL]]; idx := idx + 1;
    assert idx == |PackedJoints(savings)|;
  }

  /** Writes the carried joints into `t` with a running slot cursor, as both unpack variants do. */
  method WriteUnpacked(t: seq<Transform>, packed: seq<Transform>, savings: bool) returns (r: seq<Transform>)
    requires |t| >= HAND_KEYPOINT_COUNT && |packed| >= |PackedJoints(savings)|
    ensures r == Unpack(t, packed, savings)
  {
    r := t;
    var idx := 0;
    r := r[PALM := Identity];
    r := r[WRIST := packed[idx]]; idx := idx + 1;

    r := r[THUMB_METACARPAL := packed[idx]]; idx := idx + 1;
    r := r[THUMB_PROXIMAL := packed[idx]]; idx := idx + 1;
    r := r[THUMB_DISTAL := packed[idx]]; idx := idx + 1;

    if !savings {
      r := r[INDEX_METACARPAL := packed[idx]]; idx := idx + 1;
    } else {
      r := r[INDEX_METACARPAL := Identity];
    }
    r := r[INDEX_PROXIMAL := packed[idx]]; idx := idx + 1;
    r := r[INDEX_INTERMEDIATE := packed[idx]]; idx := idx + 1;
    r := r[INDEX_DISTAL := packed[idx]]; idx := idx + 1;

    if !savings {
      r := r[MIDDLE_METACARPAL := packed[idx]]; idx := idx + 1;
    } else {
      r := r[MIDDLE_METACARPAL := Identity];
    }
    r := r[MIDDLE_PROXIMAL := packed[idx]]; idx := idx + 1;
    r := r[MIDDLE_INTERMEDIATE := packed[idx]]; idx := idx + 1;
    r := r[MIDDLE_DISTAL := packed[idx]]; idx := idx + 1;

    if !savings {
      r := r[RING_METACARPAL := packed[idx]]; idx := idx + 1;
    } else {
      r := r[RING_METACARPAL := Identity];
    }
    r := r[RING_PROXIMAL := packed[idx]]; idx := idx + 1;
    r := r[RING_INTERMEDIATE := packed[idx]]; idx := idx + 1;
    r := r[RING_DISTAL := packed[idx]]; idx := idx + 1;

    if !savings {
      r := r[LITTLE_METACARPAL := packed[idx]]; idx := idx + 1;
    } else {
      r := r[LITTLE_METACARPAL := Identity];
    }
    r := r[LITTLE_PROXIMAL := packed[idx]]; idx := idx + 1;
    r := r[LITTLE_INTERMEDIATE := packed[idx]]; idx := idx + 1;
    r := r[LITTLE_DISTAL := packed[idx]]; idx := idx + 1;

    assert idx == |PackedJoints(savings)|;
  }

  /** FBPXRSkeletalRepContainer */
  class RepContainer {
    var targetHand: SkeletalHand
    var allowDeformingMesh: bool
    // If true the four finger metacarpals are not sent
    var enableUE4HandRepSavings: bool
    var skeletalTransforms: seq<Transform>
    var boneCount: nat

    constructor ()
      ensures targetHand == Left && !allowDeformingMesh && enableUE4HandRepSavings && boneCount == 0
      ensures skeletalTransforms == []
    {
      targetHand := Left;
      allowDeformingMesh := false;
      enableUE4HandRepSavings := true;
      boneCount := 0;
      skeletalTransforms := [];
    }

    /** bHasValidData() */
    function HasValidData(): (b: bool)
      reads this
      ensures b <==> |skeletalTransforms| > 0
    {
      |skeletalTransforms| > 0
    }

    /** Struct assignment `Rep = Other`. */
    method CopyFrom(other: RepContainer)
      modifies this
      ensures targetHand == old(other.targetHand) && allowDeformingMesh == old(other.allowDeformingMesh)
      ensures enableUE4HandRepSavings == old(other.enableUE4HandRepSavings)
      ensures skeletalTransforms == old(other.skeletalTransforms) && boneCount == old(other.boneCount)
    {
      targetHand, allowDeformingMesh, enableUE4HandRepSavings, skeletalTransforms, boneCount :=
        other.targetHand, other.allowDeformingMesh, other.enableUE4HandRepSavings, other.skeletalTransforms, other.boneCount;
    }

    /** Packs the action's skeleton into this container. */
    method CopyForReplication(other: ActionSkeletalData)
      modifies this
      ensures targetHand == other.targetHand && boneCount == old(boneCount)
      ensures !other.hasValidData ==>
        && allowDeformingMesh == old(allowDeformingMesh)
        && enableUE4HandRepSavings == old(enableUE4HandRepSavings)
        && skeletalTransforms == old(skeletalTransforms)
      ensures other.hasValidData ==>
        allowDeformingMesh == other.allowDeformingMesh && enableUE4HandRepSavings == other.enableUE4HandRepSavings
      ensures other.hasValidData && |other.skeletalTransforms| < HAND_KEYPOINT_COUNT ==> skeletalTransforms == []
      ensures other.hasValidData && |other.skeletalTransforms| >= HAND_KEYPOINT_COUNT ==>
        skeletalTransforms == PackedTransforms(old(skeletalTransforms), other.skeletalTransforms, other.enableUE4HandRepSavings)
      ensures HasValidData() <==>
        if other.hasValidData then |other.skeletalTransforms| >= HAND_KEYPOINT_COUNT else old(HasValidData())
    {
      targetHand := other.targetHand;

      if !other.hasValidData {
        return;
      }

      allowDeformingMesh := other.allowDeformingMesh;
      enableUE4HandRepSavings := other.enableUE4HandRepSavings;

      if |other.skeletalTransforms| < HAND_KEYPOINT_COUNT {
        skeletalTransforms := [];
        return;
      }

      var count := HAND_KEYPOINT_COUNT - BoneCountAdjustment(enableUE4HandRepSavings);
      if |skeletalTransforms| != count {
        skeletalTransforms := [];
        skeletalTransforms := skeletalTransforms + Uninit(count);
      }
      ghost var resized := skeletalTransforms;

      skeletalTransforms := WritePacked(skeletalTransforms, other.skeletalTransforms, enableUE4HandRepSavings);
      assert resized == Resized(old(skeletalTransforms), count);
    }

    /** Unpacks `container` into the action, with the resize the code evidently intends. */
    static method CopyReplicatedTo(container: RepContainer, other: ActionSkeletalData) returns (r: ActionSkeletalData)
      ensures r == ReplicatedTo(container.enableUE4HandRepSavings, container.allowDeformingMesh, container.skeletalTransforms, other)
    {
      r := other;
      var adjustment := BoneCountAdjustment(container.enableUE4HandRepSavings);
      if |container.skeletalTransforms| < HAND_KEYPOINT_COUNT - adjustment {
        r := r.(skeletalTransforms := []);
        r := r.(hasValidData := false);
        return;
      }

      r := r.(allowDeformingMesh := container.allowDeformingMesh);
      r := r.(enableUE4HandRepSavings := container.enableUE4HandRepSavings);

      if |r.skeletalTransforms| != HAND_KEYPOINT_COUNT {
        r := r.(skeletalTransforms := []);
        r := r.(skeletalTransforms := r.skeletalTransforms + Uninit(HAND_KEYPOINT_COUNT));
      }

      var t := WriteUnpacked(r.skeletalTransforms, container.skeletalTransforms, container.enableUE4HandRepSavings);
      r := r.(skeletalTransforms := t);
      r := r.(hasValidData := true);
    }

    /** Unpacks `container` into the action exactly as the source writes it. */
    static method CopyReplicatedToAsWritten(container: RepContainer, other: ActionSkeletalData) returns (r: ActionSkeletalData)
      ensures r == ReplicatedToAsWritten(container.enableUE4HandRepSavings, container.allowDeformingMesh, container.skeletalTransforms, other)
    {
      r := other;
      var adjustment := BoneCountAdjustment(container.enableUE4HandRepSavings);
      if |container.skeletalTransforms| < HAND_KEYPOINT_COUNT - adjustment {
        r := r.(skeletalTransforms := []);
        r := r.(hasValidData := false);
        return;
      }

      r := r.(allowDeformingMesh := container.allowDeformingMesh);
      r := r.(enableUE4HandRepSavings := container.enableUE4HandRepSavings);

      if |r.skeletalTransforms| != HAND_KEYPOINT_COUNT {
        r := r.(skeletalTransforms := []);
      }
      r := r.(skeletalTransforms := r.skeletalTransforms + Uninit(HAND_KEYPOINT_COUNT));

      var t := WriteUnpacked(r.skeletalTransforms, container.skeletalTransforms, container.enableUE4HandRepSavings);
      r := r.(skeletalTransforms := t);
      r := r.(hasValidData := true);
    }
  }

  /**
   * Round trip: unpacking a container packed from a full skeleton gives back
   * every joint the container carries, at the same index, and the flags.
   */
  lemma {:induction false} RoundTrip(src: ActionSkeletalData, prior: seq<Transform>, target: ActionSkeletalData)
    requires src.hasValidData && |src.skeletalTransforms| >= HAND_KEYPOINT_COUNT
    ensures var savings := src.enableUE4HandRepSavings;
      var packed := PackedTransforms(prior, src.skeletalTransforms, savings);
      var r := ReplicatedTo(savings, src.allowDeformingMesh, packed, target);
      && r.hasValidData
      && r.allowDeformingMesh == src.allowDeformingMesh && r.enableUE4HandRepSavings == savings
      && forall j: nat :: IsPacked(j, savings) ==> r.skeletalTransforms[j] == src.skeletalTransforms[j]
  {
    var savings := src.enableUE4HandRepSavings;
    var packed := PackedTransforms(prior, src.skeletalTransforms, savings);
    var r := ReplicatedTo(savings, src.allowDeformingMesh, packed, target);
    forall j: nat | IsPacked(j, savings)
      ensures r.skeletalTransforms[j] == src.skeletalTransforms[j]
    {
      var k := SlotOf(j, savings);
      assert packed[k] == src.skeletalTransforms[PackedJoints(savings)[k]];
    }
  }

  /** The code as written: a target that already holds 26 transforms comes out holding 52. */
  lemma AsWrittenGrowsFullTarget(savings: bool, deform: bool, packed: seq<Transform>, other: ActionSkeletalData)
    requires |packed| >= PackedCount(savings) && |other.skeletalTransforms| == HAND_KEYPOINT_COUNT
    ensures |ReplicatedToAsWritten(savings, deform, packed, other).skeletalTransforms| == 2 * HAND_KEYPOINT_COUNT
  {
  }

  /** The corrected unpack keeps the target at exactly 26 transforms on every accepted container. */
  lemma ReplicatedKeepsKeypointCount(savings: bool, deform: bool, packed: seq<Transform>, other: ActionSkeletalData)
    requires |packed| >= PackedCount(savings)
    ensures |ReplicatedTo(savings, deform, packed, other).skeletalTransforms| == HAND_KEYPOINT_COUNT
    ensures ReplicatedTo(savings, deform, packed, other).skeletalTransforms[..HAND_KEYPOINT_COUNT]
         == ReplicatedToAsWritten(savings, deform, packed, other).skeletalTransforms[..HAND_KEYPOINT_COUNT]
  {
  }
}
