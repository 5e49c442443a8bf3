/**
 * Hand joints as numbered by the XrHandJointEXT enumeration of the
 * XR_EXT_hand_tracking extension to OpenXR 1.0, the opaque bone transform,
 * and the selection of joints that the skeletal replication sends.
 */
module HandJoints {

  // XrHandJointEXT
  const PALM: nat := 0
  const WRIST: nat := 1
  const THUMB_METACARPAL: nat := 2
  const THUMB_PROXIMAL: nat := 3
  const THUMB_DISTAL: nat := 4
  const THUMB_TIP: nat := 5
  const INDEX_METACARPAL: nat := 6
  const INDEX_PROXIMAL: nat := 7
  const INDEX_INTERMEDIATE: nat := 8
  const INDEX_DISTAL: nat := 9
  const INDEX_TIP: nat := 10
  const MIDDLE_METACARPAL: nat := 11
  const MIDDLE_PROXIMAL: nat := 12
  const MIDDLE_INTERMEDIATE: nat := 13
  const MIDDLE_DISTAL: nat := 14
  const MIDDLE_TIP: nat := 15
  const RING_METACARPAL: nat := 16
  const RING_PROXIMAL: nat := 17
  const RING_INTERMEDIATE: nat := 18
  const RING_DISTAL: nat := 19
  const RING_TIP: nat := 20
  const LITTLE_METACARPAL: nat := 21
  const LITTLE_PROXIMAL: nat := 22
  const LITTLE_INTERMEDIATE: nat := 23
  const LITTLE_DISTAL: nat := 24
  const LITTLE_TIP: nat := 25

  /** EHandKeypointCount */
  const HAND_KEYPOINT_COUNT: nat := 26

  /**
   * A bone transform. Its numeric content is never inspected here, so it is
   * opaque apart from the engine's `Identity`. `Uninitialized` stands for the
   * indeterminate content of a slot that `AddUninitialized` created and that
   * nothing has written yet.
   */
  datatype Transform = Identity | Pose(id: int) | Uninitialized

  /** EVRSkeletalHandIndex (serialized as a single bit) */
  datatype SkeletalHand = Left | Right

  predicate IsTip(j: nat) {
    j == THUMB_TIP || j == INDEX_TIP || j == MIDDLE_TIP || j == RING_TIP || j == LITTLE_TIP
  }

  /** The metacarpals of the four fingers (not the thumb): the bones the hand-rep savings skip. */
  predicate IsFingerMetacarpal(j: nat) {
    j == INDEX_METACARPAL || j == MIDDLE_METACARPAL || j == RING_METACARPAL || j == LITTLE_METACARPAL
  }

  /** Joints the packed container carries: everything but the palm and the tips,
      and, with savings on, not the finger metacarpals either. */
  predicate IsPacked(j: nat, savings: bool) {
    j < HAND_KEYPOINT_COUNT && j != PALM && !IsTip(j) && !(savings && IsFingerMetacarpal(j))
  }

  /** The joints of one finger in wire order, given its metacarpal. */
  function FingerJoints(metacarpal: nat, savings: bool): seq<nat> {
    (if savings then [] else [metacarpal]) + [metacarpal + 1, metacarpal + 2, metacarpal + 3]
  }

  /** The joint written into each packed slot, in the order the pack and unpack write them. */
  function PackedJoints(savings: bool): (js: seq<nat>)
    ensures |js| == if savings then 16 else 20
    ensures forall k :: 0 <= k < |js| ==> IsPacked(js[k], savings)
    ensures forall k, l :: 0 <= k < l < |js| ==> js[k] < js[l]
  {
    [WRIST, THUMB_METACARPAL, THUMB_PROXIMAL, THUMB_DISTAL]
    + FingerJoints(INDEX_METACARPAL, savings)
    + FingerJoints(MIDDLE_METACARPAL, savings)
    + FingerJoints(RING_METACARPAL, savings)
    + FingerJoints(LITTLE_METACARPAL, savings)
  }

  /** BoneCountAdjustment: 5, plus 4 when the hand-rep savings are on. */
  function BoneCountAdjustment(savings: bool): nat {
    5 + (if savings then 4 else 0)
  }

  /** The length of the packed transform array: EHandKeypointCount - BoneCountAdjustment. */
  function PackedCount(savings: bool): (n: nat)
    ensures n == |PackedJoints(savings)| + 1
  {
    HAND_KEYPOINT_COUNT - BoneCountAdjustment(savings)
  }

  /** Position of slot `j - m` within a finger whose metacarpal is `m`, whose first slot is `base`. */
  function FingerSlot(j: nat, m: nat, base: nat, savings: bool): int {
    base + (j - m) - (if savings then 1 else 0)
  }

  /** The packed slot a joint travels in: the inverse of PackedJoints. */
  function SlotOf(j: nat, savings: bool): (k: nat)
    requires IsPacked(j, savings)
    ensures k < |PackedJoints(savings)| && PackedJoints(savings)[k] == j
  {
    if j <= THUMB_DISTAL then j - WRIST
    else if j < MIDDLE_METACARPAL then FingerSlot(j, INDEX_METACARPAL, 4, savings)
    else if j < RING_METACARPAL then FingerSlot(j, MIDDLE_METACARPAL, if savings then 7 else 8, savings)
    else if j < LITTLE_METACARPAL then FingerSlot(j, RING_METACARPAL, if savings then 10 else 12, savings)
    else FingerSlot(j, LITTLE_METACARPAL, if savings then 13 else 16, savings)
  }

  /** Slots and packed joints are in one-to-one correspondence. */
  lemma SlotOfPackedJoint(savings: bool, k: nat)
    requires k < |PackedJoints(savings)|
    ensures SlotOf(PackedJoints(savings)[k], savings) == k
  {
    var js := PackedJoints(savings);
    var k' := SlotOf(js[k], savings);
    // js is strictly increasing, so js[k'] == js[k] pins k' to k
    assert js[k'] == js[k];
  }

  /** The joints the container does not carry are exactly the palm, the tips and,
      with savings on, the finger metacarpals. */
  lemma NotPackedJoints(savings: bool, j: nat)
    requires j < HAND_KEYPOINT_COUNT
    ensures !IsPacked(j, savings) <==> j == PALM || IsTip(j) || (savings && IsFingerMetacarpal(j))
    ensures j !in PackedJoints(savings) <==> !IsPacked(j, savings)
  {
    if IsPacked(j, savings) {
      var k := SlotOf(j, savings);
    }
  }
}
