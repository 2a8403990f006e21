/**
 * The transform queries of `HandGestureModel`: a hand's world transform, a joint's
 * transform relative to its hand, the joint's world transform (hand times joint), and
 * the point between the right index and middle fingertips. Each reads only
 * `latestHandTracking`, so each is a function of that value; each is absent exactly
 * when something it needs is missing or untracked.
 */
module HandQueries {
  import opened Optional
  import opened Simd
  import opened Extensions
  import opened ARKit
  import opened HandStore

  /** `m.columns.3.xyz`: the translation of a homogeneous transform. */
  function Translation(m: Mat4): Vec3
  {
    Xyz(m.col3)
  }

  /**
   * The hand anchor's world transform: absent when the slot is empty or its anchor is
   * not tracked.
   */
  function AnchorOriginFromAnchor(h: HandsUpdates, side: Chirality): Option<Mat4>
  {
    match h.Side(side)
    case Some(anchor) => if anchor.isTracked then Some(anchor.originFromAnchorTransform) else None
    case None => None
  }

  /**
   * `latestHandTracking.<side>?.handSkeleton?.joint(name)`, when tracked: the joint's
   * transform relative to its hand anchor.
   */
  function AnchorFromJoint(h: HandsUpdates, side: Chirality, name: JointName): Option<Mat4>
  {
    match h.Side(side)
    case None => None
    case Some(anchor) =>
      match anchor.Joint(name)
      case None => None
      case Some(joint) => if joint.isTracked then Some(joint.anchorFromJointTransform) else None
  }

  /** The joint's world transform: `matrix_multiply(hand, joint)` when both are present. */
  function OriginFromJoint(h: HandsUpdates, side: Chirality, name: JointName): Option<Mat4>
  {
    match (AnchorOriginFromAnchor(h, side), AnchorFromJoint(h, side, name))
    case (Some(hand), Some(joint)) => Some(MatMul(hand, joint))
    case _ => None
  }

  /** `rightHandAnchorOriginFromAnchorTransform()` */
  function RightHandAnchorOriginFromAnchorTransform(h: HandsUpdates): (r: Option<Mat4>)
    ensures r.Some? <==> h.right.Some? && h.right.value.isTracked
    ensures r.Some? ==> r.value == h.right.value.originFromAnchorTransform
  {
    AnchorOriginFromAnchor(h, Right)
  }

  /** `rightHandIndexFingerTipAnchorFromJointTransform()`: does not look at whether the hand is tracked. */
  function RightHandIndexFingerTipAnchorFromJointTransform(h: HandsUpdates): (r: Option<Mat4>)
    ensures r.Some? <==> h.right.Some? && h.right.value.JointTracked(IndexFingerTip)
    ensures r.Some? ==> r.value == h.right.value.Joint(IndexFingerTip).value.anchorFromJointTransform
  {
    AnchorFromJoint(h, Right, IndexFingerTip)
  }

  /** `originFromRightHandIndexFingerTipTransform()` */
  function OriginFromRightHandIndexFingerTipTransform(h: HandsUpdates): (r: Option<Mat4>)
    ensures r.Some? <==>
      RightHandAnchorOriginFromAnchorTransform(h).Some? && RightHandIndexFingerTipAnchorFromJointTransform(h).Some?
    ensures r.Some? ==>
      r.value == MatMul(RightHandAnchorOriginFromAnchorTransform(h).value, RightHandIndexFingerTipAnchorFromJointTransform(h).value)
  {
    OriginFromJoint(h, Right, IndexFingerTip)
  }

  /** `rightHandMiddleFingerTipAnchorFromJointTransform()`: does not look at whether the hand is tracked. */
  function RightHandMiddleFingerTipAnchorFromJointTransform(h: HandsUpdates): (r: Option<Mat4>)
    ensures r.Some? <==> h.right.Some? && h.right.value.JointTracked(MiddleFingerTip)
    ensures r.Some? ==> r.value == h.right.value.Joint(MiddleFingerTip).value.anchorFromJointTransform
  {
    AnchorFromJoint(h, Right, MiddleFingerTip)
  }

  /** `originFromRightHandMiddleFingerTipTransform()` */
  function OriginFromRightHandMiddleFingerTipTransform(h: HandsUpdates): (r: Option<Mat4>)
    ensures r.Some? <==>
      RightHandAnchorOriginFromAnchorTransform(h).Some? && RightHandMiddleFingerTipAnchorFromJointTransform(h).Some?
    ensures r.Some? ==>
      r.value == MatMul(RightHandAnchorOriginFromAnchorTransform(h).value, RightHandMiddleFingerTipAnchorFromJointTransform(h).value)
  {
    OriginFromJoint(h, Right, MiddleFingerTip)
  }

  /** `leftHandAnchorOriginFromAnchorTransform()` */
  function LeftHandAnchorOriginFromAnchorTransform(h: HandsUpdates): (r: Option<Mat4>)
    ensures r.Some? <==> h.left.Some? && h.left.value.isTracked
    ensures r.Some? ==> r.value == h.left.value.originFromAnchorTransform
  {
    AnchorOriginFromAnchor(h, Left)
  }

  /** `leftHandIndexFingerTipAnchorFromJointTransform()`: does not look at whether the hand is tracked. */
  function LeftHandIndexFingerTipAnchorFromJointTransform(h: HandsUpdates): (r: Option<Mat4>)
    ensures r.Some? <==> h.left.Some? && h.left.value.JointTracked(IndexFingerTip)
    ensures r.Some? ==> r.value == h.left.value.Joint(IndexFingerTip).value.anchorFromJointTransform
  {
    AnchorFromJoint(h, Left, IndexFingerTip)
  }

  /** `originFromLeftHandIndexFingerTipTransform()` */
  function OriginFromLeftHandIndexFingerTipTransform(h: HandsUpdates): (r: Option<Mat4>)
    ensures r.Some? <==>
      LeftHandAnchorOriginFromAnchorTransform(h).Some? && LeftHandIndexFingerTipAnchorFromJointTransform(h).Some?
    ensures r.Some? ==>
      r.value == MatMul(LeftHandAnchorOriginFromAnchorTransform(h).value, LeftHandIndexFingerTipAnchorFromJointTransform(h).value)
  {
    OriginFromJoint(h, Left, IndexFingerTip)
  }

  /** `leftHandMiddleFingerTipAnchorFromJointTransform()`: does not look at whether the hand is tracked. */
  function LeftHandMiddleFingerTipAnchorFromJointTransform(h: HandsUpdates): (r: Option<Mat4>)
    ensures r.Some? <==> h.left.Some? && h.left.value.JointTracked(MiddleFingerTip)
    ensures r.Some? ==> r.value == h.left.value.Joint(MiddleFingerTip).value.anchorFromJointTransform
  {
    AnchorFromJoint(h, Left, MiddleFingerTip)
  }

  /** `originFromLeftHandMiddleFingerTipTransform()` */
  function OriginFromLeftHandMiddleFingerTipTransform(h: HandsUpdates): (r: Option<Mat4>)
    ensures r.Some? <==>
      LeftHandAnchorOriginFromAnchorTransform(h).Some? && LeftHandMiddleFingerTipAnchorFromJointTransform(h).Some?
    ensures r.Some? ==>
      r.value == MatMul(LeftHandAnchorOriginFromAnchorTransform(h).value, LeftHandMiddleFingerTipAnchorFromJointTransform(h).value)
  {
    OriginFromJoint(h, Left, MiddleFingerTip)
  }

  /**
   * `rightHandFingerCenterTransform()`: a transform without rotation placed halfway
   * between the right index and middle fingertips.
   */
  function RightHandFingerCenterTransform(h: HandsUpdates): (r: Option<Mat4>)
    ensures r.Some? <==>
      OriginFromRightHandIndexFingerTipTransform(h).Some? && OriginFromRightHandMiddleFingerTipTransform(h).Some?
    ensures r.Some? ==>
      r.value.col0 == Identity.col0 && r.value.col1 == Identity.col1 && r.value.col2 == Identity.col2 &&
      r.value.col3.w == 1.0
    ensures r.Some? ==>
      var t := Translation(r.value);
      Sub(t, Translation(OriginFromRightHandIndexFingerTipTransform(h).value)) ==
      Sub(Translation(OriginFromRightHandMiddleFingerTipTransform(h).value), t)
  {
    match (OriginFromRightHandIndexFingerTipTransform(h), OriginFromRightHandMiddleFingerTipTransform(h))
    case (Some(index), Some(middle)) =>
      var position1 := Translation(index);
      var position2 := Translation(middle);
      var centerPosition := Scale(0.5, Add(position1, position2));
      Some(Identity.(col3 := Extend(centerPosition, 1.0)))
    case _ => None
  }

  /** With the identity as the hand's transform, a joint's world transform is its hand-relative one. */
  lemma IdentityHandKeepsJoint(h: HandsUpdates, side: Chirality, name: JointName)
    requires AnchorOriginFromAnchor(h, side) == Some(Identity)
    ensures OriginFromJoint(h, side, name) == AnchorFromJoint(h, side, name)
  {
    if AnchorFromJoint(h, side, name).Some? {
      MatMulIdentityLeft(AnchorFromJoint(h, side, name).value);
    }
  }

  /**
   * A joint's world position is its hand-relative position (a point: fourth component
   * 1) carried into world space by the hand's transform.
   */
  lemma JointWorldPosition(h: HandsUpdates, side: Chirality, name: JointName)
    requires OriginFromJoint(h, side, name).Some?
    requires AnchorFromJoint(h, side, name).value.col3.w == 1.0
    ensures Translation(OriginFromJoint(h, side, name).value) ==
      Xyz(MulVec(AnchorOriginFromAnchor(h, side).value,
                 Extend(Translation(AnchorFromJoint(h, side, name).value), 1.0)))
  {
  }

  /** In a valid store a hand's transform is present exactly when its slot is filled. */
  lemma HandQueriesOnValidStore(h: HandsUpdates)
    requires h.Valid()
    ensures LeftHandAnchorOriginFromAnchorTransform(h).Some? <==> h.left.Some?
    ensures RightHandAnchorOriginFromAnchorTransform(h).Some? <==> h.right.Some?
  {
  }

  /**
   * After any sequence of updates from no hands, the right hand's transform is that of
   * the last tracked `.updated` right anchor, and absent when there was none.
   */
  lemma {:induction false} RightHandAfterUpdates(us: seq<AnchorUpdate>)
    ensures RightHandAnchorOriginFromAnchorTransform(Fold(NoHands, us)) ==
      if LastStored(us, Right).Some? then Some(LastStored(us, Right).value.originFromAnchorTransform) else None
  {
    FromNoHands(us);
  }

  /** The same for the left hand. */
  lemma {:induction false} LeftHandAfterUpdates(us: seq<AnchorUpdate>)
    ensures LeftHandAnchorOriginFromAnchorTransform(Fold(NoHands, us)) ==
      if LastStored(us, Left).Some? then Some(LastStored(us, Left).value.originFromAnchorTransform) else None
  {
    FromNoHands(us);
  }
}
