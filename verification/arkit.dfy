/**
 * The ARKit hand-tracking values the model reads: hand anchors, their skeletons and
 * joints, and the anchor updates the hand-tracking provider delivers.
 */
module ARKit {
  import opened Optional
  import opened Simd

  /** `HandAnchor.Chirality`: which hand an anchor belongs to. */
  datatype Chirality = Left | Right

  /** `HandSkeleton.JointName`: the joints of the hand skeleton. */
  datatype JointName =
    | Wrist
    | ThumbKnuckle | ThumbIntermediateBase | ThumbIntermediateTip | ThumbTip
    | IndexFingerMetacarpal | IndexFingerKnuckle | IndexFingerIntermediateBase
    | IndexFingerIntermediateTip | IndexFingerTip
    | MiddleFingerMetacarpal | MiddleFingerKnuckle | MiddleFingerIntermediateBase
    | MiddleFingerIntermediateTip | MiddleFingerTip
    | RingFingerMetacarpal | RingFingerKnuckle | RingFingerIntermediateBase
    | RingFingerIntermediateTip | RingFingerTip
    | LittleFingerMetacarpal | LittleFingerKnuckle | LittleFingerIntermediateBase
    | LittleFingerIntermediateTip | LittleFingerTip
    | ForearmWrist | ForearmArm

  /** `HandSkeleton.Joint`: a joint's pose relative to its hand anchor. */
  datatype SkeletonJoint = SkeletonJoint(anchorFromJointTransform: Mat4, isTracked: bool)

  /** `HandSkeleton`: the joints known for one hand, by name. */
  datatype HandSkeleton = HandSkeleton(joints: map<JointName, SkeletonJoint>) {
    /** `joint(name)` */
    function Joint(name: JointName): Option<SkeletonJoint>
    {
      if name in joints then Some(joints[name]) else None
    }
  }

  /** `HandAnchor`: one hand's world pose and skeleton. */
  datatype HandAnchor = HandAnchor(
    chirality: Chirality,
    isTracked: bool,
    originFromAnchorTransform: Mat4,
    handSkeleton: Option<HandSkeleton>)
  {
    /** `handSkeleton?.joint(name)` */
    function Joint(name: JointName): Option<SkeletonJoint>
    {
      match handSkeleton
      case None => None
      case Some(skeleton) => skeleton.Joint(name)
    }

    /** The named joint is present and tracked. */
    predicate JointTracked(name: JointName)
    {
      Joint(name).Some? && Joint(name).value.isTracked
    }
  }

  /** `AnchorUpdate.Event` */
  datatype AnchorEvent = Added | Updated | Removed

  /** `AnchorUpdate<HandAnchor>`: one element of `anchorUpdates`. */
  datatype AnchorUpdate = AnchorUpdate(event: AnchorEvent, anchor: HandAnchor)
}
