/**
 * `computeTransformOfUserPerformedHeartGesture`: recognises the two-handed heart gesture
 * (both index fingertips touching and both thumb tips touching) and returns its pose.
 *
 * The platform's vector length, behind simd's `distance` and `normalize`, is the
 * parameter `length`.
 */
module HeartGesture {
  import opened Optional
  import opened Simd
  import opened Extensions
  import opened ARKit
  import opened HandStore
  import opened HandQueries

  /** Both hands' thumb knuckle, thumb tip and index fingertip have world transforms. */
  predicate HeartJointsTracked(h: HandsUpdates)
  {
    OriginFromJoint(h, Left, ThumbKnuckle).Some? && OriginFromJoint(h, Left, ThumbTip).Some? &&
    OriginFromJoint(h, Left, IndexFingerTip).Some? &&
    OriginFromJoint(h, Right, ThumbKnuckle).Some? && OriginFromJoint(h, Right, ThumbTip).Some? &&
    OriginFromJoint(h, Right, IndexFingerTip).Some?
  }

  /** The world position of a joint whose world transform is known. */
  function WorldPosition(h: HandsUpdates, side: Chirality, name: JointName): Vec3
    requires OriginFromJoint(h, side, name).Some?
  {
    Translation(OriginFromJoint(h, side, name).value)
  }

  /** The two index fingertips are less than 4 cm apart, and so are the two thumb tips. */
  predicate Touching(h: HandsUpdates, length: Vec3 -> real)
    requires HeartJointsTracked(h)
  {
    Distance(length, WorldPosition(h, Left, IndexFingerTip), WorldPosition(h, Right, IndexFingerTip)) < 0.04 &&
    Distance(length, WorldPosition(h, Left, ThumbTip), WorldPosition(h, Right, ThumbTip)) < 0.04
  }

  /** `computeTransformOfUserPerformedHeartGesture()` */
  function ComputeTransformOfUserPerformedHeartGesture(h: HandsUpdates, length: Vec3 -> real): (r: Option<Mat4>)
    ensures r.Some? <==> HeartJointsTracked(h) && Touching(h, length)
    ensures r.Some? ==>
      r.value.col0.w == 0.0 && r.value.col1.w == 0.0 && r.value.col2.w == 0.0 && r.value.col3.w == 1.0
    ensures r.Some? ==>
      var origin := Translation(r.value);
      Sub(origin, WorldPosition(h, Left, ThumbTip)) == Sub(WorldPosition(h, Right, IndexFingerTip), origin)
  {
    if h.left.None? || h.right.None? || !h.left.value.isTracked || !h.right.value.isTracked then
      None
    else
      var leftHandAnchor, rightHandAnchor := h.left.value, h.right.value;
      var leftThumbKnuckle := leftHandAnchor.Joint(ThumbKnuckle);
      var leftThumbTip := leftHandAnchor.Joint(ThumbTip);
      var leftIndexFingerTip := leftHandAnchor.Joint(IndexFingerTip);
      var rightThumbKnuckle := rightHandAnchor.Joint(ThumbKnuckle);
      var rightThumbTip := rightHandAnchor.Joint(ThumbTip);
      var rightIndexFingerTip := rightHandAnchor.Joint(IndexFingerTip);
      if leftThumbKnuckle.None? || leftThumbTip.None? || leftIndexFingerTip.None? ||
         rightThumbKnuckle.None? || rightThumbTip.None? || rightIndexFingerTip.None? ||
         !(leftIndexFingerTip.value.isTracked && leftThumbTip.value.isTracked &&
           rightIndexFingerTip.value.isTracked && rightThumbTip.value.isTracked &&
           leftThumbKnuckle.value.isTracked && rightThumbKnuckle.value.isTracked)
      then
        None
      else
        var leftOrigin, rightOrigin := leftHandAnchor.originFromAnchorTransform, rightHandAnchor.originFromAnchorTransform;
        var pLeftThumbKnuckle := Xyz(MatMul(leftOrigin, leftThumbKnuckle.value.anchorFromJointTransform).col3);
        var pLeftThumbTip := Xyz(MatMul(leftOrigin, leftThumbTip.value.anchorFromJointTransform).col3);
        var pLeftIndexFingerTip := Xyz(MatMul(leftOrigin, leftIndexFingerTip.value.anchorFromJointTransform).col3);
        var pRightThumbKnuckle := Xyz(MatMul(rightOrigin, rightThumbKnuckle.value.anchorFromJointTransform).col3);
        var pRightThumbTip := Xyz(MatMul(rightOrigin, rightThumbTip.value.anchorFromJointTransform).col3);
        var pRightIndexFingerTip := Xyz(MatMul(rightOrigin, rightIndexFingerTip.value.anchorFromJointTransform).col3);
        var indexFingersDistance := Distance(length, pLeftIndexFingerTip, pRightIndexFingerTip);
        var thumbsDistance := Distance(length, pLeftThumbTip, pRightThumbTip);
        var isHeartShapeGesture := indexFingersDistance < 0.04 && thumbsDistance < 0.04;
        if !isHeartShapeGesture then
          None
        else
          var halfway := Div(Sub(pRightIndexFingerTip, pLeftThumbTip), 2.0);
          var heartMidpoint := Sub(pRightIndexFingerTip, halfway);
          var xAxis := Normalize(length, Sub(pRightThumbKnuckle, pLeftThumbKnuckle));
          var yAxis := Normalize(length, Sub(pRightIndexFingerTip, pRightThumbTip));
          var zAxis := Normalize(length, Cross(xAxis, yAxis));
          Some(Mat4(Vec4(xAxis.x, xAxis.y, xAxis.z, 0.0),
                    Vec4(yAxis.x, yAxis.y, yAxis.z, 0.0),
                    Vec4(zAxis.x, zAxis.y, zAxis.z, 0.0),
                    Vec4(heartMidpoint.x, heartMidpoint.y, heartMidpoint.z, 1.0)))
  }

  /**
   * A heart is recognised only with both hands present and tracked and, on each hand,
   * the thumb knuckle, thumb tip and index fingertip present and tracked.
   */
  lemma HeartNeedsTrackedHands(h: HandsUpdates, length: Vec3 -> real)
    requires ComputeTransformOfUserPerformedHeartGesture(h, length).Some?
    ensures h.left.Some? && h.left.value.isTracked
    ensures h.right.Some? && h.right.value.isTracked
    ensures forall name :: name in {ThumbKnuckle, ThumbTip, IndexFingerTip} ==>
      h.left.value.JointTracked(name) && h.right.value.JointTracked(name)
  {
  }

  /**
   * With the Euclidean length, the gesture is recognised exactly when both squared
   * distances are below 0.0016 (4 cm squared).
   */
  lemma HeartBySquaredDistance(h: HandsUpdates, length: Vec3 -> real)
    requires EuclideanLength(length)
    ensures ComputeTransformOfUserPerformedHeartGesture(h, length).Some? <==>
      HeartJointsTracked(h) &&
      SqDist(WorldPosition(h, Left, IndexFingerTip), WorldPosition(h, Right, IndexFingerTip)) < 0.0016 &&
      SqDist(WorldPosition(h, Left, ThumbTip), WorldPosition(h, Right, ThumbTip)) < 0.0016
  {
    if HeartJointsTracked(h) {
      DistanceBelowThreshold(length, WorldPosition(h, Left, IndexFingerTip), WorldPosition(h, Right, IndexFingerTip));
      DistanceBelowThreshold(length, WorldPosition(h, Left, ThumbTip), WorldPosition(h, Right, ThumbTip));
    }
  }

  /**
   * The axes of a recognised heart: X points from the left thumb knuckle to the right
   * one, Y from the right thumb tip to the right index fingertip, Z along `cross(X, Y)`
   * (so the frame is right-handed), and Z is orthogonal to both X and Y.
   */
  lemma HeartAxes(h: HandsUpdates, length: Vec3 -> real)
    requires ComputeTransformOfUserPerformedHeartGesture(h, length).Some?
    ensures
      var m := ComputeTransformOfUserPerformedHeartGesture(h, length).value;
      var x, y, z := Xyz(m.col0), Xyz(m.col1), Xyz(m.col2);
      PositiveMultiple(x, Sub(WorldPosition(h, Right, ThumbKnuckle), WorldPosition(h, Left, ThumbKnuckle))) &&
      PositiveMultiple(y, Sub(WorldPosition(h, Right, IndexFingerTip), WorldPosition(h, Right, ThumbTip))) &&
      PositiveMultiple(z, Cross(x, y)) &&
      Dot(z, x) == 0.0 && Dot(z, y) == 0.0
  {
    var m := ComputeTransformOfUserPerformedHeartGesture(h, length).value;
    var x, y, z := Xyz(m.col0), Xyz(m.col1), Xyz(m.col2);
    var kx := Sub(WorldPosition(h, Right, ThumbKnuckle), WorldPosition(h, Left, ThumbKnuckle));
    var ty := Sub(WorldPosition(h, Right, IndexFingerTip), WorldPosition(h, Right, ThumbTip));
    assert x == Normalize(length, kx);
    assert y == Normalize(length, ty);
    assert z == Normalize(length, Cross(x, y));
    CrossOrthogonal(x, y);
    PositiveMultipleOrthogonal(z, Cross(x, y), x);
    PositiveMultipleOrthogonal(z, Cross(x, y), y);
  }
}
