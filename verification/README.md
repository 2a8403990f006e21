# HandGestureExample hand-tracking model, in Dafny

This project models the hand-tracking core of the HandGestureExample visionOS sample:
`HandGestureModel` keeps the latest tracked hand anchor of each hand (`HandsUpdates`),
fed by the loop over the hand-tracking provider's anchor updates; a set of queries
composes a hand anchor's world transform with a joint's hand-relative transform; and
`computeTransformOfUserPerformedHeartGesture` recognises the two-handed heart gesture
and returns its pose. The `SIMD4.xyz` extension it relies on is modelled too.

Modules, one per component:

- `Optional` — Swift's `T?`.
- `Simd` — the simd vectors and matrices over `real`: `Vec3`, `Vec4`, column-major
  `Mat4`, `matrix_multiply` (`MatMul`, the ordinary matrix product), `cross`, `normalize`
  and `distance`.
- `Extensions` — `SIMD4.xyz` (`Xyz`) and `simd_float4(p, w)` (`Extend`).
- `ARKit` — the ARKit values read by the model: `HandAnchor` (chirality, `isTracked`,
  `originFromAnchorTransform`, optional skeleton), `HandSkeleton` (joint name to joint),
  `SkeletonJoint` (`anchorFromJointTransform`, `isTracked`), `AnchorUpdate`.
- `HandStore` — `HandsUpdates`, the class `HandGestureModel` with its field
  `latestHandTracking` and the update loop (`Apply` for one update,
  `PublishHandTrackingUpdates` for a sequence), and the specification functions `Step`
  (one update) and `Fold` (a sequence), with `LastStored` as an independent definition of
  "the last tracked `.updated` anchor of a hand".
- `HandQueries` — the ten named transform queries and `RightHandFingerCenterTransform`.
  They only read `latestHandTracking`, so they are functions of a `HandsUpdates` value.
- `HeartGesture` — the heart-gesture classifier.

Square roots are outside the model. simd's `length` (used by `distance` and `normalize`)
is the parameter `length: Vec3 -> real`. `distance(a, b)` is `length(a - b)`, compared
with 0.04 as in the code. `HeartBySquaredDistance` shows the test is the same as squared
distance below 0.0016 when `length` is the Euclidean length. `normalize(v)` is
`v / length(v)`; the model keeps `v` unchanged when `length(v)` is not positive. So
`normalize` returns a positive multiple of its input in every case. That is all the
orthogonality proof of the heart's Z axis needs.

The joint queries (`rightHandIndexFingerTipAnchorFromJointTransform` and the like) do
not check that the hand anchor is tracked, only that the joint is. Only the composed
world-space queries fail for an untracked hand, through the hand-anchor query. In every
state the update loop can reach, stored anchors are tracked (`HandsUpdates.Valid`), so
the difference cannot be observed there.

## Model

| member | source | states |
|---|---|---|
| `Extensions.Xyz` | HandGestureExample/Extensions.swift:12-14 | `v.xyz` has components 0, 1 and 2 of `v`, in that order |
| `Extensions.Extend` | HandGestureExample/HandGestureModel.swift:136 | `simd_float4(p, w)`, as used to write the finger-centre translation: its `xyz` (Extensions.swift lines 12-14) is `p` for any `w`, and its fourth component is `w` |
| `Extensions.XyzIgnoresW` | HandGestureExample/Extensions.swift:12-14 | `v.xyz` does not depend on the fourth component of `v` |
| `Simd.Normalize` | HandGestureExample/HandGestureModel.swift:209-214 | `normalize(v)` is a positive multiple of `v` |
| `Simd.CrossOrthogonal` | HandGestureExample/HandGestureModel.swift:214 | `cross(a, b)` is orthogonal to `a` and to `b` |
| `Simd.DistanceBelowThreshold` | HandGestureExample/HandGestureModel.swift:194-199 | with the Euclidean length, `distance(a, b) < 0.04` exactly when the squared distance is below 0.0016 |
| `HandStore.Step` | HandGestureExample/HandGestureModel.swift:37-52 | one update: a tracked `.updated` anchor of hand c replaces slot c; the other slot and every other update leave the store unchanged; the store invariant is kept |
| `HandStore.Fold` | HandGestureExample/HandGestureModel.swift:36-53 | a sequence of updates keeps the store invariant (every stored anchor is tracked and in its own chirality's slot) |
| `HandStore.FoldLastWins` | HandGestureExample/HandGestureModel.swift:36-53 | after any updates, each slot holds the last tracked `.updated` anchor of its hand, or what it held before when there was none |
| `HandStore.FromNoHands` | HandGestureExample/HandGestureModel.swift:17 | starting with both slots nil, `left` and `right` are the last tracked `.updated` anchor of each hand, or nil |
| `HandStore.LastStoredIsLast` | HandGestureExample/HandGestureModel.swift:36-53 | the "last kept anchor" is absent exactly when no update is kept for the hand, and otherwise comes from a kept update with none kept after it |
| `HandStore.SkippedUpdate` | HandGestureExample/HandGestureModel.swift:42-51 | an untracked anchor, and any event but `.updated` (removal included), changes nothing |
| `HandStore.KeptUpdate` | HandGestureExample/HandGestureModel.swift:44-49 | a tracked `.updated` anchor of hand c sets slot c and leaves the other slot alone |
| `HandStore.HandGestureModel.constructor` | HandGestureExample/HandGestureModel.swift:17 | the store starts with both hands nil |
| `HandStore.HandGestureModel.Apply` | HandGestureExample/HandGestureModel.swift:37-52 | the loop body's new store is `Step` of the old one and the update |
| `HandStore.HandGestureModel.PublishHandTrackingUpdates` | HandGestureExample/HandGestureModel.swift:35-54 | the store after the loop is `Fold` of the old store and the updates; the store invariant is kept |
| `HandQueries.RightHandAnchorOriginFromAnchorTransform` | HandGestureExample/HandGestureModel.swift:69-72 | nil exactly when the right slot is empty or its anchor untracked; otherwise the anchor's `originFromAnchorTransform` |
| `HandQueries.RightHandIndexFingerTipAnchorFromJointTransform` | HandGestureExample/HandGestureModel.swift:74-78 | nil exactly when there is no right anchor, no skeleton, no index-tip joint, or that joint is untracked; otherwise the joint's `anchorFromJointTransform` |
| `HandQueries.OriginFromRightHandIndexFingerTipTransform` | HandGestureExample/HandGestureModel.swift:80-84 | nil exactly when the hand query or the joint query is nil; otherwise hand times joint |
| `HandQueries.RightHandMiddleFingerTipAnchorFromJointTransform` | HandGestureExample/HandGestureModel.swift:86-90 | as the index-tip joint query, for the middle fingertip |
| `HandQueries.OriginFromRightHandMiddleFingerTipTransform` | HandGestureExample/HandGestureModel.swift:92-96 | nil exactly when the hand or the middle-tip joint query is nil; otherwise hand times joint |
| `HandQueries.LeftHandAnchorOriginFromAnchorTransform` | HandGestureExample/HandGestureModel.swift:98-101 | nil exactly when the left slot is empty or its anchor untracked; otherwise its `originFromAnchorTransform` |
| `HandQueries.LeftHandIndexFingerTipAnchorFromJointTransform` | HandGestureExample/HandGestureModel.swift:103-107 | as the right index-tip joint query, for the left hand |
| `HandQueries.OriginFromLeftHandIndexFingerTipTransform` | HandGestureExample/HandGestureModel.swift:109-113 | nil exactly when the left hand or its index-tip joint query is nil; otherwise hand times joint |
| `HandQueries.LeftHandMiddleFingerTipAnchorFromJointTransform` | HandGestureExample/HandGestureModel.swift:115-119 | as the right middle-tip joint query, for the left hand |
| `HandQueries.OriginFromLeftHandMiddleFingerTipTransform` | HandGestureExample/HandGestureModel.swift:121-125 | nil exactly when the left hand or its middle-tip joint query is nil; otherwise hand times joint |
| `HandQueries.RightHandFingerCenterTransform` | HandGestureExample/HandGestureModel.swift:127-139 | nil exactly when either fingertip transform is nil; otherwise the upper 3x3 is the identity, the bottom row is (0,0,0,1), and the translation is the midpoint of the two fingertip translations |
| `HandQueries.IdentityHandKeepsJoint` | HandGestureExample/HandGestureModel.swift:80-84 | with the identity as the hand transform, a joint's world transform is its hand-relative transform unchanged |
| `HandQueries.JointWorldPosition` | HandGestureExample/HandGestureModel.swift:175-177 | a joint's world position (`columns.3.xyz` of hand times joint) is its hand-relative position carried through the hand transform |
| `HandQueries.HandQueriesOnValidStore` | HandGestureExample/HandGestureModel.swift:69-72 | in a valid store, a hand's transform is present exactly when its slot is filled |
| `HandQueries.RightHandAfterUpdates` | HandGestureExample/HandGestureModel.swift:69-72 | after any updates from no hands, the right-hand transform is that of the last tracked `.updated` right anchor, or nil |
| `HandQueries.LeftHandAfterUpdates` | HandGestureExample/HandGestureModel.swift:98-101 | the same for the left hand |
| `HeartGesture.ComputeTransformOfUserPerformedHeartGesture` | HandGestureExample/HandGestureModel.swift:151-224 | non-nil exactly when all six joint world transforms exist and both distances (index tips, thumb tips) are below 0.04; the result's bottom row is (0,0,0,1) and its origin is the midpoint of the left thumb tip and the right index tip |
| `HeartGesture.HeartNeedsTrackedHands` | HandGestureExample/HandGestureModel.swift:153-172 | a recognised heart needs both hands present and tracked, and thumb knuckle, thumb tip and index tip present and tracked on each |
| `HeartGesture.HeartBySquaredDistance` | HandGestureExample/HandGestureModel.swift:194-202 | with the Euclidean length, recognition is both squared distances below 0.0016, both strict and both required |
| `HeartGesture.HeartAxes` | HandGestureExample/HandGestureModel.swift:208-222 | X is a positive multiple of right minus left thumb knuckle, Y of right index tip minus right thumb tip, Z of `cross(X, Y)`; Z is orthogonal to X and to Y |

## Left out

- `start()` and `monitorSessionEvents()` are not modelled. They start the ARKit session, react to authorization events and log with `print`: that is I/O and foreign calls.
- The `async` stream plumbing, `@MainActor`, `@Published` and `@unchecked Sendable` are not modelled. The update loop is modelled over a finite sequence of updates. Concurrent readers are not modelled.
- `HandStore.HandGestureModel.PublishHandTrackingUpdates`: the source loop runs over an unbounded stream. The model covers every finite prefix of it.
- Float behaviour of `simd_float4x4` is not modelled (rounding, NaN, infinities). Everything is over `real`.
- The square root inside `length`, `distance` and `normalize` is a parameter of the model.
- `Simd.Normalize`: the model leaves a vector of non-positive length unchanged, where simd gives NaN components for the zero vector. The model proves direction, not unit length.
- `HeartGesture.HeartAxes`: X and Y are not proved orthogonal to each other. The code does not make them so.
- Which joints a real `HandSkeleton` holds is not modelled. A skeleton is a map, which covers more than ARKit produces: ARKit's `joint(_:)` always returns a joint, so a missing joint is a state the platform never creates. In the code, `handSkeleton?.joint(...)` is nil only when `handSkeleton` is nil.
- HandGestureExampleApp.swift, ContentView.swift, ImmersiveView.swift and AppModel.swift are not part of this model. They hold SwiftUI and RealityKit views and UI state.
