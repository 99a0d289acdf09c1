# rtmlib whole-body fusion and platform helpers, modelled in Dafny

This project models the core of rtmlib's whole-body solution and three
geometric helpers it works beside. The project proves properties of that model.

- **Wholebody** (`wholebody.dfy`) covers three steps of the whole-body solution:
  - The constructor's configuration step. A mode name decides whether inference runs in two passes ("flip" mode, when the name contains `rtm`). The mode table supplies a model's input size only when the caller leaves that model unset.
  - One inference call (`Call`). In flip mode it builds an upper view of the image, with every row from the split row down set to white. It builds a vertically flipped lower view, blanked the same way. It runs the detector and the pose estimator on each view and maps the lower view's keypoints (`y ↦ H − y`) and boxes (`(x1,y1,x2,y2) ↦ (x1,H−y2,x2,H−y1)`) back into the image frame. It stacks upper results first, then lower ones, with no deduplication.
  - The formatter. It slices each 134-keypoint instance into body `[0,18)`, face `[24,92)`, left hand `[92,113)` and right hand `[113,134)`. It gates each keypoint at score 0.3. An all-absent group becomes absent, except the body, which becomes 18 absent entries. It sums the body's scores and pads the face to 70 points with body entries 14 and 15.
- **Tools** (`tools.dfy`) covers three helpers:
  - The circle choice of `find_susan`: track the two circles nearest the image centre among the first two detected, prefer the nearer one only if its radius is strictly smaller, and round.
  - `is_standing`: guards, then either leg angle in a closed interval.
  - `correct_far_end_standing_hands`: copy a box and shift its row bounds down.
- **Types** (`types.dfy`) defines the shared value types: keypoints, boxes, the body, pose and option/result types.

The detector and the pose estimator are parameters of `Call` and of its specification `Fused`. They are arbitrary functions from an image (and boxes) to boxes (and keypoints with scores). The angle routine of `is_standing` and the centre-distance computation of `find_susan` are function parameters in the same way. Coordinates, scores, angles and radii are reals. An image is a sequence of rows, and a row is a sequence of channel values.

Where the code does something step by step, the model does too:
- Python `for` loops become `for` loops with invariants (`TwoNearest`, `FormatResult`).
- numpy's whole-array in-place updates become `forall` statements on arrays (`BlankRows`, `RemapKeypointsInPlace`, `RemapBoxesInPlace`).
- Copies become fresh arrays (`Call`, `CorrectFarEndStandingHands`).

Each such method is proved against a function of its inputs.

Three modelling choices about the arithmetic and the checks of the code:
- The split row is `int(H/2*1.2)`. The model uses `SplitRow(H) = ⌊3H/5⌋`. That equals the float computation for ordinary image heights, but it is not a bit-exact model of the double arithmetic.
- The code does not reject an instance whose length is not 134. The model requires 134 entries (see `FormatResult` under "## Left out").
- The code does not check box ordering after the remap. `RemapBox` proves that `y1 ≤ y2` and the box height are kept.

## Model

| member | source | states |
|---|---|---|
| `Wholebody.ModeTable` | rtmlib/tools/solution/wholebody.py:12-47 | exactly the four modes performance, lightweight, balanced and lightweight_rtm have an entry; the sizes of each entry are stated by the four `*Mode` lemmas below |
| `Wholebody.Occurs` | rtmlib/tools/solution/wholebody.py:69 | the recursive test for `'rtm' in mode`; it has no contract of its own, and `OccursIff` proves it equal to "some index starts an occurrence" |
| `Wholebody.OccursIff` | rtmlib/tools/solution/wholebody.py:69 | the recursive substring test used for `'rtm' in mode` holds exactly when some index starts an occurrence |
| `Wholebody.Init` | rtmlib/tools/solution/wholebody.py:59-80 | the step fails with UnknownMode exactly when det or pose is unset and the mode is not in the table. Otherwise: do_flip holds iff "rtm" occurs in the mode; the detector is RTMDet iff do_flip; each input size is the caller's when that model was given, and the table's otherwise |
| `Wholebody.DefaultInit` | rtmlib/tools/solution/wholebody.py:49-80 | with every argument at its default (no models, sizes (640,640) and (288,384), mode balanced) the result is one pass with the table's sizes (640,640) and (192,256) |
| `Wholebody.LightweightRtmMode` | rtmlib/tools/solution/wholebody.py:37-46 | with both models unset, mode lightweight_rtm flips and uses sizes (320,320) and (192,256) |
| `Wholebody.BalancedMode` | rtmlib/tools/solution/wholebody.py:29-36 | with both models unset, mode balanced does not flip and uses sizes (640,640) and (192,256) |
| `Wholebody.PerformanceMode` | rtmlib/tools/solution/wholebody.py:13-20 | with both models unset, mode performance does not flip and uses sizes (640,640) and (288,384) |
| `Wholebody.LightweightMode` | rtmlib/tools/solution/wholebody.py:21-28 | with both models unset, mode lightweight does not flip and uses sizes (416,416) and (192,256) |
| `Wholebody.SplitRow` | rtmlib/tools/solution/wholebody.py:98 | the split row s satisfies s ≤ H and 5s ≤ 3H < 5s+5, i.e. it is ⌊3H/5⌋ |
| `Wholebody.Blank` | rtmlib/tools/solution/wholebody.py:98 | same row count; rows before s unchanged; every row from s on is white (every value 255) |
| `Wholebody.Flip` | rtmlib/tools/solution/wholebody.py:99 | same row count; row i is input row H−1−i |
| `Wholebody.FlipInvolution` | rtmlib/tools/solution/wholebody.py:99 | flipping twice gives back the image |
| `Wholebody.UpperView` | rtmlib/tools/solution/wholebody.py:97-98 | the upper view has the image's height and each row keeps its width; its contents are stated by `UpperViewRows` |
| `Wholebody.LowerView` | rtmlib/tools/solution/wholebody.py:99-100 | the lower view has the image's height and row i has the width of row H−1−i; its contents are stated by `LowerViewRows` |
| `Wholebody.UpperViewRows` | rtmlib/tools/solution/wholebody.py:97-98 | the upper view keeps every row below index s and has every row at index ≥ s white |
| `Wholebody.LowerViewRows` | rtmlib/tools/solution/wholebody.py:99-100 | row i of the lower view is input row H−1−i when i < s, and white otherwise |
| `Wholebody.LowerIsUpperOfFlip` | rtmlib/tools/solution/wholebody.py:97-100 | the lower view is the upper view of the flipped image |
| `Wholebody.BlankRows` | rtmlib/tools/solution/wholebody.py:98 | in place, the array becomes the blanked version of its old contents |
| `Wholebody.RemapPoint` | rtmlib/tools/solution/wholebody.py:111 | x unchanged and old y + new y = H |
| `Wholebody.RemapInstance` | rtmlib/tools/solution/wholebody.py:111 | every keypoint of an instance is remapped, and the count is kept |
| `Wholebody.RemapKeypoints` | rtmlib/tools/solution/wholebody.py:111 | every instance is remapped, and the count and order are kept |
| `Wholebody.RemapKeypointsInvolution` | rtmlib/tools/solution/wholebody.py:111 | remapping the keypoints twice with the same H is the identity |
| `Wholebody.RemapKeypointsInPlace` | rtmlib/tools/solution/wholebody.py:111 | in place, the array becomes the remapped version of its old contents |
| `Wholebody.RemapBox` | rtmlib/tools/solution/wholebody.py:112 | x1 and x2 unchanged; new y1 = H − old y2 and new y2 = H − old y1, both from the old box; height kept; y1 ≤ y2 kept |
| `Wholebody.RemapBoxes` | rtmlib/tools/solution/wholebody.py:112 | every box is remapped, and the count and order are kept |
| `Wholebody.RemapBoxExample` | rtmlib/tools/solution/wholebody.py:112 | with H = 200 the box (5,5,20,20) becomes (5,180,20,195) |
| `Wholebody.RemapBoxesInvolution` | rtmlib/tools/solution/wholebody.py:112 | remapping the boxes twice with the same H is the identity |
| `Wholebody.RemapBoxesInPlace` | rtmlib/tools/solution/wholebody.py:112 | in place, the array becomes the remapped version of its old contents |
| `Wholebody.VStack` | rtmlib/tools/solution/wholebody.py:113-115 | the length is the sum of both lengths; the first part is the upper entries and the rest the lower entries, in order; an empty side yields exactly the other side |
| `Wholebody.Fused` | rtmlib/tools/solution/wholebody.py:88-117 | without flip the boxes are the detector's on the whole image; with flip there are as many boxes as the two views gave, the upper view's first |
| `Wholebody.Call` | rtmlib/tools/solution/wholebody.py:88-117 | the keypoints, scores and boxes are exactly `Fused` of the flag, the two models and the image's rows. The image is only read, since the method has no modifies clause |
| `Wholebody.SinglePassThrough` | rtmlib/tools/solution/wholebody.py:92-94 | without flip, the boxes are the detector's and the keypoints and scores are the pose estimator's on those boxes, unchanged |
| `Wholebody.DualPassLayout` | rtmlib/tools/solution/wholebody.py:95-115 | with flip, each output length is upper count + lower count; entries before the upper count are the upper results; the rest are the lower results remapped (boxes, keypoints) or unchanged (scores), in order |
| `Wholebody.DualPassEmptySide` | rtmlib/tools/solution/wholebody.py:113-114 | an empty upper side gives exactly the remapped lower results, and an empty lower side gives exactly the upper results |
| `Wholebody.DualPassScenario` | rtmlib/tools/solution/wholebody.py:103-114 | with H = 200, one upper box and the lower box (5,5,20,20), there are 2 boxes and the second is (5,180,20,195) |
| `Wholebody.Gated` | rtmlib/tools/solution/wholebody.py:124-127 | same length as the slice; entry i is present iff its score ≥ 0.3, and then it is Keypoint(x, y, score, i) |
| `Wholebody.FormatKeypointPart` | rtmlib/tools/solution/wholebody.py:122-129 | absent iff every score of the slice is below 0.3 (so also for an empty slice); otherwise the gated list |
| `Wholebody.SumPresent` | rtmlib/tools/solution/wholebody.py:131-135 | the sum over present keypoints is 0 when none is present and non-negative when every present score is |
| `Wholebody.TotalScore` | rtmlib/tools/solution/wholebody.py:131-135 | an absent group scores 0.0, as does a present one with no present keypoint; with non-negative scores the total is non-negative |
| `Wholebody.SumPresentGated` | rtmlib/tools/solution/wholebody.py:131-135 | summing the present scores of a gated slice gives the sum of the slice's scores at or above 0.3 |
| `Wholebody.GatedSumZeroIff` | rtmlib/tools/solution/wholebody.py:131-135 | the gated sum is non-negative, is at least 0.3 when some score passes, and is 0 iff no score passes |
| `Wholebody.BodyKeypoints` | rtmlib/tools/solution/wholebody.py:140-141 | the `or [None]*18` fallback changes nothing: the body is always the gated first 18 keypoints |
| `Wholebody.FormatInstance` | rtmlib/tools/solution/wholebody.py:140-156 | one instance formats to a body of 18 entries with part count 18, hands of 21 entries and a face of 70 entries when present |
| `Wholebody.FormatResult` | rtmlib/tools/solution/wholebody.py:137-158 | one result per instance, in input order, each the formatted instance |
| `Wholebody.BodyShape` | rtmlib/tools/solution/wholebody.py:140-141 | the body always has 18 entries (the gated indices 0..17, even when all absent); its part count is 18; its total is the sum of the passing scores, and is 0 iff none passes |
| `Wholebody.HandShape` | rtmlib/tools/solution/wholebody.py:142-143 | each hand is absent iff none of its 21 scores passes; otherwise it has 21 gated entries |
| `Wholebody.FaceShape` | rtmlib/tools/solution/wholebody.py:144-152 | the face is absent iff none of its 68 scores passes; otherwise it has 70 entries: the 68 gated points, then body[14] and body[15], present or not |
| `Wholebody.ConfidentBodyOnly` | rtmlib/tools/solution/wholebody.py:124-152 | an instance whose 18 body scores are 0.9 and whose other scores are 0.1 formats to all 18 body entries present, with both hands and the face absent |
| `Wholebody.ReservedIgnored` | rtmlib/tools/solution/wholebody.py:139-144 | indices 18..23 are never read: instances agreeing elsewhere format alike |
| `Wholebody.AllBelowGate` | rtmlib/tools/solution/wholebody.py:139-156 | with every score below 0.3, the body is 18 absent entries with total 0 and part count 18, and both hands and the face are absent |
| `Tools.Candidates` | rtmlib/tools/__init__.py:40 | only the first two circles (fewer if fewer were found) are kept, in order |
| `Tools.TwoNearest` | rtmlib/tools/__init__.py:43-55 | index 1 is absent iff there are no distances, and is otherwise the first index of a minimal distance; index 2 is absent iff there are at most one, and is otherwise a different index whose distance is minimal among the rest; min_dist_1 ≤ min_dist_2, each the distance at its index or infinity |
| `Tools.Preferred` | rtmlib/tools/__init__.py:58-65 | reference definition of the choice: the only candidate, or the nearer one if its radius is strictly smaller, else the other |
| `Tools.PreferredRadius` | rtmlib/tools/__init__.py:58-65 | among two candidates the chosen radius is never the larger, and on a radius tie the farther circle is chosen |
| `Tools.RoundHalfEven` | rtmlib/tools/__init__.py:69 | the result is within 1/2 of the value, and is even when exactly 1/2 away |
| `Tools.RoundHalfEvenUnique` | rtmlib/tools/__init__.py:69 | any integer with those two properties is the rounded value |
| `Tools.Truncate` | rtmlib/tools/__init__.py:72-73 | `int()` on a real truncates toward zero: a non-negative value lies in `[n, n+1)`, a negative one in `(n-1, n]` |
| `Tools.FindSusan` | rtmlib/tools/__init__.py:18-78 | no circles gives (None, None, None); a circle array with no entry leaves no index selected; otherwise the result is the rounded centre and radius of the `Preferred` circle among the first two, whatever `scale` is |
| `Tools.LegAngles` | rtmlib/tools/__init__.py:211-216 | the two angles measured, hip-knee-ankle on each leg, or neck-hip-knee; it has no contract of its own and is stated through `IsStanding` |
| `Tools.IsStanding` | rtmlib/tools/__init__.py:187-222 | false with fewer than 14 keypoints or any of indices 8..13 absent; an error when the neck is needed (check_leg_only false) and absent; otherwise true iff one of the two angles lies in [min, max] |
| `Tools.StandingMonotone` | rtmlib/tools/__init__.py:218 | widening the threshold interval keeps a true result |
| `Tools.EmptyIntervalNeverStanding` | rtmlib/tools/__init__.py:218 | with max < min the result is never true |
| `Tools.DefaultThresholds` | rtmlib/tools/__init__.py:187-218 | with the default arguments (150, 180, legs only) the result is whether either hip-knee-ankle angle lies in [150, 180] |
| `Tools.ProjectedBox` | rtmlib/tools/__init__.py:232-234 | same length; every entry except y1 and y2 kept; y1 and y2 each increased by (y2 − y1)·max_correction·(1 − circle_roundness), computed from the input box |
| `Tools.ProjectedBoxKeepsHeight` | rtmlib/tools/__init__.py:232-234 | the height is kept; with circle_roundness = 1 the box is unchanged |
| `Tools.ProjectedBoxDefaults` | rtmlib/tools/__init__.py:225-234 | with the defaults 0.65 and 1, a box from row 100 to row 200 moves down by 35 |
| `Tools.CorrectFarEndStandingHands` | rtmlib/tools/__init__.py:225-236 | returns a fresh array equal to `ProjectedBox` of the input; the input is only read |

## Left out

- Model loading and inference are opaque functions passed to `Call`. This covers the `RTMDet`, `YOLOX` and `RTMPose` constructors, backends, devices, `to_openpose`, model URLs and paths, and the pre/post-processing of the models. A failure inside them is not modelled.
- The model paths in the mode table are not modelled. Only the sizes, the flag and the detector kind are.
- Timing and diagnostic output is not modelled: the `print` calls in `__call__` and `find_susan`, and the `logging.info` in `is_standing`.
- The OpenCV work of `find_susan` is not modelled: colour conversion, thresholding, the Hough transform and the square-root distance. The detector's answer is an optional sequence of circles, and the distance to the centre is a function parameter.
- `get_roundness`, `find_polygon` and `calculate_angle` are not modelled. They are library geometry and floating-point numerics; `calculate_angle` is a parameter of `IsStanding`.
- Floating point is not modelled: all values are exact reals. The 0.3 gate compares against the real 3/10, not the nearest double. float32 round-off, NaN and infinite angles or scores are left out.
- `SplitRow`: uses ⌊3H/5⌋ for `int(H/2*1.2)`, without the double rounding.
- `FormatResult`: requires every instance to have 134 entries. The code silently truncates slices of shorter input, and that behaviour is not modelled.
- `Call`: the lower-view keypoints and boxes are copied out of the pose estimator's and detector's results into fresh arrays before the in-place remap. Any aliasing with buffers those models keep is not modelled. numpy's array shapes (an empty result's shape in `vstack`) are taken as empty sequences.
- `CorrectFarEndStandingHands`: boxes are real-valued. numpy refuses the in-place float update on an integer array, and that case is not modelled.
- `CorrectFarEndStandingHands`: requires a box of at least four entries. The code raises an `IndexError` at `bbox[3]` on a shorter box, and that error is not modelled.
- `FindSusan`: the UnboundLocalError raised when the circle array is present but empty is the SelectionUnbound result. OpenCV returns no array in that case.
