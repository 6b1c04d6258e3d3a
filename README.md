# FormCoachAI squat analyser: a Dafny model of its core

FormCoachAI watches a video of a barbell squat. MediaPipe finds the lifter's body landmarks in each frame. The analyser then does three things:

- It decides whether the lifter is filmed from the side or from behind.
- On a side view, it measures the knee, hip and shin angles of the side that faces the camera.
- It tracks the barbell through the plates that the circle detector finds.

Each side-view frame is shown with three information panels stacked to its right. A back-view frame is drawn on and shown without panels.

The model has four modules:

- `Results` (`results.dfy`): `Option`, `Result` and the exceptions the code raises.
- `Calculations` (`calculations.dfy`): the geometry primitives of `src/Calculations.py`:
  - the angle at a vertex,
  - the heading between two points,
  - distance.

  Coordinates are `real`. `math.sqrt`, `math.acos` and `math.atan2` are fields of a `MathLib` value. Their laws are ghost predicates: the square root is the non-negative root, `acos` maps [-1, 1] into [0, pi], and `atan2` lies in [-pi, pi]. Every property that needs a law says so with `Law ==> ...`. Python's `round` is modelled as round-half-to-even.
- `MovementPatterns` (`movement_patterns.dfy`): `SquatPose` from `src/MovementPatterns.py`. It is a datatype of the landmark list and the left/right pairs the constructor stores. On top of it sit:
  - the balance test of one pair,
  - the viewpoint classifier,
  - the visible-side choice, where a tie raises,
  - the side coordinates.

  It also defines a left/right mirroring of the landmarks, used to state symmetry properties. `Mirror` relabels each of MediaPipe's 33 landmarks with its left/right partner (`Partner`) and rebuilds the pose.
- `ImageHandler` (`image_handler.dfy`): `FrameHandler` from `src/ImageHandler.py`, a class holding the scaled frame width and height.
  - Panel layout is integer arithmetic.
  - Images are `array2<Pixel>`.
    - Bordered blank panels are built by a `copyMakeBorder` model.
    - Panels are pasted in place.
    - The canvas is composed by a loop over the three positions.
  - `run_video_analysis` is a `while` loop over a sequence of frame inputs. It grows the bar path. It is proved equal to a recursive specification `Run`, whose properties are proved as lemmas.
  - The plate detector is an input: the circles found in each frame. The detector itself (`cv2.HoughCircles`) is not modelled.

`run_video_analysis` (src/ImageHandler.py:172-235) catches no exception. A visibility tie or a zero-length angle vector therefore ends the whole analysis. `RunVideoAnalysis` returns that exception together with the bar path collected up to that point.

## Model

| member | source | states |
|---|---|---|
| Calculations.ThreePointAngle | src/Calculations.py:4-39 | Any failure is the zero-length ValueError. Under the square-root laws it fails exactly when A == B or C == B. Under the acos laws a successful angle lies in [0, 180] degrees. |
| Calculations.ZeroLengthIff | src/Calculations.py:18-27 | Under the square-root laws, a magnitude of BA or BC is zero exactly when A == B or C == B. |
| Calculations.MagnitudeZero | src/Calculations.py:23-24 | A magnitude is non-negative, is zero only for the zero vector, and squares back to the sum of squares. |
| Calculations.Clamp | src/Calculations.py:33 | The clamped value lies in [-1, 1]. It equals the input inside that range and the nearer bound outside it. |
| Calculations.CosineInRange | src/Calculations.py:29-33 | Cauchy-Schwarz: for non-zero vectors the cosine already lies in [-1, 1]. |
| Calculations.ThreePointAngleUnclamped | src/Calculations.py:29-39 | For A != B and C != B the clamp is inert: the angle is degrees(acos(cosine)) of the exact cosine. |
| Calculations.DegreesOfAcos | src/Calculations.py:36-39 | Under the acos laws, a value in [-1, 1] turns into an angle in [0, 180] degrees. |
| Calculations.ThreePointAngleSymmetric | src/Calculations.py:17-39 | angle(a, b, c) == angle(c, b, a), including the error cases. |
| Calculations.RoundHalfEven | src/Calculations.py:62 | The result is within 0.5 of the input, and ties go to the even integer. |
| Calculations.RoundHalfEvenBetween | src/Calculations.py:62 | Rounding keeps a value between two integer bounds. |
| Calculations.TwoPointAngle | src/Calculations.py:42-62 | Coincident points give 0 without an error. Under the atan2 laws the heading lies in [-180, 180]. |
| Calculations.HeadingRange | src/Calculations.py:54-62 | Under the atan2 laws the rounded degree heading lies in [-180, 180]. |
| Calculations.TwoPointAngleOfOffset | src/Calculations.py:50-62 | For all points, coincident ones included, the heading equals the heading of the offset b - a measured from the origin. |
| Calculations.TwoPointAngleTranslation | src/Calculations.py:50-62 | Moving both points by the same offset leaves the heading unchanged. |
| Calculations.Distance | src/Calculations.py:65-69 | The distance is non-negative. Under the square-root laws it squares to the sum of squared differences, and it is zero exactly for coincident points. |
| Calculations.DistanceLaws | src/Calculations.py:69 | Under the square-root laws the root of the squared differences is non-negative, squares back, and is zero exactly for coincident points. |
| Calculations.DistanceSymmetric | src/Calculations.py:69 | d(a, b) == d(b, a). |
| Calculations.DistanceTranslation | src/Calculations.py:69 | Distance is unchanged when both points move by the same offset. |
| MovementPatterns.NewSquatPose | src/MovementPatterns.py:12-26 | Fails with IndexError exactly when the list is too short for index 32. Otherwise the pose keeps the list and every pair holds the landmarks at its MediaPipe indices. |
| MovementPatterns.VisibilityDifference | src/MovementPatterns.py:28-32 | True exactly when left minus right visibility lies strictly between -threshold and threshold. |
| MovementPatterns.VisibilityDifferenceSymmetric | src/MovementPatterns.py:32 | The balance test does not depend on the order of the pair. |
| MovementPatterns.CheckVisibility | src/MovementPatterns.py:34-46 | The result is "Back Angle" or "Side Angle". It is "Side Angle" exactly when one of shoulders, hips, elbows, knees and ankles differs by the threshold or more. |
| MovementPatterns.CheckVisibilityMonotone | src/MovementPatterns.py:32-46 | "Back Angle" at a threshold stays "Back Angle" at every larger threshold. |
| MovementPatterns.CheckVisibilityIgnoresFeet | src/MovementPatterns.py:34-46 | Replacing the feet pair never changes the viewpoint. |
| MovementPatterns.VisibilitySumOfFive | src/MovementPatterns.py:64-65 | The generator sum of five joints is the sum of their five visibilities. |
| MovementPatterns.CheckWhichSideIsVisible | src/MovementPatterns.py:48-72 | "Right" exactly when the right five-joint total exceeds the left one, and "Left" exactly when the left total exceeds the right one. An exact tie, and only a tie, raises ValueError with the source's message. |
| MovementPatterns.GetSideCoordinates | src/MovementPatterns.py:100-121 | Succeeds exactly for "Left" and "Right", otherwise ValueError("Invalid side"). The result is five points: hip, knee, ankle, shoulder and foot index, taken from the odd (left) or even (right) MediaPipe landmarks. |
| MovementPatterns.MirrorInvolution | src/MovementPatterns.py:12-26 | Mirroring a pose twice gives back the same pose. |
| MovementPatterns.MirrorSwapsPairs | src/MovementPatterns.py:15-26 | Mirroring swaps the two members of every stored pair. |
| MovementPatterns.MirrorKeepsViewpoint | src/MovementPatterns.py:32-46 | Mirroring leaves `check_visibility` unchanged at every threshold. |
| MovementPatterns.MirrorFlipsSide | src/MovementPatterns.py:64-72 | Mirroring turns "Right" into "Left" and "Left" into "Right", and keeps the tie error. |
| MovementPatterns.MirrorSwapsSideCoordinates | src/MovementPatterns.py:110-121 | The left coordinates of the mirrored pose are the right coordinates of the pose, and the other way round. |
| ImageHandler.FrameHandler.constructor | src/ImageHandler.py:10-23 | Width and height are the capture's frame size times the scale, truncated. |
| ImageHandler.FrameHandler.BlankImageDimensions | src/ImageHandler.py:70-76 | The panel size is the floor of a third of the height and of the width. |
| ImageHandler.FrameHandler.PositionCoordinates | src/ImageHandler.py:97-112 | Defined exactly for Top, Middle and Bottom, each spanning `imageHeight` rows. Top starts at 0 and Bottom ends at the height. Middle leaves equal margins, or one extra row below. |
| ImageHandler.FrameHandler.PanelsStack | src/ImageHandler.py:105-112 | Panels a third of the height high lie inside [0, height), in the order Top, Middle, Bottom, without overlap. |
| ImageHandler.CopyMakeBorder | src/ImageHandler.py:62-68 | The result is fresh and larger by the border on every side. It holds the source in the middle and the border value elsewhere. |
| ImageHandler.FrameHandler.CreateBlankImageWithBorder | src/ImageHandler.py:52-68 | Fails exactly when the border is negative (OpenCV) or wider than half the panel (numpy). Otherwise it is a fresh panel-sized image: white in its outer `borderSize` rows and columns, black inside. |
| ImageHandler.FrameHandler.AddPositionedImage | src/ImageHandler.py:78-95 | An unknown position raises TypeError and leaves the frame untouched. Otherwise the block at the position's rows, from column `width`, equals the image, and every other pixel is unchanged. |
| ImageHandler.FrameHandler.AddImagesToFrame | src/ImageHandler.py:33-50 | Fails exactly when the panels have no room for their border. Otherwise it returns a fresh canvas of height x (width + width/3): the frame is on the left, and the strip on the right is the three panels pasted in order over black. |
| ImageHandler.FrameHandler.LayoutByPanel | src/ImageHandler.py:45-48 | Each row of a panel shows that panel's bordered image. Rows covered by no panel stay black. |
| ImageHandler.BarbellCoordinates | src/ImageHandler.py:134-170 | None exactly when no circle was found. Otherwise the result is within 0.5 of the first circle's centre. |
| ImageHandler.BarbellIgnoresLaterCircles | src/ImageHandler.py:161-167 | Only the first circle matters: there is no proximity filter. |
| ImageHandler.TruncatedThird | src/ImageHandler.py:204 | `int(n / 3)` truncates toward zero, not down. For n >= 0 the result r satisfies 3r <= n < 3r + 3. For n < 0 it satisfies 3r - 3 < n <= 3r <= 0. |
| ImageHandler.TruncatedThirdOdd | src/ImageHandler.py:204 | Truncating a third commutes with negation. |
| ImageHandler.BarPathPoint | src/ImageHandler.py:204 | Each coordinate of the appended point is the centre's coordinate divided by 3 and truncated toward zero. It is bounded by the centre from the side of zero, within 3. |
| ImageHandler.AnalyzeSideView | src/ImageHandler.py:192-198 | A tie fails with the tie error, and every failure is a ValueError. Under the acos laws all three angles lie in [0, 180]. |
| ImageHandler.SideCoordinatesAt | src/ImageHandler.py:193-194 | The visible side's coordinates are the landmarks at the left indices, or one above them on the right. |
| ImageHandler.AnalyzeSideViewAngles | src/ImageHandler.py:196-198 | knee = angle(hip, knee, ankle), hip = angle(shoulder, hip, knee) and shin = angle(knee, ankle, foot), all on the chosen side. |
| ImageHandler.AnalyzeSideViewFails | src/ImageHandler.py:196-198 | Under the square-root laws, once a side is chosen, the angles fail exactly when hip = knee, ankle = knee, shoulder = hip or foot = ankle on that side. |
| ImageHandler.FrameStep | src/ImageHandler.py:178-211 | One loop iteration. A frame without landmarks changes nothing. The bar path keeps its old entries as a prefix and grows by at most one point, and by none when no circle was found. |
| ImageHandler.Run | src/ImageHandler.py:178-211 | The loop over all frames. The bar path grows by at most one point per frame. |
| ImageHandler.FrameStepAppends | src/ImageHandler.py:201-204 | One frame leaves the bar path unchanged or appends one point. Without an exception it appends exactly that frame's detection. |
| ImageHandler.RunOnlyAppends | src/ImageHandler.py:176-204 | The bar path only grows: earlier entries are never changed or reordered. |
| ImageHandler.RunCollectsDetections | src/ImageHandler.py:176-211 | A run without an exception ends with the start path followed by the truncated thirds of the first circle's centre of each side-view frame that had a circle, in frame order. |
| ImageHandler.FrameHandler.RunVideoAnalysis | src/ImageHandler.py:172-211 | The loop's exception and bar path are those of the specification `Run` over the frames, starting from an empty path. |

## Left out

- Floating point. All coordinates, visibilities and angles are exact reals. The clamp of the three-point angle only absorbs floating-point overshoot; over the reals it is inert (`ThreePointAngleUnclamped`). `int(n / 3)` is taken on exact integers.
- Calculations.ThreePointAngle: numeric values of `sqrt`, `acos` and `atan2`, such as exactly 90 degrees, are not modelled. These three functions are parameters with range laws only, so the range contracts hold under those laws. `degrees` is not a parameter: it is the concrete `Degrees`, radians * 180 / pi.
- Calculations.TwoPointAngle: the same applies to `atan2`.
- MediaPipe. Pose detection, the `PoseLandmark` enumeration and the landmark objects become a sequence of (x, y, visibility) records and fixed indices 11-32.
- `right_side_connections` and `left_side_connections` (src/MovementPatterns.py:74-98) are constant tables that no modelled code reads. src/main.py:50 and 54 assign them to `connections`, which is never used.
- MovementPatterns.NewSquatPose: `run_video_analysis` calls `SquatPose` with three arguments (src/ImageHandler.py:189). That call and the newer API it belongs to (joint coordinate objects, `get_shoulder_midpoint`) are not part of this model. The loop is modelled with the one-argument constructor of src/MovementPatterns.py:12.
- MovementPatterns.CheckWhichSideIsVisible: requires a well-formed pose, i.e. one the constructor built. `SquatPose` objects are created only that way.
- The back-angle branch of `run_video_analysis` (src/ImageHandler.py:213-231) is not modelled. It draws and uses members absent from src/MovementPatterns.py. A back-view frame leaves the bar path unchanged.
- All drawing: src/MovementDrawings.py is not part of this model. Neither is `_draw_squat_info` (src/ImageHandler.py:114-132): the model pastes the panels blank. The `cv2.circle` marks (src/ImageHandler.py:164, 203) are also left out.
- Video I/O: opening the capture, `isOpened`/`read`, `cv2.resize`, the window, `imshow` and the `q` key. The frames arrive as a finite sequence of inputs already at the handler's size. The composed canvas is computed but not displayed.
- ImageHandler.BarbellCoordinates: grey conversion, blur and `cv2.HoughCircles` are not modelled. Their result is the `circles` input of each frame. The rounded radius is used only by the left-out `cv2.circle` mark (src/ImageHandler.py:164).
- ImageHandler.FrameHandler.RunVideoAnalysis: it returns the bar path, which is local in the source, so that its contract can state it. It requires every frame to be at the handler's size, as `cv2.resize` makes it.
- ImageHandler.FrameHandler.constructor: requires a non-negative scale, so that `int` truncation is the floor and the sizes are natural numbers. The capture, window and pose model it creates are not modelled.
- ImageHandler.FrameHandler.AddPositionedImage: requires that the block lies inside the frame, which its only caller guarantees. numpy's clipping of out-of-range slices and the broadcast error it would then raise are not modelled.
- ImageHandler.FrameHandler.CreateBlankImageWithBorder: a border of exactly half the panel leaves an empty interior. The model then gives an all-white panel; what OpenCV does with an empty source image is not modelled. The OpenCV error for a negative border is modelled by its assertion text only.
- ImageHandler.FrameHandler.AddImagesToFrame: assumes drawing the panels finishes without error. As shown, `_draw_squat_info` (src/ImageHandler.py:124-132) calls `draw_side_angle_squat` with keywords (`feet`, `scale`) that src/MovementDrawings.py:10-19 does not accept, and calls `draw_bar_path` and `draw_balance`, which src/MovementDrawings.py does not define. Each of these calls would raise TypeError or AttributeError; they belong to a newer drawing API that is not part of this model. The contract therefore fails only when the panels have no room for their border.
- ImageHandler.FrameHandler.RunVideoAnalysis: assumes the back-angle branch (src/ImageHandler.py:213-231) finishes without error. As shown, it reads `squat_pose.coordinates` (line 218) and calls `get_shoulder_midpoint` (line 222), which src/MovementPatterns.py does not define, so the loop would stop with AttributeError at the first back-view frame. In the model a back-view frame leaves the bar path unchanged and the loop carries on. The same assumption covers the panel drawing in a side-view frame: the model raises there only for a border that does not fit. In the shown code a TypeError would follow the bar point's append.
