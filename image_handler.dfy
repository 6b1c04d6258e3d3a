/** `FrameHandler`: composes each analysed video frame with three information
    panels stacked to its right, and drives the per-frame analysis of a squat
    filmed from the side, collecting the path of the barbell. */
module ImageHandler {
  import opened Results
  import opened Calculations
  import opened MovementPatterns

  type Byte = x: int | 0 <= x < 256

  /** One BGR pixel of an 8-bit, three-channel image. */
  datatype Pixel = Pixel(b: Byte, g: Byte, r: Byte)

  const Black := Pixel(0, 0, 0)
  const White := Pixel(255, 255, 255)

  const Top := "Top"
  const Middle := "Middle"
  const Bottom := "Bottom"

  /** The panel positions, in the order `add_images_to_frame` pastes them. */
  const Positions: seq<string> := [Top, Middle, Bottom]

  /** The border `add_images_to_frame` asks for. */
  const PanelBorder := 1

  const NegativeDimensions := "negative dimensions are not allowed"
  const NegativeBorder := "top >= 0 && bottom >= 0 && left >= 0 && right >= 0"
  const UnpackNone := "cannot unpack non-iterable NoneType object"

  /** Pixel (i, j) of an h x w image whose outer `border` rows and columns are
      white and whose interior is black. */
  function BorderedPixel(h: int, w: int, border: int, i: int, j: int): Pixel {
    if i < border || h - border <= i || j < border || w - border <= j then White else Black
  }

  /** `cv2.copyMakeBorder` with `BORDER_CONSTANT`: a copy of `src` surrounded
      on all four sides by `border` rows and columns of `value`. */
  method CopyMakeBorder(src: array2<Pixel>, border: nat, value: Pixel) returns (dst: array2<Pixel>)
    ensures fresh(dst)
    ensures dst.Length0 == src.Length0 + 2 * border && dst.Length1 == src.Length1 + 2 * border
    ensures forall i, j :: 0 <= i < dst.Length0 && 0 <= j < dst.Length1 ==>
      dst[i, j] == (if border <= i < border + src.Length0 && border <= j < border + src.Length1
                    then src[i - border, j - border] else value)
  {
    dst := new Pixel[src.Length0 + 2 * border, src.Length1 + 2 * border]((i, j) => value);
    forall i, j | 0 <= i < src.Length0 && 0 <= j < src.Length1 {
      dst[i + border, j + border] := src[i, j];
    }
  }

  /** A point of the bar path: the barbell centre scaled to the size of the
      bar-path panel. */
  type BarPoint = (int, int)

  /** A circle reported by the plate detector: centre and radius in pixels. */
  datatype Circle = Circle(x: real, y: real, radius: real)

  /** `get_barbell_coordinates`: the rounded centre of the first detected
      circle, or nothing when the detector found no circle.  The detector
      (`cv2.HoughCircles` on the blurred grey frame) is the `circles` input. */
  function BarbellCoordinates(circles: seq<Circle>): (r: Option<(int, int)>)
    ensures r.None? <==> circles == []
    ensures r.Some? ==> circles[0].x - 0.5 <= r.value.0 as real <= circles[0].x + 0.5
    ensures r.Some? ==> circles[0].y - 0.5 <= r.value.1 as real <= circles[0].y + 0.5
  {
    if circles == [] then None
    else Some((RoundHalfEven(circles[0].x), RoundHalfEven(circles[0].y)))
  }

  /** Only the first circle matters; there is no proximity filter. */
  lemma BarbellIgnoresLaterCircles(first: Circle, rest: seq<Circle>)
    ensures BarbellCoordinates([first] + rest) == BarbellCoordinates([first])
  {
  }

  /** `int(n / 3)`: a third, truncated toward zero. */
  function TruncatedThird(n: int): (r: int)
    ensures 0 <= n ==> 0 <= 3 * r <= n < 3 * r + 3
    ensures n < 0 ==> 3 * r - 3 < n <= 3 * r <= 0
  {
    if 0 <= n then n / 3 else -((-n) / 3)
  }

  /** Truncation toward zero commutes with negation. */
  lemma TruncatedThirdOdd(n: int)
    ensures TruncatedThird(-n) == -TruncatedThird(n)
  {
  }

  /** The point appended to `bar_path` for a detected barbell centre. */
  function BarPathPoint(centre: (int, int)): (r: BarPoint)
    ensures 0 <= centre.0 ==> 0 <= 3 * r.0 <= centre.0 < 3 * r.0 + 3
    ensures 0 <= centre.1 ==> 0 <= 3 * r.1 <= centre.1 < 3 * r.1 + 3
    ensures centre.0 < 0 ==> 3 * r.0 - 3 < centre.0 <= 3 * r.0 <= 0
    ensures centre.1 < 0 ==> 3 * r.1 - 3 < centre.1 <= 3 * r.1 <= 0
  {
    (TruncatedThird(centre.0), TruncatedThird(centre.1))
  }

  /** The inputs of one loop iteration: the pose landmarks MediaPipe found
      (if any), the circles the plate detector found, and the frame resized
      to the handler's size. */
  datatype FrameInput = FrameInput(landmarks: Option<seq<Landmark>>, circles: seq<Circle>, pixels: array2<Pixel>)

  /** The knee, hip and shin angles of a side-view frame. */
  datatype SideAngles = SideAngles(knee: real, hip: real, shin: real)

  /** The `[x, y]` of landmark `index` of a pose. */
  function At(p: SquatPose, index: nat): Point
    requires WellFormed(p) && index < LandmarkCount
  {
    Position(p.landmarks[index])
  }

  /** MediaPipe numbers a right-side joint one above its left partner. */
  function SideOffset(side: string): nat {
    if side == Right then 1 else 0
  }

  /** The angle steps of the side-view branch of `run_video_analysis`: pick
      the visible side, read its coordinates, and take the knee angle
      (hip-knee-ankle), the hip angle (shoulder-hip-knee) and the shin angle
      (knee-ankle-foot).  The first exception raised ends the analysis. */
  function AnalyzeSideView(m: MathLib, p: SquatPose): (r: Result<SideAngles>)
    requires WellFormed(p)
    ensures CheckWhichSideIsVisible(p).Err? ==> r == Err(ValueError(TieMessage))
    ensures r.Err? ==> r.error.ValueError?
    ensures AcosLaws(m.acos) && r.Ok? ==>
      0.0 <= r.value.knee <= 180.0 && 0.0 <= r.value.hip <= 180.0 && 0.0 <= r.value.shin <= 180.0
  {
    var side := CheckWhichSideIsVisible(p);
    if side.Err? then Err(side.error)
    else
      var c := GetSideCoordinates(p, side.value).value;
      var knee := ThreePointAngle(m, c[0], c[1], c[2]);
      if knee.Err? then Err(knee.error)
      else
        var hip := ThreePointAngle(m, c[3], c[0], c[1]);
        if hip.Err? then Err(hip.error)
        else
          var shin := ThreePointAngle(m, c[1], c[2], c[4]);
          if shin.Err? then Err(shin.error)
          else Ok(SideAngles(knee.value, hip.value, shin.value))
  }

  /** The coordinates of the visible side are the landmarks one above the
      left-side indices on the right side and at them on the left side. */
  lemma SideCoordinatesAt(p: SquatPose, side: string)
    requires WellFormed(p) && (side == Left || side == Right)
    ensures var o := SideOffset(side);
      GetSideCoordinates(p, side) == Ok([At(p, LeftHip + o), At(p, LeftKnee + o), At(p, LeftAnkle + o),
                                         At(p, LeftShoulder + o), At(p, LeftFootIndex + o)])
  {
  }

  /** The angles are wired to the right joints: the knee angle sits at the
      knee between hip and ankle, the hip angle at the hip between shoulder
      and knee, the shin angle at the ankle between knee and foot, all on the
      side `check_which_side_is_visible` chose. */
  lemma AnalyzeSideViewAngles(m: MathLib, p: SquatPose)
    requires WellFormed(p)
    ensures AnalyzeSideView(m, p).Ok? ==> (CheckWhichSideIsVisible(p).Ok? &&
      var o := SideOffset(CheckWhichSideIsVisible(p).value);
       var angles := AnalyzeSideView(m, p).value;
       ThreePointAngle(m, At(p, LeftHip + o), At(p, LeftKnee + o), At(p, LeftAnkle + o)) == Ok(angles.knee) &&
       ThreePointAngle(m, At(p, LeftShoulder + o), At(p, LeftHip + o), At(p, LeftKnee + o)) == Ok(angles.hip) &&
       ThreePointAngle(m, At(p, LeftKnee + o), At(p, LeftAnkle + o), At(p, LeftFootIndex + o)) == Ok(angles.shin))
  {
    var side := CheckWhichSideIsVisible(p);
    if side.Ok? {
      SideCoordinatesAt(p, side.value);
    }
  }

  /** Once a side is chosen, the analysis fails (under the square-root laws)
      exactly when two joints of one of the three angles coincide. */
  lemma AnalyzeSideViewFails(m: MathLib, p: SquatPose)
    requires WellFormed(p) && SqrtLaws(m.sqrt) && CheckWhichSideIsVisible(p).Ok?
    ensures var o := SideOffset(CheckWhichSideIsVisible(p).value);
      AnalyzeSideView(m, p).Err? <==>
        At(p, LeftHip + o) == At(p, LeftKnee + o) || At(p, LeftAnkle + o) == At(p, LeftKnee + o)
        || At(p, LeftShoulder + o) == At(p, LeftHip + o) || At(p, LeftFootIndex + o) == At(p, LeftAnkle + o)
  {
    SideCoordinatesAt(p, CheckWhichSideIsVisible(p).value);
  }

  /** The result of running the analysis over a sequence of frames: the
      exception that stopped it, if any, and the bar path collected so far. */
  datatype Outcome = Outcome(failure: Option<Error>, barPath: seq<BarPoint>)

  /** One iteration of the `run_video_analysis` loop, as a function of the bar
      path before it.  `panelsFit` says whether the handler's panels have room
      for their border (otherwise composing the frame raises). */
  function FrameStep(m: MathLib, panelsFit: bool, f: FrameInput, path: seq<BarPoint>): (r: Outcome)
    ensures f.landmarks.None? ==> r == Outcome(None, path)
    ensures path <= r.barPath && |r.barPath| <= |path| + 1
    ensures f.circles == [] ==> r.barPath == path
  {
    if f.landmarks.None? then Outcome(None, path)
    else
      var pose := NewSquatPose(f.landmarks.value);
      if pose.Err? then Outcome(Some(pose.error), path)
      else if CheckVisibility(pose.value, DefaultThreshold) != SideAngle then Outcome(None, path)
      else
        var angles := AnalyzeSideView(m, pose.value);
        if angles.Err? then Outcome(Some(angles.error), path)
        else
          var bar := BarbellCoordinates(f.circles);
          var next := if bar.Some? then path + [BarPathPoint(bar.value)] else path;
          if panelsFit then Outcome(None, next) else Outcome(Some(ValueError(NegativeDimensions)), next)
  }

  /** The loop of `run_video_analysis` over all frames, starting from `path`. */
  function Run(m: MathLib, panelsFit: bool, frames: seq<FrameInput>, path: seq<BarPoint>): (r: Outcome)
    ensures |r.barPath| <= |path| + |frames|
    decreases |frames|
  {
    if frames == [] then Outcome(None, path)
    else
      var step := FrameStep(m, panelsFit, frames[0], path);
      if step.failure.Some? then step else Run(m, panelsFit, frames[1..], step.barPath)
  }

  /** The bar-path point a frame contributes when it is processed without an
      exception: one exactly for a side view in which a circle was found. */
  function Detection(f: FrameInput): seq<BarPoint> {
    if f.landmarks.None? || |f.landmarks.value| <= RightFootIndex || f.circles == [] then []
    else
      var pose := NewSquatPose(f.landmarks.value).value;
      if CheckVisibility(pose, DefaultThreshold) == SideAngle
      then [BarPathPoint((RoundHalfEven(f.circles[0].x), RoundHalfEven(f.circles[0].y)))]
      else []
  }

  function Detections(frames: seq<FrameInput>): seq<BarPoint> {
    if frames == [] then [] else Detection(frames[0]) + Detections(frames[1..])
  }

  /** One frame adds at most one point and never rewrites the path. */
  lemma FrameStepAppends(m: MathLib, panelsFit: bool, f: FrameInput, path: seq<BarPoint>)
    ensures var next := FrameStep(m, panelsFit, f, path).barPath;
      next == path || next == path + [next[|next| - 1]]
    ensures FrameStep(m, panelsFit, f, path).failure.None? ==>
      FrameStep(m, panelsFit, f, path).barPath == path + Detection(f)
  {
  }

  /** The bar path only grows: earlier entries are never changed or reordered. */
  lemma {:induction false} RunOnlyAppends(m: MathLib, panelsFit: bool, frames: seq<FrameInput>, path: seq<BarPoint>)
    ensures path <= Run(m, panelsFit, frames, path).barPath
    decreases |frames|
  {
    if frames != [] {
      var step := FrameStep(m, panelsFit, frames[0], path);
      FrameStepAppends(m, panelsFit, frames[0], path);
      if step.failure.None? {
        RunOnlyAppends(m, panelsFit, frames[1..], step.barPath);
      }
    }
  }

  /** Concatenation of three sequences regroups. */
  lemma AppendAssociative<T>(a: seq<T>, b: seq<T>, c: seq<T>)
    ensures a + b + c == a + (b + c)
  {
  }

  /** A run without exception appends exactly the detections of its
      side-view frames, in frame order. */
  lemma {:induction false} RunCollectsDetections(m: MathLib, panelsFit: bool, frames: seq<FrameInput>, path: seq<BarPoint>)
    ensures Run(m, panelsFit, frames, path).failure.None? ==>
      Run(m, panelsFit, frames, path).barPath == path + Detections(frames)
    decreases |frames|
  {
    if frames != [] {
      var step := FrameStep(m, panelsFit, frames[0], path);
      assert Run(m, panelsFit, frames, path) == if step.failure.Some? then step else Run(m, panelsFit, frames[1..], step.barPath);
      FrameStepAppends(m, panelsFit, frames[0], path);
      if step.failure.None? {
        var d, rest := Detection(frames[0]), Detections(frames[1..]);
        assert step.barPath == path + d;
        assert Detections(frames) == d + rest;
        RunCollectsDetections(m, panelsFit, frames[1..], step.barPath);
        AppendAssociative(path, d, rest);
      }
    }
  }

  class FrameHandler {
    /** The frame size after scaling. */
    const width: nat
    const height: nat

    /** `__init__`: the capture's frame size times `scale`, truncated by
        `int`.  The capture itself, the window and the pose model are not
        part of the model. */
    constructor(captureWidth: nat, captureHeight: nat, scale: real)
      requires 0.0 <= scale
      ensures width == (captureWidth as real * scale).Floor
      ensures height == (captureHeight as real * scale).Floor
    {
      width := (captureWidth as real * scale).Floor;
      height := (captureHeight as real * scale).Floor;
    }

    /** `_get_blank_image_dimensions`: a third of the frame height and width,
        rounded down. */
    function BlankImageDimensions(): (d: (int, int))
      ensures 3 * d.0 <= height < 3 * d.0 + 3
      ensures 3 * d.1 <= width < 3 * d.1 + 3
    {
      (height / 3, width / 3)
    }

    /** `_get_position_coordinates`: the row range [start, end) of a panel of
        `imageHeight` rows: at the top, centred, or at the bottom.  Any other
        position matches no case (the Python function returns None). */
    function PositionCoordinates(position: string, imageHeight: int): (r: Option<(int, int)>)
      ensures r.Some? <==> position == Top || position == Middle || position == Bottom
      ensures r.Some? ==> r.value.1 - r.value.0 == imageHeight
      ensures position == Top ==> r.value.0 == 0
      ensures position == Bottom ==> r.value.1 == height
      ensures position == Middle ==> 0 <= (height - r.value.1) - r.value.0 <= 1
    {
      if position == Top then Some((0, imageHeight))
      else if position == Middle then
        var yStart := (height - imageHeight) / 2;
        Some((yStart, yStart + imageHeight))
      else if position == Bottom then Some((height - imageHeight, height))
      else None
    }

    /** Panels a third of the frame high stack inside the frame, top to
        bottom, without overlapping. */
    lemma PanelsStack()
      ensures var ih := BlankImageDimensions().0;
        var top := PositionCoordinates(Top, ih).value;
        var middle := PositionCoordinates(Middle, ih).value;
        var bottom := PositionCoordinates(Bottom, ih).value;
        0 == top.0 <= top.1 <= middle.0 <= middle.1 <= bottom.0 <= bottom.1 == height
    {
    }

    /** The rows [start, end) of the k-th panel (Top, Middle, Bottom) of
        `add_images_to_frame`. */
    function PanelRows(k: nat): (int, int)
      requires k < |Positions|
    {
      PositionCoordinates(Positions[k], height / 3).value
    }

    /** The pixel at row `i`, column `j` of the panel strip once the first `n`
        panels have been pasted, each over the blank strip and the panels
        before it. */
    function Layout(n: nat, i: int, j: int): Pixel
      requires n <= |Positions|
    {
      if n == 0 then Black
      else
        var rows := PanelRows(n - 1);
        if rows.0 <= i < rows.1
        then BorderedPixel(height / 3, width / 3, PanelBorder, i - rows.0, j)
        else Layout(n - 1, i, j)
    }

    /** Whether panels of the frame's third have room for a border of `b`. */
    predicate BorderFits(b: int) {
      0 <= b && 2 * b <= height / 3 && 2 * b <= width / 3
    }

    /** `_create_blank_image_with_border`: a black image of a third of the
        frame in each direction, framed by `borderSize` white rows and columns.
        A border wider than half the panel makes numpy reject the interior's
        negative size; a negative border makes OpenCV reject it. */
    method CreateBlankImageWithBorder(borderSize: int) returns (r: Result<array2<Pixel>>)
      ensures r.Err? <==> !BorderFits(borderSize)
      ensures r.Err? ==> r.error == (if borderSize < 0 then OpenCvError(NegativeBorder) else ValueError(NegativeDimensions))
      ensures r.Ok? ==> fresh(r.value)
      ensures r.Ok? ==> (r.value.Length0, r.value.Length1) == BlankImageDimensions()
      ensures r.Ok? ==> forall i, j :: 0 <= i < r.value.Length0 && 0 <= j < r.value.Length1 ==>
        r.value[i, j] == BorderedPixel(height / 3, width / 3, borderSize, i, j)
    {
      var dims := BlankImageDimensions();
      var blankHeight, blankWidth := dims.0, dims.1;
      if blankHeight - 2 * borderSize < 0 || blankWidth - 2 * borderSize < 0 {
        return Err(ValueError(NegativeDimensions));
      }
      if borderSize < 0 {
        return Err(OpenCvError(NegativeBorder));
      }
      var blank := new Pixel[blankHeight - 2 * borderSize, blankWidth - 2 * borderSize]((i, j) => Black);
      var bordered := CopyMakeBorder(blank, borderSize, White);
      return Ok(bordered);
    }

    /** `_add_positioned_image`: pastes `image` into `frame` at the rows of
        `position`, starting at column `width`; every other pixel is kept.
        An unknown position raises TypeError when the missing row range is
        unpacked.  The caller keeps the block inside the frame. */
    method AddPositionedImage(frame: array2<Pixel>, image: array2<Pixel>, position: string) returns (failure: Option<Error>)
      requires frame != image
      requires PositionCoordinates(position, image.Length0).Some? ==>
        0 <= PositionCoordinates(position, image.Length0).value.0
        && PositionCoordinates(position, image.Length0).value.1 <= frame.Length0
        && width + image.Length1 <= frame.Length1
      modifies frame
      ensures failure.Some? <==> PositionCoordinates(position, image.Length0).None?
      ensures failure.Some? ==> failure.value == TypeError(UnpackNone) && unchanged(frame)
      ensures failure.None? ==> var yStart := PositionCoordinates(position, image.Length0).value.0;
        forall i, j :: 0 <= i < frame.Length0 && 0 <= j < frame.Length1 ==>
          frame[i, j] == (if yStart <= i < yStart + image.Length0 && width <= j < width + image.Length1
                          then image[i - yStart, j - width] else old(frame[i, j]))
    {
      var coordinates := PositionCoordinates(position, image.Length0);
      if coordinates.None? {
        return Some(TypeError(UnpackNone));
      }
      var yStart, yEnd := coordinates.value.0, coordinates.value.1;
      var xStart, xEnd := width, width + image.Length1;
      forall i, j | yStart <= i < yEnd && xStart <= j < xEnd {
        frame[i, j] := image[i - yStart, j - xStart];
      }
      return None;
    }

    /** `add_images_to_frame`: a canvas as high as the frame and a third
        wider, holding the frame on the left and the three bordered panels
        stacked on the right.  Fails as the blank panel does when the panels
        have no room for their border. */
    method AddImagesToFrame(frame: array2<Pixel>) returns (r: Result<array2<Pixel>>)
      requires frame.Length0 == height && frame.Length1 == width
      ensures r.Err? <==> !BorderFits(PanelBorder)
      ensures r.Err? ==> r.error == ValueError(NegativeDimensions)
      ensures r.Ok? ==> fresh(r.value)
      ensures r.Ok? ==> r.value.Length0 == height && r.value.Length1 == width + width / 3
      ensures r.Ok? ==> forall i, j :: 0 <= i < height && 0 <= j < width ==> r.value[i, j] == frame[i, j]
      ensures r.Ok? ==> forall i, j :: 0 <= i < height && 0 <= j < width / 3 ==>
        r.value[i, width + j] == Layout(|Positions|, i, j)
    {
      var newWidth := width + BlankImageDimensions().1;
      var newFrame := new Pixel[height, newWidth]((i, j) => Black);
      forall i, j | 0 <= i < height && 0 <= j < width {
        newFrame[i, j] := frame[i, j];
      }
      PanelsStack();
      for k := 0 to |Positions|
        invariant 0 < k ==> BorderFits(PanelBorder)
        invariant forall i, j :: 0 <= i < height && 0 <= j < width ==> newFrame[i, j] == frame[i, j]
        invariant forall i, j :: 0 <= i < height && 0 <= j < width / 3 ==>
          newFrame[i, width + j] == Layout(k, i, j)
      {
        var blankImage := CreateBlankImageWithBorder(PanelBorder);
        if blankImage.Err? {
          return Err(blankImage.error);
        }
        var failure := AddPositionedImage(newFrame, blankImage.value, Positions[k]);
        assert failure.None?;
      }
      return Ok(newFrame);
    }

    /** With room for their border, each panel row shows that panel's
        bordered blank image, and rows below the three panels stay black. */
    lemma LayoutByPanel(i: int, j: int)
      requires 0 <= i < height
      ensures forall k :: 0 <= k < |Positions| && PanelRows(k).0 <= i < PanelRows(k).1 ==>
        Layout(|Positions|, i, j) == BorderedPixel(height / 3, width / 3, PanelBorder, i - PanelRows(k).0, j)
      ensures (forall k :: 0 <= k < |Positions| ==> !(PanelRows(k).0 <= i < PanelRows(k).1)) ==>
        Layout(|Positions|, i, j) == Black
    {
      PanelsStack();
      var ih := height / 3;
      var r0, r1, r2 := PanelRows(0), PanelRows(1), PanelRows(2);
      assert 0 == r0.0 <= r0.1 <= r1.0 <= r1.1 <= r2.0 <= r2.1 == height;
      assert Layout(3, i, j) == if r2.0 <= i < r2.1 then BorderedPixel(ih, width / 3, PanelBorder, i - r2.0, j) else Layout(2, i, j);
      assert Layout(2, i, j) == if r1.0 <= i < r1.1 then BorderedPixel(ih, width / 3, PanelBorder, i - r1.0, j) else Layout(1, i, j);
      assert Layout(1, i, j) == if r0.0 <= i < r0.1 then BorderedPixel(ih, width / 3, PanelBorder, i - r0.0, j) else Black;
    }

    /** `run_video_analysis` over the frames the capture delivers: frames
        without landmarks are skipped, side views have their angles computed,
        the barbell centre (when found) appended to the bar path, and are
        composed with their panels.  The first exception ends the run. */
    method RunVideoAnalysis(m: MathLib, frames: seq<FrameInput>) returns (failure: Option<Error>, barPath: seq<BarPoint>)
      requires forall k :: 0 <= k < |frames| ==> frames[k].pixels.Length0 == height && frames[k].pixels.Length1 == width
      ensures Outcome(failure, barPath) == Run(m, BorderFits(PanelBorder), frames, [])
    {
      barPath := [];
      var i := 0;
      while i < |frames|
        invariant 0 <= i <= |frames|
        invariant Run(m, BorderFits(PanelBorder), frames[i..], barPath) == Run(m, BorderFits(PanelBorder), frames, [])
      {
        var input := frames[i];
        assert frames[i..][1..] == frames[i + 1..];
        i := i + 1;
        if input.landmarks.None? {
          continue;
        }
        var squatPose := NewSquatPose(input.landmarks.value);
        if squatPose.Err? {
          return Some(squatPose.error), barPath;
        }
        var videoAngle := CheckVisibility(squatPose.value, DefaultThreshold);
        if videoAngle == SideAngle {
          var angles := AnalyzeSideView(m, squatPose.value);
          if angles.Err? {
            return Some(angles.error), barPath;
          }
          var barCoords := BarbellCoordinates(input.circles);
          if barCoords.Some? {
            barPath := barPath + [BarPathPoint(barCoords.value)];
          }
          var composed := AddImagesToFrame(input.pixels);
          if composed.Err? {
            return Some(composed.error), barPath;
          }
        }
      }
      return None, barPath;
    }
  }
}
