/** The squat pose of one video frame (`SquatPose`): MediaPipe's 33 body
    landmarks, grouped into left/right pairs, and the heuristics that decide
    from which angle the lifter is filmed and which side faces the camera. */
module MovementPatterns {
  import opened Results
  import opened Calculations

  /** One MediaPipe landmark: normalised image coordinates and the model's
      confidence that the point is visible. */
  datatype Landmark = Landmark(x: real, y: real, visibility: real)

  /** A (left, right) tuple of landmarks, as stored by the constructor. */
  datatype LandmarkPair = LandmarkPair(left: Landmark, right: Landmark)

  /** MediaPipe's `PoseLandmark` indices used by the analyser. */
  const LeftShoulder := 11
  const RightShoulder := 12
  const LeftElbow := 13
  const RightElbow := 14
  const LeftHip := 23
  const RightHip := 24
  const LeftKnee := 25
  const RightKnee := 26
  const LeftAnkle := 27
  const RightAnkle := 28
  const LeftFootIndex := 31
  const RightFootIndex := 32

  /** MediaPipe's pose model reports this many landmarks. */
  const LandmarkCount := 33

  const BackAngle := "Back Angle"
  const SideAngle := "Side Angle"
  const Left := "Left"
  const Right := "Right"
  const TieMessage := "Cannot determine which side is visible"
  const InvalidSideMessage := "Invalid side"
  const IndexOutOfRange := "list index out of range"

  /** The default `threshold` of `visibility_difference` and `check_visibility`. */
  const DefaultThreshold: real := 0.2

  datatype SquatPose = SquatPose(
    landmarks: seq<Landmark>,
    shoulders: LandmarkPair,
    hips: LandmarkPair,
    elbows: LandmarkPair,
    knees: LandmarkPair,
    ankles: LandmarkPair,
    feet: LandmarkPair)

  function PairAt(ls: seq<Landmark>, left: nat, right: nat): LandmarkPair
    requires left < |ls| && right < |ls|
  {
    LandmarkPair(ls[left], ls[right])
  }

  /** What the constructor guarantees of every `SquatPose`: each pair holds
      the landmarks at its MediaPipe indices. */
  ghost predicate WellFormed(p: SquatPose) {
    |p.landmarks| >= LandmarkCount
    && p.shoulders == LandmarkPair(p.landmarks[LeftShoulder], p.landmarks[RightShoulder])
    && p.hips == LandmarkPair(p.landmarks[LeftHip], p.landmarks[RightHip])
    && p.elbows == LandmarkPair(p.landmarks[LeftElbow], p.landmarks[RightElbow])
    && p.knees == LandmarkPair(p.landmarks[LeftKnee], p.landmarks[RightKnee])
    && p.ankles == LandmarkPair(p.landmarks[LeftAnkle], p.landmarks[RightAnkle])
    && p.feet == LandmarkPair(p.landmarks[LeftFootIndex], p.landmarks[RightFootIndex])
  }

  /** `SquatPose.__init__`: pairs up the landmarks.  A landmark list too short
      for the highest index read (the right foot index) raises IndexError. */
  function NewSquatPose(ls: seq<Landmark>): (r: Result<SquatPose>)
    ensures r.Ok? <==> |ls| > RightFootIndex
    ensures r.Err? ==> r.error == IndexError(IndexOutOfRange)
    ensures r.Ok? ==> r.value.landmarks == ls
    ensures r.Ok? ==> WellFormed(r.value)
  {
    if |ls| <= RightFootIndex then Err(IndexError(IndexOutOfRange))
    else
      Ok(SquatPose(ls,
        PairAt(ls, LeftShoulder, RightShoulder),
        PairAt(ls, LeftHip, RightHip),
        PairAt(ls, LeftElbow, RightElbow),
        PairAt(ls, LeftKnee, RightKnee),
        PairAt(ls, LeftAnkle, RightAnkle),
        PairAt(ls, LeftFootIndex, RightFootIndex)))
  }

  /** `visibility_difference`: the two visibilities of a pair are balanced,
      i.e. they differ by strictly less than the threshold. */
  function VisibilityDifference(pair: LandmarkPair, threshold: real): (r: bool)
    ensures r <==> -threshold < pair.left.visibility - pair.right.visibility < threshold
  {
    Abs(pair.left.visibility - pair.right.visibility) < threshold
  }

  /** The five pairs `check_visibility` consults, in the order of its
      dictionary; the feet are not among them. */
  function BalancePairs(p: SquatPose): seq<LandmarkPair> {
    [p.shoulders, p.hips, p.elbows, p.knees, p.ankles]
  }

  /** `check_visibility`: "Back Angle" when every consulted pair is balanced,
      "Side Angle" as soon as one pair differs by the threshold or more. */
  function CheckVisibility(p: SquatPose, threshold: real): (r: string)
    ensures r == BackAngle || r == SideAngle
    ensures r == SideAngle <==>
      exists k :: 0 <= k < 5 && Abs(BalancePairs(p)[k].left.visibility - BalancePairs(p)[k].right.visibility) >= threshold
  {
    var visibility := [
      VisibilityDifference(p.shoulders, threshold),
      VisibilityDifference(p.hips, threshold),
      VisibilityDifference(p.elbows, threshold),
      VisibilityDifference(p.knees, threshold),
      VisibilityDifference(p.ankles, threshold)
    ];
    assert forall k :: 0 <= k < 5 ==> visibility[k] == VisibilityDifference(BalancePairs(p)[k], threshold);
    if forall k :: 0 <= k < |visibility| ==> visibility[k] then BackAngle else SideAngle
  }

  /** Raising the threshold can only turn "Side Angle" into "Back Angle". */
  lemma CheckVisibilityMonotone(p: SquatPose, threshold: real, larger: real)
    requires threshold <= larger
    ensures CheckVisibility(p, threshold) == BackAngle ==> CheckVisibility(p, larger) == BackAngle
  {
    if CheckVisibility(p, threshold) == BackAngle {
      forall k | 0 <= k < 5
        ensures Abs(BalancePairs(p)[k].left.visibility - BalancePairs(p)[k].right.visibility) < larger
      {
        assert !(Abs(BalancePairs(p)[k].left.visibility - BalancePairs(p)[k].right.visibility) >= threshold);
      }
    }
  }

  /** The feet never influence the viewpoint. */
  lemma CheckVisibilityIgnoresFeet(p: SquatPose, feet: LandmarkPair, threshold: real)
    ensures CheckVisibility(p.(feet := feet), threshold) == CheckVisibility(p, threshold)
  {
    assert BalancePairs(p.(feet := feet)) == BalancePairs(p);
  }

  /** Balance does not depend on which side of the pair is which. */
  lemma VisibilityDifferenceSymmetric(pair: LandmarkPair, threshold: real)
    ensures VisibilityDifference(LandmarkPair(pair.right, pair.left), threshold)
         == VisibilityDifference(pair, threshold)
  {
  }

  /** The landmarks at the given indices, in order. */
  function Joints(ls: seq<Landmark>, indices: seq<nat>): (js: seq<Landmark>)
    requires forall k :: 0 <= k < |indices| ==> indices[k] < |ls|
    ensures |js| == |indices|
    ensures forall k :: 0 <= k < |indices| ==> js[k] == ls[indices[k]]
  {
    seq(|indices|, k requires 0 <= k < |indices| => ls[indices[k]])
  }

  /** `sum(joint.visibility for joint in joints)`: added from the left. */
  function VisibilitySum(joints: seq<Landmark>): real {
    if joints == [] then 0.0
    else VisibilitySum(joints[..|joints| - 1]) + joints[|joints| - 1].visibility
  }

  const RightSideJoints: seq<nat> := [RightShoulder, RightHip, RightElbow, RightKnee, RightAnkle]
  const LeftSideJoints: seq<nat> := [LeftShoulder, LeftHip, LeftElbow, LeftKnee, LeftAnkle]

  /** The total visibility of shoulder, hip, elbow, knee and ankle on one
      side, written out term by term. */
  ghost function RightTotal(ls: seq<Landmark>): real
    requires |ls| >= LandmarkCount
  {
    ls[RightShoulder].visibility + ls[RightHip].visibility + ls[RightElbow].visibility
      + ls[RightKnee].visibility + ls[RightAnkle].visibility
  }

  ghost function LeftTotal(ls: seq<Landmark>): real
    requires |ls| >= LandmarkCount
  {
    ls[LeftShoulder].visibility + ls[LeftHip].visibility + ls[LeftElbow].visibility
      + ls[LeftKnee].visibility + ls[LeftAnkle].visibility
  }

  /** The left-to-right sum of five landmarks is the sum of their visibilities. */
  lemma VisibilitySumOfFive(js: seq<Landmark>)
    requires |js| == 5
    ensures VisibilitySum(js) == js[0].visibility + js[1].visibility + js[2].visibility
                                 + js[3].visibility + js[4].visibility
  {
    assert VisibilitySum(js[..1]) == js[0].visibility by {
      assert js[..1][..0] == [];
    }
    assert VisibilitySum(js[..2]) == VisibilitySum(js[..1]) + js[1].visibility by {
      assert js[..2][..1] == js[..1];
    }
    assert VisibilitySum(js[..3]) == VisibilitySum(js[..2]) + js[2].visibility by {
      assert js[..3][..2] == js[..2];
    }
    assert VisibilitySum(js[..4]) == VisibilitySum(js[..3]) + js[3].visibility by {
      assert js[..4][..3] == js[..3];
    }
    assert js[..5] == js;
  }

  /** `check_which_side_is_visible`: the side whose five joints have the
      larger total visibility; an exact tie raises ValueError. */
  function CheckWhichSideIsVisible(p: SquatPose): (r: Result<string>)
    requires WellFormed(p)
    ensures r == Ok(Right) <==> RightTotal(p.landmarks) > LeftTotal(p.landmarks)
    ensures r == Ok(Left) <==> LeftTotal(p.landmarks) > RightTotal(p.landmarks)
    ensures r.Err? <==> RightTotal(p.landmarks) == LeftTotal(p.landmarks)
    ensures r.Err? ==> r.error == ValueError(TieMessage)
  {
    var rightSideVisibility := VisibilitySum(Joints(p.landmarks, RightSideJoints));
    var leftSideVisibility := VisibilitySum(Joints(p.landmarks, LeftSideJoints));
    VisibilitySumOfFive(Joints(p.landmarks, RightSideJoints));
    VisibilitySumOfFive(Joints(p.landmarks, LeftSideJoints));
    if rightSideVisibility > leftSideVisibility then Ok(Right)
    else if leftSideVisibility > rightSideVisibility then Ok(Left)
    else Err(ValueError(TieMessage))
  }

  /** The `[x, y]` of a landmark. */
  function Position(l: Landmark): Point {
    Point(l.x, l.y)
  }

  /** `get_side_coordinates`: hip, knee, ankle, shoulder and foot index of the
      requested side ("Left" reads index 0 of every pair, "Right" index 1);
      any other side raises ValueError. */
  function GetSideCoordinates(p: SquatPose, side: string): (r: Result<seq<Point>>)
    ensures r.Ok? <==> side == Left || side == Right
    ensures r.Err? ==> r.error == ValueError(InvalidSideMessage)
    ensures r.Ok? ==> |r.value| == 5
    ensures WellFormed(p) && side == Left ==> r == Ok([
      Position(p.landmarks[LeftHip]), Position(p.landmarks[LeftKnee]), Position(p.landmarks[LeftAnkle]),
      Position(p.landmarks[LeftShoulder]), Position(p.landmarks[LeftFootIndex])])
    ensures WellFormed(p) && side == Right ==> r == Ok([
      Position(p.landmarks[RightHip]), Position(p.landmarks[RightKnee]), Position(p.landmarks[RightAnkle]),
      Position(p.landmarks[RightShoulder]), Position(p.landmarks[RightFootIndex])])
  {
    if side == Left then Ok(SideCoordinates(p, 0))
    else if side == Right then Ok(SideCoordinates(p, 1))
    else Err(ValueError(InvalidSideMessage))
  }

  /** Element `index` of a pair tuple. */
  function Pick(pair: LandmarkPair, index: nat): Landmark
    requires index < 2
  {
    if index == 0 then pair.left else pair.right
  }

  function SideCoordinates(p: SquatPose, index: nat): seq<Point>
    requires index < 2
  {
    [Position(Pick(p.hips, index)), Position(Pick(p.knees, index)), Position(Pick(p.ankles, index)),
     Position(Pick(p.shoulders, index)), Position(Pick(p.feet, index))]
  }

  /** The left/right partner of a MediaPipe landmark index: the nose maps to
      itself, eyes, ears and mouth corners swap, and from the shoulders on the
      odd (left) and even (right) indices swap. */
  function Partner(i: nat): (j: nat)
    requires i < LandmarkCount
    ensures j < LandmarkCount
  {
    if i == 0 then 0
    else if i <= 3 then i + 3
    else if i <= 6 then i - 3
    else if i <= 10 then (if i % 2 == 1 then i + 1 else i - 1)
    else if i % 2 == 1 then i + 1
    else i - 1
  }

  /** Swapping partners twice gives back the original index. */
  lemma PartnerInvolution(i: nat)
    requires i < LandmarkCount
    ensures Partner(Partner(i)) == i
  {
  }

  /** The landmarks of the mirrored body: every landmark takes its partner's
      record, so left and right visibilities trade places.  Entries past
      MediaPipe's 33 have no partner and stay where they are. */
  function MirrorLandmarks(ls: seq<Landmark>): (m: seq<Landmark>)
    requires |ls| >= LandmarkCount
    ensures |m| == |ls|
    ensures forall i :: 0 <= i < LandmarkCount ==> m[i] == ls[Partner(i)]
    ensures forall i :: LandmarkCount <= i < |ls| ==> m[i] == ls[i]
  {
    seq(|ls|, i requires 0 <= i < |ls| => if i < LandmarkCount then ls[Partner(i)] else ls[i])
  }

  /** The pose the constructor builds from the mirrored landmarks. */
  function Mirror(p: SquatPose): (q: SquatPose)
    requires WellFormed(p)
    ensures WellFormed(q)
    ensures q.landmarks == MirrorLandmarks(p.landmarks)
  {
    var r := NewSquatPose(MirrorLandmarks(p.landmarks));
    r.value
  }

  /** Mirroring twice gives back the original pose. */
  lemma MirrorInvolution(p: SquatPose)
    requires WellFormed(p)
    ensures Mirror(Mirror(p)) == p
  {
    var ls := p.landmarks;
    var twice := MirrorLandmarks(MirrorLandmarks(ls));
    forall i | 0 <= i < |ls|
      ensures twice[i] == ls[i]
    {
      if i < LandmarkCount {
        PartnerInvolution(i);
      }
    }
    assert twice == ls;
  }

  /** Mirroring keeps each pair but swaps its two members. */
  lemma MirrorSwapsPairs(p: SquatPose)
    requires WellFormed(p)
    ensures Mirror(p).shoulders == LandmarkPair(p.shoulders.right, p.shoulders.left)
    ensures Mirror(p).hips == LandmarkPair(p.hips.right, p.hips.left)
    ensures Mirror(p).elbows == LandmarkPair(p.elbows.right, p.elbows.left)
    ensures Mirror(p).knees == LandmarkPair(p.knees.right, p.knees.left)
    ensures Mirror(p).ankles == LandmarkPair(p.ankles.right, p.ankles.left)
    ensures Mirror(p).feet == LandmarkPair(p.feet.right, p.feet.left)
  {
  }

  /** Mirroring leaves the viewpoint unchanged. */
  lemma MirrorKeepsViewpoint(p: SquatPose, threshold: real)
    requires WellFormed(p)
    ensures CheckVisibility(Mirror(p), threshold) == CheckVisibility(p, threshold)
  {
    MirrorSwapsPairs(p);
    var q := Mirror(p);
    forall k | 0 <= k < 5
      ensures Abs(BalancePairs(q)[k].left.visibility - BalancePairs(q)[k].right.visibility)
           == Abs(BalancePairs(p)[k].left.visibility - BalancePairs(p)[k].right.visibility)
    {
    }
  }

  /** The side that is "Right" mirrors to "Left" and back; a tie stays a tie. */
  function FlipSide(r: Result<string>): Result<string> {
    if r == Ok(Right) then Ok(Left) else if r == Ok(Left) then Ok(Right) else r
  }

  /** Mirroring flips the visible side and keeps the tie error. */
  lemma MirrorFlipsSide(p: SquatPose)
    requires WellFormed(p)
    ensures CheckWhichSideIsVisible(Mirror(p)) == FlipSide(CheckWhichSideIsVisible(p))
  {
    var q := Mirror(p);
    assert RightTotal(q.landmarks) == LeftTotal(p.landmarks);
    assert LeftTotal(q.landmarks) == RightTotal(p.landmarks);
  }

  /** Mirroring exchanges the coordinates `get_side_coordinates` reports for
      the two sides. */
  lemma MirrorSwapsSideCoordinates(p: SquatPose)
    requires WellFormed(p)
    ensures GetSideCoordinates(Mirror(p), Left) == GetSideCoordinates(p, Right)
    ensures GetSideCoordinates(Mirror(p), Right) == GetSideCoordinates(p, Left)
  {
  }
}
