/** Geometric helpers for the rotating platform: picking the platform's
    circle among the detected ones, the standing check from leg angles, and
    the downward correction of a box seen at the far end. */
module Tools {
  import opened Types

  // ---------------------------------------------------------------------
  // Circle selection
  // ---------------------------------------------------------------------

  /** A detected circle: centre and radius. */
  datatype Circle = Circle(x: real, y: real, r: real)

  /** A distance that may still be infinite, the start value of the minima. */
  datatype Dist = Finite(v: real) | Infinity

  predicate Less(a: Dist, b: Dist)
  {
    a.Finite? && (b.Infinity? || a.v < b.v)
  }

  /** Only the first two circles the detector reports are considered. */
  function Candidates(circles: seq<Circle>): (cs: seq<Circle>)
    ensures |cs| == if |circles| < 2 then |circles| else 2
    ensures forall k :: 0 <= k < |cs| ==> cs[k] == circles[k]
  {
    if |circles| < 2 then circles else circles[..2]
  }

  /** One pass over the distances keeping the nearest and the second
      nearest index. The nearest is the first index of a minimum; the second
      is a minimum of the others, absent when there are fewer than two. */
  method TwoNearest(distances: seq<real>)
    returns (idx1: Option<nat>, idx2: Option<nat>, minDist1: Dist, minDist2: Dist)
    ensures idx1.None? <==> |distances| == 0
    ensures idx2.None? <==> |distances| <= 1
    ensures idx1.Some? ==>
              && idx1.value < |distances|
              && (forall j :: 0 <= j < |distances| ==> distances[idx1.value] <= distances[j])
              && (forall j :: 0 <= j < idx1.value ==> distances[idx1.value] < distances[j])
    ensures idx2.Some? ==>
              && idx2.value < |distances| && idx2.value != idx1.value
              && (forall j :: 0 <= j < |distances| && j != idx1.value ==>
                    distances[idx2.value] <= distances[j])
    ensures minDist1 == if idx1.Some? then Finite(distances[idx1.value]) else Infinity
    ensures minDist2 == if idx2.Some? then Finite(distances[idx2.value]) else Infinity
    ensures !Less(minDist2, minDist1)
  {
    idx1, idx2 := None, None;
    minDist1, minDist2 := Infinity, Infinity;
    for idx := 0 to |distances|
      invariant idx1.None? <==> idx == 0
      invariant idx2.None? <==> idx <= 1
      invariant idx1.Some? ==>
                  && idx1.value < idx
                  && (forall j :: 0 <= j < idx ==> distances[idx1.value] <= distances[j])
                  && (forall j :: 0 <= j < idx1.value ==> distances[idx1.value] < distances[j])
      invariant idx2.Some? ==>
                  && idx2.value < idx && idx2.value != idx1.value
                  && (forall j :: 0 <= j < idx && j != idx1.value ==>
                        distances[idx2.value] <= distances[j])
      invariant minDist1 == if idx1.Some? then Finite(distances[idx1.value]) else Infinity
      invariant minDist2 == if idx2.Some? then Finite(distances[idx2.value]) else Infinity
      invariant !Less(minDist2, minDist1)
    {
      var distanceToCenter := distances[idx];
      if Less(Finite(distanceToCenter), minDist1) {
        if Less(minDist1, minDist2) {
          minDist2 := minDist1;
          idx2 := idx1;
        }
        minDist1 := Finite(distanceToCenter);
        idx1 := Some(idx);
      } else if Less(Finite(distanceToCenter), minDist2) {
        minDist2 := Finite(distanceToCenter);
        idx2 := Some(idx);
      }
    }
  }

  /** Reference definition of the choice among one or two candidates: of the
      nearer one (the first on a distance tie) and the other, the nearer is
      taken only when its radius is strictly smaller. */
  function Preferred(cs: seq<Circle>, centerDistance: Circle -> real): (k: nat)
    requires 1 <= |cs| <= 2
    ensures k < |cs|
  {
    if |cs| == 1 then 0
    else
      var near := if centerDistance(cs[1]) < centerDistance(cs[0]) then 1 else 0;
      var far := 1 - near;
      if cs[near].r < cs[far].r then near else far
  }

  /** With two candidates the preferred one never has the larger radius, and
      on a radius tie it is the farther one. */
  lemma PreferredRadius(cs: seq<Circle>, centerDistance: Circle -> real)
    requires |cs| == 2
    ensures var k := Preferred(cs, centerDistance);
      && cs[k].r <= cs[1 - k].r
      && (cs[0].r == cs[1].r ==>
            k == if centerDistance(cs[1]) < centerDistance(cs[0]) then 0 else 1)
  {
  }

  /** numpy's `np.round`: to the nearest integer, ties to even. */
  function RoundHalfEven(v: real): (n: int)
    ensures -0.5 <= n as real - v <= 0.5
    ensures (n as real - v == 0.5 || v - n as real == 0.5) ==> n % 2 == 0
  {
    var f := v.Floor;
    var frac := v - f as real;
    if frac < 0.5 then f
    else if frac > 0.5 then f + 1
    else if f % 2 == 0 then f else f + 1
  }

  /** The two properties of RoundHalfEven determine its result. */
  lemma RoundHalfEvenUnique(v: real, m: int)
    requires -0.5 <= m as real - v <= 0.5
    requires (m as real - v == 0.5 || v - m as real == 0.5) ==> m % 2 == 0
    ensures m == RoundHalfEven(v)
  {
  }

  /** Python's int() on a real: truncation toward zero. */
  function Truncate(v: real): (n: int)
    ensures 0.0 <= v ==> n as real <= v < n as real + 1.0
    ensures v < 0.0 ==> n as real - 1.0 < v <= n as real
  {
    if v >= 0.0 then v.Floor else -((-v).Floor)
  }

  datatype SusanResult =
    | Found(x: int, y: int, r: int)
    | NoCircle          // the detector found nothing: (None, None, None)
    | SelectionUnbound  // a circle array with no circle: no index gets selected

  /** The circle nearest the image centre, rounded; `circles` is the Hough
      detector's answer and `centerDistance` its distance to the centre.
      `scale` is overridden with 1.0, so it never matters. */
  method FindSusan(circles: Option<seq<Circle>>, centerDistance: Circle -> real, scale: int)
    returns (res: SusanResult)
    ensures circles.None? ==> res == NoCircle
    ensures circles.Some? && circles.value == [] ==> res == SelectionUnbound
    ensures circles.Some? && circles.value != [] ==>
      var cs := Candidates(circles.value);
      var c := cs[Preferred(cs, centerDistance)];
      res == Found(RoundHalfEven(c.x), RoundHalfEven(c.y), RoundHalfEven(c.r))
  {
    var forcedScale: real := 1.0;
    if circles.None? {
      return NoCircle;
    }
    var cs := Candidates(circles.value);
    var distancesToCenter := seq(|cs|, k requires 0 <= k < |cs| => centerDistance(cs[k]));
    var idx1, idx2, _, _ := TwoNearest(distancesToCenter);
    var selected: nat;
    if idx1.Some? {
      if idx2.Some? {
        if cs[idx1.value].r < cs[idx2.value].r {
          selected := idx1.value;
        } else {
          selected := idx2.value;
        }
      } else {
        selected := idx1.value;
      }
    } else {
      return SelectionUnbound;
    }
    var c := cs[selected];
    var x, y, r := RoundHalfEven(c.x), RoundHalfEven(c.y), RoundHalfEven(c.r);
    r := Truncate(r as real * forcedScale);
    res := Found(x, y, r);
  }

  // ---------------------------------------------------------------------
  // Standing check
  // ---------------------------------------------------------------------

  /** The angle routine receives None for the neck: numpy cannot subtract it. */
  datatype StandingError = NeckMissing

  /** Indices 8..13 (hips, knees, ankles) are all present. */
  predicate LegsPresent(keypoints: seq<Option<Point>>)
    requires |keypoints| >= 14
  {
    forall i :: 8 <= i < 14 ==> keypoints[i].Some?
  }

  predicate Within(angle: real, lo: real, hi: real)
  {
    lo <= angle <= hi
  }

  /** The two angles measured: at knee level along each leg, or from the neck
      through each hip when not checking the legs only. */
  function LegAngles(keypoints: seq<Option<Point>>, checkLegOnly: bool,
                     calculateAngle: (Point, Point, Point) -> real): (real, real)
    requires |keypoints| >= 14 && LegsPresent(keypoints)
    requires !checkLegOnly ==> keypoints[1].Some?
  {
    if checkLegOnly then
      (calculateAngle(keypoints[8].value, keypoints[9].value, keypoints[10].value),
       calculateAngle(keypoints[11].value, keypoints[12].value, keypoints[13].value))
    else
      (calculateAngle(keypoints[1].value, keypoints[8].value, keypoints[9].value),
       calculateAngle(keypoints[1].value, keypoints[11].value, keypoints[12].value))
  }

  /** True when either measured angle lies in the closed threshold interval.
      Missing leg keypoints or fewer than 14 keypoints give false; a missing
      neck, when it is used, is an error. */
  function IsStanding(keypoints: seq<Option<Point>>, standingThresholdMin: real := 150.0,
                      standingThresholdMax: real := 180.0, checkLegOnly: bool := true,
                      calculateAngle: (Point, Point, Point) -> real): (r: Result<bool, StandingError>)
    ensures |keypoints| < 14 ==> r == Ok(false)
    ensures |keypoints| >= 14 && !LegsPresent(keypoints) ==> r == Ok(false)
    ensures r.Err? <==> |keypoints| >= 14 && LegsPresent(keypoints) && !checkLegOnly && keypoints[1].None?
    ensures r == Ok(true) <==>
      && |keypoints| >= 14 && LegsPresent(keypoints)
      && (!checkLegOnly ==> keypoints[1].Some?)
      && var angles := LegAngles(keypoints, checkLegOnly, calculateAngle);
         Within(angles.0, standingThresholdMin, standingThresholdMax)
         || Within(angles.1, standingThresholdMin, standingThresholdMax)
  {
    if |keypoints| < 14 then Ok(false)
    else if exists i | 8 <= i < 14 :: keypoints[i].None? then Ok(false)
    else if !checkLegOnly && keypoints[1].None? then Err(NeckMissing)
    else
      var angles := LegAngles(keypoints, checkLegOnly, calculateAngle);
      var leftLegAngle, rightLegAngle := angles.0, angles.1;
      Ok(standingThresholdMin <= leftLegAngle <= standingThresholdMax
         || standingThresholdMin <= rightLegAngle <= standingThresholdMax)
  }

  /** Widening the threshold interval keeps a standing verdict. */
  lemma StandingMonotone(keypoints: seq<Option<Point>>, lo: real, hi: real, lo': real, hi': real,
                         checkLegOnly: bool, calculateAngle: (Point, Point, Point) -> real)
    requires lo' <= lo && hi <= hi'
    requires IsStanding(keypoints, lo, hi, checkLegOnly, calculateAngle) == Ok(true)
    ensures IsStanding(keypoints, lo', hi', checkLegOnly, calculateAngle) == Ok(true)
  {
  }

  /** An empty threshold interval never reports standing. */
  lemma EmptyIntervalNeverStanding(keypoints: seq<Option<Point>>, lo: real, hi: real,
                                   checkLegOnly: bool, calculateAngle: (Point, Point, Point) -> real)
    requires hi < lo
    ensures IsStanding(keypoints, lo, hi, checkLegOnly, calculateAngle) != Ok(true)
  {
  }

  /** With the default arguments the legs alone are measured, hip-knee-ankle
      on each side, against the interval from 150 to 180 degrees. */
  lemma DefaultThresholds(keypoints: seq<Option<Point>>,
                          calculateAngle: (Point, Point, Point) -> real)
    requires |keypoints| >= 14 && LegsPresent(keypoints)
    ensures IsStanding(keypoints, calculateAngle := calculateAngle) ==
      Ok(Within(calculateAngle(keypoints[8].value, keypoints[9].value, keypoints[10].value), 150.0, 180.0)
         || Within(calculateAngle(keypoints[11].value, keypoints[12].value, keypoints[13].value), 150.0, 180.0))
  {
  }

  // ---------------------------------------------------------------------
  // Far-end box correction
  // ---------------------------------------------------------------------

  /** How far a far-end box moves down: its height times maxCorrection
      times (1 - circleRoundness). */
  function Shift(bbox: seq<real>, circleRoundness: real, maxCorrection: real): real
    requires |bbox| >= 4
  {
    (bbox[3] - bbox[1]) * maxCorrection * (1.0 - circleRoundness)
  }

  /** The box with both row bounds moved down by the shift; every other
      entry is kept. */
  function ProjectedBox(bbox: seq<real>, circleRoundness: real := 0.65, maxCorrection: real := 1.0): (p: seq<real>)
    requires |bbox| >= 4
    ensures |p| == |bbox|
    ensures forall k :: 0 <= k < |bbox| && k != 1 && k != 3 ==> p[k] == bbox[k]
    ensures p[1] == bbox[1] + Shift(bbox, circleRoundness, maxCorrection)
    ensures p[3] == bbox[3] + Shift(bbox, circleRoundness, maxCorrection)
  {
    var shift := Shift(bbox, circleRoundness, maxCorrection);
    bbox[1 := bbox[1] + shift][3 := bbox[3] + shift]
  }

  /** The correction keeps the box height, and a perfectly round circle
      leaves the box where it was. */
  lemma ProjectedBoxKeepsHeight(bbox: seq<real>, circleRoundness: real, maxCorrection: real)
    requires |bbox| >= 4
    ensures var p := ProjectedBox(bbox, circleRoundness, maxCorrection);
      && p[3] - p[1] == bbox[3] - bbox[1]
      && (circleRoundness == 1.0 ==> p == bbox)
  {
  }

  /** With the default roundness 0.65 and correction 1, a box of height 100
      moves down by 35. */
  lemma ProjectedBoxDefaults()
    ensures ProjectedBox([10.0, 100.0, 50.0, 200.0]) == [10.0, 135.0, 50.0, 235.0]
  {
  }

  /** Copies the box and shifts the copy's row bounds; the input box is only
      read. */
  method CorrectFarEndStandingHands(bbox: array<real>, circleRoundness: real := 0.65,
                                    maxCorrection: real := 1.0)
    returns (projectionBbox: array<real>)
    requires bbox.Length >= 4
    ensures fresh(projectionBbox)
    ensures projectionBbox[..] == ProjectedBox(bbox[..], circleRoundness, maxCorrection)
  {
    projectionBbox := new real[bbox.Length](k reads bbox requires 0 <= k < bbox.Length => bbox[k]);
    ghost var original := bbox[..];
    assert projectionBbox[..] == original;
    var bboxHeight := bbox[3] - bbox[1];
    var shift := bboxHeight * maxCorrection * (1.0 - circleRoundness);
    projectionBbox[1] := projectionBbox[1] + shift;
    projectionBbox[3] := projectionBbox[3] + shift;
    assert shift == Shift(original, circleRoundness, maxCorrection);
    assert forall k :: 0 <= k < |original| ==>
      projectionBbox[k] == ProjectedBox(original, circleRoundness, maxCorrection)[k];
  }
}
