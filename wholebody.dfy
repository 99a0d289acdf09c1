/** The whole-body solution: configuration from a mode name, the dual-pass
    (upper view / flipped lower view) fusion of detector and pose estimator
    output, and the formatting of 134-keypoint instances into named groups. */
module Wholebody {
  import opened Types

  // ---------------------------------------------------------------------
  // Configuration
  // ---------------------------------------------------------------------

  type Size = (nat, nat)

  /** The input sizes a mode prescribes for its detector and its pose model. */
  datatype ModeEntry = ModeEntry(detInputSize: Size, poseInputSize: Size)

  datatype DetectorKind = RTMDet | YOLOX

  datatype Settings = Settings(
    mode: string,
    doFlip: bool,
    detector: DetectorKind,
    detInputSize: Size,
    poseInputSize: Size)

  /** Looking a mode up in the mode table fails for an unknown name. */
  datatype InitError = UnknownMode(mode: string)

  function ModeTable(mode: string): (e: Option<ModeEntry>)
    ensures e.Some? <==> mode in {"performance", "lightweight", "balanced", "lightweight_rtm"}
  {
    if mode == "performance" then Some(ModeEntry((640, 640), (288, 384)))
    else if mode == "lightweight" then Some(ModeEntry((416, 416), (192, 256)))
    else if mode == "balanced" then Some(ModeEntry((640, 640), (192, 256)))
    else if mode == "lightweight_rtm" then Some(ModeEntry((320, 320), (192, 256)))
    else None
  }

  /** `sub` occurs in `s` starting at index i. */
  predicate OccursAt(sub: string, s: string, i: int)
  {
    0 <= i && i + |sub| <= |s| && s[i..i + |sub|] == sub
  }

  /** Python's `sub in s` on strings. */
  predicate Occurs(sub: string, s: string)
    decreases |s|
  {
    |sub| <= |s| && (s[..|sub|] == sub || (|s| > 0 && Occurs(sub, s[1..])))
  }

  lemma {:induction false} OccursIff(sub: string, s: string)
    ensures Occurs(sub, s) <==> exists i :: OccursAt(sub, s, i)
    decreases |s|
  {
    if |sub| > |s| {
    } else if s[..|sub|] == sub {
      assert OccursAt(sub, s, 0);
    } else {
      assert |s| > 0;
      OccursIff(sub, s[1..]);
      if Occurs(sub, s[1..]) {
        var i :| OccursAt(sub, s[1..], i);
        TailSlice(s, i, |sub|);
        assert OccursAt(sub, s, i + 1);
      }
      if i :| OccursAt(sub, s, i) {
        assert i != 0;
        TailSlice(s, i - 1, |sub|);
        assert OccursAt(sub, s[1..], i - 1);
      }
    }
  }

  lemma TailSlice(s: string, i: nat, n: nat)
    requires i + n + 1 <= |s|
    ensures s[1..][i..i + n] == s[i + 1..i + 1 + n]
  {
    var viaTail, direct := s[1..][i..i + n], s[i + 1..i + 1 + n];
    assert forall k :: 0 <= k < n ==> viaTail[k] == direct[k];
  }

  /** A string lacking one of the characters of `sub` does not contain it. */
  lemma MissingChar(sub: string, s: string, c: char)
    requires c in sub && c !in s
    ensures !exists i :: OccursAt(sub, s, i)
  {
  }

  /** The configuration step of the constructor: the flip flag from the mode
      name, the detector kind that goes with it, and the input sizes, which
      the mode table supplies only for a model the caller left unset. */
  function Init(det: Option<string> := None, detInputSize: Size := (640, 640),
                pose: Option<string> := None, poseInputSize: Size := (288, 384),
                mode: string := "balanced"): (r: Result<Settings, InitError>)
    ensures r.Err? <==> (det.None? || pose.None?) && ModeTable(mode).None?
    ensures r.Err? ==> r.error == UnknownMode(mode)
    ensures r.Ok? ==> r.value.mode == mode
    ensures r.Ok? ==> (r.value.doFlip <==> exists i :: OccursAt("rtm", mode, i))
    ensures r.Ok? ==> (r.value.detector == RTMDet <==> r.value.doFlip)
    ensures r.Ok? && det.Some? ==> r.value.detInputSize == detInputSize
    ensures r.Ok? && det.None? ==> r.value.detInputSize == ModeTable(mode).value.detInputSize
    ensures r.Ok? && pose.Some? ==> r.value.poseInputSize == poseInputSize
    ensures r.Ok? && pose.None? ==> r.value.poseInputSize == ModeTable(mode).value.poseInputSize
  {
    OccursIff("rtm", mode);
    if (det.None? || pose.None?) && ModeTable(mode).None? then
      Err(UnknownMode(mode))
    else
      var detSize := if det.None? then ModeTable(mode).value.detInputSize else detInputSize;
      var poseSize := if pose.None? then ModeTable(mode).value.poseInputSize else poseInputSize;
      var flip := Occurs("rtm", mode);
      Ok(Settings(mode, flip, if flip then RTMDet else YOLOX, detSize, poseSize))
  }

  /** Of the four modes of the table, only "lightweight_rtm" runs two passes. */
  lemma LightweightRtmMode(detSize: Size, poseSize: Size)
    ensures Init(None, detSize, None, poseSize, "lightweight_rtm")
            == Ok(Settings("lightweight_rtm", true, RTMDet, (320, 320), (192, 256)))
  {
    assert OccursAt("rtm", "lightweight_rtm", 12);
  }

  /** With every argument left at its default the mode is "balanced": one
      pass, and both sizes come from the table, not from the default sizes. */
  lemma DefaultInit()
    ensures Init() == Ok(Settings("balanced", false, YOLOX, (640, 640), (192, 256)))
  {
    BalancedMode((640, 640), (288, 384));
  }

  lemma BalancedMode(detSize: Size, poseSize: Size)
    ensures Init(None, detSize, None, poseSize, "balanced")
            == Ok(Settings("balanced", false, YOLOX, (640, 640), (192, 256)))
  {
    MissingChar("rtm", "balanced", 'r');
  }

  lemma PerformanceMode(detSize: Size, poseSize: Size)
    ensures Init(None, detSize, None, poseSize, "performance")
            == Ok(Settings("performance", false, YOLOX, (640, 640), (288, 384)))
  {
    MissingChar("rtm", "performance", 't');
  }

  lemma LightweightMode(detSize: Size, poseSize: Size)
    ensures Init(None, detSize, None, poseSize, "lightweight")
            == Ok(Settings("lightweight", false, YOLOX, (416, 416), (192, 256)))
  {
    MissingChar("rtm", "lightweight", 'r');
  }

  // ---------------------------------------------------------------------
  // Images and the view split
  // ---------------------------------------------------------------------

  /** A row of an image holds the channel values of its pixels. */
  type Row = seq<int>

  /** An image is its rows, top row first. */
  type Image = seq<Row>

  function White(row: Row): (w: Row)
    ensures |w| == |row| && forall k :: 0 <= k < |w| ==> w[k] == 255
  {
    seq(|row|, k => 255)
  }

  /** The image with every row from index s downward set to white. */
  function Blank(img: Image, s: nat): (r: Image)
    ensures |r| == |img|
    ensures forall i :: 0 <= i < |img| && i < s ==> r[i] == img[i]
    ensures forall i :: s <= i < |img| ==> r[i] == White(img[i])
  {
    seq(|img|, i requires 0 <= i < |img| => if i < s then img[i] else White(img[i]))
  }

  /** The vertical flip: row i of the result is row H-1-i of the input. */
  function Flip(img: Image): (r: Image)
    ensures |r| == |img|
    ensures forall i :: 0 <= i < |img| ==> r[i] == img[|img| - 1 - i]
  {
    seq(|img|, i requires 0 <= i < |img| => img[|img| - 1 - i])
  }

  lemma FlipInvolution(img: Image)
    ensures Flip(Flip(img)) == img
  {
  }

  /** The first row blanked in both views: the integer part of 0.6 H. */
  function SplitRow(h: nat): (s: nat)
    ensures s <= h
    ensures 5 * s <= 3 * h < 5 * s + 5
  {
    (3 * h) / 5
  }

  function UpperView(img: Image, s: nat): (v: Image)
    ensures |v| == |img|
    ensures forall i :: 0 <= i < |img| ==> |v[i]| == |img[i]|
  {
    Blank(img, s)
  }

  function LowerView(img: Image, s: nat): (v: Image)
    ensures |v| == |img|
    ensures forall i :: 0 <= i < |img| ==> |v[i]| == |img[|img| - 1 - i]|
  {
    Blank(Flip(img), s)
  }

  lemma UpperViewRows(img: Image, s: nat)
    ensures |UpperView(img, s)| == |img|
    ensures forall i :: 0 <= i < |img| ==>
      UpperView(img, s)[i] == if i < s then img[i] else White(img[i])
  {
  }

  lemma LowerViewRows(img: Image, s: nat)
    ensures |LowerView(img, s)| == |img|
    ensures forall i :: 0 <= i < |img| ==>
      LowerView(img, s)[i] == if i < s then img[|img| - 1 - i] else White(img[|img| - 1 - i])
  {
  }

  /** The lower view is the upper view of the flipped image. */
  lemma LowerIsUpperOfFlip(img: Image, s: nat)
    ensures LowerView(img, s) == UpperView(Flip(img), s)
  {
  }

  /** Sets the rows from index s downward to white, in place. */
  method BlankRows(a: array<Row>, s: nat)
    modifies a
    ensures a[..] == Blank(old(a[..]), s)
  {
    forall i | s <= i < a.Length {
      a[i] := White(a[i]);
    }
  }

  // ---------------------------------------------------------------------
  // Remapping lower-view coordinates
  // ---------------------------------------------------------------------

  /** The keypoints of one instance. */
  type Instance = seq<Point>

  function RemapPoint(p: Point, h: real): (q: Point)
    ensures q.x == p.x && q.y + p.y == h
  {
    Point(p.x, h - p.y)
  }

  function RemapInstance(inst: Instance, h: real): (r: Instance)
    ensures |r| == |inst|
    ensures forall j :: 0 <= j < |inst| ==> r[j] == RemapPoint(inst[j], h)
  {
    seq(|inst|, j requires 0 <= j < |inst| => RemapPoint(inst[j], h))
  }

  function RemapKeypoints(kps: seq<Instance>, h: real): (r: seq<Instance>)
    ensures |r| == |kps|
    ensures forall n :: 0 <= n < |kps| ==> r[n] == RemapInstance(kps[n], h)
  {
    seq(|kps|, n requires 0 <= n < |kps| => RemapInstance(kps[n], h))
  }

  /** Flipping inverts top and bottom, so the new row bounds are both taken
      from the old box, each from the opposite side. */
  function RemapBox(b: Box, h: real): (r: Box)
    ensures r.x1 == b.x1 && r.x2 == b.x2
    ensures r.y1 + b.y2 == h && r.y2 + b.y1 == h
    ensures r.y2 - r.y1 == b.y2 - b.y1
    ensures b.y1 <= b.y2 ==> r.y1 <= r.y2
  {
    Box(b.x1, h - b.y2, b.x2, h - b.y1)
  }

  function RemapBoxes(bs: seq<Box>, h: real): (r: seq<Box>)
    ensures |r| == |bs|
    ensures forall n :: 0 <= n < |bs| ==> r[n] == RemapBox(bs[n], h)
  {
    seq(|bs|, n requires 0 <= n < |bs| => RemapBox(bs[n], h))
  }

  lemma RemapBoxExample()
    ensures RemapBox(Box(5.0, 5.0, 20.0, 20.0), 200.0) == Box(5.0, 180.0, 20.0, 195.0)
  {
  }

  /** Remapping twice with the same height gives back the original keypoints. */
  lemma {:induction false} RemapKeypointsInvolution(kps: seq<Instance>, h: real)
    ensures RemapKeypoints(RemapKeypoints(kps, h), h) == kps
  {
    var twice := RemapKeypoints(RemapKeypoints(kps, h), h);
    forall n | 0 <= n < |kps| ensures twice[n] == kps[n] {
      var inst := kps[n];
      assert twice[n] == RemapInstance(RemapInstance(inst, h), h);
      forall j | 0 <= j < |inst| ensures twice[n][j] == inst[j] {
        assert twice[n][j] == RemapPoint(RemapPoint(inst[j], h), h);
      }
    }
  }

  /** Remapping twice with the same height gives back the original boxes. */
  lemma {:induction false} RemapBoxesInvolution(bs: seq<Box>, h: real)
    ensures RemapBoxes(RemapBoxes(bs, h), h) == bs
  {
    var twice := RemapBoxes(RemapBoxes(bs, h), h);
    forall n | 0 <= n < |bs| ensures twice[n] == bs[n] {
      assert twice[n] == RemapBox(RemapBox(bs[n], h), h);
    }
  }

  /** Sets every keypoint's y to h - y, in place. */
  method RemapKeypointsInPlace(kps: array<Instance>, h: real)
    modifies kps
    ensures kps[..] == RemapKeypoints(old(kps[..]), h)
  {
    forall n | 0 <= n < kps.Length {
      kps[n] := RemapInstance(kps[n], h);
    }
  }

  /** Replaces every box's row bounds by (h - y2, h - y1), in place. */
  method RemapBoxesInPlace(bs: array<Box>, h: real)
    modifies bs
    ensures bs[..] == RemapBoxes(old(bs[..]), h)
  {
    forall n | 0 <= n < bs.Length {
      bs[n] := RemapBox(bs[n], h);
    }
  }

  // ---------------------------------------------------------------------
  // Fusion
  // ---------------------------------------------------------------------

  /** Stacking along the instance axis: upper results first, then lower ones. */
  function VStack<T>(upper: seq<T>, lower: seq<T>): (r: seq<T>)
    ensures |r| == |upper| + |lower|
    ensures forall i :: 0 <= i < |upper| ==> r[i] == upper[i]
    ensures forall j :: 0 <= j < |lower| ==> r[|upper| + j] == lower[j]
    ensures upper == [] ==> r == lower
    ensures lower == [] ==> r == upper
  {
    upper + lower
  }

  /** What the pose estimator returns for a list of boxes. */
  datatype PoseOutput = PoseOutput(keypoints: seq<Instance>, scores: seq<seq<real>>)

  /** The pipeline's raw result: keypoints, scores and boxes of all instances. */
  datatype Detections = Detections(keypoints: seq<Instance>, scores: seq<seq<real>>, bboxes: seq<Box>)

  /** The result of one inference call, given the detector and the pose estimator. */
  ghost function Fused(doFlip: bool, detect: Image -> seq<Box>,
                       estimate: (Image, seq<Box>) -> PoseOutput, img: Image): (r: Detections)
    ensures !doFlip ==> r.bboxes == detect(img)
    ensures doFlip ==> |r.bboxes| == |detect(UpperView(img, SplitRow(|img|)))|
                                     + |detect(LowerView(img, SplitRow(|img|)))|
    ensures doFlip ==> r.bboxes[..|detect(UpperView(img, SplitRow(|img|)))|]
                         == detect(UpperView(img, SplitRow(|img|)))
  {
    if !doFlip then
      var boxes := detect(img);
      var pose := estimate(img, boxes);
      Detections(pose.keypoints, pose.scores, boxes)
    else
      var s := SplitRow(|img|);
      var h := |img| as real;
      var upper, lower := UpperView(img, s), LowerView(img, s);
      var upperBoxes, lowerBoxes := detect(upper), detect(lower);
      var upperPose, lowerPose := estimate(upper, upperBoxes), estimate(lower, lowerBoxes);
      Detections(
        VStack(upperPose.keypoints, RemapKeypoints(lowerPose.keypoints, h)),
        VStack(upperPose.scores, lowerPose.scores),
        VStack(upperBoxes, RemapBoxes(lowerBoxes, h)))
  }

  /** One inference call. The image is only read: the method has no modifies
      clause. */
  method Call(w: Settings, detect: Image -> seq<Box>,
              estimate: (Image, seq<Box>) -> PoseOutput, image: array<Row>)
    returns (keypoints: seq<Instance>, scores: seq<seq<real>>, bboxes: seq<Box>)
    ensures Detections(keypoints, scores, bboxes) == Fused(w.doFlip, detect, estimate, image[..])
  {
    if !w.doFlip {
      bboxes := detect(image[..]);
      var pose := estimate(image[..], bboxes);
      keypoints, scores := pose.keypoints, pose.scores;
    } else {
      var src := image[..];
      var imgH := image.Length;
      var s := SplitRow(imgH);
      var upperImage := new Row[imgH](i requires 0 <= i < imgH => src[i]);
      BlankRows(upperImage, s);
      var lowerImage := new Row[imgH](i requires 0 <= i < imgH => src[imgH - 1 - i]);
      BlankRows(lowerImage, s);
      assert upperImage[..] == UpperView(src, s);
      assert lowerImage[..] == LowerView(src, s);

      var upperBboxes := detect(upperImage[..]);
      var lowerBboxesSeq := detect(lowerImage[..]);
      var upperPose := estimate(upperImage[..], upperBboxes);
      var lowerPose := estimate(lowerImage[..], lowerBboxesSeq);

      var lk := lowerPose.keypoints;
      var lowerKeypoints := new Instance[|lk|](n requires 0 <= n < |lk| => lk[n]);
      var lowerBboxes := new Box[|lowerBboxesSeq|](n requires 0 <= n < |lowerBboxesSeq| => lowerBboxesSeq[n]);
      assert lowerKeypoints[..] == lk;
      assert lowerBboxes[..] == lowerBboxesSeq;
      RemapKeypointsInPlace(lowerKeypoints, imgH as real);
      RemapBoxesInPlace(lowerBboxes, imgH as real);

      keypoints := VStack(upperPose.keypoints, lowerKeypoints[..]);
      bboxes := VStack(upperBboxes, lowerBboxes[..]);
      scores := VStack(upperPose.scores, lowerPose.scores);
    }
  }

  /** In single-pass mode the detector's boxes and the pose estimator's
      output are returned unchanged. */
  lemma SinglePassThrough(detect: Image -> seq<Box>,
                          estimate: (Image, seq<Box>) -> PoseOutput, img: Image)
    ensures Fused(false, detect, estimate, img).bboxes == detect(img)
    ensures Fused(false, detect, estimate, img).keypoints == estimate(img, detect(img)).keypoints
    ensures Fused(false, detect, estimate, img).scores == estimate(img, detect(img)).scores
  {
  }

  /** In dual-pass mode the upper-view results come first, unchanged, followed
      by the remapped lower-view results in their order; nothing is merged. */
  lemma DualPassLayout(detect: Image -> seq<Box>,
                       estimate: (Image, seq<Box>) -> PoseOutput, img: Image)
    ensures
      var s, h := SplitRow(|img|), |img| as real;
      var ub, lb := detect(UpperView(img, s)), detect(LowerView(img, s));
      var up, lp := estimate(UpperView(img, s), ub), estimate(LowerView(img, s), lb);
      var d := Fused(true, detect, estimate, img);
      && |d.bboxes| == |ub| + |lb|
      && |d.keypoints| == |up.keypoints| + |lp.keypoints|
      && |d.scores| == |up.scores| + |lp.scores|
      && (forall n :: 0 <= n < |ub| ==> d.bboxes[n] == ub[n])
      && (forall n :: 0 <= n < |lb| ==> d.bboxes[|ub| + n] == RemapBox(lb[n], h))
      && (forall n :: 0 <= n < |up.keypoints| ==> d.keypoints[n] == up.keypoints[n])
      && (forall n :: 0 <= n < |lp.keypoints| ==>
            d.keypoints[|up.keypoints| + n] == RemapInstance(lp.keypoints[n], h))
      && (forall n :: 0 <= n < |up.scores| ==> d.scores[n] == up.scores[n])
      && (forall n :: 0 <= n < |lp.scores| ==> d.scores[|up.scores| + n] == lp.scores[n])
  {
  }

  /** An empty side contributes nothing: the result is exactly the other side. */
  lemma DualPassEmptySide(detect: Image -> seq<Box>,
                          estimate: (Image, seq<Box>) -> PoseOutput, img: Image)
    ensures
      var s, h := SplitRow(|img|), |img| as real;
      var ub, lb := detect(UpperView(img, s)), detect(LowerView(img, s));
      var up, lp := estimate(UpperView(img, s), ub), estimate(LowerView(img, s), lb);
      var d := Fused(true, detect, estimate, img);
      && (ub == [] ==> d.bboxes == RemapBoxes(lb, h))
      && (lb == [] ==> d.bboxes == ub)
      && (up.keypoints == [] ==> d.keypoints == RemapKeypoints(lp.keypoints, h))
      && (lp.keypoints == [] ==> d.keypoints == up.keypoints)
  {
  }

  /** A 200-row image whose lower view yields the box (5,5,20,20) gets that
      box back as (5,180,20,195), after the upper view's single box. */
  lemma DualPassScenario(detect: Image -> seq<Box>,
                         estimate: (Image, seq<Box>) -> PoseOutput, img: Image)
    requires |img| == 200
    requires |detect(UpperView(img, SplitRow(200)))| == 1
    requires detect(LowerView(img, SplitRow(200))) == [Box(5.0, 5.0, 20.0, 20.0)]
    ensures |Fused(true, detect, estimate, img).bboxes| == 2
    ensures Fused(true, detect, estimate, img).bboxes[1] == Box(5.0, 180.0, 20.0, 195.0)
  {
  }

  // ---------------------------------------------------------------------
  // Keypoint formatting
  // ---------------------------------------------------------------------

  /** The confidence gate. */
  const Threshold: real := 0.3

  /** The number of keypoints of an instance in the whole-body schema. */
  const K: nat := 134

  /** Each entry of a slice as a keypoint carrying its index within the slice,
      or None when its score is below the gate. */
  function Gated(part: seq<Raw>): (g: Group)
    ensures |g| == |part|
    ensures forall i :: 0 <= i < |part| ==> (g[i].Some? <==> part[i].score >= Threshold)
    ensures forall i :: 0 <= i < |part| && g[i].Some? ==>
      g[i].value == Keypoint(part[i].x, part[i].y, part[i].score, i)
  {
    seq(|part|, i requires 0 <= i < |part| =>
      if part[i].score >= Threshold then Some(Keypoint(part[i].x, part[i].y, part[i].score, i)) else None)
  }

  /** A group is absent exactly when none of its entries passes the gate,
      which includes the empty slice. */
  function FormatKeypointPart(part: seq<Raw>): (r: Option<Group>)
    ensures r.None? <==> forall i :: 0 <= i < |part| ==> part[i].score < Threshold
    ensures r.Some? ==> r.value == Gated(part)
  {
    var keypoints := Gated(part);
    if forall i | 0 <= i < |keypoints| :: keypoints[i].None? then None else Some(keypoints)
  }

  /** Sum over the present entries of a group, accumulated left to right. */
  function SumPresent(g: Group): (t: real)
    ensures (forall i :: 0 <= i < |g| ==> g[i].None?) ==> t == 0.0
    ensures (forall i :: 0 <= i < |g| && g[i].Some? ==> g[i].value.score >= 0.0) ==> t >= 0.0
  {
    if g == [] then 0.0
    else SumPresent(g[..|g| - 1]) + (if g[|g| - 1].Some? then g[|g| - 1].value.score else 0.0)
  }

  function TotalScore(g: Option<Group>): (t: real)
    ensures g.None? ==> t == 0.0
    ensures g.Some? && (forall i :: 0 <= i < |g.value| ==> g.value[i].None?) ==> t == 0.0
    ensures g.Some? && (forall i :: 0 <= i < |g.value| && g.value[i].Some? ==> g.value[i].value.score >= 0.0)
            ==> t >= 0.0
  {
    match g
    case None => 0.0
    case Some(keypoints) => SumPresent(keypoints)
  }

  /** Reference definition: the sum of the scores at or above the gate. */
  function GatedSum(part: seq<Raw>): real
  {
    if part == [] then 0.0
    else GatedSum(part[..|part| - 1])
         + (if part[|part| - 1].score >= Threshold then part[|part| - 1].score else 0.0)
  }

  lemma {:induction false} SumPresentGated(part: seq<Raw>)
    ensures SumPresent(Gated(part)) == GatedSum(part)
    decreases |part|
  {
    if part != [] {
      var init := part[..|part| - 1];
      assert Gated(part)[..|part| - 1] == Gated(init);
      SumPresentGated(init);
    }
  }

  /** The gated sum is zero exactly when no score passes the gate, and at
      least the gate when one does. */
  lemma {:induction false} GatedSumZeroIff(part: seq<Raw>)
    ensures GatedSum(part) >= 0.0
    ensures (exists i :: 0 <= i < |part| && part[i].score >= Threshold) ==> GatedSum(part) >= Threshold
    ensures GatedSum(part) == 0.0 <==> forall i :: 0 <= i < |part| ==> part[i].score < Threshold
    decreases |part|
  {
    if part != [] {
      var init := part[..|part| - 1];
      GatedSumZeroIff(init);
      if exists i :: 0 <= i < |part| && part[i].score >= Threshold {
        var i :| 0 <= i < |part| && part[i].score >= Threshold;
        if i < |part| - 1 {
          assert init[i] == part[i];
        }
      }
      if forall i :: 0 <= i < |init| ==> init[i].score < Threshold {
        forall i | 0 <= i < |part| - 1 ensures part[i].score < Threshold {
          assert init[i] == part[i];
        }
      }
    }
  }

  /** The body group: the gated slice, or 18 absent entries when nothing passes. */
  function BodyKeypoints(inst: seq<Raw>): (body: Group)
    requires |inst| == K
    ensures body == Gated(inst[..18])
  {
    match FormatKeypointPart(inst[..18])
    case Some(body) => body
    case None => seq(18, i => None)
  }

  /** The structured result of one instance. */
  function FormatInstance(inst: seq<Raw>): (p: PoseResult)
    requires |inst| == K
    ensures |p.body.keypoints| == 18 && p.body.totalParts == 18
    ensures p.leftHand.Some? ==> |p.leftHand.value| == 21
    ensures p.rightHand.Some? ==> |p.rightHand.value| == 21
    ensures p.face.Some? ==> |p.face.value| == 70
  {
    var body := BodyKeypoints(inst);
    var face := FormatKeypointPart(inst[24..92]);
    PoseResult(
      BodyResult(body, TotalScore(Some(body)), |body|),
      FormatKeypointPart(inst[92..113]),
      FormatKeypointPart(inst[113..134]),
      if face.Some? then Some(face.value + [body[14], body[15]]) else None)
  }

  /** Formats every instance, in input order. */
  method FormatResult(keypointsInfo: seq<seq<Raw>>) returns (poseResults: seq<PoseResult>)
    requires forall n :: 0 <= n < |keypointsInfo| ==> |keypointsInfo[n]| == K
    ensures |poseResults| == |keypointsInfo|
    ensures forall n :: 0 <= n < |keypointsInfo| ==> poseResults[n] == FormatInstance(keypointsInfo[n])
  {
    poseResults := [];
    for n := 0 to |keypointsInfo|
      invariant |poseResults| == n
      invariant forall m :: 0 <= m < n ==> poseResults[m] == FormatInstance(keypointsInfo[m])
    {
      var instance := keypointsInfo[n];
      var bodyKeypoints := match FormatKeypointPart(instance[..18])
        case Some(b) => b
        case None => seq(18, i => None);
      var leftHand := FormatKeypointPart(instance[92..113]);
      var rightHand := FormatKeypointPart(instance[113..134]);
      var face := FormatKeypointPart(instance[24..92]);
      if face.Some? {
        var points := face.value;
        points := points + [bodyKeypoints[14]];
        points := points + [bodyKeypoints[15]];
        assert points == face.value + [bodyKeypoints[14], bodyKeypoints[15]];
        face := Some(points);
      }
      var body := BodyResult(bodyKeypoints, TotalScore(Some(bodyKeypoints)), |bodyKeypoints|);
      poseResults := poseResults + [PoseResult(body, leftHand, rightHand, face)];
    }
  }

  /** The body always has 18 entries, gated from indices 0..17, with the
      sum of the present scores as total and 18 as part count. */
  lemma {:induction false} BodyShape(inst: seq<Raw>)
    requires |inst| == K
    ensures var body := FormatInstance(inst).body;
      && |body.keypoints| == 18
      && body.totalParts == 18
      && body.keypoints == Gated(inst[..18])
      && body.totalScore == GatedSum(inst[..18])
      && (body.totalScore == 0.0 <==> forall i :: 0 <= i < 18 ==> inst[i].score < Threshold)
  {
    var body := BodyKeypoints(inst);
    assert body == Gated(inst[..18]);
    SumPresentGated(inst[..18]);
    GatedSumZeroIff(inst[..18]);
    if forall i :: 0 <= i < 18 ==> inst[i].score < Threshold {
      assert forall i :: 0 <= i < 18 ==> inst[..18][i].score < Threshold;
    }
  }

  /** Each hand is absent exactly when none of its 21 scores passes the gate,
      and otherwise holds 21 entries indexed from 0. */
  lemma HandShape(inst: seq<Raw>)
    requires |inst| == K
    ensures var p := FormatInstance(inst);
      && (p.leftHand.None? <==> forall i :: 92 <= i < 113 ==> inst[i].score < Threshold)
      && (p.leftHand.Some? ==> |p.leftHand.value| == 21 && p.leftHand.value == Gated(inst[92..113]))
      && (p.rightHand.None? <==> forall i :: 113 <= i < 134 ==> inst[i].score < Threshold)
      && (p.rightHand.Some? ==> |p.rightHand.value| == 21 && p.rightHand.value == Gated(inst[113..134]))
  {
  }

  /** The face, when present, has 70 entries: the 68 gated face points and
      then body entries 14 and 15, whatever their state. */
  lemma FaceShape(inst: seq<Raw>)
    requires |inst| == K
    ensures var p := FormatInstance(inst);
      && (p.face.None? <==> forall i :: 24 <= i < 92 ==> inst[i].score < Threshold)
      && (p.face.Some? ==>
            && |p.face.value| == 70
            && p.face.value[..68] == Gated(inst[24..92])
            && p.face.value[68] == p.body.keypoints[14]
            && p.face.value[69] == p.body.keypoints[15])
  {
  }

  /** Indices 18..23 are never read: two instances that agree elsewhere are
      formatted alike. */
  lemma ReservedIgnored(inst: seq<Raw>, other: seq<Raw>)
    requires |inst| == K && |other| == K
    requires forall i :: 0 <= i < K && !(18 <= i < 24) ==> inst[i] == other[i]
    ensures FormatInstance(inst) == FormatInstance(other)
  {
    assert inst[..18] == other[..18];
    assert inst[24..92] == other[24..92];
    assert inst[92..113] == other[92..113];
    assert inst[113..134] == other[113..134];
  }

  /** When no score passes the gate the body is 18 absent entries with total
      0, and both hands and the face are absent. */
  lemma AllBelowGate(inst: seq<Raw>)
    requires |inst| == K
    requires forall i :: 0 <= i < K ==> inst[i].score < Threshold
    ensures var p := FormatInstance(inst);
      && p.body == BodyResult(seq(18, i => None), 0.0, 18)
      && p.leftHand.None? && p.rightHand.None? && p.face.None?
  {
    BodyShape(inst);
    HandShape(inst);
    FaceShape(inst);
    var p := FormatInstance(inst);
    assert p.body.keypoints == seq(18, i => None);
  }

  /** A confident body with unconfident hands and face: all 18 body entries
      are present and both hands and the face are absent. */
  lemma ConfidentBodyOnly(inst: seq<Raw>)
    requires |inst| == K
    requires forall i :: 0 <= i < 18 ==> inst[i].score == 0.9
    requires forall i :: 18 <= i < K ==> inst[i].score == 0.1
    ensures var p := FormatInstance(inst);
      && |p.body.keypoints| == 18
      && (forall i :: 0 <= i < 18 ==> p.body.keypoints[i].Some?)
      && p.leftHand.None? && p.rightHand.None? && p.face.None?
  {
    BodyShape(inst);
    HandShape(inst);
    FaceShape(inst);
  }
}
