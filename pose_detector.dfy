/** src/components/PoseDetector.tsx (the older detector): calibration
    without a confidence check, and a tilt quantised to -1, 0 or 1 per axis
    with a dead zone of 0.15. */
module LegacyPoseDetector {
  import opened Arith
  import opened Types

  const Threshold := 0.15

  /** One axis: the offset difference `diff` divided by the calibrated
      shoulder width, quantised to its sign beyond 0.15. A zero width is
      handled as IEEE division does it: a non-zero `diff` gives an infinite
      tilt, which is beyond the threshold, and 0/0 gives NaN, which no
      comparison accepts, so the axis stays 0. */
  function Quantise(diff: real, width: real): (r: real)
    requires width >= 0.0
    ensures r == -1.0 || r == 0.0 || r == 1.0
    ensures r != 0.0 ==> r == Sign(diff)
    ensures width > 0.0 ==> (r == 0.0 <==> Abs(diff) <= Threshold * width)
    ensures width == 0.0 ==> r == Sign(diff)
  {
    if width == 0.0 then Sign(diff)
    else
      var tilt := diff / width;
      assert Abs(diff) == Abs(tilt) * width;
      if Abs(tilt) > Threshold then Sign(tilt) else 0.0
  }

  /** `processPose` (lines 121-159): a frame is used only when the three
      landmarks are found and a calibration exists; it is then always
      reported, (0, 0) included. */
  function ProcessPose(kps: seq<Keypoint>, calibrationPose: Option<CalibrationPose>): (r: Option<InputDirection>)
    requires calibrationPose.Some? ==> calibrationPose.value.shoulderWidth >= 0.0
    ensures r.Some? <==> Locate(kps).Some? && calibrationPose.Some?
    ensures r.Some? ==> r.value.x in {-1.0, 0.0, 1.0} && r.value.y in {-1.0, 0.0, 1.0}
    ensures r.Some? ==>
              var offset := NoseOffset(Locate(kps).value);
              var calibrated := CalibratedOffset(calibrationPose.value);
              var width := calibrationPose.value.shoulderWidth;
              r.value.x == Quantise(offset.x - calibrated.x, width) &&
              r.value.y == Quantise(offset.y - calibrated.y, width)
  {
    match (Locate(kps), calibrationPose)
    case (Some(lm), Some(c)) =>
      var offset := NoseOffset(lm);
      var calibrated := CalibratedOffset(c);
      Some(InputDirection(Quantise(offset.x - calibrated.x, c.shoulderWidth),
                          Quantise(offset.y - calibrated.y, c.shoulderWidth)))
    case _ => None
  }

  /** Holding the calibrated pose reports (0, 0), whatever the width. */
  lemma CalibratedPoseIsNeutral(kps: seq<Keypoint>)
    requires Locate(kps).Some?
    ensures ProcessPose(kps, Some(ReferenceOf(Locate(kps).value))) == Some(Neutral)
  {
  }

  class PoseDetector {
    var isDetecting: bool
    var calibrationPose: Option<CalibrationPose>

    /** Every stored calibration has a non-negative width. */
    ghost predicate Valid()
      reads this
    {
      calibrationPose.Some? ==> calibrationPose.value.shoulderWidth >= 0.0
    }

    constructor()
      ensures Valid() && !isDetecting && calibrationPose == None
    {
      isDetecting := false;
      calibrationPose := None;
    }

    /** `calibrate` (lines 71-99): with a detector, a mounted camera whose
        video is ready and at least one pose, the three landmarks of the
        first pose become the reference, whatever their scores, and
        detection starts; otherwise nothing changes. */
    method Calibrate(detectorReady: bool, cameraReady: bool, poses: seq<Pose>)
      requires Valid()
      modifies this
      ensures Valid()
      ensures if detectorReady && cameraReady && |poses| > 0 && Locate(poses[0].keypoints).Some?
              then calibrationPose == Some(ReferenceOf(Locate(poses[0].keypoints).value)) && isDetecting
              else calibrationPose == old(calibrationPose) && isDetecting == old(isDetecting)
    {
      if !detectorReady || !cameraReady || |poses| == 0 {
        return;
      }
      var keypoints := poses[0].keypoints;
      var leftShoulder := Find(keypoints, LeftShoulder);
      var rightShoulder := Find(keypoints, RightShoulder);
      var nose := Find(keypoints, Nose);
      if leftShoulder.Some? && rightShoulder.Some? && nose.Some? {
        calibrationPose := Some(CalibrationPose(
          Abs(rightShoulder.value.x - leftShoulder.value.x),
          Point((leftShoulder.value.x + rightShoulder.value.x) / 2.0,
                (leftShoulder.value.y + rightShoulder.value.y) / 2.0),
          Point(nose.value.x, nose.value.y)));
        isDetecting := true;
      }
    }
  }
}
