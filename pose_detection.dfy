/** src/hooks/usePoseDetection.ts: confidence-gated calibration, the nose
    tilt relative to the calibrated pose normalised by shoulder width, its
    exponential smoothing, and the shaping of `InputService.processPoseInput`. */
module PoseDetection {
  import opened Arith
  import opened Types
  import Input

  const MinFrameScore := 0.3
  const MinCalibrationScore := 0.5
  const SmoothingFactor := 0.3

  /** The shape of `lastMovementRef.current`. */
  datatype Tilt = Tilt(horizontal: real, vertical: real)

  const Level := Tilt(0.0, 0.0)

  /** All three landmarks are scored strictly above `min`. */
  predicate Confident(lm: Landmarks, min: real)
  {
    Score(lm.leftShoulder) > min && Score(lm.rightShoulder) > min && Score(lm.nose) > min
  }

  /** `calibrate` as written: the reference is taken when all three
      landmarks are found with confidence above 0.5, whatever the shoulder
      width. */
  function CaptureAsWritten(kps: seq<Keypoint>): (r: Option<CalibrationPose>)
    ensures r.Some? <==> Locate(kps).Some? && Confident(Locate(kps).value, MinCalibrationScore)
    ensures r.Some? ==> r.value == ReferenceOf(Locate(kps).value)
  {
    match Locate(kps)
    case Some(lm) => if Confident(lm, MinCalibrationScore) then Some(ReferenceOf(lm)) else None
    case None => None
  }

  /** Two confident shoulders at the same horizontal position. */
  const StackedShoulders := [
    Keypoint(100.0, 200.0, Some(0.9), Some(LeftShoulder)),
    Keypoint(100.0, 210.0, Some(0.9), Some(RightShoulder)),
    Keypoint(110.0, 120.0, Some(0.9), Some(Nose))
  ]

  /** The calibration as written accepts a zero shoulder width, by which
      every later frame's tilt is then divided. */
  lemma ZeroWidthCalibrationAccepted()
    ensures CaptureAsWritten(StackedShoulders).Some?
    ensures CaptureAsWritten(StackedShoulders).value.shoulderWidth == 0.0
  {
    assert Find(StackedShoulders, LeftShoulder) == Some(StackedShoulders[0]);
    assert Find(StackedShoulders, RightShoulder) == Some(StackedShoulders[1]);
    assert Find(StackedShoulders, Nose) == Some(StackedShoulders[2]);
  }

  /** `calibrate` as intended: as written, but a zero shoulder width is
      rejected like a low-confidence frame. */
  function Capture(kps: seq<Keypoint>): (r: Option<CalibrationPose>)
    ensures r.Some? ==> r.value.shoulderWidth > 0.0
    ensures r.Some? ==> r == CaptureAsWritten(kps)
    ensures r.None? <==> CaptureAsWritten(kps).None? || CaptureAsWritten(kps).value.shoulderWidth == 0.0
  {
    var c := CaptureAsWritten(kps);
    if c.Some? && c.value.shoulderWidth > 0.0 then c else None
  }

  /** The tilt of a frame: how far the nose has moved, relative to the
      shoulder midpoint, since calibration, in calibrated shoulder widths
      (a tilt of 1 is a move by one shoulder width).
      It is zero on an axis exactly when the offset on that axis equals the
      calibrated one, and positive when the nose is further right (down). */
  function RawTilt(lm: Landmarks, c: CalibrationPose): (t: Tilt)
    requires c.shoulderWidth > 0.0
    ensures t.horizontal == 0.0 <==> NoseOffset(lm).x == CalibratedOffset(c).x
    ensures t.vertical == 0.0 <==> NoseOffset(lm).y == CalibratedOffset(c).y
    ensures t.horizontal > 0.0 <==> NoseOffset(lm).x > CalibratedOffset(c).x
    ensures t.vertical > 0.0 <==> NoseOffset(lm).y > CalibratedOffset(c).y
    ensures t.horizontal * c.shoulderWidth == NoseOffset(lm).x - CalibratedOffset(c).x
    ensures t.vertical * c.shoulderWidth == NoseOffset(lm).y - CalibratedOffset(c).y
  {
    var offset := NoseOffset(lm);
    var calibrated := CalibratedOffset(c);
    Tilt((offset.x - calibrated.x) / c.shoulderWidth, (offset.y - calibrated.y) / c.shoulderWidth)
  }

  /** The tilt is unchanged when the whole body moves in the image. */
  lemma RawTiltTranslationInvariant(lm: Landmarks, c: CalibrationPose, dx: real, dy: real)
    requires c.shoulderWidth > 0.0
    ensures RawTilt(Shift(lm, dx, dy), c) == RawTilt(lm, c)
  {
  }

  /** A frame is admitted when the three landmarks are found and scored
      above 0.3; its tilt is then taken against the calibration. */
  function FrameTilt(kps: seq<Keypoint>, c: CalibrationPose): (r: Option<Tilt>)
    requires c.shoulderWidth > 0.0
    ensures r.Some? <==> Locate(kps).Some? && Confident(Locate(kps).value, MinFrameScore)
    ensures r.Some? ==> r.value == RawTilt(Locate(kps).value, c)
  {
    match Locate(kps)
    case Some(lm) => if Confident(lm, MinFrameScore) then Some(RawTilt(lm, c)) else None
    case None => None
  }

  /** The frame a calibration was taken from is admitted and has no tilt. */
  lemma CalibrationFrameIsLevel(kps: seq<Keypoint>)
    requires Capture(kps).Some?
    ensures FrameTilt(kps, Capture(kps).value) == Some(Level)
  {
  }

  /** One smoothing step with factor 0.3: the value moves 30% of the way
      from the previous value towards the new one, never past it. */
  function Smooth(last: real, raw: real): (r: real)
    ensures Abs(r - raw) == (1.0 - SmoothingFactor) * Abs(last - raw)
    ensures Min(last, raw) <= r <= Max(last, raw)
  {
    last * (1.0 - SmoothingFactor) + raw * SmoothingFactor
  }

  function SmoothTilt(last: Tilt, raw: Tilt): Tilt
  {
    Tilt(Smooth(last.horizontal, raw.horizontal), Smooth(last.vertical, raw.vertical))
  }

  /** Smoothing keeps any bound both inputs respect. */
  lemma SmoothBounded(last: real, raw: real, bound: real)
    requires Abs(last) <= bound && Abs(raw) <= bound
    ensures Abs(Smooth(last, raw)) <= bound
  {
  }

  /** The value after `n` frames with the same raw tilt. */
  function SmoothSteps(last: real, raw: real, n: nat): real
  {
    if n == 0 then last else Smooth(SmoothSteps(last, raw, n - 1), raw)
  }

  /** The share of the initial gap left after `n` smoothing steps, 0.7^n. */
  function Retained(n: nat): real
  {
    if n == 0 then 1.0 else (1.0 - SmoothingFactor) * Retained(n - 1)
  }

  /** Over repeated identical frames the smoothed value approaches the raw
      one geometrically: after `n` frames the gap is 0.7^n of the first,
      on the same side. */
  lemma {:induction false} SmoothingConverges(last: real, raw: real, n: nat)
    ensures SmoothSteps(last, raw, n) - raw == Retained(n) * (last - raw)
    ensures Retained(n) > 0.0
  {
    if n > 0 {
      SmoothingConverges(last, raw, n - 1);
      Associate(1.0 - SmoothingFactor, Retained(n - 1), last - raw);
    }
  }

  lemma Associate(a: real, b: real, c: real)
    ensures a * (b * c) == (a * b) * c
  {
  }

  /** The direction handed on for a smoothed tilt. */
  function Emit(s: Tilt): (d: InputDirection)
    ensures InUnitSquare(d)
  {
    Input.ProcessPoseInput(InputDirection(s.horizontal, s.vertical))
  }

  /** Holding the calibrated pose brings the output back to (0, 0): from
      any smoothed state within [-1, 1], seven level frames suffice. */
  lemma {:induction false} LevelFramesSettle(s: Tilt)
    requires Abs(s.horizontal) <= 1.0 && Abs(s.vertical) <= 1.0
    ensures Emit(Tilt(SmoothSteps(s.horizontal, 0.0, 7), SmoothSteps(s.vertical, 0.0, 7))) == Neutral
  {
    SmoothingConverges(s.horizontal, 0.0, 7);
    SmoothingConverges(s.vertical, 0.0, 7);
    assert Retained(7) == 0.0823543 by {
      assert Retained(3) == 0.343;
      assert Retained(6) == 0.117649;
    }
  }

  class PoseDetection {
    var isDetecting: bool
    var calibrationPose: Option<CalibrationPose>
    /** `lastMovementRef.current`: the smoothing state. */
    var lastMovement: Tilt

    /** Every stored calibration has a positive shoulder width. */
    ghost predicate Valid()
      reads this
    {
      calibrationPose.Some? ==> calibrationPose.value.shoulderWidth > 0.0
    }

    constructor()
      ensures Valid()
      ensures !isDetecting && calibrationPose == None && lastMovement == Level
    {
      isDetecting := false;
      calibrationPose := None;
      lastMovement := Level;
    }

    /** What processing `kps` does to the smoothing state and what it
        emits: nothing without a calibration or for a rejected frame;
        otherwise the state is smoothed towards the frame's tilt and the
        shaped state itself is emitted. */
    ghost predicate Processed(kps: seq<Keypoint>, before: Tilt, after: Tilt, emitted: Option<InputDirection>)
      reads this
      requires Valid()
    {
      match (if calibrationPose.Some? then FrameTilt(kps, calibrationPose.value) else None)
      case None => after == before && emitted == None
      case Some(raw) => after == SmoothTilt(before, raw) && emitted == Some(Emit(after))
    }

    /** `processPose`. */
    method ProcessPose(keypoints: seq<Keypoint>) returns (emitted: Option<InputDirection>)
      requires Valid()
      modifies this`lastMovement
      ensures Valid()
      ensures Processed(keypoints, old(lastMovement), lastMovement, emitted)
      ensures calibrationPose.None? ==> emitted == None && lastMovement == old(lastMovement)
      ensures emitted.Some? ==> InUnitSquare(emitted.value)
    {
      emitted := None;
      if calibrationPose.None? {
        return;
      }
      var calibration := calibrationPose.value;
      var leftShoulder := Find(keypoints, LeftShoulder);
      var rightShoulder := Find(keypoints, RightShoulder);
      var nose := Find(keypoints, Nose);
      if leftShoulder.Some? && rightShoulder.Some? && nose.Some? &&
         Score(leftShoulder.value) > MinFrameScore && Score(rightShoulder.value) > MinFrameScore &&
         Score(nose.value) > MinFrameScore
      {
        var shoulderMidX := (leftShoulder.value.x + rightShoulder.value.x) / 2.0;
        var shoulderMidY := (leftShoulder.value.y + rightShoulder.value.y) / 2.0;
        var noseOffsetX := nose.value.x - shoulderMidX;
        var noseOffsetY := nose.value.y - shoulderMidY;
        var calibNoseOffsetX := calibration.nosePosition.x - calibration.shoulderCenter.x;
        var calibNoseOffsetY := calibration.nosePosition.y - calibration.shoulderCenter.y;
        var horizontalTilt := (noseOffsetX - calibNoseOffsetX) / calibration.shoulderWidth;
        var verticalTilt := (noseOffsetY - calibNoseOffsetY) / calibration.shoulderWidth;
        horizontalTilt := lastMovement.horizontal * (1.0 - SmoothingFactor) + horizontalTilt * SmoothingFactor;
        verticalTilt := lastMovement.vertical * (1.0 - SmoothingFactor) + verticalTilt * SmoothingFactor;
        lastMovement := Tilt(horizontalTilt, verticalTilt);
        emitted := Some(Input.ProcessPoseInput(InputDirection(horizontalTilt, verticalTilt)));
      }
    }

    /** `calibrate`: succeeds only for a confident frame (with a non-zero
        shoulder width), and then stores its reference and starts
        detection; a failure changes nothing. The smoothing state is left
        as it is either way. */
    method Calibrate(detectorReady: bool, videoReady: bool, poses: seq<Pose>) returns (ok: bool)
      requires Valid()
      modifies this`calibrationPose, this`isDetecting
      ensures Valid()
      ensures ok <==> detectorReady && videoReady && |poses| > 0 && Capture(poses[0].keypoints).Some?
      ensures ok ==> calibrationPose == Capture(poses[0].keypoints) && isDetecting
      ensures !ok ==> calibrationPose == old(calibrationPose) && isDetecting == old(isDetecting)
    {
      ok := false;
      if !detectorReady || !videoReady || |poses| == 0 {
        return;
      }
      var reference := Capture(poses[0].keypoints);
      if reference.Some? {
        calibrationPose := reference;
        isDetecting := true;
        ok := true;
      }
    }

    /** `detect`: nothing happens unless a detector exists, detection is
        on, a calibration exists, the hook is enabled, the video is ready
        and the model returned a pose; then the first pose is processed. */
    method Detect(isEnabled: bool, detectorReady: bool, videoReady: bool, poses: seq<Pose>)
      returns (emitted: Option<InputDirection>)
      requires Valid()
      modifies this`lastMovement
      ensures Valid()
      ensures !(detectorReady && isDetecting && calibrationPose.Some? && isEnabled && videoReady && |poses| > 0) ==>
                emitted == None && lastMovement == old(lastMovement)
      ensures detectorReady && isDetecting && calibrationPose.Some? && isEnabled && videoReady && |poses| > 0 ==>
                Processed(poses[0].keypoints, old(lastMovement), lastMovement, emitted)
    {
      emitted := None;
      if !detectorReady || !isDetecting || calibrationPose.None? || !isEnabled {
        return;
      }
      if videoReady && |poses| > 0 {
        emitted := ProcessPose(poses[0].keypoints);
      }
    }

    /** `toggleDetection` */
    method ToggleDetection()
      modifies this`isDetecting
      ensures isDetecting == !old(isDetecting)
    {
      isDetecting := !isDetecting;
    }
  }
}
