/** src/components/MediaPipePoseTracker.tsx, the per-frame part: capturing
    a calibration pose, turning shoulder width and nose height into a
    horizontal and a vertical tilt clamped to [-1, 1] with a dead zone,
    and sending both to the engine. */
module MediaPipeTracker {
  import opened Arith
  import opened Types
  import opened Unity

  const DeadZone := 0.1
  /** The built-in neutral pose used before any calibration. */
  const NeutralWidth := 200.0
  const NeutralHeight := 100.0
  /** Pixels of change that make a full tilt. */
  const HorizontalScale := 100.0
  const VerticalScale := 50.0

  datatype Movement = Movement(horizontal: real, vertical: real)

  const Still := Movement(0.0, 0.0)

  /** `rightShoulder.x - leftShoulder.x`: signed, so a mirrored pose is
      negative. */
  function ShoulderDiff(lm: Landmarks): real
  {
    lm.rightShoulder.x - lm.leftShoulder.x
  }

  /** `shoulderY - nose.y`: how far the nose is above the shoulder line. */
  function NoseHeight(lm: Landmarks): real
  {
    (lm.rightShoulder.y + lm.leftShoulder.y) / 2.0 - lm.nose.y
  }

  /** A tilt clamped to [-1, 1], then cut to 0 when strictly inside the
      dead zone (lines 212, 218 and 234-235). */
  function ClampAndCut(tilt: real): (r: real)
    ensures -1.0 <= r <= 1.0
    ensures r == 0.0 <==> Abs(tilt) < DeadZone
    ensures r != 0.0 ==> Abs(r) >= DeadZone && Sign(r) == Sign(tilt)
    ensures tilt >= 1.0 ==> r == 1.0
    ensures tilt <= -1.0 ==> r == -1.0
    ensures DeadZone <= Abs(tilt) <= 1.0 ==> r == tilt
  {
    var clamped := ClampUnit(tilt);
    if Abs(clamped) < DeadZone then 0.0 else clamped
  }

  /** Tilting further never moves the output back. */
  lemma ClampAndCutMonotone(a: real, b: real)
    requires a <= b
    ensures ClampAndCut(a) <= ClampAndCut(b)
  {
  }

  /** The horizontal axis: the change in shoulder difference against the
      reference, 100 pixels making a full tilt. */
  function Horizontal(shoulderDiff: real, reference: real): (r: real)
    ensures r == 0.0 <==> Abs(shoulderDiff - reference) < 10.0
    ensures shoulderDiff - reference >= 100.0 ==> r == 1.0
    ensures shoulderDiff - reference <= -100.0 ==> r == -1.0
    ensures 10.0 <= Abs(shoulderDiff - reference) <= 100.0 ==> r * 100.0 == shoulderDiff - reference
  {
    ClampAndCut((shoulderDiff - reference) / HorizontalScale)
  }

  /** The vertical axis: the change in nose height against the reference,
      50 pixels making a full tilt. */
  function Vertical(noseHeight: real, reference: real): (r: real)
    ensures r == 0.0 <==> Abs(noseHeight - reference) < 5.0
    ensures noseHeight - reference >= 50.0 ==> r == 1.0
    ensures noseHeight - reference <= -50.0 ==> r == -1.0
    ensures 5.0 <= Abs(noseHeight - reference) <= 50.0 ==> r * 50.0 == noseHeight - reference
  {
    ClampAndCut((noseHeight - reference) / VerticalScale)
  }

  /** The frame's tilt (lines 185-235), measured against the calibration
      pose as it stood when the frame began. A calibration pose that lacks
      one of the three landmarks leaves both axes at 0; without any
      calibration the built-in neutral pose is the reference. */
  function FrameTilt(lm: Landmarks, calibration: Option<Pose>): (m: Movement)
    ensures -1.0 <= m.horizontal <= 1.0 && -1.0 <= m.vertical <= 1.0
    ensures m.horizontal == 0.0 || Abs(m.horizontal) >= DeadZone
    ensures m.vertical == 0.0 || Abs(m.vertical) >= DeadZone
    ensures calibration.Some? && Locate(calibration.value.keypoints).None? ==> m == Still
  {
    match calibration
    case None =>
      Movement(Horizontal(ShoulderDiff(lm), NeutralWidth), Vertical(NoseHeight(lm), NeutralHeight))
    case Some(pose) =>
      match Locate(pose.keypoints)
      case None => Still
      case Some(c) =>
        Movement(Horizontal(ShoulderDiff(lm), ShoulderDiff(c)), Vertical(NoseHeight(lm), NoseHeight(c)))
  }

  /** Standing as at calibration gives no movement. */
  lemma CalibratedPoseIsStill(pose: Pose)
    requires Locate(pose.keypoints).Some?
    ensures FrameTilt(Locate(pose.keypoints).value, Some(pose)) == Still
  {
  }

  /** Before calibration, shoulders 200 apart with the nose 100 above their
      midpoint is the neutral pose. */
  lemma DefaultPoseIsStill(lm: Landmarks)
    requires ShoulderDiff(lm) == NeutralWidth && NoseHeight(lm) == NeutralHeight
    ensures FrameTilt(lm, None) == Still
  {
  }

  /** After calibration, a shoulder difference within 10 pixels of the
      calibrated one is no horizontal movement, and a nose height within 5
      pixels is no vertical movement. */
  lemma CalibratedDeadZone(lm: Landmarks, pose: Pose)
    requires Locate(pose.keypoints).Some?
    ensures var c := Locate(pose.keypoints).value;
            && (FrameTilt(lm, Some(pose)).horizontal == 0.0 <==> Abs(ShoulderDiff(lm) - ShoulderDiff(c)) < 10.0)
            && (FrameTilt(lm, Some(pose)).vertical == 0.0 <==> Abs(NoseHeight(lm) - NoseHeight(c)) < 5.0)
  {
  }

  /** After calibration, outside the dead zone the tilt is proportional to
      the change since calibration: 100 pixels of shoulder difference or 50
      pixels of nose height make a full tilt, and larger changes saturate. */
  lemma CalibratedTiltValue(lm: Landmarks, pose: Pose)
    requires Locate(pose.keypoints).Some?
    ensures var c := Locate(pose.keypoints).value;
            var dh := ShoulderDiff(lm) - ShoulderDiff(c);
            var dv := NoseHeight(lm) - NoseHeight(c);
            var m := FrameTilt(lm, Some(pose));
            && (10.0 <= Abs(dh) <= 100.0 ==> m.horizontal * 100.0 == dh)
            && (dh >= 100.0 ==> m.horizontal == 1.0)
            && (dh <= -100.0 ==> m.horizontal == -1.0)
            && (5.0 <= Abs(dv) <= 50.0 ==> m.vertical * 50.0 == dv)
            && (dv >= 50.0 ==> m.vertical == 1.0)
            && (dv <= -50.0 ==> m.vertical == -1.0)
  {
  }

  /** Without calibration the same holds against the built-in neutral pose:
      shoulders 200 apart and the nose 100 above their midpoint. */
  lemma DefaultTiltValue(lm: Landmarks)
    ensures var dh := ShoulderDiff(lm) - NeutralWidth;
            var dv := NoseHeight(lm) - NeutralHeight;
            var m := FrameTilt(lm, None);
            && (m.horizontal == 0.0 <==> Abs(dh) < 10.0)
            && (10.0 <= Abs(dh) <= 100.0 ==> m.horizontal * 100.0 == dh)
            && (dh >= 100.0 ==> m.horizontal == 1.0)
            && (dh <= -100.0 ==> m.horizontal == -1.0)
            && (m.vertical == 0.0 <==> Abs(dv) < 5.0)
            && (5.0 <= Abs(dv) <= 50.0 ==> m.vertical * 50.0 == dv)
            && (dv >= 50.0 ==> m.vertical == 1.0)
            && (dv <= -50.0 ==> m.vertical == -1.0)
  {
  }

  /** Moving the whole body in the image changes neither axis. */
  lemma TiltTranslationInvariant(lm: Landmarks, calibration: Option<Pose>, dx: real, dy: real)
    ensures FrameTilt(Shift(lm, dx, dy), calibration) == FrameTilt(lm, calibration)
  {
  }

  /** A wider shoulder difference never gives a smaller horizontal tilt,
      and a higher nose never a smaller vertical one. */
  lemma TiltMonotone(a: Landmarks, b: Landmarks, calibration: Option<Pose>)
    requires ShoulderDiff(a) <= ShoulderDiff(b) && NoseHeight(a) <= NoseHeight(b)
    ensures FrameTilt(a, calibration).horizontal <= FrameTilt(b, calibration).horizontal
    ensures FrameTilt(a, calibration).vertical <= FrameTilt(b, calibration).vertical
  {
  }

  function HorizontalCall(t: real): EngineCall
  {
    EngineCall("Player", "SetHorizontalMovement", Number(t))
  }

  function VerticalCall(t: real): EngineCall
  {
    EngineCall("Player", "SetVerticalMovement", Number(t))
  }

  /** What the engine accepts from one frame's two sends. Both sit in one
      `try`: a first send that throws skips the second. */
  function Accepted(m: Movement, horizontalFails: bool, verticalFails: bool): seq<EngineCall>
  {
    if horizontalFails then []
    else if verticalFails then [HorizontalCall(m.horizontal)]
    else [HorizontalCall(m.horizontal), VerticalCall(m.vertical)]
  }

  /** Every value a frame delivers is a number in [-1, 1] outside the dead
      zone or exactly 0, and the horizontal one always comes first. */
  lemma FrameCallsWellFormed(lm: Landmarks, calibration: Option<Pose>, horizontalFails: bool, verticalFails: bool)
    ensures var calls := Accepted(FrameTilt(lm, calibration), horizontalFails, verticalFails);
            && (forall call <- calls ::
                  call.target == "Player" && call.payload.Number? &&
                  -1.0 <= call.payload.value <= 1.0 &&
                  (call.payload.value == 0.0 || Abs(call.payload.value) >= DeadZone))
            && (|calls| > 0 ==> calls[0].methodName == "SetHorizontalMovement")
  {
  }

  class PoseTracker {
    const context: UnityContext
    var isUnityLoaded: bool
    var calibrating: bool
    var calibrationPose: Option<Pose>

    constructor()
      ensures fresh(context) && context.received == []
      ensures !isUnityLoaded && !calibrating && calibrationPose == None
    {
      context := new UnityContext();
      isUnityLoaded := false;
      calibrating := false;
      calibrationPose := None;
    }

    /** The engine's "loaded" event. */
    method OnLoaded()
      modifies this
      ensures isUnityLoaded
      ensures calibrating == old(calibrating) && calibrationPose == old(calibrationPose)
    {
      isUnityLoaded := true;
    }

    /** `calibratePosition` (lines 128-129): the next frame with a pose
        becomes the calibration pose. */
    method CalibratePosition()
      modifies this
      ensures calibrating
      ensures isUnityLoaded == old(isUnityLoaded) && calibrationPose == old(calibrationPose)
    {
      calibrating := true;
    }

    /** The 3-second timer (lines 130-132): the calibration window closes
        whether or not a pose was captured. */
    method CalibrationWindowEnds()
      modifies this
      ensures !calibrating
      ensures isUnityLoaded == old(isUnityLoaded) && calibrationPose == old(calibrationPose)
    {
      calibrating := false;
    }

    /** One frame (lines 174-248). While calibrating, the frame's first pose
        is stored and calibrating ends. Once the engine is loaded and the
        three landmarks are found, its tilt against the calibration held
        before this frame is sent, horizontal then vertical. */
    method ProcessFrame(poses: seq<Pose>, horizontalFails: bool, verticalFails: bool)
      modifies this, context
      ensures isUnityLoaded == old(isUnityLoaded)
      ensures if |poses| > 0 && old(calibrating)
              then calibrationPose == Some(poses[0]) && !calibrating
              else calibrationPose == old(calibrationPose) && calibrating == old(calibrating)
      ensures context.received == old(context.received) +
                (if |poses| > 0 && isUnityLoaded && Locate(poses[0].keypoints).Some?
                 then Accepted(FrameTilt(Locate(poses[0].keypoints).value, old(calibrationPose)),
                               horizontalFails, verticalFails)
                 else [])
    {
      if |poses| == 0 {
        return;
      }
      var pose := poses[0];
      var calibrationBefore := calibrationPose;
      if calibrating {
        calibrationPose := Some(pose);
        calibrating := false;
      }
      if isUnityLoaded {
        var located := Locate(pose.keypoints);
        if located.Some? {
          var m := FrameTilt(located.value, calibrationBefore);
          var accepted := context.Send(HorizontalCall(m.horizontal), horizontalFails);
          if accepted {
            accepted := context.Send(VerticalCall(m.vertical), verticalFails);
          }
        }
      }
    }
  }
}
