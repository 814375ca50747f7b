/** The shared data model: the direction record of src/types/input.ts, the
    keypoint, pose and calibration records of src/types/pose.ts, and the
    first-match lookup of a keypoint by name (`Array.prototype.find`) that
    every pose variant performs. */
module Types {
  import opened Arith

  datatype Option<T> = None | Some(value: T)

  /** `InputDirection`: the two-axis signal every input source produces. */
  datatype InputDirection = InputDirection(x: real, y: real)

  const Neutral := InputDirection(0.0, 0.0)

  predicate InUnitSquare(d: InputDirection)
  {
    -1.0 <= d.x <= 1.0 && -1.0 <= d.y <= 1.0
  }

  datatype Point = Point(x: real, y: real)

  /** A body landmark as the pose model reports it. Both the name and the
      score may be absent; `z` is never read and is left out. */
  datatype Keypoint = Keypoint(x: real, y: real, score: Option<real>, name: Option<string>)

  /** A pose: the keypoints of one detected body and its overall score. */
  datatype Pose = Pose(keypoints: seq<Keypoint>, score: real)

  /** `CalibrationPose`: the zero point of the tilt signal. */
  datatype CalibrationPose = CalibrationPose(shoulderWidth: real, shoulderCenter: Point, nosePosition: Point)

  /** The three landmarks every tilt computation needs. */
  datatype Landmarks = Landmarks(leftShoulder: Keypoint, rightShoulder: Keypoint, nose: Keypoint)

  const LeftShoulder := "left_shoulder"
  const RightShoulder := "right_shoulder"
  const Nose := "nose"

  /** `kp.score ?? 0`: a missing score counts as zero confidence. */
  function Score(k: Keypoint): (r: real)
    ensures k.score.None? ==> r == 0.0
    ensures k.score.Some? ==> r == k.score.value
  {
    match k.score
    case Some(s) => s
    case None => 0.0
  }

  ghost predicate HasNamed(kps: seq<Keypoint>, name: string)
  {
    exists i :: 0 <= i < |kps| && kps[i].name == Some(name)
  }

  /** `k` is the first keypoint of `kps` that carries `name`. */
  ghost predicate IsFirstNamed(kps: seq<Keypoint>, name: string, k: Keypoint)
  {
    exists i :: 0 <= i < |kps| && kps[i] == k && k.name == Some(name) &&
      forall j :: 0 <= j < i ==> kps[j].name != Some(name)
  }

  /** `keypoints.find(kp => kp.name === name)`. */
  function Find(kps: seq<Keypoint>, name: string): (r: Option<Keypoint>)
    ensures r.Some? <==> HasNamed(kps, name)
    ensures r.Some? ==> IsFirstNamed(kps, name, r.value)
  {
    if |kps| == 0 then None
    else if kps[0].name == Some(name) then Some(kps[0])
    else
      var r := Find(kps[1..], name);
      assert forall i :: 1 <= i < |kps| ==> kps[i] == kps[1..][i - 1];
      if r.Some? then
        ghost var i :| 0 <= i < |kps[1..]| && kps[1..][i] == r.value && r.value.name == Some(name) &&
          forall j :: 0 <= j < i ==> kps[1..][j].name != Some(name);
        assert kps[i + 1] == r.value;
        r
      else
        r
  }

  /** The three landmarks, each the first keypoint of its name; `None` when
      any of them is missing from the frame. */
  function Locate(kps: seq<Keypoint>): (r: Option<Landmarks>)
    ensures r.Some? <==> HasNamed(kps, LeftShoulder) && HasNamed(kps, RightShoulder) && HasNamed(kps, Nose)
    ensures r.Some? ==> IsFirstNamed(kps, LeftShoulder, r.value.leftShoulder)
    ensures r.Some? ==> IsFirstNamed(kps, RightShoulder, r.value.rightShoulder)
    ensures r.Some? ==> IsFirstNamed(kps, Nose, r.value.nose)
  {
    match (Find(kps, LeftShoulder), Find(kps, RightShoulder), Find(kps, Nose))
    case (Some(l), Some(rs), Some(n)) => Some(Landmarks(l, rs, n))
    case _ => None
  }

  /** The shoulder midpoint `((l.x + r.x) / 2, (l.y + r.y) / 2)`. */
  function ShoulderMid(lm: Landmarks): (m: Point)
    ensures m.x - lm.leftShoulder.x == lm.rightShoulder.x - m.x
    ensures m.y - lm.leftShoulder.y == lm.rightShoulder.y - m.y
  {
    Point((lm.leftShoulder.x + lm.rightShoulder.x) / 2.0, (lm.leftShoulder.y + lm.rightShoulder.y) / 2.0)
  }

  /** The reference both calibrate variants store: the horizontal shoulder
      distance, the shoulder midpoint and the nose position. */
  function ReferenceOf(lm: Landmarks): (c: CalibrationPose)
    ensures c.shoulderWidth >= 0.0
    ensures c.shoulderWidth == lm.rightShoulder.x - lm.leftShoulder.x ||
            c.shoulderWidth == lm.leftShoulder.x - lm.rightShoulder.x
    ensures c.shoulderWidth == 0.0 <==> lm.leftShoulder.x == lm.rightShoulder.x
    ensures c.shoulderCenter == ShoulderMid(lm)
    ensures c.nosePosition == Point(lm.nose.x, lm.nose.y)
  {
    CalibrationPose(Abs(lm.rightShoulder.x - lm.leftShoulder.x), ShoulderMid(lm), Point(lm.nose.x, lm.nose.y))
  }

  /** The nose position relative to the shoulder midpoint. */
  function NoseOffset(lm: Landmarks): Point
  {
    var mid := ShoulderMid(lm);
    Point(lm.nose.x - mid.x, lm.nose.y - mid.y)
  }

  /** The same offset as recorded in a calibration reference. */
  function CalibratedOffset(c: CalibrationPose): Point
  {
    Point(c.nosePosition.x - c.shoulderCenter.x, c.nosePosition.y - c.shoulderCenter.y)
  }

  /** Recording a frame's landmarks as the reference keeps its nose offset. */
  lemma ReferenceKeepsOffset(lm: Landmarks)
    ensures CalibratedOffset(ReferenceOf(lm)) == NoseOffset(lm)
  {
  }

  /** The same body moved by (dx, dy) in the image. */
  function ShiftKeypoint(k: Keypoint, dx: real, dy: real): Keypoint
  {
    k.(x := k.x + dx, y := k.y + dy)
  }

  function Shift(lm: Landmarks, dx: real, dy: real): Landmarks
  {
    Landmarks(ShiftKeypoint(lm.leftShoulder, dx, dy), ShiftKeypoint(lm.rightShoulder, dx, dy),
              ShiftKeypoint(lm.nose, dx, dy))
  }
}
