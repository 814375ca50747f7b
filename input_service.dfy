/** src/services/InputService.ts: eight key flags reduced to an integer
    direction, and the dead-zone/gain shaping of a continuous tilt. */
module Input {
  import opened Arith
  import opened Types

  /** The eight recognised physical keys (`KeyboardEvent.code` values). */
  datatype Key = ArrowUp | ArrowDown | ArrowLeft | ArrowRight | KeyW | KeyA | KeyS | KeyD

  /** The `KeyboardEvent.code` string of a key. */
  function Code(key: Key): string
  {
    match key
    case ArrowUp => "ArrowUp"
    case ArrowDown => "ArrowDown"
    case ArrowLeft => "ArrowLeft"
    case ArrowRight => "ArrowRight"
    case KeyW => "KeyW"
    case KeyA => "KeyA"
    case KeyS => "KeyS"
    case KeyD => "KeyD"
  }

  /** `key in this.keyStates`: the key a code names, if it is one of the
      eight; it is the inverse of `Code`. */
  function KeyOf(code: string): (r: Option<Key>)
    ensures r.Some? ==> Code(r.value) == code
    ensures r.None? ==> forall key :: Code(key) != code
  {
    if code == "ArrowUp" then Some(ArrowUp)
    else if code == "ArrowDown" then Some(ArrowDown)
    else if code == "ArrowLeft" then Some(ArrowLeft)
    else if code == "ArrowRight" then Some(ArrowRight)
    else if code == "KeyW" then Some(KeyW)
    else if code == "KeyA" then Some(KeyA)
    else if code == "KeyS" then Some(KeyS)
    else if code == "KeyD" then Some(KeyD)
    else None
  }

  /** Every key's code is recognised as that key. */
  lemma KeyOfCode(key: Key)
    ensures KeyOf(Code(key)) == Some(key)
  {
  }

  /** `KeyStates` of src/types/input.ts: one pressed flag per key. */
  datatype KeyStates = KeyStates(
    arrowUp: bool, arrowDown: bool, arrowLeft: bool, arrowRight: bool,
    keyW: bool, keyA: bool, keyS: bool, keyD: bool)

  const AllReleased := KeyStates(false, false, false, false, false, false, false, false)

  function Get(k: KeyStates, key: Key): bool
  {
    match key
    case ArrowUp => k.arrowUp
    case ArrowDown => k.arrowDown
    case ArrowLeft => k.arrowLeft
    case ArrowRight => k.arrowRight
    case KeyW => k.keyW
    case KeyA => k.keyA
    case KeyS => k.keyS
    case KeyD => k.keyD
  }

  /** `keyStates[key] = isPressed`: that flag takes the new value, the
      other seven keep theirs. */
  function Set(k: KeyStates, key: Key, isPressed: bool): (r: KeyStates)
    ensures Get(r, key) == isPressed
    ensures forall other :: other != key ==> Get(r, other) == Get(k, other)
  {
    match key
    case ArrowUp => k.(arrowUp := isPressed)
    case ArrowDown => k.(arrowDown := isPressed)
    case ArrowLeft => k.(arrowLeft := isPressed)
    case ArrowRight => k.(arrowRight := isPressed)
    case KeyW => k.(keyW := isPressed)
    case KeyA => k.(keyA := isPressed)
    case KeyS => k.(keyS := isPressed)
    case KeyD => k.(keyD := isPressed)
  }

  /** One axis of the keyboard direction: +1 when only the positive side is
      held, -1 when only the negative side is, 0 when neither or both are. */
  function Axis(negative: bool, positive: bool): (r: real)
    ensures r == -1.0 || r == 0.0 || r == 1.0
    ensures r == 1.0 <==> positive && !negative
    ensures r == -1.0 <==> negative && !positive
  {
    if negative == positive then 0.0 else if positive then 1.0 else -1.0
  }

  /** The direction a set of held keys stands for. Arrow and letter keys of
      one direction are or-ed; up is +y, right is +x. */
  function DirectionOf(k: KeyStates): (d: InputDirection)
    ensures d.x == 1.0 <==> (k.arrowRight || k.keyD) && !(k.arrowLeft || k.keyA)
    ensures d.x == -1.0 <==> (k.arrowLeft || k.keyA) && !(k.arrowRight || k.keyD)
    ensures d.y == 1.0 <==> (k.arrowUp || k.keyW) && !(k.arrowDown || k.keyS)
    ensures d.y == -1.0 <==> (k.arrowDown || k.keyS) && !(k.arrowUp || k.keyW)
    ensures d.x in {-1.0, 0.0, 1.0} && d.y in {-1.0, 0.0, 1.0}
  {
    InputDirection(Axis(k.arrowLeft || k.keyA, k.arrowRight || k.keyD),
                   Axis(k.arrowDown || k.keyS, k.arrowUp || k.keyW))
  }

  /** Holding both keys of one direction counts once: pressing the arrow key
      when its letter twin is already held leaves the direction unchanged. */
  lemma TwinKeysOr(k: KeyStates, key: Key, twin: Key)
    requires (key, twin) in {(ArrowUp, KeyW), (ArrowDown, KeyS), (ArrowLeft, KeyA), (ArrowRight, KeyD)}
    requires Get(k, twin)
    ensures DirectionOf(Set(k, key, true)) == DirectionOf(k)
  {
  }

  /** A fresh service has every key released and computes no motion. */
  lemma AllReleasedIsNeutral()
    ensures forall key :: !Get(AllReleased, key)
    ensures DirectionOf(AllReleased) == Neutral
  {
  }

  class InputService {
    var keyStates: KeyStates

    constructor()
      ensures keyStates == AllReleased
    {
      keyStates := AllReleased;
    }

    /** A recognised code sets its flag and invokes the direction callback
        once with the recomputed direction (returned here as `Some`); any
        other code changes nothing and invokes nothing (`None`). */
    method UpdateKeyState(code: string, isPressed: bool) returns (notified: Option<InputDirection>)
      modifies this
      ensures KeyOf(code).None? ==> keyStates == old(keyStates) && notified == None
      ensures KeyOf(code).Some? ==> keyStates == Set(old(keyStates), KeyOf(code).value, isPressed)
      ensures KeyOf(code).Some? ==> notified == Some(DirectionOf(keyStates))
    {
      notified := None;
      var key := KeyOf(code);
      if key.Some? {
        keyStates := Set(keyStates, key.value, isPressed);
        var d := CalculateDirection();
        notified := Some(d);
      }
    }

    /** Accumulates the direction as the source does, one key pair at a
        time; the result is the direction the held keys stand for. */
    method CalculateDirection() returns (d: InputDirection)
      ensures d == DirectionOf(keyStates)
    {
      var x := 0.0;
      var y := 0.0;
      if keyStates.arrowLeft || keyStates.keyA {
        x := x - 1.0;
      }
      if keyStates.arrowRight || keyStates.keyD {
        x := x + 1.0;
      }
      if keyStates.arrowDown || keyStates.keyS {
        y := y - 1.0;
      }
      if keyStates.arrowUp || keyStates.keyW {
        y := y + 1.0;
      }
      d := InputDirection(x, y);
    }

    /** A copy of the flags: a value, so later updates do not reach it. */
    function GetKeyStates(): (k: KeyStates)
      reads this
      ensures forall key :: Get(k, key) == Get(keyStates, key)
    {
      keyStates
    }
  }

  const Threshold := 0.1
  const Sensitivity := 1.5

  /** One component of `processPoseInput`: values within the dead zone
      (|v| <= 0.1, boundary included) become 0; the rest are scaled by 1.5,
      keep their sign and saturate at magnitude 1. */
  function Shape(v: real): (r: real)
    ensures -1.0 <= r <= 1.0
    ensures Abs(v) <= Threshold ==> r == 0.0
    ensures Abs(v) > Threshold ==> (r > 0.0 <==> v > 0.0) && (r < 0.0 <==> v < 0.0)
    ensures Abs(v) > Threshold && Sensitivity * Abs(v) >= 1.0 ==> Abs(r) == 1.0
    ensures Abs(v) > Threshold && Sensitivity * Abs(v) < 1.0 ==> r == Sensitivity * v
  {
    if Abs(v) > Threshold then Sign(v) * Min(Abs(v) * Sensitivity, 1.0) else 0.0
  }

  /** `processPoseInput`: each component shaped independently. */
  function ProcessPoseInput(d: InputDirection): (r: InputDirection)
    ensures InUnitSquare(r)
    ensures r.x == Shape(d.x) && r.y == Shape(d.y)
  {
    InputDirection(Shape(d.x), Shape(d.y))
  }

  /** Shaping preserves order: a larger tilt never gives a smaller output. */
  lemma ShapeMonotone(v: real, w: real)
    requires v <= w
    ensures Shape(v) <= Shape(w)
  {
  }

  /** Shaping is odd: mirroring the tilt mirrors the output. */
  lemma ShapeOdd(v: real)
    ensures Shape(-v) == -Shape(v)
  {
  }
}
