/** src/hooks/useKeyboardInput.ts: the key handlers, gated by the hook's
    enable flag, drive an `InputService`; its direction callback forwards a
    direction to the hook's caller only when it differs from the last one
    forwarded. */
module KeyboardInput {
  import opened Types
  import opened Input

  /** No forwarded direction repeats its predecessor, and the first differs
      from the initial (0, 0). */
  ghost predicate EdgeTriggered(forwarded: seq<InputDirection>)
  {
    && (|forwarded| > 0 ==> forwarded[0] != Neutral)
    && forall i :: 0 < i < |forwarded| ==> forwarded[i] != forwarded[i - 1]
  }

  /** Appending a direction that differs from the last one keeps the log
      edge-triggered. */
  lemma AppendChange(forwarded: seq<InputDirection>, direction: InputDirection)
    requires EdgeTriggered(forwarded)
    requires direction != (if forwarded == [] then Neutral else forwarded[|forwarded| - 1])
    ensures EdgeTriggered(forwarded + [direction])
  {
  }

  class KeyboardInput {
    const service: InputService
    /** `currentDirectionRef.current` */
    var current: InputDirection
    /** The calls made to the caller's `onDirectionChange`, in order. */
    var forwarded: seq<InputDirection>

    /** `current` is the last direction forwarded, and no forwarded
        direction repeats its predecessor. */
    ghost predicate Forwarding()
      reads this
    {
      && (if forwarded == [] then current == Neutral else forwarded[|forwarded| - 1] == current)
      && EdgeTriggered(forwarded)
    }

    /** Besides, the last forwarded direction is always the one the held
        keys give. */
    ghost predicate Valid()
      reads this, service
    {
      Forwarding() && current == DirectionOf(service.keyStates)
    }

    constructor()
      ensures Valid() && fresh(service)
      ensures service.keyStates == AllReleased && current == Neutral && forwarded == []
    {
      service := new InputService();
      current := Neutral;
      forwarded := [];
    }

    /** The callback installed on the service (lines 13-22). */
    method OnDirectionChange(direction: InputDirection)
      requires Forwarding()
      modifies this`current, this`forwarded
      ensures Forwarding()
      ensures direction != old(current) ==> current == direction && forwarded == old(forwarded) + [direction]
      ensures direction == old(current) ==> current == old(current) && forwarded == old(forwarded)
    {
      if direction.x != current.x || direction.y != current.y {
        AppendChange(forwarded, direction);
        current := direction;
        forwarded := forwarded + [direction];
      }
    }

    /** Shared body of `handleKeyDown` (`isPressed` true) and `handleKeyUp`
        (false). While disabled nothing changes; otherwise the key is passed
        to the service, whose callback may forward a direction, and the
        default action is prevented exactly for the eight recognised codes. */
    method HandleKey(isEnabled: bool, code: string, isPressed: bool) returns (prevented: bool)
      requires Valid()
      modifies this, service
      ensures Valid()
      ensures prevented <==> isEnabled && KeyOf(code).Some?
      ensures !prevented ==> service.keyStates == old(service.keyStates) && forwarded == old(forwarded)
      ensures prevented ==> service.keyStates == Set(old(service.keyStates), KeyOf(code).value, isPressed)
      ensures prevented ==> forwarded == old(forwarded) +
                              (if DirectionOf(service.keyStates) != old(current) then [DirectionOf(service.keyStates)] else [])
    {
      prevented := false;
      if !isEnabled {
        return;
      }
      var notified := service.UpdateKeyState(code, isPressed);
      if notified.Some? {
        OnDirectionChange(notified.value);
      }
      // `key in getKeyStates()`: the copy has exactly the eight key names
      if KeyOf(code).Some? {
        prevented := true;
      }
    }

    method HandleKeyDown(isEnabled: bool, code: string) returns (prevented: bool)
      requires Valid()
      modifies this, service
      ensures Valid()
      ensures prevented <==> isEnabled && KeyOf(code).Some?
      ensures !prevented ==> service.keyStates == old(service.keyStates) && forwarded == old(forwarded)
      ensures prevented ==> service.keyStates == Set(old(service.keyStates), KeyOf(code).value, true)
      ensures prevented ==> forwarded == old(forwarded) +
                              (if DirectionOf(service.keyStates) != old(current) then [DirectionOf(service.keyStates)] else [])
    {
      prevented := HandleKey(isEnabled, code, true);
    }

    method HandleKeyUp(isEnabled: bool, code: string) returns (prevented: bool)
      requires Valid()
      modifies this, service
      ensures Valid()
      ensures prevented <==> isEnabled && KeyOf(code).Some?
      ensures !prevented ==> service.keyStates == old(service.keyStates) && forwarded == old(forwarded)
      ensures prevented ==> service.keyStates == Set(old(service.keyStates), KeyOf(code).value, false)
      ensures prevented ==> forwarded == old(forwarded) +
                              (if DirectionOf(service.keyStates) != old(current) then [DirectionOf(service.keyStates)] else [])
    {
      prevented := HandleKey(isEnabled, code, false);
    }
  }
}
