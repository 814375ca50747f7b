/** src/services/UnityService.ts and the engine boundary it calls: a
    one-way readiness flag set by the engine's "loaded" event, and a
    movement send that is dropped until that flag is set. */
module Unity {
  import opened Types

  /** What travels to the engine. `Json(d)` stands for `JSON.stringify(d)`:
      the serialised text itself is not modelled, only which direction it
      encodes. */
  datatype Payload = Json(direction: InputDirection) | Number(value: real)

  /** One `send(target, method, payload)` call. */
  datatype EngineCall = EngineCall(target: string, methodName: string, payload: Payload)

  /** The call the service makes for a movement direction. */
  function MovementCall(d: InputDirection): (c: EngineCall)
    ensures c.target == "Player" && c.methodName == "SetMovementDirection"
    ensures c.payload.Json? && c.payload.direction == d
  {
    EngineCall("Player", "SetMovementDirection", Json(d))
  }

  /** The embedded engine, seen from outside: the calls it has accepted. A
      call the engine rejects by throwing is not recorded. */
  class UnityContext {
    var received: seq<EngineCall>

    constructor()
      ensures received == []
    {
      received := [];
    }

    /** `unityContext.send`; `fails` says whether the engine throws. */
    method Send(call: EngineCall, fails: bool) returns (accepted: bool)
      modifies this
      ensures accepted == !fails
      ensures received == if fails then old(received) else old(received) + [call]
    {
      accepted := !fails;
      if !fails {
        received := received + [call];
      }
    }
  }

  class UnityService {
    const context: UnityContext
    var isReady: bool

    /** `createUnityService`: a fresh engine context and a service that is
        not ready yet. */
    constructor()
      ensures fresh(context) && context.received == []
      ensures !isReady
    {
      context := new UnityContext();
      isReady := false;
    }

    /** The "loaded" listener. Nothing ever clears `isReady` again: no
        method of this class but this one writes it. */
    method OnLoaded()
      modifies this
      ensures isReady
    {
      isReady := true;
    }

    /** `sendMovement`: before readiness no engine call is made; after it,
        exactly one `Player.SetMovementDirection` call carrying `direction`.
        An engine that throws is caught here: the method returns normally
        and the readiness flag is untouched. */
    method SendMovement(direction: InputDirection, engineFails: bool)
      modifies context
      ensures context.received ==
        if isReady && !engineFails then old(context.received) + [MovementCall(direction)]
        else old(context.received)
    {
      if !isReady {
        return;
      }
      var accepted := context.Send(MovementCall(direction), engineFails);
    }
  }
}
