/** src/hooks/useUnity.ts: idempotent creation of the Unity service, the
    readiness flag mirrored from it, and movement dispatch that suppresses
    changes of at most 0.05 per axis against the last direction sent. */
module UnityHook {
  import opened Arith
  import opened Types
  import opened Unity

  const DeltaThreshold := 0.05

  /** A direction is worth sending when some axis moved by strictly more
      than the delta threshold since the last direction sent. */
  predicate Significant(last: InputDirection, d: InputDirection)
  {
    Abs(d.x - last.x) > DeltaThreshold || Abs(d.y - last.y) > DeltaThreshold
  }

  class UnityHook {
    var isUnityReady: bool
    var isUnityInitialized: bool
    /** `unityServiceRef.current` */
    var service: UnityService?
    /** `movementStateRef.current`: the last direction sent. */
    var movementState: InputDirection
    ghost var Repr: set<object>

    /** A service exists exactly once initialisation has happened, and the
        hook is ready only when its service is. */
    ghost predicate Valid()
      reads this, Repr
    {
      && this in Repr
      && (service != null <==> isUnityInitialized)
      && (service != null ==> service in Repr && service.context in Repr)
      && (isUnityReady ==> service != null && service.isReady)
    }

    constructor()
      ensures Valid() && fresh(Repr)
      ensures !isUnityReady && !isUnityInitialized && service == null
      ensures movementState == Neutral
    {
      isUnityReady := false;
      isUnityInitialized := false;
      service := null;
      movementState := Neutral;
      Repr := {this};
    }

    /** `initializeUnity`: the first call creates a service; every later
        call changes nothing. */
    method InitializeUnity()
      requires Valid()
      modifies this
      ensures Valid() && fresh(Repr - old(Repr))
      ensures isUnityInitialized && service != null
      ensures isUnityReady == old(isUnityReady) && movementState == old(movementState)
      ensures old(isUnityInitialized) ==> service == old(service) && Repr == old(Repr)
      ensures !old(isUnityInitialized) ==>
                fresh(service) && fresh(service.context) && !service.isReady && service.context.received == []
    {
      if !isUnityInitialized {
        isUnityInitialized := true;
        var created := new UnityService();
        service := created;
        Repr := Repr + {created, created.context};
      }
    }

    /** The engine's "loaded" event, with the `checkUnityReady` polling
        that mirrors it into the hook collapsed into the same step. Without
        a service there is no engine to load. */
    method EngineLoaded()
      requires Valid()
      modifies Repr
      ensures Valid() && Repr == old(Repr)
      ensures service == old(service) && isUnityInitialized == old(isUnityInitialized)
      ensures movementState == old(movementState)
      ensures isUnityReady == (service != null)
      ensures service != null ==> service.isReady && service.context.received == old(service.context.received)
    {
      if service != null {
        service.OnLoaded();
        isUnityReady := true;
      }
    }

    /** `sendMovementToUnity`: while not ready, nothing happens. When ready,
        a direction that moved by more than the threshold on some axis
        becomes the last-sent state and is handed to the service exactly
        once; any other direction is dropped and the state kept, so the
        next delta is measured against the last direction actually sent.
        The state is updated before the call, so an engine that throws
        still leaves the state at the new direction. */
    method SendMovementToUnity(direction: InputDirection, engineFails: bool)
      requires Valid()
      modifies Repr
      ensures Valid() && Repr == old(Repr)
      ensures service == old(service) && isUnityInitialized == old(isUnityInitialized)
      ensures isUnityReady == old(isUnityReady)
      ensures service != null ==> service.isReady == old(service.isReady)
      ensures movementState ==
        if isUnityReady && Significant(old(movementState), direction) then direction else old(movementState)
      ensures service != null ==>
                service.context.received == old(service.context.received) +
                  (if isUnityReady && Significant(old(movementState), direction) && !engineFails
                   then [MovementCall(direction)] else [])
      ensures isUnityReady ==> !Significant(movementState, direction)
    {
      if !isUnityReady || service == null {
        return;
      }
      if Abs(direction.x - movementState.x) > DeltaThreshold || Abs(direction.y - movementState.y) > DeltaThreshold {
        movementState := direction;
        service.SendMovement(direction, engineFails);
      }
    }

    /** `stopMovement`: when ready, (0, 0) is sent whatever the threshold
        says and becomes the last-sent state; otherwise nothing happens. */
    method StopMovement(engineFails: bool)
      requires Valid()
      modifies Repr
      ensures Valid() && Repr == old(Repr)
      ensures service == old(service) && isUnityInitialized == old(isUnityInitialized)
      ensures isUnityReady == old(isUnityReady)
      ensures service != null ==> service.isReady == old(service.isReady)
      ensures movementState == if isUnityReady then Neutral else old(movementState)
      ensures service != null ==>
                service.context.received == old(service.context.received) +
                  (if isUnityReady && !engineFails then [MovementCall(Neutral)] else [])
    {
      if isUnityReady && service != null {
        service.SendMovement(Neutral, engineFails);
        movementState := Neutral;
      }
    }
  }
}
