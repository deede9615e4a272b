/** The drive of a ship: its speeds, its target and the
    maneuver -> warming -> cruise state machine that the movement system
    advances. Only the target and state transitions live here; the kinematics
    that consume them are not part of this model. */
module Drive {
  import opened Common

  datatype DriveState = Maneuver | Warming | Cruise

  /** `Math.PI`, to the precision of its decimal literal. */
  const Pi: real := 3.141592653589793

  class Drive {
    var acceleration: real
    var currentSpeed: real
    var maneuver: real
    var cruise: real
    var rotary: real
    var ttc: real
    var state: DriveState
    var target: Option<EntityId>
    var targetReached: bool

    /** `createDrive`: a drive at rest, maneuvering, with no target; the
        rotary speed is given in degrees and kept in radians. */
    constructor (acceleration: real, maneuver: real, cruise: real, rotaryDegrees: real, ttc: real)
      ensures this.acceleration == acceleration && this.maneuver == maneuver && this.cruise == cruise
      ensures rotary == rotaryDegrees * Pi / 180.0 && this.ttc == ttc
      ensures currentSpeed == 0.0 && state == Maneuver && target == None && !targetReached
    {
      this.acceleration := acceleration;
      this.maneuver := maneuver;
      this.cruise := cruise;
      rotary := rotaryDegrees * Pi / 180.0;
      this.ttc := ttc;
      currentSpeed := 0.0;
      state := Maneuver;
      target := None;
      targetReached := false;
    }

    /** `startCruise`: begin warming up the cruise engine; nothing else changes. */
    method StartCruise()
      modifies this`state
      ensures state == Warming
    {
      state := Warming;
    }

    /** `stopCruise`: back to maneuvering, at maneuver speed. */
    method StopCruise()
      modifies this`state, this`currentSpeed
      ensures state == Maneuver && currentSpeed == maneuver
    {
      currentSpeed := maneuver;
      state := Maneuver;
    }

    /** `setTarget`: retargeting to the current target is a no-op; any other
        target (and always clearing to none) restarts in maneuver, not yet reached. */
    method SetTarget(t: Option<EntityId>)
      modifies this`state, this`target, this`targetReached
      ensures t.Some? && t == old(target) ==>
                state == old(state) && target == old(target) && targetReached == old(targetReached)
      ensures t.None? || t != old(target) ==>
                target == t && state == Maneuver && !targetReached
    {
      var shouldUpdate := if t.None? then true else t != target;
      if shouldUpdate {
        state := Maneuver;
        target := t;
        targetReached := false;
      }
    }

    /** `clearTarget`: no target, maneuvering, and treated as already there. */
    method ClearTarget()
      modifies this`state, this`target, this`targetReached
      ensures target == None && state == Maneuver && targetReached
    {
      SetTarget(None);
      targetReached := true;
    }
  }
}
