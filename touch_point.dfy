/**
 * A touch trail (`TouchPoint.h`): a polyline that only grows, a colour,
 * and a time of death. A trail that never started dying has the time of
 * death -1, so it counts as dead as soon as the clock is past -1. The
 * current time is an input.
 */
module Touches {
  import opened Vectors

  /** How long a trail takes to die once `startDying` is called, in seconds. */
  const DyingSeconds := 2.0

  /** The time of death that `startDying` sets at time `now`. */
  function DeathTime(now: real): real {
    now + DyingSeconds
  }

  class TouchPoint {
    var line: seq<Vec2>
    var color: Color
    var timeOfDeath: real

    /** The trail starts at `initialPoint` and has not started dying. */
    constructor(initialPoint: Vec2, color: Color)
      ensures line == [initialPoint] && this.color == color && timeOfDeath == -1.0
    {
      line := [initialPoint];
      this.color := color;
      timeOfDeath := -1.0;
    }

    method AddPoint(point: Vec2)
      modifies this`line
      ensures line == old(line) + [point]
    {
      line := line + [point];
    }

    method StartDying(now: real)
      modifies this`timeOfDeath
      ensures timeOfDeath == DeathTime(now)
    {
      timeOfDeath := now + DyingSeconds;
    }

    /** Dead once the clock is strictly past the time of death. */
    predicate IsDead(now: real)
      reads this
    {
      now > timeOfDeath
    }
  }

  /** A trail that has not started dying is dead at every time after -1. */
  method NewTrailIsDead(initialPoint: Vec2, color: Color, now: real) returns (dead: bool)
    ensures dead <==> now > -1.0
  {
    var t := new TouchPoint(initialPoint, color);
    dead := t.IsDead(now);
  }

  /**
   * After `startDying(start)` the trail is alive up to `start + 2` and dead
   * after it, and the points drawn so far are kept.
   */
  method DyingTrail(t: TouchPoint, start: real, now: real) returns (dead: bool)
    modifies t`timeOfDeath
    ensures dead <==> now > start + 2.0
    ensures t.line == old(t.line)
  {
    t.StartDying(start);
    dead := t.IsDead(now);
  }
}
