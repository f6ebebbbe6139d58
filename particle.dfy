/**
 * A particle of the swarm (`Particle.cpp`): a point that integrates its
 * velocity and accumulated forces, keeps itself inside an area by bouncing
 * or wrapping, and steers by three flocking rules.
 *
 * Every operation is given twice: as a function on `Body`, the value of a
 * particle's state, and as a method of `Particle` that updates the fields in
 * place and is proved to agree with the function. The properties are lemmas
 * about the functions.
 */
module Particles {
  import opened Vectors

  /** `ci::Area`: an integer rectangle from (x1, y1) to (x2, y2). */
  datatype Area = Area(x1: int, y1: int, x2: int, y2: int)

  /** The part of a particle's state that the simulation reads or writes. */
  datatype Body = Body(
    position: Vec2, prevPosition: Vec2, velocity: Vec2, forces: Vec2,
    radius: real, mass: real, maxSpeed: real, maxForce: real,
    targetSeparation: real, neighboringDistance: real,
    separationEnabled: bool, separationFactor: real,
    alignmentEnabled: bool, alignmentFactor: real,
    cohesionEnabled: bool, cohesionFactor: real)

  const MaxRadius := 10.0
  const InitialMaxSpeed := 1.0
  const InitialMaxForce := 0.05

  /**
   * The radius the constructor gives a particle: 1.6 times the ratio of its
   * two flocking thresholds, but never more than 10.
   */
  function DerivedRadius(targetSeparation: real, neighboringDistance: real): (r: real)
    requires neighboringDistance != 0.0
    ensures r <= MaxRadius
    ensures r == MaxRadius || r == targetSeparation / neighboringDistance * 1.6
    ensures targetSeparation / neighboringDistance * 1.6 <= MaxRadius ==>
              r == targetSeparation / neighboringDistance * 1.6
  {
    var ratio := targetSeparation / neighboringDistance * 1.6;
    if ratio > MaxRadius then MaxRadius else ratio
  }

  // ---------------------------------------------------------------------
  // Integration

  /** `update`: move by velocity plus forces over mass, remember where it was, and clear the forces. */
  function Integrated(b: Body): Body
    requires b.mass != 0.0
  {
    b.(position := b.position.Plus(b.velocity.Plus(b.forces.Scale(1.0 / b.mass))),
       prevPosition := b.position,
       forces := Zero)
  }

  /** Forces are an accumulator: one step consumes them, and without them the particle moves by its velocity. */
  lemma IntegrationStep(b: Body)
    requires b.mass != 0.0
    ensures var r := Integrated(b);
      && r.prevPosition == b.position
      && r.position.Minus(r.prevPosition) == b.velocity.Plus(b.forces.Scale(1.0 / b.mass))
      && r.forces == Zero
      && r == b.(position := r.position, prevPosition := r.prevPosition, forces := Zero)
      && (b.forces == Zero ==> r.position == b.position.Plus(b.velocity))
  {
  }

  // ---------------------------------------------------------------------
  // Boundary policies

  predicate AtVerticalEdge(p: Vec2, area: Area) {
    p.x <= area.x1 as real || p.x >= area.x2 as real
  }

  predicate AtHorizontalEdge(p: Vec2, area: Area) {
    p.y <= area.y1 as real || p.y >= area.y2 as real
  }

  /** `borders(true)`: reverse each velocity component whose edge has been reached. */
  function Bounced(b: Body, area: Area): Body {
    var vx := if AtVerticalEdge(b.position, area) then b.velocity.x * -1.0 else b.velocity.x;
    var vy := if AtHorizontalEdge(b.position, area) then b.velocity.y * -1.0 else b.velocity.y;
    b.(velocity := Vec2(vx, vy))
  }

  /**
   * `borders(false)`: the first edge (left, top, right, bottom) that the
   * particle's rim has reached sends it to the opposite edge, one radius in.
   */
  function Wrapped(b: Body, area: Area): Body {
    var p, r := b.position, b.radius;
    if p.x <= area.x1 as real + r then b.(position := Vec2(area.x2 as real - r, p.y))
    else if p.y <= area.y1 as real + r then b.(position := Vec2(p.x, area.y2 as real - r))
    else if p.x >= area.x2 as real - r then b.(position := Vec2(area.x1 as real + r, p.y))
    else if p.y >= area.y2 as real - r then b.(position := Vec2(p.x, area.y1 as real + r))
    else b
  }

  function Bordered(b: Body, area: Area, bounce: bool): Body {
    if bounce then Bounced(b, area) else Wrapped(b, area)
  }

  /**
   * Bouncing only touches the velocity, reverses exactly the components
   * whose edge was reached, and undoes itself when applied twice.
   */
  lemma BounceReflects(b: Body, area: Area)
    ensures var r := Bordered(b, area, true);
      && r == b.(velocity := r.velocity)
      && r.velocity.x == (if AtVerticalEdge(b.position, area) then -b.velocity.x else b.velocity.x)
      && r.velocity.y == (if AtHorizontalEdge(b.position, area) then -b.velocity.y else b.velocity.y)
      && Bordered(r, area, true) == b
      && (b.velocity.x > 0.0 && b.position.x >= area.x2 as real ==> r.velocity.x < 0.0)
  {
  }

  /**
   * Wrapping never touches the velocity and rewrites at most one
   * coordinate, with left taking precedence over top, top over right and
   * right over bottom; each edge sends the particle one radius inside the
   * opposite one, and a particle clear of every edge stays put.
   */
  lemma WrapTeleports(b: Body, area: Area)
    ensures var r := Bordered(b, area, false);
      var p, rad := b.position, b.radius;
      && r == b.(position := r.position)
      && (r.position.x == p.x || r.position.y == p.y)
      && (p.x <= area.x1 as real + rad ==> r.position == Vec2(area.x2 as real - rad, p.y))
      && (p.x > area.x1 as real + rad && p.y <= area.y1 as real + rad ==>
            r.position == Vec2(p.x, area.y2 as real - rad))
      && (p.x > area.x1 as real + rad && p.y > area.y1 as real + rad && p.x >= area.x2 as real - rad ==>
            r.position == Vec2(area.x1 as real + rad, p.y))
      && (p.x > area.x1 as real + rad && p.y > area.y1 as real + rad && p.x < area.x2 as real - rad &&
          p.y >= area.y2 as real - rad ==>
            r.position == Vec2(p.x, area.y1 as real + rad))
      && ((area.x1 as real + rad < p.x < area.x2 as real - rad &&
           area.y1 as real + rad < p.y < area.y2 as real - rad) ==> r == b)
  {
  }

  // ---------------------------------------------------------------------
  // Neighbour scans

  /** The neighbour test of all three rules: `0 < |p - q| < radius`. */
  predicate Near(len: Vec2 -> real, p: Vec2, q: Vec2, radius: real) {
    0.0 < len(p.Minus(q)) && len(p.Minus(q)) < radius
  }

  /** How many of `qs` are neighbours of `p` within `radius`. */
  function NeighbourCount(len: Vec2 -> real, p: Vec2, radius: real, qs: seq<Body>): nat
  {
    if qs == [] then 0
    else NeighbourCount(len, p, radius, qs[..|qs| - 1])
         + (if Near(len, p, qs[|qs| - 1].position, radius) then 1 else 0)
  }

  /** `separate`'s accumulator: the unit vectors away from each close particle, divided by the distance. */
  function SeparationSum(len: Vec2 -> real, b: Body, qs: seq<Body>): Vec2
  {
    if qs == [] then Zero
    else
      var acc := SeparationSum(len, b, qs[..|qs| - 1]);
      var q := qs[|qs| - 1];
      var diff := b.position.Minus(q.position);
      if Near(len, b.position, q.position, b.targetSeparation)
      then acc.Plus(Normalized(len, diff).Scale(1.0 / len(diff)))
      else acc
  }

  /** `align`'s accumulator: the sum of the neighbours' velocities. */
  function VelocitySum(len: Vec2 -> real, b: Body, qs: seq<Body>): Vec2
  {
    if qs == [] then Zero
    else
      var acc := VelocitySum(len, b, qs[..|qs| - 1]);
      var q := qs[|qs| - 1];
      if Near(len, b.position, q.position, b.neighboringDistance) then acc.Plus(q.velocity) else acc
  }

  /** Divide by the count when there is something to average. */
  function Average(v: Vec2, count: nat): Vec2 {
    if count > 0 then v.Scale(1.0 / count as real) else v
  }

  /** The steering formula: full-speed desired velocity along `v`, minus the current velocity, limited to `maxForce`. */
  function Steering(len: Vec2 -> real, b: Body, v: Vec2): Vec2
    requires len(v) != 0.0
  {
    Limit(len, Normalized(len, v).Scale(b.maxSpeed).Minus(b.velocity), b.maxForce)
  }

  /** The common tail of `separate` and `align`: steer along a non-zero average, keep a zero one. */
  function SteerAlong(len: Vec2 -> real, b: Body, v: Vec2): Vec2 {
    if len(v) > 0.0 then Steering(len, b, v) else v
  }

  /** `separate(particles)`. */
  function SeparationOf(len: Vec2 -> real, b: Body, qs: seq<Body>): Vec2 {
    SteerAlong(len, b, Average(SeparationSum(len, b, qs), NeighbourCount(len, b.position, b.targetSeparation, qs)))
  }

  /** `align(particles)`. */
  function AlignmentOf(len: Vec2 -> real, b: Body, qs: seq<Body>): Vec2 {
    SteerAlong(len, b, Average(VelocitySum(len, b, qs), NeighbourCount(len, b.position, b.neighboringDistance, qs)))
  }

  /** The desired velocity of `steer`: full speed toward the target, or slower within 100 units when `slowdown` is set. */
  function Desired(len: Vec2 -> real, b: Body, offset: Vec2, slowdown: bool): Vec2
    requires len(offset) != 0.0
  {
    var d := len(offset);
    if slowdown && d < 100.0
    then Normalized(len, offset).Scale(b.maxSpeed * (d / 100.0))
    else Normalized(len, offset).Scale(b.maxSpeed)
  }

  /** `steer(target, slowdown)`. */
  function SteerToward(len: Vec2 -> real, b: Body, target: Vec2, slowdown: bool): Vec2 {
    var desired := target.Minus(b.position);
    if len(desired) > 0.0 then Limit(len, Desired(len, b, desired, slowdown).Minus(b.velocity), b.maxForce)
    else Zero
  }

  /** `cohesion`'s loop state: the accumulator and the neighbour count. */
  datatype Tally = Tally(sum: Vec2, count: nat)

  /**
   * `cohesion`'s loop as written: the accumulator is re-steered and a
   * neighbour's position added only while the accumulator is non-zero.
   */
  function CohesionScan(len: Vec2 -> real, b: Body, qs: seq<Body>): Tally
  {
    if qs == [] then Tally(Zero, 0)
    else
      var t := CohesionScan(len, b, qs[..|qs| - 1]);
      var q := qs[|qs| - 1];
      if len(t.sum) > 0.0 then
        var steered := Steering(len, b, t.sum);
        if Near(len, b.position, q.position, b.neighboringDistance)
        then Tally(steered.Plus(q.position), t.count + 1)
        else Tally(steered, t.count)
      else t
  }

  /** `cohesion(particles)`. */
  function CohesionOf(len: Vec2 -> real, b: Body, qs: seq<Body>): Vec2 {
    var t := CohesionScan(len, b, qs);
    if t.count > 0 then SteerToward(len, b, t.sum.Scale(1.0 / t.count as real), false) else t.sum
  }

  /** `flock(particles)`: the enabled, weighted rules are added to the velocity, which is then limited to `maxSpeed`. */
  function FlockVelocity(len: Vec2 -> real, b: Body, qs: seq<Body>): Vec2 {
    var acc1 := if b.separationEnabled then Zero.Plus(SeparationOf(len, b, qs).Scale(b.separationFactor)) else Zero;
    var acc2 := if b.alignmentEnabled then acc1.Plus(AlignmentOf(len, b, qs).Scale(b.alignmentFactor)) else acc1;
    var acc3 := if b.cohesionEnabled then acc2.Plus(CohesionOf(len, b, qs).Scale(b.cohesionFactor)) else acc2;
    Limit(len, b.velocity.Plus(acc3), b.maxSpeed)
  }

  function Flocked(len: Vec2 -> real, b: Body, qs: seq<Body>): Body {
    b.(velocity := FlockVelocity(len, b, qs))
  }

  // ---------------------------------------------------------------------
  // Properties of the scans

  /** Exactly the neighbours are counted: the count is zero iff no particle is near. */
  lemma {:induction false} NeighbourCountZeroIff(len: Vec2 -> real, p: Vec2, radius: real, qs: seq<Body>)
    ensures NeighbourCount(len, p, radius, qs) == 0 <==>
            forall i :: 0 <= i < |qs| ==> !Near(len, p, qs[i].position, radius)
  {
    if qs != [] {
      var front := qs[..|qs| - 1];
      NeighbourCountZeroIff(len, p, radius, front);
      assert forall i :: 0 <= i < |front| ==> front[i] == qs[i];
    }
  }

  /** A particle at the same place, the particle itself included, is never a neighbour. */
  lemma CoincidentNeverNear(len: Vec2 -> real, p: Vec2, q: Vec2, radius: real)
    requires len(Zero) == 0.0 && q == p
    ensures !Near(len, p, q, radius)
  {
    assert p.Minus(q) == Zero;
  }

  lemma {:induction false} SeparationSumWithoutNeighbours(len: Vec2 -> real, b: Body, qs: seq<Body>)
    requires NeighbourCount(len, b.position, b.targetSeparation, qs) == 0
    ensures SeparationSum(len, b, qs) == Zero
  {
    if qs != [] {
      SeparationSumWithoutNeighbours(len, b, qs[..|qs| - 1]);
    }
  }

  lemma {:induction false} VelocitySumWithoutNeighbours(len: Vec2 -> real, b: Body, qs: seq<Body>)
    requires NeighbourCount(len, b.position, b.neighboringDistance, qs) == 0
    ensures VelocitySum(len, b, qs) == Zero
  {
    if qs != [] {
      VelocitySumWithoutNeighbours(len, b, qs[..|qs| - 1]);
    }
  }

  /** With nobody strictly between distance 0 and the threshold, `separate` and `align` return the zero vector. */
  lemma NoNeighboursNoSteering(len: Vec2 -> real, b: Body, qs: seq<Body>)
    requires len(Zero) == 0.0
    ensures NeighbourCount(len, b.position, b.targetSeparation, qs) == 0 ==> SeparationOf(len, b, qs) == Zero
    ensures NeighbourCount(len, b.position, b.neighboringDistance, qs) == 0 ==> AlignmentOf(len, b, qs) == Zero
  {
    if NeighbourCount(len, b.position, b.targetSeparation, qs) == 0 {
      SeparationSumWithoutNeighbours(len, b, qs);
    }
    if NeighbourCount(len, b.position, b.neighboringDistance, qs) == 0 {
      VelocitySumWithoutNeighbours(len, b, qs);
    }
  }

  lemma SteerAlongBounded(len: Vec2 -> real, b: Body, v: Vec2)
    requires IsLength(len) && b.maxForce >= 0.0
    ensures len(SteerAlong(len, b, v)) <= b.maxForce
  {
    if len(v) > 0.0 {
      LimitBounded(len, Normalized(len, v).Scale(b.maxSpeed).Minus(b.velocity), b.maxForce);
    }
  }

  /** Every steering vector is limited to `maxForce`. */
  lemma SteeringBounded(len: Vec2 -> real, b: Body, qs: seq<Body>, target: Vec2, slowdown: bool)
    requires IsLength(len) && b.maxForce >= 0.0
    ensures len(SeparationOf(len, b, qs)) <= b.maxForce
    ensures len(AlignmentOf(len, b, qs)) <= b.maxForce
    ensures len(SteerToward(len, b, target, slowdown)) <= b.maxForce
  {
    SteerAlongBounded(len, b, Average(SeparationSum(len, b, qs), NeighbourCount(len, b.position, b.targetSeparation, qs)));
    SteerAlongBounded(len, b, Average(VelocitySum(len, b, qs), NeighbourCount(len, b.position, b.neighboringDistance, qs)));
    var desired := target.Minus(b.position);
    if len(desired) > 0.0 {
      LimitBounded(len, Desired(len, b, desired, slowdown).Minus(b.velocity), b.maxForce);
    }
  }

  /** Steering toward the particle's own position gives the zero vector. */
  lemma SteerAtTarget(len: Vec2 -> real, b: Body, slowdown: bool)
    requires len(Zero) == 0.0
    ensures SteerToward(len, b, b.position, slowdown) == Zero
  {
    assert b.position.Minus(b.position) == Zero;
  }

  /** The accumulator of `cohesion` starts at zero and so its loop body never runs. */
  lemma {:induction false} CohesionScanIdle(len: Vec2 -> real, b: Body, qs: seq<Body>)
    requires len(Zero) == 0.0
    ensures CohesionScan(len, b, qs) == Tally(Zero, 0)
  {
    if qs != [] {
      CohesionScanIdle(len, b, qs[..|qs| - 1]);
    }
  }

  /** `cohesion` always returns the zero vector. */
  lemma CohesionIsZero(len: Vec2 -> real, b: Body, qs: seq<Body>)
    requires len(Zero) == 0.0
    ensures CohesionOf(len, b, qs) == Zero
  {
    CohesionScanIdle(len, b, qs);
  }

  /** After flocking the speed never exceeds `maxSpeed`. */
  lemma FlockBounded(len: Vec2 -> real, b: Body, qs: seq<Body>)
    requires IsLength(len) && b.maxSpeed >= 0.0
    ensures len(FlockVelocity(len, b, qs)) <= b.maxSpeed
  {
    var acc1 := if b.separationEnabled then Zero.Plus(SeparationOf(len, b, qs).Scale(b.separationFactor)) else Zero;
    var acc2 := if b.alignmentEnabled then acc1.Plus(AlignmentOf(len, b, qs).Scale(b.alignmentFactor)) else acc1;
    var acc3 := if b.cohesionEnabled then acc2.Plus(CohesionOf(len, b, qs).Scale(b.cohesionFactor)) else acc2;
    LimitBounded(len, b.velocity.Plus(acc3), b.maxSpeed);
  }

  /**
   * With separation and alignment off, flocking adds nothing to the
   * velocity before limiting it, whether or not cohesion is on.
   */
  lemma FlockOnlyLimitsWithoutSeparationAndAlignment(len: Vec2 -> real, b: Body, qs: seq<Body>)
    requires len(Zero) == 0.0 && !b.separationEnabled && !b.alignmentEnabled
    ensures FlockVelocity(len, b, qs) == Limit(len, b.velocity, b.maxSpeed)
  {
    var acc3 := if b.cohesionEnabled then Zero.Plus(CohesionOf(len, b, qs).Scale(b.cohesionFactor)) else Zero;
    CohesionIsZero(len, b, qs);
    assert acc3 == Zero;
    assert b.velocity.Plus(acc3) == b.velocity;
  }

  // ---------------------------------------------------------------------
  // The particle object

  class Particle {
    var position: Vec2
    var prevPosition: Vec2
    const anchor: Vec2
    var velocity: Vec2
    var forces: Vec2
    const color: Color
    const radius: real
    const mass: real
    const drag: real
    const maxSpeed: real
    const maxForce: real
    const targetSeparation: real
    const neighboringDistance: real
    var separationEnabled: bool
    var separationFactor: real
    var alignmentEnabled: bool
    var alignmentFactor: real
    var cohesionEnabled: bool
    var cohesionFactor: real

    function State(): Body
      reads this
    {
      Body(position, prevPosition, velocity, forces, radius, mass, maxSpeed, maxForce,
           targetSeparation, neighboringDistance,
           separationEnabled, separationFactor, alignmentEnabled, alignmentFactor,
           cohesionEnabled, cohesionFactor)
    }

    /** The `radius` argument is stored and at once overwritten by the derived radius, so it has no effect. */
    constructor (position: Vec2, radius: real, mass: real, drag: real,
                 targetSeparation: real, neighboringDistance: real, color: Color)
      requires neighboringDistance != 0.0
      ensures this.position == position && prevPosition == position && anchor == position
      ensures velocity == Zero && forces == Zero
      ensures this.radius == DerivedRadius(targetSeparation, neighboringDistance)
      ensures this.mass == mass && this.drag == drag && this.color == color
      ensures this.targetSeparation == targetSeparation && this.neighboringDistance == neighboringDistance
      ensures maxSpeed == InitialMaxSpeed && maxForce == InitialMaxForce
      ensures !separationEnabled && !alignmentEnabled && !cohesionEnabled
      ensures separationFactor == 1.0 && alignmentFactor == 1.0 && cohesionFactor == 1.0
    {
      this.position := position;
      this.mass := mass;
      this.drag := drag;
      this.targetSeparation := targetSeparation;
      this.neighboringDistance := neighboringDistance;
      this.color := color;
      this.maxSpeed := InitialMaxSpeed;
      this.maxForce := InitialMaxForce;
      this.radius := DerivedRadius(targetSeparation, neighboringDistance);
      anchor := position;
      prevPosition := position;
      velocity := Zero;
      forces := Zero;
      separationEnabled := false;
      separationFactor := 1.0;
      alignmentEnabled := false;
      alignmentFactor := 1.0;
      cohesionEnabled := false;
      cohesionFactor := 1.0;
    }

    method Update()
      requires mass != 0.0
      modifies this`position, this`prevPosition, this`forces
      ensures State() == Integrated(old(State()))
      ensures prevPosition == old(position) && forces == Zero
    {
      var temp := position;
      position := position.Plus(velocity.Plus(forces.Scale(1.0 / mass)));
      prevPosition := temp;
      forces := Zero;
    }

    method Borders(area: Area, bounce: bool)
      modifies this`position, this`velocity
      ensures State() == Bordered(old(State()), area, bounce)
    {
      if bounce {
        if position.x <= area.x1 as real || position.x >= area.x2 as real {
          velocity := Vec2(velocity.x * -1.0, velocity.y);
        }
        if position.y <= area.y1 as real || position.y >= area.y2 as real {
          velocity := Vec2(velocity.x, velocity.y * -1.0);
        }
      } else {
        if position.x <= area.x1 as real + radius {
          position := Vec2(area.x2 as real - radius, position.y);
        } else if position.y <= area.y1 as real + radius {
          position := Vec2(position.x, area.y2 as real - radius);
        } else if position.x >= area.x2 as real - radius {
          position := Vec2(area.x1 as real + radius, position.y);
        } else if position.y >= area.y2 as real - radius {
          position := Vec2(position.x, area.y1 as real + radius);
        }
      }
    }

    method Flock(ps: seq<Particle>, len: Vec2 -> real)
      modifies this`velocity
      ensures State() == Flocked(len, old(State()), old(Bodies(ps)))
    {
      var acc := Zero;
      if separationEnabled {
        var s := Separate(ps, len);
        acc := acc.Plus(s.Scale(separationFactor));
      }
      if alignmentEnabled {
        var a := Align(ps, len);
        acc := acc.Plus(a.Scale(alignmentFactor));
      }
      if cohesionEnabled {
        var c := Cohesion(ps, len);
        acc := acc.Plus(c.Scale(cohesionFactor));
      }
      velocity := velocity.Plus(acc);
      velocity := Limit(len, velocity, maxSpeed);
    }

    method Separate(ps: seq<Particle>, len: Vec2 -> real) returns (r: Vec2)
      ensures r == SeparationOf(len, State(), Bodies(ps))
    {
      ghost var bs := Bodies(ps);
      var resultVec := Zero;
      var count := 0;
      for i := 0 to |ps|
        invariant resultVec == SeparationSum(len, State(), bs[..i])
        invariant count == NeighbourCount(len, position, targetSeparation, bs[..i])
      {
        assert bs[..i + 1][..i] == bs[..i];
        var diffVec := position.Minus(ps[i].position);
        if len(diffVec) > 0.0 && len(diffVec) < targetSeparation {
          resultVec := resultVec.Plus(Normalized(len, diffVec).Scale(1.0 / len(diffVec)));
          count := count + 1;
        }
      }
      assert bs[..|ps|] == bs;
      if count > 0 {
        resultVec := resultVec.Scale(1.0 / count as real);
      }
      if len(resultVec) > 0.0 {
        resultVec := Normalized(len, resultVec);
        resultVec := resultVec.Scale(maxSpeed);
        resultVec := resultVec.Minus(velocity);
        resultVec := Limit(len, resultVec, maxForce);
      }
      r := resultVec;
    }

    method Align(ps: seq<Particle>, len: Vec2 -> real) returns (r: Vec2)
      ensures r == AlignmentOf(len, State(), Bodies(ps))
    {
      ghost var bs := Bodies(ps);
      var resultVec := Zero;
      var count := 0;
      for i := 0 to |ps|
        invariant resultVec == VelocitySum(len, State(), bs[..i])
        invariant count == NeighbourCount(len, position, neighboringDistance, bs[..i])
      {
        assert bs[..i + 1][..i] == bs[..i];
        var diffVec := position.Minus(ps[i].position);
        if len(diffVec) > 0.0 && len(diffVec) < neighboringDistance {
          resultVec := resultVec.Plus(ps[i].velocity);
          count := count + 1;
        }
      }
      assert bs[..|ps|] == bs;
      if count > 0 {
        resultVec := resultVec.Scale(1.0 / count as real);
      }
      if len(resultVec) > 0.0 {
        resultVec := Normalized(len, resultVec);
        resultVec := resultVec.Scale(maxSpeed);
        resultVec := resultVec.Minus(velocity);
        resultVec := Limit(len, resultVec, maxForce);
      }
      r := resultVec;
    }

    method Cohesion(ps: seq<Particle>, len: Vec2 -> real) returns (r: Vec2)
      ensures r == CohesionOf(len, State(), Bodies(ps))
      ensures len(Zero) == 0.0 ==> r == Zero
    {
      ghost var bs := Bodies(ps);
      var resultVec := Zero;
      var count := 0;
      for i := 0 to |ps|
        invariant Tally(resultVec, count) == CohesionScan(len, State(), bs[..i])
      {
        assert bs[..i + 1][..i] == bs[..i];
        if len(resultVec) > 0.0 {
          resultVec := Normalized(len, resultVec);
          resultVec := resultVec.Scale(maxSpeed);
          resultVec := resultVec.Minus(velocity);
          resultVec := Limit(len, resultVec, maxForce);
          var d := len(position.Minus(ps[i].position));
          if d > 0.0 && d < neighboringDistance {
            resultVec := resultVec.Plus(ps[i].position);
            count := count + 1;
          }
        }
      }
      assert bs[..|ps|] == bs;
      if count > 0 {
        resultVec := resultVec.Scale(1.0 / count as real);
        r := SteerToward(len, State(), resultVec, false);
      } else {
        r := resultVec;
      }
      if len(Zero) == 0.0 {
        CohesionIsZero(len, State(), bs);
      }
    }
  }

  /** The states of a list of particles, in list order. */
  function Bodies(ps: seq<Particle>): (bs: seq<Body>)
    reads set p | p in ps
    ensures |bs| == |ps|
    ensures forall i :: 0 <= i < |ps| ==> bs[i] == ps[i].State()
  {
    seq(|ps|, i requires 0 <= i < |ps| reads set p | p in ps => ps[i].State())
  }
}
