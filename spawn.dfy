/**
 * The spawn-and-link rule that runs on a beat (`ParticleSystemApp.cpp`,
 * inside `ClimaxApp::update`): a number of new particles proportional to
 * the beat value is spawned one after another; before a new particle joins
 * the system, it gets a spring to every particle already there that lies
 * within a reach set by the two radii.
 *
 * The rule is specified by `Plan`, a list of `Link`s over indices into the
 * particle list as it is after the spawn.
 */
module Spawning {
  import opened Vectors
  import opened Particles
  import opened Springs
  import opened ParticleSystems

  /** Where a particle is and how large it is: all the rule looks at. */
  datatype Dot = Dot(position: Vec2, radius: real)

  /** A spring from particle `from` to particle `to` with rest length `rest`. */
  datatype Link = Link(from: nat, to: nat, rest: real)

  const ParticlesPerBeat := 40.0
  const ReachPerRadius := 100.0
  const MaxReach := 500.0
  const RestStretch := 1.2
  const SpawnStrength := 0.001
  const SpawnDrag := 0.95

  /** `(int)(beatValue * 40)`: the conversion truncates toward zero. */
  function SpawnCount(beatValue: real): (n: int)
    ensures beatValue >= 0.0 ==> 0 <= n && n as real <= beatValue * ParticlesPerBeat < n as real + 1.0
    ensures beatValue < 0.0 ==> n <= 0 && n as real - 1.0 < beatValue * ParticlesPerBeat <= n as real
  {
    var x := beatValue * ParticlesPerBeat;
    if x >= 0.0 then x.Floor else -((-x).Floor)
  }

  /** The mass a spawn gives its particles: the square of their radius. */
  function SpawnMass(radius: real): real {
    radius * radius
  }

  /** The number of particles the loop creates: none for a negative count. */
  function Spawned(beatValue: real): nat {
    var n := SpawnCount(beatValue);
    if n < 0 then 0 else n
  }

  /** Spawning happens only on a strong enough beat with the force centre strictly inside the window. */
  predicate Gate(beatForce: real, minimumBeatForce: real, forceCenter: Vec2, width: real, height: real) {
    beatForce > minimumBeatForce
    && 0.0 < forceCenter.x < width && 0.0 < forceCenter.y < height
  }

  /** The distance gate: apart, within the summed radii times 100, and that reach below 500. */
  predicate Linkable(len: Vec2 -> real, a: Dot, b: Dot) {
    var d := len(a.position.Minus(b.position));
    var reach := (a.radius + b.radius) * ReachPerRadius;
    0.0 < d <= reach && reach < MaxReach
  }

  /** The links a new particle `d`, to become index `from`, gets to `dots`, in list order. */
  function LinksTo(len: Vec2 -> real, dots: seq<Dot>, from: nat, d: Dot): seq<Link>
    decreases |dots|
  {
    if dots == [] then []
    else
      var k := |dots| - 1;
      LinksTo(len, dots[..k], from, d)
      + (if Linkable(len, d, dots[k]) then [Link(from, k, len(d.position.Minus(dots[k].position)) * RestStretch)] else [])
  }

  /** The links of a whole spawn: each new particle scans the list it finds, then joins it. */
  function Plan(len: Vec2 -> real, dots: seq<Dot>, spawned: seq<Dot>): seq<Link>
    decreases |spawned|
  {
    if spawned == [] then []
    else
      var k := |spawned| - 1;
      Plan(len, dots, spawned[..k]) + LinksTo(len, dots + spawned[..k], |dots| + k, spawned[k])
  }

  /** `l` is the spring rule applied to the pair it names in `all`. */
  ghost predicate Sound(len: Vec2 -> real, all: seq<Dot>, l: Link) {
    l.to < l.from < |all|
    && Linkable(len, all[l.from], all[l.to])
    && l.rest == len(all[l.from].position.Minus(all[l.to].position)) * RestStretch
  }

  /** Links in strictly increasing (from, to) order. */
  ghost predicate Ordered(ls: seq<Link>) {
    forall m, m' :: 0 <= m < m' < |ls| ==>
      ls[m].from < ls[m'].from || (ls[m].from == ls[m'].from && ls[m].to < ls[m'].to)
  }

  /** Every link of `r` is from `from` to some particle of `dots` that passes the gate. */
  ghost predicate LinksSound(len: Vec2 -> real, dots: seq<Dot>, from: nat, d: Dot, r: seq<Link>) {
    forall m :: 0 <= m < |r| ==>
      && r[m].from == from && r[m].to < |dots|
      && Linkable(len, d, dots[r[m].to])
      && r[m].rest == len(d.position.Minus(dots[r[m].to].position)) * RestStretch
  }

  /** Every particle of `dots` that passes the gate has a link in `r`, and no other does. */
  ghost predicate LinksComplete(len: Vec2 -> real, dots: seq<Dot>, d: Dot, r: seq<Link>) {
    forall j :: 0 <= j < |dots| ==> (Linkable(len, d, dots[j]) <==> exists m :: 0 <= m < |r| && r[m].to == j)
  }

  /** Appending a particle to the scanned list can only add a link to it at the end. */
  lemma LinksToLast(len: Vec2 -> real, dots: seq<Dot>, from: nat, d: Dot)
    requires dots != []
    ensures var k := |dots| - 1;
      var r0 := LinksTo(len, dots[..k], from, d);
      var r := LinksTo(len, dots, from, d);
      && r[..|r0|] == r0
      && (Linkable(len, d, dots[k]) ==> |r| == |r0| + 1 && r[|r0|] == Link(from, k, len(d.position.Minus(dots[k].position)) * RestStretch))
      && (!Linkable(len, d, dots[k]) ==> r == r0)
  {
  }

  lemma {:induction false} LinksToSound(len: Vec2 -> real, dots: seq<Dot>, from: nat, d: Dot)
    ensures LinksSound(len, dots, from, d, LinksTo(len, dots, from, d))
  {
    if dots != [] {
      var k := |dots| - 1;
      var pre := dots[..k];
      LinksToSound(len, pre, from, d);
      LinksToLast(len, dots, from, d);
      var r := LinksTo(len, dots, from, d);
      var r0 := LinksTo(len, pre, from, d);
      forall m | 0 <= m < |r|
        ensures r[m].from == from && r[m].to < |dots|
        ensures Linkable(len, d, dots[r[m].to])
        ensures r[m].rest == len(d.position.Minus(dots[r[m].to].position)) * RestStretch
      {
        if m < |r0| {
          assert r[m] == r0[m];
          assert dots[r0[m].to] == pre[r0[m].to];
        }
      }
    }
  }

  /** The targets of `r` strictly increase. */
  ghost predicate TargetsIncrease(r: seq<Link>) {
    forall m, m' :: 0 <= m < m' < |r| ==> r[m].to < r[m'].to
  }

  lemma {:induction false} LinksToOrdered(len: Vec2 -> real, dots: seq<Dot>, from: nat, d: Dot)
    ensures TargetsIncrease(LinksTo(len, dots, from, d))
  {
    if dots != [] {
      var k := |dots| - 1;
      LinksToOrdered(len, dots[..k], from, d);
      LinksToSound(len, dots[..k], from, d);
      LinksToLast(len, dots, from, d);
    }
  }

  lemma {:induction false} LinksToComplete(len: Vec2 -> real, dots: seq<Dot>, from: nat, d: Dot)
    ensures LinksComplete(len, dots, d, LinksTo(len, dots, from, d))
  {
    if dots != [] {
      var k := |dots| - 1;
      var pre := dots[..k];
      LinksToComplete(len, pre, from, d);
      LinksToSound(len, pre, from, d);
      LinksToLast(len, dots, from, d);
      var r := LinksTo(len, dots, from, d);
      var r0 := LinksTo(len, pre, from, d);
      forall j | 0 <= j < k
        ensures Linkable(len, d, dots[j]) <==> exists m :: 0 <= m < |r| && r[m].to == j
      {
        assert dots[j] == pre[j];
        if Linkable(len, d, dots[j]) {
          var m :| 0 <= m < |r0| && r0[m].to == j;
          assert r[m] == r0[m];
        } else {
          forall m | 0 <= m < |r|
            ensures r[m].to != j
          {
            if m < |r0| {
              assert r[m] == r0[m];
            }
          }
        }
      }
      if Linkable(len, d, dots[k]) {
        assert r[|r0|].to == k;
      } else {
        forall m | 0 <= m < |r|
          ensures r[m].to != k
        {
          assert r[m] == r0[m];
        }
      }
    }
  }

  /** Each new particle is appended after its scan, so its links are the last ones of the plan so far. */
  lemma PlanLast(len: Vec2 -> real, dots: seq<Dot>, spawned: seq<Dot>)
    requires spawned != []
    ensures var k := |spawned| - 1;
      Plan(len, dots, spawned) == Plan(len, dots, spawned[..k]) + LinksTo(len, dots + spawned[..k], |dots| + k, spawned[k])
  {
  }

  /** Every link of `p` starts at a new particle and is `Sound` in `all`. */
  ghost predicate PlanSoundIn(len: Vec2 -> real, dots: seq<Dot>, all: seq<Dot>, p: seq<Link>) {
    forall m :: 0 <= m < |p| ==> |dots| <= p[m].from && Sound(len, all, p[m])
  }

  /**
   * Every planned link joins a new particle to one listed before it (so
   * never to itself) that passes the distance gate, with rest length 1.2
   * times their distance.
   */
  lemma {:induction false} PlanSound(len: Vec2 -> real, dots: seq<Dot>, spawned: seq<Dot>)
    ensures PlanSoundIn(len, dots, dots + spawned, Plan(len, dots, spawned))
  {
    if spawned != [] {
      var k := |spawned| - 1;
      var all := dots + spawned;
      var seen := dots + spawned[..k];
      PlanSound(len, dots, spawned[..k]);
      LinksToSound(len, seen, |dots| + k, spawned[k]);
      var p0 := Plan(len, dots, spawned[..k]);
      var r := LinksTo(len, seen, |dots| + k, spawned[k]);
      var p := Plan(len, dots, spawned);
      assert p == p0 + r;
      assert all[|dots| + k] == spawned[k];
      forall m | 0 <= m < |p|
        ensures |dots| <= p[m].from && Sound(len, all, p[m])
      {
        if m < |p0| {
          assert p[m] == p0[m];
          assert |dots| <= p0[m].from && Sound(len, seen, p0[m]);
          assert all[p0[m].from] == seen[p0[m].from];
          assert all[p0[m].to] == seen[p0[m].to];
        } else {
          assert p[m] == r[m - |p0|];
          assert all[p[m].to] == seen[p[m].to];
        }
      }
    }
  }

  lemma {:induction false} LinksToFrom(len: Vec2 -> real, dots: seq<Dot>, from: nat, d: Dot)
    ensures forall l :: l in LinksTo(len, dots, from, d) ==> l.from == from
  {
    if dots != [] {
      LinksToFrom(len, dots[..|dots| - 1], from, d);
    }
  }

  lemma {:induction false} PlanFrom(len: Vec2 -> real, dots: seq<Dot>, spawned: seq<Dot>)
    ensures forall l :: l in Plan(len, dots, spawned) ==> l.from < |dots| + |spawned|
  {
    if spawned != [] {
      var k := |spawned| - 1;
      PlanFrom(len, dots, spawned[..k]);
      LinksToFrom(len, dots + spawned[..k], |dots| + k, spawned[k]);
    }
  }

  /** Links come in spawn order, and for one new particle in list order. */
  lemma {:induction false} PlanOrdered(len: Vec2 -> real, dots: seq<Dot>, spawned: seq<Dot>)
    ensures Ordered(Plan(len, dots, spawned))
  {
    if spawned != [] {
      var k := |spawned| - 1;
      var seen := dots + spawned[..k];
      PlanOrdered(len, dots, spawned[..k]);
      PlanFrom(len, dots, spawned[..k]);
      LinksToFrom(len, seen, |dots| + k, spawned[k]);
      LinksToOrdered(len, seen, |dots| + k, spawned[k]);
      PlanLast(len, dots, spawned);
      OrderedConcat(Plan(len, dots, spawned[..k]), LinksTo(len, seen, |dots| + k, spawned[k]), |dots| + k);
    }
  }

  lemma OrderedConcat(p0: seq<Link>, r: seq<Link>, from: nat)
    requires Ordered(p0) && TargetsIncrease(r)
    requires forall l :: l in p0 ==> l.from < from
    requires forall l :: l in r ==> l.from == from
    ensures Ordered(p0 + r)
  {
    var p := p0 + r;
    forall m, m' | 0 <= m < m' < |p|
      ensures p[m].from < p[m'].from || (p[m].from == p[m'].from && p[m].to < p[m'].to)
    {
      if m' < |p0| {
        assert p[m] == p0[m] && p[m'] == p0[m'];
      } else if m < |p0| {
        assert p[m] == p0[m] && p0[m] in p0;
        assert p[m'] == r[m' - |p0|] && r[m' - |p0|] in r;
      } else {
        assert p[m] == r[m - |p0|] && p[m'] == r[m' - |p0|];
        assert r[m - |p0|] in r && r[m' - |p0|] in r;
      }
    }
  }

  /**
   * Every pair of a new particle and a particle listed before it that
   * passes the gate is linked; in particular particles spawned earlier in
   * the same beat are candidates for later ones.
   */
  lemma {:induction false} PlanComplete(len: Vec2 -> real, dots: seq<Dot>, spawned: seq<Dot>, i: nat, j: nat)
    requires |dots| <= i < |dots| + |spawned| && j < i
    requires Linkable(len, (dots + spawned)[i], (dots + spawned)[j])
    ensures Linked(Plan(len, dots, spawned), i, j)
    decreases |spawned|
  {
    var k := |spawned| - 1;
    var all := dots + spawned;
    var seen := dots + spawned[..k];
    var p0 := Plan(len, dots, spawned[..k]);
    var r := LinksTo(len, seen, |dots| + k, spawned[k]);
    var p := Plan(len, dots, spawned);
    assert p == p0 + r;
    if i < |dots| + k {
      assert all[i] == seen[i] && all[j] == seen[j];
      PlanComplete(len, dots, spawned[..k], i, j);
      var m :| 0 <= m < |p0| && p0[m].from == i && p0[m].to == j;
      assert p[m] == p0[m];
    } else {
      assert all[i] == spawned[k] && all[j] == seen[j];
      ScanLinked(len, seen, |dots| + k, spawned[k], j);
      var m :| 0 <= m < |r| && r[m].from == i && r[m].to == j;
      assert p[|p0| + m] == r[m];
    }
  }

  /** The scan of `d` links it to every listed dot that passes the gate. */
  lemma ScanLinked(len: Vec2 -> real, dots: seq<Dot>, from: nat, d: Dot, j: nat)
    requires j < |dots| && Linkable(len, d, dots[j])
    ensures Linked(LinksTo(len, dots, from, d), from, j)
  {
    LinksToComplete(len, dots, from, d);
    LinksToFrom(len, dots, from, d);
    var r := LinksTo(len, dots, from, d);
    var m :| 0 <= m < |r| && r[m].to == j;
    assert r[m] in r;
  }

  /** Some link of `p` joins `i` to `j`. */
  ghost predicate Linked(p: seq<Link>, i: nat, j: nat) {
    exists m :: 0 <= m < |p| && p[m].from == i && p[m].to == j
  }

  // ---------------------------------------------------------------------
  // The spawn loop
  // ---------------------------------------------------------------------

  /** The dots of a particle list. */
  function Dots(ps: seq<Particle>): (ds: seq<Dot>)
    reads set p | p in ps
    ensures |ds| == |ps|
    ensures forall i :: 0 <= i < |ps| ==> ds[i] == Dot(ps[i].position, ps[i].radius)
  {
    seq(|ps|, i requires 0 <= i < |ps| reads set p | p in ps => Dot(ps[i].position, ps[i].radius))
  }

  /** The dots of the particles a spawn creates, all of one radius. */
  function SpawnDots(positions: seq<Vec2>, radius: real): (ds: seq<Dot>)
    ensures |ds| == |positions|
    ensures forall i :: 0 <= i < |positions| ==> ds[i] == Dot(positions[i], radius)
  {
    seq(|positions|, i requires 0 <= i < |positions| => Dot(positions[i], radius))
  }

  /** The springs `ss` are the links of `plan`, one for one, over the particle list `ps`. */
  ghost predicate Realizes(ps: seq<Particle>, ss: seq<Spring>, plan: seq<Link>) {
    |ss| == |plan|
    && forall m :: 0 <= m < |plan| ==>
         && plan[m].from < |ps| && plan[m].to < |ps|
         && ss[m].particleA == ps[plan[m].from] && ss[m].particleB == ps[plan[m].to]
         && ss[m].rest == plan[m].rest && ss[m].strength == SpawnStrength
  }

  lemma RealizesConcat(ps: seq<Particle>, ss: seq<Spring>, plan: seq<Link>, ss': seq<Spring>, plan': seq<Link>, x: Particle)
    requires Realizes(ps, ss, plan) && Realizes(ps + [x], ss', plan')
    ensures Realizes(ps + [x], ss + ss', plan + plan')
  {
    var all, ss2, plan2 := ps + [x], ss + ss', plan + plan';
    forall m | 0 <= m < |plan2|
      ensures plan2[m].from < |all| && plan2[m].to < |all|
      ensures ss2[m].particleA == all[plan2[m].from] && ss2[m].particleB == all[plan2[m].to]
      ensures ss2[m].rest == plan2[m].rest && ss2[m].strength == SpawnStrength
    {
      if m < |plan| {
        assert ss2[m] == ss[m] && plan2[m] == plan[m];
        assert all[plan[m].from] == ps[plan[m].from] && all[plan[m].to] == ps[plan[m].to];
      } else {
        assert ss2[m] == ss'[m - |ss|] && plan2[m] == plan'[m - |plan|];
      }
    }
  }

  /** The scan of one new particle over the listed ones: `addSpring` for each that passes the gate. */
  method LinkNewParticle(system: ParticleSystem, particle: Particle, len: Vec2 -> real) returns (ghost added: seq<Spring>)
    modifies system`springs
    ensures system.springs == old(system.springs) + added
    ensures Realizes(system.particles + [particle], added,
                     LinksTo(len, Dots(system.particles), |system.particles|, Dot(particle.position, particle.radius)))
  {
    added := [];
    var existing := system.particles;
    ghost var dots := Dots(existing);
    ghost var dot := Dot(particle.position, particle.radius);
    for j := 0 to |existing|
      invariant system.springs == old(system.springs) + added
      invariant Realizes(existing + [particle], added, LinksTo(len, dots[..j], |existing|, dot))
    {
      assert dots[..j + 1][..j] == dots[..j];
      var second := existing[j];
      var d := len(particle.position.Minus(second.position));
      var d2 := (particle.radius + second.radius) * ReachPerRadius;
      if d > 0.0 && d <= d2 && d2 < MaxReach {
        var spring := new Spring(particle, second, d * RestStretch, SpawnStrength);
        system.AddSpring(spring);
        added := added + [spring];
      }
    }
    assert dots[..|existing|] == dots;
  }

  /** `p` is as the particle constructor leaves it, for the arguments of a spawn. */
  ghost predicate Newborn(p: Particle, position: Vec2, mass: real, targetSeparation: real,
                          neighboringDistance: real, color: Color)
    reads p
    requires neighboringDistance != 0.0
  {
    && p.position == position && p.velocity == Zero && p.forces == Zero
    && p.radius == DerivedRadius(targetSeparation, neighboringDistance)
    && p.mass == mass && p.drag == SpawnDrag && p.color == color
    && p.targetSeparation == targetSeparation && p.neighboringDistance == neighboringDistance
    && p.prevPosition == position && p.anchor == position
    && p.maxSpeed == InitialMaxSpeed && p.maxForce == InitialMaxForce
    && !p.separationEnabled && !p.alignmentEnabled && !p.cohesionEnabled
    && p.separationFactor == 1.0 && p.alignmentFactor == 1.0 && p.cohesionFactor == 1.0
  }

  /** One iteration of the spawn loop: create the particle, link it, then append it. */
  method SpawnOne(system: ParticleSystem, len: Vec2 -> real, position: Vec2, radius: real, mass: real,
                  targetSeparation: real, neighboringDistance: real, color: Color)
    returns (particle: Particle, ghost added: seq<Spring>)
    requires system.Valid() && mass != 0.0 && neighboringDistance != 0.0
    modifies system`particles, system`springs
    ensures system.Valid() && fresh(particle)
    ensures Newborn(particle, position, mass, targetSeparation, neighboringDistance, color)
    ensures system.particles == old(system.particles) + [particle]
    ensures system.springs == old(system.springs) + added
    ensures Dots(system.particles)
         == old(Dots(system.particles)) + [Dot(position, DerivedRadius(targetSeparation, neighboringDistance))]
    ensures Realizes(system.particles, added,
                     LinksTo(len, old(Dots(system.particles)), |old(system.particles)|,
                             Dot(position, DerivedRadius(targetSeparation, neighboringDistance))))
  {
    particle := new Particle(position, radius, mass, SpawnDrag, targetSeparation, neighboringDistance, color);
    assert particle !in system.particles;
    added := LinkNewParticle(system, particle, len);
    system.AddParticle(particle);
  }

  /** The links of one more spawned particle extend the plan. */
  lemma SpawnStep(len: Vec2 -> real, ps: seq<Particle>, particle: Particle, links: seq<Spring>, added: seq<Spring>,
                  d0: seq<Dot>, positions: seq<Vec2>, i: nat, r: real)
    requires i < |positions|
    requires Realizes(ps, links, Plan(len, d0, SpawnDots(positions[..i], r)))
    requires Realizes(ps + [particle], added, LinksTo(len, d0 + SpawnDots(positions[..i], r), |d0| + i, Dot(positions[i], r)))
    ensures Realizes(ps + [particle], links + added, Plan(len, d0, SpawnDots(positions[..i + 1], r)))
    ensures d0 + SpawnDots(positions[..i + 1], r) == (d0 + SpawnDots(positions[..i], r)) + [Dot(positions[i], r)]
  {
    var seen := SpawnDots(positions[..i], r);
    var next := SpawnDots(positions[..i + 1], r);
    assert next[..i] == seen && next[i] == Dot(positions[i], r);
    assert next == seen + [next[i]];
    RealizesConcat(ps, links, Plan(len, d0, seen), added, LinksTo(len, d0 + seen, |d0| + i, next[i]), particle);
    PlanLast(len, d0, next);
  }

  /**
   * The spawn-and-link rule. Nothing happens unless the beat passes
   * `Gate`; then `Spawned(beatValue)` particles are created at the given
   * positions, and the springs created are exactly the links of `Plan`
   * over the list before the spawn and the new particles' dots.
   */
  method SpawnOnBeat(system: ParticleSystem, len: Vec2 -> real,
                     beatForce: real, minimumBeatForce: real, beatValue: real,
                     forceCenter: Vec2, width: real, height: real, positions: seq<Vec2>,
                     radius: real, targetSeparation: real, neighboringDistance: real, color: Color)
    returns (ghost born: seq<Particle>, ghost links: seq<Spring>)
    requires system.Valid()
    requires SpawnMass(radius) != 0.0 && neighboringDistance != 0.0
    requires Spawned(beatValue) <= |positions|
    modifies system`particles, system`springs
    ensures system.Valid()
    ensures |born| == if Gate(beatForce, minimumBeatForce, forceCenter, width, height) then Spawned(beatValue) else 0
    ensures Spawn(system, len, old(system.particles), old(Dots(system.particles)), old(system.springs),
                  born, links, positions, SpawnMass(radius), targetSeparation, neighboringDistance, color)
  {
    born, links := [], [];
    if Gate(beatForce, minimumBeatForce, forceCenter, width, height) {
      born, links := SpawnAll(system, len, positions, Spawned(beatValue), radius, SpawnMass(radius),
                              targetSeparation, neighboringDistance, color);
    } else {
      assert positions[..0] == [];
    }
  }

  /**
   * What a spawn of `born` did to `system`, whose particle list, its dots
   * and its spring list were `p0`, `d0` and `s0`: each new particle is
   * appended as constructed, and the new springs are the links of `Plan`.
   */
  ghost predicate Spawn(system: ParticleSystem, len: Vec2 -> real, p0: seq<Particle>, d0: seq<Dot>, s0: seq<Spring>,
                        born: seq<Particle>, links: seq<Spring>, positions: seq<Vec2>, mass: real,
                        targetSeparation: real, neighboringDistance: real, color: Color)
    reads system, (set p | p in system.particles), born
    requires neighboringDistance != 0.0
  {
    && Grown(len, p0, d0, s0, system.particles, system.springs, Dots(system.particles), born, links, positions,
             DerivedRadius(targetSeparation, neighboringDistance))
    && (forall k :: 0 <= k < |born| ==> Newborn(born[k], positions[k], mass, targetSeparation, neighboringDistance, color))
  }

  /**
   * The lists of a spawn of `born` with radius `r`: the particles `ps`, the
   * springs `ss` and the dots `ds` extend `p0`, `s0` and `d0`, and the new
   * springs are the links of `Plan`.
   */
  ghost predicate Grown(len: Vec2 -> real, p0: seq<Particle>, d0: seq<Dot>, s0: seq<Spring>,
                        ps: seq<Particle>, ss: seq<Spring>, ds: seq<Dot>,
                        born: seq<Particle>, links: seq<Spring>, positions: seq<Vec2>, r: real) {
    && |born| <= |positions|
    && ps == p0 + born && ss == s0 + links && |ds| == |ps|
    && ds == d0 + SpawnDots(positions[..|born|], r)
    && Realizes(ps, links, Plan(len, d0, SpawnDots(positions[..|born|], r)))
  }

  /** One more particle and its scan extend a spawn. */
  lemma GrownNext(len: Vec2 -> real, p0: seq<Particle>, d0: seq<Dot>, s0: seq<Spring>,
                  ps: seq<Particle>, ss: seq<Spring>, ds: seq<Dot>, born: seq<Particle>, links: seq<Spring>,
                  positions: seq<Vec2>, r: real, particle: Particle, added: seq<Spring>)
    requires |born| < |positions|
    requires Grown(len, p0, d0, s0, ps, ss, ds, born, links, positions, r)
    requires Realizes(ps + [particle], added, LinksTo(len, ds, |ps|, Dot(positions[|born|], r)))
    ensures Grown(len, p0, d0, s0, ps + [particle], ss + added, ds + [Dot(positions[|born|], r)],
                  born + [particle], links + added, positions, r)
  {
    var i := |born|;
    SpawnStep(len, ps, particle, links, added, d0, positions, i, r);
    assert ps + [particle] == p0 + (born + [particle]);
    assert ss + added == s0 + (links + added);
  }

  /** The loop `for i < count`, for a count that is not negative. */
  method SpawnAll(system: ParticleSystem, len: Vec2 -> real, positions: seq<Vec2>, count: nat,
                  radius: real, mass: real, targetSeparation: real, neighboringDistance: real, color: Color)
    returns (ghost born: seq<Particle>, ghost links: seq<Spring>)
    requires system.Valid() && count <= |positions|
    requires mass != 0.0 && neighboringDistance != 0.0
    modifies system`particles, system`springs
    ensures system.Valid() && |born| == count
    ensures forall k :: 0 <= k < |born| ==> fresh(born[k])
    ensures Spawn(system, len, old(system.particles), old(Dots(system.particles)), old(system.springs),
                  born, links, positions, mass, targetSeparation, neighboringDistance, color)
  {
    born, links := [], [];
    ghost var p0, d0 := system.particles, Dots(system.particles);
    assert positions[..0] == [];
    for i := 0 to count
      invariant system.Valid() && |born| == i
      invariant forall k :: 0 <= k < i ==> fresh(born[k])
      invariant Spawn(system, len, p0, d0, old(system.springs), born, links, positions, mass,
                      targetSeparation, neighboringDistance, color)
    {
      born, links := SpawnNext(system, len, p0, d0, old(system.springs), born, links, positions, i,
                               radius, mass, targetSeparation, neighboringDistance, color);
    }
  }

  /** `SpawnOne` for the next position, extending what the spawn has done so far. */
  method SpawnNext(system: ParticleSystem, len: Vec2 -> real, ghost p0: seq<Particle>, ghost d0: seq<Dot>,
                   ghost s0: seq<Spring>, ghost born: seq<Particle>, ghost links: seq<Spring>, positions: seq<Vec2>, i: nat,
                   radius: real, mass: real, targetSeparation: real, neighboringDistance: real, color: Color)
    returns (ghost born': seq<Particle>, ghost links': seq<Spring>)
    requires system.Valid() && mass != 0.0 && neighboringDistance != 0.0 && i == |born| < |positions|
    requires Spawn(system, len, p0, d0, s0, born, links, positions, mass, targetSeparation, neighboringDistance, color)
    modifies system`particles, system`springs
    ensures system.Valid() && |born'| == |born| + 1 && born' == born + [born'[|born|]] && fresh(born'[|born|])
    ensures Spawn(system, len, p0, d0, s0, born', links', positions, mass, targetSeparation, neighboringDistance, color)
  {
    ghost var ps, ss, ds := system.particles, system.springs, Dots(system.particles);
    var particle, added := SpawnOne(system, len, positions[i], radius, mass, targetSeparation, neighboringDistance, color);
    GrownNext(len, p0, d0, s0, ps, ss, ds, born, links, positions, DerivedRadius(targetSeparation, neighboringDistance),
              particle, added);
    forall k | 0 <= k < i
      ensures Newborn(born[k], positions[k], mass, targetSeparation, neighboringDistance, color)
    {
      assert born[k] != system as object;
    }
    links' := links + added;
    born' := born + [particle];
  }
}
