/**
 * The particle system (`ParticleSystem.cpp`): an ordered list of particles
 * and an ordered list of springs, both handled by object identity, and a
 * per-frame driver that evicts the oldest particle when the list is over
 * its limit, moves every particle, then relaxes every spring.
 *
 * The driver is specified by two value-level passes: `Sweep` over the
 * particle states and `RelaxAll` over the spring endpoints' positions.
 */
module ParticleSystems {
  import opened Vectors
  import opened Lists
  import opened Particles
  import opened Springs

  /** The number of values of `size_t` on the 64-bit targets. */
  const SizeRange: int := 0x1_0000_0000_0000_0000

  /**
   * `particles.size() > maxParticles`: the `int` limit is converted to
   * `size_t` (modulo `SizeRange`) before the comparison.
   */
  predicate ShouldEvict(count: nat, maxParticles: int) {
    count > maxParticles % SizeRange
  }

  /**
   * For a 32-bit limit and a list smaller than half the address space, the
   * oldest particle is evicted exactly when the limit is non-negative and
   * the list is longer than it; a negative limit never evicts.
   */
  lemma EvictionRule(count: nat, maxParticles: int)
    requires count < 0x8000_0000_0000_0000
    requires -0x8000_0000 <= maxParticles < 0x8000_0000
    ensures ShouldEvict(count, maxParticles) <==> 0 <= maxParticles < count
  {
    if maxParticles < 0 {
      assert maxParticles % SizeRange == maxParticles + SizeRange;
    } else {
      assert maxParticles % SizeRange == maxParticles;
    }
  }

  /** The list left after an eviction decision. */
  function Evicted<T>(s: seq<T>, evict: bool): (r: seq<T>)
    ensures evict && |s| > 0 ==> |r| == |s| - 1
    ensures !evict ==> r == s
  {
    if evict && |s| > 0 then s[1..] else s
  }

  // ---------------------------------------------------------------------
  // The particle pass
  // ---------------------------------------------------------------------

  ghost predicate Massive(bs: seq<Body>) {
    forall i :: 0 <= i < |bs| ==> bs[i].mass != 0.0
  }

  /** `borders` followed by `update`: what a particle is before it flocks. */
  function Advanced(b: Body, area: Area, bounce: bool): Body
    requires b.mass != 0.0
  {
    Integrated(Bordered(b, area, bounce))
  }

  /** `borders` changes only the position and the velocity. */
  lemma BorderedKeeps(b: Body, area: Area, bounce: bool)
    ensures var d := Bordered(b, area, bounce);
      d == b.(position := d.position, velocity := d.velocity)
  {
  }

  /** The list as particle `i` sees it when it flocks. */
  function View(bs: seq<Body>, i: nat, area: Area, bounce: bool): seq<Body>
    requires i < |bs| && bs[i].mass != 0.0
  {
    bs[i := Advanced(bs[i], area, bounce)]
  }

  /** One iteration of the particle loop, for the particle at index `i`. */
  function Step(len: Vec2 -> real, bs: seq<Body>, i: nat, area: Area, bounce: bool): (r: seq<Body>)
    requires i < |bs| && bs[i].mass != 0.0
    ensures |r| == |bs| && r[i].mass == bs[i].mass
    ensures forall j :: 0 <= j < |bs| && j != i ==> r[j] == bs[j]
  {
    var v := View(bs, i, area, bounce);
    v[i := Flocked(len, v[i], v)]
  }

  /** The first `k` iterations of the particle loop. */
  function Sweep(len: Vec2 -> real, bs: seq<Body>, k: nat, area: Area, bounce: bool): (r: seq<Body>)
    requires k <= |bs| && Massive(bs)
    ensures |r| == |bs| && Massive(r)
    ensures forall j :: 0 <= j < |bs| ==> r[j].mass == bs[j].mass
    ensures forall j :: k <= j < |bs| ==> r[j] == bs[j]
    decreases k
  {
    if k == 0 then bs
    else Step(len, Sweep(len, bs, k - 1, area, bounce), k - 1, area, bounce)
  }

  /** One more iteration of the particle loop. */
  lemma SweepNext(len: Vec2 -> real, bs: seq<Body>, k: nat, area: Area, bounce: bool)
    requires k < |bs| && Massive(bs)
    ensures Sweep(len, bs, k + 1, area, bounce) == Step(len, Sweep(len, bs, k, area, bounce), k, area, bounce)
  {
  }

  /**
   * Order of the particle loop: after `k` iterations particle `j < k` has
   * flocked once, from its own bordered and integrated state, against a
   * list in which every earlier particle is already in its final state and
   * every later one is still untouched.
   */
  lemma {:induction false} SweepOrder(len: Vec2 -> real, bs: seq<Body>, k: nat, j: nat, area: Area, bounce: bool)
    requires j < k <= |bs| && Massive(bs)
    ensures var r := Sweep(len, bs, k, area, bounce);
      var a := Advanced(bs[j], area, bounce);
      r[j] == Flocked(len, a, r[..j] + [a] + bs[j + 1..])
  {
    if j < k - 1 {
      var r := Sweep(len, bs, k, area, bounce);
      var s := Sweep(len, bs, k - 1, area, bounce);
      assert r[..j] == s[..j];
      SweepOrder(len, bs, k - 1, j, area, bounce);
    } else {
      SweepLast(len, bs, k, area, bounce);
    }
  }

  /** The particle of the latest iteration flocked against the list as it then stood. */
  lemma SweepLast(len: Vec2 -> real, bs: seq<Body>, k: nat, area: Area, bounce: bool)
    requires 0 < k <= |bs| && Massive(bs)
    ensures var r := Sweep(len, bs, k, area, bounce);
      var a := Advanced(bs[k - 1], area, bounce);
      r[k - 1] == Flocked(len, a, r[..k - 1] + [a] + bs[k..])
  {
    var r := Sweep(len, bs, k, area, bounce);
    var s := Sweep(len, bs, k - 1, area, bounce);
    var v := View(s, k - 1, area, bounce);
    assert r[..k - 1] == s[..k - 1];
    assert v == s[..k - 1] + [v[k - 1]] + bs[k..];
  }

  /**
   * The particle pass changes a particle's velocity only by flocking: its
   * position, previous position and forces are those of `borders` and
   * `update` applied to its state before the pass.
   */
  lemma SweepMoves(len: Vec2 -> real, bs: seq<Body>, j: nat, area: Area, bounce: bool)
    requires j < |bs| && Massive(bs)
    ensures var r := Sweep(len, bs, |bs|, area, bounce);
      var d := Bordered(bs[j], area, bounce);
      && r[j] == Advanced(bs[j], area, bounce).(velocity := r[j].velocity)
      && r[j].position == d.position.Plus(d.velocity.Plus(bs[j].forces.Scale(1.0 / bs[j].mass)))
      && r[j].prevPosition == d.position
      && r[j].forces == Zero
  {
    var r := Sweep(len, bs, |bs|, area, bounce);
    var a := Advanced(bs[j], area, bounce);
    SweepOrder(len, bs, |bs|, j, area, bounce);
    assert r[j] == a.(velocity := r[j].velocity);
    BorderedKeeps(bs[j], area, bounce);
    IntegrationStep(Bordered(bs[j], area, bounce));
  }

  /** After the particle pass no particle is faster than its own `maxSpeed`. */
  lemma SweepBoundsSpeed(len: Vec2 -> real, bs: seq<Body>, j: nat, area: Area, bounce: bool)
    requires IsLength(len) && j < |bs| && Massive(bs) && bs[j].maxSpeed >= 0.0
    ensures var r := Sweep(len, bs, |bs|, area, bounce);
      len(r[j].velocity) <= r[j].maxSpeed
  {
    var r := Sweep(len, bs, |bs|, area, bounce);
    var a := Advanced(bs[j], area, bounce);
    SweepOrder(len, bs, |bs|, j, area, bounce);
    BorderedKeeps(bs[j], area, bounce);
    FlockBounded(len, a, r[..j] + [a] + bs[j + 1..]);
  }

  /** The particle loop over the list `ps`. */
  method MoveAll(ps: seq<Particle>, area: Area, bounce: bool, len: Vec2 -> real)
    requires Distinct(ps) && forall p :: p in ps ==> p.mass != 0.0
    modifies set p | p in ps
    ensures Bodies(ps) == Sweep(len, old(Bodies(ps)), |ps|, area, bounce)
  {
    ghost var b0 := Bodies(ps);
    assert Massive(b0) by {
      forall i | 0 <= i < |b0|
        ensures b0[i].mass != 0.0
      {
        assert ps[i] in ps;
      }
    }
    for i := 0 to |ps|
      invariant Swept(ps, len, b0, i, area, bounce)
    {
      MoveOne(ps, i, area, bounce, len, b0);
    }
  }

  /** The states of `ps` are those of `b0` after the first `i` iterations of the loop. */
  ghost predicate Swept(ps: seq<Particle>, len: Vec2 -> real, b0: seq<Body>, i: nat, area: Area, bounce: bool)
    reads set p | p in ps
  {
    Distinct(ps) && |b0| == |ps| && Massive(b0) && i <= |b0| && Bodies(ps) == Sweep(len, b0, i, area, bounce)
  }

  /** One iteration of the particle loop. */
  method MoveOne(ps: seq<Particle>, i: nat, area: Area, bounce: bool, len: Vec2 -> real, ghost b0: seq<Body>)
    requires Swept(ps, len, b0, i, area, bounce) && i < |b0|
    modifies ps[i]
    ensures Swept(ps, len, b0, i + 1, area, bounce)
  {
    Advance(ps, i, area, bounce);
    ps[i].Flock(ps, len);
    SweepNext(len, b0, i, area, bounce);
  }

  /** `borders` then `update` on the particle at index `i`. */
  method Advance(ps: seq<Particle>, i: nat, area: Area, bounce: bool)
    requires Distinct(ps) && i < |ps| && ps[i].mass != 0.0
    modifies ps[i]
    ensures Bodies(ps) == View(old(Bodies(ps)), i, area, bounce)
  {
    var p := ps[i];
    p.Borders(area, bounce);
    p.Update();
  }

  // ---------------------------------------------------------------------
  // The spring pass
  // ---------------------------------------------------------------------

  /** Every particle some spring of `ss` is attached to. */
  function Endpoints(ss: seq<Spring>): set<Particle> {
    (set s | s in ss :: s.particleA) + (set s | s in ss :: s.particleB)
  }

  /** The positions of the particles of `e`. */
  function Positions(e: set<Particle>): map<Particle, Vec2>
    reads e
  {
    map p | p in e :: p.position
  }

  ghost predicate Anchored(pos: map<Particle, Vec2>, ss: seq<Spring>) {
    forall s :: s in ss ==> s.particleA in pos && s.particleB in pos
  }

  /**
   * One spring's `update` on a position map. A spring whose step would
   * divide by zero is skipped.
   */
  function RelaxStep(len: Vec2 -> real, pos: map<Particle, Vec2>, s: Spring): (r: map<Particle, Vec2>)
    requires s.particleA in pos && s.particleB in pos
    ensures r.Keys == pos.Keys
  {
    var a, b := s.particleA, s.particleB;
    if Relaxable(len, pos[a], pos[b], a.mass, b.mass) then
      var e := Relaxed(len, pos[a], pos[b], a.mass, b.mass, s.rest, s.strength);
      pos[a := e.a][b := e.b]
    else pos
  }

  /** The springs of `ss` relaxed one after another, in list order. */
  function RelaxAll(len: Vec2 -> real, pos: map<Particle, Vec2>, ss: seq<Spring>): (r: map<Particle, Vec2>)
    requires Anchored(pos, ss)
    ensures r.Keys == pos.Keys
    decreases |ss|
  {
    if ss == [] then pos
    else RelaxStep(len, RelaxAll(len, pos, ss[..|ss| - 1]), ss[|ss| - 1])
  }

  /** A spring pass moves only the particles the springs are attached to. */
  lemma {:induction false} RelaxMovesOnlyEndpoints(len: Vec2 -> real, pos: map<Particle, Vec2>, ss: seq<Spring>, p: Particle)
    requires Anchored(pos, ss) && p in pos && p !in Endpoints(ss)
    ensures RelaxAll(len, pos, ss)[p] == pos[p]
  {
    if ss != [] {
      var last := ss[|ss| - 1];
      assert last in ss;
      assert Endpoints(ss[..|ss| - 1]) <= Endpoints(ss);
      RelaxMovesOnlyEndpoints(len, pos, ss[..|ss| - 1], p);
    }
  }

  // ---------------------------------------------------------------------
  // Dangling springs
  // ---------------------------------------------------------------------

  /** Every spring is attached to listed particles only. */
  ghost predicate Closed(ps: seq<Particle>, ss: seq<Spring>) {
    forall s :: s in ss ==> s.particleA in ps && s.particleB in ps
  }

  /**
   * Evicting the oldest particle of a closed system leaves it closed
   * exactly when no spring is attached to that particle.
   */
  lemma EvictionBreaksClosure(ps: seq<Particle>, ss: seq<Spring>)
    requires Distinct(ps) && |ps| > 0 && Closed(ps, ss)
    ensures Closed(ps[1..], ss) <==> ps[0] !in Endpoints(ss)
  {
    if ps[0] in Endpoints(ss) {
      var s :| s in ss && (s.particleA == ps[0] || s.particleB == ps[0]);
      assert ps[0] !in ps[1..];
    } else {
      forall s | s in ss
        ensures s.particleA in ps[1..] && s.particleB in ps[1..]
      {
        assert s.particleA in ps && s.particleA != ps[0];
        assert s.particleB in ps && s.particleB != ps[0];
      }
    }
  }

  // ---------------------------------------------------------------------
  // The system
  // ---------------------------------------------------------------------

  /** One iteration of the spring loop, on the positions of the endpoints `e`. */
  method RelaxOne(s: Spring, e: set<Particle>, len: Vec2 -> real)
    requires len(Zero) == 0.0 && s.particleA in e && s.particleB in e
    modifies e`position
    ensures Positions(e) == RelaxStep(len, old(Positions(e)), s)
  {
    ghost var before := Positions(e);
    if Relaxable(len, s.particleA.position, s.particleB.position, s.particleA.mass, s.particleB.mass) {
      s.Update(len);
      ghost var a: Particle, b: Particle := s.particleA, s.particleB;
      ghost var moved: map<Particle, Vec2> := before[a := a.position];
      moved := moved[b := b.position];
      assert Positions(e) == moved;
    }
  }

  class ParticleSystem {
    var borders: Area
    var maxParticles: int
    var particles: seq<Particle>
    var springs: seq<Spring>

    /** Each particle is listed once and has a mass `update` can divide by. */
    ghost predicate Valid()
      reads this
    {
      Distinct(particles) && forall p :: p in particles ==> p.mass != 0.0
    }

    /** Both lists start empty; the bounds and the limit are left for the owner to set. */
    constructor ()
      ensures particles == [] && springs == []
      ensures Valid()
    {
      particles := [];
      springs := [];
    }

    method Clear()
      modifies this`particles, this`springs
      ensures particles == [] && springs == []
      ensures Valid()
    {
      particles := [];
      springs := [];
    }

    method AddParticle(p: Particle)
      requires Valid() && p !in particles && p.mass != 0.0
      modifies this`particles
      ensures particles == old(particles) + [p]
      ensures Valid()
    {
      AppendDistinct(particles, p);
      particles := particles + [p];
    }

    /** Removes the first occurrence of `p`; the springs are not touched. */
    method DestroyParticle(p: Particle)
      requires p in particles
      modifies this`particles
      ensures particles == RemoveFirst(old(particles), p)
      ensures old(Valid()) ==> Valid() && p !in particles
    {
      if Valid() {
        RemoveFirstDistinct(particles, p);
      }
      particles := RemoveFirst(particles, p);
    }

    method AddSpring(s: Spring)
      modifies this`springs
      ensures springs == old(springs) + [s]
    {
      springs := springs + [s];
    }

    method DestroySpring(s: Spring)
      requires s in springs
      modifies this`springs
      ensures springs == RemoveFirst(old(springs), s)
    {
      springs := RemoveFirst(springs, s);
    }

    method SetBorders(area: Area)
      modifies this`borders
      ensures borders == area
    {
      borders := area;
    }

    /** The eviction at the start of `update`: at most the oldest particle goes. */
    method Evict()
      requires Valid()
      modifies this`particles
      ensures particles == Evicted(old(particles), ShouldEvict(|old(particles)|, maxParticles))
      ensures Valid()
    {
      if ShouldEvict(|particles|, maxParticles) {
        RemoveFront(particles);
        DestroyParticle(particles[0]);
      }
    }

    /** The particle loop of `update`: `borders`, `update`, `flock` for each particle in list order. */
    method MoveParticles(bounce: bool, len: Vec2 -> real)
      requires Valid()
      modifies set p | p in particles
      ensures Bodies(particles) == Sweep(len, old(Bodies(particles)), |particles|, borders, bounce)
    {
      MoveAll(particles, borders, bounce, len);
    }

    /** The spring loop of `update`: each spring relaxed in list order. */
    method RelaxSprings(len: Vec2 -> real)
      requires len(Zero) == 0.0
      modifies Endpoints(springs)`position
      ensures Positions(Endpoints(springs)) == RelaxAll(len, old(Positions(Endpoints(springs))), springs)
    {
      var e := Endpoints(springs);
      ghost var p0 := Positions(e);
      for i := 0 to |springs|
        invariant Positions(e) == RelaxAll(len, p0, springs[..i])
      {
        var s := springs[i];
        assert springs[..i + 1][..i] == springs[..i];
        assert s in springs;
        RelaxOne(s, e, len);
      }
      assert springs[..|springs|] == springs;
    }

    /**
     * One frame. `swept` is the particle list's state after the particle
     * loop, `start` the spring endpoints' positions when the spring loop
     * begins.
     */
    method Update(bounce: bool, len: Vec2 -> real) returns (ghost swept: seq<Body>, ghost start: map<Particle, Vec2>)
      requires Valid() && len(Zero) == 0.0
      modifies this`particles, (set p | p in particles), Endpoints(springs)`position
      ensures Valid() && springs == old(springs)
      ensures particles == Evicted(old(particles), ShouldEvict(|old(particles)|, maxParticles))
      ensures swept == Sweep(len, Evicted(old(Bodies(particles)), ShouldEvict(|old(particles)|, maxParticles)),
                             |particles|, borders, bounce)
      ensures start.Keys == Endpoints(springs)
      ensures forall i :: 0 <= i < |particles| && particles[i] in start ==> start[particles[i]] == swept[i].position
      ensures forall q :: q in start && q !in particles ==> start[q] == old(Positions(Endpoints(springs)))[q]
      ensures Positions(Endpoints(springs)) == RelaxAll(len, start, springs)
      ensures forall i :: 0 <= i < |particles| ==> particles[i].State() == swept[i].(position := particles[i].position)
      ensures forall i :: 0 <= i < |particles| && particles[i] !in start ==> particles[i].position == swept[i].position
      ensures forall q :: q in old(particles) && q !in particles ==> q.State() == old(q.State()).(position := q.position)
    {
      ghost var b0 := Bodies(particles);
      Evict();
      assert Bodies(particles) == Evicted(b0, ShouldEvict(|b0|, maxParticles));
      swept, start := Animate(bounce, len);
    }

    /** The two loops of `update` that follow the eviction. */
    method Animate(bounce: bool, len: Vec2 -> real) returns (ghost swept: seq<Body>, ghost start: map<Particle, Vec2>)
      requires Valid() && len(Zero) == 0.0
      modifies (set p | p in particles), Endpoints(springs)`position
      ensures swept == Sweep(len, old(Bodies(particles)), |particles|, borders, bounce)
      ensures start.Keys == Endpoints(springs)
      ensures forall i :: 0 <= i < |particles| && particles[i] in start ==> start[particles[i]] == swept[i].position
      ensures forall q :: q in start && q !in particles ==> start[q] == old(Positions(Endpoints(springs)))[q]
      ensures Positions(Endpoints(springs)) == RelaxAll(len, start, springs)
      ensures forall i :: 0 <= i < |particles| ==> particles[i].State() == swept[i].(position := particles[i].position)
      ensures forall i :: 0 <= i < |particles| && particles[i] !in start ==> particles[i].position == swept[i].position
    {
      ghost var before := Positions(Endpoints(springs));
      MoveParticles(bounce, len);
      swept := Bodies(particles);
      ghost var moved := Positions(Endpoints(springs));
      forall q | q in moved && q !in particles
        ensures moved[q] == before[q]
      {
      }
      start := RelaxAfter(len, swept);
    }

    /** The spring loop, run on the particles' states `swept`: only endpoint positions change. */
    method RelaxAfter(len: Vec2 -> real, ghost swept: seq<Body>) returns (ghost start: map<Particle, Vec2>)
      requires len(Zero) == 0.0 && swept == Bodies(particles)
      modifies Endpoints(springs)`position
      ensures start == old(Positions(Endpoints(springs)))
      ensures Positions(Endpoints(springs)) == RelaxAll(len, start, springs)
      ensures forall i :: 0 <= i < |particles| ==> particles[i].State() == swept[i].(position := particles[i].position)
      ensures forall i :: 0 <= i < |particles| && particles[i] !in start ==> particles[i].position == swept[i].position
    {
      start := Positions(Endpoints(springs));
      RelaxSprings(len);
    }
  }
}
