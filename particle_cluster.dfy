/**
 * A particle cluster (`ParticleCluster.h`, `ParticleCluster.cpp`): a colour,
 * two flocking thresholds, and a list of particles handled by identity with
 * the same append and find-then-erase operations as the particle system.
 */
module Clusters {
  import opened Vectors
  import opened Lists
  import opened Particles

  class ParticleCluster {
    const targetSeparation: real
    const neighboringDistance: real
    var color: Color
    var particles: seq<Particle>

    /** Stores the thresholds and the colour; the particle list starts empty. */
    constructor(targetSeparation: real, neighboringDistance: real, color: Color)
      ensures this.targetSeparation == targetSeparation
      ensures this.neighboringDistance == neighboringDistance
      ensures this.color == color && particles == []
    {
      this.targetSeparation := targetSeparation;
      this.neighboringDistance := neighboringDistance;
      this.color := color;
      particles := [];
    }

    /** `push_back`: the particle goes to the end, the colour stays. */
    method AddParticle(p: Particle)
      modifies this`particles
      ensures particles == old(particles) + [p]
      ensures |particles| == |old(particles)| + 1 && particles[..|old(particles)|] == old(particles)
    {
      particles := particles + [p];
    }

    /**
     * `erase(find(...))`: the first occurrence goes, the others keep their
     * order. Erasing `end()` is undefined, so the particle must be present.
     */
    method RemoveParticle(p: Particle)
      requires p in particles
      modifies this`particles
      ensures particles == RemoveFirst(old(particles), p)
      ensures |particles| == |old(particles)| - 1
      ensures multiset(particles) + multiset{p} == multiset(old(particles))
    {
      particles := RemoveFirst(particles, p);
    }
  }

  /** Adding a particle not yet in the cluster and then removing it restores the list. */
  method AddThenRemove(c: ParticleCluster, p: Particle)
    requires p !in c.particles
    modifies c`particles
    ensures c.particles == old(c.particles)
  {
    c.AddParticle(p);
    RemoveAppended(old(c.particles), p);
    c.RemoveParticle(p);
  }
}
