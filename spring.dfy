/**
 * A spring between two particles (`Spring.cpp`): one relaxation step moves
 * both endpoints along the line joining them, in inverse proportion to
 * their masses, by a `strength` fraction of the error in their distance.
 */
module Springs {
  import opened Vectors
  import opened Particles

  /** The two endpoint positions. */
  datatype Ends = Ends(a: Vec2, b: Vec2)

  /**
   * The divisions of `update` are defined: the endpoints are apart, and the
   * inverse masses exist and do not cancel.
   */
  predicate Relaxable(len: Vec2 -> real, pa: Vec2, pb: Vec2, ma: real, mb: real) {
    len(pa.Minus(pb)) != 0.0 && ma != 0.0 && mb != 0.0 && 1.0 / ma + 1.0 / mb != 0.0
  }

  /** The formula of `normDist` over the distance and the two inverse masses. */
  function Correction(length: real, rest: real, invMassA: real, invMassB: real, strength: real): real
    requires length != 0.0 && invMassA + invMassB != 0.0
  {
    (length - rest) / (length * (invMassA + invMassB)) * strength
  }

  /** `normDist`: the scalar correction of `update`. */
  function NormDist(len: Vec2 -> real, pa: Vec2, pb: Vec2, ma: real, mb: real, rest: real, strength: real): real
    requires Relaxable(len, pa, pb, ma, mb)
  {
    Correction(len(pa.Minus(pb)), rest, 1.0 / ma, 1.0 / mb, strength)
  }

  /** The endpoint positions after one `update`. */
  function Relaxed(len: Vec2 -> real, pa: Vec2, pb: Vec2, ma: real, mb: real, rest: real, strength: real): Ends
    requires Relaxable(len, pa, pb, ma, mb)
  {
    var delta := pa.Minus(pb);
    var n := NormDist(len, pa, pb, ma, mb, rest, strength);
    Ends(pa.Minus(delta.Scale(n).Scale(1.0 / ma)), pb.Plus(delta.Scale(n).Scale(1.0 / mb)))
  }

  /** A spring already at its rest length leaves both endpoints where they are. */
  lemma RelaxedAtRest(len: Vec2 -> real, pa: Vec2, pb: Vec2, ma: real, mb: real, rest: real, strength: real)
    requires Relaxable(len, pa, pb, ma, mb) && len(pa.Minus(pb)) == rest
    ensures Relaxed(len, pa, pb, ma, mb, rest, strength) == Ends(pa, pb)
  {
    assert NormDist(len, pa, pb, ma, mb, rest, strength) == 0.0;
  }

  lemma WeightedComponent(p: real, q: real, d: real, ma: real, mb: real)
    requires ma != 0.0 && mb != 0.0
    ensures (p - d * (1.0 / ma)) * ma + (q + d * (1.0 / mb)) * mb == p * ma + q * mb
  {
    assert (1.0 / ma) * ma == 1.0;
    assert (1.0 / mb) * mb == 1.0;
    calc {
      (p - d * (1.0 / ma)) * ma + (q + d * (1.0 / mb)) * mb;
      p * ma - d * ((1.0 / ma) * ma) + q * mb + d * ((1.0 / mb) * mb);
      p * ma + q * mb;
    }
  }

  /** Relaxation keeps the mass-weighted sum of the endpoint positions (the centre of mass does not move). */
  lemma RelaxedKeepsWeightedSum(len: Vec2 -> real, pa: Vec2, pb: Vec2, ma: real, mb: real, rest: real, strength: real)
    requires Relaxable(len, pa, pb, ma, mb)
    ensures var r := Relaxed(len, pa, pb, ma, mb, rest, strength);
      r.a.Scale(ma).Plus(r.b.Scale(mb)) == pa.Scale(ma).Plus(pb.Scale(mb))
  {
    var delta := pa.Minus(pb);
    var n := NormDist(len, pa, pb, ma, mb, rest, strength);
    WeightedComponent(pa.x, pb.x, delta.x * n, ma, mb);
    WeightedComponent(pa.y, pb.y, delta.y * n, ma, mb);
  }

  /**
   * Both corrections lie along `delta = pa - pb`: `a` moves by
   * `-delta * normDist / ma` and `b` by `+delta * normDist / mb`.
   */
  lemma RelaxedAlongDelta(len: Vec2 -> real, pa: Vec2, pb: Vec2, ma: real, mb: real, rest: real, strength: real)
    requires Relaxable(len, pa, pb, ma, mb)
    ensures var r := Relaxed(len, pa, pb, ma, mb, rest, strength);
      var n := NormDist(len, pa, pb, ma, mb, rest, strength);
      && r.a.Minus(pa) == pa.Minus(pb).Scale(-(n * (1.0 / ma)))
      && r.b.Minus(pb) == pa.Minus(pb).Scale(n * (1.0 / mb))
  {
    ShiftScaled(pa, pb, NormDist(len, pa, pb, ma, mb, rest, strength), 1.0 / ma, 1.0 / mb);
  }

  lemma ShiftScaled(pa: Vec2, pb: Vec2, n: real, ia: real, ib: real)
    ensures var delta := pa.Minus(pb);
      && pa.Minus(delta.Scale(n).Scale(ia)).Minus(pa) == delta.Scale(-(n * ia))
      && pb.Plus(delta.Scale(n).Scale(ib)).Minus(pb) == delta.Scale(n * ib)
  {
    ShiftComponent(pa.x, pb.x, n, ia, ib);
    ShiftComponent(pa.y, pb.y, n, ia, ib);
  }

  lemma ShiftComponent(p: real, q: real, n: real, ia: real, ib: real)
    ensures (p - (p - q) * n * ia) - p == (p - q) * -(n * ia)
    ensures (q + (p - q) * n * ib) - q == (p - q) * (n * ib)
  {
  }

  lemma DifferenceComponent(p: real, q: real, n: real, ia: real, ib: real, f: real)
    requires f == 1.0 - n * (ia + ib)
    ensures (p - (p - q) * n * ia) - (q + (p - q) * n * ib) == (p - q) * f
  {
  }

  lemma Cancel(x: real, y: real, l: real)
    requires l > 0.0 && x * l == y * l
    ensures x == y
  {
    assert (x - y) * l == 0.0;
  }

  lemma FactorOfDistance(l: real, rest: real, s: real, k: real)
    requires l > 0.0 && k != 0.0
    ensures 1.0 - (l - rest) / (l * k) * s * k == (l - s * (l - rest)) / l
  {
    var a := (l - rest) / (l * k);
    var b := (l - s * (l - rest)) / l;
    assert a * (l * k) == l - rest;
    assert b * l == l - s * (l - rest);
    assert a * s * k * l == (a * (l * k)) * s;
    assert (1.0 - a * s * k) * l == l - a * s * k * l;
    Cancel(1.0 - a * s * k, b, l);
  }

  /** The endpoints' new offset is the old offset scaled by `target / L`. */
  lemma RelaxedDifference(len: Vec2 -> real, pa: Vec2, pb: Vec2, ma: real, mb: real, rest: real, strength: real)
    requires Relaxable(len, pa, pb, ma, mb) && len(pa.Minus(pb)) > 0.0
    ensures var r := Relaxed(len, pa, pb, ma, mb, rest, strength);
      var l := len(pa.Minus(pb));
      r.a.Minus(r.b) == pa.Minus(pb).Scale(Target(l, rest, strength) / l)
  {
    var l := len(pa.Minus(pb));
    var ia, ib := 1.0 / ma, 1.0 / mb;
    var n := NormDist(len, pa, pb, ma, mb, rest, strength);
    FactorOfDistance(l, rest, strength, ia + ib);
    var f := 1.0 - n * (ia + ib);
    assert f == Target(l, rest, strength) / l;
    DifferenceScaled(pa, pb, n, ia, ib, f);
  }

  /** Moving `a` back and `b` forward along their offset scales the offset by `1 - n (ia + ib)`. */
  lemma DifferenceScaled(pa: Vec2, pb: Vec2, n: real, ia: real, ib: real, f: real)
    requires f == 1.0 - n * (ia + ib)
    ensures var delta := pa.Minus(pb);
      pa.Minus(delta.Scale(n).Scale(ia)).Minus(pb.Plus(delta.Scale(n).Scale(ib))) == delta.Scale(f)
  {
    DifferenceComponent(pa.x, pb.x, n, ia, ib, f);
    DifferenceComponent(pa.y, pb.y, n, ia, ib, f);
  }

  /** The distance one relaxation step aims at: `L - strength * (L - rest)`. */
  function Target(l: real, rest: real, strength: real): real {
    l - strength * (l - rest)
  }

  /**
   * After one step the distance is `L - strength * (L - rest)`, `L` being
   * the distance before, provided that value is not negative; with strength
   * 1 the spring lands exactly at a non-negative rest length.
   */
  lemma RelaxedDistance(len: Vec2 -> real, pa: Vec2, pb: Vec2, ma: real, mb: real, rest: real, strength: real)
    requires IsLength(len) && Relaxable(len, pa, pb, ma, mb)
    requires Target(len(pa.Minus(pb)), rest, strength) >= 0.0
    ensures var r := Relaxed(len, pa, pb, ma, mb, rest, strength);
      len(r.a.Minus(r.b)) == Target(len(pa.Minus(pb)), rest, strength)
    ensures strength == 1.0 ==> len(Relaxed(len, pa, pb, ma, mb, rest, strength).a.Minus(Relaxed(len, pa, pb, ma, mb, rest, strength).b)) == rest
  {
    var delta := pa.Minus(pb);
    var l := len(delta);
    var t := Target(l, rest, strength);
    assert l > 0.0;
    RelaxedDifference(len, pa, pb, ma, mb, rest, strength);
    Rescaled(t, l);
    assert len(delta.Scale(t / l)) == Abs(t / l) * l;
  }

  lemma Rescaled(t: real, l: real)
    requires l > 0.0 && t >= 0.0
    ensures Abs(t / l) * l == t
  {
    assert t / l >= 0.0;
  }

  class Spring {
    const particleA: Particle
    const particleB: Particle
    const rest: real
    const strength: real

    constructor (particleA: Particle, particleB: Particle, rest: real, strength: real)
      ensures this.particleA == particleA && this.particleB == particleB
      ensures this.rest == rest && this.strength == strength
    {
      this.particleA := particleA;
      this.particleB := particleB;
      this.rest := rest;
      this.strength := strength;
    }

    /**
     * One relaxation step. The source has no guard for coincident
     * endpoints, so the step is only defined when `Relaxable` holds; it
     * then involves two distinct particles and changes only their positions.
     */
    method Update(len: Vec2 -> real)
      requires len(Zero) == 0.0
      requires Relaxable(len, particleA.position, particleB.position, particleA.mass, particleB.mass)
      modifies particleA`position, particleB`position
      ensures particleA != particleB
      ensures Ends(particleA.position, particleB.position)
           == Relaxed(len, old(particleA.position), old(particleB.position), particleA.mass, particleB.mass, rest, strength)
    {
      assert particleA.position.Minus(particleA.position) == Zero;
      assert particleA != particleB;
      ghost var pa, pb := particleA.position, particleB.position;
      var delta := particleA.position.Minus(particleB.position);
      var length := len(delta);
      var invMassA := 1.0 / particleA.mass;
      var invMassB := 1.0 / particleB.mass;
      var normDist := Correction(length, rest, invMassA, invMassB, strength);
      assert delta == pa.Minus(pb) && length == len(pa.Minus(pb));
      particleA.position := particleA.position.Minus(delta.Scale(normDist).Scale(invMassA));
      particleB.position := particleB.position.Plus(delta.Scale(normDist).Scale(invMassB));
    }
  }
}
