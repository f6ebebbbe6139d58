/**
 * Two-dimensional vectors over the reals, standing in for Cinder's `Vec2f`.
 *
 * Cinder computes a vector's length with a square root, which has no
 * definition over Dafny's reals. Every operation that needs the length
 * therefore takes it as a parameter `len`, and requires only the laws of a
 * norm (`IsLength`). `Normalized` and `Limit` are defined from `len` exactly
 * as Cinder defines `normalize` and `limit` from `length`.
 */
module Vectors {

  datatype Vec2 = Vec2(x: real, y: real) {
    function Plus(o: Vec2): Vec2 { Vec2(x + o.x, y + o.y) }
    function Minus(o: Vec2): Vec2 { Vec2(x - o.x, y - o.y) }
    /** `v * c` in Cinder. */
    function Scale(c: real): Vec2 { Vec2(x * c, y * c) }
  }

  const Zero := Vec2(0.0, 0.0)

  /** An RGB colour; the simulation only stores and copies it. */
  datatype Color = Color(r: real, g: real, b: real)

  function Abs(c: real): real {
    if c < 0.0 then -c else c
  }

  /** The laws of the Euclidean length that the model relies on. */
  ghost predicate IsLength(len: Vec2 -> real) {
    && (forall v :: len(v) >= 0.0)
    && (forall v :: len(v) == 0.0 <==> v == Zero)
    && (forall v: Vec2, c: real :: len(v.Scale(c)) == Abs(c) * len(v))
  }

  /** `v.normalized()`: the vector divided by its length. */
  function Normalized(len: Vec2 -> real, v: Vec2): Vec2
    requires len(v) != 0.0
  {
    v.Scale(1.0 / len(v))
  }

  /**
   * `v.limit(m)`: when the squared length exceeds `m * m` (and is positive),
   * the vector is rescaled to length `m`; otherwise it is left alone.
   */
  function Limit(len: Vec2 -> real, v: Vec2, m: real): Vec2 {
    if len(v) * len(v) > m * m && len(v) > 0.0 then v.Scale(m / len(v)) else v
  }

  lemma NormalizedIsUnit(len: Vec2 -> real, v: Vec2)
    requires IsLength(len) && v != Zero
    ensures len(Normalized(len, v)) == 1.0
  {
    var l := len(v);
    assert l > 0.0;
    assert len(v.Scale(1.0 / l)) == Abs(1.0 / l) * l;
  }

  /** Between non-negative reals, squaring keeps the order. */
  lemma SquaresOrdered(a: real, b: real)
    requires a >= 0.0 && b >= 0.0
    ensures a < b <==> a * a < b * b
  {
    if a < b {
      assert a * b - a * a == a * (b - a) >= 0.0;
      assert b * b - a * b == b * (b - a) > 0.0;
    } else {
      assert b * a - b * b == b * (a - b) >= 0.0;
      assert a * a - b * a == a * (a - b) >= 0.0;
    }
  }

  /** A limited vector is never longer than a non-negative limit. */
  lemma LimitBounded(len: Vec2 -> real, v: Vec2, m: real)
    requires IsLength(len) && m >= 0.0
    ensures len(Limit(len, v, m)) <= m
    ensures len(v) <= m ==> Limit(len, v, m) == v
  {
    var l := len(v);
    SquaresOrdered(m, l);
    if m < l {
      assert len(v.Scale(m / l)) == Abs(m / l) * l;
      assert Abs(m / l) * l == m;
    }
  }
}
