/**
 * Planar vectors and poses, the C library's round(), and the normalisation
 * of headings into (-pi, pi].  The value of pi is a parameter throughout:
 * the model only needs it to be positive.
 */
module Geometry {

  /** A vector in the grid plane (the z component of the source's vectors is always 0 here). */
  datatype Vec = Vec(x: real, y: real)

  /** One intermediate pose: position and heading in radians. */
  datatype Pose = Pose(x: real, y: real, theta: real)

  /** C's round(): the nearest integer, with halfway cases rounded away from zero. */
  function Round(x: real): (r: int)
    ensures x - 0.5 <= r as real <= x + 0.5
    ensures r as real == x + 0.5 ==> x >= 0.0
    ensures r as real == x - 0.5 ==> x < 0.0
  {
    if x >= 0.0 then (x + 0.5).Floor else -((0.5 - x).Floor)
  }

  lemma RoundOfInteger(k: int)
    ensures Round(k as real) == k
  {
  }

  /** The number of whole turns Wrap removes: ceil((theta - pi) / (2 pi)). */
  function WrapTurns(pi: real, theta: real): int
    requires pi > 0.0
  {
    -((pi - theta) / (2.0 * pi)).Floor
  }

  /**
   * The heading normalisation of the intermediate poses: theta moved by whole
   * turns into (-pi, pi].
   */
  function Wrap(pi: real, theta: real): (r: real)
    requires pi > 0.0
    ensures -pi < r
    ensures r <= pi
  {
    var c := 2.0 * pi;
    var q := (pi - theta) / c;
    var fc := (q.Floor as real) * c;
    FloorScaled(q, c, pi - theta);
    assert 2.0 * pi * (WrapTurns(pi, theta) as real) == -fc;
    assert theta + fc <= pi;
    assert -pi < theta + fc;
    theta - 2.0 * pi * (WrapTurns(pi, theta) as real)
  }

  /** Wrap moves theta by -WrapTurns whole turns. */
  lemma WrapByTurns(pi: real, theta: real)
    requires pi > 0.0
    ensures Wrap(pi, theta) == theta + ((-WrapTurns(pi, theta)) as real) * (2.0 * pi)
  {
    var t := WrapTurns(pi, theta);
    assert Wrap(pi, theta) == theta - 2.0 * pi * (t as real);
    assert ((-t) as real) * (2.0 * pi) == -(2.0 * pi * (t as real));
  }

  /** When q * c == a with c > 0, a lies in [q.Floor * c, q.Floor * c + c). */
  lemma FloorScaled(q: real, c: real, a: real)
    requires c > 0.0
    requires q * c == a
    ensures (q.Floor as real) * c <= a
    ensures a < (q.Floor as real) * c + c
  {
    var f := q.Floor as real;
    var e := q - f;
    assert 0.0 <= e < 1.0;
    assert q * c == f * c + e * c;
    assert e * c >= 0.0;
    assert (1.0 - e) * c == c - e * c;
    assert (1.0 - e) * c > 0.0;
    assert a == f * c + e * c;
    assert a < f * c + c;
  }

  /** Scaling by a positive factor keeps the order of integers. */
  lemma ScaledOrder(a: int, b: int, c: real)
    requires c > 0.0
    ensures a < b <==> (a as real) * c < (b as real) * c
  {
    if a < b {
      assert ((b - a) as real) * c >= c by {
        assert (b - a) as real >= 1.0;
        assert ((b - a) as real - 1.0) * c >= 0.0;
      }
    } else {
      assert ((a - b) as real) * c >= 0.0;
    }
  }

  /** Two headings in (-pi, pi] that differ by whole turns are the same turn count apart: zero. */
  lemma {:induction false} SameTurnsInRange(pi: real, r1: real, r2: real, k: int)
    requires pi > 0.0
    requires -pi < r1 <= pi && -pi < r2 <= pi
    requires r1 - r2 == (k as real) * (2.0 * pi)
    ensures k == 0
  {
    ScaledOrder(k, 1, 2.0 * pi);
    ScaledOrder(-1, k, 2.0 * pi);
  }

  /** Wrap is the only value in (-pi, pi] that is a whole number of turns away from theta. */
  lemma {:induction false} WrapUnique(pi: real, theta: real, r: real, k: int)
    requires pi > 0.0
    requires -pi < r <= pi
    requires r == theta + (k as real) * (2.0 * pi)
    ensures r == Wrap(pi, theta)
  {
    var w := Wrap(pi, theta);
    var t := WrapTurns(pi, theta);
    assert w == theta - (t as real) * (2.0 * pi);
    assert r - w == ((k + t) as real) * (2.0 * pi);
    SameTurnsInRange(pi, r, w, k + t);
  }

  /** Adding whole turns does not change the normalised heading. */
  lemma {:induction false} WrapPeriodic(pi: real, theta: real, m: int)
    requires pi > 0.0
    ensures Wrap(pi, theta + (m as real) * (2.0 * pi)) == Wrap(pi, theta)
  {
    var w := Wrap(pi, theta + (m as real) * (2.0 * pi));
    var t := WrapTurns(pi, theta + (m as real) * (2.0 * pi));
    assert w == theta + ((m - t) as real) * (2.0 * pi);
    WrapUnique(pi, theta, w, m - t);
  }

  /** A heading already in (-pi, pi] is left alone. */
  lemma {:induction false} WrapInRange(pi: real, theta: real)
    requires pi > 0.0
    requires -pi < theta <= pi
    ensures Wrap(pi, theta) == theta
  {
    WrapUnique(pi, theta, theta, 0);
  }
}
