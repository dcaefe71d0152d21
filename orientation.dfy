/**
 * Converting a yaw in radians back into a discrete heading in [0, N), as
 * calcDiscreteEndOrientation sets out to do.  As written it divides the yaw
 * by N instead of by the angle of one discrete heading (2 pi / N); the
 * conversion it evidently means is DiscreteOrientation.
 */
module Orientation {
  import opened Geometry
  import opened Primitives
  import Expansion
  import opened Poses

  /** M_PI as a double. */
  const MPi: real := 3.141592653589793

  /** calcDiscreteEndOrientation as written: round(yaw / N), moved by whole N into [0, N). */
  function AsWrittenOrientation(n: nat, yaw: real): (r: int)
    requires n > 0
    ensures 0 <= r < n
  {
    Round(yaw / (n as real)) % n
  }

  /** The intended conversion: the nearest discrete heading to yaw, moved by whole turns into [0, N). */
  function DiscreteOrientation(pi: real, n: nat, yaw: real): (r: int)
    requires pi > 0.0 && n > 0
    ensures 0 <= r < n
  {
    Round(yaw / RadPerAngle(pi, n)) % n
  }

  /** The yaw of discrete heading k converts back to k, reduced into [0, N). */
  lemma DiscreteOrientationOfHeading(pi: real, n: nat, k: int)
    requires pi > 0.0 && n > 0
    ensures DiscreteOrientation(pi, n, (k as real) * RadPerAngle(pi, n)) == Truncate(k, n)
  {
    var rad := RadPerAngle(pi, n);
    var yaw := (k as real) * rad;
    assert yaw / rad == k as real;
    RoundOfInteger(k);
    assert Round(yaw / rad) == k;
    assert DiscreteOrientation(pi, n, yaw) == k % n;
    assert Truncate(k, n) == k % n;
    assert yaw == (k as real) * RadPerAngle(pi, n);
    assert DiscreteOrientation(pi, n, (k as real) * RadPerAngle(pi, n)) == Truncate(k, n);
  }

  /** Headings already in [0, N) convert back to themselves. */
  lemma DiscreteOrientationRoundTrip(pi: real, n: nat, k: int)
    requires pi > 0.0 && n > 0 && 0 <= k < n
    ensures DiscreteOrientation(pi, n, (k as real) * RadPerAngle(pi, n)) == k
  {
    DiscreteOrientationOfHeading(pi, n, k);
  }

  /**
   * The final intermediate pose of every generated primitive converts back to
   * the primitive's discrete end heading, although its heading was moved
   * into (-pi, pi].
   */
  lemma FinalPoseOrientation(cfg: Config, pi: real, p: Primitive, arc: (Primitive, nat) -> Pose)
    requires pi > 0.0 && cfg.numAngles > 0 && cfg.numPosesPerPrim >= 2
    requires Expansion.WellFormed(p, cfg.numAngles)
    ensures DiscreteOrientation(pi, cfg.numAngles, PoseAt(cfg, pi, p, arc, cfg.numPosesPerPrim - 1).theta) == p.endTheta
  {
    WrappedHeadingOrientation(pi, cfg.numAngles, p.endTheta);
    FinalHeading(cfg, pi, p, arc);
  }

  /** A discrete heading in [0, N) survives the normalisation into (-pi, pi]. */
  lemma WrappedHeadingOrientation(pi: real, n: nat, e: int)
    requires pi > 0.0 && n > 0 && 0 <= e < n
    ensures DiscreteOrientation(pi, n, Wrap(pi, (e as real) * RadPerAngle(pi, n))) == e
  {
    var yaw := (e as real) * RadPerAngle(pi, n);
    var q := -WrapTurns(pi, yaw);
    WrapByTurns(pi, yaw);
    HeadingTurns(pi, n, e, q);
    TurnsAwayOrientation(pi, n, e, q, Wrap(pi, yaw));
  }

  /** A yaw whole turns away from the yaw of heading e converts back to e. */
  lemma TurnsAwayOrientation(pi: real, n: nat, e: int, q: int, w: real)
    requires pi > 0.0 && n > 0 && 0 <= e < n
    requires w == ((e + q * n) as real) * RadPerAngle(pi, n)
    ensures DiscreteOrientation(pi, n, w) == e
  {
    var m := e + q * n;
    ModUnique(m, e, q, n);
    assert Truncate(m, n) == e;
    DiscreteOrientationOfHeading(pi, n, m);
    assert w == (m as real) * RadPerAngle(pi, n);
  }

  /**
   * With 16 headings, the yaw of heading 4 (a quarter turn) is mapped to
   * heading 0 by the conversion as written, and to 4 by the intended one.
   */
  lemma AsWrittenOrientationLosesHeading()
    ensures AsWrittenOrientation(16, 4.0 * RadPerAngle(MPi, 16)) == 0
    ensures DiscreteOrientation(MPi, 16, 4.0 * RadPerAngle(MPi, 16)) == 4
  {
    var yaw := 4.0 * RadPerAngle(MPi, 16);
    assert yaw / 16.0 < 0.5;
    DiscreteOrientationRoundTrip(MPi, 16, 4);
  }
}
