/**
 * The intermediate poses of createIntermediatePoses.  For every primitive the
 * source appends numPosesPerPrim poses, in metres and radians: a straight
 * motion moves in equal steps along its end vector at its start heading, a
 * point turn stays on its end cell and turns in equal steps towards the raw
 * end heading, and an arc follows a circle whose float geometry is not
 * modelled (`arc(p, i)` is the pose that geometry yields before the heading
 * normalisation) except that its last heading is the discrete end heading.
 * Every heading is finally moved into (-pi, pi].
 */
module Poses {
  import opened Geometry
  import opened Primitives
  import Expansion

  /** mRadPerDiscreteAngle = 2 pi / N. */
  function RadPerAngle(pi: real, n: nat): (r: real)
    requires pi > 0.0 && n > 0
    ensures r > 0.0
    ensures r * (n as real) == 2.0 * pi
  {
    2.0 * pi / (n as real)
  }

  /** theta_step of a point turn: its raw turn in radians over numPosesPerPrim - 1 steps. */
  function TurnStep(cfg: Config, pi: real, p: Primitive): real
    requires pi > 0.0 && cfg.numAngles > 0 && cfg.numPosesPerPrim != 1
  {
    ((p.rawEndTheta - p.startAngle) as real) * RadPerAngle(pi, cfg.numAngles) / ((cfg.numPosesPerPrim as real) - 1.0)
  }

  /** The pose of step i before its heading is normalised. */
  function RawPose(cfg: Config, pi: real, p: Primitive, arc: (Primitive, nat) -> Pose, i: nat): Pose
    requires pi > 0.0 && cfg.numAngles > 0 && cfg.numPosesPerPrim != 1
  {
    var rad := RadPerAngle(pi, cfg.numAngles);
    var steps := (cfg.numPosesPerPrim as real) - 1.0;
    var start := (p.startAngle as real) * rad;
    var ex := (p.endX as real) * cfg.gridSize;
    var ey := (p.endY as real) * cfg.gridSize;
    if IsStraight(p.movType) then
      Pose((i as real) * (ex / steps), (i as real) * (ey / steps), start)
    else if p.movType == PointTurn then
      Pose(ex, ey, start + (i as real) * TurnStep(cfg, pi, p))
    else
      var a := arc(p, i);
      Pose(a.x, a.y, if i == cfg.numPosesPerPrim - 1 then (p.endTheta as real) * rad else a.theta)
  }

  /** The pose of step i as stored: the raw pose with its heading in (-pi, pi]. */
  function PoseAt(cfg: Config, pi: real, p: Primitive, arc: (Primitive, nat) -> Pose, i: nat): (r: Pose)
    requires pi > 0.0 && cfg.numAngles > 0 && cfg.numPosesPerPrim != 1
    ensures -pi < r.theta
    ensures r.theta <= pi
  {
    var raw := RawPose(cfg, pi, p, arc, i);
    Pose(raw.x, raw.y, Wrap(pi, raw.theta))
  }

  /** The poses appended to one primitive. */
  function PosesOf(cfg: Config, pi: real, p: Primitive, arc: (Primitive, nat) -> Pose): (r: seq<Pose>)
    requires pi > 0.0 && cfg.numAngles > 0 && cfg.numPosesPerPrim != 1
    ensures |r| == cfg.numPosesPerPrim
    ensures forall i :: 0 <= i < |r| ==> -pi < r[i].theta <= pi
  {
    seq(cfg.numPosesPerPrim, i requires 0 <= i => PoseAt(cfg, pi, p, arc, i))
  }

  /** One primitive after createIntermediatePoses: its previous poses followed by the new ones. */
  function WithPoses(cfg: Config, pi: real, p: Primitive, arc: (Primitive, nat) -> Pose): Primitive
    requires pi > 0.0 && cfg.numAngles > 0 && cfg.numPosesPerPrim != 1
  {
    p.(poses := p.poses + PosesOf(cfg, pi, p, arc))
  }

  /** The whole list after createIntermediatePoses. */
  function AddPoses(cfg: Config, pi: real, ps: seq<Primitive>, arc: (Primitive, nat) -> Pose): (r: seq<Primitive>)
    requires pi > 0.0 && cfg.numAngles > 0 && cfg.numPosesPerPrim != 1
    ensures |r| == |ps|
  {
    seq(|ps|, k requires 0 <= k < |ps| => WithPoses(cfg, pi, ps[k], arc))
  }

  /**
   * createIntermediatePoses changes nothing but the poses: every other field
   * is kept, the old poses stay in front and exactly numPosesPerPrim poses
   * follow, each heading in (-pi, pi].
   */
  lemma AddPosesKeeps(cfg: Config, pi: real, ps: seq<Primitive>, arc: (Primitive, nat) -> Pose)
    requires pi > 0.0 && cfg.numAngles > 0 && cfg.numPosesPerPrim != 1
    ensures var r := AddPoses(cfg, pi, ps, arc);
      && |r| == |ps|
      && forall k :: 0 <= k < |ps| ==>
           && r[k].(poses := []) == ps[k].(poses := [])
           && |r[k].poses| == |ps[k].poses| + cfg.numPosesPerPrim
           && r[k].poses[..|ps[k].poses|] == ps[k].poses
           && forall i :: |ps[k].poses| <= i < |r[k].poses| ==> -pi < r[k].poses[i].theta <= pi
  {
    var r := AddPoses(cfg, pi, ps, arc);
    forall k | 0 <= k < |ps|
      ensures forall i :: |ps[k].poses| <= i < |r[k].poses| ==> -pi < r[k].poses[i].theta <= pi
    {
      var news := PosesOf(cfg, pi, ps[k], arc);
      assert r[k].poses == ps[k].poses + news;
      forall i | |ps[k].poses| <= i < |r[k].poses| ensures -pi < r[k].poses[i].theta <= pi {
        assert r[k].poses[i] == news[i - |ps[k].poses|];
      }
    }
  }

  /** Multiplying by a quotient is dividing the product. */
  lemma MulDiv(a: real, b: real, c: real)
    requires c != 0.0
    ensures a * (b / c) == (a / c) * b
  {
    var x := b / c;
    assert x * c == b;
    assert (a / c) * b == (a / c) * (x * c);
    assert (a / c) * (x * c) == ((a / c) * c) * x;
    assert (a / c) * c == a;
  }

  /** n - 1 steps of a quotient by n - 1 make up the whole. */
  lemma ScaleBack(c: real, x: real)
    requires c != 0.0
    ensures c * (x / c) == x
  {
  }

  /**
   * A straight motion keeps its start heading and its i-th pose is the
   * fraction i / (n - 1) of the end vector in metres.
   */
  lemma StraightPoses(cfg: Config, pi: real, p: Primitive, arc: (Primitive, nat) -> Pose, i: nat)
    requires pi > 0.0 && cfg.numAngles > 0 && cfg.numPosesPerPrim >= 2
    requires IsStraight(p.movType)
    ensures var r := PoseAt(cfg, pi, p, arc, i);
      var f := (i as real) / ((cfg.numPosesPerPrim as real) - 1.0);
      && r.x == f * ((p.endX as real) * cfg.gridSize)
      && r.y == f * ((p.endY as real) * cfg.gridSize)
      && r.theta == Wrap(pi, (p.startAngle as real) * RadPerAngle(pi, cfg.numAngles))
  {
    var steps := (cfg.numPosesPerPrim as real) - 1.0;
    var raw := RawPose(cfg, pi, p, arc, i);
    assert raw == Pose((i as real) * (((p.endX as real) * cfg.gridSize) / steps),
                       (i as real) * (((p.endY as real) * cfg.gridSize) / steps),
                       (p.startAngle as real) * RadPerAngle(pi, cfg.numAngles));
    MulDiv(i as real, (p.endX as real) * cfg.gridSize, steps);
    MulDiv(i as real, (p.endY as real) * cfg.gridSize, steps);
    assert PoseAt(cfg, pi, p, arc, i) == Pose(raw.x, raw.y, Wrap(pi, raw.theta));
  }

  /** A straight motion starts at the origin and ends on its end cell, in metres. */
  lemma StraightEnds(cfg: Config, pi: real, p: Primitive, arc: (Primitive, nat) -> Pose)
    requires pi > 0.0 && cfg.numAngles > 0 && cfg.numPosesPerPrim >= 2
    requires IsStraight(p.movType)
    ensures PoseAt(cfg, pi, p, arc, 0).x == 0.0 && PoseAt(cfg, pi, p, arc, 0).y == 0.0
    ensures PoseAt(cfg, pi, p, arc, cfg.numPosesPerPrim - 1).x == (p.endX as real) * cfg.gridSize
    ensures PoseAt(cfg, pi, p, arc, cfg.numPosesPerPrim - 1).y == (p.endY as real) * cfg.gridSize
  {
    var steps := (cfg.numPosesPerPrim as real) - 1.0;
    assert ((cfg.numPosesPerPrim - 1) as real) == steps;
    ScaleBack(steps, (p.endX as real) * cfg.gridSize);
    ScaleBack(steps, (p.endY as real) * cfg.gridSize);
  }

  /**
   * A point turn of a generated primitive never leaves its (0, 0) end cell and
   * its i-th heading is the start heading advanced by i equal steps of
   * (raw - start) / (n - 1) discrete headings.
   */
  lemma PointTurnPoses(cfg: Config, pi: real, p: Primitive, arc: (Primitive, nat) -> Pose, i: nat)
    requires pi > 0.0 && cfg.numAngles > 0 && cfg.numPosesPerPrim >= 2
    requires p.movType == PointTurn && Expansion.WellFormed(p, cfg.numAngles)
    ensures var r := PoseAt(cfg, pi, p, arc, i);
      && r.x == 0.0 && r.y == 0.0
      && r.theta == Wrap(pi, (p.startAngle as real) * RadPerAngle(pi, cfg.numAngles) + (i as real) * TurnStep(cfg, pi, p))
  {
    var raw := RawPose(cfg, pi, p, arc, i);
    assert raw == Pose(0.0, 0.0, (p.startAngle as real) * RadPerAngle(pi, cfg.numAngles) + (i as real) * TurnStep(cfg, pi, p));
    assert PoseAt(cfg, pi, p, arc, i) == Pose(raw.x, raw.y, Wrap(pi, raw.theta));
  }

  /** Whole turns of discrete headings are whole turns in radians. */
  lemma HeadingTurns(pi: real, n: nat, e: int, q: int)
    requires pi > 0.0 && n > 0
    ensures ((e + q * n) as real) * RadPerAngle(pi, n) == (e as real) * RadPerAngle(pi, n) + (q as real) * (2.0 * pi)
  {
    var rad := RadPerAngle(pi, n);
    assert ((e + q * n) as real) == (e as real) + (q as real) * (n as real);
    assert ((e + q * n) as real) * rad == (e as real) * rad + (q as real) * ((n as real) * rad);
  }

  /** The last raw heading of a point turn is its raw end heading. */
  lemma PointTurnLastRaw(cfg: Config, pi: real, p: Primitive, arc: (Primitive, nat) -> Pose)
    requires pi > 0.0 && cfg.numAngles > 0 && cfg.numPosesPerPrim >= 2
    requires p.movType == PointTurn
    ensures RawPose(cfg, pi, p, arc, cfg.numPosesPerPrim - 1).theta
         == (p.rawEndTheta as real) * RadPerAngle(pi, cfg.numAngles)
  {
    var rad := RadPerAngle(pi, cfg.numAngles);
    var steps := (cfg.numPosesPerPrim as real) - 1.0;
    var turn := ((p.rawEndTheta - p.startAngle) as real) * rad;
    assert ((cfg.numPosesPerPrim - 1) as real) == steps;
    assert TurnStep(cfg, pi, p) == turn / steps;
    ScaleBack(steps, turn);
    assert (p.startAngle as real) * rad + turn == (p.rawEndTheta as real) * rad;
  }

  /** The last raw heading of every generated primitive is a whole number of turns from its end heading. */
  lemma LastRawHeading(cfg: Config, pi: real, p: Primitive, arc: (Primitive, nat) -> Pose) returns (q: int)
    requires pi > 0.0 && cfg.numAngles > 0 && cfg.numPosesPerPrim >= 2
    requires Expansion.WellFormed(p, cfg.numAngles)
    ensures RawPose(cfg, pi, p, arc, cfg.numPosesPerPrim - 1).theta
         == (p.endTheta as real) * RadPerAngle(pi, cfg.numAngles) + (q as real) * (2.0 * pi)
  {
    var n := cfg.numAngles;
    if IsStraight(p.movType) {
      TruncateInRange(p.startAngle, n);
      q := 0;
    } else if p.movType == PointTurn {
      PointTurnLastRaw(cfg, pi, p, arc);
      q := p.rawEndTheta / n;
      assert p.rawEndTheta == p.endTheta + q * n;
      HeadingTurns(pi, n, p.endTheta, q);
    } else {
      q := 0;
    }
  }

  /**
   * Every generated primitive ends on its discrete end heading: the last pose's
   * heading is endTheta * 2 pi / N normalised, for straight motions (whose end
   * heading is the start heading), point turns (which turn to the raw end
   * heading) and arcs alike.
   */
  lemma FinalHeading(cfg: Config, pi: real, p: Primitive, arc: (Primitive, nat) -> Pose)
    requires pi > 0.0 && cfg.numAngles > 0 && cfg.numPosesPerPrim >= 2
    requires Expansion.WellFormed(p, cfg.numAngles)
    ensures PoseAt(cfg, pi, p, arc, cfg.numPosesPerPrim - 1).theta
         == Wrap(pi, (p.endTheta as real) * RadPerAngle(pi, cfg.numAngles))
  {
    var q := LastRawHeading(cfg, pi, p, arc);
    WrapPeriodic(pi, (p.endTheta as real) * RadPerAngle(pi, cfg.numAngles), q);
  }

  /**
   * The two normalisation loops: add whole turns while the heading is at or
   * below -pi, then subtract whole turns while it is above pi.  The result is
   * the single heading in (-pi, pi] a whole number of turns from theta.
   */
  method NormalizeHeading(pi: real, theta: real) returns (r: real)
    requires pi > 0.0
    ensures r == Wrap(pi, theta)
  {
    var c := 2.0 * pi;
    ghost var w := Wrap(pi, theta);
    ghost var d: int := WrapTurns(pi, theta);
    r := theta;
    assert w == theta - 2.0 * pi * (d as real);
    assert 2.0 * pi * (d as real) == (d as real) * c;
    while r <= -pi
      invariant r == w + (d as real) * c
      decreases -d
    {
      ScaledOrder(d, 0, c);
      r := r + c;
      d := d + 1;
    }
    while r > pi
      invariant r == w + (d as real) * c
      invariant -pi < r
      decreases d
    {
      ScaledOrder(0, d, c);
      r := r - c;
      d := d - 1;
    }
    SameTurnsInRange(pi, r, w, d);
  }
}
