/**
 * SbplMotionPrimitives: the motion-primitive generator object.  It holds the
 * configuration, the heading-0 base primitives, the generated primitive list
 * and the speed table, and fills them in createPrimitives by building the
 * base primitives, expanding them over all headings and adding the
 * intermediate poses.
 */
module Sbpl {
  import opened Geometry
  import opened Primitives
  import opened BasePrims
  import opened Search
  import opened Expansion
  import opened Poses
  import opened Orientation

  /**
   * The primitive list createPrimitives builds from a set profile: sorted by
   * start heading and then id, every id indexes the speed table at the
   * signed speed of its own movement type, every primitive carries exactly
   * numPosesPerPrim poses, and the last pose's heading converts back to the
   * primitive's discrete end heading.
   */
  lemma CreatedPrimitivesFacts(cfg: Config, geom: (nat, nat, nat) -> Geom, fuel: nat, arc: (Primitive, nat) -> Pose)
    requires cfg.numAngles > 0 && cfg.numPrimPartition >= 1 && cfg.gridSize != 0.0 && cfg.numPosesPerPrim != 1
    ensures var base := BaseList(cfg.mobility, cfg.gridSize);
      var table := SpeedTable(base, cfg.numPrimPartition, cfg.mobility.speed);
      var s := AddPoses(cfg, MPi, AllPrims(cfg, base, geom, fuel, 0), arc);
      && Sorted(s)
      && forall k :: 0 <= k < |s| ==>
           && 0 <= s[k].id < |table|
           && table[s[k].id] == SpeedOf(s[k].movType, cfg.mobility.speed)
           && |s[k].poses| == cfg.numPosesPerPrim
           && (cfg.numPosesPerPrim >= 2 ==>
                 DiscreteOrientation(MPi, cfg.numAngles, s[k].poses[cfg.numPosesPerPrim - 1].theta) == s[k].endTheta)
  {
    var base := BaseList(cfg.mobility, cfg.gridSize);
    var ps := AllPrims(cfg, base, geom, fuel, 0);
    var s := AddPoses(cfg, MPi, ps, arc);
    AllPrimsFacts(cfg, base, geom, fuel, 0);
    SpeedOfEveryPrimitive(cfg, base, geom, fuel);
    AddPosesKeeps(cfg, MPi, ps, arc);
    forall a, b | 0 <= a < b < |s| ensures Before(s[a], s[b]) {
      assert Before(ps[a], ps[b]);
    }
    forall k | 0 <= k < |s| && cfg.numPosesPerPrim >= 2
      ensures DiscreteOrientation(MPi, cfg.numAngles, s[k].poses[cfg.numPosesPerPrim - 1].theta) == s[k].endTheta
    {
      assert s[k].poses == [] + PosesOf(cfg, MPi, ps[k], arc);
      FinalPoseOrientation(cfg, MPi, ps[k], arc);
    }
  }

  class SbplMotionPrimitives {
    const config: Config
    var listAngle0: seq<BasePrim>
    var listPrimitives: seq<Primitive>
    var id2Speed: seq<real>

    /** The constructor taking a configuration; all lists start empty. */
    constructor(cfg: Config)
      requires cfg.numAngles > 0
      ensures config == cfg
      ensures listAngle0 == [] && listPrimitives == [] && id2Speed == []
    {
      config := cfg;
      listAngle0 := [];
      listPrimitives := [];
      id2Speed := [];
    }

    /**
     * push_back onto both lists of createMPrimsForAngle0.  `done` are the
     * base primitives emitted so far, before numbering.
     */
    method PushBase(prim: BasePrim, speed: real, ghost done: seq<BasePrim>)
      requires listAngle0 == Numbered(done) && id2Speed == Speeds(listAngle0, config.mobility.speed)
      requires prim.id == |done| && speed == SpeedOf(prim.movType, config.mobility.speed)
      modifies this`listAngle0, this`id2Speed
      ensures listAngle0 == old(listAngle0) + [prim]
      ensures id2Speed == old(id2Speed) + [speed]
      ensures listAngle0 == Numbered(done + [prim.(id := 0)])
      ensures id2Speed == Speeds(listAngle0, config.mobility.speed)
    {
      listAngle0 := listAngle0 + [prim];
      id2Speed := id2Speed + [speed];
      assert Numbered(done + [prim.(id := 0)]) == Numbered(done) + [prim];
    }

    /** The first part of createMPrimsForAngle0: the forward, backward and lateral base primitives. */
    method PushStraights()
      requires listAngle0 == [] && id2Speed == []
      modifies this`listAngle0, this`id2Speed
      ensures listAngle0 == Numbered(GroupOf(config.mobility, 0.0, Forward) + GroupOf(config.mobility, 0.0, Backward)
                                     + GroupOf(config.mobility, 0.0, Lateral))
      ensures id2Speed == Speeds(listAngle0, config.mobility.speed)
    {
      var m := config.mobility;
      var zero := Vec(0.0, 0.0);
      var primId := 0;
      ghost var done: seq<BasePrim> := [];

      if m.multiplierForward > 0 {
        PushBase(BasePrim(primId, 1, 0, 0, m.multiplierForward, Forward, zero), m.speed, done);
        done := done + [BasePrim(0, 1, 0, 0, m.multiplierForward, Forward, zero)];
        primId := primId + 1;
      }
      assert done == GroupOf(m, 0.0, Forward);
      ghost var before := done;

      if m.multiplierBackward > 0 {
        PushBase(BasePrim(primId, -1, 0, 0, m.multiplierBackward, Backward, zero), -m.speed, done);
        done := done + [BasePrim(0, -1, 0, 0, m.multiplierBackward, Backward, zero)];
        primId := primId + 1;
      }
      assert done == before + GroupOf(m, 0.0, Backward);
      before := done;

      if m.multiplierLateral > 0 {
        PushBase(BasePrim(primId, 0, 1, 0, m.multiplierLateral, Lateral, zero), m.speed, done);
        done := done + [BasePrim(0, 0, 1, 0, m.multiplierLateral, Lateral, zero)];
        primId := primId + 1;
        PushBase(BasePrim(primId, 0, -1, 0, m.multiplierLateral, Lateral, zero), m.speed, done);
        done := done + [BasePrim(0, 0, -1, 0, m.multiplierLateral, Lateral, zero)];
        primId := primId + 1;
      }
      assert done == before + GroupOf(m, 0.0, Lateral);
    }

    /** The point-turn part of createMPrimsForAngle0: turning on the spot to the left and to the right. */
    method PushPointTurns(ghost done: seq<BasePrim>)
      requires listAngle0 == Numbered(done) && id2Speed == Speeds(listAngle0, config.mobility.speed)
      modifies this`listAngle0, this`id2Speed
      ensures listAngle0 == Numbered(done + GroupOf(config.mobility, 0.0, PointTurn))
      ensures id2Speed == Speeds(listAngle0, config.mobility.speed)
    {
      var m := config.mobility;
      var zero := Vec(0.0, 0.0);
      var primId := |listAngle0|;
      ghost var emitted := done;

      if m.multiplierPointTurn > 0 {
        PushBase(BasePrim(primId, 0, 0, 1, m.multiplierPointTurn, PointTurn, zero), m.speed, emitted);
        emitted := emitted + [BasePrim(0, 0, 0, 1, m.multiplierPointTurn, PointTurn, zero)];
        primId := primId + 1;
        PushBase(BasePrim(primId, 0, 0, -1, m.multiplierPointTurn, PointTurn, zero), m.speed, emitted);
        emitted := emitted + [BasePrim(0, 0, 0, -1, m.multiplierPointTurn, PointTurn, zero)];
        primId := primId + 1;
      }
      assert emitted == done + GroupOf(m, 0.0, PointTurn);
    }

    /** The second part of createMPrimsForAngle0: the left and right forward and backward curves. */
    method PushCurves(radius: real, ghost done: seq<BasePrim>)
      requires listAngle0 == Numbered(done) && id2Speed == Speeds(listAngle0, config.mobility.speed)
      modifies this`listAngle0, this`id2Speed
      ensures listAngle0 == Numbered(done + GroupOf(config.mobility, radius, ForwardTurn) + GroupOf(config.mobility, radius, BackwardTurn))
      ensures id2Speed == Speeds(listAngle0, config.mobility.speed)
    {
      var m := config.mobility;
      var primId := |listAngle0|;
      ghost var emitted := done;

      if m.multiplierForwardTurn != 0 {
        PushBase(BasePrim(primId, 0, 0, 1, m.multiplierForwardTurn, ForwardTurn, Vec(0.0, radius)), m.speed, emitted);
        emitted := emitted + [BasePrim(0, 0, 0, 1, m.multiplierForwardTurn, ForwardTurn, Vec(0.0, radius))];
        primId := primId + 1;
        PushBase(BasePrim(primId, 0, 0, -1, m.multiplierForwardTurn, ForwardTurn, Vec(0.0, -radius)), m.speed, emitted);
        emitted := emitted + [BasePrim(0, 0, 0, -1, m.multiplierForwardTurn, ForwardTurn, Vec(0.0, -radius))];
        primId := primId + 1;
      }
      assert emitted == done + GroupOf(m, radius, ForwardTurn);

      if m.multiplierBackwardTurn > 0 {
        PushBase(BasePrim(primId, 0, 0, 1, m.multiplierBackwardTurn, BackwardTurn, Vec(0.0, -radius)), -m.speed, emitted);
        emitted := emitted + [BasePrim(0, 0, 0, 1, m.multiplierBackwardTurn, BackwardTurn, Vec(0.0, -radius))];
        primId := primId + 1;
        PushBase(BasePrim(primId, 0, 0, -1, m.multiplierBackwardTurn, BackwardTurn, Vec(0.0, radius)), -m.speed, emitted);
        emitted := emitted + [BasePrim(0, 0, 0, -1, m.multiplierBackwardTurn, BackwardTurn, Vec(0.0, radius))];
        primId := primId + 1;
      }
      assert emitted == done + GroupOf(m, radius, ForwardTurn) + GroupOf(m, radius, BackwardTurn);
    }

    /**
     * Builds the heading-0 base primitives with consecutive ids and the speed
     * table, each base primitive's signed speed repeated P times.
     */
    method CreateMPrimsForAngle0() returns (r: seq<BasePrim>)
      requires config.numPrimPartition >= 1 && config.gridSize != 0.0
      modifies this`listAngle0, this`id2Speed
      ensures listAngle0 == BaseList(config.mobility, config.gridSize)
      ensures id2Speed == SpeedTable(listAngle0, config.numPrimPartition, config.mobility.speed)
      ensures r == listAngle0
    {
      var m := config.mobility;
      listAngle0 := [];
      id2Speed := [];
      PushStraights();
      ghost var straights := GroupOf(m, 0.0, Forward) + GroupOf(m, 0.0, Backward) + GroupOf(m, 0.0, Lateral);
      PushPointTurns(straights);
      // The minimal turning radius in grid cells, at least one cell.
      var radius := TurningRadius(m, config.gridSize);
      ghost var done := GroupOf(m, radius, Forward) + GroupOf(m, radius, Backward)
                      + GroupOf(m, radius, Lateral) + GroupOf(m, radius, PointTurn);
      PushCurves(radius, done);
      assert done + GroupOf(m, radius, ForwardTurn) + GroupOf(m, radius, BackwardTurn) == Groups(m, radius);
      ReplicateSpeeds();
      r := listAngle0;
    }

    /** The nested loops that repeat every speed of the table P times, one per primitive id. */
    method ReplicateSpeeds()
      requires config.numPrimPartition >= 1
      modifies this`id2Speed
      ensures id2Speed == Repeat(old(id2Speed), config.numPrimPartition)
    {
      var p := config.numPrimPartition;
      var speeds := id2Speed;
      var tmp: seq<real> := [];
      var i := 0;
      while i < |speeds|
        invariant 0 <= i <= |speeds|
        invariant tmp == Repeat(speeds[..i], p)
      {
        var j := 0;
        while j < p
          invariant 0 <= j <= p
          invariant tmp == Repeat(speeds[..i], p) + seq(j, _ => speeds[i])
        {
          tmp := tmp + [speeds[i]];
          j := j + 1;
        }
        assert speeds[..i + 1][..i] == speeds[..i];
        i := i + 1;
      }
      assert speeds[..i] == speeds;
      id2Speed := tmp;
    }

    /**
     * One pass of createMPrims' while loop at try i: probe the candidate, run
     * the gates and the dedup set.  `accepted` is the primitive it appends, if
     * any; `stop` says a break gate fired.
     */
    method SlotStep(b: BasePrim, j: nat, h: nat, geom: (nat, nat, nat) -> Geom, fuel: nat,
                    i: nat, cursor: nat, seen: set<Triple>, added: nat)
      returns (nextCursor: nat, nextSeen: set<Triple>, nextAdded: nat, accepted: seq<Primitive>, stop: bool)
      requires config.numAngles > 0 && added < config.numPrimPartition && i < fuel
      requires IsArc(b.movType) ==> cursor == Cursor(i, Upper(config.numAngles))
      ensures IsArc(b.movType) ==> nextCursor == Cursor(i + 1, Upper(config.numAngles))
      ensures stop ==> Run(config, b, j, h, geom, fuel, i, seen, added) == SlotRun([], [], true)
      ensures !stop ==>
        var r := Run(config, b, j, h, geom, fuel, i, seen, added);
        var rest := Run(config, b, j, h, geom, fuel, i + 1, nextSeen, nextAdded);
        r.prims == accepted + rest.prims && r.halted == rest.halted
    {
      var n := config.numAngles;
      var upper := n / 4;
      RunStep(config, b, j, h, geom, fuel, i, seen, added);
      var id := b.id * config.numPrimPartition + added;
      // The switch on the movement type: a point turn turns by i + 1 steps,
      // an arc by the cursor, a straight motion keeps the heading.
      var g := geom(h, j, i);
      var c: Candidate;
      match b.movType {
        case PointTurn =>
          c := Candidate(0, 0, (i + 1) * b.turn + h, 0.0, 0.0, 0.0, Vec(0.0, 0.0));
        case ForwardTurn =>
          c := Candidate(g.dx, g.dy, cursor * b.turn + h, g.error, g.backY, g.norm, g.center);
        case BackwardTurn =>
          c := Candidate(g.dx, g.dy, cursor * b.turn + h, g.error, g.backY, g.norm, g.center);
        case _ =>
          c := Candidate(g.dx, g.dy, h, g.error, g.backY, g.norm, g.center);
      }
      assert c == CandidateAt(config, b, j, h, geom, i);
      nextCursor := cursor;
      if IsArc(b.movType) {
        nextCursor := cursor + 1;
        if nextCursor > upper {
          nextCursor := 1;
        }
        CursorStep(i, upper);
      }
      nextSeen, nextAdded, accepted, stop := seen, added, [], false;
      // The checks in the source's order; after d++ a point turn has d == i + 1.
      if c.error > config.primAccuracy {
        return;
      }
      if IsArc(b.movType) && !CurveValid(b.center.y, c.backY) {
        return;
      }
      if b.movType == PointTurn && i + 2 > upper {
        stop := true;
        return;
      }
      if c.norm > MaxDistToCenterGrids {
        stop := true;
        return;
      }
      assert VerdictAt(config, b, j, h, geom, i) == Offer;
      var t := Triple(c.dx, c.dy, c.rawAngle);
      assert t == TripleOf(c);
      if t !in seen {
        var prim := Primitive(id, h, c.dx, c.dy, Truncate(c.rawAngle, n), c.rawAngle, b.cost, b.movType, c.center, []);
        assert prim == Accept(config, b, h, c, added);
        nextSeen := seen + {t};
        nextAdded := added + 1;
        accepted := [prim];
      }
    }

    /**
     * The while loop of createMPrims for heading h and base primitive b (the
     * j-th): candidates are probed until P have been accepted, a break gate
     * fires or `fuel` iterations have run.
     */
    method SearchSlot(b: BasePrim, j: nat, h: nat, geom: (nat, nat, nat) -> Geom, fuel: nat)
      returns (found: seq<Primitive>, halted: bool)
      requires config.numAngles > 0
      ensures found == Run(config, b, j, h, geom, fuel, 0, {}, 0).prims
      ensures halted == Run(config, b, j, h, geom, fuel, 0, {}, 0).halted
    {
      var p := config.numPrimPartition;
      var cursor := 1;
      var seen: set<Triple> := {};
      var added: nat := 0;
      var i: nat := 0;
      found := [];
      while added < p && i < fuel
        invariant IsArc(b.movType) ==> cursor == Cursor(i, Upper(config.numAngles))
        invariant Run(config, b, j, h, geom, fuel, 0, {}, 0).prims == found + Run(config, b, j, h, geom, fuel, i, seen, added).prims
        invariant Run(config, b, j, h, geom, fuel, 0, {}, 0).halted == Run(config, b, j, h, geom, fuel, i, seen, added).halted
        decreases fuel - i
      {
        var nextCursor, nextSeen, nextAdded, accepted, stop := SlotStep(b, j, h, geom, fuel, i, cursor, seen, added);
        if stop {
          return found, true;
        }
        AppendAssoc(found, accepted, Run(config, b, j, h, geom, fuel, i + 1, nextSeen, nextAdded).prims);
        found := found + accepted;
        cursor, seen, added, i := nextCursor, nextSeen, nextAdded, i + 1;
      }
      halted := added >= p;
    }

    /**
     * The body of createMPrims' loop over headings: for heading h, the
     * primitives each base primitive's search accepts are appended in base
     * order.
     */
    method ExpandHeading(prims0: seq<BasePrim>, geom: (nat, nat, nat) -> Geom, fuel: nat, h: nat)
      requires config.numAngles > 0
      modifies this`listPrimitives
      ensures listPrimitives == old(listPrimitives) + HeadingPrims(config, prims0, geom, fuel, h, 0)
    {
      ghost var start := listPrimitives;
      var j := 0;
      while j < |prims0|
        invariant j <= |prims0|
        invariant listPrimitives + HeadingPrims(config, prims0, geom, fuel, h, j)
               == start + HeadingPrims(config, prims0, geom, fuel, h, 0)
      {
        var found, _ := SearchSlot(prims0[j], j, h, geom, fuel);
        ghost var later := HeadingPrims(config, prims0, geom, fuel, h, j + 1);
        assert HeadingPrims(config, prims0, geom, fuel, h, j) == found + later;
        assert listPrimitives + (found + later) == (listPrimitives + found) + later;
        listPrimitives := listPrimitives + found;
        j := j + 1;
      }
      assert HeadingPrims(config, prims0, geom, fuel, h, j) == [];
      assert listPrimitives + [] == listPrimitives;
    }

    /**
     * Expands the base primitives over every heading: heading by heading and
     * base primitive by base primitive, the primitives each search accepts.
     */
    method CreateMPrims(prims0: seq<BasePrim>, geom: (nat, nat, nat) -> Geom, fuel: nat) returns (r: seq<Primitive>)
      requires config.numAngles > 0
      modifies this`listPrimitives
      ensures listPrimitives == AllPrims(config, prims0, geom, fuel, 0)
      ensures r == listPrimitives
    {
      ghost var total := AllPrims(config, prims0, geom, fuel, 0);
      listPrimitives := [];
      var h := 0;
      while h < config.numAngles
        invariant h <= config.numAngles
        invariant listPrimitives + AllPrims(config, prims0, geom, fuel, h) == total
      {
        ghost var before := listPrimitives;
        ghost var heading := HeadingPrims(config, prims0, geom, fuel, h, 0);
        ghost var later := AllPrims(config, prims0, geom, fuel, h + 1);
        assert AllPrims(config, prims0, geom, fuel, h) == heading + later;
        assert before + (heading + later) == (before + heading) + later;
        ExpandHeading(prims0, geom, fuel, h);
        h := h + 1;
      }
      assert AllPrims(config, prims0, geom, fuel, h) == [];
      assert listPrimitives + [] == listPrimitives;
      r := listPrimitives;
    }

    /**
     * Appends numPosesPerPrim intermediate poses to every primitive of the
     * list, each heading normalised into (-pi, pi].
     */
    method CreateIntermediatePoses(arc: (Primitive, nat) -> Pose)
      requires config.numAngles > 0 && config.numPosesPerPrim != 1
      modifies this`listPrimitives
      ensures listPrimitives == AddPoses(config, MPi, old(listPrimitives), arc)
    {
      var list := listPrimitives;
      var k := 0;
      while k < |list|
        invariant |list| == |old(listPrimitives)|
        invariant 0 <= k <= |list|
        invariant forall q :: 0 <= q < k ==> list[q] == WithPoses(config, MPi, old(listPrimitives)[q], arc)
        invariant forall q :: k <= q < |list| ==> list[q] == old(listPrimitives)[q]
      {
        var prim := list[k];
        var poses := prim.poses;
        var i := 0;
        while i < config.numPosesPerPrim
          invariant 0 <= i <= config.numPosesPerPrim
          invariant poses == prim.poses + PosesOf(config, MPi, prim, arc)[..i]
        {
          var raw := RawPose(config, MPi, prim, arc, i);
          var theta := NormalizeHeading(MPi, raw.theta);
          assert PosesOf(config, MPi, prim, arc)[..i + 1] == PosesOf(config, MPi, prim, arc)[..i] + [Pose(raw.x, raw.y, theta)];
          poses := poses + [Pose(raw.x, raw.y, theta)];
          i := i + 1;
        }
        assert PosesOf(config, MPi, prim, arc)[..i] == PosesOf(config, MPi, prim, arc);
        list := list[k := prim.(poses := poses)];
        k := k + 1;
      }
      listPrimitives := list;
    }

    /**
     * Fills the primitive list unless every multiplier is zero, in which case
     * nothing changes.
     */
    method CreatePrimitives(geom: (nat, nat, nat) -> Geom, fuel: nat, arc: (Primitive, nat) -> Pose)
      requires config.numAngles > 0
      requires IsSet(config.mobility) ==>
        config.numPrimPartition >= 1 && config.gridSize != 0.0 && config.numPosesPerPrim != 1
      modifies this`listAngle0, this`id2Speed, this`listPrimitives
      ensures !IsSet(config.mobility) ==>
        listAngle0 == old(listAngle0) && id2Speed == old(id2Speed) && listPrimitives == old(listPrimitives)
      ensures IsSet(config.mobility) ==>
        && listAngle0 == BaseList(config.mobility, config.gridSize)
        && id2Speed == SpeedTable(listAngle0, config.numPrimPartition, config.mobility.speed)
        && listPrimitives == AddPoses(config, MPi, AllPrims(config, listAngle0, geom, fuel, 0), arc)
    {
      if !IsSet(config.mobility) {
        return;
      }
      var prims0 := CreateMPrimsForAngle0();
      var _ := CreateMPrims(prims0, geom, fuel);
      CreateIntermediatePoses(arc);
    }

    /**
     * The speed of primitive id `primId`: found exactly when the id indexes
     * the speed table; otherwise the caller's value is left as it was.
     */
    method GetSpeed(primId: nat, speed: real) returns (ok: bool, speedOut: real)
      ensures ok <==> primId < |id2Speed|
      ensures ok ==> speedOut == id2Speed[primId]
      ensures !ok ==> speedOut == speed
    {
      if primId >= |id2Speed| {
        return false, speed;
      }
      return true, id2Speed[primId];
    }

    /**
     * calcDiscreteEndOrientation as written: round(yaw / N), then whole N
     * are subtracted or added until the value lies in [0, N).
     */
    method CalcDiscreteEndOrientation(yaw: real) returns (r: int)
      requires config.numAngles > 0
      ensures r == AsWrittenOrientation(config.numAngles, yaw)
    {
      var n := config.numAngles;
      var x := Round(yaw / (n as real));
      r := x;
      ghost var q: int := 0;
      while r >= n
        invariant x == r + q * n
        decreases r
      {
        MulSucc(q, n);
        r := r - n;
        q := q + 1;
      }
      while r < 0
        invariant x == r + q * n
        invariant r < n
        decreases -r
      {
        MulSucc(q - 1, n);
        r := r + n;
        q := q - 1;
      }
      ModUnique(x, r, q, n);
    }
  }
}
