/**
 * The acceptance search of createMPrims.  For one heading h and one base
 * primitive b the source runs `while (prims_added < P)`: each iteration
 * computes a candidate end pose, passes it through the accuracy gate, the
 * curve-side gate, the point-turn bound, the distance cap and the dedup set,
 * and appends the candidates that pass with ids b.id * P + prims_added.
 *
 * The floating-point geometry of straight and arc candidates (rotation,
 * scaling by 1 + d, rounding, norms) is not modelled: `geom(h, j, i)` is what
 * that geometry yields at iteration i for base primitive j.  Point turns need
 * no geometry and are computed exactly.  The loop is run for at most `fuel`
 * iterations; `halted` says whether it ended on its own.
 */
module Search {
  import opened Geometry
  import opened Primitives

  /**
   * What the float geometry yields at one iteration: the rounded end cell,
   * the distance between the rounded and unrounded end position, the y of the
   * rounded end rotated back by -heading, the norm of the unrounded end
   * position and the scaled centre of rotation.
   */
  datatype Geom = Geom(dx: int, dy: int, error: real, backY: real, norm: real, center: Vec)

  /** One candidate: its geometry together with its raw (untruncated) end heading. */
  datatype Candidate = Candidate(dx: int, dy: int, rawAngle: int, error: real, backY: real, norm: real, center: Vec)

  /** The dedup key: rounded dx, rounded dy and raw end heading. */
  datatype Triple = Triple(x: int, y: int, theta: int)

  /** continue, break, or go on to the dedup set. */
  datatype Verdict = Skip | Stop | Offer

  /** Outcome of one (heading, base primitive) search. */
  datatype SlotRun = SlotRun(prims: seq<Primitive>, picks: seq<nat>, halted: bool)

  /** max_dist_to_center_grids. */
  const MaxDistToCenterGrids: real := 100.0

  /** upper_discrete_angle = ceil(mNumAngles / 4) with an integer quotient, so N / 4. */
  function Upper(n: nat): nat {
    n / 4
  }

  /** current_discrete_angle at iteration i: it cycles 1, 2, ..., upper, and stays 1 when upper is 0. */
  function Cursor(i: nat, upper: nat): (c: nat)
    ensures 1 <= c
    ensures upper > 0 ==> c <= upper
  {
    if upper == 0 then 1 else i % upper + 1
  }

  /** current_discrete_angle is incremented and reset to 1 past upper: the next cursor. */
  lemma CursorStep(i: nat, upper: nat)
    ensures Cursor(i + 1, upper) == if Cursor(i, upper) + 1 > upper then 1 else Cursor(i, upper) + 1
  {
    if upper > 0 {
      var q, r := i / upper, i % upper;
      assert i == r + q * upper;
      if r + 1 < upper {
        ModUnique(i + 1, r + 1, q, upper);
      } else {
        MulSucc(q, upper);
        ModUnique(i + 1, 0, q + 1, upper);
      }
    }
  }

  /**
   * The candidate of iteration i.  A point turn stays at (0, 0) and turns by
   * i + 1 steps (its d equals i); an arc turns by the cursor; a straight motion
   * keeps the heading.
   */
  function Probe(b: BasePrim, h: nat, i: nat, upper: nat, g: Geom): Candidate
  {
    match b.movType
    case PointTurn => Candidate(0, 0, (i + 1) * b.turn + h, 0.0, 0.0, 0.0, Vec(0.0, 0.0))
    case ForwardTurn => Candidate(g.dx, g.dy, Cursor(i, upper) * b.turn + h, g.error, g.backY, g.norm, g.center)
    case BackwardTurn => Candidate(g.dx, g.dy, Cursor(i, upper) * b.turn + h, g.error, g.backY, g.norm, g.center)
    case _ => Candidate(g.dx, g.dy, h, g.error, g.backY, g.norm, g.center)
  }

  /** The rotated-back end lies strictly on the same side of the x axis as the centre of rotation. */
  predicate CurveValid(centerY: real, backY: real) {
    (centerY > 0.0 && backY > 0.0) || (centerY < 0.0 && backY < 0.0)
  }

  /** The gates in the source's order; `i + 2 > upper` is `(d + 1) > upper_discrete_angle` after d++. */
  function Gate(b: BasePrim, c: Candidate, i: nat, acc: real, upper: nat): Verdict
  {
    if c.error > acc then Skip
    else if IsArc(b.movType) && !CurveValid(b.center.y, c.backY) then Skip
    else if b.movType == PointTurn && i + 2 > upper then Stop
    else if c.norm > MaxDistToCenterGrids then Stop
    else Offer
  }

  function TripleOf(c: Candidate): Triple {
    Triple(c.dx, c.dy, c.rawAngle)
  }

  /** The dedup key of a generated primitive. */
  function PrimTriple(p: Primitive): Triple {
    Triple(p.endX, p.endY, p.rawEndTheta)
  }

  /** The primitive the source materialises for an accepted candidate. */
  function Accept(cfg: Config, b: BasePrim, h: nat, c: Candidate, added: nat): Primitive
    requires cfg.numAngles > 0
  {
    Primitive(b.id * cfg.numPrimPartition + added, h, c.dx, c.dy,
              Truncate(c.rawAngle, cfg.numAngles), c.rawAngle, b.cost, b.movType, c.center, [])
  }

  /**
   * A point turn stays on its cell and is exact; every other movement takes
   * its end cell, rounding error and length from the float geometry; a
   * straight motion keeps the heading.
   */
  lemma ProbeShape(b: BasePrim, h: nat, i: nat, upper: nat, g: Geom)
    ensures var c := Probe(b, h, i, upper, g);
      && (b.movType == PointTurn ==> c.dx == 0 && c.dy == 0 && c.error == 0.0 && c.norm == 0.0)
      && (b.movType != PointTurn ==> c.dx == g.dx && c.dy == g.dy && c.error == g.error && c.norm == g.norm)
      && (IsStraight(b.movType) ==> c.rawAngle == h)
  {
  }

  /**
   * A candidate goes on to the dedup set exactly when it is close enough,
   * on the right side for a curve, within the point-turn bound and the
   * distance cap; it breaks exactly when it passes the two continue checks
   * and then fails the bound or the cap.
   */
  lemma GateVerdicts(b: BasePrim, c: Candidate, i: nat, acc: real, upper: nat)
    ensures Gate(b, c, i, acc, upper) == Offer <==>
      && c.error <= acc
      && (IsArc(b.movType) ==> CurveValid(b.center.y, c.backY))
      && !(b.movType == PointTurn && i + 2 > upper)
      && c.norm <= MaxDistToCenterGrids
    ensures Gate(b, c, i, acc, upper) == Stop <==>
      && c.error <= acc
      && (IsArc(b.movType) ==> CurveValid(b.center.y, c.backY))
      && ((b.movType == PointTurn && i + 2 > upper) || c.norm > MaxDistToCenterGrids)
  {
  }

  /**
   * The accepted primitive carries id b.id * P + added, starts at heading h,
   * has the candidate's dedup key, a truncated end heading in [0, N), the
   * base primitive's type and cost, and no poses yet.
   */
  lemma AcceptedPrimitive(cfg: Config, b: BasePrim, h: nat, c: Candidate, added: nat)
    requires cfg.numAngles > 0
    ensures var p := Accept(cfg, b, h, c, added);
      && p.id == b.id * cfg.numPrimPartition + added && p.startAngle == h
      && PrimTriple(p) == TripleOf(c)
      && 0 <= p.endTheta < cfg.numAngles
      && p.movType == b.movType && p.cost == b.cost && p.poses == []
  {
  }

  /** The candidate of iteration i of slot (h, j). */
  function CandidateAt(cfg: Config, b: BasePrim, j: nat, h: nat, geom: (nat, nat, nat) -> Geom, i: nat): Candidate {
    Probe(b, h, i, Upper(cfg.numAngles), geom(h, j, i))
  }

  function VerdictAt(cfg: Config, b: BasePrim, j: nat, h: nat, geom: (nat, nat, nat) -> Geom, i: nat): Verdict {
    Gate(b, CandidateAt(cfg, b, j, h, geom, i), i, cfg.primAccuracy, Upper(cfg.numAngles))
  }

  /**
   * The while loop of one slot from iteration i on, with `seen` the dedup set
   * and `added` the primitives accepted so far.
   */
  function Run(cfg: Config, b: BasePrim, j: nat, h: nat, geom: (nat, nat, nat) -> Geom,
               fuel: nat, i: nat, seen: set<Triple>, added: nat): SlotRun
    requires cfg.numAngles > 0
    decreases fuel - i
  {
    if added >= cfg.numPrimPartition then SlotRun([], [], true)
    else if i >= fuel then SlotRun([], [], false)
    else
      var c := CandidateAt(cfg, b, j, h, geom, i);
      match VerdictAt(cfg, b, j, h, geom, i)
      case Skip => Run(cfg, b, j, h, geom, fuel, i + 1, seen, added)
      case Stop => SlotRun([], [], true)
      case Offer =>
        if TripleOf(c) in seen then Run(cfg, b, j, h, geom, fuel, i + 1, seen, added)
        else
          var rest := Run(cfg, b, j, h, geom, fuel, i + 1, seen + {TripleOf(c)}, added + 1);
          SlotRun([Accept(cfg, b, h, c, added)] + rest.prims, [i] + rest.picks, rest.halted)
  }

  /** One iteration of the search, unfolded: what each verdict does with the rest of the loop. */
  lemma RunStep(cfg: Config, b: BasePrim, j: nat, h: nat, geom: (nat, nat, nat) -> Geom,
                fuel: nat, i: nat, seen: set<Triple>, added: nat)
    requires cfg.numAngles > 0 && added < cfg.numPrimPartition && i < fuel
    ensures var r := Run(cfg, b, j, h, geom, fuel, i, seen, added);
      var c := CandidateAt(cfg, b, j, h, geom, i);
      var v := VerdictAt(cfg, b, j, h, geom, i);
      && (v == Skip ==> r == Run(cfg, b, j, h, geom, fuel, i + 1, seen, added))
      && (v == Stop ==> r == SlotRun([], [], true))
      && (v == Offer && TripleOf(c) in seen ==> r == Run(cfg, b, j, h, geom, fuel, i + 1, seen, added))
      && (v == Offer && TripleOf(c) !in seen ==>
            var rest := Run(cfg, b, j, h, geom, fuel, i + 1, seen + {TripleOf(c)}, added + 1);
            r.prims == [Accept(cfg, b, h, c, added)] + rest.prims && r.halted == rest.halted)
  {
  }

  /**
   * Everything the search accepts: at most P - added primitives, each built
   * from a candidate that cleared every gate at a strictly later iteration than
   * the one before, with consecutive ids, and with pairwise distinct dedup
   * keys not already in `seen`.
   */
  lemma RunSound(cfg: Config, b: BasePrim, j: nat, h: nat, geom: (nat, nat, nat) -> Geom,
                 fuel: nat, i: nat, seen: set<Triple>, added: nat)
    requires cfg.numAngles > 0
    ensures var r := Run(cfg, b, j, h, geom, fuel, i, seen, added);
      && (|r.prims| > 0 ==> added + |r.prims| <= cfg.numPrimPartition)
      && Picked(cfg, b, j, h, geom, fuel, i, added, r.prims, r.picks)
      && KeysFresh(r.prims, seen)
      && KeysDistinct(r.prims)
  {
    RunPicks(cfg, b, j, h, geom, fuel, i, seen, added);
    RunKeys(cfg, b, j, h, geom, fuel, i, seen, added);
  }

  /**
   * The picks are strictly increasing iterations in [i, fuel) whose
   * candidates cleared every gate, and prims[k] is the primitive built from
   * pick k with id offset added + k.
   */
  predicate Picked(cfg: Config, b: BasePrim, j: nat, h: nat, geom: (nat, nat, nat) -> Geom, fuel: nat, i: nat,
                   added: nat, prims: seq<Primitive>, picks: seq<nat>)
    requires cfg.numAngles > 0
  {
    && |picks| == |prims|
    && (forall k :: 0 <= k < |picks| ==> i <= picks[k] < fuel)
    && (forall k :: 0 <= k < |picks| ==> VerdictAt(cfg, b, j, h, geom, picks[k]) == Offer)
    && (forall k :: 0 <= k < |picks| ==>
          prims[k] == Accept(cfg, b, h, CandidateAt(cfg, b, j, h, geom, picks[k]), added + k))
    && (forall k1, k2 :: 0 <= k1 < k2 < |picks| ==> picks[k1] < picks[k2])
  }

  /** Picking iteration i in front of picks from i + 1 on. */
  lemma PickedCons(cfg: Config, b: BasePrim, j: nat, h: nat, geom: (nat, nat, nat) -> Geom, fuel: nat, i: nat,
                   added: nat, prims: seq<Primitive>, picks: seq<nat>)
    requires cfg.numAngles > 0 && i < fuel
    requires Picked(cfg, b, j, h, geom, fuel, i + 1, added + 1, prims, picks)
    requires VerdictAt(cfg, b, j, h, geom, i) == Offer
    ensures Picked(cfg, b, j, h, geom, fuel, i, added,
                   [Accept(cfg, b, h, CandidateAt(cfg, b, j, h, geom, i), added)] + prims, [i] + picks)
  {
    var ps := [Accept(cfg, b, h, CandidateAt(cfg, b, j, h, geom, i), added)] + prims;
    var ks := [i] + picks;
    forall k | 1 <= k < |ks| ensures ks[k] == picks[k - 1] && ps[k] == prims[k - 1] {
    }
  }

  /** The accepted primitives come from candidates that cleared every gate, at increasing iterations. */
  lemma {:induction false} RunPicks(cfg: Config, b: BasePrim, j: nat, h: nat, geom: (nat, nat, nat) -> Geom,
                                    fuel: nat, i: nat, seen: set<Triple>, added: nat)
    requires cfg.numAngles > 0
    ensures var r := Run(cfg, b, j, h, geom, fuel, i, seen, added);
      && (|r.prims| > 0 ==> added + |r.prims| <= cfg.numPrimPartition)
      && Picked(cfg, b, j, h, geom, fuel, i, added, r.prims, r.picks)
    decreases fuel - i
  {
    if added >= cfg.numPrimPartition || i >= fuel {
    } else {
      var c := CandidateAt(cfg, b, j, h, geom, i);
      match VerdictAt(cfg, b, j, h, geom, i)
      case Skip => RunPicks(cfg, b, j, h, geom, fuel, i + 1, seen, added);
      case Stop =>
      case Offer =>
        if TripleOf(c) in seen {
          RunPicks(cfg, b, j, h, geom, fuel, i + 1, seen, added);
        } else {
          var seen' := seen + {TripleOf(c)};
          RunPicks(cfg, b, j, h, geom, fuel, i + 1, seen', added + 1);
          var rest := Run(cfg, b, j, h, geom, fuel, i + 1, seen', added + 1);
          PickedCons(cfg, b, j, h, geom, fuel, i, added, rest.prims, rest.picks);
          var r := Run(cfg, b, j, h, geom, fuel, i, seen, added);
          assert r.prims == [Accept(cfg, b, h, c, added)] + rest.prims;
          assert r.picks == [i] + rest.picks;
        }
    }
  }

  /** No dedup key of s is in seen. */
  predicate KeysFresh(s: seq<Primitive>, seen: set<Triple>) {
    forall k :: 0 <= k < |s| ==> PrimTriple(s[k]) !in seen
  }

  /** The dedup keys of s are pairwise distinct. */
  predicate KeysDistinct(s: seq<Primitive>) {
    forall k1, k2 :: 0 <= k1 < k2 < |s| ==> PrimTriple(s[k1]) != PrimTriple(s[k2])
  }

  /** Putting a primitive with a fresh key in front of a list whose keys avoid it keeps the keys distinct and fresh. */
  lemma KeysCons(p: Primitive, rest: seq<Primitive>, seen: set<Triple>)
    requires KeysFresh(rest, seen + {PrimTriple(p)}) && KeysDistinct(rest)
    requires PrimTriple(p) !in seen
    ensures KeysFresh([p] + rest, seen) && KeysDistinct([p] + rest)
  {
    var s := [p] + rest;
    forall k | 1 <= k < |s| ensures PrimTriple(s[k]) != PrimTriple(p) && PrimTriple(s[k]) !in seen {
      assert s[k] == rest[k - 1];
    }
    forall k1, k2 | 0 <= k1 < k2 < |s| ensures PrimTriple(s[k1]) != PrimTriple(s[k2]) {
      if k1 > 0 {
        assert s[k1] == rest[k1 - 1] && s[k2] == rest[k2 - 1];
      }
    }
  }

  /** The dedup keys of the accepted primitives are new and pairwise distinct. */
  lemma {:induction false} RunKeys(cfg: Config, b: BasePrim, j: nat, h: nat, geom: (nat, nat, nat) -> Geom,
                                   fuel: nat, i: nat, seen: set<Triple>, added: nat)
    requires cfg.numAngles > 0
    ensures KeysFresh(Run(cfg, b, j, h, geom, fuel, i, seen, added).prims, seen)
    ensures KeysDistinct(Run(cfg, b, j, h, geom, fuel, i, seen, added).prims)
    decreases fuel - i
  {
    if added >= cfg.numPrimPartition || i >= fuel {
    } else {
      var c := CandidateAt(cfg, b, j, h, geom, i);
      match VerdictAt(cfg, b, j, h, geom, i)
      case Skip => RunKeys(cfg, b, j, h, geom, fuel, i + 1, seen, added);
      case Stop =>
      case Offer =>
        if TripleOf(c) in seen {
          RunKeys(cfg, b, j, h, geom, fuel, i + 1, seen, added);
        } else {
          var p := Accept(cfg, b, h, c, added);
          assert PrimTriple(p) == TripleOf(c);
          RunKeys(cfg, b, j, h, geom, fuel, i + 1, seen + {TripleOf(c)}, added + 1);
          var rest := Run(cfg, b, j, h, geom, fuel, i + 1, seen + {TripleOf(c)}, added + 1);
          KeysCons(p, rest.prims, seen);
          assert Run(cfg, b, j, h, geom, fuel, i, seen, added).prims == [p] + rest.prims;
        }
    }
  }

  /**
   * A break (point-turn bound or distance cap) reached at iteration s ends the
   * search: the loop halts and nothing from iteration s on is accepted.
   */
  lemma {:induction false} StopEndsSearch(cfg: Config, b: BasePrim, j: nat, h: nat, geom: (nat, nat, nat) -> Geom,
                                          fuel: nat, i: nat, seen: set<Triple>, added: nat, s: nat)
    requires cfg.numAngles > 0
    requires i <= s < fuel
    requires VerdictAt(cfg, b, j, h, geom, s) == Stop
    ensures Run(cfg, b, j, h, geom, fuel, i, seen, added).halted
    ensures forall k :: 0 <= k < |Run(cfg, b, j, h, geom, fuel, i, seen, added).picks| ==>
      Run(cfg, b, j, h, geom, fuel, i, seen, added).picks[k] < s
    decreases s - i
  {
    if added >= cfg.numPrimPartition || i == s {
    } else {
      var c := CandidateAt(cfg, b, j, h, geom, i);
      match VerdictAt(cfg, b, j, h, geom, i)
      case Skip => StopEndsSearch(cfg, b, j, h, geom, fuel, i + 1, seen, added, s);
      case Stop =>
      case Offer =>
        if TripleOf(c) in seen {
          StopEndsSearch(cfg, b, j, h, geom, fuel, i + 1, seen, added, s);
        } else {
          StopEndsSearch(cfg, b, j, h, geom, fuel, i + 1, seen + {TripleOf(c)}, added + 1, s);
        }
    }
  }

  /** Some iteration in [i, e) breaks. */
  predicate BreaksIn(cfg: Config, b: BasePrim, j: nat, h: nat, geom: (nat, nat, nat) -> Geom, i: nat, e: nat) {
    exists s :: i <= s < e && VerdictAt(cfg, b, j, h, geom, s) == Stop
  }

  /** No iteration in [i, e) breaks. */
  predicate NoBreakIn(cfg: Config, b: BasePrim, j: nat, h: nat, geom: (nat, nat, nat) -> Geom, i: nat, e: nat) {
    forall s :: i <= s < e ==> VerdictAt(cfg, b, j, h, geom, s) != Stop
  }

  /**
   * The loop ends only on the quota or a break: it halts when P primitives
   * have been accepted or some iteration broke, and it runs out of fuel
   * only with fewer than P accepted and no iteration breaking.
   */
  lemma {:induction false} RunHaltsOnlyAtQuotaOrBreak(cfg: Config, b: BasePrim, j: nat, h: nat,
                                                      geom: (nat, nat, nat) -> Geom, fuel: nat, i: nat,
                                                      seen: set<Triple>, added: nat)
    requires cfg.numAngles > 0
    ensures var r := Run(cfg, b, j, h, geom, fuel, i, seen, added);
      && (r.halted ==> added + |r.prims| >= cfg.numPrimPartition || BreaksIn(cfg, b, j, h, geom, i, fuel))
      && (!r.halted ==> added + |r.prims| < cfg.numPrimPartition && NoBreakIn(cfg, b, j, h, geom, i, fuel))
    decreases fuel - i
  {
    if added >= cfg.numPrimPartition || i >= fuel {
    } else {
      var c := CandidateAt(cfg, b, j, h, geom, i);
      var v := VerdictAt(cfg, b, j, h, geom, i);
      if v == Stop {
        assert BreaksIn(cfg, b, j, h, geom, i, fuel);
      } else {
        var seen', added' := seen, added;
        if v == Offer && TripleOf(c) !in seen {
          seen', added' := seen + {TripleOf(c)}, added + 1;
        }
        RunHaltsOnlyAtQuotaOrBreak(cfg, b, j, h, geom, fuel, i + 1, seen', added');
        var r := Run(cfg, b, j, h, geom, fuel, i, seen, added);
        var rest := Run(cfg, b, j, h, geom, fuel, i + 1, seen', added');
        assert added + |r.prims| == added' + |rest.prims| && r.halted == rest.halted;
        if BreaksIn(cfg, b, j, h, geom, i + 1, fuel) {
          var s :| i + 1 <= s < fuel && VerdictAt(cfg, b, j, h, geom, s) == Stop;
          assert BreaksIn(cfg, b, j, h, geom, i, fuel);
        }
      }
    }
  }

  /**
   * The dedup key t is in seen or is the key of a primitive the run accepted
   * at an iteration no later than s.
   */
  predicate KnownBy(t: Triple, seen: set<Triple>, r: SlotRun, s: nat) {
    t in seen || exists k :: 0 <= k < |r.prims| && k < |r.picks| && r.picks[k] <= s && PrimTriple(r.prims[k]) == t
  }

  /** The run has not ended by iteration s: the quota is never met, or a later iteration is still picked. */
  predicate OpenAt(cfg: Config, r: SlotRun, added: nat, s: nat) {
    added + |r.prims| < cfg.numPrimPartition || (|r.picks| > 0 && s < r.picks[|r.picks| - 1])
  }

  /** Accepting p at iteration i <= s in front of rest: what rest knew, or p's own key, is known. */
  lemma KnownByCons(t: Triple, seen: set<Triple>, p: Primitive, i: nat, rest: SlotRun, s: nat)
    requires i <= s
    requires t == PrimTriple(p) || KnownBy(t, seen + {PrimTriple(p)}, rest, s)
    ensures KnownBy(t, seen, SlotRun([p] + rest.prims, [i] + rest.picks, rest.halted), s)
  {
    var r := SlotRun([p] + rest.prims, [i] + rest.picks, rest.halted);
    if t == PrimTriple(p) {
      assert r.picks[0] <= s && PrimTriple(r.prims[0]) == t;
    } else if t !in seen {
      var k :| 0 <= k < |rest.prims| && k < |rest.picks| && rest.picks[k] <= s && PrimTriple(rest.prims[k]) == t;
      assert r.picks[k + 1] <= s && PrimTriple(r.prims[k + 1]) == t;
    }
  }

  /** A run still open at s > i stays open at s once the pick at i is taken off. */
  lemma OpenAtCons(cfg: Config, p: Primitive, i: nat, rest: SlotRun, added: nat, s: nat)
    requires i < s
    requires OpenAt(cfg, SlotRun([p] + rest.prims, [i] + rest.picks, rest.halted), added, s)
    ensures OpenAt(cfg, rest, added + 1, s)
  {
    var picks := [i] + rest.picks;
    if |rest.picks| > 0 {
      assert picks[|picks| - 1] == rest.picks[|rest.picks| - 1];
    }
  }

  /**
   * Every iteration the loop reaches whose candidate clears every gate is
   * accepted unless its key was already there: its key is in seen or is the
   * key of a primitive accepted at that iteration or before.
   */
  lemma {:induction false} RunCovers(cfg: Config, b: BasePrim, j: nat, h: nat, geom: (nat, nat, nat) -> Geom,
                                     fuel: nat, i: nat, seen: set<Triple>, added: nat, s: nat)
    requires cfg.numAngles > 0
    requires i <= s < fuel && VerdictAt(cfg, b, j, h, geom, s) == Offer
    requires NoBreakIn(cfg, b, j, h, geom, i, s)
    requires OpenAt(cfg, Run(cfg, b, j, h, geom, fuel, i, seen, added), added, s)
    ensures KnownBy(TripleOf(CandidateAt(cfg, b, j, h, geom, s)), seen, Run(cfg, b, j, h, geom, fuel, i, seen, added), s)
    decreases s - i
  {
    var t := TripleOf(CandidateAt(cfg, b, j, h, geom, s));
    var r := Run(cfg, b, j, h, geom, fuel, i, seen, added);
    if added >= cfg.numPrimPartition {
      assert false;
    }
    var c := CandidateAt(cfg, b, j, h, geom, i);
    var v := VerdictAt(cfg, b, j, h, geom, i);
    if v == Stop {
      assert false;
    }
    if v == Offer && TripleOf(c) !in seen {
      var seen' := seen + {TripleOf(c)};
      var rest := Run(cfg, b, j, h, geom, fuel, i + 1, seen', added + 1);
      var p := Accept(cfg, b, h, c, added);
      assert r == SlotRun([p] + rest.prims, [i] + rest.picks, rest.halted);
      if s == i {
        KnownByCons(t, seen, p, i, rest, s);
      } else {
        OpenAtCons(cfg, p, i, rest, added, s);
        RunCovers(cfg, b, j, h, geom, fuel, i + 1, seen', added + 1, s);
        KnownByCons(t, seen, p, i, rest, s);
      }
    } else if s > i {
      RunCovers(cfg, b, j, h, geom, fuel, i + 1, seen, added, s);
    }
  }

  /**
   * An iteration the loop reaches, whose candidate clears every gate and
   * whose key is neither in seen nor the key of a primitive accepted
   * before it, is accepted.
   */
  lemma RunAcceptsFresh(cfg: Config, b: BasePrim, j: nat, h: nat, geom: (nat, nat, nat) -> Geom,
                        fuel: nat, i: nat, seen: set<Triple>, added: nat, s: nat)
    requires cfg.numAngles > 0
    requires i <= s < fuel && VerdictAt(cfg, b, j, h, geom, s) == Offer
    requires NoBreakIn(cfg, b, j, h, geom, i, s)
    requires OpenAt(cfg, Run(cfg, b, j, h, geom, fuel, i, seen, added), added, s)
    requires TripleOf(CandidateAt(cfg, b, j, h, geom, s)) !in seen
    requires var r := Run(cfg, b, j, h, geom, fuel, i, seen, added);
      forall k :: 0 <= k < |r.prims| && k < |r.picks| && r.picks[k] < s ==>
        PrimTriple(r.prims[k]) != TripleOf(CandidateAt(cfg, b, j, h, geom, s))
    ensures s in Run(cfg, b, j, h, geom, fuel, i, seen, added).picks
  {
    RunCovers(cfg, b, j, h, geom, fuel, i, seen, added, s);
  }

  /** The number of point turns accepted per slot: min(P, N/4 - 1), and none when that is negative. */
  function PointTurnCount(n: nat, p: int): nat {
    if p <= 0 || n / 4 <= 1 then 0
    else if p < n / 4 - 1 then p
    else n / 4 - 1
  }

  /** The k-th point-turn candidate: end cell (0, 0), heading h + k * turn. */
  function PointCandidate(b: BasePrim, h: nat, k: nat): Candidate {
    Candidate(0, 0, k * b.turn + h, 0.0, 0.0, 0.0, Vec(0.0, 0.0))
  }

  function PointKey(h: nat, turn: int, k: nat): Triple {
    Triple(0, 0, k * turn + h)
  }

  /** The dedup set after the first i point turns were accepted. */
  function PointSeen(h: nat, turn: int, i: nat): set<Triple> {
    set k: nat | 1 <= k <= i :: PointKey(h, turn, k)
  }

  /** prims are the point turns numbered i + 1, i + 2, ... in order. */
  predicate PointPrims(cfg: Config, b: BasePrim, h: nat, i: nat, prims: seq<Primitive>)
    requires cfg.numAngles > 0
  {
    forall k :: 0 <= k < |prims| ==> prims[k] == Accept(cfg, b, h, PointCandidate(b, h, i + k + 1), i + k)
  }

  lemma PointPrimsCons(cfg: Config, b: BasePrim, h: nat, i: nat, prims: seq<Primitive>)
    requires cfg.numAngles > 0
    requires PointPrims(cfg, b, h, i + 1, prims)
    ensures PointPrims(cfg, b, h, i, [Accept(cfg, b, h, PointCandidate(b, h, i + 1), i)] + prims)
  {
    var s := [Accept(cfg, b, h, PointCandidate(b, h, i + 1), i)] + prims;
    forall k | 1 <= k < |s| ensures s[k] == Accept(cfg, b, h, PointCandidate(b, h, i + k + 1), i + k) {
      assert s[k] == prims[k - 1];
    }
  }

  /** The key of point turn i + 1 is new after the first i, and adding it gives the set after i + 1. */
  lemma PointSeenStep(h: nat, turn: int, i: nat)
    requires turn == 1 || turn == -1
    ensures PointKey(h, turn, i + 1) !in PointSeen(h, turn, i)
    ensures PointSeen(h, turn, i) + {PointKey(h, turn, i + 1)} == PointSeen(h, turn, i + 1)
  {
    forall k: nat | 1 <= k <= i ensures PointKey(h, turn, k) != PointKey(h, turn, i + 1) {
      assert k * turn != (i + 1) * turn;
    }
  }

  lemma {:induction false} PointTurnFrom(cfg: Config, b: BasePrim, j: nat, h: nat, geom: (nat, nat, nat) -> Geom,
                                         fuel: nat, i: nat)
    requires cfg.numAngles > 0
    requires b.movType == PointTurn && (b.turn == 1 || b.turn == -1)
    requires cfg.primAccuracy >= 0.0
    requires fuel >= cfg.numPrimPartition
    requires i <= PointTurnCount(cfg.numAngles, cfg.numPrimPartition)
    ensures var r := Run(cfg, b, j, h, geom, fuel, i, PointSeen(h, b.turn, i), i);
      && r.halted
      && |r.prims| == PointTurnCount(cfg.numAngles, cfg.numPrimPartition) - i
      && PointPrims(cfg, b, h, i, r.prims)
    decreases fuel - i
  {
    var n, p := cfg.numAngles, cfg.numPrimPartition;
    var seen := PointSeen(h, b.turn, i);
    if i < p {
      var c := CandidateAt(cfg, b, j, h, geom, i);
      assert c == PointCandidate(b, h, i + 1);
      if i + 2 > Upper(n) {
        assert VerdictAt(cfg, b, j, h, geom, i) == Stop;
      } else {
        assert VerdictAt(cfg, b, j, h, geom, i) == Offer;
        assert TripleOf(c) == PointKey(h, b.turn, i + 1);
        PointSeenStep(h, b.turn, i);
        PointTurnFrom(cfg, b, j, h, geom, fuel, i + 1);
        var rest := Run(cfg, b, j, h, geom, fuel, i + 1, PointSeen(h, b.turn, i + 1), i + 1);
        PointPrimsCons(cfg, b, h, i, rest.prims);
        assert Run(cfg, b, j, h, geom, fuel, i, seen, i).prims == [Accept(cfg, b, h, c, i)] + rest.prims;
      }
    }
  }

  /**
   * Point turns are exact: with a non-negative accuracy and fuel for P
   * iterations, the search halts after accepting exactly min(P, N/4 - 1)
   * primitives, the k-th (from 1) ending at (0, 0) with raw heading h + k * turn.
   */
  lemma PointTurnSlot(cfg: Config, b: BasePrim, j: nat, h: nat, geom: (nat, nat, nat) -> Geom, fuel: nat)
    requires cfg.numAngles > 0
    requires b.movType == PointTurn && (b.turn == 1 || b.turn == -1)
    requires cfg.primAccuracy >= 0.0
    requires fuel >= cfg.numPrimPartition
    ensures var r := Run(cfg, b, j, h, geom, fuel, 0, {}, 0);
      && r.halted
      && |r.prims| == PointTurnCount(cfg.numAngles, cfg.numPrimPartition)
      && forall k :: 0 <= k < |r.prims| ==> r.prims[k] == Accept(cfg, b, h, PointCandidate(b, h, k + 1), k)
  {
    assert PointSeen(h, b.turn, 0) == {};
    PointTurnFrom(cfg, b, j, h, geom, fuel, 0);
  }

  /**
   * With a negative accuracy every point-turn candidate (rounding error 0) is
   * skipped before the bound is reached, so the source's loop never ends: the
   * model accepts nothing and never halts, whatever the fuel.
   */
  lemma {:induction false} PointTurnNegativeAccuracy(cfg: Config, b: BasePrim, j: nat, h: nat, geom: (nat, nat, nat) -> Geom,
                                                     fuel: nat, i: nat, seen: set<Triple>, added: nat)
    requires cfg.numAngles > 0
    requires b.movType == PointTurn
    requires cfg.primAccuracy < 0.0
    requires added < cfg.numPrimPartition
    ensures Run(cfg, b, j, h, geom, fuel, i, seen, added) == SlotRun([], [], false)
    decreases fuel - i
  {
    if i < fuel {
      assert VerdictAt(cfg, b, j, h, geom, i) == Skip;
      PointTurnNegativeAccuracy(cfg, b, j, h, geom, fuel, i + 1, seen, added);
    }
  }
}
