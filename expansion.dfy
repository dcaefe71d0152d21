/**
 * The expansion of createMPrims: for every heading h in [0, N) and every base
 * primitive in order, the primitives the acceptance search of that slot
 * accepts, appended one after another.
 */
module Expansion {
  import opened Primitives
  import opened Search
  import opened BasePrims

  /** The primitives accepted for heading h and base primitive j. */
  function SlotPrims(cfg: Config, base: seq<BasePrim>, geom: (nat, nat, nat) -> Geom, fuel: nat, h: nat, j: nat): seq<Primitive>
    requires cfg.numAngles > 0 && j < |base|
  {
    Run(cfg, base[j], j, h, geom, fuel, 0, {}, 0).prims
  }

  /** The primitives of heading h from base primitive j on. */
  function HeadingPrims(cfg: Config, base: seq<BasePrim>, geom: (nat, nat, nat) -> Geom, fuel: nat, h: nat, j: nat): seq<Primitive>
    requires cfg.numAngles > 0 && j <= |base|
    decreases |base| - j
  {
    if j == |base| then [] else SlotPrims(cfg, base, geom, fuel, h, j) + HeadingPrims(cfg, base, geom, fuel, h, j + 1)
  }

  /** The primitive list from heading h on. */
  function AllPrims(cfg: Config, base: seq<BasePrim>, geom: (nat, nat, nat) -> Geom, fuel: nat, h: nat): seq<Primitive>
    requires cfg.numAngles > 0 && h <= cfg.numAngles
    decreases cfg.numAngles - h
  {
    if h == cfg.numAngles then [] else HeadingPrims(cfg, base, geom, fuel, h, 0) + AllPrims(cfg, base, geom, fuel, h + 1)
  }

  /** Grouped by start heading, then by id. */
  predicate Before(p: Primitive, q: Primitive) {
    p.startAngle < q.startAngle || (p.startAngle == q.startAngle && p.id < q.id)
  }

  predicate Sorted(s: seq<Primitive>) {
    forall a, b :: 0 <= a < b < |s| ==> Before(s[a], s[b])
  }

  /** What holds of every primitive the search produces. */
  predicate WellFormed(p: Primitive, n: nat)
    requires n > 0
  {
    && p.startAngle < n
    && p.endTheta == Truncate(p.rawEndTheta, n)
    && (IsStraight(p.movType) ==> p.rawEndTheta == p.startAngle)
    && (p.movType == PointTurn ==> p.endX == 0 && p.endY == 0)
    && p.poses == []
  }

  /** The id of p selects a speed-table entry whose base primitive has p's type and cost. */
  predicate FromBase(p: Primitive, base: seq<BasePrim>, pp: int)
    requires pp >= 1
  {
    0 <= p.id < |base| * pp && base[p.id / pp].movType == p.movType && base[p.id / pp].cost == p.cost
  }

  predicate BaseIdsArePositions(base: seq<BasePrim>) {
    forall j :: 0 <= j < |base| ==> base[j].id == j
  }

  /**
   * One slot: at most P primitives, the k-th with id j * P + k, start heading
   * h and the type and cost of base primitive j.
   */
  lemma SlotFacts(cfg: Config, base: seq<BasePrim>, geom: (nat, nat, nat) -> Geom, fuel: nat, h: nat, j: nat)
    requires cfg.numAngles > 0 && cfg.numPrimPartition >= 1 && h < cfg.numAngles
    requires j < |base| && base[j].id == j
    ensures var s := SlotPrims(cfg, base, geom, fuel, h, j);
      && |s| <= cfg.numPrimPartition
      && forall k :: 0 <= k < |s| ==>
           && s[k].id == j * cfg.numPrimPartition + k
           && s[k].startAngle == h
           && s[k].movType == base[j].movType
           && s[k].cost == base[j].cost
           && WellFormed(s[k], cfg.numAngles)
  {
    RunSound(cfg, base[j], j, h, geom, fuel, 0, {}, 0);
  }

  /** Two sorted lists, every element of the first before every element of the second, concatenate sorted. */
  lemma SortedConcat(a: seq<Primitive>, b: seq<Primitive>)
    requires Sorted(a) && Sorted(b)
    requires forall x, y :: 0 <= x < |a| && 0 <= y < |b| ==> Before(a[x], b[y])
    ensures Sorted(a + b)
  {
    var s := a + b;
    forall x, y | 0 <= x < y < |s| ensures Before(s[x], s[y]) {
      if y < |a| {
        assert s[x] == a[x] && s[y] == a[y];
      } else if x < |a| {
        assert s[x] == a[x] && s[y] == b[y - |a|];
      } else {
        assert s[x] == b[x - |a|] && s[y] == b[y - |a|];
      }
    }
  }

  /** The k-th primitive of slot j has an id in the j-th block of P and leads back to base primitive j. */
  lemma SlotIdFacts(base: seq<BasePrim>, pp: int, j: nat, k: nat, p: Primitive)
    requires pp >= 1 && j < |base| && k < pp
    requires p.id == j * pp + k && p.movType == base[j].movType && p.cost == base[j].cost
    ensures j * pp <= p.id < (j + 1) * pp
    ensures FromBase(p, base, pp)
  {
    SlotQuotient(j, pp, k);
    MulMono(j + 1, |base|, pp);
  }

  lemma MulMono(a: int, b: int, c: int)
    requires a <= b && c >= 0
    ensures a * c <= b * c
  {
    assert b * c - a * c == (b - a) * c;
  }

  /**
   * One heading from base primitive j on: all start at h, ids strictly
   * increase and lie in [j * P, |base| * P), and each id leads back to its
   * base primitive.
   */
  lemma {:induction false} HeadingFacts(cfg: Config, base: seq<BasePrim>, geom: (nat, nat, nat) -> Geom, fuel: nat, h: nat, j: nat)
    requires cfg.numAngles > 0 && cfg.numPrimPartition >= 1 && h < cfg.numAngles
    requires j <= |base| && BaseIdsArePositions(base)
    ensures var s := HeadingPrims(cfg, base, geom, fuel, h, j);
      && Sorted(s)
      && forall k :: 0 <= k < |s| ==>
           && s[k].startAngle == h
           && j * cfg.numPrimPartition <= s[k].id
           && FromBase(s[k], base, cfg.numPrimPartition)
           && WellFormed(s[k], cfg.numAngles)
    decreases |base| - j
  {
    var pp := cfg.numPrimPartition;
    if j < |base| {
      var slot := SlotPrims(cfg, base, geom, fuel, h, j);
      var rest := HeadingPrims(cfg, base, geom, fuel, h, j + 1);
      SlotFacts(cfg, base, geom, fuel, h, j);
      HeadingFacts(cfg, base, geom, fuel, h, j + 1);
      var s := slot + rest;
      assert s == HeadingPrims(cfg, base, geom, fuel, h, j);
      forall k | 0 <= k < |slot|
        ensures j * pp <= slot[k].id < (j + 1) * pp && FromBase(slot[k], base, pp)
      {
        SlotIdFacts(base, pp, j, k, slot[k]);
      }
      MulSucc(j, pp);
      assert Sorted(slot);
      SortedConcat(slot, rest);
      forall k | 0 <= k < |s|
        ensures s[k].startAngle == h && j * pp <= s[k].id && FromBase(s[k], base, pp) && WellFormed(s[k], cfg.numAngles)
      {
        if k < |slot| { assert s[k] == slot[k]; } else { assert s[k] == rest[k - |slot|]; }
      }
    }
  }

  /**
   * The whole list from heading h on is grouped by start heading in
   * increasing order and, within a heading, by strictly increasing id; so no
   * (start heading, id) pair occurs twice.  Every id is below the speed-table
   * length |base| * P and leads back to a base primitive of the same type.
   */
  lemma {:induction false} AllPrimsFacts(cfg: Config, base: seq<BasePrim>, geom: (nat, nat, nat) -> Geom, fuel: nat, h: nat)
    requires cfg.numAngles > 0 && cfg.numPrimPartition >= 1 && h <= cfg.numAngles
    requires BaseIdsArePositions(base)
    ensures var s := AllPrims(cfg, base, geom, fuel, h);
      && Sorted(s)
      && forall k :: 0 <= k < |s| ==>
           && h <= s[k].startAngle
           && FromBase(s[k], base, cfg.numPrimPartition)
           && WellFormed(s[k], cfg.numAngles)
    decreases cfg.numAngles - h
  {
    if h < cfg.numAngles {
      var head := HeadingPrims(cfg, base, geom, fuel, h, 0);
      var rest := AllPrims(cfg, base, geom, fuel, h + 1);
      HeadingFacts(cfg, base, geom, fuel, h, 0);
      AllPrimsFacts(cfg, base, geom, fuel, h + 1);
      var s := head + rest;
      assert s == AllPrims(cfg, base, geom, fuel, h);
      SortedConcat(head, rest);
      forall k | 0 <= k < |s|
        ensures h <= s[k].startAngle && FromBase(s[k], base, cfg.numPrimPartition) && WellFormed(s[k], cfg.numAngles)
      {
        if k < |head| { assert s[k] == head[k]; } else { assert s[k] == rest[k - |head|]; }
      }
    }
  }

  /** Distinct positions of the list never share a (start heading, id) pair. */
  lemma AllPrimsKeysDistinct(cfg: Config, base: seq<BasePrim>, geom: (nat, nat, nat) -> Geom, fuel: nat)
    requires cfg.numAngles > 0 && cfg.numPrimPartition >= 1
    requires BaseIdsArePositions(base)
    ensures var s := AllPrims(cfg, base, geom, fuel, 0);
      forall a, b :: 0 <= a < |s| && 0 <= b < |s| && a != b ==>
        (s[a].startAngle, s[a].id) != (s[b].startAngle, s[b].id)
  {
    AllPrimsFacts(cfg, base, geom, fuel, 0);
  }

  /**
   * Every generated primitive finds its speed in the table built from the
   * same base list: its id is a valid index and the entry is the nominal
   * speed, negated exactly for backward motions.
   */
  lemma SpeedOfEveryPrimitive(cfg: Config, base: seq<BasePrim>, geom: (nat, nat, nat) -> Geom, fuel: nat)
    requires cfg.numAngles > 0 && cfg.numPrimPartition >= 1
    requires BaseIdsArePositions(base)
    ensures var s := AllPrims(cfg, base, geom, fuel, 0);
      var table := SpeedTable(base, cfg.numPrimPartition, cfg.mobility.speed);
      forall k :: 0 <= k < |s| ==>
        0 <= s[k].id < |table| && table[s[k].id] == SpeedOf(s[k].movType, cfg.mobility.speed)
  {
    AllPrimsFacts(cfg, base, geom, fuel, 0);
    SpeedTableIndex(base, cfg.numPrimPartition, cfg.mobility.speed);
  }
}
