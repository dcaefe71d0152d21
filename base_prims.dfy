/**
 * The base-primitive builder: the heading-0 primitives derived from the
 * mobility profile, in their fixed order and with consecutive ids.
 */
module BasePrims {
  import opened Geometry
  import opened Primitives

  /** The minimal turning radius in grid cells, never below one cell (std::max(1.0, ...)). */
  function TurningRadius(m: Mobility, gridSize: real): (r: real)
    requires gridSize != 0.0
    ensures r >= 1.0 && r >= m.minTurningRadius / gridSize
    ensures r == 1.0 || r == m.minTurningRadius / gridSize
  {
    if 1.0 < m.minTurningRadius / gridSize then m.minTurningRadius / gridSize else 1.0
  }

  /** Whether the builder emits primitives of type t; forward turns only need a non-zero multiplier. */
  predicate Enabled(m: Mobility, t: MovementType) {
    match t
    case Forward => m.multiplierForward > 0
    case Backward => m.multiplierBackward > 0
    case Lateral => m.multiplierLateral > 0
    case PointTurn => m.multiplierPointTurn > 0
    case ForwardTurn => m.multiplierForwardTurn != 0
    case BackwardTurn => m.multiplierBackwardTurn > 0
  }

  /** The cost multiplier the profile assigns to type t. */
  function Multiplier(m: Mobility, t: MovementType): int {
    match t
    case Forward => m.multiplierForward
    case Backward => m.multiplierBackward
    case Lateral => m.multiplierLateral
    case PointTurn => m.multiplierPointTurn
    case ForwardTurn => m.multiplierForwardTurn
    case BackwardTurn => m.multiplierBackwardTurn
  }

  /** How many base primitives an enabled type contributes. */
  function Width(t: MovementType): nat {
    if t == Forward || t == Backward then 1 else 2
  }

  /** The position of a type in the builder's emission order. */
  function Rank(t: MovementType): nat {
    match t
    case Forward => 0
    case Backward => 1
    case Lateral => 2
    case PointTurn => 3
    case ForwardTurn => 4
    case BackwardTurn => 5
  }

  /** +1 for the left-hand member of a pair, -1 for the right-hand one, 0 for a single one. */
  function Side(b: BasePrim): int {
    if b.dy != 0 then b.dy else b.turn
  }

  /** The builder's order: by type rank, and the left-hand member of a pair first. */
  predicate Precedes(a: BasePrim, b: BasePrim) {
    Rank(a.movType) < Rank(b.movType) || (Rank(a.movType) == Rank(b.movType) && Side(a) > Side(b))
  }

  predicate Ordered(s: seq<BasePrim>) {
    forall i, j :: 0 <= i < j < |s| ==> Precedes(s[i], s[j])
  }

  /** The unit vector, turning direction, cost and centre each type carries at heading 0. */
  predicate Shaped(b: BasePrim, m: Mobility, r: real) {
    && b.cost == Multiplier(m, b.movType)
    && match b.movType
       case Forward => b.dx == 1 && b.dy == 0 && b.turn == 0 && b.center == Vec(0.0, 0.0)
       case Backward => b.dx == -1 && b.dy == 0 && b.turn == 0 && b.center == Vec(0.0, 0.0)
       case Lateral => b.dx == 0 && (b.dy == 1 || b.dy == -1) && b.turn == 0 && b.center == Vec(0.0, 0.0)
       case PointTurn => b.dx == 0 && b.dy == 0 && (b.turn == 1 || b.turn == -1) && b.center == Vec(0.0, 0.0)
       case ForwardTurn => b.dx == 0 && b.dy == 0 && (b.turn == 1 || b.turn == -1) && b.center == Vec(0.0, (b.turn as real) * r)
       case BackwardTurn => b.dx == 0 && b.dy == 0 && (b.turn == 1 || b.turn == -1) && b.center == Vec(0.0, -(b.turn as real) * r)
  }

  /** The primitives an enabled type contributes, left-hand member first. */
  function GroupOf(m: Mobility, r: real, t: MovementType): seq<BasePrim> {
    var c := Multiplier(m, t);
    var zero := Vec(0.0, 0.0);
    if !Enabled(m, t) then []
    else match t
      case Forward => [BasePrim(0, 1, 0, 0, c, t, zero)]
      case Backward => [BasePrim(0, -1, 0, 0, c, t, zero)]
      case Lateral => [BasePrim(0, 0, 1, 0, c, t, zero), BasePrim(0, 0, -1, 0, c, t, zero)]
      case PointTurn => [BasePrim(0, 0, 0, 1, c, t, zero), BasePrim(0, 0, 0, -1, c, t, zero)]
      case ForwardTurn => [BasePrim(0, 0, 0, 1, c, t, Vec(0.0, r)), BasePrim(0, 0, 0, -1, c, t, Vec(0.0, -r))]
      case BackwardTurn => [BasePrim(0, 0, 0, 1, c, t, Vec(0.0, -r)), BasePrim(0, 0, 0, -1, c, t, Vec(0.0, r))]
  }

  /** The six groups in emission order; ids are given by position afterwards. */
  function Groups(m: Mobility, r: real): seq<BasePrim> {
    GroupOf(m, r, Forward) + GroupOf(m, r, Backward) + GroupOf(m, r, Lateral)
    + GroupOf(m, r, PointTurn) + GroupOf(m, r, ForwardTurn) + GroupOf(m, r, BackwardTurn)
  }

  function Numbered(ps: seq<BasePrim>): seq<BasePrim> {
    seq(|ps|, i requires 0 <= i < |ps| => ps[i].(id := i))
  }

  /** The base primitives at heading 0, as createMPrimsForAngle0 appends them. */
  function BaseList(m: Mobility, gridSize: real): (r: seq<BasePrim>)
    requires gridSize != 0.0
    ensures forall i :: 0 <= i < |r| ==> r[i].id == i
  {
    Numbered(Groups(m, TurningRadius(m, gridSize)))
  }

  function MovTypes(s: seq<BasePrim>): (r: seq<MovementType>) {
    seq(|s|, i requires 0 <= i < |s| => s[i].movType)
  }

  lemma NumberedKeeps(ps: seq<BasePrim>)
    ensures |Numbered(ps)| == |ps|
    ensures forall i :: 0 <= i < |ps| ==> Numbered(ps)[i] == ps[i].(id := i)
    ensures MovTypes(Numbered(ps)) == MovTypes(ps)
  {
  }

  lemma MovTypesConcat(a: seq<BasePrim>, b: seq<BasePrim>)
    ensures MovTypes(a + b) == MovTypes(a) + MovTypes(b)
  {
  }

  predicate RanksBelow(s: seq<BasePrim>, k: nat) {
    forall i :: 0 <= i < |s| ==> Rank(s[i].movType) < k
  }

  /** Appending an ordered group of rank k to an ordered prefix of lower ranks keeps the order. */
  lemma {:induction false} ExtendOrdered(prefix: seq<BasePrim>, g: seq<BasePrim>, k: nat)
    requires Ordered(prefix) && RanksBelow(prefix, k)
    requires Ordered(g) && forall i :: 0 <= i < |g| ==> Rank(g[i].movType) == k
    ensures Ordered(prefix + g) && RanksBelow(prefix + g, k + 1)
  {
    var s := prefix + g;
    forall i, j | 0 <= i < j < |s| ensures Precedes(s[i], s[j]) {
      if j < |prefix| {
        assert s[i] == prefix[i] && s[j] == prefix[j];
      } else if i < |prefix| {
        assert s[i] == prefix[i] && s[j] == g[j - |prefix|];
      } else {
        assert s[i] == g[i - |prefix|] && s[j] == g[j - |prefix|];
      }
    }
    forall i | 0 <= i < |s| ensures Rank(s[i].movType) < k + 1 {
      if i < |prefix| { assert s[i] == prefix[i]; } else { assert s[i] == g[i - |prefix|]; }
    }
  }

  /** One group: ordered, all of its type, shaped, and as many as the type's width when enabled. */
  lemma GroupOfFacts(m: Mobility, r: real, t: MovementType)
    ensures Ordered(GroupOf(m, r, t))
    ensures forall i :: 0 <= i < |GroupOf(m, r, t)| ==> GroupOf(m, r, t)[i].movType == t
    ensures forall i :: 0 <= i < |GroupOf(m, r, t)| ==> Shaped(GroupOf(m, r, t)[i], m, r)
    ensures |GroupOf(m, r, t)| == if Enabled(m, t) then Width(t) else 0
  {
  }

  /** The multiset of types of a group. */
  lemma GroupOfCount(m: Mobility, r: real, t: MovementType, u: MovementType)
    ensures multiset(MovTypes(GroupOf(m, r, t)))[u] == if t == u && Enabled(m, t) then Width(t) else 0
  {
    GroupOfFacts(m, r, t);
    var g := GroupOf(m, r, t);
    if |g| == 1 {
      assert MovTypes(g) == [t];
    } else if |g| == 2 {
      assert MovTypes(g) == [t, t];
    } else {
      assert MovTypes(g) == [];
    }
  }

  /** Appending group t of the profile to an ordered prefix of lower ranks keeps the order. */
  lemma ExtendByGroup(prefix: seq<BasePrim>, m: Mobility, r: real, t: MovementType)
    requires Ordered(prefix) && RanksBelow(prefix, Rank(t))
    ensures Ordered(prefix + GroupOf(m, r, t)) && RanksBelow(prefix + GroupOf(m, r, t), Rank(t) + 1)
  {
    GroupOfFacts(m, r, t);
    ExtendOrdered(prefix, GroupOf(m, r, t), Rank(t));
  }

  /** The six groups in emission order are ordered. */
  lemma GroupsOrdered(m: Mobility, r: real)
    ensures Ordered(Groups(m, r))
  {
    var p1 := GroupOf(m, r, Forward);
    assert [] + p1 == p1;
    ExtendByGroup([], m, r, Forward);
    var p2 := p1 + GroupOf(m, r, Backward);
    ExtendByGroup(p1, m, r, Backward);
    var p3 := p2 + GroupOf(m, r, Lateral);
    ExtendByGroup(p2, m, r, Lateral);
    var p4 := p3 + GroupOf(m, r, PointTurn);
    ExtendByGroup(p3, m, r, PointTurn);
    var p5 := p4 + GroupOf(m, r, ForwardTurn);
    ExtendByGroup(p4, m, r, ForwardTurn);
    ExtendByGroup(p5, m, r, BackwardTurn);
    assert Groups(m, r) == p5 + GroupOf(m, r, BackwardTurn);
  }

  /** Numbering changes only ids, which the order does not look at. */
  lemma NumberedOrdered(ps: seq<BasePrim>)
    requires Ordered(ps)
    ensures Ordered(Numbered(ps))
  {
    var b := Numbered(ps);
    forall i, j | 0 <= i < j < |b| ensures Precedes(b[i], b[j]) {
      assert b[i] == ps[i].(id := i) && b[j] == ps[j].(id := j);
      assert Precedes(ps[i], ps[j]);
    }
  }

  /**
   * The base primitives come in the fixed order forward, backward, lateral
   * left/right, point turn left/right, forward turn left/right, backward turn
   * left/right.
   */
  lemma BaseListOrdered(m: Mobility, gridSize: real)
    requires gridSize != 0.0
    ensures Ordered(BaseList(m, gridSize))
  {
    GroupsOrdered(m, TurningRadius(m, gridSize));
    NumberedOrdered(Groups(m, TurningRadius(m, gridSize)));
  }

  predicate AllShaped(s: seq<BasePrim>, m: Mobility, r: real) {
    forall i :: 0 <= i < |s| ==> Shaped(s[i], m, r)
  }

  lemma AllShapedConcat(a: seq<BasePrim>, b: seq<BasePrim>, m: Mobility, r: real)
    requires AllShaped(a, m, r) && AllShaped(b, m, r)
    ensures AllShaped(a + b, m, r)
  {
    forall i | 0 <= i < |a + b| ensures Shaped((a + b)[i], m, r) {
      if i < |a| { assert (a + b)[i] == a[i]; } else { assert (a + b)[i] == b[i - |a|]; }
    }
  }

  lemma ShapeByGroup(prefix: seq<BasePrim>, m: Mobility, r: real, t: MovementType)
    requires AllShaped(prefix, m, r)
    ensures AllShaped(prefix + GroupOf(m, r, t), m, r)
  {
    GroupOfFacts(m, r, t);
    AllShapedConcat(prefix, GroupOf(m, r, t), m, r);
  }

  /** Numbering changes only ids, which the shape does not look at. */
  lemma NumberedShaped(ps: seq<BasePrim>, m: Mobility, r: real)
    requires AllShaped(ps, m, r)
    ensures AllShaped(Numbered(ps), m, r)
  {
    var b := Numbered(ps);
    forall i | 0 <= i < |b| ensures Shaped(b[i], m, r) {
      assert b[i] == ps[i].(id := i);
      assert Shaped(ps[i], m, r);
    }
  }

  /** Every base primitive carries the unit vector, direction, centre and cost of its type. */
  lemma BaseListShaped(m: Mobility, gridSize: real)
    requires gridSize != 0.0
    ensures forall i :: 0 <= i < |BaseList(m, gridSize)| ==>
      Shaped(BaseList(m, gridSize)[i], m, TurningRadius(m, gridSize))
  {
    var r := TurningRadius(m, gridSize);
    var p1 := GroupOf(m, r, Forward);
    assert [] + p1 == p1;
    ShapeByGroup([], m, r, Forward);
    var p2 := p1 + GroupOf(m, r, Backward);
    ShapeByGroup(p1, m, r, Backward);
    var p3 := p2 + GroupOf(m, r, Lateral);
    ShapeByGroup(p2, m, r, Lateral);
    var p4 := p3 + GroupOf(m, r, PointTurn);
    ShapeByGroup(p3, m, r, PointTurn);
    var p5 := p4 + GroupOf(m, r, ForwardTurn);
    ShapeByGroup(p4, m, r, ForwardTurn);
    ShapeByGroup(p5, m, r, BackwardTurn);
    assert Groups(m, r) == p5 + GroupOf(m, r, BackwardTurn);
    NumberedShaped(Groups(m, r), m, r);
    assert AllShaped(BaseList(m, gridSize), m, r);
  }

  /**
   * A type is emitted exactly when it is enabled: once for forward and
   * backward, twice (left and right) for the others.
   */
  lemma BaseListCount(m: Mobility, gridSize: real, t: MovementType)
    requires gridSize != 0.0
    ensures multiset(MovTypes(BaseList(m, gridSize)))[t] == if Enabled(m, t) then Width(t) else 0
  {
    var r := TurningRadius(m, gridSize);
    var g0, g1, g2 := GroupOf(m, r, Forward), GroupOf(m, r, Backward), GroupOf(m, r, Lateral);
    var g3, g4, g5 := GroupOf(m, r, PointTurn), GroupOf(m, r, ForwardTurn), GroupOf(m, r, BackwardTurn);
    NumberedKeeps(Groups(m, r));
    MovTypesConcat(g0, g1);
    MovTypesConcat(g0 + g1, g2);
    MovTypesConcat(g0 + g1 + g2, g3);
    MovTypesConcat(g0 + g1 + g2 + g3, g4);
    MovTypesConcat(g0 + g1 + g2 + g3 + g4, g5);
    GroupOfCount(m, r, Forward, t);
    GroupOfCount(m, r, Backward, t);
    GroupOfCount(m, r, Lateral, t);
    GroupOfCount(m, r, PointTurn, t);
    GroupOfCount(m, r, ForwardTurn, t);
    GroupOfCount(m, r, BackwardTurn, t);
  }

  /** An all-zero mobility profile yields no base primitives. */
  lemma BaseListEmptyWhenUnset(m: Mobility, gridSize: real)
    requires gridSize != 0.0
    requires !IsSet(m)
    ensures BaseList(m, gridSize) == []
  {
  }

  /** Numbering a list extended by more primitives numbers the new ones from the old length on. */
  lemma NumberedAppend(done: seq<BasePrim>, more: seq<BasePrim>)
    ensures Numbered(done + more)
         == Numbered(done) + seq(|more|, i requires 0 <= i < |more| => more[i].(id := |done| + i))
  {
  }

  /** The signed speed of every base primitive, in list order. */
  function Speeds(s: seq<BasePrim>, speed: real): (r: seq<real>)
    ensures |r| == |s|
  {
    seq(|s|, i requires 0 <= i < |s| => SpeedOf(s[i].movType, speed))
  }

  /** Every entry of s repeated p times in a row. */
  function Repeat(s: seq<real>, p: nat): (r: seq<real>)
    decreases |s|
  {
    if |s| == 0 then [] else Repeat(s[..|s| - 1], p) + seq(p, _ => s[|s| - 1])
  }

  lemma {:induction false} RepeatLength(s: seq<real>, p: nat)
    ensures |Repeat(s, p)| == |s| * p
    decreases |s|
  {
    if |s| > 0 {
      RepeatLength(s[..|s| - 1], p);
      assert (|s| - 1) * p + p == |s| * p;
    }
  }

  /** Entry k of the repetition is entry k / p of the original. */
  lemma {:induction false} RepeatAt(s: seq<real>, p: nat, k: nat)
    requires p >= 1 && k < |s| * p
    ensures k / p < |s|
    ensures k < |Repeat(s, p)| && Repeat(s, p)[k] == s[k / p]
    decreases |s|
  {
    DivBelow(k, |s|, p);
    var init := s[..|s| - 1];
    RepeatLength(init, p);
    RepeatLength(s, p);
    var front := Repeat(init, p);
    var tail := seq(p, _ => s[|s| - 1]);
    assert Repeat(s, p) == front + tail;
    if k < |front| {
      RepeatAt(init, p, k);
      assert Repeat(s, p)[k] == front[k];
    } else {
      var b := k - |front|;
      assert |front| == |init| * p;
      SlotQuotient(|init|, p, b);
      assert Repeat(s, p)[k] == tail[b];
    }
  }

  /** mPrim_id2Speed: every base primitive's speed repeated P times, indexed by primitive id. */
  function SpeedTable(base: seq<BasePrim>, p: nat, speed: real): (r: seq<real>)
    ensures |r| == |base| * p
  {
    RepeatLength(Speeds(base, speed), p);
    Repeat(Speeds(base, speed), p)
  }

  /**
   * The speed table has |base| * P entries and the entry for id k is the
   * speed of base primitive k / P: the nominal speed, negated for backward
   * motions.
   */
  lemma SpeedTableIndex(base: seq<BasePrim>, p: nat, speed: real)
    requires p >= 1
    ensures |SpeedTable(base, p, speed)| == |base| * p
    ensures forall k :: 0 <= k < |base| * p ==>
      k / p < |base| && SpeedTable(base, p, speed)[k] == SpeedOf(base[k / p].movType, speed)
  {
    RepeatLength(Speeds(base, speed), p);
    forall k | 0 <= k < |base| * p
      ensures k / p < |base| && SpeedTable(base, p, speed)[k] == SpeedOf(base[k / p].movType, speed)
    {
      RepeatAt(Speeds(base, speed), p, k);
    }
  }
}
