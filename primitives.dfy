/**
 * The entities of the motion-primitive generator: the mobility profile, the
 * generation configuration, base primitives at heading 0 and the discrete
 * primitives the generator produces.
 */
module Primitives {
  import opened Geometry

  datatype MovementType = Forward | Backward | Lateral | PointTurn | ForwardTurn | BackwardTurn

  /** Types whose end position is a scaled straight vector. */
  predicate IsStraight(t: MovementType) {
    t == Forward || t == Backward || t == Lateral
  }

  /** Types swept on an arc about a centre of rotation. */
  predicate IsArc(t: MovementType) {
    t == ForwardTurn || t == BackwardTurn
  }

  /** Types driven with a negative speed. */
  predicate Reverses(t: MovementType) {
    t == Backward || t == BackwardTurn
  }

  /**
   * Cost multipliers per movement type (0 disables a type), the nominal speed
   * and the minimal turning radius in metres.
   */
  datatype Mobility = Mobility(
    speed: real,
    multiplierForward: int,
    multiplierBackward: int,
    multiplierLateral: int,
    multiplierPointTurn: int,
    multiplierForwardTurn: int,
    multiplierBackwardTurn: int,
    minTurningRadius: real)

  /** Mobility::isSet: some multiplier is non-zero. */
  predicate IsSet(m: Mobility) {
    m.multiplierForward != 0 || m.multiplierBackward != 0 || m.multiplierLateral != 0 ||
    m.multiplierPointTurn != 0 || m.multiplierForwardTurn != 0 || m.multiplierBackwardTurn != 0
  }

  /**
   * Grid cell size in metres, the number of discrete headings N, the number P
   * of primitives wanted per base primitive and heading, the accepted rounding
   * distance in cells and the number of intermediate poses per primitive.
   */
  datatype Config = Config(
    mobility: Mobility,
    gridSize: real,
    numAngles: nat,
    numPrimPartition: int,
    primAccuracy: real,
    numPosesPerPrim: nat)

  /**
   * A heading-0 primitive: its id, the unit end vector (dx, dy) and turning
   * direction `turn` (the third component of the source's end vector), its
   * cost multiplier, movement type and centre of rotation.
   */
  datatype BasePrim = BasePrim(
    id: int,
    dx: int,
    dy: int,
    turn: int,
    cost: int,
    movType: MovementType,
    center: Vec)

  /**
   * A discrete primitive: id, start heading, discrete end cell, truncated end
   * heading in [0, N), the raw end heading it came from, cost multiplier,
   * movement type, scaled centre of rotation and intermediate poses.
   */
  datatype Primitive = Primitive(
    id: int,
    startAngle: nat,
    endX: int,
    endY: int,
    endTheta: int,
    rawEndTheta: int,
    cost: int,
    movType: MovementType,
    center: Vec,
    poses: seq<Pose>)

  /** The signed speed of a movement type: backward motions drive at -speed. */
  function SpeedOf(t: MovementType, speed: real): real {
    if Reverses(t) then -speed else speed
  }

  /** The raw end heading reduced into [0, n) by whole turns. */
  function Truncate(raw: int, n: nat): (r: int)
    requires n > 0
    ensures 0 <= r < n
    ensures raw - r == (raw / n) * n
  {
    raw % n
  }

  /** Truncate leaves a heading already in [0, n) alone. */
  lemma TruncateInRange(raw: int, n: nat)
    requires 0 <= raw < n
    ensures Truncate(raw, n) == raw
  {
  }
  /** Positions j * p + k with 0 <= k < p are the j-th block of p: their quotient by p is j. */
  lemma SlotQuotient(j: int, pp: int, k: int)
    requires pp >= 1 && 0 <= k < pp
    ensures (j * pp + k) / pp == j
    ensures j * pp <= j * pp + k < (j + 1) * pp
  {
    var q := (j * pp + k) / pp;
    var r := (j * pp + k) % pp;
    assert j * pp + k == q * pp + r;
    assert 0 <= r < pp;
    assert (q - j) * pp == k - r;
    if q - j >= 1 {
      MulAtLeast(q - j, pp);
    } else if q - j <= -1 {
      MulAtLeast(j - q, pp);
    }
    assert (j + 1) * pp == j * pp + pp;
  }

  lemma MulAtLeast(a: int, b: int)
    requires a >= 1 && b >= 1
    ensures a * b >= b
  {
    assert a * b == (a - 1) * b + b;
  }

  lemma MulSucc(q: int, n: int)
    ensures (q + 1) * n == q * n + n
  {
  }

  /** A position below i * p lies in one of the first i blocks. */
  lemma DivBelow(k: int, i: int, pp: int)
    requires pp >= 1 && 0 <= k < i * pp
    ensures 0 <= k / pp < i
  {
    var q := k / pp;
    assert k == q * pp + k % pp;
  }

  /** The remainder is the unique representative in [0, n). */
  lemma ModUnique(x: int, r: int, q: int, n: int)
    requires n >= 1 && 0 <= r < n && x == r + q * n
    ensures x % n == r
    ensures x / n == q
  {
    SlotQuotient(q, n, r);
  }

  lemma AppendAssoc<T>(a: seq<T>, b: seq<T>, c: seq<T>)
    ensures a + (b + c) == (a + b) + c
  {
  }
}
