/**
 * The 3x3 goal grid: the nine areas a kicker aims at and a keeper dives to,
 * numbered row by row from the top left (the enum values 0..8), and the
 * arrow-key navigation over them, which stops at the edges.
 */
module Grid {

  datatype GoalArea =
    | TopLeft | TopCenter | TopRight
    | MiddleLeft | MiddleCenter | MiddleRight
    | BottomLeft | BottomCenter | BottomRight

  datatype Direction = Up | Down | Left | Right

  /** The enum value of an area. */
  function Value(a: GoalArea): (v: int)
    ensures 0 <= v <= 8
  {
    match a
    case TopLeft => 0
    case TopCenter => 1
    case TopRight => 2
    case MiddleLeft => 3
    case MiddleCenter => 4
    case MiddleRight => 5
    case BottomLeft => 6
    case BottomCenter => 7
    case BottomRight => 8
  }

  /** The enum lookup `GoalArea(v)`; defined on the nine values only. */
  function FromValue(v: int): (a: GoalArea)
    requires 0 <= v <= 8
    ensures Value(a) == v
  {
    if v == 0 then TopLeft
    else if v == 1 then TopCenter
    else if v == 2 then TopRight
    else if v == 3 then MiddleLeft
    else if v == 4 then MiddleCenter
    else if v == 5 then MiddleRight
    else if v == 6 then BottomLeft
    else if v == 7 then BottomCenter
    else BottomRight
  }

  /** Row 0 is the top of the goal, row 2 the bottom. */
  function Row(a: GoalArea): int { Value(a) / 3 }

  /** Column 0 is the left post, column 2 the right post. */
  function Col(a: GoalArea): int { Value(a) % 3 }

  /** One step of a direction on the row and column axes. */
  function RowStep(d: Direction): int
  {
    match d
    case Up => -1
    case Down => 1
    case Left => 0
    case Right => 0
  }

  function ColStep(d: Direction): int
  {
    match d
    case Up => 0
    case Down => 0
    case Left => -1
    case Right => 1
  }

  /** Keeps a coordinate on the grid. */
  function Clamp(x: int): int
  {
    if x < 0 then 0 else if x > 2 then 2 else x
  }

  /** True when a step in direction `d` from `a` would leave the grid. */
  predicate AtEdge(a: GoalArea, d: Direction)
  {
    match d
    case Up => Row(a) == 0
    case Down => Row(a) == 2
    case Left => Col(a) == 0
    case Right => Col(a) == 2
  }

  /**
   * The arrow-key step, written as the game writes it: the area moves by
   * -3/+3/-1/+1 in its value only when it lies in one of the two rows
   * (or columns) from which that step stays on the grid. The result is the
   * clamped step on row and column: the grid never wraps around.
   */
  function Move(a: GoalArea, d: Direction): (r: GoalArea)
    ensures Row(r) == Clamp(Row(a) + RowStep(d))
    ensures Col(r) == Clamp(Col(a) + ColStep(d))
  {
    match d
    case Up =>
      if a in [MiddleLeft, MiddleCenter, MiddleRight] then FromValue(Value(a) - 3)
      else if a in [BottomLeft, BottomCenter, BottomRight] then FromValue(Value(a) - 3)
      else a
    case Down =>
      if a in [TopLeft, TopCenter, TopRight] then FromValue(Value(a) + 3)
      else if a in [MiddleLeft, MiddleCenter, MiddleRight] then FromValue(Value(a) + 3)
      else a
    case Left =>
      if a in [TopCenter, MiddleCenter, BottomCenter] then FromValue(Value(a) - 1)
      else if a in [TopRight, MiddleRight, BottomRight] then FromValue(Value(a) - 1)
      else a
    case Right =>
      if a in [TopLeft, MiddleLeft, BottomLeft] then FromValue(Value(a) + 1)
      else if a in [TopCenter, MiddleCenter, BottomCenter] then FromValue(Value(a) + 1)
      else a
  }

  /** An area is determined by its row and column. */
  lemma CoordinatesDetermineArea(a: GoalArea, b: GoalArea)
    requires Row(a) == Row(b) && Col(a) == Col(b)
    ensures a == b
  {
    assert Value(a) == 3 * Row(a) + Col(a);
    assert Value(b) == 3 * Row(b) + Col(b);
    assert FromValue(Value(a)) == a && FromValue(Value(b)) == b;
  }

  /** A step leaves the area where it is exactly at the matching edge. */
  lemma MoveStaysExactlyAtEdge(a: GoalArea, d: Direction)
    ensures Move(a, d) == a <==> AtEdge(a, d)
  {
    if AtEdge(a, d) {
      CoordinatesDetermineArea(Move(a, d), a);
    }
  }

  /**
   * The value arithmetic of each step: UP subtracts 3 only from the middle
   * and bottom rows, DOWN adds 3 only from the top and middle rows, LEFT
   * subtracts 1 only from the centre and right columns, RIGHT adds 1 only
   * from the left and centre columns; otherwise the area is unchanged.
   */
  lemma MoveValue(a: GoalArea, d: Direction)
    ensures Value(Move(a, d)) == if AtEdge(a, d) then Value(a) else Value(a) + 3 * RowStep(d) + ColStep(d)
  {
    MoveStaysExactlyAtEdge(a, d);
    assert Value(Move(a, d)) == 3 * Row(Move(a, d)) + Col(Move(a, d));
    assert Value(a) == 3 * Row(a) + Col(a);
  }
}
