/** `Position` and `Table`: immutable records whose constructors run the
    numeric guards, x before y and width before height. A construction that
    would throw is a `Failure` carrying the thrown error. */
module Geometry {
  import opened Wrappers
  import opened Errors
  import opened NumericValidation

  /** A cell of the grid; the guards make both coordinates non-negative. */
  datatype Position = Position(x: nat, y: nat)

  /** A table side; the guards make it positive. */
  type Dimension = n: int | n > 0 witness 1

  /** The table's size. */
  datatype Table = Table(width: Dimension, height: Dimension)

  /** `new Position(x, y)`. */
  function NewPosition(x: int, y: int): (r: Result<Position, InvalidArgumentError>)
    ensures r.Success? <==> x >= 0 && y >= 0
    ensures r.Success? ==> r.value.x == x && r.value.y == y
    ensures r.Failure? && x < 0 ==> r.error == ValidateCoordinate(x, "x coordinate").error
    ensures r.Failure? && x >= 0 ==> r.error == ValidateCoordinate(y, "y coordinate").error
  {
    match ValidateCoordinate(x, "x coordinate")
    case Fail(e) => Failure(e)
    case Pass =>
      match ValidateCoordinate(y, "y coordinate")
      case Fail(e) => Failure(e)
      case Pass => Success(Position(x, y))
  }

  /** `new Table(width, height)`. */
  function NewTable(width: int, height: int): (r: Result<Table, InvalidArgumentError>)
    ensures r.Success? <==> width > 0 && height > 0
    ensures r.Success? ==> r.value.width == width && r.value.height == height
    ensures r.Failure? && width <= 0 ==> r.error == ValidateDimension(width, "table width").error
    ensures r.Failure? && width > 0 ==> r.error == ValidateDimension(height, "table height").error
  {
    match ValidateDimension(width, "table width")
    case Fail(e) => Failure(e)
    case Pass =>
      match ValidateDimension(height, "table height")
      case Fail(e) => Failure(e)
      case Pass => Success(Table(width, height))
  }

  /** When both coordinates are bad the error names the x coordinate. */
  lemma XCheckedFirst(x: int, y: int)
    requires x < 0 && y < 0
    ensures NewPosition(x, y).Failure? && NewPosition(x, y).error.argumentName == "x coordinate"
  {
  }

  /** When both sides are bad the error names the width. */
  lemma WidthCheckedFirst(width: int, height: int)
    requires width <= 0 && height <= 0
    ensures NewTable(width, height).Failure? && NewTable(width, height).error.argumentName == "table width"
  {
  }

  /** The 5 by 5 table the application builds. */
  lemma ApplicationTable()
    ensures NewTable(5, 5) == Success(Table(5, 5))
  {
  }
}

/** `TableBoundsCoordinateValidator` and `TableBoundsPositionValidator`. */
module TableBounds {
  import opened Geometry

  /** `isValidCoordinates(x, y)`: the cell lies on the table. */
  predicate IsValidCoordinates(t: Table, x: int, y: int) {
    x >= 0 && x < t.width && y >= 0 && y < t.height
  }

  /** `isValidPosition(p)`. */
  predicate IsValidPosition(t: Table, p: Position) {
    p.x >= 0 && p.x < t.width && p.y >= 0 && p.y < t.height
  }

  /** The two validators agree on every position. */
  lemma PositionAgreesWithCoordinates(t: Table, p: Position)
    ensures IsValidPosition(t, p) <==> IsValidCoordinates(t, p.x, p.y)
  {
  }

  /** The two corners are on the table; one past either far edge, or below
      zero, is not. */
  lemma Edges(t: Table, x: int, y: int)
    ensures IsValidCoordinates(t, 0, 0) && IsValidCoordinates(t, t.width - 1, t.height - 1)
    ensures !IsValidCoordinates(t, t.width, y) && !IsValidCoordinates(t, x, t.height)
    ensures x < 0 || y < 0 ==> !IsValidCoordinates(t, x, y)
  {
  }

  /** A 2 by 3 table accepts (1,2) and rejects (2,2) and (1,3). */
  lemma NonSquareTable()
    ensures IsValidCoordinates(Table(2, 3), 1, 2)
    ensures !IsValidCoordinates(Table(2, 3), 2, 2) && !IsValidCoordinates(Table(2, 3), 1, 3)
    ensures IsValidPosition(Table(2, 3), Position(1, 2))
    ensures !IsValidPosition(Table(2, 3), Position(2, 2)) && !IsValidPosition(Table(2, 3), Position(1, 3))
  {
  }
}

/** `MovementCalculator.calculateNextCoordinates`: the unchecked cell one
    step ahead. */
module Movement {
  import opened Directions
  import opened DirectionOperations
  import opened Geometry

  /** The plain `{x, y}` record the calculator returns; it may lie off the
      table or below zero. */
  datatype Coordinates = Coordinates(x: int, y: int)

  /** The cell one step from `p` facing `d`. The switch covers the whole
      enum, so its "unknown direction" branch has no counterpart. Exactly one
      coordinate changes, by one, and the sign of the change names the
      direction. */
  function NextCoordinates(p: Position, d: Direction): (c: Coordinates)
    ensures (c.x - p.x) * (c.x - p.x) + (c.y - p.y) * (c.y - p.y) == 1
    ensures c.y > p.y <==> d == NORTH
    ensures c.y < p.y <==> d == SOUTH
    ensures c.x > p.x <==> d == EAST
    ensures c.x < p.x <==> d == WEST
  {
    match d
    case NORTH => Coordinates(p.x, p.y + 1)
    case SOUTH => Coordinates(p.x, p.y - 1)
    case EAST => Coordinates(p.x + 1, p.y)
    case WEST => Coordinates(p.x - 1, p.y)
  }

  /** A step followed by a step in the opposite direction comes back. */
  lemma StepBack(p: Position, d: Direction)
    requires NextCoordinates(p, d).x >= 0 && NextCoordinates(p, d).y >= 0
    ensures NextCoordinates(Position(NextCoordinates(p, d).x, NextCoordinates(p, d).y), Opposite(d))
         == Coordinates(p.x, p.y)
  {
  }

  /** The calculator does not check bounds: south from the bottom row gives
      row -1, and west from the left column gives column -1. */
  lemma LeavesGridUnchecked(x: nat, y: nat)
    ensures NextCoordinates(Position(x, 0), SOUTH) == Coordinates(x, -1)
    ensures NextCoordinates(Position(0, y), WEST) == Coordinates(-1, y)
  {
  }
}
