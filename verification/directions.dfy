/** The four compass directions and the two rotation operations on them. */
module Directions {

  /** The `Direction` enum; each value is its own upper-case name. */
  datatype Direction = NORTH | SOUTH | EAST | WEST

  /** The string value of an enum member. */
  function Name(d: Direction): string {
    match d
    case NORTH => "NORTH"
    case SOUTH => "SOUTH"
    case EAST => "EAST"
    case WEST => "WEST"
  }

  /** The enum's values in declaration order (`Object.values(Direction)`). */
  const AllDirections: seq<Direction> := [NORTH, SOUTH, EAST, WEST]

  /** Distinct directions have distinct names. */
  lemma NameInjective(a: Direction, b: Direction)
    ensures Name(a) == Name(b) ==> a == b
  {
  }

  /** The independent reference for rotation: the number of clockwise
      quarter turns from NORTH. */
  function Heading(d: Direction): (h: nat)
    ensures h < 4
  {
    match d
    case NORTH => 0
    case EAST => 1
    case SOUTH => 2
    case WEST => 3
  }

  lemma HeadingInjective(a: Direction, b: Direction)
    ensures Heading(a) == Heading(b) ==> a == b
  {
  }
}

/** `RotateRightOperation` and `RotateLeftOperation`. */
module DirectionOperations {
  import opened Directions

  /** A quarter turn clockwise: NORTH, EAST, SOUTH, WEST, NORTH. */
  function RotateRight(d: Direction): (r: Direction)
    ensures Heading(r) == (Heading(d) + 1) % 4
    ensures r != d
  {
    match d
    case NORTH => EAST
    case EAST => SOUTH
    case SOUTH => WEST
    case WEST => NORTH
  }

  /** A quarter turn counter-clockwise: NORTH, WEST, SOUTH, EAST, NORTH. */
  function RotateLeft(d: Direction): (r: Direction)
    ensures Heading(r) == (Heading(d) + 3) % 4
    ensures r != d
  {
    match d
    case NORTH => WEST
    case WEST => SOUTH
    case SOUTH => EAST
    case EAST => NORTH
  }

  /** Turning right then left, or left then right, changes nothing. */
  lemma RotationsAreInverse(d: Direction)
    ensures RotateLeft(RotateRight(d)) == d
    ensures RotateRight(RotateLeft(d)) == d
  {
    HeadingInjective(RotateLeft(RotateRight(d)), d);
    HeadingInjective(RotateRight(RotateLeft(d)), d);
  }

  /** Four turns the same way come back to the start; fewer never do. */
  lemma RotationsFormFourCycle(d: Direction)
    ensures RotateRight(RotateRight(RotateRight(RotateRight(d)))) == d
    ensures RotateLeft(RotateLeft(RotateLeft(RotateLeft(d)))) == d
    ensures RotateRight(RotateRight(d)) != d && RotateRight(RotateRight(RotateRight(d))) != d
    ensures RotateLeft(RotateLeft(d)) == RotateRight(RotateRight(d))
  {
  }

  /** The direction opposite `d`, a half turn away. */
  function Opposite(d: Direction): (r: Direction)
    ensures Heading(r) == (Heading(d) + 2) % 4
  {
    RotateRight(RotateRight(d))
  }
}
