/** The mutable `Robot`, its four actions and the `RobotReporter`.

    Each action is specified by a function on `RobotState`, a snapshot of the
    robot's two nullable fields; the methods that mutate a `Robot` are proved
    to produce exactly the snapshot that function describes. */
module Robots {
  import opened Wrappers
  import opened Text
  import opened Directions
  import opened DirectionOperations
  import opened Geometry
  import opened TableBounds
  import opened Movement

  /** The values of `_position` and `_direction`, `None` standing for `null`. */
  datatype RobotState = RobotState(position: Option<Position>, direction: Option<Direction>)
  {
    /** `isPlaced`: both fields are set. */
    predicate Placed() {
      position.Some? && direction.Some?
    }

    /** Whatever position the robot holds lies on table `t`. */
    predicate OnTable(t: Table) {
      position.Some? ==> IsValidPosition(t, position.value)
    }
  }

  /** The state of a new robot. */
  const Unplaced := RobotState(None, None)

  /** The four `IRobotAction` classes; a place action carries its target. */
  datatype RobotAction =
    | PlaceAction(position: Position, direction: Direction)
    | MoveAction
    | RotateLeftAction
    | RotateRightAction

  /** What `execute` returns, and the robot's state afterwards. */
  datatype ActionResult = ActionResult(ok: bool, state: RobotState)

  // ------------------------------------------------------------ action effects

  /** `PlaceAction.execute`: a bounds-checked placement that does not need the
      robot to be placed already. */
  function PlaceEffect(t: Table, s: RobotState, p: Position, d: Direction): (r: ActionResult)
    ensures r.ok <==> IsValidPosition(t, p)
    ensures r.ok ==> r.state.position == Some(p) && r.state.direction == Some(d)
    ensures r.ok ==> r.state.Placed() && r.state.OnTable(t)
    ensures !r.ok ==> r.state == s
  {
    if !IsValidPosition(t, p) then ActionResult(false, s)
    else ActionResult(true, RobotState(Some(p), Some(d)))
  }

  /** `MoveAction.execute`: one step forward when the robot is placed and the
      cell ahead is on the table; the direction never changes. */
  function MoveEffect(t: Table, s: RobotState): (r: ActionResult)
    ensures !s.Placed() ==> r == ActionResult(false, s)
    ensures r.state.direction == s.direction
    ensures r.ok <==> s.Placed() && IsValidCoordinates(t,
      NextCoordinates(s.position.value, s.direction.value).x,
      NextCoordinates(s.position.value, s.direction.value).y)
    ensures r.ok ==> (r.state.position.Some?
      && r.state.position.value.x == NextCoordinates(s.position.value, s.direction.value).x
      && r.state.position.value.y == NextCoordinates(s.position.value, s.direction.value).y)
    ensures !r.ok ==> r.state == s
    ensures r.ok ==> r.state.OnTable(t)
  {
    if !s.Placed() then ActionResult(false, s)
    else
      var c := NextCoordinates(s.position.value, s.direction.value);
      if !IsValidCoordinates(t, c.x, c.y) then ActionResult(false, s)
      else ActionResult(true, s.(position := Some(Position(c.x, c.y))))
  }

  /** `RotateLeftAction.execute`: a left turn when placed; the position never
      changes. */
  function RotateLeftEffect(s: RobotState): (r: ActionResult)
    ensures r.ok <==> s.Placed()
    ensures r.state.position == s.position
    ensures r.ok ==> r.state.direction == Some(RotateLeft(s.direction.value))
    ensures !r.ok ==> r.state == s
  {
    if !s.Placed() then ActionResult(false, s)
    else ActionResult(true, s.(direction := Some(RotateLeft(s.direction.value))))
  }

  /** `RotateRightAction.execute`: a right turn when placed. */
  function RotateRightEffect(s: RobotState): (r: ActionResult)
    ensures r.ok <==> s.Placed()
    ensures r.state.position == s.position
    ensures r.ok ==> r.state.direction == Some(RotateRight(s.direction.value))
    ensures !r.ok ==> r.state == s
  {
    if !s.Placed() then ActionResult(false, s)
    else ActionResult(true, s.(direction := Some(RotateRight(s.direction.value))))
  }

  /** `action.execute(robot)`, whichever action it is. No action unsets a
      field, and none moves the robot off the table. */
  function ActionEffect(t: Table, s: RobotState, action: RobotAction): (r: ActionResult)
    ensures s.Placed() ==> r.state.Placed()
    ensures s.OnTable(t) ==> r.state.OnTable(t)
    ensures r.ok ==> r.state.Placed()
  {
    match action
    case PlaceAction(p, d) => PlaceEffect(t, s, p, d)
    case MoveAction => MoveEffect(t, s)
    case RotateLeftAction => RotateLeftEffect(s)
    case RotateRightAction => RotateRightEffect(s)
  }

  /** A later successful placement wholly replaces an earlier one. */
  lemma PlaceReplaces(t: Table, s: RobotState, p1: Position, d1: Direction, p2: Position, d2: Direction)
    requires IsValidPosition(t, p2)
    ensures PlaceEffect(t, PlaceEffect(t, s, p1, d1).state, p2, d2) == PlaceEffect(t, s, p2, d2)
  {
  }

  /** Four left turns, or four right turns, restore the robot. */
  lemma FourTurnsRestore(s: RobotState)
    ensures RotateLeftEffect(RotateLeftEffect(RotateLeftEffect(RotateLeftEffect(s).state).state).state).state == s
    ensures RotateRightEffect(RotateRightEffect(RotateRightEffect(RotateRightEffect(s).state).state).state).state == s
  {
    if s.Placed() {
      RotationsFormFourCycle(s.direction.value);
    }
  }

  /** A left turn undoes a right turn and the other way round. */
  lemma TurnsUndoEachOther(s: RobotState)
    ensures RotateLeftEffect(RotateRightEffect(s).state).state == s
    ensures RotateRightEffect(RotateLeftEffect(s).state).state == s
  {
    if s.Placed() {
      RotationsAreInverse(s.direction.value);
    }
  }

  /** A successful move can be walked back: turn round, move, turn round. */
  lemma MoveWalksBack(t: Table, s: RobotState)
    requires s.OnTable(t) && MoveEffect(t, s).ok
    ensures var there := MoveEffect(t, s).state;
            var turned := RotateRightEffect(RotateRightEffect(there).state).state;
            var back := MoveEffect(t, turned);
            back.ok && RotateRightEffect(RotateRightEffect(back.state).state).state == s
  {
    var p, d := s.position.value, s.direction.value;
    var there := MoveEffect(t, s).state;
    var turned := RotateRightEffect(RotateRightEffect(there).state).state;
    assert turned.direction == Some(Opposite(d));
    StepBack(p, d);
    var back := MoveEffect(t, turned);
    assert back.state.position == Some(p);
    RotationsFormFourCycle(d);
  }

  // ----------------------------------------------------------------- reporter

  /** The comma that separates the fields of a report. */
  const FieldSeparator := ','

  /** `RobotReporter.generateReport`: `null` for an unplaced robot, otherwise
      `x,y,DIRECTION`. */
  function Report(s: RobotState): (r: Option<string>)
    ensures r.None? <==> !s.Placed()
    ensures r.Some? ==> |r.value| > 0
  {
    if !s.Placed() then None
    else Some(NatToString(s.position.value.x) + [FieldSeparator] + NatToString(s.position.value.y)
              + [FieldSeparator] + Name(s.direction.value))
  }

  /** A report has three comma-separated fields that read back as the
      robot's x, y and direction; the numbers carry no leading zero. */
  lemma {:induction false} ReportFields(s: RobotState)
    requires s.Placed()
    ensures var fields := Split(Report(s).value, FieldSeparator);
            |fields| == 3
            && AllDigits(fields[0]) && ParseDecimal(fields[0]) == s.position.value.x
            && AllDigits(fields[1]) && ParseDecimal(fields[1]) == s.position.value.y
            && fields[2] == Name(s.direction.value)
            && (|fields[0]| > 1 ==> fields[0][0] != '0')
            && (|fields[1]| > 1 ==> fields[1][0] != '0')
  {
    var a := NatToString(s.position.value.x);
    var b := NatToString(s.position.value.y);
    var c := Name(s.direction.value);
    DigitsAreUpperFixed(a);
    DigitsAreUpperFixed(b);
    assert FieldSeparator !in a && FieldSeparator !in b && FieldSeparator !in c;
    assert Report(s).value == a + [FieldSeparator] + (b + [FieldSeparator] + c);
    SplitAfterFirstSeparator(a, FieldSeparator, b + [FieldSeparator] + c);
    SplitAfterFirstSeparator(b, FieldSeparator, c);
    SplitWithoutSeparator(c, FieldSeparator);
    ParseNatToString(s.position.value.x);
    ParseNatToString(s.position.value.y);
  }

  /** The example report for a robot at 2,3 facing NORTH. */
  lemma ReportExample()
    ensures Report(RobotState(Some(Position(2, 3)), Some(NORTH))) == Some("2,3,NORTH")
  {
    assert NatToString(2) == "2" && NatToString(3) == "3";
    assert "2" + [FieldSeparator] + "3" + [FieldSeparator] + "NORTH" == "2,3,NORTH";
  }

  // -------------------------------------------------------------------- robot

  /** `Robot`: a fixed table and two nullable fields. */
  class Robot {
    const table: Table
    var position: Option<Position>
    var direction: Option<Direction>

    /** `new Robot(table)`: nothing is set yet. */
    constructor(table: Table)
      ensures this.table == table && State() == Unplaced && !State().Placed()
    {
      this.table := table;
      position := None;
      direction := None;
    }

    /** The robot's fields as a value. */
    function State(): RobotState
      reads this
    {
      RobotState(position, direction)
    }

    /** `isPlaced`. */
    function IsPlaced(): (placed: bool)
      reads this
      ensures placed <==> State().Placed()
    {
      position != None && direction != None
    }

    /** `setPosition`: replaces the position and nothing else. */
    method SetPosition(p: Position)
      modifies this`position
      ensures position == Some(p)
      ensures direction == old(direction)
    {
      position := Some(p);
    }

    /** `setDirection`: replaces the direction and nothing else. */
    method SetDirection(d: Direction)
      modifies this`direction
      ensures direction == Some(d)
      ensures position == old(position)
    {
      direction := Some(d);
    }

    /** `executeAction`: runs the action on this robot and returns exactly
        the action's own result. */
    method ExecuteAction(action: RobotAction) returns (ok: bool)
      modifies this
      ensures ActionResult(ok, State()) == ActionEffect(table, old(State()), action)
    {
      match action
      case PlaceAction(p, d) => ok := ExecutePlace(this, p, d);
      case MoveAction => ok := ExecuteMove(this);
      case RotateLeftAction => ok := ExecuteRotateLeft(this);
      case RotateRightAction => ok := ExecuteRotateRight(this);
    }
  }

  /** `PlaceAction.execute`. */
  method ExecutePlace(robot: Robot, p: Position, d: Direction) returns (ok: bool)
    modifies robot
    ensures ActionResult(ok, robot.State()) == PlaceEffect(robot.table, old(robot.State()), p, d)
  {
    if !IsValidPosition(robot.table, p) {
      return false;
    }
    robot.SetPosition(p);
    robot.SetDirection(d);
    ok := true;
  }

  /** `MoveAction.execute`. */
  method ExecuteMove(robot: Robot) returns (ok: bool)
    modifies robot
    ensures ActionResult(ok, robot.State()) == MoveEffect(robot.table, old(robot.State()))
  {
    if !robot.IsPlaced() {
      return false;
    }
    var next := NextCoordinates(robot.position.value, robot.direction.value);
    if !IsValidCoordinates(robot.table, next.x, next.y) {
      return false;
    }
    robot.SetPosition(Position(next.x, next.y));
    ok := true;
  }

  /** `RotateLeftAction.execute`. */
  method ExecuteRotateLeft(robot: Robot) returns (ok: bool)
    modifies robot
    ensures ActionResult(ok, robot.State()) == RotateLeftEffect(old(robot.State()))
  {
    if !robot.IsPlaced() {
      return false;
    }
    robot.SetDirection(RotateLeft(robot.direction.value));
    ok := true;
  }

  /** `RotateRightAction.execute`. */
  method ExecuteRotateRight(robot: Robot) returns (ok: bool)
    modifies robot
    ensures ActionResult(ok, robot.State()) == RotateRightEffect(old(robot.State()))
  {
    if !robot.IsPlaced() {
      return false;
    }
    robot.SetDirection(RotateRight(robot.direction.value));
    ok := true;
  }
}
