/** The command layer: `BaseCommand.execute` and the five command classes.

    `CommandEffect` specifies a command run on a robot snapshot; `Execute`
    runs it on a `Robot` object and is proved to agree with it. */
module Commands {
  import opened Wrappers
  import opened Text
  import opened Directions
  import opened Geometry
  import opened TableBounds
  import opened Movement
  import opened Robots

  /** The five command classes; a place command carries the parsed
      coordinates and direction. */
  datatype Command =
    | PlaceCommand(x: nat, y: nat, direction: Direction)
    | MoveCommand
    | LeftCommand
    | RightCommand
    | ReportCommand

  /** `ICommandResult`; absent optional fields are `None`. */
  datatype CommandResult = CommandResult(success: bool, output: Option<string>, error: Option<string>)

  /** What a command's executor callback returns. */
  datatype ExecutorResult = ExecutorResult(success: bool, output: Option<string>)

  /** A command's result together with the robot's state afterwards. */
  datatype CommandOutcome = CommandOutcome(result: CommandResult, state: RobotState)

  const NotPlacedError := "Robot is not placed on the table"
  const MoveError := "Cannot move robot - would fall off the table"
  const LeftError := "Cannot rotate robot left"
  const RightError := "Cannot rotate robot right"
  const ReportError := "Cannot generate report - robot state is invalid"

  /** The result of the placement gate. */
  const NotPlaced := CommandResult(false, None, Some(NotPlacedError))

  /** The failure message of a place command, with its coordinates. */
  function PlaceError(x: nat, y: nat): string {
    "Cannot place robot at position " + NatToString(x) + "," + NatToString(y) + " - position is invalid"
  }

  /** Only a place command runs on an unplaced robot; every other command
      takes the default `requiresPlacement = true`. */
  predicate RequiresPlacement(c: Command) {
    !c.PlaceCommand?
  }

  /** The error message each command hands to `BaseCommand.execute`. */
  function ErrorMessage(c: Command): string {
    match c
    case PlaceCommand(x, y, _) => PlaceError(x, y)
    case MoveCommand => MoveError
    case LeftCommand => LeftError
    case RightCommand => RightError
    case ReportCommand => ReportError
  }

  /** A string is truthy in JavaScript when it is not empty. */
  predicate Truthy(s: Option<string>) {
    s.Some? && s.value != ""
  }

  /** The result shaping of `BaseCommand.execute`: success keeps only a
      non-empty output, failure replaces everything by the error message. */
  function Shape(r: ExecutorResult, errorMessage: string): (c: CommandResult)
    ensures c.success == r.success
    ensures c.error.Some? <==> !c.success
    ensures !c.success ==> c.error == Some(errorMessage) && c.output.None?
    ensures c.output.Some? ==> c.success && c.output == r.output && c.output.value != ""
    ensures c.success && Truthy(r.output) ==> c.output == r.output
  {
    if r.success then CommandResult(true, if Truthy(r.output) then r.output else None, None)
    else CommandResult(false, None, Some(errorMessage))
  }

  /** The executor callback each command passes: the matching robot action,
      or for a report the reporter, whose result succeeds exactly when the
      report is truthy. */
  function Executor(t: Table, s: RobotState, c: Command): (r: (ExecutorResult, RobotState))
    ensures c.ReportCommand? ==> r.1 == s
    ensures !c.ReportCommand? ==> r.0.output.None?
  {
    match c
    case PlaceCommand(x, y, d) =>
      var a := PlaceEffect(t, s, Position(x, y), d);
      (ExecutorResult(a.ok, None), a.state)
    case MoveCommand =>
      var a := MoveEffect(t, s);
      (ExecutorResult(a.ok, None), a.state)
    case LeftCommand =>
      var a := RotateLeftEffect(s);
      (ExecutorResult(a.ok, None), a.state)
    case RightCommand =>
      var a := RotateRightEffect(s);
      (ExecutorResult(a.ok, None), a.state)
    case ReportCommand =>
      var report := Report(s);
      (ExecutorResult(Truthy(report), if Truthy(report) then report else None), s)
  }

  /** `command.execute(robot)`: the placement gate of `BaseCommand.execute`,
      then the executor and the result shaping. A result never carries both
      an output and an error, only a report carries output, and no command
      unplaces the robot or moves it off the table. */
  function CommandEffect(t: Table, s: RobotState, c: Command): (o: CommandOutcome)
    ensures RequiresPlacement(c) && !s.Placed() ==> o == CommandOutcome(NotPlaced, s)
    ensures o.result.success <==> o.result.error.None?
    ensures !(o.result.output.Some? && o.result.error.Some?)
    ensures o.result.output.Some? ==> c.ReportCommand? && o.result.output.value != ""
    ensures s.Placed() ==> o.state.Placed()
    ensures s.OnTable(t) ==> o.state.OnTable(t)
    ensures o.result.success ==> o.state.Placed()
  {
    if RequiresPlacement(c) && !s.Placed() then CommandOutcome(NotPlaced, s)
    else
      var (r, s') := Executor(t, s, c);
      CommandOutcome(Shape(r, ErrorMessage(c)), s')
  }

  /** A place command runs whether or not the robot is placed, succeeds
      exactly when its cell is on the table, then places the robot there,
      and otherwise reports its coordinates and leaves the robot alone. It
      never has output. */
  lemma PlaceCommandBehaviour(t: Table, s: RobotState, x: nat, y: nat, d: Direction)
    ensures var o := CommandEffect(t, s, PlaceCommand(x, y, d));
            && (o.result.success <==> IsValidCoordinates(t, x, y))
            && o.result.output.None?
            && (o.result.success ==> o.state == RobotState(Some(Position(x, y)), Some(d)))
            && (!o.result.success ==> o.state == s && o.result.error == Some(PlaceError(x, y)))
  {
  }

  /** A move needs a placed robot, succeeds exactly when the cell ahead is on
      the table, and never has output. */
  lemma MoveCommandBehaviour(t: Table, s: RobotState)
    ensures var o := CommandEffect(t, s, MoveCommand);
            && (!s.Placed() ==> o == CommandOutcome(NotPlaced, s))
            && (s.Placed() ==>
                  var next := NextCoordinates(s.position.value, s.direction.value);
                  o.result.success <==> IsValidCoordinates(t, next.x, next.y))
            && (!o.result.success && s.Placed() ==> o.result.error == Some(MoveError) && o.state == s)
            && o.result.output.None?
  {
  }

  /** Turning needs a placed robot and then always succeeds, without output. */
  lemma TurnCommandsBehaviour(t: Table, s: RobotState)
    ensures var l := CommandEffect(t, s, LeftCommand);
            var r := CommandEffect(t, s, RightCommand);
            && (!s.Placed() ==> l == CommandOutcome(NotPlaced, s) && r == CommandOutcome(NotPlaced, s))
            && (s.Placed() ==> l.result == CommandResult(true, None, None) && r.result == CommandResult(true, None, None))
            && (s.Placed() ==> l.state == RotateLeftEffect(s).state && r.state == RotateRightEffect(s).state)
  {
  }

  /** A report needs a placed robot, then succeeds with the reporter's text as
      output; it never changes the robot. Since a placed robot's report is
      never empty, its own "invalid state" error cannot occur. */
  lemma ReportCommandBehaviour(t: Table, s: RobotState)
    ensures var o := CommandEffect(t, s, ReportCommand);
            && o.state == s
            && (!s.Placed() ==> o.result == NotPlaced)
            && (s.Placed() ==> o.result == CommandResult(true, Report(s), None))
            && o.result.error != Some(ReportError)
  {
  }

  /** `BaseCommand.execute` for the given command on a robot object. */
  method Execute(robot: Robot, c: Command) returns (res: CommandResult)
    modifies robot
    ensures CommandOutcome(res, robot.State()) == CommandEffect(robot.table, old(robot.State()), c)
  {
    if RequiresPlacement(c) && !robot.IsPlaced() {
      return NotPlaced;
    }
    var r := RunExecutor(robot, c);
    res := Shape(r, ErrorMessage(c));
  }

  /** The executor callback of each command class, run on a robot object. */
  method RunExecutor(robot: Robot, c: Command) returns (r: ExecutorResult)
    modifies robot
    ensures (r, robot.State()) == Executor(robot.table, old(robot.State()), c)
  {
    match c
    case PlaceCommand(x, y, d) =>
      var ok := robot.ExecuteAction(PlaceAction(Position(x, y), d));
      r := ExecutorResult(ok, None);
    case MoveCommand =>
      var ok := robot.ExecuteAction(MoveAction);
      r := ExecutorResult(ok, None);
    case LeftCommand =>
      var ok := robot.ExecuteAction(RotateLeftAction);
      r := ExecutorResult(ok, None);
    case RightCommand =>
      var ok := robot.ExecuteAction(RotateRightAction);
      r := ExecutorResult(ok, None);
    case ReportCommand =>
      var report := Report(robot.State());
      r := ExecutorResult(Truthy(report), if Truthy(report) then report else None);
  }
}
