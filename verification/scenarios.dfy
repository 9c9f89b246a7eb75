/** Sessions on the application's 5 by 5 table from a new processor over an
    unplaced robot. Each session is stated for lines that the parser reads
    as the listed commands; `ProcessorReadsScripts` shows that the
    processor's own parser reads the canonical text of any commands so. */
module Scenarios {
  import opened Wrappers
  import opened Text
  import opened Directions
  import opened DirectionOperations
  import opened Geometry
  import opened TableBounds
  import opened Movement
  import opened Robots
  import opened Commands
  import opened Parsing
  import opened Processing

  /** The table the application builds. */
  const Board := Table(5, 5)

  /** A new processor: gate closed, robot unplaced. */
  const Start := NewSession(Unplaced)

  /** The result of a command that succeeds without output. */
  const Done := CommandResult(true, None, None)

  /** An open gate and a robot at the given cell. */
  function At(x: nat, y: nat, d: Direction): Session {
    Session(true, RobotState(Some(Position(x, y)), Some(d)))
  }

  /** The lines are read, one by one, as the commands. */
  predicate Scripted(parse: Parser, lines: seq<string>, cs: seq<Command>) {
    |lines| == |cs| && forall i :: 0 <= i < |lines| ==> parse(lines[i]) == Some(cs[i])
  }

  /** The canonical text of each command, one line per command. */
  function Script(cs: seq<Command>): seq<string> {
    seq(|cs|, i requires 0 <= i < |cs| => Format(cs[i]))
  }

  /** The processor's parser reads the canonical text of any commands as
      those commands. */
  lemma ProcessorReadsScripts(cs: seq<Command>)
    ensures Scripted(ParseCommand, Script(cs), cs)
  {
    forall i | 0 <= i < |cs|
      ensures ParseCommand(Script(cs)[i]) == Some(cs[i])
    {
      ParseFormat(cs[i]);
    }
  }

  /** A command the gate lets through has exactly its effect. */
  lemma Executes(parse: Parser, ss: Session, line: string, c: Command)
    requires parse(line) == Some(c) && CanExecute(ss.gate, c)
    ensures var o := CommandEffect(Board, ss.robot, c);
      Step(Board, parse, ss, line)
        == StepResult(o.result, Session(ss.gate || (o.result.success && c.PlaceCommand?), o.state), Routed(c, o.result))
  {
  }

  /** A place on the board opens the gate with the robot there. */
  lemma PlaceStep(parse: Parser, ss: Session, line: string, x: nat, y: nat, d: Direction)
    requires parse(line) == Some(PlaceCommand(x, y, d)) && IsValidCoordinates(Board, x, y)
    ensures Step(Board, parse, ss, line) == StepResult(Done, At(x, y, d), [])
  {
    Executes(parse, ss, line, PlaceCommand(x, y, d));
    PlaceCommandBehaviour(Board, ss.robot, x, y, d);
  }

  /** A move to a neighbour on the board. */
  lemma MoveStep(parse: Parser, line: string, x: nat, y: nat, d: Direction)
    requires parse(line) == Some(MoveCommand)
    requires var n := NextCoordinates(Position(x, y), d); IsValidCoordinates(Board, n.x, n.y)
    ensures var n := NextCoordinates(Position(x, y), d);
      Step(Board, parse, At(x, y, d), line) == StepResult(Done, At(n.x, n.y, d), [])
  {
    Executes(parse, At(x, y, d), line, MoveCommand);
  }

  /** A move over the edge fails and leaves the robot where it was. */
  lemma BlockedMoveStep(parse: Parser, line: string, x: nat, y: nat, d: Direction)
    requires parse(line) == Some(MoveCommand)
    requires var n := NextCoordinates(Position(x, y), d); !IsValidCoordinates(Board, n.x, n.y)
    ensures Step(Board, parse, At(x, y, d), line) == StepResult(CommandResult(false, None, Some(MoveError)), At(x, y, d), [])
  {
    Executes(parse, At(x, y, d), line, MoveCommand);
    MoveCommandBehaviour(Board, At(x, y, d).robot);
  }

  /** A left turn in place. */
  lemma LeftStep(parse: Parser, line: string, x: nat, y: nat, d: Direction)
    requires parse(line) == Some(LeftCommand)
    ensures Step(Board, parse, At(x, y, d), line) == StepResult(Done, At(x, y, RotateLeft(d)), [])
  {
    Executes(parse, At(x, y, d), line, LeftCommand);
    TurnCommandsBehaviour(Board, At(x, y, d).robot);
  }

  /** A report in place, written through `writeReport`. */
  lemma ReportStep(parse: Parser, line: string, x: nat, y: nat, d: Direction)
    requires parse(line) == Some(ReportCommand)
    ensures var text := Report(At(x, y, d).robot).value;
      Step(Board, parse, At(x, y, d), line)
        == StepResult(CommandResult(true, Some(text), None), At(x, y, d), [OutputLine(WriteReport, text)])
  {
    Executes(parse, At(x, y, d), line, ReportCommand);
    ReportCommandBehaviour(Board, At(x, y, d).robot);
  }

  /** Before any place, a command other than a place is ignored with the
      warning. */
  lemma HeldBackStep(parse: Parser, line: string, c: Command)
    requires parse(line) == Some(c) && !c.PlaceCommand?
    ensures Step(Board, parse, Start, line) == StepResult(Ignored, Start, [OutputLine(WriteWarning, IgnoredWarning)])
  {
  }

  /** The first line on the empty run. */
  lemma RunFirst(parse: Parser, lines: seq<string>, last: StepResult)
    requires |lines| > 0 && Step(Board, parse, Start, lines[0]) == last
    ensures Run(Board, parse, Start, lines[..1]) == RunResult([last.result], last.session, last.output)
  {
    assert lines[..1][..0] == [];
  }

  /** One more line of a run whose prefix is known. */
  lemma RunNext(parse: Parser, lines: seq<string>, i: nat, before: RunResult, last: StepResult)
    requires i < |lines| && Run(Board, parse, Start, lines[..i]) == before
    requires Step(Board, parse, before.session, lines[i]) == last
    ensures Run(Board, parse, Start, lines[..i + 1]) == RunResult(before.results + [last.result], last.session, before.output + last.output)
  {
    RunSnoc(Board, parse, Start, lines, i);
  }

  /** The first half of the example walk: placed at 1,2 facing EAST, then
      two steps east. */
  lemma WalkEast(parse: Parser, lines: seq<string>)
    requires |lines| >= 3
    requires parse(lines[0]) == Some(PlaceCommand(1, 2, EAST))
    requires parse(lines[1]) == Some(MoveCommand) && parse(lines[2]) == Some(MoveCommand)
    ensures Run(Board, parse, Start, lines[..3]) == RunResult([Done, Done, Done], At(3, 2, EAST), [])
  {
    PlaceStep(parse, Start, lines[0], 1, 2, EAST);
    RunFirst(parse, lines, StepResult(Done, At(1, 2, EAST), []));
    MoveStep(parse, lines[1], 1, 2, EAST);
    RunNext(parse, lines, 1, RunResult([Done], At(1, 2, EAST), []), StepResult(Done, At(2, 2, EAST), []));
    MoveStep(parse, lines[2], 2, 2, EAST);
    RunNext(parse, lines, 2, RunResult([Done, Done], At(2, 2, EAST), []), StepResult(Done, At(3, 2, EAST), []));
  }

  /** The example walk continued: a left turn to face NORTH. */
  lemma WalkTurn(parse: Parser, lines: seq<string>)
    requires |lines| >= 4
    requires parse(lines[0]) == Some(PlaceCommand(1, 2, EAST))
    requires parse(lines[1]) == Some(MoveCommand) && parse(lines[2]) == Some(MoveCommand)
    requires parse(lines[3]) == Some(LeftCommand)
    ensures Run(Board, parse, Start, lines[..4]) == RunResult([Done, Done, Done, Done], At(3, 2, NORTH), [])
  {
    WalkEast(parse, lines);
    assert RotateLeft(EAST) == NORTH;
    LeftStep(parse, lines[3], 3, 2, EAST);
    RunNext(parse, lines, 3, RunResult([Done, Done, Done], At(3, 2, EAST), []), StepResult(Done, At(3, 2, NORTH), []));
  }

  /** The example walk continued: a step north, to 3,3. */
  lemma WalkNorth(parse: Parser, lines: seq<string>)
    requires |lines| >= 5
    requires parse(lines[0]) == Some(PlaceCommand(1, 2, EAST))
    requires parse(lines[1]) == Some(MoveCommand) && parse(lines[2]) == Some(MoveCommand)
    requires parse(lines[3]) == Some(LeftCommand) && parse(lines[4]) == Some(MoveCommand)
    ensures Run(Board, parse, Start, lines[..5]) == RunResult([Done, Done, Done, Done, Done], At(3, 3, NORTH), [])
  {
    WalkTurn(parse, lines);
    assert NextCoordinates(Position(3, 2), NORTH) == Coordinates(3, 3);
    MoveStep(parse, lines[4], 3, 2, NORTH);
    RunNext(parse, lines, 4, RunResult([Done, Done, Done, Done], At(3, 2, NORTH), []), StepResult(Done, At(3, 3, NORTH), []));
  }

  /** The example walk: from 1,2 facing EAST, two steps east, a left turn
      and a step north end at 3,3 facing NORTH, which the report shows. */
  lemma WalkAndReport(parse: Parser, lines: seq<string>)
    requires Scripted(parse, lines, [PlaceCommand(1, 2, EAST), MoveCommand, MoveCommand, LeftCommand, MoveCommand, ReportCommand])
    ensures var r := Run(Board, parse, Start, lines);
      && r.output == [OutputLine(WriteReport, "3,3,NORTH")]
      && r.session == At(3, 3, NORTH)
      && r.results == [Done, Done, Done, Done, Done, CommandResult(true, Some("3,3,NORTH"), None)]
  {
    var report := CommandResult(true, Some("3,3,NORTH"), None);
    WalkNorth(parse, lines);
    ReportStep(parse, lines[5], 3, 3, NORTH);
    ReportThreeThreeNorth();
    RunNext(parse, lines, 5, RunResult([Done, Done, Done, Done, Done], At(3, 3, NORTH), []),
      StepResult(report, At(3, 3, NORTH), [OutputLine(WriteReport, "3,3,NORTH")]));
    assert lines[..6] == lines;
  }

  /** At the south-west corner facing SOUTH the move is refused with its
      error, and the report shows the robot where it was placed. */
  lemma EdgeHolds(parse: Parser, lines: seq<string>)
    requires Scripted(parse, lines, [PlaceCommand(0, 0, SOUTH), MoveCommand, ReportCommand])
    ensures var r := Run(Board, parse, Start, lines);
      && r.output == [OutputLine(WriteReport, "0,0,SOUTH")]
      && r.session == At(0, 0, SOUTH)
      && r.results == [Done, CommandResult(false, None, Some(MoveError)), CommandResult(true, Some("0,0,SOUTH"), None)]
  {
    var refused := CommandResult(false, None, Some(MoveError));
    PlaceStep(parse, Start, lines[0], 0, 0, SOUTH);
    RunFirst(parse, lines, StepResult(Done, At(0, 0, SOUTH), []));
    BlockedMoveStep(parse, lines[1], 0, 0, SOUTH);
    RunNext(parse, lines, 1, RunResult([Done], At(0, 0, SOUTH), []), StepResult(refused, At(0, 0, SOUTH), []));
    ReportStep(parse, lines[2], 0, 0, SOUTH);
    ReportZeroZeroSouth();
    RunNext(parse, lines, 2, RunResult([Done, refused], At(0, 0, SOUTH), []),
      StepResult(CommandResult(true, Some("0,0,SOUTH"), None), At(0, 0, SOUTH), [OutputLine(WriteReport, "0,0,SOUTH")]));
    assert lines[..3] == lines;
  }

  /** Without a place first, a move, a turn and a report are each ignored
      with the warning: nothing is reported and the robot stays unplaced. */
  lemma NothingBeforePlace(parse: Parser, lines: seq<string>)
    requires Scripted(parse, lines, [MoveCommand, LeftCommand, ReportCommand])
    ensures var r := Run(Board, parse, Start, lines);
      var warning := OutputLine(WriteWarning, IgnoredWarning);
      && r.output == [warning, warning, warning]
      && r.session == Start
      && r.results == [Ignored, Ignored, Ignored]
  {
    var warning := OutputLine(WriteWarning, IgnoredWarning);
    HeldBackStep(parse, lines[0], MoveCommand);
    RunFirst(parse, lines, StepResult(Ignored, Start, [warning]));
    HeldBackStep(parse, lines[1], LeftCommand);
    RunNext(parse, lines, 1, RunResult([Ignored], Start, [warning]), StepResult(Ignored, Start, [warning]));
    HeldBackStep(parse, lines[2], ReportCommand);
    RunNext(parse, lines, 2, RunResult([Ignored, Ignored], Start, [warning, warning]), StepResult(Ignored, Start, [warning]));
    assert lines[..3] == lines;
  }

  /** A place with two arguments is not a place command at all. */
  lemma TwoArgumentPlace()
    ensures ParsePlace(PlaceKeyword + (" " + Join(["1", "2"], [ArgumentSeparator]))).None?
  {
    ParsePlaceFields(" ", ["1", "2"]);
  }

  /** Nor is a place with letters for coordinates. */
  lemma LetteredPlace()
    ensures ParsePlace(PlaceKeyword + (" " + Join(["A", "B", "NORTH"], [ArgumentSeparator]))).None?
  {
    assert !IsDigit("A"[0]);
    ParsePlaceFields(" ", ["A", "B", "NORTH"]);
  }

  lemma ReportZeroZeroSouth()
    ensures Report(At(0, 0, SOUTH).robot) == Some("0,0,SOUTH")
  {
    assert NatToString(0) == "0";
    assert "0" + [FieldSeparator] + "0" + [FieldSeparator] + "SOUTH" == "0,0,SOUTH";
  }

  lemma ReportThreeThreeNorth()
    ensures Report(At(3, 3, NORTH).robot) == Some("3,3,NORTH")
  {
    assert NatToString(3) == "3";
    assert "3" + [FieldSeparator] + "3" + [FieldSeparator] + "NORTH" == "3,3,NORTH";
  }
}
