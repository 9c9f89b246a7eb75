/** `CommandProcessor`: the session that parses each line, holds back every
    command but a place until one place has succeeded, runs the command on
    the robot and routes its output.

    `Step` and `Run` specify one line and a list of lines on a `Session`
    value; the `CommandProcessor` class is proved to follow them, with the
    output writer replaced by a ghost log of what it was asked to write. */
module Processing {
  import opened Wrappers
  import opened Text
  import opened Geometry
  import opened Robots
  import opened Commands
  import opened Parsing

  /** The three methods of the output writer. */
  datatype Channel = Write | WriteWarning | WriteReport

  /** One call to the output writer. */
  datatype OutputLine = OutputLine(channel: Channel, message: string)

  const IgnoredWarning := "Command ignored: Robot must be placed on the table before executing other commands"
  const InvalidCommandPrefix := "Invalid command: "

  /** The result of a line that does not parse: the trimmed line is quoted. */
  function InvalidCommandResult(line: string): (r: CommandResult)
    ensures !r.success && r.output.None? && r.error.Some?
    ensures InvalidCommandPrefix <= r.error.value && r.error.value[|InvalidCommandPrefix|..] == Trim(line)
  {
    CommandResult(false, None, Some(InvalidCommandPrefix + Trim(line)))
  }

  /** The result of a command held back by the gate. */
  const Ignored := CommandResult(true, None, None)

  /** `canExecuteCommand`: a place always runs, anything else only once the
      gate is open. */
  predicate CanExecute(gate: bool, c: Command): (ok: bool)
    ensures c.PlaceCommand? ==> ok
    ensures !gate ==> (ok <==> c.PlaceCommand?)
  {
    gate || c.PlaceCommand?
  }

  /** The processor's state: the `hasValidPlaceCommand` gate and the robot. */
  datatype Session = Session(gate: bool, robot: RobotState)

  /** The invariant the processor keeps: an open gate means a placed robot,
      and the robot is never off the table. */
  predicate SessionValid(t: Table, ss: Session) {
    (ss.gate ==> ss.robot.Placed()) && ss.robot.OnTable(t)
  }

  /** A new processor: gate closed, robot as given. */
  function NewSession(s: RobotState): Session {
    Session(false, s)
  }

  /** `handleCommandOutput`: a non-empty output is written once, through
      `writeReport` for a report and through `write` otherwise; an empty or
      absent output writes nothing. */
  function Routed(c: Command, r: CommandResult): (out: seq<OutputLine>)
    ensures out != [] <==> Truthy(r.output)
    ensures out != [] ==> |out| == 1 && out[0].message == r.output.value
    ensures out != [] ==> (out[0].channel == WriteReport <==> c.ReportCommand?) && out[0].channel != WriteWarning
  {
    if Truthy(r.output) then [OutputLine(if c.ReportCommand? then WriteReport else Write, r.output.value)]
    else []
  }

  /** What turns a line into a command; the processor's own parser is
      `ParseCommand`, and everything proved here holds for any parser. */
  type Parser = string -> Option<Command>

  /** The effect of one `processCommand` call. */
  datatype StepResult = StepResult(result: CommandResult, session: Session, output: seq<OutputLine>)

  /** `processCommand`: an unparseable line changes nothing and quotes the
      trimmed line; a command the gate holds back changes nothing and writes
      the warning; otherwise the command runs, a successful place opens the
      gate, and the output is routed. */
  function Step(t: Table, parse: Parser, ss: Session, line: string): (r: StepResult)
    ensures |r.output| <= 1
    ensures parse(line).None? ==> r.session == ss && !r.result.success && r.output == []
    ensures ss.gate ==> r.session.gate
  {
    match parse(line)
    case None => StepResult(InvalidCommandResult(line), ss, [])
    case Some(c) =>
      if !CanExecute(ss.gate, c) then
        StepResult(Ignored, ss, [OutputLine(WriteWarning, IgnoredWarning)])
      else
        var o := CommandEffect(t, ss.robot, c);
        var gate := ss.gate || (o.result.success && c.PlaceCommand?);
        StepResult(o.result, Session(gate, o.state), Routed(c, o.result))
  }

  /** What one line does: nothing but the quoted error when it does not
      parse; nothing but the warning when the gate holds it back; otherwise
      exactly the command's effect. The gate never closes, it opens only on a
      successful place, and the session invariant is kept. */
  lemma StepSpec(t: Table, parse: Parser, ss: Session, line: string)
    ensures var r := Step(t, parse, ss, line);
      && (parse(line).None? ==> r == StepResult(InvalidCommandResult(line), ss, []))
      && (parse(line).Some? && !CanExecute(ss.gate, parse(line).value) ==>
            r == StepResult(Ignored, ss, [OutputLine(WriteWarning, IgnoredWarning)]))
      && (parse(line).Some? && CanExecute(ss.gate, parse(line).value) ==>
            CommandOutcome(r.result, r.session.robot) == CommandEffect(t, ss.robot, parse(line).value))
      && (ss.gate ==> r.session.gate)
      && (r.session.gate && !ss.gate ==>
            parse(line).Some? && parse(line).value.PlaceCommand? && r.result.success)
      && (SessionValid(t, ss) ==> SessionValid(t, r.session))
  {
  }

  /** Once the gate is open in a valid session, it stays open, no line is
      held back with a warning and no command fails for want of a placed
      robot. */
  lemma OpenGateRunsEverything(t: Table, parse: Parser, ss: Session, line: string)
    requires SessionValid(t, ss) && ss.gate
    ensures var r := Step(t, parse, ss, line);
      && r.session.gate
      && (forall i :: 0 <= i < |r.output| ==> r.output[i].channel != WriteWarning)
      && r.result.error != Some(NotPlacedError)
  {
    assert InvalidCommandPrefix[0] != NotPlacedError[0];
    assert forall x: nat, y: nat :: PlaceError(x, y)[0] != NotPlacedError[0];
  }

  /** While the gate is closed, a line other than a place changes nothing:
      it is rejected or ignored with the warning. */
  lemma ClosedGateHoldsBack(t: Table, parse: Parser, ss: Session, line: string)
    requires !ss.gate
    requires parse(line).Some? ==> !parse(line).value.PlaceCommand?
    ensures Step(t, parse, ss, line).session == ss
    ensures Step(t, parse, ss, line).result.success <==> parse(line).Some?
  {
  }

  /** Whatever goes to `writeReport` is the report of the robot as the line
      found it. */
  lemma ReportsDescribeRobot(t: Table, parse: Parser, ss: Session, line: string)
    ensures var r := Step(t, parse, ss, line);
      forall i :: 0 <= i < |r.output| && r.output[i].channel == WriteReport ==>
        ss.robot.Placed() && r.output[i].message == Report(ss.robot).value
  {
    var r := Step(t, parse, ss, line);
    if r.output != [] && r.output[0].channel == WriteReport {
      var c := parse(line).value;
      ReportCommandBehaviour(t, ss.robot);
    }
  }

  /** The effect of `processCommands`: one result per line, in order. */
  datatype RunResult = RunResult(results: seq<CommandResult>, session: Session, output: seq<OutputLine>)

  /** `processCommands`: the lines are processed one after the other, each
      on the session the previous one left. */
  function Run(t: Table, parse: Parser, ss: Session, lines: seq<string>): (r: RunResult)
    ensures |r.results| == |lines|
    decreases |lines|
  {
    if lines == [] then RunResult([], ss, [])
    else
      var before := Run(t, parse, ss, lines[..|lines| - 1]);
      var last := Step(t, parse, before.session, lines[|lines| - 1]);
      RunResult(before.results + [last.result], last.session, before.output + last.output)
  }

  /** Running a prefix of the lines gives a prefix of the results. */
  lemma {:induction false} RunPrefix(t: Table, parse: Parser, ss: Session, lines: seq<string>, k: nat)
    requires k <= |lines|
    ensures Run(t, parse, ss, lines[..k]).results == Run(t, parse, ss, lines).results[..k]
    ensures Run(t, parse, ss, lines[..k]).output <= Run(t, parse, ss, lines).output
    decreases |lines|
  {
    if k < |lines| {
      var init := lines[..|lines| - 1];
      assert init[..k] == lines[..k];
      RunPrefix(t, parse, ss, init, k);
    } else {
      assert lines[..k] == lines;
    }
  }

  /** The i-th result is what line i gives on the session the lines before
      it left. */
  lemma RunInOrder(t: Table, parse: Parser, ss: Session, lines: seq<string>, i: nat)
    requires i < |lines|
    ensures Run(t, parse, ss, lines).results[i] == Step(t, parse, Run(t, parse, ss, lines[..i]).session, lines[i]).result
  {
    var before := Run(t, parse, ss, lines[..i]);
    var longer := Run(t, parse, ss, lines[..i + 1]).results;
    RunSnoc(t, parse, ss, lines, i);
    assert longer[i] == Step(t, parse, before.session, lines[i]).result;
    RunPrefix(t, parse, ss, lines, i + 1);
    assert longer[i] == Run(t, parse, ss, lines).results[i];
  }

  /** Running one more line is one more step. */
  lemma RunSnoc(t: Table, parse: Parser, ss: Session, lines: seq<string>, i: nat)
    requires i < |lines|
    ensures var before := Run(t, parse, ss, lines[..i]);
      var last := Step(t, parse, before.session, lines[i]);
      Run(t, parse, ss, lines[..i + 1]) == RunResult(before.results + [last.result], last.session, before.output + last.output)
  {
    var prefix := lines[..i + 1];
    assert prefix[..|prefix| - 1] == lines[..i];
  }

  /** The bookkeeping of a loop that processes the lines one by one: the
      session after line k is the step from the session before it. */
  lemma RunStep(t: Table, parse: Parser, ss: Session, lines: seq<string>, k: nat, before: Session)
    requires k < |lines| && Run(t, parse, ss, lines[..k]).session == before
    ensures Run(t, parse, ss, lines[..k + 1]).results == Run(t, parse, ss, lines[..k]).results + [Step(t, parse, before, lines[k]).result]
    ensures Run(t, parse, ss, lines[..k + 1]).session == Step(t, parse, before, lines[k]).session
    ensures Run(t, parse, ss, lines[..k + 1]).output == Run(t, parse, ss, lines[..k]).output + Step(t, parse, before, lines[k]).output
  {
    RunSnoc(t, parse, ss, lines, k);
  }

  /** The lines handled so far, one more. */
  lemma HandledGrows(lines: seq<string>, k: nat)
    requires k < |lines|
    ensures lines[..k + 1] == lines[..k] + [lines[k]]
  {
  }

  /** Re-grouping the writer's log after one more line. */
  lemma LogGrows(log: seq<OutputLine>, written: seq<OutputLine>, out: seq<OutputLine>)
    ensures (log + written) + out == log + (written + out)
  {
  }

  /** Over any list of lines the gate never closes and the invariant holds. */
  lemma {:induction false} RunKeepsInvariant(t: Table, parse: Parser, ss: Session, lines: seq<string>)
    ensures ss.gate ==> Run(t, parse, ss, lines).session.gate
    ensures SessionValid(t, ss) ==> SessionValid(t, Run(t, parse, ss, lines).session)
    decreases |lines|
  {
    if lines != [] {
      RunKeepsInvariant(t, parse, ss, lines[..|lines| - 1]);
      StepSpec(t, parse, Run(t, parse, ss, lines[..|lines| - 1]).session, lines[|lines| - 1]);
    }
  }

  /** The `CommandProcessor` class over a robot object; `log` records the
      calls made to the output writer and `handled` the lines given to
      `processCommand`. */
  class CommandProcessor {
    const robot: Robot
    const parser: Parser
    var hasValidPlaceCommand: bool
    ghost var log: seq<OutputLine>
    ghost var handled: seq<string>

    /** A new processor with its gate closed. */
    constructor(robot: Robot)
      ensures this.robot == robot && parser == ParseCommand
      ensures Snapshot() == NewSession(robot.State()) && log == [] && handled == []
    {
      this.robot := robot;
      parser := ParseCommand;
      hasValidPlaceCommand := false;
      log := [];
      handled := [];
    }

    /** The gate and the robot's state as a `Session`. */
    function Snapshot(): Session
      reads this, robot
    {
      Session(hasValidPlaceCommand, robot.State())
    }

    /** The invariant the processor keeps over its robot. */
    predicate Valid()
      reads this, robot
    {
      SessionValid(robot.table, Snapshot())
    }

    /** `processCommand`. */
    method ProcessCommand(line: string) returns (res: CommandResult)
      modifies this, robot
      ensures var r := Step(robot.table, parser, old(Snapshot()), line);
        res == r.result && Snapshot() == r.session && log == old(log) + r.output
      ensures handled == old(handled) + [line]
      ensures old(Valid()) ==> Valid()
    {
      StepSpec(robot.table, parser, Snapshot(), line);
      handled := handled + [line];
      var command := parser(line);
      if command.None? {
        return InvalidCommandResult(line);
      }
      var c := command.value;
      if !CanExecute(hasValidPlaceCommand, c) {
        res := HandleUnplacedRobotCommand();
        return;
      }
      res := Execute(robot, c);
      UpdatePlacementState(c, res);
      HandleCommandOutput(c, res);
    }

    /** `handleUnplacedRobotCommand`: the warning, and a success with
        nothing else. */
    method HandleUnplacedRobotCommand() returns (res: CommandResult)
      modifies this`log
      ensures res == Ignored
      ensures log == old(log) + [OutputLine(WriteWarning, IgnoredWarning)]
    {
      log := log + [OutputLine(WriteWarning, IgnoredWarning)];
      res := Ignored;
    }

    /** `updatePlacementState`: a successful place opens the gate; nothing
        closes it. */
    method UpdatePlacementState(c: Command, res: CommandResult)
      modifies this`hasValidPlaceCommand
      ensures hasValidPlaceCommand <==> old(hasValidPlaceCommand) || (res.success && c.PlaceCommand?)
    {
      if res.success && c.PlaceCommand? {
        hasValidPlaceCommand := true;
      }
    }

    /** `handleCommandOutput`: the routed output goes to the log. */
    method HandleCommandOutput(c: Command, res: CommandResult)
      modifies this`log
      ensures log == old(log) + Routed(c, res)
    {
      if Truthy(res.output) {
        var channel := if c.ReportCommand? then WriteReport else Write;
        log := log + [OutputLine(channel, res.output.value)];
      }
    }

    /** `processCommands`: one call per line, in order. */
    method ProcessCommands(lines: seq<string>) returns (results: seq<CommandResult>)
      modifies this, robot
      ensures var r := Run(robot.table, parser, old(Snapshot()), lines);
        results == r.results && Snapshot() == r.session && log == old(log) + r.output
      ensures handled == old(handled) + lines
    {
      ghost var t, parse, start := robot.table, parser, Snapshot();
      ghost var written: seq<OutputLine> := [];
      results := [];
      var i := 0;
      while i < |lines|
        invariant 0 <= i <= |lines|
        invariant log == old(log) + written
        invariant handled == old(handled) + lines[..i]
        invariant Run(t, parse, start, lines[..i]).results == results
        invariant Run(t, parse, start, lines[..i]).session == Snapshot()
        invariant Run(t, parse, start, lines[..i]).output == written
      {
        ghost var before := Snapshot();
        var res := ProcessCommand(lines[i]);
        ghost var out := Step(t, parse, before, lines[i]).output;
        RunStep(t, parse, start, lines, i, before);
        LogGrows(old(log), written, out);
        HandledGrows(lines, i);
        results := results + [res];
        written := written + out;
        i := i + 1;
      }
      assert lines[..i] == lines;
    }

    /** `reset`: closes the gate and leaves the robot alone. */
    method Reset()
      modifies this`hasValidPlaceCommand
      ensures !hasValidPlaceCommand
      ensures robot.State() == old(robot.State())
    {
      hasValidPlaceCommand := false;
    }
  }
}
