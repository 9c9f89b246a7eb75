# Toy robot simulator — a Dafny model

This project models the core of a TypeScript toy-robot simulator. A robot sits on a rectangular table (5 by 5 in the application). Text commands drive it: `PLACE x,y,F`, `MOVE`, `LEFT`, `RIGHT` and `REPORT`. The model covers these parts of the simulator:

- **Value layer.** Compass directions and their left and right rotations, and the one-step movement calculator. The table-bounds validators. The numeric guards that the `Position` and `Table` constructors run. Validation and parsing of direction strings. The message of `InvalidArgumentError`.
- **Robot.** The mutable `Robot` with its two nullable fields. The four robot actions, each of which mutates the robot only after its check. The reporter that renders `x,y,F`.
- **Commands.** `BaseCommand.execute`, the wrapper every command shares: it gates on placement and shapes the result. The five command classes.
- **Parsing.** `CommandParser.parseCommand` (trim, upper-case, keyword dispatch) and `PlaceCommandParser.parse`, which matches `^PLACE\s+(\d+),(\d+),([A-Z]+)$`.
- **Session.** The `CommandProcessor` session. It holds a gate, `hasValidPlaceCommand`, that only a successful place opens. While the gate is closed it ignores every other command with a warning. It routes each command's output to the writer.
- **Line buffer.** `FileInputReader`'s list of trimmed, non-blank lines with a cursor.
- **File mode.** The application's loop that hands every line of a file to the processor.

## How the model is built

The model keeps the source's own form:

- **Pure code becomes functions.** The rotation tables, the calculator, the validators, the parsers and the reporter are functions on datatypes. A guard that throws returns an `Outcome` or a `Result` that carries the `InvalidArgumentError`.
- **`Robot` is a class.** It has a fixed `table` and mutable `position` and `direction` fields.
- **Each action is a method proved against a function.** The action methods mutate the robot, and each is proved to produce exactly the state its effect function (`PlaceEffect`, `MoveEffect`, …) describes. The command methods work the same way, against `CommandEffect`.
- **`CommandProcessor` and `FileInputReader` are classes.** Their methods change the gate and the cursor in place.
- **The processor is proved against `Step` and `Run`.** These functions describe what one line, and a list of lines, do to a `Session` value: the gate together with the robot's state. The processor's methods are proved to follow them.
- **The output writer becomes a ghost log.** It is a log of `(channel, message)` pairs: `write`, `writeWarning` or `writeReport`.

`Step` and `Run` are stated for any parser, a function from a line to an optional command. The processor uses `ParseCommand`.

The file `Scenarios` plays the sessions of the integration tests on the 5 by 5 table. Each session is stated for any lines the parser reads as the listed commands. `ProcessorReadsScripts` shows that `ParseCommand` reads the canonical text of any list of commands in exactly that way.

Three behaviours of the parser and the processor are worth stating outright:

- **A non-place command before the first place is ignored.** This includes `REPORT`. The processor writes the warning through `writeWarning` and returns a success with no output (src/application/CommandProcessor.ts:26-28 and 49-56; `Processing.ClosedGateHoldsBack`, `Scenarios.NothingBeforePlace`).
- **A line that does not parse fails.** The result is a failure whose error is "Invalid command: " followed by the trimmed line (src/application/CommandProcessor.ts:22-24 and 38-43; `Processing.InvalidCommandResult`).
- **A place line needs a space after `PLACE`.** The place pattern accepts any white space there, but `parseCommand` hands a line to the place parser only when it starts with `PLACE ` (src/application/CommandParser.ts:18-20). A tab right after the keyword therefore makes the line invalid (`Parsing.PlaceLineNeedsSpace`).

`src/domain/Direction.ts` is not part of this model. Its four values are the enum `Directions.Direction`, as fixed by its unit test.

## Model

| member | source | states |
|---|---|---|
| Directions.NameInjective | tests/unit/domain/Direction.test.ts:5-14 | the four enum values have four distinct string values |
| DirectionOperations.RotateRight | src/domain/direction/operations/RotateRightOperation.ts:5-16 | a right turn adds one clockwise quarter turn to the heading and never returns its input |
| DirectionOperations.RotateLeft | src/domain/direction/operations/RotateLeftOperation.ts:5-16 | a left turn adds three clockwise quarter turns to the heading and never returns its input |
| DirectionOperations.RotationsAreInverse | src/domain/direction/operations/RotateLeftOperation.ts:6-15 | right then left, and left then right, give back the starting direction |
| DirectionOperations.RotationsFormFourCycle | src/domain/direction/operations/RotateRightOperation.ts:6-15 | four turns the same way restore the direction; two or three right turns do not; two lefts equal two rights |
| Movement.NextCoordinates | src/domain/direction/MovementCalculator.ts:5-21 | exactly one coordinate changes, by exactly one; y grows only for NORTH and shrinks only for SOUTH; x grows only for EAST and shrinks only for WEST; the switch covers the whole enum, so the unknown-direction throw is unreachable |
| Movement.StepBack | src/domain/direction/MovementCalculator.ts:10-17 | a step followed by a step the opposite way returns to the starting cell |
| Movement.LeavesGridUnchecked | src/domain/direction/MovementCalculator.ts:12-17 | the calculator does no bounds check: south from row 0 gives row -1, west from column 0 gives column -1 |
| TableBounds.IsValidCoordinates | src/domain/validation/table/TableBoundsCoordinateValidator.ts:12-14 | the cell lies in columns 0 to width-1 and rows 0 to height-1; `Edges` pins down the boundary |
| TableBounds.IsValidPosition | src/domain/validation/table/TableBoundsPositionValidator.ts:13-20 | the same test on a position; `PositionAgreesWithCoordinates` ties the two |
| TableBounds.PositionAgreesWithCoordinates | src/domain/validation/table/TableBoundsPositionValidator.ts:13-20 | the position validator agrees with the coordinate validator on every position |
| TableBounds.Edges | src/domain/validation/table/TableBoundsCoordinateValidator.ts:12-14 | the corners (0,0) and (w-1,h-1) are valid; x = width, y = height and negative coordinates are not |
| TableBounds.NonSquareTable | tests/unit/domain/validation/table/TableBoundsCoordinateValidator.test.ts:73-80 | on a 2 by 3 table both validators accept (1,2) and reject (2,2) and (1,3) |
| NumericValidation.ValidateNonNegative | src/domain/validation/numeric/NonNegativeValidator.ts:8-12 | throws exactly for negative values; the error names the field and the value and lists "non-negative values" |
| NumericValidation.ValidatePositive | src/domain/validation/numeric/PositiveValidator.ts:8-12 | throws exactly for zero and negative values; the error lists "positive values" |
| NumericValidation.ValidateCoordinate | src/domain/validation/numeric/CoordinateValidator.ts:14-17 | passes exactly for non-negative values; with the integer check vacuous on integers, the non-negative check's outcome is passed on unchanged under the same name |
| NumericValidation.ValidateDimension | src/domain/validation/numeric/DimensionValidator.ts:14-17 | passes exactly for positive values; the positive check's outcome is passed on unchanged under the same name |
| NumericValidation.ZeroBoundary | tests/unit/domain/validation/numeric/PositiveValidator.test.ts:22-25 | zero is a valid coordinate but an invalid dimension, with the exact error |
| Geometry.NewPosition | src/domain/Position.ts:13-16 | construction succeeds exactly when both coordinates are non-negative and then stores them; otherwise it fails with the x guard's error when x is bad, or else with the y guard's error |
| Geometry.NewTable | src/domain/Table.ts:13-16 | construction succeeds exactly when both sides are positive and then stores them; the width is checked before the height |
| Geometry.XCheckedFirst | src/domain/Position.ts:14-15 | when both coordinates are negative the error names the x coordinate |
| Geometry.WidthCheckedFirst | src/domain/Table.ts:14-15 | when both sides are bad the error names the table width |
| Geometry.ApplicationTable | src/app.ts:15 | the application's 5 by 5 table is constructed successfully |
| DirectionValidation.ValidateDirectionString | src/domain/validation/direction/DirectionStringValidator.ts:16-24 | passes exactly when `isValidDirectionString` holds; otherwise the error lists the valid directions |
| DirectionValidation.IsValidDirectionString | src/domain/validation/direction/DirectionStringValidator.ts:26-28 | membership in the set of the four names; `ValidIffName` and `RejectedStrings` state what that admits |
| DirectionValidation.ValidIffName | src/domain/validation/direction/DirectionStringValidator.ts:12-14 | a string is valid exactly when it is the name of one of the four directions |
| DirectionValidation.ValidDirectionsInOrder | src/domain/validation/direction/DirectionStringValidator.ts:13 | the valid set is NORTH, SOUTH, EAST, WEST, in the enum's order |
| DirectionValidation.RejectedStrings | src/domain/validation/direction/DirectionStringValidator.ts:26-28 | the check is case-sensitive: "north", "" and "UP" are invalid |
| DirectionParsing.DirectionNamed | src/domain/direction/DirectionParser.ts:13 | the direction returned for a valid string is the one whose name is that string |
| DirectionParsing.FromString | src/domain/direction/DirectionParser.ts:7-14 | succeeds exactly when the upper-cased input is a direction name, and returns that direction; otherwise fails with the validator's error for the upper-cased input |
| DirectionParsing.FromStringName | src/domain/direction/DirectionParser.ts:8-13 | every canonical direction name parses to that direction |
| DirectionParsing.FromStringIgnoresCase | src/domain/direction/DirectionParser.ts:8 | upper-casing the input first changes nothing |
| DirectionParsing.MixedCaseNorth | tests/unit/domain/direction/DirectionParser.test.ts:26-30 | "north", "NoRtH" and "NORTH" all give NORTH |
| DirectionParsing.UnknownWord | src/domain/direction/DirectionParser.ts:9-12 | an unknown word fails with the error for its upper-cased form, listing the four names |
| Errors.InvalidArgumentError.Name | src/types/errors/ErrorNames.ts:2 | every such error is named "InvalidArgumentError" |
| Errors.InvalidArgumentError.Message | src/types/errors/InvalidArgumentError.ts:5-13 | the message starts with "Invalid <name>: <value>"; the joined valid values are appended exactly when a non-empty list was given |
| Errors.DirectionErrorMessage | tests/unit/types/index.test.ts:102-112 | the direction example gives "Invalid direction: INVALID. Valid values are: NORTH, SOUTH, EAST, WEST" |
| Errors.PlainErrorMessage | src/types/errors/InvalidArgumentError.ts:6-10 | without valid values the message is the head alone |
| Robots.PlaceEffect | src/domain/robot/actions/PlaceAction.ts:13-21 | placing succeeds exactly for a cell on the table and then sets both fields; the robot is then placed and on the table; a failed place leaves the robot unchanged; the robot need not be placed beforehand |
| Robots.MoveEffect | src/domain/robot/actions/MoveAction.ts:8-27 | an unplaced robot is unchanged; a move succeeds exactly when the cell ahead is on the table and then moves there; a failed move changes nothing; the direction never changes; a successful move stays on the table |
| Robots.RotateLeftEffect | src/domain/robot/actions/RotateLeftAction.ts:6-14 | succeeds exactly when placed and then turns left; the position never changes; failure changes nothing |
| Robots.RotateRightEffect | src/domain/robot/actions/RotateRightAction.ts:6-14 | succeeds exactly when placed and then turns right; the position never changes; failure changes nothing |
| Robots.ActionEffect | src/domain/robot/actions/PlaceAction.ts:18-20 | no action unplaces the robot or moves it off the table, and any success leaves it placed |
| Robots.PlaceReplaces | tests/integration/RobotMovement.integration.test.ts:82-89 | a later successful place wholly replaces an earlier one |
| Robots.FourTurnsRestore | tests/integration/RobotMovement.integration.test.ts:131-155 | four left or four right turns restore the robot |
| Robots.TurnsUndoEachOther | tests/integration/RobotMovement.integration.test.ts:157-167 | a left turn undoes a right turn and the other way round |
| Robots.MoveWalksBack | src/domain/robot/actions/MoveAction.ts:12-26 | after a successful move, turning round, moving and turning round again restores the robot |
| Robots.Report | src/domain/robot/RobotReporter.ts:4-9 | the report is null exactly for an unplaced robot, and never empty otherwise |
| Robots.ReportFields | src/domain/robot/RobotReporter.ts:8 | a report splits on commas into exactly three fields, which read back as the robot's x, y and direction; neither number has a leading zero |
| Robots.ReportExample | tests/unit/domain/robot/RobotReporter.test.ts:30-40 | a robot at 2,3 facing NORTH reports "2,3,NORTH" |
| Robots.Robot.constructor | src/domain/Robot.ts:10 | a new robot has the given table and both fields null, so it is not placed |
| Robots.Robot.IsPlaced | src/domain/Robot.ts:20-22 | placed exactly when both fields are set |
| Robots.Robot.SetPosition | src/domain/Robot.ts:24-26 | replaces the position and leaves the direction alone |
| Robots.Robot.SetDirection | src/domain/Robot.ts:28-30 | replaces the direction and leaves the position alone |
| Robots.Robot.ExecuteAction | src/domain/Robot.ts:32-34 | returns exactly the action's result, and the robot ends in the action's state |
| Robots.ExecutePlace | src/domain/robot/actions/PlaceAction.ts:13-21 | mutates the robot exactly as `PlaceEffect` says |
| Robots.ExecuteMove | src/domain/robot/actions/MoveAction.ts:8-27 | mutates the robot exactly as `MoveEffect` says |
| Robots.ExecuteRotateLeft | src/domain/robot/actions/RotateLeftAction.ts:6-14 | mutates the robot exactly as `RotateLeftEffect` says |
| Robots.ExecuteRotateRight | src/domain/robot/actions/RotateRightAction.ts:6-14 | mutates the robot exactly as `RotateRightEffect` says |
| Commands.Shape | src/application/commands/BaseCommand.ts:25-35 | success is kept; on success only a non-empty output is carried; on failure only the error message is carried; an error is present exactly on failure |
| Commands.Executor | src/application/commands/ReportCommand.ts:17-23 | only a report can carry output, and a report leaves the robot unchanged |
| Commands.CommandEffect | src/application/commands/BaseCommand.ts:10-36 | the gate returns "Robot is not placed on the table" without running the executor; success holds exactly when there is no error; a result never has both output and error; only a report has output; no command unplaces the robot or moves it off the table |
| Commands.PlaceCommandBehaviour | src/application/commands/PlaceCommand.ts:16-29 | runs on an unplaced robot; succeeds exactly when the cell is on the table, and then places the robot there; otherwise fails with "Cannot place robot at position x,y - position is invalid" and leaves the robot; no output |
| Commands.MoveCommandBehaviour | src/application/commands/MoveCommand.ts:8-16 | needs a placed robot; succeeds exactly when the cell ahead is on the table; fails with "Cannot move robot - would fall off the table"; no output |
| Commands.TurnCommandsBehaviour | src/application/commands/LeftCommand.ts:8-16 | LEFT and RIGHT need a placed robot, then always succeed without output and turn it |
| Commands.ReportCommandBehaviour | src/application/commands/ReportCommand.ts:14-26 | needs a placed robot, then succeeds with the report as output; never changes the robot; its invalid-state error cannot occur |
| Commands.Execute | src/application/commands/BaseCommand.ts:10-36 | runs a command on a robot object exactly as `CommandEffect` says |
| Commands.RunExecutor | src/application/commands/RightCommand.ts:8-16 | runs each command's executor callback on a robot object exactly as `Executor` says |
| Parsing.ParsePlace | src/application/parsers/PlaceCommandParser.ts:5-23 | a successful parse is a place command |
| Parsing.ParsePlaceComplete | src/application/parsers/PlaceCommandParser.ts:6-19 | every text the pattern matches parses: to the place command its digits and word spell when the word is a direction, and to null otherwise |
| Parsing.ParsePlaceSound | src/application/parsers/PlaceCommandParser.ts:6-19 | whatever parses matches the pattern, with a valid direction word, and is the command its parts spell |
| Parsing.ParsePlaceFields | tests/unit/application/parsers/PlaceCommandParser.test.ts:36-58 | an argument list parses exactly when it has three fields: two digit strings and a direction word; white space inside the list, a missing or extra field, a letter in a number or an unknown word all give null |
| Parsing.ParseNormalized | src/application/CommandParser.ts:14-33 | an empty line gives null; text that starts with "PLACE " gives exactly what the place parser gives; each of the four keywords gives its command; and no command comes from any other text |
| Parsing.ParseCommand | src/application/CommandParser.ts:11-34 | trims and upper-cases the line, then dispatches as `ParseNormalized` says; its properties are the lemmas below |
| Parsing.ParseCommandShape | src/application/CommandParser.ts:11-34 | the same dispatch in both directions, stated for the raw line once trimmed and upper-cased; a blank line gives null |
| Parsing.PlaceLineParses | src/application/CommandParser.ts:12-20 | every line that reads as the place pattern once trimmed and upper-cased, with a space after `PLACE`, parses to the command its digits and word spell, or to null for an unknown word; case, extra spaces and leading zeros do not matter |
| Parsing.PlaceLineNeedsSpace | src/application/CommandParser.ts:18-20 | a place line whose first white space after `PLACE` is not a space gives null, although the place pattern would match it |
| Parsing.IsValidCommand | src/application/CommandParser.ts:36-38 | true exactly when `parseCommand` gives a command |
| Parsing.ParseFormat | src/application/CommandParser.ts:11-34 | every command's canonical text parses back to that command |
| Parsing.ParseIgnoresCase | src/application/CommandParser.ts:12 | commands are case-insensitive: upper-casing the line first changes nothing |
| Parsing.ReportReplaysAsPlace | src/domain/robot/RobotReporter.ts:8 | "PLACE " followed by a robot's report parses to the place command for that robot's state |
| Parsing.BareKeywordRejected | tests/integration/CommandValidation.integration.test.ts:118-128 | "PLACE" alone gives null |
| Parsing.NotACommand | src/application/CommandParser.ts:18-33 | text without the prefix "PLACE " that is none of the four keywords gives null |
| Parsing.UnknownKeywordRejected | src/application/CommandParser.ts:31-32 | an unknown word gives null |
| Processing.InvalidCommandResult | src/application/CommandProcessor.ts:38-43 | a failure with no output whose error is "Invalid command: " followed by the trimmed line |
| Processing.CanExecute | src/application/CommandProcessor.ts:45-47 | a place can always run; with the gate closed nothing else can |
| Processing.Step | src/application/CommandProcessor.ts:19-36 | one line writes at most one message; an unparseable line fails, writes nothing and changes nothing; an open gate stays open |
| Processing.Routed | src/application/CommandProcessor.ts:67-75 | a non-empty output is written once, through `writeReport` exactly for a report and never as a warning; no output writes nothing |
| Processing.StepSpec | src/application/CommandProcessor.ts:19-65 | an unparseable line changes nothing and fails with "Invalid command: " and the trimmed line; a command the gate holds back changes nothing, writes the warning and succeeds; otherwise the command's exact effect; the gate never closes and opens only on a successful place; gate ⇒ placed and robot on the table are kept |
| Processing.OpenGateRunsEverything | src/application/CommandProcessor.ts:45-47 | once the gate is open, nothing is held back and no command fails for want of placement |
| Processing.ClosedGateHoldsBack | src/application/CommandProcessor.ts:26-28 | with the gate closed, a line that is not a place changes nothing, and succeeds exactly when it parses |
| Processing.ReportsDescribeRobot | src/application/CommandProcessor.ts:67-72 | whatever goes to `writeReport` is the report of the robot as the line found it |
| Processing.Run | src/application/CommandProcessor.ts:77-79 | one result per line |
| Processing.RunPrefix | src/application/CommandProcessor.ts:77-79 | processing a prefix of the lines gives a prefix of the results and of the output |
| Processing.RunInOrder | src/application/CommandProcessor.ts:77-79 | the i-th result is what line i gives on the session the earlier lines left |
| Processing.RunSnoc | src/application/CommandProcessor.ts:78 | one more line is one more step |
| Processing.RunStep | src/application/CommandProcessor.ts:78 | one more line adds its step's result, session and output |
| Processing.RunKeepsInvariant | src/application/CommandProcessor.ts:58-65 | over any list of lines the gate never closes and the session invariant holds |
| Processing.CommandProcessor.constructor | src/application/CommandProcessor.ts:12-17 | a new processor has its gate closed, the given robot and `parseCommand` as its parser, and has written nothing |
| Processing.CommandProcessor.ProcessCommand | src/application/CommandProcessor.ts:19-36 | the result, the new gate and robot, and what is written are exactly those of `Step`; the invariant is kept |
| Processing.CommandProcessor.HandleUnplacedRobotCommand | src/application/CommandProcessor.ts:49-56 | writes the warning and returns a bare success |
| Processing.CommandProcessor.UpdatePlacementState | src/application/CommandProcessor.ts:58-65 | the gate is open afterwards exactly when it was open before or the command is a successful place |
| Processing.CommandProcessor.HandleCommandOutput | src/application/CommandProcessor.ts:67-75 | appends exactly `Routed` to the writer's log |
| Processing.CommandProcessor.ProcessCommands | src/application/CommandProcessor.ts:77-79 | handles every line once, in order; results, final state and output are exactly those of `Run` |
| Processing.CommandProcessor.Reset | src/application/CommandProcessor.ts:81-83 | closes the gate and leaves the robot untouched |
| FileInput.TrimEach | src/infrastructure/FileInputReader.ts:19 | every line trimmed, one for one |
| FileInput.DropEmpty | src/infrastructure/FileInputReader.ts:20 | keeps every non-empty line and nothing else; `DropEmptyAppend` and `DropEmptyOne` fix the order |
| FileInput.DropEmptyAppend | src/infrastructure/FileInputReader.ts:20 | filtering a concatenation is concatenating the filtered parts |
| FileInput.DropEmptyOne | src/infrastructure/FileInputReader.ts:20 | a single line is kept exactly when it is non-empty |
| FileInput.TrimEachAppend | src/infrastructure/FileInputReader.ts:19 | trimming a concatenation is concatenating the trimmed parts |
| FileInput.PrepareLines | src/infrastructure/FileInputReader.ts:17-20 | split on line breaks, trim each piece and drop the empty ones; its properties are the lemmas below |
| FileInput.PreparedLinesAreClean | src/infrastructure/FileInputReader.ts:17-20 | every prepared line is non-empty, trimmed and contains no line break |
| FileInput.PrepareJoinedLines | src/infrastructure/FileInputReader.ts:17-20 | any lines without line breaks, joined by line breaks, prepare to the trimmed lines with the empty ones dropped, in order |
| FileInput.PrepareTrimmedLines | src/infrastructure/FileInputReader.ts:17-20 | lines that are already trimmed, blank or not, prepare to the non-blank ones in order |
| FileInput.PrepareCleanLines | src/infrastructure/FileInputReader.ts:17-20 | non-empty trimmed lines joined by line breaks prepare back to themselves |
| FileInput.BlankLinesSkipped | tests/unit/infrastructure/FileInputReader.test.ts:70-80 | two lines with two blank lines between them and a final line break prepare to just the two lines |
| FileInput.FileInputReader.constructor | src/infrastructure/FileInputReader.ts:9-21 | the lines are the prepared contents and the cursor starts at 0 |
| FileInput.FileInputReader.ReadLine | src/infrastructure/FileInputReader.ts:31-36 | returns the line under the cursor and advances by one, or returns null and stays put once exhausted; the cursor stays in range |
| FileInput.FileInputReader.HasMoreInput | src/infrastructure/FileInputReader.ts:38-40 | true exactly when the cursor is before the end |
| FileInput.FileInputReader.Reset | src/infrastructure/FileInputReader.ts:42-44 | the cursor returns to 0 |
| FileInput.FileInputReader.GetAllLines | src/infrastructure/FileInputReader.ts:46-50 | returns the lines from the cursor on and moves the cursor to the end |
| FileInput.FileInputReader.GetTotalLines | src/infrastructure/FileInputReader.ts:52-54 | the number of prepared lines |
| FileInput.FileInputReader.GetCurrentLineNumber | src/infrastructure/FileInputReader.ts:56-58 | the cursor |
| Application.ProcessFile | src/app.ts:51-55 | every remaining line goes to `processCommand` once, in order; the reader ends exhausted; the processor ends in the state `Run` gives, having written `Run`'s output |
| Text.Upper | src/application/CommandParser.ts:12 | `toUpperCase`, one character at a time; `UpperIdempotent` and `TrimUpperCommute` state its properties |
| Text.Split | src/infrastructure/FileInputReader.ts:18 | at least one piece, none containing the separator; `JoinSplit` makes it the inverse of `Join` |
| Text.Join | src/types/errors/InvalidArgumentError.ts:9 | the pieces with the separator between them; `SplitJoin` makes it the inverse of `Split` |
| Text.ParseDecimal | src/application/parsers/PlaceCommandParser.ts:15-16 | `parseInt(s, 10)` on a digit string; `ParseNatToString` makes it the inverse of `NatToString` |
| Text.NatToString | src/domain/robot/RobotReporter.ts:8 | at least one digit, and a leading zero only for the number zero itself |
| Text.Trim | src/application/CommandParser.ts:12 | the result of `trim` has no white space at either end and is no longer than the input |
| Text.TrimDecompose | src/infrastructure/FileInputReader.ts:19 | a string is white space, its trimmed form, then white space |
| Text.TrimIdempotent | src/infrastructure/FileInputReader.ts:19 | trimming twice is trimming once |
| Text.UpperIdempotent | src/domain/direction/DirectionParser.ts:8 | upper-casing twice is upper-casing once |
| Text.TrimUpperCommute | src/application/CommandParser.ts:12 | trimming and upper-casing commute |
| Text.JoinSplit | src/infrastructure/FileInputReader.ts:18 | joining the pieces of a split gives back the string |
| Text.SplitJoin | src/infrastructure/FileInputReader.ts:18 | splitting pieces without the separator, joined by it, gives back the pieces |
| Text.ParseNatToString | src/application/parsers/PlaceCommandParser.ts:15-16 | the decimal text of a number reads back as that number |
| Scenarios.ProcessorReadsScripts | src/application/CommandParser.ts:11-34 | `parseCommand` reads the canonical line of each command as that command |
| Scenarios.WalkAndReport | tests/integration/ExampleFiles.integration.test.ts:109-121 | PLACE 1,2,EAST, MOVE, MOVE, LEFT, MOVE, REPORT writes only the report "3,3,NORTH", every line succeeds, and the robot ends at 3,3 facing NORTH |
| Scenarios.EdgeHolds | tests/integration/CommandValidation.integration.test.ts:86-92 | PLACE 0,0,SOUTH, MOVE, REPORT: the move fails with the fall-off error, the robot stays put and the report is "0,0,SOUTH" |
| Scenarios.NothingBeforePlace | tests/integration/CommandValidation.integration.test.ts:73-78 | MOVE, LEFT, REPORT with no place: each is ignored with the warning, nothing else is written and the session is unchanged |
| Scenarios.TwoArgumentPlace | tests/unit/application/parsers/PlaceCommandParser.test.ts:36-40 | "PLACE 1,2" does not parse |
| Scenarios.LetteredPlace | tests/unit/application/parsers/PlaceCommandParser.test.ts:48-52 | "PLACE A,B,NORTH" does not parse |

## Left out

- `IntegerValidator` is left out. Its `Number.isInteger` check is about floating-point values (NaN, Infinity, 1.5). On Dafny's `int` it always passes, so the composite validators run only the sign check.
- The file system is left out: `path.resolve`, `fs.readFileSync` and the error wrapping of a failed read. The reader's constructor takes the file's contents as a string.
- The console reader, the console writer's colours and the interactive mode are left out. So are the application's echo of each line and its info, success and error printing around the processor. The output writer is a ghost log of the calls the processor makes to it.
- The application wiring is left out: argument handling, signal handlers, exit codes, `main`, the factories, the barrel files and the `instanceof` dispatch. The dispatch is a match on the `Command` datatype.
- Upper-casing maps ASCII letters and the ten other characters whose upper case is pure ASCII (`ß`, dotless i, long s and the Latin ligatures). Every other character is kept as it is. This is not the full Unicode case mapping of `toUpperCase`.
- `parseInt` is exact on digit strings of any length. JavaScript loses precision on long ones, and a digit field of more than about 309 digits reads as `Infinity`. `new Position(Infinity, …)` (src/application/commands/PlaceCommand.ts:17) then fails the integer check (src/domain/validation/numeric/IntegerValidator.ts:9). Nothing in `processCommand` catches that throw, so in file mode the application reports the failure and exits with code 1 (src/app.ts:59-64). In the model such a place is simply off the table and fails like any other.
- Numbers print in plain decimal. JavaScript's exponent form for values of 10^21 and above is not modelled.
- Commands.PlaceCommandBehaviour: the place command's coordinates are `nat`, so `new Position(x, y)` never throws here. The parser only produces non-negative coordinates, so the sign check cannot fail from a parsed line; the integer check on `Infinity`, described above, is not modelled.
- Errors.InvalidArgumentError.Message: the offending value is taken as its printed string. JavaScript's `String(value)` conversion of arbitrary values and the stack trace captured by the base error are not modelled.
- Robot aliasing is left out. The processor holds its robot, and nothing else is assumed to mutate that robot between calls.
- Scenarios.WalkAndReport, Scenarios.EdgeHolds and Scenarios.NothingBeforePlace are stated for any parser that reads the lines as the listed commands. `Scenarios.ProcessorReadsScripts` connects them to the processor's own parser, for the canonical text of the commands. They are not stated for the literal test strings.
