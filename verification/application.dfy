/** The file mode of the application: read lines until there are none and
    hand each to the processor. The console echo and error printing around
    it are outside the model. */
module Application {
  import opened Wrappers
  import opened Processing
  import opened FileInput

  /** The loop of `runFromFile`: every line the reader has left goes, in
      order and once, to `processCommand`, and the reader ends exhausted. */
  method ProcessFile(processor: CommandProcessor, reader: FileInputReader)
    requires reader.Valid()
    modifies processor, processor.robot, reader`currentIndex
    ensures reader.currentIndex == |reader.lines|
    ensures processor.handled == old(processor.handled) + reader.lines[old(reader.currentIndex)..]
    ensures var r := Run(processor.robot.table, processor.parser, old(processor.Snapshot()), reader.lines[old(reader.currentIndex)..]);
      processor.Snapshot() == r.session && processor.log == old(processor.log) + r.output
  {
    ghost var t, parse, start := processor.robot.table, processor.parser, processor.Snapshot();
    ghost var written: seq<OutputLine> := [];
    ghost var pending := reader.lines[reader.currentIndex..];
    ghost var k: nat := 0;
    var command := reader.ReadLine();
    while command.Some?
      invariant reader.Valid() && k <= |pending|
      invariant reader.currentIndex == |reader.lines| - |pending| + k + (if command.Some? then 1 else 0)
      invariant command.Some? ==> k < |pending| && command.value == pending[k]
      invariant command.None? ==> k == |pending|
      invariant processor.handled == old(processor.handled) + pending[..k]
      invariant processor.log == old(processor.log) + written
      invariant Run(t, parse, start, pending[..k]).session == processor.Snapshot()
      invariant Run(t, parse, start, pending[..k]).output == written
      decreases |pending| - k
    {
      ghost var before := processor.Snapshot();
      var _ := processor.ProcessCommand(command.value);
      ghost var out := Step(t, parse, before, pending[k]).output;
      RunStep(t, parse, start, pending, k, before);
      LogGrows(old(processor.log), written, out);
      HandledGrows(pending, k);
      written := written + out;
      k := k + 1;
      command := reader.ReadLine();
    }
    assert pending[..k] == pending;
  }
}
