/** `FileInputReader`: the file's lines, trimmed and without blank ones,
    read one at a time through a cursor. The file is given by its contents;
    resolving the path and reading the file are outside the model. */
module FileInput {
  import opened Wrappers
  import opened Text

  /** The separator `loadFile` splits the contents on. */
  const LineBreak := '\n'

  /** The `map` step of `loadFile`: every line trimmed. */
  function TrimEach(raw: seq<string>): (r: seq<string>)
    ensures |r| == |raw|
    ensures forall i :: 0 <= i < |r| ==> r[i] == Trim(raw[i])
  {
    if raw == [] then [] else [Trim(raw[0])] + TrimEach(raw[1..])
  }

  /** The `filter` step of `loadFile`: the non-empty lines, in order. Every
      line it keeps is a non-empty input line, and every non-empty input line
      is kept; `DropEmptyAppend` and `DropEmptyOne` pin down the order. */
  function DropEmpty(lines: seq<string>): (r: seq<string>)
    ensures |r| <= |lines|
    ensures forall i :: 0 <= i < |r| ==> r[i] != [] && r[i] in lines
    ensures forall i :: 0 <= i < |lines| && lines[i] != [] ==> lines[i] in r
  {
    if lines == [] then []
    else if lines[0] == [] then DropEmpty(lines[1..])
    else [lines[0]] + DropEmpty(lines[1..])
  }

  /** `loadFile` on the contents of a file. */
  function PrepareLines(content: string): seq<string> {
    DropEmpty(TrimEach(Split(content, LineBreak)))
  }

  /** Every prepared line is a non-empty, trimmed piece of one line of the
      file. */
  lemma {:induction false} PreparedLinesAreClean(content: string)
    ensures forall i :: 0 <= i < |PrepareLines(content)| ==>
      var line := PrepareLines(content)[i];
      line != [] && Trimmed(line) && LineBreak !in line
  {
    var raw := Split(content, LineBreak);
    forall i | 0 <= i < |PrepareLines(content)|
      ensures var line := PrepareLines(content)[i];
        line != [] && Trimmed(line) && LineBreak !in line
    {
      var line := PrepareLines(content)[i];
      var j :| 0 <= j < |raw| && TrimEach(raw)[j] == line;
      var pre, suf := TrimDecompose(raw[j]);
      assert raw[j] == pre + (line + suf);
      assert LineBreak !in raw[j];
    }
  }

  /** The filter works line by line: filtering a concatenation filters each
      part. */
  lemma {:induction false} DropEmptyAppend(a: seq<string>, b: seq<string>)
    ensures DropEmpty(a + b) == DropEmpty(a) + DropEmpty(b)
  {
    if a == [] {
      assert a + b == b;
    } else {
      assert (a + b)[1..] == a[1..] + b;
      DropEmptyAppend(a[1..], b);
    }
  }

  /** A single line is dropped exactly when it is empty. */
  lemma DropEmptyOne(line: string)
    ensures DropEmpty([line]) == if line == [] then [] else [line]
  {
    assert [line][1..] == [];
  }

  /** The map works line by line too. */
  lemma {:induction false} TrimEachAppend(a: seq<string>, b: seq<string>)
    ensures TrimEach(a + b) == TrimEach(a) + TrimEach(b)
  {
    if a == [] {
      assert a + b == b;
    } else {
      assert (a + b)[1..] == a[1..] + b;
      TrimEachAppend(a[1..], b);
    }
  }

  /** The contents of a file are its lines joined by line breaks; preparing
      them trims every line and then drops the blank ones, keeping the rest in
      order. */
  lemma PrepareJoinedLines(lines: seq<string>)
    requires forall i :: 0 <= i < |lines| ==> LineBreak !in lines[i]
    ensures PrepareLines(Join(lines, [LineBreak])) == DropEmpty(TrimEach(lines))
  {
    if lines == [] {
      assert Split(Join(lines, [LineBreak]), LineBreak) == [""];
      assert Trim("") == "";
    } else {
      SplitJoin(lines, LineBreak);
    }
  }

  /** A file whose lines are already trimmed and non-blank prepares to
      exactly those lines. */
  lemma PrepareCleanLines(lines: seq<string>)
    requires forall i :: 0 <= i < |lines| ==> lines[i] != [] && Trimmed(lines[i]) && LineBreak !in lines[i]
    ensures PrepareLines(Join(lines, [LineBreak])) == lines
  {
    PrepareJoinedLines(lines);
    TrimEachOfTrimmed(lines);
    DropEmptyOfNonEmpty(lines);
  }

  /** Blank lines in the middle and a final line break leave no trace. */
  lemma BlankLinesSkipped(a: string, b: string)
    requires a != [] && Trimmed(a) && LineBreak !in a
    requires b != [] && Trimmed(b) && LineBreak !in b
    ensures PrepareLines(a + [LineBreak, LineBreak, LineBreak] + b + [LineBreak]) == [a, b]
  {
    JoinWithBlanks(a, b);
    PrepareTrimmedLines([a, "", "", b, ""]);
    DropBlanks(a, b);
  }

  /** Lines that are already trimmed, blank or not, prepare to the
      non-blank ones in order. */
  lemma PrepareTrimmedLines(lines: seq<string>)
    requires forall i :: 0 <= i < |lines| ==> Trimmed(lines[i]) && LineBreak !in lines[i]
    ensures PrepareLines(Join(lines, [LineBreak])) == DropEmpty(lines)
  {
    PrepareJoinedLines(lines);
    TrimEachOfTrimmed(lines);
  }

  lemma JoinWithBlanks(a: string, b: string)
    ensures Join([a, "", "", b, ""], [LineBreak]) == a + [LineBreak, LineBreak, LineBreak] + b + [LineBreak]
  {
    var lines := [a, "", "", b, ""];
    var sep := [LineBreak];
    assert Join(lines[3..], sep) == b + sep + "";
    assert Join(lines[2..], sep) == "" + sep + (b + sep + "");
    assert Join(lines[1..], sep) == "" + sep + ("" + sep + (b + sep + ""));
  }

  lemma DropBlanks(a: string, b: string)
    requires a != [] && b != []
    ensures DropEmpty([a, "", "", b, ""]) == [a, b]
  {
    var lines := [a, "", "", b, ""];
    assert lines == [a] + [""] + [""] + [b] + [""];
    DropEmptyAppend([a] + [""] + [""] + [b], [""]);
    DropEmptyAppend([a] + [""] + [""], [b]);
    DropEmptyAppend([a] + [""], [""]);
    DropEmptyAppend([a], [""]);
    DropEmptyOne(a);
    DropEmptyOne("");
    DropEmptyOne(b);
  }

  lemma {:induction false} TrimEachOfTrimmed(lines: seq<string>)
    requires forall i :: 0 <= i < |lines| ==> Trimmed(lines[i])
    ensures TrimEach(lines) == lines
  {
    if lines != [] {
      TrimOfTrimmed(lines[0]);
      TrimEachOfTrimmed(lines[1..]);
    }
  }

  lemma {:induction false} DropEmptyOfNonEmpty(lines: seq<string>)
    requires forall i :: 0 <= i < |lines| ==> lines[i] != []
    ensures DropEmpty(lines) == lines
  {
    if lines != [] {
      DropEmptyOfNonEmpty(lines[1..]);
    }
  }

  /** A `FileInputReader` over given contents. */
  class FileInputReader {
    const lines: seq<string>
    var currentIndex: nat

    /** The cursor never passes the end of the lines. */
    predicate Valid()
      reads this
    {
      currentIndex <= |lines|
    }

    /** `new FileInputReader(path)` with the file's contents. */
    constructor(content: string)
      ensures lines == PrepareLines(content) && currentIndex == 0 && Valid()
    {
      lines := PrepareLines(content);
      currentIndex := 0;
    }

    /** `readLine`: the line under the cursor, which then advances, or
        nothing once every line has been read. */
    method ReadLine() returns (line: Option<string>)
      modifies this`currentIndex
      ensures old(currentIndex) < |lines| ==>
        line == Some(lines[old(currentIndex)]) && currentIndex == old(currentIndex) + 1
      ensures old(currentIndex) >= |lines| ==> line == None && currentIndex == old(currentIndex)
      ensures old(Valid()) ==> Valid()
    {
      if currentIndex < |lines| {
        line := Some(lines[currentIndex]);
        currentIndex := currentIndex + 1;
      } else {
        line := None;
      }
    }

    /** `hasMoreInput`: whether a read would return a line. */
    method HasMoreInput() returns (more: bool)
      ensures more <==> currentIndex < |lines|
    {
      more := currentIndex < |lines|;
    }

    /** `reset`: back to the first line. */
    method Reset()
      modifies this`currentIndex
      ensures currentIndex == 0 && Valid()
    {
      currentIndex := 0;
    }

    /** `getAllLines`: the lines not yet read; afterwards none are left. */
    method GetAllLines() returns (remaining: seq<string>)
      modifies this`currentIndex
      ensures old(currentIndex) <= |lines| ==> remaining == lines[old(currentIndex)..]
      ensures old(currentIndex) > |lines| ==> remaining == []
      ensures currentIndex == |lines| && Valid()
    {
      remaining := if currentIndex <= |lines| then lines[currentIndex..] else [];
      currentIndex := |lines|;
    }

    /** `getTotalLines`: the number of non-blank lines. */
    method GetTotalLines() returns (total: nat)
      ensures total == |lines|
    {
      total := |lines|;
    }

    /** `getCurrentLineNumber`: how many lines have been read. */
    method GetCurrentLineNumber() returns (index: nat)
      ensures index == currentIndex
    {
      index := currentIndex;
    }
  }
}
