/** `PlaceCommandParser` and `CommandParser`: the text grammar of the five
    commands. */
module Parsing {
  import opened Wrappers
  import opened Text
  import opened Directions
  import opened DirectionValidation
  import opened DirectionParsing
  import opened Commands
  import Robots

  /** The word that opens a place command. */
  const PlaceKeyword := "PLACE"

  /** The prefix on which `parseCommand` hands a line to the place parser. */
  const PlacePrefix := "PLACE "

  /** The separator between the three arguments of a place command. */
  const ArgumentSeparator := ','

  /** A match of the regular-expression group `(\d+)`. */
  predicate IsNumberField(s: string) {
    s != [] && AllDigits(s)
  }

  /** A match of the regular-expression group `([A-Z]+)`. */
  predicate IsWordField(s: string) {
    s != [] && forall i :: 0 <= i < |s| ==> IsCapital(s[i])
  }

  /** The text `PLACE<ws><x>,<y>,<word>` that the place pattern
      `^PLACE\s+(\d+),(\d+),([A-Z]+)$` describes, built from its parts. */
  function PlaceText(ws: string, xs: string, ys: string, word: string): string {
    PlaceKeyword + (ws + Join([xs, ys, word], [ArgumentSeparator]))
  }

  /** The conditions the pattern puts on those parts. */
  predicate MatchesPlacePattern(ws: string, xs: string, ys: string, word: string) {
    ws != [] && AllWhitespace(ws) && IsNumberField(xs) && IsNumberField(ys) && IsWordField(word)
  }

  /** `PlaceCommandParser.parse`: match the pattern (the white space after
      `PLACE` is greedy and digits are not white space, so the arguments start
      where the white space ends), read the two numbers in decimal and parse
      the word as a direction; an unknown word's error is caught and gives
      `null`. */
  function ParsePlace(s: string): (r: Option<Command>)
    ensures r.Some? ==> r.value.PlaceCommand?
  {
    if |s| < |PlaceKeyword| || s[..|PlaceKeyword|] != PlaceKeyword then None
    else
      var rest := s[|PlaceKeyword|..];
      if rest == [] || !IsWhitespace(rest[0]) then None
      else
        var fields := Split(TrimStart(rest), ArgumentSeparator);
        if |fields| != 3 || !IsNumberField(fields[0]) || !IsNumberField(fields[1]) || !IsWordField(fields[2]) then None
        else
          match FromString(fields[2])
          case Failure(_) => None
          case Success(d) => Some(PlaceCommand(ParseDecimal(fields[0]), ParseDecimal(fields[1]), d))
  }

  lemma WordFieldIsFixed(word: string)
    requires IsWordField(word)
    ensures Upper(word) == word
    ensures forall i :: 0 <= i < |word| ==> !IsWhitespace(word[i]) && word[i] != ArgumentSeparator
  {
    UpperOfCapitals(word);
  }

  /** Completeness: every text the pattern matches is parsed, to the place
      command its parts spell when the word is a direction, and to nothing
      otherwise. */
  lemma ParsePlaceComplete(ws: string, xs: string, ys: string, word: string)
    requires MatchesPlacePattern(ws, xs, ys, word)
    ensures ParsePlace(PlaceText(ws, xs, ys, word))
         == if IsValidDirectionString(word)
            then Some(PlaceCommand(ParseDecimal(xs), ParseDecimal(ys), DirectionNamed(word)))
            else None
  {
    DigitsAreUpperFixed(xs);
    DigitsAreUpperFixed(ys);
    WordFieldIsFixed(word);
    PlaceArguments(ws, [xs, ys, word]);
    if IsValidDirectionString(word) {
      NameInjective(FromString(word).value, DirectionNamed(word));
    }
  }

  /** Soundness: whatever the place parser accepts matches the pattern, and
      the command is the one its parts spell. */
  lemma ParsePlaceSound(s: string) returns (ws: string, xs: string, ys: string, word: string)
    requires ParsePlace(s).Some?
    ensures s == PlaceText(ws, xs, ys, word)
    ensures MatchesPlacePattern(ws, xs, ys, word) && IsValidDirectionString(word)
    ensures ParsePlace(s) == Some(PlaceCommand(ParseDecimal(xs), ParseDecimal(ys), DirectionNamed(word)))
  {
    var rest := s[|PlaceKeyword|..];
    var args := TrimStart(rest);
    ws := TrimStartSplit(rest);
    var fields := Split(args, ArgumentSeparator);
    xs, ys, word := fields[0], fields[1], fields[2];
    JoinSplit(args, ArgumentSeparator);
    assert fields == [xs, ys, word];
    assert s == s[..|PlaceKeyword|] + rest;
    WordFieldIsFixed(word);
    NameInjective(FromString(word).value, DirectionNamed(word));
  }

  /** The fixed word of each command other than place. */
  function Keyword(c: Command): string
    requires !c.PlaceCommand?
  {
    match c
    case MoveCommand => "MOVE"
    case LeftCommand => "LEFT"
    case RightCommand => "RIGHT"
    case ReportCommand => "REPORT"
  }

  /** The keyword dispatch of `parseCommand`, on the trimmed, upper-cased
      line: nothing for an empty line, the place sub-grammar after the prefix
      `PLACE `, otherwise exactly one of the four keywords. */
  function ParseNormalized(command: string): (r: Option<Command>)
    ensures command == [] ==> r.None?
    ensures PlacePrefix <= command ==> r == ParsePlace(command)
    ensures forall c: Command :: !c.PlaceCommand? && command == Keyword(c) ==> r == Some(c)
    ensures r.Some? && r.value.PlaceCommand? ==> PlacePrefix <= command && r == ParsePlace(command)
    ensures r.Some? && !r.value.PlaceCommand? ==> command == Keyword(r.value)
  {
    if command == [] then None
    else if PlacePrefix <= command then ParsePlace(command)
    else if command == "MOVE" then Some(MoveCommand)
    else if command == "LEFT" then Some(LeftCommand)
    else if command == "RIGHT" then Some(RightCommand)
    else if command == "REPORT" then Some(ReportCommand)
    else None
  }

  /** `CommandParser.parseCommand`: trim, upper-case, then dispatch. */
  function ParseCommand(line: string): Option<Command> {
    ParseNormalized(Upper(Trim(line)))
  }

  /** The dispatch of `parseCommand` in terms of the raw line: a blank line
      gives nothing; a line that reads `PLACE ` once trimmed and upper-cased
      goes to the place parser, and a line that reads a keyword gives its
      command; and a command comes from nowhere else. */
  lemma ParseCommandShape(line: string)
    ensures Trim(line) == [] ==> ParseCommand(line).None?
    ensures PlacePrefix <= Upper(Trim(line)) ==> ParseCommand(line) == ParsePlace(Upper(Trim(line)))
    ensures forall c: Command :: !c.PlaceCommand? && Upper(Trim(line)) == Keyword(c) ==> ParseCommand(line) == Some(c)
    ensures ParseCommand(line).Some? && ParseCommand(line).value.PlaceCommand? ==> PlacePrefix <= Upper(Trim(line))
    ensures ParseCommand(line).Some? && !ParseCommand(line).value.PlaceCommand? ==>
      Upper(Trim(line)) == Keyword(ParseCommand(line).value)
  {
  }

  /** Every line that reads as the place pattern once trimmed and
      upper-cased, with a space right after `PLACE`, is parsed: to the place
      command its parts spell when the word is a direction, to nothing
      otherwise. Case, extra spaces and leading zeros do not matter. */
  lemma PlaceLineParses(line: string, ws: string, xs: string, ys: string, word: string)
    requires Upper(Trim(line)) == PlaceText(ws, xs, ys, word)
    requires MatchesPlacePattern(ws, xs, ys, word) && ws[0] == ' '
    ensures ParseCommand(line)
         == if IsValidDirectionString(word)
            then Some(PlaceCommand(ParseDecimal(xs), ParseDecimal(ys), DirectionNamed(word)))
            else None
  {
    PlaceTextStart(ws, xs, ys, word);
    ParsePlaceComplete(ws, xs, ys, word);
  }

  /** The pattern's white space may be any white space, but the dispatch asks
      for `PLACE ` with a space: a place line whose first white space after
      the keyword is not a space (a tab, say) is not parsed at all. */
  lemma PlaceLineNeedsSpace(line: string, ws: string, xs: string, ys: string, word: string)
    requires Upper(Trim(line)) == PlaceText(ws, xs, ys, word)
    requires ws != [] && ws[0] != ' '
    ensures ParseCommand(line) == None
  {
    var command := Upper(Trim(line));
    PlaceTextStart(ws, xs, ys, word);
    assert command[0] == 'P' && !(PlacePrefix <= command);
    var r := ParseNormalized(command);
    if r.Some? && !r.value.PlaceCommand? {
      KeywordStart(r.value);
      assert false;
    }
  }

  /** No keyword other than place starts with the place keyword's letter. */
  lemma KeywordStart(c: Command)
    requires !c.PlaceCommand?
    ensures Keyword(c) != [] && Keyword(c)[0] != PlaceKeyword[0]
  {
  }

  /** A place text opens with the keyword, followed by its first white-space
      character. */
  lemma PlaceTextStart(ws: string, xs: string, ys: string, word: string)
    requires ws != []
    ensures var s := PlaceText(ws, xs, ys, word);
            |s| > |PlaceKeyword| && s[..|PlaceKeyword|] == PlaceKeyword && s[|PlaceKeyword|] == ws[0]
            && (ws[0] == ' ' <==> PlacePrefix <= s)
  {
    var s := PlaceText(ws, xs, ys, word);
    assert s[..|PlaceKeyword|] == PlaceKeyword;
    assert s[|PlaceKeyword|] == ws[0];
    assert s[..|PlacePrefix|] == PlaceKeyword + [ws[0]];
  }

  /** `isValidCommand`. */
  function IsValidCommand(line: string): (valid: bool)
    ensures valid <==> ParseCommand(line).Some?
    ensures Trim(line) == [] ==> !valid
  {
    ParseCommand(line) != None
  }

  /** The canonical text of a command. */
  function Format(c: Command): string {
    match c
    case PlaceCommand(x, y, d) => PlaceText(" ", NatToString(x), NatToString(y), Name(d))
    case _ => Keyword(c)
  }

  lemma NameIsWordField(d: Direction)
    ensures IsWordField(Name(d))
  {
  }

  /** The arguments of a place command are left alone by upper-casing and
      start and end with their first and last fields' ends. */
  lemma ArgumentsAreCanonical(xs: string, ys: string, word: string)
    requires IsNumberField(xs) && IsNumberField(ys) && IsWordField(word)
    ensures var args := Join([xs, ys, word], [ArgumentSeparator]);
            Upper(args) == args && args[0] == xs[0] && args[|args| - 1] == word[|word| - 1]
  {
    var sep := [ArgumentSeparator];
    JoinOfThree(xs, ys, word);
    DigitsAreUpperFixed(xs);
    DigitsAreUpperFixed(ys);
    UpperOfFixed(xs);
    UpperOfFixed(ys);
    WordFieldIsFixed(word);
    assert Upper(sep) == sep;
    UpperAppend(ys + sep, word);
    UpperAppend(ys, sep);
    UpperAppend(xs + sep, ys + sep + word);
    UpperAppend(xs, sep);
  }

  /** The argument list of three fields, written out. */
  lemma JoinOfThree(xs: string, ys: string, word: string)
    ensures Join([xs, ys, word], [ArgumentSeparator])
         == xs + [ArgumentSeparator] + (ys + [ArgumentSeparator] + word)
  {
    var sep := [ArgumentSeparator];
    assert Join([ys, word], sep) == ys + sep + word by {
      assert Join([word], sep) == word;
    }
  }

  lemma PlacePrefixIsCanonical(args: string)
    requires Upper(args) == args
    ensures Upper(PlaceKeyword + (" " + args)) == PlaceKeyword + (" " + args)
  {
    UpperAppend(PlaceKeyword, " " + args);
    UpperAppend(" ", args);
    assert Upper(PlaceKeyword) == PlaceKeyword;
    assert Upper(" ") == " ";
  }

  /** A string that starts and ends with a capital letter is trimmed. */
  lemma TrimmedBetweenCapitals(f: string)
    requires f != [] && IsCapital(f[0]) && IsCapital(f[|f| - 1])
    ensures Trimmed(f)
  {
  }

  lemma FormatPlaceIsCanonical(x: nat, y: nat, d: Direction)
    ensures var f := Format(PlaceCommand(x, y, d));
            Trimmed(f) && Upper(f) == f
  {
    var xs, ys, word := NatToString(x), NatToString(y), Name(d);
    var args := Join([xs, ys, word], [ArgumentSeparator]);
    var f := PlaceKeyword + (" " + args);
    NameIsWordField(d);
    ArgumentsAreCanonical(xs, ys, word);
    PlacePrefixIsCanonical(args);
    assert f[0] == 'P';
    assert f[|f| - 1] == word[|word| - 1];
    TrimmedBetweenCapitals(f);
    assert Format(PlaceCommand(x, y, d)) == f;
  }

  lemma KeywordIsCanonical(c: Command)
    requires !c.PlaceCommand?
    ensures Trimmed(Keyword(c)) && Upper(Keyword(c)) == Keyword(c)
  {
    var k := Keyword(c);
    assert IsWordField(k);
    WordFieldIsFixed(k);
    TrimmedBetweenCapitals(k);
  }

  /** A command's canonical text is already trimmed and upper case. */
  lemma FormatIsCanonical(c: Command)
    ensures Trim(Format(c)) == Format(c) && Upper(Format(c)) == Format(c)
  {
    if c.PlaceCommand? {
      FormatPlaceIsCanonical(c.x, c.y, c.direction);
    } else {
      KeywordIsCanonical(c);
    }
    TrimOfTrimmed(Format(c));
  }

  lemma ParseFormatPlace(x: nat, y: nat, d: Direction)
    ensures ParsePlace(Format(PlaceCommand(x, y, d))) == Some(PlaceCommand(x, y, d))
  {
    NameIsWordField(d);
    ParsePlaceComplete(" ", NatToString(x), NatToString(y), Name(d));
    ParseNatToString(x);
    ParseNatToString(y);
    NameInjective(DirectionNamed(Name(d)), d);
  }

  /** Every command's canonical text parses back to that command. */
  lemma ParseFormat(c: Command)
    ensures ParseCommand(Format(c)) == Some(c)
  {
    var f := Format(c);
    FormatIsCanonical(c);
    assert ParseCommand(f) == ParseNormalized(f);
    if c.PlaceCommand? {
      assert PlacePrefix <= f;
      ParseFormatPlace(c.x, c.y, c.direction);
    } else {
      assert !(PlacePrefix <= f);
    }
  }

  /** Commands are case-insensitive: upper-casing the line first changes
      nothing. */
  lemma ParseIgnoresCase(line: string)
    ensures ParseCommand(Upper(line)) == ParseCommand(line)
  {
    TrimUpperCommute(line);
    UpperIdempotent(Trim(line));
    assert Upper(Trim(Upper(line))) == Upper(Trim(line));
  }

  /** A robot's report, prefixed with `PLACE `, is the place command that
      puts a robot back in the same state. */
  lemma ReportReplaysAsPlace(s: Robots.RobotState)
    requires s.Placed()
    ensures ParseCommand(PlacePrefix + Robots.Report(s).value)
         == Some(PlaceCommand(s.position.value.x, s.position.value.y, s.direction.value))
  {
    var c := PlaceCommand(s.position.value.x, s.position.value.y, s.direction.value);
    var xs, ys, word := NatToString(c.x), NatToString(c.y), Name(c.direction);
    var sep := [ArgumentSeparator];
    assert Join([ys, word], sep) == ys + sep + word by {
      assert Join([word], sep) == word;
    }
    assert Robots.Report(s).value == xs + sep + (ys + sep + word);
    assert PlacePrefix + Robots.Report(s).value == Format(c);
    ParseFormat(c);
  }

  /** The place parser on any comma-separated argument list: it accepts
      exactly three fields, two numbers and a direction word; white space
      inside the list, a missing or extra field, a letter in a number or an
      unknown word all make it give nothing. */
  lemma ParsePlaceFields(ws: string, fields: seq<string>)
    requires ws != [] && AllWhitespace(ws)
    requires |fields| >= 1 && fields[0] != [] && !IsWhitespace(fields[0][0])
    requires forall i :: 0 <= i < |fields| ==> ArgumentSeparator !in fields[i]
    ensures ParsePlace(PlaceKeyword + (ws + Join(fields, [ArgumentSeparator]))).Some?
        <==> |fields| == 3 && IsNumberField(fields[0]) && IsNumberField(fields[1])
             && IsWordField(fields[2]) && IsValidDirectionString(fields[2])
  {
    var s := PlaceKeyword + (ws + Join(fields, [ArgumentSeparator]));
    PlaceArguments(ws, fields);
    if |fields| == 3 && IsNumberField(fields[0]) && IsNumberField(fields[1]) && IsWordField(fields[2]) {
      WordFieldIsFixed(fields[2]);
      assert ParsePlace(s).Some? <==> FromString(fields[2]).Success?;
    } else {
      assert ParsePlace(s).None?;
    }
  }

  /** How the place parser cuts such a text: after the keyword comes white
      space, and the fields are exactly the given ones. */
  lemma PlaceArguments(ws: string, fields: seq<string>)
    requires ws != [] && AllWhitespace(ws)
    requires |fields| >= 1 && fields[0] != [] && !IsWhitespace(fields[0][0])
    requires forall i :: 0 <= i < |fields| ==> ArgumentSeparator !in fields[i]
    ensures var s := PlaceKeyword + (ws + Join(fields, [ArgumentSeparator]));
      |s| >= |PlaceKeyword| && s[..|PlaceKeyword|] == PlaceKeyword
      && var rest := s[|PlaceKeyword|..];
      rest != [] && IsWhitespace(rest[0])
      && Split(TrimStart(rest), ArgumentSeparator) == fields
  {
    var args := Join(fields, [ArgumentSeparator]);
    var s := PlaceKeyword + (ws + args);
    assert s[..|PlaceKeyword|] == PlaceKeyword;
    assert s[|PlaceKeyword|..] == ws + args;
    assert args[0] == fields[0][0] by {
      if |fields| > 1 {
        assert args == fields[0] + ([ArgumentSeparator] + Join(fields[1..], [ArgumentSeparator]));
      }
    }
    TrimStartOfPadded(ws, args);
    SplitJoin(fields, ArgumentSeparator);
  }

  /** The keyword alone is not a place command: the prefix needs the white
      space after it. */
  lemma BareKeywordRejected()
    ensures ParseCommand("PLACE") == None
  {
    CanonicalWord("PLACE");
    NotACommand("PLACE");
  }

  /** An unknown keyword is rejected. */
  lemma UnknownKeywordRejected()
    ensures ParseCommand("JUMP") == None
  {
    CanonicalWord("JUMP");
    NotACommand("JUMP");
  }

  /** A word in capitals reads as itself once trimmed and upper-cased. */
  lemma CanonicalWord(w: string)
    requires IsWordField(w)
    ensures ParseCommand(w) == ParseNormalized(w)
  {
    WordFieldIsFixed(w);
    TrimmedBetweenCapitals(w);
    TrimOfTrimmed(w);
  }

  /** Text that does not start with the place prefix and is none of the four
      keywords gives nothing. */
  lemma NotACommand(command: string)
    requires !(PlacePrefix <= command)
    requires command != "MOVE" && command != "LEFT" && command != "RIGHT" && command != "REPORT"
    ensures ParseNormalized(command) == None
  {
  }
}
