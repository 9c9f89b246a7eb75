/** The JavaScript string built-ins that the simulator relies on:
    `String.prototype.trim`, `toUpperCase`, `split`, `Array.prototype.join`,
    `parseInt(s, 10)` on a digit string, and the decimal rendering of an
    integer inside a template literal. */
module Text {

  /** White space as JavaScript's `trim` and the regular-expression class `\s`
      see it: the WhiteSpace and LineTerminator code points of ECMA-262. */
  predicate IsWhitespace(c: char) {
    if c <= ' ' then c == ' ' || '\t' <= c <= '\r'
    else if c < '\U{A0}' then false
    else
      c == '\U{A0}' || c == '\U{1680}' || ('\U{2000}' <= c <= '\U{200A}')
      || c == '\U{2028}' || c == '\U{2029}' || c == '\U{202F}' || c == '\U{205F}'
      || c == '\U{3000}' || c == '\U{FEFF}'
  }

  predicate AllWhitespace(s: string) {
    forall i :: 0 <= i < |s| ==> IsWhitespace(s[i])
  }

  /** True when `s` neither starts nor ends with white space. */
  predicate Trimmed(s: string) {
    s == [] || (!IsWhitespace(s[0]) && !IsWhitespace(s[|s| - 1]))
  }

  // ---------------------------------------------------------------- trim

  /** Drops the leading white space of `s`. */
  function TrimStart(s: string): (r: string)
    ensures |r| <= |s| && r == s[|s| - |r|..]
    ensures AllWhitespace(s[..|s| - |r|])
    ensures r == [] || !IsWhitespace(r[0])
  {
    if s != [] && IsWhitespace(s[0]) then TrimStart(s[1..]) else s
  }

  /** Drops the trailing white space of `s`. */
  function TrimEnd(s: string): (r: string)
    ensures |r| <= |s| && r == s[..|r|]
    ensures AllWhitespace(s[|r|..])
    ensures r == [] || !IsWhitespace(r[|r| - 1])
  {
    if s != [] && IsWhitespace(s[|s| - 1]) then TrimEnd(s[..|s| - 1]) else s
  }

  /** `s.trim()`: the result has no white space at either end. */
  function Trim(s: string): (r: string)
    ensures Trimmed(r) && |r| <= |s|
  {
    var t := TrimStart(s);
    var r := TrimEnd(t);
    assert r == [] || r[0] == t[0];
    r
  }

  lemma TrimStartSplit(s: string) returns (pre: string)
    ensures s == pre + TrimStart(s) && AllWhitespace(pre)
  {
    pre := s[..|s| - |TrimStart(s)|];
  }

  lemma TrimEndSplit(t: string) returns (suf: string)
    ensures t == TrimEnd(t) + suf && AllWhitespace(suf)
  {
    suf := t[|TrimEnd(t)|..];
  }

  /** What `trim` removed is white space on both sides of the result. */
  lemma TrimDecompose(s: string) returns (pre: string, suf: string)
    ensures s == pre + (Trim(s) + suf)
    ensures AllWhitespace(pre) && AllWhitespace(suf)
  {
    pre := TrimStartSplit(s);
    suf := TrimEndSplit(TrimStart(s));
  }

  lemma {:induction false} TrimStartOfPadded(pre: string, t: string)
    requires AllWhitespace(pre)
    requires t == [] || !IsWhitespace(t[0])
    ensures TrimStart(pre + t) == t
  {
    if pre != [] {
      assert (pre + t)[1..] == pre[1..] + t;
      TrimStartOfPadded(pre[1..], t);
    }
  }

  lemma {:induction false} TrimEndOfPadded(t: string, suf: string)
    requires AllWhitespace(suf)
    requires t == [] || !IsWhitespace(t[|t| - 1])
    ensures TrimEnd(t + suf) == t
  {
    if suf != [] {
      assert (t + suf)[..|t + suf| - 1] == t + suf[..|suf| - 1];
      TrimEndOfPadded(t, suf[..|suf| - 1]);
    }
  }

  /** The reference characterisation of `trim`: whatever white space pads a
      trimmed string is exactly what `trim` removes. */
  lemma TrimOfPadded(pre: string, m: string, suf: string)
    requires AllWhitespace(pre) && AllWhitespace(suf) && Trimmed(m)
    ensures Trim(pre + (m + suf)) == m
  {
    if m == [] {
      assert pre + (m + suf) == (pre + suf) + [];
      TrimStartOfPadded(pre + suf, []);
    } else {
      TrimStartOfPadded(pre, m + suf);
      TrimEndOfPadded(m, suf);
    }
  }

  /** `trim` leaves a string without white space at its ends alone. */
  lemma TrimOfTrimmed(m: string)
    requires Trimmed(m)
    ensures Trim(m) == m
  {
    assert [] + (m + []) == m;
    TrimOfPadded([], m, []);
  }

  /** Trimming twice is trimming once. */
  lemma TrimIdempotent(s: string)
    ensures Trim(Trim(s)) == Trim(s)
  {
    TrimOfTrimmed(Trim(s));
  }

  // ---------------------------------------------------------- toUpperCase

  /** `c.toUpperCase()`. ASCII letters map to their capitals; the ten other
      characters whose upper case is pure ASCII map as the Unicode special
      casing table says (sharp s, dotless i, long s and the Latin ligatures);
      every other character is kept as it is. */
  function UpperChar(c: char): (u: string)
    ensures 1 <= |u| <= 3
  {
    if c < '\U{80}' then
      if 'a' <= c <= 'z' then [(c as int - 32) as char] else [c]
    else if c == '\U{DF}' then "SS"
    else if c == '\U{131}' then "I"
    else if c == '\U{17F}' then "S"
    else if c == '\U{FB00}' then "FF"
    else if c == '\U{FB01}' then "FI"
    else if c == '\U{FB02}' then "FL"
    else if c == '\U{FB03}' then "FFI"
    else if c == '\U{FB04}' then "FFL"
    else if c == '\U{FB05}' || c == '\U{FB06}' then "ST"
    else [c]
  }

  /** `s.toUpperCase()`, character by character. */
  function Upper(s: string): string {
    if s == [] then [] else UpperChar(s[0]) + Upper(s[1..])
  }

  /** A character that upper-casing leaves alone. */
  predicate IsUpperFixed(c: char) {
    UpperChar(c) == [c]
  }

  lemma {:induction false} UpperAppend(a: string, b: string)
    ensures Upper(a + b) == Upper(a) + Upper(b)
  {
    if a == [] {
      assert a + b == b;
    } else {
      assert (a + b)[1..] == a[1..] + b;
      UpperAppend(a[1..], b);
    }
  }

  lemma {:induction false} UpperOfFixed(s: string)
    requires forall i :: 0 <= i < |s| ==> IsUpperFixed(s[i])
    ensures Upper(s) == s
  {
    if s != [] {
      UpperOfFixed(s[1..]);
    }
  }

  /** An ASCII capital letter. */
  predicate IsCapital(c: char) {
    'A' <= c <= 'Z'
  }

  /** Upper-casing leaves a string of capitals alone. */
  lemma {:induction false} UpperOfCapitals(s: string)
    requires forall i :: 0 <= i < |s| ==> IsCapital(s[i])
    ensures Upper(s) == s
  {
    if s != [] {
      UpperOfCapitals(s[1..]);
    }
  }

  lemma UpperCharResultFixed(c: char)
    ensures forall i :: 0 <= i < |UpperChar(c)| ==> IsUpperFixed(UpperChar(c)[i])
  {
  }

  /** Upper-casing twice is upper-casing once. */
  lemma {:induction false} UpperIdempotent(s: string)
    ensures Upper(Upper(s)) == Upper(s)
  {
    if s != [] {
      UpperAppend(UpperChar(s[0]), Upper(s[1..]));
      UpperCharResultFixed(s[0]);
      UpperOfFixed(UpperChar(s[0]));
      UpperIdempotent(s[1..]);
    }
  }

  /** Upper-casing keeps white space and creates none. */
  lemma UpperCharWhitespace(c: char)
    ensures IsWhitespace(c) ==> UpperChar(c) == [c]
    ensures !IsWhitespace(c) ==> forall i :: 0 <= i < |UpperChar(c)| ==> !IsWhitespace(UpperChar(c)[i])
  {
  }

  lemma {:induction false} UpperOfWhitespace(s: string)
    requires AllWhitespace(s)
    ensures Upper(s) == s
  {
    if s != [] {
      UpperCharWhitespace(s[0]);
      UpperOfWhitespace(s[1..]);
    }
  }

  lemma {:induction false} UpperKeepsTrimmed(s: string)
    requires Trimmed(s)
    ensures Trimmed(Upper(s)) && (s == [] <==> Upper(s) == [])
  {
    if s != [] {
      var last := s[|s| - 1];
      assert s == s[..|s| - 1] + [last];
      UpperAppend(s[..|s| - 1], [last]);
      assert Upper([last]) == UpperChar(last) + Upper([]);
      UpperCharWhitespace(s[0]);
      UpperCharWhitespace(last);
    }
  }

  /** Upper-casing neither creates nor removes white space at the ends of a
      line, so `trim` and `toUpperCase` commute. */
  lemma TrimUpperCommute(s: string)
    ensures Trim(Upper(s)) == Upper(Trim(s))
  {
    var m := Trim(s);
    var pre, suf := TrimDecompose(s);
    UpperAppend(pre, m + suf);
    UpperAppend(m, suf);
    UpperOfWhitespace(pre);
    UpperOfWhitespace(suf);
    UpperKeepsTrimmed(m);
    TrimOfPadded(pre, Upper(m), suf);
  }

  // ------------------------------------------------------- split and join

  /** `s.split(sep)` for a one-character separator: the pieces between
      separators, in order; there is always at least one piece. */
  function Split(s: string, sep: char): (parts: seq<string>)
    ensures |parts| >= 1
    ensures forall i :: 0 <= i < |parts| ==> sep !in parts[i]
  {
    if s == [] then [""]
    else
      var rest := Split(s[1..], sep);
      if s[0] == sep then [""] + rest
      else [[s[0]] + rest[0]] + rest[1..]
  }

  /** `parts.join(sep)`. */
  function Join(parts: seq<string>, sep: string): string {
    if |parts| == 0 then ""
    else if |parts| == 1 then parts[0]
    else parts[0] + sep + Join(parts[1..], sep)
  }

  /** Joining the pieces of a split with the separator gives back the input. */
  lemma {:induction false} JoinSplit(s: string, sep: char)
    ensures Join(Split(s, sep), [sep]) == s
  {
    if s != [] {
      var rest := Split(s[1..], sep);
      JoinSplit(s[1..], sep);
      if s[0] == sep {
        assert ([""] + rest)[1..] == rest;
      } else {
        var parts := [[s[0]] + rest[0]] + rest[1..];
        if |rest| > 1 {
          assert parts[1..] == rest[1..];
        }
      }
    }
  }

  lemma {:induction false} SplitWithoutSeparator(a: string, sep: char)
    requires sep !in a
    ensures Split(a, sep) == [a]
  {
    if a != [] {
      SplitWithoutSeparator(a[1..], sep);
      assert [a[0]] + a[1..] == a;
    }
  }

  lemma {:induction false} SplitAfterFirstSeparator(a: string, sep: char, b: string)
    requires sep !in a
    ensures Split(a + [sep] + b, sep) == [a] + Split(b, sep)
  {
    if a == [] {
      assert a + [sep] + b == [sep] + b;
      assert ([sep] + b)[1..] == b;
    } else {
      assert (a + [sep] + b)[1..] == a[1..] + [sep] + b;
      SplitAfterFirstSeparator(a[1..], sep, b);
      assert [a[0]] + a[1..] == a;
    }
  }

  /** Splitting a join of separator-free pieces gives back the pieces. */
  lemma {:induction false} SplitJoin(parts: seq<string>, sep: char)
    requires |parts| >= 1
    requires forall i :: 0 <= i < |parts| ==> sep !in parts[i]
    ensures Split(Join(parts, [sep]), sep) == parts
  {
    if |parts| == 1 {
      SplitWithoutSeparator(parts[0], sep);
    } else {
      SplitJoin(parts[1..], sep);
      SplitAfterFirstSeparator(parts[0], sep, Join(parts[1..], [sep]));
      assert [parts[0]] + parts[1..] == parts;
    }
  }

  // ---------------------------------------------------- decimal numbers

  predicate IsDigit(c: char) {
    '0' <= c <= '9'
  }

  predicate AllDigits(s: string) {
    forall i :: 0 <= i < |s| ==> IsDigit(s[i])
  }

  function DigitChar(n: nat): (c: char)
    requires n < 10
    ensures IsDigit(c)
  {
    ('0' as int + n) as char
  }

  /** `parseInt(s, 10)` for a string of ASCII digits (leading zeros allowed). */
  function ParseDecimal(s: string): nat
    requires AllDigits(s)
  {
    if s == [] then 0
    else 10 * ParseDecimal(s[..|s| - 1]) + (s[|s| - 1] as int - '0' as int)
  }

  /** The decimal rendering of a natural number, as `${n}` prints it: at least
      one digit, and no leading zero unless the number is zero. */
  function NatToString(n: nat): (r: string)
    ensures |r| >= 1 && AllDigits(r)
    ensures r[0] == '0' ==> n == 0 && |r| == 1
  {
    if n < 10 then [DigitChar(n)] else NatToString(n / 10) + [DigitChar(n % 10)]
  }

  /** The decimal rendering of any integer, with a minus sign when negative. */
  function IntToString(i: int): string {
    if i < 0 then "-" + NatToString(-i) else NatToString(i)
  }

  /** `parseInt` reads back what `${n}` printed. */
  lemma {:induction false} ParseNatToString(n: nat)
    ensures ParseDecimal(NatToString(n)) == n
  {
    if n >= 10 {
      var s := NatToString(n);
      assert s[..|s| - 1] == NatToString(n / 10);
      ParseNatToString(n / 10);
    }
  }

  /** The rendering of a number never contains white space or a comma. */
  lemma DigitsAreUpperFixed(s: string)
    requires AllDigits(s)
    ensures forall i :: 0 <= i < |s| ==> IsUpperFixed(s[i]) && !IsWhitespace(s[i]) && s[i] != ','
  {
  }
}
