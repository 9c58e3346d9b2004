/**
 * The text side of program loading: each line of a program file holds one value
 * written in base 2, optionally followed by a `#` comment. Lines whose text before
 * the first `#` is not a base-2 number are skipped and take no address.
 *
 * The accepted number syntax is a simplification of Python's `int(s, 2)`: a
 * non-empty run of the digits 0 and 1, optionally surrounded by spaces, tabs,
 * carriage returns and line feeds.
 */
module Loader {
  import opened Wrappers

  /** The text of a line before its first `#`. */
  function BeforeComment(line: string): (r: string)
    ensures r <= line
    ensures '#' !in r
    ensures |r| < |line| ==> line[|r|] == '#'
  {
    if line == [] || line[0] == '#' then [] else [line[0]] + BeforeComment(line[1..])
  }

  predicate IsSpace(c: char)
  {
    c == ' ' || c == '\t' || c == '\n' || c == '\r'
  }

  predicate IsBinary(s: string)
  {
    |s| > 0 && forall k :: 0 <= k < |s| ==> s[k] == '0' || s[k] == '1'
  }

  function Bit(c: char): nat
  {
    if c == '1' then 1 else 0
  }

  /** The number a string of binary digits denotes, most significant digit first. */
  function BinaryValue(s: string): nat
  {
    if s == [] then 0 else 2 * BinaryValue(s[..|s| - 1]) + Bit(s[|s| - 1])
  }

  function Pow2(n: nat): (r: nat)
    ensures r >= 1
  {
    if n == 0 then 1 else 2 * Pow2(n - 1)
  }

  /**
   * `s` is the numeral `s[i..j]` with white space, and nothing else, on either side
   * of it: the text the simplified `int(s, 2)` accepts.
   */
  predicate Padded(s: string, i: int, j: int)
  {
    0 <= i < j <= |s| && IsBinary(s[i..j]) &&
    (forall k :: 0 <= k < i ==> IsSpace(s[k])) &&
    (forall k :: j <= k < |s| ==> IsSpace(s[k]))
  }

  /** A numeral starts and ends with a digit, so white space lies only outside it. */
  lemma PaddedEnds(s: string, i: int, j: int)
    requires Padded(s, i, j)
    ensures !IsSpace(s[i]) && !IsSpace(s[j - 1])
    ensures !IsSpace(s[0]) ==> i == 0
    ensures !IsSpace(s[|s| - 1]) ==> j == |s|
  {
    assert s[i] == s[i..j][0];
    assert s[j - 1] == s[i..j][j - 1 - i];
  }

  /** Dropping a leading white-space character keeps the numeral, shifted by one. */
  lemma PaddedDropFirst(s: string)
    requires s != [] && IsSpace(s[0])
    ensures forall i, j :: Padded(s, i, j) ==>
      1 <= i && Padded(s[1..], i - 1, j - 1) && s[1..][i - 1..j - 1] == s[i..j]
  {
    forall i, j | Padded(s, i, j)
      ensures 1 <= i && Padded(s[1..], i - 1, j - 1) && s[1..][i - 1..j - 1] == s[i..j]
    {
      PaddedEnds(s, i, j);
      assert s[1..][i - 1..j - 1] == s[i..j];
    }
  }

  /** Dropping a trailing white-space character keeps the numeral. */
  lemma PaddedDropLast(s: string)
    requires s != [] && IsSpace(s[|s| - 1])
    ensures forall i, j :: Padded(s, i, j) ==>
      j < |s| && Padded(s[..|s| - 1], i, j) && s[..|s| - 1][i..j] == s[i..j]
  {
    forall i, j | Padded(s, i, j)
      ensures j < |s| && Padded(s[..|s| - 1], i, j) && s[..|s| - 1][i..j] == s[i..j]
    {
      PaddedEnds(s, i, j);
      assert s[..|s| - 1][i..j] == s[i..j];
    }
  }

  /** With no white space at either end, the only possible numeral is the whole text. */
  lemma PaddedWhole(s: string)
    requires s == [] || (!IsSpace(s[0]) && !IsSpace(s[|s| - 1]))
    ensures forall i, j :: Padded(s, i, j) ==> i == 0 && j == |s| && s[i..j] == s
  {
    forall i, j | Padded(s, i, j)
      ensures i == 0 && j == |s| && s[i..j] == s
    {
      PaddedEnds(s, i, j);
    }
  }

  /**
   * `int(s, 2)`, within the simplified syntax: white space around the digits is
   * ignored, and None stands for the ValueError Python raises. Every padded numeral
   * parses, as the number its digits denote.
   */
  function ParseBinary(s: string): (r: Option<nat>)
    ensures forall i, j :: Padded(s, i, j) ==> r == Some(BinaryValue(s[i..j]))
  {
    if s != [] && IsSpace(s[0]) then PaddedDropFirst(s); ParseBinary(s[1..])
    else if s != [] && IsSpace(s[|s| - 1]) then PaddedDropLast(s); ParseBinary(s[..|s| - 1])
    else if IsBinary(s) then PaddedWhole(s); Some(BinaryValue(s))
    else PaddedWhole(s); None
  }

  /** Conversely, only a padded numeral parses. */
  lemma {:induction false} ParseBinaryOnlyPadded(s: string)
    requires ParseBinary(s).Some?
    ensures exists i, j :: Padded(s, i, j)
  {
    if s != [] && IsSpace(s[0]) {
      ParseBinaryOnlyPadded(s[1..]);
      var i, j :| Padded(s[1..], i, j);
      assert s[1..][i..j] == s[i + 1..j + 1];
      assert Padded(s, i + 1, j + 1);
    } else if s != [] && IsSpace(s[|s| - 1]) {
      ParseBinaryOnlyPadded(s[..|s| - 1]);
      var i, j :| Padded(s[..|s| - 1], i, j);
      assert s[..|s| - 1][i..j] == s[i..j];
      assert Padded(s, i, j);
    } else {
      assert IsBinary(s);
      assert s[0..|s|] == s;
      assert Padded(s, 0, |s|);
    }
  }

  /** The first `#` of a line at index k ends the text the line's number is read from. */
  lemma BeforeCommentFirstHash(line: string)
    ensures '#' !in line ==> BeforeComment(line) == line
    ensures forall k :: 0 <= k < |line| && line[k] == '#' && '#' !in line[..k] ==>
      BeforeComment(line) == line[..k]
  {
    var r := BeforeComment(line);
    forall k | 0 <= k < |line| && line[k] == '#' && '#' !in line[..k]
      ensures r == line[..k]
    {
      if |r| != k {
        assert false;
      }
    }
  }

  /**
   * The value a program line contributes, if any: the number written before the
   * line's first `#`, or in the whole line when it has none.
   */
  function ParseLine(line: string): (r: Option<nat>)
    ensures '#' !in line ==> r == ParseBinary(line)
    ensures forall k :: 0 <= k < |line| && line[k] == '#' && '#' !in line[..k] ==>
      r == ParseBinary(line[..k])
  {
    BeforeCommentFirstHash(line);
    ParseBinary(BeforeComment(line))
  }

  /** The parse of every line, in file order. */
  function Parses(lines: seq<string>): (ps: seq<Option<nat>>)
    ensures |ps| == |lines|
    ensures forall k :: 0 <= k < |lines| ==> ps[k] == ParseLine(lines[k])
  {
    seq(|lines|, k requires 0 <= k < |lines| => ParseLine(lines[k]))
  }

  /** The values present in `ps`, in order. */
  function Present(ps: seq<Option<nat>>): (p: seq<nat>)
    ensures |p| <= |ps|
    ensures (forall k :: 0 <= k < |ps| ==> ps[k].Some?) ==> |p| == |ps|
  {
    if ps == [] then []
    else
      var last := ps[|ps| - 1];
      Present(ps[..|ps| - 1]) + (match last case Some(v) => [v] case None => [])
  }

  /** The values a program file loads, in file order, one per parseable line. */
  function Program(lines: seq<string>): (p: seq<nat>)
    ensures |p| <= |lines|
    ensures (forall k :: 0 <= k < |lines| ==> ParseLine(lines[k]).Some?) ==> |p| == |lines|
  {
    Present(Parses(lines))
  }

  /**
   * Memory after storing `program` from address 0 onward. A program longer than
   * memory fills all of it and the rest of the program is not stored.
   */
  function Image(ram: seq<int>, program: seq<nat>): (r: seq<int>)
    ensures |r| == |ram|
    ensures forall a :: 0 <= a < |r| && a < |program| ==> r[a] == program[a]
    ensures forall a :: |program| <= a < |r| ==> r[a] == ram[a]
  {
    if |program| <= |ram| then program + ram[|program|..] else program[..|ram|]
  }

  /** Storing one more value of the program writes it at the next free address. */
  lemma ImageAppend(ram: seq<int>, program: seq<nat>, i: nat)
    requires i < |program| && i < |ram|
    ensures Image(ram, program[..i + 1]) == Image(ram, program[..i])[i := program[i]]
  {
  }

  /** Once memory is full, the rest of the program changes nothing. */
  lemma ImageFull(ram: seq<int>, program: seq<nat>)
    requires |ram| <= |program|
    ensures Image(ram, program[..|ram|]) == Image(ram, program)
  {
  }

  /** Parses every line of a program file and collects the values, in file order. */
  method ParseProgram(lines: seq<string>) returns (program: seq<nat>)
    ensures program == Program(lines)
  {
    ghost var ps := Parses(lines);
    program := [];
    var i := 0;
    while i < |lines|
      invariant 0 <= i <= |lines|
      invariant program == Present(ps[..i])
    {
      var parsed := ParseLine(lines[i]);
      assert ps[..i + 1][..i] == ps[..i];
      if parsed.Some? {
        program := program + [parsed.value];
      }
      i := i + 1;
    }
    assert ps[..i] == ps;
  }

  /** A value is present exactly when some entry holds it. */
  lemma {:induction false} PresentValues(ps: seq<Option<nat>>)
    ensures forall v :: v in Present(ps) <==> Some(v) in ps
  {
    if ps != [] {
      var init := ps[..|ps| - 1];
      PresentValues(init);
      assert ps == init + [ps[|ps| - 1]];
    }
  }

  /** The values present in a prefix are a prefix of the values present. */
  lemma {:induction false} PresentPrefix(ps: seq<Option<nat>>, i: nat)
    requires i <= |ps|
    ensures Present(ps[..i]) <= Present(ps)
    decreases |ps|
  {
    if i < |ps| {
      var init := ps[..|ps| - 1];
      assert ps[..i] == init[..i];
      PresentPrefix(init, i);
    } else {
      assert ps[..i] == ps;
    }
  }

  /** The width-digit base-2 spelling of `n`, most significant digit first. */
  function BinaryDigits(n: nat, width: nat): (s: string)
    ensures |s| == width
    ensures forall k :: 0 <= k < |s| ==> s[k] == '0' || s[k] == '1'
  {
    if width == 0 then "" else BinaryDigits(n / 2, width - 1) + [if n % 2 == 1 then '1' else '0']
  }

  /** Reading back the digits of a number that fits in `width` digits gives the number. */
  lemma {:induction false} BinaryValueOfDigits(n: nat, width: nat)
    requires n < Pow2(width)
    ensures BinaryValue(BinaryDigits(n, width)) == n
  {
    if width > 0 {
      var d := BinaryDigits(n / 2, width - 1);
      var c := if n % 2 == 1 then '1' else '0';
      assert (d + [c])[..|d|] == d;
      BinaryValueOfDigits(n / 2, width - 1);
    }
  }

  /** Binary digits, alone or followed by one white-space character, parse as the number they denote. */
  lemma DigitsParse(d: string, c: char)
    requires IsBinary(d) && IsSpace(c)
    ensures ParseBinary(d) == Some(BinaryValue(d))
    ensures ParseBinary(d + [c]) == Some(BinaryValue(d))
  {
    var t := d + [c];
    assert !IsSpace(t[0]) && IsSpace(t[|t| - 1]);
    assert t[..|t| - 1] == d;
    assert !IsSpace(d[0]) && !IsSpace(d[|d| - 1]);
  }

  /** White space alone is not a number. */
  lemma {:induction false} SpacesParseNothing(s: string)
    requires forall k :: 0 <= k < |s| ==> IsSpace(s[k])
    ensures ParseBinary(s) == None
  {
    if s != [] {
      assert IsSpace(s[0]);
      SpacesParseNothing(s[1..]);
    }
  }

  /**
   * A line holding binary digits loads the number they denote, whether the digits
   * stand alone, end the line with a newline, or are followed by a space and a comment.
   */
  lemma DigitsLineParses(d: string, comment: string)
    requires IsBinary(d)
    ensures ParseLine(d) == Some(BinaryValue(d))
    ensures ParseLine(d + "\n") == Some(BinaryValue(d))
    ensures ParseLine(d + " #" + comment) == Some(BinaryValue(d))
  {
    assert '#' !in d by {
      assert forall k :: 0 <= k < |d| ==> d[k] != '#';
    }
    assert '#' !in d + "\n" by {
      assert forall k :: 0 <= k < |d + "\n"| ==> (d + "\n")[k] != '#';
    }
    assert '#' !in d + " " by {
      assert forall k :: 0 <= k < |d + " "| ==> (d + " ")[k] != '#';
    }
    assert BeforeComment(d) == d;
    assert BeforeComment(d + "\n") == d + "\n";
    BeforeCommentStopsAtHash(d + " ", comment);
    assert d + " #" + comment == (d + " ") + "#" + comment;
    DigitsParse(d, '\n');
    DigitsParse(d, ' ');
  }

  /** A line holding a value's digits, alone, before a newline or before a comment, loads that value. */
  lemma BinaryLineParses(n: nat, width: nat, comment: string)
    requires 0 < width && n < Pow2(width)
    ensures ParseLine(BinaryDigits(n, width)) == Some(n)
    ensures ParseLine(BinaryDigits(n, width) + "\n") == Some(n)
    ensures ParseLine(BinaryDigits(n, width) + " #" + comment) == Some(n)
  {
    DigitsLineParses(BinaryDigits(n, width), comment);
    BinaryValueOfDigits(n, width);
  }

  /** The text before the comment of `text + "#" + comment` is `text`, if `text` has no `#`. */
  lemma {:induction false} BeforeCommentStopsAtHash(text: string, comment: string)
    requires '#' !in text
    ensures BeforeComment(text + "#" + comment) == text
  {
    if text != [] {
      assert (text + "#" + comment)[1..] == text[1..] + "#" + comment;
      BeforeCommentStopsAtHash(text[1..], comment);
    }
  }

  /** A blank line, and a line holding only white space and a comment, load nothing. */
  lemma BlankOrCommentSkipped(text: string, comment: string)
    requires forall k :: 0 <= k < |text| ==> IsSpace(text[k])
    ensures ParseLine(text) == None
    ensures ParseLine(text + "#" + comment) == None
  {
    assert '#' !in text by {
      assert forall k :: 0 <= k < |text| ==> text[k] != '#';
    }
    BeforeCommentStopsAtHash(text, comment);
    assert BeforeComment(text) == text;
    SpacesParseNothing(text);
  }

  /** Appending a line appends its value, if it has one, to the program. */
  lemma ProgramSnoc(lines: seq<string>, line: string)
    ensures Program(lines + [line]) ==
      Program(lines) + (match ParseLine(line) case Some(v) => [v] case None => [])
  {
    var ps := Parses(lines + [line]);
    assert ps[..|lines|] == Parses(lines);
  }

  /** The values loaded from a prefix of the file are a prefix of the whole program. */
  lemma ProgramPrefix(lines: seq<string>, i: nat)
    requires i <= |lines|
    ensures Program(lines[..i]) <= Program(lines)
  {
    assert Parses(lines[..i]) == Parses(lines)[..i];
    PresentPrefix(Parses(lines), i);
  }

  /** The first i + 1 lines load what the first i lines load, plus line i's value if it parses. */
  lemma ProgramExtend(lines: seq<string>, i: nat)
    requires i < |lines|
    ensures Program(lines[..i + 1]) ==
      Program(lines[..i]) + (match ParseLine(lines[i]) case Some(v) => [v] case None => [])
  {
    assert lines[..i + 1] == lines[..i] + [lines[i]];
    ProgramSnoc(lines[..i], lines[i]);
  }

  /** The program holds exactly the values of the lines that parse. */
  lemma ProgramValues(lines: seq<string>)
    ensures forall v :: v in Program(lines) <==>
      exists k :: 0 <= k < |lines| && ParseLine(lines[k]) == Some(v)
  {
    var ps := Parses(lines);
    PresentValues(ps);
    forall v | Some(v) in ps
      ensures exists k :: 0 <= k < |lines| && ParseLine(lines[k]) == Some(v)
    {
      var k :| 0 <= k < |ps| && ps[k] == Some(v);
    }
  }

  /**
   * A line that parses is loaded at the address equal to the number of parseable
   * lines before it; an unparseable line loads nothing.
   */
  lemma LineAddress(lines: seq<string>, i: nat)
    requires i < |lines|
    ensures ParseLine(lines[i]).None? ==> Program(lines[..i + 1]) == Program(lines[..i])
    ensures ParseLine(lines[i]).Some? ==>
      |Program(lines[..i])| < |Program(lines)| &&
      Program(lines)[|Program(lines[..i])|] == ParseLine(lines[i]).value
  {
    ProgramExtend(lines, i);
    ProgramPrefix(lines, i + 1);
  }

  /** The three kinds of line a program file is written with; a value's comment is optional. */
  datatype SourceLine = ValueLine(value: nat, comment: Option<string>) | BlankLine | CommentLine(text: string)

  /**
   * The text of a line as iterating over the file yields it, newline included: 8
   * binary digits with or without a comment, nothing, or a comment alone.
   */
  function Render(l: SourceLine): string
  {
    match l
    case ValueLine(v, None) => BinaryDigits(v, 8) + "\n"
    case ValueLine(v, Some(c)) => BinaryDigits(v, 8) + " #" + c + "\n"
    case BlankLine => "\n"
    case CommentLine(t) => "#" + t + "\n"
  }

  function RenderAll(ls: seq<SourceLine>): (lines: seq<string>)
    ensures |lines| == |ls|
  {
    if ls == [] then [] else RenderAll(ls[..|ls| - 1]) + [Render(ls[|ls| - 1])]
  }

  /** The values of the value lines, in file order. */
  function Values(ls: seq<SourceLine>): seq<nat>
  {
    if ls == [] then []
    else
      var last := ls[|ls| - 1];
      Values(ls[..|ls| - 1]) + (if last.ValueLine? then [last.value] else [])
  }

  predicate ByteValues(ls: seq<SourceLine>)
  {
    forall k :: 0 <= k < |ls| && ls[k].ValueLine? ==> ls[k].value < 256
  }

  /** A rendered line loads its value when it is a value line, and nothing otherwise. */
  lemma RenderParses(l: SourceLine)
    requires l.ValueLine? ==> l.value < 256
    ensures ParseLine(Render(l)) == if l.ValueLine? then Some(l.value) else None
  {
    match l
    case ValueLine(v, None) =>
      assert Pow2(8) == 256;
      BinaryLineParses(v, 8, "");
    case ValueLine(v, Some(c)) =>
      assert Pow2(8) == 256;
      BinaryLineParses(v, 8, c + "\n");
      assert BinaryDigits(v, 8) + " #" + c + "\n" == BinaryDigits(v, 8) + " #" + (c + "\n");
    case BlankLine =>
      BlankOrCommentSkipped("\n", "");
    case CommentLine(t) =>
      BlankOrCommentSkipped("", t + "\n");
      assert "" + "#" + (t + "\n") == "#" + t + "\n";
  }

  /**
   * A file of blank lines, comment lines and lines holding a byte value, with or
   * without a comment, loads exactly the values, in file order, packed from
   * address 0.
   */
  lemma {:induction false} ProgramOfFile(ls: seq<SourceLine>)
    requires ByteValues(ls)
    ensures Program(RenderAll(ls)) == Values(ls)
  {
    if ls != [] {
      var init, last := ls[..|ls| - 1], ls[|ls| - 1];
      ProgramOfFile(init);
      ProgramSnoc(RenderAll(init), Render(last));
      RenderParses(last);
    }
  }
}
