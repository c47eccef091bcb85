/** Reading a range of lines of a file whose comments may have been stripped. */
module ReadFile {
  import opened Prelude
  import opened Decimals
  import opened Lexing
  import opened TextLines
  import FortranStripper

  datatype File = Missing | Unreadable(reason: string) | Contents(text: seq<Byte>)

  datatype ReadError =
    | FileNotFound
    | IoError(reason: string)
    | InvalidLineRange(requested: string, totalLines: nat)

  const USIZE_MAX: nat := 0xFFFF_FFFF_FFFF_FFFF

  /** An unsigned machine integer as the standard library parses it: an optional plus
      sign, at least one digit, nothing else, and no overflow. */
  function ParseUsize(s: string): Option<nat> {
    var digits := if s != [] && s[0] == '+' then s[1..] else s;
    if digits == [] || exists c | c in digits :: !IsDigit(c) then None
    else if DecimalValue(digits) > USIZE_MAX then None
    else Some(DecimalValue(digits))
  }

  function SplitAt(s: string, separator: char): (parts: seq<string>)
    ensures parts != []
  {
    if s == [] then [[]]
    else
      var rest := SplitAt(s[1..], separator);
      if s[0] == separator then [[]] + rest else [[s[0]] + rest[0]] + rest[1..]
  }

  function Skip<T>(s: seq<T>, n: nat): seq<T> {
    if n <= |s| then s[n..] else []
  }

  function Take<T>(s: seq<T>, n: nat): seq<T> {
    if n <= |s| then s[..n] else s
  }

  function Min(a: nat, b: nat): nat {
    if a <= b then a else b
  }

  function ReadLines(file: File, lineRange: Option<string>, withNoise: bool, strip: seq<Byte> -> seq<Byte>)
    : Result<(seq<Byte>, nat), ReadError>
  {
    if file.Missing? then Err(FileNotFound)
    else if file.Unreadable? then Err(IoError(file.reason))
    else
      var totalLines := |Lines(file.text)|;
      var processed := if withNoise then file.text else strip(file.text);
      if lineRange.None? then Ok((processed, totalLines)) else
      var invalid := InvalidLineRange(lineRange.value, totalLines);
      var parts := SplitAt(lineRange.value, ':');
      if |parts| != 2 then Err(invalid) else
      var start, end := ParseUsize(parts[0]), ParseUsize(parts[1]);
      if start.None? || end.None? then Err(invalid)
      else SelectLines(Lines(processed), totalLines, lineRange.value, start.value, end.value)
  }

  function SelectLines(lines: seq<seq<Byte>>, totalLines: nat, requested: string, start: nat, end: nat)
    : Result<(seq<Byte>, nat), ReadError>
  {
    if start == 0 || end == 0 || start > end || start > totalLines then Err(InvalidLineRange(requested, totalLines))
    else
      var last := Min(end, totalLines);
      Ok((Join(Take(Skip(lines, start - 1), last - start + 1), [NEWLINE]), totalLines))
  }

  /** Splitting gives the parts without the separator, and joining them undoes it. */
  lemma {:induction false} SplitJoins(s: string, separator: char)
    ensures Join(SplitAt(s, separator), [separator]) == s
    ensures forall i | 0 <= i < |SplitAt(s, separator)| :: separator !in SplitAt(s, separator)[i]
  {
    if s == [] {
    } else {
      var rest := SplitAt(s[1..], separator);
      SplitJoins(s[1..], separator);
      if s[0] == separator {
        assert ([[]] + rest)[1..] == rest;
      } else {
        JoinGrows(s[0], rest, separator);
      }
    }
  }

  lemma JoinGrows(c: char, parts: seq<string>, separator: char)
    requires parts != []
    ensures Join([[c] + parts[0]] + parts[1..], [separator]) == [c] + Join(parts, [separator])
  {
    assert ([[c] + parts[0]] + parts[1..])[1..] == parts[1..];
  }

  /** Splitting undoes writing two separator-free texts around a separator. */
  lemma {:induction false} SplitOnce(a: string, b: string, separator: char)
    requires separator !in a && separator !in b
    ensures SplitAt(a + [separator] + b, separator) == [a, b]
    decreases |a|
  {
    var s := a + [separator] + b;
    if a == [] {
      assert s[1..] == b;
      SplitNone(b, separator);
    } else {
      assert s[1..] == a[1..] + [separator] + b;
      SplitOnce(a[1..], b, separator);
      assert a == [a[0]] + a[1..];
    }
  }

  lemma {:induction false} SplitNone(s: string, separator: char)
    requires separator !in s
    ensures SplitAt(s, separator) == [s]
  {
    if s == [] {
    } else {
      SplitNone(s[1..], separator);
      assert s == [s[0]] + s[1..];
    }
  }

  /** A stripper that keeps the lines of a text where they were. */
  ghost predicate KeepsLines(strip: seq<Byte> -> seq<Byte>) {
    forall text :: SameLines(text, strip(text))
  }

  /** The request is these two numbers around one colon, and they name lines of the file. */
  ghost predicate Requests(requested: string, totalLines: nat, a: string, b: string) {
    && ':' !in a && ':' !in b && requested == a + ":" + b
    && ParseUsize(a).Some? && ParseUsize(b).Some?
    && 1 <= ParseUsize(a).value <= ParseUsize(b).value && ParseUsize(a).value <= totalLines
  }

  /** A range checked against the raw text never runs past the stripped one: the answer is
      exactly the requested lines, cut at the end of the file. */
  lemma RangeSelects(text: seq<Byte>, requested: string, a: string, b: string, withNoise: bool,
      strip: seq<Byte> -> seq<Byte>)
    requires KeepsLines(strip) && Requests(requested, |Lines(text)|, a, b)
    ensures var lines := Lines(if withNoise then text else strip(text));
      |lines| == |Lines(text)|
      && ReadLines(Contents(text), Some(requested), withNoise, strip)
        == Ok((Join(lines[ParseUsize(a).value - 1..Min(ParseUsize(b).value, |lines|)], [NEWLINE]), |lines|))
  {
    SplitOnce(a, b, ':');
    assert SameLines(text, strip(text));
    SameLineCount(text, strip(text));
    SelectsSlice(Lines(if withNoise then text else strip(text)), requested, ParseUsize(a).value, ParseUsize(b).value);
  }

  /** And any other request is refused, with the number of lines there are. */
  lemma RangeRefused(text: seq<Byte>, requested: string, withNoise: bool, strip: seq<Byte> -> seq<Byte>)
    ensures (exists a, b :: Requests(requested, |Lines(text)|, a, b))
      || ReadLines(Contents(text), Some(requested), withNoise, strip) == Err(InvalidLineRange(requested, |Lines(text)|))
  {
    var parts := SplitAt(requested, ':');
    SplitJoins(requested, ':');
    if ReadLines(Contents(text), Some(requested), withNoise, strip) != Err(InvalidLineRange(requested, |Lines(text)|)) {
      assert |parts| == 2;
      assert Join(parts[1..], ":") == parts[1];
      assert Requests(requested, |Lines(text)|, parts[0], parts[1]);
    }
  }

  /** For every language whose comments a lexer strips. */
  lemma LexedRangeSelects<S(!new)>(step: Lexer<S>, code: S, text: seq<Byte>, requested: string, a: string, b: string)
    requires Requests(requested, |Lines(text)|, a, b)
    ensures var lines := Lines(Strip(step, code, text));
      |lines| == |Lines(text)|
      && ReadLines(Contents(text), Some(requested), false, (t: seq<Byte>) => Strip(step, code, t))
        == Ok((Join(lines[ParseUsize(a).value - 1..Min(ParseUsize(b).value, |lines|)], [NEWLINE]), |lines|))
  {
    LexersKeepLines(step, code);
    RangeSelects(text, requested, a, b, false, (t: seq<Byte>) => Strip(step, code, t));
  }

  /** And for Fortran, whose stripping may shorten lines. */
  lemma FortranRangeSelects(text: seq<Byte>, requested: string, a: string, b: string)
    requires Requests(requested, |Lines(text)|, a, b)
    ensures var lines := Lines(FortranStripper.StripText(text));
      |lines| == |Lines(text)|
      && ReadLines(Contents(text), Some(requested), false, FortranStripper.StripText)
        == Ok((Join(lines[ParseUsize(a).value - 1..Min(ParseUsize(b).value, |lines|)], [NEWLINE]), |lines|))
  {
    FortranKeepsLines();
    RangeSelects(text, requested, a, b, false, FortranStripper.StripText);
  }

  lemma SelectsSlice(lines: seq<seq<Byte>>, requested: string, start: nat, end: nat)
    ensures SelectLines(lines, |lines|, requested, start, end)
         == if 1 <= start <= end && start <= |lines|
           then Ok((Join(lines[start - 1..Min(end, |lines|)], [NEWLINE]), |lines|))
            else Err(InvalidLineRange(requested, |lines|))
  {
    if 1 <= start <= end && start <= |lines| {
      Slice(lines, start - 1, Min(end, |lines|));
    }
  }

  lemma Slice<T>(s: seq<T>, lo: nat, hi: nat)
    requires lo <= hi <= |s|
    ensures Take(Skip(s, lo), hi - lo) == s[lo..hi]
  {
  }

  /** Every stripper driven by a lexer keeps lines. */
  lemma LexersKeepLines<S(!new)>(step: Lexer<S>, code: S)
    ensures KeepsLines((text: seq<Byte>) => Strip(step, code, text))
  {
    forall text: seq<Byte> ensures SameLines(text, Strip(step, code, text)) {
      ShapeKept(step, code, text);
      ShapeKeepsLines(text, Strip(step, code, text));
    }
  }

  lemma {:induction false} FortranSameLines(text: seq<Byte>)
    ensures SameLines(text, FortranStripper.StripText(text))
    decreases |text|
  {
    FortranStripper.StripCut(text);
    if LineEnd(text) < |text| {
      FortranSameLines(text[LineEnd(text) + 1..]);
    } else {
      assert text[..LineEnd(text)] == text;
    }
  }

  lemma FortranKeepsLines()
    ensures KeepsLines(FortranStripper.StripText)
  {
    forall text: seq<Byte> ensures SameLines(text, FortranStripper.StripText(text)) {
      FortranSameLines(text);
    }
  }

  /** The lines of a stripped Fortran text are the stripped forms of the same raw lines. */
  lemma {:induction false} FortranLinesStripped(text: seq<Byte>, i: nat)
    requires i < |Records(text)|
    ensures |Records(FortranStripper.StripText(text))| == |Records(text)|
    ensures Records(FortranStripper.StripText(text))[i]
         == Record(FortranStripper.StripLine(Records(text)[i].line), Records(text)[i].ended)
    decreases |text|
  {
    var n, out := LineEnd(text), FortranStripper.StripText(text);
    FortranSameLines(text);
    SameLineCount(text, out);
    FortranStripper.StripCut(text);
    if n == |text| {
      assert text[..n] == text;
      assert out[..|out|] == out;
    } else {
      RecordAt(text, i);
      RecordAt(out, i);
      if i > 0 {
        FortranLinesStripped(text[n + 1..], i - 1);
      }
    }
  }

  /** Without a range the whole text is read, stripped or not, and its lines are counted as they
      were before; a file that is not there or cannot be read is refused whatever was asked. */
  lemma ReadsWhole(file: File, lineRange: Option<string>, withNoise: bool, strip: seq<Byte> -> seq<Byte>)
    requires KeepsLines(strip)
    ensures file.Contents? && lineRange == None ==>
      var content := if withNoise then file.text else strip(file.text);
      ReadLines(file, lineRange, withNoise, strip) == Ok((content, |Lines(content)|))
      && |Lines(content)| == |Lines(file.text)|
    ensures file == Missing ==> ReadLines(file, lineRange, withNoise, strip) == Err(FileNotFound)
    ensures forall reason ::
      file == Unreadable(reason) ==> ReadLines(file, lineRange, withNoise, strip) == Err(IoError(reason))
  {
    if file.Contents? {
      assert SameLines(file.text, strip(file.text));
      SameLineCount(file.text, strip(file.text));
    }
  }

  /** A number is digits, with or without a plus sign before them, and not too large. */
  lemma ParsesExactly(s: string, n: nat)
    ensures ParseUsize(s) == Some(n)
      <==> (n <= 18446744073709551615
            && exists digits: string :: IsNumeral(digits, n) && (s == digits || s == "+" + digits))
  {
    var digits := if s != [] && s[0] == '+' then s[1..] else s;
    if ParseUsize(s) == Some(n) {
      assert IsNumeral(digits, n) && (s == digits || s == "+" + digits);
    }
    if d: string :| IsNumeral(d, n) && (s == d || s == "+" + d) {
      assert IsDigit(d[0]) && d == digits by {
        assert d[0] in d;
        assert ("+" + d)[1..] == d;
      }
    }
  }

  ghost predicate IsNumeral(digits: string, n: nat) {
    digits != [] && (forall c | c in digits :: IsDigit(c)) && DecimalValue(digits) == n
  }
}
