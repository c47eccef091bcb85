/** Comment stripping for Fortran, which works line by line. */
module FortranStripper {
  import opened Prelude
  import opened Lexing
  import opened LexerSteps
  import opened TextLines

  datatype State = Code | SingleQuote | DoubleQuote | LineComment

  const BANG: Byte := 33
  const UPPER_C: Byte := 67
  const LOWER_C: Byte := 99

  /** Inside a string, where a doubled terminator stands for one and does not end it. */
  function QuoteToken(rest: seq<Byte>, terminator: Byte, s: State): (t: Token<State>)
    requires rest != []
    ensures 1 <= t.length <= |rest|
  {
    if rest[0] != terminator then Token(1, false, s)
    else if |rest| > 1 && rest[1] == terminator then Token(2, false, s)
    else Token(1, false, Code)
  }

  function CodeToken(rest: seq<Byte>): (t: Token<State>)
    requires rest != []
    ensures 1 <= t.length <= |rest|
  {
    Token(1, false,
      if rest[0] == BANG then LineComment
      else if rest[0] == SINGLE_QUOTE then SingleQuote
      else if rest[0] == DOUBLE_QUOTE then DoubleQuote
      else Code)
  }

  function Step(s: State, rest: seq<Byte>): (t: Token<State>)
    ensures rest != [] ==> 1 <= t.length <= |rest|
  {
    if rest == [] then Token(0, false, s) else
    match s
    case Code => CodeToken(rest)
    case SingleQuote => QuoteToken(rest, SINGLE_QUOTE, s)
    case DoubleQuote => QuoteToken(rest, DOUBLE_QUOTE, s)
    case LineComment => Token(1, true, s)
  }

  const FORTRAN: Lexer<State> := Step

  lemma FortranStable()
    ensures Stable(FORTRAN)
  {
    forall s, rest, out | rest != [] && Masks(rest, out) && Emits(FORTRAN(s, rest), rest, out)
      ensures FORTRAN(s, out) == FORTRAN(s, rest)
    {
      StableAt(s, rest, out);
    }
  }

  lemma StableAt(s: State, rest: seq<Byte>, out: seq<Byte>)
    requires rest != [] && Masks(rest, out) && Emits(Step(s, rest), rest, out)
    ensures Step(s, out) == Step(s, rest)
  {
  }

  const LINE_COMMENT := Region([BANG], [NEWLINE], LineComment, true, Nothing)
  const SINGLE := Region([SINGLE_QUOTE], [SINGLE_QUOTE], SingleQuote, false, Doubling)
  const DOUBLE := Region([DOUBLE_QUOTE], [DOUBLE_QUOTE], DoubleQuote, false, Doubling)

  /** In the order in which code looks for them. */
  const REGIONS: seq<Region<State>> := [LINE_COMMENT, SINGLE, DOUBLE]

  /** Within a line, comments are blanked to its end and strings copied. */
  lemma RegionKept(r: Region<State>, text: seq<Byte>, n: nat)
    requires r in REGIONS && OneLine(text) && Extends(r, text, n)
    ensures Strip(FORTRAN, Code, r.open + text)
      == r.open + (Emit(text[..n], r.blank) + Beyond(FORTRAN, Code, r, text, n))
  {
    forall k: nat | k < |text| ensures FORTRAN(r.inside, text[k..]) == InsideToken(r, Code, text[k..]) {
      StartsWithOne(text[k..], r.close[0]);
    }
    RegionStripped(FORTRAN, Code, r, text, n);
  }

  lemma ReadCode(rest: seq<Byte>)
    requires rest != []
    ensures ReadsCode(FORTRAN, Code, REGIONS, rest)
  {
    StartsWithOne(rest, SINGLE_QUOTE);
    StartsWithOne(rest, DOUBLE_QUOTE);
    StartsWithOne(rest, BANG);
    if StartsWith(rest, REGIONS[0].open) {
      OpeningAt(REGIONS, rest, 0);
    } else if StartsWith(rest, REGIONS[1].open) {
      OpeningAt(REGIONS, rest, 1);
    } else if StartsWith(rest, REGIONS[2].open) {
      OpeningAt(REGIONS, rest, 2);
    } else {
      OpeningNowhere(REGIONS, rest);
    }
  }

  /** A stripped line is the text with each comment's content blanked, where comments and
      strings are what a cut of the text from left to right gives. */
  lemma CutIntoRegions(text: seq<Byte>)
    requires OneLine(text)
    ensures Strip(FORTRAN, Code, text) == Masked(REGIONS, text)
  {
    forall k: nat, i | k < |text| && 0 <= i < |REGIONS|
      ensures FORTRAN(REGIONS[i].inside, text[k..]) == InsideToken(REGIONS[i], Code, text[k..])
    {
      StartsWithOne(text[k..], REGIONS[i].close[0]);
    }
    forall k: nat | k < |text| ensures ReadsCode(FORTRAN, Code, REGIONS, text[k..]) {
      ReadCode(text[k..]);
    }
    StripMasked(FORTRAN, Code, REGIONS, text);
  }

  predicate IsFixedFormComment(line: seq<Byte>) {
    line != [] && line[0] in { LOWER_C, UPPER_C, STAR, BANG }
  }

  /** A byte that continues a character rather than starting one. */
  predicate Continues(b: Byte) {
    128 <= b < 192
  }

  /** One blank per character, tabs kept. */
  function BlankCharacters(text: seq<Byte>): (r: seq<Byte>)
    ensures forall i | 0 <= i < |r| :: r[i] == TAB || r[i] == SPACE
  {
    if text == [] then []
    else if Continues(text[0]) then BlankCharacters(text[1..])
    else [if text[0] == TAB then TAB else SPACE] + BlankCharacters(text[1..])
  }

  function StripLine(line: seq<Byte>): seq<Byte> {
    if IsFixedFormComment(line) then [line[0]] + BlankCharacters(line[1..])
    else Strip(FORTRAN, Code, line)
  }

  function StripText(content: seq<Byte>): seq<Byte>
    decreases |content|
  {
    var n := LineEnd(content);
    if n == |content| then StripLine(content)
    else StripLine(content[..n]) + [NEWLINE] + StripText(content[n + 1..])
  }

  lemma StripFirst(line: seq<Byte>, rest: seq<Byte>)
    requires OneLine(line)
    ensures StripText(line + [NEWLINE] + rest) == StripLine(line) + [NEWLINE] + StripText(rest)
  {
    CutAt(line, rest);
  }

  /** Stripping never looks across a newline. */
  lemma {:induction false} StripDistributes(a: seq<Byte>, b: seq<Byte>)
    ensures StripText(a + [NEWLINE] + b) == StripText(a) + [NEWLINE] + StripText(b)
    decreases |a|
  {
    var n := LineEnd(a);
    if n == |a| {
      assert a[..n] == a;
      StripFirst(a, b);
    } else {
      var line, rest := a[..n], a[n + 1..];
      AtFirstCut(a);
      RegroupLines(line, rest, b);
      StripFirst(line, rest + [NEWLINE] + b);
      StripFirst(line, rest);
      StripDistributes(rest, b);
      RegroupLines(StripLine(line), StripText(rest), StripText(b));
    }
  }

  /** A stripped text is cut where the text was. */
  lemma StripCut(text: seq<Byte>)
    ensures var n, out := LineEnd(text), StripText(text);
      var m := LineEnd(out);
      OneLine(text[..n]) && out[..m] == StripLine(text[..n])
      && (n == |text| <==> m == |out|)
      && (n < |text| ==> out[m + 1..] == StripText(text[n + 1..]))
  {
    var n := LineEnd(text);
    StripLineIsOneLine(text[..n]);
    if n == |text| {
      assert text[..n] == text;
      Uncut(StripLine(text));
    } else {
      CutAt(StripLine(text[..n]), StripText(text[n + 1..]));
    }
  }

  lemma StripLineIsOneLine(line: seq<Byte>)
    requires OneLine(line)
    ensures OneLine(StripLine(line))
  {
    if !IsFixedFormComment(line) {
      ShapeKept(FORTRAN, Code, line);
    }
  }

  // --- A second pass

  lemma {:induction false} Utf8Concat(a: seq<Byte>, b: seq<Byte>)
    ensures Utf8(a + b) == Utf8(a) + Utf8(b)
  {
    if a == [] {
      assert a + b == b;
    } else {
      assert (a + b)[1..] == a[1..] + b;
      Utf8Concat(a[1..], b);
    }
  }

  lemma {:induction false} Utf8OneLine(text: seq<Byte>)
    requires OneLine(text)
    ensures OneLine(Utf8(text))
  {
    if text == [] {
    } else {
      assert OneLine(text[1..]);
      Utf8OneLine(text[1..]);
    }
  }

  /** Every byte outside ASCII lies in a comment of this line. */
  ghost predicate LineClean(line: seq<Byte>) {
    IsFixedFormComment(line) || ForeignBytesBlanked(FORTRAN, Code, line)
  }

  lemma {:induction false} BlanksAgain(text: seq<Byte>)
    requires forall i | 0 <= i < |text| :: text[i] == TAB || text[i] == SPACE
    ensures BlankCharacters(text) == text
  {
    if text == [] {
    } else {
      BlanksAgain(text[1..]);
    }
  }

  lemma FirstByteKept(line: seq<Byte>)
    requires line != [] && !IsFixedFormComment(line)
    ensures Strip(FORTRAN, Code, line)[0] == line[0]
    ensures !IsFixedFormComment(Utf8(Strip(FORTRAN, Code, line)))
  {
  }

  lemma LineIdempotentExactly(line: seq<Byte>)
    ensures StripLine(Utf8(StripLine(line))) == StripLine(line) <==> LineClean(line)
  {
    var out := StripLine(line);
    AsciiEncoding(out);
    if IsFixedFormComment(line) {
      assert Utf8(out) == out;
      BlanksAgain(out[1..]);
    } else {
      FortranStable();
      IdempotentExactly(FORTRAN, Code, line);
      if line != [] {
        FirstByteKept(line);
      }
    }
  }

  /** Every byte outside ASCII lies in a comment of its line. */
  ghost predicate TextClean(content: seq<Byte>)
    decreases |content|
  {
    var n := LineEnd(content);
    LineClean(content[..n]) && (n < |content| ==> TextClean(content[n + 1..]))
  }

  /** Stripping Fortran twice is stripping it once exactly when every byte outside ASCII
      lies in a comment. */
  lemma {:induction false} FortranIdempotentExactly(content: seq<Byte>)
    ensures StripText(Utf8(StripText(content))) == StripText(content) <==> TextClean(content)
    decreases |content|
  {
    var n := LineEnd(content);
    var line := content[..n];
    LineIdempotentExactly(line);
    StripLineIsOneLine(line);
    var out := StripLine(line);
    Utf8OneLine(out);
    OneLineText(Utf8(out));
    if n == |content| {
      assert line == content;
    } else {
      var rest := content[n + 1..];
      FortranIdempotentExactly(rest);
      Utf8Concat(out + [NEWLINE], StripText(rest));
      Utf8Concat(out, [NEWLINE]);
      assert Utf8([NEWLINE]) == [NEWLINE];
      StripDistributes(Utf8(out), Utf8(StripText(rest)));
      StripLineIsOneLine(Utf8(out));
      SameCut(StripLine(Utf8(out)), StripText(Utf8(StripText(rest))), out, StripText(rest));
    }
  }

  lemma OneLineText(line: seq<Byte>)
    requires OneLine(line)
    ensures StripText(line) == StripLine(line)
  {
    Uncut(line);
  }

  // --- The program

  method StripFortranNoise(content: seq<Byte>) returns (out: seq<Byte>)
    ensures out == StripText(content)
  {
    out := [];
    var rest := content;
    while rest != []
      invariant out + StripText(rest) == StripText(content)
      decreases |rest|
    {
      var n := LineEnd(rest);
      var line := StripFortranLine(rest[..n]);
      if n < |rest| {
        Assoc(out, line + [NEWLINE], StripText(rest[n + 1..]));
        Assoc(out, line, [NEWLINE]);
        out := out + line + [NEWLINE];
        rest := rest[n + 1..];
      } else {
        assert rest[..n] == rest;
        out := out + line;
        rest := [];
      }
    }
  }

  method BlankFixedForm(line: seq<Byte>) returns (out: seq<Byte>)
    requires line != []
    ensures out == [line[0]] + BlankCharacters(line[1..])
  {
    out := [line[0]];
    var i := 1;
    while i < |line|
      invariant 1 <= i <= |line|
      invariant out + BlankCharacters(line[i..]) == [line[0]] + BlankCharacters(line[1..])
    {
      assert line[i..][1..] == line[i + 1..];
      if !Continues(line[i]) {
        out := out + [if line[i] == TAB then TAB else SPACE];
      }
      i := i + 1;
    }
  }

  method StripFortranLine(line: seq<Byte>) returns (out: seq<Byte>)
    requires OneLine(line)
    ensures out == StripLine(line)
  {
    if IsFixedFormComment(line) {
      out := BlankFixedForm(line);
      return;
    }
    out := [];
    var i, state := 0, Code;
    while i < |line|
      invariant i <= |line| + 1
      invariant out + Strip(FORTRAN, state, Unread(line, i)) == Strip(FORTRAN, Code, line)
      decreases |line| + 1 - i
    {
      var out', i', state' := StepLine(line, out, i, state);
      TookKeeps(FORTRAN, line, state, out, i, out', i', state');
      out, i, state := out', i', state';
    }
  }

  method StepLine(line: seq<Byte>, out: seq<Byte>, i: nat, s: State)
    returns (out': seq<Byte>, i': nat, s': State)
    requires i < |line| && OneLine(line)
    ensures Took(FORTRAN(s, line[i..]), line, out, i, out', i', s')
  {
    out', i', s' := out + [line[i]], i + 1, s;
    match s {
      case Code =>
        s' := if line[i] == BANG then LineComment
              else if line[i] == SINGLE_QUOTE then SingleQuote
              else if line[i] == DOUBLE_QUOTE then DoubleQuote
              else Code;
      case SingleQuote =>
        out', i', s' := PushQuote(line, out, i, SINGLE_QUOTE, s);
      case DoubleQuote =>
        out', i', s' := PushQuote(line, out, i, DOUBLE_QUOTE, s);
      case LineComment =>
        assert line[i] != NEWLINE;
        out' := out + [SPACE];
    }
  }

  method PushQuote(bytes: seq<Byte>, out: seq<Byte>, i: nat, terminator: Byte, s: State)
    returns (out': seq<Byte>, i': nat, s': State)
    requires i < |bytes|
    ensures Took(QuoteToken(bytes[i..], terminator, s), bytes, out, i, out', i', s')
  {
    out', i', s' := out + [bytes[i]], i, s;
    if bytes[i] == terminator {
      if i + 1 < |bytes| && bytes[i + 1] == terminator {
        out' := out' + [terminator];
        i' := i' + 2;
        return;
      }
      s' := Code;
    }
    i' := i' + 1;
  }

  // --- Fixed-form comment lines

  predicate StartsCharacter(b: Byte) {
    !(128 <= b < 192)
  }

  /** The mark in the first column stays; after it, each character is blanked and each tab kept. */
  lemma FixedFormBlanked(line: seq<Byte>)
    requires line != [] && line[0] in { 'c' as int, 'C' as int, '*' as int, '!' as int }
    ensures var out, characters := StripLine(line), Filter(StartsCharacter, line[1..]);
      |out| == 1 + |characters| && out[0] == line[0]
      && forall i | 0 <= i < |characters| :: out[i + 1] == if characters[i] == 9 then 9 else 32
  {
    BlankedCharacters(line[1..]);
  }

  lemma {:induction false} BlankedCharacters(text: seq<Byte>)
    ensures var out, characters := BlankCharacters(text), Filter(StartsCharacter, text);
      |out| == |characters| && forall i | 0 <= i < |characters| :: out[i] == if characters[i] == 9 then 9 else 32
  {
    if text == [] {
    } else {
      BlankedCharacters(text[1..]);
    }
  }

  /** Any other line is left to the lexer. */
  lemma OtherLinesLexed(line: seq<Byte>)
    requires OneLine(line) && (line == [] || line[0] !in { 'c' as int, 'C' as int, '*' as int, '!' as int })
    ensures StripLine(line) == Masked(REGIONS, line)
  {
    CutIntoRegions(line);
  }
}
