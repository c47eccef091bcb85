/** Comment stripping for Dart. */
module DartStripper {
  import opened Lexing
  import opened LexerSteps

  datatype State =
    | Code
    | SingleQuote | DoubleQuote
    | TripleSingleQuote | TripleDoubleQuote
    | RawSingleQuote | RawDoubleQuote
    | LineComment | BlockComment

  const LETTER_R: Byte := 114
  const TRIPLE_SINGLE: seq<Byte> := [SINGLE_QUOTE, SINGLE_QUOTE, SINGLE_QUOTE]
  const TRIPLE_DOUBLE: seq<Byte> := [DOUBLE_QUOTE, DOUBLE_QUOTE, DOUBLE_QUOTE]

  function CodeToken(rest: seq<Byte>): (t: Token<State>)
    requires rest != []
    ensures 1 <= t.length <= |rest|
  {
    if StartsWith(rest, TRIPLE_SINGLE) then Token(3, false, TripleSingleQuote)
    else if StartsWith(rest, TRIPLE_DOUBLE) then Token(3, false, TripleDoubleQuote)
    else if StartsWith(rest, [LETTER_R, SINGLE_QUOTE]) then Token(2, false, RawSingleQuote)
    else if StartsWith(rest, [LETTER_R, DOUBLE_QUOTE]) then Token(2, false, RawDoubleQuote)
    else if StartsWith(rest, [SLASH, SLASH]) then Token(2, false, LineComment)
    else if StartsWith(rest, [SLASH, STAR]) then Token(2, false, BlockComment)
    else if rest[0] == SINGLE_QUOTE then Token(1, false, SingleQuote)
    else if rest[0] == DOUBLE_QUOTE then Token(1, false, DoubleQuote)
    else Token(1, false, Code)
  }

  function Step(s: State, rest: seq<Byte>): (t: Token<State>)
    ensures rest != [] ==> 1 <= t.length <= |rest|
  {
    if rest == [] then Token(0, false, s) else
    match s
    case Code => CodeToken(rest)
    case SingleQuote => EscapedToken(rest, SINGLE_QUOTE, Code, s)
    case DoubleQuote => EscapedToken(rest, DOUBLE_QUOTE, Code, s)
    case TripleSingleQuote => UntilToken(rest, TRIPLE_SINGLE, Code, s)
    case TripleDoubleQuote => UntilToken(rest, TRIPLE_DOUBLE, Code, s)
    case RawSingleQuote => RawToken(rest, [SINGLE_QUOTE], Code, s)
    case RawDoubleQuote => RawToken(rest, [DOUBLE_QUOTE], Code, s)
    case LineComment => LineCommentToken(rest, Code, s)
    case BlockComment => BlockCommentToken(rest, Code, s)
  }

  const DART: Lexer<State> := Step

  lemma DartStable()
    ensures Stable(DART)
  {
    forall s, rest, out | rest != [] && Masks(rest, out) && Emits(DART(s, rest), rest, out)
      ensures DART(s, out) == DART(s, rest)
    {
      StableAt(s, rest, out);
    }
  }

  lemma StableAt(s: State, rest: seq<Byte>, out: seq<Byte>)
    requires rest != [] && Masks(rest, out) && Emits(Step(s, rest), rest, out)
    ensures Step(s, out) == Step(s, rest)
  {
    if s == Code {
      CodeStable(rest, out);
    }
  }

  lemma CodeStable(rest: seq<Byte>, out: seq<Byte>)
    requires rest != [] && Masks(rest, out) && Emits(CodeToken(rest), rest, out)
    ensures CodeToken(out) == CodeToken(rest)
  {
  }

  const LINE_COMMENT := Region([SLASH, SLASH], [NEWLINE], LineComment, true, Nothing)
  const BLOCK_COMMENT := Region([SLASH, STAR], [STAR, SLASH], BlockComment, true, Nothing)
  const SINGLE := Region([SINGLE_QUOTE], [SINGLE_QUOTE], SingleQuote, false, Backslash)
  const DOUBLE := Region([DOUBLE_QUOTE], [DOUBLE_QUOTE], DoubleQuote, false, Backslash)
  const TRIPLE_SINGLE_STRING := Region(TRIPLE_SINGLE, TRIPLE_SINGLE, TripleSingleQuote, false, Backslash)
  const TRIPLE_DOUBLE_STRING := Region(TRIPLE_DOUBLE, TRIPLE_DOUBLE, TripleDoubleQuote, false, Backslash)
  const RAW_SINGLE := Region([LETTER_R, SINGLE_QUOTE], [SINGLE_QUOTE], RawSingleQuote, false, Nothing)
  const RAW_DOUBLE := Region([LETTER_R, DOUBLE_QUOTE], [DOUBLE_QUOTE], RawDoubleQuote, false, Nothing)

  /** In the order in which code looks for them. */
  const REGIONS: seq<Region<State>> := [
    TRIPLE_SINGLE_STRING, TRIPLE_DOUBLE_STRING, RAW_SINGLE, RAW_DOUBLE,
    LINE_COMMENT, BLOCK_COMMENT, SINGLE, DOUBLE]

  /** Whatever the text, every comment is blanked up to where it ends, or to the end of the
      text, and every string copied, comment markers inside it included.  A one-quote string
      must not look like the start of a three-quote one. */
  lemma RegionKept(r: Region<State>, text: seq<Byte>, n: nat)
    requires r in REGIONS && Extends(r, text, n)
    requires r == SINGLE ==> !StartsWith(r.open + text, TRIPLE_SINGLE)
    requires r == DOUBLE ==> !StartsWith(r.open + text, TRIPLE_DOUBLE)
    ensures Strip(DART, Code, r.open + text) == r.open + (Emit(text[..n], r.blank) + Beyond(DART, Code, r, text, n))
  {
    Opens(r, text);
    forall k: nat | k < |text| ensures DART(r.inside, text[k..]) == InsideToken(r, Code, text[k..]) {
      ReadInside(r, text[k..]);
    }
    RegionStripped(DART, Code, r, text, n);
  }

  lemma Opens(r: Region<State>, text: seq<Byte>)
    requires r in REGIONS
    requires r == SINGLE ==> !StartsWith(r.open + text, TRIPLE_SINGLE)
    requires r == DOUBLE ==> !StartsWith(r.open + text, TRIPLE_DOUBLE)
    ensures DART(Code, r.open + text) == Token(|r.open|, false, r.inside)
  {
    var rest := r.open + text;
    assert forall i | 0 <= i < |r.open| :: rest[i] == r.open[i];
    StartsWithThree(rest, SINGLE_QUOTE, SINGLE_QUOTE, SINGLE_QUOTE);
    StartsWithThree(rest, DOUBLE_QUOTE, DOUBLE_QUOTE, DOUBLE_QUOTE);
    StartsWithTwo(rest, LETTER_R, SINGLE_QUOTE);
    StartsWithTwo(rest, LETTER_R, DOUBLE_QUOTE);
    StartsWithTwo(rest, SLASH, SLASH);
    StartsWithTwo(rest, SLASH, STAR);
  }

  lemma ReadInside(r: Region<State>, rest: seq<Byte>)
    requires r in REGIONS && rest != []
    ensures DART(r.inside, rest) == InsideToken(r, Code, rest)
  {
    match r.inside
    case SingleQuote => EscapedInside(r, SINGLE_QUOTE, Code, rest);
    case DoubleQuote => EscapedInside(r, DOUBLE_QUOTE, Code, rest);
    case TripleSingleQuote => UntilInside(r, Code, rest);
    case TripleDoubleQuote => UntilInside(r, Code, rest);
    case RawSingleQuote => RawInside(r, Code, rest);
    case RawDoubleQuote => RawInside(r, Code, rest);
    case LineComment => LineCommentInside(r, Code, rest);
    case BlockComment => BlockCommentInside(r, Code, rest);
  }

  lemma ReadCode(rest: seq<Byte>)
    requires rest != []
    ensures ReadsCode(DART, Code, REGIONS, rest)
  {
    StartsWithOne(rest, SINGLE_QUOTE);
    StartsWithOne(rest, DOUBLE_QUOTE);
    if StartsWith(rest, REGIONS[0].open) {
      OpeningAt(REGIONS, rest, 0);
    } else if StartsWith(rest, REGIONS[1].open) {
      OpeningAt(REGIONS, rest, 1);
    } else if StartsWith(rest, REGIONS[2].open) {
      OpeningAt(REGIONS, rest, 2);
    } else if StartsWith(rest, REGIONS[3].open) {
      OpeningAt(REGIONS, rest, 3);
    } else if StartsWith(rest, REGIONS[4].open) {
      OpeningAt(REGIONS, rest, 4);
    } else if StartsWith(rest, REGIONS[5].open) {
      OpeningAt(REGIONS, rest, 5);
    } else if StartsWith(rest, REGIONS[6].open) {
      OpeningAt(REGIONS, rest, 6);
    } else if StartsWith(rest, REGIONS[7].open) {
      OpeningAt(REGIONS, rest, 7);
    } else {
      OpeningNowhere(REGIONS, rest);
    }
  }

  /** What is left of a text is the text with each comment's content blanked, where comments and
      strings are what a cut of the text from left to right gives. */
  lemma CutIntoRegions(text: seq<Byte>)
    ensures Strip(DART, Code, text) == Masked(REGIONS, text)
  {
    forall k: nat, i | k < |text| && 0 <= i < |REGIONS|
      ensures DART(REGIONS[i].inside, text[k..]) == InsideToken(REGIONS[i], Code, text[k..])
    {
      ReadInside(REGIONS[i], text[k..]);
    }
    forall k: nat | k < |text| ensures ReadsCode(DART, Code, REGIONS, text[k..]) {
      ReadCode(text[k..]);
    }
    StripMasked(DART, Code, REGIONS, text);
  }

  /** What a second pass does to Dart output: it meets the same state at every index, and
      it changes nothing exactly when every byte outside ASCII was in a comment. */
  lemma SecondPass(bytes: seq<Byte>)
    ensures Trace(DART, Code, Strip(DART, Code, bytes)) == Trace(DART, Code, bytes)
    ensures Strip(DART, Code, Utf8(Strip(DART, Code, bytes))) == Strip(DART, Code, bytes)
       <==> ForeignBytesBlanked(DART, Code, bytes)
  {
    DartStable();
    SameTrace(DART, Code, bytes);
    IdempotentExactly(DART, Code, bytes);
  }

  method StripDartNoise(bytes: seq<Byte>) returns (out: seq<Byte>)
    ensures out == Strip(DART, Code, bytes)
    ensures |out| == |bytes|
    ensures forall i | 0 <= i < |bytes| :: out[i] == NEWLINE <==> bytes[i] == NEWLINE
  {
    ShapeKept(DART, Code, bytes);
    out := [];
    var i, state := 0, Code;
    while i < |bytes|
      invariant i <= |bytes| + 1
      invariant out + Strip(DART, state, Unread(bytes, i)) == Strip(DART, Code, bytes)
      decreases |bytes| + 1 - i
    {
      var out', i', state' := StripStep(bytes, out, i, state);
      TookKeeps(DART, bytes, state, out, i, out', i', state');
      out, i, state := out', i', state';
    }
  }

  method StripStep(bytes: seq<Byte>, out: seq<Byte>, i: nat, s: State)
    returns (out': seq<Byte>, i': nat, s': State)
    requires i < |bytes|
    ensures Took(DART(s, bytes[i..]), bytes, out, i, out', i', s')
  {
    match s {
      case Code =>
        out', i', s' := StepCode(bytes, out, i);
      case SingleQuote =>
        out', i', s' := PushWithEscape(bytes, out, i, SINGLE_QUOTE, Code, s);
      case DoubleQuote =>
        out', i', s' := PushWithEscape(bytes, out, i, DOUBLE_QUOTE, Code, s);
      case TripleSingleQuote =>
        out', i', s' := PushUntil(bytes, out, i, TRIPLE_SINGLE, Code, s);
      case TripleDoubleQuote =>
        out', i', s' := PushUntil(bytes, out, i, TRIPLE_DOUBLE, Code, s);
      case RawSingleQuote =>
        out', i', s' := PushRawUntil(bytes, out, i, [SINGLE_QUOTE], Code, s);
      case RawDoubleQuote =>
        out', i', s' := PushRawUntil(bytes, out, i, [DOUBLE_QUOTE], Code, s);
      case LineComment =>
        out', i', s' := PushLineComment(bytes, out, i, Code, s);
      case BlockComment =>
        out', i', s' := PushBlockComment(bytes, out, i, Code, s);
    }
  }

  method StepCode(bytes: seq<Byte>, out: seq<Byte>, i: nat) returns (out': seq<Byte>, i': nat, s': State)
    requires i < |bytes|
    ensures Took(CodeToken(bytes[i..]), bytes, out, i, out', i', s')
  {
    if StartsWith(bytes[i..], TRIPLE_SINGLE) {
      return out + TRIPLE_SINGLE, i + 3, TripleSingleQuote;
    }
    if StartsWith(bytes[i..], TRIPLE_DOUBLE) {
      return out + TRIPLE_DOUBLE, i + 3, TripleDoubleQuote;
    }
    if StartsWith(bytes[i..], [LETTER_R, SINGLE_QUOTE]) {
      return out + [LETTER_R, SINGLE_QUOTE], i + 2, RawSingleQuote;
    }
    if StartsWith(bytes[i..], [LETTER_R, DOUBLE_QUOTE]) {
      return out + [LETTER_R, DOUBLE_QUOTE], i + 2, RawDoubleQuote;
    }
    if StartsWith(bytes[i..], [SLASH, SLASH]) {
      return out + [SLASH, SLASH], i + 2, LineComment;
    }
    if StartsWith(bytes[i..], [SLASH, STAR]) {
      return out + [SLASH, STAR], i + 2, BlockComment;
    }
    out', i' := out + [bytes[i]], i + 1;
    s' := if bytes[i] == SINGLE_QUOTE then SingleQuote else if bytes[i] == DOUBLE_QUOTE then DoubleQuote else Code;
  }
}
