/** Comment stripping for Elixir. */
module ElixirStripper {
  import opened Lexing
  import opened LexerSteps

  datatype State =
    | Code
    | SingleQuote | DoubleQuote
    | TripleSingleQuote | TripleDoubleQuote
    | LineComment

  const HASH: Byte := 35
  const TRIPLE_SINGLE: seq<Byte> := [SINGLE_QUOTE, SINGLE_QUOTE, SINGLE_QUOTE]
  const TRIPLE_DOUBLE: seq<Byte> := [DOUBLE_QUOTE, DOUBLE_QUOTE, DOUBLE_QUOTE]

  function CodeToken(rest: seq<Byte>): (t: Token<State>)
    requires rest != []
    ensures 1 <= t.length <= |rest|
  {
    if StartsWith(rest, TRIPLE_SINGLE) then Token(3, false, TripleSingleQuote)
    else if StartsWith(rest, TRIPLE_DOUBLE) then Token(3, false, TripleDoubleQuote)
    else if rest[0] == HASH then Token(1, false, LineComment)
    else if rest[0] == SINGLE_QUOTE then Token(1, false, SingleQuote)
    else if rest[0] == DOUBLE_QUOTE then Token(1, false, DoubleQuote)
    else Token(1, false, Code)
  }

  function Step(s: State, rest: seq<Byte>): (t: Token<State>)
    ensures rest != [] ==> 1 <= t.length <= |rest|
  {
    if rest == [] then Token(0, false, s) else
    match s
    case Code => CodeToken(rest)
    case SingleQuote => EscapedToken(rest, SINGLE_QUOTE, Code, s)
    case DoubleQuote => EscapedToken(rest, DOUBLE_QUOTE, Code, s)
    case TripleSingleQuote => RawToken(rest, TRIPLE_SINGLE, Code, s)
    case TripleDoubleQuote => RawToken(rest, TRIPLE_DOUBLE, Code, s)
    case LineComment => LineCommentToken(rest, Code, s)
  }

  const ELIXIR: Lexer<State> := Step

  lemma ElixirStable()
    ensures Stable(ELIXIR)
  {
    forall s, rest, out | rest != [] && Masks(rest, out) && Emits(ELIXIR(s, rest), rest, out)
      ensures ELIXIR(s, out) == ELIXIR(s, rest)
    {
      StableAt(s, rest, out);
    }
  }

  lemma StableAt(s: State, rest: seq<Byte>, out: seq<Byte>)
    requires rest != [] && Masks(rest, out) && Emits(Step(s, rest), rest, out)
    ensures Step(s, out) == Step(s, rest)
  {
  }

  const LINE_COMMENT := Region([HASH], [NEWLINE], LineComment, true, Nothing)
  const SINGLE := Region([SINGLE_QUOTE], [SINGLE_QUOTE], SingleQuote, false, Backslash)
  const DOUBLE := Region([DOUBLE_QUOTE], [DOUBLE_QUOTE], DoubleQuote, false, Backslash)
  const SINGLE_HEREDOC := Region(TRIPLE_SINGLE, TRIPLE_SINGLE, TripleSingleQuote, false, Nothing)
  const DOUBLE_HEREDOC := Region(TRIPLE_DOUBLE, TRIPLE_DOUBLE, TripleDoubleQuote, false, Nothing)

  /** In the order in which code looks for them. */
  const REGIONS: seq<Region<State>> := [SINGLE_HEREDOC, DOUBLE_HEREDOC, LINE_COMMENT, SINGLE, DOUBLE]

  /** Whatever the text, every comment is blanked up to where it ends, or to the end of the
      text, and every string copied, comment markers inside it included.  A one-quote string
      must not look like the start of a heredoc. */
  lemma RegionKept(r: Region<State>, text: seq<Byte>, n: nat)
    requires r in REGIONS && Extends(r, text, n)
    requires r == SINGLE ==> !StartsWith(r.open + text, TRIPLE_SINGLE)
    requires r == DOUBLE ==> !StartsWith(r.open + text, TRIPLE_DOUBLE)
    ensures Strip(ELIXIR, Code, r.open + text) == r.open + (Emit(text[..n], r.blank) + Beyond(ELIXIR, Code, r, text, n))
  {
    Opens(r, text);
    forall k: nat | k < |text| ensures ELIXIR(r.inside, text[k..]) == InsideToken(r, Code, text[k..]) {
      ReadInside(r, text[k..]);
    }
    RegionStripped(ELIXIR, Code, r, text, n);
  }

  lemma Opens(r: Region<State>, text: seq<Byte>)
    requires r in REGIONS
    requires r == SINGLE ==> !StartsWith(r.open + text, TRIPLE_SINGLE)
    requires r == DOUBLE ==> !StartsWith(r.open + text, TRIPLE_DOUBLE)
    ensures ELIXIR(Code, r.open + text) == Token(|r.open|, false, r.inside)
  {
    var rest := r.open + text;
    assert forall i | 0 <= i < |r.open| :: rest[i] == r.open[i];
    StartsWithThree(rest, SINGLE_QUOTE, SINGLE_QUOTE, SINGLE_QUOTE);
    StartsWithThree(rest, DOUBLE_QUOTE, DOUBLE_QUOTE, DOUBLE_QUOTE);
  }

  lemma ReadInside(r: Region<State>, rest: seq<Byte>)
    requires r in REGIONS && rest != []
    ensures ELIXIR(r.inside, rest) == InsideToken(r, Code, rest)
  {
    match r.inside
    case SingleQuote => EscapedInside(r, SINGLE_QUOTE, Code, rest);
    case DoubleQuote => EscapedInside(r, DOUBLE_QUOTE, Code, rest);
    case TripleSingleQuote => RawInside(r, Code, rest);
    case TripleDoubleQuote => RawInside(r, Code, rest);
    case LineComment => LineCommentInside(r, Code, rest);
  }

  lemma ReadCode(rest: seq<Byte>)
    requires rest != []
    ensures ReadsCode(ELIXIR, Code, REGIONS, rest)
  {
    StartsWithOne(rest, SINGLE_QUOTE);
    StartsWithOne(rest, DOUBLE_QUOTE);
    StartsWithOne(rest, HASH);
    if StartsWith(rest, REGIONS[0].open) {
      OpeningAt(REGIONS, rest, 0);
    } else if StartsWith(rest, REGIONS[1].open) {
      OpeningAt(REGIONS, rest, 1);
    } else if StartsWith(rest, REGIONS[2].open) {
      OpeningAt(REGIONS, rest, 2);
    } else if StartsWith(rest, REGIONS[3].open) {
      OpeningAt(REGIONS, rest, 3);
    } else if StartsWith(rest, REGIONS[4].open) {
      OpeningAt(REGIONS, rest, 4);
    } else {
      OpeningNowhere(REGIONS, rest);
    }
  }

  /** What is left of a text is the text with each comment's content blanked, where comments and
      strings are what a cut of the text from left to right gives. */
  lemma CutIntoRegions(text: seq<Byte>)
    ensures Strip(ELIXIR, Code, text) == Masked(REGIONS, text)
  {
    forall k: nat, i | k < |text| && 0 <= i < |REGIONS|
      ensures ELIXIR(REGIONS[i].inside, text[k..]) == InsideToken(REGIONS[i], Code, text[k..])
    {
      ReadInside(REGIONS[i], text[k..]);
    }
    forall k: nat | k < |text| ensures ReadsCode(ELIXIR, Code, REGIONS, text[k..]) {
      ReadCode(text[k..]);
    }
    StripMasked(ELIXIR, Code, REGIONS, text);
  }

  /** What a second pass does to Elixir output: it meets the same state at every index, and
      it changes nothing exactly when every byte outside ASCII was in a comment. */
  lemma SecondPass(bytes: seq<Byte>)
    ensures Trace(ELIXIR, Code, Strip(ELIXIR, Code, bytes)) == Trace(ELIXIR, Code, bytes)
    ensures Strip(ELIXIR, Code, Utf8(Strip(ELIXIR, Code, bytes))) == Strip(ELIXIR, Code, bytes)
       <==> ForeignBytesBlanked(ELIXIR, Code, bytes)
  {
    ElixirStable();
    SameTrace(ELIXIR, Code, bytes);
    IdempotentExactly(ELIXIR, Code, bytes);
  }

  method StripElixirNoise(bytes: seq<Byte>) returns (out: seq<Byte>)
    ensures out == Strip(ELIXIR, Code, bytes)
    ensures |out| == |bytes|
    ensures forall i | 0 <= i < |bytes| :: out[i] == NEWLINE <==> bytes[i] == NEWLINE
  {
    ShapeKept(ELIXIR, Code, bytes);
    out := [];
    var i, state := 0, Code;
    while i < |bytes|
      invariant i <= |bytes| + 1
      invariant out + Strip(ELIXIR, state, Unread(bytes, i)) == Strip(ELIXIR, Code, bytes)
      decreases |bytes| + 1 - i
    {
      var out', i', state' := StripStep(bytes, out, i, state);
      TookKeeps(ELIXIR, bytes, state, out, i, out', i', state');
      out, i, state := out', i', state';
    }
  }

  method StripStep(bytes: seq<Byte>, out: seq<Byte>, i: nat, s: State)
    returns (out': seq<Byte>, i': nat, s': State)
    requires i < |bytes|
    ensures Took(ELIXIR(s, bytes[i..]), bytes, out, i, out', i', s')
  {
    match s {
      case Code =>
        out', i', s' := StepCode(bytes, out, i);
      case SingleQuote =>
        out', i', s' := PushWithEscape(bytes, out, i, SINGLE_QUOTE, Code, s);
      case DoubleQuote =>
        out', i', s' := PushWithEscape(bytes, out, i, DOUBLE_QUOTE, Code, s);
      case TripleSingleQuote =>
        out', i', s' := PushRawUntil(bytes, out, i, TRIPLE_SINGLE, Code, s);
      case TripleDoubleQuote =>
        out', i', s' := PushRawUntil(bytes, out, i, TRIPLE_DOUBLE, Code, s);
      case LineComment =>
        out', i', s' := PushLineComment(bytes, out, i, Code, s);
    }
  }

  method StepCode(bytes: seq<Byte>, out: seq<Byte>, i: nat) returns (out': seq<Byte>, i': nat, s': State)
    requires i < |bytes|
    ensures Took(CodeToken(bytes[i..]), bytes, out, i, out', i', s')
  {
    if StartsWith(bytes[i..], TRIPLE_SINGLE) {
      return out + TRIPLE_SINGLE, i + 3, TripleSingleQuote;
    }
    if StartsWith(bytes[i..], TRIPLE_DOUBLE) {
      return out + TRIPLE_DOUBLE, i + 3, TripleDoubleQuote;
    }
    out', i' := out + [bytes[i]], i + 1;
    s' := if bytes[i] == HASH then LineComment
          else if bytes[i] == SINGLE_QUOTE then SingleQuote
          else if bytes[i] == DOUBLE_QUOTE then DoubleQuote
          else Code;
  }
}
