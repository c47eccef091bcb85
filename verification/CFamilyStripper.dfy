/** Comment stripping for the C family. */
module CFamilyStripper {
  import opened Lexing
  import opened LexerSteps

  datatype State = Code | SingleQuote | DoubleQuote | RawString | LineComment | BlockComment

  const UPPER_R: Byte := 82
  const CLOSE_PAREN: Byte := 41

  function CodeToken(rest: seq<Byte>): (t: Token<State>)
    requires rest != []
    ensures 1 <= t.length <= |rest|
  {
    if StartsWith(rest, [SLASH, SLASH]) then Token(2, false, LineComment)
    else if StartsWith(rest, [SLASH, STAR]) then Token(2, false, BlockComment)
    else if StartsWith(rest, [UPPER_R, DOUBLE_QUOTE]) then Token(2, false, RawString)
    else if rest[0] == SINGLE_QUOTE then Token(1, false, SingleQuote)
    else if rest[0] == DOUBLE_QUOTE then Token(1, false, DoubleQuote)
    else Token(1, false, Code)
  }

  /** A raw string ends at a closing parenthesis followed by a quote. */
  function RawStringToken(rest: seq<Byte>): (t: Token<State>)
    requires rest != []
    ensures 1 <= t.length <= |rest|
  {
    if rest[0] == CLOSE_PAREN && |rest| > 1 && rest[1] == DOUBLE_QUOTE then Token(2, false, Code)
    else Token(1, false, RawString)
  }

  function Step(s: State, rest: seq<Byte>): (t: Token<State>)
    ensures rest != [] ==> 1 <= t.length <= |rest|
  {
    if rest == [] then Token(0, false, s) else
    match s
    case Code => CodeToken(rest)
    case SingleQuote => EscapedToken(rest, SINGLE_QUOTE, Code, s)
    case DoubleQuote => EscapedToken(rest, DOUBLE_QUOTE, Code, s)
    case RawString => RawStringToken(rest)
    case LineComment => LineCommentToken(rest, Code, s)
    case BlockComment => BlockCommentToken(rest, Code, s)
  }

  const C_FAMILY: Lexer<State> := Step

  lemma CFamilyStable()
    ensures Stable(C_FAMILY)
  {
    forall s, rest, out | rest != [] && Masks(rest, out) && Emits(C_FAMILY(s, rest), rest, out)
      ensures C_FAMILY(s, out) == C_FAMILY(s, rest)
    {
      StableAt(s, rest, out);
    }
  }

  lemma StableAt(s: State, rest: seq<Byte>, out: seq<Byte>)
    requires rest != [] && Masks(rest, out) && Emits(Step(s, rest), rest, out)
    ensures Step(s, out) == Step(s, rest)
  {
  }

  const LINE_COMMENT := Region([SLASH, SLASH], [NEWLINE], LineComment, true, Nothing)
  const BLOCK_COMMENT := Region([SLASH, STAR], [STAR, SLASH], BlockComment, true, Nothing)
  const SINGLE := Region([SINGLE_QUOTE], [SINGLE_QUOTE], SingleQuote, false, Backslash)
  const DOUBLE := Region([DOUBLE_QUOTE], [DOUBLE_QUOTE], DoubleQuote, false, Backslash)
  const RAW := Region([UPPER_R, DOUBLE_QUOTE], [CLOSE_PAREN, DOUBLE_QUOTE], RawString, false, Nothing)

  /** In the order in which code looks for them. */
  const REGIONS: seq<Region<State>> := [LINE_COMMENT, BLOCK_COMMENT, RAW, SINGLE, DOUBLE]

  /** Whatever the text, every comment is blanked up to where it ends, or to the end of the
      text, and every string copied, comment markers inside it included. */
  lemma RegionKept(r: Region<State>, text: seq<Byte>, n: nat)
    requires r in REGIONS && Extends(r, text, n)
    ensures Strip(C_FAMILY, Code, r.open + text)
      == r.open + (Emit(text[..n], r.blank) + Beyond(C_FAMILY, Code, r, text, n))
  {
    Opens(r, text);
    forall k: nat | k < |text| ensures C_FAMILY(r.inside, text[k..]) == InsideToken(r, Code, text[k..]) {
      ReadInside(r, text[k..]);
    }
    RegionStripped(C_FAMILY, Code, r, text, n);
  }

  lemma Opens(r: Region<State>, text: seq<Byte>)
    requires r in REGIONS
    ensures C_FAMILY(Code, r.open + text) == Token(|r.open|, false, r.inside)
  {
    assert forall i | 0 <= i < |r.open| :: (r.open + text)[i] == r.open[i];
    assert (r.open + text)[..|r.open|] == r.open;
    if r in { SINGLE, DOUBLE, RAW } {
      FirstByteDiffers(r.open + text, [SLASH, SLASH]);
      FirstByteDiffers(r.open + text, [SLASH, STAR]);
    }
    if r != RAW {
      FirstByteDiffers(r.open + text, [UPPER_R, DOUBLE_QUOTE]);
    }
  }

  lemma ReadInside(r: Region<State>, rest: seq<Byte>)
    requires r in REGIONS && rest != []
    ensures C_FAMILY(r.inside, rest) == InsideToken(r, Code, rest)
  {
    match r.inside
    case SingleQuote => EscapedInside(r, SINGLE_QUOTE, Code, rest);
    case DoubleQuote => EscapedInside(r, DOUBLE_QUOTE, Code, rest);
    case RawString => StartsWithTwo(rest, CLOSE_PAREN, DOUBLE_QUOTE);
    case LineComment => LineCommentInside(r, Code, rest);
    case BlockComment => BlockCommentInside(r, Code, rest);
  }

  lemma ReadCode(rest: seq<Byte>)
    requires rest != []
    ensures ReadsCode(C_FAMILY, Code, REGIONS, rest)
  {
    StartsWithOne(rest, SINGLE_QUOTE);
    StartsWithOne(rest, DOUBLE_QUOTE);
    if StartsWith(rest, REGIONS[0].open) {
      OpeningAt(REGIONS, rest, 0);
    } else if StartsWith(rest, REGIONS[1].open) {
      OpeningAt(REGIONS, rest, 1);
    } else if StartsWith(rest, REGIONS[2].open) {
      OpeningAt(REGIONS, rest, 2);
    } else if StartsWith(rest, REGIONS[3].open) {
      OpeningAt(REGIONS, rest, 3);
    } else if StartsWith(rest, REGIONS[4].open) {
      OpeningAt(REGIONS, rest, 4);
    } else {
      OpeningNowhere(REGIONS, rest);
    }
  }

  /** What is left of a text is the text with each comment's content blanked, where comments and
      strings are what a cut of the text from left to right gives. */
  lemma CutIntoRegions(text: seq<Byte>)
    ensures Strip(C_FAMILY, Code, text) == Masked(REGIONS, text)
  {
    forall k: nat, i | k < |text| && 0 <= i < |REGIONS|
      ensures C_FAMILY(REGIONS[i].inside, text[k..]) == InsideToken(REGIONS[i], Code, text[k..])
    {
      ReadInside(REGIONS[i], text[k..]);
    }
    forall k: nat | k < |text| ensures ReadsCode(C_FAMILY, Code, REGIONS, text[k..]) {
      ReadCode(text[k..]);
    }
    StripMasked(C_FAMILY, Code, REGIONS, text);
  }

  /** What a second pass does to C-family output: it meets the same state at every index, and
      it changes nothing exactly when every byte outside ASCII was in a comment. */
  lemma SecondPass(bytes: seq<Byte>)
    ensures Trace(C_FAMILY, Code, Strip(C_FAMILY, Code, bytes)) == Trace(C_FAMILY, Code, bytes)
    ensures Strip(C_FAMILY, Code, Utf8(Strip(C_FAMILY, Code, bytes))) == Strip(C_FAMILY, Code, bytes)
       <==> ForeignBytesBlanked(C_FAMILY, Code, bytes)
  {
    CFamilyStable();
    SameTrace(C_FAMILY, Code, bytes);
    IdempotentExactly(C_FAMILY, Code, bytes);
  }

  method StripCFamilyNoise(bytes: seq<Byte>) returns (out: seq<Byte>)
    ensures out == Strip(C_FAMILY, Code, bytes)
    ensures |out| == |bytes|
    ensures forall i | 0 <= i < |bytes| :: out[i] == NEWLINE <==> bytes[i] == NEWLINE
  {
    ShapeKept(C_FAMILY, Code, bytes);
    out := [];
    var i, state := 0, Code;
    while i < |bytes|
      invariant i <= |bytes| + 1
      invariant out + Strip(C_FAMILY, state, Unread(bytes, i)) == Strip(C_FAMILY, Code, bytes)
      decreases |bytes| + 1 - i
    {
      var out', i', state' := StripStep(bytes, out, i, state);
      TookKeeps(C_FAMILY, bytes, state, out, i, out', i', state');
      out, i, state := out', i', state';
    }
  }

  method StripStep(bytes: seq<Byte>, out: seq<Byte>, i: nat, s: State)
    returns (out': seq<Byte>, i': nat, s': State)
    requires i < |bytes|
    ensures Took(C_FAMILY(s, bytes[i..]), bytes, out, i, out', i', s')
  {
    match s {
      case Code =>
        out', i', s' := StepCode(bytes, out, i);
      case SingleQuote =>
        out', i', s' := PushWithEscape(bytes, out, i, SINGLE_QUOTE, Code, s);
      case DoubleQuote =>
        out', i', s' := PushWithEscape(bytes, out, i, DOUBLE_QUOTE, Code, s);
      case RawString =>
        out', i', s' := StepRawString(bytes, out, i);
      case LineComment =>
        out', i', s' := PushLineComment(bytes, out, i, Code, s);
      case BlockComment =>
        out', i', s' := PushBlockComment(bytes, out, i, Code, s);
    }
  }

  method StepCode(bytes: seq<Byte>, out: seq<Byte>, i: nat) returns (out': seq<Byte>, i': nat, s': State)
    requires i < |bytes|
    ensures Took(CodeToken(bytes[i..]), bytes, out, i, out', i', s')
  {
    if StartsWith(bytes[i..], [SLASH, SLASH]) {
      return out + [SLASH, SLASH], i + 2, LineComment;
    }
    if StartsWith(bytes[i..], [SLASH, STAR]) {
      return out + [SLASH, STAR], i + 2, BlockComment;
    }
    if StartsWith(bytes[i..], [UPPER_R, DOUBLE_QUOTE]) {
      return out + [UPPER_R, DOUBLE_QUOTE], i + 2, RawString;
    }
    out', i' := out + [bytes[i]], i + 1;
    s' := if bytes[i] == SINGLE_QUOTE then SingleQuote else if bytes[i] == DOUBLE_QUOTE then DoubleQuote else Code;
  }

  method StepRawString(bytes: seq<Byte>, out: seq<Byte>, i: nat) returns (out': seq<Byte>, i': nat, s': State)
    requires i < |bytes|
    ensures Took(RawStringToken(bytes[i..]), bytes, out, i, out', i', s')
  {
    out', i', s' := out + [bytes[i]], i, RawString;
    if bytes[i] == CLOSE_PAREN {
      i' := i' + 1;
      if i' < |bytes| && bytes[i'] == DOUBLE_QUOTE {
        out' := out' + [DOUBLE_QUOTE];
        i' := i' + 1;
        s' := Code;
      }
      return;
    }
    i' := i' + 1;
  }
}
