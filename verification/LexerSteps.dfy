/** Steps the loop-based strippers have in common: the tokens they take, and the
    helpers that take them by moving an index and appending to the output. */
module LexerSteps {
  import opened Prelude
  import opened Lexing

  const SLASH: Byte := 47
  const STAR: Byte := 42

  /** Inside a quoted string with backslash escapes. */
  function EscapedToken<S>(rest: seq<Byte>, terminator: Byte, next: S, s: S): (t: Token<S>)
    requires rest != []
    ensures 1 <= t.length <= |rest|
  {
    if rest[0] == BACKSLASH then Token(if |rest| > 1 then 2 else 1, false, s)
    else Token(1, false, if rest[0] == terminator then next else s)
  }

  /** Inside a string that only its terminator ends. */
  function RawToken<S>(rest: seq<Byte>, terminator: seq<Byte>, next: S, s: S): (t: Token<S>)
    requires rest != [] && terminator != []
    ensures 1 <= t.length <= |rest|
  {
    if StartsWith(rest, terminator) then Token(|terminator|, false, next) else Token(1, false, s)
  }

  /** Inside a string ended by a longer terminator, with backslash escapes. */
  function UntilToken<S>(rest: seq<Byte>, terminator: seq<Byte>, next: S, s: S): (t: Token<S>)
    requires rest != [] && terminator != []
    ensures 1 <= t.length <= |rest|
  {
    if StartsWith(rest, terminator) then Token(|terminator|, false, next)
    else if rest[0] == BACKSLASH && |rest| > 1 then Token(2, false, s)
    else Token(1, false, s)
  }

  function LineCommentToken<S>(rest: seq<Byte>, code: S, s: S): (t: Token<S>)
    requires rest != []
    ensures 1 <= t.length <= |rest|
  {
    if rest[0] == NEWLINE then Token(1, false, code) else Token(1, true, s)
  }

  function BlockCommentToken<S>(rest: seq<Byte>, code: S, s: S): (t: Token<S>)
    requires rest != []
    ensures 1 <= t.length <= |rest|
  {
    if StartsWith(rest, [STAR, SLASH]) then Token(2, false, code) else Token(1, true, s)
  }

  /** What keeps a delimiter from ending a region: being hidden by the byte before it, or doubled. */
  datatype Hiding = Nothing | Backslash | Doubling

  /** A stretch of source between two delimiters, as a language sees it: a comment
      (`blank`), or a string and what can stand in it without ending it. */
  datatype Region<S> = Region(open: seq<Byte>, close: seq<Byte>, inside: S, blank: bool, hiding: Hiding)

  /** The two bytes from `k` look like a pair that the region takes together. */
  predicate PairAt<S>(r: Region<S>, text: seq<Byte>, k: nat)
    requires r.close != []
  {
    k + 1 < |text| &&
    match r.hiding
    case Nothing => false
    case Backslash => text[k] == BACKSLASH
    case Doubling => text[k] == r.close[0] && text[k + 1] == r.close[0]
  }

  /** `k` is the second byte of a pair, counting from the start of the text. */
  predicate Hidden<S>(r: Region<S>, text: seq<Byte>, k: nat)
    requires r.close != []
  {
    k > 0 && PairAt(r, text, k - 1) && !Hidden(r, text, k - 1)
  }

  predicate EndsAt<S>(r: Region<S>, text: seq<Byte>, k: nat)
    requires r.close != [] && k <= |text|
  {
    StartsWith(text[k..], r.close) && !Hidden(r, text, k) && !PairAt(r, text, k)
  }

  /** The region's content is the first `n` bytes: up to the first delimiter that ends it, or
      to the end of the text if none does. */
  ghost predicate Extends<S>(r: Region<S>, text: seq<Byte>, n: nat)
    requires r.close != []
  {
    n <= |text| && (forall k: nat | k < n :: !EndsAt(r, text, k)) && (n < |text| ==> EndsAt(r, text, n))
  }

  /** Every text has just one such end. */
  function Extent<S>(r: Region<S>, text: seq<Byte>, from: nat): (n: nat)
    requires r.close != [] && from <= |text| && forall k: nat | k < from :: !EndsAt(r, text, k)
    ensures Extends(r, text, n)
    decreases |text| - from
  {
    if from == |text| || EndsAt(r, text, from) then from else Extent(r, text, from + 1)
  }

  lemma OneExtent<S>(r: Region<S>, text: seq<Byte>, m: nat, n: nat)
    requires r.close != [] && Extends(r, text, m) && Extends(r, text, n)
    ensures m == n
  {
  }

  function InsideToken<S>(r: Region<S>, code: S, rest: seq<Byte>): Token<S>
    requires r.close != []
  {
    if PairAt(r, rest, 0) then Token(2, r.blank, r.inside)
    else if StartsWith(rest, r.close) then Token(|r.close|, false, code)
    else Token(1, r.blank, r.inside)
  }

  // The tokens above read a region of their kind.

  lemma EscapedInside<S>(r: Region<S>, terminator: Byte, code: S, rest: seq<Byte>)
    requires rest != [] && r.close == [terminator] && terminator != BACKSLASH && r.hiding == Backslash && !r.blank
    ensures EscapedToken(rest, terminator, code, r.inside) == InsideToken(r, code, rest)
  {
    StartsWithOne(rest, terminator);
  }

  lemma RawInside<S>(r: Region<S>, code: S, rest: seq<Byte>)
    requires rest != [] && r.close != [] && r.hiding == Nothing && !r.blank
    ensures RawToken(rest, r.close, code, r.inside) == InsideToken(r, code, rest)
  {
  }

  lemma UntilInside<S>(r: Region<S>, code: S, rest: seq<Byte>)
    requires rest != [] && r.close != [] && r.close[0] != BACKSLASH && r.hiding == Backslash && !r.blank
    ensures UntilToken(rest, r.close, code, r.inside) == InsideToken(r, code, rest)
  {
    if rest[0] == BACKSLASH {
      FirstByteDiffers(rest, r.close);
    }
  }

  lemma LineCommentInside<S>(r: Region<S>, code: S, rest: seq<Byte>)
    requires rest != [] && r.close == [NEWLINE] && r.hiding == Nothing && r.blank
    ensures LineCommentToken(rest, code, r.inside) == InsideToken(r, code, rest)
  {
    StartsWithOne(rest, NEWLINE);
  }

  lemma BlockCommentInside<S>(r: Region<S>, code: S, rest: seq<Byte>)
    requires rest != [] && r.close == [STAR, SLASH] && r.hiding == Nothing && r.blank
    ensures BlockCommentToken(rest, code, r.inside) == InsideToken(r, code, rest)
  {
  }

  ghost predicate ReadsInside<S(!new)>(step: Lexer<S>, code: S, r: Region<S>, text: seq<Byte>)
    requires r.close != []
  {
    forall k: nat | k < |text| :: step(r.inside, text[k..]) == InsideToken(r, code, text[k..])
  }

  /** The closing delimiter, if there is one, and the rest stripped as code. */
  function Beyond<S(!new)>(step: Lexer<S>, code: S, r: Region<S>, text: seq<Byte>, n: nat): seq<Byte>
    requires r.close != [] && n <= |text| && (n < |text| ==> EndsAt(r, text, n))
  {
    if n == |text| then [] else r.close + Strip(step, code, text[n + |r.close|..])
  }

  lemma PairFrom<S>(r: Region<S>, text: seq<Byte>, k: nat)
    requires r.close != [] && k <= |text|
    ensures PairAt(r, text[k..], 0) == PairAt(r, text, k)
  {
  }

  lemma Cut(text: seq<Byte>, k: nat, n: nat)
    requires k + n <= |text|
    ensures text[k..] == text[k..k + n] + text[k + n..]
  {
  }

  /** From a byte inside a region that is not hidden, content is taken to the region's end. */
  lemma {:induction false} Crossed<S(!new)>(step: Lexer<S>, code: S, r: Region<S>, text: seq<Byte>, k: nat, n: nat)
    requires r.close != [] && ReadsInside(step, code, r, text)
    requires Extends(r, text, n) && k <= n && !Hidden(r, text, k)
    ensures Strip(step, r.inside, text[k..]) == Emit(text[k..n], r.blank) + Beyond(step, code, r, text, n)
    decreases n - k
  {
    if k == n {
      Closed(step, code, r, text, n);
    } else {
      var width := NextInside(step, code, r, text, k, n);
      Crossed(step, code, r, text, k + width, n);
      EmitStep(text, k, k + width, n, r.blank);
      Assoc(Emit(text[k..k + width], r.blank), Emit(text[k + width..n], r.blank), Beyond(step, code, r, text, n));
    }
  }

  function ContentWidth<S>(r: Region<S>, text: seq<Byte>, k: nat): nat
    requires r.close != []
  {
    if PairAt(r, text, k) then 2 else 1
  }

  lemma WidthFits<S>(r: Region<S>, text: seq<Byte>, k: nat, n: nat)
    requires r.close != [] && Extends(r, text, n) && k < n && !Hidden(r, text, k)
    ensures k + ContentWidth(r, text, k) <= n && !Hidden(r, text, k + ContentWidth(r, text, k))
    ensures PairAt(r, text, k) || !StartsWith(text[k..], r.close)
  {
    assert !EndsAt(r, text, k);
    assert PairAt(r, text, k) ==> Hidden(r, text, k + 1);
  }

  /** Before the region's end, a byte or a pair of content is taken. */
  lemma NextInside<S(!new)>(step: Lexer<S>, code: S, r: Region<S>, text: seq<Byte>, k: nat, n: nat) returns (width: nat)
    requires r.close != [] && ReadsInside(step, code, r, text)
    requires Extends(r, text, n) && k < n && !Hidden(r, text, k)
    ensures 1 <= width && k + width <= n && !Hidden(r, text, k + width)
    ensures Strip(step, r.inside, text[k..])
      == Emit(text[k..k + width], r.blank) + Strip(step, r.inside, text[k + width..])
  {
    width := ContentWidth(r, text, k);
    WidthFits(r, text, k, n);
    PairFrom(r, text, k);
    assert InsideToken(r, code, text[k..]) == Token(width, r.blank, r.inside);
    TakePiece(step, r.inside, text, k, width, r.blank);
  }

  lemma TakePiece<S(!new)>(step: Lexer<S>, s: S, text: seq<Byte>, k: nat, width: nat, blank: bool)
    requires k + width <= |text| && width > 0 && step(s, text[k..]) == Token(width, blank, s)
    ensures Strip(step, s, text[k..]) == Emit(text[k..k + width], blank) + Strip(step, s, text[k + width..])
  {
    Cut(text, k, width);
    TakeToken(step, s, text[k..k + width], text[k + width..], blank, s);
  }

  lemma Closed<S(!new)>(step: Lexer<S>, code: S, r: Region<S>, text: seq<Byte>, n: nat)
    requires r.close != [] && ReadsInside(step, code, r, text)
    requires n <= |text| && !Hidden(r, text, n) && (n < |text| ==> EndsAt(r, text, n))
    ensures Strip(step, r.inside, text[n..]) == Emit(text[n..n], r.blank) + Beyond(step, code, r, text, n)
  {
    if n < |text| {
      PairFrom(r, text, n);
      Cut(text, n, |r.close|);
      TakeToken(step, r.inside, r.close, text[n + |r.close|..], false, code);
    }
  }

  /** A region read from code: its delimiters stay, a comment's content is blanked, a
      string's is copied, and the lexer is back in code after it, if it ends at all. */
  lemma RegionStripped<S(!new)>(step: Lexer<S>, code: S, r: Region<S>, text: seq<Byte>, n: nat)
    requires r.open != [] && r.close != [] && Extends(r, text, n)
    requires step(code, r.open + text) == Token(|r.open|, false, r.inside)
    requires ReadsInside(step, code, r, text)
    ensures Strip(step, code, r.open + text) == r.open + (Emit(text[..n], r.blank) + Beyond(step, code, r, text, n))
  {
    TakeToken(step, code, r.open, text, false, r.inside);
    Crossed(step, code, r, text, 0, n);
    assert text[0..] == text && text[0..n] == text[..n];
  }

  // --- The whole text, region by region

  /** The first of these regions that opens here. */
  function Opening<S>(regions: seq<Region<S>>, text: seq<Byte>): Option<Region<S>> {
    if regions == [] then None
    else if StartsWith(text, regions[0].open) then Some(regions[0])
    else Opening(regions[1..], text)
  }

  ghost predicate Delimited<S>(regions: seq<Region<S>>) {
    forall i | 0 <= i < |regions| :: regions[i].open != [] && regions[i].close != []
  }

  lemma {:induction false} OpeningIs<S>(regions: seq<Region<S>>, text: seq<Byte>)
    requires Opening(regions, text).Some?
    ensures Opening(regions, text).value in regions && StartsWith(text, Opening(regions, text).value.open)
  {
    if !StartsWith(text, regions[0].open) {
      OpeningIs(regions[1..], text);
    }
  }

  lemma {:induction false} OpeningAt<S>(regions: seq<Region<S>>, text: seq<Byte>, i: nat)
    requires i < |regions| && StartsWith(text, regions[i].open)
    requires forall j | 0 <= j < i :: !StartsWith(text, regions[j].open)
    ensures Opening(regions, text) == Some(regions[i])
    decreases i
  {
    if i == 0 {
    } else {
      assert !StartsWith(text, regions[0].open);
      OpeningAt(regions[1..], text, i - 1);
    }
  }

  lemma {:induction false} OpeningNowhere<S>(regions: seq<Region<S>>, text: seq<Byte>)
    requires forall i | 0 <= i < |regions| :: !StartsWith(text, regions[i].open)
    ensures Opening(regions, text) == None
  {
    if regions == [] {
    } else {
      assert !StartsWith(text, regions[0].open);
      OpeningNowhere(regions[1..], text);
    }
  }

  /** A text cut from left to right into code and regions: a byte at which none opens is code, and
      a region runs to its extent. Code and delimiters are copied, and content as its region says. */
  function Masked<S>(regions: seq<Region<S>>, text: seq<Byte>): seq<Byte>
    requires Delimited(regions)
    decreases |text|
  {
    if text == [] then []
    else match Opening(regions, text)
      case None => [text[0]] + Masked(regions, text[1..])
      case Some(r) =>
        OpeningIs(regions, text);
        var rest := text[|r.open|..];
        var n := Extent(r, rest, 0);
        r.open + (Emit(rest[..n], r.blank)
          + if n == |rest| then [] else r.close + Masked(regions, rest[n + |r.close|..]))
  }

  /** In code a lexer takes a region's opening whole, and any other byte as it is. */
  ghost predicate ReadsCode<S(!new)>(step: Lexer<S>, code: S, regions: seq<Region<S>>, rest: seq<Byte>) {
    step(code, rest) ==
      match Opening(regions, rest)
      case None => Token(1, false, code)
      case Some(r) => Token(|r.open|, false, r.inside)
  }

  /** From here on, code and regions are read as they should be. */
  ghost predicate ReadsAll<S(!new)>(step: Lexer<S>, code: S, regions: seq<Region<S>>, text: seq<Byte>)
    requires Delimited(regions)
  {
    forall k: nat | k < |text| :: ReadsCode(step, code, regions, text[k..])
      && forall i | 0 <= i < |regions| :: step(regions[i].inside, text[k..]) == InsideToken(regions[i], code, text[k..])
  }

  lemma ReadsOn<S(!new)>(step: Lexer<S>, code: S, regions: seq<Region<S>>, text: seq<Byte>, m: nat)
    requires Delimited(regions) && ReadsAll(step, code, regions, text) && m <= |text|
    ensures ReadsAll(step, code, regions, text[m..])
  {
    forall k: nat | k < |text| - m ensures text[m..][k..] == text[m + k..] {
    }
  }

  /** What a lexer makes of a whole text is what the cut into code and regions says. */
  lemma {:induction false} StripMasked<S(!new)>(step: Lexer<S>, code: S, regions: seq<Region<S>>, text: seq<Byte>)
    requires Delimited(regions) && ReadsAll(step, code, regions, text)
    ensures Strip(step, code, text) == Masked(regions, text)
    decreases |text|
  {
    if text == [] {
    } else {
      assert text[0..] == text;
      assert ReadsCode(step, code, regions, text[0..]);
      if Opening(regions, text) == None {
        TakeToken(step, code, text[..1], text[1..], false, code) by {
          assert text[..1] + text[1..] == text;
        }
        assert text[..1] == [text[0]] && text[..1] + text[1..] == text;
        ReadsOn(step, code, regions, text, 1);
        StripMasked(step, code, regions, text[1..]);
      } else {
        RegionMasked(step, code, regions, text);
      }
    }
  }

  lemma {:induction false} RegionMasked<S(!new)>(step: Lexer<S>, code: S, regions: seq<Region<S>>, text: seq<Byte>)
    requires Delimited(regions) && ReadsAll(step, code, regions, text) && text != [] && Opening(regions, text).Some?
    ensures Strip(step, code, text) == Masked(regions, text)
    decreases |text|, 0
  {
    var r, rest, n := RegionTaken(step, code, regions, text);
    if n < |rest| {
      ReadsOn(step, code, regions, rest, n + |r.close|);
      StripMasked(step, code, regions, rest[n + |r.close|..]);
    }
  }

  /** The region that opens here, and what becomes of it. */
  lemma RegionTaken<S(!new)>(step: Lexer<S>, code: S, regions: seq<Region<S>>, text: seq<Byte>)
    returns (r: Region<S>, rest: seq<Byte>, n: nat)
    requires Delimited(regions) && ReadsAll(step, code, regions, text) && text != [] && Opening(regions, text).Some?
    ensures r in regions && |rest| < |text| && ReadsAll(step, code, regions, rest) && Extends(r, rest, n)
    ensures Strip(step, code, text) == r.open + (Emit(rest[..n], r.blank) + Beyond(step, code, r, rest, n))
    ensures Masked(regions, text) == r.open + (Emit(rest[..n], r.blank)
      + if n == |rest| then [] else r.close + Masked(regions, rest[n + |r.close|..]))
  {
    r, rest, n := MaskedAt(regions, text);
    assert text[0..] == text && ReadsCode(step, code, regions, text[0..]);
    ReadsOn(step, code, regions, text, |r.open|);
    RegionReads(step, code, regions, r, rest);
    RegionStripped(step, code, r, rest, n);
  }

  lemma MaskedAt<S>(regions: seq<Region<S>>, text: seq<Byte>) returns (r: Region<S>, rest: seq<Byte>, n: nat)
    requires Delimited(regions) && text != [] && Opening(regions, text).Some?
    ensures Opening(regions, text) == Some(r) && r in regions && r.open != [] && r.close != []
    ensures text == r.open + rest && rest == text[|r.open|..] && |rest| < |text| && Extends(r, rest, n)
    ensures Masked(regions, text) == r.open + (Emit(rest[..n], r.blank)
      + if n == |rest| then [] else r.close + Masked(regions, rest[n + |r.close|..]))
  {
    OpeningIs(regions, text);
    r := Opening(regions, text).value;
    rest := text[|r.open|..];
    n := Extent(r, rest, 0);
  }

  lemma RegionReads<S(!new)>(step: Lexer<S>, code: S, regions: seq<Region<S>>, r: Region<S>, rest: seq<Byte>)
    requires Delimited(regions) && ReadsAll(step, code, regions, rest) && r in regions
    ensures ReadsInside(step, code, r, rest)
  {
    var i :| 0 <= i < |regions| && regions[i] == r;
    forall k: nat | k < |rest| ensures step(r.inside, rest[k..]) == InsideToken(r, code, rest[k..]) {
      assert ReadsCode(step, code, regions, rest[k..]);
    }
  }

  /** What is left to read at an index that may have run one past the end. */
  function Unread(bytes: seq<Byte>, i: nat): seq<Byte> {
    if i <= |bytes| then bytes[i..] else []
  }

  /** Output, index and state have moved by exactly the token `t`. */
  ghost predicate Took<S>(t: Token<S>, bytes: seq<Byte>, out: seq<Byte>, i: nat,
                          out': seq<Byte>, i': nat, s': S)
    requires i <= |bytes|
  {
    1 <= t.length <= |bytes| - i &&
    out' == out + Emit(bytes[i..i + t.length], t.blank) &&
    s' == t.next &&
    (i' == i + t.length || (i' == |bytes| + 1 && i + t.length == |bytes|))
  }

  lemma StripTakes<S(!new)>(step: Lexer<S>, s: S, rest: seq<Byte>, token: seq<Byte>, tail: seq<Byte>)
    requires rest != [] && step(s, rest).length <= |rest|
    requires token == rest[..step(s, rest).length] && tail == rest[step(s, rest).length..]
    ensures Strip(step, s, rest) == Emit(token, step(s, rest).blank) + Strip(step, step(s, rest).next, tail)
  {
  }

  /** Taking the lexer's token keeps "output so far, then the stripped rest". */
  lemma TookKeeps<S(!new)>(step: Lexer<S>, bytes: seq<Byte>, s: S, out: seq<Byte>, i: nat,
                           out': seq<Byte>, i': nat, s': S)
    requires i < |bytes| && Took(step(s, bytes[i..]), bytes, out, i, out', i', s')
    ensures out' + Strip(step, s', Unread(bytes, i')) == out + Strip(step, s, Unread(bytes, i))
  {
    var rest := bytes[i..];
    var t := step(s, rest);
    UnreadAfter(bytes, i, t.length, i');
    StripTakes(step, s, rest, bytes[i..i + t.length], Unread(bytes, i'));
    Appends(out, Emit(bytes[i..i + t.length], t.blank), Strip(step, t.next, Unread(bytes, i')), out',
      Strip(step, s, rest));
  }

  lemma Appends(out: seq<Byte>, piece: seq<Byte>, tail: seq<Byte>, out': seq<Byte>, whole: seq<Byte>)
    requires out' == out + piece && whole == piece + tail
    ensures out' + tail == out + whole
  {
    Assoc(out, piece, tail);
  }

  lemma UnreadAfter(bytes: seq<Byte>, i: nat, length: nat, i': nat)
    requires i + length <= |bytes|
    requires i' == i + length || (i' == |bytes| + 1 && i + length == |bytes|)
    ensures bytes[i..][..length] == bytes[i..i + length]
    ensures bytes[i..][length..] == Unread(bytes, i')
  {
  }

  method PushWithEscape<S>(bytes: seq<Byte>, out: seq<Byte>, i: nat, terminator: Byte, next: S, s: S)
    returns (out': seq<Byte>, i': nat, s': S)
    requires i < |bytes|
    ensures Took(EscapedToken(bytes[i..], terminator, next, s), bytes, out, i, out', i', s')
  {
    out', i', s' := out + [bytes[i]], i, s;
    if bytes[i] == BACKSLASH {
      i' := i' + 1;
      if i' < |bytes| {
        out' := out' + [bytes[i']];
        i' := i' + 1;
      }
      return;
    }
    if bytes[i] == terminator {
      s' := next;
    }
    i' := i' + 1;
  }

  method PushUntil<S>(bytes: seq<Byte>, out: seq<Byte>, i: nat, terminator: seq<Byte>, next: S, s: S)
    returns (out': seq<Byte>, i': nat, s': S)
    requires i < |bytes| && terminator != []
    ensures Took(UntilToken(bytes[i..], terminator, next, s), bytes, out, i, out', i', s')
  {
    if StartsWith(bytes[i..], terminator) {
      assert bytes[i..][..|terminator|] == bytes[i..i + |terminator|];
      return out + terminator, i + |terminator|, next;
    }
    out', i', s' := out + [bytes[i]], i, s;
    if bytes[i] == BACKSLASH {
      i' := i' + 1;
      if i' < |bytes| {
        out' := out' + [bytes[i']];
        i' := i' + 1;
        return;
      }
    }
    i' := i' + 1;
  }

  method PushRawUntil<S>(bytes: seq<Byte>, out: seq<Byte>, i: nat, terminator: seq<Byte>, next: S, s: S)
    returns (out': seq<Byte>, i': nat, s': S)
    requires i < |bytes| && terminator != []
    ensures Took(RawToken(bytes[i..], terminator, next, s), bytes, out, i, out', i', s')
  {
    if StartsWith(bytes[i..], terminator) {
      assert bytes[i..][..|terminator|] == bytes[i..i + |terminator|];
      return out + terminator, i + |terminator|, next;
    }
    return out + [bytes[i]], i + 1, s;
  }

  method PushLineComment<S>(bytes: seq<Byte>, out: seq<Byte>, i: nat, code: S, s: S)
    returns (out': seq<Byte>, i': nat, s': S)
    requires i < |bytes|
    ensures Took(LineCommentToken(bytes[i..], code, s), bytes, out, i, out', i', s')
  {
    if bytes[i] == NEWLINE {
      return out + [NEWLINE], i + 1, code;
    } else {
      return out + [SPACE], i + 1, s;
    }
  }

  method PushBlockComment<S>(bytes: seq<Byte>, out: seq<Byte>, i: nat, code: S, s: S)
    returns (out': seq<Byte>, i': nat, s': S)
    requires i < |bytes|
    ensures Took(BlockCommentToken(bytes[i..], code, s), bytes, out, i, out', i', s')
  {
    if StartsWith(bytes[i..], [STAR, SLASH]) {
      return out + [STAR, SLASH], i + 2, code;
    }
    return out + [if bytes[i] == NEWLINE then NEWLINE else SPACE], i + 1, s;
  }
}
