/** The theory the noise strippers share.

    A stripper is a deterministic lexer over the bytes of a text.  Each step looks at
    the unread bytes, takes a token of at least one byte, and either copies it or
    blanks it: every byte except a newline becomes a space.  Everything the strippers
    promise about shape and repetition is proved here once, for any lexer.
  */
module Lexing {

  type Byte = x: int | 0 <= x < 256

  const NEWLINE: Byte := 10
  const SPACE: Byte := 32
  const TAB: Byte := 9
  const DOUBLE_QUOTE: Byte := 34
  const SINGLE_QUOTE: Byte := 39
  const BACKSLASH: Byte := 92

  /** What one step takes: how many bytes, whether they are blanked, and the state after them. */
  datatype Token<S> = Token(length: nat, blank: bool, next: S)

  ghost predicate Progresses<S(!new)>(step: (S, seq<Byte>) -> Token<S>) {
    forall s, rest | rest != [] :: 1 <= step(s, rest).length <= |rest|
  }

  type Lexer<!S(!new)> = step: (S, seq<Byte>) -> Token<S> | Progresses(step)
    witness (s: S, rest: seq<Byte>) => Token(1, false, s)

  function BlankByte(b: Byte): Byte {
    if b == NEWLINE then NEWLINE else SPACE
  }

  function Blanked(text: seq<Byte>): (r: seq<Byte>)
    ensures |r| == |text|
    ensures forall i | 0 <= i < |text| :: r[i] == BlankByte(text[i])
  {
    seq(|text|, i requires 0 <= i < |text| => BlankByte(text[i]))
  }

  function Emit(text: seq<Byte>, blank: bool): (r: seq<Byte>)
    ensures |r| == |text|
  {
    if blank then Blanked(text) else text
  }

  /** The text a lexer produces, one code point below 256 for every byte it reads. */
  function Strip<S(!new)>(step: Lexer<S>, s: S, rest: seq<Byte>): (out: seq<Byte>)
    ensures |out| == |rest|
    decreases |rest|
  {
    if rest == [] then [] else
    var t := step(s, rest);
    Emit(rest[..t.length], t.blank) + Strip(step, t.next, rest[t.length..])
  }

  /** Where a lexer stands at one byte: the state its token started in, and the place within that token. */
  datatype Mark<S> = Mark(state: S, offset: nat, blank: bool)

  function TokenMarks<S>(s: S, length: nat, blank: bool): (r: seq<Mark<S>>)
    ensures |r| == length
    ensures forall i | 0 <= i < length :: r[i] == Mark(s, i, blank)
  {
    seq(length, i => if 0 <= i then Mark(s, i, blank) else Mark(s, 0, blank))
  }

  function Trace<S(!new)>(step: Lexer<S>, s: S, rest: seq<Byte>): (marks: seq<Mark<S>>)
    ensures |marks| == |rest|
    decreases |rest|
  {
    if rest == [] then [] else
    var t := step(s, rest);
    TokenMarks(s, t.length, t.blank) + Trace(step, t.next, rest[t.length..])
  }

  /** Each output code point is the input byte, or its blank where the trace says so. */
  lemma {:induction false} StripAt<S(!new)>(step: Lexer<S>, s: S, rest: seq<Byte>, i: nat)
    requires i < |rest|
    ensures Strip(step, s, rest)[i] == if Trace(step, s, rest)[i].blank then BlankByte(rest[i]) else rest[i]
    decreases |rest|
  {
    var t := step(s, rest);
    if t.length <= i {
      StripAt(step, t.next, rest[t.length..], i - t.length);
    }
  }

  /** `out` differs from `rest` only where a byte that is not a newline became a space. */
  ghost predicate Masks(rest: seq<Byte>, out: seq<Byte>) {
    |out| == |rest| &&
    forall i | 0 <= i < |rest| :: out[i] == rest[i] || (out[i] == SPACE && rest[i] != NEWLINE)
  }

  /** A lexer is stable when masking what follows a token, and the token the way the
      lexer itself does, leaves the next step as it was, whatever the lookahead. */
  ghost predicate Stable<S(!new)>(step: Lexer<S>) {
    forall s, rest, out | rest != [] && Masks(rest, out) && Emits(step(s, rest), rest, out) ::
      step(s, out) == step(s, rest)
  }

  ghost predicate Emits<S>(t: Token<S>, rest: seq<Byte>, out: seq<Byte>)
    requires |out| == |rest|
  {
    t.length <= |rest| && out[..t.length] == Emit(rest[..t.length], t.blank)
  }

  lemma StripMasks<S(!new)>(step: Lexer<S>, s: S, rest: seq<Byte>)
    ensures Masks(rest, Strip(step, s, rest))
  {
    forall i | 0 <= i < |rest| ensures
      var out := Strip(step, s, rest); out[i] == rest[i] || (out[i] == SPACE && rest[i] != NEWLINE)
    {
      StripAt(step, s, rest, i);
    }
  }

  /** A stable lexer is in the same place at every index of its own output as on the input. */
  lemma {:induction false} SameTrace<S(!new)>(step: Lexer<S>, s: S, rest: seq<Byte>)
    requires Stable(step)
    ensures Trace(step, s, Strip(step, s, rest)) == Trace(step, s, rest)
    decreases |rest|
  {
    if rest == [] {
    } else {
      var out, t := Strip(step, s, rest), step(s, rest);
      StripMasks(step, s, rest);
      assert Emits(t, rest, out);
      assert step(s, out) == t;
      assert out[t.length..] == Strip(step, t.next, rest[t.length..]);
      SameTrace(step, t.next, rest[t.length..]);
    }
  }

  /** One output code point for each input byte, with newlines at the same indices and nowhere else. */
  lemma ShapeKept<S(!new)>(step: Lexer<S>, s: S, bytes: seq<Byte>)
    ensures |Strip(step, s, bytes)| == |bytes|
    ensures forall i | 0 <= i < |bytes| :: Strip(step, s, bytes)[i] == NEWLINE <==> bytes[i] == NEWLINE
  {
    StripMasks(step, s, bytes);
    forall i | 0 <= i < |bytes| ensures Strip(step, s, bytes)[i] == NEWLINE <==> bytes[i] == NEWLINE {
      StripAt(step, s, bytes, i);
    }
  }

  /** The output is a string; read as bytes again, a code point of 128 or more takes two. */
  function Utf8(text: seq<Byte>): (bytes: seq<Byte>)
    ensures |bytes| >= |text|
  {
    if text == [] then []
    else if text[0] < 128 then [text[0]] + Utf8(text[1..])
    else [192 + text[0] / 64, 128 + text[0] % 64] + Utf8(text[1..])
  }

  ghost predicate Ascii(text: seq<Byte>) {
    forall i | 0 <= i < |text| :: text[i] < 128
  }

  lemma {:induction false} AsciiEncoding(text: seq<Byte>)
    ensures Ascii(text) ==> Utf8(text) == text
    ensures !Ascii(text) ==> |Utf8(text)| > |text|
  {
    if text == [] {
    } else {
      AsciiEncoding(text[1..]);
      assert Ascii(text) <==> text[0] < 128 && Ascii(text[1..]) by {
        forall i | 0 <= i < |text[1..]| ensures text[1..][i] == text[i + 1] {}
        if text[0] < 128 && Ascii(text[1..]) {
          forall i | 0 <= i < |text| ensures text[i] < 128 {
            if i > 0 { assert text[i] == text[1..][i - 1]; }
          }
        }
      }
      assert text == [text[0]] + text[1..];
    }
  }

  /** Every byte outside ASCII lies where the lexer blanks. */
  ghost predicate ForeignBytesBlanked<S(!new)>(step: Lexer<S>, s: S, bytes: seq<Byte>) {
    forall i | 0 <= i < |bytes| :: bytes[i] >= 128 ==> Trace(step, s, bytes)[i].blank
  }

  /** Stripping a stripped text again changes nothing exactly when every byte outside
      ASCII was in a comment.  Pushing one `char` per byte spells any other such byte
      as two, so the second pass returns a longer text. */
  lemma IdempotentExactly<S(!new)>(step: Lexer<S>, s: S, bytes: seq<Byte>)
    requires Stable(step)
    ensures Strip(step, s, Utf8(Strip(step, s, bytes))) == Strip(step, s, bytes)
       <==> ForeignBytesBlanked(step, s, bytes)
  {
    var out := Strip(step, s, bytes);
    AsciiEncoding(out);
    assert Ascii(out) <==> ForeignBytesBlanked(step, s, bytes) by {
      forall i | 0 <= i < |bytes|
        ensures out[i] < 128 <==> (bytes[i] >= 128 ==> Trace(step, s, bytes)[i].blank)
      {
        StripAt(step, s, bytes, i);
      }
    }
    if Ascii(out) {
      SameTrace(step, s, bytes);
      forall i | 0 <= i < |out| ensures Strip(step, s, out)[i] == out[i] {
        StripAt(step, s, out, i);
        StripAt(step, s, bytes, i);
      }
    }
  }

  /** One token, then the rest. */
  lemma TakeToken<S(!new)>(step: Lexer<S>, s: S, token: seq<Byte>, tail: seq<Byte>, blank: bool, next: S)
    requires token != [] && step(s, token + tail) == Token(|token|, blank, next)
    ensures Strip(step, s, token + tail) == Emit(token, blank) + Strip(step, next, tail)
  {
    assert (token + tail)[..|token|] == token;
    assert (token + tail)[|token|..] == tail;
  }

  lemma EmitStep(text: seq<Byte>, lo: nat, mid: nat, hi: nat, blank: bool)
    requires lo <= mid <= hi <= |text|
    ensures Emit(text[lo..hi], blank) == Emit(text[lo..mid], blank) + Emit(text[mid..hi], blank)
  {
    assert text[lo..hi] == text[lo..mid] + text[mid..hi];
    EmitConcat(text[lo..mid], text[mid..hi], blank);
  }

  lemma EmitConcat(a: seq<Byte>, b: seq<Byte>, blank: bool)
    ensures Emit(a + b, blank) == Emit(a, blank) + Emit(b, blank)
  {
    if blank {
      var whole, left, right := Blanked(a + b), Blanked(a), Blanked(b);
      forall i | 0 <= i < |a + b| ensures whole[i] == (left + right)[i] {
        assert (a + b)[i] == if i < |a| then a[i] else b[i - |a|];
      }
      assert whole == left + right;
    }
  }

  predicate StartsWith(rest: seq<Byte>, needle: seq<Byte>) {
    |needle| <= |rest| && rest[..|needle|] == needle
  }

  lemma FirstByteDiffers(rest: seq<Byte>, needle: seq<Byte>)
    requires rest != [] && needle != [] && rest[0] != needle[0]
    ensures !StartsWith(rest, needle)
  {
    if |needle| <= |rest| {
      assert rest[..|needle|][0] == rest[0];
    }
  }

  lemma StartsWithOne(rest: seq<Byte>, b: Byte)
    ensures StartsWith(rest, [b]) <==> rest != [] && rest[0] == b
  {
    if rest != [] {
      assert rest[..1] == [rest[0]];
    }
  }

  lemma StartsWithTwo(rest: seq<Byte>, a: Byte, b: Byte)
    ensures StartsWith(rest, [a, b]) <==> |rest| >= 2 && rest[0] == a && rest[1] == b
  {
    if |rest| >= 2 {
      assert rest[..2] == [rest[0], rest[1]];
    }
  }

  lemma StartsWithThree(rest: seq<Byte>, a: Byte, b: Byte, c: Byte)
    ensures StartsWith(rest, [a, b, c]) <==> |rest| >= 3 && rest[0] == a && rest[1] == b && rest[2] == c
  {
    if |rest| >= 3 {
      assert rest[..3] == [rest[0], rest[1], rest[2]];
    }
  }
}
