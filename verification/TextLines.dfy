/** Texts as lines. */
module TextLines {
  import opened Prelude
  import opened Lexing

  predicate OneLine(text: seq<Byte>) {
    NEWLINE !in text
  }

  /** The index of the first newline, or the length when there is none. */
  function LineEnd(text: seq<Byte>): (n: nat)
    ensures n <= |text| && OneLine(text[..n])
    ensures n < |text| ==> text[n] == NEWLINE
  {
    if text == [] || text[0] == NEWLINE then 0 else
    var n := LineEnd(text[1..]);
    assert text[..1 + n] == [text[0]] + text[1..][..n];
    1 + n
  }

  lemma {:induction false} LineEndIs(line: seq<Byte>, tail: seq<Byte>)
    requires OneLine(line) && (tail == [] || tail[0] == NEWLINE)
    ensures LineEnd(line + tail) == |line|
    decreases |line|
  {
    if line == [] {
      assert line + tail == tail;
    } else {
      assert (line + tail)[1..] == line[1..] + tail;
      LineEndIs(line[1..], tail);
    }
  }

  lemma CutAt(line: seq<Byte>, rest: seq<Byte>)
    requires OneLine(line)
    ensures var text := line + [NEWLINE] + rest;
      LineEnd(text) == |line| < |text| && text[..|line|] == line && text[|line| + 1..] == rest
  {
    assert line + [NEWLINE] + rest == line + ([NEWLINE] + rest);
    LineEndIs(line, [NEWLINE] + rest);
  }

  lemma Uncut(line: seq<Byte>)
    requires OneLine(line)
    ensures LineEnd(line) == |line|
  {
    LineEndIs(line, []);
    assert line + [] == line;
  }

  lemma RegroupLines(a: seq<Byte>, b: seq<Byte>, c: seq<Byte>)
    ensures a + [NEWLINE] + (b + [NEWLINE] + c) == (a + [NEWLINE] + b) + [NEWLINE] + c
  {
  }

  lemma AtFirstCut(text: seq<Byte>)
    requires LineEnd(text) < |text|
    ensures text == text[..LineEnd(text)] + [NEWLINE] + text[LineEnd(text) + 1..]
  {
    SplitAround(text, LineEnd(text));
  }

  /** Two texts cut at their first newline agree when both parts do. */
  lemma SameCut(a: seq<Byte>, x: seq<Byte>, b: seq<Byte>, y: seq<Byte>)
    requires OneLine(a) && OneLine(b)
    ensures a + [NEWLINE] + x == b + [NEWLINE] + y <==> a == b && x == y
  {
    var left, right := a + [NEWLINE] + x, b + [NEWLINE] + y;
    if left == right {
      assert left == a + ([NEWLINE] + x) && right == b + ([NEWLINE] + y);
      LineEndIs(a, [NEWLINE] + x);
      LineEndIs(b, [NEWLINE] + y);
      assert a == left[..|a|] && b == right[..|b|];
      assert x == left[|a| + 1..] && y == right[|b| + 1..];
    }
  }

  const CARRIAGE_RETURN: Byte := 13

  /** One line of a text, and whether a newline ended it. */
  datatype Record = Record(line: seq<Byte>, ended: bool)

  function Records(text: seq<Byte>): seq<Record>
    decreases |text|
  {
    if text == [] then [] else
    var n := LineEnd(text);
    if n == |text| then [Record(text, false)]
    else [Record(text[..n], true)] + Records(text[n + 1..])
  }

  lemma RecordAt(text: seq<Byte>, i: nat)
    requires LineEnd(text) < |text| && i < |Records(text)|
    ensures |Records(text)| == 1 + |Records(text[LineEnd(text) + 1..])|
    ensures Records(text)[i]
         == if i == 0 then Record(text[..LineEnd(text)], true) else Records(text[LineEnd(text) + 1..])[i - 1]
  {
  }

  /** A carriage return is dropped only where a newline follows it. */
  function LineOf(r: Record): seq<Byte> {
    if r.ended && r.line != [] && r.line[|r.line| - 1] == CARRIAGE_RETURN
    then r.line[..|r.line| - 1] else r.line
  }

  function Lines(text: seq<Byte>): (lines: seq<seq<Byte>>)
    ensures |lines| == |Records(text)|
  {
    seq(|Records(text)|, i requires 0 <= i < |Records(text)| => LineOf(Records(text)[i]))
  }

  /** Both texts break into lines at the same places, and the same lines are empty. */
  ghost predicate SameLines(raw: seq<Byte>, out: seq<Byte>)
    decreases |raw|
  {
    var n, m := LineEnd(raw), LineEnd(out);
    (n == |raw| <==> m == |out|) &&
    (if n == |raw| then raw == [] <==> out == []
     else SameLines(raw[n + 1..], out[m + 1..]))
  }

  lemma {:induction false} SameLineCount(raw: seq<Byte>, out: seq<Byte>)
    requires SameLines(raw, out)
    ensures |Lines(out)| == |Lines(raw)|
    decreases |raw|
  {
    var n, m := LineEnd(raw), LineEnd(out);
    if n < |raw| {
      SameLineCount(raw[n + 1..], out[m + 1..]);
    }
  }

  /** Newlines at the same indices make the same lines. */
  lemma {:induction false} ShapeKeepsLines(raw: seq<Byte>, out: seq<Byte>)
    requires |out| == |raw|
    requires forall i | 0 <= i < |raw| :: out[i] == NEWLINE <==> raw[i] == NEWLINE
    ensures SameLines(raw, out)
    decreases |raw|
  {
    var n := LineEnd(raw);
    if n == |raw| {
      FirstNewlineIs(out, n);
    } else {
      assert forall i | 0 <= i < n :: raw[..n][i] == raw[i];
      FirstNewlineIs(out, n);
      ShapeKeepsLines(raw[n + 1..], out[n + 1..]);
    }
  }

  lemma FirstNewlineIs(text: seq<Byte>, n: nat)
    requires n <= |text| && forall i | 0 <= i < n :: text[i] != NEWLINE
    requires n < |text| ==> text[n] == NEWLINE
    ensures LineEnd(text) == n
  {
    assert text == text[..n] + text[n..];
    LineEndIs(text[..n], text[n..]);
  }

  // --- What lines are

  /** A line with its ending: a newline, one with a carriage return before it, or at the end of
      the text none. */
  ghost predicate IsPiece(piece: seq<Byte>, line: seq<Byte>, last: bool) {
    OneLine(line)
    && ((piece == line + [CARRIAGE_RETURN, NEWLINE])
        || (piece == line + [NEWLINE] && (line == [] || line[|line| - 1] != CARRIAGE_RETURN))
        || (last && piece == line && line != []))
  }

  ghost predicate ArePieces(pieces: seq<seq<Byte>>, lines: seq<seq<Byte>>) {
    |pieces| == |lines| && forall i | 0 <= i < |lines| :: IsPiece(pieces[i], lines[i], i == |lines| - 1)
  }

  /** A text is its lines with their endings, one after the other. */
  lemma {:induction false} LinesAre(text: seq<Byte>) returns (pieces: seq<seq<Byte>>)
    ensures ArePieces(pieces, Lines(text)) && Join(pieces, []) == text
    decreases |text|
  {
    var n := LineEnd(text);
    if text == [] {
      pieces := [];
    } else if n == |text| {
      assert text[..n] == text;
      pieces := [text];
    } else {
      var rest := LinesAre(text[n + 1..]);
      pieces := [text[..n] + [NEWLINE]] + rest;
      FirstLine(text);
      PiecesOn(text[..n] + [NEWLINE], Lines(text)[0], rest, Lines(text[n + 1..]));
      AtFirstCut(text);
    }
  }

  lemma PiecesOn(piece: seq<Byte>, line: seq<Byte>, pieces: seq<seq<Byte>>, lines: seq<seq<Byte>>)
    requires IsPiece(piece, line, lines == []) && ArePieces(pieces, lines)
    ensures ArePieces([piece] + pieces, [line] + lines) && Join([piece] + pieces, []) == piece + Join(pieces, [])
  {
    assert ([piece] + pieces)[1..] == pieces;
    assert piece + [] == piece;
  }

  lemma FirstLine(text: seq<Byte>)
    requires LineEnd(text) < |text|
    ensures |Lines(text)| > 0
    ensures IsPiece(text[..LineEnd(text)] + [NEWLINE], Lines(text)[0], |Lines(text)| == 1)
    ensures Lines(text) == [Lines(text)[0]] + Lines(text[LineEnd(text) + 1..])
  {
    FirstIsPiece(text, |Records(text)| == 1);
    var rest := Lines(text[LineEnd(text) + 1..]);
    forall i | 0 <= i < |rest| ensures Lines(text)[i + 1] == rest[i] {
      NextLine(text, i);
    }
    Begins(Lines(text), rest);
  }

  lemma FirstIsPiece(text: seq<Byte>, last: bool)
    requires LineEnd(text) < |text|
    ensures |Lines(text)| == 1 + |Lines(text[LineEnd(text) + 1..])|
    ensures IsPiece(text[..LineEnd(text)] + [NEWLINE], Lines(text)[0], last)
  {
    assert |Records(text)| == 1 + |Records(text[LineEnd(text) + 1..])|;
    RecordAt(text, 0);
    LineIsPiece(text[..LineEnd(text)], last);
  }

  lemma NextLine(text: seq<Byte>, i: nat)
    requires LineEnd(text) < |text| && i < |Lines(text[LineEnd(text) + 1..])|
    ensures i + 1 < |Lines(text)| && Lines(text)[i + 1] == Lines(text[LineEnd(text) + 1..])[i]
  {
    assert |Records(text)| == 1 + |Records(text[LineEnd(text) + 1..])|;
    RecordAt(text, i + 1);
  }

  lemma Begins<T>(s: seq<T>, rest: seq<T>)
    requires |s| == 1 + |rest| && forall i | 0 <= i < |rest| :: s[i + 1] == rest[i]
    ensures s == [s[0]] + rest
  {
  }

  lemma LineIsPiece(line: seq<Byte>, last: bool)
    requires OneLine(line)
    ensures IsPiece(line + [NEWLINE], LineOf(Record(line, true)), last)
  {
    if line != [] && line[|line| - 1] == CARRIAGE_RETURN {
      assert line == line[..|line| - 1] + [CARRIAGE_RETURN];
      assert line + [NEWLINE] == line[..|line| - 1] + [CARRIAGE_RETURN, NEWLINE];
    }
  }
}
