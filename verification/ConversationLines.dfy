/** The lines of the conversation pane: each block painted, runs of blank lines collapsed. */
module ConversationLines {
  import opened Prelude
  import opened TuiApp
  import opened ConversationPane

  datatype Span = Span(content: string, style: nat)

  type Line = seq<Span>

  /** How a block is painted, and which characters are whitespace. */
  datatype Painter = Painter(paint: Block -> seq<Line>, isSpace: char -> bool)

  predicate AllSpace(p: Painter, text: string) {
    forall i | 0 <= i < |text| :: p.isSpace(text[i])
  }

  predicate IsBlank(p: Painter, line: Line) {
    forall i | 0 <= i < |line| :: AllSpace(p, line[i].content)
  }

  /** A blank line directly after a blank line. */
  predicate Repeats(p: Painter, lines: seq<Line>, i: nat)
    requires i < |lines|
  {
    i > 0 && IsBlank(p, lines[i - 1]) && IsBlank(p, lines[i])
  }

  /** The lines that do not repeat. */
  function Collapsed(p: Painter, lines: seq<Line>): seq<Line> {
    if lines == [] then []
    else
      var n := |lines| - 1;
      Collapsed(p, lines[..n]) + (if Repeats(p, lines, n) then [] else [lines[n]])
  }

  method CollapseBlankLines(p: Painter, lines: seq<Line>) returns (collapsed: seq<Line>)
    ensures collapsed == Collapsed(p, lines)
  {
    collapsed := [];
    var previousWasBlank := false;
    for i := 0 to |lines|
      invariant collapsed == Collapsed(p, lines[..i])
      invariant previousWasBlank <==> i > 0 && IsBlank(p, lines[i - 1])
    {
      var line := lines[i];
      var isBlank := IsBlank(p, line);
      assert lines[..i + 1][..i] == lines[..i];
      assert Repeats(p, lines[..i + 1], i) <==> previousWasBlank && isBlank;
      if !(isBlank && previousWasBlank) {
        collapsed := collapsed + [line];
      }
      previousWasBlank := isBlank;
    }
    assert lines[..|lines|] == lines;
  }

  ghost predicate NoRepeats(p: Painter, lines: seq<Line>) {
    forall i: nat | i < |lines| :: !Repeats(p, lines, i)
  }

  function Inked(p: Painter, lines: seq<Line>): seq<Line> {
    if lines == [] then []
    else
      var n := |lines| - 1;
      Inked(p, lines[..n]) + (if IsBlank(p, lines[n]) then [] else [lines[n]])
  }

  /** No two blank lines are left together, no other line is lost or moved, and the pane starts
      and ends as blank as it did. */
  lemma {:induction false} CollapseKeeps(p: Painter, lines: seq<Line>)
    ensures var out := Collapsed(p, lines);
      NoRepeats(p, out) && Inked(p, out) == Inked(p, lines) && (out == [] <==> lines == [])
      && (lines != [] ==> out[0] == lines[0] && (IsBlank(p, out[|out| - 1]) <==> IsBlank(p, lines[|lines| - 1])))
  {
    if lines == [] {
    } else {
      var n := |lines| - 1;
      var before := Collapsed(p, lines[..n]);
      CollapseKeeps(p, lines[..n]);
      if Repeats(p, lines, n) {
        assert Collapsed(p, lines) == before && Inked(p, lines) == Inked(p, lines[..n]);
      } else {
        OneMoreLine(p, before, lines[n]);
      }
    }
  }

  lemma OneMoreLine(p: Painter, before: seq<Line>, line: Line)
    requires NoRepeats(p, before) && (before != [] ==> !(IsBlank(p, before[|before| - 1]) && IsBlank(p, line)))
    ensures NoRepeats(p, before + [line])
    ensures Inked(p, before + [line]) == Inked(p, before) + (if IsBlank(p, line) then [] else [line])
  {
    var after := before + [line];
    assert after[..|before|] == before;
    forall i: nat | i < |after| ensures !Repeats(p, after, i) {
      assert i < |before| ==> !Repeats(p, before, i);
    }
  }

  /** So collapsing changes nothing exactly where no blank lines are together. */
  lemma {:induction false} CollapsedAlready(p: Painter, lines: seq<Line>)
    ensures Collapsed(p, lines) == lines <==> NoRepeats(p, lines)
  {
    CollapseKeeps(p, lines);
    if NoRepeats(p, lines) {
      NothingToCollapse(p, lines);
    }
  }

  lemma {:induction false} NothingToCollapse(p: Painter, lines: seq<Line>)
    requires NoRepeats(p, lines)
    ensures Collapsed(p, lines) == lines
  {
    if lines == [] {
    } else {
      var n := |lines| - 1;
      forall i: nat | i < n ensures !Repeats(p, lines[..n], i) {
        assert !Repeats(p, lines, i);
      }
      NothingToCollapse(p, lines[..n]);
      assert !Repeats(p, lines, n);
      assert lines == lines[..n] + [lines[n]];
    }
  }

  // --- The pane

  function Painted(p: Painter, blocks: seq<Block>): seq<Line> {
    if blocks == [] then []
    else Painted(p, blocks[..|blocks| - 1]) + p.paint(blocks[|blocks| - 1])
  }

  /** What is on the screen for these blocks. */
  function Screen(p: Painter, blocks: seq<Block>): seq<Line> {
    Collapsed(p, Painted(p, blocks))
  }

  method BuildLinesUncached(p: Painter, v: View, phase: nat, width: nat) returns (lines: seq<Line>)
    ensures lines == Screen(p, Fresh(v, phase, width))
  {
    var blocks := BuildConversationUncached(v, phase, width);
    lines := [];
    for i := 0 to |blocks|
      invariant lines == Painted(p, blocks[..i])
    {
      assert blocks[..i + 1][..i] == blocks[..i];
      lines := lines + p.paint(blocks[i]);
    }
    assert blocks[..|blocks|] == blocks;
    lines := CollapseBlankLines(p, lines);
  }

  /** However blocks are painted, the lines drawn are those built afresh whenever the draw is
      not stale, and never have two blank lines together. */
  lemma LinesAreFresh(p: Painter, v: View, happenings: seq<Happening>, derive: Derive, millis: nat, width: nat)
    ensures var s := Course(Opening(v), happenings, derive);
      var drawn := Screen(p, Drawn(s.cache, s.view, millis, width).blocks);
      NoRepeats(p, drawn)
      && (!Hits(s.cache, s.view, millis, width)
            || (SameInFlight(s.view, s.madeFor.activeChatId) && StillLooksRight(s.view, s.madeAt, millis))
          ==> drawn == Screen(p, Fresh(s.view, millis / 200, width)))
  {
    var s := Course(Opening(v), happenings, derive);
    DrawIsFreshExactly(v, happenings, derive, millis, width);
    CollapseKeeps(p, Painted(p, Drawn(s.cache, s.view, millis, width).blocks));
  }
}
