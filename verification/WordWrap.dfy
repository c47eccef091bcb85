/** Wrapping the input box. */
module WordWrap {
  import opened Prelude

  /** What the terminal library says about characters: how wide each is, and which are
      whitespace.  The width of a text is the sum over its characters. */
  datatype Font = Font(width: char -> nat, space: char -> bool)

  function TextWidth(f: Font, s: string): nat {
    if s == [] then 0 else TextWidth(f, s[..|s| - 1]) + f.width(s[|s| - 1])
  }

  lemma {:induction false} WidthConcat(f: Font, a: string, b: string)
    ensures TextWidth(f, a + b) == TextWidth(f, a) + TextWidth(f, b)
    decreases |b|
  {
    if b == [] {
      assert a + b == a;
    } else {
      assert (a + b)[..|a + b| - 1] == a + b[..|b| - 1];
      WidthConcat(f, a, b[..|b| - 1]);
    }
  }

  predicate AllSpace(f: Font, s: string) {
    forall i | 0 <= i < |s| :: f.space(s[i])
  }

  predicate NoSpace(f: Font, s: string) {
    forall i | 0 <= i < |s| :: !f.space(s[i])
  }

  // --- Specification

  /** Where the word at the end of a line starts. */
  function LastWordStart(f: Font, line: string): (n: nat)
    ensures n <= |line| && NoSpace(f, line[n..])
    ensures n > 0 ==> f.space(line[n - 1])
  {
    if line == [] || f.space(line[|line| - 1]) then |line| else
    var n := LastWordStart(f, line[..|line| - 1]);
    assert line[n..] == line[..|line| - 1][n..] + [line[|line| - 1]];
    n
  }

  /** Where the whitespace ending at `end` starts. */
  function GapStart(f: Font, line: string, end: nat): (n: nat)
    requires end <= |line|
    ensures n <= end && AllSpace(f, line[n..end])
    ensures n > 0 ==> !f.space(line[n - 1])
  {
    if end == 0 || !f.space(line[end - 1]) then end else
    var n := GapStart(f, line, end - 1);
    assert line[n..end] == line[n..end - 1] + [line[end - 1]];
    n
  }

  /** The last run of whitespace in a line, if it has one. */
  function Boundary(f: Font, line: string): (r: Option<(nat, nat)>)
    ensures r.None? ==> NoSpace(f, line)
    ensures r.Some? ==> r.value.0 < r.value.1 <= |line|
  {
    var end := LastWordStart(f, line);
    assert end == 0 ==> line[end..] == line;
    if end == 0 then None else Some((GapStart(f, line, end), end))
  }

  /** Finished lines, and the line being filled. */
  datatype Page = Page(done: seq<string>, current: string)

  function Broken(f: Font, p: Page): Page {
    match Boundary(f, p.current)
    case None => Page(p.done + [p.current], "")
    case Some((lineEnd, nextStart)) => Page(p.done + [p.current[..lineEnd]], p.current[nextStart..])
  }

  function Appended(f: Font, width: nat, p: Page, c: char): Page {
    if TextWidth(f, p.current) + f.width(c) <= width then p.(current := p.current + [c])
    else if f.space(c) then Page(p.done + [p.current], "")
    else
      var q := Broken(f, p);
      if q.current != [] && TextWidth(f, q.current) + f.width(c) > width then Page(q.done + [q.current], [c])
      else q.(current := q.current + [c])
  }

  function Filled(f: Font, width: nat, prompt: string, input: string): Page {
    if input == [] then Page([], prompt)
    else Appended(f, width, Filled(f, width, prompt, input[..|input| - 1]), input[|input| - 1])
  }

  /** The effective width is never zero. */
  function AtLeastOne(width: nat): nat {
    if width == 0 then 1 else width
  }

  function Wrapped(f: Font, prompt: string, input: string, width: nat): seq<string> {
    var p := Filled(f, AtLeastOne(width), prompt, input);
    p.done + [p.current]
  }

  // --- The program

  method LastWordBoundary(f: Font, line: string) returns (r: Option<(nat, nat)>)
    ensures r == Boundary(f, line)
  {
    var currentStart: Option<nat> := None;
    r := None;
    for i := 0 to |line|
      invariant currentStart.Some? <==> i > 0 && f.space(line[i - 1])
      invariant r == Boundary(f, line[..i])
      invariant currentStart.Some? ==> currentStart.value < i && currentStart.value == GapStart(f, line[..i], i)
    {
      assert line[..i + 1] == line[..i] + [line[i]];
      if f.space(line[i]) {
        if currentStart.None? {
          currentStart := Some(i);
        }
        BoundaryAtSpace(f, line[..i], line[i], currentStart.value);
        r := Some((currentStart.value, i + 1));
      } else {
        currentStart := None;
        BoundaryPrefix(f, line[..i], line[i]);
      }
    }
    assert line[..|line|] == line;
  }

  lemma {:induction false} GapStartPrefix(f: Font, line: string, c: char, end: nat)
    requires end <= |line|
    ensures GapStart(f, line + [c], end) == GapStart(f, line, end)
  {
    if end > 0 && f.space(line[end - 1]) {
      GapStartPrefix(f, line, c, end - 1);
    }
  }

  lemma BoundaryAtSpace(f: Font, line: string, c: char, start: nat)
    requires f.space(c) && start == GapStart(f, line, |line|)
    ensures Boundary(f, line + [c]) == Some((start, |line| + 1)) && GapStart(f, line + [c], |line| + 1) == start
  {
    GapStartPrefix(f, line, c, |line|);
  }

  lemma BoundaryPrefix(f: Font, line: string, c: char)
    requires !f.space(c)
    ensures Boundary(f, line + [c]) == Boundary(f, line)
  {
    assert (line + [c])[..|line|] == line;
    GapStartPrefix(f, line, c, LastWordStart(f, line));
  }

  method WrapCurrentLine(f: Font, lines: seq<string>, current: string) returns (lines': seq<string>, current': string)
    ensures Page(lines', current') == Broken(f, Page(lines, current))
  {
    var boundary := LastWordBoundary(f, current);
    if boundary.None? {
      return lines + [current], "";
    }
    var (lineEnd, nextStart) := boundary.value;
    var nextLine := current[nextStart..];
    return lines + [current[..lineEnd]], nextLine;
  }

  method AppendWrappedCharacter(f: Font, lines: seq<string>, current: string, c: char, width: nat)
    returns (lines': seq<string>, current': string)
    ensures Page(lines', current') == Appended(f, width, Page(lines, current), c)
  {
    if TextWidth(f, current) + f.width(c) <= width {
      return lines, current + [c];
    }
    if f.space(c) {
      return lines + [current], "";
    }
    lines', current' := WrapCurrentLine(f, lines, current);
    ghost var q := Page(lines', current');
    while current' != [] && TextWidth(f, current') + f.width(c) > width
      invariant Page(lines', current') == q ||
        (q.current != [] && TextWidth(f, q.current) + f.width(c) > width
         && Page(lines', current') == Page(q.done + [q.current], ""))
      decreases |current'|
    {
      lines', current' := lines' + [current'], "";
    }
    current' := current' + [c];
  }

  method WrapInputText(f: Font, prompt: string, input: string, width: nat) returns (lines: seq<string>)
    ensures lines == Wrapped(f, prompt, input, width)
  {
    var w := AtLeastOne(width);
    var current := prompt;
    lines := [];
    for i := 0 to |input|
      invariant Page(lines, current) == Filled(f, w, prompt, input[..i])
    {
      assert input[..i + 1][..i] == input[..i];
      lines, current := AppendWrappedCharacter(f, lines, current, input[i], w);
    }
    assert input[..|input|] == input;
    lines := lines + [current];
  }

  // --- What wrapping promises

  /** A line break: the finished line, the whitespace dropped after it, and the start of
      the next word, which is what did not fit. */
  datatype Break = Break(line: string, gap: string, head: string)

  /** The text that lines and dropped whitespace make together. */
  function Weave(breaks: seq<Break>, last: string): string {
    if breaks == [] then last else breaks[0].line + breaks[0].gap + Weave(breaks[1..], last)
  }

  function NextLine(breaks: seq<Break>, last: string): string {
    if breaks == [] then last else breaks[0].line
  }

  /** A break drops only whitespace; it splits a word only when the line is nothing but
      that word; and it is not early: the line, the dropped whitespace and the next word,
      as far as one character past the next line, are too wide together. */
  ghost predicate GoodBreak(f: Font, width: nat, b: Break, more: seq<Break>, last: string) {
    AllSpace(f, b.gap)
    && (b.gap == [] ==> NoSpace(f, b.line))
    && NoSpace(f, b.head) && b.head <= Weave(more, last) && |b.head| <= |NextLine(more, last)| + 1
    && TextWidth(f, b.line) + TextWidth(f, b.gap) + TextWidth(f, b.head) > width
  }

  ghost predicate GoodBreaks(f: Font, width: nat, breaks: seq<Break>, last: string) {
    breaks == [] || (GoodBreak(f, width, breaks[0], breaks[1..], last) && GoodBreaks(f, width, breaks[1..], last))
  }

  function BrokenLines(breaks: seq<Break>): seq<string> {
    if breaks == [] then [] else [breaks[0].line] + BrokenLines(breaks[1..])
  }

  /** Growing the last line keeps every break good. */
  lemma {:induction false} GrowLast(f: Font, width: nat, breaks: seq<Break>, last: string, c: char)
    requires GoodBreaks(f, width, breaks, last)
    ensures GoodBreaks(f, width, breaks, last + [c])
    ensures Weave(breaks, last + [c]) == Weave(breaks, last) + [c]
  {
    if breaks == [] {
    } else {
      GrowLast(f, width, breaks[1..], last, c);
    }
  }

  /** A text without whitespace that begins another stops before its first whitespace. */
  lemma HeadStops(f: Font, head: string, text: string, at: nat)
    requires NoSpace(f, head) && head <= text && at < |text| && f.space(text[at])
    ensures |head| <= at
  {
    assert forall i | 0 <= i < |head| :: head[i] == text[i];
  }

  lemma {:induction false} BreaksConcat(a: seq<Break>, b: seq<Break>, last: string)
    ensures Weave(a + b, last) == Weave(a, Weave(b, last))
    ensures BrokenLines(a + b) == BrokenLines(a) + BrokenLines(b)
  {
    if a == [] {
      assert a + b == b;
    } else {
      assert (a + b)[1..] == a[1..] + b;
      BreaksConcat(a[1..], b, last);
    }
  }

  /** Ending the last line with good breaks keeps every earlier break good, as long as
      the new lines still hold the word the old one began with. */
  lemma {:induction false} BreakLast(f: Font, width: nat, breaks: seq<Break>, last: string, added: seq<Break>,
      next: string)
    requires GoodBreaks(f, width, breaks, last) && GoodBreaks(f, width, added, next) && added != []
    requires last <= Weave(added, next)
    requires added[0].line == last || (added[0].line + added[0].gap <= last && added[0].gap != [])
    ensures GoodBreaks(f, width, breaks + added, next)
    decreases |breaks|
  {
    if breaks == [] {
      assert breaks + added == added;
    } else {
      var first, more := breaks[0], breaks[1..];
      BreakLast(f, width, more, last, added, next);
      FirstStays(f, width, first, more, last, added, next);
      GoodCons(f, width, breaks, added, next);
    }
  }

  lemma GoodCons(f: Font, width: nat, breaks: seq<Break>, added: seq<Break>, next: string)
    requires breaks != [] && GoodBreak(f, width, breaks[0], breaks[1..] + added, next)
    requires GoodBreaks(f, width, breaks[1..] + added, next)
    ensures GoodBreaks(f, width, breaks + added, next)
  {
    assert (breaks + added)[0] == breaks[0];
    assert (breaks + added)[1..] == breaks[1..] + added;
  }

  lemma FirstStays(f: Font, width: nat, first: Break, more: seq<Break>, last: string, added: seq<Break>, next: string)
    requires GoodBreak(f, width, first, more, last) && GoodBreaks(f, width, added, next) && added != []
    requires last <= Weave(added, next)
    requires added[0].line == last || (added[0].line + added[0].gap <= last && added[0].gap != [])
    ensures GoodBreak(f, width, first, more + added, next)
  {
    WeavePrefix(more, last, Weave(added, next));
    BreaksConcat(more, added, next);
    HeadRoom(f, width, first, more, last, added, next);
    BreakStays(f, width, first, more, last, more + added, next);
  }

  lemma BreakStays(f: Font, width: nat, b: Break, more: seq<Break>, last: string, more': seq<Break>, last': string)
    requires GoodBreak(f, width, b, more, last)
    requires Weave(more, last) <= Weave(more', last') && |b.head| <= |NextLine(more', last')| + 1
    ensures GoodBreak(f, width, b, more', last')
  {
    var before, after := Weave(more, last), Weave(more', last');
    assert b.head == before[..|b.head|] == after[..|b.head|];
  }

  lemma HeadRoom(f: Font, width: nat, b: Break, more: seq<Break>, last: string, added: seq<Break>, next: string)
    requires GoodBreak(f, width, b, more, last) && GoodBreaks(f, width, added, next) && added != []
    requires added[0].line == last || (added[0].line + added[0].gap <= last && added[0].gap != [])
    ensures |b.head| <= |NextLine(more + added, next)| + 1
  {
    if more == [] {
      assert more + added == added;
      if added[0].line != last {
        var line, gap := added[0].line, added[0].gap;
        assert last[|line|] == (line + gap)[|line|] == gap[0];
        HeadStops(f, b.head, last, |line|);
      }
    } else {
      assert (more + added)[0] == more[0];
    }
  }

  lemma {:induction false} WeavePrefix(breaks: seq<Break>, a: string, b: string)
    requires a <= b
    ensures Weave(breaks, a) <= Weave(breaks, b)
  {
    if breaks == [] {
    } else {
      WeavePrefix(breaks[1..], a, b);
    }
  }

  lemma WidthOfOne(f: Font, c: char)
    ensures TextWidth(f, [c]) == f.width(c)
  {
    assert [c][..0] == [];
  }

  /** A break right after a line that holds no whitespace. */
  lemma WordBreak(f: Font, width: nat, word: string, c: char)
    requires NoSpace(f, word) && !f.space(c) && TextWidth(f, word) + f.width(c) > width
    ensures GoodBreaks(f, width, [Break(word, [], [c])], [c])
    ensures Weave([Break(word, [], [c])], [c]) == word + [c]
  {
    WidthOfOne(f, c);
    assert [Break(word, [], [c])][1..] == [];
    assert word + [] + [c] == word + [c];
  }

  lemma PartsWidth(f: Font, line: string, gap: string, word: string)
    ensures TextWidth(f, line + gap + word) == TextWidth(f, line) + TextWidth(f, gap) + TextWidth(f, word)
  {
    WidthConcat(f, line, gap);
    WidthConcat(f, line + gap, word);
  }

  /** A break at whitespace, carrying the last word and `c` over. */
  lemma GapBreak(f: Font, width: nat, line: string, gap: string, word: string, c: char, more: seq<Break>, next: string)
    requires AllSpace(f, gap) && gap != [] && NoSpace(f, word) && !f.space(c)
    requires TextWidth(f, line + gap + word) + f.width(c) > width
    requires Weave(more, next) == word + [c] && |word| <= |NextLine(more, next)|
    ensures GoodBreak(f, width, Break(line, gap, word + [c]), more, next)
  {
    PartsWidth(f, line, gap, word);
    WidthConcat(f, word, [c]);
    WidthOfOne(f, c);
  }

  /** The breaks made when `c` does not fit after `line`, and what the last line is then. */
  lemma NewBreaks(f: Font, width: nat, current: string, c: char) returns (made: seq<Break>, next: string)
    requires TextWidth(f, current) + f.width(c) > width && !f.space(c)
    ensures made != [] && GoodBreaks(f, width, made, next) && Weave(made, next) == current + [c]
    ensures Appended(f, width, Page([], current), c) == Page(BrokenLines(made), next)
    ensures made[0].line == current || (made[0].line + made[0].gap <= current && made[0].gap != [])
  {
    if Boundary(f, current).None? {
      made, next := [Break(current, [], [c])], [c];
      WordBreak(f, width, current, c);
    } else {
      made, next := BoundaryBreaks(f, width, current, c);
    }
  }

  lemma BoundaryBreaks(f: Font, width: nat, current: string, c: char) returns (made: seq<Break>, next: string)
    requires TextWidth(f, current) + f.width(c) > width && !f.space(c) && Boundary(f, current).Some?
    ensures made != [] && GoodBreaks(f, width, made, next) && Weave(made, next) == current + [c]
    ensures Appended(f, width, Page([], current), c) == Page(BrokenLines(made), next)
    ensures made[0].line + made[0].gap <= current && made[0].gap != []
  {
    var (lineEnd, nextStart) := Boundary(f, current).value;
    BoundaryParts(f, current);
    made, next := GapBreaks(f, width, current[..lineEnd], current[lineEnd..nextStart], current[nextStart..], c);
  }

  lemma GapBreaks(f: Font, width: nat, line: string, gap: string, word: string, c: char)
    returns (made: seq<Break>, next: string)
    requires AllSpace(f, gap) && gap != [] && NoSpace(f, word) && !f.space(c)
    requires TextWidth(f, line + gap + word) + f.width(c) > width
    ensures made != [] && made[0].line == line && made[0].gap == gap
    ensures GoodBreaks(f, width, made, next) && Weave(made, next) == line + gap + word + [c]
    ensures if word != [] && TextWidth(f, word) + f.width(c) > width
            then BrokenLines(made) == [line, word] && next == [c]
            else BrokenLines(made) == [line] && next == word + [c]
  {
    var more: seq<Break> := [];
    next := word + [c];
    if word != [] && TextWidth(f, word) + f.width(c) > width {
      more, next := [Break(word, [], [c])], [c];
      WordBreak(f, width, word, c);
      assert more[1..] == [] && BrokenLines(more) == [word];
    }
    GapBreak(f, width, line, gap, word, c, more, next);
    made := [Break(line, gap, word + [c])] + more;
    assert made[1..] == more;
    Assoc(line + gap, word, [c]);
  }

  lemma BoundaryParts(f: Font, line: string)
    requires Boundary(f, line).Some?
    ensures var (lineEnd, nextStart) := Boundary(f, line).value;
      AllSpace(f, line[lineEnd..nextStart]) && NoSpace(f, line[nextStart..])
      && line == line[..lineEnd] + line[lineEnd..nextStart] + line[nextStart..]
  {
  }

  /** One appended character: the breaks already made stay, and any new ones are good. */
  lemma AppendGood(f: Font, width: nat, breaks: seq<Break>, p: Page, c: char) returns (breaks': seq<Break>)
    requires p.done == BrokenLines(breaks) && GoodBreaks(f, width, breaks, p.current)
    ensures var q := Appended(f, width, p, c);
      q.done == BrokenLines(breaks') && GoodBreaks(f, width, breaks', q.current)
      && Weave(breaks', q.current) == Weave(breaks, p.current) + [c]
  {
    GrowLast(f, width, breaks, p.current, c);
    if TextWidth(f, p.current) + f.width(c) <= width {
      return breaks;
    }
    if f.space(c) {
      var b := Break(p.current, [c], []);
      WidthOfOne(f, c);
      assert [b][1..] == [] && p.current + [c] + [] == p.current + [c];
      BreakLast(f, width, breaks, p.current, [b], []);
      BreaksConcat(breaks, [b], []);
      return breaks + [b];
    }
    var made, next := NewBreaks(f, width, p.current, c);
    BreakLast(f, width, breaks, p.current, made, next);
    BreaksConcat(breaks, made, next);
    AppendedDone(f, width, p, c);
    breaks' := breaks + made;
  }

  /** Appending never looks at the lines already finished. */
  lemma AppendedDone(f: Font, width: nat, p: Page, c: char)
    ensures var q := Appended(f, width, Page([], p.current), c);
      Appended(f, width, p, c) == Page(p.done + q.done, q.current)
  {
    var q := Broken(f, Page([], p.current));
    assert Broken(f, p) == Page(p.done + q.done, q.current);
    assert p.done + [] == p.done;
    assert p.done + q.done + [q.current] == p.done + (q.done + [q.current]);
  }

  /** Prompt and input are the output lines with whitespace dropped between them, and
      every break is a good one. */
  lemma {:induction false} WrapBreaksWell(f: Font, width: nat, prompt: string, input: string)
      returns (breaks: seq<Break>)
    ensures var p := Filled(f, width, prompt, input);
      p.done == BrokenLines(breaks) && GoodBreaks(f, width, breaks, p.current)
      && Weave(breaks, p.current) == prompt + input
    decreases |input|
  {
    if input == [] {
      breaks := [];
      assert prompt + input == prompt;
    } else {
      var before, c := input[..|input| - 1], input[|input| - 1];
      var earlier := WrapBreaksWell(f, width, prompt, before);
      breaks := AppendGood(f, width, earlier, Filled(f, width, prompt, before), c);
      LastApart(prompt, input);
    }
  }

  lemma LastApart(prompt: string, input: string)
    requires input != []
    ensures prompt + input[..|input| - 1] + [input[|input| - 1]] == prompt + input
  {
  }

  ghost predicate AllFit(f: Font, width: nat, lines: seq<string>) {
    forall i | 0 <= i < |lines| :: TextWidth(f, lines[i]) <= width
  }

  lemma AppendFits(f: Font, width: nat, p: Page, c: char)
    requires AllFit(f, width, p.done) && TextWidth(f, p.current) <= width
    requires f.space(c) || f.width(c) <= width
    ensures var q := Appended(f, width, p, c); AllFit(f, width, q.done) && TextWidth(f, q.current) <= width
  {
    WidthConcat(f, p.current, [c]);
    WidthOfOne(f, c);
    BrokenFits(f, width, p);
    WidthConcat(f, Broken(f, p).current, [c]);
  }

  lemma BrokenFits(f: Font, width: nat, p: Page)
    requires AllFit(f, width, p.done) && TextWidth(f, p.current) <= width
    ensures var q := Broken(f, p); AllFit(f, width, q.done) && TextWidth(f, q.current) <= width
  {
    if Boundary(f, p.current).Some? {
      var (lineEnd, nextStart) := Boundary(f, p.current).value;
      BoundaryParts(f, p.current);
      PartsWidth(f, p.current[..lineEnd], p.current[lineEnd..nextStart], p.current[nextStart..]);
    }
  }

  lemma {:induction false} FilledFits(f: Font, width: nat, prompt: string, input: string)
    requires TextWidth(f, prompt) <= width
    requires forall i | 0 <= i < |input| :: f.space(input[i]) || f.width(input[i]) <= width
    ensures var p := Filled(f, width, prompt, input); AllFit(f, width, p.done) && TextWidth(f, p.current) <= width
    decreases |input|
  {
    if input == [] {
    } else {
      FilledFits(f, width, prompt, input[..|input| - 1]);
      AppendFits(f, width, Filled(f, width, prompt, input[..|input| - 1]), input[|input| - 1]);
    }
  }

  lemma {:induction false} CharNoWider(f: Font, s: string, i: nat)
    requires i < |s|
    ensures f.width(s[i]) <= TextWidth(f, s)
    decreases |s|
  {
    if i < |s| - 1 {
      CharNoWider(f, s[..|s| - 1], i);
    }
  }

  /** A character that is not whitespace is on some line. */
  lemma {:induction false} NothingLost(f: Font, width: nat, breaks: seq<Break>, last: string, i: nat)
      returns (n: nat, k: nat)
    requires GoodBreaks(f, width, breaks, last)
    requires i < |Weave(breaks, last)| && !f.space(Weave(breaks, last)[i])
    ensures var lines := BrokenLines(breaks) + [last];
      n < |lines| && k < |lines[n]| && lines[n][k] == Weave(breaks, last)[i]
  {
    if breaks == [] {
      return 0, i;
    }
    var b, rest := breaks[0], Weave(breaks[1..], last);
    IndexOfThree(b.line, b.gap, rest, i);
    if i < |b.line| {
      return 0, i;
    }
    n, k := NothingLost(f, width, breaks[1..], last, i - |b.line| - |b.gap|);
    LinesShift(breaks, last, n);
    n := n + 1;
  }

  lemma LinesShift(breaks: seq<Break>, last: string, n: nat)
    requires breaks != [] && n < |BrokenLines(breaks[1..]) + [last]|
    ensures var lines := BrokenLines(breaks) + [last];
      n + 1 < |lines| && lines[n + 1] == (BrokenLines(breaks[1..]) + [last])[n]
  {
  }

  /** With a prompt that fits, every line fits exactly when every character of the input
      that is not whitespace fits on a line by itself. */
  lemma EveryLineFitsExactly(f: Font, prompt: string, input: string, width: nat)
    requires TextWidth(f, prompt) <= AtLeastOne(width)
    ensures AllFit(f, AtLeastOne(width), Wrapped(f, prompt, input, width))
       <==> forall i | 0 <= i < |input| :: f.space(input[i]) || f.width(input[i]) <= AtLeastOne(width)
    ensures AtLeastOne(width) == if width > 0 then width else 1
  {
    var w := AtLeastOne(width);
    if forall i | 0 <= i < |input| :: f.space(input[i]) || f.width(input[i]) <= w {
      FilledFits(f, w, prompt, input);
    } else {
      var i :| 0 <= i < |input| && !(f.space(input[i]) || f.width(input[i]) <= w);
      TooWideStays(f, prompt, input, w, i);
    }
  }

  /** A character too wide for any line makes the line it is on too wide. */
  lemma TooWideStays(f: Font, prompt: string, input: string, width: nat, i: nat)
    requires i < |input| && !f.space(input[i]) && f.width(input[i]) > width
    ensures var p := Filled(f, width, prompt, input); !AllFit(f, width, p.done + [p.current])
  {
    var p := Filled(f, width, prompt, input);
    var breaks := WrapBreaksWell(f, width, prompt, input);
    var text := prompt + input;
    assert text[|prompt| + i] == input[i];
    var n, k := NothingLost(f, width, breaks, p.current, |prompt| + i);
    TooWideLine(f, p.done + [p.current], width, n, k);
  }

  lemma TooWideLine(f: Font, lines: seq<string>, width: nat, n: nat, k: nat)
    requires n < |lines| && k < |lines[n]| && f.width(lines[n][k]) > width
    ensures !AllFit(f, width, lines)
  {
    CharNoWider(f, lines[n], k);
  }

  lemma {:induction false} FilledUntouched(f: Font, width: nat, prompt: string, input: string)
    requires TextWidth(f, prompt + input) <= width
    ensures Filled(f, width, prompt, input) == Page([], prompt + input)
    decreases |input|
  {
    if input == [] {
      assert prompt + input == prompt;
    } else {
      var before, c := input[..|input| - 1], input[|input| - 1];
      LastApart(prompt, input);
      WidthConcat(f, prompt + before, [c]);
      WidthOfOne(f, c);
      FilledUntouched(f, width, prompt, before);
    }
  }

  /** A text that fits stays on one line. */
  lemma FittingTextUntouched(f: Font, prompt: string, input: string, width: nat)
    requires TextWidth(f, prompt + input) <= AtLeastOne(width)
    ensures Wrapped(f, prompt, input, width) == [prompt + input]
  {
    FilledUntouched(f, AtLeastOne(width), prompt, input);
  }
}
