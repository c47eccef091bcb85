/** Renaming a symbol through the identifier leaves of a syntax tree. */
module RenameSymbol {
  import opened Prelude
  import opened Lexing

  type Text = seq<Byte>

  // --- Syntax trees, as the parser hands them over

  datatype Node = Node(kind: string, start: nat, end: nat, children: seq<Node>)

  /** Children lie inside their parent, in order and without overlap. */
  ghost predicate WellFormed(node: Node, lo: nat, hi: nat) {
    lo <= node.start <= node.end <= hi && AllWellFormed(node.children, node.start, node.end)
  }

  ghost predicate AllWellFormed(nodes: seq<Node>, lo: nat, hi: nat) {
    lo <= hi && (nodes == [] || (WellFormed(nodes[0], lo, hi) && AllWellFormed(nodes[1..], nodes[0].end, hi)))
  }

  predicate EndsWith(s: string, suffix: string) {
    |suffix| <= |s| && s[|s| - |suffix|..] == suffix
  }

  predicate IsIdentifierLike(kind: string) {
    kind == "identifier" || kind == "name" || kind == "word"
    || EndsWith(kind, "_identifier") || EndsWith(kind, "_name")
  }

  predicate IsLetter(b: Byte) {
    65 <= b <= 90 || 97 <= b <= 122
  }

  const UNDERSCORE: Byte := 95

  predicate IsConservativeIdentifier(value: Text) {
    value != [] && (value[0] == UNDERSCORE || IsLetter(value[0]))
    && forall i | 1 <= i < |value| :: value[i] == UNDERSCORE || IsLetter(value[i]) || 48 <= value[i] <= 57
  }

  type Range = (nat, nat)

  predicate Spells(node: Node, source: Text, symbol: Text) {
    IsIdentifierLike(node.kind) && node.start <= node.end <= |source| && source[node.start..node.end] == symbol
  }

  // --- Collecting

  function Collected(node: Node, source: Text, symbol: Text): seq<Range> {
    (if node.children == [] && Spells(node, source, symbol) then [(node.start, node.end)] else [])
      + AllCollected(node.children, source, symbol)
  }

  function AllCollected(nodes: seq<Node>, source: Text, symbol: Text): seq<Range> {
    if nodes == [] then [] else
    AllCollected(nodes[..|nodes| - 1], source, symbol) + Collected(nodes[|nodes| - 1], source, symbol)
  }

  method CollectIdentifierRanges(node: Node, source: Text, symbol: Text, ranges: seq<Range>)
      returns (ranges': seq<Range>)
    ensures ranges' == ranges + Collected(node, source, symbol)
    decreases node
  {
    ranges' := ranges;
    if node.children == [] && Spells(node, source, symbol) {
      ranges' := ranges' + [(node.start, node.end)];
    }
    ghost var own := ranges';
    for i := 0 to |node.children|
      invariant ranges' == own + AllCollected(node.children[..i], source, symbol)
    {
      assert node.children[..i + 1][..i] == node.children[..i];
      ranges' := CollectIdentifierRanges(node.children[i], source, symbol, ranges');
    }
    assert node.children[..|node.children|] == node.children;
  }

  // --- Sorting and removing repeats

  predicate AtMost(a: Range, b: Range) {
    a.0 < b.0 || (a.0 == b.0 && a.1 <= b.1)
  }

  ghost predicate Sorted(ranges: seq<Range>) {
    forall i, j | 0 <= i < j < |ranges| :: AtMost(ranges[i], ranges[j])
  }

  function Insert(r: Range, ranges: seq<Range>): seq<Range> {
    if ranges == [] || AtMost(r, ranges[0]) then [r] + ranges else [ranges[0]] + Insert(r, ranges[1..])
  }

  /** The library sort; on a total order without distinguishable equals, any sort is this one. */
  function SortRanges(ranges: seq<Range>): seq<Range> {
    if ranges == [] then [] else Insert(ranges[0], SortRanges(ranges[1..]))
  }

  lemma {:induction false} InsertSorts(r: Range, ranges: seq<Range>)
    requires Sorted(ranges)
    ensures Sorted(Insert(r, ranges)) && multiset(Insert(r, ranges)) == multiset{r} + multiset(ranges)
  {
    if ranges == [] {
    } else if AtMost(r, ranges[0]) {
      BeforeAll(r, ranges);
    } else {
      var rest := ranges[1..];
      InsertSorts(r, rest);
      assert ranges == [ranges[0]] + rest;
      forall q | q in Insert(r, rest) ensures AtMost(ranges[0], q) {
        assert q in multiset(Insert(r, rest));
        assert q == r || q in rest;
      }
      BeforeAll(ranges[0], Insert(r, rest));
    }
  }

  lemma BeforeAll(first: Range, ranges: seq<Range>)
    requires Sorted(ranges)
    requires (ranges != [] && AtMost(first, ranges[0])) || forall q | q in ranges :: AtMost(first, q)
    ensures Sorted([first] + ranges)
  {
  }

  /** Sorted, with the same ranges as often as before. */
  lemma {:induction false} SortRangesSorts(ranges: seq<Range>)
    ensures Sorted(SortRanges(ranges)) && multiset(SortRanges(ranges)) == multiset(ranges)
  {
    if ranges == [] {
    } else {
      SortRangesSorts(ranges[1..]);
      InsertSorts(ranges[0], SortRanges(ranges[1..]));
      assert ranges == [ranges[0]] + ranges[1..];
    }
  }

  lemma {:induction false} SortedFixed(ranges: seq<Range>)
    requires Sorted(ranges)
    ensures SortRanges(ranges) == ranges
  {
    if ranges == [] {
    } else {
      SortedFixed(ranges[1..]);
      assert ranges == [ranges[0]] + ranges[1..];
      assert |ranges| > 1 ==> AtMost(ranges[0], ranges[1]);
    }
  }

  function Dedup(ranges: seq<Range>): seq<Range> {
    if |ranges| <= 1 then ranges
    else if ranges[0] == ranges[1] then Dedup(ranges[1..])
    else [ranges[0]] + Dedup(ranges[1..])
  }

  /** Ranges in order from `lo` on, none overlapping the next, all different, each `width` long. */
  ghost predicate Spread(ranges: seq<Range>, lo: nat, hi: nat, width: nat) {
    if ranges == [] then lo <= hi else
    lo <= ranges[0].0 && ranges[0].1 == ranges[0].0 + width && ranges[0].1 <= hi
    && Spread(ranges[1..], ranges[0].1, hi, width)
    && (|ranges| > 1 ==> ranges[0] != ranges[1])
  }

  /** As `Spread`, with repeats allowed. */
  ghost predicate Ordered(ranges: seq<Range>, lo: nat, hi: nat, width: nat) {
    if ranges == [] then lo <= hi else
    lo <= ranges[0].0 && ranges[0].1 == ranges[0].0 + width && ranges[0].1 <= hi
    && Ordered(ranges[1..], ranges[0].1, hi, width)
  }

  lemma {:induction false} OrderedFrom(ranges: seq<Range>, lo: nat, hi: nat, width: nat, i: nat)
    requires Ordered(ranges, lo, hi, width) && i < |ranges|
    ensures lo <= ranges[i].0 && ranges[i].1 == ranges[i].0 + width
  {
    if i > 0 {
      OrderedFrom(ranges[1..], ranges[0].1, hi, width, i - 1);
    }
  }

  lemma {:induction false} OrderedSorted(ranges: seq<Range>, lo: nat, hi: nat, width: nat)
    requires Ordered(ranges, lo, hi, width)
    ensures Sorted(ranges)
  {
    if ranges == [] {
    } else {
      OrderedSorted(ranges[1..], ranges[0].1, hi, width);
      forall i, j | 0 <= i < j < |ranges| ensures AtMost(ranges[i], ranges[j]) {
        if i > 0 {
          assert AtMost(ranges[1..][i - 1], ranges[1..][j - 1]);
        } else {
          OrderedFrom(ranges[1..], ranges[0].1, hi, width, j - 1);
        }
      }
    }
  }

  lemma {:induction false} OrderedConcat(a: seq<Range>, b: seq<Range>, lo: nat, mid: nat, hi: nat, width: nat)
    requires Ordered(a, lo, mid, width) && Ordered(b, mid, hi, width)
    ensures Ordered(a + b, lo, hi, width)
  {
    if a == [] {
      assert a + b == b;
      OrderedWiden(b, mid, hi, lo, hi, width);
    } else {
      assert (a + b)[1..] == a[1..] + b;
      OrderedConcat(a[1..], b, a[0].1, mid, hi, width);
      OrderedBound(b, mid, hi, width);
    }
  }

  lemma {:induction false} OrderedBound(ranges: seq<Range>, lo: nat, hi: nat, width: nat)
    requires Ordered(ranges, lo, hi, width)
    ensures lo <= hi
  {
    if ranges == [] {
    } else {
      OrderedBound(ranges[1..], ranges[0].1, hi, width);
    }
  }

  lemma {:induction false} OrderedWiden(ranges: seq<Range>, lo: nat, hi: nat, lo': nat, hi': nat, width: nat)
    requires Ordered(ranges, lo, hi, width) && lo' <= lo && hi <= hi'
    ensures Ordered(ranges, lo', hi', width)
  {
    if ranges == [] {
    } else {
      OrderedWiden(ranges[1..], ranges[0].1, hi, ranges[0].1, hi', width);
    }
  }

  lemma {:induction false} CollectedOrdered(node: Node, source: Text, symbol: Text, lo: nat, hi: nat)
    requires WellFormed(node, lo, hi)
    ensures Ordered(Collected(node, source, symbol), node.start, node.end, |symbol|)
    decreases node, 1
  {
    AllCollectedOrdered(node.children, source, symbol, node.start, node.end);
    if node.children == [] && Spells(node, source, symbol) {
      var r := (node.start, node.end);
      var none: seq<Range> := [];
      assert [r] + none == [r] && [r][1..] == none;
    } else {
      var rest := AllCollected(node.children, source, symbol);
      assert [] + rest == rest;
    }
  }

  lemma {:induction false} AllCollectedOrdered(nodes: seq<Node>, source: Text, symbol: Text, lo: nat, hi: nat)
    requires AllWellFormed(nodes, lo, hi)
    ensures Ordered(AllCollected(nodes, source, symbol), lo, hi, |symbol|)
    decreases nodes, 0
  {
    if nodes == [] {
    } else {
      CollectedOrdered(nodes[0], source, symbol, lo, hi);
      AllCollectedOrdered(nodes[1..], source, symbol, nodes[0].end, hi);
      var first := Collected(nodes[0], source, symbol);
      OrderedWiden(first, nodes[0].start, nodes[0].end, lo, nodes[0].end, |symbol|);
      OrderedConcat(first, AllCollected(nodes[1..], source, symbol), lo, nodes[0].end, hi, |symbol|);
      CollectedFirst(nodes, source, symbol);
    }
  }

  lemma {:induction false} CollectedFirst(nodes: seq<Node>, source: Text, symbol: Text)
    requires nodes != []
    ensures AllCollected(nodes, source, symbol)
         == Collected(nodes[0], source, symbol) + AllCollected(nodes[1..], source, symbol)
    decreases |nodes|
  {
    if |nodes| > 1 {
      var front := nodes[..|nodes| - 1];
      CollectedFirst(front, source, symbol);
      assert nodes[1..][..|nodes| - 2] == front[1..];
      assert nodes[1..][|nodes| - 2] == nodes[|nodes| - 1];
    } else {
      assert nodes[..0] == [] && nodes[1..] == [];
    }
  }

  lemma {:induction false} DedupSpread(ranges: seq<Range>, lo: nat, hi: nat, width: nat)
    requires Ordered(ranges, lo, hi, width)
    ensures Spread(Dedup(ranges), lo, hi, width)
    ensures ranges != [] ==> Dedup(ranges) != [] && Dedup(ranges)[0] == ranges[0]
    ensures width > 0 ==> Dedup(ranges) == ranges
    decreases |ranges|
  {
    if |ranges| > 1 {
      DedupSpread(ranges[1..], ranges[0].1, hi, width);
      if ranges[0] == ranges[1] {
        SpreadWiden(Dedup(ranges[1..]), ranges[0].1, hi, lo, width);
      } else {
        assert Dedup(ranges)[1..] == Dedup(ranges[1..]);
        assert ranges == [ranges[0]] + ranges[1..];
      }
    }
  }

  lemma SpreadWiden(ranges: seq<Range>, lo: nat, hi: nat, lo': nat, width: nat)
    requires Spread(ranges, lo, hi, width) && lo' <= lo
    ensures Spread(ranges, lo', hi, width)
  {
  }

  /** The ranges to rewrite. */
  function Occurrences(tree: Node, source: Text, symbol: Text): seq<Range> {
    Dedup(SortRanges(Collected(tree, source, symbol)))
  }

  /** Whatever well-formed tree they come from, the ranges are strictly ordered, disjoint
      and inside the text, and each covers one spelling of the symbol. */
  lemma OccurrencesSpread(tree: Node, source: Text, symbol: Text)
    requires WellFormed(tree, 0, |source|)
    ensures Spread(Occurrences(tree, source, symbol), 0, |source|, |symbol|)
    ensures symbol != [] ==> Occurrences(tree, source, symbol) == Collected(tree, source, symbol)
  {
    var ranges := Collected(tree, source, symbol);
    CollectedOrdered(tree, source, symbol, 0, |source|);
    OrderedSorted(ranges, tree.start, tree.end, |symbol|);
    SortedFixed(ranges);
    OrderedWiden(ranges, tree.start, tree.end, 0, |source|, |symbol|);
    DedupSpread(ranges, 0, |source|, |symbol|);
  }

  // --- Rewriting

  /** The rewrite from `from` on, in one pass from left to right. */
  function Rewrite(source: Text, from: nat, ranges: seq<Range>, width: nat, replacement: Text): Text
    requires Spread(ranges, from, |source|, width)
    decreases |ranges|
  {
    if ranges == [] then source[from..]
    else
      source[from..ranges[0].0] + replacement + Rewrite(source, ranges[0].1, ranges[1..], width, replacement)
  }

  /** Each range adds the difference in length once. */
  lemma {:induction false} RewriteLength(source: Text, from: nat, ranges: seq<Range>, width: nat, replacement: Text)
    requires Spread(ranges, from, |source|, width)
    ensures |Rewrite(source, from, ranges, width, replacement)| == |source| - from + |ranges| * (|replacement| - width)
    decreases |ranges|
  {
    if ranges == [] {
    } else {
      RewriteLength(source, ranges[0].1, ranges[1..], width, replacement);
      OneMoreTime(|ranges[1..]|, |replacement| - width);
    }
  }

  lemma OneMoreTime(n: nat, d: int)
    ensures (n + 1) * d == n * d + d
  {
  }

  lemma DropHead(head: Text, tail: Text, at: nat)
    requires at <= |tail|
    ensures (head + tail)[|head| + at..] == tail[at..]
  {
  }

  /** Starting earlier copies the bytes in between. */
  lemma RewriteFrom(source: Text, from: nat, to: nat, ranges: seq<Range>, width: nat, replacement: Text)
    requires from <= to && Spread(ranges, to, |source|, width) && Spread(ranges, from, |source|, width)
    ensures to <= |source|
    ensures Rewrite(source, from, ranges, width, replacement)
         == source[from..to] + Rewrite(source, to, ranges, width, replacement)
  {
    if ranges == [] {
      assert source[from..] == source[from..to] + source[to..];
    } else {
      var start := ranges[0].0;
      assert source[from..start] == source[from..to] + source[to..start];
      var rest := Rewrite(source, ranges[0].1, ranges[1..], width, replacement);
      Assoc(source[from..to], source[to..start], replacement);
      Assoc(source[from..to], source[to..start] + replacement, rest);
    }
  }

  lemma {:induction false} SpreadTail(ranges: seq<Range>, lo: nat, hi: nat, width: nat, k: nat)
    requires Spread(ranges, lo, hi, width) && k <= |ranges|
    ensures Spread(ranges[k..], if k == 0 then lo else ranges[k - 1].1, hi, width)
    ensures Spread(ranges[k..], lo, hi, width)
    ensures k < |ranges| ==> lo <= ranges[k].0 && ranges[k].1 == ranges[k].0 + width && ranges[k].1 <= hi
  {
    if k == 0 {
      assert ranges[0..] == ranges;
    } else {
      SpreadTail(ranges[1..], ranges[0].1, hi, width, k - 1);
      assert ranges[1..][k - 1..] == ranges[k..];
      SpreadWiden(ranges[k..], ranges[0].1, hi, lo, width);
    }
  }

  /** Splicing from the last range to the first, in place, is the one-pass rewrite. */
  method Splice(source: Text, ranges: seq<Range>, width: nat, replacement: Text) returns (updated: Text)
    requires Spread(ranges, 0, |source|, width)
    ensures updated == Rewrite(source, 0, ranges, width, replacement)
  {
    updated := source;
    var k := |ranges|;
    assert ranges[k..] == [];
    while k > 0
      invariant k <= |ranges| && Spread(ranges[k..], 0, |source|, width)
      invariant updated == Rewrite(source, 0, ranges[k..], width, replacement)
    {
      k := k - 1;
      var (start, end) := ranges[k];
      SpreadTail(ranges, 0, |source|, width, k);
      SpreadTail(ranges, 0, |source|, width, k + 1);
      assert ranges[k..][1..] == ranges[k + 1..];
      RewriteFrom(source, 0, end, ranges[k + 1..], width, replacement);
      assert updated[..start] == source[..end][..start] == source[..start];
      assert updated[end..] == Rewrite(source, end, ranges[k + 1..], width, replacement);
      updated := updated[..start] + replacement + updated[end..];
      assert source[0..start] == source[..start];
    }
    assert ranges[0..] == ranges;
  }

  datatype StructureError = UnsupportedLanguage | ParserConfiguration(message: string) | ParseFailed

  datatype RenameError =
    | InvalidReplacement(replacement: Text)
    | SourceHasErrors
    | SymbolNotFound(symbol: Text)
    | CannotInspect(error: StructureError)

  /** The outline the inspectors report: whether the source parses cleanly, and the names it defines. */
  datatype Structure = Structure(hasErrors: bool, names: seq<Option<Text>>)

  datatype Edit = Edit(definitionCount: nat, occurrenceCount: nat, updatedContent: Text)

  function CountNames(names: seq<Option<Text>>, symbol: Text): nat {
    if names == [] then 0 else (if names[0] == Some(symbol) then 1 else 0) + CountNames(names[1..], symbol)
  }

  function Renamed(structure: Result<Structure, StructureError>, parse: Result<Node, StructureError>,
                   content: Text, symbol: Text, replacement: Text): Result<Edit, RenameError>
    requires parse.Ok? ==> WellFormed(parse.value, 0, |content|)
  {
    if !IsConservativeIdentifier(replacement) then Err(InvalidReplacement(replacement))
    else if structure.Err? then Err(CannotInspect(structure.error))
    else if structure.value.hasErrors then Err(SourceHasErrors)
    else if CountNames(structure.value.names, symbol) == 0 then Err(SymbolNotFound(symbol))
    else if parse.Err? then Err(CannotInspect(parse.error))
    else
      var ranges := Occurrences(parse.value, content, symbol);
      OccurrencesSpread(parse.value, content, symbol);
      Ok(Edit(CountNames(structure.value.names, symbol), |ranges|, Rewrite(content, 0, ranges, |symbol|, replacement)))
  }

  /** `structure` and `parse` are what the inspectors and the parser answer for this content. */
  method RenameSymbolInContent(structure: Result<Structure, StructureError>, parse: Result<Node, StructureError>,
                               content: Text, symbol: Text, replacement: Text)
    returns (r: Result<Edit, RenameError>)
    requires parse.Ok? ==> WellFormed(parse.value, 0, |content|)
    ensures r == Renamed(structure, parse, content, symbol, replacement)
  {
    if !IsConservativeIdentifier(replacement) {
      return Err(InvalidReplacement(replacement));
    }
    if structure.Err? {
      return Err(CannotInspect(structure.error));
    }
    if structure.value.hasErrors {
      return Err(SourceHasErrors);
    }
    var definitionCount := CountNames(structure.value.names, symbol);
    if definitionCount == 0 {
      return Err(SymbolNotFound(symbol));
    }
    if parse.Err? {
      return Err(CannotInspect(parse.error));
    }
    var ranges := CollectIdentifierRanges(parse.value, content, symbol, []);
    assert [] + Collected(parse.value, content, symbol) == Collected(parse.value, content, symbol);
    ranges := SortRanges(ranges);
    ranges := Dedup(ranges);
    OccurrencesSpread(parse.value, content, symbol);
    var updated := Splice(content, ranges, |symbol|, replacement);
    return Ok(Edit(definitionCount, |ranges|, updated));
  }

  // --- Where things end up

  /** How many ranges end at or before `p`. */
  function Passed(ranges: seq<Range>, p: nat): (n: nat)
    ensures n <= |ranges|
  {
    if ranges == [] || ranges[0].1 > p then 0 else 1 + Passed(ranges[1..], p)
  }

  /** No range has `p` strictly inside. */
  ghost predicate Outside(ranges: seq<Range>, p: nat) {
    forall i | 0 <= i < |ranges| :: ranges[i].1 <= p || p <= ranges[i].0
  }

  /** How far `p` moves when each range before it grows by `delta`. */
  function Shift(ranges: seq<Range>, delta: int, p: nat): int {
    if ranges == [] || ranges[0].1 > p then 0 else delta + Shift(ranges[1..], delta, p)
  }

  /** The place of `p` after the rewrite. */
  function Moved(ranges: seq<Range>, delta: int, p: nat): int {
    p + Shift(ranges, delta, p)
  }

  /** The rewritten text from the new place of `p` on is the rewrite of the text from `p` on. */
  lemma {:induction false} RewriteAfter(source: Text, from: nat, ranges: seq<Range>, width: nat, replacement: Text,
      p: nat)
    requires Spread(ranges, from, |source|, width) && from <= p <= |source| && Outside(ranges, p) && width > 0
    ensures var k := Passed(ranges, p);
      var at := p - from + Shift(ranges, |replacement| - width, p);
      Spread(ranges[k..], p, |source|, width)
      && 0 <= at <= |Rewrite(source, from, ranges, width, replacement)|
      && Rewrite(source, from, ranges, width, replacement)[at..] == Rewrite(source, p, ranges[k..], width, replacement)
    decreases |ranges|
  {
    if ranges == [] || ranges[0].1 > p {
      assert ranges[0..] == ranges;
      RewriteFrom(source, from, p, ranges, width, replacement);
    } else {
      var rest, start, end := ranges[1..], ranges[0].0, ranges[0].1;
      forall i | 0 <= i < |rest| ensures rest[i].1 <= p || p <= rest[i].0 {
        assert rest[i] == ranges[i + 1];
      }
      RewriteAfter(source, end, rest, width, replacement, p);
      assert rest[Passed(rest, p)..] == ranges[Passed(ranges, p)..];
      var head, tail := source[from..start] + replacement, Rewrite(source, end, rest, width, replacement);
      DropHead(head, tail, p - end + Shift(rest, |replacement| - width, p));
    }
  }

  /** Bytes no range touches are unchanged at their new place. */
  lemma BytesOutsideKept(source: Text, ranges: seq<Range>, width: nat, replacement: Text, a: nat, b: nat)
    requires Spread(ranges, 0, |source|, width) && width > 0 && a <= b <= |source|
    requires forall i | 0 <= i < |ranges| :: ranges[i].1 <= a || b <= ranges[i].0
    ensures var delta := |replacement| - width;
      0 <= Moved(ranges, delta, a) <= Moved(ranges, delta, b) <= |Rewrite(source, 0, ranges, width, replacement)|
      && Rewrite(source, 0, ranges, width, replacement)[Moved(ranges, delta, a)..Moved(ranges, delta, b)]
        == source[a..b]
  {
    var out, k := Rewrite(source, 0, ranges, width, replacement), Passed(ranges, a);
    RewriteAfter(source, 0, ranges, width, replacement, a);
    PassedSame(ranges, 0, |source|, width, a, b);
    SpreadFrom(ranges, 0, |source|, width, a, b);
    RewriteFrom(source, a, b, ranges[k..], width, replacement);
    FoundAt(out, Moved(ranges, |replacement| - width, a), source[a..b],
      Rewrite(source, b, ranges[k..], width, replacement));
  }

  lemma FoundAt(out: Text, from: nat, piece: Text, rest: Text)
    requires from <= |out| && out[from..] == piece + rest
    ensures from + |piece| <= |out| && out[from..from + |piece|] == piece
  {
    assert out[from..from + |piece|] == out[from..][..|piece|];
  }

  lemma {:induction false} PassedSame(ranges: seq<Range>, lo: nat, hi: nat, width: nat, a: nat, b: nat)
    requires Spread(ranges, lo, hi, width) && width > 0 && a <= b
    requires forall i | 0 <= i < |ranges| :: ranges[i].1 <= a || b <= ranges[i].0
    ensures Passed(ranges, a) == Passed(ranges, b)
    ensures forall delta: int :: Shift(ranges, delta, a) == Shift(ranges, delta, b)
    decreases |ranges|
  {
    if ranges != [] && ranges[0].1 <= a {
      assert forall i | 0 <= i < |ranges[1..]| :: ranges[1..][i] == ranges[i + 1];
      PassedSame(ranges[1..], ranges[0].1, hi, width, a, b);
    }
  }

  lemma {:induction false} SpreadFrom(ranges: seq<Range>, lo: nat, hi: nat, width: nat, a: nat, b: nat)
    requires Spread(ranges, lo, hi, width) && width > 0 && a <= b <= hi
    requires forall i | 0 <= i < |ranges| :: ranges[i].1 <= a || b <= ranges[i].0
    ensures Spread(ranges[Passed(ranges, a)..], b, hi, width)
    decreases |ranges|
  {
    var k := Passed(ranges, a);
    if ranges != [] && ranges[0].1 <= a {
      assert forall i | 0 <= i < |ranges[1..]| :: ranges[1..][i] == ranges[i + 1];
      SpreadFrom(ranges[1..], ranges[0].1, hi, width, a, b);
      assert ranges[1..][k - 1..] == ranges[k..];
    } else {
      assert ranges[0..] == ranges;
    }
  }

  lemma {:induction false} PassedAt(ranges: seq<Range>, lo: nat, hi: nat, width: nat, k: nat)
    requires Spread(ranges, lo, hi, width) && width > 0 && k < |ranges|
    ensures Passed(ranges, ranges[k].0) == k && Passed(ranges, ranges[k].1) == k + 1
    ensures forall delta: int :: Shift(ranges, delta, ranges[k].1) == Shift(ranges, delta, ranges[k].0) + delta
    ensures Outside(ranges, ranges[k].0) && Outside(ranges, ranges[k].1)
    ensures forall j | 0 <= j < |ranges| && j != k :: ranges[j].1 <= ranges[k].0 || ranges[k].1 <= ranges[j].0
    decreases |ranges|
  {
    var rest := ranges[1..];
    if k == 0 {
      forall j | 0 <= j < |rest| ensures ranges[0].1 <= rest[j].0 && rest[j].1 == rest[j].0 + width {
        SpreadTail(rest, ranges[0].1, hi, width, j);
      }
      forall j | 1 <= j < |ranges| ensures ranges[0].1 <= ranges[j].0 {
        assert ranges[j] == rest[j - 1];
      }
      assert |rest| > 0 ==> rest[0].1 > ranges[0].1;
    } else {
      PassedAt(rest, ranges[0].1, hi, width, k - 1);
      SpreadTail(rest, ranges[0].1, hi, width, k - 1);
      forall j | 1 <= j < |ranges| && j != k ensures ranges[j].1 <= ranges[k].0 || ranges[k].1 <= ranges[j].0 {
        assert ranges[j] == rest[j - 1];
      }
      forall j | 0 <= j < |ranges|
        ensures (ranges[j].1 <= ranges[k].0 || ranges[k].0 <= ranges[j].0)
          && (ranges[j].1 <= ranges[k].1 || ranges[k].1 <= ranges[j].0)
      {
        if j > 0 { assert ranges[j] == rest[j - 1]; }
      }
    }
  }

  lemma StartsReplaced(source: Text, from: nat, ranges: seq<Range>, width: nat, replacement: Text)
    requires Spread(ranges, from, |source|, width) && ranges != [] && ranges[0].0 == from
    ensures |Rewrite(source, from, ranges, width, replacement)| >= |replacement|
    ensures Rewrite(source, from, ranges, width, replacement)[..|replacement|] == replacement
  {
    assert source[from..from] == [];
    var rest := Rewrite(source, ranges[0].1, ranges[1..], width, replacement);
    assert ([] + replacement + rest)[..|replacement|] == replacement;
  }

  /** Each range holds the replacement at its new place. */
  lemma RangeReplaced(source: Text, ranges: seq<Range>, width: nat, replacement: Text, k: nat)
    requires Spread(ranges, 0, |source|, width) && width > 0 && k < |ranges|
    ensures var delta := |replacement| - width;
      var (a, b) := (Moved(ranges, delta, ranges[k].0), Moved(ranges, delta, ranges[k].1));
      0 <= a <= b <= |Rewrite(source, 0, ranges, width, replacement)|
      && Rewrite(source, 0, ranges, width, replacement)[a..b] == replacement
  {
    var out, start, end := Rewrite(source, 0, ranges, width, replacement), ranges[k].0, ranges[k].1;
    var delta := |replacement| - width;
    SpreadTail(ranges, 0, |source|, width, k);
    PassedAt(ranges, 0, |source|, width, k);
    RewriteAfter(source, 0, ranges, width, replacement, start);
    var a := Moved(ranges, delta, start);
    var tail := Rewrite(source, start, ranges[k..], width, replacement);
    StartsReplaced(source, start, ranges[k..], width, replacement);
    assert out[a..a + |replacement|] == out[a..][..|replacement|];
  }

  // --- There and back

  datatype Leaf = Leaf(kind: string, start: nat, end: nat)

  function Leaves(node: Node): seq<Leaf> {
    if node.children == [] then [Leaf(node.kind, node.start, node.end)] else AllLeaves(node.children)
  }

  function AllLeaves(nodes: seq<Node>): seq<Leaf> {
    if nodes == [] then [] else Leaves(nodes[0]) + AllLeaves(nodes[1..])
  }

  predicate LeafSpells(leaf: Leaf, source: Text, symbol: Text) {
    IsIdentifierLike(leaf.kind) && leaf.start <= leaf.end <= |source| && source[leaf.start..leaf.end] == symbol
  }

  function Matching(leaves: seq<Leaf>, source: Text, symbol: Text): seq<Range> {
    if leaves == [] then [] else
    var first := if LeafSpells(leaves[0], source, symbol) then [(leaves[0].start, leaves[0].end)] else [];
    first + Matching(leaves[1..], source, symbol)
  }

  lemma {:induction false} MatchingConcat(a: seq<Leaf>, b: seq<Leaf>, source: Text, symbol: Text)
    ensures Matching(a + b, source, symbol) == Matching(a, source, symbol) + Matching(b, source, symbol)
  {
    if a == [] {
      assert a + b == b;
    } else {
      assert (a + b)[1..] == a[1..] + b;
      MatchingConcat(a[1..], b, source, symbol);
      Assoc(if LeafSpells(a[0], source, symbol) then [(a[0].start, a[0].end)] else [],
        Matching(a[1..], source, symbol), Matching(b, source, symbol));
    }
  }

  /** Only the leaves matter to what is collected. */
  lemma {:induction false} CollectedIsMatching(node: Node, source: Text, symbol: Text)
    ensures Collected(node, source, symbol) == Matching(Leaves(node), source, symbol)
    decreases node, 1
  {
    AllCollectedIsMatching(node.children, source, symbol);
    if node.children == [] {
      assert Leaves(node)[1..] == [];
    }
  }

  lemma {:induction false} AllCollectedIsMatching(nodes: seq<Node>, source: Text, symbol: Text)
    ensures AllCollected(nodes, source, symbol) == Matching(AllLeaves(nodes), source, symbol)
    decreases nodes, 0
  {
    if nodes == [] {
    } else {
      CollectedFirst(nodes, source, symbol);
      CollectedIsMatching(nodes[0], source, symbol);
      AllCollectedIsMatching(nodes[1..], source, symbol);
      MatchingConcat(Leaves(nodes[0]), AllLeaves(nodes[1..]), source, symbol);
    }
  }

  ghost predicate LeafOrder(leaves: seq<Leaf>, lo: nat, hi: nat) {
    lo <= hi && (leaves == []
      || (lo <= leaves[0].start <= leaves[0].end <= hi && LeafOrder(leaves[1..], leaves[0].end, hi)))
  }

  lemma {:induction false} LeafOrderConcat(a: seq<Leaf>, b: seq<Leaf>, lo: nat, mid: nat, hi: nat)
    requires LeafOrder(a, lo, mid) && LeafOrder(b, mid, hi)
    ensures LeafOrder(a + b, lo, hi)
  {
    if a == [] {
      assert a + b == b;
    } else {
      assert (a + b)[1..] == a[1..] + b;
      LeafOrderConcat(a[1..], b, a[0].end, mid, hi);
    }
  }

  lemma {:induction false} LeavesInOrder(node: Node, lo: nat, hi: nat)
    requires WellFormed(node, lo, hi)
    ensures LeafOrder(Leaves(node), lo, hi) && LeafOrder(Leaves(node), lo, node.end)
    decreases node, 1
  {
    if node.children == [] {
      assert Leaves(node)[1..] == [];
    } else {
      AllLeavesInOrder(node.children, node.start, node.end);
      LeafOrderWiden(Leaves(node), node.start, node.end, lo, hi);
      LeafOrderWiden(Leaves(node), node.start, node.end, lo, node.end);
    }
  }

  lemma {:induction false} LeafOrderWiden(leaves: seq<Leaf>, lo: nat, hi: nat, lo': nat, hi': nat)
    requires LeafOrder(leaves, lo, hi) && lo' <= lo && hi <= hi'
    ensures LeafOrder(leaves, lo', hi')
  {
    if leaves == [] {
    } else {
      LeafOrderWiden(leaves[1..], leaves[0].end, hi, leaves[0].end, hi');
    }
  }

  lemma {:induction false} AllLeavesInOrder(nodes: seq<Node>, lo: nat, hi: nat)
    requires AllWellFormed(nodes, lo, hi)
    ensures LeafOrder(AllLeaves(nodes), lo, hi)
    decreases nodes, 0
  {
    if nodes == [] {
    } else {
      LeavesInOrder(nodes[0], lo, hi);
      AllLeavesInOrder(nodes[1..], nodes[0].end, hi);
      LeafOrderConcat(Leaves(nodes[0]), AllLeaves(nodes[1..]), lo, nodes[0].end, hi);
    }
  }

  /** Ranges found among ordered leaves lie between the same bounds. */
  lemma {:induction false} MatchingBounds(leaves: seq<Leaf>, lo: nat, hi: nat, source: Text, symbol: Text)
    requires LeafOrder(leaves, lo, hi)
    ensures forall j | 0 <= j < |Matching(leaves, source, symbol)| ::
      lo <= Matching(leaves, source, symbol)[j].0 <= Matching(leaves, source, symbol)[j].1 <= hi
  {
    if leaves == [] {
    } else {
      MatchingBounds(leaves[1..], leaves[0].end, hi, source, symbol);
    }
  }

  ghost predicate Apart(ranges: seq<Range>, a: nat, b: nat) {
    forall j | 0 <= j < |ranges| :: ranges[j].1 <= a || b <= ranges[j].0
  }

  /** A leaf is one of the matching ranges, or clear of all of them. */
  lemma {:induction false} SpellsOrApart(leaves: seq<Leaf>, lo: nat, hi: nat, source: Text, symbol: Text, i: nat)
    requires LeafOrder(leaves, lo, hi) && i < |leaves|
    ensures lo <= leaves[i].start <= leaves[i].end <= hi
    ensures if LeafSpells(leaves[i], source, symbol)
      then (leaves[i].start, leaves[i].end) in Matching(leaves, source, symbol)
      else Apart(Matching(leaves, source, symbol), leaves[i].start, leaves[i].end)
  {
    var rest := leaves[1..];
    MatchingBounds(rest, leaves[0].end, hi, source, symbol);
    if i > 0 {
      SpellsOrApart(rest, leaves[0].end, hi, source, symbol, i - 1);
      assert leaves[i] == rest[i - 1];
    }
  }

  // --- The tree of the renamed text

  function Place(ranges: seq<Range>, delta: int, p: nat): nat {
    if Moved(ranges, delta, p) < 0 then 0 else Moved(ranges, delta, p)
  }

  /** The same tree over the renamed text: same shape and kinds, positions moved. */
  function MovedTree(node: Node, ranges: seq<Range>, delta: int): Node {
    Node(node.kind, Place(ranges, delta, node.start), Place(ranges, delta, node.end),
      MovedTrees(node.children, ranges, delta))
  }

  function MovedTrees(nodes: seq<Node>, ranges: seq<Range>, delta: int): (r: seq<Node>)
    ensures |r| == |nodes|
  {
    if nodes == [] then [] else [MovedTree(nodes[0], ranges, delta)] + MovedTrees(nodes[1..], ranges, delta)
  }

  function MovedLeaf(leaf: Leaf, ranges: seq<Range>, delta: int): Leaf {
    Leaf(leaf.kind, Place(ranges, delta, leaf.start), Place(ranges, delta, leaf.end))
  }

  function MovedLeaves(leaves: seq<Leaf>, ranges: seq<Range>, delta: int): seq<Leaf> {
    if leaves == [] then [] else [MovedLeaf(leaves[0], ranges, delta)] + MovedLeaves(leaves[1..], ranges, delta)
  }

  lemma {:induction false} MovedLeavesConcat(a: seq<Leaf>, b: seq<Leaf>, ranges: seq<Range>, delta: int)
    ensures MovedLeaves(a + b, ranges, delta) == MovedLeaves(a, ranges, delta) + MovedLeaves(b, ranges, delta)
  {
    if a == [] {
      assert a + b == b;
    } else {
      assert (a + b)[1..] == a[1..] + b;
      MovedLeavesConcat(a[1..], b, ranges, delta);
    }
  }

  lemma {:induction false} LeavesOfMoved(node: Node, ranges: seq<Range>, delta: int)
    ensures Leaves(MovedTree(node, ranges, delta)) == MovedLeaves(Leaves(node), ranges, delta)
    decreases node, 1
  {
    if node.children == [] {
      assert Leaves(node)[1..] == [];
    } else {
      AllLeavesOfMoved(node.children, ranges, delta);
    }
  }

  lemma {:induction false} AllLeavesOfMoved(nodes: seq<Node>, ranges: seq<Range>, delta: int)
    ensures AllLeaves(MovedTrees(nodes, ranges, delta)) == MovedLeaves(AllLeaves(nodes), ranges, delta)
    decreases nodes, 0
  {
    if nodes == [] {
    } else {
      LeavesOfMoved(nodes[0], ranges, delta);
      AllLeavesOfMoved(nodes[1..], ranges, delta);
      assert MovedTrees(nodes, ranges, delta)[1..] == MovedTrees(nodes[1..], ranges, delta);
      MovedLeavesConcat(Leaves(nodes[0]), AllLeaves(nodes[1..]), ranges, delta);
    }
  }

  /** No node begins or ends strictly inside a range. */
  ghost predicate Clear(node: Node, ranges: seq<Range>) {
    Outside(ranges, node.start) && Outside(ranges, node.end) && AllClear(node.children, ranges)
  }

  ghost predicate AllClear(nodes: seq<Node>, ranges: seq<Range>) {
    nodes == [] || (Clear(nodes[0], ranges) && AllClear(nodes[1..], ranges))
  }

  ghost predicate Before(ranges: seq<Range>, p: nat) {
    forall j | 0 <= j < |ranges| :: ranges[j].1 <= p
  }

  ghost predicate After(ranges: seq<Range>, p: nat) {
    forall j | 0 <= j < |ranges| :: p <= ranges[j].0
  }

  lemma {:induction false} NodesClear(node: Node, lo: nat, hi: nat, source: Text, symbol: Text, earlier: seq<Range>,
      later: seq<Range>)
    requires WellFormed(node, lo, hi) && Before(earlier, node.start) && After(later, node.end)
    ensures Clear(node, earlier + Matching(Leaves(node), source, symbol) + later)
    decreases node, 1
  {
    LeavesInOrder(node, lo, hi);
    NodeLeavesBounds(node, lo, hi, source, symbol);
    if node.children != [] {
      AllNodesClear(node.children, node.start, node.end, source, symbol, earlier, later);
    }
  }

  lemma NodeLeavesBounds(node: Node, lo: nat, hi: nat, source: Text, symbol: Text)
    requires WellFormed(node, lo, hi)
    ensures Before(Matching(Leaves(node), source, symbol), node.end)
    ensures After(Matching(Leaves(node), source, symbol), node.start)
  {
    LeavesInOrder(node, node.start, node.end);
    MatchingBounds(Leaves(node), node.start, node.end, source, symbol);
  }

  lemma {:induction false} AllNodesClear(nodes: seq<Node>, lo: nat, hi: nat, source: Text, symbol: Text,
      earlier: seq<Range>, later: seq<Range>)
    requires AllWellFormed(nodes, lo, hi) && Before(earlier, lo) && After(later, hi)
    ensures AllClear(nodes, earlier + Matching(AllLeaves(nodes), source, symbol) + later)
    decreases nodes, 0
  {
    if nodes == [] {
    } else {
      var own, more := Matching(Leaves(nodes[0]), source, symbol), Matching(AllLeaves(nodes[1..]), source, symbol);
      MatchingConcat(Leaves(nodes[0]), AllLeaves(nodes[1..]), source, symbol);
      NodeLeavesBounds(nodes[0], lo, hi, source, symbol);
      AllLeavesInOrder(nodes[1..], nodes[0].end, hi);
      MatchingBounds(AllLeaves(nodes[1..]), nodes[0].end, hi, source, symbol);
      NodesClear(nodes[0], lo, hi, source, symbol, earlier, more + later);
      AllNodesClear(nodes[1..], nodes[0].end, hi, source, symbol, earlier + own, later);
      assert earlier + (own + more) + later == earlier + own + (more + later);
      assert earlier + (own + more) + later == (earlier + own) + more + later;
    }
  }

  /** Positions outside the ranges keep their order, and stay inside the text. */
  lemma {:induction false} MovedInOrder(source: Text, from: nat, ranges: seq<Range>, width: nat, replacement: Text,
      a: nat, b: nat)
    requires Spread(ranges, from, |source|, width) && width > 0 && from <= a <= b <= |source|
    requires Outside(ranges, a) && Outside(ranges, b)
    ensures var delta := |replacement| - width;
      from <= Moved(ranges, delta, a) <= Moved(ranges, delta, b)
        <= from + |Rewrite(source, from, ranges, width, replacement)|
    decreases |ranges|
  {
    RewriteAfter(source, from, ranges, width, replacement, a);
    RewriteAfter(source, from, ranges, width, replacement, b);
    ShiftsApart(source, from, ranges, width, |replacement| - width, a, b);
  }

  lemma {:induction false} ShiftsApart(source: Text, from: nat, ranges: seq<Range>, width: nat, delta: int, a: nat,
      b: nat)
    requires Spread(ranges, from, |source|, width) && width > 0 && from <= a <= b <= |source| && delta + width >= 0
    requires Outside(ranges, a) && Outside(ranges, b)
    ensures Moved(ranges, delta, a) <= Moved(ranges, delta, b)
    decreases |ranges|
  {
    if ranges != [] && ranges[0].1 <= b {
      var rest := ranges[1..];
      assert forall j | 0 <= j < |rest| :: rest[j] == ranges[j + 1];
      var a' := if ranges[0].1 <= a then a else ranges[0].1;
      EndOutside(ranges, from, |source|, width);
      ShiftsApart(source, ranges[0].1, rest, width, delta, a', b);
      if ranges[0].1 > a {
        assert a <= ranges[0].0;
        ShiftAtStart(rest, ranges[0].1, |source|, width, delta);
      }
    }
  }

  lemma EndOutside(ranges: seq<Range>, lo: nat, hi: nat, width: nat)
    requires Spread(ranges, lo, hi, width) && ranges != [] && width > 0
    ensures Outside(ranges[1..], ranges[0].1)
  {
    PassedAt(ranges, lo, hi, width, 0);
    assert forall j | 0 <= j < |ranges[1..]| :: ranges[1..][j] == ranges[j + 1];
  }

  lemma ShiftAtStart(ranges: seq<Range>, lo: nat, hi: nat, width: nat, delta: int)
    requires Spread(ranges, lo, hi, width) && width > 0
    ensures Shift(ranges, delta, lo) == 0
  {
  }

  lemma {:induction false} MovedWellFormed(node: Node, lo: nat, hi: nat, source: Text, ranges: seq<Range>, width: nat,
      replacement: Text)
    requires Spread(ranges, 0, |source|, width) && width > 0 && hi <= |source|
    requires WellFormed(node, lo, hi) && Clear(node, ranges) && Outside(ranges, lo) && Outside(ranges, hi)
    ensures var delta := |replacement| - width;
      WellFormed(MovedTree(node, ranges, delta), Place(ranges, delta, lo), Place(ranges, delta, hi))
    decreases node, 1
  {
    MovedInOrder(source, 0, ranges, width, replacement, lo, node.start);
    MovedInOrder(source, 0, ranges, width, replacement, node.start, node.end);
    MovedInOrder(source, 0, ranges, width, replacement, node.end, hi);
    AllMovedWellFormed(node.children, node.start, node.end, source, ranges, width, replacement);
  }

  lemma {:induction false} AllMovedWellFormed(nodes: seq<Node>, lo: nat, hi: nat, source: Text, ranges: seq<Range>,
      width: nat, replacement: Text)
    requires Spread(ranges, 0, |source|, width) && width > 0 && hi <= |source|
    requires AllWellFormed(nodes, lo, hi) && AllClear(nodes, ranges) && Outside(ranges, lo) && Outside(ranges, hi)
    ensures var delta := |replacement| - width;
      AllWellFormed(MovedTrees(nodes, ranges, delta), Place(ranges, delta, lo), Place(ranges, delta, hi))
    decreases nodes, 0
  {
    MovedInOrder(source, 0, ranges, width, replacement, lo, hi);
    if nodes == [] {
    } else {
      MovedWellFormed(nodes[0], lo, hi, source, ranges, width, replacement);
      AllMovedWellFormed(nodes[1..], nodes[0].end, hi, source, ranges, width, replacement);
      var delta := |replacement| - width;
      assert MovedTrees(nodes, ranges, delta)[1..] == MovedTrees(nodes[1..], ranges, delta);
    }
  }

  // --- Renaming back

  function MovedRanges(found: seq<Range>, ranges: seq<Range>, delta: int): (r: seq<Range>)
    ensures |r| == |found|
    ensures forall j | 0 <= j < |found| :: r[j] == (Place(ranges, delta, found[j].0), Place(ranges, delta, found[j].1))
  {
    if found == [] then []
    else [(Place(ranges, delta, found[0].0), Place(ranges, delta, found[0].1))] + MovedRanges(found[1..], ranges, delta)
  }

  /** Leaves spelled either way. */
  function Either(leaves: seq<Leaf>, source: Text, s: Text, r: Text): seq<Range> {
    if leaves == [] then [] else
    var first := if LeafSpells(leaves[0], source, s) || LeafSpells(leaves[0], source, r)
      then [(leaves[0].start, leaves[0].end)] else [];
    first + Either(leaves[1..], source, s, r)
  }

  lemma {:induction false} EitherCount(leaves: seq<Leaf>, source: Text, s: Text, r: Text)
    requires s != r
    ensures |Either(leaves, source, s, r)| == |Matching(leaves, source, s)| + |Matching(leaves, source, r)|
    ensures Matching(leaves, source, r) == [] ==> Either(leaves, source, s, r) == Matching(leaves, source, s)
  {
    if leaves == [] {
    } else {
      EitherCount(leaves[1..], source, s, r);
    }
  }

  /** What a leaf spells in the renamed text. */
  lemma LeafAfter(leaves: seq<Leaf>, source: Text, s: Text, r: Text, i: nat)
    requires LeafOrder(leaves, 0, |source|) && s != [] && i < |leaves|
    requires Spread(Matching(leaves, source, s), 0, |source|, |s|)
    ensures var ranges := Matching(leaves, source, s);
      var out, delta := Rewrite(source, 0, ranges, |s|, r), |r| - |s|;
      var leaf' := MovedLeaf(leaves[i], ranges, delta);
      leaf'.start <= leaf'.end <= |out| && leaves[i].start <= leaves[i].end <= |source|
      && out[leaf'.start..leaf'.end]
         == if LeafSpells(leaves[i], source, s) then r else source[leaves[i].start..leaves[i].end]
  {
    var ranges := Matching(leaves, source, s);
    SpellsOrApart(leaves, 0, |source|, source, s, i);
    if LeafSpells(leaves[i], source, s) {
      var k :| 0 <= k < |ranges| && ranges[k] == (leaves[i].start, leaves[i].end);
      RangeReplaced(source, ranges, |s|, r, k);
    } else {
      BytesOutsideKept(source, ranges, |s|, r, leaves[i].start, leaves[i].end);
    }
  }

  /** Looking for `r` in the renamed text finds the renamed leaves and those that were `r` already. */
  lemma {:induction false} FoundAfter(leaves: seq<Leaf>, source: Text, s: Text, r: Text, from: nat)
    requires LeafOrder(leaves, 0, |source|) && s != [] && from <= |leaves|
    requires Spread(Matching(leaves, source, s), 0, |source|, |s|)
    ensures var ranges := Matching(leaves, source, s);
      var out, delta := Rewrite(source, 0, ranges, |s|, r), |r| - |s|;
      Matching(MovedLeaves(leaves[from..], ranges, delta), out, r)
        == MovedRanges(Either(leaves[from..], source, s, r), ranges, delta)
    decreases |leaves| as int - from
  {
    if from < |leaves| {
      var ranges := Matching(leaves, source, s);
      var delta := |r| - |s|;
      FoundAfter(leaves, source, s, r, from + 1);
      LeafAfter(leaves, source, s, r, from);
      assert leaves[from..][1..] == leaves[from + 1..];
      var rest := MovedLeaves(leaves[from + 1..], ranges, delta);
      assert MovedLeaves(leaves[from..], ranges, delta)[1..] == rest;
      MovedRangesCons(leaves[from..], source, s, r, ranges, delta);
    }
  }

  lemma MovedRangesCons(leaves: seq<Leaf>, source: Text, s: Text, r: Text, ranges: seq<Range>, delta: int)
    requires leaves != []
    ensures MovedRanges(Either(leaves, source, s, r), ranges, delta)
         == (if LeafSpells(leaves[0], source, s) || LeafSpells(leaves[0], source, r)
             then [(Place(ranges, delta, leaves[0].start), Place(ranges, delta, leaves[0].end))] else [])
            + MovedRanges(Either(leaves[1..], source, s, r), ranges, delta)
  {
    var all, rest := Either(leaves, source, s, r), Either(leaves[1..], source, s, r);
    if LeafSpells(leaves[0], source, s) || LeafSpells(leaves[0], source, r) {
      assert all[1..] == rest;
    } else {
      assert all == rest;
    }
  }

  function EndBefore(ranges: seq<Range>, k: nat): nat
    requires k <= |ranges|
  {
    if k == 0 then 0 else ranges[k - 1].1
  }

  ghost predicate AllSpell(ranges: seq<Range>, source: Text, symbol: Text) {
    forall j | 0 <= j < |ranges| :: SpellsAt(ranges[j], source, symbol)
  }

  ghost predicate SpellsAt(r: Range, source: Text, symbol: Text) {
    r.0 <= r.1 <= |source| && source[r.0..r.1] == symbol
  }

  lemma {:induction false} MovedRangesAt(found: seq<Range>, ranges: seq<Range>, delta: int, k: nat)
    requires k < |found|
    ensures |MovedRanges(found, ranges, delta)| == |found|
    ensures MovedRanges(found, ranges, delta)[k] == (Place(ranges, delta, found[k].0), Place(ranges, delta, found[k].1))
  {
    if k > 0 {
      MovedRangesAt(found[1..], ranges, delta, k - 1);
    }
  }

  /** What lies between one moved range and the next. */
  lemma GapKept(source: Text, ranges: seq<Range>, s: Text, r: Text, k: nat)
    requires s != [] && Spread(ranges, 0, |source|, |s|) && k < |ranges|
    ensures var delta, out := |r| - |s|, Rewrite(source, 0, ranges, |s|, r);
      EndBefore(ranges, k) <= ranges[k].0 <= |source|
      && Place(ranges, delta, EndBefore(ranges, k)) <= Place(ranges, delta, ranges[k].0) <= |out|
      && out[Place(ranges, delta, EndBefore(ranges, k))..Place(ranges, delta, ranges[k].0)]
        == source[EndBefore(ranges, k)..ranges[k].0]
  {
    SpreadTail(ranges, 0, |source|, |s|, k);
    GapApart(ranges, 0, |source|, |s|, k);
    BytesOutsideKept(source, ranges, |s|, r, EndBefore(ranges, k), ranges[k].0);
  }

  lemma LastPiece(source: Text, ranges: seq<Range>, s: Text, r: Text)
    requires s != [] && Spread(ranges, 0, |source|, |s|)
    ensures var out, from, delta := Rewrite(source, 0, ranges, |s|, r), EndBefore(ranges, |ranges|), |r| - |s|;
      Place(ranges, delta, from) <= |out| && from <= |source| && out[Place(ranges, delta, from)..] == source[from..]
  {
    EndBeforeOutside(ranges, 0, |source|, |s|, |ranges|);
    RewriteAfter(source, 0, ranges, |s|, r, EndBefore(ranges, |ranges|));
    AllPassed(ranges, 0, |source|, |s|);
    assert ranges[|ranges|..] == [];
  }

  /** Piece by piece, `out` from `from` on reads as `source` from `at` on, once `s` stands
      where the ranges are. */
  ghost predicate Mirrors(out: Text, from: nat, back: seq<Range>, source: Text, at: nat, ranges: seq<Range>, s: Text)
    requires |back| == |ranges|
    decreases |ranges|
  {
    if ranges == [] then from <= |out| && at <= |source| && out[from..] == source[at..]
    else
      from <= back[0].0 <= |out| && at <= ranges[0].0 <= |source|
      && out[from..back[0].0] == source[at..ranges[0].0] && SpellsAt(ranges[0], source, s)
      && Mirrors(out, back[0].1, back[1..], source, ranges[0].1, ranges[1..], s)
  }

  lemma {:induction false} MirrorRewrites(out: Text, from: nat, back: seq<Range>, width: nat, source: Text, at: nat,
      ranges: seq<Range>, s: Text)
    requires |back| == |ranges| && Spread(back, from, |out|, width) && Mirrors(out, from, back, source, at, ranges, s)
    ensures at <= |source| && Rewrite(out, from, back, width, s) == source[at..]
    decreases |ranges|
  {
    if ranges == [] {
    } else {
      MirrorRewrites(out, back[0].1, back[1..], width, source, ranges[0].1, ranges[1..], s);
      ThreePieces(source, at, ranges[0].0, ranges[0].1);
    }
  }

  lemma ThreePieces(t: Text, a: nat, b: nat, c: nat)
    requires a <= b <= c <= |t|
    ensures t[a..] == t[a..b] + t[b..c] + t[c..]
  {
    assert t[b..] == t[b..c] + t[c..];
    assert t[a..] == t[a..b] + t[b..];
    Assoc(t[a..b], t[b..c], t[c..]);
  }

  lemma {:induction false} MovedMirror(source: Text, ranges: seq<Range>, s: Text, r: Text, k: nat)
    requires s != [] && Spread(ranges, 0, |source|, |s|) && k <= |ranges| && AllSpell(ranges, source, s)
    ensures var delta := |r| - |s|;
      Mirrors(Rewrite(source, 0, ranges, |s|, r), Place(ranges, delta, EndBefore(ranges, k)),
        MovedRanges(ranges, ranges, delta)[k..],
        source, EndBefore(ranges, k), ranges[k..], s)
    decreases |ranges| as int - k
  {
    var delta := |r| - |s|;
    var back := MovedRanges(ranges, ranges, delta);
    if k == |ranges| {
      LastPiece(source, ranges, s, r);
    } else {
      MovedRangesAt(ranges, ranges, delta, k);
      GapKept(source, ranges, s, r, k);
      assert SpellsAt(ranges[k], source, s);
      MovedMirror(source, ranges, s, r, k + 1);
      assert back[k..][1..] == back[k + 1..] && ranges[k..][1..] == ranges[k + 1..];
    }
  }

  lemma MirrorWhole(source: Text, ranges: seq<Range>, s: Text, r: Text)
    requires s != [] && Spread(ranges, 0, |source|, |s|) && AllSpell(ranges, source, s)
    ensures Mirrors(Rewrite(source, 0, ranges, |s|, r), 0, MovedRanges(ranges, ranges, |r| - |s|), source, 0, ranges, s)
  {
    ShiftAtStart(ranges, 0, |source|, |s|, |r| - |s|);
    MovedMirror(source, ranges, s, r, 0);
    var back := MovedRanges(ranges, ranges, |r| - |s|);
    assert back[0..] == back && ranges[0..] == ranges;
  }

  lemma EndBeforeOutside(ranges: seq<Range>, lo: nat, hi: nat, width: nat, k: nat)
    requires Spread(ranges, lo, hi, width) && width > 0 && k <= |ranges|
    ensures Outside(ranges, EndBefore(ranges, k)) && EndBefore(ranges, k) <= hi
  {
    if k > 0 {
      PassedAt(ranges, lo, hi, width, k - 1);
      SpreadTail(ranges, lo, hi, width, k - 1);
    } else {
      SpreadBound(ranges, lo, hi, width);
    }
  }

  lemma {:induction false} SpreadBound(ranges: seq<Range>, lo: nat, hi: nat, width: nat)
    requires Spread(ranges, lo, hi, width)
    ensures lo <= hi
  {
    if ranges == [] {
    } else {
      SpreadBound(ranges[1..], ranges[0].1, hi, width);
    }
  }

  lemma AllPassed(ranges: seq<Range>, lo: nat, hi: nat, width: nat)
    requires Spread(ranges, lo, hi, width) && width > 0
    ensures Passed(ranges, EndBefore(ranges, |ranges|)) == |ranges|
  {
    if ranges != [] {
      PassedAt(ranges, lo, hi, width, |ranges| - 1);
    }
  }

  /** Nothing is rewritten between one range and the next. */
  lemma GapApart(ranges: seq<Range>, lo: nat, hi: nat, width: nat, k: nat)
    requires Spread(ranges, lo, hi, width) && width > 0 && k < |ranges|
    ensures EndBefore(ranges, k) <= ranges[k].0
    ensures forall j | 0 <= j < |ranges| :: ranges[j].1 <= EndBefore(ranges, k) || ranges[k].0 <= ranges[j].0
  {
    forall j | 0 <= j < |ranges| ensures ranges[j].1 <= EndBefore(ranges, k) || ranges[k].0 <= ranges[j].0 {
      RangesAscend(ranges, lo, hi, width, j, k);
      RangesAscend(ranges, lo, hi, width, k, j);
      if k > 0 { RangesAscend(ranges, lo, hi, width, k - 1, j); }
    }
    if k > 0 { RangesAscend(ranges, lo, hi, width, k - 1, k); }
  }

  lemma RangesAscend(ranges: seq<Range>, lo: nat, hi: nat, width: nat, i: nat, j: nat)
    requires Spread(ranges, lo, hi, width) && i < |ranges| && j < |ranges|
    ensures i < j ==> ranges[i].1 <= ranges[j].0
    ensures j < i ==> ranges[j].1 <= ranges[i].0
    ensures ranges[i].1 == ranges[i].0 + width
  {
    SpreadTail(ranges, lo, hi, width, i);
    if i < j {
      SpreadTail(ranges, lo, hi, width, i + 1);
      SpreadTail(ranges[i + 1..], ranges[i].1, hi, width, j - i - 1);
    } else if j < i {
      SpreadTail(ranges, lo, hi, width, j + 1);
      SpreadTail(ranges[j + 1..], ranges[j].1, hi, width, i - j - 1);
    }
  }

  lemma {:induction false} MatchingSpells(leaves: seq<Leaf>, source: Text, symbol: Text)
    ensures AllSpell(Matching(leaves, source, symbol), source, symbol)
  {
    if leaves == [] {
    } else {
      var rest := Matching(leaves[1..], source, symbol);
      MatchingSpells(leaves[1..], source, symbol);
      var all := Matching(leaves, source, symbol);
      forall j | 0 <= j < |all| ensures SpellsAt(all[j], source, symbol) {
        var at := j + |rest| - |all|;
        assert at >= 0 ==> all[j] == rest[at];
      }
    }
  }

  /** A matching range belongs to a leaf. */
  lemma {:induction false} MatchingLeaf(leaves: seq<Leaf>, source: Text, symbol: Text) returns (i: nat)
    requires Matching(leaves, source, symbol) != []
    ensures i < |leaves| && LeafSpells(leaves[i], source, symbol)
    ensures Matching(leaves, source, symbol)[0] == (leaves[i].start, leaves[i].end)
  {
    if LeafSpells(leaves[0], source, symbol) {
      i := 0;
    } else {
      i := MatchingLeaf(leaves[1..], source, symbol);
      assert leaves[1..][i] == leaves[i + 1];
      i := i + 1;
    }
  }

  /** The text after renaming `s` to `r` and then, over the same tree with its positions
      moved, `r` to `s`. */
  function ThereAndBack(tree: Node, source: Text, s: Text, r: Text): Text
    requires s != [] && r != [] && WellFormed(tree, 0, |source|)
  {
    OccurrencesSpread(tree, source, s);
    var ranges := Occurrences(tree, source, s);
    var out, tree' := Rewrite(source, 0, ranges, |s|, r), MovedTree(tree, ranges, |r| - |s|);
    MovedTreeFits(tree, source, s, r);
    OccurrencesSpread(tree', out, r);
    Rewrite(out, 0, Occurrences(tree', out, r), |r|, s)
  }

  lemma MovedTreeFits(tree: Node, source: Text, s: Text, r: Text)
    requires s != [] && WellFormed(tree, 0, |source|)
    ensures Spread(Occurrences(tree, source, s), 0, |source|, |s|)
    ensures var ranges := Occurrences(tree, source, s);
      var out := Rewrite(source, 0, ranges, |s|, r);
      WellFormed(MovedTree(tree, ranges, |r| - |s|), 0, |out|)
  {
    OccurrencesSpread(tree, source, s);
    CollectedIsMatching(tree, source, s);
    var ranges := Occurrences(tree, source, s);
    NodesClear(tree, 0, |source|, source, s, [], []);
    assert [] + ranges + [] == ranges;
    ClearTreeFits(tree, source, ranges, s, r);
  }

  lemma ClearTreeFits(tree: Node, source: Text, ranges: seq<Range>, s: Text, r: Text)
    requires s != [] && WellFormed(tree, 0, |source|) && Spread(ranges, 0, |source|, |s|) && Clear(tree, ranges)
    ensures WellFormed(MovedTree(tree, ranges, |r| - |s|), 0, |Rewrite(source, 0, ranges, |s|, r)|)
  {
    var delta := |r| - |s|;
    EndsOutside(ranges, |source|, |s|);
    MovedWellFormed(tree, 0, |source|, source, ranges, |s|, r);
    MovedInOrder(source, 0, ranges, |s|, r, 0, |source|);
    WellFormedWiden(MovedTree(tree, ranges, delta), Place(ranges, delta, 0), Place(ranges, delta, |source|),
      |Rewrite(source, 0, ranges, |s|, r)|);
  }

  lemma EndsOutside(ranges: seq<Range>, hi: nat, width: nat)
    requires Spread(ranges, 0, hi, width) && width > 0
    ensures Outside(ranges, 0) && Outside(ranges, hi)
  {
    forall i | 0 <= i < |ranges| ensures ranges[i].1 <= hi {
      SpreadTail(ranges, 0, hi, width, i);
    }
  }

  lemma WellFormedWiden(node: Node, lo: nat, hi: nat, hi': nat)
    requires WellFormed(node, lo, hi) && hi <= hi'
    ensures WellFormed(node, 0, hi')
  {
  }

  /** Renaming there and back restores the text exactly when no identifier leaf was
      already spelled like the new name, or the new name is the old one. */
  lemma RoundTripExactly(tree: Node, source: Text, s: Text, r: Text)
    requires IsConservativeIdentifier(s) && IsConservativeIdentifier(r) && WellFormed(tree, 0, |source|)
    ensures ThereAndBack(tree, source, s, r) == source <==> s == r || Collected(tree, source, r) == []
  {
    var leaves := Leaves(tree);
    OccurrencesSpread(tree, source, s);
    CollectedIsMatching(tree, source, s);
    CollectedIsMatching(tree, source, r);
    LeavesInOrder(tree, 0, |source|);
    var ranges, delta := Occurrences(tree, source, s), |r| - |s|;
    var out, tree' := Rewrite(source, 0, ranges, |s|, r), MovedTree(tree, ranges, delta);
    MovedTreeFits(tree, source, s, r);
    OccurrencesSpread(tree', out, r);
    CollectedIsMatching(tree', out, r);
    LeavesOfMoved(tree, ranges, delta);
    assert leaves[0..] == leaves;
    FoundAfter(leaves, source, s, r, 0);
    var back := Occurrences(tree', out, r);
    assert back == MovedRanges(Either(leaves, source, s, r), ranges, delta);
    if s == r {
      EitherSame(leaves, source, s);
      Restored(leaves, source, s, r);
    } else {
      EitherCount(leaves, source, s, r);
      if Matching(leaves, source, r) == [] {
        Restored(leaves, source, s, r);
      } else {
        NotRestored(leaves, source, s, r, back);
      }
    }
  }

  lemma {:induction false} EitherSame(leaves: seq<Leaf>, source: Text, s: Text)
    ensures Either(leaves, source, s, s) == Matching(leaves, source, s)
  {
    if leaves == [] {
    } else {
      EitherSame(leaves[1..], source, s);
    }
  }

  lemma Restored(leaves: seq<Leaf>, source: Text, s: Text, r: Text)
    requires s != [] && r != []
    requires Spread(Matching(leaves, source, s), 0, |source|, |s|)
    requires var ranges := Matching(leaves, source, s);
      Spread(MovedRanges(ranges, ranges, |r| - |s|), 0, |Rewrite(source, 0, ranges, |s|, r)|, |r|)
    ensures var ranges := Matching(leaves, source, s);
      Rewrite(Rewrite(source, 0, ranges, |s|, r), 0, MovedRanges(ranges, ranges, |r| - |s|), |r|, s) == source
  {
    var ranges, delta := Matching(leaves, source, s), |r| - |s|;
    MatchingSpells(leaves, source, s);
    var back := MovedRanges(ranges, ranges, delta);
    MirrorWhole(source, ranges, s, r);
    MirrorRewrites(Rewrite(source, 0, ranges, |s|, r), 0, back, |r|, source, 0, ranges, s);
    assert source[0..] == source;
  }

  /** A leaf spelled `r` from the start is renamed too, which either changes the length or
      leaves `s` where `r` was. */
  lemma NotRestored(leaves: seq<Leaf>, source: Text, s: Text, r: Text, back: seq<Range>)
    requires s != [] && r != [] && s != r && Matching(leaves, source, r) != [] && LeafOrder(leaves, 0, |source|)
    requires Spread(Matching(leaves, source, s), 0, |source|, |s|)
    requires var ranges := Matching(leaves, source, s);
      var out := Rewrite(source, 0, ranges, |s|, r);
      back == MovedRanges(Either(leaves, source, s, r), ranges, |r| - |s|) && Spread(back, 0, |out|, |r|)
    ensures Rewrite(Rewrite(source, 0, Matching(leaves, source, s), |s|, r), 0, back, |r|, s) != source
  {
    var ranges, delta := Matching(leaves, source, s), |r| - |s|;
    var out := Rewrite(source, 0, ranges, |s|, r);
    var final := Rewrite(out, 0, back, |r|, s);
    EitherCount(leaves, source, s, r);
    if delta != 0 {
      var growth := Growth(source, ranges, |s|, r);
      GrowsBack(|source|, out, |ranges|, s, r, back, |Matching(leaves, source, r)|);
    } else {
      SameLengthDiffers(leaves, source, s, r, back);
    }
  }

  lemma GrowsBack(length: nat, out: Text, n: nat, s: Text, r: Text, back: seq<Range>, extra: nat)
    requires |s| != |r| && extra > 0 && |back| == n + extra
    requires |out| == length + Grown(n, |r| - |s|) && Spread(back, 0, |out|, |r|)
    ensures |Rewrite(out, 0, back, |r|, s)| != length
  {
    var shrinking := Growth(out, back, |r|, s);
    GrowthsDiffer(n, extra, |r| - |s|);
  }

  lemma Growth(source: Text, ranges: seq<Range>, width: nat, replacement: Text) returns (growth: int)
    requires Spread(ranges, 0, |source|, width)
    ensures |Rewrite(source, 0, ranges, width, replacement)| == |source| + growth
    ensures growth == Grown(|ranges|, |replacement| - width)
  {
    RewriteLength(source, 0, ranges, width, replacement);
    GrownTimes(|ranges|, |replacement| - width);
    growth := |ranges| * (|replacement| - width);
  }

  /** What so many replacements add. */
  function Grown(n: nat, delta: int): int {
    if n == 0 then 0 else delta + Grown(n - 1, delta)
  }

  lemma {:induction false} GrownTimes(n: nat, delta: int)
    ensures Grown(n, delta) == n * delta
  {
    if n == 0 {
    } else {
      GrownTimes(n - 1, delta);
      OneMoreTime(n - 1, delta);
    }
  }

  lemma {:induction false} GrowthsDiffer(n: nat, extra: nat, delta: int)
    requires delta != 0
    ensures extra == 0 ==> Grown(n, delta) + Grown(n + extra, -delta) == 0
    ensures extra > 0 && delta > 0 ==> Grown(n, delta) + Grown(n + extra, -delta) < 0
    ensures extra > 0 && delta < 0 ==> Grown(n, delta) + Grown(n + extra, -delta) > 0
    decreases n, extra
  {
    if extra > 0 {
      GrowthsDiffer(n, extra - 1, delta);
    } else if n > 0 {
      GrowthsDiffer(n - 1, 0, delta);
    }
  }

  /** Names of one length move nothing, so the leaf spelled `r` ends up spelled `s`. */
  lemma SameLengthDiffers(leaves: seq<Leaf>, source: Text, s: Text, r: Text, back: seq<Range>)
    requires s != [] && s != r && |s| == |r| && Matching(leaves, source, r) != [] && LeafOrder(leaves, 0, |source|)
    requires Spread(Matching(leaves, source, s), 0, |source|, |s|)
    requires var ranges := Matching(leaves, source, s);
      var out := Rewrite(source, 0, ranges, |s|, r);
      back == MovedRanges(Either(leaves, source, s, r), ranges, 0) && Spread(back, 0, |out|, |r|)
    ensures Rewrite(Rewrite(source, 0, Matching(leaves, source, s), |s|, r), 0, back, |r|, s) != source
  {
    var ranges := Matching(leaves, source, s);
    var i := MatchingLeaf(leaves, source, r);
    var k := StaysPut(leaves, source, s, r, ranges, i);
    ReplacedInPlace(Rewrite(source, 0, ranges, |s|, r), back, |r|, s, k);
  }

  /** Where nothing is moved, a leaf spelled `r` is looked for where it was. */
  lemma StaysPut(leaves: seq<Leaf>, source: Text, s: Text, r: Text, ranges: seq<Range>, i: nat) returns (k: nat)
    requires i < |leaves| && LeafSpells(leaves[i], source, r)
    ensures var back := MovedRanges(Either(leaves, source, s, r), ranges, 0);
      k < |back| && back[k] == (leaves[i].start, leaves[i].end)
  {
    var all := Either(leaves, source, s, r);
    InEither(leaves, source, s, r, i);
    k :| 0 <= k < |all| && all[k] == (leaves[i].start, leaves[i].end);
    MovedRangesAt(all, ranges, 0, k);
    NoShift(ranges, leaves[i].start);
    NoShift(ranges, leaves[i].end);
  }

  lemma ReplacedInPlace(source: Text, ranges: seq<Range>, width: nat, replacement: Text, k: nat)
    requires Spread(ranges, 0, |source|, width) && 0 < width == |replacement| && k < |ranges|
    ensures ranges[k].0 <= ranges[k].1 <= |Rewrite(source, 0, ranges, width, replacement)|
    ensures Rewrite(source, 0, ranges, width, replacement)[ranges[k].0..ranges[k].1] == replacement
  {
    RangeReplaced(source, ranges, width, replacement, k);
    NoShift(ranges, ranges[k].0);
    NoShift(ranges, ranges[k].1);
  }

  lemma {:induction false} NoShift(ranges: seq<Range>, p: nat)
    ensures Shift(ranges, 0, p) == 0
  {
    if ranges == [] {
    } else {
      NoShift(ranges[1..], p);
    }
  }

  lemma {:induction false} InEither(leaves: seq<Leaf>, source: Text, s: Text, r: Text, i: nat)
    requires i < |leaves| && LeafSpells(leaves[i], source, r)
    ensures exists k ::
      0 <= k < |Either(leaves, source, s, r)| && Either(leaves, source, s, r)[k] == (leaves[i].start, leaves[i].end)
  {
    var all := Either(leaves, source, s, r);
    if i == 0 {
      assert all[0] == (leaves[0].start, leaves[0].end);
    } else {
      var rest := Either(leaves[1..], source, s, r);
      InEither(leaves[1..], source, s, r, i - 1);
      var k :| 0 <= k < |rest| && rest[k] == (leaves[1..][i - 1].start, leaves[1..][i - 1].end);
      var at := k + |all| - |rest|;
      assert all[at] == rest[k];
    }
  }
}
