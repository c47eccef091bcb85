/** What the rename operation answers, said of its arguments alone. */
module RenameEffect {
  import opened Prelude
  import opened Lexing
  import opened RenameSymbol

  // --- Which leaves are renamed

  predicate SpelledBy(leaf: Leaf, content: Text, symbol: Text) {
    NamesSomething(leaf.kind) && leaf.start <= leaf.end <= |content| && content[leaf.start..leaf.end] == symbol
  }

  predicate NamesSomething(kind: string) {
    kind in ["identifier", "name", "word"] || exists n | 0 <= n <= |kind| :: kind[n..] in ["_identifier", "_name"]
  }

  lemma IdentifierKinds(kind: string)
    ensures IsIdentifierLike(kind) <==> NamesSomething(kind)
  {
    if EndsWith(kind, "_identifier") {
      assert kind[|kind| - |"_identifier"|..] in ["_identifier", "_name"];
    }
    if EndsWith(kind, "_name") {
      assert kind[|kind| - |"_name"|..] in ["_identifier", "_name"];
    }
  }

  /** In the order of the text, the places of the leaves that spell the symbol, each once. */
  ghost predicate AreOccurrences(ranges: seq<Range>, tree: Node, content: Text, symbol: Text) {
    (forall i, j | 0 <= i < j < |ranges| :: ranges[i].1 <= ranges[j].0 && ranges[i] != ranges[j])
    && (forall i | 0 <= i < |ranges| ::
      0 <= ranges[i].0 && ranges[i].1 == ranges[i].0 + |symbol| <= |content|
        && content[ranges[i].0..ranges[i].1] == symbol)
    && forall range: Range :: range in ranges <==> HasLeafAt(Leaves(tree), content, symbol, range)
  }

  ghost predicate HasLeafAt(leaves: seq<Leaf>, content: Text, symbol: Text, range: Range) {
    exists i :: 0 <= i < |leaves| && SpelledBy(leaves[i], content, symbol) && range == (leaves[i].start, leaves[i].end)
  }

  lemma {:induction false} MatchingAre(leaves: seq<Leaf>, content: Text, symbol: Text)
    ensures forall range: Range ::
      range in Matching(leaves, content, symbol) <==> HasLeafAt(leaves, content, symbol, range)
    ensures |Matching(leaves, content, symbol)| == |Filter((leaf: Leaf) => SpelledBy(leaf, content, symbol), leaves)|
  {
    if leaves == [] {
    } else {
      var leaf, rest := leaves[0], leaves[1..];
      MatchingAre(rest, content, symbol);
      IdentifierKinds(leaf.kind);
      forall range: Range
        ensures HasLeafAt(leaves, content, symbol, range)
          <==> ((SpelledBy(leaf, content, symbol) && range == (leaf.start, leaf.end))
                || HasLeafAt(rest, content, symbol, range))
      {
        LeafHereOrLater(leaves, content, symbol, range);
      }
    }
  }

  lemma LeafHereOrLater(leaves: seq<Leaf>, content: Text, symbol: Text, range: Range)
    requires leaves != []
    ensures HasLeafAt(leaves, content, symbol, range)
      <==> ((SpelledBy(leaves[0], content, symbol) && range == (leaves[0].start, leaves[0].end))
            || HasLeafAt(leaves[1..], content, symbol, range))
  {
    var rest := leaves[1..];
    if HasLeafAt(rest, content, symbol, range) {
      var i :| 0 <= i < |rest| && SpelledBy(rest[i], content, symbol) && range == (rest[i].start, rest[i].end);
      assert leaves[i + 1] == rest[i];
    }
    if HasLeafAt(leaves, content, symbol, range) {
      var i :| 0 <= i < |leaves| && SpelledBy(leaves[i], content, symbol) && range == (leaves[i].start, leaves[i].end);
      assert i > 0 ==> rest[i - 1] == leaves[i];
    }
  }

  lemma {:induction false} DedupHas(ranges: seq<Range>)
    ensures forall range: Range :: range in Dedup(ranges) <==> range in ranges
    decreases |ranges|
  {
    if |ranges| > 1 {
      DedupHas(ranges[1..]);
      assert forall range: Range :: range in ranges <==> range == ranges[0] || range in ranges[1..];
    }
  }

  lemma {:induction false} SpreadOrdered(ranges: seq<Range>, lo: nat, hi: nat, width: nat)
    requires Spread(ranges, lo, hi, width)
    ensures forall i | 0 <= i < |ranges| :: lo <= ranges[i].0 && ranges[i].1 == ranges[i].0 + width <= hi
    ensures forall i, j | 0 <= i < j < |ranges| :: ranges[i].1 <= ranges[j].0 && ranges[i] != ranges[j]
  {
    if ranges == [] {
    } else {
      var rest := ranges[1..];
      SpreadOrdered(rest, ranges[0].1, hi, width);
      assert forall i | 1 <= i < |ranges| :: ranges[i] == rest[i - 1];
    }
  }

  lemma OccurrencesAre(tree: Node, content: Text, symbol: Text)
    requires WellFormed(tree, 0, |content|)
    ensures AreOccurrences(Occurrences(tree, content, symbol), tree, content, symbol)
  {
    var collected, ranges := Collected(tree, content, symbol), Occurrences(tree, content, symbol);
    OccurrencesSpread(tree, content, symbol);
    SpreadOrdered(ranges, 0, |content|, |symbol|);
    CollectedIsMatching(tree, content, symbol);
    MatchingAre(Leaves(tree), content, symbol);
    SortRangesSorts(collected);
    DedupHas(SortRanges(collected));
    forall range: Range ensures range in ranges <==> range in collected {
      assert range in SortRanges(collected) <==> range in multiset(SortRanges(collected));
    }
    forall i | 0 <= i < |ranges| ensures content[ranges[i].0..ranges[i].1] == symbol {
      assert ranges[i] in ranges;
      assert HasLeafAt(Leaves(tree), content, symbol, ranges[i]);
    }
  }

  // --- What becomes of the text

  /** The `k`-th occurrence, and each byte between it and the one before, `k` times `delta` further on. */
  ghost predicate ReplacedAll(content: Text, ranges: seq<Range>, replacement: Text, delta: int, updated: Text) {
    |updated| == |content| + |ranges| * delta
    && (forall k | 0 <= k < |ranges| :: HoldsMoved(updated, ranges[k].0, k, delta, replacement))
    && forall k: nat, p: nat | k <= |ranges| && Between(ranges, k, p) && p < |content| ::
      HoldsMoved(updated, p, k, delta, [content[p]])
  }

  predicate HoldsMoved(text: Text, at: nat, k: nat, delta: int, piece: Text) {
    HoldsAt(text, at + k * delta, piece)
  }

  predicate HoldsAt(text: Text, at: int, piece: Text) {
    0 <= at && at + |piece| <= |text| && text[at..at + |piece|] == piece
  }

  /** After the first `k` ranges and before the next. */
  predicate Between(ranges: seq<Range>, k: nat, p: nat)
    requires k <= |ranges|
  {
    (k > 0 ==> ranges[k - 1].1 <= p) && (k < |ranges| ==> p < ranges[k].0)
  }

  lemma HoldsLater(head: Text, tail: Text, at: int, piece: Text)
    requires HoldsAt(tail, at, piece)
    ensures HoldsAt(head + tail, |head| + at, piece)
  {
    assert (head + tail)[|head| + at..|head| + at + |piece|] == tail[at..at + |piece|];
  }

  lemma HoldsFirst(head: Text, tail: Text, at: nat, piece: Text)
    requires HoldsAt(head, at, piece)
    ensures HoldsAt(head + tail, at, piece)
  {
    assert (head + tail)[at..at + |piece|] == head[at..at + |piece|];
  }

  lemma {:induction false} OccurrenceHolds(source: Text, from: nat, ranges: seq<Range>, width: nat, replacement: Text,
      k: nat)
    requires Spread(ranges, from, |source|, width) && k < |ranges|
    ensures HoldsAt(Rewrite(source, from, ranges, width, replacement),
      ranges[k].0 - from + Grown(k, |replacement| - width), replacement)
    decreases k
  {
    var head := source[from..ranges[0].0];
    var tail := Rewrite(source, ranges[0].1, ranges[1..], width, replacement);
    assert |head| == ranges[0].0 - from;
    if k == 0 {
      HoldsBetween(head, replacement, tail);
    } else {
      assert ranges[1..][k - 1] == ranges[k];
      OccurrenceHolds(source, ranges[0].1, ranges[1..], width, replacement, k - 1);
      HoldsLater(head + replacement, tail, ranges[k].0 - ranges[0].1 + Grown(k - 1, |replacement| - width),
        replacement);
    }
  }

  lemma HoldsBetween(head: Text, piece: Text, tail: Text)
    ensures HoldsAt(head + piece + tail, |head|, piece)
  {
    assert HoldsAt(head + piece, |head|, piece);
    HoldsFirst(head + piece, tail, |head|, piece);
  }

  lemma {:induction false} ByteHolds(source: Text, from: nat, ranges: seq<Range>, width: nat, replacement: Text, k: nat,
      p: nat)
    requires Spread(ranges, from, |source|, width) && k <= |ranges| && Between(ranges, k, p) && from <= p < |source|
    ensures HoldsAt(Rewrite(source, from, ranges, width, replacement),
      p - from + Grown(k, |replacement| - width), [source[p]])
    decreases |ranges|
  {
    if ranges == [] {
      ByteIn(source, from, |source|, p);
      assert source[from..|source|] == source[from..];
    } else {
      var head := source[from..ranges[0].0];
      var tail := Rewrite(source, ranges[0].1, ranges[1..], width, replacement);
      assert |head| == ranges[0].0 - from;
      if k == 0 {
        ByteIn(source, from, ranges[0].0, p);
        HoldsEarly(head, replacement, tail, p - from, [source[p]]);
      } else {
        assert Between(ranges[1..], k - 1, p) && ranges[0].1 <= p by {
          SpreadOrdered(ranges, from, |source|, width);
          LaterBetween(ranges, k, p);
        }
        ByteHolds(source, ranges[0].1, ranges[1..], width, replacement, k - 1, p);
        HoldsLater(head + replacement, tail, p - ranges[0].1 + Grown(k - 1, |replacement| - width), [source[p]]);
      }
    }
  }

  lemma HoldsEarly(head: Text, piece: Text, tail: Text, at: nat, byte: Text)
    requires HoldsAt(head, at, byte)
    ensures HoldsAt(head + piece + tail, at, byte)
  {
    HoldsFirst(head, piece, at, byte);
    HoldsFirst(head + piece, tail, at, byte);
  }

  lemma LaterBetween(ranges: seq<Range>, k: nat, p: nat)
    requires 0 < k <= |ranges| && Between(ranges, k, p)
    ensures Between(ranges[1..], k - 1, p)
  {
    assert k > 1 ==> ranges[1..][k - 2] == ranges[k - 1];
    assert k < |ranges| ==> ranges[1..][k - 1] == ranges[k];
  }

  lemma ByteIn(source: Text, from: nat, upto: nat, p: nat)
    requires from <= p < upto <= |source|
    ensures HoldsAt(source[from..upto], p - from, [source[p]])
  {
    var part := source[from..upto];
    assert part[p - from] == source[p];
    assert part[p - from..p - from + 1] == [part[p - from]];
  }

  lemma OccurrenceHeld(source: Text, ranges: seq<Range>, width: nat, replacement: Text, delta: int, k: nat)
    requires Spread(ranges, 0, |source|, width) && k < |ranges| && delta == |replacement| - width
    ensures HoldsMoved(Rewrite(source, 0, ranges, width, replacement), ranges[k].0, k, delta, replacement)
  {
    OccurrenceHolds(source, 0, ranges, width, replacement, k);
    GrownTimes(k, delta);
  }

  lemma ByteHeld(source: Text, ranges: seq<Range>, width: nat, replacement: Text, delta: int, k: nat, p: nat)
    requires Spread(ranges, 0, |source|, width) && delta == |replacement| - width
    requires k <= |ranges| && Between(ranges, k, p) && p < |source|
    ensures HoldsMoved(Rewrite(source, 0, ranges, width, replacement), p, k, delta, [source[p]])
  {
    ByteHolds(source, 0, ranges, width, replacement, k, p);
    GrownTimes(k, delta);
  }

  lemma RewriteReplaces(source: Text, ranges: seq<Range>, width: nat, replacement: Text, delta: int, updated: Text)
    requires Spread(ranges, 0, |source|, width) && delta == |replacement| - width
    requires updated == Rewrite(source, 0, ranges, width, replacement)
    ensures ReplacedAll(source, ranges, replacement, delta, updated)
  {
    RewriteLength(source, 0, ranges, width, replacement);
    forall k: nat | k < |ranges| ensures HoldsMoved(updated, ranges[k].0, k, delta, replacement) {
      OccurrenceHeld(source, ranges, width, replacement, delta, k);
    }
    forall k: nat, p: nat | k <= |ranges| && Between(ranges, k, p) && p < |source|
      ensures HoldsMoved(updated, p, k, delta, [source[p]])
    {
      ByteHeld(source, ranges, width, replacement, delta, k, p);
    }
  }

  // --- The operation

  predicate IsNamed(name: Option<Text>, symbol: Text) {
    name == Some(symbol)
  }

  lemma {:induction false} CountNamesIs(names: seq<Option<Text>>, symbol: Text)
    ensures CountNames(names, symbol) == |Filter((name: Option<Text>) => IsNamed(name, symbol), names)|
    ensures CountNames(names, symbol) == 0 <==> Some(symbol) !in names
  {
    if names == [] {
    } else {
      CountNamesIs(names[1..], symbol);
      assert names == [names[0]] + names[1..];
    }
  }

  /** What a successful rename has done to the text, at these places. */
  ghost predicate RenamesAt(ranges: seq<Range>, tree: Node, content: Text, symbol: Text, replacement: Text,
      edit: Edit) {
    AreOccurrences(ranges, tree, content, symbol) && edit.occurrenceCount == |ranges|
    && ReplacedAll(content, ranges, replacement, |replacement| - |symbol|, edit.updatedContent)
  }

  /** And what it has counted: definitions by the outline, and a leaf for each place. */
  ghost predicate Renames(names: seq<Option<Text>>, tree: Node, content: Text, symbol: Text, replacement: Text,
      edit: Edit) {
    edit.definitionCount == |Filter((name: Option<Text>) => IsNamed(name, symbol), names)|
    && (symbol != [] ==>
      edit.occurrenceCount == |Filter((leaf: Leaf) => SpelledBy(leaf, content, symbol), Leaves(tree))|)
    && exists ranges :: RenamesAt(ranges, tree, content, symbol, replacement, edit)
  }

  lemma RenamedRenames(structure: Result<Structure, StructureError>, parse: Result<Node, StructureError>,
                       content: Text, symbol: Text, replacement: Text)
    requires parse.Ok? ==> WellFormed(parse.value, 0, |content|)
    ensures var r := Renamed(structure, parse, content, symbol, replacement);
      r.Ok? ==>
        structure.Ok? && parse.Ok? && Renames(structure.value.names, parse.value, content, symbol, replacement, r.value)
  {
    var r := Renamed(structure, parse, content, symbol, replacement);
    if r.Ok? {
      var ranges := Occurrences(parse.value, content, symbol);
      OccurrencesSpread(parse.value, content, symbol);
      CountNamesIs(structure.value.names, symbol);
      LeavesCounted(parse.value, content, symbol, ranges);
      TextReplaced(parse.value, content, symbol, replacement, ranges, r.value);
    }
  }

  lemma LeavesCounted(tree: Node, content: Text, symbol: Text, ranges: seq<Range>)
    requires WellFormed(tree, 0, |content|) && ranges == Occurrences(tree, content, symbol)
    ensures symbol != [] ==> |ranges| == |Filter((leaf: Leaf) => SpelledBy(leaf, content, symbol), Leaves(tree))|
  {
    OccurrencesSpread(tree, content, symbol);
    CollectedIsMatching(tree, content, symbol);
    MatchingAre(Leaves(tree), content, symbol);
  }

  lemma TextReplaced(tree: Node, content: Text, symbol: Text, replacement: Text, ranges: seq<Range>, edit: Edit)
    requires WellFormed(tree, 0, |content|) && ranges == Occurrences(tree, content, symbol)
    requires Spread(ranges, 0, |content|, |symbol|) && edit.occurrenceCount == |ranges|
    requires edit.updatedContent == Rewrite(content, 0, ranges, |symbol|, replacement)
    ensures RenamesAt(ranges, tree, content, symbol, replacement, edit)
  {
    OccurrencesAre(tree, content, symbol);
    RewriteReplaces(content, ranges, |symbol|, replacement, |replacement| - |symbol|, edit.updatedContent);
  }

  // --- Refusals

  predicate IsNameByte(b: Byte, first: bool) {
    'a' as int <= b <= 'z' as int || 'A' as int <= b <= 'Z' as int || b == '_' as int
    || (!first && '0' as int <= b <= '9' as int)
  }

  /** Not empty, and letters, digits and underscores, a digit not first. */
  predicate IsName(text: Text) {
    text != [] && forall i | 0 <= i < |text| :: IsNameByte(text[i], i == 0)
  }

  /** When the operation succeeds, and which refusal comes when: the first that applies, in this order. */
  lemma RefusedExactly(structure: Result<Structure, StructureError>, parse: Result<Node, StructureError>,
                       content: Text, symbol: Text, replacement: Text)
    requires parse.Ok? ==> WellFormed(parse.value, 0, |content|)
    ensures var r := Renamed(structure, parse, content, symbol, replacement);
      var sound := IsName(replacement) && structure.Ok? && !structure.value.hasErrors;
      var defined := sound && Some(symbol) in structure.value.names;
      (r.Ok? <==> defined && parse.Ok?)
      && (r == Err(InvalidReplacement(replacement)) <==> !IsName(replacement))
      && (r == Err(SourceHasErrors) <==> IsName(replacement) && structure.Ok? && structure.value.hasErrors)
      && (r == Err(SymbolNotFound(symbol)) <==> sound && !defined)
      && forall error :: r == Err(CannotInspect(error)) <==>
        (IsName(replacement) && structure == Err(error)) || (defined && parse == Err(error))
  {
    if structure.Ok? {
      CountNamesIs(structure.value.names, symbol);
    }
    assert IsConservativeIdentifier(replacement) <==> IsName(replacement);
  }

  // --- Renaming back

  /** Once `symbol` was renamed, renaming `replacement` back over the same tree with its positions
      moved succeeds if the new outline has the new name, and restores the text exactly when no
      leaf was spelled like the new name already, or the names are the same. */
  lemma RenamedBack(structure: Result<Structure, StructureError>, structure': Result<Structure, StructureError>,
                    tree: Node, content: Text, symbol: Text, replacement: Text)
    requires WellFormed(tree, 0, |content|) && IsName(symbol)
    requires Renamed(structure, Ok(tree), content, symbol, replacement).Ok?
    requires structure'.Ok? && !structure'.value.hasErrors && Some(replacement) in structure'.value.names
    ensures var edit := Renamed(structure, Ok(tree), content, symbol, replacement).value;
      var tree' := MovedTree(tree, Occurrences(tree, content, symbol), |replacement| - |symbol|);
      WellFormed(tree', 0, |edit.updatedContent|)
      && var back := Renamed(structure', Ok(tree'), edit.updatedContent, replacement, symbol);
        back.Ok? && (back.value.updatedContent == content <==>
          symbol == replacement || forall leaf | leaf in Leaves(tree) :: !SpelledBy(leaf, content, replacement))
  {
    RefusedExactly(structure, Ok(tree), content, symbol, replacement);
    MovedTreeFits(tree, content, symbol, replacement);
    var edit := Renamed(structure, Ok(tree), content, symbol, replacement).value;
    var tree' := MovedTree(tree, Occurrences(tree, content, symbol), |replacement| - |symbol|);
    RefusedExactly(structure', Ok(tree'), edit.updatedContent, replacement, symbol);
    assert IsConservativeIdentifier(symbol) && IsConservativeIdentifier(replacement);
    RoundTripExactly(tree, content, symbol, replacement);
    NoneCollected(tree, content, replacement);
  }

  lemma NoneCollected(tree: Node, content: Text, symbol: Text)
    ensures Collected(tree, content, symbol) == []
      <==> forall leaf | leaf in Leaves(tree) :: !SpelledBy(leaf, content, symbol)
  {
    var leaves, found := Leaves(tree), Matching(Leaves(tree), content, symbol);
    CollectedIsMatching(tree, content, symbol);
    MatchingAre(leaves, content, symbol);
    if leaf :| leaf in leaves && SpelledBy(leaf, content, symbol) {
      var i :| 0 <= i < |leaves| && leaves[i] == leaf;
      assert HasLeafAt(leaves, content, symbol, (leaf.start, leaf.end));
      assert (leaf.start, leaf.end) in found;
    }
    if found != [] {
      assert found[0] in found;
      assert HasLeafAt(leaves, content, symbol, found[0]);
    }
  }
}
