/** The batch store: its index is rebuilt from the entries on every change. */
module InstantDistanceStore {
  import opened Prelude
  import opened Cosine
  import opened Ranking
  import opened VectorStore
  import BruteForceStore

  datatype Point = Point(vector: Vector, id: ChunkId)

  type Index = Option<seq<Point>>

  /** The index lists every entry's id and vector once, and nothing else. */
  ghost predicate Agrees(index: Index, contents: Contents) {
    if index == None then contents == map[]
    else index.value != [] && Lists(index.value, contents, contents.Keys)
  }

  /** The points are those of these entries, each once. */
  ghost predicate Lists(points: seq<Point>, contents: Contents, ids: set<ChunkId>) {
    (forall i | 0 <= i < |points| ::
      points[i].id in ids && points[i].id in contents && contents[points[i].id].vector == points[i].vector)
    && (forall i, j | 0 <= i < j < |points| :: points[i].id != points[j].id)
    && (forall id | id in ids :: exists i :: 0 <= i < |points| && points[i].id == id)
  }

  lemma ListsOneMore(points: seq<Point>, contents: Contents, ids: set<ChunkId>, id: ChunkId)
    requires Lists(points, contents, ids) && id in contents && id !in ids
    ensures Lists(points + [Point(contents[id].vector, id)], contents, ids + {id})
  {
    var more := points + [Point(contents[id].vector, id)];
    assert more[|points|].id == id;
    forall x | x in ids + {id} ensures exists i :: 0 <= i < |more| && more[i].id == x {
      if x in ids {
        var i :| 0 <= i < |points| && points[i].id == x;
        assert more[i].id == x;
      }
    }
  }

  /** One answer of the index search: a position in the index and its distance from the query. */
  datatype Found = Found(position: nat, distance: real)

  function HitsOf(points: seq<Point>, contents: Contents, found: seq<Found>): seq<Hit>
    requires forall i | 0 <= i < |found| :: found[i].position < |points|
    requires forall p | 0 <= p < |points| :: points[p].id in contents
  {
    seq(|found|, i requires 0 <= i < |found| =>
      Hit(contents[points[found[i].position].id].record, 1.0 - found[i].distance))
  }

  class InstantDistance {
    var dimensions: Option<nat>
    var entries: Contents
    var index: Index

    function State(): Store
      reads this
    {
      Store(dimensions, entries)
    }

    ghost predicate Valid()
      reads this
    {
      Sound(State()) && Agrees(index, entries)
    }

    constructor ()
      ensures Valid() && State() == EMPTY
    {
      dimensions, entries, index := None, map[], None;
    }

    method EnsureDimensions(actual: nat) returns (r: Result<(), StoreError>)
      modifies this`dimensions
      ensures r == Fits(old(dimensions), actual)
      ensures dimensions == if r.Ok? then Some(actual) else old(dimensions)
    {
      if dimensions == None {
        dimensions := Some(actual);
      }
      r := Fits(dimensions, actual);
    }

    /** Lists the entries in whatever order the map gives them. */
    method Rebuild()
      modifies this`index
      ensures Agrees(index, entries)
    {
      if entries.Keys == {} {
        index := None;
        return;
      }
      var points: seq<Point>, todo := [], entries.Keys;
      while todo != {}
        invariant todo <= entries.Keys && Lists(points, entries, entries.Keys - todo)
        decreases |todo|
      {
        var id :| id in todo;
        ListsOneMore(points, entries, entries.Keys - todo, id);
        assert entries.Keys - (todo - {id}) == (entries.Keys - todo) + {id};
        points := points + [Point(entries[id].vector, id)];
        todo := todo - {id};
      }
      assert entries.Keys - {} == entries.Keys;
      index := Some(points);
    }

    method Upsert(record: Record, vector: Vector) returns (r: Result<(), StoreError>)
      requires Valid()
      modifies this
      ensures Valid() && State() == Upserted(old(State()), record, vector)
      ensures r == Fits(old(dimensions), |vector|)
    {
      r := EnsureDimensions(|vector|);
      if r.Err? {
        return;
      }
      entries := entries[record.id := Entry(record, vector)];
      Rebuild();
    }

    method LookupById(id: ChunkId) returns (r: Option<Record>)
      requires Valid()
      ensures r == LookedUp(State(), id)
    {
      r := if id in entries then Some(entries[id].record) else None;
    }

    /** `found` is what the index answers for this query, nearest first. Every position has an
        entry, so looking one up cannot fail. */
    method NearestTo(query: Vector, k: nat, found: seq<Found>) returns (r: Result<seq<Hit>, StoreError>)
      requires Valid()
      requires index.Some? ==> forall i | 0 <= i < |found| :: found[i].position < |index.value|
      ensures Fits(dimensions, |query|).Err? ==> r == Err(Fits(dimensions, |query|).error)
      ensures Fits(dimensions, |query|).Ok? && index == None ==> r == Ok([]) && entries == map[]
      ensures Fits(dimensions, |query|).Ok? && index.Some? ==> r == Ok(Truncate(HitsOf(index.value, entries, found), k))
    {
      if dimensions.Some? && dimensions.value != |query| {
        return Err(DimensionMismatch(dimensions.value, |query|));
      }
      if index == None {
        return Ok([]);
      }
      var hits := HitsOf(index.value, entries, found);
      return Ok(Truncate(hits, k));
    }

    method InvalidateByPath(path: string)
      requires Valid()
      modifies this
      ensures Valid() && State() == Invalidated(old(State()), path)
    {
      var toRemove := set id | id in entries && entries[id].record.filePath == path;
      RemovedAre(State(), path, toRemove);
      if toRemove != {} {
        entries := entries - toRemove;
        Rebuild();
      }
    }
  }

  // --- Against the reference store

  function Positions(found: seq<Found>): (r: seq<nat>)
    ensures |r| == |found| && forall i | 0 <= i < |r| :: r[i] == found[i].position
  {
    seq(|found|, i requires 0 <= i < |found| => found[i].position)
  }

  /** The search answers with positions of the index, none twice and nearest first, leaving out
      nothing nearer; it stops short of `k` only when it has them all. */
  ghost predicate NearestFirst(root: Root, points: seq<Point>, query: Vector, k: nat, found: seq<Found>) {
    (forall i | 0 <= i < |found| ::
      found[i].position < |points| && found[i].distance == Distance(root, query, points[found[i].position].vector))
    && (forall i, j | 0 <= i < j < |found| ::
      found[i].position != found[j].position && found[i].distance <= found[j].distance)
    && (|found| >= k || |found| >= |points|)
    && forall p, i | 0 <= p < |points| && p !in Positions(found) && 0 <= i < |found| ::
      Distance(root, query, points[p].vector) >= found[i].distance
  }

  ghost predicate Filed(points: seq<Point>, contents: Contents, query: Vector) {
    Lists(points, contents, contents.Keys) && Sound(Store(Some(|query|), contents))
  }

  function HitAt(root: Root, points: seq<Point>, contents: Contents, query: Vector, p: nat): Hit
    requires p < |points| && points[p].id in contents
  {
    Hit(contents[points[p].id].record, 1.0 - Distance(root, query, points[p].vector))
  }

  function HitsAt(root: Root, points: seq<Point>, contents: Contents, query: Vector, positions: seq<nat>): (r: seq<Hit>)
    requires forall i | 0 <= i < |positions| :: positions[i] < |points|
    requires forall p | 0 <= p < |points| :: points[p].id in contents
    ensures |r| == |positions| && forall i | 0 <= i < |r| :: r[i] == HitAt(root, points, contents, query, positions[i])
  {
    seq(|positions|, i requires 0 <= i < |positions| => HitAt(root, points, contents, query, positions[i]))
  }

  lemma FoundHits(root: Root, points: seq<Point>, contents: Contents, query: Vector, k: nat, found: seq<Found>)
    requires Filed(points, contents, query) && NearestFirst(root, points, query, k, found)
    ensures HitsOf(points, contents, found) == HitsAt(root, points, contents, query, Positions(found))
    ensures Ranked(HitsOf(points, contents, found))
  {
  }

  function Listing(points: seq<Point>, contents: Contents): (r: seq<Entry>)
    requires forall p | 0 <= p < |points| :: points[p].id in contents
    ensures |r| == |points| && forall i | 0 <= i < |r| :: r[i] == contents[points[i].id]
  {
    seq(|points|, i requires 0 <= i < |points| => contents[points[i].id])
  }

  lemma ListingIsContents(points: seq<Point>, contents: Contents, query: Vector)
    requires Filed(points, contents, query)
    ensures DistinctIds(Listing(points, contents)) && ContentsOf(Listing(points, contents)) == contents
  {
    var l := Listing(points, contents);
    assert forall i | 0 <= i < |l| :: l[i].record.id == points[i].id;
    ContentsAre(l);
    forall id | id in contents ensures id in ContentsOf(l) && ContentsOf(l)[id] == contents[id] {
      var i :| 0 <= i < |points| && points[i].id == id;
      assert l[i].record.id == id;
    }
    forall id | id in ContentsOf(l) ensures id in contents {
      var i :| 0 <= i < |l| && l[i].record.id == id;
    }
    ContentsEqual(contents, ContentsOf(l));
  }

  lemma ListingScores(root: Root, points: seq<Point>, contents: Contents, query: Vector)
    requires IsRoot(root) && Filed(points, contents, query) && !IsZero(query)
    ensures Norm(root, query) != 0.0
    ensures Scored(root, Listing(points, contents), query) == HitsAt(root, points, contents, query, Upto(|points|))
  {
    NormZero(root, query);
    var scored, hits := Scored(root, Listing(points, contents), query),
      HitsAt(root, points, contents, query, Upto(|points|));
    forall i | 0 <= i < |points| ensures scored[i] == hits[i] {
      assert contents[points[i].id].vector == points[i].vector;
      ScoreBounds(root, query, points[i].vector);
    }
    assert scored == hits;
  }

  lemma HitsPermute(root: Root, points: seq<Point>, contents: Contents, query: Vector, a: seq<nat>, b: seq<nat>,
      all: seq<nat>)
    requires multiset(a + b) == multiset(all)
    requires (forall i | 0 <= i < |a| :: a[i] < |points|) && (forall i | 0 <= i < |b| :: b[i] < |points|)
    requires (forall i | 0 <= i < |all| :: all[i] < |points|)
      && forall p | 0 <= p < |points| :: points[p].id in contents
    ensures multiset(HitsAt(root, points, contents, query, a) + HitsAt(root, points, contents, query, b))
      == multiset(HitsAt(root, points, contents, query, all))
  {
    var hit := (p: nat) =>
      if p < |points| && points[p].id in contents then HitAt(root, points, contents, query, p)
        else Hit(Record("", "", ""), 0.0);
    MappedPermutes(hit, a + b, all, HitsAt(root, points, contents, query, a) + HitsAt(root, points, contents, query, b),
      HitsAt(root, points, contents, query, all));
  }

  /** What the search leaves out. */
  function Unfound(points: seq<Point>, found: seq<Found>): (r: seq<nat>)
    ensures forall i | 0 <= i < |r| :: r[i] < |points| && r[i] !in Positions(found)
  {
    WithoutIs(|points|, Positions(found));
    var left := Without(|points|, Positions(found));
    assert forall i | 0 <= i < |left| :: left[i] in left;
    left
  }

  /** The hits found are the best so many there are. */
  lemma FoundIsBest(root: Root, points: seq<Point>, contents: Contents, query: Vector, k: nat, found: seq<Found>)
    requires Filed(points, contents, query) && NearestFirst(root, points, query, k, found)
    ensures var few, left := HitsOf(points, contents, found),
      HitsAt(root, points, contents, query, Unfound(points, found));
      BestHits(few, left) && multiset(few + left) == multiset(HitsAt(root, points, contents, query, Upto(|points|)))
  {
    var positions, left := Positions(found), Unfound(points, found);
    FoundHits(root, points, contents, query, k, found);
    WithoutIs(|points|, positions);
    SplitPoints(|points|, positions, left);
    HitsPermute(root, points, contents, query, positions, left, Upto(|points|));
    LeftBelow(root, points, contents, query, k, found);
  }

  lemma LeftBelow(root: Root, points: seq<Point>, contents: Contents, query: Vector, k: nat, found: seq<Found>)
    requires Filed(points, contents, query) && NearestFirst(root, points, query, k, found)
    ensures forall kept, out | kept in HitsOf(points, contents, found)
      && out in HitsAt(root, points, contents, query, Unfound(points, found)) :: out.score <= kept.score
  {
    var hits, left := HitsOf(points, contents, found), Unfound(points, found);
    var others := HitsAt(root, points, contents, query, left);
    forall kept, out | kept in hits && out in others ensures out.score <= kept.score {
      var i :| 0 <= i < |found| && hits[i] == kept;
      var j :| 0 <= j < |left| && others[j] == out;
      assert left[j] !in Positions(found);
    }
  }

  lemma AnswerIsBest(root: Root, points: seq<Point>, contents: Contents, query: Vector, k: nat, found: seq<Found>)
    returns (left: seq<Hit>)
    requires Filed(points, contents, query) && NearestFirst(root, points, query, k, found)
    ensures var few := Truncate(HitsOf(points, contents, found), k);
      BestHits(few, left) && multiset(few + left) == multiset(HitsAt(root, points, contents, query, Upto(|points|)))
      && |few| == if |points| < k then |points| else k
  {
    var all, out := HitsOf(points, contents, found), HitsAt(root, points, contents, query, Unfound(points, found));
    FoundIsBest(root, points, contents, query, k, found);
    assert |multiset(all + out)| == |multiset(HitsAt(root, points, contents, query, Upto(|points|)))|;
    left := BestTruncated(all, out, k);
  }

  ghost predicate Comparable(
    root: Root, points: seq<Point>, contents: Contents, query: Vector, k: nat, found: seq<Found>, entries: seq<Entry>)
  {
    IsRoot(root) && Filed(points, contents, query) && NearestFirst(root, points, query, k, found)
    && DistinctIds(entries) && ContentsOf(entries) == contents
  }

  lemma BothAreBest(root: Root, points: seq<Point>, contents: Contents, query: Vector, k: nat, found: seq<Found>,
      entries: seq<Entry>)
    returns (left: seq<Hit>, left': seq<Hit>)
    requires Comparable(root, points, contents, query, k, found, entries) && !IsZero(query)
    ensures var few, many := Truncate(HitsOf(points, contents, found), k),
      BruteForceStore.Nearest(root, entries, query, k);
      BestHits(few, left) && BestHits(many, left') && multiset(few + left) == multiset(many + left') && |few| == |many|
  {
    left := AnswerIsBest(root, points, contents, query, k, found);
    ListingScores(root, points, contents, query);
    ListingIsContents(points, contents, query);
    ListingsPermute(Listing(points, contents), entries);
    ScoredPermutes(root, Listing(points, contents), entries, query);
    TopIsBest(Scored(root, entries, query), k);
    left' := Rank(Scored(root, entries, query))[|BruteForceStore.Nearest(root, entries, query, k)|..];
    assert |multiset(Listing(points, contents))| == |multiset(entries)|;
  }

  /** The answer is ranked, and scores as the reference store's exactly unless the query is
      zero: for that the reference store has no answer, and this one gives what it has. */
  lemma SameScoresExactly(root: Root, points: seq<Point>, contents: Contents, query: Vector, k: nat, found: seq<Found>,
      entries: seq<Entry>)
    requires Comparable(root, points, contents, query, k, found, entries)
    ensures Ranked(Truncate(HitsOf(points, contents, found), k))
    ensures Scores(Truncate(HitsOf(points, contents, found), k))
      == Scores(BruteForceStore.Nearest(root, entries, query, k))
      <==> !IsZero(query) || k == 0 || contents == map[]
  {
    var few, many := Truncate(HitsOf(points, contents, found), k), BruteForceStore.Nearest(root, entries, query, k);
    NormZero(root, query);
    if IsZero(query) {
      var left := AnswerIsBest(root, points, contents, query, k, found);
      assert many == [];
      assert points == [] <==> contents == map[] by {
        ListingIsContents(points, contents, query);
        ContentsSize(Listing(points, contents));
      }
    } else {
      var left, left' := BothAreBest(root, points, contents, query, k, found, entries);
      BestScoresPrefix(few, left, many, left');
      assert Scores(many)[..|few|] == Scores(many);
    }
  }

  /** And the hits that score above the last are the reference store's own. */
  lemma SameHitsAbove(root: Root, points: seq<Point>, contents: Contents, query: Vector, k: nat, found: seq<Found>,
      entries: seq<Entry>, h: Hit)
    requires Comparable(root, points, contents, query, k, found, entries) && !IsZero(query)
    requires var few := Truncate(HitsOf(points, contents, found), k); few != [] && h.score > few[|few| - 1].score
    ensures h in Truncate(HitsOf(points, contents, found), k) <==> h in BruteForceStore.Nearest(root, entries, query, k)
  {
    var left, left' := BothAreBest(root, points, contents, query, k, found, entries);
    BestHitsAbove(Truncate(HitsOf(points, contents, found), k), left, BruteForceStore.Nearest(root, entries, query, k),
      left', h);
  }
}
