/** The reference store: a list of entries, scanned on every query. */
module BruteForceStore {
  import opened Prelude
  import opened Cosine
  import opened Ranking
  import opened VectorStore

  function PositionOf(entries: seq<Entry>, id: ChunkId): (k: nat)
    ensures k <= |entries| && (k < |entries| ==> entries[k].record.id == id)
    ensures forall i | 0 <= i < k :: entries[i].record.id != id
  {
    if entries == [] || entries[0].record.id == id then 0 else 1 + PositionOf(entries[1..], id)
  }

  function Retained(entries: seq<Entry>, path: string): seq<Entry> {
    if entries == [] then []
    else
      var n := |entries| - 1;
      Retained(entries[..n], path) + (if entries[n].record.filePath != path then [entries[n]] else [])
  }

  lemma {:induction false} RetainedContents(entries: seq<Entry>, path: string)
    requires DistinctIds(entries)
    ensures DistinctIds(Retained(entries, path))
    ensures forall e | e in Retained(entries, path) :: e in entries && e.record.filePath != path
    ensures forall e | e in entries && e.record.filePath != path :: e in Retained(entries, path)
  {
    if entries == [] {
    } else {
      var n := |entries| - 1;
      RetainedContents(entries[..n], path);
      assert entries == entries[..n] + [entries[n]];
    }
  }

  /** The answer to a query, given that it fits. */
  function Nearest(root: Root, entries: seq<Entry>, query: Vector, k: nat): seq<Hit> {
    if Norm(root, query) == 0.0 || k == 0 then [] else Truncate(Rank(Scored(root, entries, query)), k)
  }

  class BruteForce {
    const root: Root
    var dimensions: Option<nat>
    var entries: seq<Entry>

    function State(): Store
      reads this
    {
      Store(dimensions, ContentsOf(entries))
    }

    ghost predicate Valid()
      reads this
    {
      DistinctIds(entries) && Sound(State())
    }

    constructor (root: Root)
      ensures Valid() && State() == EMPTY && this.root == root
    {
      this.root, dimensions, entries := root, None, [];
    }

    method EnsureDimensions(actual: nat) returns (r: Result<(), StoreError>)
      modifies this
      ensures r == Fits(old(dimensions), actual) && entries == old(entries)
      ensures dimensions == if r.Ok? then Some(actual) else old(dimensions)
    {
      if dimensions == None {
        dimensions := Some(actual);
      }
      r := Fits(dimensions, actual);
    }

    method Upsert(record: Record, vector: Vector) returns (r: Result<(), StoreError>)
      requires Valid()
      modifies this
      ensures Valid() && State() == Upserted(old(State()), record, vector)
      ensures r == Fits(old(dimensions), |vector|)
    {
      r := EnsureDimensions(|vector|);
      if r.Err? {
        return;
      }
      var k := PositionOf(entries, record.id);
      ghost var before := entries;
      if k < |entries| {
        entries := entries[k := Entry(record, vector)];
      } else {
        entries := entries + [Entry(record, vector)];
      }
      ReplacedContents(before, k, Entry(record, vector), entries);
    }

    method LookupById(id: ChunkId) returns (r: Option<Record>)
      requires Valid()
      ensures r == LookedUp(State(), id)
    {
      var k := PositionOf(entries, id);
      ContentsAre(entries);
      r := if k < |entries| then Some(entries[k].record) else None;
    }

    method NearestTo(query: Vector, k: nat) returns (r: Result<seq<Hit>, StoreError>)
      requires Valid()
      ensures r == match Fits(dimensions, |query|) case Err(e) => Err(e)
        case Ok(_) => Ok(Nearest(root, entries, query, k))
    {
      if dimensions.Some? && dimensions.value != |query| {
        return Err(DimensionMismatch(dimensions.value, |query|));
      }
      if Norm(root, query) == 0.0 || k == 0 {
        return Ok([]);
      }
      var hits := Scored(root, entries, query);
      hits := Rank(hits);
      hits := Truncate(hits, k);
      return Ok(hits);
    }

    method InvalidateByPath(path: string)
      requires Valid()
      modifies this
      ensures Valid() && State() == Invalidated(old(State()), path)
    {
      ghost var before := entries;
      entries := Retained(entries, path);
      RetainedContents(before, path);
      RetainedState(before, entries, path);
    }
  }

  lemma RetainedState(before: seq<Entry>, after: seq<Entry>, path: string)
    requires DistinctIds(before) && DistinctIds(after)
    requires forall e | e in after :: e in before && e.record.filePath != path
    requires forall e | e in before && e.record.filePath != path :: e in after
    ensures forall d: Option<nat> :: Store(d, ContentsOf(after)) == Invalidated(Store(d, ContentsOf(before)), path)
  {
    ContentsAre(before);
    ContentsAre(after);
    var kept := Invalidated(Store(None, ContentsOf(before)), path).contents;
    forall id | id in kept ensures id in ContentsOf(after) && ContentsOf(after)[id] == kept[id] {
      var i :| 0 <= i < |before| && before[i].record.id == id;
      assert before[i] in after;
    }
    forall id | id in ContentsOf(after) ensures id in kept {
      var i :| 0 <= i < |after| && after[i].record.id == id;
      assert after[i] in before;
    }
    ContentsEqual(kept, ContentsOf(after));
  }

  lemma ReplacedContents(before: seq<Entry>, k: nat, e: Entry, after: seq<Entry>)
    requires DistinctIds(before) && k <= |before|
    requires if k < |before| then before[k].record.id == e.record.id && after == before[k := e]
             else after == before + [e] && forall i | 0 <= i < |before| :: before[i].record.id != e.record.id
    ensures DistinctIds(after) && ContentsOf(after) == ContentsOf(before)[e.record.id := e]
  {
    var id := e.record.id;
    assert forall i | 0 <= i < |before| && i != k :: after[i] == before[i] && before[i].record.id != id;
    assert after[k] == e;
    ContentsAre(before);
    ContentsAre(after);
    var expected := ContentsOf(before)[id := e];
    forall x | x in expected ensures x in ContentsOf(after) && ContentsOf(after)[x] == expected[x] {
      if x != id {
        var i :| 0 <= i < |before| && before[i].record.id == x;
        assert after[i] == before[i];
      }
    }
    forall x | x in ContentsOf(after) ensures x in expected {
      var i :| 0 <= i < |after| && after[i].record.id == x;
    }
    ContentsEqual(expected, ContentsOf(after));
  }

  /** The answer ranks as many of the scored entries as asked for, if there are so many;
      equal scores stay in the order of insertion and nothing left out scores higher. */
  lemma NearestIsStableTop(root: Root, entries: seq<Entry>, query: Vector, k: nat)
    requires Norm(root, query) != 0.0 && k > 0
    ensures var hits, top := Scored(root, entries, query), Nearest(root, entries, query, k);
      var left := Rank(hits)[|top|..];
      |top| == (if |entries| < k then |entries| else k) && Ranked(top)
      && multiset(top) + multiset(left) == multiset(hits)
      && (forall kept, out | kept in top && out in left :: out.score <= kept.score)
      && forall x :: WithScore(top + left, x) == WithScore(hits, x)
  {
    var hits := Scored(root, entries, query);
    TopOfRanking(hits, k);
    var top := Truncate(Rank(hits), k);
    assert Rank(hits) == top + Rank(hits)[|top|..];
    forall x ensures WithScore(Rank(hits), x) == WithScore(hits, x) {
      RankStable(hits, x);
    }
  }
}
