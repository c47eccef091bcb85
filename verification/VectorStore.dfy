/** What every vector store promises: one vector and record per chunk id. */
module VectorStore {
  import opened Prelude
  import opened Cosine
  import opened Ranking

  datatype Entry = Entry(record: Record, vector: Vector)

  type Contents = map<ChunkId, Entry>

  /** Dimensions are fixed by the first upsert, whatever becomes of it later. */
  datatype Store = Store(dimensions: Option<nat>, contents: Contents)

  datatype StoreError = DimensionMismatch(expected: nat, actual: nat)

  const EMPTY := Store(None, map[])

  function Fits(dimensions: Option<nat>, actual: nat): Result<(), StoreError> {
    if dimensions.Some? && dimensions.value != actual then Err(DimensionMismatch(dimensions.value, actual)) else Ok(())
  }

  function Upserted(s: Store, record: Record, vector: Vector): Store {
    if Fits(s.dimensions, |vector|).Err? then s
    else Store(Some(|vector|), s.contents[record.id := Entry(record, vector)])
  }

  function Invalidated(s: Store, path: string): Store {
    s.(contents := map id | id in s.contents && s.contents[id].record.filePath != path :: s.contents[id])
  }

  function LookedUp(s: Store, id: ChunkId): Option<Record> {
    if id in s.contents then Some(s.contents[id].record) else None
  }

  /** Entries are filed under their ids, and all have the store's dimensions. */
  ghost predicate Sound(s: Store) {
    forall id | id in s.contents ::
      s.contents[id].record.id == id && s.dimensions == Some(|s.contents[id].vector|)
  }

  datatype Operation = Upsert(record: Record, vector: Vector) | Invalidate(path: string)

  function Performed(s: Store, op: Operation): Store {
    match op
    case Upsert(record, vector) => Upserted(s, record, vector)
    case Invalidate(path) => Invalidated(s, path)
  }

  function After(s: Store, ops: seq<Operation>): Store
    decreases |ops|
  {
    if ops == [] then s else After(Performed(s, ops[0]), ops[1..])
  }

  lemma PerformedSound(s: Store, op: Operation)
    requires Sound(s)
    ensures Sound(Performed(s, op))
  {
  }

  lemma {:induction false} AfterSound(s: Store, ops: seq<Operation>)
    requires Sound(s)
    ensures Sound(After(s, ops))
    decreases |ops|
  {
    if ops == [] {
    } else {
      PerformedSound(s, ops[0]);
      AfterSound(Performed(s, ops[0]), ops[1..]);
    }
  }

  lemma AfterLast(s: Store, ops: seq<Operation>, op: Operation)
    ensures After(s, ops + [op]) == Performed(After(s, ops), op)
    decreases |ops|
  {
    if ops == [] {
      assert [op][1..] == [];
    } else {
      assert (ops + [op])[1..] == ops[1..] + [op];
      AfterLast(Performed(s, ops[0]), ops[1..], op);
    }
  }

  // --- Entries held in a sequence

  ghost predicate DistinctIds(entries: seq<Entry>) {
    forall i, j | 0 <= i < j < |entries| :: entries[i].record.id != entries[j].record.id
  }

  /** Later entries win, should ids repeat. */
  function ContentsOf(entries: seq<Entry>): Contents {
    if entries == [] then map[]
    else
      var last := entries[|entries| - 1];
      ContentsOf(entries[..|entries| - 1])[last.record.id := last]
  }

  lemma {:induction false} ContentsAre(entries: seq<Entry>)
    requires DistinctIds(entries)
    ensures forall i | 0 <= i < |entries| ::
      entries[i].record.id in ContentsOf(entries) && ContentsOf(entries)[entries[i].record.id] == entries[i]
    ensures forall id | id in ContentsOf(entries) :: exists i :: 0 <= i < |entries| && entries[i].record.id == id
  {
    ContentsIds(entries);
    if entries == [] {
    } else {
      var n := |entries| - 1;
      ContentsAre(entries[..n]);
      assert forall i | 0 <= i < n :: entries[..n][i] == entries[i];
    }
  }

  lemma {:induction false} ContentsIds(entries: seq<Entry>)
    ensures forall id | id in ContentsOf(entries) :: exists i :: 0 <= i < |entries| && entries[i].record.id == id
  {
    if entries == [] {
    } else {
      var n := |entries| - 1;
      ContentsIds(entries[..n]);
      forall id | id in ContentsOf(entries) ensures exists i :: 0 <= i < |entries| && entries[i].record.id == id {
        if id == entries[n].record.id {
          assert entries[n].record.id == id;
        } else {
          assert id in ContentsOf(entries[..n]);
          var i :| 0 <= i < |entries[..n]| && entries[..n][i].record.id == id;
          assert entries[i].record.id == id;
        }
      }
    }
  }

  lemma {:induction false} ContentsSize(entries: seq<Entry>)
    requires DistinctIds(entries)
    ensures |ContentsOf(entries)| == |entries|
  {
    if entries == [] {
    } else {
      var n := |entries| - 1;
      ContentsSize(entries[..n]);
      ContentsIds(entries[..n]);
      assert entries[n].record.id !in ContentsOf(entries[..n]);
    }
  }

  lemma ContentsEqual(a: Contents, b: Contents)
    requires forall id | id in a :: id in b && b[id] == a[id]
    requires forall id | id in b :: id in a
    ensures a == b
  {
  }

  lemma RemovedAre(s: Store, path: string, gone: set<ChunkId>)
    requires gone == set id | id in s.contents && s.contents[id].record.filePath == path
    ensures s.contents - gone == Invalidated(s, path).contents
    ensures gone == {} ==> s.contents == Invalidated(s, path).contents
  {
    ContentsEqual(s.contents - gone, Invalidated(s, path).contents);
  }

  /** Two listings without repeats of the same contents are the same up to order. */
  lemma {:induction false} ListingsPermute(a: seq<Entry>, b: seq<Entry>)
    requires DistinctIds(a) && DistinctIds(b) && ContentsOf(a) == ContentsOf(b)
    ensures multiset(a) == multiset(b)
  {
    ContentsAre(a);
    ContentsAre(b);
    CountsOne(a);
    CountsOne(b);
    forall e ensures multiset(a)[e] == multiset(b)[e] {
      if e in a {
        ListedInBoth(a, b, e);
      }
      if e in b {
        ListedInBoth(b, a, e);
      }
    }
  }

  lemma ListedInBoth(a: seq<Entry>, b: seq<Entry>, e: Entry)
    requires DistinctIds(a) && DistinctIds(b) && ContentsOf(a) == ContentsOf(b) && e in a
    ensures e in b
  {
    ContentsAre(a);
    ContentsAre(b);
    var i :| 0 <= i < |a| && a[i] == e;
    var j :| 0 <= j < |b| && b[j].record.id == e.record.id;
    assert ContentsOf(b)[e.record.id] == b[j];
  }

  lemma {:induction false} CountsOne(a: seq<Entry>)
    requires DistinctIds(a)
    ensures forall e :: multiset(a)[e] == if e in a then 1 else 0
  {
    if a == [] {
    } else {
      DropFirst(a);
      CountsOne(a[1..]);
      forall e ensures multiset(a)[e] == if e in a then 1 else 0 {
        if e == a[0] {
          assert e !in a[1..];
        }
      }
    }
  }

  // --- Scoring a listing

  function Scored(root: Root, entries: seq<Entry>, query: Vector): (r: seq<Hit>)
    requires Norm(root, query) != 0.0
    ensures |r| == |entries|
    ensures forall i | 0 <= i < |r| ::
      r[i] == Hit(entries[i].record, Score(root, query, entries[i].vector, Norm(root, query)))
  {
    seq(|entries|, i requires 0 <= i < |entries| =>
      Hit(entries[i].record, Score(root, query, entries[i].vector, Norm(root, query))))
  }

  lemma ScoredPermutes(root: Root, a: seq<Entry>, b: seq<Entry>, query: Vector)
    requires Norm(root, query) != 0.0 && multiset(a) == multiset(b)
    ensures multiset(Scored(root, a, query)) == multiset(Scored(root, b, query))
  {
    var score := (v: Vector) => if Norm(root, query) == 0.0 then 0.0 else Score(root, query, v, Norm(root, query));
    MappedPermutes((e: Entry) => Hit(e.record, score(e.vector)), a, b, Scored(root, a, query), Scored(root, b, query));
  }

  // --- What is put in is found, until its path is invalidated

  /** A vector of the store's dimensions, or the first there is, can be put in; then its record is
      found under its id with that vector, and nothing else has changed. Any other is refused and
      changes nothing. */
  lemma UpsertFinds(s: Store, record: Record, vector: Vector, id: ChunkId)
    ensures var s', fits := Upserted(s, record, vector), s.dimensions == None || s.dimensions == Some(|vector|);
      (Fits(s.dimensions, |vector|) == Ok(()) <==> fits)
      && (!fits ==> Fits(s.dimensions, |vector|) == Err(DimensionMismatch(s.dimensions.value, |vector|)) && s' == s)
      && (fits ==> s'.dimensions == Some(|vector|) && LookedUp(s', record.id) == Some(record)
                   && s'.contents[record.id].vector == vector)
      && (id != record.id ==>
        LookedUp(s', id) == LookedUp(s, id) && (id in s.contents ==> s'.contents[id] == s.contents[id]))
  {
  }

  /** Invalidating a path loses just what was filed for it. */
  lemma InvalidateLoses(s: Store, path: string, id: ChunkId)
    ensures var s', found := Invalidated(s, path), LookedUp(s, id);
      s'.dimensions == s.dimensions
      && LookedUp(s', id) == (if found.Some? && found.value.filePath == path then None else found)
      && (id in s'.contents ==> id in s.contents && s'.contents[id] == s.contents[id])
  {
  }
}
