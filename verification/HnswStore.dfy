/** The graph store: points are only ever added to the graph; side tables say which are live. */
module HnswStore {
  import opened Prelude
  import opened Cosine
  import opened Ranking
  import opened VectorStore
  import BruteForceStore

  /** One answer of the graph search: a point and its distance from the query. */
  datatype Neighbour = Neighbour(point: nat, distance: real)

  datatype Placed = Placed(record: Record, point: nat)

  /** The side tables, and the vectors in the graph by point. */
  datatype Tables = Tables(entries: map<ChunkId, Placed>, idToChunk: map<nat, ChunkId>, nextId: nat, graph: seq<Vector>)

  /** The side tables are inverse to each other, and every point is in the graph. */
  ghost predicate Inverse(t: Tables) {
    |t.graph| == t.nextId
    && (forall id | id in t.entries ::
      t.entries[id].point < t.nextId && t.entries[id].point in t.idToChunk && t.idToChunk[t.entries[id].point] == id)
    && (forall p | p in t.idToChunk :: t.idToChunk[p] in t.entries && t.entries[t.idToChunk[p]].point == p)
  }

  /** Each live entry with the vector of its point, its latest. */
  function Listed(t: Tables): Contents
    requires forall id | id in t.entries :: t.entries[id].point < |t.graph|
  {
    map id | id in t.entries :: Entry(t.entries[id].record, t.graph[t.entries[id].point])
  }

  function Forget(t: Tables, id: ChunkId): Tables {
    if id in t.entries then t.(entries := t.entries - {id}, idToChunk := t.idToChunk - {t.entries[id].point}) else t
  }

  function Place(t: Tables, record: Record, vector: Vector): Tables {
    Tables(t.entries[record.id := Placed(record, t.nextId)], t.idToChunk[t.nextId := record.id], t.nextId + 1,
      t.graph + [vector])
  }

  lemma ForgetInverse(t: Tables, id: ChunkId)
    requires Inverse(t)
    ensures Inverse(Forget(t, id)) && Listed(Forget(t, id)) == Listed(t) - {id}
  {
  }

  lemma PlaceInverse(t: Tables, record: Record, vector: Vector)
    requires Inverse(t) && record.id !in t.entries
    ensures Inverse(Place(t, record, vector))
      && Listed(Place(t, record, vector)) == Listed(t)[record.id := Entry(record, vector)]
  {
    var t' := Place(t, record, vector);
    assert forall id | id in t.entries :: t'.graph[t.entries[id].point] == t.graph[t.entries[id].point];
  }

  lemma UpsertTables(t: Tables, dimensions: Option<nat>, record: Record, vector: Vector)
    requires Inverse(t) && Sound(Store(dimensions, Listed(t))) && Fits(dimensions, |vector|).Ok?
    ensures var t' := Place(Forget(t, record.id), record, vector);
      Inverse(t') && Sound(Store(Some(|vector|), Listed(t')))
      && Store(Some(|vector|), Listed(t')) == Upserted(Store(dimensions, Listed(t)), record, vector)
      && t'.graph == t.graph + [vector]
  {
    PutInverse(t, record, vector);
    PerformedSound(Store(dimensions, Listed(t)), Upsert(record, vector));
  }

  lemma PutInverse(t: Tables, record: Record, vector: Vector)
    requires Inverse(t)
    ensures var t' := Place(Forget(t, record.id), record, vector);
      Inverse(t') && Listed(t') == Listed(t)[record.id := Entry(record, vector)] && t'.graph == t.graph + [vector]
  {
    ForgetInverse(t, record.id);
    PlaceInverse(Forget(t, record.id), record, vector);
    assert (Listed(t) - {record.id})[record.id := Entry(record, vector)]
      == Listed(t)[record.id := Entry(record, vector)];
  }

  /** The hits for those neighbours that are live, as the search gave them. */
  function LiveHits(t: Tables, found: seq<Neighbour>): seq<Hit> {
    if found == [] then []
    else LiveHit(t, found[0]) + LiveHits(t, found[1..])
  }

  predicate Kept(t: Tables, p: nat) {
    p in t.idToChunk && t.idToChunk[p] in t.entries
  }

  function LiveHit(t: Tables, n: Neighbour): seq<Hit> {
    if Kept(t, n.point) then [Hit(t.entries[t.idToChunk[n.point]].record, 1.0 - n.distance)] else []
  }

  function Nearest(t: Tables, found: seq<Neighbour>, k: nat): seq<Hit> {
    if t.entries.Keys == {} || k == 0 then [] else Truncate(Rank(LiveHits(t, found)), k)
  }

  class Hnsw {
    var dimensions: Option<nat>
    var entries: map<ChunkId, Placed>
    var idToChunk: map<nat, ChunkId>
    var nextId: nat
    var graph: seq<Vector>

    function Side(): Tables
      reads this
    {
      Tables(entries, idToChunk, nextId, graph)
    }

    ghost predicate Valid()
      reads this
    {
      Inverse(Side()) && Sound(State())
    }

    ghost function State(): Store
      reads this
      requires Inverse(Side())
    {
      Store(dimensions, Listed(Side()))
    }

    constructor ()
      ensures Valid() && State() == EMPTY
    {
      dimensions, entries, idToChunk, nextId, graph := None, map[], map[], 0, [];
    }

    method EnsureDimensions(actual: nat) returns (r: Result<(), StoreError>)
      modifies this`dimensions
      ensures r == Fits(old(dimensions), actual)
      ensures dimensions == if r.Ok? then Some(actual) else old(dimensions)
    {
      if dimensions == None {
        dimensions := Some(actual);
      }
      r := Fits(dimensions, actual);
    }

    method ForgetEntry(id: ChunkId)
      requires Inverse(Side())
      modifies this`entries, this`idToChunk
      ensures Side() == Forget(old(Side()), id)
    {
      if id in entries {
        var gone := entries[id];
        entries := entries - {id};
        idToChunk := idToChunk - {gone.point};
      }
    }

    method DropEntry(id: ChunkId)
      requires Inverse(Side())
      modifies this`entries, this`idToChunk
      ensures Inverse(Side()) && Listed(Side()) == old(Listed(Side())) - {id}
    {
      ForgetInverse(Side(), id);
      ForgetEntry(id);
    }

    method Upsert(record: Record, vector: Vector) returns (r: Result<(), StoreError>)
      requires Valid()
      modifies this
      ensures Valid() && State() == Upserted(old(State()), record, vector)
      ensures r == Fits(old(dimensions), |vector|)
      ensures old(graph) <= graph && |graph| == |old(graph)| + (if r.Ok? then 1 else 0)
    {
      r := EnsureDimensions(|vector|);
      if r.Err? {
        return;
      }
      ghost var before := Side();
      UpsertTables(before, old(dimensions), record, vector);
      ForgetEntry(record.id);
      PlaceEntry(record, vector);
    }

    method PlaceEntry(record: Record, vector: Vector)
      modifies this`entries, this`idToChunk, this`nextId, this`graph
      ensures Side() == Place(old(Side()), record, vector)
    {
      var point := nextId;
      nextId := nextId + 1;
      graph := graph + [vector];
      idToChunk := idToChunk[point := record.id];
      entries := entries[record.id := Placed(record, point)];
    }

    method LookupById(id: ChunkId) returns (r: Option<Record>)
      requires Valid()
      ensures r == LookedUp(State(), id)
    {
      r := if id in entries then Some(entries[id].record) else None;
    }

    /** `found` is what the graph answers for this query and this `k`. */
    method NearestTo(query: Vector, k: nat, found: seq<Neighbour>) returns (r: Result<seq<Hit>, StoreError>)
      requires Valid()
      ensures r == match Fits(dimensions, |query|) case Err(e) => Err(e) case Ok(_) => Ok(Nearest(Side(), found, k))
    {
      if dimensions.Some? && dimensions.value != |query| {
        return Err(DimensionMismatch(dimensions.value, |query|));
      }
      if entries.Keys == {} || k == 0 {
        return Ok([]);
      }
      var hits := LiveHits(Side(), found);
      hits := Rank(hits);
      hits := Truncate(hits, k);
      return Ok(hits);
    }

    method InvalidateByPath(path: string)
      requires Valid()
      modifies this
      ensures Valid() && State() == Invalidated(old(State()), path) && graph == old(graph)
    {
      var toRemove := set id | id in entries && entries[id].record.filePath == path;
      RemovedAre(State(), path, toRemove);
      PerformedSound(State(), Invalidate(path));
      RemoveAll(toRemove);
    }

    /** In whatever order they come. */
    method RemoveAll(ids: set<ChunkId>)
      requires Inverse(Side())
      modifies this`entries, this`idToChunk
      ensures Inverse(Side()) && Listed(Side()) == old(Listed(Side())) - ids
    {
      var left := ids;
      ghost var before := Listed(Side());
      while left != {}
        invariant left <= ids && Inverse(Side()) && Listed(Side()) == before - (ids - left)
        decreases |left|
      {
        var id :| id in left;
        RemoveOne(before, ids, left, id);
        left := left - {id};
        DropEntry(id);
      }
      assert ids - {} == ids;
    }
  }

  lemma RemoveOne(contents: Contents, gone: set<ChunkId>, left: set<ChunkId>, id: ChunkId)
    requires left <= gone && id in left
    ensures contents - (gone - left) - {id} == contents - (gone - (left - {id}))
  {
    assert gone - (left - {id}) == (gone - left) + {id};
  }

  // --- What a search can be trusted with

  /** The search answers with at most `k` points of the graph, none twice, at these distances. */
  ghost predicate SearchSound(graph: seq<Vector>, k: nat, distance: nat -> real, found: seq<Neighbour>) {
    |found| <= k
    && (forall i | 0 <= i < |found| :: found[i].point < |graph| && found[i].distance == distance(found[i].point))
    && (forall i, j | 0 <= i < j < |found| :: found[i].point != found[j].point)
  }

  /** And with the nearest there are. */
  ghost predicate SearchExact(graph: seq<Vector>, k: nat, distance: nat -> real, found: seq<Neighbour>) {
    SearchSound(graph, k, distance, found)
    && |found| == (if |graph| < k then |graph| else k)
    && forall p, i | 0 <= p < |graph| && p !in Points(found) && 0 <= i < |found| :: distance(p) >= found[i].distance
  }

  function Points(found: seq<Neighbour>): seq<nat> {
    if found == [] then [] else [found[0].point] + Points(found[1..])
  }

  lemma {:induction false} PointsAre(found: seq<Neighbour>)
    ensures |Points(found)| == |found| && forall i | 0 <= i < |found| :: Points(found)[i] == found[i].point
  {
    if found == [] {
    } else {
      PointsAre(found[1..]);
    }
  }

  predicate Live(t: Tables, p: nat) {
    p in t.idToChunk
  }

  function CountDead(t: Tables, found: seq<Neighbour>): nat {
    if found == [] then 0 else (if Live(t, found[0].point) then 0 else 1) + CountDead(t, found[1..])
  }

  lemma {:induction false} LiveHitsCount(t: Tables, found: seq<Neighbour>)
    requires Inverse(t)
    ensures |LiveHits(t, found)| + CountDead(t, found) == |found|
    ensures forall i | 0 <= i < |found| && Live(t, found[i].point) ::
      Hit(t.entries[t.idToChunk[found[i].point]].record, 1.0 - found[i].distance) in LiveHits(t, found)
    ensures forall h | h in LiveHits(t, found) :: exists i :: 0 <= i < |found| && IsHitOf(t, found[i], h)
  {
    if found == [] {
    } else {
      LiveHitsCount(t, found[1..]);
      assert forall i | 1 <= i < |found| :: found[i] == found[1..][i - 1];
      forall h | h in LiveHits(t, found) ensures exists i :: 0 <= i < |found| && IsHitOf(t, found[i], h) {
        if h in LiveHits(t, found[1..]) {
          var i :| 0 <= i < |found[1..]| && IsHitOf(t, found[1..][i], h);
          assert IsHitOf(t, found[i + 1], h);
        } else {
          assert IsHitOf(t, found[0], h);
        }
      }
    }
  }

  ghost predicate IsHitOf(t: Tables, n: Neighbour, h: Hit)
    requires Inverse(t)
  {
    Live(t, n.point) && h == Hit(t.entries[t.idToChunk[n.point]].record, 1.0 - n.distance)
  }

  /** The answer holds exactly the live ones among the points found: one hit fewer for every
      dead point in the search's answer. */
  lemma NearestIsLivePart(t: Tables, found: seq<Neighbour>, k: nat, distance: nat -> real)
    requires Inverse(t) && SearchSound(t.graph, k, distance, found)
    ensures |Nearest(t, found, k)| + CountDead(t, found) == |found|
    ensures Ranked(Nearest(t, found, k)) && multiset(Nearest(t, found, k)) == multiset(LiveHits(t, found))
    ensures forall i | 0 <= i < |found| && Live(t, found[i].point) ::
      exists h :: h in Nearest(t, found, k) && IsHitOf(t, found[i], h)
    ensures forall h | h in Nearest(t, found, k) :: exists i :: 0 <= i < |found| && IsHitOf(t, found[i], h)
  {
    var hits := LiveHits(t, found);
    LiveHitsCount(t, found);
    RankPermutes(hits);
    if t.entries.Keys == {} {
      NothingLive(t, found);
    } else {
      NearestRanks(t, found, k);
    }
    forall i | 0 <= i < |found| && Live(t, found[i].point)
      ensures exists h :: h in Nearest(t, found, k) && IsHitOf(t, found[i], h)
    {
      var h := Hit(t.entries[t.idToChunk[found[i].point]].record, 1.0 - found[i].distance);
      assert h in multiset(hits);
      assert h in multiset(Nearest(t, found, k));
      assert IsHitOf(t, found[i], h);
    }
    forall h | h in Nearest(t, found, k) ensures exists i :: 0 <= i < |found| && IsHitOf(t, found[i], h) {
      assert h in multiset(Nearest(t, found, k));
      assert h in hits;
    }
  }

  /** Whatever the search comes up with, the answer is the best of its live hits, ranked, and no
      more than were asked for. */
  lemma NearestAtMost(t: Tables, found: seq<Neighbour>, k: nat) returns (left: seq<Hit>)
    ensures var hits, top := LiveHits(t, found), Nearest(t, found, k);
      |top| == (if |hits| < k then |hits| else k)
      && BestHits(top, left) && multiset(top + left) == multiset(hits)
  {
    var hits := LiveHits(t, found);
    if t.entries.Keys == {} {
      NothingLive(t, found);
      left := [];
    } else {
      TopIsBest(hits, k);
      left := Rank(hits)[|Truncate(Rank(hits), k)|..];
      RankPermutes(hits);
      assert [] + left == left;
    }
  }

  lemma NearestRanks(t: Tables, found: seq<Neighbour>, k: nat)
    requires t.entries.Keys != {} && |LiveHits(t, found)| <= k
    ensures Nearest(t, found, k) == Rank(LiveHits(t, found))
  {
    RankPermutes(LiveHits(t, found));
  }

  lemma {:induction false} NothingLive(t: Tables, found: seq<Neighbour>)
    requires t.entries.Keys == {}
    ensures LiveHits(t, found) == []
  {
    if found == [] {
    } else {
      NothingLive(t, found[1..]);
    }
  }

  // --- Against the reference store

  /** The live ones of these points. */
  function KeepLive(t: Tables, points: seq<nat>): (r: seq<nat>)
    ensures forall i | 0 <= i < |r| :: Kept(t, r[i]) && r[i] in points
  {
    if points == [] then []
    else (if Kept(t, points[0]) then [points[0]] else []) + KeepLive(t, points[1..])
  }

  function HitAt(t: Tables, distance: nat -> real, p: nat): Hit
    requires Kept(t, p)
  {
    Hit(t.entries[t.idToChunk[p]].record, 1.0 - distance(p))
  }

  function HitsAt(t: Tables, distance: nat -> real, points: seq<nat>): (r: seq<Hit>)
    requires forall i | 0 <= i < |points| :: Kept(t, points[i])
    ensures |r| == |points| && forall i | 0 <= i < |r| :: r[i] == HitAt(t, distance, points[i])
  {
    seq(|points|, i requires 0 <= i < |points| => HitAt(t, distance, points[i]))
  }

  /** The hits of a sound search are those of its live points. */
  lemma {:induction false} LiveHitsAt(t: Tables, distance: nat -> real, found: seq<Neighbour>)
    requires forall i | 0 <= i < |found| :: found[i].distance == distance(found[i].point)
    ensures LiveHits(t, found) == HitsAt(t, distance, KeepLive(t, Points(found)))
  {
    if found == [] {
    } else {
      var rest := KeepLive(t, Points(found[1..]));
      LiveHitsAt(t, distance, found[1..]);
      assert Points(found)[1..] == Points(found[1..]);
      FirstHitAt(t, distance, found[0], rest);
    }
  }

  lemma FirstHitAt(t: Tables, distance: nat -> real, n: Neighbour, rest: seq<nat>)
    requires n.distance == distance(n.point) && forall i | 0 <= i < |rest| :: Kept(t, rest[i])
    ensures LiveHit(t, n) + HitsAt(t, distance, rest)
      == HitsAt(t, distance, (if Kept(t, n.point) then [n.point] else []) + rest)
  {
    if Kept(t, n.point) {
      OneHitAt(t, distance, n.point, rest);
    } else {
      assert [] + rest == rest;
    }
  }

  lemma OneHitAt(t: Tables, distance: nat -> real, p: nat, rest: seq<nat>)
    requires Kept(t, p) && forall i | 0 <= i < |rest| :: Kept(t, rest[i])
    ensures HitsAt(t, distance, [p] + rest) == [HitAt(t, distance, p)] + HitsAt(t, distance, rest)
  {
    var more := [p] + rest;
    assert forall i | 0 <= i < |rest| :: more[i + 1] == rest[i];
  }

  lemma {:induction false} KeepLiveCounts(t: Tables, points: seq<nat>)
    ensures forall p: nat :: multiset(KeepLive(t, points))[p] == if Kept(t, p) then multiset(points)[p] else 0
    ensures |KeepLive(t, points)| <= |points|
  {
    if points == [] {
    } else {
      KeepLiveCounts(t, points[1..]);
      DropFirst(points);
    }
  }

  lemma KeepLiveSplits(t: Tables, a: seq<nat>, b: seq<nat>, all: seq<nat>)
    requires multiset(a + b) == multiset(all)
    ensures multiset(KeepLive(t, a) + KeepLive(t, b)) == multiset(KeepLive(t, all))
  {
    KeepLiveCounts(t, a);
    KeepLiveCounts(t, b);
    KeepLiveCounts(t, all);
    forall p: nat ensures multiset(KeepLive(t, a) + KeepLive(t, b))[p] == multiset(KeepLive(t, all))[p] {
      assert multiset(a + b)[p] == multiset(a)[p] + multiset(b)[p];
    }
  }

  lemma HitsPermute(t: Tables, distance: nat -> real, a: seq<nat>, b: seq<nat>, all: seq<nat>)
    requires multiset(a + b) == multiset(all)
    requires (forall i | 0 <= i < |a| :: Kept(t, a[i])) && (forall i | 0 <= i < |b| :: Kept(t, b[i]))
    requires forall i | 0 <= i < |all| :: Kept(t, all[i])
    ensures multiset(HitsAt(t, distance, a) + HitsAt(t, distance, b)) == multiset(HitsAt(t, distance, all))
  {
    var hit := (p: nat) => if Kept(t, p) then HitAt(t, distance, p) else Hit(Record("", "", ""), 0.0);
    MappedPermutes(hit, a + b, all, HitsAt(t, distance, a) + HitsAt(t, distance, b), HitsAt(t, distance, all));
  }

  /** The live points, as a listing of entries. */
  function Listing(t: Tables): (r: seq<Entry>)
    requires Inverse(t)
    ensures |r| == |KeepLive(t, Upto(|t.graph|))|
    ensures forall i | 0 <= i < |r| ::
      r[i] == Entry(t.entries[t.idToChunk[KeepLive(t, Upto(|t.graph|))[i]]].record,
        t.graph[KeepLive(t, Upto(|t.graph|))[i]])
  {
    var live := KeepLive(t, Upto(|t.graph|));
    seq(|live|, i requires 0 <= i < |live| => Entry(t.entries[t.idToChunk[live[i]]].record, t.graph[live[i]]))
  }

  ghost predicate OwnIds(t: Tables) {
    forall id | id in t.entries :: t.entries[id].record.id == id
  }

  lemma {:induction false} LiveOnce(t: Tables, points: seq<nat>)
    requires forall i, j | 0 <= i < j < |points| :: points[i] != points[j]
    ensures var live := KeepLive(t, points); forall i, j | 0 <= i < j < |live| :: live[i] != live[j]
    ensures forall p | p in points && Kept(t, p) :: p in KeepLive(t, points)
  {
    if points == [] {
    } else {
      LiveOnce(t, points[1..]);
      assert forall p: nat | p in KeepLive(t, points[1..]) :: p in points[1..] && p != points[0];
    }
  }

  lemma ListedAt(t: Tables, i: nat)
    requires Inverse(t) && OwnIds(t) && i < |Listing(t)|
    ensures var id := Listing(t)[i].record.id; id in t.entries && t.entries[id].point == KeepLive(t, Upto(|t.graph|))[i]
  {
    assert Kept(t, KeepLive(t, Upto(|t.graph|))[i]);
  }

  lemma ListingIsContents(t: Tables)
    requires Inverse(t) && OwnIds(t)
    ensures DistinctIds(Listing(t)) && ContentsOf(Listing(t)) == Listed(t)
  {
    var l, live := Listing(t), KeepLive(t, Upto(|t.graph|));
    LiveOnce(t, Upto(|t.graph|));
    forall i, j | 0 <= i < j < |l| ensures l[i].record.id != l[j].record.id {
      ListedAt(t, i);
      ListedAt(t, j);
      assert live[i] != live[j];
    }
    ContentsAre(l);
    forall id | id in Listed(t) ensures id in ContentsOf(l) && ContentsOf(l)[id] == Listed(t)[id] {
      var p := t.entries[id].point;
      assert Upto(|t.graph|)[p] == p && Kept(t, p);
      var i :| 0 <= i < |live| && live[i] == p;
      assert l[i].record.id == id;
    }
    forall id | id in ContentsOf(l) ensures id in Listed(t) {
      var i :| 0 <= i < |l| && l[i].record.id == id;
      assert Kept(t, live[i]);
    }
    ContentsEqual(Listed(t), ContentsOf(l));
  }

  /** The distances of live points are cosine distances, between vectors of one length. */
  ghost predicate CosineDistances(root: Root, t: Tables, query: Vector, distance: nat -> real) {
    forall p | 0 <= p < |t.graph| && Kept(t, p) :: distance(p) == Distance(root, query, t.graph[p])
      && |t.graph[p]| == |query|
  }

  lemma ListingScores(root: Root, t: Tables, query: Vector, distance: nat -> real)
    requires IsRoot(root) && Inverse(t) && !IsZero(query) && CosineDistances(root, t, query, distance)
    ensures Norm(root, query) != 0.0
    ensures Scored(root, Listing(t), query) == HitsAt(t, distance, KeepLive(t, Upto(|t.graph|)))
  {
    NormZero(root, query);
    var live := KeepLive(t, Upto(|t.graph|));
    forall i | 0 <= i < |live| ensures Scored(root, Listing(t), query)[i] == HitsAt(t, distance, live)[i] {
      ScoreBounds(root, query, t.graph[live[i]]);
    }
  }

  /** What a search leaves out, as hits. */
  function Unfound(t: Tables, distance: nat -> real, found: seq<Neighbour>): seq<Hit> {
    HitsAt(t, distance, KeepLive(t, Without(|t.graph|, Points(found))))
  }

  /** The answer is the best so many of the live points. */
  lemma AnswerIsBest(t: Tables, found: seq<Neighbour>, k: nat, distance: nat -> real)
    requires Inverse(t) && SearchExact(t.graph, k, distance, found)
    ensures BestHits(Nearest(t, found, k), Unfound(t, distance, found))
    ensures multiset(Nearest(t, found, k) + Unfound(t, distance, found))
      == multiset(HitsAt(t, distance, KeepLive(t, Upto(|t.graph|))))
  {
    var points, all := Points(found), Upto(|t.graph|);
    var left := Without(|t.graph|, points);
    NearestIsLivePart(t, found, k, distance);
    LiveHitsAt(t, distance, found);
    PointsAre(found);
    WithoutIs(|t.graph|, points);
    SplitPoints(|t.graph|, points, left);
    KeepLiveSplits(t, points, left, all);
    HitsPermute(t, distance, KeepLive(t, points), KeepLive(t, left), KeepLive(t, all));
    LeftBelow(t, found, k, distance);
  }

  lemma LeftBelow(t: Tables, found: seq<Neighbour>, k: nat, distance: nat -> real)
    requires Inverse(t) && SearchExact(t.graph, k, distance, found)
    requires multiset(Nearest(t, found, k)) == multiset(LiveHits(t, found)) && Ranked(Nearest(t, found, k))
    ensures BestHits(Nearest(t, found, k), Unfound(t, distance, found))
  {
    var left := KeepLive(t, Without(|t.graph|, Points(found)));
    WithoutIs(|t.graph|, Points(found));
    LiveHitsCount(t, found);
    forall kept, out | kept in Nearest(t, found, k) && out in Unfound(t, distance, found)
      ensures out.score <= kept.score {
      assert kept in multiset(Nearest(t, found, k));
      assert kept in LiveHits(t, found);
      var i :| 0 <= i < |found| && IsHitOf(t, found[i], kept);
      var j :| 0 <= j < |left| && HitsAt(t, distance, left)[j] == out;
      assert left[j] in Without(|t.graph|, Points(found));
    }
  }

  lemma LiveSizes(t: Tables)
    requires Inverse(t) && OwnIds(t)
    ensures |Listing(t)| == |t.entries| <= |t.graph|
  {
    ListingIsContents(t);
    ContentsSize(Listing(t));
    assert Listed(t).Keys == t.entries.Keys;
    assert |Listed(t)| == |Listed(t).Keys| == |t.entries.Keys|;
    KeepLiveCounts(t, Upto(|t.graph|));
  }

  ghost predicate Comparable(root: Root, t: Tables, found: seq<Neighbour>, k: nat, distance: nat -> real, query: Vector,
      entries: seq<Entry>) {
    IsRoot(root) && Inverse(t) && OwnIds(t) && !IsZero(query) && SearchExact(t.graph, k, distance, found)
    && CosineDistances(root, t, query, distance) && DistinctIds(entries) && ContentsOf(entries) == Listed(t)
  }

  lemma BothAreBest(root: Root, t: Tables, found: seq<Neighbour>, k: nat, distance: nat -> real, query: Vector,
      entries: seq<Entry>)
    returns (left: seq<Hit>, left': seq<Hit>)
    requires Comparable(root, t, found, k, distance, query, entries)
    ensures var few, many := Nearest(t, found, k), BruteForceStore.Nearest(root, entries, query, k);
      BestHits(few, left) && BestHits(many, left') && multiset(few + left) == multiset(many + left')
      && |few| + CountDead(t, found) == |found| && |many| == (if |t.entries| < k then |t.entries| else k)
      && |few| <= |many|
  {
    AnswerIsBest(t, found, k, distance);
    NearestIsLivePart(t, found, k, distance);
    NormZero(root, query);
    ListingScores(root, t, query, distance);
    ListingIsContents(t);
    LiveSizes(t);
    ListingsPermute(Listing(t), entries);
    ScoredPermutes(root, Listing(t), entries, query);
    TopIsBest(Scored(root, entries, query), k);
    left, left' := Unfound(t, distance, found),
      Rank(Scored(root, entries, query))[|BruteForceStore.Nearest(root, entries, query, k)|..];
    assert |multiset(Listing(t))| == |multiset(entries)|;
    assert |multiset(Nearest(t, found, k) + left)| == |multiset(HitsAt(t, distance, KeepLive(t, Upto(|t.graph|))))|;
  }

  /** With an exact search the answer has the scores of the reference store's, cut off after as
      many as there are live points in the search's answer. */
  lemma ReferencePrefix(root: Root, t: Tables, found: seq<Neighbour>, k: nat, distance: nat -> real, query: Vector,
      entries: seq<Entry>)
    requires Comparable(root, t, found, k, distance, query, entries)
    ensures |Nearest(t, found, k)| == |found| - CountDead(t, found)
      <= |BruteForceStore.Nearest(root, entries, query, k)|
    ensures Scores(Nearest(t, found, k))
      == Scores(BruteForceStore.Nearest(root, entries, query, k))[..|Nearest(t, found, k)|]
  {
    var left, left' := BothAreBest(root, t, found, k, distance, query, entries);
    BestScoresPrefix(Nearest(t, found, k), left, BruteForceStore.Nearest(root, entries, query, k), left');
  }

  /** So the two score alike exactly if no dead point was found, or every live point was. */
  lemma SameScoresExactly(root: Root, t: Tables, found: seq<Neighbour>, k: nat, distance: nat -> real, query: Vector,
      entries: seq<Entry>)
    requires Comparable(root, t, found, k, distance, query, entries)
    ensures Scores(Nearest(t, found, k)) == Scores(BruteForceStore.Nearest(root, entries, query, k))
      <==> CountDead(t, found) == 0 || |LiveHits(t, found)| == |t.entries|
  {
    var left, left' := BothAreBest(root, t, found, k, distance, query, entries);
    ReferencePrefix(root, t, found, k, distance, query, entries);
    LiveSizes(t);
    LiveHitsCount(t, found);
    var few, many := Nearest(t, found, k), BruteForceStore.Nearest(root, entries, query, k);
    assert |few| == |many| ==> Scores(many)[..|few|] == Scores(many);
  }

  /** For a zero query, which the reference store never answers, exactly if nothing live was found. */
  lemma ZeroQueryExactly(root: Root, t: Tables, found: seq<Neighbour>, k: nat, distance: nat -> real, query: Vector,
      entries: seq<Entry>)
    requires IsRoot(root) && Inverse(t) && SearchSound(t.graph, k, distance, found) && IsZero(query)
    ensures Scores(Nearest(t, found, k)) == Scores(BruteForceStore.Nearest(root, entries, query, k))
      <==> CountDead(t, found) == |found|
  {
    NormZero(root, query);
    NearestIsLivePart(t, found, k, distance);
    assert BruteForceStore.Nearest(root, entries, query, k) == [];
  }

  /** And the hits that score above the last one answered are the reference store's own. */
  lemma SameHitsAbove(root: Root, t: Tables, found: seq<Neighbour>, k: nat, distance: nat -> real, query: Vector,
      entries: seq<Entry>, h: Hit)
    requires Comparable(root, t, found, k, distance, query, entries) && Nearest(t, found, k) != []
    requires h.score > Nearest(t, found, k)[|Nearest(t, found, k)| - 1].score
    ensures h in Nearest(t, found, k) <==> h in BruteForceStore.Nearest(root, entries, query, k)
  {
    var left, left' := BothAreBest(root, t, found, k, distance, query, entries);
    BestHitsAbove(Nearest(t, found, k), left, BruteForceStore.Nearest(root, entries, query, k), left', h);
  }
}
