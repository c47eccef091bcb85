/** The three stores side by side. */
module StoreAgreement {
  import opened Cosine
  import opened VectorStore
  import BruteForceStore
  import HnswStore
  import InstantDistanceStore

  /** Put through the same operations, the stores end up with the same contents, those the
      operations describe, and fail on the same upserts. */
  method PutThrough(root: Root, ops: seq<Operation>)
    returns (brute: BruteForceStore.BruteForce, hnsw: HnswStore.Hnsw, instant: InstantDistanceStore.InstantDistance)
    ensures fresh(brute) && fresh(hnsw) && fresh(instant)
    ensures brute.Valid() && hnsw.Valid() && instant.Valid()
    ensures brute.State() == After(EMPTY, ops) && hnsw.State() == After(EMPTY, ops)
      && instant.State() == After(EMPTY, ops)
  {
    brute := new BruteForceStore.BruteForce(root);
    hnsw := new HnswStore.Hnsw();
    instant := new InstantDistanceStore.InstantDistance();
    for i := 0 to |ops|
      invariant fresh(brute) && fresh(hnsw) && fresh(instant)
      invariant brute.Valid() && hnsw.Valid() && instant.Valid()
      invariant brute.State() == After(EMPTY, ops[..i])
      invariant hnsw.State() == After(EMPTY, ops[..i])
      invariant instant.State() == After(EMPTY, ops[..i])
    {
      assert ops[..i + 1] == ops[..i] + [ops[i]];
      AfterLast(EMPTY, ops[..i], ops[i]);
      PutOne(brute, hnsw, instant, ops[i]);
    }
    assert ops[..|ops|] == ops;
  }

  method PutOne(brute: BruteForceStore.BruteForce, hnsw: HnswStore.Hnsw, instant: InstantDistanceStore.InstantDistance,
      op: Operation)
    requires brute.Valid() && hnsw.Valid() && instant.Valid()
    requires brute.State() == hnsw.State() == instant.State()
    modifies brute, hnsw, instant
    ensures brute.Valid() && hnsw.Valid() && instant.Valid()
    ensures brute.State() == hnsw.State() == instant.State() == Performed(old(brute.State()), op)
  {
    match op
    case Upsert(record, vector) =>
      var b := brute.Upsert(record, vector);
      var h := hnsw.Upsert(record, vector);
      var n := instant.Upsert(record, vector);
      assert b == h == n;
    case Invalidate(path) =>
      brute.InvalidateByPath(path);
      hnsw.InvalidateByPath(path);
      instant.InvalidateByPath(path);
  }
}
