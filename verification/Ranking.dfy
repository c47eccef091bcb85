/** Ranking hits by score, best first. */
module Ranking {
  import opened Prelude

  type ChunkId = string

  datatype Record = Record(id: ChunkId, filePath: string, payload: string)

  datatype Hit = Hit(record: Record, score: real)

  predicate Ranked(hits: seq<Hit>) {
    forall i, j | 0 <= i < j < |hits| :: hits[i].score >= hits[j].score
  }

  function InsertHit(h: Hit, hits: seq<Hit>): seq<Hit> {
    if hits == [] || h.score >= hits[0].score then [h] + hits else [hits[0]] + InsertHit(h, hits[1..])
  }

  /** The library's stable sort. `RankIsStableSort` says that no other result would do. */
  function Rank(hits: seq<Hit>): seq<Hit> {
    if hits == [] then [] else InsertHit(hits[0], Rank(hits[1..]))
  }

  function Truncate<T>(s: seq<T>, k: nat): seq<T> {
    if |s| <= k then s else s[..k]
  }

  function WithScore(hits: seq<Hit>, score: real): seq<Hit> {
    if hits == [] then []
    else (if hits[0].score == score then [hits[0]] else []) + WithScore(hits[1..], score)
  }

  lemma {:induction false} InsertHitHolds(h: Hit, hits: seq<Hit>)
    ensures multiset(InsertHit(h, hits)) == multiset{h} + multiset(hits)
    ensures forall q | q in InsertHit(h, hits) :: q == h || q in hits
  {
    if hits != [] && h.score < hits[0].score {
      InsertHitHolds(h, hits[1..]);
      DropFirst(hits);
    }
  }

  lemma {:induction false} InsertHitRanks(h: Hit, hits: seq<Hit>)
    requires Ranked(hits)
    ensures Ranked(InsertHit(h, hits)) && multiset(InsertHit(h, hits)) == multiset{h} + multiset(hits)
  {
    InsertHitHolds(h, hits);
    if hits != [] && h.score < hits[0].score {
      InsertHitRanks(h, hits[1..]);
      InsertHitHolds(h, hits[1..]);
      forall q | q in hits[1..] ensures hits[0].score >= q.score {
        var i :| 0 <= i < |hits[1..]| && hits[1..][i] == q;
        assert hits[i + 1] == q;
      }
    }
  }

  lemma {:induction false} RankPermutes(hits: seq<Hit>)
    ensures Ranked(Rank(hits)) && multiset(Rank(hits)) == multiset(hits)
    ensures |Rank(hits)| == |hits|
  {
    if hits == [] {
    } else {
      RankPermutes(hits[1..]);
      InsertHitRanks(hits[0], Rank(hits[1..]));
      assert hits == [hits[0]] + hits[1..];
    }
    assert |multiset(Rank(hits))| == |multiset(hits)|;
  }

  lemma {:induction false} InsertHitStable(h: Hit, hits: seq<Hit>, score: real)
    requires Ranked(hits)
    ensures WithScore(InsertHit(h, hits), score) == WithScore([h] + hits, score)
  {
    assert ([h] + hits)[1..] == hits;
    if hits != [] && h.score < hits[0].score {
      InsertHitStable(h, hits[1..], score);
      assert ([h] + hits[1..])[1..] == hits[1..];
      if score == h.score {
        NoneAbove(hits, score);
      }
    }
  }

  lemma NoneAbove(hits: seq<Hit>, score: real)
    requires hits != [] && score < hits[0].score
    ensures WithScore(hits, score) == WithScore(hits[1..], score)
  {
  }

  /** Hits of one score keep their order. */
  lemma {:induction false} RankStable(hits: seq<Hit>, score: real)
    ensures WithScore(Rank(hits), score) == WithScore(hits, score)
  {
    if hits == [] {
    } else {
      RankPermutes(hits[1..]);
      RankStable(hits[1..], score);
      InsertHitStable(hits[0], Rank(hits[1..]), score);
      assert ([hits[0]] + Rank(hits[1..]))[1..] == Rank(hits[1..]);
    }
  }

  lemma {:induction false} InWithScore(hits: seq<Hit>, h: Hit)
    requires h in hits
    ensures h in WithScore(hits, h.score)
  {
    if hits[0] != h {
      InWithScore(hits[1..], h);
    }
  }

  lemma {:induction false} WithScoreIn(hits: seq<Hit>, score: real)
    ensures forall h | h in WithScore(hits, score) :: h in hits && h.score == score
  {
    if hits == [] {
    } else {
      WithScoreIn(hits[1..], score);
    }
  }

  lemma OwnScore(hits: seq<Hit>)
    requires hits != []
    ensures WithScore(hits, hits[0].score) != []
  {
  }

  /** A ranked sequence is fixed by what it holds of each score. */
  lemma {:induction false} RankedUnique(s: seq<Hit>, t: seq<Hit>)
    requires Ranked(s) && Ranked(t) && forall x :: WithScore(s, x) == WithScore(t, x)
    ensures s == t
  {
    if s == [] {
      if t != [] {
        OwnScore(t);
      }
    } else {
      InWithScore(s, s[0]);
      WithScoreIn(t, s[0].score);
      assert WithScore(t, s[0].score) != [] && t != [];
      InWithScore(t, t[0]);
      WithScoreIn(s, t[0].score);
      HeadsAgree(s, t);
      forall x ensures WithScore(s[1..], x) == WithScore(t[1..], x) {
        assert WithScore(s, x) == WithScore(t, x);
        if x == s[0].score {
          assert WithScore(s, x)[1..] == WithScore(s[1..], x) && WithScore(t, x)[1..] == WithScore(t[1..], x);
        } else {
          assert WithScore(s, x) == WithScore(s[1..], x) && WithScore(t, x) == WithScore(t[1..], x);
        }
      }
      RankedUnique(s[1..], t[1..]);
    }
  }

  lemma HeadsAgree(s: seq<Hit>, t: seq<Hit>)
    requires Ranked(s) && Ranked(t) && s != [] && t != []
    requires WithScore(s, s[0].score) == WithScore(t, s[0].score)
      && WithScore(s, t[0].score) == WithScore(t, t[0].score)
    requires s[0] in WithScore(s, s[0].score) && t[0] in WithScore(t, t[0].score)
    requires forall h | h in WithScore(t, s[0].score) :: h in t && h.score == s[0].score
    requires forall h | h in WithScore(s, t[0].score) :: h in s && h.score == t[0].score
    ensures s[0] == t[0]
  {
    assert s[0] in t && t[0] in s;
    assert s[0].score == t[0].score;
    assert WithScore(s, s[0].score)[0] == s[0];
    assert WithScore(t, t[0].score)[0] == t[0];
  }

  /** Any ranked sequence with the same hits of each score in the same order is this one. */
  lemma RankIsStableSort(hits: seq<Hit>, other: seq<Hit>)
    requires Ranked(other) && forall x :: WithScore(other, x) == WithScore(hits, x)
    ensures other == Rank(hits)
  {
    RankPermutes(hits);
    forall x ensures WithScore(other, x) == WithScore(Rank(hits), x) {
      RankStable(hits, x);
    }
    RankedUnique(other, Rank(hits));
  }

  /** The first `k` of the ranking: as many as there can be, in order, and nothing left out
      scores above anything kept. */
  lemma TopOfRanking(hits: seq<Hit>, k: nat)
    ensures var top, ranked := Truncate(Rank(hits), k), Rank(hits);
      |top| == (if |hits| < k then |hits| else k) && Ranked(top)
      && multiset(top) + multiset(ranked[|top|..]) == multiset(hits)
      && forall kept, left | kept in top && left in ranked[|top|..] :: left.score <= kept.score
  {
    RankPermutes(hits);
    RankedSplits(Rank(hits), |Truncate(Rank(hits), k)|);
  }

  lemma RankedSplits(ranked: seq<Hit>, n: nat)
    requires Ranked(ranked) && n <= |ranked|
    ensures Ranked(ranked[..n]) && multiset(ranked[..n]) + multiset(ranked[n..]) == multiset(ranked)
    ensures forall kept, left | kept in ranked[..n] && left in ranked[n..] :: left.score <= kept.score
  {
    assert ranked == ranked[..n] + ranked[n..];
    forall kept, left | kept in ranked[..n] && left in ranked[n..] ensures left.score <= kept.score {
      var i :| 0 <= i < n && ranked[i] == kept;
      var j :| n <= j < |ranked| && ranked[j] == left;
    }
  }

  // --- Scores alone

  function Scores(hits: seq<Hit>): (r: seq<real>)
    ensures |r| == |hits| && forall i | 0 <= i < |hits| :: r[i] == hits[i].score
  {
    seq(|hits|, i requires 0 <= i < |hits| => hits[i].score)
  }

  predicate Descending(s: seq<real>) {
    forall i, j | 0 <= i < j < |s| :: s[i] >= s[j]
  }

  /** `s` is in order, and nothing in `rest` exceeds anything in it. */
  ghost predicate BestBefore(s: seq<real>, rest: multiset<real>) {
    Descending(s) && forall x, y | x in rest && y in s :: x <= y
  }

  /** The best so many of a collection are determined. */
  lemma {:induction false} BestUnique(s: seq<real>, rest: multiset<real>, t: seq<real>, rest': multiset<real>)
    requires BestBefore(s, rest) && BestBefore(t, rest') && |s| == |t|
    requires multiset(s) + rest == multiset(t) + rest'
    ensures s == t
  {
    if s == [] {
    } else {
      FirstIsMost(s, rest);
      FirstIsMost(t, rest');
      assert s[0] == t[0];
      DropFirst(s);
      DropFirst(t);
      assert multiset(s) + rest == multiset{s[0]} + (multiset(s[1..]) + rest);
      assert multiset(t) + rest' == multiset{t[0]} + (multiset(t[1..]) + rest');
      Cancel(s[0], multiset(s[1..]) + rest, multiset(t[1..]) + rest');
      RestIsBest(s, rest);
      RestIsBest(t, rest');
      BestUnique(s[1..], rest, t[1..], rest');
    }
  }

  lemma Cancel<T>(x: T, a: multiset<T>, b: multiset<T>)
    requires multiset{x} + a == multiset{x} + b
    ensures a == b
  {
    forall y ensures a[y] == b[y] {
      assert (multiset{x} + a)[y] == (multiset{x} + b)[y];
    }
  }

  lemma RestIsBest(s: seq<real>, rest: multiset<real>)
    requires BestBefore(s, rest) && s != []
    ensures BestBefore(s[1..], rest)
  {
    forall x, y | x in rest && y in s[1..] ensures x <= y {
      assert y in s;
    }
  }

  lemma FirstIsMost(s: seq<real>, rest: multiset<real>)
    requires BestBefore(s, rest) && s != []
    ensures s[0] in multiset(s) + rest && forall x | x in multiset(s) + rest :: x <= s[0]
  {
    assert s[0] in s;
    forall x | x in multiset(s) + rest ensures x <= s[0] {
      if x in s {
        var i :| 0 <= i < |s| && s[i] == x;
        assert i > 0 ==> s[0] >= s[i];
      } else {
        assert x in rest;
      }
    }
  }

  lemma DropFirst<T>(s: seq<T>)
    requires s != []
    ensures s == [s[0]] + s[1..] && multiset(s) == multiset{s[0]} + multiset(s[1..])
  {
    assert s == [s[0]] + s[1..];
  }

  lemma DropAt<T>(s: seq<T>, i: nat)
    requires i < |s|
    ensures multiset(s) == multiset{s[i]} + multiset(s[..i] + s[i + 1..])
  {
    assert s == s[..i] + [s[i]] + s[i + 1..];
  }

  ghost predicate IsMapped<T, U>(f: T -> U, s: seq<T>, r: seq<U>) {
    |r| == |s| && forall i | 0 <= i < |s| :: r[i] == f(s[i])
  }

  /** Mapping a permutation permutes what is mapped to. */
  lemma {:induction false} MappedPermutes<T, U>(f: T -> U, a: seq<T>, b: seq<T>, fa: seq<U>, fb: seq<U>)
    requires multiset(a) == multiset(b) && IsMapped(f, a, fa) && IsMapped(f, b, fb)
    ensures multiset(fa) == multiset(fb)
  {
    assert |multiset(a)| == |multiset(b)|;
    if a == [] {
    } else {
      assert a[0] in multiset(a);
      assert a[0] in multiset(b);
      var i :| 0 <= i < |b| && b[i] == a[0];
      DropFirst(a);
      DropAt(b, i);
      DropFirst(fa);
      DropAt(fb, i);
      Cancel(a[0], multiset(a[1..]), multiset(b[..i] + b[i + 1..]));
      MappedPermutes(f, a[1..], b[..i] + b[i + 1..], fa[1..], fb[..i] + fb[i + 1..]);
    }
  }

  lemma ScoresOfMultiset(a: seq<Hit>, b: seq<Hit>)
    requires multiset(a) == multiset(b)
    ensures multiset(Scores(a)) == multiset(Scores(b))
  {
    MappedPermutes((h: Hit) => h.score, a, b, Scores(a), Scores(b));
  }

  lemma ScoresConcat(a: seq<Hit>, b: seq<Hit>)
    ensures multiset(Scores(a + b)) == multiset(Scores(a)) + multiset(Scores(b))
  {
    assert Scores(a + b) == Scores(a) + Scores(b);
  }

  lemma SplitIsBest(top: seq<Hit>, left: seq<Hit>)
    requires Ranked(top) && forall kept, out | kept in top && out in left :: out.score <= kept.score
    ensures BestBefore(Scores(top), multiset(Scores(left)))
  {
    ScoresBelow(top, left);
  }

  lemma ScoresBelow(top: seq<Hit>, left: seq<Hit>)
    requires forall kept, out | kept in top && out in left :: out.score <= kept.score
    ensures forall x, y | x in multiset(Scores(left)) && y in Scores(top) :: x <= y
  {
    forall x, y | x in multiset(Scores(left)) && y in Scores(top) ensures x <= y {
      assert x in Scores(left);
      var i :| 0 <= i < |left| && Scores(left)[i] == x;
      var j :| 0 <= j < |top| && Scores(top)[j] == y;
      assert left[i] in left && top[j] in top;
    }
  }

  // --- The best of a collection, hits and all

  /** `top` is ranked, and nothing left out scores above anything in it. */
  ghost predicate BestHits(top: seq<Hit>, left: seq<Hit>) {
    Ranked(top) && forall kept, out | kept in top && out in left :: out.score <= kept.score
  }

  lemma TopIsBest(hits: seq<Hit>, k: nat)
    ensures var top := Truncate(Rank(hits), k);
      BestHits(top, Rank(hits)[|top|..]) && multiset(top + Rank(hits)[|top|..]) == multiset(hits)
      && |top| == (if |hits| < k then |hits| else k)
  {
    TopOfRanking(hits, k);
  }

  /** The best few have the scores of the best many, as far as they go. */
  lemma BestScoresPrefix(few: seq<Hit>, left: seq<Hit>, many: seq<Hit>, left': seq<Hit>)
    requires BestHits(few, left) && BestHits(many, left') && multiset(few + left) == multiset(many + left')
      && |few| <= |many|
    ensures Scores(few) == Scores(many)[..|few|]
  {
    var first, others := many[..|few|], many[|few|..] + left';
    BestFirst(many, left', |few|);
    assert many + left' == first + others by {
      assert many == first + many[|few|..];
      Assoc(first, many[|few|..], left');
    }
    SameScoresOf(few, left, first, others);
    SplitIsBest(few, left);
    SplitIsBest(first, others);
    BestUnique(Scores(few), multiset(Scores(left)), Scores(first), multiset(Scores(others)));
    assert Scores(first) == Scores(many)[..|few|];
  }

  lemma SameScoresOf(a: seq<Hit>, b: seq<Hit>, c: seq<Hit>, d: seq<Hit>)
    requires multiset(a + b) == multiset(c + d)
    ensures multiset(Scores(a)) + multiset(Scores(b)) == multiset(Scores(c)) + multiset(Scores(d))
  {
    ScoresOfMultiset(a + b, c + d);
    ScoresConcat(a, b);
    ScoresConcat(c, d);
  }

  lemma BestFirst(many: seq<Hit>, left: seq<Hit>, n: nat)
    requires BestHits(many, left) && n <= |many|
    ensures BestHits(many[..n], many[n..] + left)
  {
    forall kept, out | kept in many[..n] && out in many[n..] + left ensures out.score <= kept.score {
      var i :| 0 <= i < n && many[..n][i] == kept;
      assert many[i] == kept;
      if out in left {
        assert kept in many;
      } else {
        var j :| 0 <= j < |many[n..]| && many[n..][j] == out;
        assert many[n + j] == out;
      }
    }
  }

  lemma BestTruncated(all: seq<Hit>, out: seq<Hit>, k: nat) returns (left: seq<Hit>)
    requires BestHits(all, out)
    ensures var few := Truncate(all, k); BestHits(few, left) && few + left == all + out
  {
    var n := |Truncate(all, k)|;
    BestFirst(all, out, n);
    left := all[n..] + out;
    FirstAndRest(all, n, out);
  }

  lemma FirstAndRest<T>(all: seq<T>, n: nat, more: seq<T>)
    requires n <= |all|
    ensures all[..n] + (all[n..] + more) == all + more
  {
    assert all == all[..n] + all[n..];
    Assoc(all[..n], all[n..], more);
  }

  /** And the hits that score above the last of the few are the same among the many. */
  lemma BestHitsAbove(few: seq<Hit>, left: seq<Hit>, many: seq<Hit>, left': seq<Hit>, h: Hit)
    requires BestHits(few, left) && BestHits(many, left') && multiset(few + left) == multiset(many + left')
      && |few| <= |many|
    requires few != [] && h.score > few[|few| - 1].score
    ensures h in few <==> h in many
  {
    BestScoresPrefix(few, left, many, left');
    var last := |few| - 1;
    assert few[last].score == Scores(few)[last] == Scores(many)[last] == many[last].score;
    assert few[last] in few && many[last] in many;
    if h in few {
      assert h in multiset(few + left);
      assert h in multiset(many + left');
      assert h !in left';
    }
    if h in many {
      assert h in multiset(many + left');
      assert h in multiset(few + left);
      assert h !in left;
    }
  }

  // --- Positions and what is left of them

  function Upto(n: nat): (r: seq<nat>)
    ensures |r| == n && forall i | 0 <= i < n :: r[i] == i
  {
    seq(n, i => i)
  }

  /** The positions below `n` that are not among these. */
  function Without(n: nat, points: seq<nat>): seq<nat> {
    if n == 0 then [] else Without(n - 1, points) + (if n - 1 in points then [] else [n - 1])
  }

  lemma {:induction false} WithoutIs(n: nat, points: seq<nat>)
    ensures forall p: nat :: p in Without(n, points) <==> (p < n && p !in points)
    ensures forall p: nat :: multiset(Without(n, points))[p] <= 1
  {
    if n == 0 {
    } else {
      WithoutIs(n - 1, points);
    }
  }

  lemma SplitPoints(n: nat, points: seq<nat>, left: seq<nat>)
    requires forall i | 0 <= i < |points| :: points[i] < n
    requires forall i, j | 0 <= i < j < |points| :: points[i] != points[j]
    requires forall p: nat :: p in left <==> (p < n && p !in points)
    requires forall p: nat :: multiset(left)[p] <= 1
    ensures multiset(points + left) == multiset(Upto(n))
  {
    PointOnce(points);
    PointOnce(Upto(n));
    forall p: nat ensures multiset(points + left)[p] == multiset(Upto(n))[p] {
      assert p < n ==> Upto(n)[p] == p;
      assert p in multiset(left) <==> p in left;
    }
  }

  lemma {:induction false} PointOnce(points: seq<nat>)
    requires forall i, j | 0 <= i < j < |points| :: points[i] != points[j]
    ensures forall p: nat :: multiset(points)[p] == if p in points then 1 else 0
  {
    if points == [] {
    } else {
      DropFirst(points);
      PointOnce(points[1..]);
    }
  }
}
