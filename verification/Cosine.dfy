/** Cosine similarity over the reals. */
module Cosine {

  type Vector = seq<real>

  function Times(x: real, y: real): real { x * y }

  /** Products of paired components, summed; the longer vector's tail is ignored. */
  function Dot(a: Vector, b: Vector): real {
    if a == [] || b == [] then 0.0 else Times(a[0], b[0]) + Dot(a[1..], b[1..])
  }

  type Root = real -> real

  /** `root` gives square roots. */
  ghost predicate IsRoot(root: Root) {
    forall x: real | x >= 0.0 :: root(x) >= 0.0 && Times(root(x), root(x)) == x
  }

  function Norm(root: Root, v: Vector): real {
    root(Dot(v, v))
  }

  /** The caller has ruled out a query of norm zero. */
  function Score(root: Root, query: Vector, other: Vector, queryNorm: real): real
    requires queryNorm != 0.0
  {
    if |query| != |other| then 0.0
    else
      var otherNorm := Norm(root, other);
      if otherNorm == 0.0 then 0.0
      else
        NotZero(queryNorm, otherNorm);
        Dot(query, other) / Times(queryNorm, otherNorm)
  }

  function Distance(root: Root, a: Vector, b: Vector): real {
    var normA, normB := Norm(root, a), Norm(root, b);
    if normA == 0.0 || normB == 0.0 then 1.0
    else
      NotZero(normA, normB);
      1.0 - Dot(a, b) / Times(normA, normB)
  }

  // --- Arithmetic

  lemma Signs(x: real, y: real)
    ensures (x > 0.0 && y > 0.0) || (x < 0.0 && y < 0.0) ==> Times(x, y) > 0.0
    ensures (x > 0.0 && y < 0.0) || (x < 0.0 && y > 0.0) ==> Times(x, y) < 0.0
    ensures x == 0.0 || y == 0.0 ==> Times(x, y) == 0.0
  {
  }

  lemma NotZero(x: real, y: real)
    requires x != 0.0 && y != 0.0
    ensures Times(x, y) != 0.0
  {
    Signs(x, y);
  }

  lemma Distributes(x: real, y: real, z: real)
    ensures Times(x, y + z) == Times(x, y) + Times(x, z) && Times(x, y - z) == Times(x, y) - Times(x, z)
    ensures Times(y + z, x) == Times(y, x) + Times(z, x) && Times(y - z, x) == Times(y, x) - Times(z, x)
    ensures Times(x, 1.0) == x && Times(1.0, x) == x && Times(-1.0, x) == -x
  {
  }

  lemma Shuffle(a: real, b: real, c: real, d: real)
    ensures Times(Times(a, b), Times(c, d)) == Times(Times(a, c), Times(b, d))
    ensures Times(Times(a, b), c) == Times(a, Times(b, c)) && Times(a, b) == Times(b, a)
  {
  }

  lemma SquareDifference(u: real, v: real)
    ensures Times(v - u, v + u) == Times(v, v) - Times(u, u)
  {
  }

  lemma SelfRatio(x: real)
    requires x != 0.0
    ensures x / x == 1.0
  {
  }

  lemma SquareOrder(u: real, v: real)
    requires u >= 0.0 && Times(v, v) <= Times(u, u)
    ensures v <= u
  {
    SquareDifference(u, v);
    if v > u {
      Signs(v - u, v + u);
    }
  }

  // --- Cauchy and Schwarz

  ghost predicate IsZero(v: Vector) {
    forall i | 0 <= i < |v| :: v[i] == 0.0
  }

  lemma {:induction false} SelfDot(a: Vector)
    ensures Dot(a, a) >= 0.0
    ensures IsZero(a) <==> Dot(a, a) == 0.0
  {
    if a == [] {
    } else {
      SelfDot(a[1..]);
      Signs(a[0], a[0]);
      assert forall i | 1 <= i < |a| :: a[i] == a[1..][i - 1];
      assert IsZero(a) <==> a[0] == 0.0 && IsZero(a[1..]);
    }
  }

  lemma {:induction false} ZeroDot(a: Vector, b: Vector)
    requires IsZero(a)
    ensures Dot(a, b) == 0.0
    decreases |a|
  {
    if a != [] && b != [] {
      ZeroDot(a[1..], b[1..]);
      Signs(a[0], b[0]);
    }
  }

  lemma SquareOfDifference(x: real, y: real, u: real, v: real)
    ensures var w := Times(x, v) - Times(y, u);
      Times(w, w) == Times(Times(v, v), Times(x, x)) - 2.0 * Times(Times(u, v), Times(x, y))
        + Times(Times(u, u), Times(y, y))
  {
  }

  /** The sum of the squares of `v` times a component of `a` less `u` times that of `b`. */
  lemma {:induction false} SumOfSquares(a: Vector, b: Vector, u: real, v: real)
    ensures Times(Times(v, v), Dot(a, a)) - 2.0 * Times(Times(u, v), Dot(a, b)) + Times(Times(u, u), Dot(b, b)) >= 0.0
    decreases |a|
  {
    var p, q, r := Times(v, v), Times(u, v), Times(u, u);
    Signs(v, v);
    Signs(u, u);
    SelfDot(a);
    SelfDot(b);
    if a == [] || b == [] {
      Signs(p, Dot(a, a));
      Signs(q, Dot(a, b));
      Signs(r, Dot(b, b));
    } else {
      SumOfSquares(a[1..], b[1..], u, v);
      var w := Times(a[0], v) - Times(b[0], u);
      Signs(w, w);
      SquareOfDifference(a[0], b[0], u, v);
      Distributes(p, Times(a[0], a[0]), Dot(a[1..], a[1..]));
      Distributes(q, Times(a[0], b[0]), Dot(a[1..], b[1..]));
      Distributes(r, Times(b[0], b[0]), Dot(b[1..], b[1..]));
    }
  }

  /** The square of a product sum is at most the product of the square sums. */
  lemma CauchySchwarz(a: Vector, b: Vector)
    ensures Times(Dot(a, b), Dot(a, b)) <= Times(Dot(a, a), Dot(b, b))
  {
    var d, aa, bb := Dot(a, b), Dot(a, a), Dot(b, b);
    SelfDot(a);
    if aa == 0.0 {
      ZeroDot(a, b);
      Signs(d, d);
      Signs(aa, bb);
    } else {
      SumOfSquares(a, b, aa, d);
      Factors(aa, bb, d);
      Signs(aa, Times(aa, bb) - Times(d, d));
    }
  }

  lemma Factors(aa: real, bb: real, d: real)
    ensures Times(Times(d, d), aa) - 2.0 * Times(Times(aa, d), d) + Times(Times(aa, aa), bb)
      == Times(aa, Times(aa, bb) - Times(d, d))
  {
  }

  // --- Scores and distances

  lemma RatioBound(d: real, m: real, n: real)
    requires m > 0.0 && n > 0.0 && Times(d, d) <= Times(Times(m, m), Times(n, n))
    ensures Times(m, n) > 0.0 && -1.0 <= d / Times(m, n) <= 1.0
  {
    var u := Times(m, n);
    Signs(m, n);
    Shuffle(m, m, n, n);
    SquareOrder(u, d);
    assert Times(-d, -d) == Times(d, d);
    SquareOrder(u, -d);
    var r := d / u;
    assert Times(r, u) == d;
    Signs(r - 1.0, u);
    Signs(r + 1.0, u);
    Distributes(u, r, 1.0);
  }

  lemma NormZero(root: Root, v: Vector)
    requires IsRoot(root)
    ensures Norm(root, v) >= 0.0 && Times(Norm(root, v), Norm(root, v)) == Dot(v, v)
    ensures Norm(root, v) == 0.0 <==> IsZero(v)
  {
    SelfDot(v);
    Signs(Norm(root, v), Norm(root, v));
  }

  lemma CosineBound(root: Root, a: Vector, b: Vector)
    requires IsRoot(root) && Norm(root, a) != 0.0 && Norm(root, b) != 0.0
    ensures var u := Times(Norm(root, a), Norm(root, b)); u > 0.0 && -1.0 <= Dot(a, b) / u <= 1.0
  {
    NormZero(root, a);
    NormZero(root, b);
    CauchySchwarz(a, b);
    RatioBound(Dot(a, b), Norm(root, a), Norm(root, b));
  }

  /** Scores lie between -1 and 1, distances between 0 and 2, and between vectors of one
      length the one is 1 minus the other. */
  lemma ScoreBounds(root: Root, query: Vector, other: Vector)
    requires IsRoot(root)
    ensures 0.0 <= Distance(root, query, other) <= 2.0
    ensures !IsZero(query) ==>
      Norm(root, query) != 0.0 && -1.0 <= Score(root, query, other, Norm(root, query)) <= 1.0
      && (|query| == |other| ==> Score(root, query, other, Norm(root, query)) == 1.0 - Distance(root, query, other))
  {
    NormZero(root, query);
    if Norm(root, query) != 0.0 && Norm(root, other) != 0.0 {
      CosineBound(root, query, other);
    }
  }

  function Scaled(c: real, v: Vector): Vector {
    seq(|v|, i requires 0 <= i < |v| => Times(c, v[i]))
  }

  lemma {:induction false} DotScaled(c: real, v: Vector)
    ensures Dot(Scaled(c, v), v) == Times(c, Dot(v, v))
    ensures Dot(Scaled(c, v), Scaled(c, v)) == Times(Times(c, c), Dot(v, v))
  {
    if v == [] {
      Signs(c, 0.0);
      Signs(Times(c, c), 0.0);
    } else {
      DotScaled(c, v[1..]);
      assert Scaled(c, v)[1..] == Scaled(c, v[1..]);
      Shuffle(c, v[0], c, v[0]);
      Shuffle(c, v[0], v[0], 0.0);
      Distributes(c, Times(v[0], v[0]), Dot(v[1..], v[1..]));
      Distributes(Times(c, c), Times(v[0], v[0]), Dot(v[1..], v[1..]));
    }
  }

  /** A query that is a positive multiple of a stored vector scores 1, the most there is. */
  lemma MultipleScoresOne(root: Root, c: real, v: Vector)
    requires IsRoot(root) && c > 0.0 && !IsZero(v)
    ensures var q := Scaled(c, v); Norm(root, q) != 0.0 && Score(root, q, v, Norm(root, q)) == 1.0
  {
    var q, n := Scaled(c, v), Norm(root, v);
    DotScaled(c, v);
    NormZero(root, v);
    NormZero(root, q);
    Signs(c, n);
    Shuffle(c, n, c, n);
    SquareOrder(Norm(root, q), Times(c, n));
    SquareOrder(Times(c, n), Norm(root, q));
    Shuffle(c, n, n, 0.0);
    Signs(Times(c, n), n);
    SelfRatio(Dot(q, v));
  }

  // --- What is computed

  /** One more component adds one more product. */
  lemma {:induction false} DotGrows(a: Vector, b: Vector, x: real, y: real)
    requires |a| == |b|
    ensures Dot(a + [x], b + [y]) == Dot(a, b) + x * y
    decreases |a|
  {
    if a == [] {
      assert (a + [x])[1..] == [] && (b + [y])[1..] == [];
    } else {
      assert (a + [x])[1..] == a[1..] + [x] && (b + [y])[1..] == b[1..] + [y];
      DotGrows(a[1..], b[1..], x, y);
    }
  }

  lemma Quotient(d: real, u: real)
    requires u != 0.0
    ensures Times(d / u, u) == d
  {
  }

  /** The score is the product over both norms, and nothing for vectors of different lengths or
      without a norm; the distance is what is missing to 1. */
  lemma ScoreIs(root: Root, query: Vector, other: Vector)
    requires Norm(root, query) != 0.0
    ensures var n, m := Norm(root, query), Norm(root, other);
      (|query| == |other| && m != 0.0 ==> Times(Score(root, query, other, n), Times(n, m)) == Dot(query, other))
      && (|query| != |other| || m == 0.0 ==> Score(root, query, other, n) == 0.0)
      && (m != 0.0 ==> Times(1.0 - Distance(root, query, other), Times(n, m)) == Dot(query, other))
      && (m == 0.0 ==> Distance(root, query, other) == 1.0)
  {
    var n, m := Norm(root, query), Norm(root, other);
    if m != 0.0 {
      NotZero(n, m);
      Quotient(Dot(query, other), Times(n, m));
    }
  }
}
