/**
 * The exact nearest-neighbour index the retriever builds with `faiss.IndexFlatL2`
 * (backend/services/retriever.py). Embeddings are modelled as integer vectors;
 * the index ranks stored vectors by squared Euclidean distance to the query,
 * ties going to the vector added first, and pads with -1 when asked for more
 * neighbours than it holds.
 */
module FlatL2 {
  import opened Wrappers

  type Vector = seq<int>

  /** `faiss.IndexFlatL2(dim)` after `index.add(vectors)`: every row has `dim` coordinates. */
  datatype FlatIndex = FlatIndex(dim: nat, vectors: seq<Vector>) {
    predicate WellFormed() {
      forall i :: 0 <= i < |vectors| ==> |vectors[i]| == dim
    }
  }

  /** The squared Euclidean distance: never negative, and zero exactly between equal vectors. */
  function SqDist(u: Vector, v: Vector): (d: int)
    requires |u| == |v|
    ensures d >= 0
    ensures d == 0 <==> u == v
  {
    if |u| == 0 then 0
    else
      var rest := SqDist(u[1..], v[1..]);
      assert u == [u[0]] + u[1..] && v == [v[0]] + v[1..];
      assert (u[0] - v[0]) * (u[0] - v[0]) >= 0;
      assert (u[0] - v[0]) * (u[0] - v[0]) == 0 ==> u[0] == v[0];
      (u[0] - v[0]) * (u[0] - v[0]) + rest
  }

  /**
   * The squared distance of every stored vector to the query, in insertion
   * order: a stored vector is at distance 0 exactly when it equals the query.
   */
  function Distances(index: FlatIndex, query: Vector): (d: seq<int>)
    requires index.WellFormed() && |query| == index.dim
    ensures |d| == |index.vectors|
    ensures forall i :: 0 <= i < |d| ==> d[i] >= 0 && (d[i] == 0 <==> index.vectors[i] == query)
  {
    seq(|index.vectors|, i requires 0 <= i < |index.vectors| => SqDist(index.vectors[i], query))
  }

  // ---------------------------------------------------------------------------
  // Ranking of vector ids

  /** Vector `i` ranks before vector `j`: it is closer, or equally close and added earlier. */
  predicate Before(d: seq<int>, i: nat, j: nat)
    requires i < |d| && j < |d|
  {
    d[i] < d[j] || (d[i] == d[j] && i < j)
  }

  predicate Ids(d: seq<int>, s: seq<nat>) {
    forall k :: 0 <= k < |s| ==> s[k] < |d|
  }

  predicate Ranked(d: seq<int>, s: seq<nat>)
    requires Ids(d, s)
  {
    forall a, b :: 0 <= a < b < |s| ==> Before(d, s[a], s[b])
  }

  predicate Distinct(s: seq<nat>) {
    forall a, b :: 0 <= a < b < |s| ==> s[a] != s[b]
  }

  function Range(n: nat): (r: seq<nat>)
    ensures |r| == n
    ensures forall k :: 0 <= k < n ==> r[k] == k
  {
    if n == 0 then [] else Range(n - 1) + [n - 1]
  }

  /** Inserts id `x` into a ranked sequence at its place. */
  function Insert(d: seq<int>, x: nat, s: seq<nat>): (r: seq<nat>)
    requires x < |d| && Ids(d, s) && Ranked(d, s) && x !in s
    ensures Ids(d, r) && Ranked(d, r)
    ensures |r| == |s| + 1
    ensures multiset(r) == multiset(s) + multiset{x}
    decreases |s|, 0
  {
    if s == [] then [x]
    else if Before(d, x, s[0]) then [x] + s
    else
      assert multiset(s) == multiset{s[0]} + multiset(s[1..]) by { assert s == [s[0]] + s[1..]; }
      var tail := Insert(d, x, s[1..]);
      InsertAfter(d, x, s[1..], s[0]);
      [s[0]] + tail
  }

  /** An id ranked before `x` and before every id of `s` is ranked before every id of `Insert(d, x, s)`. */
  lemma {:induction false} InsertAfter(d: seq<int>, x: nat, s: seq<nat>, y: nat)
    requires x < |d| && Ids(d, s) && Ranked(d, s) && x !in s
    requires y < |d| && Before(d, y, x) && forall k :: 0 <= k < |s| ==> Before(d, y, s[k])
    ensures forall b :: 0 <= b < |Insert(d, x, s)| ==> Before(d, y, Insert(d, x, s)[b])
    decreases |s|, 1
  {
    if s != [] && !Before(d, x, s[0]) {
      InsertAfter(d, x, s[1..], y);
    }
  }

  /** Insertion sort of distinct ids by rank. */
  function Rank(d: seq<int>, s: seq<nat>): (r: seq<nat>)
    requires Ids(d, s) && Distinct(s)
    ensures Ids(d, r) && Ranked(d, r)
    ensures |r| == |s|
    ensures multiset(r) == multiset(s)
  {
    if s == [] then []
    else
      var rest := Rank(d, s[1..]);
      assert s[0] !in s[1..];
      assert multiset(s) == multiset{s[0]} + multiset(s[1..]) by { assert s == [s[0]] + s[1..]; }
      assert s[0] !in multiset(rest);
      Insert(d, s[0], rest)
  }

  /** The ids of the `k` nearest vectors (all of them when fewer), nearest first. */
  function Nearest(d: seq<int>, k: nat): (n: seq<nat>)
    ensures |n| == Min(k, |d|)
    ensures Ids(d, n) && Ranked(d, n)
  {
    Rank(d, Range(|d|))[..Min(k, |d|)]
  }

  /** The label row of `index.search(query, k)`: the nearest ids, then -1 for every missing neighbour. */
  function SearchLabels(index: FlatIndex, query: Vector, k: nat): (labels: seq<int>)
    requires index.WellFormed() && |query| == index.dim
    ensures |labels| == k
  {
    var near: seq<int> := Nearest(Distances(index, query), k);
    NearestIsTopK(Distances(index, query), k);
    near + seq(k - |near|, _ => -1)
  }

  // ---------------------------------------------------------------------------
  // The k-nearest-neighbour property

  /** Ranking every id of `d` leaves none out. */
  lemma {:induction false} RankHoldsAll(d: seq<int>)
    ensures forall j :: 0 <= j < |d| ==> j in Rank(d, Range(|d|))
  {
    var all := Range(|d|);
    var sorted := Rank(d, all);
    forall j | 0 <= j < |d| ensures j in sorted {
      assert all[j] == j;
      assert j in multiset(all);
    }
  }

  /** An id of a ranked sequence that is not among its first m ranks after each of them. */
  lemma {:induction false} LeftOutRanksAfter(d: seq<int>, sorted: seq<nat>, m: nat, j: nat)
    requires Ids(d, sorted) && Ranked(d, sorted) && m <= |sorted| && j in sorted && j !in sorted[..m]
    ensures forall a :: 0 <= a < m ==> Before(d, sorted[a], j)
  {
    var p :| 0 <= p < |sorted| && sorted[p] == j;
    assert m <= p;
  }

  /**
   * `Nearest(d, k)` holds min(k, |d|) distinct ids, in ascending (distance, id)
   * order, and every id it leaves out ranks after every id it returns.
   */
  lemma {:induction false} NearestIsTopK(d: seq<int>, k: nat)
    ensures |Nearest(d, k)| == Min(k, |d|)
    ensures Ids(d, Nearest(d, k)) && Distinct(Nearest(d, k))
    ensures forall a, b :: 0 <= a < b < |Nearest(d, k)| ==> Before(d, Nearest(d, k)[a], Nearest(d, k)[b])
    ensures forall j :: 0 <= j < |d| && j !in Nearest(d, k) ==>
              forall a :: 0 <= a < |Nearest(d, k)| ==> Before(d, Nearest(d, k)[a], j)
  {
    var sorted := Rank(d, Range(|d|));
    var m := Min(k, |d|);
    var near := sorted[..m];
    assert near == Nearest(d, k);
    RankHoldsAll(d);
    forall j | 0 <= j < |d| && j !in near
      ensures forall a :: 0 <= a < |near| ==> Before(d, near[a], j)
    {
      LeftOutRanksAfter(d, sorted, m, j);
    }
  }

  /** In particular the returned vectors are at the smallest squared distances, in ascending order. */
  lemma {:induction false} NearestByDistance(index: FlatIndex, query: Vector, k: nat)
    requires index.WellFormed() && |query| == index.dim
    ensures var near := Nearest(Distances(index, query), k);
      && |near| == Min(k, |index.vectors|)
      && (forall a :: 0 <= a < |near| ==> near[a] < |index.vectors|)
      && (forall a, b :: 0 <= a < b < |near| ==>
            SqDist(index.vectors[near[a]], query) <= SqDist(index.vectors[near[b]], query))
      && (forall a, j :: 0 <= a < |near| && 0 <= j < |index.vectors| && j !in near ==>
            SqDist(index.vectors[near[a]], query) <= SqDist(index.vectors[j], query))
  {
    NearestIsTopK(Distances(index, query), k);
  }

  /**
   * `TopAgree`'s step: once the first a positions agree, the id at position a
   * of `t` is the one of `n` or ranks before it.
   */
  lemma {:induction false} TopStep(d: seq<int>, n: seq<nat>, t: seq<nat>, a: nat)
    requires Ids(d, n) && Ranked(d, n) && Ids(d, t) && Ranked(d, t) && |n| == |t| && a < |t|
    requires forall j :: 0 <= j < |d| && j !in t ==> forall b :: 0 <= b < |t| ==> Before(d, t[b], j)
    requires forall c :: 0 <= c < a ==> n[c] == t[c]
    ensures n[a] == t[a] || Before(d, t[a], n[a])
  {
    if n[a] in t {
      var c :| 0 <= c < |t| && t[c] == n[a];
      assert a <= c;
    }
  }

  /** Two ranked id sequences of the same length that both hold the top of the ranking agree position by position. */
  lemma {:induction false} TopAgree(d: seq<int>, n: seq<nat>, t: seq<nat>, a: nat)
    requires Ids(d, n) && Ranked(d, n) && Ids(d, t) && Ranked(d, t) && |n| == |t| && a < |t|
    requires forall j :: 0 <= j < |d| && j !in n ==> forall b :: 0 <= b < |n| ==> Before(d, n[b], j)
    requires forall j :: 0 <= j < |d| && j !in t ==> forall b :: 0 <= b < |t| ==> Before(d, t[b], j)
    ensures n[a] == t[a]
  {
    forall c | 0 <= c < a ensures n[c] == t[c] {
      TopAgree(d, n, t, c);
    }
    TopStep(d, n, t, a);
    TopStep(d, t, n, a);
  }

  /**
   * The top-k answer is unique: any ranked sequence of min(k, |d|) ids that
   * every other id ranks after is `Nearest(d, k)`.
   */
  lemma {:induction false} NearestUnique(d: seq<int>, k: nat, t: seq<nat>)
    requires Ids(d, t) && Ranked(d, t) && |t| == Min(k, |d|)
    requires forall j :: 0 <= j < |d| && j !in t ==> forall b :: 0 <= b < |t| ==> Before(d, t[b], j)
    ensures Nearest(d, k) == t
  {
    var n := Nearest(d, k);
    NearestIsTopK(d, k);
    forall a | 0 <= a < |t| ensures n[a] == t[a] {
      TopAgree(d, n, t, a);
    }
  }

  /** Five 2-D vectors and the query (0, 0): the three nearest are ids 3, 0 and 4, in that order. */
  lemma ThreeNearestOfFive()
    ensures Nearest(Distances(FlatIndex(2, [[1, 1], [5, 5], [-3, 4], [0, 1], [2, -2]]), [0, 0]), 3) == [3, 0, 4]
  {
    FiveDistances();
    var d := [2, 50, 25, 1, 8];
    var t: seq<nat> := [3, 0, 4];
    forall j | 0 <= j < |d| && j !in t ensures forall b :: 0 <= b < |t| ==> Before(d, t[b], j) {
      assert j == 1 || j == 2;
    }
    NearestUnique(d, 3, t);
  }

  lemma FiveDistances()
    ensures Distances(FlatIndex(2, [[1, 1], [5, 5], [-3, 4], [0, 1], [2, -2]]), [0, 0]) == [2, 50, 25, 1, 8]
  {
    assert SqDist([1, 1], [0, 0]) == 2;
    assert SqDist([5, 5], [0, 0]) == 50;
    assert SqDist([-3, 4], [0, 0]) == 25;
    assert SqDist([0, 1], [0, 0]) == 1;
    assert SqDist([2, -2], [0, 0]) == 8;
  }
}
