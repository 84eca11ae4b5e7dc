/**
 The two table operations the scoring pipeline borrows from its data-frame
 library: an inner merge of two tables on one key column, and the binning of a
 numeric column into labelled intervals.
 */
module Frames {

  /** Every key of `rows` occurs at most once. */
  ghost predicate UniqueKeys<R, K>(rows: seq<R>, key: R -> K)
  {
    forall j1, j2 :: 0 <= j1 < j2 < |rows| ==> key(rows[j1]) != key(rows[j2])
  }

  /** The number of rows of `rows` whose key is `k`. */
  function Count<R, K(==)>(rows: seq<R>, key: R -> K, k: K): nat
  {
    if rows == [] then 0
    else (if key(rows[0]) == k then 1 else 0) + Count(rows[1..], key, k)
  }

  /** The number of (left row, right row) pairs with equal keys. */
  function PairCount<L, R, K(==)>(left: seq<L>, right: seq<R>, lkey: L -> K, rkey: R -> K): nat
  {
    if left == [] then 0
    else Count(right, rkey, lkey(left[0])) + PairCount(left[1..], right, lkey, rkey)
  }

  /** How many rows of `right` have key `k` and join with `l` to give `o`. */
  function JoinCount<L, R, K(==), O(==)>(l: L, k: K, right: seq<R>, rkey: R -> K, join: (L, R) -> O, o: O): nat
  {
    if right == [] then 0
    else (if rkey(right[0]) == k && join(l, right[0]) == o then 1 else 0) + JoinCount(l, k, right[1..], rkey, join, o)
  }

  /** How many (left row, right row) pairs with equal keys join to give `o`. */
  function PairJoinCount<L, R, K(==), O(==)>(left: seq<L>, right: seq<R>, lkey: L -> K, rkey: R -> K, join: (L, R) -> O, o: O): nat
  {
    if left == [] then 0
    else JoinCount(left[0], lkey(left[0]), right, rkey, join, o) + PairJoinCount(left[1..], right, lkey, rkey, join, o)
  }

  /** The rows of `right` whose key is `k`, each joined to the left row `l`,
      in the order they have in `right`. */
  function Matches<L, R, K(==), O(==, !new)>(l: L, k: K, right: seq<R>, rkey: R -> K, join: (L, R) -> O): (out: seq<O>)
    ensures |out| == Count(right, rkey, k) <= |right|
    ensures forall o :: multiset(out)[o] == JoinCount(l, k, right, rkey, join, o)
    ensures forall o :: o in out <==>
      exists j :: 0 <= j < |right| && rkey(right[j]) == k && o == join(l, right[j])
  {
    if right == [] then []
    else
      var rest := Matches(l, k, right[1..], rkey, join);
      assert forall j :: 1 <= j < |right| ==> right[j] == right[1..][j - 1];
      (if rkey(right[0]) == k then [join(l, right[0])] else []) + rest
  }

  /** Inner merge on one key column, without sorting: for each left row in
      order, one output row per right row with an equal key, in right order.
      Left rows with no partner are dropped. */
  function InnerMerge<L, R, K(==), O(==, !new)>(left: seq<L>, right: seq<R>, lkey: L -> K, rkey: R -> K, join: (L, R) -> O): (out: seq<O>)
    ensures |out| == PairCount(left, right, lkey, rkey)
    ensures forall o :: multiset(out)[o] == PairJoinCount(left, right, lkey, rkey, join, o)
    ensures forall o :: o in out <==>
      exists i, j :: 0 <= i < |left| && 0 <= j < |right| && lkey(left[i]) == rkey(right[j]) && o == join(left[i], right[j])
  {
    if left == [] then []
    else
      var rest := InnerMerge(left[1..], right, lkey, rkey, join);
      var first := Matches(left[0], lkey(left[0]), right, rkey, join);
      assert multiset(first + rest) == multiset(first) + multiset(rest);
      forall o | o in rest
        ensures exists i, j :: 0 <= i < |left| && 0 <= j < |right| && lkey(left[i]) == rkey(right[j]) && o == join(left[i], right[j])
      {
        var i, j :| 0 <= i < |left[1..]| && 0 <= j < |right| && lkey(left[1..][i]) == rkey(right[j]) && o == join(left[1..][i], right[j]);
        assert left[i + 1] == left[1..][i];
      }
      forall o, i, j | 1 <= i < |left| && 0 <= j < |right| && lkey(left[i]) == rkey(right[j]) && o == join(left[i], right[j])
        ensures o in rest
      {
        assert left[i] == left[1..][i - 1];
      }
      first + rest
  }

  /** The merge keeps the order of the left table: merging a concatenation is
      concatenating the merges. */
  lemma {:induction false} InnerMergeAppend<L, R, K, O(!new)>(left1: seq<L>, left2: seq<L>, right: seq<R>, lkey: L -> K, rkey: R -> K, join: (L, R) -> O)
    ensures InnerMerge(left1 + left2, right, lkey, rkey, join)
         == InnerMerge(left1, right, lkey, rkey, join) + InnerMerge(left2, right, lkey, rkey, join)
  {
    if left1 == [] {
      assert left1 + left2 == left2;
    } else {
      assert (left1 + left2)[1..] == left1[1..] + left2;
      InnerMergeAppend(left1[1..], left2, right, lkey, rkey, join);
    }
  }

  /** A left row whose key occurs nowhere in `right` yields no output row. */
  lemma {:induction false} MatchesNone<L, R, K, O(!new)>(l: L, k: K, right: seq<R>, rkey: R -> K, join: (L, R) -> O)
    requires forall j :: 0 <= j < |right| ==> rkey(right[j]) != k
    ensures Matches(l, k, right, rkey, join) == []
  {
    if right != [] {
      assert forall j :: 1 <= j < |right| ==> right[j] == right[1..][j - 1];
      MatchesNone(l, k, right[1..], rkey, join);
    }
  }

  /** When no left key equals any right key the merge is empty. */
  lemma {:induction false} InnerMergeNone<L, R, K, O(!new)>(left: seq<L>, right: seq<R>, lkey: L -> K, rkey: R -> K, join: (L, R) -> O)
    requires forall i, j :: 0 <= i < |left| && 0 <= j < |right| ==> lkey(left[i]) != rkey(right[j])
    ensures InnerMerge(left, right, lkey, rkey, join) == []
  {
    if left != [] {
      MatchesNone(left[0], lkey(left[0]), right, rkey, join);
      assert forall i :: 1 <= i < |left| ==> left[i] == left[1..][i - 1];
      InnerMergeNone(left[1..], right, lkey, rkey, join);
    }
  }

  /** With unique right keys, a left row whose key occurs at `j` yields exactly
      one output row. */
  lemma {:induction false} MatchesUnique<L, R, K, O(!new)>(l: L, k: K, right: seq<R>, rkey: R -> K, join: (L, R) -> O, j: nat)
    requires UniqueKeys(right, rkey)
    requires j < |right| && rkey(right[j]) == k
    ensures Matches(l, k, right, rkey, join) == [join(l, right[j])]
  {
    assert forall j' :: 1 <= j' < |right| ==> right[j'] == right[1..][j' - 1];
    if j == 0 {
      MatchesNone(l, k, right[1..], rkey, join);
    } else {
      assert rkey(right[0]) != k;
      MatchesUnique(l, k, right[1..], rkey, join, j - 1);
    }
  }
}

/**
 Binning of a number into right-closed intervals with labels, the rule used
 for a categorical column cut from a numeric one: with finite edges
 e[0] < ... < e[n-1] and implicit outer edges -infinity and +infinity, bin i
 is (e[i-1], e[i]].
 */
module Binning {

  /** The edges strictly increase, as binning demands of them. */
  ghost predicate Ascending(edges: seq<real>)
  {
    forall i, j :: 0 <= i < j < |edges| ==> edges[i] < edges[j]
  }

  /** Left-side sorted search: the first position `i` with `x <= edges[i]`,
      or `|edges|` when there is none. */
  function SearchSorted(edges: seq<real>, x: real): (i: nat)
    ensures i <= |edges|
    ensures forall k :: 0 <= k < i ==> edges[k] < x
    ensures i < |edges| ==> x <= edges[i]
  {
    if edges == [] || x <= edges[0] then 0
    else
      var rest := SearchSorted(edges[1..], x);
      assert forall k :: 1 <= k < |edges| ==> edges[k] == edges[1..][k - 1];
      1 + rest
  }

  /** Over ascending edges the search lands in bin `i` exactly when `x` lies
      in the right-closed interval (edges[i-1], edges[i]]. */
  lemma SearchSortedBin(edges: seq<real>, x: real, i: nat)
    requires Ascending(edges)
    requires i <= |edges|
    ensures SearchSorted(edges, x) == i <==>
      (i == 0 || edges[i - 1] < x) && (i == |edges| || x <= edges[i])
  {
  }

  /** A larger value never lands in an earlier bin. */
  lemma SearchSortedMonotone(edges: seq<real>, x: real, y: real)
    requires x <= y
    ensures SearchSorted(edges, x) <= SearchSorted(edges, y)
  {
  }

  /** The label of the bin that `x` falls into; `labels` has one entry per bin. */
  function Cut<T>(x: real, edges: seq<real>, labels: seq<T>): (t: T)
    requires |labels| == |edges| + 1
    ensures forall i ::
      (&& 0 <= i < |labels| && Ascending(edges)
       && (i == 0 || edges[i - 1] < x) && (i == |edges| || x <= edges[i]))
      ==> t == labels[i]
  {
    forall i | 0 <= i < |labels| && Ascending(edges)
      && (i == 0 || edges[i - 1] < x) && (i == |edges| || x <= edges[i])
    {
      SearchSortedBin(edges, x, i);
    }
    labels[SearchSorted(edges, x)]
  }
}
