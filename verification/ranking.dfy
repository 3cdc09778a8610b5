/**
 * Top-N selection over a probability vector:
 * `np.argsort(probabilities)[::-1][:top_n]` and `probabilities.max()`.
 */
module Ranking {
  import opened Wrappers
  import opened Sequences

  /** Probabilities never increase along the index list. */
  predicate NonIncreasing(p: seq<real>, idx: seq<nat>)
    requires forall k :: 0 <= k < |idx| ==> idx[k] < |p|
  {
    forall k, l :: 0 <= k < l < |idx| ==> p[idx[k]] >= p[idx[l]]
  }

  /**
   * `idx` is a valid top-`count` selection from `p`: `count` distinct class
   * indices in non-increasing order of probability, none of the classes left
   * out more probable than any selected one. Ties may be listed in any order.
   */
  predicate IsTopSelection(p: seq<real>, count: nat, idx: seq<nat>) {
    && |idx| == count
    && (forall k :: 0 <= k < |idx| ==> idx[k] < |p|)
    && Distinct(idx)
    && NonIncreasing(p, idx)
    && (forall j, k :: 0 <= j < |p| && j !in idx && 0 <= k < |idx| ==> p[j] <= p[idx[k]])
  }

  /** Inserts class `i` into a list kept in non-increasing order of probability. */
  function InsertByProbability(p: seq<real>, sorted: seq<nat>, i: nat): (r: seq<nat>)
    requires i < |p| && i !in sorted
    requires forall k :: 0 <= k < |sorted| ==> sorted[k] < |p|
    requires Distinct(sorted) && NonIncreasing(p, sorted)
    ensures |r| == |sorted| + 1
    ensures forall j :: j in r <==> j in sorted || j == i
    ensures forall k :: 0 <= k < |r| ==> r[k] < |p|
    ensures Distinct(r) && NonIncreasing(p, r)
  {
    if |sorted| == 0 then [i]
    else if p[i] >= p[sorted[0]] then [i] + sorted
    else
      var rest := InsertByProbability(p, sorted[1..], i);
      assert forall j :: j in sorted <==> j == sorted[0] || j in sorted[1..];
      forall k | 0 <= k < |rest|
        ensures p[sorted[0]] >= p[rest[k]]
      {
        if rest[k] != i {
          assert rest[k] in sorted[1..];
        }
      }
      assert forall m :: 0 <= m < |sorted[1..]| ==> sorted[1..][m] != sorted[0];
      assert sorted[0] !in sorted[1..];
      assert sorted[0] !in rest;
      var r := [sorted[0]] + rest;
      assert forall m :: 1 <= m < |r| ==> r[m] == rest[m - 1];
      r
  }

  /**
   * The classes `0 .. k-1` in non-increasing order of probability; the
   * reversed `np.argsort` when `k == |p|`.
   */
  function ArgSortDescending(p: seq<real>, k: nat): (r: seq<nat>)
    requires k <= |p|
    ensures |r| == k
    ensures forall j :: j in r <==> 0 <= j < k
    ensures forall m :: 0 <= m < |r| ==> r[m] < |p|
    ensures Distinct(r) && NonIncreasing(p, r)
  {
    if k == 0 then []
    else InsertByProbability(p, ArgSortDescending(p, k - 1), k - 1)
  }

  /** `np.argsort(p)[::-1][:n]`, with Python's meaning of a negative `n`. */
  function TopN(p: seq<real>, n: int): (r: seq<nat>)
    ensures IsTopSelection(p, SliceLength(|p|, n), r)
  {
    var all := ArgSortDescending(p, |p|);
    var r := SliceTo(all, n);
    forall j, k | 0 <= j < |p| && j !in r && 0 <= k < |r|
      ensures p[j] <= p[r[k]]
    {
      assert j in all;
      var m :| 0 <= m < |all| && all[m] == j;
      assert m >= |r|;
    }
    r
  }

  /** `p.max()`: raises on an empty array. */
  function Max(p: seq<real>): (r: Option<real>)
    ensures r.None? <==> |p| == 0
    ensures r.Some? ==> r.value in p && forall j :: 0 <= j < |p| ==> p[j] <= r.value
  {
    if |p| == 0 then None
    else
      match Max(p[1..])
      case None => Some(p[0])
      case Some(m) =>
        assert forall j :: 1 <= j < |p| ==> p[j] == p[1..][j - 1];
        Some(if p[0] >= m then p[0] else m)
  }

  /**
   * The first selected class carries the largest probability, so
   * `max(probabilities)` equals the first ranked probability.
   */
  lemma FirstSelectedIsMax(p: seq<real>, count: nat, idx: seq<nat>)
    requires IsTopSelection(p, count, idx) && count > 0
    ensures Max(p) == Some(p[idx[0]])
  {
    forall j | 0 <= j < |p|
      ensures p[j] <= p[idx[0]]
    {
      if j in idx {
        var k :| 0 <= k < |idx| && idx[k] == j;
        if k > 0 {
          assert p[idx[0]] >= p[idx[k]];
        }
      }
    }
    assert idx[0] < |p|;
    var m := Max(p).value;
    var j :| 0 <= j < |p| && p[j] == m;
  }
}
