/**
 * Choosing the KMeans cluster count: one silhouette score per candidate k,
 * recorded in ascending k, then `max(scores, key=scores.get)`. Clustering
 * and scoring are foreign; the score of each k is a parameter.
 */
module ClusterSelection {
  import opened Results

  /** The candidate range `range(2, 6)`. */
  const KFirst: int := 2
  const KStop: int := 6

  /** The score dictionary in insertion order: one (k, score) entry per k in [lo, hi). */
  function ScoreTable(lo: int, hi: int, score: int -> real): (t: seq<(int, real)>)
    decreases hi - lo
    ensures |t| == if lo < hi then hi - lo else 0
    ensures forall i :: 0 <= i < |t| ==> t[i] == (lo + i, score(lo + i))
  {
    if lo >= hi then [] else [(lo, score(lo))] + ScoreTable(lo + 1, hi, score)
  }

  /** Entry `i` has the greatest score, and every earlier entry scores strictly less. */
  predicate IsFirstMax(t: seq<(int, real)>, i: int) {
    && 0 <= i < |t|
    && (forall j :: 0 <= j < |t| ==> t[j].1 <= t[i].1)
    && (forall j :: 0 <= j < i ==> t[j].1 < t[i].1)
  }

  /** At most one entry is the first maximum. */
  lemma FirstMaxUnique(t: seq<(int, real)>, i: int, j: int)
    requires IsFirstMax(t, i) && IsFirstMax(t, j)
    ensures i == j
  {
    var si, sj := t[i].1, t[j].1;
    assert i < j ==> si < sj;
    assert j < i ==> sj < si;
  }

  /**
   * Python's `max` with a key: scan left to right and replace the running
   * best only on a strictly greater score. An empty table raises.
   */
  method MaxByScore(t: seq<(int, real)>) returns (r: Result<int, Error>)
    ensures r.Err? <==> |t| == 0
    ensures r.Err? ==> r.error == EmptySequence
    ensures r.Ok? ==> exists i :: IsFirstMax(t, i) && t[i].0 == r.value
  {
    if |t| == 0 {
      return Err(EmptySequence);
    }
    var best := 0;
    var n := 1;
    while n < |t|
      invariant 1 <= n <= |t|
      invariant 0 <= best < n
      invariant forall j :: 0 <= j < n ==> t[j].1 <= t[best].1
      invariant forall j :: 0 <= j < best ==> t[j].1 < t[best].1
    {
      if t[n].1 > t[best].1 {
        best := n;
      }
      n := n + 1;
    }
    assert IsFirstMax(t, best);
    return Ok(t[best].0);
  }

  /**
   * The whole selection over candidates [lo, hi): the chosen k is in range,
   * scores at least as high as every candidate, and beats every smaller one.
   */
  method OptimalK(lo: int, hi: int, score: int -> real) returns (r: Result<int, Error>)
    ensures r.Ok? <==> lo < hi
    ensures r.Ok? ==> lo <= r.value < hi
    ensures r.Ok? ==> forall k :: lo <= k < hi ==> score(k) <= score(r.value)
    ensures r.Ok? ==> forall k :: lo <= k < r.value ==> score(k) < score(r.value)
  {
    var t := ScoreTable(lo, hi, score);
    r := MaxByScore(t);
    if r.Ok? {
      var i :| IsFirstMax(t, i) && t[i].0 == r.value;
      assert r.value == lo + i;
      forall k | lo <= k < hi
        ensures score(k) <= score(r.value)
      {
        assert t[k - lo].1 == score(k);
      }
      forall k | lo <= k < r.value
        ensures score(k) < score(r.value)
      {
        assert t[k - lo].1 == score(k);
      }
    }
  }

  /** The pipeline's own call: candidates 2..5 always yield a k in that range. */
  method PipelineOptimalK(score: int -> real) returns (k: int)
    ensures KFirst <= k < KStop
    ensures forall j :: KFirst <= j < KStop ==> score(j) <= score(k)
    ensures forall j :: KFirst <= j < k ==> score(j) < score(k)
  {
    var r := OptimalK(KFirst, KStop, score);
    k := r.value;
  }
}
