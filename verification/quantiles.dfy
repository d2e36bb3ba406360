/**
 * Equal-frequency binning (`pd.qcut(Volume, q=4, ...)`): the four quartile
 * edges are computed from the observed volumes by numpy's linear
 * interpolation, then every volume is binned right-closed with the lowest
 * edge included; coinciding edges are refused.
 */
module Quantiles {
  import opened Results
  import opened Floats
  import opened Binning

  predicate Sorted(s: seq<real>) {
    forall i, j :: 0 <= i < j < |s| ==> s[i] <= s[j]
  }

  predicate StrictlySorted(s: seq<real>) {
    forall i, j :: 0 <= i < j < |s| ==> s[i] < s[j]
  }

  // ---------------------------------------------------------------- sorting

  function Insert(x: real, s: seq<real>): (r: seq<real>)
    requires Sorted(s)
    ensures |r| == |s| + 1
    ensures r[0] == if |s| == 0 || x <= s[0] then x else s[0]
    ensures Sorted(r)
    ensures multiset(r) == multiset(s) + multiset{x}
  {
    if |s| == 0 then [x]
    else if x <= s[0] then [x] + s
    else
      var rest := Insert(x, s[1..]);
      assert s == [s[0]] + s[1..];
      assert s[0] <= rest[0];
      [s[0]] + rest
  }

  /** The ascending arrangement of `s`; the one numpy's sort produces. */
  function Sort(s: seq<real>): (r: seq<real>)
    ensures |r| == |s|
    ensures Sorted(r)
    ensures multiset(r) == multiset(s)
  {
    if |s| == 0 then []
    else
      assert s == s[..|s| - 1] + [s[|s| - 1]];
      Insert(s[|s| - 1], Sort(s[..|s| - 1]))
  }

  /** In a sorted arrangement of a sample, the first element is its least value and the last its greatest. */
  lemma SortedBounds(r: seq<real>, s: seq<real>, v: real)
    requires Sorted(r) && multiset(r) == multiset(s) && v in s
    ensures |r| > 0 && r[0] <= v <= r[|r| - 1]
  {
    assert v in multiset(s);
    assert v in multiset(r);
    var k :| 0 <= k < |r| && r[k] == v;
  }

  // ---------------------------------------------------------------- quartile edges

  /**
   * `a + (rem / 4)·(b − a)`: numpy's linear interpolation between neighbouring
   * order statistics, at the quarter-step fraction every quartile position has.
   */
  function QuarterLerp(a: real, b: real, rem: int): (r: real)
    requires 0 <= rem < 4
    ensures a <= b ==> a <= r <= b
  {
    if rem == 0 then a
    else if rem == 1 then a + (b - a) / 4.0
    else if rem == 2 then a + (b - a) / 2.0
    else a + 3.0 * (b - a) / 4.0
  }

  lemma QuarterLerpMonotone(a: real, b: real, rem: int, rem': int)
    requires a <= b && 0 <= rem <= rem' < 4
    ensures QuarterLerp(a, b, rem) <= QuarterLerp(a, b, rem')
  {
  }

  /** Four times the virtual index q·(n−1) numpy uses for quantile q = i/4, with `last` = n − 1. */
  function QuarterPosition(i: nat, last: nat): (h: nat)
    requires i <= 4
    ensures h <= 4 * last
  {
    if i == 0 then 0
    else if i == 1 then last
    else if i == 2 then 2 * last
    else if i == 3 then 3 * last
    else 4 * last
  }

  /** The i-th quartile edge (q = i/4) of the sorted sample `s` under numpy's "linear" method. */
  function QuartileEdge(s: seq<real>, i: nat): real
    requires |s| > 0 && i <= 4
  {
    var h := QuarterPosition(i, |s| - 1);
    var lo := h / 4;
    if h % 4 == 0 then s[lo]
    else QuarterLerp(s[lo], s[lo + 1], h % 4)
  }

  /** Consecutive quartile edges never decrease. */
  lemma QuartileEdgeStep(s: seq<real>, i: nat)
    requires |s| > 0 && Sorted(s) && i < 4
    ensures QuartileEdge(s, i) <= QuartileEdge(s, i + 1)
  {
    var h := QuarterPosition(i, |s| - 1);
    var h' := QuarterPosition(i + 1, |s| - 1);
    var lo, lo' := h / 4, h' / 4;
    assert h' == h + |s| - 1;
    if lo == lo' {
      if h % 4 != 0 {
        QuarterLerpMonotone(s[lo], s[lo + 1], h % 4, h' % 4);
      }
    } else {
      assert lo + 1 <= lo';
      assert QuartileEdge(s, i) <= s[lo + 1];
      assert s[lo'] <= QuartileEdge(s, i + 1);
    }
  }

  /** The 0 and 1 quantiles are the sample's least and greatest values. */
  lemma QuartileEdgeEnds(s: seq<real>)
    requires |s| > 0
    ensures QuartileEdge(s, 0) == s[0] && QuartileEdge(s, 4) == s[|s| - 1]
  {
    assert QuarterPosition(4, |s| - 1) / 4 == |s| - 1;
  }

  /** Five values that rise step by step are sorted. */
  lemma ChainSorted(e: seq<real>)
    requires |e| == 5 && e[0] <= e[1] && e[1] <= e[2] && e[2] <= e[3] && e[3] <= e[4]
    ensures Sorted(e)
  {
  }

  /** The five edges `x.quantile([0, .25, .5, .75, 1])` of a sorted non-empty sample. */
  function QuartileEdges(s: seq<real>): (e: seq<real>)
    requires |s| > 0
    ensures |e| == 5
    ensures e[0] == s[0] && e[4] == s[|s| - 1]
    ensures Sorted(s) ==> Sorted(e)
  {
    var e := [QuartileEdge(s, 0), QuartileEdge(s, 1), QuartileEdge(s, 2), QuartileEdge(s, 3), QuartileEdge(s, 4)];
    QuartileEdgeEnds(s);
    QuartileEdgesRise(s, e);
    e
  }

  /** Quartile edges of a sorted sample rise. */
  lemma QuartileEdgesRise(s: seq<real>, e: seq<real>)
    requires |s| > 0 && |e| == 5
    requires forall i :: 0 <= i < 5 ==> e[i] == QuartileEdge(s, i)
    ensures Sorted(s) ==> Sorted(e)
  {
    if Sorted(s) {
      QuartileEdgeStep(s, 0);
      QuartileEdgeStep(s, 1);
      QuartileEdgeStep(s, 2);
      QuartileEdgeStep(s, 3);
      ChainSorted(e);
    }
  }

  // ---------------------------------------------------------------- classification

  datatype VolumeLabel = VeryLow | Low | High | VeryHigh {
    function Name(): string {
      match this
      case VeryLow => "Very Low"
      case Low => "Low"
      case High => "High"
      case VeryHigh => "Very High"
    }

    function Rank(): nat {
      match this
      case VeryLow => 0
      case Low => 1
      case High => 2
      case VeryHigh => 3
    }
  }

  const VolumeLabels: seq<VolumeLabel> := [VeryLow, Low, High, VeryHigh]

  function AsFloats(edges: seq<real>): (f: seq<Float>)
    ensures |f| == |edges|
    ensures forall i :: 0 <= i < |edges| ==> f[i] == Fin(edges[i])
  {
    seq(|edges|, i requires 0 <= i < |edges| => Fin(edges[i]))
  }

  /** One volume binned against five increasing edges: right-closed bins, lowest edge included. */
  function VolumeTier(edges: seq<real>, v: Float): (r: Option<VolumeLabel>)
    requires |edges| == 5 && StrictlySorted(edges)
    ensures r == Some(VeryLow) <==> v.Fin? && edges[0] <= v.r <= edges[1]
    ensures r == Some(Low) <==> v.Fin? && edges[1] < v.r <= edges[2]
    ensures r == Some(High) <==> v.Fin? && edges[2] < v.r <= edges[3]
    ensures r == Some(VeryHigh) <==> v.Fin? && edges[3] < v.r <= edges[4]
    ensures r.Some? <==> v.Fin? && edges[0] <= v.r <= edges[4]
  {
    var f := AsFloats(edges);
    assert ValidEdges(f);
    CutIndexMeansCover(f, v, true, true);
    match CutIndex(f, v, true, true)
    case None => None
    case Some(i) => Some(VolumeLabels[i])
  }

  /** For fixed edges, a larger volume never gets a lower tier. */
  lemma VolumeTierMonotone(edges: seq<real>, v: Float, w: Float)
    requires |edges| == 5 && StrictlySorted(edges)
    requires Le(v, w) && VolumeTier(edges, v).Some? && VolumeTier(edges, w).Some?
    ensures VolumeTier(edges, v).value.Rank() <= VolumeTier(edges, w).value.Rank()
  {
  }

  // ---------------------------------------------------------------- qcut

  /** Volumes the quantile step can use: numpy's interpolation of infinite order statistics is not modelled. */
  predicate NoInfinities(values: seq<Float>) {
    forall i :: 0 <= i < |values| ==> !values[i].NegInf? && !values[i].PosInf?
  }

  /** The finite volumes in row order (NaN is skipped; infinities are excluded by `NoInfinities`). */
  function Observed(values: seq<Float>): (r: seq<real>)
    ensures forall v :: v in r <==> Fin(v) in values
    ensures forall v :: multiset(r)[v] == multiset(values)[Fin(v)]
  {
    if |values| == 0 then []
    else
      assert values == [values[0]] + values[1..];
      (if values[0].Fin? then [values[0].r] else []) + Observed(values[1..])
  }

  predicate Distinct(e: seq<real>) {
    forall i, j :: 0 <= i < j < |e| ==> e[i] != e[j]
  }

  /** The quartile edges of the observed volumes, if any volume is observed. */
  function VolumeEdges(values: seq<Float>): (e: Option<seq<real>>)
    ensures e.Some? ==> |e.value| == 5 && Sorted(e.value)
    ensures e.Some? <==> exists i :: 0 <= i < |values| && values[i].Fin?
  {
    var obs := Observed(values);
    if |obs| == 0 then
      assert forall i :: 0 <= i < |values| ==> values[i].Fin? ==> values[i].r in obs;
      None
    else
      assert Fin(obs[0]) in values;
      Some(QuartileEdges(Sort(obs)))
  }

  /** Every observed volume lies between the outermost quartile edges. */
  lemma ObservedWithinEdges(values: seq<Float>, i: nat)
    requires VolumeEdges(values).Some? && i < |values| && values[i].Fin?
    ensures VolumeEdges(values).value[0] <= values[i].r <= VolumeEdges(values).value[4]
  {
    var obs := Observed(values);
    assert values[i].r in obs;
    SortedBounds(Sort(obs), obs, values[i].r);
  }

  /** Bin every row against fixed edges that span all observed volumes. */
  function TierAll(edges: seq<real>, values: seq<Float>): (r: seq<Option<VolumeLabel>>)
    requires |edges| == 5 && StrictlySorted(edges)
    requires forall i :: 0 <= i < |values| && values[i].Fin? ==> edges[0] <= values[i].r <= edges[4]
    requires NoInfinities(values)
    ensures |r| == |values|
    ensures forall i :: 0 <= i < |values| ==> r[i] == VolumeTier(edges, values[i])
    ensures forall i :: 0 <= i < |values| ==> (r[i].None? <==> values[i].NaN?)
  {
    seq(|values|, i requires 0 <= i < |values| => VolumeTier(edges, values[i]))
  }

  /**
   * `pd.qcut(values, q=4, labels=[...])`. Fails when the edges coincide,
   * which includes a column with no observed value (all five edges NaN).
   */
  function QCut(values: seq<Float>): (r: Result<seq<Option<VolumeLabel>>, Error>)
    requires NoInfinities(values)
    ensures r.Ok? <==> VolumeEdges(values).Some? && Distinct(VolumeEdges(values).value)
    ensures r.Err? ==> r.error == NonUniqueBinEdges
    ensures r.Ok? ==> |r.value| == |values|
    ensures r.Ok? ==> forall i :: 0 <= i < |values| ==> (r.value[i].None? <==> values[i].NaN?)
  {
    match VolumeEdges(values)
    case None => Err(NonUniqueBinEdges)
    case Some(edges) =>
      if !Distinct(edges) then Err(NonUniqueBinEdges)
      else
        assert forall i :: 0 <= i < |values| && values[i].Fin? ==> edges[0] <= values[i].r <= edges[4] by {
          forall i | 0 <= i < |values| && values[i].Fin?
            ensures edges[0] <= values[i].r <= edges[4]
          {
            ObservedWithinEdges(values, i);
          }
        }
        Ok(TierAll(edges, values))
  }

  /**
   * A successful qcut labels row `i` by binning its volume against the five
   * quartile edges of the observed volumes, which then rise strictly.
   */
  lemma QCutTiers(values: seq<Float>, i: nat)
    requires NoInfinities(values) && QCut(values).Ok? && i < |values|
    ensures VolumeEdges(values).Some? && StrictlySorted(VolumeEdges(values).value)
    ensures QCut(values).value[i] == VolumeTier(VolumeEdges(values).value, values[i])
  {
  }

  /** Within one qcut, a larger volume never gets a lower tier. */
  lemma QCutMonotone(values: seq<Float>, i: nat, j: nat)
    requires NoInfinities(values) && QCut(values).Ok?
    requires i < |values| && j < |values| && Le(values[i], values[j])
    ensures QCut(values).value[i].Some? && QCut(values).value[j].Some?
    ensures QCut(values).value[i].value.Rank() <= QCut(values).value[j].value.Rank()
  {
    var edges := VolumeEdges(values).value;
    assert QCut(values).value[i] == VolumeTier(edges, values[i]);
    assert QCut(values).value[j] == VolumeTier(edges, values[j]);
    VolumeTierMonotone(edges, values[i], values[j]);
  }
}
