/**
 * Interval binning as pandas' `cut` performs it once the bin edges are known:
 * numpy `searchsorted` locates the value among the edges, `include_lowest`
 * pulls the first edge into the first bin, and values outside the outer edges
 * (and NaN) get the missing category.
 */
module Binning {
  import opened Results
  import opened Floats

  /** Bin edges strictly increase (pandas refuses anything else); no edge is NaN. */
  predicate Increasing(edges: seq<Float>) {
    forall i, j :: 0 <= i < j < |edges| ==> Lt(edges[i], edges[j])
  }

  predicate ValidEdges(edges: seq<Float>) {
    |edges| >= 2 && Increasing(edges)
  }

  /** numpy `searchsorted(edges, x, side="left")`: the insertion point before every edge equal to `x`. */
  function SearchLeft(edges: seq<Float>, x: Float): (n: nat)
    ensures n <= |edges|
    ensures forall i :: 0 <= i < n ==> Lt(edges[i], x)
    ensures n < |edges| ==> !Lt(edges[n], x)
  {
    if |edges| == 0 || !Lt(edges[0], x) then 0 else 1 + SearchLeft(edges[1..], x)
  }

  /** numpy `searchsorted(edges, x, side="right")`: the insertion point after every edge equal to `x`. */
  function SearchRight(edges: seq<Float>, x: Float): (n: nat)
    ensures n <= |edges|
    ensures forall i :: 0 <= i < n ==> Le(edges[i], x)
    ensures n < |edges| ==> !Le(edges[n], x)
  {
    if |edges| == 0 || !Le(edges[0], x) then 0 else 1 + SearchRight(edges[1..], x)
  }

  /**
   * The bin index pandas assigns to `x`: `right` selects right-closed bins
   * (a, b] over left-closed ones [a, b), `includeLowest` admits the first
   * edge itself into bin 0. `None` is the missing category.
   */
  function CutIndex(edges: seq<Float>, x: Float, right: bool, includeLowest: bool): (r: Option<nat>)
    requires ValidEdges(edges)
    ensures r.Some? ==> r.value < |edges| - 1
    ensures x.NaN? ==> r.None?
  {
    if x.NaN? then None
    else
      var ids := if right then SearchLeft(edges, x) else SearchRight(edges, x);
      var ids := if includeLowest && x == edges[0] then 1 else ids;
      if ids == 0 || ids == |edges| then None else Some(ids - 1)
  }

  /** `x` lies in bin `j`: (edges[j], edges[j+1]] when `right`, [edges[j], edges[j+1]) otherwise. */
  predicate InBin(edges: seq<Float>, x: Float, right: bool, j: nat)
    requires j + 1 < |edges|
  {
    if right then Lt(edges[j], x) && Le(x, edges[j + 1])
    else Le(edges[j], x) && Lt(x, edges[j + 1])
  }

  /** Bin `j` covers `x`, counting the lowest edge when `includeLowest` asks for it. */
  predicate Covers(edges: seq<Float>, x: Float, right: bool, includeLowest: bool, j: nat)
    requires j + 1 < |edges|
  {
    InBin(edges, x, right, j) || (includeLowest && j == 0 && x == edges[0])
  }

  lemma {:induction false} CutIndexAt(edges: seq<Float>, x: Float, right: bool, includeLowest: bool, j: nat)
    requires ValidEdges(edges) && j + 1 < |edges|
    ensures CutIndex(edges, x, right, includeLowest) == Some(j) <==> Covers(edges, x, right, includeLowest, j)
  {
    assert Lt(edges[0], edges[1]);
    if x.NaN? {
      assert !InBin(edges, x, right, j);
    } else if includeLowest && x == edges[0] {
      if j > 0 {
        assert Lt(edges[0], edges[j]);
        assert Lt(edges[0], edges[j + 1]);
      }
    } else if right {
      var n := SearchLeft(edges, x);
      if n == j + 1 {
        NotLtIsLe(edges[j + 1], x);
      } else if InBin(edges, x, right, j) {
        if n <= j {
          LtLeTrans(edges[n], edges[j], x);
          assert Le(edges[n], edges[j]);
        } else {
          assert Lt(edges[j + 1], x);
          NotLtIsLe(edges[j + 1], x);
        }
      }
    } else {
      var n := SearchRight(edges, x);
      if n == j + 1 {
        NotLtIsLe(x, edges[j + 1]);
      } else if InBin(edges, x, right, j) {
        if n <= j {
          assert Le(edges[n], edges[j]);
          LtLeTrans(edges[n], edges[j], x);
        }
      }
    }
  }

  /** The bin pandas reports is exactly the bin whose interval covers `x`. */
  lemma CutIndexMeansCover(edges: seq<Float>, x: Float, right: bool, includeLowest: bool)
    requires ValidEdges(edges)
    ensures forall j :: 0 <= j < |edges| - 1 ==>
              (CutIndex(edges, x, right, includeLowest) == Some(j) <==> Covers(edges, x, right, includeLowest, j))
    ensures CutIndex(edges, x, right, includeLowest).None? <==>
              forall j :: 0 <= j < |edges| - 1 ==> !Covers(edges, x, right, includeLowest, j)
  {
    forall j | 0 <= j < |edges| - 1
      ensures CutIndex(edges, x, right, includeLowest) == Some(j) <==> Covers(edges, x, right, includeLowest, j)
    {
      CutIndexAt(edges, x, right, includeLowest, j);
    }
  }

  /** With -inf and +inf as outer edges, every finite value gets a bin, whichever side is closed. */
  lemma FiniteAlwaysBinned(edges: seq<Float>, x: Float, right: bool, includeLowest: bool)
    requires ValidEdges(edges) && edges[0] == NegInf && edges[|edges| - 1] == PosInf
    ensures x.Fin? ==> CutIndex(edges, x, right, includeLowest).Some?
  {
    if !x.Fin? {
    } else if right {
      var n := SearchLeft(edges, x);
      assert n > 0;
      assert n < |edges|;
    } else {
      var n := SearchRight(edges, x);
      assert n > 0;
      assert n < |edges|;
    }
  }

  /** Binning is monotone: a smaller value never lands in a higher bin. */
  lemma {:induction false} CutIndexMonotone(edges: seq<Float>, x: Float, y: Float, right: bool, includeLowest: bool)
    requires ValidEdges(edges) && Le(x, y)
    requires CutIndex(edges, x, right, includeLowest).Some? && CutIndex(edges, y, right, includeLowest).Some?
    ensures CutIndex(edges, x, right, includeLowest).value <= CutIndex(edges, y, right, includeLowest).value
  {
    var i := CutIndex(edges, x, right, includeLowest).value;
    var j := CutIndex(edges, y, right, includeLowest).value;
    CutIndexAt(edges, x, right, includeLowest, i);
    CutIndexAt(edges, y, right, includeLowest, j);
  }
}
