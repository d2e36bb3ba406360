/**
 * The three fixed-edge categorisations of unsupervised.py: `Profit_Category`
 * (left-closed, first edge included), `Price_Change_Category` and
 * `Trend_Strength` (pandas' default right-closed bins).
 */
module Categories {
  import opened Results
  import opened Floats
  import opened Binning

  // ---------------------------------------------------------------- Profit_Category

  datatype ProfitLabel = HighLoss | Loss | ModerateProfit | HighProfit {
    function Name(): string {
      match this
      case HighLoss => "High Loss"
      case Loss => "Loss"
      case ModerateProfit => "Moderate Profit"
      case HighProfit => "High Profit"
    }
  }

  const ProfitEdges: seq<Float> := [NegInf, Fin(-10.0), Fin(0.0), Fin(10.0), PosInf]
  const ProfitLabels: seq<ProfitLabel> := [HighLoss, Loss, ModerateProfit, HighProfit]

  /** `pd.cut(PercentageChange, [-inf, -10, 0, 10, inf], right=False, include_lowest=True)`. */
  function ProfitCategory(x: Float): (r: Option<ProfitLabel>)
    ensures r == Some(HighLoss) <==> x == NegInf || (x.Fin? && x.r < -10.0)
    ensures r == Some(Loss) <==> x.Fin? && -10.0 <= x.r < 0.0
    ensures r == Some(ModerateProfit) <==> x.Fin? && 0.0 <= x.r < 10.0
    ensures r == Some(HighProfit) <==> x.Fin? && 10.0 <= x.r
    ensures r.None? <==> x.NaN? || x == PosInf
  {
    assert ValidEdges(ProfitEdges);
    CutIndexAt(ProfitEdges, x, false, true, 0);
    CutIndexAt(ProfitEdges, x, false, true, 1);
    CutIndexAt(ProfitEdges, x, false, true, 2);
    CutIndexAt(ProfitEdges, x, false, true, 3);
    FiniteAlwaysBinned(ProfitEdges, x, false, true);
    match CutIndex(ProfitEdges, x, false, true)
    case None => None
    case Some(i) => Some(ProfitLabels[i])
  }

  // ---------------------------------------------------------------- Price_Change_Category

  datatype PriceChangeLabel = BigDrop | SmallDrop | SmallRise | BigRise {
    function Name(): string {
      match this
      case BigDrop => "Big Drop"
      case SmallDrop => "Small Drop"
      case SmallRise => "Small Rise"
      case BigRise => "Big Rise"
    }
  }

  const PriceChangeEdges: seq<Float> := [NegInf, Fin(-2.0), Fin(0.0), Fin(2.0), PosInf]
  const PriceChangeLabels: seq<PriceChangeLabel> := [BigDrop, SmallDrop, SmallRise, BigRise]

  /** `pd.cut(Daily_Change, [-inf, -2, 0, 2, inf])` with pandas' defaults (right-closed, first edge excluded). */
  function PriceChangeCategory(x: Float): (r: Option<PriceChangeLabel>)
    ensures r == Some(BigDrop) <==> x.Fin? && x.r <= -2.0
    ensures r == Some(SmallDrop) <==> x.Fin? && -2.0 < x.r <= 0.0
    ensures r == Some(SmallRise) <==> x.Fin? && 0.0 < x.r <= 2.0
    ensures r == Some(BigRise) <==> x == PosInf || (x.Fin? && 2.0 < x.r)
    ensures r.None? <==> x.NaN? || x == NegInf
  {
    assert ValidEdges(PriceChangeEdges);
    CutIndexAt(PriceChangeEdges, x, true, false, 0);
    CutIndexAt(PriceChangeEdges, x, true, false, 1);
    CutIndexAt(PriceChangeEdges, x, true, false, 2);
    CutIndexAt(PriceChangeEdges, x, true, false, 3);
    FiniteAlwaysBinned(PriceChangeEdges, x, true, false);
    match CutIndex(PriceChangeEdges, x, true, false)
    case None => None
    case Some(i) => Some(PriceChangeLabels[i])
  }

  // ---------------------------------------------------------------- Trend_Strength

  datatype TrendLabel = StrongLoss | ModerateLoss | SmallLoss | SmallGain | ModerateGain | StrongGain {
    function Name(): string {
      match this
      case StrongLoss => "Strong Loss"
      case ModerateLoss => "Moderate Loss"
      case SmallLoss => "Small Loss"
      case SmallGain => "Small Gain"
      case ModerateGain => "Moderate Gain"
      case StrongGain => "Strong Gain"
    }

    /** Position of the label in the ordered category list. */
    function Rank(): nat {
      match this
      case StrongLoss => 0
      case ModerateLoss => 1
      case SmallLoss => 2
      case SmallGain => 3
      case ModerateGain => 4
      case StrongGain => 5
    }
  }

  const TrendEdges: seq<Float> := [NegInf, Fin(-5.0), Fin(-2.0), Fin(0.0), Fin(2.0), Fin(5.0), PosInf]
  const TrendLabels: seq<TrendLabel> := [StrongLoss, ModerateLoss, SmallLoss, SmallGain, ModerateGain, StrongGain]

  /** `pd.cut(PercentageChange, [-inf, -5, -2, 0, 2, 5, inf])` with pandas' defaults. */
  function TrendStrength(x: Float): (r: Option<TrendLabel>)
    ensures r == Some(StrongLoss) <==> x.Fin? && x.r <= -5.0
    ensures r == Some(ModerateLoss) <==> x.Fin? && -5.0 < x.r <= -2.0
    ensures r == Some(SmallLoss) <==> x.Fin? && -2.0 < x.r <= 0.0
    ensures r == Some(SmallGain) <==> x.Fin? && 0.0 < x.r <= 2.0
    ensures r == Some(ModerateGain) <==> x.Fin? && 2.0 < x.r <= 5.0
    ensures r == Some(StrongGain) <==> x == PosInf || (x.Fin? && 5.0 < x.r)
    ensures r.None? <==> x.NaN? || x == NegInf
  {
    TrendEdgesValid();
    CutIndexAt(TrendEdges, x, true, false, 0);
    CutIndexAt(TrendEdges, x, true, false, 1);
    CutIndexAt(TrendEdges, x, true, false, 2);
    CutIndexAt(TrendEdges, x, true, false, 3);
    CutIndexAt(TrendEdges, x, true, false, 4);
    CutIndexAt(TrendEdges, x, true, false, 5);
    FiniteAlwaysBinned(TrendEdges, x, true, false);
    match CutIndex(TrendEdges, x, true, false)
    case None => None
    case Some(i) => Some(TrendLabels[i])
  }

  lemma TrendEdgesValid()
    ensures ValidEdges(TrendEdges)
  {
  }

  /** Every finite percentage change gets exactly one trend label. */
  lemma TrendTotalOnFinite(x: Float)
    requires x.Fin?
    ensures TrendStrength(x).Some?
  {
    assert ValidEdges(TrendEdges);
    FiniteAlwaysBinned(TrendEdges, x, true, false);
  }

  /** A larger percentage change never gets a weaker trend label. */
  lemma TrendMonotone(x: Float, y: Float)
    requires Le(x, y)
    requires TrendStrength(x).Some? && TrendStrength(y).Some?
    ensures TrendStrength(x).value.Rank() <= TrendStrength(y).value.Rank()
  {
    TrendEdgesValid();
    CutIndexMonotone(TrendEdges, x, y, true, false);
    var i := CutIndex(TrendEdges, x, true, false).value;
    var j := CutIndex(TrendEdges, y, true, false).value;
    assert TrendStrength(x).value.Rank() == TrendLabels[i].Rank() == i;
    assert TrendStrength(y).value.Rank() == TrendLabels[j].Rank() == j;
  }

  /** The boundary cases that distinguish the two closing rules. */
  lemma BoundaryExamples()
    ensures ProfitCategory(Fin(7.0)) == Some(ModerateProfit)
    ensures ProfitCategory(Fin(0.0)) == Some(ModerateProfit)
    ensures ProfitCategory(Fin(-10.0)) == Some(Loss)
    ensures ProfitCategory(NegInf) == Some(HighLoss) && ProfitCategory(PosInf).None?
    ensures PriceChangeCategory(Fin(3.0)) == Some(BigRise)
    ensures PriceChangeCategory(Fin(0.0)) == Some(SmallDrop)
    ensures PriceChangeCategory(Fin(2.0)) == Some(SmallRise)
    ensures PriceChangeCategory(NegInf).None? && PriceChangeCategory(PosInf) == Some(BigRise)
  {
  }
}
