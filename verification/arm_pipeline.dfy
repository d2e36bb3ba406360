/**
 * Preparing the categorical table for association-rule mining: the table is
 * read afresh, four categorical columns are derived from it, every raw column
 * is dropped and the header is blanked.
 */
module ArmPipeline {
  import opened Results
  import opened Floats
  import opened Frames
  import opened Categories
  import opened Quantiles
  import opened Sectors

  /** The columns dropped before writing the table: the nine raw columns of the input file. */
  const DroppedNames: seq<string> :=
    ["Date", "Open", "High", "Low", "Close", "Ticker", "Volume", "Daily_Change", "PercentageChange"]

  /** The derived columns, in the order they are added. */
  const DerivedNames: seq<string> := ["Price_Change_Category", "Trade_Volume", "Trend_Strength", "Sector"]

  // ---------------------------------------------------------------- cells

  /** The number a cell holds; a non-numeric cell never reaches a classifier (the stage fails first). */
  function ValueOf(c: Cell): Float {
    if c.Num? then c.x else NaN
  }

  function Values(cells: seq<Cell>): (r: seq<Float>)
    ensures |r| == |cells|
    ensures forall i :: 0 <= i < |cells| ==> r[i] == ValueOf(cells[i])
  {
    seq(|cells|, i requires 0 <= i < |cells| => ValueOf(cells[i]))
  }

  predicate AllNumeric(cells: seq<Cell>) {
    forall i :: 0 <= i < |cells| ==> cells[i].Num?
  }

  function ProfitCell(x: Float): Cell {
    match ProfitCategory(x)
    case None => Cat(None)
    case Some(l) => Cat(Some(l.Name()))
  }

  function PriceChangeCell(x: Float): Cell {
    match PriceChangeCategory(x)
    case None => Cat(None)
    case Some(l) => Cat(Some(l.Name()))
  }

  function TrendCell(x: Float): Cell {
    match TrendStrength(x)
    case None => Cat(None)
    case Some(l) => Cat(Some(l.Name()))
  }

  function TierCell(t: Option<VolumeLabel>): Cell {
    match t
    case None => Cat(None)
    case Some(l) => Cat(Some(l.Name()))
  }

  /** The sector lambda applied to one ticker cell: anything but a string (a missing ticker) is in no list. */
  function SectorCell(c: Cell): (r: Cell)
    ensures r == Str(Tech.Name()) <==> c.Str? && c.s in TechStocks
    ensures r == Str(Consumer.Name()) <==> c.Str? && c.s in ConsumerStocks
    ensures r == Str(Industrial.Name()) <==> !(c.Str? && c.s in TechStocks + ConsumerStocks)
  {
    if c.Str? then Str(SectorOf(c.s).Name()) else Str(Industrial.Name())
  }

  /** Apply `classify` to the number in every cell. */
  function Derive(cells: seq<Cell>, classify: Float -> Cell): (r: seq<Cell>)
    ensures |r| == |cells|
    ensures forall i :: 0 <= i < |cells| ==> r[i] == classify(ValueOf(cells[i]))
  {
    seq(|cells|, i requires 0 <= i < |cells| => classify(ValueOf(cells[i])))
  }

  // ---------------------------------------------------------------- column lookup

  /** The cells of the first column called `name`. */
  function ColumnCells(f: Frame, name: string): (r: seq<Cell>)
    requires name in Names(f.columns)
    ensures GetColumn(f, name) == Ok(r)
    ensures WellFormed(f) ==> |r| == f.rows
  {
    GetColumn(f, name).value
  }

  /** Assigning one column leaves the presence and the contents of every other column as they were. */
  lemma SetKeepsOther(f: Frame, name: string, cells: seq<Cell>, other: string)
    requires |cells| == f.rows && other != name
    ensures other in Names(SetColumn(f, name, cells).columns) <==> other in Names(f.columns)
    ensures other in Names(f.columns) ==> ColumnCells(SetColumn(f, name, cells), other) == ColumnCells(f, other)
  {
    SetThenGet(f, name, cells, other);
  }

  /** Only the Volume column must be free of infinities (see QCut). */
  predicate VolumeFinite(f: Frame) {
    "Volume" in Names(f.columns) ==> NoInfinities(Values(ColumnCells(f, "Volume")))
  }

  // ---------------------------------------------------------------- stages

  /** `df[target] = pd.cut(df[source], ...)`, `classify` being the per-value rule of that cut. */
  function CutStage(f: Frame, source: string, target: string, classify: Float -> Cell): (r: Result<Frame, Error>)
    requires WellFormed(f)
    ensures r.Ok? <==> source in Names(f.columns) && AllNumeric(ColumnCells(f, source))
    ensures r.Err? ==> r.error == if source in Names(f.columns) then NotNumeric(source) else MissingColumn(source)
    ensures r.Ok? ==> r.value == SetColumn(f, target, Derive(ColumnCells(f, source), classify))
    ensures r.Ok? ==> WellFormed(r.value)
  {
    var cells :- GetColumn(f, source);
    if !AllNumeric(cells) then Err(NotNumeric(source))
    else Ok(SetColumn(f, target, Derive(cells, classify)))
  }

  /** `df['Trade_Volume'] = pd.qcut(df['Volume'], q=4, labels=[...])`. */
  function VolumeStage(f: Frame): (r: Result<Frame, Error>)
    requires WellFormed(f) && VolumeFinite(f)
    ensures r.Ok? <==> "Volume" in Names(f.columns) && AllNumeric(ColumnCells(f, "Volume"))
                       && QCut(Values(ColumnCells(f, "Volume"))).Ok?
    ensures r.Ok? ==> r.value == SetColumn(f, "Trade_Volume", TierCells(QCut(Values(ColumnCells(f, "Volume"))).value))
    ensures r.Ok? ==> WellFormed(r.value)
  {
    var cells :- GetColumn(f, "Volume");
    if !AllNumeric(cells) then Err(NotNumeric("Volume"))
    else
      var tiers :- QCut(Values(cells));
      Ok(SetColumn(f, "Trade_Volume", TierCells(tiers)))
  }

  function TierCells(tiers: seq<Option<VolumeLabel>>): (r: seq<Cell>)
    ensures |r| == |tiers|
    ensures forall i :: 0 <= i < |tiers| ==> r[i] == TierCell(tiers[i])
  {
    seq(|tiers|, i requires 0 <= i < |tiers| => TierCell(tiers[i]))
  }

  /** `df['Sector'] = df['Ticker'].apply(...)`. */
  function SectorStage(f: Frame): (r: Result<Frame, Error>)
    requires WellFormed(f)
    ensures r.Ok? <==> "Ticker" in Names(f.columns)
    ensures r.Ok? ==> r.value == SetColumn(f, "Sector", SectorCells(ColumnCells(f, "Ticker")))
    ensures r.Ok? ==> WellFormed(r.value)
  {
    var cells :- GetColumn(f, "Ticker");
    Ok(SetColumn(f, "Sector", SectorCells(cells)))
  }

  function SectorCells(cells: seq<Cell>): (r: seq<Cell>)
    ensures |r| == |cells|
    ensures forall i :: 0 <= i < |cells| ==> r[i] == SectorCell(cells[i])
  {
    seq(|cells|, i requires 0 <= i < |cells| => SectorCell(cells[i]))
  }

  /** `Profit_Category`, computed on the first read; `select_dtypes` at line 39 excludes it and nothing reads it afterwards. */
  function ProfitStage(raw: Frame): (r: Result<Frame, Error>)
    requires WellFormed(raw)
    ensures r.Ok? <==> "PercentageChange" in Names(raw.columns) && AllNumeric(ColumnCells(raw, "PercentageChange"))
    ensures r.Ok? ==> r.value == SetColumn(raw, "Profit_Category", Derive(ColumnCells(raw, "PercentageChange"), ProfitCell))
    ensures r.Ok? ==> WellFormed(r.value)
  {
    CutStage(raw, "PercentageChange", "Profit_Category", ProfitCell)
  }

  /** The four derivation stages, in the order the source applies them. */
  function AddDerived(raw: Frame): (r: Result<Frame, Error>)
    requires WellFormed(raw) && VolumeFinite(raw)
    ensures r.Ok? ==> WellFormed(r.value) && r.value.rows == raw.rows
  {
    var f1 :- CutStage(raw, "Daily_Change", "Price_Change_Category", PriceChangeCell);
    SetKeepsOther(raw, "Price_Change_Category", Derive(ColumnCells(raw, "Daily_Change"), PriceChangeCell), "Volume");
    var f2 :- VolumeStage(f1);
    var f3 :- CutStage(f2, "PercentageChange", "Trend_Strength", TrendCell);
    SectorStage(f3)
  }

  /** The table written for rule mining, computed from a fresh read of the input file. */
  function PrepareArm(raw: Frame): (r: Result<Frame, Error>)
    requires WellFormed(raw) && VolumeFinite(raw)
    ensures r.Ok? ==> WellFormed(r.value) && r.value.rows == raw.rows
    ensures r.Ok? ==> forall i :: 0 <= i < |r.value.columns| ==> r.value.columns[i].name == ""
  {
    var f4 :- AddDerived(raw);
    var f5 :- Drop(f4, DroppedNames);
    Ok(BlankHeaders(f5))
  }

  // ---------------------------------------------------------------- properties

  /** Every column of the file is one of the raw columns the final drop removes. */
  predicate RawColumnsOnly(raw: Frame) {
    forall i :: 0 <= i < |raw.columns| ==> raw.columns[i].name in DroppedNames
  }

  /** The derived names are distinct from each other and from every raw name. */
  lemma DerivedNamesFresh()
    ensures forall n :: n in DerivedNames ==> n !in DroppedNames
    ensures forall i, j :: 0 <= i < j < |DerivedNames| ==> DerivedNames[i] != DerivedNames[j]
  {
  }

  /** A column named outside the dropped list is absent from a table holding only raw columns. */
  lemma NotRaw(raw: Frame, name: string)
    requires RawColumnsOnly(raw) && name !in DroppedNames
    ensures name !in Names(raw.columns)
  {
  }

  /** Every raw column the final drop names is present. */
  predicate HasRawColumns(raw: Frame) {
    forall n :: n in DroppedNames ==> n in Names(raw.columns)
  }

  /** A file of raw columns carries none of the derived names. */
  lemma DerivedAbsent(raw: Frame)
    requires RawColumnsOnly(raw)
    ensures forall i :: 0 <= i < |DerivedNames| ==> DerivedNames[i] !in Names(raw.columns)
  {
    DerivedNamesFresh();
    forall i | 0 <= i < |DerivedNames|
      ensures DerivedNames[i] !in Names(raw.columns)
    {
      NotRaw(raw, DerivedNames[i]);
    }
  }

  /** What the four stages need of the file: each source column present, and numeric where a cut reads it. */
  predicate StagesApply(raw: Frame)
    requires VolumeFinite(raw)
  {
    && "Daily_Change" in Names(raw.columns) && AllNumeric(ColumnCells(raw, "Daily_Change"))
    && "Volume" in Names(raw.columns) && AllNumeric(ColumnCells(raw, "Volume"))
    && QCut(Values(ColumnCells(raw, "Volume"))).Ok?
    && "PercentageChange" in Names(raw.columns) && AllNumeric(ColumnCells(raw, "PercentageChange"))
    && "Ticker" in Names(raw.columns)
  }

  /** The input file holds every raw column, the three numeric ones hold only numbers, and its volumes have distinct quartile edges. */
  predicate Preparable(raw: Frame)
    requires VolumeFinite(raw)
  {
    HasRawColumns(raw) && StagesApply(raw)
  }

  // The four derived columns, as they stand before the header is blanked.

  function PriceChangeColumn(raw: Frame): (r: Column)
    requires WellFormed(raw)
    requires "Daily_Change" in Names(raw.columns)
    ensures r.name == "Price_Change_Category"
    ensures |r.cells| == raw.rows
  {
    Column("Price_Change_Category", Derive(ColumnCells(raw, "Daily_Change"), PriceChangeCell))
  }

  function TradeVolumeColumn(raw: Frame): (r: Column)
    requires WellFormed(raw)
    requires VolumeFinite(raw) && "Volume" in Names(raw.columns)
    requires QCut(Values(ColumnCells(raw, "Volume"))).Ok?
    ensures r.name == "Trade_Volume"
    ensures |r.cells| == raw.rows
  {
    Column("Trade_Volume", TierCells(QCut(Values(ColumnCells(raw, "Volume"))).value))
  }

  function TrendColumn(raw: Frame): (r: Column)
    requires WellFormed(raw)
    requires "PercentageChange" in Names(raw.columns)
    ensures r.name == "Trend_Strength"
    ensures |r.cells| == raw.rows
  {
    Column("Trend_Strength", Derive(ColumnCells(raw, "PercentageChange"), TrendCell))
  }

  function SectorColumn(raw: Frame): (r: Column)
    requires WellFormed(raw)
    requires "Ticker" in Names(raw.columns)
    ensures r.name == "Sector"
    ensures |r.cells| == raw.rows
  {
    Column("Sector", SectorCells(ColumnCells(raw, "Ticker")))
  }

  /** Reading a raw column after columns were appended reads the raw table. */
  lemma ReadRaw(raw: Frame, extra: seq<Column>, name: string)
    requires name in Names(raw.columns)
    ensures name in Names((raw.columns + extra))
    ensures ColumnCells(Frame(raw.rows, raw.columns + extra), name) == ColumnCells(raw, name)
  {
    ReadThroughAppend(raw, extra, name);
    NamesConcat(raw.columns, extra);
  }

  lemma PriceChangeStage(raw: Frame)
    requires WellFormed(raw) && "Daily_Change" in Names(raw.columns)
    requires AllNumeric(ColumnCells(raw, "Daily_Change"))
    requires "Price_Change_Category" !in Names(raw.columns)
    ensures CutStage(raw, "Daily_Change", "Price_Change_Category", PriceChangeCell)
            == Ok(Frame(raw.rows, raw.columns + [PriceChangeColumn(raw)]))
  {
    AppendFresh(raw, PriceChangeColumn(raw));
  }

  /** The volume stage reads through appended columns and assigns the raw file's tiers. */
  lemma VolumeThroughAppend(raw: Frame, extra: seq<Column>)
    requires WellFormed(raw) && VolumeFinite(raw) && "Volume" in Names(raw.columns)
    requires AllNumeric(ColumnCells(raw, "Volume")) && QCut(Values(ColumnCells(raw, "Volume"))).Ok?
    requires WellFormed(Frame(raw.rows, raw.columns + extra))
    ensures var f := Frame(raw.rows, raw.columns + extra);
      && VolumeFinite(f)
      && VolumeStage(f) == Ok(SetColumn(f, "Trade_Volume", TradeVolumeColumn(raw).cells))
  {
    ReadRaw(raw, extra, "Volume");
  }

  lemma TradeVolumeStage(raw: Frame, c0: Column)
    requires WellFormed(raw) && VolumeFinite(raw) && "Volume" in Names(raw.columns)
    requires AllNumeric(ColumnCells(raw, "Volume")) && QCut(Values(ColumnCells(raw, "Volume"))).Ok?
    requires "Trade_Volume" !in Names(raw.columns)
    requires c0.name == "Price_Change_Category" && |c0.cells| == raw.rows
    ensures var f1 := Frame(raw.rows, raw.columns + [c0]);
      && WellFormed(f1) && VolumeFinite(f1)
      && VolumeStage(f1) == Ok(Frame(raw.rows, raw.columns + [c0, TradeVolumeColumn(raw)]))
  {
    assert WellFormed(Frame(raw.rows, raw.columns + [c0]));
    VolumeThroughAppend(raw, [c0]);
    AppendSecond(raw, c0, TradeVolumeColumn(raw));
  }

  /** A cut stage reads its raw source through appended columns. */
  lemma CutThroughAppend(raw: Frame, extra: seq<Column>, source: string, target: string, classify: Float -> Cell)
    requires WellFormed(raw) && source in Names(raw.columns) && AllNumeric(ColumnCells(raw, source))
    requires WellFormed(Frame(raw.rows, raw.columns + extra))
    ensures var f := Frame(raw.rows, raw.columns + extra);
      CutStage(f, source, target, classify) == Ok(SetColumn(f, target, Derive(ColumnCells(raw, source), classify)))
  {
    ReadRaw(raw, extra, source);
  }

  lemma TrendStage(raw: Frame, c0: Column, c1: Column)
    requires WellFormed(raw) && "PercentageChange" in Names(raw.columns)
    requires AllNumeric(ColumnCells(raw, "PercentageChange"))
    requires "Trend_Strength" !in Names(raw.columns)
    requires c0.name == "Price_Change_Category" && c1.name == "Trade_Volume"
    requires |c0.cells| == raw.rows && |c1.cells| == raw.rows
    ensures var f2 := Frame(raw.rows, raw.columns + [c0, c1]);
      && WellFormed(f2)
      && CutStage(f2, "PercentageChange", "Trend_Strength", TrendCell)
         == Ok(Frame(raw.rows, raw.columns + [c0, c1, TrendColumn(raw)]))
  {
    assert WellFormed(Frame(raw.rows, raw.columns + [c0, c1]));
    CutThroughAppend(raw, [c0, c1], "PercentageChange", "Trend_Strength", TrendCell);
    AppendThird(raw, c0, c1, TrendColumn(raw));
  }

  /** The sector stage reads the raw tickers through appended columns. */
  lemma SectorThroughAppend(raw: Frame, extra: seq<Column>)
    requires WellFormed(raw) && "Ticker" in Names(raw.columns)
    requires WellFormed(Frame(raw.rows, raw.columns + extra))
    ensures var f := Frame(raw.rows, raw.columns + extra);
      SectorStage(f) == Ok(SetColumn(f, "Sector", SectorCells(ColumnCells(raw, "Ticker"))))
  {
    ReadRaw(raw, extra, "Ticker");
  }

  lemma SectorStep(raw: Frame, c0: Column, c1: Column, c2: Column)
    requires WellFormed(raw) && "Ticker" in Names(raw.columns)
    requires "Sector" !in Names(raw.columns)
    requires c0.name == "Price_Change_Category" && c1.name == "Trade_Volume" && c2.name == "Trend_Strength"
    requires |c0.cells| == raw.rows && |c1.cells| == raw.rows && |c2.cells| == raw.rows
    ensures var f3 := Frame(raw.rows, raw.columns + [c0, c1, c2]);
      && WellFormed(f3)
      && SectorStage(f3) == Ok(Frame(raw.rows, raw.columns + [c0, c1, c2, SectorColumn(raw)]))
  {
    assert WellFormed(Frame(raw.rows, raw.columns + [c0, c1, c2]));
    SectorThroughAppend(raw, [c0, c1, c2]);
    AppendFourth(raw, c0, c1, c2, SectorColumn(raw));
  }

  function DerivedColumns(raw: Frame): seq<Column>
    requires WellFormed(raw) && VolumeFinite(raw) && Preparable(raw)
  {
    [PriceChangeColumn(raw), TradeVolumeColumn(raw), TrendColumn(raw), SectorColumn(raw)]
  }

  /** Dropping the raw names from a table of raw columns followed by the derived ones leaves the derived ones. */
  lemma DropRaw(raw: Frame, d: seq<Column>)
    requires RawColumnsOnly(raw) && HasRawColumns(raw)
    requires Names(d) == DerivedNames
    ensures Drop(Frame(raw.rows, raw.columns + d), DroppedNames) == Ok(Frame(raw.rows, d))
  {
    DerivedNamesFresh();
    assert forall i :: 0 <= i < |d| ==> d[i].name == DerivedNames[i];
    DropAppended(raw, d, DroppedNames);
  }

  lemma DerivedColumnNames(raw: Frame)
    requires WellFormed(raw) && VolumeFinite(raw) && Preparable(raw)
    ensures Names(DerivedColumns(raw)) == DerivedNames
  {
    NamesOfFour(PriceChangeColumn(raw), TradeVolumeColumn(raw), TrendColumn(raw), SectorColumn(raw));
  }

  /** The four stages append the four derived columns to a file of raw columns. */
  lemma AddDerivedAppends(raw: Frame)
    requires WellFormed(raw) && VolumeFinite(raw) && Preparable(raw) && RawColumnsOnly(raw)
    ensures AddDerived(raw) == Ok(Frame(raw.rows, raw.columns + DerivedColumns(raw)))
  {
    var c0, c1, c2 := PriceChangeColumn(raw), TradeVolumeColumn(raw), TrendColumn(raw);
    DerivedAbsent(raw);
    assert DerivedNames[0] == "Price_Change_Category" && DerivedNames[1] == "Trade_Volume";
    assert DerivedNames[2] == "Trend_Strength" && DerivedNames[3] == "Sector";
    PriceChangeStage(raw);
    TradeVolumeStage(raw, c0);
    TrendStage(raw, c0, c1);
    SectorStep(raw, c0, c1, c2);
  }

  /**
   * On a file holding exactly the raw columns, the rule-mining table is the
   * four derived columns, in the order they were added, under blank headers.
   */
  lemma ArmTableShape(raw: Frame)
    requires WellFormed(raw) && VolumeFinite(raw) && Preparable(raw) && RawColumnsOnly(raw)
    ensures PrepareArm(raw) == Ok(BlankHeaders(Frame(raw.rows, DerivedColumns(raw))))
  {
    AddDerivedAppends(raw);
    DerivedColumnNames(raw);
    DropRaw(raw, DerivedColumns(raw));
  }

  /**
   * The stages succeed exactly when their source columns are there and
   * numeric; they add names but never remove one.
   */
  lemma AddDerivedOk(raw: Frame)
    requires WellFormed(raw) && VolumeFinite(raw)
    ensures AddDerived(raw).Ok? <==> StagesApply(raw)
    ensures AddDerived(raw).Ok? ==>
      forall n :: n !in DerivedNames ==> (n in Names(AddDerived(raw).value.columns) <==> n in Names(raw.columns))
  {
    var r1 := CutStage(raw, "Daily_Change", "Price_Change_Category", PriceChangeCell);
    if r1.Err? {
      return;
    }
    var f1 := r1.value;
    var x0 := Derive(ColumnCells(raw, "Daily_Change"), PriceChangeCell);
    SetKeepsOther(raw, "Price_Change_Category", x0, "Volume");
    SetKeepsOther(raw, "Price_Change_Category", x0, "PercentageChange");
    SetKeepsOther(raw, "Price_Change_Category", x0, "Ticker");
    var r2 := VolumeStage(f1);
    if r2.Err? {
      return;
    }
    var f2 := r2.value;
    var x1 := TierCells(QCut(Values(ColumnCells(f1, "Volume"))).value);
    SetKeepsOther(f1, "Trade_Volume", x1, "PercentageChange");
    SetKeepsOther(f1, "Trade_Volume", x1, "Ticker");
    var r3 := CutStage(f2, "PercentageChange", "Trend_Strength", TrendCell);
    if r3.Err? {
      return;
    }
    var f3 := r3.value;
    var x2 := Derive(ColumnCells(f2, "PercentageChange"), TrendCell);
    SetKeepsOther(f2, "Trend_Strength", x2, "Ticker");
    var r4 := SectorStage(f3);
    if r4.Ok? {
      var x3 := SectorCells(ColumnCells(f3, "Ticker"));
      forall n | n !in DerivedNames
        ensures n in Names(r4.value.columns) <==> n in Names(raw.columns)
      {
        assert n != DerivedNames[0] && n != DerivedNames[1] && n != DerivedNames[2] && n != DerivedNames[3];
        SetKeepsOther(raw, "Price_Change_Category", x0, n);
        SetKeepsOther(f1, "Trade_Volume", x1, n);
        SetKeepsOther(f2, "Trend_Strength", x2, n);
        SetKeepsOther(f3, "Sector", x3, n);
      }
    }
  }

  /** The drop succeeds on a table that keeps the raw names exactly when the file had them all. */
  lemma DropFindsRaw(raw: Frame, f: Frame)
    requires forall n :: n !in DerivedNames ==> (n in Names(f.columns) <==> n in Names(raw.columns))
    ensures Drop(f, DroppedNames).Ok? <==> HasRawColumns(raw)
  {
    DerivedNamesFresh();
    DropOkIff(f, raw, DroppedNames);
  }

  /**
   * The rule-mining table is produced exactly when the file has every raw
   * column, the three numeric ones hold only numbers and the volume
   * quartiles are distinct; otherwise the source raises.
   */
  lemma ArmSucceedsIff(raw: Frame)
    requires WellFormed(raw) && VolumeFinite(raw)
    ensures PrepareArm(raw).Ok? <==> Preparable(raw)
  {
    AddDerivedOk(raw);
    if AddDerived(raw).Ok? {
      DropFindsRaw(raw, AddDerived(raw).value);
    }
  }

  // What row `j` of each derived column holds.

  /** The price-change category of the day's change. */
  lemma PriceChangeCells(raw: Frame, j: nat)
    requires WellFormed(raw) && "Daily_Change" in Names(raw.columns) && j < raw.rows
    ensures PriceChangeColumn(raw).cells[j] == PriceChangeCell(ValueOf(ColumnCells(raw, "Daily_Change")[j]))
  {
  }

  /** The volume quartile the day's volume falls in. */
  lemma TradeVolumeCells(raw: Frame, j: nat)
    requires WellFormed(raw) && VolumeFinite(raw) && "Volume" in Names(raw.columns) && j < raw.rows
    requires QCut(Values(ColumnCells(raw, "Volume"))).Ok?
    ensures TradeVolumeColumn(raw).cells[j] == TierCell(QCut(Values(ColumnCells(raw, "Volume"))).value[j])
  {
  }

  /** The trend strength of the day's percentage change. */
  lemma TrendCells(raw: Frame, j: nat)
    requires WellFormed(raw) && "PercentageChange" in Names(raw.columns) && j < raw.rows
    ensures TrendColumn(raw).cells[j] == TrendCell(ValueOf(ColumnCells(raw, "PercentageChange")[j]))
  {
  }

  /** The sector of the day's ticker. */
  lemma SectorCellsAt(raw: Frame, j: nat)
    requires WellFormed(raw) && "Ticker" in Names(raw.columns) && j < raw.rows
    ensures SectorColumn(raw).cells[j] == SectorCell(ColumnCells(raw, "Ticker")[j])
  {
  }
}
