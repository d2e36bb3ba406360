# Stock-market categorisation and cluster selection, modelled in Dafny

`unsupervised.py` is a notebook-style script over a daily stock-market table.
Each row has a date, a ticker, four prices, a volume, an absolute daily change
and a percentage change. Most of the script hands numbers to scikit-learn and
scipy (scaling, PCA, KMeans, DBSCAN, ward linkage) and plots the results. The
logic of its own that it applies is:

- three fixed-edge `pd.cut` categorisations: `Profit_Category`,
  `Price_Change_Category` and `Trend_Strength`;
- the equal-frequency `pd.qcut` of `Volume` into four tiers (`Trade_Volume`);
- the ticker-to-sector lookup (`Sector`);
- the choice of the KMeans cluster count: the first k in 2..5 with the
  greatest silhouette score;
- the running total of the PCA explained-variance ratios;
- the preparation of the association-rule-mining table `ARM_data.csv`. The
  input is read afresh, the four categorical columns are derived, the nine raw
  columns are dropped and every header is blanked.

The model has one module per concern:

| file | module | what it holds |
|---|---|---|
| results.dfy | `Results` | `Option`, `Result` and the errors the script can raise (KeyError, a non-numeric column, non-unique quantile edges, `max` of an empty dict) |
| floats.dfy | `Floats` | doubles as NaN, ±infinity or a finite real, with IEEE `<` and `<=` (NaN compares false) |
| binning.dfy | `Binning` | pandas' `cut`: numpy `searchsorted` against the edges, the right/left closing rule and `include_lowest` |
| categories.dfy | `Categories` | the three fixed-edge categorisations and their labels |
| quantiles.dfy | `Quantiles` | sorting, numpy's linear quartiles, and `qcut` with its refusal of duplicate edges |
| sectors.dfy | `Sectors` | the Tech / Consumer / Industrial lookup |
| cluster_selection.dfy | `ClusterSelection` | the score table built for k in `range(2, 6)` and Python's `max(d, key=d.get)` |
| variance.dfy | `Variance` | `np.cumsum` of the explained-variance ratios |
| frames.dfy | `Frames` | a column table with pandas' column read, column assignment, `drop(columns=...)` and header replacement |
| arm_pipeline.dfy | `ArmPipeline` | lines 221-252 end to end, from the freshly read file to the blank-headed table |

The rule-mining table has four category columns. The code re-reads the input
at unsupervised.py:221, so the `Profit_Category` column added at lines 29-35
is not in the frame that is dropped and written. `ArmPipeline.ArmTableShape`
proves the output is exactly `Price_Change_Category`, `Trade_Volume`,
`Trend_Strength` and `Sector`, in that order.

Reading the source closely gives these boundary rules:

- `pd.cut` with `right=False` and `include_lowest=True` (the profit cut)
  sends -inf to the first label and +inf to no label.
- The default right-closed cuts send -inf to no label and +inf to the last
  label.
- NaN always gets no label.
- The `industrial_stocks` list at line 241 is never consulted. `BA` and `AMD`
  are Industrial only through the default branch.

## Model

| member | source | states |
|---|---|---|
| Binning.CutIndex | unsupervised.py:224-226 | the bin index pandas computes from searchsorted: when there is one it names a bin of the edges, and NaN never gets one (its exact characterisation is `CutIndexAt`) |
| Binning.CutIndexAt | unsupervised.py:29-35 | pandas' searchsorted-based bin index is `j` exactly when `x` lies in bin `j` under the closing rule (or is the included lowest edge of bin 0) |
| Binning.CutIndexMeansCover | unsupervised.py:224-226 | the cut gives no label exactly when no bin covers the value; otherwise the label is the covering bin |
| Binning.FiniteAlwaysBinned | unsupervised.py:234-236 | with edges running from -inf to +inf, every finite value gets a bin |
| Binning.CutIndexMonotone | unsupervised.py:234-236 | for fixed increasing edges, a larger value never gets an earlier bin |
| Categories.ProfitCategory | unsupervised.py:29-35 | left-closed profit bins: [-inf,-10) High Loss, [-10,0) Loss, [0,10) Moderate Profit, [10,inf) High Profit; NaN and +inf get none |
| Categories.PriceChangeCategory | unsupervised.py:224-226 | right-closed price-change bins: (-inf,-2] Big Drop, (-2,0] Small Drop, (0,2] Small Rise, (2,inf] Big Rise; NaN and -inf get none |
| Categories.TrendStrength | unsupervised.py:234-236 | the six right-closed trend bins at -5, -2, 0, 2, 5, each label stated as its interval; NaN and -inf get none |
| Categories.TrendTotalOnFinite | unsupervised.py:234-236 | every finite percentage change gets one of the six trend labels |
| Categories.TrendMonotone | unsupervised.py:234-236 | if x <= y then the rank of x's trend label is at most that of y's |
| Categories.BoundaryExamples | unsupervised.py:29-35 | 7 and 0 are Moderate Profit, -10 is Loss; 3 is Big Rise, 0 Small Drop, 2 Small Rise; the infinities land as the closing rules dictate |
| Quantiles.Sort | unsupervised.py:230-231 | the sorted order qcut's quantiles read: same length, ascending, same multiset of values |
| Quantiles.SortedBounds | unsupervised.py:230-231 | in an ascending arrangement of a sample, every value lies between the first and last elements |
| Quantiles.QuartileEdgeStep | unsupervised.py:230-231 | numpy's linear interpolation gives non-decreasing quartiles of a sorted sample |
| Quantiles.QuartileEdgeEnds | unsupervised.py:230-231 | the 0 and 1 quantiles are the least and greatest values |
| Quantiles.QuartileEdges | unsupervised.py:230-231 | five edges, the first the minimum and the last the maximum, ascending for a sorted sample |
| Quantiles.VolumeTier | unsupervised.py:230-231 | one volume against five strictly rising edges: right-closed tiers with the lowest edge included, each tier stated as its interval; no tier outside [e0, e4] |
| Quantiles.VolumeTierMonotone | unsupervised.py:230-231 | for fixed edges a larger volume never gets a lower tier |
| Quantiles.Observed | unsupervised.py:230-231 | the sample the quantiles use holds each finite volume exactly as many times as the column does; NaN is skipped |
| Quantiles.VolumeEdges | unsupervised.py:230-231 | quartile edges exist exactly when some volume is observed; they are five and ascending |
| Quantiles.ObservedWithinEdges | unsupervised.py:230-231 | every observed volume lies between the outermost quartile edges |
| Quantiles.QCut | unsupervised.py:230-231 | qcut succeeds exactly when the edges exist and are pairwise distinct, and raises otherwise; on success one tier per row, and a row has no tier exactly when its volume is NaN |
| Quantiles.QCutTiers | unsupervised.py:230-231 | on success each row's tier is its volume binned against the strictly rising quartile edges |
| Quantiles.QCutMonotone | unsupervised.py:230-231 | within one qcut, a row with a larger volume never gets a lower tier, and both rows get a tier |
| Sectors.SectorOf | unsupervised.py:239-245 | Tech exactly for the five tech tickers, Consumer exactly for AMZN and NFLX, Industrial for every other ticker |
| Sectors.SectorOfMatchesTable | unsupervised.py:239-245 | the ordered chain equals a lookup in the table of seven mapped tickers with Industrial as the fallback |
| Sectors.SectorExamples | unsupervised.py:239-245 | the unused industrial list, BA, AMD and the unmapped XOM all get Industrial; AAPL is Tech; AMZN and NFLX are Consumer |
| ClusterSelection.ScoreTable | unsupervised.py:126-130 | the score dict in insertion order: one entry (k, score(k)) per k of the range, ascending |
| ClusterSelection.FirstMaxUnique | unsupervised.py:134 | at most one entry is both a greatest score and strictly above every earlier one |
| ClusterSelection.MaxByScore | unsupervised.py:134 | `max(d, key=d.get)` raises on an empty dict; otherwise it returns the key of the first entry with the greatest score |
| ClusterSelection.OptimalK | unsupervised.py:126-134 | a k is chosen exactly when the range is non-empty; it is in range, scores at least every candidate, and strictly beats every smaller k |
| ClusterSelection.PipelineOptimalK | unsupervised.py:126-134 | for k in range(2, 6): the chosen k is in 2..5, has the greatest score, and no smaller k ties it |
| Variance.PrefixSumMonotone | unsupervised.py:84-87 | with non-negative ratios a longer prefix never sums to less, and no prefix sum is negative |
| Variance.CumulativeSum | unsupervised.py:87 | entry i is the sum of the first i+1 ratios and the last entry is the total; non-negative ratios give non-decreasing totals, within [0, 1] when they sum to 1 |
| Frames.GetColumn | unsupervised.py:224 | reading a column yields the cells of a column of that name, and raises KeyError exactly when none exists |
| Frames.SetColumn | unsupervised.py:224 | assigning a column keeps the row count and well-formedness, appends a new name at the right and keeps the header when the name exists |
| Frames.SetThenGet | unsupervised.py:224-246 | after an assignment the assigned name reads the new cells and every other name reads as before |
| Frames.Keep | unsupervised.py:249 | the columns a drop keeps are exactly those whose names are not listed |
| Frames.KeepAppend | unsupervised.py:249 | the survivors of a drop keep their original order |
| Frames.Drop | unsupervised.py:249 | `drop(columns=...)` raises KeyError exactly when a listed name is missing, naming a missing one; otherwise it keeps the unlisted columns and the row count |
| Frames.DropAppended | unsupervised.py:249 | dropping every name of a table from that table followed by other columns leaves exactly those columns |
| Frames.DropOkIff | unsupervised.py:249 | a drop succeeds exactly when every listed name is present |
| Frames.BlankHeaders | unsupervised.py:252 | every header becomes the empty string; column count, cells and rows are kept |
| ArmPipeline.CutStage | unsupervised.py:224-226 | a cut column assignment succeeds exactly when the source column exists and is numeric, with KeyError or a type error otherwise |
| ArmPipeline.VolumeStage | unsupervised.py:230-231 | the Trade_Volume assignment succeeds exactly when Volume exists, is numeric and its quartile edges are distinct |
| ArmPipeline.SectorCell | unsupervised.py:243-245 | a ticker cell becomes Tech exactly when it is text in the tech list, Consumer exactly when it is text in the consumer list, and Industrial otherwise, including a cell that is not text |
| ArmPipeline.SectorStage | unsupervised.py:243-245 | the Sector assignment succeeds exactly when the Ticker column exists |
| ArmPipeline.ProfitStage | unsupervised.py:29-35 | the Profit_Category assignment on the first read succeeds exactly when PercentageChange exists and is numeric, and then sets that column to each row's profit category |
| ArmPipeline.PrepareArm | unsupervised.py:221-252 | the written table keeps the row count and has an empty string for every header |
| ArmPipeline.AddDerived | unsupervised.py:224-246 | the four assignments in source order; on success the table is well formed with the same rows (when they succeed and what they append: `AddDerivedOk`, `AddDerivedAppends`) |
| ArmPipeline.AddDerivedOk | unsupervised.py:224-246 | the four assignments succeed exactly when their source columns exist and the cut ones are numeric; they remove no name |
| ArmPipeline.AddDerivedAppends | unsupervised.py:224-246 | on a file of raw columns the four assignments append the four derived columns, in order |
| ArmPipeline.ArmSucceedsIff | unsupervised.py:221-252 | lines 221-252 produce the table exactly when the file has all nine raw columns, the three numeric ones hold numbers and the volume quartiles are distinct |
| ArmPipeline.ArmTableShape | unsupervised.py:221-252 | on a file of raw columns the output is exactly Price_Change_Category, Trade_Volume, Trend_Strength and Sector, in that order, under blank headers; no Profit_Category |
| ArmPipeline.PriceChangeCells | unsupervised.py:224-226 | row j of the first output column is the price-change category of row j's Daily_Change |
| ArmPipeline.TradeVolumeCells | unsupervised.py:230-231 | row j of the second output column is the qcut tier of row j's Volume |
| ArmPipeline.TrendCells | unsupervised.py:234-236 | row j of the third output column is the trend strength of row j's PercentageChange |
| ArmPipeline.SectorCellsAt | unsupervised.py:243-245 | row j of the fourth output column is the sector of row j's ticker |

## Left out

- Reading and writing CSV files (lines 19, 221 and 256): the input table is a parameter (`raw`), and the model's result is the table that would be written.
- `print`, `head`, `info` and `describe` previews, and the bare expression lines that display a frame: they have no effect on the data.
- All plotting (lines 55-61, 70-78, 89-107, 138-145, 172-179, 189-194 and 211-217): it only draws figures.
- `select_dtypes`, `StandardScaler`, every PCA fit and transform, the eigenvalues, KMeans, `silhouette_score`, DBSCAN and the ward linkage. These are foreign floating-point library calls. The silhouette scores are an abstract function `score: int -> real`, and the explained-variance ratios are an input sequence of reals.
- The random data fed to the dendrogram (lines 207-209): it depends on an RNG and is only plotted.
- Floating-point rounding: finite doubles are exact reals, and the interpolation numpy does for quartiles is exact in the model.
- A NaN silhouette score: Python's `max` compares NaN as false against everything. The model's scores are reals.
- Quantiles.QCut: requires that no volume is infinite. numpy's interpolation between infinite order statistics can produce NaN edges, and that arithmetic is not modelled. In the script an infinite numeric cell already stops `StandardScaler` at line 45.
- ArmPipeline.ArmSucceedsIff: models lines 221-252 as if the script reached them. It reaches line 221 only if lines 19-217 succeed. Those earlier lines stop on an infinite numeric cell (`StandardScaler`, line 45), on a NaN numeric cell (`PCA`, line 50), on a table of fewer than five rows, and on one of five rows whose reduced points are pairwise distinct (`KMeans` and `silhouette_score` for k up to 5, lines 127-130). So the missing-category paths for NaN at lines 224-236 are not reached in the script as written.
- ArmPipeline.VolumeStage: carries the same requirement through `VolumeFinite`.
- ArmPipeline.PrepareArm: carries the same requirement through `VolumeFinite`.
- Frames.GetColumn: a table with two columns of one name returns the first. pandas would return both as a sub-frame; the pipeline never creates such a table.
- ArmPipeline.ArmTableShape: assumes the file holds only the nine raw columns. With extra columns those columns survive the drop; `ArmSucceedsIff` covers any file.
- A non-string `Ticker` cell (a missing ticker) is in neither list and gets Industrial, as the lambda's `in` tests do.
