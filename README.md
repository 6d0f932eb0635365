# Crypto dashboard chart logic, in Dafny

This project models the data logic of the cryptocurrency dashboard's chart components
and proves properties of it. Each component is one module:

- `StockVolatility` (src/components/StockVolatility.tsx): the candlestick panel. It sorts
  the selected market's rows by time in place and picks a default index window by date
  with two `findIndex` searches. The rows shown are that window sliced and filtered by
  an Up / Down / Both radio group. The component is a class whose fields are the React
  state, with one method per handler or effect and the invariant that the screen agrees
  with the state.
- `VolatilityAnalysis` (src/components/visualizations/StockVolatility.tsx): the
  volatility card. Its `filteredData` list is overwritten by a date-window effect and
  by a change-filter effect that narrows the previous list. The module also holds the
  two summary metrics, average daily volume and price range.
- `VolumeChart` (src/components/VolumeChart.tsx): the trailing moving average of
  volume, written as a loop over a window of 5.
- `BarChart` (src/components/BarChart.tsx): the performance bars. For each of five
  markets the loop computes the percentage change of the close from the oldest row to
  the newest and picks a fill colour. It also widens the overall date span. The bars
  are then ranked best first. The module also holds the opacity used for selection
  and the ticker label.
- `CorrelationHeatmap` (src/components/CorrelationHeatmap.tsx): the cell colour of a
  correlation value and the bar width. It also holds the per-pair averages over all
  instruments and the choice between those averages and one instrument's row.
- `PortfolioBubbleChart` (src/components/PortfolioBubbleChart.tsx): the four-way
  technical-signal classification in the bubble tooltip.

Shared modules model the JavaScript library behaviour the components rely on:

- `Sequences`: `Array.prototype.filter`, `findIndex` and `slice`, including negative
  and clamped slice bounds.
- `Numeric`: `reduce` summation, the mean, and `Math.min` / `Math.max`, which return
  +Infinity and -Infinity for no arguments.
- `Sorting`: `Array.prototype.sort` with a numeric comparator. This sort is stable, so
  it is specified as a stable insertion sort and computed in place on an array.
- `Candles`: the parsed row type, and the time sort used by two components.
- `Options`: an option type.

Dates are integer milliseconds since the Unix epoch. Prices and volumes are exact
reals. A value that JavaScript leaves `undefined` or `null` is `None`. The correlation
table tells the two kinds of missing number apart: a value there is a `JsNumber`, which
is `Undefined`, `NaN` or a number, because an undefined entry and a NaN average are
drawn differently.

## Model

| member | source | states |
|---|---|---|
| Sequences.Filter | src/components/StockVolatility.tsx:74-78 | The kept elements are exactly the input elements that pass the predicate, and the result is never longer than the input |
| Sequences.FilterKeepsEveryCopy | src/components/StockVolatility.tsx:74-78 | Every copy of an element that passes is kept and no copy of one that fails, so the result holds as many copies of each passing element as the input |
| Sequences.FilterIsSubsequence | src/components/visualizations/StockVolatility.tsx:106-108 | Filtering keeps the relative order of the kept elements |
| Sequences.FindIndex | src/components/StockVolatility.tsx:62-63 | The result is the first index whose element satisfies the predicate, or -1 when no element does |
| Sequences.JsSlice | src/components/StockVolatility.tsx:74 | `slice(start, end)` within bounds is the subsequence from start up to but excluding end; it is empty when end is at or before start |
| Numeric.Min | src/components/visualizations/StockVolatility.tsx:189 | `Math.min` over no numbers is +Infinity; otherwise it is one of the numbers and no greater than any of them |
| Numeric.Max | src/components/visualizations/StockVolatility.tsx:189 | `Math.max` over no numbers is -Infinity; otherwise it is one of the numbers and no smaller than any of them |
| Numeric.SumBounds | src/components/visualizations/StockVolatility.tsx:186 | The `reduce` sum of n terms, each between lo and hi, lies between n * lo and n * hi |
| Numeric.MeanBounds | src/components/VolumeChart.tsx:90 | The mean of a non-empty list lies within any bounds of its terms |
| Numeric.MeanTimesCount | src/components/visualizations/StockVolatility.tsx:186 | The mean multiplied by the number of terms gives back the sum |
| Numeric.MeanWithinExtremes | src/components/VolumeChart.tsx:89-90 | The mean of a non-empty list lies between its smallest and largest element |
| Sorting.SortBy | src/components/StockVolatility.tsx:54 | The stable sort by a numeric key keeps the number of elements |
| Sorting.InsertInPlace | src/components/StockVolatility.tsx:54 | One step of the in-place sort: the prefix up to i becomes the insertion of the old element i into the old prefix, and the rest of the array is unchanged |
| Sorting.SortBySorted | src/components/StockVolatility.tsx:54 | The stable sort by a numeric key leaves the keys in ascending order |
| Sorting.SortByPermutes | src/components/StockVolatility.tsx:54 | The sorted list is a reordering of the input |
| Sorting.SortInPlace | src/components/StockVolatility.tsx:54 | After the in-place sort the array holds the stable sort of its old contents, sorted and a permutation of them |
| Candles.SortRowsByTime | src/components/StockVolatility.tsx:44-54 | The loaded rows end up in non-decreasing time order and are a permutation of the parsed rows |
| StockVolatility.DefaultRange | src/components/StockVolatility.tsx:62-68 | The window starts at the first row dated at or after the start date, or at 0 if there is none. It ends just before the first row dated after the end date, or at the last row if there is none |
| StockVolatility.DefaultRangeIsDateWindow | src/components/StockVolatility.tsx:58-68 | On time-sorted rows, a row is inside the default window exactly when its date is within [start, end]; when no row reaches the start date, exactly when its date is at most the end date |
| StockVolatility.Displayed | src/components/StockVolatility.tsx:74-78 | The screen never has more rows than the sliced window |
| StockVolatility.DisplayedIsFilteredWindow | src/components/StockVolatility.tsx:74-78 | A row is on screen exactly when it is in the sliced window and passes the filter, and then as many times as it occurs in the window |
| StockVolatility.DisplayedBothIsWindow | src/components/StockVolatility.tsx:74-77 | Under Both the screen shows exactly the rows of the inclusive index window, in order |
| StockVolatility.DisplayedMatchesDirection | src/components/StockVolatility.tsx:75-77 | Up shows only rows with close > open, Down only rows with close < open; a row with close == open shows only under Both |
| StockVolatility.DisplayedIsSubsequenceOfWindow | src/components/StockVolatility.tsx:74-78 | The screen is an order-preserving subsequence of the window, so it has at most r1 - r0 + 1 rows |
| StockVolatility.WindowEmptyWhenAllRowsAfterEnd | src/components/StockVolatility.tsx:63-67 | When the first row is already after the end date the window ends at -1 and nothing is shown |
| StockVolatility.StockVolatility.constructor | src/components/StockVolatility.tsx:34-38 | The first stock is selected, nothing is loaded, the window is [0, 0], the filter is Both, and the screen agrees with the state |
| StockVolatility.StockVolatility.Loaded | src/components/StockVolatility.tsx:40-68 | The stored rows are the parsed rows sorted by time (sorted and a permutation). The window is the default window of those rows, the screen is refreshed, and the other state is untouched |
| StockVolatility.StockVolatility.RefreshFiltered | src/components/StockVolatility.tsx:73-80 | The filter effect makes the screen the filtered slice of the current window |
| StockVolatility.StockVolatility.SetChangeFilter | src/components/StockVolatility.tsx:101-119 | A radio click sets the filter and refreshes the screen, leaving rows, window, selection and notifications alone |
| StockVolatility.StockVolatility.SetDateRange | src/components/StockVolatility.tsx:125-128 | A slider move sets the window and refreshes the screen, leaving the rest alone |
| StockVolatility.StockVolatility.HandleStockSelect | src/components/StockVolatility.tsx:82-87 | The stock becomes the selection, and it is passed to `onStockSelect` exactly when that prop is given |
| VolatilityAnalysis.DateWindow | src/components/visualizations/StockVolatility.tsx:96-102 | The kept rows are exactly those dated 2024-01-01 to 2024-01-05 inclusive |
| VolatilityAnalysis.AfterChange | src/components/visualizations/StockVolatility.tsx:104-112 | 'up' keeps the previous list's rows with close > open, 'down' those with close < open, and 'both' replaces the list by the full data |
| VolatilityAnalysis.NarrowingIsSubsequence | src/components/visualizations/StockVolatility.tsx:105-108 | Up and Down never add rows and keep the order of the rows they keep |
| VolatilityAnalysis.OppositeNarrowingsLeaveNothing | src/components/visualizations/StockVolatility.tsx:105-108 | Choosing Up then Down, or Down then Up, without an All in between leaves an empty list |
| VolatilityAnalysis.AverageDailyVolumeWithinExtremes | src/components/visualizations/StockVolatility.tsx:186 | The average daily volume of a non-empty list lies between its smallest and largest volume |
| VolatilityAnalysis.AverageDailyVolumeIsSumOverCount | src/components/visualizations/StockVolatility.tsx:186 | The average daily volume times the row count is the sum of the volumes |
| VolatilityAnalysis.PriceRange | src/components/visualizations/StockVolatility.tsx:189 | The range runs from the lowest low to the highest high, both attained by some row; an empty list gives (+Infinity, -Infinity) |
| VolatilityAnalysis.StockVolatility.constructor | src/components/visualizations/StockVolatility.tsx:92-112 | On mount both effects run in order, so under 'both' the list shown is the full data and the date window is discarded |
| VolatilityAnalysis.StockVolatility.ApplyDateWindow | src/components/visualizations/StockVolatility.tsx:96-102 | The date effect replaces the list by the date window of the data |
| VolatilityAnalysis.StockVolatility.ApplyChangeFilter | src/components/visualizations/StockVolatility.tsx:104-112 | The change effect applies the current radio value to the previous list |
| VolatilityAnalysis.StockVolatility.SetChangeFilter | src/components/visualizations/StockVolatility.tsx:133-140 | Choosing a different radio value runs the change effect on the current list; choosing the same value changes nothing |
| VolatilityAnalysis.StockVolatility.ReceiveData | src/components/visualizations/StockVolatility.tsx:96-112 | New data runs the date effect and then the change effect on the new data |
| VolatilityAnalysis.UpThenDown | src/components/visualizations/StockVolatility.tsx:104-112 | Mounting and then choosing Up and Down leaves no row on screen |
| VolumeChart.D3Mean | src/components/VolumeChart.tsx:90 | `d3.mean` is undefined exactly for an empty list |
| VolumeChart.OrZero | src/components/VolumeChart.tsx:90 | The fallback to 0 gives 0 exactly when the mean is undefined or 0, and otherwise gives the mean itself |
| VolumeChart.FallbackNeverFires | src/components/VolumeChart.tsx:89-90 | A window of at least one row has a mean, so the fallback to 0 never replaces it |
| VolumeChart.MovingAvg | src/components/VolumeChart.tsx:86-97 | The output has n - w + 1 points when n >= w and none otherwise. Point k is dated like row k + w - 1, and its value is the mean volume of rows k to k + w - 1, between that window's smallest and largest volume. On time-sorted rows the output dates keep input order |
| VolumeChart.AverageLine | src/components/VolumeChart.tsx:99 | The drawn line is the moving average over windows of 5 rows |
| BarChart.PercentChange | src/components/BarChart.tsx:91 | Growing the first price by the change in percent gives the last price; for a positive first price the change is positive exactly when the price rose |
| BarChart.FillFor | src/components/BarChart.tsx:94-99 | Strong fill exactly above 60, moderate fill exactly in (40, 60], low fill exactly at or below 40 |
| BarChart.RoundToTenth | src/components/BarChart.tsx:103 | The shown value is within 0.05 of the exact change and is non-negative for a non-negative change |
| BarChart.RoundingIsSymmetric | src/components/BarChart.tsx:103 | Rounding to a tenth depends only on the magnitude, so opposite changes get opposite values |
| BarChart.Bar | src/components/BarChart.tsx:76-105 | A contributing market's bar carries its name. Its fill is the colour for the change from the oldest close to the newest, and its value is within 0.05 of that change |
| BarChart.Bars | src/components/BarChart.tsx:67-106 | There are never more bars than markets, and every bar is named after one of the markets |
| BarChart.ChronologicalEnds | src/components/BarChart.tsx:73-81 | After the time sort the first row is a row with the earliest time and the last row one with the latest |
| BarChart.SpanStartIsEarliest | src/components/BarChart.tsx:83-85 | The start date exists exactly when some market contributes; it is the earliest time over the rows of contributing markets |
| BarChart.SpanEndIsLatest | src/components/BarChart.tsx:86-88 | The end date exists exactly when some market contributes; it is the latest time over the rows of contributing markets |
| BarChart.BarsAreTheContributors | src/components/BarChart.tsx:67-106 | A market gets a bar exactly when its file loaded with at least two rows, and that bar is built from its rows |
| BarChart.MarketBar | src/components/BarChart.tsx:71-105 | For one contributing market: the bar from its sorted rows, and the times of its oldest and newest rows |
| BarChart.Rank | src/components/BarChart.tsx:113 | The ranked bars are the stable sort by descending value: a permutation with non-increasing values |
| BarChart.AddMarket | src/components/BarChart.tsx:71-105 | One turn of the loop keeps the loop's invariant: the bars and the span become those of the markets up to and including this one |
| BarChart.CollectBars | src/components/BarChart.tsx:63-110 | The loop pushes the contributors' bars in fetch order and ends with the span's start and end |
| BarChart.LoadPerformance | src/components/BarChart.tsx:63-117 | The data is the contributors' bars ranked by non-increasing value, as a permutation. A date range is reported exactly when some market contributes, and it runs from the span's start to its end |
| BarChart.Ticker | src/components/BarChart.tsx:153 | The label is the longest prefix of the name without '-', so it ends where the first '-' is |
| BarChart.Opacity | src/components/BarChart.tsx:132-135 | Opacity is 1 exactly when nothing is selected (null or empty) or the bar is the selected one, and 0.3 otherwise |
| BarChart.Tooltip | src/components/BarChart.tsx:30-41 | The tooltip shows only while active over a non-empty payload, with the first entry's ticker and value |
| BarChart.BarChart.constructor | src/components/BarChart.tsx:54-56 | The chart starts with no bars and no date range |
| BarChart.BarChart.LoadData | src/components/BarChart.tsx:58-130 | The mount effect stores the ranked bars, and it sets the date range only when a span was found |
| BarChart.BarChart.SelectBar | src/components/BarChart.tsx:161 | Clicking bar i selects that bar's market |
| CorrelationHeatmap.Intensity | src/components/CorrelationHeatmap.tsx:67-68 | The intensity is in [0, 255]; it is 255 for any magnitude of at least 1 and 0 for a zero value |
| CorrelationHeatmap.GetColor | src/components/CorrelationHeatmap.tsx:63-75 | An undefined value, and only that, is #f5f5f5. NaN is not positive, so it takes the second branch and gives the text rgb(255, NaN, NaN). A positive number gives rgb(255-b, 255-b, 255) and a zero or negative one rgb(255, 255-r, 255-r), where b and r are the intensity. Every channel of a number's colour is in [0, 255], and 0 is white |
| CorrelationHeatmap.ColorSaturates | src/components/CorrelationHeatmap.tsx:67-73 | Any value of magnitude at least 1 gets the colour of +1 or of -1 |
| CorrelationHeatmap.ColorDeepens | src/components/CorrelationHeatmap.tsx:66-73 | A stronger value of the same sign never gets a lighter colour |
| CorrelationHeatmap.BarWidth | src/components/CorrelationHeatmap.tsx:154 | The bar width of a number v is the magnitude of v * 100 in percent, so it stays within the track when v is in [-1, 1]; for NaN or undefined it is NaN |
| CorrelationHeatmap.Lookup | src/components/CorrelationHeatmap.tsx:88 | An instrument's row is found exactly when the table has that instrument, and it is that instrument's row |
| CorrelationHeatmap.ColumnSum | src/components/CorrelationHeatmap.tsx:81 | The reduce gives the sum of the pair's column when every instrument has the pair, and NaN otherwise |
| CorrelationHeatmap.Average | src/components/CorrelationHeatmap.tsx:81-82 | The average of a pair is a number exactly when every instrument has that pair, and NaN otherwise |
| CorrelationHeatmap.AverageWithinColumn | src/components/CorrelationHeatmap.tsx:80-83 | The average of a pair is the column sum over the instrument count, so it lies between the column's extremes |
| CorrelationHeatmap.GetAverageCorrelations | src/components/CorrelationHeatmap.tsx:77-86 | There is one average per pair key of the 'BTC-EUR' row and no other. Each is the column sum over the instrument count, or NaN when some instrument lacks the pair |
| CorrelationHeatmap.DisplayData | src/components/CorrelationHeatmap.tsx:88 | Under "ALL" the averages are shown, NaN included; otherwise the selected instrument's row is shown unchanged, as numbers, or nothing when there is no such instrument |
| CorrelationHeatmap.CorrelationHeatmap.constructor | src/components/CorrelationHeatmap.tsx:57-58 | The table starts on "ALL" |
| CorrelationHeatmap.CorrelationHeatmap.SetActiveCrypto | src/components/CorrelationHeatmap.tsx:104-120 | A button click makes its instrument, or "ALL", the one shown |
| PortfolioBubbleChart.Classify | src/components/PortfolioBubbleChart.tsx:125-128 | Strong Buy exactly at 70 or above, Buy exactly in [60, 70), Hold exactly in [50, 60), and Sell exactly below 50 |
| PortfolioBubbleChart.ClassifyIsMonotone | src/components/PortfolioBubbleChart.tsx:125-128 | A higher score never gets a weaker signal |
| PortfolioBubbleChart.LabelsAreDistinct | src/components/PortfolioBubbleChart.tsx:125-128 | The four signal texts are distinct, so each score gets exactly one label |
| PortfolioBubbleChart.TechnicalSignal | src/components/PortfolioBubbleChart.tsx:125-128 | The overwritten `technicalSignal` is the text of the classification of the score |
| PortfolioBubbleChart.CustomTooltip | src/components/PortfolioBubbleChart.tsx:121-142 | Content is produced exactly when the tooltip is active and the payload is non-empty, and it holds the first asset's market and signal |

## Left out

- CSV loading, `await` and per-market error logging are not modelled. The parsed rows are inputs, and a failed fetch is the `Failed` case of `BarChart.Fetch`. Parsing of CSV text (`parseFloat`, `Number`) is also left out.
- All rendering is left out: d3 scales, axes and SVG, recharts and MUI layout, and the candlestick body drawing.
- React scheduling is reduced to calls made in order. Each handler or effect is a method, and an effect triggered by a state change is called by that handler. Batching and stale async responses (a load finishing after the selection changed) are not modelled.
- StockVolatility.StockVolatility.Loaded: the default window's bounds (31 December 2022 and six months before it, found with local-time `setMonth`) are parameters, because calendar arithmetic in the browser's time zone is not modelled.
- StockVolatility.StockVolatility.Loaded: the load effect only fetches when a stock is selected, so it requires a non-empty selection. An empty stock list selects `undefined`, written "" here.
- VolatilityAnalysis.AverageDailyVolume: requires a non-empty list. For an empty list the source divides 0 by 0 and shows NaN.
- BarChart.Bar: requires a non-zero oldest close (the `Priced` predicate). A zero first price gives an infinite or NaN change.
- VolumeChart.MovingAvg: requires a window of at least 1. A smaller window makes the source read `data[i]` at a negative index and throw.
- CorrelationHeatmap.GetAverageCorrelations: requires a 'BTC-EUR' row. Without it the source throws while listing the pairs.
- CorrelationHeatmap.DisplayData: the table renders the 'BTC-EUR' pair list over the chosen row. A row that lacks one of those pairs makes `toFixed` throw, and that is not modelled.
- Decimal and locale formatting (`toFixed(3)`, `toLocaleString`, `toLocaleDateString`) is left out. IEEE floating-point rounding is also left out: arithmetic is on exact reals, and `toFixed(1)` is modelled as exact rounding to a tenth, halves away from zero.
- BarChart.Bar: the colour is chosen from the unrounded change and the height from the rounded one, as in the source. The text form of the colour (`rgb(...)` in the heatmap) is a `Color` value.
- The tooltips of the volatility card and the bubble chart show fields as text, and only the signal and the market are modelled. The bubble chart's constant portfolio and frontier data, and the axes, are drawing.
- generateStocks.js (a file-system script), the context provider's error outside a provider, the stock selector, the date slider and the welcome, treemap and layout components are not part of this model.
- The correlation table (src/components/CorrelationHeatmap.tsx:14-55) and the portfolio figures (src/components/PortfolioBubbleChart.tsx:39-119) are constants in the source; they are inputs here, and no indicator formula is modelled.
- CorrelationHeatmap.DisplayData: the text of a value (`toFixed(3)`) is not modelled; a NaN average prints as "NaN" and its bar width is "NaN%".
