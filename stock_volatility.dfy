/** The candlestick panel (src/components/StockVolatility.tsx): the rows of the selected
    market sorted by time, a default index window chosen by date, and the rows of that
    window shown under an Up / Down / Both filter. */
module StockVolatility {
  import opened Candles
  import opened Sequences
  import opened Sorting

  datatype ChangeFilter = Both | Up | Down

  /** The callback the window is filtered with: Up keeps rising days, Down falling days, Both all. */
  predicate Passes(f: ChangeFilter, c: Candle)
  {
    match f
    case Up => Rising(c)
    case Down => Falling(c)
    case Both => true
  }

  /** The default `[first, last]` index window over rows sorted by time: `first` is the
      first row at or after `startDate` (0 if there is none), `last` is the row before
      the first one after `endDate` (the last row if there is none). */
  function DefaultRange(rows: seq<Candle>, startDate: int, endDate: int): (r: (int, int))
    ensures 0 <= r.0 && (r.0 == 0 || r.0 < |rows|)
    ensures forall j :: 0 <= j < r.0 ==> rows[j].time < startDate
    ensures (exists j :: 0 <= j < |rows| && rows[j].time >= startDate) ==> r.0 < |rows| && rows[r.0].time >= startDate
    ensures (forall j :: 0 <= j < |rows| ==> rows[j].time < startDate) ==> r.0 == 0
    ensures -1 <= r.1 < |rows|
    ensures forall j :: 0 <= j <= r.1 ==> rows[j].time <= endDate
    ensures r.1 + 1 < |rows| ==> rows[r.1 + 1].time > endDate
  {
    var startIndex := FindIndex(rows, (d: Candle) => d.time >= startDate);
    var endIndex := FindIndex(rows, (d: Candle) => d.time > endDate);
    (if startIndex >= 0 then startIndex else 0,
     if endIndex >= 0 then endIndex - 1 else |rows| - 1)
  }

  /** The rows on screen: `rows.slice(range.0, range.1 + 1)` filtered by `f`. */
  function Displayed(rows: seq<Candle>, range: (int, int), f: ChangeFilter): (r: seq<Candle>)
    ensures |r| <= |JsSlice(rows, range.0, range.1 + 1)|
  {
    Filter(JsSlice(rows, range.0, range.1 + 1), (c: Candle) => Passes(f, c))
  }

  /** A row is on screen exactly when it lies in the window and passes the filter, and
      then as often as it occurs in the window. */
  lemma DisplayedIsFilteredWindow(rows: seq<Candle>, range: (int, int), f: ChangeFilter)
    ensures var window := JsSlice(rows, range.0, range.1 + 1);
      forall c :: c in Displayed(rows, range, f) <==> c in window && Passes(f, c)
    ensures var window := JsSlice(rows, range.0, range.1 + 1);
      forall c :: multiset(Displayed(rows, range, f))[c] == if Passes(f, c) then multiset(window)[c] else 0
  {
    var window, keep := JsSlice(rows, range.0, range.1 + 1), (c: Candle) => Passes(f, c);
    var shown := Filter(window, keep);
    assert Displayed(rows, range, f) == shown;
    FilterKeepsEveryCopy(window, keep);
    assert forall c :: keep(c) == Passes(f, c);
  }

  /** On rows sorted by time, when some row is at or after the start date, the default
      window holds exactly the rows dated within [startDate, endDate]; when none is,
      the window falls back to every row up to the end date. */
  lemma DefaultRangeIsDateWindow(rows: seq<Candle>, startDate: int, endDate: int)
    requires SortedBy(rows, TimeKey)
    ensures var r := DefaultRange(rows, startDate, endDate);
      forall j :: 0 <= j < |rows| ==>
        (r.0 <= j <= r.1 <==>
          (if exists k :: 0 <= k < |rows| && rows[k].time >= startDate
           then startDate <= rows[j].time <= endDate
           else rows[j].time <= endDate))
  {
    var r := DefaultRange(rows, startDate, endDate);
    forall j | 0 <= j < |rows|
      ensures j <= r.1 <==> rows[j].time <= endDate
    {
      if j > r.1 {
        assert TimeKey(rows[r.1 + 1]) <= TimeKey(rows[j]);
      }
    }
    if exists k :: 0 <= k < |rows| && rows[k].time >= startDate {
      forall j | 0 <= j < |rows| && r.0 <= j
        ensures startDate <= rows[j].time
      {
        assert TimeKey(rows[r.0]) <= TimeKey(rows[j]);
      }
    }
  }

  /** Under Both the screen shows the inclusive index window `rows[r0..r1]`, in order. */
  lemma DisplayedBothIsWindow(rows: seq<Candle>, r0: int, r1: int)
    requires 0 <= r0 <= r1 + 1 <= |rows|
    ensures Displayed(rows, (r0, r1), Both) == rows[r0..r1 + 1]
  {
    FilterAll(rows[r0..r1 + 1], (c: Candle) => Passes(Both, c));
  }

  /** Up shows only rising days, Down only falling days; a day with close == open shows only under Both. */
  lemma DisplayedMatchesDirection(rows: seq<Candle>, range: (int, int), f: ChangeFilter, c: Candle)
    requires c in Displayed(rows, range, f)
    ensures f == Up ==> c.close > c.open
    ensures f == Down ==> c.close < c.open
    ensures c.close == c.open ==> f == Both
  {
  }

  /** The screen is an order-preserving subsequence of the window, so it has at most r1 - r0 + 1 rows. */
  lemma DisplayedIsSubsequenceOfWindow(rows: seq<Candle>, r0: int, r1: int, f: ChangeFilter)
    requires 0 <= r0 <= r1 + 1 <= |rows|
    ensures IsSubsequence(Displayed(rows, (r0, r1), f), rows[r0..r1 + 1])
    ensures |Displayed(rows, (r0, r1), f)| <= r1 - r0 + 1
  {
    FilterIsSubsequence(rows[r0..r1 + 1], (c: Candle) => Passes(f, c));
  }

  /** The default window of a market whose first row is already past the end date is
      (0, -1), and nothing is shown. */
  lemma WindowEmptyWhenAllRowsAfterEnd(rows: seq<Candle>, startDate: int, endDate: int, f: ChangeFilter)
    requires |rows| > 0 && rows[0].time > endDate
    ensures DefaultRange(rows, startDate, endDate).1 == -1
    ensures Displayed(rows, DefaultRange(rows, startDate, endDate), f) == []
  {
  }

  /** The component's state. `notified` records the calls made to the optional
      `onStockSelect` prop; `hasStockSelectHandler` says whether that prop was given. */
  class StockVolatility {
    const stocks: seq<string>
    const hasStockSelectHandler: bool
    var selectedStock: string
    var stockData: seq<Candle>
    var dateRange: (int, int)
    var filteredData: seq<Candle>
    var changeFilter: ChangeFilter
    var notified: seq<string>

    /** After every handler and the effects it triggers, the screen agrees with the state. */
    ghost predicate Valid()
      reads this
    {
      filteredData == Displayed(stockData, dateRange, changeFilter)
    }

    /** Mounting: the first stock is selected (none, written "", for an empty list),
        no rows are loaded, the window is [0, 0] and the filter is Both. */
    constructor (stocks: seq<string>, hasStockSelectHandler: bool)
      ensures Valid()
      ensures this.stocks == stocks && this.hasStockSelectHandler == hasStockSelectHandler
      ensures selectedStock == (if |stocks| > 0 then stocks[0] else "")
      ensures stockData == [] && dateRange == (0, 0) && filteredData == []
      ensures changeFilter == Both && notified == []
    {
      this.stocks := stocks;
      this.hasStockSelectHandler := hasStockSelectHandler;
      selectedStock := if |stocks| > 0 then stocks[0] else "";
      stockData := [];
      dateRange := (0, 0);
      filteredData := [];
      changeFilter := Both;
      notified := [];
    }

    /** The load effect's continuation once the selected market's CSV has been parsed
        into `parsed`: the rows are sorted by time in place, stored, and the default
        window computed; the filter effect then refreshes the screen. The effect only
        fetches when a stock is selected. */
    method Loaded(parsed: seq<Candle>, startDate: int, endDate: int)
      requires selectedStock != ""
      modifies this`stockData, this`dateRange, this`filteredData
      ensures Valid()
      ensures stockData == SortBy(parsed, TimeKey)
      ensures SortedBy(stockData, TimeKey) && multiset(stockData) == multiset(parsed)
      ensures dateRange == DefaultRange(stockData, startDate, endDate)
      ensures changeFilter == old(changeFilter) && selectedStock == old(selectedStock)
      ensures notified == old(notified)
    {
      var rows := SortRowsByTime(parsed);
      stockData := rows;
      dateRange := DefaultRange(rows, startDate, endDate);
      RefreshFiltered();
    }

    /** The filter effect: slice the window and keep the rows passing the filter. */
    method RefreshFiltered()
      modifies this`filteredData
      ensures Valid()
    {
      filteredData := Displayed(stockData, dateRange, changeFilter);
    }

    /** A radio button: set the filter, then the filter effect runs. */
    method SetChangeFilter(f: ChangeFilter)
      modifies this`changeFilter, this`filteredData
      ensures Valid() && changeFilter == f
      ensures stockData == old(stockData) && dateRange == old(dateRange)
      ensures selectedStock == old(selectedStock) && notified == old(notified)
    {
      changeFilter := f;
      RefreshFiltered();
    }

    /** The date slider: set the window, then the filter effect runs. */
    method SetDateRange(range: (int, int))
      modifies this`dateRange, this`filteredData
      ensures Valid() && dateRange == range
      ensures stockData == old(stockData) && changeFilter == old(changeFilter)
      ensures selectedStock == old(selectedStock) && notified == old(notified)
    {
      dateRange := range;
      RefreshFiltered();
    }

    /** `handleStockSelect`: select the stock and pass it on to `onStockSelect` exactly
        when that prop was given. */
    method HandleStockSelect(stock: string)
      modifies this
      ensures selectedStock == stock
      ensures notified == old(notified) + (if hasStockSelectHandler then [stock] else [])
      ensures stockData == old(stockData) && dateRange == old(dateRange)
      ensures filteredData == old(filteredData) && changeFilter == old(changeFilter)
    {
      selectedStock := stock;
      if hasStockSelectHandler {
        notified := notified + [stock];
      }
    }
  }
}
