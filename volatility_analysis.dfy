/** The price-volatility analysis card (src/components/visualizations/StockVolatility.tsx):
    a list of rows that a date-window effect and an All / Up / Down radio group keep
    overwriting, and two summary metrics over that list. */
module VolatilityAnalysis {
  import opened Candles
  import opened Sequences
  import opened Numeric

  /** `new Date('2024-01-01')` and `new Date('2024-01-05')`: an ISO date without a time
      is read as midnight UTC, here in milliseconds since the epoch. */
  const WindowStart: int := 1704067200000
  const WindowEnd: int := 1704412800000

  /** The radio values 'both' (labelled "All"), 'up' and 'down'. */
  datatype Change = Both | Up | Down

  predicate InDateWindow(c: Candle)
  {
    WindowStart <= c.time <= WindowEnd
  }

  /** The date-window effect: the rows dated 2024-01-01 to 2024-01-05 inclusive, in order. */
  function DateWindow(data: seq<Candle>): (r: seq<Candle>)
    ensures forall c :: c in r <==> c in data && WindowStart <= c.time <= WindowEnd
    ensures |r| <= |data|
  {
    Filter(data, InDateWindow)
  }

  /** The list after the change-filter effect has run on the list `prev`: 'up' and 'down'
      narrow `prev` itself, 'both' replaces it by the full input `data`. */
  function AfterChange(prev: seq<Candle>, data: seq<Candle>, change: Change): (r: seq<Candle>)
    ensures change == Up ==> forall c :: c in r <==> c in prev && c.close > c.open
    ensures change == Down ==> forall c :: c in r <==> c in prev && c.close < c.open
    ensures change == Both ==> r == data
  {
    match change
    case Up => Filter(prev, Rising)
    case Down => Filter(prev, Falling)
    case Both => data
  }

  /** Up and Down never add rows and keep the order of the rows they keep. */
  lemma NarrowingIsSubsequence(prev: seq<Candle>, data: seq<Candle>, change: Change)
    requires change != Both
    ensures IsSubsequence(AfterChange(prev, data, change), prev)
    ensures |AfterChange(prev, data, change)| <= |prev|
  {
    if change == Up {
      FilterIsSubsequence(prev, Rising);
    } else {
      FilterIsSubsequence(prev, Falling);
    }
  }

  /** Because Up and Down filter the previous list, choosing one after the other without
      an intervening All leaves nothing on screen. */
  lemma OppositeNarrowingsLeaveNothing(prev: seq<Candle>, data: seq<Candle>)
    ensures AfterChange(AfterChange(prev, data, Up), data, Down) == []
    ensures AfterChange(AfterChange(prev, data, Down), data, Up) == []
  {
    EmptyIffNoMember(AfterChange(AfterChange(prev, data, Up), data, Down));
    EmptyIffNoMember(AfterChange(AfterChange(prev, data, Down), data, Up));
  }

  /** "Average Daily Volume": the sum of the volumes divided by the number of rows. */
  function AverageDailyVolume(list: seq<Candle>): real
    requires |list| > 0
  {
    Mean(Volumes(list))
  }

  /** The average daily volume lies between the smallest and the largest volume. */
  lemma AverageDailyVolumeWithinExtremes(list: seq<Candle>)
    requires |list| > 0
    ensures Min(Volumes(list)).value <= AverageDailyVolume(list) <= Max(Volumes(list)).value
  {
    MeanWithinExtremes(Volumes(list));
  }

  /** The average is the total volume spread evenly over the rows: times the row count
      it gives back the sum of the volumes. */
  lemma AverageDailyVolumeIsSumOverCount(list: seq<Candle>)
    requires |list| > 0
    ensures AverageDailyVolume(list) * (|list| as real) == Sum(Volumes(list))
  {
    var volumes, n := Volumes(list), |list| as real;
    assert AverageDailyVolume(list) == Mean(volumes);
    MeanTimesCount(volumes, n);
  }

  /** "Price Range": from the lowest `low` to the highest `high` of the list; for an
      empty list Math.min and Math.max give +Infinity and -Infinity. */
  function PriceRange(list: seq<Candle>): (r: (ExtReal, ExtReal))
    ensures list == [] <==> r == (PosInfinity, NegInfinity)
    ensures list != [] ==> r.0.Finite? && r.1.Finite?
    ensures r.0.Finite? ==> (exists i :: 0 <= i < |list| && list[i].low == r.0.value)
                            && forall i :: 0 <= i < |list| ==> r.0.value <= list[i].low
    ensures r.1.Finite? ==> (exists i :: 0 <= i < |list| && list[i].high == r.1.value)
                            && forall i :: 0 <= i < |list| ==> list[i].high <= r.1.value
  {
    (Min(Lows(list)), Max(Highs(list)))
  }

  /** The component's state: the `data` prop, the list on screen and the radio value. */
  class StockVolatility {
    var data: seq<Candle>
    var filteredData: seq<Candle>
    var changeFilter: Change

    /** Mounting: the list starts as `data`; then both effects run in order, the date
        window first and the 'both' filter last, so the window is discarded at once. */
    constructor (data: seq<Candle>)
      ensures this.data == data && changeFilter == Both
      ensures filteredData == data
    {
      this.data := data;
      filteredData := data;
      changeFilter := Both;
      new;
      ApplyDateWindow();
      ApplyChangeFilter();
    }

    /** The effect on `[data]`: keep the rows of the 2024-01-01 to 2024-01-05 window. */
    method ApplyDateWindow()
      modifies this`filteredData
      ensures filteredData == DateWindow(data)
    {
      filteredData := Filter(data, InDateWindow);
    }

    /** The effect on `[changeFilter, data]`. */
    method ApplyChangeFilter()
      modifies this`filteredData
      ensures filteredData == AfterChange(old(filteredData), data, changeFilter)
    {
      if changeFilter == Up {
        filteredData := Filter(filteredData, Rising);
      } else if changeFilter == Down {
        filteredData := Filter(filteredData, Falling);
      } else {
        filteredData := data;
      }
    }

    /** A click on a radio button. Clicking the one already chosen changes no state, so
        no effect runs. */
    method SetChangeFilter(change: Change)
      modifies this
      ensures changeFilter == change && data == old(data)
      ensures filteredData == if change == old(changeFilter) then old(filteredData)
                              else AfterChange(old(filteredData), data, change)
    {
      if change != changeFilter {
        changeFilter := change;
        ApplyChangeFilter();
      }
    }

    /** A new `data` prop: both effects run again, in order. */
    method ReceiveData(newData: seq<Candle>)
      modifies this
      ensures data == newData && changeFilter == old(changeFilter)
      ensures filteredData == AfterChange(DateWindow(newData), newData, changeFilter)
    {
      data := newData;
      ApplyDateWindow();
      ApplyChangeFilter();
    }
  }

  /** Choosing Up and then Down on a freshly mounted card shows no rows at all. */
  method UpThenDown(data: seq<Candle>) returns (shown: seq<Candle>)
    ensures shown == []
  {
    var card := new StockVolatility(data);
    card.SetChangeFilter(Up);
    card.SetChangeFilter(Down);
    OppositeNarrowingsLeaveNothing(data, data);
    shown := card.filteredData;
  }
}
