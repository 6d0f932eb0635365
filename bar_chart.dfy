/** The performance bar chart (src/components/BarChart.tsx): for each of five markets,
    the percentage change of the close from the oldest to the newest row, coloured by
    strength and ranked best first, with the overall span of dates covered. */
module BarChart {
  import opened Candles
  import opened Options
  import opened Sorting

  /** The markets loaded, in the order they are fetched. */
  const Cryptos: seq<string> := ["BTC-EUR", "ETH-EUR", "ADA-EUR", "XRP-EUR", "LTC-EUR"]

  const StrongFill: string := "#1f77b4"
  const ModerateFill: string := "#5fa8d8"
  const LowFill: string := "#93c1e4"

  datatype BarData = BarData(name: string, value: real, fill: string)

  /** The outcome of `d3.csv` for one market: its rows, or a rejected fetch (logged and skipped). */
  datatype Fetch = Loaded(rows: seq<Candle>) | Failed

  /** A market gets a bar only when its file loaded with at least two rows. */
  predicate Contributes(f: Fetch)
  {
    f.Loaded? && |f.rows| >= 2
  }

  /** The market's rows from oldest to newest, as the in-place sort by time leaves them. */
  function Chronological(rows: seq<Candle>): seq<Candle>
  {
    SortBy(rows, TimeKey)
  }

  /** The oldest close is not zero, so the percentage change is a number. */
  predicate Priced(f: Fetch)
  {
    Contributes(f) ==> Chronological(f.rows)[0].close != 0.0
  }

  /** `((last - first) / first) * 100`. Its partner: growing `first` by that many percent gives `last`. */
  function PercentChange(first: real, last: real): (r: real)
    requires first != 0.0
    ensures first + first * r / 100.0 == last
    ensures first > 0.0 ==> (r > 0.0 <==> last > first)
  {
    ((last - first) / first) * 100.0
  }

  /** The colour of a bar: strong above 60 %, moderate above 40 %, low otherwise.
      Both thresholds are strict. */
  function FillFor(change: real): (fill: string)
    ensures fill == StrongFill <==> change > 60.0
    ensures fill == ModerateFill <==> 40.0 < change <= 60.0
    ensures fill == LowFill <==> change <= 40.0
  {
    if change > 60.0 then StrongFill
    else if change > 40.0 then ModerateFill
    else LowFill
  }

  /** `parseFloat(x.toFixed(1))` on exact reals: the nearest tenth, halves rounded away
      from zero (toFixed rounds the magnitude and keeps the sign). */
  function RoundToTenth(x: real): (r: real)
    ensures -0.05 <= r - x <= 0.05
    ensures x >= 0.0 ==> r >= 0.0
  {
    var tenths: int := if x >= 0.0 then (x * 10.0 + 0.5).Floor else -((-x) * 10.0 + 0.5).Floor;
    tenths as real / 10.0
  }

  /** Rounding depends only on the magnitude, so opposite changes get opposite values. */
  lemma RoundingIsSymmetric(x: real)
    ensures RoundToTenth(-x) == -RoundToTenth(x)
  {
  }

  /** The bar of a contributing market, from its oldest and newest rows. The colour is
      chosen from the unrounded change, the height is the rounded one. */
  function Bar(name: string, rows: seq<Candle>): (b: BarData)
    requires Priced(Loaded(rows)) && |rows| >= 2
    ensures b.name == name
    ensures var sorted := Chronological(rows);
      var change := PercentChange(sorted[0].close, sorted[|sorted| - 1].close);
      b.fill == FillFor(change) && -0.05 <= b.value - change <= 0.05
  {
    var sorted := Chronological(rows);
    var change := PercentChange(sorted[0].close, sorted[|sorted| - 1].close);
    BarData(name, RoundToTenth(change), FillFor(change))
  }

  predicate AllPriced(fetched: seq<Fetch>)
  {
    forall i :: 0 <= i < |fetched| ==> Priced(fetched[i])
  }

  /** The bars pushed, in fetch order, before ranking. */
  function Bars(names: seq<string>, fetched: seq<Fetch>): (r: seq<BarData>)
    requires |names| == |fetched| && AllPriced(fetched)
    ensures |r| <= |fetched|
    ensures forall b :: b in r ==> b.name in names
  {
    if fetched == [] then []
    else
      var n := |fetched| - 1;
      Bars(names[..n], fetched[..n]) +
        (if Contributes(fetched[n]) then [Bar(names[n], fetched[n].rows)] else [])
  }

  /** `startDate` after the loop: the earliest oldest-row time over contributing markets. */
  function SpanStart(fetched: seq<Fetch>): Option<int>
  {
    if fetched == [] then None
    else
      var n := |fetched| - 1;
      var before := SpanStart(fetched[..n]);
      if Contributes(fetched[n]) then
        var firstDate := Chronological(fetched[n].rows)[0].time;
        if before.None? || firstDate < before.value then Some(firstDate) else before
      else before
  }

  /** `endDate` after the loop: the latest newest-row time over contributing markets. */
  function SpanEnd(fetched: seq<Fetch>): Option<int>
  {
    if fetched == [] then None
    else
      var n := |fetched| - 1;
      var before := SpanEnd(fetched[..n]);
      if Contributes(fetched[n]) then
        var rows := Chronological(fetched[n].rows);
        var lastDate := rows[|rows| - 1].time;
        if before.None? || lastDate > before.value then Some(lastDate) else before
      else before
  }

  /** The sort key of `(a, b) => b.value - a.value`: descending value. */
  function DescendingValue(b: BarData): real { -b.value }

  /** The oldest row of a market is no later than any of its rows, the newest no earlier. */
  lemma ChronologicalEnds(rows: seq<Candle>)
    requires |rows| >= 1
    ensures forall c :: c in rows ==> Chronological(rows)[0].time <= c.time
    ensures forall c :: c in rows ==> c.time <= Chronological(rows)[|rows| - 1].time
    ensures Chronological(rows)[0] in rows && Chronological(rows)[|rows| - 1] in rows
  {
    var sorted := Chronological(rows);
    SortBySorted(rows, TimeKey);
    SortByPermutes(rows, TimeKey);
    forall c | c in rows
      ensures sorted[0].time <= c.time <= sorted[|rows| - 1].time
    {
      assert c in multiset(sorted);
      var k :| 0 <= k < |sorted| && sorted[k] == c;
      assert TimeKey(sorted[0]) <= TimeKey(sorted[k]) <= TimeKey(sorted[|rows| - 1]);
    }
    assert sorted[0] in multiset(rows);
    assert sorted[|rows| - 1] in multiset(rows);
  }

  /** The start of the span exists exactly when some market contributes; it is no later
      than any row of a contributing market and is the time of one of those rows. */
  lemma {:induction false} SpanStartIsEarliest(fetched: seq<Fetch>)
    ensures SpanStart(fetched).Some? <==> exists i :: 0 <= i < |fetched| && Contributes(fetched[i])
    ensures SpanStart(fetched).Some? ==>
      (forall i, c :: 0 <= i < |fetched| && Contributes(fetched[i]) && c in fetched[i].rows ==>
         SpanStart(fetched).value <= c.time) &&
      (exists i, c :: 0 <= i < |fetched| && Contributes(fetched[i]) && c in fetched[i].rows &&
         SpanStart(fetched).value == c.time)
  {
    if fetched != [] {
      var n := |fetched| - 1;
      SpanStartIsEarliest(fetched[..n]);
      assert forall i :: 0 <= i < n ==> fetched[..n][i] == fetched[i];
      if Contributes(fetched[n]) {
        ChronologicalEnds(fetched[n].rows);
      }
    }
  }

  /** The end of the span, symmetrically: no earlier than any contributing row, and one of them. */
  lemma {:induction false} SpanEndIsLatest(fetched: seq<Fetch>)
    ensures SpanEnd(fetched).Some? <==> exists i :: 0 <= i < |fetched| && Contributes(fetched[i])
    ensures SpanEnd(fetched).Some? ==>
      (forall i, c :: 0 <= i < |fetched| && Contributes(fetched[i]) && c in fetched[i].rows ==>
         c.time <= SpanEnd(fetched).value) &&
      (exists i, c :: 0 <= i < |fetched| && Contributes(fetched[i]) && c in fetched[i].rows &&
         SpanEnd(fetched).value == c.time)
  {
    if fetched != [] {
      var n := |fetched| - 1;
      SpanEndIsLatest(fetched[..n]);
      assert forall i :: 0 <= i < n ==> fetched[..n][i] == fetched[i];
      if Contributes(fetched[n]) {
        ChronologicalEnds(fetched[n].rows);
      }
    }
  }

  /** Exactly the markets with at least two rows get a bar. */
  lemma {:induction false} BarsAreTheContributors(names: seq<string>, fetched: seq<Fetch>)
    requires |names| == |fetched| && AllPriced(fetched)
    ensures forall b :: b in Bars(names, fetched) <==>
      exists i :: 0 <= i < |fetched| && Contributes(fetched[i]) && b == Bar(names[i], fetched[i].rows)
  {
    if fetched != [] {
      var n := |fetched| - 1;
      assert AllPriced(fetched[..n]);
      BarsAreTheContributors(names[..n], fetched[..n]);
      assert forall i :: 0 <= i < n ==> fetched[..n][i] == fetched[i] && names[..n][i] == names[i];
    }
  }

  /** The body of the loop for one market that contributes: sort its rows by time in
      place, take the oldest and newest rows, and build the bar. */
  method MarketBar(name: string, rows: seq<Candle>) returns (bar: BarData, firstDate: int, lastDate: int)
    requires |rows| >= 2 && Priced(Loaded(rows))
    ensures bar == Bar(name, rows)
    ensures firstDate == Chronological(rows)[0].time
    ensures lastDate == Chronological(rows)[|rows| - 1].time
  {
    var csvData := SortRowsByTime(rows);
    var firstPrice := csvData[0].close;
    var lastPrice := csvData[|csvData| - 1].close;
    firstDate := csvData[0].time;
    lastDate := csvData[|csvData| - 1].time;
    var percentageChange := ((lastPrice - firstPrice) / firstPrice) * 100.0;
    var fill := LowFill;
    if percentageChange > 60.0 {
      fill := StrongFill;
    } else if percentageChange > 40.0 {
      fill := ModerateFill;
    }
    assert percentageChange == PercentChange(firstPrice, lastPrice);
    assert fill == FillFor(percentageChange);
    bar := BarData(name, RoundToTenth(percentageChange), fill);
  }

  /** `performanceData.sort((a, b) => b.value - a.value)`: best first, ties in push order. */
  method Rank(performanceData: seq<BarData>) returns (ranked: seq<BarData>)
    ensures ranked == SortBy(performanceData, DescendingValue)
    ensures multiset(ranked) == multiset(performanceData)
    ensures forall i, j :: 0 <= i < j < |ranked| ==> ranked[i].value >= ranked[j].value
  {
    var a := new BarData[|performanceData|](k requires 0 <= k < |performanceData| => performanceData[k]);
    assert a[..] == performanceData;
    SortInPlace(a, DescendingValue);
    ranked := a[..];
    forall i, j | 0 <= i < j < |ranked|
      ensures ranked[i].value >= ranked[j].value
    {
      assert DescendingValue(ranked[i]) <= DescendingValue(ranked[j]);
    }
  }

  /** One turn of the loop of `loadData`: when market `i` contributes, push its bar and
      widen the span to cover its oldest and newest rows. */
  method AddMarket(fetched: seq<Fetch>, i: nat, performanceData: seq<BarData>, startDate: Option<int>, endDate: Option<int>)
    returns (performanceData': seq<BarData>, startDate': Option<int>, endDate': Option<int>)
    requires i < |fetched| == |Cryptos| && AllPriced(fetched)
    requires performanceData == Bars(Cryptos[..i], fetched[..i])
    requires startDate == SpanStart(fetched[..i]) && endDate == SpanEnd(fetched[..i])
    ensures performanceData' == Bars(Cryptos[..i + 1], fetched[..i + 1])
    ensures startDate' == SpanStart(fetched[..i + 1]) && endDate' == SpanEnd(fetched[..i + 1])
  {
    assert fetched[..i + 1][..i] == fetched[..i] && Cryptos[..i + 1][..i] == Cryptos[..i];
    assert AllPriced(fetched[..i + 1]);
    performanceData', startDate', endDate' := performanceData, startDate, endDate;
    if fetched[i].Loaded? && |fetched[i].rows| >= 2 {
      var bar, firstDate, lastDate := MarketBar(Cryptos[i], fetched[i].rows);
      if startDate.None? || firstDate < startDate.value {
        startDate' := Some(firstDate);
      }
      if endDate.None? || lastDate > endDate.value {
        endDate' := Some(lastDate);
      }
      performanceData' := performanceData + [bar];
    }
  }

  /** The loop of `loadData` over the markets: push one bar per contributing market
      while widening the span from `startDate` to `endDate`. */
  method CollectBars(fetched: seq<Fetch>) returns (performanceData: seq<BarData>, startDate: Option<int>, endDate: Option<int>)
    requires |fetched| == |Cryptos| && AllPriced(fetched)
    ensures performanceData == Bars(Cryptos, fetched)
    ensures startDate == SpanStart(fetched) && endDate == SpanEnd(fetched)
  {
    performanceData := [];
    startDate := None;
    endDate := None;
    var i := 0;
    while i < |Cryptos|
      invariant 0 <= i <= |Cryptos|
      invariant performanceData == Bars(Cryptos[..i], fetched[..i])
      invariant startDate == SpanStart(fetched[..i])
      invariant endDate == SpanEnd(fetched[..i])
    {
      performanceData, startDate, endDate := AddMarket(fetched, i, performanceData, startDate, endDate);
      i := i + 1;
    }
    assert fetched[..i] == fetched && Cryptos[..i] == Cryptos;
  }

  /** `loadData` once every fetch has settled: collect the bars and the span, rank the
      bars, and report the span only when both of its ends were found. */
  method LoadPerformance(fetched: seq<Fetch>) returns (data: seq<BarData>, dateRange: Option<(int, int)>)
    requires |fetched| == |Cryptos| && AllPriced(fetched)
    ensures data == SortBy(Bars(Cryptos, fetched), DescendingValue)
    ensures multiset(data) == multiset(Bars(Cryptos, fetched))
    ensures forall i, j :: 0 <= i < j < |data| ==> data[i].value >= data[j].value
    ensures dateRange.Some? <==> exists i :: 0 <= i < |fetched| && Contributes(fetched[i])
    ensures dateRange.Some? ==> SpanStart(fetched) == Some(dateRange.value.0) && SpanEnd(fetched) == Some(dateRange.value.1)
  {
    var performanceData, startDate, endDate := CollectBars(fetched);
    data := Rank(performanceData);
    SpanStartIsEarliest(fetched);
    SpanEndIsLatest(fetched);
    if startDate.Some? && endDate.Some? {
      dateRange := Some((startDate.value, endDate.value));
    } else {
      dateRange := None;
    }
  }

  /** The label under a bar and in its tooltip: `name.split('-')[0]`, the part of the
      name before its first '-' (the whole name when it has none). */
  function Ticker(name: string): (t: string)
    ensures |t| <= |name| && t == name[..|t|]
    ensures '-' !in t
    ensures |t| < |name| ==> name[|t|] == '-'
  {
    if name == [] || name[0] == '-' then []
    else [name[0]] + Ticker(name[1..])
  }

  /** `getOpacity`: full when nothing is selected (null or the empty string) or the bar
      is the selected one, faded otherwise. */
  function Opacity(name: string, selectedCrypto: Option<string>): (r: real)
    ensures r == 1.0 <==> selectedCrypto == None || selectedCrypto == Some("") || selectedCrypto == Some(name)
    ensures r != 1.0 ==> r == 0.3
  {
    if selectedCrypto == None || selectedCrypto == Some("") then 1.0
    else if name == selectedCrypto.value then 1.0
    else 0.3
  }

  /** The tooltip: shown only while active over a non-empty payload, with the ticker of
      the first entry and its value. */
  function Tooltip(active: bool, payload: seq<BarData>): (r: Option<(string, real)>)
    ensures r.Some? <==> active && |payload| > 0
    ensures r.Some? ==> r.value == (Ticker(payload[0].name), payload[0].value)
  {
    if active && |payload| > 0 then Some((Ticker(payload[0].name), payload[0].value)) else None
  }

  /** The component's state: the ranked bars, the period shown under the title (absent
      until a span is known) and the market selected through the shared context. */
  class BarChart {
    var data: seq<BarData>
    var dateRange: Option<(int, int)>
    var selectedCrypto: Option<string>

    constructor (selectedCrypto: Option<string>)
      ensures data == [] && dateRange == None && this.selectedCrypto == selectedCrypto
    {
      data := [];
      dateRange := None;
      this.selectedCrypto := selectedCrypto;
    }

    /** The mount effect: load, rank, and set the period only when a span was found. */
    method LoadData(fetched: seq<Fetch>)
      requires |fetched| == |Cryptos| && AllPriced(fetched)
      modifies this
      ensures data == SortBy(Bars(Cryptos, fetched), DescendingValue)
      ensures (exists i :: 0 <= i < |fetched| && Contributes(fetched[i])) ==>
        dateRange.Some? && SpanStart(fetched) == Some(dateRange.value.0) && SpanEnd(fetched) == Some(dateRange.value.1)
      ensures (forall i :: 0 <= i < |fetched| ==> !Contributes(fetched[i])) ==> dateRange == old(dateRange)
      ensures selectedCrypto == old(selectedCrypto)
    {
      var ranked, range := LoadPerformance(fetched);
      data := ranked;
      if range.Some? {
        dateRange := range;
      }
    }

    /** A click on bar `index` selects its market. */
    method SelectBar(index: nat)
      requires index < |data|
      modifies this`selectedCrypto
      ensures selectedCrypto == Some(data[index].name)
    {
      selectedCrypto := Some(data[index].name);
    }
  }
}
