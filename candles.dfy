/** One candle (one row of a `candles/<market>.csv` snapshot) after parsing. */
module Candles {
  import opened Sorting

  /** `time` is the row's timestamp in milliseconds since the Unix epoch (the CSV's
      `time` column, or `new Date(date)` of a date string); prices and volume are exact reals. */
  datatype Candle = Candle(time: int, open: real, high: real, low: real, close: real, volume: real)

  /** A day that closed above its open ("Up"). */
  predicate Rising(c: Candle) { c.close > c.open }

  /** A day that closed below its open ("Down"). */
  predicate Falling(c: Candle) { c.close < c.open }

  /** The sort key of `(a, b) => a.time - b.time`. */
  function TimeKey(c: Candle): real { c.time as real }

  function Volumes(s: seq<Candle>): (r: seq<real>)
    ensures |r| == |s| && forall i :: 0 <= i < |s| ==> r[i] == s[i].volume
  {
    seq(|s|, i requires 0 <= i < |s| => s[i].volume)
  }

  function Lows(s: seq<Candle>): (r: seq<real>)
    ensures |r| == |s| && forall i :: 0 <= i < |s| ==> r[i] == s[i].low
  {
    seq(|s|, i requires 0 <= i < |s| => s[i].low)
  }

  function Highs(s: seq<Candle>): (r: seq<real>)
    ensures |r| == |s| && forall i :: 0 <= i < |s| ==> r[i] == s[i].high
  {
    seq(|s|, i requires 0 <= i < |s| => s[i].high)
  }

  /** Rows sorted by `(a, b) => a.time - b.time`: mapped into a fresh array in file
      order, then sorted in place. */
  method SortRowsByTime(parsed: seq<Candle>) returns (rows: seq<Candle>)
    ensures rows == SortBy(parsed, TimeKey)
    ensures SortedBy(rows, TimeKey) && multiset(rows) == multiset(parsed)
  {
    var processed := new Candle[|parsed|](i requires 0 <= i < |parsed| => parsed[i]);
    assert processed[..] == parsed;
    SortInPlace(processed, TimeKey);
    rows := processed[..];
  }
}
