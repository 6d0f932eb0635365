/** The volume strip under the candlesticks (src/components/VolumeChart.tsx): its
    trailing moving average of volume, drawn as a line over the bars. */
module VolumeChart {
  import opened Candles
  import opened Numeric
  import opened Options
  import opened Sorting

  /** The chart averages over the last five rows. */
  const VolumeWindow: int := 5

  datatype MovingAveragePoint = MovingAveragePoint(time: int, avg: real)

  /** d3.mean over numbers: `undefined` for an empty list, the arithmetic mean otherwise. */
  function D3Mean(xs: seq<real>): (r: Option<real>)
    ensures xs == [] <==> r == None
  {
    if xs == [] then None else Some(Mean(xs))
  }

  /** `m || 0`: `undefined` becomes 0 (and so does 0, unchanged). */
  function OrZero(m: Option<real>): (r: real)
    ensures r == 0.0 <==> m == None || m == Some(0.0)
    ensures m.Some? ==> r == m.value
  {
    match m
    case None => 0.0
    case Some(v) => v
  }

  /** A window of w >= 1 rows is never empty, so the `|| 0` fallback never replaces its mean. */
  lemma FallbackNeverFires(window: seq<Candle>)
    requires |window| >= 1
    ensures OrZero(D3Mean(Volumes(window))) == Mean(Volumes(window))
  {
  }

  /** `movingAvg(data, windowSize)`: for every row i from windowSize - 1 on, the mean
      volume of the windowSize rows ending at i, dated with row i. */
  method MovingAvg(data: seq<Candle>, windowSize: int) returns (means: seq<MovingAveragePoint>)
    requires windowSize >= 1
    ensures |means| == if |data| >= windowSize then |data| - windowSize + 1 else 0
    ensures forall k :: 0 <= k < |means| ==>
      means[k].time == data[k + windowSize - 1].time &&
      means[k].avg == Mean(Volumes(data[k..k + windowSize]))
    ensures forall k :: 0 <= k < |means| ==>
      Min(Volumes(data[k..k + windowSize])).value <= means[k].avg <= Max(Volumes(data[k..k + windowSize])).value
    ensures SortedBy(data, TimeKey) ==> forall k, l :: 0 <= k < l < |means| ==> means[k].time <= means[l].time
  {
    means := [];
    var i := windowSize - 1;
    while i < |data|
      invariant windowSize - 1 <= i
      invariant i <= |data| || i == windowSize - 1
      invariant |means| == i - windowSize + 1
      invariant forall k :: 0 <= k < |means| ==>
        means[k] == MovingAveragePoint(data[k + windowSize - 1].time, Mean(Volumes(data[k..k + windowSize])))
    {
      var window := data[i - windowSize + 1..i + 1];
      var avg := OrZero(D3Mean(Volumes(window)));
      FallbackNeverFires(window);
      means := means + [MovingAveragePoint(data[i].time, avg)];
      i := i + 1;
    }
    forall k | 0 <= k < |means|
      ensures Min(Volumes(data[k..k + windowSize])).value <= means[k].avg <= Max(Volumes(data[k..k + windowSize])).value
    {
      MeanWithinExtremes(Volumes(data[k..k + windowSize]));
    }
    if SortedBy(data, TimeKey) {
      forall k, l | 0 <= k < l < |means|
        ensures means[k].time <= means[l].time
      {
        assert TimeKey(data[k + windowSize - 1]) <= TimeKey(data[l + windowSize - 1]);
      }
    }
  }

  /** The line the chart draws: `movingAvg(data, 5)`, one point per row from the fifth on. */
  method AverageLine(data: seq<Candle>) returns (line: seq<MovingAveragePoint>)
    ensures |line| == if |data| >= 5 then |data| - 4 else 0
    ensures forall k :: 0 <= k < |line| ==>
      line[k].time == data[k + 4].time && line[k].avg == Mean(Volumes(data[k..k + 5]))
  {
    line := MovingAvg(data, VolumeWindow);
  }
}
