/** The technical-signal line of the portfolio bubble chart's tooltip
    (src/components/PortfolioBubbleChart.tsx): a four-way threshold classification of
    an asset's technical score. */
module PortfolioBubbleChart {
  import opened Options

  /** The four signals, weakest first. */
  datatype Signal = Sell | Hold | Buy | StrongBuy

  /** A signal's rank in strength, 0 for Sell up to 3 for Strong Buy. */
  function Strength(s: Signal): nat
  {
    match s
    case Sell => 0
    case Hold => 1
    case Buy => 2
    case StrongBuy => 3
  }

  /** The text shown for a signal. */
  function Label(s: Signal): string
  {
    match s
    case Sell => "Sell"
    case Hold => "Hold"
    case Buy => "Buy"
    case StrongBuy => "Strong Buy"
  }

  /** The classification by score: 70 and above, from 60, from 50, and below 50. */
  function Classify(score: real): (s: Signal)
    ensures s == StrongBuy <==> score >= 70.0
    ensures s == Buy <==> 60.0 <= score < 70.0
    ensures s == Hold <==> 50.0 <= score < 60.0
    ensures s == Sell <==> score < 50.0
  {
    if score >= 70.0 then StrongBuy
    else if score >= 60.0 then Buy
    else if score >= 50.0 then Hold
    else Sell
  }

  /** Distinct signals have distinct texts, so the text tells the signal. */
  lemma LabelsAreDistinct(s: Signal, t: Signal)
    requires Label(s) == Label(t)
    ensures s == t
  {
  }

  /** A higher score never gets a weaker signal. */
  lemma ClassifyIsMonotone(score: real, higher: real)
    requires score <= higher
    ensures Strength(Classify(score)) <= Strength(Classify(higher))
  {
  }

  /** The tooltip's `let technicalSignal`: "Sell", overwritten by the first threshold
      the score reaches, checked from the highest down. */
  method TechnicalSignal(score: real) returns (technicalSignal: string)
    ensures technicalSignal == Label(Classify(score))
  {
    technicalSignal := "Sell";
    if score >= 70.0 {
      technicalSignal := "Strong Buy";
    } else if score >= 60.0 {
      technicalSignal := "Buy";
    } else if score >= 50.0 {
      technicalSignal := "Hold";
    }
  }

  /** The fields of a portfolio record the tooltip reads. */
  datatype Asset = Asset(market: string, expectedReturn: real, risk: real, marketCap: real,
                         technicalScore: real, sharpeRatio: real)

  /** What the tooltip shows: the first payload entry's market and its signal. */
  datatype TooltipContent = TooltipContent(market: string, signal: string, score: real)

  /** `CustomTooltip`: content only while the tooltip is active and the payload is
      non-empty, null otherwise. */
  method CustomTooltip(active: bool, payload: seq<Asset>) returns (content: Option<TooltipContent>)
    ensures content.Some? <==> active && |payload| > 0
    ensures content.Some? ==>
      content.value == TooltipContent(payload[0].market, Label(Classify(payload[0].technicalScore)),
                                      payload[0].technicalScore)
  {
    if active && |payload| > 0 {
      var data := payload[0];
      var technicalSignal := TechnicalSignal(data.technicalScore);
      content := Some(TooltipContent(data.market, technicalSignal, data.technicalScore));
    } else {
      content := None;
    }
  }
}
