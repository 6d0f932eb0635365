/** The indicator-correlation table (src/components/CorrelationHeatmap.tsx): a row of
    correlation values per instrument, shown either for one instrument or averaged over
    all of them, each value with a bar whose colour and width follow the value. */
module CorrelationHeatmap {
  import opened Options
  import opened Numeric

  /** One key of the `data` object: an instrument and its pair-name to value row. */
  datatype Entry = Entry(crypto: string, row: map<string, real>)

  /** A JavaScript value where the table expects a number: `undefined` (or `null`),
      `NaN`, or a number. */
  datatype JsNumber = Undefined | NaN | Num(value: real)

  /** The background of a value's bar: a fixed grey, an rgb colour, or the text
      `rgb(255, NaN, NaN)` that a NaN value produces. */
  datatype Color = Hex(code: string) | Rgb(red: int, green: int, blue: int) | Malformed(code: string)

  const MissingColor: string := "#f5f5f5"
  const NaNColor: string := "rgb(255, NaN, NaN)"

  function Abs(v: real): real { if v >= 0.0 then v else -v }

  /** `Math.floor(255 * Math.min(Math.abs(value), 1))`. */
  function Intensity(value: real): (k: int)
    ensures 0 <= k <= 255
    ensures Abs(value) >= 1.0 ==> k == 255
    ensures value == 0.0 ==> k == 0
  {
    var clamped := if Abs(value) < 1.0 then Abs(value) else 1.0;
    (255.0 * clamped).Floor
  }

  /** `getColor`: grey for null or undefined; a blue tint for a positive value, a red
      tint for zero or a negative one, deeper as the magnitude grows towards 1. NaN is
      not positive, so it takes the red branch and its channels print as NaN. */
  function GetColor(value: JsNumber): (c: Color)
    ensures c.Hex? <==> value.Undefined?
    ensures c.Hex? ==> c.code == MissingColor
    ensures c.Malformed? <==> value.NaN?
    ensures c.Malformed? ==> c.code == NaNColor
    ensures c.Rgb? ==> 0 <= c.red <= 255 && 0 <= c.green <= 255 && 0 <= c.blue <= 255
    ensures value.Num? && value.value > 0.0 ==>
      c.blue == 255 && c.red == c.green == 255 - Intensity(value.value)
    ensures value.Num? && value.value <= 0.0 ==>
      c.red == 255 && c.green == c.blue == 255 - Intensity(value.value)
    ensures value == Num(0.0) ==> c == Rgb(255, 255, 255)
  {
    match value
    case Undefined => Hex(MissingColor)
    case NaN => Malformed(NaNColor)
    case Num(v) =>
      if v > 0.0 then
        var blue := Intensity(v);
        Rgb(255 - blue, 255 - blue, 255)
      else
        var red := Intensity(v);
        Rgb(255, 255 - red, 255 - red)
  }

  /** Beyond a magnitude of 1 the colour saturates: it is the colour of +1 or -1. */
  lemma ColorSaturates(v: real)
    requires Abs(v) >= 1.0
    ensures GetColor(Num(v)) == GetColor(Num(if v > 0.0 then 1.0 else -1.0))
  {
  }

  /** A stronger correlation of the same sign never gets a lighter colour. */
  lemma ColorDeepens(v: real, w: real)
    requires 0.0 < v <= w || w <= v <= 0.0
    ensures Intensity(v) <= Intensity(w)
    ensures 0.0 < v ==> GetColor(Num(w)).red <= GetColor(Num(v)).red
    ensures v <= 0.0 ==> GetColor(Num(w)).green <= GetColor(Num(v)).green
  {
    var cv := if Abs(v) < 1.0 then Abs(v) else 1.0;
    var cw := if Abs(w) < 1.0 then Abs(w) else 1.0;
    assert 255.0 * cv <= 255.0 * cw;
  }

  /** The width of a value's bar, in percent of its track: `Math.abs(value * 100)`,
      which is NaN for NaN and for undefined. */
  function BarWidth(value: JsNumber): (w: JsNumber)
    ensures w.Num? <==> value.Num?
    ensures !w.Num? ==> w == NaN
    ensures w.Num? ==> w.value >= 0.0 && w.value == 100.0 * Abs(value.value)
    ensures w.Num? && Abs(value.value) <= 1.0 ==> w.value <= 100.0
  {
    match value
    case Num(v) => Num(Abs(v * 100.0))
    case _ => NaN
  }

  /** `data[crypto]`: the row of an instrument, or undefined. */
  function Lookup(table: seq<Entry>, crypto: string): (r: Option<map<string, real>>)
    ensures r.Some? <==> exists i :: 0 <= i < |table| && table[i].crypto == crypto
    ensures r.Some? ==> exists i :: 0 <= i < |table| && table[i].crypto == crypto && table[i].row == r.value
  {
    if table == [] then None
    else if table[0].crypto == crypto then Some(table[0].row)
    else Lookup(table[1..], crypto)
  }

  /** Every instrument has a value for `pair`. */
  predicate HasPair(table: seq<Entry>, pair: string)
  {
    forall i :: 0 <= i < |table| ==> pair in table[i].row
  }

  /** The values of `pair`, instrument by instrument. */
  function Column(table: seq<Entry>, pair: string): (col: seq<real>)
    requires HasPair(table, pair)
    ensures |col| == |table| && forall i :: 0 <= i < |table| ==> col[i] == table[i].row[pair]
  {
    seq(|table|, i requires 0 <= i < |table| => table[i].row[pair])
  }

  /** `cryptoPairs.reduce((acc, crypto) => acc + data[crypto][pair], 0)`: the sum of the
      column when every instrument has the pair; adding `undefined` gives NaN, and NaN
      stays NaN, as soon as one instrument lacks it. */
  function ColumnSum(table: seq<Entry>, pair: string): (r: JsNumber)
    ensures r.Num? <==> HasPair(table, pair)
    ensures !r.Num? ==> r == NaN
    ensures r.Num? ==> r.value == Sum(Column(table, pair))
  {
    if table == [] then Num(0.0)
    else
      var n := |table| - 1;
      var acc := ColumnSum(table[..n], pair);
      assert HasPair(table, pair) ==> Column(table, pair)[..n] == Column(table[..n], pair);
      if acc.Num? && pair in table[n].row then Num(acc.value + table[n].row[pair]) else NaN
  }

  /** `averages[pair] = sum / cryptoPairs.length`: NaN divided by a count is NaN. */
  function Average(table: seq<Entry>, pair: string): (r: JsNumber)
    requires |table| > 0
    ensures r.Num? <==> HasPair(table, pair)
    ensures !r.Num? ==> r == NaN
  {
    match ColumnSum(table, pair)
    case Num(sum) => Num(sum / (|table| as real))
    case _ => NaN
  }

  /** The average of a pair every instrument has is the mean of its column, so it lies
      between the column's smallest and largest values. */
  lemma AverageWithinColumn(table: seq<Entry>, pair: string)
    requires |table| > 0 && HasPair(table, pair)
    ensures Average(table, pair) == Num(Mean(Column(table, pair)))
    ensures Min(Column(table, pair)).value <= Average(table, pair).value <= Max(Column(table, pair)).value
  {
    MeanWithinExtremes(Column(table, pair));
  }

  /** `getAverageCorrelations`: for every pair key of the 'BTC-EUR' row, the average of
      that pair over all instruments. */
  method GetAverageCorrelations(table: seq<Entry>) returns (averages: map<string, JsNumber>)
    requires Lookup(table, "BTC-EUR").Some?
    ensures averages.Keys == Lookup(table, "BTC-EUR").value.Keys
    ensures forall pair :: pair in averages ==> averages[pair] == Average(table, pair)
  {
    var correlationPairs := Lookup(table, "BTC-EUR").value.Keys;
    averages := map[];
    var remaining := correlationPairs;
    while remaining != {}
      invariant remaining <= correlationPairs
      invariant averages.Keys == correlationPairs - remaining
      invariant forall pair :: pair in averages ==> averages[pair] == Average(table, pair)
      decreases remaining
    {
      var pair :| pair in remaining;
      var sum := ColumnSum(table, pair);
      averages := averages[pair := if sum.Num? then Num(sum.value / (|table| as real)) else NaN];
      remaining := remaining - {pair};
    }
  }

  /** `displayData`: the averages under "ALL", otherwise the chosen instrument's row
      unchanged (None when the table has no such instrument). */
  method DisplayData(table: seq<Entry>, activeCrypto: string) returns (shown: Option<map<string, JsNumber>>)
    requires Lookup(table, "BTC-EUR").Some?
    ensures activeCrypto == "ALL" ==>
      && shown.Some?
      && shown.value.Keys == Lookup(table, "BTC-EUR").value.Keys
      && forall pair :: pair in shown.value ==> shown.value[pair] == Average(table, pair)
    ensures activeCrypto != "ALL" ==> (shown.Some? <==> Lookup(table, activeCrypto).Some?)
    ensures activeCrypto != "ALL" && shown.Some? ==>
      && shown.value.Keys == Lookup(table, activeCrypto).value.Keys
      && forall pair :: pair in shown.value ==> shown.value[pair] == Num(Lookup(table, activeCrypto).value[pair])
  {
    if activeCrypto == "ALL" {
      var averages := GetAverageCorrelations(table);
      shown := Some(averages);
    } else {
      match Lookup(table, activeCrypto)
      case None =>
        shown := None;
      case Some(row) =>
        shown := Some(map pair | pair in row :: Num(row[pair]));
    }
  }

  /** The component's state: the instrument whose row is shown, "ALL" at first. */
  class CorrelationHeatmap {
    const data: seq<Entry>
    var activeCrypto: string

    constructor (data: seq<Entry>)
      ensures this.data == data && activeCrypto == "ALL"
    {
      this.data := data;
      activeCrypto := "ALL";
    }

    /** A click on the "ALL" button or on an instrument's button. */
    method SetActiveCrypto(crypto: string)
      modifies this`activeCrypto
      ensures activeCrypto == crypto
    {
      activeCrypto := crypto;
    }
  }
}
