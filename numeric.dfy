/** Exact real arithmetic over lists of numbers: the sums, means and extrema the
    charts compute with reduce, d3.mean, Math.min and Math.max. */
module Numeric {

  /** Array.prototype.reduce((acc, x) => acc + x, 0): addition folded from the left, starting at 0. */
  function Sum(xs: seq<real>): real
  {
    if xs == [] then 0.0 else Sum(xs[..|xs| - 1]) + xs[|xs| - 1]
  }

  /** The arithmetic mean of a non-empty list. */
  function Mean(xs: seq<real>): real
    requires xs != []
  {
    Sum(xs) / (|xs| as real)
  }

  /** JavaScript numbers extended by the two infinities that Math.min and Math.max
      return when called with no arguments. */
  datatype ExtReal = NegInfinity | Finite(value: real) | PosInfinity

  /** Math.min(...xs). */
  function Min(xs: seq<real>): (r: ExtReal)
    ensures xs == [] <==> r.PosInfinity?
    ensures xs != [] ==> r.Finite? && r.value in xs
    ensures r.Finite? ==> forall i :: 0 <= i < |xs| ==> r.value <= xs[i]
  {
    if xs == [] then PosInfinity
    else
      var m := Min(xs[1..]);
      if m.Finite? && m.value < xs[0] then m else Finite(xs[0])
  }

  /** Math.max(...xs). */
  function Max(xs: seq<real>): (r: ExtReal)
    ensures xs == [] <==> r.NegInfinity?
    ensures xs != [] ==> r.Finite? && r.value in xs
    ensures r.Finite? ==> forall i :: 0 <= i < |xs| ==> xs[i] <= r.value
  {
    if xs == [] then NegInfinity
    else
      var m := Max(xs[1..]);
      if m.Finite? && m.value > xs[0] then m else Finite(xs[0])
  }

  /** A sum of n terms, each between lo and hi, lies between n * lo and n * hi. */
  lemma {:induction false} SumBounds(xs: seq<real>, lo: real, hi: real)
    requires forall i :: 0 <= i < |xs| ==> lo <= xs[i] <= hi
    ensures (|xs| as real) * lo <= Sum(xs) <= (|xs| as real) * hi
  {
    if xs != [] {
      var n := |xs| - 1;
      SumBounds(xs[..n], lo, hi);
      assert (|xs| as real) * lo == (n as real) * lo + lo;
      assert (|xs| as real) * hi == (n as real) * hi + hi;
    }
  }

  /** A mean lies within any bounds of its terms. */
  lemma MeanBounds(xs: seq<real>, lo: real, hi: real)
    requires xs != []
    requires forall i :: 0 <= i < |xs| ==> lo <= xs[i] <= hi
    ensures lo <= Mean(xs) <= hi
  {
    var n := |xs| as real;
    SumBounds(xs, lo, hi);
    assert Mean(xs) * n == Sum(xs);
    MultiplyOutBound(lo, Mean(xs), n);
    MultiplyOutBound(Mean(xs), hi, n);
  }

  lemma MultiplyOutBound(a: real, b: real, n: real)
    requires n > 0.0 && a * n <= b * n
    ensures a <= b
  {
    assert (b - a) * n >= 0.0;
  }

  /** The mean spread over every term gives back the sum. */
  lemma MeanTimesCount(xs: seq<real>, n: real)
    requires xs != [] && n == |xs| as real
    ensures Mean(xs) * n == Sum(xs)
  {
    var total := Sum(xs);
    assert Mean(xs) == total / n;
    assert (total / n) * n == total;
  }

  /** A mean lies between the smallest and the largest of its terms. */
  lemma MeanWithinExtremes(xs: seq<real>)
    requires xs != []
    ensures Min(xs).value <= Mean(xs) <= Max(xs).value
  {
    MeanBounds(xs, Min(xs).value, Max(xs).value);
  }
}
