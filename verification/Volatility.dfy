/** Bollinger bands, over an abstract square root. */
module Volatility {
  import opened Numbers
  import opened Series

  datatype Bands = Bands(upper: Num, middle: Num, lower: Num)

  function Squares(xs: seq<real>, mean: real): seq<real> {
    seq(|xs|, j requires 0 <= j < |xs| => (xs[j] - mean) * (xs[j] - mean))
  }

  function BandsFrom(mean: real, mult: real, stdDev: real): Bands {
    Bands(Val(mean + mult * stdDev), Val(mean), Val(mean - mult * stdDev))
  }

  /** Period 0 divides nothing by nothing; a negative one has an empty window whose mean and variance are zero. */
  function BandsAt(closes: seq<real>, period: int, mult: real, sqrt: real -> real, i: nat): Bands
    requires i < |closes|
  {
    if i < period || period == 0 then Bands(NaN, NaN, NaN)
    else if period < 0 then BandsFrom(0.0, mult, sqrt(0.0))
    else
      var sma := SumIn(closes, i - period, i) / period as real;
      BandsFrom(sma, mult, sqrt(SumIn(Squares(closes, sma), i - period, i) / period as real))
  }

  method BollingerBands(closes: seq<real>, period: int, mult: real, sqrt: real -> real)
    returns (upper: array<Num>, middle: array<Num>, lower: array<Num>)
    ensures upper.Length == middle.Length == lower.Length == |closes|
    ensures forall i :: 0 <= i < |closes| ==> Bands(upper[i], middle[i], lower[i]) == BandsAt(closes, period, mult, sqrt, i)
  {
    var n := |closes|;
    upper, middle, lower := new Num[n](_ => NaN), new Num[n](_ => NaN), new Num[n](_ => NaN);
    hide Squares, BandsFrom;
    for i := 0 to n
      invariant forall k :: 0 <= k < i ==> Bands(upper[k], middle[k], lower[k]) == BandsAt(closes, period, mult, sqrt, k)
    {
      if i < period || period == 0 {
        upper[i], middle[i], lower[i] := NaN, NaN, NaN;
        continue;
      }
      var sum := SumOver(closes, i - period, i);
      var sma := sum / period as real;
      var variance := SumOfSquares(closes, sma, i - period, i);
      var bands := BandsFrom(sma, mult, sqrt(variance / period as real));
      upper[i], middle[i], lower[i] := bands.upper, bands.middle, bands.lower;
    }
  }

  method SumOfSquares(closes: seq<real>, sma: real, lo: nat, hi: nat) returns (variance: real)
    requires hi <= |closes|
    ensures variance == if lo <= hi then SumIn(Squares(closes, sma), lo, hi) else 0.0
  {
    variance := 0.0;
    var j := lo;
    while j < hi
      invariant lo <= j
      invariant if lo <= hi then j <= hi && variance == SumIn(Squares(closes, sma), lo, j) else variance == 0.0
    {
      var diff := closes[j] - sma;
      variance := variance + diff * diff;
      j := j + 1;
    }
  }

  lemma {:induction false} BandsSeeOnlyPast(
      a: seq<real>, b: seq<real>, period: int, mult: real, sqrt: real -> real, i: nat)
    requires i < |a| && Agree(a, b, i)
    ensures BandsAt(a, period, mult, sqrt, i) == BandsAt(b, period, mult, sqrt, i)
  {
    if 1 <= period <= i {
      SumAgrees(a, b, i - period, i);
      var sma := SumIn(a, i - period, i) / period as real;
      SumAgrees(Squares(a, sma), Squares(b, sma), i - period, i);
    }
  }

  lemma {:induction false} SquareNonNegative(x: real)
    ensures x * x >= 0.0
  {}

  /** The bands keep their order for any root that is not negative: the variance under it never is. */
  lemma {:induction false} BandsOrdered(closes: seq<real>, period: nat, mult: real, sqrt: real -> real, i: nat)
    requires 1 <= period <= i < |closes| && mult >= 0.0 && forall x :: x >= 0.0 ==> sqrt(x) >= 0.0
    ensures var b := BandsAt(closes, period, mult, sqrt, i);
      b.upper.Val? && b.middle.Val? && b.lower.Val? && b.lower.v <= b.middle.v <= b.upper.v
  {
    var sma := SumIn(closes, i - period, i) / period as real;
    forall j | 0 <= j < |closes| ensures Squares(closes, sma)[j] >= 0.0 {
      SquareNonNegative(closes[j] - sma);
    }
    SumNonNegative(Squares(closes, sma), i - period, i);
    var variance := SumIn(Squares(closes, sma), i - period, i);
    assert variance / period as real >= 0.0;
    ProductNonNegative(mult, sqrt(variance / period as real));
  }
}
