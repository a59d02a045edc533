/** Oscillators built on moving averages and rolling extremes: RSI, MACD, Stochastic, Williams %R, CCI, ROC,
    Chaikin money flow. */
module Momentum {
  import opened Numbers
  import opened Series
  import opened Trend

  // ----- RSI -----

  /** The gain (loss) of each bar over the one before it; 0 for the first bar. */
  function Gains(closes: seq<real>): seq<real> {
    seq(|closes|, j requires 0 <= j < |closes| =>
      if j == 0 || closes[j] - closes[j - 1] < 0.0 then 0.0 else closes[j] - closes[j - 1])
  }

  function Losses(closes: seq<real>): seq<real> {
    seq(|closes|, j requires 0 <= j < |closes| =>
      if j == 0 || closes[j] - closes[j - 1] >= 0.0 then 0.0 else closes[j - 1] - closes[j])
  }

  function RsiFrom(avgGain: real, avgLoss: real): real
    requires avgGain >= 0.0 && avgLoss >= 0.0
  {
    if avgLoss == 0.0 then (if avgGain == 0.0 then 50.0 else 100.0)
    else
      var rs := avgGain / avgLoss;
      QuotientNonNegative(avgGain, avgLoss);
      100.0 - 100.0 / (1.0 + rs)
  }

  lemma {:induction false} QuotientNonNegative(x: real, y: real)
    requires x >= 0.0 && y > 0.0
    ensures x / y >= 0.0
  {}

  /** The usual reading of the formula: the gains' share of all movement. */
  lemma {:induction false} RsiIsShare(g: real, l: real)
    requires g >= 0.0 && l >= 0.0 && g + l > 0.0
    ensures RsiFrom(g, l) == 100.0 * g / (g + l)
  {}

  lemma {:induction false} AveragesNonNegative(closes: seq<real>, period: nat, i: nat)
    requires 1 <= period <= i < |closes|
    ensures Wilder(Gains(closes), period, i) >= 0.0 && Wilder(Losses(closes), period, i) >= 0.0
  {
    WilderNonNegative(Gains(closes), period, i);
    WilderNonNegative(Losses(closes), period, i);
  }

  function RsiAt(closes: seq<real>, period: int, i: nat): Num
    requires i < |closes|
  {
    if period < 1 || |closes| <= period + 1 || i <= period then NaN
    else
      AveragesNonNegative(closes, period, i - 1);
      Val(RsiFrom(Wilder(Gains(closes), period, i - 1), Wilder(Losses(closes), period, i - 1)))
  }

  method RSI(closes: seq<real>, period: int) returns (out: array<Num>)
    ensures out.Length == |closes| && forall i :: 0 <= i < |closes| ==> out[i] == RsiAt(closes, period, i)
  {
    out := new Num[|closes|](_ => NaN);
    if period < 1 || |closes| <= period + 1 {
      return;
    }
    var gain, loss := SumMoves(closes, period);
    var avgGain, avgLoss := gain / period as real, loss / period as real;
    AveragesNonNegative(closes, period, period);
    out[period + 1] := Val(RsiFrom(avgGain, avgLoss));
    for i := period + 1 to |closes| - 1
      invariant avgGain == Wilder(Gains(closes), period, i - 1) && avgLoss == Wilder(Losses(closes), period, i - 1)
      invariant forall k {:trigger out[k]} :: 0 <= k <= i ==> out[k] == RsiAt(closes, period, k)
    {
      avgGain, avgLoss := SmoothMove(closes, period, i, avgGain, avgLoss);
      AveragesNonNegative(closes, period, i);
      out[i + 1] := Val(RsiFrom(avgGain, avgLoss));
    }
  }

  /** One turn of RSI's smoothing loop. */
  method SmoothMove(closes: seq<real>, period: nat, i: nat, gain0: real, loss0: real)
    returns (avgGain: real, avgLoss: real)
    requires 1 <= period < i < |closes|
    requires gain0 == Wilder(Gains(closes), period, i - 1) && loss0 == Wilder(Losses(closes), period, i - 1)
    ensures avgGain == Wilder(Gains(closes), period, i) && avgLoss == Wilder(Losses(closes), period, i)
  {
    var d := closes[i] - closes[i - 1];
    var g, l := 0.0, 0.0;
    if d >= 0.0 {
      g := d;
    } else {
      l := -d;
    }
    avgGain, avgLoss := WilderStep(gain0, g, period), WilderStep(loss0, l, period);
  }

  /** RSI's seed loop. */
  method SumMoves(closes: seq<real>, period: nat) returns (gain: real, loss: real)
    requires period < |closes|
    ensures gain == SumIn(Gains(closes), 1, period + 1) && loss == SumIn(Losses(closes), 1, period + 1)
  {
    gain, loss := 0.0, 0.0;
    for i := 1 to period + 1
      invariant gain == SumIn(Gains(closes), 1, i) && loss == SumIn(Losses(closes), 1, i)
    {
      var d := closes[i] - closes[i - 1];
      if d >= 0.0 {
        gain := gain + d;
      } else {
        loss := loss - d;
      }
    }
  }

  lemma {:induction false} RsiSeesOnlyPast(a: seq<real>, b: seq<real>, period: int, i: nat)
    requires i < |a| && Agree(a, b, i)
    ensures RsiAt(a, period, i) == RsiAt(b, period, i)
  {
    if 1 <= period < i && |a| > period + 1 {
      WilderAgrees(Gains(a), Gains(b), period, i - 1);
      WilderAgrees(Losses(a), Losses(b), period, i - 1);
    }
  }

  lemma {:induction false} RsiBetween(closes: seq<real>, period: int, i: nat)
    requires 1 <= period < i < |closes| && |closes| > period + 1
    ensures Between(RsiAt(closes, period, i), 0.0, 100.0)
  {
    AveragesNonNegative(closes, period, i - 1);
    var g, l := Wilder(Gains(closes), period, i - 1), Wilder(Losses(closes), period, i - 1);
    if g + l > 0.0 {
      RsiIsShare(g, l);
      DivBetween(100.0 * g, g + l, 0.0, 100.0);
    }
  }

  function Negated(xs: seq<real>): seq<real> { seq(|xs|, j requires 0 <= j < |xs| => -xs[j]) }

  lemma {:induction false} SharesComplement(g: real, l: real)
    requires g >= 0.0 && l >= 0.0
    ensures RsiFrom(l, g) == 100.0 - RsiFrom(g, l)
  {
    if g + l > 0.0 {
      RsiIsShare(g, l);
      RsiIsShare(l, g);
      hide RsiFrom;
      assert 100.0 * g / (g + l) + 100.0 * l / (g + l) == 100.0;
    }
  }

  /** Turning a series upside down turns its RSI around 50. */
  lemma {:induction false} RsiMirror(closes: seq<real>, period: int, i: nat)
    requires 1 <= period < i < |closes| && |closes| > period + 1
    ensures RsiAt(Negated(closes), period, i) == Sub(Val(100.0), RsiAt(closes, period, i))
  {
    assert Gains(Negated(closes)) == Losses(closes);
    assert Losses(Negated(closes)) == Gains(closes);
    AveragesNonNegative(closes, period, i - 1);
    SharesComplement(Wilder(Gains(closes), period, i - 1), Wilder(Losses(closes), period, i - 1));
  }

  // ----- MACD -----

  function MacdAt(closes: seq<real>, i: nat): Num
    requires i < |closes|
  {
    Sub(EmaAt(Lift(closes), 12, i), EmaAt(Lift(closes), 26, i))
  }

  function MacdLine(closes: seq<real>): seq<Num> {
    seq(|closes|, i requires 0 <= i < |closes| => MacdAt(closes, i))
  }

  function SignalAt(closes: seq<real>, i: nat): Num
    requires i < |closes|
  {
    EmaAt(MacdLine(closes), 9, i)
  }

  method MACD(closes: seq<real>) returns (macd: array<Num>, signal: array<Num>, histogram: array<Num>)
    ensures macd.Length == signal.Length == histogram.Length == |closes|
    ensures forall i :: 0 <= i < |closes| ==> macd[i] == MacdAt(closes, i)
    ensures forall i :: 0 <= i < |closes| ==> signal[i] == SignalAt(closes, i)
    ensures forall i :: 0 <= i < |closes| ==> histogram[i] == Sub(MacdAt(closes, i), SignalAt(closes, i))
  {
    hide EmaAt;
    var ema12 := EMA(Lift(closes), 12);
    var ema26 := EMA(Lift(closes), 26);
    macd := new Num[|closes|](_ => Val(0.0));
    for i := 0 to |closes|
      invariant forall k :: 0 <= k < i ==> macd[k] == MacdAt(closes, k)
      modifies macd
    {
      if ema12[i].NaN? || ema26[i].NaN? {
        macd[i] := NaN;
      } else {
        macd[i] := Val(ema12[i].v - ema26[i].v);
      }
    }
    assert macd[..] == MacdLine(closes);
    signal := EMA(macd[..], 9);
    histogram := new Num[|closes|](_ => Val(0.0));
    for i := 0 to |closes|
      invariant forall k :: 0 <= k < i ==> histogram[k] == Sub(MacdAt(closes, k), SignalAt(closes, k))
      modifies histogram
    {
      if macd[i].NaN? || signal[i].NaN? {
        histogram[i] := NaN;
      } else {
        histogram[i] := Val(macd[i].v - signal[i].v);
      }
    }
  }

  lemma {:induction false} MacdSeesOnlyPast(a: seq<real>, b: seq<real>, i: nat)
    requires i < |a| && Agree(a, b, i)
    ensures MacdAt(a, i) == MacdAt(b, i) && SignalAt(a, i) == SignalAt(b, i)
  {
    forall j | 0 <= j <= i ensures MacdAt(a, j) == MacdAt(b, j) {
      EmaSeesOnlyPast(Lift(a), Lift(b), 12, j);
      EmaSeesOnlyPast(Lift(a), Lift(b), 26, j);
    }
    hide MacdAt;
    EmaSeesOnlyPast(MacdLine(a), MacdLine(b), 9, i);
  }

  // ----- Stochastic and Williams %R -----

  ghost predicate SameLength(highs: seq<real>, lows: seq<real>, closes: seq<real>) {
    |highs| == |lows| == |closes|
  }

  /** Each bar's close lies between its low and its high. */
  ghost predicate Consistent(highs: seq<real>, lows: seq<real>, closes: seq<real>) {
    && SameLength(highs, lows, closes)
    && forall j :: 0 <= j < |closes| ==> lows[j] <= closes[j] <= highs[j]
  }

  function RawKAt(highs: seq<real>, lows: seq<real>, closes: seq<real>, period: nat, i: nat): Num
    requires SameLength(highs, lows, closes) && 1 <= period && i < |closes|
  {
    if i < period then NaN
    else
      var hh, ll := Extreme(highs, i - period, i, true), Extreme(lows, i - period, i, false);
      if hh == ll then Val(50.0) else Val((closes[i - 1] - ll) / (hh - ll) * 100.0)
  }

  function RawKs(highs: seq<real>, lows: seq<real>, closes: seq<real>, period: nat): seq<Num>
    requires SameLength(highs, lows, closes) && 1 <= period
  {
    seq(|closes|, i requires 0 <= i < |closes| => RawKAt(highs, lows, closes, period, i))
  }

  function KAt(highs: seq<real>, lows: seq<real>, closes: seq<real>, kPeriod: nat, smooth: nat, i: nat): Num
    requires SameLength(highs, lows, closes) && 1 <= kPeriod && 1 <= smooth && i < |closes|
  {
    if i < kPeriod + smooth - 1 then NaN
    else Over(SumNum(RawKs(highs, lows, closes, kPeriod), i - smooth, i), smooth as real)
  }

  function Ks(highs: seq<real>, lows: seq<real>, closes: seq<real>, kPeriod: nat, smooth: nat): seq<Num>
    requires SameLength(highs, lows, closes) && 1 <= kPeriod && 1 <= smooth
  {
    seq(|closes|, i requires 0 <= i < |closes| => KAt(highs, lows, closes, kPeriod, smooth, i))
  }

  /** The inner loops of Stochastic and WilliamsR: highest high and lowest low of the period before i. */
  method Range(highs: seq<real>, lows: seq<real>, period: nat, i: nat) returns (hh: real, ll: real)
    requires 1 <= period <= i <= |highs| == |lows|
    ensures hh == Extreme(highs, i - period, i, true) && ll == Extreme(lows, i - period, i, false)
  {
    hh, ll := highs[i - period], lows[i - period];
    for j := i - period + 1 to i
      invariant hh == Extreme(highs, i - period, j, true) && ll == Extreme(lows, i - period, j, false)
    {
      if highs[j] > hh {
        hh := highs[j];
      }
      if lows[j] < ll {
        ll := lows[j];
      }
    }
  }

  /** Stochastic's first loop. */
  method RawStochastic(highs: seq<real>, lows: seq<real>, closes: seq<real>, kPeriod: nat) returns (rawK: seq<Num>)
    requires SameLength(highs, lows, closes) && 1 <= kPeriod
    ensures rawK == RawKs(highs, lows, closes, kPeriod)
  {
    var n := |closes|;
    var k := new Num[n](_ => Val(0.0));
    for i := 0 to n
      invariant forall j :: 0 <= j < i ==> k[j] == RawKAt(highs, lows, closes, kPeriod, j)
    {
      if i < kPeriod {
        k[i] := NaN;
        continue;
      }
      var hh, ll := Range(highs, lows, kPeriod, i);
      k[i] := if hh == ll then Val(50.0) else Val((closes[i - 1] - ll) / (hh - ll) * 100.0);
    }
    rawK := k[..];
  }

  method Stochastic(highs: seq<real>, lows: seq<real>, closes: seq<real>, kPeriod: nat, dPeriod: int, smooth: nat)
    returns (k: array<Num>, d: array<Num>)
    requires SameLength(highs, lows, closes) && 1 <= kPeriod && 1 <= smooth
    ensures k.Length == d.Length == |closes|
    ensures forall i :: 0 <= i < |closes| ==> k[i] == KAt(highs, lows, closes, kPeriod, smooth, i)
    ensures forall i :: 0 <= i < |closes| ==> d[i] == SmaAt(Ks(highs, lows, closes, kPeriod, smooth), dPeriod, i)
  {
    var rawK := RawStochastic(highs, lows, closes, kPeriod);
    k := new Num[|closes|](_ => NaN);
    for i := 0 to |closes|
      invariant forall j :: 0 <= j < i ==> k[j] == KAt(highs, lows, closes, kPeriod, smooth, j)
    {
      if i < kPeriod + smooth - 1 {
        k[i] := NaN;
        continue;
      }
      var sum := WindowSum(rawK, i - smooth, i);
      k[i] := Over(sum, smooth as real);
    }
    assert k[..] == Ks(highs, lows, closes, kPeriod, smooth);
    d := SMA(k[..], dPeriod);
  }

  lemma {:induction false} RawKSeesOnlyPast(
      h: seq<real>, l: seq<real>, c: seq<real>, h': seq<real>, l': seq<real>, c': seq<real>, period: nat, i: nat)
    requires SameLength(h, l, c) && 1 <= period && i < |c| && Agree(h, h', i) && Agree(l, l', i) && Agree(c, c', i)
    ensures RawKAt(h, l, c, period, i) == RawKAt(h', l', c', period, i)
  {
    if period <= i {
      ExtremeAgrees(h, h', i - period, i, true);
      ExtremeAgrees(l, l', i - period, i, false);
    }
  }

  lemma {:induction false} KSeesOnlyPast(
      h: seq<real>, l: seq<real>, c: seq<real>, h': seq<real>, l': seq<real>, c': seq<real>,
      kPeriod: nat, smooth: nat, i: nat)
    requires SameLength(h, l, c) && 1 <= kPeriod && 1 <= smooth && i < |c|
    requires Agree(h, h', i) && Agree(l, l', i) && Agree(c, c', i)
    ensures KAt(h, l, c, kPeriod, smooth, i) == KAt(h', l', c', kPeriod, smooth, i)
  {
    forall j | 0 <= j < i ensures RawKAt(h, l, c, kPeriod, j) == RawKAt(h', l', c', kPeriod, j) {
      RawKSeesOnlyPast(h, l, c, h', l', c', kPeriod, j);
    }
    hide RawKAt;
    if kPeriod + smooth - 1 <= i {
      SumNumAgrees(RawKs(h, l, c, kPeriod), RawKs(h', l', c', kPeriod), i - smooth, i);
    }
  }

  lemma {:induction false} DSeesOnlyPast(
      h: seq<real>, l: seq<real>, c: seq<real>, h': seq<real>, l': seq<real>, c': seq<real>,
      kPeriod: nat, dPeriod: int, smooth: nat, i: nat)
    requires SameLength(h, l, c) && 1 <= kPeriod && 1 <= smooth && i < |c|
    requires Agree(h, h', i) && Agree(l, l', i) && Agree(c, c', i)
    ensures SmaAt(Ks(h, l, c, kPeriod, smooth), dPeriod, i) == SmaAt(Ks(h', l', c', kPeriod, smooth), dPeriod, i)
  {
    forall j | 0 <= j < i ensures KAt(h, l, c, kPeriod, smooth, j) == KAt(h', l', c', kPeriod, smooth, j) {
      KSeesOnlyPast(h, l, c, h', l', c', kPeriod, smooth, j);
    }
    hide KAt;
    SmaSeesOnlyPast(Ks(h, l, c, kPeriod, smooth), Ks(h', l', c', kPeriod, smooth), dPeriod, i);
  }

  lemma {:induction false} RawKBetween(highs: seq<real>, lows: seq<real>, closes: seq<real>, period: nat, i: nat)
    requires Consistent(highs, lows, closes) && 1 <= period <= i < |closes|
    ensures Between(RawKAt(highs, lows, closes, period, i), 0.0, 100.0)
  {
    ExtremeBounds(highs, i - period, i, true);
    ExtremeBounds(lows, i - period, i, false);
    var hh, ll := Extreme(highs, i - period, i, true), Extreme(lows, i - period, i, false);
    assert ll <= lows[i - 1] && highs[i - 1] <= hh;
    if hh != ll {
      DivBetween(closes[i - 1] - ll, hh - ll, 0.0, 1.0);
    }
  }

  /** Once defined, %K and %D stay between 0 and 100. */
  lemma {:induction false} StochasticBetween(
      highs: seq<real>, lows: seq<real>, closes: seq<real>, kPeriod: nat, dPeriod: nat, smooth: nat, i: nat)
    requires Consistent(highs, lows, closes) && 1 <= kPeriod && 1 <= smooth && 1 <= dPeriod && i < |closes|
    ensures kPeriod + smooth <= i ==> Between(KAt(highs, lows, closes, kPeriod, smooth, i), 0.0, 100.0)
    ensures kPeriod + smooth + dPeriod <= i
      ==> Between(SmaAt(Ks(highs, lows, closes, kPeriod, smooth), dPeriod, i), 0.0, 100.0)
  {
    forall j | kPeriod + smooth <= j <= i ensures Between(KAt(highs, lows, closes, kPeriod, smooth, j), 0.0, 100.0) {
      var raw := RawKs(highs, lows, closes, kPeriod);
      forall m | kPeriod <= m < j ensures Between(raw[m], 0.0, 100.0) {
        RawKBetween(highs, lows, closes, kPeriod, m);
      }
      MeanBetween(raw, j - smooth, j, 0.0, 100.0);
    }
    if kPeriod + smooth + dPeriod <= i {
      var ks := Ks(highs, lows, closes, kPeriod, smooth);
      hide KAt;
      MeanBetween(ks, i - dPeriod, i, 0.0, 100.0);
    }
  }

  function WilliamsAt(highs: seq<real>, lows: seq<real>, closes: seq<real>, period: nat, i: nat): Num
    requires SameLength(highs, lows, closes) && 1 <= period && i < |closes|
  {
    if i < period then NaN
    else
      var hh, ll := Extreme(highs, i - period, i, true), Extreme(lows, i - period, i, false);
      if hh == ll then Val(-50.0) else Val((hh - closes[i - 1]) / (hh - ll) * -100.0)
  }

  method WilliamsR(highs: seq<real>, lows: seq<real>, closes: seq<real>, period: nat) returns (out: array<Num>)
    requires SameLength(highs, lows, closes) && 1 <= period
    ensures out.Length == |closes|
    ensures forall i :: 0 <= i < |closes| ==> out[i] == WilliamsAt(highs, lows, closes, period, i)
  {
    out := new Num[|closes|](_ => Val(0.0));
    for i := 0 to |closes|
      invariant forall j :: 0 <= j < i ==> out[j] == WilliamsAt(highs, lows, closes, period, j)
    {
      if i < period {
        out[i] := NaN;
        continue;
      }
      var hh, ll := Range(highs, lows, period, i);
      out[i] := if hh == ll then Val(-50.0) else Val((hh - closes[i - 1]) / (hh - ll) * -100.0);
    }
  }

  /** Williams %R is the raw stochastic moved down by 100: so it lies in [-100, 0] and sees only the past too. */
  lemma {:induction false} WilliamsIsShiftedStochastic(
      highs: seq<real>, lows: seq<real>, closes: seq<real>, period: nat, i: nat)
    requires SameLength(highs, lows, closes) && 1 <= period && i < |closes|
    ensures WilliamsAt(highs, lows, closes, period, i) == Sub(RawKAt(highs, lows, closes, period, i), Val(100.0))
  {}

  // ----- CCI -----

  function Typical(highs: seq<real>, lows: seq<real>, closes: seq<real>): seq<real>
    requires SameLength(highs, lows, closes)
  {
    seq(|closes|, j requires 0 <= j < |closes| => (highs[j] + lows[j] + closes[j]) / 3.0)
  }

  function Deviations(xs: seq<real>, mean: real): seq<real> {
    seq(|xs|, j requires 0 <= j < |xs| => Abs(xs[j] - mean))
  }

  function CciFrom(price: real, sma: real, meanDev: real): Num {
    if meanDev == 0.0 then Val(0.0) else Val((price - sma) / (0.015 * meanDev))
  }

  function CciAt(highs: seq<real>, lows: seq<real>, closes: seq<real>, period: int, i: nat): Num
    requires SameLength(highs, lows, closes) && period != 0 && i < |closes|
  {
    CciOf(Typical(highs, lows, closes), period, i)
  }

  /** A negative period has an empty window, whose mean deviation is zero. */
  function CciOf(tp: seq<real>, period: int, i: nat): Num
    requires period != 0 && i < |tp|
  {
    if i < period then NaN
    else if period < 0 then Val(0.0)
    else
      var sma := SumIn(tp, i - period, i) / period as real;
      var meanDev := SumIn(Deviations(tp, sma), i - period, i) / period as real;
      CciFrom(tp[i - 1], sma, meanDev)
  }

  /** The loop with which CCI, VWAP and MFI each start. */
  method TypicalPrices(highs: seq<real>, lows: seq<real>, closes: seq<real>) returns (tp: seq<real>)
    requires SameLength(highs, lows, closes)
    ensures tp == Typical(highs, lows, closes)
  {
    var tps := new real[|closes|](_ => 0.0);
    for i := 0 to |closes|
      invariant forall j :: 0 <= j < i ==> tps[j] == (highs[j] + lows[j] + closes[j]) / 3.0
    {
      tps[i] := (highs[i] + lows[i] + closes[i]) / 3.0;
    }
    return tps[..];
  }

  /** With period 0 every mean is NaN, and the first bar is compared with the bar before it, outside the slice. */
  method CCI(highs: seq<real>, lows: seq<real>, closes: seq<real>, period: int) returns (out: array<Num>)
    requires SameLength(highs, lows, closes) && (period != 0 || closes == [])
    ensures out.Length == |closes|
    ensures forall i :: 0 <= i < |closes| ==> out[i] == CciAt(highs, lows, closes, period, i)
  {
    var n := |closes|;
    out := new Num[n](_ => Val(0.0));
    var tp := TypicalPrices(highs, lows, closes);
    hide Typical, Abs;
    for i := 0 to n
      invariant forall k :: 0 <= k < i ==> out[k] == CciAt(highs, lows, closes, period, k)
    {
      if i < period {
        out[i] := NaN;
        continue;
      }
      var sum := SumOver(tp, i - period, i);
      var sma := sum / period as real;
      var meanDev := SumOfDeviations(tp, sma, i - period, i);
      meanDev := meanDev / period as real;
      out[i] := if meanDev == 0.0 then Val(0.0) else Val((tp[i - 1] - sma) / (0.015 * meanDev));
    }
  }

  method SumOfDeviations(tp: seq<real>, sma: real, lo: nat, hi: nat) returns (sum: real)
    requires hi <= |tp|
    ensures sum == if lo <= hi then SumIn(Deviations(tp, sma), lo, hi) else 0.0
  {
    sum := 0.0;
    var j := lo;
    while j < hi
      invariant lo <= j
      invariant if lo <= hi then j <= hi && sum == SumIn(Deviations(tp, sma), lo, j) else sum == 0.0
    {
      sum := sum + Abs(tp[j] - sma);
      j := j + 1;
    }
  }

  lemma {:induction false} TypicalAgrees(
      h: seq<real>, l: seq<real>, c: seq<real>, h': seq<real>, l': seq<real>, c': seq<real>, i: nat)
    requires SameLength(h, l, c) && Agree(h, h', i) && Agree(l, l', i) && Agree(c, c', i)
    ensures Agree(Typical(h, l, c), Typical(h', l', c'), i)
  {}

  lemma {:induction false} CciSeesOnlyPast(
      h: seq<real>, l: seq<real>, c: seq<real>, h': seq<real>, l': seq<real>, c': seq<real>, period: int, i: nat)
    requires SameLength(h, l, c) && period != 0 && i < |c| && Agree(h, h', i) && Agree(l, l', i) && Agree(c, c', i)
    ensures CciAt(h, l, c, period, i) == CciAt(h', l', c', period, i)
  {
    TypicalAgrees(h, l, c, h', l', c', i);
    var tp, tp' := Typical(h, l, c), Typical(h', l', c');
    hide Typical;
    if 0 < period <= i {
      SumAgrees(tp, tp', i - period, i);
      var sma := SumIn(tp, i - period, i) / period as real;
      SumAgrees(Deviations(tp, sma), Deviations(tp', sma), i - period, i);
    }
  }

  lemma {:induction false} FlatSum(xs: seq<real>, lo: nat, hi: nat, x: real)
    requires lo <= hi <= |xs| && forall j :: lo <= j < hi ==> xs[j] == x
    ensures SumIn(xs, lo, hi) == (hi - lo) as real * x
  {
    if lo < hi {
      FlatSum(xs, lo, hi - 1, x);
    }
  }

  function Raised(xs: seq<real>, k: real): seq<real> { seq(|xs|, j requires 0 <= j < |xs| => xs[j] + k) }

  lemma {:induction false} SumRaised(xs: seq<real>, k: real, lo: nat, hi: nat)
    requires lo <= hi <= |xs|
    ensures SumIn(Raised(xs, k), lo, hi) == SumIn(xs, lo, hi) + (hi - lo) as real * k
  {
    if lo < hi {
      SumRaised(xs, k, lo, hi - 1);
    }
  }

  lemma {:induction false} TypicalRaised(highs: seq<real>, lows: seq<real>, closes: seq<real>, k: real)
    requires SameLength(highs, lows, closes)
    ensures Typical(Raised(highs, k), Raised(lows, k), Raised(closes, k)) == Raised(Typical(highs, lows, closes), k)
  {}

  lemma {:induction false} CciOfRaised(tp: seq<real>, k: real, period: int, i: nat)
    requires period != 0 && i < |tp|
    ensures CciOf(Raised(tp, k), period, i) == CciOf(tp, period, i)
  {
    if i < period || period < 0 {
      return;
    }
    hide CciFrom, SumIn;
    var p, sum, up := period as real, SumIn(tp, i - period, i), Raised(tp, k);
    SumRaised(tp, k, i - period, i);
    MeanRaised(sum, p, k);
    DeviationsRaised(tp, k, sum / p);
    CciFromRaised(tp[i - 1], sum / p, SumIn(Deviations(tp, sum / p), i - period, i) / p, k);
    assert SumIn(up, i - period, i) == sum + p * k;
  }

  lemma {:induction false} MeanRaised(sum: real, p: real, k: real)
    requires p > 0.0
    ensures (sum + p * k) / p == sum / p + k
  {
    assert p * k / p == k;
  }

  lemma {:induction false} DeviationsRaised(tp: seq<real>, k: real, mean: real)
    ensures Deviations(Raised(tp, k), mean + k) == Deviations(tp, mean)
  {}

  lemma {:induction false} CciFromRaised(price: real, sma: real, meanDev: real, k: real)
    ensures CciFrom(price + k, sma + k, meanDev) == CciFrom(price, sma, meanDev)
  {
    assert (price + k) - (sma + k) == price - sma;
  }

  /** CCI measures distances only: raising all prices by the same amount leaves it unchanged. */
  lemma {:induction false} CciShift(
      highs: seq<real>, lows: seq<real>, closes: seq<real>, k: real, period: int, i: nat)
    requires SameLength(highs, lows, closes) && period != 0 && i < |closes|
    ensures CciAt(Raised(highs, k), Raised(lows, k), Raised(closes, k), period, i) == CciAt(highs, lows, closes, period, i)
  {
    TypicalRaised(highs, lows, closes, k);
    hide Typical, Raised, CciOf;
    CciOfRaised(Typical(highs, lows, closes), k, period, i);
  }

  // ----- Chaikin money flow (reads bar i itself) -----

  function Reals(xs: seq<int>): seq<real> { seq(|xs|, j requires 0 <= j < |xs| => xs[j] as real) }

  function MoneyFlow(high: real, low: real, close: real, volume: real): real {
    if high != low then volume * ((close - low) - (high - close)) / (high - low) else 0.0
  }

  function MoneyFlows(highs: seq<real>, lows: seq<real>, closes: seq<real>, volumes: seq<int>): seq<real>
    requires SameLength(highs, lows, closes) && |volumes| == |closes|
  {
    seq(|closes|, j requires 0 <= j < |closes| => MoneyFlow(highs[j], lows[j], closes[j], volumes[j] as real))
  }

  function CmfAt(highs: seq<real>, lows: seq<real>, closes: seq<real>, volumes: seq<int>, period: int, i: nat): Num
    requires SameLength(highs, lows, closes) && |volumes| == |closes| && i < |closes|
  {
    if period < 1 || i < period then NaN
    else
      var volSum := SumIn(Reals(volumes), i - period + 1, i + 1);
      if volSum > 0.0
      then Val(SumIn(MoneyFlows(highs, lows, closes, volumes), i - period + 1, i + 1) / volSum)
      else NaN
  }

  method CMF(highs: seq<real>, lows: seq<real>, closes: seq<real>, volumes: seq<int>, period: int)
    returns (out: array<Num>)
    requires SameLength(highs, lows, closes) && |volumes| == |closes|
    ensures out.Length == |closes|
    ensures forall i :: 0 <= i < |closes| ==> out[i] == CmfAt(highs, lows, closes, volumes, period, i)
  {
    var n := |closes|;
    out := new Num[n](_ => NaN);
    var i := period;
    while i < n
      invariant period <= i
      invariant forall k :: 0 <= k < n && k < i ==> out[k] == CmfAt(highs, lows, closes, volumes, period, k)
      invariant forall k :: 0 <= k < n && i <= k ==> out[k] == NaN
    {
      hide MoneyFlow;
      var mfSum, volSum := 0.0, 0.0;
      var j := i - period + 1;
      while j <= i
        invariant period < 1 ==> j > i && volSum == 0.0
        invariant period >= 1 ==> i - period < j <= i + 1
        invariant period >= 1 ==> mfSum == SumIn(MoneyFlows(highs, lows, closes, volumes), i - period + 1, j)
        invariant period >= 1 ==> volSum == SumIn(Reals(volumes), i - period + 1, j)
      {
        mfSum := mfSum + MoneyFlow(highs[j], lows[j], closes[j], volumes[j] as real);
        volSum := volSum + volumes[j] as real;
        j := j + 1;
      }
      if volSum > 0.0 {
        out[i] := Val(mfSum / volSum);
      }
      i := i + 1;
    }
  }

  lemma {:induction false} MoneyFlowBounded(high: real, low: real, close: real, volume: real)
    requires low <= close <= high && volume >= 0.0
    ensures -volume <= MoneyFlow(high, low, close, volume) <= volume
  {
    if high != low {
      var share := (close - low) - (high - close);
      ProductNonNegative(volume, (high - low) - share);
      ProductNonNegative(volume, (high - low) + share);
      DivBetween(volume * share, high - low, -volume, volume);
    }
  }

  lemma {:induction false} CmfBetween(
      highs: seq<real>, lows: seq<real>, closes: seq<real>, volumes: seq<int>, period: int, i: nat)
    requires Consistent(highs, lows, closes) && |volumes| == |closes| && i < |closes|
    requires forall j :: 0 <= j < |volumes| ==> volumes[j] >= 0
    ensures var x := CmfAt(highs, lows, closes, volumes, period, i); x.Val? ==> Between(x, -1.0, 1.0)
  {
    if 1 <= period <= i {
      var lo, hi := i - period + 1, i + 1;
      var mf, vol := MoneyFlows(highs, lows, closes, volumes), Reals(volumes);
      var none := seq(|closes|, _ => 0.0);
      forall j | lo <= j < hi ensures -vol[j] <= mf[j] <= vol[j] {
        MoneyFlowBounded(highs[j], lows[j], closes[j], vol[j]);
      }
      hide MoneyFlow;
      SumBelow(mf, none, vol, lo, hi);
      FlatSum(none, lo, hi, 0.0);
      var flipped := Negated(mf);
      SumBelow(flipped, none, vol, lo, hi);
      NegatedSum(mf, lo, hi);
      if SumIn(vol, lo, hi) > 0.0 {
        DivBetween(SumIn(mf, lo, hi), SumIn(vol, lo, hi), -1.0, 1.0);
      }
    }
  }

  /** No bar from i on reaches CMF at i. */
  ghost predicate CmfExcludesBar(period: int, n: nat, i: nat)
    requires i < n
  {
    forall h, l, c, v, h', l', c', v' ::
      Consistent(h, l, c) && |v| == |c| == n && Consistent(h', l', c') && |v'| == |c'|
      && Agree(h, h', i) && Agree(l, l', i) && Agree(c, c', i) && Agree(v, v', i)
      ==> CmfAt(h, l, c, v, period, i) == CmfAt(h', l', c', v', period, i)
  }

  /** A market that closes at x between 0 and 1 and trades on bar i only. */
  lemma {:induction false} CmfOfLast(
      h: seq<real>, l: seq<real>, c: seq<real>, v: seq<int>, period: nat, i: nat)
    requires SameLength(h, l, c) && |v| == |c| && 1 <= period <= i < |c|
    requires h[i] == 1.0 && l[i] == 0.0 && v[i] == 1 && forall j :: 0 <= j < i ==> v[j] == 0
    ensures CmfAt(h, l, c, v, period, i) == Val(c[i] + c[i] - 1.0)
  {
    var lo := i - period + 1;
    var mf, vol := MoneyFlows(h, l, c, v), Reals(v);
    assert forall j :: lo <= j < i ==> mf[j] == 0.0 && vol[j] == 0.0;
    FlatSum(mf, lo, i, 0.0);
    FlatSum(vol, lo, i, 0.0);
    assert SumIn(vol, lo, i + 1) == SumIn(vol, lo, i) + vol[i] && SumIn(mf, lo, i + 1) == SumIn(mf, lo, i) + mf[i];
  }

  /** Against the contract of the package, bar i is read wherever CMF can be defined. */
  lemma {:induction false} CmfExcludesBarExactly(period: int, n: nat, i: nat)
    requires i < n
    ensures CmfExcludesBar(period, n, i) <==> period < 1 || i < period
  {
    if 1 <= period <= i {
      var h, l, v := seq(n, _ => 1.0), seq(n, _ => 0.0), seq(n, j => if j == i then 1 else 0);
      CmfOfLast(h, l, h, v, period, i);
      var c := seq(n, j => if j == i then 0.0 else 1.0);
      CmfOfLast(h, l, c, v, period, i);
      assert Consistent(h, l, h) && Consistent(h, l, c) && Agree(h, c, i);
      hide CmfAt;
      assert CmfAt(h, l, h, v, period, i) != CmfAt(h, l, c, v, period, i);
    }
  }

  lemma {:induction false} NegatedSum(xs: seq<real>, lo: nat, hi: nat)
    requires lo <= hi <= |xs|
    ensures SumIn(Negated(xs), lo, hi) == -SumIn(xs, lo, hi)
  {
    if lo < hi {
      NegatedSum(xs, lo, hi - 1);
    }
  }
}
