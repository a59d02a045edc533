/** Wilder's directional movement: the DI lines and the ADX. */
module Adx {
  import opened Numbers
  import opened Series
  import opened Momentum

  function TrueRange(high: real, low: real, prevClose: real): real {
    Max(high - low, Max(Abs(high - prevClose), Abs(low - prevClose)))
  }

  function TrueRanges(highs: seq<real>, lows: seq<real>, closes: seq<real>): seq<real>
    requires SameLength(highs, lows, closes)
  {
    seq(|closes|, j requires 0 <= j < |closes| =>
      if j == 0 then 0.0 else TrueRange(highs[j], lows[j], closes[j - 1]))
  }

  /** The larger of two opposite moves counts, if it is positive. */
  function Directional(move: real, opposite: real): real { if move > opposite && move > 0.0 then move else 0.0 }

  function PlusMoves(highs: seq<real>, lows: seq<real>): seq<real>
    requires |highs| == |lows|
  {
    seq(|highs|, j requires 0 <= j < |highs| =>
      if j == 0 then 0.0 else Directional(highs[j] - highs[j - 1], lows[j - 1] - lows[j]))
  }

  function MinusMoves(highs: seq<real>, lows: seq<real>): seq<real>
    requires |highs| == |lows|
  {
    seq(|highs|, j requires 0 <= j < |highs| =>
      if j == 0 then 0.0 else Directional(lows[j - 1] - lows[j], highs[j] - highs[j - 1]))
  }

  function SmoothStep(prev: real, x: real, period: nat): real
    requires 1 <= period
  {
    prev - prev / period as real + x
  }

  /** Wilder's running sum. */
  function Smooth(xs: seq<real>, period: nat, i: nat): real
    requires 1 <= period <= i < |xs|
    decreases i
  {
    if i == period then SumIn(xs, 1, period + 1) else SmoothStep(Smooth(xs, period, i - 1), xs[i], period)
  }

  function Share(move: real, tr: real): real { if tr == 0.0 then 0.0 else move / tr * 100.0 }

  function Dx(plus: real, minus: real): real {
    if plus + minus == 0.0 then 0.0 else Abs(plus - minus) / (plus + minus) * 100.0
  }

  function PlusDi(highs: seq<real>, lows: seq<real>, closes: seq<real>, period: nat, i: nat): real
    requires SameLength(highs, lows, closes) && 1 <= period <= i < |closes|
  {
    Share(Smooth(PlusMoves(highs, lows), period, i), Smooth(TrueRanges(highs, lows, closes), period, i))
  }

  function MinusDi(highs: seq<real>, lows: seq<real>, closes: seq<real>, period: nat, i: nat): real
    requires SameLength(highs, lows, closes) && 1 <= period <= i < |closes|
  {
    Share(Smooth(MinusMoves(highs, lows), period, i), Smooth(TrueRanges(highs, lows, closes), period, i))
  }

  function DxLine(highs: seq<real>, lows: seq<real>, closes: seq<real>, period: nat): seq<real>
    requires SameLength(highs, lows, closes) && 1 <= period
  {
    seq(|closes|, i requires 0 <= i < |closes| =>
      if i < period then 0.0
      else Dx(PlusDi(highs, lows, closes, period, i), MinusDi(highs, lows, closes, period, i)))
  }

  /** ADX at i averages the DX values before i; the slots before the first average stay 0. */
  function AdxFrom(dx: seq<real>, period: nat, i: nat): real
    requires 1 <= period && i < |dx|
    decreases i
  {
    if i < 2 * period then 0.0
    else if i == 2 * period then SumIn(dx, period, 2 * period) / period as real
    else WilderStep(AdxFrom(dx, period, i - 1), dx[i - 1], period)
  }

  function AdxAt(highs: seq<real>, lows: seq<real>, closes: seq<real>, period: nat, i: nat): Num
    requires SameLength(highs, lows, closes) && 1 <= period && i < |closes|
  {
    if |closes| < period + 1 then NaN else Val(AdxFrom(DxLine(highs, lows, closes, period), period, i))
  }

  function DiAt(highs: seq<real>, lows: seq<real>, closes: seq<real>, period: nat, i: nat): (Num, Num)
    requires SameLength(highs, lows, closes) && 1 <= period && i < |closes|
  {
    if |closes| < period + 1 then (NaN, NaN)
    else if i < period then (Val(0.0), Val(0.0))
    else (Val(PlusDi(highs, lows, closes, period, i)), Val(MinusDi(highs, lows, closes, period, i)))
  }

  // ----- the loops -----

  /** The three entries that one turn of the loop writes. */
  ghost predicate Written(highs: seq<real>, lows: seq<real>, closes: seq<real>, j: nat, tr: real, plus: real, minus: real)
    requires SameLength(highs, lows, closes) && j < |closes|
  {
    TrueRanges(highs, lows, closes)[j] == tr && PlusMoves(highs, lows)[j] == plus && MinusMoves(highs, lows)[j] == minus
  }

  lemma {:induction false} WrittenAll(
      highs: seq<real>, lows: seq<real>, closes: seq<real>, tr: seq<real>, plus: seq<real>, minus: seq<real>)
    requires SameLength(highs, lows, closes) && |tr| == |plus| == |minus| == |closes|
    requires forall j :: 0 <= j < |closes| ==> Written(highs, lows, closes, j, tr[j], plus[j], minus[j])
    ensures tr == TrueRanges(highs, lows, closes) && plus == PlusMoves(highs, lows) && minus == MinusMoves(highs, lows)
  {}

  method Movements(highs: seq<real>, lows: seq<real>, closes: seq<real>)
    returns (tr: seq<real>, pdm: seq<real>, ndm: seq<real>)
    requires SameLength(highs, lows, closes) && closes != []
    ensures tr == TrueRanges(highs, lows, closes) && pdm == PlusMoves(highs, lows) && ndm == MinusMoves(highs, lows)
  {
    var n := |closes|;
    var t, p, m := new real[n](_ => 0.0), new real[n](_ => 0.0), new real[n](_ => 0.0);
    for i := 1 to n
      invariant forall j {:trigger t[j]} :: 0 <= j < i ==> Written(highs, lows, closes, j, t[j], p[j], m[j])
    {
      t[i] := TrueRange(highs[i], lows[i], closes[i - 1]);
      var upMove, downMove := highs[i] - highs[i - 1], lows[i - 1] - lows[i];
      p[i] := Directional(upMove, downMove);
      m[i] := Directional(downMove, upMove);
    }
    WrittenAll(highs, lows, closes, t[..], p[..], m[..]);
    return t[..], p[..], m[..];
  }

  method Smoothing(xs: seq<real>, period: nat) returns (out: seq<real>)
    requires 1 <= period < |xs|
    ensures |out| == |xs| && forall i {:trigger out[i]} :: period <= i < |xs| ==> out[i] == Smooth(xs, period, i)
  {
    var s := new real[|xs|](_ => 0.0);
    for i := 1 to period + 1
      invariant s[period] == SumIn(xs, 1, i)
    {
      s[period] := s[period] + xs[i];
    }
    hide SmoothStep;
    for i := period + 1 to |xs|
      invariant forall k {:trigger s[k]} :: period <= k < i ==> s[k] == Smooth(xs, period, k)
    {
      s[i] := SmoothStep(s[i - 1], xs[i], period);
    }
    return s[..];
  }

  method ADX(highs: seq<real>, lows: seq<real>, closes: seq<real>, period: nat)
    returns (adx: array<Num>, diPlus: array<Num>, diMinus: array<Num>)
    requires SameLength(highs, lows, closes) && 1 <= period
    ensures adx.Length == diPlus.Length == diMinus.Length == |closes|
    ensures forall i :: 0 <= i < |closes| ==> adx[i] == AdxAt(highs, lows, closes, period, i)
    ensures forall i :: 0 <= i < |closes| ==> (diPlus[i], diMinus[i]) == DiAt(highs, lows, closes, period, i)
  {
    var n := |closes|;
    if n < period + 1 {
      adx, diPlus, diMinus := new Num[n](_ => NaN), new Num[n](_ => NaN), new Num[n](_ => NaN);
      return;
    }
    adx, diPlus, diMinus := new Num[n](_ => Val(0.0)), new Num[n](_ => Val(0.0)), new Num[n](_ => Val(0.0));
    DirectionalLines(highs, lows, closes, period, diPlus, diMinus);
    var dx := DxValues(highs, lows, closes, period, diPlus[..], diMinus[..]);
    hide DxLine, DiAt;
    AverageDx(dx, period, adx);
  }

  method DirectionalLines(
    highs: seq<real>, lows: seq<real>, closes: seq<real>, period: nat, diPlus: array<Num>, diMinus: array<Num>)
    requires SameLength(highs, lows, closes) && 1 <= period < |closes| == diPlus.Length == diMinus.Length
    requires diPlus != diMinus
    requires forall i :: 0 <= i < |closes| ==> diPlus[i] == Val(0.0) && diMinus[i] == Val(0.0)
    modifies diPlus, diMinus
    ensures forall i :: 0 <= i < |closes| ==> (diPlus[i], diMinus[i]) == DiAt(highs, lows, closes, period, i)
  {
    var tr, pdm, ndm := Movements(highs, lows, closes);
    hide TrueRanges, PlusMoves, MinusMoves, Share, Smooth;
    var trSmooth := Smoothing(tr, period);
    var pdmSmooth := Smoothing(pdm, period);
    var ndmSmooth := Smoothing(ndm, period);
    for i := period to |closes|
      invariant forall k :: 0 <= k < i ==> (diPlus[k], diMinus[k]) == DiAt(highs, lows, closes, period, k)
    {
      diPlus[i] := Val(Share(pdmSmooth[i], trSmooth[i]));
      diMinus[i] := Val(Share(ndmSmooth[i], trSmooth[i]));
    }
  }

  method DxValues(
    highs: seq<real>, lows: seq<real>, closes: seq<real>, period: nat, diPlus: seq<Num>, diMinus: seq<Num>)
    returns (dx: seq<real>)
    requires SameLength(highs, lows, closes) && 1 <= period < |closes| == |diPlus| == |diMinus|
    requires forall i :: 0 <= i < |closes| ==> (diPlus[i], diMinus[i]) == DiAt(highs, lows, closes, period, i)
    ensures dx == DxLine(highs, lows, closes, period)
  {
    hide PlusDi, MinusDi, Dx;
    var dxs := new real[|closes|](_ => 0.0);
    for i := period to |closes|
      invariant forall k :: 0 <= k < i ==> dxs[k] == DxLine(highs, lows, closes, period)[k]
    {
      assert (diPlus[i], diMinus[i]) == DiAt(highs, lows, closes, period, i);
      dxs[i] := Dx(diPlus[i].v, diMinus[i].v);
    }
    return dxs[..];
  }

  method AverageDx(dx: seq<real>, period: nat, adx: array<Num>)
    requires 1 <= period && |dx| == adx.Length && forall i :: 0 <= i < adx.Length ==> adx[i] == Val(0.0)
    modifies adx
    ensures forall i {:trigger adx[i]} :: 0 <= i < adx.Length ==> adx[i] == Val(AdxFrom(dx, period, i))
  {
    hide WilderStep;
    var i := 2 * period;
    while i < |dx|
      invariant 2 * period <= i
      invariant forall k {:trigger adx[k]} :: 0 <= k < |dx| && k < i ==> adx[k] == Val(AdxFrom(dx, period, k))
    {
      if i == 2 * period {
        var sum := 0.0;
        for j := period to 2 * period
          invariant sum == SumIn(dx, period, j)
        {
          sum := sum + dx[j];
        }
        adx[i] := Val(sum / period as real);
      } else {
        adx[i] := Val(WilderStep(adx[i - 1].v, dx[i - 1], period));
      }
      i := i + 1;
    }
  }

  // ----- ranges -----

  /** A bar's directional movement never exceeds its true range: the invariant of all the smoothing loops. */
  lemma {:induction false} MovesWithinRange(highs: seq<real>, lows: seq<real>, closes: seq<real>, j: nat)
    requires Consistent(highs, lows, closes) && j < |closes|
    ensures PlusMoves(highs, lows)[j] >= 0.0 && MinusMoves(highs, lows)[j] >= 0.0
    ensures PlusMoves(highs, lows)[j] + MinusMoves(highs, lows)[j] <= TrueRanges(highs, lows, closes)[j]
  {}

  lemma {:induction false} Shrunk(x: real, period: nat)
    requires x >= 0.0 && 1 <= period
    ensures x - x / period as real >= 0.0
  {}

  lemma {:induction false} SmoothKeepsBound(
      xs: seq<real>, ys: seq<real>, zs: seq<real>, period: nat, i: nat)
    requires 1 <= period <= i < |xs| && |xs| == |ys| == |zs|
    requires forall j :: 0 <= j <= i ==> xs[j] >= 0.0 && ys[j] >= 0.0 && xs[j] + ys[j] <= zs[j]
    ensures Smooth(xs, period, i) >= 0.0 && Smooth(ys, period, i) >= 0.0
    ensures Smooth(xs, period, i) + Smooth(ys, period, i) <= Smooth(zs, period, i)
    decreases i
  {
    if i == period {
      SumNonNegative(xs, 1, period + 1);
      SumNonNegative(ys, 1, period + 1);
      SumBelow(xs, ys, zs, 1, period + 1);
    } else {
      SmoothKeepsBound(xs, ys, zs, period, i - 1);
      StepKeepsBound(Smooth(xs, period, i - 1), Smooth(ys, period, i - 1), Smooth(zs, period, i - 1), period);
    }
  }

  lemma {:induction false} StepKeepsBound(a: real, b: real, c: real, period: nat)
    requires a >= 0.0 && b >= 0.0 && a + b <= c && 1 <= period
    ensures a - a / period as real >= 0.0 && b - b / period as real >= 0.0
    ensures (a - a / period as real) + (b - b / period as real) <= c - c / period as real
  {
    var p := period as real;
    Shrunk(a, period);
    Shrunk(b, period);
    Shrunk(c - a - b, period);
    assert c / p == a / p + b / p + (c - a - b) / p;
  }

  /** +DI and -DI are non-negative and add up to at most 100. */
  lemma {:induction false} DirectionalLinesBetween(
      highs: seq<real>, lows: seq<real>, closes: seq<real>, period: nat, i: nat)
    requires Consistent(highs, lows, closes) && 1 <= period <= i < |closes|
    ensures 0.0 <= PlusDi(highs, lows, closes, period, i) && 0.0 <= MinusDi(highs, lows, closes, period, i)
    ensures PlusDi(highs, lows, closes, period, i) + MinusDi(highs, lows, closes, period, i) <= 100.0
  {
    var p, m, t := PlusMoves(highs, lows), MinusMoves(highs, lows), TrueRanges(highs, lows, closes);
    forall j | 0 <= j <= i ensures p[j] >= 0.0 && m[j] >= 0.0 && p[j] + m[j] <= t[j] {
      MovesWithinRange(highs, lows, closes, j);
    }
    SmoothKeepsBound(p, m, t, period, i);
    SharesBetween(Smooth(p, period, i), Smooth(m, period, i), Smooth(t, period, i));
  }

  lemma {:induction false} SharesBetween(a: real, b: real, t: real)
    requires a >= 0.0 && b >= 0.0 && a + b <= t
    ensures 0.0 <= Share(a, t) && 0.0 <= Share(b, t) && Share(a, t) + Share(b, t) <= 100.0
  {}

  lemma {:induction false} DxBetween(plus: real, minus: real)
    requires plus >= 0.0 && minus >= 0.0
    ensures 0.0 <= Dx(plus, minus) <= 100.0
  {
    if plus + minus != 0.0 {
      DivBetween(Abs(plus - minus), plus + minus, 0.0, 1.0);
    }
  }

  lemma {:induction false} AdxFromBetween(dx: seq<real>, period: nat, i: nat)
    requires 1 <= period && i < |dx| && forall j :: 0 <= j < i ==> 0.0 <= dx[j] <= 100.0
    ensures 0.0 <= AdxFrom(dx, period, i) <= 100.0
    decreases i
  {
    if i == 2 * period {
      var nums := Lift(dx);
      forall j | 0 <= j < i ensures Between(nums[j], 0.0, 100.0) {
      }
      MeanBetween(nums, period, 2 * period, 0.0, 100.0);
      SumLift(dx, period, 2 * period);
    } else if i > 2 * period {
      AdxFromBetween(dx, period, i - 1);
      WilderBetween(AdxFrom(dx, period, i - 1), dx[i - 1], period, 0.0, 100.0);
    }
  }

  lemma {:induction false} WilderBetween(prev: real, x: real, period: nat, a: real, b: real)
    requires 1 <= period && a <= prev <= b && a <= x <= b
    ensures a <= WilderStep(prev, x, period) <= b
  {
    ProductNonNegative(prev - a, (period - 1) as real);
    ProductNonNegative(b - prev, (period - 1) as real);
    DivBetween(prev * (period - 1) as real + x, period as real, a, b);
  }

  /** ADX lies between 0 and 100 at every index of every consistent series long enough to have one. */
  lemma {:induction false} AdxBetween(highs: seq<real>, lows: seq<real>, closes: seq<real>, period: nat, i: nat)
    requires Consistent(highs, lows, closes) && 1 <= period < |closes| && i < |closes|
    ensures Between(AdxAt(highs, lows, closes, period, i), 0.0, 100.0)
  {
    var dx := DxLine(highs, lows, closes, period);
    forall j | 0 <= j < i ensures 0.0 <= dx[j] <= 100.0 {
      if j >= period {
        DirectionalLinesBetween(highs, lows, closes, period, j);
        hide PlusDi, MinusDi, Dx;
        DxBetween(PlusDi(highs, lows, closes, period, j), MinusDi(highs, lows, closes, period, j));
      }
    }
    hide DxLine;
    AdxFromBetween(dx, period, i);
  }

  // ----- what the lines depend on -----

  lemma {:induction false} SmoothAgrees(xs: seq<real>, ys: seq<real>, period: nat, i: nat)
    requires 1 <= period <= i < |xs| && Agree(xs, ys, i + 1)
    ensures Smooth(xs, period, i) == Smooth(ys, period, i)
    decreases i
  {
    if i == period {
      SumAgrees(xs, ys, 1, period + 1);
    } else {
      SmoothAgrees(xs, ys, period, i - 1);
    }
  }

  /** The DI lines at i read bar i, and nothing after it. */
  lemma {:induction false} DirectionalLinesSeeUpTo(
      h: seq<real>, l: seq<real>, c: seq<real>, h': seq<real>, l': seq<real>, c': seq<real>, period: nat, i: nat)
    requires SameLength(h, l, c) && 1 <= period <= i < |c|
    requires Agree(h, h', i + 1) && Agree(l, l', i + 1) && Agree(c, c', i + 1)
    ensures PlusDi(h, l, c, period, i) == PlusDi(h', l', c', period, i)
    ensures MinusDi(h, l, c, period, i) == MinusDi(h', l', c', period, i)
  {
    MovesAgree(h, l, c, h', l', c', i + 1);
    hide PlusMoves, MinusMoves, TrueRanges, Smooth;
    SmoothAgrees(PlusMoves(h, l), PlusMoves(h', l'), period, i);
    SmoothAgrees(MinusMoves(h, l), MinusMoves(h', l'), period, i);
    SmoothAgrees(TrueRanges(h, l, c), TrueRanges(h', l', c'), period, i);
  }

  lemma {:induction false} MovesAgree(
      h: seq<real>, l: seq<real>, c: seq<real>, h': seq<real>, l': seq<real>, c': seq<real>, i: nat)
    requires SameLength(h, l, c) && Agree(h, h', i) && Agree(l, l', i) && Agree(c, c', i)
    ensures Agree(PlusMoves(h, l), PlusMoves(h', l'), i) && Agree(MinusMoves(h, l), MinusMoves(h', l'), i)
    ensures Agree(TrueRanges(h, l, c), TrueRanges(h', l', c'), i)
  {
    hide Directional, TrueRange;
  }

  lemma {:induction false} AdxFromAgrees(a: seq<real>, b: seq<real>, period: nat, i: nat)
    requires 1 <= period && i < |a| && Agree(a, b, i)
    ensures AdxFrom(a, period, i) == AdxFrom(b, period, i)
    decreases i
  {
    if i == 2 * period {
      SumAgrees(a, b, period, 2 * period);
    } else if i > 2 * period {
      AdxFromAgrees(a, b, period, i - 1);
    }
  }

  /** The ADX line at i reads no bar from i on. */
  lemma {:induction false} AdxSeesOnlyPast(
      h: seq<real>, l: seq<real>, c: seq<real>, h': seq<real>, l': seq<real>, c': seq<real>, period: nat, i: nat)
    requires SameLength(h, l, c) && 1 <= period && i < |c| && Agree(h, h', i) && Agree(l, l', i) && Agree(c, c', i)
    ensures AdxAt(h, l, c, period, i) == AdxAt(h', l', c', period, i)
  {
    forall j | period <= j < i
      ensures DxLine(h, l, c, period)[j] == DxLine(h', l', c', period)[j]
    {
      DirectionalLinesSeeUpTo(h, l, c, h', l', c', period, j);
    }
    AdxFromAgrees(DxLine(h, l, c, period), DxLine(h', l', c', period), period, i);
  }

  // ----- the DI lines do not keep to the package's contract -----

  function DiLine(highs: seq<real>, lows: seq<real>, closes: seq<real>, period: nat, i: nat, plus: bool): Num
    requires SameLength(highs, lows, closes) && 1 <= period && i < |closes|
  {
    if plus then DiAt(highs, lows, closes, period, i).0 else DiAt(highs, lows, closes, period, i).1
  }

  /** No bar from i on reaches the +DI (-DI) line at i. */
  ghost predicate DiExcludesBar(period: nat, n: nat, i: nat, plus: bool)
    requires 1 <= period && i < n
  {
    forall h, l, c, h', l', c' ::
      Consistent(h, l, c) && Consistent(h', l', c') && |c| == n
      && Agree(h, h', i) && Agree(l, l', i) && Agree(c, c', i)
      ==> DiLine(h, l, c, period, i, plus) == DiLine(h', l', c', period, i, plus)
  }

  function Zeros(n: nat): (r: seq<real>)
    ensures |r| == n && forall j :: 0 <= j < n ==> r[j] == 0.0
  {
    seq(n, _ => 0.0)
  }

  /** Zeros with one other value. */
  function LastIs(n: nat, i: nat, x: real): (r: seq<real>)
    ensures |r| == n && forall j :: 0 <= j < n ==> r[j] == if j == i then x else 0.0
  {
    seq(n, j => if j == i then x else 0.0)
  }

  /** Nothing moves before bar i, which makes a new high (low) x away. */
  ghost predicate OnlyMove(h: seq<real>, l: seq<real>, c: seq<real>, i: nat, x: real, plus: bool) {
    && SameLength(h, l, c) && 1 <= i < |c| && x >= 0.0
    && forall j :: 0 <= j <= i ==>
      c[j] == 0.0 && h[j] == (if plus && j == i then x else 0.0) && l[j] == (if !plus && j == i then -x else 0.0)
  }

  lemma {:induction false} SmoothLast(xs: seq<real>, period: nat, i: nat, j: nat)
    requires 1 <= period <= j <= i < |xs| && forall m :: 0 <= m < i ==> xs[m] == 0.0
    ensures Smooth(xs, period, j) == if j == i then xs[i] else 0.0
    decreases j
  {
    if j == period {
      FlatSum(xs, 1, period, 0.0);
    } else {
      SmoothLast(xs, period, i, j - 1);
    }
  }

  lemma MovesAreLong(h: seq<real>, l: seq<real>, c: seq<real>)
    requires SameLength(h, l, c)
    ensures |PlusMoves(h, l)| == |MinusMoves(h, l)| == |TrueRanges(h, l, c)| == |c|
  {}

  lemma {:induction false} TheOnlyMove(h: seq<real>, l: seq<real>, c: seq<real>, i: nat, m: nat, x: real, plus: bool)
    requires OnlyMove(h, l, c, i, x, plus) && m <= i
    ensures var y := if m == i then x else 0.0;
      (if plus then PlusMoves(h, l) else MinusMoves(h, l))[m] == y && TrueRanges(h, l, c)[m] == y
  {
    if m > 0 {
      MoveOf(h, l, m, if plus then h[m] else -l[m], plus);
      RangeOf(h, l, c, m, if plus then h[m] else -l[m], plus);
    }
  }

  /** Bar m rises above (falls below) a bar at zero. */
  lemma MoveOf(h: seq<real>, l: seq<real>, m: nat, y: real, plus: bool)
    requires |h| == |l| && 0 < m < |h| && h[m - 1] == 0.0 && l[m - 1] == 0.0 && y >= 0.0
    requires h[m] == (if plus then y else 0.0) && l[m] == (if plus then 0.0 else -y)
    ensures if plus then PlusMoves(h, l)[m] == y else MinusMoves(h, l)[m] == y
  {
    assert PlusMoves(h, l)[m] == Directional(h[m], -l[m]);
    assert MinusMoves(h, l)[m] == Directional(-l[m], h[m]);
  }

  lemma RangeOf(h: seq<real>, l: seq<real>, c: seq<real>, m: nat, y: real, plus: bool)
    requires SameLength(h, l, c) && 0 < m < |h| && c[m - 1] == 0.0 && y >= 0.0
    requires h[m] == (if plus then y else 0.0) && l[m] == (if plus then 0.0 else -y)
    ensures TrueRanges(h, l, c)[m] == y
  {
    hide OnlyMove;
  }

  lemma {:induction false} DiOfOnlyMove(
      h: seq<real>, l: seq<real>, c: seq<real>, period: nat, i: nat, x: real, plus: bool)
    requires 1 <= period <= i && OnlyMove(h, l, c, i, x, plus)
    ensures DiLine(h, l, c, period, i, plus) == Val(if x == 0.0 then 0.0 else 100.0)
  {
    MovesAreLong(h, l, c);
    hide Smooth, PlusMoves, MinusMoves, TrueRanges, Share;
    forall m | 0 <= m <= i
      ensures (if plus then PlusMoves(h, l) else MinusMoves(h, l))[m] == if m == i then x else 0.0
      ensures TrueRanges(h, l, c)[m] == if m == i then x else 0.0
    {
      TheOnlyMove(h, l, c, i, m, x, plus);
    }
    SmoothLast(if plus then PlusMoves(h, l) else MinusMoves(h, l), period, i, i);
    SmoothLast(TrueRanges(h, l, c), period, i, i);
    ShareOfAll(x);
  }

  lemma ShareOfAll(x: real)
    ensures Share(x, x) == if x == 0.0 then 0.0 else 100.0
  {}

  /** Against what the package and ADX itself say, bar i is read wherever the line is computed. */
  lemma {:induction false} DiExcludesBarExactly(period: nat, n: nat, i: nat, plus: bool)
    requires 1 <= period && i < n
    ensures DiExcludesBar(period, n, i, plus) <==> i < period
  {
    if period <= i {
      var flat, up, down := Zeros(n), LastIs(n, i, if plus then 1.0 else 0.0), LastIs(n, i, if plus then 0.0 else -1.0);
      DiOfOnlyMove(flat, flat, flat, period, i, 0.0, plus);
      DiOfOnlyMove(up, down, flat, period, i, 1.0, plus);
      hide DiLine, OnlyMove, Zeros, LastIs;
      assert DiLine(flat, flat, flat, period, i, plus) != DiLine(up, down, flat, period, i, plus);
    } else {
      forall h, l, c, h', l', c' | Consistent(h, l, c) && Consistent(h', l', c') && |c| == n && |c'| == n
        ensures DiLine(h, l, c, period, i, plus) == DiLine(h', l', c', period, i, plus)
      {
      }
    }
  }
}
