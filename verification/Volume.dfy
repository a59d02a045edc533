/** Volume indicators: dollar volume, OBV, VWAP, money flow index. */
module Volume {
  import opened Numbers
  import opened Series
  import opened Momentum

  function DollarVolAt(closes: seq<real>, volumes: seq<int>, i: nat): Num
    requires i < |closes| == |volumes|
  {
    if i < 1 then NaN else Val(closes[i - 1] * volumes[i - 1] as real)
  }

  method DollarVol(closes: seq<real>, volumes: seq<int>) returns (out: array<Num>)
    requires |closes| == |volumes|
    ensures out.Length == |closes| && forall i :: 0 <= i < |closes| ==> out[i] == DollarVolAt(closes, volumes, i)
  {
    out := new Num[|closes|](_ => NaN);
    for i := 0 to |closes|
      invariant forall k :: 0 <= k < i ==> out[k] == DollarVolAt(closes, volumes, k)
    {
      if i < 1 {
        out[i] := NaN;
        continue;
      }
      out[i] := Val(closes[i - 1] * volumes[i - 1] as real);
    }
  }

  // ----- on-balance volume -----

  /** The day's volume, signed by whether the close rose or fell. */
  function Signed(close: real, prev: real, volume: int): real {
    if close > prev then volume as real else if close < prev then -(volume as real) else 0.0
  }

  function Balance(closes: seq<real>, volumes: seq<int>, i: nat): real
    requires i < |closes| == |volumes|
    decreases i
  {
    if i < 2 then 0.0 else Balance(closes, volumes, i - 1) + Signed(closes[i - 1], closes[i - 2], volumes[i - 1])
  }

  function ObvAt(closes: seq<real>, volumes: seq<int>, i: nat): Num
    requires i < |closes| == |volumes|
  {
    if |closes| < 2 then NaN else Val(Balance(closes, volumes, i))
  }

  method OBV(closes: seq<real>, volumes: seq<int>) returns (out: array<Num>)
    requires |closes| == |volumes|
    ensures out.Length == |closes| && forall i :: 0 <= i < |closes| ==> out[i] == ObvAt(closes, volumes, i)
  {
    if |closes| < 2 {
      out := new Num[|closes|](_ => NaN);
      return;
    }
    out := new Num[|closes|](_ => Val(0.0));
    out[1] := Val(0.0);
    for i := 2 to |closes|
      invariant forall k {:trigger out[k]} :: 0 <= k < i ==> out[k] == Val(Balance(closes, volumes, k))
    {
      if closes[i - 1] > closes[i - 2] {
        out[i] := Val(out[i - 1].v + volumes[i - 1] as real);
      } else if closes[i - 1] < closes[i - 2] {
        out[i] := Val(out[i - 1].v - volumes[i - 1] as real);
      } else {
        out[i] := out[i - 1];
      }
    }
  }

  lemma {:induction false} ObvSeesOnlyPast(c: seq<real>, v: seq<int>, c': seq<real>, v': seq<int>, i: nat)
    requires i < |c| == |v| && Agree(c, c', i) && Agree(v, v', i)
    ensures ObvAt(c, v, i) == ObvAt(c', v', i)
    decreases i
  {
    if i >= 2 {
      ObvSeesOnlyPast(c, v, c', v', i - 1);
    }
  }

  /** Turning the closes upside down turns the balance around. */
  lemma {:induction false} ObvMirror(closes: seq<real>, volumes: seq<int>, i: nat)
    requires 2 <= |closes| == |volumes| && i < |closes|
    ensures ObvAt(Negated(closes), volumes, i) == Sub(Val(0.0), ObvAt(closes, volumes, i))
    decreases i
  {
    if i >= 2 {
      ObvMirror(closes, volumes, i - 1);
    }
  }

  // ----- VWAP -----

  function PriceVolume(tp: seq<real>, volumes: seq<int>): seq<real>
    requires |tp| == |volumes|
  {
    seq(|tp|, j requires 0 <= j < |tp| => tp[j] * volumes[j] as real)
  }

  function VwapAt(highs: seq<real>, lows: seq<real>, closes: seq<real>, volumes: seq<int>, period: int, i: nat): Num
    requires SameLength(highs, lows, closes) && |volumes| == |closes| && i < |closes|
  {
    if period < 1 || i < period then NaN
    else
      var sumV := SumIn(Reals(volumes), i - period, i);
      if sumV == 0.0 then NaN
      else Val(SumIn(PriceVolume(Typical(highs, lows, closes), volumes), i - period, i) / sumV)
  }

  method VWAP(highs: seq<real>, lows: seq<real>, closes: seq<real>, volumes: seq<int>, period: int)
    returns (out: array<Num>)
    requires SameLength(highs, lows, closes) && |volumes| == |closes|
    ensures out.Length == |closes|
    ensures forall i :: 0 <= i < |closes| ==> out[i] == VwapAt(highs, lows, closes, volumes, period, i)
  {
    out := new Num[|closes|](_ => Val(0.0));
    var tp := TypicalPrices(highs, lows, closes);
    hide Typical;
    ghost var pv, vs := PriceVolume(tp, volumes), Reals(volumes);
    for i := 0 to |closes|
      invariant forall k :: 0 <= k < i ==> out[k] == VwapAt(highs, lows, closes, volumes, period, k)
    {
      if i < period {
        out[i] := NaN;
        continue;
      }
      var sumTPV, sumV := 0.0, 0.0;
      var j := i - period;
      while j < i
        invariant period < 1 ==> j >= i && sumV == 0.0
        invariant period >= 1 ==> i - period <= j <= i
        invariant period >= 1 ==> sumTPV == SumIn(pv, i - period, j) && sumV == SumIn(vs, i - period, j)
      {
        sumTPV := sumTPV + tp[j] * volumes[j] as real;
        sumV := sumV + volumes[j] as real;
        j := j + 1;
      }
      out[i] := if sumV == 0.0 then NaN else Val(sumTPV / sumV);
    }
  }

  lemma {:induction false} VwapSeesOnlyPast(
      h: seq<real>, l: seq<real>, c: seq<real>, v: seq<int>, h': seq<real>, l': seq<real>, c': seq<real>, v': seq<int>,
      period: int, i: nat)
    requires SameLength(h, l, c) && |v| == |c| && i < |c|
    requires Agree(h, h', i) && Agree(l, l', i) && Agree(c, c', i) && Agree(v, v', i)
    ensures VwapAt(h, l, c, v, period, i) == VwapAt(h', l', c', v', period, i)
  {
    if 1 <= period <= i {
      TypicalAgrees(h, l, c, h', l', c', i);
      SumAgrees(Reals(v), Reals(v'), i - period, i);
      var tp, tp' := Typical(h, l, c), Typical(h', l', c');
      hide Typical;
      SumAgrees(PriceVolume(tp, v), PriceVolume(tp', v'), i - period, i);
    }
  }

  lemma {:induction false} WeightedSumBetween(tp: seq<real>, volumes: seq<int>, lo: nat, hi: nat, a: real, b: real)
    requires lo <= hi <= |tp| == |volumes|
    requires forall j :: lo <= j < hi ==> a <= tp[j] <= b && volumes[j] >= 0
    ensures a * SumIn(Reals(volumes), lo, hi) <= SumIn(PriceVolume(tp, volumes), lo, hi) <= b * SumIn(Reals(volumes), lo, hi)
    ensures SumIn(Reals(volumes), lo, hi) >= 0.0
  {
    if lo < hi {
      WeightedSumBetween(tp, volumes, lo, hi - 1, a, b);
      var v := volumes[hi - 1] as real;
      ProductNonNegative(tp[hi - 1] - a, v);
      ProductNonNegative(b - tp[hi - 1], v);
    }
  }

  lemma TypicalBetween(highs: seq<real>, lows: seq<real>, closes: seq<real>, j: nat, a: real, b: real)
    requires Consistent(highs, lows, closes) && j < |closes| && a <= lows[j] && highs[j] <= b
    ensures |Typical(highs, lows, closes)| == |closes| && a <= Typical(highs, lows, closes)[j] <= b
  {
    assert lows[j] <= closes[j] <= highs[j];
  }

  lemma WeightedMeanBetween(tp: seq<real>, volumes: seq<int>, lo: nat, hi: nat, a: real, b: real)
    requires lo <= hi <= |tp| == |volumes|
    requires forall j :: lo <= j < hi ==> a <= tp[j] <= b && volumes[j] >= 0
    ensures var sumV := SumIn(Reals(volumes), lo, hi);
      sumV != 0.0 ==> a <= SumIn(PriceVolume(tp, volumes), lo, hi) / sumV <= b
  {
    WeightedSumBetween(tp, volumes, lo, hi, a, b);
    var pv, sumV := SumIn(PriceVolume(tp, volumes), lo, hi), SumIn(Reals(volumes), lo, hi);
    hide SumIn, PriceVolume, Reals;
    if sumV != 0.0 {
      DivBetween(pv, sumV, a, b);
    }
  }

  /** A volume weighted average price lies between any bounds on its window's bars: between the lowest low and
      the highest high. */
  lemma {:induction false} VwapBetween(
      highs: seq<real>, lows: seq<real>, closes: seq<real>, volumes: seq<int>, period: nat, i: nat, a: real, b: real)
    requires Consistent(highs, lows, closes) && |volumes| == |closes| && 1 <= period <= i < |closes|
    requires forall j :: i - period <= j < i ==> a <= lows[j] && highs[j] <= b && volumes[j] >= 0
    ensures var x := VwapAt(highs, lows, closes, volumes, period, i); x.Val? ==> Between(x, a, b)
  {
    var tp := Typical(highs, lows, closes);
    assert |tp| == |closes|;
    hide Typical, SumIn, PriceVolume;
    forall j | i - period <= j < i ensures a <= tp[j] <= b {
      TypicalBetween(highs, lows, closes, j, a, b);
    }
    WeightedMeanBetween(tp, volumes, i - period, i, a, b);
  }

  // ----- money flow index -----

  /** The money flow of the bars whose typical price rose (fell) against the bar before. */
  function Flows(tp: seq<real>, volumes: seq<int>, rising: bool): seq<real>
    requires |tp| == |volumes|
  {
    seq(|tp|, j requires 0 <= j < |tp| =>
      if j > 0 && (if rising then tp[j] > tp[j - 1] else tp[j] < tp[j - 1]) then tp[j] * volumes[j] as real else 0.0)
  }

  /** No falling flow reads 100. With negative prices the flows can cancel to an infinite quotient, shown as NaN. */
  function MfiFrom(pos: real, neg: real): Num {
    if neg == 0.0 then Val(100.0)
    else if 1.0 + pos / neg == 0.0 then NaN
    else Val(100.0 - 100.0 / (1.0 + pos / neg))
  }

  /** A period below 1 has an empty window, which reads 100. */
  function MfiAt(highs: seq<real>, lows: seq<real>, closes: seq<real>, volumes: seq<int>, period: int, i: nat): Num
    requires SameLength(highs, lows, closes) && |volumes| == |closes| && -1 <= period && i < |closes|
  {
    if |closes| < period + 1 then NaN
    else if i <= period then Val(0.0)
    else if period < 1 then Val(100.0)
    else
      var tp := Typical(highs, lows, closes);
      MfiFrom(SumIn(Flows(tp, volumes, true), i - period, i), SumIn(Flows(tp, volumes, false), i - period, i))
  }

  /** With a period below -1 the first write is outside the slice. */
  method MFI(highs: seq<real>, lows: seq<real>, closes: seq<real>, volumes: seq<int>, period: int)
    returns (out: array<Num>)
    requires SameLength(highs, lows, closes) && |volumes| == |closes| && -1 <= period
    ensures out.Length == |closes|
    ensures forall i :: 0 <= i < |closes| ==> out[i] == MfiAt(highs, lows, closes, volumes, period, i)
  {
    if |closes| < period + 1 {
      out := new Num[|closes|](_ => NaN);
      return;
    }
    out := new Num[|closes|](_ => Val(0.0));
    var tp := TypicalPrices(highs, lows, closes);
    hide Typical;
    for i := period + 1 to |closes|
      invariant forall k :: 0 <= k < i ==> out[k] == MfiAt(highs, lows, closes, volumes, period, k)
    {
      var posFlow, negFlow := SumFlows(tp, volumes, i - period, i);
      out[i] := MfiFrom(posFlow, negFlow);
    }
  }

  method SumFlows(tp: seq<real>, volumes: seq<int>, lo: nat, hi: nat) returns (posFlow: real, negFlow: real)
    requires 1 <= lo && hi <= |tp| == |volumes|
    ensures lo <= hi ==>
      posFlow == SumIn(Flows(tp, volumes, true), lo, hi) && negFlow == SumIn(Flows(tp, volumes, false), lo, hi)
    ensures hi <= lo ==> posFlow == 0.0 && negFlow == 0.0
  {
    posFlow, negFlow := 0.0, 0.0;
    ghost var up, down := Flows(tp, volumes, true), Flows(tp, volumes, false);
    var j := lo;
    while j < hi
      invariant lo <= j && (lo <= hi ==> j <= hi)
      invariant j <= hi ==> posFlow == SumIn(up, lo, j) && negFlow == SumIn(down, lo, j)
      invariant hi <= lo ==> posFlow == 0.0 && negFlow == 0.0
    {
      var rawMF := tp[j] * volumes[j] as real;
      if tp[j] > tp[j - 1] {
        posFlow := posFlow + rawMF;
      } else if tp[j] < tp[j - 1] {
        negFlow := negFlow + rawMF;
      }
      j := j + 1;
    }
  }

  lemma {:induction false} MfiSeesOnlyPast(
      h: seq<real>, l: seq<real>, c: seq<real>, v: seq<int>, h': seq<real>, l': seq<real>, c': seq<real>, v': seq<int>,
      period: int, i: nat)
    requires SameLength(h, l, c) && |v| == |c| && -1 <= period && i < |c|
    requires Agree(h, h', i) && Agree(l, l', i) && Agree(c, c', i) && Agree(v, v', i)
    ensures MfiAt(h, l, c, v, period, i) == MfiAt(h', l', c', v', period, i)
  {
    if 1 <= period < i {
      TypicalAgrees(h, l, c, h', l', c', i);
      var tp, tp' := Typical(h, l, c), Typical(h', l', c');
      hide Typical;
      FlowsAgree(tp, v, tp', v', true, i);
      FlowsAgree(tp, v, tp', v', false, i);
      hide Flows;
      SumAgrees(Flows(tp, v, true), Flows(tp', v', true), i - period, i);
      SumAgrees(Flows(tp, v, false), Flows(tp', v', false), i - period, i);
    }
  }

  lemma {:induction false} FlowsAgree(tp: seq<real>, v: seq<int>, tp': seq<real>, v': seq<int>, rising: bool, i: nat)
    requires |tp| == |v| && Agree(tp, tp', i) && Agree(v, v', i)
    ensures Agree(Flows(tp, v, rising), Flows(tp', v', rising), i)
  {}

  /** Once defined, MFI lies between 0 and 100 for prices and volumes that are not negative. */
  lemma {:induction false} MfiBetween(
      highs: seq<real>, lows: seq<real>, closes: seq<real>, volumes: seq<int>, period: int, i: nat)
    requires Consistent(highs, lows, closes) && |volumes| == |closes| && -1 <= period < i < |closes|
    requires forall j :: 0 <= j < i ==> lows[j] >= 0.0 && volumes[j] >= 0
    ensures Between(MfiAt(highs, lows, closes, volumes, period, i), 0.0, 100.0)
  {
    if period < 1 {
      return;
    }
    var tp := Typical(highs, lows, closes);
    forall j | 0 <= j < i ensures tp[j] >= 0.0 {
      assert lows[j] <= closes[j] <= highs[j];
    }
    hide Typical;
    forall j, rising | 0 <= j < i ensures Flows(tp, volumes, rising)[j] >= 0.0 {
      ProductNonNegative(tp[j], volumes[j] as real);
    }
    var pos, neg := SumIn(Flows(tp, volumes, true), i - period, i), SumIn(Flows(tp, volumes, false), i - period, i);
    SumNonNegative(Flows(tp, volumes, true), i - period, i);
    SumNonNegative(Flows(tp, volumes, false), i - period, i);
    if neg != 0.0 {
      QuotientNonNegative(pos, neg);
      RsiIsShare(pos, neg);
      DivBetween(100.0 * pos, pos + neg, 0.0, 100.0);
    }
  }
}
