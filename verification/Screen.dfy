/** The cross-sectional row of one symbol: every indicator read at the last bar, and the two cross flags. */
module Screen {
  import opened Numbers
  import opened Series
  import opened Snapshot
  import opened Trend
  import opened Momentum
  import opened Volatility
  import Adx
  import Price
  import Volume

  datatype Bar = Bar(symbol: string, timestamp: int, open: real, high: real, low: real, close: real, volume: int)

  /** A bar history as the parallel slices the indicators take. */
  datatype Prices = Prices(closes: seq<real>, highs: seq<real>, lows: seq<real>, opens: seq<real>, volumes: seq<int>)

  predicate Aligned(p: Prices) {
    |p.closes| == |p.highs| == |p.lows| == |p.opens| == |p.volumes|
  }

  function Columns(bars: seq<Bar>): (p: Prices)
    ensures Aligned(p) && |p.closes| == |bars|
  {
    Prices(
      seq(|bars|, i requires 0 <= i < |bars| => bars[i].close),
      seq(|bars|, i requires 0 <= i < |bars| => bars[i].high),
      seq(|bars|, i requires 0 <= i < |bars| => bars[i].low),
      seq(|bars|, i requires 0 <= i < |bars| => bars[i].open),
      seq(|bars|, i requires 0 <= i < |bars| => bars[i].volume))
  }

  /** What stands outside the model: the square root, and the columns of indicators that are not modelled. */
  datatype Outside = Outside(sqrt: real -> real, others: seq<Bar> -> map<string, Num>)

  function Flag(b: bool): Num { Val(if b then 1.0 else 0.0) }

  function TrendRow(p: Prices, i: nat): map<string, Num>
    requires Aligned(p) && i < |p.closes|
  {
    var c := Lift(p.closes);
    map["sma5" := SmaAt(c, 5, i), "sma10" := SmaAt(c, 10, i), "sma20" := SmaAt(c, 20, i), "sma30" := SmaAt(c, 30, i),
        "sma50" := SmaAt(c, 50, i), "sma100" := SmaAt(c, 100, i), "sma200" := SmaAt(c, 200, i),
        "ema10" := EmaAt(c, 10, i), "ema21" := EmaAt(c, 21, i), "ema50" := EmaAt(c, 50, i),
        "ema100" := EmaAt(c, 100, i), "ema200" := EmaAt(c, 200, i)]
  }

  function MomentumRow(p: Prices, i: nat): map<string, Num>
    requires Aligned(p) && i < |p.closes|
  {
    map["rsi14" := RsiAt(p.closes, 14, i),
        "macd" := MacdAt(p.closes, i), "macd_signal" := SignalAt(p.closes, i),
        "macd_hist" := Sub(MacdAt(p.closes, i), SignalAt(p.closes, i)),
        "stoch_k" := KAt(p.highs, p.lows, p.closes, 14, 3, i),
        "stoch_d" := SmaAt(Ks(p.highs, p.lows, p.closes, 14, 3), 3, i),
        "willr14" := WilliamsAt(p.highs, p.lows, p.closes, 14, i),
        "cci20" := CciAt(p.highs, p.lows, p.closes, 20, i),
        "roc10" := Price.RocAt(p.closes, 10, i), "roc20" := Price.RocAt(p.closes, 20, i),
        "adx14" := Adx.AdxAt(p.highs, p.lows, p.closes, 14, i)]
  }

  function StructureRow(p: Prices, sqrt: real -> real, i: nat): map<string, Num>
    requires Aligned(p) && i < |p.closes|
  {
    var bands := BandsAt(p.closes, 20, 2.0, sqrt, i);
    map["bb_upper" := bands.upper, "bb_mid" := bands.middle, "bb_lower" := bands.lower,
        "high_52w" := Price.RollingAt(p.highs, 252, true, i), "low_52w" := Price.RollingAt(p.lows, 252, false, i),
        "gap_pct" := Price.GapAt(p.opens, p.closes, i),
        "true_range" := Price.TrueRangeAt(p.highs, p.lows, p.closes, i)]
  }

  function ReturnRow(p: Prices, i: nat): map<string, Num>
    requires Aligned(p) && i < |p.closes|
  {
    map["ret_1d" := Price.ReturnAt(p.closes, 1, i), "ret_5d" := Price.ReturnAt(p.closes, 5, i),
        "ret_1m" := Price.ReturnAt(p.closes, 21, i), "ret_3m" := Price.ReturnAt(p.closes, 63, i),
        "ret_6m" := Price.ReturnAt(p.closes, 126, i), "ret_1y" := Price.ReturnAt(p.closes, 252, i)]
  }

  function VolumeRow(p: Prices, i: nat): map<string, Num>
    requires Aligned(p) && i < |p.closes|
  {
    map["dollar_vol" := Volume.DollarVolAt(p.closes, p.volumes, i), "obv" := Volume.ObvAt(p.closes, p.volumes, i),
        "mfi14" := Volume.MfiAt(p.highs, p.lows, p.closes, p.volumes, 14, i)]
  }

  /** The two flags compare the last two values of an indicator; a single bar has neither. */
  function CrossRow(p: Prices, i: nat): map<string, Num>
    requires Aligned(p) && i < |p.closes|
  {
    if i < 1 then map["golden_cross" := Flag(false), "oversold_bounce" := Flag(false)]
    else
      var c := Lift(p.closes);
      map["golden_cross" := Flag(Greater(SmaAt(c, 50, i), SmaAt(c, 200, i)) && AtMost(SmaAt(c, 50, i - 1), SmaAt(c, 200, i - 1))),
          "oversold_bounce" := Flag(Greater(RsiAt(p.closes, 14, i), Val(30.0)) && AtMost(RsiAt(p.closes, 14, i - 1), Val(30.0)))]
  }

  /** The columns whose indicator reads only the bars before the last. */
  function PastRow(p: Prices, sqrt: real -> real, i: nat): map<string, Num>
    requires Aligned(p) && i < |p.closes|
  {
    TrendRow(p, i) + MomentumRow(p, i) + StructureRow(p, sqrt, i) + ReturnRow(p, i) + VolumeRow(p, i) + CrossRow(p, i)
  }

  /** The columns that read the last bar itself: its prices, the DI lines, CMF and Aroon. */
  function CurrentRow(p: Prices, i: nat): map<string, Num>
    requires Aligned(p) && i < |p.closes|
  {
    var (plus, minus) := Adx.DiAt(p.highs, p.lows, p.closes, 14, i);
    map["close" := Val(p.closes[i]), "high" := Val(p.highs[i]), "low" := Val(p.lows[i]), "open" := Val(p.opens[i]),
        "di_plus" := plus, "di_minus" := minus,
        "cmf20" := CmfAt(p.highs, p.lows, p.closes, p.volumes, 20, i),
        "aroon_up" := AroonAt(p.highs, 25, i, true), "aroon_down" := AroonAt(p.lows, 25, i, false),
        "aroon_osc" := Sub(AroonAt(p.highs, 25, i, true), AroonAt(p.lows, 25, i, false))]
  }

  function PastColumns(bars: seq<Bar>, outside: Outside): map<string, Num>
    requires bars != []
  {
    PastRow(Columns(bars), outside.sqrt, |bars| - 1)
  }

  function Row(symbol: string, bars: seq<Bar>, outside: Outside): SnapshotRow
    requires bars != []
  {
    SnapshotRow(symbol, outside.others(bars) + CurrentRow(Columns(bars), |bars| - 1) + PastColumns(bars, outside))
  }

  // ----- Build -----

  lemma ColumnsAt(bars: seq<Bar>, i: nat)
    requires i < |bars|
    ensures var p, b := Columns(bars), bars[i];
      && p.closes[i] == b.close && p.highs[i] == b.high && p.lows[i] == b.low && p.opens[i] == b.open
      && p.volumes[i] == b.volume
  {}

  method Slices(bars: seq<Bar>) returns (p: Prices)
    ensures p == Columns(bars)
  {
    hide Columns;
    var n := |bars|;
    ghost var q := Columns(bars);
    var closes, highs, lows := new real[n], new real[n], new real[n];
    var opens, volumes := new real[n], new int[n];
    for i := 0 to n
      invariant forall j {:trigger closes[j]} :: 0 <= j < i ==> closes[j] == q.closes[j]
      invariant forall j {:trigger highs[j]} :: 0 <= j < i ==> highs[j] == q.highs[j]
      invariant forall j {:trigger lows[j]} :: 0 <= j < i ==> lows[j] == q.lows[j]
      invariant forall j {:trigger opens[j]} :: 0 <= j < i ==> opens[j] == q.opens[j]
      invariant forall j {:trigger volumes[j]} :: 0 <= j < i ==> volumes[j] == q.volumes[j]
    {
      ColumnsAt(bars, i);
      closes[i], highs[i], lows[i], opens[i], volumes[i] :=
        bars[i].close, bars[i].high, bars[i].low, bars[i].open, bars[i].volume;
    }
    p := Prices(closes[..], highs[..], lows[..], opens[..], volumes[..]);
  }

  method TrendColumns(p: Prices, last: nat) returns (row: map<string, Num>, crossed: bool)
    requires Aligned(p) && last + 1 == |p.closes|
    ensures row == TrendRow(p, last)
    ensures crossed <==> last >= 1 && CrossRow(p, last)["golden_cross"] == Flag(true)
  {
    hide SmaAt, EmaAt, RsiAt;
    var c := Lift(p.closes);
    var sma5 := SMA(c, 5);
    var sma10 := SMA(c, 10);
    var sma20 := SMA(c, 20);
    var sma30 := SMA(c, 30);
    var sma50 := SMA(c, 50);
    var sma100 := SMA(c, 100);
    var sma200 := SMA(c, 200);
    var ema10 := EMA(c, 10);
    var ema21 := EMA(c, 21);
    var ema50 := EMA(c, 50);
    var ema100 := EMA(c, 100);
    var ema200 := EMA(c, 200);
    row := map["sma5" := sma5[last], "sma10" := sma10[last], "sma20" := sma20[last], "sma30" := sma30[last],
               "sma50" := sma50[last], "sma100" := sma100[last], "sma200" := sma200[last],
               "ema10" := ema10[last], "ema21" := ema21[last], "ema50" := ema50[last],
               "ema100" := ema100[last], "ema200" := ema200[last]];
    crossed := last >= 1 && Greater(sma50[last], sma200[last]) && AtMost(sma50[last - 1], sma200[last - 1]);
  }

  method MomentumColumns(p: Prices, last: nat) returns (row: map<string, Num>, bounced: bool, plus: Num, minus: Num)
    requires Aligned(p) && last + 1 == |p.closes|
    ensures row == MomentumRow(p, last)
    ensures bounced <==> last >= 1 && CrossRow(p, last)["oversold_bounce"] == Flag(true)
    ensures (plus, minus) == Adx.DiAt(p.highs, p.lows, p.closes, 14, last)
  {
    hide SmaAt, RsiAt, MacdAt, SignalAt, KAt, Ks, WilliamsAt, CciAt, Price.RocAt, Adx.AdxAt, Adx.DiAt;
    var rsi := RSI(p.closes, 14);
    var macd, macdSignal, macdHist := MACD(p.closes);
    var stochK, stochD := Stochastic(p.highs, p.lows, p.closes, 14, 3, 3);
    var williamsR := WilliamsR(p.highs, p.lows, p.closes, 14);
    var cci20 := CCI(p.highs, p.lows, p.closes, 20);
    var roc10 := Price.ROC(p.closes, 10);
    var roc20 := Price.ROC(p.closes, 20);
    var adx14, diPlus, diMinus := Adx.ADX(p.highs, p.lows, p.closes, 14);
    row := map["rsi14" := rsi[last], "macd" := macd[last], "macd_signal" := macdSignal[last],
               "macd_hist" := macdHist[last], "stoch_k" := stochK[last], "stoch_d" := stochD[last],
               "willr14" := williamsR[last], "cci20" := cci20[last], "roc10" := roc10[last], "roc20" := roc20[last],
               "adx14" := adx14[last]];
    bounced := last >= 1 && Greater(rsi[last], Val(30.0)) && AtMost(rsi[last - 1], Val(30.0));
    plus, minus := diPlus[last], diMinus[last];
  }

  method StructureColumns(p: Prices, sqrt: real -> real, last: nat) returns (row: map<string, Num>)
    requires Aligned(p) && last + 1 == |p.closes|
    ensures row == StructureRow(p, sqrt, last)
  {
    hide BandsAt, Price.RollingAt, Price.GapAt, Price.TrueRangeAt;
    var bbUpper, bbMiddle, bbLower := BollingerBands(p.closes, 20, 2.0, sqrt);
    var hi52 := Price.RollingExtreme(p.highs, 252, true);
    var lo52 := Price.RollingExtreme(p.lows, 252, false);
    var gapPct := Price.GapPct(p.opens, p.closes);
    var trueRange := Price.TrueRange(p.highs, p.lows, p.closes);
    assert Bands(bbUpper[last], bbMiddle[last], bbLower[last]) == BandsAt(p.closes, 20, 2.0, sqrt, last);
    row := map["bb_upper" := bbUpper[last], "bb_mid" := bbMiddle[last], "bb_lower" := bbLower[last],
               "high_52w" := hi52[last], "low_52w" := lo52[last],
               "gap_pct" := gapPct[last], "true_range" := trueRange[last]];
  }

  method ReturnColumns(p: Prices, last: nat) returns (row: map<string, Num>)
    requires Aligned(p) && last + 1 == |p.closes|
    ensures row == ReturnRow(p, last)
  {
    hide Price.ReturnAt;
    var ret1d := Price.Return(p.closes, 1);
    var ret5d := Price.Return(p.closes, 5);
    var ret1m := Price.Return(p.closes, 21);
    var ret3m := Price.Return(p.closes, 63);
    var ret6m := Price.Return(p.closes, 126);
    var ret1y := Price.Return(p.closes, 252);
    row := map["ret_1d" := ret1d[last], "ret_5d" := ret5d[last], "ret_1m" := ret1m[last],
               "ret_3m" := ret3m[last], "ret_6m" := ret6m[last], "ret_1y" := ret1y[last]];
  }

  method VolumeColumns(p: Prices, last: nat) returns (row: map<string, Num>, cmf: Num)
    requires Aligned(p) && last + 1 == |p.closes|
    ensures row == VolumeRow(p, last)
    ensures cmf == CmfAt(p.highs, p.lows, p.closes, p.volumes, 20, last)
  {
    hide CmfAt, Volume.DollarVolAt, Volume.ObvAt, Volume.MfiAt;
    var dollarVol := Volume.DollarVol(p.closes, p.volumes);
    var obv := Volume.OBV(p.closes, p.volumes);
    var mfi14 := Volume.MFI(p.highs, p.lows, p.closes, p.volumes, 14);
    var cmf20 := CMF(p.highs, p.lows, p.closes, p.volumes, 20);
    row := map["dollar_vol" := dollarVol[last], "obv" := obv[last], "mfi14" := mfi14[last]];
    cmf := cmf20[last];
  }

  /** The columns that exclude the last bar, the DI lines and CMF. */
  method IndicatorColumns(p: Prices, sqrt: real -> real, last: nat)
    returns (past: map<string, Num>, plus: Num, minus: Num, cmf: Num)
    requires Aligned(p) && last + 1 == |p.closes|
    ensures past == PastRow(p, sqrt, last)
    ensures (plus, minus) == Adx.DiAt(p.highs, p.lows, p.closes, 14, last)
    ensures cmf == CmfAt(p.highs, p.lows, p.closes, p.volumes, 20, last)
  {
    hide TrendRow, MomentumRow, StructureRow, ReturnRow, VolumeRow, CmfAt, Adx.DiAt, Greater, AtMost, SmaAt, RsiAt;
    var trend, crossed := TrendColumns(p, last);
    var momentum, bounced, diPlus, diMinus := MomentumColumns(p, last);
    var structure := StructureColumns(p, sqrt, last);
    var returns_ := ReturnColumns(p, last);
    var volume, cmf20 := VolumeColumns(p, last);
    var crosses := map["golden_cross" := Flag(crossed), "oversold_bounce" := Flag(bounced)];
    assert crosses == CrossRow(p, last);
    past := trend + momentum + structure + returns_ + volume + crosses;
    plus, minus, cmf := diPlus, diMinus, cmf20;
  }

  /** The columns that read the last bar. */
  method CurrentColumns(bar: Bar, p: Prices, last: nat, plus: Num, minus: Num, cmf: Num)
    returns (current: map<string, Num>)
    requires Aligned(p) && last + 1 == |p.closes|
    requires p.closes[last] == bar.close && p.highs[last] == bar.high
    requires p.lows[last] == bar.low && p.opens[last] == bar.open
    requires (plus, minus) == Adx.DiAt(p.highs, p.lows, p.closes, 14, last)
    requires cmf == CmfAt(p.highs, p.lows, p.closes, p.volumes, 20, last)
    ensures current == CurrentRow(p, last)
  {
    hide CmfAt, Adx.DiAt, AroonAt;
    var up, down, osc := Aroon(p.highs, p.lows, 25);
    var aroonUp, aroonDown, aroonOsc := up[last], down[last], osc[last];
    current := map[
      "close" := Val(bar.close), "high" := Val(bar.high), "low" := Val(bar.low), "open" := Val(bar.open),
      "di_plus" := plus, "di_minus" := minus, "cmf20" := cmf,
      "aroon_up" := aroonUp, "aroon_down" := aroonDown, "aroon_osc" := aroonOsc];
  }

  method Build(symbol: string, bars: seq<Bar>, outside: Outside) returns (row: SnapshotRow, ok: bool)
    ensures ok <==> bars != []
    ensures ok ==> row == Row(symbol, bars, outside)
  {
    if bars == [] {
      return SnapshotRow("", map[]), false;
    }
    hide PastRow, Columns, CmfAt, Adx.DiAt, CurrentRow;
    var p := Slices(bars);
    var last := |bars| - 1;
    var past, plus, minus, cmf := IndicatorColumns(p, outside.sqrt, last);
    ColumnsAt(bars, last);
    var current := CurrentColumns(bars[last], p, last, plus, minus, cmf);
    row := SnapshotRow(symbol, outside.others(bars) + current + past);
    ok := true;
  }

  // ----- no lookahead -----

  ghost predicate SamePast(p: Prices, q: Prices, i: nat) {
    && Agree(p.closes, q.closes, i) && Agree(p.highs, q.highs, i) && Agree(p.lows, q.lows, i)
    && Agree(p.opens, q.opens, i) && Agree(p.volumes, q.volumes, i)
  }

  lemma {:induction false} TrendRowSeesOnlyPast(p: Prices, q: Prices, i: nat)
    requires Aligned(p) && Aligned(q) && i < |p.closes| && SamePast(p, q, i)
    ensures TrendRow(p, i) == TrendRow(q, i)
  {
    var c, c' := Lift(p.closes), Lift(q.closes);
    forall period: int
      ensures SmaAt(c, period, i) == SmaAt(c', period, i) && EmaAt(c, period, i) == EmaAt(c', period, i)
    {
      SmaSeesOnlyPast(c, c', period, i);
      EmaSeesOnlyPast(c, c', period, i);
    }
    hide SmaAt, EmaAt, Lift;
  }

  lemma {:induction false} MomentumRowSeesOnlyPast(p: Prices, q: Prices, i: nat)
    requires Aligned(p) && Aligned(q) && i < |p.closes| && SamePast(p, q, i)
    ensures MomentumRow(p, i) == MomentumRow(q, i)
  {
    hide RsiAt, MacdAt, SignalAt, KAt, Ks, SmaAt, WilliamsAt, CciAt, Price.RocAt, Adx.AdxAt, RawKAt;
    RsiSeesOnlyPast(p.closes, q.closes, 14, i);
    MacdSeesOnlyPast(p.closes, q.closes, i);
    KSeesOnlyPast(p.highs, p.lows, p.closes, q.highs, q.lows, q.closes, 14, 3, i);
    DSeesOnlyPast(p.highs, p.lows, p.closes, q.highs, q.lows, q.closes, 14, 3, 3, i);
    RawKSeesOnlyPast(p.highs, p.lows, p.closes, q.highs, q.lows, q.closes, 14, i);
    WilliamsIsShiftedStochastic(p.highs, p.lows, p.closes, 14, i);
    WilliamsIsShiftedStochastic(q.highs, q.lows, q.closes, 14, i);
    CciSeesOnlyPast(p.highs, p.lows, p.closes, q.highs, q.lows, q.closes, 20, i);
    RocsSeeOnlyPast(p.closes, q.closes, i);
    Adx.AdxSeesOnlyPast(p.highs, p.lows, p.closes, q.highs, q.lows, q.closes, 14, i);
  }

  lemma {:induction false} RocsSeeOnlyPast(c: seq<real>, c': seq<real>, i: nat)
    requires i < |c| && Agree(c, c', i)
    ensures forall period: nat :: Price.RocAt(c, period, i) == Price.RocAt(c', period, i)
    ensures forall k: int :: Price.ReturnAt(c, k, i) == Price.ReturnAt(c', k, i)
  {}

  lemma {:induction false} StructureRowSeesOnlyPast(p: Prices, q: Prices, sqrt: real -> real, i: nat)
    requires Aligned(p) && Aligned(q) && i < |p.closes| && SamePast(p, q, i)
    ensures StructureRow(p, sqrt, i) == StructureRow(q, sqrt, i)
  {
    BandsSeeOnlyPast(p.closes, q.closes, 20, 2.0, sqrt, i);
    Price.RollingSeesOnlyPast(p.highs, q.highs, 252, true, i);
    Price.RollingSeesOnlyPast(p.lows, q.lows, 252, false, i);
    hide BandsAt, Price.RollingAt;
  }

  lemma {:induction false} VolumeRowSeesOnlyPast(p: Prices, q: Prices, i: nat)
    requires Aligned(p) && Aligned(q) && i < |p.closes| && SamePast(p, q, i)
    ensures VolumeRow(p, i) == VolumeRow(q, i)
  {
    if i >= 1 {
      assert p.closes[i - 1] == q.closes[i - 1] && p.volumes[i - 1] == q.volumes[i - 1];
    }
    Volume.ObvSeesOnlyPast(p.closes, p.volumes, q.closes, q.volumes, i);
    Volume.MfiSeesOnlyPast(
      p.highs, p.lows, p.closes, p.volumes, q.highs, q.lows, q.closes, q.volumes, 14, i);
    hide Volume.ObvAt, Volume.MfiAt;
    assert Volume.DollarVolAt(p.closes, p.volumes, i) == Volume.DollarVolAt(q.closes, q.volumes, i);
    hide Volume.DollarVolAt;
  }

  lemma {:induction false} CrossRowSeesOnlyPast(p: Prices, q: Prices, i: nat)
    requires Aligned(p) && Aligned(q) && i < |p.closes| && SamePast(p, q, i)
    ensures CrossRow(p, i) == CrossRow(q, i)
  {
    if i >= 1 {
      var c, c' := Lift(p.closes), Lift(q.closes);
      SmaSeesOnlyPast(c, c', 50, i);
      SmaSeesOnlyPast(c, c', 200, i);
      SmaSeesOnlyPast(c, c', 50, i - 1);
      SmaSeesOnlyPast(c, c', 200, i - 1);
      RsiSeesOnlyPast(p.closes, q.closes, 14, i);
      RsiSeesOnlyPast(p.closes, q.closes, 14, i - 1);
      hide SmaAt, RsiAt, Lift;
    }
  }

  /** Nothing from bar i on reaches the forty-one columns of PastRow at i: the contract of the indicator package, which
      the indicators of CurrentRow break. */
  lemma {:induction false} PastRowSeesOnlyPast(p: Prices, q: Prices, sqrt: real -> real, i: nat)
    requires Aligned(p) && Aligned(q) && i < |p.closes| && SamePast(p, q, i)
    ensures PastRow(p, sqrt, i) == PastRow(q, sqrt, i)
  {
    TrendRowSeesOnlyPast(p, q, i);
    MomentumRowSeesOnlyPast(p, q, i);
    StructureRowSeesOnlyPast(p, q, sqrt, i);
    RocsSeeOnlyPast(p.closes, q.closes, i);
    VolumeRowSeesOnlyPast(p, q, i);
    CrossRowSeesOnlyPast(p, q, i);
    hide TrendRow, MomentumRow, StructureRow, VolumeRow, CrossRow, Price.ReturnAt;
  }

  ghost predicate Shows(row: SnapshotRow, columns: map<string, Num>) {
    forall c :: c in columns ==> c in row.features && row.features[c] == columns[c]
  }

  lemma {:induction false} PastColumnsStand(symbol: string, bars: seq<Bar>, outside: Outside)
    requires bars != []
    ensures Shows(Row(symbol, bars, outside), PastColumns(bars, outside))
  {
    hide PastColumns, CurrentRow, Columns;
  }

  function Swapped(bars: seq<Bar>, last: Bar): (r: seq<Bar>)
    requires bars != []
    ensures |r| == |bars| && r[..|bars| - 1] == bars[..|bars| - 1] && r[|bars| - 1] == last
  {
    bars[..|bars| - 1] + [last]
  }

  lemma {:induction false} PastColumnsSeeOnlyPast(bars: seq<Bar>, last: Bar, outside: Outside)
    requires bars != []
    ensures PastColumns(Swapped(bars, last), outside) == PastColumns(bars, outside)
  {
    hide PastRow, Columns, SamePast, Swapped;
    SwapKeepsPast(bars, last);
    PastRowSeesOnlyPast(Columns(bars), Columns(Swapped(bars, last)), outside.sqrt, |bars| - 1);
  }

  /** The scan's row for a symbol: swap the newest bar for any other, and the row still shows the same values in the
      columns that do not read it. */
  lemma {:induction false} RowSeesOnlyPast(symbol: string, bars: seq<Bar>, last: Bar, outside: Outside)
    requires bars != []
    ensures Shows(Row(symbol, bars, outside), PastColumns(bars, outside))
    ensures Shows(Row(symbol, Swapped(bars, last), outside), PastColumns(bars, outside))
  {
    hide PastColumns, Row, Shows, Swapped;
    PastColumnsSeeOnlyPast(bars, last, outside);
    PastColumnsStand(symbol, bars, outside);
    PastColumnsStand(symbol, Swapped(bars, last), outside);
  }

  lemma {:induction false} SwapKeepsPast(bars: seq<Bar>, last: Bar)
    requires bars != []
    ensures SamePast(Columns(bars), Columns(Swapped(bars, last)), |bars| - 1)
  {}

  // ----- the oscillator columns -----

  ghost predicate SaneBars(bars: seq<Bar>) {
    forall j :: 0 <= j < |bars| ==> 0.0 <= bars[j].low <= bars[j].close <= bars[j].high && bars[j].volume >= 0
  }

  lemma {:induction false} StochasticWithin(p: Prices, i: nat)
    requires Aligned(p) && i < |p.closes| && Consistent(p.highs, p.lows, p.closes)
    ensures Within(KAt(p.highs, p.lows, p.closes, 14, 3, i), 0.0, 100.0)
    ensures Within(SmaAt(Ks(p.highs, p.lows, p.closes, 14, 3), 3, i), 0.0, 100.0)
  {
    forall j | 0 <= j <= i ensures Within(KAt(p.highs, p.lows, p.closes, 14, 3, j), 0.0, 100.0) {
      var raw := RawKs(p.highs, p.lows, p.closes, 14);
      forall m | 0 <= m < j ensures Within(raw[m], 0.0, 100.0) {
        if m >= 14 {
          RawKBetween(p.highs, p.lows, p.closes, 14, m);
        }
      }
      if j >= 16 {
        MeanWithin(raw, j - 3, j, 0.0, 100.0);
      }
    }
    if i >= 3 {
      var ks := Ks(p.highs, p.lows, p.closes, 14, 3);
      hide KAt;
      MeanWithin(ks, i - 3, i, 0.0, 100.0);
    }
  }

  lemma {:induction false} DirectionalWithin(p: Prices, i: nat)
    requires Aligned(p) && i < |p.closes| && Consistent(p.highs, p.lows, p.closes)
    ensures var (plus, minus) := Adx.DiAt(p.highs, p.lows, p.closes, 14, i);
      && Within(plus, 0.0, 100.0) && Within(minus, 0.0, 100.0)
      && (plus.Val? && minus.Val? ==> plus.v + minus.v <= 100.0)
    ensures Within(Adx.AdxAt(p.highs, p.lows, p.closes, 14, i), 0.0, 100.0)
  {
    if |p.closes| > 14 {
      Adx.AdxBetween(p.highs, p.lows, p.closes, 14, i);
      if i >= 14 {
        Adx.DirectionalLinesBetween(p.highs, p.lows, p.closes, 14, i);
      }
    }
  }

  lemma {:induction false} MomentumWithin(p: Prices, i: nat)
    requires Aligned(p) && i < |p.closes| && Consistent(p.highs, p.lows, p.closes)
    ensures Within(RsiAt(p.closes, 14, i), 0.0, 100.0)
    ensures Within(WilliamsAt(p.highs, p.lows, p.closes, 14, i), -100.0, 0.0)
  {
    WilliamsIsShiftedStochastic(p.highs, p.lows, p.closes, 14, i);
    if i >= 14 {
      RawKBetween(p.highs, p.lows, p.closes, 14, i);
    }
    hide RawKAt, WilliamsAt;
    if i >= 15 && |p.closes| > 15 {
      RsiBetween(p.closes, 14, i);
    }
  }

  lemma {:induction false} VolumeWithin(p: Prices, i: nat)
    requires Aligned(p) && i < |p.closes| && Consistent(p.highs, p.lows, p.closes)
    requires forall j :: 0 <= j < |p.closes| ==> p.lows[j] >= 0.0 && p.volumes[j] >= 0
    ensures Within(Volume.MfiAt(p.highs, p.lows, p.closes, p.volumes, 14, i), 0.0, 100.0)
    ensures Within(CmfAt(p.highs, p.lows, p.closes, p.volumes, 20, i), -1.0, 1.0)
  {
    CmfBetween(p.highs, p.lows, p.closes, p.volumes, 20, i);
    hide CmfAt;
    if i >= 15 {
      Volume.MfiBetween(p.highs, p.lows, p.closes, p.volumes, 14, i);
    }
  }

  // ----- the same, as columns of the row -----

  const OSCILLATORS := [
    "rsi14", "stoch_k", "stoch_d", "willr14", "adx14",
    "di_plus", "di_minus", "cmf20", "aroon_up", "aroon_down", "aroon_osc"]

  lemma {:induction false} NotInTrendRow(p: Prices, i: nat, k: string)
    requires Aligned(p) && i < |p.closes| && k in ["di_plus", "di_minus", "cmf20", "aroon_up", "aroon_down", "aroon_osc"]
    ensures k !in TrendRow(p, i)
  {
    hide SmaAt, EmaAt;
  }

  lemma {:induction false} NotInMomentumRow(p: Prices, i: nat, k: string)
    requires Aligned(p) && i < |p.closes| && k in ["di_plus", "di_minus", "cmf20", "aroon_up", "aroon_down", "aroon_osc"]
    ensures k !in MomentumRow(p, i)
  {
    hide RsiAt, MacdAt, SignalAt, KAt, Ks, SmaAt, WilliamsAt, CciAt, Price.RocAt, Adx.AdxAt;
  }

  lemma {:induction false} NotInStructureRow(p: Prices, sqrt: real -> real, i: nat, k: string)
    requires Aligned(p) && i < |p.closes|
    requires k in OSCILLATORS
    ensures k !in StructureRow(p, sqrt, i)
  {
    hide BandsAt, Price.RollingAt, Price.GapAt, Price.TrueRangeAt;
  }

  lemma {:induction false} NotInReturnRow(p: Prices, i: nat, k: string)
    requires Aligned(p) && i < |p.closes|
    requires k in OSCILLATORS
    ensures k !in ReturnRow(p, i)
  {
    hide Price.ReturnAt;
  }

  lemma {:induction false} NotInVolumeOrCrossRow(p: Prices, i: nat, k: string)
    requires Aligned(p) && i < |p.closes|
    requires k in OSCILLATORS
    ensures k !in VolumeRow(p, i) && k !in CrossRow(p, i)
  {
    hide Volume.DollarVolAt, Volume.ObvAt, Volume.MfiAt, SmaAt, RsiAt;
  }

  /** Later maps of a row do not overwrite these columns. */
  lemma {:induction false} MomentumColumnStands(p: Prices, sqrt: real -> real, i: nat, k: string)
    requires Aligned(p) && i < |p.closes|
    requires k in ["rsi14", "stoch_k", "stoch_d", "willr14", "adx14"] && k in MomentumRow(p, i)
    ensures k in PastRow(p, sqrt, i) && PastRow(p, sqrt, i)[k] == MomentumRow(p, i)[k]
  {
    hide TrendRow, MomentumRow, StructureRow, ReturnRow, VolumeRow, CrossRow;
    NotInStructureRow(p, sqrt, i, k);
    NotInReturnRow(p, i, k);
    NotInVolumeOrCrossRow(p, i, k);
  }

  lemma {:induction false} NotInPastRow(p: Prices, sqrt: real -> real, i: nat, k: string)
    requires Aligned(p) && i < |p.closes| && k in ["di_plus", "di_minus", "cmf20", "aroon_up", "aroon_down", "aroon_osc"]
    ensures k !in PastRow(p, sqrt, i)
  {
    hide TrendRow, MomentumRow, StructureRow, ReturnRow, VolumeRow, CrossRow;
    NotInTrendRow(p, i, k);
    NotInMomentumRow(p, i, k);
    NotInStructureRow(p, sqrt, i, k);
    NotInReturnRow(p, i, k);
    NotInVolumeOrCrossRow(p, i, k);
  }

  lemma {:induction false} ReadMomentum(p: Prices, i: nat)
    requires Aligned(p) && i < |p.closes|
    ensures var r := MomentumRow(p, i);
      && "rsi14" in r && r["rsi14"] == RsiAt(p.closes, 14, i)
      && "stoch_k" in r && r["stoch_k"] == KAt(p.highs, p.lows, p.closes, 14, 3, i)
      && "stoch_d" in r && r["stoch_d"] == SmaAt(Ks(p.highs, p.lows, p.closes, 14, 3), 3, i)
      && "willr14" in r && r["willr14"] == WilliamsAt(p.highs, p.lows, p.closes, 14, i)
      && "adx14" in r && r["adx14"] == Adx.AdxAt(p.highs, p.lows, p.closes, 14, i)
  {
    hide RsiAt, MacdAt, SignalAt, KAt, Ks, SmaAt, WilliamsAt, CciAt, Price.RocAt, Adx.AdxAt;
  }

  lemma {:induction false} ReadVolume(p: Prices, sqrt: real -> real, i: nat)
    requires Aligned(p) && i < |p.closes|
    ensures var r := PastRow(p, sqrt, i);
      "mfi14" in r && r["mfi14"] == Volume.MfiAt(p.highs, p.lows, p.closes, p.volumes, 14, i)
  {
    hide TrendRow, MomentumRow, StructureRow, ReturnRow;
    hide Volume.DollarVolAt, Volume.ObvAt, Volume.MfiAt, SmaAt, RsiAt, Greater, AtMost;
    assert "mfi14" !in CrossRow(p, i);
    assert VolumeRow(p, i)["mfi14"] == Volume.MfiAt(p.highs, p.lows, p.closes, p.volumes, 14, i);
  }

  lemma {:induction false} ReadCurrent(symbol: string, bars: seq<Bar>, outside: Outside)
    requires bars != []
    ensures var p, i, f := Columns(bars), |bars| - 1, Row(symbol, bars, outside).features;
      && "di_plus" in f && "di_minus" in f && "cmf20" in f
      && (f["di_plus"], f["di_minus"]) == Adx.DiAt(p.highs, p.lows, p.closes, 14, i)
      && f["cmf20"] == CmfAt(p.highs, p.lows, p.closes, p.volumes, 20, i)
  {
    hide PastRow, Columns, Adx.DiAt, CmfAt, AroonAt;
    var p, i := Columns(bars), |bars| - 1;
    NotInPastRow(p, outside.sqrt, i, "di_plus");
    NotInPastRow(p, outside.sqrt, i, "di_minus");
    NotInPastRow(p, outside.sqrt, i, "cmf20");
  }

  lemma {:induction false} ReadAroon(symbol: string, bars: seq<Bar>, outside: Outside)
    requires bars != []
    ensures var p, i, f := Columns(bars), |bars| - 1, Row(symbol, bars, outside).features;
      && "aroon_up" in f && f["aroon_up"] == AroonAt(p.highs, 25, i, true)
      && "aroon_down" in f && f["aroon_down"] == AroonAt(p.lows, 25, i, false)
      && "aroon_osc" in f && f["aroon_osc"] == Sub(f["aroon_up"], f["aroon_down"])
  {
    hide PastRow, Columns, Adx.DiAt, CmfAt, AroonAt;
    var p, i := Columns(bars), |bars| - 1;
    NotInPastRow(p, outside.sqrt, i, "aroon_up");
    NotInPastRow(p, outside.sqrt, i, "aroon_down");
    NotInPastRow(p, outside.sqrt, i, "aroon_osc");
  }

  ghost predicate ColumnWithin(row: SnapshotRow, column: string, a: real, b: real) {
    column in row.features && Within(row.features[column], a, b)
  }

  lemma {:induction false} MomentumColumnsWithin(symbol: string, bars: seq<Bar>, outside: Outside)
    requires bars != [] && SaneBars(bars)
    ensures var row := Row(symbol, bars, outside);
      && ColumnWithin(row, "rsi14", 0.0, 100.0)
      && ColumnWithin(row, "stoch_k", 0.0, 100.0) && ColumnWithin(row, "stoch_d", 0.0, 100.0)
      && ColumnWithin(row, "willr14", -100.0, 0.0) && ColumnWithin(row, "adx14", 0.0, 100.0)
  {
    var p, i := Columns(bars), |bars| - 1;
    assert Consistent(p.highs, p.lows, p.closes);
    hide RsiAt, KAt, Ks, SmaAt, Adx.DiAt, Adx.AdxAt, WilliamsAt, Within, PastRow, Row, Columns, MomentumRow;
    StochasticWithin(p, i);
    DirectionalWithin(p, i);
    MomentumWithin(p, i);
    ReadMomentum(p, i);
    forall k | k in ["rsi14", "stoch_k", "stoch_d", "willr14", "adx14"] && k in MomentumRow(p, i)
      ensures k in PastRow(p, outside.sqrt, i) && PastRow(p, outside.sqrt, i)[k] == MomentumRow(p, i)[k]
    {
      MomentumColumnStands(p, outside.sqrt, i, k);
    }
    PastColumnsStand(symbol, bars, outside);
  }

  lemma {:induction false} AroonWithin(vals: seq<real>, i: nat, high: bool)
    requires i < |vals|
    ensures Within(AroonAt(vals, 25, i, high), 0.0, 100.0)
  {
    if i >= 25 {
      AroonBetween(vals, 25, i, high);
    }
    hide Peak;
  }

  lemma {:induction false} AroonColumnsWithin(symbol: string, bars: seq<Bar>, outside: Outside)
    requires bars != []
    ensures var row := Row(symbol, bars, outside);
      && ColumnWithin(row, "aroon_up", 0.0, 100.0) && ColumnWithin(row, "aroon_down", 0.0, 100.0)
      && ColumnWithin(row, "aroon_osc", -100.0, 100.0)
  {
    var p, i := Columns(bars), |bars| - 1;
    hide Row, Columns, AroonAt;
    ReadAroon(symbol, bars, outside);
    AroonWithin(p.highs, i, true);
    AroonWithin(p.lows, i, false);
  }

  /** Whatever the history's length, every oscillator column of the row that Build makes of sane bars is NULL or on
      its scale, and the two directional lines together stay within theirs. */
  lemma {:induction false} OscillatorsWithin(symbol: string, bars: seq<Bar>, outside: Outside)
    requires bars != [] && SaneBars(bars)
    ensures var row := Row(symbol, bars, outside);
      && ColumnWithin(row, "rsi14", 0.0, 100.0)
      && ColumnWithin(row, "stoch_k", 0.0, 100.0) && ColumnWithin(row, "stoch_d", 0.0, 100.0)
      && ColumnWithin(row, "willr14", -100.0, 0.0) && ColumnWithin(row, "adx14", 0.0, 100.0)
      && ColumnWithin(row, "di_plus", 0.0, 100.0) && ColumnWithin(row, "di_minus", 0.0, 100.0)
      && (row.features["di_plus"].Val? && row.features["di_minus"].Val?
          ==> row.features["di_plus"].v + row.features["di_minus"].v <= 100.0)
      && ColumnWithin(row, "mfi14", 0.0, 100.0) && ColumnWithin(row, "cmf20", -1.0, 1.0)
      && ColumnWithin(row, "aroon_up", 0.0, 100.0) && ColumnWithin(row, "aroon_down", 0.0, 100.0)
      && ColumnWithin(row, "aroon_osc", -100.0, 100.0)
  {
    var p, i := Columns(bars), |bars| - 1;
    assert forall j :: 0 <= j < |p.closes| ==> p.lows[j] >= 0.0 && p.volumes[j] >= 0;
    assert Consistent(p.highs, p.lows, p.closes);
    hide Adx.DiAt, Adx.AdxAt, CmfAt, Within, Volume.MfiAt, PastRow, Row, Columns, Consistent;
    MomentumColumnsWithin(symbol, bars, outside);
    AroonColumnsWithin(symbol, bars, outside);
    DirectionalWithin(p, i);
    VolumeWithin(p, i);
    ReadVolume(p, outside.sqrt, i);
    PastColumnsStand(symbol, bars, outside);
    ReadCurrent(symbol, bars, outside);
  }
}
