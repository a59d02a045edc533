/** When a column of a row is NULL, and the columns whose warm-up shows as a number. */
module Warmup {
  import opened Numbers
  import opened Series
  import opened Snapshot
  import opened Trend
  import opened Momentum
  import opened Screen
  import Adx
  import Price
  import Volume

  // ----- the rule, column by column, for a row whose last bar is bar i -----

  function TrendMissing(i: nat): map<string, bool> {
    map["sma5" := i < 5, "sma10" := i < 10, "sma20" := i < 20, "sma30" := i < 30,
        "sma50" := i < 50, "sma100" := i < 100, "sma200" := i < 200,
        "ema10" := i < 10, "ema21" := i < 21, "ema50" := i < 50,
        "ema100" := i < 100, "ema200" := i < 200]
  }

  /** The close k bars before the newest one that is read is missing or zero. */
  predicate NoBase(closes: seq<real>, k: nat, i: nat)
    requires i < |closes|
  {
    i <= k || closes[i - 1 - k] == 0.0
  }

  function MomentumMissing(p: Prices, i: nat): map<string, bool>
    requires Aligned(p) && i < |p.closes|
  {
    map["rsi14" := i < 15, "macd" := i < 26, "macd_signal" := i < 26, "macd_hist" := i < 26,
        "stoch_k" := i < 17, "stoch_d" := i < 20, "willr14" := i < 14, "cci20" := i < 20,
        "roc10" := NoBase(p.closes, 10, i), "roc20" := NoBase(p.closes, 20, i), "adx14" := i < 14]
  }

  function StructureMissing(p: Prices, i: nat): map<string, bool>
    requires Aligned(p) && i < |p.closes|
  {
    map["bb_upper" := i < 20, "bb_mid" := i < 20, "bb_lower" := i < 20,
        "high_52w" := i < 252, "low_52w" := i < 252,
        "gap_pct" := NoBase(p.closes, 1, i), "true_range" := i < 2]
  }

  /** A return also needs a positive base. */
  predicate NoPositiveBase(closes: seq<real>, k: nat, i: nat)
    requires i < |closes|
  {
    i <= k || closes[i - 1 - k] <= 0.0
  }

  function ReturnMissing(p: Prices, i: nat): map<string, bool>
    requires Aligned(p) && i < |p.closes|
  {
    map["ret_1d" := NoPositiveBase(p.closes, 1, i), "ret_5d" := NoPositiveBase(p.closes, 5, i),
        "ret_1m" := NoPositiveBase(p.closes, 21, i), "ret_3m" := NoPositiveBase(p.closes, 63, i),
        "ret_6m" := NoPositiveBase(p.closes, 126, i), "ret_1y" := NoPositiveBase(p.closes, 252, i)]
  }

  /** Falling and rising money flow cancel out, which takes negative prices or volumes. */
  predicate FlowsCancel(p: Prices, i: nat)
    requires Aligned(p) && 14 <= i < |p.closes|
  {
    var tp := Typical(p.highs, p.lows, p.closes);
    var pos, neg :=
      SumIn(Volume.Flows(tp, p.volumes, true), i - 14, i), SumIn(Volume.Flows(tp, p.volumes, false), i - 14, i);
    neg != 0.0 && pos + neg == 0.0
  }

  function VolumeMissing(p: Prices, i: nat): map<string, bool>
    requires Aligned(p) && i < |p.closes|
  {
    map["dollar_vol" := i < 1, "obv" := i < 1, "mfi14" := i < 14 || (i > 14 && FlowsCancel(p, i))]
  }

  function CrossMissing(): map<string, bool> { map["golden_cross" := false, "oversold_bounce" := false] }

  function CurrentMissing(p: Prices, i: nat): map<string, bool>
    requires Aligned(p) && i < |p.closes|
  {
    map["close" := false, "high" := false, "low" := false, "open" := false,
        "di_plus" := i < 14, "di_minus" := i < 14,
        "cmf20" := i < 20 || SumIn(Reals(p.volumes), i - 19, i + 1) <= 0.0,
        "aroon_up" := i < 25, "aroon_down" := i < 25, "aroon_osc" := i < 25]
  }

  function PastMissing(p: Prices, i: nat): map<string, bool>
    requires Aligned(p) && i < |p.closes|
  {
    TrendMissing(i) + MomentumMissing(p, i) + StructureMissing(p, i) + ReturnMissing(p, i) + VolumeMissing(p, i)
    + CrossMissing()
  }

  function Missing(p: Prices, i: nat): map<string, bool>
    requires Aligned(p) && i < |p.closes|
  {
    CurrentMissing(p, i) + PastMissing(p, i)
  }

  // ----- each part of the row obeys it -----

  ghost predicate Obeys(row: map<string, Num>, missing: map<string, bool>) {
    row.Keys == missing.Keys && forall c :: c in row ==> (row[c].NaN? <==> missing[c])
  }

  lemma MergeObeys(a: map<string, Num>, ma: map<string, bool>, b: map<string, Num>, mb: map<string, bool>)
    requires Obeys(a, ma) && Obeys(b, mb)
    ensures Obeys(a + b, ma + mb)
  {}

  lemma {:induction false} EmaDefined(vals: seq<Num>, period: nat, i: nat)
    requires 1 <= period <= i < |vals| && forall j :: 0 <= j < i ==> vals[j].Val?
    ensures EmaAt(vals, period, i).Val?
    decreases i
  {
    if i == period {
      SumNumDefined(vals, 0, period);
    } else {
      EmaDefined(vals, period, i - 1);
    }
  }

  lemma {:induction false} AverageNull(p: Prices, period: nat, i: nat)
    requires Aligned(p) && i + 1 == |p.closes| && 1 <= period
    ensures SmaAt(Lift(p.closes), period, i).NaN? <==> i < period
    ensures EmaAt(Lift(p.closes), period, i).NaN? <==> i < period
  {
    if i >= period {
      SumLift(p.closes, i - period, i);
      EmaDefined(Lift(p.closes), period, i);
    }
  }

  lemma {:induction false} TrendObeys(p: Prices, i: nat)
    requires Aligned(p) && i + 1 == |p.closes|
    ensures Obeys(TrendRow(p, i), TrendMissing(i))
  {
    hide SmaAt, EmaAt, Lift;
    AverageNull(p, 5, i);
    AverageNull(p, 10, i);
    AverageNull(p, 20, i);
    AverageNull(p, 30, i);
    AverageNull(p, 50, i);
    AverageNull(p, 100, i);
    AverageNull(p, 200, i);
    AverageNull(p, 21, i);
  }

  lemma {:induction false} MacdNull(p: Prices, i: nat)
    requires Aligned(p) && i + 1 == |p.closes|
    ensures forall j :: 0 <= j <= i ==> (MacdAt(p.closes, j).NaN? <==> i < 26)
  {
    forall j | 0 <= j <= i ensures MacdAt(p.closes, j).NaN? <==> i < 26 {
      var c := Lift(p.closes);
      if i >= 26 {
        if j >= 12 { EmaDefined(c, 12, j); }
        if j >= 26 { EmaDefined(c, 26, j); }
      }
    }
  }

  lemma {:induction false} SignalNull(p: Prices, i: nat)
    requires Aligned(p) && i + 1 == |p.closes|
    ensures SignalAt(p.closes, i).NaN? <==> i < 26
  {
    MacdNull(p, i);
    var line := MacdLine(p.closes);
    assert forall j :: 0 <= j <= i ==> line[j] == MacdAt(p.closes, j);
    hide MacdAt, MacdLine;
    if i >= 26 {
      EmaDefined(line, 9, i);
    } else if i == 9 {
      SumNumDefined(line, 0, 9);
      assert line[0].NaN?;
    } else if i > 9 {
      assert line[i - 1].NaN?;
    }
  }

  lemma {:induction false} StochasticNull(p: Prices, i: nat)
    requires Aligned(p) && i + 1 == |p.closes|
    ensures forall j :: 0 <= j <= i ==> (KAt(p.highs, p.lows, p.closes, 14, 3, j).NaN? <==> j < 17)
    ensures SmaAt(Ks(p.highs, p.lows, p.closes, 14, 3), 3, i).NaN? <==> i < 20
  {
    var raw, ks := RawKs(p.highs, p.lows, p.closes, 14), Ks(p.highs, p.lows, p.closes, 14, 3);
    assert forall m :: 0 <= m <= i ==> (raw[m].NaN? <==> m < 14);
    forall j | 0 <= j <= i ensures KAt(p.highs, p.lows, p.closes, 14, 3, j).NaN? <==> j < 17 {
      if j >= 16 {
        SumNumDefined(raw, j - 3, j);
        assert raw[j - 3].NaN? <==> j < 17;
      }
    }
    assert forall j :: 0 <= j <= i ==> ks[j] == KAt(p.highs, p.lows, p.closes, 14, 3, j);
    hide KAt, Ks, RawKs;
    if i >= 3 {
      SumNumDefined(ks, i - 3, i);
      assert ks[i - 3].NaN? <==> i < 20;
    }
  }

  lemma {:induction false} OscillatorsNull(p: Prices, i: nat)
    requires Aligned(p) && i + 1 == |p.closes|
    ensures RsiAt(p.closes, 14, i).NaN? <==> i < 15
    ensures WilliamsAt(p.highs, p.lows, p.closes, 14, i).NaN? <==> i < 14
    ensures CciAt(p.highs, p.lows, p.closes, 20, i).NaN? <==> i < 20
    ensures Adx.AdxAt(p.highs, p.lows, p.closes, 14, i).NaN? <==> i < 14
  {}

  lemma {:induction false} RocNull(p: Prices, k: nat, i: nat)
    requires Aligned(p) && i + 1 == |p.closes|
    ensures Price.RocAt(p.closes, k, i).NaN? <==> NoBase(p.closes, k, i)
  {}

  lemma {:induction false} MomentumObeys(p: Prices, i: nat)
    requires Aligned(p) && i + 1 == |p.closes|
    ensures Obeys(MomentumRow(p, i), MomentumMissing(p, i))
  {
    hide RsiAt, MacdAt, SignalAt, KAt, Ks, SmaAt, WilliamsAt, CciAt, Price.RocAt, Adx.AdxAt, NoBase;
    MacdNull(p, i);
    SignalNull(p, i);
    StochasticNull(p, i);
    OscillatorsNull(p, i);
    RocNull(p, 10, i);
    RocNull(p, 20, i);
  }

  lemma {:induction false} StructureObeys(p: Prices, sqrt: real -> real, i: nat)
    requires Aligned(p) && i + 1 == |p.closes|
    ensures Obeys(StructureRow(p, sqrt, i), StructureMissing(p, i))
  {}

  lemma {:induction false} ReturnNull(p: Prices, k: nat, i: nat)
    requires Aligned(p) && i + 1 == |p.closes| && 1 <= k
    ensures Price.ReturnAt(p.closes, k, i).NaN? <==> NoPositiveBase(p.closes, k, i)
  {}

  lemma SixObey(
      c1: string, c2: string, c3: string, c4: string, c5: string, c6: string,
      x1: Num, x2: Num, x3: Num, x4: Num, x5: Num, x6: Num,
      m1: bool, m2: bool, m3: bool, m4: bool, m5: bool, m6: bool)
    requires x1.NaN? == m1 && x2.NaN? == m2 && x3.NaN? == m3 && x4.NaN? == m4 && x5.NaN? == m5 && x6.NaN? == m6
    ensures Obeys(
      map[c1 := x1, c2 := x2, c3 := x3, c4 := x4, c5 := x5, c6 := x6],
      map[c1 := m1, c2 := m2, c3 := m3, c4 := m4, c5 := m5, c6 := m6])
  {}

  lemma {:induction false} ReturnObeys(p: Prices, i: nat)
    requires Aligned(p) && i + 1 == |p.closes|
    ensures Obeys(ReturnRow(p, i), ReturnMissing(p, i))
  {
    hide Price.ReturnAt, NoPositiveBase, Obeys;
    var c := p.closes;
    ReturnNull(p, 1, i);
    ReturnNull(p, 5, i);
    ReturnNull(p, 21, i);
    ReturnNull(p, 63, i);
    ReturnNull(p, 126, i);
    ReturnNull(p, 252, i);
    SixObey(
      "ret_1d", "ret_5d", "ret_1m", "ret_3m", "ret_6m", "ret_1y",
      Price.ReturnAt(c, 1, i), Price.ReturnAt(c, 5, i), Price.ReturnAt(c, 21, i),
      Price.ReturnAt(c, 63, i), Price.ReturnAt(c, 126, i), Price.ReturnAt(c, 252, i),
      NoPositiveBase(c, 1, i), NoPositiveBase(c, 5, i), NoPositiveBase(c, 21, i),
      NoPositiveBase(c, 63, i), NoPositiveBase(c, 126, i), NoPositiveBase(c, 252, i));
  }

  lemma {:induction false} MfiNull(p: Prices, i: nat)
    requires Aligned(p) && i + 1 == |p.closes|
    ensures var x := Volume.MfiAt(p.highs, p.lows, p.closes, p.volumes, 14, i);
      && (x.NaN? <==> i < 14 || (i > 14 && FlowsCancel(p, i)))
      && (i == 14 ==> x == Val(0.0))
  {
    if i > 14 {
      var tp := Typical(p.highs, p.lows, p.closes);
      Cancelling(SumIn(Volume.Flows(tp, p.volumes, true), i - 14, i), SumIn(Volume.Flows(tp, p.volumes, false), i - 14, i));
      hide Volume.MfiFrom;
    }
  }

  lemma Cancelling(pos: real, neg: real)
    ensures Volume.MfiFrom(pos, neg).NaN? <==> neg != 0.0 && pos + neg == 0.0
  {
    if neg != 0.0 {
      assert (1.0 + pos / neg) * neg == neg + pos;
    }
  }

  lemma {:induction false} VolumeObeys(p: Prices, i: nat)
    requires Aligned(p) && i + 1 == |p.closes|
    ensures Obeys(VolumeRow(p, i), VolumeMissing(p, i))
  {
    MfiNull(p, i);
    hide Volume.MfiAt, FlowsCancel;
  }

  lemma {:induction false} CrossObeys(p: Prices, i: nat)
    requires Aligned(p) && i + 1 == |p.closes|
    ensures Obeys(CrossRow(p, i), CrossMissing())
  {
    hide SmaAt, RsiAt, Greater, AtMost;
  }

  lemma {:induction false} CurrentNull(p: Prices, i: nat)
    requires Aligned(p) && i + 1 == |p.closes|
    ensures Adx.DiAt(p.highs, p.lows, p.closes, 14, i).0.NaN? <==> i < 14
    ensures Adx.DiAt(p.highs, p.lows, p.closes, 14, i).1.NaN? <==> i < 14
    ensures AroonAt(p.highs, 25, i, true).NaN? <==> i < 25
    ensures AroonAt(p.lows, 25, i, false).NaN? <==> i < 25
  {}

  lemma {:induction false} CmfNull(p: Prices, i: nat)
    requires Aligned(p) && i + 1 == |p.closes|
    ensures CmfAt(p.highs, p.lows, p.closes, p.volumes, 20, i).NaN?
      <==> (i < 20 || SumIn(Reals(p.volumes), i - 19, i + 1) <= 0.0)
  {}

  lemma {:induction false} CurrentObeys(p: Prices, i: nat)
    requires Aligned(p) && i + 1 == |p.closes|
    ensures Obeys(CurrentRow(p, i), CurrentMissing(p, i))
  {
    hide AroonAt, Adx.DiAt, CmfAt, SumIn;
    CurrentNull(p, i);
    CmfNull(p, i);
  }

  lemma {:induction false} PastObeys(p: Prices, sqrt: real -> real, i: nat)
    requires Aligned(p) && i + 1 == |p.closes|
    ensures Obeys(PastRow(p, sqrt, i), PastMissing(p, i))
  {
    TrendObeys(p, i);
    MomentumObeys(p, i);
    StructureObeys(p, sqrt, i);
    ReturnObeys(p, i);
    VolumeObeys(p, i);
    CrossObeys(p, i);
    hide TrendRow, MomentumRow, StructureRow, ReturnRow, VolumeRow, CrossRow, Obeys;
    hide TrendMissing, MomentumMissing, StructureMissing, ReturnMissing, VolumeMissing, CrossMissing;
    var a, ma := TrendRow(p, i) + MomentumRow(p, i), TrendMissing(i) + MomentumMissing(p, i);
    MergeObeys(TrendRow(p, i), TrendMissing(i), MomentumRow(p, i), MomentumMissing(p, i));
    var b, mb := a + StructureRow(p, sqrt, i), ma + StructureMissing(p, i);
    MergeObeys(a, ma, StructureRow(p, sqrt, i), StructureMissing(p, i));
    var c, mc := b + ReturnRow(p, i), mb + ReturnMissing(p, i);
    MergeObeys(b, mb, ReturnRow(p, i), ReturnMissing(p, i));
    MergeObeys(c, mc, VolumeRow(p, i), VolumeMissing(p, i));
    MergeObeys(c + VolumeRow(p, i), mc + VolumeMissing(p, i), CrossRow(p, i), CrossMissing());
  }

  ghost predicate Tells(row: map<string, Num>, missing: map<string, bool>) {
    forall c :: c in missing ==> c in row && (row[c].NaN? <==> missing[c])
  }

  lemma MergeTells(
      others: map<string, Num>, a: map<string, Num>, ma: map<string, bool>, b: map<string, Num>, mb: map<string, bool>)
    requires Obeys(a, ma) && Obeys(b, mb)
    ensures Tells(others + a + b, ma + mb)
  {}

  /** Column by column, exactly when the row that Build makes of a history holds NULL. */
  lemma {:induction false} NullExactly(symbol: string, bars: seq<Bar>, outside: Outside)
    requires bars != []
    ensures Tells(Row(symbol, bars, outside).features, Missing(Columns(bars), |bars| - 1))
  {
    hide PastMissing, CurrentMissing, PastRow, CurrentRow, Columns, Obeys, Tells;
    var p, i := Columns(bars), |bars| - 1;
    PastObeys(p, outside.sqrt, i);
    CurrentObeys(p, i);
    MergeTells(outside.others(bars), CurrentRow(p, i), CurrentMissing(p, i), PastRow(p, outside.sqrt, i), PastMissing(p, i));
  }

  // ----- warm-ups that show as numbers -----

  /** ADX is 0 with 15 to 28 bars and MFI with 15, though both are NULL with fewer. */
  lemma {:induction false} ZeroWarmup(symbol: string, bars: seq<Bar>, outside: Outside)
    requires bars != []
    ensures 15 <= |bars| <= 28 ==> ColumnIs(Row(symbol, bars, outside), "adx14", Val(0.0))
    ensures |bars| == 15 ==> ColumnIs(Row(symbol, bars, outside), "mfi14", Val(0.0))
  {
    var p, i := Columns(bars), |bars| - 1;
    hide Row, Columns, PastRow, MomentumRow, Adx.AdxAt, Volume.MfiAt, FlowsCancel;
    AdxZero(p, i);
    MfiNull(p, i);
    ReadMomentum(p, i);
    MomentumColumnStands(p, outside.sqrt, i, "adx14");
    ReadVolume(p, outside.sqrt, i);
    PastColumnsStand(symbol, bars, outside);
  }

  ghost predicate ColumnIs(row: SnapshotRow, column: string, x: Num) {
    column in row.features && row.features[column] == x
  }

  lemma {:induction false} AdxZero(p: Prices, i: nat)
    requires Aligned(p) && i + 1 == |p.closes|
    ensures 14 <= i < 28 ==> Adx.AdxAt(p.highs, p.lows, p.closes, 14, i) == Val(0.0)
  {}

  function Power(x: real, n: nat): real { if n == 0 then 1.0 else x * Power(x, n - 1) }

  ghost predicate Flat(closes: seq<real>, c: real) { forall j :: 0 <= j < |closes| ==> closes[j] == c }

  /** The MACD line of a price that never moves: zero at first, then the price itself, and zero only once both
      averages are warm. */
  lemma {:induction false} FlatMacd(closes: seq<real>, c: real, i: nat)
    requires Flat(closes, c) && i < |closes| && |closes| > 26
    ensures MacdAt(closes, i) == Val(if 12 <= i < 26 then c else 0.0)
  {
    var xs := Lift(closes);
    assert forall j :: 0 <= j < |closes| ==> Between(xs[j], c, c);
    hide Lift;
    if i >= 12 { EmaBetween(xs, 12, i, c, c); }
    if i >= 26 { EmaBetween(xs, 26, i, c, c); }
  }

  /** What the signal line has taken in of that stretch by bar i. */
  function Taken(i: nat): real {
    if i < 12 then 0.0 else if i <= 26 then 1.0 - Power(0.8, i - 12) else (1.0 - Power(0.8, 14)) * Power(0.8, i - 26)
  }

  lemma FlatLine(closes: seq<real>, c: real)
    requires Flat(closes, c) && |closes| > 26
    ensures var line := MacdLine(closes);
      |line| == |closes| && forall j :: 0 <= j < |line| ==> line[j] == Val(if 12 <= j < 26 then c else 0.0)
  {
    forall j | 0 <= j < |closes| ensures MacdAt(closes, j) == Val(if 12 <= j < 26 then c else 0.0) {
      FlatMacd(closes, c, j);
    }
    hide MacdAt;
  }

  /** The average of a line that is c on [12, 26) and 0 elsewhere. */
  lemma {:induction false} FlatSignal(line: seq<Num>, c: real, i: nat)
    requires 9 <= i < |line| && forall j :: 0 <= j < |line| ==> line[j] == Val(if 12 <= j < 26 then c else 0.0)
    ensures EmaAt(line, 9, i) == Val(c * Taken(i))
    decreases i
  {
    hide Taken, EmaAt;
    if i == 9 {
      FirstNine(line);
      TakenFirst(c);
    } else {
      FlatSignal(line, c, i - 1);
      TakenStep(i, c);
      SignalNext(line, i);
    }
  }

  lemma SignalNext(line: seq<Num>, i: nat)
    requires 9 < i < |line| && line[i - 1].Val? && EmaAt(line, 9, i - 1).Val?
    ensures EmaAt(line, 9, i) == Val((line[i - 1].v - EmaAt(line, 9, i - 1).v) * 0.2 + EmaAt(line, 9, i - 1).v)
  {
    assert Multiplier(9) == 0.2;
  }

  lemma FirstNine(line: seq<Num>)
    requires |line| > 9 && forall j :: 0 <= j < 9 ==> line[j] == Val(0.0)
    ensures EmaAt(line, 9, 9) == Val(0.0)
  {
    MeanBetween(line, 0, 9, 0.0, 0.0);
  }

  lemma TakenStep(i: nat, c: real)
    requires 9 < i
    ensures var x := if 12 <= i - 1 < 26 then c else 0.0;
      c * Taken(i) == (x - c * Taken(i - 1)) * 0.2 + c * Taken(i - 1)
  {
    TakenNext(i);
    hide Taken;
    var before := Taken(i - 1);
    assert i > 26 ==> c * (0.8 * before) == 0.8 * (c * before);
    assert 12 < i <= 26 ==> c * (0.8 * before + 0.2) == 0.8 * (c * before) + 0.2 * c;
  }

  lemma TakenNext(i: nat)
    requires 9 < i
    ensures Taken(i) == if i <= 12 then 0.0 else if i <= 26 then 0.8 * Taken(i - 1) + 0.2 else 0.8 * Taken(i - 1)
    ensures i <= 13 ==> Taken(i - 1) == 0.0
  {
    var p := 0.8;
    if 12 < i <= 26 {
      assert Power(p, i - 12) == p * Power(p, i - 13);
    } else if i > 26 {
      assert Power(p, i - 26) == p * Power(p, i - 27);
      TimesSwap(1.0 - Power(p, 14), p, Power(p, i - 27));
      if i == 27 {
        TakenLate(26);
      }
    }
    hide Power;
  }

  lemma TimesSwap(a: real, b: real, c: real)
    ensures a * (b * c) == b * (a * c)
  {}

  /** With 27 bars or more of one and the same price the MACD is zero, and the signal line still shows a share of the
      price: 1 - 0.8^14 of it, about 95 percent, at the first bar on which it is not NULL. */
  lemma {:induction false} SignalHoldsPrice(closes: seq<real>, c: real, i: nat)
    requires Flat(closes, c) && 26 <= i < |closes|
    ensures MacdAt(closes, i) == Val(0.0)
    ensures SignalAt(closes, i) == Val(c * ((1.0 - Power(0.8, 14)) * Power(0.8, i - 26)))
    ensures 1.0 - Power(0.8, 14) > 0.95
  {
    hide MacdAt, Power, Taken, EmaAt, MacdLine;
    FlatMacd(closes, c, i);
    FlatLine(closes, c);
    FlatSignal(MacdLine(closes), c, i);
    FourteenthPower();
    TakenLate(i);
  }

  lemma TakenFirst(c: real)
    ensures c * Taken(9) == 0.0
  {}

  lemma TakenLate(i: nat)
    requires i >= 26
    ensures Taken(i) == (1.0 - Power(0.8, 14)) * Power(0.8, i - 26)
  {
    assert Power(0.8, 0) == 1.0;
  }

  lemma FourteenthPower()
    ensures 1.0 - Power(0.8, 14) > 0.95
  {
    var p := 0.8;
    assert Power(p, 1) == 0.8;
    assert Power(p, 2) == 0.64;
    assert Power(p, 3) == 0.512;
    assert Power(p, 4) == 0.4096;
    assert Power(p, 5) < 0.33;
    assert Power(p, 6) < 0.264;
    assert Power(p, 7) < 0.2112;
    assert Power(p, 8) < 0.169;
    assert Power(p, 9) < 0.1352;
    assert Power(p, 10) < 0.1082;
    assert Power(p, 11) < 0.0866;
    assert Power(p, 12) < 0.0693;
    assert Power(p, 13) < 0.05545;
  }
}
