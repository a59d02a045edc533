/** The direct scan over a bar source, and its fast form over the cache. */
module Scan {
  import opened Core
  import opened Numbers
  import opened Listing
  import opened Snapshot
  import opened Screen
  import opened Cache
  import Pool

  /** A worker's loop body once the bars are loaded: the row is kept when its dollar volume reaches the floor. */
  function ItemOf(bars: seq<Bar>, sym: string, floor: real, outside: Outside): Option<Pool.Item> {
    if bars == [] then None
    else
      var row := Row(sym, bars, outside);
      var liquid := "dollar_vol" in row.features && row.features["dollar_vol"].Val?
                    && row.features["dollar_vol"].v >= floor;
      Some(Pool.Item(bars[|bars| - 1].timestamp, if liquid then Some(row) else None))
  }

  function Direct(
    loader: Loader, symbols: seq<string>, since: int, workers: nat, floor: real, outside: Outside): Pool.Config
  {
    Pool.Config(symbols, workers, (sym: string) => ItemOf(Got(loader, sym, since), sym, floor, outside))
  }

  /** The direct scan's rows carry their symbols, so its result does not depend on the interleaving. */
  lemma {:induction false} DirectScanIsSequential(
      loader: Loader, symbols: seq<string>, since: int, workers: nat, floor: real, outside: Outside,
      events: seq<Pool.Event>, result: Pool.ScanResult, sequential: Pool.ScanResult)
    requires workers >= 1
    requires var c := Direct(loader, symbols, since, workers, floor, outside);
      && Pool.Run(c, events).Some? && Pool.Run(c, events).value.collected && !Pool.Run(c, events).value.cancelled
      && Pool.Delivers(Pool.Run(c, events).value.received, result)
      && Pool.Delivers(Pool.Sequential(c, symbols), sequential)
    ensures result == sequential
  {
    var c := Direct(loader, symbols, since, workers, floor, outside);
    assert Pool.RowsNamed(c);
    hide Pool.Run, Pool.Delivers, Pool.Sequential, Pool.RowsNamed;
    Pool.ScanIsSequential(c, events, result, sequential);
  }

  /** The source as it stood on day d. */
  function Truncated(loader: Loader, d: int): Loader {
    (sym: string, since: int) => if loader(sym, since).None? then None else Some(UpTo(loader(sym, since).value, d))
  }

  lemma {:induction false} DollarVolColumn(sym: string, bars: seq<Bar>, outside: Outside)
    requires bars != []
    ensures var row := Row(sym, bars, outside); var p := Columns(bars);
      "dollar_vol" in row.features
      && row.features["dollar_vol"] == Volume.DollarVolAt(p.closes, p.volumes, |bars| - 1)
  {
    var p, i := Columns(bars), |bars| - 1;
    hide CurrentRow, TrendRow, MomentumRow, StructureRow, ReturnRow, Columns, Volume.DollarVolAt, Greater, AtMost;
    assert VolumeRow(p, i)["dollar_vol"] == Volume.DollarVolAt(p.closes, p.volumes, i);
    assert "dollar_vol" !in CrossRow(p, i);
    hide VolumeRow, CrossRow;
  }

  /** The last complete bar, the one before the newest, reaches the floor. */
  predicate LiquidBefore(bars: seq<Bar>, floor: real) {
    |bars| >= 2 && DollarVolume(bars[|bars| - 2]) >= floor
  }

  /** The direct scan looks at one bar only. */
  lemma {:induction false} DirectKeepsExactly(bars: seq<Bar>, sym: string, floor: real, outside: Outside)
    requires bars != []
    ensures ItemOf(bars, sym, floor, outside).value.kept
         == if LiquidBefore(bars, floor) then Some(Row(sym, bars, outside)) else None
  {
    hide Row, Columns, Volume.DollarVolAt, DollarVolume;
    DollarVolColumn(sym, bars, outside);
    DollarVolReadsBefore(bars);
  }

  lemma {:induction false} DollarVolReadsBefore(bars: seq<Bar>)
    requires bars != []
    ensures var p := Columns(bars);
      Volume.DollarVolAt(p.closes, p.volumes, |bars| - 1)
      == if |bars| >= 2 then Val(DollarVolume(bars[|bars| - 2])) else NaN
  {}

  lemma {:induction false} RowsForHas(t: BarTable, syms: seq<string>, d: int, outside: Outside, r: SnapshotRow)
    ensures r in RowsFor(t, syms, d, outside)
      <==> exists sym :: sym in syms && BarsOf(t, sym, d) != [] && r == Row(sym, BarsOf(t, sym, d), outside)
  {
    hide Row, BarsOf;
    if syms != [] {
      var k := |syms| - 1;
      RowsForHas(t, syms[..k], d, outside, r);
      assert forall sym :: sym in syms <==> sym in syms[..k] || sym == syms[k];
      assert r in RowsFor(t, syms, d, outside) <==>
        (r in RowsFor(t, syms[..k], d, outside)
         || (BarsOf(t, syms[k], d) != [] && r == Row(syms[k], BarsOf(t, syms[k], d), outside)));
      hide RowsFor;
    }
  }

  ghost predicate SomeBarReaches(bars: seq<Bar>, floor: real) { exists b :: b in bars && DollarVolume(b) >= floor }

  lemma {:induction false} QualifiesWhen(
      loader: Loader, symbols: seq<string>, since: int, d: int, floor: real, sym: string)
    requires Proper(loader, symbols, since)
    ensures sym in Qualifying(LoadInto(map[], loader, symbols, since), d, floor)
      <==> sym in symbols && SomeBarReaches(UpTo(Got(loader, sym, since), d), floor)
  {
    var t, bars := LoadInto(map[], loader, symbols, since), Got(loader, sym, since);
    if sym in symbols { UpToIs(bars, d); }
    if sym in Qualifying(t, d, floor) {
      var k :| k in t && k.1 <= d && DollarVolume(t[k]) >= floor && k.0 == sym;
      LoadHolds(loader, symbols, since, k);
      assert t[k] in UpTo(bars, d);
    }
    if sym in symbols && SomeBarReaches(UpTo(bars, d), floor) {
      var b :| b in UpTo(bars, d) && DollarVolume(b) >= floor;
      LoadHolds(loader, symbols, since, Key(b));
      SameTimeSameBar(bars, b, t[Key(b)]);
      assert Key(b) in t && Key(b).0 == sym;
    }
  }

  /** The cached scan's rows: one for each symbol with any bar up to d that reaches the floor, built from the
      source's bars up to d. */
  lemma {:induction false} CachedKeepsExactly(
      loader: Loader, symbols: seq<string>, since: int, d: int, floor: real, outside: Outside, r: SnapshotRow)
    requires Proper(loader, symbols, since)
    ensures r in CacheRows(LoadInto(map[], loader, symbols, since), d, floor, outside)
      <==> exists sym :: sym in symbols && SomeBarReaches(UpTo(Got(loader, sym, since), d), floor)
                         && r == Row(sym, UpTo(Got(loader, sym, since), d), outside)
  {
    var t := LoadInto(map[], loader, symbols, since);
    var syms := Sorted(Qualifying(t, d, floor));
    hide Row, LoadInto, UpTo, Qualifying, BarsOf, Ascending, Less, RowsFor, Proper, SomeBarReaches;
    RowsForHas(t, syms, d, outside, r);
    forall sym ensures sym in syms <==> sym in symbols && SomeBarReaches(UpTo(Got(loader, sym, since), d), floor)
    {
      QualifiesWhen(loader, symbols, since, d, floor, sym);
      assert sym in syms <==> sym in Qualifying(t, d, floor);
    }
    forall sym | sym in symbols ensures BarsOf(t, sym, d) == UpTo(Got(loader, sym, since), d) {
      CacheServesSource(loader, symbols, since, sym, d);
    }
    hide Got, ListsExactly;
    forall sym | SomeBarReaches(UpTo(Got(loader, sym, since), d), floor) ensures UpTo(Got(loader, sym, since), d) != [] {
      ReachedIsNotEmpty(UpTo(Got(loader, sym, since), d), floor);
    }
  }

  lemma {:induction false} ReachedIsNotEmpty(bars: seq<Bar>, floor: real)
    requires SomeBarReaches(bars, floor)
    ensures bars != []
  {}

  /** The fast scan refines the direct one: every row that a direct scan of the source as of day d keeps, under
      any interleaving of its workers, is in the cached snapshot of day d, built identically. */
  lemma {:induction false} CachedRefinesDirect(
      loader: Loader, symbols: seq<string>, since: int, d: int, workers: nat, floor: real, outside: Outside,
      events: seq<Pool.Event>, result: Pool.ScanResult, r: SnapshotRow)
    requires Proper(loader, symbols, since) && workers >= 1
    requires var c := Direct(Truncated(loader, d), symbols, since, workers, floor, outside);
      Pool.Run(c, events).Some? && Pool.Run(c, events).value.collected
      && Pool.Delivers(Pool.Run(c, events).value.received, result)
    requires r in result.rows
    ensures r in CacheRows(LoadInto(map[], loader, symbols, since), d, floor, outside)
  {
    var c := Direct(Truncated(loader, d), symbols, since, workers, floor, outside);
    hide Row, CacheRows, LoadInto, Proper, UpTo;
    var it, sym := DeliveredFrom(c, events, result, r);
    var bars := UpTo(Got(loader, sym, since), d);
    assert Got(Truncated(loader, d), sym, since) == bars;
    DirectKeepsExactly(bars, sym, floor, outside);
    assert bars[|bars| - 2] in bars;
    CachedKeepsExactly(loader, symbols, since, d, floor, outside, r);
  }

  /** A delivered row is some symbol's kept item. */
  lemma {:induction false} DeliveredFrom(
      c: Pool.Config, events: seq<Pool.Event>, result: Pool.ScanResult, r: SnapshotRow)
    returns (it: Pool.Item, sym: string)
    requires c.workers >= 1 && Pool.Run(c, events).Some? && Pool.Run(c, events).value.collected
    requires Pool.Delivers(Pool.Run(c, events).value.received, result) && r in result.rows
    ensures sym in c.symbols && c.outcome(sym) == Some(it) && it.kept == Some(r)
  {
    var got := Pool.Run(c, events).value.received;
    Pool.FinishedHasCollected(c, events);
    hide Pool.Run, Pool.Sequential;
    assert r in multiset(result.rows);
    Pool.KeptFrom(got, r);
    it :| it in got && it.kept == Some(r);
    assert it in multiset(got);
    Pool.SequentialItems(c, c.symbols, it);
    sym :| sym in c.symbols && c.outcome(sym) == Some(it);
  }

  /** Exactly where they differ: the cached scan also keeps a symbol whose last complete bar misses the floor
      (or that has a single bar) when any other bar up to d reaches it. */
  lemma {:induction false} CachedDiffersFromDirect(
      loader: Loader, symbols: seq<string>, since: int, d: int, floor: real, outside: Outside, sym: string)
    requires Proper(loader, symbols, since) && sym in symbols
    ensures var bars := UpTo(Got(loader, sym, since), d);
      bars != [] ==>
        ((Row(sym, bars, outside) in CacheRows(LoadInto(map[], loader, symbols, since), d, floor, outside)
          && ItemOf(bars, sym, floor, outside).value.kept.None?)
        <==> SomeBarReaches(bars, floor) && !LiquidBefore(bars, floor))
  {
    var bars := UpTo(Got(loader, sym, since), d);
    if bars != [] {
      var row := Row(sym, bars, outside);
      DirectKeepsExactly(bars, sym, floor, outside);
      CachedKeepsExactly(loader, symbols, since, d, floor, outside, row);
      assert forall s, other :: other != [] && row == Row(s, other, outside) ==> s == sym;
    }
  }

  /** Without a floor, and with products that are not negative, both scans keep every symbol with two bars. */
  lemma {:induction false} ScansAgreeAtZero(
      loader: Loader, symbols: seq<string>, since: int, d: int, outside: Outside, sym: string)
    requires Proper(loader, symbols, since) && sym in symbols
    requires var bars := UpTo(Got(loader, sym, since), d);
      |bars| >= 2 && forall b :: b in bars ==> DollarVolume(b) >= 0.0
    ensures var bars := UpTo(Got(loader, sym, since), d);
      && ItemOf(bars, sym, 0.0, outside).value.kept == Some(Row(sym, bars, outside))
      && Row(sym, bars, outside) in CacheRows(LoadInto(map[], loader, symbols, since), d, 0.0, outside)
  {
    var bars := UpTo(Got(loader, sym, since), d);
    hide Row, CacheRows, UpTo, ItemOf, LoadInto, Proper;
    assert bars[|bars| - 2] in bars;
    DirectKeepsExactly(bars, sym, 0.0, outside);
    CachedKeepsExactly(loader, symbols, since, d, 0.0, outside, Row(sym, bars, outside));
  }

  /** A symbol that traded once and then dried up. */
  function FadedTable(): BarTable {
    map[("A", 1) := Bar("A", 1, 1.0, 1.0, 1.0, 1.0, 10), ("A", 2) := Bar("A", 2, 1.0, 1.0, 1.0, 1.0, 0)]
  }

  /** The floor does not look at the latest bar, as the comment on the query says it does: a symbol that once
      traded well stays in the snapshot after its volume has gone. */
  lemma {:induction false} QualifiesOnAnOldBar()
    ensures ("A", 2) in FadedTable() && DollarVolume(FadedTable()[("A", 2)]) < 5.0
    ensures "A" in Qualifying(FadedTable(), 2, 5.0) && BarsOf(FadedTable(), "A", 2) != []
  {
    var t := FadedTable();
    assert ("A", 1) in t && DollarVolume(t[("A", 1)]) >= 5.0;
    assert 1 in TimesOf(t, "A", 2);
  }
}
