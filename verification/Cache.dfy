/** The bar cache of a backfill, the scan that runs over it, and how it compares with the direct scan. */
module Cache {
  import opened Core
  import opened Listing
  import opened Snapshot
  import opened Screen

  /** A bar source: the bars of a symbol since a time, or None when the load fails. */
  type Loader = (string, int) -> Option<seq<Bar>>

  /** The cached bars, by their primary key (symbol, timestamp). */
  type BarTable = map<(string, int), Bar>

  function Got(loader: Loader, sym: string, since: int): seq<Bar> {
    var got := loader(sym, since);
    if got.None? then [] else got.value
  }

  /** INSERT OR IGNORE of one bar: the bar's own symbol is the key. */
  function InsertBar(t: BarTable, b: Bar): BarTable {
    if (b.symbol, b.timestamp) in t then t else t[(b.symbol, b.timestamp) := b]
  }

  function InsertBars(t: BarTable, bars: seq<Bar>): BarTable {
    if bars == [] then t else InsertBar(InsertBars(t, bars[..|bars| - 1]), bars[|bars| - 1])
  }

  function LoadInto(t: BarTable, loader: Loader, symbols: seq<string>, since: int): BarTable {
    if symbols == [] then t
    else
      var k := |symbols| - 1;
      InsertBars(LoadInto(t, loader, symbols[..k], since), Got(loader, symbols[k], since))
  }

  /** The bars stamped at or before d, in their order. */
  function UpTo(bars: seq<Bar>, d: int): seq<Bar> {
    if bars == [] then []
    else
      var k := |bars| - 1;
      UpTo(bars[..k], d) + (if bars[k].timestamp <= d then [bars[k]] else [])
  }

  function Restrict(t: BarTable, d: int): BarTable { map k | k in t && k.1 <= d :: t[k] }

  // ----- queries -----

  function TimesOf(t: BarTable, sym: string, d: int): set<int> { set k | k in t && k.0 == sym && k.1 <= d :: k.1 }

  /** SELECT ... WHERE symbol = ? AND timestamp <= ? ORDER BY timestamp ASC. */
  function BarsOf(t: BarTable, sym: string, d: int): (bars: seq<Bar>)
    ensures bars == [] <==> TimesOf(t, sym, d) == {}
  {
    var times := OldestFirst(TimesOf(t, sym, d));
    assert forall i :: 0 <= i < |times| ==> times[i] in TimesOf(t, sym, d);
    seq(|times|, i requires 0 <= i < |times| => t[(sym, times[i])])
  }

  function DollarVolume(b: Bar): real { b.close * b.volume as real }

  /** The symbols whose greatest close * volume up to d reaches the floor: those with some bar that reaches it. */
  function Qualifying(t: BarTable, d: int, floor: real): set<string> {
    set k | k in t && k.1 <= d && DollarVolume(t[k]) >= floor :: k.0
  }

  function RowsFor(t: BarTable, syms: seq<string>, d: int, outside: Outside): seq<SnapshotRow> {
    if syms == [] then []
    else
      var k := |syms| - 1;
      var bars := BarsOf(t, syms[k], d);
      RowsFor(t, syms[..k], d, outside) + (if bars == [] then [] else [Row(syms[k], bars, outside)])
  }

  /** The snapshot of day d from the cache. */
  function CacheRows(t: BarTable, d: int, floor: real, outside: Outside): seq<SnapshotRow> {
    RowsFor(t, Sorted(Qualifying(t, d, floor)), d, outside)
  }

  /** The newest bar time up to d among some symbols, or 0 when none is positive. */
  ghost predicate IsNewest(t: BarTable, syms: seq<string>, d: int, ts: int) {
    && ts >= 0
    && (forall k :: k in t && k.0 in syms && k.1 <= d ==> k.1 <= ts)
    && (ts == 0 || exists k :: k in t && k.0 in syms && k.1 <= d && k.1 == ts)
  }

  /** A bar is kept under its own symbol and time. */
  ghost predicate Keyed(t: BarTable) {
    forall k :: k in t ==> t[k].symbol == k.0 && t[k].timestamp == k.1
  }

  lemma {:induction false} NewestOf(t: BarTable, sym: string, d: int)
    requires Keyed(t) && BarsOf(t, sym, d) != []
    ensures var last := BarsOf(t, sym, d)[|BarsOf(t, sym, d)| - 1];
      && (sym, last.timestamp) in t && last.timestamp <= d
      && forall k :: k in t && k.0 == sym && k.1 <= d ==> k.1 <= last.timestamp
  {
    var times := OldestFirst(TimesOf(t, sym, d));
    var m := times[|times| - 1];
    assert m in TimesOf(t, sym, d);
    forall k | k in t && k.0 == sym && k.1 <= d ensures k.1 <= m {
      assert k.1 in TimesOf(t, sym, d);
      assert k.1 in times;
    }
  }

  /** The scan's running maximum of the symbols' last bar times. */
  function Newest(t: BarTable, syms: seq<string>, d: int): int {
    if syms == [] then 0
    else
      var k := |syms| - 1;
      var before, bars := Newest(t, syms[..k], d), BarsOf(t, syms[k], d);
      if bars != [] && bars[|bars| - 1].timestamp > before then bars[|bars| - 1].timestamp else before
  }

  lemma {:induction false} NewestIs(t: BarTable, syms: seq<string>, d: int)
    requires Keyed(t)
    ensures IsNewest(t, syms, d, Newest(t, syms, d))
  {
    hide BarsOf, IsNewest;
    if syms == [] {
      NoneNewest(t, d);
    } else {
      var k := |syms| - 1;
      NewestIs(t, syms[..k], d);
      NewestNext(t, syms[..k], syms[k], d, Newest(t, syms[..k], d));
      assert syms[..k] + [syms[k]] == syms;
    }
  }

  lemma NoneNewest(t: BarTable, d: int)
    ensures IsNewest(t, [], d, 0)
  {}

  /** One more symbol: its last bar raises the maximum, or it has none. */
  lemma NewestNext(t: BarTable, syms: seq<string>, sym: string, d: int, before: int)
    requires Keyed(t) && IsNewest(t, syms, d, before)
    ensures var bars := BarsOf(t, sym, d);
      IsNewest(t, syms + [sym], d,
        if bars != [] && bars[|bars| - 1].timestamp > before then bars[|bars| - 1].timestamp else before)
  {
    if BarsOf(t, sym, d) == [] {
      NoBars(t, sym, d);
    } else {
      NewestOf(t, sym, d);
    }
    hide BarsOf, Keyed;
  }

  lemma NoBars(t: BarTable, sym: string, d: int)
    requires BarsOf(t, sym, d) == []
    ensures forall k :: k in t && k.0 == sym ==> k.1 > d
  {
    assert forall k :: k in t && k.0 == sym && k.1 <= d ==> k.1 in TimesOf(t, sym, d);
  }

  class BarCache {
    var bars: BarTable

    constructor ()
      ensures bars == map[]
    {
      bars := map[];
    }

    /** Fills the cache in one transaction. The context is asked once a symbol: patience says how often it
        still answers that the work may go on. */
    method BulkLoad(loader: Loader, symbols: seq<string>, since: int, patience: nat) returns (ok: bool)
      modifies this
      ensures ok <==> |symbols| <= patience
      ensures bars == if ok then LoadInto(old(bars), loader, symbols, since) else old(bars)
    {
      var tx := bars;
      for n := 0 to |symbols|
        invariant n <= patience && bars == old(bars)
        invariant tx == LoadInto(bars, loader, symbols[..n], since)
      {
        if n == patience {
          return false;
        }
        assert symbols[..n + 1][..n] == symbols[..n];
        var got := loader(symbols[n], since);
        if got.None? {
          continue;
        }
        ghost var before := tx;
        for i := 0 to |got.value|
          invariant tx == InsertBars(before, got.value[..i])
        {
          assert got.value[..i + 1][..i] == got.value[..i];
          tx := InsertBar(tx, got.value[i]);
        }
        assert got.value[..|got.value|] == got.value;
      }
      assert symbols[..|symbols|] == symbols;
      bars := tx;
      return true;
    }

    method GetBarsForSymbol(sym: string, upTo: int) returns (found: seq<Bar>)
      ensures found == BarsOf(bars, sym, upTo)
    {
      found := BarsOf(bars, sym, upTo);
    }

    method GetQualifyingSymbols(upTo: int, floor: real) returns (syms: seq<string>)
      ensures syms == Sorted(Qualifying(bars, upTo, floor))
    {
      syms := Sorted(Qualifying(bars, upTo, floor));
    }
  }

  method UniverseFromCache(cache: BarCache, day: int, floor: real, outside: Outside)
    returns (rows: seq<SnapshotRow>, scanned: nat, maxTs: int)
    ensures var syms := Sorted(Qualifying(cache.bars, day, floor));
      rows == CacheRows(cache.bars, day, floor, outside) && scanned == |syms| && maxTs == Newest(cache.bars, syms, day)
  {
    hide Row, BarsOf, Qualifying, Less, Ascending, ListsExactly, Columns;
    var syms := cache.GetQualifyingSymbols(day, floor);
    rows, scanned, maxTs := [], 0, 0;
    while scanned < |syms|
      invariant scanned <= |syms|
      invariant rows == RowsFor(cache.bars, syms[..scanned], day, outside)
      invariant maxTs == Newest(cache.bars, syms[..scanned], day)
    {
      var sym := syms[scanned];
      assert syms[..scanned + 1] == syms[..scanned] + [sym];
      scanned := scanned + 1;
      var bars := cache.GetBarsForSymbol(sym, day);
      if bars == [] {
        continue;
      }
      if bars[|bars| - 1].timestamp > maxTs {
        maxTs := bars[|bars| - 1].timestamp;
      }
      var row, ok := Build(sym, bars, outside);
      if ok {
        rows := rows + [row];
      }
    }
    assert syms[..scanned] == syms;
  }

  // ----- later bars do not matter -----

  lemma {:induction false} InsertBarUpTo(t: BarTable, b: Bar, d: int)
    ensures Restrict(InsertBar(t, b), d) == if b.timestamp <= d then InsertBar(Restrict(t, d), b) else Restrict(t, d)
  {}

  lemma {:induction false} InsertBarsUpTo(t: BarTable, bars: seq<Bar>, d: int)
    ensures Restrict(InsertBars(t, bars), d) == InsertBars(Restrict(t, d), UpTo(bars, d))
  {
    if bars != [] {
      var k := |bars| - 1;
      InsertBarsUpTo(t, bars[..k], d);
      InsertBarUpTo(InsertBars(t, bars[..k]), bars[k], d);
      hide InsertBar, Restrict;
      var kept := UpTo(bars[..k], d);
      assert (kept + [bars[k]])[..|kept|] == kept && kept + [] == kept;
    }
  }

  /** The loaders give the same bars up to d for every symbol, whatever later bars either holds. */
  ghost predicate LoadersAgree(a: Loader, b: Loader, symbols: seq<string>, since: int, d: int) {
    forall sym :: sym in symbols ==> UpTo(Got(a, sym, since), d) == UpTo(Got(b, sym, since), d)
  }

  lemma {:induction false} CachesAgree(a: Loader, b: Loader, symbols: seq<string>, since: int, d: int)
    requires LoadersAgree(a, b, symbols, since, d)
    ensures Restrict(LoadInto(map[], a, symbols, since), d) == Restrict(LoadInto(map[], b, symbols, since), d)
  {
    if symbols != [] {
      var k := |symbols| - 1;
      assert symbols[k] in symbols;
      CachesAgree(a, b, symbols[..k], since, d);
      InsertBarsUpTo(LoadInto(map[], a, symbols[..k], since), Got(a, symbols[k], since), d);
      InsertBarsUpTo(LoadInto(map[], b, symbols[..k], since), Got(b, symbols[k], since), d);
    }
  }

  lemma {:induction false} QueriesSeeUpTo(t: BarTable, u: BarTable, d: int, sym: string, floor: real)
    requires Restrict(t, d) == Restrict(u, d)
    ensures BarsOf(t, sym, d) == BarsOf(u, sym, d) && Qualifying(t, d, floor) == Qualifying(u, d, floor)
  {
    forall k: (string, int) | k.1 <= d ensures (k in t <==> k in u) && (k in t ==> t[k] == u[k]) {
      assert k in t <==> k in Restrict(t, d);
      assert k in u <==> k in Restrict(u, d);
    }
    assert TimesOf(t, sym, d) == TimesOf(u, sym, d);
    forall i | 0 <= i < |BarsOf(t, sym, d)| ensures BarsOf(t, sym, d)[i] == BarsOf(u, sym, d)[i] {
      assert OldestFirst(TimesOf(t, sym, d))[i] in TimesOf(t, sym, d);
    }
  }

  lemma {:induction false} RowsSeeUpTo(t: BarTable, u: BarTable, syms: seq<string>, d: int, outside: Outside)
    requires Restrict(t, d) == Restrict(u, d)
    ensures RowsFor(t, syms, d, outside) == RowsFor(u, syms, d, outside) && Newest(t, syms, d) == Newest(u, syms, d)
  {
    if syms != [] {
      var k := |syms| - 1;
      RowsSeeUpTo(t, u, syms[..k], d, outside);
      QueriesSeeUpTo(t, u, d, syms[k], 0.0);
      hide Row, BarsOf, Restrict;
    }
  }

  /** No look-ahead: sources that agree up to d give the same snapshot of d, whatever they hold after d. */
  lemma {:induction false} CacheRowsSeeUpTo(
      a: Loader, b: Loader, symbols: seq<string>, since: int, d: int, floor: real, outside: Outside)
    requires LoadersAgree(a, b, symbols, since, d)
    ensures var t, u := LoadInto(map[], a, symbols, since), LoadInto(map[], b, symbols, since);
      && CacheRows(t, d, floor, outside) == CacheRows(u, d, floor, outside)
      && Newest(t, Sorted(Qualifying(t, d, floor)), d) == Newest(u, Sorted(Qualifying(u, d, floor)), d)
  {
    var t, u := LoadInto(map[], a, symbols, since), LoadInto(map[], b, symbols, since);
    CachesAgree(a, b, symbols, since, d);
    hide Restrict, LoadInto, RowsFor, Newest;
    QueriesSeeUpTo(t, u, d, "", floor);
    RowsSeeUpTo(t, u, Sorted(Qualifying(t, d, floor)), d, outside);
  }

  // ----- the cache holds what a proper source delivers -----

  ghost predicate Rising(bars: seq<Bar>) {
    forall i, j :: 0 <= i < j < |bars| ==> bars[i].timestamp < bars[j].timestamp
  }

  /** A source that labels bars with the symbol asked for and delivers them in strictly rising time. */
  ghost predicate Proper(loader: Loader, symbols: seq<string>, since: int) {
    forall sym :: sym in symbols ==> var bars := Got(loader, sym, since);
      Rising(bars) && forall i :: 0 <= i < |bars| ==> bars[i].symbol == sym
  }

  function Key(b: Bar): (string, int) { (b.symbol, b.timestamp) }

  lemma {:induction false} InsertBarHolds(t: BarTable, b: Bar, k: (string, int))
    ensures k in InsertBar(t, b) <==> k in t || k == Key(b)
    ensures k in t ==> InsertBar(t, b)[k] == t[k]
    ensures k !in t && k == Key(b) ==> InsertBar(t, b)[k] == b
  {}

  /** Inserting keeps what is stored and stores every bar whose key is new. */
  lemma {:induction false} InsertBarsHolds(t: BarTable, bars: seq<Bar>, k: (string, int))
    requires Rising(bars)
    ensures k in t ==> k in InsertBars(t, bars) && InsertBars(t, bars)[k] == t[k]
    ensures k !in t && k in InsertBars(t, bars) ==> InsertBars(t, bars)[k] in bars && k == Key(InsertBars(t, bars)[k])
    ensures forall b :: b in bars && k == Key(b) ==> k in InsertBars(t, bars)
  {
    if bars != [] {
      var n := |bars| - 1;
      InsertBarsHolds(t, bars[..n], k);
      assert InsertBars(t, bars) == InsertBar(InsertBars(t, bars[..n]), bars[n]);
      hide InsertBars;
      InsertBarHolds(InsertBars(t, bars[..n]), bars[n], k);
      hide InsertBar;
      assert forall b :: b in bars <==> b in bars[..n] || b == bars[n];
    }
  }

  /** The cache after loading holds exactly the source's bars. */
  lemma {:induction false} LoadHolds(loader: Loader, symbols: seq<string>, since: int, k: (string, int))
    requires Proper(loader, symbols, since)
    ensures var t := LoadInto(map[], loader, symbols, since);
      && (k in t ==> k.0 in symbols && t[k] in Got(loader, k.0, since) && k == Key(t[k]))
      && (k.0 in symbols ==> forall b :: b in Got(loader, k.0, since) && k == Key(b) ==> k in t)
  {
    if symbols != [] {
      var n := |symbols| - 1;
      assert symbols == symbols[..n] + [symbols[n]];
      LoadHolds(loader, symbols[..n], since, k);
      hide LoadInto;
      assert LoadInto(map[], loader, symbols, since)
        == InsertBars(LoadInto(map[], loader, symbols[..n], since), Got(loader, symbols[n], since)) by {
        LoadIntoSnoc(loader, symbols, since);
      }
      InsertBarsHolds(LoadInto(map[], loader, symbols[..n], since), Got(loader, symbols[n], since), k);
      hide InsertBars;
    }
  }

  lemma {:induction false} LoadIntoSnoc(loader: Loader, symbols: seq<string>, since: int)
    requires symbols != []
    ensures LoadInto(map[], loader, symbols, since)
      == InsertBars(LoadInto(map[], loader, symbols[..|symbols| - 1], since), Got(loader, symbols[|symbols| - 1], since))
  {}

  lemma {:induction false} SameTimeSameBar(bars: seq<Bar>, b: Bar, c: Bar)
    requires Rising(bars) && b in bars && c in bars && b.timestamp == c.timestamp
    ensures b == c
  {}

  lemma {:induction false} UpToIs(bars: seq<Bar>, d: int)
    requires Rising(bars)
    ensures Rising(UpTo(bars, d))
    ensures forall b :: b in UpTo(bars, d) <==> b in bars && b.timestamp <= d
  {
    if bars != [] {
      var k := |bars| - 1;
      UpToIs(bars[..k], d);
      assert bars == bars[..k] + [bars[k]];
      var kept := UpTo(bars[..k], d);
      forall i | 0 <= i < |kept| ensures kept[i].timestamp < bars[k].timestamp {
        assert kept[i] in bars[..k];
      }
    }
  }

  function Stamps(bars: seq<Bar>): seq<int> { seq(|bars|, i requires 0 <= i < |bars| => bars[i].timestamp) }

  lemma {:induction false} TimesAre(loader: Loader, symbols: seq<string>, since: int, sym: string, d: int, x: int)
    requires Proper(loader, symbols, since) && sym in symbols
    ensures x in TimesOf(LoadInto(map[], loader, symbols, since), sym, d)
      <==> exists b :: b in UpTo(Got(loader, sym, since), d) && b.timestamp == x
  {
    var t, bars := LoadInto(map[], loader, symbols, since), Got(loader, sym, since);
    LoadHolds(loader, symbols, since, (sym, x));
    UpToIs(bars, d);
    hide LoadInto, UpTo;
    if b :| b in UpTo(bars, d) && b.timestamp == x {
      assert b.symbol == sym;
    }
    hide Got;
    if x in TimesOf(t, sym, d) {
      assert (sym, x) in t;
      assert t[(sym, x)] in UpTo(bars, d);
    }
    if b :| b in UpTo(bars, d) && b.timestamp == x {
      assert (sym, x) in t && x <= d;
    }
  }

  lemma {:induction false} TimesAreStamps(loader: Loader, symbols: seq<string>, since: int, sym: string, d: int)
    requires Proper(loader, symbols, since) && sym in symbols
    ensures OldestFirst(TimesOf(LoadInto(map[], loader, symbols, since), sym, d)) == Stamps(UpTo(Got(loader, sym, since), d))
  {
    var t, kept := LoadInto(map[], loader, symbols, since), UpTo(Got(loader, sym, since), d);
    UpToIs(Got(loader, sym, since), d);
    forall x ensures x in TimesOf(t, sym, d) <==> x in Stamps(kept) {
      TimesAre(loader, symbols, since, sym, d, x);
      StampIn(kept, x);
    }
    hide LoadInto, UpTo, TimesOf, Stamps;
    var times := OldestFirst(TimesOf(t, sym, d));
    assert forall x :: x in times <==> x in TimesOf(t, sym, d);
    StampsIncrease(kept);
    IncreasingUnique(times, Stamps(kept));
  }

  lemma {:induction false} StampIn(bars: seq<Bar>, x: int)
    ensures x in Stamps(bars) <==> exists b :: b in bars && b.timestamp == x
  {
    if x in Stamps(bars) {
      var i :| 0 <= i < |bars| && bars[i].timestamp == x;
      assert bars[i] in bars;
    }
    if b :| b in bars && b.timestamp == x {
      var i :| 0 <= i < |bars| && bars[i] == b;
      assert Stamps(bars)[i] == x;
    }
  }

  lemma {:induction false} StampsIncrease(bars: seq<Bar>)
    requires Rising(bars)
    ensures Increasing(Stamps(bars))
  {}

  /** Asking the cache for a symbol's bars up to d gives the source's bars up to d. */
  lemma {:induction false} CacheServesSource(loader: Loader, symbols: seq<string>, since: int, sym: string, d: int)
    requires Proper(loader, symbols, since) && sym in symbols
    ensures BarsOf(LoadInto(map[], loader, symbols, since), sym, d) == UpTo(Got(loader, sym, since), d)
  {
    var t, bars := LoadInto(map[], loader, symbols, since), Got(loader, sym, since);
    var times := OldestFirst(TimesOf(t, sym, d));
    TimesAreStamps(loader, symbols, since, sym, d);
    UpToIs(bars, d);
    forall i | 0 <= i < |times| ensures (sym, times[i]) in t && t[(sym, times[i])] == UpTo(bars, d)[i] {
      assert times[i] in TimesOf(t, sym, d);
      LoadHolds(loader, symbols, since, (sym, times[i]));
      hide LoadInto, UpTo, TimesOf;
      assert UpTo(bars, d)[i] in UpTo(bars, d);
      SameTimeSameBar(bars, UpTo(bars, d)[i], t[(sym, times[i])]);
    }
  }
}
