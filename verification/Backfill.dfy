/** The day loop that rebuilds history: every weekday of a range from the bars known on that day. */
module Backfill {
  import opened Core
  import opened Listing
  import opened Snapshot
  import opened Screen
  import opened Cache

  function Midnight(t: int): int { t / DAY * DAY }

  /** 1970-01-01 was a Thursday; Sunday is 0. */
  function Weekday(t: int): int { (t / DAY + 4) % 7 }

  predicate IsWeekend(t: int) { Weekday(t) == 6 || Weekday(t) == 0 }

  datatype Options = Options(
    days: int, minDollarVol: real, skipExisting: bool, end: Option<int>, start: Option<int>, keepDays: int)

  /** What a run is fixed by: the cached bars, the dates stored before it, its range and its options. */
  datatype Plan = Plan(
    bars: BarTable, stored: set<int>, end: int, total: int, floor: real, skip: bool, outside: Outside, now: int)

  datatype Verdict = Weekend | Skipped | Failed | Filled(batch: Batch)

  /** The n-th day of the range, oldest first. */
  function DayAt(p: Plan, n: int): int { p.end - DAY * (p.total - 1 - n) }

  function BatchFor(p: Plan, d: int): Batch {
    var newest := Newest(p.bars, Sorted(Qualifying(p.bars, d, p.floor)), d);
    Batch(CacheRows(p.bars, d, p.floor, p.outside), if newest > 0 then newest else p.now, Midnight(d))
  }

  function Judge(p: Plan, n: int): Verdict {
    var d := DayAt(p, n);
    if IsWeekend(d) then Weekend
    else if p.skip && Midnight(d) in p.stored then Skipped
    else if BatchFor(p, d).rows == [] then Failed
    else Filled(BatchFor(p, d))
  }

  /** The batches of the first n days. */
  function Batches(p: Plan, n: nat): seq<Batch> {
    if n == 0 then []
    else Batches(p, n - 1) + (if Judge(p, n - 1).Filled? then [Judge(p, n - 1).batch] else [])
  }

  datatype Tally = Tally(backfilled: nat, skipped: nat, failed: nat, weekends: nat)

  /** How many of the first n days fell to each verdict. */
  function Count(p: Plan, n: nat): Tally {
    if n == 0 then Tally(0, 0, 0, 0)
    else
      var c := Count(p, n - 1);
      match Judge(p, n - 1)
      case Weekend => c.(weekends := c.weekends + 1)
      case Skipped => c.(skipped := c.skipped + 1)
      case Failed => c.(failed := c.failed + 1)
      case Filled(_) => c.(backfilled := c.backfilled + 1)
  }

  // ----- the run -----

  function EndOf(opts: Options, latest: int): int { if opts.end.Some? then opts.end.value else latest }

  function StartOf(opts: Options, latest: int): int {
    if opts.start.Some? then opts.start.value else EndOf(opts, latest) - DAY * (opts.days - 1)
  }

  /** Bars are loaded from 400 days before the range, and without an upper bound. */
  function Since(opts: Options, latest: int): int { StartOf(opts, latest) - 400 * DAY }

  function PlanOf(
    loader: Loader, symbols: seq<string>, stored: set<int>, opts: Options, latest: int, outside: Outside, now: int): Plan
  {
    Plan(LoadInto(map[], loader, symbols, Since(opts, latest)), stored, EndOf(opts, latest),
         TruncDiv(EndOf(opts, latest) - StartOf(opts, latest), DAY) + 1, opts.minDollarVol, opts.skipExisting, outside, now)
  }

  /** Old dates are dropped at the end of a run, unless it skips the dates it finds stored. */
  predicate CleansUp(opts: Options) { opts.keepDays > 0 && !opts.skipExisting }

  /** The first moment that is kept when the clock reads clock at the end of a run. */
  function Cutoff(opts: Options, clock: int): int { clock - opts.keepDays * DAY }

  function Trimmed(t: Table, opts: Options, clock: int): Table {
    if CleansUp(opts) then Recent(t, Cutoff(opts, clock)) else t
  }

  function Days(p: Plan): nat { if p.total > 0 then p.total else 0 }

  /** The body of the day loop: what becomes of one day. */
  method JudgeDay(cache: BarCache, store: DB, p: Plan, n: nat) returns (v: Verdict)
    requires cache.bars == p.bars && Dates(store.table) == p.stored
    ensures v == Judge(p, n)
  {
    hide CacheRows, Newest, Qualifying, IsWeekend, Midnight;
    var day := p.end - DAY * (p.total - 1 - n);
    if IsWeekend(day) {
      return Weekend;
    }
    if p.skip {
      var stored := store.HasSnapshot(Midnight(day));
      if stored {
        return Skipped;
      }
    }
    var rows, scanned, maxTs := UniverseFromCache(cache, day, p.floor, p.outside);
    if |rows| == 0 {
      return Failed;
    }
    return Filled(Batch(rows, if maxTs > 0 then maxTs else p.now, Midnight(day)));
  }

  /** The day loop. patience is the number of days before the context is found cancelled. */
  method DayLoop(cache: BarCache, store: DB, p: Plan, patience: nat) returns (all: seq<Batch>, tally: Tally, ok: bool)
    requires cache.bars == p.bars && Dates(store.table) == p.stored
    ensures ok <==> Days(p) <= patience
    ensures var n := if ok then Days(p) else patience; all == Batches(p, n) && tally == Count(p, n)
  {
    all, tally := [], Tally(0, 0, 0, 0);
    hide Judge;
    for n := 0 to Days(p)
      invariant n <= patience && all == Batches(p, n) && tally == Count(p, n)
    {
      if n == patience {
        return all, tally, false;
      }
      var v := JudgeDay(cache, store, p, n);
      match v {
        case Weekend => tally := tally.(weekends := tally.weekends + 1);
        case Skipped => tally := tally.(skipped := tally.skipped + 1);
        case Failed => tally := tally.(failed := tally.failed + 1);
        case Filled(batch) =>
          all := all + [batch];
          tally := tally.(backfilled := tally.backfilled + 1);
      }
    }
    ok := true;
  }

  /** The end of a run: one transaction for all batches, then the retention. */
  method WriteOut(store: DB, all: seq<Batch>, opts: Options, clock: int)
    modifies store
    ensures store.table == Trimmed(PutBatches(old(store.table), all), opts, clock)
    ensures all != [] ==> store.Latest(all[|all| - 1].date, |all[|all| - 1].rows|)
  {
    store.LoadHistoryBatch(all);
    if opts.keepDays > 0 && !opts.skipExisting {
      var deleted := store.Cleanup(opts.keepDays, clock);
    }
  }

  /** The whole run. patience counts the context checks that pass: one a symbol while the bars are loaded, then
      one a day. A run that is cut short reports the days it had prepared, but has stored none of them. now and clock
      are the readings of the clock at the start and at the end. */
  method BackfillSnapshots(
    loader: Loader, latest: Option<int>, store: DB, symbols: seq<string>, opts: Options, outside: Outside,
    now: int, clock: int, patience: nat) returns (count: nat, ok: bool)
    modifies store
    ensures opts.days <= 0 && opts.start.None? ==> ok && count == 0 && unchanged(store)
    ensures (opts.days > 0 || opts.start.Some?) && latest.None? ==> !ok
    ensures (opts.days > 0 || opts.start.Some?) && latest.Some? ==>
      var p := PlanOf(loader, symbols, Dates(old(store.table)), opts, latest.value, outside, now);
      ok <==> |symbols| + Days(p) <= patience
    ensures !ok ==> unchanged(store)
    ensures ok && (opts.days > 0 || opts.start.Some?) ==>
      var p := PlanOf(loader, symbols, Dates(old(store.table)), opts, latest.value, outside, now);
      var all := Batches(p, Days(p));
      && count == |all| && store.table == Trimmed(PutBatches(old(store.table), all), opts, clock)
      && (all != [] ==> store.Latest(all[|all| - 1].date, |all[|all| - 1].rows|))
    ensures !ok && latest.Some? && |symbols| <= patience ==>
      var p := PlanOf(loader, symbols, Dates(old(store.table)), opts, latest.value, outside, now);
      count == |Batches(p, patience - |symbols|)|
  {
    if opts.days <= 0 && opts.start.None? {
      return 0, true;
    }
    if latest.None? {
      return 0, false;
    }
    hide TruncDiv, LoadInto;
    var p := PlanOf(loader, symbols, Dates(store.table), opts, latest.value, outside, now);
    count, ok := BackfillRange(loader, p, store, symbols, Since(opts, latest.value), opts, clock, patience);
  }

  /** A run whose range is settled. */
  method BackfillRange(
    loader: Loader, p: Plan, store: DB, symbols: seq<string>, since: int, opts: Options, clock: int, patience: nat)
    returns (count: nat, ok: bool)
    requires p.bars == LoadInto(map[], loader, symbols, since) && p.stored == Dates(store.table)
    modifies store
    ensures ok <==> |symbols| + Days(p) <= patience
    ensures !ok ==> unchanged(store)
    ensures ok ==>
      var all := Batches(p, Days(p));
      && count == |all| && store.table == Trimmed(PutBatches(old(store.table), all), opts, clock)
      && (all != [] ==> store.Latest(all[|all| - 1].date, |all[|all| - 1].rows|))
    ensures !ok && |symbols| <= patience ==> count == |Batches(p, patience - |symbols|)|
  {
    hide LoadInto;
    var cache := new BarCache();
    var loaded := cache.BulkLoad(loader, symbols, since, patience);
    if !loaded {
      return 0, false;
    }
    var all, tally, finished := DayLoop(cache, store, p, patience - |symbols|);
    CountsAddUp(p, if finished then Days(p) else patience - |symbols|);
    if !finished {
      return tally.backfilled, false;
    }
    WriteOut(store, all, opts, clock);
    return tally.backfilled, true;
  }

  // ----- counters and dates -----

  /** Every day of the range is counted once. */
  lemma {:induction false} CountsAddUp(p: Plan, n: nat)
    ensures var c := Count(p, n);
      c.backfilled == |Batches(p, n)| && c.backfilled + c.skipped + c.failed + c.weekends == n
  {
    hide Judge;
    if n > 0 {
      CountsAddUp(p, n - 1);
    }
  }

  lemma {:induction false} MidnightRises(a: int, b: int)
    requires a + DAY <= b
    ensures Midnight(a) < Midnight(b)
  {}

  lemma {:induction false} FilledDay(p: Plan, n: nat)
    requires Judge(p, n).Filled?
    ensures var b := Judge(p, n).batch;
      b == BatchFor(p, DayAt(p, n)) && b.date == Midnight(DayAt(p, n)) && !IsWeekend(b.date)
  {
    hide CacheRows, Newest, Qualifying;
    assert Midnight(DayAt(p, n)) / DAY == DayAt(p, n) / DAY;
  }

  /** Every batch is the snapshot of a weekday of the range. */
  lemma {:induction false} DayOfBatch(p: Plan, n: nat, i: nat) returns (m: nat)
    requires i < |Batches(p, n)|
    ensures m < n && Batches(p, n)[i] == BatchFor(p, DayAt(p, m))
    ensures Batches(p, n)[i].date == Midnight(DayAt(p, m)) && !IsWeekend(Batches(p, n)[i].date)
  {
    hide BatchFor, IsWeekend, Midnight, Judge, DayAt;
    if i < |Batches(p, n - 1)| {
      m := DayOfBatch(p, n - 1, i);
    } else {
      m := n - 1;
      FilledDay(p, m);
    }
  }

  ghost predicate Chronological(bs: seq<Batch>) {
    forall i, j :: 0 <= i < j < |bs| ==> bs[i].date < bs[j].date
  }

  lemma {:induction false} LaterDate(p: Plan, n: nat, i: nat)
    requires i < |Batches(p, n)| && Judge(p, n).Filled?
    ensures Batches(p, n)[i].date < Judge(p, n).batch.date
  {
    hide BatchFor, IsWeekend, Midnight, Judge, Batches;
    FilledDay(p, n);
    var m := DayOfBatch(p, n, i);
    MidnightRises(DayAt(p, m), DayAt(p, n));
  }

  /** The dates of a run are strictly increasing. */
  lemma {:induction false} DatesRise(p: Plan, n: nat)
    ensures Chronological(Batches(p, n))
  {
    hide Judge;
    if n > 0 {
      DatesRise(p, n - 1);
      if Judge(p, n - 1).Filled? {
        var before := Batches(p, n - 1);
        forall i | 0 <= i < |before| ensures before[i].date < Judge(p, n - 1).batch.date {
          LaterDate(p, n - 1, i);
        }
      }
    }
  }

  // ----- no look-ahead -----

  /** The batch of a day depends on nothing the source holds after that day, nor on the rest of the range. */
  lemma {:induction false} BackfillSeesNoFuture(
      a: Loader, b: Loader, symbols: seq<string>, optsA: Options, optsB: Options, latestA: int, latestB: int,
      stored: set<int>, outside: Outside, now: int, d: int)
    requires StartOf(optsA, latestA) == StartOf(optsB, latestB) && optsA.minDollarVol == optsB.minDollarVol
    requires LoadersAgree(a, b, symbols, Since(optsA, latestA), d)
    ensures BatchFor(PlanOf(a, symbols, stored, optsA, latestA, outside, now), d)
         == BatchFor(PlanOf(b, symbols, stored, optsB, latestB, outside, now), d)
  {
    hide CacheRows, Newest, Qualifying, LoadInto, TruncDiv, LoadersAgree, StartOf, EndOf;
    assert Since(optsA, latestA) == Since(optsB, latestB);
    hide Since;
    CacheRowsSeeUpTo(a, b, symbols, Since(optsA, latestA), d, optsA.minDollarVol, outside);
  }

  // ----- what ends up in the table -----

  lemma {:induction false} RowsForAscend(t: BarTable, syms: seq<string>, d: int, outside: Outside)
    requires Ascending(syms)
    ensures forall i :: 0 <= i < |RowsFor(t, syms, d, outside)| ==> RowsFor(t, syms, d, outside)[i].symbol in syms
    ensures DistinctSymbols(RowsFor(t, syms, d, outside))
  {
    hide BarsOf, Row;
    if syms != [] {
      var k := |syms| - 1;
      RowsForAscend(t, syms[..k], d, outside);
      NewSymbol(syms);
      RowHasSymbol(syms[k], BarsOf(t, syms[k], d), outside);
      hide Ascending;
    }
  }

  lemma NewSymbol(syms: seq<string>)
    requires Ascending(syms) && syms != []
    ensures forall s :: s in syms[..|syms| - 1] ==> s in syms && s != syms[|syms| - 1]
    ensures syms[|syms| - 1] in syms
  {
    var before, last := syms[..|syms| - 1], syms[|syms| - 1];
    forall s | s in before ensures s != last {
      LessTrichotomy(s, s);
    }
    hide Less;
  }

  lemma RowHasSymbol(sym: string, bars: seq<Bar>, outside: Outside)
    ensures bars != [] ==> Row(sym, bars, outside).symbol == sym
  {}

  lemma {:induction false} BatchSymbolsDistinct(p: Plan, d: int)
    ensures DistinctSymbols(BatchFor(p, d).rows)
  {
    hide RowsFor, DistinctSymbols, Less, Qualifying, Newest, Midnight;
    RowsForAscend(p.bars, Sorted(Qualifying(p.bars, d, p.floor)), d, p.outside);
  }

  lemma {:induction false} PutAllNewStores(t: Table, b: Batch, n: nat, j: nat)
    requires j < n <= |b.rows| && DistinctSymbols(b.rows)
    ensures var k := (b.date, b.rows[j].symbol);
      k in PutAllNew(t, b, n) && (k !in t ==> PutAllNew(t, b, n)[k] == Stored(b.barTs, Cells(b.rows[j])))
  {
    PutAllNewAdds(t, b, n - 1, (b.date, b.rows[j].symbol));
    if j < n - 1 {
      PutAllNewStores(t, b, n - 1, j);
    }
    hide Cells;
  }

  /** Loading batches of different dates stores each of their rows, unless its key was there before. */
  lemma {:induction false} PutBatchesStore(t: Table, bs: seq<Batch>, i: nat, j: nat)
    requires i < |bs| && j < |bs[i].rows|
    requires forall x :: 0 <= x < |bs| ==> DistinctSymbols(bs[x].rows)
    requires Chronological(bs)
    ensures var k := (bs[i].date, bs[i].rows[j].symbol);
      && k in PutBatches(t, bs)
      && PutBatches(t, bs)[k] == if k in t then t[k] else Stored(bs[i].barTs, Cells(bs[i].rows[j]))
  {
    var n := |bs| - 1;
    var k := (bs[i].date, bs[i].rows[j].symbol);
    BatchesOnlyAdd(t, bs, k);
    BatchesOnlyAdd(t, bs[..n], k);
    hide Cells;
    if i < n {
      PutBatchesStore(t, bs[..n], i, j);
      PutAllNewAdds(PutBatches(t, bs[..n]), bs[n], |bs[n].rows|, k);
    } else {
      PutAllNewStores(PutBatches(t, bs[..n]), bs[n], |bs[n].rows|, j);
    }
  }

  lemma {:induction false} BatchesStore(p: Plan, n: nat, t: Table, i: nat, j: nat)
    requires i < |Batches(p, n)| && j < |Batches(p, n)[i].rows|
    ensures var b := Batches(p, n)[i]; var k := (b.date, b.rows[j].symbol);
      && k in PutBatches(t, Batches(p, n))
      && PutBatches(t, Batches(p, n))[k] == if k in t then t[k] else Stored(b.barTs, Cells(b.rows[j]))
  {
    var bs := Batches(p, n);
    DatesRise(p, n);
    hide Batches, BatchFor, Midnight, DayAt, IsWeekend, DistinctSymbols, Cells, PutBatches;
    forall x | 0 <= x < |bs| ensures DistinctSymbols(bs[x].rows) {
      var m := DayOfBatch(p, n, x);
      BatchSymbolsDistinct(p, DayAt(p, m));
    }
    PutBatchesStore(t, bs, i, j);
  }

  /** After a run, each symbol's row of each filled day is in the table, the one already there or the new one, exactly
      when the retention at the end of the run spares the day. */
  lemma {:induction false} BackfillStores(p: Plan, n: nat, t: Table, i: nat, j: nat, opts: Options, clock: int)
    requires i < |Batches(p, n)| && j < |Batches(p, n)[i].rows|
    ensures var b, end := Batches(p, n)[i], Trimmed(PutBatches(t, Batches(p, n)), opts, clock);
      var k := (b.date, b.rows[j].symbol);
      && (k in end <==> CleansUp(opts) ==> b.date >= Cutoff(opts, clock))
      && (k in end ==> end[k] == if k in t then t[k] else Stored(b.barTs, Cells(b.rows[j])))
  {
    BatchesStore(p, n, t, i, j);
    hide Batches, PutBatches, Cells;
  }

  lemma {:induction false} BatchHasRows(p: Plan, n: nat, i: nat)
    requires i < |Batches(p, n)|
    ensures Batches(p, n)[i].rows != []
  {
    if n > 0 && i < |Batches(p, n - 1)| {
      BatchHasRows(p, n - 1, i);
    }
  }

  /** A run that fills some day leaves the active date without rows exactly when its last day is past retention. */
  lemma {:induction false} ActiveDateHasRows(p: Plan, n: nat, t: Table, opts: Options, clock: int)
    requires Batches(p, n) != []
    ensures var all := Batches(p, n); var last := all[|all| - 1].date;
      last in Dates(Trimmed(PutBatches(t, all), opts, clock)) <==> (CleansUp(opts) ==> last >= Cutoff(opts, clock))
  {
    var i := |Batches(p, n)| - 1;
    BatchHasRows(p, n, i);
    BackfillStores(p, n, t, i, 0, opts, clock);
    hide Batches, PutBatches;
    var end := Trimmed(PutBatches(t, Batches(p, n)), opts, clock);
    assert forall k :: k in end && CleansUp(opts) ==> k.0 >= Cutoff(opts, clock);
    var b := Batches(p, n)[i];
    assert (b.date, b.rows[0].symbol) in end ==> b.date in Dates(end);
  }

  // ----- no look-ahead, in the table -----

  /** The rows of one date. */
  function OnDate(t: Table, date: int): Table { map k | k in t && k.0 == date :: t[k] }

  lemma {:induction false} PutAllNewOnDate(x: Table, y: Table, b: Batch, n: nat, date: int)
    requires n <= |b.rows| && OnDate(x, date) == OnDate(y, date)
    ensures OnDate(PutAllNew(x, b, n), date) == OnDate(PutAllNew(y, b, n), date)
  {
    hide Cells;
    if n > 0 {
      PutAllNewOnDate(x, y, b, n - 1, date);
      PutNewOnDate(PutAllNew(x, b, n - 1), PutAllNew(y, b, n - 1), b.date, b.barTs, b.rows[n - 1], date);
    }
  }

  lemma PutNewOnDate(x: Table, y: Table, d: int, ts: int, r: SnapshotRow, date: int)
    requires OnDate(x, date) == OnDate(y, date)
    ensures OnDate(PutNew(x, d, ts, r), date) == OnDate(PutNew(y, d, ts, r), date)
  {
    hide Cells;
    forall k: (int, string)
      ensures k in OnDate(PutNew(x, d, ts, r), date) <==> k in OnDate(PutNew(y, d, ts, r), date)
    {
      assert k in OnDate(x, date) <==> k in OnDate(y, date);
    }
    forall k | k in OnDate(PutNew(x, d, ts, r), date)
      ensures OnDate(PutNew(x, d, ts, r), date)[k] == OnDate(PutNew(y, d, ts, r), date)[k]
    {
      assert k in OnDate(x, date) ==> OnDate(x, date)[k] == OnDate(y, date)[k];
      assert k in OnDate(x, date) <==> k in OnDate(y, date);
    }
  }

  lemma {:induction false} OtherDateStands(t: Table, b: Batch, date: int)
    requires b.date != date
    ensures OnDate(PutBatch(t, b), date) == OnDate(t, date)
  {
    forall k: (int, string) | k.0 == date ensures k in PutBatch(t, b) <==> k in t {
      PutAllNewAdds(t, b, |b.rows|, k);
    }
    forall k | k in t && k.0 == date ensures PutBatch(t, b)[k] == t[k] {
      PutAllNewAdds(t, b, |b.rows|, k);
    }
  }

  /** What a table holds once a day has been judged. */
  function AfterDay(p: Plan, m: nat, t: Table): Table {
    if Judge(p, m).Filled? then PutBatch(t, Judge(p, m).batch) else t
  }

  lemma {:induction false} PutBatchesNext(p: Plan, n: nat, t: Table)
    ensures PutBatches(t, Batches(p, n + 1)) == AfterDay(p, n, PutBatches(t, Batches(p, n)))
  {
    hide Judge;
    var before := Batches(p, n);
    if Judge(p, n).Filled? {
      var all := before + [Judge(p, n).batch];
      assert all[..|all| - 1] == before && all[|all| - 1] == Judge(p, n).batch;
    } else {
      assert before + [] == before;
    }
  }

  /** The rows of a day of the range are those of that day's batch over what was there, whatever other days add. */
  lemma {:induction false} DayRows(p: Plan, n: nat, m: nat, t: Table)
    ensures OnDate(PutBatches(t, Batches(p, n)), Midnight(DayAt(p, m)))
         == OnDate(if m < n then AfterDay(p, m, t) else t, Midnight(DayAt(p, m)))
  {
    hide Judge, Midnight, DayAt, PutBatch, OnDate, Batches, PutBatches;
    var date := Midnight(DayAt(p, m));
    if n == 0 {
      NoBatches(p, t);
    } else {
      var before := PutBatches(t, Batches(p, n - 1));
      DayRows(p, n - 1, m, t);
      PutBatchesNext(p, n - 1, t);
      if Judge(p, n - 1).Filled? {
        var b := Judge(p, n - 1).batch;
        FilledDay(p, n - 1);
        if n - 1 == m {
          SameBatchOnDate(before, t, b, date);
        } else {
          DaysApart(p, n - 1, m);
          OtherDateStands(before, b, date);
        }
      }
    }
  }

  lemma NoBatches(p: Plan, t: Table)
    ensures PutBatches(t, Batches(p, 0)) == t
  {}

  lemma SameBatchOnDate(x: Table, y: Table, b: Batch, date: int)
    requires OnDate(x, date) == OnDate(y, date)
    ensures OnDate(PutBatch(x, b), date) == OnDate(PutBatch(y, b), date)
  {
    PutAllNewOnDate(x, y, b, |b.rows|, date);
  }

  lemma DaysApart(p: Plan, m: nat, n: nat)
    requires m != n
    ensures Midnight(DayAt(p, m)) != Midnight(DayAt(p, n))
  {
    if m < n {
      MidnightRises(DayAt(p, m), DayAt(p, n));
    } else {
      MidnightRises(DayAt(p, n), DayAt(p, m));
    }
  }

  lemma TrimmedOnDate(x: Table, y: Table, a: Options, b: Options, clock: int, date: int)
    requires OnDate(x, date) == OnDate(y, date)
    requires a.keepDays == b.keepDays && a.skipExisting == b.skipExisting
    ensures OnDate(Trimmed(x, a, clock), date) == OnDate(Trimmed(y, b, clock), date)
  {
    var keep := !CleansUp(a) || date >= Cutoff(a, clock);
    assert OnDate(Trimmed(x, a, clock), date) == if keep then OnDate(x, date) else map[];
    assert OnDate(Trimmed(y, b, clock), date) == if keep then OnDate(y, date) else map[];
  }

  /** Two completed runs on equal tables, over sources that agree up to day d, leave the same rows of d behind,
      whatever the sources hold later and wherever the ranges end. */
  lemma {:induction false} BackfillLeavesNoFuture(
      a: Loader, b: Loader, symbols: seq<string>, optsA: Options, optsB: Options, latestA: int, latestB: int,
      t: Table, outside: Outside, now: int, clock: int, m: nat, n: nat)
    requires StartOf(optsA, latestA) == StartOf(optsB, latestB) && optsA.minDollarVol == optsB.minDollarVol
    requires optsA.skipExisting == optsB.skipExisting && optsA.keepDays == optsB.keepDays
    requires var p, q := PlanOf(a, symbols, Dates(t), optsA, latestA, outside, now),
                         PlanOf(b, symbols, Dates(t), optsB, latestB, outside, now);
      && m < Days(p) && n < Days(q) && DayAt(p, m) == DayAt(q, n)
      && LoadersAgree(a, b, symbols, Since(optsA, latestA), DayAt(p, m))
    ensures var p, q := PlanOf(a, symbols, Dates(t), optsA, latestA, outside, now),
                        PlanOf(b, symbols, Dates(t), optsB, latestB, outside, now);
      OnDate(Trimmed(PutBatches(t, Batches(p, Days(p))), optsA, clock), Midnight(DayAt(p, m)))
      == OnDate(Trimmed(PutBatches(t, Batches(q, Days(q))), optsB, clock), Midnight(DayAt(p, m)))
  {
    hide LoadersAgree, Since, StartOf, EndOf, TruncDiv, LoadInto, Batches, PutBatches, OnDate, Trimmed;
    hide BatchFor, DayAt, Midnight, IsWeekend;
    var p := PlanOf(a, symbols, Dates(t), optsA, latestA, outside, now);
    var q := PlanOf(b, symbols, Dates(t), optsB, latestB, outside, now);
    var d := DayAt(p, m);
    BackfillSeesNoFuture(a, b, symbols, optsA, optsB, latestA, latestB, Dates(t), outside, now, d);
    assert Judge(p, m) == Judge(q, n);
    DayRows(p, Days(p), m, t);
    DayRows(q, Days(q), n, t);
    hide Judge;
    TrimmedOnDate(PutBatches(t, Batches(p, Days(p))), PutBatches(t, Batches(q, Days(q))), optsA, optsB, clock, Midnight(d));
  }

  lemma {:induction false} PutBatchesFixed(t: Table, bs: seq<Batch>)
    requires forall i, j :: 0 <= i < |bs| && 0 <= j < |bs[i].rows| ==> (bs[i].date, bs[i].rows[j].symbol) in t
    ensures PutBatches(t, bs) == t
  {
    if bs != [] {
      var n := |bs| - 1;
      PutBatchesFixed(t, bs[..n]);
      PutAllNewFixed(t, bs[n], |bs[n].rows|);
    }
  }

  lemma {:induction false} PutAllNewFixed(t: Table, b: Batch, n: nat)
    requires n <= |b.rows| && forall j :: 0 <= j < |b.rows| ==> (b.date, b.rows[j].symbol) in t
    ensures PutAllNew(t, b, n) == t
  {
    if n > 0 {
      PutAllNewFixed(t, b, n - 1);
    }
  }

  /** Running the same backfill again, cleanup included, changes nothing. */
  lemma {:induction false} BackfillTwice(t: Table, bs: seq<Batch>, opts: Options, clock: int)
    ensures var once := Trimmed(PutBatches(t, bs), opts, clock);
      Trimmed(PutBatches(once, bs), opts, clock) == once
  {
    var full, once := PutBatches(t, bs), Trimmed(PutBatches(t, bs), opts, clock);
    forall i, j | 0 <= i < |bs| && 0 <= j < |bs[i].rows|
      ensures (bs[i].date, bs[i].rows[j].symbol) in full
    {
      BatchesOnlyAdd(t, bs, (bs[i].date, bs[i].rows[j].symbol));
    }
    hide PutBatches;
    if CleansUp(opts) {
      forall k ensures k in Trimmed(PutBatches(once, bs), opts, clock) <==> k in once {
        BatchesOnlyAdd(once, bs, k);
      }
      forall k | k in once ensures PutBatches(once, bs)[k] == once[k] {
        BatchesOnlyAdd(once, bs, k);
      }
    } else {
      PutBatchesFixed(full, bs);
    }
  }
}
