/** Holding-period backtests of a study over the stored snapshots. */
module Backtest {
  import opened Core
  import opened Listing
  import opened Snapshot
  import Compiler
  import Registry
  import StudyQueries

  /** A return: a number, or what float64 makes of a division by a zero close and of sums over it. */
  datatype Gain = Finite(v: real) | Infinite(positive: bool) | Undefined

  function Divide(a: real, b: real): Gain {
    if b != 0.0 then Finite(a / b) else if a != 0.0 then Infinite(a > 0.0) else Undefined
  }

  function Plus(a: Gain, b: Gain): Gain {
    if a.Finite? && b.Finite? then Finite(a.v + b.v)
    else if a.Undefined? || b.Undefined? then Undefined
    else if a.Finite? then b
    else if b.Finite? || a == b then a
    else Undefined
  }

  /** The mean of n summed returns. */
  function Mean(total: Gain, n: nat): Gain
    requires n > 0
  {
    if total.Finite? then Finite(total.v / n as real) else total
  }

  predicate IsWin(g: Gain) { match g case Finite(v) => v > 0.0 case Infinite(positive) => positive case Undefined => false }

  datatype Trade = Trade(symbol: string, date: int, entryPx: real, exitPx: real, ret: Gain, holdDays: int)

  datatype Summary = Summary(
    studyKey: string,
    startDate: int,
    endDate: int,
    totalTrades: int,
    winningTrades: int,
    losingTrades: int,
    winRate: real,
    avgReturn: Gain,
    totalReturn: Gain,
    results: seq<Trade>)

  /** The first snapshot date at or after a date. */
  ghost predicate IsNearest(d: int, t: Table, from: int) {
    d in Dates(t) && d >= from && forall e :: e in Dates(t) && e >= from ==> d <= e
  }

  ghost function Nearest(t: Table, from: int): (r: Option<int>)
    ensures r.Some? ==> IsNearest(r.value, t, from)
  {
    if exists d :: IsNearest(d, t, from) then
      var d :| IsNearest(d, t, from);
      Some(d)
    else None
  }

  /** The trade of one match: out at the close of the first snapshot at or after the holding period,
      when both closes exist. */
  ghost function TradeFor(t: Table, symbol: string, date: int, holdDays: int): Option<Trade>
  {
    var entry, out := CloseOn(t, symbol, date), Nearest(t, date + holdDays * DAY);
    if entry.None? || out.None? || CloseOn(t, symbol, out.value).None? then None
    else
      var exit := CloseOn(t, symbol, out.value).value;
      Some(Trade(symbol, date, entry.value, exit, Divide(exit - entry.value, entry.value), TruncDiv(out.value - date, DAY)))
  }

  /** The trades of one date, in the order the study listed the matches. */
  ghost function TradesOf(t: Table, date: int, ks: Keys, holdDays: int): seq<Trade>
  {
    if ks == [] then []
    else
      var k := |ks| - 1;
      var r := TradeFor(t, ks[k].1, date, holdDays);
      TradesOf(t, date, ks[..k], holdDays) + (if r.Some? then [r.value] else [])
  }

  /** The trades of several dates, each with its own answer to the study. */
  ghost function AllTrades(t: Table, dates: seq<int>, runs: seq<Keys>, holdDays: int): seq<Trade>
    requires |dates| == |runs|
  {
    if dates == [] then []
    else
      var k := |dates| - 1;
      AllTrades(t, dates[..k], runs[..k], holdDays) + TradesOf(t, dates[k], runs[k], holdDays)
  }

  function InRange(dates: seq<int>, startDate: int, endDate: int): seq<int> {
    if dates == [] then []
    else
      var k := |dates| - 1;
      InRange(dates[..k], startDate, endDate) + (if startDate <= dates[k] <= endDate then [dates[k]] else [])
  }

  lemma OneMoreInRange(dates: seq<int>, i: nat, startDate: int, endDate: int)
    requires i < |dates|
    ensures startDate <= dates[i] <= endDate ==>
      InRange(dates[..i + 1], startDate, endDate) == InRange(dates[..i], startDate, endDate) + [dates[i]]
    ensures !(startDate <= dates[i] <= endDate) ==>
      InRange(dates[..i + 1], startDate, endDate) == InRange(dates[..i], startDate, endDate)
  {
    assert dates[..i + 1][..i] == dates[..i];
  }

  ghost predicate AnswersEach(runs: seq<Keys>, s: Study, t: Table, dates: seq<int>) {
    |runs| == |dates| && forall i :: 0 <= i < |dates| ==> AnswersOn(runs[i], s, t, dates[i])
  }

  lemma OneMoreDate(s: Study, t: Table, dates: seq<int>, runs: seq<Keys>, date: int, ks: Keys, holdDays: int)
    requires AnswersEach(runs, s, t, dates)
    requires AnswersOn(ks, s, t, date)
    ensures AnswersEach(runs + [ks], s, t, dates + [date])
    ensures AllTrades(t, dates + [date], runs + [ks], holdDays)
         == AllTrades(t, dates, runs, holdDays) + TradesOf(t, date, ks, holdDays)
  {}

  lemma NoDates(s: Study, t: Table, holdDays: int)
    ensures Prepare(s).Some? ==> AnswersEach([], s, t, [])
    ensures AllTrades(t, [], [], holdDays) == []
  {}

  // ----- aggregates -----

  ghost function SumReturns(ts: seq<Trade>): Gain {
    if ts == [] then Finite(0.0) else Plus(SumReturns(ts[..|ts| - 1]), ts[|ts| - 1].ret)
  }

  ghost function Winners(ts: seq<Trade>): nat {
    if ts == [] then 0 else Winners(ts[..|ts| - 1]) + (if IsWin(ts[|ts| - 1].ret) then 1 else 0)
  }

  /** The totals a summary reports about its trades. */
  ghost predicate Totals(m: Summary) {
    && m.totalTrades == |m.results|
    && m.winningTrades == Winners(m.results)
    && m.winningTrades + m.losingTrades == m.totalTrades
    && m.totalReturn == SumReturns(m.results)
    && (m.totalTrades > 0 && m.totalReturn.Finite? ==>
          m.avgReturn.Finite? && m.avgReturn.v * m.totalTrades as real == m.totalReturn.v)
    && (m.totalTrades > 0 && !m.totalReturn.Finite? ==> m.avgReturn == m.totalReturn)
    && (m.totalTrades > 0 ==> m.winRate * m.totalTrades as real == m.winningTrades as real)
    && (m.totalTrades == 0 ==> m.avgReturn == Finite(0.0) && m.winRate == 0.0)
  }

  lemma TimesOver(x: real, n: real)
    requires n > 0.0
    ensures x / n * n == x
  {}

  lemma TotalsOf(key: string, startDate: int, endDate: int, results: seq<Trade>, wins: int, losses: int, total: Gain)
    requires results != [] && total == SumReturns(results) && wins == Winners(results) && wins + losses == |results|
    ensures var n := |results|;
      Totals(Summary(key, startDate, endDate, n, wins, losses, wins as real / n as real, Mean(total, n), total, results))
  {
    hide SumReturns, Winners;
    var n := |results| as real;
    if total.Finite? {
      TimesOver(total.v, n);
    }
    TimesOver(wins as real, n);
  }

  /** One return that is not a number makes the total and the mean none, and nothing else does. */
  lemma TotalIsNumber(m: Summary)
    requires Totals(m)
    ensures m.totalReturn.Finite? <==> forall r :: r in m.results ==> r.ret.Finite?
    ensures m.avgReturn.Finite? <==> m.totalReturn.Finite?
  {
    SumIsNumber(m.results);
  }

  lemma {:induction false} SumIsNumber(ts: seq<Trade>)
    ensures SumReturns(ts).Finite? <==> forall r :: r in ts ==> r.ret.Finite?
  {
    if ts != [] {
      var k := |ts| - 1;
      SumIsNumber(ts[..k]);
      assert ts == ts[..k] + [ts[k]];
    }
  }

  method CalculateSummary(key: string, startDate: int, endDate: int, results: seq<Trade>) returns (m: Summary)
    ensures Totals(m) && m.results == results
    ensures m.studyKey == key && m.startDate == startDate && m.endDate == endDate
  {
    var total, wins, losses := Finite(0.0), 0, 0;
    var n := |results|;
    if n == 0 {
      return Summary(key, startDate, endDate, 0, 0, 0, 0.0, Finite(0.0), Finite(0.0), results);
    }
    for i := 0 to n
      invariant total == SumReturns(results[..i]) && wins == Winners(results[..i]) && wins + losses == i
    {
      assert results[..i + 1][..i] == results[..i];
      total := Plus(total, results[i].ret);
      if IsWin(results[i].ret) { wins := wins + 1; } else { losses := losses + 1; }
    }
    assert results[..n] == results;
    TotalsOf(key, startDate, endDate, results, wins, losses, total);
    return Summary(key, startDate, endDate, n, wins, losses, wins as real / n as real, Mean(total, n), total, results);
  }

  class Engine {
    const snap: DB

    constructor (snap: DB)
      ensures this.snap == snap
    {
      this.snap := snap;
    }

    method CalculateReturn(symbol: string, entryDate: int, holdDays: int) returns (r: Option<Trade>)
      ensures r == TradeFor(snap.table, symbol, entryDate, holdDays)
    {
      var entry := snap.SymbolClose(symbol, entryDate);
      if entry.None? { return None; }
      var exitDate := entryDate + holdDays * DAY;
      var actual := snap.NearestDate(exitDate);
      if actual.None? { return None; }
      assert IsNearest(actual.value, snap.table, exitDate);
      var exit := snap.SymbolClose(symbol, actual.value);
      if exit.None? { return None; }
      r := Some(Trade(symbol, entryDate, entry.value, exit.value,
                      Divide(exit.value - entry.value, entry.value), TruncDiv(actual.value - entryDate, DAY)));
    }

    /** The trades of one date's matches. */
    method TradeMatches(ms: seq<Match>, date: int, holdDays: int, ghost ks: Keys) returns (ts: seq<Trade>)
      requires forall i :: 0 <= i < |ks| ==> ks[i] in snap.table
      requires ms == MatchesOf(snap.table, ks)
      ensures ts == TradesOf(snap.table, date, ks, holdDays)
    {
      ts := [];
      for i := 0 to |ms|
        invariant ts == TradesOf(snap.table, date, ks[..i], holdDays)
      {
        assert ks[..i + 1][..i] == ks[..i];
        var r := CalculateReturn(ms[i].symbol, date, holdDays);
        if r.Some? { ts := ts + [r.value]; }
      }
      assert ks[..|ks|] == ks;
    }

    /** Runs the study on every snapshot date of the range, newest first. A study that does not run
        is skipped silently and yields an empty backtest. */
    method RunBacktest(s: Study, startDate: int, endDate: int, holdDays: int)
        returns (m: Summary, ghost dates: seq<int>, ghost runs: seq<Keys>)
      modifies snap`activeDate
      ensures m.studyKey == s.key && m.startDate == startDate && m.endDate == endDate && Totals(m)
      ensures Descending(dates) && ListsExactly(dates, Dates(snap.table))
      ensures Prepare(s).None? ==> m.results == []
      ensures Prepare(s).Some? ==>
        AnswersEach(runs, s, snap.table, InRange(dates, startDate, endDate))
        && m.results == AllTrades(snap.table, InRange(dates, startDate, endDate), runs, holdDays)
    {
      hide Prepare, AnswersEach, AllTrades;
      NoDates(s, snap.table, holdDays);
      var listed := snap.ListSnapshots();
      dates, runs := listed, [];
      var results: seq<Trade> := [];
      for i := 0 to |listed|
        invariant Prepare(s).None? ==> results == []
        invariant Prepare(s).Some? ==> |runs| == |InRange(dates[..i], startDate, endDate)|
        invariant Prepare(s).Some? ==>
          AnswersEach(runs, s, snap.table, InRange(dates[..i], startDate, endDate))
          && results == AllTrades(snap.table, InRange(dates[..i], startDate, endDate), runs, holdDays)
      {
        var date := listed[i];
        OneMoreInRange(dates, i, startDate, endDate);
        if date < startDate || date > endDate { continue; }
        var ok := snap.SetActive(date);
        assert ok;
        var matches, ks := snap.Run(s);
        if matches.None? { continue; }
        var trades := TradeMatches(matches.value, date, holdDays, ks);
        OneMoreDate(s, snap.table, InRange(dates[..i], startDate, endDate), runs, date, ks, holdDays);
        results := results + trades;
        runs := runs + [ks];
      }
      assert dates[..|dates|] == dates;
      m := CalculateSummary(s.key, startDate, endDate, results);
    }
  }

  // ----- exactly which trades -----

  lemma {:induction false} InRangeMembers(dates: seq<int>, startDate: int, endDate: int)
    ensures forall d :: d in InRange(dates, startDate, endDate) <==> d in dates && startDate <= d <= endDate
  {
    if dates != [] {
      var k := |dates| - 1;
      InRangeMembers(dates[..k], startDate, endDate);
      assert dates == dates[..k] + [dates[k]];
    }
  }

  lemma {:induction false} TradesOfMembers(t: Table, date: int, ks: Keys, holdDays: int, r: Trade)
    ensures r in TradesOf(t, date, ks, holdDays)
      <==> r.symbol in SymbolSet(ks) && TradeFor(t, r.symbol, date, holdDays) == Some(r)
  {
    if ks != [] {
      var k := |ks| - 1;
      TradesOfMembers(t, date, ks[..k], holdDays, r);
      assert SymbolSet(ks) == SymbolSet(ks[..k]) + {ks[k].1};
    }
  }

  lemma {:induction false} AllTradesMembers(t: Table, dates: seq<int>, runs: seq<Keys>, holdDays: int, r: Trade)
    requires |dates| == |runs|
    ensures r in AllTrades(t, dates, runs, holdDays)
      <==> exists j :: 0 <= j < |dates| && r in TradesOf(t, dates[j], runs[j], holdDays)
  {
    if dates != [] {
      var k := |dates| - 1;
      AllTradesMembers(t, dates[..k], runs[..k], holdDays, r);
      hide TradesOf;
      assert forall j :: 0 <= j < k ==> dates[..k][j] == dates[j] && runs[..k][j] == runs[j];
    }
  }

  /** Date j of the range lists the symbol. */
  ghost predicate Listed(dates: seq<int>, runs: seq<Keys>, j: nat, date: int, symbol: string)
    requires |dates| == |runs|
  {
    j < |dates| && dates[j] == date && symbol in SymbolSet(runs[j])
  }

  /** A backtest holds exactly the trades of the symbols the study listed on the dates in range, whatever its limit
      cut. */
  lemma BacktestTrades(s: Study, t: Table, dates: seq<int>, runs: seq<Keys>, holdDays: int, r: Trade)
    requires AnswersEach(runs, s, t, dates)
    ensures r in AllTrades(t, dates, runs, holdDays) <==>
      ((exists j :: Listed(dates, runs, j, r.date, r.symbol)) && TradeFor(t, r.symbol, r.date, holdDays) == Some(r))
  {
    hide AnswersOn, SymbolSet;
    AllTradesMembers(t, dates, runs, holdDays, r);
    forall j | 0 <= j < |dates|
      ensures r in TradesOf(t, dates[j], runs[j], holdDays)
        <==> r.symbol in SymbolSet(runs[j]) && TradeFor(t, r.symbol, dates[j], holdDays) == Some(r)
    {
      TradesOfMembers(t, dates[j], runs[j], holdDays, r);
    }
    assert forall j :: 0 <= j < |dates| && TradeFor(t, r.symbol, dates[j], holdDays) == Some(r) ==> dates[j] == r.date;
    hide TradeFor, TradesOf;
    if j :| 0 <= j < |dates| && r in TradesOf(t, dates[j], runs[j], holdDays) {
      assert Listed(dates, runs, j, r.date, r.symbol);
    }
  }

  /** Where the limit does not cut, those are the symbols that match. */
  lemma UncutBacktestTrades(s: Study, t: Table, dates: seq<int>, runs: seq<Keys>, holdDays: int, r: Trade)
    requires AnswersEach(runs, s, t, dates) && Prepare(s).Some?
    requires forall i :: 0 <= i < |dates| ==> Uncut(s, t, dates[i])
    ensures r in AllTrades(t, dates, runs, holdDays) <==>
      (r.date in dates && r.symbol in MatchSet(s, t, r.date) && TradeFor(t, r.symbol, r.date, holdDays) == Some(r))
  {
    hide Prepare, TradeFor, MatchSet, SymbolSet, Answers;
    BacktestTrades(s, t, dates, runs, holdDays, r);
    forall j | 0 <= j < |dates| ensures SymbolSet(runs[j]) == MatchSet(s, t, dates[j]) {
      AnswerSymbols(runs[j], s, t, dates[j]);
    }
    if j :| 0 <= j < |dates| && dates[j] == r.date && r.symbol in MatchSet(s, t, r.date) {
      assert Listed(dates, runs, j, r.date, r.symbol);
    }
  }

  /** A position is held at least as long as asked. */
  lemma HeldLongEnough(t: Table, symbol: string, date: int, holdDays: int)
    requires holdDays >= 0 && TradeFor(t, symbol, date, holdDays).Some?
    ensures TradeFor(t, symbol, date, holdDays).value.holdDays >= holdDays
  {}

  /** Only a zero close at entry makes a return something else than a number. */
  lemma GainFinite(t: Table, symbol: string, date: int, holdDays: int)
    requires TradeFor(t, symbol, date, holdDays).Some?
    ensures var r := TradeFor(t, symbol, date, holdDays).value; r.ret.Finite? <==> r.entryPx != 0.0
  {}

  // ----- no trade twice -----

  ghost predicate OneEach(ts: seq<Trade>) {
    forall i, j :: 0 <= i < j < |ts| ==> (ts[i].date, ts[i].symbol) != (ts[j].date, ts[j].symbol)
  }

  /** A symbol that a listing names twice has no trade. */
  ghost predicate NamedOnce(t: Table, date: int, ks: Keys, holdDays: int) {
    forall i, j :: 0 <= i < j < |ks| && ks[i].1 == ks[j].1 ==> TradeFor(t, ks[i].1, date, holdDays).None?
  }

  ghost predicate Trades(ts: seq<Trade>, symbol: string) { exists r :: r in ts && r.symbol == symbol }

  lemma TradesOfDate(t: Table, date: int, ks: Keys, holdDays: int)
    ensures forall r :: r in TradesOf(t, date, ks, holdDays) ==> r.date == date
    ensures forall x :: Trades(TradesOf(t, date, ks, holdDays), x) <==>
      (x in SymbolSet(ks) && TradeFor(t, x, date, holdDays).Some?)
  {
    forall r ensures r in TradesOf(t, date, ks, holdDays)
      <==> r.symbol in SymbolSet(ks) && TradeFor(t, r.symbol, date, holdDays) == Some(r)
    {
      TradesOfMembers(t, date, ks, holdDays, r);
    }
    hide TradesOf, SymbolSet;
    forall x | x in SymbolSet(ks) && TradeFor(t, x, date, holdDays).Some?
      ensures Trades(TradesOf(t, date, ks, holdDays), x)
    {
      assert TradeFor(t, x, date, holdDays).value in TradesOf(t, date, ks, holdDays);
    }
  }

  lemma OneMoreEach(ts: seq<Trade>, r: Trade)
    ensures OneEach(ts + [r]) <==> OneEach(ts) && forall x :: x in ts ==> (x.date, x.symbol) != (r.date, r.symbol)
  {
    var all := ts + [r];
    if OneEach(all) {
      forall i, j | 0 <= i < j < |ts| ensures (ts[i].date, ts[i].symbol) != (ts[j].date, ts[j].symbol) {
        assert all[i] == ts[i] && all[j] == ts[j];
      }
      forall x | x in ts ensures (x.date, x.symbol) != (r.date, r.symbol) {
        var i :| 0 <= i < |ts| && ts[i] == x;
        assert all[i] == x && all[|ts|] == r;
      }
    }
  }

  lemma {:induction false} TradesOfOneEach(t: Table, date: int, ks: Keys, holdDays: int)
    ensures OneEach(TradesOf(t, date, ks, holdDays)) <==> NamedOnce(t, date, ks, holdDays)
  {
    if ks != [] {
      var k := |ks| - 1;
      var before, r := TradesOf(t, date, ks[..k], holdDays), TradeFor(t, ks[k].1, date, holdDays);
      TradesOfOneEach(t, date, ks[..k], holdDays);
      TradesOfDate(t, date, ks[..k], holdDays);
      NamedOnceMore(t, date, ks, holdDays);
      if r.Some? {
        OneMoreEach(before, r.value);
        assert r.value.date == date && r.value.symbol == ks[k].1;
        assert Trades(before, ks[k].1) <==> !forall x :: x in before ==> (x.date, x.symbol) != (date, ks[k].1);
      }
      assert TradesOf(t, date, ks, holdDays) == if r.Some? then before + [r.value] else before;
      hide TradesOf, TradeFor, NamedOnce, OneEach, SymbolSet;
    }
  }

  lemma NamedOnceMore(t: Table, date: int, ks: Keys, holdDays: int)
    requires ks != []
    ensures var k := |ks| - 1; NamedOnce(t, date, ks, holdDays) <==>
      (NamedOnce(t, date, ks[..k], holdDays)
       && (ks[k].1 in SymbolSet(ks[..k]) ==> TradeFor(t, ks[k].1, date, holdDays).None?))
  {
    hide TradeFor;
    var k := |ks| - 1;
    assert forall i :: 0 <= i < k ==> ks[..k][i] == ks[i];
  }

  /** Over distinct dates no symbol is traded twice on a date, if and only if no date's listing names a traded
      symbol twice. */
  lemma {:induction false} BacktestOneEach(t: Table, dates: seq<int>, runs: seq<Keys>, holdDays: int)
    requires |dates| == |runs| && forall i, j :: 0 <= i < j < |dates| ==> dates[i] != dates[j]
    ensures OneEach(AllTrades(t, dates, runs, holdDays))
      <==> forall j :: 0 <= j < |dates| ==> NamedOnce(t, dates[j], runs[j], holdDays)
    ensures forall r :: r in AllTrades(t, dates, runs, holdDays) ==> r.date in dates
  {
    if dates != [] {
      var k := |dates| - 1;
      BacktestOneEach(t, dates[..k], runs[..k], holdDays);
      TradesOfOneEach(t, dates[k], runs[k], holdDays);
      TradesOfDate(t, dates[k], runs[k], holdDays);
      var before, more := AllTrades(t, dates[..k], runs[..k], holdDays), TradesOf(t, dates[k], runs[k], holdDays);
      assert forall r :: r in before ==> r.date != dates[k];
      hide TradesOf, NamedOnce, SymbolSet;
      OneEachConcat(before, more);
      assert forall j :: 0 <= j < |dates| ==> j == k || (dates[..k][j] == dates[j] && runs[..k][j] == runs[j]);
    }
  }

  lemma OneEachConcat(a: seq<Trade>, b: seq<Trade>)
    requires forall x, y :: x in a && y in b ==> x.date != y.date
    ensures OneEach(a + b) <==> OneEach(a) && OneEach(b)
  {
    var all := a + b;
    assert forall i :: 0 <= i < |a| ==> all[i] == a[i];
    assert forall i :: 0 <= i < |b| ==> all[|a| + i] == b[i];
    if OneEach(all) {
      forall i, j | 0 <= i < j < |b| ensures (b[i].date, b[i].symbol) != (b[j].date, b[j].symbol) {
        assert all[|a| + i] == b[i] && all[|a| + j] == b[j];
      }
    }
    if OneEach(a) && OneEach(b) {
      forall i, j | 0 <= i < j < |all| ensures (all[i].date, all[i].symbol) != (all[j].date, all[j].symbol) {
        assert all[i] == if i < |a| then a[i] else b[i - |a|];
        assert all[j] == if j < |a| then a[j] else b[j - |a|];
      }
    }
  }

  /** Runs whose rows all are of the date name no symbol twice: so it is for every condition that is whole by
      itself, and in particular for compiled studies. */
  lemma PinnedNamesOnce(s: Study, t: Table, date: int, ks: Keys, holdDays: int)
    requires AnswersOn(ks, s, t, date) && Pinned(s, t, date)
    ensures NamedOnce(t, date, ks, holdDays)
  {
    hide Prepare, TradeFor;
    forall i, j | 0 <= i < j < |ks| ensures ks[i].1 != ks[j].1 {
      assert ks[i].0 == date && ks[j].0 == date && ks[i] != ks[j];
    }
  }

  lemma CompiledPinned(s: Study, tables: Registry.Tables, def: Compiler.Definition, t: Table, date: int)
    requires Registry.WellFormed(tables) && StudyQueries.CompiledFrom(s, tables, def)
    ensures Pinned(s, t, date)
  {
    hide Registry.WellFormed, StudyQueries.CompiledFrom, Prepare;
    if Prepare(s).Some? {
      StudyQueries.CompiledRunSelects(s, tables, def, t, date);
    }
  }
}
