/** The dated snapshot table and the queries that studies run over it. */
module Snapshot {
  import opened Core
  import opened Numbers
  import opened Listing
  import opened Sql

  /** One symbol's features on one day, by column name. */
  datatype SnapshotRow = SnapshotRow(symbol: string, features: map<string, Num>)

  datatype Stored = Stored(timestamp: int, columns: Env)

  /** The snapshot table, by its primary key (snapshot_date, symbol). */
  type Table = map<(int, string), Stored>

  type Keys = seq<(int, string)>

  datatype Batch = Batch(rows: seq<SnapshotRow>, barTs: int, date: int)

  datatype Study = Study(key: string, where: string, orderBy: string, limit: int)

  datatype Match = Match(symbol: string, close: real, rsi14: real, ret3m: real, dollarVol: real)

  const PRICE_COLUMNS := ["close", "high", "low", "open"]

  const TREND_COLUMNS := [
    "sma5", "sma10", "sma20", "sma30", "sma50", "sma100", "sma200",
    "ema10", "ema21", "ema50", "ema100", "ema200", "pct_from_sma50", "pct_from_sma200", "ma_stack"]

  const MOMENTUM_COLUMNS := [
    "rsi14", "macd", "macd_signal", "macd_hist", "stoch_k", "stoch_d", "willr14", "cci20",
    "roc10", "roc20", "adx14", "di_plus", "di_minus"]

  const VOLATILITY_COLUMNS := [
    "atr14", "atr_pct", "bb_upper", "bb_mid", "bb_lower", "bb_bandwidth", "bb_pct_b", "hist_vol20"]

  const STRUCTURE_COLUMNS := [
    "high_52w", "low_52w", "is_52w_high", "is_52w_low", "gap_pct", "true_range", "pct_off_52w_high", "pct_above_52w_low"]

  const RETURN_COLUMNS := ["ret_1d", "ret_5d", "ret_1m", "ret_3m", "ret_6m", "ret_1y"]

  const VOLUME_COLUMNS := ["dollar_vol", "avg_dollar_vol20", "rel_volume", "obv", "vwap_dist", "mfi14"]

  const OTHER_COLUMNS := [
    "golden_cross", "oversold_bounce", "psar", "aroon_up", "aroon_down", "aroon_osc",
    "keltner_upper", "keltner_mid", "keltner_lower", "cmf20", "ultimate_osc"]

  /** The numeric columns of the snapshot table. */
  const TABLE_COLUMNS := ["snapshot_date", "timestamp"] + PRICE_COLUMNS + TREND_COLUMNS + MOMENTUM_COLUMNS
    + VOLATILITY_COLUMNS + STRUCTURE_COLUMNS + RETURN_COLUMNS + VOLUME_COLUMNS + OTHER_COLUMNS

  // ----- rows in, rows out -----

  function Cells(r: SnapshotRow): Env { map c | c in r.features :: Nz(r.features[c]) }

  /** INSERT OR IGNORE of one row. */
  function PutNew(t: Table, date: int, ts: int, r: SnapshotRow): Table {
    if (date, r.symbol) in t then t else t[(date, r.symbol) := Stored(ts, Cells(r))]
  }

  function PutAllNew(t: Table, b: Batch, n: nat): Table
    requires n <= |b.rows|
  {
    if n == 0 then t else PutNew(PutAllNew(t, b, n - 1), b.date, b.barTs, b.rows[n - 1])
  }

  function PutBatch(t: Table, b: Batch): Table { PutAllNew(t, b, |b.rows|) }

  function PutBatches(t: Table, bs: seq<Batch>): Table {
    if bs == [] then t else PutBatch(PutBatches(t, bs[..|bs| - 1]), bs[|bs| - 1])
  }

  function Dates(t: Table): set<int> { set k | k in t :: k.0 }

  function WithoutDate(t: Table, date: int): Table { map k | k in t && k.0 != date :: t[k] }

  /** The rows dated at or after a moment. */
  function Recent(t: Table, cutoff: int): Table { map k | k in t && k.0 >= cutoff :: t[k] }

  lemma {:induction false} PutAllNewAdds(t: Table, b: Batch, n: nat, k: (int, string))
    requires n <= |b.rows|
    ensures k in t ==> k in PutAllNew(t, b, n) && PutAllNew(t, b, n)[k] == t[k]
    ensures k in PutAllNew(t, b, n) <==> k in t || (k.0 == b.date && exists j :: 0 <= j < n && b.rows[j].symbol == k.1)
  {
    if n > 0 {
      PutAllNewAdds(t, b, n - 1, k);
    }
  }

  /** Loading history never alters a stored row, and adds exactly the rows of the batches. */
  lemma {:induction false} BatchesOnlyAdd(t: Table, bs: seq<Batch>, k: (int, string))
    ensures k in t ==> k in PutBatches(t, bs) && PutBatches(t, bs)[k] == t[k]
    ensures k in PutBatches(t, bs) <==> (k in t ||
      exists i, j :: 0 <= i < |bs| && 0 <= j < |bs[i].rows| && bs[i].date == k.0 && bs[i].rows[j].symbol == k.1)
  {
    if bs != [] {
      var n := |bs| - 1;
      BatchesOnlyAdd(t, bs[..n], k);
      PutAllNewAdds(PutBatches(t, bs[..n]), bs[n], |bs[n].rows|, k);
      assert forall i :: 0 <= i < n ==> bs[..n][i] == bs[i];
    }
  }

  predicate DistinctSymbols(rows: seq<SnapshotRow>) {
    forall i, j :: 0 <= i < j < |rows| ==> rows[i].symbol != rows[j].symbol
  }

  // ----- what a query means -----

  function TrimLeft(s: string): string {
    if s != "" && IsTrimmed(s[0]) then TrimLeft(s[1..]) else s
  }

  function TrimRight(s: string): string {
    if s != "" && IsTrimmed(s[|s| - 1]) then TrimRight(s[..|s| - 1]) else s
  }

  function TrimSpace(s: string): string { TrimRight(TrimLeft(s)) }

  /** What Run puts after its fixed SELECT ... WHERE, with or without a LIMIT. */
  function StatementWith(s: Study, cut: Option<int>): string {
    var w := TrimSpace(s.where);
    "snapshot_date = ? AND (" + (if w == "" then "1=1" else w) + ")"
    + (if s.orderBy != "" then " ORDER BY " + s.orderBy else "")
    + (if cut.Some? then " LIMIT " + IntText(cut.value) else "")
  }

  /** The query itself: a limit that is not positive is left out. */
  function QueryTail(s: Study): string { StatementWith(s, if s.limit > 0 then Some(s.limit) else None) }

  /** The EXPLAIN that runs before it: there the limit is always written. */
  function ExplainTail(s: Study): string { StatementWith(s, Some(if s.limit > 0 then s.limit else 0)) }

  /** The columns of one row as the condition sees them. */
  function RowEnv(t: Table, key: (int, string)): Env
    requires key in t
  {
    t[key].columns["snapshot_date" := Some(key.0 as real)]["timestamp" := Some(t[key].timestamp as real)]
  }

  predicate IsTableColumn(c: string) { c in TABLE_COLUMNS }

  predicate ColumnsExist(e: Expr) { forall c :: c in Columns(e) ==> IsTableColumn(c) }

  /** Columns of the table only, and the one parameter that Run binds, the active date. */
  predicate Known(q: Query) {
    Params(q.where) == 1 && ColumnsExist(q.where) && (q.order.Some? ==> IsTableColumn(q.order.value.column))
  }

  function ParseKnown(text: string): Option<Query> {
    var q := Parse(text);
    if q.Some? && Known(q.value) then q else None
  }

  /** The statement a study stands for, if it and its EXPLAIN parse, name only existing columns and take
      no parameter of their own. */
  function Prepare(s: Study): Option<Query> {
    if ParseKnown(ExplainTail(s)).None? then None else ParseKnown(QueryTail(s))
  }

  predicate Selects(q: Query, t: Table, key: (int, string), active: int)
    requires key in t
  {
    Eval(q.where, RowEnv(t, key), active as real).True?
  }

  /** The rows that satisfy a condition. */
  function Hits(q: Query, t: Table, active: int): set<(int, string)> {
    set k | k in t && Selects(q, t, k, active)
  }

  function Cell(t: Table, key: (int, string), column: string): Option<real>
    requires key in t
  {
    if column in RowEnv(t, key) then RowEnv(t, key)[column] else None
  }

  /** NULL sorts before every number. */
  predicate Below(a: Option<real>, b: Option<real>) {
    b.Some? && (a.None? || a.value < b.value)
  }

  /** ORDER BY asks for one row strictly before another; ties are left open. */
  predicate Before(order: Option<Order>, t: Table, a: (int, string), b: (int, string))
    requires a in t && b in t
  {
    order.Some? &&
    var ca, cb := Cell(t, a, order.value.column), Cell(t, b, order.value.column);
    if order.value.descending then Below(cb, ca) else Below(ca, cb)
  }

  /** What SQL allows as an ordered, limited listing of some rows: no repetition, as many as the
      limit lets through, in the requested order, and nothing left out that had to come earlier. */
  ghost predicate IsListing(ks: seq<(int, string)>, hits: set<(int, string)>, order: Option<Order>, limit: int, t: Table)
    requires hits <= t.Keys
  {
    && (forall i :: 0 <= i < |ks| ==> ks[i] in hits)
    && (forall i, j :: 0 <= i < j < |ks| ==> ks[i] != ks[j] && !Before(order, t, ks[j], ks[i]))
    && |ks| == (if 0 < limit < |hits| then limit else |hits|)
    && (forall k, i :: k in hits && k !in ks && 0 <= i < |ks| ==> !Before(order, t, k, ks[i]))
  }

  ghost predicate Answers(ks: seq<(int, string)>, q: Query, limit: int, t: Table, active: int) {
    IsListing(ks, Hits(q, t, active), q.order, limit, t)
  }

  function NumberOf(c: Option<real>): real { if c.Some? then c.value else 0.0 }

  function MatchOf(t: Table, key: (int, string)): Match
    requires key in t
  {
    Match(key.1, NumberOf(Cell(t, key, "close")), NumberOf(Cell(t, key, "rsi14")),
          NumberOf(Cell(t, key, "ret_3m")), NumberOf(Cell(t, key, "dollar_vol")))
  }

  function MatchesOf(t: Table, ks: seq<(int, string)>): (ms: seq<Match>)
    requires forall i :: 0 <= i < |ks| ==> ks[i] in t
    ensures |ms| == |ks| && forall i :: 0 <= i < |ks| ==> ms[i] == MatchOf(t, ks[i])
  {
    seq(|ks|, i requires 0 <= i < |ks| => MatchOf(t, ks[i]))
  }

  lemma NotBeforeTransitive(order: Option<Order>, t: Table, a: (int, string), b: (int, string), c: (int, string))
    requires a in t && b in t && c in t && !Before(order, t, b, a) && !Before(order, t, c, b)
    ensures !Before(order, t, c, a)
  {}

  lemma {:induction false} FirstRowExists(order: Option<Order>, t: Table, todo: set<(int, string)>) returns (f: (int, string))
    requires todo != {} && todo <= t.Keys
    ensures f in todo && forall k :: k in todo ==> !Before(order, t, k, f)
  {
    var g := Member(todo);
    var rest := todo - {g};
    f := g;
    if rest != {} {
      var h := FirstRowExists(order, t, rest);
      if Before(order, t, h, g) {
        f := h;
      } else {
        forall k | k in rest ensures !Before(order, t, k, g) { NotBeforeTransitive(order, t, g, h, k); }
      }
    }
    assert forall k :: k in todo ==> k == g || k in rest;
  }

  /** Repeatedly hands out a row that nothing left has to precede. */
  method ListRows(t: Table, hits: set<(int, string)>, order: Option<Order>, limit: int) returns (ks: seq<(int, string)>)
    requires hits <= t.Keys
    ensures IsListing(ks, hits, order, limit, t)
  {
    ks := [];
    var todo := hits;
    while todo != {} && (limit <= 0 || |ks| < limit)
      invariant todo <= hits && |todo| + |ks| == |hits| && (limit > 0 ==> |ks| <= limit)
      invariant forall k :: k in hits ==> (k in todo <==> k !in ks)
      invariant forall i :: 0 <= i < |ks| ==> ks[i] in hits
      invariant forall i, j :: 0 <= i < j < |ks| ==> ks[i] != ks[j] && !Before(order, t, ks[j], ks[i])
      invariant forall k, i :: k in todo && 0 <= i < |ks| ==> !Before(order, t, k, ks[i])
      decreases |todo|
    {
      ghost var f := FirstRowExists(order, t, todo);
      var k :| k in todo && forall x :: x in todo ==> !Before(order, t, x, k);
      todo := todo - {k};
      ks := ks + [k];
    }
  }

  lemma {:induction false} DistinctCount(ks: Keys)
    requires forall i, j :: 0 <= i < j < |ks| ==> ks[i] != ks[j]
    ensures |set i | 0 <= i < |ks| :: ks[i]| == |ks|
  {
    if ks != [] {
      var k := |ks| - 1;
      DistinctCount(ks[..k]);
      assert (set i | 0 <= i < |ks| :: ks[i]) == (set i | 0 <= i < k :: ks[..k][i]) + {ks[k]};
    }
  }

  /** A listing as long as the set it lists leaves nothing out. */
  lemma AllListed(ks: Keys, hits: set<(int, string)>)
    requires forall i :: 0 <= i < |ks| ==> ks[i] in hits
    requires forall i, j :: 0 <= i < j < |ks| ==> ks[i] != ks[j]
    requires |ks| == |hits|
    ensures forall k :: k in hits ==> k in ks
  {
    var listed := set i | 0 <= i < |ks| :: ks[i];
    DistinctCount(ks);
    assert hits == listed + (hits - listed);
    assert |hits - listed| == 0;
  }

  /** Nothing outside a listing ties with anything in it: the row after the cut is strictly later than those
      before it. */
  ghost predicate TidyCut(ks: Keys, hits: set<(int, string)>, order: Option<Order>, t: Table)
    requires hits <= t.Keys && forall i :: 0 <= i < |ks| ==> ks[i] in hits
  {
    forall k, i :: k in hits && k !in ks && 0 <= i < |ks| ==> Before(order, t, ks[i], k)
  }

  ghost function KeySet(ks: Keys): set<(int, string)> { set i | 0 <= i < |ks| :: ks[i] }

  /** Of two listings of equal length, one that has a row the other lacks also lacks one of its rows. */
  lemma OtherRow(ks: Keys, others: Keys, b: (int, string)) returns (a: (int, string))
    requires forall i, j :: 0 <= i < j < |ks| ==> ks[i] != ks[j]
    requires forall i, j :: 0 <= i < j < |others| ==> others[i] != others[j]
    requires |ks| == |others| && b in others && b !in ks
    ensures a in ks && a !in others
  {
    DistinctCount(ks);
    DistinctCount(others);
    var mine, theirs := KeySet(ks), KeySet(others);
    assert forall k :: k in mine <==> k in ks;
    assert forall k :: k in theirs <==> k in others;
    if mine <= theirs {
      SameSizeSubset(mine, theirs);
    }
    a :| a in mine && a !in theirs;
  }

  lemma SameSizeSubset(a: set<(int, string)>, b: set<(int, string)>)
    requires a <= b && |a| == |b|
    ensures a == b
  {
    assert b == a + (b - a);
    assert |b - a| == 0;
  }

  /** With a tidy cut every listing holds the same rows. */
  lemma TidyListing(ks: Keys, others: Keys, hits: set<(int, string)>, order: Option<Order>, limit: int, t: Table)
    requires hits <= t.Keys && IsListing(ks, hits, order, limit, t) && IsListing(others, hits, order, limit, t)
    requires TidyCut(ks, hits, order, t)
    ensures forall k :: k in ks <==> k in others
  {
    hide Before;
    forall b | b in others ensures b in ks {
      if b !in ks {
        var a := OtherRow(ks, others, b);
      }
    }
    forall b | b in ks ensures b in others {
      if b !in others {
        var a := OtherRow(others, ks, b);
      }
    }
  }

  /** A row that ties with a listed one can stand in its place. */
  lemma TieSwaps(ks: Keys, i: nat, b: (int, string), hits: set<(int, string)>, order: Option<Order>, limit: int, t: Table)
    requires hits <= t.Keys && IsListing(ks, hits, order, limit, t) && i < |ks|
    requires b in hits && b !in ks && !Before(order, t, ks[i], b)
    ensures IsListing(ks[i := b], hits, order, limit, t)
  {
    var a, swapped := ks[i], ks[i := b];
    assert !Before(order, t, b, a);
    forall k | k in t
      ensures Before(order, t, k, a) == Before(order, t, k, b) && Before(order, t, a, k) == Before(order, t, b, k)
    {
    }
    hide Before;
    assert forall m :: 0 <= m < |ks| && m != i ==> swapped[m] == ks[m];
    assert forall x :: x in ks ==> x == a || x in swapped;
    forall k, j | k in hits && k !in swapped && 0 <= j < |swapped| ensures !Before(order, t, k, swapped[j]) {
      if k == a {
        assert j != i ==> !Before(order, t, b, ks[j]);
      } else {
        assert k !in ks;
      }
    }
  }

  // ----- what a study lists on a date -----

  function SymbolSet(ks: Keys): set<string> { set i | 0 <= i < |ks| :: ks[i].1 }

  /** One answer to the study on a date. */
  ghost predicate AnswersOn(ks: Keys, s: Study, t: Table, date: int) {
    Prepare(s).Some? && Answers(ks, Prepare(s).value, s.limit, t, date)
  }

  /** The rows of a query are rows of the date it runs on. */
  ghost predicate Pinned(s: Study, t: Table, date: int) {
    Prepare(s).Some? ==> forall k :: k in Hits(Prepare(s).value, t, date) ==> k.0 == date
  }

  /** The study's limit does not cut the matches of a date. */
  ghost predicate Uncut(s: Study, t: Table, date: int)
    requires Prepare(s).Some?
  {
    s.limit <= 0 || |Hits(Prepare(s).value, t, date)| <= s.limit
  }

  /** The symbols that match a study on a date. */
  ghost function MatchSet(s: Study, t: Table, date: int): set<string>
    requires Prepare(s).Some?
  {
    set k | k in Hits(Prepare(s).value, t, date) :: k.1
  }

  /** Where the limit does not cut, the listed symbols are all that match. */
  lemma AnswerSymbols(ks: Keys, s: Study, t: Table, date: int)
    requires AnswersOn(ks, s, t, date) && Uncut(s, t, date)
    ensures SymbolSet(ks) == MatchSet(s, t, date)
  {
    hide Prepare;
    var hits := Hits(Prepare(s).value, t, date);
    AllListed(ks, hits);
    forall x | x in MatchSet(s, t, date) ensures x in SymbolSet(ks) {
      var k :| k in hits && k.1 == x;
      assert k in ks;
    }
  }

  // ----- the store -----

  class DB {
    var table: Table
    var snapshotId: string
    var symbolCount: int
    var snapshotDate: int
    var activeDate: int

    constructor ()
      ensures table == map[] && activeDate == 0 && snapshotDate == 0 && symbolCount == 0 && snapshotId == ""
    {
      table := map[];
      snapshotId, symbolCount, snapshotDate, activeDate := "", 0, 0, 0;
    }

    /** The metadata names a batch as the latest one, and queries run on its date. */
    predicate Latest(date: int, count: int)
      reads this
    {
      snapshotDate == date && activeDate == date && symbolCount == count && snapshotId == IntText(date)
    }

    /** Replaces a date: the DELETE runs on its own before the insert transaction, so a duplicate
        symbol loses the old rows of the date and stores nothing. */
    method LoadHistory(rows: seq<SnapshotRow>, barTs: int, date: int) returns (ok: bool)
      modifies this
      ensures ok <==> DistinctSymbols(rows)
      ensures ok ==> table == PutBatch(WithoutDate(old(table), date), Batch(rows, barTs, date)) && Latest(date, |rows|)
      ensures !ok ==> table == WithoutDate(old(table), date)
      ensures !ok ==> snapshotId == old(snapshotId) && symbolCount == old(symbolCount)
      ensures !ok ==> snapshotDate == old(snapshotDate) && activeDate == old(activeDate)
    {
      table := WithoutDate(table, date);
      var b := Batch(rows, barTs, date);
      var tx := table;
      for i := 0 to |rows|
        invariant tx == PutAllNew(table, b, i)
        invariant forall s :: (date, s) in tx <==> exists j :: 0 <= j < i && rows[j].symbol == s
        invariant forall j, k :: 0 <= j < k < i ==> rows[j].symbol != rows[k].symbol
      {
        if (date, rows[i].symbol) in tx {
          return false;
        }
        tx := tx[(date, rows[i].symbol) := Stored(barTs, Cells(rows[i]))];
      }
      table := tx;
      snapshotDate, activeDate, symbolCount, snapshotId := date, date, |rows|, IntText(date);
      return true;
    }

    /** The daily scan's load: the same replacement, stamped with its own date. */
    method Load(rows: seq<SnapshotRow>, ts: int) returns (ok: bool)
      modifies this
      ensures ok <==> DistinctSymbols(rows)
      ensures ok ==> table == PutBatch(WithoutDate(old(table), ts), Batch(rows, ts, ts)) && Latest(ts, |rows|)
      ensures !ok ==> table == WithoutDate(old(table), ts)
      ensures !ok ==> snapshotId == old(snapshotId) && symbolCount == old(symbolCount)
      ensures !ok ==> snapshotDate == old(snapshotDate) && activeDate == old(activeDate)
    {
      ok := LoadHistory(rows, ts, ts);
    }

    /** Adds a date without touching rows that are there. */
    method LoadHistoryInsert(rows: seq<SnapshotRow>, barTs: int, date: int)
      modifies this
      ensures table == PutBatch(old(table), Batch(rows, barTs, date)) && Latest(date, |rows|)
    {
      var b := Batch(rows, barTs, date);
      var tx := table;
      for i := 0 to |rows|
        invariant tx == PutAllNew(old(table), b, i)
      {
        tx := PutNew(tx, date, barTs, rows[i]);
      }
      table := tx;
      snapshotDate, activeDate, symbolCount, snapshotId := date, date, |rows|, IntText(date);
    }

    /** Many dates in one transaction. */
    method LoadHistoryBatch(bs: seq<Batch>)
      modifies this
      ensures table == PutBatches(old(table), bs)
      ensures bs != [] ==> Latest(bs[|bs| - 1].date, |bs[|bs| - 1].rows|)
      ensures bs == [] ==> unchanged(this)
    {
      if bs == [] { return; }
      var tx := table;
      for i := 0 to |bs|
        invariant tx == PutBatches(old(table), bs[..i])
      {
        assert bs[..i + 1][..i] == bs[..i];
        for j := 0 to |bs[i].rows|
          invariant tx == PutAllNew(PutBatches(old(table), bs[..i]), bs[i], j)
        {
          tx := PutNew(tx, bs[i].date, bs[i].barTs, bs[i].rows[j]);
        }
      }
      assert bs[..|bs|] == bs;
      table := tx;
      var last := bs[|bs| - 1];
      snapshotDate, activeDate, symbolCount, snapshotId := last.date, last.date, |last.rows|, IntText(last.date);
    }

    /** The same snapshots put in one by one. */
    method InsertOneByOne(bs: seq<Batch>)
      modifies this
      ensures table == PutBatches(old(table), bs)
      ensures bs != [] ==> Latest(bs[|bs| - 1].date, |bs[|bs| - 1].rows|)
      ensures bs == [] ==> unchanged(this)
    {
      for i := 0 to |bs|
        invariant table == PutBatches(old(table), bs[..i])
        invariant i > 0 ==> Latest(bs[i - 1].date, |bs[i - 1].rows|)
        invariant i == 0 ==> unchanged(this)
      {
        assert bs[..i + 1][..i] == bs[..i];
        LoadHistoryInsert(bs[i].rows, bs[i].barTs, bs[i].date);
      }
      assert bs[..|bs|] == bs;
    }

    method HasSnapshot(date: int) returns (has: bool)
      ensures has <==> date in Dates(table)
    {
      has := exists k :: k in table && k.0 == date;
    }

    method ListSnapshots() returns (dates: seq<int>)
      ensures Descending(dates) && ListsExactly(dates, Dates(table))
    {
      dates := NewestFirst(Dates(table));
    }

    /** Drops the dates that are older than keepDays and returns their number; the metadata is not looked at, so the
        active date may be among them. */
    method Cleanup(keepDays: int, now: int) returns (deleted: nat)
      modifies this`table
      ensures table == if keepDays <= 0 then old(table) else Recent(old(table), now - keepDays * DAY)
      ensures deleted == |Dates(old(table)) - Dates(table)|
    {
      if keepDays <= 0 {
        return 0;
      }
      ghost var was := Dates(table);
      var before := |Dates(table)|;
      table := Recent(table, now - keepDays * DAY);
      assert Dates(table) <= was;
      assert was == (was - Dates(table)) + Dates(table);
      deleted := before - |Dates(table)|;
    }

    method SetActive(date: int) returns (ok: bool)
      modifies this`activeDate
      ensures ok <==> date in Dates(table)
      ensures activeDate == if ok then date else old(activeDate)
    {
      ok := HasSnapshot(date);
      if ok { activeDate := date; }
    }

    /** The stored close of a symbol on a date; a missing row and a NULL close are both errors. */
    method SymbolClose(symbol: string, date: int) returns (c: Option<real>)
      ensures c == CloseOn(table, symbol, date)
    {
      if (date, symbol) !in table { return None; }
      var row := table[(date, symbol)].columns;
      c := if "close" in row then row["close"] else None;
    }

    /** The first snapshot date at or after a given one. */
    method NearestDate(from: int) returns (d: Option<int>)
      ensures d.Some? ==> d.value in Dates(table) && d.value >= from
      ensures d.Some? ==> forall e :: e in Dates(table) && e >= from ==> d.value <= e
      ensures d.None? ==> forall e :: e in Dates(table) ==> e < from
    {
      var dates := NewestFirst(Dates(table));
      d := None;
      for i := 0 to |dates|
        invariant d.Some? ==> i > 0 && d.value in Dates(table) && d.value >= from
        invariant forall j :: 0 <= j < i && dates[j] >= from ==> d.Some? && d.value <= dates[j]
      {
        if dates[i] >= from { d := Some(dates[i]); }
      }
      forall e | e in Dates(table) && e >= from ensures d.Some? && d.value <= e {
        var j :| 0 <= j < |dates| && dates[j] == e;
      }
    }

    /** Runs a study on the active date. */
    method Run(s: Study) returns (r: Option<seq<Match>>, ghost ks: seq<(int, string)>)
      ensures r.Some? <==> Prepare(s).Some?
      ensures r.Some? ==> Answers(ks, Prepare(s).value, s.limit, table, activeDate) && r.value == MatchesOf(table, ks)
    {
      ks := [];
      var q := Prepare(s);
      if q.None? { return None, ks; }
      var out, rows := RunQuery(q.value, s.limit);
      return Some(out), rows;
    }

    method RunQuery(q: Query, limit: int) returns (out: seq<Match>, ghost ks: seq<(int, string)>)
      ensures Answers(ks, q, limit, table, activeDate) && out == MatchesOf(table, ks)
    {
      var rows := ListRows(table, Hits(q, table, activeDate), q.order, limit);
      out := [];
      for i := 0 to |rows|
        invariant out == MatchesOf(table, rows[..i])
      {
        out := out + [MatchOf(table, rows[i])];
      }
      assert rows[..|rows|] == rows;
      ks := rows;
    }
  }

  function CloseOn(t: Table, symbol: string, date: int): Option<real> {
    if (date, symbol) in t && "close" in t[(date, symbol)].columns then t[(date, symbol)].columns["close"] else None
  }
}
