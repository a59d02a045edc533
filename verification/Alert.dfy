/** Symbols entering and leaving a study between two snapshot dates. */
module Alert {
  import opened Core
  import opened Snapshot
  import opened Splice

  datatype Entry = Entry(symbol: string, studyKey: string, date: int, prevDate: int)

  datatype Exit = Exit(symbol: string, studyKey: string, date: int, prevDate: int)

  /** The listed symbols that are not among some others, in order. */
  function NotAmong(ks: Keys, others: set<string>): seq<string> {
    if ks == [] then []
    else
      var k := |ks| - 1;
      NotAmong(ks[..k], others) + (if ks[k].1 in others then [] else [ks[k].1])
  }

  function Entries(s: Study, date: int, prevDate: int, symbols: seq<string>): (es: seq<Entry>)
    ensures |es| == |symbols| && forall i :: 0 <= i < |es| ==> es[i] == Entry(symbols[i], s.key, date, prevDate)
  {
    seq(|symbols|, i requires 0 <= i < |symbols| => Entry(symbols[i], s.key, date, prevDate))
  }

  function Exits(s: Study, date: int, prevDate: int, symbols: seq<string>): (xs: seq<Exit>)
    ensures |xs| == |symbols| && forall i :: 0 <= i < |xs| ==> xs[i] == Exit(symbols[i], s.key, date, prevDate)
  {
    seq(|symbols|, i requires 0 <= i < |symbols| => Exit(symbols[i], s.key, date, prevDate))
  }

  method SetOfSymbols(ms: seq<Match>, ghost ks: Keys, ghost t: Table) returns (symbols: set<string>)
    requires forall i :: 0 <= i < |ks| ==> ks[i] in t
    requires ms == MatchesOf(t, ks)
    ensures symbols == SymbolSet(ks)
  {
    symbols := {};
    for i := 0 to |ms|
      invariant symbols == set j | 0 <= j < i :: ks[j].1
    {
      symbols := symbols + {ms[i].symbol};
    }
  }

  method EntriesOutside(s: Study, date: int, prevDate: int, ms: seq<Match>, others: set<string>, ghost ks: Keys, ghost t: Table)
      returns (entries: seq<Entry>)
    requires forall i :: 0 <= i < |ks| ==> ks[i] in t
    requires ms == MatchesOf(t, ks)
    ensures entries == Entries(s, date, prevDate, NotAmong(ks, others))
  {
    entries := [];
    for i := 0 to |ms|
      invariant entries == Entries(s, date, prevDate, NotAmong(ks[..i], others))
    {
      assert ks[..i + 1][..i] == ks[..i];
      if ms[i].symbol !in others {
        entries := entries + [Entry(ms[i].symbol, s.key, date, prevDate)];
      }
    }
    assert ks[..|ks|] == ks;
  }

  method ExitsOutside(s: Study, date: int, prevDate: int, ms: seq<Match>, others: set<string>, ghost ks: Keys, ghost t: Table)
      returns (exits: seq<Exit>)
    requires forall i :: 0 <= i < |ks| ==> ks[i] in t
    requires ms == MatchesOf(t, ks)
    ensures exits == Exits(s, date, prevDate, NotAmong(ks, others))
  {
    exits := [];
    for i := 0 to |ms|
      invariant exits == Exits(s, date, prevDate, NotAmong(ks[..i], others))
    {
      assert ks[..i + 1][..i] == ks[..i];
      if ms[i].symbol !in others {
        exits := exits + [Exit(ms[i].symbol, s.key, date, prevDate)];
      }
    }
    assert ks[..|ks|] == ks;
  }

  class Detector {
    const snap: DB

    constructor (snap: DB)
      ensures this.snap == snap
    {
      this.snap := snap;
    }

    /** Symbols that match on a date and not on the previous one; all of them when the previous date
        has no snapshot. The store is left on the last date it could be switched to. */
    method DetectEntries(s: Study, date: int, prevDate: int) returns (r: Option<seq<Entry>>, ghost now: Keys, ghost before: Keys)
      modifies snap`activeDate
      ensures r.Some? <==> date in Dates(snap.table) && Prepare(s).Some?
      ensures r.None? ==> snap.activeDate == if date in Dates(snap.table) then date else old(snap.activeDate)
      ensures r.Some? ==> AnswersOn(now, s, snap.table, date)
      ensures r.Some? && prevDate in Dates(snap.table) ==> AnswersOn(before, s, snap.table, prevDate)
      ensures r.Some? && prevDate in Dates(snap.table) ==>
        r.value == Entries(s, date, prevDate, NotAmong(now, SymbolSet(before))) && snap.activeDate == prevDate
      ensures r.Some? && prevDate !in Dates(snap.table) ==>
        r.value == Entries(s, date, 0, NotAmong(now, {})) && snap.activeDate == date
    {
      hide Prepare;
      now, before := [], [];
      var ok := snap.SetActive(date);
      if !ok { return None, now, before; }
      var current;
      current, now := snap.Run(s);
      if current.None? { return None, now, before; }
      ok := snap.SetActive(prevDate);
      if !ok {
        var all := EntriesOutside(s, date, 0, current.value, {}, now, snap.table);
        return Some(all), now, before;
      }
      var prev;
      prev, before := snap.Run(s);
      if prev.None? { return None, now, before; }
      var prevSet := SetOfSymbols(prev.value, before, snap.table);
      var entries := EntriesOutside(s, date, prevDate, current.value, prevSet, now, snap.table);
      return Some(entries), now, before;
    }

    /** Symbols that matched on the previous date and do not on this one; none when the previous
        date has no snapshot. */
    method DetectExits(s: Study, date: int, prevDate: int) returns (r: Option<seq<Exit>>, ghost now: Keys, ghost before: Keys)
      modifies snap`activeDate
      ensures r.Some? <==> date in Dates(snap.table) && Prepare(s).Some?
      ensures r.None? ==> snap.activeDate == if date in Dates(snap.table) then date else old(snap.activeDate)
      ensures r.Some? ==> AnswersOn(now, s, snap.table, date)
      ensures r.Some? && prevDate in Dates(snap.table) ==> AnswersOn(before, s, snap.table, prevDate)
      ensures r.Some? && prevDate in Dates(snap.table) ==>
        r.value == Exits(s, date, prevDate, NotAmong(before, SymbolSet(now))) && snap.activeDate == prevDate
      ensures r.Some? && prevDate !in Dates(snap.table) ==> r.value == [] && snap.activeDate == date
    {
      hide Prepare;
      now, before := [], [];
      var ok := snap.SetActive(date);
      if !ok { return None, now, before; }
      var current;
      current, now := snap.Run(s);
      if current.None? { return None, now, before; }
      ok := snap.SetActive(prevDate);
      if !ok { return Some([]), now, before; }
      var prev;
      prev, before := snap.Run(s);
      if prev.None? { return None, now, before; }
      var currentSet := SetOfSymbols(current.value, now, snap.table);
      var exits := ExitsOutside(s, date, prevDate, prev.value, currentSet, before, snap.table);
      return Some(exits), now, before;
    }

    /** Both. Without a snapshot of the previous date every match is an entry and nothing exits. */
    method DetectChanges(s: Study, date: int, prevDate: int) returns (r: Option<(seq<Entry>, seq<Exit>)>)
      modifies snap`activeDate
      ensures r.Some? <==> date in Dates(snap.table) && Prepare(s).Some?
      ensures r.None? ==> snap.activeDate == if date in Dates(snap.table) then date else old(snap.activeDate)
      ensures r.Some? && prevDate in Dates(snap.table) ==>
        Changes(r.value.0, r.value.1, s, snap.table, date, prevDate) && snap.activeDate == prevDate
      ensures r.Some? && prevDate !in Dates(snap.table) ==>
        AllEnter(r.value.0, s, snap.table, date) && r.value.1 == [] && snap.activeDate == date
    {
      var entries, n, b := DetectEntries(s, date, prevDate);
      if entries.None? { return None; }
      var exits, n', b' := DetectExits(s, date, prevDate);
      if exits.None? { return None; }
      return Some((entries.value, exits.value));
    }
  }

  /** What DetectChanges reports for two dates that exist: each side from its own runs of the study. */
  ghost predicate Changes(es: seq<Entry>, xs: seq<Exit>, s: Study, t: Table, date: int, prevDate: int) {
    && (exists n, b :: AnswersOn(n, s, t, date) && AnswersOn(b, s, t, prevDate)
          && es == Entries(s, date, prevDate, NotAmong(n, SymbolSet(b))))
    && (exists n, b :: AnswersOn(n, s, t, date) && AnswersOn(b, s, t, prevDate)
          && xs == Exits(s, date, prevDate, NotAmong(b, SymbolSet(n))))
  }

  /** The entries DetectChanges reports when there is no previous date. */
  ghost predicate AllEnter(es: seq<Entry>, s: Study, t: Table, date: int) {
    exists n :: AnswersOn(n, s, t, date) && es == Entries(s, date, 0, NotAmong(n, {}))
  }

  // ----- what the changes add up to -----

  lemma {:induction false} NotAmongSymbols(ks: Keys, others: set<string>)
    ensures forall x :: x in NotAmong(ks, others) <==> x in SymbolSet(ks) && x !in others
  {
    if ks != [] {
      var k := |ks| - 1;
      NotAmongSymbols(ks[..k], others);
      assert SymbolSet(ks) == SymbolSet(ks[..k]) + {ks[k].1};
    }
  }

  ghost function EntrySet(es: seq<Entry>): set<string> { set i | 0 <= i < |es| :: es[i].symbol }

  ghost function ExitSet(xs: seq<Exit>): set<string> { set i | 0 <= i < |xs| :: xs[i].symbol }

  lemma EntriesAre(s: Study, date: int, prevDate: int, n: Keys, b: Keys)
    ensures EntrySet(Entries(s, date, prevDate, NotAmong(n, SymbolSet(b)))) == SymbolSet(n) - SymbolSet(b)
  {
    var symbols := NotAmong(n, SymbolSet(b));
    NotAmongSymbols(n, SymbolSet(b));
    var es := Entries(s, date, prevDate, symbols);
    assert forall x :: x in EntrySet(es) <==> x in symbols;
  }

  lemma ExitsAre(s: Study, date: int, prevDate: int, n: Keys, b: Keys)
    ensures ExitSet(Exits(s, date, prevDate, NotAmong(b, SymbolSet(n)))) == SymbolSet(b) - SymbolSet(n)
  {
    var symbols := NotAmong(b, SymbolSet(n));
    NotAmongSymbols(b, SymbolSet(n));
    var xs := Exits(s, date, prevDate, symbols);
    assert forall x :: x in ExitSet(xs) <==> x in symbols;
  }

  /** All answers to the study on a date list the same symbols, whatever the limit cuts. */
  ghost predicate Determined(s: Study, t: Table, date: int) {
    forall ks, others :: AnswersOn(ks, s, t, date) && AnswersOn(others, s, t, date) ==> SymbolSet(ks) == SymbolSet(others)
  }

  /** The reported changes are the exact difference of what the two dates list. */
  lemma ChangesAreDifference(
      es: seq<Entry>, xs: seq<Exit>, s: Study, t: Table, date: int, prevDate: int, now: Keys, before: Keys)
    requires Changes(es, xs, s, t, date, prevDate) && Determined(s, t, date) && Determined(s, t, prevDate)
    requires AnswersOn(now, s, t, date) && AnswersOn(before, s, t, prevDate)
    ensures EntrySet(es) == SymbolSet(now) - SymbolSet(before)
    ensures ExitSet(xs) == SymbolSet(before) - SymbolSet(now)
  {
    hide AnswersOn, SymbolSet, EntrySet, ExitSet, Entries, Exits;
    var n, b :| AnswersOn(n, s, t, date) && AnswersOn(b, s, t, prevDate)
      && es == Entries(s, date, prevDate, NotAmong(n, SymbolSet(b)));
    EntriesAre(s, date, prevDate, n, b);
    var n', b' :| AnswersOn(n', s, t, date) && AnswersOn(b', s, t, prevDate)
      && xs == Exits(s, date, prevDate, NotAmong(b', SymbolSet(n')));
    ExitsAre(s, date, prevDate, n', b');
  }

  /** The changes of one date after another, applied in turn. */
  ghost function Replay(start: set<string>, changes: seq<(seq<Entry>, seq<Exit>)>): set<string> {
    if changes == [] then start
    else
      var k := |changes| - 1;
      Replay(start, changes[..k]) - ExitSet(changes[k].1) + EntrySet(changes[k].0)
  }

  /** Along any chain of dates, what the first date lists with all reported changes applied is what the last
      lists, and no symbol enters and leaves at once: for any limit, as long as ties do not leave open what a date
      lists. */
  lemma {:induction false} ChangesTelescope(
      s: Study, t: Table, dates: seq<int>, answers: seq<Keys>, changes: seq<(seq<Entry>, seq<Exit>)>)
    requires |dates| == |answers| == |changes| + 1
    requires forall i :: 0 <= i < |dates| ==> Determined(s, t, dates[i]) && AnswersOn(answers[i], s, t, dates[i])
    requires forall i :: 0 <= i < |changes| ==> Changes(changes[i].0, changes[i].1, s, t, dates[i + 1], dates[i])
    ensures Replay(SymbolSet(answers[0]), changes) == SymbolSet(answers[|changes|])
    ensures forall i :: 0 <= i < |changes| ==> EntrySet(changes[i].0) !! ExitSet(changes[i].1)
  {
    hide AnswersOn, Determined, Changes, SymbolSet, EntrySet, ExitSet;
    if changes != [] {
      var k := |changes| - 1;
      ChangesTelescope(s, t, dates[..k + 1], answers[..k + 1], changes[..k]);
      ChangesAreDifference(
        changes[k].0, changes[k].1, s, t, dates[k + 1], dates[k], answers[k + 1], answers[k]);
      assert forall i :: 0 <= i < |changes| ==> i == k || changes[..k][i] == changes[i];
    }
  }

  // ----- exactly when they add up -----

  /** Whatever answers the three kinds of runs got, the changes lead from one date's listing to the other's. */
  ghost predicate StepSound(s: Study, t: Table, date: int, prevDate: int) {
    forall es, xs, n, b ::
      Changes(es, xs, s, t, date, prevDate) && AnswersOn(n, s, t, date) && AnswersOn(b, s, t, prevDate)
      ==> SymbolSet(b) - ExitSet(xs) + EntrySet(es) == SymbolSet(n)
  }

  /** Entries seen against one answer of the previous date and exits seen against another. */
  lemma SomeChanges(s: Study, t: Table, date: int, prevDate: int, n: Keys, b: Keys, b': Keys)
      returns (es: seq<Entry>, xs: seq<Exit>)
    requires AnswersOn(n, s, t, date) && AnswersOn(b, s, t, prevDate) && AnswersOn(b', s, t, prevDate)
    ensures Changes(es, xs, s, t, date, prevDate)
    ensures EntrySet(es) == SymbolSet(n) - SymbolSet(b) && ExitSet(xs) == SymbolSet(b') - SymbolSet(n)
  {
    hide AnswersOn;
    es := Entries(s, date, prevDate, NotAmong(n, SymbolSet(b)));
    xs := Exits(s, date, prevDate, NotAmong(b', SymbolSet(n)));
    EntriesAre(s, date, prevDate, n, b);
    ExitsAre(s, date, prevDate, n, b');
  }

  /** One step of the telescope holds for all reports if and only if both dates determine what they list. */
  lemma StepSoundExactly(s: Study, t: Table, date: int, prevDate: int, now: Keys, before: Keys)
    requires AnswersOn(now, s, t, date) && AnswersOn(before, s, t, prevDate)
    ensures StepSound(s, t, date, prevDate) <==> Determined(s, t, date) && Determined(s, t, prevDate)
  {
    hide AnswersOn, SymbolSet, EntrySet, ExitSet;
    if StepSound(s, t, date, prevDate) {
      hide Changes;
      forall n, n' | AnswersOn(n, s, t, date) && AnswersOn(n', s, t, date) ensures SymbolSet(n) == SymbolSet(n') {
        var es, xs := SomeChanges(s, t, date, prevDate, now, before, before);
      }
      forall b, b' | AnswersOn(b, s, t, prevDate) && AnswersOn(b', s, t, prevDate)
        ensures SymbolSet(b) == SymbolSet(b')
      {
        SoundMeansIncluded(s, t, date, prevDate, now, b, b');
        SoundMeansIncluded(s, t, date, prevDate, now, b', b);
      }
    }
    if Determined(s, t, date) && Determined(s, t, prevDate) {
      forall es, xs, n, b | Changes(es, xs, s, t, date, prevDate) && AnswersOn(n, s, t, date) && AnswersOn(b, s, t, prevDate)
        ensures SymbolSet(b) - ExitSet(xs) + EntrySet(es) == SymbolSet(n)
      {
        ChangesAreDifference(es, xs, s, t, date, prevDate, n, b);
      }
    }
  }

  /** A symbol that one answer lists and another does not would get stuck in the replay, or be lost from it. */
  lemma SoundMeansIncluded(s: Study, t: Table, date: int, prevDate: int, now: Keys, b: Keys, b': Keys)
    requires StepSound(s, t, date, prevDate)
    requires AnswersOn(now, s, t, date) && AnswersOn(b, s, t, prevDate) && AnswersOn(b', s, t, prevDate)
    ensures SymbolSet(b) <= SymbolSet(b')
  {
    hide AnswersOn, SymbolSet, EntrySet, ExitSet, Changes;
    var es, xs := SomeChanges(s, t, date, prevDate, now, b, b');
    assert SymbolSet(b) - ExitSet(xs) + EntrySet(es) == SymbolSet(now);
    assert SymbolSet(b') - ExitSet(xs) + EntrySet(es) == SymbolSet(now);
  }

  /** What any one run of the study shows: a date determines what it lists if and only if no row left out by the
      limit ties with a listed one. */
  lemma DeterminedExactly(s: Study, t: Table, date: int, ks: Keys)
    requires AnswersOn(ks, s, t, date) && Pinned(s, t, date)
    ensures Determined(s, t, date) <==> TidyCut(ks, Hits(Prepare(s).value, t, date), Prepare(s).value.order, t)
  {
    hide Prepare;
    var q := Prepare(s).value;
    var hits := Hits(q, t, date);
    if TidyCut(ks, hits, q.order, t) {
      TidyDetermines(s, t, date, ks);
    } else {
      var k, i :| k in hits && k !in ks && 0 <= i < |ks| && !Before(q.order, t, ks[i], k);
      TieSwaps(ks, i, k, hits, q.order, s.limit, t);
      var other := ks[i := k];
      assert AnswersOn(other, s, t, date);
      assert other[i].1 in SymbolSet(other);
      forall j | 0 <= j < |ks| ensures ks[j].1 != k.1 {
        assert ks[j] in hits;
      }
      assert SymbolSet(ks) != SymbolSet(other);
    }
  }

  /** The rows themselves, of whatever date, are determined under the same condition for every study. */
  lemma RowsDeterminedExactly(s: Study, t: Table, date: int, ks: Keys)
    requires AnswersOn(ks, s, t, date)
    ensures (forall others :: AnswersOn(others, s, t, date) ==> KeySet(others) == KeySet(ks))
      <==> TidyCut(ks, Hits(Prepare(s).value, t, date), Prepare(s).value.order, t)
  {
    hide Prepare;
    var q := Prepare(s).value;
    var hits := Hits(q, t, date);
    if TidyCut(ks, hits, q.order, t) {
      forall others | AnswersOn(others, s, t, date) ensures KeySet(others) == KeySet(ks) {
        TidyListing(ks, others, hits, q.order, s.limit, t);
        assert forall k :: k in KeySet(others) <==> k in others;
        assert forall k :: k in KeySet(ks) <==> k in ks;
      }
    } else {
      var k, i :| k in hits && k !in ks && 0 <= i < |ks| && !Before(q.order, t, ks[i], k);
      TieSwaps(ks, i, k, hits, q.order, s.limit, t);
      var other := ks[i := k];
      assert AnswersOn(other, s, t, date);
      assert other[i] in KeySet(other) && k !in KeySet(ks);
    }
  }

  lemma TidyDetermines(s: Study, t: Table, date: int, ks: Keys)
    requires AnswersOn(ks, s, t, date) && TidyCut(ks, Hits(Prepare(s).value, t, date), Prepare(s).value.order, t)
    ensures Determined(s, t, date)
  {
    hide Prepare;
    var q := Prepare(s).value;
    var hits := Hits(q, t, date);
    forall others | AnswersOn(others, s, t, date) ensures SymbolSet(others) == SymbolSet(ks) {
      TidyListing(ks, others, hits, q.order, s.limit, t);
      SameKeysSameSymbols(ks, others);
    }
  }

  lemma SameKeysSameSymbols(ks: Keys, others: Keys)
    requires forall k :: k in ks <==> k in others
    ensures SymbolSet(ks) == SymbolSet(others)
  {
    forall i | 0 <= i < |ks| ensures ks[i].1 in SymbolSet(others) {
      assert ks[i] in others;
    }
    forall i | 0 <= i < |others| ensures others[i].1 in SymbolSet(ks) {
      assert others[i] in ks;
    }
  }

  /** No two matches of a date tie under the study's order. */
  ghost predicate NoTies(s: Study, t: Table, date: int)
    requires Prepare(s).Some?
  {
    var q := Prepare(s).value;
    forall a, b :: a in Hits(q, t, date) && b in Hits(q, t, date) && a != b ==> Before(q.order, t, a, b) || Before(q.order, t, b, a)
  }

  /** Two everyday cases: the limit does not cut, or nothing ties. */
  lemma UncutOrUntiedDetermines(s: Study, t: Table, date: int)
    requires Prepare(s).Some? && (Uncut(s, t, date) || NoTies(s, t, date))
    ensures Determined(s, t, date)
  {
    hide Prepare;
    var q := Prepare(s).value;
    if ks :| AnswersOn(ks, s, t, date) {
      if Uncut(s, t, date) {
        AllListed(ks, Hits(q, t, date));
      }
      hide Before;
      assert TidyCut(ks, Hits(q, t, date), q.order, t);
      TidyDetermines(s, t, date, ks);
    }
  }

  // ----- a tie at the cut -----

  /** Two symbols on date 0, one of them on date 1. */
  ghost function TiedTable(): Table {
    map[(0, "A") := Stored(0, map[]), (0, "B") := Stored(0, map[]), (1, "A") := Stored(1, map[])]
  }

  /** A study without an order whose limit keeps one of two rows: the changes reported between its dates need not
      lead from what the first lists to what the second lists. */
  lemma TieBreaksTelescope(s: Study)
    requires s.where == "" && s.orderBy == "" && s.limit == 1
    ensures Prepare(s).Some? && !Determined(s, TiedTable(), 0) && !StepSound(s, TiedTable(), 1, 0)
  {
    var t := TiedTable();
    TiedHits(s);
    hide Prepare, TiedTable;
    OneListed(s, t, 0, (0, "A"));
    OneListed(s, t, 1, (1, "A"));
    UntidyCut(s, t, 0, (0, "A"), (0, "B"));
    StepSoundExactly(s, t, 1, 0, [(1, "A")], [(0, "A")]);
  }

  /** One listed row and one left out, with no order between them. */
  lemma UntidyCut(s: Study, t: Table, date: int, a: (int, string), b: (int, string))
    requires AnswersOn([a], s, t, date) && Pinned(s, t, date) && Prepare(s).value.order == None
    requires b in Hits(Prepare(s).value, t, date) && a != b
    ensures !Determined(s, t, date)
  {
    hide Prepare, Determined;
    DeterminedExactly(s, t, date, [a]);
    assert b !in [a] && !Before(None, t, [a][0], b);
  }

  lemma TiedHits(s: Study)
    requires s.where == "" && s.orderBy == ""
    ensures Prepare(s).Some? && Prepare(s).value.order == None
    ensures Hits(Prepare(s).value, TiedTable(), 0) == {(0, "A"), (0, "B")}
    ensures Hits(Prepare(s).value, TiedTable(), 1) == {(1, "A")}
  {
    hide Prepare, Hits;
    var t := TiedTable();
    EmptyConditionRuns(s, t, 0);
    EmptyConditionRuns(s, t, 1);
    assert t.Keys == {(0, "A"), (0, "B"), (1, "A")};
    assert forall k :: k in t && k.0 == 0 <==> k in {(0, "A"), (0, "B")};
    assert forall k :: k in t && k.0 == 1 <==> k in {(1, "A")};
  }

  /** Without an order any one match is an answer to a study that keeps one. */
  lemma OneListed(s: Study, t: Table, date: int, k: (int, string))
    requires Prepare(s).Some? && Prepare(s).value.order == None && s.limit == 1
    requires k in Hits(Prepare(s).value, t, date)
    ensures AnswersOn([k], s, t, date)
  {
    hide Prepare;
    var hits := Hits(Prepare(s).value, t, date);
    assert hits == {k} + (hits - {k});
  }
}
