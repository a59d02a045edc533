/** When a splice is the conjunction it looks like: reading a statement back to the condition between Run's
    parentheses. */
module Unsplice {
  import opened Core
  import opened Sql
  import opened Printer
  import opened StudyKey
  import opened Snapshot
  import opened Splice

  // ----- what a condition uses up -----

  predicate IsClauseWord(t: Token) { t.Word? && Lower(t.text) in {"order", "limit"} }

  /** rest is what is left of ts, and no ORDER or LIMIT was used up. */
  ghost predicate Uses(ts: seq<Token>, rest: seq<Token>) {
    && |rest| <= |ts| && ts[|ts| - |rest|..] == rest
    && forall i :: 0 <= i < |ts| - |rest| ==> !IsClauseWord(ts[i])
  }

  lemma UsesMore(ts: seq<Token>, mid: seq<Token>, rest: seq<Token>)
    requires Uses(ts, mid) && Uses(mid, rest)
    ensures Uses(ts, rest)
  {
    var n := |ts| - |mid|;
    assert forall i :: 0 <= i < |mid| ==> ts[n + i] == mid[i];
    forall i | 0 <= i < |ts| - |rest| ensures !IsClauseWord(ts[i]) {
      if n <= i {
        assert ts[i] == mid[i - n];
      }
    }
    assert ts[|ts| - |rest|..] == mid[|mid| - |rest|..];
  }

  lemma UsesOne(ts: seq<Token>)
    requires ts != [] && !IsClauseWord(ts[0])
    ensures Uses(ts, ts[1..])
  {}

  /** A known word in front is no ORDER and no LIMIT. */
  lemma UsesWord(ts: seq<Token>, keyword: string)
    requires At(ts, keyword) && keyword in {"and", "or", "is", "not", "null"}
    ensures Uses(ts, ts[1..])
  {
    hide Lower;
    UsesOne(ts);
  }

  lemma {:induction false} ParseTermUses(ts: seq<Token>)
    requires ParseTerm(ts).Some?
    ensures Uses(ts, ParseTerm(ts).value.1)
  {
    assert "order" in KEYWORDS && "limit" in KEYWORDS;
    hide Lower;
    UsesOne(ts);
    if ts[0].Minus? {
      UsesOne(ts[1..]);
      UsesMore(ts, ts[1..], ts[2..]);
    }
  }

  lemma {:induction false} ParseNullTestUses(t: Term, ts: seq<Token>)
    requires ParseNullTest(t, ts).Some?
    ensures Uses(ts, ParseNullTest(t, ts).value.1)
  {
    hide Lower, Uses;
    if At(ts, "null") {
      UsesWord(ts, "null");
    } else {
      UsesWord(ts, "not");
      UsesWord(ts[1..], "null");
      assert ts[1..][1..] == ts[2..];
      UsesMore(ts, ts[1..], ts[2..]);
    }
  }

  lemma {:induction false} ParseComparisonUses(ts: seq<Token>)
    requires ParseComparison(ts).Some?
    ensures Uses(ts, ParseComparison(ts).value.1)
  {
    hide ParseTerm, ParseNullTest, Uses;
    ParseTermUses(ts);
    var mid := ParseTerm(ts).value.1;
    if At(mid, "is") {
      UsesWord(mid, "is");
      ParseNullTestUses(ParseTerm(ts).value.0, mid[1..]);
    } else {
      UsesOne(mid);
      ParseTermUses(mid[1..]);
    }
    UsesMore(ts, mid, mid[1..]);
    UsesMore(ts, mid[1..], ParseComparison(ts).value.1);
  }

  lemma {:induction false} ParseAtomUses(ts: seq<Token>)
    requires ParseAtom(ts).Some?
    ensures Uses(ts, ParseAtom(ts).value.1)
    decreases |ts|, 0
  {
    hide ParseOr, ParseComparison, Uses;
    if |ts| > 0 && ts[0].LPar? {
      UsesOne(ts);
      ParseOrUses(ts[1..]);
      var mid := ParseOr(ts[1..]).value.1;
      UsesOne(mid);
      UsesMore(ts, ts[1..], mid);
      UsesMore(ts, mid, mid[1..]);
    } else {
      ParseComparisonUses(ts);
    }
  }

  lemma {:induction false} ParseAndUses(ts: seq<Token>)
    requires ParseAnd(ts).Some?
    ensures Uses(ts, ParseAnd(ts).value.1)
    decreases |ts|, 2
  {
    hide ParseAtom, ParseAndTail, Uses;
    ParseAtomUses(ts);
    var first := ParseAtom(ts).value;
    ParseAndTailUses(first.0, first.1);
    UsesMore(ts, first.1, ParseAnd(ts).value.1);
  }

  lemma {:induction false} ParseAndTailUses(acc: Expr, ts: seq<Token>)
    requires ParseAndTail(acc, ts).Some?
    ensures Uses(ts, ParseAndTail(acc, ts).value.1)
    decreases |ts|, 1
  {
    hide ParseAtom;
    if At(ts, "and") {
      hide Uses;
      UsesWord(ts, "and");
      ParseAtomUses(ts[1..]);
      var next := ParseAtom(ts[1..]).value;
      ParseAndTailUses(And(acc, next.0), next.1);
      UsesMore(ts, ts[1..], next.1);
      UsesMore(ts, next.1, ParseAndTail(acc, ts).value.1);
    }
  }

  lemma {:induction false} ParseOrUses(ts: seq<Token>)
    requires ParseOr(ts).Some?
    ensures Uses(ts, ParseOr(ts).value.1)
    decreases |ts|, 4
  {
    hide ParseAnd, ParseOrTail, Uses;
    ParseAndUses(ts);
    var first := ParseAnd(ts).value;
    ParseOrTailUses(first.0, first.1);
    UsesMore(ts, first.1, ParseOr(ts).value.1);
  }

  lemma {:induction false} ParseOrTailUses(acc: Expr, ts: seq<Token>)
    requires ParseOrTail(acc, ts).Some?
    ensures Uses(ts, ParseOrTail(acc, ts).value.1)
    decreases |ts|, 3
  {
    hide ParseAnd;
    if At(ts, "or") {
      hide Uses;
      UsesWord(ts, "or");
      ParseAndUses(ts[1..]);
      var next := ParseAnd(ts[1..]).value;
      ParseOrTailUses(Or(acc, next.0), next.1);
      UsesMore(ts, ts[1..], next.1);
      UsesMore(ts, next.1, ParseOrTail(acc, ts).value.1);
    }
  }

  // ----- a condition that ends before a closing parenthesis does not need it -----

  /** The same result, apart from more at the end of what is left. */
  ghost predicate Same<T>(short: Option<(T, seq<Token>)>, long: Option<(T, seq<Token>)>, more: seq<Token>) {
    short.Some? && long.Some? && long.value.0 == short.value.0 && long.value.1 == short.value.1 + more
  }

  lemma {:induction false} ParseTermCut(ts: seq<Token>, more: seq<Token>)
    requires Closing(more) && ParseTerm(ts + more).Some? && |ParseTerm(ts + more).value.1| >= |more|
    ensures Same(ParseTerm(ts), ParseTerm(ts + more), more)
  {
    if ts != [] {
      assert (ts + more)[1..] == ts[1..] + more;
      if ts[0].Minus? {
        assert (ts + more)[2..] == (ts + more)[1..][1..];
        assert |ts| > 1 && (ts + more)[1] == ts[1] && (ts + more)[2..] == ts[2..] + more;
      }
    }
  }

  lemma {:induction false} ParseNullTestCut(t: Term, ts: seq<Token>, more: seq<Token>)
    requires Closing(more) && ParseNullTest(t, ts + more).Some? && |ParseNullTest(t, ts + more).value.1| >= |more|
    ensures Same(ParseNullTest(t, ts), ParseNullTest(t, ts + more), more)
  {
    AtMore(ts, more, "null");
    AtMore(ts, more, "not");
    AtMore(if ts == [] then [] else ts[1..], more, "null");
    if At(ts, "not") {
      assert ts[1..] != [] && (ts + more)[2..] == ts[2..] + more;
    }
    hide At;
  }

  lemma {:induction false} ParseComparisonCut(ts: seq<Token>, more: seq<Token>)
    requires Closing(more) && ParseComparison(ts + more).Some? && |ParseComparison(ts + more).value.1| >= |more|
    ensures Same(ParseComparison(ts), ParseComparison(ts + more), more)
  {
    hide ParseTerm, ParseNullTest, At;
    ParseTermCut(ts, more);
    var rest := ParseTerm(ts).value.1;
    AtMore(rest, more, "is");
    assert rest != [];
    assert (rest + more)[0] == rest[0];
    if At(rest, "is") {
      ParseNullTestCut(ParseTerm(ts).value.0, rest[1..], more);
    } else {
      ParseTermCut(rest[1..], more);
    }
  }

  lemma {:induction false} ParseAtomCut(ts: seq<Token>, more: seq<Token>)
    requires Closing(more) && ParseAtom(ts + more).Some? && |ParseAtom(ts + more).value.1| >= |more|
    ensures Same(ParseAtom(ts), ParseAtom(ts + more), more)
    decreases |ts|, 0
  {
    hide ParseOr, ParseComparison;
    if ts != [] && ts[0].LPar? {
      assert (ts + more)[0] == ts[0] && (ts + more)[1..] == ts[1..] + more;
      ParseOrCut(ts[1..], more);
      var rest := ParseOr(ts[1..]).value.1;
      assert rest != [] && (rest + more)[0] == rest[0] && (rest + more)[1..] == rest[1..] + more;
    } else {
      assert ts == [] ==> ts + more == more;
      assert !(ts + more)[0].LPar?;
      ParseComparisonCut(ts, more);
    }
  }

  lemma {:induction false} ParseAndCut(ts: seq<Token>, more: seq<Token>)
    requires Closing(more) && ParseAnd(ts + more).Some? && |ParseAnd(ts + more).value.1| >= |more|
    ensures Same(ParseAnd(ts), ParseAnd(ts + more), more)
    decreases |ts|, 2
  {
    hide ParseAtom, ParseAndTail;
    ParseAtomCut(ts, more);
    ParseAndTailCut(ParseAtom(ts).value.0, ParseAtom(ts).value.1, more);
  }

  lemma {:induction false} ParseAndTailCut(acc: Expr, ts: seq<Token>, more: seq<Token>)
    requires Closing(more) && ParseAndTail(acc, ts + more).Some? && |ParseAndTail(acc, ts + more).value.1| >= |more|
    ensures Same(ParseAndTail(acc, ts), ParseAndTail(acc, ts + more), more)
    decreases |ts|, 1
  {
    hide ParseAtom;
    AtMore(ts, more, "and");
    if At(ts, "and") {
      hide At;
      ParseAtomCut(ts[1..], more);
      var next := ParseAtom(ts[1..]).value;
      ParseAndTailCut(And(acc, next.0), next.1, more);
    }
  }

  lemma {:induction false} ParseOrCut(ts: seq<Token>, more: seq<Token>)
    requires Closing(more) && ParseOr(ts + more).Some? && |ParseOr(ts + more).value.1| >= |more|
    ensures Same(ParseOr(ts), ParseOr(ts + more), more)
    decreases |ts|, 4
  {
    hide ParseAnd, ParseOrTail;
    ParseAndCut(ts, more);
    ParseOrTailCut(ParseAnd(ts).value.0, ParseAnd(ts).value.1, more);
  }

  lemma {:induction false} ParseOrTailCut(acc: Expr, ts: seq<Token>, more: seq<Token>)
    requires Closing(more) && ParseOrTail(acc, ts + more).Some? && |ParseOrTail(acc, ts + more).value.1| >= |more|
    ensures Same(ParseOrTail(acc, ts), ParseOrTail(acc, ts + more), more)
    decreases |ts|, 3
  {
    hide ParseAnd;
    AtMore(ts, more, "or");
    if At(ts, "or") {
      hide At;
      ParseAndCut(ts[1..], more);
      var next := ParseAnd(ts[1..]).value;
      ParseOrTailCut(Or(acc, next.0), next.1, more);
    }
  }

  // ----- the tree says how it was joined -----

  /** How often the left operand of the left operand ... can be taken. */
  function LeftDepth(e: Expr): nat {
    match e
    case And(l, _) => 1 + LeftDepth(l)
    case Or(l, _) => 1 + LeftDepth(l)
    case _ => 0
  }

  /** DateTest joined by ANDs to further conditions. */
  ghost predicate Guarded(e: Expr) { e == DateTest() || (e.And? && Guarded(e.l)) }

  lemma {:induction false} AndTailGrows(acc: Expr, ts: seq<Token>)
    requires ParseAndTail(acc, ts).Some?
    ensures var r := ParseAndTail(acc, ts).value;
      && (Guarded(acc) ==> Guarded(r.0))
      && ((r == (acc, ts) && !At(ts, "and")) || LeftDepth(r.0) > LeftDepth(acc))
    decreases |ts|
  {
    hide ParseAtom;
    if At(ts, "and") {
      var next := ParseAtom(ts[1..]).value;
      AndTailGrows(And(acc, next.0), next.1);
    }
  }

  lemma {:induction false} OrTailGrows(acc: Expr, ts: seq<Token>)
    requires ParseOrTail(acc, ts).Some?
    ensures var r := ParseOrTail(acc, ts).value;
      (r == (acc, ts) && !At(ts, "or")) || (r.0.Or? && LeftDepth(r.0) > LeftDepth(acc))
    decreases |ts|
  {
    hide ParseAnd;
    if At(ts, "or") {
      var next := ParseAnd(ts[1..]).value;
      OrTailGrows(Or(acc, next.0), next.1);
    }
  }

  /** The clauses of a statement hold no parenthesis. */
  lemma NoParenthesisAfter(e: Expr, ts: seq<Token>, i: nat)
    requires ParseClauses(e, ts).Some? && i < |ts|
    ensures !ts[i].RPar?
  {
    var mid := ParseOrder(ts).value.1;
    var used := |ts| - |mid|;
    assert used <= 4 && ts[used..] == mid;
    if i >= used {
      assert ts[i] == mid[i - used];
    }
  }

  // ----- reading the statement back -----

  /** The group between Run's parentheses ends where the condition text ends: an earlier end would leave a
      parenthesis to the clauses, and a later one would use up a clause. */
  lemma GroupEnds(ts: seq<Token>, rest: seq<Token>, e: Expr, mid: seq<Token>)
    requires rest != [] ==> IsClauseWord(rest[0])
    requires ParseOr(ts + ([RPar] + rest)) == Some((e, mid)) && mid != [] && mid[0].RPar?
    requires forall i :: 1 <= i < |mid| ==> !mid[i].RPar?
    ensures mid == [RPar] + rest && ParseOr(ts) == Some((e, []))
  {
    var more := [RPar] + rest;
    var body := ts + more;
    ParseOrUses(body);
    hide ParseOr;
    var n := |body| - |mid|;
    assert body[|ts|] == RPar;
    assert forall i :: 0 <= i < |mid| ==> body[n + i] == mid[i];
    assert n <= |ts| by {
      assert rest != [] ==> body[|ts| + 1] == rest[0];
    }
    assert mid == more;
    ParseOrCut(ts, more);
    assert |ParseOr(ts).value.1 + more| == |more|;
  }

  /** A word AND between two atoms, the second one in parentheses. */
  lemma GroupJoined(ts: seq<Token>, a: Expr, body: seq<Token>)
    requires ParseAtom(ts) == Some((a, [Word("AND"), LPar] + body)) && ParseOr(ts).Some?
    ensures ParseOr(body).Some? && ParseOr(body).value.1 != [] && ParseOr(body).value.1[0].RPar?
    ensures var inner := ParseOr(body).value;
      var joined := ParseAndTail(And(a, inner.0), inner.1[1..]);
      joined.Some? && ParseOr(ts) == ParseOrTail(joined.value.0, joined.value.1)
  {
    LowerKeyword(ConjAnd);
    hide Lower;
    var second := [Word("AND"), LPar] + body;
    var group := second[1..];
    assert group[0] == LPar && group[1..] == body && At(second, "and");
    hide At;
    assert ParseAnd(ts).Some? && ParseAndTail(a, second).Some?;
    assert ParseAtom(group).Some?;
    assert ParseOr(body).Some?;
  }

  /** The date test, AND and an opening parenthesis come first in every statement. */
  lemma HeadParsed(body: seq<Token>)
    requires ParseOr(HeadTokens() + body).Some?
    ensures ParseOr(body).Some? && ParseOr(body).value.1 != [] && ParseOr(body).value.1[0].RPar?
    ensures var inner := ParseOr(body).value;
      var joined := ParseAndTail(And(DateTest(), inner.0), inner.1[1..]);
      joined.Some? && ParseOr(HeadTokens() + body) == ParseOrTail(joined.value.0, joined.value.1)
  {
    hide ParseAtom, ParseOr, ParseAndTail, ParseOrTail;
    ParseDateTest([Word("AND"), LPar] + body);
    assert HeadTokens() + body == [Word("snapshot_date"), Op(Eq), Qmark] + ([Word("AND"), LPar] + body);
    GroupJoined(HeadTokens() + body, DateTest(), body);
  }

  lemma SplicedTree(ts: seq<Token>, rest: seq<Token>, where: Expr, tail: seq<Token>)
    requires rest != [] ==> IsClauseWord(rest[0])
    requires ParseOr(HeadTokens() + (ts + ([RPar] + rest))) == Some((where, tail))
    requires forall i :: 0 <= i < |tail| ==> !tail[i].RPar?
    ensures Guarded(where) || where.Or?
    ensures forall e :: where == And(DateTest(), e) ==> ParseOr(ts) == Some((e, []))
  {
    var body := ts + ([RPar] + rest);
    HeadParsed(body);
    hide ParseOr, HeadTokens;
    var inner := ParseOr(body).value;
    var acc, after := And(DateTest(), inner.0), inner.1[1..];
    assert Guarded(acc.l) && LeftDepth(acc) == 1;
    AndTailGrows(acc, after);
    var joined := ParseAndTail(acc, after).value;
    OrTailGrows(joined.0, joined.1);
    hide ParseAndTail, ParseOrTail, IsClauseWord;
    forall e | where == And(DateTest(), e) ensures ParseOr(ts) == Some((e, [])) {
      assert LeftDepth(where) == 1;
      assert joined == (acc, after) && tail == after && inner.0 == e;
      GroupEnds(ts, rest, e, inner.1);
    }
  }

  lemma ClausesAreClauses(s: Study, cut: Option<int>)
    requires Lex(ClausesText(s, cut)).Some?
    ensures var ts := Lex(ClausesText(s, cut)).value; ts != [] ==> IsClauseWord(ts[0])
  {
    LowerClauseWords();
    hide Lex, LimitText, Lower;
    if s.orderBy != "" {
      assert ClausesText(s, cut) == " ORDER BY " + (s.orderBy + LimitText(cut));
      OrderStart(s.orderBy + LimitText(cut));
    } else {
      assert ClausesText(s, cut) == LimitText(cut);
      LexLimit(cut);
    }
  }

  lemma StatementLexed(s: Study, cut: Option<int>)
    requires Lex(StatementWith(s, cut)).Some?
    ensures Lex(ConditionText(s)).Some? && Lex(ClausesText(s, cut)).Some?
    ensures Lex(StatementWith(s, cut)).value
      == HeadTokens() + (Lex(ConditionText(s)).value + ([RPar] + Lex(ClausesText(s, cut)).value))
  {
    var w, after := ConditionText(s), ClausesText(s, cut);
    StatementText(s, cut);
    hide Lex, ConditionText, ClausesText, StatementWith;
    LexHead(w + (")" + after));
    LexCloses(w, ")" + after);
    LexParenthesis(after);
  }

  /** Any statement that parses is the date test with further conditions joined by AND, or an OR. It is the date test
      and one condition e if and only if the text between the parentheses is, by itself, the condition e. */
  lemma SplicedExactly(s: Study, cut: Option<int>)
    requires Parse(StatementWith(s, cut)).Some?
    ensures var where := Parse(StatementWith(s, cut)).value.where;
      && (Guarded(where) || where.Or?)
      && (forall e :: where == And(DateTest(), e) <==> exists ts :: IsCondition(ConditionText(s), ts, e))
  {
    StatementLexed(s, cut);
    ClausesAreClauses(s, cut);
    var ts, rest := Lex(ConditionText(s)).value, Lex(ClausesText(s, cut)).value;
    var r := ParseOr(Lex(StatementWith(s, cut)).value).value;
    forall i | 0 <= i < |r.1| ensures !r.1[i].RPar? { NoParenthesisAfter(r.0, r.1, i); }
    hide ParseOr, ParseClauses, Lex, HeadTokens, ClausesText, ConditionText, StatementWith;
    SplicedTree(ts, rest, r.0, r.1);
    forall e ensures r.0 == And(DateTest(), e) <==> exists ts :: IsCondition(ConditionText(s), ts, e) {
      if r.0 == And(DateTest(), e) {
        assert IsCondition(ConditionText(s), ts, e);
      } else if ts' :| IsCondition(ConditionText(s), ts', e) {
        WholeStatement(s, ts', e, cut);
        ClausesKeep(And(DateTest(), e), rest);
      }
    }
  }

  lemma ClausesKeep(e: Expr, ts: seq<Token>)
    requires ParseClauses(e, ts).Some?
    ensures ParseClauses(e, ts).value.where == e
  {}

  // ----- what Run makes of it -----

  /** The text between the parentheses is one condition by itself. */
  ghost predicate IsWhole(s: Study) { exists ts, e :: IsCondition(ConditionText(s), ts, e) }

  /** A study that can be run at all is run as the conjunction of the date test and one condition if and only if its
      condition text is whole by itself. */
  lemma ConjunctionExactly(s: Study)
    requires Prepare(s).Some?
    ensures (exists e :: Prepare(s).value.where == And(DateTest(), e)) <==> IsWhole(s)
  {
    var cut := if s.limit > 0 then Some(s.limit) else None;
    SplicedExactly(s, cut);
    hide Parse, StatementWith, IsCondition;
    var where := Prepare(s).value.where;
    assert Parse(StatementWith(s, cut)).Some? && where == Parse(StatementWith(s, cut)).value.where;
    hide Prepare;
    if IsWhole(s) {
      var ts, e :| IsCondition(ConditionText(s), ts, e);
      assert where == And(DateTest(), e);
    }
    if e :| where == And(DateTest(), e) {
      var ts :| IsCondition(ConditionText(s), ts, e);
    }
  }

  /** Whether whole or not, it selects rows of the active date only, unless its statement is an OR. */
  lemma OnlyOrLeavesDate(s: Study, t: Table, active: int)
    requires Prepare(s).Some?
    ensures Prepare(s).value.where.Or? || forall k :: k in Hits(Prepare(s).value, t, active) ==> k.0 == active
  {
    var cut := if s.limit > 0 then Some(s.limit) else None;
    SplicedExactly(s, cut);
    hide Parse, StatementWith, IsCondition;
    var q := Prepare(s).value;
    assert Parse(StatementWith(s, cut)).Some? && q.where == Parse(StatementWith(s, cut)).value.where;
    hide Prepare;
    if Guarded(q.where) {
      forall k | k in Hits(q, t, active) ensures k.0 == active {
        GuardedMeans(q.where, t, k, active);
      }
    }
  }

  lemma {:induction false} GuardedMeans(e: Expr, t: Table, k: (int, string), active: int)
    requires Guarded(e) && k in t && Eval(e, RowEnv(t, k), active as real).True?
    ensures k.0 == active
  {
    hide RowEnv;
    if e == DateTest() {
      DateTestMeans(t, k, active);
    } else {
      GuardedMeans(e.l, t, k, active);
    }
  }
}
