/** What Run does with a condition: the splice after its date test, for conditions from any hand. */
module Splice {
  import opened Core
  import opened Sql
  import opened Printer
  import opened StudyKey
  import opened StudyTables
  import opened Snapshot

  /** A text that by itself lexes and parses as one condition. */
  ghost predicate IsCondition(w: string, ts: seq<Token>, e: Expr) {
    Lex(w) == Some(ts) && ParseOr(ts) == Some((e, []))
  }

  lemma TrimKeeps(s: string)
    requires s != "" && !IsTrimmed(s[0]) && !IsTrimmed(s[|s| - 1])
    ensures TrimSpace(s) == s
  {}

  // ----- a closing parenthesis ends the tokens before it -----

  lemma {:induction false} WordLenCloses(w: string, s: string)
    requires s != "" && s[0] == ')'
    ensures WordLen(w + s) == WordLen(w)
  {
    if w == "" {
      assert w + s == s;
    } else {
      assert (w + s)[1..] == w[1..] + s;
      WordLenCloses(w[1..], s);
    }
  }

  lemma {:induction false} LexLetters(x: string)
    requires x != "" && IsLetter(x[0])
    ensures Lex(x) == Then([Word(x[..WordLen(x)])], Lex(x[WordLen(x)..]))
  {}

  lemma {:induction false} NumberEnds(w: string)
    requires w != "" && IsDigit(w[0])
    ensures Lex(w).Some? ==> NumLen(w) < |w| ==> !IsLetter(w[NumLen(w)])
  {
    hide NumLen;
  }

  lemma {:induction false} FirstNumber(w: string, s: string)
    requires s != "" && s[0] == ')' && w != "" && IsDigit(w[0]) && (Lex(w).Some? || Lex(w + s).Some?)
    ensures var n := NumLen(w);
      0 < n && Lex(w) == Then([Num(w[..n])], Lex(w[n..])) && Lex(w + s) == Then([Num(w[..n])], Lex(w[n..] + s))
  {
    hide Lex, NumLen;
    var n := NumLen(w);
    NumLenExtends(w, s);
    assert (w + s)[0] == w[0] && n <= |w|;
    NumberEnds(w);
    NumberEnds(w + s);
    assert (w + s)[n] == if n < |w| then w[n] else ')';
    LexDigits(w);
    LexDigits(w + s);
    assert (w + s)[..n] == w[..n] && (w + s)[n..] == w[n..] + s;
  }

  lemma WordStarts(w: string)
    requires w != "" && IsLetter(w[0])
    ensures WordLen(w) > 0
  {}

  lemma {:induction false} FirstWord(w: string, s: string)
    requires s != "" && s[0] == ')' && w != "" && IsLetter(w[0])
    ensures var n := WordLen(w);
      0 < n && Lex(w) == Then([Word(w[..n])], Lex(w[n..])) && Lex(w + s) == Then([Word(w[..n])], Lex(w[n..] + s))
  {
    hide Lex, WordLen;
    var n := WordLen(w);
    WordLenCloses(w, s);
    WordStarts(w);
    assert (w + s)[0] == w[0];
    LexLetters(w);
    LexLetters(w + s);
    assert (w + s)[..n] == w[..n] && (w + s)[n..] == w[n..] + s;
  }

  lemma {:induction false} FirstMark(w: string, s: string) returns (tok: Token, n: nat)
    requires s != "" && s[0] == ')' && (Lex(w).Some? || Lex(w + s).Some?)
    requires w != "" && !IsSpace(w[0]) && !IsDigit(w[0]) && !IsLetter(w[0])
    ensures 0 < n <= |w| && Lex(w) == Then([tok], Lex(w[n..])) && Lex(w + s) == Then([tok], Lex(w[n..] + s))
  {
    var c := w[0];
    n := if (c == '<' || c == '>') && |w| > 1 && w[1] == '=' then 2 else 1;
    tok :=
      if c == '(' then LPar else if c == ')' then RPar else if c == '?' then Qmark else if c == '=' then Op(Eq)
      else if c == '-' then Minus
      else if c == '<' then (if n == 2 then Op(Le) else Op(Lt)) else (if n == 2 then Op(Ge) else Op(Gt));
    assert (w + s)[n..] == w[n..] + s && (w + s)[0] == c;
    assert (w + s)[1] == if |w| > 1 then w[1] else ')';
  }

  lemma {:induction false} FirstToken(w: string, s: string) returns (tok: Token, n: nat)
    requires s != "" && s[0] == ')' && (Lex(w).Some? || Lex(w + s).Some?) && w != "" && !IsSpace(w[0])
    ensures 0 < n <= |w| && Lex(w) == Then([tok], Lex(w[n..])) && Lex(w + s) == Then([tok], Lex(w[n..] + s))
  {
    hide Lex;
    if IsDigit(w[0]) {
      FirstNumber(w, s);
      tok, n := Num(w[..NumLen(w)]), NumLen(w);
    } else if IsLetter(w[0]) {
      FirstWord(w, s);
      tok, n := Word(w[..WordLen(w)]), WordLen(w);
    } else {
      tok, n := FirstMark(w, s);
    }
  }

  /** The tokens in front of a closing parenthesis do not depend on what follows it, nor does it depend on that
      whether there are any. */
  lemma {:induction false} LexCloses(w: string, s: string)
    requires s != "" && s[0] == ')'
    ensures Lex(w + s) == if Lex(w).Some? then Then(Lex(w).value, Lex(s)) else None
    decreases |w|
  {
    if w == "" {
      assert w + s == s;
      assert Lex(s).Some? ==> [] + Lex(s).value == Lex(s).value;
    } else if IsSpace(w[0]) {
      assert (w + s)[1..] == w[1..] + s;
      LexCloses(w[1..], s);
    } else if Lex(w).Some? || Lex(w + s).Some? {
      var tok, n := FirstToken(w, s);
      hide Lex;
      LexCloses(w[n..], s);
      if Lex(w).Some? {
        ThenThen([tok], Lex(w[n..]).value, Lex(s));
      }
    }
  }

  // ----- and the condition -----

  ghost predicate Closing(more: seq<Token>) { more != [] && more[0].RPar? }

  lemma {:induction false} ParseTermMore(ts: seq<Token>, more: seq<Token>)
    requires Closing(more) && ParseTerm(ts).Some?
    ensures ParseTerm(ts + more) == Some((ParseTerm(ts).value.0, ParseTerm(ts).value.1 + more))
  {
    assert (ts + more)[0] == ts[0] && (ts + more)[1..] == ts[1..] + more;
    if ts[0].Minus? {
      assert (ts + more)[1] == ts[1] && (ts + more)[2..] == ts[2..] + more;
    }
  }

  lemma {:induction false} AtMore(ts: seq<Token>, more: seq<Token>, keyword: string)
    requires Closing(more)
    ensures At(ts + more, keyword) == At(ts, keyword)
    ensures ts != [] ==> (ts + more)[1..] == ts[1..] + more
  {}

  lemma {:induction false} ParseNullTestMore(t: Term, ts: seq<Token>, more: seq<Token>)
    requires Closing(more) && ParseNullTest(t, ts).Some?
    ensures ParseNullTest(t, ts + more) == Some((ParseNullTest(t, ts).value.0, ParseNullTest(t, ts).value.1 + more))
  {
    AtMore(ts, more, "null");
    AtMore(ts, more, "not");
    AtMore(ts[1..], more, "null");
    hide At;
    if At(ts, "not") {
      assert (ts + more)[2..] == ts[2..] + more;
    }
  }

  lemma {:induction false} ParseComparisonMore(ts: seq<Token>, more: seq<Token>)
    requires Closing(more) && ParseComparison(ts).Some?
    ensures ParseComparison(ts + more) == Some((ParseComparison(ts).value.0, ParseComparison(ts).value.1 + more))
  {
    hide ParseTerm, ParseNullTest, At;
    ParseTermMore(ts, more);
    var rest := ParseTerm(ts).value.1;
    AtMore(rest, more, "is");
    assert (rest + more)[0] == rest[0];
    if At(rest, "is") {
      ParseNullTestMore(ParseTerm(ts).value.0, rest[1..], more);
    } else {
      ParseTermMore(rest[1..], more);
    }
  }

  lemma {:induction false} ParseAtomMore(ts: seq<Token>, more: seq<Token>)
    requires Closing(more) && ParseAtom(ts).Some?
    ensures ParseAtom(ts + more) == Some((ParseAtom(ts).value.0, ParseAtom(ts).value.1 + more))
    decreases |ts|, 0
  {
    hide ParseOr, ParseComparison;
    if |ts| > 0 && ts[0].LPar? {
      assert (ts + more)[1..] == ts[1..] + more;
      ParseOrMore(ts[1..], more);
      var rest := ParseOr(ts[1..]).value.1;
      assert (rest + more)[0] == rest[0] && (rest + more)[1..] == rest[1..] + more;
    } else {
      ParseComparisonMore(ts, more);
      assert ts != [] && (ts + more)[0] == ts[0] by { ComparisonNotEmpty(ts); }
    }
  }

  lemma ComparisonNotEmpty(ts: seq<Token>)
    requires ParseComparison(ts).Some?
    ensures ts != []
  {}

  lemma {:induction false} ParseAndMore(ts: seq<Token>, more: seq<Token>)
    requires Closing(more) && ParseAnd(ts).Some?
    ensures ParseAnd(ts + more) == Some((ParseAnd(ts).value.0, ParseAnd(ts).value.1 + more))
    decreases |ts|, 2
  {
    hide ParseAtom, ParseAndTail;
    ParseAtomMore(ts, more);
    ParseAndTailMore(ParseAtom(ts).value.0, ParseAtom(ts).value.1, more);
  }

  lemma {:induction false} ParseAndTailMore(acc: Expr, ts: seq<Token>, more: seq<Token>)
    requires Closing(more) && ParseAndTail(acc, ts).Some?
    ensures ParseAndTail(acc, ts + more) == Some((ParseAndTail(acc, ts).value.0, ParseAndTail(acc, ts).value.1 + more))
    decreases |ts|, 1
  {
    hide ParseAtom;
    AtMore(ts, more, "and");
    if At(ts, "and") {
      hide At;
      ParseAtomMore(ts[1..], more);
      var next := ParseAtom(ts[1..]).value;
      ParseAndTailMore(And(acc, next.0), next.1, more);
    }
  }

  lemma {:induction false} ParseOrMore(ts: seq<Token>, more: seq<Token>)
    requires Closing(more) && ParseOr(ts).Some?
    ensures ParseOr(ts + more) == Some((ParseOr(ts).value.0, ParseOr(ts).value.1 + more))
    decreases |ts|, 4
  {
    hide ParseAnd, ParseOrTail;
    ParseAndMore(ts, more);
    ParseOrTailMore(ParseAnd(ts).value.0, ParseAnd(ts).value.1, more);
  }

  lemma {:induction false} ParseOrTailMore(acc: Expr, ts: seq<Token>, more: seq<Token>)
    requires Closing(more) && ParseOrTail(acc, ts).Some?
    ensures ParseOrTail(acc, ts + more) == Some((ParseOrTail(acc, ts).value.0, ParseOrTail(acc, ts).value.1 + more))
    decreases |ts|, 3
  {
    hide ParseAnd;
    AtMore(ts, more, "or");
    if At(ts, "or") {
      hide At;
      ParseAndMore(ts[1..], more);
      var next := ParseAnd(ts[1..]).value;
      ParseOrTailMore(Or(acc, next.0), next.1, more);
    }
  }

  // ----- the statement's text -----

  ghost function HeadTokens(): seq<Token> {
    [Word("snapshot_date"), Op(Eq), Qmark, Word("AND"), LPar]
  }

  lemma LexHead(s: string)
    ensures Lex("snapshot_date = ? AND (" + s) == Then(HeadTokens(), Lex(s))
  {
    hide Lex;
    var s1 := "(" + s;
    var s2 := " AND " + s1;
    var s3 := "? AND " + s1;
    var s4 := " = ? AND " + s1;
    assert "snapshot_date = ? AND (" + s == "snapshot_date" + s4;
    LexWord("snapshot_date", s4);
    LexEqualsParam(s2);
    assert s4 == " = ?" + s2;
    LexParenthesis(s);
    assert s2 == " " + ("AND" + (" " + s1));
    LexSpace("AND" + (" " + s1));
    LexWord("AND", " " + s1);
    LexSpace(s1);
    ThenThen([Word("AND")], [LPar], Lex(s));
    ThenThen([Op(Eq), Qmark], [Word("AND")] + [LPar], Lex(s));
    ThenThen([Word("snapshot_date")], [Op(Eq), Qmark] + ([Word("AND")] + [LPar]), Lex(s));
    assert [Word("snapshot_date")] + ([Op(Eq), Qmark] + ([Word("AND")] + [LPar])) == HeadTokens();
  }

  lemma LexMarks(s: string)
    ensures Lex("=" + s) == Then([Op(Eq)], Lex(s))
    ensures Lex("?" + s) == Then([Qmark], Lex(s))
  {}

  lemma LexEqualsParam(s: string)
    ensures Lex(" = ?" + s) == Then([Op(Eq), Qmark], Lex(s))
  {
    hide Lex;
    var mark := "?" + s;
    assert " = ?" + s == " " + ("=" + (" " + mark));
    LexSpace("=" + (" " + mark));
    LexMarks(" " + mark);
    LexSpace(mark);
    LexMarks(s);
    ThenThen([Op(Eq)], [Qmark], Lex(s));
    assert [Op(Eq)] + [Qmark] == [Op(Eq), Qmark];
  }

  ghost function LimitText(cut: Option<int>): string {
    if cut.Some? then " LIMIT " + IntText(cut.value) else ""
  }

  ghost function LimitTokens(cut: Option<int>): seq<Token> {
    if cut.Some? then [Word("LIMIT")] + TermTokens(IntTerm(cut.value)) else []
  }

  ghost function LimitTerm(cut: Option<int>): Option<Term> {
    if cut.Some? then Some(IntTerm(cut.value)) else None
  }

  lemma LexLimit(cut: Option<int>)
    ensures Lex(LimitText(cut)) == Some(LimitTokens(cut)) && Delimited(LimitText(cut))
  {
    if cut.Some? {
      var end := " " + IntText(cut.value);
      LexInt(cut.value);
      LimitLiteral(IntText(cut.value));
      assert IsName("LIMIT");
      hide Lex, IntText, IntTerm, TermTokens;
      LexSpace("LIMIT" + end);
      LexWord("LIMIT", end);
    }
  }

  lemma ParseLimitPart(cut: Option<int>)
    ensures ParseLimit(LimitTokens(cut)) == Some((LimitTerm(cut), []))
  {
    if cut.Some? {
      ParseLimitTokens(cut.value);
    }
  }

  // ----- the spliced statement -----

  ghost function DateTest(): Expr { Cmp(Eq, Col("snapshot_date"), Param) }

  lemma ParseDateTest(more: seq<Token>)
    ensures ParseAtom([Word("snapshot_date"), Op(Eq), Qmark] + more) == Some((DateTest(), more))
  {
    hide IsKeyword;
    var ts := [Word("snapshot_date"), Op(Eq), Qmark] + more;
    var second := [Op(Eq), Qmark] + more;
    var third := [Qmark] + more;
    DateIsColumn();
    assert TermTokens(Col("snapshot_date")) + second == ts;
    ParseTermTokens("snapshot_date", second);
    assert second[1..] == third && third[1..] == more;
    assert ParseTerm(third) == Some((Param, more));
  }

  lemma DateIsColumn()
    ensures IsColumnText("snapshot_date")
  {
    ColumnText("snapshot_date");
  }


  /** The date test, then the condition inside Run's parentheses, then the rest. */
  lemma ParseSpliced(ts: seq<Token>, e: Expr, rest: seq<Token>)
    requires ParseOr(ts) == Some((e, [])) && !At(rest, "and") && !At(rest, "or")
    ensures ParseOr(HeadTokens() + (ts + ([RPar] + rest))) == Some((And(DateTest(), e), rest))
  {
    hide ParseAtom, ParseOr, At;
    var close := [RPar] + rest;
    var group := [LPar] + (ts + close);
    ParseOrMore(ts, close);
    assert [] + close == close;
    ParseParenthesised(ts + close, e, rest);
    ParseDateTest([Word("AND")] + group);
    var all := [Word("snapshot_date"), Op(Eq), Qmark] + ([Word("AND")] + group);
    assert HeadTokens() + (ts + close) == all;
    ParseJoined(all, DateTest(), ConjAnd, e, group, rest);
  }

  /** What Run puts between its parentheses. */
  function ConditionText(s: Study): string {
    var w := TrimSpace(s.where);
    if w == "" then "1=1" else w
  }

  /** What it puts after them. */
  ghost function ClausesText(s: Study, cut: Option<int>): string {
    (if s.orderBy != "" then " ORDER BY " + s.orderBy else "") + LimitText(cut)
  }

  lemma StatementText(s: Study, cut: Option<int>)
    ensures StatementWith(s, cut) == "snapshot_date = ? AND (" + (ConditionText(s) + (")" + ClausesText(s, cut)))
  {
    hide TrimSpace, IntText;
  }

  lemma OrderStart(rest: string)
    requires Lex(" ORDER BY " + rest).Some?
    ensures var ts := Lex(" ORDER BY " + rest).value; ts != [] && ts[0] == Word("ORDER")
  {
    var end := " BY " + rest;
    assert " ORDER BY " + rest == " " + ("ORDER" + end);
    assert IsName("ORDER") && Delimited(end);
    hide Lex;
    LexSpace("ORDER" + end);
    LexWord("ORDER", end);
  }

  /** ORDER BY and LIMIT never go on with the condition. */
  lemma ClausesStart(s: Study, cut: Option<int>)
    requires Lex(ClausesText(s, cut)).Some?
    ensures var ts := Lex(ClausesText(s, cut)).value; !At(ts, "and") && !At(ts, "or")
  {
    LowerClauseWords();
    hide Lex, LimitText, Lower;
    if s.orderBy != "" {
      assert ClausesText(s, cut) == " ORDER BY " + (s.orderBy + LimitText(cut));
      OrderStart(s.orderBy + LimitText(cut));
    } else {
      assert ClausesText(s, cut) == LimitText(cut);
      LexLimit(cut);
    }
  }

  /** A condition that is whole by itself stays whole in the statement: it is joined to the date test, and only
      ORDER BY and LIMIT come after it. */
  lemma WholeStatement(s: Study, ts: seq<Token>, e: Expr, cut: Option<int>)
    requires IsCondition(ConditionText(s), ts, e)
    ensures var rest := Lex(ClausesText(s, cut));
      Parse(StatementWith(s, cut)) == if rest.None? then None else ParseClauses(And(DateTest(), e), rest.value)
  {
    var w, after := ConditionText(s), ClausesText(s, cut);
    StatementText(s, cut);
    hide Lex, ParseOr, ConditionText, ClausesText, StatementWith, ParseClauses;
    LexHead(w + (")" + after));
    LexCloses(w, ")" + after);
    LexParenthesis(after);
    if Lex(after).Some? {
      var rest := Lex(after).value;
      ClausesStart(s, cut);
      ParseSpliced(ts, e, rest);
      assert Lex(StatementWith(s, cut)) == Some(HeadTokens() + (ts + ([RPar] + rest)));
    }
  }

  lemma DateTestMeans(table: Table, k: (int, string), active: int)
    requires k in table
    ensures Eval(DateTest(), RowEnv(table, k), active as real).True? <==> k.0 == active
  {}

  /** So Run returns exactly the active date's rows that satisfy the condition, whoever wrote it. */
  lemma WholeConditionPinsDate(s: Study, ts: seq<Token>, e: Expr, t: Table, active: int)
    requires IsCondition(ConditionText(s), ts, e) && Prepare(s).Some?
    ensures forall k :: k in Hits(Prepare(s).value, t, active) <==>
      (k in t && k.0 == active && Eval(e, RowEnv(t, k), active as real).True?)
  {
    var cut := if s.limit > 0 then Some(s.limit) else None;
    WholeStatement(s, ts, e, cut);
    hide IsCondition, StatementWith, ConditionText, ClausesText, Lex, Parse;
    var q := Prepare(s).value;
    assert q.where == And(DateTest(), e);
    hide Prepare;
    forall k | k in t
      ensures Selects(q, t, k, active) <==> k.0 == active && Eval(e, RowEnv(t, k), active as real).True?
    {
      DateTestMeans(t, k, active);
    }
  }

  // ----- the empty condition, and one that escapes -----

  ghost function OneIsOne(): Expr { Cmp(Eq, Lit(false, "1"), Lit(false, "1")) }

  ghost function OneIsOneTokens(): seq<Token> { [Num("1"), Op(Eq), Num("1")] }

  lemma LexOneIsOne(s: string)
    requires Delimited(s)
    ensures Lex("1=1" + s) == Then(OneIsOneTokens(), Lex(s))
  {
    assert AllDigits("1");
    DigitsAreUnsigned("1");
    hide Lex, NumLen;
    assert "1=1" + s == "1" + ("=" + ("1" + s));
    LexNumber("1", "=" + ("1" + s));
    LexMarks("1" + s);
    LexNumber("1", s);
    ThenThen([Op(Eq)], [Num("1")], Lex(s));
    ThenThen([Num("1")], [Op(Eq)] + [Num("1")], Lex(s));
    assert [Num("1")] + ([Op(Eq)] + [Num("1")]) == OneIsOneTokens();
  }

  lemma ParseOneIsOne()
    ensures ParseOr(OneIsOneTokens()) == Some((OneIsOne(), []))
  {
    var ts := OneIsOneTokens();
    assert ts[1..] == [Op(Eq)] + [Num("1")];
    ParseCmp(ts, Lit(false, "1"), Eq, [Num("1")], Lit(false, "1"), []);
    hide ParseAtom;
  }

  /** With no condition at all, Run takes every row of the active date. */
  lemma EmptyConditionRuns(s: Study, t: Table, active: int)
    requires TrimSpace(s.where) == "" && s.orderBy == ""
    ensures Prepare(s).Some? && Prepare(s).value.order == None
    ensures forall k :: k in Hits(Prepare(s).value, t, active) <==> k in t && k.0 == active
  {
    LexOneIsOne("");
    assert "1=1" + "" == "1=1" && Lex("") == Some([]) && OneIsOneTokens() + [] == OneIsOneTokens();
    ParseOneIsOne();
    assert IsCondition(ConditionText(s), OneIsOneTokens(), OneIsOne());
    UnorderedRuns(s, OneIsOneTokens(), OneIsOne());
    WholeConditionPinsDate(s, OneIsOneTokens(), OneIsOne(), t, active);
  }

  lemma UnorderedRuns(s: Study, ts: seq<Token>, e: Expr)
    requires IsCondition(ConditionText(s), ts, e) && s.orderBy == "" && Params(e) == 0 && ColumnsExist(e)
    ensures Prepare(s) == Some(Query(And(DateTest(), e), None, LimitTerm(if s.limit > 0 then Some(s.limit) else None)))
  {
    var cut, explained := if s.limit > 0 then Some(s.limit) else None, Some(if s.limit > 0 then s.limit else 0);
    hide IsCondition, StatementWith, Parse, LimitTerm, Params, ColumnsExist;
    UnorderedStatement(s, ts, e, cut);
    UnorderedStatement(s, ts, e, explained);
    DateTestAdds(e);
  }

  lemma UnorderedStatement(s: Study, ts: seq<Token>, e: Expr, cut: Option<int>)
    requires IsCondition(ConditionText(s), ts, e) && s.orderBy == ""
    ensures Parse(StatementWith(s, cut)) == Some(Query(And(DateTest(), e), None, LimitTerm(cut)))
  {
    hide IsCondition, StatementWith, Lex, Parse, LimitText, ParseClauses, LimitTokens, LimitTerm;
    WholeStatement(s, ts, e, cut);
    assert ClausesText(s, cut) == LimitText(cut);
    LexLimit(cut);
    LimitAlone(And(DateTest(), e), cut);
  }

  lemma LimitAlone(e: Expr, cut: Option<int>)
    ensures ParseClauses(e, LimitTokens(cut)) == Some(Query(e, None, LimitTerm(cut)))
  {
    LowerClauseWords();
    ParseLimitPart(cut);
    hide ParseLimit, Lower;
  }

  /** The date test brings one column, which exists, and one parameter. */
  lemma DateTestAdds(e: Expr)
    ensures ColumnsExist(And(DateTest(), e)) <==> ColumnsExist(e)
    ensures Params(And(DateTest(), e)) == 1 + Params(e)
  {
    assert TABLE_COLUMNS[0] == "snapshot_date";
    assert Columns(And(DateTest(), e)) == {"snapshot_date"} + Columns(e);
  }

  const ESCAPE := "1=1) OR (1=1"

  ghost function EscapeTokens(): seq<Token> {
    OneIsOneTokens() + ([RPar, Word("OR"), LPar] + OneIsOneTokens())
  }

  lemma LexEscape()
    ensures Lex(ESCAPE) == Some(EscapeTokens())
  {
    hide Lex;
    var last := "(" + "1=1";
    var joined := " " + ("OR" + (" " + last));
    assert ESCAPE == "1=1" + (")" + joined);
    LexOneIsOne(")" + joined);
    LexParenthesis(joined);
    LexSpace("OR" + (" " + last));
    assert IsName("OR");
    LexWord("OR", " " + last);
    LexSpace(last);
    LexParenthesis("1=1");
    LexOneIsOne("");
    assert "1=1" + "" == "1=1";
    LexNothing();
    var ones := OneIsOneTokens();
    assert ones + [] == ones;
    assert [RPar] + ([Word("OR")] + ([LPar] + ones)) == [RPar, Word("OR"), LPar] + ones;
  }

  lemma LexNothing()
    ensures Lex("") == Some([])
  {}

  /** A parenthesised condition in front of more tokens. */
  lemma ParseGroup(ts: seq<Token>, e: Expr, rest: seq<Token>)
    requires ParseOr(ts) == Some((e, []))
    ensures ParseAtom([LPar] + (ts + ([RPar] + rest))) == Some((e, rest))
  {
    hide ParseAtom, ParseOr;
    ParseOrMore(ts, [RPar] + rest);
    assert [] + ([RPar] + rest) == [RPar] + rest;
    ParseParenthesised(ts + ([RPar] + rest), e, rest);
  }

  /** What the escaping text parses to: the date test has lost its hold on the second half. */
  lemma ParseEscape(rest: seq<Token>)
    requires !At(rest, "and") && !At(rest, "or")
    ensures ParseOr(HeadTokens() + (EscapeTokens() + ([RPar] + rest)))
         == Some((Or(And(DateTest(), OneIsOne()), OneIsOne()), rest))
  {
    var ones, e := OneIsOneTokens(), OneIsOne();
    var second := [LPar] + (ones + ([RPar] + rest));
    var between := [Word("OR")] + second;
    var first := [LPar] + (ones + ([RPar] + between));
    var all := [Word("snapshot_date"), Op(Eq), Qmark] + ([Word("AND")] + first);
    assert HeadTokens() + (EscapeTokens() + ([RPar] + rest)) == all;
    ParseOneIsOne();
    hide ParseAtom, ParseOr, OneIsOneTokens, OneIsOne, EscapeTokens;
    ParseDateTest([Word("AND")] + first);
    ParseGroup(ones, e, between);
    ParseGroup(ones, e, rest);
    ParseAndThenOr(all, DateTest(), first, e, second, e, rest);
  }

  /** a AND b OR c, with its words already split off. */
  lemma ParseAndThenOr(
      ts: seq<Token>, a: Expr, second: seq<Token>, b: Expr, third: seq<Token>, c: Expr, rest: seq<Token>)
    requires ParseAtom(ts) == Some((a, [Word("AND")] + second))
    requires ParseAtom(second) == Some((b, [Word("OR")] + third))
    requires ParseAtom(third) == Some((c, rest)) && !At(rest, "and") && !At(rest, "or")
    ensures ParseOr(ts) == Some((Or(And(a, b), c), rest))
  {
    LowerKeyword(ConjAnd);
    LowerKeyword(ConjOr);
    hide ParseAtom, Lower;
    var afterA, afterB := [Word("AND")] + second, [Word("OR")] + third;
    assert afterA[1..] == second && afterB[1..] == third;
    assert ParseAndTail(And(a, b), afterB) == Some((And(a, b), afterB));
    assert ParseAndTail(a, afterA) == Some((And(a, b), afterB));
    assert ParseAndTail(c, rest) == Some((c, rest));
    assert ParseAnd(third) == Some((c, rest));
    assert ParseOrTail(Or(And(a, b), c), rest) == Some((Or(And(a, b), c), rest));
  }

  /** A text that lexes but is no condition by itself, and whose statement is an OR: Run returns every row of every
      date for it. */
  lemma EscapingConditionRuns(s: Study, t: Table, active: int)
    requires s.where == ESCAPE && s.orderBy == ""
    ensures forall ts, e :: !IsCondition(ConditionText(s), ts, e)
    ensures Prepare(s).Some? && Hits(Prepare(s).value, t, active) == t.Keys
  {
    TrimKeeps(ESCAPE);
    assert ConditionText(s) == ESCAPE;
    LexEscape();
    EscapeIsNoCondition();
    var cut, explained := if s.limit > 0 then Some(s.limit) else None, Some(if s.limit > 0 then s.limit else 0);
    EscapedStatement(s, cut);
    EscapedStatement(s, explained);
    hide Parse, StatementWith, Lex, LimitTerm, ParseOr, EscapeTokens, ConditionText, TrimSpace;
    var q := Query(Or(And(DateTest(), OneIsOne()), OneIsOne()), None, LimitTerm(cut));
    EscapedKnown();
    assert Prepare(s) == Some(q);
    hide Prepare, Known;
    forall k | k in t ensures Selects(q, t, k, active) {
      EscapedHolds(RowEnv(t, k), active as real);
    }
  }

  lemma EscapeIsNoCondition()
    ensures ParseOr(EscapeTokens()).Some? ==> ParseOr(EscapeTokens()).value.1 != []
  {
    var ones := OneIsOneTokens();
    var more := [RPar, Word("OR"), LPar] + ones;
    ParseOneIsOne();
    ParseOrMore(ones, more);
    hide ParseOr;
    assert [] + more == more;
  }

  lemma EscapedStatement(s: Study, cut: Option<int>)
    requires ConditionText(s) == ESCAPE && s.orderBy == ""
    ensures Parse(StatementWith(s, cut))
         == Some(Query(Or(And(DateTest(), OneIsOne()), OneIsOne()), None, LimitTerm(cut)))
  {
    var after, rest := ClausesText(s, cut), LimitTokens(cut);
    StatementText(s, cut);
    hide Lex, ParseOr, ConditionText, StatementWith, ParseClauses, LimitText, EscapeTokens, HeadTokens;
    assert after == LimitText(cut);
    LexLimit(cut);
    LexEscape();
    LexHead(ESCAPE + (")" + after));
    LexCloses(ESCAPE, ")" + after);
    LexParenthesis(after);
    ClausesStart(s, cut);
    ParseEscape(rest);
    LimitAlone(Or(And(DateTest(), OneIsOne()), OneIsOne()), cut);
    assert Lex(StatementWith(s, cut)) == Some(HeadTokens() + (EscapeTokens() + ([RPar] + rest)));
  }

  lemma EscapedKnown()
    ensures ColumnsExist(Or(And(DateTest(), OneIsOne()), OneIsOne()))
    ensures Params(Or(And(DateTest(), OneIsOne()), OneIsOne())) == 1
  {
    DateTestAdds(OneIsOne());
    assert Columns(Or(And(DateTest(), OneIsOne()), OneIsOne())) == Columns(And(DateTest(), OneIsOne()));
    hide IsTableColumn;
  }

  lemma EscapedHolds(row: Env, param: real)
    ensures Eval(Or(And(DateTest(), OneIsOne()), OneIsOne()), row, param).True?
  {
    assert Eval(OneIsOne(), row, param).True?;
    hide Decimal;
  }
}
