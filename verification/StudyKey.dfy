/** The cache key of a compiled study: the hashed text determines the study. */
module StudyKey {
  import opened Core
  import opened Sql
  import opened Printer
  import opened Registry
  import opened Compiler

  // ----- the statement after WHERE -----

  ghost function IntTerm(n: int): Term {
    if n < 0 then Lit(true, NatText(-n)) else Lit(false, NatText(n))
  }

  ghost function Direction(descending: bool): string { if descending then "DESC" else "ASC" }

  /** Words, each after a space, in front of a last piece of text. */
  ghost function Spaced(ws: seq<string>, end: string): string {
    if ws == [] then end else " " + (ws[0] + Spaced(ws[1..], end))
  }

  ghost function WordTokens(ws: seq<string>): seq<Token> {
    if ws == [] then [] else [Word(ws[0])] + WordTokens(ws[1..])
  }

  lemma {:induction false} LexSpaced(ws: seq<string>, end: string)
    requires (forall w :: w in ws ==> IsName(w)) && Delimited(end)
    ensures Lex(Spaced(ws, end)) == Then(WordTokens(ws), Lex(end))
    ensures Delimited(Spaced(ws, end))
  {
    if ws == [] {
      if Lex(end).Some? {
        assert [] + Lex(end).value == Lex(end).value;
      }
    } else {
      LexSpaced(ws[1..], end);
      LexSpace(ws[0] + Spaced(ws[1..], end));
      LexWord(ws[0], Spaced(ws[1..], end));
      ThenThen([Word(ws[0])], WordTokens(ws[1..]), Lex(end));
    }
  }

  ghost function TailWords(column: string, descending: bool): seq<string> {
    ["ORDER", "BY", column, Direction(descending), "LIMIT"]
  }

  /** What follows the condition in the statement. */
  ghost function TailText(column: string, descending: bool, limit: int): string {
    Spaced(TailWords(column, descending), " " + IntText(limit))
  }

  ghost function TailTokens(column: string, descending: bool, limit: int): seq<Token> {
    WordTokens(TailWords(column, descending)) + TermTokens(IntTerm(limit))
  }

  lemma LexInt(n: int)
    ensures Lex(" " + IntText(n)) == Some(TermTokens(IntTerm(n)))
    ensures IsTermText(IntText(n)) && TermOf(IntText(n)) == IntTerm(n)
  {
    var digits := NatText(if n < 0 then -n else n);
    DigitsAreUnsigned(digits);
    var t := IntText(n);
    if n < 0 {
      assert t[1..] == digits;
    }
    LexSpace(t);
    assert t + "" == t;
    LexTerm(t, "");
    assert Lex("") == Some([]);
    assert TermTokens(IntTerm(n)) + [] == TermTokens(IntTerm(n));
  }

  lemma LexTail(column: string, descending: bool, limit: int)
    requires IsColumnText(column)
    ensures Lex(TailText(column, descending, limit)) == Some(TailTokens(column, descending, limit))
    ensures Delimited(TailText(column, descending, limit))
  {
    hide Lex, IntText;
    LexInt(limit);
    assert IsName("ORDER") && IsName("BY") && IsName("LIMIT") && IsName("ASC") && IsName("DESC");
    LexSpaced(TailWords(column, descending), " " + IntText(limit));
  }

  lemma LowerClauseWords()
    ensures Lower("ORDER") == "order" && Lower("BY") == "by" && Lower("LIMIT") == "limit"
  {}

  lemma LowerDirections()
    ensures Lower("ASC") == "asc" && Lower("DESC") == "desc"
  {}

  lemma TailTokensAre(column: string, descending: bool, limit: int)
    ensures TailTokens(column, descending, limit)
         == [Word("ORDER"), Word("BY"), Word(column), Word(Direction(descending)), Word("LIMIT")] + TermTokens(IntTerm(limit))
  {
    var ws := TailWords(column, descending);
    assert ws[1..] == ["BY", column, Direction(descending), "LIMIT"];
    assert ws[1..][1..] == [column, Direction(descending), "LIMIT"];
    assert ws[1..][1..][1..] == [Direction(descending), "LIMIT"];
    assert ws[1..][1..][1..][1..] == ["LIMIT"];
    assert ws[1..][1..][1..][1..][1..] == [];
    assert WordTokens(ws[1..][1..][1..][1..]) == [Word("LIMIT")];
    assert WordTokens(ws[1..][1..][1..]) == [Word(Direction(descending)), Word("LIMIT")];
    assert WordTokens(ws[1..][1..]) == [Word(column), Word(Direction(descending)), Word("LIMIT")];
    assert WordTokens(ws[1..]) == [Word("BY"), Word(column), Word(Direction(descending)), Word("LIMIT")];
  }

  /** The statement after WHERE parses back to the condition, the sort and the limit. */
  lemma ParseTail(p: Printed, column: string, descending: bool, limit: int)
    requires Printable(p) && IsColumnText(column)
    ensures Parse(Text(p) + TailText(column, descending, limit))
         == Some(Query(Ast(p), Some(Order(column, descending)), Some(IntTerm(limit))))
  {
    var ts := TailTokens(column, descending, limit);
    LexTail(column, descending, limit);
    LexPrinted(p, TailText(column, descending, limit));
    TailTokensAre(column, descending, limit);
    LowerClauseWords();
    LowerDirections();
    ParsePrintedCondition(p, ts);
    ParseOrderTokens(column, descending, limit);
    ParseLimitTokens(limit);
  }

  lemma ParseOrderWords(column: string, descending: bool, rest: seq<Token>)
    requires IsColumnText(column)
    ensures ParseOrder([Word("ORDER"), Word("BY"), Word(column), Word(Direction(descending))] + rest)
         == Some((Some(Order(column, descending)), rest))
  {
    var ts := [Word("ORDER"), Word("BY"), Word(column), Word(Direction(descending))] + rest;
    assert ts[4..] == rest;
    LowerClauseWords();
    LowerDirections();
    hide Lower;
    assert ts[1..][0] == Word("BY") && ts[3..][0] == Word(Direction(descending));
  }

  lemma ParseOrderTokens(column: string, descending: bool, limit: int)
    requires IsColumnText(column)
    ensures ParseOrder(TailTokens(column, descending, limit))
         == Some((Some(Order(column, descending)), [Word("LIMIT")] + TermTokens(IntTerm(limit))))
  {
    hide ParseOrder, TermTokens;
    TailTokensAre(column, descending, limit);
    var rest := [Word("LIMIT")] + TermTokens(IntTerm(limit));
    ParseOrderWords(column, descending, rest);
    assert TailTokens(column, descending, limit)
        == [Word("ORDER"), Word("BY"), Word(column), Word(Direction(descending))] + rest;
  }

  lemma ParseLimitTokens(limit: int)
    ensures ParseLimit([Word("LIMIT")] + TermTokens(IntTerm(limit))) == Some((Some(IntTerm(limit)), []))
  {}

  lemma SpacedStep(w: string, ws: seq<string>, end: string)
    ensures Spaced([w] + ws, end) == " " + (w + Spaced(ws, end))
  {}

  lemma TailTextIs(column: string, descending: bool, limit: int)
    ensures TailText(column, descending, limit)
         == " ORDER BY " + (column + (" " + (Direction(descending) + (" LIMIT " + IntText(limit)))))
  {
    var n := " " + IntText(limit);
    var d := Direction(descending);
    assert TailWords(column, descending) == ["ORDER"] + (["BY"] + ([column] + ([d] + (["LIMIT"] + []))));
    SpacedStep("LIMIT", [], n);
    SpacedStep(d, ["LIMIT"] + [], n);
    SpacedStep(column, [d] + (["LIMIT"] + []), n);
    SpacedStep("BY", [column] + ([d] + (["LIMIT"] + [])), n);
    SpacedStep("ORDER", ["BY"] + ([column] + ([d] + (["LIMIT"] + []))), n);
    assert Spaced([], n) == n;
    hide Spaced, IntText;
    var sorted := column + (" " + (d + (" LIMIT " + IntText(limit))));
    LimitLiteral(IntText(limit));
    OrderLiteral(sorted);
  }

  lemma LimitLiteral(s: string)
    ensures " " + ("LIMIT" + (" " + s)) == " LIMIT " + s
  {}

  lemma OrderLiteral(s: string)
    ensures " " + ("ORDER" + (" " + ("BY" + (" " + s)))) == " ORDER BY " + s
  {}

  lemma Regroup(h: string, w: string, o: string, c: string, s: string, d: string, l: string, n: string)
    ensures h + w + o + (c + s + d) + l + n == h + (w + (o + (c + (s + (d + (l + n))))))
  {}

  lemma SelectTextIsTail(where: string, column: string, descending: bool, limit: int)
    ensures SelectText(where, column + " " + Direction(descending), limit)
         == "SELECT symbol FROM snapshot WHERE " + (where + TailText(column, descending, limit))
  {
    TailTextIs(column, descending, limit);
    var d := Direction(descending);
    Regroup("SELECT symbol FROM snapshot WHERE ", where, " ORDER BY ", column, " ", d, " LIMIT ", IntText(limit));
  }

  lemma IntTermInjective(m: int, n: int)
    requires IntTerm(m) == IntTerm(n)
    ensures m == n
  {
    NatTextDenotes(if m < 0 then -m else m);
    NatTextDenotes(if n < 0 then -n else n);
  }

  // ----- from SQL back to ids -----

  lemma ShapeDeterminesRule(t: Tables, r: Rule, q: Rule)
    requires Unambiguous(t) && CheckRule(t, r).Ok? && CheckRule(t, q).Ok?
    requires Shape(t, r) == Shape(t, q)
    ensures r == q
  {
    var (f, op, o) := CheckRule(t, r).value;
    var (g, oq, p) := CheckRule(t, q).value;
    assert f.sqlExpr == g.sqlExpr && o.sqlExpr == p.sqlExpr;
    assert f.id == g.id;
    assert op.down <==> oq.down;
    assert SameComparison(op, oq);
    assert Allowed(t.compat, f.id, op.id, o.id) && Allowed(t.compat, f.id, op.id, p.id);
  }

  /** The last comparison printed for a rule never starts with a feature column when the rule is a
      cross, so one cross rule is not two scalar rules joined by AND. */
  lemma CrossIsNotTwoRules(t: Tables, r: Rule, rules: seq<Rule>, connectors: seq<string>)
    requires Unambiguous(t) && CheckRule(t, r).Ok? && Joined(t, rules, connectors) && |connectors| > 0
    ensures Shape(t, r) != StudyShape(t, rules, connectors)
  {}

  lemma OneRuleShape(t: Tables, rules: seq<Rule>, connectors: seq<string>)
    requires Joined(t, rules, connectors) && |connectors| == 0
    ensures StudyShape(t, rules, connectors) == Shape(t, rules[0])
  {}

  lemma LastStepsAgree(t: Tables, rules: seq<Rule>, cs: seq<string>, rules': seq<Rule>, cs': seq<string>)
    requires Unambiguous(t) && Joined(t, rules, cs) && Joined(t, rules', cs') && |cs| > 0 && |cs'| > 0
    requires StudyShape(t, rules, cs) == StudyShape(t, rules', cs')
    ensures rules[|cs|] == rules'[|cs'|] && cs[|cs| - 1] == cs'[|cs'| - 1]
    ensures Joined(t, rules[..|cs|], cs[..|cs| - 1]) && Joined(t, rules'[..|cs'|], cs'[..|cs'| - 1])
    ensures StudyShape(t, rules[..|cs|], cs[..|cs| - 1]) == StudyShape(t, rules'[..|cs'|], cs'[..|cs'| - 1])
  {
    StudyShapeSteps(t, rules, cs);
    StudyShapeSteps(t, rules', cs');
    ShapeDeterminesRule(t, rules[|cs|], rules'[|cs'|]);
  }

  lemma {:induction false} ShapeDeterminesRules(t: Tables, rules: seq<Rule>, cs: seq<string>, rules': seq<Rule>, cs': seq<string>)
    requires Unambiguous(t) && Joined(t, rules, cs) && Joined(t, rules', cs')
    requires StudyShape(t, rules, cs) == StudyShape(t, rules', cs')
    ensures rules == rules' && cs == cs'
    decreases |cs|
  {
    hide Unambiguous, CheckRule, Shape, StudyShape;
    var k, k' := |cs|, |cs'|;
    if k == 0 { OneRuleShape(t, rules, cs); }
    if k' == 0 { OneRuleShape(t, rules', cs'); }
    if k == 0 && k' == 0 {
      ShapeDeterminesRule(t, rules[0], rules'[0]);
    } else if k == 0 {
      CrossIsNotTwoRules(t, rules[0], rules', cs');
    } else if k' == 0 {
      CrossIsNotTwoRules(t, rules'[0], rules, cs);
    } else {
      LastStepsAgree(t, rules, cs, rules', cs');
      ShapeDeterminesRules(t, rules[..k], cs[..k - 1], rules'[..k'], cs'[..k' - 1]);
      assert rules == rules[..k] + [rules[k]] && rules' == rules'[..k'] + [rules'[k']];
      assert cs == cs[..k - 1] + [cs[k - 1]] && cs' == cs'[..k' - 1] + [cs'[k' - 1]];
    }
  }

  // ----- the hashed text -----

  lemma LastNewlineSplits(a: string, b: string, a': string, b': string)
    requires '\n' !in b && '\n' !in b'
    requires a + "\n" + b == a' + "\n" + b'
    ensures a == a' && b == b'
  {
    var whole := a + "\n" + b;
    assert whole[|a|] == '\n' && whole[|a'|] == '\n';
    assert whole[|a| + 1..] == b && whole[|a'| + 1..] == b';
    assert a == whole[..|a|] && a' == whole[..|a'|];
  }

  ghost function SortColumn(t: Tables, s: Sort): string
    requires CompileSort(t, s).Ok?
  {
    FeatureById(t, s.featureId).value.sqlExpr
  }

  lemma SortText(t: Tables, s: Sort)
    requires CompileSort(t, s).Ok?
    ensures CompileSort(t, s).value == SortColumn(t, s) + " " + Direction(Lower(s.direction) == "desc")
  {}

  lemma IntTextHasNoNewline(n: int)
    ensures '\n' !in IntText(n)
  {}

  lemma SelectTextHasNoNewline(where: string, order: string, limit: int)
    requires '\n' !in where && '\n' !in order
    ensures '\n' !in SelectText(where, order, limit)
  {
    IntTextHasNoNewline(limit);
    hide IntText;
    var head := "SELECT symbol FROM snapshot WHERE " + where;
    assert '\n' !in head;
    var sorted := head + " ORDER BY " + order;
    assert '\n' !in sorted;
    assert SelectText(where, order, limit) == sorted + " LIMIT " + IntText(limit);
  }

  lemma SortHasNoNewline(t: Tables, s: Sort)
    requires WellFormed(t) && CompileSort(t, s).Ok?
    ensures '\n' !in CompileSort(t, s).value
  {}

  lemma StatementHasNoNewline(t: Tables, def: Definition, limit: int)
    requires WellFormed(t) && Accepted(t, def)
    ensures '\n' !in Output(t, def, limit).selectSql
  {
    StudyShapePrintable(t, def.rules, def.connectors);
    TextHasNoNewline(StudyShape(t, def.rules, def.connectors));
    SortHasNoNewline(t, def.sort);
    SelectTextHasNoNewline(Text(StudyShape(t, def.rules, def.connectors)), CompileSort(t, def.sort).value, limit);
  }

  lemma StatementParses(t: Tables, def: Definition, limit: int)
    requires WellFormed(t) && Accepted(t, def)
    ensures |Output(t, def, limit).selectSql| >= 34
    ensures Parse(Output(t, def, limit).selectSql[34..])
         == Some(Query(Ast(StudyShape(t, def.rules, def.connectors)),
                       Some(Order(SortColumn(t, def.sort), Lower(def.sort.direction) == "desc")),
                       Some(IntTerm(limit))))
  {
    var p := StudyShape(t, def.rules, def.connectors);
    var c := SortColumn(t, def.sort);
    var descending := Lower(def.sort.direction) == "desc";
    StudyShapePrintable(t, def.rules, def.connectors);
    assert FeatureOk(FeatureById(t, def.sort.featureId).value);
    SortText(t, def.sort);
    SelectTextIsTail(Text(p), c, descending, limit);
    ParseTail(p, c, descending, limit);
    var head := "SELECT symbol FROM snapshot WHERE ";
    assert |head| == 34;
    var tail := Text(p) + TailText(c, descending, limit);
    assert (head + tail)[34..] == tail;
  }

  /** What the cache must tell apart. */
  ghost predicate SameStudy(a: Definition, m: int, b: Definition, n: int) {
    && a.universeId == b.universeId && a.rules == b.rules && a.connectors == b.connectors
    && a.sort.featureId == b.sort.featureId && Lower(a.sort.direction) == Lower(b.sort.direction)
    && m == n
  }

  /** Two accepted studies are hashed from the same text exactly when they are the same study. */
  lemma PreimageIdentifiesStudy(t: Tables, a: Definition, m: int, b: Definition, n: int)
    requires WellFormed(t) && Unambiguous(t) && Accepted(t, a) && Accepted(t, b)
    ensures Output(t, a, m).preimage == Output(t, b, n).preimage <==> SameStudy(a, m, b, n)
  {
    if Output(t, a, m).preimage == Output(t, b, n).preimage {
      EqualPreimages(t, a, m, b, n);
    }
  }

  lemma EqualPreimages(t: Tables, a: Definition, m: int, b: Definition, n: int)
    requires WellFormed(t) && Unambiguous(t) && Accepted(t, a) && Accepted(t, b)
    requires Output(t, a, m).preimage == Output(t, b, n).preimage
    ensures SameStudy(a, m, b, n)
  {
    StatementHasNoNewline(t, a, m);
    StatementHasNoNewline(t, b, n);
    SplitPreimages(a.universeId, Output(t, a, m).selectSql, b.universeId, Output(t, b, n).selectSql);
    EqualStatements(t, a, m, b, n);
  }

  lemma SortsAgree(t: Tables, s: Sort, s': Sort)
    requires Unambiguous(t) && CompileSort(t, s).Ok? && CompileSort(t, s').Ok?
    requires SortColumn(t, s) == SortColumn(t, s')
    requires Lower(s.direction) == "desc" <==> Lower(s'.direction) == "desc"
    ensures s.featureId == s'.featureId && Lower(s.direction) == Lower(s'.direction)
  {}

  lemma EqualStatements(t: Tables, a: Definition, m: int, b: Definition, n: int)
    requires WellFormed(t) && Unambiguous(t) && Accepted(t, a) && Accepted(t, b)
    requires Output(t, a, m).selectSql == Output(t, b, n).selectSql
    ensures a.rules == b.rules && a.connectors == b.connectors && a.sort.featureId == b.sort.featureId
    ensures Lower(a.sort.direction) == Lower(b.sort.direction) && m == n
  {
    hide Unambiguous, CheckRule, Shape, StudyShape, WellFormed, Output, Parse;
    var p, q := StudyShape(t, a.rules, a.connectors), StudyShape(t, b.rules, b.connectors);
    assert Ast(p) == Ast(q) && SortColumn(t, a.sort) == SortColumn(t, b.sort) && IntTerm(m) == IntTerm(n)
        && (Lower(a.sort.direction) == "desc" <==> Lower(b.sort.direction) == "desc") by {
      StatementParses(t, a, m);
      StatementParses(t, b, n);
      hide Ast, Lower, IntTerm;
    }
    IntTermInjective(m, n);
    SortsAgree(t, a.sort, b.sort);
    assert p == q by {
      StudyShapePrintable(t, a.rules, a.connectors);
      StudyShapePrintable(t, b.rules, b.connectors);
      AstInjective(p, q);
    }
    ShapeDeterminesRules(t, a.rules, a.connectors, b.rules, b.connectors);
  }

  lemma SplitPreimages(u: string, s: string, u': string, s': string)
    requires '\n' !in s && '\n' !in s' && Preimage(u, s) == Preimage(u', s')
    ensures u == u' && s == s'
  {
    var head := "compiler:" + COMPILER_VERSION + "\nuniverse:";
    LastNewlineSplits(head + u, s, head + u', s');
    assert (head + u)[|head|..] == u && (head + u')[|head|..] == u';
  }
}
