/** Compiled studies run over the snapshot table: which ones run, and what they return. */
module StudyQueries {
  import opened Core
  import opened Sql
  import opened Printer
  import opened Registry
  import opened Compiler
  import opened StudyKey
  import opened StudyTables
  import opened StudyRegistry
  import opened Snapshot
  import opened Splice

  // ----- Run's text -----

  lemma TermEnds(t: string)
    requires IsTermText(t)
    ensures t != "" && !IsTrimmed(t[0]) && !IsTrimmed(t[|t| - 1])
  {
    TermHasNoSpace(t);
    hide NumLen, IsTrimmed;
  }

  /** A compiled condition has no space around it, so TrimSpace leaves it alone. */
  lemma TextEnds(p: Printed)
    requires Printable(p)
    ensures TrimSpace(Text(p)) == Text(p) && Text(p) != ""
  {
    var s := Text(p);
    match p
    case Clause(l, y, r) =>
      TermEnds(l);
      TermEnds(r);
      assert s[0] == l[0] && s[|s| - 1] == r[|r| - 1];
      TrimKeeps(s);
    case Group(_, _, _) =>
      assert s[0] == '(' && s[|s| - 1] == ')';
      TrimKeeps(s);
  }

  ghost predicate CompiledFrom(s: Study, t: Tables, def: Definition) {
    Accepted(t, def) && s.where == Text(StudyShape(t, def.rules, def.connectors))
    && s.orderBy == CompileSort(t, def.sort).value
  }

  // ----- the rest of the statement -----

  ghost function SortWords(column: string, descending: bool): seq<string> {
    ["ORDER", "BY", column, Direction(descending)]
  }

  ghost function RestTokens(column: string, descending: bool, cut: Option<int>): seq<Token> {
    [Word("ORDER"), Word("BY"), Word(column), Word(Direction(descending))] + LimitTokens(cut)
  }

  lemma LexRest(column: string, descending: bool, cut: Option<int>)
    requires IsColumnText(column)
    ensures var rest := " ORDER BY " + (column + " " + Direction(descending)) + LimitText(cut);
      Lex(rest) == Some(RestTokens(column, descending, cut)) && Delimited(rest)
  {
    var end := LimitText(cut);
    var ws := SortWords(column, descending);
    assert IsName("ORDER") && IsName("BY") && IsName("ASC") && IsName("DESC");
    LexLimit(cut);
    LexSpaced(ws, end);
    SortText4(column, descending, end);
    assert WordTokens(ws) + LimitTokens(cut) == RestTokens(column, descending, cut) by {
      SortTokens4(column, descending);
    }
  }

  lemma SortText4(column: string, descending: bool, end: string)
    ensures Spaced(SortWords(column, descending), end) == " ORDER BY " + (column + " " + Direction(descending)) + end
  {
    var d := Direction(descending);
    var ws := SortWords(column, descending);
    assert ws[1..] == ["BY", column, d] && ws[1..][1..] == [column, d] && ws[1..][1..][1..] == [d];
    assert ws[1..][1..][1..][1..] == [];
    assert Spaced([d], end) == " " + (d + end);
    assert Spaced([column, d], end) == " " + (column + (" " + (d + end)));
    var sorted := column + (" " + (d + end));
    assert Spaced(["BY", column, d], end) == " BY " + sorted;
    assert " " + ("ORDER" + (" BY " + sorted)) == " ORDER BY " + sorted;
    assert (column + " " + d) + end == sorted;
  }

  lemma SortTokens4(column: string, descending: bool)
    ensures WordTokens(SortWords(column, descending)) == [Word("ORDER"), Word("BY"), Word(column), Word(Direction(descending))]
  {
    var d := Direction(descending);
    var ws := SortWords(column, descending);
    assert ws[1..] == ["BY", column, d] && ws[1..][1..] == [column, d] && ws[1..][1..][1..] == [d];
    assert ws[1..][1..][1..][1..] == [];
    assert WordTokens([d]) == [Word(d)];
    assert WordTokens([column, d]) == [Word(column), Word(d)];
  }

  lemma ParseRest(column: string, descending: bool, cut: Option<int>)
    requires IsColumnText(column)
    ensures var ts := RestTokens(column, descending, cut);
      !At(ts, "and") && !At(ts, "or")
      && ParseOrder(ts) == Some((Some(Order(column, descending)), LimitTokens(cut)))
  {
    LowerClauseWords();
    hide ParseOrder, Lower, LimitTokens;
    ParseOrderWords(column, descending, LimitTokens(cut));
  }

  // ----- the whole statement -----

  /** The query a compiled study stands for: the row is of the active date, and the rules hold of it. */
  ghost function CompiledQuery(t: Tables, def: Definition, cut: Option<int>): Query
    requires WellFormed(t) && Accepted(t, def)
  {
    var p := StudyShape(t, def.rules, def.connectors);
    StudyShapePrintable(t, def.rules, def.connectors);
    Query(And(DateTest(), Ast(p)), Some(Order(SortColumn(t, def.sort), Lower(def.sort.direction) == "desc")), LimitTerm(cut))
  }

  /** The statement Run builds for a compiled study parses to that query. Neither half of the condition can reach
      outside its parentheses. */
  lemma CompiledStatement(s: Study, t: Tables, def: Definition, cut: Option<int>)
    requires WellFormed(t) && CompiledFrom(s, t, def)
    ensures Parse(StatementWith(s, cut)) == Some(CompiledQuery(t, def, cut))
  {
    hide Parse, StatementWith;
    var p := StudyShape(t, def.rules, def.connectors);
    var column := SortColumn(t, def.sort);
    var descending := Lower(def.sort.direction) == "desc";
    StudyShapePrintable(t, def.rules, def.connectors);
    TextEnds(p);
    SortText(t, def.sort);
    assert FeatureOk(FeatureById(t, def.sort.featureId).value);
    StatementOf(s, p, column, descending, cut);
  }

  /** A printed condition is whole by itself. */
  lemma PrintedIsCondition(p: Printed)
    requires Printable(p)
    ensures IsCondition(Text(p), Tokens(p), Ast(p))
  {
    LexPrinted(p, "");
    ParsePrintedCondition(p, []);
    assert Text(p) + "" == Text(p) && Tokens(p) + [] == Tokens(p);
    assert Lex("") == Some([]);
    hide Lex, ParseOr, Tokens;
  }

  lemma StatementOf(s: Study, p: Printed, column: string, descending: bool, cut: Option<int>)
    requires Printable(p) && IsColumnText(column)
    requires TrimSpace(s.where) == Text(p) && Text(p) != "" && s.orderBy == column + " " + Direction(descending)
    ensures Parse(StatementWith(s, cut))
         == Some(Query(And(DateTest(), Ast(p)), Some(Order(column, descending)), LimitTerm(cut)))
  {
    hide Lex, Parse, TrimSpace, StatementWith, Text, LimitText, Direction, IsColumnText;
    PrintedIsCondition(p);
    assert ConditionText(s) == Text(p);
    WholeStatement(s, Tokens(p), Ast(p), cut);
    assert ClausesText(s, cut) == " ORDER BY " + (column + " " + Direction(descending)) + LimitText(cut);
    LexRest(column, descending, cut);
    ParseRest(column, descending, cut);
    ParseLimitPart(cut);
    hide RestTokens, Tokens, ParseOrder, ParseLimit, LimitTokens, Printable, IsCondition;
  }

  // ----- what a run returns -----

  /** A compiled study selects exactly the rows of the active date whose rules come out TRUE. */
  lemma CompiledRunSelects(s: Study, t: Tables, def: Definition, table: Table, active: int)
    requires WellFormed(t) && CompiledFrom(s, t, def) && Prepare(s).Some?
    ensures forall k :: k in Hits(Prepare(s).value, table, active) <==>
      (k in table && k.0 == active && TopToBottom(t, def.rules, def.connectors, RowEnv(table, k)).True?)
  {
    hide StudyShape, TopToBottom, Ast, StatementWith, Parse;
    CompiledStatement(s, t, def, if s.limit > 0 then Some(s.limit) else None);
    var q := Prepare(s).value;
    assert q.where == And(DateTest(), Ast(StudyShape(t, def.rules, def.connectors)));
    hide Prepare;
    forall k | k in table
      ensures Selects(q, table, k, active) <==>
        k.0 == active && TopToBottom(t, def.rules, def.connectors, RowEnv(table, k)).True?
    {
      ShapeMeansTopToBottom(t, def.rules, def.connectors, RowEnv(table, k), active as real);
      DateTestMeans(table, k, active);
    }
  }

  // ----- which compiled studies run at all -----

  predicate IsCross(t: Tables, r: Rule) {
    var op := OperatorById(t, r.operatorId);
    op.Some? && (op.value.cross || op.value.down)
  }

  ghost predicate CrossFree(t: Tables, rules: seq<Rule>) {
    forall i :: 0 <= i < |rules| ==> !IsCross(t, rules[i])
  }

  /** The mark of a prior-bar column. */
  ghost predicate Prior(c: string) { |c| > 1 && c[0] == 'p' && c[1] == 'r' }

  lemma NoPriorColumnA()
    ensures forall c :: c in ["snapshot_date", "timestamp"] + PRICE_COLUMNS + TREND_COLUMNS ==> !Prior(c)
  {}

  lemma NoPriorColumnB()
    ensures forall c :: c in MOMENTUM_COLUMNS + VOLATILITY_COLUMNS ==> !Prior(c)
  {}

  lemma NoPriorColumnC()
    ensures forall c :: c in STRUCTURE_COLUMNS + RETURN_COLUMNS + VOLUME_COLUMNS ==> !Prior(c)
  {}

  lemma NoPriorColumnD()
    ensures forall c :: c in OTHER_COLUMNS ==> !Prior(c)
  {}

  lemma NoPriorColumn()
    ensures forall c :: IsTableColumn(c) ==> !Prior(c)
  {
    hide Prior;
    NoPriorColumnA();
    NoPriorColumnB();
    NoPriorColumnC();
    NoPriorColumnD();
  }

  lemma PriorNames()
    ensures Prior("prev_close") && Prior("prev_sma50") && Prior("prev_sma200") && Prior("prev_rsi14")
  {}

  lemma PrevExprsArePrior()
    ensures forall f :: f in FEATURES && f.prevExpr != "" ==> Prior(f.prevExpr)
  {
    hide Prior;
    PriorNames();
  }

  lemma FeatureColumnsExist()
    ensures forall f :: f in FEATURES ==> IsTableColumn(f.sqlExpr)
  {}

  lemma OperandColumnsExist()
    ensures forall o :: o in OPERAND_COLUMNS ==> IsTableColumn(o.sqlExpr)
  {}

  lemma LevelsAreNotNames()
    ensures forall l :: l in RSI_LEVELS || l in PRICE_LEVELS ==> !IsName(l.sql)
    ensures forall l :: l in DOLLAR_VOL_LEVELS ==> !IsName(l.sql)
  {
    LevelsWhole();
    DollarVolLevelsWhole();
  }

  lemma PresetsAreNotNames(category: string, levels: seq<Preset>)
    requires forall l :: l in levels ==> !IsName(l.sql)
    ensures forall o :: o in Presets(category, levels) ==> !IsName(o.sqlExpr)
  {}

  lemma OperandColumnsKnown(o: Operand)
    requires o in OPERANDS
    ensures IsName(o.sqlExpr) ==> IsTableColumn(o.sqlExpr)
  {
    hide IsName, IsTableColumn;
    OperandColumnsExist();
    LevelsAreNotNames();
    PctNames();
    if o in Presets("RSI Level", RSI_LEVELS) {
      PresetsAreNotNames("RSI Level", RSI_LEVELS);
    } else if o in Presets("Price", PRICE_LEVELS) {
      PresetsAreNotNames("Price", PRICE_LEVELS);
    } else if o in Presets("Dollar Volume", DOLLAR_VOL_LEVELS) {
      PresetsAreNotNames("Dollar Volume", DOLLAR_VOL_LEVELS);
    } else if o in Presets("Return", PCT_LEVELS) {
      PresetsAreNotNames("Return", PCT_LEVELS);
    }
  }

  lemma PctNames()
    ensures forall l :: l in PCT_LEVELS ==> !IsName(l.sql)
  {}

  lemma {:induction false} StudyColumns(t: Tables, rules: seq<Rule>, connectors: seq<string>)
    requires Joined(t, rules, connectors)
    ensures ColumnsExist(Ast(StudyShape(t, rules, connectors)))
      <==> forall i :: 0 <= i < |rules| ==> ColumnsExist(Ast(Shape(t, rules[i])))
  {
    hide IsTableColumn, CheckRule, Shape;
    var k := |rules| - 1;
    if k == 0 {
      OneRuleShape(t, rules, connectors);
    } else {
      StudyShapeSteps(t, rules, connectors);
      StudyColumns(t, rules[..k], connectors[..k - 1]);
      assert forall i :: 0 <= i < |rules| ==> i == k || rules[i] == rules[..k][i];
    }
  }

  lemma ClauseColumns(l: string, y: string, r: string)
    ensures ColumnsExist(Ast(Clause(l, y, r)))
      <==> (IsName(l) ==> IsTableColumn(l)) && (IsName(r) ==> IsTableColumn(r))
  {}

  /** Every column a scalar rule can name is in the snapshot table, and no prior-bar column is. */
  ghost predicate FitsTable(t: Tables) {
    && (forall f :: f in t.features ==> IsTableColumn(f.sqlExpr) && (f.prevExpr != "" ==> !IsTableColumn(f.prevExpr)))
    && (forall o :: o in t.operands && IsName(o.sqlExpr) ==> IsTableColumn(o.sqlExpr))
  }

  lemma ShippedFitsTable()
    ensures FitsTable(Shipped())
  {
    hide IsTableColumn, IsName;
    FeatureColumnsExist();
    forall o | o in OPERANDS ensures IsName(o.sqlExpr) ==> IsTableColumn(o.sqlExpr) { OperandColumnsKnown(o); }
    assert forall f :: f in FEATURES && f.prevExpr != "" ==> !IsTableColumn(f.prevExpr) by {
      hide Prior;
      NoPriorColumn();
      PrevExprsArePrior();
    }
  }

  lemma RuleColumns(t: Tables, r: Rule)
    requires WellFormed(t) && FitsTable(t) && CheckRule(t, r).Ok?
    ensures ColumnsExist(Ast(Shape(t, r))) <==> !IsCross(t, r)
  {
    hide IsTableColumn, IsName;
    var (f, op, o) := CheckRule(t, r).value;
    assert FeatureOk(f);
    ShapeColumns(f, op, o);
  }

  lemma ShapeColumns(f: Feature, op: Operator, o: Operand)
    requires IsTableColumn(f.sqlExpr) && (IsName(o.sqlExpr) ==> IsTableColumn(o.sqlExpr))
    requires (op.cross || op.down) ==> IsName(f.prevExpr) && !IsTableColumn(f.prevExpr)
    ensures ColumnsExist(Ast(RuleShape(f, op, o))) <==> !(op.cross || op.down)
  {
    hide IsTableColumn, IsName;
    match RuleShape(f, op, o)
    case Clause(l, y, r) => ClauseColumns(l, y, r);
    case Group(a, _, b) =>
      ClauseColumns(b.left, b.symbol, b.right);
      assert Columns(Ast(b)) <= Columns(Ast(RuleShape(f, op, o)));
  }

  lemma {:induction false} PrintedHasNoParams(p: Printed)
    ensures Params(Ast(p)) == 0
  {
    if p.Group? {
      PrintedHasNoParams(p.l);
      PrintedHasNoParams(p.r);
    }
  }

  lemma CompiledQueryKnown(t: Tables, def: Definition, cut: Option<int>)
    requires WellFormed(t) && FitsTable(t) && Accepted(t, def)
    ensures Known(CompiledQuery(t, def, cut)) <==> CrossFree(t, def.rules)
  {
    hide IsTableColumn, ColumnsExist, IsCross, StudyShape, Shape;
    StudyColumns(t, def.rules, def.connectors);
    forall i | 0 <= i < |def.rules|
      ensures ColumnsExist(Ast(Shape(t, def.rules[i]))) <==> !IsCross(t, def.rules[i])
    {
      RuleColumns(t, def.rules[i]);
    }
    assert FeatureById(t, def.sort.featureId).value in t.features;
    DateTestAdds(Ast(StudyShape(t, def.rules, def.connectors)));
    PrintedHasNoParams(StudyShape(t, def.rules, def.connectors));
    hide Params, CheckRule;
  }

  /** A compiled study runs against the snapshot table exactly when no rule is a cross: cross rules
      name prior-bar columns that the table does not have. */
  lemma RunsExactlyWhenCrossFree(s: Study, t: Tables, def: Definition)
    requires WellFormed(t) && FitsTable(t) && CompiledFrom(s, t, def)
    ensures Prepare(s).Some? <==> CrossFree(t, def.rules)
  {
    var cut, explained := if s.limit > 0 then Some(s.limit) else None, Some(if s.limit > 0 then s.limit else 0);
    hide Known, CompiledQuery, StatementWith, Parse, CrossFree, FitsTable, WellFormed, CompiledFrom;
    CompiledStatement(s, t, def, cut);
    CompiledStatement(s, t, def, explained);
    assert Accepted(t, def) by { AcceptedFrom(s, t, def); }
    CompiledQueryKnown(t, def, cut);
    CompiledQueryKnown(t, def, explained);
  }

  lemma AcceptedFrom(s: Study, t: Tables, def: Definition)
    requires CompiledFrom(s, t, def)
    ensures Accepted(t, def)
  {}
}
