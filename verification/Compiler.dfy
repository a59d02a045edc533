/** The mechanical study compiler: ids in, SQL text out. */
module Compiler {
  import opened Core
  import opened Sql
  import opened Printer
  import opened Registry

  const COMPILER_VERSION := "v1"
  const MAX_RULES := 16
  const MAX_NAME_LEN := 120

  datatype Rule = Rule(leftId: string, operatorId: string, rightId: string)

  datatype Sort = Sort(featureId: string, direction: string)

  /** The client-supplied study. */
  datatype Definition = Definition(
    version: int,
    name: string,
    universeId: string,
    rules: seq<Rule>,
    connectors: seq<string>,
    sort: Sort)

  datatype RuleError = UnknownFeature | UnknownOperator | UnknownOperand | Incompatible | NoPriorBar

  datatype CompileError =
    | UnsupportedVersion(version: int)
    | NameTooLong
    | NoRules
    | TooManyRules
    | ConnectorCount
    | BadRule(number: nat, cause: RuleError)
    | UnknownConnector(connector: string)
    | BadSortFeature
    | BadSortDirection

  /** The WHERE expression, the ORDER BY clause, the whole statement, and the text that is hashed. */
  datatype Compiled = Compiled(where: string, orderBy: string, selectSql: string, preimage: string)

  // ----- one rule, one connector, one sort -----

  /** The shape of the SQL a legal triple compiles to. */
  function RuleShape(f: Feature, op: Operator, o: Operand): Printed {
    if op.cross || op.down then
      var now := if op.down then "<" else ">";
      var prev := if op.down then ">=" else "<=";
      Group(Clause(f.sqlExpr, now, o.sqlExpr), ConjAnd, Clause(f.prevExpr, prev, o.prevExpr))
    else Clause(f.sqlExpr, op.sql, o.sqlExpr)
  }

  function CheckRule(t: Tables, r: Rule): Result<(Feature, Operator, Operand), RuleError> {
    var f := FeatureById(t, r.leftId);
    if f.None? then Err(UnknownFeature)
    else
      var op := OperatorById(t, r.operatorId);
      if op.None? then Err(UnknownOperator)
      else
        var o := OperandById(t, r.rightId);
        if o.None? then Err(UnknownOperand)
        else if !Allowed(t.compat, f.value.id, op.value.id, o.value.id) then Err(Incompatible)
        else if (op.value.cross || op.value.down) && (f.value.prevExpr == "" || o.value.prevExpr == "") then Err(NoPriorBar)
        else Ok((f.value, op.value, o.value))
  }

  function CompilePredicate(t: Tables, r: Rule): Result<string, RuleError> {
    match CheckRule(t, r)
    case Err(e) => Err(e)
    case Ok((f, op, o)) =>
      if op.cross || op.down then
        var now := if op.down then "<" else ">";
        var prev := if op.down then ">=" else "<=";
        Ok("(" + f.sqlExpr + " " + now + " " + o.sqlExpr + " AND " + f.prevExpr + " " + prev + " " + o.prevExpr + ")")
      else Ok(f.sqlExpr + " " + op.sql + " " + o.sqlExpr)
  }

  function ConnectiveOf(c: string): Option<Connective> {
    if c == "and" then Some(ConjAnd) else if c == "or" then Some(ConjOr) else None
  }

  function CompileConnector(c: string): Result<string, CompileError> {
    if c == "and" then Ok("AND") else if c == "or" then Ok("OR") else Err(UnknownConnector(c))
  }

  function CompileSort(t: Tables, s: Sort): Result<string, CompileError> {
    var f := FeatureById(t, s.featureId);
    if f.None? || !f.value.sortable then Err(BadSortFeature)
    else if Lower(s.direction) == "asc" then Ok(f.value.sqlExpr + " ASC")
    else if Lower(s.direction) == "desc" then Ok(f.value.sqlExpr + " DESC")
    else Err(BadSortDirection)
  }

  function SelectText(where: string, order: string, limit: int): string {
    "SELECT symbol FROM snapshot WHERE " + where + " ORDER BY " + order + " LIMIT " + IntText(limit)
  }

  function Preimage(universe: string, sql: string): string {
    "compiler:" + COMPILER_VERSION + "\nuniverse:" + universe + "\n" + sql
  }

  // ----- a whole study -----

  /** The first rule that does not compile. */
  function RuleFault(t: Tables, rules: seq<Rule>): (r: Option<CompileError>)
    ensures r.None? <==> forall i :: 0 <= i < |rules| ==> CheckRule(t, rules[i]).Ok?
  {
    if rules == [] then None
    else
      var k := |rules| - 1;
      var earlier := RuleFault(t, rules[..k]);
      if earlier.Some? then earlier
      else match CheckRule(t, rules[k])
        case Ok(_) => None
        case Err(e) => Some(BadRule(k + 1, e))
  }

  /** The first connector that is neither "and" nor "or". */
  function ConnectorFault(connectors: seq<string>): (r: Option<CompileError>)
    ensures r.None? <==> forall i :: 0 <= i < |connectors| ==> ConnectiveOf(connectors[i]).Some?
  {
    if connectors == [] then None
    else
      var k := |connectors| - 1;
      var earlier := ConnectorFault(connectors[..k]);
      if earlier.Some? then earlier
      else if ConnectiveOf(connectors[k]).None? then Some(UnknownConnector(connectors[k]))
      else None
  }

  /** Why a definition is rejected: the first check that fails, in the order in which the checks are made. */
  function Fault(t: Tables, def: Definition): Option<CompileError> {
    if def.version != 1 then Some(UnsupportedVersion(def.version))
    else if |def.name| > MAX_NAME_LEN then Some(NameTooLong)
    else if |def.rules| == 0 then Some(NoRules)
    else if |def.rules| > MAX_RULES then Some(TooManyRules)
    else if |def.connectors| != |def.rules| - 1 then Some(ConnectorCount)
    else if RuleFault(t, def.rules).Some? then RuleFault(t, def.rules)
    else if ConnectorFault(def.connectors).Some? then ConnectorFault(def.connectors)
    else match CompileSort(t, def.sort)
      case Err(e) => Some(e)
      case Ok(_) => None
  }

  predicate Accepted(t: Tables, def: Definition) { Fault(t, def).None? }

  /** Rules that all pass, with as many good connectors as there are gaps between them. */
  predicate Joined(t: Tables, rules: seq<Rule>, connectors: seq<string>) {
    && |rules| > 0 && |connectors| == |rules| - 1
    && (forall i :: 0 <= i < |rules| ==> CheckRule(t, rules[i]).Ok?)
    && (forall i :: 0 <= i < |connectors| ==> ConnectiveOf(connectors[i]).Some?)
  }

  function Shape(t: Tables, r: Rule): Printed
    requires CheckRule(t, r).Ok?
  {
    var (f, op, o) := CheckRule(t, r).value;
    RuleShape(f, op, o)
  }

  ghost function Shapes(t: Tables, rules: seq<Rule>): (r: seq<Printed>)
    requires RuleFault(t, rules).None?
    ensures |r| == |rules|
  {
    seq(|rules|, i requires 0 <= i < |rules| => Shape(t, rules[i]))
  }

  /** Conditions nested to the left: each connector groups all that stands before it. */
  ghost function JoinShapes(shapes: seq<Printed>, connectors: seq<string>): Printed
    requires |shapes| == |connectors| + 1
    requires ConnectorFault(connectors).None?
  {
    var k := |connectors|;
    if k == 0 then shapes[0]
    else Group(JoinShapes(shapes[..k], connectors[..k - 1]), ConnectiveOf(connectors[k - 1]).value, shapes[k])
  }

  ghost function StudyShape(t: Tables, rules: seq<Rule>, connectors: seq<string>): Printed
    requires Joined(t, rules, connectors)
  {
    JoinShapes(Shapes(t, rules), connectors)
  }

  ghost function Output(t: Tables, def: Definition, limit: int): Compiled
    requires Accepted(t, def)
  {
    var where := Text(StudyShape(t, def.rules, def.connectors));
    var order := CompileSort(t, def.sort).value;
    var sel := SelectText(where, order, limit);
    Compiled(where, order, sel, Preimage(def.universeId, sel))
  }

  lemma PredicateText(t: Tables, r: Rule)
    ensures CompilePredicate(t, r).Ok? <==> CheckRule(t, r).Ok?
    ensures CheckRule(t, r).Ok? ==> CompilePredicate(t, r) == Ok(Text(Shape(t, r)))
    ensures CheckRule(t, r).Err? ==> CompilePredicate(t, r) == Err(CheckRule(t, r).error)
  {
    if CheckRule(t, r).Ok? {
      var (f, op, o) := CheckRule(t, r).value;
      if op.cross || op.down {
        var now := if op.down then "<" else ">";
        var prev := if op.down then ">=" else "<=";
        var a := f.sqlExpr + " " + now + " " + o.sqlExpr;
        var b := f.prevExpr + " " + prev + " " + o.prevExpr;
        var joined := "(" + a + " " + "AND" + " " + b + ")";
        assert Text(Shape(t, r)) == joined;
        CrossText(f.sqlExpr, now, o.sqlExpr, f.prevExpr, prev, o.prevExpr);
      }
    }
  }

  lemma CrossText(a: string, b: string, c: string, d: string, e: string, f: string)
    ensures "(" + a + " " + b + " " + c + " AND " + d + " " + e + " " + f + ")"
         == "(" + (a + " " + b + " " + c) + " " + "AND" + " " + (d + " " + e + " " + f) + ")"
  {}

  ghost predicate AreTexts(predicates: seq<string>, shapes: seq<Printed>) {
    |predicates| == |shapes| && forall j :: 0 <= j < |shapes| ==> predicates[j] == Text(shapes[j])
  }

  /** One predicate per rule, or the first rule's error. */
  method CompileRules(t: Tables, rules: seq<Rule>) returns (r: Result<seq<string>, CompileError>)
    ensures RuleFault(t, rules).Some? ==> r == Err(RuleFault(t, rules).value)
    ensures RuleFault(t, rules).None? ==> r.Ok? && AreTexts(r.value, Shapes(t, rules))
  {
    hide CheckRule, Shape;
    var predicates: seq<string> := [];
    for i := 0 to |rules|
      invariant RuleFault(t, rules[..i]).None?
      invariant AreTexts(predicates, Shapes(t, rules[..i]))
    {
      var p := CompileOne(t, rules[i]);
      assert rules[..i + 1][..i] == rules[..i];
      if p.Err? {
        FirstRuleFault(t, rules, i);
        return Err(BadRule(i + 1, p.error));
      }
      predicates := predicates + [p.value];
      assert Shapes(t, rules[..i + 1]) == Shapes(t, rules[..i]) + [Shape(t, rules[i])];
    }
    assert rules[..|rules|] == rules;
    return Ok(predicates);
  }

  method CompileOne(t: Tables, r: Rule) returns (p: Result<string, RuleError>)
    ensures CheckRule(t, r).Ok? ==> p == Ok(Text(Shape(t, r)))
    ensures CheckRule(t, r).Err? ==> p == Err(CheckRule(t, r).error)
  {
    PredicateText(t, r);
    p := CompilePredicate(t, r);
  }

  /** The expression grows from the left, parenthesised at every step. */
  method JoinPredicates(ghost shapes: seq<Printed>, predicates: seq<string>, connectors: seq<string>)
      returns (r: Result<string, CompileError>)
    requires AreTexts(predicates, shapes) && |shapes| == |connectors| + 1
    ensures ConnectorFault(connectors).Some? ==> r == Err(ConnectorFault(connectors).value)
    ensures ConnectorFault(connectors).None? ==> r == Ok(Text(JoinShapes(shapes, connectors)))
  {
    var expr := predicates[0];
    for i := 1 to |predicates|
      invariant ConnectorFault(connectors[..i - 1]).None?
      invariant expr == Text(JoinShapes(shapes[..i], connectors[..i - 1]))
    {
      assert connectors[..i][..i - 1] == connectors[..i - 1];
      assert shapes[..i + 1][..i] == shapes[..i];
      var conn := CompileConnector(connectors[i - 1]);
      if conn.Err? {
        FirstConnectorFault(connectors, i - 1);
        return Err(conn.error);
      }
      expr := "(" + expr + " " + conn.value + " " + predicates[i] + ")";
    }
    assert connectors[..|connectors|] == connectors && shapes[..|shapes|] == shapes;
    return Ok(expr);
  }

  lemma StudyShapeSteps(t: Tables, rules: seq<Rule>, connectors: seq<string>)
    requires Joined(t, rules, connectors) && |connectors| > 0
    ensures var k := |connectors|;
      Joined(t, rules[..k], connectors[..k - 1])
      && StudyShape(t, rules, connectors)
         == Group(StudyShape(t, rules[..k], connectors[..k - 1]), ConnectiveOf(connectors[k - 1]).value, Shape(t, rules[k]))
  {
    var k := |connectors|;
    assert Shapes(t, rules)[..k] == Shapes(t, rules[..k]);
  }

  /** Validate, compile each rule, join them, add the sort and the limit. */
  method Compile(t: Tables, def: Definition, limit: int) returns (r: Result<Compiled, CompileError>)
    ensures r == match Fault(t, def) case Some(e) => Err(e) case None => Ok(Output(t, def, limit))
  {
    if def.version != 1 { return Err(UnsupportedVersion(def.version)); }
    if |def.name| > MAX_NAME_LEN { return Err(NameTooLong); }
    var n := |def.rules|;
    if n == 0 { return Err(NoRules); }
    if n > MAX_RULES { return Err(TooManyRules); }
    if |def.connectors| != n - 1 { return Err(ConnectorCount); }
    var predicates := CompileRules(t, def.rules);
    if predicates.Err? { return Err(predicates.error); }
    var expr := JoinPredicates(Shapes(t, def.rules), predicates.value, def.connectors);
    if expr.Err? { return Err(expr.error); }
    match CompileSort(t, def.sort) {
      case Err(e) => return Err(e);
      case Ok(order) =>
        var sel := SelectText(expr.value, order, limit);
        return Ok(Compiled(expr.value, order, sel, Preimage(def.universeId, sel)));
    }
  }

  lemma {:induction false} FirstRuleFault(t: Tables, rules: seq<Rule>, i: nat)
    requires i < |rules| && RuleFault(t, rules[..i]).None? && CheckRule(t, rules[i]).Err?
    ensures RuleFault(t, rules) == Some(BadRule(i + 1, CheckRule(t, rules[i]).error))
  {
    hide CheckRule;
    var k := |rules| - 1;
    if i < k {
      assert rules[..k][..i] == rules[..i];
      FirstRuleFault(t, rules[..k], i);
    }
  }

  lemma {:induction false} FirstConnectorFault(connectors: seq<string>, i: nat)
    requires i < |connectors| && ConnectorFault(connectors[..i]).None? && ConnectiveOf(connectors[i]).None?
    ensures ConnectorFault(connectors) == Some(UnknownConnector(connectors[i]))
  {
    var k := |connectors| - 1;
    if i < k {
      assert connectors[..k][..i] == connectors[..i];
      FirstConnectorFault(connectors[..k], i);
    }
  }

  // ----- what a study means -----

  /** What a column name or literal reads as on a row. */
  function Reading(text: string, row: Env): Option<real> { TermValue(TermOf(text), row, 0.0) }

  /** A scalar rule compares this bar; a cross also asks that the other side held last bar. */
  function RuleTruth(t: Tables, r: Rule, row: Env): Truth
    requires CheckRule(t, r).Ok?
  {
    var (f, op, o) := CheckRule(t, r).value;
    var left, right := Reading(f.sqlExpr, row), Reading(o.sqlExpr, row);
    var leftBefore, rightBefore := Reading(f.prevExpr, row), Reading(o.prevExpr, row);
    if op.down then And3(Compare(Lt, left, right), Compare(Ge, leftBefore, rightBefore))
    else if op.cross then And3(Compare(Gt, left, right), Compare(Le, leftBefore, rightBefore))
    else Compare(SymbolOp(op.sql), left, right)
  }

  /** Strict top-to-bottom evaluation: each connector joins everything above it to the next rule. */
  function TopToBottom(t: Tables, rules: seq<Rule>, connectors: seq<string>, row: Env): Truth
    requires Joined(t, rules, connectors)
  {
    var k := |rules| - 1;
    if k == 0 then RuleTruth(t, rules[0], row)
    else
      var above := TopToBottom(t, rules[..k], connectors[..k - 1], row);
      if connectors[k - 1] == "and" then And3(above, RuleTruth(t, rules[k], row))
      else Or3(above, RuleTruth(t, rules[k], row))
  }

  lemma RuleShapePrintable(t: Tables, r: Rule)
    requires WellFormed(t) && CheckRule(t, r).Ok?
    ensures Printable(Shape(t, r))
  {}

  lemma {:induction false} StudyShapePrintable(t: Tables, rules: seq<Rule>, connectors: seq<string>)
    requires WellFormed(t) && Joined(t, rules, connectors)
    ensures Printable(StudyShape(t, rules, connectors))
  {
    var k := |rules| - 1;
    RuleShapePrintable(t, rules[k]);
    if k > 0 {
      StudyShapeSteps(t, rules, connectors);
      StudyShapePrintable(t, rules[..k], connectors[..k - 1]);
    }
  }

  lemma {:induction false} ShapeMeansTopToBottom(t: Tables, rules: seq<Rule>, connectors: seq<string>, row: Env, param: real)
    requires Joined(t, rules, connectors)
    requires WellFormed(t)
    ensures Eval(Ast(StudyShape(t, rules, connectors)), row, param) == TopToBottom(t, rules, connectors, row)
  {
    var k := |rules| - 1;
    RuleShapeMeans(t, rules[k], row, param);
    if k > 0 {
      StudyShapeSteps(t, rules, connectors);
      ShapeMeansTopToBottom(t, rules[..k], connectors[..k - 1], row, param);
    }
  }

  lemma RuleShapeMeans(t: Tables, r: Rule, row: Env, param: real)
    requires CheckRule(t, r).Ok?
    ensures Eval(Ast(Shape(t, r)), row, param) == RuleTruth(t, r, row)
  {
    var (f, op, o) := CheckRule(t, r).value;
    match Shape(t, r)
    case Clause(x, y, z) => ClauseMeans(x, y, z, row, param);
    case Group(a, _, b) =>
      ClauseMeans(a.left, a.symbol, a.right, row, param);
      ClauseMeans(b.left, b.symbol, b.right, row, param);
  }

  lemma ClauseMeans(l: string, y: string, r: string, row: Env, param: real)
    ensures Eval(Ast(Clause(l, y, r)), row, param) == Compare(SymbolOp(y), Reading(l, row), Reading(r, row))
  {}

  /** Parsing the emitted WHERE text under SQL precedence and evaluating it in three-valued logic
      gives the strict top-to-bottom reading of the rules, on every row. */
  lemma CompiledMeansTopToBottom(t: Tables, def: Definition, limit: int, row: Env, param: real)
    requires WellFormed(t) && Accepted(t, def)
    ensures var q := Parse(Output(t, def, limit).where);
      && q.Some? && q.value.order.None? && q.value.limit.None?
      && Eval(q.value.where, row, param) == TopToBottom(t, def.rules, def.connectors, row)
  {
    var p := StudyShape(t, def.rules, def.connectors);
    StudyShapePrintable(t, def.rules, def.connectors);
    ParseText(p);
    ShapeMeansTopToBottom(t, def.rules, def.connectors, row, param);
  }

  lemma ParseText(p: Printed)
    requires Printable(p)
    ensures Parse(Text(p)) == Some(Query(Ast(p), None, None))
  {
    LexPrinted(p, "");
    assert Text(p) + "" == Text(p) && Tokens(p) + [] == Tokens(p);
    ParsePrintedCondition(p, []);
  }
}
