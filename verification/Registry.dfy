/** The server-owned vocabulary of studies: features, operators, operands, and which triples are
    legal. The tables are parameters here; StudyRegistry holds the shipped ones. */
module Registry {
  import opened Core
  import opened Printer

  datatype Feature = Feature(id: string, category: string, sqlExpr: string, prevExpr: string, sortable: bool)

  datatype Operator = Operator(id: string, sql: string, cross: bool, down: bool)

  datatype Operand = Operand(id: string, category: string, sqlExpr: string, prevExpr: string, column: bool)

  type Compat = map<string, map<string, set<string>>>

  datatype Tables = Tables(
    features: seq<Feature>,
    operators: seq<Operator>,
    operands: seq<Operand>,
    compat: Compat)

  // ----- lookup by id -----

  /** The item an index built from the list holds under an id: the last one wins. */
  function Lookup<T>(items: seq<T>, key: T -> string, id: string): (r: Option<T>)
    ensures r.Some? ==> r.value in items && key(r.value) == id
    ensures r.None? ==> forall it :: it in items ==> key(it) != id
  {
    if items == [] then None
    else
      var last := items[|items| - 1];
      if key(last) == id then Some(last) else Lookup(items[..|items| - 1], key, id)
  }

  /** Builds the map that answers lookups by id. */
  method Index<T>(items: seq<T>, key: T -> string) returns (m: map<string, T>)
    ensures forall id :: (id in m <==> Lookup(items, key, id).Some?)
    ensures forall id :: id in m ==> Lookup(items, key, id) == Some(m[id])
  {
    m := map[];
    for i := 0 to |items|
      invariant forall id :: (id in m <==> Lookup(items[..i], key, id).Some?)
      invariant forall id :: id in m ==> Lookup(items[..i], key, id) == Some(m[id])
    {
      assert items[..i + 1][..i] == items[..i];
      m := m[key(items[i]) := items[i]];
    }
    assert items[..|items|] == items;
  }

  predicate DistinctKeys<T>(items: seq<T>, key: T -> string) {
    forall i, j :: 0 <= i < j < |items| ==> key(items[i]) != key(items[j])
  }

  /** With distinct ids, looking an item up by its own id finds it. */
  lemma {:induction false} LookupOwnId<T>(items: seq<T>, key: T -> string, it: T)
    requires DistinctKeys(items, key) && it in items
    ensures Lookup(items, key, key(it)) == Some(it)
  {}

  function FeatureById(t: Tables, id: string): Option<Feature> {
    Lookup(t.features, (f: Feature) => f.id, id)
  }

  function OperatorById(t: Tables, id: string): Option<Operator> {
    Lookup(t.operators, (o: Operator) => o.id, id)
  }

  function OperandById(t: Tables, id: string): Option<Operand> {
    Lookup(t.operands, (o: Operand) => o.id, id)
  }

  // ----- the compatibility matrix -----

  predicate Allowed(c: Compat, f: string, op: string, o: string) {
    f in c && op in c[f] && o in c[f][op]
  }

  function Members(xs: seq<string>): set<string> { set x | x in xs }

  function WithOperands(byOp: map<string, set<string>>, op: string, operands: set<string>): map<string, set<string>> {
    byOp[op := (if op in byOp then byOp[op] else {}) + operands]
  }

  function WithOperators(byOp: map<string, set<string>>, ops: seq<string>, operands: set<string>): map<string, set<string>> {
    if ops == [] then byOp
    else WithOperands(WithOperators(byOp, ops[..|ops| - 1], operands), ops[|ops| - 1], operands)
  }

  /** The matrix with the operands permitted to a feature under each of some operators. */
  function Allow(c: Compat, f: string, ops: seq<string>, operands: seq<string>): Compat {
    c[f := WithOperators(if f in c then c[f] else map[], ops, Members(operands))]
  }

  /** Permits a feature its operands, writing one operand at a time into the maps. */
  method AllowByLoops(c0: Compat, f: string, ops: seq<string>, operands: seq<string>) returns (c: Compat)
    ensures c == Allow(c0, f, ops, operands)
  {
    c := c0;
    if f !in c {
      c := c[f := map[]];
    }
    ghost var start := c[f];
    for i := 0 to |ops|
      invariant f in c && c == c0[f := c[f]]
      invariant c[f] == WithOperators(start, ops[..i], Members(operands))
    {
      var byOp := AllowUnder(c[f], ops[i], operands);
      c := c[f := byOp];
      assert ops[..i + 1][..i] == ops[..i];
    }
    assert ops[..|ops|] == ops;
  }

  /** The inner loop: one operator's set grows operand by operand. */
  method AllowUnder(byOp0: map<string, set<string>>, op: string, operands: seq<string>)
    returns (byOp: map<string, set<string>>)
    ensures byOp == WithOperands(byOp0, op, Members(operands))
  {
    byOp := byOp0;
    if op !in byOp {
      byOp := byOp[op := {}];
    }
    ghost var had := byOp[op];
    assert operands[..0] == [] && had + Members([]) == had;
    for j := 0 to |operands|
      invariant byOp == byOp0[op := had + Members(operands[..j])]
    {
      assert operands[..j + 1] == operands[..j] + [operands[j]];
      assert (had + Members(operands[..j])) + {operands[j]} == had + Members(operands[..j + 1]);
      byOp := byOp[op := byOp[op] + {operands[j]}];
    }
    assert operands[..|operands|] == operands;
  }

  lemma {:induction false} WithOperatorsAdds(
      byOp: map<string, set<string>>, ops: seq<string>, operands: set<string>, op: string, o: string)
    ensures var r := WithOperators(byOp, ops, operands);
      (op in r && o in r[op]) <==> ((op in byOp && o in byOp[op]) || (op in ops && o in operands))
  {
    if ops != [] {
      var k := |ops| - 1;
      WithOperatorsAdds(byOp, ops[..k], operands, op, o);
      assert ops == ops[..k] + [ops[k]];
    }
  }

  /** Allow adds exactly the product of its arguments to the legal triples. */
  lemma AllowAdds(c: Compat, f: string, ops: seq<string>, operands: seq<string>, f': string, op: string, o: string)
    ensures Allowed(Allow(c, f, ops, operands), f', op, o)
       <==> Allowed(c, f', op, o) || (f' == f && op in ops && o in operands)
  {
    WithOperatorsAdds(if f in c then c[f] else map[], ops, Members(operands), op, o);
  }

  // ----- what the compiler rests on -----

  predicate FeatureOk(f: Feature) {
    IsColumnText(f.sqlExpr) && (f.prevExpr == "" || IsColumnText(f.prevExpr))
  }

  predicate OperandOk(o: Operand) {
    IsTermText(o.sqlExpr) && (o.prevExpr == "" || IsTermText(o.prevExpr))
  }

  predicate OperatorOk(op: Operator) {
    op.cross || op.down || IsSymbol(op.sql)
  }

  /** Every SQL fragment in the tables is a column name, a number or a comparison symbol. */
  ghost predicate WellFormed(t: Tables) {
    && (forall f :: f in t.features ==> FeatureOk(f))
    && (forall op :: op in t.operators ==> OperatorOk(op))
    && (forall o :: o in t.operands ==> OperandOk(o))
  }

  /** Two operators that the compiler prints alike. */
  predicate SameComparison(op: Operator, oq: Operator) {
    op.cross == oq.cross && op.down == oq.down && (op.cross || op.down || op.sql == oq.sql)
  }

  /** What makes ids recoverable from the SQL they compile to. */
  ghost predicate Unambiguous(t: Tables) {
    && (forall f, g :: f in t.features && g in t.features && f.sqlExpr == g.sqlExpr ==> f.id == g.id)
    && (forall f, g :: f in t.features && g in t.features ==> f.sqlExpr != g.prevExpr)
    && (forall op, oq :: op in t.operators && oq in t.operators && SameComparison(op, oq) ==> op.id == oq.id)
    && (forall op :: op in t.operators ==> !(op.cross && op.down))
    && (forall f, op, o, q | o in t.operands && q in t.operands && o.sqlExpr == q.sqlExpr ::
          Allowed(t.compat, f, op, o.id) && Allowed(t.compat, f, op, q.id) ==> o.id == q.id)
  }
}
