/** The catalog the editor is offered: the legal triples of the registry, operands in registry order. */
module Catalog {
  import opened Listing
  import opened Registry
  import opened Compiler
  import opened StudyTables
  import opened StudyRegistry

  datatype CatFeature = CatFeature(id: string, sortable: bool, operatorIds: seq<string>)

  datatype Catalog = Catalog(
    features: seq<CatFeature>, compat: map<string, map<string, seq<string>>>, sortFeatures: seq<string>)

  /** Reading a Go map at a missing key gives zero. */
  function OrderOf(order: map<string, int>, id: string): int { if id in order then order[id] else 0 }

  ghost predicate SortedBy(ids: seq<string>, order: map<string, int>) {
    forall i, j :: 0 <= i < j < |ids| ==> OrderOf(order, ids[i]) <= OrderOf(order, ids[j])
  }

  // ----- the in-place insertion sort -----

  /** The first n ids are in order, apart from the one at j that is still moving down. */
  ghost predicate SortedBut(ids: seq<string>, n: nat, j: int, order: map<string, int>)
    requires n <= |ids|
  {
    forall p, q :: 0 <= p < q < n && q != j ==> OrderOf(order, ids[p]) <= OrderOf(order, ids[q])
  }

  lemma {:induction false} SwapKeeps(ids: seq<string>, n: nat, j: nat, order: map<string, int>, swapped: seq<string>)
    requires 0 < j < n <= |ids| && SortedBut(ids, n, j, order) && OrderOf(order, ids[j]) < OrderOf(order, ids[j - 1])
    requires swapped == ids[j := ids[j - 1]][j - 1 := ids[j]]
    ensures SortedBut(swapped, n, j - 1, order) && multiset(swapped) == multiset(ids)
  {}

  method Insert(ids: array<string>, i: nat, order: map<string, int>)
    requires i < ids.Length && SortedBut(ids[..], i, -1, order)
    modifies ids
    ensures SortedBut(ids[..], i + 1, -1, order) && multiset(ids[..]) == multiset(old(ids[..]))
  {
    hide OrderOf, SortedBut;
    NothingMoving(ids[..], i, order);
    var j := i;
    while j > 0 && OrderOf(order, ids[j]) < OrderOf(order, ids[j - 1])
      invariant 0 <= j <= i
      invariant SortedBut(ids[..], i + 1, j, order)
      invariant multiset(ids[..]) == multiset(old(ids[..]))
    {
      ghost var before := ids[..];
      ids[j], ids[j - 1] := ids[j - 1], ids[j];
      SwapKeeps(before, i + 1, j, order, ids[..]);
      j := j - 1;
    }
    Settled(ids[..], i + 1, j, order);
  }

  lemma NothingMoving(ids: seq<string>, i: nat, order: map<string, int>)
    requires i < |ids| && SortedBut(ids, i, -1, order)
    ensures SortedBut(ids, i + 1, i, order)
  {}

  lemma Settled(ids: seq<string>, n: nat, j: nat, order: map<string, int>)
    requires j < n <= |ids| && SortedBut(ids, n, j, order)
    requires j > 0 ==> OrderOf(order, ids[j - 1]) <= OrderOf(order, ids[j])
    ensures SortedBut(ids, n, -1, order)
  {}

  method SortByOrder(ids: array<string>, order: map<string, int>)
    modifies ids
    ensures SortedBy(ids[..], order)
    ensures multiset(ids[..]) == multiset(old(ids[..]))
  {
    var i := 1;
    while i < ids.Length
      invariant 1 <= i
      invariant if i <= ids.Length then SortedBut(ids[..], i, -1, order) else ids.Length == 0
      invariant multiset(ids[..]) == multiset(old(ids[..]))
    {
      Insert(ids, i, order);
      i := i + 1;
    }
  }

  // ----- building the catalog -----

  /** The position the order map holds for an id: its last one in the table, 0 for an unknown id. */
  function Position(operands: seq<Operand>, id: string): int {
    if operands == [] then 0
    else
      var k := |operands| - 1;
      if operands[k].id == id then k else Position(operands[..k], id)
  }

  method Positions(operands: seq<Operand>) returns (order: map<string, int>)
    ensures forall id :: OrderOf(order, id) == Position(operands, id)
  {
    order := map[];
    for i := 0 to |operands|
      invariant forall id :: OrderOf(order, id) == Position(operands[..i], id)
    {
      assert operands[..i + 1][..i] == operands[..i];
      order := order[operands[i].id := i];
    }
    assert operands[..|operands|] == operands;
  }

  /** Iterates over a set as Go does over a map: in no particular order. */
  method InAnyOrder(s: set<string>) returns (ids: array<string>)
    ensures multiset(ids[..]) == multiset(s) && fresh(ids)
  {
    var found: seq<string> := [];
    var rest := s;
    while rest != {}
      invariant multiset(found) + multiset(rest) == multiset(s)
      decreases |rest|
    {
      ghost var some := Member(rest);
      var id :| id in rest;
      found, rest := found + [id], rest - {id};
    }
    ids := new string[|found|](i requires 0 <= i < |found| => found[i]);
    assert ids[..] == found;
  }

  /** A listing of a set of operands in registry order. */
  ghost predicate Ordering(ids: seq<string>, s: set<string>, t: Tables) {
    && multiset(ids) == multiset(s)
    && forall i, j :: 0 <= i < j < |ids| ==> Position(t.operands, ids[i]) <= Position(t.operands, ids[j])
  }

  function OperatorsFor(operators: seq<Operator>, ops: map<string, set<string>>): seq<string> {
    if operators == [] then []
    else
      var k := |operators| - 1;
      OperatorsFor(operators[..k], ops) + (if operators[k].id in ops then [operators[k].id] else [])
  }

  predicate Offered(t: Tables, f: string) { f in t.compat && t.compat[f] != map[] }

  function OfferedFeatures(t: Tables, features: seq<Feature>): seq<CatFeature> {
    if features == [] then []
    else
      var f := features[|features| - 1];
      OfferedFeatures(t, features[..|features| - 1])
      + (if Offered(t, f.id) then [CatFeature(f.id, f.sortable, OperatorsFor(t.operators, t.compat[f.id]))] else [])
  }

  function SortableIds(features: seq<CatFeature>): seq<string> {
    if features == [] then []
    else
      var k := |features| - 1;
      SortableIds(features[..k]) + (if features[k].sortable then [features[k].id] else [])
  }

  ghost predicate ListsOperands(
    t: Tables, ops: map<string, set<string>>, operators: seq<Operator>, byOp: map<string, seq<string>>)
  {
    && (forall op :: op in byOp <==> op in ops && op in OperatorsFor(operators, ops))
    && (forall op :: op in byOp ==> Ordering(byOp[op], ops[op], t))
  }

  method OperandLists(t: Tables, order: map<string, int>, ops: map<string, set<string>>)
    returns (opIds: seq<string>, byOp: map<string, seq<string>>)
    requires forall id :: OrderOf(order, id) == Position(t.operands, id)
    ensures opIds == OperatorsFor(t.operators, ops) && ListsOperands(t, ops, t.operators, byOp)
  {
    opIds, byOp := [], map[];
    for i := 0 to |t.operators|
      invariant opIds == OperatorsFor(t.operators[..i], ops) && ListsOperands(t, ops, t.operators[..i], byOp)
    {
      var op := t.operators[i].id;
      assert t.operators[..i + 1][..i] == t.operators[..i];
      if op !in ops {
        continue;
      }
      opIds := opIds + [op];
      var operands := InAnyOrder(ops[op]);
      SortByOrder(operands, order);
      byOp := byOp[op := operands[..]];
    }
    assert t.operators[..|t.operators|] == t.operators;
  }

  /** What the catalog says: the offered features with their operators, and for each pair its operands in
      registry order. */
  ghost predicate Projects(t: Tables, features: seq<Feature>, c: Catalog) {
    && c.features == OfferedFeatures(t, features)
    && c.sortFeatures == SortableIds(c.features)
    && (forall f :: f in c.compat <==> Offered(t, f) && exists i :: 0 <= i < |features| && features[i].id == f)
    && (forall f :: f in c.compat ==> ListsOperands(t, t.compat[f], t.operators, c.compat[f]))
  }

  method BuildCatalog(t: Tables) returns (c: Catalog)
    ensures Projects(t, t.features, c)
  {
    var order := Positions(t.operands);
    c := Catalog([], map[], []);
    for i := 0 to |t.features|
      invariant Projects(t, t.features[..i], c)
    {
      var f := t.features[i];
      assert t.features[..i + 1] == t.features[..i] + [f];
      if f.id !in t.compat || t.compat[f.id] == map[] {
        continue;
      }
      var opIds, byOp := OperandLists(t, order, t.compat[f.id]);
      c := Catalog(c.features + [CatFeature(f.id, f.sortable, opIds)], c.compat[f.id := byOp],
                   if f.sortable then c.sortFeatures + [f.id] else c.sortFeatures);
    }
    assert t.features[..|t.features|] == t.features;
  }

  // ----- the catalog is exact -----

  predicate InCatalog(c: Catalog, f: string, op: string, o: string) {
    f in c.compat && op in c.compat[f] && o in c.compat[f][op]
  }

  /** Every legal triple of known features and operators names a known operand, and a crossing has a prior bar on
      both sides. */
  ghost predicate Coherent(t: Tables) {
    forall f, op, o ::
      Allowed(t.compat, f, op, o) && FeatureById(t, f).Some? && OperatorById(t, op).Some?
      ==> TripleOk(t, f, op, o)
  }

  predicate TripleOk(t: Tables, f: string, op: string, o: string)
    requires FeatureById(t, f).Some? && OperatorById(t, op).Some?
  {
    && OperandById(t, o).Some?
    && (OperatorById(t, op).value.cross || OperatorById(t, op).value.down
        ==> FeatureById(t, f).value.prevExpr != "" && OperandById(t, o).value.prevExpr != "")
  }

  lemma {:induction false} OperatorListed(operators: seq<Operator>, ops: map<string, set<string>>, op: string)
    ensures op in OperatorsFor(operators, ops) <==> op in ops && exists i :: 0 <= i < |operators| && operators[i].id == op
  {
    if operators != [] {
      var k := |operators| - 1;
      OperatorListed(operators[..k], ops, op);
      assert forall i :: 0 <= i < k ==> operators[..k][i] == operators[i];
    }
  }

  lemma {:induction false} CatalogHas(t: Tables, c: Catalog, f: string, op: string, o: string)
    requires Projects(t, t.features, c)
    ensures InCatalog(c, f, op, o)
      <==> FeatureById(t, f).Some? && OperatorById(t, op).Some? && Allowed(t.compat, f, op, o)
  {
    LookupKnown(t.features, (x: Feature) => x.id, f);
    LookupKnown(t.operators, (x: Operator) => x.id, op);
    hide Lookup;
    if f in c.compat {
      OperatorListed(t.operators, t.compat[f], op);
      hide OperatorsFor;
      if op in c.compat[f] {
        assert o in c.compat[f][op] <==> o in multiset(c.compat[f][op]);
      }
    }
  }

  lemma {:induction false} LookupKnown<T>(items: seq<T>, key: T -> string, id: string)
    ensures Lookup(items, key, id).Some? <==> exists i :: 0 <= i < |items| && key(items[i]) == id
  {}

  /** The catalog offers exactly what the compiler accepts, precisely when the matrix is coherent. */
  lemma {:induction false} CatalogIsExact(t: Tables, c: Catalog)
    requires Projects(t, t.features, c)
    ensures Coherent(t) <==> forall f, op, o :: InCatalog(c, f, op, o) <==> CheckRule(t, Rule(f, op, o)).Ok?
  {
    forall f, op, o
      ensures InCatalog(c, f, op, o)
        <==> FeatureById(t, f).Some? && OperatorById(t, op).Some? && Allowed(t.compat, f, op, o)
      ensures CheckRule(t, Rule(f, op, o)).Ok?
        <==> FeatureById(t, f).Some? && OperatorById(t, op).Some? && Allowed(t.compat, f, op, o) && TripleOk(t, f, op, o)
    {
      CatalogHas(t, c, f, op, o);
    }
    hide CheckRule, InCatalog, Allowed, TripleOk, Projects, FeatureById, OperatorById;
  }

  /** What the editor can build is what compiles: a study is accepted if and only if it has the right size, every
      rule is a triple of the catalog, every connector is known and its sort is approved. */
  lemma {:induction false} AcceptedMeansOffered(t: Tables, c: Catalog, def: Definition)
    requires Projects(t, t.features, c) && Coherent(t)
    ensures Accepted(t, def) <==>
      (def.version == 1 && |def.name| <= MAX_NAME_LEN
       && 1 <= |def.rules| <= MAX_RULES && |def.connectors| == |def.rules| - 1
       && (forall i :: 0 <= i < |def.rules| ==>
             InCatalog(c, def.rules[i].leftId, def.rules[i].operatorId, def.rules[i].rightId))
       && (forall i :: 0 <= i < |def.connectors| ==> ConnectiveOf(def.connectors[i]).Some?)
       && CompileSort(t, def.sort).Ok?)
  {
    hide CheckRule, InCatalog, Projects, Coherent, CompileSort, ConnectiveOf;
    CatalogIsExact(t, c);
    forall i | 0 <= i < |def.rules|
      ensures InCatalog(c, def.rules[i].leftId, def.rules[i].operatorId, def.rules[i].rightId)
        <==> CheckRule(t, def.rules[i]).Ok?
    {
      var r := def.rules[i];
      assert r == Rule(r.leftId, r.operatorId, r.rightId);
    }
  }

  // ----- the catalog is deterministic -----

  lemma {:induction false} PositionFinds(operands: seq<Operand>, id: string)
    requires exists o :: o in operands && o.id == id
    ensures 0 <= Position(operands, id) < |operands| && operands[Position(operands, id)].id == id
  {
    var k := |operands| - 1;
    if operands[k].id != id {
      var o :| o in operands && o.id == id;
      assert o in operands[..k];
      PositionFinds(operands[..k], id);
    }
  }

  ghost predicate KnownOperands(t: Tables, s: set<string>) {
    forall id :: id in s ==> exists o :: o in t.operands && o.id == id
  }

  /** A set of known operands has one listing in registry order, whatever order the map was iterated in. */
  lemma {:induction false} OrderingUnique(xs: seq<string>, ys: seq<string>, s: set<string>, t: Tables)
    requires KnownOperands(t, s) && Ordering(xs, s, t) && Ordering(ys, s, t)
    ensures xs == ys
  {
    if xs == [] {
      assert |multiset(ys)| == 0;
    } else {
      SameHead(xs, ys, s, t);
      RestOrdering(xs, s, t);
      RestOrdering(ys, s, t);
      OrderingUnique(xs[1..], ys[1..], s - {xs[0]}, t);
      assert xs == [xs[0]] + xs[1..] && ys == [ys[0]] + ys[1..];
    }
  }

  lemma {:induction false} SameHead(xs: seq<string>, ys: seq<string>, s: set<string>, t: Tables)
    requires xs != [] && KnownOperands(t, s) && Ordering(xs, s, t) && Ordering(ys, s, t)
    ensures ys != [] && xs[0] == ys[0]
  {
    assert xs[0] in multiset(ys);
    assert ys[0] in multiset(xs);
    assert xs[0] in multiset(s) && ys[0] in multiset(s);
    SamePosition(xs, ys, t);
    PositionFinds(t.operands, xs[0]);
    PositionFinds(t.operands, ys[0]);
  }

  lemma {:induction false} RestOrdering(xs: seq<string>, s: set<string>, t: Tables)
    requires xs != [] && Ordering(xs, s, t)
    ensures xs[0] in s && Ordering(xs[1..], s - {xs[0]}, t)
  {
    hide Position;
    assert xs == [xs[0]] + xs[1..];
    assert xs[0] in multiset(xs);
    assert multiset(s) == multiset(s - {xs[0]}) + multiset{xs[0]};
    var tail := xs[1..];
    assert multiset(xs) == multiset{xs[0]} + multiset(tail);
    forall y: string ensures multiset(tail)[y] == multiset(s - {xs[0]})[y] {
      assert multiset(xs)[y] == multiset(s)[y];
    }
    assert forall i :: 0 <= i < |tail| ==> tail[i] == xs[i + 1];
  }

  lemma {:induction false} SamePosition(xs: seq<string>, ys: seq<string>, t: Tables)
    requires xs != [] && ys != [] && multiset(xs) == multiset(ys)
    requires forall i, j :: 0 <= i < j < |xs| ==> Position(t.operands, xs[i]) <= Position(t.operands, xs[j])
    requires forall i, j :: 0 <= i < j < |ys| ==> Position(t.operands, ys[i]) <= Position(t.operands, ys[j])
    ensures Position(t.operands, xs[0]) == Position(t.operands, ys[0])
  {
    assert ys[0] in multiset(xs) && xs[0] in multiset(ys);
    var i :| 0 <= i < |xs| && xs[i] == ys[0];
    var j :| 0 <= j < |ys| && ys[j] == xs[0];
    hide Position;
  }

  lemma {:induction false} CoherentKnown(t: Tables, f: string, op: string)
    requires Coherent(t) && FeatureById(t, f).Some? && OperatorById(t, op).Some?
    requires f in t.compat && op in t.compat[f]
    ensures KnownOperands(t, t.compat[f][op])
  {
    hide FeatureById, OperatorById;
    forall o | o in t.compat[f][op] ensures exists x :: x in t.operands && x.id == o {
      assert Allowed(t.compat, f, op, o) && TripleOk(t, f, op, o);
    }
  }

  lemma {:induction false} ListsUnique(t: Tables, f: string, x: map<string, seq<string>>, y: map<string, seq<string>>)
    requires Coherent(t) && f in t.compat && FeatureById(t, f).Some?
    requires ListsOperands(t, t.compat[f], t.operators, x) && ListsOperands(t, t.compat[f], t.operators, y)
    ensures x == y
  {
    hide Coherent, FeatureById, Ordering, OperatorsFor;
    forall op | op in x ensures x[op] == y[op] {
      OperatorListed(t.operators, t.compat[f], op);
      LookupKnown(t.operators, (o: Operator) => o.id, op);
      CoherentKnown(t, f, op);
      OrderingUnique(x[op], y[op], t.compat[f][op], t);
    }
    assert x.Keys == y.Keys;
  }

  /** A coherent registry has exactly one catalog: the order in which its maps were iterated cannot be seen. */
  lemma {:induction false} CatalogUnique(t: Tables, c: Catalog, d: Catalog)
    requires Coherent(t) && Projects(t, t.features, c) && Projects(t, t.features, d)
    ensures c == d
  {
    hide Coherent, Lookup, ListsOperands, OfferedFeatures, SortableIds;
    assert c.compat.Keys == d.compat.Keys;
    forall f | f in c.compat ensures c.compat[f] == d.compat[f] {
      LookupKnown(t.features, (x: Feature) => x.id, f);
      assert FeatureById(t, f).Some?;
      ListsUnique(t, f, c.compat[f], d.compat[f]);
    }
    assert c.compat == d.compat;
  }

  // ----- the shipped catalog -----

  lemma PresetsHavePrior(category: string, levels: seq<Preset>)
    requires forall l :: l in levels ==> l.sql != ""
    ensures forall o :: o in Presets(category, levels) ==> o.prevExpr != ""
  {}

  lemma OperandsHavePrior()
    ensures forall o :: o in OPERANDS ==> o.prevExpr != ""
  {
    LevelsWritten();
    ColumnsHavePrior();
    PresetsHavePrior("RSI Level", RSI_LEVELS);
    PresetsHavePrior("Price", PRICE_LEVELS);
    PresetsHavePrior("Dollar Volume", DOLLAR_VOL_LEVELS);
    PresetsHavePrior("Return", PCT_LEVELS);
  }

  lemma LevelsWritten()
    ensures forall l :: l in RSI_LEVELS + PRICE_LEVELS + DOLLAR_VOL_LEVELS + PCT_LEVELS ==> l.sql != ""
  {}

  lemma ColumnsHavePrior()
    ensures forall o :: o in OPERAND_COLUMNS ==> o.prevExpr != ""
  {}

  lemma CrossableFeatures()
    ensures forall f :: f in FEATURES && f.id in ["close", "sma_50", "rsi_14"] ==> f.prevExpr != ""
  {}

  lemma CrossGrants(g: Grant)
    requires g in GRANTS
    ensures g.ops == SCALAR_OPS || (g.ops == CROSS_OPS && g.feature in ["close", "sma_50", "rsi_14"])
  {}

  lemma ScalarOperators()
    ensures forall op :: op in OPERATORS && op.id in SCALAR_OPS ==> !op.cross && !op.down
  {}

  lemma PresetIdsKnown(category: string, levels: seq<Preset>, id: string)
    requires id in Ids(levels) && forall o :: o in Presets(category, levels) ==> o in OPERANDS
    ensures exists o :: o in OPERANDS && o.id == id
  {
    var i :| 0 <= i < |levels| && Ids(levels)[i] == id;
    assert Presets(category, levels)[i] in OPERANDS;
  }

  lemma ColumnIdsKnown()
    ensures forall id ::
      id in ["o_close", "o_sma_50", "o_sma_200", "o_high_52w", "o_low_52w"] ==> exists o :: o in OPERANDS && o.id == id
  {
    assert OPERAND_COLUMNS[0] in OPERANDS && OPERAND_COLUMNS[1] in OPERANDS && OPERAND_COLUMNS[2] in OPERANDS;
    assert OPERAND_COLUMNS[3] in OPERANDS && OPERAND_COLUMNS[4] in OPERANDS;
  }

  lemma GrantedOperands(g: Grant, id: string)
    requires g in GRANTS && id in g.operands
    ensures id in ["o_close", "o_sma_50", "o_sma_200", "o_high_52w", "o_low_52w"] || id in Ids(PRICE_LEVELS)
         || id in Ids(RSI_LEVELS) || id in Ids(PCT_LEVELS) || id in Ids(DOLLAR_VOL_LEVELS)
  {}

  lemma GrantedOperandsKnown(g: Grant, id: string)
    requires g in GRANTS && id in g.operands
    ensures exists o :: o in OPERANDS && o.id == id
  {
    GrantedOperands(g, id);
    ColumnIdsKnown();
    if id in Ids(PRICE_LEVELS) {
      PresetIdsKnown("Price", PRICE_LEVELS, id);
    } else if id in Ids(RSI_LEVELS) {
      PresetIdsKnown("RSI Level", RSI_LEVELS, id);
    } else if id in Ids(PCT_LEVELS) {
      PresetIdsKnown("Return", PCT_LEVELS, id);
    } else if id in Ids(DOLLAR_VOL_LEVELS) {
      PresetIdsKnown("Dollar Volume", DOLLAR_VOL_LEVELS, id);
    }
  }

  /** The shipped matrix is coherent: the editor can offer no triple that the compiler refuses, and the compiler
      accepts none that is not offered. */
  lemma {:induction false} ShippedCoherent()
    ensures Coherent(Shipped())
  {
    var t := Shipped();
    forall f, op, o | Allowed(t.compat, f, op, o) && FeatureById(t, f).Some? && OperatorById(t, op).Some?
      ensures TripleOk(t, f, op, o)
    {
      ShippedTripleOk(f, op, o);
    }
  }

  lemma {:induction false} ShippedTripleOk(f: string, op: string, o: string)
    requires Allowed(Granted(GRANTS), f, op, o)
    requires FeatureById(Shipped(), f).Some? && OperatorById(Shipped(), op).Some?
    ensures TripleOk(Shipped(), f, op, o)
  {
    AllowedIsGranted(GRANTS, f, op, o);
    var g :| g in GRANTS && Grants(g, f, op, o);
    GrantedOperandsKnown(g, o);
    OperandsHavePrior();
    CrossableFeatures();
    CrossGrants(g);
    ScalarOperators();
  }
}
