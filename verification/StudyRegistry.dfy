/** The shipped vocabulary, and the proof that it is well formed and unambiguous. */
module StudyRegistry {
  import opened Core
  import opened Printer
  import opened Registry
  import opened StudyTables

  const SCALAR_OPS := ["above", "at_or_above", "below", "at_or_below"]
  const CROSS_OPS := ["crossed_above", "crossed_below"]

  function Presets(category: string, levels: seq<Preset>): (r: seq<Operand>)
    ensures |r| == |levels|
    ensures forall i :: 0 <= i < |r| ==> r[i] == Operand(levels[i].id, category, levels[i].sql, levels[i].sql, false)
  {
    seq(|levels|, i requires 0 <= i < |levels| => Operand(levels[i].id, category, levels[i].sql, levels[i].sql, false))
  }

  const OPERANDS :=
    OPERAND_COLUMNS + Presets("RSI Level", RSI_LEVELS) + Presets("Price", PRICE_LEVELS)
    + Presets("Dollar Volume", DOLLAR_VOL_LEVELS) + Presets("Return", PCT_LEVELS)

  function Ids(levels: seq<Preset>): (r: seq<string>)
    ensures |r| == |levels|
    ensures forall i :: 0 <= i < |r| ==> r[i] == levels[i].id
  {
    seq(|levels|, i requires 0 <= i < |levels| => levels[i].id)
  }

  /** One line of the compatibility matrix: a feature, some operators, the operands allowed. */
  datatype Grant = Grant(feature: string, ops: seq<string>, operands: seq<string>)

  const GRANTS := [
    Grant("close", SCALAR_OPS, ["o_sma_50", "o_sma_200", "o_high_52w", "o_low_52w"] + Ids(PRICE_LEVELS)),
    Grant("close", CROSS_OPS, ["o_sma_50", "o_sma_200", "o_high_52w", "o_low_52w"]),
    Grant("high", SCALAR_OPS, ["o_high_52w"] + Ids(PRICE_LEVELS)),
    Grant("low", SCALAR_OPS, ["o_low_52w"] + Ids(PRICE_LEVELS)),
    Grant("sma_50", SCALAR_OPS, ["o_sma_200", "o_close"] + Ids(PRICE_LEVELS)),
    Grant("sma_50", CROSS_OPS, ["o_sma_200"]),
    Grant("sma_200", SCALAR_OPS, ["o_sma_50", "o_close"] + Ids(PRICE_LEVELS)),
    Grant("rsi_14", SCALAR_OPS, Ids(RSI_LEVELS)),
    Grant("rsi_14", CROSS_OPS, Ids(RSI_LEVELS)),
    Grant("ret_3m", SCALAR_OPS, Ids(PCT_LEVELS)),
    Grant("dollar_vol", SCALAR_OPS, Ids(DOLLAR_VOL_LEVELS))]

  /** The matrix after a list of allow calls. */
  function Granted(grants: seq<Grant>): Compat {
    if grants == [] then map[]
    else
      var g := grants[|grants| - 1];
      Allow(Granted(grants[..|grants| - 1]), g.feature, g.ops, g.operands)
  }

  function Shipped(): Tables { Tables(FEATURES, OPERATORS, OPERANDS, Granted(GRANTS)) }

  ghost predicate Grants(g: Grant, f: string, op: string, o: string) {
    f == g.feature && op in g.ops && o in g.operands
  }

  lemma {:induction false} AllowedIsGranted(grants: seq<Grant>, f: string, op: string, o: string)
    ensures Allowed(Granted(grants), f, op, o) <==> exists g :: g in grants && Grants(g, f, op, o)
  {
    if grants != [] {
      var k := |grants| - 1;
      var g := grants[k];
      AllowedIsGranted(grants[..k], f, op, o);
      AllowAdds(Granted(grants[..k]), g.feature, g.ops, g.operands, f, op, o);
      assert grants == grants[..k] + [g];
      assert Grants(g, f, op, o) <==> f == g.feature && op in g.ops && o in g.operands;
      assert (exists h :: h in grants && Grants(h, f, op, o))
        <==> (exists h :: h in grants[..k] && Grants(h, f, op, o)) || Grants(g, f, op, o);
    } else {
      assert forall g :: g !in grants;
    }
  }

  lemma PresetsOk(category: string, levels: seq<Preset>)
    requires forall l :: l in levels ==> IsTermText(l.sql)
    ensures forall o :: o in Presets(category, levels) ==> OperandOk(o)
  {}

  lemma WholeTexts(levels: seq<Preset>)
    requires forall l :: l in levels ==> Whole(l)
    ensures forall l :: l in levels ==> IsTermText(l.sql)
  {}

  lemma OperandColumnsOk()
    ensures forall o :: o in OPERAND_COLUMNS ==> OperandOk(o)
  {
    hide IsColumnText;
    PriceColumnTexts();
    TrendColumnTexts();
    LevelColumnTexts();
  }

  lemma OperandsOk()
    ensures forall o :: o in OPERANDS ==> OperandOk(o)
  {
    hide IsTermText, Whole;
    OperandColumnsOk();
    LevelsWhole();
    DollarVolLevelsWhole();
    PctLevelsTexts();
    WholeTexts(RSI_LEVELS);
    WholeTexts(PRICE_LEVELS);
    WholeTexts(DOLLAR_VOL_LEVELS);
    PresetsOk("RSI Level", RSI_LEVELS);
    PresetsOk("Price", PRICE_LEVELS);
    PresetsOk("Dollar Volume", DOLLAR_VOL_LEVELS);
    PresetsOk("Return", PCT_LEVELS);
  }

  /** Every SQL fragment of the shipped tables is a column name, a number or a comparison. */
  lemma ShippedWellFormed()
    ensures WellFormed(Shipped())
  {
    hide FeatureOk, OperandOk, OperatorOk;
    FeaturesOk();
    OperatorsOk();
    OperandsOk();
  }

  // ----- ids can be read back from the SQL -----

  ghost predicate FromPresets(o: Operand, levels: seq<Preset>) {
    exists i :: 0 <= i < |levels| && o.id == levels[i].id && o.sqlExpr == levels[i].sql
  }

  lemma PresetOrigin(o: Operand, category: string, levels: seq<Preset>, tag: char)
    requires o in Presets(category, levels)
    requires forall l :: l in levels ==> Tag(l.id, tag)
    ensures FromPresets(o, levels) && Tag(o.id, tag)
  {}

  /** The second letter of an operand's id says which table it comes from. */
  lemma OperandOrigin(o: Operand)
    requires o in OPERANDS
    ensures Tag(o.id, 's') ==> FromPresets(o, RSI_LEVELS)
    ensures Tag(o.id, 'r') ==> FromPresets(o, PRICE_LEVELS)
    ensures Tag(o.id, 'v') ==> FromPresets(o, DOLLAR_VOL_LEVELS)
    ensures Tag(o.id, 'c') ==> FromPresets(o, PCT_LEVELS)
    ensures Tag(o.id, '_') ==> o in OPERAND_COLUMNS
  {
    hide FromPresets;
    RsiTags();
    PriceTags();
    DollarVolTags();
    PctTags();
    ColumnTags();
    if o in Presets("RSI Level", RSI_LEVELS) {
      PresetOrigin(o, "RSI Level", RSI_LEVELS, 's');
    } else if o in Presets("Price", PRICE_LEVELS) {
      PresetOrigin(o, "Price", PRICE_LEVELS, 'r');
    } else if o in Presets("Dollar Volume", DOLLAR_VOL_LEVELS) {
      PresetOrigin(o, "Dollar Volume", DOLLAR_VOL_LEVELS, 'v');
    } else if o in Presets("Return", PCT_LEVELS) {
      PresetOrigin(o, "Return", PCT_LEVELS, 'c');
    }
  }

  lemma IdsTagged(levels: seq<Preset>, tag: char)
    requires forall l :: l in levels ==> Tag(l.id, tag)
    ensures forall id :: id in Ids(levels) ==> Tag(id, tag)
  {}

  /** What a feature may be compared with, by table. */
  ghost predicate Comparable(f: string, id: string) {
    if f == "rsi_14" then Tag(id, 's')
    else if f == "ret_3m" then Tag(id, 'c')
    else if f == "dollar_vol" then Tag(id, 'v')
    else Tag(id, 'r') || Tag(id, '_')
  }

  lemma ColumnIdsTagged()
    ensures Tag("o_close", '_') && Tag("o_sma_50", '_') && Tag("o_sma_200", '_')
    ensures Tag("o_high_52w", '_') && Tag("o_low_52w", '_')
  {}

  lemma LevelGrantsComparable(g: Grant, id: string)
    requires g in GRANTS[7..] && id in g.operands
    ensures Comparable(g.feature, id)
  {
    hide Tag;
    RsiTags();
    DollarVolTags();
    PctTags();
    IdsTagged(RSI_LEVELS, 's');
    IdsTagged(DOLLAR_VOL_LEVELS, 'v');
    IdsTagged(PCT_LEVELS, 'c');
    if g == GRANTS[7] {} else if g == GRANTS[8] {} else if g == GRANTS[9] {}
  }

  ghost predicate PriceOrColumnIds(ids: seq<string>) {
    forall id :: id in ids ==> Tag(id, 'r') || Tag(id, '_')
  }

  lemma ColumnsAndPrices(columns: seq<string>)
    requires PriceOrColumnIds(columns)
    ensures PriceOrColumnIds(columns + Ids(PRICE_LEVELS))
  {}

  lemma PriceGrantsComparable(k: nat)
    requires k < 7
    ensures PriceOrColumnIds(GRANTS[k].operands)
  {
    hide Tag;
    ColumnIdsTagged();
    ColumnsAndPrices(["o_sma_50", "o_sma_200", "o_high_52w", "o_low_52w"]);
    ColumnsAndPrices(["o_high_52w"]);
    ColumnsAndPrices(["o_low_52w"]);
    ColumnsAndPrices(["o_sma_200", "o_close"]);
    ColumnsAndPrices(["o_sma_50", "o_close"]);
  }

  lemma PriceGrantFeatures(g: Grant)
    requires g in GRANTS[..7]
    ensures g.feature != "rsi_14" && g.feature != "ret_3m" && g.feature != "dollar_vol"
  {}

  lemma GrantsComparable(g: Grant, id: string)
    requires g in GRANTS && id in g.operands
    ensures Comparable(g.feature, id)
  {
    assert GRANTS == GRANTS[..7] + GRANTS[7..];
    if g in GRANTS[7..] {
      LevelGrantsComparable(g, id);
    } else {
      PriceGrantFeatures(g);
      var k :| 0 <= k < 7 && GRANTS[k] == g;
      PriceGrantsComparable(k);
    }
  }

  lemma SamePresetSql(o: Operand, q: Operand, levels: seq<Preset>)
    requires FromPresets(o, levels) && FromPresets(q, levels) && o.sqlExpr == q.sqlExpr
    requires forall i, j :: 0 <= i < j < |levels| ==> levels[i].sql != levels[j].sql
    ensures o.id == q.id
  {}

  lemma SqlIdentifiesOperand(f: string, o: Operand, q: Operand)
    requires o in OPERANDS && q in OPERANDS && o.sqlExpr == q.sqlExpr
    requires Comparable(f, o.id) && Comparable(f, q.id)
    ensures o.id == q.id
  {
    OperandOrigin(o);
    OperandOrigin(q);
    if f == "rsi_14" {
      forall i: nat, j: nat | i < j < 11 { RsiSqlDistinct(i, j); }
      SamePresetSql(o, q, RSI_LEVELS);
    } else if f == "ret_3m" {
      forall i: nat, j: nat | i < j < 12 { PctSqlDistinct(i, j); }
      SamePresetSql(o, q, PCT_LEVELS);
    } else if f == "dollar_vol" {
      forall i: nat, j: nat | i < j < 11 { DollarVolSqlDistinct(i, j); }
      SamePresetSql(o, q, DOLLAR_VOL_LEVELS);
    } else {
      PriceOrColumn(o, q);
    }
  }

  lemma PriceOrColumn(o: Operand, q: Operand)
    requires o.sqlExpr == q.sqlExpr
    requires FromPresets(o, PRICE_LEVELS) || o in OPERAND_COLUMNS
    requires FromPresets(q, PRICE_LEVELS) || q in OPERAND_COLUMNS
    ensures o.id == q.id
  {
    if o in OPERAND_COLUMNS && q in OPERAND_COLUMNS {
      ColumnSqlDistinct(o, q);
    } else if FromPresets(o, PRICE_LEVELS) && FromPresets(q, PRICE_LEVELS) {
      forall i: nat, j: nat | i < j < 9 { PriceSqlDistinct(i, j); }
      SamePresetSql(o, q, PRICE_LEVELS);
    } else if o in OPERAND_COLUMNS {
      ColumnIsNoPrice(o, q);
    } else {
      ColumnIsNoPrice(q, o);
    }
  }

  lemma ColumnIsNoPrice(o: Operand, q: Operand)
    requires o in OPERAND_COLUMNS && FromPresets(q, PRICE_LEVELS)
    ensures o.sqlExpr != q.sqlExpr
  {}

  /** Features, operators and operands can all be told apart by what they compile to. */
  lemma ShippedUnambiguous()
    ensures Unambiguous(Shipped())
  {
    OperatorsDistinct();
    forall f, g | f in FEATURES && g in FEATURES
      ensures f.sqlExpr == g.sqlExpr ==> f.id == g.id
      ensures f.sqlExpr != g.prevExpr
    {
      FeaturesApart(f, g);
    }
    forall f, op, o, q | o in OPERANDS && q in OPERANDS && o.sqlExpr == q.sqlExpr
      ensures Allowed(Granted(GRANTS), f, op, o.id) && Allowed(Granted(GRANTS), f, op, q.id) ==> o.id == q.id
    {
      if Allowed(Granted(GRANTS), f, op, o.id) && Allowed(Granted(GRANTS), f, op, q.id) {
        AllowedIsComparable(f, op, o.id);
        AllowedIsComparable(f, op, q.id);
        SqlIdentifiesOperand(f, o, q);
      }
    }
  }

  lemma AllowedIsComparable(f: string, op: string, id: string)
    requires Allowed(Granted(GRANTS), f, op, id)
    ensures Comparable(f, id)
  {
    hide Comparable;
    AllowedIsGranted(GRANTS, f, op, id);
    var g :| g in GRANTS && Grants(g, f, op, id);
    GrantsComparable(g, id);
  }

  lemma FeaturesApart(f: Feature, g: Feature)
    requires f in FEATURES && g in FEATURES
    ensures f.sqlExpr == g.sqlExpr ==> f.id == g.id
    ensures f.sqlExpr != g.prevExpr
  {
    forall i: nat, j: nat | i < j < 10 { FeatureSqlDistinct(i, j); }
    FeatureFirstLetter();
    PriorFirstLetter();
    var i :| 0 <= i < |FEATURES| && FEATURES[i] == f;
    var j :| 0 <= j < |FEATURES| && FEATURES[j] == g;
    assert i < j || j < i || i == j;
  }

  // ----- ids name one entry each -----

  predicate DistinctIds(os: seq<Operand>) { DistinctKeys(os, (o: Operand) => o.id) }

  lemma PresetIdsDistinct(category: string, levels: seq<Preset>)
    requires forall i: nat, j: nat :: i < j < |levels| ==> levels[i].id != levels[j].id
    ensures DistinctIds(Presets(category, levels))
  {}

  lemma AppendTagged(os: seq<Operand>, category: string, levels: seq<Preset>, tag: char)
    requires DistinctIds(os) && DistinctIds(Presets(category, levels))
    requires forall o :: o in os ==> !Tag(o.id, tag)
    requires AllTagged(levels, tag)
    ensures DistinctIds(os + Presets(category, levels))
  {}

  lemma PresetTablesDistinct()
    ensures DistinctIds(Presets("RSI Level", RSI_LEVELS)) && DistinctIds(Presets("Price", PRICE_LEVELS))
    ensures DistinctIds(Presets("Dollar Volume", DOLLAR_VOL_LEVELS)) && DistinctIds(Presets("Return", PCT_LEVELS))
  {
    forall i: nat, j: nat | i < j < 11 { RsiIdsDistinct(i, j); }
    forall i: nat, j: nat | i < j < 9 { PriceIdsDistinct(i, j); }
    forall i: nat, j: nat | i < j < 11 { DollarVolIdsDistinct(i, j); }
    forall i: nat, j: nat | i < j < 12 { PctIdsDistinct(i, j); }
    PresetIdsDistinct("RSI Level", RSI_LEVELS);
    PresetIdsDistinct("Price", PRICE_LEVELS);
    PresetIdsDistinct("Dollar Volume", DOLLAR_VOL_LEVELS);
    PresetIdsDistinct("Return", PCT_LEVELS);
  }

  ghost predicate AllTagged(levels: seq<Preset>, tag: char) { forall l :: l in levels ==> Tag(l.id, tag) }

  lemma TablesDistinct(columns: seq<Operand>, rsi: seq<Preset>, price: seq<Preset>, vol: seq<Preset>, pct: seq<Preset>)
    requires DistinctIds(columns) && forall o :: o in columns ==> Tag(o.id, '_')
    requires DistinctIds(Presets("RSI Level", rsi)) && AllTagged(rsi, 's')
    requires DistinctIds(Presets("Price", price)) && AllTagged(price, 'r')
    requires DistinctIds(Presets("Dollar Volume", vol)) && AllTagged(vol, 'v')
    requires DistinctIds(Presets("Return", pct)) && AllTagged(pct, 'c')
    ensures DistinctIds(columns + Presets("RSI Level", rsi) + Presets("Price", price)
        + Presets("Dollar Volume", vol) + Presets("Return", pct))
  {
    hide DistinctIds;
    var a := columns + Presets("RSI Level", rsi);
    AppendTagged(columns, "RSI Level", rsi, 's');
    var b := a + Presets("Price", price);
    AppendTagged(a, "Price", price, 'r');
    var c := b + Presets("Dollar Volume", vol);
    AppendTagged(b, "Dollar Volume", vol, 'v');
    AppendTagged(c, "Return", pct, 'c');
  }

  lemma LevelsTagged()
    ensures AllTagged(RSI_LEVELS, 's') && AllTagged(PRICE_LEVELS, 'r')
    ensures AllTagged(DOLLAR_VOL_LEVELS, 'v') && AllTagged(PCT_LEVELS, 'c')
  {
    hide Tag;
    RsiTags();
    PriceTags();
    DollarVolTags();
    PctTags();
  }

  lemma OperandIdsDistinct()
    ensures DistinctIds(OPERANDS)
  {
    assert DistinctIds(OPERAND_COLUMNS) by { forall i: nat, j: nat | i < j < 5 { ColumnIdsDistinct(i, j); } }
    hide DistinctIds, AllTagged, Tag;
    PresetTablesDistinct();
    LevelsTagged();
    ColumnTags();
    TablesDistinct(OPERAND_COLUMNS, RSI_LEVELS, PRICE_LEVELS, DOLLAR_VOL_LEVELS, PCT_LEVELS);
  }

  /** Every shipped feature, operator and operand is what its own id looks up. */
  lemma ShippedFoundById()
    ensures forall f :: f in FEATURES ==> FeatureById(Shipped(), f.id) == Some(f)
    ensures forall op :: op in OPERATORS ==> OperatorById(Shipped(), op.id) == Some(op)
    ensures forall o :: o in OPERANDS ==> OperandById(Shipped(), o.id) == Some(o)
  {
    forall i: nat, j: nat | i < j < 10 { FeatureIdsDistinct(i, j); }
    forall i: nat, j: nat | i < j < 6 { OperatorIdsDistinct(i, j); }
    OperandIdsDistinct();
    hide Lookup;
    forall f | f in FEATURES { LookupOwnId(FEATURES, (x: Feature) => x.id, f); }
    forall op | op in OPERATORS { LookupOwnId(OPERATORS, (x: Operator) => x.id, op); }
    forall o | o in OPERANDS { LookupOwnId(OPERANDS, (x: Operand) => x.id, o); }
  }
}
