/** The constant tables of the study editor, and facts read off them row by row. */
module StudyTables {
  import opened Core
  import opened Sql
  import opened Printer
  import opened Registry

  const OPERATORS := [
    Operator("above", ">", false, false),
    Operator("at_or_above", ">=", false, false),
    Operator("below", "<", false, false),
    Operator("at_or_below", "<=", false, false),
    Operator("crossed_above", "", true, false),
    Operator("crossed_below", "", false, true)]

  const FEATURES := [
    Feature("close", "Price", "close", "prev_close", true),
    Feature("high", "Price", "high", "", false),
    Feature("low", "Price", "low", "", false),
    Feature("sma_50", "Trend", "sma50", "prev_sma50", true),
    Feature("sma_200", "Trend", "sma200", "prev_sma200", true),
    Feature("rsi_14", "Momentum", "rsi14", "prev_rsi14", true),
    Feature("ret_3m", "Performance", "ret_3m", "", true),
    Feature("dollar_vol", "Liquidity", "dollar_vol", "", true),
    Feature("high_52w", "Highs & Lows", "high_52w", "", false),
    Feature("low_52w", "Highs & Lows", "low_52w", "", false)]

  const OPERAND_COLUMNS := [
    Operand("o_close", "Price", "close", "prev_close", true),
    Operand("o_sma_50", "Trend", "sma50", "prev_sma50", true),
    Operand("o_sma_200", "Trend", "sma200", "prev_sma200", true),
    Operand("o_high_52w", "Highs & Lows", "high_52w", "high_52w", true),
    Operand("o_low_52w", "Highs & Lows", "low_52w", "low_52w", true)]

  datatype Preset = Preset(id: string, sql: string)

  const RSI_LEVELS := [
    Preset("rsi_20", "20"), Preset("rsi_25", "25"), Preset("rsi_30", "30"), Preset("rsi_35", "35"),
    Preset("rsi_40", "40"), Preset("rsi_50", "50"), Preset("rsi_60", "60"), Preset("rsi_65", "65"),
    Preset("rsi_70", "70"), Preset("rsi_75", "75"), Preset("rsi_80", "80")]

  const PRICE_LEVELS := [
    Preset("price_1", "1"), Preset("price_2", "2"), Preset("price_5", "5"), Preset("price_10", "10"),
    Preset("price_20", "20"), Preset("price_50", "50"), Preset("price_100", "100"),
    Preset("price_200", "200"), Preset("price_500", "500")]

  const DOLLAR_VOL_LEVELS := [
    Preset("dv_100k", "100000"), Preset("dv_500k", "500000"), Preset("dv_1m", "1000000"),
    Preset("dv_5m", "5000000"), Preset("dv_10m", "10000000"), Preset("dv_25m", "25000000"),
    Preset("dv_50m", "50000000"), Preset("dv_100m", "100000000"), Preset("dv_250m", "250000000"),
    Preset("dv_500m", "500000000"), Preset("dv_1b", "1000000000")]

  const PCT_LEVELS := [
    Preset("pct_neg50", "-0.5"), Preset("pct_neg25", "-0.25"), Preset("pct_neg20", "-0.2"),
    Preset("pct_neg10", "-0.1"), Preset("pct_neg5", "-0.05"), Preset("pct_0", "0"),
    Preset("pct_5", "0.05"), Preset("pct_10", "0.1"), Preset("pct_20", "0.2"),
    Preset("pct_25", "0.25"), Preset("pct_50", "0.5"), Preset("pct_100", "1.0")]

  // ----- every fragment is a column, a number or a comparison -----

  predicate IsLowerWord(w: string) {
    forall i :: 0 <= i < |w| ==> 'a' <= w[i] <= 'z' || IsDigit(w[i]) || w[i] == '_'
  }

  lemma ColumnText(w: string)
    requires w != "" && 'a' <= w[0] <= 'z' && IsLowerWord(w) && w !in KEYWORDS
    ensures IsColumnText(w)
  {
    assert Lower(w) == w;
  }

  lemma PriceColumnTexts()
    ensures IsColumnText("close") && IsColumnText("high") && IsColumnText("low") && IsColumnText("prev_close")
  {
    hide IsColumnText;
    ColumnText("close");
    ColumnText("high");
    ColumnText("low");
    ColumnText("prev_close");
  }

  lemma TrendColumnTexts()
    ensures IsColumnText("sma50") && IsColumnText("sma200") && IsColumnText("prev_sma50") && IsColumnText("prev_sma200")
  {
    hide IsColumnText;
    ColumnText("sma50");
    ColumnText("sma200");
    ColumnText("prev_sma50");
    ColumnText("prev_sma200");
  }

  lemma OscillatorColumnTexts()
    ensures IsColumnText("rsi14") && IsColumnText("prev_rsi14") && IsColumnText("ret_3m")
  {
    hide IsColumnText;
    ColumnText("rsi14");
    ColumnText("prev_rsi14");
    ColumnText("ret_3m");
  }

  lemma LevelColumnTexts()
    ensures IsColumnText("dollar_vol") && IsColumnText("high_52w") && IsColumnText("low_52w")
  {
    hide IsColumnText;
    ColumnText("dollar_vol");
    ColumnText("high_52w");
    ColumnText("low_52w");
  }

  lemma FeaturesOk()
    ensures forall f :: f in FEATURES ==> FeatureOk(f)
  {
    hide IsColumnText;
    PriceColumnTexts();
    TrendColumnTexts();
    OscillatorColumnTexts();
    LevelColumnTexts();
  }

  lemma OperatorsOk()
    ensures forall op :: op in OPERATORS ==> OperatorOk(op)
  {}

  ghost predicate Whole(l: Preset) { l.sql != "" && AllDigits(l.sql) }

  lemma LevelsWhole()
    ensures forall l :: l in RSI_LEVELS ==> Whole(l)
    ensures forall l :: l in PRICE_LEVELS ==> Whole(l)
  {}

  lemma DollarVolLevelsWhole()
    ensures forall l :: l in DOLLAR_VOL_LEVELS ==> Whole(l)
  {}

  lemma SignedText(t: string, negative: bool, a: string, b: string)
    requires t == (if negative then "-" else "") + (a + "." + b)
    requires a != "" && AllDigits(a) && AllDigits(b)
    ensures IsTermText(t)
  {
    PointIsUnsigned(a, b);
    var u := a + "." + b;
    assert t[if negative then 1 else 0..] == u;
  }

  lemma NegativePctTexts()
    ensures IsTermText("-0.5") && IsTermText("-0.25") && IsTermText("-0.2") && IsTermText("-0.1") && IsTermText("-0.05")
  {
    hide IsTermText;
    SignedText("-0.5", true, "0", "5");
    SignedText("-0.25", true, "0", "25");
    SignedText("-0.2", true, "0", "2");
    SignedText("-0.1", true, "0", "1");
    SignedText("-0.05", true, "0", "05");
  }

  lemma PositivePctTexts()
    ensures IsTermText("0") && IsTermText("0.05") && IsTermText("0.1") && IsTermText("0.2")
    ensures IsTermText("0.25") && IsTermText("0.5") && IsTermText("1.0")
  {
    hide IsTermText;
    WholeText("0");
    SignedText("0.05", false, "0", "05");
    SignedText("0.1", false, "0", "1");
    SignedText("0.2", false, "0", "2");
    SignedText("0.25", false, "0", "25");
    SignedText("0.5", false, "0", "5");
    SignedText("1.0", false, "1", "0");
  }

  lemma PctLevelsTexts()
    ensures forall l :: l in PCT_LEVELS ==> IsTermText(l.sql)
  {
    hide IsTermText;
    NegativePctTexts();
    PositivePctTexts();
  }

  lemma WholeText(t: string)
    requires t != "" && AllDigits(t)
    ensures IsTermText(t)
  {}

  // ----- ids and SQL texts are distinct -----

  /** The second letter of an operand id names its family. */
  ghost predicate Tag(id: string, c: char) { |id| > 1 && id[1] == c }

  lemma RsiTags()
    ensures forall l :: l in RSI_LEVELS ==> Tag(l.id, 's')
  {}

  lemma PriceTags()
    ensures forall l :: l in PRICE_LEVELS ==> Tag(l.id, 'r')
  {}

  lemma DollarVolTags()
    ensures forall l :: l in DOLLAR_VOL_LEVELS ==> Tag(l.id, 'v')
  {}

  lemma PctTags()
    ensures forall l :: l in PCT_LEVELS ==> Tag(l.id, 'c')
  {}

  lemma ColumnTags()
    ensures forall o :: o in OPERAND_COLUMNS ==> Tag(o.id, '_')
  {}

  /** No two entries of a table print the same SQL. */
  lemma RsiSqlDistinct(i: nat, j: nat)
    requires i < j < 11
    ensures RSI_LEVELS[i].sql != RSI_LEVELS[j].sql
  {}

  lemma PriceSqlDistinct(i: nat, j: nat)
    requires i < j < 9
    ensures PRICE_LEVELS[i].sql != PRICE_LEVELS[j].sql
  {}

  lemma DollarVolSqlDistinct(i: nat, j: nat)
    requires i < j < 11
    ensures DOLLAR_VOL_LEVELS[i].sql != DOLLAR_VOL_LEVELS[j].sql
  {}

  lemma PctSqlDistinct(i: nat, j: nat)
    requires i < j < 12
    ensures PCT_LEVELS[i].sql != PCT_LEVELS[j].sql
  {}

  lemma ColumnSqlDistinct(o: Operand, q: Operand)
    requires o in OPERAND_COLUMNS && q in OPERAND_COLUMNS && o.sqlExpr == q.sqlExpr
    ensures o == q
  {}

  lemma FeatureSqlDistinct(i: nat, j: nat)
    requires i < j < 10
    ensures FEATURES[i].sqlExpr != FEATURES[j].sqlExpr
  {}

  lemma FeatureFirstLetter()
    ensures forall f :: f in FEATURES ==> f.sqlExpr != "" && f.sqlExpr[0] != 'p'
  {}

  lemma PriorFirstLetter()
    ensures forall f :: f in FEATURES && f.prevExpr != "" ==> f.prevExpr[0] == 'p'
  {}

  lemma OperatorsDistinct()
    ensures forall op, oq :: op in OPERATORS && oq in OPERATORS && SameComparison(op, oq) ==> op == oq
    ensures forall op :: op in OPERATORS ==> !(op.cross && op.down)
  {}

  /** No two entries of a table share an id. */
  lemma RsiIdsDistinct(i: nat, j: nat)
    requires i < j < 11
    ensures RSI_LEVELS[i].id != RSI_LEVELS[j].id
  {}

  lemma PriceIdsDistinct(i: nat, j: nat)
    requires i < j < 9
    ensures PRICE_LEVELS[i].id != PRICE_LEVELS[j].id
  {}

  lemma DollarVolIdsDistinct(i: nat, j: nat)
    requires i < j < 11
    ensures DOLLAR_VOL_LEVELS[i].id != DOLLAR_VOL_LEVELS[j].id
  {}

  lemma PctIdsDistinct(i: nat, j: nat)
    requires i < j < 12
    ensures PCT_LEVELS[i].id != PCT_LEVELS[j].id
  {}

  lemma ColumnIdsDistinct(i: nat, j: nat)
    requires i < j < 5
    ensures OPERAND_COLUMNS[i].id != OPERAND_COLUMNS[j].id
  {}

  lemma FeatureIdsDistinct(i: nat, j: nat)
    requires i < j < 10
    ensures FEATURES[i].id != FEATURES[j].id
  {}

  lemma OperatorIdsDistinct(i: nat, j: nat)
    requires i < j < 6
    ensures OPERATORS[i].id != OPERATORS[j].id
  {}
}
