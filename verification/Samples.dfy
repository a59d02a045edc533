/** Two studies of the shipped tables: both are accepted, and only the one without a crossing runs. */
module Samples {
  import opened Core
  import opened Registry
  import opened Compiler
  import opened StudyTables
  import opened StudyRegistry
  import opened Catalog
  import opened Snapshot
  import opened StudyQueries

  /** The close above its 50-bar mean. */
  const TREND := Definition(1, "trend", "us", [Rule("close", "above", "o_sma_50")], [], Sort("close", "asc"))

  /** The 14-bar RSI coming up through 30. */
  const REBOUND := Definition(1, "rebound", "us", [Rule("rsi_14", "crossed_above", "rsi_30")], [], Sort("rsi_14", "asc"))

  lemma ShippedRuleOk(g: Grant, f: Feature, op: Operator, o: string)
    requires g in GRANTS && Grants(g, f.id, op.id, o)
    requires f in FEATURES && op in OPERATORS
    ensures CheckRule(Shipped(), Rule(f.id, op.id, o)).Ok?
  {
    ShippedFoundById();
    AllowedIsGranted(GRANTS, f.id, op.id, o);
    assert Shipped().compat == Granted(GRANTS);
    hide Shipped, FeatureById, OperatorById, OperandById, Allowed, Granted, Grants;
    ShippedTripleOk(f.id, op.id, o);
  }

  /** A study of one granted rule that sorts by a sortable feature is accepted. */
  lemma ShippedStudyAccepted(g: Grant, f: Feature, op: Operator, o: string, name: string, universe: string)
    requires g in GRANTS && Grants(g, f.id, op.id, o)
    requires f in FEATURES && op in OPERATORS && f.sortable && |name| <= MAX_NAME_LEN
    ensures Accepted(Shipped(), Definition(1, name, universe, [Rule(f.id, op.id, o)], [], Sort(f.id, "asc")))
  {
    hide CheckRule, Shipped, FeatureById, Granted, Grants, CompileSort;
    ShippedRuleOk(g, f, op, o);
    ShippedSortOk(f);
  }

  lemma ShippedSortOk(f: Feature)
    requires f in FEATURES && f.sortable
    ensures CompileSort(Shipped(), Sort(f.id, "asc")).Ok?
  {
    ShippedFoundById();
    hide Shipped, FeatureById, Granted;
    assert Lower("asc") == "asc";
  }

  lemma TrendGranted()
    ensures Grants(GRANTS[0], FEATURES[0].id, OPERATORS[0].id, "o_sma_50")
  {
    assert "o_sma_50" == GRANTS[0].operands[0];
  }

  lemma ReboundGranted()
    ensures Grants(GRANTS[8], FEATURES[5].id, OPERATORS[4].id, "rsi_30")
  {
    assert Ids(RSI_LEVELS)[2] == "rsi_30";
  }

  lemma TrendAccepted()
    ensures Accepted(Shipped(), TREND)
  {
    TrendGranted();
    ShippedStudyAccepted(GRANTS[0], FEATURES[0], OPERATORS[0], "o_sma_50", "trend", "us");
  }

  lemma ReboundAccepted()
    ensures Accepted(Shipped(), REBOUND)
  {
    ReboundGranted();
    ShippedStudyAccepted(GRANTS[8], FEATURES[5], OPERATORS[4], "rsi_30", "rebound", "us");
  }

  lemma SamplesCross()
    ensures CrossFree(Shipped(), TREND.rules) && !CrossFree(Shipped(), REBOUND.rules)
  {
    assert OPERATORS[0] in OPERATORS && OPERATORS[4] in OPERATORS;
    ShippedFoundById();
    hide Shipped, OperatorById, FeatureById, OperandById;
    assert IsCross(Shipped(), REBOUND.rules[0]);
  }

  /** Both studies are accepted; what is compiled from the scalar one runs, and nothing compiled from the crossing
      one ever does, because its prior-bar column is not in the table. */
  lemma AcceptedCrossingNeverRuns(s: Study)
    ensures Accepted(Shipped(), TREND) && (CompiledFrom(s, Shipped(), TREND) ==> Prepare(s).Some?)
    ensures Accepted(Shipped(), REBOUND) && (CompiledFrom(s, Shipped(), REBOUND) ==> Prepare(s).None?)
  {
    TrendAccepted();
    ReboundAccepted();
    SamplesCross();
    ShippedWellFormed();
    ShippedFitsTable();
    hide Accepted, Shipped, Prepare, CompiledFrom, CrossFree;
    if CompiledFrom(s, Shipped(), TREND) {
      RunsExactlyWhenCrossFree(s, Shipped(), TREND);
    }
    if CompiledFrom(s, Shipped(), REBOUND) {
      RunsExactlyWhenCrossFree(s, Shipped(), REBOUND);
    }
  }
}
