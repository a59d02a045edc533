# Verified model of the market-data scanner

The scanner reads split-adjusted daily bars, derives one row of indicators per symbol and day, keeps those rows in a
dated snapshot table, and runs studies over that table. A study is a list of id-only rules that the server compiles to
SQL. Alerts and backtests are loops over the stored dates, and a throttler meters the callers. This project models that
core in Dafny and proves what its documentation, comments and tests promise of it.

The files follow the program:

- `Sql`, `Printer`, `Registry`, `Compiler`, `StudyKey`, `StudyTables`, `StudyRegistry`, `Splice`, `Unsplice`,
  `StudyQueries`, `Catalog`, `Samples` — the study compiler as a compiler: a lexer and a precedence parser for the target
  language with AND above OR, a three-valued evaluator, the emitted text, the text that is hashed, the shipped tables,
  conditions spliced into statements and statements read back, the catalog of the editor, and two shipped studies.
- `Series`, `Trend`, `Momentum`, `Adx`, `Price`, `Volume`, `Volatility`, `Screen`, `Warmup` — the indicators as array
  loops, each proved against a function of the series, the row that reads them at the last bar, and when its columns are
  NULL.
- `Pool`, `Cache`, `Scan`, `Backfill` — the concurrent scan as a transition system over all interleavings, the cached
  scan, their comparison, and the day loop that rebuilds history.
- `Snapshot`, `Alert`, `Backtest`, `Throttle` — the stores and their clients as classes over finite maps.
- `Core`, `Numbers`, `Listing` — options, values that may be NaN, and sorted listings.

Conventions. A float64 is a real number or NaN (`Numbers.Num`); rounding and infinities are abstracted, apart from the
returns of a backtest (`Backtest.Gain`). NaN is stored as NULL. Times are whole seconds, dates are their midnights, and
calendar arithmetic is UTC, so a day is 86400 seconds. SQL tables are finite maps whose statements succeed. A bar
source, the square root, the clock, the number of context checks that pass before a cancellation (`patience`) and the
columns of indicators outside the model are parameters.

What the proofs brought out about the code:

- Crossing rules name `prev_close`, `prev_sma50`, `prev_sma200` and `prev_rsi14`
  (internal/predicate/registry.go:90-95), which the snapshot table does not have
  (internal/snapshot/snapshot.go:76-96). A compiled study runs exactly when it has no crossing rule
  (`StudyQueries.RunsExactlyWhenCrossFree`); a backtest of any other study is an empty one, since a failed run is
  skipped. Such studies are accepted, from the shipped tables too (`Samples.AcceptedCrossingNeverRuns`).
- `Run` joins the condition text to its date test in parentheses. A statement that can be run is the conjunction it looks
  like if and only if the text is one condition by itself, whoever wrote it (`Unsplice.ConjunctionExactly`); then it
  selects the active date's rows on which that condition holds (`Splice.WholeConditionPinsDate`). Every other statement
  that can be run is either a longer chain of ANDs from the date test on, or an OR, and only an OR can select rows of
  other dates (`Unsplice.OnlyOrLeavesDate`; `Splice.EscapingConditionRuns` has one that does).
- The indicator package promises that the value at bar i is computed from earlier bars only
  (internal/indicators/indicators.go:2-5), and `ADX` says so of its DI lines too. The DI lines, CMF and Aroon read bar i
  wherever they are computed (`Adx.DiExcludesBarExactly`, `Momentum.CmfExcludesBarExactly`,
  `Trend.AroonExcludesBarExactly`); every other modelled indicator keeps the promise.
- It also promises NaN until a window is full (internal/indicators/indicators.go:5-7). `Warmup.NullExactly` says of every
  modelled column when it is NULL. ADX is 0 instead with 15 to 28 bars, and MFI with 15 (`Warmup.ZeroWarmup`). The slots
  before an EMA's seed are 0, so on bars 12 to 25 the MACD line is the short average itself, and the signal line takes
  it in: on a price that never moves the MACD is 0, while the signal is 1 - 0.8^14 of the price, about 95 percent, at its
  first bar, and loses a fifth of that with each further bar (`Warmup.SignalHoldsPrice`).
- Replaying reported changes leads from one date's list to the next one's exactly when both dates determine what they
  list (`Alert.StepSoundExactly`). A date determines which rows are listed exactly when no row that the limit cuts off
  ties with a listed one (`Alert.RowsDeterminedExactly`), and so its symbols too when all rows are of the date
  (`Alert.DeterminedExactly`). Entries and exits are found by separate runs, so with a tie at the cut they need not fit
  together (`Alert.TieBreaksTelescope`).
- A backfill that ends before the retention period deletes the dates it has just stored, still counts them, and leaves
  the store on a date without rows (`Backfill.ActiveDateHasRows`).
- A zero close at entry gives a trade an infinite or undefined return (`Backtest.GainFinite`), and one such trade makes
  the total and the mean none (`Backtest.TotalIsNumber`).
- The liquidity floor of the cached scan takes the greatest `close * volume` of all bars up to the day
  (internal/scan/cache.go:156-188), while its comment speaks of the latest bar and the direct scan looks at the last
  complete bar only. `Scan.CachedDiffersFromDirect` gives the exact difference.
- A cancelled backfill reports the number of days it had prepared and stores none of them
  (internal/scan/scan.go:276-278).
- A rate limit checked before a call is tracked can be exceeded by one less than the number of calls that are between
  passing their first limit and their tracking at once, even with other calls moving between any two queries of a check
  (`Throttle.LimitsHold`), and that bound is reached in each of the three windows (`Throttle.BoundIsReached`). The router
  tracks calls but never asks for the check (internal/api/router.go:154-158).
- `LoadHistory` deletes a date outside its insert transaction, so a duplicate symbol loses the old rows of that date.
- `DetectChanges` leaves the store on its previous date, when that one is stored.
- `NearestDate` with no later date fails while scanning a NULL minimum, not with its own "no snapshot" error; either way
  the trade is dropped.

## Model

| member | source | states |
|---|---|---|
| Core.NatTextDenotes | internal/predicate/compile.go:100-100 | the decimal text printed for a limit reads back as that number |
| Sql.LexWord | internal/predicate/compile.go:132-135 | a name followed by a delimiter is one token of the target language, whatever comes after |
| Sql.LexNumber | internal/predicate/registry.go:115-147 | an unsigned literal followed by a delimiter is one number token |
| Printer.LexPrinted | internal/predicate/compile.go:84-93 | the tokens of a printed condition are fixed and do not depend on the text that follows it |
| Printer.ParsePrinted | internal/predicate/compile.go:84-93 | the precedence parser reads a printed condition back to its own tree, with AND binding tighter than OR, and leaves the rest of the input alone |
| Printer.ParsePrintedCondition | internal/predicate/compile.go:84-93 | the same from the top of the grammar, for a condition that ends the input or stands before a closing parenthesis or a clause |
| Printer.AstInjective | internal/predicate/compile.go:84-93 | two printed conditions with the same tree are the same condition |
| Printer.TextHasNoNewline | internal/predicate/compile.go:168-168 | no printed condition holds a newline, so the hashed text can be split at its newlines |
| Registry.Index | internal/predicate/registry.go:233-239 | the index built by the loop answers every id as a search of the list from its end does |
| Registry.AllowByLoops | internal/predicate/registry.go:185-198 | the nested loops that write one operand at a time build the matrix of Allow |
| Registry.AllowUnder | internal/predicate/registry.go:189-196 | one operator's set gains exactly the listed operands and no other operator's set changes |
| Registry.AllowAdds | internal/predicate/registry.go:185-198 | an allow call adds exactly the product of its operators and operands to the legal triples of its feature |
| Registry.LookupOwnId | internal/predicate/registry.go:227-239 | with distinct ids an item is found under its own id |
| Compiler.PredicateText | internal/predicate/compile.go:107-136 | a rule is refused with the first failing check, and an accepted rule's SQL is the printed form of its clause or of its self-parenthesised crossing template |
| Compiler.CompileRules | internal/predicate/compile.go:75-82 | the first loop fails with the first bad rule and its number, or yields every rule's text in order |
| Compiler.JoinPredicates | internal/predicate/compile.go:84-93 | the second loop fails at the first unknown connector, or yields the fully parenthesised left fold |
| Compiler.Compile | internal/predicate/compile.go:57-102 | compiling fails with the first violated check in the order of the code, or returns the four texts of the study |
| Compiler.ShapeMeansTopToBottom | internal/predicate/compile.go:84-93 | the folded condition is TRUE, FALSE or NULL exactly as the rules taken strictly from top to bottom are |
| Compiler.CompiledMeansTopToBottom | internal/predicate/compile.go:84-136 | for every accepted study and every row, NULLs included, lexing and parsing the emitted WHERE text and evaluating it in three-valued logic gives the top-to-bottom value of the rules, crossings included |
| StudyKey.ParseTail | internal/predicate/compile.go:100-100 | the statement text after WHERE parses back to the condition, the sort column, its direction and the limit |
| StudyKey.StatementParses | internal/predicate/compile.go:95-101 | the whole compiled statement parses back to the study's condition, sort and limit |
| StudyKey.StatementHasNoNewline | internal/predicate/compile.go:100-101 | a compiled statement holds no newline |
| StudyKey.ShapeDeterminesRules | internal/predicate/compile.go:84-136 | two rule lists compiled from unambiguous tables to the same condition are the same rules and connectors; no crossing template can be mistaken for two rules joined by and |
| StudyKey.PreimageIdentifiesStudy | internal/predicate/compile.go:164-170 | two accepted studies are hashed from the same text if and only if they have the same universe, rules, connectors, sort feature, direction up to letter case, and limit |
| StudyRegistry.ShippedWellFormed | internal/predicate/registry.go:75-168 | every SQL fragment of the shipped tables is a column name, a literal or a comparison |
| StudyRegistry.ShippedUnambiguous | internal/predicate/registry.go:75-223 | the shipped tables satisfy what the study key rests on: ids can be read back from the SQL, and no prior-bar column is a feature's own column |
| StudyRegistry.ShippedFoundById | internal/predicate/registry.go:75-168 | no two shipped features, operators or operands share an id, so each is what its id looks up |
| StudyRegistry.AllowedIsGranted | internal/predicate/registry.go:201-223 | a triple is legal exactly when one of the builder's lines grants it |
| Splice.WholeStatement | internal/snapshot/snapshot.go:546-572 | a condition text that lexes and parses by itself as one condition keeps that tree inside the statement, joined to the date test, whatever sort and limit follow |
| Splice.WholeConditionPinsDate | internal/snapshot/snapshot.go:545-590 | for every such text, hand-written ones included, a run selects exactly the rows of the active date on which the condition is TRUE |
| Splice.EmptyConditionRuns | internal/snapshot/snapshot.go:546-549 | a study without a condition selects every row of the active date |
| Splice.EscapingConditionRuns | internal/snapshot/snapshot.go:551-566 | a text that is no condition by itself, and whose statement parses as an OR and selects the rows of every date |
| Unsplice.SplicedExactly | internal/snapshot/snapshot.go:546-566 | a statement that parses is the date test joined by AND to further conditions, or an OR; for every condition e it is the conjunction of the date test and e if and only if the text between the parentheses is, by itself, the condition e |
| Unsplice.ConjunctionExactly | internal/snapshot/snapshot.go:545-566 | a study that can be run is run as the date test AND one condition if and only if its condition text is whole by itself |
| Unsplice.OnlyOrLeavesDate | internal/snapshot/snapshot.go:545-590 | a study that can be run selects rows of the active date only, unless its statement is an OR |
| StudyQueries.CompiledStatement | internal/snapshot/snapshot.go:545-573 | a compiled condition spliced after the date test parses to the conjunction of the date test and that whole condition, with its sort and whatever limit is appended |
| StudyQueries.CompiledRunSelects | internal/snapshot/snapshot.go:545-590 | a compiled study selects exactly the rows of the active date on which its rules come out TRUE: the splice neither widens nor escapes the date test |
| StudyQueries.ShippedFitsTable | internal/predicate/registry.go:75-168 | the shipped tables name only columns of the snapshot table, apart from the prior-bar columns of crossing rules |
| StudyQueries.RunsExactlyWhenCrossFree | internal/snapshot/snapshot.go:545-565 | a compiled study is a runnable query if and only if it has no crossing rule |
| Catalog.SortByOrder | internal/predicate/catalog.go:92-98 | the in-place insertion sort leaves a permutation of the ids in ascending order position |
| Catalog.Positions | internal/predicate/catalog.go:48-51 | the order map gives every id its last position in the operand table, and zero to an unknown id |
| Catalog.OperandLists | internal/predicate/catalog.go:60-78 | a feature's operators are listed in registry order, each with an ordered permutation of its operand set, whatever order the map iteration took |
| Catalog.BuildCatalog | internal/predicate/catalog.go:47-90 | the catalog lists the features with a legal comparison, their operators, the ordered operands of each pair and the sortable features |
| Catalog.CatalogIsExact | internal/predicate/catalog.go:47-90 | the catalog's triples are exactly those the compiler accepts if and only if the matrix is coherent: legal triples name known operands, and crossings have prior-bar values on both sides |
| Catalog.AcceptedMeansOffered | internal/predicate/registry.go:170-173 | a study compiles if and only if it has the right size, every rule is a triple of the catalog, every connector is known and its sort is approved |
| Catalog.OrderingUnique | internal/predicate/catalog.go:45-46 | operand lists are deterministic: a set of known operands has one listing in registry order |
| Catalog.CatalogUnique | internal/predicate/catalog.go:45-90 | a coherent registry has exactly one catalog, whatever order its maps are iterated in |
| Catalog.ShippedCoherent | internal/predicate/registry.go:201-223 | the shipped matrix is coherent |
| Samples.AcceptedCrossingNeverRuns | internal/predicate/compile.go:57-136 | of two accepted one-rule studies of the shipped tables, what is compiled from the scalar one can be run and what is compiled from the crossing one cannot |
| Trend.SMA | internal/indicators/trend.go:8-30 | the loop writes at every index the mean of the period values before it, NaN before the first full window and for a period below one |
| Trend.SmaSlides | internal/indicators/trend.go:18-28 | moving on by one bar changes SMA by the newest value in the window less the one that left it, over the period |
| Trend.SmaBetween | internal/indicators/trend.go:18-28 | a warmed-up SMA lies between any bounds on its window |
| Trend.SmaSeesOnlyPast | internal/indicators/indicators.go:2-7 | changing inputs at or after index i leaves SMA at i unchanged |
| Trend.EMA | internal/indicators/trend.go:35-64 | the loop carries the recursive average seeded with the mean of the first period values; the slots before the seed stay 0, and a short series is all NaN |
| Trend.EmaSeesOnlyPast | internal/indicators/indicators.go:2-7 | changing inputs at or after index i leaves EMA at i unchanged |
| Trend.EmaBetween | internal/indicators/trend.go:44-63 | a warmed-up EMA lies between any bounds on the inputs before it |
| Trend.Aroon | internal/indicators/trend.go:133-148 | each line is computed from the position the scan of the period before i ends with, beginning at i; NaN for period 0 |
| Trend.PeakIsPeak | internal/indicators/trend.go:138-142 | the position the loop ends with is the one it is documented by: i if no earlier value is beyond it, else the earliest of the extreme values |
| Trend.AroonBetween | internal/indicators/trend.go:137-145 | both Aroon lines lie in [0, 100] once defined |
| Trend.AroonExcludesBarExactly | internal/indicators/indicators.go:2-5 | bar i leaves an Aroon line at i alone if and only if the line is undefined there: the package's promise fails wherever Aroon has a value |
| Momentum.RSI | internal/indicators/momentum.go:9-47 | the coupled running averages give at every index the RSI of Wilder's average gain and loss up to the bar before |
| Momentum.RsiSeesOnlyPast | internal/indicators/indicators.go:2-7 | changing closes at or after index i leaves RSI at i unchanged |
| Momentum.RsiIsShare | internal/indicators/momentum.go:49-58 | the formula is the gains' share of all movement, in percent |
| Momentum.RsiBetween | internal/indicators/momentum.go:29-58 | RSI lies in [0, 100] once defined |
| Momentum.RsiMirror | internal/indicators/momentum.go:9-58 | the RSI of a series turned upside down is 100 minus its RSI |
| Momentum.MACD | internal/indicators/momentum.go:63-90 | the three lines are the difference of the two EMAs, the EMA of that line, and their difference, NaN where an operand is NaN |
| Momentum.MacdSeesOnlyPast | internal/indicators/indicators.go:2-7 | changing closes at or after index i leaves the MACD and signal lines at i, and so the histogram, unchanged |
| Momentum.Stochastic | internal/indicators/momentum.go:96-148 | the loops give the smoothed raw oscillator and its average, undefined as long as a smoothing window holds an undefined value |
| Momentum.KSeesOnlyPast | internal/indicators/indicators.go:2-7 | changing bars at or after index i leaves %K at i unchanged |
| Momentum.DSeesOnlyPast | internal/indicators/indicators.go:2-7 | changing bars at or after index i leaves %D at i unchanged |
| Momentum.StochasticBetween | internal/indicators/momentum.go:96-148 | %K and %D are defined from kPeriod + smooth (and dPeriod more) on, and lie in [0, 100] for consistent bars |
| Momentum.WilliamsR | internal/indicators/momentum.go:153-180 | the loop writes the oscillator of the period before each index, -50 for a flat window |
| Momentum.WilliamsIsShiftedStochastic | internal/indicators/momentum.go:96-180 | Williams %R is the raw stochastic of the same window minus 100 |
| Momentum.CCI | internal/indicators/momentum.go:185-222 | the two inner loops give the distance of the last typical price from its mean in units of the mean deviation, 0 for a flat window and for the empty window of a negative period |
| Momentum.CciSeesOnlyPast | internal/indicators/indicators.go:2-7 | changing bars at or after index i leaves CCI at i unchanged |
| Momentum.CciShift | internal/indicators/momentum.go:185-222 | raising all prices by the same amount leaves CCI unchanged |
| Momentum.CMF | internal/indicators/momentum.go:350-367 | money flow over volume of the period ending with bar i, NaN without volume and for a period below 1 |
| Momentum.CmfBetween | internal/indicators/momentum.go:350-367 | CMF lies in [-1, 1] for consistent bars and volumes that are not negative |
| Momentum.CmfExcludesBarExactly | internal/indicators/indicators.go:2-5 | bar i leaves CMF at i alone if and only if CMF is undefined there for every input |
| Adx.ADX | internal/indicators/momentum.go:245-345 | the loops give both DI lines and the ADX line as recursive functions of the bars |
| Adx.MovesWithinRange | internal/indicators/momentum.go:260-285 | a bar's +DM and -DM are not negative and together at most its true range |
| Adx.SmoothKeepsBound | internal/indicators/momentum.go:287-306 | that bound is kept by Wilder's smoothing of all three series |
| Adx.DirectionalLinesBetween | internal/indicators/momentum.go:308-317 | for every consistent series and period, +DI and -DI are not negative and add up to at most 100 |
| Adx.AdxBetween | internal/indicators/momentum.go:319-342 | ADX lies in [0, 100] at every index of every consistent series long enough to have one |
| Adx.DirectionalLinesSeeUpTo | internal/indicators/momentum.go:300-317 | the DI lines at i depend on bars up to i and on none after it |
| Adx.DiExcludesBarExactly | internal/indicators/momentum.go:243-244 | bar i leaves a DI line at i alone if and only if i is before the first computed value, against the comment and the package's promise |
| Adx.AdxSeesOnlyPast | internal/indicators/indicators.go:2-7 | changing bars at or after index i leaves the ADX line at i unchanged |
| Price.RollingExtreme | internal/indicators/price.go:19-42 | the window loop writes the first of the highest (lowest) values of the period before each index |
| Price.RollingIsExtreme | internal/indicators/price.go:8-42 | that value is reached in the window and nothing in the window is beyond it |
| Price.RollingSeesOnlyPast | internal/indicators/indicators.go:2-7 | changing inputs at or after index i leaves the rolling extreme at i unchanged |
| Price.ReturnsCompound | internal/indicators/returns.go:8-18 | returns over adjoining spans compound to the return over their union |
| Price.RocIsReturn | internal/indicators/momentum.go:227-241 | on a positive base the rate of change is the return in percent |
| Volume.OBV | internal/indicators/volume.go:72-94 | the loop carries the volume signed by the direction of the previous close, starting at 0 |
| Volume.ObvSeesOnlyPast | internal/indicators/indicators.go:2-7 | changing bars at or after index i leaves OBV at i unchanged |
| Volume.ObvMirror | internal/indicators/volume.go:83-91 | turning the closes upside down turns the balance around |
| Volume.VWAP | internal/indicators/volume.go:100-129 | typical price times volume over volume of the period before each index, NaN without volume and for a period below 1 |
| Volume.VwapSeesOnlyPast | internal/indicators/indicators.go:2-7 | changing bars at or after index i leaves VWAP at i unchanged |
| Volume.VwapBetween | internal/indicators/volume.go:113-126 | VWAP lies between any bounds on its window's lows and highs |
| Volume.MFI | internal/indicators/volume.go:152-193 | the index of rising and falling money flow of the period before each index; the slots up to the period stay 0, a short series is NaN, and the empty window of period 0 or -1 reads 100 |
| Volume.MfiSeesOnlyPast | internal/indicators/indicators.go:2-7 | changing bars at or after index i leaves MFI at i unchanged |
| Volume.MfiBetween | internal/indicators/volume.go:173-190 | MFI lies in [0, 100] for consistent bars with prices and volumes that are not negative |
| Volatility.BollingerBands | internal/indicators/volatility.go:61-96 | mean and mean plus or minus mult roots of the variance of the period before each index, for any square root; NaN for period 0, and zero mean and variance for a negative one |
| Volatility.BandsSeeOnlyPast | internal/indicators/indicators.go:2-7 | changing closes at or after index i leaves all three bands at i unchanged |
| Volatility.BandsOrdered | internal/indicators/volatility.go:80-92 | lower, middle and upper band keep their order for any root that is not negative |
| Screen.Build | internal/screen/screen.go:116-298 | no bars give no row; otherwise the row holds every modelled indicator at the last bar and the two cross flags |
| Screen.PastRowSeesOnlyPast | internal/indicators/indicators.go:2-7 | the promise holds of forty-one columns, the cross flags included: nothing from bar i on reaches them |
| Screen.RowSeesOnlyPast | internal/screen/screen.go:116-298 | swapping the newest bar for any other leaves the row with the same values in those columns |
| Screen.OscillatorsWithin | internal/screen/screen.go:116-298 | in a row built from any number of sane bars, each of the columns rsi14, stoch_k, stoch_d, willr14, adx14, di_plus, di_minus, mfi14, cmf20, aroon_up, aroon_down and aroon_osc is NULL or on its scale, and di_plus and di_minus add up to at most 100 |
| Warmup.NullExactly | internal/indicators/indicators.go:5-7 | for every history and every modelled column, exactly when the row holds NULL: the number of bars it takes, and for quotients the missing or zero base |
| Warmup.ZeroWarmup | internal/indicators/momentum.go:325-342 | adx14 is 0 with 15 to 28 bars and mfi14 with 15, where the package promises NaN |
| Warmup.SignalHoldsPrice | internal/indicators/momentum.go:63-90 | on a flat price the MACD line is 0 and the signal line is (1 - 0.8^14) 0.8^(i - 26) of the price at every bar i from 26 on |
| Pool.WorkerCount | internal/scan/scan.go:50-56 | at least one worker is started, and never more than there are symbols |
| Pool.CollectAll | internal/scan/scan.go:101-111 | the collector's loop counts the items, keeps the rows that qualified in arrival order and finds the latest time |
| Pool.StepConserves | internal/scan/scan.go:58-99 | every move of feeder, worker or collector keeps every item exactly once; only a cancelled run may drop one |
| Pool.ClosedOnceAfterAllExited | internal/scan/scan.go:99-99 | the results channel is closed at most once and only after every worker has exited, so no worker sends on it afterwards |
| Pool.NeverStuck | internal/scan/scan.go:58-111 | in every reachable state that is not final, cancelled or not, some goroutine can move without a cancellation |
| Pool.RunsAreBounded | internal/scan/scan.go:58-111 | no interleaving has more than five moves a symbol, one a worker and four more |
| Pool.CanFinish | internal/scan/scan.go:58-111 | every run, however far it has got, can be carried to its end without cancelling |
| Pool.FinishedHasCollected | internal/scan/scan.go:58-111 | when the collector ends it has each symbol's item exactly once, or a part of them after a cancellation |
| Pool.ScanIsSequential | internal/scan/scan.go:49-126 | every uncancelled interleaving, for any number of workers, returns the rows, the count and the day of one pass over the symbols in list order |
| Pool.CancelledScanIsPart | internal/scan/scan.go:45-48 | a cancelled scan returns some of the full scan's rows, none twice and none altered |
| Scan.DirectKeepsExactly | internal/scan/scan.go:93-97 | the direct scan keeps a row exactly when the bar before the newest reaches the floor |
| Scan.DirectScanIsSequential | internal/scan/scan.go:49-126 | the scan over a real bar source does not depend on the interleaving |
| Scan.CachedKeepsExactly | internal/scan/scan.go:130-180 | the cached snapshot of day d holds one row for each symbol with any bar up to d that reaches the floor, built from the source's bars up to d |
| Scan.CachedRefinesDirect | internal/scan/scan.go:49-180 | every row a direct scan of the source as of day d keeps, under any interleaving, is in the cached snapshot of d, built identically |
| Scan.CachedDiffersFromDirect | internal/scan/cache.go:153-172 | the cached scan keeps a symbol the direct one drops if and only if some bar up to d reaches the floor and the last complete one does not |
| Scan.ScansAgreeAtZero | internal/scan/scan.go:130-180 | without a floor, for products that are not negative, both scans keep every symbol with two bars |
| Scan.QualifiesOnAnOldBar | internal/scan/cache.go:153-172 | an input on which the floor is met by an old bar though the latest bar misses it, against the query's comment |
| Cache.BarCache.BulkLoad | internal/scan/cache.go:68-118 | one transaction inserts every loaded bar under its own symbol and time, first one first; a failed symbol is skipped, and a cancellation leaves the cache as it was |
| Cache.UniverseFromCache | internal/scan/scan.go:130-180 | the loop returns a row for each qualifying symbol in symbol order, their number, and the newest of their bar times |
| Cache.NewestIs | internal/scan/scan.go:155-158 | the running maximum is the newest bar time up to the day among the qualifying symbols, or 0 |
| Cache.CacheServesSource | internal/scan/cache.go:68-151 | asking the cache for a symbol's bars up to d gives exactly the source's bars up to d, in order |
| Cache.CacheRowsSeeUpTo | internal/scan/scan.go:130-180 | sources that agree on all bars up to d give the same snapshot of d, whatever later bars they hold |
| Backfill.JudgeDay | internal/scan/scan.go:275-316 | the body of the day loop: weekend, already stored, no data, or a batch |
| Backfill.DayLoop | internal/scan/scan.go:269-322 | the loop collects the batches of the days in order with their counters, or stops at the day on which the context is cancelled |
| Backfill.BackfillSnapshots | internal/scan/scan.go:206-346 | a completed run adds exactly the batches of its range to the table, drops what is past retention when it does not skip stored dates, makes its last batch the active one and returns the number of batches; a failed or cancelled run stores nothing |
| Backfill.CountsAddUp | internal/scan/scan.go:269-322 | backfilled, skipped, failed and weekend days add up to the days of the range, and backfilled is the number of batches |
| Backfill.DayOfBatch | internal/scan/scan.go:275-316 | every batch is the snapshot of a weekday of the range, dated at its midnight |
| Backfill.DatesRise | internal/scan/scan.go:275-316 | the batches have strictly increasing dates |
| Backfill.BackfillSeesNoFuture | internal/scan/scan.go:202-205 | a day's batch is the same for any two sources that agree up to that day, whatever they hold later and wherever the range ends |
| Backfill.BackfillLeavesNoFuture | internal/scan/scan.go:202-346 | two runs on equal tables, over sources that agree up to a day of both ranges, leave the same rows of that day, retention included |
| Backfill.BackfillStores | internal/scan/scan.go:324-342 | after a run a row of a batch is in the table exactly when retention spares its day, and then it is the one that was there before, or the new one |
| Backfill.ActiveDateHasRows | internal/scan/scan.go:324-342 | the date a run leaves active has rows if and only if the last day it filled is within retention |
| Backfill.BackfillTwice | internal/scan/scan.go:324-342 | storing the same batches again, retention included, changes nothing |
| Snapshot.BatchesOnlyAdd | internal/snapshot/snapshot.go:216-283 | loading history never alters a stored row and adds exactly the keys of its batches |
| Snapshot.DB.LoadHistory | internal/snapshot/snapshot.go:346-404 | a date is replaced; rows with a repeated symbol fail after the date was deleted and leave the metadata alone |
| Snapshot.DB.Load | internal/snapshot/snapshot.go:149-212 | the daily load replaces its own date, with the same failure, which leaves the metadata alone |
| Snapshot.DB.LoadHistoryInsert | internal/snapshot/snapshot.go:288-341 | rows are added under new keys only, and the batch becomes the active one |
| Snapshot.DB.LoadHistoryBatch | internal/snapshot/snapshot.go:216-283 | many dates in one transaction: table and metadata end as after InsertOneByOne |
| Snapshot.DB.InsertOneByOne | internal/snapshot/snapshot.go:288-341 | the same snapshots through LoadHistoryInsert in order |
| Snapshot.DB.HasSnapshot | internal/snapshot/snapshot.go:407-414 | a date is reported exactly when the table has a row of it |
| Snapshot.DB.ListSnapshots | internal/snapshot/snapshot.go:416-433 | each stored date once, newest first |
| Snapshot.DB.SetActive | internal/snapshot/snapshot.go:435-445 | an existing date becomes active; otherwise an error and no change |
| Snapshot.DB.Cleanup | internal/snapshot/snapshot.go:447-467 | rows older than keepDays are deleted and no others, none when keepDays is not positive, and the number of dates that went is returned |
| Snapshot.DB.SymbolClose | internal/snapshot/snapshot.go:511-524 | the stored close, or an error for a missing row or a NULL close |
| Snapshot.DB.NearestDate | internal/snapshot/snapshot.go:528-537 | the least stored date at or after the given one, if any |
| Snapshot.DB.Run | internal/snapshot/snapshot.go:545-590 | the matches are an ordered listing, cut at the limit, of the active rows that satisfy the parsed statement; a statement that, in its own form or in the form that is explained first, does not parse or names an unknown column is an error |
| Snapshot.ListRows | internal/snapshot/snapshot.go:556-565 | what ORDER BY and LIMIT promise can always be met, ties aside |
| Snapshot.TidyListing | internal/snapshot/snapshot.go:567-573 | when no row that the limit cuts off ties with a listed one, every run lists the same rows |
| Snapshot.TieSwaps | internal/snapshot/snapshot.go:567-573 | a row cut off by the limit that ties with a listed one can be listed in its place |
| Alert.Detector.DetectEntries | internal/alert/alert.go:42-90 | the entries are, in order, the matches of the date that are no matches of the previous one, all of them when the previous date is not stored; errors and the active date follow the code |
| Alert.Detector.DetectExits | internal/alert/alert.go:94-134 | the exits are, in order, the previous matches that are no matches of the date, none when the previous date is not stored |
| Alert.Detector.DetectChanges | internal/alert/alert.go:137-147 | both lists for one pair of dates, with all matches entering when the previous date is not stored, or the first error; in each case the date the store is left on |
| Alert.ChangesAreDifference | internal/alert/alert.go:42-147 | for any limit, between two dates that determine what they list, entries and exits are the two differences of the listed sets |
| Alert.ChangesTelescope | internal/alert/alert.go:136-147 | for any limit, along any chain of such dates, taking out the exits and putting in the entries turns what the first date lists into what the last lists, and no symbol enters and leaves at once |
| Alert.StepSoundExactly | internal/alert/alert.go:42-147 | every report between two dates replays one list into the other if and only if both dates determine what they list |
| Alert.RowsDeterminedExactly | internal/snapshot/snapshot.go:567-573 | all runs of a date list the same rows if and only if, in any one run, no row that the limit cuts off ties with a listed one |
| Alert.DeterminedExactly | internal/snapshot/snapshot.go:567-573 | under the same condition, for a study whose rows are all of the date, all runs list the same symbols, and under no other |
| Alert.UncutOrUntiedDetermines | internal/snapshot/snapshot.go:567-573 | so it does when the limit does not cut, and when no two matches tie |
| Alert.TieBreaksTelescope | internal/alert/alert.go:42-147 | a table and a limit with a tie at the cut, for which reported changes do not replay |
| Backtest.CalculateSummary | internal/backtest/backtest.go:117-136 | winners and losers add up to the trades, the total is the sum of the returns, mean and win rate follow from them |
| Backtest.Engine.CalculateReturn | internal/backtest/backtest.go:86-114 | a trade closes on the least stored date at or after the holding time and earns the relative change, or there is none |
| Backtest.Engine.RunBacktest | internal/backtest/backtest.go:43-81 | the results are, date by date and match by match, the trades of the stored dates in range |
| Backtest.BacktestTrades | internal/backtest/backtest.go:43-114 | for any limit, a trade is among the results if and only if its symbol is listed on a stored date in range and has closes on that date and on its exit date |
| Backtest.UncutBacktestTrades | internal/backtest/backtest.go:43-114 | where the limit does not cut, those are the symbols that match |
| Backtest.GainFinite | internal/backtest/backtest.go:104-113 | the return of a trade is a number exactly when its entry close is not zero |
| Backtest.TotalIsNumber | internal/backtest/backtest.go:117-136 | the total and the mean are numbers if and only if every return is |
| Backtest.InRangeMembers | internal/backtest/backtest.go:56-59 | the dates that are traded are exactly the stored dates of the range, ends included |
| Backtest.BacktestOneEach | internal/backtest/backtest.go:56-77 | each symbol and date gives at most one trade if and only if no date's run lists a traded symbol twice |
| Backtest.PinnedNamesOnce | internal/backtest/backtest.go:56-77 | a run whose rows all are of its date never does |
| Backtest.CompiledPinned | internal/backtest/backtest.go:56-68 | every match of a compiled study on a date is a row of that date |
| Backtest.HeldLongEnough | internal/backtest/backtest.go:92-104 | a trade is held at least as many days as asked for |
| Throttle.Throttler.CheckRateLimit | internal/throttle/throttle.go:121-194 | the verdict on the pruned log and the daily counter is the verdict on the full history of tracked calls |
| Throttle.Throttler.TrackAPIUsage | internal/throttle/throttle.go:197-226 | a tracked call joins the history; log and counter keep mirroring it |
| Throttle.PruningInvisible | internal/throttle/throttle.go:221-223 | under a clock that does not go back, deleting calls older than an hour changes no count that a check can ask for |
| Throttle.CounterCounts | internal/throttle/throttle.go:211-219 | the daily counter is the number of calls of that user on that day |
| Throttle.CheckSeesWindow | internal/throttle/throttle.go:145-165 | a query of the pruned log, with an earlier clock reading, counts at least what the history holds in the window that ends now |
| Throttle.MinuteStep | internal/throttle/throttle.go:147-158 | every step of every call keeps the minute's calls and the calls past the minute limit within the bound |
| Throttle.HourStep | internal/throttle/throttle.go:160-171 | the same for the hour |
| Throttle.DayStep | internal/throttle/throttle.go:173-190 | the same for the date, also for checks that read it before midnight and pass after it |
| Throttle.LimitsHold | internal/throttle/throttle.go:121-226 | in every run in which only checked calls are tracked, at most k of them at once past their first limit, with the queries of checks interleaved in any way, every 60-second and 3600-second window and every day holds at most its limit plus k - 1, and nothing when the limit is not positive |
| Throttle.BoundIsReached | internal/throttle/throttle.go:121-226 | for each of the three windows, every limit and every k there is a run in which that window holds as many calls as the bound allows |

## Left out

- HTTP handlers, templates, the admin panel, configuration, command line, logging, migrations and the language-model client: I/O and plumbing.
- Users, groups, roles, subscriptions and saved studies: list and map agreement that adds only easy members.
- SHA-256 itself: facts are about the hashed text; `authjwt` and `auth` are not part of this model.
- Rounding and infinities of float64: all arithmetic is over the reals; the one indicator quotient the code leaves unguarded (MFI with negative prices) is shown as NaN.
- Momentum.Stochastic: a kPeriod or smooth below 1 is not modelled; the first reads outside the slices unless the first bar is flat, the second averages nothing, and the caller passes 14 and 3.
- Momentum.WilliamsR: a period below 1 is not modelled; it reads outside the slices unless the first bar is flat, and its caller passes 14.
- Adx.ADX: a period below 1 is not modelled; -1 and less writes outside the slices and 0 divides by zero, and its caller passes 14.
- Snapshot.DB.Run: statements beyond the modelled grammar are errors without effect here, where SQLite would run them: ORDER BY symbol or by an expression, the symbol or `rowid` in a condition, column names in another letter case or in quotes, functions, string literals, arithmetic, NOT, BETWEEN, IN, `==`, `<>` and `!=`, vertical tabs between tokens, and a `;` with a further statement after it, which may change the table although `Run` is modelled as changing nothing.
- A bar source whose answers change while a scan runs: the scan is proved for a deterministic one.
- Ties of ORDER BY: any listing that the ordering allows is accepted, as SQL leaves it open.
- Letter case beyond ASCII, names measured in characters rather than bytes, and white space beyond ASCII in `strings.TrimSpace`.
- Catalog.BuildCatalog: labels and categories, and the plain lists of operators and operands, which copy the tables.
- Screen.Build: the columns of ATR, Keltner channels, HistoricalVol, PSAR, UltimateOsc, relative volume, average dollar volume and the percentage and flag columns derived pointwise from modelled ones are a parameter of the row, and nothing is proved of them there.
- `LoadHistory` and `Load`: the tear-down of a stale table and failing SQL statements.
- Throttle.LimitsHold: the three statements of one tracking are one step.
- Date strings: the backfill takes its bounds as already parsed times.
- Preset studies and market breadth over the rows, resource tracking of the throttler, and the limit overrides' JSON form.
