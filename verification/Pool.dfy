/** The concurrent universe scan: a feeder, a pool of workers, a closer and a collector that talk over an
    unbuffered channel of symbols and a bounded channel of results, under cancellation.

    A run is a list of events: each event names the goroutine that moves, so every interleaving is some list
    of events. Any number of symbols and workers is allowed. */
module Pool {
  import opened Core
  import opened Listing
  import opened Snapshot

  /** What a worker sends for a symbol with bars: the last bar's time, and the row if the symbol qualified. */
  datatype Item = Item(ts: int, kept: Option<SnapshotRow>)

  /** outcome is the deterministic part of a worker's loop body: None when the load fails or returns no bars. */
  datatype Config = Config(symbols: seq<string>, workers: nat, outcome: string -> Option<Item>)

  /** The number of goroutines started for a requested parallelism. */
  function WorkerCount(requested: int, cpus: nat, symbols: nat): (w: int)
    requires cpus >= 1
    ensures 1 <= w
    ensures symbols > 0 ==> w <= symbols
  {
    var w := if requested <= 0 then cpus else requested;
    if w > symbols && symbols > 0 then symbols else w
  }

  datatype Worker =
    | Idle
    | Taken(sym: string)
    | Loading(sym: string)
    | Loaded(item: Item)
    | Exited

  /** jobsClosed and closed are the two channels' close flags; received is what the collector has drawn. */
  datatype State = State(
    pending: seq<string>,
    jobsClosed: bool,
    pool: seq<Worker>,
    buffer: seq<Item>,
    closed: bool,
    received: seq<Item>,
    collected: bool,
    cancelled: bool)

  datatype Event =
    | Feed(w: nat)
    | FeedEnd
    | FeedCancelled
    | Check(w: nat)
    | Load(w: nat, interrupted: bool)
    | Send(w: nat)
    | Leave(w: nat)
    | Close
    | Collect
    | CollectEnd
    | Cancel

  function Init(c: Config): State {
    State(c.symbols, false, seq(c.workers, _ => Idle), [], false, [], false, false)
  }

  predicate AllExited(pool: seq<Worker>) { forall w :: 0 <= w < |pool| ==> pool[w] == Exited }

  /** All goroutines are done; the caller already has its result once collected holds. */
  predicate Final(s: State) { s.collected && s.closed && s.jobsClosed }

  /** One move of one goroutine, or None when that goroutine cannot make this move now. */
  function Step(c: Config, s: State, e: Event): Option<State> {
    match e
    case Feed(w) =>
      if w < |s.pool| && s.pool[w] == Idle && s.pending != [] && !s.jobsClosed
      then Some(s.(pending := s.pending[1..], pool := s.pool[w := Taken(s.pending[0])])) else None
    case FeedEnd =>
      if s.pending == [] && !s.jobsClosed then Some(s.(jobsClosed := true)) else None
    case FeedCancelled =>
      if s.pending != [] && s.cancelled && !s.jobsClosed then Some(s.(jobsClosed := true)) else None
    case Check(w) =>
      if w < |s.pool| && s.pool[w].Taken?
      then Some(s.(pool := s.pool[w := if s.cancelled then Exited else Loading(s.pool[w].sym)])) else None
    case Load(w, interrupted) =>
      if w < |s.pool| && s.pool[w].Loading? && (interrupted ==> s.cancelled)
      then
        var got := if interrupted then None else c.outcome(s.pool[w].sym);
        Some(s.(pool := s.pool[w := if got.None? then Idle else Loaded(got.value)]))
      else None
    case Send(w) =>
      if w < |s.pool| && s.pool[w].Loaded? && |s.buffer| < c.workers
      then Some(s.(pool := s.pool[w := Idle], buffer := s.buffer + [s.pool[w].item])) else None
    case Leave(w) =>
      if w < |s.pool| && s.pool[w] == Idle && s.jobsClosed
      then Some(s.(pool := s.pool[w := Exited])) else None
    case Close =>
      if AllExited(s.pool) && !s.closed then Some(s.(closed := true)) else None
    case Collect =>
      if s.buffer != [] then Some(s.(buffer := s.buffer[1..], received := s.received + [s.buffer[0]])) else None
    case CollectEnd =>
      if s.buffer == [] && s.closed && !s.collected then Some(s.(collected := true)) else None
    case Cancel =>
      if !s.cancelled then Some(s.(cancelled := true)) else None
  }

  /** The state after a list of events, or None when some event is not possible at its turn. */
  function Run(c: Config, events: seq<Event>): Option<State> {
    if events == [] then Some(Init(c))
    else
      var k := |events| - 1;
      var before := Run(c, events[..k]);
      if before.None? then None else Step(c, before.value, events[k])
  }

  // ----- what the scan should deliver -----

  /** The items of a symbol list, one symbol after another. */
  function Sequential(c: Config, symbols: seq<string>): seq<Item> {
    if symbols == [] then [] else Produced(c, symbols[0]) + Sequential(c, symbols[1..])
  }

  function Produced(c: Config, sym: string): seq<Item> {
    var got := c.outcome(sym);
    if got.None? then [] else [got.value]
  }

  function Kept(items: seq<Item>): seq<SnapshotRow> {
    if items == [] then []
    else
      var k := |items| - 1;
      Kept(items[..k]) + (if items[k].kept.Some? then [items[k].kept.value] else [])
  }

  /** The greatest time among the items, or 0 when none is positive. */
  ghost predicate IsLatest(items: seq<Item>, t: int) {
    && t >= 0
    && (forall it :: it in items ==> it.ts <= t)
    && (t == 0 || exists it :: it in items && it.ts == t)
  }

  ghost predicate SortedBySymbol(rows: seq<SnapshotRow>) {
    forall i, j :: 0 <= i < j < |rows| ==> !Less(rows[j].symbol, rows[i].symbol)
  }

  datatype ScanResult = ScanResult(rows: seq<SnapshotRow>, scanned: nat, maxTs: int)

  /** The collector's loop over the items it receives. */
  method CollectAll(items: seq<Item>) returns (scanned: nat, maxTs: int, rows: seq<SnapshotRow>)
    ensures scanned == |items| && IsLatest(items, maxTs) && rows == Kept(items)
  {
    scanned, maxTs, rows := 0, 0, [];
    while scanned < |items|
      invariant scanned <= |items|
      invariant IsLatest(items[..scanned], maxTs)
      invariant rows == Kept(items[..scanned])
    {
      var it := items[scanned];
      assert items[..scanned + 1] == items[..scanned] + [it];
      assert it in items[..scanned + 1];
      scanned := scanned + 1;
      if it.ts > maxTs {
        maxTs := it.ts;
      }
      if it.kept.Some? {
        rows := rows + [it.kept.value];
      }
    }
    assert items[..scanned] == items;
  }

  /** Everything the scan may return once the collector has drawn these items: the library sort is not stable,
      so all that is known of Rows is that they are the kept rows in symbol order. */
  ghost predicate Delivers(items: seq<Item>, r: ScanResult) {
    && r.scanned == |items| && IsLatest(items, r.maxTs)
    && SortedBySymbol(r.rows) && multiset(r.rows) == multiset(Kept(items))
  }

  /** Rows carry the symbol they were built for. */
  ghost predicate RowsNamed(c: Config) {
    forall sym :: c.outcome(sym).Some? && c.outcome(sym).value.kept.Some?
      ==> c.outcome(sym).value.kept.value.symbol == sym
  }

  // ----- conservation: no symbol's item is lost or duplicated -----

  function One(got: Option<Item>, it: Item): nat { if got == Some(it) then 1 else 0 }

  /** How many copies of an item a worker still has to send. */
  function Owed(c: Config, w: Worker, it: Item): nat {
    match w
    case Taken(sym) => One(c.outcome(sym), it)
    case Loading(sym) => One(c.outcome(sym), it)
    case Loaded(item) => One(Some(item), it)
    case _ => 0
  }

  function InFlight(c: Config, pool: seq<Worker>, it: Item): nat {
    if pool == [] then 0 else Owed(c, pool[0], it) + InFlight(c, pool[1..], it)
  }

  lemma {:induction false} InFlightUpdate(c: Config, pool: seq<Worker>, w: nat, to: Worker, it: Item)
    requires w < |pool|
    ensures InFlight(c, pool[w := to], it) + Owed(c, pool[w], it) == InFlight(c, pool, it) + Owed(c, to, it)
  {
    if w == 0 {
      assert pool[w := to][1..] == pool[1..];
    } else {
      assert pool[w := to][1..] == pool[1..][w - 1 := to];
      InFlightUpdate(c, pool[1..], w - 1, to, it);
    }
  }

  lemma {:induction false} InFlightNothing(c: Config, pool: seq<Worker>, it: Item)
    requires forall w :: 0 <= w < |pool| ==> pool[w] == Exited || pool[w] == Idle
    ensures InFlight(c, pool, it) == 0
  {
    if pool != [] {
      assert forall w :: 0 <= w < |pool[1..]| ==> pool[1..][w] == pool[w + 1];
      InFlightNothing(c, pool[1..], it);
    }
  }

  ghost function Copies(items: seq<Item>, it: Item): nat { multiset(items)[it] }

  /** The copies of an item in the collector, in the channel, with the workers and still to be produced. */
  ghost function Everywhere(c: Config, s: State, it: Item): nat {
    Copies(s.received, it) + Copies(s.buffer, it) + InFlight(c, s.pool, it) + Copies(Sequential(c, s.pending), it)
  }

  /** The protocol's invariant. */
  ghost predicate Shape(c: Config, s: State) {
    && |s.pool| == c.workers
    && |s.buffer| <= c.workers
    && (s.closed ==> AllExited(s.pool))
    && (s.collected ==> s.closed && s.buffer == [])
    && (!s.cancelled ==> s.jobsClosed ==> s.pending == [])
    && (!s.jobsClosed && !s.cancelled ==> forall w :: 0 <= w < |s.pool| ==> s.pool[w] != Exited)
  }

  /** A worker that only changes its own state. */
  lemma {:induction false} PoolMove(c: Config, s: State, w: nat, to: Worker, it: Item)
    requires w < |s.pool|
    ensures Everywhere(c, s.(pool := s.pool[w := to]), it) + Owed(c, s.pool[w], it) == Everywhere(c, s, it) + Owed(c, to, it)
  {
    InFlightUpdate(c, s.pool, w, to, it);
    hide InFlight, Sequential, Copies, Owed;
  }

  lemma {:induction false} FeedConserves(c: Config, s: State, w: nat, it: Item)
    requires Step(c, s, Feed(w)).Some?
    ensures Everywhere(c, Step(c, s, Feed(w)).value, it) == Everywhere(c, s, it)
  {
    InFlightUpdate(c, s.pool, w, Taken(s.pending[0]), it);
    hide InFlight;
    assert Copies(Sequential(c, s.pending), it)
      == One(c.outcome(s.pending[0]), it) + Copies(Sequential(c, s.pending[1..]), it);
  }

  lemma {:induction false} SendConserves(c: Config, s: State, w: nat, it: Item)
    requires Step(c, s, Send(w)).Some?
    ensures Everywhere(c, Step(c, s, Send(w)).value, it) == Everywhere(c, s, it)
  {
    InFlightUpdate(c, s.pool, w, Idle, it);
    CopiesAppend(s.buffer, s.pool[w].item, it);
    hide InFlight, Sequential, Copies;
  }

  lemma {:induction false} CopiesAppend(items: seq<Item>, x: Item, it: Item)
    ensures Copies(items + [x], it) == Copies(items, it) + One(Some(x), it)
  {}

  lemma {:induction false} CollectConserves(c: Config, s: State, it: Item)
    requires Step(c, s, Collect).Some?
    ensures Everywhere(c, Step(c, s, Collect).value, it) == Everywhere(c, s, it)
  {
    var first, rest := s.buffer[0], s.buffer[1..];
    assert s.buffer == [first] + rest;
    assert Copies(s.buffer, it) == One(Some(first), it) + Copies(rest, it);
    CopiesAppend(s.received, first, it);
    hide InFlight, Sequential, Copies;
  }

  /** Each move keeps every item exactly once; only a cancelled run may drop one. */
  lemma {:induction false} StepConserves(c: Config, s: State, e: Event, it: Item)
    requires Step(c, s, e).Some?
    ensures var t := Step(c, s, e).value;
      Everywhere(c, t, it) <= Everywhere(c, s, it) && (!t.cancelled ==> Everywhere(c, t, it) == Everywhere(c, s, it))
  {
    hide Everywhere;
    match e
    case Feed(w) => FeedConserves(c, s, w, it);
    case Check(w) => PoolMove(c, s, w, Step(c, s, e).value.pool[w], it);
    case Load(w, _) => PoolMove(c, s, w, Step(c, s, e).value.pool[w], it);
    case Send(w) => SendConserves(c, s, w, it);
    case Leave(w) => PoolMove(c, s, w, Exited, it);
    case Collect => CollectConserves(c, s, it);
    case _ => MarkConserves(c, s, Step(c, s, e).value, it);
  }

  /** Closing a channel, ending the collector and cancelling move no item. */
  lemma MarkConserves(c: Config, s: State, t: State, it: Item)
    requires t.received == s.received && t.buffer == s.buffer && t.pool == s.pool && t.pending == s.pending
    ensures Everywhere(c, t, it) == Everywhere(c, s, it)
  {
    hide InFlight, Sequential, Copies;
  }

  lemma {:induction false} StepKeepsShape(c: Config, s: State, e: Event)
    requires Shape(c, s) && Step(c, s, e).Some?
    ensures Shape(c, Step(c, s, e).value)
  {}

  lemma {:induction false} CancelLasts(c: Config, s: State, e: Event)
    requires Step(c, s, e).Some?
    ensures s.cancelled ==> Step(c, s, e).value.cancelled
  {}

  lemma {:induction false} RunKeepsShape(c: Config, events: seq<Event>)
    requires Run(c, events).Some?
    ensures Shape(c, Run(c, events).value)
  {
    if events != [] {
      var k := |events| - 1;
      RunKeepsShape(c, events[..k]);
      StepKeepsShape(c, Run(c, events[..k]).value, events[k]);
    }
  }

  lemma {:induction false} RunConserves(c: Config, events: seq<Event>, it: Item)
    requires Run(c, events).Some?
    ensures var s := Run(c, events).value;
      && Everywhere(c, s, it) <= Copies(Sequential(c, c.symbols), it)
      && (!s.cancelled ==> Everywhere(c, s, it) == Copies(Sequential(c, c.symbols), it))
  {
    if events == [] {
      InFlightNothing(c, Init(c).pool, it);
    } else {
      var k := |events| - 1;
      RunConserves(c, events[..k], it);
      StepConserves(c, Run(c, events[..k]).value, events[k], it);
      CancelLasts(c, Run(c, events[..k]).value, events[k]);
      hide Step, Everywhere;
    }
  }

  lemma {:induction false} ClosedBy(c: Config, s: State, e: Event)
    requires Step(c, s, e).Some?
    ensures Step(c, s, e).value.closed == (s.closed || e == Close)
    ensures e == Close ==> !s.closed
  {}

  function Closings(events: seq<Event>): nat {
    if events == [] then 0
    else Closings(events[..|events| - 1]) + (if events[|events| - 1] == Close then 1 else 0)
  }

  /** No worker ever sends on the closed results channel, and the channel is closed at most once: exactly once
      in a finished run. */
  lemma {:induction false} ClosedOnceAfterAllExited(c: Config, events: seq<Event>)
    requires Run(c, events).Some?
    ensures Closings(events) == if Run(c, events).value.closed then 1 else 0
    ensures Run(c, events).value.closed ==> AllExited(Run(c, events).value.pool)
  {
    RunKeepsShape(c, events);
    hide AllExited;
    if events != [] {
      var k := |events| - 1;
      ClosedOnceAfterAllExited(c, events[..k]);
      ClosedBy(c, Run(c, events[..k]).value, events[k]);
      hide Step;
    }
  }

  // ----- the scan always finishes -----

  function Weight(w: Worker): nat {
    match w
    case Exited => 0
    case Idle => 1
    case Loaded(_) => 3
    case Loading(_) => 4
    case Taken(_) => 5
  }

  function PoolWeight(pool: seq<Worker>): nat {
    if pool == [] then 0 else Weight(pool[0]) + PoolWeight(pool[1..])
  }

  function Flag(done: bool): nat { if done then 0 else 1 }

  /** How many moves can still be made, at most. */
  function Measure(s: State): nat {
    5 * |s.pending| + PoolWeight(s.pool) + |s.buffer|
    + Flag(s.jobsClosed) + Flag(s.closed) + Flag(s.collected) + Flag(s.cancelled)
  }

  lemma {:induction false} PoolWeightUpdate(pool: seq<Worker>, w: nat, to: Worker)
    requires w < |pool|
    ensures PoolWeight(pool[w := to]) + Weight(pool[w]) == PoolWeight(pool) + Weight(to)
  {
    if w == 0 {
      assert pool[w := to][1..] == pool[1..];
    } else {
      assert pool[w := to][1..] == pool[1..][w - 1 := to];
      PoolWeightUpdate(pool[1..], w - 1, to);
    }
  }

  lemma {:induction false} IdlePoolWeight(n: nat)
    ensures PoolWeight(seq(n, _ => Idle)) == n
  {
    if n > 0 {
      assert seq(n, _ => Idle)[1..] == seq(n - 1, _ => Idle);
      IdlePoolWeight(n - 1);
    }
  }

  lemma {:induction false} StepLowersMeasure(c: Config, s: State, e: Event)
    requires Step(c, s, e).Some?
    ensures Measure(Step(c, s, e).value) < Measure(s)
  {
    var t := Step(c, s, e).value;
    hide PoolWeight, AllExited;
    match e
    case Feed(w) => PoolWeightUpdate(s.pool, w, t.pool[w]);
    case Check(w) => PoolWeightUpdate(s.pool, w, t.pool[w]);
    case Load(w, _) => PoolWeightUpdate(s.pool, w, t.pool[w]);
    case Send(w) => PoolWeightUpdate(s.pool, w, t.pool[w]);
    case Leave(w) => PoolWeightUpdate(s.pool, w, t.pool[w]);
    case _ =>
  }

  /** No run is longer than five moves a symbol, one a worker and four more. */
  lemma {:induction false} RunsAreBounded(c: Config, events: seq<Event>)
    requires Run(c, events).Some?
    ensures |events| + Measure(Run(c, events).value) <= 5 * |c.symbols| + c.workers + 4
  {
    if events == [] {
      IdlePoolWeight(c.workers);
      assert Init(c).pool == seq(c.workers, _ => Idle);
    } else {
      var k := |events| - 1;
      RunsAreBounded(c, events[..k]);
      StepLowersMeasure(c, Run(c, events[..k]).value, events[k]);
    }
  }

  /** Whatever has happened so far, some goroutine can move until the scan is over: there is no deadlock,
      cancelled or not. Cancelling is not needed to get on. */
  lemma {:induction false} NeverStuck(c: Config, events: seq<Event>) returns (e: Event)
    requires c.workers >= 1 && Run(c, events).Some? && !Final(Run(c, events).value)
    ensures e != Cancel && Run(c, events + [e]).Some?
  {
    var s := Run(c, events).value;
    RunKeepsShape(c, events);
    e := NextMove(c, s);
    assert (events + [e])[..|events|] == events;
  }

  lemma {:induction false} NextMove(c: Config, s: State) returns (e: Event)
    requires c.workers >= 1 && Shape(c, s) && !Final(s)
    ensures e != Cancel && Step(c, s, e).Some?
  {
    if s.buffer != [] {
      e := Collect;
    } else if w: nat :| w < |s.pool| && s.pool[w] != Idle && s.pool[w] != Exited {
      e := match s.pool[w] { case Taken(_) => Check(w) case Loading(_) => Load(w, false) case _ => Send(w) };
    } else if w: nat :| w < |s.pool| && s.pool[w] == Idle {
      e := if s.jobsClosed then Leave(w) else if s.pending == [] then FeedEnd else Feed(w);
    } else {
      assert s.pool[0] == Exited;
      e := if !s.jobsClosed then (if s.pending == [] then FeedEnd else FeedCancelled)
      else if !s.closed then Close else CollectEnd;
    }
  }

  /** So every run, however far it has got, can be carried to its end, and no run can be carried on for ever. */
  lemma {:induction false} CanFinish(c: Config, events: seq<Event>) returns (more: seq<Event>)
    requires c.workers >= 1 && Run(c, events).Some?
    ensures Run(c, events + more).Some? && Final(Run(c, events + more).value) && Cancel !in more
    decreases 5 * |c.symbols| + c.workers + 4 - |events|
  {
    hide Run, Final, Measure;
    RunsAreBounded(c, events);
    more := [];
    assert events + [] == events;
    if !Final(Run(c, events).value) {
      var e := NeverStuck(c, events);
      RunsAreBounded(c, events + [e]);
      var rest := CanFinish(c, events + [e]);
      more := [e] + rest;
      assert events + more == events + [e] + rest;
    }
  }

  // ----- what a finished scan returns -----

  /** Once the collector is done it has each symbol's item exactly once, or some of them after a cancellation. */
  lemma {:induction false} FinishedHasCollected(c: Config, events: seq<Event>)
    requires c.workers >= 1 && Run(c, events).Some? && Run(c, events).value.collected
    ensures var s := Run(c, events).value;
      && multiset(s.received) <= multiset(Sequential(c, c.symbols))
      && (!s.cancelled ==> multiset(s.received) == multiset(Sequential(c, c.symbols)))
  {
    var s := Run(c, events).value;
    RunKeepsShape(c, events);
    if !s.cancelled {
      assert s.pool[0] == Exited;
      assert s.pending == [];
    }
    forall it: Item
      ensures multiset(s.received)[it] <= multiset(Sequential(c, c.symbols))[it]
      ensures !s.cancelled ==> multiset(s.received)[it] == multiset(Sequential(c, c.symbols))[it]
    {
      RunConserves(c, events, it);
      InFlightNothing(c, s.pool, it);
    }
  }

  lemma {:induction false} KeptConcat(a: seq<Item>, b: seq<Item>)
    ensures Kept(a + b) == Kept(a) + Kept(b)
  {
    if b == [] {
      assert a + b == a;
    } else {
      var k := |b| - 1;
      assert (a + b)[..|a| + k] == a + b[..k];
      KeptConcat(a, b[..k]);
    }
  }

  lemma {:induction false} KeptMonotone(a: seq<Item>, b: seq<Item>)
    requires multiset(a) <= multiset(b)
    ensures multiset(Kept(a)) <= multiset(Kept(b))
  {
    if a != [] {
      var k := |a| - 1;
      var x := a[k];
      assert a == a[..k] + [x];
      assert x in multiset(a);
      var i :| 0 <= i < |b| && b[i] == x;
      assert b == b[..i] + [x] + b[i + 1..];
      Extract(a, b, i);
      KeptMonotone(a[..k], b[..i] + b[i + 1..]);
      KeptConcat(b[..i], [x]);
      KeptConcat(b[..i] + [x], b[i + 1..]);
      KeptConcat(b[..i], b[i + 1..]);
      KeptConcat(a[..k], [x]);
      hide Kept;
    }
  }

  lemma {:induction false} Extract(a: seq<Item>, b: seq<Item>, i: nat)
    requires a != [] && i < |b| && b[i] == a[|a| - 1] && multiset(a) <= multiset(b)
    ensures multiset(a[..|a| - 1]) <= multiset(b[..i] + b[i + 1..])
  {
    var x, front, rest := b[i], a[..|a| - 1], b[..i] + b[i + 1..];
    assert a == front + [x];
    assert b == b[..i] + [x] + b[i + 1..];
    assert multiset(b) == multiset(rest) + multiset{x} && multiset(a) == multiset(front) + multiset{x};
    forall y ensures multiset(front)[y] <= multiset(rest)[y] {
      assert multiset(a)[y] <= multiset(b)[y];
    }
  }

  ghost predicate OneRowEach(rows: seq<SnapshotRow>) {
    forall r, q :: r in rows && q in rows && r.symbol == q.symbol ==> r == q
  }

  /** Rows in symbol order are determined by their multiset when a symbol has only one row. */
  lemma {:induction false} SortedUnique(a: seq<SnapshotRow>, b: seq<SnapshotRow>)
    requires SortedBySymbol(a) && SortedBySymbol(b) && multiset(a) == multiset(b) && OneRowEach(a)
    ensures a == b
  {
    if a == [] {
      assert |multiset(b)| == 0;
    } else {
      SameHead(a, b);
      TailSorted(a);
      TailSorted(b);
      TailOneRowEach(a);
      hide SortedBySymbol, OneRowEach;
      SortedUnique(a[1..], b[1..]);
      assert a == [a[0]] + a[1..] && b == [b[0]] + b[1..];
    }
  }

  lemma {:induction false} TailSorted(a: seq<SnapshotRow>)
    requires a != [] && SortedBySymbol(a)
    ensures SortedBySymbol(a[1..]) && multiset(a[1..]) == multiset(a) - multiset{a[0]}
  {
    hide Less;
    assert a == [a[0]] + a[1..];
  }

  lemma {:induction false} TailOneRowEach(a: seq<SnapshotRow>)
    requires a != [] && OneRowEach(a)
    ensures OneRowEach(a[1..])
  {}

  lemma {:induction false} SameHead(a: seq<SnapshotRow>, b: seq<SnapshotRow>)
    requires a != [] && SortedBySymbol(a) && SortedBySymbol(b) && multiset(a) == multiset(b) && OneRowEach(a)
    ensures b != [] && a[0] == b[0]
  {
    assert a[0] in multiset(b);
    assert b[0] in multiset(a);
    var i :| 0 <= i < |b| && b[i] == a[0];
    var j :| 0 <= j < |a| && a[j] == b[0];
    LessTrichotomy(a[0].symbol, b[0].symbol);
    hide Less;
    assert a[0].symbol == b[0].symbol;
    assert a[0] in a && b[0] in a;
  }

  lemma {:induction false} SequentialItems(c: Config, symbols: seq<string>, it: Item)
    requires it in Sequential(c, symbols)
    ensures exists sym :: sym in symbols && c.outcome(sym) == Some(it)
  {
    if it in Produced(c, symbols[0]) {
      assert symbols[0] in symbols;
    } else {
      SequentialItems(c, symbols[1..], it);
      var sym :| sym in symbols[1..] && c.outcome(sym) == Some(it);
      assert sym in symbols;
    }
  }

  lemma {:induction false} KeptFrom(items: seq<Item>, r: SnapshotRow)
    requires r in Kept(items)
    ensures exists it :: it in items && it.kept == Some(r)
  {
    var k := |items| - 1;
    if r in Kept(items[..k]) {
      KeptFrom(items[..k], r);
      var it :| it in items[..k] && it.kept == Some(r);
      assert it in items;
    } else {
      assert items[k] in items;
    }
  }

  lemma {:induction false} RowOfSymbol(c: Config, r: SnapshotRow)
    requires RowsNamed(c) && r in Kept(Sequential(c, c.symbols))
    ensures c.outcome(r.symbol).Some? && c.outcome(r.symbol).value.kept == Some(r)
  {
    KeptFrom(Sequential(c, c.symbols), r);
    var it :| it in Sequential(c, c.symbols) && it.kept == Some(r);
    SequentialItems(c, c.symbols, it);
  }

  lemma {:induction false} OneRowPerSymbol(c: Config, rows: seq<SnapshotRow>)
    requires RowsNamed(c) && multiset(rows) == multiset(Kept(Sequential(c, c.symbols)))
    ensures OneRowEach(rows)
  {
    forall p, q | p in rows && q in rows && p.symbol == q.symbol ensures p == q {
      assert p in multiset(rows) && q in multiset(rows);
      RowOfSymbol(c, p);
      RowOfSymbol(c, q);
    }
  }

  /** Scheduling cannot be observed: whatever the interleaving and the number of workers, an uncancelled scan
      returns what one pass over the symbols in list order would. */
  lemma {:induction false} ScanIsSequential(c: Config, events: seq<Event>, r: ScanResult, sequential: ScanResult)
    requires c.workers >= 1 && RowsNamed(c)
    requires Run(c, events).Some? && Run(c, events).value.collected && !Run(c, events).value.cancelled
    requires Delivers(Run(c, events).value.received, r)
    requires Delivers(Sequential(c, c.symbols), sequential)
    ensures r == sequential
  {
    var got, all := Run(c, events).value.received, Sequential(c, c.symbols);
    FinishedHasCollected(c, events);
    assert |got| == |multiset(got)| == |multiset(all)| == |all|;
    assert forall it :: it in got <==> it in multiset(all);
    KeptMonotone(got, all);
    KeptMonotone(all, got);
    OneRowPerSymbol(c, r.rows);
    SortedUnique(r.rows, sequential.rows);
  }

  /** A cancelled scan returns some of the full scan's rows, none twice and none altered. */
  lemma {:induction false} CancelledScanIsPart(c: Config, events: seq<Event>, r: ScanResult, full: ScanResult)
    requires c.workers >= 1
    requires Run(c, events).Some? && Run(c, events).value.collected
    requires Delivers(Run(c, events).value.received, r)
    requires Delivers(Sequential(c, c.symbols), full)
    ensures multiset(r.rows) <= multiset(full.rows) && r.scanned <= full.scanned && r.maxTs <= full.maxTs
  {
    var got, all := Run(c, events).value.received, Sequential(c, c.symbols);
    FinishedHasCollected(c, events);
    KeptMonotone(got, all);
    assert |got| == |multiset(got)| <= |multiset(all)| == |all| by {
      assert multiset(all) == multiset(got) + (multiset(all) - multiset(got));
    }
    forall it | it in got ensures it in all {
      assert it in multiset(got);
    }
  }
}
