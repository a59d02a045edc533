/** Sliding-window rate limits over a pruned log, with a daily counter. */
module Throttle {
  import opened Core

  datatype Limits = Limits(perMinute: int, perHour: int, perDay: int)

  datatype Role = Role(bypass: bool, limits: Limits)

  datatype Window = Minute | Hour | Day

  datatype Verdict = Allowed | Exceeded(window: Window) | NoUser | NoRole

  /** One row of rate_limits. */
  datatype Call = Call(user: string, at: int)

  const DEFAULT_LIMITS := Limits(60, 1000, 10000)

  // ----- counting -----

  function Count<T>(xs: seq<T>, p: T -> bool): nat {
    if |xs| == 0 then 0 else Count(xs[..|xs| - 1], p) + (if p(xs[|xs| - 1]) then 1 else 0)
  }

  /** Calls of a user after a moment. */
  function After(u: string, t: int): Call -> bool { (c: Call) => c.user == u && c.at > t }

  /** Calls of a user in a window that ends at a moment. */
  function Within(u: string, width: int, end: int): Call -> bool { (c: Call) => c.user == u && end - width < c.at <= end }

  /** Calls of a user on a date. */
  function OnDay(u: string, day: int, dayOf: int -> int): Call -> bool { (c: Call) => c.user == u && dayOf(c.at) == day }

  function NotBefore(t: int): Call -> bool { (c: Call) => c.at >= t }

  function Kept(log: seq<Call>, p: Call -> bool): seq<Call> {
    if log == [] then []
    else Kept(log[..|log| - 1], p) + (if p(log[|log| - 1]) then [log[|log| - 1]] else [])
  }

  lemma CountSnoc<T>(xs: seq<T>, x: T, p: T -> bool)
    ensures Count(xs + [x], p) == Count(xs, p) + (if p(x) then 1 else 0)
  {}

  lemma {:induction false} CountMonotone<T>(xs: seq<T>, p: T -> bool, q: T -> bool)
    requires forall x :: x in xs && p(x) ==> q(x)
    ensures Count(xs, p) <= Count(xs, q)
  {
    if xs != [] {
      CountMonotone(xs[..|xs| - 1], p, q);
    }
  }

  lemma {:induction false} CountNone<T>(xs: seq<T>, p: T -> bool)
    requires forall x :: x in xs ==> !p(x)
    ensures Count(xs, p) == 0
  {
    if xs != [] {
      CountNone(xs[..|xs| - 1], p);
    }
  }

  lemma {:induction false} CountAll<T>(xs: seq<T>, p: T -> bool)
    requires forall x :: x in xs ==> p(x)
    ensures Count(xs, p) == |xs|
  {
    if xs != [] {
      CountAll(xs[..|xs| - 1], p);
    }
  }

  lemma {:induction false} CountUpdate<T>(xs: seq<T>, i: nat, x: T, p: T -> bool)
    requires i < |xs|
    ensures Count(xs[i := x], p) == Count(xs, p) - (if p(xs[i]) then 1 else 0) + (if p(x) then 1 else 0)
  {
    var k := |xs| - 1;
    if i < k {
      CountUpdate(xs[..k], i, x, p);
      assert xs[i := x][..k] == xs[..k][i := x];
    } else {
      assert xs[i := x][..k] == xs[..k];
    }
  }

  lemma {:induction false} CountRemove<T>(xs: seq<T>, i: nat, p: T -> bool)
    requires i < |xs|
    ensures Count(xs[..i] + xs[i + 1..], p) == Count(xs, p) - (if p(xs[i]) then 1 else 0)
  {
    var k := |xs| - 1;
    if i < k {
      CountRemove(xs[..k], i, p);
      var rest := xs[..k][..i] + xs[..k][i + 1..];
      assert xs[..i] + xs[i + 1..] == rest + [xs[k]];
      CountSnoc(rest, xs[k], p);
    } else {
      assert xs[..i] + xs[i + 1..] == xs[..k];
    }
  }

  /** Dropping calls that a count would not see anyway does not change the count. */
  lemma {:induction false} CountKept(log: seq<Call>, keep: Call -> bool, p: Call -> bool)
    requires forall c :: c in log && p(c) ==> keep(c)
    ensures Count(Kept(log, keep), p) == Count(log, p)
  {
    if log != [] {
      var k := |log| - 1;
      CountKept(log[..k], keep, p);
      if keep(log[k]) {
        CountSnoc(Kept(log[..k], keep), log[k], p);
      } else {
        assert Kept(log, keep) == Kept(log[..k], keep);
      }
    }
  }

  // ----- decisions -----

  /** The decision for a user under limits, given how many calls each window sees. */
  function Judge(limits: Limits, minute: int, hour: int, day: int): Verdict {
    if minute >= limits.perMinute then Exceeded(Minute)
    else if hour >= limits.perHour then Exceeded(Hour)
    else if day >= limits.perDay then Exceeded(Day)
    else Allowed
  }

  /** The decision on a complete history: two clock readings, one for the sliding windows and a later
      one for the date. */
  function Decide(limits: Limits, history: seq<Call>, dayOf: int -> int, u: string, now: int, later: int): Verdict {
    Judge(limits, Count(history, After(u, now - 60)), Count(history, After(u, now - 3600)),
          Count(history, OnDay(u, dayOf(later), dayOf)))
  }

  ghost predicate Monotone(dayOf: int -> int) {
    forall a, b :: a <= b ==> dayOf(a) <= dayOf(b)
  }

  /** The pruned log counts like the full history in every window that can still be asked about. */
  ghost predicate LogMirrors(log: seq<Call>, history: seq<Call>, clock: int) {
    forall u, t :: t >= clock - 3600 ==> Count(log, After(u, t)) == Count(history, After(u, t))
  }

  type Usage = map<(string, int), int>

  function Calls(usage: Usage, u: string, day: int): int {
    if (u, day) in usage then usage[(u, day)] else 0
  }

  /** The daily counters count the full history. */
  ghost predicate UsageMirrors(usage: Usage, history: seq<Call>, dayOf: int -> int) {
    forall u, d :: Calls(usage, u, d) == Count(history, OnDay(u, d, dayOf))
  }

  lemma PruningInvisible(log: seq<Call>, history: seq<Call>, clock: int, c: Call)
    requires LogMirrors(log, history, clock) && clock <= c.at
    ensures LogMirrors(Kept(log + [c], NotBefore(c.at - 3600)), history + [c], c.at)
  {
    forall u, t | t >= c.at - 3600
      ensures Count(Kept(log + [c], NotBefore(c.at - 3600)), After(u, t)) == Count(history + [c], After(u, t))
    {
      CountKept(log + [c], NotBefore(c.at - 3600), After(u, t));
      CountSnoc(log, c, After(u, t));
      CountSnoc(history, c, After(u, t));
    }
  }

  lemma CounterCounts(usage: Usage, history: seq<Call>, dayOf: int -> int, c: Call)
    requires UsageMirrors(usage, history, dayOf)
    ensures UsageMirrors(usage[(c.user, dayOf(c.at)) := Calls(usage, c.user, dayOf(c.at)) + 1], history + [c], dayOf)
  {}

  class Throttler {
    var users: map<string, string>
    var roles: map<string, Role>
    var overrides: map<string, Limits>
    var rateLimits: seq<Call>
    var usage: Usage
    const dayOf: int -> int
    ghost var history: seq<Call>
    ghost var clock: int

    ghost predicate Valid()
      reads this
    {
      LogMirrors(rateLimits, history, clock) && UsageMirrors(usage, history, dayOf)
    }

    constructor (users: map<string, string>, roles: map<string, Role>, overrides: map<string, Limits>, dayOf: int -> int)
      ensures Valid() && history == [] && rateLimits == [] && this.dayOf == dayOf
      ensures this.users == users && this.roles == roles && this.overrides == overrides
    {
      this.users, this.roles, this.overrides, this.dayOf := users, roles, overrides, dayOf;
      rateLimits, usage := [], map[];
      history, clock := [], 0;
    }

    /** A user's own limits if there are any, else the role's, else generous defaults. */
    function EffectiveLimits(u: string): Option<Limits>
      reads this
    {
      if u in overrides then Some(overrides[u])
      else if u !in users then None
      else if users[u] in roles then Some(roles[users[u]].limits)
      else Some(DEFAULT_LIMITS)
    }

    method CheckRateLimit(u: string, now: int, later: int) returns (v: Verdict)
      requires Valid() && clock <= now <= later
      ensures v.NoUser? <==> u !in users
      ensures u in users ==> (v.NoRole? <==> users[u] !in roles)
      ensures u in users && users[u] in roles && roles[users[u]].bypass ==> v == Allowed
      ensures u in users && users[u] in roles && !roles[users[u]].bypass ==>
        v == Decide(EffectiveLimits(u).value, history, dayOf, u, now, later)
    {
      if u !in users { return NoUser; }
      if users[u] !in roles { return NoRole; }
      if roles[users[u]].bypass { return Allowed; }
      var limits := EffectiveLimits(u).value;
      var minuteCount := Count(rateLimits, After(u, now - 60));
      if minuteCount >= limits.perMinute { return Exceeded(Minute); }
      var hourCount := Count(rateLimits, After(u, now - 3600));
      if hourCount >= limits.perHour { return Exceeded(Hour); }
      var today := dayOf(later);
      var dayCount := Calls(usage, u, today);
      if dayCount >= limits.perDay { return Exceeded(Day); }
      return Allowed;
    }

    method TrackAPIUsage(u: string, now: int)
      requires Valid() && clock <= now
      modifies this`rateLimits, this`usage, this`history, this`clock
      ensures Valid() && history == old(history) + [Call(u, now)] && clock == now
    {
      hide LogMirrors, UsageMirrors;
      var call := Call(u, now);
      PruningInvisible(rateLimits, history, clock, call);
      CounterCounts(usage, history, dayOf, call);
      rateLimits := rateLimits + [call];
      var today := dayOf(now);
      usage := usage[(u, today) := Calls(usage, u, today) + 1];
      rateLimits := Kept(rateLimits, NotBefore(now - 3600));
      history, clock := history + [call], now;
    }
  }

  // ----- whole runs -----

  /** How far a call has got. Its check reads the clock, then the three windows one by one, with another reading of
      the clock for the date; a call that passed them all waits to be tracked. */
  datatype Stage = Started(now: int) | MinutePassed(now: int) | HourPassed | Dated(day: int) | Admitted

  datatype Open = Open(user: string, stage: Stage)

  /** The two tables, the calls that are on their way, and the whole history of tracked calls. */
  datatype State = State(history: seq<Call>, log: seq<Call>, usage: Usage, open: seq<Open>, clock: int)

  /** Any call may move between any two steps of another. */
  datatype Event =
    | Begin(user: string, now: int)
    | ReadMinute(i: nat)
    | ReadHour(i: nat)
    | ReadDate(i: nat, later: int)
    | ReadDay(i: nat)
    | Leave(i: nat)              // refused, failed, or never tracked
    | Track(i: nat, at: int)

  /** Fixed limits of the users that are not bypassed; the others are admitted at once. */
  datatype Policy = Policy(limits: map<string, Limits>, dayOf: int -> int)

  function Without(open: seq<Open>, i: nat): seq<Open>
    requires i < |open|
  {
    open[..i] + open[i + 1..]
  }

  function Moved(s: State, i: nat, stage: Stage): State
    requires i < |s.open|
  {
    s.(open := s.open[i := Open(s.open[i].user, stage)])
  }

  ghost predicate Step(p: Policy, s: State, e: Event, s': State) {
    match e
    case Begin(u, now) =>
      s.clock <= now && s' == s.(clock := now, open := s.open + [Open(u, if u in p.limits then Started(now) else Admitted)])
    case ReadMinute(i) =>
      && i < |s.open| && s.open[i].stage.Started? && s.open[i].user in p.limits
      && var u, now := s.open[i].user, s.open[i].stage.now;
        Count(s.log, After(u, now - 60)) < p.limits[u].perMinute && s' == Moved(s, i, MinutePassed(now))
    case ReadHour(i) =>
      && i < |s.open| && s.open[i].stage.MinutePassed? && s.open[i].user in p.limits
      && var u, now := s.open[i].user, s.open[i].stage.now;
        Count(s.log, After(u, now - 3600)) < p.limits[u].perHour && s' == Moved(s, i, HourPassed)
    case ReadDate(i, later) =>
      && i < |s.open| && s.open[i].stage.HourPassed? && s.clock <= later
      && s' == Moved(s, i, Dated(p.dayOf(later))).(clock := later)
    case ReadDay(i) =>
      && i < |s.open| && s.open[i].stage.Dated? && s.open[i].user in p.limits
      && var u, day := s.open[i].user, s.open[i].stage.day;
        Calls(s.usage, u, day) < p.limits[u].perDay && s' == Moved(s, i, Admitted)
    case Leave(i) => i < |s.open| && s' == s.(open := Without(s.open, i))
    case Track(i, at) =>
      && i < |s.open| && s.open[i].stage.Admitted? && s.clock <= at
      && var c := Call(s.open[i].user, at); var day := p.dayOf(at);
        s' == State(s.history + [c], Kept(s.log + [c], NotBefore(at - 3600)),
                    s.usage[(c.user, day) := Calls(s.usage, c.user, day) + 1], Without(s.open, i), at)
  }

  ghost predicate IsRun(p: Policy, states: seq<State>, events: seq<Event>) {
    && |states| == |events| + 1
    && states[0] == State([], [], map[], [], states[0].clock)
    && forall i :: 0 <= i < |events| ==> Step(p, states[i], events[i], states[i + 1])
  }

  /** The calls of a user that are past the first limit. */
  function InFlight(u: string): Open -> bool { (o: Open) => o.user == u && !o.stage.Started? }

  /** The calls of a user that are past the second limit. */
  function PastHour(u: string): Open -> bool {
    (o: Open) => o.user == u && !o.stage.Started? && !o.stage.MinutePassed?
  }

  /** The calls of a user that today's limit no longer holds back: the admitted ones, and those that will be measured
      against an earlier date. */
  function PastDay(u: string, today: int): Open -> bool {
    (o: Open) => o.user == u && (o.stage.Admitted? || (o.stage.Dated? && o.stage.day < today))
  }

  /** At most k calls of the user are ever between passing their first limit and their tracking. */
  ghost predicate AtMostInFlight(states: seq<State>, u: string, k: nat) {
    forall i :: 0 <= i < |states| ==> Count(states[i].open, InFlight(u)) <= k
  }

  /** What a limit comes to when k checks may be open at once; a limit that is not positive admits nothing. */
  function Bound(limit: int, k: nat): int { if limit <= 0 then 0 else limit + k - 1 }

  /** The tables mirror the history, and nothing is ahead of the clock. */
  ghost predicate Consistent(p: Policy, s: State) {
    && LogMirrors(s.log, s.history, s.clock) && UsageMirrors(s.usage, s.history, p.dayOf)
    && (forall c :: c in s.history ==> c.at <= s.clock)
    && (forall o :: o in s.open && (o.stage.Started? || o.stage.MinutePassed?) ==> o.stage.now <= s.clock)
    && (forall o :: o in s.open && o.stage.Dated? ==> o.stage.day <= p.dayOf(s.clock))
  }

  /** Recent calls and calls past the window's limit together stay within the limit plus the overlap. */
  ghost predicate WindowOk(s: State, u: string, width: int, limit: int, k: nat, past: Open -> bool) {
    && Count(s.history, After(u, s.clock - width)) + Count(s.open, past) <= Bound(limit, k)
    && (forall end :: Count(s.history, Within(u, width, end)) <= Bound(limit, k))
  }

  ghost predicate DayOk(p: Policy, s: State, u: string, limit: int, k: nat) {
    && (forall d :: Count(s.history, OnDay(u, d, p.dayOf)) <= Bound(limit, k))
    && var today := p.dayOf(s.clock);
      if limit <= 0 then forall o :: o in s.open && o.user == u ==> !o.stage.Admitted?
      else Count(s.history, OnDay(u, today, p.dayOf)) + Count(s.open, PastDay(u, today)) <= Bound(limit, k)
  }

  // ----- one step keeps the tables consistent -----

  lemma TrackConsistent(p: Policy, s: State, i: nat, at: int, s': State)
    requires Consistent(p, s) && Monotone(p.dayOf) && Step(p, s, Track(i, at), s')
    ensures Consistent(p, s')
  {
    hide LogMirrors, UsageMirrors, Kept;
    var c := Call(s.open[i].user, at);
    PruningInvisible(s.log, s.history, s.clock, c);
    CounterCounts(s.usage, s.history, p.dayOf, c);
    assert p.dayOf(s.clock) <= p.dayOf(at);
    forall o | o in s'.open ensures o in s.open {
    }
  }

  lemma StepConsistent(p: Policy, s: State, e: Event, s': State)
    requires Consistent(p, s) && Monotone(p.dayOf) && Step(p, s, e, s')
    ensures Consistent(p, s') && s.clock <= s'.clock
  {
    hide UsageMirrors;
    if e.Track? {
      TrackConsistent(p, s, e.i, e.at, s');
    } else {
      assert p.dayOf(s.clock) <= p.dayOf(s'.clock);
      assert e.Leave? ==> forall o :: o in s'.open ==> o in s.open;
    }
  }

  // ----- one step keeps the windows -----

  lemma LaterSeesLess(log: seq<Call>, u: string, t: int, t': int)
    requires t <= t'
    ensures Count(log, After(u, t')) <= Count(log, After(u, t))
  {
    CountMonotone(log, After(u, t'), After(u, t));
  }

  /** A check sees at least what the history holds in the window that ends now: neither an earlier reading of the
      clock nor pruning since then hides any of it. */
  lemma CheckSeesWindow(log: seq<Call>, history: seq<Call>, clock: int, u: string, now: int, width: int)
    requires LogMirrors(log, history, clock) && now <= clock && width <= 3600
    ensures Count(history, After(u, clock - width)) <= Count(log, After(u, now - width))
  {
    LaterSeesLess(log, u, now - width, clock - width);
  }

  lemma WindowTracked(s: State, v: string, at: int, u: string, width: int, limit: int, k: nat, past: Open -> bool)
    requires WindowOk(s, u, width, limit, k, past) && s.clock <= at && width > 0
    requires v == u ==> Count(s.open, past) > 0
    ensures forall end :: Count(s.history + [Call(v, at)], Within(u, width, end)) <= Bound(limit, k)
    ensures Count(s.history + [Call(v, at)], After(u, at - width))
         <= Count(s.history, After(u, s.clock - width)) + (if v == u then 1 else 0)
  {
    var c := Call(v, at);
    LaterSeesLess(s.history, u, s.clock - width, at - width);
    CountSnoc(s.history, c, After(u, at - width));
    forall end ensures Count(s.history + [c], Within(u, width, end)) <= Bound(limit, k) {
      CountSnoc(s.history, c, Within(u, width, end));
      if v == u && end - width < at <= end {
        LaterSeesLess(s.history, u, s.clock - width, end - width);
        CountMonotone(s.history, Within(u, width, end), After(u, end - width));
      }
    }
  }

  /** Nothing is tracked: no more calls are past the limit than before, or the limit was seen to have room. */
  lemma WindowWaits(s: State, s': State, u: string, width: int, limit: int, k: nat, past: Open -> bool)
    requires WindowOk(s, u, width, limit, k, past) && s'.history == s.history && s.clock <= s'.clock
    requires || Count(s'.open, past) <= Count(s.open, past)
             || (Count(s'.open, past) <= k && Count(s.history, After(u, s.clock - width)) < limit)
    ensures WindowOk(s', u, width, limit, k, past)
  {
    LaterSeesLess(s.history, u, s.clock - width, s'.clock - width);
  }

  lemma WindowBegins(s: State, s': State, o: Open, u: string, width: int, limit: int, k: nat, past: Open -> bool)
    requires WindowOk(s, u, width, limit, k, past) && s'.history == s.history && s.clock <= s'.clock
    requires s'.open == s.open + [o] && !past(o)
    ensures WindowOk(s', u, width, limit, k, past)
  {
    CountSnoc(s.open, o, past);
    WindowWaits(s, s', u, width, limit, k, past);
  }

  /** A call moves on in its check; to get past the limit it has to see room. */
  lemma WindowMoves(s: State, s': State, i: nat, u: string, width: int, limit: int, k: nat, past: Open -> bool)
    requires WindowOk(s, u, width, limit, k, past) && s'.history == s.history && s.clock <= s'.clock
    requires i < |s.open| == |s'.open| && s'.open == s.open[i := s'.open[i]] && Count(s'.open, past) <= k
    requires past(s'.open[i]) && !past(s.open[i]) ==> Count(s.history, After(u, s.clock - width)) < limit
    ensures WindowOk(s', u, width, limit, k, past)
  {
    CountUpdate(s.open, i, s'.open[i], past);
    WindowWaits(s, s', u, width, limit, k, past);
  }

  lemma WindowLeaves(s: State, s': State, i: nat, u: string, width: int, limit: int, k: nat, past: Open -> bool)
    requires WindowOk(s, u, width, limit, k, past) && s'.history == s.history && s.clock <= s'.clock
    requires i < |s.open| && s'.open == Without(s.open, i)
    ensures WindowOk(s', u, width, limit, k, past)
  {
    CountRemove(s.open, i, past);
    WindowWaits(s, s', u, width, limit, k, past);
  }

  /** A call that is tracked moves from the calls past the limit to the history. */
  lemma WindowTracks(s: State, s': State, i: nat, u: string, width: int, limit: int, k: nat, past: Open -> bool)
    requires WindowOk(s, u, width, limit, k, past) && s.clock <= s'.clock && width > 0 && i < |s.open|
    requires s'.history == s.history + [Call(s.open[i].user, s'.clock)] && s'.open == Without(s.open, i)
    requires s.open[i].user == u ==> past(s.open[i])
    ensures WindowOk(s', u, width, limit, k, past)
  {
    CountRemove(s.open, i, past);
    WindowTracked(s, s.open[i].user, s'.clock, u, width, limit, k, past);
  }

  /** The calls past the minute limit change when a check passes it, and when a call ends. */
  lemma MinuteStep(p: Policy, s: State, e: Event, s': State, u: string, k: nat)
    requires u in p.limits && Step(p, s, e, s') && Consistent(p, s) && s.clock <= s'.clock
    requires WindowOk(s, u, 60, p.limits[u].perMinute, k, InFlight(u)) && Count(s'.open, InFlight(u)) <= k
    ensures WindowOk(s', u, 60, p.limits[u].perMinute, k, InFlight(u))
  {
    hide LogMirrors, UsageMirrors, Kept, WindowOk, Count;
    var limit, past := p.limits[u].perMinute, InFlight(u);
    match e
    case Begin(v, now) => WindowBegins(s, s', s'.open[|s.open|], u, 60, limit, k, past);
    case ReadMinute(i) =>
      CheckSeesWindow(s.log, s.history, s.clock, s.open[i].user, s.open[i].stage.now, 60);
      WindowMoves(s, s', i, u, 60, limit, k, past);
    case ReadHour(i) => WindowMoves(s, s', i, u, 60, limit, k, past);
    case ReadDate(i, _) => WindowMoves(s, s', i, u, 60, limit, k, past);
    case ReadDay(i) => WindowMoves(s, s', i, u, 60, limit, k, past);
    case Leave(i) => WindowLeaves(s, s', i, u, 60, limit, k, past);
    case Track(i, at) => WindowTracks(s, s', i, u, 60, limit, k, past);
  }

  lemma HourStep(p: Policy, s: State, e: Event, s': State, u: string, k: nat)
    requires u in p.limits && Step(p, s, e, s') && Consistent(p, s) && s.clock <= s'.clock
    requires WindowOk(s, u, 3600, p.limits[u].perHour, k, PastHour(u)) && Count(s'.open, PastHour(u)) <= k
    ensures WindowOk(s', u, 3600, p.limits[u].perHour, k, PastHour(u))
  {
    hide LogMirrors, UsageMirrors, Kept, WindowOk, Count;
    var limit, past := p.limits[u].perHour, PastHour(u);
    match e
    case Begin(v, now) => WindowBegins(s, s', s'.open[|s.open|], u, 3600, limit, k, past);
    case ReadMinute(i) => WindowMoves(s, s', i, u, 3600, limit, k, past);
    case ReadHour(i) =>
      CheckSeesWindow(s.log, s.history, s.clock, s.open[i].user, s.open[i].stage.now, 3600);
      WindowMoves(s, s', i, u, 3600, limit, k, past);
    case ReadDate(i, _) => WindowMoves(s, s', i, u, 3600, limit, k, past);
    case ReadDay(i) => WindowMoves(s, s', i, u, 3600, limit, k, past);
    case Leave(i) => WindowLeaves(s, s', i, u, 3600, limit, k, past);
    case Track(i, at) => WindowTracks(s, s', i, u, 3600, limit, k, past);
  }

  // ----- one step keeps the days -----

  /** Time passes. On a new date nothing is tracked yet, and every call past its first limit may count. */
  lemma DayTicks(p: Policy, s: State, later: int, u: string, limit: int, k: nat)
    requires DayOk(p, s, u, limit, k) && Consistent(p, s) && Monotone(p.dayOf) && s.clock <= later
    requires Count(s.open, InFlight(u)) <= k && k > 0
    ensures DayOk(p, s.(clock := later), u, limit, k)
  {
    hide LogMirrors, UsageMirrors;
    var before, today := p.dayOf(s.clock), p.dayOf(later);
    assert before <= today;
    if before < today {
      forall c | c in s.history ensures !OnDay(u, today, p.dayOf)(c) {
        assert p.dayOf(c.at) <= before;
      }
      CountNone(s.history, OnDay(u, today, p.dayOf));
      CountMonotone(s.open, PastDay(u, today), InFlight(u));
    }
  }

  /** At one moment: nothing is tracked, and no more calls count for today, or today's limit was seen to have room. */
  lemma DayWaits(p: Policy, s: State, s': State, u: string, limit: int, k: nat)
    requires DayOk(p, s, u, limit, k) && s'.history == s.history && s'.clock == s.clock
    requires var today := p.dayOf(s.clock);
      || Count(s'.open, PastDay(u, today)) <= Count(s.open, PastDay(u, today))
      || (Count(s'.open, PastDay(u, today)) <= k && Count(s.history, OnDay(u, today, p.dayOf)) < limit)
    requires limit <= 0 ==> forall o :: o in s'.open && o.user == u ==> !o.stage.Admitted?
    ensures DayOk(p, s', u, limit, k)
  {}

  lemma DayTracked(p: Policy, s: State, i: nat, s': State, u: string, limit: int, k: nat)
    requires DayOk(p, s, u, limit, k) && i < |s.open| && s.open[i].stage.Admitted?
    requires s'.history == s.history + [Call(s.open[i].user, s.clock)] && s'.clock == s.clock
    requires s'.open == Without(s.open, i)
    ensures DayOk(p, s', u, limit, k)
  {
    var c, today := Call(s.open[i].user, s.clock), p.dayOf(s.clock);
    CountRemove(s.open, i, PastDay(u, today));
    assert s.open[i] in s.open;
    assert forall o :: o in s'.open ==> o in s.open;
    forall d ensures Count(s'.history, OnDay(u, d, p.dayOf))
      == Count(s.history, OnDay(u, d, p.dayOf)) + (if c.user == u && d == today then 1 else 0)
    {
      CountSnoc(s.history, c, OnDay(u, d, p.dayOf));
    }
  }

  lemma DayStep(p: Policy, s0: State, e: Event, s': State, u: string, k: nat)
    requires u in p.limits && Step(p, s0, e, s') && Consistent(p, s0) && Monotone(p.dayOf) && s0.clock <= s'.clock && k > 0
    requires DayOk(p, s0, u, p.limits[u].perDay, k)
    requires Count(s0.open, InFlight(u)) <= k && Count(s'.open, InFlight(u)) <= k
    ensures DayOk(p, s', u, p.limits[u].perDay, k)
  {
    var limit, s := p.limits[u].perDay, s0.(clock := s'.clock);
    DayTicks(p, s0, s'.clock, u, limit, k);
    CountMonotone(s'.open, PastDay(u, p.dayOf(s.clock)), InFlight(u));
    hide LogMirrors, Kept, DayOk, Count;
    match e
    case Begin(v, now) => DayBegins(p, s, s', u, limit, k);
    case ReadMinute(i) => DayMoves(p, s, s', i, u, limit, k);
    case ReadHour(i) => DayMoves(p, s, s', i, u, limit, k);
    case ReadDate(i, later) => DayMoves(p, s, s', i, u, limit, k);
    case ReadDay(i) => DayMoves(p, s, s', i, u, limit, k);
    case Leave(i) => DayLeaves(p, s, s', i, u, limit, k);
    case Track(i, at) => DayTracked(p, s, i, s', u, limit, k);
  }

  lemma DayBegins(p: Policy, s: State, s': State, u: string, limit: int, k: nat)
    requires DayOk(p, s, u, limit, k) && s'.history == s.history && s'.clock == s.clock
    requires |s'.open| == |s.open| + 1 && s'.open[..|s.open|] == s.open
    requires s'.open[|s.open|].user == u ==> s'.open[|s.open|].stage.Started?
    ensures DayOk(p, s', u, limit, k)
  {
    var o := s'.open[|s.open|];
    assert s'.open == s.open + [o];
    CountSnoc(s.open, o, PastDay(u, p.dayOf(s.clock)));
    DayWaits(p, s, s', u, limit, k);
  }

  /** A call moves on in its check. Only the last query can make it count for today, and that query saw room. */
  lemma DayMoves(p: Policy, s: State, s': State, i: nat, u: string, limit: int, k: nat)
    requires DayOk(p, s, u, limit, k) && s'.history == s.history && s'.clock == s.clock
    requires i < |s.open| == |s'.open| && s'.open == s.open[i := s'.open[i]] && s'.open[i].user == s.open[i].user
    requires Count(s'.open, PastDay(u, p.dayOf(s.clock))) <= k
    requires s'.open[i].stage.Dated? ==> s'.open[i].stage.day == p.dayOf(s.clock)
    requires s'.open[i].stage.Admitted? && s.open[i].user == u ==>
      s.open[i].stage.Dated? && s.open[i].stage.day <= p.dayOf(s.clock)
      && Count(s.history, OnDay(u, s.open[i].stage.day, p.dayOf)) < limit
    ensures DayOk(p, s', u, limit, k)
  {
    CountUpdate(s.open, i, s'.open[i], PastDay(u, p.dayOf(s.clock)));
    assert forall o :: o in s'.open ==> o in s.open || o == s'.open[i];
    DayWaits(p, s, s', u, limit, k);
  }

  lemma DayLeaves(p: Policy, s: State, s': State, i: nat, u: string, limit: int, k: nat)
    requires DayOk(p, s, u, limit, k) && s'.history == s.history && s'.clock == s.clock
    requires i < |s.open| && s'.open == Without(s.open, i)
    ensures DayOk(p, s', u, limit, k)
  {
    CountRemove(s.open, i, PastDay(u, p.dayOf(s.clock)));
    assert forall o :: o in s'.open ==> o in s.open;
    DayWaits(p, s, s', u, limit, k);
  }

  // ----- whole runs keep the limits -----

  /** The three limits of one user, in one state. */
  ghost predicate LimitsOk(p: Policy, s: State, u: string, k: nat)
    requires u in p.limits
  {
    && Consistent(p, s)
    && WindowOk(s, u, 60, p.limits[u].perMinute, k, InFlight(u))
    && WindowOk(s, u, 3600, p.limits[u].perHour, k, PastHour(u))
    && DayOk(p, s, u, p.limits[u].perDay, k)
  }

  lemma StepKeepsLimits(p: Policy, s: State, e: Event, s': State, u: string, k: nat)
    requires u in p.limits && Monotone(p.dayOf) && k > 0 && Step(p, s, e, s') && LimitsOk(p, s, u, k)
    requires Count(s.open, InFlight(u)) <= k && Count(s'.open, InFlight(u)) <= k
    ensures LimitsOk(p, s', u, k)
  {
    hide WindowOk, DayOk, Consistent, Step, Count;
    StepConsistent(p, s, e, s');
    CountMonotone(s'.open, PastHour(u), InFlight(u));
    MinuteStep(p, s, e, s', u, k);
    HourStep(p, s, e, s', u, k);
    DayStep(p, s, e, s', u, k);
  }

  lemma {:induction false} RunKeepsLimits(p: Policy, states: seq<State>, events: seq<Event>, u: string, k: nat)
    requires IsRun(p, states, events) && u in p.limits && Monotone(p.dayOf)
    requires AtMostInFlight(states, u, k) && k > 0
    ensures forall i :: 0 <= i < |states| ==> LimitsOk(p, states[i], u, k)
  {
    hide LimitsOk, Step, Count;
    var n := |events|;
    if n == 0 {
      StartOk(p, states[0], u, k);
    } else {
      RunKeepsLimits(p, states[..n], events[..n - 1], u, k);
      assert LimitsOk(p, states[..n][n - 1], u, k);
      StepKeepsLimits(p, states[n - 1], events[n - 1], states[n], u, k);
      assert forall i :: 0 <= i < |states| ==> i == n || states[..n][i] == states[i];
    }
  }

  lemma StartOk(p: Policy, s: State, u: string, k: nat)
    requires u in p.limits && k > 0 && s == State([], [], map[], [], s.clock)
    ensures LimitsOk(p, s, u, k)
  {}

  /** With a clock that never goes back and callers that track only what was admitted: in every run, however the steps
      of different calls interleave, if at most k calls of a user overlap, every minute, every hour and every date
      holds at most the limit plus k - 1 of the user's calls, and none if the limit is not positive; exactly the limit
      when the user's calls do not overlap. */
  lemma LimitsHold(p: Policy, states: seq<State>, events: seq<Event>, u: string, k: nat, i: nat)
    requires IsRun(p, states, events) && u in p.limits && Monotone(p.dayOf)
    requires AtMostInFlight(states, u, k) && k > 0 && i < |states|
    ensures forall end :: Count(states[i].history, Within(u, 60, end)) <= Bound(p.limits[u].perMinute, k)
    ensures forall end :: Count(states[i].history, Within(u, 3600, end)) <= Bound(p.limits[u].perHour, k)
    ensures forall d :: Count(states[i].history, OnDay(u, d, p.dayOf)) <= Bound(p.limits[u].perDay, k)
  {
    RunKeepsLimits(p, states, events, u, k);
    assert LimitsOk(p, states[i], u, k);
  }

  // ----- the bound is reached -----

  /** A calendar on which all moments fall on one date. */
  function OneDay(t: int): int { 0 }

  /** A policy in which only one of the three limits can be met. */
  ghost function TightPolicy(w: Window, l: int, k: nat): Policy {
    Policy(map["u" := Limits(
        if w.Minute? then l else l + k, if w.Hour? then l else l + k, if w.Day? then l else l + k)], OneDay)
  }

  /** The calls of "u" in the window that ends with moment zero. */
  ghost function InWindow(w: Window, s: State): nat {
    match w
    case Minute => Count(s.history, Within("u", 60, 0))
    case Hour => Count(s.history, Within("u", 3600, 0))
    case Day => Count(s.history, OnDay("u", 0, OneDay))
  }

  /** All calls of a history, or all calls on their way, are of one kind. */
  ghost predicate AllAre<T(!new)>(xs: seq<T>, x: T) { forall y :: y in xs ==> y == x }

  const WAITING := Open("u", Admitted)

  /** Everything has happened at moment zero: n calls are tracked and m are waiting to be. */
  ghost predicate StillAtZero(p: Policy, s: State, n: nat, m: nat) {
    && s.clock == 0 && s.log == s.history && AllAre(s.history, Call("u", 0)) && |s.history| == n
    && Calls(s.usage, "u", 0) == n && AllAre(s.open, WAITING) && |s.open| == m
  }

  ghost predicate AtZero(p: Policy, states: seq<State>, events: seq<Event>, n: nat, m: nat, k: nat) {
    && IsRun(p, states, events) && AtMostInFlight(states, "u", k) && StillAtZero(p, states[|events|], n, m)
  }

  lemma Goes(p: Policy, states: seq<State>, events: seq<Event>, e: Event, s': State, k: nat)
    requires IsRun(p, states, events) && AtMostInFlight(states, "u", k)
    requires Step(p, states[|events|], e, s') && Count(s'.open, InFlight("u")) <= k
    ensures IsRun(p, states + [s'], events + [e]) && AtMostInFlight(states + [s'], "u", k)
    ensures (states + [s'])[|events + [e]|] == s'
  {
    hide Step, Count;
  }

  /** One more call, at some stage of its check, among m waiting ones. */
  lemma OneMoreOpen(s: State, m: nat, k: nat, stage: Stage)
    requires AllAre(s.open, WAITING) && |s.open| == m < k
    ensures Count(s.open + [Open("u", stage)], InFlight("u")) <= k
  {
    CountAll(s.open, InFlight("u"));
    CountSnoc(s.open, Open("u", stage), InFlight("u"));
  }

  lemma AllAtZero(s: State, p: Policy, n: nat, m: nat)
    requires StillAtZero(p, s, n, m)
    ensures Count(s.log, After("u", -60)) == n && Count(s.log, After("u", -3600)) == n
    ensures Count(s.history, Within("u", 60, 0)) == n && Count(s.history, Within("u", 3600, 0)) == n
    ensures Count(s.history, OnDay("u", 0, OneDay)) == n
  {
    CountAll(s.log, After("u", -60));
    CountAll(s.log, After("u", -3600));
    CountAll(s.history, Within("u", 60, 0));
    CountAll(s.history, Within("u", 3600, 0));
    CountAll(s.history, OnDay("u", 0, OneDay));
  }

  /** A check at moment zero has taken j + 1 of its steps. */
  function StageAt(j: nat): Stage {
    if j == 0 then Started(0) else if j == 1 then MinutePassed(0) else if j == 2 then HourPassed
    else if j == 3 then Dated(0) else Admitted
  }

  function MoveAt(j: nat, m: nat): Event {
    if j == 0 then Begin("u", 0) else if j == 1 then ReadMinute(m) else if j == 2 then ReadHour(m)
    else if j == 3 then ReadDate(m, 0) else ReadDay(m)
  }

  function HavingTaken(s: State, j: nat): State { s.(open := s.open + [Open("u", StageAt(j))]) }

  /** A whole check, undisturbed. */
  lemma AdmitAtZero(w: Window, l: int, states: seq<State>, events: seq<Event>, n: nat, m: nat, k: nat)
      returns (states': seq<State>, events': seq<Event>)
    requires AtZero(TightPolicy(w, l, k), states, events, n, m, k) && n < l && m < k
    ensures AtZero(TightPolicy(w, l, k), states', events', n, m + 1, k)
  {
    var p, s := TightPolicy(w, l, k), states[|events|];
    states', events' := states, events;
    hide Step, Count;
    for j := 0 to 5
      invariant IsRun(p, states', events') && AtMostInFlight(states', "u", k)
      invariant states'[|events'|] == if j == 0 then s else HavingTaken(s, j - 1)
    {
      OneMoreOpen(s, m, k, StageAt(j));
      if j == 0 {
        CheckBegins(w, l, s, n, m, k);
      } else {
        CheckGoesOn(w, l, s, n, m, k, j);
      }
      Goes(p, states', events', MoveAt(j, m), HavingTaken(s, j), k);
      states', events' := states' + [HavingTaken(s, j)], events' + [MoveAt(j, m)];
    }
  }

  lemma CheckBegins(w: Window, l: int, s: State, n: nat, m: nat, k: nat)
    requires StillAtZero(TightPolicy(w, l, k), s, n, m)
    ensures Step(TightPolicy(w, l, k), s, MoveAt(0, m), HavingTaken(s, 0))
  {}

  lemma CheckGoesOn(w: Window, l: int, s: State, n: nat, m: nat, k: nat, j: nat)
    requires StillAtZero(TightPolicy(w, l, k), s, n, m) && n < l && 0 < j < 5
    ensures Step(TightPolicy(w, l, k), HavingTaken(s, j - 1), MoveAt(j, m), HavingTaken(s, j))
  {
    AllAtZero(s, TightPolicy(w, l, k), n, m);
    hide Count;
    var open := s.open + [Open("u", StageAt(j - 1))];
    assert open[m].user == "u" && open[m := Open("u", StageAt(j))] == s.open + [Open("u", StageAt(j))];
  }

  lemma {:induction false} KeptAll(log: seq<Call>, keep: Call -> bool)
    requires forall c :: c in log ==> keep(c)
    ensures Kept(log, keep) == log
  {
    if log != [] {
      KeptAll(log[..|log| - 1], keep);
    }
  }

  lemma TrackAtZero(w: Window, l: int, states: seq<State>, events: seq<Event>, n: nat, m: nat, k: nat)
      returns (states': seq<State>, events': seq<Event>)
    requires AtZero(TightPolicy(w, l, k), states, events, n, m, k) && 0 < m <= k
    ensures AtZero(TightPolicy(w, l, k), states', events', n + 1, m - 1, k)
  {
    var p, s := TightPolicy(w, l, k), states[|events|];
    var s' := TrackedAtZero(p, s, n, m);
    hide Step, Count, StillAtZero;
    Goes(p, states, events, Track(0, 0), s', k);
    states', events' := states + [s'], events + [Track(0, 0)];
  }

  lemma TrackedAtZero(p: Policy, s: State, n: nat, m: nat) returns (s': State)
    requires StillAtZero(p, s, n, m) && m > 0 && p.dayOf == OneDay
    ensures Step(p, s, Track(0, 0), s') && StillAtZero(p, s', n + 1, m - 1) && Count(s'.open, InFlight("u")) == m - 1
  {
    hide Kept, Count;
    assert s.open[0] in s.open;
    var log, open := s.history + [Call("u", 0)], s.open[1..];
    assert Without(s.open, 0) == open;
    assert forall o :: o in open ==> o in s.open;
    AllWaiting(open);
    AllTracked(s.history);
    s' := State(log, log, s.usage[("u", 0) := n + 1], open, 0);
  }

  lemma AllWaiting(open: seq<Open>)
    requires AllAre(open, WAITING)
    ensures Count(open, InFlight("u")) == |open|
  {
    CountAll(open, InFlight("u"));
  }

  lemma AllTracked(history: seq<Call>)
    requires AllAre(history, Call("u", 0))
    ensures AllAre(history + [Call("u", 0)], Call("u", 0))
    ensures Kept(history + [Call("u", 0)], NotBefore(-3600)) == history + [Call("u", 0)]
  {
    KeptAll(history + [Call("u", 0)], NotBefore(-3600));
  }

  /** The bound of each of the three windows is reached for every limit and every overlap: all k callers can be
      admitted when the log is one short of the limit. So a positive limit itself holds in all runs exactly
      when a user's calls never overlap. */
  lemma BoundIsReached(w: Window, l: int, k: nat) returns (states: seq<State>, events: seq<Event>)
    requires k > 0
    ensures IsRun(TightPolicy(w, l, k), states, events) && AtMostInFlight(states, "u", k)
    ensures InWindow(w, states[|events|]) == Bound(l, k)
  {
    states, events := [State([], [], map[], [], 0)], [];
    if l <= 0 {
      return;
    }
    for n := 0 to l - 1
      invariant AtZero(TightPolicy(w, l, k), states, events, n, 0, k)
    {
      states, events := AdmitAtZero(w, l, states, events, n, 0, k);
      states, events := TrackAtZero(w, l, states, events, n, 1, k);
    }
    for m := 0 to k
      invariant AtZero(TightPolicy(w, l, k), states, events, l - 1, m, k)
    {
      states, events := AdmitAtZero(w, l, states, events, l - 1, m, k);
    }
    for m := 0 to k
      invariant AtZero(TightPolicy(w, l, k), states, events, l - 1 + m, k - m, k)
    {
      states, events := TrackAtZero(w, l, states, events, l - 1 + m, k - m, k);
    }
    AllAtZero(states[|events|], TightPolicy(w, l, k), l - 1 + k, 0);
  }
}
