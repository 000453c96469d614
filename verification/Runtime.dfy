/** The trading cycle as a run of atomic segments between awaits, interleaved with scanner refreshes. */
module Runtime {
  import opened Prelude
  import opened Pipeline
  import opened Scanner

  /** Where the cycle waits, with what it remembers across the await. */
  datatype Focus = Resting
                 | Fetching(symbol: string)
                 | Evaluating(symbol: string)
                 | AwaitingRisk(symbol: string, signal: Signal, allowed: bool)
                 | AwaitingReadiness(symbol: string, signal: Signal)
                 | Executing(symbol: string, signal: Signal)

  /** An order that execution reported as submitted, acknowledged or filled. */
  datatype Acceptance = Acceptance(symbol: string, signal: string, time: int)

  /** An entry request that left for the exchange, with the number of orders accepted by then. */
  datatype EntryRequest = EntryRequest(symbol: string, signal: string, time: int, accepted: nat)

  datatype System = System(watch: Watchlist, focus: Focus, submitted: set<string>, accepted: seq<Acceptance>,
                           entries: seq<EntryRequest>, clock: int)

  datatype Outcome = Accepted | Unknown | Refused

  datatype Event = Positions(open: set<string>)
                 | Begin(symbol: string, safe: bool)
                 | Candles(hour: Reading, quarter: Reading, latestEntry: Option<int>)
                 | Evaluated(evaluation: Evaluation)
                 | RiskDecided(ready: bool)
                 | ReadinessDecided(ready: bool)
                 | EntrySent(now: int)
                 | OrderReturned(outcome: Outcome, now: int)
                 | Raised
                 | Restart(stored: set<string>)
                 | Release(now: int)
                 | Look(symbol: string)
                 | Refresh(universe: seq<Opportunity>)

  // ---------------------------------------------------------------- segments of the cycle

  function At(w: Watchlist, symbol: string): Progress {
    if symbol in w.states then w.states[symbol] else FreshProgress(false)
  }

  function With(w: Watchlist, symbol: string, p: Progress): Watchlist {
    w.(states := w.states[symbol := p])
  }

  /** Permission as the cycle takes it: withheld while an order outcome is unknown and reconciliation unsafe. */
  function Opened(p: Progress, safe: bool): Progress {
    var locked := p.locked && !safe;
    p.(locked := locked, allowed := p.allowed && !locked)
  }

  /** Trend, then setup, on whatever is new. */
  function Advanced(p: Progress, hour: Reading, quarter: Reading): Progress {
    if p.phase == Cooldown then p
    else
      var new1h := hour.count > 0 && p.last1h != Some(hour.time);
      var new15m := quarter.count > 0 && p.last15m != Some(quarter.time);
      var q := if hour.count > 0 && (new1h || p.phase == Discovered) then AfterTrend(p, hour) else p;
      if quarter.count > 0 && q.trendValid && (new15m || q.setup.None?) then AfterSetup(q, quarter) else q
  }

  predicate NeedsEntry(before: Progress, p: Progress, latestEntry: Option<int>) {
    && before.phase != Cooldown && latestEntry.Some? && before.last5m != latestEntry
    && p.setup == Some(true) && p.phase in {Watching, Armed, Triggered}
  }

  function Blocked(p: Progress): Progress {
    p.(phase := Invalidated, locked := false)
  }

  /** Entry evaluation and, in the same segment, its confirmation or its refusal. */
  function Decided(p: Progress, e: Evaluation): Progress {
    var q := AfterEntry(p, e);
    if q.phase != Armed then q else if q.allowed then AfterConfirm(q) else Blocked(q)
  }

  /** What the cycle does next with a symbol: only a stored signal in TRIGGERED goes on. */
  function Dispatch(symbol: string, p: Progress): Focus {
    if p.phase == Triggered && p.signal.Some? then AwaitingRisk(symbol, p.signal.value, p.allowed) else Resting
  }

  function AfterOrder(cfg: Config, s: System, outcome: Outcome, now: int): System
    requires s.focus.Executing?
  {
    var symbol, id := s.focus.symbol, s.focus.signal.id;
    var p := At(s.watch, symbol);
    match outcome
    case Accepted =>
      var executed := With(s.watch, symbol, p.(phase := Executed, locked := false));
      s.(watch := Cooled(cfg, executed, symbol, now), focus := Resting, submitted := s.submitted + {id},
         accepted := s.accepted + [Acceptance(symbol, id, now)], clock := now)
    case Unknown =>
      s.(watch := With(s.watch, symbol, p.(phase := Invalidated, locked := true)), focus := Resting,
         submitted := s.submitted + {id}, clock := now)
    case Refused =>
      s.(watch := With(s.watch, symbol, p.(phase := Invalidated)), focus := Resting, clock := now)
  }

  predicate Sent(entries: seq<EntryRequest>, signal: string) {
    exists i :: 0 <= i < |entries| && entries[i].signal == signal
  }

  /** One segment. Events that do not fit the cycle's place, or the clock, do not happen. */
  function Step(cfg: Config, s: System, e: Event): System {
    var w := s.watch;
    match e
    case Positions(open) => if s.focus == Resting then s.(watch := w.(open := open)) else s
    case Begin(symbol, safe) =>
      if s.focus != Resting then s
      else
        var t := Touched(cfg, w, symbol);
        s.(watch := With(t, symbol, Opened(t.states[symbol], safe)), focus := Fetching(symbol))
    case Candles(hour, quarter, latestEntry) =>
      if !s.focus.Fetching? then s
      else
        var symbol := s.focus.symbol;
        var p := Advanced(At(w, symbol), hour, quarter);
        s.(watch := With(w, symbol, p),
           focus := if NeedsEntry(At(w, symbol), p, latestEntry) then Evaluating(symbol) else Dispatch(symbol, p))
    case Evaluated(evaluation) =>
      if !s.focus.Evaluating? then s
      else
        var symbol := s.focus.symbol;
        var p := Decided(At(w, symbol), evaluation);
        s.(watch := With(w, symbol, p), focus := Dispatch(symbol, p))
    case RiskDecided(ready) =>
      if !s.focus.AwaitingRisk? then s
      else
        var symbol := s.focus.symbol;
        if ready && s.focus.allowed then s.(focus := AwaitingReadiness(symbol, s.focus.signal))
        else
          var p := At(w, symbol);
          s.(watch := With(w, symbol, if ready then Blocked(p) else p.(phase := Invalidated)), focus := Resting)
    case ReadinessDecided(ready) =>
      if !s.focus.AwaitingReadiness? then s
      else
        var symbol := s.focus.symbol;
        if !ready then s.(watch := With(w, symbol, Blocked(At(w, symbol))), focus := Resting)
        else if s.focus.signal.id in s.submitted then s.(focus := Resting)
        else s.(focus := Executing(symbol, s.focus.signal))
    // The execution under way requests its entry; the store lets each signal do so once.
    case EntrySent(now) =>
      if s.focus.Executing? && now >= s.clock && !Sent(s.entries, s.focus.signal.id) then
        s.(entries := s.entries + [EntryRequest(s.focus.symbol, s.focus.signal.id, now, |s.accepted|)], clock := now)
      else s
    case OrderReturned(outcome, now) =>
      if s.focus.Executing? && now >= s.clock then AfterOrder(cfg, s, outcome, now) else s
    case Raised => s.(focus := Resting)
    // The worker was stopped and started: the store lists every signal that ever had an intent.
    case Restart(stored) => if s.submitted <= stored then s.(focus := Resting, submitted := stored) else s
    case Release(now) => if now >= s.clock then s.(watch := Released(cfg, w, now), clock := now) else s
    case Look(symbol) => s.(watch := Touched(cfg, w, symbol))
    case Refresh(universe) => s.(watch := Refreshed(cfg, w, universe))
  }

  /** A process starts with an empty watchlist and the signals the store knows as submitted. */
  function Start(clock: int, known: set<string>): System {
    System(Watchlist(map[], map[], {}, {}), Resting, known, [], [], clock)
  }

  function Run(cfg: Config, clock: int, known: set<string>, events: seq<Event>): System
    decreases |events|
  {
    if events == [] then Start(clock, known) else Step(cfg, Run(cfg, clock, known, events[..|events| - 1]), events[|events| - 1])
  }

  // ---------------------------------------------------------------- what every segment keeps

  /** A symbol is listed as cooling down exactly when its state is COOLDOWN, with the same expiry. */
  ghost predicate CooldownsExact(w: Watchlist) {
    forall s ::
      && (s in w.cooldowns <==> s in w.states && w.states[s].phase == Cooldown)
      && (s in w.cooldowns ==> w.states[s].cooldownUntil == Some(w.cooldowns[s]))
  }

  /** No symbol rests in ARMED, and only a symbol allowed now, or one cooling down, carries a permission. */
  ghost predicate PermissionsSound(cfg: Config, w: Watchlist) {
    forall s :: s in w.states ==>
      w.states[s].phase != Armed && (w.states[s].allowed ==> w.states[s].phase == Cooldown || Allowed(cfg, w, s))
  }

  /** While the cycle waits, its symbol stays where the cycle left it. */
  predicate FocusHeld(s: System) {
    match s.focus
    case Resting => true
    case Fetching(symbol) => symbol in s.watch.states
    case Evaluating(symbol) => symbol in s.watch.states && s.watch.states[symbol].phase != Cooldown
    case AwaitingRisk(symbol, _, _) => symbol in s.watch.states && s.watch.states[symbol].phase == Triggered
    case AwaitingReadiness(symbol, _) => symbol in s.watch.states && s.watch.states[symbol].phase == Triggered
    case Executing(symbol, signal) =>
      symbol in s.watch.states && s.watch.states[symbol].phase == Triggered && signal.id !in s.submitted
  }

  /** An accepted order's cooldown is over, or still listed. */
  predicate Covered(cfg: Config, s: System, a: Acceptance) {
    && a.time <= s.clock && a.signal in s.submitted
    && (a.time + cfg.cooldown <= s.clock || (a.symbol in s.watch.cooldowns && s.watch.cooldowns[a.symbol] >= a.time + cfg.cooldown))
  }

  ghost predicate AllCovered(cfg: Config, s: System) {
    forall i :: 0 <= i < |s.accepted| ==> Covered(cfg, s, s.accepted[i])
  }

  ghost predicate Apart(cfg: Config, accepted: seq<Acceptance>) {
    forall i, j :: 0 <= i < j < |accepted| ==>
      && accepted[i].signal != accepted[j].signal
      && (accepted[i].symbol == accepted[j].symbol ==> accepted[j].time >= accepted[i].time + cfg.cooldown)
  }

  ghost predicate Safe(cfg: Config, s: System) {
    CooldownsExact(s.watch) && PermissionsSound(cfg, s.watch) && FocusHeld(s) && AllCovered(cfg, s) && Apart(cfg, s.accepted)
  }

  // ---------------------------------------------------------------- watchlist steps

  /** Rewriting the state of one symbol that is not cooling down. */
  lemma WithKeeps(cfg: Config, w: Watchlist, symbol: string, p: Progress)
    requires CooldownsExact(w) && PermissionsSound(cfg, w)
    requires symbol in w.states && w.states[symbol].phase != Cooldown
    requires p.phase != Cooldown && p.phase != Armed && (p.allowed ==> Allowed(cfg, w, symbol))
    ensures CooldownsExact(With(w, symbol, p)) && PermissionsSound(cfg, With(w, symbol, p))
  {
  }

  lemma TouchKeeps(cfg: Config, w: Watchlist, symbol: string)
    requires CooldownsExact(w) && PermissionsSound(cfg, w)
    ensures CooldownsExact(Touched(cfg, w, symbol)) && PermissionsSound(cfg, Touched(cfg, w, symbol))
    ensures forall s :: s in w.states ==> s in Touched(cfg, w, symbol).states && SamePlace(Touched(cfg, w, symbol).states[s], w.states[s])
  {
  }

  /** Equal but for the permission. */
  predicate SamePlace(p: Progress, q: Progress) {
    p == q.(allowed := p.allowed)
  }

  lemma RefreshKeeps(cfg: Config, w: Watchlist, universe: seq<Opportunity>)
    requires CooldownsExact(w) && PermissionsSound(cfg, w)
    ensures var next := Refreshed(cfg, w, universe);
      CooldownsExact(next) && PermissionsSound(cfg, next) && forall s :: s in w.states ==> s in next.states && SamePlace(next.states[s], w.states[s])
  {
    hide Pool;
  }

  /** A release takes exactly the cooldowns that are over, and moves no other symbol. */
  lemma ReleaseKeeps(cfg: Config, w: Watchlist, now: int)
    requires CooldownsExact(w) && PermissionsSound(cfg, w)
    ensures var next := Released(cfg, w, now);
      && CooldownsExact(next) && PermissionsSound(cfg, next)
      && (forall s :: s in next.cooldowns <==> s in w.cooldowns && now < w.cooldowns[s])
      && (forall s :: s in next.cooldowns ==> next.cooldowns[s] == w.cooldowns[s])
      && (forall s :: s in w.states && s !in w.cooldowns ==> s in next.states && next.states[s] == w.states[s])
  {
    var next := Released(cfg, w, now);
    forall s ensures
      && (s in next.cooldowns <==> s in w.cooldowns && now < w.cooldowns[s])
      && (s in w.cooldowns ==> s in next.states && (next.states[s].phase == Cooldown <==> now < w.cooldowns[s])
                               && !next.states[s].allowed && next.states[s].phase != Armed)
    {
    }
  }

  lemma CooledKeeps(cfg: Config, w: Watchlist, symbol: string, now: int)
    requires CooldownsExact(w) && PermissionsSound(cfg, w) && symbol in w.states
    ensures CooldownsExact(Cooled(cfg, w, symbol, now)) && PermissionsSound(cfg, Cooled(cfg, w, symbol, now))
    ensures Cooled(cfg, w, symbol, now).cooldowns == w.cooldowns[symbol := now + cfg.cooldown]
  {
  }

  // ---------------------------------------------------------------- segment by segment

  /** A segment that adds no acceptance and leaves the cooldowns, or releases only those that are over. */
  lemma CoverageKept(cfg: Config, s: System, next: System)
    requires AllCovered(cfg, s) && Apart(cfg, s.accepted)
    requires next.accepted == s.accepted && s.submitted <= next.submitted && s.clock <= next.clock
    requires forall x :: x in s.watch.cooldowns ==>
      (x in next.watch.cooldowns && next.watch.cooldowns[x] == s.watch.cooldowns[x]) || s.watch.cooldowns[x] <= next.clock
    ensures AllCovered(cfg, next) && Apart(cfg, next.accepted)
  {
  }

  lemma BeginSafe(cfg: Config, s: System, symbol: string, safe: bool)
    requires Safe(cfg, s)
    ensures Safe(cfg, Step(cfg, s, Begin(symbol, safe)))
  {
    hide Allowed, AllCovered, Apart;
    if s.focus == Resting {
      TouchKeeps(cfg, s.watch, symbol);
      var t := Touched(cfg, s.watch, symbol);
      var p := Opened(t.states[symbol], safe);
      OpenedKeeps(cfg, t, symbol, p);
      CoverageKept(cfg, s, Step(cfg, s, Begin(symbol, safe)));
    }
  }

  lemma OpenedKeeps(cfg: Config, w: Watchlist, symbol: string, p: Progress)
    requires CooldownsExact(w) && PermissionsSound(cfg, w) && symbol in w.states
    requires p == w.states[symbol].(allowed := p.allowed, locked := p.locked) && (p.allowed ==> w.states[symbol].allowed)
    ensures CooldownsExact(With(w, symbol, p)) && PermissionsSound(cfg, With(w, symbol, p))
  {
  }

  lemma AdvancedStays(p: Progress, hour: Reading, quarter: Reading)
    ensures var q := Advanced(p, hour, quarter);
      && (p.phase == Cooldown ==> q == p) && q.allowed == p.allowed
      && (p.phase != Cooldown ==> q.phase != Cooldown) && (p.phase != Armed ==> q.phase != Armed)
  {
  }

  lemma CandlesSafe(cfg: Config, s: System, hour: Reading, quarter: Reading, latestEntry: Option<int>)
    requires Safe(cfg, s)
    ensures Safe(cfg, Step(cfg, s, Candles(hour, quarter, latestEntry)))
  {
    hide Allowed, AllCovered, Apart, Advanced, CooldownsExact;
    if s.focus.Fetching? {
      var symbol := s.focus.symbol;
      var p := s.watch.states[symbol];
      AdvancedStays(p, hour, quarter);
      if p.phase == Cooldown {
        assert With(s.watch, symbol, p) == s.watch;
      } else {
        NotCooling(s.watch, symbol);
        WithKeeps(cfg, s.watch, symbol, Advanced(p, hour, quarter));
      }
      CoverageKept(cfg, s, Step(cfg, s, Candles(hour, quarter, latestEntry)));
    }
  }

  lemma NotCooling(w: Watchlist, symbol: string)
    requires CooldownsExact(w) && symbol in w.states && w.states[symbol].phase != Cooldown
    ensures symbol !in w.cooldowns
  {
  }

  lemma DecidedStays(p: Progress, e: Evaluation)
    requires p.phase != Cooldown && p.phase != Armed
    ensures Decided(p, e).allowed == p.allowed && Decided(p, e).phase != Cooldown && Decided(p, e).phase != Armed
    ensures Decided(p, e).phase == Triggered && p.phase != Triggered ==>
      p.phase == Watching && p.allowed && e.signal.Some? && Decided(p, e).signal == e.signal
  {
  }

  lemma EvaluatedSafe(cfg: Config, s: System, e: Evaluation)
    requires Safe(cfg, s)
    ensures Safe(cfg, Step(cfg, s, Evaluated(e)))
  {
    hide Allowed, AllCovered, Apart, Decided, CooldownsExact;
    if s.focus.Evaluating? {
      var symbol := s.focus.symbol;
      DecidedStays(s.watch.states[symbol], e);
      WithKeeps(cfg, s.watch, symbol, Decided(s.watch.states[symbol], e));
      CoverageKept(cfg, s, Step(cfg, s, Evaluated(e)));
    }
  }

  lemma DecisionSafe(cfg: Config, s: System, e: Event)
    requires Safe(cfg, s) && (e.RiskDecided? || e.ReadinessDecided? || e.Raised? || e.Restart? || e.Positions? || e.EntrySent?)
    ensures Safe(cfg, Step(cfg, s, e))
  {
    hide AllCovered, Apart, CooldownsExact;
    if s.focus.AwaitingRisk? || s.focus.AwaitingReadiness? {
      var symbol := s.focus.symbol;
      var p := s.watch.states[symbol];
      WithKeeps(cfg, s.watch, symbol, p.(phase := Invalidated));
      WithKeeps(cfg, s.watch, symbol, Blocked(p));
    }
    if e.Positions? {
      OpenMatters(cfg, s.watch, e.open);
    }
    CoverageKept(cfg, s, Step(cfg, s, e));
  }

  lemma OpenMatters(cfg: Config, w: Watchlist, open: set<string>)
    requires CooldownsExact(w) && PermissionsSound(cfg, w)
    ensures CooldownsExact(w.(open := open)) && PermissionsSound(cfg, w.(open := open))
  {
  }

  /** The accepted order: no earlier cooldown of its symbol can still be running. */
  lemma AcceptedSafe(cfg: Config, s: System, now: int)
    requires Safe(cfg, s) && s.focus.Executing? && now >= s.clock
    ensures Safe(cfg, AfterOrder(cfg, s, Accepted, now))
  {
    hide Allowed, CooldownsExact, PermissionsSound;
    var symbol := s.focus.symbol;
    var executed := s.watch.states[symbol].(phase := Executed, locked := false);
    NotCooling(s.watch, symbol);
    PermissionAt(cfg, s.watch, symbol);
    WithKeeps(cfg, s.watch, symbol, executed);
    CooledKeeps(cfg, With(s.watch, symbol, executed), symbol, now);
    assert forall i :: 0 <= i < |s.accepted| ==> Covered(cfg, s, s.accepted[i]);
  }

  lemma PermissionAt(cfg: Config, w: Watchlist, symbol: string)
    requires PermissionsSound(cfg, w) && symbol in w.states && w.states[symbol].phase != Cooldown
    ensures w.states[symbol].phase != Armed && (w.states[symbol].allowed ==> Allowed(cfg, w, symbol))
  {
  }

  lemma OrderSafe(cfg: Config, s: System, outcome: Outcome, now: int)
    requires Safe(cfg, s)
    ensures Safe(cfg, Step(cfg, s, OrderReturned(outcome, now)))
  {
    hide Allowed, AllCovered, Apart, CooldownsExact, PermissionsSound, Cooled;
    if s.focus.Executing? && now >= s.clock {
      if outcome == Accepted {
        AcceptedSafe(cfg, s, now);
      } else {
        var symbol := s.focus.symbol;
        var p := s.watch.states[symbol];
        PermissionAt(cfg, s.watch, symbol);
        WithKeeps(cfg, s.watch, symbol, p.(phase := Invalidated, locked := true));
        WithKeeps(cfg, s.watch, symbol, p.(phase := Invalidated));
        CoverageKept(cfg, s, Step(cfg, s, OrderReturned(outcome, now)));
      }
    }
  }

  /** The scanner's own segments move no symbol the cycle is waiting on. */
  lemma ScannerSafe(cfg: Config, s: System, e: Event)
    requires Safe(cfg, s) && (e.Release? || e.Look? || e.Refresh?)
    ensures Safe(cfg, Step(cfg, s, e))
  {
    hide Allowed, AllCovered, Apart, PermissionsSound, Released, Refreshed, Touched;
    match e {
      case Release(now) => ReleaseKeeps(cfg, s.watch, now); ReleasedOthers(cfg, s.watch, now);
      case Look(symbol) => TouchKeeps(cfg, s.watch, symbol); TouchedCooldowns(cfg, s.watch, symbol);
      case Refresh(universe) => RefreshKeeps(cfg, s.watch, universe); RefreshedCooldowns(cfg, s.watch, universe);
      case _ =>
    }
    CoverageKept(cfg, s, Step(cfg, s, e));
  }

  lemma ReleasedOthers(cfg: Config, w: Watchlist, now: int)
    ensures w.states.Keys <= Released(cfg, w, now).states.Keys
  {
  }

  lemma TouchedCooldowns(cfg: Config, w: Watchlist, symbol: string)
    ensures Touched(cfg, w, symbol).cooldowns == w.cooldowns
  {
  }

  lemma RefreshedCooldowns(cfg: Config, w: Watchlist, universe: seq<Opportunity>)
    ensures Refreshed(cfg, w, universe).cooldowns == w.cooldowns
  {
  }

  lemma StepSafe(cfg: Config, s: System, e: Event)
    requires Safe(cfg, s)
    ensures Safe(cfg, Step(cfg, s, e))
  {
    hide Safe, Step;
    match e
    case Begin(symbol, safe) => BeginSafe(cfg, s, symbol, safe);
    case Candles(hour, quarter, latestEntry) => CandlesSafe(cfg, s, hour, quarter, latestEntry);
    case Evaluated(evaluation) => EvaluatedSafe(cfg, s, evaluation);
    case OrderReturned(outcome, now) => OrderSafe(cfg, s, outcome, now);
    case Release(now) => ScannerSafe(cfg, s, e);
    case Look(symbol) => ScannerSafe(cfg, s, e);
    case Refresh(universe) => ScannerSafe(cfg, s, e);
    case _ => DecisionSafe(cfg, s, e);
  }

  // ---------------------------------------------------------------- runs of one process

  lemma {:induction false} RunSafe(cfg: Config, clock: int, known: set<string>, events: seq<Event>)
    ensures Safe(cfg, Run(cfg, clock, known, events))
    decreases |events|
  {
    hide Step;
    if events != [] {
      RunSafe(cfg, clock, known, events[..|events| - 1]);
      StepSafe(cfg, Run(cfg, clock, known, events[..|events| - 1]), events[|events| - 1]);
    }
  }

  /** Over every run two accepted orders of one symbol are at least the cooldown apart, and no signal is accepted twice. */
  lemma AcceptancesApart(cfg: Config, clock: int, known: set<string>, events: seq<Event>, i: nat, j: nat)
    requires i < j < |Run(cfg, clock, known, events).accepted|
    ensures var accepted := Run(cfg, clock, known, events).accepted;
      && (accepted[i].symbol == accepted[j].symbol ==> accepted[j].time - accepted[i].time >= cfg.cooldown)
      && accepted[i].signal != accepted[j].signal
  {
    RunSafe(cfg, clock, known, events);
  }

  /** Over every run a symbol is listed as cooling down exactly when it is in COOLDOWN, and is then not allowed to execute. */
  lemma CooldownListExact(cfg: Config, clock: int, known: set<string>, events: seq<Event>, symbol: string)
    ensures var w := Run(cfg, clock, known, events).watch;
      && (symbol in w.cooldowns <==> symbol in w.states && w.states[symbol].phase == Cooldown)
      && (symbol in w.cooldowns ==> w.states[symbol].cooldownUntil == Some(w.cooldowns[symbol]) && !Allowed(cfg, w, symbol))
  {
    RunSafe(cfg, clock, known, events);
  }

  /** Over every run a symbol enters TRIGGERED only in an entry evaluation with a new signal, out of
      WATCHING, while the watchlist allows it; the signal is stored and the cycle takes it up. */
  lemma TriggeringIsPermitted(cfg: Config, clock: int, known: set<string>, events: seq<Event>, e: Event, symbol: string)
    requires var s, next := Run(cfg, clock, known, events), Step(cfg, Run(cfg, clock, known, events), e);
      At(next.watch, symbol).phase == Triggered && At(s.watch, symbol).phase != Triggered
    ensures var s, next := Run(cfg, clock, known, events), Step(cfg, Run(cfg, clock, known, events), e);
      && e.Evaluated? && s.focus == Evaluating(symbol) && At(s.watch, symbol).phase == Watching
      && Allowed(cfg, s.watch, symbol) && e.evaluation.signal.Some?
      && next.focus == AwaitingRisk(symbol, e.evaluation.signal.value, true)
  {
    RunSafe(cfg, clock, known, events);
    TriggeringStep(cfg, Run(cfg, clock, known, events), e, symbol);
  }

  lemma TriggeringStep(cfg: Config, s: System, e: Event, symbol: string)
    requires Safe(cfg, s) && At(Step(cfg, s, e).watch, symbol).phase == Triggered && At(s.watch, symbol).phase != Triggered
    ensures e.Evaluated? && s.focus == Evaluating(symbol) && At(s.watch, symbol).phase == Watching
    ensures e.Evaluated? ==> Allowed(cfg, s.watch, symbol) && e.evaluation.signal.Some?
                             && Step(cfg, s, e).focus == AwaitingRisk(symbol, e.evaluation.signal.value, true)
  {
    hide AllCovered, Apart, CooldownsExact, Decided, Pool, Allowed;
    if e.Evaluated? && s.focus == Evaluating(symbol) {
      DecidedStays(s.watch.states[symbol], e.evaluation);
    } else if e.Candles? && s.focus == Fetching(symbol) {
      AdvancedNeverTriggers(s.watch.states[symbol], e.hour, e.quarter);
    }
  }

  lemma AdvancedNeverTriggers(p: Progress, hour: Reading, quarter: Reading)
    ensures Advanced(p, hour, quarter).phase == Triggered ==> p.phase == Triggered
  {
  }

  /** Every acceptance is of the signal the cycle executes, on a TRIGGERED symbol outside any cooldown. */
  lemma AcceptanceIsTriggered(cfg: Config, clock: int, known: set<string>, events: seq<Event>, e: Event)
    requires var s := Run(cfg, clock, known, events);
      Step(cfg, s, e).accepted != s.accepted
    ensures var s := Run(cfg, clock, known, events);
      && e.OrderReturned? && s.focus.Executing? && At(s.watch, s.focus.symbol).phase == Triggered
      && s.focus.symbol !in s.watch.cooldowns && s.focus.signal.id !in s.submitted + known
  {
    RunSafe(cfg, clock, known, events);
    KnownStays(cfg, clock, known, events);
    AcceptanceStep(cfg, Run(cfg, clock, known, events), e);
  }

  lemma {:induction false} KnownStays(cfg: Config, clock: int, known: set<string>, events: seq<Event>)
    ensures known <= Run(cfg, clock, known, events).submitted
    decreases |events|
  {
    hide Step;
    if events != [] {
      KnownStays(cfg, clock, known, events[..|events| - 1]);
      SubmittedGrows(cfg, Run(cfg, clock, known, events[..|events| - 1]), events[|events| - 1]);
    }
  }

  lemma SubmittedGrows(cfg: Config, s: System, e: Event)
    ensures s.submitted <= Step(cfg, s, e).submitted
  {
    hide Touched, Released, Refreshed, Advanced, Decided, Cooled, Sent;
  }

  lemma AcceptanceStep(cfg: Config, s: System, e: Event)
    requires Safe(cfg, s) && Step(cfg, s, e).accepted != s.accepted
    ensures e.OrderReturned? && s.focus.Executing? && At(s.watch, s.focus.symbol).phase == Triggered
    ensures s.focus.Executing? ==> s.focus.symbol !in s.watch.cooldowns && s.focus.signal.id !in s.submitted
  {
    hide AllCovered, Apart, PermissionsSound, Pool;
    if s.focus.Executing? {
      NotCooling(s.watch, s.focus.symbol);
    }
  }
}
