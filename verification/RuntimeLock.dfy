/** The lock on a symbol whose order outcome is unknown: exactly when it holds, and when the symbol triggers all the same. */
module RuntimeLock {
  import opened Prelude
  import opened Pipeline
  import opened Scanner
  import opened Runtime

  // ---------------------------------------------------------------- when a symbol triggers

  /** The evaluation brings a signal on a candle not evaluated before. */
  predicate NewSignal(p: Progress, e: Evaluation) {
    e.signal.Some? && (e.latestTime.None? || p.last5m != e.latestTime)
  }

  function FocusSymbol(f: Focus): Option<string> {
    match f
    case Resting => None
    case Fetching(symbol) => Some(symbol)
    case Evaluating(symbol) => Some(symbol)
    case AwaitingRisk(symbol, _, _) => Some(symbol)
    case AwaitingReadiness(symbol, _) => Some(symbol)
    case Executing(symbol, _) => Some(symbol)
  }

  /** The scanner looked at the focused symbol, or refreshed the watchlist, since the cycle took the symbol up. */
  function LookedAfter(s: System, e: Event, looked: bool): bool {
    if e.Begin? && s.focus == Resting then false
    else looked || e.Refresh? || (e.Look? && FocusSymbol(s.focus) == Some(e.symbol))
  }

  function LookedSince(cfg: Config, clock: int, known: set<string>, events: seq<Event>): bool
    decreases |events|
  {
    if events == [] then false
    else
      var before := events[..|events| - 1];
      LookedAfter(Run(cfg, clock, known, before), events[|events| - 1], LookedSince(cfg, clock, known, before))
  }

  // ---------------------------------------------------------------- the permission of a locked symbol

  ghost predicate CoolingUnlocked(w: Watchlist) {
    forall s :: s in w.states && w.states[s].phase == Cooldown ==> !w.states[s].locked
  }

  /** While the cycle is on its way to the entry of a locked symbol, the permission is exactly what the
      scanner restored. */
  predicate LockedPermission(cfg: Config, s: System, looked: bool) {
    (s.focus.Fetching? || s.focus.Evaluating?) && At(s.watch, s.focus.symbol).locked ==>
      (At(s.watch, s.focus.symbol).allowed <==> looked && Allowed(cfg, s.watch, s.focus.symbol))
  }

  lemma AdvancedKeepsLock(p: Progress, hour: Reading, quarter: Reading)
    ensures var q := Advanced(p, hour, quarter);
      q.locked == p.locked && q.allowed == p.allowed && (q.phase == Cooldown <==> p.phase == Cooldown)
  {
  }

  lemma DecidedLock(p: Progress, e: Evaluation)
    requires p.phase != Armed
    ensures (Decided(p, e).locked ==> p.locked) && (Decided(p, e).phase == Cooldown <==> p.phase == Cooldown)
  {
  }

  lemma AllowedElsewhere(cfg: Config, w: Watchlist, u: Watchlist, symbol: string)
    requires (symbol in w.cooldowns <==> symbol in u.cooldowns) && w.dynamic == u.dynamic
    ensures Allowed(cfg, w, symbol) == Allowed(cfg, u, symbol)
  {
  }

  lemma WithKeepsUnlocked(w: Watchlist, symbol: string, p: Progress)
    requires CoolingUnlocked(w) && (p.phase == Cooldown ==> !p.locked)
    ensures CoolingUnlocked(With(w, symbol, p))
  {
  }

  lemma CycleStepLock(cfg: Config, s: System, e: Event, looked: bool)
    requires Safe(cfg, s) && CoolingUnlocked(s.watch) && LockedPermission(cfg, s, looked)
    requires e.Begin? || e.Candles? || e.Evaluated? || e.RiskDecided? || e.ReadinessDecided? || e.Raised? || e.Restart? || e.Positions? || e.EntrySent?
    ensures var next := Step(cfg, s, e);
      CoolingUnlocked(next.watch) && LockedPermission(cfg, next, LookedAfter(s, e, looked))
  {
    hide AllCovered, Apart, CooldownsExact, PermissionsSound, Advanced, Decided, Sent, CoolingUnlocked;
    match e {
      case Begin(symbol, safe) =>
        if s.focus == Resting {
          TouchUnlocked(cfg, s.watch, symbol);
          OpenedUnlocked(cfg, Touched(cfg, s.watch, symbol), symbol, safe);
        }
      case Candles(hour, quarter, _) =>
        if s.focus.Fetching? {
          AdvancedKeepsLock(s.watch.states[s.focus.symbol], hour, quarter);
          UnlockedAt(s.watch, s.focus.symbol);
          WithKeepsUnlocked(s.watch, s.focus.symbol, Advanced(s.watch.states[s.focus.symbol], hour, quarter));
        }
      case Evaluated(evaluation) =>
        if s.focus.Evaluating? {
          PermissionAt(cfg, s.watch, s.focus.symbol);
          DecidedLock(s.watch.states[s.focus.symbol], evaluation);
          WithKeepsUnlocked(s.watch, s.focus.symbol, Decided(s.watch.states[s.focus.symbol], evaluation));
        }
      case RiskDecided(_) =>
        if s.focus.AwaitingRisk? {
          var p := s.watch.states[s.focus.symbol];
          WithKeepsUnlocked(s.watch, s.focus.symbol, p.(phase := Invalidated));
          WithKeepsUnlocked(s.watch, s.focus.symbol, Blocked(p));
        }
      case ReadinessDecided(_) =>
        if s.focus.AwaitingReadiness? {
          WithKeepsUnlocked(s.watch, s.focus.symbol, Blocked(s.watch.states[s.focus.symbol]));
        }
      case Positions(open) => OpenUnlocked(s.watch, open);
      case _ =>
    }
  }

  lemma UnlockedAt(w: Watchlist, symbol: string)
    requires CoolingUnlocked(w) && symbol in w.states
    ensures w.states[symbol].phase == Cooldown ==> !w.states[symbol].locked
  {
  }

  lemma OpenUnlocked(w: Watchlist, open: set<string>)
    requires CoolingUnlocked(w)
    ensures CoolingUnlocked(w.(open := open))
  {
  }

  lemma TouchUnlocked(cfg: Config, w: Watchlist, symbol: string)
    requires CoolingUnlocked(w)
    ensures CoolingUnlocked(Touched(cfg, w, symbol)) && Touched(cfg, w, symbol).states[symbol].allowed == Allowed(cfg, Touched(cfg, w, symbol), symbol)
    ensures Touched(cfg, w, symbol).cooldowns == w.cooldowns && Touched(cfg, w, symbol).dynamic == w.dynamic
    ensures forall x :: x != symbol ==> At(Touched(cfg, w, symbol), x) == At(w, x)
  {
  }

  lemma OpenedUnlocked(cfg: Config, w: Watchlist, symbol: string, safe: bool)
    requires CoolingUnlocked(w) && symbol in w.states
    ensures CoolingUnlocked(With(w, symbol, Opened(w.states[symbol], safe)))
  {
  }

  lemma OrderStepLock(cfg: Config, s: System, e: Event, looked: bool)
    requires Safe(cfg, s) && CoolingUnlocked(s.watch) && LockedPermission(cfg, s, looked) && e.OrderReturned?
    ensures var next := Step(cfg, s, e);
      CoolingUnlocked(next.watch) && LockedPermission(cfg, next, LookedAfter(s, e, looked))
  {
    hide AllCovered, Apart, CooldownsExact, PermissionsSound, CoolingUnlocked, Cooled;
    if s.focus.Executing? {
      var symbol := s.focus.symbol;
      var p := s.watch.states[symbol];
      var executed := p.(phase := Executed, locked := false);
      WithKeepsUnlocked(s.watch, symbol, executed);
      CooledUnlocked(cfg, With(s.watch, symbol, executed), symbol, e.now);
      WithKeepsUnlocked(s.watch, symbol, p.(phase := Invalidated, locked := true));
      WithKeepsUnlocked(s.watch, symbol, p.(phase := Invalidated));
    }
  }

  lemma CooledUnlocked(cfg: Config, w: Watchlist, symbol: string, now: int)
    requires CoolingUnlocked(w) && symbol in w.states && !w.states[symbol].locked
    ensures CoolingUnlocked(Cooled(cfg, w, symbol, now))
  {
  }

  lemma ScannerStepLock(cfg: Config, s: System, e: Event, looked: bool)
    requires Safe(cfg, s) && CoolingUnlocked(s.watch) && LockedPermission(cfg, s, looked)
    requires e.Release? || e.Look? || e.Refresh?
    ensures var next := Step(cfg, s, e);
      CoolingUnlocked(next.watch) && LockedPermission(cfg, next, LookedAfter(s, e, looked))
  {
    hide AllCovered, Apart, Allowed, Released, Refreshed, Touched, PermissionsSound;
    var next := Step(cfg, s, e);
    match e {
      case Look(symbol) =>
        TouchUnlocked(cfg, s.watch, symbol);
        if s.focus.Fetching? || s.focus.Evaluating? {
          AllowedElsewhere(cfg, s.watch, next.watch, s.focus.symbol);
        }
      case Refresh(universe) =>
        RefreshKeeps(cfg, s.watch, universe);
        RefreshGrants(cfg, s.watch, universe);
      case Release(now) =>
        ReleaseKeeps(cfg, s.watch, now);
        ReleasedUnlocked(cfg, s.watch, now);
        if s.focus.Fetching? || s.focus.Evaluating? {
          ReleasedLocked(cfg, s.watch, now, s.focus.symbol);
        }
      case _ =>
    }
  }

  lemma RefreshGrants(cfg: Config, w: Watchlist, universe: seq<Opportunity>)
    requires CoolingUnlocked(w)
    ensures CoolingUnlocked(Refreshed(cfg, w, universe))
    ensures forall x :: x in w.states ==>
      At(Refreshed(cfg, w, universe), x).allowed == Allowed(cfg, Refreshed(cfg, w, universe), x)
  {
    hide Pool, Allowed;
    var next := Refreshed(cfg, w, universe);
    var pooled := w.(dynamic := Pool(cfg, w, universe));
    forall x ensures Allowed(cfg, pooled, x) == Allowed(cfg, next, x) {
      AllowedElsewhere(cfg, pooled, next, x);
    }
  }

  lemma ReleasedUnlocked(cfg: Config, w: Watchlist, now: int)
    requires CoolingUnlocked(w)
    ensures CoolingUnlocked(Released(cfg, w, now))
  {
  }

  /** A release leaves a locked symbol, which cannot be cooling down, as it is. */
  lemma ReleasedLocked(cfg: Config, w: Watchlist, now: int, symbol: string)
    requires CooldownsExact(w) && PermissionsSound(cfg, w) && CoolingUnlocked(w) && symbol in w.states
    ensures var next := Released(cfg, w, now);
      At(next, symbol).locked ==> At(next, symbol) == w.states[symbol] && Allowed(cfg, next, symbol) == Allowed(cfg, w, symbol)
  {
    hide PermissionsSound;
    ReleaseKeeps(cfg, w, now);
    if symbol !in w.cooldowns {
      AllowedElsewhere(cfg, w, Released(cfg, w, now), symbol);
    }
  }

  lemma {:induction false} RunLock(cfg: Config, clock: int, known: set<string>, events: seq<Event>)
    ensures var s := Run(cfg, clock, known, events);
      CoolingUnlocked(s.watch) && LockedPermission(cfg, s, LookedSince(cfg, clock, known, events))
    decreases |events|
  {
    hide Step, Safe, LookedAfter, CoolingUnlocked, LockedPermission;
    if events == [] {
      StartUnlocked(cfg, clock, known);
    } else {
      var before, e := events[..|events| - 1], events[|events| - 1];
      var s, looked := Run(cfg, clock, known, before), LookedSince(cfg, clock, known, before);
      RunLock(cfg, clock, known, before);
      RunSafe(cfg, clock, known, before);
      match e
      case OrderReturned(_, _) => OrderStepLock(cfg, s, e, looked);
      case Release(_) => ScannerStepLock(cfg, s, e, looked);
      case Look(_) => ScannerStepLock(cfg, s, e, looked);
      case Refresh(_) => ScannerStepLock(cfg, s, e, looked);
      case _ => CycleStepLock(cfg, s, e, looked);
    }
  }

  lemma StartUnlocked(cfg: Config, clock: int, known: set<string>)
    ensures CoolingUnlocked(Start(clock, known).watch) && LockedPermission(cfg, Start(clock, known), false)
  {
  }

  // ---------------------------------------------------------------- exactly when a locked symbol triggers

  lemma TriggersExactly(cfg: Config, s: System, e: Event, symbol: string)
    requires Safe(cfg, s) && At(s.watch, symbol).phase != Triggered
    ensures At(Step(cfg, s, e).watch, symbol).phase == Triggered <==>
      && e.Evaluated? && s.focus == Evaluating(symbol) && At(s.watch, symbol).phase == Watching
      && NewSignal(At(s.watch, symbol), e.evaluation) && At(s.watch, symbol).allowed
  {
    hide Step, Decided, CooldownsExact, AllCovered, Apart, Allowed;
    if At(Step(cfg, s, e).watch, symbol).phase == Triggered {
      TriggeringStep(cfg, s, e, symbol);
    }
    if e.Evaluated? && s.focus == Evaluating(symbol) {
      EvaluatedState(cfg, s, e, symbol);
      DecidedTriggers(At(s.watch, symbol), e.evaluation);
    }
  }

  lemma EvaluatedState(cfg: Config, s: System, e: Event, symbol: string)
    requires e.Evaluated? && s.focus == Evaluating(symbol)
    ensures At(Step(cfg, s, e).watch, symbol) == Decided(At(s.watch, symbol), e.evaluation)
  {
    hide Decided;
  }

  lemma DecidedTriggers(p: Progress, e: Evaluation)
    requires p.phase != Triggered && p.phase != Armed
    ensures Decided(p, e).phase == Triggered <==> p.phase == Watching && NewSignal(p, e) && p.allowed
  {
  }

  /** Over every run of one process: a symbol with an unknown order outcome triggers exactly when a new signal
      finds it in WATCHING, allowed by the watchlist, and the scanner has looked at it or refreshed since the
      cycle took it up. Without such a look the lock withholds the permission until the cycle has passed. */
  lemma LockedTriggersExactly(cfg: Config, clock: int, known: set<string>, events: seq<Event>, e: Event, symbol: string)
    requires var p := At(Run(cfg, clock, known, events).watch, symbol);
      p.locked && p.phase != Triggered
    ensures var s := Run(cfg, clock, known, events);
      At(Step(cfg, s, e).watch, symbol).phase == Triggered <==>
      && e.Evaluated? && s.focus == Evaluating(symbol) && At(s.watch, symbol).phase == Watching
      && NewSignal(At(s.watch, symbol), e.evaluation)
      && LookedSince(cfg, clock, known, events) && Allowed(cfg, s.watch, symbol)
  {
    hide Step, Run, Safe, LookedSince, NewSignal, Allowed;
    RunSafe(cfg, clock, known, events);
    RunLock(cfg, clock, known, events);
    TriggersExactly(cfg, Run(cfg, clock, known, events), e, symbol);
  }

  // ---------------------------------------------------------------- exactly when the lock ends

  /** Over every run: the lock of a symbol ends exactly when the cycle takes the symbol up with reconciliation
      safe, refuses a new signal or a triggered one for lack of permission, is blocked by readiness, or has
      an order of the symbol accepted. Only the first of these asks reconciliation. */
  lemma LockEndsExactly(cfg: Config, clock: int, known: set<string>, events: seq<Event>, e: Event, symbol: string)
    requires At(Run(cfg, clock, known, events).watch, symbol).locked
    ensures var s := Run(cfg, clock, known, events);
      var p := At(s.watch, symbol);
      !At(Step(cfg, s, e).watch, symbol).locked <==>
      || (s.focus == Resting && e == Begin(symbol, true))
      || (s.focus == Evaluating(symbol) && e.Evaluated? && p.phase == Watching && NewSignal(p, e.evaluation) && !p.allowed)
      || (e == RiskDecided(true) && s.focus.AwaitingRisk? && s.focus.symbol == symbol && !s.focus.allowed)
      || (e == ReadinessDecided(false) && s.focus.AwaitingReadiness? && s.focus.symbol == symbol)
      || (e.OrderReturned? && e.outcome == Accepted && e.now >= s.clock && s.focus.Executing? && s.focus.symbol == symbol)
  {
    hide Run, Step, NewSignal;
    RunSafe(cfg, clock, known, events);
    RunLock(cfg, clock, known, events);
    LockEndsStep(cfg, Run(cfg, clock, known, events), e, symbol);
  }

  lemma DecidedUnlocks(p: Progress, e: Evaluation)
    requires p.locked && p.phase != Armed && p.phase != Cooldown
    ensures !Decided(p, e).locked <==> p.phase == Watching && NewSignal(p, e) && !p.allowed
  {
  }

  lemma LockEndsStep(cfg: Config, s: System, e: Event, symbol: string)
    requires Safe(cfg, s) && CoolingUnlocked(s.watch) && At(s.watch, symbol).locked
    ensures var p := At(s.watch, symbol);
      !At(Step(cfg, s, e).watch, symbol).locked <==>
      || (s.focus == Resting && e == Begin(symbol, true))
      || (s.focus == Evaluating(symbol) && e.Evaluated? && p.phase == Watching && NewSignal(p, e.evaluation) && !p.allowed)
      || (e == RiskDecided(true) && s.focus.AwaitingRisk? && s.focus.symbol == symbol && !s.focus.allowed)
      || (e == ReadinessDecided(false) && s.focus.AwaitingReadiness? && s.focus.symbol == symbol)
      || (e.OrderReturned? && e.outcome == Accepted && e.now >= s.clock && s.focus.Executing? && s.focus.symbol == symbol)
  {
    hide AllCovered, Apart, Allowed, Advanced, Decided, Released, Refreshed, Pool, Sent, NewSignal;
    match e {
      case Candles(hour, quarter, _) =>
        if s.focus == Fetching(symbol) { AdvancedKeepsLock(s.watch.states[symbol], hour, quarter); }
      case Evaluated(evaluation) =>
        if s.focus == Evaluating(symbol) {
          DecidedUnlocks(s.watch.states[symbol], evaluation);
        }
      case Refresh(universe) => RefreshKeeps(cfg, s.watch, universe);
      case Release(now) => ReleaseKeeps(cfg, s.watch, now);
      case _ =>
    }
  }

  // ---------------------------------------------------------------- runs in which it happens

  /** A system that watches one symbol. */
  function Watching1(symbol: string, p: Progress, focus: Focus, submitted: set<string>, clock: int): System {
    System(Watchlist(map[symbol := p], map[], {}, {}), focus, submitted, [], [], clock)
  }

  /** Allowed while it is not cooling down, whatever the ranking. */
  predicate Listed(cfg: Config, symbol: string) {
    if cfg.staticMode then symbol in cfg.allowlist else symbol in cfg.core
  }

  /** The latest candles, of one hour, fifteen and five minutes, by their start in seconds; trend and setup are valid. */
  function FreshCandles(hour: int, quarter: int, five: int): Event {
    Candles(Reading(22, hour, Some(true)), Reading(28, quarter, Some(true)), Some(five))
  }

  function SignalAt(t: int, id: string): Event {
    Evaluated(Evaluation(Some(t), Some(Pipeline.Signal(id))))
  }

  /** The state after trend and setup of those candles. */
  function Advanced1(p: Progress, hour: int, quarter: int): Progress {
    p.(phase := Watching, last1h := Some(hour), last15m := Some(quarter), trendValid := true, setup := Some(true))
  }

  function Evaluated1(p: Progress, t: int, id: string): Progress {
    p.(last5m := Some(t), entryValid := true, signal := Some(Pipeline.Signal(id)))
  }

  lemma BeginFirst(cfg: Config, symbol: string, clock: int)
    requires Listed(cfg, symbol)
    ensures Step(cfg, Start(clock, {}), Begin(symbol, true)) == Watching1(symbol, FreshProgress(true), Fetching(symbol), {}, clock)
  {
  }

  lemma BeginAgain(cfg: Config, symbol: string, p: Progress, submitted: set<string>, clock: int, safe: bool)
    requires Listed(cfg, symbol)
    ensures Step(cfg, Watching1(symbol, p, Resting, submitted, clock), Begin(symbol, safe)) ==
      Watching1(symbol, Opened(p.(allowed := true), safe), Fetching(symbol), submitted, clock)
  {
  }

  lemma LookAgain(cfg: Config, symbol: string, p: Progress, focus: Focus, submitted: set<string>, clock: int)
    requires Listed(cfg, symbol)
    ensures Step(cfg, Watching1(symbol, p, focus, submitted, clock), Look(symbol)) ==
      Watching1(symbol, p.(allowed := true), focus, submitted, clock)
  {
  }

  /** A new fifteen-minute candle brings a symbol back to WATCHING; the one-hour candle may be the same as before. */
  lemma CandlesAgain(cfg: Config, symbol: string, p: Progress, submitted: set<string>, clock: int, hour: int, quarter: int, five: int)
    requires p.phase in {Discovered, Invalidated} && (p.last1h != Some(hour) || p.trendValid)
    requires p.last15m != Some(quarter) && p.last5m != Some(five)
    ensures Step(cfg, Watching1(symbol, p, Fetching(symbol), submitted, clock), FreshCandles(hour, quarter, five)) ==
      Watching1(symbol, Advanced1(p, hour, quarter), Evaluating(symbol), submitted, clock)
  {
  }

  lemma SignalAgain(cfg: Config, symbol: string, p: Progress, submitted: set<string>, clock: int, t: int, id: string)
    requires p.phase == Watching && p.last5m != Some(t)
    ensures Step(cfg, Watching1(symbol, p, Evaluating(symbol), submitted, clock), SignalAt(t, id)) ==
      if p.allowed then
        Watching1(symbol, Evaluated1(p, t, id).(phase := Triggered), AwaitingRisk(symbol, Pipeline.Signal(id), true), submitted, clock)
      else Watching1(symbol, Evaluated1(p, t, id).(phase := Invalidated, locked := false), Resting, submitted, clock)
  {
  }

  lemma RunSnoc(cfg: Config, clock: int, known: set<string>, events: seq<Event>, e: Event)
    ensures Run(cfg, clock, known, events + [e]) == Step(cfg, Run(cfg, clock, known, events), e)
  {
    hide Step;
    assert (events + [e])[..|events|] == events;
  }

  /** From the first look at a symbol to a triggered signal. */
  function ToTriggered(symbol: string, id: string): seq<Event> {
    [] + [Begin(symbol, true)] + [FreshCandles(-3600, -900, -300)] + [SignalAt(-300, id)]
  }

  function TriggeredState(id: string): Progress {
    Evaluated1(Advanced1(FreshProgress(true), -3600, -900), -300, id).(phase := Triggered)
  }

  lemma TriggeredReached(cfg: Config, symbol: string, id: string)
    requires Listed(cfg, symbol)
    ensures Run(cfg, 0, {}, ToTriggered(symbol, id)) ==
      Watching1(symbol, TriggeredState(id), AwaitingRisk(symbol, Pipeline.Signal(id), true), {}, 0)
  {
    hide Step, Run;
    EmptyRun(cfg, 0, {});
    BeginFirst(cfg, symbol, 0);
    RunSnoc(cfg, 0, {}, [], Begin(symbol, true));
    CandlesAgain(cfg, symbol, FreshProgress(true), {}, 0, -3600, -900, -300);
    RunSnoc(cfg, 0, {}, [] + [Begin(symbol, true)], FreshCandles(-3600, -900, -300));
    SignalAgain(cfg, symbol, Advanced1(FreshProgress(true), -3600, -900), {}, 0, -300, id);
    RunSnoc(cfg, 0, {}, [] + [Begin(symbol, true)] + [FreshCandles(-3600, -900, -300)], SignalAt(-300, id));
  }

  lemma EmptyRun(cfg: Config, clock: int, known: set<string>)
    ensures Run(cfg, clock, known, []) == Start(clock, known)
  {
  }

  /** A run in which the outcome of the first order stays unknown. */
  function ToUnknown(symbol: string, id: string): seq<Event> {
    ToTriggered(symbol, id) + [RiskDecided(true)] + [ReadinessDecided(true)] + [OrderReturned(Unknown, 10)]
  }

  function UnknownState(id: string): Progress {
    TriggeredState(id).(phase := Invalidated, locked := true)
  }

  lemma UnknownReached(cfg: Config, symbol: string, id: string)
    requires Listed(cfg, symbol)
    ensures Run(cfg, 0, {}, ToUnknown(symbol, id)) == Watching1(symbol, UnknownState(id), Resting, {id}, 10)
  {
    hide Run;
    TriggeredReached(cfg, symbol, id);
    var events := ToTriggered(symbol, id);
    RunSnoc(cfg, 0, {}, events, RiskDecided(true));
    RunSnoc(cfg, 0, {}, events + [RiskDecided(true)], ReadinessDecided(true));
    RunSnoc(cfg, 0, {}, events + [RiskDecided(true)] + [ReadinessDecided(true)], OrderReturned(Unknown, 10));
    var s := Run(cfg, 0, {}, events);
    assert Step(cfg, s, RiskDecided(true)) == s.(focus := AwaitingReadiness(symbol, Pipeline.Signal(id)));
    assert Step(cfg, s.(focus := AwaitingReadiness(symbol, Pipeline.Signal(id))), ReadinessDecided(true))
      == s.(focus := Executing(symbol, Pipeline.Signal(id)));
  }

  /** One look of the scanner during the next, unsafe, cycle, and the locked symbol triggers. */
  lemma LookedAtTriggers(cfg: Config, symbol: string, first: string, second: string)
    requires Listed(cfg, symbol)
    ensures var events := ToUnknown(symbol, first) + [Begin(symbol, false)] + [Look(symbol)] + [FreshCandles(-3600, 0, 600)] + [SignalAt(600, second)];
      var s := Run(cfg, 0, {}, events);
      At(s.watch, symbol).phase == Triggered && At(s.watch, symbol).locked
      && s.focus == AwaitingRisk(symbol, Pipeline.Signal(second), true)
  {
    hide Step, Run;
    UnknownReached(cfg, symbol, first);
    var e0 := ToUnknown(symbol, first);
    var e1 := e0 + [Begin(symbol, false)];
    var e2 := e1 + [Look(symbol)];
    var e3 := e2 + [FreshCandles(-3600, 0, 600)];
    var p := UnknownState(first);
    BeginAgain(cfg, symbol, p, {first}, 10, false);
    RunSnoc(cfg, 0, {}, e0, Begin(symbol, false));
    var q := Opened(p.(allowed := true), false);
    LookAgain(cfg, symbol, q, Fetching(symbol), {first}, 10);
    RunSnoc(cfg, 0, {}, e1, Look(symbol));
    var r := q.(allowed := true);
    CandlesAgain(cfg, symbol, r, {first}, 10, -3600, 0, 600);
    RunSnoc(cfg, 0, {}, e2, FreshCandles(-3600, 0, 600));
    SignalAgain(cfg, symbol, Advanced1(r, -3600, 0), {first}, 10, 600, second);
    RunSnoc(cfg, 0, {}, e3, SignalAt(600, second));
  }

  /** The cycle up to a signal that is refused for the lock. */
  function ToRefused(symbol: string, first: string, second: string): seq<Event> {
    ToUnknown(symbol, first) + [Begin(symbol, false)] + [FreshCandles(-3600, 0, 600)] + [SignalAt(600, second)]
  }

  function RefusedState(first: string, second: string): Progress {
    Evaluated1(Advanced1(Opened(UnknownState(first).(allowed := true), false), -3600, 0), 600, second).(phase := Invalidated, locked := false)
  }

  lemma RefusedReached(cfg: Config, symbol: string, first: string, second: string)
    requires Listed(cfg, symbol)
    ensures Run(cfg, 0, {}, ToRefused(symbol, first, second)) == Watching1(symbol, RefusedState(first, second), Resting, {first}, 10)
  {
    hide Step, Run;
    UnknownReached(cfg, symbol, first);
    var e0 := ToUnknown(symbol, first);
    var e1 := e0 + [Begin(symbol, false)];
    var e2 := e1 + [FreshCandles(-3600, 0, 600)];
    BeginAgain(cfg, symbol, UnknownState(first), {first}, 10, false);
    RunSnoc(cfg, 0, {}, e0, Begin(symbol, false));
    var q := Opened(UnknownState(first).(allowed := true), false);
    CandlesAgain(cfg, symbol, q, {first}, 10, -3600, 0, 600);
    RunSnoc(cfg, 0, {}, e1, FreshCandles(-3600, 0, 600));
    SignalAgain(cfg, symbol, Advanced1(q, -3600, 0), {first}, 10, 600, second);
    RunSnoc(cfg, 0, {}, e2, SignalAt(600, second));
  }

  /** Without any look of the scanner: the lock refuses one signal and is gone, so in the next cycle, still
      unsafe, the following signal triggers. */
  lemma RefusedOnceTriggers(cfg: Config, symbol: string, first: string, second: string, third: string)
    requires Listed(cfg, symbol)
    ensures var refused := Run(cfg, 0, {}, ToRefused(symbol, first, second));
      At(refused.watch, symbol).phase == Invalidated && !At(refused.watch, symbol).locked
    ensures var events := ToRefused(symbol, first, second) + [Begin(symbol, false)] + [FreshCandles(-3600, 900, 1500)] + [SignalAt(1500, third)];
      var s := Run(cfg, 0, {}, events);
      At(s.watch, symbol).phase == Triggered && s.focus == AwaitingRisk(symbol, Pipeline.Signal(third), true)
  {
    hide Step, Run;
    RefusedReached(cfg, symbol, first, second);
    var e0 := ToRefused(symbol, first, second);
    var e1 := e0 + [Begin(symbol, false)];
    var e2 := e1 + [FreshCandles(-3600, 900, 1500)];
    BeginAgain(cfg, symbol, RefusedState(first, second), {first}, 10, false);
    RunSnoc(cfg, 0, {}, e0, Begin(symbol, false));
    var q := Opened(RefusedState(first, second).(allowed := true), false);
    CandlesAgain(cfg, symbol, q, {first}, 10, -3600, 900, 1500);
    RunSnoc(cfg, 0, {}, e1, FreshCandles(-3600, 900, 1500));
    SignalAgain(cfg, symbol, Advanced1(q, -3600, 900), {first}, 10, 1500, third);
    RunSnoc(cfg, 0, {}, e2, SignalAt(1500, third));
  }
}
