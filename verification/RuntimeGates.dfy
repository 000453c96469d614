/** What every order of the trading cycle went through: trend, setup, a new signal, the risk verdict and readiness. */
module RuntimeGates {
  import opened Prelude
  import opened Pipeline
  import opened Scanner
  import opened Runtime

  // ---------------------------------------------------------------- the verdicts before an order

  /** The cycle waited for the risk verdict on this signal of a permitted symbol, heard READY at event m, and has
      waited for readiness ever since. */
  ghost predicate RiskReadyAt(cfg: Config, clock: int, known: set<string>, events: seq<Event>, symbol: string, signal: Signal, m: nat)
    requires m < |events|
  {
    && events[m] == RiskDecided(true)
    && Run(cfg, clock, known, events[..m]).focus == AwaitingRisk(symbol, signal, true)
    && forall k :: m < k <= |events| ==> Run(cfg, clock, known, events[..k]).focus == AwaitingReadiness(symbol, signal)
  }

  ghost predicate RiskReady(cfg: Config, clock: int, known: set<string>, events: seq<Event>, symbol: string, signal: Signal) {
    exists m :: 0 <= m < |events| && RiskReadyAt(cfg, clock, known, events, symbol, signal, m)
  }

  /** After that, readiness was READY at event n for a signal not submitted before, and the execution has been under
      way ever since. */
  ghost predicate ApprovedAt(cfg: Config, clock: int, known: set<string>, events: seq<Event>, symbol: string, signal: Signal, n: nat)
    requires n < |events|
  {
    && events[n] == ReadinessDecided(true)
    && RiskReady(cfg, clock, known, events[..n], symbol, signal)
    && signal.id !in Run(cfg, clock, known, events[..n]).submitted
    && forall k :: n < k <= |events| ==> Run(cfg, clock, known, events[..k]).focus == Executing(symbol, signal)
  }

  ghost predicate Approved(cfg: Config, clock: int, known: set<string>, events: seq<Event>, symbol: string, signal: Signal) {
    exists n :: 0 <= n < |events| && ApprovedAt(cfg, clock, known, events, symbol, signal, n)
  }

  /** The only steps that wait for readiness, or start an execution. */
  lemma StepToWait(cfg: Config, s: System, e: Event)
    ensures var next := Step(cfg, s, e).focus;
      next.AwaitingReadiness? ==>
        next == s.focus || (s.focus == AwaitingRisk(next.symbol, next.signal, true) && e == RiskDecided(true))
    ensures var next := Step(cfg, s, e).focus;
      next.Executing? ==>
        next == s.focus
        || (s.focus == AwaitingReadiness(next.symbol, next.signal) && e == ReadinessDecided(true) && next.signal.id !in s.submitted)
  {
    hide Touched, Released, Refreshed, Advanced, Decided, Cooled, With, Sent;
  }

  lemma RiskReadyStays(cfg: Config, clock: int, known: set<string>, events: seq<Event>, e: Event, symbol: string, signal: Signal)
    requires RiskReady(cfg, clock, known, events, symbol, signal)
    requires Run(cfg, clock, known, events + [e]).focus == AwaitingReadiness(symbol, signal)
    ensures RiskReady(cfg, clock, known, events + [e], symbol, signal)
  {
    hide Run;
    var m :| 0 <= m < |events| && RiskReadyAt(cfg, clock, known, events, symbol, signal, m);
    var longer := events + [e];
    assert longer[..m] == events[..m] && longer[m] == events[m];
    forall k | m < k <= |longer| ensures Run(cfg, clock, known, longer[..k]).focus == AwaitingReadiness(symbol, signal) {
      if k <= |events| { assert longer[..k] == events[..k]; } else { assert longer[..k] == longer; }
    }
    assert RiskReadyAt(cfg, clock, known, longer, symbol, signal, m);
  }

  lemma ApprovedStays(cfg: Config, clock: int, known: set<string>, events: seq<Event>, e: Event, symbol: string, signal: Signal)
    requires Approved(cfg, clock, known, events, symbol, signal)
    requires Run(cfg, clock, known, events + [e]).focus == Executing(symbol, signal)
    ensures Approved(cfg, clock, known, events + [e], symbol, signal)
  {
    hide Run, RiskReady;
    var n :| 0 <= n < |events| && ApprovedAt(cfg, clock, known, events, symbol, signal, n);
    var longer := events + [e];
    assert longer[..n] == events[..n] && longer[n] == events[n];
    forall k | n < k <= |longer| ensures Run(cfg, clock, known, longer[..k]).focus == Executing(symbol, signal) {
      if k <= |events| { assert longer[..k] == events[..k]; } else { assert longer[..k] == longer; }
    }
    assert ApprovedAt(cfg, clock, known, longer, symbol, signal, n);
  }

  lemma RiskReadyNow(cfg: Config, clock: int, known: set<string>, events: seq<Event>, symbol: string, signal: Signal)
    requires Run(cfg, clock, known, events).focus == AwaitingRisk(symbol, signal, true)
    requires Run(cfg, clock, known, events + [RiskDecided(true)]).focus == AwaitingReadiness(symbol, signal)
    ensures RiskReady(cfg, clock, known, events + [RiskDecided(true)], symbol, signal)
  {
    hide Run;
    var longer := events + [RiskDecided(true)];
    assert longer[..|events|] == events && longer[..|longer|] == longer;
    assert RiskReadyAt(cfg, clock, known, longer, symbol, signal, |events|);
  }

  lemma ApprovedNow(cfg: Config, clock: int, known: set<string>, events: seq<Event>, symbol: string, signal: Signal)
    requires RiskReady(cfg, clock, known, events, symbol, signal) && signal.id !in Run(cfg, clock, known, events).submitted
    requires Run(cfg, clock, known, events + [ReadinessDecided(true)]).focus == Executing(symbol, signal)
    ensures Approved(cfg, clock, known, events + [ReadinessDecided(true)], symbol, signal)
  {
    hide Run, RiskReady;
    var longer := events + [ReadinessDecided(true)];
    assert longer[..|events|] == events && longer[..|longer|] == longer;
    assert ApprovedAt(cfg, clock, known, longer, symbol, signal, |events|);
  }

  /** Over every run: readiness is asked only after the risk verdict READY on the signal, and an execution is under
      way only after both verdicts on it, with nothing else in between. */
  lemma {:induction false} ExecutionsAreApproved(cfg: Config, clock: int, known: set<string>, events: seq<Event>)
    ensures var f := Run(cfg, clock, known, events).focus;
      && (f.AwaitingReadiness? ==> RiskReady(cfg, clock, known, events, f.symbol, f.signal))
      && (f.Executing? ==> Approved(cfg, clock, known, events, f.symbol, f.signal))
    decreases |events|
  {
    hide Step, RiskReady, Approved;
    if events != [] {
      var before, e := events[..|events| - 1], events[|events| - 1];
      assert before + [e] == events;
      ExecutionsAreApproved(cfg, clock, known, before);
      var s, f := Run(cfg, clock, known, before), Run(cfg, clock, known, events).focus;
      StepToWait(cfg, s, e);
      if f.AwaitingReadiness? {
        if f == s.focus { RiskReadyStays(cfg, clock, known, before, e, f.symbol, f.signal); }
        else { RiskReadyNow(cfg, clock, known, before, f.symbol, f.signal); }
      } else if f.Executing? {
        if f == s.focus { ApprovedStays(cfg, clock, known, before, e, f.symbol, f.signal); }
        else { ApprovedNow(cfg, clock, known, before, f.symbol, f.signal); }
      }
    }
  }

  /** Over every run: an entry request or an acceptance belongs to the signal of an execution that both verdicts
      had approved. */
  lemma OrdersAreApproved(cfg: Config, clock: int, known: set<string>, events: seq<Event>, e: Event)
    ensures var s := Run(cfg, clock, known, events);
      var next := Step(cfg, s, e);
      && (next.entries != s.entries ==>
            && s.focus.Executing? && Approved(cfg, clock, known, events, s.focus.symbol, s.focus.signal) && e.EntrySent?
            && next.entries == s.entries + [EntryRequest(s.focus.symbol, s.focus.signal.id, e.now, |s.accepted|)])
      && (next.accepted != s.accepted ==>
            && s.focus.Executing? && Approved(cfg, clock, known, events, s.focus.symbol, s.focus.signal) && e.OrderReturned?
            && next.accepted == s.accepted + [Acceptance(s.focus.symbol, s.focus.signal.id, e.now)])
  {
    hide Run, Approved, Touched, Released, Refreshed, Advanced, Decided, Cooled, With, Sent;
    ExecutionsAreApproved(cfg, clock, known, events);
  }

  // ---------------------------------------------------------------- what the verdicts do

  /** A symbol that is not the one in focus is left alone. */
  predicate OthersKept(s: System, next: System, symbol: string) {
    forall x :: x in s.watch.states && x != symbol ==> x in next.watch.states && next.watch.states[x] == s.watch.states[x]
  }

  /** The cycle takes up a symbol: the watchlist decides its permission, which an unknown order outcome withholds until
      reconciliation is safe. */
  lemma BeginVerdict(cfg: Config, s: System, symbol: string, safe: bool)
    requires s.focus == Resting
    ensures var next := Step(cfg, s, Begin(symbol, safe));
      var p, q, w := At(s.watch, symbol), At(next.watch, symbol), s.watch;
      && next.focus == Fetching(symbol) && symbol in next.watch.states && OthersKept(s, next, symbol)
      && next == s.(focus := next.focus, watch := s.watch.(states := next.watch.states))
      && q == p.(allowed := q.allowed, locked := q.locked)
      && (q.locked <==> p.locked && !safe)
      && (symbol in w.cooldowns || q.locked ==> !q.allowed)
      && (symbol !in w.cooldowns && !q.locked && cfg.staticMode ==> (q.allowed <==> symbol in cfg.allowlist))
      && (symbol !in w.cooldowns && !q.locked && !cfg.staticMode ==> (q.allowed <==> symbol in cfg.core || symbol in w.dynamic))
  {
  }

  /** An entry evaluation on a symbol that is not cooling down: a new signal on a watched symbol triggers it if permitted
      and is refused if not; on a triggered one it only confirms. Risk is asked about the stored signal alone. */
  lemma EvaluationVerdict(cfg: Config, s: System, e: Evaluation)
    requires s.focus.Evaluating? && s.focus.symbol in s.watch.states
    requires At(s.watch, s.focus.symbol).phase == Watching || At(s.watch, s.focus.symbol).phase == Triggered
    ensures var symbol, next := s.focus.symbol, Step(cfg, s, Evaluated(e));
      var p, q := At(s.watch, symbol), At(next.watch, symbol);
      var heard, found := e.latestTime.None? || p.last5m != e.latestTime, e.signal.Some?;
      && next == s.(focus := next.focus, watch := s.watch.(states := next.watch.states)) && OthersKept(s, next, symbol)
      && (!heard ==> q == p && next.focus == if p.phase == Triggered && p.signal.Some? then AwaitingRisk(symbol, p.signal.value, p.allowed) else Resting)
      && (heard && p.phase == Watching && found && p.allowed ==>
            q.phase == Triggered && q.signal == e.signal && next.focus == AwaitingRisk(symbol, e.signal.value, true))
      && (heard && p.phase == Watching && found && !p.allowed ==> q.phase == Invalidated && !q.locked && next.focus == Resting)
      && (heard && p.phase == Watching && !found ==> q.phase == Watching && next.focus == Resting)
      && (heard && p.phase == Triggered ==> q.phase == (if found then Triggered else Invalidated) && q.signal == None && next.focus == Resting)
  {
  }

  /** A risk verdict on the focused symbol: rejected, it is INVALIDATED and the cycle goes on to rest; READY without
      permission likewise, and its lock is gone; READY with permission, readiness is asked about the same signal. */
  lemma RiskVerdict(cfg: Config, s: System, ready: bool)
    requires s.focus.AwaitingRisk? && s.focus.symbol in s.watch.states
    ensures var symbol, next := s.focus.symbol, Step(cfg, s, RiskDecided(ready));
      && next.submitted == s.submitted && next.entries == s.entries && next.accepted == s.accepted && OthersKept(s, next, symbol)
      && (!ready ==> next.focus == Resting && At(next.watch, symbol).phase == Invalidated
                     && At(next.watch, symbol).locked == At(s.watch, symbol).locked)
      && (ready && !s.focus.allowed ==> next.focus == Resting && At(next.watch, symbol).phase == Invalidated && !At(next.watch, symbol).locked)
      && (ready && s.focus.allowed ==> next.focus == AwaitingReadiness(symbol, s.focus.signal) && next.watch == s.watch)
  {
  }

  /** A readiness verdict: not READY, the symbol is INVALIDATED; READY, its signal is executed unless it was submitted
      before, in which case the symbol rests as it is. */
  lemma ReadinessVerdict(cfg: Config, s: System, ready: bool)
    requires s.focus.AwaitingReadiness? && s.focus.symbol in s.watch.states
    ensures var symbol, next := s.focus.symbol, Step(cfg, s, ReadinessDecided(ready));
      && next.submitted == s.submitted && next.entries == s.entries && next.accepted == s.accepted && OthersKept(s, next, symbol)
      && (!ready ==> next.focus == Resting && At(next.watch, symbol).phase == Invalidated && !At(next.watch, symbol).locked)
      && (ready ==> next.watch == s.watch
                    && next.focus == if s.focus.signal.id in s.submitted then Resting else Executing(symbol, s.focus.signal))
  {
  }

  /** An order outcome. Only an accepted order cools its symbol down, and only a refused one may be tried again. */
  lemma OutcomeVerdict(cfg: Config, s: System, outcome: Outcome, now: int)
    requires s.focus.Executing? && now >= s.clock && s.focus.symbol in s.watch.states
    ensures var symbol, id, next := s.focus.symbol, s.focus.signal.id, Step(cfg, s, OrderReturned(outcome, now));
      var p, q := At(s.watch, symbol), At(next.watch, symbol);
      && next.focus == Resting && next.clock == now && next.entries == s.entries && OthersKept(s, next, symbol)
      && match outcome
         case Accepted =>
           && q.phase == Cooldown && q.cooldownUntil == Some(now + cfg.cooldown) && !q.locked
           && symbol in next.watch.cooldowns && next.watch.cooldowns[symbol] == now + cfg.cooldown
           && next.submitted == s.submitted + {id} && next.accepted == s.accepted + [Acceptance(symbol, id, now)]
         case Unknown =>
           q.phase == Invalidated && q.locked && next.submitted == s.submitted + {id} && next.accepted == s.accepted
           && next.watch.cooldowns == s.watch.cooldowns
         case Refused =>
           q.phase == Invalidated && q.locked == p.locked && next.submitted == s.submitted && next.accepted == s.accepted
           && next.watch.cooldowns == s.watch.cooldowns
  {
    hide Allowed;
  }

  /** The events without a verdict. A fetch of the positions replaces the open ones, an exception only ends the symbol's
      turn, and a restart takes the submitted signals from the store. */
  lemma QuietEvents(cfg: Config, s: System, open: set<string>, stored: set<string>)
    requires s.submitted <= stored
    ensures Step(cfg, s, Raised) == s.(focus := Resting)
    ensures Step(cfg, s, Event.Restart(stored)) == s.(focus := Resting, submitted := stored)
    ensures Step(cfg, s, Positions(open)) == if s.focus == Resting then s.(watch := s.watch.(open := open)) else s
  {
  }

  /** An entry request is the execution's own, at most one per signal, and moves nothing else but the clock. */
  lemma EntryVerdict(cfg: Config, s: System, now: int)
    requires s.focus.Executing? && now >= s.clock
    ensures var next, mine := Step(cfg, s, EntrySent(now)), EntryRequest(s.focus.symbol, s.focus.signal.id, now, |s.accepted|);
      if exists i :: 0 <= i < |s.entries| && s.entries[i].signal == s.focus.signal.id then next == s
      else next == s.(entries := s.entries + [mine], clock := now)
  {
  }

  // ---------------------------------------------------------------- trend and setup before the entry

  /** A symbol under watch, armed or triggered has a valid trend. */
  ghost predicate TrendsHold(w: Watchlist) {
    forall x :: x in w.states && w.states[x].phase in {Watching, Armed, Triggered} ==> w.states[x].trendValid
  }

  /** An entry evaluation is awaited only for a symbol with a valid setup. */
  predicate SetupHolds(s: System) {
    s.focus.Evaluating? ==>
      At(s.watch, s.focus.symbol).setup == Some(true) && At(s.watch, s.focus.symbol).phase in {Watching, Armed, Triggered}
  }

  lemma AdvancedTrend(p: Progress, hour: Reading, quarter: Reading)
    requires p.phase in {Watching, Armed, Triggered} ==> p.trendValid
    ensures Advanced(p, hour, quarter).phase in {Watching, Armed, Triggered} ==> Advanced(p, hour, quarter).trendValid
  {
  }

  lemma DecidedTrend(p: Progress, e: Evaluation)
    ensures Decided(p, e).trendValid == p.trendValid
    ensures Decided(p, e).phase in {Watching, Armed, Triggered} ==> p.phase in {Watching, Armed, Triggered}
  {
  }

  lemma WithTrend(w: Watchlist, symbol: string, p: Progress)
    requires TrendsHold(w) && (p.phase in {Watching, Armed, Triggered} ==> p.trendValid)
    ensures TrendsHold(With(w, symbol, p))
  {
  }

  lemma ScannerTrends(cfg: Config, w: Watchlist, symbol: string, safe: bool, universe: seq<Opportunity>, now: int)
    requires TrendsHold(w)
    ensures TrendsHold(Touched(cfg, w, symbol)) && TrendsHold(Refreshed(cfg, w, universe)) && TrendsHold(Released(cfg, w, now))
    ensures TrendsHold(With(Touched(cfg, w, symbol), symbol, Opened(Touched(cfg, w, symbol).states[symbol], safe)))
    ensures TrendsHold(Cooled(cfg, w, symbol, now))
  {
    hide Allowed, Pool;
  }

  lemma TrendStep(cfg: Config, s: System, e: Event)
    requires Safe(cfg, s) && TrendsHold(s.watch)
    ensures TrendsHold(Step(cfg, s, e).watch)
  {
    hide AllCovered, Apart, CooldownsExact, PermissionsSound, Advanced, Decided, TrendsHold, Cooled, Released, Refreshed, Touched, Sent;
    match e {
      case Begin(symbol, safe) => ScannerTrends(cfg, s.watch, symbol, safe, [], 0);
      case Candles(hour, quarter, _) =>
        if s.focus.Fetching? {
          TrendAt(s.watch, s.focus.symbol);
          AdvancedTrend(s.watch.states[s.focus.symbol], hour, quarter);
          WithTrend(s.watch, s.focus.symbol, Advanced(s.watch.states[s.focus.symbol], hour, quarter));
        }
      case Evaluated(evaluation) =>
        if s.focus.Evaluating? {
          TrendAt(s.watch, s.focus.symbol);
          DecidedTrend(s.watch.states[s.focus.symbol], evaluation);
          WithTrend(s.watch, s.focus.symbol, Decided(s.watch.states[s.focus.symbol], evaluation));
        }
      case RiskDecided(_) =>
        if s.focus.AwaitingRisk? {
          var p := s.watch.states[s.focus.symbol];
          WithTrend(s.watch, s.focus.symbol, p.(phase := Invalidated));
          WithTrend(s.watch, s.focus.symbol, Blocked(p));
        }
      case ReadinessDecided(_) =>
        if s.focus.AwaitingReadiness? { WithTrend(s.watch, s.focus.symbol, Blocked(s.watch.states[s.focus.symbol])); }
      case OrderReturned(_, now) =>
        if s.focus.Executing? {
          var p := s.watch.states[s.focus.symbol];
          WithTrend(s.watch, s.focus.symbol, p.(phase := Executed, locked := false));
          ScannerTrends(cfg, With(s.watch, s.focus.symbol, p.(phase := Executed, locked := false)), s.focus.symbol, true, [], now);
          WithTrend(s.watch, s.focus.symbol, p.(phase := Invalidated, locked := true));
          WithTrend(s.watch, s.focus.symbol, p.(phase := Invalidated));
        }
      case Release(now) => ScannerTrends(cfg, s.watch, "", true, [], now);
      case Look(symbol) => ScannerTrends(cfg, s.watch, symbol, true, [], 0);
      case Refresh(universe) => ScannerTrends(cfg, s.watch, "", true, universe, 0);
      case Positions(open) => OpenTrends(s.watch, open);
      case _ =>
    }
  }

  lemma TrendAt(w: Watchlist, symbol: string)
    requires TrendsHold(w) && symbol in w.states
    ensures w.states[symbol].phase in {Watching, Armed, Triggered} ==> w.states[symbol].trendValid
  {
  }

  lemma OpenTrends(w: Watchlist, open: set<string>)
    requires TrendsHold(w)
    ensures TrendsHold(w.(open := open))
  {
  }

  lemma SetupStep(cfg: Config, s: System, e: Event)
    requires Safe(cfg, s) && SetupHolds(s)
    ensures SetupHolds(Step(cfg, s, e))
  {
    hide AllCovered, Apart, PermissionsSound, Allowed, Advanced, Decided, Sent, Pool, Cooled;
    match e {
      case Look(symbol) => if s.focus.Evaluating? { TouchKeepsPlace(cfg, s, symbol); }
      case Refresh(universe) => if s.focus.Evaluating? { RefreshKeepsPlace(cfg, s, universe); }
      case Release(now) => if s.focus.Evaluating? { ReleaseKeepsPlace(cfg, s, now); }
      case _ =>
    }
  }

  lemma TouchKeepsPlace(cfg: Config, s: System, symbol: string)
    requires Safe(cfg, s) && s.focus.Evaluating?
    ensures SamePlace(At(Touched(cfg, s.watch, symbol), s.focus.symbol), At(s.watch, s.focus.symbol))
  {
    TouchKeeps(cfg, s.watch, symbol);
  }

  lemma RefreshKeepsPlace(cfg: Config, s: System, universe: seq<Opportunity>)
    requires Safe(cfg, s) && s.focus.Evaluating?
    ensures SamePlace(At(Refreshed(cfg, s.watch, universe), s.focus.symbol), At(s.watch, s.focus.symbol))
  {
    RefreshKeeps(cfg, s.watch, universe);
  }

  lemma ReleaseKeepsPlace(cfg: Config, s: System, now: int)
    requires Safe(cfg, s) && s.focus.Evaluating?
    ensures At(Released(cfg, s.watch, now), s.focus.symbol) == At(s.watch, s.focus.symbol)
  {
    NotCooling(s.watch, s.focus.symbol);
    ReleaseKeeps(cfg, s.watch, now);
  }

  lemma {:induction false} RunTrends(cfg: Config, clock: int, known: set<string>, events: seq<Event>)
    ensures TrendsHold(Run(cfg, clock, known, events).watch) && SetupHolds(Run(cfg, clock, known, events))
    decreases |events|
  {
    hide Step, Safe, TrendsHold, SetupHolds;
    if events == [] {
      StartTrends(clock, known);
    } else {
      var s := Run(cfg, clock, known, events[..|events| - 1]);
      RunTrends(cfg, clock, known, events[..|events| - 1]);
      RunSafe(cfg, clock, known, events[..|events| - 1]);
      TrendStep(cfg, s, events[|events| - 1]);
      SetupStep(cfg, s, events[|events| - 1]);
    }
  }

  lemma StartTrends(clock: int, known: set<string>)
    ensures TrendsHold(Start(clock, known).watch) && SetupHolds(Start(clock, known))
  {
  }

  /** Over every run a symbol triggers only with a valid one-hour trend and a valid fifteen-minute setup. */
  lemma TriggeringHasTrendAndSetup(cfg: Config, clock: int, known: set<string>, events: seq<Event>, e: Event, symbol: string)
    requires var s, next := Run(cfg, clock, known, events), Step(cfg, Run(cfg, clock, known, events), e);
      At(next.watch, symbol).phase == Triggered && At(s.watch, symbol).phase != Triggered
    ensures var p := At(Run(cfg, clock, known, events).watch, symbol);
      p.trendValid && p.setup == Some(true)
  {
    hide Run, Step;
    RunTrends(cfg, clock, known, events);
    TriggeringIsPermitted(cfg, clock, known, events, e, symbol);
    TrendOfState(Run(cfg, clock, known, events), symbol);
  }

  lemma TrendOfState(s: System, symbol: string)
    requires TrendsHold(s.watch) && At(s.watch, symbol).phase == Watching
    ensures At(s.watch, symbol).trendValid
  {
  }

  lemma AdvancedKeeps(p: Progress, hour: Reading, quarter: Reading)
    ensures var q := Advanced(p, hour, quarter);
      && q.last5m == p.last5m && q.signal == p.signal && q.allowed == p.allowed && q.locked == p.locked
      && (p.phase == Cooldown ==> q == p)
  {
  }

  /** When the candles of a symbol are in: an entry evaluation is due exactly for a five-minute candle not evaluated
      before, on a symbol that is not cooling down and, after trend and setup, has a valid setup and is watched,
      armed or triggered. Otherwise a triggered symbol goes on with the signal it still stores. */
  lemma EntryDueExactly(cfg: Config, s: System, hour: Reading, quarter: Reading, latest: Option<int>)
    requires s.focus.Fetching? && s.focus.symbol in s.watch.states
    ensures var symbol, next := s.focus.symbol, Step(cfg, s, Candles(hour, quarter, latest));
      var p, q := At(s.watch, symbol), At(next.watch, symbol);
      && (next.focus == Evaluating(symbol) <==>
            latest.Some? && p.last5m != latest && p.phase != Cooldown && q.setup == Some(true)
            && (q.phase == Watching || q.phase == Armed || q.phase == Triggered))
      && (next.focus != Evaluating(symbol) && q.phase == Triggered && q.signal.Some? ==>
            next.focus == AwaitingRisk(symbol, q.signal.value, q.allowed))
      && (next.focus != Evaluating(symbol) && !(q.phase == Triggered && q.signal.Some?) ==> next.focus == Resting)
      && q.last5m == p.last5m && q.signal == p.signal && q.allowed == p.allowed && q.locked == p.locked
      && (p.phase == Cooldown ==> q == p)
  {
    hide Advanced;
    AdvancedKeeps(s.watch.states[s.focus.symbol], hour, quarter);
  }
}
