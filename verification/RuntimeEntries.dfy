/** Entry requests over runs of the trading cycle: exactly when the next entry of a symbol can leave. */
module RuntimeEntries {
  import opened Prelude
  import opened Pipeline
  import opened Scanner
  import opened Runtime
  import opened RuntimeLock

  // ---------------------------------------------------------------- what every segment keeps

  /** The watchlist can allow the symbol: a static list names it, or the ranking is free to. */
  predicate Permittable(cfg: Config, symbol: string) {
    cfg.staticMode ==> symbol in cfg.allowlist
  }

  predicate StateOk(cfg: Config, symbol: string, p: Progress) {
    p.phase != Executed && (p.phase == Triggered ==> Permittable(cfg, symbol))
  }

  /** No symbol rests in EXECUTED, and only permittable ones are TRIGGERED. */
  ghost predicate StatesOk(cfg: Config, w: Watchlist) {
    forall x :: x in w.states ==> StateOk(cfg, x, w.states[x])
  }

  /** Every listed cooldown stems from an accepted order. */
  ghost predicate CooldownsEarned(cfg: Config, s: System) {
    forall x :: x in s.watch.cooldowns ==> Earned(cfg, s.accepted, x, s.watch.cooldowns[x])
  }

  ghost predicate Earned(cfg: Config, accepted: seq<Acceptance>, symbol: string, until: int) {
    exists k :: 0 <= k < |accepted| && accepted[k].symbol == symbol && accepted[k].time + cfg.cooldown == until
  }

  /** An entry waited out the cooldown of every order accepted for its symbol by then. */
  ghost predicate EntryOk(cfg: Config, s: System, e: EntryRequest) {
    && Permittable(cfg, e.symbol) && e.accepted <= |s.accepted|
    && forall k :: 0 <= k < e.accepted && s.accepted[k].symbol == e.symbol ==> s.accepted[k].time + cfg.cooldown <= e.time
  }

  ghost predicate EntriesOk(cfg: Config, s: System) {
    forall j :: 0 <= j < |s.entries| ==> EntryOk(cfg, s, s.entries[j])
  }

  ghost predicate Good(cfg: Config, s: System) {
    Safe(cfg, s) && StatesOk(cfg, s.watch) && CooldownsEarned(cfg, s) && EntriesOk(cfg, s)
  }

  lemma AdvancedPhases(p: Progress, hour: Reading, quarter: Reading)
    ensures Advanced(p, hour, quarter).phase in {p.phase, Watching, Invalidated, Discovered}
  {
  }

  lemma DecidedPhases(p: Progress, e: Evaluation)
    requires p.phase != Armed
    ensures Decided(p, e).phase == Executed ==> p.phase == Executed
    ensures Decided(p, e).phase == Triggered ==> p.phase == Triggered || p.allowed
  {
  }

  lemma WithStates(cfg: Config, w: Watchlist, symbol: string, p: Progress)
    requires StatesOk(cfg, w) && StateOk(cfg, symbol, p)
    ensures StatesOk(cfg, With(w, symbol, p))
  {
  }

  lemma TouchStates(cfg: Config, w: Watchlist, symbol: string)
    requires StatesOk(cfg, w)
    ensures StatesOk(cfg, Touched(cfg, w, symbol))
  {
    hide Allowed;
  }

  lemma RefreshStates(cfg: Config, w: Watchlist, universe: seq<Opportunity>)
    requires StatesOk(cfg, w)
    ensures StatesOk(cfg, Refreshed(cfg, w, universe))
  {
    hide Allowed, Pool;
  }

  lemma ReleaseStates(cfg: Config, w: Watchlist, now: int)
    requires StatesOk(cfg, w)
    ensures StatesOk(cfg, Released(cfg, w, now))
  {
    hide Allowed;
  }

  lemma CoolStates(cfg: Config, w: Watchlist, symbol: string, p: Progress, now: int)
    requires StatesOk(cfg, w)
    ensures StatesOk(cfg, Cooled(cfg, With(w, symbol, p), symbol, now))
  {
    hide Allowed;
  }

  lemma StatesStep(cfg: Config, s: System, e: Event)
    requires Safe(cfg, s) && StatesOk(cfg, s.watch)
    ensures StatesOk(cfg, Step(cfg, s, e).watch)
  {
    hide AllCovered, Apart, CooldownsExact, PermissionsSound, Advanced, Decided, StatesOk, Cooled, Released, Refreshed, Touched, Sent;
    match e {
      case Begin(symbol, safe) =>
        if s.focus == Resting {
          TouchStates(cfg, s.watch, symbol);
          OpenedStates(cfg, s.watch, symbol, safe);
        }
      case Candles(hour, quarter, _) =>
        if s.focus.Fetching? {
          StateAt(cfg, s.watch, s.focus.symbol);
          AdvancedPhases(s.watch.states[s.focus.symbol], hour, quarter);
          WithStates(cfg, s.watch, s.focus.symbol, Advanced(s.watch.states[s.focus.symbol], hour, quarter));
        }
      case Evaluated(evaluation) =>
        if s.focus.Evaluating? {
          StateAt(cfg, s.watch, s.focus.symbol);
          PermissionAt(cfg, s.watch, s.focus.symbol);
          DecidedPhases(s.watch.states[s.focus.symbol], evaluation);
          WithStates(cfg, s.watch, s.focus.symbol, Decided(s.watch.states[s.focus.symbol], evaluation));
        }
      case RiskDecided(_) =>
        if s.focus.AwaitingRisk? {
          var p := s.watch.states[s.focus.symbol];
          WithStates(cfg, s.watch, s.focus.symbol, p.(phase := Invalidated));
          WithStates(cfg, s.watch, s.focus.symbol, Blocked(p));
        }
      case ReadinessDecided(_) =>
        if s.focus.AwaitingReadiness? {
          WithStates(cfg, s.watch, s.focus.symbol, Blocked(s.watch.states[s.focus.symbol]));
        }
      case OrderReturned(_, now) =>
        if s.focus.Executing? {
          var p := s.watch.states[s.focus.symbol];
          CoolStates(cfg, s.watch, s.focus.symbol, p.(phase := Executed, locked := false), now);
          WithStates(cfg, s.watch, s.focus.symbol, p.(phase := Invalidated, locked := true));
          WithStates(cfg, s.watch, s.focus.symbol, p.(phase := Invalidated));
        }
      case Release(now) => ReleaseStates(cfg, s.watch, now);
      case Look(symbol) => TouchStates(cfg, s.watch, symbol);
      case Refresh(universe) => RefreshStates(cfg, s.watch, universe);
      case Positions(open) => OpenStates(cfg, s.watch, open);
      case _ =>
    }
  }

  lemma StateAt(cfg: Config, w: Watchlist, symbol: string)
    requires StatesOk(cfg, w) && symbol in w.states
    ensures StateOk(cfg, symbol, w.states[symbol])
  {
  }

  lemma OpenStates(cfg: Config, w: Watchlist, open: set<string>)
    requires StatesOk(cfg, w)
    ensures StatesOk(cfg, w.(open := open))
  {
  }

  lemma OpenedStates(cfg: Config, w: Watchlist, symbol: string, safe: bool)
    requires StatesOk(cfg, w)
    ensures var t := Touched(cfg, w, symbol);
      StatesOk(cfg, With(t, symbol, Opened(t.states[symbol], safe)))
  {
    hide Allowed;
  }

  /** Clocks and logs only grow; one segment adds at most one entry, at its own time. */
  ghost predicate Grown(s: System, next: System) {
    && s.clock <= next.clock && s.accepted <= next.accepted
    && (next.entries == s.entries
        || exists e: EntryRequest :: next.entries == s.entries + [e] && e.time >= s.clock && e.accepted == |s.accepted| == |next.accepted|)
  }

  lemma StepGrows(cfg: Config, s: System, e: Event)
    ensures Grown(s, Step(cfg, s, e))
  {
    hide Touched, Released, Refreshed, Advanced, Decided, Cooled, Dispatch, Sent, With;
  }

  lemma EarnedStep(cfg: Config, s: System, e: Event)
    requires Safe(cfg, s) && CooldownsEarned(cfg, s)
    ensures CooldownsEarned(cfg, Step(cfg, s, e))
  {
    hide AllCovered, Apart, CooldownsExact, PermissionsSound, Advanced, Decided, Sent, Pool, Allowed, Dispatch;
    var next := Step(cfg, s, e);
    if e.OrderReturned? && e.outcome == Accepted && s.focus.Executing? && e.now >= s.clock {
      AcceptedEarns(cfg, s, e.now);
    } else {
      forall x | x in next.watch.cooldowns ensures Earned(cfg, next.accepted, x, next.watch.cooldowns[x]) {
        assert x in s.watch.cooldowns && Earned(cfg, s.accepted, x, s.watch.cooldowns[x]);
      }
    }
  }

  lemma AcceptedEarns(cfg: Config, s: System, now: int)
    requires s.focus.Executing? && CooldownsEarned(cfg, s)
    ensures CooldownsEarned(cfg, AfterOrder(cfg, s, Accepted, now))
  {
    hide Allowed;
    var next := AfterOrder(cfg, s, Accepted, now);
    var n := |s.accepted|;
    assert next.accepted[n].symbol == s.focus.symbol && next.accepted[n].time == now;
    forall x | x in next.watch.cooldowns ensures Earned(cfg, next.accepted, x, next.watch.cooldowns[x]) {
      if x != s.focus.symbol {
        var k :| 0 <= k < n && s.accepted[k].symbol == x && s.accepted[k].time + cfg.cooldown == s.watch.cooldowns[x];
        assert next.accepted[k] == s.accepted[k];
      }
    }
  }

  /** At an entry nothing of its symbol is cooling down, so every earlier acceptance is a cooldown back. */
  lemma EntriesStep(cfg: Config, s: System, e: Event)
    requires Safe(cfg, s) && StatesOk(cfg, s.watch) && EntriesOk(cfg, s)
    ensures EntriesOk(cfg, Step(cfg, s, e))
  {
    hide Apart, PermissionsSound, Step, StatesOk, AllCovered;
    var next := Step(cfg, s, e);
    StepGrows(cfg, s, e);
    forall j | 0 <= j < |next.entries| ensures EntryOk(cfg, next, next.entries[j]) {
      if j < |s.entries| {
        assert EntryOk(cfg, s, s.entries[j]);
        assert next.entries[j] == s.entries[j];
      } else {
        EntrySentOk(cfg, s, e);
      }
    }
  }

  lemma EntrySentOk(cfg: Config, s: System, e: Event)
    requires Safe(cfg, s) && StatesOk(cfg, s.watch) && |Step(cfg, s, e).entries| > |s.entries|
    ensures var next := Step(cfg, s, e);
      |next.entries| == |s.entries| + 1 && EntryOk(cfg, next, next.entries[|s.entries|])
  {
    hide Apart, PermissionsSound, Touched, Released, Refreshed, Advanced, Decided, Cooled, Dispatch, With, Sent;
    if e.EntrySent? && s.focus.Executing? {
      NotCooling(s.watch, s.focus.symbol);
      StateAt(cfg, s.watch, s.focus.symbol);
      forall k | 0 <= k < |s.accepted| ensures Covered(cfg, s, s.accepted[k]) {
      }
    }
  }

  lemma GoodStep(cfg: Config, s: System, e: Event)
    requires Good(cfg, s)
    ensures Good(cfg, Step(cfg, s, e))
  {
    hide Step, Safe, StatesOk, CooldownsEarned, EntriesOk;
    StepSafe(cfg, s, e);
    StatesStep(cfg, s, e);
    EarnedStep(cfg, s, e);
    EntriesStep(cfg, s, e);
  }

  lemma GoodStart(cfg: Config, clock: int, known: set<string>)
    ensures Good(cfg, Start(clock, known))
  {
  }

  lemma {:induction false} RunGood(cfg: Config, clock: int, known: set<string>, events: seq<Event>)
    ensures Good(cfg, Run(cfg, clock, known, events))
    decreases |events|
  {
    hide Step, Good;
    if events == [] {
      GoodStart(cfg, clock, known);
    } else {
      RunGood(cfg, clock, known, events[..|events| - 1]);
      GoodStep(cfg, Run(cfg, clock, known, events[..|events| - 1]), events[|events| - 1]);
    }
  }

  // ---------------------------------------------------------------- continuations

  /** A run of segments from a given system, in order. */
  function Steps(cfg: Config, s: System, events: seq<Event>): System
    decreases |events|
  {
    if events == [] then s else Step(cfg, Steps(cfg, s, events[..|events| - 1]), events[|events| - 1])
  }

  lemma StepsSnoc(cfg: Config, s: System, events: seq<Event>, e: Event)
    ensures Steps(cfg, s, events + [e]) == Step(cfg, Steps(cfg, s, events), e)
  {
    hide Step;
    assert (events + [e])[..|events|] == events;
  }

  lemma {:induction false} StepsAppend(cfg: Config, s: System, a: seq<Event>, b: seq<Event>)
    ensures Steps(cfg, s, a + b) == Steps(cfg, Steps(cfg, s, a), b)
    decreases |b|
  {
    hide Step;
    if b == [] {
      assert a + b == a;
    } else {
      assert (a + b)[..|a + b| - 1] == a + b[..|b| - 1];
      StepsAppend(cfg, s, a, b[..|b| - 1]);
    }
  }

  lemma {:induction false} RunIsSteps(cfg: Config, clock: int, known: set<string>, events: seq<Event>)
    ensures Run(cfg, clock, known, events) == Steps(cfg, Start(clock, known), events)
    decreases |events|
  {
    hide Step;
    if events != [] {
      RunIsSteps(cfg, clock, known, events[..|events| - 1]);
    }
  }

  lemma {:induction false} GoodSteps(cfg: Config, s: System, more: seq<Event>)
    requires Good(cfg, s)
    ensures Good(cfg, Steps(cfg, s, more))
    decreases |more|
  {
    hide Step, Good;
    if more != [] {
      GoodSteps(cfg, s, more[..|more| - 1]);
      GoodStep(cfg, Steps(cfg, s, more[..|more| - 1]), more[|more| - 1]);
    }
  }

  /** The continuation makes an entry request of the symbol at that time. */
  ghost predicate Sends(cfg: Config, s: System, more: seq<Event>, symbol: string, now: int) {
    var end := Steps(cfg, s, more);
    exists j :: |s.entries| <= j < |end.entries| && end.entries[j].symbol == symbol && end.entries[j].time == now
  }

  ghost predicate CanSend(cfg: Config, s: System, symbol: string, now: int) {
    exists more :: Sends(cfg, s, more, symbol, now)
  }

  /** The cooldown list, the guard that the permission tests, has no entry of the symbol past that time. */
  predicate CooledBy(w: Watchlist, symbol: string, now: int) {
    symbol in w.cooldowns ==> w.cooldowns[symbol] <= now
  }

  /** Every order reported as accepted for the symbol lies at least the cooldown back. */
  ghost predicate AcceptancesOver(cfg: Config, s: System, symbol: string, now: int) {
    forall k :: 0 <= k < |s.accepted| && s.accepted[k].symbol == symbol ==> s.accepted[k].time + cfg.cooldown <= now
  }

  /** The list says exactly what the acceptances say. */
  lemma CooledIsOver(cfg: Config, s: System, symbol: string, now: int)
    requires Good(cfg, s) && s.clock <= now
    ensures CooledBy(s.watch, symbol, now) <==> AcceptancesOver(cfg, s, symbol, now)
  {
    hide Apart, PermissionsSound, CooldownsExact, StatesOk, EntriesOk, FocusHeld;
    if CooledBy(s.watch, symbol, now) {
      forall k | 0 <= k < |s.accepted| && s.accepted[k].symbol == symbol ensures s.accepted[k].time + cfg.cooldown <= now {
        assert Covered(cfg, s, s.accepted[k]);
      }
    }
    if AcceptancesOver(cfg, s, symbol, now) && symbol in s.watch.cooldowns {
      assert Earned(cfg, s.accepted, symbol, s.watch.cooldowns[symbol]);
    }
  }

  // ---------------------------------------------------------------- no entry while cooling down

  /** What a continuation adds: later entries, each counting every acceptance made before it. */
  lemma {:induction false} LaterEntries(cfg: Config, s: System, more: seq<Event>)
    ensures var end := Steps(cfg, s, more);
      && s.clock <= end.clock && s.accepted <= end.accepted && s.entries <= end.entries
      && forall j :: |s.entries| <= j < |end.entries| ==> end.entries[j].time >= s.clock && end.entries[j].accepted >= |s.accepted|
    decreases |more|
  {
    hide Step;
    if more != [] {
      LaterEntries(cfg, s, more[..|more| - 1]);
      StepGrows(cfg, Steps(cfg, s, more[..|more| - 1]), more[|more| - 1]);
    }
  }

  /** In every continuation an entry of the symbol leaves no sooner than now and the end of every cooldown. */
  lemma BlockedWhileCooling(cfg: Config, s: System, more: seq<Event>, symbol: string, now: int)
    requires Good(cfg, s) && Sends(cfg, s, more, symbol, now)
    ensures s.clock <= now && Permittable(cfg, symbol) && AcceptancesOver(cfg, s, symbol, now)
  {
    hide Steps, Safe, StatesOk, CooldownsEarned, Permittable;
    var end := Steps(cfg, s, more);
    LaterEntries(cfg, s, more);
    GoodSteps(cfg, s, more);
    var j :| |s.entries| <= j < |end.entries| && end.entries[j].symbol == symbol && end.entries[j].time == now;
    assert EntryOk(cfg, end, end.entries[j]);
    forall k | 0 <= k < |s.accepted| && s.accepted[k].symbol == symbol ensures s.accepted[k].time + cfg.cooldown <= now {
      assert end.accepted[k] == s.accepted[k];
    }
  }

  // ---------------------------------------------------------------- an entry once it is cooled down

  /** Nothing but watched states and the cycle's place may differ. */
  predicate SameLogs(s: System, next: System) {
    && next.clock == s.clock && next.submitted == s.submitted && next.accepted == s.accepted && next.entries == s.entries
    && next.watch.cooldowns == s.watch.cooldowns && next.watch.dynamic == s.watch.dynamic
  }

  lemma RefreshAdmits(cfg: Config, w: Watchlist, symbol: string)
    requires symbol !in w.cooldowns && w.open == {} && Permittable(cfg, symbol)
    ensures Allowed(cfg, Refreshed(cfg, w, [Opportunity(symbol, 0, 0, true)]), symbol)
  {
    var o := Opportunity(symbol, 0, 0, true);
    assert [o][..0] == [];
    assert Ranked([o]) == [o];
    if symbol !in cfg.core {
      assert Picks(cfg, w, [o]) == [symbol];
      assert symbol in Pool(cfg, w, [o]);
    }
  }

  /** The scanner's part: cooldowns released, positions closed, the symbol ranked. */
  function ToAllowed(symbol: string, now: int): seq<Event> {
    [] + [Raised] + [Event.Release(now)] + [Positions({})] + [Refresh([Opportunity(symbol, 0, 0, true)])]
  }

  lemma AllowedReached(cfg: Config, s: System, symbol: string, now: int)
    requires Good(cfg, s) && s.clock <= now && Permittable(cfg, symbol) && CooledBy(s.watch, symbol, now)
    ensures var t := Steps(cfg, s, ToAllowed(symbol, now));
      && t.focus == Resting && t.clock == now && Allowed(cfg, t.watch, symbol)
      && t.submitted == s.submitted && t.accepted == s.accepted && t.entries == s.entries
  {
    hide Steps, Allowed, Good, Permittable, Refreshed, Released;
    var o := [Opportunity(symbol, 0, 0, true)];
    NoSteps(cfg, s);
    StepsSnoc(cfg, s, [], Raised);
    StepsSnoc(cfg, s, [] + [Raised], Event.Release(now));
    StepsSnoc(cfg, s, [] + [Raised] + [Event.Release(now)], Positions({}));
    StepsSnoc(cfg, s, [] + [Raised] + [Event.Release(now)] + [Positions({})], Refresh(o));
    var released := Released(cfg, s.watch, now);
    GoodLists(cfg, s);
    ReleaseKeeps(cfg, s.watch, now);
    RefreshAdmits(cfg, released.(open := {}), symbol);
  }

  lemma GoodLists(cfg: Config, s: System)
    requires Good(cfg, s)
    ensures CooldownsExact(s.watch) && PermissionsSound(cfg, s.watch)
  {
  }

  lemma NoSteps(cfg: Config, s: System)
    ensures Steps(cfg, s, []) == s
  {
  }

  /** Taking up an allowed symbol. */
  lemma BeginAllowed(cfg: Config, s: System, symbol: string)
    requires Good(cfg, s) && s.focus == Resting && Allowed(cfg, s.watch, symbol)
    ensures var next := Step(cfg, s, Begin(symbol, true));
      && next.focus == Fetching(symbol) && symbol in next.watch.states && SameLogs(s, next)
      && next.watch.states[symbol].allowed && next.watch.states[symbol].phase in {Discovered, Watching, Invalidated, Triggered}
      && next.watch.states[symbol].phase == At(s.watch, symbol).phase
  {
    hide AllCovered, Apart, EntriesOk, CooldownsEarned;
  }

  /** A time after every candle processed so far. */
  function After(p: Progress): int {
    var a := if p.last1h.Some? then p.last1h.value else 0;
    var b := if p.last15m.Some? then p.last15m.value else 0;
    var c := if p.last5m.Some? then p.last5m.value else 0;
    1 + (if a >= b && a >= c then a else if b >= c then b else c)
  }

  lemma CandlesAfter(cfg: Config, s: System, symbol: string, t: int)
    requires s.focus == Fetching(symbol) && symbol in s.watch.states && t == After(s.watch.states[symbol])
    requires s.watch.states[symbol].phase in {Discovered, Watching, Invalidated, Triggered}
    ensures var p, next := s.watch.states[symbol], Step(cfg, s, FreshCandles(t, t, t));
      && next.focus == Evaluating(symbol) && symbol in next.watch.states && SameLogs(s, next)
      && next.watch.states[symbol] == p.(last1h := Some(t), last15m := Some(t), trendValid := true, setup := Some(true),
                                         phase := if p.phase == Triggered then Triggered else Watching)
  {
  }

  /** An evaluation without a signal leaves WATCHING as it is and drops a triggered setup. */
  lemma QuietEvaluation(cfg: Config, s: System, symbol: string, t: int)
    requires s.focus == Evaluating(symbol) && symbol in s.watch.states && s.watch.states[symbol].phase in {Watching, Triggered}
    requires s.watch.states[symbol].last5m != Some(t)
    ensures var p, next := s.watch.states[symbol], Step(cfg, s, Evaluated(Evaluation(Some(t), None)));
      && next.focus == Resting && symbol in next.watch.states && SameLogs(s, next)
      && next.watch.states[symbol].phase == if p.phase == Triggered then Invalidated else Watching
  {
  }

  lemma SignalTriggers(cfg: Config, s: System, symbol: string, t: int, id: string)
    requires s.focus == Evaluating(symbol) && symbol in s.watch.states
    requires s.watch.states[symbol].phase == Watching && s.watch.states[symbol].allowed && s.watch.states[symbol].last5m != Some(t)
    ensures var next := Step(cfg, s, SignalAt(t, id));
      next.focus == AwaitingRisk(symbol, Pipeline.Signal(id), true) && SameLogs(s, next)
  {
  }

  function ToEntry(now: int): seq<Event> {
    [] + [RiskDecided(true)] + [ReadinessDecided(true)] + [EntrySent(now)]
  }

  lemma EntryLeaves(cfg: Config, s: System, symbol: string, id: string, now: int)
    requires s.focus == AwaitingRisk(symbol, Pipeline.Signal(id), true) && id !in s.submitted && !Sent(s.entries, id) && s.clock <= now
    ensures Steps(cfg, s, ToEntry(now)).entries == s.entries + [EntryRequest(symbol, id, now, |s.accepted|)]
  {
    hide Steps, Sent;
    NoSteps(cfg, s);
    StepsSnoc(cfg, s, [], RiskDecided(true));
    StepsSnoc(cfg, s, [] + [RiskDecided(true)], ReadinessDecided(true));
    StepsSnoc(cfg, s, [] + [RiskDecided(true)] + [ReadinessDecided(true)], EntrySent(now));
  }

  lemma {:induction false} LengthBound(u: set<string>) returns (n: nat)
    ensures forall x :: x in u ==> |x| <= n
  {
    n := 0;
    if u != {} {
      var x := Pick(u);
      n := LengthBound(u - {x});
      assert forall y :: y in u ==> y == x || y in u - {x};
      n := if |x| > n then |x| else n;
    }
  }

  lemma FreshId(s: System) returns (id: string)
    ensures id !in s.submitted && !Sent(s.entries, id)
  {
    var used := s.submitted + set j | 0 <= j < |s.entries| :: s.entries[j].signal;
    var n := LengthBound(used);
    id := seq(n + 1, _ => 'x');
    assert |id| == n + 1 && id !in used;
  }

  /** From any allowed place at rest: one cycle that drops what was there, one that brings a new signal. */
  lemma SignalReached(cfg: Config, s: System, symbol: string) returns (more: seq<Event>, id: string)
    requires Good(cfg, s) && s.focus == Resting && Allowed(cfg, s.watch, symbol)
    ensures var t := Steps(cfg, s, more);
      && t.focus == AwaitingRisk(symbol, Pipeline.Signal(id), true)
      && SameLogs(s, t) && id !in s.submitted && !Sent(s.entries, id)
  {
    hide Good, Step, Steps, Allowed, Sent;
    NoSteps(cfg, s);
    id := FreshId(s);
    var e1 := Begin(symbol, true);
    var s1 := Step(cfg, s, e1);
    BeginAllowed(cfg, s, symbol);
    GoodStep(cfg, s, e1);
    var t1 := After(s1.watch.states[symbol]);
    var e2 := FreshCandles(t1, t1, t1);
    var s2 := Step(cfg, s1, e2);
    CandlesAfter(cfg, s1, symbol, t1);
    GoodStep(cfg, s1, e2);
    var e3 := Evaluated(Evaluation(Some(t1), None));
    var s3 := Step(cfg, s2, e3);
    QuietEvaluation(cfg, s2, symbol, t1);
    GoodStep(cfg, s2, e3);
    AllowedElsewhere(cfg, s.watch, s3.watch, symbol);
    var s4 := Step(cfg, s3, e1);
    BeginAllowed(cfg, s3, symbol);
    var t2 := After(s4.watch.states[symbol]);
    var e5 := FreshCandles(t2, t2, t2);
    var s5 := Step(cfg, s4, e5);
    CandlesAfter(cfg, s4, symbol, t2);
    SignalTriggers(cfg, s5, symbol, t2, id);
    var e6 := SignalAt(t2, id);
    StepsSnoc(cfg, s, [], e1);
    StepsSnoc(cfg, s, [] + [e1], e2);
    StepsSnoc(cfg, s, [] + [e1] + [e2], e3);
    StepsSnoc(cfg, s, [] + [e1] + [e2] + [e3], e1);
    StepsSnoc(cfg, s, [] + [e1] + [e2] + [e3] + [e1], e5);
    StepsSnoc(cfg, s, [] + [e1] + [e2] + [e3] + [e1] + [e5], e6);
    more := [] + [e1] + [e2] + [e3] + [e1] + [e5] + [e6];
  }

  lemma EntryPossible(cfg: Config, s: System, symbol: string, now: int)
    requires Good(cfg, s) && s.clock <= now && Permittable(cfg, symbol) && CooledBy(s.watch, symbol, now)
    ensures CanSend(cfg, s, symbol, now)
  {
    hide Good, Steps, Allowed, Sent, ToAllowed, ToEntry;
    var a := ToAllowed(symbol, now);
    var t := Steps(cfg, s, a);
    AllowedReached(cfg, s, symbol, now);
    GoodSteps(cfg, s, a);
    var b, id := SignalReached(cfg, t, symbol);
    var u := Steps(cfg, t, b);
    EntryLeaves(cfg, u, symbol, id, now);
    StepsAppend(cfg, s, a, b);
    StepsAppend(cfg, s, a + b, ToEntry(now));
    assert Sends(cfg, s, a + b + ToEntry(now), symbol, now) by {
      var end := Steps(cfg, s, a + b + ToEntry(now));
      assert end.entries[|s.entries|] == EntryRequest(symbol, id, now, |s.accepted|);
    }
  }

  // ---------------------------------------------------------------- exactly when

  /** From every moment of every run: the next entry request of a symbol can leave at a given time if and only
      if that time has not passed, the watchlist can allow the symbol, and the cooldown list, the guard that
      the permission tests, does not reach beyond it. */
  lemma EntryPossibleExactly(cfg: Config, clock: int, known: set<string>, events: seq<Event>, symbol: string, now: int)
    ensures var s := Run(cfg, clock, known, events);
      CanSend(cfg, s, symbol, now) <==> s.clock <= now && Permittable(cfg, symbol) && CooledBy(s.watch, symbol, now)
  {
    hide Run, Good, Sends, Permittable, CooledBy, AcceptancesOver;
    var s := Run(cfg, clock, known, events);
    RunGood(cfg, clock, known, events);
    if CanSend(cfg, s, symbol, now) {
      var more :| Sends(cfg, s, more, symbol, now);
      BlockedWhileCooling(cfg, s, more, symbol, now);
    }
    if s.clock <= now {
      CooledIsOver(cfg, s, symbol, now);
      if Permittable(cfg, symbol) && CooledBy(s.watch, symbol, now) {
        EntryPossible(cfg, s, symbol, now);
      }
    }
  }

  /** The same by acceptances: nothing keeps the next entry of a symbol back but orders reported as accepted,
      each for the cooldown. An earlier entry alone does not. */
  lemma EntriesSpacedExactly(cfg: Config, clock: int, known: set<string>, events: seq<Event>, symbol: string, now: int)
    requires Run(cfg, clock, known, events).clock <= now && Permittable(cfg, symbol)
    ensures var s := Run(cfg, clock, known, events);
      CanSend(cfg, s, symbol, now) <==> AcceptancesOver(cfg, s, symbol, now)
  {
    hide Run, Good, CanSend, CooledBy, AcceptancesOver, Permittable;
    RunGood(cfg, clock, known, events);
    EntryPossibleExactly(cfg, clock, known, events, symbol, now);
    CooledIsOver(cfg, Run(cfg, clock, known, events), symbol, now);
  }

  /** How an execution ends decides: after an acceptance the next entry of the symbol can leave exactly from the
      end of the cooldown on; after a refusal, an unknown outcome or an exception, a timeout among them, at
      once, although the execution may have sent its entry. */
  lemma EndingDecides(cfg: Config, clock: int, known: set<string>, events: seq<Event>, e: Event, now: int)
    requires Run(cfg, clock, known, events).focus.Executing?
    requires e == Raised || (e.OrderReturned? && e.now >= Run(cfg, clock, known, events).clock)
    requires Step(cfg, Run(cfg, clock, known, events), e).clock <= now
    ensures var s := Run(cfg, clock, known, events);
      CanSend(cfg, Step(cfg, s, e), s.focus.symbol, now) <==>
      (e.OrderReturned? && e.outcome == Accepted ==> e.now + cfg.cooldown <= now)
  {
    hide Run, Good, CanSend, Permittable, AcceptancesOver, Step;
    var s := Run(cfg, clock, known, events);
    var symbol := s.focus.symbol;
    RunGood(cfg, clock, known, events);
    ExecutingFacts(cfg, s);
    RunSnoc(cfg, clock, known, events, e);
    EntriesSpacedExactly(cfg, clock, known, events + [e], symbol, now);
    StepGrows(cfg, s, e);
    EndingAcceptances(cfg, s, e, now);
  }

  /** While an execution is under way, its symbol is permittable and has no cooldown running. */
  lemma ExecutingFacts(cfg: Config, s: System)
    requires Good(cfg, s) && s.focus.Executing?
    ensures Permittable(cfg, s.focus.symbol) && AcceptancesOver(cfg, s, s.focus.symbol, s.clock)
  {
    hide Apart, PermissionsSound, EntriesOk, CooldownsEarned;
    NotCooling(s.watch, s.focus.symbol);
    StateAt(cfg, s.watch, s.focus.symbol);
    forall k | 0 <= k < |s.accepted| && s.accepted[k].symbol == s.focus.symbol ensures s.accepted[k].time + cfg.cooldown <= s.clock {
      assert Covered(cfg, s, s.accepted[k]);
    }
  }

  lemma EndingAcceptances(cfg: Config, s: System, e: Event, now: int)
    requires s.focus.Executing? && AcceptancesOver(cfg, s, s.focus.symbol, s.clock)
    requires e == Raised || (e.OrderReturned? && e.now >= s.clock)
    requires s.clock <= Step(cfg, s, e).clock <= now
    ensures AcceptancesOver(cfg, Step(cfg, s, e), s.focus.symbol, now) <==>
      (e.OrderReturned? && e.outcome == Accepted ==> e.now + cfg.cooldown <= now)
  {
    hide Cooled, With;
    var next := Step(cfg, s, e);
    if e.OrderReturned? && e.outcome == Accepted {
      assert next.accepted[|s.accepted|] == Acceptance(s.focus.symbol, s.focus.signal.id, e.now);
    }
  }

  // ---------------------------------------------------------------- two entries of a run

  /** Entries come before the acceptance of their signal, and each signal has one. */
  ghost predicate EntriesFirst(s: System) {
    && (forall i :: 0 <= i < |s.entries| ==> s.entries[i].time <= s.clock)
    && (forall i, k :: 0 <= i < |s.entries| && 0 <= k < |s.accepted| && s.accepted[k].signal == s.entries[i].signal ==>
          s.entries[i].time <= s.accepted[k].time)
    && (forall i, j :: 0 <= i < j < |s.entries| ==> s.entries[i].signal != s.entries[j].signal)
  }

  lemma EntriesFirstStep(cfg: Config, s: System, e: Event)
    requires Safe(cfg, s) && EntriesFirst(s)
    ensures EntriesFirst(Step(cfg, s, e))
  {
    hide Apart, PermissionsSound, CooldownsExact, Touched, Released, Refreshed, Advanced, Decided, Cooled, Dispatch, With;
    if e.EntrySent? && s.focus.Executing? {
      forall k | 0 <= k < |s.accepted| ensures s.accepted[k].signal in s.submitted {
        assert Covered(cfg, s, s.accepted[k]);
      }
    }
  }

  lemma {:induction false} RunEntriesFirst(cfg: Config, clock: int, known: set<string>, events: seq<Event>)
    ensures EntriesFirst(Run(cfg, clock, known, events))
    decreases |events|
  {
    hide Step, Safe;
    if events != [] {
      RunEntriesFirst(cfg, clock, known, events[..|events| - 1]);
      RunSafe(cfg, clock, known, events[..|events| - 1]);
      EntriesFirstStep(cfg, Run(cfg, clock, known, events[..|events| - 1]), events[|events| - 1]);
    }
  }

  /** Over every run: each entry is of another signal, and a later entry of a symbol follows an earlier one by
      at least the cooldown whenever an order of the earlier signal was accepted for that symbol in between. */
  lemma EntriesApart(cfg: Config, clock: int, known: set<string>, events: seq<Event>, i: nat, j: nat, k: nat)
    requires i < j < |Run(cfg, clock, known, events).entries|
    ensures var s := Run(cfg, clock, known, events);
      && s.entries[i].signal != s.entries[j].signal && s.entries[j].accepted <= |s.accepted|
      && (k < s.entries[j].accepted && s.accepted[k].signal == s.entries[i].signal && s.accepted[k].symbol == s.entries[j].symbol ==>
            s.entries[j].time - s.entries[i].time >= cfg.cooldown)
  {
    hide Run, Safe, StatesOk, CooldownsEarned;
    RunEntriesFirst(cfg, clock, known, events);
    RunGood(cfg, clock, known, events);
    var s := Run(cfg, clock, known, events);
    assert EntryOk(cfg, s, s.entries[j]);
  }

  // ---------------------------------------------------------------- a run in which two entries are close

  /** The time a segment carries, in seconds. */
  function TimeOf(e: Event): Option<int> {
    match e
    case EntrySent(now) => Some(now)
    case OrderReturned(_, now) => Some(now)
    case Release(now) => Some(now)
    case _ => None
  }

  /** Candles start on their own grid and were closed by that time. */
  predicate ClosedBy(e: Event, now: int) {
    e.Candles? ==>
      && e.hour.time % 3600 == 0 && e.hour.time + 3600 <= now
      && e.quarter.time % 900 == 0 && e.quarter.time + 900 <= now
      && (e.latestEntry.Some? ==> e.latestEntry.value % 300 == 0 && e.latestEntry.value + 300 <= now)
  }

  /** Times do not run backwards, and only candles that were closed by then are seen before a time. */
  ghost predicate Plausible(events: seq<Event>) {
    forall i, j :: 0 <= i < j < |events| && TimeOf(events[j]).Some? ==>
      && ClosedBy(events[i], TimeOf(events[j]).value)
      && (TimeOf(events[i]).Some? ==> TimeOf(events[i]).value <= TimeOf(events[j]).value)
  }

  /** The first execution sends its entry. */
  function ToSent(symbol: string, first: string): seq<Event> {
    ToTriggered(symbol, first) + [RiskDecided(true)] + [ReadinessDecided(true)]
  }

  /** Ten minutes later: one five-minute candle without a signal, then a new fifteen-minute candle and a new
      signal; the one-hour candle is still the same. */
  function ToNext(symbol: string, second: string): seq<Event> {
    [] + [Begin(symbol, true)] + [FreshCandles(-3600, -900, 0)] + [Evaluated(Evaluation(Some(0), None))]
       + [Begin(symbol, true)] + [FreshCandles(-3600, 0, 600)] + [SignalAt(600, second)] + [RiskDecided(true)] + [ReadinessDecided(true)]
  }

  predicate Unaccepted(ending: Event) {
    ending == Raised || ending == OrderReturned(Refused, 11) || ending == OrderReturned(Unknown, 11)
  }

  /** What the ending leaves of the symbol, the submitted signals and the clock. */
  function EndedState(first: string, ending: Event): Progress {
    match ending
    case Raised => TriggeredState(first)
    case OrderReturned(Unknown, _) => TriggeredState(first).(phase := Invalidated, locked := true)
    case _ => TriggeredState(first).(phase := Invalidated)
  }

  function EndedSubmitted(first: string, ending: Event): set<string> {
    if ending.OrderReturned? && ending.outcome == Unknown then {first} else {}
  }

  function EndedClock(ending: Event): int {
    if ending.OrderReturned? then ending.now else 10
  }

  function Ended(symbol: string, first: string, ending: Event): System {
    Watching1(symbol, EndedState(first, ending), Resting, EndedSubmitted(first, ending), EndedClock(ending))
  }

  lemma EndedReached(cfg: Config, symbol: string, first: string, ending: Event)
    requires Listed(cfg, symbol) && Unaccepted(ending)
    ensures Run(cfg, 0, {}, ToSent(symbol, first) + [EntrySent(10)] + [ending]) ==
      Ended(symbol, first, ending).(entries := [EntryRequest(symbol, first, 10, 0)])
  {
    hide Run;
    TriggeredReached(cfg, symbol, first);
    var events := ToTriggered(symbol, first);
    RunSnoc(cfg, 0, {}, events, RiskDecided(true));
    RunSnoc(cfg, 0, {}, events + [RiskDecided(true)], ReadinessDecided(true));
    RunSnoc(cfg, 0, {}, ToSent(symbol, first), EntrySent(10));
    RunSnoc(cfg, 0, {}, ToSent(symbol, first) + [EntrySent(10)], ending);
    var s := Run(cfg, 0, {}, events);
    var a, b := s.(focus := AwaitingReadiness(symbol, Pipeline.Signal(first))), s.(focus := Executing(symbol, Pipeline.Signal(first)));
    assert Step(cfg, s, RiskDecided(true)) == a;
    assert Step(cfg, a, ReadinessDecided(true)) == b;
    var c := b.(entries := [EntryRequest(symbol, first, 10, 0)], clock := 10);
    assert Step(cfg, b, EntrySent(10)) == c;
    EndedStep(cfg, symbol, first, ending, c);
  }

  lemma EndedStep(cfg: Config, symbol: string, first: string, ending: Event, c: System)
    requires Unaccepted(ending)
    requires c == Watching1(symbol, TriggeredState(first), Executing(symbol, Pipeline.Signal(first)), {}, 10).(entries := [EntryRequest(symbol, first, 10, 0)])
    ensures Step(cfg, c, ending) == Ended(symbol, first, ending).(entries := c.entries)
  {
    hide Cooled, TriggeredState;
  }

  /** The list of entries decides nothing but which entries may still be sent. */
  lemma EntriesAside(cfg: Config, s: System, entries: seq<EntryRequest>, e: Event)
    requires !e.EntrySent?
    ensures Step(cfg, s.(entries := entries), e) == Step(cfg, s, e).(entries := entries)
  {
    hide Touched, Released, Refreshed, Advanced, Decided, Cooled, Dispatch, Sent, With, NeedsEntry;
  }

  lemma {:induction false} StepsAside(cfg: Config, s: System, entries: seq<EntryRequest>, events: seq<Event>)
    requires forall i :: 0 <= i < |events| ==> !events[i].EntrySent?
    ensures Steps(cfg, s.(entries := entries), events) == Steps(cfg, s, events).(entries := entries)
    decreases |events|
  {
    hide Step;
    if events != [] {
      StepsAside(cfg, s, entries, events[..|events| - 1]);
      EntriesAside(cfg, Steps(cfg, s, events[..|events| - 1]), entries, events[|events| - 1]);
    }
  }

  /** After the five-minute candle without a signal the symbol is INVALIDATED, whatever the ending was. */
  function Dropped(first: string, ending: Event): Progress {
    var p := Opened(EndedState(first, ending).(allowed := true), true);
    if p.phase == Triggered then p.(phase := Invalidated, last5m := Some(0), entryValid := false, signal := None) else p
  }

  lemma DroppedReached(cfg: Config, symbol: string, first: string, ending: Event)
    requires Listed(cfg, symbol) && Unaccepted(ending)
    ensures var p := Opened(EndedState(first, ending).(allowed := true), true);
      var sub, clock := EndedSubmitted(first, ending), EndedClock(ending);
      var fetching := Watching1(symbol, p, Fetching(symbol), sub, clock);
      Step(cfg, Step(cfg, fetching, FreshCandles(-3600, -900, 0)), Evaluated(Evaluation(Some(0), None))) ==
        Watching1(symbol, Dropped(first, ending), Resting, sub, clock)
  {
    var p := Opened(EndedState(first, ending).(allowed := true), true);
    var sub, clock := EndedSubmitted(first, ending), EndedClock(ending);
    var fetching := Watching1(symbol, p, Fetching(symbol), sub, clock);
    assert Step(cfg, fetching, FreshCandles(-3600, -900, 0)) ==
      Watching1(symbol, p, if p.phase == Triggered then Evaluating(symbol) else Resting, sub, clock);
  }

  lemma Approved(cfg: Config, symbol: string, p: Progress, id: string, submitted: set<string>, clock: int)
    requires id !in submitted
    ensures var s := Watching1(symbol, p, AwaitingRisk(symbol, Pipeline.Signal(id), true), submitted, clock);
      Step(cfg, Step(cfg, s, RiskDecided(true)), ReadinessDecided(true)) == s.(focus := Executing(symbol, Pipeline.Signal(id)))
  {
  }

  lemma NextReached(cfg: Config, symbol: string, first: string, second: string, ending: Event)
    requires Listed(cfg, symbol) && Unaccepted(ending) && first != second
    ensures var s := Steps(cfg, Ended(symbol, first, ending), ToNext(symbol, second));
      s.focus == Executing(symbol, Pipeline.Signal(second)) && s.clock <= 11 && s.accepted == []
  {
    hide Step, Steps, Dropped, EndedState, EndedSubmitted, EndedClock;
    var s0 := Ended(symbol, first, ending);
    var p, sub, clock := EndedState(first, ending), EndedSubmitted(first, ending), EndedClock(ending);
    NoSteps(cfg, s0);
    var e0: seq<Event> := [];
    var e1 := e0 + [Begin(symbol, true)];
    var e2 := e1 + [FreshCandles(-3600, -900, 0)];
    var e3 := e2 + [Evaluated(Evaluation(Some(0), None))];
    var e4 := e3 + [Begin(symbol, true)];
    var e5 := e4 + [FreshCandles(-3600, 0, 600)];
    var e6 := e5 + [SignalAt(600, second)];
    var e7 := e6 + [RiskDecided(true)];
    StepsSnoc(cfg, s0, e0, Begin(symbol, true));
    StepsSnoc(cfg, s0, e1, FreshCandles(-3600, -900, 0));
    StepsSnoc(cfg, s0, e2, Evaluated(Evaluation(Some(0), None)));
    StepsSnoc(cfg, s0, e3, Begin(symbol, true));
    StepsSnoc(cfg, s0, e4, FreshCandles(-3600, 0, 600));
    StepsSnoc(cfg, s0, e5, SignalAt(600, second));
    StepsSnoc(cfg, s0, e6, RiskDecided(true));
    StepsSnoc(cfg, s0, e7, ReadinessDecided(true));
    BeginAgain(cfg, symbol, p, sub, clock, true);
    DroppedReached(cfg, symbol, first, ending);
    DroppedFacts(first, second, ending);
    BeginAgain(cfg, symbol, Dropped(first, ending), sub, clock, true);
    var u := Opened(Dropped(first, ending).(allowed := true), true);
    CandlesAgain(cfg, symbol, u, sub, clock, -3600, 0, 600);
    SignalAgain(cfg, symbol, Advanced1(u, -3600, 0), sub, clock, 600, second);
    Approved(cfg, symbol, Evaluated1(Advanced1(u, -3600, 0), 600, second).(phase := Triggered), second, sub, clock);
  }

  lemma DroppedFacts(first: string, second: string, ending: Event)
    requires Unaccepted(ending) && first != second
    ensures var u := Dropped(first, ending);
      && u.phase == Invalidated && u.trendValid && u.last15m == Some(-900) && u.last5m != Some(600) && u.allowed && !u.locked
    ensures second !in EndedSubmitted(first, ending) && EndedClock(ending) <= 11
  {
  }

  lemma PlausibleParts(a: seq<Event>, b: seq<Event>, ending: Event)
    requires forall i :: 0 <= i < |a| ==> TimeOf(a[i]).None? && ClosedBy(a[i], 10)
    requires forall i :: 0 <= i < |b| ==> TimeOf(b[i]).None? && ClosedBy(b[i], 910)
    requires Unaccepted(ending)
    ensures Plausible(a + [EntrySent(10)] + [ending] + b + [EntrySent(910)])
  {
    var events := a + [EntrySent(10)] + [ending] + b + [EntrySent(910)];
    forall i, j | 0 <= i < j < |events| && TimeOf(events[j]).Some?
      ensures ClosedBy(events[i], TimeOf(events[j]).value)
      ensures TimeOf(events[i]).Some? ==> TimeOf(events[i]).value <= TimeOf(events[j]).value
    {
      assert j < |a| + 2 || j == |events| - 1;
      if i < |a| {
        assert events[i] == a[i];
      } else if |a| + 2 <= i {
        assert events[i] == b[i - |a| - 2];
      }
    }
  }

  lemma SegmentTimes(symbol: string, id: string)
    ensures forall i :: 0 <= i < |ToSent(symbol, id)| ==> TimeOf(ToSent(symbol, id)[i]).None? && ClosedBy(ToSent(symbol, id)[i], 10)
    ensures forall i :: 0 <= i < |ToNext(symbol, id)| ==> TimeOf(ToNext(symbol, id)[i]).None? && ClosedBy(ToNext(symbol, id)[i], 910)
    ensures forall i :: 0 <= i < |ToNext(symbol, id)| ==> !ToNext(symbol, id)[i].EntrySent?
  {
  }

  /** An execution that is not reported as accepted leaves no cooldown behind, whether it is cancelled by its
      timeout, refused (a fill that was closed out again is), or of unknown outcome: with candles and clock in
      seconds, two entries of one symbol fifteen minutes apart. */
  lemma UnacceptedEntriesClose(cfg: Config, symbol: string, first: string, second: string, ending: Event)
    requires Listed(cfg, symbol) && first != second && Unaccepted(ending)
    ensures var events := ToSent(symbol, first) + [EntrySent(10)] + [ending] + ToNext(symbol, second) + [EntrySent(910)];
      Plausible(events)
      && Run(cfg, 0, {}, events).entries == [EntryRequest(symbol, first, 10, 0), EntryRequest(symbol, second, 910, 0)]
  {
    hide Steps, Run, ToSent, ToNext, Ended, Plausible;
    var held := Ended(symbol, first, ending);
    var one := [EntryRequest(symbol, first, 10, 0)];
    var before := ToSent(symbol, first) + [EntrySent(10)] + [ending];
    var events := before + ToNext(symbol, second);
    SegmentTimes(symbol, first);
    SegmentTimes(symbol, second);
    PlausibleParts(ToSent(symbol, first), ToNext(symbol, second), ending);
    EndedReached(cfg, symbol, first, ending);
    RunIsSteps(cfg, 0, {}, before);
    RunIsSteps(cfg, 0, {}, events);
    StepsAppend(cfg, Start(0, {}), before, ToNext(symbol, second));
    StepsAside(cfg, held, one, ToNext(symbol, second));
    NextReached(cfg, symbol, first, second, ending);
    RunSnoc(cfg, 0, {}, events, EntrySent(910));
    assert Run(cfg, 0, {}, events) == Steps(cfg, held, ToNext(symbol, second)).(entries := one);
    assert !Sent(one, second);
  }
}
