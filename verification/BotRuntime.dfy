/** The trading cycle over the engine's shared symbol states: one method per segment between awaits. */
module BotRuntimes {
  import opened Prelude
  import opened Pipeline
  import opened Scanner
  import opened ScannerEngines
  import opened Runtime

  class BotRuntime {
    const engine: ScannerEngine
    var focus: Focus
    var submitted: set<string>
    var accepted: seq<Acceptance>
    var entries: seq<EntryRequest>   // requests made by the executions the cycle started
    var clock: int

    ghost function State(): System
      reads this, engine, engine.states.Values
    {
      System(engine.View(), focus, submitted, accepted, entries, clock)
    }

    ghost predicate Valid()
      reads this, engine, engine.states.Values
    {
      engine.Valid() && FocusHeld(State())
    }

    constructor (engine: ScannerEngine, clock: int, known: set<string>)
      ensures this.engine == engine && focus == Resting && submitted == known && accepted == [] && entries == [] && this.clock == clock
    {
      this.engine, this.clock := engine, clock;
      focus, submitted, accepted, entries := Resting, known, [], [];
    }

    /** Permission from the engine, withheld while an order outcome is unknown. */
    method Open(symbol: string, safe: bool)
      requires engine.Valid() && symbol in engine.states
      modifies engine.states[symbol]
      ensures var p := old(engine.View()).states[symbol].(allowed := Allowed(engine.cfg, old(engine.View()), symbol));
        engine.View() == With(old(engine.View()), symbol, Opened(p, safe))
    {
      hide Allowed, ScannerEngine.Values;
      engine.KnownValue(symbol);
      var state := engine.states[symbol];
      state.allowed := engine.IsExecutionAllowed(symbol);
      if safe && state.locked {
        state.locked := false;
      }
      if state.locked {
        state.allowed := false;
      }
      engine.OneChanged(symbol);
    }

    /** Takes up a symbol. */
    method BeginSymbol(symbol: string, safe: bool)
      requires Valid() && focus == Resting
      modifies this`focus, engine`states, engine.states.Values
      ensures engine.Valid() && State() == Step(engine.cfg, old(State()), Begin(symbol, safe))
    {
      hide Allowed, ScannerEngine.Values, FocusHeld, Touched;
      var state := engine.GetOrCreateState(symbol);
      engine.KnownKeys();
      TouchedPermission(engine.cfg, old(engine.View()), symbol);
      Open(symbol, safe);
      focus := Fetching(symbol);
    }

    /** After the candles: trend, setup, and whether an entry evaluation is due. */
    method OnCandles(hour: seq<Bar>, quarter: seq<Bar>, latestEntry: Option<int>)
      requires Valid() && focus.Fetching?
      modifies this`focus, engine.states[focus.symbol]
      ensures engine.Valid()
      ensures State() == Step(engine.cfg, old(State()), Candles(TrendReading(hour), SetupReading(quarter), latestEntry))
    {
      hide ScannerEngine.Values, TrendReading, SetupReading, AfterTrend, AfterSetup;
      var symbol := focus.symbol;
      engine.KnownKeys();
      engine.KnownValue(symbol);
      var state := engine.states[symbol];
      ghost var before := state.Value();
      var cooling, new5m := state.phase == Cooldown, latestEntry.Some? && state.last5m != latestEntry;
      if !cooling {
        Advance(state, hour, quarter);
      }
      engine.OneChanged(symbol);
      if !cooling && latestEntry.Some? && state.setup == Some(true) && state.phase in {Watching, Armed, Triggered} && new5m {
        focus := Evaluating(symbol);
      } else {
        Continue(state);
      }
    }

    /** The higher-timeframe part of the pipeline, on whatever is new. */
    static method Advance(state: SymbolState, hour: seq<Bar>, quarter: seq<Bar>)
      requires state.phase != Cooldown
      modifies state
      ensures state.Value() == Advanced(old(state.Value()), TrendReading(hour), SetupReading(quarter))
    {
      hide AfterTrend, AfterSetup;
      var new1h := |hour| > 0 && state.last1h != Some(hour[|hour| - 1].time);
      var new15m := |quarter| > 0 && state.last15m != Some(quarter[|quarter| - 1].time);
      if |hour| > 0 && (new1h || state.phase == Discovered) {
        var valid := PipelineStateMachine.EvaluateTrend(state, hour);
      }
      if |quarter| > 0 && state.trendValid && (new15m || state.setup.None?) {
        var valid := PipelineStateMachine.EvaluateSetup(state, quarter);
      }
    }

    /** Goes on to the risk check with a TRIGGERED symbol that holds a signal. */
    method Continue(state: SymbolState)
      modifies this`focus
      ensures focus == Dispatch(state.symbol, state.Value())
    {
      focus := if state.phase == Triggered && state.signal.Some? then AwaitingRisk(state.symbol, state.signal.value, state.allowed)
               else Resting;
    }

    /** After the entry evaluation: confirmation or refusal in the same segment. */
    method OnEvaluation(evaluation: Evaluation)
      requires Valid() && focus.Evaluating?
      modifies this`focus, engine.states[focus.symbol]
      ensures engine.Valid() && State() == Step(engine.cfg, old(State()), Evaluated(evaluation))
    {
      hide ScannerEngine.Values, AfterEntry;
      var symbol := focus.symbol;
      engine.KnownKeys();
      engine.KnownValue(symbol);
      var state := engine.states[symbol];
      var valid := PipelineStateMachine.EvaluateEntry(state, evaluation);
      if state.phase == Armed {
        if state.allowed {
          var confirmed := PipelineStateMachine.ConfirmEntry(state);
        } else {
          state.phase, state.locked := Invalidated, false;
        }
      }
      engine.OneChanged(symbol);
      Continue(state);
    }

    method OnRisk(ready: bool)
      requires Valid() && focus.AwaitingRisk?
      modifies this`focus, engine.states[focus.symbol]
      ensures engine.Valid() && State() == Step(engine.cfg, old(State()), RiskDecided(ready))
    {
      hide ScannerEngine.Values;
      var symbol := focus.symbol;
      engine.KnownKeys();
      engine.KnownValue(symbol);
      var state := engine.states[symbol];
      if ready && focus.allowed {
        focus := AwaitingReadiness(symbol, focus.signal);
        return;
      }
      state.phase := Invalidated;
      if ready {
        state.locked := false;
      }
      engine.OneChanged(symbol);
      focus := Resting;
    }

    method OnReadiness(ready: bool)
      requires Valid() && focus.AwaitingReadiness?
      modifies this`focus, engine.states[focus.symbol]
      ensures engine.Valid() && State() == Step(engine.cfg, old(State()), ReadinessDecided(ready))
    {
      hide ScannerEngine.Values;
      var symbol := focus.symbol;
      engine.KnownKeys();
      engine.KnownValue(symbol);
      if ready {
        focus := if focus.signal.id !in submitted then Executing(symbol, focus.signal) else Resting;
        return;
      }
      var state := engine.states[symbol];
      state.phase, state.locked := Invalidated, false;
      engine.OneChanged(symbol);
      focus := Resting;
    }

    /** After execution: the signal is remembered unless the order was refused, and an accepted one cools the symbol down. */
    method OnOrder(outcome: Outcome, now: int)
      requires Valid() && focus.Executing? && now >= clock
      modifies this, engine`states, engine`cooldowns, engine.states.Values
      ensures engine.Valid() && State() == Step(engine.cfg, old(State()), OrderReturned(outcome, now))
    {
      hide AfterOrder;
      if outcome == Accepted {
        OnAccepted(now);
      } else {
        OnDropped(outcome == Unknown, now);
      }
    }

    method OnAccepted(now: int)
      requires Valid() && focus.Executing?
      modifies this, engine`states, engine`cooldowns, engine.states.Values
      ensures engine.Valid() && State() == AfterOrder(engine.cfg, old(State()), Accepted, now)
    {
      hide ScannerEngine.Values, ScannerEngine.Valid, Cooled, With;
      var symbol, signal := focus.symbol, focus.signal;
      engine.KnownKeys();
      submitted := submitted + {signal.id};
      CoolExecuted(symbol, now);
      accepted := accepted + [Acceptance(symbol, signal.id, now)];
      focus, clock := Resting, now;
    }

    method OnDropped(unknown: bool, now: int)
      requires Valid() && focus.Executing?
      modifies this, engine.states.Values
      ensures engine.Valid() && State() == AfterOrder(engine.cfg, old(State()), if unknown then Unknown else Refused, now)
    {
      hide ScannerEngine.Values, ScannerEngine.Valid, With;
      var symbol, signal := focus.symbol, focus.signal;
      engine.KnownKeys();
      if unknown {
        submitted := submitted + {signal.id};
      }
      Drop(symbol, unknown);
      focus, clock := Resting, now;
    }

    /** The worker starts again in the same process, with the signals the store lists. */
    method Restart(stored: set<string>)
      requires Valid() && submitted <= stored
      modifies this`focus, this`submitted
      ensures Valid() && State() == Step(engine.cfg, old(State()), Event.Restart(stored))
    {
      focus, submitted := Resting, stored;
    }

    method CoolExecuted(symbol: string, now: int)
      requires engine.Valid() && symbol in engine.states
      modifies engine`states, engine`cooldowns, engine.states.Values
      ensures engine.Valid() && symbol in old(engine.View()).states
      ensures var p := old(engine.View()).states[symbol].(phase := Executed, locked := false);
        engine.View() == Cooled(engine.cfg, With(old(engine.View()), symbol, p), symbol, now)
    {
      hide ScannerEngine.Values, Cooled;
      engine.KnownValue(symbol);
      PipelineStateMachine.MarkExecuted(engine.states[symbol]);
      engine.OneChanged(symbol);
      var until := engine.EnterCooldown(symbol, now);
    }

    /** Invalidates a symbol whose order was refused, and locks one whose order has an unknown outcome. */
    method Drop(symbol: string, unknown: bool)
      requires engine.Valid() && symbol in engine.states
      modifies engine.states[symbol]
      ensures engine.Valid() && symbol in old(engine.View()).states
      ensures var p := old(engine.View()).states[symbol];
        engine.View() == With(old(engine.View()), symbol, p.(phase := Invalidated, locked := unknown || p.locked))
    {
      hide ScannerEngine.Values;
      engine.KnownValue(symbol);
      var state := engine.states[symbol];
      if unknown {
        PipelineStateMachine.Invalidate(state);
        state.locked := true;
      } else {
        state.phase := Invalidated;
      }
      engine.OneChanged(symbol);
    }
  }

  lemma TouchedPermission(cfg: Config, w: Watchlist, symbol: string)
    ensures Touched(cfg, w, symbol).states[symbol].allowed == Allowed(cfg, Touched(cfg, w, symbol), symbol)
  {
  }
}
