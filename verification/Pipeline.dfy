/** The scanner pipeline of one symbol: trend, setup, entry, trigger, execution, cooldown. */
module Pipeline {
  import opened Prelude
  import opened Indicators
  import opened DirectionalMovement

  datatype Phase = Discovered | Watching | Armed | Triggered | Executed | Invalidated | Cooldown

  datatype Signal = Signal(id: string)

  datatype Bar = Bar(time: int, high: real, low: real, close: real)

  /** What one timeframe's closed candles say: how many, the latest, and the verdict if indicators exist. */
  datatype Reading = Reading(count: nat, time: int, verdict: Option<bool>)

  datatype Evaluation = Evaluation(latestTime: Option<int>, signal: Option<Signal>)

  /** The fields of a symbol's state that decide anything. `setup` is missing until first evaluated;
      `locked` marks an order whose outcome is unknown. */
  datatype Progress = Progress(phase: Phase, allowed: bool, last1h: Option<int>, last15m: Option<int>, last5m: Option<int>,
                               trendValid: bool, setup: Option<bool>, entryValid: bool, signal: Option<Signal>,
                               locked: bool, cooldownUntil: Option<int>)

  function FreshProgress(allowed: bool): Progress {
    Progress(Discovered, allowed, None, None, None, false, None, false, None, false, None)
  }

  // ---------------------------------------------------------------- verdicts

  function Highs(bars: seq<Bar>): (r: seq<real>)
    ensures |r| == |bars|
  {
    seq(|bars|, i requires 0 <= i < |bars| => bars[i].high)
  }

  function Lows(bars: seq<Bar>): (r: seq<real>)
    ensures |r| == |bars|
  {
    seq(|bars|, i requires 0 <= i < |bars| => bars[i].low)
  }

  function Closes(bars: seq<Bar>): (r: seq<real>)
    ensures |r| == |bars|
  {
    seq(|bars|, i requires 0 <= i < |bars| => bars[i].close)
  }

  /** Both averages and the close on one side of the slow average. */
  ghost function TrendReading(bars: seq<Bar>): Reading {
    var n := |bars|;
    if n < 22 then Reading(n, if n == 0 then 0 else bars[n - 1].time, None)
    else
      var fast, slow := EmaAt(Closes(bars), 9, n - 1), EmaAt(Closes(bars), 21, n - 1);
      var close := bars[n - 1].close;
      Reading(n, bars[n - 1].time, Some((fast > slow && close > slow) || (fast < slow && close < slow)))
  }

  /** The averages in order, the close beyond the fast one, and an ADX of 20; with fewer than 28 candles there is no ADX. */
  ghost function SetupReading(bars: seq<Bar>): Reading {
    var n := |bars|;
    if n < 22 then Reading(n, if n == 0 then 0 else bars[n - 1].time, None)
    else if n < 28 then Reading(n, bars[n - 1].time, None)
    else
      var fast, slow := EmaAt(Closes(bars), 9, n - 1), EmaAt(Closes(bars), 21, n - 1);
      var strength := AdxAt(Highs(bars), Lows(bars), Closes(bars), 14, n - 1);
      var close := bars[n - 1].close;
      Reading(n, bars[n - 1].time, Some(((fast > slow && close > fast) || (fast < slow && close < fast)) && strength >= 20.0))
  }

  /** The trend is valid when the close and the fast average lie strictly on the same side of the slow one. */
  lemma TrendPlainly(bars: seq<Bar>)
    ensures var n, r := |bars|, TrendReading(bars);
      && r.count == n && (r.verdict.Some? <==> n >= 22) && (n > 0 ==> r.time == bars[n - 1].time)
      && (n >= 22 ==>
            var fast, slow := EmaAt(Closes(bars), 9, n - 1), EmaAt(Closes(bars), 21, n - 1);
            r.verdict.value <==> Min(fast, bars[n - 1].close) > slow || Max(fast, bars[n - 1].close) < slow)
  {
    hide EmaAt;
  }

  /** The setup is valid when the fast average lies strictly between the slow one and the close, at an ADX of 20 or more. */
  lemma SetupPlainly(bars: seq<Bar>)
    ensures var n, r := |bars|, SetupReading(bars);
      && r.count == n && (r.verdict.Some? <==> n >= 28) && (n > 0 ==> r.time == bars[n - 1].time)
      && (n >= 28 ==>
            var fast, slow := EmaAt(Closes(bars), 9, n - 1), EmaAt(Closes(bars), 21, n - 1);
            r.verdict.value <==>
              && Min(slow, bars[n - 1].close) < fast < Max(slow, bars[n - 1].close)
              && AdxAt(Highs(bars), Lows(bars), Closes(bars), 14, n - 1) >= 20.0)
  {
    hide EmaAt, AdxAt;
  }

  /** The chart upside down. */
  function Reflected(bars: seq<Bar>): (r: seq<Bar>)
    ensures |r| == |bars|
  {
    seq(|bars|, i requires 0 <= i < |bars| => Bar(bars[i].time, -bars[i].low, -bars[i].high, -bars[i].close))
  }

  /** Neither verdict prefers a direction: the reflected chart has the same ones. */
  lemma ReflectedVerdicts(bars: seq<Bar>)
    ensures TrendReading(Reflected(bars)) == TrendReading(bars) && SetupReading(Reflected(bars)) == SetupReading(bars)
  {
    hide EmaAt, AdxAt, Closes, Highs, Lows, Negated, Affine;
    var n, other := |bars|, Reflected(bars);
    ReflectedSeries(bars);
    if n >= 22 {
      ReflectedLast(bars);
      EmaAffine(Closes(bars), Closes(other), 9, n - 1, -1.0, 0.0);
      EmaAffine(Closes(bars), Closes(other), 21, n - 1, -1.0, 0.0);
      if n >= 28 { AdxReflection(Highs(bars), Lows(bars), Closes(bars), 14, n - 1); }
    }
  }

  lemma ReflectedLast(bars: seq<Bar>)
    requires bars != []
    ensures Reflected(bars)[|bars| - 1].time == bars[|bars| - 1].time && Reflected(bars)[|bars| - 1].close == -bars[|bars| - 1].close
  {
  }

  lemma ReflectedSeries(bars: seq<Bar>)
    ensures var other := Reflected(bars);
      && Closes(other) == Negated(Closes(bars)) && Highs(other) == Negated(Lows(bars)) && Lows(other) == Negated(Highs(bars))
      && Affine(Closes(bars), Closes(other), -1.0, 0.0)
  {
  }

  // ---------------------------------------------------------------- transitions

  /** Where a higher-timeframe verdict moves a symbol that is not cooling down. */
  function Revised(phase: Phase, valid: bool): Phase {
    if valid then if phase in {Discovered, Invalidated, Watching} then Watching else phase
    else if phase == Discovered then Discovered else Invalidated
  }

  function AfterTrend(p: Progress, r: Reading): Progress {
    if r.count < 22 || p.last1h == Some(r.time) then p
    else if r.verdict.None? then p.(last1h := Some(r.time))
    else
      p.(last1h := Some(r.time), trendValid := r.verdict.value,
         phase := if p.phase == Cooldown then Cooldown else Revised(p.phase, r.verdict.value))
  }

  function AfterSetup(p: Progress, r: Reading): Progress {
    if r.count < 22 || p.last15m == Some(r.time) then p
    else if r.verdict.None? then p.(last15m := Some(r.time))
    else
      p.(last15m := Some(r.time), setup := r.verdict,
         phase := if p.phase == Cooldown then Cooldown else Revised(p.phase, r.verdict.value))
  }

  /** A new entry evaluation replaces the stored one; only WATCHING and ARMED symbols store its signal. */
  function AfterEntry(p: Progress, e: Evaluation): Progress {
    if p.phase == Cooldown || (e.latestTime.Some? && p.last5m == e.latestTime) then p
    else
      var q := p.(last5m := e.latestTime.Or(p.last5m), entryValid := e.signal.Some?, signal := None);
      match p.phase
      case Watching => if e.signal.Some? then q.(phase := Armed, signal := e.signal) else q
      case Armed => if e.signal.Some? then q.(signal := e.signal) else q.(phase := Invalidated)
      case Triggered => if e.signal.Some? then q else q.(phase := Invalidated)
      case _ => q
  }

  /** A higher-timeframe verdict counts once per candle. Valid, it brings a symbol that has not got to its entry under watch;
      not valid, it sets back every symbol but one only discovered. A symbol cooling down keeps its phase. */
  lemma VerdictMoves(p: Progress, r: Reading)
    ensures var t, s := AfterTrend(p, r), AfterSetup(p, r);
      var trendHeard, setupHeard := r.count >= 22 && p.last1h != Some(r.time), r.count >= 22 && p.last15m != Some(r.time);
      && (!trendHeard ==> t == p) && (!setupHeard ==> s == p)
      && (trendHeard && r.verdict.None? ==> t == p.(last1h := Some(r.time)))
      && (setupHeard && r.verdict.None? ==> s == p.(last15m := Some(r.time)))
      && (trendHeard && r.verdict.Some? ==>
            t == p.(last1h := Some(r.time), trendValid := r.verdict.value, phase := t.phase) && MovesPlainly(p.phase, r.verdict.value, t.phase))
      && (setupHeard && r.verdict.Some? ==>
            s == p.(last15m := Some(r.time), setup := r.verdict, phase := s.phase) && MovesPlainly(p.phase, r.verdict.value, s.phase))
  {
  }

  predicate MovesPlainly(from: Phase, valid: bool, to: Phase) {
    match from
    case Discovered => to == if valid then Watching else Discovered
    case Invalidated => to == if valid then Watching else Invalidated
    case Cooldown => to == Cooldown
    case _ => to == if valid then from else Invalidated
  }

  /** An entry evaluation counts once per candle and never in COOLDOWN. A signal arms a watched symbol and renews an armed
      one, which alone store it; no signal sets back an armed or triggered one. */
  lemma EntryMoves(p: Progress, e: Evaluation)
    ensures var q := AfterEntry(p, e);
      var heard := p.phase != Cooldown && (e.latestTime.None? || p.last5m != e.latestTime);
      && (!heard ==> q == p)
      && (heard ==>
            && q.entryValid == e.signal.Some? && q.last5m == (if e.latestTime.Some? then e.latestTime else p.last5m)
            && q.signal == (if p.phase == Watching || p.phase == Armed then e.signal else None)
            && (e.signal.Some? ==> q.phase == if p.phase == Watching then Armed else p.phase)
            && (e.signal.None? ==> q.phase == if p.phase == Armed || p.phase == Triggered then Invalidated else p.phase)
            && q.allowed == p.allowed && q.last1h == p.last1h && q.last15m == p.last15m && q.trendValid == p.trendValid
            && q.setup == p.setup && q.locked == p.locked && q.cooldownUntil == p.cooldownUntil)
  {
  }

  predicate Confirmable(p: Progress) {
    p.phase == Armed && p.allowed && p.signal.Some?
  }

  function AfterConfirm(p: Progress): Progress {
    if Confirmable(p) then p.(phase := Triggered) else p
  }

  function AfterCooldown(p: Progress, until: int): Progress {
    p.(phase := Cooldown, cooldownUntil := Some(until))
  }

  predicate Releasable(p: Progress, now: int) {
    p.phase == Cooldown && p.cooldownUntil.Some? && now >= p.cooldownUntil.value
  }

  function AfterRelease(p: Progress, now: int): Progress {
    if Releasable(p, now) then p.(phase := Discovered, cooldownUntil := None) else p
  }

  // ---------------------------------------------------------------- the machine

  class SymbolState {
    const symbol: string
    var phase: Phase
    var allowed: bool
    var last1h: Option<int>
    var last15m: Option<int>
    var last5m: Option<int>
    var trendValid: bool
    var setup: Option<bool>
    var entryValid: bool
    var signal: Option<Signal>
    var locked: bool
    var cooldownUntil: Option<int>

    function Value(): Progress
      reads this
    {
      Progress(phase, allowed, last1h, last15m, last5m, trendValid, setup, entryValid, signal, locked, cooldownUntil)
    }

    constructor (symbol: string, allowed: bool)
      ensures this.symbol == symbol && Value() == FreshProgress(allowed)
    {
      this.symbol := symbol;
      phase, this.allowed := Discovered, allowed;
      last1h, last15m, last5m := None, None, None;
      trendValid, setup, entryValid, signal := false, None, false, None;
      locked, cooldownUntil := false, None;
    }
  }

  class PipelineStateMachine {

    /** The trend verdict of the closed one-hour candles. */
    static method JudgeTrend(bars: seq<Bar>) returns (verdict: Option<bool>)
      requires |bars| >= 22
      ensures verdict == TrendReading(bars).verdict
    {
      hide EmaAt;
      var closes := Closes(bars);
      var fasts := Ema(closes, 9);
      var slows := Ema(closes, 21);
      var fast, slow := fasts.value[|bars| - 1], slows.value[|bars| - 1];
      if fast.None? || slow.None? {
        return None;
      }
      var close := bars[|bars| - 1].close;
      var up := fast.value > slow.value && close > slow.value;
      var down := fast.value < slow.value && close < slow.value;
      verdict := Some(up || down);
    }

    static method JudgeSetup(bars: seq<Bar>) returns (verdict: Option<bool>)
      requires |bars| >= 22
      ensures verdict == SetupReading(bars).verdict
    {
      hide EmaAt, AdxAt;
      var closes := Closes(bars);
      var fasts := Ema(closes, 9);
      var slows := Ema(closes, 21);
      var strengths := Adx(Highs(bars), Lows(bars), closes, 14);
      var fast, slow, strength := fasts.value[|bars| - 1], slows.value[|bars| - 1], strengths.value[|bars| - 1];
      if fast.None? || slow.None? || strength.None? {
        return None;
      }
      var close := bars[|bars| - 1].close;
      var up := fast.value > slow.value && close > fast.value && strength.value >= 20.0;
      var down := fast.value < slow.value && close < fast.value && strength.value >= 20.0;
      verdict := Some(up || down);
    }

    static method EvaluateTrend(state: SymbolState, bars: seq<Bar>) returns (valid: bool)
      modifies state
      ensures state.Value() == AfterTrend(old(state.Value()), TrendReading(bars))
      ensures valid ==> state.trendValid
    {
      hide EmaAt;
      if |bars| < 22 {
        return false;
      }
      var latest := bars[|bars| - 1];
      if state.last1h == Some(latest.time) {
        return state.trendValid;
      }
      var verdict := JudgeTrend(bars);
      state.last1h := Some(latest.time);
      if verdict.None? {
        return false;
      }
      valid := verdict.value;
      state.trendValid := valid;
      if state.phase == Cooldown {
        return;
      }
      if valid {
        if state.phase in {Discovered, Invalidated, Watching} {
          state.phase := Watching;
        }
      } else {
        state.phase := if state.phase != Discovered then Invalidated else Discovered;
      }
    }

    static method EvaluateSetup(state: SymbolState, bars: seq<Bar>) returns (valid: bool)
      modifies state
      ensures state.Value() == AfterSetup(old(state.Value()), SetupReading(bars))
      ensures valid ==> state.setup == Some(true)
    {
      hide EmaAt, AdxAt;
      if |bars| < 22 {
        return false;
      }
      var latest := bars[|bars| - 1];
      if state.last15m == Some(latest.time) {
        return state.setup == Some(true);
      }
      var verdict := JudgeSetup(bars);
      state.last15m := Some(latest.time);
      if verdict.None? {
        return false;
      }
      valid := verdict.value;
      state.setup := Some(valid);
      if state.phase == Cooldown {
        return;
      }
      if valid {
        if state.phase in {Discovered, Invalidated, Watching} {
          state.phase := Watching;
        }
      } else {
        state.phase := if state.phase != Discovered then Invalidated else Discovered;
      }
    }

    static method EvaluateEntry(state: SymbolState, evaluation: Evaluation) returns (valid: bool)
      modifies state
      ensures state.Value() == AfterEntry(old(state.Value()), evaluation)
      ensures valid ==> state.phase != Cooldown && state.entryValid
    {
      if state.phase == Cooldown {
        return false;
      }
      if evaluation.latestTime.Some? && state.last5m == evaluation.latestTime {
        return state.entryValid;
      }
      if evaluation.latestTime.Some? {
        state.last5m := evaluation.latestTime;
      }
      valid := evaluation.signal.Some?;
      state.entryValid, state.signal := valid, None;
      if state.phase == Watching && valid {
        state.phase := Armed;
        state.signal := evaluation.signal;
      } else if state.phase == Armed {
        if valid {
          state.signal := evaluation.signal;
        } else {
          state.phase := Invalidated;
        }
      } else if state.phase == Triggered && !valid {
        state.phase := Invalidated;
      }
    }

    static method ConfirmEntry(state: SymbolState) returns (confirmed: bool)
      modifies state
      ensures state.Value() == AfterConfirm(old(state.Value()))
      ensures confirmed <==> old(Confirmable(state.Value()))
    {
      if state.phase != Armed || !state.allowed {
        return false;
      }
      if state.signal.None? {
        return false;
      }
      state.phase := Triggered;
      confirmed := true;
    }

    static method MarkExecuted(state: SymbolState)
      modifies state
      ensures state.Value() == old(state.Value()).(phase := Executed, locked := false)
    {
      state.phase, state.locked := Executed, false;
    }

    /** A reason other than an unknown order outcome overwrites the lock. */
    static method Invalidate(state: SymbolState)
      modifies state
      ensures state.Value() == old(state.Value()).(phase := Invalidated, locked := false)
    {
      state.phase, state.locked := Invalidated, false;
    }

    static method EnterCooldown(state: SymbolState, minutes: int, now: int) returns (until: int)
      modifies state
      ensures until == now + minutes && state.Value() == AfterCooldown(old(state.Value()), until)
    {
      until := now + minutes;
      state.phase, state.cooldownUntil := Cooldown, Some(until);
    }

    static method ReleaseCooldown(state: SymbolState, now: int) returns (released: bool)
      modifies state
      ensures state.Value() == AfterRelease(old(state.Value()), now)
      ensures released <==> old(Releasable(state.Value(), now))
    {
      if state.phase != Cooldown || state.cooldownUntil.None? || now < state.cooldownUntil.value {
        return false;
      }
      state.phase, state.cooldownUntil := Discovered, None;
      released := true;
    }
  }

  // ---------------------------------------------------------------- any sequence of calls on one symbol

  datatype Call = Trend(reading: Reading) | Setup(reading: Reading) | Entry(evaluation: Evaluation) | Confirm
                | Execute | Block(unlock: bool) | Cool(until: int) | Release(now: int) | SetPermission(allowed: bool)

  function AfterCall(p: Progress, c: Call): Progress {
    match c
    case Trend(r) => AfterTrend(p, r)
    case Setup(r) => AfterSetup(p, r)
    case Entry(e) => AfterEntry(p, e)
    case Confirm => AfterConfirm(p)
    case Execute => p.(phase := Executed, locked := false)
    case Block(unlock) => p.(phase := Invalidated, locked := p.locked && !unlock)
    case Cool(until) => AfterCooldown(p, until)
    case Release(now) => AfterRelease(p, now)
    case SetPermission(allowed) => p.(allowed := allowed)
  }

  function AfterCalls(p: Progress, calls: seq<Call>): Progress
    decreases |calls|
  {
    if calls == [] then p else AfterCall(AfterCalls(p, calls[..|calls| - 1]), calls[|calls| - 1])
  }

  /** An ARMED symbol holds its signal, and a symbol is in COOLDOWN only with an expiry. */
  predicate Shaped(p: Progress) {
    (p.phase == Armed ==> p.signal.Some? && p.entryValid) && (p.phase == Cooldown ==> p.cooldownUntil.Some?)
  }

  lemma CallKeepsShape(p: Progress, c: Call)
    requires Shaped(p)
    ensures Shaped(AfterCall(p, c))
  {
  }

  /** However the calls follow each other, the shape holds. */
  lemma {:induction false} ArmedHoldsSignal(allowed: bool, calls: seq<Call>)
    ensures Shaped(AfterCalls(FreshProgress(allowed), calls))
    decreases |calls|
  {
    hide AfterCall;
    if calls != [] {
      ArmedHoldsSignal(allowed, calls[..|calls| - 1]);
      CallKeepsShape(AfterCalls(FreshProgress(allowed), calls[..|calls| - 1]), calls[|calls| - 1]);
    }
  }

  /** The only way into TRIGGERED is a confirmation of an ARMED, permitted symbol with a stored signal, and
      the only way into ARMED is a new signal on a WATCHING symbol. */
  lemma OnlyWaysIn(p: Progress, c: Call)
    ensures AfterCall(p, c).phase == Triggered && p.phase != Triggered <==>
      c == Confirm && p.phase == Armed && p.allowed && p.signal.Some?
    ensures AfterCall(p, c).phase == Armed && p.phase != Armed ==>
      c.Entry? && p.phase == Watching && c.evaluation.signal.Some? && AfterCall(p, c).signal == c.evaluation.signal
  {
  }

  /** A TRIGGERED symbol that is evaluated again on a later candle loses its signal, fresh or not. */
  lemma TriggeredLosesSignal(p: Progress, e: Evaluation)
    requires p.phase == Triggered
    ensures AfterEntry(p, e).signal.Some? ==> e.latestTime.Some? && p.last5m == e.latestTime
    ensures e.signal.Some? ==> AfterEntry(p, e).phase == Triggered
  {
  }

  /** COOLDOWN ends only by a release at or after the expiry, or by an outright overwrite. */
  lemma CooldownLasts(p: Progress, c: Call)
    requires p.phase == Cooldown && AfterCall(p, c).phase != Cooldown
    ensures c.Execute? || c.Block? || (c.Release? && p.cooldownUntil.Some? && c.now >= p.cooldownUntil.value)
  {
  }
}
