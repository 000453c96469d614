/** The scanner engine: symbol states shared with the trading cycle and changed in place. */
module ScannerEngines {
  import opened Prelude
  import opened Pipeline
  import opened Scanner

  // ---------------------------------------------------------------- loops, part way through

  /** The cooldowns of `done` were looked at, the others not yet. */
  function ReleasedPart(cfg: Config, w: Watchlist, done: set<string>, now: int): Watchlist
    requires done <= w.cooldowns.Keys
  {
    w.(states := map s | s in w.states.Keys + done :: if s in done then ReleasedState(cfg, w, s, now) else w.states[s],
       cooldowns := map s | s in w.cooldowns && !(s in done && ReleasedNow(cfg, w, s, now)) :: w.cooldowns[s])
  }

  lemma ReleasedPartStep(cfg: Config, w: Watchlist, done: set<string>, now: int, symbol: string)
    requires done <= w.cooldowns.Keys && symbol in w.cooldowns && symbol !in done
    ensures var held := ReleasedPart(cfg, w, done, now);
      var t := Touched(cfg, held, symbol);
      var cooling := t.states[symbol].(cooldownUntil := Some(w.cooldowns[symbol]));
      && cooling == CoolingState(w, symbol)
      && ReleasedPart(cfg, w, done + {symbol}, now) ==
           t.(states := t.states[symbol := AfterRelease(cooling, now)],
              cooldowns := if Releasable(cooling, now) then t.cooldowns - {symbol} else t.cooldowns)
  {
    hide AfterRelease, Releasable;
    var held := ReleasedPart(cfg, w, done, now);
    assert symbol in held.cooldowns;
    var t := Touched(cfg, held, symbol);
    var cooling := t.states[symbol].(cooldownUntil := Some(w.cooldowns[symbol]));
    assert cooling == CoolingState(w, symbol);
    var next := ReleasedPart(cfg, w, done + {symbol}, now);
    assert next.states == t.states[symbol := AfterRelease(cooling, now)];
    assert next.cooldowns == if Releasable(cooling, now) then t.cooldowns - {symbol} else t.cooldowns;
  }

  lemma ReleasedPartEnds(cfg: Config, w: Watchlist, now: int)
    ensures ReleasedPart(cfg, w, {}, now) == w
    ensures ReleasedPart(cfg, w, w.cooldowns.Keys, now) == Released(cfg, w, now)
  {
    hide AfterRelease, Releasable;
  }

  /** Permissions of `done` recomputed. */
  function PermittedPart(cfg: Config, w: Watchlist, done: set<string>): Watchlist {
    w.(states := map s | s in w.states :: if s in done then w.states[s].(allowed := Allowed(cfg, w, s)) else w.states[s])
  }

  lemma PermittedPartEnds(cfg: Config, w: Watchlist)
    ensures PermittedPart(cfg, w, {}) == w && PermittedPart(cfg, w, w.states.Keys) == Permitted(cfg, w)
  {
    hide Allowed;
    assert PermittedPart(cfg, w, {}).states == w.states;
    assert PermittedPart(cfg, w, w.states.Keys).states == Permitted(cfg, w).states;
  }

  lemma PermittedPartStep(cfg: Config, w: Watchlist, done: set<string>, symbol: string)
    requires symbol in w.states
    ensures var held := PermittedPart(cfg, w, done);
      PermittedPart(cfg, w, done + {symbol}) ==
        held.(states := held.states[symbol := held.states[symbol].(allowed := Allowed(cfg, held, symbol))])
  {
    hide Allowed;
    var held := PermittedPart(cfg, w, done);
    AllowedByLists(cfg, w, held, symbol);
    assert PermittedPart(cfg, w, done + {symbol}).states ==
           held.states[symbol := held.states[symbol].(allowed := Allowed(cfg, held, symbol))];
  }

  /** States of `done` created or looked at. */
  function TouchedPart(cfg: Config, w: Watchlist, done: set<string>): Watchlist {
    w.(states := map s | s in w.states.Keys + done ::
         if s in done then (if s in w.states then w.states[s] else FreshProgress(false)).(allowed := Allowed(cfg, w, s))
         else w.states[s])
  }

  lemma TouchedPartStep(cfg: Config, w: Watchlist, done: set<string>, symbol: string)
    ensures TouchedPart(cfg, w, done + {symbol}) == Touched(cfg, TouchedPart(cfg, w, done), symbol)
  {
    hide Allowed;
    AllowedByLists(cfg, w, TouchedPart(cfg, w, done), symbol);
    assert TouchedPart(cfg, w, done + {symbol}).states == Touched(cfg, TouchedPart(cfg, w, done), symbol).states;
  }

  lemma TouchedNothing(cfg: Config, w: Watchlist)
    ensures TouchedPart(cfg, w, {}) == w
  {
    hide Allowed;
    assert TouchedPart(cfg, w, {}).states == w.states;
  }

  lemma AllowedByLists(cfg: Config, w: Watchlist, u: Watchlist, symbol: string)
    requires w.cooldowns == u.cooldowns && w.dynamic == u.dynamic
    ensures Allowed(cfg, w, symbol) == Allowed(cfg, u, symbol)
  {
  }

  /** Looking at every monitored symbol and then recomputing every permission is the refresh. */
  lemma RefreshInSteps(cfg: Config, w: Watchlist, universe: seq<Opportunity>)
    ensures var pooled := w.(dynamic := Pool(cfg, w, universe));
      Permitted(cfg, TouchedPart(cfg, pooled, Monitored(cfg, pooled))) == Refreshed(cfg, w, universe)
  {
    hide Allowed, Pool, Monitored;
    var pooled := w.(dynamic := Pool(cfg, w, universe));
    var touched := TouchedPart(cfg, pooled, Monitored(cfg, pooled));
    forall s ensures Allowed(cfg, pooled, s) == Allowed(cfg, touched, s) {
      AllowedByLists(cfg, pooled, touched, s);
    }
    assert Permitted(cfg, touched).states == Refreshed(cfg, w, universe).states;
  }

  // ---------------------------------------------------------------- the engine

  class ScannerEngine {
    const cfg: Config
    var states: map<string, SymbolState>
    var cooldowns: map<string, int>
    var dynamic: set<string>
    var open: set<string>

    /** Every state is filed under its own symbol, so no two symbols share one. */
    ghost predicate Valid()
      reads this
    {
      forall s :: s in states ==> states[s].symbol == s
    }

    ghost function Values(): map<string, Progress>
      reads this`states, states.Values
    {
      map s | s in states :: states[s].Value()
    }

    ghost function View(): Watchlist
      reads this, states.Values
    {
      Watchlist(Values(), cooldowns, dynamic, open)
    }

    /** Known symbols keep their objects; unknown ones get new objects. */
    twostate predicate Extended()
      reads this
    {
      && (forall s :: s in old(states) ==> s in states && states[s] == old(states)[s])
      && (forall s :: s in states && s !in old(states) ==> fresh(states[s]))
    }

    /** With one object changed, the values change at its symbol alone. */
    twostate lemma OneChanged(symbol: string)
      requires old(Valid()) && states == old(states) && symbol in states
      requires forall s :: s in states && s != symbol ==> unchanged(states[s])
      ensures Values() == old(Values())[symbol := states[symbol].Value()]
    {
    }

    constructor (cfg: Config)
      ensures this.cfg == cfg && Valid() && View() == Watchlist(map[], map[], {}, {})
    {
      this.cfg := cfg;
      states, cooldowns, dynamic, open := map[], map[], {}, {};
    }

    method IsExecutionAllowed(symbol: string) returns (allowed: bool)
      ensures allowed == Allowed(cfg, View(), symbol)
    {
      if symbol in cooldowns {
        return false;
      }
      if cfg.staticMode {
        return symbol in cfg.allowlist;
      }
      allowed := symbol in cfg.core || symbol in dynamic;
    }

    method GetOrCreateState(symbol: string) returns (state: SymbolState)
      requires Valid()
      modifies this`states, states.Values
      ensures Valid() && Extended() && symbol in states && states[symbol] == state
      ensures View() == Touched(cfg, old(View()), symbol)
    {
      hide Allowed;
      var allowed := IsExecutionAllowed(symbol);
      if symbol in states {
        state := states[symbol];
        state.allowed := allowed;
      } else {
        state := new SymbolState(symbol, allowed);
        states := states[symbol := state];
      }
      assert Values() == old(Values())[symbol := state.Value()];
    }

    method SetPermission(symbol: string)
      requires Valid() && symbol in states
      modifies states[symbol]
      ensures Values() == old(Values())[symbol := old(Values())[symbol].(allowed := Allowed(cfg, old(View()), symbol))]
    {
      hide Allowed;
      var allowed := IsExecutionAllowed(symbol);
      states[symbol].allowed := allowed;
      OneChanged(symbol);
    }

    method RefreshExecutionPermissions()
      requires Valid()
      modifies states.Values
      ensures View() == Permitted(cfg, old(View()))
    {
      hide Allowed, Values, PermittedPart;
      ghost var w, done := View(), {};
      var todo := states.Keys;
      KnownKeys();
      PermittedPartEnds(cfg, w);
      while todo != {}
        invariant todo <= states.Keys && done == states.Keys - todo
        invariant View() == PermittedPart(cfg, w, done)
        decreases |todo|
      {
        var symbol :| symbol in todo;
        PermittedPartStep(cfg, w, done, symbol);
        KnownValue(symbol);
        SetPermission(symbol);
        todo, done := todo - {symbol}, done + {symbol};
      }
      assert done == states.Keys;
    }

    lemma KnownValue(symbol: string)
      requires symbol in states
      ensures symbol in View().states && View().states[symbol] == states[symbol].Value()
    {
    }

    lemma KnownKeys()
      ensures View().states.Keys == states.Keys
    {
    }

    method ReleaseExpiredCooldowns(now: int)
      requires Valid()
      modifies this`states, this`cooldowns, states.Values
      ensures Valid() && Extended()
      ensures View() == Released(cfg, old(View()), now)
    {
      hide Allowed, AfterRelease, Releasable, ReleasedPart, Released, Touched, CoolingState, Values;
      ghost var w, done := View(), {};
      var items := cooldowns;
      var todo := cooldowns.Keys;
      ReleasedPartEnds(cfg, w, now);
      while todo != {}
        invariant Valid() && Extended() && items == w.cooldowns
        invariant todo <= items.Keys && done == items.Keys - todo
        invariant View() == ReleasedPart(cfg, w, done, now)
        decreases |todo|
      {
        var symbol :| symbol in todo;
        ReleasedPartStep(cfg, w, done, now, symbol);
        ReleaseOne(symbol, items[symbol], now);
        todo, done := todo - {symbol}, done + {symbol};
      }
      assert done == w.cooldowns.Keys;
    }

    /** One entry of the cooldown list. */
    method ReleaseOne(symbol: string, until: int, now: int)
      requires Valid()
      modifies this`states, this`cooldowns, states.Values
      ensures Valid() && Extended()
      ensures var t := Touched(cfg, old(View()), symbol);
        var cooling := t.states[symbol].(cooldownUntil := Some(until));
        View() == t.(states := t.states[symbol := AfterRelease(cooling, now)],
                     cooldowns := if Releasable(cooling, now) then t.cooldowns - {symbol} else t.cooldowns)
    {
      hide Allowed, AfterRelease, Releasable, Touched, Values;
      var state := GetOrCreateState(symbol);
      KnownValue(symbol);
      label Found:
      state.cooldownUntil := Some(until);
      var released := PipelineStateMachine.ReleaseCooldown(state, now);
      if released {
        cooldowns := cooldowns - {symbol};
      }
      OneChanged@Found(symbol);
    }

    method EnterCooldown(symbol: string, now: int) returns (until: int)
      requires Valid()
      modifies this`states, this`cooldowns, states.Values
      ensures Valid() && Extended() && until == now + cfg.cooldown
      ensures View() == Cooled(cfg, old(View()), symbol, now)
    {
      hide Allowed, Touched, Values;
      var state := GetOrCreateState(symbol);
      KnownValue(symbol);
      label Found:
      until := PipelineStateMachine.EnterCooldown(state, cfg.cooldown, now);
      cooldowns := cooldowns[symbol := until];
      OneChanged@Found(symbol);
    }

    /** The best symbols that are neither core, open nor cooling down. */
    method SelectDynamic(universe: seq<Opportunity>) returns (picked: seq<string>)
      ensures picked == Picks(cfg, View(), Ranked(universe))
    {
      var ranked := Ranked(universe);
      picked := [];
      for i := 0 to |ranked|
        invariant picked == Picks(cfg, View(), ranked[..i])
        invariant picked == [] || |picked| < cfg.limit || i == 0
      {
        assert ranked[..i + 1][..i] == ranked[..i];
        var o := ranked[i];
        if !(o.symbol in cfg.core || o.symbol in open || o.symbol in cooldowns) {
          picked := picked + [o.symbol];
          if |picked| >= cfg.limit {
            FullPicks(cfg, View(), ranked, i + 1);
            return;
          }
        }
      }
      assert ranked[..|ranked|] == ranked;
    }

    /** The symbols that keep their place in the pool whatever their rank. */
    method PreservedSymbols() returns (preserved: set<string>)
      ensures preserved == Preserved(View())
    {
      preserved := set s | s in states && states[s].phase in {Armed, Triggered, Executed, Cooldown};
    }

    method UpdateWatchlist(universe: seq<Opportunity>)
      requires Valid()
      modifies this`states, this`dynamic, states.Values
      ensures Valid() && Extended()
      ensures View() == Refreshed(cfg, old(View()), universe)
    {
      hide Allowed, Touched, TouchedPart, Permitted, Refreshed, Picks, Ranked, Values, Preserved;
      ghost var w := View();
      var preserved := PreservedSymbols();
      var picked := SelectDynamic(universe);
      dynamic := (set s | s in picked) + (preserved - cfg.core - open);
      ghost var pooled := View();
      assert pooled == w.(dynamic := Pool(cfg, w, universe));
      TouchMonitored(cfg.core + dynamic + open + cooldowns.Keys);
      RefreshExecutionPermissions();
      RefreshInSteps(cfg, w, universe);
    }

    method TouchMonitored(monitored: set<string>)
      requires Valid()
      modifies this`states, states.Values
      ensures Valid() && Extended()
      ensures View() == TouchedPart(cfg, old(View()), monitored)
    {
      hide Allowed, Touched, Values, TouchedPart;
      ghost var w, done := View(), {};
      var todo := monitored;
      TouchedNothing(cfg, w);
      while todo != {}
        invariant Valid() && Extended() && todo <= monitored && done == monitored - todo
        invariant View() == TouchedPart(cfg, w, done)
        decreases |todo|
      {
        var symbol :| symbol in todo;
        TouchedPartStep(cfg, w, done, symbol);
        var state := GetOrCreateState(symbol);
        todo, done := todo - {symbol}, done + {symbol};
      }
      assert done == monitored;
    }
  }

  /** Once the pool is full, the rest of the ranking adds nothing. */
  lemma {:induction false} FullPicks(cfg: Config, w: Watchlist, ranked: seq<Opportunity>, n: nat)
    requires n <= |ranked| && Picks(cfg, w, ranked[..n]) != [] && |Picks(cfg, w, ranked[..n])| >= cfg.limit
    ensures Picks(cfg, w, ranked) == Picks(cfg, w, ranked[..n])
    decreases |ranked|
  {
    if n < |ranked| {
      var init := ranked[..|ranked| - 1];
      assert init[..n] == ranked[..n];
      FullPicks(cfg, w, init, n);
    } else {
      assert ranked[..n] == ranked;
    }
  }
}
