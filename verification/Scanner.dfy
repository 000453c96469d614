/** The scanner's watchlist: permissions, cooldowns, the ranked pool, and its engine. */
module Scanner {
  import opened Prelude
  import opened Pipeline

  datatype Config = Config(staticMode: bool, allowlist: set<string>, core: set<string>, limit: int, cooldown: int)

  datatype Opportunity = Opportunity(symbol: string, market: int, setup: int, eligible: bool)

  datatype Watchlist = Watchlist(states: map<string, Progress>, cooldowns: map<string, int>, dynamic: set<string>, open: set<string>)

  predicate Allowed(cfg: Config, w: Watchlist, symbol: string) {
    symbol !in w.cooldowns && if cfg.staticMode then symbol in cfg.allowlist else symbol in cfg.core || symbol in w.dynamic
  }

  function Monitored(cfg: Config, w: Watchlist): set<string> {
    cfg.core + w.dynamic + w.open + w.cooldowns.Keys
  }

  // ---------------------------------------------------------------- operations on values

  function Touched(cfg: Config, w: Watchlist, symbol: string): Watchlist {
    var allowed := Allowed(cfg, w, symbol);
    w.(states := w.states[symbol := if symbol in w.states then w.states[symbol].(allowed := allowed) else FreshProgress(allowed)])
  }

  function Permitted(cfg: Config, w: Watchlist): Watchlist {
    w.(states := map s | s in w.states :: w.states[s].(allowed := Allowed(cfg, w, s)))
  }

  /** All cooldowns that are over end together; the permission is the one computed before the release. */
  function Released(cfg: Config, w: Watchlist, now: int): Watchlist {
    w.(states := map s | s in w.states.Keys + w.cooldowns.Keys :: ReleasedState(cfg, w, s, now),
       cooldowns := map s | s in w.cooldowns && !ReleasedNow(cfg, w, s, now) :: w.cooldowns[s])
  }

  function CoolingState(w: Watchlist, symbol: string): Progress
    requires symbol in w.cooldowns
  {
    (if symbol in w.states then w.states[symbol] else FreshProgress(false)).(allowed := false, cooldownUntil := Some(w.cooldowns[symbol]))
  }

  predicate ReleasedNow(cfg: Config, w: Watchlist, symbol: string, now: int)
    requires symbol in w.cooldowns
  {
    Releasable(CoolingState(w, symbol), now)
  }

  function ReleasedState(cfg: Config, w: Watchlist, symbol: string, now: int): Progress
    requires symbol in w.states || symbol in w.cooldowns
  {
    if symbol in w.cooldowns then AfterRelease(CoolingState(w, symbol), now) else w.states[symbol]
  }

  function Cooled(cfg: Config, w: Watchlist, symbol: string, now: int): Watchlist {
    var t := Touched(cfg, w, symbol);
    t.(states := t.states[symbol := AfterCooldown(t.states[symbol], now + cfg.cooldown)],
       cooldowns := t.cooldowns[symbol := now + cfg.cooldown])
  }

  // ---------------------------------------------------------------- the ranked pool

  /** Setup quality first, market quality second. */
  predicate Outranks(a: Opportunity, b: Opportunity) {
    a.setup > b.setup || (a.setup == b.setup && a.market > b.market)
  }

  /** A new opportunity goes behind those it does not outrank, so equals keep their order. */
  function Insert(ranked: seq<Opportunity>, o: Opportunity): seq<Opportunity>
    decreases |ranked|
  {
    if ranked == [] then [o]
    else if Outranks(o, ranked[|ranked| - 1]) then Insert(ranked[..|ranked| - 1], o) + [ranked[|ranked| - 1]]
    else ranked + [o]
  }

  function Ranked(universe: seq<Opportunity>): seq<Opportunity>
    decreases |universe|
  {
    if universe == [] then []
    else
      var rest := Ranked(universe[..|universe| - 1]);
      if universe[|universe| - 1].eligible then Insert(rest, universe[|universe| - 1]) else rest
  }

  predicate Skipped(cfg: Config, w: Watchlist, symbol: string) {
    symbol in cfg.core || symbol in w.open || symbol in w.cooldowns
  }

  /** The ranked symbols that are not skipped, cut once the limit is reached; the cut follows the append. */
  function Picks(cfg: Config, w: Watchlist, ranked: seq<Opportunity>): seq<string>
    decreases |ranked|
  {
    if ranked == [] then []
    else
      var picked := Picks(cfg, w, ranked[..|ranked| - 1]);
      var o := ranked[|ranked| - 1];
      if Skipped(cfg, w, o.symbol) || (picked != [] && |picked| >= cfg.limit) then picked else picked + [o.symbol]
  }

  function Preserved(w: Watchlist): set<string> {
    set s | s in w.states && w.states[s].phase in {Armed, Triggered, Executed, Cooldown}
  }

  function Pool(cfg: Config, w: Watchlist, universe: seq<Opportunity>): set<string> {
    (set s | s in Picks(cfg, w, Ranked(universe))) + (Preserved(w) - cfg.core - w.open)
  }

  /** New pool, a state for every monitored symbol, permissions recomputed. */
  function Refreshed(cfg: Config, w: Watchlist, universe: seq<Opportunity>): Watchlist {
    var pooled := w.(dynamic := Pool(cfg, w, universe));
    pooled.(states := map s | s in w.states.Keys + Monitored(cfg, pooled) ::
              (if s in w.states then w.states[s] else FreshProgress(false)).(allowed := Allowed(cfg, pooled, s)))
  }

  // ---------------------------------------------------------------- ranking properties

  ghost predicate InRankOrder(ranked: seq<Opportunity>) {
    forall i, j :: 0 <= i < j < |ranked| ==> !Outranks(ranked[j], ranked[i])
  }

  lemma {:induction false} InsertMembers(ranked: seq<Opportunity>, o: Opportunity)
    ensures forall x :: x in Insert(ranked, o) <==> x in ranked || x == o
    decreases |ranked|
  {
    hide Outranks;
    if ranked != [] {
      assert ranked == ranked[..|ranked| - 1] + [ranked[|ranked| - 1]];
      InsertMembers(ranked[..|ranked| - 1], o);
    }
  }

  lemma OutranksFacts(a: Opportunity, b: Opportunity, c: Opportunity)
    ensures Outranks(a, b) ==> !Outranks(b, a)
    ensures !Outranks(a, b) && !Outranks(b, c) ==> !Outranks(a, c)
  {
  }

  lemma InRankOrderAppend(ranked: seq<Opportunity>, o: Opportunity)
    requires InRankOrder(ranked) && forall x :: x in ranked ==> !Outranks(o, x)
    ensures InRankOrder(ranked + [o])
  {
    hide Outranks;
  }

  lemma {:induction false} InsertRanks(ranked: seq<Opportunity>, o: Opportunity)
    requires InRankOrder(ranked)
    ensures InRankOrder(Insert(ranked, o))
    decreases |ranked|
  {
    hide Outranks;
    if ranked != [] {
      var init, last := ranked[..|ranked| - 1], ranked[|ranked| - 1];
      OutranksFacts(o, last, last);
      if Outranks(o, last) {
        InsertRanks(init, o);
        InsertMembers(init, o);
        InRankOrderAppend(Insert(init, o), last);
      } else {
        forall x | x in ranked ensures !Outranks(o, x) {
          OutranksFacts(o, last, x);
        }
        InRankOrderAppend(ranked, o);
      }
    }
  }

  /** A new opportunity lands behind everything it does not outrank and before everything it does, so the
      ranking is stable: equals stand in the order of the universe. */
  lemma {:induction false} InsertPlace(ranked: seq<Opportunity>, o: Opportunity) returns (k: nat)
    requires InRankOrder(ranked)
    ensures k <= |ranked| && Insert(ranked, o) == ranked[..k] + [o] + ranked[k..]
    ensures forall i :: 0 <= i < |ranked| ==> (Outranks(o, ranked[i]) <==> i >= k)
    decreases |ranked|
  {
    hide Outranks;
    k := |ranked|;
    if ranked != [] {
      var init, last := ranked[..|ranked| - 1], ranked[|ranked| - 1];
      OutranksFacts(o, last, last);
      if Outranks(o, last) {
        k := InsertPlace(init, o);
        assert ranked[k..] == init[k..] + [last];
      } else {
        forall i | 0 <= i < |ranked| ensures !Outranks(o, ranked[i]) {
          OutranksFacts(o, last, ranked[i]);
        }
      }
    }
  }

  /** The ranking is the eligible part of the universe, best first. */
  lemma {:induction false} RankedIsSorted(universe: seq<Opportunity>)
    ensures InRankOrder(Ranked(universe))
    ensures forall o :: o in Ranked(universe) <==> o in universe && o.eligible
    decreases |universe|
  {
    hide Outranks, Insert, InRankOrder;
    if universe == [] {
      assert InRankOrder([]) by { EmptyRankOrder(); }
    } else {
      var init, last := universe[..|universe| - 1], universe[|universe| - 1];
      assert universe == init + [last];
      RankedIsSorted(init);
      if last.eligible {
        InsertRanks(Ranked(init), last);
        InsertMembers(Ranked(init), last);
      }
    }
  }

  /** In plain numbers: along the ranking the setup quality falls, and within equal setups the market quality. */
  lemma RankedPlainly(universe: seq<Opportunity>, i: nat, j: nat)
    requires i < j < |Ranked(universe)|
    ensures var a, b := Ranked(universe)[i], Ranked(universe)[j];
      a.setup > b.setup || (a.setup == b.setup && a.market >= b.market)
  {
    hide Ranked;
    RankedIsSorted(universe);
  }

  /** A dynamic symbol after a refresh is an eligible pick that is neither core, open nor cooling down, or a symbol under
      way that is neither core nor open; and every symbol under way outside core and open positions is one. */
  lemma DynamicPlainly(cfg: Config, w: Watchlist, universe: seq<Opportunity>, symbol: string)
    ensures symbol in Refreshed(cfg, w, universe).dynamic ==>
      && symbol !in cfg.core && symbol !in w.open
      && (UnderWay(w, symbol) || (symbol !in w.cooldowns && exists o :: o in universe && o.eligible && o.symbol == symbol))
    ensures UnderWay(w, symbol) && symbol !in cfg.core && symbol !in w.open ==> symbol in Refreshed(cfg, w, universe).dynamic
  {
    hide Ranked;
    RankedIsSorted(universe);
    PicksAreTop(cfg, w, Ranked(universe));
  }

  predicate UnderWay(w: Watchlist, symbol: string) {
    && symbol in w.states
    && var phase := w.states[symbol].phase;
       phase != Discovered && phase != Watching && phase != Invalidated
  }

  lemma EmptyRankOrder()
    ensures InRankOrder([])
  {
  }

  /** Everything picked comes from the ranking unskipped; anything unskipped that was not picked stands behind
      a full pool, all of which it does not outrank. */
  lemma {:induction false} PicksAreTop(cfg: Config, w: Watchlist, ranked: seq<Opportunity>)
    requires InRankOrder(ranked)
    ensures var picks := Picks(cfg, w, ranked);
      && |picks| <= (if cfg.limit > 1 then cfg.limit else 1)
      && (forall s :: s in picks ==> !Skipped(cfg, w, s) && exists o :: o in ranked && o.symbol == s)
      && (forall o :: o in ranked && !Skipped(cfg, w, o.symbol) && o.symbol !in picks ==>
            picks != [] && |picks| >= cfg.limit && forall s :: s in picks ==> BestOutrank(ranked, s, o))
    decreases |ranked|
  {
    if ranked != [] {
      var init, last := ranked[..|ranked| - 1], ranked[|ranked| - 1];
      assert ranked == init + [last];
      PicksAreTop(cfg, w, init);
      var before, picks := Picks(cfg, w, init), Picks(cfg, w, ranked);
      forall o | o in ranked && !Skipped(cfg, w, o.symbol) && o.symbol !in picks
        ensures picks != [] && |picks| >= cfg.limit && forall s :: s in picks ==> BestOutrank(ranked, s, o) {
        forall s | s in picks ensures BestOutrank(ranked, s, o) {
          assert s in before;
          if o in init && (o != last || o.symbol !in before) {
            assert BestOutrank(init, s, o);
            var b :| b in init && b.symbol == s && !Outranks(o, b);
            assert b in ranked;
          } else {
            var b :| b in init && b.symbol == s;
            var i :| 0 <= i < |init| && init[i] == b;
            assert ranked[i] == b && !Outranks(ranked[|ranked| - 1], ranked[i]);
          }
        }
      }
    }
  }

  /** Some opportunity of symbol s is not outranked by o. */
  predicate BestOutrank(ranked: seq<Opportunity>, s: string, o: Opportunity) {
    exists b :: b in ranked && b.symbol == s && !Outranks(o, b)
  }

  /** A refresh drops nothing that is under way: every ARMED, TRIGGERED, EXECUTED or COOLDOWN symbol stays
      monitored, whatever the new ranking, and every monitored symbol has a state. */
  lemma RefreshKeepsActive(cfg: Config, w: Watchlist, universe: seq<Opportunity>)
    ensures var next := Refreshed(cfg, w, universe);
      && Preserved(w) <= Monitored(cfg, next) <= next.states.Keys
      && (forall s :: s in w.states ==> s in next.states && next.states[s] == w.states[s].(allowed := Allowed(cfg, next, s)))
  {
    hide Picks, Ranked;
  }
}
