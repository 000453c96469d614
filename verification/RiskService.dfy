/** Risk admission: sizing by stop distance, the portfolio budget, and the daily loss baseline. */
module RiskService {
  import opened Prelude
  import opened Arithmetic

  // ---------------------------------------------------------------- data

  datatype Config = Config(riskPct: real, dailyLossPct: real, minimumRr: real, leverage: real, maxLeverage: real,
                           maxPositions: int, maxOpenRiskPct: real, feePct: real, slippagePct: real,
                           lookback: nat, bufferPct: real)

  /** What the constructor insists on. */
  predicate ValidConfig(c: Config) {
    && 0.0 < c.riskPct <= 100.0 && 0.0 < c.dailyLossPct <= 100.0 && c.minimumRr >= 2.0
    && 0.0 < c.leverage <= c.maxLeverage <= 10.0 && c.maxPositions > 0 && 0.0 < c.maxOpenRiskPct <= 100.0
    && c.feePct >= 0.0 && c.slippagePct >= 0.0 && c.lookback >= 2 && c.bufferPct >= 0.0
  }

  datatype PositionSide = Long | Short | Unlabelled

  datatype Position = Position(symbol: string, side: PositionSide, size: real, entry: Option<real>,
                               stop: Option<real>, value: Option<real>)

  datatype Signal = Signal(id: string, symbol: string, side: Side, entry: real)

  datatype Candle = Candle(high: real, low: real)

  datatype Reason = InvalidAccountEquity | InsufficientAvailableBalance | DailyLossLimit | MaxActivePositions
                  | DuplicateSymbolPosition | LeverageLimitExceeded | OpenPositionRiskUnknown
                  | InsufficientStructureData | InvalidStopLoss | InvalidTakeProfit | MinimumRrNotMet
                  | InvalidPositionSize | MaxOpenRiskExceeded

  datatype Decision =
    | Ready(symbol: string, side: Side, entry: real, quantity: real, stop: real, target: real, rr: real,
            riskAmount: real, openRiskBefore: real, openRiskAfter: real, maxOpenRisk: real, allowance: real)
    | Rejected(reason: Reason)

  // ---------------------------------------------------------------- portfolio risk

  /** Value of a quantity at a price. */
  function Exposure(price: real, quantity: real): real {
    price * quantity
  }

  function Allowance(c: Config, notional: real): real {
    Abs(notional) * ((c.feePct + c.slippagePct) / 100.0)
  }

  function Notional(p: Position): real
    requires p.entry.Some?
  {
    if p.value.Some? && p.value.value != 0.0 then Abs(p.value.value) else Exposure(p.entry.value, p.size)
  }

  /** Loss of one position at its stop plus costs; None when the stop does not protect it. */
  function PositionRisk(c: Config, p: Position): Option<real> {
    if p.size <= 0.0 then Some(0.0)
    else if p.entry.None? || p.stop.None? || p.entry.value <= 0.0 || p.stop.value <= 0.0 then None
    else if p.side == Long && p.stop.value >= p.entry.value then None
    else if p.side == Short && p.stop.value <= p.entry.value then None
    else Some(Abs(p.entry.value - p.stop.value) * p.size + Allowance(c, Notional(p)))
  }

  function PortfolioRisk(c: Config, ps: seq<Position>): Option<real>
    decreases |ps|
  {
    if ps == [] then Some(0.0)
    else
      var rest := PortfolioRisk(c, ps[..|ps| - 1]);
      var last := PositionRisk(c, ps[|ps| - 1]);
      if rest.None? || last.None? then None else Some(rest.value + last.value)
  }

  lemma {:induction false} UnknownStaysUnknown(c: Config, ps: seq<Position>, n: nat)
    requires n <= |ps| && PortfolioRisk(c, ps[..n]).None?
    ensures PortfolioRisk(c, ps).None?
    decreases |ps|
  {
    if n < |ps| {
      assert ps[..|ps| - 1][..n] == ps[..n];
      UnknownStaysUnknown(c, ps[..|ps| - 1], n);
    } else {
      assert ps[..n] == ps;
    }
  }

  // ---------------------------------------------------------------- sizing

  function Lowest(candles: seq<Candle>): real
    requires candles != []
  {
    if |candles| == 1 then candles[0].low else Min(candles[0].low, Lowest(candles[1..]))
  }

  function Highest(candles: seq<Candle>): real
    requires candles != []
  {
    if |candles| == 1 then candles[0].high else Max(candles[0].high, Highest(candles[1..]))
  }

  /** Stop from the structure of the recent candles, target at the minimum ratio. */
  function Levels(c: Config, side: Side, entry: real, recent: seq<Candle>): (r: Result<(real, real)>)
    requires recent != []
    ensures r.Ok? ==> r.value.0 != entry
  {
    var buffer := c.bufferPct / 100.0;
    if side == Buy then
      var stop := Lowest(recent) * (1.0 - buffer);
      if stop <= 0.0 || stop >= entry then Err("stop")
      else
        var target := entry + (entry - stop) * c.minimumRr;
        if target <= entry then Err("target") else Ok((stop, target))
    else
      var stop := Highest(recent) * (1.0 + buffer);
      if stop <= entry then Err("stop")
      else
        var target := entry - (stop - entry) * c.minimumRr;
        if target <= 0.0 || target >= entry then Err("target") else Ok((stop, target))
  }

  const QUANTITY_UNITS := 100000000.0

  /** Quantization to eight decimals, rounding down, of a positive quotient. */
  function FloorQuantity(riskAmount: real, distance: real): real
    requires distance != 0.0
  {
    (riskAmount / distance * QUANTITY_UNITS).Floor as real / QUANTITY_UNITS
  }

  /** Everything after the account checks. */
  function Size(c: Config, signal: Signal, equity: real, available: real, before: real, candles: seq<Candle>): Decision
    requires c.leverage > 0.0 && c.lookback >= 1
  {
    if |candles| < c.lookback then Rejected(InsufficientStructureData) else
    var levels := Levels(c, signal.side, signal.entry, candles[|candles| - c.lookback..]);
    if levels.Err? then Rejected(if levels.error == "stop" then InvalidStopLoss else InvalidTakeProfit) else
    SizeAt(c, signal, equity, available, before, levels.value.0, levels.value.1)
  }

  function RiskAmount(c: Config, equity: real): real {
    equity * (c.riskPct / 100.0)
  }

  function RiskBudget(c: Config, equity: real): real {
    equity * (c.maxOpenRiskPct / 100.0)
  }

  function Margin(notional: real, leverage: real): real
    requires leverage > 0.0
  {
    notional / leverage
  }

  /** The quantity and the budget, with the levels in place. */
  function SizeAt(c: Config, signal: Signal, equity: real, available: real, before: real, stop: real, target: real): Decision
    requires c.leverage > 0.0 && stop != signal.entry
  {
    var distance := Abs(signal.entry - stop);
    var rr := Abs(target - signal.entry) / distance;
    if rr < c.minimumRr then Rejected(MinimumRrNotMet) else
    var riskAmount := RiskAmount(c, equity);
    var quantity := FloorQuantity(riskAmount, distance);
    if quantity <= 0.0 then Rejected(InvalidPositionSize) else
    var notional := Exposure(signal.entry, quantity);
    var allowance := Allowance(c, notional);
    var after := before + riskAmount + allowance;
    var cap := RiskBudget(c, equity);
    if after > cap then Rejected(MaxOpenRiskExceeded)
    else if Margin(notional, c.leverage) + allowance > available then Rejected(InsufficientAvailableBalance)
    else Ready(signal.symbol, signal.side, signal.entry, quantity, stop, target, rr, riskAmount, before, after, cap, allowance)
  }

  /** Everything after the daily loss check. */
  function Admit(c: Config, signal: Signal, equity: real, available: real, positions: seq<Position>,
                 candles: seq<Candle>): Decision
    requires c.lookback >= 1
  {
    if |positions| >= c.maxPositions then Rejected(MaxActivePositions)
    else if exists i :: 0 <= i < |positions| && positions[i].symbol == signal.symbol then Rejected(DuplicateSymbolPosition)
    else if c.leverage <= 0.0 || c.leverage > c.maxLeverage || c.maxLeverage > 10.0 then Rejected(LeverageLimitExceeded)
    else
      var before := PortfolioRisk(c, positions);
      if before.None? then Rejected(OpenPositionRiskUnknown)
      else Size(c, signal, equity, available, before.value, candles)
  }

  // ---------------------------------------------------------------- daily loss baseline

  /** The in-memory baseline and, when there is persistence, the stored one per day. */
  datatype Baseline = Baseline(day: Option<int>, equity: Option<real>, stored: Option<map<int, real>>)

  function Rebased(b: Baseline, today: int, equity: real): Baseline {
    if b.day == Some(today) && b.equity.Some? && b.equity.value > 0.0 then b
    else
      var persisted := if b.stored.Some? && today in b.stored.value then Some(b.stored.value[today]) else None;
      Baseline(Some(today),
               if persisted.Some? && persisted.value > 0.0 then persisted else Some(equity),
               if persisted.None? && b.stored.Some? then Some(b.stored.value[today := equity]) else b.stored)
  }

  /** Loss since the start of the day, in percent of it. */
  function Loss(start: real, equity: real): real
    requires start > 0.0
  {
    if equity >= start then 0.0 else (start - equity) / start * 100.0
  }

  function EvaluateFrom(c: Config, b: Baseline, signal: Signal, equity: Option<real>, available: Option<real>,
                        positions: seq<Position>, candles: seq<Candle>, today: int): (Baseline, Decision)
    requires c.lookback >= 1
  {
    if equity.None? || equity.value <= 0.0 then (b, Rejected(InvalidAccountEquity))
    else if available.None? || available.value <= 0.0 then (b, Rejected(InsufficientAvailableBalance))
    else
      var rebased := Rebased(b, today, equity.value);
      if Loss(rebased.equity.value, equity.value) >= c.dailyLossPct then (rebased, Rejected(DailyLossLimit))
      else (rebased, Admit(c, signal, equity.value, available.value, positions, candles))
  }

  class RiskService {
    const c: Config
    var baseline: Baseline

    constructor (c: Config, stored: Option<map<int, real>>)
      requires ValidConfig(c)
      ensures this.c == c && baseline == Baseline(None, None, stored)
    {
      this.c := c;
      baseline := Baseline(None, None, stored);
    }

    method PortfolioOpenRisk(positions: seq<Position>) returns (r: Option<real>)
      ensures r == PortfolioRisk(c, positions)
    {
      var total := 0.0;
      for i := 0 to |positions|
        invariant PortfolioRisk(c, positions[..i]) == Some(total)
      {
        var position := positions[i];
        assert positions[..i + 1][..i] == positions[..i];
        if position.size <= 0.0 {
          continue;
        }
        var risk := PositionRisk(c, position);
        if risk.None? {
          UnknownStaysUnknown(c, positions, i + 1);
          return None;
        }
        total := total + risk.value;
      }
      assert positions[..|positions|] == positions;
      return Some(total);
    }

    method DailyDrawdown(today: int, equity: real) returns (pct: real)
      requires equity > 0.0
      modifies this`baseline
      ensures baseline == Rebased(old(baseline), today, equity)
      ensures baseline.equity.Some? && pct == Loss(baseline.equity.value, equity)
    {
      if baseline.day != Some(today) || baseline.equity.None? || baseline.equity.value <= 0.0 {
        var persisted := if baseline.stored.Some? && today in baseline.stored.value
                         then Some(baseline.stored.value[today]) else None;
        var start := if persisted.Some? && persisted.value > 0.0 then persisted.value else equity;
        baseline := baseline.(day := Some(today), equity := Some(start));
        if persisted.None? && baseline.stored.Some? {
          baseline := baseline.(stored := Some(baseline.stored.value[today := equity]));
        }
      }
      if equity >= baseline.equity.value {
        return 0.0;
      }
      return (baseline.equity.value - equity) / baseline.equity.value * 100.0;
    }

    method Evaluate(signal: Signal, equity: Option<real>, available: Option<real>, positions: seq<Position>,
                    candles: seq<Candle>, today: int) returns (decision: Decision)
      requires ValidConfig(c)
      modifies this`baseline
      ensures (baseline, decision)
        == EvaluateFrom(c, old(baseline), signal, equity, available, positions, candles, today)
    {
      hide Loss, Size, PortfolioRisk;
      if equity.None? || equity.value <= 0.0 {
        return Rejected(InvalidAccountEquity);
      }
      if available.None? || available.value <= 0.0 {
        return Rejected(InsufficientAvailableBalance);
      }
      var drawdown := DailyDrawdown(today, equity.value);
      if drawdown >= c.dailyLossPct {
        return Rejected(DailyLossLimit);
      }
      if |positions| >= c.maxPositions {
        return Rejected(MaxActivePositions);
      }
      if exists i :: 0 <= i < |positions| && positions[i].symbol == signal.symbol {
        return Rejected(DuplicateSymbolPosition);
      }
      if c.leverage <= 0.0 || c.leverage > c.maxLeverage || c.maxLeverage > 10.0 {
        return Rejected(LeverageLimitExceeded);
      }
      var before := PortfolioOpenRisk(positions);
      if before.None? {
        return Rejected(OpenPositionRiskUnknown);
      }
      return Size(c, signal, equity.value, available.value, before.value, candles);
    }
  }

  // ---------------------------------------------------------------- what a READY decision promises

  lemma ScaledBounds(x: real, q: real, unit: real, distance: real, amount: real)
    requires q <= x < q + unit && distance > 0.0 && x * distance == amount
    ensures q * distance <= amount < (q + unit) * distance
  {
    ProductOrder(q, x, distance);
    ProductStrict(x, q + unit, distance);
  }

  lemma FloorQuantityBounds(riskAmount: real, distance: real)
    requires distance > 0.0
    ensures FloorQuantity(riskAmount, distance) * distance <= riskAmount
    ensures riskAmount < (FloorQuantity(riskAmount, distance) + 1.0 / QUANTITY_UNITS) * distance
  {
    var x := riskAmount / distance;
    UnitQuotient(x, QUANTITY_UNITS, (x * QUANTITY_UNITS).Floor as real);
    QuotientTimes(riskAmount, distance);
    ScaledBounds(x, FloorQuantity(riskAmount, distance), 1.0 / QUANTITY_UNITS, distance, riskAmount);
  }

  lemma TargetDistance(entry: real, distance: real, m: real)
    requires distance >= 0.0 && m >= 0.0
    ensures Abs(entry + distance * m - entry) == m * distance
    ensures Abs(entry - distance * m - entry) == m * distance
  {
    ProductOrder(0.0, distance, m);
  }

  lemma RatioLeavesRoom(distance: real, m: real)
    requires distance > 0.0 && m > 0.0
    ensures distance * m > 0.0
  {
  }

  lemma LevelsMeaning(c: Config, side: Side, entry: real, recent: seq<Candle>)
    requires ValidConfig(c) && recent != [] && Levels(c, side, entry, recent).Ok?
    ensures var l := Levels(c, side, entry, recent).value;
      l.0 > 0.0 && l.0 != entry && entry > 0.0
      && (side == Buy ==> l.0 < entry < l.1) && (side == Sell ==> 0.0 < l.1 < entry < l.0)
      && Abs(l.1 - entry) == c.minimumRr * Abs(entry - l.0)
  {
    hide Lowest, Highest;
    var l := Levels(c, side, entry, recent).value;
    var distance := if side == Buy then entry - l.0 else l.0 - entry;
    RatioLeavesRoom(distance, c.minimumRr);
    TargetDistance(entry, distance, c.minimumRr);
    assert Abs(entry - l.0) == distance;
    assert l.1 == if side == Buy then entry + distance * c.minimumRr else entry - distance * c.minimumRr;
  }

  /** The stop lies on the losing side and the target exactly the minimum ratio away; the position
      loses at most its risk amount at the stop, and one more unit of quantity would lose more. */
  lemma ReadyPlan(c: Config, signal: Signal, equity: real, available: real, before: real, candles: seq<Candle>)
    requires ValidConfig(c) && Size(c, signal, equity, available, before, candles).Ready?
    ensures var r := Size(c, signal, equity, available, before, candles);
      && r.symbol == signal.symbol && r.side == signal.side && r.entry == signal.entry > 0.0
      && r.stop > 0.0 && (r.side == Buy ==> r.stop < r.entry < r.target) && (r.side == Sell ==> 0.0 < r.target < r.entry < r.stop)
      && r.rr == c.minimumRr && r.quantity > 0.0
    ensures var r := Size(c, signal, equity, available, before, candles);
      var d := Abs(r.entry - r.stop);
      && r.riskAmount == equity * (c.riskPct / 100.0)
      && r.quantity * d <= r.riskAmount < (r.quantity + 1.0 / QUANTITY_UNITS) * d
  {
    hide Levels, FloorQuantity;
    var recent := candles[|candles| - c.lookback..];
    LevelsMeaning(c, signal.side, signal.entry, recent);
    var l := Levels(c, signal.side, signal.entry, recent).value;
    QuotientUnique(Abs(l.1 - signal.entry), Abs(signal.entry - l.0), c.minimumRr);
    FloorQuantityBounds(equity * (c.riskPct / 100.0), Abs(signal.entry - l.0));
  }

  /** The budget arithmetic of a READY decision. */
  lemma ReadyBudget(c: Config, signal: Signal, equity: real, available: real, before: real, candles: seq<Candle>)
    requires c.leverage > 0.0 && c.lookback >= 1 && Size(c, signal, equity, available, before, candles).Ready?
    ensures var r := Size(c, signal, equity, available, before, candles);
      && r.openRiskBefore == before
      && r.openRiskAfter == before + r.riskAmount + r.allowance
      && r.allowance == Allowance(c, Exposure(r.entry, r.quantity))
      && r.openRiskAfter <= r.maxOpenRisk == equity * (c.maxOpenRiskPct / 100.0)
      && Exposure(r.entry, r.quantity) / c.leverage + r.allowance <= available
  {
    hide Levels, FloorQuantity, Allowance, Exposure;
  }

  /** The position a READY decision leads to when it fills at its reference entry with its stop set;
      the exchange may or may not report the position's value. */
  function AdmittedPosition(r: Decision, valued: bool): Position
    requires r.Ready?
  {
    Position(r.symbol, if r.side == Buy then Long else Short, r.quantity, Some(r.entry), Some(r.stop),
             if valued then Some(Exposure(r.entry, r.quantity)) else None)
  }

  lemma ExposurePositive(price: real, quantity: real)
    requires price > 0.0 && quantity > 0.0
    ensures Exposure(price, quantity) > 0.0
  {
    ProductPositive(price, quantity);
  }

  /** Recomputing the portfolio risk after the fill never exceeds what the decision budgeted. */
  lemma AdmissionWithinBudget(c: Config, signal: Signal, equity: real, available: real, positions: seq<Position>,
                              candles: seq<Candle>, valued: bool)
    requires ValidConfig(c) && Admit(c, signal, equity, available, positions, candles).Ready?
    ensures var r := Admit(c, signal, equity, available, positions, candles);
      var after := PortfolioRisk(c, positions + [AdmittedPosition(r, valued)]);
      && after.Some?
      && after.value == r.openRiskBefore + Abs(r.entry - r.stop) * r.quantity + r.allowance
      && after.value <= r.openRiskAfter <= equity * (c.maxOpenRiskPct / 100.0)
  {
    hide Size, Allowance, Exposure;
    var before := PortfolioRisk(c, positions).value;
    ReadyPlan(c, signal, equity, available, before, candles);
    ReadyBudget(c, signal, equity, available, before, candles);
    var r := Admit(c, signal, equity, available, positions, candles);
    ExposurePositive(r.entry, r.quantity);
    assert (positions + [AdmittedPosition(r, valued)])[..|positions|] == positions;
  }

  // ---------------------------------------------------------------- when a signal is admitted

  lemma {:induction false} LowestMeaning(candles: seq<Candle>)
    requires candles != []
    ensures forall i :: 0 <= i < |candles| ==> Lowest(candles) <= candles[i].low
    ensures exists i :: 0 <= i < |candles| && Lowest(candles) == candles[i].low
    ensures forall i :: 0 <= i < |candles| ==> Highest(candles) >= candles[i].high
    ensures exists i :: 0 <= i < |candles| && Highest(candles) == candles[i].high
  {
    if |candles| == 1 {
      assert Lowest(candles) == candles[0].low && Highest(candles) == candles[0].high;
    } else {
      var rest := candles[1..];
      LowestMeaning(rest);
      var i :| 0 <= i < |rest| && Lowest(rest) == rest[i].low;
      var j :| 0 <= j < |rest| && Highest(rest) == rest[j].high;
      assert candles[i + 1] == rest[i] && candles[j + 1] == rest[j];
      assert Lowest(candles) == candles[0].low || Lowest(candles) == candles[i + 1].low;
      assert Highest(candles) == candles[0].high || Highest(candles) == candles[j + 1].high;
      forall k | 0 <= k < |candles| ensures Lowest(candles) <= candles[k].low && Highest(candles) >= candles[k].high {
        if k > 0 { assert candles[k] == rest[k - 1]; }
      }
    }
  }

  /** Stop beyond the structure of the recent candles by the buffer. */
  function StructureStop(c: Config, side: Side, recent: seq<Candle>): real
    requires recent != []
  {
    if side == Buy then Lowest(recent) * (1.0 - c.bufferPct / 100.0) else Highest(recent) * (1.0 + c.bufferPct / 100.0)
  }

  /** The stop is on the losing side, and a short's target stays above zero. */
  predicate Tradable(c: Config, side: Side, entry: real, stop: real) {
    match side
    case Buy => 0.0 < stop < entry
    case Sell => entry < stop && entry > (stop - entry) * c.minimumRr
  }

  lemma LevelsExist(c: Config, side: Side, entry: real, recent: seq<Candle>)
    requires ValidConfig(c) && recent != []
    ensures Levels(c, side, entry, recent).Ok? <==> Tradable(c, side, entry, StructureStop(c, side, recent))
    ensures Levels(c, side, entry, recent).Ok? ==> Levels(c, side, entry, recent).value.0 == StructureStop(c, side, recent)
  {
    hide Lowest, Highest;
    var distance := Abs(entry - StructureStop(c, side, recent));
    if distance > 0.0 {
      RatioLeavesRoom(distance, c.minimumRr);
    }
  }

  /** The floored quantity is positive as soon as the risk amount pays for one unit. */
  lemma QuantityPositive(riskAmount: real, distance: real)
    requires distance > 0.0
    ensures FloorQuantity(riskAmount, distance) > 0.0 <==> riskAmount * QUANTITY_UNITS >= distance
  {
    var x := riskAmount / distance;
    QuotientOrder(riskAmount * QUANTITY_UNITS, distance, 1.0);
    assert x * QUANTITY_UNITS == riskAmount * QUANTITY_UNITS / distance;
    var units := (x * QUANTITY_UNITS).Floor;
    assert units >= 1 <==> x * QUANTITY_UNITS >= 1.0;
    QuotientOrder(units as real, QUANTITY_UNITS, 0.0);
  }

  lemma SizeAtAdmits(c: Config, signal: Signal, equity: real, available: real, before: real, stop: real, target: real)
    requires c.leverage > 0.0 && stop != signal.entry && Abs(target - signal.entry) == c.minimumRr * Abs(signal.entry - stop)
    ensures var r := SizeAt(c, signal, equity, available, before, stop, target);
      (r.Ready? <==> Fits(c, equity, available, before, signal.entry, stop)) && r != Rejected(MinimumRrNotMet)
  {
    hide FloorQuantity, Allowance, Exposure, RiskAmount, RiskBudget, Margin;
    var distance := Abs(signal.entry - stop);
    QuotientUnique(Abs(target - signal.entry), distance, c.minimumRr);
    QuantityPositive(RiskAmount(c, equity), distance);
  }

  /** A signal that passed the account checks is admitted exactly when the structure gives it a tradable
      stop, one unit can be bought at risk, the budget has room and the capacity suffices. The check of the
      ratio never decides: the target is placed at the minimum ratio. */
  lemma SizeAdmits(c: Config, signal: Signal, equity: real, available: real, before: real, candles: seq<Candle>)
    requires ValidConfig(c)
    ensures Size(c, signal, equity, available, before, candles).Ready? <==>
      && |candles| >= c.lookback
      && var stop := StructureStop(c, signal.side, candles[|candles| - c.lookback..]);
         Tradable(c, signal.side, signal.entry, stop) && Fits(c, equity, available, before, signal.entry, stop)
    ensures Size(c, signal, equity, available, before, candles) != Rejected(MinimumRrNotMet)
  {
    hide Levels, Tradable, StructureStop, SizeAt, Fits;
    if |candles| >= c.lookback {
      var recent := candles[|candles| - c.lookback..];
      LevelsExist(c, signal.side, signal.entry, recent);
      if Levels(c, signal.side, signal.entry, recent).Ok? {
        LevelsMeaning(c, signal.side, signal.entry, recent);
        var l := Levels(c, signal.side, signal.entry, recent).value;
        SizeAtAdmits(c, signal, equity, available, before, l.0, l.1);
      }
    }
  }

  predicate Fits(c: Config, equity: real, available: real, before: real, entry: real, stop: real)
    requires c.leverage > 0.0
  {
    var distance := Abs(entry - stop);
    var riskAmount := RiskAmount(c, equity);
    && distance > 0.0 && riskAmount * QUANTITY_UNITS >= distance
    && var notional := Exposure(entry, FloorQuantity(riskAmount, distance));
       && before + riskAmount + Allowance(c, notional) <= RiskBudget(c, equity)
       && Margin(notional, c.leverage) + Allowance(c, notional) <= available
  }

  /** The open risk is known exactly when each position's is, and then at least the sum of any part of it. */
  lemma {:induction false} PortfolioRiskMeaning(c: Config, ps: seq<Position>)
    requires ValidConfig(c)
    ensures PortfolioRisk(c, ps).Some? <==> forall i :: 0 <= i < |ps| ==> PositionRisk(c, ps[i]).Some?
    ensures PortfolioRisk(c, ps).Some? ==> PortfolioRisk(c, ps).value >= 0.0
    ensures PortfolioRisk(c, ps).Some? ==>
      forall i {:trigger ps[i]} :: 0 <= i < |ps| ==> PositionRisk(c, ps[i]).value <= PortfolioRisk(c, ps).value
    decreases |ps|
  {
    hide PositionRisk;
    if ps != [] {
      PortfolioRiskMeaning(c, ps[..|ps| - 1]);
      PositionRiskBounds(c, ps[|ps| - 1]);
    }
  }

  /** The risk of a position on a named side is known exactly when it is empty or its stop lies between zero
      and the entry (long) or above the entry (short); it is at least the loss at the stop. */
  lemma PositionRiskBounds(c: Config, p: Position)
    requires ValidConfig(c)
    ensures PositionRisk(c, p).Some? ==> PositionRisk(c, p).value >= 0.0
    ensures PositionRisk(c, p).Some? && p.size > 0.0 ==>
      p.entry.Some? && p.stop.Some? && PositionRisk(c, p).value >= Abs(p.entry.value - p.stop.value) * p.size
    ensures p.side == Long ==> (PositionRisk(c, p).Some? <==> p.size <= 0.0 || (p.entry.Some? && p.stop.Some? && 0.0 < p.stop.value < p.entry.value))
    ensures p.side == Short ==> (PositionRisk(c, p).Some? <==> p.size <= 0.0 || (p.entry.Some? && p.stop.Some? && 0.0 < p.entry.value < p.stop.value))
  {
    hide Notional;
    if p.size > 0.0 && p.entry.Some? && p.stop.Some? {
      AllowanceNonNegative(c, Notional(p));
      ProductOrder(0.0, Abs(p.entry.value - p.stop.value), p.size);
    }
  }

  lemma AllowanceNonNegative(c: Config, notional: real)
    requires ValidConfig(c)
    ensures Allowance(c, notional) >= 0.0
  {
    ProductOrder(0.0, Abs(notional), (c.feePct + c.slippagePct) / 100.0);
  }

  // ---------------------------------------------------------------- the budget over any sequence of admissions

  datatype Request = Request(signal: Signal, available: Option<real>, candles: seq<Candle>, today: int, valued: bool)

  datatype Book = Book(baseline: Baseline, positions: seq<Position>)

  function Serve(c: Config, equity: real, book: Book, req: Request): Book
    requires c.lookback >= 1
  {
    var next := EvaluateFrom(c, book.baseline, req.signal, Some(equity), req.available, book.positions, req.candles, req.today);
    Book(next.0, if next.1.Ready? then book.positions + [AdmittedPosition(next.1, req.valued)] else book.positions)
  }

  function ServeAll(c: Config, equity: real, book: Book, reqs: seq<Request>): Book
    requires c.lookback >= 1
    decreases |reqs|
  {
    if reqs == [] then book else Serve(c, equity, ServeAll(c, equity, book, reqs[..|reqs| - 1]), reqs[|reqs| - 1])
  }

  ghost predicate DistinctSymbols(ps: seq<Position>) {
    forall i, j :: 0 <= i < j < |ps| ==> ps[i].symbol != ps[j].symbol
  }

  /** Open risk known and within the cap, positions within the limit, one position per symbol. */
  ghost predicate WithinLimits(c: Config, equity: real, ps: seq<Position>) {
    && PortfolioRisk(c, ps).Some? && PortfolioRisk(c, ps).value <= equity * (c.maxOpenRiskPct / 100.0)
    && |ps| <= c.maxPositions && DistinctSymbols(ps)
  }

  lemma ServeKeepsLimits(c: Config, equity: real, book: Book, req: Request)
    requires ValidConfig(c) && WithinLimits(c, equity, book.positions)
    ensures WithinLimits(c, equity, Serve(c, equity, book, req).positions)
  {
    hide Admit, Loss, PortfolioRisk;
    var next := EvaluateFrom(c, book.baseline, req.signal, Some(equity), req.available, book.positions, req.candles, req.today);
    if next.1.Ready? {
      AdmissionWithinBudget(c, req.signal, equity, req.available.value, book.positions, req.candles, req.valued);
      AdmittedIsNew(c, req.signal, equity, req.available.value, book.positions, req.candles);
    }
  }

  lemma AdmittedIsNew(c: Config, signal: Signal, equity: real, available: real, positions: seq<Position>, candles: seq<Candle>)
    requires c.lookback >= 1 && Admit(c, signal, equity, available, positions, candles).Ready?
    ensures |positions| < c.maxPositions
    ensures Admit(c, signal, equity, available, positions, candles).symbol == signal.symbol
    ensures forall i :: 0 <= i < |positions| ==> positions[i].symbol != signal.symbol
  {
    hide PortfolioRisk, Levels, FloorQuantity, Allowance;
  }

  /** However many signals are served at unchanged equity, the portfolio stays within its limits. */
  lemma {:induction false} BudgetIsInductive(c: Config, equity: real, book: Book, reqs: seq<Request>)
    requires ValidConfig(c) && WithinLimits(c, equity, book.positions)
    ensures WithinLimits(c, equity, ServeAll(c, equity, book, reqs).positions)
    decreases |reqs|
  {
    hide Serve, WithinLimits;
    if reqs != [] {
      BudgetIsInductive(c, equity, book, reqs[..|reqs| - 1]);
      ServeKeepsLimits(c, equity, ServeAll(c, equity, book, reqs[..|reqs| - 1]), reqs[|reqs| - 1]);
    }
  }

  // ---------------------------------------------------------------- the baseline over one day

  datatype DayEvent = Check(equity: real) | Restart

  function DayStep(b: Baseline, today: int, e: DayEvent): Baseline {
    match e
    case Check(equity) => Rebased(b, today, equity)
    case Restart => Baseline(None, None, b.stored)
  }

  function DayRun(b: Baseline, today: int, events: seq<DayEvent>): Baseline
    decreases |events|
  {
    if events == [] then b else DayStep(DayRun(b, today, events[..|events| - 1]), today, events[|events| - 1])
  }

  /** With persistence, the first equity checked on a day stays its baseline through every later check
      and every restart, whatever the equity does. */
  lemma {:induction false} BaselineHoldsAllDay(b: Baseline, today: int, first: real, later: seq<DayEvent>)
    requires first > 0.0 && b.stored.Some? && today !in b.stored.value && b.day != Some(today)
    ensures var end := DayRun(Rebased(b, today, first), today, later);
      end.stored.Some? && today in end.stored.value && end.stored.value[today] == first
      && (end.day == Some(today) && end.equity.Some? ==> end.equity == Some(first))
    ensures forall equity :: Rebased(DayRun(Rebased(b, today, first), today, later), today, equity).equity == Some(first)
    decreases |later|
  {
    if later != [] {
      BaselineHoldsAllDay(b, today, first, later[..|later| - 1]);
    }
  }

  // ---------------------------------------------------------------- the daily loss limit

  /** The loss is the missing part of the baseline, in percent of it. */
  lemma LossPlainly(start: real, equity: real)
    requires start > 0.0
    ensures Loss(start, equity) >= 0.0
    ensures Loss(start, equity) * start == if equity >= start then 0.0 else 100.0 * (start - equity)
  {
    if equity < start {
      QuotientTimes(start - equity, start);
      QuotientOrder(start - equity, start, 0.0);
      assert (start - equity) / start * 100.0 * start == (start - equity) / start * start * 100.0;
    }
  }

  lemma LossAtLimit(start: real, equity: real, limit: real)
    requires start > 0.0 && limit > 0.0
    ensures Loss(start, equity) >= limit <==> 100.0 * equity <= (100.0 - limit) * start
  {
    hide Loss;
    LossPlainly(start, equity);
    LossOrder(Loss(start, equity), limit, start);
    assert (100.0 - limit) * start == 100.0 * start - limit * start;
    ProductPositive(limit, start);
  }

  lemma LossOrder(loss: real, limit: real, start: real)
    requires start > 0.0
    ensures loss >= limit <==> loss * start >= limit * start
  {
    if loss >= limit { ProductOrder(limit, loss, start); } else { ProductStrict(loss, limit, start); }
  }

  lemma AdmitsPastTheLimit(c: Config, signal: Signal, equity: real, available: real, positions: seq<Position>, candles: seq<Candle>)
    requires c.lookback >= 1
    ensures Admit(c, signal, equity, available, positions, candles) != Rejected(DailyLossLimit)
  {
    hide PortfolioRisk, Levels, FloorQuantity, Allowance, Exposure, RiskAmount, RiskBudget, Margin;
  }

  lemma RebasedPositive(b: Baseline, today: int, equity: real)
    requires equity > 0.0
    ensures Rebased(b, today, equity).equity.Some? && Rebased(b, today, equity).equity.value > 0.0
  {
  }

  /** With positive equity and capacity a signal is rejected for the daily loss exactly when the equity has fallen
      by the limit, in percent of the baseline that the evaluation leaves. */
  lemma DailyLossDecides(c: Config, b: Baseline, signal: Signal, equity: real, available: real, positions: seq<Position>,
                         candles: seq<Candle>, today: int)
    requires ValidConfig(c) && equity > 0.0 && available > 0.0
    ensures var next := EvaluateFrom(c, b, signal, Some(equity), Some(available), positions, candles, today);
      && next.0.equity.Some?
      && (next.1 == Rejected(DailyLossLimit) <==> 100.0 * equity <= (100.0 - c.dailyLossPct) * next.0.equity.value)
  {
    hide Admit, Loss, Rebased;
    RebasedPositive(b, today, equity);
    LossAtLimit(Rebased(b, today, equity).equity.value, equity, c.dailyLossPct);
    AdmitsPastTheLimit(c, signal, equity, available, positions, candles);
  }

  /** No signal of any sequence is admitted at or below that line. */
  lemma AdmittedAboveTheLine(c: Config, equity: real, book: Book, reqs: seq<Request>, req: Request)
    requires ValidConfig(c) && equity > 0.0
    requires var held := ServeAll(c, equity, book, reqs);
      |Serve(c, equity, held, req).positions| > |held.positions|
    ensures var next := Serve(c, equity, ServeAll(c, equity, book, reqs), req);
      next.baseline.equity.Some? && 100.0 * equity > (100.0 - c.dailyLossPct) * next.baseline.equity.value
  {
    hide Admit, Loss, Rebased, ServeAll;
    var held := ServeAll(c, equity, book, reqs);
    if req.available.Some? && req.available.value > 0.0 {
      DailyLossDecides(c, held.baseline, req.signal, equity, req.available.value, held.positions, req.candles, req.today);
    }
  }

  /** The baseline of a day: the stored one if it is positive, otherwise the equity of the first check; a later
      check of the same day keeps it, whatever the equity, and stores nothing. */
  lemma RebasedPlainly(b: Baseline, today: int, equity: real, later: real)
    requires equity > 0.0 && b.day != Some(today)
    ensures var first := Rebased(b, today, equity);
      && first.day == Some(today)
      && first.equity == Some(if b.stored.Some? && today in b.stored.value && b.stored.value[today] > 0.0 then b.stored.value[today] else equity)
      && (b.stored.Some? ==>
            && first.stored.Some? && today in first.stored.value
            && first.stored.value[today] == (if today in b.stored.value then b.stored.value[today] else equity))
      && (b.stored.None? ==> first.stored.None?)
      && Rebased(first, today, later) == first
  {
  }

  // ---------------------------------------------------------------- admission in plain numbers

  /** Costs are the configured percentages of the position's value. */
  lemma AllowancePlainly(c: Config, notional: real)
    ensures 100.0 * Allowance(c, notional) == Abs(notional) * (c.feePct + c.slippagePct)
  {
    var costs := c.feePct + c.slippagePct;
    assert costs / 100.0 * 100.0 == costs;
    assert Abs(notional) * (costs / 100.0) * 100.0 == Abs(notional) * (costs / 100.0 * 100.0);
  }

  /** The value the exchange reports for a position, or entry times size. */
  function Worth(p: Position): real
    requires p.entry.Some?
  {
    match p.value
    case Some(v) => if v == 0.0 then p.entry.value * p.size else v
    case None => p.entry.value * p.size
  }

  /** The risk of an open position: what it loses at its stop, plus the costs on its value. */
  lemma PositionRiskPlainly(c: Config, p: Position)
    requires PositionRisk(c, p).Some? && p.size > 0.0
    ensures p.entry.Some? && p.stop.Some?
    ensures 100.0 * (PositionRisk(c, p).value - Abs(p.entry.value - p.stop.value) * p.size) == Abs(Worth(p)) * (c.feePct + c.slippagePct)
  {
    hide Allowance;
    AllowancePlainly(c, Notional(p));
    assert Abs(Notional(p)) == Abs(Worth(p));
  }

  /** The floored quantity is a whole number of hundred-millionths. */
  lemma FloorQuantityWhole(riskAmount: real, distance: real)
    requires distance > 0.0
    ensures (FloorQuantity(riskAmount, distance) * QUANTITY_UNITS).Floor as real == FloorQuantity(riskAmount, distance) * QUANTITY_UNITS
  {
    var units := (riskAmount / distance * QUANTITY_UNITS).Floor as real;
    assert FloorQuantity(riskAmount, distance) * QUANTITY_UNITS == units;
  }

  /** The costs, the budget and the capacity that a READY decision was measured against. */
  lemma ReadyPlainly(c: Config, signal: Signal, equity: real, available: real, before: real, candles: seq<Candle>)
    requires ValidConfig(c) && Size(c, signal, equity, available, before, candles).Ready?
    ensures var r := Size(c, signal, equity, available, before, candles);
      && 100.0 * r.riskAmount == equity * c.riskPct
      && 100.0 * r.allowance == Abs(r.entry * r.quantity) * (c.feePct + c.slippagePct)
      && 100.0 * (before + r.riskAmount + r.allowance) <= equity * c.maxOpenRiskPct
      && r.entry * r.quantity + r.allowance * c.leverage <= available * c.leverage
  {
    hide Size, Allowance;
    ReadyPlan(c, signal, equity, available, before, candles);
    ReadyBudget(c, signal, equity, available, before, candles);
    var r := Size(c, signal, equity, available, before, candles);
    AllowancePlainly(c, Exposure(r.entry, r.quantity));
    Percent(equity, c.riskPct);
    Percent(equity, c.maxOpenRiskPct);
    QuotientOrder(r.entry * r.quantity, c.leverage, available - r.allowance);
    assert (available - r.allowance) * c.leverage == available * c.leverage - r.allowance * c.leverage;
  }

  lemma Percent(x: real, p: real)
    ensures 100.0 * (x * (p / 100.0)) == x * p
  {
    assert p / 100.0 * 100.0 == p;
    assert x * (p / 100.0) * 100.0 == x * (p / 100.0 * 100.0);
  }

  /** Exactly which signals are READY: known positive equity and capacity, the day's loss below its limit, a free
      place, no position of the symbol, open risk known, and a tradable stop whose position fits. */
  lemma ReadyExactly(c: Config, b: Baseline, signal: Signal, equity: Option<real>, available: Option<real>,
                     positions: seq<Position>, candles: seq<Candle>, today: int)
    requires ValidConfig(c)
    ensures var next := EvaluateFrom(c, b, signal, equity, available, positions, candles, today);
      next.1.Ready? <==>
      && equity.Some? && equity.value > 0.0 && available.Some? && available.value > 0.0
      && next.0.equity.Some? && 100.0 * equity.value > (100.0 - c.dailyLossPct) * next.0.equity.value
      && |positions| < c.maxPositions && (forall i :: 0 <= i < |positions| ==> positions[i].symbol != signal.symbol)
      && PortfolioRisk(c, positions).Some? && |candles| >= c.lookback
      && var stop := StructureStop(c, signal.side, candles[|candles| - c.lookback..]);
         Tradable(c, signal.side, signal.entry, stop)
         && Fits(c, equity.value, available.value, PortfolioRisk(c, positions).value, signal.entry, stop)
  {
    hide Size, Loss, Rebased, PortfolioRisk, StructureStop, Tradable, Fits;
    if equity.Some? && equity.value > 0.0 && available.Some? && available.value > 0.0 {
      DailyLossDecides(c, b, signal, equity.value, available.value, positions, candles, today);
      AdmitsPastTheLimit(c, signal, equity.value, available.value, positions, candles);
      if PortfolioRisk(c, positions).Some? {
        SizeAdmits(c, signal, equity.value, available.value, PortfolioRisk(c, positions).value, candles);
      }
    }
  }

  /** The reason names the first requirement that is not met, in this order. */
  lemma ReasonsInOrder(c: Config, b: Baseline, signal: Signal, equity: Option<real>, available: Option<real>,
                       positions: seq<Position>, candles: seq<Candle>, today: int)
    requires ValidConfig(c)
    ensures var next := EvaluateFrom(c, b, signal, equity, available, positions, candles, today);
      if equity.None? || equity.value <= 0.0 then next == (b, Rejected(InvalidAccountEquity))
      else if available.None? || available.value <= 0.0 then next == (b, Rejected(InsufficientAvailableBalance))
      else if next.0.equity.Some? && 100.0 * equity.value <= (100.0 - c.dailyLossPct) * next.0.equity.value then next.1 == Rejected(DailyLossLimit)
      else if |positions| >= c.maxPositions then next.1 == Rejected(MaxActivePositions)
      else if exists i :: 0 <= i < |positions| && positions[i].symbol == signal.symbol then next.1 == Rejected(DuplicateSymbolPosition)
      else if PortfolioRisk(c, positions).None? then next.1 == Rejected(OpenPositionRiskUnknown)
      else if |candles| < c.lookback then next.1 == Rejected(InsufficientStructureData)
      else var stop := StructureStop(c, signal.side, candles[|candles| - c.lookback..]);
        if !Tradable(c, signal.side, signal.entry, stop) then
          next.1 == Rejected(if signal.side == Sell && signal.entry < stop then InvalidTakeProfit else InvalidStopLoss)
        else if !Fits(c, equity.value, available.value, PortfolioRisk(c, positions).value, signal.entry, stop) then
          next.1 in {Rejected(InvalidPositionSize), Rejected(MaxOpenRiskExceeded), Rejected(InsufficientAvailableBalance)}
        else next.1.Ready?
  {
    hide Loss, Rebased, PortfolioRisk, StructureStop, Tradable, Fits, Levels, FloorQuantity, Allowance, Exposure, RiskAmount, RiskBudget, Margin;
    if equity.Some? && equity.value > 0.0 && available.Some? && available.value > 0.0 {
      DailyLossDecides(c, b, signal, equity.value, available.value, positions, candles, today);
      if PortfolioRisk(c, positions).Some? && |candles| >= c.lookback {
        var recent := candles[|candles| - c.lookback..];
        SizeAdmits(c, signal, equity.value, available.value, PortfolioRisk(c, positions).value, candles);
        LevelsExist(c, signal.side, signal.entry, recent);
        if Levels(c, signal.side, signal.entry, recent).Err? {
          LevelsRefuse(c, signal.side, signal.entry, recent);
        }
      }
    }
  }

  lemma LevelsRefuse(c: Config, side: Side, entry: real, recent: seq<Candle>)
    requires ValidConfig(c) && recent != [] && Levels(c, side, entry, recent).Err?
    ensures (Levels(c, side, entry, recent).error == "stop") <==> !(side == Sell && entry < StructureStop(c, side, recent))
  {
    hide Lowest, Highest;
    var stop := StructureStop(c, side, recent);
    if side == Buy && stop < entry {
      RatioLeavesRoom(entry - stop, c.minimumRr);
    }
    assert "target" != "stop";
  }
}
