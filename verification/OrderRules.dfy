/** Fitting order values to the exchange's quantity step and price tick. */
module OrderRules {
  import opened Prelude
  import opened Arithmetic

  /** `to_integral_value(ROUND_UP)` of a positive number. */
  function Ceiling(x: real): int {
    -((-x).Floor)
  }

  /** k whole steps. */
  function Grid(k: int, step: real): real {
    k as real * step
  }

  function FloorToStep(value: real, step: real): Result<real> {
    if value <= 0.0 || step <= 0.0 then Err("value and step must be positive")
    else Ok(Grid((value / step).Floor, step))
  }

  function CeilToStep(value: real, step: real): Result<real> {
    if value <= 0.0 || step <= 0.0 then Err("value and step must be positive")
    else Ok(Grid(Ceiling(value / step), step))
  }

  /** A multiple of the step. */
  ghost predicate OnGrid(value: real, step: real) {
    exists k: int :: value == Grid(k, step)
  }

  lemma UnitsBound(value: real, step: real, k: int)
    requires step > 0.0
    ensures Grid(k, step) <= value <==> k as real <= value / step
    ensures Grid(k, step) >= value <==> k as real >= value / step
  {
    QuotientOrder(value, step, k as real);
  }

  lemma NextUnit(k: int, step: real)
    ensures Grid(k + 1, step) == Grid(k, step) + step
    ensures Grid(0, step) == 0.0
  {
    assert (k + 1) as real == k as real + 1.0;
  }

  lemma GridOrder(k: int, l: int, step: real)
    requires step > 0.0 && k <= l
    ensures Grid(k, step) <= Grid(l, step)
  {
    ProductOrder(k as real, l as real, step);
  }

  lemma WholePart(x: real)
    ensures x.Floor as real <= x < (x.Floor + 1) as real
    ensures (Ceiling(x) - 1) as real < x <= Ceiling(x) as real
  {
  }

  /** The result is the grid point at or below the value nearest to it, less than a step away. */
  lemma FloorNearest(value: real, step: real)
    requires value > 0.0 && step > 0.0
    ensures FloorToStep(value, step).Ok?
    ensures var r := FloorToStep(value, step).value;
      OnGrid(r, step) && 0.0 <= r <= value < r + step
    ensures forall k: int :: Grid(k, step) <= value ==> Grid(k, step) <= FloorToStep(value, step).value
  {
    hide Grid;
    var x := value / step;
    var u := x.Floor;
    QuotientOrder(value, step, 0.0);
    WholePart(x);
    UnitsBound(value, step, u);
    UnitsBound(value, step, u + 1);
    NextUnit(u, step);
    GridOrder(0, u, step);
    forall k: int | Grid(k, step) <= value ensures Grid(k, step) <= Grid(u, step) {
      UnitsBound(value, step, k);
      GridOrder(k, u, step);
    }
  }

  /** The mirror statement for rounding up. */
  lemma CeilNearest(value: real, step: real)
    requires value > 0.0 && step > 0.0
    ensures CeilToStep(value, step).Ok?
    ensures var r := CeilToStep(value, step).value;
      OnGrid(r, step) && r - step < value <= r
    ensures forall k: int :: Grid(k, step) >= value ==> Grid(k, step) >= CeilToStep(value, step).value
  {
    hide Grid, Ceiling;
    var x := value / step;
    var u := Ceiling(x);
    WholePart(x);
    UnitsBound(value, step, u);
    UnitsBound(value, step, u - 1);
    NextUnit(u - 1, step);
    forall k: int | Grid(k, step) >= value ensures Grid(k, step) >= Grid(u, step) {
      UnitsBound(value, step, k);
      GridOrder(u, k, step);
    }
  }

  /** Values already on the grid are left alone, so rounding twice is rounding once. */
  lemma RoundingKeepsGrid(value: real, step: real)
    requires value > 0.0 && step > 0.0 && OnGrid(value, step)
    ensures FloorToStep(value, step) == Ok(value)
    ensures CeilToStep(value, step) == Ok(value)
  {
    hide Grid, FloorToStep, CeilToStep;
    FloorNearest(value, step);
    CeilNearest(value, step);
    var k: int :| value == Grid(k, step);
  }

  /** A value is moved by rounding exactly when it is off the grid. */
  lemma RoundingMovesOffGrid(value: real, step: real)
    requires value > 0.0 && step > 0.0
    ensures FloorToStep(value, step) == Ok(value) <==> OnGrid(value, step)
    ensures CeilToStep(value, step) == Ok(value) <==> OnGrid(value, step)
  {
    hide FloorToStep, CeilToStep;
    if OnGrid(value, step) {
      RoundingKeepsGrid(value, step);
    } else {
      FloorNearest(value, step);
      CeilNearest(value, step);
    }
  }

  // ---------------------------------------------------------------- normalization

  datatype Instrument = Instrument(qtyStep: real, minQty: real, maxQty: Option<real>,
                                   tick: real, minNotional: Option<real>)

  datatype Normalized = Normalized(quantity: real, stopLoss: real, takeProfit: real)

  function NormalizeLevels(side: Side, tick: real, stopLoss: real, takeProfit: real): Result<(real, real)> {
    var sl := if side == Buy then FloorToStep(stopLoss, tick) else CeilToStep(stopLoss, tick);
    var tp := if side == Buy then CeilToStep(takeProfit, tick) else FloorToStep(takeProfit, tick);
    if sl.Err? then Err(sl.error)
    else if tp.Err? then Err(tp.error)
    else if sl.value <= 0.0 || tp.value <= 0.0 then Err("Normalized SL/TP must be positive")
    else Ok((sl.value, tp.value))
  }

  function Normalize(info: Instrument, side: Side, quantity: real, entry: real,
                     stopLoss: real, takeProfit: real): Result<Normalized> {
    var qty := FloorToStep(quantity, info.qtyStep);
    if qty.Err? then Err(qty.error)
    else if qty.value < info.minQty then Err("Calculated quantity is below Bybit minimum order quantity")
    else if info.maxQty.Some? && qty.value > info.maxQty.value then
      Err("Calculated quantity exceeds Bybit maximum market order quantity")
    else if info.minNotional.Some? && qty.value * entry < info.minNotional.value then
      Err("Calculated order value is below Bybit minimum notional")
    else
      var levels := NormalizeLevels(side, info.tick, stopLoss, takeProfit);
      if levels.Err? then Err(levels.error)
      else Ok(Normalized(qty.value, levels.value.0, levels.value.1))
  }

  /** Reward per unit of risk of a plan. */
  function RewardRisk(entry: real, stopLoss: real, takeProfit: real): real
    requires stopLoss != entry
  {
    Abs(takeProfit - entry) / Abs(entry - stopLoss)
  }

  /** Stop and target on opposite sides of the entry, the stop on the losing side. */
  predicate ProtectivePlan(side: Side, entry: real, stopLoss: real, takeProfit: real) {
    match side
    case Buy => stopLoss < entry < takeProfit
    case Sell => takeProfit < entry < stopLoss
  }

  /** Quantity never grows; the stop moves outward and the target outward, each by less than a tick;
      an accepted order satisfies the exchange's limits. */
  lemma NormalizeMoves(info: Instrument, side: Side, quantity: real, entry: real, stopLoss: real, takeProfit: real)
    requires Normalize(info, side, quantity, entry, stopLoss, takeProfit).Ok?
    ensures var n := Normalize(info, side, quantity, entry, stopLoss, takeProfit).value;
      quantity - info.qtyStep < n.quantity <= quantity
      && OnGrid(n.quantity, info.qtyStep) && OnGrid(n.stopLoss, info.tick) && OnGrid(n.takeProfit, info.tick)
      && n.quantity >= info.minQty && (info.maxQty.Some? ==> n.quantity <= info.maxQty.value)
      && n.stopLoss > 0.0 && n.takeProfit > 0.0
    ensures var n := Normalize(info, side, quantity, entry, stopLoss, takeProfit).value;
      side == Buy ==> stopLoss - info.tick < n.stopLoss <= stopLoss && takeProfit <= n.takeProfit < takeProfit + info.tick
    ensures var n := Normalize(info, side, quantity, entry, stopLoss, takeProfit).value;
      side == Sell ==> stopLoss <= n.stopLoss < stopLoss + info.tick && takeProfit - info.tick < n.takeProfit <= takeProfit
  {
    hide OnGrid, Grid, Ceiling;
    FloorNearest(quantity, info.qtyStep);
    FloorNearest(stopLoss, info.tick);
    CeilNearest(stopLoss, info.tick);
    FloorNearest(takeProfit, info.tick);
    CeilNearest(takeProfit, info.tick);
  }

  /** With planned risk d and ratio rr, the fitted plan still offers at least rr * d / (d + tick). */
  lemma NormalizeKeepsRewardRisk(info: Instrument, side: Side, quantity: real, entry: real, stopLoss: real, takeProfit: real)
    requires ProtectivePlan(side, entry, stopLoss, takeProfit)
    requires Normalize(info, side, quantity, entry, stopLoss, takeProfit).Ok?
    ensures var n := Normalize(info, side, quantity, entry, stopLoss, takeProfit).value;
      var d := Abs(entry - stopLoss);
      ProtectivePlan(side, entry, n.stopLoss, n.takeProfit)
      && RewardRisk(entry, n.stopLoss, n.takeProfit)
         >= RewardRisk(entry, stopLoss, takeProfit) * d / (d + info.tick)
  {
    hide OnGrid, Normalize;
    NormalizeMoves(info, side, quantity, entry, stopLoss, takeProfit);
    TickIsPositive(info, side, quantity, entry, stopLoss, takeProfit);
    var n := Normalize(info, side, quantity, entry, stopLoss, takeProfit).value;
    RatioBound(Abs(takeProfit - entry), Abs(entry - stopLoss),
               Abs(n.takeProfit - entry), Abs(entry - n.stopLoss), info.tick);
  }

  lemma TickIsPositive(info: Instrument, side: Side, quantity: real, entry: real, stopLoss: real, takeProfit: real)
    requires Normalize(info, side, quantity, entry, stopLoss, takeProfit).Ok?
    ensures info.tick > 0.0 && info.qtyStep > 0.0
  {
  }

  lemma RatioBound(gain: real, risk: real, gain': real, risk': real, tick: real)
    requires 0.0 < risk <= risk' < risk + tick && 0.0 <= gain <= gain'
    ensures gain' / risk' >= gain / risk * risk / (risk + tick)
  {
    QuotientTimes(gain, risk);
    var bound := gain / (risk + tick);
    QuotientTimes(gain, risk + tick);
    QuotientOrder(gain, risk + tick, 0.0);
    ProductOrder(risk', risk + tick, bound);
    QuotientOrder(gain', risk', bound);
  }

  /** A limit that lies on the grid is met after rounding exactly when it is met before. */
  lemma LimitsSurviveRounding(value: real, step: real, limit: real)
    requires value > 0.0 && step > 0.0 && OnGrid(limit, step)
    ensures FloorToStep(value, step).value >= limit <==> value >= limit
    ensures CeilToStep(value, step).value <= limit <==> value <= limit
  {
    hide Grid, FloorToStep, CeilToStep;
    FloorNearest(value, step);
    CeilNearest(value, step);
    var k: int :| limit == Grid(k, step);
    assert Grid(k, step) <= value ==> Grid(k, step) <= FloorToStep(value, step).value;
    assert Grid(k, step) >= value ==> Grid(k, step) >= CeilToStep(value, step).value;
  }

  lemma StepIsOnGrid(step: real)
    ensures Grid(1, step) == step && Grid(0, step) == 0.0
    ensures OnGrid(step, step)
  {
    assert step == Grid(1, step);
  }

  /** Levels can be fitted exactly when they are positive and the one that is rounded down, the stop of a
      long or the target of a short, is at least one tick. */
  lemma LevelsFit(side: Side, tick: real, stopLoss: real, takeProfit: real)
    ensures NormalizeLevels(side, tick, stopLoss, takeProfit).Ok? <==>
      tick > 0.0 && stopLoss > 0.0 && takeProfit > 0.0 && (if side == Buy then stopLoss else takeProfit) >= tick
  {
    hide Grid, Ceiling, FloorToStep, CeilToStep, OnGrid;
    RoundingRefuses(stopLoss, tick);
    RoundingRefuses(takeProfit, tick);
    if tick > 0.0 && stopLoss > 0.0 && takeProfit > 0.0 {
      FirstTick(stopLoss, tick);
      FirstTick(takeProfit, tick);
      CeilNearest(stopLoss, tick);
      CeilNearest(takeProfit, tick);
    }
  }

  lemma RoundingRefuses(value: real, step: real)
    ensures FloorToStep(value, step).Ok? <==> value > 0.0 && step > 0.0
    ensures CeilToStep(value, step).Ok? <==> value > 0.0 && step > 0.0
  {
  }

  /** Flooring leaves something exactly when the value is at least a step. */
  lemma FirstTick(value: real, step: real)
    requires value > 0.0 && step > 0.0
    ensures FloorToStep(value, step).Ok? && (FloorToStep(value, step).value > 0.0 <==> value >= step)
  {
    hide Grid;
    var units := (value / step).Floor;
    StepIsOnGrid(step);
    QuotientOrder(value, step, 1.0);
    QuotientOrder(value, step, 0.0);
    if units >= 1 {
      GridOrder(1, units, step);
    } else {
      assert units == 0;
    }
  }

  /** The largest multiple of the step that is not above the value. */
  ghost predicate FlooredTo(value: real, step: real, floored: real) {
    OnGrid(floored, step) && floored <= value < floored + step
  }

  lemma FlooredUnique(value: real, step: real, floored: real)
    requires value > 0.0 && step > 0.0
    ensures FlooredTo(value, step, floored) <==> FloorToStep(value, step) == Ok(floored)
  {
    hide Grid, FloorToStep;
    FloorNearest(value, step);
    if FlooredTo(value, step, floored) {
      var k: int :| floored == Grid(k, step);
      var r := FloorToStep(value, step).value;
      var l: int :| r == Grid(l, step);
      assert Grid(k, step) <= r;
      if k < l {
        NextUnit(k, step);
        GridOrder(k + 1, l, step);
      } else {
        GridOrder(l, k, step);
      }
    }
  }

  /** On any instrument: an order is accepted exactly when quantity, step, tick and levels are positive, some
      multiple of the step just below the quantity meets the exchange's limits, and the level that is
      rounded down is at least one tick. That multiple is the accepted quantity. */
  lemma NormalizeAccepts(info: Instrument, side: Side, quantity: real, entry: real, stopLoss: real, takeProfit: real, floored: real)
    ensures Normalize(info, side, quantity, entry, stopLoss, takeProfit).Ok?
            && Normalize(info, side, quantity, entry, stopLoss, takeProfit).value.quantity == floored <==>
      && quantity > 0.0 && info.qtyStep > 0.0 && info.tick > 0.0 && stopLoss > 0.0 && takeProfit > 0.0
      && FlooredTo(quantity, info.qtyStep, floored)
      && floored >= info.minQty && (info.maxQty.Some? ==> floored <= info.maxQty.value)
      && (info.minNotional.Some? ==> floored * entry >= info.minNotional.value)
      && (if side == Buy then stopLoss else takeProfit) >= info.tick
  {
    hide FloorToStep, NormalizeLevels, OnGrid, FlooredTo;
    RoundingRefuses(quantity, info.qtyStep);
    LevelsFit(side, info.tick, stopLoss, takeProfit);
    if quantity > 0.0 && info.qtyStep > 0.0 {
      FlooredUnique(quantity, info.qtyStep, floored);
    }
  }
}
