/** The order protocol as small steps. Each step writes one row, sends one request, or takes in the
    exchange's answer to one; a crash or a cancelled await may fall between any two of them. */
module ExecutionProtocol {
  import opened Prelude
  import opened ExecutionStore
  import OrderRules

  // ---------------------------------------------------------------- requests and answers

  datatype Decision = Decision(ready: bool, signalId: string, symbol: string, side: Side, entry: real,
                               quantity: Option<real>, stopLoss: Option<real>, takeProfit: Option<real>,
                               leverage: Option<real>, rewardRisk: Option<real>, riskAmount: Option<real>,
                               maxOpenRisk: Option<real>, stopPlaces: nat, targetPlaces: nat)

  datatype Settings = Settings(maxSlippagePct: real, minimumRr: real)

  /** The values the exchange client fitted to its instrument. */
  type Normalized = OrderRules.Normalized

  /** A decimal field of an exchange row. */
  datatype Field = Absent | Malformed | Number(value: real)

  datatype OrderRow = OrderRow(orderStatus: string, orderId: Option<string>, avgPrice: Field, cumExecQty: Field)

  /** What a call to the exchange may come back with. */
  datatype Answer = Accepted | NormalizedTo(values: Normalized) | Acked(orderId: string, linkId: Option<string>)
                  | Found(row: OrderRow) | NotFound | ConnectionError | ApiError | ValueError | OtherError

  /** A call of place_order. */
  datatype Order = Order(link: string, symbol: string, side: Side, quantity: real, reduceOnly: bool)

  /** A stop-loss/take-profit pair the exchange accepted. */
  datatype Protection = Protection(symbol: string, stopLoss: real, takeProfit: real)

  datatype World = World(rows: Table, sent: seq<Order>, stops: seq<Protection>)

  function OrderLink(signalId: string): string {
    "bot-" + signalId
  }

  function IntentId(signalId: string): string {
    "exec-" + signalId
  }

  function TextOr(text: Option<string>, fallback: Option<string>): Option<string> {
    if text.Some? && text.value != "" then text else fallback
  }

  // ---------------------------------------------------------------- gates after the fill

  function Pow10(n: nat): (r: real)
    ensures r >= 1.0
  {
    if n == 0 then 1.0 else 10.0 * Pow10(n - 1)
  }

  function RoundHalfEven(x: real): int {
    var below := x.Floor;
    var rest := x - below as real;
    if rest < 0.5 then below
    else if rest > 0.5 then below + 1
    else if below % 2 == 0 then below else below + 1
  }

  /** Decimal.quantize to the given number of places. */
  function Quantize(x: real, places: nat): real {
    RoundHalfEven(x * Pow10(places)) as real / Pow10(places)
  }

  const TAKER_FEE_RATE := 0.00055

  function SlippageAbs(side: Side, entry: real, price: real): real {
    if side == Buy then price - entry else entry - price
  }

  function SlippagePct(slippageAbs: real, entry: real): real
    requires entry != 0.0
  {
    slippageAbs / entry * 100.0
  }

  function RiskAt(price: real, stop: real, quantity: real): real {
    Abs(price - stop) * quantity
  }

  /** Stop and target re-anchored at the price actually paid, before rounding. */
  function Anchored(side: Side, price: real, distance: real, rewardRisk: real): (real, real) {
    if side == Buy then (price - distance, price + distance * rewardRisk)
    else (price + distance, price - distance * rewardRisk)
  }

  function RiskCap(d: Decision): Option<real> {
    if d.maxOpenRisk.Some? && d.maxOpenRisk.value != 0.0 then d.maxOpenRisk
    else if d.riskAmount.Some? then Some(d.riskAmount.value * 1.5)
    else None
  }

  function FeeAmount(price: real, quantity: real): real {
    price * quantity * TAKER_FEE_RATE * 2.0
  }

  /** Reward to risk after entry and exit fees; the planned ratio when there is nothing at risk. */
  function EffectiveRr(price: real, quantity: real, stop: real, target: real, planned: real): real {
    var fee := FeeAmount(price, quantity);
    var profit := Abs(target - price) * quantity - fee;
    var loss := Abs(price - stop) * quantity + fee;
    if loss > 0.0 then profit / loss else planned
  }

  datatype Verdict = Abort                                    // a missing field makes the arithmetic raise
                   | Close(link: string, fill: Fill)          // a gate failed: emergency close
                   | Protect(stop: real, target: real, fill: Fill)

  function Gate(cfg: Settings, d: Decision, price: real, quantity: real): Verdict {
    if d.entry == 0.0 then Abort else
    var slippageAbs := SlippageAbs(d.side, d.entry, price);
    var slippagePct := SlippagePct(slippageAbs, d.entry);
    var slipped := NO_FILL.(quantity := Some(quantity), price := Some(price),
                            slippageAbs := Some(slippageAbs), slippagePct := Some(slippagePct));
    if slippagePct > cfg.maxSlippagePct then Close("close-", slipped) else
    if d.stopLoss.None? || d.takeProfit.None? || d.rewardRisk.None? then Abort else
    var anchored := Anchored(d.side, price, Abs(d.entry - d.stopLoss.value), d.rewardRisk.value);
    var stop := Quantize(anchored.0, d.stopPlaces);
    var target := Quantize(anchored.1, d.targetPlaces);
    var actualRisk := RiskAt(price, stop, quantity);
    var cap := RiskCap(d);
    if cap.None? then Abort else
    var risked := slipped.(actualRisk := Some(actualRisk));
    if actualRisk > cap.value then Close("close-risk-", risked) else
    var rr := EffectiveRr(price, quantity, stop, target, d.rewardRisk.value);
    var rated := risked.(finalRr := Some(rr));
    var fees := Some(FeeAmount(price, quantity));
    if rr < cfg.minimumRr then Close("close-rr-", rated.(fees := fees))
    else Protect(stop, target, rated.(intendedRisk := d.riskAmount, fees := fees))
  }

  // ---------------------------------------------------------------- phases of one execution

  datatype Phase =
    | Normalizing
    | Checking(values: Normalized)
    | Leveraging(pending: Execution)
    | Sending(submitted: Execution)
    | AwaitingAck(submitted: Execution)
    | Polling(acked: Execution, polls: nat, price: Option<real>, quantity: real)
    | Protecting(attempts: nat, acked: Execution, stop: real, target: real, fill: Fill)
    | Closing(order: Order, failed: Execution)
    | AwaitingClose(failed: Execution)
    | Saving(row: Execution, next: Phase)
    | Done(result: Execution)
    | Raised

  predicate Finished(ph: Phase) {
    ph.Done? || ph.Raised?
  }

  /** A result that was never stored. */
  function Refusal(d: Decision, status: Status): Execution {
    Execution(status, d.signalId, d.symbol, d.side, NO_IDENTITY, None, None, NO_PLAN, NO_FILL)
  }

  /** The checks made before anything is awaited. */
  function Begin(d: Decision, writable: bool): Phase {
    if !d.ready then Done(Refusal(d, Rejected))
    else if !writable then Done(Refusal(d, Failed))
    else if d.quantity.None? || d.stopLoss.None? || d.takeProfit.None? || d.leverage.None? then
      Done(Refusal(d, Rejected))
    else Normalizing
  }

  function PendingRow(d: Decision, n: Normalized): Execution {
    var hash := RequestHash(d.signalId, d.symbol, d.side, n.quantity, d.entry, n.stopLoss, n.takeProfit,
                            if d.leverage.Some? then d.leverage.value else 0.0);
    Execution(Pending, d.signalId, d.symbol, d.side,
              Identity(Some(IntentId(d.signalId)), Some((d.signalId, hash)), Some(hash)),
              None, Some(OrderLink(d.signalId)),
              Plan(Some(n.quantity), Some(d.entry), Some(n.stopLoss), Some(n.takeProfit), d.leverage), NO_FILL)
  }

  function PlannedQuantity(r: Execution): real {
    if r.plan.quantity.Some? then r.plan.quantity.value else 0.0
  }

  function EntryOrder(d: Decision, submitted: Execution): Order {
    Order(OrderLink(d.signalId), d.symbol, d.side, PlannedQuantity(submitted), false)
  }

  function CloseOrder(d: Decision, prefix: string, quantity: real): Order {
    Order(prefix + OrderLink(d.signalId), d.symbol, d.side.Opposite(), quantity, true)
  }

  function Conclude(row: Execution, status: Status): Phase {
    Saving(row.(status := status), Done(row.(status := status)))
  }

  /** The loop variables after one poll; the flag says the loop breaks. */
  function AfterPoll(a: Answer, price: Option<real>, quantity: real): (Option<real>, real, bool) {
    if !(a.Found? && (a.row.orderStatus == "Filled" || a.row.orderStatus == "PartiallyFilled")) then
      (price, quantity, false)
    else if a.row.avgPrice.Malformed? then (price, quantity, false)
    else
      var seen := if a.row.avgPrice.Number? then Some(a.row.avgPrice.value) else price;
      if a.row.cumExecQty.Malformed? then (seen, quantity, false)
      else
        var filled := if a.row.cumExecQty.Number? then a.row.cumExecQty.value else quantity;
        (seen, filled, seen.Some? && seen.value > 0.0)
  }

  /** What follows the polling loop. */
  function Judge(cfg: Settings, d: Decision, acked: Execution, price: Option<real>, quantity: real): Phase {
    if price.None? || price.value <= 0.0 then Conclude(acked, UnknownReconciling)
    else
      match Gate(cfg, d, price.value, quantity)
      case Abort => Raised
      case Close(prefix, fill) => Closing(CloseOrder(d, prefix, quantity), acked.(status := Failed, fill := fill))
      case Protect(stop, target, fill) => Protecting(0, acked, stop, target, fill)
  }

  function FilledRow(ph: Phase): Execution
    requires ph.Protecting?
  {
    ph.acked.(status := Filled, fill := ph.fill,
              plan := ph.acked.plan.(stopLoss := Some(ph.stop), takeProfit := Some(ph.target)))
  }

  function UnprotectedRow(ph: Phase): Execution
    requires ph.Protecting?
  {
    ph.acked.(status := Failed, fill := ph.fill.(intendedRisk := None, fees := None))
  }

  function FilledQuantity(fill: Fill): real {
    if fill.quantity.Some? then fill.quantity.value else 0.0
  }

  function AfterAck(submitted: Execution, a: Answer): Phase {
    match a
    case Acked(orderId, linkId) =>
      var acked := submitted.(status := Acknowledged, orderId := Some(orderId),
                              orderLinkId := TextOr(linkId, submitted.orderLinkId));
      Saving(acked, Polling(acked, 0, None, 0.0))
    case ApiError => Conclude(submitted, Rejected)
    case ValueError => Conclude(submitted, Failed)
    case _ => Conclude(submitted, UnknownReconciling)
  }

  function AfterProtect(d: Decision, ph: Phase, a: Answer): Phase
    requires ph.Protecting?
  {
    if a.Accepted? then Saving(FilledRow(ph), Done(FilledRow(ph)))
    else if ph.attempts + 1 < 3 then ph.(attempts := ph.attempts + 1)
    else Closing(CloseOrder(d, "close-prot-", FilledQuantity(ph.fill)), UnprotectedRow(ph))
  }

  /** One step of `execute`. The answer matters only in the phases that wait for one. */
  function Step(cfg: Settings, d: Decision, w: World, ph: Phase, a: Answer): (World, Phase) {
    match ph
    case Normalizing => (w, if a.NormalizedTo? then Checking(a.values) else Raised)
    case Checking(values) =>
      if d.signalId in w.rows then (w, Done(w.rows[d.signalId]))
      else (w.(rows := Upsert(w.rows, PendingRow(d, values))), Leveraging(PendingRow(d, values)))
    case Leveraging(pending) =>
      (w, if a.Accepted? then Saving(pending.(status := Submitted), Sending(pending.(status := Submitted)))
          else Conclude(pending, Failed))
    case Sending(submitted) => (w.(sent := w.sent + [EntryOrder(d, submitted)]), AwaitingAck(submitted))
    case AwaitingAck(submitted) => (w, AfterAck(submitted, a))
    case Polling(acked, polls, price, quantity) =>
      var seen := AfterPoll(a, price, quantity);
      (w, if seen.2 || polls + 1 >= 10 then Judge(cfg, d, acked, seen.0, seen.1)
          else Polling(acked, polls + 1, seen.0, seen.1))
    case Protecting(_, _, stop, target, _) =>
      (if a.Accepted? then w.(stops := w.stops + [Protection(d.symbol, stop, target)]) else w, AfterProtect(d, ph, a))
    case Closing(order, failed) => (w.(sent := w.sent + [order]), AwaitingClose(failed))
    case AwaitingClose(failed) => (w, Saving(failed, Done(failed)))
    case Saving(row, next) => (w.(rows := Upsert(w.rows, row)), next)
    case Done(_) => (w, ph)
    case Raised => (w, ph)
  }

  /** Whether a step consumes an answer of the exchange. */
  predicate Awaits(ph: Phase) {
    ph.Normalizing? || ph.Leveraging? || ph.AwaitingAck? || ph.Polling? || ph.Protecting? || ph.AwaitingClose?
  }

  /** Steps left at most. */
  function Rank(ph: Phase): nat {
    match ph
    case Done(_) => 0
    case Raised => 0
    case Saving(_, next) => 1 + Rank(next)
    case AwaitingClose(_) => 2
    case Closing(_, _) => 3
    case Protecting(attempts, _, _, _, _) => if attempts < 3 then 7 - attempts else 4
    case Polling(_, polls, _, _) => if polls < 10 then 18 - polls else 8
    case AwaitingAck(_) => 20
    case Sending(_) => 21
    case Leveraging(_) => 23
    case Checking(_) => 24
    case Normalizing => 25
  }

  lemma StepTerminates(cfg: Settings, d: Decision, w: World, ph: Phase, a: Answer)
    requires !Finished(ph)
    ensures Rank(Step(cfg, d, w, ph, a).1) < Rank(ph)
  {
    hide Gate, AfterPoll, EntryOrder, CloseOrder, Upsert, PendingRow;
  }

  type Oracle = nat -> Answer

  /** Runs an execution to its end against an exchange that gives its i-th answer from `o`. */
  function Finish(cfg: Settings, d: Decision, w: World, ph: Phase, o: Oracle, i: nat): (World, Phase)
    decreases Rank(ph)
  {
    if Finished(ph) then (w, ph)
    else
      StepTerminates(cfg, d, w, ph, o(i));
      var next := Step(cfg, d, w, ph, o(i));
      Finish(cfg, d, next.0, next.1, o, if Awaits(ph) then i + 1 else i)
  }

  // ---------------------------------------------------------------- recovery

  function DecimalOrNone(f: Field): Option<real> {
    if f.Number? then Some(f.value) else None
  }

  function MappedStatus(raw: string): Status {
    if raw == "New" || raw == "Created" || raw == "Untriggered" then Acknowledged
    else if raw == "PartiallyFilled" then PartiallyFilled
    else if raw == "Filled" then Filled
    else if raw == "Cancelled" || raw == "Canceled" || raw == "Deactivated" then Cancelled
    else if raw == "Rejected" then Rejected
    else UnknownReconciling
  }

  function FromExchangeRow(intent: Execution, row: OrderRow): Execution {
    intent.(status := MappedStatus(row.orderStatus),
            orderId := TextOr(row.orderId, intent.orderId),
            fill := intent.fill.(quantity := DecimalOrNone(row.cumExecQty), price := DecimalOrNone(row.avgPrice)))
  }

  /** The result recovery stores for one unresolved intent. */
  function Resolved(intent: Execution, a: Answer): Execution {
    if intent.orderLinkId.None? || intent.orderLinkId.value == "" then intent.(status := UnknownReconciling)
    else if a.Found? then FromExchangeRow(intent, a.row)
    else intent.(status := UnknownReconciling)
  }
}
