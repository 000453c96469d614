/** How an acknowledged entry ends, for every behaviour of the exchange. */
module ExecutionOutcome {
  import opened Prelude
  import opened Arithmetic
  import opened ExecutionStore
  import opened ExecutionProtocol

  // ---------------------------------------------------------------- the four endings

  /** Nothing more was sent and the outcome is left to reconciliation. */
  ghost predicate LeftUnknown(w: World, out: (World, Phase)) {
    out.1.Done? && out.1.result.status == UnknownReconciling
    && out.0 == w.(rows := Upsert(w.rows, out.1.result))
  }

  /** A failed result that records the observed fill, after exactly one more request: opposite side,
      reduce-only, for the observed quantity. */
  ghost predicate ClosedOut(d: Decision, w: World, price: real, quantity: real, out: (World, Phase)) {
    out.1.Done? && out.1.result.status == Failed
    && out.1.result.fill.price == Some(price) && out.1.result.fill.quantity == Some(quantity)
    && exists link :: out.0 == w.(rows := Upsert(w.rows, out.1.result),
                                  sent := w.sent + [Order(link, d.symbol, d.side.Opposite(), quantity, true)])
  }

  /** The result records the observed fill, every gate holds there, nothing more was sent, and the exchange
      accepted exactly the stored levels. */
  ghost predicate FilledProtected(cfg: Settings, d: Decision, w: World, price: real, quantity: real, out: (World, Phase)) {
    out.1.Done? && out.1.result.status == Filled
    && var r := out.1.result;
       r.fill.price == Some(price) && r.fill.quantity == Some(quantity) && r.plan.stopLoss.Some? && r.plan.takeProfit.Some?
       && GatesHold(cfg, d, price, quantity, r.plan.stopLoss.value, r.plan.takeProfit.value)
       && out.0 == w.(rows := Upsert(w.rows, r),
                      stops := w.stops + [Protection(d.symbol, r.plan.stopLoss.value, r.plan.takeProfit.value)])
  }

  /** The arithmetic raised on an incomplete decision; the row still says ACKNOWLEDGED. */
  ghost predicate Aborted(d: Decision, w: World, out: (World, Phase)) {
    out.1.Raised? && out.0 == w && !Complete(d)
  }

  /** The fields the arithmetic after the fill reads are all there. */
  predicate Complete(d: Decision) {
    d.entry != 0.0 && d.stopLoss.Some? && d.takeProfit.Some? && d.rewardRisk.Some? && RiskCap(d).Some?
  }

  /** Final stop and target: the planned distances re-anchored at the fill and rounded. */
  function Levels(d: Decision, price: real): (real, real)
    requires Complete(d)
  {
    var anchored := Anchored(d.side, price, Abs(d.entry - d.stopLoss.value), d.rewardRisk.value);
    (Quantize(anchored.0, d.stopPlaces), Quantize(anchored.1, d.targetPlaces))
  }

  /** Slippage within the limit, actual risk within the cap, reward to risk at least the minimum. */
  ghost predicate Passes(cfg: Settings, d: Decision, price: real, quantity: real) {
    && Complete(d) && price > 0.0
    && SlippageAbs(d.side, d.entry, price) / d.entry * 100.0 <= cfg.maxSlippagePct
    && Abs(price - Levels(d, price).0) * quantity <= RiskCap(d).value
    && EffectiveRr(price, quantity, Levels(d, price).0, Levels(d, price).1, d.rewardRisk.value) >= cfg.minimumRr
  }

  ghost predicate GatesHold(cfg: Settings, d: Decision, price: real, quantity: real, stop: real, target: real) {
    Passes(cfg, d, price, quantity) && (stop, target) == Levels(d, price)
  }

  /** One of the three attempts to set stop and target is accepted. */
  ghost predicate AcceptedWithin(o: Oracle, i: nat, attempts: nat) {
    exists k :: i <= k < i + attempts && o(k).Accepted?
  }

  lemma GateMeaning(cfg: Settings, d: Decision, price: real, quantity: real)
    requires price > 0.0
    ensures var v := Gate(cfg, d, price, quantity);
      && (v.Protect? <==> Passes(cfg, d, price, quantity))
      && (v.Abort? ==> !Complete(d))
      && (v.Close? ==> v.fill.price == Some(price) && v.fill.quantity == Some(quantity))
      && (v.Protect? ==> GatesHold(cfg, d, price, quantity, v.stop, v.target)
                         && v.fill.price == Some(price) && v.fill.quantity == Some(quantity))
  {
    hide Quantize, EffectiveRr, Anchored, RiskCap, SlippageAbs;
  }

  lemma FinishStep(cfg: Settings, d: Decision, w: World, ph: Phase, o: Oracle, i: nat)
    requires !Finished(ph)
    ensures var next := Step(cfg, d, w, ph, o(i));
      Finish(cfg, d, w, ph, o, i) == Finish(cfg, d, next.0, next.1, o, if Awaits(ph) then i + 1 else i)
  {
    hide Step, Rank;
  }

  lemma ConcludeEnds(cfg: Settings, d: Decision, w: World, row: Execution, o: Oracle, i: nat)
    ensures Finish(cfg, d, w, Saving(row, Done(row)), o, i) == (w.(rows := Upsert(w.rows, row)), Done(row))
  {
    hide Finish, Upsert;
    FinishStep(cfg, d, w, Saving(row, Done(row)), o, i);
    FinishedStays(cfg, d, w.(rows := Upsert(w.rows, row)), Done(row), o, i);
  }

  lemma FinishedStays(cfg: Settings, d: Decision, w: World, ph: Phase, o: Oracle, i: nat)
    requires Finished(ph)
    ensures Finish(cfg, d, w, ph, o, i) == (w, ph)
  {
  }

  lemma ClosingEnds(cfg: Settings, d: Decision, w: World, order: Order, failed: Execution, o: Oracle, i: nat)
    ensures Finish(cfg, d, w, Closing(order, failed), o, i)
      == (w.(rows := Upsert(w.rows, failed), sent := w.sent + [order]), Done(failed))
  {
    hide Finish, Upsert;
    var w' := w.(sent := w.sent + [order]);
    FinishStep(cfg, d, w, Closing(order, failed), o, i);
    FinishStep(cfg, d, w', AwaitingClose(failed), o, i);
    ConcludeEnds(cfg, d, w', failed, o, i + 1);
  }

  lemma ClosingSettles(cfg: Settings, d: Decision, w: World, prefix: string, failed: Execution, o: Oracle, i: nat)
    requires failed.status == Failed && failed.fill.price.Some? && failed.fill.quantity.Some?
    ensures ClosedOut(d, w, failed.fill.price.value, failed.fill.quantity.value,
                      Finish(cfg, d, w, Closing(CloseOrder(d, prefix, failed.fill.quantity.value), failed), o, i))
  {
    hide Finish, Upsert;
    ClosingEnds(cfg, d, w, CloseOrder(d, prefix, failed.fill.quantity.value), failed, o, i);
  }

  lemma {:induction false} ProtectingSettles(cfg: Settings, d: Decision, w: World, ph: Phase, o: Oracle, i: nat)
    requires ph.Protecting? && ph.attempts < 3 && ph.fill.price.Some? && ph.fill.quantity.Some?
    requires GatesHold(cfg, d, ph.fill.price.value, ph.fill.quantity.value, ph.stop, ph.target)
    ensures var out := Finish(cfg, d, w, ph, o, i);
      var price, quantity := ph.fill.price.value, ph.fill.quantity.value;
      && (if AcceptedWithin(o, i, 3 - ph.attempts) then FilledProtected(cfg, d, w, price, quantity, out)
          else ClosedOut(d, w, price, quantity, out))
      && (out.1.Done? && out.1.result.status == Filled ==>
            out.1.result.plan.stopLoss == Some(ph.stop) && out.1.result.plan.takeProfit == Some(ph.target))
    decreases Rank(ph)
  {
    hide Finish, Upsert, GatesHold, CloseOrder;
    FinishStep(cfg, d, w, ph, o, i);
    if o(i).Accepted? {
      ConcludeEnds(cfg, d, w.(stops := w.stops + [Protection(d.symbol, ph.stop, ph.target)]), FilledRow(ph), o, i + 1);
    } else if ph.attempts + 1 < 3 {
      ProtectingSettles(cfg, d, w, ph.(attempts := ph.attempts + 1), o, i + 1);
      assert AcceptedWithin(o, i, 3 - ph.attempts) <==> AcceptedWithin(o, i + 1, 2 - ph.attempts);
    } else {
      ClosingSettles(cfg, d, w, "close-prot-", UnprotectedRow(ph), o, i + 1);
    }
  }

  /** The ending that an observed fill, and the answers from `i` on, lead to. */
  ghost predicate Deserved(cfg: Settings, d: Decision, w: World, price: Option<real>, quantity: real,
                           o: Oracle, i: nat, out: (World, Phase)) {
    if price.None? || price.value <= 0.0 then LeftUnknown(w, out)
    else if Passes(cfg, d, price.value, quantity) then
      if AcceptedWithin(o, i, 3) then FilledProtected(cfg, d, w, price.value, quantity, out)
      else ClosedOut(d, w, price.value, quantity, out)
    else ClosedOut(d, w, price.value, quantity, out) || Aborted(d, w, out)
  }

  lemma JudgeSettles(cfg: Settings, d: Decision, w: World, acked: Execution, price: Option<real>, quantity: real, o: Oracle, i: nat)
    ensures Deserved(cfg, d, w, price, quantity, o, i, Finish(cfg, d, w, Judge(cfg, d, acked, price, quantity), o, i))
  {
    hide Finish, Upsert, Gate, Passes, GatesHold, CloseOrder, AcceptedWithin;
    if price.None? || price.value <= 0.0 {
      ConcludeEnds(cfg, d, w, acked.(status := UnknownReconciling), o, i);
    } else {
      GateMeaning(cfg, d, price.value, quantity);
      match Gate(cfg, d, price.value, quantity)
      case Abort => FinishedStays(cfg, d, w, Raised, o, i);
      case Close(prefix, fill) => ClosingSettles(cfg, d, w, prefix, acked.(status := Failed, fill := fill), o, i);
      case Protect(stop, target, fill) => ProtectingSettles(cfg, d, w, Protecting(0, acked, stop, target, fill), o, i);
    }
  }

  /** What the polls from answer i on report: price, quantity, and the index of the next answer. */
  ghost function Observation(polls: nat, price: Option<real>, quantity: real, o: Oracle, i: nat): (Option<real>, real, nat)
    decreases if polls < 10 then 10 - polls else 0
  {
    var seen := AfterPoll(o(i), price, quantity);
    if seen.2 || polls + 1 >= 10 then (seen.0, seen.1, i + 1)
    else Observation(polls + 1, seen.0, seen.1, o, i + 1)
  }

  /** From the acknowledgement on, the ending is the one the observed fill deserves: unknown without a
      price; filled exactly when every gate passes and the exchange accepts the levels; closed out otherwise. */
  lemma {:induction false} AcknowledgedSettles(cfg: Settings, d: Decision, w: World, acked: Execution,
                                              polls: nat, price: Option<real>, quantity: real, o: Oracle, i: nat)
    ensures var seen := Observation(polls, price, quantity, o, i);
      Deserved(cfg, d, w, seen.0, seen.1, o, seen.2, Finish(cfg, d, w, Polling(acked, polls, price, quantity), o, i))
    decreases if polls < 10 then 10 - polls else 0
  {
    hide Finish, Judge, Deserved, AfterPoll;
    FinishStep(cfg, d, w, Polling(acked, polls, price, quantity), o, i);
    var seen := AfterPoll(o(i), price, quantity);
    if seen.2 || polls + 1 >= 10 {
      JudgeSettles(cfg, d, w, acked, seen.0, seen.1, o, i + 1);
    } else {
      AcknowledgedSettles(cfg, d, w, acked, polls + 1, seen.0, seen.1, o, i + 1);
    }
  }

  /** A report of a full or partial fill. */
  predicate ReportsFill(a: Answer) {
    a.Found? && a.row.orderStatus in {"Filled", "PartiallyFilled"}
  }

  predicate ReportsPrice(a: Answer, price: Option<real>) {
    ReportsFill(a) && price.Some? && a.row.avgPrice == Number(price.value)
  }

  predicate ReportsQuantity(a: Answer, quantity: real) {
    ReportsFill(a) && a.row.cumExecQty == Number(quantity)
  }

  lemma PollKeepsOrReports(a: Answer, price: Option<real>, quantity: real)
    ensures var seen := AfterPoll(a, price, quantity);
      && (seen.0 == price || ReportsPrice(a, seen.0))
      && (seen.1 == quantity || ReportsQuantity(a, seen.1))
  {
  }

  /** At most ten polls are made; a price or a quantity that was not there before is one that the exchange
      reported with a fill. */
  lemma {:induction false} ObservationBounds(polls: nat, price: Option<real>, quantity: real, o: Oracle, i: nat)
    requires polls < 10
    ensures i < Observation(polls, price, quantity, o, i).2 <= i + 10 - polls
    ensures var seen := Observation(polls, price, quantity, o, i);
      && (seen.0 == price || exists k :: i <= k < seen.2 && ReportsPrice(o(k), seen.0))
      && (seen.1 == quantity || exists k :: i <= k < seen.2 && ReportsQuantity(o(k), seen.1))
    decreases 10 - polls
  {
    hide AfterPoll, ReportsPrice, ReportsQuantity;
    var seen := AfterPoll(o(i), price, quantity);
    PollKeepsOrReports(o(i), price, quantity);
    if !seen.2 && polls + 1 < 10 {
      ObservationBounds(polls + 1, seen.0, seen.1, o, i + 1);
    }
  }

  /** The endings exclude one another. */
  lemma EndingsExclusive(cfg: Settings, d: Decision, w: World, price: real, quantity: real, out: (World, Phase))
    ensures !(LeftUnknown(w, out) && ClosedOut(d, w, price, quantity, out))
    ensures !(LeftUnknown(w, out) && FilledProtected(cfg, d, w, price, quantity, out))
    ensures !(ClosedOut(d, w, price, quantity, out) && FilledProtected(cfg, d, w, price, quantity, out))
    ensures Aborted(d, w, out) ==> !out.1.Done?
  {
  }

  // ---------------------------------------------------------------- exposure

  function Signed(side: Side, quantity: real): real {
    if side == Buy then quantity else -quantity
  }

  /** Whether place_order gets past its own argument checks and reaches the exchange. */
  predicate Deliverable(order: Order) {
    order.quantity > 0.0
  }

  /** What an executed order leaves of a position; a reduce-only order never turns it round. */
  function PositionAfter(position: real, order: Order): real {
    var moved := position + (if Deliverable(order) then Signed(order.side, order.quantity) else 0.0);
    if order.reduceOnly && position > 0.0 then Max(0.0, Min(position, moved))
    else if order.reduceOnly then Min(0.0, Max(position, moved))
    else moved
  }

  /** The position once the requests of a stretch of the log are executed, as far as they are deliverable. */
  function PositionAfterAll(position: real, orders: seq<Order>): real
    decreases |orders|
  {
    if orders == [] then position
    else PositionAfter(PositionAfterAll(position, orders[..|orders| - 1]), orders[|orders| - 1])
  }

  lemma CloseFlattens(d: Decision, link: string, filled: real, observed: real)
    requires filled >= 0.0
    ensures var left := PositionAfter(Signed(d.side, filled), Order(link, d.symbol, d.side.Opposite(), observed, true));
      && (left == 0.0 <==> filled == 0.0 || filled <= observed)
      && (0.0 <= observed <= filled ==> left == Signed(d.side, filled - observed))
  {
  }

  /** The exposure after an emergency close that executes. Of an entry executed for `filled`, the requests
      made since leave the position flat exactly when no more was executed than observed; where the exchange
      observed at most what it executed, they leave precisely the unobserved part, so it is flat exactly
      when the two quantities are equal. An entry reported without a quantity stays open. */
  lemma ClosedOutExposure(d: Decision, w: World, price: real, quantity: real, out: (World, Phase), filled: real)
    requires ClosedOut(d, w, price, quantity, out) && filled >= 0.0
    ensures out.0.sent[..|w.sent|] == w.sent
    ensures var left := PositionAfterAll(Signed(d.side, filled), out.0.sent[|w.sent|..]);
      && (left == 0.0 <==> filled == 0.0 || filled <= quantity)
      && (0.0 <= quantity <= filled ==> left == Signed(d.side, filled - quantity))
      && (0.0 <= quantity <= filled ==> (left == 0.0 <==> filled == quantity))
  {
    var link :| out.0 == w.(rows := Upsert(w.rows, out.1.result),
                            sent := w.sent + [Order(link, d.symbol, d.side.Opposite(), quantity, true)]);
    var close := Order(link, d.symbol, d.side.Opposite(), quantity, true);
    assert out.0.sent[|w.sent|..] == [close];
    assert [close][..0] == [];
    CloseFlattens(d, link, filled, quantity);
  }

  /** Joined to the execution: when a fill was observed and the order is not protected, the position that is
      left is the one above, whatever the exchange answered. */
  lemma UnprotectedIsFlat(cfg: Settings, d: Decision, w: World, acked: Execution, o: Oracle, i: nat, filled: real)
    requires filled >= 0.0
    ensures var seen := Observation(0, None, 0.0, o, i);
      var out := Finish(cfg, d, w, Polling(acked, 0, None, 0.0), o, i);
      && (out.1.Raised? ==> out.0 == w && !Complete(d)) && (out.1.Done? || out.1.Raised?)
      && (out.1.Done? && out.1.result.status == Failed ==>
            |w.sent| <= |out.0.sent| && out.0.sent[..|w.sent|] == w.sent
            && (PositionAfterAll(Signed(d.side, filled), out.0.sent[|w.sent|..]) == 0.0 <==> filled == 0.0 || filled <= seen.1))
      && (out.1.Done? && out.1.result.status != Failed ==> out.0.sent == w.sent)
  {
    hide Finish, Observation, Passes, GatesHold, Upsert, AcceptedWithin, PositionAfterAll, Signed;
    var seen := Observation(0, None, 0.0, o, i);
    var out := Finish(cfg, d, w, Polling(acked, 0, None, 0.0), o, i);
    AcknowledgedSettles(cfg, d, w, acked, 0, None, 0.0, o, i);
    if out.1.Done? && out.1.result.status == Failed {
      assert seen.0.Some? && ClosedOut(d, w, seen.0.value, seen.1, out);
      ClosedOutExposure(d, w, seen.0.value, seen.1, out, filled);
    }
  }

  // ---------------------------------------------------------------- the reward-to-risk gate

  lemma PositiveFactor(a: real, b: real, q: real)
    requires q > 0.0
    ensures a * q >= b * q <==> a >= b
  {
    QuotientTimes(a * q, q);
    QuotientOrder(a * q, q, b);
    QuotientUnique(a * q, q, a);
  }

  /** Quantity cancels out of the gate whenever something was filled. */
  lemma EffectiveRrPerUnit(price: real, quantity: real, stop: real, target: real, planned: real, m: real)
    requires price > 0.0 && quantity > 0.0
    ensures EffectiveRr(price, quantity, stop, target, planned) >= m
      <==> Abs(target - price) - 2.0 * TAKER_FEE_RATE * price >= m * (Abs(price - stop) + 2.0 * TAKER_FEE_RATE * price)
  {
    var gain, risk, fee := Abs(target - price), Abs(price - stop), 2.0 * TAKER_FEE_RATE * price;
    assert FeeAmount(price, quantity) == fee * quantity;
    ProductPositive(price, quantity);
    ProductOrder(0.0, risk, quantity);
    assert (gain - fee) * quantity == gain * quantity - fee * quantity;
    assert (risk + fee) * quantity == risk * quantity + fee * quantity;
    QuotientOrder((gain - fee) * quantity, (risk + fee) * quantity, m);
    assert m * ((risk + fee) * quantity) == (m * (risk + fee)) * quantity;
    PositiveFactor(gain - fee, m * (risk + fee), quantity);
  }

  /** On levels that need no rounding: the gate passes iff (R - m) d >= 2 k (1 + m) p. */
  lemma RrGateExact(side: Side, price: real, quantity: real, distance: real, planned: real, m: real)
    requires price > 0.0 && quantity > 0.0 && distance >= 0.0 && planned >= 0.0
    ensures var levels := Anchored(side, price, distance, planned);
      EffectiveRr(price, quantity, levels.0, levels.1, planned) >= m
      <==> (planned - m) * distance >= 2.0 * TAKER_FEE_RATE * (1.0 + m) * price
  {
    var levels := Anchored(side, price, distance, planned);
    EffectiveRrPerUnit(price, quantity, levels.0, levels.1, planned, m);
    ProductOrder(0.0, distance, planned);
    GateForms(distance, planned, m, 2.0 * TAKER_FEE_RATE * price);
    assert 2.0 * TAKER_FEE_RATE * (1.0 + m) * price == (1.0 + m) * (2.0 * TAKER_FEE_RATE * price);
  }

  lemma GateForms(distance: real, planned: real, m: real, fee: real)
    ensures distance * planned - fee >= m * (distance + fee) <==> (planned - m) * distance >= (1.0 + m) * fee
  {
    assert m * (distance + fee) == m * distance + m * fee;
    assert (planned - m) * distance == distance * planned - m * distance;
  }

  /** When the exchange reports no filled quantity, the gate compares the planned ratio itself. */
  lemma RrGateWithoutQuantity(price: real, stop: real, target: real, planned: real)
    ensures EffectiveRr(price, 0.0, stop, target, planned) == planned
  {
    assert FeeAmount(price, 0.0) == 0.0;
  }

  lemma RoundHalfEvenError(x: real)
    ensures -0.5 <= RoundHalfEven(x) as real - x <= 0.5
  {
  }

  lemma UnitError(x: real, n: real, s: real)
    requires s > 0.0 && -0.5 <= n - x * s <= 0.5
    ensures Abs(n / s - x) <= 0.5 / s
  {
    var h := 0.5 / s;
    assert h * s == 0.5;
    assert (x + h) * s == x * s + h * s;
    assert (x - h) * s == x * s - h * s;
    QuotientOrder(n, s, x + h);
    QuotientOrder(n, s, x - h);
  }

  /** Rounding to n places moves a value by at most half a unit of the last place. */
  lemma QuantizeError(x: real, places: nat)
    ensures Abs(Quantize(x, places) - x) <= 0.5 / Pow10(places)
  {
    hide RoundHalfEven, Pow10, Abs;
    RoundHalfEvenError(x * Pow10(places));
    UnitError(x, RoundHalfEven(x * Pow10(places)) as real, Pow10(places));
  }

  /** The rounding of both levels is finer than the round-trip fee. */
  predicate FineRounding(d: Decision, m: real, price: real) {
    0.5 / Pow10(d.targetPlaces) + m * (0.5 / Pow10(d.stopPlaces)) < 2.0 * TAKER_FEE_RATE * (1.0 + m) * price
  }

  lemma GateMargin(gain: real, risk: real, distance: real, m: real, es: real, et: real, price: real)
    requires m >= 0.0 && gain <= distance * m + et && risk >= distance - es
    requires et + m * es < 2.0 * TAKER_FEE_RATE * (1.0 + m) * price
    ensures gain - 2.0 * TAKER_FEE_RATE * price < m * (risk + 2.0 * TAKER_FEE_RATE * price)
  {
    var fee := 2.0 * TAKER_FEE_RATE * price;
    assert 2.0 * TAKER_FEE_RATE * (1.0 + m) * price == fee + m * fee;
    assert 0.0 <= m * (risk - (distance - es));
    assert m * (risk - (distance - es)) == m * risk - distance * m + m * es;
    assert m * (risk + fee) == m * risk + m * fee;
  }

  lemma LevelErrors(d: Decision, price: real, distance: real, m: real)
    requires distance >= 0.0 && m >= 0.0
    ensures var levels := Anchored(d.side, price, distance, m);
      Abs(Quantize(levels.1, d.targetPlaces) - price) <= distance * m + 0.5 / Pow10(d.targetPlaces)
      && Abs(price - Quantize(levels.0, d.stopPlaces)) >= distance - 0.5 / Pow10(d.stopPlaces)
  {
    hide Quantize, Pow10;
    var levels := Anchored(d.side, price, distance, m);
    QuantizeError(levels.0, d.stopPlaces);
    QuantizeError(levels.1, d.targetPlaces);
    ProductOrder(0.0, distance, m);
  }

  lemma NothingAtRisk(price: real, quantity: real, stop: real, target: real, planned: real)
    requires price > 0.0 && quantity <= 0.0
    ensures EffectiveRr(price, quantity, stop, target, planned) == planned
  {
    var risk, fee := Abs(price - stop), 2.0 * TAKER_FEE_RATE * price;
    assert FeeAmount(price, quantity) == fee * quantity;
    ProductOrder(quantity, 0.0, fee);
    ProductOrder(quantity, 0.0, risk);
  }

  /** When the planned ratio is the required one, fees push every real fill below it: the gate passes
      exactly when the exchange reported no executed quantity. */
  lemma PlannedMinimumGate(d: Decision, price: real, quantity: real, distance: real, m: real)
    requires price > 0.0 && distance >= 0.0 && m >= 0.0 && FineRounding(d, m, price)
    ensures var levels := Anchored(d.side, price, distance, m);
      EffectiveRr(price, quantity, Quantize(levels.0, d.stopPlaces), Quantize(levels.1, d.targetPlaces), m) >= m
      <==> quantity <= 0.0
  {
    hide Quantize, Pow10, EffectiveRr, Anchored, Abs;
    var levels := Anchored(d.side, price, distance, m);
    var stop, target := Quantize(levels.0, d.stopPlaces), Quantize(levels.1, d.targetPlaces);
    if quantity <= 0.0 {
      NothingAtRisk(price, quantity, stop, target, m);
    } else {
      LevelErrors(d, price, distance, m);
      EffectiveRrPerUnit(price, quantity, stop, target, m, m);
      GateMargin(Abs(target - price), Abs(price - stop), distance, m,
                 0.5 / Pow10(d.stopPlaces), 0.5 / Pow10(d.targetPlaces), price);
    }
  }

  /** Under the shipped wiring, where the planned ratio is the required minimum, `execute` ends an
      acknowledged entry FILLED only if the exchange reported no executed quantity (or the decision's
      price grid is coarser than the fee). */
  lemma ShippedWiringNeverFills(cfg: Settings, d: Decision, w: World, acked: Execution, o: Oracle, i: nat)
    requires cfg.minimumRr >= 0.0 && d.rewardRisk == Some(cfg.minimumRr)
    ensures var out := Finish(cfg, d, w, Polling(acked, 0, None, 0.0), o, i);
      out.1.Done? && out.1.result.status == Filled ==>
        && out.1.result.fill.price.Some? && out.1.result.fill.quantity.Some?
        && (out.1.result.fill.quantity.value <= 0.0 || !FineRounding(d, cfg.minimumRr, out.1.result.fill.price.value))
  {
    hide Finish, Quantize, EffectiveRr, FineRounding, Anchored, Pow10, Upsert, RiskCap, SlippageAbs, Observation;
    AcknowledgedSettles(cfg, d, w, acked, 0, None, 0.0, o, i);
    var out := Finish(cfg, d, w, Polling(acked, 0, None, 0.0), o, i);
    if out.1.Done? && out.1.result.status == Filled {
      var price, quantity := out.1.result.fill.price.value, out.1.result.fill.quantity.value;
      if FineRounding(d, cfg.minimumRr, price) {
        PlannedMinimumGate(d, price, quantity, Abs(d.entry - d.stopLoss.value), cfg.minimumRr);
      }
    }
  }
}
