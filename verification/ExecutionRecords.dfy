/** What the result of an acknowledged entry records of its fill, in plain numbers. */
module ExecutionRecords {
  import opened Prelude
  import opened Arithmetic
  import opened ExecutionStore
  import opened ExecutionProtocol
  import opened ExecutionOutcome
  import opened ExecutionRequests

  /** Entry and exit fee of a position, 0.055% each. */
  function PlainFees(price: real, quantity: real): real {
    0.0011 * (price * quantity)
  }

  /** What it loses at the stop. */
  function PlainLoss(price: real, stop: real, quantity: real): real {
    Abs(price - stop) * quantity
  }

  /** The ratio that is recorded: what remains of the gain at the target, over the loss with fees. */
  predicate PlainRatio(rr: real, price: real, quantity: real, stop: real, target: real, planned: real) {
    var loss := PlainLoss(price, stop, quantity) + PlainFees(price, quantity);
    if loss > 0.0 then rr * loss == PlainLoss(price, target, quantity) - PlainFees(price, quantity) else rr == planned
  }

  /** Price, quantity and slippage are always recorded; the risk once the slippage passed; the ratio once the risk
      passed; the fees with it, unless the levels were refused; the intended risk on a FILLED order alone. */
  predicate Recorded(cfg: Settings, d: Decision, price: real, quantity: real, r: Execution)
    requires d.entry != 0.0
  {
    && r.fill.price == Some(price) && r.fill.quantity == Some(quantity)
    && r.fill.slippageAbs == Some(if d.side == Buy then price - d.entry else d.entry - price)
    && r.fill.slippagePct == Some(PlainSlippage(d, price))
    && (if PlainSlippage(d, price) > cfg.maxSlippagePct then
          r.status == Failed && r.fill.actualRisk.None? && r.fill.finalRr.None? && r.fill.fees.None? && r.fill.intendedRisk.None?
        else Complete(d) && RiskRecorded(cfg, d, price, quantity, r))
  }

  predicate RiskRecorded(cfg: Settings, d: Decision, price: real, quantity: real, r: Execution)
    requires Complete(d)
  {
    var stop, target := Levels(d, price).0, Levels(d, price).1;
    && r.fill.actualRisk == Some(PlainLoss(price, stop, quantity))
    && if PlainLoss(price, stop, quantity) > PlainCap(d) then
         r.status == Failed && r.fill.finalRr.None? && r.fill.fees.None? && r.fill.intendedRisk.None?
       else
         && r.fill.finalRr.Some? && PlainRatio(r.fill.finalRr.value, price, quantity, stop, target, d.rewardRisk.value)
         && (r.status == Filled ==>
               r.fill.finalRr.value >= cfg.minimumRr && r.fill.intendedRisk == d.riskAmount && r.fill.fees == Some(PlainFees(price, quantity)))
         && (r.status != Filled ==>
               && r.status == Failed && r.fill.intendedRisk.None?
               && r.fill.fees == if r.fill.finalRr.value < cfg.minimumRr then Some(PlainFees(price, quantity)) else None)
  }

  /** Nothing else of the acknowledged row changes, but for the levels of a FILLED order. */
  predicate OtherwiseKept(acked: Execution, d: Decision, price: real, r: Execution) {
    && r == acked.(status := r.status, fill := r.fill, plan := r.plan)
    && (r.status != Filled ==> r.plan == acked.plan)
    && (r.status == Filled ==>
          Complete(d) && r.plan == acked.plan.(stopLoss := Some(Levels(d, price).0), takeProfit := Some(Levels(d, price).1)))
  }

  lemma FeesPlainly(price: real, quantity: real)
    ensures FeeAmount(price, quantity) == PlainFees(price, quantity)
  {
    var value := price * quantity;
    assert value * TAKER_FEE_RATE * 2.0 == value * 0.0011;
  }

  lemma RatioPlainly(price: real, quantity: real, stop: real, target: real, planned: real)
    ensures PlainRatio(EffectiveRr(price, quantity, stop, target, planned), price, quantity, stop, target, planned)
  {
    hide FeeAmount, PlainFees;
    FeesPlainly(price, quantity);
    var fee := FeeAmount(price, quantity);
    var profit, loss := Abs(target - price) * quantity - fee, Abs(price - stop) * quantity + fee;
    SameDistance(price, target);
    if loss > 0.0 { QuotientTimes(profit, loss); }
  }

  lemma SameDistance(x: real, y: real)
    ensures Abs(x - y) == Abs(y - x)
  {
  }

  /** The fill each verdict carries. */
  lemma GateRecords(cfg: Settings, d: Decision, acked: Execution, price: real, quantity: real)
    requires d.entry != 0.0 && price > 0.0
    ensures match Gate(cfg, d, price, quantity)
      case Abort => true
      case Close(_, fill) => Recorded(cfg, d, price, quantity, acked.(status := Failed, fill := fill))
      case Protect(stop, target, fill) =>
        && Complete(d) && (stop, target) == Levels(d, price)
        && Recorded(cfg, d, price, quantity, acked.(status := Filled, fill := fill))
        && Recorded(cfg, d, price, quantity, acked.(status := Failed, fill := fill.(intendedRisk := None, fees := None)))
  {
    hide Quantize, EffectiveRr, Anchored, FeeAmount, PlainFees, PlainRatio, PlainSlippage;
    SlippagePlainly(d, price);
    FeesPlainly(price, quantity);
    if Complete(d) {
      RatioPlainly(price, quantity, Levels(d, price).0, Levels(d, price).1, d.rewardRisk.value);
    }
  }

  lemma GateCloses(cfg: Settings, d: Decision, price: real, quantity: real, acked: Execution)
    ensures match Gate(cfg, d, price, quantity)
      case Abort => true
      case Close(prefix, fill) => CloseOrder(d, prefix, quantity) == PlainClose(d, acked.(status := Failed, fill := fill), quantity)
      case Protect(_, _, fill) =>
        && fill.quantity == Some(quantity)
        && CloseOrder(d, "close-prot-", quantity)
             == PlainClose(d, acked.(status := Failed, fill := fill.(intendedRisk := None, fees := None)), quantity)
  {
    hide Quantize, EffectiveRr, Anchored, FeeAmount, RiskCap, SlippageAbs, SlippagePct, RiskAt;
  }

  /** The request that closes a failed order, named after the gate that failed. */
  function PlainClose(d: Decision, r: Execution, quantity: real): Order {
    var prefix := if r.fill.actualRisk.None? then "close-" else if r.fill.finalRr.None? then "close-risk-"
                  else if r.fill.fees.Some? then "close-rr-" else "close-prot-";
    Order(prefix + OrderLink(d.signalId), d.symbol, if d.side == Buy then Sell else Buy, quantity, true)
  }

  /** A FAILED order is closed by one request, any other makes none. */
  predicate ClosedByName(d: Decision, w: World, quantity: real, after: World, r: Execution) {
    after.sent == if r.status == Failed then w.sent + [PlainClose(d, r, quantity)] else w.sent
  }

  /** The attempts to protect end in one of two rows. */
  lemma {:induction false} ProtectingEnds(cfg: Settings, d: Decision, w: World, ph: Phase, o: Oracle, i: nat)
    requires ph.Protecting? && ph.attempts < 3
    ensures var out := Finish(cfg, d, w, ph, o, i);
      out.1.Done? && ((out.1.result == FilledRow(ph) && out.0.sent == w.sent)
                      || (out.1.result == UnprotectedRow(ph)
                          && out.0.sent == w.sent + [CloseOrder(d, "close-prot-", FilledQuantity(ph.fill))]))
    decreases Rank(ph)
  {
    hide Finish, Upsert, CloseOrder;
    FinishStep(cfg, d, w, ph, o, i);
    if o(i).Accepted? {
      ConcludeEnds(cfg, d, w.(stops := w.stops + [Protection(d.symbol, ph.stop, ph.target)]), FilledRow(ph), o, i + 1);
    } else if ph.attempts + 1 < 3 {
      ProtectingEnds(cfg, d, w, ph.(attempts := ph.attempts + 1), o, i + 1);
    } else {
      ClosingEnds(cfg, d, w, CloseOrder(d, "close-prot-", FilledQuantity(ph.fill)), UnprotectedRow(ph), o, i + 1);
    }
  }

  lemma RecordedApartFromPlan(cfg: Settings, d: Decision, price: real, quantity: real, r: Execution, plan: Plan)
    requires d.entry != 0.0 && Recorded(cfg, d, price, quantity, r)
    ensures Recorded(cfg, d, price, quantity, r.(plan := plan))
  {
    hide Levels, PlainRatio, PlainLoss, PlainFees, PlainCap, PlainSlippage;
  }

  lemma JudgedRecords(cfg: Settings, d: Decision, w: World, acked: Execution, price: real, quantity: real, o: Oracle, i: nat)
    requires d.entry != 0.0 && price > 0.0
    ensures var out := Finish(cfg, d, w, Judge(cfg, d, acked, Some(price), quantity), o, i);
      out.1.Done? ==>
        && Recorded(cfg, d, price, quantity, out.1.result) && OtherwiseKept(acked, d, price, out.1.result)
        && ClosedByName(d, w, quantity, out.0, out.1.result)
  {
    hide Finish, Upsert, Gate, CloseOrder, Levels, RiskRecorded, PlainClose;
    GateCloses(cfg, d, price, quantity, acked);
    GateRecords(cfg, d, acked, price, quantity);
    match Gate(cfg, d, price, quantity)
    case Abort => FinishedStays(cfg, d, w, Raised, o, i);
    case Close(prefix, fill) => ClosingEnds(cfg, d, w, CloseOrder(d, prefix, quantity), acked.(status := Failed, fill := fill), o, i);
    case Protect(stop, target, fill) =>
      ProtectingEnds(cfg, d, w, Protecting(0, acked, stop, target, fill), o, i);
      RecordedApartFromPlan(cfg, d, price, quantity, acked.(status := Filled, fill := fill),
                            acked.plan.(stopLoss := Some(stop), takeProfit := Some(target)));
  }

  /** The polls lead to the judgement of what they observed. */
  lemma {:induction false} PollsAreJudged(cfg: Settings, d: Decision, w: World, acked: Execution,
                                          polls: nat, price: Option<real>, quantity: real, o: Oracle, i: nat)
    ensures var seen := Observation(polls, price, quantity, o, i);
      Finish(cfg, d, w, Polling(acked, polls, price, quantity), o, i) == Finish(cfg, d, w, Judge(cfg, d, acked, seen.0, seen.1), o, seen.2)
    decreases if polls < 10 then 10 - polls else 0
  {
    hide Finish, Judge, AfterPoll;
    FinishStep(cfg, d, w, Polling(acked, polls, price, quantity), o, i);
    var seen := AfterPoll(o(i), price, quantity);
    if !seen.2 && polls + 1 < 10 {
      PollsAreJudged(cfg, d, w, acked, polls + 1, seen.0, seen.1, o, i + 1);
    }
  }

  /** However an acknowledged entry ends with a result: UNKNOWN_RECONCILING with nothing recorded when no price was
      observed, and otherwise a record of the observed fill in plain numbers, as far as the gates got, and for a
      FAILED order one close named after the gate that failed. */
  lemma AcknowledgedRecords(cfg: Settings, d: Decision, w: World, acked: Execution, o: Oracle, i: nat)
    requires d.entry != 0.0
    ensures var seen := Observation(0, None, 0.0, o, i);
      var out := Finish(cfg, d, w, Polling(acked, 0, None, 0.0), o, i);
      if seen.0.None? || seen.0.value <= 0.0 then out.1 == Done(acked.(status := UnknownReconciling)) && out.0.sent == w.sent
      else
        out.1.Done? ==>
          && Recorded(cfg, d, seen.0.value, seen.1, out.1.result) && OtherwiseKept(acked, d, seen.0.value, out.1.result)
          && ClosedByName(d, w, seen.1, out.0, out.1.result)
  {
    hide Finish, Observation, Recorded, OtherwiseKept, ClosedByName, Upsert;
    PollsAreJudged(cfg, d, w, acked, 0, None, 0.0, o, i);
    var seen := Observation(0, None, 0.0, o, i);
    if seen.0.None? || seen.0.value <= 0.0 {
      ConcludeEnds(cfg, d, w, acked.(status := UnknownReconciling), o, seen.2);
    } else {
      JudgedRecords(cfg, d, w, acked, seen.0.value, seen.1, o, seen.2);
    }
  }
}
