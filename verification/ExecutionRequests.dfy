/** One execution from its start: what it refuses, what it requests, what each answer means, and what a fill must meet,
    all in plain numbers. */
module ExecutionRequests {
  import opened Prelude
  import opened Arithmetic
  import opened ExecutionStore
  import opened ExecutionProtocol
  import opened ExecutionOutcome
  import opened ExecutionOrigin

  // ---------------------------------------------------------------- before anything is sent

  /** An execution goes to the exchange exactly for an eligible decision and a writable store; otherwise it ends at
      once, REJECTED when the decision is not READY or incomplete, FAILED when the store cannot be written. */
  lemma BeginsExactly(d: Decision, writable: bool)
    ensures Begin(d, writable) == Normalizing <==> Eligible(d) && writable
    ensures Begin(d, writable) != Normalizing ==>
      && Begin(d, writable).Done?
      && Begin(d, writable).result.status == (if d.ready && !writable then Failed else Rejected)
      && Begin(d, writable).result.signalId == d.signalId
  {
  }

  /** Without an accepted leverage the execution ends FAILED and requests nothing. */
  lemma LeverageDecides(cfg: Settings, d: Decision, w: World, pending: Execution, o: Oracle, i: nat)
    ensures !o(i).Accepted? ==>
      Finish(cfg, d, w, Leveraging(pending), o, i) ==
        (w.(rows := Upsert(w.rows, pending.(status := Failed))), Done(pending.(status := Failed)))
    ensures o(i).Accepted? ==>
      var submitted := pending.(status := Submitted);
      Finish(cfg, d, w, Leveraging(pending), o, i) ==
        Finish(cfg, d, w.(rows := Upsert(w.rows, submitted)), Sending(submitted), o, i + 1)
  {
    hide Finish, Upsert;
    FinishStep(cfg, d, w, Leveraging(pending), o, i);
    if o(i).Accepted? {
      var submitted := pending.(status := Submitted);
      FinishStep(cfg, d, w, Saving(submitted, Sending(submitted)), o, i + 1);
    } else {
      ConcludeEnds(cfg, d, w, pending.(status := Failed), o, i + 1);
    }
  }

  // ---------------------------------------------------------------- the entry and its answer

  /** The market order for a stored quantity. */
  function PlainEntry(d: Decision, quantity: real): Order {
    Order("bot-" + d.signalId, d.symbol, d.side, quantity, false)
  }

  /** The status in which an entry that was not acknowledged ends: only the exchange's own refusal and a local
      validation error are final, everything else is ambiguous. */
  function UnackedStatus(a: Answer): Status {
    if a == ApiError then Rejected else if a == ValueError then Failed else UnknownReconciling
  }

  /** Exactly one entry leaves. Unless it is acknowledged the execution ends there, in the status its answer
      deserves; an acknowledged one goes on to the polls with the exchange's order id stored. */
  lemma SubmitDecides(cfg: Settings, d: Decision, w: World, submitted: Execution, quantity: real, o: Oracle, i: nat)
    requires submitted.plan.quantity == Some(quantity)
    ensures var sent := w.sent + [PlainEntry(d, quantity)];
      !o(i).Acked? ==>
        var ended := submitted.(status := UnackedStatus(o(i)));
        Finish(cfg, d, w, Sending(submitted), o, i) == (w.(sent := sent, rows := Upsert(w.rows, ended)), Done(ended))
    ensures var sent := w.sent + [PlainEntry(d, quantity)];
      o(i).Acked? ==>
        var acked := submitted.(status := Acknowledged, orderId := Some(o(i).orderId),
                                orderLinkId := if o(i).linkId.Some? && o(i).linkId.value != "" then o(i).linkId else submitted.orderLinkId);
        Finish(cfg, d, w, Sending(submitted), o, i) ==
          Finish(cfg, d, w.(sent := sent, rows := Upsert(w.rows, acked)), Polling(acked, 0, None, 0.0), o, i + 1)
  {
    hide Finish, Upsert;
    FinishStep(cfg, d, w, Sending(submitted), o, i);
    var sending := w.(sent := w.sent + [EntryOrder(d, submitted)]);
    FinishStep(cfg, d, sending, AwaitingAck(submitted), o, i);
    if o(i).Acked? {
      var acked := submitted.(status := Acknowledged, orderId := Some(o(i).orderId),
                              orderLinkId := TextOr(o(i).linkId, submitted.orderLinkId));
      FinishStep(cfg, d, sending, Saving(acked, Polling(acked, 0, None, 0.0)), o, i + 1);
    } else {
      ConcludeEnds(cfg, d, sending, submitted.(status := UnackedStatus(o(i))), o, i + 1);
    }
  }

  // ---------------------------------------------------------------- all requests of one execution

  /** The requests from n on. */
  function Since(sent: seq<Order>, n: nat): seq<Order> {
    if n <= |sent| then sent[n..] else []
  }

  /** After the acknowledgement: nothing more, or one close of a FAILED order. */
  lemma PollingRequests(cfg: Settings, d: Decision, w: World, acked: Execution, o: Oracle, i: nat)
    ensures var out := Finish(cfg, d, w, Polling(acked, 0, None, 0.0), o, i);
      || out.0.sent == w.sent
      || (out.1.Done? && out.1.result.status == Failed && out.1.result.fill.quantity.Some?
          && exists link :: out.0.sent == w.sent + [Order(link, d.symbol, d.side.Opposite(), out.1.result.fill.quantity.value, true)])
  {
    hide Finish, Observation, Passes, GatesHold, Upsert, AcceptedWithin;
    AcknowledgedSettles(cfg, d, w, acked, 0, None, 0.0, o, i);
  }

  ghost predicate EntryThenClose(d: Decision, quantity: real, out: (World, Phase), made: seq<Order>) {
    && out.1.Done? && out.1.result.status == Failed && out.1.result.fill.quantity.Some?
    && exists link :: made == [PlainEntry(d, quantity), Order(link, d.symbol, d.side.Opposite(), out.1.result.fill.quantity.value, true)]
  }

  lemma SendingRequests(cfg: Settings, d: Decision, w: World, submitted: Execution, quantity: real, o: Oracle, i: nat)
    requires submitted.plan.quantity == Some(quantity)
    ensures var out := Finish(cfg, d, w, Sending(submitted), o, i);
      var made := Since(out.0.sent, |w.sent|);
      made == [PlainEntry(d, quantity)] || EntryThenClose(d, quantity, out, made)
  {
    hide Finish, Upsert;
    SubmitDecides(cfg, d, w, submitted, quantity, o, i);
    var sent := w.sent + [PlainEntry(d, quantity)];
    assert Since(sent, |w.sent|) == [PlainEntry(d, quantity)];
    if o(i).Acked? {
      var acked := submitted.(status := Acknowledged, orderId := Some(o(i).orderId),
                              orderLinkId := if o(i).linkId.Some? && o(i).linkId.value != "" then o(i).linkId else submitted.orderLinkId);
      var w' := w.(sent := sent, rows := Upsert(w.rows, acked));
      PollingRequests(cfg, d, w', acked, o, i + 1);
      var out := Finish(cfg, d, w', Polling(acked, 0, None, 0.0), o, i + 1);
      if out.0.sent != sent {
        var link :| out.0.sent == sent + [Order(link, d.symbol, d.side.Opposite(), out.1.result.fill.quantity.value, true)];
        assert Since(out.0.sent, |w.sent|) ==
          [PlainEntry(d, quantity), Order(link, d.symbol, d.side.Opposite(), out.1.result.fill.quantity.value, true)];
      }
    }
  }

  /** The execution gets as far as its entry. */
  predicate ReachesEntry(d: Decision, w: World, writable: bool, o: Oracle, i: nat) {
    Eligible(d) && writable && o(i).NormalizedTo? && d.signalId !in w.rows && o(i + 1).Accepted?
  }

  /** Everything one execution requests, against every exchange: nothing, unless the decision is eligible, the
      store writable, no intent stored, the values fitted and the leverage set; then one entry on the decided
      symbol and side for the fitted quantity, and possibly one opposite, reduce-only close of a FAILED order. */
  lemma RequestsExactly(cfg: Settings, d: Decision, w: World, writable: bool, o: Oracle, i: nat)
    ensures var out := Finish(cfg, d, w, Begin(d, writable), o, i);
      var made := Since(out.0.sent, |w.sent|);
      if ReachesEntry(d, w, writable, o, i) then
        made == [PlainEntry(d, o(i).values.quantity)] || EntryThenClose(d, o(i).values.quantity, out, made)
      else made == []
  {
    hide Finish, Upsert, EntryThenClose, PlainEntry;
    BeginsExactly(d, writable);
    if Begin(d, writable) != Normalizing {
      FinishedStays(cfg, d, w, Begin(d, writable), o, i);
    } else {
      FinishStep(cfg, d, w, Normalizing, o, i);
      if !o(i).NormalizedTo? {
        FinishedStays(cfg, d, w, Raised, o, i + 1);
      } else {
        var n := o(i).values;
        FinishStep(cfg, d, w, Checking(n), o, i + 1);
        if d.signalId in w.rows {
          FinishedStays(cfg, d, w, Done(w.rows[d.signalId]), o, i + 1);
        } else {
          var pending := PendingRow(d, n);
          var w' := w.(rows := Upsert(w.rows, pending));
          LeverageDecides(cfg, d, w', pending, o, i + 1);
          if o(i + 1).Accepted? {
            var submitted := pending.(status := Submitted);
            SendingRequests(cfg, d, w'.(rows := Upsert(w'.rows, submitted)), submitted, n.quantity, o, i + 2);
          }
        }
      }
    }
  }

  /** The decided entry, executed on a flat position, opens it on the decided side. */
  lemma EntryOpens(d: Decision, quantity: real)
    requires quantity > 0.0
    ensures PositionAfter(0.0, PlainEntry(d, quantity)) == match d.side case Buy => quantity case Sell => -quantity
    ensures Signed(d.side, quantity) == match d.side case Buy => quantity case Sell => -quantity
  {
  }

  // ---------------------------------------------------------------- what the polls observe

  /** A report of a fill at a positive price, with a quantity that can be read. */
  predicate Conclusive(a: Answer, price: real, quantity: real) {
    && a.Found? && (a.row.orderStatus == "Filled" || a.row.orderStatus == "PartiallyFilled")
    && a.row.avgPrice == Number(price) && price > 0.0 && a.row.cumExecQty == Number(quantity)
  }

  /** No fill is reported. */
  predicate Silent(a: Answer) {
    !(a.Found? && (a.row.orderStatus == "Filled" || a.row.orderStatus == "PartiallyFilled"))
  }

  /** The polls stop at the first conclusive report and take its price and quantity; ten silent answers leave nothing. */
  lemma {:induction false} FirstReportCounts(polls: nat, o: Oracle, i: nat, k: nat, price: real, quantity: real)
    requires i <= k < i + 10 - polls && (forall j :: i <= j < k ==> Silent(o(j))) && Conclusive(o(k), price, quantity)
    ensures Observation(polls, None, 0.0, o, i) == (Some(price), quantity, k + 1)
    decreases k - i
  {
    if i < k {
      assert Silent(o(i));
      FirstReportCounts(polls + 1, o, i + 1, k, price, quantity);
    }
  }

  lemma {:induction false} SilenceCounts(polls: nat, o: Oracle, i: nat)
    requires polls < 10 && forall j :: i <= j < i + 10 - polls ==> Silent(o(j))
    ensures Observation(polls, None, 0.0, o, i) == (None, 0.0, i + 10 - polls)
    decreases 10 - polls
  {
    assert Silent(o(i));
    if polls + 1 < 10 {
      SilenceCounts(polls + 1, o, i + 1);
    }
  }

  /** A fill is reported, and neither its price nor its quantity is unreadable. */
  predicate Readable(a: Answer) {
    !Silent(a) && !a.row.avgPrice.Malformed? && !a.row.cumExecQty.Malformed?
  }

  /** The answer reports a price, or a quantity, of a fill. A quantity is not looked at beside an unreadable price. */
  predicate HasPrice(a: Answer) {
    !Silent(a) && a.row.avgPrice.Number?
  }

  predicate HasQuantity(a: Answer) {
    Readable(a) && a.row.cumExecQty.Number?
  }

  /** The latest price reported by the answers from i up to but not including k, if any. */
  ghost predicate LatestPrice(o: Oracle, i: nat, k: nat, price: Option<real>) {
    if price.None? then forall j :: i <= j < k ==> !HasPrice(o(j))
    else exists j :: i <= j < k && HasPrice(o(j)) && o(j).row.avgPrice.value == price.value && forall l :: j < l < k ==> !HasPrice(o(l))
  }

  ghost predicate LatestQuantity(o: Oracle, i: nat, k: nat, quantity: real) {
    || (quantity == 0.0 && forall j :: i <= j < k ==> !HasQuantity(o(j)))
    || exists j :: i <= j < k && HasQuantity(o(j)) && o(j).row.cumExecQty.value == quantity && forall l :: j < l < k ==> !HasQuantity(o(l))
  }

  /** The polls end with the answer before k: a readable report, with a positive latest price. */
  ghost predicate Ends(o: Oracle, i: nat, k: nat) {
    i < k && Readable(o(k - 1)) && exists price: real :: LatestPrice(o, i, k, Some(price)) && price > 0.0
  }

  lemma LatestAfterPoll(o: Oracle, i: nat, k: nat, price: Option<real>, quantity: real)
    requires i <= k && LatestPrice(o, i, k, price) && LatestQuantity(o, i, k, quantity)
    ensures var seen := AfterPoll(o(k), price, quantity);
      && LatestPrice(o, i, k + 1, seen.0) && LatestQuantity(o, i, k + 1, seen.1)
      && (seen.2 <==> Readable(o(k)) && seen.0.Some? && seen.0.value > 0.0)
  {
  }

  lemma LatestIsOne(o: Oracle, i: nat, k: nat, price: Option<real>, other: Option<real>)
    requires LatestPrice(o, i, k, price) && LatestPrice(o, i, k, other)
    ensures price == other
  {
  }

  lemma {:induction false} PollsFrom(polls: nat, price: Option<real>, quantity: real, o: Oracle, i: nat, k: nat)
    requires i <= k && polls == k - i < 10 && LatestPrice(o, i, k, price) && LatestQuantity(o, i, k, quantity)
    ensures var seen := Observation(polls, price, quantity, o, k);
      && k < seen.2 <= i + 10 && LatestPrice(o, i, seen.2, seen.0) && LatestQuantity(o, i, seen.2, seen.1)
      && (seen.2 < i + 10 ==> Ends(o, i, seen.2)) && (forall l :: k < l < seen.2 ==> !Ends(o, i, l))
    decreases 10 - polls
  {
    hide AfterPoll, LatestPrice, LatestQuantity, Readable;
    LatestAfterPoll(o, i, k, price, quantity);
    var seen := AfterPoll(o(k), price, quantity);
    if !seen.2 {
      if Ends(o, i, k + 1) {
        var p: real :| LatestPrice(o, i, k + 1, Some(p)) && p > 0.0;
        LatestIsOne(o, i, k + 1, seen.0, Some(p));
      }
      if polls + 1 < 10 { PollsFrom(polls + 1, seen.0, seen.1, o, i, k + 1); }
    }
  }

  /** What the polls use, for every sequence of answers: the latest price and the latest quantity reported up to the
      first readable report at which the latest price is positive, or in all ten answers. */
  lemma PollsExactly(o: Oracle, i: nat)
    ensures var seen := Observation(0, None, 0.0, o, i);
      && i < seen.2 <= i + 10 && LatestPrice(o, i, seen.2, seen.0) && LatestQuantity(o, i, seen.2, seen.1)
      && (seen.2 < i + 10 ==> Ends(o, i, seen.2)) && (forall l :: i < l < seen.2 ==> !Ends(o, i, l))
  {
    PollsFrom(0, None, 0.0, o, i, i);
  }

  // ---------------------------------------------------------------- the gates in plain numbers

  /** Paid less favourably than decided, in percent of the decided entry. */
  function PlainSlippage(d: Decision, price: real): real
    requires d.entry != 0.0
  {
    match d.side
    case Buy => (price - d.entry) * 100.0 / d.entry
    case Sell => (d.entry - price) * 100.0 / d.entry
  }

  function PlainCap(d: Decision): real
    requires RiskCap(d).Some?
  {
    match d.maxOpenRisk
    case Some(cap) => if cap == 0.0 then (if d.riskAmount.Some? then 1.5 * d.riskAmount.value else 0.0) else cap
    case None => if d.riskAmount.Some? then 1.5 * d.riskAmount.value else 0.0
  }

  /** A fill with an executed quantity passes exactly when it slipped no more than the limit, loses no more than
      the cap at the new stop, and still earns the minimum ratio after 0.11% of fees on either side. */
  lemma PassesPlainly(cfg: Settings, d: Decision, price: real, quantity: real)
    requires Complete(d) && price > 0.0 && quantity > 0.0
    ensures var stop, target := Levels(d, price).0, Levels(d, price).1;
      Passes(cfg, d, price, quantity) <==>
      && PlainSlippage(d, price) <= cfg.maxSlippagePct
      && Abs(price - stop) * quantity <= PlainCap(d)
      && Abs(target - price) - 0.0011 * price >= cfg.minimumRr * (Abs(price - stop) + 0.0011 * price)
  {
    hide Levels, EffectiveRr;
    EffectiveRrPerUnit(price, quantity, Levels(d, price).0, Levels(d, price).1, d.rewardRisk.value, cfg.minimumRr);
    SlippagePlainly(d, price);
  }

  lemma ScaleQuotient(x: real, y: real)
    requires y != 0.0
    ensures x / y * 100.0 == x * 100.0 / y
  {
  }

  lemma SlippagePlainly(d: Decision, price: real)
    requires d.entry != 0.0
    ensures SlippageAbs(d.side, d.entry, price) / d.entry * 100.0 == PlainSlippage(d, price)
  {
    ScaleQuotient(SlippageAbs(d.side, d.entry, price), d.entry);
  }

  /** Equal to within half a unit of that decimal place. */
  predicate Near(x: real, y: real, places: nat) {
    Abs(x - y) * Power(10.0, places) <= 0.5
  }

  /** The new stop and target keep the decided distance and ratio around the price paid, the stop on the losing
      and the target on the winning side, each to within half a unit of its last decimal place. */
  lemma LevelsPlainly(d: Decision, price: real)
    requires Complete(d)
    ensures var distance := Abs(d.entry - d.stopLoss.value);
      var stop, target := Levels(d, price).0, Levels(d, price).1;
      match d.side
      case Buy => Near(stop, price - distance, d.stopPlaces) && Near(target, price + distance * d.rewardRisk.value, d.targetPlaces)
      case Sell => Near(stop, price + distance, d.stopPlaces) && Near(target, price - distance * d.rewardRisk.value, d.targetPlaces)
  {
    hide Quantize, Near;
    var anchored := Anchored(d.side, price, Abs(d.entry - d.stopLoss.value), d.rewardRisk.value);
    QuantizeNear(anchored.0, d.stopPlaces);
    QuantizeNear(anchored.1, d.targetPlaces);
  }

  lemma {:induction false} TenPower(n: nat)
    ensures Pow10(n) == Power(10.0, n)
  {
    if n > 0 { TenPower(n - 1); }
  }

  /** In units of that decimal place. */
  function InUnits(x: real, places: nat): real {
    x * Power(10.0, places)
  }

  predicate Whole(x: real) {
    x.Floor as real == x
  }

  /** Rounding stays near, and gives a whole number of units of the last place. */
  lemma QuantizeNear(x: real, places: nat)
    ensures Near(Quantize(x, places), x, places) && Whole(InUnits(Quantize(x, places), places))
  {
    hide Pow10, Power, RoundHalfEven, Abs, InUnits;
    var scale, units := Pow10(places), RoundHalfEven(x * Pow10(places)) as real;
    QuantizeError(x, places);
    TenPower(places);
    QuotientOrder(0.5, scale, Abs(Quantize(x, places) - x));
    QuotientTimes(units, scale);
    UnitsOf(Quantize(x, places), places, units);
  }

  lemma UnitsOf(q: real, places: nat, units: real)
    requires q == units / Pow10(places)
    ensures InUnits(q, places) == units
  {
    hide Pow10, Power;
    TenPower(places);
    QuotientTimes(units, Pow10(places));
    ProductSame(Pow10(places), Power(10.0, places), q);
  }

  /** An order that execution itself ends FILLED: some poll reported the price, and the fill that is recorded met
      every gate with the stop and target that are stored. */
  lemma FilledPlainly(cfg: Settings, d: Decision, w: World, acked: Execution, o: Oracle, i: nat)
    requires var out := Finish(cfg, d, w, Polling(acked, 0, None, 0.0), o, i);
      out.1.Done? && out.1.result.status == Filled
    ensures var r := Finish(cfg, d, w, Polling(acked, 0, None, 0.0), o, i).1.result;
      && r.fill.price.Some? && r.fill.price.value > 0.0 && r.fill.quantity.Some? && r.plan.stopLoss.Some? && r.plan.takeProfit.Some?
      && Complete(d) && PlainSlippage(d, r.fill.price.value) <= cfg.maxSlippagePct
      && Abs(r.fill.price.value - r.plan.stopLoss.value) * r.fill.quantity.value <= PlainCap(d)
      && (exists k :: i <= k < i + 10 && ReportsPrice(o(k), r.fill.price))
      && (r.plan.stopLoss.value, r.plan.takeProfit.value) == Levels(d, r.fill.price.value)
  {
    hide Finish, Observation, EffectiveRr, Levels, Upsert, AcceptedWithin, ReportsPrice;
    AcknowledgedSettles(cfg, d, w, acked, 0, None, 0.0, o, i);
    ObservationBounds(0, None, 0.0, o, i);
    var seen := Observation(0, None, 0.0, o, i);
    if Complete(d) && seen.0.Some? {
      SlippagePlainly(d, seen.0.value);
    }
  }
}
