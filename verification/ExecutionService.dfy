/** The execution service as it is written: a method that stores row after row around its calls to the
    exchange, proved to end where the step-by-step protocol ends. */
module ExecutionService {
  import opened Prelude
  import opened ExecutionStore
  import opened ExecutionProtocol
  import opened ExecutionOutcome
  import opened ExecutionTerminal

  class ExecutionService {
    const cfg: Settings
    /** The exchange's i-th answer to a call that waits for one. */
    const answers: Oracle
    var asked: nat
    var rows: Table
    var sent: seq<Order>
    var stops: seq<Protection>

    constructor (cfg: Settings, answers: Oracle, rows: Table)
      ensures this.cfg == cfg && this.answers == answers
      ensures asked == 0 && View() == World(rows, [], [])
    {
      this.cfg, this.answers, this.rows := cfg, answers, rows;
      asked, sent, stops := 0, [], [];
    }

    ghost function View(): World
      reads this
    {
      World(rows, sent, stops)
    }

    /** Where the protocol ends from a phase, in the service's present state. */
    ghost function EndFrom(d: Decision, ph: Phase): (World, Phase)
      reads this
    {
      Finish(cfg, d, View(), ph, answers, asked)
    }

    /** The present state, with a returned result or an exception that escaped. */
    ghost function EndsWith(r: Option<Execution>): (World, Phase)
      reads this
    {
      (View(), if r.Some? then Done(r.value) else Raised)
    }

    method Ask() returns (a: Answer)
      modifies this`asked
      ensures a == answers(old(asked)) && asked == old(asked) + 1
    {
      a := answers(asked);
      asked := asked + 1;
    }

    method Persist(row: Execution)
      modifies this`rows
      ensures rows == Upsert(old(rows), row)
    {
      rows := Upsert(rows, row);
    }

    method Conclude(d: Decision, row: Execution, status: Status) returns (r: Option<Execution>)
      modifies this
      ensures EndsWith(r) == old(EndFrom(d, ExecutionProtocol.Conclude(row, status)))
    {
      hide Finish, Upsert;
      ConcludeEnds(cfg, d, View(), row.(status := status), answers, asked);
      Persist(row.(status := status));
      return Some(row.(status := status));
    }

    /** One reduce-only request, whatever comes back, then the failed row. */
    method EmergencyClose(d: Decision, order: Order, failed: Execution) returns (r: Option<Execution>)
      modifies this
      ensures EndsWith(r) == old(EndFrom(d, Closing(order, failed)))
    {
      hide Finish, Upsert;
      ClosingEnds(cfg, d, View(), order, failed, answers, asked);
      sent := sent + [order];
      var _ := Ask();
      Persist(failed);
      return Some(failed);
    }

    /** Three attempts to set stop and target. */
    method PlaceProtection(d: Decision, acked: Execution, stop: real, target: real, fill: Fill)
      returns (r: Option<Execution>)
      modifies this
      ensures EndsWith(r) == old(EndFrom(d, Protecting(0, acked, stop, target, fill)))
    {
      hide Finish, Upsert, CloseOrder, FilledRow, UnprotectedRow;
      var stopSuccess := false;
      ghost var end := EndFrom(d, Protecting(0, acked, stop, target, fill));
      var attempt := 0;
      while attempt < 3
        invariant attempt <= 3 && rows == old(rows) && sent == old(sent) && stops == old(stops)
        invariant attempt < 3 ==> EndFrom(d, Protecting(attempt, acked, stop, target, fill)) == end
        invariant !stopSuccess
        invariant attempt == 3 ==>
          EndFrom(d, Closing(CloseOrder(d, "close-prot-", FilledQuantity(fill)),
                             UnprotectedRow(Protecting(2, acked, stop, target, fill)))) == end
      {
        FinishStep(cfg, d, View(), Protecting(attempt, acked, stop, target, fill), answers, asked);
        var a := Ask();
        if a.Accepted? {
          stops := stops + [Protection(d.symbol, stop, target)];
          stopSuccess := true;
          var filled := acked.(status := Filled, fill := fill,
                               plan := acked.plan.(stopLoss := Some(stop), takeProfit := Some(target)));
          FilledRowAgain(attempt, acked, stop, target, fill);
          ConcludeEnds(cfg, d, View(), filled, answers, asked);
          Persist(filled);
          return Some(filled);
        }
        UnprotectedRowAgain(attempt, acked, stop, target, fill);
        attempt := attempt + 1;
      }
      UnprotectedRowAgain(2, acked, stop, target, fill);
      r := EmergencyClose(d, CloseOrder(d, "close-prot-", FilledQuantity(fill)),
                          acked.(status := Failed, fill := fill.(intendedRisk := None, fees := None)));
    }

    /** The gates on the observed fill, in the order they are applied. */
    method ValidateFill(d: Decision, acked: Execution, price: real, quantity: real) returns (r: Option<Execution>)
      requires price > 0.0
      modifies this
      ensures EndsWith(r) == old(EndFrom(d, Judge(cfg, d, acked, Some(price), quantity)))
    {
      hide Finish, Upsert, CloseOrder, Quantize, EffectiveRr, FeeAmount, RiskCap, Anchored, SlippageAbs, SlippagePct, RiskAt;
      ghost var verdict := Gate(cfg, d, price, quantity);
      if d.entry == 0.0 {
        FinishedStays(cfg, d, View(), Raised, answers, asked);
        return None;
      }
      var slippageAbs := SlippageAbs(d.side, d.entry, price);
      var slippagePct := SlippagePct(slippageAbs, d.entry);
      var fill := NO_FILL.(quantity := Some(quantity), price := Some(price),
                           slippageAbs := Some(slippageAbs), slippagePct := Some(slippagePct));
      if slippagePct > cfg.maxSlippagePct {
        r := EmergencyClose(d, CloseOrder(d, "close-", quantity), acked.(status := Failed, fill := fill));
        return;
      }
      if d.stopLoss.None? || d.takeProfit.None? || d.rewardRisk.None? {
        FinishedStays(cfg, d, View(), Raised, answers, asked);
        return None;
      }
      var distance := Abs(d.entry - d.stopLoss.value);
      var anchored := Anchored(d.side, price, distance, d.rewardRisk.value);
      var stop, target := Quantize(anchored.0, d.stopPlaces), Quantize(anchored.1, d.targetPlaces);
      var actualRisk := RiskAt(price, stop, quantity);
      var cap := RiskCap(d);
      if cap.None? {
        FinishedStays(cfg, d, View(), Raised, answers, asked);
        return None;
      }
      fill := fill.(actualRisk := Some(actualRisk));
      if actualRisk > cap.value {
        r := EmergencyClose(d, CloseOrder(d, "close-risk-", quantity), acked.(status := Failed, fill := fill));
        return;
      }
      var finalRr := EffectiveRr(price, quantity, stop, target, d.rewardRisk.value);
      fill := fill.(finalRr := Some(finalRr), fees := Some(FeeAmount(price, quantity)));
      if finalRr < cfg.minimumRr {
        r := EmergencyClose(d, CloseOrder(d, "close-rr-", quantity), acked.(status := Failed, fill := fill));
        return;
      }
      r := PlaceProtection(d, acked, stop, target, fill.(intendedRisk := d.riskAmount));
    }

    /** Up to ten polls for the fill, then the gates. */
    method AwaitFill(d: Decision, acked: Execution) returns (r: Option<Execution>)
      modifies this
      ensures EndsWith(r) == old(EndFrom(d, Polling(acked, 0, None, 0.0)))
    {
      hide Finish, Upsert, Gate;
      ghost var end := EndFrom(d, Polling(acked, 0, None, 0.0));
      var fillPrice: Option<real> := None;
      var filledQuantity := 0.0;
      var polls := 0;
      var seen := false;
      while polls < 10 && !seen
        invariant polls <= 10 && View() == old(View())
        invariant !seen && polls < 10 ==> EndFrom(d, Polling(acked, polls, fillPrice, filledQuantity)) == end
        invariant seen || polls == 10 ==> EndFrom(d, Judge(cfg, d, acked, fillPrice, filledQuantity)) == end
        decreases 10 - polls
      {
        FinishStep(cfg, d, View(), Polling(acked, polls, fillPrice, filledQuantity), answers, asked);
        var a := Ask();
        if a.Found? && (a.row.orderStatus == "Filled" || a.row.orderStatus == "PartiallyFilled") {
          if !a.row.avgPrice.Malformed? {
            if a.row.avgPrice.Number? {
              fillPrice := Some(a.row.avgPrice.value);
            }
            if !a.row.cumExecQty.Malformed? {
              if a.row.cumExecQty.Number? {
                filledQuantity := a.row.cumExecQty.value;
              }
              seen := fillPrice.Some? && fillPrice.value > 0.0;
            }
          }
        }
        polls := polls + 1;
      }
      if fillPrice.None? || fillPrice.value <= 0.0 {
        r := Conclude(d, acked, UnknownReconciling);
        return;
      }
      r := ValidateFill(d, acked, fillPrice.value, filledQuantity);
    }

    /** The entry request and what its outcome means. */
    method SubmitEntry(d: Decision, submitted: Execution) returns (r: Option<Execution>)
      modifies this
      ensures EndsWith(r) == old(EndFrom(d, Sending(submitted)))
    {
      hide Finish, Upsert, EntryOrder;
      FinishStep(cfg, d, View(), Sending(submitted), answers, asked);
      sent := sent + [EntryOrder(d, submitted)];
      FinishStep(cfg, d, View(), AwaitingAck(submitted), answers, asked);
      var a := Ask();
      match a
      case Acked(orderId, linkId) =>
        var acked := submitted.(status := Acknowledged, orderId := Some(orderId),
                                orderLinkId := TextOr(linkId, submitted.orderLinkId));
        FinishStep(cfg, d, View(), Saving(acked, Polling(acked, 0, None, 0.0)), answers, asked);
        Persist(acked);
        r := AwaitFill(d, acked);
      case ApiError => r := Conclude(d, submitted, Rejected);
      case ValueError => r := Conclude(d, submitted, Failed);
      case _ => r := Conclude(d, submitted, UnknownReconciling);
    }

    /** Runs one decision to its end. The result is missing when an exception escapes. */
    method Execute(d: Decision, writable: bool) returns (r: Option<Execution>)
      modifies this
      ensures EndsWith(r) == old(EndFrom(d, Begin(d, writable)))
    {
      hide Finish, Upsert, PendingRow, Refusal;
      if !d.ready {
        FinishedStays(cfg, d, View(), Begin(d, writable), answers, asked);
        return Some(Refusal(d, Rejected));
      }
      if !writable {
        FinishedStays(cfg, d, View(), Begin(d, writable), answers, asked);
        return Some(Refusal(d, Failed));
      }
      if d.quantity.None? || d.stopLoss.None? || d.takeProfit.None? || d.leverage.None? {
        FinishedStays(cfg, d, View(), Begin(d, writable), answers, asked);
        return Some(Refusal(d, Rejected));
      }
      FinishStep(cfg, d, View(), Normalizing, answers, asked);
      var normalized := Ask();
      if !normalized.NormalizedTo? {
        FinishedStays(cfg, d, View(), Raised, answers, asked);
        return None;
      }
      FinishStep(cfg, d, View(), Checking(normalized.values), answers, asked);
      if d.signalId in rows {
        FinishedStays(cfg, d, View(), Done(rows[d.signalId]), answers, asked);
        return Some(rows[d.signalId]);
      }
      var pending := PendingRow(d, normalized.values);
      Persist(pending);
      FinishStep(cfg, d, View(), Leveraging(pending), answers, asked);
      var leverage := Ask();
      if !leverage.Accepted? {
        r := Conclude(d, pending, Failed);
        return;
      }
      var submitted := pending.(status := Submitted);
      FinishStep(cfg, d, View(), Saving(submitted, Sending(submitted)), answers, asked);
      Persist(submitted);
      r := SubmitEntry(d, submitted);
    }

    /** Looks every unresolved intent up once and stores what that proves. */
    method RecoverUnresolved(ex: Exchange)
      requires forall id :: id in rows ==> rows[id].signalId == id
      modifies this`rows
      ensures rows == Recovered(ex, old(rows))
    {
      hide RecoveredRow;
      var todo := set id | id in rows && !Terminal(rows[id].status);
      forall id | id in rows && id !in todo ensures rows[id] == RecoveredRow(ex, rows[id]) {
        RecoveredClosed(ex, rows[id]);
      }
      while todo != {}
        invariant todo <= old(rows).Keys == rows.Keys
        invariant forall id :: id in rows ==> old(rows)[id].signalId == id
        invariant forall id :: id in todo ==> !Terminal(old(rows)[id].status)
        invariant forall id {:trigger rows[id]} :: id in rows && (id in todo || Terminal(old(rows)[id].status)) ==>
          rows[id] == old(rows)[id]
        invariant forall id {:trigger rows[id]} :: id in rows && id !in todo ==> rows[id] == RecoveredRow(ex, old(rows)[id])
        decreases |todo|
      {
        var id :| id in todo;
        var intent := rows[id];
        RecoveredOpen(ex, intent);
        Persist(Resolved(intent, Lookup(ex, intent)));
        todo := todo - {id};
      }
    }
  }

  lemma FilledRowAgain(attempts: nat, acked: Execution, stop: real, target: real, fill: Fill)
    ensures FilledRow(Protecting(attempts, acked, stop, target, fill))
      == acked.(status := Filled, fill := fill,
                plan := acked.plan.(stopLoss := Some(stop), takeProfit := Some(target)))
  {
  }

  lemma UnprotectedRowAgain(attempts: nat, acked: Execution, stop: real, target: real, fill: Fill)
    ensures UnprotectedRow(Protecting(attempts, acked, stop, target, fill))
      == acked.(status := Failed, fill := fill.(intendedRisk := None, fees := None))
  {
  }

  lemma RecoveredClosed(ex: Exchange, kept: Execution)
    requires Terminal(kept.status)
    ensures RecoveredRow(ex, kept) == kept
  {
  }

  lemma RecoveredOpen(ex: Exchange, kept: Execution)
    requires !Terminal(kept.status)
    ensures RecoveredRow(ex, kept) == Merge(kept, Resolved(kept, Lookup(ex, kept)))
  {
  }
}
