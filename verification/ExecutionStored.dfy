/** What `execute` returns is what the table holds. */
module ExecutionStored {
  import opened Prelude
  import opened ExecutionStore
  import opened ExecutionProtocol
  import opened ExecutionOutcome

  predicate NoneLost<T>(kept: Option<T>, incoming: Option<T>) {
    incoming.Some? || kept.None?
  }

  /** The incoming row brings a value wherever the stored one has one, so storing it replaces the row. */
  ghost predicate Covers(kept: Execution, r: Execution) {
    && r.signalId == kept.signalId && r.symbol == kept.symbol && r.side == kept.side && r.identity == kept.identity
    && NoneLost(kept.orderId, r.orderId) && NoneLost(kept.orderLinkId, r.orderLinkId)
    && NoneLost(kept.plan.quantity, r.plan.quantity) && NoneLost(kept.plan.price, r.plan.price)
    && NoneLost(kept.plan.stopLoss, r.plan.stopLoss) && NoneLost(kept.plan.takeProfit, r.plan.takeProfit)
    && NoneLost(kept.plan.leverage, r.plan.leverage)
    && kept.fill == NO_FILL
  }

  lemma CoveringReplaces(kept: Execution, r: Execution)
    requires Covers(kept, r)
    ensures Merge(kept, r) == r
  {
  }

  /** The task knows its stored row exactly. */
  ghost predicate Synced(kept: Execution, ph: Phase)
    decreases ph
  {
    match ph
    case Normalizing => false
    case Checking(_) => false
    case Leveraging(r) => r == kept && kept.fill == NO_FILL
    case Sending(r) => r == kept && kept.fill == NO_FILL
    case AwaitingAck(r) => r == kept && kept.fill == NO_FILL
    case Polling(r, _, _, _) => r == kept && kept.fill == NO_FILL
    case Protecting(_, r, _, _, _) => r == kept && kept.fill == NO_FILL
    case Closing(_, r) => Covers(kept, r)
    case AwaitingClose(r) => Covers(kept, r)
    case Saving(r, next) => Covers(kept, r) && Synced(r, next)
    case Done(r) => r == kept
    case Raised => true
  }

  lemma GatesKeepSync(cfg: Settings, d: Decision, kept: Execution, price: Option<real>, quantity: real)
    requires kept.fill == NO_FILL
    ensures Synced(kept, Judge(cfg, d, kept, price, quantity))
  {
    hide Gate;
  }

  lemma AckKeepsSync(kept: Execution, a: Answer)
    requires kept.fill == NO_FILL
    ensures Synced(kept, AfterAck(kept, a))
  {
  }

  lemma ProtectKeepsSync(d: Decision, kept: Execution, ph: Phase, a: Answer)
    requires ph.Protecting? && Synced(kept, ph)
    ensures Synced(kept, AfterProtect(d, ph, a))
  {
  }

  lemma StepKeepsSync(cfg: Settings, d: Decision, w: World, ph: Phase, a: Answer)
    requires d.signalId in w.rows && w.rows[d.signalId].signalId == d.signalId && Synced(w.rows[d.signalId], ph)
    ensures var next := Step(cfg, d, w, ph, a);
      && d.signalId in next.0.rows && next.0.rows[d.signalId].signalId == d.signalId
      && Synced(next.0.rows[d.signalId], next.1)
  {
    hide AfterPoll, AfterAck, Judge, AfterProtect, Merge, Covers;
    var kept := w.rows[d.signalId];
    match ph
    case Leveraging(r) => LeverageKeepsSync(kept);
    case AwaitingAck(r) => AckKeepsSync(kept, a);
    case Polling(_, _, price, quantity) =>
      var seen := AfterPoll(a, price, quantity);
      GatesKeepSync(cfg, d, kept, seen.0, seen.1);
    case Protecting(_, _, _, _, _) => ProtectKeepsSync(d, kept, ph, a);
    case Saving(r, next) => CoveringReplaces(kept, r); CoveredSignal(kept, r);
    case _ =>
  }

  lemma CoveredSignal(kept: Execution, r: Execution)
    requires Covers(kept, r)
    ensures r.signalId == kept.signalId
  {
  }

  lemma LeverageKeepsSync(kept: Execution)
    requires kept.fill == NO_FILL
    ensures Synced(kept, Saving(kept.(status := Submitted), Sending(kept.(status := Submitted))))
    ensures Synced(kept, Conclude(kept, Failed))
  {
  }

  lemma {:induction false} FinishKeepsSync(cfg: Settings, d: Decision, w: World, ph: Phase, o: Oracle, i: nat)
    requires d.signalId in w.rows && w.rows[d.signalId].signalId == d.signalId && Synced(w.rows[d.signalId], ph)
    ensures var out := Finish(cfg, d, w, ph, o, i);
      out.1.Done? ==> d.signalId in out.0.rows && out.0.rows[d.signalId] == out.1.result
    decreases Rank(ph)
  {
    hide Step;
    if !Finished(ph) {
      StepTerminates(cfg, d, w, ph, o(i));
      StepKeepsSync(cfg, d, w, ph, o(i));
      var next := Step(cfg, d, w, ph, o(i));
      FinishKeepsSync(cfg, d, next.0, next.1, o, if Awaits(ph) then i + 1 else i);
    }
  }

  /** However an execution ends with a result, the row stored for its signal is that result, or nothing was
      written and nothing sent because a check before the intent refused it. */
  lemma ReturnedIsStored(cfg: Settings, d: Decision, w: World, writable: bool, o: Oracle, i: nat)
    ensures var out := Finish(cfg, d, w, Begin(d, writable), o, i);
      out.1.Done? ==>
        (d.signalId in out.0.rows && out.0.rows[d.signalId] == out.1.result) || (out.0 == w && Begin(d, writable) == out.1)
  {
    hide Step;
    var ph := Begin(d, writable);
    if ph.Normalizing? {
      FirstSteps(cfg, d, w, o, i);
    }
  }

  lemma FirstSteps(cfg: Settings, d: Decision, w: World, o: Oracle, i: nat)
    ensures var out := Finish(cfg, d, w, Normalizing, o, i);
      out.1.Done? ==> d.signalId in out.0.rows && out.0.rows[d.signalId] == out.1.result
  {
    hide Finish, Merge;
    FinishStep(cfg, d, w, Normalizing, o, i);
    if o(i).NormalizedTo? {
      FinishStep(cfg, d, w, Checking(o(i).values), o, i + 1);
      if d.signalId in w.rows {
        FinishedStays(cfg, d, w, Done(w.rows[d.signalId]), o, i + 1);
      } else {
        var pending := PendingRow(d, o(i).values);
        FinishKeepsSync(cfg, d, w.(rows := w.rows[d.signalId := pending]), Leveraging(pending), o, i + 1);
      }
    } else {
      FinishedStays(cfg, d, w, Raised, o, i + 1);
    }
  }
}
