/** The durable table of order intents: one row per signal, upserted with COALESCE. */
module ExecutionStore {
  import opened Prelude

  datatype Status = Pending | Submitted | Acknowledged | PartiallyFilled | Filled
                  | UnknownReconciling | Rejected | Cancelled | Failed

  /** The complement of NON_TERMINAL_EXECUTION_STATUSES. */
  predicate Terminal(s: Status) {
    s.Filled? || s.Rejected? || s.Cancelled? || s.Failed?
  }

  /** Digests are stood in for by the values they digest, which makes them injective. */
  datatype RequestHash = RequestHash(signalId: string, symbol: string, side: Side, quantity: real, entry: real,
                                     stopLoss: real, takeProfit: real, leverage: real)

  datatype Identity = Identity(intentId: Option<string>, riskDecisionId: Option<(string, RequestHash)>,
                               requestHash: Option<RequestHash>) {
    function Or(kept: Identity): Identity {
      Identity(intentId.Or(kept.intentId), riskDecisionId.Or(kept.riskDecisionId), requestHash.Or(kept.requestHash))
    }
  }

  datatype Plan = Plan(quantity: Option<real>, price: Option<real>, stopLoss: Option<real>,
                       takeProfit: Option<real>, leverage: Option<real>) {
    function Or(kept: Plan): Plan {
      Plan(quantity.Or(kept.quantity), price.Or(kept.price), stopLoss.Or(kept.stopLoss),
           takeProfit.Or(kept.takeProfit), leverage.Or(kept.leverage))
    }
  }

  datatype Fill = Fill(quantity: Option<real>, price: Option<real>, slippageAbs: Option<real>, slippagePct: Option<real>,
                       intendedRisk: Option<real>, actualRisk: Option<real>, finalRr: Option<real>, fees: Option<real>) {
    function Or(kept: Fill): Fill {
      Fill(quantity.Or(kept.quantity), price.Or(kept.price), slippageAbs.Or(kept.slippageAbs),
           slippagePct.Or(kept.slippagePct), intendedRisk.Or(kept.intendedRisk), actualRisk.Or(kept.actualRisk),
           finalRr.Or(kept.finalRr), fees.Or(kept.fees))
    }
  }

  const NO_IDENTITY := Identity(None, None, None)
  const NO_PLAN := Plan(None, None, None, None, None)
  const NO_FILL := Fill(None, None, None, None, None, None, None, None)

  /** One execution result; the same value is a table row. */
  datatype Execution = Execution(status: Status, signalId: string, symbol: string, side: Side, identity: Identity,
                                 orderId: Option<string>, orderLinkId: Option<string>, plan: Plan, fill: Fill)

  type Table = map<string, Execution>

  /** ON CONFLICT DO UPDATE: symbol and side stay, the status is replaced, all else is coalesced. */
  function Merge(kept: Execution, incoming: Execution): Execution {
    kept.(status := incoming.status,
          identity := incoming.identity.Or(kept.identity),
          orderId := incoming.orderId.Or(kept.orderId),
          orderLinkId := incoming.orderLinkId.Or(kept.orderLinkId),
          plan := incoming.plan.Or(kept.plan),
          fill := incoming.fill.Or(kept.fill))
  }

  function Upsert(rows: Table, r: Execution): Table {
    rows[r.signalId := if r.signalId in rows then Merge(rows[r.signalId], r) else r]
  }

  // ---------------------------------------------------------------- what an upsert never loses

  predicate Kept<T>(before: Option<T>, after: Option<T>) {
    before.Some? ==> after.Some?
  }

  /** No field that held a value has become null. */
  ghost predicate NothingLost(before: Execution, after: Execution) {
    && Kept(before.identity.intentId, after.identity.intentId)
    && Kept(before.identity.riskDecisionId, after.identity.riskDecisionId)
    && Kept(before.identity.requestHash, after.identity.requestHash)
    && Kept(before.orderId, after.orderId) && Kept(before.orderLinkId, after.orderLinkId)
    && Kept(before.plan.quantity, after.plan.quantity) && Kept(before.plan.price, after.plan.price)
    && Kept(before.plan.stopLoss, after.plan.stopLoss) && Kept(before.plan.takeProfit, after.plan.takeProfit)
    && Kept(before.plan.leverage, after.plan.leverage)
    && Kept(before.fill.quantity, after.fill.quantity) && Kept(before.fill.price, after.fill.price)
    && Kept(before.fill.slippageAbs, after.fill.slippageAbs) && Kept(before.fill.slippagePct, after.fill.slippagePct)
    && Kept(before.fill.intendedRisk, after.fill.intendedRisk) && Kept(before.fill.actualRisk, after.fill.actualRisk)
    && Kept(before.fill.finalRr, after.fill.finalRr) && Kept(before.fill.fees, after.fill.fees)
  }

  /** Every stored row survives with its symbol and side, and nothing it held is lost. */
  ghost predicate Grows(before: Table, after: Table) {
    forall id {:trigger id in after} :: id in before ==>
      id in after
      && after[id].signalId == before[id].signalId
      && after[id].symbol == before[id].symbol && after[id].side == before[id].side
      && NothingLost(before[id], after[id])
  }

  lemma UpsertGrows(rows: Table, r: Execution)
    ensures Grows(rows, Upsert(rows, r))
  {
  }

  lemma GrowsTransitive(a: Table, b: Table, c: Table)
    requires Grows(a, b) && Grows(b, c)
    ensures Grows(a, c)
  {
    forall id | id in a
      ensures id in c && c[id].signalId == a[id].signalId && c[id].symbol == a[id].symbol && c[id].side == a[id].side
        && NothingLost(a[id], c[id])
    {
      assert id in b;
    }
  }

  // ---------------------------------------------------------------- what an upsert writes

  /** The column now holds the new value if there is one, and what it held before otherwise. */
  predicate Written<T(==)>(before: Option<T>, incoming: Option<T>, after: Option<T>) {
    (incoming.Some? ==> after == incoming) && (incoming.None? ==> after == before)
  }

  ghost predicate AllWritten(before: Execution, incoming: Execution, after: Execution) {
    && Written(before.identity.intentId, incoming.identity.intentId, after.identity.intentId)
    && Written(before.identity.riskDecisionId, incoming.identity.riskDecisionId, after.identity.riskDecisionId)
    && Written(before.identity.requestHash, incoming.identity.requestHash, after.identity.requestHash)
    && Written(before.orderId, incoming.orderId, after.orderId)
    && Written(before.orderLinkId, incoming.orderLinkId, after.orderLinkId)
    && Written(before.plan.quantity, incoming.plan.quantity, after.plan.quantity)
    && Written(before.plan.price, incoming.plan.price, after.plan.price)
    && Written(before.plan.stopLoss, incoming.plan.stopLoss, after.plan.stopLoss)
    && Written(before.plan.takeProfit, incoming.plan.takeProfit, after.plan.takeProfit)
    && Written(before.plan.leverage, incoming.plan.leverage, after.plan.leverage)
    && Written(before.fill.quantity, incoming.fill.quantity, after.fill.quantity)
    && Written(before.fill.price, incoming.fill.price, after.fill.price)
    && Written(before.fill.slippageAbs, incoming.fill.slippageAbs, after.fill.slippageAbs)
    && Written(before.fill.slippagePct, incoming.fill.slippagePct, after.fill.slippagePct)
    && Written(before.fill.intendedRisk, incoming.fill.intendedRisk, after.fill.intendedRisk)
    && Written(before.fill.actualRisk, incoming.fill.actualRisk, after.fill.actualRisk)
    && Written(before.fill.finalRr, incoming.fill.finalRr, after.fill.finalRr)
    && Written(before.fill.fees, incoming.fill.fees, after.fill.fees)
  }

  /** A new row reads back as it was written; over an existing one the status and every value present are
      the new ones. Writing the same row again changes nothing. */
  lemma UpsertReadsBack(rows: Table, r: Execution)
    ensures var after := Upsert(rows, r);
      && r.signalId in after && after[r.signalId].status == r.status
      && (r.signalId !in rows ==> after[r.signalId] == r)
      && (r.signalId in rows ==> AllWritten(rows[r.signalId], r, after[r.signalId]))
      && Upsert(after, r) == after
  {
    hide Merge;
    MergeWrites(r, r);
    if r.signalId in rows {
      MergeWrites(rows[r.signalId], r);
    }
  }

  lemma MergeWrites(kept: Execution, r: Execution)
    ensures AllWritten(kept, r, Merge(kept, r)) && Merge(kept, r).status == r.status
    ensures Merge(kept, r).signalId == kept.signalId
    ensures Merge(Merge(kept, r), r) == Merge(kept, r) && Merge(r, r) == r
  {
    hide Identity.Or, Plan.Or, Fill.Or;
    PartsAgain(kept, r);
    PartsAgain(r, r);
    PartsWritten(kept, r);
  }

  lemma PartsAgain(kept: Execution, r: Execution)
    ensures r.identity.Or(r.identity.Or(kept.identity)) == r.identity.Or(kept.identity) && r.identity.Or(r.identity) == r.identity
    ensures r.plan.Or(r.plan.Or(kept.plan)) == r.plan.Or(kept.plan) && r.plan.Or(r.plan) == r.plan
    ensures r.fill.Or(r.fill.Or(kept.fill)) == r.fill.Or(kept.fill) && r.fill.Or(r.fill) == r.fill
  {
  }

  lemma PartsWritten(kept: Execution, r: Execution)
    ensures AllWritten(kept, r, Merge(kept, r))
  {
  }
}
