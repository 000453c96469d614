/** Where an entry request comes from, over every run: a ready decision and the values the exchange fitted to it. */
module ExecutionOrigin {
  import opened Prelude
  import opened ExecutionStore
  import opened ExecutionProtocol
  import opened ExecutionSafety

  // ---------------------------------------------------------------- what an intent and its entry must say

  /** READY, with everything an order needs. */
  predicate Eligible(d: Decision) {
    d.ready && d.quantity.Some? && d.stopLoss.Some? && d.takeProfit.Some? && d.leverage.Some?
  }

  /** The row is the intent of this decision with these fitted values, column by column. */
  predicate IntentOf(r: Execution, d: Decision, n: Normalized) {
    && r.signalId == d.signalId && r.symbol == d.symbol && r.side == d.side
    && r.plan.quantity == Some(n.quantity) && r.plan.price == Some(d.entry) && r.plan.leverage == d.leverage
    && d.leverage.Some?
    && r.identity.requestHash ==
       Some(RequestHash(d.signalId, d.symbol, d.side, n.quantity, d.entry, n.stopLoss, n.takeProfit, d.leverage.value))
  }

  /** The market order that opens the decided position. */
  predicate EntryOf(o: Order, d: Decision, n: Normalized) {
    !o.reduceOnly && o.link == "bot-" + d.signalId && o.symbol == d.symbol && o.side == d.side && o.quantity == n.quantity
  }

  // ---------------------------------------------------------------- events behind them

  /** Somebody started this decision with a writable store. */
  ghost predicate Started(events: seq<Event>, d: Decision) {
    exists i :: 0 <= i < |events| && events[i].Start? && events[i].decision == d && events[i].writable
  }

  /** A task of this decision was given that answer while it was in a phase that waits for it. */
  ghost predicate AnsweredAt(cfg: Settings, events: seq<Event>, i: nat, d: Decision, a: Answer)
    requires i < |events|
  {
    var s := Run(cfg, START, events[..i]);
    && events[i].Advance? && events[i].answer == a && events[i].task in s.tasks && s.tasks[events[i].task].decision == d
    && (a.NormalizedTo? ==> s.tasks[events[i].task].phase == Normalizing)
    && (a.Accepted? ==> s.tasks[events[i].task].phase.Leveraging?)
  }

  ghost predicate Answered(cfg: Settings, events: seq<Event>, d: Decision, a: Answer) {
    exists i :: 0 <= i < |events| && AnsweredAt(cfg, events, i, d, a)
  }

  /** An eligible decision, started, with its values fitted by the exchange. */
  ghost predicate Origin(cfg: Settings, events: seq<Event>, d: Decision, n: Normalized) {
    Eligible(d) && Started(events, d) && Answered(cfg, events, d, NormalizedTo(n))
  }

  lemma AnsweredStays(cfg: Settings, events: seq<Event>, e: Event, d: Decision, a: Answer)
    requires Answered(cfg, events, d, a)
    ensures Answered(cfg, events + [e], d, a)
  {
    hide Run;
    var i :| 0 <= i < |events| && AnsweredAt(cfg, events, i, d, a);
    assert (events + [e])[..i] == events[..i] && (events + [e])[i] == events[i];
    assert AnsweredAt(cfg, events + [e], i, d, a);
  }

  lemma StartedStays(events: seq<Event>, e: Event, d: Decision)
    ensures Started(events, d) ==> Started(events + [e], d)
  {
    if Started(events, d) {
      var i :| 0 <= i < |events| && events[i].Start? && events[i].decision == d && events[i].writable;
      assert (events + [e])[i] == events[i];
    }
  }

  lemma OriginStays(cfg: Settings, events: seq<Event>, e: Event, d: Decision, n: Normalized)
    requires Origin(cfg, events, d, n)
    ensures Origin(cfg, events + [e], d, n)
  {
    hide Answered, Started;
    AnsweredStays(cfg, events, e, d, NormalizedTo(n));
    StartedStays(events, e, d);
  }

  lemma AnsweredNow(cfg: Settings, events: seq<Event>, e: Event, d: Decision)
    requires e.Advance? && e.task in Run(cfg, START, events).tasks && Run(cfg, START, events).tasks[e.task].decision == d
    requires e.answer.NormalizedTo? ==> Run(cfg, START, events).tasks[e.task].phase == Normalizing
    requires e.answer.Accepted? ==> Run(cfg, START, events).tasks[e.task].phase.Leveraging?
    ensures Answered(cfg, events + [e], d, e.answer)
  {
    hide Run;
    assert (events + [e])[..|events|] == events && (events + [e])[|events|] == e;
    assert AnsweredAt(cfg, events + [e], |events|, d, e.answer);
  }

  // ---------------------------------------------------------------- what tasks, rows and requests carry

  /** Every row the phase still holds is the intent of the decision. */
  predicate Carries(ph: Phase, d: Decision, n: Normalized)
    decreases ph
  {
    match ph
    case Normalizing => false
    case Checking(_) => false
    case Done(_) => true
    case Raised => true
    case Leveraging(r) => IntentOf(r, d, n)
    case Sending(r) => IntentOf(r, d, n)
    case AwaitingAck(r) => IntentOf(r, d, n)
    case Polling(r, _, _, _) => IntentOf(r, d, n)
    case Protecting(_, r, _, _, _) => IntentOf(r, d, n)
    case Closing(_, r) => IntentOf(r, d, n)
    case AwaitingClose(r) => IntentOf(r, d, n)
    case Saving(r, next) => IntentOf(r, d, n) && Carries(next, d, n)
  }

  /** The phase leads to the entry request. */
  predicate AboutToSend(ph: Phase)
    decreases ph
  {
    ph.Sending? || (ph.Saving? && AboutToSend(ph.next))
  }

  ghost predicate TaskFrom(cfg: Settings, events: seq<Event>, t: Task) {
    && (t.phase == Normalizing ==> Eligible(t.decision) && Started(events, t.decision))
    && (t.phase.Checking? ==> Origin(cfg, events, t.decision, t.phase.values))
    && (!(t.phase == Normalizing || t.phase.Checking? || Finished(t.phase)) ==>
          exists n :: Origin(cfg, events, t.decision, n) && Carries(t.phase, t.decision, n))
    && (AboutToSend(t.phase) ==> Answered(cfg, events, t.decision, Accepted))
  }

  ghost predicate RowFrom(cfg: Settings, events: seq<Event>, r: Execution) {
    exists d, n :: Origin(cfg, events, d, n) && IntentOf(r, d, n)
  }

  /** The entry of an eligible, started decision whose values were fitted and whose leverage was set; its intent is stored. */
  ghost predicate EntryFrom(cfg: Settings, events: seq<Event>, rows: Table, o: Order) {
    exists d, n :: Origin(cfg, events, d, n) && Answered(cfg, events, d, Accepted) && EntryOf(o, d, n)
                   && d.signalId in rows && IntentOf(rows[d.signalId], d, n)
  }

  ghost predicate AllFrom(cfg: Settings, events: seq<Event>, s: System) {
    && (forall t :: t in s.tasks ==> TaskFrom(cfg, events, s.tasks[t]))
    && (forall id :: id in s.world.rows ==> RowFrom(cfg, events, s.world.rows[id]))
    && (forall k :: 0 <= k < |s.recovering| ==> RowFrom(cfg, events, s.recovering[k]))
    && (forall k :: 0 <= k < |s.world.sent| ==> s.world.sent[k].reduceOnly || EntryFrom(cfg, events, s.world.rows, s.world.sent[k]))
  }

  // ---------------------------------------------------------------- one step of a task

  lemma ConcludeCarries(r: Execution, d: Decision, n: Normalized, status: Status)
    requires IntentOf(r, d, n)
    ensures Carries(Conclude(r, status), d, n) && !AboutToSend(Conclude(r, status))
  {
  }

  lemma AckCarries(r: Execution, d: Decision, n: Normalized, a: Answer)
    requires IntentOf(r, d, n)
    ensures Carries(AfterAck(r, a), d, n) && !AboutToSend(AfterAck(r, a))
  {
  }

  lemma JudgeCarries(cfg: Settings, r: Execution, d: Decision, n: Normalized, price: Option<real>, quantity: real)
    requires IntentOf(r, d, n)
    ensures Carries(Judge(cfg, d, r, price, quantity), d, n) && !AboutToSend(Judge(cfg, d, r, price, quantity))
  {
    hide Gate;
  }

  lemma ProtectCarries(ph: Phase, d: Decision, n: Normalized, a: Answer)
    requires ph.Protecting? && IntentOf(ph.acked, d, n)
    ensures Carries(AfterProtect(d, ph, a), d, n) && !AboutToSend(AfterProtect(d, ph, a))
  {
  }

  lemma PendingIsIntent(d: Decision, n: Normalized)
    requires Eligible(d)
    ensures IntentOf(PendingRow(d, n), d, n)
  {
  }

  /** The intent as it is inserted: PENDING, with the fitted stop and target. */
  lemma IntentInserted(cfg: Settings, d: Decision, n: Normalized, w: World, a: Answer)
    requires Eligible(d) && d.signalId !in w.rows
    ensures var rows := Step(cfg, d, w, Checking(n), a).0.rows;
      && rows.Keys == w.rows.Keys + {d.signalId} && (forall id :: id in w.rows ==> rows[id] == w.rows[id])
      && IntentOf(rows[d.signalId], d, n) && rows[d.signalId].status == Pending
      && rows[d.signalId].plan.stopLoss == Some(n.stopLoss) && rows[d.signalId].plan.takeProfit == Some(n.takeProfit)
      && rows[d.signalId].orderLinkId == Some("bot-" + d.signalId) && rows[d.signalId].orderId.None? && rows[d.signalId].fill == NO_FILL
  {
  }

  lemma SubmittedCarries(r: Execution, d: Decision, n: Normalized)
    requires IntentOf(r, d, n)
    ensures Carries(Saving(r.(status := Submitted), Sending(r.(status := Submitted))), d, n)
  {
  }

  lemma StepCarries(cfg: Settings, d: Decision, w: World, ph: Phase, a: Answer, n: Normalized)
    requires Carries(ph, d, n)
    ensures var next := Step(cfg, d, w, ph, a).1;
      Carries(next, d, n) && (AboutToSend(next) ==> AboutToSend(ph) || (ph.Leveraging? && a.Accepted?))
  {
    hide Upsert, AfterAck, Judge, AfterProtect, AfterPoll, IntentOf, Conclude;
    match ph
    case Leveraging(r) => SubmittedCarries(r, d, n); ConcludeCarries(r, d, n, Failed);
    case AwaitingAck(r) => AckCarries(r, d, n, a);
    case Polling(r, _, price, quantity) =>
      var seen := AfterPoll(a, price, quantity);
      JudgeCarries(cfg, r, d, n, seen.0, seen.1);
    case Protecting(_, r, _, _, _) => ProtectCarries(ph, d, n, a);
    case AwaitingClose(r) => DoneCarries(r, d, n);
    case _ =>
  }

  lemma DoneCarries(r: Execution, d: Decision, n: Normalized)
    requires IntentOf(r, d, n)
    ensures Carries(Saving(r, Done(r)), d, n) && !AboutToSend(Saving(r, Done(r)))
  {
  }

  /** What a step does to the table and to the requests. */
  lemma StepWrites(cfg: Settings, d: Decision, w: World, ph: Phase, a: Answer)
    ensures var next := Step(cfg, d, w, ph, a);
      && (next.0.rows == w.rows
          || (ph.Checking? && d.signalId !in w.rows && next.0.rows == Upsert(w.rows, PendingRow(d, ph.values)))
          || (ph.Saving? && next.0.rows == Upsert(w.rows, ph.row)))
      && (next.0.sent == w.sent
          || (ph.Sending? && next.0.sent == w.sent + [EntryOrder(d, ph.submitted)] && next.0.rows == w.rows)
          || (ph.Closing? && next.0.sent == w.sent + [ph.order]))
  {
    hide Upsert, AfterAck, Judge, AfterProtect, AfterPoll, EntryOrder, PendingRow, Conclude;
  }

  lemma EntryIsDecided(d: Decision, r: Execution, n: Normalized)
    requires IntentOf(r, d, n)
    ensures EntryOf(EntryOrder(d, r), d, n)
  {
  }

  // ---------------------------------------------------------------- rows

  /** One signal has one intent: equal identity, equal decision as far as the intent goes. */
  lemma SameIntent(r: Execution, d: Decision, n: Normalized, r': Execution, d': Decision, n': Normalized)
    requires IntentOf(r, d, n) && IntentOf(r', d', n')
    requires r'.identity == r.identity && r'.signalId == r.signalId && r'.symbol == r.symbol && r'.side == r.side
    ensures IntentOf(r', d, n)
  {
  }

  lemma UpsertIntent(rows: Table, r: Execution, d: Decision, n: Normalized)
    requires IntentOf(r, d, n) && (r.signalId in rows ==> Copies(rows, r) && rows[r.signalId].signalId == r.signalId)
    ensures IntentOf(Upsert(rows, r)[r.signalId], d, n)
    ensures forall id :: id in rows && id != r.signalId ==> id in Upsert(rows, r) && Upsert(rows, r)[id] == rows[id]
    ensures Upsert(rows, r).Keys == rows.Keys + {r.signalId}
  {
  }

  lemma ResolvedIntent(intent: Execution, d: Decision, n: Normalized, a: Answer)
    requires IntentOf(intent, d, n)
    ensures IntentOf(Resolved(intent, a), d, n)
  {
  }

  // ---------------------------------------------------------------- the invariant

  lemma RowFromStays(cfg: Settings, events: seq<Event>, e: Event, r: Execution)
    requires RowFrom(cfg, events, r)
    ensures RowFrom(cfg, events + [e], r)
  {
    hide Origin, IntentOf;
    var d, n :| Origin(cfg, events, d, n) && IntentOf(r, d, n);
    OriginStays(cfg, events, e, d, n);
  }

  lemma TaskFromStays(cfg: Settings, events: seq<Event>, e: Event, t: Task)
    requires TaskFrom(cfg, events, t)
    ensures TaskFrom(cfg, events + [e], t)
  {
    hide Origin, Answered, Started, Carries;
    StartedStays(events, e, t.decision);
    if t.phase.Checking? {
      OriginStays(cfg, events, e, t.decision, t.phase.values);
    }
    if AboutToSend(t.phase) {
      AnsweredStays(cfg, events, e, t.decision, Accepted);
    }
    if !(t.phase == Normalizing || t.phase.Checking? || Finished(t.phase)) {
      var n :| Origin(cfg, events, t.decision, n) && Carries(t.phase, t.decision, n);
      OriginStays(cfg, events, e, t.decision, n);
    }
  }

  lemma EntryFromStays(cfg: Settings, events: seq<Event>, e: Event, rows: Table, rows': Table, o: Order)
    requires EntryFrom(cfg, events, rows, o) && Stable(rows, rows')
    requires forall id :: id in rows' ==> RowFrom(cfg, events + [e], rows'[id])
    ensures EntryFrom(cfg, events + [e], rows', o)
  {
    hide Origin, Answered, IntentOf, EntryOf;
    var d, n :| Origin(cfg, events, d, n) && Answered(cfg, events, d, Accepted) && EntryOf(o, d, n)
                && d.signalId in rows && IntentOf(rows[d.signalId], d, n);
    OriginStays(cfg, events, e, d, n);
    AnsweredStays(cfg, events, e, d, Accepted);
    assert RowFrom(cfg, events + [e], rows'[d.signalId]);
    var d', n' :| Origin(cfg, events + [e], d', n') && IntentOf(rows'[d.signalId], d', n');
    SameIntent(rows[d.signalId], d, n, rows'[d.signalId], d', n');
  }

  /** The table after an upsert of an intent is again a table of intents. */
  lemma UpsertFrom(cfg: Settings, events: seq<Event>, rows: Table, r: Execution, d: Decision, n: Normalized)
    requires forall id :: id in rows ==> RowFrom(cfg, events, rows[id])
    requires Origin(cfg, events, d, n) && IntentOf(r, d, n)
    requires r.signalId in rows ==> Copies(rows, r) && rows[r.signalId].signalId == r.signalId
    ensures forall id :: id in Upsert(rows, r) ==> RowFrom(cfg, events, Upsert(rows, r)[id])
  {
    hide Origin, IntentOf, Upsert;
    UpsertIntent(rows, r, d, n);
    forall id | id in Upsert(rows, r) ensures RowFrom(cfg, events, Upsert(rows, r)[id]) {
      if id == r.signalId {
        assert Origin(cfg, events, d, n) && IntentOf(Upsert(rows, r)[id], d, n);
      }
    }
  }

  /** After a step of task t: the table. */
  lemma AdvanceRows(cfg: Settings, events: seq<Event>, e: Event)
    requires var s := Run(cfg, START, events);
      Safe(s) && AllFrom(cfg, events, s) && e.Advance? && e.task in s.tasks
    ensures var s := Run(cfg, START, events);
      forall id :: id in Apply(cfg, s, e).world.rows ==> RowFrom(cfg, events + [e], Apply(cfg, s, e).world.rows[id])
  {
    hide Step, Upsert, IntentOf, Origin, Run, RowFrom, Copies, PendingRow, ClaimsOk, EntriesOk, IntentsOk;
    var s := Run(cfg, START, events);
    var d, ph := s.tasks[e.task].decision, s.tasks[e.task].phase;
    var w := s.world;
    StepWrites(cfg, d, w, ph, e.answer);
    forall id | id in w.rows ensures RowFrom(cfg, events + [e], w.rows[id]) {
      RowFromStays(cfg, events, e, w.rows[id]);
    }
    assert TaskFrom(cfg, events, s.tasks[e.task]);
    if ph.Checking? {
      OriginStays(cfg, events, e, d, ph.values);
      OriginEligible(cfg, events, d, ph.values);
      PendingIsIntent(d, ph.values);
      PendingSignal(d, ph.values);
      if d.signalId !in w.rows {
        UpsertFrom(cfg, events + [e], w.rows, PendingRow(d, ph.values), d, ph.values);
      }
    } else if ph.Saving? {
      var n :| Origin(cfg, events, d, n) && Carries(ph, d, n);
      OriginStays(cfg, events, e, d, n);
      SavingIsMine(s, e.task);
      UpsertFrom(cfg, events + [e], w.rows, ph.row, d, n);
    }
  }

  lemma OriginEligible(cfg: Settings, events: seq<Event>, d: Decision, n: Normalized)
    requires Origin(cfg, events, d, n)
    ensures Eligible(d)
  {
  }

  lemma PendingSignal(d: Decision, n: Normalized)
    ensures PendingRow(d, n).signalId == d.signalId
  {
  }

  lemma SavingIsMine(s: System, t: nat)
    requires Safe(s) && t in s.tasks && s.tasks[t].phase.Saving?
    ensures var r := s.tasks[t].phase.row;
      Copies(s.world.rows, r) && s.world.rows[r.signalId].signalId == r.signalId
  {
  }

  /** After a step of task t: the task. */
  lemma AdvanceTask(cfg: Settings, events: seq<Event>, e: Event)
    requires var s := Run(cfg, START, events);
      AllFrom(cfg, events, s) && e.Advance? && e.task in s.tasks
    ensures var s := Run(cfg, START, events);
      TaskFrom(cfg, events + [e], Apply(cfg, s, e).tasks[e.task])
  {
    hide Step, IntentOf, Run, RowFrom, Answered, Started, Carries, EntryFrom;
    var s := Run(cfg, START, events);
    var d, ph := s.tasks[e.task].decision, s.tasks[e.task].phase;
    assert TaskFrom(cfg, events, s.tasks[e.task]);
    StartedStays(events, e, d);
    if ph == Normalizing {
      NormalizingStep(cfg, d, s.world, e.answer);
      if e.answer.NormalizedTo? {
        AnsweredNow(cfg, events, e, d);
      }
    } else if ph.Checking? {
      OriginStays(cfg, events, e, d, ph.values);
      CheckingStep(cfg, d, s.world, ph.values, e.answer);
    } else if Finished(ph) {
      FinishedStep(cfg, d, s.world, ph, e.answer);
    } else {
      var n :| Origin(cfg, events, d, n) && Carries(ph, d, n);
      OriginStays(cfg, events, e, d, n);
      StepCarries(cfg, d, s.world, ph, e.answer, n);
      CarriesIsPast(Step(cfg, d, s.world, ph, e.answer).1, d, n);
      if AboutToSend(ph) {
        AnsweredStays(cfg, events, e, d, Accepted);
      } else if ph.Leveraging? && e.answer.Accepted? {
        AnsweredNow(cfg, events, e, d);
      }
    }
  }

  lemma CarriesIsPast(ph: Phase, d: Decision, n: Normalized)
    requires Carries(ph, d, n)
    ensures ph != Normalizing && !ph.Checking?
  {
  }

  lemma NormalizingStep(cfg: Settings, d: Decision, w: World, a: Answer)
    ensures Step(cfg, d, w, Normalizing, a).1 == if a.NormalizedTo? then Checking(a.values) else Raised
  {
  }

  lemma FinishedStep(cfg: Settings, d: Decision, w: World, ph: Phase, a: Answer)
    requires Finished(ph)
    ensures Step(cfg, d, w, ph, a).1 == ph && !AboutToSend(ph)
  {
  }

  lemma CheckingStep(cfg: Settings, d: Decision, w: World, n: Normalized, a: Answer)
    ensures var next := Step(cfg, d, w, Checking(n), a).1;
      (next.Done? || (Eligible(d) ==> Carries(next, d, n))) && !AboutToSend(next) && next != Normalizing && !next.Checking?
  {
  }

  /** After a step of task t: the requests. */
  lemma AdvanceSent(cfg: Settings, events: seq<Event>, e: Event)
    requires var s := Run(cfg, START, events);
      Safe(s) && AllFrom(cfg, events, s) && e.Advance? && e.task in s.tasks
    ensures var s := Run(cfg, START, events);
      var w := Apply(cfg, s, e).world;
      forall k :: 0 <= k < |w.sent| ==> w.sent[k].reduceOnly || EntryFrom(cfg, events + [e], w.rows, w.sent[k])
  {
    hide Step, Upsert, Run, RowFrom, EntryFrom, PhaseOk, Origin, Answered, IntentOf, Stable, Grows, EntryOf, Carries;
    var s := Run(cfg, START, events);
    var d, ph := s.tasks[e.task].decision, s.tasks[e.task].phase;
    var w, w' := s.world, Apply(cfg, s, e).world;
    AdvanceRows(cfg, events, e);
    ApplyKeepsSafe(cfg, s, e);
    StepWrites(cfg, d, w, ph, e.answer);
    forall k | 0 <= k < |w.sent| ensures w.sent[k].reduceOnly || EntryFrom(cfg, events + [e], w'.rows, w.sent[k]) {
      if !w.sent[k].reduceOnly {
        EntryFromStays(cfg, events, e, w.rows, w'.rows, w.sent[k]);
      }
    }
    if w'.sent != w.sent {
      if ph.Sending? {
        SentFrom(cfg, events, e);
      } else {
        ClosingIsReduceOnly(s, e.task);
      }
    }
  }

  lemma ClosingIsReduceOnly(s: System, t: nat)
    requires Safe(s) && t in s.tasks && s.tasks[t].phase.Closing?
    ensures s.tasks[t].phase.order.reduceOnly
  {
  }

  lemma SendingIsMine(s: System, t: nat)
    requires Safe(s) && t in s.tasks && s.tasks[t].phase.Sending?
    ensures Mine(s.world.rows, s.tasks[t].decision, s.tasks[t].phase.submitted)
    ensures s.tasks[t].decision.signalId in s.world.rows && s.world.rows[s.tasks[t].decision.signalId].signalId == s.tasks[t].decision.signalId
  {
  }

  lemma SentFrom(cfg: Settings, events: seq<Event>, e: Event)
    requires var s := Run(cfg, START, events);
      Safe(s) && AllFrom(cfg, events, s) && e.Advance? && e.task in s.tasks && s.tasks[e.task].phase.Sending?
    ensures var s := Run(cfg, START, events);
      EntryFrom(cfg, events + [e], s.world.rows, EntryOrder(s.tasks[e.task].decision, s.tasks[e.task].phase.submitted))
  {
    hide Run, Origin, Answered, IntentOf, EntryOf, PhaseOk, EntryOrder;
    var s := Run(cfg, START, events);
    var d, r := s.tasks[e.task].decision, s.tasks[e.task].phase.submitted;
    assert TaskFrom(cfg, events, s.tasks[e.task]);
    var n :| Origin(cfg, events, d, n) && Carries(s.tasks[e.task].phase, d, n);
    OriginStays(cfg, events, e, d, n);
    AnsweredStays(cfg, events, e, d, Accepted);
    SendingIsMine(s, e.task);
    EntryIsDecided(d, r, n);
    var kept := s.world.rows[d.signalId];
    assert RowFrom(cfg, events, kept);
    var d', n' :| Origin(cfg, events, d', n') && IntentOf(kept, d', n');
    SameIntent(r, d, n, kept, d', n');
  }

  lemma AdvanceFrom(cfg: Settings, events: seq<Event>, e: Event)
    requires var s := Run(cfg, START, events);
      Safe(s) && AllFrom(cfg, events, s) && e.Advance? && e.task in s.tasks
    ensures AllFrom(cfg, events + [e], Apply(cfg, Run(cfg, START, events), e))
  {
    hide Step, Run, RowFrom, EntryFrom, TaskFrom, Safe;
    var s := Run(cfg, START, events);
    AdvanceRows(cfg, events, e);
    AdvanceTask(cfg, events, e);
    AdvanceSent(cfg, events, e);
    var next := Apply(cfg, s, e);
    forall t | t in next.tasks ensures TaskFrom(cfg, events + [e], next.tasks[t]) {
      if t != e.task {
        TaskFromStays(cfg, events, e, s.tasks[t]);
      }
    }
    forall k | 0 <= k < |s.recovering| ensures RowFrom(cfg, events + [e], s.recovering[k]) {
      RowFromStays(cfg, events, e, s.recovering[k]);
    }
  }

  /** Whatever touches neither table nor requests and adds no unfounded task or intent. */
  lemma QuietFrom(cfg: Settings, events: seq<Event>, e: Event, next: System)
    requires var s := Run(cfg, START, events);
      AllFrom(cfg, events, s) && next.world == s.world
      && (forall t :: t in next.tasks && t !in s.tasks ==> TaskFrom(cfg, events + [e], next.tasks[t]))
      && (forall t :: t in next.tasks && t in s.tasks ==> next.tasks[t] == s.tasks[t])
      && (forall k :: 0 <= k < |next.recovering| ==> RowFrom(cfg, events, next.recovering[k]))
    ensures AllFrom(cfg, events + [e], next)
  {
    hide Run, RowFrom, EntryFrom, TaskFrom;
    var s := Run(cfg, START, events);
    forall t | t in next.tasks ensures TaskFrom(cfg, events + [e], next.tasks[t]) {
      if t in s.tasks { TaskFromStays(cfg, events, e, s.tasks[t]); }
    }
    forall id | id in s.world.rows ensures RowFrom(cfg, events + [e], s.world.rows[id]) {
      RowFromStays(cfg, events, e, s.world.rows[id]);
    }
    forall k | 0 <= k < |next.recovering| ensures RowFrom(cfg, events + [e], next.recovering[k]) {
      RowFromStays(cfg, events, e, next.recovering[k]);
    }
    NothingChanges(s.world.rows);
    forall k | 0 <= k < |s.world.sent| ensures s.world.sent[k].reduceOnly || EntryFrom(cfg, events + [e], s.world.rows, s.world.sent[k]) {
      if !s.world.sent[k].reduceOnly {
        EntryFromStays(cfg, events, e, s.world.rows, s.world.rows, s.world.sent[k]);
      }
    }
  }

  lemma {:induction false} IntentsFrom(cfg: Settings, events: seq<Event>, rows: Table, order: seq<string>)
    requires forall id :: id in rows ==> RowFrom(cfg, events, rows[id])
    ensures forall k :: 0 <= k < |Intents(rows, order)| ==> RowFrom(cfg, events, Intents(rows, order)[k])
  {
    hide RowFrom, Run;
    if order != [] {
      IntentsFrom(cfg, events, rows, order[1..]);
    }
  }

  lemma RecoverFrom(cfg: Settings, events: seq<Event>, e: Event)
    requires var s := Run(cfg, START, events);
      Safe(s) && AllFrom(cfg, events, s) && e.RecoverNext? && s.recovering != []
    ensures AllFrom(cfg, events + [e], Apply(cfg, Run(cfg, START, events), e))
  {
    hide Run, RowFrom, EntryFrom, TaskFrom, Origin, IntentOf, Upsert, Stable, Grows, PhaseOk, ClaimsOk, EntriesOk;
    var s := Run(cfg, START, events);
    var next := Apply(cfg, s, e);
    var r := Resolved(s.recovering[0], e.answer);
    ApplyKeepsSafe(cfg, s, e);
    forall id | id in s.world.rows ensures RowFrom(cfg, events + [e], s.world.rows[id]) {
      RowFromStays(cfg, events, e, s.world.rows[id]);
    }
    RowFromStays(cfg, events, e, s.recovering[0]);
    ResolvedFrom(cfg, events + [e], s.world.rows, s.recovering[0], e.answer);
    forall t | t in next.tasks ensures TaskFrom(cfg, events + [e], next.tasks[t]) {
      TaskFromStays(cfg, events, e, s.tasks[t]);
    }
    forall k | 0 <= k < |next.recovering| ensures RowFrom(cfg, events + [e], next.recovering[k]) {
      assert next.recovering[k] == s.recovering[k + 1];
      RowFromStays(cfg, events, e, s.recovering[k + 1]);
    }
    forall k | 0 <= k < |next.world.sent| ensures next.world.sent[k].reduceOnly || EntryFrom(cfg, events + [e], next.world.rows, next.world.sent[k]) {
      if !next.world.sent[k].reduceOnly {
        EntryFromStays(cfg, events, e, s.world.rows, next.world.rows, next.world.sent[k]);
      }
    }
  }

  lemma ResolvedFrom(cfg: Settings, events: seq<Event>, rows: Table, intent: Execution, a: Answer)
    requires forall id :: id in rows ==> RowFrom(cfg, events, rows[id])
    requires RowFrom(cfg, events, intent) && Copies(rows, intent) && KeyedBySignal(rows)
    ensures forall id :: id in Upsert(rows, Resolved(intent, a)) ==> RowFrom(cfg, events, Upsert(rows, Resolved(intent, a))[id])
  {
    hide Run, Origin, Upsert, IntentOf;
    var d, n :| Origin(cfg, events, d, n) && IntentOf(intent, d, n);
    ResolvedIntent(intent, d, n, a);
    ResolvedCopies(rows, intent, a);
    UpsertFrom(cfg, events, rows, Resolved(intent, a), d, n);
  }

  lemma ResolvedCopies(rows: Table, intent: Execution, a: Answer)
    requires Copies(rows, intent)
    ensures Copies(rows, Resolved(intent, a))
  {
  }

  lemma BeginFrom(cfg: Settings, events: seq<Event>, e: Event)
    requires e.Start?
    ensures TaskFrom(cfg, events + [e], Task(e.decision, Begin(e.decision, e.writable)))
  {
    hide Run;
    assert (events + [e])[|events|] == e;
  }

  lemma StepFrom(cfg: Settings, events: seq<Event>, e: Event)
    requires var s := Run(cfg, START, events);
      Safe(s) && AllFrom(cfg, events, s)
    ensures AllFrom(cfg, events + [e], Apply(cfg, Run(cfg, START, events), e))
  {
    hide Step, Run, RowFrom, EntryFrom, TaskFrom, Safe, Begin, Resolved, Intents;
    var s := Run(cfg, START, events);
    match e
    case Start(t, d, writable) => BeginFrom(cfg, events, e); QuietFrom(cfg, events, e, Apply(cfg, s, e));
    case Advance(t, a) => if t in s.tasks { AdvanceFrom(cfg, events, e); } else { QuietFrom(cfg, events, e, s); }
    case BeginRecovery(order) => IntentsFrom(cfg, events, s.world.rows, order); QuietFrom(cfg, events, e, Apply(cfg, s, e));
    case RecoverNext(a) => if s.recovering != [] { RecoverFrom(cfg, events, e); } else { QuietFrom(cfg, events, e, s); }
    case _ => QuietFrom(cfg, events, e, Apply(cfg, s, e));
  }

  lemma {:induction false} RunFrom(cfg: Settings, events: seq<Event>)
    ensures Safe(Run(cfg, START, events)) && AllFrom(cfg, events, Run(cfg, START, events))
    decreases |events|
  {
    hide Apply, Safe, AllFrom;
    if events == [] {
      StartIsSafe();
      assert AllFrom(cfg, [], START) by { StartFrom(cfg); }
    } else {
      var before, e := events[..|events| - 1], events[|events| - 1];
      assert before + [e] == events;
      RunFrom(cfg, before);
      ApplyKeepsSafe(cfg, Run(cfg, START, before), e);
      StepFrom(cfg, before, e);
    }
  }

  lemma StartFrom(cfg: Settings)
    ensures AllFrom(cfg, [], START)
  {
  }

  // ---------------------------------------------------------------- over every run

  /** Over every run from an empty store: an entry request is the market order of a READY decision that was
      started with a writable store, on the decided symbol and side, for the quantity the exchange fitted to
      it, after the leverage was set; and the intent stored for its signal says the same. */
  lemma EntriesAreDecided(cfg: Settings, events: seq<Event>, k: nat)
    requires k < |Run(cfg, START, events).world.sent| && !Run(cfg, START, events).world.sent[k].reduceOnly
    ensures var w := Run(cfg, START, events).world;
      exists d, n ::
        && Eligible(d) && Started(events, d) && Answered(cfg, events, d, NormalizedTo(n)) && Answered(cfg, events, d, Accepted)
        && EntryOf(w.sent[k], d, n) && d.signalId in w.rows && IntentOf(w.rows[d.signalId], d, n)
  {
    hide Run, RowFrom, TaskFrom, Safe, Answered, Started;
    RunFrom(cfg, events);
    var w := Run(cfg, START, events).world;
    assert EntryFrom(cfg, events, w.rows, w.sent[k]);
  }

  /** Over every run each stored row is the intent of a READY decision with values the exchange fitted to it. */
  lemma IntentsAreDecided(cfg: Settings, events: seq<Event>, signalId: string)
    requires signalId in Run(cfg, START, events).world.rows
    ensures exists d, n ::
      && Eligible(d) && Started(events, d) && Answered(cfg, events, d, NormalizedTo(n))
      && d.signalId == signalId && IntentOf(Run(cfg, START, events).world.rows[signalId], d, n)
  {
    hide Run, EntryFrom, TaskFrom, Answered, Started;
    RunFrom(cfg, events);
    var s := Run(cfg, START, events);
    assert RowFrom(cfg, events, s.world.rows[signalId]);
    var d, n :| Origin(cfg, events, d, n) && IntentOf(s.world.rows[signalId], d, n);
    KeyedRow(s, signalId);
  }

  lemma KeyedRow(s: System, signalId: string)
    requires Safe(s) && signalId in s.world.rows
    ensures s.world.rows[signalId].signalId == signalId
  {
  }
}
