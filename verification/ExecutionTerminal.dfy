/** Terminal results are final, as long as recovery and live executions do not overlap; the runtime
    sees to that by recovering under its start lock before it creates the worker. */
module ExecutionTerminal {
  import opened Prelude
  import opened ExecutionStore
  import opened ExecutionProtocol
  import opened ExecutionSafety

  /** The runtime starts recovery only with no execution under way, and no execution during recovery. */
  ghost predicate Allowed(s: System, e: Event) {
    match e
    case Start(_, _, _) => s.recovering == []
    case Advance(_, _) => s.recovering == []
    case BeginRecovery(_) => Idle(s)
    case _ => true
  }

  ghost predicate Idle(s: System) {
    forall t :: t in s.tasks ==> Finished(s.tasks[t].phase)
  }

  /** Every event of the run is allowed where it happens. */
  ghost predicate OrderlyRun(cfg: Settings, s: System, events: seq<Event>)
    decreases |events|
  {
    events == [] || (
      OrderlyRun(cfg, s, events[..|events| - 1])
      && Allowed(Run(cfg, s, events[..|events| - 1]), events[|events| - 1]))
  }

  /** Terminal rows are untouched, in every column. */
  ghost predicate Frozen(before: Table, after: Table) {
    forall id {:trigger id in after} :: id in before && Terminal(before[id].status) ==>
      id in after && after[id] == before[id]
  }

  // ---------------------------------------------------------------- the invariant

  /** The task has stored its intent and still has steps to make. */
  predicate Owns(ph: Phase) {
    !ph.Normalizing? && !ph.Checking? && !Finished(ph)
  }

  /** A terminal result is stored only as the last step. */
  predicate EndsWithTerminal(ph: Phase) {
    ph.Saving? ==> (Terminal(ph.row.status) ==> Finished(ph.next)) && EndsWithTerminal(ph.next)
  }

  ghost predicate OwnersOk(s: System) {
    && (forall t :: t in s.tasks && Owns(s.tasks[t].phase) ==> OwnerOk(s.world.rows, s.tasks[t]))
    && (forall t, u :: t in s.tasks && u in s.tasks && t != u && Owns(s.tasks[t].phase) && Owns(s.tasks[u].phase) ==>
          s.tasks[t].decision.signalId != s.tasks[u].decision.signalId)
  }

  ghost predicate OwnerOk(rows: Table, t: Task) {
    EndsWithTerminal(t.phase) && t.decision.signalId in rows && !Terminal(rows[t.decision.signalId].status)
  }

  /** The pending intents are the current unresolved rows, each once. */
  ghost predicate IntentsCurrent(rows: Table, intents: seq<Execution>) {
    && (forall k :: 0 <= k < |intents| ==>
          intents[k].signalId in rows && rows[intents[k].signalId] == intents[k] && !Terminal(intents[k].status))
    && (forall j, k :: 0 <= j < k < |intents| ==> intents[j].signalId != intents[k].signalId)
  }

  ghost predicate Orderly(s: System) {
    Safe(s) && OwnersOk(s) && (s.recovering != [] ==> Idle(s)) && IntentsCurrent(s.world.rows, s.recovering)
  }

  // ---------------------------------------------------------------- one event

  /** The tables agree everywhere but at one signal. */
  ghost predicate SameExcept(before: Table, after: Table, signalId: string) {
    forall id {:trigger id in after} {:trigger id in before} :: id != signalId ==>
      (id in before <==> id in after) && (id in before ==> after[id] == before[id])
  }

  lemma UpsertLocal(rows: Table, r: Execution)
    ensures SameExcept(rows, Upsert(rows, r), r.signalId)
    ensures r.signalId in Upsert(rows, r) && Upsert(rows, r)[r.signalId].status == r.status
  {
  }

  lemma PhasesEnd(cfg: Settings, d: Decision, r: Execution, ph: Phase, a: Answer, price: Option<real>, quantity: real)
    ensures EndsWithTerminal(AfterAck(r, a))
    ensures EndsWithTerminal(Judge(cfg, d, r, price, quantity))
    ensures EndsWithTerminal(Conclude(r, Failed))
    ensures EndsWithTerminal(Saving(r.(status := Submitted), Sending(r.(status := Submitted))))
    ensures EndsWithTerminal(Saving(r, Done(r)))
    ensures ph.Protecting? ==> EndsWithTerminal(AfterProtect(d, ph, a))
  {
    hide Gate;
  }

  /** A step changes only its own signal's row; an owner's row stays unresolved until the owner ends. */
  lemma OwnerStep(cfg: Settings, d: Decision, w: World, ph: Phase, a: Answer)
    requires PhaseOk(w.rows, d, ph)
    requires Owns(ph) ==> OwnerOk(w.rows, Task(d, ph))
    ensures var next := Step(cfg, d, w, ph, a);
      && SameExcept(w.rows, next.0.rows, d.signalId)
      && (Owns(next.1) ==> OwnerOk(next.0.rows, Task(d, next.1)) && (Owns(ph) || d.signalId !in w.rows))
      && (d.signalId in w.rows && (!Owns(ph) || Terminal(w.rows[d.signalId].status)) ==> next.0.rows == w.rows)
  {
    hide Upsert, AfterPoll, AfterAck, Judge, AfterProtect, Conclude, Copies;
    match ph
    case Checking(n) => UpsertLocal(w.rows, PendingRow(d, n));
    case Saving(r, next) => UpsertLocal(w.rows, r);
    case AwaitingAck(r) => PhasesEnd(cfg, d, r, ph, a, None, 0.0);
    case Leveraging(r) => PhasesEnd(cfg, d, r, ph, a, None, 0.0);
    case AwaitingClose(r) => PhasesEnd(cfg, d, r, ph, a, None, 0.0);
    case Polling(r, _, price, quantity) =>
      var seen := AfterPoll(a, price, quantity);
      PhasesEnd(cfg, d, r, ph, a, seen.0, seen.1);
    case Protecting(_, r, _, _, _) => PhasesEnd(cfg, d, r, ph, a, None, 0.0);
    case _ =>
  }

  lemma AdvanceOrderly(cfg: Settings, s: System, t: nat, a: Answer)
    requires Orderly(s) && t in s.tasks && s.recovering == []
    ensures OwnersOk(Apply(cfg, s, Advance(t, a)))
    ensures Frozen(s.world.rows, Apply(cfg, s, Advance(t, a)).world.rows)
  {
    hide Step, Safe, Owns, EndsWithTerminal, IntentsCurrent;
    var d, ph, w := s.tasks[t].decision, s.tasks[t].phase, s.world;
    var s' := Apply(cfg, s, Advance(t, a));
    SafeTask(s, t);
    OwnerStep(cfg, d, w, ph, a);
    forall u | u in s'.tasks && u != t && Owns(s'.tasks[u].phase)
      ensures OwnerOk(s'.world.rows, s'.tasks[u])
      ensures Owns(s'.tasks[t].phase) ==> s'.tasks[u].decision.signalId != d.signalId
    {
      assert s'.tasks[u] == s.tasks[u];
      assert OwnerOk(w.rows, s.tasks[u]);
      assert Owns(ph) ==> s.tasks[u].decision.signalId != d.signalId;
    }
  }

  lemma SafeTask(s: System, t: nat)
    requires Safe(s) && t in s.tasks
    ensures PhaseOk(s.world.rows, s.tasks[t].decision, s.tasks[t].phase)
  {
  }

  lemma RecoverOrderly(cfg: Settings, s: System, a: Answer)
    requires Orderly(s) && s.recovering != []
    ensures var s' := Apply(cfg, s, RecoverNext(a));
      Idle(s') && IntentsCurrent(s'.world.rows, s'.recovering) && Frozen(s.world.rows, s'.world.rows)
  {
    hide Upsert, Safe;
    var intent := s.recovering[0];
    UpsertLocal(s.world.rows, Resolved(intent, a));
  }

  lemma {:induction false} IntentsAreCurrent(rows: Table, order: seq<string>)
    requires KeyedBySignal(rows)
    ensures IntentsCurrent(rows, Intents(rows, order))
    ensures forall k :: 0 <= k < |Intents(rows, order)| ==> Intents(rows, order)[k].signalId in order
  {
    if order != [] {
      IntentsAreCurrent(rows, order[1..]);
    }
  }

  lemma ApplyOrderly(cfg: Settings, s: System, e: Event)
    requires Orderly(s) && Allowed(s, e)
    ensures Orderly(Apply(cfg, s, e)) && Frozen(s.world.rows, Apply(cfg, s, e).world.rows)
  {
    hide Step, Upsert, Safe, OwnerOk, IntentsCurrent, Frozen, Terminal;
    ApplyKeepsSafe(cfg, s, e);
    FrozenSame(s.world.rows);
    NoIntentsCurrent(Apply(cfg, s, e).world.rows);
    match e
    case Start(t, d, writable) => BeginOwnsNothing(d, writable);
    case Advance(t, a) => if t in s.tasks { AdvanceOrderly(cfg, s, t, a); }
    case BeginRecovery(order) => SafeKeys(s); IntentsAreCurrent(s.world.rows, order);
    case RecoverNext(a) => if s.recovering != [] { RecoverOrderly(cfg, s, a); }
    case _ =>
  }

  lemma SafeKeys(s: System)
    requires Safe(s)
    ensures KeyedBySignal(s.world.rows)
  {
  }

  lemma FrozenSame(rows: Table)
    ensures Frozen(rows, rows)
  {
  }

  lemma NoIntentsCurrent(rows: Table)
    ensures IntentsCurrent(rows, [])
  {
  }

  lemma BeginOwnsNothing(d: Decision, writable: bool)
    ensures !Owns(Begin(d, writable))
  {
  }

  lemma FrozenTransitive(a: Table, b: Table, c: Table)
    requires Frozen(a, b) && Frozen(b, c)
    ensures Frozen(a, c)
  {
    forall id | id in a && Terminal(a[id].status) ensures id in c && c[id] == a[id] {
      assert id in b && b[id] == a[id];
    }
  }

  lemma {:induction false} OrderlyRunFreezes(cfg: Settings, s: System, events: seq<Event>)
    requires Orderly(s) && OrderlyRun(cfg, s, events)
    ensures Orderly(Run(cfg, s, events)) && Frozen(s.world.rows, Run(cfg, s, events).world.rows)
    decreases |events|
  {
    hide Apply, Orderly, Frozen, Allowed;
    FrozenSame(s.world.rows);
    if events != [] {
      var before := Run(cfg, s, events[..|events| - 1]);
      OrderlyRunFreezes(cfg, s, events[..|events| - 1]);
      ApplyOrderly(cfg, before, events[|events| - 1]);
      FrozenTransitive(s.world.rows, before.world.rows, Run(cfg, s, events).world.rows);
    }
  }

  /** Once a signal's stored status is terminal, no later event of an orderly run changes its row. */
  lemma TerminalIsFinal(cfg: Settings, earlier: seq<Event>, later: seq<Event>, signalId: string)
    requires OrderlyRun(cfg, START, earlier) && OrderlyRun(cfg, Run(cfg, START, earlier), later)
    requires signalId in Run(cfg, START, earlier).world.rows
    requires Terminal(Run(cfg, START, earlier).world.rows[signalId].status)
    ensures var a, b := Run(cfg, START, earlier).world.rows, Run(cfg, Run(cfg, START, earlier), later).world.rows;
      signalId in b && b[signalId] == a[signalId]
  {
    hide Run, OrderlyRun, Apply;
    assert Orderly(START) by { StartIsSafe(); }
    OrderlyRunFreezes(cfg, START, earlier);
    OrderlyRunFreezes(cfg, Run(cfg, START, earlier), later);
    assert Frozen(Run(cfg, START, earlier).world.rows, Run(cfg, Run(cfg, START, earlier), later).world.rows);
  }

  // ---------------------------------------------------------------- why the order matters

  /** Exactly which events change a stored terminal row, overlapping runs included: a task that saves a row, or
      recovery that stores what it concludes from an intent it read earlier, when the merge makes a difference. */
  lemma TerminalChangesExactly(cfg: Settings, events: seq<Event>, e: Event, signalId: string)
    requires var rows := Run(cfg, START, events).world.rows;
      signalId in rows && Terminal(rows[signalId].status)
    ensures var s := Run(cfg, START, events);
      var row := s.world.rows[signalId];
      signalId in Apply(cfg, s, e).world.rows
      && (Apply(cfg, s, e).world.rows[signalId] != row <==>
          || (e.Advance? && e.task in s.tasks && s.tasks[e.task].phase.Saving?
              && s.tasks[e.task].phase.row.signalId == signalId && Merge(row, s.tasks[e.task].phase.row) != row)
          || (e.RecoverNext? && s.recovering != [] && s.recovering[0].signalId == signalId
              && Merge(row, Resolved(s.recovering[0], e.answer)) != row))
  {
    hide Run, Merge, AfterPoll, AfterAck, Judge, AfterProtect, Intents, Begin;
    var s := Run(cfg, START, events);
    match e
    case RecoverNext(a) => ResolvedSignal(s, a);
    case _ =>
  }

  lemma ResolvedSignal(s: System, a: Answer)
    ensures s.recovering != [] ==> Resolved(s.recovering[0], a).signalId == s.recovering[0].signalId
  {
  }

  /** A run one event at a time, from the front. */
  lemma {:induction false} RunCons(cfg: Settings, s: System, e: Event, rest: seq<Event>)
    ensures Run(cfg, s, [e] + rest) == Run(cfg, Apply(cfg, s, e), rest)
    decreases |rest|
  {
    hide Apply;
    if rest == [] {
      assert ([e] + rest)[..0] == [];
    } else {
      assert ([e] + rest)[..|rest|] == [e] + rest[..|rest| - 1];
      RunCons(cfg, s, e, rest[..|rest| - 1]);
    }
  }

  lemma {:induction false} RunAppend(cfg: Settings, s: System, a: seq<Event>, b: seq<Event>)
    ensures Run(cfg, s, a + b) == Run(cfg, Run(cfg, s, a), b)
    decreases |b|
  {
    hide Apply;
    if b == [] {
      assert a + b == a;
    } else {
      assert (a + b)[..|a + b| - 1] == a + b[..|b| - 1];
      RunAppend(cfg, s, a, b[..|b| - 1]);
    }
  }

  predicate Executable(d: Decision) {
    d.ready && d.quantity.Some? && d.stopLoss.Some? && d.takeProfit.Some? && d.leverage.Some?
  }

  function ToSubmitted(d: Decision, n: Normalized): seq<Event> {
    [Start(0, d, true), Advance(0, NormalizedTo(n)), Advance(0, OtherError), Advance(0, Accepted), Advance(0, OtherError)]
  }

  /** From the empty store an execution is acknowledged, and recovery reads the row still SUBMITTED. */
  function ToAcknowledged(d: Decision, orderId: string): seq<Event> {
    [Advance(0, OtherError), Advance(0, Acked(orderId, None)), BeginRecovery([d.signalId])]
  }

  const FILLED_REPORT := Found(OrderRow("Filled", None, Absent, Absent))

  function SubmittedRow(d: Decision, n: Normalized): Execution {
    PendingRow(d, n).(status := Submitted)
  }

  function AckedRow(d: Decision, n: Normalized, orderId: string): Execution {
    SubmittedRow(d, n).(status := Acknowledged, orderId := Some(orderId))
  }

  lemma SubmittedReached(cfg: Settings, d: Decision, n: Normalized)
    requires Executable(d)
    ensures Run(cfg, START, ToSubmitted(d, n)) ==
      System(World(map[d.signalId := SubmittedRow(d, n)], [], []), map[0 := Task(d, Sending(SubmittedRow(d, n)))], [])
  {
    var pending, submitted := PendingRow(d, n), SubmittedRow(d, n);
    var s1 := System(World(map[], [], []), map[0 := Task(d, Normalizing)], []);
    var s2 := s1.(tasks := map[0 := Task(d, Checking(n))]);
    var s3 := System(World(map[d.signalId := pending], [], []), map[0 := Task(d, Leveraging(pending))], []);
    var s4 := s3.(tasks := map[0 := Task(d, Saving(submitted, Sending(submitted)))]);
    var s5 := System(World(map[d.signalId := submitted], [], []), map[0 := Task(d, Sending(submitted))], []);
    var events := ToSubmitted(d, n);
    assert Apply(cfg, START, events[0]) == s1;
    assert Apply(cfg, s1, events[1]) == s2;
    assert Apply(cfg, s2, events[2]) == s3;
    assert Apply(cfg, s3, events[3]) == s4;
    MergeSubmitted(d, n);
    assert Apply(cfg, s4, events[4]) == s5;
    FiveEvents(cfg, START, s1, s2, s3, s4, s5, events);
  }

  lemma MergeSubmitted(d: Decision, n: Normalized)
    ensures Merge(PendingRow(d, n), SubmittedRow(d, n)) == SubmittedRow(d, n)
  {
  }

  lemma FiveEvents(cfg: Settings, s0: System, s1: System, s2: System, s3: System, s4: System, s5: System, events: seq<Event>)
    requires |events| == 5 && Apply(cfg, s0, events[0]) == s1 && Apply(cfg, s1, events[1]) == s2
    requires Apply(cfg, s2, events[2]) == s3 && Apply(cfg, s3, events[3]) == s4 && Apply(cfg, s4, events[4]) == s5
    ensures Run(cfg, s0, events) == s5
  {
    hide Apply, Run;
    ThreeEvents(cfg, s0, s1, s2, s3, events[..3]);
    TwoEvents(cfg, s3, s4, s5, events[3..]);
    RunAppend(cfg, s0, events[..3], events[3..]);
    assert events[..3] + events[3..] == events;
  }

  lemma ThreeEvents(cfg: Settings, s0: System, s1: System, s2: System, s3: System, events: seq<Event>)
    requires |events| == 3 && Apply(cfg, s0, events[0]) == s1 && Apply(cfg, s1, events[1]) == s2 && Apply(cfg, s2, events[2]) == s3
    ensures Run(cfg, s0, events) == s3
  {
    hide Apply, Run;
    TwoEvents(cfg, s1, s2, s3, events[1..]);
    RunCons(cfg, s0, events[0], events[1..]);
    assert [events[0]] + events[1..] == events;
  }

  lemma TwoEvents(cfg: Settings, s0: System, s1: System, s2: System, events: seq<Event>)
    requires |events| == 2 && Apply(cfg, s0, events[0]) == s1 && Apply(cfg, s1, events[1]) == s2
    ensures Run(cfg, s0, events) == s2
  {
    hide Apply;
    RunCons(cfg, s0, events[0], [events[1]]);
    RunCons(cfg, s1, events[1], []);
    assert [events[0]] + [events[1]] == events && [events[1]] + [] == [events[1]];
  }

  lemma AcknowledgedReached(cfg: Settings, d: Decision, n: Normalized, orderId: string)
    requires Executable(d)
    ensures var acked := AckedRow(d, n, orderId);
      var sent := [EntryOrder(d, SubmittedRow(d, n))];
      Run(cfg, START, ToSubmitted(d, n) + ToAcknowledged(d, orderId)) ==
        System(World(map[d.signalId := SubmittedRow(d, n)], sent, []),
               map[0 := Task(d, Saving(acked, Polling(acked, 0, None, 0.0)))], [SubmittedRow(d, n)])
  {
    var submitted, acked := SubmittedRow(d, n), AckedRow(d, n, orderId);
    var s5 := System(World(map[d.signalId := submitted], [], []), map[0 := Task(d, Sending(submitted))], []);
    var s6 := System(World(map[d.signalId := submitted], [EntryOrder(d, submitted)], []), map[0 := Task(d, AwaitingAck(submitted))], []);
    var s7 := s6.(tasks := map[0 := Task(d, Saving(acked, Polling(acked, 0, None, 0.0)))]);
    var s8 := s7.(recovering := [submitted]);
    var events := ToAcknowledged(d, orderId);
    SubmittedReached(cfg, d, n);
    assert Apply(cfg, s5, events[0]) == s6;
    assert Apply(cfg, s6, events[1]) == s7;
    OneIntent(s7.world.rows, d.signalId);
    assert Apply(cfg, s7, events[2]) == s8;
    ThreeEvents(cfg, s5, s6, s7, s8, events);
    RunAppend(cfg, START, ToSubmitted(d, n), events);
  }

  lemma OneIntent(rows: Table, id: string)
    requires id in rows && !Terminal(rows[id].status)
    ensures Intents(rows, [id]) == [rows[id]]
  {
    assert [id][1..] == [];
  }

  /** Were recovery to run beside a live execution, a stored FILLED could be overwritten: from the empty
      store, the execution saves the acknowledgement it received before recovery saw the fill. */
  lemma OverlapCanReopen(cfg: Settings, d: Decision, n: Normalized, orderId: string)
    requires Executable(d)
    ensures var events := ToSubmitted(d, n) + ToAcknowledged(d, orderId) + [RecoverNext(FILLED_REPORT)];
      var filled, reopened := Run(cfg, START, events).world.rows, Run(cfg, START, events + [Advance(0, OtherError)]).world.rows;
      && d.signalId in filled && filled[d.signalId].status == Filled
      && d.signalId in reopened && reopened[d.signalId].status == Acknowledged
  {
    hide Run;
    var submitted, acked := SubmittedRow(d, n), AckedRow(d, n, orderId);
    var events := ToSubmitted(d, n) + ToAcknowledged(d, orderId);
    var s8 := Run(cfg, START, events);
    AcknowledgedReached(cfg, d, n, orderId);
    assert OrderLink(d.signalId) != "" by { assert |OrderLink(d.signalId)| >= 4; }
    var filled := Apply(cfg, s8, RecoverNext(FILLED_REPORT));
    RunSnoc(cfg, START, events, RecoverNext(FILLED_REPORT));
    RunSnoc(cfg, START, events + [RecoverNext(FILLED_REPORT)], Advance(0, OtherError));
    assert Resolved(submitted, FILLED_REPORT).status == Filled;
    assert filled.world.rows[d.signalId].status == Filled;
    assert filled.tasks[0] == Task(d, Saving(acked, Polling(acked, 0, None, 0.0)));
  }

  lemma RunSnoc(cfg: Settings, s: System, events: seq<Event>, e: Event)
    ensures Run(cfg, s, events + [e]) == Apply(cfg, Run(cfg, s, events), e)
  {
    hide Apply;
    assert (events + [e])[..|events|] == events;
  }

  // ---------------------------------------------------------------- recovery as a whole

  /** The exchange's state as recovery sees it: one answer per symbol and order link. */
  type Exchange = (string, string) -> Answer

  function Lookup(ex: Exchange, intent: Execution): Answer {
    ex(intent.symbol, if intent.orderLinkId.Some? then intent.orderLinkId.value else "")
  }

  function RecoveredRow(ex: Exchange, kept: Execution): Execution {
    if Terminal(kept.status) then kept else Merge(kept, Resolved(kept, Lookup(ex, kept)))
  }

  /** The table after every unresolved intent was looked up once. */
  function Recovered(ex: Exchange, rows: Table): Table {
    map id | id in rows :: RecoveredRow(ex, rows[id])
  }

  lemma RecoverRowTwice(ex: Exchange, kept: Execution)
    ensures RecoveredRow(ex, RecoveredRow(ex, kept)) == RecoveredRow(ex, kept)
  {
    hide MappedStatus, Terminal;
    var once := RecoveredRow(ex, kept);
    if !Terminal(kept.status) {
      assert Lookup(ex, once) == Lookup(ex, kept);
    }
  }

  /** Repeating recovery against the same exchange state changes nothing at all. */
  lemma RecoveryIdempotent(ex: Exchange, rows: Table)
    ensures Recovered(ex, Recovered(ex, rows)) == Recovered(ex, rows)
  {
    hide RecoveredRow;
    forall id | id in rows ensures RecoveredRow(ex, RecoveredRow(ex, rows[id])) == RecoveredRow(ex, rows[id]) {
      RecoverRowTwice(ex, rows[id]);
    }
  }

  /** Recovery resolves an intent exactly when the exchange proves a terminal state for its order link. */
  lemma RecoveryResolves(ex: Exchange, kept: Execution)
    requires !Terminal(kept.status)
    ensures Terminal(RecoveredRow(ex, kept).status) <==>
      kept.orderLinkId.Some? && kept.orderLinkId.value != "" && Lookup(ex, kept).Found?
      && Lookup(ex, kept).row.orderStatus in {"Filled", "Cancelled", "Canceled", "Deactivated", "Rejected"}
  {
  }

  /** Without an order link, or without a report, an unresolved intent becomes UNKNOWN_RECONCILING and keeps everything
      else; a terminal row is left alone. */
  lemma RecoveryLeaves(ex: Exchange, kept: Execution)
    ensures kept.status in {Pending, Submitted, Acknowledged, PartiallyFilled, UnknownReconciling}
            && (kept.orderLinkId.None? || kept.orderLinkId.value == "" || !Lookup(ex, kept).Found?) ==>
      RecoveredRow(ex, kept) == kept.(status := UnknownReconciling)
    ensures kept.status in {Filled, Rejected, Cancelled, Failed} ==> RecoveredRow(ex, kept) == kept
  {
  }

  /** What recovery concludes from a report of the exchange, status by status; the reported fill is stored,
      and what was not reported is kept. */
  lemma RecoveryProves(ex: Exchange, kept: Execution)
    requires kept.status !in {Filled, Rejected, Cancelled, Failed}
    requires kept.orderLinkId.Some? && kept.orderLinkId.value != "" && Lookup(ex, kept).Found?
    ensures var row, after := Lookup(ex, kept).row, RecoveredRow(ex, kept);
      && (after.status == Filled <==> row.orderStatus == "Filled")
      && (after.status == PartiallyFilled <==> row.orderStatus == "PartiallyFilled")
      && (after.status == Rejected <==> row.orderStatus == "Rejected")
      && (after.status == Cancelled <==> row.orderStatus in {"Cancelled", "Canceled", "Deactivated"})
      && (after.status == Acknowledged <==> row.orderStatus in {"New", "Created", "Untriggered"})
      && after.status !in {Pending, Submitted, Failed}
    ensures var row, after := Lookup(ex, kept).row, RecoveredRow(ex, kept);
      && after.fill.price == (if row.avgPrice.Number? then Some(row.avgPrice.value) else kept.fill.price)
      && after.fill.quantity == (if row.cumExecQty.Number? then Some(row.cumExecQty.value) else kept.fill.quantity)
      && after.orderId == (if row.orderId.Some? && row.orderId.value != "" then row.orderId else kept.orderId)
      && after.plan == kept.plan && after.identity == kept.identity && after.orderLinkId == kept.orderLinkId
  {
  }
}
