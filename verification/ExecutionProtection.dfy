/** Where a stored FILLED comes from, over every run: protection the exchange accepted, or a recovered report. */
module ExecutionProtection {
  import opened Prelude
  import opened ExecutionStore
  import opened ExecutionProtocol
  import opened ExecutionSafety

  /** The stop and target stored on the row are ones the exchange accepted for its symbol. */
  ghost predicate Protected(stops: seq<Protection>, r: Execution) {
    r.plan.stopLoss.Some? && r.plan.takeProfit.Some?
    && Protection(r.symbol, r.plan.stopLoss.value, r.plan.takeProfit.value) in stops
  }

  /** A result held by a task is for its decision's symbol, and FILLED only with protection. */
  ghost predicate ResultOk(stops: seq<Protection>, d: Decision, r: Execution) {
    r.symbol == d.symbol && (r.status == Filled ==> Protected(stops, r))
  }

  ghost predicate TaskOk(stops: seq<Protection>, d: Decision, ph: Phase)
    decreases ph
  {
    match ph
    case Normalizing => true
    case Checking(_) => true
    case Done(_) => true
    case Raised => true
    case Leveraging(r) => r.symbol == d.symbol && r.status != Filled
    case Sending(r) => r.symbol == d.symbol && r.status != Filled
    case AwaitingAck(r) => r.symbol == d.symbol && r.status != Filled
    case Polling(r, _, _, _) => r.symbol == d.symbol
    case Protecting(_, r, _, _, _) => r.symbol == d.symbol
    case Closing(_, r) => r.symbol == d.symbol && r.status == Failed
    case AwaitingClose(r) => r.symbol == d.symbol && r.status == Failed
    case Saving(r, next) => ResultOk(stops, d, r) && TaskOk(stops, d, next)
  }

  lemma {:induction false} TaskOkStays(stops: seq<Protection>, more: seq<Protection>, d: Decision, ph: Phase)
    requires TaskOk(stops, d, ph) && stops <= more
    ensures TaskOk(more, d, ph)
    decreases ph
  {
    if ph.Saving? {
      TaskOkStays(stops, more, d, ph.next);
    }
  }

  lemma JudgedOk(cfg: Settings, stops: seq<Protection>, d: Decision, r: Execution, price: Option<real>, quantity: real)
    requires r.symbol == d.symbol
    ensures TaskOk(stops, d, Judge(cfg, d, r, price, quantity))
  {
    hide Gate, Protected;
  }

  lemma AckedOk(stops: seq<Protection>, d: Decision, r: Execution, a: Answer)
    requires r.symbol == d.symbol
    ensures TaskOk(stops, d, AfterAck(r, a))
  {
    hide Protected;
  }

  lemma ProtectedOk(stops: seq<Protection>, d: Decision, ph: Phase, a: Answer)
    requires ph.Protecting? && ph.acked.symbol == d.symbol
    ensures TaskOk(if a.Accepted? then stops + [Protection(d.symbol, ph.stop, ph.target)] else stops, d, AfterProtect(d, ph, a))
  {
    var more := stops + [Protection(d.symbol, ph.stop, ph.target)];
    assert more[|stops|] == Protection(d.symbol, ph.stop, ph.target);
  }

  /** What a step of a task stores: nothing, a new PENDING intent, or the row it was about to save. */
  lemma TaskStep(cfg: Settings, d: Decision, w: World, ph: Phase, a: Answer)
    requires TaskOk(w.stops, d, ph)
    ensures var next := Step(cfg, d, w, ph, a);
      && w.stops <= next.0.stops && TaskOk(next.0.stops, d, next.1)
      && (next.0.rows == w.rows
          || (exists n :: ph == Checking(n) && d.signalId !in w.rows && next.0.rows == Upsert(w.rows, PendingRow(d, n)))
          || (ph.Saving? && next.0.rows == Upsert(w.rows, ph.row) && next.0.stops == w.stops))
  {
    hide Upsert, AfterPoll, AfterAck, Judge, AfterProtect, Protected;
    match ph
    case Leveraging(r) => LeveragedOk(w.stops, d, r);
    case AwaitingAck(r) => AckedOk(w.stops, d, r, a);
    case Polling(r, _, price, quantity) =>
      var seen := AfterPoll(a, price, quantity);
      JudgedOk(cfg, w.stops, d, r, seen.0, seen.1);
    case Protecting(_, _, _, _, _) => ProtectedOk(w.stops, d, ph, a);
    case AwaitingClose(r) => FailedOk(w.stops, d, r);
    case _ =>
  }

  lemma LeveragedOk(stops: seq<Protection>, d: Decision, r: Execution)
    requires r.symbol == d.symbol
    ensures TaskOk(stops, d, Saving(r.(status := Submitted), Sending(r.(status := Submitted)))) && TaskOk(stops, d, Conclude(r, Failed))
  {
  }

  lemma FailedOk(stops: seq<Protection>, d: Decision, r: Execution)
    requires r.symbol == d.symbol && r.status == Failed
    ensures TaskOk(stops, d, Saving(r, Done(r)))
  {
  }

  // ---------------------------------------------------------------- recovered fills

  /** The n-th event was a recovery of this signal from a "Filled" report, and its row is unchanged since. */
  ghost predicate RecoveredAt(cfg: Settings, events: seq<Event>, signalId: string, n: nat)
    requires n < |events|
  {
    var s := Run(cfg, START, events[..n]);
    && events[n].RecoverNext? && events[n].answer.Found? && events[n].answer.row.orderStatus == "Filled"
    && s.recovering != [] && s.recovering[0].signalId == signalId
    && signalId in Run(cfg, START, events).world.rows
    && UnchangedFrom(cfg, events, signalId, n + 1)
  }

  ghost predicate UnchangedFrom(cfg: Settings, events: seq<Event>, signalId: string, n: nat)
    requires n <= |events|
  {
    forall m :: n <= m <= |events| ==>
      signalId in Run(cfg, START, events[..m]).world.rows && signalId in Run(cfg, START, events).world.rows
      && Run(cfg, START, events[..m]).world.rows[signalId] == Run(cfg, START, events).world.rows[signalId]
  }

  ghost predicate FilledExplained(cfg: Settings, events: seq<Event>, signalId: string) {
    var w := Run(cfg, START, events).world;
    signalId in w.rows && w.rows[signalId].status == Filled ==>
      Protected(w.stops, w.rows[signalId]) || exists n :: 0 <= n < |events| && RecoveredAt(cfg, events, signalId, n)
  }

  ghost predicate TasksHold(s: System) {
    forall t :: t in s.tasks ==> TaskOk(s.world.stops, s.tasks[t].decision, s.tasks[t].phase)
  }

  lemma BeginOk(stops: seq<Protection>, d: Decision, writable: bool)
    ensures TaskOk(stops, d, Begin(d, writable))
  {
  }

  lemma ApplyHolds(cfg: Settings, s: System, e: Event)
    requires TasksHold(s)
    ensures TasksHold(Apply(cfg, s, e)) && s.world.stops <= Apply(cfg, s, e).world.stops
  {
    hide Step, TaskOk, Begin, Upsert;
    match e
    case Start(t, d, writable) => BeginOk(s.world.stops, d, writable);
    case Advance(t, a) =>
      if t in s.tasks {
        var d, ph := s.tasks[t].decision, s.tasks[t].phase;
        TaskStep(cfg, d, s.world, ph, a);
        var next := Apply(cfg, s, e);
        forall u | u in next.tasks ensures TaskOk(next.world.stops, next.tasks[u].decision, next.tasks[u].phase) {
          if u != t {
            TaskOkStays(s.world.stops, next.world.stops, s.tasks[u].decision, s.tasks[u].phase);
          }
        }
      }
    case _ =>
  }

  /** One event leaves a row as it was, or fills it from a report, or leaves it not FILLED, or FILLED with protection. */
  lemma RowAfter(cfg: Settings, s: System, e: Event, signalId: string)
    requires Safe(s) && TasksHold(s) && signalId in Apply(cfg, s, e).world.rows
    ensures var w := Apply(cfg, s, e).world;
      || (signalId in s.world.rows && w.rows[signalId] == s.world.rows[signalId])
      || w.rows[signalId].status != Filled
      || Protected(w.stops, w.rows[signalId])
      || (e.RecoverNext? && e.answer.Found? && e.answer.row.orderStatus == "Filled"
          && s.recovering != [] && s.recovering[0].signalId == signalId)
  {
    hide Step, Upsert, Protected, ClaimsOk, ExecutionSafety.EntriesOk;
    match e
    case Advance(t, a) =>
      if t in s.tasks {
        var d, ph := s.tasks[t].decision, s.tasks[t].phase;
        TaskStep(cfg, d, s.world, ph, a);
        AdvancedRow(cfg, d, s.world, ph, a, signalId);
      }
    case RecoverNext(a) =>
      if s.recovering != [] {
        UpsertedRow(s.world.rows, Resolved(s.recovering[0], a), signalId);
        ResolvedFilled(s.recovering[0], a);
        assert Copies(s.world.rows, s.recovering[0]);
      }
    case _ =>
  }

  lemma ResolvedFilled(intent: Execution, a: Answer)
    ensures Resolved(intent, a).signalId == intent.signalId
    ensures Resolved(intent, a).status == Filled ==> a.Found? && a.row.orderStatus == "Filled"
  {
  }

  lemma UpsertedRow(rows: Table, r: Execution, signalId: string)
    requires signalId in Upsert(rows, r)
    ensures signalId != r.signalId ==> signalId in rows && Upsert(rows, r)[signalId] == rows[signalId]
    ensures signalId == r.signalId ==> Upsert(rows, r)[signalId].status == r.status
  {
  }

  lemma AdvancedRow(cfg: Settings, d: Decision, w: World, ph: Phase, a: Answer, signalId: string)
    requires TaskOk(w.stops, d, ph) && PhaseOk(w.rows, d, ph) && signalId in Step(cfg, d, w, ph, a).0.rows
    ensures var next := Step(cfg, d, w, ph, a).0;
      || (signalId in w.rows && next.rows[signalId] == w.rows[signalId])
      || next.rows[signalId].status != Filled
      || Protected(next.stops, next.rows[signalId])
  {
    hide Step, Upsert;
    TaskStep(cfg, d, w, ph, a);
    var next := Step(cfg, d, w, ph, a).0;
    if next.rows != w.rows {
      if ph.Saving? {
        UpsertedRow(w.rows, ph.row, signalId);
        if signalId == ph.row.signalId {
          SavedProtection(w.rows, ph.row, next.stops);
        }
      } else {
        var n :| ph == Checking(n) && d.signalId !in w.rows && next.rows == Upsert(w.rows, PendingRow(d, n));
        UpsertedRow(w.rows, PendingRow(d, n), signalId);
      }
    }
  }

  lemma SavedProtection(rows: Table, r: Execution, stops: seq<Protection>)
    requires Copies(rows, r) && (r.status == Filled ==> Protected(stops, r))
    ensures r.signalId in Upsert(rows, r) && (r.status == Filled ==> Protected(stops, Upsert(rows, r)[r.signalId]))
  {
  }

  lemma {:induction false} RunHolds(cfg: Settings, events: seq<Event>)
    ensures Safe(Run(cfg, START, events)) && TasksHold(Run(cfg, START, events))
    decreases |events|
  {
    hide Apply, Safe, TasksHold;
    if events == [] {
      StartIsSafe();
      assert TasksHold(START) by { StartHolds(); }
    } else {
      RunHolds(cfg, events[..|events| - 1]);
      ApplyKeepsSafe(cfg, Run(cfg, START, events[..|events| - 1]), events[|events| - 1]);
      ApplyHolds(cfg, Run(cfg, START, events[..|events| - 1]), events[|events| - 1]);
    }
  }

  lemma StartHolds()
    ensures TasksHold(START)
  {
  }

  lemma RecoveredStays(cfg: Settings, events: seq<Event>, e: Event, signalId: string, n: nat)
    requires n < |events| && RecoveredAt(cfg, events, signalId, n)
    requires var rows := Run(cfg, START, events + [e]).world.rows;
      signalId in rows && rows[signalId] == Run(cfg, START, events).world.rows[signalId]
    ensures RecoveredAt(cfg, events + [e], signalId, n)
  {
    hide Run;
    var longer := events + [e];
    assert longer[..n] == events[..n] && longer[n] == events[n];
    forall m | n + 1 <= m <= |longer|
      ensures signalId in Run(cfg, START, longer[..m]).world.rows
      ensures Run(cfg, START, longer[..m]).world.rows[signalId] == Run(cfg, START, longer).world.rows[signalId]
    {
      if m <= |events| {
        assert longer[..m] == events[..m];
      } else {
        assert longer[..m] == longer;
      }
    }
  }

  lemma RecoveredNow(cfg: Settings, events: seq<Event>, e: Event, signalId: string)
    requires e.RecoverNext? && e.answer.Found? && e.answer.row.orderStatus == "Filled"
    requires Run(cfg, START, events).recovering != [] && Run(cfg, START, events).recovering[0].signalId == signalId
    requires signalId in Run(cfg, START, events + [e]).world.rows
    ensures RecoveredAt(cfg, events + [e], signalId, |events|)
  {
    hide Run;
    var longer := events + [e];
    assert longer[..|events|] == events && longer[..|longer|] == longer;
  }

  /** Over every run from an empty store: a row stored as FILLED carries a stop and a target that the exchange
      accepted for its symbol, or it was last written by recovery from a report that the order is filled. */
  lemma {:induction false} FilledIsExplained(cfg: Settings, events: seq<Event>, signalId: string)
    ensures FilledExplained(cfg, events, signalId)
    decreases |events|
  {
    hide Apply, Safe, TasksHold, Protected, RecoveredAt;
    if events != [] {
      var before, e := events[..|events| - 1], events[|events| - 1];
      assert before + [e] == events;
      FilledIsExplained(cfg, before, signalId);
      RunHolds(cfg, before);
      var s, w := Run(cfg, START, before), Run(cfg, START, events).world;
      ApplyHolds(cfg, s, e);
      if signalId in w.rows && w.rows[signalId].status == Filled && !Protected(w.stops, w.rows[signalId]) {
        RowAfter(cfg, s, e, signalId);
        if signalId in s.world.rows && w.rows[signalId] == s.world.rows[signalId] {
          StillProtected(s.world.stops, w.stops, w.rows[signalId]);
          var n :| 0 <= n < |before| && RecoveredAt(cfg, before, signalId, n);
          RecoveredStays(cfg, before, e, signalId, n);
        } else {
          RecoveredNow(cfg, before, e, signalId);
        }
      }
    }
  }

  lemma StillProtected(stops: seq<Protection>, more: seq<Protection>, r: Execution)
    requires stops <= more
    ensures Protected(stops, r) ==> Protected(more, r)
  {
  }
}
