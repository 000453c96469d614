/** Safety of the order protocol over every run: any number of executions interleaved step by step with
    crashes, cancelled awaits, restarts and recoveries, against an exchange that answers anything. */
module ExecutionSafety {
  import opened Prelude
  import opened ExecutionStore
  import opened ExecutionProtocol

  // ---------------------------------------------------------------- runs

  datatype Task = Task(decision: Decision, phase: Phase)

  datatype System = System(world: World, tasks: map<nat, Task>, recovering: seq<Execution>)

  datatype Event =
    | Start(task: nat, decision: Decision, writable: bool)
    | Advance(task: nat, answer: Answer)
    | Cancel(task: nat)
    | Crash
    | BeginRecovery(order: seq<string>)
    | RecoverNext(answer: Answer)

  /** The unresolved rows, in the order the query returned them. */
  function Intents(rows: Table, order: seq<string>): seq<Execution> {
    if order == [] then []
    else
      var rest := Intents(rows, order[1..]);
      if order[0] in rows && !Terminal(rows[order[0]].status) && order[0] !in order[1..]
      then [rows[order[0]]] + rest else rest
  }

  /** The effect of one event; an event that is not enabled changes nothing. */
  function Apply(cfg: Settings, s: System, e: Event): System {
    match e
    case Start(t, d, writable) =>
      if t in s.tasks then s else s.(tasks := s.tasks[t := Task(d, Begin(d, writable))])
    case Advance(t, a) =>
      if t !in s.tasks then s
      else
        var next := Step(cfg, s.tasks[t].decision, s.world, s.tasks[t].phase, a);
        s.(world := next.0, tasks := s.tasks[t := s.tasks[t].(phase := next.1)])
    case Cancel(t) => s.(tasks := s.tasks - {t})
    case Crash => s.(tasks := map[], recovering := [])
    case BeginRecovery(order) => s.(recovering := Intents(s.world.rows, order))
    case RecoverNext(a) =>
      if s.recovering == [] then s
      else s.(world := s.world.(rows := Upsert(s.world.rows, Resolved(s.recovering[0], a))),
              recovering := s.recovering[1..])
  }

  function Run(cfg: Settings, s: System, events: seq<Event>): System
    decreases |events|
  {
    if events == [] then s else Apply(cfg, Run(cfg, s, events[..|events| - 1]), events[|events| - 1])
  }

  const START := System(World(map[], [], []), map[], [])

  // ---------------------------------------------------------------- entries per signal

  predicate IsEntry(o: Order, signalId: string) {
    !o.reduceOnly && o.link == OrderLink(signalId)
  }

  function EntryCount(sent: seq<Order>, signalId: string): nat
    decreases |sent|
  {
    if sent == [] then 0
    else EntryCount(sent[..|sent| - 1], signalId) + if IsEntry(sent[|sent| - 1], signalId) then 1 else 0
  }

  lemma EntryCountAppend(sent: seq<Order>, o: Order, signalId: string)
    ensures EntryCount(sent + [o], signalId) == EntryCount(sent, signalId) + if IsEntry(o, signalId) then 1 else 0
  {
    assert (sent + [o])[..|sent|] == sent;
  }

  lemma LinkInjective(a: string, b: string)
    ensures OrderLink(a) == OrderLink(b) <==> a == b
  {
    assert OrderLink(a)[4..] == a && OrderLink(b)[4..] == b;
  }

  // ---------------------------------------------------------------- what a task may hold

  /** The intent was stored and the entry not yet sent. */
  predicate Claims(ph: Phase) {
    match ph
    case Leveraging(_) => true
    case Sending(_) => true
    case Saving(_, next) => Claims(next)
    case _ => false
  }

  /** r is a copy of the row stored for the decision's signal, as far as its identity goes. */
  ghost predicate Copies(rows: Table, r: Execution) {
    r.signalId in rows && rows[r.signalId].identity == r.identity
    && rows[r.signalId].symbol == r.symbol && rows[r.signalId].side == r.side
  }

  ghost predicate Mine(rows: Table, d: Decision, r: Execution) {
    r.signalId == d.signalId && Copies(rows, r)
  }

  ghost predicate PhaseOk(rows: Table, d: Decision, ph: Phase) {
    match ph
    case Normalizing => true
    case Checking(_) => true
    case Done(_) => true
    case Raised => true
    case Leveraging(r) => Mine(rows, d, r)
    case Sending(r) => Mine(rows, d, r)
    case AwaitingAck(r) => Mine(rows, d, r)
    case Polling(r, _, _, _) => Mine(rows, d, r)
    case Protecting(_, r, _, _, _) => Mine(rows, d, r)
    case Closing(o, r) => o.reduceOnly && Mine(rows, d, r)
    case AwaitingClose(r) => Mine(rows, d, r)
    case Saving(r, next) => Mine(rows, d, r) && PhaseOk(rows, d, next)
  }

  /** No row disappears, and identities, symbols and sides stay. */
  ghost predicate Stable(before: Table, after: Table) {
    forall id {:trigger id in after} :: id in before ==>
      id in after && after[id].signalId == before[id].signalId && after[id].identity == before[id].identity
      && after[id].symbol == before[id].symbol && after[id].side == before[id].side
  }

  ghost predicate KeyedBySignal(rows: Table) {
    forall id :: id in rows ==> rows[id].signalId == id
  }

  lemma UpsertCopy(rows: Table, r: Execution)
    requires Copies(rows, r)
    ensures Stable(rows, Upsert(rows, r)) && Grows(rows, Upsert(rows, r))
    ensures Upsert(rows, r).Keys == rows.Keys
  {
    UpsertGrows(rows, r);
  }

  lemma {:induction false} PhaseOkStable(rows: Table, rows': Table, d: Decision, ph: Phase)
    requires PhaseOk(rows, d, ph) && Stable(rows, rows')
    ensures PhaseOk(rows', d, ph)
    decreases ph
  {
    if ph.Saving? {
      PhaseOkStable(rows, rows', d, ph.next);
    }
  }

  // ---------------------------------------------------------------- one step of one task

  lemma InsertPending(rows: Table, d: Decision, n: Normalized)
    requires d.signalId !in rows
    ensures var rows' := Upsert(rows, PendingRow(d, n));
      Stable(rows, rows') && Grows(rows, rows') && Mine(rows', d, PendingRow(d, n))
      && rows'.Keys == rows.Keys + {d.signalId} && (KeyedBySignal(rows) ==> KeyedBySignal(rows'))
  {
    UpsertGrows(rows, PendingRow(d, n));
  }

  lemma SaveMine(rows: Table, d: Decision, r: Execution, next: Phase)
    requires Mine(rows, d, r) && PhaseOk(rows, d, next)
    ensures var rows' := Upsert(rows, r);
      Stable(rows, rows') && Grows(rows, rows') && PhaseOk(rows', d, next)
      && rows'.Keys == rows.Keys && (KeyedBySignal(rows) ==> KeyedBySignal(rows'))
  {
    UpsertCopy(rows, r);
    PhaseOkStable(rows, Upsert(rows, r), d, next);
  }

  lemma NothingChanges(rows: Table)
    ensures Stable(rows, rows) && Grows(rows, rows)
  {
  }

  lemma ConcludeOk(rows: Table, d: Decision, r: Execution, status: Status)
    requires Mine(rows, d, r)
    ensures PhaseOk(rows, d, Conclude(r, status))
  {
  }

  lemma AfterAckOk(rows: Table, d: Decision, r: Execution, a: Answer)
    requires Mine(rows, d, r)
    ensures PhaseOk(rows, d, AfterAck(r, a)) && !Claims(AfterAck(r, a))
  {
  }

  lemma JudgeOk(cfg: Settings, rows: Table, d: Decision, r: Execution, price: Option<real>, quantity: real)
    requires Mine(rows, d, r)
    ensures PhaseOk(rows, d, Judge(cfg, d, r, price, quantity)) && !Claims(Judge(cfg, d, r, price, quantity))
  {
    hide Gate;
  }

  lemma AfterProtectOk(rows: Table, d: Decision, ph: Phase, a: Answer)
    requires ph.Protecting? && Mine(rows, d, ph.acked)
    ensures PhaseOk(rows, d, AfterProtect(d, ph, a)) && !Claims(AfterProtect(d, ph, a))
  {
  }

  lemma LeverageOk(rows: Table, d: Decision, r: Execution)
    requires Mine(rows, d, r)
    ensures PhaseOk(rows, d, Saving(r.(status := Submitted), Sending(r.(status := Submitted))))
  {
  }

  /** A step keeps the table stable and growing, and leaves the task with copies of its own row. */
  lemma StepOnRows(cfg: Settings, d: Decision, w: World, ph: Phase, a: Answer)
    requires PhaseOk(w.rows, d, ph)
    ensures var next := Step(cfg, d, w, ph, a);
      && Stable(w.rows, next.0.rows) && Grows(w.rows, next.0.rows)
      && PhaseOk(next.0.rows, d, next.1)
      && (KeyedBySignal(w.rows) ==> KeyedBySignal(next.0.rows))
      && w.rows.Keys <= next.0.rows.Keys <= w.rows.Keys + {d.signalId}
  {
    hide Upsert, PendingRow, AfterPoll, Stable, Grows, KeyedBySignal, AfterAck, Judge, AfterProtect, Conclude, Mine;
    NothingChanges(w.rows);
    match ph
    case Checking(n) => if d.signalId !in w.rows { InsertPending(w.rows, d, n); }
    case Leveraging(r) => LeverageOk(w.rows, d, r); ConcludeOk(w.rows, d, r, Failed);
    case AwaitingAck(r) => AfterAckOk(w.rows, d, r, a);
    case Polling(r, _, price, quantity) =>
      var seen := AfterPoll(a, price, quantity);
      JudgeOk(cfg, w.rows, d, r, seen.0, seen.1);
    case Protecting(_, _, _, _, _) => AfterProtectOk(w.rows, d, ph, a);
    case Saving(r, next) => SaveMine(w.rows, d, r, next);
    case _ =>
  }

  /** The step sent exactly this request. */
  predicate SentOne(before: seq<Order>, after: seq<Order>, o: Order) {
    after == before + [o]
  }

  /** A step sends at most one request; an entry is sent only by a task that holds the claim, and
      sending gives the claim up. Only the insertion of the intent creates a claim. */
  lemma StepOnRequests(cfg: Settings, d: Decision, w: World, ph: Phase, a: Answer)
    requires PhaseOk(w.rows, d, ph)
    ensures var next := Step(cfg, d, w, ph, a);
      || next.0.sent == w.sent
      || (exists o: Order :: SentOne(w.sent, next.0.sent, o) && o.reduceOnly && !Claims(next.1))
      || (exists o: Order :: SentOne(w.sent, next.0.sent, o) && IsEntry(o, d.signalId) && Claims(ph) && !Claims(next.1))
    ensures var next := Step(cfg, d, w, ph, a);
      Claims(next.1) ==> next.0.sent == w.sent && (Claims(ph) || (d.signalId !in w.rows && d.signalId in next.0.rows))
  {
    hide Upsert, PendingRow, AfterPoll, AfterAck, Judge, AfterProtect, Mine;
    var next := Step(cfg, d, w, ph, a);
    match ph
    case Sending(r) => assert SentOne(w.sent, next.0.sent, EntryOrder(d, r));
    case Closing(o, _) => assert SentOne(w.sent, next.0.sent, o);
    case Checking(n) => InsertedKey(w.rows, d, n);
    case AwaitingAck(r) => AfterAckOk(w.rows, d, r, a);
    case Polling(r, _, price, quantity) =>
      var seen := AfterPoll(a, price, quantity);
      JudgeOk(cfg, w.rows, d, r, seen.0, seen.1);
    case Protecting(_, _, _, _, _) => AfterProtectOk(w.rows, d, ph, a);
    case AwaitingClose(r) => assert !Claims(Done(r));
    case Saving(_, after) => assert Claims(ph) == Claims(after);
    case _ =>
  }

  lemma InsertedKey(rows: Table, d: Decision, n: Normalized)
    ensures d.signalId in Upsert(rows, PendingRow(d, n))
  {
  }

  lemma {:induction false} ClaimHasRow(rows: Table, d: Decision, ph: Phase)
    requires PhaseOk(rows, d, ph) && Claims(ph)
    ensures d.signalId in rows
  {
  }

  // ---------------------------------------------------------------- the invariant

  ghost predicate TasksOk(s: System) {
    forall t :: t in s.tasks ==> PhaseOk(s.world.rows, s.tasks[t].decision, s.tasks[t].phase)
  }

  /** Claims on one signal are exclusive, and precede its entry. */
  ghost predicate ClaimsOk(s: System) {
    && (forall t :: t in s.tasks && Claims(s.tasks[t].phase) ==>
          EntryCount(s.world.sent, s.tasks[t].decision.signalId) == 0)
    && (forall t, u :: t in s.tasks && u in s.tasks && t != u && Claims(s.tasks[t].phase) && Claims(s.tasks[u].phase) ==>
          s.tasks[t].decision.signalId != s.tasks[u].decision.signalId)
  }

  ghost predicate EntriesOk(w: World) {
    forall id {:trigger EntryCount(w.sent, id)} ::
      EntryCount(w.sent, id) <= 1 && (EntryCount(w.sent, id) > 0 ==> id in w.rows)
  }

  ghost predicate IntentsOk(s: System) {
    forall k :: 0 <= k < |s.recovering| ==> Copies(s.world.rows, s.recovering[k])
  }

  ghost predicate Safe(s: System) {
    KeyedBySignal(s.world.rows) && TasksOk(s) && ClaimsOk(s) && EntriesOk(s.world) && IntentsOk(s)
  }

  lemma {:induction false} IntentsAreCopies(rows: Table, order: seq<string>)
    requires KeyedBySignal(rows)
    ensures forall k :: 0 <= k < |Intents(rows, order)| ==> Copies(rows, Intents(rows, order)[k])
  {
    if order != [] {
      IntentsAreCopies(rows, order[1..]);
    }
  }

  lemma SentEntry(w: World, sent': seq<Order>, o: Order, signalId: string)
    requires EntriesOk(w) && SentOne(w.sent, sent', o) && IsEntry(o, signalId)
    requires signalId in w.rows && EntryCount(w.sent, signalId) == 0
    ensures EntriesOk(w.(sent := sent'))
    ensures forall id {:trigger EntryCount(sent', id)} :: id != signalId ==> EntryCount(sent', id) == EntryCount(w.sent, id)
  {
    forall id ensures EntryCount(sent', id) == EntryCount(w.sent, id) + if id == signalId then 1 else 0 {
      EntryCountAppend(w.sent, o, id);
      LinkInjective(id, signalId);
    }
  }

  lemma SentClose(sent: seq<Order>, sent': seq<Order>, o: Order)
    requires SentOne(sent, sent', o) && o.reduceOnly
    ensures forall id {:trigger EntryCount(sent', id)} :: EntryCount(sent', id) == EntryCount(sent, id)
  {
    forall id ensures EntryCount(sent', id) == EntryCount(sent, id) {
      EntryCountAppend(sent, o, id);
    }
  }

  /** What one step does to the entry counts. */
  lemma AdvanceEntries(cfg: Settings, s: System, t: nat, a: Answer)
    requires Safe(s) && t in s.tasks
    ensures var s' := Apply(cfg, s, Advance(t, a));
      && EntriesOk(s'.world)
      && (forall id {:trigger EntryCount(s'.world.sent, id)} ::
            EntryCount(s'.world.sent, id) != EntryCount(s.world.sent, id) ==>
            id == s.tasks[t].decision.signalId && Claims(s.tasks[t].phase))
  {
    hide Step, EntryCount, IsEntry, KeyedBySignal, IntentsOk, PhaseOk, Claims, Stable, Grows, SentOne;
    var d, ph, w := s.tasks[t].decision, s.tasks[t].phase, s.world;
    var next := Step(cfg, d, w, ph, a);
    StepOnRows(cfg, d, w, ph, a);
    StepOnRequests(cfg, d, w, ph, a);
    if next.0.sent != w.sent {
      if o: Order :| SentOne(w.sent, next.0.sent, o) && o.reduceOnly {
        SentClose(w.sent, next.0.sent, o);
      } else {
        var o: Order :| SentOne(w.sent, next.0.sent, o) && IsEntry(o, d.signalId) && Claims(ph);
        ClaimHasRow(w.rows, d, ph);
        SentEntry(w, next.0.sent, o, d.signalId);
      }
    }
  }

  lemma AdvanceKeepsClaims(cfg: Settings, s: System, t: nat, a: Answer)
    requires Safe(s) && t in s.tasks
    ensures ClaimsOk(Apply(cfg, s, Advance(t, a)))
  {
    hide Step, EntryCount, IsEntry, KeyedBySignal, IntentsOk, PhaseOk, Claims, Stable, Grows, SentOne, EntriesOk;
    var d, ph, w := s.tasks[t].decision, s.tasks[t].phase, s.world;
    var next := Step(cfg, d, w, ph, a);
    var s' := Apply(cfg, s, Advance(t, a));
    StepOnRequests(cfg, d, w, ph, a);
    AdvanceEntries(cfg, s, t, a);
    if d.signalId !in w.rows {
      NewClaim(s, d.signalId);
    }
    forall u | u in s'.tasks && Claims(s'.tasks[u].phase)
      ensures EntryCount(s'.world.sent, s'.tasks[u].decision.signalId) == 0
    {
      assert u != t ==> s'.tasks[u] == s.tasks[u];
    }
  }

  /** Nobody holds a claim on a signal that has no row, and no entry was sent for it. */
  lemma NewClaim(s: System, signalId: string)
    requires Safe(s) && signalId !in s.world.rows
    ensures EntryCount(s.world.sent, signalId) == 0
    ensures forall u :: u in s.tasks && Claims(s.tasks[u].phase) ==> s.tasks[u].decision.signalId != signalId
  {
    forall u | u in s.tasks && Claims(s.tasks[u].phase) ensures s.tasks[u].decision.signalId != signalId {
      ClaimHasRow(s.world.rows, s.tasks[u].decision, s.tasks[u].phase);
    }
  }

  lemma CopiesStable(rows: Table, rows': Table, intents: seq<Execution>)
    requires Stable(rows, rows')
    requires forall k :: 0 <= k < |intents| ==> Copies(rows, intents[k])
    ensures forall k :: 0 <= k < |intents| ==> Copies(rows', intents[k])
  {
  }

  lemma AdvanceKeepsTasks(cfg: Settings, s: System, t: nat, a: Answer)
    requires Safe(s) && t in s.tasks
    ensures var s' := Apply(cfg, s, Advance(t, a));
      KeyedBySignal(s'.world.rows) && TasksOk(s') && IntentsOk(s')
      && Stable(s.world.rows, s'.world.rows) && Grows(s.world.rows, s'.world.rows)
  {
    hide Step, KeyedBySignal, ClaimsOk, EntriesOk, Stable, Grows, PhaseOk, Copies;
    var d, ph, w := s.tasks[t].decision, s.tasks[t].phase, s.world;
    var s' := Apply(cfg, s, Advance(t, a));
    StepOnRows(cfg, d, w, ph, a);
    CopiesStable(w.rows, s'.world.rows, s.recovering);
    forall u | u in s'.tasks ensures PhaseOk(s'.world.rows, s'.tasks[u].decision, s'.tasks[u].phase) {
      if u != t {
        PhaseOkStable(w.rows, s'.world.rows, s.tasks[u].decision, s.tasks[u].phase);
      }
    }
  }

  lemma RecoverKeepsSafe(cfg: Settings, s: System, a: Answer)
    requires Safe(s) && s.recovering != []
    ensures var s' := Apply(cfg, s, RecoverNext(a));
      Safe(s') && Stable(s.world.rows, s'.world.rows) && Grows(s.world.rows, s'.world.rows)
  {
    hide Upsert, EntryCount, Stable, Grows, PhaseOk;
    var s' := Apply(cfg, s, RecoverNext(a));
    var r := Resolved(s.recovering[0], a);
    assert Copies(s.world.rows, s.recovering[0]);
    assert Copies(s.world.rows, r);
    UpsertCopy(s.world.rows, r);
    CopiesStable(s.world.rows, s'.world.rows, s.recovering[1..]);
    UpsertKeepsKeys(s.world.rows, r);
    forall u | u in s'.tasks ensures PhaseOk(s'.world.rows, s'.tasks[u].decision, s'.tasks[u].phase) {
      PhaseOkStable(s.world.rows, s'.world.rows, s.tasks[u].decision, s.tasks[u].phase);
    }
  }

  lemma UpsertKeepsKeys(rows: Table, r: Execution)
    requires KeyedBySignal(rows)
    ensures KeyedBySignal(Upsert(rows, r))
  {
  }

  /** Every event keeps the system safe, keeps every identity, and loses no stored value. */
  lemma ApplyKeepsSafe(cfg: Settings, s: System, e: Event)
    requires Safe(s)
    ensures var s' := Apply(cfg, s, e);
      Safe(s') && Stable(s.world.rows, s'.world.rows) && Grows(s.world.rows, s'.world.rows)
  {
    hide Step, Upsert, EntryCount, Stable, Grows, Copies;
    NothingChanges(s.world.rows);
    match e
    case Start(t, d, writable) =>
    case Advance(t, a) =>
      if t in s.tasks {
        AdvanceKeepsTasks(cfg, s, t, a);
        AdvanceEntries(cfg, s, t, a);
        AdvanceKeepsClaims(cfg, s, t, a);
      }
    case Cancel(t) =>
    case Crash =>
    case BeginRecovery(order) => IntentsAreCopies(s.world.rows, order);
    case RecoverNext(a) => if s.recovering != [] { RecoverKeepsSafe(cfg, s, a); }
  }

  lemma {:induction false} RunKeepsSafe(cfg: Settings, s: System, events: seq<Event>)
    requires Safe(s)
    ensures Safe(Run(cfg, s, events))
    ensures Stable(s.world.rows, Run(cfg, s, events).world.rows)
    ensures Grows(s.world.rows, Run(cfg, s, events).world.rows)
    decreases |events|
  {
    hide Safe, Apply, Stable, Grows;
    NothingChanges(s.world.rows);
    if events != [] {
      var before := Run(cfg, s, events[..|events| - 1]);
      RunKeepsSafe(cfg, s, events[..|events| - 1]);
      ApplyKeepsSafe(cfg, before, events[|events| - 1]);
      GrowsTransitive(s.world.rows, before.world.rows, Run(cfg, s, events).world.rows);
      StableTransitive(s.world.rows, before.world.rows, Run(cfg, s, events).world.rows);
    }
  }

  lemma StableTransitive(a: Table, b: Table, c: Table)
    requires Stable(a, b) && Stable(b, c)
    ensures Stable(a, c)
  {
    forall id | id in a
      ensures id in c && c[id].signalId == a[id].signalId && c[id].identity == a[id].identity
        && c[id].symbol == a[id].symbol && c[id].side == a[id].side
    {
      assert id in b;
    }
  }

  /** In every run from an empty store at most one entry is requested per signal, and every entry
      requested so far has its stored intent. */
  lemma AtMostOneEntry(cfg: Settings, events: seq<Event>, signalId: string)
    ensures var w := Run(cfg, START, events).world;
      EntryCount(w.sent, signalId) <= 1 && (EntryCount(w.sent, signalId) == 1 ==> signalId in w.rows)
  {
    assert Safe(START);
    RunKeepsSafe(cfg, START, events);
    assert EntriesOk(Run(cfg, START, events).world);
  }

  /** Between any two moments of a run the identity, symbol and side of a stored intent are the same,
      and no field that held a value has become null. */
  lemma IntentsNeverChange(cfg: Settings, earlier: seq<Event>, later: seq<Event>, signalId: string)
    requires signalId in Run(cfg, START, earlier).world.rows
    ensures var a, b := Run(cfg, START, earlier).world.rows, Run(cfg, Run(cfg, START, earlier), later).world.rows;
      signalId in b && b[signalId].identity == a[signalId].identity && b[signalId].symbol == a[signalId].symbol
      && b[signalId].side == a[signalId].side && NothingLost(a[signalId], b[signalId])
  {
    hide Run, Safe, Apply, NothingLost;
    assert Safe(START) by { StartIsSafe(); }
    RunKeepsSafe(cfg, START, earlier);
    RunKeepsSafe(cfg, Run(cfg, START, earlier), later);
  }

  lemma StartIsSafe()
    ensures Safe(START)
  {
  }
}
