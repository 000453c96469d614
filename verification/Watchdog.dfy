/** The health watchdog: one NEW alert per incident, reminders no sooner than 15 minutes apart, one recovery. */
module Watchdog {
  import opened Prelude

  const REMIND_AFTER := 900.0   // seconds

  datatype Kind = New | Reminder | Recovery

  /** An alert or recovery notice that was attempted, with the start of its incident. */
  datatype Notice = Notice(kind: Kind, incident: string, start: real, time: real)

  /** Start and latest alert of the unresolved incidents, and every notice so far. */
  datatype World = World(active: map<string, real>, alerted: map<string, real>, log: seq<Notice>)

  const Initial := World(map[], map[], [])

  // ---------------------------------------------------------------- one incident

  /** The notices of one incident. */
  function Of(log: seq<Notice>, incident: string): seq<Notice>
    decreases |log|
  {
    if log == [] then []
    else
      Of(log[..|log| - 1], incident) + if log[|log| - 1].incident == incident then [log[|log| - 1]] else []
  }

  lemma OfAppended(log: seq<Notice>, e: Notice, incident: string)
    ensures Of(log + [e], incident) == Of(log, incident) + if e.incident == incident then [e] else []
  {
    assert (log + [e])[..|log|] == log;
  }

  /** The notices a check owes one incident. */
  function Owed(w: World, now: real, current: set<string>, incident: string): seq<Notice> {
    if incident !in w.active then
      if incident in current then [Notice(New, incident, now, now)] else []
    else if incident !in current then [Notice(Recovery, incident, w.active[incident], now)]
    else if incident in w.alerted && now - w.alerted[incident] >= REMIND_AFTER then
      [Notice(Reminder, incident, w.active[incident], now)]
    else []
  }

  /** The incident as a finished check leaves it. */
  ghost predicate Handled(w: World, next: World, now: real, current: set<string>, incident: string) {
    && Of(next.log, incident) == Of(w.log, incident) + Owed(w, now, current, incident)
    && (incident in next.active <==> incident in current)
    && (incident in next.alerted <==> incident in current && (incident in w.active ==> incident in w.alerted))
    && (incident in next.active ==> next.active[incident] == if incident in w.active then w.active[incident] else now)
    && (incident in next.alerted ==>
          next.alerted[incident] == if Owed(w, now, current, incident) == [] && incident in w.alerted then w.alerted[incident] else now)
  }

  ghost predicate Untouched(w: World, next: World, incident: string) {
    && Of(next.log, incident) == Of(w.log, incident)
    && (incident in next.active <==> incident in w.active) && (incident in next.alerted <==> incident in w.alerted)
    && (incident in w.active ==> next.active[incident] == w.active[incident])
    && (incident in w.alerted ==> next.alerted[incident] == w.alerted[incident])
  }

  /** One check, which a failing or cancelled notice may cut short after any incident. */
  ghost predicate Check(w: World, next: World, now: real, current: set<string>, completed: bool) {
    && w.log <= next.log
    && (forall incident :: Handled(w, next, now, current, incident) || (!completed && Untouched(w, next, incident)))
  }

  // ---------------------------------------------------------------- the life of an incident

  /** What an incident's own notices say of it: unresolved or not, since when, last alerted when. */
  datatype Life = Idle | Ongoing(since: real, alerted: real)

  function LifeAfter(trace: seq<Notice>): Life
    decreases |trace|
  {
    if trace == [] then Idle
    else
      var e := trace[|trace| - 1];
      match e.kind
      case New => Ongoing(e.time, e.time)
      case Reminder => Ongoing(e.start, e.time)
      case Recovery => Idle
  }

  /** The notice may follow: NEW when idle, a REMINDER 15 minutes after the last alert, RECOVERY when ongoing. */
  predicate MayFollow(life: Life, e: Notice) {
    match e.kind
    case New => life.Idle? && e.start == e.time
    case Reminder => life.Ongoing? && e.time >= life.alerted + REMIND_AFTER && e.start == life.since
    case Recovery => life.Ongoing? && e.start == life.since
  }

  predicate Lawful(trace: seq<Notice>)
    decreases |trace|
  {
    trace == [] || (Lawful(trace[..|trace| - 1]) && MayFollow(LifeAfter(trace[..|trace| - 1]), trace[|trace| - 1]))
  }

  /** The two dictionaries say exactly what the notices say. */
  ghost predicate Tracks(w: World, incident: string) {
    var life := LifeAfter(Of(w.log, incident));
    && Lawful(Of(w.log, incident))
    && (incident in w.active <==> life.Ongoing?) && (incident in w.alerted <==> life.Ongoing?)
    && (life.Ongoing? ==> w.active[incident] == life.since && w.alerted[incident] == life.alerted)
  }

  lemma LawfulAppended(trace: seq<Notice>, e: Notice)
    requires Lawful(trace) && MayFollow(LifeAfter(trace), e)
    ensures Lawful(trace + [e])
  {
    assert (trace + [e])[..|trace|] == trace;
  }

  lemma HandledKeepsTracks(w: World, next: World, now: real, current: set<string>, incident: string)
    requires Tracks(w, incident) && Handled(w, next, now, current, incident)
    ensures Tracks(next, incident)
  {
    hide Lawful, Of;
    var owed := Owed(w, now, current, incident);
    if owed == [] {
      assert Of(w.log, incident) + owed == Of(w.log, incident);
    } else {
      LawfulAppended(Of(w.log, incident), owed[0]);
    }
  }

  lemma UntouchedKeepsTracks(w: World, next: World, incident: string)
    requires Tracks(w, incident) && Untouched(w, next, incident)
    ensures Tracks(next, incident)
  {
  }

  lemma CheckKeepsTracks(w: World, next: World, now: real, current: set<string>, completed: bool)
    requires (forall incident :: Tracks(w, incident)) && Check(w, next, now, current, completed)
    ensures forall incident :: Tracks(next, incident)
    ensures completed ==> next.active.Keys == current == next.alerted.Keys
  {
    hide Tracks, Untouched, Handled;
    forall incident ensures Tracks(next, incident) {
      if Handled(w, next, now, current, incident) {
        HandledKeepsTracks(w, next, now, current, incident);
      } else {
        UntouchedKeepsTracks(w, next, incident);
      }
    }
    if completed {
      forall incident ensures incident in next.active <==> incident in current {
        assert Handled(w, next, now, current, incident);
        HandledMembership(w, next, now, current, incident);
      }
      forall incident ensures incident in next.alerted <==> incident in next.active {
        TracksMembership(next, incident);
      }
      assert next.active.Keys == current;
      assert next.alerted.Keys == next.active.Keys;
    }
  }

  lemma HandledMembership(w: World, next: World, now: real, current: set<string>, incident: string)
    requires Handled(w, next, now, current, incident)
    ensures incident in next.active <==> incident in current
  {
  }

  lemma TracksMembership(w: World, incident: string)
    requires Tracks(w, incident)
    ensures incident in w.alerted <==> incident in w.active
  {
  }

  // ---------------------------------------------------------------- runs

  datatype Round = Round(now: real, current: set<string>, completed: bool)

  /** A history of checks from a fresh watchdog, some of them cut short. */
  ghost predicate History(worlds: seq<World>, rounds: seq<Round>) {
    && |worlds| == |rounds| + 1 && worlds[0] == Initial
    && forall i :: 0 <= i < |rounds| ==> Check(worlds[i], worlds[i + 1], rounds[i].now, rounds[i].current, rounds[i].completed)
  }

  lemma {:induction false} HistoryTracks(worlds: seq<World>, rounds: seq<Round>, n: nat)
    requires History(worlds, rounds) && n < |worlds|
    ensures forall incident :: Tracks(worlds[n], incident)
    ensures n > 0 && rounds[n - 1].completed ==> worlds[n].active.Keys == rounds[n - 1].current
    decreases n
  {
    hide Check;
    if n == 0 {
      forall incident ensures Tracks(worlds[0], incident) {
        InitialTracks(incident);
      }
    } else {
      HistoryTracks(worlds, rounds, n - 1);
      var r := rounds[n - 1];
      assert Check(worlds[n - 1], worlds[n], r.now, r.current, r.completed);
      CheckKeepsTracks(worlds[n - 1], worlds[n], r.now, r.current, r.completed);
    }
  }

  lemma InitialTracks(incident: string)
    ensures Tracks(Initial, incident)
  {
  }

  /** In a lawful trace NEW and RECOVERY alternate from NEW on, no alert follows another of the same
      incident within 15 minutes, and every notice carries the start its NEW alert announced. */
  lemma {:induction false} LawfulTrace(trace: seq<Notice>, k: nat)
    requires Lawful(trace) && k < |trace|
    ensures k == 0 ==> trace[0].kind == New
    ensures k > 0 ==> (trace[k].kind == New <==> trace[k - 1].kind == Recovery)
    ensures k > 0 && trace[k].kind == Reminder ==> trace[k].time - trace[k - 1].time >= REMIND_AFTER
    ensures trace[k].start == if trace[k].kind == New then trace[k].time else trace[k - 1].start
    decreases |trace|
  {
    var init := trace[..|trace| - 1];
    if k < |init| {
      LawfulTrace(init, k);
    } else if k > 0 && LifeAfter(init).Ongoing? {
      LifeStart(init);
    }
  }

  lemma {:induction false} LifeStart(trace: seq<Notice>)
    requires Lawful(trace) && LifeAfter(trace).Ongoing?
    ensures LifeAfter(trace).since == trace[|trace| - 1].start
  {
  }

  /** Over every history each incident's notices follow the law. */
  lemma HistoryLaw(worlds: seq<World>, rounds: seq<Round>, n: nat, incident: string, k: nat)
    requires History(worlds, rounds) && n < |worlds| && k < |Of(worlds[n].log, incident)|
    ensures var trace := Of(worlds[n].log, incident);
      && (k == 0 ==> trace[0].kind == New)
      && (k > 0 ==> (trace[k].kind == New <==> trace[k - 1].kind == Recovery))
      && (k > 0 && trace[k].kind == Reminder ==> trace[k].time - trace[k - 1].time >= REMIND_AFTER)
      && trace[k].start == if trace[k].kind == New then trace[k].time else trace[k - 1].start
  {
    hide History;
    HistoryTracks(worlds, rounds, n);
    assert Tracks(worlds[n], incident);
    LawfulTrace(Of(worlds[n].log, incident), k);
  }

  /** A completed check sends exactly what is due by the notices sent so far: NEW for an incident not ongoing, a
      reminder for one last alerted 15 minutes ago or longer, RECOVERY for one that is over, and nothing else. */
  lemma CheckSendsWhatIsDue(worlds: seq<World>, rounds: seq<Round>, n: nat, incident: string)
    requires History(worlds, rounds) && n < |rounds| && rounds[n].completed
    ensures var before, after, now := Of(worlds[n].log, incident), Of(worlds[n + 1].log, incident), rounds[n].now;
      var life, found := LifeAfter(before), incident in rounds[n].current;
      && (life.Idle? ==> after == if found then before + [Notice(New, incident, now, now)] else before)
      && (life.Ongoing? && !found ==> after == before + [Notice(Recovery, incident, life.since, now)])
      && (life.Ongoing? && found && now >= life.alerted + 900.0 ==> after == before + [Notice(Reminder, incident, life.since, now)])
      && (life.Ongoing? && found && now < life.alerted + 900.0 ==> after == before)
  {
    hide Lawful, Of;
    HistoryTracks(worlds, rounds, n);
    var w, r := worlds[n], rounds[n];
    assert Tracks(w, incident) && Check(w, worlds[n + 1], r.now, r.current, r.completed);
    assert Handled(w, worlds[n + 1], r.now, r.current, incident);
    assert Of(w.log, incident) + [] == Of(w.log, incident);
  }

  /** So no reminder is forgotten: after a completed check no incident was last alerted 15 minutes ago or longer, and
      the ongoing ones are those the check found. */
  lemma NoReminderForgotten(worlds: seq<World>, rounds: seq<Round>, n: nat, incident: string)
    requires History(worlds, rounds) && n < |rounds| && rounds[n].completed
    ensures var life := LifeAfter(Of(worlds[n + 1].log, incident));
      (life.Ongoing? <==> incident in rounds[n].current) && (life.Ongoing? ==> rounds[n].now - life.alerted < 900.0)
  {
    hide History, Of;
    CheckSendsWhatIsDue(worlds, rounds, n, incident);
  }

  // ---------------------------------------------------------------- the watchdog

  /** The incidents in `done` were handled, nothing else changed. */
  ghost predicate Progress(w: World, next: World, now: real, current: set<string>, done: set<string>) {
    && w.log <= next.log
    && (forall incident :: if incident in done then Handled(w, next, now, current, incident) else Untouched(w, next, incident))
  }

  lemma NoProgress(w: World, now: real, current: set<string>)
    ensures Progress(w, w, now, current, {})
  {
  }

  /** Handling one more incident: its own notices and entries change, and no others. */
  lemma ProgressStep(w: World, next: World, last: World, now: real, current: set<string>, done: set<string>, incident: string)
    requires Progress(w, next, now, current, done) && incident !in done && Handled(next, last, now, current, incident)
    requires last.log == next.log + Owed(next, now, current, incident)
    requires last.active - {incident} == next.active - {incident} && last.alerted - {incident} == next.alerted - {incident}
    ensures Progress(w, last, now, current, done + {incident})
  {
    hide Of;
    assert Untouched(w, next, incident);
    assert Owed(next, now, current, incident) == Owed(w, now, current, incident);
    forall other ensures if other in done + {incident} then Handled(w, last, now, current, other) else Untouched(w, last, other) {
      if other != incident {
        assert other in last.active <==> other in (last.active - {incident});
        assert other in next.active <==> other in (next.active - {incident});
        assert other in last.alerted <==> other in (last.alerted - {incident});
        assert other in next.alerted <==> other in (next.alerted - {incident});
        if other in last.active { assert (last.active - {incident})[other] == (next.active - {incident})[other]; }
        if other in last.alerted { assert (last.alerted - {incident})[other] == (next.alerted - {incident})[other]; }
        OfUnaffected(next, now, current, incident, other);
      }
    }
  }

  lemma OfUnaffected(w: World, now: real, current: set<string>, incident: string, other: string)
    requires other != incident
    ensures Of(w.log + Owed(w, now, current, incident), other) == Of(w.log, other)
  {
    var owed := Owed(w, now, current, incident);
    if owed == [] {
      assert w.log + owed == w.log;
    } else {
      OfAppended(w.log, owed[0], other);
    }
  }

  /** With every incident that is owed a notice handled, the check is complete. */
  lemma ProgressEnds(w: World, next: World, now: real, current: set<string>, done: set<string>)
    requires Progress(w, next, now, current, done) && current + w.active.Keys <= done
    requires w.alerted.Keys <= w.active.Keys
    ensures Check(w, next, now, current, true)
  {
    hide Of;
    forall incident ensures Handled(w, next, now, current, incident) {
      if incident !in done {
        assert Untouched(w, next, incident);
      }
    }
  }

  class ScheduledHealthWatchdog {
    var active: map<string, real>
    var alerted: map<string, real>
    var log: seq<Notice>

    function State(): World
      reads this
    {
      World(active, alerted, log)
    }

    predicate Valid()
      reads this
    {
      active.Keys == alerted.Keys
    }

    constructor ()
      ensures Valid() && State() == Initial
    {
      active, alerted, log := map[], map[], [];
    }

    method AlertNew(incident: string, now: real, ghost current: set<string>)
      requires incident !in active && incident !in alerted && incident in current
      modifies this
      ensures |log| == |old(log)| + 1
      ensures old(Valid()) ==> Valid()
      ensures Handled(old(State()), State(), now, current, incident)
      ensures log == old(log) + Owed(old(State()), now, current, incident)
      ensures active - {incident} == old(active) - {incident} && alerted - {incident} == old(alerted) - {incident}
    {
      hide Of;
      active := active[incident := now];
      alerted := alerted[incident := now];
      log := log + [Notice(New, incident, now, now)];
      OfAppended(old(log), Notice(New, incident, now, now), incident);
    }

    /** A reminder when one is due; `sent` says whether a notice went out. */
    method Remind(incident: string, now: real, ghost current: set<string>) returns (sent: bool)
      requires incident in active && incident in alerted && incident in current
      modifies this
      ensures |log| == |old(log)| + if sent then 1 else 0
      ensures old(Valid()) ==> Valid()
      ensures Handled(old(State()), State(), now, current, incident)
      ensures log == old(log) + Owed(old(State()), now, current, incident)
      ensures active - {incident} == old(active) - {incident} && alerted - {incident} == old(alerted) - {incident}
    {
      hide Of;
      var lastAlert := if incident in alerted then alerted[incident] else now;
      sent := now - lastAlert >= REMIND_AFTER;
      if sent {
        alerted := alerted[incident := now];
        log := log + [Notice(Reminder, incident, active[incident], now)];
        OfAppended(old(log), Notice(Reminder, incident, active[incident], now), incident);
      } else {
        assert Of(log, incident) == Of(log, incident) + [];
      }
    }

    method AnnounceRecovery(incident: string, now: real, ghost current: set<string>)
      requires incident in active && incident in alerted && incident !in current
      modifies this
      ensures |log| == |old(log)| + 1
      ensures old(Valid()) ==> Valid()
      ensures Handled(old(State()), State(), now, current, incident)
      ensures log == old(log) + Owed(old(State()), now, current, incident)
      ensures active - {incident} == old(active) - {incident} && alerted - {incident} == old(alerted) - {incident}
    {
      hide Of;
      var start := active[incident];
      active := active - {incident};
      alerted := alerted - {incident};
      log := log + [Notice(Recovery, incident, start, now)];
      OfAppended(old(log), Notice(Recovery, incident, start, now), incident);
    }

    /** First loop of a check: every new incident. */
    method AlertNewIncidents(ghost w: World, newIncidents: set<string>, now: real, ghost current: set<string>, bearable: nat)
      returns (sent: nat, completed: bool)
      requires Valid() && w == State() && newIncidents == current - active.Keys
      modifies this
      ensures Valid() && |log| == |old(log)| + sent && (completed <==> sent <= bearable)
      ensures completed ==> Progress(w, State(), now, current, newIncidents)
      ensures !completed ==> Check(w, State(), now, current, false)
    {
      hide Progress, Check, Handled, Owed;
      ghost var done := {};
      sent, completed := 0, true;
      NoProgress(w, now, current);
      var todo := newIncidents;
      while todo != {} && completed
        invariant todo <= newIncidents && done == newIncidents - todo && Progress(w, State(), now, current, done)
        invariant Valid() && |log| == |old(log)| + sent && (completed <==> sent <= bearable)
        decreases |todo|
      {
        var incident :| incident in todo;
        ghost var held := State();
        StillAtRest(w, held, now, current, done, incident);
        AlertNew(incident, now, current);
        ProgressStep(w, held, State(), now, current, done, incident);
        OneLess(newIncidents, todo, incident);
        todo, done, sent := todo - {incident}, done + {incident}, sent + 1;
        completed := sent <= bearable;
      }
      if !completed {
        ProgressIsCheck(w, State(), now, current, done);
      } else {
        assert done == newIncidents;
      }
    }

    /** Second loop: reminders for the incidents that go on. */
    method RemindOngoing(ghost w: World, newIncidents: set<string>, now: real, current: set<string>, before: nat, bearable: nat)
      returns (sent: nat, completed: bool)
      requires Valid() && w.active.Keys == w.alerted.Keys && newIncidents == current - w.active.Keys
      requires Progress(w, State(), now, current, newIncidents) && before <= bearable
      modifies this
      ensures Valid() && |log| == |old(log)| + sent - before && (completed <==> sent <= bearable)
      ensures completed ==> Progress(w, State(), now, current, current)
      ensures !completed ==> Check(w, State(), now, current, false)
    {
      hide Progress, Check, Handled, Owed;
      ghost var done := newIncidents;
      sent, completed := before, true;
      var todo := current;
      while todo != {} && completed
        invariant todo <= current && done == newIncidents + (current - todo) && Progress(w, State(), now, current, done)
        invariant Valid() && |log| == |old(log)| + sent - before && (completed <==> sent <= bearable)
        decreases |todo|
      {
        var incident :| incident in todo;
        OneLookedAt(newIncidents, current, todo, incident);
        if incident !in newIncidents {
          ghost var held := State();
          StillAtRest(w, held, now, current, done, incident);
          var reminded := Remind(incident, now, current);
          ProgressStep(w, held, State(), now, current, done, incident);
          done := done + {incident};
          if reminded {
            sent := sent + 1;
            completed := sent <= bearable;
          }
        }
        todo := todo - {incident};
      }
      if !completed {
        ProgressIsCheck(w, State(), now, current, done);
      } else {
        assert done == current;
      }
    }

    /** Third loop: the incidents that are over. */
    method AnnounceRecoveries(ghost w: World, resolved: set<string>, now: real, ghost current: set<string>, before: nat, bearable: nat)
      returns (sent: nat, completed: bool)
      requires Valid() && w.active.Keys == w.alerted.Keys && resolved == w.active.Keys - current
      requires Progress(w, State(), now, current, current) && before <= bearable
      modifies this
      ensures Valid() && |log| == |old(log)| + sent - before && (completed <==> sent <= bearable)
      ensures Check(w, State(), now, current, completed)
    {
      hide Progress, Check, Handled, Owed;
      ghost var done := current;
      sent, completed := before, true;
      var todo := resolved;
      while todo != {} && completed
        invariant todo <= resolved && done == current + (resolved - todo) && Progress(w, State(), now, current, done)
        invariant Valid() && |log| == |old(log)| + sent - before && (completed <==> sent <= bearable)
        decreases |todo|
      {
        var incident :| incident in todo;
        ghost var held := State();
        StillAtRest(w, held, now, current, done, incident);
        AnnounceRecovery(incident, now, current);
        ProgressStep(w, held, State(), now, current, done, incident);
        OneLookedAt(current, resolved, todo, incident);
        todo, done, sent := todo - {incident}, done + {incident}, sent + 1;
        completed := sent <= bearable;
      }
      if !completed {
        ProgressIsCheck(w, State(), now, current, done);
      } else {
        ProgressEnds(w, State(), now, current, done);
      }
    }

    /** One check against the incidents found by the probes. When more than `bearable` notices are owed, the
        next one fails or is cancelled, and ends the check. */
    method CheckHealth(now: real, current: set<string>, bearable: nat) returns (completed: bool)
      requires Valid()
      modifies this
      ensures Valid() && Check(old(State()), State(), now, current, completed)
      ensures completed ==> active.Keys == current
      ensures completed <==> |log| <= |old(log)| + bearable
    {
      hide Progress, Check;
      ghost var w := State();
      var newIncidents, resolved := current - active.Keys, active.Keys - current;
      var sent;
      sent, completed := AlertNewIncidents(w, newIncidents, now, current, bearable);
      if !completed {
        return;
      }
      sent, completed := RemindOngoing(w, newIncidents, now, current, sent, bearable);
      if !completed {
        return;
      }
      sent, completed := AnnounceRecoveries(w, resolved, now, current, sent, bearable);
      if completed {
        CheckedKeys(w, State(), now, current);
      }
    }
  }

  lemma OneLess(all: set<string>, todo: set<string>, x: string)
    requires todo <= all && x in todo
    ensures all - (todo - {x}) == (all - todo) + {x} && x !in all - todo
  {
  }

  lemma OneLookedAt(before: set<string>, all: set<string>, todo: set<string>, x: string)
    requires todo <= all && x in todo
    ensures before + (all - (todo - {x})) == if x in before then before + (all - todo) else before + (all - todo) + {x}
    ensures x !in before ==> x !in before + (all - todo)
  {
  }

  lemma StillAtRest(w: World, next: World, now: real, current: set<string>, done: set<string>, incident: string)
    requires Progress(w, next, now, current, done) && incident !in done
    ensures incident in next.active <==> incident in w.active
    ensures incident in next.alerted <==> incident in w.alerted
  {
    assert Untouched(w, next, incident);
  }

  lemma ProgressIsCheck(w: World, next: World, now: real, current: set<string>, done: set<string>)
    requires Progress(w, next, now, current, done)
    ensures Check(w, next, now, current, false)
  {
    hide Handled, Untouched;
  }

  lemma CheckedKeys(w: World, next: World, now: real, current: set<string>)
    requires Check(w, next, now, current, true)
    ensures next.active.Keys == current
  {
    hide Handled;
    forall incident ensures incident in next.active <==> incident in current {
      assert Handled(w, next, now, current, incident);
      HandledMembership(w, next, now, current, incident);
    }
  }
}
