/** The break-even stop manager: one stored row per symbol, one amendment once a position is +1R ahead. */
module BreakEven {
  import opened Prelude

  /** The side of a position, upper-cased: the names the manager tests and the names the client yields. */
  datatype PositionSide = BuySide | SellSide | LongSide | ShortSide

  datatype Position = Position(symbol: string, side: PositionSide, size: Option<real>,
                               entry: Option<real>, mark: Option<real>, stop: Option<real>)

  datatype BeStatus = Monitoring | Failed | VerificationFailed | Success

  datatype Row = Row(triggered: bool, triggerPrice: Option<real>, original: Option<real>, current: Option<real>, status: BeStatus)

  /** A stop amendment as it was requested, with what was known then. */
  datatype Amendment = Amendment(symbol: string, side: PositionSide, entry: real, mark: real,
                                 original: real, recorded: Option<real>, newStop: real)

  /** What follows an amendment request: refusal, the end of the process, or acceptance and a second look. */
  datatype Reply = Rejected | Died | Accepted(positions: Option<seq<Position>>)

  type Table = map<string, Row>

  datatype World = World(table: Table, log: seq<Amendment>)

  datatype Event = Manage(position: Position, reply: Reply)

  // ---------------------------------------------------------------- one position

  /** A number that is neither missing nor zero. */
  predicate Present(x: Option<real>) {
    x.Some? && x.value != 0.0
  }

  predicate Complete(p: Position) {
    Present(p.entry) && Present(p.mark) && Present(p.size) && Present(p.stop)
  }

  function FreshRow(p: Position): Row {
    Row(false, None, p.stop, p.stop, Monitoring)
  }

  function RowFor(t: Table, p: Position): Row {
    if p.symbol in t then t[p.symbol] else FreshRow(p)
  }

  function Risk(entry: real, original: real): real {
    Abs(entry - original)
  }

  /** The guards between the stored row and the amendment. */
  predicate Amends(p: Position, row: Row)
    requires Complete(p)
  {
    var entry, mark := p.entry.value, p.mark.value;
    && !(row.triggered && row.status == Success)
    && row.original.Some? && Risk(entry, row.original.value) > 0.0
    && (if p.side == BuySide then mark >= entry + Risk(entry, row.original.value)
        else mark <= entry - Risk(entry, row.original.value))
    && (p.side == BuySide ==> row.original.value < entry && (row.current.Some? ==> row.current.value < entry))
    && (p.side == SellSide ==> row.original.value > entry && (row.current.Some? ==> row.current.value > entry))
  }

  function Tolerance(stop: real): real {
    Max(stop * 0.001, 0.01)
  }

  /** The stop of the first listed position of the symbol that carries one. */
  function FirstStop(positions: seq<Position>, symbol: string): Option<real> {
    if positions == [] then None
    else if positions[0].symbol == symbol && positions[0].stop.Some? then positions[0].stop
    else FirstStop(positions[1..], symbol)
  }

  predicate Confirms(positions: Option<seq<Position>>, symbol: string, stop: real) {
    positions.Some?
    && var found := FirstStop(positions.value, symbol);
       found.Some? && Abs(found.value - stop) <= Tolerance(stop)
  }

  /** The row stored after an amendment; a process that died stores nothing. */
  function AfterAmend(row: Row, p: Position, reply: Reply): Row
    requires Complete(p)
  {
    match reply
    case Rejected => row.(status := Failed)
    case Died => row
    case Accepted(positions) =>
      if Confirms(positions, p.symbol, p.entry.value) then
        row.(triggered := true, triggerPrice := p.mark, current := p.entry, status := Success)
      else row.(status := VerificationFailed)
  }

  function RequestOf(p: Position, row: Row): Amendment
    requires Complete(p) && Amends(p, row)
  {
    Amendment(p.symbol, p.side, p.entry.value, p.mark.value, row.original.value, row.current, p.entry.value)
  }

  function Step(w: World, e: Event): World {
    var p := e.position;
    if !Complete(p) then w
    else
      var row := RowFor(w.table, p);
      if Amends(p, row) then World(w.table[p.symbol := AfterAmend(row, p, e.reply)], w.log + [RequestOf(p, row)])
      else w.(table := w.table[p.symbol := row])
  }

  function Run(w: World, events: seq<Event>): World
    decreases |events|
  {
    if events == [] then w else Step(Run(w, events[..|events| - 1]), events[|events| - 1])
  }

  // ---------------------------------------------------------------- one step

  /** When a stop is amended: on BUY and SELL once the gain has reached the distance to an original stop on the losing
      side, with no recorded stop at break-even or better; on any other name once the price has fallen by that much. */
  lemma AmendsExactly(p: Position, row: Row)
    requires Complete(p) && row.original.Some?
    ensures var entry, mark, original := p.entry.value, p.mark.value, row.original.value;
      var settled, recorded := row.triggered && row.status == Success, row.current;
      Amends(p, row) <==>
        !settled && match p.side
        case BuySide => original < entry && mark >= 2.0 * entry - original && (recorded.Some? ==> recorded.value < entry)
        case SellSide => original > entry && mark <= 2.0 * entry - original && (recorded.Some? ==> recorded.value > entry)
        case _ => original != entry && (mark <= original || original > entry) && (mark <= 2.0 * entry - original || original < entry)
  {
  }

  /** What one visit does: nothing on incomplete data; otherwise the first stop ever seen is the original, and an amendment
      is requested at the entry price exactly when one is due, with a status for each reply. */
  lemma VisitPlainly(w: World, p: Position, reply: Reply)
    ensures var next := Step(w, Manage(p, reply));
      && (!Complete(p) ==> next == w)
      && (forall s :: s != p.symbol ==> (s in next.table <==> s in w.table) && (s in w.table ==> next.table[s] == w.table[s]))
      && (Complete(p) ==> p.symbol in next.table && Visited(w, next, p, reply))
  {
    hide Confirms, Amends;
  }

  predicate Visited(w: World, next: World, p: Position, reply: Reply)
    requires Complete(p) && p.symbol in next.table
  {
    var row, q := if p.symbol in w.table then w.table[p.symbol] else Row(false, None, p.stop, p.stop, Monitoring), next.table[p.symbol];
    && q.original == row.original
    && if !Amends(p, row) then next.log == w.log && q == row
       else
         && next.log == w.log + [Amendment(p.symbol, p.side, p.entry.value, p.mark.value, row.original.value, row.current, p.entry.value)]
         && match reply
            case Died => q == row
            case Rejected => q == row.(status := Failed)
            case Accepted(found) =>
              if Confirms(found, p.symbol, p.entry.value) then q == Row(true, p.mark, row.original, p.entry, Success)
              else q == row.(status := VerificationFailed)
  }

  /** In what direction a position gains. */
  function Gain(side: PositionSide, from: real, to: real): real {
    if side == BuySide || side == LongSide then to - from else from - to
  }

  /** The amendment came at +1R of the original stop or beyond, and improves on every stop known. */
  predicate Protective(a: Amendment) {
    && Gain(a.side, a.original, a.newStop) > 0.0
    && (a.recorded.Some? ==> Gain(a.side, a.recorded.value, a.newStop) > 0.0)
    && Gain(a.side, a.entry, a.mark) >= Gain(a.side, a.original, a.entry)
    && a.newStop == a.entry
  }

  /** Exactly which amendments are protective: all for BUY and SELL, none for LONG, and for SHORT those
      whose original and recorded stops lie above the entry, which the manager does not test. */
  lemma AmendmentProtective(p: Position, row: Row)
    requires Complete(p) && Amends(p, row)
    ensures Protective(RequestOf(p, row)) <==>
      match p.side
      case BuySide => true
      case SellSide => true
      case LongSide => false
      case ShortSide => row.original.value > p.entry.value && (row.current.Some? ==> row.current.value > p.entry.value)
  {
  }

  /** A LONG position is amended after it has lost one R. */
  lemma LongAmendsAtLoss()
    ensures var p := Position("BTCUSDT", LongSide, Some(1.0), Some(100.0), Some(90.0), Some(90.0));
      Amends(p, FreshRow(p)) && Gain(LongSide, p.entry.value, p.mark.value) == -Risk(p.entry.value, p.stop.value)
  {
  }

  /** A SHORT position whose stored stop is already better than break-even loses that stop. */
  lemma ShortMovesBackwards()
    ensures var p := Position("BTCUSDT", ShortSide, Some(1.0), Some(100.0), Some(80.0), Some(90.0));
      Amends(p, FreshRow(p)) && Gain(ShortSide, 90.0, RequestOf(p, FreshRow(p)).newStop) < 0.0
  {
  }

  /** Every amendment that a side can lead to is protective exactly for the two names the manager tests. */
  lemma SafeSides(side: PositionSide)
    ensures side in {BuySide, SellSide} <==>
      forall p: Position, row: Row | p.side == side && Complete(p) && Amends(p, row) :: Protective(RequestOf(p, row))
  {
    if side in {BuySide, SellSide} {
      forall p: Position, row: Row | p.side == side && Complete(p) && Amends(p, row) ensures Protective(RequestOf(p, row)) {
        AmendmentProtective(p, row);
      }
    } else {
      var p := Position("BTCUSDT", side, Some(1.0), Some(100.0), Some(80.0), Some(90.0));
      assert Amends(p, FreshRow(p));
      AmendmentProtective(p, FreshRow(p));
    }
  }

  // ---------------------------------------------------------------- what confirmation proves

  lemma {:induction false} FirstStopMeaning(positions: seq<Position>, symbol: string)
    ensures var found := FirstStop(positions, symbol);
      found.Some? <==> exists i :: 0 <= i < |positions| && positions[i].symbol == symbol && positions[i].stop.Some?
    ensures var found := FirstStop(positions, symbol);
      found.Some? ==> exists i :: 0 <= i < |positions| && positions[i].symbol == symbol && positions[i].stop == found
                                  && forall j :: 0 <= j < i ==> positions[j].symbol != symbol || positions[j].stop.None?
  {
    if positions != [] && !(positions[0].symbol == symbol && positions[0].stop.Some?) {
      var rest := positions[1..];
      FirstStopMeaning(rest, symbol);
      var found := FirstStop(rest, symbol);
      if found.Some? {
        var i :| 0 <= i < |rest| && rest[i].symbol == symbol && rest[i].stop == found
                 && forall j :: 0 <= j < i ==> rest[j].symbol != symbol || rest[j].stop.None?;
        assert positions[i + 1] == rest[i];
        forall j | 0 <= j < i + 1 ensures positions[j].symbol != symbol || positions[j].stop.None? {
          if j > 0 { assert positions[j] == rest[j - 1]; }
        }
      } else {
        forall i | 0 <= i < |positions| ensures !(positions[i].symbol == symbol && positions[i].stop.Some?) {
          if i > 0 { assert positions[i] == rest[i - 1]; }
        }
      }
    }
  }

  /** A stop is confirmed by the first listed position of the symbol that carries one, within 0.1% or 0.01. */
  lemma ConfirmsPlainly(positions: seq<Position>, symbol: string, stop: real)
    ensures Confirms(Some(positions), symbol, stop) <==>
      exists i :: 0 <= i < |positions| && IsFirst(positions, symbol, i)
                  && (1000.0 * Abs(positions[i].stop.value - stop) <= stop || Abs(positions[i].stop.value - stop) <= 0.01)
    ensures !Confirms(None, symbol, stop)
  {
    FirstStopMeaning(positions, symbol);
    if i :| 0 <= i < |positions| && IsFirst(positions, symbol, i) {
      var found := FirstStop(positions, symbol);
      var j :| 0 <= j < |positions| && positions[j].symbol == symbol && positions[j].stop == found
               && forall k :: 0 <= k < j ==> positions[k].symbol != symbol || positions[k].stop.None?;
      assert IsFirst(positions, symbol, j);
    }
  }

  predicate IsFirst(positions: seq<Position>, symbol: string, i: nat)
    requires i < |positions|
  {
    positions[i].symbol == symbol && positions[i].stop.Some? && forall j :: 0 <= j < i ==> positions[j].symbol != symbol || positions[j].stop.None?
  }

  /** A confirmed stop is one that the exchange lists within 0.1% of the entry, or within 0.01. It lies
      nearer to the entry than the original stop whenever the original risk exceeds that tolerance. */
  lemma ConfirmationMovesStop(positions: seq<Position>, symbol: string, entry: real, original: real)
    requires Risk(entry, original) > Tolerance(entry) && Confirms(Some(positions), symbol, entry)
    ensures exists i :: 0 <= i < |positions| && positions[i].symbol == symbol && positions[i].stop.Some?
                        && Abs(positions[i].stop.value - entry) < Abs(original - entry)
  {
    FirstStopMeaning(positions, symbol);
  }

  /** An unmoved stop passes for a moved one exactly when the original risk is within the tolerance. */
  lemma UnmovedStopConfirms(p: Position, original: real)
    requires p.stop == Some(original) && p.entry.Some?
    ensures Confirms(Some([p]), p.symbol, p.entry.value) <==> Risk(p.entry.value, original) <= Tolerance(p.entry.value)
  {
    assert FirstStop([p], p.symbol) == p.stop;
  }

  // ---------------------------------------------------------------- runs

  /** A stored row: both stops recorded, triggered exactly on success, and before success nothing has moved. */
  predicate RowOk(row: Row) {
    && row.original.Some? && row.current.Some?
    && (row.triggered <==> row.status == Success)
    && (row.triggerPrice.Some? <==> row.triggered)
    && (!row.triggered ==> row.current == row.original)
  }

  predicate AllRowsOk(t: Table) {
    forall s :: s in t ==> RowOk(t[s])
  }

  predicate TestedSides(events: seq<Event>) {
    forall i :: 0 <= i < |events| ==> events[i].position.side in {BuySide, SellSide}
  }

  /** How one row may change: the original stop never, and nothing at all once it succeeded. */
  predicate RowFollows(before: Row, after: Row) {
    after.original == before.original && (before.status == Success ==> after == before)
  }

  predicate TableFollows(before: Table, after: Table) {
    forall s :: s in before ==> s in after && RowFollows(before[s], after[s])
  }

  lemma StepKeepsRows(w: World, e: Event)
    requires AllRowsOk(w.table)
    ensures AllRowsOk(Step(w, e).table) && TableFollows(w.table, Step(w, e).table)
  {
    hide Confirms;
  }

  lemma {:induction false} RunKeepsRows(w: World, events: seq<Event>)
    requires AllRowsOk(w.table)
    ensures AllRowsOk(Run(w, events).table) && TableFollows(w.table, Run(w, events).table)
    decreases |events|
  {
    hide Step, RowOk;
    if events != [] {
      RunKeepsRows(w, events[..|events| - 1]);
      StepKeepsRows(Run(w, events[..|events| - 1]), events[|events| - 1]);
    }
  }

  /** Restarts lose nothing: a run is its first part followed by its second. */
  lemma {:induction false} RunInParts(w: World, a: seq<Event>, b: seq<Event>)
    ensures Run(w, a + b) == Run(Run(w, a), b)
    decreases |b|
  {
    hide Step;
    if b == [] {
      assert a + b == a;
    } else {
      assert (a + b)[..|a + b| - 1] == a + b[..|b| - 1];
      RunInParts(w, a, b[..|b| - 1]);
    }
  }

  /** Once a row has succeeded, its symbol is never amended again, nor its row rewritten; this holds for
      any later position of the symbol too, because rows are kept per symbol. */
  lemma {:induction false} SuccessAbsorbs(w: World, events: seq<Event>, symbol: string)
    requires AllRowsOk(w.table) && symbol in w.table && w.table[symbol].status == Success
    ensures var end := Run(w, events);
      && symbol in end.table && end.table[symbol] == w.table[symbol]
      && |end.log| >= |w.log| && end.log[..|w.log|] == w.log
      && forall i :: |w.log| <= i < |end.log| ==> end.log[i].symbol != symbol
    decreases |events|
  {
    if events != [] {
      var held := Run(w, events[..|events| - 1]);
      var e := events[|events| - 1];
      SuccessAbsorbs(w, events[..|events| - 1], symbol);
      SettledIsLeftAlone(held, e, symbol);
    }
  }

  lemma SettledIsLeftAlone(w: World, e: Event, symbol: string)
    requires symbol in w.table && w.table[symbol].status == Success && w.table[symbol].triggered
    ensures var next := Step(w, e);
      && symbol in next.table && next.table[symbol] == w.table[symbol]
      && (next.log == w.log || exists a: Amendment :: next.log == w.log + [a] && a.symbol != symbol)
  {
    hide Confirms;
  }

  /** Over any run on the side names the manager tests, every amendment ever requested is protective,
      repeated failures, interrupted attempts and restarts included. */
  lemma {:induction false} RunIsProtective(events: seq<Event>)
    requires TestedSides(events)
    ensures forall i :: 0 <= i < |Run(World(map[], []), events).log| ==> Protective(Run(World(map[], []), events).log[i])
    decreases |events|
  {
    hide Protective, Amends, AfterAmend;
    if events != [] {
      var held := Run(World(map[], []), events[..|events| - 1]);
      var e := events[|events| - 1];
      RunIsProtective(events[..|events| - 1]);
      var p := e.position;
      if Complete(p) && Amends(p, RowFor(held.table, p)) {
        AmendmentProtective(p, RowFor(held.table, p));
      }
    }
  }

  /** Every amendment starts from the one original stop of its symbol, which the table still holds. */
  predicate OriginsKept(w: World) {
    forall i :: 0 <= i < |w.log| ==> w.log[i].symbol in w.table && w.table[w.log[i].symbol].original == Some(w.log[i].original)
  }

  /** A succeeded row rests at the entry price and trigger price of its last amendment. */
  predicate SuccessRecorded(w: World) {
    forall s :: s in w.table && w.table[s].status == Success ==>
      exists i :: 0 <= i < |w.log| && Last(w.log, s, i)
                  && w.table[s].current == Some(w.log[i].newStop) && w.table[s].triggerPrice == Some(w.log[i].mark)
  }

  predicate Last(log: seq<Amendment>, symbol: string, i: nat)
    requires i < |log|
  {
    log[i].symbol == symbol && forall j :: i < j < |log| ==> log[j].symbol != symbol
  }

  lemma StepKeepsRecords(w: World, e: Event)
    requires AllRowsOk(w.table) && OriginsKept(w) && SuccessRecorded(w)
    ensures OriginsKept(Step(w, e)) && SuccessRecorded(Step(w, e))
  {
    hide Confirms, Risk;
    var next := Step(w, e);
    forall s | s in next.table && next.table[s].status == Success
      ensures exists i :: 0 <= i < |next.log| && Last(next.log, s, i)
                          && next.table[s].current == Some(next.log[i].newStop) && next.table[s].triggerPrice == Some(next.log[i].mark)
    {
      if s in w.table && w.table[s].status == Success {
        var i :| 0 <= i < |w.log| && Last(w.log, s, i)
                 && w.table[s].current == Some(w.log[i].newStop) && w.table[s].triggerPrice == Some(w.log[i].mark);
        SettledIsLeftAlone(w, e, s);
        assert Last(next.log, s, i);
      } else {
        assert Last(next.log, s, |next.log| - 1);
      }
    }
  }

  /** The stored row of a symbol over any run from an empty table: one original stop, and on success the
      break-even stop and trigger price of the last amendment. */
  lemma {:induction false} RunKeepsRecords(events: seq<Event>)
    ensures var end := Run(World(map[], []), events);
      AllRowsOk(end.table) && OriginsKept(end) && SuccessRecorded(end)
    decreases |events|
  {
    hide Step, RowOk, OriginsKept, SuccessRecorded;
    if events == [] {
      assert OriginsKept(World(map[], [])) && SuccessRecorded(World(map[], [])) by { EmptyRecords(); }
    } else {
      RunKeepsRecords(events[..|events| - 1]);
      var held := Run(World(map[], []), events[..|events| - 1]);
      StepKeepsRows(held, events[|events| - 1]);
      StepKeepsRecords(held, events[|events| - 1]);
    }
  }

  lemma EmptyRecords()
    ensures OriginsKept(World(map[], [])) && SuccessRecorded(World(map[], []))
  {
  }

  // ---------------------------------------------------------------- the manager

  class PositionManager {
    var table: Table
    var log: seq<Amendment>   // every set_trading_stop request

    function State(): World
      reads this
    {
      World(table, log)
    }

    constructor (stored: Table)
      ensures table == stored && log == []
    {
      table := stored;
      log := [];
    }

    static method VerifyStop(positions: seq<Position>, symbol: string, newStop: real) returns (verified: bool)
      ensures verified == Confirms(Some(positions), symbol, newStop)
    {
      hide Tolerance;
      verified := false;
      var i := 0;
      while i < |positions|
        invariant 0 <= i <= |positions| && !verified
        invariant FirstStop(positions, symbol) == FirstStop(positions[i..], symbol)
      {
        var other := positions[i];
        assert positions[i..][1..] == positions[i + 1..];
        if other.symbol == symbol && other.stop.Some? {
          var diff := Abs(other.stop.value - newStop);
          if diff <= Tolerance(newStop) {
            verified := true;
          }
          return;
        }
        i := i + 1;
      }
    }

    method ManagePosition(position: Position, reply: Reply)
      modifies this
      ensures State() == Step(old(State()), Manage(position, reply))
    {
      hide Confirms, Tolerance;
      if !Present(position.entry) || !Present(position.mark) || !Present(position.size) || !Present(position.stop) {
        return;
      }
      if position.symbol !in table {
        table := table[position.symbol := Row(false, None, position.stop, position.stop, Monitoring)];
      }
      var row := table[position.symbol];
      assert old(table)[position.symbol := row] == table;
      if row.triggered && row.status == Success {
        return;
      }
      var entry, mark := position.entry.value, position.mark.value;
      if row.original.None? {
        return;
      }
      var original := row.original.value;
      var risk := Abs(entry - original);
      if risk <= 0.0 {
        return;
      }
      var reached := if position.side == BuySide then mark >= entry + risk else mark <= entry - risk;
      if !reached {
        return;
      }
      var newStop := entry;
      if position.side == BuySide && original >= newStop {
        return;
      }
      if position.side == SellSide && original <= newStop {
        return;
      }
      if row.current.Some? {
        if position.side == BuySide && row.current.value >= newStop {
          return;
        }
        if position.side == SellSide && row.current.value <= newStop {
          return;
        }
      }
      log := log + [Amendment(position.symbol, position.side, entry, mark, original, row.current, newStop)];
      match reply {
        case Died =>
        case Rejected =>
          table := table[position.symbol := row.(status := Failed)];
        case Accepted(positions) =>
          var verified := false;
          if positions.Some? {
            verified := VerifyStop(positions.value, position.symbol, newStop);
          }
          assert verified == Confirms(positions, position.symbol, newStop) by { NothingConfirms(position.symbol, newStop); }
          if verified {
            table := table[position.symbol := row.(triggered := true, triggerPrice := Some(mark),
                                                   current := Some(newStop), status := Success)];
          } else {
            table := table[position.symbol := row.(status := VerificationFailed)];
          }
      }
    }

    /** One pass over the open positions, which ends early only with the process. */
    method ManageOpenPositions(positions: seq<Position>, replies: seq<Reply>) returns (handled: nat)
      requires |replies| == |positions|
      modifies this
      ensures handled <= |positions|
      ensures State() == Run(old(State()), Passes(positions, replies)[..handled])
      ensures handled < |positions| ==> handled > 0 && replies[handled - 1] == Died
    {
      hide Step;
      handled := 0;
      ghost var events := Passes(positions, replies);
      while handled < |positions|
        invariant handled <= |positions| && State() == Run(old(State()), events[..handled])
      {
        assert events[..handled + 1][..handled] == events[..handled];
        ManagePosition(positions[handled], replies[handled]);
        handled := handled + 1;
        if replies[handled - 1] == Died {
          return;
        }
      }
    }
  }

  function Passes(positions: seq<Position>, replies: seq<Reply>): seq<Event>
    requires |replies| == |positions|
  {
    seq(|positions|, i requires 0 <= i < |positions| => Manage(positions[i], replies[i]))
  }

  lemma NothingConfirms(symbol: string, stop: real)
    ensures !Confirms(None, symbol, stop)
  {
  }
}
