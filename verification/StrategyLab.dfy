/** The Strategy Lab table and its repository: rows rewritten in place, replayed on every access. */
module StrategyLab {
  import opened Prelude
  import opened Arithmetic
  import opened PaperLedger
  import opened PaperWrites

  type Table = map<string, Row>

  function FundOf(t: Table, order: seq<string>): (fund: Fund)
    requires forall i :: 0 <= i < |order| ==> order[i] in t
    ensures |fund| == |order|
  {
    seq(|order|, i requires 0 <= i < |order| => t[order[i]])
  }

  /** ORDER BY signal_time over the rows of one strategy; ties in any order. */
  ghost predicate InTimeOrder(t: Table, strategy: string, order: seq<string>) {
    && (forall i :: 0 <= i < |order| ==> order[i] in t && t[order[i]].strategy == strategy)
    && (forall id :: id in t && t[id].strategy == strategy ==> id in order)
    && (forall i, j :: 0 <= i < j < |order| ==> order[i] != order[j] && t[order[i]].time <= t[order[j]].time)
  }

  // ---------------------------------------------------------------- what the backfills do

  /** A row without both levels gets the benchmark's. */
  function Levelled(row: Row): Row {
    if (row.stop.None? || row.target.None?) && row.entry > 0.0 then
      row.(stop := Some(StopLevel(row.side, row.entry)), target := Some(TargetLevel(row.side, row.entry)))
    else row
  }

  function WithLevels(t: Table): Table {
    map id | id in t :: Levelled(t[id])
  }

  /** One strategy's rows were rewritten by a replay in time order. */
  ghost predicate ReplayedFor(before: Table, after: Table, strategy: string) {
    before.Keys == after.Keys
    && exists order :: InTimeOrder(before, strategy, order) && FundOf(after, order) == Replayed(FundOf(before, order))
  }

  /** Levels filled in, then every strategy replayed. */
  ghost predicate Initialized(before: Table, after: Table) {
    before.Keys == after.Keys && forall strategy :: ReplayedFor(WithLevels(before), after, strategy)
  }

  /** A row of the present lifecycle, or an older open row still missing its levels. */
  ghost predicate Sound(row: Row) {
    Tame(row) || (row.status == Open && row.entry > 0.0 && (row.stop.None? || row.target.None?))
  }

  ghost predicate AllSound(t: Table) {
    forall id :: id in t ==> Sound(t[id])
  }

  ghost predicate AllTame(t: Table) {
    forall id :: id in t ==> Tame(t[id])
  }

  /** Exactly the rows that lack a level and have a positive entry get both, 1% against it and 2% in its favour. */
  lemma LevelledPlainly(row: Row)
    ensures (row.stop.None? || row.target.None?) && row.entry > 0.0 ==>
      Levelled(row) == row.(stop := Some(PlainStop(row.side, row.entry)), target := Some(PlainTarget(row.side, row.entry)))
    ensures !((row.stop.None? || row.target.None?) && row.entry > 0.0) ==> Levelled(row) == row
  {
  }

  lemma LevelsMakeTame(t: Table)
    requires AllSound(t)
    ensures AllTame(WithLevels(t))
  {
    hide StopLevel, TargetLevel;
  }

  lemma ReplayKeepsTame(row: Row, balance: real)
    requires Tame(row)
    ensures Tame(ReplayRow(row, balance))
  {
    hide StopLevel, TargetLevel, SizeFor, ReplayedPnl, NextBalance;
  }

  lemma ReplayKeepsIdentity(row: Row, balance: real)
    ensures ReplayRow(row, balance).strategy == row.strategy && ReplayRow(row, balance).time == row.time
    ensures ReplayRow(row, balance).status == row.status
  {
  }

  lemma InitializedIsTame(before: Table, after: Table)
    requires AllSound(before) && Initialized(before, after)
    ensures AllTame(after)
  {
    hide Tame, ReplayRow, Levelled;
    LevelsMakeTame(before);
    var levelled := WithLevels(before);
    forall id | id in after ensures Tame(after[id]) {
      var strategy := levelled[id].strategy;
      assert ReplayedFor(levelled, after, strategy);
      var order :| InTimeOrder(levelled, strategy, order) && FundOf(after, order) == Replayed(FundOf(levelled, order));
      var i :| 0 <= i < |order| && order[i] == id;
      ReplayedAt(FundOf(levelled, order), i);
      assert FundOf(after, order)[i] == after[id] && FundOf(levelled, order)[i] == levelled[id];
      ReplayKeepsTame(levelled[id], BalanceAfter(FundOf(levelled, order)[..i]));
    }
  }

  /** The fund of a strategy in a table of tame rows stands at the closed form of its counts. */
  lemma TableClosedForm(t: Table, strategy: string, order: seq<string>)
    requires AllTame(t) && InTimeOrder(t, strategy, order)
    ensures var fund := FundOf(t, order);
      BalanceAfter(fund) == ClosedForm(Count(fund, TpHit), Count(fund, SlHit)) > 0.0
  {
    hide Tame, ClosedForm, BalanceAfter;
    var fund := FundOf(t, order);
    forall i | 0 <= i < |fund| ensures Tame(fund[i]) {
      assert fund[i] == t[order[i]];
    }
    BalanceClosedForm(fund);
  }

  // ---------------------------------------------------------------- the other closed rows of a fund

  /** Sum of the profits stored on the closed rows other than `id`. */
  function OtherPnl(t: Table, order: seq<string>, id: string): real
    requires forall i :: 0 <= i < |order| ==> order[i] in t
    decreases |order|
  {
    if order == [] then 0.0
    else
      var last := order[|order| - 1];
      OtherPnl(t, order[..|order| - 1], id) + if last != id then StoredPnl(t[last]) else 0.0
  }

  lemma FundOfPrefix(t: Table, order: seq<string>, n: nat)
    requires n <= |order| && forall i :: 0 <= i < |order| ==> order[i] in t
    ensures FundOf(t, order)[..n] == FundOf(t, order[..n])
  {
  }

  // ---------------------------------------------------------------- ordering

  lemma {:induction false} EarliestExists(t: Table, ids: set<string>)
    requires ids != {} && ids <= t.Keys
    ensures exists id :: id in ids && forall other :: other in ids ==> t[id].time <= t[other].time
  {
    var x := Pick(ids);
    var rest := ids - {x};
    assert forall other :: other in ids ==> other == x || other in rest;
    var earliest := x;
    if rest != {} {
      EarliestExists(t, rest);
      var y :| y in rest && forall other :: other in rest ==> t[y].time <= t[other].time;
      earliest := if t[x].time <= t[y].time then x else y;
    }
    assert earliest in ids && forall other :: other in ids ==> t[earliest].time <= t[other].time;
  }

  /** A selection in progress: `order` is final, and nothing in `rest` is earlier than anything in it. */
  ghost predicate Ordering(t: Table, strategy: string, order: seq<string>, rest: set<string>) {
    && (forall id :: id in rest ==> id in t && t[id].strategy == strategy)
    && (forall i :: 0 <= i < |order| ==> order[i] in t && t[order[i]].strategy == strategy)
    && (forall id :: id in t && t[id].strategy == strategy ==> id in rest || id in order)
    && (forall i, j :: 0 <= i < j < |order| ==> order[i] != order[j] && t[order[i]].time <= t[order[j]].time)
    && (forall i, id :: 0 <= i < |order| && id in rest ==> order[i] != id && t[order[i]].time <= t[id].time)
  }

  lemma OrderingStarts(t: Table, strategy: string, rest: set<string>)
    requires rest == set id | id in t && t[id].strategy == strategy
    ensures Ordering(t, strategy, [], rest)
  {
  }

  lemma OrderingStep(t: Table, strategy: string, order: seq<string>, rest: set<string>, id: string)
    requires Ordering(t, strategy, order, rest) && id in rest
    requires forall other :: other in rest ==> other in t && t[id].time <= t[other].time
    ensures Ordering(t, strategy, order + [id], rest - {id})
  {
    var longer := order + [id];
    forall other | other in t && t[other].strategy == strategy ensures other in rest - {id} || other in longer {
      if other == id { assert longer[|order|] == id; }
      else if other !in rest { assert other in order; }
    }
  }

  lemma OrderingEnds(t: Table, strategy: string, order: seq<string>)
    requires Ordering(t, strategy, order, {})
    ensures InTimeOrder(t, strategy, order)
  {
  }

  /** The first i rows in order were rewritten by the replay, all others are as before. */
  ghost predicate Rewriting(before: Table, now: Table, order: seq<string>, i: nat)
    requires i <= |order| && forall k :: 0 <= k < |order| ==> order[k] in before
  {
    && now.Keys == before.Keys
    && (forall j {:trigger order[j]} :: 0 <= j < i ==>
          now[order[j]] == ReplayRow(before[order[j]], BalanceAfter(FundOf(before, order)[..j])))
    && (forall id {:trigger now[id]} :: id in now && id !in order[..i] ==> now[id] == before[id])
  }

  lemma RewritingStep(before: Table, now: Table, order: seq<string>, i: nat, row: Row)
    requires i < |order| && (forall k :: 0 <= k < |order| ==> order[k] in before) && Rewriting(before, now, order, i)
    requires forall j, k :: 0 <= j < k < |order| ==> order[j] != order[k]
    requires row == ReplayRow(before[order[i]], BalanceAfter(FundOf(before, order)[..i]))
    ensures now[order[i]] == before[order[i]]
    ensures Rewriting(before, now[order[i] := row], order, i + 1)
  {
    hide ReplayRow, BalanceAfter;
    assert order[i] !in order[..i];
    assert order[..i + 1] == order[..i] + [order[i]];
  }

  lemma RewritingEnds(before: Table, now: Table, order: seq<string>)
    requires (forall k :: 0 <= k < |order| ==> order[k] in before) && Rewriting(before, now, order, |order|)
    ensures FundOf(now, order) == Replayed(FundOf(before, order))
    ensures forall id :: id in now && id !in order ==> now[id] == before[id]
  {
    hide ReplayRow, BalanceAfter;
    var fund := FundOf(before, order);
    forall j | 0 <= j < |order| ensures FundOf(now, order)[j] == Replayed(fund)[j] {
      ReplayedAt(fund, j);
      assert now[order[j]] == ReplayRow(before[order[j]], BalanceAfter(fund[..j]));
    }
    assert order[..|order|] == order;
  }

  /** Replays so far: rows of the strategies still to do are untouched, the others are replayed. */
  ghost predicate ReplaysDone(before: Table, now: Table, todo: set<string>) {
    && before.Keys == now.Keys
    && (forall id :: id in before ==> now[id].strategy == before[id].strategy)
    && (forall id :: id in before && before[id].strategy in todo ==> now[id] == before[id])
  }

  /** A replay moves no row to another strategy. */
  lemma ReplayKeepsStrategies(held: Table, now: Table, order: seq<string>)
    requires now.Keys == held.Keys && forall k :: 0 <= k < |order| ==> order[k] in held
    requires FundOf(now, order) == Replayed(FundOf(held, order))
    requires forall id :: id in now && id !in order ==> now[id] == held[id]
    ensures forall id :: id in now ==> now[id].strategy == held[id].strategy
  {
    hide ReplayRow, BalanceAfter, Replayed;
    forall id | id in now ensures now[id].strategy == held[id].strategy {
      if id in order {
        var i :| 0 <= i < |order| && order[i] == id;
        ReplayedAt(FundOf(held, order), i);
        assert FundOf(now, order)[i] == now[id] && FundOf(held, order)[i] == held[id];
        ReplayKeepsIdentity(held[id], BalanceAfter(FundOf(held, order)[..i]));
      }
    }
  }

  lemma ReplayedRows(before: Table, held: Table, now: Table, todo: set<string>, strategy: string, order: seq<string>)
    requires ReplaysDone(before, held, todo) && strategy in todo
    requires now.Keys == held.Keys && InTimeOrder(held, strategy, order)
    requires FundOf(now, order) == Replayed(FundOf(held, order))
    requires forall id :: id in now && id !in order ==> now[id] == held[id]
    ensures ReplaysDone(before, now, todo - {strategy}) && ReplayedFor(before, now, strategy)
    ensures forall id :: id in now && before[id].strategy != strategy ==> now[id] == held[id]
  {
    hide ReplayRow, BalanceAfter, Replayed;
    ReplayKeepsStrategies(held, now, order);
    assert InTimeOrder(before, strategy, order);
    assert FundOf(before, order) == FundOf(held, order);
  }

  lemma ReplayedForStays(before: Table, held: Table, now: Table, strategy: string)
    requires ReplayedFor(before, held, strategy) && now.Keys == held.Keys
    requires forall id :: id in now && before[id].strategy == strategy ==> now[id] == held[id]
    ensures ReplayedFor(before, now, strategy)
  {
    hide Replayed;
    var order :| InTimeOrder(before, strategy, order) && FundOf(held, order) == Replayed(FundOf(before, order));
    assert FundOf(now, order) == FundOf(held, order);
  }

  lemma AbsentStrategyReplayed(before: Table, now: Table, strategy: string)
    requires before.Keys == now.Keys && forall id :: id in before ==> before[id].strategy != strategy
    ensures ReplayedFor(before, now, strategy)
  {
    assert InTimeOrder(before, strategy, []);
    assert FundOf(now, []) == [] == Replayed(FundOf(before, []));
  }

  datatype Report = Report(total: nat, open: nat, closed: nat, wins: nat, losses: nat, realized: real, openPnl: real,
                           equity: real, netPct: real, averageR: Option<real>)

  function OpenPnl(fund: Fund): real
    decreases |fund|
  {
    if fund == [] then 0.0
    else
      var last := fund[|fund| - 1];
      OpenPnl(fund[..|fund| - 1]) + if last.status == Open && last.pnl.Some? then last.pnl.value else 0.0
  }

  /** Sum of the marked percentages of the closed rows. */
  function ClosedPct(fund: Fund): real
    decreases |fund|
  {
    if fund == [] then 0.0
    else
      var last := fund[|fund| - 1];
      ClosedPct(fund[..|fund| - 1]) + if last.status != Open && last.pnlPct.Some? then last.pnlPct.value else 0.0
  }

  /** In a tame fund the percentages count two per win and minus one per loss. */
  lemma {:induction false} TamePct(fund: Fund)
    requires forall i :: 0 <= i < |fund| ==> Tame(fund[i])
    ensures ClosedPct(fund) == 2.0 * Count(fund, TpHit) as real - Count(fund, SlHit) as real
    decreases |fund|
  {
    hide StopLevel, TargetLevel;
    if fund != [] {
      TamePct(fund[..|fund| - 1]);
      assert Tame(fund[|fund| - 1]);
    }
  }

  function ReportOf(fund: Fund): Report {
    var closed := |fund| - Count(fund, Open);
    var realized, open := ClosedPnl(fund), OpenPnl(fund);
    Report(|fund|, Count(fund, Open), if closed >= 0 then closed else 0, Count(fund, TpHit), Count(fund, SlHit), realized, open,
           START_BALANCE + realized + open, ClosedPct(fund),
           if closed > 0 then Some(ClosedPct(fund) / closed as real / (STOP_RATE * 100.0)) else None)
  }

  // ---------------------------------------------------------------- sums do not depend on the order of rows

  function SumOver(order: seq<string>, f: string -> real): real
    decreases |order|
  {
    if order == [] then 0.0 else SumOver(order[..|order| - 1], f) + f(order[|order| - 1])
  }

  lemma {:induction false} SumWithout(order: seq<string>, k: nat, f: string -> real)
    requires k < |order|
    ensures SumOver(order, f) == SumOver(order[..k] + order[k + 1..], f) + f(order[k])
    decreases |order|
  {
    var init, last := order[..|order| - 1], order[|order| - 1];
    if k == |order| - 1 {
      assert order[..k] + order[k + 1..] == init;
    } else {
      SumWithout(init, k, f);
      var rest := order[..k] + order[k + 1..];
      assert rest[..|rest| - 1] == init[..k] + init[k + 1..] && rest[|rest| - 1] == last;
    }
  }

  ghost predicate Distinct(order: seq<string>) {
    forall i, j :: 0 <= i < j < |order| ==> order[i] != order[j]
  }

  lemma {:induction false} SumPermuted(a: seq<string>, b: seq<string>, f: string -> real)
    requires Distinct(a) && Distinct(b) && forall id :: id in a <==> id in b
    ensures SumOver(a, f) == SumOver(b, f)
    decreases |a|
  {
    if b != [] {
      assert b[0] in a;
    }
    if a != [] {
      var last := a[|a| - 1];
      assert last in b;
      var k :| 0 <= k < |b| && b[k] == last;
      var init, rest := a[..|a| - 1], b[..k] + b[k + 1..];
      SumWithout(b, k, f);
      forall id ensures id in init <==> id in rest {
        SameMembers(a, b, k, id);
      }
      SumPermuted(init, rest, f);
    }
  }

  /** Dropping the same element from both lists leaves the same members. */
  lemma SameMembers(a: seq<string>, b: seq<string>, k: nat, id: string)
    requires a != [] && k < |b| && b[k] == a[|a| - 1] && Distinct(a) && Distinct(b)
    requires id in a <==> id in b
    ensures id in a[..|a| - 1] <==> id in b[..k] + b[k + 1..]
  {
    var last := a[|a| - 1];
    assert a == a[..|a| - 1] + [last];
    assert b == b[..k] + [last] + b[k + 1..];
    assert last !in a[..|a| - 1];
    assert last !in b[..k] + b[k + 1..];
  }

  function PnlOf(t: Table): string -> real {
    id => if id in t then StoredPnl(t[id]) else 0.0
  }

  function HasStatus(t: Table, status: Status): string -> real {
    id => if id in t && t[id].status == status then 1.0 else 0.0
  }

  function OpenPnlOf(t: Table): string -> real {
    id => if id in t && t[id].status == Open && t[id].pnl.Some? then t[id].pnl.value else 0.0
  }

  function PctOf(t: Table): string -> real {
    id => if id in t && t[id].status != Open && t[id].pnlPct.Some? then t[id].pnlPct.value else 0.0
  }

  function OtherPnlOf(t: Table, id: string): string -> real {
    other => if other in t && other != id then StoredPnl(t[other]) else 0.0
  }

  function Unit(): string -> real {
    id => 1.0
  }

  lemma {:induction false} FundSums(t: Table, order: seq<string>, status: Status, id: string)
    requires forall i :: 0 <= i < |order| ==> order[i] in t
    ensures ClosedPnl(FundOf(t, order)) == SumOver(order, PnlOf(t))
    ensures Count(FundOf(t, order), status) as real == SumOver(order, HasStatus(t, status))
    ensures OtherPnl(t, order, id) == SumOver(order, OtherPnlOf(t, id))
    decreases |order|
  {
    if order != [] {
      FundOfPrefix(t, order, |order| - 1);
      FundSums(t, order[..|order| - 1], status, id);
    }
  }

  lemma {:induction false} ReportSums(t: Table, order: seq<string>)
    requires forall i :: 0 <= i < |order| ==> order[i] in t
    ensures OpenPnl(FundOf(t, order)) == SumOver(order, OpenPnlOf(t))
    ensures ClosedPct(FundOf(t, order)) == SumOver(order, PctOf(t))
    ensures |order| as real == SumOver(order, Unit())
    decreases |order|
  {
    if order != [] {
      FundOfPrefix(t, order, |order| - 1);
      ReportSums(t, order[..|order| - 1]);
    }
  }

  /** Time orders of one strategy list the same rows. */
  lemma SameRows(t: Table, strategy: string, a: seq<string>, b: seq<string>)
    requires InTimeOrder(t, strategy, a) && InTimeOrder(t, strategy, b)
    ensures Distinct(a) && Distinct(b) && forall id :: id in a <==> id in b
  {
  }

  /** Two time orders of one strategy differ only in ties, so they agree on sums and counts. */
  lemma OrdersAgree(t: Table, strategy: string, a: seq<string>, b: seq<string>, status: Status)
    requires InTimeOrder(t, strategy, a) && InTimeOrder(t, strategy, b)
    ensures ClosedPnl(FundOf(t, a)) == ClosedPnl(FundOf(t, b))
    ensures Count(FundOf(t, a), status) == Count(FundOf(t, b), status)
    ensures forall id :: OtherPnl(t, a, id) == OtherPnl(t, b, id)
  {
    hide SumOver, FundOf, ClosedPnl, Count, Distinct, OtherPnl;
    SameRows(t, strategy, a, b);
    SumPermuted(a, b, PnlOf(t));
    SumPermuted(a, b, HasStatus(t, status));
    forall id ensures OtherPnl(t, a, id) == OtherPnl(t, b, id) {
      FundSums(t, a, status, id);
      FundSums(t, b, status, id);
      SumPermuted(a, b, OtherPnlOf(t, id));
    }
    FundSums(t, a, status, "");
    FundSums(t, b, status, "");
  }

  /** And on the report. */
  lemma ReportsAgree(t: Table, strategy: string, a: seq<string>, b: seq<string>)
    requires InTimeOrder(t, strategy, a) && InTimeOrder(t, strategy, b)
    ensures ReportOf(FundOf(t, a)) == ReportOf(FundOf(t, b))
  {
    hide SumOver, FundOf, ClosedPnl, OpenPnl, ClosedPct, Count, Distinct, OtherPnl, InTimeOrder;
    SameRows(t, strategy, a, b);
    OrderedRowsExist(t, strategy, a);
    OrderedRowsExist(t, strategy, b);
    SumPermuted(a, b, OpenPnlOf(t));
    SumPermuted(a, b, PctOf(t));
    SumPermuted(a, b, Unit());
    ReportSums(t, a);
    ReportSums(t, b);
    OrdersAgree(t, strategy, a, b, Open);
    OrdersAgree(t, strategy, a, b, TpHit);
    OrdersAgree(t, strategy, a, b, SlHit);
  }

  // ---------------------------------------------------------------- the fund of a strategy

  lemma {:induction false} OrderingCompletes(t: Table, strategy: string, order: seq<string>, rest: set<string>)
    requires Ordering(t, strategy, order, rest) && rest <= t.Keys
    ensures exists whole :: InTimeOrder(t, strategy, whole)
    decreases |rest|
  {
    hide Ordering, InTimeOrder;
    if rest == {} {
      OrderingEnds(t, strategy, order);
    } else {
      EarliestExists(t, rest);
      var id :| id in rest && forall other :: other in rest ==> t[id].time <= t[other].time;
      OrderingStep(t, strategy, order, rest, id);
      OrderingCompletes(t, strategy, order + [id], rest - {id});
    }
  }

  /** A time order of the strategy's rows; ties leave a choice. */
  ghost function TimeOrder(t: Table, strategy: string): (order: seq<string>)
    ensures InTimeOrder(t, strategy, order)
  {
    OrderingStarts(t, strategy, set id | id in t && t[id].strategy == strategy);
    OrderingCompletes(t, strategy, [], set id | id in t && t[id].strategy == strategy);
    var order :| InTimeOrder(t, strategy, order);
    order
  }

  ghost function FundIn(t: Table, strategy: string): Fund {
    FundOf(t, TimeOrder(t, strategy))
  }

  /** The profit stored on the other closed rows of a row's fund. */
  ghost function Others(t: Table, id: string): real
    requires id in t
  {
    OtherPnl(t, TimeOrder(t, t[id].strategy), id)
  }

  /** The table after a signal was saved: one new open row, sized on the realized balance of its fund. */
  ghost function Saved(t: Table, s: Signal): Table {
    if s.id in t || s.entry == 0.0 then t else t[s.id := NewRow(s, RealizedBalance(FundIn(t, s.strategy)))]
  }

  class StrategyLabRepository {
    var rows: Table

    constructor ()
      ensures rows == map[]
    {
      rows := map[];
    }

    method OrderByTime(strategy: string) returns (order: seq<string>)
      ensures InTimeOrder(rows, strategy, order)
    {
      hide Ordering, InTimeOrder;
      order := [];
      var rest := set id | id in rows && rows[id].strategy == strategy;
      assert Ordering(rows, strategy, [], rest) by { OrderingStarts(rows, strategy, rest); }
      while rest != {}
        invariant rest <= rows.Keys && Ordering(rows, strategy, order, rest)
        decreases |rest|
      {
        EarliestExists(rows, rest);
        var id :| id in rest && forall other :: other in rest ==> rows[id].time <= rows[other].time;
        OrderingStep(rows, strategy, order, rest, id);
        order := order + [id];
        rest := rest - {id};
      }
      OrderingEnds(rows, strategy, order);
    }

    method BackfillLevels()
      modifies this
      ensures rows == WithLevels(old(rows))
    {
      hide StopLevel, TargetLevel;
      var todo := set id | id in rows && (rows[id].stop.None? || rows[id].target.None?);
      while todo != {}
        invariant todo <= rows.Keys == old(rows).Keys
        invariant forall id :: id in todo ==> old(rows)[id].stop.None? || old(rows)[id].target.None?
        invariant forall id {:trigger rows[id]} :: id in rows && id in todo ==> rows[id] == old(rows)[id]
        invariant forall id {:trigger rows[id]} :: id in rows && id !in todo ==> rows[id] == Levelled(old(rows)[id])
        decreases |todo|
      {
        var id :| id in todo;
        var row := rows[id];
        todo := todo - {id};
        if row.entry > 0.0 {
          rows := rows[id := row.(stop := Some(StopLevel(row.side, row.entry)),
                                  target := Some(TargetLevel(row.side, row.entry)))];
        }
      }
    }

    /** The replay's body: one row at the running balance. */
    static method RewriteRow(row: Row, before: real) returns (rewritten: Row, balance: real)
      ensures rewritten == ReplayRow(row, before) && balance == NextBalance(row, before)
    {
      hide PositionSize, Profit, RiskOf;
      balance := before;
      if row.entry <= 0.0 || row.stop.None? {
        return row, balance;
      }
      var riskAmount := RiskOf(balance);
      var positionSize := PositionSize(row.entry, row.stop.value, riskAmount);
      var pnl: Option<real> := None;
      var rMultiple: Option<real> := None;
      var balanceAfter: Option<real> := None;
      if row.pnlPct.Some? {
        pnl := Some(Profit(positionSize, row.entry, row.pnlPct.value));
        rMultiple := if riskAmount > 0.0 then Some(pnl.value / riskAmount) else None;
        if row.status != Open {
          balance := balance + pnl.value;
          balanceAfter := Some(balance);
        }
      }
      rewritten := row.(riskAmount := Some(riskAmount), positionSize := Some(positionSize), pnl := pnl,
                        rMultiple := rMultiple, balanceAfter := balanceAfter,
                        exitPrice := row.exitPrice.Or(if row.status != Open then row.currentPrice else None));
    }

    method BackfillStrategy(strategy: string) returns (order: seq<string>)
      modifies this
      ensures rows.Keys == old(rows).Keys && InTimeOrder(old(rows), strategy, order)
      ensures FundOf(rows, order) == Replayed(FundOf(old(rows), order))
      ensures forall id :: id in rows && id !in order ==> rows[id] == old(rows)[id]
    {
      hide ReplayRow, NextBalance, Rewriting, FundOf;
      order := OrderByTime(strategy);
      ghost var fund := FundOf(rows, order);
      var balance := START_BALANCE;
      assert fund[..0] == [];
      assert Rewriting(rows, rows, order, 0) by { RewritingStarts(rows, order); }
      for i := 0 to |order|
        invariant rows.Keys == old(rows).Keys
        invariant balance == BalanceAfter(fund[..i])
        invariant Rewriting(old(rows), rows, order, i)
      {
        assert fund[..i + 1][..i] == fund[..i];
        ghost var expected := ReplayRow(fund[i], balance);
        FundAt(old(rows), order, i);
        RewritingStep(old(rows), rows, order, i, expected);
        var row, next := RewriteRow(rows[order[i]], balance);
        rows := rows[order[i] := row];
        balance := next;
      }
      RewritingEnds(old(rows), rows, order);
    }

    method BackfillMoney()
      modifies this
      ensures rows.Keys == old(rows).Keys
      ensures forall strategy :: ReplayedFor(old(rows), rows, strategy)
    {
      hide Replayed, FundOf, ReplayedFor, InTimeOrder;
      ghost var before := rows;
      var strategies := set id | id in rows :: rows[id].strategy;
      ghost var all := strategies;
      while strategies != {}
        invariant strategies <= all && ReplaysDone(before, rows, strategies)
        invariant forall s :: s in all && s !in strategies ==> ReplayedFor(before, rows, s)
        decreases |strategies|
      {
        var strategy :| strategy in strategies;
        ghost var held := rows;
        var order := BackfillStrategy(strategy);
        ReplayedRows(before, held, rows, strategies, strategy, order);
        forall s | s in all && s !in strategies ensures ReplayedFor(before, rows, s) {
          ReplayedForStays(before, held, rows, s);
        }
        strategies := strategies - {strategy};
      }
      forall s ensures ReplayedFor(before, rows, s) {
        if s !in all {
          AbsentStrategyReplayed(before, rows, s);
        }
      }
    }

    /** Runs before every save and every listing. */
    method Initialize()
      modifies this
      ensures Initialized(old(rows), rows)
    {
      hide ReplayedFor;
      BackfillLevels();
      BackfillMoney();
    }

    /** The realized balance of a strategy's fund; any row order gives the same sum. */
    method StrategyRealizedBalance(strategy: string) returns (balance: real)
      ensures balance == RealizedBalance(FundIn(rows, strategy))
    {
      hide TimeOrder;
      var ids := OrderByTime(strategy);
      var realized := 0.0;
      ghost var fund := FundOf(rows, ids);
      for i := 0 to |ids|
        invariant realized == ClosedPnl(fund[..i])
      {
        assert fund[..i + 1][..i] == fund[..i] && fund[i] == rows[ids[i]];
        var row := rows[ids[i]];
        if row.status != Open && row.pnl.Some? {
          realized := realized + row.pnl.value;
        }
      }
      assert fund[..|ids|] == fund;
      OrdersAgree(rows, strategy, ids, TimeOrder(rows, strategy), Open);
      balance := START_BALANCE + realized;
    }

    /** Stores a new signal as an open trade of its strategy's fund, once; on any table, and a table of the
        present lifecycle stays one. */
    method SaveSignal(s: Signal) returns (created: bool, ghost held: Table)
      modifies this
      ensures Initialized(old(rows), held) && rows == Saved(held, s)
      ensures created <==> s.id !in held && s.entry != 0.0
      ensures created ==> SavedPlainly(s, RealizedBalance(FundIn(held, s.strategy)), rows[s.id])
      ensures AllSound(old(rows)) ==> AllTame(held) && AllTame(rows)
    {
      hide Initialized, StopLevel, TargetLevel, PositionSize, RealizedBalance, FundIn, AllSound, SavedPlainly;
      Initialize();
      held := rows;
      if AllSound(old(rows)) {
        InitializedIsTame(old(rows), held);
      }
      if s.id in rows {
        return false, held;
      }
      var balance := StrategyRealizedBalance(s.strategy);
      var riskAmount := RiskOf(balance);
      var stop := StopLevel(s.side, s.entry);
      StopDistanceZero(s.side, s.entry);
      if Abs(s.entry - stop) <= 0.0 {
        return false, held;
      }
      var row := Row(s.strategy, s.symbol, s.side, s.time, s.entry, Some(stop), Some(TargetLevel(s.side, s.entry)), Open,
                     None, None, Some(riskAmount), Some(PositionSize(s.entry, stop, riskAmount)), None, None, None, None);
      NewRowIsTame(s, balance);
      NewRowPlainly(s, balance);
      rows := rows[s.id := row];
      return true, held;
    }

    /** The profit realized by the other rows of a row's fund. */
    method OtherRealized(id: string) returns (prior: real)
      requires id in rows
      ensures prior == Others(rows, id)
    {
      hide InTimeOrder, TimeOrder;
      var strategy := rows[id].strategy;
      var ids := OrderByTime(strategy);
      OrderedRowsExist(rows, strategy, ids);
      prior := 0.0;
      for i := 0 to |ids|
        invariant prior == OtherPnl(rows, ids[..i], id)
      {
        assert ids[..i + 1][..i] == ids[..i];
        var other := rows[ids[i]];
        if other.status != Open && ids[i] != id && other.pnl.Some? {
          prior := prior + other.pnl.value;
        }
      }
      assert ids[..|ids|] == ids;
      OrdersAgree(rows, strategy, ids, TimeOrder(rows, strategy), Open);
    }

    /** Writes one mark. */
    method UpdateMark(id: string, price: real, pct: real, status: Status)
      modifies this
      ensures id !in old(rows) ==> rows == old(rows)
      ensures id in old(rows) ==>
        rows == old(rows)[id := MarkedRow(old(rows)[id], Others(old(rows), id), price, pct, status)]
    {
      hide Others, MarkPnl;
      if id !in rows {
        return;
      }
      var row := rows[id];
      var riskAmount := ValueOr(row.riskAmount, 0.0);
      var pnl := MarkPnl(row, price);
      var rMultiple := if riskAmount > 0.0 then Some(pnl / riskAmount) else None;
      var balanceAfter: Option<real> := None;
      var exitPrice: Option<real> := None;
      if status != Open {
        exitPrice := Some(price);
        var prior := OtherRealized(id);
        balanceAfter := Some(START_BALANCE + prior + pnl);
      }
      rows := rows[id := row.(currentPrice := Some(price), pnlPct := Some(pct), pnl := Some(pnl), rMultiple := rMultiple,
                              status := status, exitPrice := exitPrice.Or(row.exitPrice),
                              balanceAfter := balanceAfter.Or(row.balanceAfter))];
    }

    /** What a market price makes of an open trade: beyond a level it closes at that level. */
    static method PriceOut(row: Row, marketPrice: real) returns (status: Status, price: real, pct: real)
      requires row.entry > 0.0
      ensures (status, price, pct) == Mark(row, marketPrice)
    {
      hide PnlPct;
      status, price := Open, marketPrice;
      pct := PnlPct(row.side, row.entry, price);
      var slHit := row.stop.Some? && (if row.side == Buy then price <= row.stop.value else price >= row.stop.value);
      var tpHit := row.target.Some? && (if row.side == Buy then price >= row.target.value else price <= row.target.value);
      if slHit {
        status, price := SlHit, row.stop.value;
        pct := PnlPct(row.side, row.entry, price);
      } else if tpHit {
        status, price := TpHit, row.target.value;
        pct := PnlPct(row.side, row.entry, price);
      }
    }

    /** Marks the newest of the trades still to do. */
    method MarkLatest(ghost held: Table, prices: map<string, real>, ghost visited: seq<string>, todo: set<string>)
      returns (id: string)
      requires todo != {} && Marking(held, rows, prices, visited, todo)
      modifies this
      ensures id in todo && Marking(held, rows, prices, visited + [id], todo - {id})
    {
      hide MarkedAt, MarkedInTurn, NewestFirst, Visits, MarkedRow, Mark, Others, Ahead;
      LatestExists(rows, todo);
      id :| id in todo && forall other :: other in todo ==> rows[other].time <= rows[id].time;
      VisitStep(held, prices, visited, todo, id);
      ghost var before := rows;
      var status, price, pct := PriceOut(rows[id], prices[rows[id].symbol]);
      UpdateMark(id, price, pct, status);
      MarkedOnce(before, id, prices[held[id].symbol]);
    }

    /** Marks every open trade whose symbol has a price, newest first. */
    method MarkOpenSignals(prices: map<string, real>) returns (updated: nat, ghost held: Table, ghost visited: seq<string>)
      modifies this
      ensures Initialized(old(rows), held)
      ensures AllSound(old(rows)) ==> AllTame(held) && AllTame(rows)
      ensures AllSound(old(rows)) ==> rows.Keys == held.Keys && forall id :: id in held ==> RowPriced(held[id], rows[id], prices)
      ensures NewestFirst(held, Marked(held, prices), visited) && updated == |visited|
      ensures Visits(held, prices, visited) && rows == MarkedInTurn(held, prices, visited)
    {
      hide Initialized, AllTame, AllSound, Marking, MarkedInTurn, NewestFirst, Visits, RowPriced;
      Initialize();
      held := rows;
      visited := [];
      var todo := set id | id in rows && Marks(rows[id], prices);
      MarkingStarts(held, prices);
      updated := 0;
      while todo != {}
        invariant updated == |visited| && Marking(held, rows, prices, visited, todo)
        decreases |todo|
      {
        var id := MarkLatest(held, prices, visited, todo);
        todo := todo - {id};
        visited := visited + [id];
        updated := updated + 1;
      }
      MarkingEnds(held, rows, prices, visited);
      if AllSound(old(rows)) {
        InitializedIsTame(old(rows), held);
        MarksStayTame(held, prices, visited);
        RoundPrices(held, prices, visited);
      }
    }

    /** The counters of one strategy's fund, over its rows newest first. */
    method Tally(ids: seq<string>) returns (report: Report)
      requires forall k :: 0 <= k < |ids| ==> ids[k] in rows
      ensures report == ReportOf(FundOf(rows, ids))
    {
      hide Tallied, FundOf;
      ghost var fund := FundOf(rows, ids);
      var open, closed, wins, losses := 0, 0, 0, 0;
      var realized, openPnl, closedTotal := 0.0, 0.0, 0.0;
      var i := |ids|;
      assert Tallied(fund[|ids|..], 0, 0, 0, 0, 0.0, 0.0, 0.0) by { TallyNothing(fund); }
      while i > 0
        invariant 0 <= i <= |ids|
        invariant Tallied(fund[i..], open, closed, wins, losses, realized, openPnl, closedTotal)
      {
        i := i - 1;
        FundAt(rows, ids, i);
        var row := rows[ids[i]];
        TallyFront(fund, i, open, closed, wins, losses, realized, openPnl, closedTotal);
        if row.status == Open { open := open + 1; } else { closed := closed + 1; }
        if row.status == TpHit { wins := wins + 1; } else if row.status == SlHit { losses := losses + 1; }
        if row.pnl.Some? {
          if row.status == Open { openPnl := openPnl + row.pnl.value; } else { realized := realized + row.pnl.value; }
        }
        if row.pnlPct.Some? && row.status != Open {
          closedTotal := closedTotal + row.pnlPct.value;
        }
      }
      assert fund[0..] == fund;
      TallyNonnegative(fund, open, closed, wins, losses, realized, openPnl, closedTotal);
      report := Report(|ids|, open, closed, wins, losses, realized, openPnl, START_BALANCE + realized + openPnl, closedTotal,
                       if closed > 0 then Some(closedTotal / closed as real / (STOP_RATE * 100.0)) else None);
    }

    /** The performance report: one line per strategy in the table. On a table of the present lifecycle its
        equity is the closed form plus the open profit. */
    method Performance() returns (reports: map<string, Report>)
      modifies this
      ensures Initialized(old(rows), rows)
      ensures forall strategy :: strategy in reports <==> exists id :: id in rows && rows[id].strategy == strategy
      ensures forall strategy :: strategy in reports ==> reports[strategy] == ReportOf(FundIn(rows, strategy))
      ensures AllSound(old(rows)) ==> forall strategy :: strategy in reports ==> InClosedForm(reports[strategy])
    {
      hide Initialized, ReportOf, FundIn, AllSound, InClosedForm;
      Initialize();
      var strategies := set id | id in rows :: rows[id].strategy;
      ghost var all, held := strategies, rows;
      reports := map[];
      while strategies != {}
        invariant rows == held && strategies <= all && reports.Keys == all - strategies
        invariant forall strategy :: strategy in reports ==> reports[strategy] == ReportOf(FundIn(rows, strategy))
        decreases |strategies|
      {
        var strategy :| strategy in strategies;
        var report := StrategyReport(strategy);
        reports := reports[strategy := report];
        strategies := strategies - {strategy};
      }
      if AllSound(old(rows)) {
        forall strategy | strategy in reports ensures InClosedForm(reports[strategy]) {
          FundReport(old(rows), rows, strategy);
        }
      }
    }

    method StrategyReport(strategy: string) returns (report: Report)
      ensures report == ReportOf(FundIn(rows, strategy))
    {
      hide ReportOf, TimeOrder, FundOf;
      var ids := OrderByTime(strategy);
      report := Tally(ids);
      ReportsAgree(rows, strategy, ids, TimeOrder(rows, strategy));
    }
  }

  // ---------------------------------------------------------------- the closing balance

  lemma {:induction false} OthersAndOwn(t: Table, order: seq<string>, id: string)
    requires forall i :: 0 <= i < |order| ==> order[i] in t
    requires forall i, j :: 0 <= i < j < |order| ==> order[i] != order[j]
    ensures ClosedPnl(FundOf(t, order)) == OtherPnl(t, order, id) + if id in order then StoredPnl(t[id]) else 0.0
    decreases |order|
  {
    hide StoredPnl, FundOf;
    if order != [] {
      var init, last := order[..|order| - 1], order[|order| - 1];
      FundOfPrefix(t, order, |init|);
      FundAt(t, order, |init|);
      OthersAndOwn(t, init, id);
      assert order == init + [last];
    } else {
      FundOfNothing(t);
    }
  }

  lemma FundOfNothing(t: Table)
    ensures FundOf(t, []) == []
  {
  }

  lemma {:induction false} OthersIgnoreOwn(t: Table, u: Table, order: seq<string>, id: string)
    requires forall i :: 0 <= i < |order| ==> order[i] in t && order[i] in u && (order[i] != id ==> u[order[i]] == t[order[i]])
    ensures OtherPnl(u, order, id) == OtherPnl(t, order, id)
    decreases |order|
  {
    if order != [] { OthersIgnoreOwn(t, u, order[..|order| - 1], id); }
  }

  /** The balance stored on a trade as it closes is the realized balance of its fund with that closing. */
  lemma ClosingBalancePlainly(t: Table, id: string, price: real, pct: real, status: Status)
    requires id in t && status != Open
    ensures var after := t[id := MarkedRow(t[id], Others(t, id), price, pct, status)];
      after[id].balanceAfter == Some(RealizedBalance(FundIn(after, t[id].strategy)))
  {
    hide OtherPnl, ClosedPnl, FundOf, InTimeOrder, TimeOrder, MarkPnl;
    var strategy, order := t[id].strategy, TimeOrder(t, t[id].strategy);
    var after := t[id := MarkedRow(t[id], Others(t, id), price, pct, status)];
    MarkKeepsOrder(t, after, strategy, order, id);
    OrdersAgree(after, strategy, order, TimeOrder(after, strategy), Open);
    OthersAndOwn(after, order, id);
    OthersIgnoreOwn(t, after, order, id);
  }

  lemma MarkKeepsOrder(t: Table, after: Table, strategy: string, order: seq<string>, id: string)
    requires InTimeOrder(t, strategy, order) && id in t && t[id].strategy == strategy
    requires id in after && after == t[id := after[id]] && after[id].strategy == strategy && after[id].time == t[id].time
    ensures InTimeOrder(after, strategy, order) && id in order
    ensures forall i :: 0 <= i < |order| ==> order[i] in t && order[i] in after && (order[i] != id ==> after[order[i]] == t[order[i]])
    ensures forall i, j :: 0 <= i < j < |order| ==> order[i] != order[j]
  {
  }

  /** A report of the lifecycle in plain numbers: every row is open or closed, every closed one a win or a loss,
      and the average R counts two per win and minus one per loss. */
  lemma ReportPlainly(fund: Fund)
    requires forall i :: 0 <= i < |fund| ==> Tame(fund[i])
    ensures var r := ReportOf(fund);
      && r.total == |fund| == r.open + r.closed && r.closed == r.wins + r.losses
      && r.equity == 100.0 + r.realized + r.openPnl
      && (r.averageR.Some? <==> r.closed > 0)
      && (r.closed > 0 ==> r.averageR.value * r.closed as real == 2.0 * r.wins as real - r.losses as real)
  {
    hide Tame, ClosedPnl, OpenPnl, ClosedPct, Count;
    TamePct(fund);
    TameCounts(fund);
    AverageTimes(ClosedPct(fund), |fund| - Count(fund, Open));
  }

  lemma AverageTimes(total: real, n: int)
    ensures n > 0 ==> total / n as real / (STOP_RATE * 100.0) * n as real == total
  {
    if n > 0 { QuotientTimes(total, n as real); }
  }

  /** The profit of each row counts once: towards the open total while it is open, towards the realized one once closed. */
  lemma ProfitCounts(fund: Fund, i: nat, pnl: Option<real>)
    requires i < |fund|
    ensures var changed, gain := fund[i := fund[i].(pnl := pnl)], ValueOr(pnl, 0.0) - ValueOr(fund[i].pnl, 0.0);
      && OpenPnl(changed) == OpenPnl(fund) + (if fund[i].status == Open then gain else 0.0)
      && ClosedPnl(changed) == ClosedPnl(fund) + (if fund[i].status == Open then 0.0 else gain)
  {
    hide OpenPnl, ClosedPnl;
    OpenProfitCounts(fund, i, pnl);
    ClosedProfitCounts(fund, i, pnl);
  }

  lemma {:induction false} OpenProfitCounts(fund: Fund, i: nat, pnl: Option<real>)
    requires i < |fund|
    ensures var changed, gain := fund[i := fund[i].(pnl := pnl)], ValueOr(pnl, 0.0) - ValueOr(fund[i].pnl, 0.0);
      OpenPnl(changed) == OpenPnl(fund) + (if fund[i].status == Open then gain else 0.0)
    decreases |fund|
  {
    var changed, init := fund[i := fund[i].(pnl := pnl)], fund[..|fund| - 1];
    if i < |init| {
      OpenProfitCounts(init, i, pnl);
      assert changed[..|fund| - 1] == init[i := init[i].(pnl := pnl)];
    } else {
      assert changed[..|fund| - 1] == init;
    }
  }

  lemma {:induction false} ClosedProfitCounts(fund: Fund, i: nat, pnl: Option<real>)
    requires i < |fund|
    ensures var changed, gain := fund[i := fund[i].(pnl := pnl)], ValueOr(pnl, 0.0) - ValueOr(fund[i].pnl, 0.0);
      ClosedPnl(changed) == ClosedPnl(fund) + (if fund[i].status == Open then 0.0 else gain)
    decreases |fund|
  {
    var changed, init := fund[i := fund[i].(pnl := pnl)], fund[..|fund| - 1];
    if i < |init| {
      ClosedProfitCounts(init, i, pnl);
      assert changed[..|fund| - 1] == init[i := init[i].(pnl := pnl)];
    } else {
      assert changed[..|fund| - 1] == init;
    }
  }

  lemma {:induction false} NothingMarked(fund: Fund)
    requires forall i :: 0 <= i < |fund| ==> fund[i].pnl.None?
    ensures OpenPnl(fund) == 0.0 && ClosedPnl(fund) == 0.0
    decreases |fund|
  {
    if fund != [] { NothingMarked(fund[..|fund| - 1]); }
  }

  lemma {:induction false} TameCounts(fund: Fund)
    requires forall i :: 0 <= i < |fund| ==> Tame(fund[i])
    ensures |fund| == Count(fund, Open) + Count(fund, TpHit) + Count(fund, SlHit)
    decreases |fund|
  {
    hide StopLevel, TargetLevel;
    if fund != [] {
      TameCounts(fund[..|fund| - 1]);
      assert Tame(fund[|fund| - 1]);
    }
  }

  /** Equity and net percentage as wins and losses determine them. */
  ghost predicate InClosedForm(report: Report) {
    && report.equity == ClosedForm(report.wins, report.losses) + report.openPnl
    && report.netPct == 2.0 * report.wins as real - report.losses as real
  }

  lemma FundReport(before: Table, after: Table, strategy: string)
    requires AllSound(before) && Initialized(before, after)
    ensures InClosedForm(ReportOf(FundIn(after, strategy)))
  {
    hide Initialized, Tame, ClosedForm, TimeOrder;
    InitializedIsTame(before, after);
    ReportClosedForm(before, after, strategy, TimeOrder(after, strategy));
  }

  // ---------------------------------------------------------------- the closed form of a table

  lemma {:induction false} ReplayKeepsCount(fund: Fund, status: Status)
    ensures Count(Replayed(fund), status) == Count(fund, status)
    decreases |fund|
  {
    hide ReplayRow;
    if fund != [] {
      ReplayKeepsCount(fund[..|fund| - 1], status);
      assert Replayed(fund)[..|fund| - 1] == Replayed(fund[..|fund| - 1]);
      ReplayKeepsIdentity(fund[|fund| - 1], BalanceAfter(fund[..|fund| - 1]));
    }
  }

  /** After initialization every strategy's realized balance is the closed form of its wins and losses. */
  lemma RealizedClosedForm(before: Table, after: Table, strategy: string, order: seq<string>)
    requires AllSound(before) && Initialized(before, after) && InTimeOrder(after, strategy, order)
    ensures var fund := FundOf(after, order);
      RealizedBalance(fund) == ClosedForm(Count(fund, TpHit), Count(fund, SlHit))
  {
    hide Tame, ClosedForm, FundOf, Replayed, Count, ClosedPnl, PassedOverPnl;
    LevelsMakeTame(before);
    var levelled := WithLevels(before);
    assert ReplayedFor(levelled, after, strategy);
    var used :| InTimeOrder(levelled, strategy, used) && FundOf(after, used) == Replayed(FundOf(levelled, used));
    var fund := FundOf(levelled, used);
    TableClosedForm(levelled, strategy, used);
    TameFund(levelled, strategy, used);
    TamePassesNothing(fund);
    ReplayConserves(fund);
    ReplayKeepsCount(fund, TpHit);
    ReplayKeepsCount(fund, SlHit);
    OrderSurvives(levelled, after, strategy, used);
    OrdersAgree(after, strategy, used, order, TpHit);
    OrdersAgree(after, strategy, used, order, SlHit);
  }

  lemma TameFund(t: Table, strategy: string, order: seq<string>)
    requires AllTame(t) && InTimeOrder(t, strategy, order)
    ensures forall i :: 0 <= i < |order| ==> Tame(FundOf(t, order)[i])
  {
    hide Tame;
  }

  /** A replay moves no row in time or to another strategy. */
  lemma OrderSurvives(before: Table, after: Table, strategy: string, order: seq<string>)
    requires forall s :: ReplayedFor(before, after, s)
    requires InTimeOrder(before, strategy, order)
    ensures InTimeOrder(after, strategy, order)
  {
    hide Replayed, ReplayRow;
    assert ReplayedFor(before, after, strategy);
    forall id | id in after ensures after[id].strategy == before[id].strategy && after[id].time == before[id].time {
      assert ReplayedFor(before, after, before[id].strategy);
      var used :| InTimeOrder(before, before[id].strategy, used) && FundOf(after, used) == Replayed(FundOf(before, used));
      var i :| 0 <= i < |used| && used[i] == id;
      ReplayedAt(FundOf(before, used), i);
      assert FundOf(after, used)[i] == after[id] && FundOf(before, used)[i] == before[id];
      ReplayKeepsIdentity(before[id], BalanceAfter(FundOf(before, used)[..i]));
    }
  }

  // ---------------------------------------------------------------- tallying from the newest row back

  /** The counters and sums of a stretch of rows. */
  ghost predicate Tallied(rows: Fund, open: int, closed: int, wins: int, losses: int,
                          realized: real, openPnl: real, closedPct: real) {
    && open == Count(rows, Open) && open + closed == |rows| && wins == Count(rows, TpHit) && losses == Count(rows, SlHit)
    && realized == ClosedPnl(rows) && openPnl == OpenPnl(rows) && closedPct == ClosedPct(rows)
  }

  function One(b: bool): int {
    if b then 1 else 0
  }

  function Amount(b: bool, x: Option<real>): real {
    if b && x.Some? then x.value else 0.0
  }

  lemma {:induction false} TallyFirst(rows: Fund)
    requires rows != []
    ensures forall s :: Count(rows, s) == Count(rows[1..], s) + One(rows[0].status == s)
    ensures ClosedPnl(rows) == ClosedPnl(rows[1..]) + Amount(rows[0].status != Open, rows[0].pnl)
    ensures OpenPnl(rows) == OpenPnl(rows[1..]) + Amount(rows[0].status == Open, rows[0].pnl)
    ensures ClosedPct(rows) == ClosedPct(rows[1..]) + Amount(rows[0].status != Open, rows[0].pnlPct)
    decreases |rows|
  {
    if |rows| == 1 {
      assert rows[..0] == [] && rows[1..] == [];
    } else {
      TallyFirst(rows[..|rows| - 1]);
      assert rows[..|rows| - 1][1..] == rows[1..][..|rows| - 2];
    }
  }

  lemma TallyFront(fund: Fund, i: nat, open: int, closed: int, wins: int, losses: int,
                   realized: real, openPnl: real, closedPct: real)
    requires i < |fund| && Tallied(fund[i + 1..], open, closed, wins, losses, realized, openPnl, closedPct)
    ensures var row := fund[i];
      Tallied(fund[i..], open + One(row.status == Open), closed + One(row.status != Open),
              wins + One(row.status == TpHit), losses + One(row.status == SlHit),
              realized + Amount(row.status != Open, row.pnl), openPnl + Amount(row.status == Open, row.pnl),
              closedPct + Amount(row.status != Open, row.pnlPct))
  {
    TallyFirst(fund[i..]);
    assert fund[i..][1..] == fund[i + 1..];
  }

  lemma TallyNothing(fund: Fund)
    ensures Tallied(fund[|fund|..], 0, 0, 0, 0, 0.0, 0.0, 0.0)
  {
    assert fund[|fund|..] == [];
  }

  lemma {:induction false} CountWithin(rows: Fund, status: Status)
    ensures Count(rows, status) <= |rows|
    decreases |rows|
  {
    if rows != [] {
      CountWithin(rows[..|rows| - 1], status);
    }
  }

  /** The counters of a whole fund are the report's. */
  lemma TallyNonnegative(fund: Fund, open: int, closed: int, wins: int, losses: int,
                         realized: real, openPnl: real, closedPct: real)
    requires Tallied(fund, open, closed, wins, losses, realized, openPnl, closedPct)
    ensures open == Count(fund, Open) && closed == |fund| - Count(fund, Open) >= 0
    ensures wins == Count(fund, TpHit) && losses == Count(fund, SlHit)
    ensures realized == ClosedPnl(fund) && openPnl == OpenPnl(fund) && closedPct == ClosedPct(fund)
  {
    CountWithin(fund, Open);
  }

  lemma ReportClosedForm(before: Table, after: Table, strategy: string, order: seq<string>)
    requires AllSound(before) && Initialized(before, after) && AllTame(after) && InTimeOrder(after, strategy, order)
    ensures var fund := FundOf(after, order);
      START_BALANCE + ClosedPnl(fund) == ClosedForm(Count(fund, TpHit), Count(fund, SlHit))
      && ClosedPct(fund) == 2.0 * Count(fund, TpHit) as real - Count(fund, SlHit) as real
  {
    hide Tame, Initialized, ClosedForm, FundOf;
    RealizedClosedForm(before, after, strategy, order);
    TameFund(after, strategy, order);
    TamePct(FundOf(after, order));
  }

  // ---------------------------------------------------------------- marks on the table

  /** An open trade with a positive entry whose symbol has a price. */
  predicate Marks(row: Row, prices: map<string, real>) {
    row.status == Open && row.symbol in prices && row.entry > 0.0
  }

  /** The open trades a round of marks touches. */
  function Marked(t: Table, prices: map<string, real>): set<string> {
    set id | id in t && Marks(t[id], prices)
  }

  /** One row of a table before and after a round. */
  ghost predicate RowPriced(a: Row, b: Row, prices: map<string, real>) {
    if a.status == Open && a.symbol in prices && a.entry > 0.0 then PricedPlainly(a, prices[a.symbol], b) else b == a
  }

  lemma RoundPrices(t: Table, prices: map<string, real>, visited: seq<string>)
    requires AllTame(t) && Visits(t, prices, visited) && NewestFirst(t, Marked(t, prices), visited)
    ensures var after := MarkedInTurn(t, prices, visited);
      after.Keys == t.Keys && forall id :: id in t ==> RowPriced(t[id], after[id], prices)
  {
    hide AllTame, PricedPlainly, MarkedInTurn, Visits;
    forall id | id in t ensures RowPriced(t[id], MarkedInTurn(t, prices, visited)[id], prices) {
      RoundPlainly(t, prices, visited, id);
    }
  }

  /** The table after one mark at a market price. */
  ghost function MarkedAt(t: Table, id: string, price: real): (after: Table)
    requires id in t && t[id].entry > 0.0
    ensures after.Keys == t.Keys && forall other :: other in t && other != id ==> after[other] == t[other]
  {
    var mark := Mark(t[id], price);
    t[id := MarkedRow(t[id], Others(t, id), mark.1, mark.2, mark.0)]
  }

  /** Marks taken one after the other, each seeing the balances the earlier ones wrote. */
  ghost function MarkedInTurn(t: Table, prices: map<string, real>, visited: seq<string>): (after: Table)
    requires Visits(t, prices, visited)
    ensures after.Keys == t.Keys && forall id :: id in t && id !in visited ==> after[id] == t[id]
    decreases |visited|
  {
    if visited == [] then t
    else
      var init, id := visited[..|visited| - 1], visited[|visited| - 1];
      MarkedAt(MarkedInTurn(t, prices, init), id, prices[t[id].symbol])
  }

  /** Different rows, each open with a price. */
  ghost predicate Visits(t: Table, prices: map<string, real>, visited: seq<string>) {
    && (forall i :: 0 <= i < |visited| ==> visited[i] in t && Marks(t[visited[i]], prices))
    && (forall i, j :: 0 <= i < j < |visited| ==> visited[i] != visited[j])
  }

  /** Exactly these rows, later ones first. */
  ghost predicate NewestFirst(t: Table, ids: set<string>, visited: seq<string>) {
    && (forall i :: 0 <= i < |visited| ==> visited[i] in t)
    && (forall id :: id in visited <==> id in ids)
    && (forall i, j :: 0 <= i < j < |visited| ==> visited[i] != visited[j] && t[visited[j]].time <= t[visited[i]].time)
  }

  ghost predicate Ahead(t: Table, visited: seq<string>, todo: set<string>) {
    forall i, id :: 0 <= i < |visited| && visited[i] in t && id in todo && id in t ==>
      visited[i] != id && t[id].time <= t[visited[i]].time
  }

  /** A round in progress: `visited` was marked in turn, and what is left to do is untouched and no newer. */
  ghost predicate Marking(held: Table, now: Table, prices: map<string, real>, visited: seq<string>, todo: set<string>) {
    && todo <= Marked(held, prices) && now.Keys == held.Keys
    && NewestFirst(held, Marked(held, prices) - todo, visited) && Ahead(held, visited, todo)
    && Visits(held, prices, visited) && now == MarkedInTurn(held, prices, visited)
    && forall id :: id in todo ==> now[id] == held[id]
  }

  lemma MarkingStarts(t: Table, prices: map<string, real>)
    ensures Marking(t, t, prices, [], Marked(t, prices))
  {
    assert Marked(t, prices) - Marked(t, prices) == {};
  }

  lemma MarkingEnds(held: Table, now: Table, prices: map<string, real>, visited: seq<string>)
    requires Marking(held, now, prices, visited, {})
    ensures NewestFirst(held, Marked(held, prices), visited)
    ensures Visits(held, prices, visited) && now == MarkedInTurn(held, prices, visited)
  {
    assert Marked(held, prices) - {} == Marked(held, prices);
  }

  lemma MarkedOnce(t: Table, id: string, price: real)
    requires id in t && t[id].entry > 0.0
    ensures MarkedAt(t, id, price) == t[id := MarkedRow(t[id], Others(t, id), Mark(t[id], price).1, Mark(t[id], price).2, Mark(t[id], price).0)]
  {
  }

  lemma VisitStep(t: Table, prices: map<string, real>, visited: seq<string>, todo: set<string>, id: string)
    requires todo <= Marked(t, prices) && id in todo && forall other :: other in todo ==> t[other].time <= t[id].time
    requires NewestFirst(t, Marked(t, prices) - todo, visited) && Ahead(t, visited, todo) && Visits(t, prices, visited)
    ensures NewestFirst(t, Marked(t, prices) - (todo - {id}), visited + [id]) && Ahead(t, visited + [id], todo - {id})
    ensures Visits(t, prices, visited + [id])
    ensures MarkedInTurn(t, prices, visited + [id]) == MarkedAt(MarkedInTurn(t, prices, visited), id, prices[t[id].symbol])
  {
    hide MarkedAt, Marks;
    var longer := visited + [id];
    assert longer[..|longer| - 1] == visited;
    forall other ensures other in longer <==> other in Marked(t, prices) - (todo - {id}) {
      assert other in longer <==> other in visited || other == id;
    }
  }

  lemma {:induction false} LatestExists(t: Table, ids: set<string>)
    requires ids != {} && ids <= t.Keys
    ensures exists id :: id in ids && forall other :: other in ids ==> t[other].time <= t[id].time
  {
    var x := Pick(ids);
    var rest := ids - {x};
    assert forall other :: other in ids ==> other == x || other in rest;
    var latest := x;
    if rest != {} {
      LatestExists(t, rest);
      var y :| y in rest && forall other :: other in rest ==> t[other].time <= t[y].time;
      latest := if t[x].time >= t[y].time then x else y;
    }
    assert latest in ids && forall other :: other in ids ==> t[other].time <= t[latest].time;
  }

  /** What a round of marks does, trade by trade: exactly the open trades with a price and a positive entry are
      priced, each closing exactly at or beyond a level, and every other row stays as it is. */
  lemma {:induction false} RoundPlainly(t: Table, prices: map<string, real>, visited: seq<string>, id: string)
    requires AllTame(t) && Visits(t, prices, visited) && id in t
    ensures id in visited ==> PricedPlainly(t[id], prices[t[id].symbol], MarkedInTurn(t, prices, visited)[id])
    ensures id !in visited ==> MarkedInTurn(t, prices, visited)[id] == t[id]
    decreases |visited|
  {
    hide Tame, MarkedRow, Mark, Others, PricedPlainly;
    if visited != [] {
      var init, last := visited[..|visited| - 1], visited[|visited| - 1];
      assert visited == init + [last];
      RoundPlainly(t, prices, init, id);
      var held := MarkedInTurn(t, prices, init);
      if id == last {
        PricedRowPlainly(t[id], Others(held, id), prices[t[id].symbol]);
      }
    }
  }

  /** A round of marks keeps the lifecycle: every row stays tame, so its closings are exactly -1% or +2%. */
  lemma {:induction false} MarksStayTame(t: Table, prices: map<string, real>, visited: seq<string>)
    requires AllTame(t) && Visits(t, prices, visited)
    ensures AllTame(MarkedInTurn(t, prices, visited))
    decreases |visited|
  {
    hide Tame, MarkedRow, Mark, Others;
    if visited != [] {
      var init, id := visited[..|visited| - 1], visited[|visited| - 1];
      MarksStayTame(t, prices, init);
      var held := MarkedInTurn(t, prices, init);
      assert held[id] == t[id];
      MarkedIsTame(held[id], Others(held, id), prices[t[id].symbol]);
    }
  }

  lemma StopDistanceZero(side: Side, entry: real)
    ensures Abs(entry - StopLevel(side, entry)) <= 0.0 <==> entry == 0.0
  {
  }

  lemma OrderedRowsExist(t: Table, strategy: string, order: seq<string>)
    requires InTimeOrder(t, strategy, order)
    ensures forall i :: 0 <= i < |order| ==> order[i] in t
  {
  }

  lemma RewritingStarts(t: Table, order: seq<string>)
    requires forall k :: 0 <= k < |order| ==> order[k] in t
    ensures Rewriting(t, t, order, 0)
  {
  }

  lemma FundAt(t: Table, order: seq<string>, i: nat)
    requires i < |order| && forall k :: 0 <= k < |order| ==> order[k] in t
    ensures FundOf(t, order)[i] == t[order[i]]
  {
  }
}
