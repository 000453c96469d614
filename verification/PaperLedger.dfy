/** The paper fund of one strategy: a list of trades in time order, replayed into running balances. */
module PaperLedger {
  import opened Prelude
  import opened Arithmetic

  const START_BALANCE := 100.0
  const RISK_RATE := 0.01      // PAPER_RISK_PCT / 100
  const STOP_RATE := 0.01
  const TARGET_RATE := 0.02

  datatype Status = Open | SlHit | TpHit | Expired

  datatype Row = Row(strategy: string, symbol: string, side: Side, time: int, entry: real,
                     stop: Option<real>, target: Option<real>, status: Status,
                     currentPrice: Option<real>, pnlPct: Option<real>,
                     riskAmount: Option<real>, positionSize: Option<real>, pnl: Option<real>, rMultiple: Option<real>,
                     exitPrice: Option<real>, balanceAfter: Option<real>)

  /** The trades of one strategy in time order. */
  type Fund = seq<Row>

  // ---------------------------------------------------------------- replay

  /** Rows without a positive entry or without a stop are passed over. */
  predicate Usable(row: Row) {
    row.entry > 0.0 && row.stop.Some?
  }

  function RiskOf(balance: real): real {
    balance * RISK_RATE
  }

  /** Units that lose the risk amount between entry and stop. */
  function PositionSize(entry: real, stop: real, riskAmount: real): real {
    var distance := Abs(entry - stop);
    if distance > 0.0 then riskAmount / distance else 0.0
  }

  /** Profit of a position whose price moved by a percentage of the entry. */
  function Profit(size: real, entry: real, pct: real): real {
    size * entry * (pct / 100.0)
  }

  function SizeFor(row: Row, balance: real): real
    requires row.stop.Some?
  {
    PositionSize(row.entry, row.stop.value, RiskOf(balance))
  }

  /** The profit the replay computes, from the marked percentage. */
  function ReplayedPnl(row: Row, balance: real): Option<real>
    requires row.stop.Some?
  {
    if row.pnlPct.Some? then Some(Profit(SizeFor(row, balance), row.entry, row.pnlPct.value)) else None
  }

  function NextBalance(row: Row, balance: real): real {
    if Usable(row) && row.pnlPct.Some? && row.status != Open then balance + ReplayedPnl(row, balance).value
    else balance
  }

  /** One row rewritten by the replay at the given balance. */
  function ReplayRow(row: Row, balance: real): Row {
    if !Usable(row) then row
    else
      var pnl := ReplayedPnl(row, balance);
      row.(riskAmount := Some(RiskOf(balance)),
           positionSize := Some(SizeFor(row, balance)),
           pnl := pnl,
           rMultiple := if pnl.Some? && RiskOf(balance) > 0.0 then Some(pnl.value / RiskOf(balance)) else None,
           exitPrice := row.exitPrice.Or(if row.status != Open then row.currentPrice else None),
           balanceAfter := if pnl.Some? && row.status != Open then Some(NextBalance(row, balance)) else None)
  }

  /** The balance once every row was replayed. */
  function BalanceAfter(fund: Fund): real
    decreases |fund|
  {
    if fund == [] then START_BALANCE else NextBalance(fund[|fund| - 1], BalanceAfter(fund[..|fund| - 1]))
  }

  function Replayed(fund: Fund): (r: Fund)
    ensures |r| == |fund|
    decreases |fund|
  {
    if fund == [] then []
    else
      var init := fund[..|fund| - 1];
      Replayed(init) + [ReplayRow(fund[|fund| - 1], BalanceAfter(init))]
  }

  lemma ReplayRowTwice(row: Row, balance: real)
    ensures ReplayRow(ReplayRow(row, balance), balance) == ReplayRow(row, balance)
    ensures NextBalance(ReplayRow(row, balance), balance) == NextBalance(row, balance)
  {
    hide PositionSize, RiskOf, Profit;
  }

  /** Replaying a replayed fund changes nothing, and ends at the same balance. */
  lemma {:induction false} ReplayIdempotent(fund: Fund)
    ensures Replayed(Replayed(fund)) == Replayed(fund)
    ensures BalanceAfter(Replayed(fund)) == BalanceAfter(fund)
    decreases |fund|
  {
    hide ReplayRow, NextBalance;
    if fund != [] {
      var init, last := fund[..|fund| - 1], fund[|fund| - 1];
      ReplayIdempotent(init);
      ReplayRowTwice(last, BalanceAfter(init));
      assert Replayed(fund)[..|fund| - 1] == Replayed(init);
    }
  }

  // ---------------------------------------------------------------- conservation

  /** The profit stored on a closed row. */
  function StoredPnl(row: Row): real {
    if row.status != Open && row.pnl.Some? then row.pnl.value else 0.0
  }

  /** Sum of the profits stored on closed rows. */
  function ClosedPnl(fund: Fund): real
    decreases |fund|
  {
    if fund == [] then 0.0 else ClosedPnl(fund[..|fund| - 1]) + StoredPnl(fund[|fund| - 1])
  }

  /** The part of it that sits on rows the replay passes over. */
  function PassedOverPnl(fund: Fund): real
    decreases |fund|
  {
    if fund == [] then 0.0
    else
      var last := fund[|fund| - 1];
      PassedOverPnl(fund[..|fund| - 1]) + if Usable(last) then 0.0 else StoredPnl(last)
  }

  /** `_strategy_realized_balance`. */
  function RealizedBalance(fund: Fund): real {
    START_BALANCE + ClosedPnl(fund)
  }

  lemma RowConserves(row: Row, balance: real)
    ensures balance + StoredPnl(ReplayRow(row, balance)) ==
      NextBalance(row, balance) + if Usable(row) then 0.0 else StoredPnl(row)
  {
    hide PositionSize, RiskOf, Profit;
  }

  /** After a replay the realized balance is the replay's final balance, up to profits stored on rows the
      replay passes over; the two agree exactly when those cancel. */
  lemma {:induction false} ReplayConserves(fund: Fund)
    ensures RealizedBalance(Replayed(fund)) == BalanceAfter(fund) + PassedOverPnl(fund)
    decreases |fund|
  {
    hide ReplayRow, NextBalance, StoredPnl, Usable;
    if fund != [] {
      var init := fund[..|fund| - 1];
      ReplayConserves(init);
      assert Replayed(fund)[..|fund| - 1] == Replayed(init);
      RowConserves(fund[|fund| - 1], BalanceAfter(init));
    }
  }

  // ---------------------------------------------------------------- marks

  function StopLevel(side: Side, entry: real): real {
    if side == Buy then entry * (1.0 - STOP_RATE) else entry * (1.0 + STOP_RATE)
  }

  function TargetLevel(side: Side, entry: real): real {
    if side == Buy then entry * (1.0 + TARGET_RATE) else entry * (1.0 - TARGET_RATE)
  }

  function PnlPct(side: Side, entry: real, price: real): real
    requires entry != 0.0
  {
    (if side == Buy then (price - entry) / entry else (entry - price) / entry) * 100.0
  }

  /** Status, price and percentage that a market price gives an open row: beyond a level, the level. */
  function Mark(row: Row, price: real): (Status, real, real)
    requires row.entry > 0.0
  {
    var slHit := row.stop.Some? && (if row.side == Buy then price <= row.stop.value else price >= row.stop.value);
    var tpHit := row.target.Some? && (if row.side == Buy then price >= row.target.value else price <= row.target.value);
    if slHit then (SlHit, row.stop.value, PnlPct(row.side, row.entry, row.stop.value))
    else if tpHit then (TpHit, row.target.value, PnlPct(row.side, row.entry, row.target.value))
    else (Open, price, PnlPct(row.side, row.entry, price))
  }

  /** A row created with the benchmark levels and closed, if at all, by a mark. */
  ghost predicate Tame(row: Row) {
    if row.entry <= 0.0 then row.status == Open
    else
      && row.stop == Some(StopLevel(row.side, row.entry)) && row.target == Some(TargetLevel(row.side, row.entry))
      && match row.status
         case Open => true
         case SlHit => row.pnlPct == Some(-1.0)
         case TpHit => row.pnlPct == Some(2.0)
         case Expired => false
  }

  lemma LevelPercentages(side: Side, entry: real)
    requires entry > 0.0
    ensures PnlPct(side, entry, StopLevel(side, entry)) == -1.0
    ensures PnlPct(side, entry, TargetLevel(side, entry)) == 2.0
  {
    var loss, gain := -0.01, 0.02;
    QuotientUnique(entry * loss, entry, loss);
    QuotientUnique(entry * gain, entry, gain);
    assert side == Buy ==> StopLevel(side, entry) - entry == entry * loss;
    assert side == Sell ==> entry - StopLevel(side, entry) == entry * loss;
    assert side == Buy ==> TargetLevel(side, entry) - entry == entry * gain;
    assert side == Sell ==> entry - TargetLevel(side, entry) == entry * gain;
  }

  /** A mark closes a row at exactly -1% or +2%, whatever the market price was. */
  lemma MarkIsExact(row: Row, price: real)
    requires Tame(row) && row.entry > 0.0 && row.status == Open
    ensures Mark(row, price).0 == SlHit ==> Mark(row, price).2 == -1.0
    ensures Mark(row, price).0 == TpHit ==> Mark(row, price).2 == 2.0
    ensures Mark(row, price).0 != Expired
  {
    hide StopLevel, TargetLevel, PnlPct;
    LevelPercentages(row.side, row.entry);
  }

  /** The price at which a trade is stopped out, 1% against the entry, and the one at which it wins, 2% in its favour. */
  function PlainStop(side: Side, entry: real): real {
    match side
    case Buy => entry * 0.99
    case Sell => entry * 1.01
  }

  function PlainTarget(side: Side, entry: real): real {
    match side
    case Buy => entry * 1.02
    case Sell => entry * 0.98
  }

  /** The market price has reached that level or gone beyond it. */
  predicate Stopped(side: Side, entry: real, price: real) {
    match side
    case Buy => price <= entry * 0.99
    case Sell => price >= entry * 1.01
  }

  predicate Won(side: Side, entry: real, price: real) {
    match side
    case Buy => price >= entry * 1.02
    case Sell => price <= entry * 0.98
  }

  /** When a mark closes an open trade, and where: at the stop level exactly when the price is 1% or more against
      the entry, at the target level exactly when it is 2% or more in its favour, and otherwise it stays open
      at the market price. */
  lemma MarkClosesExactly(row: Row, price: real)
    requires Tame(row) && row.entry > 0.0 && row.status == Open
    ensures var mark := Mark(row, price);
      && (mark.0 == SlHit <==> Stopped(row.side, row.entry, price))
      && (mark.0 == TpHit <==> Won(row.side, row.entry, price))
      && (mark.0 == Open <==> !Stopped(row.side, row.entry, price) && !Won(row.side, row.entry, price))
      && mark.1 == (if Stopped(row.side, row.entry, price) then PlainStop(row.side, row.entry)
                    else if Won(row.side, row.entry, price) then PlainTarget(row.side, row.entry) else price)
  {
    hide PnlPct;
  }

  /** The percentage of a mark is the move from the entry in the trade's favour. */
  lemma PercentagePlainly(side: Side, entry: real, price: real)
    requires entry != 0.0
    ensures PnlPct(side, entry, price) * entry == match side case Buy => 100.0 * (price - entry) case Sell => 100.0 * (entry - price)
  {
    var move := if side == Buy then price - entry else entry - price;
    QuotientTimes(move, entry);
    assert PnlPct(side, entry, price) * entry == move / entry * entry * 100.0;
  }

  // ---------------------------------------------------------------- closed form

  function Count(fund: Fund, status: Status): nat
    decreases |fund|
  {
    if fund == [] then 0
    else Count(fund[..|fund| - 1], status) + if fund[|fund| - 1].status == status then 1 else 0
  }

  /** 100 * 1.02^wins * 0.99^losses. */
  function ClosedForm(wins: nat, losses: nat): real {
    START_BALANCE * Power(1.02, wins) * Power(0.99, losses)
  }

  lemma {:induction false} PowerPositive(x: real, n: nat)
    requires x > 0.0
    ensures Power(x, n) > 0.0
  {
    if n > 0 {
      PowerPositive(x, n - 1);
      ProductPositive(x, Power(x, n - 1));
    }
  }

  lemma ClosedFormSteps(wins: nat, losses: nat)
    ensures ClosedForm(wins, losses) > 0.0
    ensures ClosedForm(wins + 1, losses) == ClosedForm(wins, losses) * 1.02
    ensures ClosedForm(wins, losses + 1) == ClosedForm(wins, losses) * 0.99
  {
    PowerPositive(1.02, wins);
    PowerPositive(0.99, losses);
    var a, b := Power(1.02, wins), Power(0.99, losses);
    ProductPositive(a, b);
    assert START_BALANCE * (1.02 * a) * b == START_BALANCE * a * b * 1.02;
    assert START_BALANCE * a * (0.99 * b) == START_BALANCE * a * b * 0.99;
  }

  /** The stop lies 1% of the entry away, so the position is worth the whole balance. */
  lemma StopDistance(side: Side, entry: real)
    requires entry > 0.0
    ensures Abs(entry - StopLevel(side, entry)) == entry * 0.01
  {
  }

  /** A percentage of the whole balance. */
  function Share(balance: real, pct: real): real {
    balance * (pct / 100.0)
  }

  lemma ProfitOfHolding(units: real, entry: real, pct: real, balance: real)
    requires units * entry == balance
    ensures Profit(units, entry, pct) == Share(balance, pct)
  {
    ProductSame(units * entry, balance, pct / 100.0);
  }

  lemma BenchmarkSize(balance: real, side: Side, entry: real)
    requires entry > 0.0
    ensures PositionSize(entry, StopLevel(side, entry), RiskOf(balance)) * entry == balance
  {
    StopDistance(side, entry);
    var units := balance / entry;
    QuotientTimes(balance, entry);
    assert units * (entry * 0.01) == units * entry * 0.01;
    QuotientUnique(balance * RISK_RATE, entry * 0.01, units);
  }

  lemma TamePnl(row: Row, balance: real)
    requires Tame(row) && row.entry > 0.0 && row.pnlPct.Some?
    ensures ReplayedPnl(row, balance) == Some(Share(balance, row.pnlPct.value))
  {
    hide StopLevel, TargetLevel, PositionSize, Profit, RiskOf, Share;
    BenchmarkSize(balance, row.side, row.entry);
    ProfitOfHolding(SizeFor(row, balance), row.entry, row.pnlPct.value, balance);
  }

  lemma TameStep(row: Row, balance: real)
    requires Tame(row)
    ensures NextBalance(row, balance) ==
      match row.status { case SlHit => balance * 0.99 case TpHit => balance * 1.02 case _ => balance }
  {
    hide ReplayedPnl, StopLevel, TargetLevel;
    if row.entry > 0.0 && row.pnlPct.Some? {
      TamePnl(row, balance);
    }
  }

  /** Whatever the order of its wins and losses, the fund stands at 100 * 1.02^wins * 0.99^losses. */
  lemma {:induction false} BalanceClosedForm(fund: Fund)
    requires forall i :: 0 <= i < |fund| ==> Tame(fund[i])
    ensures BalanceAfter(fund) == ClosedForm(Count(fund, TpHit), Count(fund, SlHit)) > 0.0
    decreases |fund|
  {
    hide Tame, NextBalance, ClosedForm;
    if fund == [] {
      EmptyClosedForm();
    } else {
      var init, last := fund[..|fund| - 1], fund[|fund| - 1];
      BalanceClosedForm(init);
      TameStep(last, BalanceAfter(init));
      ClosedFormSteps(Count(init, TpHit), Count(init, SlHit));
    }
  }

  lemma EmptyClosedForm()
    ensures ClosedForm(0, 0) == START_BALANCE
  {
  }

  /** Replay gives every stopped row an R multiple of exactly -1 and every target row exactly +2. */
  lemma ReplayedMultiples(fund: Fund, i: nat)
    requires i < |fund| && forall k :: 0 <= k < |fund| ==> Tame(fund[k])
    ensures fund[i].status == SlHit ==> Replayed(fund)[i].rMultiple == Some(-1.0)
    ensures fund[i].status == TpHit ==> Replayed(fund)[i].rMultiple == Some(2.0)
  {
    hide Tame, ReplayRow;
    ReplayedAt(fund, i);
    BalanceClosedForm(fund[..i]);
    MultipleOf(fund[i], BalanceAfter(fund[..i]));
  }

  lemma {:induction false} ReplayedAt(fund: Fund, i: nat)
    requires i < |fund|
    ensures Replayed(fund)[i] == ReplayRow(fund[i], BalanceAfter(fund[..i]))
    decreases |fund|
  {
    hide ReplayRow, NextBalance;
    if i < |fund| - 1 {
      ReplayedAt(fund[..|fund| - 1], i);
      assert fund[..|fund| - 1][..i] == fund[..i];
    }
  }

  lemma MultipleOf(row: Row, balance: real)
    requires Tame(row) && balance > 0.0
    ensures row.status == SlHit ==> ReplayRow(row, balance).rMultiple == Some(-1.0)
    ensures row.status == TpHit ==> ReplayRow(row, balance).rMultiple == Some(2.0)
  {
    hide ReplayedPnl, StopLevel, TargetLevel, SizeFor, NextBalance;
    if row.entry > 0.0 && row.pnlPct.Some? {
      TamePnl(row, balance);
      QuotientUnique(Share(balance, row.pnlPct.value), RiskOf(balance), row.pnlPct.value);
    }
  }

  lemma {:induction false} TamePassesNothing(fund: Fund)
    requires forall i :: 0 <= i < |fund| ==> Tame(fund[i])
    ensures PassedOverPnl(fund) == 0.0
    decreases |fund|
  {
    if fund != [] {
      TamePassesNothing(fund[..|fund| - 1]);
      assert Tame(fund[|fund| - 1]);
    }
  }

  // ---------------------------------------------------------------- what a replay writes, in plain numbers

  /** A row that takes part is sized to lose 1% of the running balance at its stop, and its profit is the marked
      percentage of what it holds; a closed one carries the balance after it, and an exit price. */
  ghost predicate ReplayedPlainly(row: Row, balance: real, r: Row) {
    && r == row.(riskAmount := r.riskAmount, positionSize := r.positionSize, pnl := r.pnl, rMultiple := r.rMultiple,
                 exitPrice := r.exitPrice, balanceAfter := r.balanceAfter)
    && r.riskAmount == Some(balance * 0.01) && r.positionSize.Some? && row.stop.Some?
    && (row.entry != row.stop.value ==> r.positionSize.value * Abs(row.entry - row.stop.value) == balance * 0.01)
    && (r.pnl.Some? <==> row.pnlPct.Some?)
    && (r.pnl.Some? ==> 100.0 * r.pnl.value == r.positionSize.value * row.entry * row.pnlPct.value)
    && (r.pnl.Some? && balance > 0.0 ==> r.rMultiple.Some? && r.rMultiple.value * (balance * 0.01) == r.pnl.value)
    && r.balanceAfter == (if r.pnl.Some? && row.status != Open then Some(balance + r.pnl.value) else None)
    && r.exitPrice == (if row.exitPrice.Some? then row.exitPrice else if row.status != Open then row.currentPrice else None)
  }

  lemma SizePlainly(entry: real, stop: real, risk: real)
    requires entry != stop
    ensures PositionSize(entry, stop, risk) * Abs(entry - stop) == risk
  {
    QuotientTimes(risk, Abs(entry - stop));
  }

  lemma ProfitPlainly(size: real, entry: real, pct: real)
    ensures 100.0 * Profit(size, entry, pct) == size * entry * pct
  {
    var held := size * entry;
    assert pct / 100.0 * 100.0 == pct;
    assert held * (pct / 100.0) * 100.0 == held * (pct / 100.0 * 100.0);
  }

  lemma ReplayRowPlainly(row: Row, balance: real)
    requires Usable(row)
    ensures ReplayedPlainly(row, balance, ReplayRow(row, balance))
  {
    hide PositionSize, Profit;
    if row.entry != row.stop.value {
      SizePlainly(row.entry, row.stop.value, RiskOf(balance));
    }
    if row.pnlPct.Some? {
      ProfitPlainly(SizeFor(row, balance), row.entry, row.pnlPct.value);
      if balance > 0.0 {
        QuotientTimes(ReplayedPnl(row, balance).value, RiskOf(balance));
      }
    }
  }

  /** Every row of a replayed fund: written from the balance before it, or passed over untouched without a
      positive entry or a stop. */
  lemma ReplayPlainly(fund: Fund, i: nat)
    requires i < |fund|
    ensures if fund[i].entry > 0.0 && fund[i].stop.Some? then ReplayedPlainly(fund[i], BalanceAfter(fund[..i]), Replayed(fund)[i])
            else Replayed(fund)[i] == fund[i]
  {
    hide ReplayedPlainly, BalanceAfter;
    ReplayedAt(fund, i);
    if Usable(fund[i]) {
      ReplayRowPlainly(fund[i], BalanceAfter(fund[..i]));
    }
  }

  /** The balance starts at 100 and moves exactly by the profits of closed rows that take part. */
  lemma BalancePlainly(fund: Fund, i: nat)
    requires i < |fund|
    ensures BalanceAfter(fund[..0]) == 100.0
    ensures BalanceAfter(fund[..i + 1]) ==
      BalanceAfter(fund[..i]) + if fund[i].entry > 0.0 && fund[i].stop.Some? then StoredPnl(Replayed(fund)[i]) else 0.0
  {
    hide PositionSize, Profit, RiskOf;
    ReplayedAt(fund, i);
    assert fund[..i + 1][..i] == fund[..i];
  }
}
