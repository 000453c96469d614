/** The writes that keep the paper fund current between replays, and when they agree with a replay. */
module PaperWrites {
  import opened Prelude
  import opened Arithmetic
  import opened PaperLedger

  datatype Signal = Signal(id: string, strategy: string, symbol: string, side: Side, time: int, entry: real)

  // ---------------------------------------------------------------- the two writes

  /** The row inserted for a new signal, sized on the fund's realized balance. */
  function NewRow(s: Signal, realized: real): Row {
    var stop := StopLevel(s.side, s.entry);
    Row(s.strategy, s.symbol, s.side, s.time, s.entry, Some(stop), Some(TargetLevel(s.side, s.entry)), Open,
        None, None, Some(RiskOf(realized)), Some(PositionSize(s.entry, stop, RiskOf(realized))), None, None, None, None)
  }

  function ValueOr(x: Option<real>, fallback: real): real {
    if x.Some? then x.value else fallback
  }

  /** Profit of the stored position at a price. */
  function MarkPnl(row: Row, price: real): real {
    (if row.side == Buy then price - row.entry else row.entry - price) * ValueOr(row.positionSize, 0.0)
  }

  /** The row `update_mark` writes; `others` is the profit stored on the fund's other closed rows. */
  function MarkedRow(row: Row, others: real, price: real, pct: real, status: Status): Row {
    var pnl := MarkPnl(row, price);
    var closing := status != Open;
    row.(currentPrice := Some(price), pnlPct := Some(pct), pnl := Some(pnl), status := status,
         rMultiple := if ValueOr(row.riskAmount, 0.0) > 0.0 then Some(pnl / ValueOr(row.riskAmount, 0.0)) else None,
         exitPrice := (if closing then Some(price) else None).Or(row.exitPrice),
         balanceAfter := (if closing then Some(START_BALANCE + others + pnl) else None).Or(row.balanceAfter))
  }

  // ---------------------------------------------------------------- the two writes in plain numbers

  /** The new row is the signal's, open, with its stop 1% and its target 2% away, and holds the whole realized balance. */
  ghost predicate SavedPlainly(s: Signal, realized: real, row: Row) {
    && row.strategy == s.strategy && row.symbol == s.symbol && row.side == s.side && row.time == s.time && row.entry == s.entry
    && row.status == Open && row.stop == Some(PlainStop(s.side, s.entry)) && row.target == Some(PlainTarget(s.side, s.entry))
    && row.riskAmount == Some(realized * 0.01)
    && row.positionSize.Some? && (s.entry > 0.0 ==> row.positionSize.value * s.entry == realized)
    && row.currentPrice.None? && row.pnlPct.None? && row.pnl.None? && row.rMultiple.None? && row.exitPrice.None? && row.balanceAfter.None?
  }

  lemma NewRowPlainly(s: Signal, realized: real)
    ensures SavedPlainly(s, realized, NewRow(s, realized))
  {
    hide PositionSize;
    if s.entry > 0.0 {
      BenchmarkSize(realized, s.side, s.entry);
    }
  }

  /** The row after a mark: its new price, its profit at that price on the stored size, and what follows from
      closing, while the trade itself stays what it was. */
  ghost predicate MarkedPlainly(row: Row, price: real, status: Status, r: Row) {
    && r == row.(status := status, currentPrice := Some(price), pnlPct := r.pnlPct, pnl := r.pnl, rMultiple := r.rMultiple,
                 exitPrice := r.exitPrice, balanceAfter := r.balanceAfter)
    && r.pnl.Some? && (row.positionSize.None? ==> r.pnl.value == 0.0)
    && (row.positionSize.Some? ==>
          r.pnl.value == match row.side
                         case Buy => (price - row.entry) * row.positionSize.value
                         case Sell => (row.entry - price) * row.positionSize.value)
    && (row.riskAmount.Some? && row.riskAmount.value > 0.0 ==> r.rMultiple.Some? && r.rMultiple.value * row.riskAmount.value == r.pnl.value)
    && r.exitPrice == (if status != Open then Some(price) else row.exitPrice)
    && (status != Open ==> r.balanceAfter.Some?) && (status == Open ==> r.balanceAfter == row.balanceAfter)
  }

  lemma MarkedRowPlainly(row: Row, others: real, price: real, pct: real, status: Status)
    ensures MarkedPlainly(row, price, status, MarkedRow(row, others, price, pct, status))
    ensures MarkedRow(row, others, price, pct, status).pnlPct == Some(pct)
    ensures status != Open ==>
      MarkedRow(row, others, price, pct, status).balanceAfter == Some(100.0 + others + MarkedRow(row, others, price, pct, status).pnl.value)
  {
    if row.riskAmount.Some? && row.riskAmount.value > 0.0 {
      QuotientTimes(MarkPnl(row, price), row.riskAmount.value);
    }
  }

  /** What a market price does to an open trade of the lifecycle. */
  ghost predicate PricedPlainly(row: Row, price: real, r: Row) {
    var status := if Stopped(row.side, row.entry, price) then SlHit else if Won(row.side, row.entry, price) then TpHit else Open;
    var paid := if status == SlHit then PlainStop(row.side, row.entry)
                else if status == TpHit then PlainTarget(row.side, row.entry) else price;
    && MarkedPlainly(row, paid, status, r)
    && (status == SlHit ==> r.pnlPct == Some(-1.0)) && (status == TpHit ==> r.pnlPct == Some(2.0))
  }

  lemma PricedRowPlainly(row: Row, others: real, price: real)
    requires Tame(row) && row.entry > 0.0 && row.status == Open
    ensures var mark := Mark(row, price);
      PricedPlainly(row, price, MarkedRow(row, others, mark.1, mark.2, mark.0))
  {
    hide Tame, Mark, MarkedRow, PlainStop, PlainTarget, MarkedPlainly;
    var mark := Mark(row, price);
    MarkClosesExactly(row, price);
    MarkIsExact(row, price);
    MarkedRowPlainly(row, others, mark.1, mark.2, mark.0);
    NotBoth(row.side, row.entry, price);
  }

  lemma NotBoth(side: Side, entry: real, price: real)
    requires entry > 0.0
    ensures !(Stopped(side, entry, price) && Won(side, entry, price))
  {
  }

  // ---------------------------------------------------------------- agreement with the replay

  /** A replay would write nothing new. */
  ghost predicate Settled(fund: Fund) {
    Replayed(fund) == fund
  }

  lemma SettledAppend(fund: Fund, row: Row)
    requires Settled(fund) && ReplayRow(row, BalanceAfter(fund)) == row
    ensures Settled(fund + [row])
  {
    hide ReplayRow, NextBalance;
    assert (fund + [row])[..|fund|] == fund;
  }

  /** A settled fund realizes exactly its replayed balance, when no profit sits on rows passed over. */
  lemma SettledBalance(fund: Fund)
    requires Settled(fund) && PassedOverPnl(fund) == 0.0
    ensures RealizedBalance(fund) == BalanceAfter(fund)
  {
    ReplayConserves(fund);
  }

  lemma ProfitOfMark(size: real, entry: real, move: real)
    requires entry > 0.0
    ensures Profit(size, entry, move / entry * 100.0) == move * size
  {
    QuotientTimes(move, entry);
    var q := move / entry;
    assert q * 100.0 / 100.0 == q;
    assert size * entry * q == (q * entry) * size;
  }

  /** The percentage of a mark carries the same profit as its price. */
  lemma MarkPnlIsReplayed(row: Row, price: real, balance: real)
    requires Usable(row) && row.positionSize == Some(SizeFor(row, balance))
    ensures MarkPnl(row, price) == Profit(SizeFor(row, balance), row.entry, PnlPct(row.side, row.entry, price))
  {
    hide Profit, PositionSize, RiskOf;
    ProfitOfMark(SizeFor(row, balance), row.entry, if row.side == Buy then price - row.entry else row.entry - price);
  }

  /** Marking an open row of a settled fund writes what a replay would write there, exactly when the
      profits the write adds up are the ones the replay has seen by then. */
  lemma MarkAgrees(row: Row, balance: real, others: real, price: real, status: Status)
    requires Usable(row) && row.status == Open && row == ReplayRow(row, balance)
    ensures var marked := MarkedRow(row, others, price, PnlPct(row.side, row.entry, price), status);
      ReplayRow(marked, balance) == marked <==> status == Open || START_BALANCE + others == balance
  {
    hide Profit, PositionSize, RiskOf, MarkPnl, PnlPct;
    MarkPnlIsReplayed(row, price, balance);
  }

  /** A new row is already in replayed form when it is sized on the replayed balance. */
  lemma NewRowAgrees(s: Signal, balance: real)
    ensures ReplayRow(NewRow(s, balance), balance) == NewRow(s, balance)
  {
    hide StopLevel, TargetLevel, PositionSize, RiskOf;
  }

  // ---------------------------------------------------------------- what the writes keep

  lemma NewRowIsTame(s: Signal, balance: real)
    ensures Tame(NewRow(s, balance)) && StoredPnl(NewRow(s, balance)) == 0.0
  {
  }

  lemma MarkedIsTame(row: Row, others: real, price: real)
    requires Tame(row) && row.entry > 0.0 && row.status == Open
    ensures var mark := Mark(row, price);
      Tame(MarkedRow(row, others, mark.1, mark.2, mark.0)) && Usable(row)
    ensures Mark(row, price).2 == PnlPct(row.side, row.entry, Mark(row, price).1)
  {
    hide PnlPct, StopLevel, TargetLevel;
    MarkIsExact(row, price);
  }

  lemma SingleRowBalance(row: Row)
    ensures BalanceAfter([row]) == NextBalance(row, START_BALANCE)
  {
    assert [row][..0] == [];
  }

  lemma TwoOpenTrades(s: Signal, u: Signal)
    requires s.entry > 0.0 && u.entry > 0.0
    ensures Settled([NewRow(s, START_BALANCE), NewRow(u, START_BALANCE)])
  {
    hide NewRow, ReplayRow;
    var a, b := NewRow(s, START_BALANCE), NewRow(u, START_BALANCE);
    NewRowAgrees(s, START_BALANCE);
    NewRowAgrees(u, START_BALANCE);
    SettledAppend([], a);
    assert [] + [a] == [a] && [a] + [b] == [a, b];
    SingleRowBalance(a);
    assert NextBalance(a, START_BALANCE) == START_BALANCE by { NewRowKeepsBalance(s); }
    SettledAppend([a], b);
  }

  lemma NewRowKeepsBalance(s: Signal)
    ensures NextBalance(NewRow(s, START_BALANCE), START_BALANCE) == START_BALANCE
  {
    hide StopLevel, TargetLevel, PositionSize;
  }
}
