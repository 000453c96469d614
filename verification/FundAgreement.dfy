/** Exactly when a write leaves a fund as a replay would write it. */
module FundAgreement {
  import opened Prelude
  import opened Arithmetic
  import opened PaperLedger
  import opened PaperWrites

  ghost predicate AllTameRows(fund: Fund) {
    forall i :: 0 <= i < |fund| ==> Tame(fund[i])
  }

  // ---------------------------------------------------------------- wins and losses never cancel

  function IntPower(x: int, n: nat): int {
    if n == 0 then 1 else x * IntPower(x, n - 1)
  }

  lemma Regroup(c: real, p: real, q: real)
    ensures (c * p) * (100.0 * q) == (100.0 * c) * (p * q)
  {
  }

  /** a^n / 100^n, cleared of its denominator. */
  lemma {:induction false} PowerCleared(x: real, a: int, n: nat)
    requires 100.0 * x == a as real
    ensures Power(x, n) * IntPower(100, n) as real == IntPower(a, n) as real
  {
    if n > 0 {
      PowerCleared(x, a, n - 1);
      Regroup(x, Power(x, n - 1), IntPower(100, n - 1) as real);
    }
  }

  lemma NotSeventeenth(n: int)
    requires n % 17 != 0
    ensures (100 * n) % 17 != 0
  {
    var q, r := n / 17, n % 17;
    assert 100 * n == 17 * (100 * q + 5 * r) + 15 * r;
    assert (100 * n) % 17 == (15 * r) % 17;
  }

  lemma {:induction false} HundredsNotSeventeenth(x: nat, y: nat)
    ensures (IntPower(100, x) * IntPower(100, y)) % 17 != 0
  {
    if x > 0 {
      HundredsNotSeventeenth(x - 1, y);
      NotSeventeenth(IntPower(100, x - 1) * IntPower(100, y));
      assert IntPower(100, x) * IntPower(100, y) == 100 * (IntPower(100, x - 1) * IntPower(100, y));
    } else if y > 0 {
      HundredsNotSeventeenth(0, y - 1);
      NotSeventeenth(IntPower(100, y - 1));
    }
  }

  lemma TimesSeventeen(z: int)
    ensures (17 * z) % 17 == 0
  {
  }

  lemma SeventeenthFactor(p: int, q: int)
    ensures ((102 * p) * q) % 17 == 0
  {
    var z := p * q;
    assert (102 * p) * q == 102 * z;
    TimesSeventeen(6 * z);
  }

  lemma {:induction false} LossesShrink(n: nat)
    requires n > 0
    ensures Power(0.99, n) < 1.0
  {
    if n > 1 {
      LossesShrink(n - 1);
    }
  }

  lemma ProductCleared(p: real, q: real, a: real, b: real)
    requires p * q == 1.0
    ensures (p * a) * (q * b) == a * b
  {
    assert (p * a) * (q * b) == (p * q) * (a * b);
  }

  /** No number of wins and losses leaves a fund where it was: 102^x * 99^y is 100^(x+y) only for x = y = 0. */
  lemma WinsAndLossesNeverCancel(x: nat, y: nat)
    ensures Power(1.02, x) * Power(0.99, y) == 1.0 <==> x == 0 && y == 0
  {
    if x == 0 {
      if y > 0 { LossesShrink(y); }
    } else if Power(1.02, x) * Power(0.99, y) == 1.0 {
      PowerCleared(1.02, 102, x);
      PowerCleared(0.99, 99, y);
      ProductCleared(Power(1.02, x), Power(0.99, y), IntPower(100, x) as real, IntPower(100, y) as real);
      assert (IntPower(102, x) * IntPower(99, y)) as real == (IntPower(100, x) * IntPower(100, y)) as real;
      SeventeenthFactor(IntPower(102, x - 1), IntPower(99, y));
      HundredsNotSeventeenth(x, y);
    }
  }

  lemma {:induction false} PowerSplit(x: real, m: nat, n: nat)
    ensures Power(x, m + n) == Power(x, m) * Power(x, n)
    decreases n
  {
    if n > 0 {
      PowerSplit(x, m, n - 1);
      assert x * (Power(x, m) * Power(x, n - 1)) == Power(x, m) * (x * Power(x, n - 1));
    }
  }

  lemma RegroupFour(p: real, q: real, a: real, b: real, c: real, d: real)
    requires p == a * b && q == c * d
    ensures START_BALANCE * p * q == START_BALANCE * a * c * (b * d)
  {
  }

  lemma ClosedFormSplit(wins: nat, losses: nat, x: nat, y: nat)
    ensures ClosedForm(wins + x, losses + y) == ClosedForm(wins, losses) * (Power(1.02, x) * Power(0.99, y))
  {
    PowerSplit(1.02, wins, x);
    PowerSplit(0.99, losses, y);
    hide Power;
    RegroupFour(Power(1.02, wins + x), Power(0.99, losses + y), Power(1.02, wins), Power(1.02, x), Power(0.99, losses), Power(0.99, y));
  }

  lemma {:induction false} CountSplit(fund: Fund, k: nat, status: Status)
    requires k <= |fund|
    ensures Count(fund, status) >= Count(fund[..k], status)
    ensures Count(fund, status) == Count(fund[..k], status) <==> forall j :: k <= j < |fund| ==> fund[j].status != status
    decreases |fund|
  {
    if k == |fund| {
      assert fund[..k] == fund;
    } else {
      var init := fund[..|fund| - 1];
      assert init[..k] == fund[..k];
      CountSplit(init, k, status);
      assert forall j :: k <= j < |init| ==> init[j] == fund[j];
    }
  }

  /** Since a position on, a tame fund has moved exactly if a trade there was closed. */
  lemma BalanceMoved(fund: Fund, k: nat)
    requires AllTameRows(fund) && k <= |fund|
    ensures BalanceAfter(fund[..k]) > 0.0
    ensures BalanceAfter(fund) == BalanceAfter(fund[..k]) <==> forall j :: k <= j < |fund| ==> fund[j].status == Open
  {
    hide Tame, BalanceAfter, ClosedForm, Power, Count;
    var w, l := Count(fund[..k], TpHit), Count(fund[..k], SlHit);
    var x, y := Count(fund, TpHit) - w, Count(fund, SlHit) - l;
    CountSplit(fund, k, TpHit);
    CountSplit(fund, k, SlHit);
    BalanceClosedForm(fund);
    BalanceClosedForm(fund[..k]);
    ClosedFormSplit(w, l, x, y);
    WinsAndLossesNeverCancel(x, y);
    var b, m := ClosedForm(w, l), Power(1.02, x) * Power(0.99, y);
    if b * m == b {
      QuotientUnique(b, b, m);
      QuotientUnique(b, b, 1.0);
    }
    assert b * 1.0 == b;
    forall j | k <= j < |fund| ensures fund[j].status == Open <==> fund[j].status != TpHit && fund[j].status != SlHit {
      NeverExpired(fund[j]);
    }
  }

  lemma NeverExpired(row: Row)
    requires Tame(row)
    ensures row.status != Expired
  {
    hide StopLevel, TargetLevel;
  }

  // ---------------------------------------------------------------- settled row by row

  lemma SettledPointwise(fund: Fund)
    ensures Settled(fund) <==> forall j :: 0 <= j < |fund| ==> fund[j] == ReplayRow(fund[j], BalanceAfter(fund[..j]))
  {
    hide ReplayRow, BalanceAfter;
    forall j | 0 <= j < |fund| ensures Replayed(fund)[j] == ReplayRow(fund[j], BalanceAfter(fund[..j])) {
      ReplayedAt(fund, j);
    }
  }

  lemma SettledAt(fund: Fund, j: nat)
    requires Settled(fund) && j < |fund|
    ensures fund[j] == ReplayRow(fund[j], BalanceAfter(fund[..j]))
  {
    hide ReplayRow, BalanceAfter;
    SettledPointwise(fund);
  }

  lemma SettledRealizes(fund: Fund)
    requires Settled(fund) && AllTameRows(fund)
    ensures RealizedBalance(fund) == BalanceAfter(fund)
  {
    TamePassesNothing(fund);
    SettledBalance(fund);
  }

  /** A row that is open or passed over leaves the balance alone. */
  lemma QuietRow(row: Row, balance: real)
    requires row.status == Open || !Usable(row)
    ensures NextBalance(row, balance) == balance
  {
    hide ReplayedPnl;
  }

  lemma PassedOverRow(row: Row, balance: real)
    requires !Usable(row)
    ensures ReplayRow(row, balance) == row
  {
  }

  lemma BalanceStep(fund: Fund, j: nat)
    requires j < |fund|
    ensures BalanceAfter(fund[..j + 1]) == NextBalance(fund[j], BalanceAfter(fund[..j]))
  {
    assert fund[..j + 1][..j] == fund[..j];
  }

  lemma {:induction false} QuietStretch(fund: Fund, i: nat, j: nat)
    requires i <= j <= |fund| && forall k :: i <= k < j ==> fund[k].status == Open || !Usable(fund[k])
    ensures BalanceAfter(fund[..j]) == BalanceAfter(fund[..i])
    decreases j
  {
    hide NextBalance;
    if i < j {
      QuietStretch(fund, i, j - 1);
      BalanceStep(fund, j - 1);
      QuietRow(fund[j - 1], BalanceAfter(fund[..j - 1]));
    }
  }

  // ---------------------------------------------------------------- a new trade

  function Inserted(fund: Fund, k: nat, row: Row): Fund
    requires k <= |fund|
  {
    fund[..k] + [row] + fund[k..]
  }

  lemma {:induction false} InsertedBalance(fund: Fund, k: nat, row: Row, j: nat)
    requires k <= j <= |fund| && row.status == Open
    ensures BalanceAfter(Inserted(fund, k, row)[..j + 1]) == BalanceAfter(fund[..j])
    decreases j
  {
    hide NextBalance;
    var longer := Inserted(fund, k, row);
    BalanceStep(longer, j);
    if j == k {
      assert longer[..k] == fund[..k];
      QuietRow(row, BalanceAfter(fund[..k]));
    } else {
      InsertedBalance(fund, k, row, j - 1);
      BalanceStep(fund, j - 1);
    }
  }

  /** A new row is in replayed form exactly at the balance it was sized on, or when it is passed over. */
  lemma NewRowAgreesIff(s: Signal, sized: real, balance: real)
    ensures ReplayRow(NewRow(s, sized), balance) == NewRow(s, sized) <==> s.entry <= 0.0 || sized == balance
  {
    if s.entry > 0.0 {
      if sized == balance {
        NewRowAgrees(s, balance);
      } else {
        NewRowSizes(s, sized, balance);
      }
    }
  }

  lemma NewRowSizes(s: Signal, sized: real, balance: real)
    requires s.entry > 0.0 && sized != balance
    ensures ReplayRow(NewRow(s, sized), balance) != NewRow(s, sized)
  {
    hide StopLevel, TargetLevel, PositionSize, SizeFor, ReplayedPnl;
  }

  /** A signal saved into a settled fund at its place in time leaves it settled exactly when it is passed
      over by the replay, or no trade after it in time is closed. */
  lemma SaveAgreesIff(fund: Fund, k: nat, s: Signal)
    requires Settled(fund) && AllTameRows(fund) && k <= |fund|
    ensures Settled(Inserted(fund, k, NewRow(s, RealizedBalance(fund)))) <==>
      s.entry <= 0.0 || forall j :: k <= j < |fund| ==> fund[j].status == Open
  {
    hide Tame, ReplayRow, BalanceAfter, NewRow, RealizedBalance, Replayed, Settled;
    var row := NewRow(s, RealizedBalance(fund));
    var longer := Inserted(fund, k, row);
    SettledRealizes(fund);
    BalanceMoved(fund, k);
    NewRowAgreesIff(s, RealizedBalance(fund), BalanceAfter(fund[..k]));
    NewRowIsOpen(s, RealizedBalance(fund));
    SettledPointwise(fund);
    SettledPointwise(longer);
    assert longer[..k] == fund[..k];
    forall j | 0 <= j < k ensures longer[j] == fund[j] && longer[..j] == fund[..j] {
    }
    forall j | k < j < |longer| ensures longer[j] == fund[j - 1] && BalanceAfter(longer[..j]) == BalanceAfter(fund[..j - 1]) {
      InsertedBalance(fund, k, row, j - 1);
    }
    InsertedPointwise(fund, k, row);
  }

  lemma NewRowIsOpen(s: Signal, balance: real)
    ensures NewRow(s, balance).status == Open
  {
  }

  lemma InsertedPointwise(fund: Fund, k: nat, row: Row)
    requires k <= |fund|
    requires forall j :: 0 <= j < |fund| ==> fund[j] == ReplayRow(fund[j], BalanceAfter(fund[..j]))
    requires var longer := Inserted(fund, k, row);
      forall j :: k < j < |longer| ==> BalanceAfter(longer[..j]) == BalanceAfter(fund[..j - 1])
    ensures var longer := Inserted(fund, k, row);
      (forall j :: 0 <= j < |longer| ==> longer[j] == ReplayRow(longer[j], BalanceAfter(longer[..j])))
      <==> row == ReplayRow(row, BalanceAfter(fund[..k]))
  {
    hide ReplayRow, BalanceAfter;
    var longer := Inserted(fund, k, row);
    assert longer[..k] == fund[..k] && longer[k] == row;
    forall j | 0 <= j < |longer| && j != k ensures longer[j] == ReplayRow(longer[j], BalanceAfter(longer[..j])) {
      if j < k {
        assert longer[j] == fund[j] && longer[..j] == fund[..j];
      } else {
        assert longer[j] == fund[j - 1];
      }
    }
  }

  // ---------------------------------------------------------------- a mark

  /** The fund after the open trade at position i was marked at a market price. */
  function MarkStep(fund: Fund, i: nat, price: real): Fund
    requires i < |fund| && fund[i].entry > 0.0
  {
    var mark := Mark(fund[i], price);
    fund[i := MarkedRow(fund[i], ClosedPnl(fund), mark.1, mark.2, mark.0)]
  }

  /** How a round of marks may change a fund: closed trades were open, all others act on the balance as before;
      what a trade was sized on stays. */
  ghost predicate Remarked(before: Fund, after: Fund, closing: set<nat>) {
    && |before| == |after|
    && (forall k :: 0 <= k < |before| ==> Usable(after[k]) == Usable(before[k]) && after[k].riskAmount == before[k].riskAmount)
    && (forall k :: 0 <= k < |before| && k !in closing ==> SameEffect(before[k], after[k]))
    && (forall k :: k in closing ==> k < |before| && before[k].status == Open && Usable(before[k])
                                     && after[k].status in {SlHit, TpHit} && Tame(after[k]))
  }

  ghost predicate SameEffect(a: Row, b: Row) {
    a == b || (a.status == Open && b.status == Open)
  }

  lemma {:induction false} SameBalance(before: Fund, after: Fund, n: nat)
    requires n <= |before| == |after| && forall k :: 0 <= k < n ==> SameEffect(before[k], after[k])
    ensures BalanceAfter(before[..n]) == BalanceAfter(after[..n])
    decreases n
  {
    hide NextBalance;
    if n > 0 {
      SameBalance(before, after, n - 1);
      BalanceStep(before, n - 1);
      BalanceStep(after, n - 1);
      if before[n - 1] != after[n - 1] {
        QuietRow(before[n - 1], BalanceAfter(before[..n - 1]));
        QuietRow(after[n - 1], BalanceAfter(after[..n - 1]));
      }
    }
  }

  lemma {:induction false} LeastOf(s: set<nat>) returns (i: nat)
    requires s != {}
    ensures i in s && forall k :: k in s ==> i <= k
  {
    i := Pick(s);
    var rest := s - {i};
    assert forall k :: k in s ==> k == i || k in rest;
    if rest != {} {
      var j := LeastOf(rest);
      if j < i { i := j; }
    }
  }

  lemma RiskOfRow(row: Row, balance: real)
    requires Usable(row) && row == ReplayRow(row, balance)
    ensures row.riskAmount == Some(RiskOf(balance))
  {
    hide SizeFor, ReplayedPnl, NextBalance;
  }

  lemma ClosingMoves(row: Row, balance: real)
    requires Tame(row) && Usable(row) && row.status in {SlHit, TpHit} && balance > 0.0
    ensures RiskOf(NextBalance(row, balance)) != RiskOf(balance)
  {
    TameStep(row, balance);
  }

  /** One closing with a usable trade behind it, and the fund is no longer settled. */
  lemma LaterTradeBreaks(before: Fund, after: Fund, closing: set<nat>, i: nat, j: nat)
    requires Settled(before) && AllTameRows(before) && Remarked(before, after, closing)
    requires i in closing && i < j < |before| && Usable(before[j])
    ensures !Settled(after)
  {
    hide Tame, ReplayRow, NextBalance, BalanceAfter, Usable, RiskOf;
    var first := LeastOf(closing);
    var later := set k: nat | first < k < |before| && Usable(before[k]);
    assert j in later && forall k: nat :: first < k < |before| && Usable(before[k]) ==> k in later;
    var next := LeastOf(later);
    BreaksAt(before, after, closing, first, next);
  }

  lemma BreaksAt(before: Fund, after: Fund, closing: set<nat>, first: nat, next: nat)
    requires Settled(before) && AllTameRows(before) && Remarked(before, after, closing)
    requires first in closing && forall k :: k in closing ==> first <= k
    requires first < next < |before| && Usable(before[next]) && forall k :: first < k < next ==> !Usable(before[k])
    ensures !Settled(after)
  {
    hide Tame, ReplayRow, NextBalance, BalanceAfter, Usable, RiskOf;
    if Settled(after) {
      SameBalance(before, after, first);
      BalanceMoved(before, first);
      QuietStretch(before, first, next);
      BalanceStep(after, first);
      QuietStretch(after, first + 1, next);
      SettledAt(before, next);
      SettledAt(after, next);
      RiskOfRow(before[next], BalanceAfter(before[..next]));
      RiskOfRow(after[next], BalanceAfter(after[..next]));
      ClosingMoves(after[first], BalanceAfter(after[..first]));
    }
  }

  lemma MarkRemarks(fund: Fund, i: nat, price: real)
    requires AllTameRows(fund) && i < |fund| && fund[i].entry > 0.0 && fund[i].status == Open
    ensures Remarked(fund, MarkStep(fund, i, price), if Mark(fund[i], price).0 == Open then {} else {i})
    ensures AllTameRows(MarkStep(fund, i, price))
  {
    hide Tame, Mark;
    MarkedIsTame(fund[i], ClosedPnl(fund), price);
    MarkIsExact(fund[i], price);
  }

  /** Marking an open trade of a settled fund leaves it settled exactly when the trade stays open, or no trade
      after it in time takes part in the replay. */
  lemma MarkAgreesIff(fund: Fund, i: nat, price: real)
    requires Settled(fund) && AllTameRows(fund) && i < |fund| && fund[i].entry > 0.0 && fund[i].status == Open
    ensures Settled(MarkStep(fund, i, price)) <==>
      Mark(fund[i], price).0 == Open || forall j :: i < j < |fund| ==> !Usable(fund[j])
  {
    hide Tame, Mark, MarkStep, Usable, Remarked;
    MarkRemarks(fund, i, price);
    if Mark(fund[i], price).0 != Open && exists j :: i < j < |fund| && Usable(fund[j]) {
      var j :| i < j < |fund| && Usable(fund[j]);
      LaterTradeBreaks(fund, MarkStep(fund, i, price), {i}, i, j);
    } else {
      MarkSettles(fund, i, price);
    }
  }

  lemma MarkSettles(fund: Fund, i: nat, price: real)
    requires Settled(fund) && AllTameRows(fund) && i < |fund| && fund[i].entry > 0.0 && fund[i].status == Open
    requires Mark(fund[i], price).0 == Open || forall j :: i < j < |fund| ==> !Usable(fund[j])
    ensures Settled(MarkStep(fund, i, price))
  {
    hide Tame, Mark, ReplayRow, BalanceAfter, Usable, MarkedRow, PnlPct, RealizedBalance, Replayed;
    var mark := Mark(fund[i], price);
    var marked := MarkedRow(fund[i], ClosedPnl(fund), mark.1, mark.2, mark.0);
    MarkedIsTame(fund[i], ClosedPnl(fund), price);
    SettledAt(fund, i);
    MarkAgrees(fund[i], BalanceAfter(fund[..i]), ClosedPnl(fund), mark.1, mark.0);
    if mark.0 == Open {
      MarkKeepsOpen(fund[i], ClosedPnl(fund), mark.1, mark.2);
    } else {
      RealizedUntil(fund, i);
    }
    ReplacedSettles(fund, i, marked);
  }

  /** Behind position i nothing moved the balance, so what is realized in all is what the replay has seen there. */
  lemma RealizedUntil(fund: Fund, i: nat)
    requires Settled(fund) && AllTameRows(fund) && i < |fund| && fund[i].status == Open
    requires forall j :: i < j < |fund| ==> !Usable(fund[j])
    ensures START_BALANCE + ClosedPnl(fund) == BalanceAfter(fund[..i])
  {
    hide Tame, BalanceAfter, Usable, Replayed, ClosedPnl;
    SettledRealizes(fund);
    QuietStretch(fund, i, |fund|);
    assert fund[..|fund|] == fund;
  }

  lemma ReplacedSettles(fund: Fund, i: nat, row: Row)
    requires Settled(fund) && i < |fund| && fund[i].status == Open && row == ReplayRow(row, BalanceAfter(fund[..i]))
    requires row.status == Open || forall j :: i < j < |fund| ==> !Usable(fund[j])
    ensures Settled(fund[i := row])
  {
    hide ReplayRow, BalanceAfter, Usable, Replayed;
    var after := fund[i := row];
    SettledPointwise(fund);
    forall j | 0 <= j < |after| ensures after[j] == ReplayRow(after[j], BalanceAfter(after[..j])) {
      if j <= i {
        assert after[..j] == fund[..j];
      } else if row.status == Open {
        SameBalance(fund, after, j);
      } else {
        PassedOverRow(after[j], BalanceAfter(after[..j]));
      }
    }
    SettledPointwise(after);
  }

  lemma MarkKeepsOpen(row: Row, others: real, price: real, pct: real)
    requires row.status == Open
    ensures MarkedRow(row, others, price, pct, Open).status == Open
  {
  }

  /** With a later trade in the fund, every closing makes the stored fund differ from its replay. */
  lemma OverlapDisagrees(fund: Fund, i: nat, j: nat, price: real)
    requires Settled(fund) && AllTameRows(fund) && i < j < |fund| && Usable(fund[i]) && Usable(fund[j])
    requires fund[i].status == Open && Mark(fund[i], price).0 != Open
    ensures !Settled(MarkStep(fund, i, price))
  {
    hide Tame, Mark, MarkStep;
    MarkAgreesIff(fund, i, price);
  }

  /** Any two trades open from the start are such a fund: when the first reaches its target, they part. */
  lemma OverlapFromStart(s: Signal, u: Signal)
    requires s.entry > 0.0 && u.entry > 0.0
    ensures var fund := [NewRow(s, START_BALANCE), NewRow(u, START_BALANCE)];
      Settled(fund) && !Settled(MarkStep(fund, 0, TargetLevel(s.side, s.entry)))
  {
    hide Tame, StopLevel, TargetLevel, MarkStep, Settled, PositionSize, PnlPct;
    var fund := [NewRow(s, START_BALANCE), NewRow(u, START_BALANCE)];
    TwoOpenTrades(s, u);
    NewRowIsTame(s, START_BALANCE);
    NewRowIsTame(u, START_BALANCE);
    OverlapDisagrees(fund, 0, 1, TargetLevel(s.side, s.entry));
  }
}
