/** Exactly when the table of paper trades, as saves and rounds of marks leave it, is what a replay would write. */
module TableAgreement {
  import opened Prelude
  import opened PaperLedger
  import opened PaperWrites
  import opened FundAgreement
  import opened StrategyLab

  /** A replay of the strategy in this time order would change nothing. */
  ghost predicate Agrees(t: Table, order: seq<string>) {
    (forall i :: 0 <= i < |order| ==> order[i] in t) && Settled(FundOf(t, order))
  }

  lemma FundIsTame(t: Table, strategy: string, order: seq<string>)
    requires AllTame(t) && InTimeOrder(t, strategy, order)
    ensures AllTameRows(FundOf(t, order))
  {
    hide Tame;
  }

  /** Every write starts from a table that agrees: the initialization before it has just replayed each strategy. */
  lemma InitializedAgrees(before: Table, held: Table, strategy: string)
    requires Initialized(before, held)
    ensures exists order :: InTimeOrder(held, strategy, order) && Agrees(held, order)
  {
    hide Replayed, WithLevels;
    var levelled := WithLevels(before);
    assert ReplayedFor(levelled, held, strategy);
    var order :| InTimeOrder(levelled, strategy, order) && FundOf(held, order) == Replayed(FundOf(levelled, order));
    OrderSurvives(levelled, held, strategy, order);
    ReplayIdempotent(FundOf(levelled, order));
    assert InTimeOrder(held, strategy, order) && Agrees(held, order);
  }

  // ---------------------------------------------------------------- a save

  /** The order without its k-th row. */
  function Rest(order: seq<string>, k: nat): (rest: seq<string>)
    requires k < |order|
    ensures |rest| == |order| - 1
    ensures forall i :: 0 <= i < |rest| ==> rest[i] == order[if i < k then i else i + 1]
  {
    order[..k] + order[k + 1..]
  }

  lemma RestHasOthers(order: seq<string>, k: nat, id: string)
    requires k < |order| && id in order && id != order[k]
    ensures id in Rest(order, k)
  {
    hide Rest;
    var i :| 0 <= i < |order| && order[i] == id;
    assert Rest(order, k)[if i < k then i else i - 1] == id;
  }

  lemma RestInOrder(t: Table, s: Signal, row: Row, order: seq<string>, k: nat)
    requires s.id !in t && row.strategy == s.strategy && InTimeOrder(t[s.id := row], s.strategy, order) && k < |order| && order[k] == s.id
    ensures InTimeOrder(t, s.strategy, Rest(order, k))
  {
    hide Rest;
    var after, rest := t[s.id := row], Rest(order, k);
    forall i | 0 <= i < |rest| ensures rest[i] in t && t[rest[i]].strategy == s.strategy {
      assert rest[i] != s.id;
      assert rest[i] in after;
    }
    forall id | id in t && t[id].strategy == s.strategy ensures id in rest {
      assert id in after && after[id].strategy == s.strategy;
      RestHasOthers(order, k, id);
    }
    forall i, j | 0 <= i < j < |rest| ensures rest[i] != rest[j] && t[rest[i]].time <= t[rest[j]].time {
      assert rest[i] in after && rest[j] in after;
    }
  }

  lemma RestFund(t: Table, s: Signal, row: Row, order: seq<string>, k: nat)
    requires k < |order| && order[k] == s.id && forall i :: 0 <= i < |Rest(order, k)| ==> Rest(order, k)[i] in t && Rest(order, k)[i] != s.id
    ensures forall i :: 0 <= i < |order| ==> order[i] in t[s.id := row]
    ensures FundOf(t[s.id := row], order) == Inserted(FundOf(t, Rest(order, k)), k, row)
  {
    hide Rest;
    var after, rest := t[s.id := row], Rest(order, k);
    forall i | 0 <= i < |order| ensures order[i] in after && after[order[i]] == Inserted(FundOf(t, rest), k, row)[i] {
      if i < k { assert rest[i] == order[i]; } else if i > k { assert rest[i - 1] == order[i]; }
    }
  }

  /** Saving a new signal, with the fund's rows in any time order that agreed before: the table agrees exactly
      when the replay passes the signal over or no trade behind it in that order is closed. */
  lemma SaveAgrees(held: Table, s: Signal, order: seq<string>, k: nat)
    requires AllTame(held) && s.id !in held && s.entry != 0.0
    requires InTimeOrder(Saved(held, s), s.strategy, order) && k < |order| && order[k] == s.id
    requires Agrees(held, Rest(order, k))
    ensures Agrees(Saved(held, s), order) <==>
      s.entry < 0.0 || forall j :: k < j < |order| ==> Saved(held, s)[order[j]].status == Open
  {
    hide Tame, NewRow, Settled, RealizedBalance, Inserted, TimeOrder, InTimeOrder, FundOf, Rest;
    var rest := Rest(order, k);
    var row := NewRow(s, RealizedBalance(FundIn(held, s.strategy)));
    NewRowStrategy(s, RealizedBalance(FundIn(held, s.strategy)));
    RestInOrder(held, s, row, order, k);
    OrderedRowsExist(held, s.strategy, rest);
    RestFund(held, s, row, order, k);
    FundIsTame(held, s.strategy, rest);
    SameRealized(held, s.strategy, rest, TimeOrder(held, s.strategy));
    SaveAgreesIff(FundOf(held, rest), k, s);
    forall j | k < j < |order| ensures FundOf(held, rest)[j - 1] == Saved(held, s)[order[j]] {
      assert rest[j - 1] == order[j];
      FundAt(held, rest, j - 1);
    }
    LaterOpen(held, s, order, k);
  }

  lemma LaterOpen(held: Table, s: Signal, order: seq<string>, k: nat)
    requires s.id !in held && s.entry != 0.0 && k < |order| && forall i :: 0 <= i < |Rest(order, k)| ==> Rest(order, k)[i] in held
    requires forall i :: 0 <= i < |order| ==> order[i] in Saved(held, s)
    requires var fund := FundOf(held, Rest(order, k));
      forall j :: k < j < |order| ==> fund[j - 1] == Saved(held, s)[order[j]]
    ensures var fund := FundOf(held, Rest(order, k));
      (forall i :: k <= i < |fund| ==> fund[i].status == Open) <==> forall j :: k < j < |order| ==> Saved(held, s)[order[j]].status == Open
  {
    hide Rest, FundOf, Saved;
    var fund := FundOf(held, Rest(order, k));
    if forall j :: k < j < |order| ==> Saved(held, s)[order[j]].status == Open {
      forall i | k <= i < |fund| ensures fund[i].status == Open {
        assert fund[i + 1 - 1] == Saved(held, s)[order[i + 1]];
      }
    }
  }

  lemma SameRealized(t: Table, strategy: string, a: seq<string>, b: seq<string>)
    requires InTimeOrder(t, strategy, a) && InTimeOrder(t, strategy, b)
    ensures RealizedBalance(FundOf(t, a)) == RealizedBalance(FundOf(t, b))
  {
    hide FundOf;
    OrdersAgree(t, strategy, a, b, Open);
  }

  lemma NewRowStrategy(s: Signal, balance: real)
    ensures NewRow(s, balance).strategy == s.strategy && NewRow(s, balance).time == s.time && NewRow(s, balance).status == Open
  {
  }

  // ---------------------------------------------------------------- a round of marks

  /** The round closes this trade. */
  predicate Closes(row: Row, prices: map<string, real>) {
    Marks(row, prices) && Mark(row, prices[row.symbol]).0 != Open
  }

  /** How a round leaves one row. */
  ghost predicate RowMarked(a: Row, b: Row, prices: map<string, real>) {
    && b.strategy == a.strategy && b.time == a.time && Usable(b) == Usable(a) && b.riskAmount == a.riskAmount
    && (if Marks(a, prices) then b.status == Mark(a, prices[a.symbol]).0 else b == a)
  }

  lemma MarkedRowFacts(row: Row, others: real, prices: map<string, real>)
    requires Marks(row, prices)
    ensures var mark := Mark(row, prices[row.symbol]);
      RowMarked(row, MarkedRow(row, others, mark.1, mark.2, mark.0), prices)
  {
    hide Mark, MarkPnl;
  }

  lemma {:induction false} VisitedRows(t: Table, prices: map<string, real>, visited: seq<string>)
    requires Visits(t, prices, visited)
    ensures forall id :: id in visited ==> id in t && RowMarked(t[id], MarkedInTurn(t, prices, visited)[id], prices)
    decreases |visited|
  {
    hide RowMarked, MarkedRow, Mark, Others;
    if visited != [] {
      var init, last := visited[..|visited| - 1], visited[|visited| - 1];
      assert visited == init + [last];
      VisitedRows(t, prices, init);
      var held := MarkedInTurn(t, prices, init);
      assert held[last] == t[last];
      MarkedRowFacts(t[last], Others(held, last), prices);
    }
  }

  lemma RoundRows(t: Table, prices: map<string, real>, visited: seq<string>)
    requires Visits(t, prices, visited) && NewestFirst(t, Marked(t, prices), visited)
    ensures var after := MarkedInTurn(t, prices, visited);
      after.Keys == t.Keys && forall id :: id in t ==> RowMarked(t[id], after[id], prices)
  {
    hide RowMarked, MarkedInTurn, Marks;
    VisitedRows(t, prices, visited);
    var after := MarkedInTurn(t, prices, visited);
    forall id | id in t ensures RowMarked(t[id], after[id], prices) {
      if id !in visited {
        assert id !in Marked(t, prices);
        UnmarkedRow(t[id], prices);
      }
    }
  }

  lemma UnmarkedRow(row: Row, prices: map<string, real>)
    requires !Marks(row, prices)
    ensures RowMarked(row, row, prices)
  {
  }

  lemma RoundKeepsOrder(t: Table, after: Table, prices: map<string, real>, strategy: string, order: seq<string>)
    requires after.Keys == t.Keys && forall id :: id in t ==> RowMarked(t[id], after[id], prices)
    ensures InTimeOrder(t, strategy, order) <==> InTimeOrder(after, strategy, order)
  {
    hide Usable, Marks, Mark;
    forall id | id in t ensures after[id].strategy == t[id].strategy && after[id].time == t[id].time {
      assert RowMarked(t[id], after[id], prices);
    }
  }

  /** One mark, seen by a fund in a given order. */
  lemma MarkedFund(t: Table, strategy: string, order: seq<string>, i: nat, price: real)
    requires InTimeOrder(t, strategy, order) && i < |order| && t[order[i]].status == Open && t[order[i]].entry > 0.0
    ensures FundOf(MarkedAt(t, order[i], price), order) == MarkStep(FundOf(t, order), i, price)
  {
    hide TimeOrder, MarkedRow, Mark;
    var id := order[i];
    OrdersAgree(t, strategy, order, TimeOrder(t, strategy), Open);
    OtherPnlOfOpen(t, order, id);
    assert FundOf(MarkedAt(t, id, price), order) == MarkStep(FundOf(t, order), i, price);
  }

  lemma {:induction false} OtherPnlOfOpen(t: Table, order: seq<string>, id: string)
    requires forall i :: 0 <= i < |order| ==> order[i] in t
    requires id in t && t[id].status == Open
    ensures OtherPnl(t, order, id) == ClosedPnl(FundOf(t, order))
    decreases |order|
  {
    if order != [] {
      FundOfPrefix(t, order, |order| - 1);
      OtherPnlOfOpen(t, order[..|order| - 1], id);
    }
  }

  /** Every trade the round closes is the last one of its fund that takes part in the replay. */
  ghost predicate ClosesLast(t: Table, prices: map<string, real>, order: seq<string>)
    requires forall i :: 0 <= i < |order| ==> order[i] in t
  {
    forall i, j :: 0 <= i < j < |order| && Closes(t[order[i]], prices) ==> !Usable(t[order[j]])
  }

  lemma {:induction false} RoundSettles(t: Table, prices: map<string, real>, visited: seq<string>, strategy: string, order: seq<string>)
    requires AllTame(t) && Visits(t, prices, visited) && InTimeOrder(t, strategy, order) && Settled(FundOf(t, order))
    requires ClosesLast(t, prices, order)
    ensures Settled(FundOf(MarkedInTurn(t, prices, visited), order))
    decreases |visited|
  {
    hide Tame, Usable, Marks, MarkedAt, Settled;
    if visited != [] {
      var init, id := visited[..|visited| - 1], visited[|visited| - 1];
      var held := MarkedInTurn(t, prices, init);
      RoundSettles(t, prices, init, strategy, order);
      SettlesNext(t, held, prices, init, strategy, order, id);
    }
  }

  lemma MarkSettlesAt(t: Table, strategy: string, order: seq<string>, i: nat, price: real)
    requires InTimeOrder(t, strategy, order) && AllTameRows(FundOf(t, order)) && Settled(FundOf(t, order))
    requires i < |order| && t[order[i]].status == Open && t[order[i]].entry > 0.0
    requires Mark(t[order[i]], price).0 == Open || forall j :: i < j < |order| ==> !Usable(t[order[j]])
    ensures Settled(FundOf(MarkedAt(t, order[i], price), order))
  {
    hide Tame, Usable, Mark, MarkedAt, MarkStep, Settled, AllTameRows, InTimeOrder;
    OrderedRowsExist(t, strategy, order);
    MarkedFund(t, strategy, order, i, price);
    MarkAgreesIff(FundOf(t, order), i, price);
  }

  lemma SettlesNext(t: Table, held: Table, prices: map<string, real>, init: seq<string>, strategy: string, order: seq<string>, id: string)
    requires AllTame(t) && Visits(t, prices, init) && held == MarkedInTurn(t, prices, init)
    requires InTimeOrder(t, strategy, order) && ClosesLast(t, prices, order)
    requires id in t && id !in init && Marks(t[id], prices) && Settled(FundOf(held, order))
    ensures Settled(FundOf(MarkedAt(held, id, prices[t[id].symbol]), order))
  {
    hide Tame, Usable, MarkedInTurn, Mark, MarkedRow, Others, Settled;
    assert held[id] == t[id];
    MarksStayTame(t, prices, init);
    HeldRows(t, held, prices, init);
    SameOrder(t, held, strategy, order);
    FundIsTame(held, strategy, order);
    if id in order {
      var i :| 0 <= i < |order| && order[i] == id;
      if Mark(t[id], prices[t[id].symbol]).0 != Open {
        assert Closes(t[order[i]], prices);
        forall j | i < j < |order| ensures !Usable(held[order[j]]) {
          assert !Usable(t[order[j]]);
        }
      }
      MarkSettlesAt(held, strategy, order, i, prices[t[id].symbol]);
    } else {
      assert FundOf(MarkedAt(held, id, prices[t[id].symbol]), order) == FundOf(held, order);
    }
  }

  lemma HeldRows(t: Table, held: Table, prices: map<string, real>, init: seq<string>)
    requires Visits(t, prices, init) && held == MarkedInTurn(t, prices, init)
    ensures held.Keys == t.Keys
    ensures forall id :: id in t ==> held[id].strategy == t[id].strategy && held[id].time == t[id].time && Usable(held[id]) == Usable(t[id])
  {
    hide MarkedInTurn, Usable, Mark, Marks;
    VisitedRows(t, prices, init);
    forall id | id in t
      ensures held[id].strategy == t[id].strategy && held[id].time == t[id].time && Usable(held[id]) == Usable(t[id])
    {
      if id in init { assert RowMarked(t[id], held[id], prices); }
    }
  }

  lemma SameOrder(t: Table, held: Table, strategy: string, order: seq<string>)
    requires InTimeOrder(t, strategy, order) && held.Keys == t.Keys
    requires forall id :: id in t ==> held[id].strategy == t[id].strategy && held[id].time == t[id].time
    ensures InTimeOrder(held, strategy, order)
  {
  }

  /** A round of marks, with the fund's rows in any time order that agreed before: the table agrees exactly
      when each trade the round closes is the last of its fund that takes part in the replay. */
  lemma RoundAgrees(held: Table, prices: map<string, real>, visited: seq<string>, strategy: string, order: seq<string>)
    requires AllTame(held) && Visits(held, prices, visited) && NewestFirst(held, Marked(held, prices), visited)
    requires InTimeOrder(held, strategy, order) && Agrees(held, order)
    ensures Agrees(MarkedInTurn(held, prices, visited), order) <==> ClosesLast(held, prices, order)
  {
    hide Tame, Usable, Marks, MarkedInTurn, Settled, NewestFirst, Visits, RowMarked;
    if ClosesLast(held, prices, order) {
      RoundSettles(held, prices, visited, strategy, order);
    } else {
      var after := MarkedInTurn(held, prices, visited);
      var i, j :| 0 <= i < j < |order| && Closes(held[order[i]], prices) && Usable(held[order[j]]);
      var closing := set k: nat | k < |order| && Closes(held[order[k]], prices);
      RoundRows(held, prices, visited);
      MarksStayTame(held, prices, visited);
      FundIsTame(held, strategy, order);
      RoundRemarks(held, after, prices, order, closing);
      assert i in closing;
      LaterTradeBreaks(FundOf(held, order), FundOf(after, order), closing, i, j);
    }
  }

  lemma RoundRemarks(t: Table, after: Table, prices: map<string, real>, order: seq<string>, closing: set<nat>)
    requires after.Keys == t.Keys && forall id :: id in t ==> RowMarked(t[id], after[id], prices)
    requires AllTame(t) && AllTame(after) && forall i :: 0 <= i < |order| ==> order[i] in t
    requires closing == set k: nat | k < |order| && Closes(t[order[k]], prices)
    ensures Remarked(FundOf(t, order), FundOf(after, order), closing)
  {
    hide Mark, RowMarked, Tame, Usable;
    var a, b := FundOf(t, order), FundOf(after, order);
    forall k | 0 <= k < |order|
      ensures Usable(b[k]) == Usable(a[k]) && b[k].riskAmount == a[k].riskAmount
      ensures k !in closing ==> SameEffect(a[k], b[k])
      ensures k in closing ==> a[k].status == Open && Usable(a[k]) && b[k].status in {SlHit, TpHit} && Tame(b[k])
    {
      assert RowMarked(t[order[k]], after[order[k]], prices);
      OneRemarked(t[order[k]], after[order[k]], prices);
    }
  }

  lemma OneRemarked(a: Row, b: Row, prices: map<string, real>)
    requires RowMarked(a, b, prices) && Tame(a) && Tame(b)
    ensures Usable(b) == Usable(a) && b.riskAmount == a.riskAmount
    ensures !Closes(a, prices) ==> SameEffect(a, b)
    ensures Closes(a, prices) ==> a.status == Open && Usable(a) && b.status in {SlHit, TpHit}
  {
    hide Mark, StopLevel, TargetLevel;
  }

  // ---------------------------------------------------------------- histories of one table

  datatype Write = Save(signal: Signal) | Round(prices: map<string, real>)

  ghost predicate RoundBy(held: Table, after: Table, prices: map<string, real>, visited: seq<string>) {
    NewestFirst(held, Marked(held, prices), visited) && Visits(held, prices, visited) && after == MarkedInTurn(held, prices, visited)
  }

  ghost predicate WrittenTo(held: Table, after: Table, e: Write) {
    match e
    case Save(s) => after == Saved(held, s)
    case Round(prices) => exists visited :: RoundBy(held, after, prices, visited)
  }

  /** The repository initializes, and then writes. */
  ghost predicate Writes(before: Table, after: Table, e: Write) {
    exists held :: Initialized(before, held) && WrittenTo(held, after, e)
  }

  /** The repository's two writing methods, on whatever table it holds. */
  method Perform(repository: StrategyLabRepository, e: Write)
    modifies repository
    ensures Writes(old(repository.rows), repository.rows, e)
  {
    hide Initialized, Saved;
    match e
    case Save(s) =>
      ghost var held;
      var created;
      created, held := repository.SaveSignal(s);
      assert WrittenTo(held, repository.rows, e);
    case Round(prices) =>
      ghost var held, visited;
      var updated;
      updated, held, visited := repository.MarkOpenSignals(prices);
      assert RoundBy(held, repository.rows, prices, visited);
      assert WrittenTo(held, repository.rows, e);
  }

  // ---------------------------------------------------------------- trades that do not overlap in signal time

  /** The signal is known already, or comes after every trade of its strategy, each of them closed or passed over. */
  ghost predicate Opens(t: Table, s: Signal) {
    s.id in t || forall id :: id in t && t[id].strategy == s.strategy ==>
      t[id].time < s.time && (t[id].status == Open ==> !Usable(t[id]))
  }

  ghost predicate NoTies(t: Table) {
    forall a, b :: a in t && b in t && a != b && t[a].strategy == t[b].strategy ==> t[a].time != t[b].time
  }

  /** An open trade that the replay sizes is the last such trade of its strategy. */
  ghost predicate OpenIsLast(t: Table) {
    forall a, b :: a in t && b in t && t[a].strategy == t[b].strategy && t[a].status == Open && Usable(t[a]) && t[a].time < t[b].time ==>
      !Usable(t[b])
  }

  ghost predicate AgreesThroughout(t: Table) {
    forall strategy, order :: InTimeOrder(t, strategy, order) ==> Agrees(t, order)
  }

  ghost predicate Sequential(t: Table) {
    AllTame(t) && AgreesThroughout(t) && NoTies(t) && OpenIsLast(t)
  }

  lemma LevelledTame(row: Row)
    requires Tame(row)
    ensures Levelled(row) == row
  {
    hide StopLevel, TargetLevel;
  }

  /** Initialization leaves such a table alone. */
  lemma InitializedSequential(t: Table, held: Table)
    requires AllTame(t) && AgreesThroughout(t) && Initialized(t, held)
    ensures held == t
  {
    hide Tame, Levelled, Replayed, ReplayRow;
    forall id | id in t ensures Levelled(t[id]) == t[id] {
      LevelledTame(t[id]);
    }
    assert WithLevels(t) == t;
    forall id | id in t ensures held[id] == t[id] {
      var strategy := t[id].strategy;
      assert ReplayedFor(t, held, strategy);
      var order :| InTimeOrder(t, strategy, order) && FundOf(held, order) == Replayed(FundOf(t, order));
      assert Agrees(t, order);
      var i :| 0 <= i < |order| && order[i] == id;
      assert FundOf(held, order)[i] == held[id] && FundOf(t, order)[i] == t[id];
    }
  }

  lemma SavedOtherFund(t: Table, s: Signal, row: Row, strategy: string, order: seq<string>)
    requires s.id !in t && row.strategy == s.strategy != strategy && InTimeOrder(t[s.id := row], strategy, order)
    ensures InTimeOrder(t, strategy, order) && FundOf(t[s.id := row], order) == FundOf(t, order)
  {
    forall i | 0 <= i < |order| ensures order[i] != s.id && order[i] in t && t[s.id := row][order[i]] == t[order[i]] {
      assert t[s.id := row][order[i]].strategy == strategy;
    }
    forall id | id in t && t[id].strategy == strategy ensures id in order {
      assert id in t[s.id := row];
    }
    assert FundOf(t[s.id := row], order) == FundOf(t, order);
  }

  lemma SaveStaysSequential(t: Table, s: Signal)
    requires Sequential(t) && Opens(t, s)
    ensures Sequential(Saved(t, s))
  {
    hide Tame, NewRow, Settled, RealizedBalance, TimeOrder, FundOf, Rest, Usable;
    if s.id !in t && s.entry != 0.0 {
      var row := NewRow(s, RealizedBalance(FundIn(t, s.strategy)));
      NewRowStrategy(s, RealizedBalance(FundIn(t, s.strategy)));
      NewRowIsTame(s, RealizedBalance(FundIn(t, s.strategy)));
      var after := t[s.id := row];
      forall strategy, order | InTimeOrder(after, strategy, order) ensures Agrees(after, order) {
        if strategy == s.strategy {
          SavedLast(t, s, order);
        } else {
          SavedOtherFund(t, s, row, strategy, order);
          assert Agrees(t, order);
        }
      }
    }
  }

  lemma SavedLast(t: Table, s: Signal, order: seq<string>)
    requires Sequential(t) && Opens(t, s) && s.id !in t && s.entry != 0.0
    requires InTimeOrder(Saved(t, s), s.strategy, order)
    ensures Agrees(Saved(t, s), order)
  {
    hide Tame, NewRow, Settled, RealizedBalance, TimeOrder, FundOf, Rest, Usable;
    var row := NewRow(s, RealizedBalance(FundIn(t, s.strategy)));
    NewRowStrategy(s, RealizedBalance(FundIn(t, s.strategy)));
    var after := t[s.id := row];
    assert s.id in after && after[s.id].strategy == s.strategy;
    var k :| 0 <= k < |order| && order[k] == s.id;
    NewIsLast(t, s, row, order, k);
    RestInOrder(t, s, row, order, k);
    assert Agrees(t, Rest(order, k));
    SaveAgrees(t, s, order, k);
  }

  /** Nothing stands behind a signal that is later than everything. */
  lemma NewIsLast(t: Table, s: Signal, row: Row, order: seq<string>, k: nat)
    requires s.id !in t && Opens(t, s) && row.strategy == s.strategy && row.time == s.time
    requires InTimeOrder(t[s.id := row], s.strategy, order) && k < |order| && order[k] == s.id
    ensures k == |order| - 1
  {
    hide Usable;
    var after := t[s.id := row];
    forall i | 0 <= i < |order| && i != k ensures after[order[i]].time < after[order[k]].time {
      assert order[i] in t && t[order[i]].strategy == s.strategy;
    }
    assert order[|order| - 1] in after;
  }

  lemma RoundStaysSequential(t: Table, after: Table, prices: map<string, real>, visited: seq<string>)
    requires Sequential(t) && RoundBy(t, after, prices, visited)
    ensures Sequential(after)
  {
    hide Tame, Settled, MarkedInTurn, Visits, NewestFirst, RowMarked, Usable, Marks, ClosesLast;
    RoundRows(t, prices, visited);
    MarksStayTame(t, prices, visited);
    forall strategy, order | InTimeOrder(after, strategy, order) ensures Agrees(after, order) {
      RoundKeepsOrder(t, after, prices, strategy, order);
      assert Agrees(t, order);
      SequentialClosesLast(t, prices, strategy, order);
      RoundAgrees(t, prices, visited, strategy, order);
    }
    RoundKeepsShape(t, after, prices);
  }

  lemma SequentialClosesLast(t: Table, prices: map<string, real>, strategy: string, order: seq<string>)
    requires AllTame(t) && NoTies(t) && OpenIsLast(t) && InTimeOrder(t, strategy, order)
    ensures ClosesLast(t, prices, order)
  {
    hide Tame, Mark, Usable;
    forall i, j | 0 <= i < j < |order| && Closes(t[order[i]], prices) ensures !Usable(t[order[j]]) {
      OpenTameUsable(t[order[i]]);
      assert t[order[i]].time != t[order[j]].time;
    }
  }

  lemma OpenTameUsable(row: Row)
    requires Tame(row)
    ensures row.entry > 0.0 ==> Usable(row)
  {
    hide StopLevel, TargetLevel;
  }

  lemma RoundKeepsShape(t: Table, after: Table, prices: map<string, real>)
    requires NoTies(t) && OpenIsLast(t) && after.Keys == t.Keys && forall id :: id in t ==> RowMarked(t[id], after[id], prices)
    ensures NoTies(after) && OpenIsLast(after)
  {
    hide Usable, Mark, RowMarked;
    forall id | id in t
      ensures after[id].strategy == t[id].strategy && after[id].time == t[id].time && Usable(after[id]) == Usable(t[id])
      ensures after[id].status == Open ==> t[id].status == Open
    {
      assert RowMarked(t[id], after[id], prices);
      MarkedFacts(t[id], after[id], prices);
    }
  }

  lemma MarkedFacts(a: Row, b: Row, prices: map<string, real>)
    requires RowMarked(a, b, prices)
    ensures b.strategy == a.strategy && b.time == a.time && Usable(b) == Usable(a) && (b.status == Open ==> a.status == Open)
  {
    hide Usable, Mark;
  }

  // ---------------------------------------------------------------- the exact condition, in signal times

  /** Rows of the table at increasing times. */
  ghost predicate Increasing(t: Table, a: seq<string>) {
    && (forall i :: 0 <= i < |a| ==> a[i] in t)
    && (forall i, j :: 0 <= i < j < |a| ==> t[a[i]].time < t[a[j]].time)
  }

  lemma SameLast(t: Table, a: seq<string>, b: seq<string>)
    requires Increasing(t, a) && Increasing(t, b) && a != [] && b != [] && a[|a| - 1] in b && b[|b| - 1] in a
    ensures a[|a| - 1] == b[|b| - 1]
  {
    var i :| 0 <= i < |a| && a[i] == b[|b| - 1];
    var j :| 0 <= j < |b| && b[j] == a[|a| - 1];
  }

  lemma WithoutLast(t: Table, a: seq<string>, id: string)
    requires Increasing(t, a) && a != []
    ensures Increasing(t, a[..|a| - 1])
    ensures id in a[..|a| - 1] <==> id in a && id != a[|a| - 1]
  {
    assert a == a[..|a| - 1] + [a[|a| - 1]];
  }

  /** Without ties a strategy has one time order. */
  lemma {:induction false} StrictOrderUnique(t: Table, a: seq<string>, b: seq<string>)
    requires Increasing(t, a) && Increasing(t, b) && forall id :: id in a <==> id in b
    ensures a == b
    decreases |a|
  {
    hide Increasing;
    if a != [] { assert a[0] in b; }
    if b != [] { assert b[0] in a; }
    if a != [] && b != [] {
      var ia, ib := a[..|a| - 1], b[..|b| - 1];
      assert a[|a| - 1] in b && b[|b| - 1] in a;
      SameLast(t, a, b);
      forall id ensures id in ia <==> id in ib {
        WithoutLast(t, a, id);
        WithoutLast(t, b, id);
      }
      WithoutLast(t, a, "");
      WithoutLast(t, b, "");
      StrictOrderUnique(t, ia, ib);
      assert a == ia + [a[|a| - 1]] && b == ib + [b[|b| - 1]];
    }
  }

  lemma OneOrder(t: Table, strategy: string, a: seq<string>, b: seq<string>)
    requires NoTies(t) && InTimeOrder(t, strategy, a) && InTimeOrder(t, strategy, b)
    ensures a == b
  {
    StrictOrderUnique(t, a, b);
  }

  /** After an initialization without ties, whatever the table was before, every strategy agrees. */
  lemma InitializedAgreesThroughout(before: Table, held: Table)
    requires Initialized(before, held) && NoTies(held)
    ensures AgreesThroughout(held)
  {
    hide Initialized, Agrees, InTimeOrder, NoTies;
    forall strategy, order | InTimeOrder(held, strategy, order) ensures Agrees(held, order) {
      InitializedAgrees(before, held, strategy);
      var used :| InTimeOrder(held, strategy, used) && Agrees(held, used);
      OneOrder(held, strategy, order, used);
    }
  }

  /** The saved signal lies, in signal time, behind no closed trade of its strategy, or the replay passes it over. */
  ghost predicate SavedInTime(t: Table, s: Signal) {
    s.id in t || s.entry <= 0.0
    || forall id :: id in t && t[id].strategy == s.strategy && t[id].time > s.time ==> t[id].status == Open
  }

  /** Every trade closed by the round is, in signal time, the last of its strategy that the replay sizes. */
  ghost predicate ClosedInTime(t: Table, prices: map<string, real>) {
    forall a, b :: a in t && b in t && t[a].strategy == t[b].strategy && Closes(t[a], prices) && t[a].time < t[b].time ==> !Usable(t[b])
  }

  lemma SaveAgreesInTime(t: Table, s: Signal)
    requires AllTame(t) && AgreesThroughout(t) && NoTies(Saved(t, s))
    ensures AgreesThroughout(Saved(t, s)) <==> SavedInTime(t, s)
  {
    hide Tame, AllTame, NewRow, Settled, RealizedBalance, TimeOrder, FundOf, Rest, NoTies, Agrees, InTimeOrder;
    if s.id !in t && s.entry != 0.0 {
      var row := NewRow(s, RealizedBalance(FundIn(t, s.strategy)));
      NewRowStrategy(s, RealizedBalance(FundIn(t, s.strategy)));
      var after := t[s.id := row];
      var order := TimeOrder(after, s.strategy);
      assert InTimeOrder(after, s.strategy, order);
      SavedOwnFund(t, s, row, order);
      forall strategy, other | InTimeOrder(after, strategy, other) ensures (strategy == s.strategy && other == order) || Agrees(after, other) {
        if strategy == s.strategy {
          OneOrder(after, strategy, other, order);
        } else {
          SavedOtherFund(t, s, row, strategy, other);
          assert Agrees(t, other);
          SameAgrees(t, after, strategy, other);
        }
      }
    }
  }

  lemma SameAgrees(t: Table, after: Table, strategy: string, order: seq<string>)
    requires InTimeOrder(t, strategy, order) && InTimeOrder(after, strategy, order) && FundOf(after, order) == FundOf(t, order) && Agrees(t, order)
    ensures Agrees(after, order)
  {
    hide Settled;
  }

  lemma SavedOwnFund(t: Table, s: Signal, row: Row, order: seq<string>)
    requires AllTame(t) && AgreesThroughout(t) && s.id !in t && s.entry != 0.0 && NoTies(t[s.id := row])
    requires row == NewRow(s, RealizedBalance(FundIn(t, s.strategy))) && row.strategy == s.strategy && row.time == s.time
    requires InTimeOrder(t[s.id := row], s.strategy, order)
    ensures Agrees(t[s.id := row], order) <==> SavedInTime(t, s)
  {
    hide Tame, AllTame, NewRow, Settled, RealizedBalance, TimeOrder, FundOf, Rest, Agrees;
    var after := t[s.id := row];
    assert s.id in after && after[s.id].strategy == s.strategy;
    var k :| 0 <= k < |order| && order[k] == s.id;
    RestInOrder(t, s, row, order, k);
    assert Agrees(t, Rest(order, k));
    SaveAgrees(t, s, order, k);
    BehindInTime(t, s, row, order, k);
  }

  lemma BehindInTime(t: Table, s: Signal, row: Row, order: seq<string>, k: nat)
    requires s.id !in t && row.strategy == s.strategy && row.time == s.time && NoTies(t[s.id := row])
    requires InTimeOrder(t[s.id := row], s.strategy, order) && k < |order| && order[k] == s.id
    ensures (forall j :: k < j < |order| ==> t[s.id := row][order[j]].status == Open) <==>
      forall id :: id in t && t[id].strategy == s.strategy && t[id].time > s.time ==> t[id].status == Open
  {
    var after := t[s.id := row];
    forall j | 0 <= j < |order| && j != k ensures order[j] in t && t[order[j]].strategy == s.strategy && (t[order[j]].time > s.time <==> j > k) {
      assert after[order[j]].time != after[order[k]].time;
    }
    forall id | id in t && t[id].strategy == s.strategy && t[id].time > s.time ensures exists j :: k < j < |order| && order[j] == id {
      assert id in after && after[id].strategy == s.strategy;
      var j :| 0 <= j < |order| && order[j] == id;
      assert j != k;
    }
  }

  lemma RoundAgreesInTime(t: Table, after: Table, prices: map<string, real>, visited: seq<string>)
    requires AllTame(t) && AgreesThroughout(t) && NoTies(t) && RoundBy(t, after, prices, visited)
    ensures AgreesThroughout(after) <==> ClosedInTime(t, prices)
  {
    hide Tame, AllTame, Settled, MarkedInTurn, Visits, NewestFirst, RowMarked, Usable, Marks, ClosesLast, NoTies, Agrees, InTimeOrder, FundOf;
    RoundRows(t, prices, visited);
    forall strategy, order | InTimeOrder(after, strategy, order)
      ensures InTimeOrder(t, strategy, order) && (forall i :: 0 <= i < |order| ==> order[i] in t)
      ensures Agrees(after, order) <==> ClosesLast(t, prices, order)
    {
      RoundKeepsOrder(t, after, prices, strategy, order);
      OrderedRowsExist(t, strategy, order);
      assert Agrees(t, order);
      RoundAgrees(t, prices, visited, strategy, order);
    }
    if ClosedInTime(t, prices) {
      forall strategy, order | InTimeOrder(after, strategy, order) ensures Agrees(after, order) {
        ClosedInOrder(t, prices, strategy, order);
      }
    }
    if AgreesThroughout(after) {
      forall a, b | a in t && b in t && t[a].strategy == t[b].strategy && Closes(t[a], prices) && t[a].time < t[b].time ensures !Usable(t[b]) {
        var order := TimeOrder(t, t[a].strategy);
        RoundKeepsOrder(t, after, prices, t[a].strategy, order);
        assert Agrees(after, order);
        PairInOrder(t, prices, t[a].strategy, order, a, b);
      }
    }
  }

  lemma ClosedInOrder(t: Table, prices: map<string, real>, strategy: string, order: seq<string>)
    requires ClosedInTime(t, prices) && NoTies(t) && InTimeOrder(t, strategy, order)
    ensures ClosesLast(t, prices, order)
  {
    hide Usable, Closes;
    forall i, j | 0 <= i < j < |order| && Closes(t[order[i]], prices) ensures !Usable(t[order[j]]) {
      assert t[order[i]].time != t[order[j]].time;
    }
  }

  lemma PairInOrder(t: Table, prices: map<string, real>, strategy: string, order: seq<string>, a: string, b: string)
    requires InTimeOrder(t, strategy, order) && ClosesLast(t, prices, order)
    requires a in t && b in t && t[a].strategy == strategy == t[b].strategy && Closes(t[a], prices) && t[a].time < t[b].time
    ensures !Usable(t[b])
  {
    hide Usable, Closes;
    var i :| 0 <= i < |order| && order[i] == a;
    var j :| 0 <= j < |order| && order[j] == b;
    assert i < j;
  }

  /** The condition of one write, to be checked on the table it is about to change. */
  ghost predicate InSignalTime(held: Table, e: Write) {
    match e
    case Save(s) => SavedInTime(held, s)
    case Round(prices) => ClosedInTime(held, prices)
  }

  /** For every write of the repository on every table of the lifecycle whose signal times do not tie: the
      write leaves the table as a replay would write it, if and only if a saved signal lies behind no closed
      trade of its strategy, and each closed trade was the last of its strategy that the replay sizes. */
  lemma WriteAgreesExactly(before: Table, held: Table, after: Table, e: Write)
    requires AllSound(before) && Initialized(before, held) && WrittenTo(held, after, e) && NoTies(held) && NoTies(after)
    ensures AgreesThroughout(after) <==> InSignalTime(held, e)
  {
    hide Initialized, AllSound, AllTame, Saved, AgreesThroughout, NoTies, SavedInTime, ClosedInTime;
    InitializedIsTame(before, held);
    InitializedAgreesThroughout(before, held);
    match e
    case Save(s) => SaveAgreesInTime(held, s);
    case Round(prices) =>
      var visited :| RoundBy(held, after, prices, visited);
      RoundAgreesInTime(held, after, prices, visited);
  }

  /** The order of signal times matters, not only whether trades overlap: a signal saved after a closing, but
      no later in time than the closed trade, is a write the replay disagrees with in some time order. */
  lemma EarlierSignalDisagrees(held: Table, s: Signal, order: seq<string>, k: nat, closed: string)
    requires AllTame(held) && s.id !in held && s.entry > 0.0
    requires InTimeOrder(Saved(held, s), s.strategy, order) && k < |order| && order[k] == s.id && Agrees(held, Rest(order, k))
    requires closed in order[k..] && closed in held && held[closed].status != Open
    ensures !Agrees(Saved(held, s), order)
  {
    hide Tame, Agrees, Rest, NewRow, RealizedBalance;
    SaveAgrees(held, s, order, k);
    var j :| k <= j < |order| && order[j] == closed;
    assert j != k && Saved(held, s)[order[j]] == held[closed];
  }

  // ---------------------------------------------------------------- sequential histories

  lemma WriteStaysSequential(t: Table, after: Table, e: Write)
    requires Sequential(t) && Writes(t, after, e) && (e.Save? ==> Opens(t, e.signal))
    ensures Sequential(after)
  {
    hide Initialized, Opens, Saved, AllTame, AgreesThroughout, NoTies, OpenIsLast;
    var held :| Initialized(t, held) && WrittenTo(held, after, e);
    InitializedSequential(t, held);
    match e
    case Save(s) => SaveStaysSequential(t, s);
    case Round(prices) =>
      var visited :| RoundBy(held, after, prices, visited);
      RoundStaysSequential(t, after, prices, visited);
  }

  /** Tables the repository went through from empty, each save coming after every trade of its strategy was closed. */
  ghost predicate SequentialHistory(tables: seq<Table>, writes: seq<Write>) {
    && |tables| == |writes| + 1 && tables[0] == map[]
    && (forall i :: 0 <= i < |writes| ==> Writes(tables[i], tables[i + 1], writes[i]))
    && (forall i :: 0 <= i < |writes| && writes[i].Save? ==> Opens(tables[i], writes[i].signal))
  }

  lemma {:induction false} HistorySequential(tables: seq<Table>, writes: seq<Write>, n: nat)
    requires SequentialHistory(tables, writes) && n < |tables|
    ensures Sequential(tables[n])
    decreases n
  {
    hide Sequential, Writes, Opens;
    if n == 0 {
      EmptySequential();
    } else {
      HistorySequential(tables, writes, n - 1);
      WriteStaysSequential(tables[n - 1], tables[n], writes[n - 1]);
    }
  }

  lemma OnlyMembers(order: seq<string>, ids: set<string>)
    requires forall i :: 0 <= i < |order| ==> order[i] in ids
    ensures ids == {} ==> order == []
  {
    if order != [] { assert order[0] in ids; }
  }

  lemma EmptySequential()
    ensures Sequential(map[])
  {
    forall strategy, order | InTimeOrder(map[], strategy, order) ensures Agrees(map[], order) {
      OrderedRowsExist(map[], strategy, order);
      OnlyMembers(order, {});
    }
  }

  /** As long as each trade of a strategy comes, in signal time, after all of its earlier trades were closed, the
      table the repository writes trade by trade is at every moment what a replay would write: a replay of
      any strategy in time order, and the whole initialization, change nothing, and each fund's realized
      balance is the replay's and the closed form of its wins and losses. */
  lemma SequentialWritesAreReplay(tables: seq<Table>, writes: seq<Write>, n: nat, strategy: string, order: seq<string>)
    requires SequentialHistory(tables, writes) && n < |tables| && InTimeOrder(tables[n], strategy, order)
    ensures var fund := FundOf(tables[n], order);
      && Replayed(fund) == fund
      && RealizedBalance(fund) == BalanceAfter(fund) == ClosedForm(Count(fund, TpHit), Count(fund, SlHit))
    ensures forall held :: Initialized(tables[n], held) ==> held == tables[n]
  {
    hide Initialized, Tame, BalanceAfter, ClosedForm, RealizedBalance, SequentialHistory;
    HistorySequential(tables, writes, n);
    assert Agrees(tables[n], order);
    FundIsTame(tables[n], strategy, order);
    SettledRealizes(FundOf(tables[n], order));
    BalanceClosedForm(FundOf(tables[n], order));
    forall held | Initialized(tables[n], held) ensures held == tables[n] {
      InitializedSequential(tables[n], held);
    }
  }
}
