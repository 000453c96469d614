/** The bounded candle history and the unbounded log it stands for. */
module CandleCache {
  import opened Prelude

  datatype Candle = Candle(symbol: string, timeframe: string, startTime: int, close: real, isClosed: bool)

  datatype Key = Key(symbol: string, timeframe: string)

  function KeyOf(c: Candle): Key {
    Key(c.symbol, c.timeframe)
  }

  // ---------------------------------------------------------------- last writer wins

  type ByTime = map<int, Candle>

  /** What a batch leaves behind for one key when later candles replace earlier ones. */
  ghost function Overwrite(base: ByTime, batch: seq<Candle>, key: Key): ByTime
    decreases |batch|
  {
    if batch == [] then base
    else
      var m := Overwrite(base, batch[..|batch| - 1], key);
      var last := batch[|batch| - 1];
      if KeyOf(last) == key then m[last.startTime := last] else m
  }

  /** Everything ever merged for one key, last write per start time. */
  ghost function FullLog(log: seq<Candle>, key: Key): ByTime {
    Overwrite(map[], log, key)
  }

  /** The candle kept for a start time is the last one written for it. */
  lemma {:induction false} LastWritten(log: seq<Candle>, key: Key, t: int)
    ensures if t in FullLog(log, key) then exists i :: 0 <= i < |log| && log[i] == FullLog(log, key)[t] && WrittenLast(log, key, t, i)
            else forall i :: 0 <= i < |log| ==> !Writes(log[i], key, t)
    decreases |log|
  {
    if log != [] {
      var init, last := log[..|log| - 1], log[|log| - 1];
      LastWritten(init, key, t);
      if Writes(last, key, t) {
        assert WrittenLast(log, key, t, |log| - 1);
      } else if t in FullLog(init, key) {
        var i :| 0 <= i < |init| && init[i] == FullLog(init, key)[t] && WrittenLast(init, key, t, i);
        assert log[i] == init[i] && WrittenLast(log, key, t, i);
      }
    }
  }

  predicate WrittenLast(log: seq<Candle>, key: Key, t: int, i: nat)
    requires i < |log|
  {
    Writes(log[i], key, t) && forall j :: i < j < |log| ==> !Writes(log[j], key, t)
  }

  predicate Writes(c: Candle, key: Key, t: int) {
    KeyOf(c) == key && c.startTime == t
  }

  lemma {:induction false} OverwriteAppend(base: ByTime, a: seq<Candle>, b: seq<Candle>, key: Key)
    ensures Overwrite(base, a + b, key) == Overwrite(Overwrite(base, a, key), b, key)
    decreases |b|
  {
    if b == [] {
      assert a + b == a;
    } else {
      assert (a + b)[..|a + b| - 1] == a + b[..|b| - 1];
      OverwriteAppend(base, a, b[..|b| - 1], key);
    }
  }

  /** Overwriting is merging in the batch's own last-written candles. */
  lemma {:induction false} OverwriteIsUnion(base: ByTime, batch: seq<Candle>, key: Key)
    ensures Overwrite(base, batch, key) == base + Overwrite(map[], batch, key)
    decreases |batch|
  {
    if batch != [] {
      OverwriteIsUnion(base, batch[..|batch| - 1], key);
    }
  }

  // ---------------------------------------------------------------- the newest n entries

  ghost function Newer(times: set<int>, t: int): set<int> {
    set u | u in times && u > t
  }

  /** The n greatest start times. */
  ghost function Newest(times: set<int>, n: nat): set<int> {
    set t | t in times && |Newer(times, t)| < n
  }

  ghost function Top(m: ByTime, n: nat): ByTime {
    map t | t in Newest(m.Keys, n) :: m[t]
  }

  lemma NewerMonotone(a: set<int>, b: set<int>, t: int)
    requires a <= b
    ensures |Newer(a, t)| <= |Newer(b, t)|
  {
    SubsetSize(Newer(a, t), Newer(b, t));
  }

  lemma SubsetSize(a: set<int>, b: set<int>)
    requires a <= b
    ensures |a| <= |b|
  {
    assert b == a + (b - a);
  }

  lemma {:induction false} Greatest(times: set<int>) returns (g: int)
    requires times != {}
    ensures g in times && forall t :: t in times ==> t <= g
  {
    var x := Pick(times);
    var rest := times - {x};
    assert forall t :: t in times ==> t == x || t in rest;
    if rest == {} {
      g := x;
    } else {
      var y := Greatest(rest);
      g := if x < y then y else x;
    }
  }

  lemma NewestMember(times: set<int>, n: nat, t: int)
    ensures t in Newest(times, n) <==> t in times && |Newer(times, t)| < n
  {
  }

  lemma NewerWithGreatest(times: set<int>, g: int, t: int)
    requires g in times && t in times - {g} && forall u :: u in times ==> u <= g
    ensures |Newer(times, t)| == |Newer(times - {g}, t)| + 1
  {
    assert Newer(times, t) == Newer(times - {g}, t) + {g};
  }

  /** There are n newest entries as soon as there are n entries. */
  lemma {:induction false} NewestSize(times: set<int>, n: nat)
    requires |times| >= n
    ensures |Newest(times, n)| >= n
    decreases n
  {
    hide Newest;
    if n > 0 {
      var g := Greatest(times);
      var rest := times - {g};
      NewestSize(rest, n - 1);
      assert Newer(times, g) == {};
      NewestMember(times, n, g);
      forall t | t in Newest(rest, n - 1) ensures t in Newest(times, n) {
        NewestMember(rest, n - 1, t);
        NewerWithGreatest(times, g, t);
        NewestMember(times, n, t);
      }
      NewestMember(rest, n - 1, g);
      SubsetSize(Newest(rest, n - 1) + {g}, Newest(times, n));
    }
  }

  /** Above any point with n newer entries lie n of the newest n. */
  lemma NewestAbove(times: set<int>, n: nat, t: int)
    requires |Newer(times, t)| >= n
    ensures |Newer(Newest(times, n), t)| >= n
  {
    var above := Newer(times, t);
    NewestSize(above, n);
    forall u | u in Newest(above, n) ensures u in Newer(Newest(times, n), t) {
      assert Newer(above, u) == Newer(times, u);
    }
    SubsetSize(Newest(above, n), Newer(Newest(times, n), t));
  }

  /** Truncating before adding more start times never changes the newest n. */
  lemma TruncateEarly(held: set<int>, added: set<int>, n: nat)
    ensures Newest(Newest(held, n) + added, n) == Newest(held + added, n)
  {
    var kept, all := Newest(held, n) + added, held + added;
    forall t | t in all && |Newer(all, t)| < n ensures t in Newest(kept, n) {
      NewerMonotone(held, all, t);
      NewerMonotone(kept, all, t);
    }
    forall t | t in kept && |Newer(kept, t)| < n ensures t in Newest(all, n) {
      if |Newer(held, t)| >= n {
        NewestAbove(held, n, t);
        NewerMonotone(Newest(held, n), kept, t);
        assert false;
      }
      forall u | u in Newer(all, t) ensures u in Newer(kept, t) {
        if u in held {
          SubsetSize(Newer(held, u), Newer(held, t));
        }
      }
      assert Newer(all, t) == Newer(kept, t);
    }
  }

  lemma TopOfUnion(m: ByTime, batch: ByTime, n: nat)
    ensures Top(Top(m, n) + batch, n) == Top(m + batch, n)
  {
    TruncateEarly(m.Keys, batch.Keys, n);
    assert (Top(m, n) + batch).Keys == Newest(m.Keys, n) + batch.Keys;
    assert (m + batch).Keys == m.Keys + batch.Keys;
  }

  // ---------------------------------------------------------------- sorted histories

  ghost predicate StrictlySorted(s: seq<Candle>) {
    forall i, j :: 0 <= i < j < |s| ==> s[i].startTime < s[j].startTime
  }

  /** The sequence lists exactly the entries of the map, oldest first. */
  ghost predicate Lists(s: seq<Candle>, m: ByTime) {
    StrictlySorted(s)
    && (forall i {:trigger s[i]} :: 0 <= i < |s| ==> s[i].startTime in m && m[s[i].startTime] == s[i])
    && forall t {:trigger t in m} :: t in m ==> exists i :: 0 <= i < |s| && s[i].startTime == t
  }

  lemma ListsEntries(s: seq<Candle>, m: ByTime)
    requires Lists(s, m)
    ensures StrictlySorted(s)
    ensures forall i {:trigger s[i]} :: 0 <= i < |s| ==> s[i].startTime in m && m[s[i].startTime] == s[i]
  {
  }

  lemma IndexOf(s: seq<Candle>, m: ByTime, t: int) returns (i: nat)
    requires Lists(s, m) && t in m
    ensures i < |s| && s[i].startTime == t
  {
    i :| 0 <= i < |s| && s[i].startTime == t;
  }

  /** At most one sequence lists a map, so `Lists` pins a history down completely. */
  lemma {:induction false} ListsUnique(s: seq<Candle>, u: seq<Candle>, m: ByTime)
    requires Lists(s, m) && Lists(u, m)
    ensures s == u
    decreases |s|
  {
    hide Lists;
    ListsEntries(s, m);
    ListsEntries(u, m);
    if |u| > 0 {
      var l := IndexOf(s, m, u[|u| - 1].startTime);
      var k := IndexOf(u, m, s[|s| - 1].startTime);
      assert s[|s| - 1].startTime == u[|u| - 1].startTime;
      ListsWithoutLast(s, m);
      ListsWithoutLast(u, m);
      ListsUnique(s[..|s| - 1], u[..|u| - 1], m - {s[|s| - 1].startTime});
    } else if |s| > 0 {
      var k := IndexOf(u, m, s[0].startTime);
    }
  }

  lemma ListsWithoutLast(s: seq<Candle>, m: ByTime)
    requires s != [] && Lists(s, m)
    ensures Lists(s[..|s| - 1], m - {s[|s| - 1].startTime})
  {
    var init, rest := s[..|s| - 1], m - {s[|s| - 1].startTime};
    forall t | t in rest ensures exists i :: 0 <= i < |init| && init[i].startTime == t {
      var i :| 0 <= i < |s| && s[i].startTime == t;
      assert init[i].startTime == t;
    }
  }

  // ---------------------------------------------------------------- many merges at once

  ghost function Flatten(batches: seq<seq<Candle>>): seq<Candle>
    decreases |batches|
  {
    if batches == [] then [] else Flatten(batches[..|batches| - 1]) + batches[|batches| - 1]
  }

  /** A cache that truncates to n after every batch. */
  ghost function TruncatedRun(batches: seq<seq<Candle>>, key: Key, n: nat): ByTime
    decreases |batches|
  {
    if batches == [] then map[]
    else Top(Overwrite(TruncatedRun(batches[..|batches| - 1], key, n), batches[|batches| - 1], key), n)
  }

  /** Truncating after every batch gives what one truncation of the whole log would give. */
  lemma {:induction false} TruncatedRunIsTopOfLog(batches: seq<seq<Candle>>, key: Key, n: nat)
    ensures TruncatedRun(batches, key, n) == Top(FullLog(Flatten(batches), key), n)
    decreases |batches|
  {
    if batches == [] {
      assert FullLog([], key) == map[];
      assert Top(map[], n) == map[];
    } else {
      TruncatedRunIsTopOfLog(batches[..|batches| - 1], key, n);
      MergeStep(Flatten(batches[..|batches| - 1]), batches[|batches| - 1], key, n);
    }
  }

  lemma MergeStep(log: seq<Candle>, batch: seq<Candle>, key: Key, n: nat)
    ensures Top(Overwrite(Top(FullLog(log, key), n), batch, key), n) == Top(FullLog(log + batch, key), n)
  {
    var full, delta := FullLog(log, key), Overwrite(map[], batch, key);
    OverwriteIsUnion(Top(full, n), batch, key);
    TopOfUnion(full, delta, n);
    OverwriteIsUnion(full, batch, key);
    OverwriteAppend(map[], log, batch, key);
  }

  // ---------------------------------------------------------------- truncating a sorted list

  /** Python's s[-n:]: the last n entries, and everything when n is zero. */
  function LastN(s: seq<Candle>, n: nat): (r: seq<Candle>) {
    if n == 0 || n >= |s| then s else s[|s| - n..]
  }

  lemma {:induction false} NewerCount(s: seq<Candle>, m: ByTime, i: nat)
    requires Lists(s, m) && i < |s|
    ensures |Newer(m.Keys, s[i].startTime)| == |s| - 1 - i
    decreases |s| - i
  {
    hide Lists;
    ListsEntries(s, m);
    forall u | u in Newer(m.Keys, s[i].startTime) ensures i + 1 < |s| && s[i + 1].startTime <= u {
      var j := IndexOf(s, m, u);
      assert j > i;
    }
    if i == |s| - 1 {
      assert Newer(m.Keys, s[i].startTime) == {};
    } else {
      NewerCount(s, m, i + 1);
      var next := s[i + 1].startTime;
      assert Newer(m.Keys, s[i].startTime) == Newer(m.Keys, next) + {next};
    }
  }

  lemma TopMember(m: ByTime, n: nat, t: int)
    ensures t in Top(m, n) <==> t in m && |Newer(m.Keys, t)| < n
    ensures t in Top(m, n) ==> Top(m, n)[t] == m[t]
  {
  }

  lemma LastNListsTop(s: seq<Candle>, m: ByTime, n: nat)
    requires Lists(s, m) && n >= 1
    ensures Lists(LastN(s, n), Top(m, n))
  {
    hide Top, Newest, Newer;
    var r, top := LastN(s, n), Top(m, n);
    var skip := |s| - |r|;
    forall i | 0 <= i < |r| ensures r[i].startTime in top && top[r[i].startTime] == r[i] {
      assert r[i] == s[skip + i];
      NewerCount(s, m, skip + i);
      TopMember(m, n, r[i].startTime);
    }
    forall t | t in top ensures exists i :: 0 <= i < |r| && r[i].startTime == t {
      TopMember(m, n, t);
      var j := IndexOf(s, m, t);
      NewerCount(s, m, j);
      assert r[j - skip].startTime == t;
    }
  }

  // ---------------------------------------------------------------- the service

  /** The candles of one key, in batch order. */
  function Group(batch: seq<Candle>, key: Key): seq<Candle>
    decreases |batch|
  {
    if batch == [] then []
    else
      var g := Group(batch[..|batch| - 1], key);
      var last := batch[|batch| - 1];
      if KeyOf(last) == key then g + [last] else g
  }

  lemma {:induction false} OverwriteGroup(base: ByTime, batch: seq<Candle>, key: Key)
    ensures Overwrite(base, Group(batch, key), key) == Overwrite(base, batch, key)
    decreases |batch|
  {
    if batch != [] {
      OverwriteGroup(base, batch[..|batch| - 1], key);
      var g, last := Group(batch[..|batch| - 1], key), batch[|batch| - 1];
      if KeyOf(last) == key {
        assert (g + [last])[..|g|] == g;
      }
    }
  }

  lemma OverwriteNothing(base: ByTime, key: Key)
    ensures Overwrite(base, [], key) == base
  {
  }

  lemma LogAppend(log: seq<Candle>, batch: seq<Candle>, key: Key)
    ensures FullLog(log + batch, key) == Overwrite(FullLog(log, key), batch, key)
  {
    OverwriteAppend(map[], log, batch, key);
  }

  lemma {:induction false} GroupHasKey(batch: seq<Candle>, key: Key)
    ensures forall i :: 0 <= i < |Group(batch, key)| ==> KeyOf(Group(batch, key)[i]) == key
    decreases |batch|
  {
    if batch != [] {
      GroupHasKey(batch[..|batch| - 1], key);
    }
  }

  method GroupByKey(candles: seq<Candle>) returns (grouped: map<Key, seq<Candle>>)
    ensures forall key :: key in grouped ==> grouped[key] == Group(candles, key)
    ensures forall key :: key !in grouped ==> Group(candles, key) == []
  {
    grouped := map[];
    for i := 0 to |candles|
      invariant forall key :: key in grouped ==> grouped[key] == Group(candles[..i], key)
      invariant forall key :: key !in grouped ==> Group(candles[..i], key) == []
    {
      assert candles[..i + 1][..i] == candles[..i];
      var key := KeyOf(candles[i]);
      grouped := grouped[key := (if key in grouped then grouped[key] else []) + [candles[i]]];
    }
    assert candles[..|candles|] == candles;
  }

  function Closed(s: seq<Candle>): seq<Candle> {
    if s == [] then [] else (if s[0].isClosed then [s[0]] else []) + Closed(s[1..])
  }

  /** What a reader gets of a history: candles of the map at increasing times, only closed ones if asked; with a
      limit at most that many, and nothing that qualifies is left out unless the limit is filled by newer ones. */
  ghost predicate Serves(r: seq<Candle>, m: ByTime, limit: nat, closedOnly: bool) {
    && (forall i :: 0 <= i < |r| ==> r[i].startTime in m && m[r[i].startTime] == r[i] && (closedOnly ==> r[i].isClosed))
    && (forall i, j :: 0 <= i < j < |r| ==> r[i].startTime < r[j].startTime)
    && (limit >= 1 ==> |r| <= limit)
    && (forall t :: t in m && (closedOnly ==> m[t].isClosed) ==>
          m[t] in r || (limit >= 1 && |r| == limit && forall i :: 0 <= i < |r| ==> t < r[i].startTime))
  }

  /** Exactly the closed candles are kept. */
  lemma {:induction false} ClosedKeeps(s: seq<Candle>)
    ensures forall c :: c in Closed(s) <==> c in s && c.isClosed
  {
    if s != [] {
      ClosedKeeps(s[1..]);
      assert s == [s[0]] + s[1..];
    }
  }

  lemma {:induction false} ClosedSorted(s: seq<Candle>)
    requires StrictlySorted(s)
    ensures StrictlySorted(Closed(s))
  {
    if s != [] {
      var rest := Closed(s[1..]);
      ClosedSorted(s[1..]);
      ClosedKeeps(s[1..]);
      forall i | 0 <= i < |rest| ensures s[0].startTime < rest[i].startTime {
        assert rest[i] in s[1..];
      }
    }
  }

  /** Cutting a sorted selection to its last entries: what is returned, and what is left out. */
  lemma LastNReturns(s: seq<Candle>, selected: seq<Candle>, m: ByTime, limit: nat, closedOnly: bool)
    requires Lists(s, m) && StrictlySorted(selected)
    requires forall c :: c in selected <==> c in s && (closedOnly ==> c.isClosed)
    ensures var r := LastN(selected, limit);
      forall i :: 0 <= i < |r| ==> r[i].startTime in m && m[r[i].startTime] == r[i] && (closedOnly ==> r[i].isClosed)
  {
    ListsEntries(s, m);
    hide Lists;
    var r := LastN(selected, limit);
    forall i | 0 <= i < |r| ensures r[i].startTime in m && m[r[i].startTime] == r[i] && (closedOnly ==> r[i].isClosed) {
      assert r[i] in selected;
      var k :| 0 <= k < |s| && s[k] == r[i];
    }
  }

  lemma LastNOmits(s: seq<Candle>, selected: seq<Candle>, m: ByTime, limit: nat, closedOnly: bool, t: int)
    requires Lists(s, m) && StrictlySorted(selected) && t in m && (closedOnly ==> m[t].isClosed)
    requires forall c :: c in selected <==> c in s && (closedOnly ==> c.isClosed)
    ensures var r := LastN(selected, limit);
      m[t] in r || (limit >= 1 && |r| == limit && forall i :: 0 <= i < |r| ==> t < r[i].startTime)
  {
    ListsEntries(s, m);
    var k := IndexOf(s, m, t);
    hide Lists;
    assert s[k] == m[t] && s[k] in selected;
    var j :| 0 <= j < |selected| && selected[j] == m[t];
    assert m[t].startTime == t;
    hide LastN, StrictlySorted;
    TailOmits(selected, limit, j);
  }

  lemma TailOmits(selected: seq<Candle>, limit: nat, j: nat)
    requires StrictlySorted(selected) && j < |selected|
    ensures var r := LastN(selected, limit);
      selected[j] in r || (limit >= 1 && |r| == limit && forall i :: 0 <= i < |r| ==> selected[j].startTime < r[i].startTime)
  {
    var r := LastN(selected, limit);
    if j >= |selected| - |r| {
      assert r[j - (|selected| - |r|)] == selected[j];
    }
  }

  lemma LastNServes(s: seq<Candle>, selected: seq<Candle>, m: ByTime, limit: nat, closedOnly: bool)
    requires Lists(s, m) && StrictlySorted(selected)
    requires forall c :: c in selected <==> c in s && (closedOnly ==> c.isClosed)
    ensures Serves(LastN(selected, limit), m, limit, closedOnly)
  {
    hide Lists;
    LastNReturns(s, selected, m, limit, closedOnly);
    forall t | t in m && (closedOnly ==> m[t].isClosed)
      ensures m[t] in LastN(selected, limit)
              || (limit >= 1 && |LastN(selected, limit)| == limit
                  && forall i :: 0 <= i < |LastN(selected, limit)| ==> t < LastN(selected, limit)[i].startTime) {
      LastNOmits(s, selected, m, limit, closedOnly, t);
    }
  }

  lemma HistoryServes(s: seq<Candle>, m: ByTime, limit: nat, closedOnly: bool)
    requires Lists(s, m)
    ensures Serves(LastN(if closedOnly then Closed(s) else s, limit), m, limit, closedOnly)
  {
    ListsEntries(s, m);
    ClosedKeeps(s);
    ClosedSorted(s);
    LastNServes(s, if closedOnly then Closed(s) else s, m, limit, closedOnly);
  }

  lemma ListsAppend(s: seq<Candle>, m: ByTime, c: Candle)
    requires Lists(s, m) && forall i :: 0 <= i < |s| ==> s[i].startTime < c.startTime
    ensures Lists(s + [c], m[c.startTime := c])
  {
    var s', m' := s + [c], m[c.startTime := c];
    forall t | t in m' ensures exists i :: 0 <= i < |s'| && s'[i].startTime == t {
      if t == c.startTime {
        assert s'[|s|].startTime == t;
      } else {
        var i :| 0 <= i < |s| && s[i].startTime == t;
        assert s'[i].startTime == t;
      }
    }
  }

  /** `sorted(values, key=start_time)` of a dictionary keyed by start time. */
  method SortByTime(m: ByTime) returns (ordered: seq<Candle>)
    requires forall t :: t in m ==> m[t].startTime == t
    ensures Lists(ordered, m)
  {
    hide Lists;
    ordered := [];
    var rest := m.Keys;
    assert Lists([], m - m.Keys) by { ListsEmpty(m - m.Keys); }
    while rest != {}
      invariant rest <= m.Keys
      invariant Lists(ordered, m - rest)
      invariant forall i, t :: 0 <= i < |ordered| && t in rest ==> ordered[i].startTime < t
      decreases |rest|
    {
      LeastExists(rest);
      var t :| t in rest && forall u :: u in rest ==> t <= u;
      ListsAppend(ordered, m - rest, m[t]);
      assert (m - rest)[t := m[t]] == m - (rest - {t});
      ordered := ordered + [m[t]];
      rest := rest - {t};
    }
    assert m - rest == m;
  }

  lemma ListsEmpty(m: ByTime)
    requires m == map[]
    ensures Lists([], m)
  {
  }

  lemma {:induction false} LeastExists(times: set<int>)
    requires times != {}
    ensures exists t :: t in times && forall u :: u in times ==> t <= u
  {
    var x := Pick(times);
    var rest := times - {x};
    assert forall t :: t in times ==> t == x || t in rest;
    var least := x;
    if rest != {} {
      LeastExists(rest);
      var y :| y in rest && forall u :: u in rest ==> y <= u;
      least := if x < y then x else y;
    }
    assert least in times && forall u :: u in times ==> least <= u;
  }

  /** dict.get(key, []). */
  function HistoryOf(history: map<Key, seq<Candle>>, key: Key): seq<Candle> {
    if key in history then history[key] else []
  }

  /** Every history lists the newest n last-written candles of the log. */
  ghost predicate Stands(history: map<Key, seq<Candle>>, log: seq<Candle>, n: nat) {
    forall key {:trigger HistoryOf(history, key)} :: Lists(HistoryOf(history, key), Top(FullLog(log, key), n))
  }

  class MarketDataService {
    const maxHistory: nat
    var history: map<Key, seq<Candle>>
    /** Everything ever merged, in order. */
    ghost var merged: seq<Candle>

    ghost predicate Valid()
      reads this
    {
      maxHistory >= 1
      && Stands(history, merged, maxHistory)
    }

    constructor (maxHistory: nat)
      requires maxHistory >= 1
      ensures Valid() && this.maxHistory == maxHistory && merged == []
    {
      this.maxHistory := maxHistory;
      history := map[];
      merged := [];
      new;
      forall key ensures Lists(HistoryOf(history, key), Top(FullLog(merged, key), maxHistory)) {
        assert Top(FullLog(merged, key), maxHistory) == map[];
      }
    }

    /** by_start_time of one key: the stored history, overwritten by the batch. */
    method OverwrittenHistory(key: Key, batch: seq<Candle>) returns (byStartTime: ByTime)
      requires Lists(HistoryOf(history, key), Top(FullLog(merged, key), maxHistory))
      requires forall i :: 0 <= i < |batch| ==> KeyOf(batch[i]) == key
      ensures byStartTime == Overwrite(Top(FullLog(merged, key), maxHistory), batch, key)
      ensures forall t :: t in byStartTime ==> byStartTime[t].startTime == t
    {
      var held := HistoryOf(history, key);
      ghost var top := Top(FullLog(merged, key), maxHistory);
      byStartTime := map[];
      for i := 0 to |held|
        invariant forall t :: t in byStartTime ==> t in top && byStartTime[t] == top[t] && byStartTime[t].startTime == t
        invariant forall j {:trigger held[j]} :: 0 <= j < i ==> held[j].startTime in byStartTime
      {
        byStartTime := byStartTime[held[i].startTime := held[i]];
      }
      forall t | t in top ensures t in byStartTime {
        var i := IndexOf(held, top, t);
        assert held[i].startTime in byStartTime;
      }
      assert forall t :: t in byStartTime <==> t in top;
      assert byStartTime == top;
      for i := 0 to |batch|
        invariant byStartTime == Overwrite(top, batch[..i], key)
        invariant forall t :: t in byStartTime ==> byStartTime[t].startTime == t
      {
        assert batch[..i + 1][..i] == batch[..i];
        byStartTime := byStartTime[batch[i].startTime := batch[i]];
      }
      assert batch[..|batch|] == batch;
    }

    method MergedHistory(key: Key, batch: seq<Candle>) returns (updated: seq<Candle>)
      requires maxHistory >= 1 && Lists(HistoryOf(history, key), Top(FullLog(merged, key), maxHistory))
      requires forall i :: 0 <= i < |batch| ==> KeyOf(batch[i]) == key
      ensures Lists(updated, Top(Overwrite(Top(FullLog(merged, key), maxHistory), batch, key), maxHistory))
    {
      hide Top, FullLog, Overwrite, Lists;
      var byStartTime := OverwrittenHistory(key, batch);
      var ordered := SortByTime(byStartTime);
      LastNListsTop(ordered, byStartTime, maxHistory);
      updated := LastN(ordered, maxHistory);
    }

    method Merge(candles: seq<Candle>)
      requires Valid()
      modifies this
      ensures Valid()
      ensures merged == old(merged) + candles
    {
      hide Top, FullLog, Overwrite, Lists;
      var grouped := GroupByKey(candles);
      var keys := grouped.Keys;
      ghost var before := history;
      while keys != {}
        invariant keys <= grouped.Keys && merged == old(merged)
        invariant forall key {:trigger HistoryOf(history, key)} :: key in keys || key !in grouped ==>
          HistoryOf(history, key) == HistoryOf(before, key)
        invariant forall key {:trigger HistoryOf(history, key)} :: key in grouped && key !in keys ==>
          Lists(HistoryOf(history, key), Top(FullLog(merged + candles, key), maxHistory))
        decreases |keys|
      {
        var key :| key in keys;
        GroupHasKey(candles, key);
        assert Lists(HistoryOf(before, key), Top(FullLog(merged, key), maxHistory));
        var updated := MergedHistory(key, grouped[key]);
        OverwriteGroup(Top(FullLog(merged, key), maxHistory), candles, key);
        MergeStep(merged, candles, key, maxHistory);
        assert forall k {:trigger HistoryOf(history[key := updated], k)} ::
          HistoryOf(history[key := updated], k) == if k == key then updated else HistoryOf(history, k);
        history := history[key := updated];
        keys := keys - {key};
      }
      forall key ensures Lists(HistoryOf(history, key), Top(FullLog(merged + candles, key), maxHistory)) {
        if key !in grouped {
          assert Lists(HistoryOf(before, key), Top(FullLog(merged, key), maxHistory));
          OverwriteGroup(FullLog(merged, key), candles, key);
          OverwriteNothing(FullLog(merged, key), key);
          LogAppend(merged, candles, key);
        }
      }
      merged := merged + candles;
    }

    /** The last `limit` closed candles among the newest `maxHistory` of everything merged. */
    method RecentClosedCandles(key: Key, limit: int) returns (r: Result<seq<Candle>>)
      requires Valid()
      ensures r.Err? <==> limit < 1
      ensures r.Ok? ==> forall s :: Lists(s, Top(FullLog(merged, key), maxHistory)) ==>
        r.value == LastN(Closed(s), limit)
      ensures r.Ok? ==> Serves(r.value, Top(FullLog(merged, key), maxHistory), limit, true)
    {
      hide Serves, Lists, Top, FullLog;
      if limit < 1 {
        return Err("limit must be at least 1");
      }
      var s := HistoryOf(history, key);
      forall u | Lists(u, Top(FullLog(merged, key), maxHistory)) ensures u == s {
        ListsUnique(s, u, Top(FullLog(merged, key), maxHistory));
      }
      HistoryServes(s, Top(FullLog(merged, key), maxHistory), limit, true);
      return Ok(LastN(Closed(s), limit));
    }

    method FetchCandles(key: Key, fetched: seq<Candle>, limit: nat, closedOnly: bool) returns (r: seq<Candle>)
      requires Valid()
      modifies this
      ensures Valid() && merged == old(merged) + fetched
      ensures forall s :: Lists(s, Top(FullLog(merged, key), maxHistory)) ==>
        r == LastN(if closedOnly then Closed(s) else s, limit)
      ensures Serves(r, Top(FullLog(merged, key), maxHistory), limit, closedOnly)
    {
      hide Serves, Lists, Top, FullLog;
      Merge(fetched);
      var s := HistoryOf(history, key);
      forall u | Lists(u, Top(FullLog(merged, key), maxHistory)) ensures u == s {
        ListsUnique(s, u, Top(FullLog(merged, key), maxHistory));
      }
      HistoryServes(s, Top(FullLog(merged, key), maxHistory), limit, closedOnly);
      r := LastN(if closedOnly then Closed(s) else s, limit);
    }
  }
}
