/** Wilder's average true range and average directional index. */
module DirectionalMovement {
  import opened Prelude
  import opened Arithmetic
  import opened Indicators

  // ---------------------------------------------------------------- one candle against the one before

  function TrueRange(high: real, low: real, previousClose: real): real {
    Max(Max(high - low, Abs(high - previousClose)), Abs(low - previousClose))
  }

  function PlusMove(upMove: real, downMove: real): real {
    if upMove > downMove && upMove > 0.0 then upMove else 0.0
  }

  function MinusMove(upMove: real, downMove: real): real {
    if downMove > upMove && downMove > 0.0 then downMove else 0.0
  }

  /** The true range is the largest of the three spans. */
  lemma TrueRangePlainly(high: real, low: real, previousClose: real)
    ensures var tr := TrueRange(high, low, previousClose);
      && tr >= high - low && -tr <= high - previousClose <= tr && -tr <= low - previousClose <= tr
      && tr in {high - low, high - previousClose, previousClose - high, low - previousClose, previousClose - low}
  {
  }

  /** Only the larger of the two moves counts, and only upwards of zero; neither counts when they are equal. */
  lemma MovesPlainly(high: real, low: real, previousHigh: real, previousLow: real)
    ensures var up, down := high - previousHigh, previousLow - low;
      var plus, minus := PlusMove(up, down), MinusMove(up, down);
      && plus >= 0.0 && minus >= 0.0 && (plus == 0.0 || minus == 0.0)
      && plus + minus == (if up == down then 0.0 else Max(0.0, Max(up, down)))
      && (plus > 0.0 ==> high > previousHigh && high + low > previousHigh + previousLow)
      && (minus > 0.0 ==> low < previousLow && high + low < previousHigh + previousLow)
  {
  }

  ghost predicate SameLength(h: seq<real>, l: seq<real>, c: seq<real>) {
    |h| == |l| == |c|
  }

  /** The list of true ranges; the first candle has no predecessor and counts zero. */
  ghost function TrueRanges(h: seq<real>, l: seq<real>, c: seq<real>): (tr: seq<real>)
    requires SameLength(h, l, c)
    ensures |tr| == |c|
  {
    seq(|c|, i requires 0 <= i < |c| => TrueRangeAt(h, l, c, i))
  }

  function TrueRangeAt(h: seq<real>, l: seq<real>, c: seq<real>, i: nat): real
    requires i < |h| && i < |l| && i < |c|
  {
    if i == 0 then 0.0 else TrueRange(h[i], l[i], c[i - 1])
  }

  ghost function PlusMoves(h: seq<real>, l: seq<real>): (m: seq<real>)
    requires |h| == |l|
    ensures |m| == |h|
  {
    seq(|h|, i requires 0 <= i < |h| => PlusMoveAt(h, l, i))
  }

  function PlusMoveAt(h: seq<real>, l: seq<real>, i: nat): real
    requires i < |h| && i < |l|
  {
    if i == 0 then 0.0 else PlusMove(h[i] - h[i - 1], l[i - 1] - l[i])
  }

  ghost function MinusMoves(h: seq<real>, l: seq<real>): (m: seq<real>)
    requires |h| == |l|
    ensures |m| == |h|
  {
    seq(|h|, i requires 0 <= i < |h| => MinusMoveAt(h, l, i))
  }

  function MinusMoveAt(h: seq<real>, l: seq<real>, i: nat): real
    requires i < |h| && i < |l|
  {
    if i == 0 then 0.0 else MinusMove(h[i] - h[i - 1], l[i - 1] - l[i])
  }

  // ---------------------------------------------------------------- Wilder's running sum

  function SmoothStep(sum: real, x: real, p: nat): real
    requires p >= 1
  {
    sum - sum / p as real + x
  }

  function Smooth(x: seq<real>, p: nat, i: nat): real
    requires 1 <= p <= i < |x|
    decreases i
  {
    if i == p then RangeSum(x, 1, p + 1) else SmoothStep(Smooth(x, p, i - 1), x[i], p)
  }

  /** The running sum is p times Wilder's average of the same values. */
  lemma {:induction false} SmoothIsWilder(x: seq<real>, p: nat, i: nat)
    requires 1 <= p <= i < |x|
    ensures Smooth(x, p, i) == Wilder(x, 1, p, i) * p as real
    decreases i
  {
    hide RangeSum, SmoothStep, WilderStep, Mean;
    WilderRecurrence(x, 1, p, i);
    if i > p {
      SmoothIsWilder(x, p, i - 1);
      SmoothStepPlainly(Smooth(x, p, i - 1), x[i], p, Wilder(x, 1, p, i - 1));
      Distribute(Wilder(x, 1, p, i), Wilder(x, 1, p, i - 1), p as real);
    }
  }

  lemma SmoothStepPlainly(sum: real, x: real, p: nat, w: real)
    requires p >= 1 && sum == w * p as real
    ensures SmoothStep(sum, x, p) == sum - w + x
  {
    QuotientUnique(sum, p as real, w);
  }

  lemma SmoothStepOrder(a: real, x: real, b: real, y: real, p: nat)
    requires p >= 1 && a <= b && x <= y
    ensures SmoothStep(a, x, p) <= SmoothStep(b, y, p)
  {
    var d, n := b - a, p as real;
    assert d / n <= d by { QuotientOrder(d, n, d); assert d * n >= d by { ProductOrder(1.0, n, d); } }
    assert d / n == b / n - a / n by { QuotientUnique(d, n, b / n - a / n); }
  }

  lemma SmoothStepSum(a: real, x: real, b: real, y: real, p: nat)
    requires p >= 1
    ensures SmoothStep(a + b, x + y, p) == SmoothStep(a, x, p) + SmoothStep(b, y, p)
  {
    QuotientUnique(a + b, p as real, a / p as real + b / p as real);
  }

  lemma {:induction false} SmoothNonNegative(x: seq<real>, p: nat, i: nat)
    requires 1 <= p <= i < |x|
    requires forall k :: 0 <= k < |x| ==> x[k] >= 0.0
    ensures Smooth(x, p, i) >= 0.0
    decreases i
  {
    hide SmoothStep, RangeSum;
    if i == p {
      NonNegativeSum(x, 1, p + 1);
    } else {
      SmoothNonNegative(x, p, i - 1);
      SmoothStepOrder(0.0, 0.0, Smooth(x, p, i - 1), x[i], p);
      SmoothStepZero(p);
    }
  }

  lemma SmoothStepZero(p: nat)
    requires p >= 1
    ensures SmoothStep(0.0, 0.0, p) == 0.0
  {
    QuotientUnique(0.0, p as real, 0.0);
  }

  lemma {:induction false} SumBudget(x: seq<real>, y: seq<real>, z: seq<real>, lo: nat, hi: nat)
    requires lo <= hi <= |x| && hi <= |y| && hi <= |z|
    requires forall k :: lo <= k < hi ==> x[k] + y[k] <= z[k]
    ensures RangeSum(x, lo, hi) + RangeSum(y, lo, hi) <= RangeSum(z, lo, hi)
  {
    if lo < hi {
      SumBudget(x, y, z, lo, hi - 1);
    }
  }

  lemma {:induction false} SmoothBudget(x: seq<real>, y: seq<real>, z: seq<real>, p: nat, i: nat)
    requires 1 <= p <= i < |x| && |x| == |y| == |z|
    requires forall k :: 0 <= k < |x| ==> x[k] + y[k] <= z[k]
    ensures Smooth(x, p, i) + Smooth(y, p, i) <= Smooth(z, p, i)
    decreases i
  {
    hide SmoothStep, RangeSum;
    if i == p {
      SumBudget(x, y, z, 1, p + 1);
    } else {
      SmoothBudget(x, y, z, p, i - 1);
      var a, b := Smooth(x, p, i - 1), Smooth(y, p, i - 1);
      SmoothStepSum(a, x[i], b, y[i], p);
      SmoothStepOrder(a + b, x[i] + y[i], Smooth(z, p, i - 1), z[i], p);
    }
  }

  lemma {:induction false} SmoothPrefix(x: seq<real>, y: seq<real>, p: nat, i: nat)
    requires 1 <= p <= i < |x| && i < |y|
    requires forall k :: 0 <= k <= i ==> x[k] == y[k]
    ensures Smooth(x, p, i) == Smooth(y, p, i)
    decreases i
  {
    hide SmoothStep, RangeSum;
    if i == p {
      RangeSumPrefix(x, y, 1, p + 1);
    } else {
      SmoothPrefix(x, y, p, i - 1);
    }
  }

  // ---------------------------------------------------------------- directional index

  function Dx(tr: real, plus: real, minus: real): real {
    if tr == 0.0 then 0.0
    else
      var plusDi := 100.0 * plus / tr;
      var minusDi := 100.0 * minus / tr;
      var total := plusDi + minusDi;
      if total == 0.0 then 0.0 else 100.0 * Abs(plusDi - minusDi) / total
  }

  lemma DxSymmetric(tr: real, plus: real, minus: real)
    ensures Dx(tr, plus, minus) == Dx(tr, minus, plus)
  {
    if tr != 0.0 {
      assert Abs(100.0 * plus / tr - 100.0 * minus / tr) == Abs(100.0 * minus / tr - 100.0 * plus / tr);
    }
  }

  /** The difference of the two directional sums, in percent of their total; the true range cancels out. */
  lemma DxPlainly(tr: real, plus: real, minus: real)
    requires tr >= 0.0 && plus >= 0.0 && minus >= 0.0
    ensures tr > 0.0 && plus + minus > 0.0 ==> Dx(tr, plus, minus) * (plus + minus) == 100.0 * Abs(plus - minus)
    ensures tr == 0.0 || plus + minus == 0.0 ==> Dx(tr, plus, minus) == 0.0
  {
    if tr > 0.0 {
      var a, b := 100.0 * plus / tr, 100.0 * minus / tr;
      QuotientTimes(100.0 * plus, tr);
      QuotientTimes(100.0 * minus, tr);
      assert (a + b) * tr == 100.0 * (plus + minus);
      if plus + minus > 0.0 {
        if a + b <= 0.0 { ProductOrder(a + b, 0.0, tr); }
        var dx := 100.0 * Abs(a - b) / (a + b);
        QuotientTimes(100.0 * Abs(a - b), a + b);
        AbsTimes(a - b, tr);
        Distribute(a, b, tr);
        assert Abs(a - b) * tr == 100.0 * Abs(plus - minus);
        DxCancels(dx, a + b, Abs(a - b), tr, plus + minus, Abs(plus - minus));
      } else {
        CancelFactor(a + b, 0.0, tr);
      }
    }
  }

  lemma AbsTimes(x: real, t: real)
    requires t > 0.0
    ensures Abs(x) * t == Abs(x * t)
  {
    if x > 0.0 { ProductPositive(x, t); }
    if x < 0.0 { ProductPositive(-x, t); assert -x * t == -(x * t); }
  }

  lemma DxCancels(dx: real, total: real, gap: real, t: real, sum: real, difference: real)
    requires dx * total == 100.0 * gap && total * t == 100.0 * sum && gap * t == 100.0 * difference
    ensures dx * sum == 100.0 * difference
  {
    Associate(dx, total, t);
    assert dx * (100.0 * sum) == 100.0 * gap * t;
    Associate(100.0, gap, t);
    assert dx * (100.0 * sum) == 100.0 * (dx * sum);
  }

  lemma DxBounds(tr: real, plus: real, minus: real)
    requires tr >= 0.0 && plus >= 0.0 && minus >= 0.0
    ensures 0.0 <= Dx(tr, plus, minus) <= 100.0
  {
    if tr > 0.0 {
      var a, b := 100.0 * plus / tr, 100.0 * minus / tr;
      QuotientOrder(100.0 * plus, tr, 0.0);
      QuotientOrder(100.0 * minus, tr, 0.0);
      if a + b > 0.0 {
        QuotientOrder(100.0 * Abs(a - b), a + b, 0.0);
        QuotientOrder(100.0 * Abs(a - b), a + b, 100.0);
      }
    }
  }

  function DxAt(tr: seq<real>, plus: seq<real>, minus: seq<real>, p: nat, i: nat): real
    requires |tr| == |plus| == |minus| && 1 <= p <= i < |tr|
  {
    Dx(Smooth(tr, p, i), Smooth(plus, p, i), Smooth(minus, p, i))
  }

  /** The list the loop builds: entry j belongs to candle p + j. */
  ghost function DxSeries(tr: seq<real>, plus: seq<real>, minus: seq<real>, p: nat): (s: seq<real>)
    requires |tr| == |plus| == |minus| && 1 <= p <= |tr|
    ensures |s| == |tr| - p
    ensures forall j {:trigger s[j]} :: 0 <= j < |s| ==> s[j] == DxAt(tr, plus, minus, p, p + j)
  {
    seq(|tr| - p, j requires 0 <= j < |tr| - p => DxAt(tr, plus, minus, p, p + j))
  }

  ghost function AdxAt(h: seq<real>, l: seq<real>, c: seq<real>, p: nat, i: nat): real
    requires SameLength(h, l, c) && 1 <= p && 2 * p - 1 <= i < |c|
  {
    Wilder(DxSeries(TrueRanges(h, l, c), PlusMoves(h, l), MinusMoves(h, l), p), 0, p, i - p)
  }

  /** Fills the three per-candle lists. */
  method DirectionalInputs(highs: seq<real>, lows: seq<real>, closes: seq<real>)
    returns (tr: seq<real>, plus: seq<real>, minus: seq<real>)
    requires SameLength(highs, lows, closes) && |closes| >= 1
    ensures tr == TrueRanges(highs, lows, closes)
    ensures plus == PlusMoves(highs, lows)
    ensures minus == MinusMoves(highs, lows)
  {
    hide TrueRange, PlusMove, MinusMove;
    var length := |closes|;
    var trueRanges := new real[length](_ => 0.0);
    var plusDm := new real[length](_ => 0.0);
    var minusDm := new real[length](_ => 0.0);
    for index := 1 to length
      invariant forall k {:trigger trueRanges[k]} :: 0 <= k < index ==>
        trueRanges[k] == TrueRangeAt(highs, lows, closes, k)
      invariant forall k {:trigger plusDm[k]} :: 0 <= k < index ==> plusDm[k] == PlusMoveAt(highs, lows, k)
      invariant forall k {:trigger minusDm[k]} :: 0 <= k < index ==> minusDm[k] == MinusMoveAt(highs, lows, k)
    {
      var upMove := highs[index] - highs[index - 1];
      var downMove := lows[index - 1] - lows[index];
      plusDm[index] := PlusMove(upMove, downMove);
      minusDm[index] := MinusMove(upMove, downMove);
      trueRanges[index] := TrueRange(highs[index], lows[index], closes[index - 1]);
    }
    tr, plus, minus := trueRanges[..], plusDm[..], minusDm[..];
  }

  /** The smoothing loop: running sums, the growing list of indices, and the average over it. */
  method SmoothDirectional(trueRanges: seq<real>, plusDm: seq<real>, minusDm: seq<real>, period: nat)
    returns (result: Series)
    requires |trueRanges| == |plusDm| == |minusDm| && 1 <= period && 2 * period <= |trueRanges|
    ensures |result| == |trueRanges|
    ensures forall i {:trigger result[i]} :: 0 <= i < |result| ==>
      result[i] == if i < 2 * period - 1 then None
                   else Some(Wilder(DxSeries(trueRanges, plusDm, minusDm, period), 0, period, i - period))
  {
    hide Dx, SmoothStep, WilderStep, RangeSum, Mean, DxSeries;
    var length := |trueRanges|;
    var values := new Option<real>[length](_ => None);
    var smoothedTr := RangeSum(trueRanges, 1, period + 1);
    var smoothedPlus := RangeSum(plusDm, 1, period + 1);
    var smoothedMinus := RangeSum(minusDm, 1, period + 1);
    var dxValues: seq<real> := [];
    ghost var all := DxSeries(trueRanges, plusDm, minusDm, period);
    for index := period to length
      invariant |dxValues| == index - period
      invariant forall j {:trigger dxValues[j]} :: 0 <= j < |dxValues| ==> dxValues[j] == all[j]
      invariant index == period ==> (
        smoothedTr == Smooth(trueRanges, period, period)
        && smoothedPlus == Smooth(plusDm, period, period)
        && smoothedMinus == Smooth(minusDm, period, period))
      invariant index > period ==> (
        smoothedTr == Smooth(trueRanges, period, index - 1)
        && smoothedPlus == Smooth(plusDm, period, index - 1)
        && smoothedMinus == Smooth(minusDm, period, index - 1))
      invariant forall i {:trigger values[i]} :: index <= i < length ==> values[i] == None
      invariant forall i {:trigger values[i]} :: 0 <= i < index ==>
        values[i] == if i < 2 * period - 1 then None else Some(Wilder(all, 0, period, i - period))
    {
      if index > period {
        smoothedTr := SmoothStep(smoothedTr, trueRanges[index], period);
        smoothedPlus := SmoothStep(smoothedPlus, plusDm[index], period);
        smoothedMinus := SmoothStep(smoothedMinus, minusDm[index], period);
      }
      dxValues := dxValues + [Dx(smoothedTr, smoothedPlus, smoothedMinus)];
      assert all[index - period] == DxAt(trueRanges, plusDm, minusDm, period, index);
      if |dxValues| == period {
        MeanPrefix(dxValues, all, 0, period);
        values[index] := Some(Mean(dxValues, 0, period));
      } else if |dxValues| > period {
        var previousAdx := values[index - 1];
        assert previousAdx.Some?;
        values[index] := Some(WilderStep(previousAdx.value, dxValues[|dxValues| - 1], period));
      }
    }
    result := values[..];
  }

  method Adx(highs: seq<real>, lows: seq<real>, closes: seq<real>, period: int) returns (r: Result<Series>)
    ensures r.Err? <==> period < 1 || !SameLength(highs, lows, closes)
    ensures r.Ok? ==> |r.value| == |closes|
    ensures r.Ok? ==> forall i {:trigger r.value[i]} :: 0 <= i < |closes| ==>
      r.value[i] == if i < 2 * period - 1 then None else Some(AdxAt(highs, lows, closes, period, i))
  {
    hide Wilder, TrueRanges, PlusMoves, MinusMoves, DxSeries;
    if period < 1 {
      return Err("period must be positive");
    }
    if !(|highs| == |lows| == |closes|) {
      return Err("high, low, and close series must have equal lengths");
    }
    if |closes| < period * 2 {
      return Ok(seq(|closes|, _ => None));
    }
    var trueRanges, plusDm, minusDm := DirectionalInputs(highs, lows, closes);
    var result := SmoothDirectional(trueRanges, plusDm, minusDm, period);
    return Ok(result);
  }

  lemma InputsNonNegative(h: seq<real>, l: seq<real>, c: seq<real>)
    requires SameLength(h, l, c)
    ensures forall k :: 0 <= k < |c| ==> TrueRanges(h, l, c)[k] >= 0.0
    ensures forall k :: 0 <= k < |c| ==> PlusMoves(h, l)[k] >= 0.0
    ensures forall k :: 0 <= k < |c| ==> MinusMoves(h, l)[k] >= 0.0
  {
  }

  lemma AdxBounds(h: seq<real>, l: seq<real>, c: seq<real>, p: nat, i: nat)
    requires SameLength(h, l, c) && 1 <= p && 2 * p - 1 <= i < |c|
    ensures 0.0 <= AdxAt(h, l, c, p, i) <= 100.0
  {
    hide Dx, Smooth, Wilder, TrueRanges, PlusMoves, MinusMoves;
    InputsNonNegative(h, l, c);
    var tr, plus, minus := TrueRanges(h, l, c), PlusMoves(h, l), MinusMoves(h, l);
    var all := DxSeries(tr, plus, minus, p);
    forall j | 0 <= j < |all| ensures 0.0 <= all[j] <= 100.0 {
      SmoothNonNegative(tr, p, p + j);
      SmoothNonNegative(plus, p, p + j);
      SmoothNonNegative(minus, p, p + j);
      DxBounds(Smooth(tr, p, p + j), Smooth(plus, p, p + j), Smooth(minus, p, p + j));
    }
    WilderBounds(all, 0, p, i - p, 0.0, 100.0);
  }

  /** Every candle closes inside its own range. */
  ghost predicate ValidCandles(h: seq<real>, l: seq<real>, c: seq<real>) {
    SameLength(h, l, c) && forall k :: 0 <= k < |c| ==> l[k] <= c[k] <= h[k]
  }

  lemma MovesWithinRange(h: seq<real>, l: seq<real>, c: seq<real>)
    requires ValidCandles(h, l, c)
    ensures forall k :: 0 <= k < |c| ==> PlusMoves(h, l)[k] + MinusMoves(h, l)[k] <= TrueRanges(h, l, c)[k]
  {
    forall k | 0 <= k < |c|
      ensures PlusMoves(h, l)[k] + MinusMoves(h, l)[k] <= TrueRanges(h, l, c)[k]
    {
      assert PlusMoves(h, l)[k] == PlusMoveAt(h, l, k) && MinusMoves(h, l)[k] == MinusMoveAt(h, l, k);
      assert k > 0 ==> l[k - 1] <= c[k - 1] <= h[k - 1] && l[k] <= h[k];
    }
  }

  /** On valid candles the two directional sums together never exceed the true-range sum. */
  lemma DirectionalBudget(h: seq<real>, l: seq<real>, c: seq<real>, p: nat, i: nat)
    requires ValidCandles(h, l, c) && 1 <= p <= i < |c|
    ensures Smooth(PlusMoves(h, l), p, i) + Smooth(MinusMoves(h, l), p, i) <= Smooth(TrueRanges(h, l, c), p, i)
  {
    hide Smooth, TrueRanges, PlusMoves, MinusMoves;
    MovesWithinRange(h, l, c);
    SmoothBudget(PlusMoves(h, l), MinusMoves(h, l), TrueRanges(h, l, c), p, i);
  }

  ghost function Negated(x: seq<real>): (y: seq<real>)
    ensures |y| == |x|
  {
    seq(|x|, i requires 0 <= i < |x| => -x[i])
  }

  lemma ReflectedCandle(high: real, low: real, previousClose: real, previousHigh: real, previousLow: real)
    ensures TrueRange(-low, -high, -previousClose) == TrueRange(high, low, previousClose)
    ensures PlusMove(-low - -previousLow, -previousHigh - -high) == MinusMove(high - previousHigh, previousLow - low)
    ensures MinusMove(-low - -previousLow, -previousHigh - -high) == PlusMove(high - previousHigh, previousLow - low)
  {
  }

  lemma ReflectedInputs(h: seq<real>, l: seq<real>, c: seq<real>)
    requires SameLength(h, l, c)
    ensures TrueRanges(Negated(l), Negated(h), Negated(c)) == TrueRanges(h, l, c)
    ensures PlusMoves(Negated(l), Negated(h)) == MinusMoves(h, l)
    ensures MinusMoves(Negated(l), Negated(h)) == PlusMoves(h, l)
  {
    hide TrueRange, PlusMove, MinusMove;
    forall k | 0 <= k < |c|
      ensures TrueRangeAt(Negated(l), Negated(h), Negated(c), k) == TrueRangeAt(h, l, c, k)
      ensures PlusMoveAt(Negated(l), Negated(h), k) == MinusMoveAt(h, l, k)
      ensures MinusMoveAt(Negated(l), Negated(h), k) == PlusMoveAt(h, l, k)
    {
      if k > 0 {
        ReflectedCandle(h[k], l[k], c[k - 1], h[k - 1], l[k - 1]);
      }
    }
  }

  /** Turning the chart upside down leaves the strength of its trend unchanged. */
  lemma AdxReflection(h: seq<real>, l: seq<real>, c: seq<real>, p: nat, i: nat)
    requires SameLength(h, l, c) && 1 <= p && 2 * p - 1 <= i < |c|
    ensures AdxAt(Negated(l), Negated(h), Negated(c), p, i) == AdxAt(h, l, c, p, i)
  {
    hide Dx, Smooth, Wilder, TrueRanges, PlusMoves, MinusMoves, Negated;
    ReflectedInputs(h, l, c);
    var tr, plus, minus := TrueRanges(h, l, c), PlusMoves(h, l), MinusMoves(h, l);
    var all, mirrored := DxSeries(tr, plus, minus, p), DxSeries(tr, minus, plus, p);
    forall j | 0 <= j < |all| ensures all[j] == mirrored[j] {
      DxSymmetric(Smooth(tr, p, p + j), Smooth(plus, p, p + j), Smooth(minus, p, p + j));
    }
    assert all == mirrored;
  }

  /** A chart that makes a higher high on every candle and never a lower low has the full index of 100. */
  lemma AdxOfOneWay(h: seq<real>, l: seq<real>, c: seq<real>, p: nat, i: nat)
    requires ValidCandles(h, l, c) && 1 <= p && 2 * p - 1 <= i < |c|
    requires forall k :: 0 < k < |c| ==> h[k - 1] < h[k] && l[k - 1] <= l[k]
    ensures AdxAt(h, l, c, p, i) == 100.0
  {
    hide Dx, Smooth, Wilder, TrueRanges, PlusMoves, MinusMoves;
    var tr, plus, minus := TrueRanges(h, l, c), PlusMoves(h, l), MinusMoves(h, l);
    OneWayMoves(h, l, c);
    var all := DxSeries(tr, plus, minus, p);
    forall j | 0 <= j < |all| ensures all[j] == 100.0 {
      OneWayDx(tr, plus, minus, p, p + j);
    }
    WilderBounds(all, 0, p, i - p, 100.0, 100.0);
  }

  lemma OneWayMoves(h: seq<real>, l: seq<real>, c: seq<real>)
    requires ValidCandles(h, l, c) && forall k :: 0 < k < |c| ==> h[k - 1] < h[k] && l[k - 1] <= l[k]
    ensures forall k :: 1 <= k < |c| ==> PlusMoves(h, l)[k] > 0.0 && TrueRanges(h, l, c)[k] > 0.0
    ensures forall k :: 0 <= k < |c| ==> MinusMoves(h, l)[k] == 0.0
  {
    forall k | 1 <= k < |c| ensures PlusMoves(h, l)[k] > 0.0 && TrueRanges(h, l, c)[k] > 0.0 {
      assert h[k - 1] < h[k] && l[k - 1] <= l[k] && l[k - 1] <= c[k - 1] <= h[k - 1];
    }
  }

  lemma OneWayDx(tr: seq<real>, plus: seq<real>, minus: seq<real>, p: nat, i: nat)
    requires |tr| == |plus| == |minus| && 1 <= p <= i < |tr|
    requires forall k :: 1 <= k < |tr| ==> plus[k] > 0.0 && tr[k] > 0.0 && minus[k] == 0.0
    ensures DxAt(tr, plus, minus, p, i) == 100.0
  {
    hide Dx, Smooth, Wilder;
    SmoothIsWilder(tr, p, i);
    SmoothIsWilder(plus, p, i);
    SmoothIsWilder(minus, p, i);
    PositiveAverage(tr, 1, p, i);
    PositiveAverage(plus, 1, p, i);
    WilderBounds(minus, 1, p, i, 0.0, 0.0);
    ProductPositive(Wilder(tr, 1, p, i), p as real);
    ProductPositive(Wilder(plus, 1, p, i), p as real);
    var s := Smooth(plus, p, i);
    assert Smooth(minus, p, i) == 0.0;
    DxPlainly(Smooth(tr, p, i), s, 0.0);
    CancelFactor(Dx(Smooth(tr, p, i), s, 0.0), 100.0, s);
  }

  /** Two charts that agree through candle i. */
  ghost predicate AgreeThrough(h: seq<real>, l: seq<real>, c: seq<real>,
                               h': seq<real>, l': seq<real>, c': seq<real>, i: nat) {
    SameLength(h, l, c) && SameLength(h', l', c') && i < |c| && i < |c'|
    && h[..i + 1] == h'[..i + 1] && l[..i + 1] == l'[..i + 1] && c[..i + 1] == c'[..i + 1]
  }

  lemma InputsPrefix(h: seq<real>, l: seq<real>, c: seq<real>,
                     h': seq<real>, l': seq<real>, c': seq<real>, i: nat)
    requires AgreeThrough(h, l, c, h', l', c', i)
    ensures forall k :: 0 <= k <= i ==> TrueRanges(h, l, c)[k] == TrueRanges(h', l', c')[k]
    ensures forall k :: 0 <= k <= i ==> PlusMoves(h, l)[k] == PlusMoves(h', l')[k]
    ensures forall k :: 0 <= k <= i ==> MinusMoves(h, l)[k] == MinusMoves(h', l')[k]
  {
    hide TrueRange, PlusMove, MinusMove;
    SamePrefix(h, h', i);
    SamePrefix(l, l', i);
    SamePrefix(c, c', i);
  }

  lemma AdxNoLookahead(h: seq<real>, l: seq<real>, c: seq<real>,
                       h': seq<real>, l': seq<real>, c': seq<real>, p: nat, i: nat)
    requires AgreeThrough(h, l, c, h', l', c', i) && 1 <= p && 2 * p - 1 <= i
    ensures AdxAt(h, l, c, p, i) == AdxAt(h', l', c', p, i)
  {
    hide Dx, Smooth, Wilder, TrueRanges, PlusMoves, MinusMoves;
    InputsPrefix(h, l, c, h', l', c', i);
    var tr, plus, minus := TrueRanges(h, l, c), PlusMoves(h, l), MinusMoves(h, l);
    var tr', plus', minus' := TrueRanges(h', l', c'), PlusMoves(h', l'), MinusMoves(h', l');
    var all, all' := DxSeries(tr, plus, minus, p), DxSeries(tr', plus', minus', p);
    forall j | 0 <= j <= i - p ensures all[j] == all'[j] {
      SmoothPrefix(tr, tr', p, p + j);
      SmoothPrefix(plus, plus', p, p + j);
      SmoothPrefix(minus, minus', p, p + j);
    }
    WilderPrefix(all, all', 0, p, i - p);
  }

  // ---------------------------------------------------------------- average true range

  ghost function AtrAt(h: seq<real>, l: seq<real>, c: seq<real>, p: nat, i: nat): real
    requires SameLength(h, l, c) && 1 <= p <= i < |c|
  {
    Wilder(TrueRanges(h, l, c), 1, p, i)
  }

  method Atr(highs: seq<real>, lows: seq<real>, closes: seq<real>, period: int) returns (r: Result<Series>)
    ensures r.Err? <==> period < 1 || !SameLength(highs, lows, closes)
    ensures r.Ok? ==> |r.value| == |closes|
    ensures r.Ok? ==> forall i {:trigger r.value[i]} :: 0 <= i < |closes| ==>
      r.value[i] == if i < period then None else Some(AtrAt(highs, lows, closes, period, i))
  {
    hide WilderStep, Mean, TrueRange;
    if period < 1 {
      return Err("period must be positive");
    }
    if !(|highs| == |lows| == |closes|) {
      return Err("high, low, and close series must have equal lengths");
    }
    var length := |closes|;
    var result := new Option<real>[length](_ => None);
    if length <= period {
      return Ok(result[..]);
    }
    var trueRanges := new real[length](_ => 0.0);
    for index := 1 to length
      invariant forall i {:trigger result[i]} :: 0 <= i < length ==> result[i] == None
      invariant forall k {:trigger trueRanges[k]} :: 0 <= k < index ==>
        trueRanges[k] == TrueRanges(highs, lows, closes)[k]
    {
      trueRanges[index] := TrueRange(highs[index], lows[index], closes[index - 1]);
    }
    assert trueRanges[..] == TrueRanges(highs, lows, closes);
    var current := Mean(trueRanges[..], 1, period);
    result[period] := Some(current);
    for index := period + 1 to length
      invariant trueRanges[..] == TrueRanges(highs, lows, closes)
      invariant current == AtrAt(highs, lows, closes, period, index - 1)
      invariant forall i {:trigger result[i]} :: index <= i < length ==> result[i] == None
      invariant forall i {:trigger result[i]} :: 0 <= i < index ==>
        result[i] == if i < period then None else Some(AtrAt(highs, lows, closes, period, i))
    {
      assert trueRanges[index] == trueRanges[..][index];
      current := WilderStep(current, trueRanges[index], period);
      result[index] := Some(current);
    }
    return Ok(result[..]);
  }

  lemma AtrNoLookahead(h: seq<real>, l: seq<real>, c: seq<real>,
                       h': seq<real>, l': seq<real>, c': seq<real>, p: nat, i: nat)
    requires AgreeThrough(h, l, c, h', l', c', i) && 1 <= p <= i
    ensures AtrAt(h, l, c, p, i) == AtrAt(h', l', c', p, i)
  {
    hide Wilder, TrueRanges, PlusMoves, MinusMoves;
    InputsPrefix(h, l, c, h', l', c', i);
    WilderPrefix(TrueRanges(h, l, c), TrueRanges(h', l', c'), 1, p, i);
  }
}
