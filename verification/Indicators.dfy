/** The technical indicators: each loop is proved against a recursive description of the value
    at one index, and the laws of the indicator are proved about that description. */
module Indicators {
  import opened Prelude
  import opened Arithmetic

  type Series = seq<Option<real>>

  // ---------------------------------------------------------------- sums and smoothing

  /** v[lo] + ... + v[hi-1]. */
  function RangeSum(v: seq<real>, lo: nat, hi: nat): real
    requires lo <= hi <= |v|
  {
    if lo == hi then 0.0 else RangeSum(v, lo, hi - 1) + v[hi - 1]
  }

  /** The plain mean of the n values from `lo`. */
  function Mean(v: seq<real>, lo: nat, n: nat): real
    requires n >= 1 && lo + n <= |v|
  {
    RangeSum(v, lo, lo + n) / n as real
  }

  /** One update of Wilder's smoothing: the old average weighs p-1 parts, the new value one. */
  function WilderStep(previous: real, x: real, p: nat): real
    requires p >= 1
  {
    (previous * (p - 1) as real + x) / p as real
  }

  /** Wilder's average of x, seeded with the plain mean of the `p` values from `lo`. */
  function Wilder(x: seq<real>, lo: nat, p: nat, i: nat): real
    requires 1 <= p && lo + p - 1 <= i < |x|
    decreases i
  {
    if i == lo + p - 1 then
      Mean(x, lo, p)
    else
      WilderStep(Wilder(x, lo, p, i - 1), x[i], p)
  }

  /** Wilder's average starts as the plain mean, and each value then moves it by one p-th of its distance. */
  lemma WilderRecurrence(x: seq<real>, lo: nat, p: nat, i: nat)
    requires 1 <= p && lo + p - 1 <= i < |x|
    ensures i == lo + p - 1 ==> Wilder(x, lo, p, i) * p as real == RangeSum(x, lo, lo + p)
    ensures i >= lo + p ==> (Wilder(x, lo, p, i) - Wilder(x, lo, p, i - 1)) * p as real == x[i] - Wilder(x, lo, p, i - 1)
  {
    hide RangeSum;
    if i == lo + p - 1 {
      QuotientTimes(RangeSum(x, lo, lo + p), p as real);
    } else {
      var w := Wilder(x, lo, p, i - 1);
      hide Wilder;
      QuotientTimes(w * (p - 1) as real + x[i], p as real);
      NextMultiple(w, p - 1);
      Distribute(WilderStep(w, x[i], p), w, p as real);
    }
  }

  lemma {:induction false} RangeSumPrefix(v: seq<real>, w: seq<real>, lo: nat, hi: nat)
    requires lo <= hi <= |v| && hi <= |w|
    requires forall k :: lo <= k < hi ==> v[k] == w[k]
    ensures RangeSum(v, lo, hi) == RangeSum(w, lo, hi)
  {
    if lo < hi {
      RangeSumPrefix(v, w, lo, hi - 1);
    }
  }

  lemma {:induction false} RangeSumDropFirst(v: seq<real>, lo: nat, hi: nat)
    requires lo < hi <= |v|
    ensures RangeSum(v, lo, hi) == v[lo] + RangeSum(v, lo + 1, hi)
  {
    if lo + 1 < hi {
      RangeSumDropFirst(v, lo, hi - 1);
    }
  }

  lemma NextMultiple(a: real, n: nat)
    ensures a * (n + 1) as real == a * n as real + a
  {
    assert (n + 1) as real == n as real + 1.0;
  }

  lemma {:induction false} RangeSumBounds(v: seq<real>, lo: nat, hi: nat, a: real, b: real)
    requires lo <= hi <= |v|
    requires forall k :: lo <= k < hi ==> a <= v[k] <= b
    ensures a * (hi - lo) as real <= RangeSum(v, lo, hi) <= b * (hi - lo) as real
  {
    if lo < hi {
      RangeSumBounds(v, lo, hi - 1, a, b);
      NextMultiple(a, hi - 1 - lo);
      NextMultiple(b, hi - 1 - lo);
    }
  }

  /** y is the image of x under an affine map, index by index. */
  ghost predicate Affine(x: seq<real>, y: seq<real>, a: real, b: real) {
    |x| == |y| && forall k :: 0 <= k < |x| ==> y[k] == a * x[k] + b
  }

  lemma {:induction false} RangeSumAffine(x: seq<real>, y: seq<real>, a: real, b: real, lo: nat, hi: nat)
    requires Affine(x, y, a, b) && lo <= hi <= |x|
    ensures RangeSum(y, lo, hi) == a * RangeSum(x, lo, hi) + b * (hi - lo) as real
  {
    if lo < hi {
      RangeSumAffine(x, y, a, b, lo, hi - 1);
      NextMultiple(b, hi - 1 - lo);
      assert a * (RangeSum(x, lo, hi - 1) + x[hi - 1]) == a * RangeSum(x, lo, hi - 1) + a * x[hi - 1];
    }
  }

  lemma QuotientBounds(sum: real, n: real, a: real, b: real)
    requires n > 0.0 && a * n <= sum <= b * n
    ensures a <= sum / n <= b
  {
    QuotientOrder(sum, n, a);
    QuotientOrder(sum, n, b);
  }

  lemma MeanBounds(v: seq<real>, lo: nat, n: nat, a: real, b: real)
    requires n >= 1 && lo + n <= |v|
    requires forall k :: lo <= k < lo + n ==> a <= v[k] <= b
    ensures a <= Mean(v, lo, n) <= b
  {
    RangeSumBounds(v, lo, lo + n, a, b);
    QuotientBounds(RangeSum(v, lo, lo + n), n as real, a, b);
  }

  lemma QuotientAffine(image: real, sum: real, n: real, a: real, b: real)
    requires n > 0.0 && image == a * sum + b * n
    ensures image / n == a * (sum / n) + b
  {
    QuotientUnique(image, n, a * (sum / n) + b);
  }

  lemma MeanAffine(x: seq<real>, y: seq<real>, a: real, b: real, lo: nat, n: nat)
    requires n >= 1 && lo + n <= |x| && Affine(x, y, a, b)
    ensures Mean(y, lo, n) == a * Mean(x, lo, n) + b
  {
    hide RangeSum;
    RangeSumAffine(x, y, a, b, lo, lo + n);
    assert lo + n - lo == n;
    QuotientAffine(RangeSum(y, lo, lo + n), RangeSum(x, lo, lo + n), n as real, a, b);
  }

  lemma MeanPrefix(v: seq<real>, w: seq<real>, lo: nat, n: nat)
    requires n >= 1 && lo + n <= |v| && lo + n <= |w|
    requires forall k :: lo <= k < lo + n ==> v[k] == w[k]
    ensures Mean(v, lo, n) == Mean(w, lo, n)
  {
    RangeSumPrefix(v, w, lo, lo + n);
  }

  lemma StepAbove(w: real, x: real, q: real, a: real)
    requires q >= 0.0 && a <= w && a <= x
    ensures a * (q + 1.0) <= w * q + x
  {
    assert 0.0 <= (w - a) * q;
    assert (w - a) * q + (x - a) == w * q + x - a * (q + 1.0);
  }

  lemma StepBelow(w: real, x: real, q: real, b: real)
    requires q >= 0.0 && w <= b && x <= b
    ensures w * q + x <= b * (q + 1.0)
  {
    assert 0.0 <= (b - w) * q;
    assert (b - w) * q + (b - x) == b * (q + 1.0) - (w * q + x);
  }

  lemma WilderStepBounds(w: real, x: real, p: nat, a: real, b: real)
    requires p >= 1 && a <= w <= b && a <= x <= b
    ensures a <= WilderStep(w, x, p) <= b
  {
    var q := (p - 1) as real;
    assert p as real == q + 1.0;
    StepAbove(w, x, q, a);
    StepBelow(w, x, q, b);
    QuotientBounds(w * q + x, q + 1.0, a, b);
  }

  lemma {:induction false} WilderBounds(x: seq<real>, lo: nat, p: nat, i: nat, a: real, b: real)
    requires 1 <= p && lo + p - 1 <= i < |x|
    requires forall k :: lo <= k <= i ==> a <= x[k] <= b
    ensures a <= Wilder(x, lo, p, i) <= b
    decreases i
  {
    hide Mean, WilderStep;
    if i == lo + p - 1 {
      MeanBounds(x, lo, p, a, b);
    } else {
      WilderBounds(x, lo, p, i - 1, a, b);
      WilderStepBounds(Wilder(x, lo, p, i - 1), x[i], p, a, b);
    }
  }

  lemma {:induction false} WilderPrefix(x: seq<real>, y: seq<real>, lo: nat, p: nat, i: nat)
    requires 1 <= p && lo + p - 1 <= i < |x| && i < |y|
    requires forall k :: lo <= k <= i ==> x[k] == y[k]
    ensures Wilder(x, lo, p, i) == Wilder(y, lo, p, i)
    decreases i
  {
    hide Mean, WilderStep;
    if i == lo + p - 1 {
      MeanPrefix(x, y, lo, p);
    } else {
      WilderPrefix(x, y, lo, p, i - 1);
    }
  }

  lemma WilderStepScale(w: real, x: real, w': real, x': real, p: nat, a: real)
    requires p >= 1 && w' == a * w && x' == a * x
    ensures WilderStep(w', x', p) == a * WilderStep(w, x, p)
  {
    var q := (p - 1) as real;
    assert a * w * q + a * x == a * (w * q + x);
    QuotientScale(w * q + x, p as real, a);
  }

  lemma QuotientScale(sum: real, n: real, a: real)
    requires n > 0.0
    ensures (a * sum) / n == a * (sum / n)
  {
    QuotientUnique(a * sum, n, a * (sum / n));
  }

  lemma {:induction false} WilderScale(x: seq<real>, y: seq<real>, a: real, lo: nat, p: nat, i: nat)
    requires 1 <= p && lo + p - 1 <= i < |x| && Affine(x, y, a, 0.0)
    ensures Wilder(y, lo, p, i) == a * Wilder(x, lo, p, i)
    decreases i
  {
    hide Mean, WilderStep;
    if i == lo + p - 1 {
      MeanAffine(x, y, a, 0.0, lo, p);
    } else {
      WilderScale(x, y, a, lo, p, i - 1);
      WilderStepScale(Wilder(x, lo, p, i - 1), x[i], Wilder(y, lo, p, i - 1), y[i], p, a);
    }
  }

  // ---------------------------------------------------------------- exponential moving average

  /** The smoothing constant 2 / (period + 1). */
  function Alpha(p: nat): real {
    2.0 / (p + 1) as real
  }

  /** One update: the average moves a fraction t of the way to the new value. */
  function Blend(x: real, previous: real, t: real): real {
    (x - previous) * t + previous
  }

  function EmaAt(v: seq<real>, p: nat, i: nat): real
    requires 1 <= p && p - 1 <= i < |v|
    decreases i
  {
    if i == p - 1 then
      Mean(v, 0, p)
    else
      Blend(v[i], EmaAt(v, p, i - 1), Alpha(p))
  }

  /** The average starts as the plain mean, and each value then moves it by 2 / (p + 1) of its distance. */
  lemma EmaRecurrence(v: seq<real>, p: nat, i: nat)
    requires 1 <= p && p - 1 <= i < |v|
    ensures i == p - 1 ==> EmaAt(v, p, i) * p as real == RangeSum(v, 0, p)
    ensures i >= p ==> (EmaAt(v, p, i) - EmaAt(v, p, i - 1)) * (p + 1) as real == 2.0 * (v[i] - EmaAt(v, p, i - 1))
  {
    hide RangeSum;
    if i == p - 1 {
      QuotientTimes(RangeSum(v, 0, p), p as real);
    } else {
      QuotientTimes(2.0, (p + 1) as real);
      Associate(v[i] - EmaAt(v, p, i - 1), Alpha(p), (p + 1) as real);
    }
  }

  method Ema(values: seq<real>, period: int) returns (r: Result<Series>)
    ensures r.Err? <==> period < 1
    ensures r.Ok? ==> |r.value| == |values|
    ensures r.Ok? ==> forall i {:trigger r.value[i]} :: 0 <= i < |values| ==>
      r.value[i] == if i < period - 1 then None else Some(EmaAt(values, period, i))
  {
    hide Mean, Blend, Alpha, RangeSum;
    if period < 1 {
      return Err("period must be positive");
    }
    var result := new Option<real>[|values|](_ => None);
    if |values| < period {
      return Ok(result[..]);
    }
    var current := Mean(values, 0, period);
    result[period - 1] := Some(current);
    var multiplier := Alpha(period);
    for index := period to |values|
      invariant current == EmaAt(values, period, index - 1)
      invariant forall i {:trigger result[i]} :: index <= i < |values| ==> result[i] == None
      invariant forall i {:trigger result[i]} :: 0 <= i < index ==>
        result[i] == if i < period - 1 then None else Some(EmaAt(values, period, i))
    {
      current := Blend(values[index], current, multiplier);
      result[index] := Some(current);
    }
    return Ok(result[..]);
  }

  lemma {:induction false} EmaNoLookahead(v: seq<real>, w: seq<real>, p: nat, i: nat)
    requires 1 <= p && p - 1 <= i < |v| && i < |w|
    requires v[..i + 1] == w[..i + 1]
    ensures EmaAt(v, p, i) == EmaAt(w, p, i)
    decreases i
  {
    hide Mean, Blend, Alpha;
    forall k | 0 <= k <= i ensures v[k] == w[k] {
      assert v[k] == v[..i + 1][k] == w[..i + 1][k];
    }
    if i == p - 1 {
      MeanPrefix(v, w, 0, p);
    } else {
      assert v[..i] == v[..i + 1][..i] && w[..i] == w[..i + 1][..i];
      EmaNoLookahead(v, w, p, i - 1);
    }
  }

  lemma BlendBounds(x: real, y: real, t: real, a: real, b: real)
    requires 0.0 <= t <= 1.0 && a <= x <= b && a <= y <= b
    ensures a <= Blend(x, y, t) <= b
  {
    Mixture(x, y, t, a, b);
  }

  lemma AlphaRange(p: nat)
    requires p >= 1
    ensures 0.0 < Alpha(p) <= 1.0
  {
    QuotientOrder(2.0, (p + 1) as real, 1.0);
    QuotientOrder(2.0, (p + 1) as real, 0.0);
  }

  /** The average stays between any bounds on the values seen so far. */
  lemma {:induction false} EmaBounds(v: seq<real>, p: nat, i: nat, a: real, b: real)
    requires 1 <= p && p - 1 <= i < |v|
    requires forall k :: 0 <= k <= i ==> a <= v[k] <= b
    ensures a <= EmaAt(v, p, i) <= b
    decreases i
  {
    hide Mean, Blend, Alpha;
    if i == p - 1 {
      MeanBounds(v, 0, p, a, b);
    } else {
      EmaBounds(v, p, i - 1, a, b);
      AlphaRange(p);
      BlendBounds(v[i], EmaAt(v, p, i - 1), Alpha(p), a, b);
    }
  }

  lemma BlendAffine(x: real, y: real, x': real, y': real, t: real, a: real, b: real)
    requires x' == a * x + b && y' == a * y + b
    ensures Blend(x', y', t) == a * Blend(x, y, t) + b
  {
    assert x' - y' == a * (x - y);
    assert (x' - y') * t == a * ((x - y) * t);
  }

  /** Rescaling and shifting the prices rescales and shifts the average. */
  lemma {:induction false} EmaAffine(v: seq<real>, w: seq<real>, p: nat, i: nat, a: real, b: real)
    requires 1 <= p && p - 1 <= i < |v| && Affine(v, w, a, b)
    ensures EmaAt(w, p, i) == a * EmaAt(v, p, i) + b
    decreases i
  {
    hide Mean, Blend, Alpha;
    if i == p - 1 {
      MeanAffine(v, w, a, b, 0, p);
    } else {
      EmaAffine(v, w, p, i - 1, a, b);
      BlendAffine(v[i], EmaAt(v, p, i - 1), w[i], EmaAt(w, p, i - 1), Alpha(p), a, b);
    }
  }

  /** The contribution of a value seen n updates ago. */
  function Term(t: real, n: nat, x: real): real {
    t * Power(1.0 - t, n) * x
  }

  /** Sum over k in lo..hi-1 of Term(t, hi-1-k, v[k]): geometric weights, newest heaviest. */
  ghost function WeightedSum(v: seq<real>, t: real, lo: nat, hi: nat): real
    requires lo <= hi <= |v|
    decreases hi - lo
  {
    if lo == hi then 0.0 else Term(t, hi - 1 - lo, v[lo]) + WeightedSum(v, t, lo + 1, hi)
  }

  lemma TermAges(t: real, n: nat, x: real)
    ensures Term(t, 0, x) == t * x
    ensures Term(t, n + 1, x) == (1.0 - t) * Term(t, n, x)
  {
    var q := Power(1.0 - t, n);
    assert t * ((1.0 - t) * q) * x == (1.0 - t) * (t * q * x);
  }

  lemma ProductOfSum(u: real, a: real, b: real)
    ensures u * (a + b) == u * a + u * b
  {
  }

  lemma {:induction false} WeightedSumExtend(v: seq<real>, t: real, lo: nat, hi: nat)
    requires lo <= hi < |v|
    ensures WeightedSum(v, t, lo, hi + 1) == (1.0 - t) * WeightedSum(v, t, lo, hi) + t * v[hi]
    decreases hi - lo
  {
    hide Term, Power;
    if lo == hi {
      TermAges(t, 0, v[hi]);
      assert WeightedSum(v, t, hi + 1, hi + 1) == 0.0;
    } else {
      WeightedSumExtend(v, t, lo + 1, hi);
      TermAges(t, hi - 1 - lo, v[lo]);
      ProductOfSum(1.0 - t, Term(t, hi - 1 - lo, v[lo]), WeightedSum(v, t, lo + 1, hi));
    }
  }

  lemma BlendSplit(x: real, y: real, t: real, n: nat, seed: real, s: real)
    requires y == Power(1.0 - t, n) * seed + s
    ensures Blend(x, y, t) == Power(1.0 - t, n + 1) * seed + ((1.0 - t) * s + t * x)
  {
    var q := Power(1.0 - t, n);
    assert Blend(x, y, t) == (1.0 - t) * y + t * x;
    assert (1.0 - t) * (q * seed + s) == (1.0 - t) * q * seed + (1.0 - t) * s;
  }

  /** The recursion's closed form: a decayed seed plus geometrically weighted later values. */
  lemma {:induction false} EmaClosedForm(v: seq<real>, p: nat, i: nat)
    requires 1 <= p && p - 1 <= i < |v|
    ensures EmaAt(v, p, i) ==
      Power(1.0 - Alpha(p), i - (p - 1)) * Mean(v, 0, p) + WeightedSum(v, Alpha(p), p, i + 1)
    decreases i
  {
    hide Mean, Blend, Alpha, Term;
    if i > p - 1 {
      EmaClosedForm(v, p, i - 1);
      WeightedSumExtend(v, Alpha(p), p, i);
      BlendSplit(v[i], EmaAt(v, p, i - 1), Alpha(p), i - p, Mean(v, 0, p), WeightedSum(v, Alpha(p), p, i));
    }
  }

  // ---------------------------------------------------------------- relative strength index

  function Gains(v: seq<real>): (g: seq<real>)
    requires |v| >= 1
    ensures |g| == |v| - 1
  {
    seq(|v| - 1, k requires 0 <= k < |v| - 1 => Max(v[k + 1] - v[k], 0.0))
  }

  function Losses(v: seq<real>): (l: seq<real>)
    requires |v| >= 1
    ensures |l| == |v| - 1
  {
    seq(|v| - 1, k requires 0 <= k < |v| - 1 => Max(-(v[k + 1] - v[k]), 0.0))
  }

  function RsiValue(averageGain: real, averageLoss: real): real
    requires averageGain >= 0.0 && averageLoss >= 0.0
  {
    if averageLoss == 0.0 then
      if averageGain == 0.0 then 50.0 else 100.0
    else
      var relativeStrength := averageGain / averageLoss;
      100.0 - 100.0 / (1.0 + relativeStrength)
  }

  /** Each change is a gain or a loss, in full. */
  lemma ChangesSplit(v: seq<real>, k: nat)
    requires k + 1 < |v|
    ensures Gains(v)[k] - Losses(v)[k] == v[k + 1] - v[k]
    ensures Gains(v)[k] >= 0.0 && Losses(v)[k] >= 0.0 && (Gains(v)[k] == 0.0 || Losses(v)[k] == 0.0)
  {
  }

  lemma AveragesNonNegative(v: seq<real>, p: nat, i: nat)
    requires 1 <= p <= i < |v|
    ensures Wilder(Gains(v), 0, p, i - 1) >= 0.0
    ensures Wilder(Losses(v), 0, p, i - 1) >= 0.0
  {
    NonNegativeAverage(Gains(v), 0, p, i - 1);
    NonNegativeAverage(Losses(v), 0, p, i - 1);
  }

  lemma {:induction false} NonNegativeAverage(x: seq<real>, lo: nat, p: nat, i: nat)
    requires 1 <= p && lo + p - 1 <= i < |x|
    requires forall k :: lo <= k <= i ==> 0.0 <= x[k]
    ensures Wilder(x, lo, p, i) >= 0.0
    decreases i
  {
    if i == lo + p - 1 {
      NonNegativeSum(x, lo, lo + p);
    } else {
      NonNegativeAverage(x, lo, p, i - 1);
    }
  }

  lemma {:induction false} NonNegativeSum(x: seq<real>, lo: nat, hi: nat)
    requires lo <= hi <= |x|
    requires forall k :: lo <= k < hi ==> 0.0 <= x[k]
    ensures RangeSum(x, lo, hi) >= 0.0
  {
    if lo < hi {
      NonNegativeSum(x, lo, hi - 1);
    }
  }

  function RsiAt(v: seq<real>, p: nat, i: nat): real
    requires 1 <= p <= i < |v|
  {
    AveragesNonNegative(v, p, i);
    RsiValue(Wilder(Gains(v), 0, p, i - 1), Wilder(Losses(v), 0, p, i - 1))
  }

  method Rsi(values: seq<real>, period: int) returns (r: Result<Series>)
    ensures r.Err? <==> period < 1
    ensures r.Ok? ==> |r.value| == |values|
    ensures r.Ok? ==> forall i {:trigger r.value[i]} :: 0 <= i < |values| ==>
      r.value[i] == if i < period then None else Some(RsiAt(values, period, i))
  {
    hide Mean, WilderStep, RsiValue, Gains, Losses;
    if period < 1 {
      return Err("period must be positive");
    }
    var result := new Option<real>[|values|](_ => None);
    if |values| <= period {
      return Ok(result[..]);
    }
    var gains, losses := Gains(values), Losses(values);
    var averageGain := Mean(gains, 0, period);
    var averageLoss := Mean(losses, 0, period);
    AveragesNonNegative(values, period, period);
    result[period] := Some(RsiValue(averageGain, averageLoss));
    for index := period + 1 to |values|
      invariant averageGain == Wilder(gains, 0, period, index - 2)
      invariant averageLoss == Wilder(losses, 0, period, index - 2)
      invariant forall i {:trigger result[i]} :: index <= i < |values| ==> result[i] == None
      invariant forall i {:trigger result[i]} :: 0 <= i < index ==>
        result[i] == if i < period then None else Some(RsiAt(values, period, i))
    {
      var changeIndex := index - 1;
      averageGain := WilderStep(averageGain, gains[changeIndex], period);
      averageLoss := WilderStep(averageLoss, losses[changeIndex], period);
      AveragesNonNegative(values, period, index);
      result[index] := Some(RsiValue(averageGain, averageLoss));
    }
    return Ok(result[..]);
  }

  /** The usual form of the index: gains as a percentage of all movement. */
  lemma RsiShare(g: real, l: real)
    requires g >= 0.0 && l >= 0.0 && g + l > 0.0
    ensures RsiValue(g, l) * (g + l) == 100.0 * g
  {
    if l > 0.0 {
      var rs := g / l;
      QuotientTimes(g, l);
      QuotientOrder(g, l, 0.0);
      var x := 100.0 / (1.0 + rs);
      QuotientTimes(100.0, 1.0 + rs);
      Associate(x, 1.0 + rs, l);
      assert (1.0 + rs) * l == g + l;
    }
  }

  lemma {:induction false} PositiveAverage(x: seq<real>, lo: nat, p: nat, i: nat)
    requires 1 <= p && lo + p - 1 <= i < |x|
    requires forall k :: lo <= k <= i ==> 0.0 < x[k]
    ensures Wilder(x, lo, p, i) > 0.0
    decreases i
  {
    hide RangeSum, Mean, WilderStep;
    WilderRecurrence(x, lo, p, i);
    if i == lo + p - 1 {
      PositiveSum(x, lo, lo + p);
      if Wilder(x, lo, p, i) <= 0.0 { ProductOrder(Wilder(x, lo, p, i), 0.0, p as real); }
    } else {
      PositiveAverage(x, lo, p, i - 1);
      PositiveStep(Wilder(x, lo, p, i - 1), x[i], p);
    }
  }

  lemma PositiveStep(w: real, x: real, p: nat)
    requires p >= 1 && w > 0.0 && x > 0.0
    ensures WilderStep(w, x, p) > 0.0
  {
    ProductOrder(0.0, w, (p - 1) as real);
    QuotientOrder(w * (p - 1) as real + x, p as real, 0.0);
  }

  lemma {:induction false} PositiveSum(x: seq<real>, lo: nat, hi: nat)
    requires lo < hi <= |x|
    requires forall k :: lo <= k < hi ==> 0.0 < x[k]
    ensures RangeSum(x, lo, hi) > 0.0
  {
    if lo + 1 < hi {
      PositiveSum(x, lo, hi - 1);
    } else {
      assert RangeSum(x, lo, lo) == 0.0;
    }
  }

  lemma RsiOfRises(v: seq<real>, p: nat, i: nat)
    requires 1 <= p <= i < |v| && forall k :: 0 <= k < i ==> v[k] < v[k + 1]
    ensures RsiAt(v, p, i) == 100.0
  {
    hide Wilder;
    WilderBounds(Losses(v), 0, p, i - 1, 0.0, 0.0);
    PositiveAverage(Gains(v), 0, p, i - 1);
  }

  lemma RsiOfFalls(v: seq<real>, p: nat, i: nat)
    requires 1 <= p <= i < |v| && forall k :: 0 <= k < i ==> v[k] > v[k + 1]
    ensures RsiAt(v, p, i) == 0.0
  {
    hide Wilder, RsiValue;
    WilderBounds(Gains(v), 0, p, i - 1, 0.0, 0.0);
    PositiveAverage(Losses(v), 0, p, i - 1);
    RsiNothing(Wilder(Losses(v), 0, p, i - 1));
  }

  lemma RsiOfStandstill(v: seq<real>, p: nat, i: nat)
    requires 1 <= p <= i < |v| && forall k :: 0 <= k < i ==> v[k] == v[k + 1]
    ensures RsiAt(v, p, i) == 50.0
  {
    hide Wilder;
    WilderBounds(Gains(v), 0, p, i - 1, 0.0, 0.0);
    WilderBounds(Losses(v), 0, p, i - 1, 0.0, 0.0);
  }

  /** 100 after nothing but rises, 0 after nothing but falls, 50 when nothing moved. */
  lemma RsiExtremes(v: seq<real>, p: nat, i: nat)
    requires 1 <= p <= i < |v|
    ensures (forall k :: 0 <= k < i ==> v[k] < v[k + 1]) ==> RsiAt(v, p, i) == 100.0
    ensures (forall k :: 0 <= k < i ==> v[k] > v[k + 1]) ==> RsiAt(v, p, i) == 0.0
    ensures (forall k :: 0 <= k < i ==> v[k] == v[k + 1]) ==> RsiAt(v, p, i) == 50.0
  {
    hide RsiAt;
    if forall k :: 0 <= k < i ==> v[k] < v[k + 1] { RsiOfRises(v, p, i); }
    if forall k :: 0 <= k < i ==> v[k] > v[k + 1] { RsiOfFalls(v, p, i); }
    if forall k :: 0 <= k < i ==> v[k] == v[k + 1] { RsiOfStandstill(v, p, i); }
  }

  lemma RsiNothing(l: real)
    requires l > 0.0
    ensures RsiValue(0.0, l) == 0.0
  {
    QuotientUnique(0.0, l, 0.0);
  }

  lemma RsiBounds(v: seq<real>, p: nat, i: nat)
    requires 1 <= p <= i < |v|
    ensures 0.0 <= RsiAt(v, p, i) <= 100.0
  {
    AveragesNonNegative(v, p, i);
    RsiValueBounds(Wilder(Gains(v), 0, p, i - 1), Wilder(Losses(v), 0, p, i - 1));
  }

  lemma RsiValueBounds(g: real, l: real)
    requires g >= 0.0 && l >= 0.0
    ensures 0.0 <= RsiValue(g, l) <= 100.0
  {
    if g + l > 0.0 {
      RsiShare(g, l);
      QuotientUnique(100.0 * g, g + l, RsiValue(g, l));
      QuotientOrder(100.0 * g, g + l, 0.0);
      QuotientOrder(100.0 * g, g + l, 100.0);
    }
  }

  /** The index of the prices reflected in any level is the complement to 100. */
  lemma RsiMirror(v: seq<real>, w: seq<real>, c: real, p: nat, i: nat)
    requires 1 <= p <= i < |v| && Affine(v, w, -1.0, c)
    ensures RsiAt(w, p, i) == 100.0 - RsiAt(v, p, i)
  {
    assert Gains(w) == Losses(v) by {
      assert forall k :: 0 <= k < |v| - 1 ==> Gains(w)[k] == Losses(v)[k];
    }
    assert Losses(w) == Gains(v) by {
      assert forall k :: 0 <= k < |v| - 1 ==> Losses(w)[k] == Gains(v)[k];
    }
    AveragesNonNegative(v, p, i);
    RsiComplement(Wilder(Gains(v), 0, p, i - 1), Wilder(Losses(v), 0, p, i - 1));
  }

  lemma RsiComplement(g: real, l: real)
    requires g >= 0.0 && l >= 0.0
    ensures RsiValue(l, g) == 100.0 - RsiValue(g, l)
  {
    if g + l > 0.0 {
      RsiShare(g, l);
      RsiShare(l, g);
      Distribute(100.0, RsiValue(g, l), g + l);
      CancelFactor(RsiValue(l, g), 100.0 - RsiValue(g, l), g + l);
    }
  }

  lemma RsiValueScale(g: real, l: real, g': real, l': real, a: real)
    requires g >= 0.0 && l >= 0.0 && g' >= 0.0 && l' >= 0.0
    requires a > 0.0 && g' == a * g && l' == a * l
    ensures RsiValue(g', l') == RsiValue(g, l)
  {
    if g > 0.0 { ProductPositive(a, g); }
    if l > 0.0 {
      ProductPositive(a, l);
      assert g / l * l' == a * (g / l * l);
      QuotientUnique(g', l', g / l);
    }
  }

  lemma MaxScale(x: real, a: real)
    requires a > 0.0
    ensures Max(a * x, 0.0) == a * Max(x, 0.0)
    ensures Max(-(a * x), 0.0) == a * Max(-x, 0.0)
  {
    if x > 0.0 { ProductPositive(a, x); }
    if x < 0.0 { ProductPositive(a, -x); }
  }

  lemma ChangesScale(v: seq<real>, w: seq<real>, a: real, b: real)
    requires |v| >= 1 && a > 0.0 && Affine(v, w, a, b)
    ensures Affine(Gains(v), Gains(w), a, 0.0) && Affine(Losses(v), Losses(w), a, 0.0)
  {
    forall k | 0 <= k < |v| - 1
      ensures Gains(w)[k] == a * Gains(v)[k] && Losses(w)[k] == a * Losses(v)[k]
    {
      Distribute(v[k + 1], v[k], a);
      MaxScale(v[k + 1] - v[k], a);
    }
  }

  /** The index ignores the unit and the origin of the prices. */
  lemma RsiScaleShift(v: seq<real>, w: seq<real>, a: real, b: real, p: nat, i: nat)
    requires 1 <= p <= i < |v| && a > 0.0 && Affine(v, w, a, b)
    ensures RsiAt(w, p, i) == RsiAt(v, p, i)
  {
    hide Wilder, RsiValue;
    ChangesScale(v, w, a, b);
    WilderScale(Gains(v), Gains(w), a, 0, p, i - 1);
    WilderScale(Losses(v), Losses(w), a, 0, p, i - 1);
    AveragesNonNegative(v, p, i);
    AveragesNonNegative(w, p, i);
    RsiValueScale(Wilder(Gains(v), 0, p, i - 1), Wilder(Losses(v), 0, p, i - 1),
                  Wilder(Gains(w), 0, p, i - 1), Wilder(Losses(w), 0, p, i - 1), a);
  }

  lemma RsiNoLookahead(v: seq<real>, w: seq<real>, p: nat, i: nat)
    requires 1 <= p <= i < |v| && i < |w| && v[..i + 1] == w[..i + 1]
    ensures RsiAt(v, p, i) == RsiAt(w, p, i)
  {
    hide Wilder, RsiValue;
    SamePrefix(v, w, i);
    WilderPrefix(Gains(v), Gains(w), 0, p, i - 1);
    WilderPrefix(Losses(v), Losses(w), 0, p, i - 1);
  }

  lemma SamePrefix(v: seq<real>, w: seq<real>, i: nat)
    requires i < |v| && i < |w| && v[..i + 1] == w[..i + 1]
    ensures forall k :: 0 <= k <= i ==> v[k] == w[k]
  {
    forall k | 0 <= k <= i ensures v[k] == w[k] {
      assert v[k] == v[..i + 1][k] == w[..i + 1][k];
    }
  }

  // ---------------------------------------------------------------- moving average

  lemma MeanOfWindow(v: seq<real>, lo: nat, n: nat)
    requires n >= 1 && lo + n <= |v|
    ensures Mean(v, lo, n) == RangeSum(v, lo, lo + n) / n as real
  {
  }

  method MovingAverage(values: seq<real>, period: int) returns (r: Result<Series>)
    ensures r.Err? <==> period < 1
    ensures r.Ok? ==> |r.value| == |values|
    ensures r.Ok? ==> forall i {:trigger r.value[i]} :: 0 <= i < |values| ==>
      r.value[i] == if i < period - 1 then None
                    else Some(Mean(values, i + 1 - period, period))
  {
    hide Mean;
    if period < 1 {
      return Err("period must be positive");
    }
    var result := new Option<real>[|values|](_ => None);
    var running := 0.0;
    for index := 0 to |values|
      invariant running == RangeSum(values, if index < period then 0 else index - period, index)
      invariant forall i {:trigger result[i]} :: index <= i < |values| ==> result[i] == None
      invariant forall i {:trigger result[i]} :: 0 <= i < index ==>
        result[i] == if i < period - 1 then None
                     else Some(Mean(values, i + 1 - period, period))
    {
      running := running + values[index];
      if index >= period {
        RangeSumDropFirst(values, index - period, index + 1);
        running := running - values[index - period];
      }
      if index >= period - 1 {
        MeanOfWindow(values, index + 1 - period, period);
        result[index] := Some(running / period as real);
      }
    }
    return Ok(result[..]);
  }

  lemma MovingAverageNoLookahead(v: seq<real>, w: seq<real>, p: nat, i: nat)
    requires 1 <= p && p - 1 <= i < |v| && i < |w| && v[..i + 1] == w[..i + 1]
    ensures Mean(v, i + 1 - p, p) == Mean(w, i + 1 - p, p)
  {
    SamePrefix(v, w, i);
    MeanPrefix(v, w, i + 1 - p, p);
  }
}
