/** The momentum strategy: the search for the latest moving-average crossing, and the rules that
    turn a snapshot into at most one signal per setup. */
module Momentum {
  import opened Prelude
  import opened Arithmetic
  import opened Indicators

  const FAST := 9
  const SLOW := 21

  // ---------------------------------------------------------------- crossover search

  /** Fast minus slow average at index i: the sign says which one leads. */
  ghost function Spread(closes: seq<real>, i: nat): real
    requires SLOW - 1 <= i < |closes|
  {
    EmaAt(closes, FAST, i) - EmaAt(closes, SLOW, i)
  }

  /** The averages cross at index i, in the direction of `side`. */
  ghost predicate CrossesAt(closes: seq<real>, i: nat, side: Side)
    requires SLOW <= i < |closes|
  {
    match side
    case Buy => Spread(closes, i - 1) <= 0.0 && Spread(closes, i) > 0.0
    case Sell => Spread(closes, i - 1) >= 0.0 && Spread(closes, i) < 0.0
  }

  ghost predicate NoCrossingAfter(closes: seq<real>, i: nat) {
    forall j, side {:trigger CrossesAt(closes, j, side)} :: i < j < |closes| && SLOW <= j ==> !CrossesAt(closes, j, side)
  }

  method LatestCrossover(closes: seq<real>) returns (r: Option<(nat, Side)>)
    ensures r.Some? ==> SLOW <= r.value.0 < |closes| && CrossesAt(closes, r.value.0, r.value.1)
    ensures r.Some? ==> NoCrossingAfter(closes, r.value.0)
    ensures r.None? ==> NoCrossingAfter(closes, 0)
  {
    hide EmaAt;
    var fast := Ema(closes, FAST);
    var slow := Ema(closes, SLOW);
    var index := |closes| - 1;
    while index > 20
      invariant -1 <= index < |closes|
      invariant NoCrossingAfter(closes, if index < 20 then 20 else index)
    {
      var previousFast, previousSlow := fast.value[index - 1], slow.value[index - 1];
      var currentFast, currentSlow := fast.value[index], slow.value[index];
      assert previousFast.Some? && previousSlow.Some? && currentFast.Some? && currentSlow.Some?;
      assert Spread(closes, index) == currentFast.value - currentSlow.value;
      assert Spread(closes, index - 1) == previousFast.value - previousSlow.value;
      if previousFast.value <= previousSlow.value && currentFast.value > currentSlow.value {
        assert CrossesAt(closes, index, Buy);
        return Some((index, Buy));
      }
      if previousFast.value >= previousSlow.value && currentFast.value < currentSlow.value {
        assert CrossesAt(closes, index, Sell);
        return Some((index, Sell));
      }
      index := index - 1;
    }
    return None;
  }

  /** From the reported crossing to the last candle the leading average never falls behind. */
  lemma {:induction false} LeadHolds(closes: seq<real>, i: nat, side: Side, j: nat)
    requires SLOW <= i <= j < |closes| && CrossesAt(closes, i, side) && NoCrossingAfter(closes, i)
    ensures side == Buy ==> Spread(closes, j) >= 0.0
    ensures side == Sell ==> Spread(closes, j) <= 0.0
    decreases j
  {
    hide Spread;
    if j > i {
      LeadHolds(closes, i, side, j - 1);
      assert !CrossesAt(closes, j, side.Opposite());
    }
  }

  /** With no crossing at all, whichever average leads at index 20 is never overtaken. */
  lemma {:induction false} NoCrossingKeepsLead(closes: seq<real>, j: nat)
    requires SLOW - 1 <= j < |closes| && NoCrossingAfter(closes, 0)
    ensures Spread(closes, SLOW - 1) >= 0.0 ==> Spread(closes, j) >= 0.0
    ensures Spread(closes, SLOW - 1) <= 0.0 ==> Spread(closes, j) <= 0.0
    decreases j
  {
    hide Spread;
    if j >= SLOW {
      NoCrossingKeepsLead(closes, j - 1);
      assert !CrossesAt(closes, j, Buy) && !CrossesAt(closes, j, Sell);
    }
  }

  // ---------------------------------------------------------------- snapshot rules

  /** The already-present indicator values of one candle; a snapshot with a missing value has None. */
  datatype Values = Values(rsi: real, adx: real, volume: real, averageVolume: real,
                           htfFast: real, htfSlow: real, htfPrevious: real)

  datatype Snapshot = Snapshot(symbol: string, crossoverTime: int, age: int, side: Side, values: Option<Values>)

  datatype SetupKey = SetupKey(symbol: string, crossoverTime: int, side: Side)

  datatype Reason = InsufficientData | EntryWindowExpired | RsiFilterFailed | HtfTrendFailed
                  | HtfSlopeFailed | AdxFilterFailed | VolumeFilterFailed | DuplicateSetup

  datatype Evaluation = Signal(key: SetupKey, confidence: int) | NoSignal(reasons: seq<Reason>)

  function KeyOf(s: Snapshot): SetupKey {
    SetupKey(s.symbol, s.crossoverTime, s.side)
  }

  /** Every mandatory rule, as the module's own documentation lists them. */
  predicate Admissible(s: Snapshot) {
    s.values.Some? && s.age <= 2
    && var v := s.values.value;
       && v.adx > 22.0 && v.volume > v.averageVolume
       && match s.side
          case Buy => 52.0 <= v.rsi <= 70.0 && v.htfFast > v.htfSlow && v.htfFast > v.htfPrevious
          case Sell => 30.0 <= v.rsi <= 48.0 && v.htfFast < v.htfSlow && v.htfFast < v.htfPrevious
  }

  /** The same rules on both sides at once: trend and slope point with the side, and the RSI lies within 9 points
      of 50 plus or minus 11. */
  lemma AdmissiblePlainly(s: Snapshot)
    requires s.values.Some?
    ensures var v, side := s.values.value, if s.side == Buy then 1.0 else -1.0;
      Admissible(s) <==>
        && s.age < 3 && v.adx - 22.0 > 0.0 && v.volume - v.averageVolume > 0.0
        && side * (v.htfFast - v.htfSlow) > 0.0 && side * (v.htfFast - v.htfPrevious) > 0.0
        && Abs(v.rsi - (50.0 + 11.0 * side)) <= 9.0
  {
  }

  /** Turning a chart upside down turns an admissible setup of one side into one of the other. */
  lemma AdmissibleMirrored(s: Snapshot)
    requires s.values.Some?
    ensures var v := s.values.value;
      var mirrored := v.(rsi := 100.0 - v.rsi, htfFast := -v.htfFast, htfSlow := -v.htfSlow, htfPrevious := -v.htfPrevious);
      Admissible(s.(side := s.side.Opposite(), values := Some(mirrored))) <==> Admissible(s)
  {
  }

  /** Whether the rule that a reason names fails. */
  predicate Fails(s: Snapshot, reason: Reason) {
    s.values.Some?
    && var v, up := s.values.value, s.side == Buy;
       match reason
       case EntryWindowExpired => s.age > 2
       case RsiFilterFailed => if up then v.rsi < 52.0 || v.rsi > 70.0 else v.rsi < 30.0 || v.rsi > 48.0
       case HtfTrendFailed => if up then v.htfFast <= v.htfSlow else v.htfFast >= v.htfSlow
       case HtfSlopeFailed => if up then v.htfFast <= v.htfPrevious else v.htfFast >= v.htfPrevious
       case AdxFilterFailed => v.adx <= 22.0
       case VolumeFilterFailed => v.volume <= v.averageVolume
       case InsufficientData => false
       case DuplicateSetup => false
  }

  lemma NothingFails(s: Snapshot)
    requires s.values.Some?
    ensures Admissible(s) <==> forall reason :: !Fails(s, reason)
  {
    assert !Admissible(s) ==>
      Fails(s, EntryWindowExpired) || Fails(s, RsiFilterFailed) || Fails(s, HtfTrendFailed) || Fails(s, HtfSlopeFailed)
      || Fails(s, AdxFilterFailed) || Fails(s, VolumeFilterFailed);
  }

  /** Python's rounding of a positive decimal, half up. */
  function RoundHalfUp(x: real): int {
    (x + 0.5).Floor
  }

  function Confidence(age: int, adx: real, volume: real, averageVolume: real): int
    requires averageVolume != 0.0
  {
    var freshness := if age == 0 then 25.0 else 20.0;
    var adxScore := 10.0 + Min(10.0, Max(0.0, adx - 22.0));
    var volumeBonus := Max(0.0, (volume / averageVolume - 1.0) * 10.0);
    var volumeScore := 10.0 + Min(5.0, volumeBonus);
    RoundHalfUp(freshness + 15.0 + adxScore + volumeScore + 15.0 + 10.0)
  }

  predicate Emits(emitted: set<SetupKey>, s: Snapshot) {
    Admissible(s) && KeyOf(s) !in emitted && s.values.value.averageVolume != 0.0
  }

  function EmittedAfter(emitted: set<SetupKey>, s: Snapshot): set<SetupKey> {
    if Emits(emitted, s) then emitted + {KeyOf(s)} else emitted
  }

  /** The setups signalled by a run of evaluations that starts with `emitted` already remembered. */
  ghost function SignalledBy(emitted: set<SetupKey>, run: seq<Snapshot>): seq<SetupKey>
    decreases |run|
  {
    if run == [] then []
    else
      (if Emits(emitted, run[0]) then [KeyOf(run[0])] else [])
      + SignalledBy(EmittedAfter(emitted, run[0]), run[1..])
  }

  class MomentumStrategy {
    var emitted: set<SetupKey>

    constructor ()
      ensures emitted == {}
    {
      emitted := {};
    }

    /** The rules that fail, in the order in which they are checked. */
    static method FailedRules(s: Snapshot) returns (reasons: seq<Reason>)
      requires s.values.Some?
      ensures forall reason :: reason in reasons <==> Fails(s, reason)
    {
      var v := s.values.value;
      reasons := [];
      if s.age > 2 {
        reasons := reasons + [EntryWindowExpired];
      }
      if s.side == Buy {
        if !(52.0 <= v.rsi <= 70.0) { reasons := reasons + [RsiFilterFailed]; }
        if !(v.htfFast > v.htfSlow) { reasons := reasons + [HtfTrendFailed]; }
        if !(v.htfFast > v.htfPrevious) { reasons := reasons + [HtfSlopeFailed]; }
      } else {
        if !(30.0 <= v.rsi <= 48.0) { reasons := reasons + [RsiFilterFailed]; }
        if !(v.htfFast < v.htfSlow) { reasons := reasons + [HtfTrendFailed]; }
        if !(v.htfFast < v.htfPrevious) { reasons := reasons + [HtfSlopeFailed]; }
      }
      if !(v.adx > 22.0) { reasons := reasons + [AdxFilterFailed]; }
      if !(v.volume > v.averageVolume) { reasons := reasons + [VolumeFilterFailed]; }
    }

    /** A signal leaves exactly when every rule holds, the average volume is usable and the setup
        was not emitted before; only then is the setup remembered. */
    method EvaluateSnapshot(s: Snapshot) returns (r: Result<Evaluation>)
      modifies this
      ensures r.Err? <==>
        Admissible(s) && KeyOf(s) !in old(emitted) && s.values.value.averageVolume == 0.0
      ensures (r.Ok? && r.value.Signal?) <==> Emits(old(emitted), s)
      ensures r.Ok? && r.value.Signal? ==> r.value.key == KeyOf(s)
      ensures r.Ok? && r.value.Signal? ==>
        var v := s.values.value; r.value.confidence == Confidence(s.age, v.adx, v.volume, v.averageVolume)
      ensures r.Ok? && r.value.NoSignal? ==> r.value.reasons != []
      ensures r.Ok? && r.value.NoSignal? && s.values.None? ==> r.value.reasons == [InsufficientData]
      ensures r.Ok? && r.value.NoSignal? && s.values.Some? && !Admissible(s) ==>
        forall reason :: reason in r.value.reasons <==> Fails(s, reason)
      ensures r.Ok? && r.value.NoSignal? ==> (DuplicateSetup in r.value.reasons <==> Admissible(s))
      ensures emitted == EmittedAfter(old(emitted), s)
    {
      if s.values.None? {
        return Ok(NoSignal([InsufficientData]));
      }
      var v := s.values.value;
      var reasons := FailedRules(s);
      NothingFails(s);
      assert reasons != [] ==> reasons[0] in reasons;
      assert reasons == [] <==> Admissible(s);
      if reasons != [] {
        return Ok(NoSignal(reasons));
      }
      if KeyOf(s) in emitted {
        return Ok(NoSignal([DuplicateSetup]));
      }
      if v.averageVolume == 0.0 {
        return Err("division by zero");
      }
      var confidence := Confidence(s.age, v.adx, v.volume, v.averageVolume);
      emitted := emitted + {KeyOf(s)};
      return Ok(Signal(KeyOf(s), confidence));
    }
  }

  /** Over any run of evaluations no setup is signalled twice, and none that was known before. */
  lemma {:induction false} EachSetupOnce(emitted: set<SetupKey>, run: seq<Snapshot>)
    ensures forall i :: 0 <= i < |SignalledBy(emitted, run)| ==> SignalledBy(emitted, run)[i] !in emitted
    ensures forall i, j :: 0 <= i < j < |SignalledBy(emitted, run)| ==>
      SignalledBy(emitted, run)[i] != SignalledBy(emitted, run)[j]
    decreases |run|
  {
    if run != [] {
      EachSetupOnce(EmittedAfter(emitted, run[0]), run[1..]);
    }
  }

  /** A signal that passes the rules on a positive average volume scores from 80 to 100. */
  lemma ConfidenceRange(s: Snapshot)
    requires Admissible(s) && s.values.value.averageVolume > 0.0
    ensures 80 <= Confidence(s.age, s.values.value.adx, s.values.value.volume, s.values.value.averageVolume) <= 100
    ensures s.age != 0 ==>
      Confidence(s.age, s.values.value.adx, s.values.value.volume, s.values.value.averageVolume) <= 95
  {
  }

  /** Without the caps the score is, up to rounding, 85 (80 off the latest candle), one point for each point of ADX
      above 22, and one for each tenth by which the volume exceeds its average. */
  lemma ConfidencePlainly(age: int, adx: real, volume: real, averageVolume: real)
    requires averageVolume > 0.0 && 22.0 <= adx <= 32.0 && averageVolume <= volume && 2.0 * volume <= 3.0 * averageVolume
    ensures var score := (if age == 0 then 85.0 else 80.0) + (adx - 22.0) + 10.0 * (volume - averageVolume) / averageVolume;
      Abs(Confidence(age, adx, volume, averageVolume) as real - score) <= 0.5
  {
    var x := volume / averageVolume;
    QuotientTimes(volume, averageVolume);
    QuotientOrder(volume, averageVolume, 1.0);
    QuotientOrder(volume, averageVolume, 1.5);
    Distribute(x, 1.0, averageVolume);
    QuotientUnique(10.0 * (volume - averageVolume), averageVolume, 10.0 * (x - 1.0));
  }

  /** The latest crossing is worth exactly five points, and more trend strength or relative volume never costs any. */
  lemma ConfidenceMonotone(age: int, adx: real, adx': real, volume: real, volume': real, averageVolume: real)
    requires age != 0 && adx <= adx' && volume <= volume' && averageVolume > 0.0
    ensures Confidence(0, adx, volume, averageVolume) == Confidence(age, adx, volume, averageVolume) + 5
    ensures Confidence(age, adx, volume, averageVolume) <= Confidence(age, adx', volume', averageVolume)
  {
    QuotientOrder(volume, averageVolume, volume' / averageVolume);
    QuotientTimes(volume', averageVolume);
  }
}
