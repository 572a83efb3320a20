/**
  The auto-volume controller of the limiter plugin.

  On every loudness update the controller reads the limiter's current input
  gain (converted to dB) and the integer loudness target, and moves the gain
  one dB towards the target, but only when the moved gain stays inside
  [-36, 36] dB; otherwise the gain is left where it is. The configured
  tolerance is never consulted.

  Gains are modelled as reals in dB: the source holds them in a `float`
  obtained from a dB conversion, so a gain need not be a whole number of dB.
  Floating-point rounding is not modelled.
 */
module AutoVolume {

  /** Lowest input gain the controller steps down to, in dB. */
  const MinGainDb: real := -36.0
  /** Highest input gain the controller steps up to, in dB. */
  const MaxGainDb: real := 36.0
  /** Size of one adjustment, in dB. */
  const StepDb: real := 1.0

  predicate InRange(gain: real) {
    MinGainDb <= gain <= MaxGainDb
  }

  /** One loudness event: `peak` is the reported loudness, `gain` the current input gain in dB. */
  function Step(gain: real, peak: real, target: int): (r: real)
    // a single event moves the gain by exactly one step or not at all
    ensures r == gain || r == gain - StepDb || r == gain + StepDb
    // the gain never moves away from the target
    ensures peak > target as real ==> r <= gain
    ensures peak < target as real ==> r >= gain
    // an exact match never moves the gain
    ensures peak == target as real ==> r == gain
    // a move never crosses a bound: down stays at or above -36 dB, up at or below 36 dB
    ensures r < gain ==> r >= MinGainDb
    ensures r > gain ==> r <= MaxGainDb
  {
    if peak > target as real then
      if gain - StepDb >= MinGainDb then gain - StepDb else gain
    else if peak < target as real then
      if gain + StepDb <= MaxGainDb then gain + StepDb else gain
    else
      gain
  }

  /** Over-target events lower the gain exactly when the lowered gain is still at least -36 dB. */
  lemma OverTargetDecrements(gain: real, peak: real, target: int)
    requires peak > target as real
    ensures Step(gain, peak, target) == gain - StepDb <==> gain - StepDb >= MinGainDb
    ensures Step(gain, peak, target) == gain <==> gain - StepDb < MinGainDb
  {
  }

  /** Under-target events raise the gain exactly when the raised gain is still at most 36 dB. */
  lemma UnderTargetIncrements(gain: real, peak: real, target: int)
    requires peak < target as real
    ensures Step(gain, peak, target) == gain + StepDb <==> gain + StepDb <= MaxGainDb
    ensures Step(gain, peak, target) == gain <==> gain + StepDb > MaxGainDb
  {
  }

  /** A gain inside [-36, 36] dB stays inside after one event. */
  lemma StepKeepsRange(gain: real, peak: real, target: int)
    requires InRange(gain)
    ensures InRange(Step(gain, peak, target))
  {
  }

  /**
    A clamped reference rule for whole-dB gains: over target the gain becomes
    max(g - 1, -36), under target min(g + 1, 36), and an exact match keeps it.
   */
  function ClampedStep(gain: int, peak: real, target: int): int {
    if peak > target as real then (if gain - 1 < -36 then -36 else gain - 1)
    else if peak < target as real then (if gain + 1 > 36 then 36 else gain + 1)
    else gain
  }

  /** On whole-dB gains inside the range, the step rule and the clamped reference agree. */
  lemma StepIsClampedOnWholeDb(gain: int, peak: real, target: int)
    requires -36 <= gain <= 36
    ensures Step(gain as real, peak, target) == ClampedStep(gain, peak, target) as real
  {
  }

  /**
    Off the whole-dB grid the two rules differ: at -35.5 dB an over-target event
    leaves the gain unchanged, whereas clamping would move it to -36 dB.
   */
  lemma StepIsNotClampedOffGrid()
    ensures Step(-35.5, 0.0, -1) == -35.5
    ensures Step(-35.5, 0.0, -1) != MinGainDb
  {
  }

  /**
    One loudness update as the controller sees it: the reported loudness and
    the target read from the settings at that moment. The target is read
    afresh on every update, so it may change between updates.
   */
  datatype Update = Update(peak: real, target: int)

  /**
    The gains after each of a sequence of loudness updates, starting from
    `gain`. Each update starts from the gain the previous one wrote.
   */
  function Run(gain: real, ups: seq<Update>): (gains: seq<real>)
    ensures |gains| == |ups|
    // the i-th gain is one step from the gain before it, towards the i-th update's own target
    ensures forall i :: 0 <= i < |ups| ==>
      gains[i] == Step(if i == 0 then gain else gains[i - 1], ups[i].peak, ups[i].target)
    decreases |ups|
  {
    if |ups| == 0 then []
    else
      var g := Step(gain, ups[0].peak, ups[0].target);
      var rest := Run(g, ups[1..]);
      assert forall i :: 1 <= i < |ups| ==> ([g] + rest)[i] == rest[i - 1];
      [g] + rest
  }

  /** The gain after the whole sequence of updates. */
  function Final(gain: real, ups: seq<Update>): real {
    var gains := Run(gain, ups);
    if |gains| == 0 then gain else gains[|gains| - 1]
  }

  /** Starting inside [-36, 36] dB, every gain of the run stays inside, whatever targets the updates carry. */
  lemma {:induction false} RunStaysInRange(gain: real, ups: seq<Update>)
    requires InRange(gain)
    ensures forall i :: 0 <= i < |ups| ==> InRange(Run(gain, ups)[i])
  {
    var gains := Run(gain, ups);
    var i := 0;
    while i < |ups|
      invariant 0 <= i <= |ups|
      invariant forall k :: 0 <= k < i ==> InRange(gains[k])
    {
      StepKeepsRange(if i == 0 then gain else gains[i - 1], ups[i].peak, ups[i].target);
      i := i + 1;
    }
  }

  /** Consecutive gains of a run differ by at most one dB. */
  lemma RunMovesOneDbAtATime(gain: real, ups: seq<Update>)
    ensures forall i :: 0 <= i < |ups| ==>
      -StepDb <= Run(gain, ups)[i] - (if i == 0 then gain else Run(gain, ups)[i - 1]) <= StepDb
  {
    var gains := Run(gain, ups);
    forall i | 0 <= i < |ups|
      ensures -StepDb <= gains[i] - (if i == 0 then gain else gains[i - 1]) <= StepDb
    {
      var before := if i == 0 then gain else gains[i - 1];
      assert gains[i] == Step(before, ups[i].peak, ups[i].target);
    }
  }

  /** After n updates the gain is at most n dB away from where it started. */
  lemma {:induction false} FinalDriftBounded(gain: real, ups: seq<Update>)
    ensures -(|ups| as real) * StepDb <= Final(gain, ups) - gain <= (|ups| as real) * StepDb
    decreases |ups|
  {
    if |ups| > 0 {
      var g := Step(gain, ups[0].peak, ups[0].target);
      FinalDriftBounded(g, ups[1..]);
      var rest := Run(g, ups[1..]);
      assert Run(gain, ups) == [g] + rest;
      assert Final(gain, ups) == (if |rest| == 0 then g else rest[|rest| - 1]);
    }
  }

  /** Updates that each lie above their own target keep a gain at the -36 dB floor there. */
  lemma {:induction false} FloorIsSticky(ups: seq<Update>)
    requires forall i :: 0 <= i < |ups| ==> ups[i].peak > ups[i].target as real
    ensures forall i :: 0 <= i < |ups| ==> Run(MinGainDb, ups)[i] == MinGainDb
  {
    var gains := Run(MinGainDb, ups);
    var i := 0;
    while i < |ups|
      invariant 0 <= i <= |ups|
      invariant forall k :: 0 <= k < i ==> gains[k] == MinGainDb
    {
      OverTargetDecrements(if i == 0 then MinGainDb else gains[i - 1], ups[i].peak, ups[i].target);
      i := i + 1;
    }
  }

  /** Target -23, gain 0 dB, loudness -18, -18, -30: the gain goes to -1, -2, -1 dB. */
  lemma ScenarioTwoDownOneUp()
    ensures Run(0.0, [Update(-18.0, -23), Update(-18.0, -23), Update(-30.0, -23)]) == [-1.0, -2.0, -1.0]
  {
  }

  /** A target moved between updates is honoured: -18 against -23 lowers, then -18 against -10 raises. */
  lemma ScenarioTargetMoves()
    ensures Run(0.0, [Update(-18.0, -23), Update(-18.0, -10)]) == [-1.0, 0.0]
  {
  }

  /** Target -23, gain 36 dB, loudness -30: the gain stays at the 36 dB ceiling. */
  lemma ScenarioCeiling()
    ensures Run(36.0, [Update(-30.0, -23)]) == [36.0]
  {
  }
}
