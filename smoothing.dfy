/**
 * JUCE `SmoothedValue`, seen from its callers: a value that moves from its
 * current value to a target over `stepsToTarget` samples and is consumed one
 * step per sample.
 *
 * `countdown` is the number of ramp steps still to be taken; the value is
 * smoothing exactly while it is positive. Each step moves the current value a
 * `1/countdown` share of the remaining distance (the linear law; the
 * multiplicative law is not modelled), and the last step lands exactly on
 * the target. The properties the flanger needs are about how many values are
 * consumed and which value is read, not about the shape of the ramp.
 */
module Smoothing {

  import opened Numerics

  datatype Smoothed = Smoothed(current: real, target: real, countdown: nat, stepsToTarget: nat)
  {
    /** A settled value sits on its target, and a ramp is never longer than the configured length. */
    ghost predicate Valid()
    {
      && (countdown == 0 ==> current == target)
      && countdown <= stepsToTarget
    }

    predicate IsSmoothing()
    {
      0 < countdown
    }

    function GetCurrentValue(): real
    {
      current
    }
  }

  /** A value constructed with `v` (JUCE's constructor, or `setCurrentAndTargetValue` on a fresh value). */
  function Create(v: real): (s: Smoothed)
    ensures s.Valid() && !s.IsSmoothing()
    ensures s.current == v && s.target == v && s.stepsToTarget == 0
  {
    Smoothed(v, v, 0, 0)
  }

  /** `setCurrentAndTargetValue`: jump to `v` and stop any ramp. */
  function SetCurrentAndTargetValue(s: Smoothed, v: real): (r: Smoothed)
    ensures r.Valid() && !r.IsSmoothing()
    ensures r.current == v && r.target == v && r.stepsToTarget == s.stepsToTarget
  {
    s.(current := v, target := v, countdown := 0)
  }

  /** The ramp length `reset(sampleRate, seconds)` configures: `floor(seconds * sampleRate)` samples. */
  function RampSteps(sampleRate: real, rampLengthInSeconds: real): (n: nat)
    requires 0.0 < sampleRate && 0.0 <= rampLengthInSeconds
    ensures n as real <= rampLengthInSeconds * sampleRate < n as real + 1.0
  {
    (rampLengthInSeconds * sampleRate).Floor
  }

  /** `reset(sampleRate, seconds)`: set the ramp length and settle on the current target. */
  function Reset(s: Smoothed, sampleRate: real, rampLengthInSeconds: real): (r: Smoothed)
    requires 0.0 < sampleRate && 0.0 <= rampLengthInSeconds
    ensures r.Valid() && !r.IsSmoothing()
    ensures r.current == s.target && r.target == s.target
    ensures r.stepsToTarget == RampSteps(sampleRate, rampLengthInSeconds)
  {
    SetCurrentAndTargetValue(s.(stepsToTarget := RampSteps(sampleRate, rampLengthInSeconds)), s.target)
  }

  /**
   * `setTargetValue(v)`: nothing happens when `v` already is the target; with
   * no ramp configured the value jumps; otherwise a full ramp starts from the
   * current value.
   */
  function SetTargetValue(s: Smoothed, v: real): (r: Smoothed)
    requires s.Valid()
    ensures r.Valid() && r.target == v && r.stepsToTarget == s.stepsToTarget
    ensures v == s.target ==> r == s
    ensures v != s.target && s.stepsToTarget == 0 ==> r.current == v && !r.IsSmoothing()
    ensures v != s.target && 0 < s.stepsToTarget ==> r.current == s.current && r.countdown == s.stepsToTarget
  {
    if v == s.target then s
    else if s.stepsToTarget == 0 then SetCurrentAndTargetValue(s, v)
    else s.(target := v, countdown := s.stepsToTarget)
  }

  /**
   * `getNextValue()`: the value for this sample, and the value advanced by one
   * step. A step keeps the value well formed, keeps the target and the ramp
   * length, consumes one step of a running ramp, and returns the new current
   * value.
   */
  function Next(s: Smoothed): (r: (real, Smoothed))
    ensures r.1.target == s.target && r.1.stepsToTarget == s.stepsToTarget
    ensures r.1.countdown == if s.countdown == 0 then 0 else s.countdown - 1
    ensures s.Valid() ==> r.1.Valid() && r.0 == r.1.current
  {
    if s.countdown == 0 then (s.target, s)
    else if s.countdown == 1 then (s.target, s.(current := s.target, countdown := 0))
    else
      var c := s.current + (s.target - s.current) / s.countdown as real;
      (c, s.(current := c, countdown := s.countdown - 1))
  }

  /** The state after `n` calls of `getNextValue()`. */
  function Advance(s: Smoothed, n: nat): Smoothed
  {
    if n == 0 then s else Next(Advance(s, n - 1)).1
  }

  /** The `n` values returned by `n` successive calls of `getNextValue()`. */
  function Gains(s: Smoothed, n: nat): (g: seq<real>)
    ensures |g| == n
  {
    if n == 0 then [] else Gains(s, n - 1) + [Next(Advance(s, n - 1)).0]
  }

  /** The value that the `k`-th call of a block of `n` returns. */
  lemma {:induction false} GainsAt(s: Smoothed, n: nat, k: nat)
    requires k < n
    ensures Gains(s, n)[k] == Next(Advance(s, k)).0
  {
    if k < n - 1 {
      GainsAt(s, n - 1, k);
    }
  }

  /** A prefix of the values of a longer block is the block of the prefix's length. */
  lemma {:induction false} GainsPrefix(s: Smoothed, n: nat, m: nat)
    requires m <= n
    ensures Gains(s, n)[..m] == Gains(s, m)
  {
    forall k | 0 <= k < m
      ensures Gains(s, n)[k] == Gains(s, m)[k]
    {
      GainsAt(s, n, k);
      GainsAt(s, m, k);
    }
  }

  /**
   * Consumption counting: `n` steps consume `min(n, countdown)` ramp steps,
   * the target never moves, and once the ramp is used up the value sits on
   * its target.
   */
  lemma {:induction false} AdvanceCounts(s: Smoothed, n: nat)
    requires s.Valid()
    ensures Advance(s, n).Valid()
    ensures Advance(s, n).target == s.target && Advance(s, n).stepsToTarget == s.stepsToTarget
    ensures Advance(s, n).countdown == if n < s.countdown then s.countdown - n else 0
    ensures s.countdown <= n ==> Advance(s, n).current == s.target
  {
    if n > 0 {
      AdvanceCounts(s, n - 1);
    }
  }

  /** A settled value is not moved by consumption and yields its target every time. */
  lemma {:induction false} SettledGains(s: Smoothed, n: nat)
    requires s.Valid() && !s.IsSmoothing()
    ensures Advance(s, n) == s
    ensures forall k :: 0 <= k < n ==> Gains(s, n)[k] == s.target
  {
    if n > 0 {
      SettledGains(s, n - 1);
    }
  }

  /** Reading the current value of a settled value is the same as consuming it. */
  lemma SettledRead(s: Smoothed)
    requires s.Valid() && !s.IsSmoothing()
    ensures Next(s) == (s.GetCurrentValue(), s)
  {
  }

  /** While a ramp runs, the value stays between the ramp's start and the target. */
  ghost predicate Between(x: real, a: real, b: real)
  {
    (a <= x <= b) || (b <= x <= a)
  }

  /** One ramp step lands between the current value and the target. */
  lemma NextBetween(s: Smoothed)
    requires s.Valid()
    ensures Between(Next(s).0, s.current, s.target)
  {
    if 1 < s.countdown {
      var k := s.countdown as real;
      var d := (s.target - s.current) / k;
      assert d * k == s.target - s.current;
      if s.current <= s.target {
        assert 0.0 <= d;
        MulMonotone(1.0, d, k);
      } else {
        assert d <= 0.0;
        MulMonotone(1.0, -d, k);
      }
    }
  }

  /** A value whose current value and target are both positive yields only positive values. */
  lemma {:induction false} PositiveGains(s: Smoothed, n: nat)
    requires s.Valid() && 0.0 < s.current && 0.0 < s.target
    ensures 0.0 < Advance(s, n).current && Advance(s, n).target == s.target
    ensures forall k :: 0 <= k < n ==> 0.0 < Gains(s, n)[k]
  {
    if n > 0 {
      PositiveGains(s, n - 1);
      AdvanceCounts(s, n - 1);
      NextBetween(Advance(s, n - 1));
    }
  }

  /** A value whose current value and target are both non-negative yields only non-negative values. */
  lemma {:induction false} NonNegativeGains(s: Smoothed, n: nat)
    requires s.Valid() && 0.0 <= s.current && 0.0 <= s.target
    ensures 0.0 <= Advance(s, n).current && Advance(s, n).target == s.target
    ensures forall k :: 0 <= k < n ==> 0.0 <= Gains(s, n)[k]
  {
    if n > 0 {
      NonNegativeGains(s, n - 1);
      AdvanceCounts(s, n - 1);
      NextBetween(Advance(s, n - 1));
    }
  }

  /**
   * `applyGain(buffer, numSamples)`: sample `k` of every channel is multiplied
   * by the `k`-th value consumed; a settled value multiplies by its target
   * without consuming.
   */
  method ApplyGain(s: Smoothed, buffer: array2<real>, numSamples: int) returns (r: Smoothed)
    requires s.Valid() && 0 <= numSamples <= buffer.Length1
    modifies buffer
    ensures r == Advance(s, numSamples)
    ensures forall ch, k :: 0 <= ch < buffer.Length0 && 0 <= k < numSamples ==>
      buffer[ch, k] == Scaled(old(buffer[ch, k]), Gains(s, numSamples)[k])
    ensures forall ch, k :: 0 <= ch < buffer.Length0 && numSamples <= k < buffer.Length1 ==>
      buffer[ch, k] == old(buffer[ch, k])
  {
    var gains := Gains(s, numSamples);
    r := s;
    for i := 0 to numSamples
      invariant r == Advance(s, i)
      invariant forall ch, k :: 0 <= ch < buffer.Length0 && 0 <= k < i ==>
        buffer[ch, k] == Scaled(old(buffer[ch, k]), gains[k])
      invariant forall ch, k :: 0 <= ch < buffer.Length0 && i <= k < buffer.Length1 ==>
        buffer[ch, k] == old(buffer[ch, k])
    {
      GainsAt(s, numSamples, i);
      var gain := s.target;
      if s.IsSmoothing() {
        gain, r := Next(r).0, Next(r).1;
      } else {
        SettledGains(s, i);
        SettledGains(s, i + 1);
      }
      assert gain == gains[i] && r == Advance(s, i + 1);
      ScaleColumn(buffer, i, gain);
    }
  }

  /** Multiplies sample `i` of every channel by `gain`. */
  method ScaleColumn(buffer: array2<real>, i: int, gain: real)
    requires 0 <= i < buffer.Length1
    modifies buffer
    ensures forall ch :: 0 <= ch < buffer.Length0 ==> buffer[ch, i] == Scaled(old(buffer[ch, i]), gain)
    ensures forall ch, k :: 0 <= ch < buffer.Length0 && 0 <= k < buffer.Length1 && k != i ==>
      buffer[ch, k] == old(buffer[ch, k])
  {
    for ch := 0 to buffer.Length0
      invariant forall c :: 0 <= c < ch ==> buffer[c, i] == Scaled(old(buffer[c, i]), gain)
      invariant forall c, k :: 0 <= c < buffer.Length0 && 0 <= k < buffer.Length1 && (k != i || ch <= c) ==>
        buffer[c, k] == old(buffer[c, k])
    {
      buffer[ch, i] := Scaled(buffer[ch, i], gain);
    }
  }
}
