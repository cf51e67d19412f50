/**
 * The modulation source of the flanger.
 *
 * `NaiveOscillator` is a phase accumulator in [0, 1) with five waveforms. It
 * fills a two-channel block: channel 1 is evaluated at the phase itself,
 * channel 0 at the phase plus a stereo shift, wrapped back by its integer
 * part. The phase advances by `frequency * samplePeriod` after each sample is
 * evaluated.
 *
 * `ParameterModulation` turns such a block, in place, into delay times: each
 * value `x` in [-1, 1] becomes `(x + 1) / 2`, is scaled by the modulation
 * amount and has the base delay time added.
 *
 * The oscillator's step is stated as functions on the value `Lfo` (`Tick`,
 * `Step`, `Block`); the class `NaiveOscillator` is proved to compute them.
 */
module Oscillator {

  import opened Numerics
  import opened Smoothing
  import opened Buffers

  /** `MathConstants<double>::twoPi`, to the precision of a double. */
  const TwoPi: real := 6.283185307179586

  /** Ramp length of the frequency and of `ParameterModulation`'s two values, in seconds. */
  const RampSeconds: real := 0.02

  /**
   * A phase or shifted phase minus its integer part (`x -= static_cast<int>(x)`):
   * it differs from `x` by a whole number and keeps the sign of `x`.
   */
  function Wrap(x: real): (r: real)
    ensures (x - r).Floor as real == x - r
    ensures 0.0 <= x ==> 0.0 <= r < 1.0
    ensures x < 0.0 ==> -1.0 < r <= 0.0
  {
    TruncRemainder(x);
    x - Trunc(x) as real
  }

  /** A C++ comparison used as a number: 1 when it holds, 0 otherwise. */
  function Indicator(b: bool): real
  {
    if b then 1.0 else 0.0
  }

  /** The square wave `(p > 0.5) - (p < 0.5)`. */
  function Square(p: real): (v: real)
    ensures p > 0.5 ==> v == 1.0
    ensures p < 0.5 ==> v == -1.0
    ensures p == 0.5 ==> v == 0.0
  {
    Indicator(p > 0.5) - Indicator(p < 0.5)
  }

  /**
   * The value of waveform 0 (sine), 1 (triangle), 2 (saw up), 3 (saw down) or
   * 4 (square) at phase `p`. On a phase in [0, 1) every waveform stays in
   * [-1, 1]; the two saws are mirror images, and the triangle and the saws
   * start the cycle at their extremes.
   */
  function Evaluate(lib: Libm, waveform: int, p: real): (v: real)
    requires 0 <= waveform <= 4
    ensures Sound(lib) && 0.0 <= p < 1.0 ==> -1.0 <= v <= 1.0
    ensures waveform == 3 ==> v == -(2.0 * p - 1.0)
    ensures (waveform == 1 || waveform == 3) && p == 0.0 ==> v == 1.0
    ensures waveform == 2 && p == 0.0 ==> v == -1.0
  {
    if waveform == 0 then lib.sin(TwoPi * p)
    else if waveform == 1 then 4.0 * Abs(p - 0.5) - 1.0
    else if waveform == 2 then 2.0 * p - 1.0
    else if waveform == 3 then -2.0 * p + 1.0
    else Square(p)
  }

  /** The oscillator's state: the fields of `NaiveOscillator`. */
  datatype Lfo = Lfo(waveform: int, frequency: Smoothed, phaseShift: Smoothed,
                     phase: real, increment: real, samplePeriod: real)
  {
    /** Well formed smoothers, the waveform a valid id, a positive frequency and sample period, a non-negative shift, the phase in [0, 1). */
    ghost predicate Running()
    {
      && 0 <= waveform <= 4
      && frequency.Valid() && 0.0 < frequency.current && 0.0 < frequency.target
      && phaseShift.Valid() && 0.0 <= phaseShift.current && 0.0 <= phaseShift.target
      && 0.0 < samplePeriod
      && 0.0 <= phase < 1.0
    }
  }

  /**
   * `getNextAudioSample(sampleValue, shift)`: evaluate channel 0 at the
   * shifted, wrapped phase and channel 1 at the phase itself, then consume
   * one frequency value and advance the phase by it.
   */
  function Tick(lib: Libm, o: Lfo, shift: real): (r: (seq<real>, Lfo))
    requires 0 <= o.waveform <= 4
    ensures r.0 == [Evaluate(lib, o.waveform, Wrap(o.phase + shift)), Evaluate(lib, o.waveform, o.phase)]
    ensures r.1.frequency == Next(o.frequency).1
    ensures r.1.waveform == o.waveform && r.1.phaseShift == o.phaseShift && r.1.samplePeriod == o.samplePeriod
  {
    var shifted := Wrap(o.phase + shift);
    var increment := Scaled(Next(o.frequency).0, o.samplePeriod);
    ([Evaluate(lib, o.waveform, shifted), Evaluate(lib, o.waveform, o.phase)],
     o.(frequency := Next(o.frequency).1, increment := increment, phase := Wrap(o.phase + increment)))
  }

  /**
   * The shift `getNextAudioBlock` reads: the next value while the shift
   * ramps, its current value otherwise. For a well formed value the two
   * coincide: reading a settled shift is one step of it, which neither moves
   * it nor changes its reading.
   */
  function ShiftOf(s: Smoothed): (r: (real, Smoothed))
    ensures s.Valid() ==> r == Next(s)
    ensures !s.IsSmoothing() ==> r.1 == s
  {
    if s.IsSmoothing() then Next(s) else (s.GetCurrentValue(), s)
  }

  /** One sample of `getNextAudioBlock`: read the shift, then `getNextAudioSample`. */
  function Step(lib: Libm, o: Lfo): (r: (seq<real>, Lfo))
    requires 0 <= o.waveform <= 4
    ensures |r.0| == 2 && r.1.waveform == o.waveform && r.1.samplePeriod == o.samplePeriod
  {
    var s := ShiftOf(o.phaseShift);
    Tick(lib, o.(phaseShift := s.1), s.0)
  }

  /** `getNextAudioBlock` over `n` samples: the `n` sample pairs and the state after them. */
  function Block(lib: Libm, o: Lfo, n: nat): (r: (seq<seq<real>>, Lfo))
    requires 0 <= o.waveform <= 4
    ensures |r.0| == n && r.1.waveform == o.waveform && r.1.samplePeriod == o.samplePeriod
    ensures forall k :: 0 <= k < n ==> |r.0[k]| == 2
  {
    if n == 0 then ([], o)
    else
      var p := Block(lib, o, n - 1);
      var s := Step(lib, p.1);
      assert forall k :: 0 <= k < n ==> |(p.0 + [s.0])[k]| == 2;
      (p.0 + [s.0], s.1)
  }

  /** One more sample appends one `Step` and keeps the earlier samples. */
  lemma BlockStep(lib: Libm, o: Lfo, n: nat, m: nat)
    requires 0 <= o.waveform <= 4 && m == n + 1
    ensures Block(lib, o, m).1 == Step(lib, Block(lib, o, n).1).1
    ensures Block(lib, o, m).0[n] == Step(lib, Block(lib, o, n).1).0
    ensures forall k :: 0 <= k < n ==> Block(lib, o, m).0[k] == Block(lib, o, n).0[k]
  {
  }

  /** The samples of a block are those of any longer block. */
  lemma {:induction false} BlockPrefix(lib: Libm, o: Lfo, n: nat, k: nat)
    requires 0 <= o.waveform <= 4 && k < n
    ensures Block(lib, o, n).0[k] == Step(lib, Block(lib, o, k).1).0
  {
    if k < n - 1 {
      BlockPrefix(lib, o, n - 1, k);
    }
  }

  /**
   * Consumption counting: a block of `n` samples consumes the frequency
   * exactly `n` times, and the shift `n` times as well, which moves it only
   * while it ramps.
   */
  lemma {:induction false} BlockConsumes(lib: Libm, o: Lfo, n: nat)
    requires 0 <= o.waveform <= 4 && o.frequency.Valid() && o.phaseShift.Valid()
    ensures Block(lib, o, n).1.frequency == Advance(o.frequency, n)
    ensures Block(lib, o, n).1.phaseShift == Advance(o.phaseShift, n)
  {
    if n > 0 {
      BlockConsumes(lib, o, n - 1);
      AdvanceCounts(o.phaseShift, n - 1);
    }
  }

  /**
   * Sample `k` of a block: channel 1 is the waveform at the phase reached
   * after `k` samples, channel 0 at that phase plus the `k`-th shift value,
   * wrapped.
   */
  lemma BlockSample(lib: Libm, o: Lfo, n: nat, k: nat)
    requires 0 <= o.waveform <= 4 && o.frequency.Valid() && o.phaseShift.Valid() && k < n
    ensures Block(lib, o, n).0[k][0] == Evaluate(lib, o.waveform, Wrap(Block(lib, o, k).1.phase + Gains(o.phaseShift, n)[k]))
    ensures Block(lib, o, n).0[k][1] == Evaluate(lib, o.waveform, Block(lib, o, k).1.phase)
  {
    BlockPrefix(lib, o, n, k);
    BlockShift(lib, o, n, k);
    StepSample(lib, Block(lib, o, k).1, Gains(o.phaseShift, n)[k]);
  }

  /** A step evaluates channel 0 at the shifted phase and channel 1 at the phase. */
  lemma StepSample(lib: Libm, q: Lfo, shift: real)
    requires 0 <= q.waveform <= 4 && ShiftOf(q.phaseShift).0 == shift
    ensures Step(lib, q).0[0] == Evaluate(lib, q.waveform, Wrap(q.phase + shift))
    ensures Step(lib, q).0[1] == Evaluate(lib, q.waveform, q.phase)
  {
  }

  /** The shift read at sample `k` is the `k`-th value the shift yields. */
  lemma BlockShift(lib: Libm, o: Lfo, n: nat, k: nat)
    requires 0 <= o.waveform <= 4 && o.frequency.Valid() && o.phaseShift.Valid() && k < n
    ensures ShiftOf(Block(lib, o, k).1.phaseShift).0 == Gains(o.phaseShift, n)[k]
  {
    BlockConsumes(lib, o, k);
    AdvanceCounts(o.phaseShift, k);
    GainsAt(o.phaseShift, n, k);
  }

  /**
   * The phase advances only after sample `k` is evaluated, by the `k`-th
   * frequency value times the sample period, and is then wrapped.
   */
  lemma BlockPhase(lib: Libm, o: Lfo, n: nat, k: nat)
    requires 0 <= o.waveform <= 4 && o.frequency.Valid() && o.phaseShift.Valid() && k < n
    ensures Block(lib, o, k + 1).1.phase ==
      Wrap(Block(lib, o, k).1.phase + Scaled(Gains(o.frequency, n)[k], o.samplePeriod))
  {
    BlockStep(lib, o, k, k + 1);
    BlockConsumes(lib, o, k);
    GainsAt(o.frequency, n, k);
  }

  /**
   * One sample keeps a running oscillator running: with a positive
   * frequency the phase stays in [0, 1), and both channels lie in [-1, 1].
   */
  lemma StepRunning(lib: Libm, o: Lfo)
    requires Sound(lib) && o.Running()
    ensures Step(lib, o).1.Running()
    ensures forall c :: 0 <= c < 2 ==> -1.0 <= Step(lib, o).0[c] <= 1.0
  {
    var s := ShiftOf(o.phaseShift);
    NextBetween(o.phaseShift);
    NextBetween(o.frequency);
    var f := Next(o.frequency).0;
    assert 0.0 < f;
    MulPositive(f, o.samplePeriod);
  }

  /** A running oscillator keeps running over a block, and every sample of the block lies in [-1, 1]. */
  lemma {:induction false} BlockRunning(lib: Libm, o: Lfo, n: nat)
    requires Sound(lib) && o.Running()
    ensures Block(lib, o, n).1.Running()
    ensures forall k, c :: 0 <= k < n && 0 <= c < 2 ==> -1.0 <= Block(lib, o, n).0[k][c] <= 1.0
  {
    if n > 0 {
      BlockRunning(lib, o, n - 1);
      BlockStep(lib, o, n - 1, n);
      StepRunning(lib, Block(lib, o, n - 1).1);
    }
  }

  /** Writes the two values of `sampleValue` into sample `smp` of the block's channels. */
  method StoreSample(buffer: array2<real>, smp: int, sampleValue: array<real>)
    requires buffer.Length0 <= sampleValue.Length && 0 <= smp < buffer.Length1
    modifies buffer
    ensures forall c :: 0 <= c < buffer.Length0 ==> buffer[c, smp] == sampleValue[c]
    ensures forall c, k :: 0 <= c < buffer.Length0 && 0 <= k < buffer.Length1 && k != smp ==>
      buffer[c, k] == old(buffer[c, k])
  {
    for ch := 0 to buffer.Length0
      invariant forall c :: 0 <= c < ch ==> buffer[c, smp] == sampleValue[c]
      invariant forall c, k :: 0 <= c < buffer.Length0 && 0 <= k < buffer.Length1 && (k != smp || ch <= c) ==>
        buffer[c, k] == old(buffer[c, k])
    {
      buffer[ch, smp] := sampleValue[ch];
    }
  }

  class NaiveOscillator {
    var waveform: int
    /** Ramped with JUCE's multiplicative law in the plugin; see `Smoothing` for the law modelled. */
    var frequency: Smoothed
    var phaseShift: Smoothed
    var currentPhase: real
    var phaseIncrement: real
    var samplePeriod: real

    ghost predicate Valid()
      reads this
    {
      frequency.Valid() && phaseShift.Valid()
    }

    ghost function State(): Lfo
      reads this
    {
      Lfo(waveform, frequency, phaseShift, currentPhase, phaseIncrement, samplePeriod)
    }

    /**
     * `NaiveOscillator(defaultFrequency, defaultWaveform, defaultPhase)`. A
     * fresh multiplicative smoother holds 1 and has no ramp, so setting the
     * frequency target jumps to it; the shift is set without a ramp, and no
     * ramp length is ever configured for it.
     */
    constructor(defaultFrequency: real, defaultWaveform: int, defaultPhase: real)
      ensures Valid()
      ensures State() == Lfo(defaultWaveform, SetTargetValue(Create(1.0), defaultFrequency),
                             SetCurrentAndTargetValue(Create(0.0), defaultPhase), 0.0, 0.0, 1.0)
      ensures frequency.current == defaultFrequency && phaseShift.stepsToTarget == 0
      ensures 0.0 < defaultFrequency && 0 <= defaultWaveform <= 4 && 0.0 <= defaultPhase ==> State().Running()
    {
      waveform := defaultWaveform;
      frequency := SetTargetValue(Create(1.0), defaultFrequency);
      phaseShift := SetCurrentAndTargetValue(Create(0.0), defaultPhase);
      currentPhase := 0.0;
      phaseIncrement := 0.0;
      samplePeriod := 1.0;
    }

    /** `prepareToPlay(sampleRate)`: settle the frequency with a 20 ms ramp and set the sample period. */
    method PrepareToPlay(sampleRate: real)
      requires Valid() && 0.0 < sampleRate
      modifies this
      ensures Valid()
      ensures State() == old(State()).(frequency := Reset(old(frequency), sampleRate, RampSeconds), samplePeriod := 1.0 / sampleRate)
      ensures samplePeriod * sampleRate == 1.0
      ensures old(State().Running()) ==> State().Running()
    {
      frequency := Reset(frequency, sampleRate, RampSeconds);
      samplePeriod := 1.0 / sampleRate;
    }

    /** `setFrequency(newValue)`, which asserts a positive frequency. */
    method SetFrequency(newValue: real)
      requires Valid() && newValue > 0.0
      modifies this
      ensures Valid() && State() == old(State()).(frequency := SetTargetValue(old(frequency), newValue))
      ensures frequency.target == newValue
      ensures old(State().Running()) ==> State().Running()
    {
      frequency := SetTargetValue(frequency, newValue);
    }

    /** `setWaveform(newValue)`: any id is stored; only 0 to 4 can be evaluated. */
    method SetWaveform(newValue: int)
      requires Valid()
      modifies this
      ensures Valid() && State() == old(State()).(waveform := newValue)
      ensures old(State().Running()) && 0 <= newValue <= 4 ==> State().Running()
    {
      waveform := newValue;
    }

    /** `setPhaseShift(newValue)`. */
    method SetPhaseShift(newValue: real)
      requires Valid()
      modifies this
      ensures Valid() && State() == old(State()).(phaseShift := SetTargetValue(old(phaseShift), newValue))
      ensures phaseShift.target == newValue && phaseShift.stepsToTarget == old(phaseShift.stepsToTarget)
      ensures old(State().Running()) && 0.0 <= newValue ==> State().Running()
    {
      phaseShift := SetTargetValue(phaseShift, newValue);
    }

    /**
     * `getNextAudioSample(sampleValue, shift)`. A waveform id outside 0 to 4
     * leaves `sampleValue` unwritten in the plugin, so a valid id is required.
     */
    method GetNextAudioSample(sampleValue: array<real>, shift: real, lib: Libm)
      requires Valid() && 0 <= waveform <= 4 && sampleValue.Length == 2
      modifies this, sampleValue
      ensures Valid()
      ensures sampleValue[..] == Tick(lib, old(State()), shift).0
      ensures State() == Tick(lib, old(State()), shift).1
    {
      var phaseAus := currentPhase;
      phaseAus := phaseAus + shift;
      phaseAus := phaseAus - Trunc(phaseAus) as real;
      sampleValue[0] := Evaluate(lib, waveform, phaseAus);
      sampleValue[1] := Evaluate(lib, waveform, currentPhase);
      var value := Next(frequency).0;
      frequency := Next(frequency).1;
      phaseIncrement := Scaled(value, samplePeriod);
      currentPhase := currentPhase + phaseIncrement;
      currentPhase := currentPhase - Trunc(currentPhase) as real;
    }

    /**
     * `getNextAudioBlock(buffer, numsamples)`: fill samples `0 .. numsamples-1`
     * of every channel of `buffer` (at most two) with `Block`'s samples.
     */
    method GetNextAudioBlock(buffer: array2<real>, numsamples: int, lib: Libm)
      requires Valid() && 0 <= waveform <= 4
      requires buffer.Length0 <= 2 && 0 <= numsamples <= buffer.Length1
      modifies this, buffer
      ensures Valid() && State() == Block(lib, old(State()), numsamples).1
      ensures forall c, k :: 0 <= c < buffer.Length0 && 0 <= k < numsamples ==>
        buffer[c, k] == Block(lib, old(State()), numsamples).0[k][c]
      ensures forall c, k :: 0 <= c < buffer.Length0 && numsamples <= k < buffer.Length1 ==>
        buffer[c, k] == old(buffer[c, k])
    {
      ghost var start := State();
      var sampleValue := new real[2];
      for smp := 0 to numsamples
        invariant Valid() && State() == Block(lib, start, smp).1
        invariant forall c, k :: 0 <= c < buffer.Length0 && 0 <= k < smp ==>
          buffer[c, k] == Block(lib, start, smp).0[k][c]
        invariant forall c, k :: 0 <= c < buffer.Length0 && smp <= k < buffer.Length1 ==>
          buffer[c, k] == old(buffer[c, k])
      {
        NextBlockSample(buffer, smp, sampleValue, lib, start);
      }
    }

    /** One pass of `getNextAudioBlock`'s loop: read the shift, evaluate, store sample `smp`. */
    method NextBlockSample(buffer: array2<real>, smp: int, sampleValue: array<real>, lib: Libm, ghost start: Lfo)
      requires buffer.Length0 <= 2 && 0 <= smp < buffer.Length1 && sampleValue.Length == 2
      requires Valid() && 0 <= start.waveform <= 4 && State() == Block(lib, start, smp).1
      requires forall c, k :: 0 <= c < buffer.Length0 && 0 <= k < smp ==>
        buffer[c, k] == Block(lib, start, smp).0[k][c]
      modifies this, buffer, sampleValue
      ensures Valid() && State() == Block(lib, start, smp + 1).1
      ensures forall c, k :: 0 <= c < buffer.Length0 && 0 <= k <= smp ==>
        buffer[c, k] == Block(lib, start, smp + 1).0[k][c]
      ensures forall c, k :: 0 <= c < buffer.Length0 && smp < k < buffer.Length1 ==>
        buffer[c, k] == old(buffer[c, k])
    {
      var shift;
      if phaseShift.IsSmoothing() {
        shift := Next(phaseShift).0;
        phaseShift := Next(phaseShift).1;
      } else {
        shift := phaseShift.GetCurrentValue();
      }
      GetNextAudioSample(sampleValue, shift, lib);
      BlockStep(lib, start, smp, smp + 1);
      StoreSample(buffer, smp, sampleValue);
    }
  }

  /** `(x + 1) * 0.5`: the oscillator range [-1, 1] onto [0, 1]. */
  function Remap(x: real): (y: real)
    ensures 2.0 * y - 1.0 == x
    ensures -1.0 <= x <= 1.0 <==> 0.0 <= y <= 1.0
  {
    Scaled(x + 1.0, 0.5)
  }

  /**
   * The delay time `ParameterModulation` makes of an oscillator value `x`: an
   * oscillator value in [-1, 1] becomes a delay time between the base and the
   * base plus the amount, the bottom of the swing at -1 and the top at 1.
   */
  function Shape(x: real, amount: real, base: real): (t: real)
    ensures -1.0 <= x <= 1.0 && 0.0 <= amount ==> base <= t <= base + amount
    ensures x == -1.0 ==> t == base
    ensures x == 1.0 ==> t == base + amount
  {
    UnitScaled(Remap(x), amount);
    Scaled(Remap(x), amount) + base
  }

  /** A share in [0, 1] of a non-negative amount lies between 0 and the amount. */
  lemma UnitScaled(y: real, amount: real)
    ensures 0.0 <= y <= 1.0 && 0.0 <= amount ==> 0.0 <= Scaled(y, amount) <= amount
  {
    if 0.0 <= y <= 1.0 && 0.0 <= amount {
      MulMonotone(0.0, amount, y);
      MulMonotone(y, amount, 1.0);
    }
  }

  /** A larger oscillator value never gives a shorter delay time. */
  lemma ShapeMonotone(x: real, y: real, amount: real, base: real)
    requires x <= y && 0.0 <= amount
    ensures Shape(x, amount, base) <= Shape(y, amount, base)
  {
    MulMonotone(Remap(x), amount, Remap(y));
    assert Scaled(Remap(x), amount) <= Scaled(Remap(y), amount);
  }

  /** The first loop of `processBlock`: add 1 to, then halve, samples `0 .. n-1` of every channel. */
  method RemapBlock(buffer: array2<real>, n: int)
    requires 0 <= n <= buffer.Length1
    modifies buffer
    ensures forall c, k :: 0 <= c < buffer.Length0 && 0 <= k < n ==> buffer[c, k] == Remap(old(buffer[c, k]))
    ensures forall c, k :: 0 <= c < buffer.Length0 && n <= k < buffer.Length1 ==> buffer[c, k] == old(buffer[c, k])
  {
    for ch := 0 to buffer.Length0
      invariant forall c, k :: 0 <= c < ch && 0 <= k < n ==> buffer[c, k] == Remap(old(buffer[c, k]))
      invariant forall c, k :: 0 <= c < buffer.Length0 && 0 <= k < buffer.Length1 && (ch <= c || n <= k) ==>
        buffer[c, k] == old(buffer[c, k])
    {
      Add(buffer, ch, 1.0, n);
      Multiply(buffer, ch, 0.5, n);
    }
  }

  class ParameterModulation {
    /** The base delay time, in seconds. */
    var parameter: Smoothed
    /** The modulation depth, in seconds. */
    var modAmount: Smoothed

    ghost predicate Valid()
      reads this
    {
      parameter.Valid() && modAmount.Valid()
    }

    /** `ParameterModulation(defaultParameter, defaultModAmount)`: both values set without a ramp. */
    constructor(defaultParameter: real, defaultModAmount: real)
      ensures Valid()
      ensures parameter == SetCurrentAndTargetValue(Create(0.0), defaultParameter)
      ensures modAmount == SetCurrentAndTargetValue(Create(0.0), defaultModAmount)
    {
      parameter := SetCurrentAndTargetValue(Create(0.0), defaultParameter);
      modAmount := SetCurrentAndTargetValue(Create(0.0), defaultModAmount);
    }

    /** `prepareToPlay(sampleRate)`: both values settle and get a 20 ms ramp. */
    method PrepareToPlay(sampleRate: real)
      requires Valid() && 0.0 < sampleRate
      modifies this
      ensures Valid()
      ensures parameter == Reset(old(parameter), sampleRate, RampSeconds)
      ensures modAmount == Reset(old(modAmount), sampleRate, RampSeconds)
    {
      parameter := Reset(parameter, sampleRate, RampSeconds);
      modAmount := Reset(modAmount, sampleRate, RampSeconds);
    }

    /** `setModAmount(newValue)`. */
    method SetModAmount(newValue: real)
      requires Valid()
      modifies this
      ensures Valid() && parameter == old(parameter)
      ensures modAmount == SetTargetValue(old(modAmount), newValue) && modAmount.target == newValue
    {
      modAmount := SetTargetValue(modAmount, newValue);
    }

    /** `setParameter(newValue)`. */
    method SetParameter(newValue: real)
      requires Valid()
      modifies this
      ensures Valid() && modAmount == old(modAmount)
      ensures parameter == SetTargetValue(old(parameter), newValue) && parameter.target == newValue
    {
      parameter := SetTargetValue(parameter, newValue);
    }

    /**
     * `processBlock(buffer, numSamples)`: every sample `k` of every channel
     * becomes `Shape(x, a_k, p_k)`, where `a_k` and `p_k` are the `k`-th
     * values of the amount and of the base. The amount is consumed once per
     * sample; so is the base while it ramps (by channel 0, channel 1 reading
     * the value just consumed), and a settled base is added without being
     * consumed. Only a buffer with no channels leaves a ramping base untouched.
     */
    method ProcessBlock(buffer: array2<real>, numSamples: int)
      requires Valid() && 0 <= numSamples <= buffer.Length1
      modifies this, buffer
      ensures Valid()
      ensures modAmount == Advance(old(modAmount), numSamples)
      ensures parameter == if buffer.Length0 == 0 then old(parameter) else Advance(old(parameter), numSamples)
      ensures forall c, k :: 0 <= c < buffer.Length0 && 0 <= k < numSamples ==>
        buffer[c, k] == Shape(old(buffer[c, k]), Gains(old(modAmount), numSamples)[k], Gains(old(parameter), numSamples)[k])
      ensures forall c, k :: 0 <= c < buffer.Length0 && numSamples <= k < buffer.Length1 ==>
        buffer[c, k] == old(buffer[c, k])
    {
      RemapBlock(buffer, numSamples);
      AdvanceCounts(modAmount, numSamples);
      modAmount := ApplyGain(modAmount, buffer, numSamples);
      if parameter.IsSmoothing() {
        AddRampedParameter(buffer, numSamples);
      } else {
        SettledGains(parameter, numSamples);
        AddSettledParameter(buffer, numSamples);
      }
    }

    /** The ramping branch: per sample, channel 0 consumes the base and the other channels add its current value. */
    method AddRampedParameter(buffer: array2<real>, n: int)
      requires parameter.Valid() && 0 <= n <= buffer.Length1
      modifies this`parameter, buffer
      ensures parameter.Valid()
      ensures parameter == if buffer.Length0 == 0 then old(parameter) else Advance(old(parameter), n)
      ensures forall c, k :: 0 <= c < buffer.Length0 && 0 <= k < n ==>
        buffer[c, k] == old(buffer[c, k]) + Gains(old(parameter), n)[k]
      ensures forall c, k :: 0 <= c < buffer.Length0 && n <= k < buffer.Length1 ==>
        buffer[c, k] == old(buffer[c, k])
    {
      ghost var start := parameter;
      for smp := 0 to n
        invariant parameter.Valid()
        invariant parameter == if buffer.Length0 == 0 then start else Advance(start, smp)
        invariant forall c, k :: 0 <= c < buffer.Length0 && 0 <= k < smp ==>
          buffer[c, k] == old(buffer[c, k]) + Gains(start, n)[k]
        invariant forall c, k :: 0 <= c < buffer.Length0 && smp <= k < buffer.Length1 ==>
          buffer[c, k] == old(buffer[c, k])
      {
        GainsAt(start, n, smp);
        AddParameterSample(buffer, smp);
      }
    }

    /** One sample of the ramping branch. */
    method AddParameterSample(buffer: array2<real>, smp: int)
      requires parameter.Valid() && 0 <= smp < buffer.Length1
      modifies this`parameter, buffer
      ensures parameter == if buffer.Length0 == 0 then old(parameter) else Next(old(parameter)).1
      ensures parameter.Valid()
      ensures forall c :: 0 <= c < buffer.Length0 ==> buffer[c, smp] == old(buffer[c, smp]) + Next(old(parameter)).0
      ensures forall c, k :: 0 <= c < buffer.Length0 && 0 <= k < buffer.Length1 && k != smp ==>
        buffer[c, k] == old(buffer[c, k])
    {
      for ch := 0 to buffer.Length0
        invariant parameter == if ch == 0 then old(parameter) else Next(old(parameter)).1
        invariant forall c :: 0 <= c < ch ==> buffer[c, smp] == old(buffer[c, smp]) + Next(old(parameter)).0
        invariant forall c, k :: 0 <= c < buffer.Length0 && 0 <= k < buffer.Length1 && (k != smp || ch <= c) ==>
          buffer[c, k] == old(buffer[c, k])
      {
        var value;
        if ch != 0 {
          value := parameter.GetCurrentValue();
        } else {
          value := Next(parameter).0;
          parameter := Next(parameter).1;
        }
        buffer[ch, smp] := buffer[ch, smp] + value;
      }
    }

    /** The settled branch: add the base's current value to samples `0 .. n-1` of every channel. */
    method AddSettledParameter(buffer: array2<real>, n: int)
      requires 0 <= n <= buffer.Length1
      modifies buffer
      ensures forall c, k :: 0 <= c < buffer.Length0 && 0 <= k < n ==>
        buffer[c, k] == old(buffer[c, k]) + parameter.GetCurrentValue()
      ensures forall c, k :: 0 <= c < buffer.Length0 && n <= k < buffer.Length1 ==>
        buffer[c, k] == old(buffer[c, k])
    {
      for ch := 0 to buffer.Length0
        invariant forall c, k :: 0 <= c < ch && 0 <= k < n ==> buffer[c, k] == old(buffer[c, k]) + parameter.GetCurrentValue()
        invariant forall c, k :: 0 <= c < buffer.Length0 && 0 <= k < buffer.Length1 && (ch <= c || n <= k) ==>
          buffer[c, k] == old(buffer[c, k])
      {
        Add(buffer, ch, parameter.GetCurrentValue(), n);
      }
    }
  }
}
