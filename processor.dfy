/**
 * `StereoFlangerAudioProcessor`: wires the flanger's components together.
 *
 * Per audio block: the LFO fills the two-channel modulation block, the
 * modulation is shaped into delay times (in seconds), every modulation channel
 * that has an audio channel is capped at `Parameters.MaxDelayTime`, the dry
 * signal is copied, the delay processes the audio in place, and the dry copy
 * is mixed back in. The cap is what makes every delay time the delay reads
 * fit in its ring, because the delay is built with the same maximum.
 *
 * Parameter changes from the host are routed to the component they belong
 * to; delay time, phase shift and modulation amount arrive in ms and are
 * converted to seconds on the way.
 */
module Processor {

  import opened Numerics
  import opened Smoothing
  import opened Buffers
  import Parameters
  import Delay
  import Oscillator
  import DryWet

  /** The ms to seconds conversion `parameterChanged` applies (`value * 0.001`). */
  function MsToSeconds(ms: real): (s: real)
    ensures s * 1000.0 == ms
    ensures 0.0 <= ms <==> 0.0 <= s
  {
    ms * 0.001
  }

  /** A whole-number waveform choice reaches the oscillator unchanged through `roundToInt`. */
  lemma WaveformChoiceExact(value: real)
    requires Parameters.InRange(Parameters.NameWaveform, value)
    ensures RoundToInt(value) == value.Floor && 0 <= RoundToInt(value) <= 4
  {
    var n := RoundToInt(value);
    assert -0.5 <= n as real - value <= 0.5;
  }

  /**
   * Within the host's ranges (delay time up to `MaxDelayTime` - 100 ms,
   * amount up to 100 ms) a settled modulation turns every oscillator value in
   * [-1, 1] into a delay time in [0, `MaxDelayTime`], so the cap never cuts.
   */
  lemma ShapedWithinCap(x: real, delayTimeMs: real, amountMs: real)
    requires -1.0 <= x <= 1.0
    requires Parameters.InRange(Parameters.NameDelayTime, delayTimeMs)
    requires Parameters.InRange(Parameters.NameAmount, amountMs)
    ensures 0.0 <= Oscillator.Shape(x, MsToSeconds(amountMs), MsToSeconds(delayTimeMs)) <= Parameters.MaxDelayTime
    ensures MinReal(Oscillator.Shape(x, MsToSeconds(amountMs), MsToSeconds(delayTimeMs)), Parameters.MaxDelayTime)
      == Oscillator.Shape(x, MsToSeconds(amountMs), MsToSeconds(delayTimeMs))
  {
  }

  /** The cap loop of `processBlock`: channels `0 .. numCh-1` of the modulation, samples `0 .. numSamples-1`. */
  method CapModulation(modulation: array2<real>, numCh: int, numSamples: int)
    requires 0 <= numCh <= modulation.Length0 && 0 <= numSamples <= modulation.Length1
    modifies modulation
    ensures forall c, k :: 0 <= c < numCh && 0 <= k < numSamples ==>
      modulation[c, k] == MinReal(old(modulation[c, k]), Parameters.MaxDelayTime)
    ensures forall c, k :: 0 <= c < modulation.Length0 && 0 <= k < modulation.Length1 && (numCh <= c || numSamples <= k) ==>
      modulation[c, k] == old(modulation[c, k])
  {
    for ch := 0 to numCh
      invariant forall c, k :: 0 <= c < ch && 0 <= k < numSamples ==>
        modulation[c, k] == MinReal(old(modulation[c, k]), Parameters.MaxDelayTime)
      invariant forall c, k :: 0 <= c < modulation.Length0 && 0 <= k < modulation.Length1 && (ch <= c || numSamples <= k) ==>
        modulation[c, k] == old(modulation[c, k])
    {
      Min(modulation, ch, Parameters.MaxDelayTime, numSamples);
    }
  }

  /**
   * Capped delay times fit in a ring prepared for `Parameters.MaxDelayTime`
   * and a block of at least one sample: no read reaches back further than the
   * ring is long, so every slot index the delay computes is in range.
   */
  lemma CappedModulationReadable(modulation: array2<real>, numSamples: int, sampleRate: real, blockSize: int)
    requires 2 <= modulation.Length0 && 0 <= numSamples <= modulation.Length1
    requires 0.0 < sampleRate && 1 <= blockSize
    requires forall c, k :: 0 <= c < 2 && 0 <= k < numSamples ==> modulation[c, k] <= Parameters.MaxDelayTime
    ensures Delay.ModulationReadable(modulation, numSamples, sampleRate, Delay.MemorySize(Parameters.MaxDelayTime, sampleRate, blockSize))
  {
    var size := Delay.MemorySize(Parameters.MaxDelayTime, sampleRate, blockSize);
    forall k | 0 <= k < numSamples
      ensures Scaled(modulation[0, k], sampleRate) <= size as real
      ensures Scaled(modulation[1, k], sampleRate) <= size as real
    {
      Delay.ClampedDelayReadable(Parameters.MaxDelayTime, sampleRate, blockSize, modulation[0, k]);
      Delay.ClampedDelayReadable(Parameters.MaxDelayTime, sampleRate, blockSize, modulation[1, k]);
    }
  }

  class StereoFlangerProcessor {
    /** The modulation block: two channels of `blockSize` samples once prepared. */
    var modulation: array2<real>
    const drywetter: DryWet.DryWet
    const delay: Delay.ModDelay
    const lfo: Oscillator.NaiveOscillator
    const timeModulation: Oscillator.ParameterModulation
    /** The `samplesPerBlock` of the last `prepareToPlay`. */
    ghost var blockSize: int

    /** Every component well formed, the delay built for `MaxDelayTime`, and no two buffers shared. */
    ghost predicate Valid()
      reads this, drywetter, delay, lfo, timeModulation
    {
      && drywetter.Valid() && delay.Valid() && lfo.Valid() && timeModulation.Valid()
      && delay.maxDelayTime == Parameters.MaxDelayTime
      && modulation != delay.delayMemory && modulation != drywetter.drySignal
      && drywetter.drySignal != delay.delayMemory
    }

    /** After `prepareToPlay(sampleRate, blockSize)`: every buffer sized for blocks of `blockSize` samples. */
    ghost predicate Prepared()
      reads this, drywetter, delay
    {
      && 0 <= blockSize
      && modulation.Length0 == 2 && modulation.Length1 == blockSize
      && drywetter.drySignal.Length0 == 2 && drywetter.drySignal.Length1 == blockSize
      && delay.delayMemory.Length0 == 2
      && delay.memorySize == Delay.MemorySize(delay.maxDelayTime, delay.sampleRate, blockSize)
    }

    /**
     * The constructor: every component gets its default. The delay time and
     * the phase shift defaults are passed as they are, without the ms to
     * seconds conversion `parameterChanged` applies.
     */
    constructor()
      ensures Valid() && fresh(modulation) && modulation.Length0 == 0
      ensures delay.memorySize == 0 && delay.writeIndex == 0 && delay.feedback.target == Parameters.DefaultFeedback
      ensures drywetter.dwRatio == Parameters.DefaultDryWet
      ensures lfo.State().Running() && lfo.frequency.current == Parameters.DefaultFreq
      ensures lfo.waveform == Parameters.DefaultWaveform && lfo.phaseShift.current == Parameters.DefaultPhase
      ensures timeModulation.parameter.current == Parameters.DefaultDelayTime
      ensures timeModulation.modAmount.current == Parameters.DefaultAmount
    {
      modulation := new real[0, 0];
      delay := new Delay.ModDelay(Parameters.MaxDelayTime, Parameters.DefaultFeedback);
      drywetter := new DryWet.DryWet(Parameters.DefaultDryWet);
      lfo := new Oscillator.NaiveOscillator(Parameters.DefaultFreq, Parameters.DefaultWaveform, Parameters.DefaultPhase);
      timeModulation := new Oscillator.ParameterModulation(Parameters.DefaultDelayTime, Parameters.DefaultAmount);
    }

    /**
     * `prepareToPlay(sampleRate, samplesPerBlock)`: prepares every component
     * and sizes the modulation block to two channels of `samplesPerBlock`
     * samples: every smoothed value is reset to its target with its own ramp
     * length, and the dry/wet gains then target the stored ratio. The delay's
     * write cursor and previous outputs, and the stored ratio, are kept.
     */
    method PrepareToPlay(sampleRate: real, samplesPerBlock: int, lib: Libm)
      requires Valid() && 0.0 < sampleRate && 0 <= samplesPerBlock
      modifies this, drywetter, delay, lfo, timeModulation
      ensures Valid() && Prepared() && blockSize == samplesPerBlock
      ensures delay.sampleRate == sampleRate && delay.writeIndex == old(delay.writeIndex)
      ensures delay.feedback == Reset(old(delay.feedback), sampleRate, Delay.AmpSmoothing)
      ensures delay.oldSample == old(delay.oldSample) && delay.oldSample[..] == old(delay.oldSample[..])
      ensures forall c, j :: 0 <= c < 2 && 0 <= j < delay.memorySize ==> delay.delayMemory[c, j] == 0.0
      ensures drywetter.Tuned(lib) && drywetter.dwRatio == old(drywetter.dwRatio)
      ensures drywetter.dryLevel ==
        SetTargetValue(Reset(old(drywetter.dryLevel), sampleRate, DryWet.LevelRampSeconds), DryWet.DryGain(lib, drywetter.dwRatio))
      ensures drywetter.wetLevel ==
        SetTargetValue(Reset(old(drywetter.wetLevel), sampleRate, DryWet.LevelRampSeconds), DryWet.WetGain(lib, drywetter.dwRatio))
      ensures forall c, k :: 0 <= c < 2 && 0 <= k < samplesPerBlock ==> drywetter.drySignal[c, k] == 0.0
      ensures lfo.State() == old(lfo.State()).(frequency := Reset(old(lfo.frequency), sampleRate, Oscillator.RampSeconds),
                                               samplePeriod := 1.0 / sampleRate)
      ensures old(lfo.State().Running()) ==> lfo.State().Running()
      ensures timeModulation.parameter == Reset(old(timeModulation.parameter), sampleRate, Oscillator.RampSeconds)
      ensures timeModulation.modAmount == Reset(old(timeModulation.modAmount), sampleRate, Oscillator.RampSeconds)
    {
      drywetter.PrepareToPlay(sampleRate, samplesPerBlock, lib);
      MulPositive(delay.maxDelayTime, sampleRate);
      delay.PrepareToPlay(sampleRate, samplesPerBlock);
      lfo.PrepareToPlay(sampleRate);
      modulation := new real[2, samplesPerBlock];
      timeModulation.PrepareToPlay(sampleRate);
      blockSize := samplesPerBlock;
    }

    /**
     * `releaseResources`: the dry copy, the delay ring and the modulation
     * block shrink to nothing; every other piece of state is kept.
     */
    method ReleaseResources()
      requires Valid()
      modifies this, drywetter, delay
      ensures Valid() && modulation.Length0 == 0 && modulation.Length1 == 0
      ensures drywetter.drySignal.Length0 == 0 && delay.memorySize == 0 && delay.delayMemory.Length0 == 0
      ensures delay.writeIndex == old(delay.writeIndex) && delay.feedback == old(delay.feedback)
      ensures delay.sampleRate == old(delay.sampleRate)
      ensures delay.oldSample == old(delay.oldSample) && delay.oldSample[..] == old(delay.oldSample[..])
      ensures drywetter.dwRatio == old(drywetter.dwRatio)
      ensures drywetter.dryLevel == old(drywetter.dryLevel) && drywetter.wetLevel == old(drywetter.wetLevel)
    {
      drywetter.ReleaseResources();
      delay.ReleaseResources();
      modulation := new real[0, 0];
    }

    /**
     * `processBlock(buffer)` for a stereo buffer of at most `blockSize`
     * samples: the modulation becomes the capped, shaped LFO block, the delay
     * runs on the block's frames (input, capped delay times, feedback gains)
     * and each output sample is the delayed sample mixed with the dry one.
     */
    method ProcessBlock(buffer: array2<real>, lib: Libm) returns (ghost frames: seq<Delay.Frame>, ghost outputs: seq<seq<real>>)
      requires Valid() && Prepared() && 0 <= lfo.waveform <= 4
      requires buffer.Length0 == 2 && buffer.Length1 <= blockSize
      requires buffer != modulation && buffer != drywetter.drySignal && buffer != delay.delayMemory
      requires delay.writeIndex < delay.memorySize
      modifies lfo, timeModulation, modulation, drywetter, drywetter.drySignal, delay, delay.delayMemory, delay.oldSample, buffer
      ensures Valid() && Prepared() && delay.Ready()
      ensures delay.sampleRate == old(delay.sampleRate) && delay.memorySize == old(delay.memorySize)
      ensures lfo.State() == Oscillator.Block(lib, old(lfo.State()), buffer.Length1).1
      ensures timeModulation.modAmount == Advance(old(timeModulation.modAmount), buffer.Length1)
      ensures timeModulation.parameter == Advance(old(timeModulation.parameter), buffer.Length1)
      ensures forall c, k :: 0 <= c < 2 && 0 <= k < buffer.Length1 ==>
        modulation[c, k] == MinReal(Oscillator.Shape(Oscillator.Block(lib, old(lfo.State()), buffer.Length1).0[k][c],
                                                     Gains(old(timeModulation.modAmount), buffer.Length1)[k],
                                                     Gains(old(timeModulation.parameter), buffer.Length1)[k]),
                                    Parameters.MaxDelayTime)
      ensures |frames| == buffer.Length1
      ensures forall k :: 0 <= k < buffer.Length1 ==>
        frames[k] == Delay.Frame([old(buffer[0, k]), old(buffer[1, k])], [modulation[0, k], modulation[1, k]],
                                 Gains(old(delay.feedback), buffer.Length1)[k])
      ensures Delay.AllReadable(frames, delay.sampleRate, delay.memorySize)
      ensures delay.feedback == Advance(old(delay.feedback), buffer.Length1)
      ensures delay.Mirrors(Delay.Run(old(delay.State()), frames, delay.sampleRate).0)
      ensures outputs == Delay.Run(old(delay.State()), frames, delay.sampleRate).1
      ensures forall c, k :: 0 <= c < 2 && 0 <= k < buffer.Length1 ==>
        buffer[c, k] == DryWet.Mix(outputs[k][c], old(buffer[c, k]),
                                   Gains(old(drywetter.wetLevel), buffer.Length1)[k],
                                   Gains(old(drywetter.dryLevel), buffer.Length1)[k])
      ensures drywetter.dwRatio == old(drywetter.dwRatio)
      ensures drywetter.dryLevel == Advance(old(drywetter.dryLevel), buffer.Length1)
      ensures drywetter.wetLevel == Advance(old(drywetter.wetLevel), buffer.Length1)
      ensures forall c, k :: 0 <= c < 2 && 0 <= k < buffer.Length1 ==>
        drywetter.drySignal[c, k] == Scaled(old(buffer[c, k]), Gains(old(drywetter.dryLevel), buffer.Length1)[k])
    {
      var numSamples := buffer.Length1;
      GenerateModulation(buffer.Length0, numSamples, lib);
      ghost var start := delay.State();
      delay.StateMirrors();
      assert start == old(delay.State());
      frames, outputs := ProcessAudio(buffer, start);
    }

    /** The first half of `processBlock`: generate, shape and cap the modulation block. */
    method GenerateModulation(numCh: int, numSamples: int, lib: Libm)
      requires Valid() && Prepared() && 0 <= lfo.waveform <= 4
      requires 0 <= numCh <= 2 && 0 <= numSamples <= blockSize
      modifies lfo, timeModulation, modulation
      ensures Valid() && Prepared()
      ensures lfo.State() == Oscillator.Block(lib, old(lfo.State()), numSamples).1
      ensures timeModulation.modAmount == Advance(old(timeModulation.modAmount), numSamples)
      ensures timeModulation.parameter == Advance(old(timeModulation.parameter), numSamples)
      ensures forall c, k :: 0 <= c < 2 && 0 <= k < numSamples ==>
        modulation[c, k] == (var t := Oscillator.Shape(Oscillator.Block(lib, old(lfo.State()), numSamples).0[k][c],
                                                       Gains(old(timeModulation.modAmount), numSamples)[k],
                                                       Gains(old(timeModulation.parameter), numSamples)[k]);
                             if c < numCh then MinReal(t, Parameters.MaxDelayTime) else t)
    {
      lfo.GetNextAudioBlock(modulation, numSamples, lib);
      timeModulation.ProcessBlock(modulation, numSamples);
      CapModulation(modulation, numCh, numSamples);
    }

    /**
     * The second half of `processBlock`: copy the dry signal, run the delay,
     * mix the dry signal back. `outputs` are the delay's outputs.
     */
    method ProcessAudio(buffer: array2<real>, ghost start: Delay.Line) returns (ghost frames: seq<Delay.Frame>, ghost outputs: seq<seq<real>>)
      requires Valid() && Prepared()
      requires buffer.Length0 == 2 && buffer.Length1 <= blockSize
      requires buffer != modulation && buffer != drywetter.drySignal && buffer != delay.delayMemory
      requires delay.writeIndex < delay.memorySize && delay.Mirrors(start)
      requires forall c, k :: 0 <= c < 2 && 0 <= k < buffer.Length1 ==> modulation[c, k] <= Parameters.MaxDelayTime
      modifies drywetter, drywetter.drySignal, delay, delay.delayMemory, delay.oldSample, buffer
      ensures Valid() && Prepared() && delay.Ready()
      ensures delay.sampleRate == old(delay.sampleRate) && delay.memorySize == old(delay.memorySize)
      ensures |frames| == buffer.Length1
      ensures forall k :: 0 <= k < buffer.Length1 ==>
        frames[k] == Delay.Frame([old(buffer[0, k]), old(buffer[1, k])], [modulation[0, k], modulation[1, k]],
                                 Gains(old(delay.feedback), buffer.Length1)[k])
      ensures Delay.AllReadable(frames, delay.sampleRate, delay.memorySize)
      ensures delay.feedback == Advance(old(delay.feedback), buffer.Length1)
      ensures delay.Mirrors(Delay.Run(start, frames, delay.sampleRate).0)
      ensures outputs == Delay.Run(start, frames, delay.sampleRate).1
      ensures forall c, k :: 0 <= c < 2 && 0 <= k < buffer.Length1 ==>
        buffer[c, k] == DryWet.Mix(outputs[k][c], old(buffer[c, k]),
                                   Gains(old(drywetter.wetLevel), buffer.Length1)[k],
                                   Gains(old(drywetter.dryLevel), buffer.Length1)[k])
      ensures drywetter.dwRatio == old(drywetter.dwRatio)
      ensures drywetter.dryLevel == Advance(old(drywetter.dryLevel), buffer.Length1)
      ensures drywetter.wetLevel == Advance(old(drywetter.wetLevel), buffer.Length1)
      ensures forall c, k :: 0 <= c < 2 && 0 <= k < buffer.Length1 ==>
        drywetter.drySignal[c, k] == Scaled(old(buffer[c, k]), Gains(old(drywetter.dryLevel), buffer.Length1)[k])
    {
      drywetter.CopyDrySignal(buffer);
      frames, outputs := RunDelay(buffer, start);
      drywetter.MixDrySignal(buffer);
    }

    /** The delay's part of `processBlock`, on the capped modulation. */
    method RunDelay(buffer: array2<real>, ghost start: Delay.Line) returns (ghost frames: seq<Delay.Frame>, ghost outputs: seq<seq<real>>)
      requires Valid() && Prepared()
      requires buffer.Length0 == 2 && buffer.Length1 <= blockSize
      requires buffer != modulation && buffer != drywetter.drySignal && buffer != delay.delayMemory
      requires delay.writeIndex < delay.memorySize
      requires delay.Shaped() && delay.Mirrors(start)
      requires forall c, k :: 0 <= c < 2 && 0 <= k < buffer.Length1 ==> modulation[c, k] <= Parameters.MaxDelayTime
      modifies delay, delay.delayMemory, delay.oldSample, buffer
      ensures Valid() && Prepared() && delay.Ready()
      ensures delay.delayMemory == old(delay.delayMemory) && delay.oldSample == old(delay.oldSample)
      ensures delay.sampleRate == old(delay.sampleRate) && delay.memorySize == old(delay.memorySize)
      ensures |frames| == buffer.Length1
      ensures forall k :: 0 <= k < buffer.Length1 ==>
        frames[k] == Delay.Frame([old(buffer[0, k]), old(buffer[1, k])], [modulation[0, k], modulation[1, k]],
                                 Gains(old(delay.feedback), buffer.Length1)[k])
      ensures Delay.AllReadable(frames, delay.sampleRate, delay.memorySize)
      ensures delay.feedback == Advance(old(delay.feedback), buffer.Length1)
      ensures delay.Mirrors(Delay.Run(start, frames, delay.sampleRate).0)
      ensures outputs == Delay.Run(start, frames, delay.sampleRate).1
      ensures forall c, k :: 0 <= c < 2 && 0 <= k < buffer.Length1 ==> buffer[c, k] == outputs[k][c]
    {
      var numSamples := buffer.Length1;
      if 0 < numSamples {
        CappedModulationReadable(modulation, numSamples, delay.sampleRate, blockSize);
      }
      frames := Delay.BlockFrames(buffer, modulation, Gains(delay.feedback, numSamples));
      delay.MirrorsState(start);
      delay.ProcessBlock(buffer, modulation);
      outputs := Delay.Run(start, frames, delay.sampleRate).1;
      delay.StateMirrors();
    }

    /**
     * `parameterChanged(paramID, newValue)`: the change reaches exactly the
     * component the identifier names; delay time, phase shift and modulation
     * amount are converted from ms to seconds, the waveform is rounded to the
     * nearest integer, and dry/wet, feedback and frequency are passed on as
     * they are. The oscillator asserts a positive frequency.
     */
    method ParameterChanged(paramID: string, newValue: real, lib: Libm)
      requires Valid()
      requires paramID == Parameters.NameFreq ==> 0.0 < newValue
      modifies drywetter, delay, lfo, timeModulation
      ensures Valid() && modulation == old(modulation) && blockSize == old(blockSize)
      ensures drywetter.drySignal == old(drywetter.drySignal)
      ensures drywetter.dwRatio == if paramID == Parameters.NameDryWet then newValue else old(drywetter.dwRatio)
      ensures paramID == Parameters.NameDryWet ==> drywetter.Tuned(lib)
      ensures drywetter.dryLevel ==
        if paramID == Parameters.NameDryWet then SetTargetValue(old(drywetter.dryLevel), DryWet.DryGain(lib, newValue))
        else old(drywetter.dryLevel)
      ensures drywetter.wetLevel ==
        if paramID == Parameters.NameDryWet then SetTargetValue(old(drywetter.wetLevel), DryWet.WetGain(lib, newValue))
        else old(drywetter.wetLevel)
      ensures timeModulation.parameter ==
        if paramID == Parameters.NameDelayTime then SetTargetValue(old(timeModulation.parameter), MsToSeconds(newValue))
        else old(timeModulation.parameter)
      ensures timeModulation.modAmount ==
        if paramID == Parameters.NameAmount then SetTargetValue(old(timeModulation.modAmount), MsToSeconds(newValue))
        else old(timeModulation.modAmount)
      ensures delay.feedback ==
        if paramID == Parameters.NameFeedback then SetTargetValue(old(delay.feedback), newValue) else old(delay.feedback)
      ensures delay.delayMemory == old(delay.delayMemory) && delay.memorySize == old(delay.memorySize)
      ensures delay.writeIndex == old(delay.writeIndex) && delay.sampleRate == old(delay.sampleRate)
      ensures delay.oldSample == old(delay.oldSample)
      ensures lfo.State() ==
        if paramID == Parameters.NameFreq then old(lfo.State()).(frequency := SetTargetValue(old(lfo.frequency), newValue))
        else if paramID == Parameters.NameWaveform then old(lfo.State()).(waveform := RoundToInt(newValue))
        else if paramID == Parameters.NamePhase then old(lfo.State()).(phaseShift := SetTargetValue(old(lfo.phaseShift), MsToSeconds(newValue)))
        else old(lfo.State())
      ensures old(lfo.State().Running()) && Parameters.InRange(paramID, newValue) ==> lfo.State().Running()
    {
      if paramID == Parameters.NameDryWet {
        drywetter.SetDWRatio(newValue, lib);
      }
      if paramID == Parameters.NameDelayTime {
        timeModulation.SetParameter(MsToSeconds(newValue));
      }
      if paramID == Parameters.NameFeedback {
        delay.SetFeedback(newValue);
      }
      if paramID == Parameters.NameFreq {
        lfo.SetFrequency(newValue);
      }
      if paramID == Parameters.NameWaveform {
        if Parameters.InRange(paramID, newValue) {
          WaveformChoiceExact(newValue);
        }
        lfo.SetWaveform(RoundToInt(newValue));
      }
      if paramID == Parameters.NamePhase {
        lfo.SetPhaseShift(MsToSeconds(newValue));
      }
      if paramID == Parameters.NameAmount {
        timeModulation.SetModAmount(MsToSeconds(newValue));
      }
    }
  }
}
