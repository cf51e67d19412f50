/**
 * `DryWet`: keeps a copy of the unprocessed (dry) block and mixes it back
 * into the processed (wet) block with equal-power gains: for a ratio `r` in
 * [0, 1] the dry gain targets `sqrt(1 - r)` and the wet gain `sqrt(r)`, so the
 * squares of the two gains add up to 1. Both gains ramp over 10 ms.
 */
module DryWet {

  import opened Numerics
  import opened Smoothing
  import opened Buffers

  /** `DEFAULT_DRY_WET` */
  const DefaultDryWet: real := 0.5
  /** Ramp length of the two gains, in seconds. */
  const LevelRampSeconds: real := 0.01

  /** The gain the dry signal targets for ratio `r`: the non-negative root of `1 - r`. */
  function DryGain(lib: Libm, r: real): (g: real)
    ensures Sound(lib) && r <= 1.0 ==> 0.0 <= g && g * g == 1.0 - r
    ensures Sound(lib) && r == 1.0 ==> g == 0.0
  {
    lib.sqrt(1.0 - r)
  }

  /** The gain the processed signal targets for ratio `r`: the non-negative root of `r`. */
  function WetGain(lib: Libm, r: real): (g: real)
    ensures Sound(lib) && 0.0 <= r ==> 0.0 <= g && g * g == r
    ensures Sound(lib) && r == 0.0 ==> g == 0.0
  {
    lib.sqrt(r)
  }

  /** One output sample: the processed sample at the wet gain plus the dry sample at the dry gain. */
  function Mix(wet: real, dry: real, wetGain: real, dryGain: real): (out: real)
    ensures wetGain == 0.0 ==> out == Scaled(dry, dryGain)
    ensures dryGain == 0.0 ==> out == Scaled(wet, wetGain)
  {
    Scaled(wet, wetGain) + Scaled(dry, dryGain)
  }

  /** Equal power: for a ratio in [0, 1] the squared gains add up to 1, and both gains lie in [0, 1]. */
  lemma EqualPower(lib: Libm, r: real)
    requires Sound(lib) && 0.0 <= r <= 1.0
    ensures Scaled(DryGain(lib, r), DryGain(lib, r)) + Scaled(WetGain(lib, r), WetGain(lib, r)) == 1.0
    ensures 0.0 <= DryGain(lib, r) <= 1.0 && 0.0 <= WetGain(lib, r) <= 1.0
  {
    var d, w := DryGain(lib, r), WetGain(lib, r);
    if 1.0 < d {
      MulMonotone(1.0, d, d);
    }
    if 1.0 < w {
      MulMonotone(1.0, w, w);
    }
  }

  /** Ratio 0 yields the pure dry signal and ratio 1 the pure processed signal. */
  lemma MixEndpoints(lib: Libm, wet: real, dry: real)
    requires Sound(lib)
    ensures Mix(wet, dry, WetGain(lib, 0.0), DryGain(lib, 0.0)) == dry
    ensures Mix(wet, dry, WetGain(lib, 1.0), DryGain(lib, 1.0)) == wet
  {
    SqrtOne(lib);
    assert DryGain(lib, 1.0) == lib.sqrt(0.0);
  }

  class DryWet {
    /** The dry copy: two channels of `maxBlockSize` samples once prepared, none before and after. */
    var drySignal: array2<real>
    var dwRatio: real
    var dryLevel: Smoothed
    var wetLevel: Smoothed

    ghost predicate Valid()
      reads this
    {
      dryLevel.Valid() && wetLevel.Valid()
    }

    /** The gains target the equal-power pair for the stored ratio. */
    ghost predicate Tuned(lib: Libm)
      reads this
    {
      dryLevel.target == DryGain(lib, dwRatio) && wetLevel.target == WetGain(lib, dwRatio)
    }

    /** `DryWet(defaultDW)`: stores the ratio only; the gains stay at 0 until `prepareToPlay`. */
    constructor(defaultDW: real)
      ensures Valid() && dwRatio == defaultDW
      ensures dryLevel == Create(0.0) && wetLevel == Create(0.0)
      ensures fresh(drySignal) && drySignal.Length0 == 0 && drySignal.Length1 == 0
    {
      dwRatio := defaultDW;
      dryLevel := Create(0.0);
      wetLevel := Create(0.0);
      drySignal := new real[0, 0];
    }

    /**
     * `prepareToPlay(sr, maxBlockSize)`: a cleared dry buffer of two channels
     * of `maxBlockSize` samples, both gains settled with a 10 ms ramp, and the
     * stored ratio's targets set again.
     */
    method PrepareToPlay(sr: real, maxBlockSize: int, lib: Libm)
      requires Valid() && 0.0 < sr && 0 <= maxBlockSize
      modifies this
      ensures Valid() && Tuned(lib) && dwRatio == old(dwRatio)
      ensures fresh(drySignal) && drySignal.Length0 == 2 && drySignal.Length1 == maxBlockSize
      ensures forall c, k :: 0 <= c < 2 && 0 <= k < maxBlockSize ==> drySignal[c, k] == 0.0
      ensures dryLevel == SetTargetValue(Reset(old(dryLevel), sr, LevelRampSeconds), DryGain(lib, dwRatio))
      ensures wetLevel == SetTargetValue(Reset(old(wetLevel), sr, LevelRampSeconds), WetGain(lib, dwRatio))
    {
      drySignal := new real[2, maxBlockSize]((_, _) => 0.0);
      dryLevel := Reset(dryLevel, sr, LevelRampSeconds);
      wetLevel := Reset(wetLevel, sr, LevelRampSeconds);
      UpdateState(lib);
    }

    /** `releaseResources`: the dry buffer shrinks to nothing. */
    method ReleaseResources()
      modifies this
      ensures fresh(drySignal) && drySignal.Length0 == 0 && drySignal.Length1 == 0
      ensures dwRatio == old(dwRatio) && dryLevel == old(dryLevel) && wetLevel == old(wetLevel)
    {
      drySignal := new real[0, 0];
    }

    /** `copyDrySignal(sourceBuffer)`: samples `0 .. n-1` of channels 0 and 1 are copied, nothing else. */
    method CopyDrySignal(sourceBuffer: array2<real>)
      requires drySignal.Length0 == 2 && 2 <= sourceBuffer.Length0
      requires sourceBuffer.Length1 <= drySignal.Length1 && sourceBuffer != drySignal
      modifies drySignal
      ensures forall c, k :: 0 <= c < 2 && 0 <= k < sourceBuffer.Length1 ==> drySignal[c, k] == sourceBuffer[c, k]
      ensures forall c, k :: 0 <= c < 2 && sourceBuffer.Length1 <= k < drySignal.Length1 ==>
        drySignal[c, k] == old(drySignal[c, k])
    {
      var numSamples := sourceBuffer.Length1;
      for ch := 0 to 2
        invariant forall c, k :: 0 <= c < ch && 0 <= k < numSamples ==> drySignal[c, k] == sourceBuffer[c, k]
        invariant forall c, k :: 0 <= c < 2 && 0 <= k < drySignal.Length1 && (ch <= c || numSamples <= k) ==>
          drySignal[c, k] == old(drySignal[c, k])
      {
        CopyFrom(drySignal, sourceBuffer, ch, numSamples);
      }
    }

    /**
     * `mixDrySignal(destinationBuffer)`: the dry copy is scaled in place by
     * the dry gain, every channel of the destination by the wet gain, and
     * channels 0 and 1 of the dry copy are added in. Both gains are consumed
     * once per sample.
     */
    method MixDrySignal(destinationBuffer: array2<real>)
      requires Valid() && drySignal.Length0 == 2 && 2 <= destinationBuffer.Length0
      requires destinationBuffer.Length1 <= drySignal.Length1 && destinationBuffer != drySignal
      modifies this, drySignal, destinationBuffer
      ensures Valid() && drySignal == old(drySignal) && dwRatio == old(dwRatio)
      ensures dryLevel == Advance(old(dryLevel), destinationBuffer.Length1)
      ensures wetLevel == Advance(old(wetLevel), destinationBuffer.Length1)
      ensures forall c, k :: 0 <= c < 2 && 0 <= k < destinationBuffer.Length1 ==>
        destinationBuffer[c, k] == Mix(old(destinationBuffer[c, k]), old(drySignal[c, k]),
                                       Gains(old(wetLevel), destinationBuffer.Length1)[k],
                                       Gains(old(dryLevel), destinationBuffer.Length1)[k])
      ensures forall c, k :: 2 <= c < destinationBuffer.Length0 && 0 <= k < destinationBuffer.Length1 ==>
        destinationBuffer[c, k] == Scaled(old(destinationBuffer[c, k]), Gains(old(wetLevel), destinationBuffer.Length1)[k])
      ensures forall c, k :: 0 <= c < 2 && 0 <= k < destinationBuffer.Length1 ==>
        drySignal[c, k] == Scaled(old(drySignal[c, k]), Gains(old(dryLevel), destinationBuffer.Length1)[k])
      ensures forall c, k :: 0 <= c < 2 && destinationBuffer.Length1 <= k < drySignal.Length1 ==>
        drySignal[c, k] == old(drySignal[c, k])
    {
      var numSamples := destinationBuffer.Length1;
      AdvanceCounts(dryLevel, numSamples);
      AdvanceCounts(wetLevel, numSamples);
      dryLevel := ApplyGain(dryLevel, drySignal, numSamples);
      wetLevel := ApplyGain(wetLevel, destinationBuffer, numSamples);
      AddDrySignal(destinationBuffer);
    }

    /** The last loop of `mixDrySignal`: add channels 0 and 1 of the dry copy into the destination. */
    method AddDrySignal(destinationBuffer: array2<real>)
      requires drySignal.Length0 == 2 && 2 <= destinationBuffer.Length0
      requires destinationBuffer.Length1 <= drySignal.Length1 && destinationBuffer != drySignal
      modifies destinationBuffer
      ensures forall c, k :: 0 <= c < 2 && 0 <= k < destinationBuffer.Length1 ==>
        destinationBuffer[c, k] == old(destinationBuffer[c, k]) + drySignal[c, k]
      ensures forall c, k :: 2 <= c < destinationBuffer.Length0 && 0 <= k < destinationBuffer.Length1 ==>
        destinationBuffer[c, k] == old(destinationBuffer[c, k])
    {
      var numSamples := destinationBuffer.Length1;
      for ch := 0 to 2
        invariant forall c, k :: 0 <= c < ch && 0 <= k < numSamples ==>
          destinationBuffer[c, k] == old(destinationBuffer[c, k]) + drySignal[c, k]
        invariant forall c, k :: 0 <= c < destinationBuffer.Length0 && 0 <= k < numSamples && ch <= c ==>
          destinationBuffer[c, k] == old(destinationBuffer[c, k])
      {
        AddFrom(destinationBuffer, drySignal, ch, numSamples);
      }
    }

    /** `setDWRatio(newValue)`: store the ratio and retarget both gains. */
    method SetDWRatio(newValue: real, lib: Libm)
      requires Valid()
      modifies this
      ensures Valid() && Tuned(lib) && dwRatio == newValue && drySignal == old(drySignal)
      ensures dryLevel == SetTargetValue(old(dryLevel), DryGain(lib, newValue))
      ensures wetLevel == SetTargetValue(old(wetLevel), WetGain(lib, newValue))
    {
      dwRatio := newValue;
      UpdateState(lib);
    }

    /** `updateState`: the dry gain targets `sqrt(1 - r)` and the wet gain `sqrt(r)`. */
    method UpdateState(lib: Libm)
      requires Valid()
      modifies this`dryLevel, this`wetLevel
      ensures Valid() && Tuned(lib)
      ensures dryLevel == SetTargetValue(old(dryLevel), DryGain(lib, dwRatio))
      ensures wetLevel == SetTargetValue(old(wetLevel), WetGain(lib, dwRatio))
    {
      dryLevel := SetTargetValue(dryLevel, DryGain(lib, dwRatio));
      wetLevel := SetTargetValue(wetLevel, WetGain(lib, dwRatio));
    }
  }

  /**
   * Once both gains have settled on the targets of ratio `r`, every mixed
   * sample is `Mix` at exactly those gains; with `r` = 0 that is the dry
   * sample and with `r` = 1 the processed one.
   */
  lemma {:induction false} SettledMix(lib: Libm, dry: Smoothed, wet: Smoothed, r: real, n: nat, k: nat, p: real, d: real)
    requires Sound(lib) && dry.Valid() && wet.Valid() && !dry.IsSmoothing() && !wet.IsSmoothing()
    requires dry.target == DryGain(lib, r) && wet.target == WetGain(lib, r) && k < n
    ensures Mix(p, d, Gains(wet, n)[k], Gains(dry, n)[k]) == Mix(p, d, WetGain(lib, r), DryGain(lib, r))
    ensures r == 0.0 ==> Mix(p, d, Gains(wet, n)[k], Gains(dry, n)[k]) == d
    ensures r == 1.0 ==> Mix(p, d, Gains(wet, n)[k], Gains(dry, n)[k]) == p
  {
    SettledGains(dry, n);
    SettledGains(wet, n);
    MixEndpoints(lib, p, d);
  }
}
