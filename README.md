# StereoFlanger, modelled in Dafny

A model of the audio engine of the StereoFlanger plugin (a JUCE audio
processor), with proofs of what its parts promise.

Every audio block goes through the same pipeline:
- **Modulation.** A low-frequency oscillator (`NaiveOscillator`) fills a two-channel modulation block. Channel 1 is evaluated at the oscillator phase. Channel 0 is evaluated at the phase plus a stereo shift.
- **Delay times.** `ParameterModulation` maps each value `x` in [-1, 1] to a delay time, `(x + 1) / 2 * amount + delayTime`.
- **Cap.** The processor caps every delay time at `maxDelayTime` (5.1 s).
- **Delay.** The processor saves the dry input, then runs the two-channel modulated delay (`ModDelay`) in place. The delay has a ring buffer, first-order allpass interpolation and feedback.
- **Mix.** `DryWet` mixes the dry copy back in with equal-power gains.

Host parameter changes are routed to the component they name. Delay time, amount and stereo phase are converted from ms to seconds on the way.

The model is split by source file:
- **Gain ramps.** `smoothing.dfy` models JUCE `SmoothedValue` as a value datatype.
- **Buffer primitives.** `buffers.dfy` holds the `FloatVectorOperations` and `AudioBuffer` calls the plugin uses.
- **Numerics.** `numerics.dfy` holds C++ truncation, the remainder operator and JUCE `roundToInt`.
- **Components.**
  - `delay.dfy`: `ModDelay`
  - `oscillator.dfy`: `NaiveOscillator` and `ParameterModulation`
  - `drywet.dfy`: `DryWet`
  - `parameters.dfy`: the parameter identifiers, defaults and ranges
  - `processor.dfy`: the processor

Each file pairs a specification with an implementation:
- **Specifications.** These are functions over values:
  - the delay: `Delay.Run` over a `Line` and a sequence of `Frame`s;
  - the oscillator: `Oscillator.Block` over an `Lfo` state;
  - the ramps: `Smoothing.Advance` and `Smoothing.Gains`.
- **Implementations.** The classes keep the source's fields and update them in place. Buffers are `array2<real>` (channels × samples). Each method is proved to compute its specification.
- **Properties.** Lemmas prove what the source promises about those functions.

For the delay these are:
- every index stays in range;
- the allpass coefficient stays stable;
- with a fixed whole-sample delay and no feedback, the line is a pure delay;
- a zero delay time passes the input through unchanged (`Delay.ChannelOutput`).

For the oscillator and the ramps they are:
- every oscillator sample lies in [-1, 1];
- a ramping value is consumed once per sample. A settled value is only read (`getCurrentValue`), and the model counts that read as one step: for a settled value the two are the same, which `Smoothing.SettledRead` and `Oscillator.ShiftOf` prove. The base of `ParameterModulation` is the exception: a buffer with no channels consumes none of it.

The dry/wet mix uses equal-power gains.

## Model

| member | source | states |
|---|---|---|
| Numerics.Trunc | Source/Delay.h:59 | `static_cast<int>` rounds toward zero: the result is the integer at most 1 away from `x` on the side of zero |
| Numerics.TruncRemainder | Source/Delay.h:59-60 | the fractional part `x - trunc(x)` lies in (-1, 1) and has the sign of `x` |
| Numerics.TruncOfInt | Source/Delay.h:59 | a whole number truncates to itself |
| Numerics.CppRem | Source/Delay.h:62-63 | C++ `%` by a positive modulus: in [0, m) and equal to the mathematical remainder for a non-negative dividend, in (-m, 0] for a negative one |
| Numerics.RoundToInt | Source/Delay.h:26 | `roundToInt` lands within 0.5 of `x`, and an exact tie goes to the even neighbour |
| Numerics.MinInt | Source/Delay.h:55 | `jmin` on the modulation channel index is one of its arguments and at most both |
| Numerics.MinReal | Source/PluginProcessor.cpp:54 | the per-sample `min` of `FloatVectorOperations::min` on delay times (a `double`, where `jmin` above is on an `int`) is one of its arguments and at most both |
| Numerics.Abs | Source/Oscillator.h:77 | `abs` is non-negative and is `x` or `-x` |
| Numerics.SqrtOne | Source/DryWet.h:67-68 | under the square-root law the library `sqrt(1)` is exactly 1 |
| Smoothing.Create | Source/DryWet.h:75-76 | a freshly constructed smoothed value is settled on its value, with no ramp configured |
| Smoothing.SetCurrentAndTargetValue | Source/Delay.h:18 | `setCurrentAndTargetValue` jumps to the value and stops any ramp, keeping the ramp length |
| Smoothing.RampSteps | Source/Delay.h:30 | `reset` configures `floor(seconds * sampleRate)` ramp steps |
| Smoothing.Reset | Source/Delay.h:30 | `reset` settles the value on its target and sets the ramp length |
| Smoothing.SetTargetValue | Source/Delay.h:86 | `setTargetValue`: no change for the same target; a jump when no ramp is configured; otherwise a full ramp from the current value |
| Smoothing.Next | Source/Delay.h:51 | one `getNextValue` keeps the target and the ramp length, uses one ramp step (none when settled), and returns the new current value of a well formed value |
| Smoothing.GainsAt | Source/Delay.h:51 | the `k`-th value a block consumes is the value after `k` earlier calls of `getNextValue` |
| Smoothing.GainsPrefix | Source/Delay.h:49-51 | the first `m` values of a longer block are the values of a block of `m` |
| Smoothing.AdvanceCounts | Source/Delay.h:49-51 | `n` calls use `min(n, countdown)` ramp steps, keep the target, and a used-up ramp sits on its target |
| Smoothing.SettledGains | Source/DryWet.h:47-48 | a settled value is not moved by consumption and yields its target on every sample |
| Smoothing.SettledRead | Source/Oscillator.h:49-52 | reading a settled value's current value is the same as consuming it |
| Smoothing.NextBetween | Source/Oscillator.h:98 | a ramp step lands between the current value and the target |
| Smoothing.PositiveGains | Source/Oscillator.h:98 | a value positive at start and target yields only positive values |
| Smoothing.NonNegativeGains | Source/Oscillator.h:49-52 | a value non-negative at start and target yields only non-negative values |
| Smoothing.ApplyGain | Source/DryWet.h:47-48 | `applyGain`: sample `k` of every channel is multiplied by the `k`-th consumed value, later samples are untouched, and the value advances by the block length |
| Buffers.Add | Source/Oscillator.h:152 | `FloatVectorOperations::add` adds the constant to the first `n` samples of one channel and changes nothing else |
| Buffers.Multiply | Source/Oscillator.h:153 | `FloatVectorOperations::multiply` scales the first `n` samples of one channel and changes nothing else |
| Buffers.Min | Source/PluginProcessor.cpp:54 | `FloatVectorOperations::min` caps the first `n` samples of one channel and changes nothing else |
| Buffers.CopyFrom | Source/DryWet.h:39 | `copyFrom` copies the first `n` samples of one channel and changes nothing else |
| Buffers.AddFrom | Source/DryWet.h:52 | `addFrom` adds the first `n` samples of one channel and changes nothing else |
| Delay.ReadTap | Source/Delay.h:57-64 | the slots `A`, `B` the read position truncates to lie within one ring length of zero, and the allpass coefficient is in (-1, 1) |
| Delay.AllpassCoefficient | Source/Delay.h:64 | `alpha = f / (2 - f)` is a stable allpass coefficient, zero for a whole-sample delay |
| Delay.Allpass | Source/Delay.h:71 | the interpolated read `alpha * (B - oldSample) + A` is slot `A` for a whole-sample read (alpha 0) or when `B` equals the previous output |
| Delay.AllpassStable | Source/Delay.h:64 | for a fractional part in (-1, 1), `f / (2 - f)` lies in (-1, 1) |
| Delay.TapInRange | Source/Delay.h:57-63 | a read at most one ring length behind a cursor in range gives valid slot indices `A` and `B = (A + 1) % memorySize` |
| Delay.MemorySize | Source/Delay.h:26 | the ring holds `maxDelayTime * sampleRate` slots rounded to within 0.5, plus `maxBlockSize`, so at least `maxBlockSize` for a non-negative delay |
| Delay.ClampedDelayReadable | Source/Delay.h:26 | a delay of at most `maxDelayTime` reads strictly less than the `roundToInt(maxDelayTime * sampleRate) + maxBlockSize` slots allocated, for a block size of at least 1 |
| Delay.IntegerDelayTap | Source/Delay.h:57-64 | a whole-sample delay `d` reads slot `(writeIndex - d) % memorySize` with coefficient 0 |
| Delay.ChannelOutput | Source/Delay.h:67-71 | the channel's output; a zero delay time outputs the current input unchanged, because the input is stored before the read |
| Delay.ChannelUpdate | Source/Delay.h:67-77 | one channel of one sample writes the input at the cursor, outputs the interpolated read, stores it as the channel's history, and adds output × feedback into the written slot; the other channel and other slots are untouched |
| Delay.PartialStep | Source/Delay.h:53-78 | channels `0 .. n-1` of a sample leave the cursor in place and produce one output each |
| Delay.SampleStep | Source/Delay.h:51-80 | one sample processes both channels and moves the cursor to `(writeIndex + 1) % memorySize` |
| Delay.RunUpTo | Source/Delay.h:49-81 | the first `n` samples of a block keep the ring's size, produce two outputs per sample, and leave the cursor at `(writeIndex + n) % memorySize` |
| Delay.RunUpToStep | Source/Delay.h:49-81 | sample `n` of a block is one `SampleStep` from the line the first `n` samples leave, and appends its outputs to theirs |
| Delay.Run | Source/Delay.h:49-81 | a block keeps the ring's size, produces two outputs for every frame, and moves the cursor on by the block length, wrapping at the ring length |
| Delay.IntegerDelayReadsSlot | Source/Delay.h:57-71 | a whole-sample delay `d` outputs slot `writeIndex - d` of the row that already holds the current input |
| Delay.Echo | Source/Delay.h:49-81 | from a cleared ring, with no feedback and a fixed whole-sample delay `0 < d < memorySize`, output `n` of each channel is input `n - d`, or silence for the first `d` samples |
| Delay.EchoFrom | Source/Delay.h:49-81 | from any line holding a stream's inputs before sample `k`, a block that continues the stream outputs the input `d` samples earlier and leaves a line holding the inputs before sample `k + n` |
| Delay.EchoFirstBlock | Source/Delay.h:49-81 | the first block run from a cleared ring leaves a line holding that block's inputs |
| Delay.EchoSecondBlock | Source/Delay.h:49-81 | a block run from a line holding the previous block's inputs echoes the whole stream, reaching back into the previous block |
| Delay.EchoAcrossBlocks | Source/Delay.h:49-81 | two consecutive `processBlock` calls from a cleared ring: output `n` of the second block is the stream's input `d` samples earlier, reaching across the block boundary, and silence before the stream starts |
| Delay.FramesReadable | Source/Delay.h:55 | when every modulation value the block reads (channel `jmin(ch, numModCh - 1)`) is at most one ring length, so is every frame's delay time |
| Delay.ModDelay.constructor | Source/Delay.h:15-19 | no ring allocated, cursor 0, sample rate 1, previous outputs 0, feedback settled on the default |
| Delay.ModDelay.PrepareToPlay | Source/Delay.h:23-31 | a cleared two-row ring of `roundToInt(maxDelayTime * sampleRate) + maxBlockSize` slots; feedback settled with a 20 ms ramp; the cursor and previous outputs are kept |
| Delay.ModDelay.ReleaseResources | Source/Delay.h:33-37 | the ring shrinks to nothing and `memorySize` becomes 0; cursor, feedback and previous outputs are kept |
| Delay.ModDelay.SetFeedback | Source/Delay.h:84-87 | only the feedback changes, towards the new target |
| Delay.ModDelay.ProcessChannel | Source/Delay.h:55-77 | the arrays move from line `l` to `ChannelUpdate(l, …)` and the returned sample is its output |
| Delay.ModDelay.ProcessBlock | Source/Delay.h:39-82 | the ring and history become `Run`'s line on the block's frames; every output sample of channels 0 and 1 is `Run`'s output; other channels are untouched; feedback advances by the block length |
| Delay.ModDelay.SampleLoop | Source/Delay.h:49-81 | the sample loop takes the arrays from the line `start` to `RunUpTo`'s line over the whole block, writes every output of channels 0 and 1, and advances the feedback by the block length |
| Delay.ModDelay.SampleOfRun | Source/Delay.h:49-81 | pass `smp` of the loop takes the arrays from the run up to `smp` to the run up to `smp + 1` and writes sample `smp`'s outputs only |
| Delay.ModDelay.NextSample | Source/Delay.h:51-80 | one pass consumes one feedback gain, takes the line one `SampleStep` further, and appends that step's outputs to the outputs already written |
| Delay.ModDelay.ProcessSample | Source/Delay.h:53-80 | both channels, then the cursor advance, equal `SampleStep` |
| Delay.ModDelay.ProcessChannels | Source/Delay.h:53-78 | the channel loop equals `PartialStep` over both channels and writes each output over its input |
| Oscillator.Wrap | Source/Oscillator.h:65-67 | subtracting the integer part changes a phase by a whole number and leaves it in [0, 1) for a non-negative phase (in (-1, 0] for a negative one) |
| Oscillator.Square | Source/Oscillator.h:88-90 | the square wave is 1 above 0.5, -1 below and 0 at 0.5 |
| Oscillator.Evaluate | Source/Oscillator.h:69-91 | on a phase in [0, 1) every waveform 0 to 4 stays in [-1, 1]; the falling saw is the rising one mirrored; the triangle and falling saw start at 1 and the rising saw at -1 |
| Oscillator.Tick | Source/Oscillator.h:63-101 | channel 0 is the waveform at the wrapped shifted phase and channel 1 at the phase itself; one frequency value is consumed; waveform, shift and sample period are untouched |
| Oscillator.ShiftOf | Source/Oscillator.h:49-52 | the shift read (next value while ramping, current value otherwise) is one `getNextValue` for a well formed value, and leaves a settled shift unchanged |
| Oscillator.Step | Source/Oscillator.h:49-54 | one sample of the block yields two values and keeps the waveform and the sample period |
| Oscillator.Block | Source/Oscillator.h:38-61 | a block of `n` samples yields `n` pairs and keeps the waveform and the sample period |
| Oscillator.BlockPrefix | Source/Oscillator.h:47-60 | sample `k` of a block is the step taken from the state after `k` samples |
| Oscillator.BlockConsumes | Source/Oscillator.h:47-61 | a block of `n` samples consumes the frequency and the shift exactly `n` times |
| Oscillator.BlockSample | Source/Oscillator.h:54-73 | sample `k`: channel 1 is the waveform at the phase after `k` samples, channel 0 at that phase plus the `k`-th shift value, wrapped |
| Oscillator.BlockShift | Source/Oscillator.h:49-52 | the shift read at sample `k` is the `k`-th value of the shift |
| Oscillator.BlockPhase | Source/Oscillator.h:98-100 | after sample `k` the phase advances by the `k`-th frequency value × sample period and is wrapped |
| Oscillator.StepRunning | Source/Oscillator.h:63-101 | one sample keeps a running oscillator running (phase in [0, 1), positive frequency, non-negative shift); both outputs are in [-1, 1] |
| Oscillator.BlockRunning | Source/Oscillator.h:38-61 | over any block a running oscillator keeps running, and every sample lies in [-1, 1] |
| Oscillator.StoreSample | Source/Oscillator.h:56-59 | sample `smp` of every channel gets `sampleValue[ch]`; nothing else changes |
| Oscillator.NaiveOscillator.constructor | Source/Oscillator.h:7-12 | frequency target set on a fresh smoother, which jumps to it; shift set without a ramp; phase 0, sample period 1 |
| Oscillator.NaiveOscillator.PrepareToPlay | Source/Oscillator.h:16-20 | frequency settled with a 20 ms ramp; sample period `1 / sampleRate`; a running oscillator stays running |
| Oscillator.NaiveOscillator.SetFrequency | Source/Oscillator.h:22-26 | requires a positive frequency (the `jassert`); only the frequency target changes |
| Oscillator.NaiveOscillator.SetWaveform | Source/Oscillator.h:28-31 | only the waveform changes, to any id |
| Oscillator.NaiveOscillator.SetPhaseShift | Source/Oscillator.h:33-36 | only the shift target changes; the shift's ramp length stays as it was |
| Oscillator.NaiveOscillator.GetNextAudioSample | Source/Oscillator.h:63-101 | the two output values and the new state are exactly `Tick` |
| Oscillator.NaiveOscillator.GetNextAudioBlock | Source/Oscillator.h:38-61 | the new state is `Block`'s; sample `k` of channel `c` is `Block`'s value `c` of pair `k`; later samples are untouched |
| Oscillator.NaiveOscillator.NextBlockSample | Source/Oscillator.h:49-59 | one pass of the loop extends the block by one `Step` and writes only sample `smp` |
| Oscillator.Remap | Source/Oscillator.h:150-154 | `(x + 1) * 0.5` inverts to `2y - 1`, and maps [-1, 1] exactly onto [0, 1] |
| Oscillator.Shape | Source/Oscillator.h:150-170 | an oscillator value in [-1, 1] becomes a delay time between the base and the base plus the amount, the base at -1 and base plus amount at 1 |
| Oscillator.ShapeMonotone | Source/Oscillator.h:150-170 | with a non-negative amount a larger oscillator value never gives a shorter delay time |
| Oscillator.RemapBlock | Source/Oscillator.h:150-154 | the first `n` samples of every channel are remapped; later samples are untouched |
| Oscillator.ParameterModulation.constructor | Source/Oscillator.h:120-124 | base and amount set without a ramp |
| Oscillator.ParameterModulation.PrepareToPlay | Source/Oscillator.h:128-132 | both values settled, each with a 20 ms ramp |
| Oscillator.ParameterModulation.SetModAmount | Source/Oscillator.h:134-137 | only the amount target changes |
| Oscillator.ParameterModulation.SetParameter | Source/Oscillator.h:139-142 | only the base target changes |
| Oscillator.ParameterModulation.ProcessBlock | Source/Oscillator.h:144-171 | sample `k` of every channel becomes `Shape(x, amount_k, base_k)`; the amount advances by the block length; the base advances too, unless the buffer has no channels |
| Oscillator.ParameterModulation.AddRampedParameter | Source/Oscillator.h:160-165 | while the base ramps, sample `k` of every channel gets the `k`-th base value, consumed once per sample |
| Oscillator.ParameterModulation.AddParameterSample | Source/Oscillator.h:162-164 | channel 0 consumes one base value, and every later channel adds that same value |
| Oscillator.ParameterModulation.AddSettledParameter | Source/Oscillator.h:166-170 | a settled base's current value is added to the first `n` samples of every channel |
| DryWet.DryGain | Source/DryWet.h:67 | the dry target `sqrt(1 - r)` is the non-negative root of `1 - r`, and 0 at ratio 1 |
| DryWet.WetGain | Source/DryWet.h:68 | the wet target `sqrt(r)` is the non-negative root of `r`, and 0 at ratio 0 |
| DryWet.Mix | Source/DryWet.h:47-53 | with a zero wet gain the output is the scaled dry sample; with a zero dry gain, the scaled processed sample |
| DryWet.EqualPower | Source/DryWet.h:65-69 | for a ratio in [0, 1] the squared gains `sqrt(1 - r)`, `sqrt(r)` add up to 1, and both lie in [0, 1] |
| DryWet.MixEndpoints | Source/DryWet.h:65-69 | ratio 0 yields the dry sample and ratio 1 the processed sample |
| DryWet.SettledMix | Source/DryWet.h:43-54 | once both gains have settled on ratio `r`'s targets, every mixed sample uses exactly those gains (the dry sample for `r` = 0, the processed one for `r` = 1) |
| DryWet.DryWet.constructor | Source/DryWet.h:10-13 | only the ratio is stored; the gains stay at 0 and no dry buffer exists |
| DryWet.DryWet.PrepareToPlay | Source/DryWet.h:17-26 | a cleared 2 × `maxBlockSize` dry buffer; both gains settled with a 10 ms ramp and retargeted on the stored ratio |
| DryWet.DryWet.ReleaseResources | Source/DryWet.h:28-31 | the dry buffer shrinks to nothing; ratio and gains are kept |
| DryWet.DryWet.CopyDrySignal | Source/DryWet.h:33-41 | channels 0 and 1 of the block are copied into the dry buffer; the rest of it is untouched |
| DryWet.DryWet.MixDrySignal | Source/DryWet.h:43-54 | channels 0 and 1 become `Mix(processed, dry, wet_k, dry_k)`; other channels are scaled by the wet gain; the dry copy is scaled in place; both gains advance by the block length |
| DryWet.DryWet.AddDrySignal | Source/DryWet.h:50-53 | channels 0 and 1 of the dry copy are added in; other channels are untouched |
| DryWet.DryWet.SetDWRatio | Source/DryWet.h:56-60 | the ratio is stored and both gains target its equal-power pair |
| DryWet.DryWet.UpdateState | Source/DryWet.h:65-69 | the dry gain targets `sqrt(1 - r)` and the wet gain `sqrt(r)` |
| Processor.MsToSeconds | Source/PluginProcessor.cpp:101 | `value * 0.001` is the ms value divided by 1000 and keeps its sign |
| Processor.WaveformChoiceExact | Source/PluginProcessor.cpp:116 | a waveform choice the layout allows (a whole number 0 to 4) reaches the oscillator unchanged through `roundToInt` |
| Processor.ShapedWithinCap | Source/Parameters.h:32-37 | with delay time and amount in the layout's ranges, every oscillator value in [-1, 1] shapes to a delay time in [0, `maxDelayTime`], so the cap never cuts |
| Processor.CapModulation | Source/PluginProcessor.cpp:53-54 | the first `numCh` channels are capped at `maxDelayTime` over the block; everything else is untouched |
| Processor.CappedModulationReadable | Source/PluginProcessor.cpp:53-59 | capped delay times never reach back further than the ring the delay allocated for `maxDelayTime` |
| Processor.StereoFlangerProcessor.constructor | Source/PluginProcessor.cpp:8-16 | every component gets its default, with the delay time and phase defaults passed without the ms conversion |
| Processor.StereoFlangerProcessor.PrepareToPlay | Source/PluginProcessor.cpp:22-29 | cleared dry and delay buffers and a 2 × `samplesPerBlock` modulation block; feedback, LFO frequency, base and amount reset with their ramp lengths; dry and wet gains reset at 10 ms and retargeted on the kept ratio; the delay's cursor and previous outputs kept; sample period `1 / sampleRate` |
| Processor.StereoFlangerProcessor.ReleaseResources | Source/PluginProcessor.cpp:31-36 | dry buffer, ring and modulation block shrink to nothing; cursor, sample rate, feedback, previous outputs, ratio and both gains are kept |
| Processor.StereoFlangerProcessor.ProcessBlock | Source/PluginProcessor.cpp:38-62 | the modulation is the capped, shaped LFO block; the delay runs on the block's frames; each output sample is the delayed sample mixed with its dry input; LFO, base, amount, feedback and both mix gains advance by the block length; the ratio is kept; the dry copy holds the input scaled by the dry gains |
| Processor.StereoFlangerProcessor.GenerateModulation | Source/PluginProcessor.cpp:46-54 | the modulation block is the LFO block, shaped, then capped on the buffer's channels |
| Processor.StereoFlangerProcessor.ProcessAudio | Source/PluginProcessor.cpp:57-61 | copy, delay and mix: each output is `Mix` of the delay's output and the dry input; both mix gains advance by the block length, the ratio is kept, and the dry copy holds the input scaled by the dry gains |
| Processor.StereoFlangerProcessor.RunDelay | Source/PluginProcessor.cpp:59 | the delay's line and outputs are `Run` on frames built from the input, the capped modulation and the feedback gains, all readable |
| Processor.StereoFlangerProcessor.ParameterChanged | Source/PluginProcessor.cpp:91-130 | each identifier reaches exactly its component, with the ms to seconds conversion for delay time, phase and amount, and `roundToInt` for the waveform; the dry/wet ratio retargets each gain with `setTargetValue` on its equal-power value; every other component is unchanged |

## Left out

- Floating point: samples, gains and times are exact reals. Float/double rounding, denormals (`ScopedNoDenormals`) and the `float` casts of the delay are not modelled.
- Integer widths: `int` is unbounded. `memorySize` and `writeIndex` overflow is not modelled.
- `Smoothing.Next`: models only JUCE's linear ramp. The oscillator's frequency uses the multiplicative law in the plugin, so `Oscillator.BlockPhase` and `Oscillator.BlockRunning` hold for the linear law. The consumption counts, settled values and positivity proved about it hold for either law.
- `sin` and `sqrt`: these are library calls, passed in as a `Libm` record. Properties that need them assume `Sound`: `sin` lies in [-1, 1], and `sqrt` is the non-negative root of a non-negative argument. `sqrt` of a negative ratio (NaN) is not modelled.
- Parameter layout and APVTS plumbing: the value tree, the listener registration, XML state save and restore, the editor and MIDI are not modelled. The layout's ranges are `Parameters.InRange`. Host-side skew and interval snapping are not modelled.
- Concurrency: parameter changes arriving on another thread during `processBlock` are not modelled.
- `ParameterModulation::processBlock`'s unused `channel` argument is not modelled.
- Uninitialised contents: the contents of the modulation block after `setSize` (JUCE leaves them uninitialised) are arbitrary in the model.
- `Oscillator.NaiveOscillator.GetNextAudioSample`: requires a waveform id from 0 to 4. The plugin's `default:` branch leaves `sampleValue` unwritten.
- `Processor.StereoFlangerProcessor.ProcessBlock`: requires `writeIndex < memorySize`. `prepareToPlay` does not reset the delay's cursor. After a re-prepare that shrinks the ring, the source would write outside it.
- `Processor.StereoFlangerProcessor.ProcessBlock`: requires a stereo buffer, as the delay and the dry copy index channels 0 and 1.
- `Delay.ModDelay.NextSample`: takes the feedback gain first, as `getNextValue` at Delay.h:51 does, but stores the advanced smoother after the two channels. The channels never read the smoother, so the order makes no difference to any result.

Behaviour of the code as written, which the model keeps:
- The phase is wrapped by truncation (`static_cast<int>`), not by `floor`.
- The ring length uses `roundToInt`, not a ceiling.
- `releaseResources` keeps the write cursor.
- The processor's constructor passes `defaultDelayTime` (1000, in ms) and `defaultPhase` (0.1) without the `* 0.001` that `parameterChanged` applies.
- The phase shift never gets a ramp length, so its smoothing branch in `getNextAudioBlock` is never taken.
- `DryWet`'s constructor stores the ratio but does not call `updateState`, so both gains start at 0 with target 0. They get their equal-power targets only once `prepareToPlay` or `setDWRatio` calls `updateState`.
