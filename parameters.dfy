/**
 * The plugin's parameter identifiers, defaults and ranges, and the one
 * constant the engine shares: the longest delay time in seconds, which both
 * sizes the delay line and caps the modulated delay times.
 */
module Parameters {

  /** `maxDelayTime`, in seconds. */
  const MaxDelayTime: real := 5.1

  const NameDelayTime: string := "DT"
  const NameDryWet: string := "DW"
  const NameFeedback: string := "FB"
  const NameFreq: string := "MF"
  const NameWaveform: string := "MW"
  const NameAmount: string := "MA"
  const NamePhase: string := "NP"

  /** Defaults, in the units the host shows: the delay time and the amount in ms, the frequency in Hz. */
  const DefaultDelayTime: real := 1000.0
  const DefaultDryWet: real := 0.5
  const DefaultFeedback: real := 0.0
  const DefaultFreq: real := 1.0
  const DefaultWaveform: int := 0
  const DefaultAmount: real := 0.0
  const DefaultPhase: real := 0.1

  /** The largest delay time the host can set, in ms: 100 ms short of `MaxDelayTime`. */
  const MaxDelayTimeMs: real := MaxDelayTime * 1000.0 - 100.0
  /** The largest modulation amount, in ms. */
  const MaxAmountMs: real := 100.0

  /** The value ranges the parameter layout declares, by identifier. */
  predicate InRange(paramID: string, value: real)
  {
    if paramID == NameDelayTime then 0.0 <= value <= MaxDelayTimeMs
    else if paramID == NameDryWet then 0.0 <= value <= 1.0
    else if paramID == NameFeedback then 0.0 <= value <= 1.0
    else if paramID == NameFreq then 0.1 <= value <= 500.0
    else if paramID == NameWaveform then value == value.Floor as real && 0.0 <= value <= 4.0
    else if paramID == NameAmount then 0.0 <= value <= MaxAmountMs
    else if paramID == NamePhase then 0.0 <= value <= 1.0
    else false
  }
}
