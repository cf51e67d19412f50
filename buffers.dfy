/**
 * The JUCE buffer primitives the flanger calls on one channel of an
 * `AudioBuffer` (channels x samples, here an `array2<real>`):
 * `FloatVectorOperations::add`, `multiply` and `min` applied to the first
 * `n` samples of a channel, and `AudioBuffer::copyFrom` / `addFrom` from one
 * buffer's channel into the same channel of another buffer.
 *
 * Each touches exactly samples `0 .. n-1` of one channel and nothing else.
 */
module Buffers {

  import opened Numerics

  /** `FloatVectorOperations::add(data[ch], value, n)`. */
  method Add(buffer: array2<real>, ch: int, value: real, n: int)
    requires 0 <= ch < buffer.Length0 && 0 <= n <= buffer.Length1
    modifies buffer
    ensures forall k :: 0 <= k < n ==> buffer[ch, k] == old(buffer[ch, k]) + value
    ensures forall c, k :: 0 <= c < buffer.Length0 && 0 <= k < buffer.Length1 && (c != ch || n <= k) ==>
      buffer[c, k] == old(buffer[c, k])
  {
    for k := 0 to n
      invariant forall j :: 0 <= j < k ==> buffer[ch, j] == old(buffer[ch, j]) + value
      invariant forall c, j :: 0 <= c < buffer.Length0 && 0 <= j < buffer.Length1 && (c != ch || k <= j) ==>
        buffer[c, j] == old(buffer[c, j])
    {
      buffer[ch, k] := buffer[ch, k] + value;
    }
  }

  /** `FloatVectorOperations::multiply(data[ch], value, n)`. */
  method Multiply(buffer: array2<real>, ch: int, value: real, n: int)
    requires 0 <= ch < buffer.Length0 && 0 <= n <= buffer.Length1
    modifies buffer
    ensures forall k :: 0 <= k < n ==> buffer[ch, k] == Scaled(old(buffer[ch, k]), value)
    ensures forall c, k :: 0 <= c < buffer.Length0 && 0 <= k < buffer.Length1 && (c != ch || n <= k) ==>
      buffer[c, k] == old(buffer[c, k])
  {
    for k := 0 to n
      invariant forall j :: 0 <= j < k ==> buffer[ch, j] == Scaled(old(buffer[ch, j]), value)
      invariant forall c, j :: 0 <= c < buffer.Length0 && 0 <= j < buffer.Length1 && (c != ch || k <= j) ==>
        buffer[c, j] == old(buffer[c, j])
    {
      buffer[ch, k] := Scaled(buffer[ch, k], value);
    }
  }

  /** `FloatVectorOperations::min(data[ch], data[ch], value, n)`: caps every sample at `value`. */
  method Min(buffer: array2<real>, ch: int, value: real, n: int)
    requires 0 <= ch < buffer.Length0 && 0 <= n <= buffer.Length1
    modifies buffer
    ensures forall k :: 0 <= k < n ==> buffer[ch, k] == MinReal(old(buffer[ch, k]), value)
    ensures forall c, k :: 0 <= c < buffer.Length0 && 0 <= k < buffer.Length1 && (c != ch || n <= k) ==>
      buffer[c, k] == old(buffer[c, k])
  {
    for k := 0 to n
      invariant forall j :: 0 <= j < k ==> buffer[ch, j] == MinReal(old(buffer[ch, j]), value)
      invariant forall c, j :: 0 <= c < buffer.Length0 && 0 <= j < buffer.Length1 && (c != ch || k <= j) ==>
        buffer[c, j] == old(buffer[c, j])
    {
      buffer[ch, k] := MinReal(buffer[ch, k], value);
    }
  }

  /** `dest.copyFrom(ch, 0, source, ch, 0, n)`. */
  method CopyFrom(dest: array2<real>, source: array2<real>, ch: int, n: int)
    requires dest != source
    requires 0 <= ch < dest.Length0 && ch < source.Length0
    requires 0 <= n <= dest.Length1 && n <= source.Length1
    modifies dest
    ensures forall k :: 0 <= k < n ==> dest[ch, k] == source[ch, k]
    ensures forall c, k :: 0 <= c < dest.Length0 && 0 <= k < dest.Length1 && (c != ch || n <= k) ==>
      dest[c, k] == old(dest[c, k])
  {
    for k := 0 to n
      invariant forall j :: 0 <= j < k ==> dest[ch, j] == source[ch, j]
      invariant forall c, j :: 0 <= c < dest.Length0 && 0 <= j < dest.Length1 && (c != ch || k <= j) ==>
        dest[c, j] == old(dest[c, j])
    {
      dest[ch, k] := source[ch, k];
    }
  }

  /** `dest.addFrom(ch, 0, source, ch, 0, n)`. */
  method AddFrom(dest: array2<real>, source: array2<real>, ch: int, n: int)
    requires dest != source
    requires 0 <= ch < dest.Length0 && ch < source.Length0
    requires 0 <= n <= dest.Length1 && n <= source.Length1
    modifies dest
    ensures forall k :: 0 <= k < n ==> dest[ch, k] == old(dest[ch, k]) + source[ch, k]
    ensures forall c, k :: 0 <= c < dest.Length0 && 0 <= k < dest.Length1 && (c != ch || n <= k) ==>
      dest[c, k] == old(dest[c, k])
  {
    for k := 0 to n
      invariant forall j :: 0 <= j < k ==> dest[ch, j] == old(dest[ch, j]) + source[ch, j]
      invariant forall c, j :: 0 <= c < dest.Length0 && 0 <= j < dest.Length1 && (c != ch || k <= j) ==>
        dest[c, j] == old(dest[c, j])
    {
      dest[ch, k] := dest[ch, k] + source[ch, k];
    }
  }
}
