/**
 * `ModDelay`: a two-channel, modulated, feedback-bearing delay line with
 * first-order allpass interpolation. Both channels share one write cursor
 * into a ring buffer of `memorySize` slots per channel.
 *
 * The first half of the module states one sample of the delay as functions
 * over sequences (`Line`, `ChannelUpdate`, `SampleStep`, `Run`) and proves
 * what the delay promises about them; the class `ModDelay` then runs the
 * nested per-sample, per-channel loop on arrays and is proved to compute
 * exactly `Run`.
 */
module Delay {

  import opened Numerics
  import opened Smoothing

  /** `MAX_DELAY_TIME`, the constructor's default maximum delay in seconds. */
  const MaxDelayTime: real := 5.0
  /** `DEFAULT_FB` */
  const DefaultFeedback: real := 0.0
  /** `AMP_SMOOTHING`: ramp length of the feedback gain, in seconds. */
  const AmpSmoothing: real := 0.02

  /**
   * The ring buffer length `prepareToPlay` allocates per channel: the maximum
   * delay in samples, rounded to the nearest integer, plus room for one block.
   */
  function MemorySize(maxDelayTime: real, sampleRate: real, maxBlockSize: int): (m: int)
    ensures -0.5 <= (m - maxBlockSize) as real - maxDelayTime * sampleRate <= 0.5
    ensures 0.0 <= maxDelayTime * sampleRate ==> maxBlockSize <= m
  {
    RoundToInt(maxDelayTime * sampleRate) + maxBlockSize
  }

  /** The two slots one channel reads and the allpass coefficient that blends them. */
  datatype Tap = Tap(a: int, b: int, alpha: real)

  /**
   * The read position for delay `dt` seconds: `writeIndex - dt * sampleRate`,
   * split by truncation into an integer part (slot `a`, with `b` the slot
   * after it) and a fractional part that sets `alpha = f / (2 - f)`.
   * The coefficient is always that of a stable allpass: `|alpha| < 1`.
   */
  function ReadTap(writeIndex: int, dt: real, sampleRate: real, memorySize: int): (t: Tap)
    requires 0 < memorySize
    ensures -memorySize < t.a < memorySize && -memorySize < t.b < memorySize
    ensures -1.0 < t.alpha < 1.0
  {
    var readIndex := writeIndex as real - Scaled(dt, sampleRate);
    var integerPart := Trunc(readIndex);
    var fractionalPart := readIndex - integerPart as real;
    TruncRemainder(readIndex);
    var a := CppRem(integerPart + memorySize, memorySize);
    Tap(a, CppRem(a + 1, memorySize), AllpassCoefficient(fractionalPart))
  }

  /** The allpass coefficient `f / (2 - f)` of fractional part `f`: zero for a whole-sample delay. */
  function AllpassCoefficient(f: real): (alpha: real)
    requires -1.0 < f < 1.0
    ensures -1.0 < alpha < 1.0
    ensures f == 0.0 ==> alpha == 0.0
  {
    AllpassStable(f);
    f / (2.0 - f)
  }

  lemma AllpassStable(f: real)
    requires -1.0 < f < 1.0
    ensures -1.0 < f / (2.0 - f) < 1.0
  {
    var den := 2.0 - f;
    var q := f / den;
    assert q * den == f;
    if q <= -1.0 {
      MulMonotone(q, den, -1.0);
    } else if 1.0 <= q {
      MulMonotone(1.0, den, q);
    }
  }

  /**
   * Index safety: when the read position is at most one ring length behind a
   * cursor in range (`dt * sampleRate <= memorySize`), both slots are valid
   * indices and `b` is the slot after `a`.
   */
  lemma TapInRange(writeIndex: int, dt: real, sampleRate: real, memorySize: int)
    requires 0 <= writeIndex < memorySize
    requires Scaled(dt, sampleRate) <= memorySize as real
    ensures 0 <= ReadTap(writeIndex, dt, sampleRate, memorySize).a < memorySize
    ensures 0 <= ReadTap(writeIndex, dt, sampleRate, memorySize).b < memorySize
    ensures ReadTap(writeIndex, dt, sampleRate, memorySize).b == (ReadTap(writeIndex, dt, sampleRate, memorySize).a + 1) % memorySize
  {
    var readIndex := writeIndex as real - Scaled(dt, sampleRate);
    assert -(memorySize as real) <= readIndex;
    var integerPart := Trunc(readIndex);
    assert 0 <= integerPart + memorySize;
  }

  /**
   * The delay's maximum keeps reads in range: with `maxBlockSize >= 1`, a
   * delay of at most `maxDelayTime` seconds reaches back strictly less than
   * the ring length that `prepareToPlay` allocates.
   */
  lemma ClampedDelayReadable(maxDelayTime: real, sampleRate: real, maxBlockSize: int, dt: real)
    requires 0.0 < sampleRate && 1 <= maxBlockSize
    requires dt <= maxDelayTime
    ensures Scaled(dt, sampleRate) < MemorySize(maxDelayTime, sampleRate, maxBlockSize) as real
  {
    MulMonotone(dt, sampleRate, maxDelayTime);
  }

  /**
   * Whole-sample delays do not interpolate: when `dt * sampleRate` is the
   * integer `d`, the fractional part and `alpha` are zero and `a` is the slot
   * `d` behind the cursor.
   */
  lemma IntegerDelayTap(writeIndex: int, dt: real, sampleRate: real, memorySize: int, d: int)
    requires 0 <= writeIndex < memorySize
    requires Scaled(dt, sampleRate) == d as real && d <= memorySize
    ensures ReadTap(writeIndex, dt, sampleRate, memorySize).alpha == 0.0
    ensures ReadTap(writeIndex, dt, sampleRate, memorySize).a == (writeIndex - d) % memorySize
  {
    var readIndex := writeIndex as real - Scaled(dt, sampleRate);
    assert readIndex == (writeIndex - d) as real;
    TruncOfInt(writeIndex - d);
    ModShift(writeIndex - d, memorySize);
  }

  /**
   * The first-order allpass recurrence `alpha * (x[b] - y[n-1]) + x[a]`: with
   * a zero coefficient, or when the previous output equals the sample at `b`,
   * it returns the sample at `a` unblended.
   */
  function Allpass(alpha: real, atB: real, previous: real, atA: real): (y: real)
    ensures alpha == 0.0 ==> y == atA
    ensures atB == previous ==> y == atA
  {
    Scaled(alpha, atB - previous) + atA
  }

  /** One channel's ring buffer row, the shared cursor and the previous output of each channel. */
  datatype Line = Line(rows: seq<seq<real>>, writeIndex: int, history: seq<real>)
  {
    ghost predicate Valid()
    {
      && |rows| == 2 && |history| == 2
      && 0 < |rows[0]| && |rows[1]| == |rows[0]|
      && 0 <= writeIndex < |rows[0]|
    }

    function Size(): int
      requires |rows| > 0
    {
      |rows[0]|
    }
  }

  /** What one sample consumes: an input and a delay time per channel, and the feedback gain. */
  datatype Frame = Frame(input: seq<real>, delayTime: seq<real>, feedback: real)

  /** Every delay time of the frame reaches back at most one ring length. */
  ghost predicate Readable(fr: Frame, sampleRate: real, memorySize: int)
  {
    && |fr.input| == 2 && |fr.delayTime| == 2
    && forall ch :: 0 <= ch < 2 ==> Scaled(fr.delayTime[ch], sampleRate) <= memorySize as real
  }

  ghost predicate AllReadable(frames: seq<Frame>, sampleRate: real, memorySize: int)
  {
    forall k :: 0 <= k < |frames| ==> Readable(frames[k], sampleRate, memorySize)
  }

  /**
   * The output of channel `ch` for one sample: the allpass-interpolated read
   * from the row in which the current input has already been stored. A zero
   * delay time returns the current input unchanged: the input is stored
   * before the read, and the read lands on the slot just written.
   */
  function ChannelOutput(l: Line, fr: Frame, sampleRate: real, ch: int): (y: real)
    requires l.Valid() && Readable(fr, sampleRate, l.Size()) && 0 <= ch < 2
    ensures fr.delayTime[ch] == 0.0 ==> y == fr.input[ch]
  {
    var tap := ReadTap(l.writeIndex, fr.delayTime[ch], sampleRate, l.Size());
    TapInRange(l.writeIndex, fr.delayTime[ch], sampleRate, l.Size());
    ZeroDelayTap(l.writeIndex, fr.delayTime[ch], sampleRate, l.Size());
    var written := l.rows[ch][l.writeIndex := fr.input[ch]];
    Allpass(tap.alpha, written[tap.b], l.history[ch], written[tap.a])
  }

  /**
   * Channel `ch` of one sample: store the input at the cursor, read the
   * output (`ChannelOutput`), remember it as the channel's history, and add
   * `feedback * output` into the slot just written. Only row `ch` and
   * history `ch` change.
   */
  function ChannelUpdate(l: Line, fr: Frame, sampleRate: real, ch: int): (r: (Line, real))
    requires l.Valid() && Readable(fr, sampleRate, l.Size()) && 0 <= ch < 2
    ensures r.0.Valid() && r.0.Size() == l.Size() && r.0.writeIndex == l.writeIndex
    ensures r.0.rows[1 - ch] == l.rows[1 - ch] && r.0.history[1 - ch] == l.history[1 - ch]
    ensures r.0.history[ch] == r.1
    ensures r.0.rows[ch][l.writeIndex] == fr.input[ch] + Scaled(r.1, fr.feedback)
    ensures forall j :: 0 <= j < l.Size() && j != l.writeIndex ==> r.0.rows[ch][j] == l.rows[ch][j]
  {
    var y := ChannelOutput(l, fr, sampleRate, ch);
    var row := l.rows[ch][l.writeIndex := fr.input[ch] + Scaled(y, fr.feedback)];
    (l.(rows := l.rows[ch := row], history := l.history[ch := y]), y)
  }

  /** Channels `0 .. n-1` of one sample, in order; the cursor does not move. */
  function PartialStep(l: Line, fr: Frame, sampleRate: real, n: nat): (r: (Line, seq<real>))
    requires l.Valid() && Readable(fr, sampleRate, l.Size()) && n <= 2
    ensures r.0.Valid() && r.0.Size() == l.Size() && r.0.writeIndex == l.writeIndex
    ensures |r.1| == n
  {
    if n == 0 then (l, [])
    else
      var p := PartialStep(l, fr, sampleRate, n - 1);
      var c := ChannelUpdate(p.0, fr, sampleRate, n - 1);
      (c.0, p.1 + [c.1])
  }

  /** Channel `n` extends the partial step over channels `0 .. n-1` to `m == n + 1` channels. */
  lemma PartialStepNext(l: Line, fr: Frame, sampleRate: real, n: nat, m: nat)
    requires l.Valid() && Readable(fr, sampleRate, l.Size()) && n < 2 && m == n + 1
    ensures PartialStep(l, fr, sampleRate, m).0 == ChannelUpdate(PartialStep(l, fr, sampleRate, n).0, fr, sampleRate, n).0
    ensures PartialStep(l, fr, sampleRate, m).1 == PartialStep(l, fr, sampleRate, n).1 + [ChannelUpdate(PartialStep(l, fr, sampleRate, n).0, fr, sampleRate, n).1]
  {
  }

  /** A sample processes channel 0, then channel 1 on the line channel 0 left. */
  lemma BothChannels(l: Line, fr: Frame, sampleRate: real)
    requires l.Valid() && Readable(fr, sampleRate, l.Size())
    ensures var c0 := ChannelUpdate(l, fr, sampleRate, 0);
      var c1 := ChannelUpdate(c0.0, fr, sampleRate, 1);
      PartialStep(l, fr, sampleRate, 2).0 == c1.0 && PartialStep(l, fr, sampleRate, 2).1 == [c0.1, c1.1]
  {
    var c0 := ChannelUpdate(l, fr, sampleRate, 0);
    assert PartialStep(l, fr, sampleRate, 0) == (l, []);
    assert PartialStep(l, fr, sampleRate, 1).0 == c0.0;
    assert PartialStep(l, fr, sampleRate, 1).1 == [c0.1];
    var c1 := ChannelUpdate(c0.0, fr, sampleRate, 1);
    assert PartialStep(l, fr, sampleRate, 2).0 == c1.0;
    assert PartialStep(l, fr, sampleRate, 2).1 == [c0.1] + [c1.1];
  }

  /** One whole sample: both channels, then the cursor advances by one, wrapping at the ring length. */
  function SampleStep(l: Line, fr: Frame, sampleRate: real): (r: (Line, seq<real>))
    requires l.Valid() && Readable(fr, sampleRate, l.Size())
    ensures r.0.Valid() && r.0.Size() == l.Size() && |r.1| == 2
    ensures r.0.writeIndex == (l.writeIndex + 1) % l.Size()
  {
    var p := PartialStep(l, fr, sampleRate, 2);
    (p.0.(writeIndex := (p.0.writeIndex + 1) % l.Size()), p.1)
  }

  /**
   * The first `n` samples of a block: the line they leave and the two
   * outputs of each. After `n` samples the cursor is `n` slots on, wrapping
   * at the ring length.
   */
  function RunUpTo(l: Line, frames: seq<Frame>, sampleRate: real, n: nat): (r: (Line, seq<seq<real>>))
    requires l.Valid() && AllReadable(frames, sampleRate, l.Size()) && n <= |frames|
    ensures r.0.Valid() && r.0.Size() == l.Size() && |r.1| == n
    ensures forall k :: 0 <= k < n ==> |r.1[k]| == 2
    ensures r.0.writeIndex == (l.writeIndex + n) % l.Size()
  {
    if n == 0 then
      ModUnique(l.writeIndex, 0, l.writeIndex, l.Size());
      (l, [])
    else
      var p := RunUpTo(l, frames, sampleRate, n - 1);
      var s := SampleStep(p.0, frames[n - 1], sampleRate);
      assert forall k :: 0 <= k < n ==> |(p.1 + [s.1])[k]| == 2;
      CursorStep(p.0.writeIndex, s.0.writeIndex, l.writeIndex, n - 1, n, l.Size());
      (s.0, p.1 + [s.1])
  }

  /** One more sample of a block is one more sample step, and keeps the outputs already produced. */
  lemma RunUpToStep(l: Line, frames: seq<Frame>, sampleRate: real, n: nat, m: nat)
    requires l.Valid() && AllReadable(frames, sampleRate, l.Size()) && n < |frames| && m == n + 1
    ensures RunUpTo(l, frames, sampleRate, m).0 == SampleStep(RunUpTo(l, frames, sampleRate, n).0, frames[n], sampleRate).0
    ensures RunUpTo(l, frames, sampleRate, m).1[n] == SampleStep(RunUpTo(l, frames, sampleRate, n).0, frames[n], sampleRate).1
    ensures RunUpTo(l, frames, sampleRate, m).1 == RunUpTo(l, frames, sampleRate, n).1 + [SampleStep(RunUpTo(l, frames, sampleRate, n).0, frames[n], sampleRate).1]
    ensures forall k :: 0 <= k < n ==> RunUpTo(l, frames, sampleRate, m).1[k] == RunUpTo(l, frames, sampleRate, n).1[k]
  {
  }

  /** A whole block of samples. */
  function Run(l: Line, frames: seq<Frame>, sampleRate: real): (r: (Line, seq<seq<real>>))
    requires l.Valid() && AllReadable(frames, sampleRate, l.Size())
    ensures r.0.Valid() && r.0.Size() == l.Size() && |r.1| == |frames|
    ensures forall k :: 0 <= k < |frames| ==> |r.1[k]| == 2
    ensures r.0.writeIndex == (l.writeIndex + |frames|) % l.Size()
  {
    RunUpTo(l, frames, sampleRate, |frames|)
  }

  /** A cursor `n` slots on from `w`, advanced once more, is `n1 == n + 1` slots on from `w`. */
  lemma CursorStep(before: int, after: int, w: int, n: int, n1: int, m: int)
    requires 0 < m && 0 <= w && 0 <= n && n1 == n + 1
    requires before == (w + n) % m && after == (before + 1) % m
    ensures after == (w + n1) % m
  {
    ModSucc(w + n, m);
  }

  /** `((a % m) + 1) % m == (a + 1) % m`: advancing a wrapped cursor is wrapping the advanced one. */
  lemma ModSucc(a: int, m: int)
    requires 0 <= a && 0 < m
    ensures (a % m + 1) % m == (a + 1) % m
  {
    var q, r := a / m, a % m;
    if r + 1 < m {
      ModUnique(a + 1, q, r + 1, m);
      ModUnique(r + 1, 0, r + 1, m);
    } else {
      assert (q + 1) * m == q * m + m;
      ModUnique(a + 1, q + 1, 0, m);
      ModUnique(r + 1, 1, 0, m);
    }
  }

  /** `x % m` is the `r` of any decomposition `x == q * m + r` with `0 <= r < m`. */
  lemma ModUnique(x: int, q: int, r: int, m: int)
    requires 0 < m && 0 <= r < m && x == q * m + r
    ensures x % m == r
  {
    var k := q - x / m;
    assert k * m == x % m - r;
    if 1 <= k {
      MulIntMonotone(1, m, k);
    } else if k <= -1 {
      MulIntMonotone(k, m, -1);
    }
  }

  lemma MulIntMonotone(a: int, b: int, c: int)
    requires a <= c && 0 <= b
    ensures a * b <= c * b
  {
  }

  /** Adding one ring length does not change the slot. */
  lemma ModShift(a: int, m: int)
    requires 0 < m
    ensures (a + m) % m == a % m
  {
    ModUnique(a + m, a / m + 1, a % m, m);
  }

  /** A zero delay time reads the slot at the cursor, with no interpolation. */
  lemma ZeroDelayTap(writeIndex: int, dt: real, sampleRate: real, memorySize: int)
    requires 0 <= writeIndex < memorySize
    ensures dt == 0.0 ==> ReadTap(writeIndex, dt, sampleRate, memorySize).alpha == 0.0
    ensures dt == 0.0 ==> ReadTap(writeIndex, dt, sampleRate, memorySize).a == writeIndex
  {
    if dt == 0.0 {
      IntegerDelayTap(writeIndex, dt, sampleRate, memorySize, 0);
      ModUnique(writeIndex, 0, writeIndex, memorySize);
    }
  }

  /**
   * A whole-sample delay of `d` reads exactly slot `writeIndex - d` of the
   * row after the current input has been stored in it.
   */
  lemma IntegerDelayReadsSlot(l: Line, fr: Frame, sampleRate: real, ch: int, d: int)
    requires l.Valid() && Readable(fr, sampleRate, l.Size()) && 0 <= ch < 2
    requires Scaled(fr.delayTime[ch], sampleRate) == d as real
    ensures ChannelUpdate(l, fr, sampleRate, ch).1 == l.rows[ch][l.writeIndex := fr.input[ch]][(l.writeIndex - d) % l.Size()]
  {
    IntegerDelayTap(l.writeIndex, fr.delayTime[ch], sampleRate, l.Size(), d);
  }

  /** The input of channel `ch` at sample `i`, or silence before the first sample. */
  function Past(frames: seq<Frame>, i: int, ch: int): real
  {
    if 0 <= i < |frames| && 0 <= ch < |frames[i].input| then frames[i].input[ch] else 0.0
  }

  /** The slot `k` behind cursor `w` in a ring of `m` slots. */
  function Behind(w: int, k: int, m: int): (j: int)
    requires 0 < m
    ensures 0 <= j < m
  {
    (w - k) % m
  }

  /** The slot `j` behind a cursor in range, for `0 < j < m`, is a different slot. */
  lemma SlotBehind(w: int, j: int, m: int)
    requires 0 <= w < m && 1 <= j < m
    ensures Behind(w, j, m) != w
  {
    if 0 <= w - j {
      ModUnique(w - j, 0, w - j, m);
    } else {
      ModShift(w - j, m);
      ModUnique(w - j + m, 0, w - j + m, m);
    }
  }

  /** Looking `k` back from the advanced cursor is looking `k - 1` back from the old one. */
  lemma CursorBack(w: int, k: int, m: int)
    requires 0 <= w < m && 1 <= k < m
    ensures Behind((w + 1) % m, k, m) == Behind(w, k - 1, m)
  {
    if w + 1 < m {
      ModUnique(w + 1, 0, w + 1, m);
    } else {
      ModUnique(w + 1, 1, 0, m);
      ModShift(-k, m);
    }
  }

  /** Slot `k` behind the cursor of row `ch` holds the input of sample `n - k`. */
  ghost predicate HoldsPast(l: Line, frames: seq<Frame>, n: int, ch: int, k: int)
    requires l.Valid() && 0 <= ch < 2
  {
    l.rows[ch][Behind(l.writeIndex, k, l.Size())] == Past(frames, n - k, ch)
  }

  /**
   * After `n` samples without feedback, the slot `k` behind the cursor holds
   * the input of sample `n - k` (silence before the first sample).
   */
  ghost predicate EchoState(l: Line, frames: seq<Frame>, n: int)
  {
    && l.Valid()
    && forall ch, k :: 0 <= ch < 2 && 1 <= k < l.Size() ==> HoldsPast(l, frames, n, ch, k)
  }

  /** Whole-sample delay `d` on both channels and no feedback, on every frame. */
  ghost predicate PlainDelay(frames: seq<Frame>, sampleRate: real, d: int)
  {
    forall k :: 0 <= k < |frames| ==>
      && frames[k].feedback == 0.0
      && |frames[k].delayTime| == 2
      && Scaled(frames[k].delayTime[0], sampleRate) == d as real
      && Scaled(frames[k].delayTime[1], sampleRate) == d as real
  }

  lemma EchoChannel(l: Line, fr: Frame, sampleRate: real, ch: int, d: int, frames: seq<Frame>, n: int)
    requires l.Valid() && Readable(fr, sampleRate, l.Size()) && 0 <= ch < 2 && 0 < d < l.Size()
    requires fr.feedback == 0.0 && Scaled(fr.delayTime[ch], sampleRate) == d as real
    requires HoldsPast(l, frames, n, ch, d)
    ensures ChannelUpdate(l, fr, sampleRate, ch).1 == Past(frames, n - d, ch)
    ensures ChannelUpdate(l, fr, sampleRate, ch).0.rows[ch] == l.rows[ch][l.writeIndex := fr.input[ch]]
  {
    var w, m := l.writeIndex, l.Size();
    IntegerDelayReadsSlot(l, fr, sampleRate, ch, d);
    SlotBehind(w, d, m);
    var r := ChannelUpdate(l, fr, sampleRate, ch);
    assert Scaled(r.1, fr.feedback) == 0.0;
    assert r.0.rows[ch] == l.rows[ch][w := fr.input[ch]];
  }

  /** Storing one input per channel at the cursor and advancing it shifts every stored sample one slot further back. */
  lemma EchoAdvance(l: Line, next: Line, frames: seq<Frame>, n: int, n1: int)
    requires EchoState(l, frames, n) && 0 <= n < |frames| && |frames[n].input| == 2 && n1 == n + 1
    requires next.Valid() && next.Size() == l.Size()
    requires next.writeIndex == (l.writeIndex + 1) % l.Size()
    requires next.rows[0] == l.rows[0][l.writeIndex := frames[n].input[0]]
    requires next.rows[1] == l.rows[1][l.writeIndex := frames[n].input[1]]
    ensures EchoState(next, frames, n1)
  {
    var w, m := l.writeIndex, l.Size();
    forall ch, k | 0 <= ch < 2 && 1 <= k < m
      ensures HoldsPast(next, frames, n1, ch, k)
    {
      CursorBack(w, k, m);
      if k == 1 {
        ModUnique(w, 0, w, m);
      } else {
        SlotBehind(w, k - 1, m);
        assert HoldsPast(l, frames, n, ch, k - 1);
      }
    }
  }

  lemma EchoStep(l: Line, sampleRate: real, d: int, frames: seq<Frame>, n: int, m: int)
    requires EchoState(l, frames, n) && 0 <= n < |frames| && 0 < d < l.Size() && m == n + 1
    requires Readable(frames[n], sampleRate, l.Size()) && PlainDelay(frames, sampleRate, d)
    ensures EchoState(SampleStep(l, frames[n], sampleRate).0, frames, m)
    ensures SampleStep(l, frames[n], sampleRate).1 == [Past(frames, n - d, 0), Past(frames, n - d, 1)]
  {
    var fr := frames[n];
    assert fr.feedback == 0.0;
    assert Scaled(fr.delayTime[0], sampleRate) == d as real && Scaled(fr.delayTime[1], sampleRate) == d as real;
    assert HoldsPast(l, frames, n, 0, d) && HoldsPast(l, frames, n, 1, d);
    var c0 := ChannelUpdate(l, fr, sampleRate, 0);
    EchoChannel(l, fr, sampleRate, 0, d, frames, n);
    var c1 := ChannelUpdate(c0.0, fr, sampleRate, 1);
    EchoChannel(c0.0, fr, sampleRate, 1, d, frames, n);
    BothChannels(l, fr, sampleRate);
    EchoAdvance(l, SampleStep(l, fr, sampleRate).0, frames, n, m);
  }

  /** A cleared ring holds silence in every slot, which is what it holds before the first sample. */
  lemma EchoStart(l: Line, frames: seq<Frame>)
    requires l.Valid()
    requires forall ch, j :: 0 <= ch < 2 && 0 <= j < l.Size() ==> l.rows[ch][j] == 0.0
    ensures EchoState(l, frames, 0)
  {
    forall ch, k | 0 <= ch < 2 && 1 <= k < l.Size()
      ensures HoldsPast(l, frames, 0, ch, k)
    {
    }
  }

  /**
   * Output `j` of every channel of a block that starts at sample `k` of the
   * stream is the stream's input `d` samples earlier.
   */
  ghost predicate EchoOutputs(outputs: seq<seq<real>>, stream: seq<Frame>, d: int, k: int)
  {
    forall j :: 0 <= j < |outputs| ==> outputs[j] == [Past(stream, k + j - d, 0), Past(stream, k + j - d, 1)]
  }

  lemma EchoOutputsGrow(outputs: seq<seq<real>>, grown: seq<seq<real>>, stream: seq<Frame>, d: int, k: int, n: int)
    requires EchoOutputs(outputs, stream, d, k) && |outputs| == n && |grown| == n + 1
    requires forall i :: 0 <= i < n ==> grown[i] == outputs[i]
    requires grown[n] == [Past(stream, k + n - d, 0), Past(stream, k + n - d, 1)]
    ensures EchoOutputs(grown, stream, d, k)
  {
    forall j | 0 <= j < |grown|
      ensures grown[j] == [Past(stream, k + j - d, 0), Past(stream, k + j - d, 1)]
    {
      if j < n {
        assert grown[j] == outputs[j];
      }
    }
  }

  /**
   * Sample `n` of a block, which is sample `k + n` of the stream, keeps the
   * echo invariant and appends the echoed output: for any `after` that is
   * `before` followed by one sample step.
   */
  lemma EchoNext(before: (Line, seq<seq<real>>), after: (Line, seq<seq<real>>), stream: seq<Frame>, fr: Frame,
                 sampleRate: real, d: int, k: nat, n: nat, m: nat)
    requires before.0.Valid() && 0 < d < before.0.Size() && k + n < |stream| && m == n + 1
    requires fr == stream[k + n] && Readable(fr, sampleRate, before.0.Size()) && PlainDelay(stream, sampleRate, d)
    requires EchoState(before.0, stream, k + n) && EchoOutputs(before.1, stream, d, k) && |before.1| == n
    requires after.0 == SampleStep(before.0, fr, sampleRate).0
    requires |after.1| == m && after.1[n] == SampleStep(before.0, fr, sampleRate).1
    requires forall i :: 0 <= i < n ==> after.1[i] == before.1[i]
    ensures EchoState(after.0, stream, k + m) && EchoOutputs(after.1, stream, d, k)
  {
    EchoStep(before.0, sampleRate, d, stream, k + n, k + m);
    EchoOutputsGrow(before.1, after.1, stream, d, k, n);
  }

  /**
   * The echo carries on from any line that holds the stream's past: a block
   * that is samples `k ..` of a stream without feedback and with a constant
   * whole-sample delay `d`, run from a line whose slots hold the inputs
   * before sample `k`, outputs on each channel the stream's input `d`
   * samples earlier and leaves a line that holds the inputs before sample
   * `k + n`.
   */
  lemma {:induction false} EchoFrom(l: Line, stream: seq<Frame>, block: seq<Frame>, sampleRate: real, d: int, k: nat, n: nat)
    requires l.Valid() && AllReadable(block, sampleRate, l.Size()) && 0 < d < l.Size()
    requires PlainDelay(stream, sampleRate, d) && k + |block| <= |stream|
    requires forall j :: 0 <= j < |block| ==> block[j] == stream[k + j]
    requires EchoState(l, stream, k) && n <= |block|
    ensures EchoState(RunUpTo(l, block, sampleRate, n).0, stream, k + n)
    ensures EchoOutputs(RunUpTo(l, block, sampleRate, n).1, stream, d, k)
  {
    if n > 0 {
      EchoFrom(l, stream, block, sampleRate, d, k, n - 1);
      EchoFromStep(l, stream, block, sampleRate, d, k, n - 1, n);
    }
  }

  /** The inductive step of `EchoFrom`: the echo after `n` samples of the block carries to `m == n + 1`. */
  lemma EchoFromStep(l: Line, stream: seq<Frame>, block: seq<Frame>, sampleRate: real, d: int, k: nat, n: nat, m: nat)
    requires l.Valid() && AllReadable(block, sampleRate, l.Size()) && 0 < d < l.Size()
    requires PlainDelay(stream, sampleRate, d) && k + |block| <= |stream|
    requires forall j :: 0 <= j < |block| ==> block[j] == stream[k + j]
    requires n < |block| && m == n + 1
    requires EchoState(RunUpTo(l, block, sampleRate, n).0, stream, k + n)
    requires EchoOutputs(RunUpTo(l, block, sampleRate, n).1, stream, d, k)
    ensures EchoState(RunUpTo(l, block, sampleRate, m).0, stream, k + m)
    ensures EchoOutputs(RunUpTo(l, block, sampleRate, m).1, stream, d, k)
  {
    RunUpToStep(l, block, sampleRate, n, m);
    EchoNext(RunUpTo(l, block, sampleRate, n), RunUpTo(l, block, sampleRate, m), stream, block[n],
             sampleRate, d, k, n, m);
  }

  /**
   * The delay line is a delay: starting from a cleared ring, with no feedback
   * and a constant whole-sample delay `d` (`0 < d < memorySize`), every output
   * is the input `d` samples earlier on the same channel, and silence for the
   * first `d` samples, whatever the previous outputs were.
   */
  lemma Echo(l: Line, frames: seq<Frame>, sampleRate: real, d: int)
    requires l.Valid() && AllReadable(frames, sampleRate, l.Size()) && 0 < d < l.Size()
    requires PlainDelay(frames, sampleRate, d)
    requires forall ch, j :: 0 <= ch < 2 && 0 <= j < l.Size() ==> l.rows[ch][j] == 0.0
    ensures forall n, ch :: 0 <= n < |frames| && 0 <= ch < 2 ==>
      Run(l, frames, sampleRate).1[n][ch] == if d <= n then frames[n - d].input[ch] else 0.0
  {
    EchoStart(l, frames);
    EchoFrom(l, frames, frames, sampleRate, d, 0, |frames|);
  }

  /** The echoed outputs of a block at offset `k` read as inputs of the stream, or as silence before its start. */
  lemma EchoRead(outputs: seq<seq<real>>, stream: seq<Frame>, d: int, k: int)
    requires EchoOutputs(outputs, stream, d, k) && 0 < d && 0 <= k && k + |outputs| <= |stream|
    requires forall i :: 0 <= i < |stream| ==> |stream[i].input| == 2
    ensures forall n, ch :: 0 <= n < |outputs| && 0 <= ch < 2 ==>
      outputs[n][ch] == if d <= k + n then stream[k + n - d].input[ch] else 0.0
  {
    forall n, ch | 0 <= n < |outputs| && 0 <= ch < 2
      ensures outputs[n][ch] == if d <= k + n then stream[k + n - d].input[ch] else 0.0
    {
      assert outputs[n] == [Past(stream, k + n - d, 0), Past(stream, k + n - d, 1)];
    }
  }

  /**
   * The echo holds across block boundaries: in the block processed after
   * `f1`, output `n` of each channel is the input `d` samples earlier in the
   * whole stream `f1 + f2`, reaching back into the previous block (silence
   * before the stream's start).
   */
  lemma EchoAcrossBlocks(l: Line, f1: seq<Frame>, f2: seq<Frame>, sampleRate: real, d: int)
    requires l.Valid() && AllReadable(f1, sampleRate, l.Size()) && AllReadable(f2, sampleRate, l.Size())
    requires 0 < d < l.Size() && PlainDelay(f1 + f2, sampleRate, d)
    requires forall ch, j :: 0 <= ch < 2 && 0 <= j < l.Size() ==> l.rows[ch][j] == 0.0
    ensures forall n, ch :: 0 <= n < |f2| && 0 <= ch < 2 ==>
      Run(Run(l, f1, sampleRate).0, f2, sampleRate).1[n][ch] ==
        if d <= |f1| + n then (f1 + f2)[|f1| + n - d].input[ch] else 0.0
  {
    EchoFirstBlock(l, f1, f2, sampleRate, d);
    EchoSecondBlock(Run(l, f1, sampleRate).0, f1, f2, sampleRate, d);
  }

  /** A block run from a line that holds the inputs of `f1` echoes the stream `f1 + f2`. */
  lemma EchoSecondBlock(l: Line, f1: seq<Frame>, f2: seq<Frame>, sampleRate: real, d: int)
    requires l.Valid() && AllReadable(f1, sampleRate, l.Size()) && AllReadable(f2, sampleRate, l.Size())
    requires 0 < d < l.Size() && PlainDelay(f1 + f2, sampleRate, d)
    requires EchoState(l, f1 + f2, |f1|)
    ensures forall n, ch :: 0 <= n < |f2| && 0 <= ch < 2 ==>
      Run(l, f2, sampleRate).1[n][ch] == if d <= |f1| + n then (f1 + f2)[|f1| + n - d].input[ch] else 0.0
  {
    assert forall j :: 0 <= j < |f2| ==> f2[j] == (f1 + f2)[|f1| + j];
    EchoFrom(l, f1 + f2, f2, sampleRate, d, |f1|, |f2|);
    StreamInputs(f1, f2, sampleRate, l.Size());
    EchoRead(Run(l, f2, sampleRate).1, f1 + f2, d, |f1|);
  }

  /** After the first block of a stream run from a cleared ring, the line holds the stream's inputs so far. */
  lemma EchoFirstBlock(l: Line, f1: seq<Frame>, f2: seq<Frame>, sampleRate: real, d: int)
    requires l.Valid() && AllReadable(f1, sampleRate, l.Size())
    requires 0 < d < l.Size() && PlainDelay(f1 + f2, sampleRate, d)
    requires forall ch, j :: 0 <= ch < 2 && 0 <= j < l.Size() ==> l.rows[ch][j] == 0.0
    ensures EchoState(Run(l, f1, sampleRate).0, f1 + f2, |f1|)
  {
    EchoStart(l, f1 + f2);
    assert forall j :: 0 <= j < |f1| ==> f1[j] == (f1 + f2)[0 + j];
    EchoFrom(l, f1 + f2, f1, sampleRate, d, 0, |f1|);
  }

  lemma StreamInputs(f1: seq<Frame>, f2: seq<Frame>, sampleRate: real, memorySize: int)
    requires AllReadable(f1, sampleRate, memorySize) && AllReadable(f2, sampleRate, memorySize)
    ensures forall i :: 0 <= i < |f1 + f2| ==> |(f1 + f2)[i].input| == 2
  {
    forall i | 0 <= i < |f1 + f2|
      ensures |(f1 + f2)[i].input| == 2
    {
      if i < |f1| {
        assert (f1 + f2)[i] == f1[i];
      } else {
        assert (f1 + f2)[i] == f2[i - |f1|];
      }
    }
  }

  /**
   * Sample `k` of the block as the delay reads it: the input of channels 0
   * and 1, the delay time of each channel (channel `min(ch, numModCh - 1)` of
   * the modulation, so a mono modulation drives both channels) and the
   * feedback gain of that sample.
   */
  function FrameAt(buffer: array2<real>, modulation: array2<real>, gain: real, k: int): Frame
    requires 2 <= buffer.Length0 && 1 <= modulation.Length0
    requires 0 <= k < buffer.Length1 && k < modulation.Length1
    reads buffer, modulation
  {
    var top := modulation.Length0 - 1;
    Frame([buffer[0, k], buffer[1, k]], [modulation[MinInt(0, top), k], modulation[MinInt(1, top), k]], gain)
  }

  /** The frames of a block whose `k`-th feedback gain is `gains[k]`. */
  ghost function BlockFrames(buffer: array2<real>, modulation: array2<real>, gains: seq<real>): (fs: seq<Frame>)
    requires 2 <= buffer.Length0 && 1 <= modulation.Length0
    requires |gains| <= buffer.Length1 && |gains| <= modulation.Length1
    reads buffer, modulation
    ensures |fs| == |gains|
  {
    seq(|gains|, k requires 0 <= k < |gains| reads buffer, modulation => FrameAt(buffer, modulation, gains[k], k))
  }

  /** Every delay time the block reads reaches back at most `memorySize` samples. */
  ghost predicate ModulationReadable(modulation: array2<real>, numSamples: int, sampleRate: real, memorySize: int)
    requires 1 <= modulation.Length0 && numSamples <= modulation.Length1
    reads modulation
  {
    var top := modulation.Length0 - 1;
    forall k :: 0 <= k < numSamples ==>
      && Scaled(modulation[MinInt(0, top), k], sampleRate) <= memorySize as real
      && Scaled(modulation[MinInt(1, top), k], sampleRate) <= memorySize as real
  }

  lemma FramesReadable(buffer: array2<real>, modulation: array2<real>, gains: seq<real>, sampleRate: real, memorySize: int)
    requires 2 <= buffer.Length0 && 1 <= modulation.Length0
    requires |gains| <= buffer.Length1 && |gains| <= modulation.Length1
    requires ModulationReadable(modulation, |gains|, sampleRate, memorySize)
    ensures AllReadable(BlockFrames(buffer, modulation, gains), sampleRate, memorySize)
  {
    var fs := BlockFrames(buffer, modulation, gains);
    forall k | 0 <= k < |fs|
      ensures Readable(fs[k], sampleRate, memorySize)
    {
      assert fs[k] == FrameAt(buffer, modulation, gains[k], k);
    }
  }

  /** Samples `0 .. n-1` of channels 0 and 1 of the buffer hold the outputs `outs`. */
  ghost predicate Written(buffer: array2<real>, outs: seq<seq<real>>, n: int)
    reads buffer
  {
    forall c, k :: 0 <= c < 2 && 0 <= k < n ==>
      c < buffer.Length0 && k < buffer.Length1 && k < |outs| && c < |outs[k]| && buffer[c, k] == outs[k][c]
  }

  class ModDelay {
    /** Two rows of `memorySize` slots once prepared; no channels before and after. */
    var delayMemory: array2<real>
    var feedback: Smoothed
    var sampleRate: real
    var maxDelayTime: real
    var memorySize: int
    var writeIndex: int
    /** The previous output of each channel, which the allpass interpolation feeds back. */
    var oldSample: array<real>

    ghost predicate Valid()
      reads this
    {
      && oldSample.Length == 2
      && feedback.Valid()
      && 0.0 < sampleRate
      && delayMemory.Length1 == memorySize
      && (delayMemory.Length0 == 2 || delayMemory.Length0 == 0)
      && 0 <= writeIndex
    }

    /** Prepared with a non-empty ring, and the cursor inside it. */
    ghost predicate Ready()
      reads this
    {
      && Valid()
      && Shaped()
    }

    /** The ring has two rows of `memorySize > 0` slots and the cursor is inside it. */
    ghost predicate Shaped()
      reads this`delayMemory, this`oldSample, this`memorySize, this`writeIndex
    {
      && oldSample.Length == 2
      && 0 < memorySize
      && delayMemory.Length0 == 2 && delayMemory.Length1 == memorySize
      && 0 <= writeIndex < memorySize
    }

    /** The arrays hold exactly the line `l`. */
    ghost predicate Mirrors(l: Line)
      reads this`delayMemory, this`oldSample, this`memorySize, this`writeIndex, delayMemory, oldSample
    {
      && Shaped()
      && l.Valid() && l.Size() == memorySize && l.writeIndex == writeIndex
      && (forall c, j :: 0 <= c < 2 && 0 <= j < memorySize ==> delayMemory[c, j] == l.rows[c][j])
      && (forall c :: 0 <= c < 2 ==> oldSample[c] == l.history[c])
    }

    /** The delay line the arrays hold. */
    ghost function State(): (l: Line)
      requires Shaped()
      reads this`delayMemory, this`oldSample, this`memorySize, this`writeIndex, delayMemory, oldSample
      ensures l.Valid() && l.Size() == memorySize && l.writeIndex == writeIndex
    {
      Line([Row(0), Row(1)], writeIndex, [oldSample[0], oldSample[1]])
    }

    /** The arrays mirror the line they hold. */
    lemma StateMirrors()
      requires Shaped()
      ensures Mirrors(State())
    {
    }

    ghost function Row(c: int): (row: seq<real>)
      requires Shaped() && 0 <= c < 2
      reads this`delayMemory, this`memorySize, this`oldSample, this`writeIndex, delayMemory
      ensures |row| == memorySize
      ensures forall j :: 0 <= j < memorySize ==> row[j] == delayMemory[c, j]
    {
      var memory := delayMemory;
      seq(memorySize, j requires 0 <= j < memory.Length1 reads memory => memory[c, j])
    }

    /** A line the arrays mirror is the line they hold. */
    lemma MirrorsState(l: Line)
      requires Mirrors(l)
      ensures State() == l
    {
      var st := State();
      assert st.rows[0] == l.rows[0];
      assert st.rows[1] == l.rows[1];
      assert st.rows == l.rows;
      assert st.history == l.history;
    }

    /** `ModDelay(maxDelayTime, defaultFeedback)`: nothing allocated yet, the feedback settled on its default. */
    constructor(defaultMaxDelayTime: real, defaultFeedback: real)
      ensures Valid() && memorySize == 0 && writeIndex == 0 && sampleRate == 1.0
      ensures maxDelayTime == defaultMaxDelayTime
      ensures feedback == SetCurrentAndTargetValue(Create(0.0), defaultFeedback)
      ensures delayMemory.Length0 == 0 && fresh(delayMemory)
      ensures fresh(oldSample) && oldSample[..] == [0.0, 0.0]
    {
      delayMemory := new real[0, 0];
      sampleRate := 1.0;
      memorySize := 0;
      writeIndex := 0;
      oldSample := new real[2](_ => 0.0);
      maxDelayTime := defaultMaxDelayTime;
      feedback := SetCurrentAndTargetValue(Create(0.0), defaultFeedback);
    }

    /**
     * `prepareToPlay`: allocate a cleared ring of `MemorySize` slots per
     * channel and settle the feedback with a ramp of `AmpSmoothing` seconds.
     * The cursor and the previous outputs are kept.
     */
    method PrepareToPlay(newSampleRate: real, maxBlockSize: int)
      requires Valid() && 0.0 < newSampleRate
      requires 0 <= MemorySize(maxDelayTime, newSampleRate, maxBlockSize)
      modifies this
      ensures Valid() && fresh(delayMemory)
      ensures sampleRate == newSampleRate
      ensures memorySize == MemorySize(maxDelayTime, newSampleRate, maxBlockSize)
      ensures delayMemory.Length0 == 2
      ensures forall c, j :: 0 <= c < 2 && 0 <= j < memorySize ==> delayMemory[c, j] == 0.0
      ensures feedback == Reset(old(feedback), newSampleRate, AmpSmoothing)
      ensures writeIndex == old(writeIndex) && oldSample == old(oldSample) && maxDelayTime == old(maxDelayTime)
    {
      sampleRate := newSampleRate;
      memorySize := MemorySize(maxDelayTime, sampleRate, maxBlockSize);
      delayMemory := new real[2, memorySize]((_, _) => 0.0);
      feedback := Reset(feedback, sampleRate, AmpSmoothing);
    }

    /** `releaseResources`: drop the ring. The cursor is not reset. */
    method ReleaseResources()
      requires Valid()
      modifies this
      ensures Valid() && memorySize == 0 && delayMemory.Length0 == 0 && fresh(delayMemory)
      ensures writeIndex == old(writeIndex) && feedback == old(feedback) && sampleRate == old(sampleRate)
      ensures oldSample == old(oldSample) && maxDelayTime == old(maxDelayTime)
    {
      delayMemory := new real[0, 0];
      memorySize := 0;
    }

    /** `setFeedback`: ramp the feedback gain towards `newValue`. */
    method SetFeedback(newValue: real)
      requires Valid()
      modifies this
      ensures Valid() && feedback == SetTargetValue(old(feedback), newValue)
      ensures feedback.target == newValue
      ensures delayMemory == old(delayMemory) && memorySize == old(memorySize) && writeIndex == old(writeIndex)
      ensures sampleRate == old(sampleRate) && oldSample == old(oldSample) && maxDelayTime == old(maxDelayTime)
    {
      feedback := SetTargetValue(feedback, newValue);
    }

    /**
     * One channel of one sample of `processBlock`: compute the read tap,
     * store the input sample `x` at the cursor, read the interpolated output,
     * remember it, and feed it back into the slot just written.
     */
    method ProcessChannel(ch: int, x: real, dt: real, fb: real, ghost l: Line, ghost fr: Frame) returns (y: real)
      requires Mirrors(l) && 0 <= ch < 2
      requires Readable(fr, sampleRate, memorySize)
      requires fr.input[ch] == x && fr.delayTime[ch] == dt && fr.feedback == fb
      modifies delayMemory, oldSample
      ensures Mirrors(ChannelUpdate(l, fr, sampleRate, ch).0)
      ensures y == ChannelUpdate(l, fr, sampleRate, ch).1
    {
      var tap := ReadTap(writeIndex, dt, sampleRate, memorySize);
      TapInRange(writeIndex, dt, sampleRate, memorySize);

      delayMemory[ch, writeIndex] := x;
      y := Allpass(tap.alpha, delayMemory[ch, tap.b], oldSample[ch], delayMemory[ch, tap.a]);
      oldSample[ch] := y;
      delayMemory[ch, writeIndex] := delayMemory[ch, writeIndex] + Scaled(y, fb);

      var next := ChannelUpdate(l, fr, sampleRate, ch).0;
      assert y == ChannelUpdate(l, fr, sampleRate, ch).1;
      assert forall c, j :: 0 <= c < 2 && 0 <= j < memorySize ==> delayMemory[c, j] == next.rows[c][j];
    }

    /**
     * `processBlock`: for every sample, consume one feedback gain and run both
     * channels through the delay (`ProcessChannel`), replacing the buffer's
     * input with the delayed signal; then advance the cursor, wrapping at the
     * ring length. The new line and every output are those of `Run` on the
     * block's frames.
     */
    method ProcessBlock(buffer: array2<real>, modulation: array2<real>)
      requires Ready() && 2 <= buffer.Length0 && 1 <= modulation.Length0
      requires buffer.Length1 <= modulation.Length1
      requires buffer != delayMemory && modulation != delayMemory && modulation != buffer
      requires ModulationReadable(modulation, buffer.Length1, sampleRate, memorySize)
      modifies this, delayMemory, oldSample, buffer
      ensures Ready() && delayMemory == old(delayMemory) && oldSample == old(oldSample)
      ensures sampleRate == old(sampleRate) && memorySize == old(memorySize) && maxDelayTime == old(maxDelayTime)
      ensures feedback == Advance(old(feedback), buffer.Length1)
      ensures AllReadable(old(BlockFrames(buffer, modulation, Gains(feedback, buffer.Length1))), sampleRate, memorySize)
      ensures State() == Run(old(State()), old(BlockFrames(buffer, modulation, Gains(feedback, buffer.Length1))), sampleRate).0
      ensures forall ch, k :: 0 <= ch < 2 && 0 <= k < buffer.Length1 ==>
        buffer[ch, k] == Run(old(State()), old(BlockFrames(buffer, modulation, Gains(feedback, buffer.Length1))), sampleRate).1[k][ch]
      ensures forall ch, k :: 2 <= ch < buffer.Length0 && 0 <= k < buffer.Length1 ==> buffer[ch, k] == old(buffer[ch, k])
    {
      var numSamples := buffer.Length1;
      ghost var gains := Gains(feedback, numSamples);
      ghost var frames := BlockFrames(buffer, modulation, gains);
      ghost var start := State();
      StateMirrors();
      FramesReadable(buffer, modulation, gains, sampleRate, memorySize);
      assert forall k :: 0 <= k < numSamples ==> frames[k] == FrameAt(buffer, modulation, gains[k], k);
      SampleLoop(buffer, modulation, start, frames);
      MirrorsState(RunUpTo(start, frames, sampleRate, numSamples).0);
    }

    /** The sample loop of `processBlock`, over the block's frames, from the line `start` the delay mirrors. */
    method SampleLoop(buffer: array2<real>, modulation: array2<real>, ghost start: Line, ghost frames: seq<Frame>)
      requires Ready() && 2 <= buffer.Length0 && 1 <= modulation.Length0
      requires buffer.Length1 <= modulation.Length1
      requires buffer != delayMemory && modulation != delayMemory && modulation != buffer
      requires start.Valid() && AllReadable(frames, sampleRate, start.Size()) && Mirrors(start)
      requires |frames| == buffer.Length1
      requires forall k :: 0 <= k < buffer.Length1 ==> frames[k] == FrameAt(buffer, modulation, Gains(feedback, buffer.Length1)[k], k)
      modifies this, delayMemory, oldSample, buffer
      ensures Ready() && delayMemory == old(delayMemory) && oldSample == old(oldSample)
      ensures sampleRate == old(sampleRate) && memorySize == old(memorySize) && maxDelayTime == old(maxDelayTime)
      ensures feedback == Advance(old(feedback), buffer.Length1)
      ensures Mirrors(RunUpTo(start, frames, sampleRate, buffer.Length1).0)
      ensures Written(buffer, RunUpTo(start, frames, sampleRate, buffer.Length1).1, buffer.Length1)
      ensures forall c, k :: 2 <= c < buffer.Length0 && 0 <= k < buffer.Length1 ==> buffer[c, k] == old(buffer[c, k])
    {
      var numSamples := buffer.Length1;
      ghost var initialFeedback := feedback;
      ghost var gains := Gains(initialFeedback, numSamples);
      for smp := 0 to numSamples
        invariant delayMemory == old(delayMemory) && oldSample == old(oldSample)
        invariant sampleRate == old(sampleRate) && memorySize == old(memorySize) && maxDelayTime == old(maxDelayTime)
        invariant Ready() && Mirrors(RunUpTo(start, frames, sampleRate, smp).0)
        invariant feedback == Advance(initialFeedback, smp)
        invariant Written(buffer, RunUpTo(start, frames, sampleRate, smp).1, smp)
        invariant forall c, k :: 0 <= c < buffer.Length0 && 0 <= k < numSamples && (2 <= c || smp <= k) ==>
          buffer[c, k] == old(buffer[c, k])
      {
        GainsAt(initialFeedback, numSamples, smp);
        assert frames[smp] == FrameAt(buffer, modulation, gains[smp], smp) by {
          assert FrameAt(buffer, modulation, gains[smp], smp) == old(FrameAt(buffer, modulation, gains[smp], smp));
        }
        SampleOfRun(buffer, modulation, smp, start, frames);
      }
    }

    /** Sample `smp` of the loop: the delay goes from mirroring the run up to `smp` to the run up to `smp + 1`. */
    method SampleOfRun(buffer: array2<real>, modulation: array2<real>, smp: int, ghost start: Line, ghost frames: seq<Frame>)
      requires Ready() && 2 <= buffer.Length0 && 1 <= modulation.Length0
      requires 0 <= smp < buffer.Length1 && buffer.Length1 <= modulation.Length1 && |frames| == buffer.Length1
      requires buffer != delayMemory && modulation != delayMemory && modulation != buffer
      requires start.Valid() && AllReadable(frames, sampleRate, start.Size())
      requires Mirrors(RunUpTo(start, frames, sampleRate, smp).0)
      requires frames[smp] == FrameAt(buffer, modulation, Next(feedback).0, smp)
      requires Written(buffer, RunUpTo(start, frames, sampleRate, smp).1, smp)
      modifies this, delayMemory, oldSample, buffer
      ensures sampleRate == old(sampleRate) && memorySize == old(memorySize) && maxDelayTime == old(maxDelayTime)
      ensures delayMemory == old(delayMemory) && oldSample == old(oldSample)
      ensures Ready() && Mirrors(RunUpTo(start, frames, sampleRate, smp + 1).0)
      ensures feedback == Next(old(feedback)).1
      ensures Written(buffer, RunUpTo(start, frames, sampleRate, smp + 1).1, smp + 1)
      ensures forall c, k :: 0 <= c < buffer.Length0 && 0 <= k < buffer.Length1 && (2 <= c || k != smp) ==>
        buffer[c, k] == old(buffer[c, k])
    {
      RunUpToStep(start, frames, sampleRate, smp, smp + 1);
      ghost var out := NextSample(buffer, modulation, smp, RunUpTo(start, frames, sampleRate, smp).0,
                                  RunUpTo(start, frames, sampleRate, smp).1, frames[smp]);
    }

    /**
     * One pass of `processBlock`'s sample loop: consume the feedback gain and
     * process sample `smp`, which takes the line `l` one sample step further
     * and writes that step's outputs after the outputs `outs` already written.
     */
    method NextSample(buffer: array2<real>, modulation: array2<real>, smp: int, ghost l: Line, ghost outs: seq<seq<real>>,
                      ghost fr: Frame)
      returns (ghost out: seq<real>)
      requires Ready() && 2 <= buffer.Length0 && 1 <= modulation.Length0
      requires 0 <= smp < buffer.Length1 && smp < modulation.Length1
      requires buffer != delayMemory && modulation != delayMemory && modulation != buffer
      requires Mirrors(l) && |outs| == smp && Written(buffer, outs, smp)
      requires fr == FrameAt(buffer, modulation, Next(feedback).0, smp) && Readable(fr, sampleRate, memorySize)
      modifies this, delayMemory, oldSample, buffer
      ensures sampleRate == old(sampleRate) && memorySize == old(memorySize) && maxDelayTime == old(maxDelayTime)
      ensures delayMemory == old(delayMemory) && oldSample == old(oldSample)
      ensures feedback == Next(old(feedback)).1
      ensures Ready() && Mirrors(SampleStep(l, fr, sampleRate).0)
      ensures out == SampleStep(l, fr, sampleRate).1 && Written(buffer, outs + [out], smp + 1)
      ensures forall c, k :: 0 <= c < buffer.Length0 && 0 <= k < buffer.Length1 && (2 <= c || k != smp) ==>
        buffer[c, k] == old(buffer[c, k])
    {
      // `feedback.getNextValue()`: the gain is taken first; the advanced
      // smoother is stored after the channels, which never read it.
      var fb := Next(feedback).0;
      out := ProcessSample(buffer, modulation, smp, fb, l, fr);
      feedback := Next(feedback).1;
      ghost var written := outs + [out];
      forall c, k | 0 <= c < 2 && 0 <= k < smp + 1
        ensures c < buffer.Length0 && k < buffer.Length1 && k < |written| && c < |written[k]| && buffer[c, k] == written[k][c]
      {
        if k < smp {
          assert written[k] == outs[k];
          assert buffer[c, k] == old(buffer[c, k]) == outs[k][c];
        } else {
          assert written[k] == out;
        }
      }
      assert Written(buffer, written, smp + 1);
    }

    /**
     * The rest of `processBlock`'s sample loop once the feedback gain `fb`
     * has been consumed: both channels, each output written over its input
     * sample, then the cursor advance.
     */
    method ProcessSample(buffer: array2<real>, modulation: array2<real>, smp: int, fb: real, ghost l: Line, ghost fr: Frame)
      returns (ghost out: seq<real>)
      requires Ready() && 2 <= buffer.Length0 && 1 <= modulation.Length0
      requires 0 <= smp < buffer.Length1 && smp < modulation.Length1
      requires buffer != delayMemory && modulation != delayMemory && modulation != buffer
      requires fr == FrameAt(buffer, modulation, fb, smp) && Readable(fr, sampleRate, memorySize)
      requires Mirrors(l)
      modifies this`writeIndex, delayMemory, oldSample, buffer
      ensures sampleRate == old(sampleRate) && memorySize == old(memorySize) && maxDelayTime == old(maxDelayTime)
      ensures feedback == old(feedback) && delayMemory == old(delayMemory) && oldSample == old(oldSample)
      ensures Ready() && Mirrors(SampleStep(l, fr, sampleRate).0)
      ensures out == SampleStep(l, fr, sampleRate).1
      ensures |out| == 2 && forall c :: 0 <= c < 2 ==> buffer[c, smp] == out[c]
      ensures forall c, k :: 0 <= c < buffer.Length0 && 0 <= k < buffer.Length1 && (2 <= c || k != smp) ==>
        buffer[c, k] == old(buffer[c, k])
    {
      out := ProcessChannels(buffer, modulation, smp, fb, l, fr);
      // `++writeIndex %= memorySize`; the cursor is never negative, so C++'s `%` is Dafny's.
      writeIndex := (writeIndex + 1) % memorySize;
    }

    /** The channel loop of one sample: each channel's output written over its input sample. */
    method ProcessChannels(buffer: array2<real>, modulation: array2<real>, smp: int, fb: real, ghost l: Line, ghost fr: Frame)
      returns (ghost out: seq<real>)
      requires 2 <= buffer.Length0 && 1 <= modulation.Length0
      requires 0 <= smp < buffer.Length1 && smp < modulation.Length1
      requires buffer != delayMemory && modulation != delayMemory && modulation != buffer
      requires fr == FrameAt(buffer, modulation, fb, smp) && Readable(fr, sampleRate, memorySize)
      requires Mirrors(l)
      modifies delayMemory, oldSample, buffer
      ensures Mirrors(PartialStep(l, fr, sampleRate, 2).0)
      ensures out == PartialStep(l, fr, sampleRate, 2).1
      ensures |out| == 2 && buffer[0, smp] == out[0] && buffer[1, smp] == out[1]
      ensures forall c, k :: 0 <= c < buffer.Length0 && 0 <= k < buffer.Length1 && (2 <= c || k != smp) ==>
        buffer[c, k] == old(buffer[c, k])
    {
      var numModCh := modulation.Length0;
      out := [];
      for ch := 0 to 2
        invariant Mirrors(PartialStep(l, fr, sampleRate, ch).0)
        invariant out == PartialStep(l, fr, sampleRate, ch).1
        invariant 0 < ch ==> buffer[0, smp] == out[0]
        invariant 1 < ch ==> buffer[1, smp] == out[1]
        invariant forall c, k :: 0 <= c < buffer.Length0 && 0 <= k < buffer.Length1 && (2 <= c || k != smp || ch <= c) ==>
          buffer[c, k] == old(buffer[c, k])
      {
        var dt := modulation[MinInt(ch, numModCh - 1), smp];
        var y := ProcessChannel(ch, buffer[ch, smp], dt, fb, PartialStep(l, fr, sampleRate, ch).0, fr);
        buffer[ch, smp] := y;
        PartialStepNext(l, fr, sampleRate, ch, ch + 1);
        out := out + [y];
      }
    }
  }
}
