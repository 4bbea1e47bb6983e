/** Model of the deque-based `SpectralProcessor` and `SpectralClip` (source/FFTProcessor.h): a
    single-channel Hann-window overlap-add pipeline of size 2^order with hop size / 2, whose
    FIFOs are unbounded `std::deque`s and whose spectral step `processSpectrum` does nothing.
    Only channel 0 of the host buffer goes through it.

    The channel is described as a value first (`Channel`, reused from the fixed-size
    processors, with the deques as plain sequences); the class then carries out the source's
    loops and is proved to follow that description. */
module DequeProcessors {
  import opened CircularBuffers
  import opened Stft
  import opened ChannelStorage
  import Fixed = SpectralProcessors

  /** `1 << order` (line 12). */
  function Pow2(order: nat): (r: nat)
    ensures 1 <= r
  {
    if order == 0 then 1 else 2 * Pow2(order - 1)
  }

  /** `processSpectrum() {}` (line 34): the spectrum is left as it is. */
  function NoProcessing(): (bins: Transform)
    ensures KeepsLength(bins)
    ensures forall s :: bins(s) == s
  {
    (s: seq<real>) => s
  }

  /** The transforms keep lengths and the hop fits in a frame. */
  ghost predicate Shaped(cfg: Fixed.Config)
  {
    && cfg.hop <= cfg.size
    && KeepsLength(cfg.window) && KeepsLength(cfg.forward) && KeepsLength(cfg.inverse)
  }

  /** The sizes the constructor gives the two vectors (lines 14-15). */
  ghost predicate Sized(cfg: Fixed.Config, ch: Channel)
  {
    |ch.ola| == cfg.size && |ch.fft| == 2 * cfg.size
  }

  /** Lines 53-60: the oldest fftSize queued samples overwrite the first half of `fftBuffer`,
      then window, forward transform, `processSpectrum`, inverse transform and the accumulator
      added in (line 67-68). */
  function Summed(cfg: Fixed.Config, ch: Channel): (r: seq<real>)
    requires Shaped(cfg) && Sized(cfg, ch) && cfg.size <= |ch.input|
    ensures |r| == 2 * cfg.size
  {
    var loaded := ch.input[..cfg.size] + ch.fft[cfg.size..];
    var spectrum := NoProcessing()(cfg.forward(WindowedPrefix(cfg.window, loaded, cfg.size)));
    OverlapAdded(cfg.inverse(spectrum), ch.ola)
  }

  /** One frame (lines 52-64): hop summed samples appended to the output deque, the
      accumulator shifted, hop samples dropped from the front of the input deque. */
  function Frame(cfg: Fixed.Config, ch: Channel): (r: Channel)
    requires Shaped(cfg) && Sized(cfg, ch) && cfg.size <= |ch.input|
    ensures Sized(cfg, r)
  {
    var summed := Summed(cfg, ch);
    Channel(ch.input[cfg.hop..], ch.output + summed[..cfg.hop], ShiftedOla(summed, cfg.size, cfg.hop), summed)
  }

  /** `computeFFT()`: a frame only when at least fftSize samples are queued (line 52). */
  function Attempt(cfg: Fixed.Config, ch: Channel): (r: Channel)
    requires Shaped(cfg) && Sized(cfg, ch)
    ensures Sized(cfg, r)
  {
    if |ch.input| < cfg.size then ch else Frame(cfg, ch)
  }

  /** One sample of `processBlock` (lines 25-27): push, attempt a frame, pull the output. */
  function Step(cfg: Fixed.Config, ch: Channel, x: real): (r: (Channel, real))
    requires Shaped(cfg) && Sized(cfg, ch)
    ensures Sized(cfg, r.0)
  {
    var computed := Attempt(cfg, ch.(input := ch.input + [x]));
    var pulled := Popped(computed.output);
    (computed.(output := pulled.0), pulled.1)
  }

  /** The channel fed the samples `xs` in order: the final state and the samples written back. */
  function Run(cfg: Fixed.Config, ch: Channel, xs: seq<real>): (r: (Channel, seq<real>))
    requires Shaped(cfg) && Sized(cfg, ch)
    ensures Sized(cfg, r.0) && |r.1| == |xs|
    decreases |xs|
  {
    if |xs| == 0 then (ch, [])
    else
      var before := Run(cfg, ch, xs[..|xs| - 1]);
      var after := Step(cfg, before.0, xs[|xs| - 1]);
      (after.0, before.1 + [after.1])
  }

  /** `Run` unfolded once at the end. */
  lemma RunOneMore(cfg: Fixed.Config, ch: Channel, xs: seq<real>, i: nat)
    requires Shaped(cfg) && Sized(cfg, ch) && i < |xs|
    ensures var before := Run(cfg, ch, xs[..i]);
      var after := Step(cfg, before.0, xs[i]);
      Run(cfg, ch, xs[..i + 1]) == (after.0, before.1 + [after.1])
  {
    assert xs[..i + 1][..i] == xs[..i];
  }

  /** Deque occupancy from empty deques on: still warming up or warm. */
  ghost predicate Occupancy(cfg: Fixed.Config, ch: Channel)
  {
    (|ch.output| == 0 && |ch.input| < cfg.size) || Warm(cfg, ch)
  }

  /** Steady state: the two deques together hold fftSize − 1 samples, at least fftSize − hop
      of them on the input side. */
  ghost predicate Warm(cfg: Fixed.Config, ch: Channel)
  {
    |ch.input| + |ch.output| == cfg.size - 1 && cfg.size - cfg.hop <= |ch.input|
  }

  /** Both deques empty, as after construction. */
  ghost predicate Empty(ch: Channel)
  {
    ch.input == [] && ch.output == []
  }

  /** Every step keeps the occupancy invariant and leaves fewer than fftSize samples in the
      input deque, so the unbounded deques stay small; a warm channel stays warm and its pull
      finds a sample; while warming up a step only queues the sample and outputs 0. */
  lemma StepKeepsOccupancy(cfg: Fixed.Config, ch: Channel, x: real)
    requires Shaped(cfg) && 0 < cfg.hop && Sized(cfg, ch) && Occupancy(cfg, ch)
    ensures var r := Step(cfg, ch, x);
      && Occupancy(cfg, r.0)
      && |r.0.input| < cfg.size
      && (Warm(cfg, ch) ==> Warm(cfg, r.0) && 0 < |Attempt(cfg, ch.(input := ch.input + [x])).output|)
      && (|ch.output| == 0 && |ch.input| < cfg.size - 1 ==>
            r.0 == ch.(input := ch.input + [x]) && r.1 == 0.0)
  {
  }

  /** Occupancy holds after any run from a state that has it; the input deque stays below
      fftSize samples throughout. */
  lemma {:induction false} RunKeepsOccupancy(cfg: Fixed.Config, ch: Channel, xs: seq<real>)
    requires Shaped(cfg) && 0 < cfg.hop && Sized(cfg, ch) && Occupancy(cfg, ch)
    ensures Occupancy(cfg, Run(cfg, ch, xs).0)
    ensures 0 < |xs| ==> |Run(cfg, ch, xs).0.input| < cfg.size
    decreases |xs|
  {
    if 0 < |xs| {
      var before := Run(cfg, ch, xs[..|xs| - 1]);
      RunKeepsOccupancy(cfg, ch, xs[..|xs| - 1]);
      StepKeepsOccupancy(cfg, before.0, xs[|xs| - 1]);
    }
  }

  /** From empty deques, the first fftSize − 1 samples only fill the input deque and every one
      of them comes out as 0. */
  lemma {:induction false} WarmupIsSilent(cfg: Fixed.Config, ch: Channel, xs: seq<real>)
    requires Shaped(cfg) && 0 < cfg.hop && Sized(cfg, ch) && Empty(ch) && |xs| < cfg.size
    ensures Run(cfg, ch, xs) == (ch.(input := xs), Zeros(|xs|))
    decreases |xs|
  {
    if 0 < |xs| {
      var init, x := xs[..|xs| - 1], xs[|xs| - 1];
      WarmupIsSilent(cfg, ch, init);
      var prev := Run(cfg, ch, init);
      StepKeepsOccupancy(cfg, prev.0, x);
      assert Step(cfg, prev.0, x) == (ch.(input := init + [x]), 0.0);
      assert init + [x] == xs;
      assert Zeros(|init|) + [0.0] == Zeros(|xs|);
    } else {
      assert xs == [] && Zeros(0) == [];
    }
  }

  /** From empty deques, once fftSize − 1 samples have gone in, every later pull finds a
      sample: silence from an empty output deque only ever fills the first fftSize − 1
      outputs. */
  lemma {:induction false} RunFromEmptyWarms(cfg: Fixed.Config, ch: Channel, xs: seq<real>)
    requires Shaped(cfg) && 0 < cfg.hop && Sized(cfg, ch) && Empty(ch) && cfg.size - 1 <= |xs|
    ensures Warm(cfg, Run(cfg, ch, xs).0)
    decreases |xs|
  {
    if |xs| == cfg.size - 1 {
      WarmupIsSilent(cfg, ch, xs);
    } else {
      var before := Run(cfg, ch, xs[..|xs| - 1]);
      RunFromEmptyWarms(cfg, ch, xs[..|xs| - 1]);
      StepKeepsOccupancy(cfg, before.0, xs[|xs| - 1]);
    }
  }

  /** The pull after pushing `x` (line 27) finds a sample in the output deque, so reading its
      front is defined. */
  ghost predicate PopFindsSample(cfg: Fixed.Config, ch: Channel, x: real)
    requires Shaped(cfg) && Sized(cfg, ch)
  {
    0 < |Attempt(cfg, ch.(input := ch.input + [x])).output|
  }

  /** From empty deques, the pull of every sample from the fftSize-th on finds a sample in the
      output deque. */
  lemma LaterPopsFindSamples(cfg: Fixed.Config, ch: Channel, xs: seq<real>, k: nat)
    requires Shaped(cfg) && 0 < cfg.hop && Sized(cfg, ch) && Empty(ch) && cfg.size - 1 <= k < |xs|
    ensures PopFindsSample(cfg, Run(cfg, ch, xs[..k]).0, xs[k])
  {
    RunFromEmptyWarms(cfg, ch, xs[..k]);
    StepKeepsOccupancy(cfg, Run(cfg, ch, xs[..k]).0, xs[k]);
  }

  /** `fftBuffer[i] = inputFifo[i]` for i < n (lines 53-54). */
  method CopySamples(a: array<real>, q: seq<real>, n: nat)
    requires n <= |q| && n <= a.Length
    modifies a
    ensures a[..] == q[..n] + old(a[..])[n..]
  {
    for i := 0 to n
      invariant forall k :: 0 <= k < i ==> a[k] == q[k]
      invariant forall k :: i <= k < a.Length ==> a[k] == old(a[k])
    {
      a[i] := q[i];
    }
    assert a[..] == q[..n] + old(a[..])[n..];
  }

  class SpectralProcessor {
    const order: nat
    const fftSize: nat
    const hopSize: nat
    /** The Hann windowing table and the forward and inverse real-only FFT. */
    const window: Transform
    const forward: Transform
    const inverse: Transform
    const fftBuffer: array<real>
    const olaBuffer: array<real>
    var inputFifo: seq<real>
    var outputFifo: seq<real>

    /** The layout fixed by the constructor (lines 11-16). */
    ghost predicate Valid()
      reads this
    {
      && fftSize == Pow2(order) && hopSize == fftSize / 2
      && fftBuffer.Length == 2 * fftSize && olaBuffer.Length == fftSize && fftBuffer != olaBuffer
      && KeepsLength(window) && KeepsLength(forward) && KeepsLength(inverse)
    }

    function Cfg(): Fixed.Config
    {
      Fixed.Config(fftSize, hopSize, window, forward, inverse)
    }

    /** The whole processing state as a value. */
    ghost function State(): Channel
      reads this, fftBuffer, olaBuffer
    {
      Channel(inputFifo, outputFifo, olaBuffer[..], fftBuffer[..])
    }

    /** The constructor (lines 11-16): size 2^order, hop half of it, zeroed vectors, empty
        deques. `1 << order` on an `int` needs order below 31. */
    constructor (order: nat, window: Transform, forward: Transform, inverse: Transform)
      requires order < 31
      requires KeepsLength(window) && KeepsLength(forward) && KeepsLength(inverse)
      ensures Valid() && fresh(fftBuffer) && fresh(olaBuffer)
      ensures this.order == order && fftSize == Pow2(order) && hopSize == Pow2(order) / 2
      ensures this.window == window && this.forward == forward && this.inverse == inverse
      ensures State() == Channel([], [], Zeros(Pow2(order)), Zeros(2 * Pow2(order)))
    {
      this.order := order;
      fftSize := Pow2(order);
      hopSize := Pow2(order) / 2;
      this.window, this.forward, this.inverse := window, forward, inverse;
      fftBuffer := new real[2 * Pow2(order)](_ => 0.0);
      olaBuffer := new real[Pow2(order)](_ => 0.0);
      inputFifo, outputFifo := [], [];
      new;
      assert fftBuffer[..] == Zeros(2 * fftSize) && olaBuffer[..] == Zeros(fftSize);
    }

    /** `pushNextSampleIntoInputFifo` (line 36). */
    method PushNextSampleIntoInputFifo(sample: real)
      modifies this
      ensures inputFifo == old(inputFifo) + [sample] && outputFifo == old(outputFifo)
    {
      inputFifo := inputFifo + [sample];
    }

    /** `pullSampleFromOutputFifo` (lines 41-49): the front sample, removed, or 0.0 from an
        empty deque, which is then left as it is. */
    method PullSampleFromOutputFifo() returns (sample: real)
      modifies this
      ensures (outputFifo, sample) == Popped(old(outputFifo)) && inputFifo == old(inputFifo)
    {
      if |outputFifo| != 0 {
        sample := outputFifo[0];
        outputFifo := outputFifo[1..];
      } else {
        sample := 0.0;
      }
    }

    /** `processSpectrum` (line 34): does nothing. */
    method ProcessSpectrum()
      ensures fftBuffer[..] == NoProcessing()(old(fftBuffer[..]))
    {
    }

    /** `overlapAdd` (lines 66-78): the accumulator added into the first fftSize samples, the
        first hop of them appended to the output deque, the accumulator shifted left by hop
        and zero-filled at the end. */
    method OverlapAdd()
      requires Valid()
      modifies this, fftBuffer, olaBuffer
      ensures Valid() && inputFifo == old(inputFifo)
      ensures fftBuffer[..] == OverlapAdded(old(fftBuffer[..]), old(olaBuffer[..]))
      ensures outputFifo == old(outputFifo) + fftBuffer[..hopSize]
      ensures olaBuffer[..] == ShiftedOla(fftBuffer[..], fftSize, hopSize)
    {
      AddPrefix(fftBuffer, olaBuffer);
      ghost var summed := fftBuffer[..];
      for i := 0 to hopSize
        invariant outputFifo == old(outputFifo) + fftBuffer[..i]
        invariant inputFifo == old(inputFifo) && fftBuffer[..] == summed
      {
        outputFifo := outputFifo + [fftBuffer[i]];
        assert fftBuffer[..i + 1] == fftBuffer[..i] + [fftBuffer[i]];
      }
      ShiftOla(olaBuffer, fftBuffer, hopSize);
    }

    /** Lines 62-63: `inputFifo.pop_front()` hop times. */
    method DropInput()
      requires hopSize <= |inputFifo|
      modifies this
      ensures inputFifo == old(inputFifo)[hopSize..] && outputFifo == old(outputFifo)
    {
      for i := 0 to hopSize
        invariant inputFifo == old(inputFifo)[i..] && outputFifo == old(outputFifo)
      {
        inputFifo := inputFifo[1..];
      }
    }

    /** `computeFFT` (lines 51-65). */
    method ComputeFFT()
      requires Valid()
      modifies this, fftBuffer, olaBuffer
      ensures Valid()
      ensures State() == Attempt(Cfg(), old(State()))
    {
      if |inputFifo| >= fftSize {
        CopySamples(fftBuffer, inputFifo, fftSize);
        ApplyWindow(fftBuffer, window, fftSize);
        ApplyTransform(fftBuffer, forward);
        ProcessSpectrum();
        ApplyTransform(fftBuffer, inverse);
        OverlapAdd();
        DropInput();
      }
    }

    /** One iteration of the loop of `processBlock` (lines 25-27). */
    method ProcessSample(x: real) returns (y: real)
      requires Valid()
      modifies this, fftBuffer, olaBuffer
      ensures Valid()
      ensures (State(), y) == Step(Cfg(), old(State()), x)
    {
      PushNextSampleIntoInputFifo(x);
      ComputeFFT();
      y := PullSampleFromOutputFifo();
    }

    /** `processBlock` (lines 20-30): only channel 0 is processed (reading it needs a channel
        whenever there are samples); the loop over the other channels has an empty body. */
    method ProcessBlock(buffer: array2<real>)
      requires Valid() && (0 < buffer.Length1 ==> 0 < buffer.Length0)
      modifies this, fftBuffer, olaBuffer, buffer
      ensures Valid()
      ensures 0 < buffer.Length0 ==>
        var r := Run(Cfg(), old(State()), old(Row(buffer, 0)));
        && State() == r.0
        && forall j :: 0 <= j < buffer.Length1 ==> buffer[0, j] == r.1[j]
      ensures 0 == buffer.Length0 ==> State() == old(State())
      ensures forall c, j :: 1 <= c < buffer.Length0 && 0 <= j < buffer.Length1 ==>
        buffer[c, j] == old(buffer[c, j])
    {
      if buffer.Length1 == 0 {
        return;
      }
      ghost var input := Row(buffer, 0);
      ghost var start := State();
      ghost var outs: seq<real> := [];
      for i := 0 to buffer.Length1
        invariant Valid()
        invariant (State(), outs) == Run(Cfg(), start, input[..i])
        invariant forall c, j :: 1 <= c < buffer.Length0 && 0 <= j < buffer.Length1 ==>
          buffer[c, j] == old(buffer[c, j])
        invariant forall j :: 0 <= j < i ==> buffer[0, j] == outs[j]
        invariant forall j :: i <= j < buffer.Length1 ==> buffer[0, j] == input[j]
      {
        RunOneMore(Cfg(), start, input, i);
        ProcessCell(buffer, i);
        outs := outs + [buffer[0, i]];
      }
      assert input[..buffer.Length1] == input;
    }

    /** Line 27 in place: sample `i` of channel 0 replaced by what the processor returns for it. */
    method ProcessCell(buffer: array2<real>, i: nat)
      requires Valid() && 0 < buffer.Length0 && i < buffer.Length1
      modifies this, fftBuffer, olaBuffer, buffer
      ensures Valid()
      ensures (State(), buffer[0, i]) == Step(Cfg(), old(State()), old(buffer[0, i]))
      ensures forall c, j :: 0 <= c < buffer.Length0 && 0 <= j < buffer.Length1 && (c != 0 || j != i) ==>
        buffer[c, j] == old(buffer[c, j])
    {
      var y := ProcessSample(buffer[0, i]);
      buffer[0, i] := y;
    }
  }

  /** `SpectralClip` (lines 91-95): the processor at the default order 10, with nothing
      added. */
  method NewSpectralClip(window: Transform, forward: Transform, inverse: Transform) returns (p: SpectralProcessor)
    requires KeepsLength(window) && KeepsLength(forward) && KeepsLength(inverse)
    ensures fresh(p) && fresh(p.fftBuffer) && fresh(p.olaBuffer) && p.Valid()
    ensures p.fftSize == 1024 && p.hopSize == 512
    ensures p.State() == Channel([], [], Zeros(1024), Zeros(2048))
  {
    p := new SpectralProcessor(10, window, forward, inverse);
  }
}
