/** Model of `SpectralProcessor<FFT_SIZE, NUM_CHANNELS>` and its subclass `SpectralCompressor`
    (source/DSP/SpectralProcessors.h): the Hann-window overlap-add pipeline with hop
    FFT_SIZE / 2, no synthesis window and no compensation, and a per-bin gain as its spectral
    step. The per-channel storage is the same as in `FFTProcessor`: two ring buffers of
    capacity 2·FFT_SIZE, an accumulator of FFT_SIZE samples and a work buffer of 2·FFT_SIZE.

    As in `FFTProcessors`, one channel is first described as a value and what one sample does
    to it; the class `SpectralProcessor` carries out the source's loops and is proved to follow
    that description. `processFFTBins` is the injected transform `bins`; the class
    `SpectralCompressor` supplies it. */
module SpectralProcessors {
  import opened CircularBuffers
  import opened Stft
  import opened ChannelStorage
  import opened RealMath

  /** What the constructor fixes: FFT_SIZE, the hop, the Hann window and the transforms. */
  datatype Config = Config(size: nat, hop: nat, window: Transform, forward: Transform, inverse: Transform)

  ghost predicate ValidConfig(cfg: Config)
  {
    && 0 < cfg.hop <= cfg.size
    && KeepsLength(cfg.window) && KeepsLength(cfg.forward) && KeepsLength(cfg.inverse)
  }

  /** The shapes the source's fixed-size arrays give a channel (lines 105-108). */
  ghost predicate Fits(cfg: Config, ch: Channel)
  {
    && |ch.input| <= 2 * cfg.size && |ch.output| <= 2 * cfg.size
    && |ch.ola| == cfg.size && |ch.fft| == 2 * cfg.size
  }

  /** Lines 74-79: the oldest FFT_SIZE queued samples overwrite the first half of the work
      buffer (which is not cleared first: its second half still holds what the previous frame
      left there); window, forward transform, spectral step. */
  function Spectrum(cfg: Config, bins: Transform, input: seq<real>, fft: seq<real>): (r: seq<real>)
    requires ValidConfig(cfg) && KeepsLength(bins) && cfg.size <= |input| && cfg.size <= |fft|
    ensures |r| == |fft|
  {
    var loaded := input[..cfg.size] + fft[cfg.size..];
    bins(cfg.forward(WindowedPrefix(cfg.window, loaded, cfg.size)))
  }

  /** Lines 80-83: inverse transform, then the accumulator added to the first FFT_SIZE
      samples. */
  function Summed(cfg: Config, bins: Transform, ch: Channel): (r: seq<real>)
    requires ValidConfig(cfg) && KeepsLength(bins) && Fits(cfg, ch) && cfg.size <= |ch.input|
    ensures |r| == 2 * cfg.size
  {
    OverlapAdded(cfg.inverse(Spectrum(cfg, bins, ch.input, ch.fft)), ch.ola)
  }

  /** Lines 84-91, once the summed frame is in the work buffer: emit its first hop samples,
      shift the accumulator, consume hop input samples. */
  function Emitted(cfg: Config, ch: Channel, summed: seq<real>): (r: Channel)
    requires ValidConfig(cfg) && Fits(cfg, ch) && |summed| == 2 * cfg.size
    ensures Fits(cfg, r)
  {
    Channel(
      PoppedN(ch.input, cfg.hop),
      PushedAll(ch.output, summed[..cfg.hop], 2 * cfg.size),
      ShiftedOla(summed, cfg.size, cfg.hop),
      summed)
  }

  /** One frame (lines 74-91). */
  function Frame(cfg: Config, bins: Transform, ch: Channel): (r: Channel)
    requires ValidConfig(cfg) && KeepsLength(bins) && Fits(cfg, ch) && cfg.size <= |ch.input|
    ensures Fits(cfg, r)
  {
    Emitted(cfg, ch, Summed(cfg, bins, ch))
  }

  /** `computeFFT(channel)`: a frame only when at least FFT_SIZE samples are queued
      (lines 65-66). */
  function Attempt(cfg: Config, bins: Transform, ch: Channel): (r: Channel)
    requires ValidConfig(cfg) && KeepsLength(bins) && Fits(cfg, ch)
    ensures Fits(cfg, r)
  {
    if |ch.input| < cfg.size then ch else Frame(cfg, bins, ch)
  }

  /** The channel after `inputFifos[ch].push(x)` (line 54). */
  function Fed(cfg: Config, ch: Channel, x: real): (r: Channel)
    requires ValidConfig(cfg) && Fits(cfg, ch)
    ensures Fits(cfg, r)
  {
    ch.(input := Pushed(ch.input, x, 2 * cfg.size))
  }

  /** One sample of `processBlock` (lines 54-56): push, attempt a frame, pop the output. */
  function Step(cfg: Config, bins: Transform, ch: Channel, x: real): (r: (Channel, real))
    requires ValidConfig(cfg) && KeepsLength(bins) && Fits(cfg, ch)
    ensures Fits(cfg, r.0)
  {
    var computed := Attempt(cfg, bins, Fed(cfg, ch, x));
    var popped := Popped(computed.output);
    (computed.(output := popped.0), popped.1)
  }

  /** A channel fed the samples `xs` in order: the final state and the samples written back. */
  function Run(cfg: Config, bins: Transform, ch: Channel, xs: seq<real>): (r: (Channel, seq<real>))
    requires ValidConfig(cfg) && KeepsLength(bins) && Fits(cfg, ch)
    ensures Fits(cfg, r.0) && |r.1| == |xs|
    decreases |xs|
  {
    if |xs| == 0 then (ch, [])
    else
      var before := Run(cfg, bins, ch, xs[..|xs| - 1]);
      var after := Step(cfg, bins, before.0, xs[|xs| - 1]);
      (after.0, before.1 + [after.1])
  }

  /** Running one more sample of `xs` is one more `Step` after the run so far. */
  lemma RunExtends(cfg: Config, bins: Transform, ch: Channel, xs: seq<real>, i: nat,
                   state: Channel, outs: seq<real>, state': Channel, y: real)
    requires ValidConfig(cfg) && KeepsLength(bins) && Fits(cfg, ch) && i < |xs|
    requires (state, outs) == Run(cfg, bins, ch, xs[..i])
    requires (state', y) == Step(cfg, bins, state, xs[i])
    ensures (state', outs + [y]) == Run(cfg, bins, ch, xs[..i + 1])
  {
    RunOneMore(cfg, bins, ch, xs, i);
  }

  /** `Run` unfolded once at the end. */
  lemma RunOneMore(cfg: Config, bins: Transform, ch: Channel, xs: seq<real>, i: nat)
    requires ValidConfig(cfg) && KeepsLength(bins) && Fits(cfg, ch) && i < |xs|
    ensures var before := Run(cfg, bins, ch, xs[..i]);
      var after := Step(cfg, bins, before.0, xs[i]);
      Run(cfg, bins, ch, xs[..i + 1]) == (after.0, before.1 + [after.1])
  {
    assert xs[..i + 1][..i] == xs[..i];
  }

  /** FIFO occupancy from empty FIFOs on: still warming up (nothing to output, fewer than
      FFT_SIZE samples queued) or warm. */
  ghost predicate Occupancy(cfg: Config, ch: Channel)
  {
    (|ch.output| == 0 && |ch.input| < cfg.size) || Warm(cfg, ch)
  }

  /** Steady state: the two FIFOs together hold FFT_SIZE − 1 samples, at least FFT_SIZE − hop
      of them on the input side. */
  ghost predicate Warm(cfg: Config, ch: Channel)
  {
    |ch.input| + |ch.output| == cfg.size - 1 && cfg.size - cfg.hop <= |ch.input|
  }

  /** The pop of the step that feeds `x` finds the output FIFO non-empty. */
  ghost predicate PopFindsSample(cfg: Config, bins: Transform, ch: Channel, x: real)
    requires ValidConfig(cfg) && KeepsLength(bins) && Fits(cfg, ch)
  {
    |Attempt(cfg, bins, Fed(cfg, ch, x)).output| > 0
  }

  /** A fresh channel: both FIFOs empty. */
  ghost predicate Empty(ch: Channel)
  {
    ch.input == [] && ch.output == []
  }

  /** A frame consumes exactly hop input samples and, when the output FIFO has room, pushes
      exactly hop samples, the i-th being the inverse-transformed sample plus the accumulator's
      i-th, with no window or compensation in between; the accumulator then holds the rest of
      the sum followed by hop zeros, and the work buffer the whole sum. */
  lemma FrameEmitsHop(cfg: Config, bins: Transform, ch: Channel)
    requires ValidConfig(cfg) && KeepsLength(bins) && Fits(cfg, ch) && cfg.size <= |ch.input|
    requires |ch.output| + cfg.hop <= 2 * cfg.size
    ensures var r := Frame(cfg, bins, ch);
      var back := cfg.inverse(Spectrum(cfg, bins, ch.input, ch.fft));
      && r.input == ch.input[cfg.hop..]
      && |r.output| == |ch.output| + cfg.hop
      && r.output[..|ch.output|] == ch.output
      && (forall i :: 0 <= i < cfg.hop ==> r.output[|ch.output| + i] == back[i] + ch.ola[i])
      && (forall i :: 0 <= i < cfg.size - cfg.hop ==> r.ola[i] == back[cfg.hop + i] + ch.ola[cfg.hop + i])
      && (forall i :: cfg.size - cfg.hop <= i < cfg.size ==> r.ola[i] == 0.0)
      && r.fft == Summed(cfg, bins, ch)
  {
    var summed := Summed(cfg, bins, ch);
    var r := Frame(cfg, bins, ch);
    assert r == Emitted(cfg, ch, summed);
    PushedAllAppends(ch.output, summed[..cfg.hop], 2 * cfg.size);
    assert r.output == ch.output + summed[..cfg.hop];
    assert r.ola == ShiftedOla(summed, cfg.size, cfg.hop);
  }

  /** Every step keeps the occupancy invariant, leaves fewer than FFT_SIZE samples queued (so
      the input FIFO, of capacity 2·FFT_SIZE, never fills), keeps a warm channel warm, and
      while warming up only queues the sample and outputs 0. */
  lemma StepKeepsOccupancy(cfg: Config, bins: Transform, ch: Channel, x: real)
    requires ValidConfig(cfg) && KeepsLength(bins) && Fits(cfg, ch) && Occupancy(cfg, ch)
    ensures var r := Step(cfg, bins, ch, x);
      && Occupancy(cfg, r.0)
      && |r.0.input| < cfg.size
      && (Warm(cfg, ch) ==> Warm(cfg, r.0) && PopFindsSample(cfg, bins, ch, x))
      && (|ch.output| == 0 && |ch.input| < cfg.size - 1 ==>
            r.0 == ch.(input := ch.input + [x]) && r.1 == 0.0)
  {
    var fed := Fed(cfg, ch, x);
    assert fed.input == ch.input + [x];
    if cfg.size <= |fed.input| {
      var summed := Summed(cfg, bins, fed);
      assert |ch.output| == 0;
      PushedAllAppends(ch.output, summed[..cfg.hop], 2 * cfg.size);
    }
  }

  /** Occupancy holds after any run from a state that has it; the input FIFO stays below
      FFT_SIZE samples throughout. */
  lemma {:induction false} RunKeepsOccupancy(cfg: Config, bins: Transform, ch: Channel, xs: seq<real>)
    requires ValidConfig(cfg) && KeepsLength(bins) && Fits(cfg, ch) && Occupancy(cfg, ch)
    ensures Occupancy(cfg, Run(cfg, bins, ch, xs).0)
    ensures 0 < |xs| ==> |Run(cfg, bins, ch, xs).0.input| < cfg.size
    decreases |xs|
  {
    if 0 < |xs| {
      var before := Run(cfg, bins, ch, xs[..|xs| - 1]);
      RunKeepsOccupancy(cfg, bins, ch, xs[..|xs| - 1]);
      StepKeepsOccupancy(cfg, bins, before.0, xs[|xs| - 1]);
    }
  }

  /** From empty FIFOs, the first FFT_SIZE − 1 samples only fill the input FIFO: every one of
      them comes out as 0 and nothing else changes. */
  lemma {:induction false} WarmupIsSilent(cfg: Config, bins: Transform, ch: Channel, xs: seq<real>)
    requires ValidConfig(cfg) && KeepsLength(bins) && Fits(cfg, ch) && Empty(ch) && |xs| < cfg.size
    ensures Run(cfg, bins, ch, xs) == (ch.(input := xs), Zeros(|xs|))
    decreases |xs|
  {
    if 0 < |xs| {
      var init, x := xs[..|xs| - 1], xs[|xs| - 1];
      WarmupIsSilent(cfg, bins, ch, init);
      var prev := Run(cfg, bins, ch, init);
      var step := Step(cfg, bins, prev.0, x);
      StepKeepsOccupancy(cfg, bins, prev.0, x);
      assert step == (ch.(input := init + [x]), 0.0);
      assert Run(cfg, bins, ch, xs) == (step.0, prev.1 + [step.1]);
      assert init + [x] == xs;
      assert Zeros(|init|) + [0.0] == Zeros(|xs|);
    } else {
      assert xs == [] && Zeros(0) == [];
    }
  }

  /** From empty FIFOs, once FFT_SIZE − 1 samples have gone in the channel is warm for good. */
  lemma {:induction false} RunFromEmptyWarms(cfg: Config, bins: Transform, ch: Channel, xs: seq<real>)
    requires ValidConfig(cfg) && KeepsLength(bins) && Fits(cfg, ch) && Empty(ch) && cfg.size - 1 <= |xs|
    ensures Warm(cfg, Run(cfg, bins, ch, xs).0)
    decreases |xs|
  {
    if |xs| == cfg.size - 1 {
      WarmupIsSilent(cfg, bins, ch, xs);
    } else {
      var before := Run(cfg, bins, ch, xs[..|xs| - 1]);
      RunFromEmptyWarms(cfg, bins, ch, xs[..|xs| - 1]);
      StepKeepsOccupancy(cfg, bins, before.0, xs[|xs| - 1]);
    }
  }

  /** From empty FIFOs, the pop of every sample from the FFT_SIZE-th on finds a sample in the
      output FIFO. */
  lemma LaterPopsFindSamples(cfg: Config, bins: Transform, ch: Channel, xs: seq<real>, k: nat)
    requires ValidConfig(cfg) && KeepsLength(bins) && Fits(cfg, ch) && Empty(ch) && cfg.size - 1 <= k < |xs|
    ensures PopFindsSample(cfg, bins, Run(cfg, bins, ch, xs[..k]).0, xs[k])
  {
    RunFromEmptyWarms(cfg, bins, ch, xs[..k]);
    StepKeepsOccupancy(cfg, bins, Run(cfg, bins, ch, xs[..k]).0, xs[k]);
  }

  // ---------------------------------------------------------------------------------------
  // The gain step of `SpectralCompressor::processFFTBins` (lines 135-150).

  /** One pair: to polar form, magnitude times gain, back to cartesian form (lines 136-146). */
  function GainedPair(m: Math, gain: real, re: real, im: real): (r: (real, real))
    ensures gain == 0.0 ==> r == (0.0, 0.0)
    ensures gain == 1.0 && PolarLaws(m) ==> r == (re, im)
  {
    var magnitude := m.sqrt(re * re + im * im) * gain;
    var phase := m.atan2(im, re);
    assert gain == 0.0 ==> magnitude == 0.0;
    assert gain == 1.0 && PolarLaws(m) ==> magnitude * m.cos(phase) == re && magnitude * m.sin(phase) == im;
    (magnitude * m.cos(phase), magnitude * m.sin(phase))
  }

  /** `GainedPair` spelled out, for callers whose operands are locals of a method. */
  lemma GainedPairUnfolds(m: Math, gain: real, re: real, im: real)
    ensures GainedPair(m, gain, re, im).0 == (m.sqrt(re * re + im * im) * gain) * m.cos(m.atan2(im, re))
    ensures GainedPair(m, gain, re, im).1 == (m.sqrt(re * re + im * im) * gain) * m.sin(m.atan2(im, re))
  {
  }

  /** Slot `j` after the loop: the pairs `(2i, 2i + 1)` are rewritten; an unpaired last slot
      (which the source's buffer of 2·FFT_SIZE never has) is left alone. */
  function GainedSlot(m: Math, gain: real, frame: seq<real>, j: nat): (r: real)
    requires j < |frame|
    ensures j + 1 == |frame| && j % 2 == 0 ==> r == frame[j]
    ensures gain == 1.0 && PolarLaws(m) ==> r == frame[j]
  {
    var first := j - j % 2;
    if first + 1 < |frame| then
      var pair := GainedPair(m, gain, frame[first], frame[first + 1]);
      if j % 2 == 0 then pair.0 else pair.1
    else frame[j]
  }

  /** Slots `2i` and `2i + 1` are the two halves of the rewritten pair. */
  lemma GainedSlotsOfPair(m: Math, gain: real, frame: seq<real>, i: nat)
    requires 2 * i + 1 < |frame|
    ensures GainedSlot(m, gain, frame, 2 * i) == GainedPair(m, gain, frame[2 * i], frame[2 * i + 1]).0
    ensures GainedSlot(m, gain, frame, 2 * i + 1) == GainedPair(m, gain, frame[2 * i], frame[2 * i + 1]).1
  {
    assert (2 * i) % 2 == 0 && (2 * i + 1) % 2 == 1;
  }

  /** The buffer after `processFFTBins`. */
  function GainFrame(m: Math, gain: real, frame: seq<real>): (r: seq<real>)
    ensures |r| == |frame|
  {
    seq(|frame|, j requires 0 <= j < |frame| => GainedSlot(m, gain, frame, j))
  }

  /** The gain step as the processor's injected transform. */
  function GainBins(m: Math, gain: real): (bins: Transform)
    ensures KeepsLength(bins)
  {
    (frame: seq<real>) => GainFrame(m, gain, frame)
  }

  /** `(s·g)·c = g·(s·c)`, on the exact product terms of a pair. */
  lemma ScaledProduct(s: real, g: real, c: real, x: real)
    requires s * c == x
    ensures (s * g) * c == g * x
  {
    calc {
      (s * g) * c;
      g * (s * c);
      g * x;
    }
  }

  /** In exact arithmetic the polar round trip is the identity, so each pair is the gain times
      the pair. */
  lemma GainedPairScales(m: Math, gain: real, re: real, im: real)
    requires PolarLaws(m)
    ensures GainedPair(m, gain, re, im).0 == gain * re
    ensures GainedPair(m, gain, re, im).1 == gain * im
  {
    var s := m.sqrt(re * re + im * im);
    var phase := m.atan2(im, re);
    ScaledProduct(s, gain, m.cos(phase), re);
    ScaledProduct(s, gain, m.sin(phase), im);
  }

  /** `processFFTBins` scales every slot of an even-length buffer by the gain: the polar
      detour changes nothing but the magnitude. */
  lemma GainFrameScales(m: Math, gain: real, frame: seq<real>)
    requires PolarLaws(m) && |frame| % 2 == 0
    ensures forall j :: 0 <= j < |frame| ==> GainFrame(m, gain, frame)[j] == gain * frame[j]
  {
    forall j | 0 <= j < |frame|
      ensures GainFrame(m, gain, frame)[j] == gain * frame[j]
    {
      GainedSlotScales(m, gain, frame, j);
    }
  }

  /** One slot of an even-length buffer: its pair is complete, and the slot is scaled. */
  lemma GainedSlotScales(m: Math, gain: real, frame: seq<real>, j: nat)
    requires PolarLaws(m) && |frame| % 2 == 0 && j < |frame|
    ensures GainedSlot(m, gain, frame, j) == gain * frame[j]
  {
    var first := j - j % 2;
    assert first + 1 < |frame|;
    GainedPairScales(m, gain, frame[first], frame[first + 1]);
    if j % 2 == 0 {
      assert first == j;
    } else {
      assert first + 1 == j;
    }
  }

  /** With the default gain of 1 the step leaves the spectrum as it is. */
  lemma UnitGainIsIdentity(m: Math, frame: seq<real>)
    requires PolarLaws(m) && |frame| % 2 == 0
    ensures GainFrame(m, 1.0, frame) == frame
  {
    GainFrameScales(m, 1.0, frame);
  }

  // ---------------------------------------------------------------------------------------
  // The processor object.

  /** Lines 74-79 on one channel's storage: the work buffer ends up holding the processed
      spectrum; the FIFO is only read. */
  method Analyse(cfg: Config, bins: Transform, inFifo: CircularBuffer, fftBuffer: array<real>)
    requires ValidConfig(cfg) && KeepsLength(bins) && inFifo.Valid()
    requires cfg.size <= |inFifo.Contents| && fftBuffer.Length == 2 * cfg.size && fftBuffer != inFifo.buffer
    modifies fftBuffer
    ensures fftBuffer[..] == Spectrum(cfg, bins, inFifo.Contents, old(fftBuffer[..]))
  {
    CopyFromFifo(fftBuffer, inFifo, cfg.size);
    ApplyWindow(fftBuffer, cfg.window, cfg.size);
    ApplyTransform(fftBuffer, cfg.forward);
    ApplyTransform(fftBuffer, bins);
  }

  /** Lines 80-91 on one channel's storage, starting from the processed spectrum in the work
      buffer. */
  method Synthesise(cfg: Config, inFifo: CircularBuffer, outFifo: CircularBuffer,
                    olaBuffer: array<real>, fftBuffer: array<real>)
    requires ValidConfig(cfg)
    requires inFifo.Valid() && outFifo.Valid() && inFifo.capacity == 2 * cfg.size && outFifo.capacity == 2 * cfg.size
    requires olaBuffer.Length == cfg.size && fftBuffer.Length == 2 * cfg.size
    requires inFifo != outFifo && inFifo.buffer != outFifo.buffer && olaBuffer != fftBuffer
    requires olaBuffer != inFifo.buffer && olaBuffer != outFifo.buffer
    requires fftBuffer != inFifo.buffer && fftBuffer != outFifo.buffer
    modifies inFifo, outFifo, outFifo.buffer, olaBuffer, fftBuffer
    ensures inFifo.Valid() && outFifo.Valid()
    ensures View(inFifo, outFifo, olaBuffer, fftBuffer) ==
      Emitted(cfg, old(View(inFifo, outFifo, olaBuffer, fftBuffer)),
              OverlapAdded(cfg.inverse(old(fftBuffer[..])), old(olaBuffer[..])))
  {
    ApplyTransform(fftBuffer, cfg.inverse);
    AddPrefix(fftBuffer, olaBuffer);
    PushPrefix(outFifo, fftBuffer, cfg.hop);
    ShiftOla(olaBuffer, fftBuffer, cfg.hop);
    PopN(inFifo, cfg.hop);
  }

  class SpectralProcessor {
    /** FFT_SIZE */
    const fftSize: nat
    /** NUM_CHANNELS */
    const numChannels: nat
    const hopSize: nat
    /** The Hann windowing table and the forward and inverse real-only FFT. */
    const window: Transform
    const forward: Transform
    const inverse: Transform
    const inputFifos: seq<CircularBuffer>
    const outputFifos: seq<CircularBuffer>
    const olaBuffers: seq<array<real>>
    const fftBuffers: seq<array<real>>
    /** The role of every object the audio path may change. */
    ghost const Owner: map<object, Role>
    ghost const Repr: set<object>

    /** The layout fixed at construction (lines 19-25, 105-108). */
    ghost predicate Shape()
    {
      && IsPowerOfTwo(fftSize) && 64 <= fftSize && fftSize == 2 * hopSize
      && 0 < numChannels <= 8 && |inputFifos| == numChannels
      && KeepsLength(window) && KeepsLength(forward) && KeepsLength(inverse)
      && FifosOwned(inputFifos, outputFifos, fftSize, Owner)
      && |olaBuffers| == numChannels && ArraysOwned(olaBuffers, fftBuffers, fftSize, Owner)
      && Repr == Owner.Keys && this !in Repr && StorageOnly(Owner)
    }

    ghost function Parts(c: nat): set<object>
      requires Shape() && c < numChannels
    {
      {inputFifos[c], inputFifos[c].buffer, outputFifos[c], outputFifos[c].buffer, olaBuffers[c], fftBuffers[c]}
    }

    /** Both FIFOs of channel `c` keep their ring-buffer invariant. */
    ghost predicate ChannelValid(c: nat)
      requires Shape() && c < numChannels
      reads inputFifos[c], inputFifos[c].buffer, outputFifos[c], outputFifos[c].buffer
    {
      inputFifos[c].Valid() && outputFifos[c].Valid()
    }

    ghost predicate Valid()
      reads this, Repr
    {
      Shape() && forall c :: 0 <= c < numChannels ==> ChannelValid(c)
    }

    /** Channel `c` as a value. */
    ghost function ChannelAt(c: nat): (ch: Channel)
      requires Shape() && c < numChannels && ChannelValid(c)
      reads inputFifos[c], inputFifos[c].buffer, outputFifos[c], outputFifos[c].buffer, olaBuffers[c], fftBuffers[c]
      ensures |ch.input| <= 2 * fftSize && |ch.output| <= 2 * fftSize
      ensures |ch.ola| == fftSize && |ch.fft| == 2 * fftSize
    {
      View(inputFifos[c], outputFifos[c], olaBuffers[c], fftBuffers[c])
    }

    function Cfg(): Config
    {
      Config(fftSize, hopSize, window, forward, inverse)
    }

    /** When only channel `channel` changed, and its FIFOs are still valid, the processor is
        valid and every other channel is as it was. */
    twostate lemma OthersKept(channel: nat)
      requires old(Valid()) && channel < numChannels
      requires unchanged(Repr - Parts(channel))
      requires ChannelValid(channel)
      ensures Valid()
      ensures forall c :: 0 <= c < numChannels && c != channel ==> ChannelAt(c) == old(ChannelAt(c))
    {
      forall c | 0 <= c < numChannels && c != channel
        ensures ChannelValid(c) && ChannelAt(c) == old(ChannelAt(c))
      {
        assert Parts(c) !! Parts(channel);
        assert unchanged(Parts(c));
        assert old(ChannelValid(c));
      }
    }

    /** The constructor (lines 18-26): hop FFT_SIZE / 2 and empty FIFOs. The accumulators and
        work buffers hold whatever they hold until `prepareToPlay` zeroes them. */
    constructor (fftSize: nat, numChannels: nat, window: Transform, forward: Transform, inverse: Transform)
      requires IsPowerOfTwo(fftSize) && 64 <= fftSize && 0 < numChannels <= 8
      requires KeepsLength(window) && KeepsLength(forward) && KeepsLength(inverse)
      ensures Valid() && fresh(Repr)
      ensures this.fftSize == fftSize && this.numChannels == numChannels && hopSize == fftSize / 2
      ensures this.window == window && this.forward == forward && this.inverse == inverse
      ensures forall c :: 0 <= c < numChannels ==> inputFifos[c].Contents == [] && outputFifos[c].Contents == []
    {
      this.fftSize := fftSize;
      this.numChannels := numChannels;
      hopSize := fftSize / 2;
      this.window, this.forward, this.inverse := window, forward, inverse;
      var ins, outs, olas, ffts, roles := AllocateChannels(numChannels, fftSize, map[]);
      inputFifos, outputFifos, olaBuffers, fftBuffers := ins, outs, olas, ffts;
      Owner, Repr := roles, roles.Keys;
      new;
      assert Shape();
      forall c | 0 <= c < numChannels
        ensures ChannelValid(c) && inputFifos[c].Contents == [] && outputFifos[c].Contents == []
      {
        assert ins[c].Valid() && outs[c].Valid();
      }
    }

    /** `prepareToPlay` (lines 30-42): zeroes every accumulator and work buffer and empties
        every FIFO; from then on every channel is `Empty`. */
    method PrepareToPlay()
      requires Valid()
      modifies Repr
      ensures Valid()
      ensures forall c :: 0 <= c < numChannels ==>
        ChannelAt(c) == Channel([], [], Zeros(fftSize), Zeros(2 * fftSize))
    {
      ZeroAccumulators();
      ZeroWorkBuffers();
      ClearInputs();
      ClearOutputs();
    }

    /** Lines 31-32: every `buf.fill(0.0f)` over the accumulators. */
    method ZeroAccumulators()
      requires Valid()
      modifies Repr
      ensures Valid()
      ensures forall c :: 0 <= c < numChannels ==> ChannelAt(c) == old(ChannelAt(c)).(ola := Zeros(fftSize))
    {
      for c := 0 to numChannels
        invariant Valid()
        invariant forall k :: 0 <= k < c ==> ChannelAt(k) == old(ChannelAt(k)).(ola := Zeros(fftSize))
        invariant forall k :: c <= k < numChannels ==> ChannelAt(k) == old(ChannelAt(k))
      {
        assert ChannelValid(c) && olaBuffers[c] in Parts(c);
        label L:
        FillZero(olaBuffers[c]);
        OthersKept@L(c);
      }
    }

    /** Lines 34-35: every `buf.fill(0.0f)` over the work buffers. */
    method ZeroWorkBuffers()
      requires Valid()
      modifies Repr
      ensures Valid()
      ensures forall c :: 0 <= c < numChannels ==> ChannelAt(c) == old(ChannelAt(c)).(fft := Zeros(2 * fftSize))
    {
      for c := 0 to numChannels
        invariant Valid()
        invariant forall k :: 0 <= k < c ==> ChannelAt(k) == old(ChannelAt(k)).(fft := Zeros(2 * fftSize))
        invariant forall k :: c <= k < numChannels ==> ChannelAt(k) == old(ChannelAt(k))
      {
        assert ChannelValid(c) && fftBuffers[c] in Parts(c);
        label L:
        FillZero(fftBuffers[c]);
        OthersKept@L(c);
      }
    }

    /** Lines 37-38: every input `fifo.clear()`. */
    method ClearInputs()
      requires Valid()
      modifies Repr
      ensures Valid()
      ensures forall c :: 0 <= c < numChannels ==> ChannelAt(c) == old(ChannelAt(c)).(input := [])
    {
      for c := 0 to numChannels
        invariant Valid()
        invariant forall k :: 0 <= k < c ==> ChannelAt(k) == old(ChannelAt(k)).(input := [])
        invariant forall k :: c <= k < numChannels ==> ChannelAt(k) == old(ChannelAt(k))
      {
        assert ChannelValid(c) && inputFifos[c] in Parts(c);
        label L:
        inputFifos[c].Clear();
        OthersKept@L(c);
      }
    }

    /** Lines 40-41: every output `fifo.clear()`. */
    method ClearOutputs()
      requires Valid()
      modifies Repr
      ensures Valid()
      ensures forall c :: 0 <= c < numChannels ==> ChannelAt(c) == old(ChannelAt(c)).(output := [])
    {
      for c := 0 to numChannels
        invariant Valid()
        invariant forall k :: 0 <= k < c ==> ChannelAt(k) == old(ChannelAt(k)).(output := [])
        invariant forall k :: c <= k < numChannels ==> ChannelAt(k) == old(ChannelAt(k))
      {
        assert ChannelValid(c) && outputFifos[c] in Parts(c);
        label L:
        outputFifos[c].Clear();
        OthersKept@L(c);
      }
    }

    /** `computeFFT(channel)` (lines 64-92). `bins` is the subclass's `processFFTBins`. */
    method ComputeFFT(channel: nat, bins: Transform)
      requires Valid() && channel < numChannels && ChannelValid(channel) && KeepsLength(bins)
      modifies Parts(channel)
      ensures Valid()
      ensures ChannelAt(channel) == Attempt(Cfg(), bins, old(ChannelAt(channel)))
      ensures forall c :: 0 <= c < numChannels && c != channel ==> ChannelAt(c) == old(ChannelAt(c))
    {
      if inputFifos[channel].Size() < fftSize {
        return;
      }
      var inFifo, outFifo := inputFifos[channel], outputFifos[channel];
      var fftBuffer, olaBuffer := fftBuffers[channel], olaBuffers[channel];
      Analyse(Cfg(), bins, inFifo, fftBuffer);
      Synthesise(Cfg(), inFifo, outFifo, olaBuffer, fftBuffer);
      OthersKept(channel);
    }

    /** One iteration of the inner loop of `processBlock` (lines 54-56). */
    method ProcessSample(channel: nat, x: real, bins: Transform) returns (y: real)
      requires Valid() && channel < numChannels && ChannelValid(channel) && KeepsLength(bins)
      modifies Parts(channel)
      ensures Valid()
      ensures (ChannelAt(channel), y) == Step(Cfg(), bins, old(ChannelAt(channel)), x)
      ensures forall c :: 0 <= c < numChannels && c != channel ==> ChannelAt(c) == old(ChannelAt(c))
    {
      inputFifos[channel].Push(x);
      OthersKept(channel);
      assert ChannelValid(channel);
      ComputeFFT(channel, bins);
      assert ChannelValid(channel);
      label Computed:
      y := outputFifos[channel].Pop();
      OthersKept@Computed(channel);
    }

    /** `processBlock` (lines 44-59): every channel of the host buffer, which may have no more
        channels than the processor (line 48), runs through its own FIFOs independently. */
    method ProcessBlock(buffer: array2<real>, bins: Transform)
      requires Valid() && KeepsLength(bins) && buffer.Length0 <= numChannels
      modifies Repr, buffer
      ensures Valid()
      ensures forall c :: 0 <= c < buffer.Length0 ==>
        var r := Run(Cfg(), bins, old(ChannelAt(c)), old(Row(buffer, c)));
        && ChannelAt(c) == r.0
        && forall j :: 0 <= j < buffer.Length1 ==> buffer[c, j] == r.1[j]
      ensures forall c :: buffer.Length0 <= c < numChannels ==> ChannelAt(c) == old(ChannelAt(c))
    {
      for ch := 0 to buffer.Length0
        invariant Valid()
        invariant forall c :: 0 <= c < ch ==>
          var r := Run(Cfg(), bins, old(ChannelAt(c)), old(Row(buffer, c)));
          && ChannelAt(c) == r.0
          && forall j :: 0 <= j < buffer.Length1 ==> buffer[c, j] == r.1[j]
        invariant forall c :: ch <= c < numChannels ==> ChannelAt(c) == old(ChannelAt(c))
        invariant forall c, j :: ch <= c < buffer.Length0 && 0 <= j < buffer.Length1 ==>
          buffer[c, j] == old(buffer[c, j])
      {
        assert Row(buffer, ch) == old(Row(buffer, ch));
        ProcessRow(buffer, ch, bins);
      }
    }

    /** Lines 50-57 for one channel: each sample of the row is replaced by what the channel's
        processing returns for it. */
    method ProcessRow(buffer: array2<real>, ch: nat, bins: Transform)
      requires Valid() && KeepsLength(bins) && ch < buffer.Length0 && ch < numChannels
      modifies Repr, buffer
      ensures Valid()
      ensures var r := Run(Cfg(), bins, old(ChannelAt(ch)), old(Row(buffer, ch)));
        && ChannelAt(ch) == r.0
        && forall j :: 0 <= j < buffer.Length1 ==> buffer[ch, j] == r.1[j]
      ensures forall c :: 0 <= c < numChannels && c != ch ==> ChannelAt(c) == old(ChannelAt(c))
      ensures forall c, j :: 0 <= c < buffer.Length0 && c != ch && 0 <= j < buffer.Length1 ==>
        buffer[c, j] == old(buffer[c, j])
    {
      ghost var input := Row(buffer, ch);
      ghost var start := ChannelAt(ch);
      ghost var outs: seq<real> := [];
      for i := 0 to buffer.Length1
        invariant Valid()
        invariant (ChannelAt(ch), outs) == Run(Cfg(), bins, start, input[..i])
        invariant forall c :: 0 <= c < numChannels && c != ch ==> ChannelAt(c) == old(ChannelAt(c))
        invariant forall c, j :: 0 <= c < buffer.Length0 && c != ch && 0 <= j < buffer.Length1 ==>
          buffer[c, j] == old(buffer[c, j])
        invariant forall j :: 0 <= j < i ==> buffer[ch, j] == outs[j]
        invariant forall j :: i <= j < buffer.Length1 ==> buffer[ch, j] == input[j]
      {
        ghost var state := ChannelAt(ch);
        ghost var x := buffer[ch, i];
        assert x == input[i];
        ProcessCell(buffer, ch, i, bins);
        RunExtends(Cfg(), bins, start, input, i, state, outs, ChannelAt(ch), buffer[ch, i]);
        outs := outs + [buffer[ch, i]];
      }
      assert input[..buffer.Length1] == input;
    }

    /** Line 56 in place: sample `i` of row `ch` replaced by what the channel returns for it. */
    method ProcessCell(buffer: array2<real>, ch: nat, i: nat, bins: Transform)
      requires Valid() && KeepsLength(bins) && ch < buffer.Length0 && ch < numChannels && i < buffer.Length1
      modifies Repr, buffer
      ensures Valid()
      ensures (ChannelAt(ch), buffer[ch, i]) == Step(Cfg(), bins, old(ChannelAt(ch)), old(buffer[ch, i]))
      ensures forall c :: 0 <= c < numChannels && c != ch ==> ChannelAt(c) == old(ChannelAt(c))
      ensures forall c, j :: 0 <= c < buffer.Length0 && 0 <= j < buffer.Length1 && (c != ch || j != i) ==>
        buffer[c, j] == old(buffer[c, j])
    {
      assert ChannelValid(ch);
      var y := ProcessSample(ch, buffer[ch, i], bins);
      buffer[ch, i] := y;
    }
  }

  /** `SpectralCompressor` (lines 120-155): a `SpectralProcessor` whose `processFFTBins`
      multiplies every bin's magnitude by `gain`. */
  class SpectralCompressor {
    /** The processor this compressor specialises. */
    const processor: SpectralProcessor
    /** The library functions `processFFTBins` calls. */
    const math: Math
    var gain: real

    ghost predicate Valid()
      reads this, processor, processor.Repr
    {
      processor.Valid() && this !in processor.Repr
    }

    /** Line 123; the gain starts at 1 (line 153). */
    constructor (fftSize: nat, numChannels: nat, window: Transform, forward: Transform, inverse: Transform, math: Math)
      requires IsPowerOfTwo(fftSize) && 64 <= fftSize && 0 < numChannels <= 8
      requires KeepsLength(window) && KeepsLength(forward) && KeepsLength(inverse)
      ensures Valid() && fresh(processor) && fresh(processor.Repr)
      ensures processor.fftSize == fftSize && processor.numChannels == numChannels
      ensures processor.Cfg() == Config(fftSize, fftSize / 2, window, forward, inverse)
      ensures this.math == math && gain == 1.0
    {
      processor := new SpectralProcessor(fftSize, numChannels, window, forward, inverse);
      this.math := math;
      gain := 1.0;
    }

    /** `setGain` (line 124). */
    method SetGain(newGain: real)
      requires Valid()
      modifies this
      ensures Valid() && gain == newGain
    {
      gain := newGain;
    }

    /** `processFFTBins` (lines 127-151): every pair `(2i, 2i + 1)` for i < FFT_SIZE goes to
        polar form and back with its magnitude times `gain`. */
    method ProcessFFTBins(transformedBuffer: array<real>)
      requires transformedBuffer.Length == 2 * processor.fftSize
      modifies transformedBuffer
      ensures transformedBuffer[..] == GainFrame(math, gain, old(transformedBuffer[..]))
    {
      ghost var frame := transformedBuffer[..];
      for i := 0 to processor.fftSize
        invariant forall j :: 0 <= j < 2 * i ==> transformedBuffer[j] == GainedSlot(math, gain, frame, j)
        invariant forall j :: 2 * i <= j < transformedBuffer.Length ==> transformedBuffer[j] == frame[j]
      {
        ProcessPair(transformedBuffer, i);
        GainedSlotsOfPair(math, gain, frame, i);
      }
      assert forall j :: 0 <= j < transformedBuffer.Length ==>
        transformedBuffer[j] == GainFrame(math, gain, frame)[j];
    }

    /** One iteration of that loop (lines 136-146) on the pair `(2i, 2i + 1)`. */
    method ProcessPair(transformedBuffer: array<real>, i: nat)
      requires 2 * i + 1 < transformedBuffer.Length
      modifies transformedBuffer
      ensures var pair := GainedPair(math, gain, old(transformedBuffer[2 * i]), old(transformedBuffer[2 * i + 1]));
        transformedBuffer[2 * i] == pair.0 && transformedBuffer[2 * i + 1] == pair.1
      ensures forall j :: 0 <= j < transformedBuffer.Length && j != 2 * i && j != 2 * i + 1 ==>
        transformedBuffer[j] == old(transformedBuffer[j])
    {
      var re := transformedBuffer[i * 2];
      var im := transformedBuffer[i * 2 + 1];
      var magnitude := math.sqrt(re * re + im * im);
      var phase := math.atan2(im, re);
      magnitude := magnitude * gain;
      assert magnitude == math.sqrt(re * re + im * im) * gain;
      GainedPairUnfolds(math, gain, re, im);
      transformedBuffer[i * 2] := magnitude * math.cos(phase);
      transformedBuffer[i * 2 + 1] := magnitude * math.sin(phase);
    }

    /** `processBlock` of the compressor: the processor's pipeline with this compressor's
        `processFFTBins` as its spectral step. */
    method ProcessBlock(buffer: array2<real>)
      requires Valid() && buffer.Length0 <= processor.numChannels
      modifies processor.Repr, buffer
      ensures Valid() && gain == old(gain)
      ensures forall c :: 0 <= c < buffer.Length0 ==>
        var r := Run(processor.Cfg(), GainBins(math, gain), old(processor.ChannelAt(c)), old(Row(buffer, c)));
        && processor.ChannelAt(c) == r.0
        && forall j :: 0 <= j < buffer.Length1 ==> buffer[c, j] == r.1[j]
      ensures forall c :: buffer.Length0 <= c < processor.numChannels ==>
        processor.ChannelAt(c) == old(processor.ChannelAt(c))
    {
      processor.ProcessBlock(buffer, GainBins(math, gain));
    }

    /** `prepareToPlay`, inherited. */
    method PrepareToPlay()
      requires Valid()
      modifies processor.Repr
      ensures Valid() && gain == old(gain)
      ensures forall c :: 0 <= c < processor.numChannels ==>
        processor.ChannelAt(c) == Channel([], [], Zeros(processor.fftSize), Zeros(2 * processor.fftSize))
    {
      processor.PrepareToPlay();
    }
  }
}
