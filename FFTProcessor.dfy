/** Model of `FFTProcessor<FFT_SIZE, NUM_CHANNELS>` (source/DSP/FFTProcessor.h): the
    Blackman-Harris overlap-add pipeline with hop FFT_SIZE / 4, a synthesis window and a
    window-compensation table. Every channel owns an input FIFO, an output FIFO (both ring
    buffers of capacity 2·FFT_SIZE), an overlap-add accumulator of FFT_SIZE samples and a work
    buffer of 2·FFT_SIZE samples; the spectral processing step is injected.

    The first half of the module describes one channel as a value (`Channel`) and what one
    sample does to it (`Step`); the class `FFTProcessor` then carries out the source's loops on
    arrays and ring buffers and is proved to follow that description. */
module FFTProcessors {
  import opened CircularBuffers
  import opened Stft
  import opened ChannelStorage

  /** What the constructor fixes: FFT_SIZE, the hop, the JUCE window and transforms, and the
      window-compensation table. */
  datatype Config = Config(
    size: nat, hop: nat,
    window: Transform, forward: Transform, inverse: Transform,
    compensation: seq<real>)

  ghost predicate ValidConfig(cfg: Config)
  {
    && 0 < cfg.hop <= cfg.size && |cfg.compensation| == cfg.size
    && KeepsLength(cfg.window) && KeepsLength(cfg.forward) && KeepsLength(cfg.inverse)
  }

  /** The shapes the source's fixed-size arrays give a channel. */
  ghost predicate Fits(cfg: Config, ch: Channel)
  {
    && |ch.input| <= 2 * cfg.size && |ch.output| <= 2 * cfg.size
    && |ch.ola| == cfg.size && |ch.fft| == 2 * cfg.size
  }

  /** Lines 80-87: the work buffer is zeroed, the oldest FFT_SIZE queued samples are copied in
      (without being consumed), windowed, transformed and handed to the injected step. */
  function Spectrum(cfg: Config, bins: BinStep, sampleRate: real, input: seq<real>): (r: seq<real>)
    requires ValidConfig(cfg) && StepKeepsLength(bins) && cfg.size <= |input|
    ensures |r| == 2 * cfg.size
  {
    var loaded := input[..cfg.size] + Zeros(cfg.size);
    bins(sampleRate, cfg.forward(WindowedPrefix(cfg.window, loaded, cfg.size)))
  }

  /** Lines 89-93: inverse transform, synthesis window, compensation. */
  function Resynthesised(cfg: Config, spectrum: seq<real>): (r: seq<real>)
    requires ValidConfig(cfg) && cfg.size <= |spectrum|
    ensures |r| == |spectrum| && r[cfg.size..] == cfg.inverse(spectrum)[cfg.size..]
  {
    var back := WindowedPrefix(cfg.window, cfg.inverse(spectrum), cfg.size);
    ScaledPrefix(back, cfg.compensation)
  }

  /** The compensated synthesis frame of a channel's queued input. */
  function Synthesised(cfg: Config, bins: BinStep, sampleRate: real, ch: Channel): seq<real>
    requires ValidConfig(cfg) && StepKeepsLength(bins) && cfg.size <= |ch.input|
  {
    Resynthesised(cfg, Spectrum(cfg, bins, sampleRate, ch.input))
  }

  /** Lines 95-96: the frame added to the accumulator. */
  function Summed(cfg: Config, bins: BinStep, sampleRate: real, ch: Channel): (r: seq<real>)
    requires ValidConfig(cfg) && StepKeepsLength(bins) && Fits(cfg, ch) && cfg.size <= |ch.input|
    ensures |r| == 2 * cfg.size
    ensures forall i :: cfg.size <= i < 2 * cfg.size ==> r[i] == Synthesised(cfg, bins, sampleRate, ch)[i]
  {
    OverlapAdded(Synthesised(cfg, bins, sampleRate, ch), ch.ola)
  }

  /** Lines 98-105, once the summed frame is in the work buffer: emit its first hop samples,
      shift the accumulator, consume hop input samples. */
  function Emitted(cfg: Config, ch: Channel, summed: seq<real>): (r: Channel)
    requires ValidConfig(cfg) && Fits(cfg, ch) && |summed| == 2 * cfg.size
    ensures Fits(cfg, r)
  {
    Channel(
      PoppedN(ch.input, cfg.hop),
      PushedAll(ch.output, summed[..cfg.hop], 2 * cfg.size),
      ShiftedOla(summed, cfg.size, cfg.hop),
      summed)
  }

  /** One frame (lines 80-105). */
  function Frame(cfg: Config, bins: BinStep, sampleRate: real, ch: Channel): (r: Channel)
    requires ValidConfig(cfg) && StepKeepsLength(bins) && Fits(cfg, ch) && cfg.size <= |ch.input|
    ensures Fits(cfg, r)
  {
    Emitted(cfg, ch, Summed(cfg, bins, sampleRate, ch))
  }

  /** `computeFFT(channel)`: a frame only when at least FFT_SIZE samples are queued. */
  function Attempt(cfg: Config, bins: BinStep, sampleRate: real, ch: Channel): (r: Channel)
    requires ValidConfig(cfg) && StepKeepsLength(bins) && Fits(cfg, ch)
    ensures Fits(cfg, r)
  {
    if |ch.input| < cfg.size then ch else Frame(cfg, bins, sampleRate, ch)
  }

  /** The channel after `inputFifos[ch].push(x)` (line 54). */
  function Fed(cfg: Config, ch: Channel, x: real): (r: Channel)
    requires ValidConfig(cfg) && Fits(cfg, ch)
    ensures Fits(cfg, r)
  {
    ch.(input := Pushed(ch.input, x, 2 * cfg.size))
  }

  /** One sample of `processBlock` (lines 54-56): push, attempt a frame, pop the output. */
  function Step(cfg: Config, bins: BinStep, sampleRate: real, ch: Channel, x: real): (r: (Channel, real))
    requires ValidConfig(cfg) && StepKeepsLength(bins) && Fits(cfg, ch)
    ensures Fits(cfg, r.0)
  {
    var computed := Attempt(cfg, bins, sampleRate, Fed(cfg, ch, x));
    var popped := Popped(computed.output);
    (computed.(output := popped.0), popped.1)
  }

  /** A channel fed the samples `xs` in order: the final state and the samples written back. */
  function Run(cfg: Config, bins: BinStep, sampleRate: real, ch: Channel, xs: seq<real>): (r: (Channel, seq<real>))
    requires ValidConfig(cfg) && StepKeepsLength(bins) && Fits(cfg, ch)
    ensures Fits(cfg, r.0) && |r.1| == |xs|
    decreases |xs|
  {
    if |xs| == 0 then (ch, [])
    else
      var before := Run(cfg, bins, sampleRate, ch, xs[..|xs| - 1]);
      var after := Step(cfg, bins, sampleRate, before.0, xs[|xs| - 1]);
      (after.0, before.1 + [after.1])
  }

  /** Running one more sample of `xs` is one more `Step` after the run so far. */
  lemma RunExtends(cfg: Config, bins: BinStep, sampleRate: real, ch: Channel, xs: seq<real>, i: nat,
                   state: Channel, outs: seq<real>, state': Channel, y: real)
    requires ValidConfig(cfg) && StepKeepsLength(bins) && Fits(cfg, ch) && i < |xs|
    requires (state, outs) == Run(cfg, bins, sampleRate, ch, xs[..i])
    requires (state', y) == Step(cfg, bins, sampleRate, state, xs[i])
    ensures (state', outs + [y]) == Run(cfg, bins, sampleRate, ch, xs[..i + 1])
  {
    assert xs[..i + 1][..i] == xs[..i];
  }

  /** FIFO occupancy from empty FIFOs on: still warming up (nothing to output, fewer than
      FFT_SIZE samples queued) or warm. */
  ghost predicate Occupancy(cfg: Config, ch: Channel)
  {
    (|ch.output| == 0 && |ch.input| < cfg.size) || Warm(cfg, ch)
  }

  /** Steady state: the two FIFOs together hold FFT_SIZE − 1 samples, at least FFT_SIZE − hop
      of them on the input side. */
  ghost predicate Warm(cfg: Config, ch: Channel)
  {
    |ch.input| + |ch.output| == cfg.size - 1 && cfg.size - cfg.hop <= |ch.input|
  }

  /** The pop of the step that feeds `x` finds the output FIFO non-empty. */
  ghost predicate PopFindsSample(cfg: Config, bins: BinStep, sampleRate: real, ch: Channel, x: real)
    requires ValidConfig(cfg) && StepKeepsLength(bins) && Fits(cfg, ch)
  {
    |Attempt(cfg, bins, sampleRate, Fed(cfg, ch, x)).output| > 0
  }

  /** A fresh channel: both FIFOs empty. */
  ghost predicate Empty(ch: Channel)
  {
    ch.input == [] && ch.output == []
  }

  /** A frame consumes exactly hop input samples and, when the output FIFO has room, pushes
      exactly hop samples, the i-th being the compensated synthesis sample plus the
      accumulator's i-th; the accumulator then holds the rest of the sum followed by zeros. */
  lemma FrameEmitsHop(cfg: Config, bins: BinStep, sampleRate: real, ch: Channel)
    requires ValidConfig(cfg) && StepKeepsLength(bins) && Fits(cfg, ch) && cfg.size <= |ch.input|
    requires |ch.output| + cfg.hop <= 2 * cfg.size
    ensures var r := Frame(cfg, bins, sampleRate, ch);
      var synth := Synthesised(cfg, bins, sampleRate, ch);
      && r.input == ch.input[cfg.hop..]
      && |r.output| == |ch.output| + cfg.hop
      && r.output[..|ch.output|] == ch.output
      && (forall i :: 0 <= i < cfg.hop ==> r.output[|ch.output| + i] == synth[i] + ch.ola[i])
      && (forall i :: 0 <= i < cfg.size - cfg.hop ==> r.ola[i] == synth[cfg.hop + i] + ch.ola[cfg.hop + i])
      && (forall i :: cfg.size - cfg.hop <= i < cfg.size ==> r.ola[i] == 0.0)
  {
    var summed := Summed(cfg, bins, sampleRate, ch);
    var r := Frame(cfg, bins, sampleRate, ch);
    assert r == Emitted(cfg, ch, summed);
    PushedAllAppends(ch.output, summed[..cfg.hop], 2 * cfg.size);
    assert r.output == ch.output + summed[..cfg.hop];
    assert r.ola == ShiftedOla(summed, cfg.size, cfg.hop);
  }

  /** Every step keeps the occupancy invariant, leaves fewer than FFT_SIZE samples queued (so
      the input FIFO, of capacity 2·FFT_SIZE, never fills), keeps a warm channel warm, and
      while warming up only queues the sample and outputs 0. */
  lemma StepKeepsOccupancy(cfg: Config, bins: BinStep, sampleRate: real, ch: Channel, x: real)
    requires ValidConfig(cfg) && StepKeepsLength(bins) && Fits(cfg, ch) && Occupancy(cfg, ch)
    ensures var r := Step(cfg, bins, sampleRate, ch, x);
      && Occupancy(cfg, r.0)
      && |r.0.input| < cfg.size
      && (Warm(cfg, ch) ==> Warm(cfg, r.0) && PopFindsSample(cfg, bins, sampleRate, ch, x))
      && (|ch.output| == 0 && |ch.input| < cfg.size - 1 ==>
            r.0 == ch.(input := ch.input + [x]) && r.1 == 0.0)
  {
    var fed := Fed(cfg, ch, x);
    assert fed.input == ch.input + [x];
    if cfg.size <= |fed.input| {
      var summed := Summed(cfg, bins, sampleRate, fed);
      assert |ch.output| == 0;
      PushedAllAppends(ch.output, summed[..cfg.hop], 2 * cfg.size);
    }
  }

  /** Occupancy holds after any run from a state that has it; the input FIFO stays below
      FFT_SIZE samples throughout. */
  lemma {:induction false} RunKeepsOccupancy(cfg: Config, bins: BinStep, sampleRate: real, ch: Channel, xs: seq<real>)
    requires ValidConfig(cfg) && StepKeepsLength(bins) && Fits(cfg, ch) && Occupancy(cfg, ch)
    ensures Occupancy(cfg, Run(cfg, bins, sampleRate, ch, xs).0)
    ensures 0 < |xs| ==> |Run(cfg, bins, sampleRate, ch, xs).0.input| < cfg.size
    decreases |xs|
  {
    if 0 < |xs| {
      var before := Run(cfg, bins, sampleRate, ch, xs[..|xs| - 1]);
      RunKeepsOccupancy(cfg, bins, sampleRate, ch, xs[..|xs| - 1]);
      StepKeepsOccupancy(cfg, bins, sampleRate, before.0, xs[|xs| - 1]);
    }
  }

  /** From empty FIFOs, the first FFT_SIZE − 1 samples only fill the input FIFO: every one of
      them comes out as 0 and nothing else changes. */
  lemma {:induction false} WarmupIsSilent(cfg: Config, bins: BinStep, sampleRate: real, ch: Channel, xs: seq<real>)
    requires ValidConfig(cfg) && StepKeepsLength(bins) && Fits(cfg, ch) && Empty(ch) && |xs| < cfg.size
    ensures Run(cfg, bins, sampleRate, ch, xs) == (ch.(input := xs), Zeros(|xs|))
    decreases |xs|
  {
    if 0 < |xs| {
      var init, x := xs[..|xs| - 1], xs[|xs| - 1];
      WarmupIsSilent(cfg, bins, sampleRate, ch, init);
      var prev := Run(cfg, bins, sampleRate, ch, init);
      var step := Step(cfg, bins, sampleRate, prev.0, x);
      StepKeepsOccupancy(cfg, bins, sampleRate, prev.0, x);
      assert step == (ch.(input := init + [x]), 0.0);
      assert Run(cfg, bins, sampleRate, ch, xs) == (step.0, prev.1 + [step.1]);
      assert init + [x] == xs;
      assert Zeros(|init|) + [0.0] == Zeros(|xs|);
    } else {
      assert xs == [] && Zeros(0) == [];
    }
  }

  /** From empty FIFOs, once FFT_SIZE − 1 samples have gone in the channel is warm for good. */
  lemma {:induction false} RunFromEmptyWarms(cfg: Config, bins: BinStep, sampleRate: real, ch: Channel, xs: seq<real>)
    requires ValidConfig(cfg) && StepKeepsLength(bins) && Fits(cfg, ch) && Empty(ch) && cfg.size - 1 <= |xs|
    ensures Warm(cfg, Run(cfg, bins, sampleRate, ch, xs).0)
    decreases |xs|
  {
    if |xs| == cfg.size - 1 {
      WarmupIsSilent(cfg, bins, sampleRate, ch, xs);
    } else {
      var before := Run(cfg, bins, sampleRate, ch, xs[..|xs| - 1]);
      RunFromEmptyWarms(cfg, bins, sampleRate, ch, xs[..|xs| - 1]);
      StepKeepsOccupancy(cfg, bins, sampleRate, before.0, xs[|xs| - 1]);
    }
  }

  /** From empty FIFOs, the pop of every sample from the FFT_SIZE-th on finds a sample in the
      output FIFO: the 0.0 of an empty pop only ever fills the first FFT_SIZE − 1 outputs. */
  lemma LaterPopsFindSamples(cfg: Config, bins: BinStep, sampleRate: real, ch: Channel, xs: seq<real>, k: nat)
    requires ValidConfig(cfg) && StepKeepsLength(bins) && Fits(cfg, ch) && Empty(ch) && cfg.size - 1 <= k < |xs|
    ensures PopFindsSample(cfg, bins, sampleRate, Run(cfg, bins, sampleRate, ch, xs[..k]).0, xs[k])
  {
    RunFromEmptyWarms(cfg, bins, sampleRate, ch, xs[..k]);
    StepKeepsOccupancy(cfg, bins, sampleRate, Run(cfg, bins, sampleRate, ch, xs[..k]).0, xs[k]);
  }

  // ---------------------------------------------------------------------------------------
  // Display magnitudes (`storeMagnitudes`, lines 108-140): only the channel bookkeeping.

  /** The two display tables: `tempMagnitudes` and `magnitudes`, FFT_SIZE / 2 + 1 entries each. */
  datatype Display = Display(temp: seq<real>, magnitudes: seq<real>)

  /** The per-bin display values of a processed spectrum (lines 116-129); their scaling is not
      part of the model, so they come from the injected `binMagnitude`. */
  function BinValues(binMagnitude: (seq<real>, nat) -> real, spectrum: seq<real>, n: nat): (r: seq<real>)
    ensures |r| == n / 2 + 1
    ensures forall i :: 0 <= i < |r| ==> r[i] == binMagnitude(spectrum, i)
  {
    seq(n / 2 + 1, i requires 0 <= i => binMagnitude(spectrum, i))
  }

  /** What `storeMagnitudes(values, channel)` does to the display tables. */
  function StoredMagnitudes(numChannels: nat, channel: nat, d: Display, values: seq<real>): (r: Display)
    requires |d.temp| == |values|
    ensures |r.temp| == |values|
  {
    if channel == 0 then Display(values, if numChannels == 1 then values else d.magnitudes)
    else if 1 < numChannels then
      Display(d.temp, seq(|values|, i requires 0 <= i < |values| => d.temp[i] + values[i]))
    else d
  }

  /** With one channel the display shows that channel's latest frame. */
  lemma MonoShowsLatestFrame(d: Display, values: seq<real>)
    requires |d.temp| == |values|
    ensures StoredMagnitudes(1, 0, d, values) == Display(values, values)
  {
  }

  /** With several channels, channel 0 writes only the scratch table, and a later channel then
      shows the bin-wise sum of channel 0's frame and its own. */
  lemma SeveralChannelsShowSum(numChannels: nat, channel: nat, d: Display, first: seq<real>, later: seq<real>)
    requires 1 < numChannels && 0 < channel && |d.temp| == |first| == |later|
    ensures StoredMagnitudes(numChannels, 0, d, first).magnitudes == d.magnitudes
    ensures var e := StoredMagnitudes(numChannels, channel, StoredMagnitudes(numChannels, 0, d, first), later);
      && e.temp == first
      && |e.magnitudes| == |first|
      && forall i :: 0 <= i < |first| ==> e.magnitudes[i] == first[i] + later[i]
  {
  }

  /** The display tables after one sample of channel `channel` (lines 54-56 with line 88): a
      frame that fires stores the bin values of its processed spectrum; otherwise they stay. */
  function StepShown(cfg: Config, bins: BinStep, sampleRate: real, binMagnitude: (seq<real>, nat) -> real,
                     numChannels: nat, channel: nat, d: Display, ch: Channel, x: real): (r: Display)
    requires ValidConfig(cfg) && StepKeepsLength(bins) && Fits(cfg, ch) && |d.temp| == cfg.size / 2 + 1
    ensures |r.temp| == cfg.size / 2 + 1
    ensures 0 < channel ==> r.temp == d.temp
    ensures channel == 0 && 1 < numChannels ==> r.magnitudes == d.magnitudes
    ensures numChannels == 1 && d.temp == d.magnitudes ==> r.temp == r.magnitudes
  {
    var fed := Fed(cfg, ch, x);
    if |fed.input| < cfg.size then d
    else StoredMagnitudes(numChannels, channel, d, BinValues(binMagnitude, Spectrum(cfg, bins, sampleRate, fed.input), cfg.size))
  }

  /** The display tables after channel `channel` has been fed the samples `xs` from state `ch`. */
  function RunShown(cfg: Config, bins: BinStep, sampleRate: real, binMagnitude: (seq<real>, nat) -> real,
                    numChannels: nat, channel: nat, d: Display, ch: Channel, xs: seq<real>): (r: Display)
    requires ValidConfig(cfg) && StepKeepsLength(bins) && Fits(cfg, ch) && |d.temp| == cfg.size / 2 + 1
    ensures |r.temp| == cfg.size / 2 + 1
    ensures 0 < channel ==> r.temp == d.temp
    ensures channel == 0 && 1 < numChannels ==> r.magnitudes == d.magnitudes
    ensures numChannels == 1 && d.temp == d.magnitudes ==> r.temp == r.magnitudes
    decreases |xs|
  {
    if |xs| == 0 then d
    else
      var init := xs[..|xs| - 1];
      StepShown(cfg, bins, sampleRate, binMagnitude, numChannels, channel,
                RunShown(cfg, bins, sampleRate, binMagnitude, numChannels, channel, d, ch, init),
                Run(cfg, bins, sampleRate, ch, init).0, xs[|xs| - 1])
  }

  /** Every channel of `chans` fits its buffers. */
  ghost predicate AllFit(cfg: Config, chans: seq<Channel>)
  {
    forall c :: 0 <= c < |chans| ==> Fits(cfg, chans[c])
  }

  /** The display tables after the first `k` rows of a block, row `c` fed to channel `c` from
      state `chans[c]` (lines 50-58). */
  function BlockShown(cfg: Config, bins: BinStep, sampleRate: real, binMagnitude: (seq<real>, nat) -> real,
                      numChannels: nat, d: Display, chans: seq<Channel>, rows: seq<seq<real>>, k: nat): (r: Display)
    requires ValidConfig(cfg) && StepKeepsLength(bins) && |d.temp| == cfg.size / 2 + 1
    requires AllFit(cfg, chans) && k <= |chans| && k <= |rows|
    ensures |r.temp| == cfg.size / 2 + 1
    ensures numChannels == 1 && d.temp == d.magnitudes ==> r.temp == r.magnitudes
    decreases k
  {
    if k == 0 then d
    else RunShown(cfg, bins, sampleRate, binMagnitude, numChannels, k - 1,
                  BlockShown(cfg, bins, sampleRate, binMagnitude, numChannels, d, chans, rows, k - 1),
                  chans[k - 1], rows[k - 1])
  }

  /** One more row of a block shows what that row's run shows after the rows so far. */
  lemma BlockShownNext(cfg: Config, bins: BinStep, sampleRate: real, binMagnitude: (seq<real>, nat) -> real,
                       numChannels: nat, d: Display, chans: seq<Channel>, rows: seq<seq<real>>, k: nat,
                       shown: Display, start: Channel)
    requires ValidConfig(cfg) && StepKeepsLength(bins) && |d.temp| == cfg.size / 2 + 1
    requires AllFit(cfg, chans) && k < |chans| && k < |rows|
    requires shown == BlockShown(cfg, bins, sampleRate, binMagnitude, numChannels, d, chans, rows, k)
    requires start == chans[k]
    ensures BlockShown(cfg, bins, sampleRate, binMagnitude, numChannels, d, chans, rows, k + 1)
         == RunShown(cfg, bins, sampleRate, binMagnitude, numChannels, k, shown, start, rows[k])
  {
  }

  /** Feeding one more sample of `xs` shows what one more step shows after the run so far. */
  lemma RunShownExtends(cfg: Config, bins: BinStep, sampleRate: real, binMagnitude: (seq<real>, nat) -> real,
                        numChannels: nat, channel: nat, d: Display, ch: Channel, xs: seq<real>, i: nat)
    requires ValidConfig(cfg) && StepKeepsLength(bins) && Fits(cfg, ch) && |d.temp| == cfg.size / 2 + 1 && i < |xs|
    ensures RunShown(cfg, bins, sampleRate, binMagnitude, numChannels, channel, d, ch, xs[..i + 1])
         == StepShown(cfg, bins, sampleRate, binMagnitude, numChannels, channel,
                      RunShown(cfg, bins, sampleRate, binMagnitude, numChannels, channel, d, ch, xs[..i]),
                      Run(cfg, bins, sampleRate, ch, xs[..i]).0, xs[i])
  {
    assert xs[..i + 1][..i] == xs[..i];
  }

  /** From empty FIFOs no frame fires during the first FFT_SIZE − 1 samples, so the display
      tables keep what they showed. */
  lemma {:induction false} WarmupShowsNothing(cfg: Config, bins: BinStep, sampleRate: real,
                                              binMagnitude: (seq<real>, nat) -> real, numChannels: nat,
                                              channel: nat, d: Display, ch: Channel, xs: seq<real>)
    requires ValidConfig(cfg) && StepKeepsLength(bins) && Fits(cfg, ch) && |d.temp| == cfg.size / 2 + 1
    requires Empty(ch) && |xs| < cfg.size
    ensures RunShown(cfg, bins, sampleRate, binMagnitude, numChannels, channel, d, ch, xs) == d
    decreases |xs|
  {
    if 0 < |xs| {
      var init := xs[..|xs| - 1];
      WarmupShowsNothing(cfg, bins, sampleRate, binMagnitude, numChannels, channel, d, ch, init);
      WarmupIsSilent(cfg, bins, sampleRate, ch, init);
      assert |Fed(cfg, Run(cfg, bins, sampleRate, ch, init).0, xs[|xs| - 1]).input| == |xs|;
    }
  }

  // ---------------------------------------------------------------------------------------
  // Window compensation (`computeWindowCompensation`, lines 142-175).

  /** Frames summed into the overlap table (line 154). */
  const CompensationFrames: nat := 8

  /** Overlap sums at or below this are treated as silent, giving a compensation of 1
      (lines 169-173). */
  const CompensationFloor: real := 0.000001

  function Ones(n: nat): seq<real>
  {
    seq(n, _ => 1.0)
  }

  /** The window table squared (lines 146-152): analysis and synthesis window together. */
  function SquaredWindow(window: Transform, n: nat): (sq: seq<real>)
    requires KeepsLength(window)
    ensures |sq| == n
    ensures forall i :: 0 <= i < n ==> sq[i] == window(Ones(n))[i] * window(Ones(n))[i]
  {
    var w := window(Ones(n));
    seq(n, i requires 0 <= i < n => w[i] * w[i])
  }

  /** What frame `frame` (placed at `frame * hop`) adds at position `p` of the overlap table. */
  function Contribution(sq: seq<real>, hop: nat, frame: nat, p: nat): real
  {
    var offset := frame * hop;
    if offset <= p < offset + |sq| then sq[p - offset] else 0.0
  }

  /** The overlap table at position `p` after `frames` frames (lines 156-163). */
  function OverlapSum(sq: seq<real>, hop: nat, frames: nat, p: nat): (r: real)
    ensures (forall i :: 0 <= i < |sq| ==> 0.0 <= sq[i]) ==> 0.0 <= r
  {
    if frames == 0 then 0.0
    else OverlapSum(sq, hop, frames - 1, p) + Contribution(sq, hop, frames - 1, p)
  }

  /** One compensation entry from its overlap sum (lines 168-173). */
  function CompensationEntry(sum: real): (c: real)
    ensures 0.0 < c
    ensures CompensationFloor < sum ==> c * sum == 1.0
    ensures sum <= CompensationFloor ==> c == 1.0
  {
    if CompensationFloor < sum then 1.0 / sum else 1.0
  }

  /** The whole table: entry `i` compensates the overlap sum at FFT_SIZE + i (line 165), inside
      the 2·FFT_SIZE-long overlap table. */
  function WindowCompensation(window: Transform, n: nat, hop: nat): (r: seq<real>)
    requires KeepsLength(window)
    ensures |r| == n
    ensures forall i :: 0 <= i < n ==> 0.0 < r[i]
  {
    CompensationTable(SquaredWindow(window, n), hop, n, n)
  }

  /** The first `k` entries of the table for a window of `n` samples whose squares are `sq`. */
  function CompensationTable(sq: seq<real>, hop: nat, n: nat, k: nat): (r: seq<real>)
    ensures |r| == k
    ensures forall i :: 0 <= i < k ==> 0.0 < r[i]
  {
    if k == 0 then [] else CompensationTable(sq, hop, n, k - 1) + [CompensationAt(sq, hop, n + k - 1)]
  }

  lemma {:induction false} CompensationTableAt(sq: seq<real>, hop: nat, n: nat, k: nat, i: nat)
    requires i < k
    ensures CompensationTable(sq, hop, n, k)[i] == CompensationAt(sq, hop, n + i)
    decreases k
  {
    if i < k - 1 {
      CompensationTableAt(sq, hop, n, k - 1, i);
    }
  }

  /** Entry `i` of the table is the compensation for position `n + i`. */
  lemma WindowCompensationAt(window: Transform, n: nat, hop: nat, i: nat)
    requires KeepsLength(window) && i < n
    ensures WindowCompensation(window, n, hop)[i] == CompensationAt(SquaredWindow(window, n), hop, n + i)
  {
    CompensationTableAt(SquaredWindow(window, n), hop, n, n, i);
  }

  /** The compensation entry for position `p` of the overlap table. */
  function CompensationAt(sq: seq<real>, hop: nat, p: nat): (c: real)
    ensures 0.0 < c
    ensures CompensationFloor < OverlapSum(sq, hop, CompensationFrames, p) ==>
      c * OverlapSum(sq, hop, CompensationFrames, p) == 1.0
  {
    CompensationEntry(OverlapSum(sq, hop, CompensationFrames, p))
  }

  /** The four squared-window values that overlap at phase `r` of a hop. */
  function PeriodicSum(sq: seq<real>, hop: nat, r: nat): (s: real)
    requires r < hop && |sq| == 4 * hop
    ensures (forall i :: 0 <= i < |sq| ==> 0.0 <= sq[i]) ==> 0.0 <= s
  {
    sq[r] + sq[r + hop] + sq[r + 2 * hop] + sq[r + 3 * hop]
  }

  /** Eight frames, unrolled. */
  lemma {:induction false} OverlapSumOfEight(sq: seq<real>, hop: nat, p: nat)
    ensures OverlapSum(sq, hop, 8, p)
      == Contribution(sq, hop, 0, p) + Contribution(sq, hop, 1, p) + Contribution(sq, hop, 2, p)
       + Contribution(sq, hop, 3, p) + Contribution(sq, hop, 4, p) + Contribution(sq, hop, 5, p)
       + Contribution(sq, hop, 6, p) + Contribution(sq, hop, 7, p)
  {
    assert OverlapSum(sq, hop, 0, p) == 0.0;
    assert OverlapSum(sq, hop, 1, p) == OverlapSum(sq, hop, 0, p) + Contribution(sq, hop, 0, p);
    assert OverlapSum(sq, hop, 2, p) == OverlapSum(sq, hop, 1, p) + Contribution(sq, hop, 1, p);
    assert OverlapSum(sq, hop, 3, p) == OverlapSum(sq, hop, 2, p) + Contribution(sq, hop, 2, p);
    assert OverlapSum(sq, hop, 4, p) == OverlapSum(sq, hop, 3, p) + Contribution(sq, hop, 3, p);
    assert OverlapSum(sq, hop, 5, p) == OverlapSum(sq, hop, 4, p) + Contribution(sq, hop, 4, p);
    assert OverlapSum(sq, hop, 6, p) == OverlapSum(sq, hop, 5, p) + Contribution(sq, hop, 5, p);
    assert OverlapSum(sq, hop, 7, p) == OverlapSum(sq, hop, 6, p) + Contribution(sq, hop, 6, p);
  }

  /** With hop = FFT_SIZE / 4, the sum at FFT_SIZE + q·hop + r is the full four-way overlap at
      phase r: the eight frames reach steady state over the second half of the table. */
  lemma SteadyStateSum(sq: seq<real>, hop: nat, q: nat, r: nat)
    requires |sq| == 4 * hop && q < 4 && r < hop
    ensures OverlapSum(sq, hop, CompensationFrames, 4 * hop + q * hop + r) == PeriodicSum(sq, hop, r)
  {
    var p := 4 * hop + q * hop + r;
    OverlapSumOfEight(sq, hop, p);
    if q == 0 {
      assert p == 4 * hop + r;
    } else if q == 1 {
      assert p == 5 * hop + r;
    } else if q == 2 {
      assert p == 6 * hop + r;
    } else {
      assert p == 7 * hop + r;
    }
  }

  /** More than eight frames would change nothing inside the 2·FFT_SIZE table: frames from
      the eighth on start beyond it. */
  lemma {:induction false} EightFramesSuffice(sq: seq<real>, hop: nat, frames: nat, p: nat)
    requires |sq| == 4 * hop && CompensationFrames <= frames && p < 8 * hop
    ensures OverlapSum(sq, hop, frames, p) == OverlapSum(sq, hop, CompensationFrames, p)
    decreases frames
  {
    if frames > CompensationFrames {
      EightFramesSuffice(sq, hop, frames - 1, p);
      var extra: nat := frames - 1 - 8;
      assert (frames - 1) * hop == 8 * hop + extra * hop;
      assert Contribution(sq, hop, frames - 1, p) == 0.0;
    }
  }

  /** The table has period hop, and where the overlap is audible it exactly undoes the
      four-way overlap of the squared window: compensated, the overlapping frames add to 1. */
  lemma CompensationNormalisesOverlap(window: Transform, hop: nat, q: nat, r: nat)
    requires KeepsLength(window) && q < 4 && r < hop
    ensures var sq := SquaredWindow(window, 4 * hop);
      var c := WindowCompensation(window, 4 * hop, hop)[q * hop + r];
      && c == CompensationEntry(PeriodicSum(sq, hop, r))
      && (CompensationFloor < PeriodicSum(sq, hop, r) ==> c * PeriodicSum(sq, hop, r) == 1.0)
  {
    var sq := SquaredWindow(window, 4 * hop);
    assert q * hop + r < 4 * hop by {
      assert q * hop <= 3 * hop;
    }
    SteadyStateSum(sq, hop, q, r);
    WindowCompensationAt(window, 4 * hop, hop, q * hop + r);
  }

  // ---------------------------------------------------------------------------------------
  // The processor object.

  /** A power of two of at least 4 splits into four hops exactly. */
  lemma PowerOfTwoSplitsInFour(n: nat)
    requires IsPowerOfTwo(n) && 4 <= n
    ensures n == 4 * (n / 4)
  {
    assert IsPowerOfTwo(n / 2) && n / 2 != 1;
  }

  /** `SpectralVisualizer::processFFTBins` (source/DSP/SpectralVisualizer.h:14): leaves the
      spectrum as it is. */
  function VisualizerBins(): (step: BinStep)
    ensures StepKeepsLength(step)
    ensures forall sampleRate, s :: step(sampleRate, s) == s
  {
    (sampleRate: real, s: seq<real>) => s
  }

  /** `tempWindow[i] *= tempWindow[i]` over the whole table (lines 150-151). */
  method SquareInPlace(a: array<real>)
    modifies a
    ensures forall k :: 0 <= k < a.Length ==> a[k] == old(a[k]) * old(a[k])
  {
    for i := 0 to a.Length
      invariant forall k :: 0 <= k < i ==> a[k] == old(a[k]) * old(a[k])
      invariant forall k :: i <= k < a.Length ==> a[k] == old(a[k])
    {
      a[i] := a[i] * a[i];
    }
  }

  /** One frame of the overlap loop (lines 158-162): the squared window added at `offset`,
      the part past the end of the table dropped. */
  method AddFrame(overlapSum: array<real>, sq: array<real>, offset: nat)
    requires overlapSum != sq
    modifies overlapSum
    ensures forall p :: 0 <= p < overlapSum.Length ==>
      overlapSum[p] == old(overlapSum[p]) + (if offset <= p < offset + sq.Length then sq[p - offset] else 0.0)
  {
    for i := 0 to sq.Length
      invariant forall p :: 0 <= p < overlapSum.Length ==>
        overlapSum[p] == old(overlapSum[p]) + (if offset <= p < offset + i then sq[p - offset] else 0.0)
    {
      if offset + i < overlapSum.Length {
        overlapSum[offset + i] := overlapSum[offset + i] + sq[i];
      }
    }
  }

  /** The eight-frame overlap loop (lines 154-163) over a zeroed table. */
  method AccumulateFrames(overlapSum: array<real>, tempWindow: array<real>, hop: nat)
    requires overlapSum != tempWindow
    requires forall p :: 0 <= p < overlapSum.Length ==> overlapSum[p] == 0.0
    modifies overlapSum
    ensures forall p :: 0 <= p < overlapSum.Length ==>
      overlapSum[p] == OverlapSum(tempWindow[..], hop, CompensationFrames, p)
  {
    for frame := 0 to CompensationFrames
      invariant forall p :: 0 <= p < overlapSum.Length ==>
        overlapSum[p] == OverlapSum(tempWindow[..], hop, frame, p)
    {
      AddFrame(overlapSum, tempWindow, frame * hop);
    }
  }

  /** Lines 165-174: entry `i` from the overlap sum at `n + i`. */
  method FillCompensation(windowCompensation: array<real>, overlapSum: array<real>)
    requires 2 * windowCompensation.Length == overlapSum.Length && windowCompensation != overlapSum
    modifies windowCompensation
    ensures forall k :: 0 <= k < windowCompensation.Length ==>
      windowCompensation[k] == CompensationEntry(overlapSum[windowCompensation.Length + k])
  {
    var steadyStateStart := windowCompensation.Length;
    for i := 0 to windowCompensation.Length
      invariant forall k :: 0 <= k < i ==>
        windowCompensation[k] == CompensationEntry(overlapSum[steadyStateStart + k])
    {
      var sum := overlapSum[steadyStateStart + i];
      if CompensationFloor < sum {
        windowCompensation[i] := 1.0 / sum;
      } else {
        windowCompensation[i] := 1.0;
      }
    }
  }

  /** `computeWindowCompensation` (lines 142-175), filling `windowCompensation` for a window
      of `n` samples and the given hop. */
  method ComputeWindowCompensation(window: Transform, n: nat, hopSize: nat, windowCompensation: array<real>)
    requires KeepsLength(window) && windowCompensation.Length == n
    modifies windowCompensation
    ensures windowCompensation[..] == WindowCompensation(window, n, hopSize)
  {
    var overlapSum := new real[2 * n](_ => 0.0);
    var tempWindow := new real[n](_ => 1.0);
    assert tempWindow[..] == Ones(n);
    assert Ones(n)[..n] == Ones(n) && Ones(n)[n..] == [];
    ApplyWindow(tempWindow, window, n);
    ghost var w := window(Ones(n));
    assert tempWindow[..] == w + [];
    assert forall k :: 0 <= k < n ==> tempWindow[k] == w[k];
    SquareInPlace(tempWindow);
    ghost var sq := SquaredWindow(window, n);
    assert forall k :: 0 <= k < n ==> tempWindow[k] == sq[k];
    assert tempWindow[..] == sq;
    AccumulateFrames(overlapSum, tempWindow, hopSize);
    FillCompensation(windowCompensation, overlapSum);
    forall k | 0 <= k < n
      ensures windowCompensation[k] == WindowCompensation(window, n, hopSize)[k]
    {
      WindowCompensationAt(window, n, hopSize, k);
      assert windowCompensation[k] == CompensationEntry(OverlapSum(sq, hopSize, CompensationFrames, n + k));
    }
  }

  /** Lines 80-87 on one channel's storage: the work buffer ends up holding the processed
      spectrum of the oldest FFT_SIZE queued samples; the FIFO is only read. */
  method Analyse(cfg: Config, bins: BinStep, sampleRate: real, inFifo: CircularBuffer, fftBuffer: array<real>)
    requires ValidConfig(cfg) && StepKeepsLength(bins) && inFifo.Valid()
    requires cfg.size <= |inFifo.Contents| && fftBuffer.Length == 2 * cfg.size && fftBuffer != inFifo.buffer
    modifies fftBuffer
    ensures fftBuffer[..] == Spectrum(cfg, bins, sampleRate, inFifo.Contents)
  {
    var n := cfg.size;
    FillZero(fftBuffer);
    CopyFromFifo(fftBuffer, inFifo, n);
    assert Zeros(2 * n)[n..] == Zeros(n);
    ApplyWindow(fftBuffer, cfg.window, n);
    ApplyTransform(fftBuffer, cfg.forward);
    ApplyBinStep(fftBuffer, bins, sampleRate);
  }

  /** Lines 89-105 on one channel's storage, starting from the processed spectrum in the work
      buffer. */
  method Synthesise(cfg: Config, compensation: array<real>,
                    inFifo: CircularBuffer, outFifo: CircularBuffer, olaBuffer: array<real>, fftBuffer: array<real>)
    requires ValidConfig(cfg) && compensation[..] == cfg.compensation
    requires inFifo.Valid() && outFifo.Valid() && inFifo.capacity == 2 * cfg.size && outFifo.capacity == 2 * cfg.size
    requires olaBuffer.Length == cfg.size && fftBuffer.Length == 2 * cfg.size
    requires inFifo != outFifo && inFifo.buffer != outFifo.buffer && olaBuffer != fftBuffer
    requires olaBuffer != inFifo.buffer && olaBuffer != outFifo.buffer
    requires fftBuffer != inFifo.buffer && fftBuffer != outFifo.buffer
    requires compensation != fftBuffer && compensation != olaBuffer
    requires compensation != inFifo.buffer && compensation != outFifo.buffer
    modifies inFifo, outFifo, outFifo.buffer, olaBuffer, fftBuffer
    ensures inFifo.Valid() && outFifo.Valid()
    ensures View(inFifo, outFifo, olaBuffer, fftBuffer) ==
      Emitted(cfg, old(View(inFifo, outFifo, olaBuffer, fftBuffer)),
              OverlapAdded(Resynthesised(cfg, old(fftBuffer[..])), old(olaBuffer[..])))
  {
    var n := cfg.size;
    ApplyTransform(fftBuffer, cfg.inverse);
    ApplyWindow(fftBuffer, cfg.window, n);
    MultiplyPrefix(fftBuffer, compensation);
    AddPrefix(fftBuffer, olaBuffer);
    PushPrefix(outFifo, fftBuffer, cfg.hop);
    ShiftOla(olaBuffer, fftBuffer, cfg.hop);
    PopN(inFifo, cfg.hop);
  }

  class FFTProcessor {
    /** FFT_SIZE */
    const fftSize: nat
    /** NUM_CHANNELS */
    const numChannels: nat
    const hopSize: nat
    /** The Blackman-Harris windowing table and the forward and inverse real-only FFT. */
    const window: Transform
    const forward: Transform
    const inverse: Transform
    /** The display value of bin `i` of a processed spectrum (lines 116-124). */
    const binMagnitude: (seq<real>, nat) -> real
    const windowCompensation: array<real>
    const inputFifos: seq<CircularBuffer>
    const outputFifos: seq<CircularBuffer>
    const olaBuffers: seq<array<real>>
    const fftBuffers: seq<array<real>>
    const magnitudes: array<real>
    const tempMagnitudes: array<real>
    var sampleRate: real
    /** The role of every object the audio path may change; the compensation table is not
        among them. */
    ghost const Owner: map<object, Role>
    ghost const Repr: set<object>

    /** The layout fixed at construction. */
    ghost predicate Shape()
    {
      && IsPowerOfTwo(fftSize) && 64 <= fftSize && fftSize == 4 * hopSize
      && 0 < numChannels <= 8 && |inputFifos| == numChannels
      && KeepsLength(window) && KeepsLength(forward) && KeepsLength(inverse)
      && FifosOwned(inputFifos, outputFifos, fftSize, Owner)
      && |olaBuffers| == numChannels && ArraysOwned(olaBuffers, fftBuffers, fftSize, Owner)
      && windowCompensation.Length == fftSize
      && magnitudes.Length == fftSize / 2 + 1 && tempMagnitudes.Length == fftSize / 2 + 1
      && magnitudes in Owner && Owner[magnitudes] == MagnitudeTable
      && tempMagnitudes in Owner && Owner[tempMagnitudes] == ScratchTable
      && windowCompensation !in Owner
      && Repr == Owner.Keys && this !in Repr && StorageOnly(Owner)
    }

    ghost function Parts(c: nat): set<object>
      requires Shape() && c < numChannels
    {
      {inputFifos[c], inputFifos[c].buffer, outputFifos[c], outputFifos[c].buffer, olaBuffers[c], fftBuffers[c]}
    }

    /** Both FIFOs of channel `c` keep their ring-buffer invariant. */
    ghost predicate ChannelValid(c: nat)
      requires Shape() && c < numChannels
      reads inputFifos[c], inputFifos[c].buffer, outputFifos[c], outputFifos[c].buffer
    {
      inputFifos[c].Valid() && outputFifos[c].Valid()
    }

    ghost predicate Valid()
      reads this, Repr
    {
      Shape() && forall c :: 0 <= c < numChannels ==> ChannelValid(c)
    }

    /** Channel `c` as a value. */
    ghost function ChannelAt(c: nat): (ch: Channel)
      requires Shape() && c < numChannels && ChannelValid(c)
      reads inputFifos[c], inputFifos[c].buffer, outputFifos[c], outputFifos[c].buffer, olaBuffers[c], fftBuffers[c]
      ensures |ch.input| <= 2 * fftSize && |ch.output| <= 2 * fftSize
      ensures |ch.ola| == fftSize && |ch.fft| == 2 * fftSize
    {
      View(inputFifos[c], outputFifos[c], olaBuffers[c], fftBuffers[c])
    }

    function Cfg(): Config
      reads windowCompensation
    {
      Config(fftSize, hopSize, window, forward, inverse, windowCompensation[..])
    }

    ghost function Displayed(): Display
      reads tempMagnitudes, magnitudes
    {
      Display(tempMagnitudes[..], magnitudes[..])
    }

    /** Every channel as a value. */
    ghost function Channels(): (chans: seq<Channel>)
      requires Valid()
      reads this, Repr
      ensures |chans| == numChannels && forall c :: 0 <= c < numChannels ==> chans[c] == ChannelAt(c)
    {
      seq(numChannels, c requires 0 <= c < numChannels && Valid() reads this, Repr => ChannelAt(c))
    }

    /** When only channel `channel` and the display tables changed, and that channel's FIFOs
        are still valid, the processor is valid and every other channel is as it was. */
    twostate lemma OthersKept(channel: nat)
      requires old(Valid()) && channel < numChannels
      requires unchanged(Repr - Parts(channel) - {magnitudes, tempMagnitudes})
      requires ChannelValid(channel)
      ensures Valid()
      ensures forall c :: 0 <= c < numChannels && c != channel ==> ChannelAt(c) == old(ChannelAt(c))
    {
      forall c | 0 <= c < numChannels && c != channel
        ensures ChannelValid(c) && ChannelAt(c) == old(ChannelAt(c))
      {
        assert Parts(c) !! Parts(channel);
        assert unchanged(Parts(c));
        assert old(ChannelValid(c));
      }
    }

    /** The constructor (lines 14-23): hop FFT_SIZE / 4, sample rate 44100 until `prepareToPlay`,
        empty FIFOs and the compensation table computed from the window. The accumulators and
        work buffers hold whatever they hold until `prepareToPlay` zeroes them. */
    constructor (fftSize: nat, numChannels: nat, window: Transform, forward: Transform,
                 inverse: Transform, binMagnitude: (seq<real>, nat) -> real)
      requires IsPowerOfTwo(fftSize) && 64 <= fftSize && 0 < numChannels <= 8
      requires KeepsLength(window) && KeepsLength(forward) && KeepsLength(inverse)
      ensures Valid() && fresh(Repr) && fresh(windowCompensation)
      ensures this.fftSize == fftSize && this.numChannels == numChannels && hopSize == fftSize / 4
      ensures this.window == window && this.forward == forward && this.inverse == inverse
      ensures this.binMagnitude == binMagnitude && sampleRate == 44100.0
      ensures windowCompensation[..] == WindowCompensation(window, fftSize, fftSize / 4)
      ensures forall c :: 0 <= c < numChannels ==> inputFifos[c].Contents == [] && outputFifos[c].Contents == []
    {
      PowerOfTwoSplitsInFour(fftSize);
      this.fftSize := fftSize;
      this.numChannels := numChannels;
      hopSize := fftSize / 4;
      this.window, this.forward, this.inverse := window, forward, inverse;
      this.binMagnitude := binMagnitude;
      var compensation := new real[fftSize];
      ComputeWindowCompensation(window, fftSize, fftSize / 4, compensation);
      windowCompensation := compensation;
      var mags := new real[fftSize / 2 + 1];
      var temp := new real[fftSize / 2 + 1];
      magnitudes, tempMagnitudes := mags, temp;
      var ins, outs, olas, ffts, roles := AllocateChannels(numChannels, fftSize, map[mags := MagnitudeTable, temp := ScratchTable]);
      inputFifos, outputFifos, olaBuffers, fftBuffers := ins, outs, olas, ffts;
      sampleRate := 44100.0;
      assert compensation !in roles;
      Owner, Repr := roles, roles.Keys;
      new;
      assert Shape();
      forall c | 0 <= c < numChannels
        ensures ChannelValid(c) && inputFifos[c].Contents == [] && outputFifos[c].Contents == []
      {
        assert ins[c].Valid() && outs[c].Valid();
      }
    }

    /** `prepareToPlay` (lines 27-42): zeroes every accumulator, work buffer and the display
        magnitudes, empties every FIFO and stores the sample rate. The scratch table
        `tempMagnitudes` and the compensation table are left as they are. */
    method PrepareToPlay(newSampleRate: real)
      requires Valid()
      modifies this, Repr
      ensures Valid()
      ensures forall c :: 0 <= c < numChannels ==>
        ChannelAt(c) == Channel([], [], Zeros(fftSize), Zeros(2 * fftSize))
      ensures Displayed() == old(Displayed()).(magnitudes := Zeros(fftSize / 2 + 1))
      ensures sampleRate == newSampleRate && Cfg() == old(Cfg())
    {
      ZeroAccumulators();
      ZeroWorkBuffers();
      ClearInputs();
      ClearOutputs();
      ZeroMagnitudes();
      sampleRate := newSampleRate;
    }

    /** Line 40: `magnitudes.fill(0)`; no channel changes. */
    method ZeroMagnitudes()
      requires Valid()
      modifies magnitudes
      ensures Valid() && Displayed() == old(Displayed()).(magnitudes := Zeros(fftSize / 2 + 1))
      ensures forall c :: 0 <= c < numChannels ==> ChannelAt(c) == old(ChannelAt(c))
    {
      FillZero(magnitudes);
      forall c | 0 <= c < numChannels
        ensures ChannelValid(c) && ChannelAt(c) == old(ChannelAt(c))
      {
        assert old(ChannelValid(c)) && magnitudes !in Parts(c);
      }
    }

    /** Lines 28-29: every `olaBuffers[c].fill(0)`. */
    method ZeroAccumulators()
      requires Valid()
      modifies Repr
      ensures Valid() && Displayed() == old(Displayed())
      ensures forall c :: 0 <= c < numChannels ==> ChannelAt(c) == old(ChannelAt(c)).(ola := Zeros(fftSize))
    {
      for c := 0 to numChannels
        invariant Valid() && Displayed() == old(Displayed())
        invariant forall k :: 0 <= k < c ==> ChannelAt(k) == old(ChannelAt(k)).(ola := Zeros(fftSize))
        invariant forall k :: c <= k < numChannels ==> ChannelAt(k) == old(ChannelAt(k))
      {
        assert ChannelValid(c) && olaBuffers[c] in Parts(c);
        label L:
        FillZero(olaBuffers[c]);
        OthersKept@L(c);
      }
    }

    /** Lines 31-32: every `fftBuffers[c].fill(0)`. */
    method ZeroWorkBuffers()
      requires Valid()
      modifies Repr
      ensures Valid() && Displayed() == old(Displayed())
      ensures forall c :: 0 <= c < numChannels ==> ChannelAt(c) == old(ChannelAt(c)).(fft := Zeros(2 * fftSize))
    {
      for c := 0 to numChannels
        invariant Valid() && Displayed() == old(Displayed())
        invariant forall k :: 0 <= k < c ==> ChannelAt(k) == old(ChannelAt(k)).(fft := Zeros(2 * fftSize))
        invariant forall k :: c <= k < numChannels ==> ChannelAt(k) == old(ChannelAt(k))
      {
        assert ChannelValid(c) && fftBuffers[c] in Parts(c);
        label L:
        FillZero(fftBuffers[c]);
        OthersKept@L(c);
      }
    }

    /** Lines 34-35: every `inputFifos[c].clear()`. */
    method ClearInputs()
      requires Valid()
      modifies Repr
      ensures Valid() && Displayed() == old(Displayed())
      ensures forall c :: 0 <= c < numChannels ==> ChannelAt(c) == old(ChannelAt(c)).(input := [])
    {
      for c := 0 to numChannels
        invariant Valid() && Displayed() == old(Displayed())
        invariant forall k :: 0 <= k < c ==> ChannelAt(k) == old(ChannelAt(k)).(input := [])
        invariant forall k :: c <= k < numChannels ==> ChannelAt(k) == old(ChannelAt(k))
      {
        assert ChannelValid(c) && inputFifos[c] in Parts(c);
        label L:
        inputFifos[c].Clear();
        OthersKept@L(c);
      }
    }

    /** Lines 37-38: every `outputFifos[c].clear()`. */
    method ClearOutputs()
      requires Valid()
      modifies Repr
      ensures Valid() && Displayed() == old(Displayed())
      ensures forall c :: 0 <= c < numChannels ==> ChannelAt(c) == old(ChannelAt(c)).(output := [])
    {
      for c := 0 to numChannels
        invariant Valid() && Displayed() == old(Displayed())
        invariant forall k :: 0 <= k < c ==> ChannelAt(k) == old(ChannelAt(k)).(output := [])
        invariant forall k :: c <= k < numChannels ==> ChannelAt(k) == old(ChannelAt(k))
      {
        assert ChannelValid(c) && outputFifos[c] in Parts(c);
        label L:
        outputFifos[c].Clear();
        OthersKept@L(c);
      }
    }

    /** `storeMagnitudes(fftBuffer, channel)` (lines 108-140), display scaling left abstract. */
    method StoreMagnitudes(spectrum: array<real>, channel: nat)
      requires Shape() && spectrum != magnitudes && spectrum != tempMagnitudes
      modifies magnitudes, tempMagnitudes
      ensures Displayed() == StoredMagnitudes(numChannels, channel, old(Displayed()),
                                              BinValues(binMagnitude, spectrum[..], fftSize))
    {
      assert magnitudes != tempMagnitudes;
      ghost var d0 := Displayed();
      ghost var values := BinValues(binMagnitude, spectrum[..], fftSize);
      for i := 0 to fftSize / 2 + 1
        invariant forall k :: 0 <= k < i ==> tempMagnitudes[k] == (if channel == 0 then values[k] else d0.temp[k])
        invariant forall k :: i <= k < tempMagnitudes.Length ==> tempMagnitudes[k] == d0.temp[k]
        invariant forall k :: 0 <= k < i ==>
          magnitudes[k] == (if channel != 0 && 1 < numChannels then d0.temp[k] + values[k] else d0.magnitudes[k])
        invariant forall k :: i <= k < magnitudes.Length ==> magnitudes[k] == d0.magnitudes[k]
      {
        var mag := binMagnitude(spectrum[..], i);
        if channel == 0 {
          tempMagnitudes[i] := mag;
        } else if 1 < numChannels {
          magnitudes[i] := tempMagnitudes[i] + mag;
        }
      }
      if channel == 0 && numChannels == 1 {
        assert tempMagnitudes[..] == values;
        forall k | 0 <= k < magnitudes.Length {
          magnitudes[k] := tempMagnitudes[k];
        }
        assert magnitudes[..] == values && tempMagnitudes[..] == values;
      }
      ghost var e := StoredMagnitudes(numChannels, channel, d0, values);
      assert tempMagnitudes[..] == e.temp;
      assert magnitudes[..] == e.magnitudes;
      assert Displayed() == e;
      assert spectrum[..] == old(spectrum[..]);
      assert values == BinValues(binMagnitude, spectrum[..], fftSize);
    }

    /** `computeFFT(channel)` (lines 70-106). `bins` is the subclass's `processFFTBins`. */
    method ComputeFFT(channel: nat, bins: BinStep)
      requires Valid() && channel < numChannels && ChannelValid(channel) && StepKeepsLength(bins)
      modifies Parts(channel), magnitudes, tempMagnitudes
      ensures Valid()
      ensures ChannelAt(channel) == Attempt(Cfg(), bins, sampleRate, old(ChannelAt(channel)))
      ensures forall c :: 0 <= c < numChannels && c != channel ==> ChannelAt(c) == old(ChannelAt(c))
      ensures Displayed() ==
        if |old(ChannelAt(channel)).input| < fftSize then old(Displayed())
        else StoredMagnitudes(numChannels, channel, old(Displayed()),
               BinValues(binMagnitude, Spectrum(Cfg(), bins, sampleRate, old(ChannelAt(channel)).input), fftSize))
    {
      if inputFifos[channel].Size() < fftSize {
        return;
      }
      var inFifo, outFifo := inputFifos[channel], outputFifos[channel];
      var fftBuffer, olaBuffer := fftBuffers[channel], olaBuffers[channel];
      Analyse(Cfg(), bins, sampleRate, inFifo, fftBuffer);
      StoreMagnitudes(fftBuffer, channel);
      Synthesise(Cfg(), windowCompensation, inFifo, outFifo, olaBuffer, fftBuffer);
      OthersKept(channel);
    }

    /** One iteration of the inner loop of `processBlock` (lines 54-56). */
    method ProcessSample(channel: nat, x: real, bins: BinStep) returns (y: real)
      requires Valid() && channel < numChannels && ChannelValid(channel) && StepKeepsLength(bins)
      modifies Parts(channel), magnitudes, tempMagnitudes
      ensures Valid()
      ensures (ChannelAt(channel), y) == Step(Cfg(), bins, sampleRate, old(ChannelAt(channel)), x)
      ensures forall c :: 0 <= c < numChannels && c != channel ==> ChannelAt(c) == old(ChannelAt(c))
      ensures Displayed() == StepShown(Cfg(), bins, sampleRate, binMagnitude, numChannels, channel,
                                       old(Displayed()), old(ChannelAt(channel)), x)
    {
      inputFifos[channel].Push(x);
      OthersKept(channel);
      assert ChannelValid(channel);
      ComputeFFT(channel, bins);
      assert ChannelValid(channel);
      label Computed:
      y := outputFifos[channel].Pop();
      OthersKept@Computed(channel);
    }

    /** `processBlock` (lines 44-59): every channel of the host buffer, which may have no more
        channels than the processor (line 48), runs through its own FIFOs independently. */
    method ProcessBlock(buffer: array2<real>, bins: BinStep)
      requires Valid() && StepKeepsLength(bins) && buffer.Length0 <= numChannels
      modifies Repr, buffer
      ensures Valid()
      ensures forall c :: 0 <= c < buffer.Length0 ==>
        var r := Run(Cfg(), bins, sampleRate, old(ChannelAt(c)), old(Row(buffer, c)));
        && ChannelAt(c) == r.0
        && forall j :: 0 <= j < buffer.Length1 ==> buffer[c, j] == r.1[j]
      ensures forall c :: buffer.Length0 <= c < numChannels ==> ChannelAt(c) == old(ChannelAt(c))
      ensures Displayed() == BlockShown(Cfg(), bins, sampleRate, binMagnitude, numChannels, old(Displayed()),
                                        old(Channels()), old(Rows(buffer)), buffer.Length0)
    {
      ghost var cfg := Cfg();
      ghost var d0, chans, rows := Displayed(), Channels(), Rows(buffer);
      assert AllFit(cfg, chans);
      for ch := 0 to buffer.Length0
        invariant Valid() && Cfg() == cfg && sampleRate == old(sampleRate)
        invariant Displayed() == BlockShown(cfg, bins, sampleRate, binMagnitude, numChannels, d0, chans, rows, ch)
        invariant forall c :: 0 <= c < ch ==>
          var r := Run(cfg, bins, sampleRate, old(ChannelAt(c)), old(Row(buffer, c)));
          && ChannelAt(c) == r.0
          && forall j :: 0 <= j < buffer.Length1 ==> buffer[c, j] == r.1[j]
        invariant forall c :: ch <= c < numChannels ==> ChannelAt(c) == old(ChannelAt(c))
        invariant forall c, j :: ch <= c < buffer.Length0 && 0 <= j < buffer.Length1 ==>
          buffer[c, j] == old(buffer[c, j])
      {
        assert Row(buffer, ch) == old(Row(buffer, ch));
        ProcessBlockRow(buffer, ch, bins, d0, chans, rows);
      }
    }

    /** One pass of the loop at lines 48-58: row `ch` runs through its channel, and the display
        tables move on by that row. */
    method ProcessBlockRow(buffer: array2<real>, ch: nat, bins: BinStep, ghost d0: Display,
                           ghost chans: seq<Channel>, ghost rows: seq<seq<real>>)
      requires Valid() && StepKeepsLength(bins) && ch < buffer.Length0 <= numChannels
      requires AllFit(Cfg(), chans) && ch < |chans| && ch < |rows| && |d0.temp| == Cfg().size / 2 + 1
      requires ChannelAt(ch) == chans[ch] && Row(buffer, ch) == rows[ch]
      requires Displayed() == BlockShown(Cfg(), bins, sampleRate, binMagnitude, numChannels, d0, chans, rows, ch)
      modifies Repr, buffer
      ensures Valid() && Cfg() == old(Cfg()) && sampleRate == old(sampleRate)
      ensures var r := Run(Cfg(), bins, sampleRate, old(ChannelAt(ch)), old(Row(buffer, ch)));
        && ChannelAt(ch) == r.0
        && forall j :: 0 <= j < buffer.Length1 ==> buffer[ch, j] == r.1[j]
      ensures Displayed() == BlockShown(Cfg(), bins, sampleRate, binMagnitude, numChannels, d0, chans, rows, ch + 1)
      ensures forall c :: 0 <= c < numChannels && c != ch ==> ChannelAt(c) == old(ChannelAt(c))
      ensures forall c, j :: 0 <= c < buffer.Length0 && c != ch && 0 <= j < buffer.Length1 ==>
        buffer[c, j] == old(buffer[c, j])
    {
      ghost var cfg, shown, start := Cfg(), Displayed(), ChannelAt(ch);
      ProcessRow(buffer, ch, bins);
      BlockShownNext(cfg, bins, sampleRate, binMagnitude, numChannels, d0, chans, rows, ch, shown, start);
    }

    /** Lines 50-57 for one channel: each sample of the row is replaced by what the channel's
        processing returns for it. */
    method ProcessRow(buffer: array2<real>, ch: nat, bins: BinStep)
      requires Valid() && StepKeepsLength(bins) && ch < buffer.Length0 && ch < numChannels
      modifies Repr, buffer
      ensures Valid()
      ensures var r := Run(Cfg(), bins, sampleRate, old(ChannelAt(ch)), old(Row(buffer, ch)));
        && ChannelAt(ch) == r.0
        && forall j :: 0 <= j < buffer.Length1 ==> buffer[ch, j] == r.1[j]
      ensures Displayed() == RunShown(Cfg(), bins, sampleRate, binMagnitude, numChannels, ch,
                                      old(Displayed()), old(ChannelAt(ch)), old(Row(buffer, ch)))
      ensures forall c :: 0 <= c < numChannels && c != ch ==> ChannelAt(c) == old(ChannelAt(c))
      ensures forall c, j :: 0 <= c < buffer.Length0 && c != ch && 0 <= j < buffer.Length1 ==>
        buffer[c, j] == old(buffer[c, j])
    {
      ghost var input := Row(buffer, ch);
      ghost var start := ChannelAt(ch);
      ghost var cfg := Cfg();
      ghost var outs: seq<real> := [];
      ghost var d0 := Displayed();
      for i := 0 to buffer.Length1
        invariant Valid() && Cfg() == cfg
        invariant (ChannelAt(ch), outs) == Run(cfg, bins, sampleRate, start, input[..i])
        invariant Displayed() == RunShown(cfg, bins, sampleRate, binMagnitude, numChannels, ch, d0, start, input[..i])
        invariant forall c :: 0 <= c < numChannels && c != ch ==> ChannelAt(c) == old(ChannelAt(c))
        invariant forall c, j :: 0 <= c < buffer.Length0 && c != ch && 0 <= j < buffer.Length1 ==>
          buffer[c, j] == old(buffer[c, j])
        invariant forall j :: 0 <= j < i ==> buffer[ch, j] == outs[j]
        invariant forall j :: i <= j < buffer.Length1 ==> buffer[ch, j] == input[j]
      {
        outs := ProcessRowCell(buffer, ch, i, bins, start, input, d0, outs);
      }
      assert input[..buffer.Length1] == input;
    }

    /** One pass of the loop at lines 53-56: sample `i` of row `ch` is processed, and the
        channel and the display tables move on by that sample. */
    method ProcessRowCell(buffer: array2<real>, ch: nat, i: nat, bins: BinStep, ghost start: Channel,
                          ghost input: seq<real>, ghost d0: Display, ghost outs: seq<real>)
      returns (ghost outs': seq<real>)
      requires Valid() && StepKeepsLength(bins) && ch < buffer.Length0 && ch < numChannels && i < buffer.Length1
      requires Fits(Cfg(), start) && i < |input| && buffer[ch, i] == input[i] && |d0.temp| == Cfg().size / 2 + 1
      requires (ChannelAt(ch), outs) == Run(Cfg(), bins, sampleRate, start, input[..i])
      requires Displayed() == RunShown(Cfg(), bins, sampleRate, binMagnitude, numChannels, ch, d0, start, input[..i])
      modifies Repr, buffer
      ensures Valid() && Cfg() == old(Cfg()) && sampleRate == old(sampleRate)
      ensures (ChannelAt(ch), outs') == Run(Cfg(), bins, sampleRate, start, input[..i + 1])
      ensures outs' == outs + [buffer[ch, i]]
      ensures Displayed() == RunShown(Cfg(), bins, sampleRate, binMagnitude, numChannels, ch, d0, start, input[..i + 1])
      ensures forall c :: 0 <= c < numChannels && c != ch ==> ChannelAt(c) == old(ChannelAt(c))
      ensures forall c, j :: 0 <= c < buffer.Length0 && 0 <= j < buffer.Length1 && (c != ch || j != i) ==>
        buffer[c, j] == old(buffer[c, j])
    {
      ghost var cfg, state, shown := Cfg(), ChannelAt(ch), Displayed();
      ProcessCell(buffer, ch, i, bins);
      RunExtends(cfg, bins, sampleRate, start, input, i, state, outs, ChannelAt(ch), buffer[ch, i]);
      RunShownExtends(cfg, bins, sampleRate, binMagnitude, numChannels, ch, d0, start, input, i);
      outs' := outs + [buffer[ch, i]];
    }

    /** Line 55 in place: sample `i` of row `ch` replaced by what the channel returns for it. */
    method ProcessCell(buffer: array2<real>, ch: nat, i: nat, bins: BinStep)
      requires Valid() && StepKeepsLength(bins) && ch < buffer.Length0 && ch < numChannels && i < buffer.Length1
      modifies Repr, buffer
      ensures Valid() && Cfg() == old(Cfg())
      ensures (ChannelAt(ch), buffer[ch, i]) == Step(Cfg(), bins, sampleRate, old(ChannelAt(ch)), old(buffer[ch, i]))
      ensures forall c :: 0 <= c < numChannels && c != ch ==> ChannelAt(c) == old(ChannelAt(c))
      ensures Displayed() == StepShown(Cfg(), bins, sampleRate, binMagnitude, numChannels, ch,
                                       old(Displayed()), old(ChannelAt(ch)), old(buffer[ch, i]))
      ensures forall c, j :: 0 <= c < buffer.Length0 && 0 <= j < buffer.Length1 && (c != ch || j != i) ==>
        buffer[c, j] == old(buffer[c, j])
    {
      assert ChannelValid(ch);
      var y := ProcessSample(ch, buffer[ch, i], bins);
      buffer[ch, i] := y;
    }
  }
}
