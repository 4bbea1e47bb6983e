# Spectrix spectral pipeline, modelled in Dafny

Spectrix is a JUCE audio plugin for spectral dynamics. Its signal path is a sample-by-sample
short-time Fourier transform with overlap-add. Each incoming sample is pushed into a per-channel
input FIFO. Once `FFT_SIZE` samples are queued, a frame fires:

- the oldest `FFT_SIZE` samples are copied into a work buffer, windowed and transformed;
- the spectrum is handed to a per-bin processing step;
- the spectrum is inverse-transformed and added to an overlap-add accumulator;
- `hopSize` samples are pushed to an output FIFO and `hopSize` samples are dropped from the input.

The sample returned to the host is popped from the output FIFO, or 0 while that FIFO is still
empty.

The repository carries this pipeline in three revisions, and the project models all three:

| Revision | File | Module | What is particular to it |
|---|---|---|---|
| A | `source/DSP/FFTProcessor.h` | `FFTProcessors` | Window compensation table, synthesis window, a hop of `FFT_SIZE / 4`, and the magnitudes shown by the visualiser |
| B | `source/DSP/SpectralProcessors.h` | `SpectralProcessors` | Hann window, a hop of `FFT_SIZE / 2`, no compensation, and a `SpectralCompressor` that scales every bin pair by a gain |
| C | `source/FFTProcessor.h` | `DequeProcessors` | Unbounded `std::deque` FIFOs, a single processed channel, and the pass-through `SpectralClip` |

Around the three revisions the project models:

- the fixed-capacity ring buffer `CircularBuffer<TYPE, SIZE>` (`CircularBuffers`), used by revisions A and B;
- the threshold clipper of `source/DSP/SpectralCompressor.h` (`SpectralCompressors`). It lowers every audible bin whose level exceeds a sum-of-Gaussians curve down to that curve.

Shared modules:

- **`Stft`**: the in-place array loops that all revisions use, each proved against a function on sequences.
- **`ChannelStorage`**: the per-channel FIFO and buffer allocation, plus the ghost ownership map that keeps channels apart.
- **`RealMath`**: the mathematical functions (`sqrt`, `atan2`, `cos`, `sin`, `log10`, `exp`, decibel conversion). They are fields of a `Math` record about which only these laws are assumed, each as a hypothesis of the lemmas that need it:
  - `PolarLaws`: `sqrt(re² + im²)` times the cosine and sine of `atan2(im, re)` gives back `re` and `im`; `sqrt` is non-negative on non-negative input; `cos`/`sin` are `1`/`0` at 0 and `-1`/`0` at pi.
  - `ExpLaws`: `exp(0) = 1` and `exp` is monotone.
  - `DecibelLaws`: `decibelsToGain` is non-negative and monotone; `gainToDecibels(decibelsToGain(d)) = d` only for `d` above the −100 dB minus-infinity level; `decibelsToGain(gainToDecibels(g)) <= g` for every `g >= 0`.

How the state is modelled:

- Samples are `real`.
- The JUCE window, forward FFT and inverse FFT are opaque functions on sequences that keep the length (`Transform`). The per-bin step is an injected function too.
- Each processor is a `class` over arrays and ring buffers. Its methods are proved against pure functions of a per-channel abstract state (`Channel`):
  - `Step`: one sample pushed, at most one frame, one sample popped;
  - `Run`: a whole row of samples.
- Lemmas about those functions state the pipeline's promises:
  - frames consume and emit exactly one hop;
  - the accumulator is shifted and its tail is zeroed;
  - the first `FFT_SIZE - 1` outputs are silent;
  - every later pop finds a sample;
  - the input FIFO never fills.

## Model

| member | source | states |
|---|---|---|
| CircularBuffers.CircularBuffer.constructor | source/CircularBuffer.h:6 | a new buffer of capacity `SIZE` holds no samples and satisfies the index invariant |
| CircularBuffers.CircularBuffer.Clear | source/CircularBuffer.h:38-41 | the `clear()` the processors call empties the buffer and resets both indices (the class itself lacks it, see Left out) |
| CircularBuffers.CircularBuffer.Push | source/CircularBuffer.h:8-16 | the sample becomes the newest element. Below capacity, count grows by one and readIndex stays. When full, count stays at `SIZE`, readIndex advances and the oldest sample is dropped. The invariant `count <= SIZE`, indices `< SIZE`, `writeIndex == (readIndex + count) % SIZE` is kept |
| CircularBuffers.CircularBuffer.Pop | source/CircularBuffer.h:18-26 | an empty buffer yields 0.0 and changes nothing. Otherwise the oldest sample is returned and the others keep their order |
| CircularBuffers.CircularBuffer.At | source/CircularBuffer.h:28-31 | for `i < count`, `operator[](i)` is the i-th oldest sample |
| CircularBuffers.CircularBuffer.GetFirstElement | source/CircularBuffer.h:33 | on a non-empty buffer, the oldest sample |
| CircularBuffers.CircularBuffer.Size | source/CircularBuffer.h:35 | the number of queued samples, never above the capacity |
| CircularBuffers.Ring | source/CircularBuffer.h:30 | the physical slot of the i-th oldest sample is `(readIndex + i) % SIZE` |
| CircularBuffers.Pushed | source/CircularBuffer.h:8-16 | a push makes the sample the newest. Below capacity the old queue is kept whole and grows by one; when full, the oldest sample is dropped and the length stays at `SIZE` |
| CircularBuffers.Popped | source/CircularBuffer.h:18-26 | a pop from a non-empty queue returns the oldest sample, and that sample followed by the rest rebuilds the queue. An empty queue yields 0.0 and stays empty |
| CircularBuffers.PoppedN | source/CircularBuffer.h:18-26 | `k` pops in a row leave the samples after the first `k`, in order, or nothing when fewer were queued |
| CircularBuffers.Newest | source/CircularBuffer.h:12-15 | what a buffer that overwrites on full keeps of a stream: its suffix of length `min(length, SIZE)` |
| CircularBuffers.PushedAll | source/CircularBuffer.h:8-16 | pushing any number of samples never leaves more than `SIZE` queued |
| CircularBuffers.PushedAllKeepsNewest | source/CircularBuffer.h:8-16 | pushing several samples keeps exactly the newest `SIZE` of old contents followed by the new samples |
| CircularBuffers.PushedKeepsNewest | source/CircularBuffer.h:8-16 | one push onto the newest `SIZE` samples of a stream gives the newest `SIZE` samples of the stream extended by that sample |
| CircularBuffers.PushedAllAppends | source/CircularBuffer.h:8-13 | while there is room, pushing appends |
| Stft.FillZero | source/DSP/FFTProcessor.h:80 | the work buffer is all zeros |
| Stft.WindowedPrefix | source/DSP/FFTProcessor.h:85 | windowing the first `FFT_SIZE` slots keeps the buffer's length and leaves the upper half alone |
| Stft.ApplyWindow | source/DSP/FFTProcessor.h:85 | the buffer becomes its windowed form |
| Stft.ApplyTransform | source/DSP/FFTProcessor.h:86 | the buffer becomes the transform of its old contents |
| Stft.ApplyBinStep | source/DSP/FFTProcessor.h:87 | the buffer becomes the per-bin step applied to its old contents |
| Stft.ScaledPrefix | source/DSP/FFTProcessor.h:92-93 | entry i below the table's length is multiplied by table entry i; the length and the entries beyond the table are kept |
| Stft.OverlapAdded | source/DSP/FFTProcessor.h:95-96 | entry i below the accumulator's length gains accumulator entry i; the length and the entries beyond it are kept |
| Stft.ShiftedOla | source/DSP/FFTProcessor.h:101-102 | the new accumulator keeps its `FFT_SIZE` length, starts with summed samples `hop..FFT_SIZE` and ends with `hop` zeros |
| Stft.MultiplyPrefix | source/DSP/FFTProcessor.h:92-93 | the first `FFT_SIZE` samples are multiplied by the compensation table and the rest are kept |
| Stft.AddPrefix | source/DSP/FFTProcessor.h:95-96 | the accumulator is added to the first `FFT_SIZE` samples |
| Stft.ShiftOla | source/DSP/FFTProcessor.h:101-102 | the accumulator holds samples `hop..N` of the summed frame followed by `hop` zeros |
| Stft.CopyFromFifo | source/DSP/FFTProcessor.h:82-83 | the oldest `N` queued samples are copied in, the FIFO is not consumed and the upper half is kept |
| Stft.PushPrefix | source/DSP/FFTProcessor.h:98-99 | the first `hop` samples are pushed to the output FIFO in order |
| Stft.PopN | source/DSP/FFTProcessor.h:104-105 | exactly `hop` samples are popped from the input FIFO |
| ChannelStorage.NewFifoPair | source/DSP/FFTProcessor.h:182-183 | a channel's input and output ring buffers are fresh, distinct, empty and of the given capacity |
| ChannelStorage.AllocateFifos | source/DSP/FFTProcessor.h:182-183 | one empty FIFO pair of capacity `2 * FFT_SIZE` per channel, all distinct |
| ChannelStorage.AllocateArrays | source/DSP/FFTProcessor.h:184-185 | one accumulator of `FFT_SIZE` and one work buffer of `2 * FFT_SIZE` per channel, all distinct |
| ChannelStorage.AllocateChannels | source/DSP/FFTProcessor.h:182-185 | all per-channel storage: empty FIFOs and separately owned buffers for every channel |
| FFTProcessors.Emitted | source/DSP/FFTProcessor.h:98-105 | after a frame's output and accumulator update, the channel still fits its buffers |
| FFTProcessors.Spectrum | source/DSP/FFTProcessor.h:80-87 | the analysed spectrum of the oldest `FFT_SIZE` queued samples has the work buffer's `2 * FFT_SIZE` length |
| FFTProcessors.Resynthesised | source/DSP/FFTProcessor.h:89-93 | the synthesis frame keeps the spectrum's length, and its upper half is the inverse transform's, untouched by the window and the compensation |
| FFTProcessors.Summed | source/DSP/FFTProcessor.h:95-96 | the summed frame has `2 * FFT_SIZE` samples, and its upper half is the synthesis frame's, because the accumulator reaches only the first `FFT_SIZE` |
| FFTProcessors.Frame | source/DSP/FFTProcessor.h:80-105 | after a frame the channel still fits its buffers |
| FFTProcessors.Attempt | source/DSP/FFTProcessor.h:70-106 | with or without a frame, the channel still fits its buffers |
| FFTProcessors.Fed | source/DSP/FFTProcessor.h:54 | after a push the channel still fits its buffers, however full the input FIFO was |
| FFTProcessors.Step | source/DSP/FFTProcessor.h:54-56 | after push, frame attempt and pop the channel still fits its buffers |
| FFTProcessors.Run | source/DSP/FFTProcessor.h:53-57 | a row of samples yields one output per input and a channel that still fits its buffers |
| FFTProcessors.RunExtends | source/DSP/FFTProcessor.h:53-57 | processing one more sample of a row is one more step on the state reached so far |
| FFTProcessors.FrameEmitsHop | source/DSP/FFTProcessor.h:80-105 | a frame drops exactly `hop` input samples and pushes exactly `hop` outputs. Output i is compensated synthesis sample i plus accumulator i. The accumulator then holds the rest of the sum followed by `hop` zeros |
| FFTProcessors.StepKeepsOccupancy | source/DSP/FFTProcessor.h:54-56 | every step keeps the FIFO occupancy invariant. While warming up a step outputs 0, and once warm it stays warm |
| FFTProcessors.RunKeepsOccupancy | source/DSP/FFTProcessor.h:53-57 | after any number of steps fewer than `FFT_SIZE` samples are queued, so the `2 * FFT_SIZE` input FIFO never fills |
| FFTProcessors.WarmupIsSilent | source/DSP/FFTProcessor.h:54-56 | from empty FIFOs, the first `FFT_SIZE - 1` outputs are 0 and the samples are only queued |
| FFTProcessors.RunFromEmptyWarms | source/DSP/FFTProcessor.h:71-72 | after `FFT_SIZE - 1` samples from empty FIFOs a channel is warm |
| FFTProcessors.LaterPopsFindSamples | source/DSP/FFTProcessor.h:54-56 | from empty FIFOs, every pop after the first `FFT_SIZE - 1` finds the output FIFO non-empty |
| FFTProcessors.BinValues | source/DSP/FFTProcessor.h:116-129 | one displayed value per bin `0..FFT_SIZE/2`, each the magnitude of that bin |
| FFTProcessors.MonoShowsLatestFrame | source/DSP/FFTProcessor.h:137-139 | with one channel, the displayed magnitudes are channel 0's values |
| FFTProcessors.SeveralChannelsShowSum | source/DSP/FFTProcessor.h:126-135 | with several channels, channel 0 writes only the temporary table, and a later channel displays the sum of channel 0's values and its own |
| FFTProcessors.StoredMagnitudes | source/DSP/FFTProcessor.h:126-139 | the temporary table keeps one entry per bin value |
| FFTProcessors.StepShown | source/DSP/FFTProcessor.h:54-56 | the display after one sample: a channel above 0 never writes the temporary table, channel 0 of several never writes the displayed table, and a mono display whose two tables agree keeps them equal |
| FFTProcessors.RunShown | source/DSP/FFTProcessor.h:50-57 | the same three facts over a whole row of one channel |
| FFTProcessors.BlockShown | source/DSP/FFTProcessor.h:48-58 | over a block of rows, a mono display whose two tables agree keeps them equal |
| FFTProcessors.RunShownExtends | source/DSP/FFTProcessor.h:53-57 | the display after one more sample of a row is one more display step from the display and channel reached so far |
| FFTProcessors.BlockShownNext | source/DSP/FFTProcessor.h:48-58 | the display after one more row is that row's display run from the display reached so far |
| FFTProcessors.WarmupShowsNothing | source/DSP/FFTProcessor.h:71-72 | from empty FIFOs, the first `FFT_SIZE - 1` samples leave the display as it was |
| FFTProcessors.SquaredWindow | source/DSP/FFTProcessor.h:146-152 | entry i is the square of the window applied to ones |
| FFTProcessors.CompensationEntry | source/DSP/FFTProcessor.h:168-173 | always positive. It is the reciprocal of an overlap sum above `1e-6`, and 1 otherwise |
| FFTProcessors.OverlapSum | source/DSP/FFTProcessor.h:156-163 | the overlap table of non-negative squared window values is non-negative everywhere |
| FFTProcessors.CompensationAt | source/DSP/FFTProcessor.h:165-174 | every compensation entry is positive, and it is the reciprocal of its overlap sum wherever that sum exceeds `1e-6` |
| FFTProcessors.PeriodicSum | source/DSP/FFTProcessor.h:156-168 | the four-way overlap of non-negative squared window values is non-negative |
| FFTProcessors.WindowCompensation | source/DSP/FFTProcessor.h:142-175 | the table has `FFT_SIZE` entries, all positive |
| FFTProcessors.CompensationTable | source/DSP/FFTProcessor.h:167-174 | k positive entries |
| FFTProcessors.CompensationTableAt | source/DSP/FFTProcessor.h:167-174 | entry i is the compensation of the overlap sum at `FFT_SIZE + i` |
| FFTProcessors.WindowCompensationAt | source/DSP/FFTProcessor.h:165-174 | entry i is read from the steady-state half, position `FFT_SIZE + i` |
| FFTProcessors.OverlapSumOfEight | source/DSP/FFTProcessor.h:154-163 | the overlap sum over eight frames is the sum of the frames' contributions |
| FFTProcessors.SteadyStateSum | source/DSP/FFTProcessor.h:156-168 | in the steady-state half the overlap of eight frames depends only on the position modulo hop |
| FFTProcessors.EightFramesSuffice | source/DSP/FFTProcessor.h:154 | more frames than eight add nothing inside the `2 * FFT_SIZE` table |
| FFTProcessors.CompensationNormalisesOverlap | source/DSP/FFTProcessor.h:142-175 | the table repeats with period hop. Wherever the overlap is audible, the compensated squared windows of the four overlapping frames add to exactly 1 |
| FFTProcessors.PowerOfTwoSplitsInFour | source/DSP/FFTProcessor.h:15-19 | a power-of-two `FFT_SIZE >= 64` is exactly four hops |
| FFTProcessors.VisualizerBins | source/DSP/SpectralVisualizer.h:14 | the visualiser's per-bin step leaves the spectrum unchanged |
| FFTProcessors.SquareInPlace | source/DSP/FFTProcessor.h:150-151 | every entry is replaced by its square |
| FFTProcessors.AddFrame | source/DSP/FFTProcessor.h:157-162 | one frame's squared window is added at its offset, clipped to the table |
| FFTProcessors.AccumulateFrames | source/DSP/FFTProcessor.h:154-163 | the table holds, at every position, the overlap sum of the eight frames |
| FFTProcessors.FillCompensation | source/DSP/FFTProcessor.h:165-174 | every entry is the compensation of the overlap sum at `FFT_SIZE + i` |
| FFTProcessors.ComputeWindowCompensation | source/DSP/FFTProcessor.h:142-175 | the array equals the compensation table of the window and hop |
| FFTProcessors.Analyse | source/DSP/FFTProcessor.h:80-87 | the work buffer becomes the per-bin step of the transform of the windowed oldest `FFT_SIZE` samples, zero-padded |
| FFTProcessors.Synthesise | source/DSP/FFTProcessor.h:89-105 | the FIFOs, accumulator and work buffer become the channel after the frame's synthesis and hop bookkeeping |
| FFTProcessors.FFTProcessor.ChannelAt | source/DSP/FFTProcessor.h:182-185 | a channel's abstract state fits its buffers: FIFOs within `2 * FFT_SIZE`, accumulator of `FFT_SIZE`, work buffer of `2 * FFT_SIZE` |
| FFTProcessors.FFTProcessor.constructor | source/DSP/FFTProcessor.h:14-23 | a new processor has a hop of `FFT_SIZE / 4`, a sample rate of 44100, empty FIFOs and the compensation table of its window |
| FFTProcessors.FFTProcessor.PrepareToPlay | source/DSP/FFTProcessor.h:27-42 | every channel has zeroed buffers and empty FIFOs, the displayed magnitudes are zero and the sample rate is stored. The compensation table and configuration are untouched |
| FFTProcessors.FFTProcessor.ZeroMagnitudes | source/DSP/FFTProcessor.h:40 | the displayed magnitudes become zero and no channel changes |
| FFTProcessors.FFTProcessor.ZeroAccumulators | source/DSP/FFTProcessor.h:28-29 | every channel's accumulator is zero and nothing else changes |
| FFTProcessors.FFTProcessor.ZeroWorkBuffers | source/DSP/FFTProcessor.h:31-32 | every channel's work buffer is zero and nothing else changes |
| FFTProcessors.FFTProcessor.ClearInputs | source/DSP/FFTProcessor.h:34-35 | every input FIFO is empty and nothing else changes |
| FFTProcessors.FFTProcessor.ClearOutputs | source/DSP/FFTProcessor.h:37-38 | every output FIFO is empty and nothing else changes |
| FFTProcessors.FFTProcessor.StoreMagnitudes | source/DSP/FFTProcessor.h:108-140 | the displayed and temporary magnitudes change as the channel-combination rule says, for this channel's bin values |
| FFTProcessors.FFTProcessor.ComputeFFT | source/DSP/FFTProcessor.h:70-106 | the channel takes one frame when `FFT_SIZE` samples are queued and is unchanged otherwise. Other channels are untouched and the display is updated by the frame |
| FFTProcessors.FFTProcessor.ProcessSample | source/DSP/FFTProcessor.h:54-56 | push, compute and pop on one channel is one step of the abstract pipeline, and the display tables take that step's display update. Other channels are untouched |
| FFTProcessors.FFTProcessor.ProcessBlock | source/DSP/FFTProcessor.h:44-59 | every channel below the buffer's channel count runs its own row independently, and its samples are replaced by the outputs. The display tables are the fold of the rows' display runs, channel 0 first. Higher channels are untouched |
| FFTProcessors.FFTProcessor.ProcessBlockRow | source/DSP/FFTProcessor.h:50-57 | one pass of the channel loop: the channel runs its row, and the display moves from the fold over the earlier rows to the fold including this one |
| FFTProcessors.FFTProcessor.ProcessRow | source/DSP/FFTProcessor.h:50-57 | one channel's row is replaced by the run of the pipeline over it, and the display tables become that row's display run. Other rows and channels are untouched |
| FFTProcessors.FFTProcessor.ProcessRowCell | source/DSP/FFTProcessor.h:53-56 | one pass of the sample loop: the channel's run and the display's run each grow by that sample, and only that sample of the buffer changes |
| FFTProcessors.FFTProcessor.ProcessCell | source/DSP/FFTProcessor.h:54-56 | one sample of the buffer is replaced by one step's output, and the display tables take that step's update. Every other sample and channel is untouched |
| SpectralProcessors.Summed | source/DSP/SpectralProcessors.h:80-83 | the summed frame keeps its `2 * FFT_SIZE` length |
| SpectralProcessors.Spectrum | source/DSP/SpectralProcessors.h:74-79 | the analysed spectrum has the work buffer's length |
| SpectralProcessors.Emitted | source/DSP/SpectralProcessors.h:84-91 | after a frame's output and accumulator update, the channel still fits its buffers |
| SpectralProcessors.Frame | source/DSP/SpectralProcessors.h:74-91 | after a frame the channel still fits its buffers |
| SpectralProcessors.Attempt | source/DSP/SpectralProcessors.h:64-92 | with or without a frame, the channel still fits its buffers |
| SpectralProcessors.Fed | source/DSP/SpectralProcessors.h:54 | after a push the channel still fits its buffers |
| SpectralProcessors.Step | source/DSP/SpectralProcessors.h:54-56 | after push, frame attempt and pop the channel still fits its buffers |
| SpectralProcessors.Run | source/DSP/SpectralProcessors.h:53-57 | one output per input sample, and a channel that fits its buffers |
| SpectralProcessors.RunExtends | source/DSP/SpectralProcessors.h:53-57 | one more sample of a row is one more step |
| SpectralProcessors.RunOneMore | source/DSP/SpectralProcessors.h:53-57 | the run over a longer prefix adds that step's state and output |
| SpectralProcessors.FrameEmitsHop | source/DSP/SpectralProcessors.h:74-91 | a frame drops exactly `hop` inputs and pushes exactly `hop` outputs, each the inverse-transformed sample plus the accumulator, with no window or compensation. The accumulator then holds the rest of the sum followed by `hop` zeros |
| SpectralProcessors.StepKeepsOccupancy | source/DSP/SpectralProcessors.h:54-56 | every step keeps the occupancy invariant and outputs 0 while warming up |
| SpectralProcessors.RunKeepsOccupancy | source/DSP/SpectralProcessors.h:53-57 | fewer than `FFT_SIZE` samples stay queued, so the input FIFO never fills |
| SpectralProcessors.WarmupIsSilent | source/DSP/SpectralProcessors.h:44-59 | from empty FIFOs, the first `FFT_SIZE - 1` outputs are 0 |
| SpectralProcessors.RunFromEmptyWarms | source/DSP/SpectralProcessors.h:65-66 | after `FFT_SIZE - 1` samples from empty FIFOs a channel is warm |
| SpectralProcessors.LaterPopsFindSamples | source/DSP/SpectralProcessors.h:54-56 | every later pop finds the output FIFO non-empty |
| SpectralProcessors.GainedPairUnfolds | source/DSP/SpectralProcessors.h:136-146 | a pair is rebuilt from its magnitude times gain and its phase |
| SpectralProcessors.GainedPair | source/DSP/SpectralProcessors.h:136-146 | a gain of 0 silences the pair, and in exact arithmetic a gain of 1 gives the pair back |
| SpectralProcessors.GainedSlot | source/DSP/SpectralProcessors.h:135-147 | an unpaired last slot is kept, and in exact arithmetic a gain of 1 keeps every slot |
| SpectralProcessors.GainedSlotsOfPair | source/DSP/SpectralProcessors.h:135-147 | slots `2i` and `2i + 1` of the processed frame are the processed pair i |
| SpectralProcessors.GainFrame | source/DSP/SpectralProcessors.h:135-150 | processing keeps the frame's length |
| SpectralProcessors.GainBins | source/DSP/SpectralProcessors.h:127-151 | the compressor's per-bin step keeps the frame's length |
| SpectralProcessors.GainedPairScales | source/DSP/SpectralProcessors.h:136-146 | in exact arithmetic, the polar round trip multiplies the pair by the gain |
| SpectralProcessors.GainedSlotScales | source/DSP/SpectralProcessors.h:135-150 | every slot of the processed frame is gain times the original |
| SpectralProcessors.GainFrameScales | source/DSP/SpectralProcessors.h:135-150 | the whole frame is scaled by the gain |
| SpectralProcessors.UnitGainIsIdentity | source/DSP/SpectralProcessors.h:135-153 | with the default gain 1 the step leaves the spectrum unchanged |
| SpectralProcessors.Analyse | source/DSP/SpectralProcessors.h:74-79 | the work buffer becomes the per-bin step of the transform of the windowed oldest `FFT_SIZE` samples, with the upper half carried over |
| SpectralProcessors.Synthesise | source/DSP/SpectralProcessors.h:80-91 | the FIFOs, accumulator and work buffer become the channel after the frame's overlap-add and hop bookkeeping |
| SpectralProcessors.SpectralProcessor.ChannelAt | source/DSP/SpectralProcessors.h:105-108 | a channel's abstract state fits its buffers |
| SpectralProcessors.SpectralProcessor.constructor | source/DSP/SpectralProcessors.h:18-26 | a hop of `FFT_SIZE / 2` and empty FIFOs |
| SpectralProcessors.SpectralProcessor.PrepareToPlay | source/DSP/SpectralProcessors.h:30-42 | every channel has zeroed buffers and empty FIFOs |
| SpectralProcessors.SpectralProcessor.ZeroAccumulators | source/DSP/SpectralProcessors.h:31-32 | every accumulator is zero and nothing else changes |
| SpectralProcessors.SpectralProcessor.ZeroWorkBuffers | source/DSP/SpectralProcessors.h:34-35 | every work buffer is zero and nothing else changes |
| SpectralProcessors.SpectralProcessor.ClearInputs | source/DSP/SpectralProcessors.h:37-38 | every input FIFO is empty and nothing else changes |
| SpectralProcessors.SpectralProcessor.ClearOutputs | source/DSP/SpectralProcessors.h:40-41 | every output FIFO is empty and nothing else changes |
| SpectralProcessors.SpectralProcessor.ComputeFFT | source/DSP/SpectralProcessors.h:64-92 | the channel takes one frame when `FFT_SIZE` samples are queued and is unchanged otherwise. Other channels are untouched |
| SpectralProcessors.SpectralProcessor.ProcessSample | source/DSP/SpectralProcessors.h:54-56 | push, compute and pop is one abstract step. Other channels are untouched |
| SpectralProcessors.SpectralProcessor.ProcessBlock | source/DSP/SpectralProcessors.h:44-59 | every channel below the buffer's channel count runs its own row independently |
| SpectralProcessors.SpectralProcessor.ProcessRow | source/DSP/SpectralProcessors.h:50-57 | one row is replaced by the pipeline's run over it. Other rows and channels are untouched |
| SpectralProcessors.SpectralProcessor.ProcessCell | source/DSP/SpectralProcessors.h:56 | one sample is replaced by one step's output and nothing else changes |
| SpectralProcessors.SpectralCompressor.constructor | source/DSP/SpectralProcessors.h:123 | the gain starts at 1.0 on a fresh processor with a hop of `FFT_SIZE / 2` |
| SpectralProcessors.SpectralCompressor.SetGain | source/DSP/SpectralProcessors.h:124 | the gain becomes the argument |
| SpectralProcessors.SpectralCompressor.ProcessFFTBins | source/DSP/SpectralProcessors.h:127-151 | every pair `(2i, 2i + 1)` for `i < FFT_SIZE` is rewritten through the polar round trip with the gain applied |
| SpectralProcessors.SpectralCompressor.ProcessPair | source/DSP/SpectralProcessors.h:136-146 | one pair is rewritten and every other slot is untouched |
| SpectralProcessors.SpectralCompressor.ProcessBlock | source/DSP/SpectralProcessors.h:44-59 | the inherited block processing with the compressor's per-bin step. The gain is unchanged |
| SpectralProcessors.SpectralCompressor.PrepareToPlay | source/DSP/SpectralProcessors.h:30-42 | the inherited reset. The gain is unchanged |
| DequeProcessors.Pow2 | source/FFTProcessor.h:12 | `1 << order` is at least 1 |
| DequeProcessors.NoProcessing | source/FFTProcessor.h:34 | the default `processSpectrum` leaves the spectrum unchanged |
| DequeProcessors.Summed | source/FFTProcessor.h:66-68 | the overlap-added work buffer keeps its `2 * fftSize` length |
| DequeProcessors.Frame | source/FFTProcessor.h:52-64 | a frame keeps the buffers at their sizes |
| DequeProcessors.Attempt | source/FFTProcessor.h:51-65 | with or without a frame, the buffers keep their sizes |
| DequeProcessors.Step | source/FFTProcessor.h:25-27 | after push, frame attempt and pull the buffers keep their sizes |
| DequeProcessors.Run | source/FFTProcessor.h:24-28 | one output per input sample |
| DequeProcessors.RunOneMore | source/FFTProcessor.h:24-28 | one more sample of the row is one more step |
| DequeProcessors.StepKeepsOccupancy | source/FFTProcessor.h:25-27 | every step keeps the occupancy invariant and outputs 0 while warming up |
| DequeProcessors.RunKeepsOccupancy | source/FFTProcessor.h:24-28 | although the deques are unbounded, fewer than `fftSize` samples stay queued after every step |
| DequeProcessors.WarmupIsSilent | source/FFTProcessor.h:41-49 | from empty deques, the first `fftSize - 1` outputs are 0 |
| DequeProcessors.RunFromEmptyWarms | source/FFTProcessor.h:52 | after `fftSize - 1` samples from empty deques the processor is warm |
| DequeProcessors.LaterPopsFindSamples | source/FFTProcessor.h:25-27 | from empty deques, every pull after the first `fftSize - 1` finds the output deque non-empty, so `front()` is defined |
| DequeProcessors.CopySamples | source/FFTProcessor.h:53-54 | the oldest `fftSize` queued samples are copied into the work buffer and the rest is kept |
| DequeProcessors.SpectralProcessor.constructor | source/FFTProcessor.h:11-16 | `fftSize == 1 << order`, a hop of `fftSize / 2`, a zeroed work buffer of `2 * fftSize`, a zeroed accumulator of `fftSize`, and empty deques |
| DequeProcessors.SpectralProcessor.PushNextSampleIntoInputFifo | source/FFTProcessor.h:36 | the sample is appended to the input deque |
| DequeProcessors.SpectralProcessor.PullSampleFromOutputFifo | source/FFTProcessor.h:41-49 | the front sample is removed and returned, or 0.0 with no change when the deque is empty |
| DequeProcessors.SpectralProcessor.ProcessSpectrum | source/FFTProcessor.h:34 | the default spectral step leaves the buffer unchanged |
| DequeProcessors.SpectralProcessor.OverlapAdd | source/FFTProcessor.h:66-78 | the accumulator is added in, exactly `hop` samples are appended to the output deque, and the accumulator is shifted left by `hop` with its tail zeroed |
| DequeProcessors.SpectralProcessor.DropInput | source/FFTProcessor.h:62-63 | exactly `hop` samples are removed from the front of the input deque |
| DequeProcessors.SpectralProcessor.ComputeFFT | source/FFTProcessor.h:51-65 | the state takes one frame when `fftSize` samples are queued and is unchanged otherwise |
| DequeProcessors.SpectralProcessor.ProcessSample | source/FFTProcessor.h:25-27 | push, compute and pull is one abstract step |
| DequeProcessors.SpectralProcessor.ProcessBlock | source/FFTProcessor.h:20-30 | only channel 0 is run through the pipeline. Every other channel's samples are left unchanged |
| DequeProcessors.SpectralProcessor.ProcessCell | source/FFTProcessor.h:25-27 | one sample of channel 0 is replaced by one step's output and nothing else changes |
| DequeProcessors.NewSpectralClip | source/FFTProcessor.h:91-95 | `SpectralClip` is the base processor at the default order 10 (1024 points, hop 512) with zeroed state |
| SpectralCompressors.CalculateGaussianSum | source/DSP/SpectralCompressor.h:59-72 | the loop computes the sum of `gainDB * exp(-(dx^2) / (2 sigma^2))` over the peaks |
| SpectralCompressors.PeakDb | source/DSP/SpectralCompressor.h:64-68 | at the peak's own frequency its term is exactly its height `gainDB` |
| SpectralCompressors.GaussianSum | source/DSP/SpectralCompressor.h:59-72 | peaks that are all 0 dB, and in particular no peaks, give a threshold of 0 dB |
| SpectralCompressors.GaussianSumAppend | source/DSP/SpectralCompressor.h:63-69 | the sum over two lists in a row is the sum of their sums |
| SpectralCompressors.GaussianSumWithout | source/DSP/SpectralCompressor.h:63-69 | removing one peak removes exactly its term |
| SpectralCompressors.GaussianSumIgnoresOrder | source/DSP/SpectralCompressor.h:59-72 | two peak lists that are permutations of each other give the same threshold |
| SpectralCompressors.LonePeakAtItsFrequency | source/DSP/SpectralCompressor.h:59-72 | a single peak's curve equals its height at its own frequency |
| SpectralCompressors.BinFrequency | source/DSP/SpectralCompressor.h:25-26 | a bin's frequency times the transform size is the bin index times the sample rate |
| SpectralCompressors.InBand | source/DSP/SpectralCompressor.h:20-29 | a bin is processed exactly when its frequency lies in `[20 Hz, sampleRate / 2]` |
| SpectralCompressors.EdgeBins | source/DSP/SpectralCompressor.h:24-29 | the DC bin is always skipped. The Nyquist bin sits exactly at the Nyquist frequency and is processed whenever the sample rate is at least 40 Hz |
| SpectralCompressors.ClipFrame | source/DSP/SpectralCompressor.h:15-56 | processing keeps the frame's length |
| SpectralCompressors.Polar | source/DSP/SpectralCompressor.h:31-40 | a real-only bin has a non-negative magnitude and a phase of 0 or pi |
| SpectralCompressors.ClippedMagnitude | source/DSP/SpectralCompressor.h:44-48 | the magnitude is either kept or set to the threshold's level, and it changes only when its level exceeds the threshold |
| SpectralCompressors.Threshold | source/DSP/SpectralCompressor.h:42 | a bin's threshold is 0 dB when every peak is 0 dB |
| SpectralCompressors.ClippedBin | source/DSP/SpectralCompressor.h:31-55 | a real-only bin keeps its imaginary slot, and in exact arithmetic a bin at or below the threshold is given back unchanged |
| SpectralCompressors.ClippedSlot | source/DSP/SpectralCompressor.h:24-55 | a slot of a bin above `FFT_SIZE / 2`, or of a bin outside the audible band, is kept |
| SpectralCompressors.ClippedMagnitudeBounds | source/DSP/SpectralCompressor.h:44-48 | the new magnitude lies between 0 and the old one, and it is unchanged when the level does not exceed the threshold |
| SpectralCompressors.PolarRoundTrip | source/DSP/SpectralCompressor.h:32-40 | magnitude and phase rebuild the bin. For real-only bins the phase of 0 or pi keeps the sign |
| SpectralCompressors.ClippedBinIs | source/DSP/SpectralCompressor.h:42-55 | the new bin is the lowered magnitude at the old phase. A real-only bin's imaginary slot is kept |
| SpectralCompressors.ClippedBinScales | source/DSP/SpectralCompressor.h:42-55 | every processed bin is scaled by a factor in `[0, 1]`, which is 1 when below the threshold. A real-only bin keeps its sign and imaginary slot |
| SpectralCompressors.ClippedBinNeverLouder | source/DSP/SpectralCompressor.h:42-55 | a bin's squared magnitude never increases |
| SpectralCompressors.ClipFrameTouchesOnlyInBandBins | source/DSP/SpectralCompressor.h:16-55 | a slot changes only when there are peaks and it belongs to an in-band bin `<= FFT_SIZE/2`. An imaginary slot changes only for a bin that is not real-only |
| SpectralCompressors.ClipFrameAtBin | source/DSP/SpectralCompressor.h:31-55 | an in-band bin's two slots are the clipped bin, and no other bin shares those slots |
| SpectralCompressors.BinPolar | source/DSP/SpectralCompressor.h:31-40 | the magnitude and phase read from the buffer |
| SpectralCompressors.ClipMagnitude | source/DSP/SpectralCompressor.h:44-48 | the magnitude lowered to the threshold |
| SpectralCompressors.ProcessBin | source/DSP/SpectralCompressor.h:25-55 | one bin is clipped against its threshold when in band. Every other slot is untouched |
| SpectralCompressors.BinBand | source/DSP/SpectralCompressor.h:20-29 | the bin's frequency is `BinFrequency`, and the guard lets it through exactly when `InBand` holds |
| SpectralCompressors.ClipBin | source/DSP/SpectralCompressor.h:31-55 | one bin's slots become the clipped bin. Every other slot is untouched |
| SpectralCompressors.ProcessFFTBins | source/DSP/SpectralCompressor.h:15-57 | the buffer becomes the clipped frame: untouched without peaks, otherwise every in-band bin lowered to the curve |
| SpectralCompressors.ClipStep | source/DSP/SpectralCompressor.h:15-18 | as the pipeline's per-bin step, the clipper leaves a frame of the wrong size alone, and with no peaks leaves every frame alone |
| SpectralCompressors.ClipStepKeepsLength | source/DSP/SpectralCompressor.h:15-57 | as a per-bin step for the pipeline, the clipper keeps the frame's length |

## Left out

- `CircularBuffer` has no `clear()`, yet `prepareToPlay` calls it on every FIFO. The model gives the class a `Clear` that empties the buffer and resets both indices, as the callers evidently expect.
- Floating point: samples, magnitudes and gains are exact reals. Rounding, the `1e-6f` float comparison and 32-bit `float` precision are not modelled.
- Transform numerics: the JUCE window, forward FFT and inverse FFT are opaque length-preserving functions, and the window's Blackman-Harris and Hann shapes are not modelled.
- Trigonometry, logarithms and decibels: `sqrt`, `atan2`, `cos`, `sin`, `log10`, `exp` and the JUCE decibel conversions are uninterpreted. Only the laws stated in `RealMath` are assumed of them.
- `FFTProcessors.FFTProcessor.StoreMagnitudes`: only the channel-combination bookkeeping is modelled. The per-bin magnitude formula, the 0.49 scale, the channel weight and the spin lock are replaced by an injected per-bin function.
- `getGaussianPeaks` is missing from `GaussianResponseCurve`, so the peak list is a parameter of the clipper. The source reads the list afresh in every frame (`source/DSP/SpectralCompressor.h:16`), while `ClipStep` fixes one list for the processor's whole block: the model assumes the user does not edit the curve while a block is processed.
- `SpectralCompressors.CalculateGaussianSum` requires every `sigmaNorm` to be non-zero, because the source would divide by zero.
- In `source/DSP/SpectralCompressor.h` a bin lives in slots `[bin]` and `[bin + FFT_SIZE]`, while in `source/DSP/SpectralProcessors.h` it lives in the pair `[2i]`, `[2i + 1]`. Each layout is modelled as its own source has it.
- The revision A per-bin step receives the sample rate as an extra argument. The clipper needs it, and the source reads it from the processor.
- `SpectralProcessors.SpectralCompressor` is modelled by composition over a `SpectralProcessor` rather than by C++ inheritance and a virtual call.
- In revisions B and C the work buffer's upper half is not cleared before a frame. The model carries it in the abstract state rather than assuming it is zero.
- `DequeProcessors.SpectralProcessor.ProcessBlock` requires `0 < buffer.Length1 ==> 0 < buffer.Length0`. The source reads `data[0]` (`source/FFTProcessor.h:25`) without checking that a channel exists, which is undefined behaviour on a buffer with samples but no channels; the model excludes that case instead of giving it a meaning.
- `DequeProcessors`: the `std::deque` FIFOs are unbounded sequences. The occupancy lemmas need `order >= 1`, because `order == 0` gives a hop of 0 and a frame would never consume input. The constructor requires `order < 31`, to keep `1 << order` within a C++ `int`.
- The audio host (`juce::AudioBuffer`) is a two-dimensional array of reals. The `jassert` on the channel count is a precondition of `ProcessBlock`.
- The compressor, expander and gate modes, knee, ratio and attack/release exist only as UI controls and are not modelled.
- The user interface, the plugin and parameter glue, the stub files `CompressionCurve.h` and `GaussianResponseCurve.h`, and the offline Python analysis scripts are not part of this model.
