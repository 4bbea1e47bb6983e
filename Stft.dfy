/** Pieces shared by the three revisions of the short-time-Fourier overlap-add pipeline
    (source/DSP/FFTProcessor.h, source/DSP/SpectralProcessors.h, source/FFTProcessor.h): the
    stand-ins for the JUCE window and transforms, the pure description of each step of a frame,
    and the in-place array loops that carry those steps out. */
module Stft {
  import opened CircularBuffers

  /** An in-place transform of a buffer that keeps its length. It stands for the JUCE windowing
      table (`multiplyWithWindowingTable`) and for the real-only forward and inverse FFT, whose
      numerics are not part of this model. */
  type Transform = seq<real> -> seq<real>

  ghost predicate KeepsLength(f: Transform)
  {
    forall s :: |f(s)| == |s|
  }

  /** The injected per-frame spectral processing step (`processFFTBins`): it receives the sample
      rate the processor holds and rewrites the transform buffer, keeping its length. */
  type BinStep = (real, seq<real>) -> seq<real>

  ghost predicate StepKeepsLength(f: BinStep)
  {
    forall sampleRate, s :: |f(sampleRate, s)| == |s|
  }

  function Zeros(n: nat): seq<real>
  {
    seq(n, _ => 0.0)
  }

  /** `window.multiplyWithWindowingTable(buffer, n)`: the window acts on the first `n` samples. */
  function WindowedPrefix(window: Transform, buffer: seq<real>, n: nat): (r: seq<real>)
    requires KeepsLength(window) && n <= |buffer|
    ensures |r| == |buffer| && r[n..] == buffer[n..]
  {
    window(buffer[..n]) + buffer[n..]
  }

  /** `buffer[i] *= table[i]` for every `i` below the table's length. */
  function ScaledPrefix(buffer: seq<real>, table: seq<real>): (r: seq<real>)
    requires |table| <= |buffer|
    ensures |r| == |buffer| && r[|table|..] == buffer[|table|..]
    ensures forall i :: 0 <= i < |table| ==> r[i] == buffer[i] * table[i]
  {
    seq(|buffer|, i requires 0 <= i < |buffer| => if i < |table| then buffer[i] * table[i] else buffer[i])
  }

  /** `buffer[i] += ola[i]` for every `i` below the accumulator's length. */
  function OverlapAdded(buffer: seq<real>, ola: seq<real>): (r: seq<real>)
    requires |ola| <= |buffer|
    ensures |r| == |buffer| && r[|ola|..] == buffer[|ola|..]
    ensures forall i :: 0 <= i < |ola| ==> r[i] == buffer[i] + ola[i]
  {
    seq(|buffer|, i requires 0 <= i < |buffer| => if i < |ola| then buffer[i] + ola[i] else buffer[i])
  }

  /** The accumulator after a frame: the summed samples `[hop, n)` moved to the front, then `hop`
      zeros. */
  function ShiftedOla(summed: seq<real>, n: nat, hop: nat): (r: seq<real>)
    requires hop <= n <= |summed|
    ensures |r| == n && r[..n - hop] == summed[hop..n]
    ensures forall i :: n - hop <= i < n ==> r[i] == 0.0
  {
    summed[hop..n] + Zeros(hop)
  }

  /** One channel of a `juce::AudioBuffer<float>` (channels by samples). */
  ghost function Row(buffer: array2<real>, channel: nat): seq<real>
    reads buffer
    requires channel < buffer.Length0
  {
    seq(buffer.Length1, j requires 0 <= j < buffer.Length1 reads buffer => buffer[channel, j])
  }

  /** Every channel of a `juce::AudioBuffer<float>`. */
  ghost function Rows(buffer: array2<real>): (rows: seq<seq<real>>)
    reads buffer
    ensures |rows| == buffer.Length0 && forall c :: 0 <= c < buffer.Length0 ==> rows[c] == Row(buffer, c)
  {
    seq(buffer.Length0, c requires 0 <= c < buffer.Length0 reads buffer => Row(buffer, c))
  }

  /** `buffer.fill(0.0f)` */
  method FillZero(a: array<real>)
    modifies a
    ensures a[..] == Zeros(a.Length)
  {
    for i := 0 to a.Length
      invariant forall k :: 0 <= k < i ==> a[k] == 0.0
    {
      a[i] := 0.0;
    }
  }

  /** The window applied in place to the first `n` samples. */
  method ApplyWindow(a: array<real>, window: Transform, n: nat)
    requires KeepsLength(window) && n <= a.Length
    modifies a
    ensures a[..] == WindowedPrefix(window, old(a[..]), n)
  {
    var w := window(a[..n]);
    forall i | 0 <= i < n {
      a[i] := w[i];
    }
  }

  /** A whole-buffer transform applied in place. */
  method ApplyTransform(a: array<real>, transform: Transform)
    requires KeepsLength(transform)
    modifies a
    ensures a[..] == transform(old(a[..]))
  {
    var t := transform(a[..]);
    forall i | 0 <= i < a.Length {
      a[i] := t[i];
    }
  }

  /** The injected spectral processing step applied in place. */
  method ApplyBinStep(a: array<real>, step: BinStep, sampleRate: real)
    requires StepKeepsLength(step)
    modifies a
    ensures a[..] == step(sampleRate, old(a[..]))
  {
    var t := step(sampleRate, a[..]);
    forall i | 0 <= i < a.Length {
      a[i] := t[i];
    }
  }

  /** `for i < FFT_SIZE: fftBuffer[i] *= windowCompensation[i]` */
  method MultiplyPrefix(a: array<real>, table: array<real>)
    requires table.Length <= a.Length && a != table
    modifies a
    ensures a[..] == ScaledPrefix(old(a[..]), table[..])
  {
    for i := 0 to table.Length
      invariant forall k :: 0 <= k < i ==> a[k] == old(a[k]) * table[k]
      invariant forall k :: i <= k < a.Length ==> a[k] == old(a[k])
    {
      a[i] := a[i] * table[i];
    }
    ghost var expected := ScaledPrefix(old(a[..]), table[..]);
    assert forall k :: 0 <= k < a.Length ==> a[k] == expected[k];
  }

  /** `for i < FFT_SIZE: fftBuffer[i] += olaBuffer[i]` */
  method AddPrefix(a: array<real>, ola: array<real>)
    requires ola.Length <= a.Length && a != ola
    modifies a
    ensures a[..] == OverlapAdded(old(a[..]), ola[..])
  {
    for i := 0 to ola.Length
      invariant forall k :: 0 <= k < i ==> a[k] == old(a[k]) + ola[k]
      invariant forall k :: i <= k < a.Length ==> a[k] == old(a[k])
    {
      a[i] := a[i] + ola[i];
    }
  }

  /** The accumulator shift: copy `summed[hop, n)` to the front of `ola`, then zero its last
      `hop` samples. */
  method ShiftOla(ola: array<real>, summed: array<real>, hop: nat)
    requires hop <= ola.Length <= summed.Length && ola != summed
    modifies ola
    ensures ola[..] == ShiftedOla(summed[..], ola.Length, hop)
  {
    var n := ola.Length;
    for i := 0 to n - hop
      invariant forall k :: 0 <= k < i ==> ola[k] == summed[k + hop]
    {
      ola[i] := summed[i + hop];
    }
    for i := n - hop to n
      invariant forall k :: 0 <= k < n - hop ==> ola[k] == summed[k + hop]
      invariant forall k :: n - hop <= k < i ==> ola[k] == 0.0
    {
      ola[i] := 0.0;
    }
  }

  /** `for i < FFT_SIZE: fftBuffer[i] = inFifo[i]`: the oldest `n` queued samples are copied
      without being consumed. */
  method CopyFromFifo(a: array<real>, fifo: CircularBuffer, n: nat)
    requires fifo.Valid() && n <= |fifo.Contents| && n <= a.Length && a != fifo.buffer
    modifies a
    ensures a[..] == fifo.Contents[..n] + old(a[..])[n..]
  {
    for i := 0 to n
      invariant forall k :: 0 <= k < i ==> a[k] == fifo.Contents[k]
      invariant forall k :: i <= k < a.Length ==> a[k] == old(a[k])
    {
      a[i] := fifo.At(i);
    }
  }

  /** `for i < hopSize: outFifo.push(fftBuffer[i])` */
  method PushPrefix(fifo: CircularBuffer, a: array<real>, hop: nat)
    requires fifo.Valid() && hop <= a.Length && a != fifo.buffer
    modifies fifo, fifo.buffer
    ensures fifo.Valid()
    ensures fifo.Contents == PushedAll(old(fifo.Contents), a[..hop], fifo.capacity)
  {
    for i := 0 to hop
      invariant fifo.Valid()
      invariant fifo.Contents == PushedAll(old(fifo.Contents), a[..i], fifo.capacity)
    {
      assert a[..i + 1][..i] == a[..i];
      fifo.Push(a[i]);
    }
  }

  /** `for i < hopSize: inFifo.pop()` */
  method PopN(fifo: CircularBuffer, k: nat)
    requires fifo.Valid()
    modifies fifo
    ensures fifo.Valid()
    ensures fifo.Contents == PoppedN(old(fifo.Contents), k)
  {
    for i := 0 to k
      invariant fifo.Valid()
      invariant fifo.Contents == PoppedN(old(fifo.Contents), i)
    {
      var _ := fifo.Pop();
    }
  }
}
