/** Per-channel storage shared by the two fixed-size processors (source/DSP/FFTProcessor.h and
    source/DSP/SpectralProcessors.h): a channel as a value, and the role map that keeps every
    channel's FIFOs and arrays apart from every other's. */
module ChannelStorage {
  import opened CircularBuffers

  /** Per-channel state: the queued input samples and output samples (oldest first), the
      overlap-add accumulator and the work buffer. */
  datatype Channel = Channel(input: seq<real>, output: seq<real>, ola: seq<real>, fft: seq<real>)

  /** `(FFT_SIZE & (FFT_SIZE - 1)) == 0` for a positive size (source/DSP/FFTProcessor.h:18,
      source/DSP/SpectralProcessors.h:22). */
  ghost predicate IsPowerOfTwo(n: nat)
  {
    n == 1 || (1 < n && n % 2 == 0 && IsPowerOfTwo(n / 2))
  }

  /** Which part of the processor an object is: every object the audio path changes has
      exactly one role, so objects with different roles are different objects. */
  datatype Role =
    | InputFifo(channel: nat) | InputStorage(channel: nat)
    | OutputFifo(channel: nat) | OutputStorage(channel: nat)
    | Accumulator(channel: nat) | WorkBuffer(channel: nat)
    | MagnitudeTable | ScratchTable

  /** The per-channel FIFOs (source/DSP/FFTProcessor.h:182-183,
      source/DSP/SpectralProcessors.h:105-106): capacity 2·FFT_SIZE, each FIFO
      and its backing array with its own role in `owner`. */
  ghost predicate FifosOwned(ins: seq<CircularBuffer>, outs: seq<CircularBuffer>, n: nat, owner: map<object, Role>)
  {
    && |outs| == |ins|
    && forall c :: 0 <= c < |ins| ==>
         && ins[c].capacity == 2 * n && outs[c].capacity == 2 * n
         && ins[c] in owner && owner[ins[c]] == InputFifo(c)
         && ins[c].buffer in owner && owner[ins[c].buffer] == InputStorage(c)
         && outs[c] in owner && owner[outs[c]] == OutputFifo(c)
         && outs[c].buffer in owner && owner[outs[c].buffer] == OutputStorage(c)
  }

  /** The per-channel arrays (source/DSP/FFTProcessor.h:184-185,
      source/DSP/SpectralProcessors.h:107-108): accumulators of FFT_SIZE and work
      buffers of 2·FFT_SIZE samples, each with its own role in `owner`. */
  ghost predicate ArraysOwned(olas: seq<array<real>>, ffts: seq<array<real>>, n: nat, owner: map<object, Role>)
  {
    && |ffts| == |olas|
    && forall c :: 0 <= c < |olas| ==>
         && olas[c].Length == n && ffts[c].Length == 2 * n
         && olas[c] in owner && owner[olas[c]] == Accumulator(c)
         && ffts[c] in owner && owner[ffts[c]] == WorkBuffer(c)
  }

  /** Every object with a role is a FIFO or an array of samples, so nothing of another kind
      (the host's sample buffer in particular) is ever one of them. */
  ghost predicate StorageOnly(owner: map<object, Role>)
  {
    forall o :: o in owner ==> o is CircularBuffer || o is array<real>
  }

  /** Roles survive extending the role map. */
  lemma FifosStayOwned(ins: seq<CircularBuffer>, outs: seq<CircularBuffer>, n: nat, owner: map<object, Role>, owner': map<object, Role>)
    requires FifosOwned(ins, outs, n, owner)
    requires forall o :: o in owner ==> o in owner' && owner'[o] == owner[o]
    ensures FifosOwned(ins, outs, n, owner')
  {
  }

  lemma ArraysStayOwned(olas: seq<array<real>>, ffts: seq<array<real>>, n: nat, owner: map<object, Role>, owner': map<object, Role>)
    requires ArraysOwned(olas, ffts, n, owner)
    requires forall o :: o in owner ==> o in owner' && owner'[o] == owner[o]
    ensures ArraysOwned(olas, ffts, n, owner')
  {
  }

  /** One channel's pair of empty FIFOs of `capacity` samples, each over storage of its own. */
  method NewFifoPair(capacity: nat) returns (input: CircularBuffer, output: CircularBuffer)
    requires 0 < capacity
    ensures fresh(input) && fresh(input.buffer) && fresh(output) && fresh(output.buffer)
    ensures input != output && input.buffer != output.buffer
    ensures input.Valid() && output.Valid() && input.Contents == [] && output.Contents == []
    ensures input.capacity == capacity && output.capacity == capacity
  {
    input := new CircularBuffer(capacity);
    output := new CircularBuffer(capacity);
  }

  /** The role map after channel `|ins|`'s pair of FIFOs joins it. */
  function WithFifoPair(owner: map<object, Role>, c: nat, input: CircularBuffer, output: CircularBuffer): map<object, Role>
  {
    owner[input := InputFifo(c)][input.buffer := InputStorage(c)][output := OutputFifo(c)][output.buffer := OutputStorage(c)]
  }

  /** Two new FIFOs, none of whose objects has a role yet, extend the per-channel roles. */
  lemma FifoPairJoins(ins: seq<CircularBuffer>, outs: seq<CircularBuffer>, n: nat, owner: map<object, Role>,
                      input: CircularBuffer, output: CircularBuffer)
    requires FifosOwned(ins, outs, n, owner) && input.capacity == 2 * n && output.capacity == 2 * n
    requires input !in owner && input.buffer !in owner && output !in owner && output.buffer !in owner
    requires input != output && input.buffer != output.buffer
    ensures FifosOwned(ins + [input], outs + [output], n, WithFifoPair(owner, |ins|, input, output))
  {
  }

  /** Allocates one empty input and one empty output FIFO per channel, each with its role. */
  method AllocateFifos(numChannels: nat, n: nat)
    returns (ins: seq<CircularBuffer>, outs: seq<CircularBuffer>, ghost owner: map<object, Role>)
    requires 0 < n
    ensures |ins| == numChannels && FifosOwned(ins, outs, n, owner) && StorageOnly(owner)
    ensures forall o :: o in owner ==> fresh(o)
    ensures forall c :: 0 <= c < numChannels ==>
      ins[c].Valid() && outs[c].Valid() && ins[c].Contents == [] && outs[c].Contents == []
  {
    ins, outs, owner := [], [], map[];
    for c := 0 to numChannels
      invariant |ins| == c && FifosOwned(ins, outs, n, owner) && StorageOnly(owner)
      invariant forall o :: o in owner ==> fresh(o)
      invariant forall k :: 0 <= k < c ==>
        ins[k].Valid() && outs[k].Valid() && ins[k].Contents == [] && outs[k].Contents == []
    {
      var input, output := NewFifoPair(2 * n);
      FifoPairJoins(ins, outs, n, owner, input, output);
      ins, outs, owner := ins + [input], outs + [output], WithFifoPair(owner, c, input, output);
    }
  }

  /** Allocates one accumulator and one work buffer per channel, extending the role map. */
  method AllocateArrays(numChannels: nat, n: nat, ghost owner0: map<object, Role>)
    returns (olas: seq<array<real>>, ffts: seq<array<real>>, ghost owner: map<object, Role>)
    requires StorageOnly(owner0)
    ensures |olas| == numChannels && ArraysOwned(olas, ffts, n, owner) && StorageOnly(owner)
    ensures forall o :: o in owner0 ==> o in owner && owner[o] == owner0[o]
    ensures forall o :: o in owner && o !in owner0 ==> fresh(o)
  {
    olas, ffts, owner := [], [], owner0;
    for c := 0 to numChannels
      invariant |olas| == c && ArraysOwned(olas, ffts, n, owner) && StorageOnly(owner)
      invariant forall o :: o in owner0 ==> o in owner && owner[o] == owner0[o]
      invariant forall o :: o in owner && o !in owner0 ==> fresh(o)
    {
      var ola := new real[n];
      var fft := new real[2 * n];
      assert ola !in owner && fft !in owner;
      olas, ffts := olas + [ola], ffts + [fft];
      owner := owner[ola := Accumulator(c)][fft := WorkBuffer(c)];
    }
  }

  /** Allocates every channel's FIFOs, accumulator and work buffer, extending the role map
      `owner0` of objects allocated before. */
  method AllocateChannels(numChannels: nat, n: nat, ghost owner0: map<object, Role>)
    returns (ins: seq<CircularBuffer>, outs: seq<CircularBuffer>, olas: seq<array<real>>, ffts: seq<array<real>>,
             ghost owner: map<object, Role>)
    requires 0 < n
    requires forall o :: o in owner0 ==> allocated(o)
    requires StorageOnly(owner0)
    ensures StorageOnly(owner)
    ensures |ins| == numChannels && FifosOwned(ins, outs, n, owner)
    ensures |olas| == numChannels && ArraysOwned(olas, ffts, n, owner)
    ensures forall o :: o in owner0 ==> o in owner && owner[o] == owner0[o]
    ensures forall o :: o in owner && o !in owner0 ==> fresh(o)
    ensures forall c :: 0 <= c < numChannels ==>
      ins[c].Valid() && outs[c].Valid() && ins[c].Contents == [] && outs[c].Contents == []
  {
    ghost var fifoOwner;
    ins, outs, fifoOwner := AllocateFifos(numChannels, n);
    ghost var joined := owner0 + fifoOwner;
    FifosStayOwned(ins, outs, n, fifoOwner, joined);
    olas, ffts, owner := AllocateArrays(numChannels, n, joined);
    FifosStayOwned(ins, outs, n, joined, owner);
  }

  /** The state of one channel's storage, as a value. */
  ghost function View(inFifo: CircularBuffer, outFifo: CircularBuffer, ola: array<real>, fft: array<real>): Channel
    reads inFifo, outFifo, ola, fft
  {
    Channel(inFifo.Contents, outFifo.Contents, ola[..], fft[..])
  }
}
