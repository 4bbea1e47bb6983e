/** Model of `CircularBuffer<TYPE, SIZE>` (source/CircularBuffer.h): a fixed-capacity FIFO of
    samples over a pre-allocated array, written at `writeIndex`, read at `readIndex`, with
    `count` valid samples. Pushing onto a full buffer overwrites the oldest sample. */
module CircularBuffers {

  /** What `push` does to the queue of held samples (oldest first): append `x`, dropping the
      oldest sample when the buffer already holds `capacity` of them. */
  function Pushed(q: seq<real>, x: real, capacity: nat): (r: seq<real>)
    requires 0 < capacity && |q| <= capacity
    ensures |r| == if |q| < capacity then |q| + 1 else capacity
    ensures r[|r| - 1] == x
    ensures |q| < capacity ==> r[..|q|] == q
    ensures |q| == capacity ==> r[..|r| - 1] == q[1..]
  {
    if |q| < capacity then q + [x] else q[1..] + [x]
  }

  /** What `pop` does: the remaining queue and the sample returned; an empty queue yields 0.0. */
  function Popped(q: seq<real>): (r: (seq<real>, real))
    ensures 0 < |q| ==> [r.1] + r.0 == q
    ensures |q| == 0 ==> r == ([], 0.0)
  {
    if |q| == 0 then ([], 0.0) else (q[1..], q[0])
  }

  /** `k` pushes in a row, one per element of `xs`, in order. */
  function PushedAll(q: seq<real>, xs: seq<real>, capacity: nat): (r: seq<real>)
    requires 0 < capacity && |q| <= capacity
    ensures |r| <= capacity
    decreases |xs|
  {
    if |xs| == 0 then q
    else Pushed(PushedAll(q, xs[..|xs| - 1], capacity), xs[|xs| - 1], capacity)
  }

  /** `k` pops in a row, results discarded: popping past the end changes nothing. */
  function PoppedN(q: seq<real>, k: nat): (r: seq<real>)
    ensures |r| == if k <= |q| then |q| - k else 0
    ensures forall i :: 0 <= i < |r| ==> r[i] == q[i + k]
  {
    if k <= |q| then q[k..] else []
  }

  /** The newest `capacity` samples of the stream `s`: an independent description of what a
      buffer that overwrites on full keeps. */
  function Newest(s: seq<real>, capacity: nat): (r: seq<real>)
    ensures |r| == if |s| <= capacity then |s| else capacity
    ensures s[|s| - |r|..] == r
  {
    if |s| <= capacity then s else s[|s| - capacity..]
  }

  /** A run of pushes keeps exactly the newest `capacity` samples of everything pushed. */
  lemma {:induction false} PushedAllKeepsNewest(q: seq<real>, xs: seq<real>, capacity: nat)
    requires 0 < capacity && |q| <= capacity
    ensures PushedAll(q, xs, capacity) == Newest(q + xs, capacity)
    decreases |xs|
  {
    if |xs| == 0 {
      assert q + xs == q;
    } else {
      var init := xs[..|xs| - 1];
      var x := xs[|xs| - 1];
      PushedAllKeepsNewest(q, init, capacity);
      assert q + xs == (q + init) + [x];
      PushedKeepsNewest(q + init, x, capacity);
    }
  }

  /** One push onto the newest `capacity` samples of a stream keeps the newest `capacity`
      samples of the stream extended by that push. */
  lemma PushedKeepsNewest(s: seq<real>, x: real, capacity: nat)
    requires 0 < capacity
    ensures Pushed(Newest(s, capacity), x, capacity) == Newest(s + [x], capacity)
  {
    var kept := Newest(s, capacity);
    if |s| < capacity {
      assert Pushed(kept, x, capacity) == s + [x];
    } else {
      assert kept == s[|s| - capacity..];
      assert Pushed(kept, x, capacity) == kept[1..] + [x];
      assert kept[1..] + [x] == (s + [x])[|s| + 1 - capacity..];
    }
  }

  /** While there is room, a run of pushes appends every sample and loses none. */
  lemma PushedAllAppends(q: seq<real>, xs: seq<real>, capacity: nat)
    requires 0 < capacity && |q| + |xs| <= capacity
    ensures PushedAll(q, xs, capacity) == q + xs
  {
    PushedAllKeepsNewest(q, xs, capacity);
  }

  /** Position of the `i`-th oldest sample in a ring of `capacity` slots read from `r`: the value
      of `(r + i) % capacity`, written without the modulus. */
  function Ring(r: nat, i: nat, capacity: nat): (p: nat)
    requires r < capacity && i <= capacity
    ensures p == (r + i) % capacity
  {
    if r + i < capacity then r + i else r + i - capacity
  }

  class CircularBuffer {
    /** SIZE */
    const capacity: nat
    const buffer: array<real>
    var writeIndex: nat
    var readIndex: nat
    var count: nat
    /** The held samples, oldest first. */
    ghost var Contents: seq<real>

    ghost predicate Valid()
      reads this, buffer
    {
      && 0 < capacity
      && buffer.Length == capacity
      && count <= capacity
      && readIndex < capacity
      && writeIndex == Ring(readIndex, count, capacity)
      && |Contents| == count
      && forall i :: 0 <= i < count ==> Contents[i] == buffer[Ring(readIndex, i, capacity)]
    }

    constructor (size: nat)
      requires 0 < size
      ensures Valid() && fresh(buffer)
      ensures capacity == size && Contents == []
    {
      capacity := size;
      buffer := new real[size];
      writeIndex, readIndex, count := 0, 0, 0;
      Contents := [];
    }

    /** Empties the buffer. The processors call `clear()`, which source/CircularBuffer.h does not
        define; it is modelled as a return to the freshly constructed state. */
    method Clear()
      requires Valid()
      modifies this
      ensures Valid() && Contents == []
      ensures readIndex == 0 && writeIndex == 0
    {
      writeIndex, readIndex, count := 0, 0, 0;
      Contents := [];
    }

    method Push(sample: real)
      requires Valid()
      modifies this, buffer
      ensures Valid()
      ensures Contents == Pushed(old(Contents), sample, capacity)
      ensures old(count) < capacity ==> readIndex == old(readIndex) && count == old(count) + 1
      ensures old(count) == capacity ==> readIndex == (old(readIndex) + 1) % capacity && count == capacity
    {
      ghost var r0, n0, q0 := readIndex, count, Contents;
      ghost var w1 := Ring(writeIndex, 1, capacity);
      ghost var r1 := Ring(readIndex, 1, capacity);
      buffer[writeIndex] := sample;
      writeIndex := (writeIndex + 1) % capacity;
      assert writeIndex == w1;
      if count < capacity {
        count := count + 1;
        Contents := q0 + [sample];
        forall i | 0 <= i < count
          ensures Contents[i] == buffer[Ring(readIndex, i, capacity)]
        {
          if i < n0 {
            assert Ring(r0, i, capacity) != Ring(r0, n0, capacity);
          }
        }
      } else {
        readIndex := (readIndex + 1) % capacity;
        assert readIndex == r1;
        Contents := q0[1..] + [sample];
        forall i | 0 <= i < count
          ensures Contents[i] == buffer[Ring(readIndex, i, capacity)]
        {
          assert Ring(readIndex, i, capacity) == Ring(r0, if i + 1 < capacity then i + 1 else 0, capacity);
        }
      }
    }

    method Pop() returns (sample: real)
      requires Valid()
      modifies this
      ensures Valid()
      ensures (Contents, sample) == Popped(old(Contents))
      ensures old(count) == 0 ==> unchanged(this)
    {
      if count == 0 {
        return 0.0;
      }
      ghost var r0, q0 := readIndex, Contents;
      ghost var r1 := Ring(readIndex, 1, capacity);
      sample := buffer[readIndex];
      readIndex := (readIndex + 1) % capacity;
      assert readIndex == r1;
      count := count - 1;
      Contents := q0[1..];
      forall i | 0 <= i < count
        ensures Contents[i] == buffer[Ring(readIndex, i, capacity)]
      {
        assert Ring(readIndex, i, capacity) == Ring(r0, i + 1, capacity);
      }
    }

    /** `operator[]`: the `index`-th oldest sample; the source only asserts `index < count`. */
    function At(index: nat): (sample: real)
      reads this, buffer
      requires Valid() && index < count
      ensures sample == Contents[index]
    {
      buffer[(readIndex + index) % capacity]
    }

    /** `getFirstElement()`: the oldest sample whenever there is one (otherwise a stale slot). */
    function GetFirstElement(): (sample: real)
      reads this, buffer
      requires Valid()
      ensures 0 < |Contents| ==> sample == Contents[0]
    {
      buffer[readIndex]
    }

    /** `size()` */
    function Size(): (n: nat)
      reads this, buffer
      requires Valid()
      ensures n == |Contents| && n <= capacity
    {
      count
    }
  }
}
