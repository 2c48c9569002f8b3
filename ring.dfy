/**
 * The ring buffer both pixel FIFOs are built on: `capacity` slots, pushes
 * at `pushI`, shifts at `popI`, and `len` pixels queued between them.
 */
module Ring {
  import opened Bits
  import opened Wrappers
  import opened Pixels

  datatype RingState = RingState(buffer: seq<Option<Pixel>>, capacity: byte, pushI: byte, popI: byte, len: byte)

  /** The index bookkeeping: the push index is `len` slots past the pop index. */
  predicate Shaped(s: RingState)
  {
    && |s.buffer| == s.capacity && s.len <= s.capacity
    && (s.capacity == 0 ==> s.pushI == 0 && s.popI == 0)
    && (s.capacity > 0 ==> s.pushI < s.capacity && s.popI < s.capacity && s.pushI == (s.popI + s.len) % s.capacity)
  }

  /** The slot k places after the pop index. */
  function Slot(s: RingState, k: nat): (r: nat)
    requires Shaped(s) && k < s.capacity
    ensures r < s.capacity
  {
    (s.popI + k) % s.capacity
  }

  /** The queued slots, oldest first. */
  function Queue(s: RingState): (q: seq<Option<Pixel>>)
    requires Shaped(s)
    ensures |q| == s.len
  {
    seq(s.len, k requires 0 <= k < s.len => s.buffer[Slot(s, k)])
  }

  /** The ring invariant: the indices agree and every queued slot holds a pixel. */
  predicate Valid(s: RingState)
  {
    Shaped(s) && None !in Queue(s)
  }

  /** with_capacity: every slot empty, nothing queued. */
  function Empty(capacity: byte): (s: RingState)
    ensures Valid(s) && Queue(s) == [] && s.capacity == capacity
  {
    RingState(seq(capacity, _ => None), capacity, 0, 0, 0)
  }

  /** A sum below twice the modulus wraps at most once. */
  lemma ModBelowTwice(x: nat, c: nat)
    requires 0 < c && x < 2 * c
    ensures x % c == if x < c then x else x - c
  {
    if x < c {
      DivisionUnique(x, c, 0, x);
    } else {
      DivisionUnique(x, c, 1, x - c);
    }
  }

  /** One push step: `v` goes into the push slot, which becomes the newest queued slot. */
  function Stored(s: RingState, v: Option<Pixel>): (r: RingState)
    requires Shaped(s) && s.len < s.capacity
  {
    s.(buffer := s.buffer[s.pushI := v], pushI := (s.pushI + 1) % s.capacity, len := s.len + 1)
  }

  /** Storing appends to the queue and keeps the indices in step. */
  lemma StoredAppends(s: RingState, v: Option<Pixel>)
    requires Shaped(s) && s.len < s.capacity
    ensures Shaped(Stored(s, v)) && Queue(Stored(s, v)) == Queue(s) + [v]
  {
    var t := Stored(s, v);
    ModBelowTwice(s.popI + s.len, s.capacity);
    ModBelowTwice(s.pushI + 1, s.capacity);
    ModBelowTwice(s.popI + s.len + 1, s.capacity);
    assert Shaped(t);
    forall k | 0 <= k < t.len
      ensures Queue(t)[k] == (Queue(s) + [v])[k]
    {
      ModBelowTwice(s.popI + k, s.capacity);
    }
  }

  /** shift: take the oldest pixel and empty its slot; nothing when empty. */
  function Shifted(s: RingState): (RingState, Option<Pixel>)
    requires Shaped(s)
  {
    if s.len > 0 then
      (s.(buffer := s.buffer[s.popI := None], popI := (s.popI + 1) % s.capacity, len := s.len - 1), s.buffer[s.popI])
    else
      (s, None)
  }

  /** Shifting hands out the queue's front pixel and leaves the rest queued in order. */
  lemma {:induction false} ShiftTakesFront(s: RingState)
    requires Valid(s)
    ensures Valid(Shifted(s).0)
    ensures s.len == 0 ==> Shifted(s) == (s, None)
    ensures s.len > 0 ==> Shifted(s).1 == Queue(s)[0] && Shifted(s).1.Some?
    ensures s.len > 0 ==> Queue(Shifted(s).0) == Queue(s)[1..] && Shifted(s).0.buffer[s.popI] == None
  {
    if s.len > 0 {
      var t := Shifted(s).0;
      ModBelowTwice(s.popI + 1, s.capacity);
      ModBelowTwice(s.popI + s.len, s.capacity);
      assert Queue(s)[0] == s.buffer[s.popI] by {
        ModBelowTwice(s.popI, s.capacity);
      }
      ModBelowTwice(t.popI + t.len, s.capacity);
      assert Shaped(t);
      forall k | 0 <= k < t.len
        ensures Queue(t)[k] == Queue(s)[k + 1]
      {
        ModBelowTwice(s.popI + k + 1, s.capacity);
        ModBelowTwice(t.popI + k, s.capacity);
      }
      assert Queue(t) == Queue(s)[1..];
    }
  }

  lemma ShiftKeepsValid(s: RingState)
    requires Valid(s)
    ensures Valid(Shifted(s).0)
  {
    ShiftTakesFront(s);
  }

  /** `n` shifts in a row, with the pixels they return in order. */
  function ShiftedAll(s: RingState, n: nat): (RingState, seq<Option<Pixel>>)
    requires Valid(s)
    decreases n
  {
    if n == 0 then (s, [])
    else
      ShiftKeepsValid(s);
      var p := ShiftedAll(Shifted(s).0, n - 1);
      (p.0, [Shifted(s).1] + p.1)
  }

  /** Shifting `n` queued pixels hands out the queue's first `n` in order and keeps the rest queued. */
  lemma {:induction false} ShiftedAllTakesPrefix(s: RingState, n: nat)
    requires Valid(s) && n <= s.len
    ensures Valid(ShiftedAll(s, n).0)
    ensures ShiftedAll(s, n).1 == Queue(s)[..n] && Queue(ShiftedAll(s, n).0) == Queue(s)[n..]
    decreases n
  {
    if n > 0 {
      ShiftTakesFront(s);
      ShiftedAllTakesPrefix(Shifted(s).0, n - 1);
      assert Queue(s)[..n] == [Queue(s)[0]] + Queue(s)[1..][..n - 1];
      assert Queue(s)[n..] == Queue(s)[1..][n - 1..];
    }
  }
}
