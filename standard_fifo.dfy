/** The background FIFO: a ring buffer whose push overwrites its slot. */
module StandardFifo {
  import opened Bits
  import opened Wrappers
  import opened Pixels
  import Ring

  /** push: store the pixel at the push slot, or do nothing when full. */
  function Pushed(s: Ring.RingState, p: Pixel): Ring.RingState
    requires Ring.Shaped(s)
  {
    if s.len < s.capacity then Ring.Stored(s, Some(p)) else s
  }

  /** A push appends the pixel to the queue; a push into a full FIFO changes nothing. */
  lemma PushAppends(s: Ring.RingState, p: Pixel)
    requires Ring.Valid(s)
    ensures Ring.Valid(Pushed(s, p))
    ensures s.len < s.capacity ==> Ring.Queue(Pushed(s, p)) == Ring.Queue(s) + [Some(p)]
    ensures s.len == s.capacity ==> Pushed(s, p) == s
  {
    if s.len < s.capacity {
      Ring.StoredAppends(s, Some(p));
    }
  }

  /** Pushes of `ps`, first to last. */
  function PushedAll(s: Ring.RingState, ps: seq<Pixel>): (r: Ring.RingState)
    requires Ring.Valid(s)
    ensures Ring.Valid(r) && r.capacity == s.capacity
    decreases |ps|
  {
    if |ps| == 0 then s
    else
      PushAppends(s, ps[0]);
      PushedAll(Pushed(s, ps[0]), ps[1..])
  }

  /** Pushing one more pixel after a run of pushes. */
  lemma {:induction false} PushedAllSnoc(s: Ring.RingState, ps: seq<Pixel>, p: Pixel)
    requires Ring.Valid(s)
    ensures PushedAll(s, ps + [p]) == Pushed(PushedAll(s, ps), p)
    decreases |ps|
  {
    if |ps| > 0 {
      assert (ps + [p])[1..] == ps[1..] + [p];
      PushAppends(s, ps[0]);
      PushedAllSnoc(Pushed(s, ps[0]), ps[1..], p);
    } else {
      assert (ps + [p])[1..] == [];
    }
  }

  /** Pushing the prefixes of `ps` one pixel longer at a time. */
  lemma PushedAllPrefix(s: Ring.RingState, ps: seq<Pixel>, n: nat)
    requires Ring.Valid(s) && n < |ps|
    ensures PushedAll(s, ps[..n + 1]) == Pushed(PushedAll(s, ps[..n]), ps[n])
  {
    assert ps[..n + 1] == ps[..n] + [ps[n]];
    PushedAllSnoc(s, ps[..n], ps[n]);
  }

  function Present(ps: seq<Pixel>): (r: seq<Option<Pixel>>)
    ensures |r| == |ps| && forall i :: 0 <= i < |ps| ==> r[i] == Some(ps[i])
  {
    seq(|ps|, i requires 0 <= i < |ps| => Some(ps[i]))
  }

  /** Pushes that fit append their pixels to the queue in order. */
  lemma {:induction false} PushedAllAppends(s: Ring.RingState, ps: seq<Pixel>)
    requires Ring.Valid(s) && s.len + |ps| <= s.capacity
    ensures Ring.Valid(PushedAll(s, ps))
    ensures Ring.Queue(PushedAll(s, ps)) == Ring.Queue(s) + Present(ps)
    decreases |ps|
  {
    if |ps| > 0 {
      PushAppends(s, ps[0]);
      PushedAllAppends(Pushed(s, ps[0]), ps[1..]);
      assert Present(ps) == [Some(ps[0])] + Present(ps[1..]);
    }
  }

  /** First in, first out: pixels pushed into an empty FIFO are shifted out in the order they went in. */
  lemma FifoOrder(capacity: byte, ps: seq<Pixel>)
    requires |ps| <= capacity
    ensures Ring.Valid(PushedAll(Ring.Empty(capacity), ps))
    ensures Ring.ShiftedAll(PushedAll(Ring.Empty(capacity), ps), |ps|).1 == Present(ps)
  {
    var full := PushedAll(Ring.Empty(capacity), ps);
    PushedAllAppends(Ring.Empty(capacity), ps);
    assert Ring.Queue(full) == Present(ps);
    Ring.ShiftedAllTakesPrefix(full, |ps|);
    assert Ring.Queue(full)[..|ps|] == Ring.Queue(full);
  }

  /** clear: every index back to 0; the slots keep their old contents. */
  function Cleared(s: Ring.RingState): Ring.RingState
  {
    s.(pushI := 0, popI := 0, len := 0)
  }

  /** Clearing empties the queue and keeps the invariant. */
  lemma ClearEmpties(s: Ring.RingState)
    requires Ring.Valid(s)
    ensures Ring.Valid(Cleared(s)) && Ring.Queue(Cleared(s)) == []
  {
  }

  class StandardPixelFifo {
    const buffer: array<Option<Pixel>>
    const capacity: byte
    var pushI: byte
    var popI: byte
    var len: byte

    function Snapshot(): Ring.RingState
      reads this, buffer
    {
      Ring.RingState(buffer[..], capacity, pushI, popI, len)
    }

    predicate Valid()
      reads this, buffer
    {
      Ring.Valid(Snapshot())
    }

    /** with_capacity */
    constructor (capacity: byte)
      ensures Valid() && Snapshot() == Ring.Empty(capacity) && fresh(buffer)
    {
      buffer := new Option<Pixel>[capacity](_ => None);
      this.capacity := capacity;
      pushI, popI, len := 0, 0, 0;
    }

    method Push(pixel: Pixel)
      requires Valid()
      modifies this, buffer
      ensures Valid() && Snapshot() == Pushed(old(Snapshot()), pixel)
    {
      PushAppends(Snapshot(), pixel);
      if len < capacity {
        buffer[pushI] := Some(pixel);
        pushI := (pushI + 1) % capacity;
        len := len + 1;
      }
    }

    method Shift() returns (res: Option<Pixel>)
      requires Valid()
      modifies this, buffer
      ensures Valid() && (Snapshot(), res) == Ring.Shifted(old(Snapshot()))
    {
      Ring.ShiftKeepsValid(Snapshot());
      res := None;
      if len > 0 {
        res := buffer[popI];
        buffer[popI] := None;
        popI := (popI + 1) % capacity;
        len := len - 1;
      }
    }

    method Clear()
      requires Valid()
      modifies this
      ensures Valid() && Snapshot() == Cleared(old(Snapshot()))
    {
      pushI := 0;
      popI := 0;
      len := 0;
    }

    /** len: the number of queued pixels. */
    function Len(): (r: byte)
      reads this, buffer
      requires Valid()
      ensures r == |Ring.Queue(Snapshot())|
    {
      len
    }
  }
}
