/**
 * The sprite FIFO: a ring buffer whose push keeps a non-transparent pixel
 * already in its slot, and whose clear rewinds the indices so that the
 * next pushes merge over the pixels still waiting there.
 */
module MergeFifo {
  import opened Bits
  import opened Wrappers
  import opened Pixels
  import Ring

  /** The pixel a push leaves in a slot: the old one unless it is missing or of colour 0. */
  function Merged(slot: Option<Pixel>, p: Pixel): Option<Pixel>
  {
    match slot
    case Some(oldPixel) => if oldPixel.color == 0 then Some(p) else slot
    case None => Some(p)
  }

  /**
   * A merge always leaves a pixel; it is opaque when either pixel is, the
   * old pixel wins when opaque, and merging the same pixel again changes nothing.
   */
  lemma MergeKeepsOpaque(slot: Option<Pixel>, p: Pixel)
    ensures Merged(slot, p).Some?
    ensures Merged(slot, p).value.color != 0 <==> (slot.Some? && slot.value.color != 0) || p.color != 0
    ensures slot.Some? && slot.value.color != 0 ==> Merged(slot, p) == slot
    ensures !(slot.Some? && slot.value.color != 0) ==> Merged(slot, p) == Some(p)
    ensures Merged(Merged(slot, p), p) == Merged(slot, p)
  {
  }

  /** push: merge the pixel into the push slot, or do nothing when full. */
  function MergePushed(s: Ring.RingState, p: Pixel): Ring.RingState
    requires Ring.Shaped(s)
  {
    if s.len < s.capacity then Ring.Stored(s, Merged(s.buffer[s.pushI], p)) else s
  }

  /** A push appends the merged pixel to the queue; a push into a full FIFO changes nothing. */
  lemma MergePushAppends(s: Ring.RingState, p: Pixel)
    requires Ring.Valid(s)
    ensures Ring.Valid(MergePushed(s, p))
    ensures s.len < s.capacity ==> Ring.Queue(MergePushed(s, p)) == Ring.Queue(s) + [Merged(s.buffer[s.pushI], p)]
    ensures s.len == s.capacity ==> MergePushed(s, p) == s
  {
    if s.len < s.capacity {
      MergeKeepsOpaque(s.buffer[s.pushI], p);
      Ring.StoredAppends(s, Merged(s.buffer[s.pushI], p));
    }
  }

  /** Merging pushes of `ps`, first to last. */
  function MergePushedAll(s: Ring.RingState, ps: seq<Pixel>): (r: Ring.RingState)
    requires Ring.Valid(s)
    ensures Ring.Valid(r) && r.capacity == s.capacity
    decreases |ps|
  {
    if |ps| == 0 then s
    else
      MergePushAppends(s, ps[0]);
      MergePushedAll(MergePushed(s, ps[0]), ps[1..])
  }

  /** Pushing one more pixel after a run of pushes. */
  lemma {:induction false} MergePushedAllSnoc(s: Ring.RingState, ps: seq<Pixel>, p: Pixel)
    requires Ring.Valid(s)
    ensures MergePushedAll(s, ps + [p]) == MergePushed(MergePushedAll(s, ps), p)
    decreases |ps|
  {
    if |ps| > 0 {
      assert (ps + [p])[1..] == ps[1..] + [p];
      MergePushAppends(s, ps[0]);
      MergePushedAllSnoc(MergePushed(s, ps[0]), ps[1..], p);
    } else {
      assert (ps + [p])[1..] == [];
    }
  }

  /** Pushing the prefixes of `ps` one pixel longer at a time. */
  lemma MergePushedAllPrefix(s: Ring.RingState, ps: seq<Pixel>, n: nat)
    requires Ring.Valid(s) && n < |ps|
    ensures MergePushedAll(s, ps[..n + 1]) == MergePushed(MergePushedAll(s, ps[..n]), ps[n])
  {
    assert ps[..n + 1] == ps[..n] + [ps[n]];
    MergePushedAllSnoc(s, ps[..n], ps[n]);
  }

  /** Pushes that fit each add one queued pixel, and every queued slot holds a pixel. */
  lemma {:induction false} MergePushedAllLength(s: Ring.RingState, ps: seq<Pixel>)
    requires Ring.Valid(s) && s.len + |ps| <= s.capacity
    ensures MergePushedAll(s, ps).len == s.len + |ps|
    ensures Ring.Queue(MergePushedAll(s, ps))[..s.len] == Ring.Queue(s)
    decreases |ps|
  {
    if |ps| > 0 {
      MergePushAppends(s, ps[0]);
      var t := MergePushed(s, ps[0]);
      MergePushedAllLength(t, ps[1..]);
      assert Ring.Queue(t)[..s.len] == Ring.Queue(s);
      assert Ring.Queue(MergePushedAll(s, ps))[..s.len] == Ring.Queue(MergePushedAll(t, ps[1..]))[..t.len][..s.len];
    }
  }

  /** clear: move the push index back by `len`, wrapping, and empty the queue without touching the slots. */
  function Rewound(s: Ring.RingState): Ring.RingState
    requires Ring.Shaped(s)
  {
    var back := if s.len > s.pushI then s.capacity - (s.len - s.pushI) else s.pushI - s.len;
    s.(pushI := back, popI := back, len := 0)
  }

  /** Rewinding brings both indices back to where the oldest queued pixel sits. */
  lemma RewindToPop(s: Ring.RingState)
    requires Ring.Valid(s)
    ensures Ring.Valid(Rewound(s)) && Ring.Queue(Rewound(s)) == []
    ensures Rewound(s).pushI == s.popI && Rewound(s).popI == s.popI && Rewound(s).buffer == s.buffer
  {
    if s.capacity > 0 {
      Ring.ModBelowTwice(s.popI + s.len, s.capacity);
      Ring.ModBelowTwice(s.popI, s.capacity);
      assert Rewound(s).pushI == s.popI;
    }
  }

  /** After a clear, the first push merges with the pixel that was at the front of the queue. */
  lemma ClearThenPushMerges(s: Ring.RingState, p: Pixel)
    requires Ring.Valid(s) && s.len > 0
    ensures Ring.Valid(Rewound(s))
    ensures Ring.Queue(MergePushed(Rewound(s), p)) == [Merged(Ring.Queue(s)[0], p)]
  {
    RewindToPop(s);
    MergePushAppends(Rewound(s), p);
    Ring.ModBelowTwice(s.popI, s.capacity);
  }

  /**
   * A clear followed by pushes that fit queues one slot per pixel, and the
   * first of them merges with the pixel that was at the front of the queue.
   */
  lemma ClearThenPushAllMerges(s: Ring.RingState, ps: seq<Pixel>)
    requires Ring.Valid(s) && |ps| <= s.capacity
    ensures Ring.Valid(Rewound(s))
    ensures |Ring.Queue(MergePushedAll(Rewound(s), ps))| == |ps|
    ensures s.len > 0 && |ps| > 0 ==> Ring.Queue(MergePushedAll(Rewound(s), ps))[0] == Merged(Ring.Queue(s)[0], ps[0])
  {
    RewindToPop(s);
    var r := Rewound(s);
    MergePushedAllLength(r, ps);
    if s.len > 0 && |ps| > 0 {
      ClearThenPushMerges(s, ps[0]);
      var t := MergePushed(r, ps[0]);
      MergePushAppends(r, ps[0]);
      MergePushedAllLength(t, ps[1..]);
      assert MergePushedAll(r, ps) == MergePushedAll(t, ps[1..]);
      assert Ring.Queue(MergePushedAll(r, ps))[..1] == Ring.Queue(t);
    }
  }

  /** full_clear: a clear, and every slot emptied. */
  function FullCleared(s: Ring.RingState): Ring.RingState
    requires Ring.Shaped(s)
  {
    Rewound(s).(buffer := seq(s.capacity, _ => None))
  }

  /** After a full clear nothing is queued and the next push stores its pixel unmerged. */
  lemma FullClearForgets(s: Ring.RingState, p: Pixel)
    requires Ring.Valid(s) && s.capacity > 0
    ensures Ring.Valid(FullCleared(s)) && Ring.Queue(FullCleared(s)) == []
    ensures Ring.Queue(MergePushed(FullCleared(s), p)) == [Some(p)]
  {
    RewindToPop(s);
    MergePushAppends(FullCleared(s), p);
  }

  class MergePixelFifo {
    const buffer: array<Option<Pixel>>
    const capacity: byte
    var pushI: byte
    var popI: byte
    var len: byte

    function Snapshot(): Ring.RingState
      reads this, buffer
    {
      Ring.RingState(buffer[..], capacity, pushI, popI, len)
    }

    predicate Valid()
      reads this, buffer
    {
      Ring.Valid(Snapshot())
    }

    /** with_capacity */
    constructor (capacity: byte)
      ensures Valid() && Snapshot() == Ring.Empty(capacity) && fresh(buffer)
    {
      buffer := new Option<Pixel>[capacity](_ => None);
      this.capacity := capacity;
      pushI, popI, len := 0, 0, 0;
    }

    method FullClear()
      requires Valid()
      modifies this, buffer
      ensures Valid() && Snapshot() == FullCleared(old(Snapshot()))
    {
      RewindToPop(Snapshot());
      Clear();
      for i := 0 to capacity
        invariant Snapshot() == old(Rewound(Snapshot())).(buffer := seq(i, _ => None) + old(buffer[..])[i..])
      {
        buffer[i] := None;
        assert buffer[..] == seq(i + 1, _ => None) + old(buffer[..])[i + 1..];
      }
      assert buffer[..] == seq(capacity, _ => None);
      assert Valid() by {
        RewindToPop(old(Snapshot()));
      }
    }

    method Push(pixel: Pixel)
      requires Valid()
      modifies this, buffer
      ensures Valid() && Snapshot() == MergePushed(old(Snapshot()), pixel)
    {
      MergePushAppends(Snapshot(), pixel);
      if len < capacity {
        var newPixel: Option<Pixel> :=
          match buffer[pushI]
          case Some(oldPixel) => if oldPixel.color == 0 then Some(pixel) else buffer[pushI]
          case None => Some(pixel);
        buffer[pushI] := newPixel;
        pushI := (pushI + 1) % capacity;
        len := len + 1;
      }
    }

    method Shift() returns (res: Option<Pixel>)
      requires Valid()
      modifies this, buffer
      ensures Valid() && (Snapshot(), res) == Ring.Shifted(old(Snapshot()))
    {
      Ring.ShiftKeepsValid(Snapshot());
      res := None;
      if len > 0 {
        res := buffer[popI];
        buffer[popI] := None;
        popI := (popI + 1) % capacity;
        len := len - 1;
      }
    }

    method Clear()
      requires Valid()
      modifies this
      ensures Valid() && Snapshot() == Rewound(old(Snapshot()))
    {
      RewindToPop(Snapshot());
      pushI := if len > pushI then capacity - (len - pushI) else pushI - len;
      popI := pushI;
      len := 0;
    }

    /** len: the number of queued pixels. */
    function Len(): (r: byte)
      reads this, buffer
      requires Valid()
      ensures r == |Ring.Queue(Snapshot())|
    {
      len
    }
  }
}
