/** The bounded single-producer, single-consumer FIFO between the capture callback and the
    playback callback (a `ringbuf` ring buffer of `f32`), seen through its observable
    behaviour: a push fails when the buffer is full, a pop yields the oldest sample or
    nothing. */
module SampleQueues {
  import opened Options

  /** Both modes create their ring buffer with room for this many samples. */
  const Capacity: nat := 8192

  class SampleQueue {
    /** The samples waiting in the buffer, oldest first. */
    var items: seq<real>
    const capacity: nat
    /** Every sample the buffer has ever accepted, and every sample it has handed out. */
    ghost var accepted: seq<real>
    ghost var delivered: seq<real>

    /** The buffer never holds more than its capacity, and what it holds is exactly what was
        accepted and not yet delivered, in order. */
    ghost predicate Valid()
      reads this
    {
      |items| <= capacity && accepted == delivered + items
    }

    constructor (capacity: nat)
      ensures Valid()
      ensures this.capacity == capacity
      ensures items == [] && accepted == [] && delivered == []
    {
      this.capacity := capacity;
      items := [];
      accepted := [];
      delivered := [];
    }

    /** `Producer::push`: appends the sample when there is room and reports whether it did. */
    method Push(x: real) returns (ok: bool)
      requires Valid()
      modifies this
      ensures Valid()
      ensures ok <==> |old(items)| < capacity
      ensures items == if ok then old(items) + [x] else old(items)
      ensures accepted == if ok then old(accepted) + [x] else old(accepted)
      ensures delivered == old(delivered)
    {
      ok := |items| < capacity;
      if ok {
        items := items + [x];
        accepted := accepted + [x];
      }
    }

    /** `Consumer::pop`: removes and yields the oldest sample, or yields nothing when empty.
        Whatever it yields was pushed earlier, and samples leave in the order they came. */
    method Pop() returns (r: Option<real>)
      requires Valid()
      modifies this
      ensures Valid()
      ensures old(items) == [] ==> r == None && items == [] && delivered == old(delivered)
      ensures old(items) != [] ==>
        && r == Some(old(items)[0])
        && items == old(items)[1..]
        && delivered == old(delivered) + [old(items)[0]]
      ensures accepted == old(accepted)
      ensures delivered <= accepted
      ensures r.Some? ==> r.value in accepted
    {
      if items == [] {
        r := None;
      } else {
        r := Some(items[0]);
        delivered := delivered + [items[0]];
        items := items[1..];
        assert accepted == old(delivered) + old(items);
        assert old(items) == [old(items)[0]] + items;
      }
    }
  }

  /** `RingBuffer::<f32>::new(8192)`: the ring buffer each mode creates, empty and with room
      for `Capacity` samples. */
  method NewRingBuffer() returns (q: SampleQueue)
    ensures fresh(q) && q.Valid()
    ensures q.capacity == Capacity
    ensures q.items == [] && q.accepted == [] && q.delivered == []
  {
    q := new SampleQueue(Capacity);
  }
}
