/** The reusable burst container and its draining iterator. */
module Batch {
  import opened Core

  class FrameBatch<F> {
    var frames: seq<F>
    /** Capacity of the backing allocation. */
    var capacity: nat

    predicate Valid()
      reads this
    {
      |frames| <= capacity
    }

    /** `granted` is what the allocator gave for the request; it may round up. */
    constructor WithCapacity(cap: nat, granted: nat)
      requires cap <= granted
      ensures Valid() && frames == [] && capacity == granted
    {
      frames := [];
      capacity := granted;
    }

    method Spare() returns (n: nat)
      requires Valid()
      ensures n == capacity - |frames|
    {
      n := capacity - |frames|;
    }

    /** The backing allocation is kept while there is room, and replaced otherwise. */
    method Push(frame: F)
      requires Valid()
      modifies this
      ensures Valid() && frames == old(frames) + [frame]
      ensures capacity == old(capacity) <==> old(|frames|) < old(capacity)
    {
      if |frames| == capacity {
        capacity := 2 * capacity + 1;
      }
      frames := frames + [frame];
    }

    /** The batch is empty from here on, whatever the iterator goes on to yield. */
    method Drain() returns (d: DrainIter<F>)
      requires Valid()
      modifies this`frames
      ensures Valid() && frames == [] && fresh(d) && d.rest == old(frames)
    {
      d := new DrainIter(frames);
      frames := [];
    }
  }

  class DrainIter<F> {
    var rest: seq<F>

    constructor (rest: seq<F>)
      ensures this.rest == rest
    {
      this.rest := rest;
    }

    method Next() returns (r: Option<F>)
      modifies this
      ensures old(rest) == [] ==> r == None && rest == []
      ensures old(rest) != [] ==> r == Some(old(rest)[0]) && rest == old(rest)[1..]
    {
      if |rest| == 0 {
        return None;
      }
      r := Some(rest[0]);
      rest := rest[1..];
    }
  }
}
