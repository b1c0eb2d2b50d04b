/** The datagram conformance suite, run against any FIFO source that keeps the burst
    contract, on pools of any size. */
module Conformance {
  import opened Core
  import opened Batch
  import U = UdpBackend
  import M = MockSource

  /** The burst contract, with `free` slabs not behind a live handle when the call starts: a
      queue prefix of at most `cap` datagrams, each on a slab; zero only when nothing was
      wanted or queued; `PoolExhausted` only when a frame was wanted and no slab was free,
      with or without data queued. */
  predicate KeepsContract<T(==)>(queue: seq<T>, free: nat, cap: nat, r: Result<nat>, got: seq<T>, left: seq<T>) {
    && got + left == queue
    && if r.Ok? then r.value == |got| <= Min(cap, free) && (|got| == 0 ==> cap == 0 || |queue| == 0)
       else r.error.PoolExhausted? && |got| == 0 && cap > 0 && free == 0
  }

  /** Both socket backends keep the contract when the kernel is left alone. */
  lemma BackendKeepsContract(queue: seq<U.Packet>, script: seq<U.Turn>, free: nat, cap: nat, capacity: nat)
    requires U.Quiet(script)
    ensures var r := U.Reap(queue, script, free, cap);
            KeepsContract(queue, free, cap, U.BurstResult(r, capacity), r.got, r.queue)
  {
    hide U.Reap;
    U.BurstClosedForm(queue, script, free, cap, capacity);
  }

  /** So does the mock. */
  lemma MockKeepsContract(pending: seq<seq<Byte>>, free: nat, cap: nat, capacity: nat)
    ensures var b := M.MockBurst(pending, free, cap, capacity);
            KeepsContract(pending, free, cap, b.result, b.payloads, b.left)
  {
  }

  /** Some number from 1 to `most`. */
  function Pick(choice: nat, most: nat): (n: nat)
    requires most > 0
    ensures 1 <= n <= most
  {
    1 + choice % most
  }

  /** A datagram, known by its place in the load. */
  type Load = nat

  /** Any source keeping the contract. `choices` settles what the contract leaves open: how
      long a burst is, which answer an idle source with an empty pool gives, and whether a
      dropped slab is back at once or waits in a return queue for the next burst. */
  class Source {
    var queue: seq<Load>
    const capacity: nat
    const slabSize: nat
    /** Slabs behind live handles, and dropped slabs still in the return queue. */
    var live: nat
    var returning: nat
    var choices: seq<nat>

    ghost predicate Valid()
      reads this
    {
      live + returning <= capacity && 0 < slabSize
    }

    constructor Build(count: nat, capacity: nat, slabSize: nat, choices: seq<nat>)
      requires 0 < slabSize
      ensures Valid() && |queue| == count && live == 0 && returning == 0
      ensures this.capacity == capacity && this.slabSize == slabSize
    {
      this.queue := seq(count, i => i);
      this.capacity := capacity;
      this.slabSize := slabSize;
      this.live := 0;
      this.returning := 0;
      this.choices := choices;
    }

    method Choose() returns (c: nat)
      modifies this`choices
    {
      c := if |choices| == 0 then 0 else choices[0];
      choices := if |choices| == 0 then [] else choices[1..];
    }

    method InUse() returns (n: nat)
      ensures n == live + returning
    {
      n := live + returning;
    }

    method Acquire(len: nat) returns (ok: bool)
      requires Valid()
      modifies this`live
      ensures Valid()
      ensures ok <==> len <= slabSize && old(live) + returning < capacity
      ensures live == if ok then old(live) + 1 else old(live)
    {
      ok := len <= slabSize && live + returning < capacity;
      if ok {
        live := live + 1;
      }
    }

    method DropSlab()
      requires Valid() && live > 0
      modifies this`live, this`returning, this`choices
      ensures Valid() && live == old(live) - 1
      ensures old(returning) <= returning <= old(returning) + 1
    {
      var defer := Choose();
      live := live - 1;
      if defer % 2 == 1 {
        returning := returning + 1;
      }
    }

    /** Land the next `n` datagrams, each on a slab. */
    method Take(out: FrameBatch<Load>, n: nat) returns (ghost got: seq<Load>)
      requires Valid() && out.Valid()
      requires n <= |queue| && n <= capacity - live - returning && n <= out.capacity - |out.frames|
      modifies this`queue, this`live, out
      ensures Valid() && out.Valid() && out.capacity == old(out.capacity)
      ensures |got| == n && got + queue == old(queue) && out.frames == old(out.frames) + got
      ensures live == old(live) + n
    {
      got := [];
      for i := 0 to n
        invariant Valid() && out.Valid() && out.capacity == old(out.capacity)
        invariant |got| == i && live == old(live) + i
        invariant got + queue == old(queue) && out.frames == old(out.frames) + got
      {
        ghost var was := queue;
        out.Push(queue[0]);
        got := got + [queue[0]];
        queue := queue[1..];
        live := live + 1;
        assert was == [was[0]] + queue;
      }
    }

    method RecvBurst(out: FrameBatch<Load>, max: nat) returns (r: Result<nat>, ghost got: seq<Load>)
      requires Valid() && out.Valid()
      modifies this, out
      ensures Valid() && out.Valid() && out.capacity == old(out.capacity)
      ensures KeepsContract(old(queue), capacity - old(live), Min(max, old(out.capacity - |out.frames|)), r, got, queue)
      ensures out.frames == old(out.frames) + got
      ensures live == old(live) + |got| && returning == 0
    {
      got := [];
      returning := 0;
      var spare := out.Spare();
      var cap := Min(max, spare);
      var choice := Choose();
      if cap == 0 {
        return Ok(0), got;
      }
      if live == capacity && (|queue| > 0 || choice % 2 == 1) {
        return Err(PoolExhausted(capacity, capacity)), got;
      }
      if |queue| == 0 {
        return Ok(0), got;
      }
      var n := Pick(choice, Min(cap, Min(capacity - live, |queue|)));
      got := Take(out, n);
      r := Ok(n);
    }
  }

  /** `for _ in batch.drain() {}`: every frame is dropped as it is yielded. */
  method DropAll(src: Source, batch: FrameBatch<Load>)
    requires src.Valid() && batch.Valid() && |batch.frames| <= src.live
    modifies src`live, src`returning, src`choices, batch`frames
    ensures src.Valid() && batch.Valid() && batch.frames == []
    ensures src.live == old(src.live) - old(|batch.frames|)
    ensures old(src.returning) <= src.returning <= old(src.returning) + old(|batch.frames|)
  {
    var iter := batch.Drain();
    while |iter.rest| > 0
      modifies iter, src`live, src`returning, src`choices
      invariant src.Valid() && |iter.rest| <= old(|batch.frames|)
      invariant src.live == old(src.live) - (old(|batch.frames|) - |iter.rest|)
      invariant old(src.returning) <= src.returning <= old(src.returning) + (old(|batch.frames|) - |iter.rest|)
    {
      var next := iter.Next();
      src.DropSlab();
    }
  }

  // ---------------------------------------------------------------- the five cases

  datatype Case =
    | BurstLeqMax
    | SingleIsBurstOfOne
    | DrainsToOkZero
    | PoolReclaimAfterForeignDrop
    | PoolExhaustedWhenEmpty

  /** How to build a source: how many slabs and which free choices it gets for a load of
      `count` datagrams, its slab size, and what the allocator grants for a batch of 64. */
  datatype Builder = Builder(room: nat -> nat, choices: nat -> seq<nat>, slabSize: nat, granted: nat)
  {
    predicate Valid() {
      0 < slabSize && 64 <= granted
    }
  }

  method CaseBurstLeqMax(b: Builder) returns (pass: bool)
    requires b.Valid()
    ensures pass <==> b.room(5) >= 1
  {
    var src := new Source.Build(5, b.room(5), b.slabSize, b.choices(5));
    var batch := new FrameBatch<Load>.WithCapacity(64, b.granted);
    var r, _ := src.RecvBurst(batch, 3);
    match r {
      case Err(_) => return false;
      case Ok(n) =>
        if n > 3 {
          return false;
        }
        if |batch.frames| != n {
          return false;
        }
        pass := true;
    }
  }

  method CaseSingleBurst(b: Builder) returns (pass: bool)
    requires b.Valid()
    ensures pass <==> b.room(3) >= 1
  {
    var src := new Source.Build(3, b.room(3), b.slabSize, b.choices(3));
    var batch := new FrameBatch<Load>.WithCapacity(64, b.granted);
    var n := 0;
    for i := 0 to 8
      invariant src.Valid() && batch.Valid() && fresh(src) && fresh(batch) && src.capacity == b.room(3)
      invariant |batch.frames| == 0 && batch.capacity >= 64 && i == 0 && n == 0
      invariant src.live == 0 && |src.queue| == 3
    {
      var r, _ := src.RecvBurst(batch, 1);
      if r.Err? {
        return false;
      }
      n := r.value;
      if n > 0 {
        break;
      }
    }
    pass := n == 1;
  }

  method CaseDrainsToOkZero(b: Builder) returns (pass: bool)
    requires b.Valid()
    ensures pass <==> b.room(2) >= 1
  {
    var src := new Source.Build(2, b.room(2), b.slabSize, b.choices(2));
    var batch := new FrameBatch<Load>.WithCapacity(64, b.granted);
    var reaped := 0;
    for i := 0 to 1024
      invariant src.Valid() && batch.Valid() && fresh(src) && fresh(batch) && src.capacity == b.room(2)
      invariant batch.frames == [] && batch.capacity >= 64 && src.live == 0
      invariant reaped + |src.queue| == 2 && reaped >= i
      invariant reaped > 0 ==> src.capacity >= 1
    {
      var r, _ := src.RecvBurst(batch, 8);
      if r.Err? {
        return false;
      }
      var n := r.value;
      if n > 8 {
        return false;
      }
      reaped := reaped + n;
      DropAll(src, batch);
      if n == 0 {
        break;
      }
    }
    if reaped < 2 {
      return false;
    }
    var after, _ := src.RecvBurst(batch, 8);
    pass := after == Ok(0);
  }

  method CasePoolReclaim(b: Builder) returns (pass: bool)
    requires b.Valid()
    ensures pass <==> b.room(2) >= 2
  {
    var src := new Source.Build(2, b.room(2), b.slabSize, b.choices(2));
    var batch := new FrameBatch<Load>.WithCapacity(64, b.granted);
    var frames: seq<Load> := [];
    for i := 0 to 1024
      invariant src.Valid() && batch.Valid() && fresh(src) && fresh(batch) && src.capacity == b.room(2)
      invariant batch.frames == [] && batch.capacity >= 64
      invariant src.live == |frames| && |frames| + |src.queue| == 2 && i <= |frames| < 2
    {
      var r, _ := src.RecvBurst(batch, 8);
      if r.Err? {
        return false;
      }
      var iter := batch.Drain();
      frames := frames + iter.rest;
      if |frames| >= 2 || r.value == 0 {
        break;
      }
    }
    if |frames| < 2 {
      return false;
    }
    var inUse := src.InUse();
    if inUse == 0 {
      return false;
    }
    // The frames go to another thread, which drops them and is joined.
    while |frames| > 0
      modifies src
      invariant src.Valid() && src.live == |frames|
      invariant |src.queue| == 0 && src.capacity >= 2
    {
      src.DropSlab();
      frames := frames[1..];
    }
    var r, _ := src.RecvBurst(batch, 8);
    if r.Err? {
      return false;
    }
    DropAll(src, batch);
    inUse := src.InUse();
    pass := inUse == 0;
  }

  method CasePoolExhausted(b: Builder) returns (pass: bool)
    requires b.Valid()
    ensures pass
  {
    var src := new Source.Build(2, b.room(2), b.slabSize, b.choices(2));
    var held := 0;
    var ok := src.Acquire(1);
    while ok
      invariant src.Valid() && src.capacity == b.room(2) && src.returning == 0 && |src.queue| == 2
      invariant src.live == held + (if ok then 1 else 0)
      invariant !ok ==> src.live == src.capacity
      decreases src.capacity - held, ok
    {
      held := held + 1;
      if held > src.capacity {
        return false;
      }
      ok := src.Acquire(1);
    }
    var batch := new FrameBatch<Load>.WithCapacity(64, b.granted);
    var r, _ := src.RecvBurst(batch, 8);
    pass := r.Err? && r.error.PoolExhausted?;
  }

  // ---------------------------------------------------------------- the suite

  datatype Report = Report(passed: seq<Case>, failed: seq<Case>)

  function Record(report: Report, c: Case, pass: bool): (r: Report)
    ensures forall x :: x in r.passed <==> x in report.passed || (pass && x == c)
    ensures forall x :: x in r.failed <==> x in report.failed || (!pass && x == c)
    ensures |r.passed| + |r.failed| == |report.passed| + |report.failed| + 1
    ensures r.failed == [] <==> report.failed == [] && pass
  {
    if pass then report.(passed := report.passed + [c]) else report.(failed := report.failed + [c])
  }

  /** The suite terminates, judges every case once, and passes the cases whose sources have
      room: all five exactly when the loads of 5 and 3 get a slab and the load of 2 gets two. */
  method RunDatagramSource(b: Builder) returns (report: Report)
    requires b.Valid()
    ensures BurstLeqMax in report.passed <==> b.room(5) >= 1
    ensures SingleIsBurstOfOne in report.passed <==> b.room(3) >= 1
    ensures DrainsToOkZero in report.passed <==> b.room(2) >= 1
    ensures PoolReclaimAfterForeignDrop in report.passed <==> b.room(2) >= 2
    ensures PoolExhaustedWhenEmpty in report.passed
    ensures forall c :: c in report.failed <==> c !in report.passed
    ensures |report.passed| + |report.failed| == 5
    ensures report.failed == [] <==> b.room(5) >= 1 && b.room(3) >= 1 && b.room(2) >= 2
  {
    hide Record;
    report := Report([], []);
    var pass := CaseBurstLeqMax(b);
    report := Record(report, BurstLeqMax, pass);
    pass := CaseSingleBurst(b);
    report := Record(report, SingleIsBurstOfOne, pass);
    pass := CaseDrainsToOkZero(b);
    report := Record(report, DrainsToOkZero, pass);
    pass := CasePoolReclaim(b);
    report := Record(report, PoolReclaimAfterForeignDrop, pass);
    pass := CasePoolExhausted(b);
    report := Record(report, PoolExhaustedWhenEmpty, pass);
  }
}
