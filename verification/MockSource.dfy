/** The conformance suite's mock: a deque of payloads and a counting pool behind the same
    `recv_burst` signature, and how far it agrees with the socket backends. */
module MockSource {
  import opened Core
  import opened Batch
  import U = UdpBackend

  /** One thread's view of the counting pool; `CounterPool` has the interleaved one. */
  class MockPool {
    const capacity: nat
    var inUse: nat

    ghost predicate Valid()
      reads this
    {
      inUse <= capacity
    }

    constructor (capacity: nat)
      ensures Valid() && this.capacity == capacity && inUse == 0
    {
      this.capacity := capacity;
      this.inUse := 0;
    }

    /** Bump first, test afterwards, and take the bump back from a full pool. */
    method Acquire() returns (ok: bool)
      requires Valid()
      modifies this
      ensures Valid()
      ensures ok <==> old(inUse) < capacity
      ensures inUse == if ok then old(inUse) + 1 else old(inUse)
    {
      var prev := inUse;
      inUse := inUse + 1;
      if prev >= capacity {
        inUse := inUse - 1;
        return false;
      }
      ok := true;
    }

    method DropSlab()
      requires Valid() && inUse > 0
      modifies this
      ensures Valid() && inUse == old(inUse) - 1
    {
      inUse := inUse - 1;
    }
  }

  /** What one burst hands over, what it leaves, how many slabs stay free, and what it says. */
  datatype Burst = Burst(payloads: seq<seq<Byte>>, left: seq<seq<Byte>>, free: nat, result: Result<nat>)

  /** The mock looks at its deque first, so an idle source never reports exhaustion. */
  function MockBurst(pending: seq<seq<Byte>>, free: nat, cap: nat, capacity: nat): Burst {
    var m := Min(cap, Min(free, |pending|));
    Burst(pending[..m], pending[m..], free - m,
          if cap > 0 && pending != [] && free == 0 then Err(PoolExhausted(capacity, capacity)) else Ok(m))
  }

  class Mock {
    var pending: seq<seq<Byte>>
    const pool: MockPool

    /** `build(count)` of the mock's own run: 8 slabs, payloads of four equal bytes. */
    constructor Build(count: nat)
      ensures fresh(pool) && pool.Valid() && pool.capacity == 8 && pool.inUse == 0
      ensures |pending| == count && forall i | 0 <= i < count :: pending[i] == seq(4, _ => i % 256)
    {
      pending := seq(count, i requires 0 <= i < count => seq(4, _ => (i % 256) as Byte));
      pool := new MockPool(8);
    }

    method RecvBurst(out: FrameBatch<seq<Byte>>, max: nat) returns (r: Result<nat>)
      requires pool.Valid() && out.Valid()
      modifies this, pool, out
      ensures pool.Valid() && out.Valid() && out.capacity == old(out.capacity)
      ensures var b := MockBurst(old(pending), pool.capacity - old(pool.inUse),
                                 Min(max, old(out.capacity - |out.frames|)), pool.capacity);
              && r == b.result && pending == b.left && pool.capacity - pool.inUse == b.free
              && out.frames == old(out.frames) + b.payloads
    {
      var spare := out.Spare();
      var cap := Min(max, spare);
      var n := 0;
      while n < cap
        invariant pool.Valid() && out.Valid() && out.capacity == old(out.capacity)
        invariant n <= cap && n <= |old(pending)| && pool.inUse == old(pool.inUse) + n
        invariant pending == old(pending)[n..]
        invariant out.frames == old(out.frames) + old(pending)[..n]
      {
        if |pending| == 0 {
          break;
        }
        var ok := pool.Acquire();
        if !ok {
          if n == 0 {
            return Err(PoolExhausted(pool.inUse, pool.capacity));
          }
          break;
        }
        var bytes := pending[0];
        pending := pending[1..];
        out.Push(bytes);
        n := n + 1;
      }
      r := Ok(n);
    }
  }

  function Payloads(packets: seq<U.Packet>): seq<seq<Byte>> {
    seq(|packets|, i requires 0 <= i < |packets| => packets[i].bytes)
  }

  /** What a socket backend's burst looks like to the same caller. */
  function BackendBurst(queue: seq<U.Packet>, script: seq<U.Turn>, free: nat, cap: nat, capacity: nat,
      slabSize: nat): Burst
  {
    var r := U.Reap(queue, script, free, cap);
    U.ReapWhole(queue, script, free, cap);
    Burst(seq(|r.got|, i requires 0 <= i < |r.got| => Cut(r.got[i].bytes, slabSize)),
          Payloads(r.queue), free - |r.got|, U.BurstResult(r, capacity))
  }

  /** On the same load the mock and a backend left alone agree on everything, result,
      payloads, what stays queued and slabs left, unless the pool is empty with nothing
      queued and a frame wanted, where the mock says `Ok(0)` and the backend
      `PoolExhausted`, or a packet the burst takes is wider than a slab. */
  lemma MockAgreesIff(
      queue: seq<U.Packet>, script: seq<U.Turn>, free: nat, cap: nat, capacity: nat, slabSize: nat)
    requires U.Quiet(script)
    ensures BackendBurst(queue, script, free, cap, capacity, slabSize)
            == MockBurst(Payloads(queue), free, cap, capacity)
       <==> && !(cap > 0 && free == 0 && queue == [])
            && forall k | 0 <= k < Min(cap, Min(free, |queue|)) :: |queue[k].bytes| <= slabSize
    ensures cap > 0 && free == 0 && queue == [] ==>
              && MockBurst(Payloads(queue), free, cap, capacity).result == Ok(0)
              && BackendBurst(queue, script, free, cap, capacity, slabSize).result
                 == Err(PoolExhausted(capacity, capacity))
  {
    hide U.Reap;
    U.BurstClosedForm(queue, script, free, cap, capacity);
    U.ReapWhole(queue, script, free, cap);
    var m := Min(cap, Min(free, |queue|));
    var backend := BackendBurst(queue, script, free, cap, capacity, slabSize);
    var mock := MockBurst(Payloads(queue), free, cap, capacity);
    assert backend.left == mock.left && backend.free == mock.free && |backend.payloads| == |mock.payloads| == m;
    forall k | 0 <= k < m
      ensures backend.payloads[k] == mock.payloads[k] <==> |queue[k].bytes| <= slabSize
    {
    }
    assert backend.payloads == mock.payloads <==> forall k | 0 <= k < m :: backend.payloads[k] == mock.payloads[k];
  }
}
