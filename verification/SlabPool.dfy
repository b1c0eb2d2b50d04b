/** The bounded slab pool as the backends run it: a fixed box of byte arrays, a LIFO
    free list mutated in place, and owned handles whose drop returns their slot. */
module SlabPool {
  import opened Core

  const U32_RANGE := 0x1_0000_0000

  newtype u32 = x: int | 0 <= x < U32_RANGE

  /** The source's `as u32`, which keeps the low 32 bits. */
  function AsU32(n: nat): u32 {
    (n % U32_RANGE) as u32
  }

  /** `(0..capacity as u32).rev()`: slot 0 ends up on top of the stack. */
  function InitialFree(capacity: nat): seq<u32> {
    var top := AsU32(capacity);
    seq(top as nat, i requires 0 <= i < top as nat => (top as nat - 1 - i) as u32)
  }

  /** The cast loses nothing exactly for the capacities the constructor admits:
      only then does the initial free list name every slot once. */
  lemma InitialFreeNamesEverySlot(capacity: nat)
    ensures NoDuplicates(InitialFree(capacity))
    ensures (|InitialFree(capacity)| == capacity
             && forall i: u32 :: i in InitialFree(capacity) <==> i as nat < capacity)
       <==> capacity <= 0xFFFF_FFFF
  {
    var free := InitialFree(capacity);
    if capacity < U32_RANGE {
      forall i: u32 | i as nat < capacity
        ensures i in free
      {
        assert free[capacity - 1 - i as nat] == i;
      }
    }
  }

  /** An owned handle on one slot. It is moved from owner to owner, never shared. */
  datatype VecSlab = VecSlab(index: u32, len: nat) {
    /** Records a length without checking it. */
    function SetLen(len: nat): VecSlab {
      this.(len := len)
    }
  }

  class VecPool {
    const slabs: seq<array<Byte>>
    const slabSize: nat
    var free: seq<u32>
    /** The slots some live handle owns. */
    ghost var held: set<u32>
    /** The memory behind the slots. */
    ghost const memory: set<array<Byte>>

    /** The slot array never changes shape, and no two slots share memory. */
    ghost predicate Shape()
    {
      && 0 < |slabs| < U32_RANGE
      && 0 < slabSize
      && (forall i | 0 <= i < |slabs| :: slabs[i].Length == slabSize && slabs[i] in memory)
      && NoDuplicates(slabs)
    }

    /** Free slots and held slots partition the slot array. */
    ghost predicate Partition()
      reads this
    {
      && NoDuplicates(free)
      && (forall i: u32 | i in free :: i as int < |slabs|)
      && (forall i: u32 | i as int < |slabs| :: i in free <==> i !in held)
    }

    /** The ownership argument behind the hand-written `Sync`. */
    ghost predicate Valid()
      reads this
    {
      && Shape()
      && (forall i: u32 | i in held :: i as int < |slabs|)
      && |free| + |held| == |slabs|
      && Partition()
    }

    /** Panics unless the sizes are non-zero and every slot number fits a u32. */
    constructor (capacity: nat, slabSize: nat)
      requires 0 < capacity <= 0xFFFF_FFFF && 0 < slabSize
      ensures Valid() && fresh(memory)
      ensures |slabs| == capacity && this.slabSize == slabSize && held == {}
      ensures |free| == capacity && forall i | 0 <= i < capacity :: free[i] as int == capacity - 1 - i
      ensures forall i | 0 <= i < capacity :: slabs[i][..] == seq(slabSize, _ => 0)
    {
      var boxes: seq<array<Byte>> := [];
      while |boxes| < capacity
        invariant |boxes| <= capacity
        invariant fresh(boxes) && NoDuplicates(boxes)
        invariant forall i | 0 <= i < |boxes| :: boxes[i].Length == slabSize
        invariant forall i, k | 0 <= i < |boxes| && 0 <= k < slabSize :: boxes[i][k] == 0
      {
        var a := new Byte[slabSize](_ => 0);
        boxes := boxes + [a];
      }
      this.slabs := boxes;
      this.slabSize := slabSize;
      this.memory := set a | a in boxes;
      this.free := InitialFree(capacity);
      this.held := {};
      InitialFreeNamesEverySlot(capacity);
    }

    method Capacity() returns (n: nat)
      ensures n == |slabs|
    {
      n := |slabs|;
    }

    method InUse() returns (n: nat)
      requires Valid()
      ensures n == |held| <= |slabs|
    {
      n := |slabs| - |free|;
    }

    /** Pop a slot for a fresh handle; `None` when the request is wider than a slab
        or no slot is free. */
    method Acquire(len: nat) returns (r: Option<VecSlab>)
      requires Valid()
      modifies this
      ensures Valid()
      ensures r.None? <==> len > slabSize || old(|held|) == |slabs|
      ensures r.None? ==> free == old(free) && held == old(held)
      ensures r.Some? ==>
        var s := r.value;
        && s.len == 0 && s.index as int < |slabs|
        && old(free) == free + [s.index]
        && held == old(held) + {s.index} && s.index !in old(held)
    {
      if len > slabSize || |free| == 0 {
        return None;
      }
      var index := free[|free| - 1];
      free := free[..|free| - 1];
      assert forall i: u32 :: i in old(free) <==> i in free || i == index;
      held := held + {index};
      r := Some(VecSlab(index, 0));
    }

    /** The bytes of every slot. */
    ghost function Memory(): (m: seq<seq<Byte>>)
      requires Shape()
      reads memory
      ensures |m| == |slabs| && forall i | 0 <= i < |m| :: m[i] == slabs[i][..]
    {
      seq(|slabs|, i requires 0 <= i < |slabs| && Shape() reads memory => slabs[i][..])
    }

    /** The full-width slot, for a receive to write into. */
    method BufMut(s: VecSlab) returns (buf: array<Byte>)
      requires Shape() && s.index as int < |slabs|
      ensures buf == slabs[s.index as int]
    {
      buf := slabs[s.index as int];
    }

    /** The filled part of the slot; a recorded length past the slot is clamped here. */
    function AsRef(s: VecSlab): (bytes: seq<Byte>)
      requires Shape() && s.index as int < |slabs|
      reads memory
      ensures bytes <= slabs[s.index as int][..] && |bytes| == Min(s.len, slabSize)
    {
      slabs[s.index as int][..Min(s.len, slabSize)]
    }

    /** Any thread may drop a handle; its slot goes on top of the free list. */
    method Drop(s: VecSlab)
      requires Valid() && s.index in held
      modifies this
      ensures Valid()
      ensures free == old(free) + [s.index] && held == old(held) - {s.index}
    {
      free := free + [s.index];
      held := held - {s.index};
    }
  }
}
