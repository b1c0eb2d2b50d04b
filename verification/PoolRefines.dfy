/** The array-backed pool of `SlabPool` does what the step system of `PoolSystem` says: each
    call is the step of the same name, seen through the handles that are out. */
module PoolRefines {
  import opened Core
  import opened SlabPool
  import P = PoolSystem

  /** Who owns what: each live handle under its id. */
  datatype Out = Out(slab: VecSlab, owner: P.Thread)

  function Slot(o: Out): nat {
    o.slab.index as nat
  }

  /** `p` is the pool with free list `free`, held slots `held` and memory `memory`, and with
      the handles `outs` out. */
  ghost predicate Shows(free: seq<u32>, held: set<u32>, memory: seq<seq<Byte>>, slabSize: nat,
                        outs: map<P.Id, Out>, p: P.Pool)
  {
    && p.slabSize == slabSize && p.slots == memory
    && |p.free| == |free| && (forall k | 0 <= k < |free| :: p.free[k] == free[k] as nat)
    && p.live.Keys == outs.Keys
    && (forall id | id in outs ::
          p.live[id] == P.Handle(outs[id].owner, Slot(outs[id]), outs[id].slab.len) && outs[id].slab.index in held)
    && (forall i | i in held :: exists id :: id in outs && outs[id].slab.index == i)
  }

  ghost predicate Refines(pool: VecPool, outs: map<P.Id, Out>, p: P.Pool)
    requires pool.Shape()
    reads pool, pool.memory
  {
    Shows(pool.free, pool.held, pool.Memory(), pool.slabSize, outs, p) && P.Inv(p)
  }

  method Build(capacity: nat, slabSize: nat) returns (pool: VecPool)
    requires 0 < capacity < U32_RANGE && 0 < slabSize
    ensures fresh(pool) && fresh(pool.memory) && pool.Valid()
    ensures Refines(pool, map[], P.Init(capacity, slabSize))
  {
    pool := new VecPool(capacity, slabSize);
    P.InitInv(capacity, slabSize);
    assert pool.Memory() == P.Init(capacity, slabSize).slots;
  }

  lemma AcquireShows(free: seq<u32>, held: set<u32>, memory: seq<seq<Byte>>, slabSize: nat,
                     outs: map<P.Id, Out>, p: P.Pool, free': seq<u32>, s: VecSlab, who: P.Thread, len: nat)
    requires Shows(free, held, memory, slabSize, outs, p) && p.nextId !in p.live
    requires free == free' + [s.index] && s.len == 0 && len <= slabSize
    ensures Shows(free', held + {s.index}, memory, slabSize, outs[p.nextId := Out(s, who)],
                  P.Next(p, P.Acquire(who, len)))
  {
    var p', outs' := P.Next(p, P.Acquire(who, len)), outs[p.nextId := Out(s, who)];
    assert p'.live.Keys == outs'.Keys;
    forall i | i in held + {s.index}
      ensures exists id :: id in outs' && outs'[id].slab.index == i
    {
      if i == s.index {
        assert outs'[p.nextId].slab.index == i;
      } else {
        var id :| id in outs && outs[id].slab.index == i;
        assert outs'[id].slab.index == i;
      }
    }
  }

  /** `acquire` succeeds exactly when the step does, on the same slot. */
  method Acquire(pool: VecPool, ghost outs: map<P.Id, Out>, ghost p: P.Pool, ghost who: P.Thread, len: nat)
    returns (r: Option<VecSlab>, ghost outs': map<P.Id, Out>)
    requires pool.Valid() && Refines(pool, outs, p)
    modifies pool
    ensures pool.Valid() && Refines(pool, outs', P.Next(p, P.Acquire(who, len)))
    ensures r.Some? <==> P.Succeeds(p, len)
    ensures outs' == if r.Some? then outs[p.nextId := Out(r.value, who)] else outs
  {
    r := pool.Acquire(len);
    outs' := outs;
    P.StepInv(p, P.Acquire(who, len));
    if r.Some? {
      outs' := outs[p.nextId := Out(r.value, who)];
      AcquireShows(old(pool.free), old(pool.held), old(pool.Memory()), pool.slabSize,
                   outs, p, pool.free, r.value, who, len);
    }
  }

  lemma DropShows(free: seq<u32>, held: set<u32>, memory: seq<seq<Byte>>, slabSize: nat,
                  outs: map<P.Id, Out>, p: P.Pool, id: P.Id)
    requires Shows(free, held, memory, slabSize, outs, p) && id in outs
    requires forall other | other in p.live && other != id :: p.live[other].index != p.live[id].index
    ensures var s := outs[id].slab;
            Shows(free + [s.index], held - {s.index}, memory, slabSize, outs - {id},
                  P.Next(p, P.Drop(outs[id].owner, id)))
  {
    var s, p', outs' := outs[id].slab, P.Next(p, P.Drop(outs[id].owner, id)), outs - {id};
    assert p'.live.Keys == outs'.Keys;
    forall other | other in outs'
      ensures outs'[other].slab.index in held - {s.index}
    {
      assert p.live[other].index != p.live[id].index;
    }
    forall i | i in held - {s.index}
      ensures exists other :: other in outs' && outs'[other].slab.index == i
    {
      var other :| other in outs && outs[other].slab.index == i;
      assert outs'[other].slab.index == i;
    }
  }

  lemma OutIsHeld(free: seq<u32>, held: set<u32>, memory: seq<seq<Byte>>, slabSize: nat,
                  outs: map<P.Id, Out>, p: P.Pool, id: P.Id)
    requires Shows(free, held, memory, slabSize, outs, p) && id in outs
    ensures id in p.live && p.live[id].owner == outs[id].owner && outs[id].slab.index in held
  {
  }

  lemma OneHolder(p: P.Pool, id: P.Id)
    requires P.Inv(p) && id in p.live
    ensures forall other | other in p.live && other != id :: p.live[other].index != p.live[id].index
  {
    hide NoDuplicates;
    hide P.Taken;
  }

  lemma DropStep(free: seq<u32>, held: set<u32>, memory: seq<seq<Byte>>, slabSize: nat,
                 outs: map<P.Id, Out>, p: P.Pool, id: P.Id)
    requires Shows(free, held, memory, slabSize, outs, p) && P.Inv(p) && id in outs
    ensures var s, e := outs[id].slab, P.Drop(outs[id].owner, id);
            && s.index in held && P.Enabled(p, e) && P.Inv(P.Next(p, e))
            && Shows(free + [s.index], held - {s.index}, memory, slabSize, outs - {id}, P.Next(p, e))
  {
    OutIsHeld(free, held, memory, slabSize, outs, p, id);
    OneHolder(p, id);
    hide Shows;
    hide P.Inv;
    hide P.Next;
    DropShows(free, held, memory, slabSize, outs, p, id);
    P.StepInv(p, P.Drop(outs[id].owner, id));
  }

  /** Dropping a handle is the step of its owner. */
  method Drop(pool: VecPool, ghost outs: map<P.Id, Out>, ghost p: P.Pool, ghost id: P.Id, s: VecSlab)
    returns (ghost outs': map<P.Id, Out>)
    requires pool.Valid() && Refines(pool, outs, p) && id in outs && outs[id].slab == s
    modifies pool
    ensures pool.Valid() && id in p.live && p.live[id].owner == outs[id].owner
    ensures Refines(pool, outs', P.Next(p, P.Drop(outs[id].owner, id)))
    ensures outs' == outs - {id}
  {
    hide P.Inv;
    hide P.Next;
    hide Shows;
    hide VecPool.Partition;
    hide VecPool.Shape;
    hide VecPool.Memory;
    DropStep(pool.free, pool.held, pool.Memory(), pool.slabSize, outs, p, id);
    pool.Drop(s);
    outs' := outs - {id};
  }

  /** A handle reads the same bytes in both. */
  lemma AsRefAgrees(pool: VecPool, outs: map<P.Id, Out>, p: P.Pool, id: P.Id)
    requires pool.Valid() && Refines(pool, outs, p) && id in outs
    ensures p.live[id].index < |p.slots| && pool.AsRef(outs[id].slab) == p.AsRef(id)
  {
  }
}
