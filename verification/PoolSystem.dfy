/** The slab pool under any number of threads: each lock-protected pop or push and each
    access to a slot is one step, in any interleaving. Handles are named by ids that are
    never reused, so an id stands for one tenancy. */
module PoolSystem {
  import opened Core

  type Thread = nat
  type Id = nat

  /** A live handle and the thread that owns it; handles move between threads. */
  datatype Handle = Handle(owner: Thread, index: nat, len: nat)

  datatype Pool = Pool(
    slabSize: nat, free: seq<nat>, slots: seq<seq<Byte>>, live: map<Id, Handle>, nextId: Id)
  {
    function Capacity(): nat {
      |slots|
    }

    function InUse(): int {
      |slots| - |free|
    }

    /** The slot filled by handle `id`, as its owner reads it. */
    function AsRef(id: Id): seq<Byte>
      requires id in live && live[id].index < |slots|
    {
      Cut(slots[live[id].index], live[id].len)
    }
  }

  datatype Event =
    | Acquire(who: Thread, len: nat)
    | Write(who: Thread, id: Id, bytes: seq<Byte>)   // through `buf_mut`
    | SetLen(who: Thread, id: Id, len: nat)
    | Read(who: Thread, id: Id)                      // through `as_ref`
    | Move(who: Thread, id: Id, to: Thread)
    | Drop(who: Thread, id: Id)

  /** A pop succeeds when the request fits a slab and a slot is free. */
  predicate Succeeds(p: Pool, len: nat) {
    len <= p.slabSize && p.free != []
  }

  /** Rust's ownership: only the thread that owns a handle uses it, and a write through
      `buf_mut` covers the slot it borrows. */
  predicate Enabled(p: Pool, e: Event) {
    !e.Acquire? ==>
      && e.id in p.live && p.live[e.id].owner == e.who
      && (e.Write? ==> p.live[e.id].index < |p.slots| && |e.bytes| == |p.slots[p.live[e.id].index]|)
  }

  function Next(p: Pool, e: Event): Pool
    requires Enabled(p, e)
  {
    match e
    case Acquire(who, len) =>
      if Succeeds(p, len) then
        var n := |p.free| - 1;
        p.(free := p.free[..n], live := p.live[p.nextId := Handle(who, p.free[n], 0)], nextId := p.nextId + 1)
      else p
    case Write(_, id, bytes) => p.(slots := p.slots[p.live[id].index := bytes])
    case SetLen(_, id, len) => p.(live := p.live[id := p.live[id].(len := len)])
    case Read(_, id) => p
    case Move(_, id, to) => p.(live := p.live[id := p.live[id].(owner := to)])
    case Drop(_, id) => p.(free := p.free + [p.live[id].index], live := p.live - {id})
  }

  /** `VecPool::build`: every slot zeroed and free, slot 0 on top. */
  function Init(capacity: nat, slabSize: nat): Pool {
    Pool(slabSize, seq(capacity, i requires 0 <= i < capacity => capacity - 1 - i),
         seq(capacity, _ => seq(slabSize, _ => 0)), map[], 0)
  }

  /** Free slots and the slots of live handles partition the slot array, one each. */
  ghost predicate Inv(p: Pool) {
    && NoDuplicates(p.free)
    && (forall k | 0 <= k < |p.free| :: p.free[k] < |p.slots|)
    && (forall i | 0 <= i < |p.slots| :: |p.slots[i]| == p.slabSize)
    && (forall id | id in p.live :: id < p.nextId && p.live[id].index < |p.slots| && p.live[id].index !in p.free)
    && (forall a, b | a in p.live && b in p.live && p.live[a].index == p.live[b].index :: a == b)
    && (forall i | 0 <= i < |p.slots| && i !in p.free :: Taken(p, i))
    && |p.free| + |p.live| == |p.slots|
  }

  ghost predicate Taken(p: Pool, i: nat) {
    exists id :: id in p.live && p.live[id].index == i
  }

  lemma InitInv(capacity: nat, slabSize: nat)
    ensures Inv(Init(capacity, slabSize))
  {
    var p := Init(capacity, slabSize);
    forall i | 0 <= i < |p.slots|
      ensures i in p.free
    {
      assert p.free[capacity - 1 - i] == i;
    }
  }

  lemma AcquireTaken(p: Pool, e: Event)
    requires Inv(p) && e.Acquire? && Succeeds(p, e.len)
    ensures var p' := Next(p, e); forall j | 0 <= j < |p'.slots| && j !in p'.free :: Taken(p', j)
  {
    var p', n := Next(p, e), |p.free| - 1;
    hide NoDuplicates;
    forall j | 0 <= j < |p'.slots| && j !in p'.free
      ensures Taken(p', j)
    {
      if j == p.free[n] {
        assert p'.live[p.nextId].index == j;
      } else {
        assert j !in p.free by {
          assert p.free == p'.free + [p.free[n]];
        }
        assert Taken(p, j);
        var id :| id in p.live && p.live[id].index == j;
        assert p'.live[id].index == j;
      }
    }
  }

  lemma LastIsAlone(free: seq<nat>)
    requires NoDuplicates(free) && free != []
    ensures NoDuplicates(free[..|free| - 1]) && free[|free| - 1] !in free[..|free| - 1]
    ensures forall j :: j in free[..|free| - 1] ==> j in free
  {
  }

  lemma AcquireInv(p: Pool, e: Event)
    requires Inv(p) && e.Acquire? && Succeeds(p, e.len)
    ensures Inv(Next(p, e))
  {
    hide NoDuplicates;
    hide Taken;
    AcquireTaken(p, e);
    LastIsAlone(p.free);
    assert p.nextId !in p.live;
  }

  lemma DropTaken(p: Pool, e: Event)
    requires Inv(p) && e.Drop? && Enabled(p, e)
    ensures var p' := Next(p, e); forall j | 0 <= j < |p'.slots| && j !in p'.free :: Taken(p', j)
  {
    var p' := Next(p, e);
    hide NoDuplicates;
    forall j | 0 <= j < |p'.slots| && j !in p'.free
      ensures Taken(p', j)
    {
      assert j !in p.free && j != p.live[e.id].index;
      assert Taken(p, j);
      var id :| id in p.live && p.live[id].index == j;
      assert p'.live[id].index == j;
    }
  }

  lemma OneMoreIsAlone(free: seq<nat>, i: nat)
    requires NoDuplicates(free) && i !in free
    ensures NoDuplicates(free + [i])
    ensures forall j :: j in free + [i] <==> j in free || j == i
  {
  }

  lemma OneFewer(live: map<Id, Handle>, id: Id)
    requires id in live
    ensures |live - {id}| == |live| - 1
  {
    assert live.Keys == (live - {id}).Keys + {id};
    assert |live| == |live.Keys|;
  }

  lemma DropInv(p: Pool, e: Event)
    requires Inv(p) && e.Drop? && Enabled(p, e)
    ensures Inv(Next(p, e))
  {
    hide NoDuplicates;
    hide Taken;
    var p', i := Next(p, e), p.live[e.id].index;
    DropTaken(p, e);
    OneMoreIsAlone(p.free, i);
    OneFewer(p.live, e.id);
    assert forall id | id in p'.live :: id in p.live && p'.live[id] == p.live[id] && p.live[id].index != i;
  }

  lemma WriteInv(p: Pool, e: Event)
    requires Inv(p) && Enabled(p, e) && e.Write?
    ensures Inv(Next(p, e))
  {
    hide NoDuplicates;
    hide Taken;
    var p' := Next(p, e);
    assert p'.live == p.live && p'.free == p.free && p'.nextId == p.nextId;
    SameTaken(p, p');
  }

  lemma HandleInv(p: Pool, e: Event)
    requires Inv(p) && Enabled(p, e) && (e.SetLen? || e.Move?)
    ensures Inv(Next(p, e))
  {
    hide NoDuplicates;
    hide Taken;
    var p' := Next(p, e);
    assert p'.live.Keys == p.live.Keys;
    assert p'.slots == p.slots && p'.free == p.free && p'.nextId == p.nextId;
    assert forall id | id in p.live :: p'.live[id].index == p.live[id].index;
    SameTaken(p, p');
  }

  lemma SameTaken(p: Pool, p': Pool)
    requires p'.live.Keys == p.live.Keys
    requires forall id | id in p.live :: p'.live[id].index == p.live[id].index
    ensures forall i :: Taken(p, i) ==> Taken(p', i)
  {
    forall i | Taken(p, i)
      ensures Taken(p', i)
    {
      var id :| id in p.live && p.live[id].index == i;
      assert p'.live[id].index == i;
    }
  }

  lemma StepInv(p: Pool, e: Event)
    requires Inv(p) && Enabled(p, e)
    ensures Inv(Next(p, e))
  {
    if e.Acquire? {
      if Succeeds(p, e.len) {
        AcquireInv(p, e);
      }
    } else if e.Drop? {
      DropInv(p, e);
    } else if e.Write? {
      WriteInv(p, e);
    } else if !e.Read? {
      HandleInv(p, e);
    }
  }

  /** A run: states and the events between them, from a freshly built pool. */
  ghost predicate IsRun(ps: seq<Pool>, es: seq<Event>, capacity: nat, slabSize: nat) {
    && |ps| == |es| + 1
    && ps[0] == Init(capacity, slabSize)
    && forall i | 0 <= i < |es| :: Enabled(ps[i], es[i]) && ps[i + 1] == Next(ps[i], es[i])
  }

  /** In every state of every run, free and held slots partition the pool, and `in_use`
      is the number of live handles, never more than the capacity. */
  lemma {:induction false} RunPartition(ps: seq<Pool>, es: seq<Event>, capacity: nat, slabSize: nat, k: nat)
    requires IsRun(ps, es, capacity, slabSize) && k < |ps|
    ensures Inv(ps[k]) && ps[k].Capacity() == capacity && ps[k].slabSize == slabSize
    ensures ps[k].InUse() == |ps[k].live| <= capacity
  {
    if k == 0 {
      InitInv(capacity, slabSize);
    } else {
      RunPartition(ps, es, capacity, slabSize, k - 1);
      StepInv(ps[k - 1], es[k - 1]);
    }
  }

  /** Handle `id` is used by event `e`. */
  predicate Uses(e: Event, id: Id) {
    !e.Acquire? && e.id == id
  }

  /** One step keeps a live handle on its slot unless the step drops it, and a handle
      comes to life only by the pop that makes it. */
  lemma StepHandles(p: Pool, e: Event, id: Id)
    requires Inv(p) && Enabled(p, e)
    ensures id in p.live && !(e.Drop? && e.id == id) ==>
              id in Next(p, e).live && Next(p, e).live[id].index == p.live[id].index
    ensures id !in p.live && id in Next(p, e).live ==>
              && e.Acquire? && Succeeds(p, e.len) && id == p.nextId
              && Next(p, e).live[id].index == p.free[|p.free| - 1]
    ensures e.Drop? ==> e.id !in Next(p, e).live
    ensures p.nextId <= Next(p, e).nextId
  {
  }

  /** A handle live at `i` and at `j` was live, on the same slot, all along. */
  lemma {:induction false} StaysLive(ps: seq<Pool>, es: seq<Event>, capacity: nat, slabSize: nat, i: nat, j: nat,
      id: Id)
    requires IsRun(ps, es, capacity, slabSize) && i <= j < |ps|
    requires id in ps[i].live
    ensures id < ps[j].nextId
    ensures id in ps[j].live ==>
              && ps[j].live[id].index == ps[i].live[id].index
              && forall k | i <= k <= j :: id in ps[k].live
    decreases j
  {
    hide Inv;
    hide Next;
    hide Enabled;
    RunPartition(ps, es, capacity, slabSize, j);
    if i < j {
      RunPartition(ps, es, capacity, slabSize, j - 1);
      StaysLive(ps, es, capacity, slabSize, i, j - 1, id);
      StepHandles(ps[j - 1], es[j - 1], id);
    }
  }

  /** A handle live at `i` and gone at `j` was dropped in between. */
  lemma {:induction false} DroppedBetween(ps: seq<Pool>, es: seq<Event>, capacity: nat, slabSize: nat, i: nat,
      j: nat, id: Id)
    returns (k: nat)
    requires IsRun(ps, es, capacity, slabSize) && i <= j < |ps|
    requires id in ps[i].live && id !in ps[j].live
    ensures i <= k < j && es[k].Drop? && es[k].id == id
    decreases j
  {
    hide Inv;
    hide Next;
    hide Enabled;
    RunPartition(ps, es, capacity, slabSize, j - 1);
    if id in ps[j - 1].live {
      StepHandles(ps[j - 1], es[j - 1], id);
      k := j - 1;
    } else {
      k := DroppedBetween(ps, es, capacity, slabSize, i, j - 1, id);
    }
  }

  /** A handle not live at `i` and live at `j` was popped in between. */
  lemma {:induction false} PoppedBetween(ps: seq<Pool>, es: seq<Event>, capacity: nat, slabSize: nat, i: nat,
      j: nat, id: Id)
    returns (k: nat)
    requires IsRun(ps, es, capacity, slabSize) && i <= j < |ps|
    requires id !in ps[i].live && id in ps[j].live
    ensures i <= k < j && es[k].Acquire? && Succeeds(ps[k], es[k].len) && ps[k].nextId == id
    ensures ps[k].free[|ps[k].free| - 1] == ps[j].live[id].index
    decreases j
  {
    hide Inv;
    hide Next;
    hide Enabled;
    RunPartition(ps, es, capacity, slabSize, j - 1);
    StepHandles(ps[j - 1], es[j - 1], id);
    if id in ps[j - 1].live {
      k := PoppedBetween(ps, es, capacity, slabSize, i, j - 1, id);
    } else {
      k := j - 1;
    }
  }

  lemma PushedIsFree(p: Pool, e: Event)
    requires Enabled(p, e) && e.Drop?
    ensures p.live[e.id].index in Next(p, e).free
  {
    assert Next(p, e).free[|p.free|] == p.live[e.id].index;
  }

  /** Tenancies never overlap: between two uses of one slot through different handles,
      whatever threads they run on, the first handle's slot was pushed and then popped
      again for the second handle. */
  lemma TenanciesAreSeparated(
      ps: seq<Pool>, es: seq<Event>, capacity: nat, slabSize: nat, i: nat, j: nat)
    returns (push: nat, pop: nat)
    requires IsRun(ps, es, capacity, slabSize) && i < j < |es|
    requires !es[i].Acquire? && !es[j].Acquire? && es[i].id != es[j].id
    requires ps[i].live[es[i].id].index == ps[j].live[es[j].id].index
    ensures i <= push < pop < j
    ensures es[push].Drop? && es[push].id == es[i].id
    ensures es[pop].Acquire? && Succeeds(ps[pop], es[pop].len) && ps[pop].nextId == es[j].id
    ensures ps[push].live[es[push].id].index == ps[j].live[es[j].id].index == ps[pop].free[|ps[pop].free| - 1]
  {
    var a, b := es[i].id, es[j].id;
    RunPartition(ps, es, capacity, slabSize, j);
    if a in ps[j].live {
      StaysLive(ps, es, capacity, slabSize, i, j, a);
      assert false;
    }
    push := DroppedBetween(ps, es, capacity, slabSize, i, j, a);
    RunPartition(ps, es, capacity, slabSize, push);
    RunPartition(ps, es, capacity, slabSize, push + 1);
    StaysLive(ps, es, capacity, slabSize, i, push, a);
    if b in ps[push + 1].live {
      StaysLive(ps, es, capacity, slabSize, push + 1, j, b);
      PushedIsFree(ps[push], es[push]);
      assert false;
    }
    pop := PoppedBetween(ps, es, capacity, slabSize, push + 1, j, b);
  }

  /** A step that neither writes through `id` nor drops it leaves what `id` shows alone. */
  lemma StepKeepsView(p: Pool, e: Event, id: Id)
    requires Inv(p) && Enabled(p, e) && id in p.live
    requires !(Uses(e, id) && (e.Write? || e.SetLen? || e.Drop?))
    ensures id in Next(p, e).live && Next(p, e).live[id].index == p.live[id].index
    ensures Next(p, e).AsRef(id) == p.AsRef(id)
  {
  }

  /** Non-interference: what a live handle shows changes only through its own writes and
      `set_len`, whatever every other thread does meanwhile. */
  lemma {:induction false} OnlyItsOwnerChangesIt(
      ps: seq<Pool>, es: seq<Event>, capacity: nat, slabSize: nat, i: nat, j: nat, id: Id)
    requires IsRun(ps, es, capacity, slabSize) && i <= j < |ps|
    requires id in ps[i].live
    requires forall k | i <= k < j :: !(Uses(es[k], id) && (es[k].Write? || es[k].SetLen? || es[k].Drop?))
    ensures id in ps[j].live && ps[j].live[id].index == ps[i].live[id].index < |ps[i].slots|
    ensures ps[j].live[id].index < |ps[j].slots| && ps[j].AsRef(id) == ps[i].AsRef(id)
    decreases j
  {
    hide Inv;
    hide Next;
    hide Enabled;
    RunPartition(ps, es, capacity, slabSize, j);
    if i < j {
      RunPartition(ps, es, capacity, slabSize, j - 1);
      OnlyItsOwnerChangesIt(ps, es, capacity, slabSize, i, j - 1, id);
      StepKeepsView(ps[j - 1], es[j - 1], id);
    }
  }

  lemma InvCounts(p: Pool)
    requires Inv(p)
    ensures |p.free| + |p.live| == |p.slots| && p.nextId !in p.live
  {
  }

  /** `n` pops in a row by one thread. */
  function AcquireMany(p: Pool, who: Thread, len: nat, n: nat): Pool {
    if n == 0 then p else Next(AcquireMany(p, who, len, n - 1), Acquire(who, len))
  }

  /** `q` is `p` after `n` pops: the top `n` free slots went to the next `n` handles. */
  ghost predicate Popped(p: Pool, q: Pool, n: nat) {
    && n <= |p.free|
    && q.slots == p.slots && q.slabSize == p.slabSize && q.nextId == p.nextId + n
    && q.free == p.free[..|p.free| - n]
    && |q.live| == |p.live| + n
    && forall id | p.nextId <= id < p.nextId + n ::
         id in q.live && q.live[id].index == p.free[|p.free| - 1 - (id - p.nextId)]
  }

  lemma PoppedOneMore(p: Pool, q: Pool, n: nat, e: Event)
    requires Popped(p, q, n) && n < |p.free| && q.nextId !in q.live && e.Acquire? && Succeeds(q, e.len)
    ensures Popped(p, Next(q, e), n + 1)
  {
    var q' := Next(q, e);
    assert q.free[|q.free| - 1] == p.free[|p.free| - 1 - n];
    assert q'.free == p.free[..|p.free| - (n + 1)];
  }

  /** From any reachable state, requests that fit a slab succeed exactly as often as
      there are slots not in use, each on a slot of its own, and then fail. */
  lemma {:induction false} AcquiresUntilExhausted(p: Pool, who: Thread, len: nat, n: nat)
    requires Inv(p) && len <= p.slabSize && n <= |p.slots| - |p.live|
    ensures var q := AcquireMany(p, who, len, n);
            Inv(q) && Popped(p, q, n) && (Succeeds(q, len) <==> n < |p.slots| - |p.live|)
  {
    hide Inv;
    hide Next;
    InvCounts(p);
    if n == 0 {
      assert p.free[..|p.free|] == p.free;
    } else {
      AcquiresUntilExhausted(p, who, len, n - 1);
      var q := AcquireMany(p, who, len, n - 1);
      StepInv(q, Acquire(who, len));
      InvCounts(q);
      PoppedOneMore(p, q, n - 1, Acquire(who, len));
    }
  }
}
