/** Receiving with any number of threads around: the owner of a transport runs bursts and
    drains, step by step, while datagrams arrive and other threads hold, move and drop
    frames or take slabs of their own from the same pool. */
module Delivery {
  import opened Core
  import P = PoolSystem

  datatype Frame = Frame(id: P.Id, peer: Addr)

  /** Where the owner of the transport stands. */
  datatype Pc =
    | Idle
    | AtHead(n: nat, cap: nat)                  // about to test `n < cap`
    | Holding(n: nat, cap: nat, id: P.Id)       // slab acquired, receive call not yet made
    | OutOfSlabs                                // the first pop failed; `in_use` not yet read
    | Draining                                  // a drain iterator owns the batch's frames
    | Abandoning                                // the iterator was dropped; leftovers go one by one

  /** `owner` runs the transport; `held` maps each frame out with a consumer to its
      position in the accepted order; `raw` are slabs other code acquired for itself.
      `accepted` and `delivered` are history: what the kernel queued, and what each frame
      showed when it left the batch. `start` is the batch length the burst began with. */
  datatype Sys = Sys(
    pool: P.Pool, owner: P.Thread, pc: Pc, open: bool,
    queue: seq<Datagram>, batch: seq<Frame>, batchCap: nat, lastPeer: Option<Addr>,
    held: map<P.Id, nat>, raw: set<P.Id>,
    accepted: seq<Datagram>, delivered: seq<Datagram>,
    start: nat, startPeer: Option<Addr>, result: Option<Result<nat>>)
  {
    function View(f: Frame): Datagram
      requires f.id in pool.live && pool.live[f.id].index < |pool.slots|
    {
      Datagram(pool.AsRef(f.id), f.peer)
    }
  }

  datatype Event =
    | Arrive(d: Datagram)
    | BurstStart(max: nat)
    | BurstFull                                 // `n < cap` fails
    | TryAcquire
    | ReadInUse
    | RecvOk(stale: seq<Byte>)                  // `stale`: what the slot holds past the datagram
    | RecvWouldBlock
    | RecvError(code: int, scribble: seq<Byte>) // a failing call may leave anything in the slot
    | DrainStart
    | DrainNext(to: P.Thread)
    | DrainEnd
    | AbandonNext
    | AbandonDone
    | FrameDrop(id: P.Id)
    | FrameMove(id: P.Id, to: P.Thread)
    | Other(e: P.Event)                         // any other use of the shared pool
    | Close                                     // the transport is dropped between calls

  predicate InBurst(pc: Pc) {
    pc.AtHead? || pc.Holding? || pc.OutOfSlabs?
  }

  predicate HandOf(pc: Pc, id: P.Id) {
    pc.Holding? && pc.id == id
  }

  predicate InBatch(batch: seq<Frame>, id: P.Id) {
    exists k :: 0 <= k < |batch| && batch[k].id == id
  }

  predicate Enabled(s: Sys, e: Event) {
    match e
    case Arrive(_) => s.open
    case BurstStart(_) => s.open && s.pc.Idle?
    case BurstFull => s.pc.AtHead? && s.pc.n >= s.pc.cap
    case TryAcquire => s.pc.AtHead? && s.pc.n < s.pc.cap
    case ReadInUse => s.pc.OutOfSlabs?
    case RecvOk(stale) => s.pc.Holding? && s.queue != []
                          && |stale| == s.pool.slabSize - Min(|s.queue[0].bytes|, s.pool.slabSize)
    case RecvWouldBlock => s.pc.Holding? && s.queue == []
    case RecvError(_, scribble) => s.pc.Holding? && |scribble| == s.pool.slabSize
    case DrainStart => s.pc.Idle?
    case DrainNext(_) => s.pc.Draining? && s.batch != []
    case DrainEnd => s.pc.Draining?
    case AbandonNext => s.pc.Abandoning? && s.batch != []
    case AbandonDone => s.pc.Abandoning? && s.batch == []
    case FrameDrop(id) => id in s.held
    case FrameMove(id, _) => id in s.held
    case Other(pe) => P.Enabled(s.pool, pe) && (!pe.Acquire? ==> pe.id in s.raw)
    case Close => s.open && s.pc.Idle?
  }

  function Free(p: P.Pool, id: P.Id): P.Pool
    requires id in p.live
  {
    P.Next(p, P.Drop(p.live[id].owner, id))
  }

  /** A receive call leaves `bytes` in the slot of `id`. */
  function Fill(p: P.Pool, id: P.Id, bytes: seq<Byte>): P.Pool
    requires id in p.live && p.live[id].index < |p.slots| && |bytes| == |p.slots[p.live[id].index]|
  {
    P.Next(p, P.Write(p.live[id].owner, id, bytes))
  }

  /** What `Vec::push` does to the backing capacity. */
  function Grown(batch: seq<Frame>, cap: nat): nat {
    if |batch| < cap then cap else 2 * cap + 1
  }

  predicate Sound(s: Sys) {
    && (forall id | id in s.pool.live :: s.pool.live[id].index < |s.pool.slots|)
    && (forall i | 0 <= i < |s.pool.slots| :: |s.pool.slots[i]| == s.pool.slabSize)
    && (s.pc.Holding? ==> s.pc.id in s.pool.live)
    && (forall k | 0 <= k < |s.batch| :: s.batch[k].id in s.pool.live)
    && (forall id | id in s.held :: id in s.pool.live)
  }

  function Next(s: Sys, e: Event): Sys
    requires Sound(s) && Enabled(s, e)
  {
    match e
    case Arrive(d) => s.(queue := s.queue + [d], accepted := s.accepted + [d])
    case BurstStart(max) =>
      s.(pc := AtHead(0, Min(max, if |s.batch| <= s.batchCap then s.batchCap - |s.batch| else 0)),
         start := |s.batch|, startPeer := s.lastPeer, result := None)
    case BurstFull => s.(pc := Idle, result := Some(Ok(s.pc.n)))
    case TryAcquire =>
      if P.Succeeds(s.pool, s.pool.slabSize) then
        s.(pool := P.Next(s.pool, P.Acquire(s.owner, s.pool.slabSize)),
           pc := Holding(s.pc.n, s.pc.cap, s.pool.nextId))
      else if s.pc.n == 0 then s.(pc := OutOfSlabs)
      else s.(pc := Idle, result := Some(Ok(s.pc.n)))
    case ReadInUse =>
      s.(pc := Idle,
         result := Some(Err(PoolExhausted(if s.pool.InUse() >= 0 then s.pool.InUse() else 0, s.pool.Capacity()))))
    case RecvOk(stale) =>
      var d, n := s.queue[0], Min(|s.queue[0].bytes|, s.pool.slabSize);
      var filled := Fill(s.pool, s.pc.id, d.bytes[..n] + stale);
      s.(pool := P.Next(filled, P.SetLen(filled.live[s.pc.id].owner, s.pc.id, n)),
         queue := s.queue[1..], lastPeer := Some(d.peer),
         batch := s.batch + [Frame(s.pc.id, d.peer)], batchCap := Grown(s.batch, s.batchCap),
         pc := AtHead(s.pc.n + 1, s.pc.cap))
    case RecvWouldBlock =>
      s.(pool := Free(s.pool, s.pc.id), pc := Idle, result := Some(Ok(s.pc.n)))
    case RecvError(code, scribble) =>
      s.(pool := Free(Fill(s.pool, s.pc.id, scribble), s.pc.id), pc := Idle,
         result := Some(Err(Io(IoKind.Other(code)))))
    case DrainStart => s.(pc := Draining)
    case DrainNext(to) =>
      var f := s.batch[0];
      s.(pool := P.Next(s.pool, P.Move(s.pool.live[f.id].owner, f.id, to)),
         batch := s.batch[1..], held := s.held[f.id := |s.delivered|], delivered := s.delivered + [s.View(f)])
    case DrainEnd => s.(pc := Abandoning)
    case AbandonNext =>
      var f := s.batch[0];
      s.(pool := Free(s.pool, f.id), batch := s.batch[1..], delivered := s.delivered + [s.View(f)])
    case AbandonDone => s.(pc := Idle)
    case FrameDrop(id) => s.(pool := Free(s.pool, id), held := s.held - {id})
    case FrameMove(id, to) => s.(pool := P.Next(s.pool, P.Move(s.pool.live[id].owner, id, to)))
    case Other(pe) =>
      s.(pool := P.Next(s.pool, pe),
         raw := if pe.Acquire? then (if P.Succeeds(s.pool, pe.len) then s.raw + {s.pool.nextId} else s.raw)
                else if pe.Drop? then s.raw - {pe.id} else s.raw)
    case Close => s.(open := false)
  }

  function Init(capacity: nat, slabSize: nat, owner: P.Thread, batchCap: nat): Sys {
    Sys(P.Init(capacity, slabSize), owner, Idle, true, [], [], batchCap, None, map[], {}, [], [], 0, None, None)
  }

  // ---------------------------------------------------------------- invariants

  /** Every live handle has exactly one role: in the receiver's hand, in the batch, out with
      a consumer, or acquired by other code. Batch frames come in acquisition order. */
  ghost predicate Roles(s: Sys) {
    && (forall id | id in s.pool.live ::
          HandOf(s.pc, id) || InBatch(s.batch, id) || id in s.held || id in s.raw)
    && (s.pc.Holding? ==> s.pc.id in s.pool.live && s.pc.id !in s.held && s.pc.id !in s.raw)
    && (forall k | 0 <= k < |s.batch| ::
          && s.batch[k].id in s.pool.live && s.batch[k].id !in s.held && s.batch[k].id !in s.raw
          && (s.pc.Holding? ==> s.batch[k].id < s.pc.id))
    && (forall i, j | 0 <= i < j < |s.batch| :: s.batch[i].id < s.batch[j].id)
    && (forall id | id in s.held :: id in s.pool.live && id !in s.raw)
    && (forall id | id in s.raw :: id in s.pool.live)
  }

  /** Position by position, what left the batch, what is in it and what is queued are the
      accepted datagrams, cut to the slab; and every frame still out shows its own. */
  ghost predicate InOrder(s: Sys) {
    && |s.accepted| == |s.delivered| + |s.batch| + |s.queue|
    && (forall k | 0 <= k < |s.delivered| :: s.delivered[k] == CutDatagram(s.accepted[k], s.pool.slabSize))
    && (forall k | 0 <= k < |s.batch| :: Shows(s, s.batch[k].id, s.batch[k].peer, |s.delivered| + k))
    && (forall k | 0 <= k < |s.queue| :: s.queue[k] == s.accepted[|s.delivered| + |s.batch| + k])
    && (forall id | id in s.held :: s.held[id] < |s.delivered|
          && ShowsBytes(s, id, s.held[id]))
  }

  ghost predicate ShowsBytes(s: Sys, id: P.Id, k: nat) {
    && id in s.pool.live && s.pool.live[id].index < |s.pool.slots| && k < |s.accepted|
    && s.pool.AsRef(id) == Cut(s.accepted[k].bytes, s.pool.slabSize)
  }

  ghost predicate Shows(s: Sys, id: P.Id, peer: Addr, k: nat) {
    ShowsBytes(s, id, k) && peer == s.accepted[k].peer
  }

  /** The burst's books: how far it is, and that the batch never outgrows its backing. */
  predicate Books(s: Sys, batchCap: nat) {
    && s.batchCap == batchCap && |s.batch| <= batchCap
    && match s.pc
       case AtHead(n, cap) => Progress(s, n, cap)
       case Holding(n, cap, _) => n < cap && Progress(s, n, cap)
       case OutOfSlabs => |s.batch| == s.start && s.lastPeer == s.startPeer
       case _ => true
  }

  predicate Progress(s: Sys, n: nat, cap: nat) {
    && n <= cap && s.start + n == |s.batch| && s.start + cap <= s.batchCap
    && s.lastPeer == (if n == 0 then s.startPeer else Some(s.batch[|s.batch| - 1].peer))
  }

  ghost predicate Inv(s: Sys, batchCap: nat) {
    P.Inv(s.pool) && Roles(s) && InOrder(s) && Books(s, batchCap)
  }

  lemma InvIsSound(s: Sys)
    requires P.Inv(s.pool) && Roles(s)
    ensures Sound(s)
  {
  }

  // ---------------------------------------------------------------- one step of the pool

  /** The handle a step writes or drops, if any. */
  function Touched(s: Sys, e: Event): Option<P.Id>
    requires Enabled(s, e)
  {
    match e
    case RecvOk(_) => Some(s.pc.id)
    case RecvWouldBlock => Some(s.pc.id)
    case RecvError(_, _) => Some(s.pc.id)
    case AbandonNext => Some(s.batch[0].id)
    case FrameDrop(id) => Some(id)
    case Other(pe) => if pe.Write? || pe.SetLen? || pe.Drop? then Some(pe.id) else None
    case _ => None
  }

  predicate Drops(s: Sys, e: Event, id: P.Id)
    requires Enabled(s, e)
  {
    && !e.RecvOk?
    && (e.Other? ==> e.e.Drop?)
    && Touched(s, e) == Some(id)
  }

  predicate Makes(s: Sys, e: Event, id: P.Id) {
    && id == s.pool.nextId
    && match e
       case TryAcquire => P.Succeeds(s.pool, s.pool.slabSize)
       case Other(pe) => pe.Acquire? && P.Succeeds(s.pool, pe.len)
       case _ => false
  }

  /** Handle `id` is where it was and shows what it showed. */
  predicate Untouched(p: P.Pool, p': P.Pool, id: P.Id) {
    && id in p.live && id in p'.live
    && p.live[id].index < |p.slots| && p'.live[id].index < |p'.slots|
    && p'.AsRef(id) == p.AsRef(id)
  }

  /** What one step does to the pool, handle by handle. */
  ghost predicate PoolMoves(s: Sys, e: Event, p': P.Pool)
    requires Enabled(s, e)
  {
    && P.Inv(p') && p'.slabSize == s.pool.slabSize && |p'.slots| == |s.pool.slots|
    && (forall id :: id in p'.live <==> (id in s.pool.live && !Drops(s, e, id)) || Makes(s, e, id))
    && (forall id | id in s.pool.live && Touched(s, e) != Some(id) :: Untouched(s.pool, p', id))
  }

  lemma ChainOne(s: Sys, e: Event, pe: P.Event, p': P.Pool)
    requires P.Inv(s.pool) && P.Enabled(s.pool, pe) && p' == P.Next(s.pool, pe) && Enabled(s, e)
    requires pe.Acquire? && P.Succeeds(s.pool, pe.len) ==> Makes(s, e, s.pool.nextId)
    requires pe.Acquire? || pe.Move? || pe.Read? ==> Touched(s, e) == None
    requires !(pe.Acquire? && P.Succeeds(s.pool, pe.len)) ==> forall id :: !Makes(s, e, id)
    requires pe.Write? || pe.SetLen? || pe.Drop? ==> Touched(s, e) == Some(pe.id)
    requires forall id :: Drops(s, e, id) <==> pe.Drop? && pe.id == id
    ensures PoolMoves(s, e, p')
  {
    P.StepInv(s.pool, pe);
    forall id | id in s.pool.live && Touched(s, e) != Some(id)
      ensures Untouched(s.pool, p', id)
    {
      P.StepKeepsView(s.pool, pe, id);
    }
    forall id
      ensures id in p'.live <==> (id in s.pool.live && !Drops(s, e, id)) || Makes(s, e, id)
    {
      P.StepHandles(s.pool, pe, id);
    }
  }

  /** Two pool steps through one handle. */
  lemma TwoThrough(p: P.Pool, first: P.Event, second: P.Event, id0: P.Id)
    requires P.Inv(p) && P.Enabled(p, first) && first.Write? && first.id == id0
    requires P.Enabled(P.Next(p, first), second) && (second.SetLen? || second.Drop?) && second.id == id0
    ensures var p' := P.Next(P.Next(p, first), second);
            && P.Inv(p') && p'.slabSize == p.slabSize && |p'.slots| == |p.slots|
            && (forall id | id in p.live && id != id0 :: Untouched(p, p', id))
            && (forall id :: id in p'.live <==> id in p.live && !(second.Drop? && id == id0))
  {
    var mid := P.Next(p, first);
    P.StepInv(p, first);
    P.StepInv(mid, second);
    forall id | id in p.live && id != id0
      ensures Untouched(p, P.Next(mid, second), id)
    {
      P.StepKeepsView(p, first, id);
      P.StepKeepsView(mid, second, id);
    }
  }

  lemma LandingMoves(s: Sys, e: Event)
    requires P.Inv(s.pool) && Sound(s) && Enabled(s, e) && e.RecvOk?
    ensures PoolMoves(s, e, Next(s, e).pool)
  {
    hide P.Inv;
    hide Untouched;
    var id, n := s.pc.id, Min(|s.queue[0].bytes|, s.pool.slabSize);
    var first := P.Write(s.pool.live[id].owner, id, s.queue[0].bytes[..n] + e.stale);
    var second := P.SetLen(P.Next(s.pool, first).live[id].owner, id, n);
    TwoThrough(s.pool, first, second, id);
    assert Next(s, e).pool == P.Next(P.Next(s.pool, first), second);
  }

  lemma FailingMoves(s: Sys, e: Event)
    requires P.Inv(s.pool) && Sound(s) && Enabled(s, e) && e.RecvError?
    ensures PoolMoves(s, e, Next(s, e).pool)
  {
    hide P.Inv;
    hide Untouched;
    var id := s.pc.id;
    var first := P.Write(s.pool.live[id].owner, id, e.scribble);
    var second := P.Drop(P.Next(s.pool, first).live[id].owner, id);
    TwoThrough(s.pool, first, second, id);
    assert Next(s, e).pool == P.Next(P.Next(s.pool, first), second);
  }

  lemma PoolStep(s: Sys, e: Event)
    requires P.Inv(s.pool) && Roles(s) && Sound(s) && Enabled(s, e)
    ensures PoolMoves(s, e, Next(s, e).pool)
  {
    hide P.Inv;
    hide PoolMoves;
    match e {
      case RecvOk(_) => LandingMoves(s, e);
      case RecvError(_, _) => FailingMoves(s, e);
      case TryAcquire =>
        ChainOne(s, e, P.Acquire(s.owner, s.pool.slabSize), P.Next(s.pool, P.Acquire(s.owner, s.pool.slabSize)));
      case RecvWouldBlock =>
        ChainOne(s, e, P.Drop(s.pool.live[s.pc.id].owner, s.pc.id), Next(s, e).pool);
      case AbandonNext =>
        ChainOne(s, e, P.Drop(s.pool.live[s.batch[0].id].owner, s.batch[0].id), Next(s, e).pool);
      case FrameDrop(id) =>
        ChainOne(s, e, P.Drop(s.pool.live[id].owner, id), Next(s, e).pool);
      case DrainNext(to) =>
        ChainOne(s, e, P.Move(s.pool.live[s.batch[0].id].owner, s.batch[0].id, to), Next(s, e).pool);
      case FrameMove(id, to) =>
        ChainOne(s, e, P.Move(s.pool.live[id].owner, id, to), Next(s, e).pool);
      case Other(pe) => ChainOne(s, e, pe, Next(s, e).pool);
      case _ => PoolStill(s, e);
    }
  }

  lemma PoolStill(s: Sys, e: Event)
    requires P.Inv(s.pool) && Sound(s) && Enabled(s, e) && Next(s, e).pool == s.pool
    requires Touched(s, e) == None && forall id :: !Makes(s, e, id)
    ensures PoolMoves(s, e, s.pool)
  {
    forall id | id in s.pool.live
      ensures Untouched(s.pool, s.pool, id)
    {
    }
  }

  // ---------------------------------------------------------------- one step of the roles

  lemma InBatchPush(batch: seq<Frame>, f: Frame)
    ensures forall id :: InBatch(batch + [f], id) <==> InBatch(batch, id) || id == f.id
  {
    forall id | InBatch(batch, id) || id == f.id
      ensures InBatch(batch + [f], id)
    {
      if id == f.id {
        assert (batch + [f])[|batch|].id == id;
      } else {
        var k :| 0 <= k < |batch| && batch[k].id == id;
        assert (batch + [f])[k].id == id;
      }
    }
  }

  lemma InBatchPop(batch: seq<Frame>)
    requires batch != []
    ensures forall id | InBatch(batch, id) && id != batch[0].id :: InBatch(batch[1..], id)
  {
    forall id | InBatch(batch, id) && id != batch[0].id
      ensures InBatch(batch[1..], id)
    {
      var k :| 0 <= k < |batch| && batch[k].id == id;
      assert batch[1..][k - 1].id == id;
    }
  }

  ghost predicate RolesReady(s: Sys, e: Event) {
    && Roles(s) && Sound(s) && Enabled(s, e) && PoolMoves(s, e, Next(s, e).pool)
    && forall id | id in s.pool.live :: id < s.pool.nextId
  }

  lemma RolesAcquire(s: Sys, e: Event)
    requires RolesReady(s, e) && (e.TryAcquire?)
    ensures Roles(Next(s, e))
  {
    hide P.Inv;
    hide P.Next;
    hide Untouched;
  }

  lemma RolesRelease(s: Sys, e: Event)
    requires RolesReady(s, e) && (e.RecvWouldBlock? || e.RecvError?)
    ensures Roles(Next(s, e))
  {
    hide P.Inv;
    hide P.Next;
    hide Untouched;
  }

  lemma RolesLand(s: Sys, e: Event)
    requires RolesReady(s, e) && (e.RecvOk?)
    ensures Roles(Next(s, e))
  {
    hide P.Inv;
    hide P.Next;
    hide Untouched;
    InBatchPush(s.batch, Frame(s.pc.id, s.queue[0].peer));
  }

  lemma RolesHandOut(s: Sys, e: Event)
    requires RolesReady(s, e) && (e.DrainNext?)
    ensures Roles(Next(s, e))
  {
    hide P.Inv;
    hide P.Next;
    hide Untouched;
    InBatchPop(s.batch);
  }

  lemma RolesAbandon(s: Sys, e: Event)
    requires RolesReady(s, e) && (e.AbandonNext?)
    ensures Roles(Next(s, e))
  {
    hide P.Inv;
    hide P.Next;
    hide Untouched;
    InBatchPop(s.batch);
  }

  lemma RolesFrames(s: Sys, e: Event)
    requires RolesReady(s, e) && (e.FrameDrop? || e.FrameMove?)
    ensures Roles(Next(s, e))
  {
    hide P.Inv;
    hide P.Next;
    hide Untouched;
  }

  lemma RolesOther(s: Sys, e: Event)
    requires RolesReady(s, e) && (e.Other?)
    ensures Roles(Next(s, e))
  {
    hide P.Inv;
    hide P.Next;
    hide Untouched;
  }

  lemma RolesOwnerOnly(s: Sys, e: Event)
    requires RolesReady(s, e)
    requires e.Arrive? || e.BurstStart? || e.BurstFull? || e.ReadInUse?
             || e.DrainStart? || e.DrainEnd? || e.AbandonDone? || e.Close?
    ensures Roles(Next(s, e))
  {
    hide P.Inv;
    hide P.Next;
    hide Untouched;
  }

  lemma RolesStep(s: Sys, e: Event)
    requires P.Inv(s.pool) && Roles(s) && Sound(s) && Enabled(s, e)
    requires PoolMoves(s, e, Next(s, e).pool)
    ensures Roles(Next(s, e))
  {
    assert RolesReady(s, e);
    hide *;
    match e {
      case TryAcquire => RolesAcquire(s, e);
      case RecvWouldBlock => RolesRelease(s, e);
      case RecvError(_, _) => RolesRelease(s, e);
      case RecvOk(_) => RolesLand(s, e);
      case DrainNext(_) => RolesHandOut(s, e);
      case AbandonNext => RolesAbandon(s, e);
      case FrameDrop(_) => RolesFrames(s, e);
      case FrameMove(_, _) => RolesFrames(s, e);
      case Other(_) => RolesOther(s, e);
      case _ => RolesOwnerOnly(s, e);
    }
  }

  // ---------------------------------------------------------------- one step of the order

  /** The new frame shows its datagram, cut to the slab, whatever the slot held before. */
  lemma LandingShows(s: Sys, e: Event)
    requires P.Inv(s.pool) && Sound(s) && Enabled(s, e) && e.RecvOk?
    ensures var s' := Next(s, e);
            && s.pc.id in s'.pool.live && s'.pool.live[s.pc.id].index < |s'.pool.slots|
            && s'.pool.AsRef(s.pc.id) == Cut(s.queue[0].bytes, s.pool.slabSize)
  {
    var n := Min(|s.queue[0].bytes|, s.pool.slabSize);
    assert Cut(s.queue[0].bytes[..n] + e.stale, n) == s.queue[0].bytes[..n];
  }

  ghost predicate Ordered(s: Sys, e: Event) {
    && Roles(s) && Sound(s) && InOrder(s) && Enabled(s, e)
    && s.accepted <= Next(s, e).accepted && Next(s, e).pool.slabSize == s.pool.slabSize
    && forall id, k | id in s.pool.live && Touched(s, e) != Some(id) && ShowsBytes(s, id, k) ::
         ShowsBytes(Next(s, e), id, k)
  }

  lemma AcceptedGrows(s: Sys, e: Event)
    requires Sound(s) && Enabled(s, e)
    ensures s.accepted <= Next(s, e).accepted
  {
    hide P.Next;
  }

  lemma ViewKept(s: Sys, s': Sys, id: P.Id, k: nat)
    requires Untouched(s.pool, s'.pool, id) && s'.pool.slabSize == s.pool.slabSize && s.accepted <= s'.accepted
    requires ShowsBytes(s, id, k)
    ensures ShowsBytes(s', id, k)
  {
  }

  lemma ViewsKept(s: Sys, e: Event)
    requires Roles(s) && Sound(s) && InOrder(s) && Enabled(s, e) && PoolMoves(s, e, Next(s, e).pool)
    ensures Ordered(s, e)
  {
    hide P.Inv;
    hide Next;
    hide ShowsBytes;
    hide Untouched;
    AcceptedGrows(s, e);
    forall id, k: nat | id in s.pool.live && Touched(s, e) != Some(id) && ShowsBytes(s, id, k)
      ensures ShowsBytes(Next(s, e), id, k)
    {
      ViewKept(s, Next(s, e), id, k);
    }
  }

  lemma FrontView(s: Sys)
    requires InOrder(s) && s.batch != []
    ensures ShowsBytes(s, s.batch[0].id, |s.delivered|)
    ensures s.View(s.batch[0]) == CutDatagram(s.accepted[|s.delivered|], s.pool.slabSize)
  {
    assert Shows(s, s.batch[0].id, s.batch[0].peer, |s.delivered|);
  }

  lemma OrderArrive(s: Sys, e: Event)
    requires Ordered(s, e) && (e.Arrive?)
    ensures InOrder(Next(s, e))
  {
    hide P.Inv;
    hide P.Next;
    hide ShowsBytes;
  }

  /** A queued datagram becomes the last frame of the batch. */
  lemma OrderPushed(s: Sys, s': Sys, f: Frame)
    requires InOrder(s) && s.queue != []
    requires s'.batch == s.batch + [f] && s'.queue == s.queue[1..]
    requires s'.accepted == s.accepted && s'.delivered == s.delivered && s'.held == s.held
    requires s'.pool.slabSize == s.pool.slabSize
    requires forall g, k | g in s.batch && ShowsBytes(s, g.id, k) :: ShowsBytes(s', g.id, k)
    requires forall id, k | id in s.held && ShowsBytes(s, id, k) :: ShowsBytes(s', id, k)
    requires forall k | 0 <= k < |s.accepted| && s.accepted[k] == s.queue[0] :: Shows(s', f.id, f.peer, k)
    ensures InOrder(s')
  {
    hide ShowsBytes;
    assert s.accepted[|s.delivered| + |s.batch|] == s.queue[0];
    forall k | 0 <= k < |s'.batch|
      ensures Shows(s', s'.batch[k].id, s'.batch[k].peer, |s.delivered| + k)
    {
      if k < |s.batch| {
        assert s.batch[k] in s.batch && Shows(s, s.batch[k].id, s.batch[k].peer, |s.delivered| + k);
      }
    }
  }

  /** The first frame of the batch leaves it, showing `d`; its handle may go out with a
      consumer. */
  lemma OrderPopped(s: Sys, s': Sys, f: Frame, d: Datagram)
    requires InOrder(s) && s.batch == [f] + s'.batch && s'.queue == s.queue
    requires s'.accepted == s.accepted && s'.delivered == s.delivered + [d]
    requires d == CutDatagram(s.accepted[|s.delivered|], s.pool.slabSize)
    requires s'.pool.slabSize == s.pool.slabSize
    requires forall id | id in s'.held ::
               (id in s.held && s'.held[id] == s.held[id]) || (id == f.id && s'.held[id] == |s.delivered|)
    requires forall g, k | g in s'.batch && ShowsBytes(s, g.id, k) :: ShowsBytes(s', g.id, k)
    requires forall id, k | id in s'.held && ShowsBytes(s, id, k) :: ShowsBytes(s', id, k)
    ensures InOrder(s')
  {
    hide ShowsBytes;
    assert Shows(s, s.batch[0].id, s.batch[0].peer, |s.delivered| + 0);
    forall k | 0 <= k < |s'.batch|
      ensures Shows(s', s'.batch[k].id, s'.batch[k].peer, |s'.delivered| + k)
    {
      assert s.batch[k + 1] == s'.batch[k] && s'.batch[k] in s'.batch;
      assert Shows(s, s.batch[k + 1].id, s.batch[k + 1].peer, |s.delivered| + (k + 1));
    }
    var n := |s.delivered| + |s.batch|;
    assert n == |s'.delivered| + |s'.batch|;
  }

  lemma OrderReceive(s: Sys, e: Event)
    requires P.Inv(s.pool) && Ordered(s, e) && e.RecvOk?
    ensures InOrder(Next(s, e))
  {
    LandingShows(s, e);
    hide P.Inv;
    hide P.Next;
    hide InOrder;
    OrderPushed(s, Next(s, e), Frame(s.pc.id, s.queue[0].peer));
  }

  lemma OrderHandOut(s: Sys, e: Event)
    requires Ordered(s, e) && e.DrainNext?
    ensures InOrder(Next(s, e))
  {
    FrontView(s);
    hide P.Inv;
    hide P.Next;
    hide InOrder;
    hide ShowsBytes;
    OrderPopped(s, Next(s, e), s.batch[0], s.View(s.batch[0]));
  }

  lemma OrderAbandon(s: Sys, e: Event)
    requires Ordered(s, e) && e.AbandonNext?
    ensures InOrder(Next(s, e))
  {
    FrontView(s);
    hide P.Inv;
    hide P.Next;
    hide InOrder;
    hide ShowsBytes;
    OrderPopped(s, Next(s, e), s.batch[0], s.View(s.batch[0]));
  }

  /** Steps that leave the batch and the history alone. */
  lemma OrderKept(s: Sys, s': Sys)
    requires InOrder(s)
    requires s'.batch == s.batch && s'.queue == s.queue && s'.accepted == s.accepted && s'.delivered == s.delivered
    requires s'.pool.slabSize == s.pool.slabSize
    requires forall id | id in s'.held :: id in s.held && s'.held[id] == s.held[id]
    requires forall f, k | f in s.batch && ShowsBytes(s, f.id, k) :: ShowsBytes(s', f.id, k)
    requires forall id, k | id in s'.held && ShowsBytes(s, id, k) :: ShowsBytes(s', id, k)
    ensures InOrder(s')
  {
    hide ShowsBytes;
    forall k | 0 <= k < |s.batch|
      ensures Shows(s', s.batch[k].id, s.batch[k].peer, |s.delivered| + k)
    {
      assert s.batch[k] in s.batch && Shows(s, s.batch[k].id, s.batch[k].peer, |s.delivered| + k);
    }
  }

  lemma OrderFrames(s: Sys, e: Event)
    requires Ordered(s, e) && (e.FrameDrop? || e.FrameMove?)
    ensures InOrder(Next(s, e))
  {
    hide P.Inv;
    hide P.Next;
    hide InOrder;
    hide ShowsBytes;
    OrderKept(s, Next(s, e));
  }

  lemma OrderOther(s: Sys, e: Event)
    requires Ordered(s, e) && (e.Other? || e.TryAcquire? || e.RecvWouldBlock? || e.RecvError?)
    ensures InOrder(Next(s, e))
  {
    hide P.Inv;
    hide P.Next;
    hide InOrder;
    hide ShowsBytes;
    OrderKept(s, Next(s, e));
  }

  lemma OrderOwnerOnly(s: Sys, e: Event)
    requires InOrder(s) && Sound(s) && Enabled(s, e)
    requires e.BurstStart? || e.BurstFull? || e.ReadInUse? || e.DrainStart? || e.DrainEnd? || e.AbandonDone? || e.Close?
    ensures InOrder(Next(s, e))
  {
    hide InOrder;
    OrderKept(s, Next(s, e));
  }

  lemma OrderStep(s: Sys, e: Event)
    requires P.Inv(s.pool) && Roles(s) && Sound(s) && InOrder(s) && Enabled(s, e)
    requires PoolMoves(s, e, Next(s, e).pool)
    ensures InOrder(Next(s, e))
  {
    ViewsKept(s, e);
    hide *;
    match e {
      case Arrive(_) => OrderArrive(s, e);
      case RecvOk(_) => OrderReceive(s, e);
      case DrainNext(_) => OrderHandOut(s, e);
      case AbandonNext => OrderAbandon(s, e);
      case FrameDrop(_) => OrderFrames(s, e);
      case FrameMove(_, _) => OrderFrames(s, e);
      case TryAcquire => OrderOther(s, e);
      case RecvWouldBlock => OrderOther(s, e);
      case RecvError(_, _) => OrderOther(s, e);
      case Other(_) => OrderOther(s, e);
      case _ => OrderOwnerOnly(s, e);
    }
  }

  lemma BooksStep(s: Sys, e: Event, batchCap: nat)
    requires Sound(s) && Books(s, batchCap) && Enabled(s, e)
    ensures Books(Next(s, e), batchCap)
  {
    hide P.Next;
  }

  lemma StepInv(s: Sys, e: Event, batchCap: nat)
    requires Inv(s, batchCap) && Sound(s) && Enabled(s, e)
    ensures Inv(Next(s, e), batchCap) && Sound(Next(s, e))
    ensures Next(s, e).pool.slabSize == s.pool.slabSize && |Next(s, e).pool.slots| == |s.pool.slots|
  {
    PoolStep(s, e);
    RolesStep(s, e);
    OrderStep(s, e);
    BooksStep(s, e, batchCap);
    StillSound(s, e);
  }

  lemma StillSound(s: Sys, e: Event)
    requires Sound(s) && Enabled(s, e) && PoolMoves(s, e, Next(s, e).pool) && Roles(Next(s, e))
    ensures P.Inv(Next(s, e).pool) && Sound(Next(s, e))
  {
    InvIsSound(Next(s, e));
  }

  // ---------------------------------------------------------------- whole runs

  ghost predicate IsRun(ss: seq<Sys>, es: seq<Event>, capacity: nat, slabSize: nat, batchCap: nat) {
    && |ss| == |es| + 1
    && (exists owner :: ss[0] == Init(capacity, slabSize, owner, batchCap))
    && forall i | 0 <= i < |es| :: Step(ss[i], es[i], ss[i + 1])
  }

  predicate Step(s: Sys, e: Event, s': Sys) {
    Sound(s) && Enabled(s, e) && s' == Next(s, e)
  }

  lemma InitInv(capacity: nat, slabSize: nat, owner: P.Thread, batchCap: nat)
    ensures Inv(Init(capacity, slabSize, owner, batchCap), batchCap)
    ensures Sound(Init(capacity, slabSize, owner, batchCap))
    ensures var p := Init(capacity, slabSize, owner, batchCap).pool; p.slabSize == slabSize && |p.slots| == capacity
  {
    P.InitInv(capacity, slabSize);
  }

  lemma {:induction false} RunInv(ss: seq<Sys>, es: seq<Event>, capacity: nat, slabSize: nat, batchCap: nat, k: nat)
    requires IsRun(ss, es, capacity, slabSize, batchCap) && k < |ss|
    ensures Inv(ss[k], batchCap) && Sound(ss[k])
    ensures ss[k].pool.slabSize == slabSize && |ss[k].pool.slots| == capacity
  {
    hide Inv;
    hide Sound;
    hide Enabled;
    hide Next;
    hide Init;
    if k == 0 {
      var owner :| ss[0] == Init(capacity, slabSize, owner, batchCap);
      InitInv(capacity, slabSize, owner, batchCap);
    } else {
      RunInv(ss, es, capacity, slabSize, batchCap, k - 1);
      StepOf(ss, es, capacity, slabSize, batchCap, k - 1);
      StepInv(ss[k - 1], es[k - 1], batchCap);
    }
  }

  /** What the frames of the batch show. */
  function Views(s: Sys): seq<Datagram>
    requires Sound(s)
  {
    seq(|s.batch|, k requires 0 <= k < |s.batch| && Sound(s) => s.View(s.batch[k]))
  }

  lemma StepOf(ss: seq<Sys>, es: seq<Event>, capacity: nat, slabSize: nat, batchCap: nat, i: nat)
    requires IsRun(ss, es, capacity, slabSize, batchCap) && i < |es|
    ensures Step(ss[i], es[i], ss[i + 1])
  {
    hide Step;
  }

  /** Exactly once, in order: in every state of every run, what left the batch, then what
      the batch shows, then the kernel queue are the accepted datagrams, cut to the slab. */
  lemma ExactlyOnceInOrder(ss: seq<Sys>, es: seq<Event>, capacity: nat, slabSize: nat, batchCap: nat, k: nat)
    requires IsRun(ss, es, capacity, slabSize, batchCap) && k < |ss|
    ensures Sound(ss[k])
    ensures ss[k].delivered + Views(ss[k]) + CutAll(ss[k].queue, slabSize) == CutAll(ss[k].accepted, slabSize)
  {
    RunInv(ss, es, capacity, slabSize, batchCap, k);
    OrderAsSequence(ss[k]);
  }

  lemma OrderAsSequence(s: Sys)
    requires InOrder(s) && Sound(s)
    ensures s.delivered + Views(s) + CutAll(s.queue, s.pool.slabSize) == CutAll(s.accepted, s.pool.slabSize)
  {
    var n := s.pool.slabSize;
    var all, want := s.delivered + Views(s) + CutAll(s.queue, n), CutAll(s.accepted, n);
    forall i | 0 <= i < |want|
      ensures all[i] == want[i]
    {
      var d, b := |s.delivered|, |s.batch|;
      if d <= i < d + b {
        assert Shows(s, s.batch[i - d].id, s.batch[i - d].peer, d + (i - d));
      } else if d + b <= i {
        assert s.queue[i - d - b] == s.accepted[d + b + (i - d - b)];
      }
    }
  }

  /** Payload isolation: from the moment a frame leaves the batch until it is dropped, it
      shows its own datagram, cut to the slab, through every step of every thread and even
      after the transport is gone. */
  lemma FrameShowsItsDatagram(ss: seq<Sys>, es: seq<Event>, capacity: nat, slabSize: nat, batchCap: nat, k: nat,
      id: P.Id)
    requires IsRun(ss, es, capacity, slabSize, batchCap) && k < |ss| && id in ss[k].held
    ensures Sound(ss[k]) && ss[k].held[id] < |ss[k].accepted|
    ensures ss[k].pool.AsRef(id) == Cut(ss[k].accepted[ss[k].held[id]].bytes, slabSize)
  {
    RunInv(ss, es, capacity, slabSize, batchCap, k);
    assert ShowsBytes(ss[k], id, ss[k].held[id]);
  }

  /** No slab leaks and none is shared: in every state of every run the slabs in use are
      exactly those in the receiver's hand, in the batch, out with a consumer, or acquired
      by other code, and no slab is two of these; the batch's backing never changes. */
  lemma SlabsAccountedFor(ss: seq<Sys>, es: seq<Event>, capacity: nat, slabSize: nat, batchCap: nat, k: nat)
    requires IsRun(ss, es, capacity, slabSize, batchCap) && k < |ss|
    ensures var s := ss[k];
            && s.pool.live.Keys == Ids(s.batch) + s.held.Keys + s.raw + Hand(s.pc)
            && Ids(s.batch) !! s.held.Keys !! s.raw !! Hand(s.pc)
            && |Ids(s.batch)| == |s.batch|
            && s.pool.InUse() == |s.batch| + |s.held| + |s.raw| + |Hand(s.pc)| <= capacity
            && s.batchCap == batchCap && |s.batch| <= batchCap
  {
    RunInv(ss, es, capacity, slabSize, batchCap, k);
    var s := ss[k];
    CountIds(s.batch);
    RolesApart(s, Ids(s.batch));
    RolesCover(s, Ids(s.batch));
    CountRoles(s);
  }

  function Ids(batch: seq<Frame>): set<P.Id> {
    set f | f in batch :: f.id
  }

  lemma {:induction false} CountIds(batch: seq<Frame>)
    requires forall i, j | 0 <= i < j < |batch| :: batch[i].id < batch[j].id
    ensures |Ids(batch)| == |batch|
    ensures forall id :: id in Ids(batch) <==> InBatch(batch, id)
  {
    forall id | id in Ids(batch)
      ensures InBatch(batch, id)
    {
      var f :| f in batch && f.id == id;
    }
    if batch != [] {
      var shorter, last := batch[..|batch| - 1], batch[|batch| - 1];
      CountIds(shorter);
      assert batch == shorter + [last];
      assert Ids(batch) == Ids(shorter) + {last.id};
    }
  }

  lemma FourParts(all: set<P.Id>, a: set<P.Id>, b: set<P.Id>, c: set<P.Id>, d: set<P.Id>)
    requires all == a + b + c + d && a !! b && a !! c && a !! d && b !! c && b !! d && c !! d
    ensures |all| == |a| + |b| + |c| + |d|
  {
    assert |a + b| == |a| + |b|;
    assert |a + b + c| == |a + b| + |c|;
  }

  function Hand(pc: Pc): set<P.Id> {
    if pc.Holding? then {pc.id} else {}
  }

  lemma RolesApart(s: Sys, inBatch: set<P.Id>)
    requires Roles(s) && forall id :: id in inBatch <==> InBatch(s.batch, id)
    ensures inBatch !! s.held.Keys && inBatch !! s.raw && inBatch !! Hand(s.pc)
    ensures s.held.Keys !! s.raw && s.held.Keys !! Hand(s.pc) && s.raw !! Hand(s.pc)
  {
  }

  lemma RolesCover(s: Sys, inBatch: set<P.Id>)
    requires Roles(s) && forall id :: id in inBatch <==> InBatch(s.batch, id)
    ensures s.pool.live.Keys == inBatch + s.held.Keys + s.raw + Hand(s.pc)
  {
  }

  lemma CountRoles(s: Sys)
    requires P.Inv(s.pool) && Roles(s)
    ensures s.pool.InUse() == |s.batch| + |s.held| + |s.raw| + |Hand(s.pc)|
  {
    CountLive(s.pool);
    CountIds(s.batch);
    RolesApart(s, Ids(s.batch));
    RolesCover(s, Ids(s.batch));
    hide *;
    FourParts(s.pool.live.Keys, Ids(s.batch), s.held.Keys, s.raw, Hand(s.pc));
  }

  lemma CountLive(p: P.Pool)
    requires P.Inv(p)
    ensures p.InUse() == |p.live.Keys|
  {
  }
}
