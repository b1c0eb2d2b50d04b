/** Whole bursts inside whole runs: what a burst has done when it ends, and what its
    `PoolExhausted` reports, whatever other threads did to the pool meanwhile. */
module BurstRuns {
  import opened Core
  import opened D = Delivery
  import P = PoolSystem

  // ---------------------------------------------------------------- slab balance

  /** The handles the owner's own pops made in steps `i` to `j`. */
  function OwnPops(ss: seq<Sys>, es: seq<Event>, i: nat, j: nat): set<P.Id>
    requires i <= j <= |es| < |ss|
    decreases j
  {
    if i == j then {} else OwnPops(ss, es, i, j - 1) + OwnPop(ss[j - 1], es[j - 1])
  }

  function OwnPop(s: Sys, e: Event): set<P.Id> {
    if e.TryAcquire? && P.Succeeds(s.pool, s.pool.slabSize) then {s.pool.nextId} else {}
  }

  /** Frame `id` is in the batch past its first `from` frames. */
  predicate PushedSince(batch: seq<Frame>, from: nat, id: P.Id) {
    exists k :: from <= k < |batch| && batch[k].id == id
  }

  /** Since the burst began in `s0`, the batch has only grown at its end, and of the handles
      popped so far those still live are the new frames and the one in hand. */
  ghost predicate SoFar(s0: Sys, s: Sys, pops: set<P.Id>, cap: nat) {
    && s0.batch <= s.batch && s.start == |s0.batch| && s.startPeer == s0.lastPeer
    && s0.pool.nextId <= s.pool.nextId
    && (forall id | id in pops :: s0.pool.nextId <= id < s.pool.nextId)
    && (forall id :: id in pops && id in s.pool.live <==> PushedSince(s.batch, |s0.batch|, id) || HandOf(s.pc, id))
    && (s.pc.AtHead? || s.pc.Holding? ==> s.pc.cap == cap)
  }

  lemma SoFarStarts(s0: Sys, max: nat, batchCap: nat)
    requires Sound(s0) && Enabled(s0, BurstStart(max)) && Books(s0, batchCap)
    ensures SoFar(s0, Next(s0, BurstStart(max)), {}, Min(max, batchCap - |s0.batch|))
    ensures InBurst(Next(s0, BurstStart(max)).pc)
  {
  }

  /** What one step of a burst does to the owner's books and to the set of live handles. */
  predicate Keeps(s: Sys, s': Sys) {
    && s'.batch == s.batch && s'.start == s.start && s'.startPeer == s.startPeer
    && s.pool.nextId <= s'.pool.nextId
    && (s'.pc.AtHead? || s'.pc.Holding? ==> (s.pc.AtHead? || s.pc.Holding?) && s'.pc.cap == s.pc.cap)
  }

  lemma ElsewhereBooks(s: Sys, e: Event)
    requires Ready(s, e) && (e.Arrive? || e.FrameDrop? || e.FrameMove? || e.Other?)
    ensures Keeps(s, Next(s, e)) && Next(s, e).pc == s.pc
  {
    hide P.Inv;
    hide PoolMoves;
    hide Roles;
  }

  lemma ElsewhereLives(s: Sys, e: Event)
    requires Ready(s, e) && (e.Arrive? || e.FrameDrop? || e.FrameMove? || e.Other?)
    ensures forall id | InBatch(s.batch, id) || HandOf(s.pc, id) ::
              id in s.pool.live ==> id in Next(s, e).pool.live
    ensures forall id | id < s.pool.nextId :: id in Next(s, e).pool.live ==> id in s.pool.live
  {
    hide P.Inv;
    hide Next;
    hide Sound;
    hide Untouched;
    forall id | InBatch(s.batch, id) || HandOf(s.pc, id)
      ensures !Drops(s, e, id)
    {
    }
  }

  ghost predicate Ready(s: Sys, e: Event) {
    && P.Inv(s.pool) && Roles(s) && Sound(s) && Enabled(s, e) && InBurst(s.pc)
    && PoolMoves(s, e, Next(s, e).pool)
  }

  lemma TakeFacts(s: Sys, e: Event)
    requires Ready(s, e) && e.TryAcquire? && P.Succeeds(s.pool, s.pool.slabSize)
    ensures var s' := Next(s, e);
            && Keeps(s, s') && s'.pc == Holding(s.pc.n, s.pc.cap, s.pool.nextId)
            && s'.pool.nextId == s.pool.nextId + 1
            && forall id :: id in s'.pool.live <==> id in s.pool.live || id == s.pool.nextId
  {
    hide P.Inv;
  }

  lemma CloseFacts(s: Sys, e: Event)
    requires Ready(s, e)
    requires e.BurstFull? || e.ReadInUse? || (e.TryAcquire? && !P.Succeeds(s.pool, s.pool.slabSize))
    ensures var s' := Next(s, e);
            Keeps(s, s') && !s.pc.Holding? && !s'.pc.Holding? && s'.pool == s.pool
  {
  }

  lemma ReturnFacts(s: Sys, e: Event)
    requires Ready(s, e) && (e.RecvWouldBlock? || e.RecvError?)
    ensures var s' := Next(s, e);
            && Keeps(s, s') && s.pc.Holding? && s'.pc.Idle?
            && !InBatch(s.batch, s.pc.id)
            && forall id :: id in s'.pool.live <==> id in s.pool.live && id != s.pc.id
  {
    hide P.Inv;
  }

  lemma PushFacts(s: Sys, e: Event)
    requires Ready(s, e) && e.RecvOk?
    ensures var s' := Next(s, e);
            && s'.start == s.start && s'.startPeer == s.startPeer && s.pool.nextId <= s'.pool.nextId
            && s.pc.Holding? && s'.pc == AtHead(s.pc.n + 1, s.pc.cap)
            && (exists f: Frame :: f.id == s.pc.id && s'.batch == s.batch + [f])
            && forall id :: id in s'.pool.live <==> id in s.pool.live
  {
    hide P.Inv;
    var f := Frame(s.pc.id, s.queue[0].peer);
    assert Next(s, e).batch == s.batch + [f];
  }

  lemma PushedOneMore(batch: seq<Frame>, from: nat, f: Frame, id: P.Id)
    requires from <= |batch|
    ensures PushedSince(batch + [f], from, id) <==> PushedSince(batch, from, id) || id == f.id
  {
    var longer := batch + [f];
    assert longer[|batch|] == f;
    if PushedSince(batch, from, id) {
      var k :| from <= k < |batch| && batch[k].id == id;
      assert longer[k].id == id;
    }
  }

  lemma SoFarElsewhere(s0: Sys, s: Sys, s': Sys, pops: set<P.Id>, cap: nat)
    requires SoFar(s0, s, pops, cap) && Keeps(s, s') && s'.pc == s.pc
    requires forall id | InBatch(s.batch, id) || HandOf(s.pc, id) :: id in s.pool.live ==> id in s'.pool.live
    requires forall id | id < s.pool.nextId :: id in s'.pool.live ==> id in s.pool.live
    ensures SoFar(s0, s', pops, cap)
  {
    forall id | PushedSince(s.batch, |s0.batch|, id)
      ensures InBatch(s.batch, id)
    {
    }
  }

  lemma SoFarTakes(s0: Sys, s: Sys, s': Sys, pops: set<P.Id>, cap: nat)
    requires SoFar(s0, s, pops, cap) && Keeps(s, s') && s.pc.AtHead?
    requires s'.pc == Holding(s.pc.n, s.pc.cap, s.pool.nextId) && s'.pool.nextId == s.pool.nextId + 1
    requires forall id :: id in s'.pool.live <==> id in s.pool.live || id == s.pool.nextId
    ensures SoFar(s0, s', pops + {s.pool.nextId}, cap)
  {
  }

  lemma SoFarReturns(s0: Sys, s: Sys, s': Sys, pops: set<P.Id>, cap: nat)
    requires SoFar(s0, s, pops, cap) && Keeps(s, s') && s.pc.Holding? && s'.pc.Idle? && !InBatch(s.batch, s.pc.id)
    requires forall id :: id in s'.pool.live <==> id in s.pool.live && id != s.pc.id
    ensures SoFar(s0, s', pops, cap)
  {
    forall id | PushedSince(s.batch, |s0.batch|, id)
      ensures InBatch(s.batch, id)
    {
    }
  }

  lemma SoFarPushes(s0: Sys, s: Sys, s': Sys, f: Frame, pops: set<P.Id>, cap: nat)
    requires SoFar(s0, s, pops, cap) && s'.start == s.start && s'.startPeer == s.startPeer
    requires s.pool.nextId <= s'.pool.nextId && s.pc.Holding? && s'.pc == AtHead(s.pc.n + 1, s.pc.cap)
    requires f.id == s.pc.id && s'.batch == s.batch + [f]
    requires forall id :: id in s'.pool.live <==> id in s.pool.live
    ensures SoFar(s0, s', pops, cap)
  {
    forall id
      ensures PushedSince(s'.batch, |s0.batch|, id) <==> PushedSince(s.batch, |s0.batch|, id) || id == s.pc.id
    {
      PushedOneMore(s.batch, |s0.batch|, f, id);
    }
  }

  lemma SoFarCloses(s0: Sys, s: Sys, s': Sys, pops: set<P.Id>, cap: nat)
    requires SoFar(s0, s, pops, cap) && Keeps(s, s') && !s.pc.Holding? && !s'.pc.Holding? && s'.pool == s.pool
    ensures SoFar(s0, s', pops, cap)
  {
  }

  lemma OthersElsewhere(s: Sys, e: Event)
    requires Ready(s, e)
    requires !e.RecvOk? && !e.TryAcquire? && !e.RecvWouldBlock? && !e.RecvError? && !e.BurstFull? && !e.ReadInUse?
    ensures e.Arrive? || e.FrameDrop? || e.FrameMove? || e.Other?
  {
  }

  lemma StepElsewhere(s0: Sys, s: Sys, e: Event, pops: set<P.Id>, cap: nat)
    requires Ready(s, e) && SoFar(s0, s, pops, cap)
    requires e.Arrive? || e.FrameDrop? || e.FrameMove? || e.Other?
    ensures SoFar(s0, Next(s, e), pops + OwnPop(s, e), cap)
  {
    hide SoFar;
    hide Next;
    hide PoolMoves;
    hide Roles;
    hide P.Inv;
    ElsewhereBooks(s, e);
    ElsewhereLives(s, e);
    SoFarElsewhere(s0, s, Next(s, e), pops, cap);
    assert pops + OwnPop(s, e) == pops;
  }

  lemma StepTakes(s0: Sys, s: Sys, e: Event, pops: set<P.Id>, cap: nat)
    requires Ready(s, e) && SoFar(s0, s, pops, cap)
    requires e.TryAcquire? && P.Succeeds(s.pool, s.pool.slabSize)
    ensures SoFar(s0, Next(s, e), pops + OwnPop(s, e), cap)
  {
    hide SoFar;
    hide Next;
    hide PoolMoves;
    hide Roles;
    hide P.Inv;
    TakeFacts(s, e);
    SoFarTakes(s0, s, Next(s, e), pops, cap);
  }

  lemma StepCloses(s0: Sys, s: Sys, e: Event, pops: set<P.Id>, cap: nat)
    requires Ready(s, e) && SoFar(s0, s, pops, cap)
    requires e.BurstFull? || e.ReadInUse? || (e.TryAcquire? && !P.Succeeds(s.pool, s.pool.slabSize))
    ensures SoFar(s0, Next(s, e), pops + OwnPop(s, e), cap)
  {
    hide SoFar;
    hide Next;
    hide PoolMoves;
    hide Roles;
    hide P.Inv;
    CloseFacts(s, e);
    SoFarCloses(s0, s, Next(s, e), pops, cap);
    assert pops + OwnPop(s, e) == pops;
  }

  lemma StepReturns(s0: Sys, s: Sys, e: Event, pops: set<P.Id>, cap: nat)
    requires Ready(s, e) && SoFar(s0, s, pops, cap) && (e.RecvWouldBlock? || e.RecvError?)
    ensures SoFar(s0, Next(s, e), pops + OwnPop(s, e), cap)
  {
    hide SoFar;
    hide Next;
    hide PoolMoves;
    hide Roles;
    hide P.Inv;
    ReturnFacts(s, e);
    SoFarReturns(s0, s, Next(s, e), pops, cap);
    assert pops + OwnPop(s, e) == pops;
  }

  lemma StepPushes(s0: Sys, s: Sys, e: Event, pops: set<P.Id>, cap: nat)
    requires Ready(s, e) && SoFar(s0, s, pops, cap) && e.RecvOk?
    ensures SoFar(s0, Next(s, e), pops + OwnPop(s, e), cap)
  {
    hide SoFar;
    hide Next;
    hide PoolMoves;
    hide Roles;
    hide P.Inv;
    PushFacts(s, e);
    var f: Frame :| f.id == s.pc.id && Next(s, e).batch == s.batch + [f];
    SoFarPushes(s0, s, Next(s, e), f, pops, cap);
    assert pops + OwnPop(s, e) == pops;
  }

  lemma SoFarStep(s0: Sys, s: Sys, e: Event, pops: set<P.Id>, cap: nat)
    requires Ready(s, e) && SoFar(s0, s, pops, cap)
    ensures SoFar(s0, Next(s, e), pops + OwnPop(s, e), cap)
  {
    hide *;
    match e {
      case RecvOk(_) => StepPushes(s0, s, e, pops, cap);
      case TryAcquire =>
        if P.Succeeds(s.pool, s.pool.slabSize) {
          StepTakes(s0, s, e, pops, cap);
        } else {
          StepCloses(s0, s, e, pops, cap);
        }
      case RecvWouldBlock => StepReturns(s0, s, e, pops, cap);
      case RecvError(_, _) => StepReturns(s0, s, e, pops, cap);
      case BurstFull => StepCloses(s0, s, e, pops, cap);
      case ReadInUse => StepCloses(s0, s, e, pops, cap);
      case _ =>
        OthersElsewhere(s, e);
        StepElsewhere(s0, s, e, pops, cap);
    }
  }

  // ---------------------------------------------------------------- from start to exit

  /** A burst from the call in step `i` to the step `j` that returns from it. */
  ghost predicate IsBurst(ss: seq<Sys>, es: seq<Event>, i: nat, j: nat)
    requires |ss| == |es| + 1
  {
    && i < j < |es| && es[i].BurstStart?
    && (forall k | i < k <= j :: InBurst(ss[k].pc))
    && !InBurst(ss[j + 1].pc)
  }

  /** The cap a burst called in `s` works with. */
  function CapOf(s: Sys, e: Event): nat
    requires e.BurstStart? && |s.batch| <= s.batchCap
  {
    Min(e.max, s.batchCap - |s.batch|)
  }

  lemma ReadyAt(ss: seq<Sys>, es: seq<Event>, capacity: nat, slabSize: nat, batchCap: nat, k: nat)
    requires IsRun(ss, es, capacity, slabSize, batchCap) && k < |es| && InBurst(ss[k].pc)
    ensures Ready(ss[k], es[k]) && ss[k + 1] == Next(ss[k], es[k])
  {
    hide Roles;
    hide PoolMoves;
    RunInv(ss, es, capacity, slabSize, batchCap, k);
    StepOf(ss, es, capacity, slabSize, batchCap, k);
    PoolStep(ss[k], es[k]);
  }

  lemma StartsAt(ss: seq<Sys>, es: seq<Event>, capacity: nat, slabSize: nat, batchCap: nat, i: nat)
    requires IsRun(ss, es, capacity, slabSize, batchCap) && i < |es| && es[i].BurstStart?
    ensures |ss[i].batch| <= ss[i].batchCap
    ensures SoFar(ss[i], ss[i + 1], {}, CapOf(ss[i], es[i]))
  {
    RunInv(ss, es, capacity, slabSize, batchCap, i);
    StepOf(ss, es, capacity, slabSize, batchCap, i);
    SoFarStarts(ss[i], es[i].max, batchCap);
  }

  lemma {:induction false} SoFarAt(ss: seq<Sys>, es: seq<Event>, capacity: nat, slabSize: nat, batchCap: nat,
      i: nat, k: nat)
    requires IsRun(ss, es, capacity, slabSize, batchCap) && i < k < |ss| && es[i].BurstStart?
    requires forall m | i < m < k :: InBurst(ss[m].pc)
    ensures |ss[i].batch| <= ss[i].batchCap
    ensures SoFar(ss[i], ss[k], OwnPops(ss, es, i, k), CapOf(ss[i], es[i]))
    decreases k
  {
    hide Ready;
    hide SoFar;
    hide Next;
    hide InBurst;
    StartsAt(ss, es, capacity, slabSize, batchCap, i);
    if k == i + 1 {
      assert OwnPops(ss, es, i, k) == {};
    } else {
      SoFarAt(ss, es, capacity, slabSize, batchCap, i, k - 1);
      ReadyAt(ss, es, capacity, slabSize, batchCap, k - 1);
      SoFarStep(ss[i], ss[k - 1], es[k - 1], OwnPops(ss, es, i, k - 1), CapOf(ss[i], es[i]));
    }
  }

  /** A burst ends by step `e` from `s` to `s'`, and why. */
  predicate Exits(s: Sys, e: Event, s': Sys) {
    && s'.pc.Idle? && s'.batch == s.batch && s.start <= |s.batch|
    && (s.pc.AtHead? || s.pc.Holding? ==> s.start + s.pc.n == |s.batch| && s.pc.n <= s.pc.cap)
    && (s.pc.OutOfSlabs? ==> s.start == |s.batch|)
    && InBurst(s.pc)
    && s'.lastPeer == (if |s.batch| == s.start then s.startPeer else Some(s.batch[|s.batch| - 1].peer))
    && s'.result.Some?
    && (match s'.result.value
        case Ok(n) => s.start + n == |s.batch| && (e.BurstFull? || e.TryAcquire? || e.RecvWouldBlock?)
        case Err(PoolExhausted(_, _)) => e.ReadInUse? && |s.batch| == s.start
        case Err(Io(kind)) => e.RecvError? && kind == IoKind.Other(e.code))
    && (e.BurstFull? ==> s.pc.AtHead? && s.start + s.pc.cap == |s.batch|)
    && (e.TryAcquire? ==> s.pool.free == [] && s.start < |s.batch|)
    && (e.RecvWouldBlock? ==> s.queue == [])
    && ProbeBack(s, s')
  }

  /** The slab the burst was probing with is on top of the free list, and no other moved. */
  predicate ProbeBack(s: Sys, s': Sys) {
    if s.pc.Holding? then s.pc.id in s.pool.live && s'.pool.free == s.pool.free + [s.pool.live[s.pc.id].index]
    else s'.pool == s.pool
  }

  lemma ExitFacts(s: Sys, e: Event, batchCap: nat)
    requires Sound(s) && Enabled(s, e) && Books(s, batchCap) && InBurst(s.pc) && !InBurst(Next(s, e).pc)
    ensures Exits(s, e, Next(s, e))
  {
    ProbeReturns(s, e);
    hide ProbeBack;
    hide P.Next;
  }

  lemma ProbeReturns(s: Sys, e: Event)
    requires Sound(s) && Enabled(s, e) && InBurst(s.pc) && !InBurst(Next(s, e).pc)
    ensures ProbeBack(s, Next(s, e))
  {
  }

  /** Slab balance of a whole burst that began in `s0` and ended in `s`, having popped
      `pops`. The frames already in the batch are untouched; the new ones are at most `cap`,
      and they are exactly those of the slabs popped that are still out, so every other slab
      the burst popped is back; and the last peer is that of the last new frame or unchanged. */
  ghost predicate Balanced(s0: Sys, s: Sys, pops: set<P.Id>, cap: nat) {
    && s0.batch <= s.batch
    && var added := s.batch[|s0.batch|..];
       && |added| <= cap
       && Ids(added) == pops * s.pool.live.Keys && |Ids(added)| == |added|
       && (forall id | id in Ids(added) :: id >= s0.pool.nextId)
       && s.lastPeer == (if added == [] then s0.lastPeer else Some(added[|added| - 1].peer))
  }

  /** What the call that began with `from` frames in the batch returns, by its last step `e`
      from `s` to `s'`: `Ok` counts the new frames, `PoolExhausted` means there are none, each
      exit has its reason, and the slab in hand, if any, is given back. */
  predicate Reports(from: nat, s: Sys, e: Event, s': Sys, cap: nat) {
    && s'.pc.Idle? && s'.result.Some? && from <= |s'.batch|
    && (match s'.result.value
        case Ok(n) => from + n == |s'.batch| && (e.BurstFull? || e.TryAcquire? || e.RecvWouldBlock?)
        case Err(PoolExhausted(_, _)) => from == |s'.batch| && e.ReadInUse?
        case Err(Io(kind)) => e.RecvError? && kind == IoKind.Other(e.code))
    && (e.BurstFull? ==> from + cap == |s'.batch|)
    && (e.TryAcquire? ==> s.pool.free == [] && from < |s'.batch|)
    && (e.RecvWouldBlock? ==> s.queue == [])
    && ProbeBack(s, s')
  }

  lemma NewFrames(old': seq<Frame>, batch: seq<Frame>)
    requires old' <= batch
    ensures |batch[|old'|..]| == |batch| - |old'|
    ensures batch != old' ==> batch[|old'|..] != [] && batch[|old'|..][|batch| - |old'| - 1] == batch[|batch| - 1]
    ensures batch == old' <==> |batch| == |old'|
  {
  }

  lemma BalancedIf(s0: Sys, s: Sys, s': Sys, pops: set<P.Id>, cap: nat)
    requires s0.batch <= s'.batch && s.start == |s0.batch| && s.startPeer == s0.lastPeer && s'.batch == s.batch
    requires |s.batch| - s.start <= cap
    requires s'.lastPeer == (if |s.batch| == s.start then s.startPeer else Some(s.batch[|s.batch| - 1].peer))
    requires Ids(s'.batch[|s0.batch|..]) == pops * s'.pool.live.Keys
    requires |Ids(s'.batch[|s0.batch|..])| == |s'.batch| - |s0.batch|
    requires forall id | id in Ids(s'.batch[|s0.batch|..]) :: id >= s0.pool.nextId
    ensures Balanced(s0, s', pops, cap)
  {
    NewFrames(s0.batch, s'.batch);
    hide Ids;
  }

  lemma BalancedAtExit(s0: Sys, s: Sys, e: Event, s': Sys, before: set<P.Id>, pops: set<P.Id>, cap: nat)
    requires SoFar(s0, s, before, cap) && SoFar(s0, s', pops, cap) && Exits(s, e, s') && Roles(s')
    ensures Balanced(s0, s', pops, cap)
  {
    hide *;
    SoFarMeans(s0, s, before, cap);
    SoFarMeans(s0, s', pops, cap);
    ExitMeans(s, e, s');
    FreshIds(s0, s', pops, cap);
    FreshCount(s', |s0.batch|);
    BalancedIf(s0, s, s', pops, cap);
  }

  lemma ExitMeans(s: Sys, e: Event, s': Sys)
    requires Exits(s, e, s')
    ensures s'.batch == s.batch && s.start <= |s.batch| && !s'.pc.Holding?
    ensures s.pc.AtHead? || s.pc.Holding? ==> |s.batch| - s.start <= s.pc.cap
    ensures !s.pc.AtHead? && !s.pc.Holding? ==> |s.batch| == s.start
    ensures s'.lastPeer == (if |s.batch| == s.start then s.startPeer else Some(s.batch[|s.batch| - 1].peer))
  {
  }

  lemma ReportsAtExit(s0: Sys, s: Sys, e: Event, s': Sys, before: set<P.Id>, cap: nat)
    requires SoFar(s0, s, before, cap) && Exits(s, e, s')
    ensures Reports(|s0.batch|, s, e, s', cap)
  {
    SoFarMeans(s0, s, before, cap);
    hide SoFar;
    hide ProbeBack;
  }

  lemma SoFarMeans(s0: Sys, s: Sys, pops: set<P.Id>, cap: nat)
    requires SoFar(s0, s, pops, cap)
    ensures s0.batch <= s.batch && s.start == |s0.batch| && s.startPeer == s0.lastPeer
    ensures s.pc.AtHead? || s.pc.Holding? ==> s.pc.cap == cap
  {
  }

  lemma SoFarInBurst(
      ss: seq<Sys>, es: seq<Event>, capacity: nat, slabSize: nat, batchCap: nat, i: nat, j: nat)
    requires IsRun(ss, es, capacity, slabSize, batchCap) && IsBurst(ss, es, i, j)
    ensures |ss[i].batch| <= ss[i].batchCap
    ensures SoFar(ss[i], ss[j], OwnPops(ss, es, i, j), CapOf(ss[i], es[i]))
    ensures SoFar(ss[i], ss[j + 1], OwnPops(ss, es, i, j + 1), CapOf(ss[i], es[i]))
  {
    hide SoFar;
    hide OwnPops;
    hide InBurst;
    hide Step;
    SoFarAt(ss, es, capacity, slabSize, batchCap, i, j);
    SoFarAt(ss, es, capacity, slabSize, batchCap, i, j + 1);
  }

  lemma ExitsAt(ss: seq<Sys>, es: seq<Event>, capacity: nat, slabSize: nat, batchCap: nat, j: nat)
    requires IsRun(ss, es, capacity, slabSize, batchCap) && j < |es|
    requires InBurst(ss[j].pc) && !InBurst(ss[j + 1].pc)
    ensures Exits(ss[j], es[j], ss[j + 1]) && Roles(ss[j + 1])
  {
    hide Roles;
    hide Exits;
    hide InBurst;
    hide Books;
    hide Next;
    RunInv(ss, es, capacity, slabSize, batchCap, j);
    RunInv(ss, es, capacity, slabSize, batchCap, j + 1);
    StepOf(ss, es, capacity, slabSize, batchCap, j);
    ExitFacts(ss[j], es[j], batchCap);
  }

  /** Whatever the kernel and the other threads do between the call of a burst in step `i`
      and its return in step `j`, it is balanced and reports truly. */
  lemma BurstBalance(
      ss: seq<Sys>, es: seq<Event>, capacity: nat, slabSize: nat, batchCap: nat, i: nat, j: nat)
    requires IsRun(ss, es, capacity, slabSize, batchCap) && IsBurst(ss, es, i, j)
    ensures |ss[i].batch| <= ss[i].batchCap
    ensures var cap := Min(es[i].max, ss[i].batchCap - |ss[i].batch|);
            && Balanced(ss[i], ss[j + 1], OwnPops(ss, es, i, j + 1), cap)
            && Reports(|ss[i].batch|, ss[j], es[j], ss[j + 1], cap)
  {
    SoFarInBurst(ss, es, capacity, slabSize, batchCap, i, j);
    assert i < j < |es| && |ss| == |es| + 1 && es[i].BurstStart? && InBurst(ss[j].pc) && !InBurst(ss[j + 1].pc);
    assert CapOf(ss[i], es[i]) == Min(es[i].max, ss[i].batchCap - |ss[i].batch|);
    hide *;
    ExitsAt(ss, es, capacity, slabSize, batchCap, j);
    var before, pops, cap := OwnPops(ss, es, i, j), OwnPops(ss, es, i, j + 1), CapOf(ss[i], es[i]);
    BalancedAtExit(ss[i], ss[j], es[j], ss[j + 1], before, pops, cap);
    ReportsAtExit(ss[i], ss[j], es[j], ss[j + 1], before, cap);
  }

  lemma FreshIds(s0: Sys, s: Sys, pops: set<P.Id>, cap: nat)
    requires SoFar(s0, s, pops, cap) && !s.pc.Holding?
    ensures Ids(s.batch[|s0.batch|..]) == pops * s.pool.live.Keys
    ensures forall id | id in Ids(s.batch[|s0.batch|..]) :: id >= s0.pool.nextId
  {
    var from, added := |s0.batch|, s.batch[|s0.batch|..];
    forall id
      ensures id in Ids(added) <==> PushedSince(s.batch, from, id)
    {
      if id in Ids(added) {
        var f :| f in added && f.id == id;
        var k :| 0 <= k < |added| && added[k] == f;
        assert s.batch[from + k].id == id;
      }
      if PushedSince(s.batch, from, id) {
        var k :| from <= k < |s.batch| && s.batch[k].id == id;
        assert added[k - from].id == id;
      }
    }
  }

  lemma FreshCount(s: Sys, from: nat)
    requires Roles(s) && from <= |s.batch|
    ensures |Ids(s.batch[from..])| == |s.batch| - from
  {
    CountIds(s.batch[from..]);
  }

  // ---------------------------------------------------------------- what `PoolExhausted` reports

  /** Slabs that went back to the pool in steps `i` to `j`. */
  function Frees(es: seq<Event>, i: nat, j: nat): nat
    requires i <= j <= |es|
    decreases j
  {
    if i == j then 0
    else Frees(es, i, j - 1) + (if es[j - 1].FrameDrop? || (es[j - 1].Other? && es[j - 1].e.Drop?) then 1 else 0)
  }

  /** Slabs other code took in steps `i` to `j`. */
  function Takes(ss: seq<Sys>, es: seq<Event>, i: nat, j: nat): nat
    requires i <= j <= |es| <= |ss|
    decreases j
  {
    if i == j then 0 else Takes(ss, es, i, j - 1) + (if TakenBy(ss[j - 1], es[j - 1]) then 1 else 0)
  }

  predicate TakenBy(s: Sys, e: Event) {
    e.Other? && e.e.Acquire? && P.Succeeds(s.pool, e.e.len)
  }

  lemma FreeStep(s: Sys, e: Event)
    requires Sound(s) && Enabled(s, e) && s.pc.OutOfSlabs? && !e.ReadInUse?
    ensures var s' := Next(s, e);
            && s'.pc.OutOfSlabs? && |s'.pool.slots| == |s.pool.slots|
            && |s'.pool.free| + (if TakenBy(s, e) then 1 else 0)
               == |s.pool.free| + (if e.FrameDrop? || (e.Other? && e.e.Drop?) then 1 else 0)
  {
  }

  lemma PopFailed(s: Sys)
    requires Sound(s) && Enabled(s, TryAcquire) && Next(s, TryAcquire).pc.OutOfSlabs?
    ensures Next(s, TryAcquire).pool.free == []
  {
  }

  lemma {:induction false} FreeSincePop(
      ss: seq<Sys>, es: seq<Event>, capacity: nat, slabSize: nat, batchCap: nat, i: nat, k: nat)
    requires IsRun(ss, es, capacity, slabSize, batchCap) && i < k <= |es|
    requires es[i].TryAcquire? && ss[i + 1].pc.OutOfSlabs?
    requires forall m | i < m < k :: !es[m].ReadInUse?
    ensures ss[k].pc.OutOfSlabs?
    ensures |ss[k].pool.free| + Takes(ss, es, i + 1, k) == Frees(es, i + 1, k)
    decreases k
  {
    hide Sound;
    hide Enabled;
    hide Next;
    hide TakenBy;
    RunShape(ss, es, capacity, slabSize, batchCap);
    StepOf(ss, es, capacity, slabSize, batchCap, k - 1);
    if k == i + 1 {
      PopFailed(ss[i]);
    } else {
      FreeSincePop(ss, es, capacity, slabSize, batchCap, i, k - 1);
      FreeStep(ss[k - 1], es[k - 1]);
    }
  }

  lemma RunShape(ss: seq<Sys>, es: seq<Event>, capacity: nat, slabSize: nat, batchCap: nat)
    requires IsRun(ss, es, capacity, slabSize, batchCap)
    ensures |ss| == |es| + 1
  {
  }

  lemma ReadsInUse(s: Sys)
    requires Sound(s) && Enabled(s, ReadInUse) && |s.pool.free| <= |s.pool.slots|
    ensures Next(s, ReadInUse).result
            == Some(Err(PoolExhausted(|s.pool.slots| - |s.pool.free|, |s.pool.slots|)))
  {
  }

  /** The use a `PoolExhausted` reports is read after the failed pop: it is the capacity, less
      what other threads gave back in between, plus what they took. So it is the capacity
      exactly when these balance, and always when nobody gives a slab back. */
  lemma ExhaustedReport(
      ss: seq<Sys>, es: seq<Event>, capacity: nat, slabSize: nat, batchCap: nat, i: nat, j: nat)
    requires IsRun(ss, es, capacity, slabSize, batchCap) && i < j < |es|
    requires es[i].TryAcquire? && ss[i + 1].pc.OutOfSlabs?
    requires es[j].ReadInUse? && forall m | i < m < j :: !es[m].ReadInUse?
    ensures var freed, taken := Frees(es, i + 1, j), Takes(ss, es, i + 1, j);
            && taken <= freed <= capacity + taken
            && ss[j + 1].result == Some(Err(PoolExhausted(capacity + taken - freed, capacity)))
            && (ss[j + 1].result == Some(Err(PoolExhausted(capacity, capacity))) <==> freed == taken)
            && (freed == 0 ==> ss[j + 1].result == Some(Err(PoolExhausted(capacity, capacity))))
  {
    hide Sound;
    hide Enabled;
    hide Next;
    hide Roles;
    hide InOrder;
    FreeSincePop(ss, es, capacity, slabSize, batchCap, i, j);
    RunInv(ss, es, capacity, slabSize, batchCap, j);
    StepOf(ss, es, capacity, slabSize, batchCap, j);
    ReadsInUse(ss[j]);
  }

  /** A one-slab system in the middle of the run below. */
  function Shot(free: seq<nat>, live: map<P.Id, P.Handle>, nextId: P.Id, raw: set<P.Id>, pc: Pc,
      result: Option<Result<nat>>): Sys {
    Sys(P.Pool(4, free, P.Init(1, 4).slots, live, nextId), 0, pc, true,
        [], [], 2, None, map[], raw, [], [], 0, None, result)
  }

  lemma ShotFirst()
    ensures Shot([0], map[], 0, {}, Idle, None) == Init(1, 4, 0, 2)
  {
    assert [0] == P.Init(1, 4).free;
  }

  lemma ShotTaken(h: P.Handle)
    requires h == P.Handle(7, 0, 0)
    ensures Step(Shot([0], map[], 0, {}, Idle, None), Event.Other(P.Acquire(7, 4)),
                 Shot([], map[0 := h], 1, {0}, Idle, None))
  {
  }

  lemma ShotDropped(h: P.Handle)
    requires h == P.Handle(7, 0, 0)
    ensures Step(Shot([], map[0 := h], 1, {0}, OutOfSlabs, None), Event.Other(P.Drop(7, 0)),
                 Shot([0], map[], 1, {}, OutOfSlabs, None))
  {
    assert map[0 := h] - {0} == map[];
    assert {0} - {0} == {};
  }

  lemma ShotsWithin(h: P.Handle)
    requires h == P.Handle(7, 0, 0)
    ensures Step(Shot([], map[0 := h], 1, {0}, Idle, None), BurstStart(1),
                 Shot([], map[0 := h], 1, {0}, AtHead(0, 1), None))
    ensures Step(Shot([], map[0 := h], 1, {0}, AtHead(0, 1), None), TryAcquire,
                 Shot([], map[0 := h], 1, {0}, OutOfSlabs, None))
    ensures Step(Shot([0], map[], 1, {}, OutOfSlabs, None), ReadInUse,
                 Shot([0], map[], 1, {}, Idle, Some(Err(PoolExhausted(0, 1)))))
  {
  }

  lemma RunOfFive(s0: Sys, e1: Event, s1: Sys, e2: Event, s2: Sys, e3: Event, s3: Sys, e4: Event, s4: Sys,
      e5: Event, s5: Sys)
    returns (ss: seq<Sys>, es: seq<Event>)
    requires s0 == Init(1, 4, 0, 2)
    requires Step(s0, e1, s1) && Step(s1, e2, s2) && Step(s2, e3, s3) && Step(s3, e4, s4) && Step(s4, e5, s5)
    ensures IsRun(ss, es, 1, 4, 2) && ss[|es|] == s5
  {
    hide Step;
    hide Init;
    ss, es := [s0, s1, s2, s3, s4, s5], [e1, e2, e3, e4, e5];
  }

  /** A run of a one-slab pool in which a burst reports `PoolExhausted` with nothing in use:
      another thread takes the slab before the pop and drops it before the count. */
  lemma ExhaustedCanUnderreport()
    ensures exists ss: seq<Sys>, es: seq<Event> ::
              IsRun(ss, es, 1, 4, 2) && ss[|es|].result == Some(Err(PoolExhausted(0, 1)))
  {
    var h := P.Handle(7, 0, 0);
    ShotFirst();
    ShotTaken(h);
    ShotDropped(h);
    ShotsWithin(h);
    var last := Shot([0], map[], 1, {}, Idle, Some(Err(PoolExhausted(0, 1))));
    assert last.result == Some(Err(PoolExhausted(0, 1)));
    hide *;
    var ss, es := RunOfFive(
      Shot([0], map[], 0, {}, Idle, None), Event.Other(P.Acquire(7, 4)),
      Shot([], map[0 := h], 1, {0}, Idle, None), BurstStart(1),
      Shot([], map[0 := h], 1, {0}, AtHead(0, 1), None), TryAcquire,
      Shot([], map[0 := h], 1, {0}, OutOfSlabs, None), Event.Other(P.Drop(7, 0)),
      Shot([0], map[], 1, {}, OutOfSlabs, None), ReadInUse, last);
  }
}
