/** The interleaved burst and the closed form agree: run without interference, the step
    system of `Delivery` ends every burst exactly as `UdpBackend.Reap` says. */
module BurstAlone {
  import opened Core
  import D = Delivery
  import U = UdpBackend

  /** The owner's only step from here when no receive call fails; a receive leaves the end
      of the slot as it was. */
  function OwnerEvent(s: D.Sys): D.Event
    requires D.Sound(s) && D.InBurst(s.pc)
  {
    if s.pc.AtHead? then (if s.pc.n < s.pc.cap then D.TryAcquire else D.BurstFull)
    else if s.pc.OutOfSlabs? then D.ReadInUse
    else if s.queue == [] then D.RecvWouldBlock
    else D.RecvOk(s.pool.slots[s.pool.live[s.pc.id].index][Min(|s.queue[0].bytes|, s.pool.slabSize)..])
  }

  lemma OwnerCanGo(s: D.Sys)
    requires D.Sound(s) && D.InBurst(s.pc)
    ensures D.Enabled(s, OwnerEvent(s))
  {
  }

  ghost predicate Good(s: D.Sys, batchCap: nat) {
    D.Inv(s, batchCap) && D.Sound(s)
  }

  ghost function Step(s: D.Sys, batchCap: nat): (s': D.Sys)
    requires Good(s, batchCap) && D.InBurst(s.pc)
    ensures Good(s', batchCap)
    ensures s'.pool.slabSize == s.pool.slabSize && |s'.pool.slots| == |s.pool.slots|
  {
    OwnerCanGo(s);
    D.StepInv(s, OwnerEvent(s), batchCap);
    D.Next(s, OwnerEvent(s))
  }

  /** `steps` steps of the owner alone, or fewer if the burst ends before. */
  ghost function Alone(s: D.Sys, batchCap: nat, steps: nat): (s': D.Sys)
    requires Good(s, batchCap)
    ensures Good(s', batchCap)
    ensures s'.pool.slabSize == s.pool.slabSize && |s'.pool.slots| == |s.pool.slots|
    decreases steps
  {
    hide Good;
    hide Step;
    if steps == 0 || !D.InBurst(s.pc) then s else Alone(Step(s, batchCap), batchCap, steps - 1)
  }

  /** `t` is `s` with the first `m` queued datagrams moved onto the top `m` free slots. */
  predicate Moved(s: D.Sys, t: D.Sys, m: nat) {
    && m <= |s.queue| && m <= |s.pool.free|
    && t.queue == s.queue[m..] && t.pool.free == s.pool.free[..|s.pool.free| - m]
    && |t.batch| == |s.batch| + m
    && t.accepted == s.accepted && t.delivered == s.delivered
  }

  lemma Takes(s: D.Sys, batchCap: nat)
    requires Good(s, batchCap) && s.pc.AtHead? && s.pc.n < s.pc.cap && s.pool.free != [] && s.queue != []
    ensures var t := Step(s, batchCap);
            && t.pc == D.Holding(s.pc.n, s.pc.cap, s.pool.nextId) && t.queue == s.queue
            && t.pool.free == s.pool.free[..|s.pool.free| - 1]
            && t.batch == s.batch && t.accepted == s.accepted && t.delivered == s.delivered
  {
    hide D.Inv;
  }

  lemma Lands(s: D.Sys, batchCap: nat)
    requires Good(s, batchCap) && s.pc.Holding? && s.queue != []
    ensures var t := Step(s, batchCap);
            && t.pc == D.AtHead(s.pc.n + 1, s.pc.cap) && t.queue == s.queue[1..] && t.pool.free == s.pool.free
            && |t.batch| == |s.batch| + 1 && t.accepted == s.accepted && t.delivered == s.delivered
  {
    hide D.Inv;
  }

  lemma Ends(s: D.Sys, batchCap: nat)
    requires Good(s, batchCap) && s.pc.AtHead?
    requires s.pc.n >= s.pc.cap || s.pool.free == [] || s.queue == []
    ensures var t := Alone(s, batchCap, 2);
            && t.pc.Idle? && Moved(s, t, 0)
            && t.result == Some(if s.pc.n == 0 && s.pc.cap > 0 && s.pool.free == []
                                then Err(PoolExhausted(|s.pool.slots|, |s.pool.slots|)) else Ok(s.pc.n))
  {
    hide D.Inv;
    var one := Step(s, batchCap);
    if D.InBurst(one.pc) {
      var two := Step(one, batchCap);
      assert Alone(s, batchCap, 2) == Alone(one, batchCap, 1) == Alone(two, batchCap, 0) == two;
    } else {
      assert Alone(s, batchCap, 2) == Alone(one, batchCap, 1) == one;
    }
  }

  lemma StaysEnded(s: D.Sys, batchCap: nat, steps: nat)
    requires Good(s, batchCap) && 2 <= steps && Alone(s, batchCap, 2).pc.Idle?
    ensures Alone(s, batchCap, steps) == Alone(s, batchCap, 2)
  {
    hide Good;
    hide Step;
    if D.InBurst(s.pc) {
      var one := Step(s, batchCap);
      assert Alone(s, batchCap, 2) == Alone(one, batchCap, 1);
      assert Alone(s, batchCap, steps) == Alone(one, batchCap, steps - 1);
      if D.InBurst(one.pc) {
        var two := Step(one, batchCap);
        assert Alone(one, batchCap, 1) == Alone(two, batchCap, 0) == two;
        assert Alone(one, batchCap, steps - 1) == Alone(two, batchCap, steps - 2) == two;
      }
    }
  }

  lemma {:induction false} AloneFrom(s: D.Sys, batchCap: nat)
    requires Good(s, batchCap) && s.pc.AtHead? && s.pc.n <= s.pc.cap
    ensures var t := Alone(s, batchCap, 2 * (s.pc.cap - s.pc.n) + 2);
            var m := Min(s.pc.cap - s.pc.n, Min(|s.pool.free|, |s.queue|));
            && t.pc.Idle? && Moved(s, t, m)
            && t.result == Some(if s.pc.n == 0 && s.pc.cap > 0 && s.pool.free == []
                                then Err(PoolExhausted(|s.pool.slots|, |s.pool.slots|)) else Ok(s.pc.n + m))
    decreases s.pc.cap - s.pc.n
  {
    hide Good;
    hide Step;
    hide OwnerEvent;
    var steps := 2 * (s.pc.cap - s.pc.n) + 2;
    if s.pc.n >= s.pc.cap || s.pool.free == [] || s.queue == [] {
      Ends(s, batchCap);
      StaysEnded(s, batchCap, steps);
    } else {
      Takes(s, batchCap);
      var one := Step(s, batchCap);
      Lands(one, batchCap);
      var two := Step(one, batchCap);
      assert Alone(s, batchCap, steps) == Alone(one, batchCap, steps - 1) == Alone(two, batchCap, steps - 2);
      AloneFrom(two, batchCap);
    }
  }

  function Packets(queue: seq<Datagram>): seq<U.Packet> {
    seq(|queue|, i requires 0 <= i < |queue| => U.Packet(queue[i].bytes, Some(queue[i].peer)))
  }

  /** From any reachable state, with frames in the batch, slabs out on other threads and any
      queue, a burst that nothing interferes with returns what the closed form returns,
      leaves its queue and its free list, and pushes exactly its packets: each new frame
      shows its own. */
  lemma AloneIsReap(s: D.Sys, batchCap: nat, script: seq<U.Turn>)
    requires Good(s, batchCap) && s.pc.AtHead? && s.pc.n == 0
    requires U.Quiet(script)
    ensures var t := Alone(s, batchCap, 2 * s.pc.cap + 2);
            var r := U.Reap(Packets(s.queue), script, |s.pool.free|, s.pc.cap);
            && t.pc.Idle? && t.result == Some(U.BurstResult(r, |s.pool.slots|))
            && Packets(t.queue) == r.queue
            && |r.got| <= |s.pool.free| && t.pool.free == s.pool.free[..|s.pool.free| - |r.got|]
            && |t.batch| == |s.batch| + |r.got| && D.Sound(t)
            && forall k | 0 <= k < |r.got| :: D.Views(t)[|s.batch| + k] == U.Landed(r.got[k], s.pool.slabSize)
  {
    hide U.Reap;
    hide Good;
    hide Alone;
    AloneFrom(s, batchCap);
    U.BurstClosedForm(Packets(s.queue), script, |s.pool.free|, s.pc.cap, |s.pool.slots|);
    var t := Alone(s, batchCap, 2 * s.pc.cap + 2);
    var m := Min(s.pc.cap, Min(|s.pool.free|, |s.queue|));
    assert Packets(t.queue) == Packets(s.queue)[m..];
    GoodIsSound(t, batchCap);
    forall k | 0 <= k < m
      ensures D.Views(t)[|s.batch| + k] == U.Landed(Packets(s.queue)[..m][k], s.pool.slabSize)
    {
      FrameOf(s, t, batchCap, m, k);
    }
  }

  lemma GoodIsSound(s: D.Sys, batchCap: nat)
    requires Good(s, batchCap)
    ensures D.Sound(s)
  {
  }

  lemma FrameOf(s: D.Sys, t: D.Sys, batchCap: nat, m: nat, k: nat)
    requires Good(s, batchCap) && Good(t, batchCap) && Moved(s, t, m) && k < m
    requires t.pool.slabSize == s.pool.slabSize
    ensures D.Views(t)[|s.batch| + k] == CutDatagram(s.queue[k], s.pool.slabSize)
  {
    hide D.Roles;
    hide D.Books;
    hide D.P.Inv;
    var j := |s.batch| + k;
    assert D.Shows(t, t.batch[j].id, t.batch[j].peer, |t.delivered| + j);
    assert s.queue[k] == s.accepted[|s.delivered| + |s.batch| + k];
  }
}
