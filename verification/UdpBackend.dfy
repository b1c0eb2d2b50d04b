/** `recv_burst` of both UDP backends, run against a scripted kernel, and the closed
    form it refines. */
module UdpBackend {
  import opened Core
  import opened SlabPool
  import opened Batch

  /** A queued datagram; the tokio backend may fail to resolve its sender. */
  datatype Packet = Packet(bytes: seq<Byte>, from: Option<Addr>)

  /** What happens around one receive call: packets that arrive just before it, and
      the error it reports, if any. */
  datatype Turn = Turn(arrivals: seq<Packet>, failure: Option<int>)

  datatype RecvOutcome = Received(len: nat, from: Option<Addr>) | WouldBlock | Failed(code: int)

  function Resolve(from: Option<Addr>): Addr {
    if from.Some? then from.value else UNSPECIFIED
  }

  /** What a frame must show for a packet that landed in a slab of `n` bytes. */
  function Landed(p: Packet, n: nat): Datagram {
    Datagram(Cut(p.bytes, n), Resolve(p.from))
  }

  function Arriving(script: seq<Turn>): seq<Packet> {
    if script == [] then [] else script[0].arrivals
  }

  function Failure(script: seq<Turn>): Option<int> {
    if script == [] then None else script[0].failure
  }

  function Rest(script: seq<Turn>): seq<Turn> {
    if script == [] then [] else script[1..]
  }

  class UdpSocket {
    var queue: seq<Packet>
    var script: seq<Turn>

    /** The assumed kernel: FIFO, truncating, non-blocking. A failing call says nothing
        about the buffer. */
    method RecvFrom(buf: array<Byte>) returns (r: RecvOutcome)
      modifies this, buf
      ensures script == Rest(old(script))
      ensures var q := old(queue) + Arriving(old(script));
              match Failure(old(script))
              case Some(code) => r == Failed(code) && queue == q
              case None =>
                if q == [] then r == WouldBlock && queue == q && buf[..] == old(buf[..])
                else
                  && r == Received(Min(|q[0].bytes|, buf.Length), q[0].from)
                  && queue == q[1..]
                  && buf[..r.len] == Cut(q[0].bytes, buf.Length)
                  && buf[r.len..] == old(buf[r.len..])
    {
      var failure := Failure(script);
      queue := queue + Arriving(script);
      script := Rest(script);
      if failure.Some? {
        return Failed(failure.value);
      }
      if |queue| == 0 {
        return WouldBlock;
      }
      var p := queue[0];
      queue := queue[1..];
      var n := Min(|p.bytes|, buf.Length);
      forall k | 0 <= k < n {
        buf[k] := p.bytes[k];
      }
      r := Received(n, p.from);
    }
  }

  datatype Exit = CapReached | NoSlab | Drained | IoFailed(code: int)

  /** The outcome of a burst: the packets it took, what it left, and which exit ended it. */
  datatype Reaped = Reaped(got: seq<Packet>, queue: seq<Packet>, script: seq<Turn>, exit: Exit)

  /** What a burst of at most `cap` frames does with `free` free slabs. */
  function Reap(queue: seq<Packet>, script: seq<Turn>, free: nat, cap: nat): Reaped
    decreases cap
  {
    if cap == 0 then Reaped([], queue, script, CapReached)
    else if free == 0 then Reaped([], queue, script, NoSlab)
    else
      var q := queue + Arriving(script);
      match Failure(script)
      case Some(code) => Reaped([], q, Rest(script), IoFailed(code))
      case None =>
        if q == [] then Reaped([], q, Rest(script), Drained)
        else
          var r := Reap(q[1..], Rest(script), free - 1, cap - 1);
          r.(got := [q[0]] + r.got)
  }

  /** The no-slab exit is taken with no slab free. */
  lemma {:induction false} ReapWhole(queue: seq<Packet>, script: seq<Turn>, free: nat, cap: nat)
    ensures var r := Reap(queue, script, free, cap);
            && |r.got| <= Min(free, cap)
            && (r.exit == CapReached <==> |r.got| == cap)
            && (r.exit == NoSlab <==> |r.got| == free < cap)
            && (r.exit == Drained ==> r.queue == [])
    decreases cap
  {
    if 0 < cap && 0 < free && Failure(script).None? && queue + Arriving(script) != [] {
      ReapWhole((queue + Arriving(script))[1..], Rest(script), free - 1, cap - 1);
    }
  }

  function Prepend(taken: seq<Packet>, r: Reaped): Reaped {
    r.(got := taken + r.got)
  }

  /** One turn of the loop, as the closed form sees it. */
  lemma ReapTurn(taken: seq<Packet>, queue: seq<Packet>, script: seq<Turn>, free: nat, cap: nat)
    requires 0 < cap
    ensures var whole := Prepend(taken, Reap(queue, script, free, cap));
            var q := queue + Arriving(script);
            if free == 0 then whole == Reaped(taken, queue, script, NoSlab)
            else match Failure(script)
              case Some(code) => whole == Reaped(taken, q, Rest(script), IoFailed(code))
              case None =>
                if q == [] then whole == Reaped(taken, q, Rest(script), Drained)
                else whole == Prepend(taken + [q[0]], Reap(q[1..], Rest(script), free - 1, cap - 1))
  {
    var q := queue + Arriving(script);
    assert taken + [] == taken;
    if free > 0 && Failure(script).None? && q != [] {
      var r := Reap(q[1..], Rest(script), free - 1, cap - 1);
      assert taken + ([q[0]] + r.got) == taken + [q[0]] + r.got;
    }
  }

  lemma NothingMoreAtCap(taken: seq<Packet>, queue: seq<Packet>, script: seq<Turn>, free: nat)
    ensures Prepend(taken, Reap(queue, script, free, 0)) == Reaped(taken, queue, script, CapReached)
  {
    assert taken + [] == taken;
  }

  lemma TotalLenOfNone(n: nat)
    ensures TotalLen([], n) == 0
  {
  }

  lemma TotalLenOneMore(ps: seq<Packet>, p: Packet, n: nat)
    ensures TotalLen(ps + [p], n) == TotalLen(ps, n) + Min(|p.bytes|, n)
  {
    assert (ps + [p])[..|ps|] == ps;
  }

  /** The value the call returns. */
  function BurstResult(r: Reaped, capacity: nat): Result<nat> {
    match r.exit
    case IoFailed(code) => Err(Io(Other(code)))
    case NoSlab => if r.got == [] then Err(PoolExhausted(capacity, capacity)) else Ok(|r.got|)
    case _ => Ok(|r.got|)
  }

  datatype UdpFrame = UdpFrame(slab: VecSlab, peer: Addr)

  function TotalLen(ps: seq<Packet>, n: nat): nat {
    if ps == [] then 0 else TotalLen(ps[..|ps| - 1], n) + Min(|ps[|ps| - 1].bytes|, n)
  }

  function Slots(frames: seq<UdpFrame>): set<u32> {
    set f | f in frames :: f.slab.index
  }

  /** Everything a burst reads or changes, as one value. */
  datatype World = World(
    queue: seq<Packet>, script: seq<Turn>,
    free: seq<u32>, held: set<u32>, memory: seq<seq<Byte>>,
    frames: seq<UdpFrame>, lastPeer: Option<Addr>)
  {
    /** The packets in the kernel when the next receive call looks. */
    function Pending(): seq<Packet> {
      queue + Arriving(script)
    }

    /** What a frame lets its holder see. */
    function View(f: UdpFrame): Datagram
      requires f.slab.index as int < |memory|
    {
      Datagram(Cut(memory[f.slab.index as int], f.slab.len), f.peer)
    }
  }

  datatype Step = NoFreeSlab | Pushed(len: nat) | Empty | RecvFailed(code: int)

  /** No held slot is written. */
  predicate HeldKept(w: World, w': World) {
    && |w'.memory| == |w.memory|
    && forall i | i in w.held && i as int < |w.memory| :: w'.memory[i as int] == w.memory[i as int]
  }

  /** One turn of the reap loop. Unless it pushes a frame, the slab it took is free again. */
  predicate Turned(w: World, step: Step, w': World, slabSize: nat) {
    && HeldKept(w, w')
    && if w.free == [] then step == NoFreeSlab && w' == w
       else match Failure(w.script)
         case Some(code) =>
           step == RecvFailed(code)
           && w' == w.(queue := w.Pending(), script := Rest(w.script), memory := w'.memory)
         case None =>
           if w.Pending() == [] then step == Empty && w' == w.(script := Rest(w.script))
           else
             var p, i := w.Pending()[0], w.free[|w.free| - 1];
             var f := UdpFrame(VecSlab(i, Min(|p.bytes|, slabSize)), Resolve(p.from));
             && step == Pushed(Min(|p.bytes|, slabSize))
             && i !in w.held && i as int < |w'.memory|
             && w' == World(w.Pending()[1..], Rest(w.script), w.free[..|w.free| - 1], w.held + {i}, w'.memory,
                            w.frames + [f], Some(f.peer))
             && w'.View(f) == Landed(p, slabSize)
  }

  lemma TurnedEmptyHanded(w: World, slabSize: nat)
    requires w.free == []
    ensures Turned(w, NoFreeSlab, w, slabSize)
  {
  }

  /** Nothing but slot `i` was written. */
  predicate OnlySlot(w: World, w': World, i: u32) {
    && |w'.memory| == |w.memory| && i as int < |w.memory| && i !in w.held
    && forall k | 0 <= k < |w.memory| && k != i as int :: w'.memory[k] == w.memory[k]
  }

  lemma TurnedPush(w: World, w': World, i: u32, slabSize: nat)
    requires Failure(w.script) == None && w.Pending() != [] && OnlySlot(w, w', i)
    requires w.free == w'.free + [i]
    requires var p := w.Pending()[0];
             var f := UdpFrame(VecSlab(i, Min(|p.bytes|, slabSize)), Resolve(p.from));
             && w' == World(w.Pending()[1..], Rest(w.script), w'.free, w.held + {i}, w'.memory,
                            w.frames + [f], Some(f.peer))
             && Cut(w'.memory[i as int], Min(|p.bytes|, slabSize)) == Cut(p.bytes, slabSize)
    ensures Turned(w, Pushed(Min(|w.Pending()[0].bytes|, slabSize)), w', slabSize)
  {
    hide Cut;
  }

  lemma TurnedBack(w: World, step: Step, w': World, i: u32, slabSize: nat)
    requires w.free != [] && OnlySlot(w, w', i)
    requires w' == w.(queue := w.Pending(), script := Rest(w.script), memory := w'.memory)
    requires match Failure(w.script)
             case Some(code) => step == RecvFailed(code)
             case None => step == Empty && w.Pending() == [] && w'.memory == w.memory
    ensures Turned(w, step, w', slabSize)
  {
  }

  /** From `w0` to `w` exactly the packets `got` were delivered, each in its own frame of
      `pushed`; those frames took their slots off the top of the free list and hold
      exactly the slots newly held; the last peer follows them; and no slot held before
      has changed. */
  predicate Delivered(w0: World, w: World, pushed: seq<UdpFrame>, got: seq<Packet>, slabSize: nat) {
    && w.frames == w0.frames + pushed
    && |pushed| == |got| <= |w0.free|
    && w.free == w0.free[..|w0.free| - |got|]
    && (forall k | 0 <= k < |pushed| ::
          && pushed[k].slab.index == w0.free[|w0.free| - 1 - k]
          && pushed[k].slab.index as int < |w.memory|
          && w.View(pushed[k]) == Landed(got[k], slabSize))
    && w.held == w0.held + Slots(pushed)
    && w0.held !! Slots(pushed)
    && w.lastPeer == (if got == [] then w0.lastPeer else Some(Resolve(got[|got| - 1].from)))
    && HeldKept(w0, w)
  }

  lemma DeliveredNothing(w: World, slabSize: nat)
    ensures Delivered(w, w, [], [], slabSize)
  {
    assert w.free[..|w.free|] == w.free;
  }

  /** What a turn means for the loop. */
  predicate Closing(w: World, step: Step, w': World) {
    match step
    case NoFreeSlab => |w.free| == 0 && w'.queue == w.queue && w'.script == w.script
    case Pushed(_) =>
      && |w.free| > 0 && Failure(w.script) == None && w.Pending() != []
      && w'.queue == w.Pending()[1..] && w'.script == Rest(w.script) && |w'.free| == |w.free| - 1
    case Empty =>
      && |w.free| > 0 && Failure(w.script) == None && w.Pending() == []
      && w'.queue == w.Pending() && w'.script == Rest(w.script)
    case RecvFailed(code) =>
      && |w.free| > 0 && Failure(w.script) == Some(code)
      && w'.queue == w.Pending() && w'.script == Rest(w.script)
  }

  lemma TurnedEffect(w: World, step: Step, w': World, slabSize: nat)
    requires Turned(w, step, w', slabSize)
    ensures Closing(w, step, w')
    ensures |w'.frames| == |w.frames| + (if step.Pushed? then 1 else 0)
    ensures step.Pushed? ==> step.len == Min(|w.Pending()[0].bytes|, slabSize)
  {
  }

  lemma DeliveredFree(w0: World, w: World, pushed: seq<UdpFrame>, got: seq<Packet>, slabSize: nat)
    requires Delivered(w0, w, pushed, got, slabSize)
    ensures |w.free| + |got| == |w0.free|
  {
  }

  lemma SlotListed(frames: seq<UdpFrame>, k: nat)
    requires k < |frames|
    ensures frames[k].slab.index in Slots(frames)
  {
    assert frames[k] in frames;
  }

  lemma DeliveredTurn(w0: World, w: World, w': World, pushed: seq<UdpFrame>, got: seq<Packet>, step: Step,
      slabSize: nat)
    requires Delivered(w0, w, pushed, got, slabSize) && Turned(w, step, w', slabSize) && !step.Pushed?
    ensures Delivered(w0, w', pushed, got, slabSize)
  {
    forall k | 0 <= k < |pushed|
      ensures w'.View(pushed[k]) == w.View(pushed[k])
    {
      SlotListed(pushed, k);
    }
  }

  lemma DeliveredPush(w0: World, w: World, w': World, pushed: seq<UdpFrame>, got: seq<Packet>, step: Step,
      slabSize: nat)
    requires Delivered(w0, w, pushed, got, slabSize) && Turned(w, step, w', slabSize) && step.Pushed?
    ensures Delivered(w0, w', pushed + [w'.frames[|w'.frames| - 1]], got + [w.Pending()[0]], slabSize)
  {
    var f := w'.frames[|w'.frames| - 1];
    forall k | 0 <= k < |pushed|
      ensures w'.View(pushed[k]) == w.View(pushed[k])
    {
      SlotListed(pushed, k);
    }
    assert Slots(pushed + [f]) == Slots(pushed) + {f.slab.index} by {
      assert forall g :: g in pushed + [f] <==> g in pushed || g == f;
    }
    assert w.frames + [f] == w0.frames + (pushed + [f]);
  }

  class UdpTransport {
    const sock: UdpSocket
    const pool: VecPool
    var lastPeer: Option<Addr>
    /** Totals of the gated telemetry call, made once per burst that does not fail. */
    var packetsRecorded: nat
    var bytesRecorded: nat

    constructor (sock: UdpSocket, pool: VecPool)
      ensures this.sock == sock && this.pool == pool && lastPeer == None
      ensures packetsRecorded == 0 && bytesRecorded == 0
    {
      this.sock := sock;
      this.pool := pool;
      this.lastPeer := None;
      this.packetsRecorded := 0;
      this.bytesRecorded := 0;
    }

    ghost function Now(out: FrameBatch<UdpFrame>): (w: World)
      requires pool.Shape()
      reads this`lastPeer, sock, out, pool, pool.memory
      ensures w.queue == sock.queue && w.script == sock.script && w.free == pool.free && w.frames == out.frames
      ensures w.lastPeer == lastPeer
    {
      World(sock.queue, sock.script, pool.free, pool.held, pool.Memory(), out.frames, lastPeer)
    }

    /** One receive call into the slot of `slab`; no other slot is written. */
    method Land(slab: VecSlab) returns (r: RecvOutcome)
      requires pool.Shape() && slab.index as int < |pool.slabs|
      modifies sock, pool.memory
      ensures forall i | 0 <= i < |pool.slabs| && i != slab.index as int :: pool.Memory()[i] == old(pool.Memory()[i])
      ensures sock.script == Rest(old(sock.script))
      ensures var q := old(sock.queue + Arriving(sock.script));
              match Failure(old(sock.script))
              case Some(code) => r == Failed(code) && sock.queue == q
              case None =>
                if q == [] then r == WouldBlock && sock.queue == q && pool.Memory() == old(pool.Memory())
                else
                  && r == Received(Min(|q[0].bytes|, pool.slabSize), q[0].from)
                  && sock.queue == q[1..]
                  && Cut(pool.Memory()[slab.index as int], r.len) == Cut(q[0].bytes, pool.slabSize)
    {
      var buf := pool.BufMut(slab);
      r := sock.RecvFrom(buf);
    }

    /** One turn of the reap loop: acquire a slab, receive into it, and push the frame
        or give the slab back. */
    method ReapOne(out: FrameBatch<UdpFrame>) returns (step: Step)
      requires pool.Valid() && out.Valid() && |out.frames| < out.capacity
      modifies this`lastPeer, sock, out, pool, pool.memory
      ensures pool.Valid() && out.Valid() && out.capacity == old(out.capacity)
      ensures Turned(old(Now(out)), step, Now(out), pool.slabSize)
    {
      hide VecPool.Partition;
      hide VecPool.Memory;
      hide NoDuplicates;
      hide Turned;
      hide Cut;
      ghost var w := Now(out);
      var acquired := pool.Acquire(pool.slabSize);
      if acquired.None? {
        TurnedEmptyHanded(w, pool.slabSize);
        return NoFreeSlab;
      }
      var slab := acquired.value;
      var received := Land(slab);
      match received {
        case Received(len, from) =>
          slab := slab.SetLen(len);
          var peer := Resolve(from);
          lastPeer := Some(peer);
          out.Push(UdpFrame(slab, peer));
          step := Pushed(len);
          TurnedPush(w, Now(out), slab.index, pool.slabSize);
        case WouldBlock =>
          pool.Drop(slab);
          step := Empty;
          TurnedBack(w, step, Now(out), slab.index, pool.slabSize);
        case Failed(code) =>
          pool.Drop(slab);
          step := RecvFailed(code);
          TurnedBack(w, step, Now(out), slab.index, pool.slabSize);
      }
    }

    /** One turn, seen from the burst's start `w0`: the delivery grows by this turn's packet. */
    method ReapNext(out: FrameBatch<UdpFrame>, ghost w0: World, ghost pushed: seq<UdpFrame>, ghost taken: seq<Packet>)
      returns (step: Step, ghost pushed': seq<UdpFrame>, ghost taken': seq<Packet>)
      requires pool.Valid() && out.Valid() && |out.frames| < out.capacity
      requires Delivered(w0, Now(out), pushed, taken, pool.slabSize)
      modifies this`lastPeer, sock, out, pool, pool.memory
      ensures pool.Valid() && out.Valid() && out.capacity == old(out.capacity)
      ensures |out.frames| == old(|out.frames|) + (if step.Pushed? then 1 else 0)
      ensures Delivered(w0, Now(out), pushed', taken', pool.slabSize)
      ensures Closing(old(Now(out)), step, Now(out))
      ensures step.Pushed? ==>
                && taken' == taken + [old(Now(out)).Pending()[0]]
                && step.len == Min(|old(Now(out)).Pending()[0].bytes|, pool.slabSize)
      ensures !step.Pushed? ==> taken' == taken
    {
      hide VecPool.Partition;
      hide VecPool.Shape;
      hide NoDuplicates;
      hide Delivered;
      hide Turned;
      hide Now;
      ghost var w := Now(out);
      step := ReapOne(out);
      TurnedEffect(w, step, Now(out), pool.slabSize);
      pushed', taken' := pushed, taken;
      if step.Pushed? {
        DeliveredPush(w0, w, Now(out), pushed, taken, step, pool.slabSize);
        pushed' := pushed + [out.frames[|out.frames| - 1]];
        taken' := taken + [w.Pending()[0]];
      } else {
        DeliveredTurn(w0, w, Now(out), pushed, taken, step, pool.slabSize);
      }
    }

    /** The reap loop, up to whichever exit comes first. */
    method ReapLoop(out: FrameBatch<UdpFrame>, cap: nat)
      returns (n: nat, bytes: nat, exit: Exit, ghost pushed: seq<UdpFrame>)
      requires pool.Valid() && out.Valid() && cap <= out.capacity - |out.frames|
      modifies this`lastPeer, sock, out, pool, pool.memory
      ensures pool.Valid() && out.Valid() && out.capacity == old(out.capacity)
      ensures var r := Reap(old(sock.queue), old(sock.script), old(|pool.free|), cap);
              && r == Reaped(r.got, sock.queue, sock.script, exit)
              && n == |r.got| && bytes == TotalLen(r.got, pool.slabSize)
              && Delivered(old(Now(out)), Now(out), pushed, r.got, pool.slabSize)
    {
      hide VecPool.Partition;
      hide VecPool.Shape;
      hide NoDuplicates;
      hide Delivered;
      hide Reap;
      hide TotalLen;
      hide Now;
      ghost var w0 := Now(out);
      ghost var whole := Reap(sock.queue, sock.script, |pool.free|, cap);
      ghost var taken: seq<Packet> := [];
      n, bytes, exit, pushed := 0, 0, CapReached, [];
      DeliveredNothing(w0, pool.slabSize);
      assert Prepend([], whole) == whole;
      TotalLenOfNone(pool.slabSize);
      while n < cap
        invariant pool.Valid() && out.Valid() && out.capacity == old(out.capacity)
        invariant n == |taken| <= cap <= out.capacity - |out.frames| + n
        invariant Prepend(taken, Reap(sock.queue, sock.script, |pool.free|, cap - n)) == whole
        invariant Delivered(w0, Now(out), pushed, taken, pool.slabSize)
        invariant bytes == TotalLen(taken, pool.slabSize) && exit == CapReached
      {
        ghost var w := Now(out);
        ghost var was := taken;
        ReapTurn(taken, w.queue, w.script, |w.free|, cap - n);
        var step;
        step, pushed, taken := ReapNext(out, w0, pushed, taken);
        match step {
          case Pushed(len) =>
            TotalLenOneMore(was, w.Pending()[0], pool.slabSize);
            bytes := bytes + len;
            n := n + 1;
          case NoFreeSlab =>
            exit := NoSlab;
            return;
          case Empty =>
            exit := Drained;
            return;
          case RecvFailed(code) =>
            exit := IoFailed(code);
            return;
        }
      }
      NothingMoreAtCap(taken, sock.queue, sock.script, |pool.free|);
    }

    lemma ShowsThroughSlab(out: FrameBatch<UdpFrame>, f: UdpFrame)
      requires pool.Shape() && f.slab.index as int < |Now(out).memory|
      ensures f.slab.index as int < |pool.slabs|
      ensures Now(out).View(f) == Datagram(pool.AsRef(f.slab), f.peer)
    {
    }

    /** The burst itself: the loop, then what its exit makes of it. */
    method Burst(out: FrameBatch<UdpFrame>, max: nat) returns (r: Result<nat>, ghost pushed: seq<UdpFrame>)
      requires pool.Valid() && out.Valid()
      modifies this, sock, out, pool, pool.memory
      ensures pool.Valid() && out.Valid() && out.capacity == old(out.capacity)
      ensures var burst := Reap(old(sock.queue), old(sock.script), old(|pool.free|),
                                Min(max, old(out.capacity - |out.frames|)));
              && r == BurstResult(burst, |pool.slabs|) && sock.queue == burst.queue && sock.script == burst.script
              && Delivered(old(Now(out)), Now(out), pushed, burst.got, pool.slabSize)
              && packetsRecorded == old(packetsRecorded) + (if r.Ok? then |burst.got| else 0)
              && bytesRecorded == old(bytesRecorded) + (if r.Ok? then TotalLen(burst.got, pool.slabSize) else 0)
    {
      hide VecPool.Partition;
      hide VecPool.Shape;
      hide NoDuplicates;
      hide Reap;
      hide TotalLen;
      hide Now;
      hide Delivered;
      ghost var burst := Reap(sock.queue, sock.script, |pool.free|, Min(max, out.capacity - |out.frames|));
      var spare := out.Spare();
      var cap := Min(max, spare);
      ReapWhole(sock.queue, sock.script, |pool.free|, cap);
      var n, bytes, exit;
      n, bytes, exit, pushed := ReapLoop(out, cap);
      DeliveredFree(old(Now(out)), Now(out), pushed, burst.got, pool.slabSize);
      match exit {
        case NoSlab =>
          if n == 0 {
            var inUse := pool.InUse();
            var capacity := pool.Capacity();
            r := Err(PoolExhausted(inUse, capacity));
            return;
          }
        case IoFailed(code) =>
          r := Err(Io(Other(code)));
          return;
        case _ =>
      }
      packetsRecorded := packetsRecorded + n;
      bytesRecorded := bytesRecorded + bytes;
      r := Ok(n);
    }

    /** Reap up to `max` datagrams into `out`: the loop computes its closed form. What that
        comes to: with `n` new frames, the call fails as receive call `n` does, is exhausted
        exactly if it wants a frame and no slab is free, and otherwise returns `n`, which is
        short of the cap only because a receive would block or the slabs ran out. Left alone
        it takes the longest queue prefix allowed, each datagram in its own frame, in order. */
    method RecvBurst(out: FrameBatch<UdpFrame>, max: nat) returns (r: Result<nat>, ghost pushed: seq<UdpFrame>)
      requires pool.Valid() && out.Valid()
      modifies this, sock, out, pool, pool.memory
      ensures pool.Valid() && out.Valid() && out.capacity == old(out.capacity)
      ensures var burst := Reap(old(sock.queue), old(sock.script), old(|pool.free|),
                                Min(max, old(out.capacity - |out.frames|)));
              && r == BurstResult(burst, |pool.slabs|) && sock.queue == burst.queue && sock.script == burst.script
              && Delivered(old(Now(out)), Now(out), pushed, burst.got, pool.slabSize)
              && packetsRecorded == old(packetsRecorded) + (if r.Ok? then |burst.got| else 0)
              && bytesRecorded == old(bytesRecorded) + (if r.Ok? then TotalLen(burst.got, pool.slabSize) else 0)
      ensures out.frames == old(out.frames) + pushed
      ensures forall k | 0 <= k < |pushed| && k < |old(sock.script)| :: old(sock.script)[k].failure == None
      ensures match r
              case Ok(n) =>
                && n == |pushed| <= Min(max, old(out.capacity - |out.frames|))
                && (n < max && n < old(out.capacity - |out.frames|) ==>
                      pool.free == []
                      || (sock.queue == [] && (n < |old(sock.script)| ==> old(sock.script)[n].failure == None)))
              case Err(PoolExhausted(inUse, capacity)) =>
                pushed == [] && inUse == capacity == |pool.slabs|
              case Err(Io(kind)) =>
                && |pushed| < |old(sock.script)| && old(sock.script)[|pushed|].failure.Some?
                && kind == Other(old(sock.script)[|pushed|].failure.value)
      ensures r.Err? && r.error.PoolExhausted? <==>
                max > 0 && old(out.capacity) > old(|out.frames|) && old(pool.free) == []
      ensures (forall t | t in old(sock.script) :: t.arrivals == [] && t.failure == None) ==>
                var m := Min(Min(max, old(out.capacity - |out.frames|)), Min(old(|pool.free|), old(|sock.queue|)));
                && |pushed| == m && sock.queue == old(sock.queue)[m..]
                && pool.free == old(pool.free)[..old(|pool.free|) - m]
                && lastPeer == (if m == 0 then old(lastPeer) else Some(pushed[m - 1].peer))
                && forall k | 0 <= k < m ::
                     var p := old(sock.queue)[k];
                     && pushed[k].peer == (if p.from.Some? then p.from.value else Addr(0, 0))
                     && pushed[k].slab.index as int < |pool.slabs|
                     && pool.AsRef(pushed[k].slab)
                        == (if |p.bytes| <= pool.slabSize then p.bytes else p.bytes[..pool.slabSize])
    {
      hide VecPool.Partition;
      hide VecPool.Shape;
      hide NoDuplicates;
      hide Reap;
      hide TotalLen;
      hide Now;
      hide Delivered;
      hide World.View;
      hide VecPool.AsRef;
      hide BurstResult;
      ghost var cap := Min(max, out.capacity - |out.frames|);
      ghost var burst := Reap(sock.queue, sock.script, |pool.free|, cap);
      BurstSays(sock.queue, sock.script, |pool.free|, cap, |pool.slabs|);
      r, pushed := Burst(out, max);
      DeliveredSays(old(Now(out)), Now(out), pushed, burst.got, pool.slabSize);
      forall k | 0 <= k < |pushed|
        ensures pushed[k].slab.index as int < |pool.slabs|
        ensures pool.AsRef(pushed[k].slab) == Now(out).View(pushed[k]).bytes
      {
        ShowsThroughSlab(out, pushed[k]);
      }
    }
  }

  // ---------------------------------------------------------------- what a burst means

  /** A kernel that adds nothing and fails nothing while the burst runs. */
  predicate Quiet(script: seq<Turn>) {
    forall t | t in script :: t.arrivals == [] && t.failure == None
  }

  lemma ReapEnds(queue: seq<Packet>, script: seq<Turn>, free: nat, cap: nat)
    requires cap == 0 || free == 0 || Failure(script).Some? || queue + Arriving(script) == []
    ensures var r := Reap(queue, script, free, cap);
            if cap == 0 then r == Reaped([], queue, script, CapReached)
            else if free == 0 then r == Reaped([], queue, script, NoSlab)
            else r == Reaped([], queue + Arriving(script), Rest(script),
                             if Failure(script).Some? then IoFailed(Failure(script).value) else Drained)
  {
  }

  lemma ReapTakes(queue: seq<Packet>, script: seq<Turn>, free: nat, cap: nat, head: Packet, tail: seq<Packet>)
    requires 0 < cap && 0 < free && Failure(script) == None && queue + Arriving(script) == [head] + tail
    ensures var r := Reap(tail, Rest(script), free - 1, cap - 1);
            Reap(queue, script, free, cap) == r.(got := [head] + r.got)
  {
    assert (queue + Arriving(script))[1..] == tail;
  }

  /** Left alone, a burst is `PoolExhausted` exactly when it wants a frame and no slab is
      free, whether or not anything is queued; otherwise it takes the longest queue prefix
      that its cap and the free slabs allow, in order. */
  lemma {:induction false} BurstClosedForm(queue: seq<Packet>, script: seq<Turn>, free: nat, cap: nat, capacity: nat)
    requires Quiet(script)
    ensures var r := Reap(queue, script, free, cap);
            var m := Min(cap, Min(free, |queue|));
            && r.got == queue[..m] && r.queue == queue[m..]
            && (r.exit == NoSlab <==> m == free < cap) && !r.exit.IoFailed?
            && BurstResult(r, capacity)
               == if cap > 0 && free == 0 then Err(PoolExhausted(capacity, capacity)) else Ok(m)
    decreases cap
  {
    hide Reap;
    assert queue + Arriving(script) == queue;
    if cap == 0 || free == 0 || queue == [] {
      ReapEnds(queue, script, free, cap);
    } else {
      var head, tail := queue[0], queue[1..];
      assert queue == [head] + tail;
      ReapTakes(queue, script, free, cap, head, tail);
      BurstClosedForm(tail, Rest(script), free - 1, cap - 1, capacity);
    }
  }

  /** The packets that arrived during the first `k` receive calls. */
  function ArrivedIn(script: seq<Turn>, k: nat): seq<Packet>
    decreases k
  {
    if k == 0 then [] else Arriving(script) + ArrivedIn(Rest(script), k - 1)
  }

  /** The receive calls a burst made. */
  function Calls(r: Reaped): nat {
    |r.got| + (if r.exit.Drained? || r.exit.IoFailed? then 1 else 0)
  }

  lemma Regroup<T>(queue: seq<T>, arriving: seq<T>, head: T, tail: seq<T>, got: seq<T>, rest: seq<T>, later: seq<T>)
    requires queue + arriving == [head] + tail && got + rest == tail + later
    ensures [head] + got + rest == queue + (arriving + later)
  {
    assert [head] + got + rest == [head] + (got + rest);
    assert [head] + (tail + later) == [head] + tail + later;
  }

  /** Whatever happens, nothing is lost, duplicated or reordered between kernel and batch:
      the packets taken, then the queue left, are the old queue and the arrivals. Each
      packet cost one receive call, plus one more call for a would-block or an error. */
  lemma {:induction false} BurstConserves(queue: seq<Packet>, script: seq<Turn>, free: nat, cap: nat)
    ensures var r := Reap(queue, script, free, cap);
            r.got + r.queue == queue + ArrivedIn(script, Calls(r))
    decreases cap
  {
    hide Reap;
    var q := queue + Arriving(script);
    if cap == 0 || free == 0 || Failure(script).Some? || q == [] {
      ReapEnds(queue, script, free, cap);
      assert ArrivedIn(script, 1) == Arriving(script) + ArrivedIn(Rest(script), 0) == Arriving(script);
      assert [] + queue == queue + [];
    } else {
      var head, tail := q[0], q[1..];
      var r := Reap(tail, Rest(script), free - 1, cap - 1);
      var later := ArrivedIn(Rest(script), Calls(r));
      assert q == [head] + tail;
      ReapTakes(queue, script, free, cap, head, tail);
      BurstConserves(tail, Rest(script), free - 1, cap - 1);
      Regroup(queue, Arriving(script), head, tail, r.got, r.queue, later);
    }
  }

  function FailureAt(script: seq<Turn>, k: nat): Option<int> {
    if k < |script| then script[k].failure else None
  }

  /** Receive call `k` of a burst finds a packet, if the calls before it each took one. */
  predicate Supplied(queue: seq<Packet>, script: seq<Turn>, k: nat) {
    k < |queue| + |ArrivedIn(script, k + 1)|
  }

  lemma SuppliedLater(queue: seq<Packet>, script: seq<Turn>, head: Packet, tail: seq<Packet>, k: nat)
    requires queue + Arriving(script) == [head] + tail
    ensures Supplied(tail, Rest(script), k) == Supplied(queue, script, k + 1)
    ensures FailureAt(Rest(script), k) == FailureAt(script, k + 1)
    ensures Supplied(queue, script, 0)
  {
    assert ArrivedIn(script, k + 2) == Arriving(script) + ArrivedIn(Rest(script), k + 1);
    assert |queue| + |Arriving(script)| == 1 + |tail|;
    assert ArrivedIn(script, 1) == Arriving(script) + ArrivedIn(Rest(script), 0);
  }

  /** Which exit a burst takes, for every kernel and every script: it takes packets as long
      as cap, free slabs, luck and supply last, and the first of them to run out decides. */
  lemma {:induction false} ExitIff(queue: seq<Packet>, script: seq<Turn>, free: nat, cap: nat)
    ensures var r := Reap(queue, script, free, cap);
            var n := |r.got|;
            && n <= Min(free, cap)
            && (forall k | 0 <= k < n :: FailureAt(script, k) == None && Supplied(queue, script, k))
            && (r.exit == CapReached <==> n == cap)
            && (r.exit == NoSlab <==> n == free < cap)
            && (forall c :: r.exit == IoFailed(c) <==> n < Min(free, cap) && FailureAt(script, n) == Some(c))
            && (r.exit == Drained <==>
                  n < Min(free, cap) && FailureAt(script, n) == None && !Supplied(queue, script, n))
    decreases cap
  {
    hide Reap;
    hide Supplied;
    hide FailureAt;
    ReapWhole(queue, script, free, cap);
    var q := queue + Arriving(script);
    if cap == 0 || free == 0 || Failure(script).Some? || q == [] {
      ReapEnds(queue, script, free, cap);
      FirstSupply(queue, script);
    } else {
      var head, tail := q[0], q[1..];
      assert q == [head] + tail;
      ReapTakes(queue, script, free, cap, head, tail);
      ExitIff(tail, Rest(script), free - 1, cap - 1);
      FirstSupply(queue, script);
      var got := Reap(queue, script, free, cap).got;
      SuppliedLater(queue, script, head, tail, |got| - 1);
      forall k | 0 <= k < |got|
        ensures FailureAt(script, k) == None && Supplied(queue, script, k)
      {
        if k > 0 {
          SuppliedLater(queue, script, head, tail, k - 1);
        }
      }
    }
  }

  lemma FirstSupply(queue: seq<Packet>, script: seq<Turn>)
    ensures Supplied(queue, script, 0) <==> queue + Arriving(script) != []
    ensures FailureAt(script, 0) == Failure(script)
  {
    assert ArrivedIn(script, 1) == Arriving(script) + ArrivedIn(Rest(script), 0);
  }

  /** A burst reports an I/O error exactly when, within cap and free slabs, some receive
      call `k` fails and every call before it had a packet and did not fail. Then the first
      `k` packets to come are delivered and kept, and the call reports only the error. */
  lemma ErrorKeepsEarlierFrames(queue: seq<Packet>, script: seq<Turn>, free: nat, cap: nat, capacity: nat)
    ensures var r := Reap(queue, script, free, cap);
            && (r.exit.IoFailed? <==> exists k: nat :: FailsAt(queue, script, free, cap, k))
            && forall k: nat | FailsAt(queue, script, free, cap, k) ::
                 && |r.got| == k && r.got <= queue + ArrivedIn(script, Calls(r))
                 && BurstResult(r, capacity) == Err(Io(Other(script[k].failure.value)))
  {
    hide Reap;
    ExitIff(queue, script, free, cap);
    BurstConserves(queue, script, free, cap);
    var r := Reap(queue, script, free, cap);
    var n := |r.got|;
    forall k: nat | FailsAt(queue, script, free, cap, k)
      ensures k == n
    {
    }
    if r.exit.IoFailed? {
      assert r.exit == IoFailed(r.exit.code);
      assert FailsAt(queue, script, free, cap, n);
    }
  }

  predicate FailsAt(queue: seq<Packet>, script: seq<Turn>, free: nat, cap: nat, k: nat) {
    && k < Min(free, cap) && FailureAt(script, k).Some?
    && forall i | 0 <= i < k :: FailureAt(script, i) == None && Supplied(queue, script, i)
  }

  /** The same for every script, in terms of what the caller can see. */
  lemma BurstSays(queue: seq<Packet>, script: seq<Turn>, free: nat, cap: nat, capacity: nat)
    ensures var burst := Reap(queue, script, free, cap);
            var n := |burst.got|;
            && (forall k | 0 <= k < n && k < |script| :: script[k].failure == None)
            && (match BurstResult(burst, capacity)
                case Ok(m) =>
                  && m == n <= cap
                  && (n < cap ==>
                        n == free || (burst.queue == [] && (n < |script| ==> script[n].failure == None)))
                case Err(PoolExhausted(inUse, slabs)) =>
                  n == 0 && inUse == slabs == capacity && cap > 0 && free == 0
                case Err(Io(kind)) =>
                  n < |script| && script[n].failure.Some? && kind == Other(script[n].failure.value))
            && (cap > 0 && free == 0 ==> BurstResult(burst, capacity) == Err(PoolExhausted(capacity, capacity)))
    ensures Quiet(script) ==>
              var burst, m := Reap(queue, script, free, cap), Min(cap, Min(free, |queue|));
              burst.got == queue[..m] && burst.queue == queue[m..]
  {
    hide Reap;
    var burst := Reap(queue, script, free, cap);
    ReapWhole(queue, script, free, cap);
    ExitIff(queue, script, free, cap);
    if Quiet(script) {
      BurstClosedForm(queue, script, free, cap, capacity);
    }
    forall k | 0 <= k < |burst.got| && k < |script|
      ensures script[k].failure == None
    {
      assert FailureAt(script, k) == None;
    }
    match burst.exit {
      case IoFailed(code) =>
        assert burst.exit == IoFailed(code);
        assert FailureAt(script, |burst.got|) == Some(code);
      case _ =>
    }
  }

  /** What a delivery looks like from outside, datagram by datagram. */
  lemma DeliveredSays(w0: World, w: World, pushed: seq<UdpFrame>, got: seq<Packet>, slabSize: nat)
    requires Delivered(w0, w, pushed, got, slabSize)
    ensures w.frames == w0.frames + pushed && |pushed| == |got|
    ensures |w.free| + |got| == |w0.free| && w.free == w0.free[..|w0.free| - |got|]
    ensures w.lastPeer == (if pushed == [] then w0.lastPeer else Some(pushed[|pushed| - 1].peer))
    ensures forall k | 0 <= k < |pushed| ::
              && pushed[k].peer == (if got[k].from.Some? then got[k].from.value else Addr(0, 0))
              && pushed[k].slab.index as int < |w.memory|
              && w.View(pushed[k]).bytes
                 == (if |got[k].bytes| <= slabSize then got[k].bytes else got[k].bytes[..slabSize])
  {
    forall k | 0 <= k < |pushed|
      ensures w.View(pushed[k]) == Landed(got[k], slabSize)
    {
    }
  }

  /** The new frames of a burst never share a slot. */
  lemma NewFramesAreDistinct(w0: World, w: World, pushed: seq<UdpFrame>, got: seq<Packet>, slabSize: nat)
    requires Delivered(w0, w, pushed, got, slabSize) && NoDuplicates(w0.free)
    ensures forall i, j | 0 <= i < j < |pushed| :: pushed[i].slab.index != pushed[j].slab.index
    ensures |w.free| + |pushed| == |w0.free|
  {
    forall i, j | 0 <= i < j < |pushed|
      ensures pushed[i].slab.index != pushed[j].slab.index
    {
      var n := |w0.free|;
      assert w0.free[n - 1 - j] != w0.free[n - 1 - i];
    }
  }

  ghost predicate IsBurst(w: World, w': World, slabSize: nat) {
    exists pushed, got :: Delivered(w, w', pushed, got, slabSize)
  }

  /** While `slot` stays held: a burst, or anything that leaves that one slot alone. */
  ghost predicate Follows(w: World, w': World, slot: u32, slabSize: nat) {
    && slot in w.held && slot in w'.held && slot as int < |w.memory| == |w'.memory|
    && (IsBurst(w, w', slabSize) || w'.memory[slot as int] == w.memory[slot as int])
  }

  lemma FollowsKeeps(w: World, w': World, slot: u32, slabSize: nat)
    requires Follows(w, w', slot, slabSize)
    ensures w'.memory[slot as int] == w.memory[slot as int]
  {
    if IsBurst(w, w', slabSize) {
      var pushed, got :| Delivered(w, w', pushed, got, slabSize);
    }
  }

  /** A frame shows its own packet, whoever had the slot before it, and goes on doing so
      through any number of later bursts and of other uses of the pool for as long as it
      holds its slot. */
  lemma {:induction false} FrameKeepsItsPacket(
      w0: World, ws: seq<World>, pushed: seq<UdpFrame>, got: seq<Packet>, slabSize: nat, k: nat, n: nat)
    requires ws != [] && Delivered(w0, ws[0], pushed, got, slabSize) && k < |pushed| && n < |ws|
    requires forall m | 0 <= m < |ws| - 1 :: Follows(ws[m], ws[m + 1], pushed[k].slab.index, slabSize)
    ensures pushed[k].slab.index as int < |ws[n].memory| && ws[n].View(pushed[k]) == Landed(got[k], slabSize)
  {
    var slot := pushed[k].slab.index;
    if n > 0 {
      FrameKeepsItsPacket(w0, ws, pushed, got, slabSize, k, n - 1);
      assert Follows(ws[n - 1], ws[n], slot, slabSize);
      FollowsKeeps(ws[n - 1], ws[n], slot, slabSize);
    }
  }

  /** No later burst gives a slot away that is still held. */
  lemma HeldSlotIsNotReused(w: World, w': World, slot: u32, later: seq<UdpFrame>, got: seq<Packet>, slabSize: nat)
    requires slot in w.held && Delivered(w, w', later, got, slabSize)
    ensures slot in w'.held && forall f | f in later :: f.slab.index != slot
  {
    forall f | f in later
      ensures f.slab.index != slot
    {
      assert f.slab.index in Slots(later);
    }
  }

  // ---------------------------------------------------------------- draining

  function SlotSeq(frames: seq<UdpFrame>): seq<u32> {
    seq(|frames|, i requires 0 <= i < |frames| => frames[i].slab.index)
  }

  lemma SlotsApart(before: seq<UdpFrame>, f: UdpFrame, after: seq<UdpFrame>)
    requires NoDuplicates(SlotSeq(before + [f] + after))
    ensures forall g | g in before || g in after :: g.slab.index != f.slab.index
  {
    var all := before + [f] + after;
    forall k | 0 <= k < |all| && k != |before|
      ensures all[k].slab.index != f.slab.index
    {
      assert SlotSeq(all)[k] != SlotSeq(all)[|before|];
    }
    assert forall k | 0 <= k < |before| :: before[k] == all[k];
    assert forall k | 0 <= k < |after| :: after[k] == all[|before| + 1 + k];
  }

  /** Dropping a drain iterator drops the frames it has not yielded, in order. */
  method Abandon(pool: VecPool, iter: DrainIter<UdpFrame>) returns (ghost dropped: seq<UdpFrame>)
    requires pool.Valid() && NoDuplicates(SlotSeq(iter.rest))
    requires forall f | f in iter.rest :: f.slab.index in pool.held
    modifies pool, iter
    ensures pool.Valid() && dropped == old(iter.rest)
    ensures pool.free == old(pool.free) + SlotSeq(dropped) && |pool.held| == old(|pool.held|) - |dropped|
    ensures pool.held == old(pool.held) - Slots(dropped)
  {
    hide VecPool.Partition;
    hide VecPool.Shape;
    hide NoDuplicates;
    hide Slots;
    ghost var frames := iter.rest;
    dropped := [];
    NoSlots();
    while |iter.rest| > 0
      invariant frames == dropped + iter.rest
      invariant pool.Valid()
      invariant pool.free == old(pool.free) + SlotSeq(dropped) && |pool.held| == old(|pool.held|) - |dropped|
      invariant pool.held == old(pool.held) - Slots(dropped)
      invariant forall f | f in iter.rest :: f.slab.index in pool.held
    {
      var next := iter.Next();
      var f := next.value;
      assert frames == dropped + [f] + iter.rest;
      SlotsApart(dropped, f, iter.rest);
      pool.Drop(f.slab);
      OneMoreSlot(dropped, f);
      dropped := dropped + [f];
    }
  }

  lemma NoSlots()
    ensures Slots([]) == {}
  {
  }

  lemma OneMoreSlot(frames: seq<UdpFrame>, f: UdpFrame)
    ensures SlotSeq(frames + [f]) == SlotSeq(frames) + [f.slab.index]
    ensures Slots(frames + [f]) == Slots(frames) + {f.slab.index}
  {
    assert forall g :: g in frames + [f] <==> g in frames || g == f;
  }

  lemma SplitApart(taken: seq<UdpFrame>, rest: seq<UdpFrame>)
    requires NoDuplicates(SlotSeq(taken + rest))
    ensures NoDuplicates(SlotSeq(rest))
    ensures forall f | f in taken :: f.slab.index !in Slots(rest)
  {
    var all := taken + rest;
    forall i, j | 0 <= i < j < |rest|
      ensures SlotSeq(rest)[i] != SlotSeq(rest)[j]
    {
      assert SlotSeq(all)[|taken| + i] != SlotSeq(all)[|taken| + j];
    }
    forall f | f in taken
      ensures f.slab.index !in Slots(rest)
    {
      var i :| 0 <= i < |taken| && taken[i] == f;
      forall g | g in rest
        ensures g.slab.index != f.slab.index
      {
        var j :| 0 <= j < |rest| && rest[j] == g;
        assert SlotSeq(all)[i] != SlotSeq(all)[|taken| + j];
      }
    }
  }

  /** Take `k` frames from a drain and drop the iterator: the batch is empty, its backing
      allocation is kept, and exactly the frames not taken give their slots back. */
  method TakeThenAbandon(pool: VecPool, out: FrameBatch<UdpFrame>, k: nat)
    returns (taken: seq<UdpFrame>, ghost dropped: seq<UdpFrame>)
    requires pool.Valid() && out.Valid() && k <= |out.frames|
    requires forall f | f in out.frames :: f.slab.index in pool.held
    requires NoDuplicates(SlotSeq(out.frames))
    modifies pool, out`frames
    ensures pool.Valid() && out.Valid() && out.frames == [] && out.capacity == old(out.capacity)
    ensures old(out.frames) == taken + dropped && |taken| == k
    ensures pool.free == old(pool.free) + SlotSeq(dropped) && |pool.held| == old(|pool.held|) - |dropped|
    ensures forall f | f in taken :: f.slab.index in pool.held
  {
    hide VecPool.Partition;
    hide VecPool.Shape;
    hide NoDuplicates;
    hide Slots;
    ghost var frames := out.frames;
    var iter := out.Drain();
    taken := [];
    while |taken| < k
      modifies iter
      invariant |taken| <= k && frames == taken + iter.rest
    {
      var next := iter.Next();
      taken := taken + [next.value];
    }
    SplitApart(taken, iter.rest);
    assert forall f | f in taken || f in iter.rest :: f in frames;
    dropped := Abandon(pool, iter);
  }
}
