/** The kernel side of a mio transport: a receive queue, a FIN flag, and the edges its
    `Poll` has not yet reported; and the readiness call as an interleaved step system.
    The datagram and the stream path share it: `T` is a datagram or a byte. */
module MioPoll {
  import opened Core

  datatype Kernel<T> = Kernel(rx: seq<T>, fin: bool, readEdge: bool, writeEdge: bool)

  /** What the environment does between two system calls. `extraEdge` allows the kernel to
      raise edges it does not owe; `recheck` is whether the next poll discards a pending
      read edge on a socket that is not readable any more (epoll does, others may not);
      `fails` is the error the call reports, if it fails. */
  datatype Turn<T> = Turn(
    arrivals: seq<T>, fin: bool, writable: bool, extraEdge: bool, recheck: bool, fails: Option<int>)

  /** Data or end of stream: a receive call would not block. */
  predicate Readable<T>(k: Kernel<T>) {
    |k.rx| > 0 || k.fin
  }

  /** The only edge rule assumed: becoming readable raises the read edge. Nothing arrives
      after FIN, and pending edges stay until a poll takes them. */
  function Advance<T>(k: Kernel<T>, t: Turn<T>): Kernel<T> {
    var rx := if k.fin then k.rx else k.rx + t.arrivals;
    var k' := Kernel(rx, k.fin || t.fin, k.readEdge, k.writeEdge || t.writable);
    k'.(readEdge := k.readEdge || t.extraEdge || (!Readable(k) && Readable(k')))
  }

  datatype Events = Events(readable: bool, writable: bool)

  /** What a poll reports from here, and that it takes every pending edge. */
  function Reported<T>(k: Kernel<T>, recheck: bool): Events {
    Events(k.readEdge && (Readable(k) || !recheck), k.writeEdge)
  }

  function Taken<T>(k: Kernel<T>): Kernel<T> {
    k.(readEdge := false, writeEdge := false)
  }

  /** A receive takes a prefix, or nothing. */
  function Consume<T>(k: Kernel<T>, n: nat): Kernel<T> {
    k.(rx := k.rx[Min(n, |k.rx|)..])
  }

  // ---------------------------------------------------------------- the step system

  /** The owner holds the transport exclusively, so it is between calls or inside one. */
  datatype Pc = Idle | Connecting | Sending | Parked

  datatype State<T> = State(k: Kernel<T>, pc: Pc)

  datatype Event<T> =
    | Env(turn: Turn<T>)
    | Receive(n: nat)                  // any bounded or would-block drain, and `PoolExhausted`, which takes none
    | ConnectPoll(recheck: bool)       // `wait_connect` polls, and discards what is not writable
    | Connected
    | SendStart
    | SendPoll(recheck: bool)          // `send` polls after a would-block, and discards everything
    | SendDone
    | ReadyProbe                       // `ready` peeks; it returns at once or parks
    | ReadyProbeFails
    | ReadyPoll(recheck: bool)         // the parked poll reports something
    | ReadyPollFails

  predicate OwnerStep<T>(e: Event<T>) {
    !e.Env?
  }

  predicate Enabled<T>(s: State<T>, e: Event<T>) {
    match e
    case Env(_) => true
    case Receive(_) => s.pc.Idle?
    case ConnectPoll(_) => s.pc.Connecting?
    case Connected => s.pc.Connecting?
    case SendStart => s.pc.Idle?
    case SendPoll(_) => s.pc.Sending?
    case SendDone => s.pc.Sending?
    case ReadyProbe => s.pc.Idle?
    case ReadyProbeFails => s.pc.Idle?
    case ReadyPoll(recheck) => s.pc.Parked? && (s.k.readEdge || s.k.writeEdge)
    case ReadyPollFails => s.pc.Parked?
  }

  function Next<T>(s: State<T>, e: Event<T>): State<T>
    requires Enabled(s, e)
  {
    match e
    case Env(turn) => s.(k := Advance(s.k, turn))
    case Receive(n) => s.(k := Consume(s.k, n))
    case ConnectPoll(_) => s.(k := Taken(s.k))
    case Connected => s.(pc := Idle)
    case SendStart => s.(pc := Sending)
    case SendPoll(_) => s.(k := Taken(s.k))
    case SendDone => s.(pc := Idle)
    case ReadyProbe => if Readable(s.k) then s else s.(pc := Parked)
    case ReadyProbeFails => s
    case ReadyPoll(recheck) =>
      State(Taken(s.k), if Reported(s.k, recheck).readable then Idle else Parked)
    case ReadyPollFails => s.(pc := Idle)
  }

  function Init<T>(k: Kernel<T>): State<T> {
    State(k, Connecting)
  }

  ghost predicate IsRun<T>(ss: seq<State<T>>, es: seq<Event<T>>) {
    && |ss| == |es| + 1
    && ss[0].pc.Connecting?
    && forall i | 0 <= i < |es| :: Enabled(ss[i], es[i]) && ss[i + 1] == Next(ss[i], es[i])
  }

  /** No lost wakeup: in every state of every run, from any kernel state, a thread parked
      in `ready` on a readable socket has an edge waiting for it. */
  lemma {:induction false} NoLostWakeup<T>(ss: seq<State<T>>, es: seq<Event<T>>, i: nat)
    requires IsRun(ss, es) && i < |ss|
    ensures ss[i].pc.Parked? && Readable(ss[i].k) ==> ss[i].k.readEdge
  {
    if i > 0 {
      NoLostWakeup(ss, es, i - 1);
    }
  }

  /** So it wakes: parked on a readable socket, whatever the environment does next, the
      owner's poll stays available, and unless it errs the owner's next step returns. */
  lemma {:induction false} ParkedReturns<T>(ss: seq<State<T>>, es: seq<Event<T>>, i: nat, j: nat)
    requires IsRun(ss, es) && i <= j < |ss|
    requires ss[i].pc.Parked? && Readable(ss[i].k)
    requires forall m | i <= m < j :: !OwnerStep(es[m])
    ensures ss[j].pc.Parked? && Readable(ss[j].k)
    ensures forall recheck :: Enabled(ss[j], ReadyPoll(recheck))
                              && Next(ss[j], ReadyPoll(recheck)).pc.Idle?
    ensures j < |es| && OwnerStep(es[j]) ==> ss[j + 1].pc.Idle?
    decreases j
  {
    NoLostWakeup(ss, es, j);
    if i < j {
      ParkedReturns(ss, es, i, j - 1);
    }
  }

  /** Where a stretch of events leads, if each can happen when it is its turn. */
  function RunFrom<T>(s: State<T>, es: seq<Event<T>>): Option<State<T>>
    decreases |es|
  {
    if es == [] then Some(s)
    else if Enabled(s, es[0]) then RunFrom(Next(s, es[0]), es[1..])
    else None
  }

  /** The states along such a stretch, begun at the connect wait, are a run. */
  lemma RunFromIsRun<T>(s: State<T>, es: seq<Event<T>>) returns (ss: seq<State<T>>)
    requires s.pc.Connecting? && RunFrom(s, es).Some?
    ensures IsRun(ss, es) && ss[0] == s && RunFrom(s, es) == Some(ss[|es|])
  {
    ss := Along(s, es);
  }

  lemma {:induction false} Along<T>(s: State<T>, es: seq<Event<T>>) returns (ss: seq<State<T>>)
    requires RunFrom(s, es).Some?
    ensures |ss| == |es| + 1 && ss[0] == s && RunFrom(s, es) == Some(ss[|es|])
    ensures forall i | 0 <= i < |es| :: Enabled(ss[i], es[i]) && ss[i + 1] == Next(ss[i], es[i])
    decreases |es|
  {
    if es == [] {
      ss := [s];
    } else {
      var later := Along(Next(s, es[0]), es[1..]);
      ss := [s] + later;
      hide Enabled;
      hide Next;
      forall i | 0 <= i < |es|
        ensures Enabled(ss[i], es[i]) && ss[i + 1] == Next(ss[i], es[i])
      {
        if i > 0 {
          assert ss[i] == later[i - 1] && es[i] == es[1..][i - 1] && ss[i + 1] == later[i];
        }
      }
    }
  }

  // ---------------------------------------------------------------- why the probe is needed

  /** `ready` as it would be without the probe: park at once. */
  function ParkAtOnce<T>(k: Kernel<T>): State<T> {
    State(k, Parked)
  }

  /** A partial drain after one wake, or edges swallowed by `send` or `wait_connect`, leave
      data queued with no edge. From such a state the probeless call parks with nothing to
      wake it, although the socket is readable. */
  lemma ProbelessCallIsLost<T>(a: T, b: T)
    ensures exists ss: seq<State<T>>, es: seq<Event<T>> ::
              && IsRun(ss, es)
              && var last := ss[|ss| - 1];
                 last.pc.Idle? && Readable(last.k)
                 && !Enabled(ParkAtOnce(last.k), ReadyPoll(true)) && !Enabled(ParkAtOnce(last.k), ReadyPoll(false))
  {
    var k0: Kernel<T> := Kernel([], false, false, false);
    var e1 := Env(Turn([a, b], false, true, false, true, None));
    var es: seq<Event<T>> := [e1, ConnectPoll(true), Connected, Receive(1)];
    var s0 := State(k0, Connecting);
    var s1 := Next(s0, e1);
    var s2 := Next(s1, ConnectPoll(true));
    var s3 := Next(s2, Connected);
    var s4 := Next(s3, Receive(1));
    var ss := [s0, s1, s2, s3, s4];
    assert s4.k.rx == [b];
    assert IsRun(ss, es);
    assert ss[|ss| - 1] == s4;
  }

  /** The environment's effect over a quiet or busy stretch while the owner is parked. */
  function AdvanceAll<T>(k: Kernel<T>, turns: seq<Turn<T>>): Kernel<T>
    decreases |turns|
  {
    if turns == [] then k else AdvanceAll(Advance(k, turns[0]), turns[1..])
  }

  /** Exactly when parking is unsafe: a parked owner can be left readable with no edge by
      some environment if and only if it parked on a readable socket with no edge. */
  lemma ParkIsUnsafeIff<T>(k: Kernel<T>)
    ensures (exists turns: seq<Turn<T>> ::
               Readable(AdvanceAll(k, turns)) && !AdvanceAll(k, turns).readEdge)
       <==> Readable(k) && !k.readEdge
  {
    if Readable(k) && !k.readEdge {
      assert AdvanceAll(k, []) == k;
    }
    forall turns: seq<Turn<T>> | !Readable(k) || k.readEdge
      ensures !Readable(AdvanceAll(k, turns)) || AdvanceAll(k, turns).readEdge
    {
      SafeStaysSafe(k, turns);
    }
  }

  lemma {:induction false} SafeStaysSafe<T>(k: Kernel<T>, turns: seq<Turn<T>>)
    requires !Readable(k) || k.readEdge
    ensures !Readable(AdvanceAll(k, turns)) || AdvanceAll(k, turns).readEdge
    decreases |turns|
  {
    if turns != [] {
      SafeStaysSafe(Advance(k, turns[0]), turns[1..]);
    }
  }

  // ---------------------------------------------------------------- wakes that are not

  /** Data or FIN comes in. */
  predicate Comes<T>(e: Event<T>) {
    e.Env? && (e.turn.arrivals != [] || e.turn.fin)
  }

  /** The call that probed in step `i` is parked from then up to state `j`, and every edge
      raised meanwhile is owed. */
  ghost predicate ParkedSince<T>(ss: seq<State<T>>, es: seq<Event<T>>, i: nat, j: nat) {
    && IsRun(ss, es) && i < j < |ss| && es[i].ReadyProbe?
    && (forall k | i < k <= j :: ss[k].pc.Parked?)
    && forall m | i < m < j && es[m].Env? :: !es[m].turn.extraEdge
  }

  /** While parked: the socket is readable exactly if something came, and the only edge that
      can be stale is one left over from before the call, until a poll takes it. */
  lemma {:induction false} WhileParked<T>(ss: seq<State<T>>, es: seq<Event<T>>, i: nat, j: nat)
    requires ParkedSince(ss, es, i, j)
    ensures Readable(ss[j].k) <==> exists m :: i < m < j && Comes(es[m])
    ensures if exists m :: i < m < j && es[m].ReadyPoll? then ss[j].k.readEdge ==> Readable(ss[j].k)
            else (ss[i].k.readEdge ==> ss[j].k.readEdge)
                 && (ss[j].k.readEdge && !Readable(ss[j].k) ==> ss[i].k.readEdge)
    decreases j
  {
    if i + 1 < j {
      WhileParked(ss, es, i, j - 1);
      var e := es[j - 1];
      assert forall m | i < m < j :: m < j - 1 || es[m] == e;
      assert Comes(e) ==> i < j - 1 < j && Comes(es[j - 1]);
      assert e.ReadyPoll? ==> i < j - 1 < j && es[j - 1].ReadyPoll?;
    }
  }

  /** A parked call returns on a socket that is not readable exactly when an edge was left
      over as it parked, nothing has come since, and its first poll passes that edge on
      without rechecking it. */
  lemma FalseReturnIff<T>(ss: seq<State<T>>, es: seq<Event<T>>, i: nat, j: nat)
    requires ParkedSince(ss, es, i, j) && j < |es| && es[j].ReadyPoll? && ss[j + 1].pc.Idle?
    ensures !Readable(ss[j + 1].k)
       <==> (&& ss[i].k.readEdge && !es[j].recheck
             && forall m | i < m < j :: !Comes(es[m]) && !es[m].ReadyPoll?)
  {
    WhileParked(ss, es, i, j);
  }
}
