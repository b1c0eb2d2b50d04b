/** The mio stream transport as it runs: connect wait, readiness, receive and send loops
    over one socket and one `Poll`, against a scripted environment. Each system call first
    lets the environment take its next turn; when the script is over the environment is
    quiet for good. */
module MioTcp {
  import opened Core
  import opened MioPoll

  function Quiet(): Turn<Byte> {
    Turn([], false, false, false, true, None)
  }

  function Head(script: seq<Turn<Byte>>): Turn<Byte> {
    if script == [] then Quiet() else script[0]
  }

  function Tail(script: seq<Turn<Byte>>): seq<Turn<Byte>> {
    if script == [] then [] else script[1..]
  }

  /** The turn around system call `n`, and what is left of the script after `n` calls. */
  function TurnAt(script: seq<Turn<Byte>>, n: nat): Turn<Byte> {
    if n < |script| then script[n] else Quiet()
  }

  function After(script: seq<Turn<Byte>>, n: nat): seq<Turn<Byte>> {
    script[Min(n, |script|)..]
  }

  lemma OneMoreTurn(script: seq<Turn<Byte>>, n: nat)
    ensures After(script, 0) == script
    ensures Head(After(script, n)) == TurnAt(script, n) && Tail(After(script, n)) == After(script, n + 1)
    ensures After(script, n) == [] <==> n >= |script|
    ensures if n < |script| then |After(script, n + 1)| < |After(script, n)|
            else After(script, n + 1) == [] && TurnAt(script, n) == Quiet()
  {
  }

  // ---------------------------------------------------------------- what the calls compute

  /** `StillParked` is a call that has not returned when the script is over. */
  datatype Outcome = Woken | Failed(code: int) | StillParked

  /** How a wait ends, after how many system calls. */
  datatype Wait = Wait(outcome: Outcome, k: Kernel<Byte>, script: seq<Turn<Byte>>, calls: nat)

  /** The parked loop: poll until a read event is reported. */
  function Park(k: Kernel<Byte>, script: seq<Turn<Byte>>): Wait
    decreases |script|
  {
    var t := Head(script);
    var k' := Advance(k, t);
    if t.fails.Some? then Wait(Failed(t.fails.value), k', Tail(script), 1)
    else if Reported(k', t.recheck).readable then Wait(Woken, Taken(k'), Tail(script), 1)
    else if script == [] then Wait(StillParked, Taken(k'), [], 1)
    else
      var w := Park(Taken(k'), Tail(script));
      w.(calls := 1 + w.calls)
  }

  /** `ready`: probe, then park. */
  function ReadyFrom(k: Kernel<Byte>, script: seq<Turn<Byte>>): Wait {
    var t := Head(script);
    var k' := Advance(k, t);
    if t.fails.Some? then Wait(Failed(t.fails.value), k', Tail(script), 1)
    else if Readable(k') then Wait(Woken, k', Tail(script), 1)
    else
      var w := Park(k', Tail(script));
      w.(calls := 1 + w.calls)
  }

  /** Of a number of system calls over `script`, only the last may fail, and its error, if it
      does, is `failed`. */
  predicate OnlyLastFails(script: seq<Turn<Byte>>, calls: nat, failed: Option<int>) {
    && calls > 0 && TurnAt(script, calls - 1).fails == failed
    && forall m | 0 <= m < calls - 1 :: TurnAt(script, m).fails == None
  }

  function ErrorOf(o: Outcome): Option<int> {
    if o.Failed? then Some(o.code) else None
  }

  lemma OneTurnBefore(script: seq<Turn<Byte>>, calls: nat, failed: Option<int>)
    requires OnlyLastFails(Tail(script), calls, failed) && Head(script).fails == None
    ensures OnlyLastFails(script, calls + 1, failed)
    ensures After(Tail(script), calls) == After(script, calls + 1)
  {
    assert forall m: nat :: TurnAt(Tail(script), m) == TurnAt(script, m + 1);
    forall m | 0 <= m < calls
      ensures TurnAt(script, m).fails == None
    {
      if m > 0 {
        assert TurnAt(Tail(script), m - 1).fails == None;
      }
    }
  }

  lemma {:induction false} ParkFailsIff(k: Kernel<Byte>, script: seq<Turn<Byte>>)
    ensures var w := Park(k, script);
            OnlyLastFails(script, w.calls, ErrorOf(w.outcome)) && w.script == After(script, w.calls)
    decreases |script|
  {
    var t := Head(script);
    var k' := Advance(k, t);
    if t.fails.None? && !Reported(k', t.recheck).readable && script != [] {
      var w := Park(Taken(k'), Tail(script));
      ParkFailsIff(Taken(k'), Tail(script));
      OneTurnBefore(script, w.calls, ErrorOf(w.outcome));
      hide OnlyLastFails;
      hide After;
    }
  }

  lemma ReadyTurns(k: Kernel<Byte>, script: seq<Turn<Byte>>)
    ensures var w := ReadyFrom(k, script);
            OnlyLastFails(script, w.calls, ErrorOf(w.outcome)) && w.script == After(script, w.calls)
  {
    hide Park;
    var t := Head(script);
    var k' := Advance(k, t);
    if t.fails.None? && !Readable(k') {
      var w := Park(k', Tail(script));
      ParkFailsIff(k', Tail(script));
      OneTurnBefore(script, w.calls, ErrorOf(w.outcome));
      hide OnlyLastFails;
      hide After;
    }
  }

  /** A wait fails exactly when one of its system calls, the probe or a poll, fails: that is
      its last call, and the error is the one returned. If the probe does not fail, a
      readable socket needs no poll. */
  lemma ReadyFailsIff(k: Kernel<Byte>, script: seq<Turn<Byte>>)
    ensures var w := ReadyFrom(k, script);
            && w.calls > 0 && w.script == script[Min(w.calls, |script|)..]
            && (forall m | 0 <= m < w.calls - 1 && m < |script| :: script[m].fails == None)
            && (match (if w.calls <= |script| then script[w.calls - 1].fails else None)
                case Some(code) => w.outcome == Failed(code)
                case None => !w.outcome.Failed?)
    ensures var w, now := ReadyFrom(k, script), if script == [] then k else Advance(k, script[0]);
            (script == [] || script[0].fails == None) && (|now.rx| > 0 || now.fin) ==>
              w.outcome == Woken && w.calls == 1 && w.k == now
  {
    ReadyTurns(k, script);
    assert k.rx + [] == k.rx;
    var w := ReadyFrom(k, script);
    forall m | 0 <= m < w.calls - 1 && m < |script|
      ensures script[m].fails == None
    {
      assert TurnAt(script, m) == script[m];
    }
  }

  // ---------------------------------------------------------------- the calls are runs

  /** The events of the step system that the parked loop amounts to; a poll that finds no
      edge is none. */
  function ParkTrace(k: Kernel<Byte>, script: seq<Turn<Byte>>): seq<Event<Byte>>
    decreases |script|
  {
    var t := Head(script);
    var k' := Advance(k, t);
    if t.fails.Some? then [Env(t), ReadyPollFails]
    else
      [Env(t)]
      + (if k'.readEdge || k'.writeEdge then [ReadyPoll(t.recheck)] else [])
      + (if Reported(k', t.recheck).readable || script == [] then [] else ParkTrace(Taken(k'), Tail(script)))
  }

  function ReadyTrace(k: Kernel<Byte>, script: seq<Turn<Byte>>): seq<Event<Byte>> {
    var t := Head(script);
    var k' := Advance(k, t);
    if t.fails.Some? then [Env(t), ReadyProbeFails]
    else [Env(t), ReadyProbe] + (if Readable(k') then [] else ParkTrace(k', Tail(script)))
  }

  function EndsAt(w: Wait): State<Byte> {
    State(w.k, if w.outcome.StillParked? then Parked else Idle)
  }

  lemma OneThen(s: State<Byte>, e: Event<Byte>, es: seq<Event<Byte>>)
    requires Enabled(s, e)
    ensures RunFrom(s, [e] + es) == RunFrom(Next(s, e), es)
  {
    assert ([e] + es)[1..] == es;
  }

  lemma NothingThen(s: State<Byte>)
    ensures RunFrom(s, []) == Some(s)
  {
  }

  lemma JustTwo(s: State<Byte>, e1: Event<Byte>, e2: Event<Byte>)
    requires Enabled(s, e1) && Enabled(Next(s, e1), e2)
    ensures RunFrom(s, [e1, e2]) == Some(Next(Next(s, e1), e2))
  {
    OneThen(s, e1, [e2]);
    OneThen(Next(s, e1), e2, []);
    assert [e1, e2] == [e1] + [e2] && [e2] == [e2] + [];
  }

  /** One loop turn that does not fail: the environment's turn, then the poll if there is
      an edge to report, and then `later`. */
  lemma PollThen(k: Kernel<Byte>, t: Turn<Byte>, later: seq<Event<Byte>>)
    ensures var k' := Advance(k, t);
            RunFrom(State(k, Parked),
                    [Env(t)] + (if k'.readEdge || k'.writeEdge then [ReadyPoll(t.recheck)] else []) + later)
            == RunFrom(State(Taken(k'), if Reported(k', t.recheck).readable then Idle else Parked), later)
  {
    hide RunFrom;
    var k' := Advance(k, t);
    if k'.readEdge || k'.writeEdge {
      OneThen(State(k', Parked), ReadyPoll(t.recheck), later);
      OneThen(State(k, Parked), Env(t), [ReadyPoll(t.recheck)] + later);
      assert [Env(t)] + [ReadyPoll(t.recheck)] + later == [Env(t)] + ([ReadyPoll(t.recheck)] + later);
    } else {
      OneThen(State(k, Parked), Env(t), later);
      assert [Env(t)] + [] + later == [Env(t)] + later;
      assert Taken(k') == k';
    }
  }

  lemma {:induction false} ParkIsRun(k: Kernel<Byte>, script: seq<Turn<Byte>>)
    ensures RunFrom(State(k, Parked), ParkTrace(k, script)) == Some(EndsAt(Park(k, script)))
    decreases |script|
  {
    var t := Head(script);
    var k' := Advance(k, t);
    if t.fails.Some? {
      JustTwo(State(k, Parked), Env(t), ReadyPollFails);
    } else if Reported(k', t.recheck).readable || script == [] {
      PollThen(k, t, []);
    } else {
      PollThen(k, t, ParkTrace(Taken(k'), Tail(script)));
      ParkIsRun(Taken(k'), Tail(script));
    }
  }

  lemma ReadyRuns(k: Kernel<Byte>, script: seq<Turn<Byte>>)
    ensures RunFrom(State(k, Idle), ReadyTrace(k, script)) == Some(EndsAt(ReadyFrom(k, script)))
  {
    var t := Head(script);
    var k' := Advance(k, t);
    if t.fails.Some? {
      JustTwo(State(k, Idle), Env(t), ReadyProbeFails);
    } else {
      var later := if Readable(k') then [] else ParkTrace(k', Tail(script));
      ParkIsRun(k', Tail(script));
      hide RunFrom;
      OneThen(State(k', Idle), ReadyProbe, later);
      OneThen(State(k, Idle), Env(t), [ReadyProbe] + later);
      assert [Env(t), ReadyProbe] + later == [Env(t)] + ([ReadyProbe] + later);
      if Readable(k') {
        NothingThen(State(k', Idle));
      }
    }
  }

  /** From any kernel state a connection can leave, `ready` is a run of the step system of
      `MioPoll`, so what is proved of all runs there holds of it. */
  lemma ReadyIsRun(k: Kernel<Byte>, script: seq<Turn<Byte>>) returns (ss: seq<State<Byte>>)
    ensures var es := [Connected] + ReadyTrace(k, script);
            IsRun(ss, es) && ss[1] == State(k, Idle) && ss[|es|] == EndsAt(ReadyFrom(k, script))
  {
    var s, trace := State(k, Connecting), ReadyTrace(k, script);
    ReadyRuns(k, script);
    OneThen(s, Connected, trace);
    hide RunFrom;
    hide ReadyTrace;
    hide ReadyFrom;
    ss := RunFromIsRun(s, [Connected] + trace);
    assert Next(ss[0], ([Connected] + trace)[0]) == State(k, Idle);
  }

  /** No lost wakeup, whatever was swallowed before the call: from every kernel state, with
      any edges pending or missing, and for every environment, a call still parked at the
      end leaves a socket that is not readable and has no edge to report. */
  lemma ReadyNeverSleepsOnData(k: Kernel<Byte>, script: seq<Turn<Byte>>)
    ensures var w := ReadyFrom(k, script);
            w.outcome.StillParked? ==> !Readable(w.k) && w.script == []
  {
    if !Readable(Advance(k, Head(script))) {
      ParkNeverSleepsOnData(Advance(k, Head(script)), Tail(script));
    }
  }

  lemma {:induction false} ParkNeverSleepsOnData(k: Kernel<Byte>, script: seq<Turn<Byte>>)
    requires !Readable(k) || k.readEdge
    ensures var w := Park(k, script);
            w.outcome.StillParked? ==> !Readable(w.k) && w.script == []
    decreases |script|
  {
    var t := Head(script);
    var k' := Advance(k, t);
    if script != [] && t.fails.None? && !Reported(k', t.recheck).readable {
      ParkNeverSleepsOnData(Taken(k'), Tail(script));
    }
  }

  /** Without the probe the call can sleep on data: it does so exactly when the socket is
      readable with no edge pending, and no poll fails and no edge comes that is not owed. */
  lemma ProbelessSleepsOnDataIff(k: Kernel<Byte>, script: seq<Turn<Byte>>)
    ensures (Park(k, script).outcome.StillParked? && Readable(Park(k, script).k))
       <==> (Readable(k) && !k.readEdge && forall t | t in script :: t.fails.None? && !t.extraEdge)
  {
    if !Readable(k) || k.readEdge {
      ParkNeverSleepsOnData(k, script);
    } else {
      ParkSleepsOnDataIff(k, script);
    }
  }

  lemma {:induction false} ParkSleepsOnDataIff(k: Kernel<Byte>, script: seq<Turn<Byte>>)
    requires Readable(k) && !k.readEdge
    ensures Park(k, script).outcome.StillParked? <==> forall t | t in script :: t.fails.None? && !t.extraEdge
    ensures Park(k, script).outcome.StillParked? ==> Readable(Park(k, script).k)
    decreases |script|
  {
    var t := Head(script);
    var k' := Advance(k, t);
    assert Readable(k');
    if script != [] {
      assert forall u :: u in script <==> u == t || u in Tail(script);
      if t.fails.None? && !t.extraEdge {
        ParkSleepsOnDataIff(Taken(k'), Tail(script));
      }
    }
  }

  /** Where the environment raises no edge it does not owe, the call returns on a socket
      that is not readable exactly when an edge was left over as it parked, and the first
      poll reports it unchecked, the socket still not readable. */
  lemma FalseWakeIff(k: Kernel<Byte>, script: seq<Turn<Byte>>)
    requires forall t | t in script :: !t.extraEdge
    ensures var w := ReadyFrom(k, script);
            var parked, first := Advance(k, Head(script)), Head(Tail(script));
            (w.outcome.Woken? && !Readable(w.k)
             <==> (&& Head(script).fails.None? && !Readable(parked) && parked.readEdge
                   && first.fails.None? && !first.recheck && !Readable(Advance(parked, first))))
  {
    var parked, later := Advance(k, Head(script)), Tail(script);
    if Head(script).fails.None? && !Readable(parked) {
      var next := Advance(parked, Head(later));
      if Head(later).fails.None? && !Reported(next, Head(later).recheck).readable && later != [] {
        ParkWakesTruly(Taken(next), Tail(later));
      }
    }
  }

  /** With no stale edge pending, no edge that comes is stale. */
  lemma {:induction false} ParkWakesTruly(k: Kernel<Byte>, script: seq<Turn<Byte>>)
    requires k.readEdge ==> Readable(k)
    requires forall t | t in script :: !t.extraEdge
    ensures Park(k, script).outcome.Woken? ==> Readable(Park(k, script).k)
    decreases |script|
  {
    var k' := Advance(k, Head(script));
    if script != [] && Head(script).fails.None? && !Reported(k', Head(script).recheck).readable {
      ParkWakesTruly(Taken(k'), Tail(script));
    }
  }

  /** And where polls recheck the edges they pass on, no wake is false, whatever extra edges
      the environment raises. */
  lemma WokenMeans(k: Kernel<Byte>, script: seq<Turn<Byte>>)
    requires ReadyFrom(k, script).outcome.Woken?
    requires forall t | t in script :: t.recheck
    ensures Readable(ReadyFrom(k, script).k)
  {
    if !Readable(Advance(k, Head(script))) {
      ParkWokenMeans(Advance(k, Head(script)), Tail(script));
    }
  }

  lemma {:induction false} ParkWokenMeans(k: Kernel<Byte>, script: seq<Turn<Byte>>)
    requires Park(k, script).outcome.Woken?
    requires forall t | t in script :: t.recheck
    ensures Readable(Park(k, script).k)
    decreases |script|
  {
    var t := Head(script);
    var k' := Advance(k, t);
    if script != [] && t.fails.None? && !Reported(k', t.recheck).readable {
      ParkWokenMeans(Taken(k'), Tail(script));
    }
  }

  /** Everything the peer will ever have sent and the reader has not yet received: what is
      queued, and what arrives before FIN. */
  function Unread(k: Kernel<Byte>, script: seq<Turn<Byte>>): seq<Byte>
    decreases |script|
  {
    if script == [] then k.rx else Unread(Advance(k, script[0]), script[1..])
  }

  predicate FinComes(k: Kernel<Byte>, script: seq<Turn<Byte>>) {
    k.fin || exists t :: t in script && t.fin
  }

  lemma {:induction false} UnreadAfter(rx: seq<Byte>, more: seq<Byte>, k: Kernel<Byte>, script: seq<Turn<Byte>>)
    requires k.rx == rx + more
    ensures Unread(k, script) == rx + Unread(k.(rx := more), script)
    decreases |script|
  {
    if script != [] {
      var k' := Advance(k, script[0]);
      var m' := Advance(k.(rx := more), script[0]);
      assert k'.rx == rx + m'.rx;
      UnreadAfter(rx, m'.rx, k', script[1..]);
      UnreadIgnoresEdges(k'.(rx := m'.rx), m', script[1..]);
    }
  }

  lemma {:induction false} UnreadIgnoresEdges(k: Kernel<Byte>, k': Kernel<Byte>, script: seq<Turn<Byte>>)
    requires k.rx == k'.rx && k.fin == k'.fin
    ensures Unread(k, script) == Unread(k', script)
    decreases |script|
  {
    if script != [] {
      UnreadIgnoresEdges(Advance(k, script[0]), Advance(k', script[0]), script[1..]);
    }
  }

  lemma FinAfter(k: Kernel<Byte>, rx: seq<Byte>, script: seq<Turn<Byte>>)
    ensures FinComes(k.(rx := rx), script) == FinComes(k, script)
  {
  }

  lemma FinIsNow(k: Kernel<Byte>, script: seq<Turn<Byte>>)
    requires k.fin
    ensures FinComes(k, script)
  {
  }

  lemma UnreadTurn(k: Kernel<Byte>, script: seq<Turn<Byte>>)
    ensures Unread(k, script) == Unread(Advance(k, Head(script)), Tail(script))
    ensures FinComes(k, script) == FinComes(Advance(k, Head(script)), Tail(script))
  {
    if script == [] {
      assert k.rx + [] == k.rx;
    } else {
      assert forall t :: t in script <==> t == script[0] || t in script[1..];
    }
  }

  /** Waiting receives nothing and loses nothing. */
  lemma ReadyKeepsStream(k: Kernel<Byte>, script: seq<Turn<Byte>>)
    ensures var w := ReadyFrom(k, script);
            && Unread(w.k, w.script) == Unread(k, script)
            && FinComes(w.k, w.script) == FinComes(k, script)
            && |w.script| <= |script| && (forall t :: t in w.script ==> t in script)
            && (w.outcome.Failed? ==> exists t :: t in script && t.fails.Some?)
  {
    UnreadTurn(k, script);
    var t := Head(script);
    var k' := Advance(k, t);
    if t.fails.None? && !Readable(k') {
      ParkKeepsStream(k', Tail(script));
    }
    if t.fails.Some? {
      assert t in script;
    }
  }

  lemma {:induction false} ParkKeepsStream(k: Kernel<Byte>, script: seq<Turn<Byte>>)
    ensures var w := Park(k, script);
            && Unread(w.k, w.script) == Unread(k, script)
            && FinComes(w.k, w.script) == FinComes(k, script)
            && |w.script| <= |script| && (forall t :: t in w.script ==> t in script)
            && (w.outcome.Failed? ==> exists t :: t in script && t.fails.Some?)
    decreases |script|
  {
    UnreadTurn(k, script);
    var t := Head(script);
    var k' := Advance(k, t);
    UnreadIgnoresEdges(k', Taken(k'), Tail(script));
    if t.fails.Some? {
      assert t in script;
    } else if !Reported(k', t.recheck).readable && script != [] {
      ParkKeepsStream(Taken(k'), Tail(script));
    }
  }

  /** A call still parked has nothing left to receive, now or later. */
  lemma StillParkedMeans(k: Kernel<Byte>, script: seq<Turn<Byte>>)
    ensures var w := ReadyFrom(k, script);
            && (w.outcome.StillParked? ==> Unread(w.k, w.script) == [] && !FinComes(w.k, w.script))
            && (script == [] && !Readable(k) ==> w.outcome.StillParked?)
  {
    ReadyNeverSleepsOnData(k, script);
    assert k.rx + [] == k.rx;
  }

  // ---------------------------------------------------------------- the transport

  /** One write call on a non-empty slice. */
  datatype WriteOutcome = Wrote(n: nat) | WriteBlocks | WriteFails(code: int)

  datatype PollResult = Polled(events: Events) | PollFails(code: int)

  /** How a reader loop ends: end of stream, an error, or still waiting for the peer. */
  datatype End = Eof | Broken | Waiting

  /** A receive may return fewer bytes than it could, but at least one. */
  function Granted(queued: nat, room: nat, short: nat): nat {
    var most := Min(queued, room);
    if most == 0 then 0 else if short < most then most - short else 1
  }

  /** Would-blocks among the first `n` write calls: each is followed by one poll. */
  function Blocks(outcomes: nat -> WriteOutcome, n: nat): nat {
    if n == 0 then 0 else Blocks(outcomes, n - 1) + (if outcomes(n - 1).WriteBlocks? then 1 else 0)
  }

  /** What the kernel was ready to take in the first `n` write calls. */
  function Room(outcomes: nat -> WriteOutcome, n: nat): nat {
    if n == 0 then 0 else Room(outcomes, n - 1) + (if outcomes(n - 1).Wrote? then outcomes(n - 1).n else 0)
  }

  /** Write call `m` and the poll after it, if it would block, let the loop go on. */
  predicate GoesOn(outcomes: nat -> WriteOutcome, script: seq<Turn<Byte>>, m: nat) {
    match outcomes(m)
    case Wrote(n) => n > 0
    case WriteBlocks => TurnAt(script, Blocks(outcomes, m)).fails == None
    case WriteFails(_) => false
  }

  /** After `calls` write calls that let the loop go on, `off` of `len` bytes are out. */
  predicate Underway(outcomes: nat -> WriteOutcome, script: seq<Turn<Byte>>, calls: nat, len: nat, off: nat) {
    && off == Min(Room(outcomes, calls), len)
    && (forall m | 0 <= m < calls :: GoesOn(outcomes, script, m))
    && (calls > 0 ==> Room(outcomes, calls - 1) < len)
    && (calls > 0 && off == len ==> outcomes(calls - 1).Wrote?)
  }

  lemma NotYetUnderway(outcomes: nat -> WriteOutcome, script: seq<Turn<Byte>>, len: nat)
    ensures Underway(outcomes, script, 0, len, 0) && Blocks(outcomes, 0) == 0
  {
  }

  lemma UnderwayMeans(outcomes: nat -> WriteOutcome, script: seq<Turn<Byte>>, calls: nat, len: nat, off: nat)
    requires Underway(outcomes, script, calls, len, off)
    ensures off == Min(Room(outcomes, calls), len)
    ensures forall m | 0 <= m < calls :: GoesOn(outcomes, script, m)
    ensures calls > 0 ==> Room(outcomes, calls - 1) < len
    ensures calls > 0 && off == len ==> outcomes(calls - 1).Wrote? && outcomes(calls - 1).n > 0
    ensures calls == 0 ==> off == 0
    ensures Room(outcomes, calls + 1)
            == Room(outcomes, calls) + (if outcomes(calls).Wrote? then outcomes(calls).n else 0)
    ensures Blocks(outcomes, calls + 1) == Blocks(outcomes, calls) + (if outcomes(calls).WriteBlocks? then 1 else 0)
  {
    assert calls > 0 ==> GoesOn(outcomes, script, calls - 1);
  }

  lemma WriteGoesOn(outcomes: nat -> WriteOutcome, script: seq<Turn<Byte>>, calls: nat, len: nat, off: nat, n: nat)
    requires Underway(outcomes, script, calls, len, off) && off < len
    requires match outcomes(calls)
             case Wrote(most) => n == Min(most, len - off) > 0
             case WriteBlocks => n == 0 && TurnAt(script, Blocks(outcomes, calls)).fails == None
             case WriteFails(_) => false
    ensures Underway(outcomes, script, calls + 1, len, off + n)
    ensures Blocks(outcomes, calls + 1) == Blocks(outcomes, calls) + (if outcomes(calls).WriteBlocks? then 1 else 0)
  {
    hide TurnAt;
    assert GoesOn(outcomes, script, calls);
  }

  class TcpTransport {
    var kernel: Kernel<Byte>
    var script: seq<Turn<Byte>>
    /** What the kernel has accepted from `send`. */
    var tx: seq<Byte>
    var clock: nat

    constructor (kernel: Kernel<Byte>, script: seq<Turn<Byte>>)
      ensures this.kernel == kernel && this.script == script && tx == [] && clock == 0
    {
      this.kernel := kernel;
      this.script := script;
      this.tx := [];
      this.clock := 0;
    }

    /** The environment's turn before a system call. */
    method Tick() returns (t: Turn<Byte>)
      modifies this`kernel, this`script
      ensures t == Head(old(script)) && script == Tail(old(script)) && kernel == Advance(old(kernel), t)
    {
      t := Head(script);
      kernel := Advance(kernel, t);
      script := Tail(script);
    }

    /** One poll: report the pending edges and take them. */
    method Poll() returns (r: PollResult)
      modifies this`kernel, this`script
      ensures script == Tail(old(script))
      ensures var t := Head(old(script));
              var k := Advance(old(kernel), t);
              match t.fails
              case Some(code) => r == PollFails(code) && kernel == k
              case None => r == Polled(Reported(k, t.recheck)) && kernel == Taken(k)
    {
      var t := Tick();
      if t.fails.Some? {
        return PollFails(t.fails.value);
      }
      r := Polled(Reported(kernel, t.recheck));
      kernel := Taken(kernel);
    }

    /** Probe, then park. */
    method Ready() returns (r: Outcome, ghost calls: nat)
      modifies this`kernel, this`script
      ensures Wait(r, kernel, script, calls) == ReadyFrom(old(kernel), old(script))
    {
      ghost var whole := ReadyFrom(kernel, script);
      var probe := Tick();
      calls := 1;
      if probe.fails.Some? {
        return Failed(probe.fails.value), calls;
      }
      if Readable(kernel) {
        return Woken, calls;
      }
      while true
        invariant var w := Park(kernel, script); w.(calls := calls + w.calls) == whole
        decreases |script|
      {
        var over := script == [];
        var polled := Poll();
        calls := calls + 1;
        match polled {
          case PollFails(code) => return Failed(code), calls;
          case Polled(events) =>
            if events.readable {
              return Woken, calls;
            }
        }
        if over {
          return StillParked, calls;
        }
      }
    }

    /** A poll made while waiting to write: it takes every edge, whatever the caller does
        with what it reports, and no byte of the stream. */
    method PollToWrite() returns (r: PollResult)
      modifies this`kernel, this`script
      ensures script == Tail(old(script))
      ensures match Head(old(script)).fails
              case Some(code) => r == PollFails(code)
              case None =>
                && r.Polled? && !kernel.readEdge && !kernel.writeEdge
                && (r.events.writable <==> old(kernel.writeEdge) || Head(old(script)).writable)
      ensures Unread(kernel, script) == old(Unread(kernel, script))
    {
      UnreadTurn(kernel, script);
      ghost var k := Advance(kernel, Head(script));
      UnreadIgnoresEdges(k, Taken(k), Tail(script));
      hide Unread;
      r := Poll();
    }

    /** Poll until a write event, discarding everything else, for five seconds by the
        abstract clock; `spent` is what each poll took, at most its 100 ms timeout. The last
        poll decides: its error is returned, or the write event's verdict on the connection,
        or the time-out; no earlier poll failed or reported a write; and no poll starts at or
        after the deadline. */
    method WaitConnect(socketError: Option<int>, spent: nat -> nat) returns (r: Result<()>, polls: nat)
      modifies this`kernel, this`script, this`clock
      ensures polls > 0 && script == After(old(script), polls)
      ensures forall m | 0 <= m < polls - 1 ::
                TurnAt(old(script), m).fails == None && !TurnAt(old(script), m).writable
      ensures polls > 1 ==> !old(kernel.writeEdge)
      ensures var last := TurnAt(old(script), polls - 1);
              r == match last.fails
                   case Some(code) => Err(Io(Other(code)))
                   case None =>
                     if last.writable || old(kernel.writeEdge) then
                       (if socketError.Some? then Err(Io(Other(socketError.value))) else Ok(()))
                     else Err(Io(TimedOut))
      ensures r == Err(Io(TimedOut)) ==> clock >= old(clock) + 5000
      ensures old(clock) <= clock < old(clock) + 5100
      ensures r.Ok? || r == Err(Io(TimedOut)) ==> !kernel.readEdge && !kernel.writeEdge
      ensures Unread(kernel, script) == old(Unread(kernel, script))
    {
      hide Unread;
      hide After;
      hide TurnAt;
      hide Head;
      hide Tail;
      OneMoreTurn(script, 0);
      var deadline := clock + 5000;
      polls := 0;
      while true
        invariant Unread(kernel, script) == old(Unread(kernel, script))
        invariant deadline == old(clock) + 5000 && old(clock) <= clock < deadline
        invariant script == After(old(script), polls)
        invariant forall m | 0 <= m < polls ::
                    TurnAt(old(script), m).fails == None && !TurnAt(old(script), m).writable
        invariant if polls == 0 then kernel.writeEdge == old(kernel.writeEdge)
                  else !kernel.writeEdge && !old(kernel.writeEdge)
        decreases if polls < |old(script)| then |old(script)| - polls else 0, deadline - clock
      {
        OneMoreTurn(old(script), polls);
        var over := |script| == 0;
        var polled := PollToWrite();
        clock := clock + if over then 100 else Min(spent(polls), 100);
        polls := polls + 1;
        match polled {
          case PollFails(code) =>
            return Err(Io(Other(code))), polls;
          case Polled(events) =>
            if events.writable {
              return if socketError.Some? then Err(Io(Other(socketError.value))) else Ok(()), polls;
            }
        }
        if clock >= deadline {
          return Err(Io(TimedOut)), polls;
        }
      }
    }

    /** Write all of `buf`, in `calls` write calls. At every moment the kernel has exactly a
        prefix of it, as long as the calls made room for. Every call but the last made
        progress or was followed by a poll that did not fail; the last one decides the
        result, so `Ok` means that nothing failed and all of `buf` is out, once and in order.
        `next(i)` bounds the run of would-blocks that starts at write call `i`. */
    method Send(buf: seq<Byte>, outcomes: nat -> WriteOutcome, ghost next: nat -> nat)
      returns (r: Result<()>, calls: nat)
      requires forall i: nat :: i <= next(i) && !outcomes(next(i)).WriteBlocks?
      modifies this`kernel, this`script, this`tx
      ensures tx == old(tx) + buf[..Min(Room(outcomes, calls), |buf|)]
      ensures r.Ok? <==> tx == old(tx) + buf
      ensures calls == 0 <==> buf == []
      ensures calls > 0 ==> Room(outcomes, calls - 1) < |buf|
      ensures forall m | 0 <= m < calls - 1 :: GoesOn(outcomes, old(script), m)
      ensures if calls == 0 then r == Ok(())
              else match outcomes(calls - 1)
                case WriteFails(code) => r == Err(Io(Other(code)))
                case Wrote(n) => r == if n == 0 then Err(Io(WriteZero)) else Ok(())
                case WriteBlocks =>
                  var poll := TurnAt(old(script), Blocks(outcomes, calls - 1)).fails;
                  poll.Some? && r == Err(Io(Other(poll.value)))
      ensures script == After(old(script), Blocks(outcomes, calls))
      ensures Unread(kernel, script) == old(Unread(kernel, script))
    {
      hide Unread;
      hide After;
      hide TurnAt;
      hide Head;
      hide Tail;
      hide Room;
      hide Blocks;
      hide GoesOn;
      hide Underway;
      NotYetUnderway(outcomes, script, |buf|);
      OneMoreTurn(script, 0);
      var off := 0;
      calls := 0;
      ghost var target := next(0);
      while off < |buf|
        invariant Underway(outcomes, old(script), calls, |buf|, off)
        invariant off <= |buf| && tx == old(tx) + buf[..off]
        invariant calls <= target && !outcomes(target).WriteBlocks?
        invariant script == After(old(script), Blocks(outcomes, calls))
        invariant Unread(kernel, script) == old(Unread(kernel, script))
        decreases |buf| - off, target - calls
      {
        var outcome := outcomes(calls);
        calls := calls + 1;
        match outcome {
          case Wrote(most) =>
            var n := Min(most, |buf| - off);
            assert buf[..off + n] == buf[..off] + buf[off..off + n];
            tx := tx + buf[off..off + n];
            if n == 0 {
              UnderwayMeans(outcomes, old(script), calls - 1, |buf|, off);
              return Err(Io(WriteZero)), calls;
            }
            WriteGoesOn(outcomes, old(script), calls - 1, |buf|, off, n);
            off := off + n;
            target := next(calls);
          case WriteBlocks =>
            OneMoreTurn(old(script), Blocks(outcomes, calls - 1));
            var polled := PollToWrite();
            if polled.PollFails? {
              UnderwayMeans(outcomes, old(script), calls - 1, |buf|, off);
              return Err(Io(Other(polled.code))), calls;
            }
            WriteGoesOn(outcomes, old(script), calls - 1, |buf|, off, 0);
          case WriteFails(code) =>
            UnderwayMeans(outcomes, old(script), calls - 1, |buf|, off);
            return Err(Io(Other(code))), calls;
        }
      }
      UnderwayMeans(outcomes, old(script), calls, |buf|, off);
      r := Ok(());
    }

    /** Land one read into `dst`. Only the first `n` cells are written. End of stream is
        reported after FIN with nothing queued, and to a caller with an empty buffer. */
    method RecvInto(dst: array<Byte>, short: nat) returns (r: Result<nat>)
      modifies this`kernel, this`script, dst
      ensures var t := Head(old(script));
              var k := Advance(old(kernel), t);
              r == Err(Io(UnexpectedEof)) <==>
                t.fails.None? && Readable(k) && ((k.fin && k.rx == []) || dst.Length == 0)
      ensures script == Tail(old(script))
      ensures var t := Head(old(script));
              var k := Advance(old(kernel), t);
              if t.fails.Some? then r == Err(Io(Other(t.fails.value))) && kernel == k && dst[..] == old(dst[..])
              else if !Readable(k) then r == Ok(0) && kernel == k && dst[..] == old(dst[..])
              else
                var n := Granted(|k.rx|, dst.Length, short);
                && r == (if n == 0 then Err(Io(UnexpectedEof)) else Ok(n))
                && kernel == k.(rx := k.rx[n..])
                && dst[..n] == k.rx[..n] && dst[n..] == old(dst[n..])
    {
      var t := Tick();
      if t.fails.Some? {
        return Err(Io(Other(t.fails.value)));
      }
      if !Readable(kernel) {
        return Ok(0);
      }
      var n := Granted(|kernel.rx|, dst.Length, short);
      forall i | 0 <= i < n {
        dst[i] := kernel.rx[i];
      }
      kernel := kernel.(rx := kernel.rx[n..]);
      r := if n == 0 then Err(Io(UnexpectedEof)) else Ok(n);
    }

    /** A caller's reader loop over non-empty buffers of any sizes: receive, and wait when
        nothing is ready. What it gathers is a prefix of the peer's bytes, all of them unless
        a call fails, and otherwise it ends with the end of stream exactly if FIN ever comes.
        It breaks exactly when the last of its `turns` system calls fails. */
    method ReadToEnd(sizes: nat -> nat, shorts: nat -> nat) returns (got: seq<Byte>, end: End, ghost turns: nat)
      requires forall i: nat :: 0 < sizes(i)
      modifies this`kernel, this`script
      ensures got + Unread(kernel, script) == old(Unread(kernel, script))
      ensures !end.Broken? ==> got == old(Unread(kernel, script))
      ensures end.Waiting? ==> !old(FinComes(kernel, script))
      ensures end.Eof? ==> old(FinComes(kernel, script))
      ensures turns > 0 && script == After(old(script), turns)
      ensures Unfailed(old(script), turns - 1)
      ensures end.Broken? <==> TurnAt(old(script), turns - 1).fails.Some?
    {
      hide Unread;
      hide FinComes;
      hide ReadyFrom;
      hide TurnAt;
      hide After;
      hide Head;
      hide Tail;
      hide OnlyLastFails;
      got := [];
      var calls := 0;
      turns := 0;
      OneMoreTurn(script, 0);
      UnfailedMeans(script, 0);
      hide Unfailed;
      hide Advance;
      hide Quiet;
      while true
        invariant got + Unread(kernel, script) == old(Unread(kernel, script))
        invariant FinComes(kernel, script) == old(FinComes(kernel, script))
        invariant script == After(old(script), turns) && Unfailed(old(script), turns)
        decreases |script|, |kernel.rx|
      {
        var dst := new Byte[sizes(calls)];
        UnreadTurn(kernel, script);
        OneMoreTurn(old(script), turns);
        UnfailedMeans(old(script), turns);
        QuietKeeps(kernel);
        ghost var k, later := Advance(kernel, Head(script)), Tail(script);
        var r := RecvInto(dst, shorts(calls));
        calls := calls + 1;
        turns := turns + 1;
        match r {
          case Err(Io(UnexpectedEof)) =>
            UnreadPastFin(k, later);
            FinIsNow(k, later);
            return got, Eof, turns;
          case Err(_) => return got, Broken, turns;
          case Ok(n) =>
            if n > 0 {
              ReceiveKeepsStream(got, k, n, later);
              got := got + dst[..n];
            } else {
              WaitKeepsStream(kernel, old(script), turns);
              var woken;
              ghost var more;
              woken, more := Ready();
              turns := turns + more;
              if woken.Failed? {
                return got, Broken, turns;
              } else if woken.StillParked? {
                return got, Waiting, turns;
              }
            }
        }
      }
    }
  }

  lemma QuietKeeps(k: Kernel<Byte>)
    ensures Advance(k, Quiet()).rx == k.rx
  {
  }

  /** Taking `n` bytes moves them from what is unread to what has been got. */
  lemma ReceiveKeepsStream(got: seq<Byte>, k: Kernel<Byte>, n: nat, script: seq<Turn<Byte>>)
    requires n <= |k.rx|
    ensures got + k.rx[..n] + Unread(k.(rx := k.rx[n..]), script) == got + Unread(k, script)
    ensures FinComes(k.(rx := k.rx[n..]), script) == FinComes(k, script)
  {
    FinAfter(k, k.rx[n..], script);
    UnreadAfter(k.rx[..n], k.rx[n..], k, script);
  }

  /** No system call in the first `n` turns fails. */
  predicate Unfailed(script: seq<Turn<Byte>>, n: nat) {
    forall m | 0 <= m < n :: TurnAt(script, m).fails == None
  }

  lemma UnfailedMeans(script: seq<Turn<Byte>>, n: nat)
    ensures Unfailed(script, 0)
    ensures Unfailed(script, n) && TurnAt(script, n).fails == None ==> Unfailed(script, n + 1)
  {
  }

  /** What a wait after the first `n` turns does to the stream and to the turns. */
  lemma WaitKeepsStream(k: Kernel<Byte>, script: seq<Turn<Byte>>, n: nat)
    requires Unfailed(script, n)
    ensures var w := ReadyFrom(k, After(script, n));
            && Unread(w.k, w.script) == Unread(k, After(script, n))
            && FinComes(w.k, w.script) == FinComes(k, After(script, n))
            && |w.script| <= |After(script, n)|
            && (w.outcome.StillParked? ==> Unread(w.k, w.script) == [] && !FinComes(w.k, w.script))
            && (After(script, n) == [] && !Readable(k) ==> w.outcome.StillParked?)
            && w.calls > 0 && w.script == After(script, n + w.calls)
            && Unfailed(script, n + w.calls - 1)
            && (TurnAt(script, n + w.calls - 1).fails.Some? <==> w.outcome.Failed?)
            && (!w.outcome.Failed? ==> Unfailed(script, n + w.calls))
  {
    hide *;
    var left := After(script, n);
    var w := ReadyFrom(k, left);
    ReadyKeepsStream(k, left);
    StillParkedMeans(k, left);
    ReadyTurns(k, left);
    TurnsJoin(script, n, w.calls, ErrorOf(w.outcome));
    ErrorMeans(w.outcome);
    UnfailedMeans(script, n + w.calls - 1);
  }

  lemma ErrorMeans(o: Outcome)
    ensures ErrorOf(o).Some? <==> o.Failed?
  {
  }

  lemma TurnsJoin(script: seq<Turn<Byte>>, n: nat, calls: nat, failed: Option<int>)
    requires OnlyLastFails(After(script, n), calls, failed)
    requires Unfailed(script, n)
    ensures After(After(script, n), calls) == After(script, n + calls) && calls > 0
    ensures TurnAt(script, n + calls - 1).fails == failed
    ensures Unfailed(script, n + calls - 1)
  {
    assert forall m: nat :: TurnAt(After(script, n), m) == TurnAt(script, n + m);
    forall m | n <= m < n + calls - 1
      ensures TurnAt(script, m).fails == None
    {
      assert TurnAt(After(script, n), m - n).fails == None;
    }
  }

  lemma {:induction false} UnreadPastFin(k: Kernel<Byte>, script: seq<Turn<Byte>>)
    requires k.fin && k.rx == []
    ensures Unread(k, script) == []
    decreases |script|
  {
    if script != [] {
      UnreadPastFin(Advance(k, script[0]), script[1..]);
    }
  }
}
