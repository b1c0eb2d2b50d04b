/** tokio readiness: a reactor that turns kernel edges into a cached readiness bit, receives
    that bypass it, and `readable`, which awaits the bit, peeks at the socket through
    `try_io`, and clears the bit when the peek would block. */
module TokioReady {
  import opened Core

  /** `rx` counts queued datagrams or bytes. `edge` is a kernel edge the driver has not yet
      processed; `bit` is the cached readiness; `tick` counts the driver's events. */
  datatype Reactor = Reactor(rx: nat, fin: bool, edge: bool, bit: bool, tick: nat)

  predicate IsReadable(r: Reactor) {
    r.rx > 0 || r.fin
  }

  /** Everything that can happen around a task. Becoming readable raises the edge; more
      edges may come but need not; the kernel may take back an edge on a socket that is not
      readable; receives never touch the bit. */
  datatype Env =
    | Arrive(n: nat, extraEdge: bool)
    | Fin
    | Receive(n: nat)
    | Withdraw
    | Drive
    | Nothing

  function Apply(r: Reactor, e: Env): Reactor {
    match e
    case Arrive(n, extra) =>
      if r.fin then r else r.(rx := r.rx + n, edge := r.edge || extra || (!IsReadable(r) && n > 0))
    case Fin => r.(fin := true, edge := r.edge || !IsReadable(r))
    case Receive(n) => r.(rx := r.rx - Min(n, r.rx))
    case Withdraw => if IsReadable(r) then r else r.(edge := false)
    case Drive => if r.edge then r.(edge := false, bit := true, tick := r.tick + 1) else r
    case Nothing => r
  }

  /** The library's rule: a clear is ignored if the driver has delivered a newer event
      since the snapshot. */
  function Clear(r: Reactor, at: nat): Reactor {
    if r.tick == at then r.(bit := false) else r
  }

  /** Data queued implies the bit is set or an edge is on its way. */
  predicate Honest(r: Reactor) {
    IsReadable(r) ==> r.bit || r.edge
  }

  /** A would-block seen under tick `at` may still be acted on: if that tick is current and
      the socket has become readable since, an edge is on its way. */
  predicate ClearIsSafe(r: Reactor, at: nat) {
    at <= r.tick && (r.tick == at && IsReadable(r) ==> r.edge)
  }

  lemma EnvKeeps(r: Reactor, e: Env, at: nat)
    ensures Honest(r) ==> Honest(Apply(r, e))
    ensures ClearIsSafe(r, at) ==> ClearIsSafe(Apply(r, e), at)
    ensures r.tick <= Apply(r, e).tick
    ensures !r.bit && Apply(r, e).bit ==> r.tick < Apply(r, e).tick
  {
  }

  // ---------------------------------------------------------------- any number of tasks

  type Task = nat

  /** Inside `readable`: `start` is the tick at the call and `turns` the loop turns begun. */
  datatype Pc =
    | Out
    | Waiting(start: nat, turns: nat)
    | Awaited(start: nat, turns: nat, at: nat)   // the await resolved under tick `at`
    | Snapped(start: nat, turns: nat, at: nat)   // `try_io` took its snapshot
    | Blocked(start: nat, turns: nat, at: nat)   // the peek would block; not yet cleared

  datatype State = State(r: Reactor, pcs: map<Task, Pc>)

  datatype Event =
    | World(e: Env)
    | Call(t: Task)
    | Await(t: Task)
    | TryEmpty(t: Task)      // `try_io` finds the bit clear and does not peek
    | Snap(t: Task)
    | Peek(t: Task)
    | PeekFails(t: Task)
    | ClearBit(t: Task)

  predicate Enabled(s: State, e: Event) {
    !e.World? ==>
      && e.t in s.pcs
      && match e
         case Call(t) => s.pcs[t].Out?
         case Await(t) => s.pcs[t].Waiting? && s.r.bit
         case TryEmpty(t) => s.pcs[t].Awaited? && !s.r.bit
         case Snap(t) => s.pcs[t].Awaited? && s.r.bit
         case Peek(t) => s.pcs[t].Snapped?
         case PeekFails(t) => s.pcs[t].Snapped?
         case ClearBit(t) => s.pcs[t].Blocked?
         case World(_) => true
  }

  function Next(s: State, e: Event): State
    requires Enabled(s, e)
  {
    match e
    case World(env) => s.(r := Apply(s.r, env))
    case Call(t) => s.(pcs := s.pcs[t := Waiting(s.r.tick, 0)])
    case Await(t) => s.(pcs := s.pcs[t := Awaited(s.pcs[t].start, s.pcs[t].turns + 1, s.r.tick)])
    case TryEmpty(t) => s.(pcs := s.pcs[t := Waiting(s.pcs[t].start, s.pcs[t].turns)])
    case Snap(t) => s.(pcs := s.pcs[t := Snapped(s.pcs[t].start, s.pcs[t].turns, s.r.tick)])
    case Peek(t) =>
      if IsReadable(s.r) then s.(pcs := s.pcs[t := Out])
      else s.(pcs := s.pcs[t := Blocked(s.pcs[t].start, s.pcs[t].turns, s.pcs[t].at)])
    case PeekFails(t) => s.(pcs := s.pcs[t := Out])
    case ClearBit(t) =>
      State(Clear(s.r, s.pcs[t].at), s.pcs[t := Waiting(s.pcs[t].start, s.pcs[t].turns)])
  }

  /** What holds of one task: its snapshots are not from the future, a pending clear is
      safe, and each loop turn but one has been paid for by a driver event. */
  predicate TaskInv(r: Reactor, pc: Pc) {
    match pc
    case Out => true
    case Waiting(start, turns) =>
      start <= r.tick && turns <= 1 + r.tick - start && (r.bit ==> turns <= r.tick - start)
    case Awaited(start, turns, at) => start <= at <= r.tick && turns <= 1 + at - start
    case Snapped(start, turns, at) => start <= at <= r.tick && turns <= 1 + at - start
    case Blocked(start, turns, at) => start <= at && turns <= 1 + at - start && ClearIsSafe(r, at)
  }

  predicate Inv(s: State) {
    Honest(s.r) && forall t | t in s.pcs :: TaskInv(s.r, s.pcs[t])
  }

  lemma StepInv(s: State, e: Event)
    requires Inv(s) && Enabled(s, e)
    ensures Inv(Next(s, e))
  {
    if e.World? {
      forall t | t in s.pcs
        ensures TaskInv(Next(s, e).r, s.pcs[t])
      {
        EnvKeeps(s.r, e.e, if s.pcs[t].Blocked? then s.pcs[t].at else 0);
      }
    }
  }

  ghost predicate IsRun(ss: seq<State>, es: seq<Event>) {
    && |ss| == |es| + 1
    && Honest(ss[0].r) && (forall t | t in ss[0].pcs :: ss[0].pcs[t].Out?)
    && forall i | 0 <= i < |es| :: Enabled(ss[i], es[i]) && ss[i + 1] == Next(ss[i], es[i])
  }

  lemma {:induction false} RunInv(ss: seq<State>, es: seq<Event>, i: nat)
    requires IsRun(ss, es) && i < |ss|
    ensures Inv(ss[i])
  {
    if i > 0 {
      RunInv(ss, es, i - 1);
      StepInv(ss[i - 1], es[i - 1]);
    }
  }

  /** In every state of every run, queued data has the bit set or an edge on its way, so a
      task waiting on a readable socket can go on now or after one driver event. */
  lemma NeverWaitsOnData(ss: seq<State>, es: seq<Event>, i: nat, t: Task)
    requires IsRun(ss, es) && i < |ss|
    requires t in ss[i].pcs && ss[i].pcs[t].Waiting? && IsReadable(ss[i].r)
    ensures Enabled(ss[i], Await(t)) || Enabled(Next(ss[i], World(Drive)), Await(t))
  {
    RunInv(ss, es, i);
  }

  /** A call begins at most one more loop turn than the driver has delivered events since
      it started. */
  lemma TurnsAreBounded(ss: seq<State>, es: seq<Event>, i: nat, t: Task)
    requires IsRun(ss, es) && i < |ss|
    requires t in ss[i].pcs && !ss[i].pcs[t].Out?
    ensures ss[i].pcs[t].turns <= 1 + ss[i].r.tick - ss[i].pcs[t].start
  {
    RunInv(ss, es, i);
  }

  /** A call returns `Ok` only in a step that finds the socket readable. */
  lemma OkIsTruthful(s: State, e: Event, t: Task)
    requires Enabled(s, e) && t in s.pcs && !s.pcs[t].Out? && Next(s, e).pcs[t].Out? && e != PeekFails(t)
    ensures e == Peek(t) && IsReadable(s.r) && IsReadable(Next(s, e).r)
  {
  }

  // ---------------------------------------------------------------- progress

  /** Readable, with the bit set and no older would-block that could clear it. */
  predicate Settled(s: State) {
    && IsReadable(s.r) && s.r.bit
    && forall t | t in s.pcs && s.pcs[t].Blocked? :: s.pcs[t].at < s.r.tick
  }

  /** Own steps left until the call returns. */
  function Rank(pc: Pc): nat {
    match pc
    case Out => 0
    case Snapped(_, _, _) => 1
    case Awaited(_, _, _) => 2
    case Waiting(_, _) => 3
    case Blocked(_, _, _) => 4
  }

  /** A readable socket is settled, or an edge is on its way that will settle it. */
  lemma SettledOrDue(s: State)
    requires Inv(s) && IsReadable(s.r)
    ensures Settled(s) || (s.r.edge && Settled(Next(s, World(Drive))))
  {
  }

  /** A settled socket stays settled until somebody receives, whatever the tasks, the
      driver and the peer do; every task inside a call has a step to take, and each of its
      steps brings it closer to returning. */
  lemma SettledProgress(s: State, e: Event)
    requires Inv(s) && Settled(s) && Enabled(s, e) && (e.World? ==> !e.e.Receive?)
    ensures Settled(Next(s, e))
    ensures e.World? ==> Next(s, e).pcs == s.pcs
    ensures !e.World? && !e.Call? ==> Rank(Next(s, e).pcs[e.t]) < Rank(s.pcs[e.t])
    ensures forall t | t in s.pcs && (e.World? || t != e.t) :: Next(s, e).pcs[t] == s.pcs[t]
  {
  }

  lemma SettledCanGo(s: State, t: Task)
    requires Settled(s) && t in s.pcs && !s.pcs[t].Out?
    ensures Enabled(s, Await(t)) || Enabled(s, Snap(t)) || Enabled(s, Peek(t)) || Enabled(s, ClearBit(t))
  {
  }

  lemma RanksAre(pc: Pc)
    ensures Rank(pc) <= 4 && (!pc.Out? ==> Rank(pc) > 0)
  {
  }

  /** The steps task `t` takes from state `i` to state `j` of a run. */
  function OwnSteps(es: seq<Event>, i: nat, j: nat, t: Task): nat
    requires i <= j <= |es|
    decreases j
  {
    if i == j then 0
    else OwnSteps(es, i, j - 1, t) + (if !es[j - 1].World? && es[j - 1].t == t then 1 else 0)
  }

  lemma NoOwnSteps(es: seq<Event>, i: nat, t: Task)
    requires i <= |es|
    ensures OwnSteps(es, i, i, t) == 0
  {
  }

  lemma OneOwnStep(es: seq<Event>, i: nat, j: nat, t: Task)
    requires i < j <= |es|
    ensures OwnSteps(es, i, j, t)
            == OwnSteps(es, i, j - 1, t) + (if !es[j - 1].World? && es[j - 1].t == t then 1 else 0)
  {
  }

  lemma SettledTurn(s: State, e: Event, t: Task)
    requires Inv(s) && Settled(s) && Enabled(s, e) && (e.World? ==> !e.e.Receive?)
    requires t in s.pcs && !s.pcs[t].Out?
    ensures Settled(Next(s, e)) && t in Next(s, e).pcs
    ensures Rank(Next(s, e).pcs[t]) + (if !e.World? && e.t == t then 1 else 0) <= Rank(s.pcs[t])
  {
    SettledProgress(s, e);
  }

  /** From state `i` to state `j` of a run nobody receives, and task `t` is inside a call. */
  ghost predicate WaitsThrough(ss: seq<State>, es: seq<Event>, i: nat, j: nat, t: Task) {
    && IsRun(ss, es) && i <= j < |ss|
    && (forall k | i <= k < j :: es[k].World? ==> !es[k].e.Receive?)
    && (forall k | i <= k <= j :: t in ss[k].pcs && !ss[k].pcs[t].Out?)
  }

  lemma WaitsShorter(ss: seq<State>, es: seq<Event>, i: nat, j: nat, t: Task)
    requires WaitsThrough(ss, es, i, j, t)
    ensures IsRun(ss, es) && |ss| == |es| + 1 && i <= j <= |es|
    ensures t in ss[j].pcs && !ss[j].pcs[t].Out? && t in ss[i].pcs
    ensures i < j ==> WaitsThrough(ss, es, i, j - 1, t) && (es[j - 1].World? ==> !es[j - 1].e.Receive?)
    ensures i < j ==> Enabled(ss[j - 1], es[j - 1]) && ss[j] == Next(ss[j - 1], es[j - 1])
  {
    hide Enabled;
    hide Next;
  }

  lemma {:induction false} SettledCallsReturn(ss: seq<State>, es: seq<Event>, i: nat, j: nat, t: Task)
    requires WaitsThrough(ss, es, i, j, t) && Settled(ss[i])
    ensures Settled(ss[j]) && t in ss[i].pcs && t in ss[j].pcs && j <= |es|
    ensures OwnSteps(es, i, j, t) + Rank(ss[j].pcs[t]) <= Rank(ss[i].pcs[t])
    decreases j
  {
    hide *;
    WaitsShorter(ss, es, i, j, t);
    if i < j {
      SettledCallsReturn(ss, es, i, j - 1, t);
      WaitsShorter(ss, es, i, j - 1, t);
      RunInv(ss, es, j - 1);
      SettledTurn(ss[j - 1], es[j - 1], t);
      OneOwnStep(es, i, j, t);
    } else {
      NoOwnSteps(es, i, t);
    }
  }

  lemma {:induction false} StaysReadable(ss: seq<State>, es: seq<Event>, i: nat, j: nat)
    requires IsRun(ss, es) && i <= j < |ss| && IsReadable(ss[i].r)
    requires forall k | i <= k < j :: es[k].World? ==> !es[k].e.Receive?
    ensures IsReadable(ss[j].r)
    decreases j
  {
    if i < j {
      StaysReadable(ss, es, i, j - 1);
    }
  }

  /** From state `i` on, the driver has said what it owes: it owed nothing, or step `d - 1`
      is one of its events. */
  ghost predicate DriverDone(ss: seq<State>, es: seq<Event>, i: nat, d: nat)
    requires i <= d <= |es| < |ss|
  {
    if d == i then Settled(ss[i]) else es[d - 1] == World(Drive)
  }

  lemma DriveSettles(ss: seq<State>, es: seq<Event>, i: nat, d: nat)
    requires IsRun(ss, es) && i <= d <= |es| && IsReadable(ss[i].r) && DriverDone(ss, es, i, d)
    requires forall k | i <= k < d :: es[k].World? ==> !es[k].e.Receive?
    ensures Settled(ss[d])
  {
    hide Settled;
    hide Inv;
    hide Next;
    hide IsReadable;
    if i < d {
      StaysReadable(ss, es, i, d - 1);
      RunInv(ss, es, d - 1);
      SettledOrDue(ss[d - 1]);
      if Settled(ss[d - 1]) {
        SettledProgress(ss[d - 1], es[d - 1]);
      }
    }
  }

  /** Liveness over whole runs, from any state in which the socket is readable: either all
      is settled or an edge is on its way to the driver. Once the driver has reported it,
      and while nobody receives, a call that has not returned can always take its next step,
      and it has at most three of them left before the one that returns, however the other
      tasks, the driver and the peer interleave. */
  lemma CallsReturn(ss: seq<State>, es: seq<Event>, i: nat, d: nat, j: nat, t: Task)
    requires IsRun(ss, es) && i <= d <= j < |ss| && IsReadable(ss[i].r) && DriverDone(ss, es, i, d)
    requires forall k | i <= k < j :: es[k].World? ==> !es[k].e.Receive?
    requires forall k | d <= k <= j :: t in ss[k].pcs && !ss[k].pcs[t].Out?
    ensures Settled(ss[i]) || ss[i].r.edge
    ensures IsReadable(ss[j].r) && OwnSteps(es, d, j, t) <= 3
    ensures Enabled(ss[j], Await(t)) || Enabled(ss[j], Snap(t))
            || Enabled(ss[j], Peek(t)) || Enabled(ss[j], ClearBit(t))
  {
    assert |ss| == |es| + 1 && WaitsThrough(ss, es, d, j, t);
    hide *;
    RunInv(ss, es, i);
    SettledOrDue(ss[i]);
    StaysReadable(ss, es, i, j);
    DriveSettles(ss, es, i, d);
    SettledCallsReturn(ss, es, d, j, t);
    RanksAre(ss[d].pcs[t]);
    RanksAre(ss[j].pcs[t]);
    SettledCanGo(ss[j], t);
  }

  // ---------------------------------------------------------------- why a plain await is not enough

  /** The same reactor under a caller that only awaits the cached bit: each `PlainAwait` is
      one such call returning, which it can whenever the bit is set, changing nothing. */
  datatype PlainEvent = Around(e: Env) | PlainAwait

  ghost predicate IsPlainRun(rs: seq<Reactor>, es: seq<PlainEvent>) {
    && |rs| == |es| + 1 && Honest(rs[0])
    && forall i | 0 <= i < |es| ::
         if es[i].PlainAwait? then rs[i].bit && rs[i + 1] == rs[i] else rs[i + 1] == Apply(rs[i], es[i].e)
  }

  /** Once a receive has emptied the socket, such calls return any number of times although
      there is nothing to receive, and nothing ever stops them. */
  lemma PlainAwaitIsStale(n: nat)
    ensures exists rs: seq<Reactor>, es: seq<PlainEvent> ::
              && IsPlainRun(rs, es) && |es| == 3 + n
              && forall k | 3 <= k < 3 + n :: es[k].PlainAwait? && !IsReadable(rs[k])
  {
    var r0 := Reactor(0, false, false, false, 0);
    var r1 := Apply(r0, Arrive(1, false));
    var r2 := Apply(r1, Drive);
    var r3 := Apply(r2, Receive(1));
    var rs := [r0, r1, r2] + seq(n + 1, _ => r3);
    var es := [Around(Arrive(1, false)), Around(Drive), Around(Receive(1))] + seq(n, _ => PlainAwait);
    assert forall k | 3 <= k < |rs| :: rs[k] == r3;
    assert IsPlainRun(rs, es);
  }

  // ---------------------------------------------------------------- the loop itself

  /** `Pending` is a call that is still awaiting when the script is over. */
  datatype Outcome = Ready | Failed(code: int) | Pending

  /** What happens at each point where other code can run, and the error of a peek there, if it fails. */
  datatype Turn = Turn(env: seq<Env>, peekFails: Option<int>)

  /** One task around a reactor. */
  function Alone(r: Reactor, pc: Pc): State {
    State(r, map[0 := pc])
  }

  /** Where a stretch of events leads, if each can happen when it is its turn. */
  function RunFrom(s: State, es: seq<Event>): Option<State> {
    if es == [] then Some(s)
    else match RunFrom(s, es[..|es| - 1])
      case None => None
      case Some(m) => if Enabled(m, es[|es| - 1]) then Some(Next(m, es[|es| - 1])) else None
  }

  /** The states along such a stretch are a run of the step system. */
  lemma {:induction false} RunFromIsRun(s: State, es: seq<Event>) returns (ss: seq<State>)
    requires Honest(s.r) && (forall t | t in s.pcs :: s.pcs[t].Out?) && RunFrom(s, es).Some?
    ensures IsRun(ss, es) && ss[0] == s && RunFrom(s, es) == Some(ss[|es|])
  {
    if es == [] {
      ss := [s];
    } else {
      var shorter, e := es[..|es| - 1], es[|es| - 1];
      var before := RunFromIsRun(s, shorter);
      hide Enabled;
      hide Next;
      hide Honest;
      ss := before + [Next(before[|before| - 1], e)];
      assert forall i | 0 <= i < |before| :: ss[i] == before[i];
    }
  }

  /** The run `es` from `s0` has brought one task to `pc`, all in order. */
  ghost predicate At(s0: State, es: seq<Event>, r: Reactor, pc: Pc) {
    RunFrom(s0, es) == Some(Alone(r, pc)) && Inv(Alone(r, pc))
  }

  lemma InOrderAt(s0: State, es: seq<Event>, r: Reactor, pc: Pc)
    requires At(s0, es, r, pc)
    ensures RunFrom(s0, es) == Some(Alone(r, pc)) && Honest(r) && TaskInv(r, pc)
  {
    assert Alone(r, pc).pcs[0] == pc;
  }

  lemma AtNext(s0: State, es: seq<Event>, r: Reactor, pc: Pc, e: Event, r': Reactor, pc': Pc)
    requires At(s0, es, r, pc) && Enabled(Alone(r, pc), e)
    requires Next(Alone(r, pc), e) == Alone(r', pc')
    ensures At(s0, es + [e], r', pc')
  {
    StepInv(Alone(r, pc), e);
    assert (es + [e])[..|es|] == es;
  }

  lemma AtWorld(s0: State, es: seq<Event>, r: Reactor, pc: Pc, e: Env)
    requires At(s0, es, r, pc)
    ensures At(s0, es + [World(e)], Apply(r, e), pc)
    ensures r.tick <= Apply(r, e).tick
  {
    EnvKeeps(r, e, 0);
    AtNext(s0, es, r, pc, World(e), Apply(r, e), pc);
  }

  lemma AtOwn(s0: State, es: seq<Event>, r: Reactor, pc: Pc, e: Event, r': Reactor, pc': Pc)
    requires At(s0, es, r, pc) && !e.World? && e.t == 0 && Enabled(Alone(r, pc), e)
    requires Next(Alone(r, pc), e).r == r' && Next(Alone(r, pc), e).pcs[0] == pc'
    ensures At(s0, es + [e], r', pc')
  {
    assert Next(Alone(r, pc), e).pcs == map[0 := pc'];
    AtNext(s0, es, r, pc, e, r', pc');
  }

  // ---------------------------------------------------------------- which turn a peek meets

  function TurnAt(script: seq<Turn>, n: nat): Turn {
    if n < |script| then script[n] else Turn([], None)
  }

  function Worlds(env: seq<Env>): seq<Event> {
    seq(|env|, i requires 0 <= i < |env| => World(env[i]))
  }

  lemma WorldsMore(env: seq<Env>, i: nat)
    requires i < |env|
    ensures Worlds(env[..i + 1]) == Worlds(env[..i]) + [World(env[i])]
  {
  }

  /** The events of a call, from its log: `log[0]` is what the caller did before the first
      turn of the script, and `log[n + 1]` what it did after turn `n`. */
  function Told(script: seq<Turn>, log: seq<seq<Event>>): seq<Event>
    requires log != []
  {
    var n := |log| - 1;
    if n == 0 then log[0] else Told(script, log[..n]) + Worlds(TurnAt(script, n - 1).env) + log[n]
  }

  /** Each peek fails exactly if the turn it meets says so. */
  predicate PeeksAsTold(script: seq<Turn>, log: seq<seq<Event>>) {
    forall n | 0 <= n < |log| ::
      && (Peek(0) in log[n] ==> n > 0 && TurnAt(script, n - 1).peekFails == None)
      && (PeekFails(0) in log[n] ==> n > 0 && TurnAt(script, n - 1).peekFails.Some?)
  }

  predicate SomeFailed(log: seq<seq<Event>>) {
    exists n :: 0 <= n < |log| && PeekFails(0) in log[n]
  }

  /** The log so far tells the run so far, and `left` of the script is left. */
  ghost predicate Story(script: seq<Turn>, log: seq<seq<Event>>, run: seq<Event>, left: seq<Turn>, failed: bool) {
    && log != [] && run == Told(script, log) && left == script[Min(|log| - 1, |script|)..]
    && PeeksAsTold(script, log) && failed == SomeFailed(log)
  }

  function Logged(log: seq<seq<Event>>, e: Event): seq<seq<Event>>
    requires log != []
  {
    log[|log| - 1 := log[|log| - 1] + [e]]
  }

  lemma StoryBegins(script: seq<Turn>)
    ensures Story(script, [[Call(0)]], [Call(0)], script, false)
  {
  }

  lemma StoryTurns(script: seq<Turn>, log: seq<seq<Event>>, run: seq<Event>, left: seq<Turn>)
    requires Story(script, log, run, left, false)
    ensures var t := if left == [] then Turn([], None) else left[0];
            && Story(script, log + [[]], run + Worlds(t.env), if left == [] then [] else left[1..], false)
            && |log + [[]]| > 1 && t == TurnAt(script, |log + [[]]| - 2)
  {
    var log' := log + [[]];
    var t := if left == [] then Turn([], None) else left[0];
    assert log'[..|log|] == log;
    assert forall n | 0 <= n < |log| :: log'[n] == log[n];
    assert run + Worlds(t.env) + [] == run + Worlds(t.env);
  }

  lemma {:induction false} ToldFrom(script: seq<Turn>, log: seq<seq<Event>>)
    requires log != [] && forall n | 0 <= n < |log| :: PeekFails(0) !in log[n]
    ensures PeekFails(0) !in Told(script, log)
  {
    if |log| > 1 {
      ToldFrom(script, log[..|log| - 1]);
    }
  }

  lemma StoryMeans(script: seq<Turn>, log: seq<seq<Event>>, run: seq<Event>, left: seq<Turn>, failed: bool)
    requires Story(script, log, run, left, failed)
    ensures log != [] && run == Told(script, log) && left == script[Min(|log| - 1, |script|)..]
    ensures PeeksAsTold(script, log) && failed == SomeFailed(log)
    ensures !failed ==> PeekFails(0) !in run
  {
    if !failed {
      forall n | 0 <= n < |log|
        ensures PeekFails(0) !in log[n]
      {
        assert !SomeFailed(log);
      }
      ToldFrom(script, log);
    }
  }

  lemma ToldOwn(script: seq<Turn>, log: seq<seq<Event>>, e: Event)
    requires log != []
    ensures Told(script, Logged(log, e)) == Told(script, log) + [e]
  {
    var n, log' := |log| - 1, Logged(log, e);
    hide TurnAt;
    hide Worlds;
    assert log'[..n] == log[..n];
    if n > 0 {
      var before := Told(script, log[..n]) + Worlds(TurnAt(script, n - 1).env);
      assert before + (log[n] + [e]) == before + log[n] + [e];
    }
  }

  lemma PeeksOwn(script: seq<Turn>, log: seq<seq<Event>>, e: Event)
    requires log != [] && PeeksAsTold(script, log) && !SomeFailed(log)
    requires e == Peek(0) ==> |log| > 1 && TurnAt(script, |log| - 2).peekFails == None
    requires e == PeekFails(0) ==> |log| > 1 && TurnAt(script, |log| - 2).peekFails.Some?
    ensures PeeksAsTold(script, Logged(log, e)) && SomeFailed(Logged(log, e)) == (e == PeekFails(0))
  {
    hide TurnAt;
    var n, log' := |log| - 1, Logged(log, e);
    assert forall x :: x in log'[n] <==> x in log[n] || x == e;
    assert forall m | 0 <= m < n :: log'[m] == log[m];
    assert PeekFails(0) !in log[n];
    assert e == PeekFails(0) ==> PeekFails(0) in log'[n];
  }

  lemma StoryOwn(script: seq<Turn>, log: seq<seq<Event>>, run: seq<Event>, left: seq<Turn>, e: Event)
    requires Story(script, log, run, left, false)
    requires e == Peek(0) ==> |log| > 1 && TurnAt(script, |log| - 2).peekFails == None
    requires e == PeekFails(0) ==> |log| > 1 && TurnAt(script, |log| - 2).peekFails.Some?
    ensures log != [] && |Logged(log, e)| == |log|
    ensures Story(script, Logged(log, e), run + [e], left, e == PeekFails(0))
  {
    ToldOwn(script, log, e);
    PeeksOwn(script, log, e);
    hide Told;
    hide PeeksAsTold;
    hide SomeFailed;
    hide TurnAt;
  }

  /** The call so far: where it has come, and the story that tells it. */
  ghost predicate Tale(
      s0: State, whole: seq<Turn>, log: seq<seq<Event>>, run: seq<Event>, r: Reactor, pc: Pc, left: seq<Turn>)
  {
    At(s0, run, r, pc) && Story(whole, log, run, left, false)
  }

  /** What the call comes to when it stops at `pc`, with or without a failed peek. */
  ghost predicate Ended(
      s0: State, whole: seq<Turn>, log: seq<seq<Event>>, run: seq<Event>, r: Reactor, pc: Pc, left: seq<Turn>,
      failed: bool)
  {
    && RunFrom(s0, run) == Some(Alone(r, pc)) && Honest(r)
    && log != [] && run == Told(whole, log) && left == whole[Min(|log| - 1, |whole|)..]
    && PeeksAsTold(whole, log)
    && failed == SomeFailed(log) == (PeekFails(0) in run)
  }

  lemma TaleIsAt(
      s0: State, whole: seq<Turn>, log: seq<seq<Event>>, run: seq<Event>, r: Reactor, pc: Pc, left: seq<Turn>)
    requires Tale(s0, whole, log, run, r, pc, left)
    ensures At(s0, run, r, pc)
  {
  }

  lemma NoWorlds(run: seq<Event>, env: seq<Env>)
    ensures run + Worlds(env[..0]) == run
  {
  }

  lemma TaleTurns(
      s0: State, whole: seq<Turn>, log: seq<seq<Event>>, run: seq<Event>, r: Reactor, pc: Pc, left: seq<Turn>,
      r': Reactor)
    requires Tale(s0, whole, log, run, r, pc, left)
    requires At(s0, run + Worlds((if left == [] then Turn([], None) else left[0]).env), r', pc)
    ensures var t := if left == [] then Turn([], None) else left[0];
            && Tale(s0, whole, log + [[]], run + Worlds(t.env), r', pc, if left == [] then [] else left[1..])
            && |log + [[]]| > 1 && t == TurnAt(whole, |log + [[]]| - 2)
  {
    hide At;
    StoryTurns(whole, log, run, left);
    hide Story;
    hide TurnAt;
    hide Worlds;
  }

  lemma TaleEnds(
      s0: State, whole: seq<Turn>, log: seq<seq<Event>>, run: seq<Event>, r: Reactor, pc: Pc, left: seq<Turn>)
    requires Tale(s0, whole, log, run, r, pc, left)
    ensures Ended(s0, whole, log, run, r, pc, left, false) && TaskInv(r, pc)
  {
    hide RunFrom;
    hide Told;
    InOrderAt(s0, run, r, pc);
    StoryMeans(whole, log, run, left, false);
  }

  lemma TaleOwn(
      s0: State, whole: seq<Turn>, log: seq<seq<Event>>, run: seq<Event>, r: Reactor, pc: Pc, left: seq<Turn>,
      e: Event, r': Reactor, pc': Pc)
    requires Tale(s0, whole, log, run, r, pc, left)
    requires !e.World? && e.t == 0 && Enabled(Alone(r, pc), e) && !e.PeekFails?
    requires Next(Alone(r, pc), e).r == r' && Next(Alone(r, pc), e).pcs[0] == pc'
    requires e == Peek(0) ==> |log| > 1 && TurnAt(whole, |log| - 2).peekFails == None
    ensures log != [] && Tale(s0, whole, Logged(log, e), run + [e], r', pc', left)
  {
    hide RunFrom;
    hide Told;
    AtOwn(s0, run, r, pc, e, r', pc');
    StoryOwn(whole, log, run, left, e);
  }

  lemma Calls(r: Reactor, whole: seq<Turn>)
    requires Honest(r)
    ensures Tale(Alone(r, Out), whole, [[Call(0)]], [Call(0)], r, Waiting(r.tick, 0), whole)
  {
    assert At(Alone(r, Out), [], r, Out);
    AtOwn(Alone(r, Out), [], r, Out, Call(0), r, Waiting(r.tick, 0));
    assert [] + [Call(0)] == [Call(0)];
    StoryBegins(whole);
  }

  lemma Awaits(
      s0: State, whole: seq<Turn>, log: seq<seq<Event>>, run: seq<Event>, r: Reactor, left: seq<Turn>, start: nat,
      turns: nat)
    requires Tale(s0, whole, log, run, r, Waiting(start, turns), left) && r.bit
    ensures log != []
    ensures Tale(s0, whole, Logged(log, Await(0)), run + [Await(0)], r, Awaited(start, turns + 1, r.tick), left)
  {
    hide At;
    hide Story;
    TaleOwn(s0, whole, log, run, r, Waiting(start, turns), left, Await(0), r, Awaited(start, turns + 1, r.tick));
  }

  lemma TriesOrSnaps(
      s0: State, whole: seq<Turn>, log: seq<seq<Event>>, run: seq<Event>, r: Reactor, left: seq<Turn>,
      start: nat, turns: nat, at: nat)
    requires Tale(s0, whole, log, run, r, Awaited(start, turns, at), left)
    ensures log != []
    ensures if r.bit then Tale(s0, whole, Logged(log, Snap(0)), run + [Snap(0)], r, Snapped(start, turns, r.tick), left)
            else Tale(s0, whole, Logged(log, TryEmpty(0)), run + [TryEmpty(0)], r, Waiting(start, turns), left)
  {
    hide At;
    hide Story;
    if r.bit {
      TaleOwn(s0, whole, log, run, r, Awaited(start, turns, at), left, Snap(0), r, Snapped(start, turns, r.tick));
    } else {
      TaleOwn(s0, whole, log, run, r, Awaited(start, turns, at), left, TryEmpty(0), r, Waiting(start, turns));
    }
  }

  lemma Peeks(
      s0: State, whole: seq<Turn>, log: seq<seq<Event>>, run: seq<Event>, r: Reactor, left: seq<Turn>,
      start: nat, turns: nat, at: nat)
    requires Tale(s0, whole, log, run, r, Snapped(start, turns, at), left)
    requires |log| > 1 && TurnAt(whole, |log| - 2).peekFails == None
    ensures Tale(s0, whole, Logged(log, Peek(0)), run + [Peek(0)],
                 r, if IsReadable(r) then Out else Blocked(start, turns, at), left)
  {
    hide At;
    hide Story;
    TaleOwn(s0, whole, log, run, r, Snapped(start, turns, at), left,
            Peek(0), r, if IsReadable(r) then Out else Blocked(start, turns, at));
  }

  lemma PeekErrs(
      s0: State, whole: seq<Turn>, log: seq<seq<Event>>, run: seq<Event>, r: Reactor, left: seq<Turn>,
      start: nat, turns: nat, at: nat)
    requires Tale(s0, whole, log, run, r, Snapped(start, turns, at), left)
    requires |log| > 1 && TurnAt(whole, |log| - 2).peekFails.Some?
    ensures |Logged(log, PeekFails(0))| == |log| && TaskInv(r, Snapped(start, turns, at))
    ensures Ended(s0, whole, Logged(log, PeekFails(0)), run + [PeekFails(0)], r, Out, left, true)
  {
    hide RunFrom;
    hide Told;
    var log', run' := Logged(log, PeekFails(0)), run + [PeekFails(0)];
    InOrderAt(s0, run, r, Snapped(start, turns, at));
    AtOwn(s0, run, r, Snapped(start, turns, at), PeekFails(0), r, Out);
    StoryOwn(whole, log, run, left, PeekFails(0));
    StoryMeans(whole, log', run', left, true);
    InOrderAt(s0, run', r, Out);
  }

  lemma Clears(
      s0: State, whole: seq<Turn>, log: seq<seq<Event>>, run: seq<Event>, r: Reactor, left: seq<Turn>,
      start: nat, turns: nat, at: nat)
    requires Tale(s0, whole, log, run, r, Blocked(start, turns, at), left)
    ensures log != []
    ensures Tale(s0, whole, Logged(log, ClearBit(0)), run + [ClearBit(0)], Clear(r, at), Waiting(start, turns), left)
  {
    hide At;
    hide Story;
    TaleOwn(s0, whole, log, run, r, Blocked(start, turns, at), left, ClearBit(0), Clear(r, at), Waiting(start, turns));
  }

  class Socket {
    var r: Reactor
    var script: seq<Turn>

    /** Other code runs, at a point where the run `es`, told by `log`, has brought the caller
        to `pc`. */
    method Interleave(
        ghost s0: State, ghost es: seq<Event>, ghost pc: Pc, ghost whole: seq<Turn>, ghost log: seq<seq<Event>>)
      returns (t: Turn, ghost es': seq<Event>, ghost log': seq<seq<Event>>)
      requires Tale(s0, whole, log, es, r, pc, script)
      modifies this
      ensures |script| <= |old(script)| && (old(script) != [] ==> |script| < |old(script)|)
      ensures Tale(s0, whole, log', es', r, pc, script) && (old(script) == [] ==> r == old(r))
      ensures |log'| > 1 && t == TurnAt(whole, |log'| - 2)
      ensures old(r.tick) <= r.tick
    {
      hide Tale;
      hide At;
      hide Apply;
      hide Worlds;
      hide TurnAt;
      TaleIsAt(s0, whole, log, es, r, pc, script);
      log' := log + [[]];
      t := if |script| == 0 then Turn([], None) else script[0];
      script := if |script| == 0 then [] else script[1..];
      es' := es;
      NoWorlds(es, t.env);
      var i := 0;
      while i < |t.env|
        invariant i <= |t.env| && (i == 0 ==> r == old(r))
        invariant script == if old(script) == [] then [] else old(script)[1..]
        invariant es' == es + Worlds(t.env[..i])
        invariant At(s0, es', r, pc) && old(r.tick) <= r.tick
      {
        AtWorld(s0, es', r, pc, t.env[i]);
        WorldsMore(t.env, i);
        es' := es' + [World(t.env[i])];
        r := Apply(r, t.env[i]);
        i := i + 1;
      }
      assert t.env[..i] == t.env;
      TaleTurns(s0, whole, log, es, old(r), pc, old(script), r);
    }

    /** `readable` is a run of the step system, told by `log` turn by turn; so it is sound,
        bounded, and never left waiting on data the driver is not about to report. It fails
        exactly when one of its peeks does, with that error, and that peek is its last step. */
    method Readable() returns (res: Outcome, turns: nat, ghost run: seq<Event>, ghost log: seq<seq<Event>>)
      requires Honest(r)
      modifies this
      ensures RunFrom(Alone(old(r), Out), run)
              == Some(Alone(r, if res.Pending? then Waiting(old(r.tick), turns) else Out))
      ensures log != [] && run == Told(old(script), log)
      ensures script == old(script)[Min(|log| - 1, |old(script)|)..]
      ensures forall n | 0 <= n < |log| ::
                && (Peek(0) in log[n] ==> n > 0 && TurnAt(old(script), n - 1).peekFails == None)
                && (PeekFails(0) in log[n] ==> n > 0 && TurnAt(old(script), n - 1).peekFails.Some?)
      ensures res.Failed? <==> exists n :: 0 <= n < |log| && PeekFails(0) in log[n]
      ensures res.Failed? <==> PeekFails(0) in run
      ensures res.Failed? ==> run[|run| - 1] == PeekFails(0)
      ensures res.Failed? ==> |log| > 1 && TurnAt(old(script), |log| - 2).peekFails == Some(res.code)
      ensures Honest(r)
      ensures res.Ready? ==> IsReadable(r) && run != [] && run[|run| - 1] == Peek(0)
      ensures res.Pending? ==> script == [] && !r.bit && (IsReadable(r) ==> r.edge)
      ensures old(r.tick) <= r.tick && turns <= 1 + r.tick - old(r.tick)
    {
      hide RunFrom;
      hide Tale;
      hide Told;
      hide Logged;
      hide TurnAt;
      ghost var s0, start, whole := Alone(r, Out), r.tick, script;
      Calls(r, script);
      turns, run, log := 0, [Call(0)], [[Call(0)]];
      while true
        invariant start == old(r.tick) && whole == old(script)
        invariant Tale(s0, whole, log, run, r, Waiting(start, turns), script)
        decreases |script|, r.bit
      {
        ghost var left, bit := |script|, r.bit;
        while !r.bit
          invariant |script| < left || (|script| == left && r.bit == bit)
          invariant Tale(s0, whole, log, run, r, Waiting(start, turns), script)
          decreases |script|
        {
          if |script| == 0 {
            TaleEnds(s0, whole, log, run, r, Waiting(start, turns), script);
            return Pending, turns, run, log;
          }
          var other;
          other, run, log := Interleave(s0, run, Waiting(start, turns), whole, log);
        }
        Awaits(s0, whole, log, run, r, script, start, turns);
        turns := turns + 1;
        ghost var await := r.tick;
        var t;
        t, run, log := Interleave(s0, run + [Await(0)], Awaited(start, turns, await), whole, Logged(log, Await(0)));
        TriesOrSnaps(s0, whole, log, run, r, script, start, turns, await);
        if !r.bit {
          run, log := run + [TryEmpty(0)], Logged(log, TryEmpty(0));
          continue;
        }
        var at := r.tick;
        t, run, log := Interleave(s0, run + [Snap(0)], Snapped(start, turns, at), whole, Logged(log, Snap(0)));
        if t.peekFails.Some? {
          PeekErrs(s0, whole, log, run, r, script, start, turns, at);
          return Failed(t.peekFails.value), turns, run + [PeekFails(0)], Logged(log, PeekFails(0));
        }
        Peeks(s0, whole, log, run, r, script, start, turns, at);
        TaleEnds(s0, whole, log, run, r, Snapped(start, turns, at), script);
        run, log := run + [Peek(0)], Logged(log, Peek(0));
        if IsReadable(r) {
          TaleEnds(s0, whole, log, run, r, Out, script);
          return Ready, turns, run, log;
        }
        t, run, log := Interleave(s0, run, Blocked(start, turns, at), whole, log);
        Clears(s0, whole, log, run, r, script, start, turns, at);
        run, log := run + [ClearBit(0)], Logged(log, ClearBit(0));
        r := Clear(r, at);
      }
    }
  }
}
