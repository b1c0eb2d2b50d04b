/** The conformance suite's mock pool: an atomic counter that an acquire bumps first and
    tests afterwards, taking it back when the pool was full. Any number of threads
    interleave the two or three atomic steps of their acquires and the one of their drops. */
module CounterPool {
  import opened Core

  type Thread = nat

  /** Inside `acquire`: `Added` has bumped the counter and seen `prev`; `Losing` found the
      pool full and has not yet taken its bump back. */
  datatype Pc = Idle | Added(prev: nat) | Losing

  /** `slabs` are the live slabs; slabs have no identity beyond being counted. */
  datatype State = State(capacity: nat, counter: nat, slabs: nat, pcs: map<Thread, Pc>)

  datatype Event = Add(t: Thread) | Test(t: Thread) | TakeBack(t: Thread) | DropSlab

  predicate Enabled(s: State, e: Event) {
    match e
    case Add(t) => t in s.pcs && s.pcs[t].Idle?
    case Test(t) => t in s.pcs && s.pcs[t].Added?
    case TakeBack(t) => t in s.pcs && s.pcs[t].Losing?
    case DropSlab => s.slabs > 0
  }

  /** The counter is an unsigned machine word: taking from zero would wrap. */
  function Minus1(n: nat): nat {
    if n == 0 then 0xFFFF_FFFF_FFFF_FFFF else n - 1
  }

  function Next(s: State, e: Event): State
    requires Enabled(s, e)
  {
    match e
    case Add(t) => s.(counter := s.counter + 1, pcs := s.pcs[t := Added(s.counter)])
    case Test(t) =>
      if s.pcs[t].prev >= s.capacity then s.(pcs := s.pcs[t := Losing])
      else s.(slabs := s.slabs + 1, pcs := s.pcs[t := Idle])
    case TakeBack(t) => s.(counter := Minus1(s.counter), pcs := s.pcs[t := Idle])
    case DropSlab => s.(counter := Minus1(s.counter), slabs := s.slabs - 1)
  }

  /** Attempts that will get a slab, and attempts that will not. */
  function Winners(s: State): set<Thread> {
    set t | t in s.pcs && s.pcs[t].Added? && s.pcs[t].prev < s.capacity
  }

  function Losers(s: State): set<Thread> {
    set t | t in s.pcs && (s.pcs[t].Losing? || (s.pcs[t].Added? && s.pcs[t].prev >= s.capacity))
  }

  predicate Inv(s: State) {
    && s.counter == s.slabs + |Winners(s)| + |Losers(s)|
    && s.slabs + |Winners(s)| <= s.capacity
  }

  lemma AddInv(s: State, t: Thread)
    requires Inv(s) && Enabled(s, Add(t))
    ensures Inv(Next(s, Add(t)))
  {
    var s' := Next(s, Add(t));
    if s.counter < s.capacity {
      assert Winners(s') == Winners(s) + {t} && Losers(s') == Losers(s);
    } else {
      assert Winners(s') == Winners(s) && Losers(s') == Losers(s) + {t};
    }
  }

  lemma TestInv(s: State, t: Thread)
    requires Inv(s) && Enabled(s, Test(t))
    ensures Inv(Next(s, Test(t)))
  {
    var s' := Next(s, Test(t));
    if s.pcs[t].prev >= s.capacity {
      assert Winners(s') == Winners(s) && Losers(s') == Losers(s);
    } else {
      assert Winners(s) == Winners(s') + {t} && t !in Winners(s') && Losers(s') == Losers(s);
    }
  }

  lemma TakeBackInv(s: State, t: Thread)
    requires Inv(s) && Enabled(s, TakeBack(t))
    ensures Inv(Next(s, TakeBack(t)))
  {
    var s' := Next(s, TakeBack(t));
    assert Winners(s') == Winners(s);
    assert Losers(s) == Losers(s') + {t} && t !in Losers(s');
  }

  lemma DropInv(s: State)
    requires Inv(s) && Enabled(s, DropSlab)
    ensures Inv(Next(s, DropSlab))
  {
    var s' := Next(s, DropSlab);
    assert Winners(s') == Winners(s) && Losers(s') == Losers(s);
  }

  ghost predicate IsRun(ss: seq<State>, es: seq<Event>, capacity: nat) {
    && |ss| == |es| + 1
    && ss[0].capacity == capacity && ss[0].counter == 0 && ss[0].slabs == 0
    && (forall t | t in ss[0].pcs :: ss[0].pcs[t].Idle?)
    && forall i | 0 <= i < |es| :: Enabled(ss[i], es[i]) && ss[i + 1] == Next(ss[i], es[i])
  }

  lemma {:induction false} RunInv(ss: seq<State>, es: seq<Event>, capacity: nat, i: nat)
    requires IsRun(ss, es, capacity) && i < |ss|
    ensures Inv(ss[i]) && ss[i].capacity == capacity
  {
    if i == 0 {
      assert Winners(ss[0]) == {} && Losers(ss[0]) == {};
    } else {
      RunInv(ss, es, capacity, i - 1);
      match es[i - 1] {
        case Add(t) => AddInv(ss[i - 1], t);
        case Test(t) => TestInv(ss[i - 1], t);
        case TakeBack(t) => TakeBackInv(ss[i - 1], t);
        case DropSlab => DropInv(ss[i - 1]);
      }
    }
  }

  /** Attempts between their first and last atomic step. */
  function InFlight(s: State): set<Thread> {
    set t | t in s.pcs && !s.pcs[t].Idle?
  }

  /** In every state of every run: the counter is the live slabs plus the attempts in
      flight, slabs never exceed the capacity, the counter exceeds it by no more than the
      attempts that will fail, it never wraps, and with nothing in flight it is exact. */
  lemma CounterIsHonest(ss: seq<State>, es: seq<Event>, capacity: nat, i: nat)
    requires IsRun(ss, es, capacity) && i < |ss|
    ensures ss[i].counter == ss[i].slabs + |InFlight(ss[i])|
    ensures ss[i].slabs <= capacity
    ensures ss[i].counter <= capacity + |Losers(ss[i])| <= capacity + |InFlight(ss[i])|
    ensures InFlight(ss[i]) == {} ==> ss[i].counter == ss[i].slabs
    ensures forall e | Enabled(ss[i], e) && (e.TakeBack? || e.DropSlab?) :: ss[i].counter > 0
  {
    RunInv(ss, es, capacity, i);
    var s := ss[i];
    assert InFlight(s) == Winners(s) + Losers(s) && Winners(s) !! Losers(s);
    forall e | Enabled(s, e) && e.TakeBack?
      ensures s.counter > 0
    {
      assert e.t in Losers(s);
    }
  }

  /** An attempt is decided by its first step: it fails exactly when slabs and attempts in
      flight already fill the pool, which can be while a slab is free. */
  lemma AttemptFailsIff(ss: seq<State>, es: seq<Event>, capacity: nat, i: nat, t: Thread)
    requires IsRun(ss, es, capacity) && i < |ss| && Enabled(ss[i], Add(t))
    ensures t in Losers(Next(ss[i], Add(t))) <==> ss[i].slabs + |InFlight(ss[i])| >= capacity
  {
    CounterIsHonest(ss, es, capacity, i);
    RunInv(ss, es, capacity, i);
    assert Next(ss[i], Add(t)).pcs[t] == Added(ss[i].counter);
  }

  /** A run of a one-slab pool in which an attempt fails although no slab is live: another
      failing attempt has not yet taken its bump back. */
  lemma SpuriousFailure()
    ensures exists ss: seq<State>, es: seq<Event> ::
              && IsRun(ss, es, 1)
              && var last := ss[|ss| - 1];
                 last.slabs == 0 && 2 in last.pcs && last.pcs[2].Losing?
  {
    var es := [Add(0), Test(0), Add(1), DropSlab, Add(2), Test(2)];
    var s0 := State(1, 0, 0, map[0 := Idle, 1 := Idle, 2 := Idle]);
    var s1 := Next(s0, es[0]);
    var s2 := Next(s1, es[1]);
    var s3 := Next(s2, es[2]);
    var s4 := Next(s3, es[3]);
    var s5 := Next(s4, es[4]);
    var s6 := Next(s5, es[5]);
    var ss := [s0, s1, s2, s3, s4, s5, s6];
    assert IsRun(ss, es, 1);
    assert ss[|ss| - 1] == s6;
  }
}
