/**
background (streaming/lifecycle.go): the goroutines a process started, and the bounded stop
that cancels their context, runs the stop hooks and waits for them all. Go, OnStop and Stop
calls, goroutines and the stops' own helpers take interleaved steps; each section under the
mutex is one step.
*/
module Background {
  import opened Sums

  /** One Stop call: its hooks (by number of registration), its helper's progress, its answer. */
  datatype Stopper = Stopper(
    lo: nat, hi: nat,    // the hooks it took
    next: nat,           // those before it have finished
    inHook: bool,        // next is running
    closed: bool,        // the helper closed done
    answer: Answer)

  datatype Answer = Pending | Stopped | TimedOut

  datatype State = State(
    done: bool,          // the context has ended
    added: nat,          // goroutines started so far
    running: set<nat>,   // those that have not finished (the wait group's)
    hooks: nat,          // hooks registered so far
    taken: nat,          // those before it were taken by a Stop
    ran: seq<nat>,       // hooks in the order they began
    stops: seq<Stopper>)

  datatype Action =
    | Go
    | GoEnd(g: nat)
    | ParentEnds
    | OnStop
    | StopBegins
    | HookBegins(j: nat)
    | HookEnds(j: nat)
    | HelperDone(j: nat)
    | Answers(j: nat)
    | TimesOut(j: nat)

  predicate Is(s: State, j: nat) { j < |s.stops| }

  function Put(s: State, j: nat, t: Stopper): State
    requires Is(s, j)
  {
    s.(stops := s.stops[j := t])
  }

  /** One step; an action that cannot be taken now changes nothing. */
  function Next(s: State, a: Action): State {
    match a
    case Go => if s.done then s else s.(added := s.added + 1, running := s.running + {s.added})
    case GoEnd(g) => s.(running := s.running - {g})
    case ParentEnds => s.(done := true)
    case OnStop => s.(hooks := s.hooks + 1)
    case StopBegins =>
      s.(done := true, taken := s.hooks,
         stops := s.stops + [Stopper(s.taken, s.hooks, s.taken, false, false, Pending)])
    case HookBegins(j) =>
      if Is(s, j) && s.stops[j].next < s.stops[j].hi && !s.stops[j].inHook then
        Put(s, j, s.stops[j].(inHook := true)).(ran := s.ran + [s.stops[j].next])
      else s
    case HookEnds(j) =>
      if Is(s, j) && s.stops[j].inHook then
        Put(s, j, s.stops[j].(inHook := false, next := s.stops[j].next + 1))
      else s
    case HelperDone(j) =>
      if Is(s, j) && s.stops[j].next == s.stops[j].hi && s.running == {} then Put(s, j, s.stops[j].(closed := true)) else s
    case Answers(j) =>
      if Is(s, j) && s.stops[j].closed && s.stops[j].answer.Pending? then Put(s, j, s.stops[j].(answer := Stopped)) else s
    case TimesOut(j) =>
      if Is(s, j) && s.stops[j].answer.Pending? then Put(s, j, s.stops[j].(answer := TimedOut)) else s
  }

  function After(s: State, run: seq<Action>): State {
    if run == [] then s else Next(After(s, run[..|run| - 1]), run[|run| - 1])
  }

  predicate Init(s: State) { s == State(false, 0, {}, 0, 0, [], []) }

  function Count(ran: seq<nat>, h: nat): nat {
    if ran == [] then 0 else Count(ran[..|ran| - 1], h) + (if ran[|ran| - 1] == h then 1 else 0)
  }

  /** How often hook h began under t. */
  function Begun(t: Stopper, h: nat): int {
    if t.lo <= h < t.hi && (h < t.next || (h == t.next && t.inHook)) then 1 else 0
  }

  function BegunAt(h: nat): Stopper -> int { (t: Stopper) => Begun(t, h) }

  predicate Good(t: Stopper, running: set<nat>) {
    && t.lo <= t.next <= t.hi
    && (t.inHook ==> t.next < t.hi)
    && (t.closed ==> running == {} && t.next == t.hi)
    && (t.answer.Stopped? ==> t.closed)
  }

  /** The Stops took the hooks in turn, each those registered since the one before it. */
  ghost predicate Shape(s: State) {
    && (forall j :: 0 <= j < |s.stops| ==> Good(s.stops[j], s.running))
    && (forall j :: 0 < j < |s.stops| ==> s.stops[j].lo == s.stops[j - 1].hi)
    && (if s.stops == [] then s.taken == 0
        else s.done && s.stops[0].lo == 0 && s.stops[|s.stops| - 1].hi == s.taken)
    && s.taken <= s.hooks
  }

  /** How often hook h began is how often it began under the Stops. */
  predicate Tallied(ran: seq<nat>, stops: seq<Stopper>, h: nat) { Count(ran, h) == Sum(stops, BegunAt(h)) }

  ghost predicate Sound(s: State) { Shape(s) && forall h :: Tallied(s.ran, s.stops, h) }

  lemma CountMore(ran: seq<nat>, x: nat, h: nat)
    ensures Count(ran + [x], h) == Count(ran, h) + (if x == h then 1 else 0)
  {
    assert (ran + [x])[..|ran|] == ran;
  }

  lemma PutKeepsShape(s: State, j: nat, t: Stopper, ran: seq<nat>)
    requires Shape(s) && Is(s, j) && Good(t, s.running) && t.lo == s.stops[j].lo && t.hi == s.stops[j].hi
    ensures Shape(Put(s, j, t).(ran := ran))
  {
  }

  /** A Stop's helper moves on: what it began is what the record of begun hooks gained. */
  lemma PutKeepsSound(s: State, j: nat, t: Stopper, ran: seq<nat>)
    requires Sound(s) && Is(s, j) && Good(t, s.running)
    requires t.lo == s.stops[j].lo && t.hi == s.stops[j].hi
    requires forall h :: Count(ran, h) == Count(s.ran, h) + Begun(t, h) - Begun(s.stops[j], h)
    ensures Sound(Put(s, j, t).(ran := ran))
  {
    var u := Put(s, j, t).(ran := ran);
    PutKeepsShape(s, j, t, ran);
    forall h ensures Tallied(ran, u.stops, h) {
      assert Tallied(s.ran, s.stops, h);
      SumUpdate(s.stops, j, t, BegunAt(h));
    }
  }

  lemma StopBeginsKeepsShape(s: State)
    requires Shape(s)
    ensures Shape(Next(s, StopBegins))
  {
    var t := Next(s, StopBegins);
    forall j | 0 <= j < |t.stops| ensures Good(t.stops[j], t.running) {
      if j < |s.stops| { assert t.stops[j] == s.stops[j]; }
    }
  }

  lemma StopBeginsKeepsSound(s: State)
    requires Sound(s)
    ensures Sound(Next(s, StopBegins))
  {
    StopBeginsKeepsShape(s);
    var t := Stopper(s.taken, s.hooks, s.taken, false, false, Pending);
    forall h ensures Tallied(s.ran, s.stops + [t], h) {
      assert Tallied(s.ran, s.stops, h);
      SumAppend(s.stops, t, BegunAt(h));
    }
  }

  lemma HookBeginsKeepsSound(s: State, j: nat)
    requires Sound(s) && Next(s, HookBegins(j)) != s
    ensures Sound(Next(s, HookBegins(j)))
  {
    var t := s.stops[j];
    assert Good(t, s.running);
    forall h ensures Count(s.ran + [t.next], h) ==
                       Count(s.ran, h) + Begun(t.(inHook := true), h) - Begun(t, h) {
      CountMore(s.ran, t.next, h);
    }
    PutKeepsSound(s, j, t.(inHook := true), s.ran + [t.next]);
  }

  lemma HelperKeepsSound(s: State, a: Action)
    requires Sound(s) && Next(s, a) != s
    requires a.HookBegins? || a.HookEnds? || a.HelperDone? || a.Answers? || a.TimesOut?
    ensures Sound(Next(s, a))
  {
    var j := a.j;
    var t := s.stops[j];
    assert Good(t, s.running);
    match a
    case HookBegins(_) => HookBeginsKeepsSound(s, j);
    case HookEnds(_) => PutKeepsSound(s, j, t.(inHook := false, next := t.next + 1), s.ran);
    case HelperDone(_) => PutKeepsSound(s, j, t.(closed := true), s.ran);
    case Answers(_) => PutKeepsSound(s, j, t.(answer := Stopped), s.ran);
    case TimesOut(_) => PutKeepsSound(s, j, t.(answer := TimedOut), s.ran);
  }

  lemma StepKeepsSound(s: State, a: Action)
    requires Sound(s)
    ensures Sound(Next(s, a))
  {
    match a
    case Go => if !s.done { assert s.stops == []; }
    case GoEnd(_) =>
    case ParentEnds =>
    case OnStop =>
    case StopBegins => StopBeginsKeepsSound(s);
    case _ => if Next(s, a) != s { HelperKeepsSound(s, a); }
  }

  lemma {:induction false} RunKeepsSound(s: State, run: seq<Action>)
    requires Sound(s)
    ensures Sound(After(s, run))
  {
    if run != [] {
      RunKeepsSound(s, run[..|run| - 1]);
      StepKeepsSound(After(s, run[..|run| - 1]), run[|run| - 1]);
    }
  }

  /** Once the context has ended no Go adds a goroutine, and what runs only dwindles. */
  lemma {:induction false} NoGoAfterTheEnd(s: State, run: seq<Action>)
    requires s.done
    ensures After(s, run).done && After(s, run).added == s.added && After(s, run).running <= s.running
  {
    if run != [] { NoGoAfterTheEnd(s, run[..|run| - 1]); }
  }

  /** A Stop keeps the hooks it took. */
  predicate Keeps(s: State, t: State, j: nat) {
    Is(s, j) ==> Is(t, j) && t.stops[j].lo == s.stops[j].lo && t.stops[j].hi == s.stops[j].hi
  }

  lemma {:induction false} StopKeepsItsHooks(s: State, run: seq<Action>, j: nat)
    ensures Keeps(s, After(s, run), j)
  {
    if run != [] {
      StopKeepsItsHooks(s, run[..|run| - 1], j);
      StepKeepsItsHooks(After(s, run[..|run| - 1]), run[|run| - 1], j);
    }
  }

  lemma StepKeepsItsHooks(s: State, a: Action, j: nat)
    ensures Keeps(s, Next(s, a), j)
  {
  }

  lemma {:induction false} Ordered(s: State, i: nat, j: nat)
    requires Shape(s) && i <= j < |s.stops|
    ensures s.stops[i].hi <= s.stops[j].hi && s.stops[i].lo <= s.stops[j].lo
    decreases j - i
  {
    if i < j { Ordered(s, i + 1, j); assert Good(s.stops[i], s.running) && s.stops[i + 1].lo == s.stops[i].hi; }
  }

  /** Each hook is one Stop's: how often it began is how often it began there. */
  lemma BegunOnce(s: State, j: nat, h: nat)
    requires Sound(s) && Is(s, j) && s.stops[j].lo <= h < s.stops[j].hi
    ensures Count(s.ran, h) == Begun(s.stops[j], h)
  {
    assert Tallied(s.ran, s.stops, h);
    var others := s.stops[j := s.stops[j].(lo := 0, hi := 0, next := 0)];
    SumUpdate(s.stops, j, others[j], BegunAt(h));
    forall i | 0 <= i < |others| ensures Begun(others[i], h) == 0 {
      if i < j { Ordered(s, i, j - 1); assert s.stops[j].lo == s.stops[j - 1].hi; }
      if j < i { Ordered(s, j + 1, i); assert s.stops[j + 1].lo == s.stops[j].hi; }
    }
    SumZero(others, BegunAt(h));
  }

  lemma {:induction false} SumZero(stops: seq<Stopper>, w: Stopper -> int)
    requires forall i :: 0 <= i < |stops| ==> w(stops[i]) == 0
    ensures Sum(stops, w) == 0
  {
    if stops != [] {
      var p := stops[..|stops| - 1];
      assert forall i :: 0 <= i < |p| ==> p[i] == stops[i];
      SumZero(p, w);
    }
  }

  lemma NotTakenNotBegun(s: State, h: nat)
    requires Sound(s) && s.taken <= h
    ensures Count(s.ran, h) == 0
  {
    assert Tallied(s.ran, s.stops, h);
    forall i | 0 <= i < |s.stops| ensures Begun(s.stops[i], h) == 0 { Ordered(s, i, |s.stops| - 1); }
    SumZero(s.stops, BegunAt(h));
  }

  /** No hook ever runs twice, however many Stops there are. */
  lemma HookRunsAtMostOnce(s: State, run: seq<Action>, h: nat)
    requires Init(s)
    ensures Count(After(s, run).ran, h) <= 1
  {
    RunKeepsSound(s, run);
    var t := After(s, run);
    if h < t.taken {
      var j := Taker(t, h);
      BegunOnce(t, j, h);
    } else {
      NotTakenNotBegun(t, h);
    }
  }

  /** The Stop that took a hook. */
  lemma Taker(s: State, h: nat) returns (j: nat)
    requires Sound(s) && h < s.taken
    ensures Is(s, j) && s.stops[j].lo <= h < s.stops[j].hi
  {
    j := |s.stops| - 1;
    while h < s.stops[j].lo
      invariant 0 <= j < |s.stops| && h < s.stops[j].hi
      decreases j
    {
      j := j - 1;
    }
  }

  lemma {:induction false} RunsJoin(s: State, a: seq<Action>, b: seq<Action>)
    ensures After(s, a + b) == After(After(s, a), b)
  {
    if b == [] {
      assert a + b == a;
    } else {
      var n := |b| - 1;
      RunsJoin(s, a, b[..n]);
      assert (a + b)[..|a + b| - 1] == a + b[..n];
    }
  }

  /** A hook of a Stop has finished. */
  predicate Finished(t: Stopper, h: nat) { h < t.next }

  /**
  A Stop, in a run before it and a run after it: it cancels for good, and it answers true
  only when no goroutine runs (nor ever will) and each hook it took has begun once and
  finished. The first Stop's hooks are all those registered before it.
  */
  lemma StopAnswersTruly(s: State, before: seq<Action>, after: seq<Action>)
    requires Init(s)
    ensures var b, t := After(s, before), After(s, before + [StopBegins] + after);
            var j := |b.stops|;
            && t.done && t.added == b.added
            && Is(t, j) && t.stops[j].hi == b.hooks
            && (j == 0 ==> t.stops[j].lo == 0)
            && (t.stops[j].answer.Stopped? ==>
                  && t.running == {}
                  && (forall h :: t.stops[j].lo <= h < b.hooks ==> Count(t.ran, h) == 1 && Finished(t.stops[j], h)))
  {
    RunKeepsSound(s, before);
    var b := After(s, before);
    assert (before + [StopBegins])[..|before|] == before;
    var c := After(s, before + [StopBegins]);
    assert c == Next(b, StopBegins);
    StopBeginsKeepsSound(b);
    RunsJoin(s, before + [StopBegins], after);
    NoGoAfterTheEnd(c, after);
    StopKeepsItsHooks(c, after, |b.stops|);
    RunKeepsSound(c, after);
    var t := After(c, after);
    TrueMeansFinished(t, |b.stops|);
  }

  lemma TrueMeansFinished(t: State, j: nat)
    requires Sound(t) && Is(t, j)
    ensures t.stops[j].answer.Stopped? ==>
              && t.running == {}
              && (forall h :: t.stops[j].lo <= h < t.stops[j].hi ==> Count(t.ran, h) == 1 && Finished(t.stops[j], h))
  {
    assert Good(t.stops[j], t.running);
    forall h | t.stops[j].lo <= h < t.stops[j].hi ensures Count(t.ran, h) == Begun(t.stops[j], h) { BegunOnce(t, j, h); }
  }

  /** After a Stop that answered true no goroutine runs, whatever is called after it. */
  lemma NothingRunsAfterTrue(s: State, run: seq<Action>, more: seq<Action>, j: nat)
    requires Init(s) && Is(After(s, run), j) && After(s, run).stops[j].answer.Stopped?
    ensures After(s, run + more).running == {} && After(s, run + more).added == After(s, run).added
  {
    RunKeepsSound(s, run);
    RunsJoin(s, run, more);
    NoGoAfterTheEnd(After(s, run), more);
  }

  /** A hook registered after the last Stop waits for a next one: it has not run. */
  lemma LateHookWaits(s: State, run: seq<Action>, h: nat)
    requires Init(s) && After(s, run).taken <= h < After(s, run).hooks
    ensures Count(After(s, run).ran, h) == 0
  {
    RunKeepsSound(s, run);
    NotTakenNotBegun(After(s, run), h);
  }

  // ---------------------------------------------------------------------
  // The calls
  // ---------------------------------------------------------------------

  /** The others' steps, all but the answer of the j-th Stop. */
  function Took(s: State, acts: seq<Action>, j: nat): State {
    if acts == [] then s
    else
      var a, t := acts[|acts| - 1], Took(s, acts[..|acts| - 1], j);
      if a == Answers(j) || a == TimesOut(j) then t else Next(t, a)
  }

  function TookTurns(s: State, env: nat -> seq<Action>, j: nat, n: nat): State {
    if n == 0 then s else Took(TookTurns(s, env, j, n - 1), env(n - 1), j)
  }

  /** By the n-th of the others' turns the j-th Stop's hooks and every goroutine have finished. */
  predicate DoneBy(s: State, env: nat -> seq<Action>, j: nat, n: nat) {
    var t := TookTurns(s, env, j, n);
    Is(t, j) && t.stops[j].closed
  }

  /** The shared state, changed one section at a time since newBackground. */
  class Shared {
    var st: State
    ghost var run: seq<Action>

    ghost predicate Traced()
      reads this
    {
      st == After(State(false, 0, {}, 0, 0, [], []), run) && Sound(st)
    }

    constructor ()
      ensures Traced() && run == []
    {
      st := State(false, 0, {}, 0, 0, [], []);
      run := [];
    }

    method Do(a: Action)
      requires Traced()
      modifies this
      ensures Traced() && st == Next(old(st), a) && run == old(run) + [a]
    {
      assert (run + [a])[..|run|] == run;
      StepKeepsSound(st, a);
      run := run + [a];
      st := Next(st, a);
    }

    /** Go; true: fn runs on its own goroutine now. */
    method Start() returns (started: bool)
      requires Traced()
      modifies this
      ensures Traced() && started == !old(st).done
      ensures started ==> st.running == old(st).running + {old(st).added} && st.added == old(st).added + 1
      ensures !started ==> st == old(st)
    {
      started := !st.done;
      Do(Go);
    }

    method Register() returns (hook: nat)
      requires Traced()
      modifies this
      ensures Traced() && hook == old(st).hooks && st == old(st).(hooks := hook + 1)
    {
      hook := st.hooks;
      Do(OnStop);
    }

    method OneOther(a: Action, j: nat)
      requires Traced() && Is(st, j) && st.stops[j].answer.Pending?
      modifies this
      ensures Traced() && Is(st, j) && st.stops[j].answer.Pending? && st.stops[j].hi == old(st).stops[j].hi
      ensures st == if a == Answers(j) || a == TimesOut(j) then old(st) else Next(old(st), a)
    {
      if a != Answers(j) && a != TimesOut(j) { Do(a); }
    }

    /** Steps of the others, this Stop's helper included: all but its answer. */
    method Others(acts: seq<Action>, j: nat)
      requires Traced() && Is(st, j) && st.stops[j].answer.Pending?
      modifies this
      ensures Traced() && Is(st, j) && st.stops[j].answer.Pending? && st.stops[j].hi == old(st).stops[j].hi
      ensures st == Took(old(st), acts, j)
    {
      for k := 0 to |acts|
        invariant Traced() && Is(st, j) && st.stops[j].answer.Pending? && st.stops[j].hi == old(st).stops[j].hi
        invariant st == Took(old(st), acts[..k], j)
      {
        assert acts[..k + 1][..k] == acts[..k];
        OneOther(acts[k], j);
      }
      assert acts[..|acts|] == acts;
    }

    /** Stop, its timer at the last of the others' turns: it answers true exactly when its helper was done by one of them. */
    method Stop(turns: nat, env: nat -> seq<Action>) returns (stopped: bool)
      requires Traced()
      modifies this
      ensures Traced() && st.done
      ensures Is(st, |old(st).stops|) && st.stops[|old(st).stops|].hi == old(st).hooks
      ensures stopped ==> st.running == {} && st.stops[|old(st).stops|].next == old(st).hooks
      ensures st.stops[|old(st).stops|].answer == (if stopped then Stopped else TimedOut)
      ensures stopped <==>
              exists n :: 0 < n <= turns && DoneBy(Next(old(st), StopBegins), env, |old(st).stops|, n)
    {
      var j := |st.stops|;
      Do(StopBegins);
      stopped := Await(j, turns, env);
      if stopped { Do(Answers(j)); } else { Do(TimesOut(j)); }
    }

    /** Until the helper is done, or the timer. */
    method Await(j: nat, turns: nat, env: nat -> seq<Action>) returns (closed: bool)
      requires Traced() && Is(st, j) && st.stops[j].answer.Pending?
      modifies this
      ensures Traced() && Is(st, j) && st.stops[j].hi == old(st).stops[j].hi
      ensures st.stops[j].answer.Pending? && (closed ==> st.stops[j].closed)
      ensures closed <==> exists n :: 0 < n <= turns && DoneBy(old(st), env, j, n)
    {
      for n := 0 to turns
        invariant Traced() && Is(st, j) && st.stops[j].answer.Pending? && st.stops[j].hi == old(st).stops[j].hi
        invariant st == TookTurns(old(st), env, j, n)
        invariant forall m :: 0 < m <= n ==> !DoneBy(old(st), env, j, m)
      {
        Others(env(n), j);
        assert st == TookTurns(old(st), env, j, n + 1);
        if st.stops[j].closed {
          assert DoneBy(old(st), env, j, n + 1);
          return true;
        }
      }
      closed := false;
    }
  }
}
