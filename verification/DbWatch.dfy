/**
dbWatch (streaming/offline.go): tells whether the home's database answers, and wakes who
waits for it. Any number of set calls and waiters take interleaved steps: an atomic swap of
down, or one section under the mutex that takes, makes or closes the channel.
*/
module DbWatch {

  datatype Option<T> = None | Some(value: T)

  /** One wait call. Early and Late are the other order: down read before the channel is taken. */
  datatype Waiter =
    | Fresh              // about to take the channel
    | Holding(ch: nat)   // has it; about to read down
    | Blocked(ch: nat)   // down read true; waits for the channel
    | Returned
    | Cancelled
    | Early              // the other order: about to read down
    | Late               // the other order: down read true, no channel yet

  datatype State = State(
    down: bool,
    back: Option<nat>,   // the channel the next one back closes
    closed: set<nat>,
    made: nat,           // channels made so far
    closers: nat,        // set(false) calls past their swap, before their close
    waiters: seq<Waiter>)

  datatype Action =
    | Swap(to: bool)
    | CloseBack
    | Arrive(late: bool)
    | Take(i: nat)
    | ReadDown(i: nat)
    | Wake(i: nat)
    | Cancel(i: nat)

  predicate Is(s: State, i: nat) { i < |s.waiters| }

  function Put(s: State, i: nat, w: Waiter): State
    requires Is(s, i)
  {
    s.(waiters := s.waiters[i := w])
  }

  /** backCh: the channel the database's return closes, made when there is none. */
  function BackCh(s: State): (State, nat) {
    match s.back
    case Some(ch) => (s, ch)
    case None => (s.(back := Some(s.made), made := s.made + 1), s.made)
  }

  /** One step; an action that cannot be taken now changes nothing. */
  function Next(s: State, a: Action): State {
    match a
    case Swap(to) =>
      if s.down == to then s
      else if to then s.(down := true)
      else s.(down := false, closers := s.closers + 1)
    case CloseBack =>
      if s.closers == 0 then s
      else
        var closed := if s.back.Some? then {s.back.value} else {};
        s.(closed := s.closed + closed, back := None, closers := s.closers - 1)
    case Arrive(late) => s.(waiters := s.waiters + [if late then Early else Fresh])
    case Take(i) =>
      if Is(s, i) && s.waiters[i].Fresh? then
        var (t, ch) := BackCh(s);
        Put(t, i, Holding(ch))
      else if Is(s, i) && s.waiters[i].Late? then
        var (t, ch) := BackCh(s);
        Put(t, i, Blocked(ch))
      else s
    case ReadDown(i) =>
      if Is(s, i) && s.waiters[i].Holding? then
        Put(s, i, if s.down then Blocked(s.waiters[i].ch) else Returned)
      else if Is(s, i) && s.waiters[i].Early? then Put(s, i, if s.down then Late else Returned)
      else s
    case Wake(i) =>
      if Is(s, i) && s.waiters[i].Blocked? && s.waiters[i].ch in s.closed then Put(s, i, Fresh) else s
    case Cancel(i) => if Is(s, i) && s.waiters[i].Blocked? then Put(s, i, Cancelled) else s
  }

  function After(s: State, run: seq<Action>): State {
    if run == [] then s else Next(After(s, run[..|run| - 1]), run[|run| - 1])
  }

  lemma Snoc(s: State, run: seq<Action>, a: Action)
    ensures After(s, run + [a]) == Next(After(s, run), a)
  {
    assert (run + [a])[..|run|] == run;
  }

  predicate Init(s: State) {
    s.back == None && s.closed == {} && s.made == 0 && s.closers == 0 && s.waiters == []
  }

  /** Every wait takes its channel before it reads down, as wait does. */
  ghost predicate InOrder(run: seq<Action>) {
    forall k :: 0 <= k < |run| ==> run[k] != Arrive(true)
  }

  predicate Known(s: State, ch: nat) { ch < s.made && (ch in s.closed || s.back == Some(ch)) }

  ghost predicate Sound(s: State) {
    && (s.back.Some? ==> s.back.value < s.made && s.back.value !in s.closed)
    && (forall ch :: ch in s.closed ==> ch < s.made)
    && (forall i :: 0 <= i < |s.waiters| ==> !s.waiters[i].Early? && !s.waiters[i].Late?)
    && (forall i :: 0 <= i < |s.waiters| && s.waiters[i].Holding? ==> Known(s, s.waiters[i].ch))
    && (forall i :: 0 <= i < |s.waiters| && s.waiters[i].Blocked? ==>
          Known(s, s.waiters[i].ch) && (s.waiters[i].ch in s.closed || s.down || 0 < s.closers))
  }

  /** A waiter moves on, on a channel that is known and not open for no reason. */
  lemma PutKeepsSound(s: State, i: nat, w: Waiter)
    requires Sound(s) && Is(s, i) && !w.Early? && !w.Late?
    requires w.Holding? || w.Blocked? ==> Known(s, w.ch)
    requires w.Blocked? ==> w.ch in s.closed || s.down || 0 < s.closers
    ensures Sound(Put(s, i, w))
  {
  }

  lemma SetKeepsSound(s: State, a: Action)
    requires Sound(s) && (a.Swap? || a.CloseBack? || a == Arrive(false))
    ensures Sound(Next(s, a))
  {
  }

  lemma StepKeepsSound(s: State, a: Action)
    requires Sound(s) && a != Arrive(true)
    ensures Sound(Next(s, a))
  {
    match a
    case Swap(_) => SetKeepsSound(s, a);
    case CloseBack => SetKeepsSound(s, a);
    case Arrive(_) => SetKeepsSound(s, a);
    case Take(i) =>
      if Is(s, i) && s.waiters[i].Fresh? {
        var (t, ch) := BackCh(s);
        assert Sound(t);
        PutKeepsSound(t, i, Holding(ch));
      }
    case ReadDown(i) =>
      if Is(s, i) && s.waiters[i].Holding? {
        PutKeepsSound(s, i, if s.down then Blocked(s.waiters[i].ch) else Returned);
      }
    case Wake(i) => if Next(s, a) != s { PutKeepsSound(s, i, Fresh); }
    case Cancel(i) => if Next(s, a) != s { PutKeepsSound(s, i, Cancelled); }
  }

  lemma {:induction false} RunKeepsSound(s: State, run: seq<Action>)
    requires Sound(s) && InOrder(run)
    ensures Sound(After(s, run))
  {
    if run != [] {
      var p := run[..|run| - 1];
      assert forall k :: 0 <= k < |p| ==> p[k] == run[k];
      RunKeepsSound(s, p);
      StepKeepsSound(After(s, p), run[|run| - 1]);
    }
  }

  /**
  No lost wake-up: a waiter blocked while the database answers has its channel closed, or a
  set(false) past its swap is about to close it, and then whatever set does that wakes it.
  */
  lemma NoLostWakeUp(s: State, run: seq<Action>, i: nat)
    requires Init(s) && InOrder(run)
    requires var t := After(s, run); Is(t, i) && t.waiters[i].Blocked? && !t.down
    ensures var t := After(s, run);
            && (t.waiters[i].ch in t.closed || 0 < t.closers)
            && (t.waiters[i].ch !in t.closed ==> t.waiters[i].ch in Next(t, CloseBack).closed)
  {
    RunKeepsSound(s, run);
  }

  /** Left alone, the pending closes leave no waiter blocked on an open channel. */
  function Drained(s: State): State
    decreases s.closers
  {
    if s.closers == 0 then s else Drained(Next(s, CloseBack))
  }

  lemma {:induction false} DrainKeepsSound(s: State)
    requires Sound(s)
    ensures Sound(Drained(s)) && Drained(s).down == s.down && Drained(s).waiters == s.waiters && Drained(s).closers == 0
    decreases s.closers
  {
    if s.closers > 0 {
      StepKeepsSound(s, CloseBack);
      DrainKeepsSound(Next(s, CloseBack));
    }
  }

  lemma ThreeSteps(t: State, a: Action, b: Action, c: Action)
    ensures After(t, [a, b, c]) == Next(Next(Next(t, a), b), c)
  {
    Snoc(t, [], a);
    Snoc(t, [a], b);
    Snoc(t, [a, b], c);
    assert [] + [a] == [a] && [a] + [b] == [a, b] && [a, b] + [c] == [a, b, c];
  }

  /** So every waiter gets through: woken, it takes a channel, reads down false and returns. */
  lemma EveryWaiterReturns(s: State, run: seq<Action>, i: nat)
    requires Init(s) && InOrder(run) && !After(s, run).down && Is(After(s, run), i)
    requires After(s, run).waiters[i].Blocked?
    ensures var r := After(Drained(After(s, run)), [Wake(i), Take(i), ReadDown(i)]);
            Is(r, i) && r.waiters[i] == Returned
  {
    RunKeepsSound(s, run);
    DrainKeepsSound(After(s, run));
    WokenReturns(Drained(After(s, run)), i);
  }

  lemma WokenReturns(t: State, i: nat)
    requires Sound(t) && t.closers == 0 && !t.down && Is(t, i) && t.waiters[i].Blocked?
    ensures var r := After(t, [Wake(i), Take(i), ReadDown(i)]); Is(r, i) && r.waiters[i] == Returned
  {
    ThreeSteps(t, Wake(i), Take(i), ReadDown(i));
    var woken := Next(t, Wake(i));
    assert woken == Put(t, i, Fresh);
    var taken := Next(woken, Take(i));
    assert Is(taken, i) && taken.waiters[i].Holding? && !taken.down;
  }

  /** wait returns only by reading down false, and a wait that is cancelled never returns. */
  lemma ReturnsOnlyWhenUp(s: State, a: Action, i: nat)
    requires Is(s, i) && !s.waiters[i].Returned?
    ensures Is(Next(s, a), i)
    ensures Next(s, a).waiters[i].Returned? <==>
              a == ReadDown(i) && (s.waiters[i].Holding? || s.waiters[i].Early?) && !s.down
  {
  }

  // ---------------------------------------------------------------------
  // The other order
  // ---------------------------------------------------------------------

  /** Blocked with the database up, on a channel no set holds the duty to close. */
  predicate Stranded(s: State, i: nat) {
    Is(s, i) && s.waiters[i].Blocked? && !s.down && s.closers == 0 && s.waiters[i].ch !in s.closed
  }

  /** Down read before the channel is taken: a set(false) between the two strands the waiter. */
  lemma OtherOrderStrands() returns (s: State, run: seq<Action>)
    ensures Init(s) && Stranded(After(s, run), 0)
  {
    s := State(true, None, {}, 0, 0, []);
    Snoc(s, [], Arrive(true));
    var arrived := [] + [Arrive(true)];
    assert After(s, arrived) == s.(waiters := [Early]);
    Snoc(s, arrived, ReadDown(0));
    var read := arrived + [ReadDown(0)];
    assert After(s, read) == s.(waiters := [Late]);
    Snoc(s, read, Swap(false));
    var swapped := read + [Swap(false)];
    assert After(s, swapped) == s.(down := false, closers := 1, waiters := [Late]);
    Snoc(s, swapped, CloseBack);
    var closed := swapped + [CloseBack];
    assert After(s, closed) == s.(down := false, waiters := [Late]);
    Snoc(s, closed, Take(0));
    run := closed + [Take(0)];
    assert After(s, run) == s.(down := false, back := Some(0), made := 1, waiters := [Blocked(0)]);
  }

  /** A stranded waiter stays blocked for as long as the database stays up. */
  lemma {:induction false} StrandedStays(s: State, run: seq<Action>, i: nat)
    requires Stranded(s, i) && (forall k :: 0 <= k < |run| ==> run[k] != Swap(true) && run[k] != Cancel(i))
    ensures Stranded(After(s, run), i) && After(s, run).waiters[i] == s.waiters[i]
  {
    if run != [] {
      var p := run[..|run| - 1];
      assert forall k :: 0 <= k < |p| ==> p[k] == run[k];
      StrandedStays(s, p, i);
    }
  }

  /** In the source's order no run strands anyone. */
  lemma InOrderNeverStrands(s: State, run: seq<Action>, i: nat)
    requires Init(s) && InOrder(run)
    ensures !Stranded(After(s, run), i)
  {
    RunKeepsSound(s, run);
  }

  // ---------------------------------------------------------------------
  // set and wait
  // ---------------------------------------------------------------------

  /** A step of the source's, and not of the wait i. */
  predicate IsOthers(a: Action, i: int) {
    a != Arrive(true) && !((a.Take? || a.ReadDown? || a.Wake? || a.Cancel?) && a.i == i)
  }

  lemma OthersStep(s: State, a: Action, i: int, mine: nat)
    requires IsOthers(a, i) && mine <= s.closers && !(a.CloseBack? && s.closers == mine)
    ensures |s.waiters| <= |Next(s, a).waiters| && mine <= Next(s, a).closers
    ensures 0 <= i < |s.waiters| ==> Next(s, a).waiters[i] == s.waiters[i]
  {
  }

  /** A waiter whose context ends while it is blocked is done, and no other is touched. */
  lemma CancelEndsTheWait(s: State, i: nat)
    requires Is(s, i) && s.waiters[i].Blocked?
    ensures Next(s, Cancel(i)) == s.(waiters := s.waiters[i := Cancelled])
  {
  }

  /** How often the wait i was at its channel, from the k-th step on. */
  function Wakes(run: seq<Action>, k: nat, i: nat): nat {
    if |run| <= k then 0 else Wakes(run[..|run| - 1], k, i) + if run[|run| - 1] == Wake(i) then 1 else 0
  }

  /** The shared flag and channel, changed one section at a time. */
  /** b goes on from a with no such step. */
  ghost predicate SameWakes(a: seq<Action>, b: seq<Action>, i: nat) {
    forall k: nat :: k <= |a| ==> Wakes(b, k, i) == Wakes(a, k, i)
  }

  lemma NoWake(run: seq<Action>, a: Action, i: nat)
    requires a != Wake(i)
    ensures SameWakes(run, run + [a], i)
  {
    assert (run + [a])[..|run|] == run;
  }

  lemma OneWake(run: seq<Action>, k: nat, i: nat)
    requires k <= |run|
    ensures Wakes(run + [Wake(i)], k, i) == Wakes(run, k, i) + 1
  {
    assert (run + [Wake(i)])[..|run|] == run;
  }

  class Watch {
    var st: State
    ghost var was: State
    ghost var run: seq<Action>

    ghost predicate Traced()
      reads this
    {
      Init(was) && InOrder(run) && st == After(was, run)
    }

    constructor (down: bool)
      ensures Traced() && st.down == down && st.waiters == []
    {
      st := State(down, None, {}, 0, 0, []);
      was, run := State(down, None, {}, 0, 0, []), [];
    }

    method Do(a: Action)
      requires Traced() && a != Arrive(true)
      modifies this
      ensures Traced() && st == Next(old(st), a) && run == old(run) + [a]
    {
      ghost var longer := run + [a];
      assert longer[..|longer| - 1] == run;
      run := longer;
      st := Next(st, a);
    }

    /** Steps of the others: not those of the wait i, nor the close that is mine to do. */
    method Others(acts: seq<Action>, i: int, mine: nat)
      requires Traced() && mine <= st.closers
      modifies this
      ensures Traced() && |old(st).waiters| <= |st.waiters|
      ensures 0 <= i < |old(st).waiters| ==> st.waiters[i] == old(st).waiters[i]
      ensures old(run) <= run && mine <= st.closers
      ensures acts == [] ==> st == old(st)
      ensures 0 <= i ==> SameWakes(old(run), run, i)
    {
      for k := 0 to |acts|
        invariant Traced() && |old(st).waiters| <= |st.waiters|
        invariant 0 <= i < |old(st).waiters| ==> st.waiters[i] == old(st).waiters[i]
        invariant old(run) <= run && mine <= st.closers
        invariant (k == 0 ==> st == old(st)) && (0 <= i ==> SameWakes(old(run), run, i))
      {
        if IsOthers(acts[k], i) && !(acts[k].CloseBack? && st.closers == mine) {
          OthersStep(st, acts[k], i, mine);
          if 0 <= i { NoWake(run, acts[k], i); }
          Do(acts[k]);
        }
      }
    }

    /** set: the swap, then the close when the database came back; nothing else when nothing changed. */
    method Set(down: bool, between: seq<Action>)
      requires Traced()
      modifies this
      ensures Traced() && old(run) + [Swap(down)] <= run
      ensures if old(st).down && !down then |run| > |old(run)| + 1 && run[|run| - 1] == CloseBack && st.back.None?
              else run == old(run) + [Swap(down)] && st == old(st).(down := down)
    {
      var changed := st.down != down;
      Do(Swap(down));
      if !changed || down { return; }
      Others(between, -1, 1);
      Do(CloseBack);
    }

    /** wait, for as many of its turns as given; true: it returned nil. */
    method Wait(turns: nat, env: nat -> seq<Action>) returns (up: bool)
      requires Traced()
      modifies this
      ensures Traced() && Is(st, |old(st).waiters|)
      ensures up <==> st.waiters[|old(st).waiters|] == Returned
      ensures !up ==> st.waiters[|old(st).waiters|].Blocked? || st.waiters[|old(st).waiters|].Fresh?
      ensures old(run) <= run && (!up ==> Wakes(run, |old(run)|, |old(st).waiters|) == turns)
      ensures 0 < turns && !old(st).down && (forall i :: env(i) == []) ==> up
    {
      var me := |st.waiters|;
      Do(Arrive(false));
      ghost var from := |run| - 1;
      for n := 0 to turns
        invariant Traced() && Is(st, me)
        invariant old(run) <= run && Wakes(run, from, me) == n
        invariant n == 0 ==> st.waiters[me].Fresh? && st.down == old(st).down
        invariant 0 < n && !old(st).down ==> exists i :: env(i) != []
        invariant st.waiters[me].Fresh? || st.waiters[me].Blocked?
      {
        up := Around(me, env(3 * n), env(3 * n + 1), env(3 * n + 2), from);
        if up { return; }
      }
      up := false;
    }

    /** Once around wait's loop. */
    method Around(me: nat, first: seq<Action>, second: seq<Action>, third: seq<Action>, ghost from: nat) returns (up: bool)
      requires Traced() && Is(st, me) && (st.waiters[me].Fresh? || st.waiters[me].Blocked?) && from <= |run|
      modifies this
      ensures Traced() && Is(st, me)
      ensures if up then st.waiters[me].Returned? else st.waiters[me].Fresh? || st.waiters[me].Blocked?
      ensures old(run) <= run && Wakes(run, from, me) == Wakes(old(run), from, me) + if up then 0 else 1
      ensures old(st).waiters[me].Fresh? && !old(st).down && first == [] && second == [] ==> up
    {
      Others(first, me, 0);
      if st.waiters[me].Fresh? {
        up := Turn(me, second);
        if up { return; }
      }
      Others(third, me, 0);
      OneWake(run, from, me);
      Do(Wake(me));
      up := false;
    }

    /** The channel, then down. */
    method Turn(me: nat, between: seq<Action>) returns (up: bool)
      requires Traced() && Is(st, me) && st.waiters[me].Fresh?
      modifies this
      ensures Traced() && Is(st, me)
      ensures if up then st.waiters[me].Returned? else st.waiters[me].Blocked?
      ensures old(run) <= run && SameWakes(old(run), run, me)
      ensures !old(st).down && between == [] ==> up
    {
      NoWake(run, Take(me), me);
      Do(Take(me));
      assert st.waiters[me].Holding?;
      Others(between, me, 0);
      NoWake(run, ReadDown(me), me);
      Do(ReadDown(me));
      up := st.waiters[me].Returned?;
    }
  }
}
