/**
The launcher's windows and deadlines (cmd/maktaba-launcher/run.go, cantstart.go): the boot-loop
guard of a pending release, its deadline, and the can't-start cut-off of the release that runs.
The launcher keeps lists it prunes as it goes; the history is all it did, and the guards are
stated over that.
*/
module LaunchWindows {

  const SECOND := 1_000_000_000
  const CANT_START_MAX := 3
  const CANT_START_WINDOW := 120 * SECOND
  const RESTART := 75

  datatype Option<T> = None | Some(value: T)

  /** loopMax and the durations as defaulted; cantStartMax: 0 for CANT_START_MAX, below for none. */
  datatype Config = Config(loopWindow: int, loopMax: int, stableAfter: int, pendingTimeout: int, cantStartMax: int)

  datatype Reason = Refused | PendingTimeout | BootLoop | CantStart

  datatype Event =
    | Start(version: string, pending: bool, at: int)
    | Failed(at: int)             // a pending release's exit
    | Rollback(reason: Reason)    // asked for, whether or not there was a release to go back to
    | Early(at: int)              // the running release's exit before it was up stableAfter
    | Stable                      // its exit later than that
    | Cut                         // the server is not started again until a choice is made
    | Chosen

  type History = seq<Event>

  function Last(h: History): Event
    requires h != []
  {
    h[|h| - 1]
  }

  function Before(h: History): History
    requires h != []
  {
    h[..|h| - 1]
  }

  /**
  What a history comes to: the pending version the guard counts for, when that was first
  started, every exit noted since its count last started over (a start of another release or
  of one not pending, or a rollback), and every early exit since the last stable run or choice.
  */
  datatype Tally = Tally(guarded: Option<string>, firstStart: int, failures: seq<int>, early: seq<int>)

  function Noted(t: Tally, e: Event): Tally {
    match e
    case Start(v, pending, at) =>
      if !pending then t.(guarded := None, failures := [])
      else if t.guarded != Some(v) then t.(guarded := Some(v), firstStart := at, failures := [])
      else t
    case Failed(at) => t.(failures := t.failures + [at])
    case Rollback(_) => t.(guarded := None, failures := [])
    case Early(at) => t.(early := t.early + [at])
    case Stable => t.(early := [])
    case Cut => t
    case Chosen => t.(early := [])
  }

  function TallyOf(h: History): Tally {
    if h == [] then Tally(None, 0, [], []) else Noted(TallyOf(Before(h)), Last(h))
  }

  /** The times less than w before now; edge: or w before it. */
  function Recent(ts: seq<int>, now: int, w: int, edge: bool): seq<int> {
    if ts == [] then []
    else
      var t := ts[|ts| - 1];
      Recent(ts[..|ts| - 1], now, w, edge) + if now - t < w || (edge && now - t == w) then [t] else []
  }

  /** The exits inside the window that ends at the last one. */
  function Counted(ts: seq<int>, w: int, edge: bool): seq<int> {
    if ts == [] then [] else Recent(ts, ts[|ts| - 1], w, edge)
  }

  function LoopCount(c: Config, h: History): nat { |Counted(TallyOf(h).failures, c.loopWindow, false)| }

  function EarlyCount(h: History): nat { |Counted(TallyOf(h).early, CANT_START_WINDOW, true)| }

  function Limit(c: Config): int { if c.cantStartMax == 0 then CANT_START_MAX else c.cantStartMax }

  /** When an unconfirmed pending release is given up; until: the deadline its update set, if any. */
  function Deadline(c: Config, h: History, until: Option<int>): int {
    var d := TallyOf(h).firstStart + c.pendingTimeout;
    if until.Some? && until.value > d then until.value else d
  }

  // ---------------------------------------------------------------------
  // What the counts are, in the history alone
  // ---------------------------------------------------------------------

  predicate Guards(e: Event) { e.Start? || e.Rollback? }

  /** Before the i-th event the same pending version was started, and nothing started or rolled back since. */
  predicate StartedBefore(h: History, i: nat)
    requires i < |h| && h[i].Start?
  {
    exists p :: 0 <= p < i && h[p].Start? && h[p].pending && h[p].version == h[i].version
                && forall q :: p < q < i ==> !Guards(h[q])
  }

  /** The i-th event starts the guard's count over: a rollback, or a start not pending or of another release. */
  predicate Resets(h: History, i: nat) {
    i < |h| && (h[i].Rollback? || (h[i].Start? && (!h[i].pending || !StartedBefore(h, i))))
  }

  /** r is right after the last event that starts the guard's count over; or the cut-off's. */
  predicate CountsFrom(h: History, r: nat) {
    r <= |h| && (r == 0 || Resets(h, r - 1)) && forall i :: r <= i < |h| ==> !Resets(h, i)
  }

  predicate EarlyFrom(h: History, r: nat) {
    && r <= |h| && (r == 0 || h[r - 1].Stable? || h[r - 1].Chosen?)
    && forall i :: r <= i < |h| ==> !h[i].Stable? && !h[i].Chosen?
  }

  /** The exits from r on that are inside the window that ends at t. */
  function FailedIn(h: History, r: nat, t: int, w: int): set<nat> {
    set j | 0 <= j < |h| && r <= j && h[j].Failed? && t - h[j].at < w
  }

  function EarlyIn(h: History, r: nat, t: int): set<nat> {
    set j | 0 <= j < |h| && r <= j && h[j].Early? && t - h[j].at <= CANT_START_WINDOW
  }

  /** What the guard counts for is what was started last, if that was pending. */
  lemma {:induction false} GuardedIs(h: History, v: string)
    ensures TallyOf(h).guarded == Some(v) <==>
            exists p :: 0 <= p < |h| && h[p].Start? && h[p].pending && h[p].version == v
                        && forall q :: p < q < |h| ==> !Guards(h[q])
  {
    if h != [] {
      var b := Before(h);
      GuardedIs(b, v);
      assert forall i :: 0 <= i < |b| ==> b[i] == h[i];
      if Guards(Last(h)) {
        if Last(h).Start? && Last(h).pending && Last(h).version == v { assert h[|h| - 1].Start?; }
      } else if TallyOf(b).guarded == Some(v) {
        var p :| 0 <= p < |b| && b[p].Start? && b[p].pending && b[p].version == v
                 && forall q :: p < q < |b| ==> !Guards(b[q]);
        assert h[p].Start? && forall q :: p < q < |h| ==> !Guards(h[q]);
      }
    }
  }

  lemma ResetsLast(h: History)
    requires h != []
    ensures Resets(h, |h| - 1) <==>
            Last(h).Rollback? || (Last(h).Start? && (!Last(h).pending || TallyOf(Before(h)).guarded != Some(Last(h).version)))
  {
    var n := |h| - 1;
    if h[n].Start? {
      var b := Before(h);
      GuardedIs(b, h[n].version);
      assert forall i :: 0 <= i < n ==> b[i] == h[i];
    }
  }

  lemma ResetsBefore(h: History, i: nat)
    requires i + 1 < |h|
    ensures Resets(Before(h), i) <==> Resets(h, i)
  {
  }

  /** The first start the deadline counts from is that of the event that started the count over. */
  lemma {:induction false} FirstStartIs(h: History, r: nat)
    requires CountsFrom(h, r) && TallyOf(h).guarded.Some?
    ensures 0 < r && h[r - 1] == Start(TallyOf(h).guarded.value, true, TallyOf(h).firstStart)
  {
    var n := |h| - 1;
    ResetsLast(h);
    if r <= n {
      forall i | 0 <= i < n ensures Resets(Before(h), i) <==> Resets(h, i) { ResetsBefore(h, i); }
      FirstStartIs(Before(h), r);
    }
  }

  /**
  The guard's count at an exit is the number of exits noted since it started over, inside the
  window that ends there.
  */
  lemma {:induction false} FailuresAre(h: History, r: nat, t: int, w: int)
    requires CountsFrom(h, r)
    ensures |Recent(TallyOf(h).failures, t, w, false)| == |FailedIn(h, r, t, w)|
  {
    if h != [] {
      var n := |h| - 1;
      ResetsLast(h);
      if r <= n {
        forall i | 0 <= i < n ensures Resets(Before(h), i) <==> Resets(h, i) { ResetsBefore(h, i); }
        FailuresAre(Before(h), r, t, w);
        FailedInMore(h, r, t, w);
        RecentSnoc(TallyOf(Before(h)).failures, if Last(h).Failed? then Last(h).at else 0, t, w, false);
      } else {
        assert FailedIn(h, r, t, w) == {};
      }
    }
  }

  lemma FailedInMore(h: History, r: nat, t: int, w: int)
    requires h != [] && r < |h|
    ensures |FailedIn(h, r, t, w)| == |FailedIn(Before(h), r, t, w)| + if Last(h).Failed? && t - Last(h).at < w then 1 else 0
  {
    var n := |h| - 1;
    var more: set<nat> := if Last(h).Failed? && t - Last(h).at < w then {n} else {};
    assert FailedIn(h, r, t, w) == FailedIn(Before(h), r, t, w) + more;
    assert n !in FailedIn(Before(h), r, t, w);
  }

  lemma {:induction false} EarlyAre(h: History, r: nat, t: int)
    requires EarlyFrom(h, r)
    ensures |Recent(TallyOf(h).early, t, CANT_START_WINDOW, true)| == |EarlyIn(h, r, t)|
  {
    if h != [] {
      var n := |h| - 1;
      if r <= n {
        EarlyAre(Before(h), r, t);
        EarlyInMore(h, r, t);
        RecentSnoc(TallyOf(Before(h)).early, if Last(h).Early? then Last(h).at else 0, t, CANT_START_WINDOW, true);
      } else {
        assert EarlyIn(h, r, t) == {};
      }
    }
  }

  lemma EarlyInMore(h: History, r: nat, t: int)
    requires h != [] && r < |h|
    ensures |EarlyIn(h, r, t)| ==
            |EarlyIn(Before(h), r, t)| + if Last(h).Early? && t - Last(h).at <= CANT_START_WINDOW then 1 else 0
  {
    var n := |h| - 1;
    var more: set<nat> := if Last(h).Early? && t - Last(h).at <= CANT_START_WINDOW then {n} else {};
    assert EarlyIn(h, r, t) == EarlyIn(Before(h), r, t) + more;
    assert n !in EarlyIn(Before(h), r, t);
  }

  /** Every history has such a place, and one only. */
  lemma {:induction false} CountsFromSomewhere(h: History) returns (r: nat, e: nat)
    ensures CountsFrom(h, r) && EarlyFrom(h, e)
    ensures forall n :: CountsFrom(h, n) ==> n == r
    ensures forall n :: EarlyFrom(h, n) ==> n == e
  {
    if h == [] {
      r, e := 0, 0;
    } else {
      var n := |h| - 1;
      r, e := CountsFromSomewhere(Before(h));
      forall i | 0 <= i < n ensures Resets(Before(h), i) <==> Resets(h, i) { ResetsBefore(h, i); }
      if Resets(h, n) { r := n + 1; }
      if h[n].Stable? || h[n].Chosen? { e := n + 1; }
    }
  }

  /** At a pending release's exit. */
  lemma LoopCountIs(c: Config, h: History, r: nat)
    requires h != [] && Last(h).Failed? && CountsFrom(h, r)
    ensures LoopCount(c, h) == |FailedIn(h, r, Last(h).at, c.loopWindow)|
  {
    FailuresAre(h, r, Last(h).at, c.loopWindow);
  }

  /** At an early exit. */
  lemma EarlyCountIs(h: History, r: nat)
    requires h != [] && Last(h).Early? && EarlyFrom(h, r)
    ensures EarlyCount(h) == |EarlyIn(h, r, Last(h).at)|
  {
    EarlyAre(h, r, Last(h).at);
  }

  // ---------------------------------------------------------------------
  // One turn of the loop
  // ---------------------------------------------------------------------

  /** A tick while the server runs, with what the pending marker says then. */
  datatype Tick = Tick(now: int, pending: bool, deadline: Option<int>)

  datatype End = Stopped | Exit(code: int, ran: int)

  /**
  What a turn meets: whether choose went back from a pending release that does not validate, and
  whether there is one to start; the version started and whether it is pending, the ticks while it runs, how
  it ends, whether it is pending when its exit is looked at and after the guard had it, whether
  a rollback has a release to go back to, and what is chosen at a cut-off (None: the launcher stops).
  */
  datatype Round = Round(refused: bool, starts: bool, version: string, pending: bool, start: int, ticks: seq<Tick>, end: End,
                         stillPending: bool, at: int, back: bool, pendingThen: bool, later: int,
                         rollback: Option<bool>)

  predicate TimesOut(c: Config, h: History, r: Round, k: Tick) {
    TallyOf(h).guarded == Some(r.version) && k.pending && k.now >= Deadline(c, h, k.deadline)
  }

  predicate TimedOut(c: Config, h: History, r: Round) {
    exists i :: 0 <= i < |r.ticks| && TimesOut(c, h, r, r.ticks[i])
  }

  predicate GuardFired(c: Config, h: History, r: Round) {
    r.stillPending && LoopCount(c, h + [Failed(r.at)]) >= c.loopMax
  }

  /** What follows an exit that is no restart: the guard's part. */
  function GuardPart(c: Config, h: History, r: Round): History {
    if !r.stillPending then h
    else if GuardFired(c, h, r) then h + [Failed(r.at)] + [Rollback(BootLoop)]
    else h + [Failed(r.at)]
  }

  function CutPart(h: History, rollback: Option<bool>): History {
    if rollback.None? then h + [Cut]
    else if rollback.value then h + [Cut] + [Chosen] + [Rollback(CantStart)]
    else h + [Cut] + [Chosen]
  }

  /** And the cut-off's. */
  function EarlyPart(c: Config, h: History, r: Round): History {
    if r.end.Stopped? || r.end.ran >= c.stableAfter then h + [Stable]
    else
      var e := h + [Early(r.later)];
      if Limit(c) > 0 && EarlyCount(e) >= Limit(c) then
        CutPart(e, r.rollback)
      else e
  }

  /** The history once there is a release to start, or none. */
  function Decided(h: History, r: Round): History { if r.refused then h + [Rollback(Refused)] else h }

  /** The history after a turn that starts one. */
  function Served(c: Config, h: History, r: Round): History {
    var s := h + [Start(r.version, r.pending, r.start)];
    if TimedOut(c, s, r) then s + [Rollback(PendingTimeout)]
    else if r.end.Stopped? || r.end.code == RESTART then s
    else
      var g := GuardPart(c, s, r);
      if (GuardFired(c, s, r) && r.back) || r.pendingThen then g else EarlyPart(c, g, r)
  }

  /** The history after a turn. */
  function Turned(c: Config, h: History, r: Round): History {
    if r.starts then Served(c, Decided(h, r), r) else Decided(h, r)
  }

  // ---------------------------------------------------------------------
  // What a turn notes
  // ---------------------------------------------------------------------

  predicate Adds(h: History, g: History, e: Event) { h <= g && e in g[|h|..] }

  lemma AddsAll(h: History, more: History, e: Event)
    ensures Adds(h, h + more, e) <==> e in more
  {
    assert (h + more)[|h|..] == more;
  }

  lemma AddsInTwo(h: History, g: History, f: History, e: Event)
    requires h <= g <= f
    ensures Adds(h, f, e) <==> Adds(h, g, e) || Adds(g, f, e)
  {
    assert f[|h|..] == g[|h|..] + f[|g|..];
  }

  lemma CutPartNotes(h: History, rollback: Option<bool>, e: Event)
    ensures var g := CutPart(h, rollback);
            && h <= g && Adds(h, g, Cut)
            && (Adds(h, g, e) <==> e == Cut || (e == Chosen && rollback.Some?) || (e == Rollback(CantStart) && rollback == Some(true)))
  {
    var more := if rollback.None? then [Cut] else if rollback.value then [Cut, Chosen, Rollback(CantStart)] else [Cut, Chosen];
    assert CutPart(h, rollback) == h + more;
    AddsAll(h, more, e);
    AddsAll(h, more, Cut);
  }

  /** What the cut-off notes of an exit; cut: it makes its count. */
  predicate EarlyEvent(c: Config, r: Round, cut: bool, e: Event)
    requires r.end.Exit?
  {
    if r.end.ran >= c.stableAfter then e == Stable
    else
      || e == Early(r.later) || (cut && e == Cut) || (cut && e == Chosen && r.rollback.Some?)
      || (cut && e == Rollback(CantStart) && r.rollback == Some(true))
  }

  lemma EarlyPartNotes(c: Config, h: History, r: Round, e: Event)
    requires r.end.Exit?
    ensures var g := EarlyPart(c, h, r);
            && h <= g
            && (Adds(h, g, Cut) ==> r.end.ran < c.stableAfter)
            && (Adds(h, g, e) <==> EarlyEvent(c, r, Adds(h, g, Cut), e))
  {
    var first := if r.end.ran >= c.stableAfter then [Stable] else [Early(r.later)];
    var g := EarlyPart(c, h, r);
    AddsAll(h, first, e);
    AddsAll(h, first, Cut);
    if g != h + first {
      CutPartNotes(h + first, r.rollback, e);
      AddsInTwo(h, h + first, g, e);
      AddsInTwo(h, h + first, g, Cut);
    }
  }

  lemma GuardPartNotes(c: Config, h: History, r: Round, e: Event)
    ensures var g := GuardPart(c, h, r);
            && h <= g
            && (Adds(h, g, e) <==> r.stillPending && (e == Failed(r.at) || (e == Rollback(BootLoop) && GuardFired(c, h, r))))
  {
    var more: History := if !r.stillPending then [] else if GuardFired(c, h, r) then [Failed(r.at), Rollback(BootLoop)] else [Failed(r.at)];
    assert GuardPart(c, h, r) == h + more;
    AddsAll(h, more, e);
  }

  /** The server was started, ended by itself, and is not to be started again at once. */
  predicate Exited(c: Config, h: History, r: Round) {
    r.starts && !TimedOut(c, Begun(h, r), r) && r.end.Exit? && r.end.code != 75
  }

  /** It was pending when it ended, and that exit makes the guard's count. */
  predicate BootLoops(c: Config, h: History, r: Round) {
    Exited(c, h, r) && r.stillPending && LoopCount(c, Begun(h, r) + [Failed(r.at)]) >= c.loopMax
  }

  /** Its exit is looked at by the cut-off: it is not pending by then, and the guard did not go back from it. */
  predicate LookedAt(c: Config, h: History, r: Round) {
    Exited(c, h, r) && !r.pendingThen && !(BootLoops(c, h, r) && r.back)
  }

  /** It was up too short, and that exit makes the cut-off's count. */
  predicate CutsOff(c: Config, h: History, r: Round) {
    LookedAt(c, h, r) && r.end.ran < c.stableAfter && Limit(c) > 0 && EarlyCount(h + [Early(r.later)]) >= Limit(c)
  }

  function Begun(h: History, r: Round): History { Decided(h, r) + [Start(r.version, r.pending, r.start)] }

  /** What a turn is to note. */
  predicate CalledFor(c: Config, h: History, r: Round, e: Event)
  {
    match e
    case Start(v, pending, at) => r.starts && e == Start(r.version, r.pending, r.start)
    case Failed(at) => Exited(c, h, r) && r.stillPending && at == r.at
    case Rollback(Refused) => r.refused
    case Rollback(PendingTimeout) => r.starts && TimedOut(c, Begun(h, r), r)
    case Rollback(BootLoop) => BootLoops(c, h, r)
    case Rollback(CantStart) => CutsOff(c, h, r) && r.rollback == Some(true)
    case Early(at) => LookedAt(c, h, r) && r.end.ran < c.stableAfter && at == r.later
    case Stable => LookedAt(c, h, r) && r.end.ran >= c.stableAfter
    case Cut => CutsOff(c, h, r)
    case Chosen => CutsOff(c, h, r) && r.rollback.Some?
  }

  lemma GuardPartKeepsEarly(c: Config, h: History, r: Round)
    ensures TallyOf(GuardPart(c, Begun(h, r), r)).early == TallyOf(h).early
  {
    Snoc(h, Rollback(Refused));
    Snoc(Decided(h, r), Start(r.version, r.pending, r.start));
    Snoc(Begun(h, r), Failed(r.at));
    Snoc(Begun(h, r) + [Failed(r.at)], Rollback(BootLoop));
  }

  lemma EarlyPartCuts(c: Config, g: History, r: Round)
    requires r.end.Exit?
    ensures Adds(g, EarlyPart(c, g, r), Cut) <==>
            r.end.ran < c.stableAfter && Limit(c) > 0 && EarlyCount(g + [Early(r.later)]) >= Limit(c)
  {
    if r.end.ran >= c.stableAfter {
      AddsAll(g, [Stable], Cut);
    } else {
      var e := g + [Early(r.later)];
      AddsAll(g, [Early(r.later)], Cut);
      if EarlyPart(c, g, r) != e {
        CutPartNotes(e, r.rollback, Cut);
        AddsInTwo(g, e, EarlyPart(c, g, r), Cut);
      } else if Limit(c) > 0 && EarlyCount(e) >= Limit(c) {
        CutPartNotes(e, r.rollback, Cut);
      }
    }
  }

  lemma CutIsCounted(c: Config, h: History, r: Round)
    requires r.end.Exit?
    ensures var g := GuardPart(c, Begun(h, r), r);
            Adds(g, EarlyPart(c, g, r), Cut) <==>
            r.end.ran < c.stableAfter && Limit(c) > 0 && EarlyCount(h + [Early(r.later)]) >= Limit(c)
  {
    var g := GuardPart(c, Begun(h, r), r);
    EarlyPartCuts(c, g, r);
    GuardPartKeepsEarly(c, h, r);
    Snoc(h, Early(r.later));
    Snoc(g, Early(r.later));
  }

  /** A turn adds to the history, and notes what it is to note and nothing else. */
  lemma TurnNotesExactly(c: Config, h: History, r: Round, e: Event)
    ensures h <= Turned(c, h, r) && (Adds(h, Turned(c, h, r), e) <==> CalledFor(c, h, r, e))
  {
    var d, s, g := Decided(h, r), Begun(h, r), Turned(c, h, r);
    AddsAll(h, if r.refused then [Rollback(Refused)] else [], e);
    assert d == h + if r.refused then [Rollback(Refused)] else [];
    if r.starts {
      AddsAll(d, [Start(r.version, r.pending, r.start)], e);
      AddsInTwo(h, d, s, e);
      ServedNotes(c, h, r, e);
      AddsInTwo(h, s, g, e);
    }
  }

  lemma ServedNotes(c: Config, h: History, r: Round, e: Event)
    requires r.starts
    ensures var s, g := Begun(h, r), Turned(c, h, r);
            && s <= g
            && (Adds(s, g, e) <==> CalledFor(c, h, r, e) && e != Rollback(Refused) && !e.Start?)
  {
    CalledForWhat(c, h, r, e);
    if Exited(c, h, r) { ExitNotes(c, h, r, e); } else { NoExitNotes(c, h, r, e); }
  }

  lemma CalledForWhat(c: Config, h: History, r: Round, e: Event)
    requires r.starts
    ensures CalledFor(c, h, r, e) && e != Rollback(Refused) && !e.Start? <==>
            if Exited(c, h, r) then CalledFor(c, h, r, e) && (OfTheGuard(e) || OfTheCutOff(e))
            else e == Rollback(PendingTimeout) && CalledFor(c, h, r, e)
  {
    if Exited(c, h, r) {
      assert !CalledFor(c, h, r, Rollback(PendingTimeout));
    } else {
      assert !BootLoops(c, h, r) && !LookedAt(c, h, r) && !CutsOff(c, h, r);
    }
  }

  lemma NoExitNotes(c: Config, h: History, r: Round, e: Event)
    requires r.starts && !Exited(c, h, r)
    ensures var s, g := Begun(h, r), Turned(c, h, r);
            s <= g && (Adds(s, g, e) <==> e == Rollback(PendingTimeout) && CalledFor(c, h, r, e))
  {
    var s := Begun(h, r);
    var more: History := if TimedOut(c, s, r) then [Rollback(PendingTimeout)] else [];
    AddsAll(s, more, e);
    assert Turned(c, h, r) == s + more;
  }

  predicate OfTheGuard(e: Event) { e.Failed? || e == Rollback(BootLoop) }

  predicate OfTheCutOff(e: Event) { e.Early? || e.Stable? || e.Cut? || e.Chosen? || e == Rollback(CantStart) }

  lemma GuardNotes(c: Config, h: History, r: Round, e: Event)
    requires Exited(c, h, r)
    ensures var s := Begun(h, r);
            var f := GuardPart(c, s, r);
            s <= f && (Adds(s, f, e) <==> CalledFor(c, h, r, e) && OfTheGuard(e))
  {
    GuardPartNotes(c, Begun(h, r), r, e);
  }

  lemma CutOffNotes(c: Config, h: History, r: Round, e: Event)
    requires LookedAt(c, h, r)
    ensures var f := GuardPart(c, Begun(h, r), r);
            var g := EarlyPart(c, f, r);
            f <= g && (Adds(f, g, e) <==> CalledFor(c, h, r, e) && OfTheCutOff(e))
  {
    EarlyPartNotes(c, GuardPart(c, Begun(h, r), r), r, e);
    CutIsCounted(c, h, r);
    CutOffEvents(c, h, r, e);
  }

  lemma CutOffEvents(c: Config, h: History, r: Round, e: Event)
    requires LookedAt(c, h, r)
    ensures CalledFor(c, h, r, e) && OfTheCutOff(e) <==> EarlyEvent(c, r, CutsOff(c, h, r), e)
  {
  }

  lemma ExitNotes(c: Config, h: History, r: Round, e: Event)
    requires Exited(c, h, r)
    ensures var s, g := Begun(h, r), Turned(c, h, r);
            && s <= g
            && (Adds(s, g, e) <==> CalledFor(c, h, r, e) && (OfTheGuard(e) || OfTheCutOff(e)))
  {
    var s, g := Begun(h, r), Turned(c, h, r);
    var f := GuardPart(c, s, r);
    GuardNotes(c, h, r, e);
    if LookedAt(c, h, r) {
      CutOffNotes(c, h, r, e);
      assert g == EarlyPart(c, f, r);
      AddsInTwo(s, f, g, e);
    } else {
      assert g == f;
    }
  }

  // ---------------------------------------------------------------------
  // The launcher's lists
  // ---------------------------------------------------------------------

  lemma {:induction false} RecentLater(ts: seq<int>, now: int, later: int, w: int, edge: bool)
    requires now <= later
    ensures Recent(Recent(ts, now, w, edge), later, w, edge) == Recent(ts, later, w, edge)
  {
    if ts != [] {
      var n := |ts| - 1;
      RecentLater(ts[..n], now, later, w, edge);
      var r := Recent(ts[..n], now, w, edge);
      assert (r + [ts[n]])[..|r|] == r;
      assert r + [] == r;
    }
  }

  lemma {:induction false} RecentSnoc(ts: seq<int>, t: int, now: int, w: int, edge: bool)
    ensures Recent(ts + [t], now, w, edge) ==
              Recent(ts, now, w, edge) + if now - t < w || (edge && now - t == w) then [t] else []
  {
    assert (ts + [t])[..|ts|] == ts;
  }

  /** Pruning what was pruned at the exit before is pruning all there was. */
  lemma PrunedAgain(ts: seq<int>, t: int, w: int, edge: bool)
    requires ts != [] ==> ts[|ts| - 1] <= t
    ensures Recent(Counted(ts, w, edge) + [t], t, w, edge) == Counted(ts + [t], w, edge)
  {
    RecentSnoc(ts, t, t, w, edge);
    RecentSnoc(Counted(ts, w, edge), t, t, w, edge);
    if ts != [] { RecentLater(ts, ts[|ts| - 1], t, w, edge); }
  }

  /** No time in h is after t. */
  ghost predicate Until(h: History, t: int) {
    && (forall i :: 0 <= i < |h| && h[i].Failed? ==> h[i].at <= t)
    && (forall i :: 0 <= i < |h| && h[i].Early? ==> h[i].at <= t)
  }

  lemma {:induction false} SinceUntil(h: History, t: int)
    requires Until(h, t)
    ensures TallyOf(h).failures != [] ==> TallyOf(h).failures[|TallyOf(h).failures| - 1] <= t
    ensures TallyOf(h).early != [] ==> TallyOf(h).early[|TallyOf(h).early| - 1] <= t
  {
    if h != [] { SinceUntil(Before(h), t); }
  }

  lemma Snoc(h: History, e: Event)
    ensures TallyOf(h + [e]) == Noted(TallyOf(h), e) && Last(h + [e]) == e
  {
    assert Before(h + [e]) == h;
  }

  lemma FailureCounted(h: History, now: int, w: int)
    requires Until(h, now)
    ensures TallyOf(h + [Failed(now)]) == Noted(TallyOf(h), Failed(now))
    ensures Recent(Counted(TallyOf(h).failures, w, false) + [now], now, w, false) ==
            Counted(TallyOf(h).failures + [now], w, false)
  {
    SinceUntil(h, now);
    PrunedAgain(TallyOf(h).failures, now, w, false);
    Snoc(h, Failed(now));
  }

  lemma EarlyCounted(h: History, now: int)
    requires Until(h, now)
    ensures TallyOf(h + [Early(now)]) == Noted(TallyOf(h), Early(now))
    ensures Recent(Counted(TallyOf(h).early, CANT_START_WINDOW, true) + [now], now, CANT_START_WINDOW, true) ==
            Counted(TallyOf(h).early + [now], CANT_START_WINDOW, true)
  {
    SinceUntil(h, now);
    PrunedAgain(TallyOf(h).early, now, CANT_START_WINDOW, true);
    Snoc(h, Early(now));
  }

  class Launcher {
    const config: Config
    var guardVersion: Option<string>
    var firstStart: int
    var failures: seq<int>
    var early: seq<int>
    ghost var history: History

    ghost predicate Valid()
      reads this
    {
      && guardVersion == TallyOf(history).guarded
      && (guardVersion.Some? ==> firstStart == TallyOf(history).firstStart)
      && failures == Counted(TallyOf(history).failures, config.loopWindow, false)
      && early == Counted(TallyOf(history).early, CANT_START_WINDOW, true)
    }

    constructor (config: Config)
      ensures Valid() && history == [] && this.config == config
    {
      this.config := config;
      guardVersion, firstStart, failures, early, history := None, 0, [], [], [];
    }

    /** runOnce up to the server's start. */
    method NoteStart(version: string, pending: bool, now: int)
      requires Valid()
      modifies this
      ensures Valid() && history == old(history) + [Start(version, pending, now)]
      ensures !pending ==> guardVersion.None? && failures == []
      ensures pending ==> guardVersion == Some(version)
      ensures pending && old(guardVersion) != Some(version) ==> failures == [] && firstStart == now
      ensures pending && old(guardVersion) == Some(version) ==> failures == old(failures) && firstStart == old(firstStart)
    {
      if pending && guardVersion != Some(version) {
        guardVersion, firstStart, failures := Some(version), now, [];
      }
      if !pending { guardVersion, failures := None, []; }
      Snoc(history, Start(version, pending, now));
      history := history + [Start(version, pending, now)];
    }

    /** runOnce while the server runs: does a tick give it up? */
    method Watch(r: Round) returns (timedOut: bool)
      requires Valid()
      ensures timedOut <==> TimedOut(config, history, r)
    {
      for i := 0 to |r.ticks|
        invariant forall j :: 0 <= j < i ==> !TimesOut(config, history, r, r.ticks[j])
      {
        var k := r.ticks[i];
        if guardVersion == Some(r.version) && k.pending {
          var d := firstStart + config.pendingTimeout;
          if k.deadline.Some? && k.deadline.value > d { d := k.deadline.value; }
          if k.now >= d {
            assert TimesOut(config, history, r, r.ticks[i]);
            return true;
          }
        }
      }
      timedOut := false;
    }

    /** rollback's part in the counts. */
    method NoteRollback(why: Reason)
      requires Valid()
      modifies this
      ensures Valid() && history == old(history) + [Rollback(why)]
    {
      guardVersion, failures := None, [];
      Snoc(history, Rollback(why));
      history := history + [Rollback(why)];
    }

    /** A pending release's exit: is the count reached? */
    method NoteFailure(now: int) returns (fires: bool)
      requires Valid() && Until(history, now)
      modifies this
      ensures Valid() && history == old(history) + [Failed(now)]
      ensures fires <==> LoopCount(config, history) >= config.loopMax
      ensures forall r :: CountsFrom(history, r) ==>
                (fires <==> |FailedIn(history, r, now, config.loopWindow)| >= config.loopMax)
    {
      FailureCounted(history, now, config.loopWindow);
      failures := Prune(failures + [now], now, config.loopWindow, false);
      history := history + [Failed(now)];
      fires := |failures| >= config.loopMax;
      forall r | CountsFrom(history, r)
        ensures LoopCount(config, history) == |FailedIn(history, r, now, config.loopWindow)|
      {
        LoopCountIs(config, history, r);
      }
    }

    /** earlyExit. */
    method EarlyExit(end: End, now: int) returns (cut: bool)
      requires Valid() && Until(history, now) && end.Exit?
      modifies this
      ensures Valid()
      ensures history == old(history) + [if end.ran >= config.stableAfter then Stable else Early(now)]
      ensures cut <==> end.ran < config.stableAfter && Limit(config) > 0 && EarlyCount(history) >= Limit(config)
      ensures forall r :: EarlyFrom(history, r) ==>
                (cut <==> end.ran < config.stableAfter && 0 <= config.cantStartMax
                          && |EarlyIn(history, r, now)| >= if config.cantStartMax == 0 then 3 else config.cantStartMax)
    {
      if end.ran >= config.stableAfter {
        NoteStable();
        return false;
      }
      var n := NoteEarly(now);
      var limit := config.cantStartMax;
      if limit == 0 { limit := CANT_START_MAX; }
      cut := limit > 0 && n >= limit;
      forall r | EarlyFrom(history, r) ensures EarlyCount(history) == |EarlyIn(history, r, now)| {
        EarlyCountIs(history, r);
      }
    }

    method NoteStable()
      requires Valid()
      modifies this
      ensures Valid() && history == old(history) + [Stable]
    {
      Snoc(history, Stable);
      early := [];
      history := history + [Stable];
    }

    /** An early exit; how many are in the window now. */
    method NoteEarly(now: int) returns (count: nat)
      requires Valid() && Until(history, now)
      modifies this
      ensures Valid() && history == old(history) + [Early(now)] && count == EarlyCount(history)
    {
      EarlyCounted(history, now);
      early := Prune(early + [now], now, CANT_START_WINDOW, true);
      history := history + [Early(now)];
      count := |early|;
    }

    /** cantStart, and what is chosen. */
    method CantStart(rollback: Option<bool>)
      requires Valid()
      modifies this
      ensures Valid() && history == CutPart(old(history), rollback)
    {
      Snoc(history, Cut);
      history := history + [Cut];
      if rollback.Some? {
        early := [];
        Snoc(history, Chosen);
        history := history + [Chosen];
        if rollback.value { NoteRollback(Reason.CantStart); }
      }
    }

    /** The guard's look at an exit; true: it went back to the release before. */
    method GuardExit(r: Round) returns (back: bool)
      requires Valid() && Until(history, r.at)
      modifies this
      ensures Valid() && history == GuardPart(config, old(history), r) && Until(history, r.at)
      ensures back <==> GuardFired(config, old(history), r) && r.back
    {
      if !r.stillPending { return false; }
      UntilMore(history, Failed(r.at), r.at);
      var fires := NoteFailure(r.at);
      if fires {
        UntilMore(history, Rollback(BootLoop), r.at);
        NoteRollback(BootLoop);
      }
      back := fires && r.back;
    }

    method EarlyOrStable(r: Round)
      requires Valid() && Until(history, r.later) && r.end.Exit?
      modifies this
      ensures Valid() && history == EarlyPart(config, old(history), r)
    {
      var cut := EarlyExit(r.end, r.later);
      if cut { CantStart(r.rollback); }
    }

    /** The loop's body. */
    method Turn(r: Round)
      requires Valid() && Until(history, r.at) && r.at <= r.later
      modifies this
      ensures Valid() && history == Turned(config, old(history), r)
    {
      if r.refused {
        UntilMore(history, Rollback(Refused), r.at);
        NoteRollback(Refused);
      }
      if r.starts { Serve(r); }
    }

    /** runOnce, and what follows its exit. */
    method Serve(r: Round)
      requires Valid() && Until(history, r.at) && r.at <= r.later
      modifies this
      ensures Valid() && history == Served(config, old(history), r)
    {
      UntilMore(history, Start(r.version, r.pending, r.start), r.at);
      NoteStart(r.version, r.pending, r.start);
      var timedOut := Watch(r);
      if timedOut {
        NoteRollback(PendingTimeout);
        return;
      }
      if r.end.Stopped? || r.end.code == RESTART { return; }
      var back := GuardExit(r);
      if back || r.pendingThen { return; }
      EarlyOrStable(r);
    }
  }

  lemma UntilMore(h: History, e: Event, t: int)
    requires Until(h, t) && (e.Failed? || e.Early? ==> e.at <= t)
    ensures Until(h + [e], t)
  {
  }

  method Prune(ts: seq<int>, now: int, w: int, edge: bool) returns (kept: seq<int>)
    ensures kept == Recent(ts, now, w, edge)
  {
    kept := [];
    for i := 0 to |ts|
      invariant kept == Recent(ts[..i], now, w, edge)
    {
      assert ts[..i + 1][..i] == ts[..i];
      if now - ts[i] < w || (edge && now - ts[i] == w) { kept := kept + [ts[i]]; }
    }
    assert ts[..|ts|] == ts;
  }

  // ---------------------------------------------------------------------
  // The guards over whole histories
  // ---------------------------------------------------------------------

  function Lived(c: Config, rounds: seq<Round>): History {
    if rounds == [] then [] else Turned(c, Lived(c, rounds[..|rounds| - 1]), rounds[|rounds| - 1])
  }

  /** The last event makes the guard's count; or the cut-off's. */
  predicate CountMade(c: Config, h: History) { h != [] && Last(h).Failed? && LoopCount(c, h) >= c.loopMax }

  predicate CutMade(c: Config, h: History) {
    h != [] && Last(h).Early? && Limit(c) > 0 && EarlyCount(h) >= Limit(c)
  }

  predicate IsCut(h: History, i: nat) { i < |h| && h[i] == Cut }

  predicate IsFire(h: History, i: nat) { i < |h| && h[i] == Rollback(BootLoop) }

  predicate FiredAt(c: Config, h: History, i: nat)
    requires i < |h|
  {
    && (CountMade(c, h[..i + 1]) <==> IsFire(h, i + 1))
    && (CutMade(c, h[..i + 1]) <==> IsCut(h, i + 1))
  }

  /** Up to the last event, the guard fired right after each exit that made its count and after no other, and the cut-off likewise. */
  ghost predicate FiredSoFar(c: Config, h: History) {
    && (forall i :: 0 <= i < |h| - 1 ==> FiredAt(c, h, i))
    && !IsFire(h, 0) && !IsCut(h, 0)
  }

  /** Nothing is owed for the last event. */
  predicate Settled(c: Config, h: History) { !CountMade(c, h) && !CutMade(c, h) }

  lemma Grows(c: Config, h: History, e: Event)
    requires FiredSoFar(c, h)
    requires e == Rollback(BootLoop) <==> CountMade(c, h)
    requires e == Cut <==> CutMade(c, h)
    ensures FiredSoFar(c, h + [e])
    ensures !e.Failed? && !e.Early? ==> Settled(c, h + [e])
  {
    var g := h + [e];
    forall i | 0 <= i < |g| - 1 ensures FiredAt(c, g, i) {
      assert g[..i + 1] == h[..i + 1];
      if i == |h| - 1 { assert h[..i + 1] == h; } else { assert FiredAt(c, h, i); }
    }
  }

  lemma GuardPartFires(c: Config, h: History, r: Round)
    requires FiredSoFar(c, h) && Settled(c, h) && c.loopMax > 0
    ensures FiredSoFar(c, GuardPart(c, h, r)) && Settled(c, GuardPart(c, h, r))
  {
    if r.stillPending {
      var f := h + [Failed(r.at)];
      Grows(c, h, Failed(r.at));
      if LoopCount(c, f) >= c.loopMax { Grows(c, f, Rollback(BootLoop)); }
    }
  }

  lemma EarlyPartFires(c: Config, h: History, r: Round)
    requires FiredSoFar(c, h) && Settled(c, h)
    ensures FiredSoFar(c, EarlyPart(c, h, r)) && Settled(c, EarlyPart(c, h, r))
  {
    if r.end.Stopped? || r.end.ran >= c.stableAfter {
      Grows(c, h, Stable);
    } else {
      var e := h + [Early(r.later)];
      Grows(c, h, Early(r.later));
      if Limit(c) > 0 && EarlyCount(e) >= Limit(c) {
        CutPartFires(c, e, r.rollback);
      }
    }
  }

  lemma CutPartFires(c: Config, h: History, rollback: Option<bool>)
    requires FiredSoFar(c, h) && CutMade(c, h)
    ensures FiredSoFar(c, CutPart(h, rollback)) && Settled(c, CutPart(h, rollback))
  {
    Grows(c, h, Cut);
    Grows(c, h + [Cut], Chosen);
    Grows(c, h + [Cut] + [Chosen], Rollback(CantStart));
  }

  /** In whatever the launcher lives through, each guard fires at the first exit that makes its count, and never earlier. */
  lemma {:induction false} GuardsFireExactly(c: Config, rounds: seq<Round>)
    requires c.loopMax > 0
    ensures FiredSoFar(c, Lived(c, rounds)) && Settled(c, Lived(c, rounds))
  {
    if rounds != [] {
      var n := |rounds| - 1;
      GuardsFireExactly(c, rounds[..n]);
      Grows(c, Lived(c, rounds[..n]), Rollback(Refused));
      ServedFires(c, Decided(Lived(c, rounds[..n]), rounds[n]), rounds[n]);
    }
  }

  lemma ServedFires(c: Config, h: History, r: Round)
    requires FiredSoFar(c, h) && Settled(c, h) && c.loopMax > 0
    ensures FiredSoFar(c, Served(c, h, r)) && Settled(c, Served(c, h, r))
  {
    var s := h + [Start(r.version, r.pending, r.start)];
    Grows(c, h, Start(r.version, r.pending, r.start));
    Grows(c, s, Rollback(PendingTimeout));
    GuardPartFires(c, s, r);
    EarlyPartFires(c, GuardPart(c, s, r), r);
  }

  /** Between turns the counts are under their limits: what fired started its count over, or stopped the launcher. */
  lemma {:induction false} CountsStayUnder(c: Config, rounds: seq<Round>)
    requires c.loopMax > 0
    ensures LoopCount(c, Lived(c, rounds)) < c.loopMax
  {
    if rounds != [] {
      var n := |rounds| - 1;
      CountsStayUnder(c, rounds[..n]);
      Snoc(Lived(c, rounds[..n]), Rollback(Refused));
      ServedStaysUnder(c, Decided(Lived(c, rounds[..n]), rounds[n]), rounds[n]);
    }
  }

  lemma ServedStaysUnder(c: Config, h: History, r: Round)
    requires c.loopMax > 0 && LoopCount(c, h) < c.loopMax
    ensures LoopCount(c, Served(c, h, r)) < c.loopMax
  {
    var s := h + [Start(r.version, r.pending, r.start)];
    Snoc(h, Start(r.version, r.pending, r.start));
    if TimedOut(c, s, r) {
      Snoc(s, Rollback(PendingTimeout));
    } else {
      GuardPartStaysUnder(c, s, r);
      EarlyPartKeepsFailures(c, GuardPart(c, s, r), r);
    }
  }

  lemma GuardPartStaysUnder(c: Config, h: History, r: Round)
    requires c.loopMax > 0 && LoopCount(c, h) < c.loopMax
    ensures LoopCount(c, GuardPart(c, h, r)) < c.loopMax
  {
    Snoc(h + [Failed(r.at)], Rollback(BootLoop));
  }

  lemma EarlyPartKeepsFailures(c: Config, h: History, r: Round)
    ensures TallyOf(EarlyPart(c, h, r)).failures == TallyOf(h).failures || TallyOf(EarlyPart(c, h, r)).failures == []
  {
    var e := h + [Early(r.later)];
    Snoc(h, Stable);
    Snoc(h, Early(r.later));
    CutPartKeepsFailures(e, r.rollback);
  }

  lemma CutPartKeepsFailures(h: History, rollback: Option<bool>)
    ensures TallyOf(CutPart(h, rollback)).failures == TallyOf(h).failures || TallyOf(CutPart(h, rollback)).failures == []
  {
    Snoc(h, Cut);
    Snoc(h + [Cut], Chosen);
    Snoc(h + [Cut] + [Chosen], Rollback(CantStart));
  }

  // ---------------------------------------------------------------------
  // The deadline
  // ---------------------------------------------------------------------

  /**
  A release is given up exactly when a tick finds it pending, at or after its first start plus the
  timeout, and the deadline its update set; its first start is the event that started the count over.
  */
  lemma GivenUpIff(c: Config, h: History, r: Round, n: nat)
    requires CountsFrom(h, n) && TallyOf(h).guarded == Some(r.version)
    ensures 0 < n && h[n - 1].Start? && h[n - 1].version == r.version
    ensures TimedOut(c, h, r) <==>
            exists i :: 0 <= i < |r.ticks| && PastItsDeadline(c, h[n - 1].at, r.ticks[i])
  {
    FirstStartIs(h, n);
    if i :| 0 <= i < |r.ticks| && PastItsDeadline(c, h[n - 1].at, r.ticks[i]) { assert TimesOut(c, h, r, r.ticks[i]); }
    if i :| 0 <= i < |r.ticks| && TimesOut(c, h, r, r.ticks[i]) { assert PastItsDeadline(c, h[n - 1].at, r.ticks[i]); }
  }

  predicate PastItsDeadline(c: Config, firstStart: int, k: Tick) {
    k.pending && k.now >= firstStart + c.pendingTimeout && (k.deadline.Some? ==> k.now >= k.deadline.value)
  }

  /** A pending release restarted by itself keeps the first start its deadline counts from. */
  lemma {:induction false} RestartsKeepTheFirstStart(c: Config, h: History, rounds: seq<Round>, version: string)
    requires TallyOf(h).guarded == Some(version)
    requires forall i :: 0 <= i < |rounds| ==> QuickRestart(rounds[i], version)
    ensures var g := After(c, h, rounds);
            TallyOf(g).guarded == Some(version) && TallyOf(g).firstStart == TallyOf(h).firstStart && TallyOf(g).failures == TallyOf(h).failures
  {
    if rounds != [] {
      var n := |rounds| - 1;
      RestartsKeepTheFirstStart(c, h, rounds[..n], version);
      var g, r := After(c, h, rounds[..n]), rounds[n];
      Snoc(g, Start(r.version, r.pending, r.start));
    }
  }

  function After(c: Config, h: History, rounds: seq<Round>): History {
    if rounds == [] then h else Turned(c, After(c, h, rounds[..|rounds| - 1]), rounds[|rounds| - 1])
  }

  /** The pending release, restarting itself before a tick looks at it. */
  predicate QuickRestart(r: Round, version: string) {
    r.starts && !r.refused && r.version == version && r.pending && r.ticks == [] && r.end.Exit? && r.end.code == RESTART
  }

  /**
  A pending release that keeps exiting 75 before a tick is never given up, however long it goes
  on: it is only started again.
  */
  lemma {:induction false} QuickRestartsNeverFire(c: Config, h: History, rounds: seq<Round>, version: string)
    requires forall i :: 0 <= i < |rounds| ==> QuickRestart(rounds[i], version)
    ensures var g := After(c, h, rounds);
            h <= g && |g| == |h| + |rounds|
            && forall i :: |h| <= i < |g| ==> g[i].Start?
  {
    if rounds != [] { QuickRestartsNeverFire(c, h, rounds[..|rounds| - 1], version); }
  }
}
