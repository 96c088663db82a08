/**
The home's cluster link (api/cluster_link.go): since when each machine holds its link without
a break, and the switch to requiring it. Sessions come and go (api/internal/cluster/link),
onSession marks link_since in the database within its time limit, the 30 s sweep clears it for
machines down past the grace, and autoRequire looks at the approved machines' marks.
*/
module LinkRequire {

  const SECOND := 1_000_000_000
  const SWEEP_EVERY := 30 * SECOND
  const MARK_LIMIT := 10 * SECOND
  const REQUIRE_AFTER := 86400 * SECOND

  datatype Option<T> = None | Some(value: T)

  /** A time without a session, from and until when. */
  datatype Spell = Spell(from: int, until: int)

  /**
  A machine. since is its row's link_since, entry the down map's time for it, pending when the
  sessions came whose marks have not reached the database. The rest is what really happened in
  this run of the process: whether a session came, the time down since (while down) and the
  spells that ended.
  */
  datatype Machine = Machine(
    approved: bool,
    since: Option<int>,
    live: bool,
    entry: Option<int>,
    pending: seq<int>,
    seen: bool,
    downAt: int,
    spells: seq<Spell>)

  datatype Mode = Prefer | Require | Off

  datatype State = State(
    now: int,
    swept: int,
    grace: int,
    mode: Mode,
    auto: bool,
    machines: seq<Machine>)

  datatype Action =
    | Tick
    | Up(id: nat)
    | Down(id: nat)
    | Mark(id: nat, k: nat, reaches: bool)
    | Sweep(works: bool)
    | AutoRequire(works: bool)
    | Rules(mode: Mode, auto: bool, grace: int)   // refreshRules
    | Approves(id: nat, approved: bool)

  predicate Is(s: State, id: nat) { id < |s.machines| }

  function Put(s: State, id: nat, m: Machine): State
    requires Is(s, id)
  {
    s.(machines := s.machines[id := m])
  }

  /** A session came where there was none. */
  function CameUp(m: Machine, now: int): Machine {
    if m.live then m
    else
      m.(live := true, entry := None, pending := m.pending + [now], seen := true,
         spells := if m.seen then m.spells + [Spell(m.downAt, now)] else m.spells)
  }

  function WentDown(m: Machine, now: int): Machine {
    if m.live then m.(live := false, entry := Some(now), downAt := now) else m
  }

  /** The k-th pending mark reaches the database, or does not in its time. */
  function Marked(m: Machine, k: nat, reaches: bool, now: int): Machine {
    if k >= |m.pending| then m
    else
      m.(pending := m.pending[..k] + m.pending[k + 1..],
         since := if reaches && m.since.None? then Some(now) else m.since)
  }

  /** clearBroken on one machine; works: its row could be written. */
  function Swept(m: Machine, now: int, grace: int, works: bool): Machine {
    if m.entry.None? || now - m.entry.value <= grace then m
    else m.(entry := None, since := if m.live || !works then m.since else None)
  }

  function SweptAll(ms: seq<Machine>, now: int, grace: int, works: bool): seq<Machine> {
    seq(|ms|, i requires 0 <= i < |ms| => Swept(ms[i], now, grace, works))
  }

  predicate HeldADay(m: Machine, now: int) { m.since.Some? && m.since.value <= now - REQUIRE_AFTER }

  /** What linkReady finds: some machine is approved, and each approved one held its link for a day. */
  predicate AllHeld(ms: seq<Machine>, now: int) {
    && (exists i :: 0 <= i < |ms| && ms[i].approved)
    && (forall i :: 0 <= i < |ms| && ms[i].approved ==> HeldADay(ms[i], now))
  }

  /** Time goes on while no sweep is due and no mark past its limit. */
  predicate MayTick(s: State) {
    && s.now - s.swept < SWEEP_EVERY
    && forall i :: 0 <= i < |s.machines| ==> InTime(s.machines[i], s.now + 1)
  }

  predicate InTime(m: Machine, now: int) {
    forall k :: 0 <= k < |m.pending| ==> now <= m.pending[k] + MARK_LIMIT
  }

  /** One step; an action that cannot be taken now changes nothing. */
  function Next(s: State, a: Action): State {
    match a
    case Tick => if MayTick(s) then s.(now := s.now + 1) else s
    case Up(id) => if Is(s, id) then Put(s, id, CameUp(s.machines[id], s.now)) else s
    case Down(id) => if Is(s, id) then Put(s, id, WentDown(s.machines[id], s.now)) else s
    case Mark(id, k, reaches) => if Is(s, id) then Put(s, id, Marked(s.machines[id], k, reaches, s.now)) else s
    case Sweep(works) => s.(swept := s.now, machines := SweptAll(s.machines, s.now, s.grace, works))
    case AutoRequire(works) =>
      if s.mode.Prefer? && s.auto && AllHeld(s.machines, s.now) && works then s.(mode := Require) else s
    case Rules(mode, auto, grace) => s.(mode := mode, auto := auto, grace := grace)
    case Approves(id, approved) => if Is(s, id) then Put(s, id, s.machines[id].(approved := approved)) else s
  }

  function After(s: State, run: seq<Action>): State {
    if run == [] then s else Next(After(s, run[..|run| - 1]), run[|run| - 1])
  }

  /** The process starts: no session yet; the rows are as the run before left them. */
  ghost predicate Init(s: State) {
    && s.swept == s.now
    && forall i :: 0 <= i < |s.machines| ==>
                     (var m := s.machines[i]; !m.live && m.entry.None? && m.pending == [] && !m.seen && m.spells == [])
  }

  predicate ClearsWork(run: seq<Action>) { forall i :: 0 <= i < |run| && run[i].Sweep? ==> run[i].works }

  /** A grace is no shorter than a mark's limit, and no longer than longest. */
  predicate FairGrace(grace: int, longest: int) { MARK_LIMIT <= grace <= longest }

  predicate FairGraces(run: seq<Action>, longest: int) {
    forall i :: 0 <= i < |run| && run[i].Rules? ==> FairGrace(run[i].grace, longest)
  }

  // ---------------------------------------------------------------------
  // What every step keeps
  // ---------------------------------------------------------------------

  /** A spell that outlasted the grace and a sweep has ended link_since: what is there came later. */
  predicate SpellCounts(m: Machine, p: Spell, grace: int) {
    p.until - p.from > grace + SWEEP_EVERY ==> m.since.None? || m.since.value >= p.until
  }

  /** Swept while down: no mark is on its way. */
  predicate Cleared(m: Machine) { m.since.None? && m.pending == [] }

  ghost predicate Sound(m: Machine, now: int, swept: int, grace: int) {
    && swept <= now <= swept + SWEEP_EVERY
    && (m.live ==> m.entry.None? && m.seen)
    && (m.entry.Some? ==> m.seen && m.entry.value == m.downAt && m.downAt <= now && swept - m.downAt <= grace)
    && (m.seen && !m.live && m.entry.None? ==> Cleared(m))
    && (!m.seen ==> m.pending == [] && m.spells == [])
    && (forall k :: 0 <= k < |m.pending| ==>
         m.pending[k] <= now <= m.pending[k] + MARK_LIMIT && (m.live || m.pending[k] <= m.downAt))
    && (forall k :: 0 <= k < |m.spells| ==> m.spells[k].until <= now && SpellCounts(m, m.spells[k], grace))
  }

  ghost predicate AllSound(s: State, longest: int) {
    && s.swept <= s.now <= s.swept + SWEEP_EVERY && FairGrace(s.grace, longest)
    && forall i :: 0 <= i < |s.machines| ==> Sound(s.machines[i], s.now, s.swept, longest)
  }

  /** What a machine's session changes: the spell without one ends and is noted, or begins. */
  lemma SessionsAreNoted(s: State, id: nat)
    requires Is(s, id)
    ensures var m, u, d := s.machines[id], Next(s, Up(id)).machines[id], Next(s, Down(id)).machines[id];
            && u.live && !d.live && u.since == d.since == m.since
            && u.spells == (if !m.live && m.seen then m.spells + [Spell(m.downAt, s.now)] else m.spells) && d.spells == m.spells
            && (m.live ==> u == m && d.downAt == s.now && d.entry == Some(s.now))
            && (!m.live ==> d == m && u.seen && u.entry.None? && u.pending == m.pending + [s.now])
  {
  }

  /** The spells noted, none lost. */
  lemma {:induction false} SpellsStay(s: State, run: seq<Action>, id: nat)
    requires Is(s, id)
    ensures Is(After(s, run), id) && s.machines[id].spells <= After(s, run).machines[id].spells
  {
    if run != [] { SpellsStay(s, run[..|run| - 1], id); }
  }

  /** Each time a session came after another, the spell between them is among the machine's. */
  lemma EverySpellIsNoted(s: State, before: seq<Action>, id: nat, after: seq<Action>)
    requires Is(After(s, before), id) && var m := After(s, before).machines[id]; !m.live && m.seen
    ensures var b, t := After(s, before), After(After(s, before), [Up(id)] + after);
            Is(t, id) && Spell(b.machines[id].downAt, b.now) in t.machines[id].spells
  {
    var b := After(s, before);
    SessionsAreNoted(b, id);
    StepFirst(b, Up(id), after);
    SpellsStay(Next(b, Up(id)), after, id);
    var spells := Next(b, Up(id)).machines[id].spells;
    assert spells[|spells| - 1] == Spell(b.machines[id].downAt, b.now);
  }

  /** The rules are taken as they are read, and nothing else changes. */
  lemma RulesAreTaken(s: State, mode: Mode, auto: bool, grace: int)
    ensures Next(s, Rules(mode, auto, grace)) == State(s.now, s.swept, grace, mode, auto, s.machines)
  {
  }

  /** An approval given or taken back is taken too. */
  lemma ApprovalsAreTaken(s: State, id: nat, approved: bool)
    requires Is(s, id)
    ensures var t := Next(s, Approves(id, approved));
            && t == s.(machines := t.machines) && |t.machines| == |s.machines|
            && t.machines[id] == s.machines[id].(approved := approved)
            && forall i :: 0 <= i < |s.machines| && i != id ==> t.machines[i] == s.machines[i]
  {
  }

  /**
  The home switches exactly when it prefers the link and may require it, some machine is approved,
  each approved one has held it for a day, and the rule could be written.
  */
  lemma SwitchesIff(s: State, works: bool)
    requires !s.mode.Require?
    ensures Next(s, AutoRequire(works)).mode.Require? <==>
            && works && s.mode == Prefer && s.auto
            && (exists i :: 0 <= i < |s.machines| && s.machines[i].approved)
            && (forall i :: 0 <= i < |s.machines| && s.machines[i].approved ==>
                  s.machines[i].since.Some? && s.now - s.machines[i].since.value >= 24 * 3600 * SECOND)
  {
    assert forall i :: 0 <= i < |s.machines| ==>
             (HeldADay(s.machines[i], s.now) <==>
              s.machines[i].since.Some? && s.now - s.machines[i].since.value >= 24 * 3600 * SECOND);
  }

  /** A machine with a session, whose mark is there, keeps it while the session lasts. */
  lemma {:induction false} MarkLasts(s: State, run: seq<Action>, id: nat)
    requires Is(s, id) && var m := s.machines[id]; m.live && m.entry.None? && m.since.Some?
    requires Down(id) !in run
    ensures var t := After(s, run);
            Is(t, id) && t.machines[id].live && t.machines[id].entry.None? && t.machines[id].since == s.machines[id].since
  {
    if run != [] {
      var n := |run| - 1;
      assert run[n] in run;
      MarkLasts(s, run[..n], id);
    }
  }

  /** And through a drop no longer than the grace: no sweep clears it. */
  lemma ShortDropIsNoBreak(m: Machine, now: int, grace: int, works: bool)
    requires m.entry.Some? && now - m.entry.value <= grace
    ensures Swept(m, now, grace, works) == m
  {
  }

  lemma CameUpSound(m: Machine, now: int, swept: int, grace: int)
    requires Sound(m, now, swept, grace) && grace >= MARK_LIMIT
    ensures Sound(CameUp(m, now), now, swept, grace)
  {
  }

  lemma WentDownSound(m: Machine, now: int, swept: int, grace: int)
    requires Sound(m, now, swept, grace) && grace >= MARK_LIMIT
    ensures Sound(WentDown(m, now), now, swept, grace)
  {
  }

  lemma MarkedSound(m: Machine, k: nat, reaches: bool, now: int, swept: int, grace: int)
    requires Sound(m, now, swept, grace)
    ensures Sound(Marked(m, k, reaches, now), now, swept, grace)
  {
  }

  lemma SweptSound(m: Machine, now: int, swept: int, grace: int, longest: int)
    requires Sound(m, now, swept, longest) && FairGrace(grace, longest)
    ensures Sound(Swept(m, now, grace, true), now, now, longest)
  {
    if m.pending != [] { assert m.pending[0] <= now <= m.pending[0] + MARK_LIMIT; }
  }

  lemma StepKeepsSound(s: State, a: Action, longest: int)
    requires AllSound(s, longest) && (a.Sweep? ==> a.works) && (a.Rules? ==> FairGrace(a.grace, longest))
    ensures AllSound(Next(s, a), longest)
  {
    match a
    case Tick => if MayTick(s) { TickSound(s, longest); }
    case Up(id) => if Is(s, id) { CameUpSound(s.machines[id], s.now, s.swept, longest); }
    case Down(id) => if Is(s, id) { WentDownSound(s.machines[id], s.now, s.swept, longest); }
    case Mark(id, k, reaches) => if Is(s, id) { MarkedSound(s.machines[id], k, reaches, s.now, s.swept, longest); }
    case Sweep(_) => SweepSound(s, longest);
    case AutoRequire(_) =>
    case Rules(_, _, _) =>
    case Approves(id, _) =>
  }

  lemma TickSound(s: State, longest: int)
    requires AllSound(s, longest) && MayTick(s)
    ensures AllSound(Next(s, Tick), longest)
  {
    forall i | 0 <= i < |s.machines| ensures Sound(s.machines[i], s.now + 1, s.swept, longest) {
      assert Sound(s.machines[i], s.now, s.swept, longest) && InTime(s.machines[i], s.now + 1);
    }
  }

  lemma SweepSound(s: State, longest: int)
    requires AllSound(s, longest)
    ensures AllSound(Next(s, Sweep(true)), longest)
  {
    forall i | 0 <= i < |s.machines| ensures Sound(Swept(s.machines[i], s.now, s.grace, true), s.now, s.now, longest) {
      SweptSound(s.machines[i], s.now, s.swept, s.grace, longest);
    }
  }

  lemma {:induction false} RunKeepsSound(s: State, run: seq<Action>, longest: int)
    requires Init(s) && FairGrace(s.grace, longest) && ClearsWork(run) && FairGraces(run, longest)
    ensures AllSound(After(s, run), longest)
  {
    if run != [] {
      var n := |run| - 1;
      assert forall i :: 0 <= i < n ==> run[..n][i] == run[i];
      RunKeepsSound(s, run[..n], longest);
      StepKeepsSound(After(s, run[..n]), run[n], longest);
    }
  }

  // ---------------------------------------------------------------------
  // The switch
  // ---------------------------------------------------------------------

  /** The machine held its link since the time its row says, but for spells no longer than the grace and a sweep. */
  predicate HeldThroughout(m: Machine, now: int, grace: int) {
    && HeldADay(m, now)
    && (forall k :: 0 <= k < |m.spells| && m.spells[k].until > m.since.value ==>
                      m.spells[k].until - m.spells[k].from <= grace + SWEEP_EVERY)
    && (m.seen && !m.live ==> now - m.downAt <= grace + SWEEP_EVERY)
  }

  /**
  When autoRequire switches the mode, each approved machine's mark is a day old or more, and from
  the first session it had in this run on, no spell down that ended after the mark, or goes on
  now, was longer than the longest grace and one sweep.
  */
  lemma RequiredOnlyWhenHeld(s: State, run: seq<Action>, works: bool, i: nat, longest: int)
    requires Init(s) && FairGrace(s.grace, longest) && ClearsWork(run) && FairGraces(run, longest)
    requires var t := After(s, run); t.mode.Prefer? && Next(t, AutoRequire(works)).mode.Require?
    ensures var t := After(s, run);
            && (exists j :: 0 <= j < |t.machines| && t.machines[j].approved)
            && (i < |t.machines| && t.machines[i].approved ==> HeldThroughout(t.machines[i], t.now, longest))
  {
    RunKeepsSound(s, run, longest);
    var t := After(s, run);
    if i < |t.machines| && t.machines[i].approved {
      var m := t.machines[i];
      assert Sound(m, t.now, t.swept, longest) && HeldADay(m, t.now);
      forall k | 0 <= k < |m.spells| && m.spells[k].until > m.since.value
        ensures m.spells[k].until - m.spells[k].from <= longest + SWEEP_EVERY
      {
        assert SpellCounts(m, m.spells[k], longest);
      }
    }
  }

  /** Nothing but autoRequire, or an admin, changes the mode. */
  lemma OnlyTheseSwitch(s: State, a: Action)
    ensures Next(s, a).mode != s.mode ==> a.Rules? || (a.AutoRequire? && s.mode.Prefer? && s.auto && AllHeld(s.machines, s.now))
  {
  }

  /** In a run, a new mark is of a session that came in this run, at most a mark's limit before. */
  lemma MarkIsASession(s: State, run: seq<Action>, longest: int, id: nat, k: nat)
    requires Init(s) && FairGrace(s.grace, longest) && ClearsWork(run) && FairGraces(run, longest)
    requires var t := After(s, run); Is(t, id) && Next(t, Mark(id, k, true)).machines[id].since != t.machines[id].since
    ensures var t := After(s, run);
            && Next(t, Mark(id, k, true)).machines[id].since == Some(t.now)
            && t.machines[id].seen && k < |t.machines[id].pending|
            && t.machines[id].pending[k] <= t.now <= t.machines[id].pending[k] + MARK_LIMIT
  {
    RunKeepsSound(s, run, longest);
    var t := After(s, run);
    assert Sound(t.machines[id], t.now, t.swept, longest);
  }

  // ---------------------------------------------------------------------
  // What the promise does not cover
  // ---------------------------------------------------------------------

  /** A machine with no session in this run is ready by an older run's mark, however long it has been down. */
  lemma OldMarkCounts(s: State, run: seq<Action>, i: nat)
    requires Init(s) && i < |s.machines|
    requires forall k :: 0 <= k < |run| ==> !(run[k].Up? && run[k].id == i)
    ensures Is(After(s, run), i) && After(s, run).machines[i].since == s.machines[i].since
    ensures !After(s, run).machines[i].seen
  {
    OldMarkStays(s, run, i);
  }

  ghost predicate Unseen(m: Machine, before: Machine) {
    !m.live && m.entry.None? && m.pending == [] && !m.seen && m.since == before.since
  }

  lemma {:induction false} OldMarkStays(s: State, run: seq<Action>, i: nat)
    requires Init(s) && i < |s.machines|
    requires forall k :: 0 <= k < |run| ==> !(run[k].Up? && run[k].id == i)
    ensures Is(After(s, run), i) && Unseen(After(s, run).machines[i], s.machines[i])
  {
    if run != [] {
      var n := |run| - 1;
      assert forall k :: 0 <= k < n ==> run[..n][k] == run[k];
      OldMarkStays(s, run[..n], i);
      UnseenStays(After(s, run[..n]), run[n], i, s.machines[i]);
    }
  }

  lemma UnseenStays(s: State, a: Action, i: nat, before: Machine)
    requires Is(s, i) && Unseen(s.machines[i], before) && !(a.Up? && a.id == i)
    ensures Is(Next(s, a), i) && Unseen(Next(s, a).machines[i], before)
  {
  }

  /** And its first session keeps that mark: the time before it is no spell. */
  lemma FirstSessionKeepsTheOldMark(m: Machine, now: int, later: int)
    requires !m.live && m.since.Some? && m.pending == []
    ensures Marked(CameUp(m, now), 0, true, later).since == m.since
    ensures !m.seen ==> Marked(CameUp(m, now), 0, true, later).spells == m.spells
  {
  }

  /** Down, with nothing left that could clear its row or mark it: swept, or its sweeps fail. */
  ghost predicate StaysDown(m: Machine, since: int, downAt: int) {
    !m.live && m.seen && m.since == Some(since) && m.downAt == downAt && m.entry.None?
  }

  lemma StepStaysDown(s: State, a: Action, i: nat, since: int, downAt: int)
    requires Is(s, i) && StaysDown(s.machines[i], since, downAt) && !(a.Up? && a.id == i)
    ensures Is(Next(s, a), i) && StaysDown(Next(s, a).machines[i], since, downAt)
  {
  }

  lemma {:induction false} RunStaysDown(s: State, run: seq<Action>, i: nat, since: int, downAt: int)
    requires Is(s, i) && StaysDown(s.machines[i], since, downAt)
    requires forall k :: 0 <= k < |run| ==> !(run[k].Up? && run[k].id == i)
    ensures Is(After(s, run), i) && StaysDown(After(s, run).machines[i], since, downAt)
  {
    if run != [] {
      var n := |run| - 1;
      assert forall k :: 0 <= k < n ==> run[..n][k] == run[k];
      RunStaysDown(s, run[..n], i, since, downAt);
      StepStaysDown(After(s, run[..n]), run[n], i, since, downAt);
    }
  }

  lemma {:induction false} StepFirst(s: State, a: Action, run: seq<Action>)
    ensures After(s, [a] + run) == After(Next(s, a), run)
  {
    if run == [] {
      assert [a] + run == [a] && [a][..0] == [];
    } else {
      var n := |run| - 1;
      StepFirst(s, a, run[..n]);
      assert ([a] + run)[..n + 1] == [a] + run[..n];
    }
  }

  /**
  A sweep that cannot write the row of a machine down past its grace: whatever happens next, while
  no session of it comes it is down with its mark, and counts as ready once the mark is a day old.
  */
  lemma FailedClearForgetsTheBreak(s: State, run: seq<Action>, i: nat)
    requires Is(s, i) && var m := s.machines[i];
               !m.live && m.seen && m.since.Some? && m.entry.Some? && s.now - m.entry.value > s.grace
    requires forall k :: 0 <= k < |run| ==> !(run[k].Up? && run[k].id == i)
    ensures var m, t := s.machines[i], After(s, [Sweep(false)] + run);
            && Is(t, i) && StaysDown(t.machines[i], m.since.value, m.downAt)
            && (HeldADay(t.machines[i], t.now) <==> m.since.value <= t.now - REQUIRE_AFTER)
  {
    StepFirst(s, Sweep(false), run);
    RunStaysDown(Next(s, Sweep(false)), run, i, s.machines[i].since.value, s.machines[i].downAt);
  }

  /** And a mark that reaches the row after the sweep did likewise. */
  lemma LateMarkForgetsTheBreak(s: State, run: seq<Action>, i: nat, k: nat)
    requires Is(s, i) && var m := s.machines[i];
               !m.live && m.seen && m.since.None? && m.entry.None? && k < |m.pending|
    requires forall j :: 0 <= j < |run| ==> !(run[j].Up? && run[j].id == i)
    ensures var m, t := s.machines[i], After(s, [Mark(i, k, true)] + run);
            && Is(t, i) && StaysDown(t.machines[i], s.now, m.downAt)
            && (HeldADay(t.machines[i], t.now) <==> s.now <= t.now - REQUIRE_AFTER)
  {
    StepFirst(s, Mark(i, k, true), run);
    RunStaysDown(Next(s, Mark(i, k, true)), run, i, s.now, s.machines[i].downAt);
  }

  /** A home of one approved machine, never seen, that may require its link. */
  ghost predicate OneMachine(s: State) {
    && Init(s) && s.mode.Prefer? && s.auto && |s.machines| == 1 && s.machines[0].approved && s.machines[0].since.None?
  }

  predicate RulesStay(run: seq<Action>) { forall i :: 0 <= i < |run| ==> !run[i].Rules? }

  lemma Then(s: State, run: seq<Action>, a: Action) returns (longer: seq<Action>)
    ensures longer == run + [a] && After(s, longer) == Next(After(s, run), a)
    ensures ClearsWork(run) && (a.Sweep? ==> a.works) ==> ClearsWork(longer)
    ensures RulesStay(run) && !a.Rules? ==> RulesStay(longer)
  {
    longer := run + [a];
    assert longer[..|run|] == run;
  }

  lemma QuietTurn(t: State, works: bool)
    requires |t.machines| == 1 && t.machines[0].pending == []
    requires t.machines[0].entry.Some? ==> t.now - t.machines[0].entry.value <= t.grace
    ensures Next(Next(t, Sweep(works)), Tick) == t.(now := t.now + 1, swept := t.now)
  {
    assert SweptAll(t.machines, t.now, t.grace, works) == t.machines;
  }

  /** Sweeps that change nothing, and time. */
  lemma {:induction false} TimePasses(s: State, run: seq<Action>, works: bool, n: nat) returns (longer: seq<Action>)
    requires var t := After(s, run);
             && |t.machines| == 1 && t.machines[0].pending == []
             && (t.machines[0].entry.Some? ==> t.now + n - t.machines[0].entry.value <= t.grace)
    ensures var t, u := After(s, run), After(s, longer);
            u == t.(now := t.now + n, swept := if n > 0 then t.now + n - 1 else t.swept)
    ensures (ClearsWork(run) && works ==> ClearsWork(longer)) && (RulesStay(run) ==> RulesStay(longer))
  {
    longer := run;
    if n > 0 {
      longer := TimePasses(s, run, works, n - 1);
      QuietTurn(After(s, longer), works);
      longer := Then(s, longer, Sweep(works));
      longer := Then(s, longer, Tick);
    }
  }

  /** Time with a mark on its way and no sweep due. */
  lemma {:induction false} TimeInLimit(s: State, run: seq<Action>, n: nat) returns (longer: seq<Action>)
    requires var t := After(s, run);
             && t.now + n <= t.swept + SWEEP_EVERY
             && forall i :: 0 <= i < |t.machines| ==> InTime(t.machines[i], t.now + n)
    ensures After(s, longer) == After(s, run).(now := After(s, run).now + n)
    ensures (ClearsWork(run) ==> ClearsWork(longer)) && (RulesStay(run) ==> RulesStay(longer))
  {
    longer := run;
    if n > 0 {
      longer := TimeInLimit(s, run, n - 1);
      assert MayTick(After(s, longer));
      longer := Then(s, longer, Tick);
    }
  }

  /** A day, and autoRequire, for one machine that is marked and has nothing left to clear it. */
  lemma DayPasses(s: State, run: seq<Action>) returns (longer: seq<Action>)
    requires var t := After(s, run);
             && |t.machines| == 1 && t.machines[0].pending == [] && t.machines[0].entry.None?
             && t.machines[0].approved && t.machines[0].since.Some? && t.machines[0].since.value <= t.now
             && t.mode.Prefer? && t.auto
    ensures var t, u := After(s, run), After(s, longer);
            u.mode.Require? && u.now == t.now + REQUIRE_AFTER && u.machines == t.machines
    ensures ClearsWork(run) ==> ClearsWork(longer)
    ensures RulesStay(run) ==> RulesStay(longer)
    ensures longer != [] && longer[|longer| - 1] == AutoRequire(true) && After(s, longer[..|longer| - 1]).mode.Prefer?
  {
    var day := TimePasses(s, run, true, REQUIRE_AFTER);
    assert (day + [AutoRequire(true)])[..|day|] == day;
    HeldIsRequired(After(s, day));
    longer := Then(s, day, AutoRequire(true));
  }

  lemma HeldIsRequired(t: State)
    requires |t.machines| == 1 && t.machines[0].approved && HeldADay(t.machines[0], t.now) && t.mode.Prefer? && t.auto
    ensures Next(t, AutoRequire(true)) == t.(mode := Require)
  {
    assert AllHeld(t.machines, t.now);
  }

  lemma MarkedThenDown(s: State) returns (run: seq<Action>)
    requires OneMachine(s)
    ensures RulesStay(run)
    ensures var t := After(s, run);
            && |t.machines| == 1 && t == s.(machines := t.machines)
            && var m := t.machines[0];
               m.approved && m.seen && !m.live && m.pending == [] && m.since == Some(s.now) && m.entry == Some(s.now) && m.downAt == s.now
  {
    run := Then(s, [], Up(0));
    run := Then(s, run, Mark(0, 0, true));
    assert After(s, run).machines[0].pending == [];
    run := Then(s, run, Down(0));
  }

  /** The run's last step requires the link of its one machine, approved, seen and now down for more than a day. */
  ghost predicate RequiresTheDown(s: State, run: seq<Action>) {
    run != [] &&
    (var before, t := After(s, run[..|run| - 1]), After(s, run);
     && before.mode.Prefer? && run[|run| - 1] == AutoRequire(true) && t.mode.Require? && |t.machines| == 1
     && var m := t.machines[0];
        m.approved && m.seen && !m.live && m.since.Some? && t.now - m.downAt > REQUIRE_AFTER)
  }

  /**
  From the start of the process, with any grace: a machine comes up, is marked and goes down, the
  one sweep that should clear it fails, every other works, and a day later its link is required.
  */
  lemma FailedClearRequiresTheDown(s: State) returns (run: seq<Action>)
    requires OneMachine(s) && 0 <= s.grace
    ensures RequiresTheDown(s, run) && RulesStay(run)
  {
    run := MarkedThenDown(s);
    run := TimePasses(s, run, true, s.grace);
    run := TimeInLimit(s, run, 1);
    run := Then(s, run, Sweep(false));
    run := DayPasses(s, run);
  }

  lemma UpThenDown(s: State) returns (run: seq<Action>)
    requires OneMachine(s)
    ensures ClearsWork(run) && RulesStay(run)
    ensures var t := After(s, run);
            && |t.machines| == 1 && t == s.(machines := t.machines)
            && var m := t.machines[0];
               && m.approved && m.seen && !m.live && m.since.None?
               && m.pending == [s.now] && m.entry == Some(s.now) && m.downAt == s.now
  {
    run := Then(s, [], Up(0));
    run := Then(s, run, Down(0));
  }

  /** Swept with nothing to clear, and then marked. */
  lemma MarkedAfterTheSweep(s: State, run: seq<Action>) returns (longer: seq<Action>)
    requires var t := After(s, run);
             && |t.machines| == 1 && |t.machines[0].pending| == 1 && !t.machines[0].live
             && t.machines[0].entry.Some? && t.now - t.machines[0].entry.value > t.grace
    ensures (ClearsWork(run) ==> ClearsWork(longer)) && (RulesStay(run) ==> RulesStay(longer))
    ensures var t, u := After(s, run), After(s, longer);
            && |u.machines| == 1 && u == t.(machines := u.machines, swept := t.now)
            && u.machines[0] == t.machines[0].(entry := None, since := Some(t.now), pending := [])
  {
    longer := Then(s, run, Sweep(true));
    longer := Then(s, longer, Mark(0, 0, true));
    assert After(s, longer).machines[0].pending == [];
  }

  /**
  And with a grace under a mark's limit, every sweep working: a machine comes up and goes down, the
  sweep has nothing to clear, its mark comes after it, and a day later its link is required.
  */
  lemma ShortGraceMarksTheDown(s: State) returns (run: seq<Action>)
    requires OneMachine(s) && 0 <= s.grace < MARK_LIMIT
    ensures RequiresTheDown(s, run) && ClearsWork(run) && RulesStay(run)
  {
    run := UpThenDown(s);
    run := TimeInLimit(s, run, s.grace + 1);
    run := MarkedAfterTheSweep(s, run);
    run := DayPasses(s, run);
  }

  /** In the run, if autoRequire switches now, each approved machine held its link throughout. */
  predicate Promised(s: State, run: seq<Action>) {
    var t := After(s, run);
    t.mode.Prefer? && Next(t, AutoRequire(true)).mode.Require? ==>
      forall i :: 0 <= i < |t.machines| && t.machines[i].approved ==> HeldThroughout(t.machines[i], t.now, s.grace)
  }

  /** With one grace and sweeps that work, the promise is kept in every run if and only if the grace is no shorter than a mark's limit. */
  lemma PromisedIff(grace: int)
    requires 0 <= grace
    ensures (forall s, run :: Init(s) && s.grace == grace && ClearsWork(run) && RulesStay(run) ==> Promised(s, run))
            <==> MARK_LIMIT <= grace
  {
    if MARK_LIMIT <= grace {
      forall s, run | Init(s) && s.grace == grace && ClearsWork(run) && RulesStay(run) ensures Promised(s, run) {
        var t := After(s, run);
        if t.mode.Prefer? && Next(t, AutoRequire(true)).mode.Require? {
          forall i: nat | i < |t.machines| && t.machines[i].approved ensures HeldThroughout(t.machines[i], t.now, grace) {
            RequiredOnlyWhenHeld(s, run, true, i, grace);
          }
        }
      }
    } else {
      var m := Machine(true, None, false, None, [], false, 0, []);
      var s := State(0, 0, grace, Prefer, true, [m]);
      var run := ShortGraceMarksTheDown(s);
      var n := |run| - 1;
      var before := run[..n];
      assert ClearsWork(before) && RulesStay(before) by {
        assert forall i :: 0 <= i < n ==> before[i] == run[i];
      }
      assert After(s, run) == Next(After(s, before), AutoRequire(true));
      assert !HeldThroughout(After(s, before).machines[0], After(s, before).now, grace);
      assert !Promised(s, before);
    }
  }

  // ---------------------------------------------------------------------
  // The home
  // ---------------------------------------------------------------------

  /** A machine's row. */
  datatype Row = Row(approved: bool, since: Option<int>)

  function At(down: map<nat, int>, id: nat): Option<int> { if id in down then Some(down[id]) else None }

  /** What the fields say of a machine. */
  predicate Stands(m: Machine, row: Row, live: bool, entry: Option<int>) {
    row == Row(m.approved, m.since) && m.live == live && m.entry == entry
  }

  /** homeLink, its server's sessions and the rows it marks; st is what the fields stand for. */
  class Home {
    var grace: int
    var mode: Mode
    var auto: bool
    var down: map<nat, int>
    var live: set<nat>
    var rows: seq<Row>
    ghost var st: State

    ghost predicate Valid()
      reads this
    {
      && st.grace == grace && st.mode == mode && st.auto == auto && |rows| == |st.machines|
      && forall i: nat :: i < |rows| ==> Stands(st.machines[i], rows[i], i in live, At(down, i))
    }

    constructor (s: State)
      requires Init(s)
      ensures Valid() && st == s && down == map[] && live == {}
    {
      grace, mode, auto, down, live, st := s.grace, s.mode, s.auto, map[], {}, s;
      rows := seq(|s.machines|, i requires 0 <= i < |s.machines| => Row(s.machines[i].approved, s.machines[i].since));
    }

    /** refreshRules. */
    method RefreshRules(mode: Mode, auto: bool, grace: int)
      requires Valid()
      modifies this
      ensures Valid() && st == Next(old(st), Rules(mode, auto, grace))
      ensures rows == old(rows) && down == old(down) && live == old(live)
      ensures this.mode == mode && this.auto == auto && this.grace == grace
    {
      this.mode, this.auto, this.grace := mode, auto, grace;
      st := Next(st, Rules(mode, auto, grace));
    }

    /** attach and detach, with onSession's change of the down map. */
    method OnSession(id: nat, up: bool, clock: int)
      requires Valid() && id < |rows| && st.now == clock
      modifies this
      ensures Valid() && st == Next(old(st), if up then Up(id) else Down(id))
      ensures rows == old(rows)
    {
      if up {
        if id !in live {
          live := live + {id};
          down := map j | j in down && j != id :: down[j];
        }
        st := Next(st, Up(id));
      } else {
        if id in live {
          live := live - {id};
          down := down[id := clock];
        }
        st := Next(st, Down(id));
      }
    }

    /** onSession's mark, when it reaches the database or fails to. */
    method MarkRow(id: nat, ghost k: nat, reaches: bool, clock: int)
      requires Valid() && id < |rows| && st.now == clock && k < |st.machines[id].pending|
      modifies this
      ensures Valid() && st == Next(old(st), Mark(id, k, reaches))
    {
      if reaches && rows[id].since.None? { rows := rows[id := Row(rows[id].approved, Some(clock))]; }
      st := Next(st, Mark(id, k, reaches));
    }

    /** clearBroken. */
    method ClearBroken(clock: int, works: bool)
      requires Valid() && st.now == clock
      modifies this
      ensures Valid() && st == Next(old(st), Sweep(works))
    {
      var gone := Gone(clock);
      down := map j | j in down && j !in gone :: down[j];
      ClearRows(gone, works);
      ghost var s := st;
      st := Next(st, Sweep(works));
      forall i: nat | i < |rows| ensures Stands(st.machines[i], rows[i], i in live, At(down, i)) {
        assert Stands(s.machines[i], old(rows[i]), i in live, At(old(down), i));
        assert st.machines[i] == Swept(s.machines[i], s.now, s.grace, works);
      }
    }

    /** The rows of those gone that have no session now lose their mark. */
    method ClearRows(gone: seq<nat>, works: bool)
      requires forall i: nat :: i in gone ==> i < |rows|
      modifies this`rows
      ensures |rows| == |old(rows)|
      ensures forall i: nat :: i < |rows| ==>
                                 rows[i] == if i in gone && i !in live && works then old(rows[i]).(since := None) else old(rows[i])
    {
      for k := 0 to |gone|
        invariant |rows| == |old(rows)|
        invariant forall i: nat :: i < |rows| ==>
                                     rows[i] == if i in gone[..k] && i !in live && works then old(rows[i]).(since := None) else old(rows[i])
      {
        var id := gone[k];
        assert id in gone;
        if id !in live && works { rows := rows[id := rows[id].(since := None)]; }
      }
      assert gone[..|gone|] == gone;
    }

    method Gone(clock: int) returns (gone: seq<nat>)
      requires Valid()
      ensures forall i: nat :: i in gone <==> i < |rows| && i in down && clock - down[i] > grace
    {
      gone := [];
      for i := 0 to |rows|
        invariant forall j: nat :: j in gone <==> j < i && j in down && clock - down[j] > grace
      {
        if i in down && clock - down[i] > grace { gone := gone + [i]; }
      }
    }

    /** linkReady. */
    method LinkReady(clock: int) returns (ready: nat, total: nat)
      requires Valid()
      ensures total > 0 && ready >= total <==> AllHeld(st.machines, clock)
    {
      ready, total := 0, 0;
      for i := 0 to |rows|
        invariant ready <= total
        invariant total > 0 <==> exists j :: 0 <= j < i && st.machines[j].approved
        invariant ready == total <==> forall j :: 0 <= j < i && st.machines[j].approved ==> HeldADay(st.machines[j], clock)
      {
        assert Stands(st.machines[i], rows[i], i in live, At(down, i));
        if rows[i].approved {
          total := total + 1;
          if rows[i].since.Some? && rows[i].since.value <= clock - REQUIRE_AFTER { ready := ready + 1; }
        }
      }
    }

    /** autoRequire. */
    method SwitchToRequire(clock: int, works: bool)
      requires Valid() && st.now == clock
      modifies this
      ensures Valid() && st == Next(old(st), AutoRequire(works))
      ensures mode != old(mode) ==> mode == Require && AllHeld(st.machines, clock)
      ensures old(mode) == Prefer && old(auto) && AllHeld(st.machines, clock) && works ==> mode == Require
    {
      if mode != Prefer || !auto { return; }
      var ready, total := LinkReady(clock);
      if total == 0 || ready < total || !works { return; }
      mode := Require;
      st := Next(st, AutoRequire(works));
    }
  }
}
