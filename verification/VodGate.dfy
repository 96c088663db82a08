/**
VOD's share of a hardware encoder's sessions (streaming/vod_gate.go).

Any number of AcquireN calls, release funcs, budget syncs and one live TV slot
take interleaved steps. Every step is one access to what they share: the room,
the reservation under the mutex, a budget the slot takes, a read of `held`, one
addition to it.
*/
module VodGate {
  import opened Sums

  datatype Option<T> = None | Some(value: T)

  /** Where one AcquireN call is, with the locals it still needs. */
  datatype Caller =
    | Asked(n: nat, limit: int, need: int)         // the room read, before the lock
    | Reserved(k: int, limit: int)                 // k sessions added to held
    | Syncing(k: int, limit: int, turn: nat)       // its sync is the one being served
    | Synced(k: int, limit: int, turn: nat)        // the live slot took its budget
    | Sampled(k: int, limit: int, used: int, turn: nat)  // the slots' reports read again
    | Over(k: int, limit: int, used: int, turn: nat)     // the first read of held was too much
    | Trimming(k: int, over: int)                  // the second read; not yet subtracted
    | Taking(k: int, got: nat)                     // taking sessions from the gate
    | Out(released: seq<bool>)                     // handed out: each func, called or not
    | Gone

  /** The sync being served (they are served one at a time). */
  datatype Exchange =
    | Idle
    | Sent(budget: int, who: int)     // a budget on its way (who < 0: not an AcquireN's)
    | Answered(report: int, who: int) // the slot answered; not yet recorded

  /** The live slot, and the front door's last record of it. */
  datatype Slot = Slot(budget: int, sessions: int, report: int, exchange: Exchange, turn: nat)

  datatype State = State(held: int, callers: seq<Caller>, slot: Slot)

  datatype Action =
    | Call(n: nat, limit: int, need: int)
    | Reserve(i: nat)
    | NoSync(i: nat)              // no TV slots, or no cap: straight to the gate
    | SyncSend(who: int, cap: int)
    | SlotApply
    | SyncDone
    | SyncFail(applied: bool)
    | GiveUp(i: nat)              // the call's own wait for its sync ended, its answer there or not
    | Probe
    | ReadUsed(i: nat)
    | ReadHeld(i: nat)
    | ReadHeldAgain(i: nat)
    | Trim(i: nat)
    | GateTake(i: nat)
    | Finish(i: nat)
    | Release(i: nat, j: nat)
    | SlotStart
    | SlotStop

  function Min(a: int, b: int): int { if a < b then a else b }

  /** The sessions a reservation may take: half the cap, what the channels leave, less held. */
  function Grant(n: nat, limit: int, need: int, held: int): int {
    if limit > 0 then Min(n, Min(limit / 2, limit - need) - held) else n
  }

  /** The channels' cap for the slots: the settings' less what VOD holds, at least 1. */
  function SlotBudget(cap: int, held: int): int {
    if cap <= 0 then cap else if cap - held < 1 then 1 else cap - held
  }

  function Unreleased(released: seq<bool>): nat {
    if released == [] then 0
    else Unreleased(released[..|released| - 1]) + (if released[|released| - 1] then 0 else 1)
  }

  predicate Is(s: State, i: nat) { i < |s.callers| }

  predicate Enabled(s: State, a: Action) {
    match a
    case Call(_, _, _) => true
    case Reserve(i) => Is(s, i) && s.callers[i].Asked?
    case NoSync(i) => Is(s, i) && s.callers[i].Reserved?
    case SyncSend(who, cap) =>
      s.slot.exchange.Idle? &&
      (0 <= who ==> who < |s.callers| && s.callers[who].Reserved? && 0 < s.callers[who].limit)
    case SlotApply => s.slot.exchange.Sent?
    case SyncDone =>
      s.slot.exchange.Answered? &&
      (0 <= s.slot.exchange.who ==> s.slot.exchange.who < |s.callers| && s.callers[s.slot.exchange.who].Syncing?)
    case SyncFail(_) =>
      !s.slot.exchange.Idle? &&
      (0 <= s.slot.exchange.who ==> s.slot.exchange.who < |s.callers| && s.callers[s.slot.exchange.who].Syncing?)
    case GiveUp(i) =>
      Is(s, i) &&
      (|| s.callers[i].Reserved? || s.callers[i].Synced?
       || (s.callers[i].Syncing? && !s.slot.exchange.Idle? && s.slot.exchange.who == i))
    case Probe => s.slot.exchange.Idle?
    case ReadUsed(i) => Is(s, i) && s.callers[i].Synced?
    case ReadHeld(i) => Is(s, i) && s.callers[i].Sampled?
    case ReadHeldAgain(i) => Is(s, i) && s.callers[i].Over?
    case Trim(i) => Is(s, i) && s.callers[i].Trimming?
    case GateTake(i) => Is(s, i) && s.callers[i].Taking? && s.callers[i].got < s.callers[i].k
    case Finish(i) => Is(s, i) && s.callers[i].Taking?
    case Release(i, j) => Is(s, i) && s.callers[i].Out? && j < |s.callers[i].released|
    case SlotStart => s.slot.budget <= 0 || s.slot.sessions < s.slot.budget // no budget: no cap
    case SlotStop => 0 < s.slot.sessions
  }

  function Put(s: State, i: nat, c: Caller, add: int): State
    requires Is(s, i)
  {
    s.(callers := s.callers[i := c], held := s.held + add)
  }

  function Apply(s: State, a: Action): State
    requires Enabled(s, a)
  {
    match a
    case Call(n, limit, need) => s.(callers := s.callers + [Asked(n, limit, need)])
    case Reserve(i) =>
      var c := s.callers[i];
      var k := Grant(c.n, c.limit, c.need, s.held);
      if k <= 0 then Put(s, i, Gone, 0) else Put(s, i, Reserved(k, c.limit), k)
    case NoSync(i) => Put(s, i, Taking(s.callers[i].k, 0), 0)
    case SyncSend(who, cap) =>
      var slot := s.slot.(exchange := Sent(SlotBudget(cap, s.held), who), turn := s.slot.turn + 1);
      if who < 0 then s.(slot := slot)
      else Put(s, who, Syncing(s.callers[who].k, s.callers[who].limit, slot.turn), 0).(slot := slot)
    case SlotApply =>
      var e := s.slot.exchange;
      s.(slot := s.slot.(budget := e.budget, exchange := Answered(s.slot.sessions, e.who)))
    case SyncDone =>
      var e := s.slot.exchange;
      var slot := s.slot.(report := e.report, exchange := Idle);
      if e.who < 0 then s.(slot := slot)
      else
        var c := s.callers[e.who];
        Put(s, e.who, Synced(c.k, c.limit, c.turn), 0).(slot := slot)
    case SyncFail(applied) =>
      var e := s.slot.exchange;
      var budget := if e.Sent? && applied then e.budget else s.slot.budget;
      var slot := s.slot.(budget := budget, exchange := Idle);
      if e.who < 0 then s.(slot := slot)
      else Put(s, e.who, Gone, -s.callers[e.who].k).(slot := slot)
    case GiveUp(i) =>
      var e := s.slot.exchange;
      var slot := if s.callers[i].Syncing? then s.slot.(exchange := e.(who := -1)) else s.slot;
      Put(s, i, Gone, -s.callers[i].k).(slot := slot)
    case Probe =>
      s.(slot := s.slot.(exchange := Answered(s.slot.sessions, -1), turn := s.slot.turn + 1))
    case ReadUsed(i) =>
      var c := s.callers[i];
      Put(s, i, Sampled(c.k, c.limit, s.slot.report, c.turn), 0)
    case ReadHeld(i) =>
      var c := s.callers[i];
      if c.used + s.held > c.limit then Put(s, i, Over(c.k, c.limit, c.used, c.turn), 0)
      else Put(s, i, Taking(c.k, 0), 0)
    case ReadHeldAgain(i) =>
      var c := s.callers[i];
      Put(s, i, Trimming(c.k, Min(c.used + s.held - c.limit, c.k)), 0)
    case Trim(i) =>
      var c := s.callers[i];
      Put(s, i, if c.k - c.over == 0 then Gone else Taking(c.k - c.over, 0), -c.over)
    case GateTake(i) => Put(s, i, s.callers[i].(got := s.callers[i].got + 1), 0)
    case Finish(i) =>
      var c := s.callers[i];
      Put(s, i, Out(seq(c.got, _ => false)), c.got - c.k)
    case Release(i, j) =>
      var c := s.callers[i];
      if c.released[j] then s else Put(s, i, Out(c.released[j := true]), -1)
    case SlotStart => s.(slot := s.slot.(sessions := s.slot.sessions + 1))
    case SlotStop => s.(slot := s.slot.(sessions := s.slot.sessions - 1))
  }

  /** Nothing held, a live slot within the cap and no call yet. */
  predicate Init(s: State) {
    s.held == 0 && s.callers == [] && s.slot.exchange == Idle && s.slot.turn == 0
  }

  /** And the slot under a budget within the cap. */
  predicate Starts(s: State, cap: int) { Init(s) && 0 < s.slot.budget <= cap && s.slot.sessions <= cap }

  ghost predicate Valid(s: State, run: seq<Action>)
    decreases |run|
  {
    run == [] || (Enabled(s, run[0]) && Valid(Apply(s, run[0]), run[1..]))
  }

  ghost function After(s: State, run: seq<Action>): State
    requires Valid(s, run)
    decreases |run|
  {
    if run == [] then s else After(Apply(s, run[0]), run[1..])
  }

  // ---------------------------------------------------------------------
  // The ledger
  // ---------------------------------------------------------------------

  /** The sessions of held that are this call's: reserved, or handed out and not released. */
  function Owed(c: Caller): int {
    match c
    case Asked(_, _, _) => 0
    case Gone => 0
    case Out(released) => Unreleased(released)
    case _ => c.k
  }

  function OwedAll(s: State): int { Sum(s.callers, Owed) }

  predicate WellFormed(c: Caller) {
    match c
    case Asked(_, _, _) => true
    case Gone => true
    case Out(_) => true
    case Trimming(k, over) => 0 < k && over <= k
    case Taking(k, got) => 0 < k && got <= k
    case _ => 0 < c.k
  }

  ghost predicate Ledger(s: State) {
    && s.held == OwedAll(s)
    && forall i :: 0 <= i < |s.callers| ==> WellFormed(s.callers[i])
  }

  lemma {:induction false} UnreleasedUpdate(released: seq<bool>, j: nat)
    requires j < |released| && !released[j]
    ensures Unreleased(released[j := true]) == Unreleased(released) - 1
  {
    var n := |released| - 1;
    if j == n {
      assert released[j := true][..n] == released[..n];
    } else {
      assert released[j := true][..n] == released[..n][j := true];
      UnreleasedUpdate(released[..n], j);
    }
  }

  lemma {:induction false} UnreleasedFresh(n: nat)
    ensures Unreleased(seq(n, _ => false)) == n
  {
    if n > 0 {
      var s := seq(n, _ => false);
      assert s[..n - 1] == seq(n - 1, _ => false);
      UnreleasedFresh(n - 1);
    }
  }

  lemma PutLedger(s: State, i: nat, c: Caller, add: int)
    requires Ledger(s) && Is(s, i) && WellFormed(c)
    requires Owed(c) == Owed(s.callers[i]) + add
    ensures Ledger(Put(s, i, c, add))
  {
    SumUpdate(s.callers, i, c, Owed);
  }

  lemma SyncStepKeepsLedger(s: State, a: Action)
    requires Ledger(s) && Enabled(s, a)
    requires a.SyncSend? || a.SyncDone? || a.SyncFail? || a.GiveUp?
    ensures Ledger(Apply(s, a))
  {
    match a
    case SyncSend(who, cap) =>
      if 0 <= who { PutLedger(s, who, Syncing(s.callers[who].k, s.callers[who].limit, s.slot.turn + 1), 0); }
    case SyncDone =>
      var w := s.slot.exchange.who;
      if 0 <= w { PutLedger(s, w, Synced(s.callers[w].k, s.callers[w].limit, s.callers[w].turn), 0); }
    case SyncFail(applied) =>
      var w := s.slot.exchange.who;
      if 0 <= w { PutLedger(s, w, Gone, -s.callers[w].k); }
    case GiveUp(i) => PutLedger(s, i, Gone, -s.callers[i].k);
  }

  lemma CallStepKeepsLedger(s: State, a: Action)
    requires Ledger(s) && Enabled(s, a)
    requires a.Reserve? || a.NoSync? || a.ReadUsed? || a.ReadHeld? || a.ReadHeldAgain? || a.Trim?
    ensures Ledger(Apply(s, a))
  {
    var i := a.i;
    var c := s.callers[i];
    match a
    case Reserve(_) =>
      var k := Grant(c.n, c.limit, c.need, s.held);
      if k <= 0 { PutLedger(s, i, Gone, 0); } else { PutLedger(s, i, Reserved(k, c.limit), k); }
    case NoSync(_) => PutLedger(s, i, Taking(c.k, 0), 0);
    case ReadUsed(_) => PutLedger(s, i, Sampled(c.k, c.limit, s.slot.report, c.turn), 0);
    case ReadHeld(_) =>
      if c.used + s.held > c.limit { PutLedger(s, i, Over(c.k, c.limit, c.used, c.turn), 0); }
      else { PutLedger(s, i, Taking(c.k, 0), 0); }
    case ReadHeldAgain(_) => PutLedger(s, i, Trimming(c.k, Min(c.used + s.held - c.limit, c.k)), 0);
    case Trim(_) => PutLedger(s, i, if c.k - c.over == 0 then Gone else Taking(c.k - c.over, 0), -c.over);
  }

  /** Every step keeps the ledger, whatever the reads of held said. */
  lemma StepKeepsLedger(s: State, a: Action)
    requires Ledger(s) && Enabled(s, a)
    ensures Ledger(Apply(s, a))
  {
    match a
    case Call(n, limit, need) => SumAppend(s.callers, Asked(n, limit, need), Owed);
    case GateTake(i) => PutLedger(s, i, s.callers[i].(got := s.callers[i].got + 1), 0);
    case Finish(i) =>
      var c := s.callers[i];
      UnreleasedFresh(c.got);
      PutLedger(s, i, Out(seq(c.got, _ => false)), c.got - c.k);
    case Release(i, j) =>
      var c := s.callers[i];
      if !c.released[j] {
        UnreleasedUpdate(c.released, j);
        PutLedger(s, i, Out(c.released[j := true]), -1);
      }
    case SlotApply =>
    case Probe =>
    case SlotStart =>
    case SlotStop =>
    case SyncSend(_, _) => SyncStepKeepsLedger(s, a);
    case SyncDone => SyncStepKeepsLedger(s, a);
    case SyncFail(_) => SyncStepKeepsLedger(s, a);
    case GiveUp(_) => SyncStepKeepsLedger(s, a);
    case _ => CallStepKeepsLedger(s, a);
  }

  lemma {:induction false} RunKeepsLedger(s: State, run: seq<Action>)
    requires Ledger(s) && Valid(s, run)
    ensures Ledger(After(s, run))
    decreases |run|
  {
    if run != [] {
      StepKeepsLedger(s, run[0]);
      RunKeepsLedger(Apply(s, run[0]), run[1..]);
    }
  }

  /** Conservation: in every reachable state held is exactly what is reserved or out, never negative. */
  lemma HeldIsReservedPlusOut(s: State, run: seq<Action>)
    requires Init(s) && Valid(s, run)
    ensures After(s, run).held == OwedAll(After(s, run))
    ensures After(s, run).held >= 0
  {
    RunKeepsLedger(s, run);
    var t := After(s, run);
    SumNonNegative(t.callers, Owed);
  }

  // ---------------------------------------------------------------------
  // The caps, with TV slots on and a fixed cap
  // ---------------------------------------------------------------------

  /** The sessions committed to a transcode: past the re-check, not yet given back. */
  function Committed(c: Caller): int {
    match c
    case Trimming(k, over) => k - over
    case Taking(k, _) => k
    case Out(released) => Unreleased(released)
    case _ => 0
  }

  function CommittedAll(s: State): int { Sum(s.callers, Committed) }

  /** The sessions of a call that a budget sent at sync t leaves room for. */
  function Share(c: Caller, t: int): int {
    match c
    case Syncing(k, _, turn) => if turn <= t then k else 0
    case Synced(k, _, turn) => if turn <= t then k else 0
    case Sampled(k, _, _, turn) => if turn <= t then k else 0
    case Over(k, _, _, turn) => if turn <= t then k else 0
    case _ => Committed(c)
  }

  function ShareAt(t: int): Caller -> int { (c: Caller) => Share(c, t) }

  function Pledged(s: State, t: int): int { Sum(s.callers, ShareAt(t)) }

  /** One cap throughout, and no re-check whose second read of held leaves nothing to trim. */
  predicate Guarded(s: State, a: Action, cap: int)
    requires Enabled(s, a)
  {
    match a
    case Call(_, limit, _) => limit == cap
    case NoSync(_) => false
    case SyncSend(_, c) => c == cap
    case ReadHeldAgain(i) => cap <= s.callers[i].used + s.held
    case _ => true
  }

  predicate Limited(c: Caller, cap: int, slot: Slot, i: int) {
    match c
    case Asked(_, limit, _) => limit == cap
    case Reserved(_, limit) => limit == cap
    case Syncing(_, limit, turn) =>
      limit == cap && 0 < turn == slot.turn && !slot.exchange.Idle? && slot.exchange.who == i
    case Synced(_, limit, turn) => limit == cap && Settled(turn, slot)
    case Sampled(_, limit, _, turn) => limit == cap && Settled(turn, slot)
    case Over(_, limit, _, turn) => limit == cap && Settled(turn, slot)
    case Trimming(_, over) => 0 <= over
    case _ => true
  }

  /** A sync that was answered: not the one being served. */
  predicate Settled(turn: nat, slot: Slot) {
    0 < turn <= slot.turn && (!slot.exchange.Idle? ==> turn < slot.turn)
  }

  /** The newest sync whose budget the slot has taken into account. */
  function Applied(slot: Slot): int { if slot.exchange.Sent? then slot.turn - 1 else slot.turn }

  /** The newest sync whose answer is recorded. */
  function Recorded(slot: Slot): int {
    if slot.exchange.Idle? then slot.turn else slot.turn - 1
  }

  /** The slot holds what it reported, or it has room for everything a budget left out. */
  predicate ReportCovers(s: State, report: int, t: int, cap: int) {
    s.slot.sessions <= report || s.slot.sessions + Pledged(s, t) <= cap
  }

  predicate Sample(c: Caller) { c.Sampled? || c.Over? }

  ghost predicate Capped(s: State, cap: int) {
    && 0 < cap
    && Ledger(s)
    && s.held <= cap / 2
    && (!s.slot.exchange.Idle? ==> 0 < s.slot.turn)
    && (forall i :: 0 <= i < |s.callers| ==> Limited(s.callers[i], cap, s.slot, i))
    && 0 < s.slot.budget && s.slot.budget + Pledged(s, Applied(s.slot)) <= cap
    && (s.slot.exchange.Sent? ==>
          0 < s.slot.exchange.budget && s.slot.exchange.budget + Pledged(s, s.slot.turn) <= cap)
    && (s.slot.exchange.Answered? ==> ReportCovers(s, s.slot.exchange.report, s.slot.turn, cap))
    && ReportCovers(s, s.slot.report, Recorded(s.slot), cap)
    && (forall i :: 0 <= i < |s.callers| && Sample(s.callers[i]) ==>
          ReportCovers(s, s.callers[i].used, s.callers[i].turn, cap))
    && s.slot.sessions + Pledged(s, 0) <= cap
  }

  lemma PledgedPut(s: State, i: nat, c: Caller, add: int, t: int)
    requires Is(s, i)
    ensures Pledged(Put(s, i, c, add), t) == Pledged(s, t) - Share(s.callers[i], t) + Share(c, t)
  {
    SumUpdate(s.callers, i, c, ShareAt(t));
  }

  lemma PledgedGrows(s: State, t: int, u: int)
    requires t <= u
    requires forall i :: 0 <= i < |s.callers| ==> WellFormed(s.callers[i])
    ensures Pledged(s, t) <= Pledged(s, u)
  {
    SumLe(s.callers, ShareAt(t), ShareAt(u));
  }

  lemma HeldCoversPledged(s: State, t: int)
    requires Ledger(s)
    requires forall i :: 0 <= i < |s.callers| ==> (s.callers[i].Trimming? ==> 0 <= s.callers[i].over)
    ensures Pledged(s, t) <= s.held
  {
    SumLe(s.callers, ShareAt(t), Owed);
  }

  /** held covers what a call that is still to be checked holds, on top of the older pledges. */
  lemma HeldCoversPledgedAnd(s: State, i: nat, t: int)
    requires Ledger(s) && Is(s, i) && Sample(s.callers[i]) && t < s.callers[i].turn
    requires forall i :: 0 <= i < |s.callers| ==> (s.callers[i].Trimming? ==> 0 <= s.callers[i].over)
    ensures Pledged(s, t) + s.callers[i].k <= s.held
  {
    var c := Taking(s.callers[i].k, 0);
    var s' := Put(s, i, c, 0);
    PledgedPut(s, i, c, 0, t);
    PutLedger(s, i, c, 0);
    HeldCoversPledged(s', t);
  }

  /** Only the call being served has the newest turn. */
  lemma NewestTurnIsServed(s: State, cap: int, t: int)
    requires forall i :: 0 <= i < |s.callers| ==> Limited(s.callers[i], cap, s.slot, i)
    requires forall i :: 0 <= i < |s.callers| ==> !s.callers[i].Syncing?
    requires t == s.slot.turn
    ensures Pledged(s, t + 1) == Pledged(s, t)
    ensures !s.slot.exchange.Idle? ==> Pledged(s, t) == Pledged(s, t - 1)
  {
    SumEqual(s.callers, ShareAt(t + 1), ShareAt(t));
    if !s.slot.exchange.Idle? { SumEqual(s.callers, ShareAt(t), ShareAt(t - 1)); }
  }

  /**
  A caller moves on, the slot does not: the caps hold when it pledges no more than before,
  at any sync, and held stays under half the cap.
  */
  lemma PutKeepsCapped(s: State, i: nat, c: Caller, add: int, cap: int)
    requires Capped(s, cap) && Is(s, i)
    requires WellFormed(c) && Limited(c, cap, s.slot, i)
    requires Owed(c) == Owed(s.callers[i]) + add && s.held + add <= cap / 2
    requires forall t :: 0 <= t ==> Share(c, t) <= Share(s.callers[i], t)
    requires Sample(c) ==> ReportCovers(Put(s, i, c, add), c.used, c.turn, cap)
    ensures Capped(Put(s, i, c, add), cap)
  {
    var s' := Put(s, i, c, add);
    PutLedger(s, i, c, add);
    forall t | 0 <= t ensures Pledged(s', t) <= Pledged(s, t) { PledgedPut(s, i, c, add, t); }
  }

  /**
  The re-check lets kk of a call's k sessions through: they fit beside what the live slot
  holds, because either the slot held no more than it reported, or it only grew into a
  budget that left room for them.
  */
  lemma CommitKeepsCapped(s: State, i: nat, c: Caller, kk: int, cap: int)
    requires Capped(s, cap) && Is(s, i) && Sample(s.callers[i])
    requires c == Taking(kk, 0) || (c.Trimming? && c.k - c.over == kk && 0 <= c.over)
    requires WellFormed(c) && Owed(c) == s.callers[i].k
    requires 0 <= kk <= s.callers[i].k
    requires kk == 0 || s.callers[i].used + s.held - (s.callers[i].k - kk) <= cap
    ensures Capped(Put(s, i, c, 0), cap)
  {
    var s' := Put(s, i, c, 0);
    var was := s.callers[i];
    PutLedger(s, i, c, 0);
    forall t ensures Pledged(s', t) == Pledged(s, t) - Share(was, t) + kk { PledgedPut(s, i, c, 0, t); }
    PledgedGrows(s, was.turn, Recorded(s.slot));
    CommitCovers(s, i, c, kk, cap, 0);
    forall j | 0 <= j < |s'.callers| && Sample(s'.callers[j])
      ensures ReportCovers(s', s'.callers[j].used, s'.callers[j].turn, cap)
    {
      assert s.callers[j] == s'.callers[j];
      if 0 < kk && s.callers[j].turn < was.turn { CommitCovers(s, i, c, kk, cap, s.callers[j].turn); }
    }
  }

  /** Older pledges still fit with the newly committed sessions on top. */
  lemma CommitCovers(s: State, i: nat, c: Caller, kk: int, cap: int, t: int)
    requires Capped(s, cap) && Is(s, i) && Sample(s.callers[i])
    requires c == Taking(kk, 0) || (c.Trimming? && c.k - c.over == kk && 0 <= c.over)
    requires 0 <= kk <= s.callers[i].k
    requires kk == 0 || s.callers[i].used + s.held - (s.callers[i].k - kk) <= cap
    requires 0 <= t < s.callers[i].turn
    requires s.slot.sessions + Pledged(s, t) <= cap || 0 < kk
    ensures s.slot.sessions + Pledged(Put(s, i, c, 0), t) <= cap
  {
    PledgedPut(s, i, c, 0, t);
    if 0 < kk {
      HeldCoversPledgedAnd(s, i, t);
      PledgedPut(s, i, Taking(s.callers[i].k, 0), 0, t);
      PledgedPut(s, i, Taking(s.callers[i].k, 0), 0, s.callers[i].turn);
      PledgedGrows(Put(s, i, Taking(s.callers[i].k, 0), 0), t, s.callers[i].turn);
    }
  }

  /** A budget sent now leaves room for every session VOD holds or is taking. */
  lemma SentBudgetCovers(s: State, s': State, cap: int)
    requires Capped(s, cap) && Ledger(s') && s'.held == s.held
    requires forall i :: 0 <= i < |s'.callers| ==> (s'.callers[i].Trimming? ==> 0 <= s'.callers[i].over)
    ensures forall t :: SlotBudget(cap, s.held) + Pledged(s', t) <= cap
  {
    SumNonNegative(s.callers, Owed);
    forall t ensures SlotBudget(cap, s.held) + Pledged(s', t) <= cap { HeldCoversPledged(s', t); }
  }

  lemma OthersSyncSendKeepsCapped(s: State, who: int, cap: int)
    requires Capped(s, cap) && Enabled(s, SyncSend(who, cap)) && who < 0
    ensures Capped(Apply(s, SyncSend(who, cap)), cap)
  {
    var s' := Apply(s, SyncSend(who, cap));
    NewestTurnIsServed(s, cap, s.slot.turn);
    assert forall u :: Pledged(s', u) == Pledged(s, u);
    SentBudgetCovers(s, s', cap);
  }

  lemma SyncSendKeepsCapped(s: State, who: int, cap: int)
    requires Capped(s, cap) && Enabled(s, SyncSend(who, cap)) && 0 <= who
    ensures Capped(Apply(s, SyncSend(who, cap)), cap)
  {
    var s' := Apply(s, SyncSend(who, cap));
    StepKeepsLedger(s, SyncSend(who, cap));
    forall u | u <= s.slot.turn ensures Pledged(s', u) == Pledged(s, u) {
      SumUpdate(s.callers, who, s'.callers[who], ShareAt(u));
    }
    SentBudgetCovers(s, s', cap);
  }

  lemma SlotStepKeepsCapped(s: State, a: Action, cap: int)
    requires Capped(s, cap) && Enabled(s, a)
    requires a.SlotApply? || a.Probe? || a.SlotStop?
    ensures Capped(Apply(s, a), cap)
  {
    var s' := Apply(s, a);
    assert forall u :: Pledged(s', u) == Pledged(s, u);
    if a.Probe? { NewestTurnIsServed(s, cap, s.slot.turn); }
  }

  lemma SlotStartKeepsCapped(s: State, cap: int)
    requires Capped(s, cap) && Enabled(s, SlotStart)
    ensures Capped(Apply(s, SlotStart), cap)
  {
    var s' := Apply(s, SlotStart);
    assert forall u :: Pledged(s', u) == Pledged(s, u);
    assert s.slot.sessions + 1 <= s.slot.budget;
    forall u | 0 <= u <= Applied(s.slot) ensures s'.slot.sessions + Pledged(s', u) <= cap {
      PledgedGrows(s, u, Applied(s.slot));
    }
  }

  /** The served call leaves: what the newest sync pledged is what the one before it did. */
  lemma ServedCallLeaves(s: State, s': State, w: nat, cap: int)
    requires Capped(s, cap) && Is(s, w) && s.callers[w].Syncing?
    requires |s'.callers| == |s.callers| && s'.callers == s.callers[w := s'.callers[w]] && s'.callers[w].Gone?
    ensures forall u :: 0 <= u ==> Pledged(s', u) <= Pledged(s, u)
    ensures Pledged(s', s.slot.turn) == Pledged(s', s.slot.turn - 1)
    ensures Pledged(s', s.slot.turn - 1) == Pledged(s, s.slot.turn - 1)
  {
    assert Limited(s.callers[w], cap, s.slot, w);
    forall u ensures Pledged(s', u) == Pledged(s, u) - Share(s.callers[w], u) {
      SumUpdate(s.callers, w, Gone, ShareAt(u));
    }
    SumEqual(s'.callers, ShareAt(s.slot.turn), ShareAt(s.slot.turn - 1));
  }

  lemma SyncDoneKeepsCapped(s: State, cap: int)
    requires Capped(s, cap) && Enabled(s, SyncDone)
    ensures Capped(Apply(s, SyncDone), cap)
  {
    var s' := Apply(s, SyncDone);
    var w := s.slot.exchange.who;
    StepKeepsLedger(s, SyncDone);
    if 0 <= w {
      forall u ensures Pledged(s', u) == Pledged(s, u) {
        SumUpdate(s.callers, w, s'.callers[w], ShareAt(u));
      }
    } else {
      assert forall u :: Pledged(s', u) == Pledged(s, u);
      NoOneServed(s, cap);
    }
  }

  lemma NoOneServed(s: State, cap: int)
    requires Capped(s, cap) && !s.slot.exchange.Idle? && s.slot.exchange.who < 0
    ensures Pledged(s, s.slot.turn) == Pledged(s, s.slot.turn - 1)
  {
    forall i | 0 <= i < |s.callers| ensures !s.callers[i].Syncing? {
      assert Limited(s.callers[i], cap, s.slot, i);
    }
    NewestTurnIsServed(s, cap, s.slot.turn);
  }

  lemma SyncFailKeepsCapped(s: State, applied: bool, cap: int)
    requires Capped(s, cap) && Enabled(s, SyncFail(applied))
    ensures Capped(Apply(s, SyncFail(applied)), cap)
  {
    var s' := Apply(s, SyncFail(applied));
    var w := s.slot.exchange.who;
    StepKeepsLedger(s, SyncFail(applied));
    if 0 <= w {
      ServedCallLeaves(s, s', w, cap);
    } else {
      assert forall u :: Pledged(s', u) == Pledged(s, u);
      NoOneServed(s, cap);
    }
  }

  lemma GiveUpKeepsCapped(s: State, i: nat, cap: int)
    requires Capped(s, cap) && Enabled(s, GiveUp(i))
    ensures Capped(Apply(s, GiveUp(i)), cap)
  {
    if s.callers[i].Syncing? {
      ServedGiveUpKeepsCapped(s, i, cap);
    } else {
      PutKeepsCapped(s, i, Gone, -s.callers[i].k, cap);
    }
  }

  lemma ServedGiveUpKeepsCapped(s: State, i: nat, cap: int)
    requires Capped(s, cap) && Enabled(s, GiveUp(i)) && s.callers[i].Syncing?
    ensures Capped(Apply(s, GiveUp(i)), cap)
  {
    StepKeepsLedger(s, GiveUp(i));
    ServedCallLeaves(s, Apply(s, GiveUp(i)), i, cap);
  }

  lemma CheckStepKeepsCapped(s: State, a: Action, cap: int)
    requires Capped(s, cap) && Enabled(s, a) && Guarded(s, a, cap)
    requires a.ReadUsed? || a.ReadHeld? || a.ReadHeldAgain?
    ensures Capped(Apply(s, a), cap)
  {
    var i := a.i;
    var c := s.callers[i];
    assert Limited(c, cap, s.slot, i);
    match a
    case ReadUsed(_) =>
      PledgedGrows(s, c.turn, Recorded(s.slot));
      var d := Sampled(c.k, c.limit, s.slot.report, c.turn);
      PledgedPut(s, i, d, 0, c.turn);
      PutKeepsCapped(s, i, d, 0, cap);
    case ReadHeld(_) =>
      if c.used + s.held > c.limit {
        var d := Over(c.k, c.limit, c.used, c.turn);
        PledgedPut(s, i, d, 0, c.turn);
        PutKeepsCapped(s, i, d, 0, cap);
      } else {
        CommitKeepsCapped(s, i, Taking(c.k, 0), c.k, cap);
      }
    case ReadHeldAgain(_) =>
      var over := Min(c.used + s.held - c.limit, c.k);
      CommitKeepsCapped(s, i, Trimming(c.k, over), c.k - over, cap);
  }

  lemma ReserveKeepsCapped(s: State, i: nat, cap: int)
    requires Capped(s, cap) && Enabled(s, Reserve(i))
    ensures Capped(Apply(s, Reserve(i)), cap)
  {
    var c := s.callers[i];
    assert Limited(c, cap, s.slot, i);
    var k := Grant(c.n, c.limit, c.need, s.held);
    if k <= 0 { PutKeepsCapped(s, i, Gone, 0, cap); } else { PutKeepsCapped(s, i, Reserved(k, c.limit), k, cap); }
  }

  lemma TrimKeepsCapped(s: State, i: nat, cap: int)
    requires Capped(s, cap) && Enabled(s, Trim(i))
    ensures Capped(Apply(s, Trim(i)), cap)
  {
    var c := s.callers[i];
    assert Limited(c, cap, s.slot, i);
    PutKeepsCapped(s, i, if c.k - c.over == 0 then Gone else Taking(c.k - c.over, 0), -c.over, cap);
  }

  lemma GateTakeKeepsCapped(s: State, i: nat, cap: int)
    requires Capped(s, cap) && Enabled(s, GateTake(i))
    ensures Capped(Apply(s, GateTake(i)), cap)
  {
    var c := s.callers[i];
    assert Limited(c, cap, s.slot, i);
    PutKeepsCapped(s, i, c.(got := c.got + 1), 0, cap);
  }

  lemma ReleaseStepKeepsCapped(s: State, a: Action, cap: int)
    requires Capped(s, cap) && Enabled(s, a)
    requires a.Finish? || a.Release?
    ensures Capped(Apply(s, a), cap)
  {
    var i := a.i;
    var c := s.callers[i];
    match a
    case Finish(_) =>
      UnreleasedFresh(c.got);
      PutKeepsCapped(s, i, Out(seq(c.got, _ => false)), c.got - c.k, cap);
    case Release(_, j) =>
      if !c.released[j] {
        UnreleasedUpdate(c.released, j);
        PutKeepsCapped(s, i, Out(c.released[j := true]), -1, cap);
      }
  }

  lemma StepKeepsCapped(s: State, a: Action, cap: int)
    requires Capped(s, cap) && Enabled(s, a) && Guarded(s, a, cap)
    ensures Capped(Apply(s, a), cap)
  {
    match a
    case Call(n, limit, need) =>
      StepKeepsLedger(s, a);
      forall u ensures Pledged(Apply(s, a), u) == Pledged(s, u) {
        SumAppend(s.callers, Asked(n, limit, need), ShareAt(u));
      }
    case SyncSend(who, _) =>
      if 0 <= who { SyncSendKeepsCapped(s, who, cap); } else { OthersSyncSendKeepsCapped(s, who, cap); }
    case SlotApply => SlotStepKeepsCapped(s, a, cap);
    case Probe => SlotStepKeepsCapped(s, a, cap);
    case SlotStart => SlotStartKeepsCapped(s, cap);
    case SlotStop => SlotStepKeepsCapped(s, a, cap);
    case SyncDone => SyncDoneKeepsCapped(s, cap);
    case SyncFail(applied) => SyncFailKeepsCapped(s, applied, cap);
    case GiveUp(i) => GiveUpKeepsCapped(s, i, cap);
    case ReadUsed(_) => CheckStepKeepsCapped(s, a, cap);
    case ReadHeld(_) => CheckStepKeepsCapped(s, a, cap);
    case ReadHeldAgain(_) => CheckStepKeepsCapped(s, a, cap);
    case Reserve(i) => ReserveKeepsCapped(s, i, cap);
    case Trim(i) => TrimKeepsCapped(s, i, cap);
    case GateTake(i) => GateTakeKeepsCapped(s, i, cap);
    case Finish(_) => ReleaseStepKeepsCapped(s, a, cap);
    case Release(_, _) => ReleaseStepKeepsCapped(s, a, cap);
  }

  /** A run with one cap throughout, whose second reads of held all find something to trim. */
  ghost predicate GuardedRun(s: State, run: seq<Action>, cap: int)
    requires Valid(s, run)
    decreases |run|
  {
    run == [] || (Guarded(s, run[0], cap) && GuardedRun(Apply(s, run[0]), run[1..], cap))
  }

  lemma {:induction false} RunKeepsCapped(s: State, run: seq<Action>, cap: int)
    requires Capped(s, cap) && Valid(s, run) && GuardedRun(s, run, cap)
    ensures Capped(After(s, run), cap)
    decreases |run|
  {
    if run != [] {
      StepKeepsCapped(s, run[0], cap);
      RunKeepsCapped(Apply(s, run[0]), run[1..], cap);
    }
  }

  /**
  The bound of vodGate: the committed VOD sessions and the live slot's never exceed the cap,
  VOD holds at most half of it, and the slots' budget is exactly what VOD leaves (its floor
  of 1 changes nothing).
  */
  lemma SessionsWithinCap(s: State, run: seq<Action>, cap: int)
    requires Starts(s, cap)
    requires Valid(s, run) && GuardedRun(s, run, cap)
    ensures var t := After(s, run);
            && CommittedAll(t) + t.slot.sessions <= cap
            && 0 <= t.held <= cap / 2
            && SlotBudget(cap, t.held) + t.held == cap
  {
    RunKeepsCapped(s, run, cap);
    var t := After(s, run);
    SumLe(t.callers, Committed, ShareAt(0));
    SumNonNegative(t.callers, Owed);
  }

  /** One cap in every room read, TV slots on or off, and no negative trim. */
  ghost predicate OneCapRun(s: State, run: seq<Action>, cap: int)
    requires Valid(s, run)
    decreases |run|
  {
    run == [] ||
    (&& (run[0].Call? ==> run[0].limit == cap)
     && (run[0].ReadHeldAgain? ==> s.callers[run[0].i].limit <= s.callers[run[0].i].used + s.held)
     && OneCapRun(Apply(s, run[0]), run[1..], cap))
  }

  ghost predicate Halved(s: State, cap: int) {
    && Ledger(s) && 0 < cap && s.held <= cap / 2
    && forall i :: 0 <= i < |s.callers| ==>
         && (s.callers[i].Asked? ==> s.callers[i].limit == cap)
         && (s.callers[i].Trimming? ==> 0 <= s.callers[i].over)
  }

  /** With TV slots off too, VOD never holds more than half of a fixed cap. */
  lemma {:induction false} HeldWithinHalfTheCap(s: State, run: seq<Action>, cap: int)
    requires Halved(s, cap) && Valid(s, run) && OneCapRun(s, run, cap)
    ensures Halved(After(s, run), cap)
    decreases |run|
  {
    if run != [] {
      StepKeepsLedger(s, run[0]);
      StepKeepsHalved(s, run[0], cap);
      HeldWithinHalfTheCap(Apply(s, run[0]), run[1..], cap);
    }
  }

  lemma StepKeepsHalved(s: State, a: Action, cap: int)
    requires Halved(s, cap) && Enabled(s, a) && Ledger(Apply(s, a))
    requires a.Call? ==> a.limit == cap
    requires a.ReadHeldAgain? ==> s.callers[a.i].limit <= s.callers[a.i].used + s.held
    ensures Halved(Apply(s, a), cap)
  {
  }

  /** k sessions more keep VOD within half the cap and within what the channels' need leaves; no cap limits nothing. */
  predicate HasRoom(limit: int, need: int, held: int, k: int) {
    0 < limit ==> held + k <= limit / 2 && held + k <= limit - need
  }

  /** A reservation takes as many sessions as the call asks for and there is room for, and is refused only if that is none. */
  lemma ReservationTakesTheRoom(s: State, i: nat)
    requires Enabled(s, Reserve(i))
    ensures var c, t := s.callers[i], Apply(s, Reserve(i));
            var k := t.held - s.held;
            && 0 <= k <= c.n
            && (t.callers[i] == if k == 0 then Gone else Reserved(k, c.limit))
            && (0 < k ==> HasRoom(c.limit, c.need, s.held, k))
            && (k < c.n ==> !HasRoom(c.limit, c.need, s.held, k + 1))
    ensures s.callers[i].limit <= 0 ==> Apply(s, Reserve(i)).held == s.held + s.callers[i].n
  {
  }

  /** The slots' budget is what the cap leaves beside VOD, 1 at least; no cap is none for them either. */
  lemma SlotBudgetIs(cap: int, held: int)
    ensures cap <= 0 ==> SlotBudget(cap, held) == cap
    ensures 0 < cap ==> SlotBudget(cap, held) >= 1 && SlotBudget(cap, held) >= cap - held
    ensures 0 < cap && held < cap ==> SlotBudget(cap, held) + held == cap
  {
  }

  /** A sync that fails gives the call's sessions back; the slot has the budget or not. One given up goes on as nobody's. */
  lemma SyncGivesBack(s: State, applied: bool, i: nat)
    requires Ledger(s)
    ensures Enabled(s, SyncFail(applied)) ==>
              var e, t := s.slot.exchange, Apply(s, SyncFail(applied));
              && t.slot == s.slot.(exchange := Idle, budget := if e.Sent? && applied then e.budget else s.slot.budget)
              && (e.who < 0 ==> t.held == s.held && t.callers == s.callers)
              && (0 <= e.who ==> t.held == s.held - s.callers[e.who].k && t.callers == s.callers[e.who := Gone])
    ensures Enabled(s, GiveUp(i)) ==>
              var t := Apply(s, GiveUp(i));
              && t.held == s.held - s.callers[i].k && t.callers == s.callers[i := Gone]
              && t.slot == if s.callers[i].Syncing? then s.slot.(exchange := s.slot.exchange.(who := -1)) else s.slot
  {
  }

  /** The slot's own sessions, and the reports of those who only ask for one. */
  lemma SlotIsRead(s: State)
    ensures Enabled(s, SlotStart) ==> Apply(s, SlotStart) == s.(slot := s.slot.(sessions := s.slot.sessions + 1))
    ensures Enabled(s, SlotStart) <==> s.slot.budget <= 0 || s.slot.sessions < s.slot.budget
    ensures Enabled(s, SlotStop) <==> 0 < s.slot.sessions
    ensures Enabled(s, SlotStop) ==> Apply(s, SlotStop) == s.(slot := s.slot.(sessions := s.slot.sessions - 1))
    ensures Enabled(s, Probe) ==>
              var t := Apply(s, Probe);
              && Enabled(t, SyncDone)
              && Apply(t, SyncDone) == s.(slot := s.slot.(report := s.slot.sessions, turn := s.slot.turn + 1))
  {
  }

  /** Read as one sample, the re-check is guarded: what it trims is more than nothing. */
  lemma OneSampleIsGuarded(s: State, i: nat, cap: int)
    requires Ledger(s) && Enabled(s, ReadHeld(i)) && s.callers[i].limit == cap
    requires Apply(s, ReadHeld(i)).callers[i].Over?
    ensures var t := Apply(s, ReadHeld(i));
            Enabled(t, ReadHeldAgain(i)) && Guarded(t, ReadHeldAgain(i), cap)
    ensures var c := Apply(Apply(s, ReadHeld(i)), ReadHeldAgain(i)).callers[i];
            0 < c.over && (c.over == c.k || s.callers[i].used + s.held - c.over == cap)
  {
  }

  /** Outside a reservation held rises in one way: a trim whose second read was under the limit. */
  lemma HeldRisesOnlyByNegativeTrim(s: State, a: Action)
    requires Ledger(s) && Enabled(s, a) && !a.Reserve?
    ensures s.held < Apply(s, a).held <==> a.Trim? && s.callers[a.i].over < 0
  {
  }

  lemma {:induction false} RunsJoin(s: State, a: seq<Action>, b: seq<Action>)
    requires Valid(s, a) && Valid(After(s, a), b)
    ensures Valid(s, a + b) && After(s, a + b) == After(After(s, a), b)
    decreases |a|
  {
    if a == [] {
      assert a + b == b;
    } else {
      RunsJoin(Apply(s, a[0]), a[1..], b);
      assert (a + b)[1..] == a[1..] + b;
    }
  }

  lemma OneStep(s: State, a: Action)
    requires Enabled(s, a)
    ensures Valid(s, [a]) && After(s, [a]) == Apply(s, a)
  {
    var t, rest := Apply(s, a), [a][1..];
    assert rest == [];
    assert Valid(t, rest) && After(t, rest) == t;
  }

  lemma Extend(s: State, run: seq<Action>, a: Action) returns (longer: seq<Action>)
    requires Valid(s, run) && Enabled(After(s, run), a)
    ensures longer == run + [a]
    ensures Valid(s, longer) && After(s, longer) == Apply(After(s, run), a)
  {
    longer := run + [a];
    OneStep(After(s, run), a);
    RunsJoin(s, run, [a]);
  }

  // ---------------------------------------------------------------------
  // The two-read re-check, exactly
  // ---------------------------------------------------------------------

  /** One cap in every room read and every budget, and TV slots on: no call goes to the gate without its sync. */
  predicate SteadyRun(run: seq<Action>, cap: int) {
    forall i :: 0 <= i < |run| ==> Steady(run[i], cap)
  }

  predicate Steady(a: Action, cap: int) {
    (a.Call? ==> a.limit == cap) && (a.SyncSend? ==> a.cap == cap) && !a.NoSync?
  }

  /** A first read of held that was too much leaves little to be under the limit at the second. */
  predicate OverBarely(c: Caller, cap: int) { c.Over? ==> c.used + cap / 2 > cap }

  ghost predicate AllOverBarely(s: State, cap: int) {
    forall i :: 0 <= i < |s.callers| ==> OverBarely(s.callers[i], cap)
  }

  lemma StepKeepsOverBarely(s: State, a: Action, cap: int)
    requires Enabled(s, a) && AllOverBarely(s, cap) && s.held <= cap / 2
    requires a.ReadHeld? ==> s.callers[a.i].limit == cap
    ensures AllOverBarely(Apply(s, a), cap)
  {
  }

  /** The call's own reservation is in held: of a small cap the second read finds no room. */
  lemma SmallCapFindsNoRoom(s: State, i: nat, cap: int)
    requires Ledger(s) && Enabled(s, ReadHeldAgain(i)) && 0 < cap < 6 && OverBarely(s.callers[i], cap)
    ensures cap <= s.callers[i].used + s.held
  {
    SumNonNegative(s.callers, Owed);
    assert WellFormed(s.callers[i]) && Owed(s.callers[i]) <= s.held;
  }

  lemma {:induction false} SmallCapRunIsGuarded(s: State, run: seq<Action>, cap: int)
    requires Capped(s, cap) && AllOverBarely(s, cap) && cap < 6 && Valid(s, run) && SteadyRun(run, cap)
    ensures GuardedRun(s, run, cap)
    decreases |run|
  {
    if run != [] {
      var a := run[0];
      assert Steady(a, cap);
      if a.ReadHeldAgain? { SmallCapFindsNoRoom(s, a.i, cap); }
      if a.ReadHeld? { assert Limited(s.callers[a.i], cap, s.slot, a.i); }
      StepKeepsCapped(s, a, cap);
      StepKeepsOverBarely(s, a, cap);
      assert forall i :: 0 <= i < |run[1..]| ==> run[1..][i] == run[i + 1];
      SmallCapRunIsGuarded(Apply(s, a), run[1..], cap);
    }
  }

  lemma StartsCapped(s: State, cap: int)
    requires Starts(s, cap)
    ensures Capped(s, cap)
  {
  }

  /**
  Exactly when the documented bound holds of the two-read re-check: with one cap and TV slots on,
  the committed VOD sessions and the live slot's stay within the cap in every run if and only if
  the cap is under 6.
  */
  lemma WithinCapIff(cap: int)
    requires 0 < cap
    ensures (forall s, run :: Starts(s, cap) && Valid(s, run) && SteadyRun(run, cap) ==>
               CommittedAll(After(s, run)) + After(s, run).slot.sessions <= cap) <==> cap < 6
  {
    if cap < 6 {
      forall s, run | Starts(s, cap) && Valid(s, run) && SteadyRun(run, cap)
        ensures CommittedAll(After(s, run)) + After(s, run).slot.sessions <= cap
      {
        StartsCapped(s, cap);
        SmallCapRunIsGuarded(s, run, cap);
        SessionsWithinCap(s, run, cap);
      }
    } else {
      var s, run := TwoReadsBreakTheCap(cap);
    }
  }

  /** What is held of one cap, TV slots on or off. */
  ghost predicate HeldIsHalf(s: State, cap: int) {
    && Halved(s, cap) && AllOverBarely(s, cap)
    && forall i :: 0 <= i < |s.callers| ==> LimitIs(s.callers[i], cap)
  }

  predicate LimitIs(c: Caller, cap: int) {
    c.Asked? || c.Reserved? || c.Syncing? || c.Synced? || c.Sampled? || c.Over? ==> c.limit == cap
  }

  lemma StepKeepsLimit(s: State, a: Action, cap: int)
    requires Enabled(s, a) && (a.Call? ==> a.limit == cap)
    requires forall i :: 0 <= i < |s.callers| ==> LimitIs(s.callers[i], cap)
    ensures forall i :: 0 <= i < |Apply(s, a).callers| ==> LimitIs(Apply(s, a).callers[i], cap)
  {
  }

  predicate OneCap(run: seq<Action>, cap: int) { forall i :: 0 <= i < |run| && run[i].Call? ==> run[i].limit == cap }

  lemma {:induction false} SmallCapKeepsHalf(s: State, run: seq<Action>, cap: int)
    requires HeldIsHalf(s, cap) && cap < 6 && Valid(s, run) && OneCap(run, cap)
    ensures HeldIsHalf(After(s, run), cap)
    decreases |run|
  {
    if run != [] {
      var a := run[0];
      if a.ReadHeldAgain? {
        SmallCapFindsNoRoom(s, a.i, cap);
        assert LimitIs(s.callers[a.i], cap);
      }
      if a.ReadHeld? { assert LimitIs(s.callers[a.i], cap); }
      StepKeepsLedger(s, a);
      StepKeepsHalved(s, a, cap);
      StepKeepsOverBarely(s, a, cap);
      StepKeepsLimit(s, a, cap);
      assert forall i :: 0 <= i < |run[1..]| ==> run[1..][i] == run[i + 1];
      SmallCapKeepsHalf(Apply(s, a), run[1..], cap);
    }
  }

  /** And VOD holds at most half of one cap in every run, TV slots on or off, if and only if it is under 6 too. */
  lemma HalfTheCapIff(cap: int)
    requires 0 < cap
    ensures (forall s, run :: Starts(s, cap) && Valid(s, run) && OneCap(run, cap) ==> After(s, run).held <= cap / 2)
            <==> cap < 6
  {
    if cap < 6 {
      forall s, run | Starts(s, cap) && Valid(s, run) && OneCap(run, cap) ensures After(s, run).held <= cap / 2 {
        SmallCapKeepsHalf(s, run, cap);
      }
    } else {
      var s, run := TwoReadsBreakTheHalf(cap);
    }
  }

  lemma ExtendSteady(s: State, run: seq<Action>, a: Action, cap: int) returns (longer: seq<Action>)
    requires Valid(s, run) && Enabled(After(s, run), a) && SteadyRun(run, cap) && Steady(a, cap)
    ensures longer == run + [a]
    ensures Valid(s, longer) && After(s, longer) == Apply(After(s, run), a) && SteadyRun(longer, cap)
  {
    longer := Extend(s, run, a);
  }

  lemma SteadyJoin(s: State, a: seq<Action>, b: seq<Action>, cap: int)
    requires Valid(s, a) && Valid(After(s, a), b) && SteadyRun(a, cap) && SteadyRun(b, cap)
    ensures Valid(s, a + b) && After(s, a + b) == After(After(s, a), b) && SteadyRun(a + b, cap)
  {
    RunsJoin(s, a, b);
  }

  /** One call's way from its room read to the end of its sync, alone. */
  lemma CallSynced(s: State, n: nat, cap: int, need: int) returns (run: seq<Action>)
    requires s.slot.exchange.Idle? && 0 < cap && 0 < Grant(n, cap, need, s.held)
    ensures Valid(s, run) && SteadyRun(run, cap)
    ensures var k := Grant(n, cap, need, s.held);
            After(s, run) == State(s.held + k, s.callers + [Sampled(k, cap, s.slot.sessions, s.slot.turn + 1)],
              Slot(SlotBudget(cap, s.held + k), s.slot.sessions, s.slot.sessions, Idle, s.slot.turn + 1))
  {
    var i, k := |s.callers|, Grant(n, cap, need, s.held);
    run := ExtendSteady(s, [], Call(n, cap, need), cap);
    run := ExtendSteady(s, run, Reserve(i), cap);
    assert After(s, run).callers == s.callers + [Reserved(k, cap)];
    run := ExtendSteady(s, run, SyncSend(i, cap), cap);
    assert After(s, run).callers == s.callers + [Syncing(k, cap, s.slot.turn + 1)];
    run := ExtendSteady(s, run, SlotApply, cap);
    run := ExtendSteady(s, run, SyncDone, cap);
    assert After(s, run).callers == s.callers + [Synced(k, cap, s.slot.turn + 1)];
    run := ExtendSteady(s, run, ReadUsed(i), cap);
  }

  /**
  Of every cap of 6 or more the bound fails: one transcode holds 2 and a second one reserves 1
  while the live slot holds all but 2. Between the second's two reads of held the first gives both
  back: the trim adds a session, and a sync in between lets the slot grow by one.
  */
  lemma TwoReadsBreakTheCap(cap: int) returns (s: State, run: seq<Action>)
    requires 6 <= cap
    ensures Starts(s, cap) && Valid(s, run) && SteadyRun(run, cap)
    ensures CommittedAll(After(s, run)) + After(s, run).slot.sessions > cap
  {
    s, run := SecondToTrim(cap);
    var t := After(s, run);
    run := ExtendSteady(s, run, SyncSend(-1, cap), cap);
    run := ExtendSteady(s, run, SlotApply, cap);
    run := ExtendSteady(s, run, SlotStart, cap);
    run := ExtendSteady(s, run, Trim(1), cap);
    assert After(s, run).callers == [Out([true, true]), Taking(2, 0)];
    assert Sum([Out([true, true]), Taking(2, 0)], Committed) == 2 by {
      assert [Out([true, true]), Taking(2, 0)][..1] == [Out([true, true])];
      assert Unreleased([true, true]) == 0 by { assert [true, true][..1] == [true]; }
    }
  }

  /** And so does half the cap: a third call takes what the first gave back before the trim adds to it. */
  lemma TwoReadsBreakTheHalf(cap: int) returns (s: State, run: seq<Action>)
    requires 6 <= cap
    ensures Starts(s, cap) && Valid(s, run) && OneCap(run, cap)
    ensures After(s, run).held == cap / 2 + 1
  {
    s, run := SecondToTrim(cap);
    run := ExtendSteady(s, run, Call(cap, cap, 0), cap);
    run := ExtendSteady(s, run, Reserve(2), cap);
    assert After(s, run).held == cap / 2;
    run := ExtendSteady(s, run, Trim(1), cap);
    assert forall i :: 0 <= i < |run| ==> Steady(run[i], cap);
  }

  /** Up to the second call's trim of minus one. */
  lemma SecondToTrim(cap: int) returns (s: State, run: seq<Action>)
    requires 6 <= cap
    ensures Starts(s, cap) && Valid(s, run) && SteadyRun(run, cap)
    ensures After(s, run) ==
              State(1, [Out([true, true]), Trimming(1, -1)], Slot(cap - 3, cap - 2, cap - 2, Idle, 2))
  {
    s := State(0, [], Slot(cap, cap - 2, cap - 2, Idle, 0));
    run := FirstHoldsTwo(cap, s);
    var s1 := After(s, run);
    var second := CallSynced(s1, 1, cap, 0);
    var s2 := After(s1, second);
    assert s2.callers == [Out([false, false]), Sampled(1, cap, cap - 2, 2)];
    var third := SecondReadsOver(cap, s2);
    SteadyJoin(s, run, second, cap);
    SteadyJoin(s, run + second, third, cap);
    run := ExtendSteady(s, run + second + third, ReadHeldAgain(1), cap);
    assert After(s, run).callers == [Out([true, true]), Trimming(1, -1)];
  }

  lemma FirstHoldsTwo(cap: int, s: State) returns (run: seq<Action>)
    requires 6 <= cap && s == State(0, [], Slot(cap, cap - 2, cap - 2, Idle, 0))
    ensures Valid(s, run) && SteadyRun(run, cap)
    ensures After(s, run) == State(2, [Out([false, false])], Slot(cap - 2, cap - 2, cap - 2, Idle, 1))
  {
    run := CallSynced(s, 2, cap, 0);
    assert After(s, run).callers == [Sampled(2, cap, cap - 2, 1)];
    run := ExtendSteady(s, run, ReadHeld(0), cap);
    assert After(s, run).callers == [Taking(2, 0)];
    run := ExtendSteady(s, run, GateTake(0), cap);
    run := ExtendSteady(s, run, GateTake(0), cap);
    assert After(s, run).callers == [Taking(2, 2)];
    run := ExtendSteady(s, run, Finish(0), cap);
    assert seq(2, _ => false) == [false, false];
    assert After(s, run).callers == [Out([false, false])];
  }

  lemma SecondReadsOver(cap: int, s: State) returns (run: seq<Action>)
    requires 6 <= cap
    requires s == State(3, [Out([false, false]), Sampled(1, cap, cap - 2, 2)], Slot(cap - 3, cap - 2, cap - 2, Idle, 2))
    ensures Valid(s, run) && SteadyRun(run, cap)
    ensures After(s, run) ==
              State(1, [Out([true, true]), Over(1, cap, cap - 2, 2)], Slot(cap - 3, cap - 2, cap - 2, Idle, 2))
  {
    run := ExtendSteady(s, [], ReadHeld(1), cap);
    assert After(s, run).callers == [Out([false, false]), Over(1, cap, cap - 2, 2)];
    run := ExtendSteady(s, run, Release(0, 0), cap);
    assert [false, false][0 := true] == [true, false];
    assert After(s, run).callers == [Out([true, false]), Over(1, cap, cap - 2, 2)];
    run := ExtendSteady(s, run, Release(0, 1), cap);
    assert [true, false][1 := true] == [true, true];
    assert After(s, run).callers == [Out([true, true]), Over(1, cap, cap - 2, 2)];
  }

  // ---------------------------------------------------------------------
  // AcquireN, one call's code
  // ---------------------------------------------------------------------

  /** A step of anyone but the call me: the sync it waits for is served by others. */
  predicate Others(a: Action, me: nat) {
    match a
    case Reserve(i) => i != me
    case NoSync(i) => i != me
    case GiveUp(i) => i != me
    case ReadUsed(i) => i != me
    case ReadHeld(i) => i != me
    case ReadHeldAgain(i) => i != me
    case Trim(i) => i != me
    case GateTake(i) => i != me
    case Finish(i) => i != me
    case Release(i, _) => i != me
    case _ => true
  }

  /** What others' steps can do to a call: serve its sync, or fail it. */
  predicate ServedAs(c: Caller, d: Caller) {
    || d == c
    || ((c.Reserved? || c.Syncing?) && (d.Gone? || ((d.Syncing? || d.Synced?) && d.k == c.k && d.limit == c.limit)))
  }

  /** A call whose sync is in service is the one the exchange names. */
  ghost predicate Served(s: State) {
    forall i :: 0 <= i < |s.callers| && s.callers[i].Syncing? ==> !s.slot.exchange.Idle? && s.slot.exchange.who == i
  }

  lemma StepKeepsServed(s: State, a: Action)
    requires Served(s) && Enabled(s, a)
    ensures Served(Apply(s, a))
  {
  }

  /**
  What each call read of the room and, under the lock, of held; whether it went to the gate with no
  sync; how many sessions its re-check took off; and how many it had when its loop over the gate ended.
  */
  datatype Entry = Entry(n: nat, limit: int, need: int, read: Option<int>, unsynced: bool, trimmed: int, kept: Option<int>)

  function Noted(calls: seq<Entry>, s: State, a: Action): seq<Entry>
    requires Enabled(s, a)
  {
    match a
    case Call(n, limit, need) => calls + [Entry(n, limit, need, None, false, 0, None)]
    case Reserve(i) => if i < |calls| then calls[i := calls[i].(read := Some(s.held))] else calls
    case NoSync(i) => if i < |calls| then calls[i := calls[i].(unsynced := true)] else calls
    case Trim(i) => if i < |calls| then calls[i := calls[i].(trimmed := s.callers[i].over)] else calls
    case Finish(i) => if i < |calls| then calls[i := calls[i].(kept := Some(s.callers[i].k))] else calls
    case _ => calls
  }

  ghost function CallsOf(s: State, run: seq<Action>, calls: seq<Entry>): seq<Entry>
    requires Valid(s, run)
    decreases |run|
  {
    if run == [] then calls else CallsOf(Apply(s, run[0]), run[1..], Noted(calls, s, run[0]))
  }

  lemma {:induction false} NotedNext(s: State, run: seq<Action>, calls: seq<Entry>, a: Action)
    requires Valid(s, run) && Enabled(After(s, run), a) && Valid(s, run + [a])
    ensures CallsOf(s, run + [a], calls) == Noted(CallsOf(s, run, calls), After(s, run), a)
    decreases |run|
  {
    if run == [] {
      assert run + [a] == [a] && [a][1..] == [];
    } else {
      assert (run + [a])[1..] == run[1..] + [a];
      NotedNext(Apply(s, run[0]), run[1..], Noted(calls, s, run[0]), a);
    }
  }

  /** The steps of acts that can be taken then and are of others. */
  function Took(s: State, acts: seq<Action>, me: nat): State {
    if acts == [] then s
    else
      var t, a := Took(s, acts[..|acts| - 1], me), acts[|acts| - 1];
      if Enabled(t, a) && Others(a, me) then Apply(t, a) else t
  }

  /** What a call's reservation takes. */
  function RoomFor(e: Entry): nat
    requires e.read.Some?
  {
    var grant := Grant(e.n, e.limit, e.need, e.read.value);
    if grant < 0 then 0 else grant
  }

  /** A call that reads the room and reserves with nobody between. */
  function Asking(s: State, n: nat, limit: int, need: int): State {
    Apply(Apply(s, Call(n, limit, need)), Reserve(|s.callers|))
  }

  /** Nobody else about but at its sync, that was answered in time, and all fit then. */
  ghost predicate InTime(s: State, me: nat, late: bool, env: nat -> seq<Action>) {
    !late && Quiet(env) && AnsweredBy(s, env(1), me) && Fits(Took(s, env(1), me), me)
  }

  lemma TookOneMore(s: State, acts: seq<Action>, n: nat, me: nat)
    requires n < |acts|
    ensures var t := Took(s, acts[..n], me);
            Took(s, acts[..n + 1], me) == if Enabled(t, acts[n]) && Others(acts[n], me) then Apply(t, acts[n]) else t
  {
    assert acts[..n + 1][..n] == acts[..n];
  }

  lemma ServedTwice(c: Caller, d: Caller, e: Caller)
    requires ServedAs(c, d) && ServedAs(d, e)
    ensures ServedAs(c, e)
  {
  }

  /** By the end of acts its sync was answered. */
  predicate AnsweredBy(s: State, acts: seq<Action>, me: nat) {
    var t := Took(s, acts, me);
    Is(t, me) && t.callers[me].Synced?
  }

  /** What the slots reported and all VOD holds fit. */
  predicate Fits(s: State, me: nat) {
    Is(s, me) && s.callers[me].Synced? && s.slot.report + s.held <= s.callers[me].limit
  }

  /** Nobody else does anything but at the sync. */
  ghost predicate Quiet(env: nat -> seq<Action>) { forall i :: i != 1 ==> env(i) == [] }

  /** With the slots idle and nobody else about, the sync a call asks for is answered, with what the live slot then holds. */
  lemma SyncIsAnswered(s: State, me: nat, cap: int)
    requires Is(s, me) && s.callers[me].Reserved? && 0 < s.callers[me].limit && s.slot.exchange.Idle?
    ensures var acts := [SyncSend(me, cap), SlotApply, SyncDone];
            var t := Took(s, acts, me);
            && AnsweredBy(s, acts, me) && t.held == s.held && t.callers[me].k == s.callers[me].k
            && t.callers[me].limit == s.callers[me].limit
            && t.slot.report == t.slot.sessions == s.slot.sessions && t.slot.budget == SlotBudget(cap, s.held)
  {
    var acts := [SyncSend(me, cap), SlotApply, SyncDone];
    assert acts[..2] == [SyncSend(me, cap), SlotApply] && acts[..2][..1] == [SyncSend(me, cap)] && acts[..2][..1][..0] == [];
    var t1 := Apply(s, SyncSend(me, cap));
    assert Took(s, acts[..2][..1], me) == t1;
    var t2 := Apply(t1, SlotApply);
    assert Took(s, acts[..2], me) == t2;
    assert Took(s, acts, me) == Apply(t2, SyncDone);
  }

  /** The shared state, changed one step at a time since nothing was held. */
  class World {
    var st: State
    ghost var was: State
    ghost var run: seq<Action>
    ghost var calls: seq<Entry>

    ghost predicate Traced()
      reads this
    {
      && Init(was) && Valid(was, run) && st == After(was, run) && Ledger(st) && Served(st)
      && calls == CallsOf(was, run, []) && |calls| == |st.callers|
    }

    constructor (s: State)
      requires Init(s)
      ensures st == s && Traced()
    {
      st, was, run, calls := s, s, [], [];
    }

    method Do(a: Action)
      requires Traced() && Enabled(st, a)
      modifies this
      ensures Traced() && st == Apply(old(st), a) && calls == Noted(old(calls), old(st), a)
    {
      ghost var longer := Extend(was, run, a);
      StepKeepsLedger(st, a);
      StepKeepsServed(st, a);
      NotedNext(was, run, [], a);
      run, calls := longer, Noted(calls, st, a);
      st := Apply(st, a);
    }

    /** A step, if it can be taken now and is of others. */
    method OneOther(me: nat, a: Action)
      requires Traced() && Is(st, me)
      modifies this
      ensures Traced() && |old(st).callers| <= |st.callers|
      ensures me < |calls| && calls[me] == old(calls[me])
      ensures ServedAs(old(st).callers[me], st.callers[me])
      ensures st == if Enabled(old(st), a) && Others(a, me) then Apply(old(st), a) else old(st)
    {
      if Enabled(st, a) && Others(a, me) { Do(a); }
    }

    /** The others take the steps of acts that they can take now. */
    method Interfere(me: nat, acts: seq<Action>)
      requires Traced() && Is(st, me)
      modifies this
      ensures Traced() && |old(st).callers| <= |st.callers| && ServedAs(old(st).callers[me], st.callers[me])
      ensures me < |calls| && calls[me] == old(calls[me])
      ensures st == Took(old(st), acts, me)
    {
      for n := 0 to |acts|
        invariant Traced() && |old(st).callers| <= |st.callers| && ServedAs(old(st).callers[me], st.callers[me])
        invariant me < |calls| && calls[me] == old(calls[me])
        invariant st == Took(old(st), acts[..n], me)
      {
        ghost var was := st.callers[me];
        OneOther(me, acts[n]);
        ServedTwice(old(st).callers[me], was, st.callers[me]);
        TookOneMore(old(st), acts, n, me);
      }
      assert acts[..|acts|] == acts;
    }

    /** The sync, served by the slots' loop; late: the call's wait ends as its answer comes. */
    method AwaitSync(me: nat, late: bool, others: seq<Action>)
      requires Traced() && Is(st, me) && st.callers[me].Reserved?
      modifies this
      ensures Traced() && Is(st, me)
      ensures st.callers[me].Gone? || (st.callers[me].Synced? && st.callers[me].k == old(st).callers[me].k)
      ensures me < |calls| && calls[me] == old(calls[me])
      ensures !late && AnsweredBy(old(st), others, me) ==> st == Took(old(st), others, me)
    {
      Interfere(me, others);
      if st.callers[me].Reserved? || st.callers[me].Syncing? || (late && st.callers[me].Synced?) { Do(GiveUp(me)); }
    }

    /** A re-checked call takes what it reserved less what was taken off, or is over. */
    ghost predicate Checked(me: nat, before: seq<Entry>, k: int, ok: bool)
      reads this
    {
      && me < |calls| && me < |before| && me < |st.callers|
      && calls[me] == before[me].(trimmed := calls[me].trimmed)
      && if ok then st.callers[me] == Taking(k - calls[me].trimmed, 0) else st.callers[me].Gone?
    }

    /** The sync and the re-check; false: the call has nothing and is over. */
    method SyncAndCheck(me: nat, late: bool, env: nat -> seq<Action>) returns (ok: bool)
      requires Traced() && Is(st, me) && st.callers[me].Reserved? && calls[me].trimmed == 0
      modifies this
      ensures Traced() && Is(st, me)
      ensures Checked(me, old(calls), old(st).callers[me].k, ok)
      ensures InTime(old(st), me, late, env) ==> ok && calls[me].trimmed == 0
    {
      AwaitSync(me, late, env(1));
      ok := !st.callers[me].Gone?;
      if ok { ok := Check(me, env); }
    }

    /** What the slots hold and held, read one after the other. */
    method Check(me: nat, env: nat -> seq<Action>) returns (ok: bool)
      requires Traced() && Is(st, me) && st.callers[me].Synced? && calls[me].trimmed == 0
      modifies this
      ensures Traced() && Is(st, me)
      ensures Checked(me, old(calls), old(st).callers[me].k, ok)
      ensures Quiet(env) && Fits(old(st), me) ==>
                ok && calls[me].trimmed == 0
    {
      Do(ReadUsed(me));
      Interfere(me, env(2));
      Do(ReadHeld(me));
      ok := true;
      if st.callers[me].Over? { ok := ReCheck(me, env); }
    }

    method ReCheck(me: nat, env: nat -> seq<Action>) returns (ok: bool)
      requires Traced() && Is(st, me) && st.callers[me].Over? && calls[me].trimmed == 0
      modifies this
      ensures Traced() && Is(st, me)
      ensures Checked(me, old(calls), old(st).callers[me].k, ok)
    {
      ReadAgain(me, env);
      Do(Trim(me));
      ok := !st.callers[me].Gone?;
    }

    /** How much too much there is, by a second read of held. */
    method ReadAgain(me: nat, env: nat -> seq<Action>)
      requires Traced() && Is(st, me) && st.callers[me].Over?
      modifies this
      ensures Traced() && Is(st, me) && st.callers[me].Trimming? && st.callers[me].k == old(st).callers[me].k
      ensures me < |calls| && calls[me] == old(calls[me])
    {
      Interfere(me, env(3));
      Do(ReadHeldAgain(me));
      Interfere(me, env(4));
    }

    /** The loop over the gate, and the reservations it had no session for given back. */
    method TakeFromGate(me: nat, env: nat -> seq<Action>, gate: nat -> bool) returns (got: nat)
      requires Traced() && Is(st, me) && st.callers[me].Taking? && st.callers[me].got == 0
      modifies this
      ensures Traced() && Is(st, me) && st.callers[me] == Out(seq(got, _ => false))
      ensures got <= old(st).callers[me].k && (forall j :: 0 <= j < got ==> gate(j))
      ensures got < old(st).callers[me].k ==> !gate(got)
      ensures me < |calls| && calls[me] == old(calls[me]).(kept := Some(old(st).callers[me].k))
    {
      var k := st.callers[me].k;
      got := 0;
      assert WellFormed(st.callers[me]);
      while got < k && gate(got)
        invariant Traced() && Is(st, me) && 0 <= got <= k && st.callers[me] == Taking(k, got)
        invariant forall j :: 0 <= j < got ==> gate(j)
        invariant me < |calls| && calls[me] == old(calls[me])
      {
        TakeOne(me, env(5 + got));
        got := got + 1;
      }
      Do(Finish(me));
    }

    method TakeOne(me: nat, others: seq<Action>)
      requires Traced() && Is(st, me) && st.callers[me].Taking? && st.callers[me].got < st.callers[me].k
      modifies this
      ensures Traced() && Is(st, me)
      ensures st.callers[me] == Taking(old(st).callers[me].k, old(st).callers[me].got + 1)
      ensures me < |calls| && calls[me] == old(calls[me])
    {
      Do(GateTake(me));
      Interfere(me, others);
    }

    /** The room is read, before the lock. */
    method Ask(n: nat, limit: int, need: int, env: nat -> seq<Action>) returns (me: nat)
      requires Traced()
      modifies this
      ensures Traced() && me == |old(st).callers| && Is(st, me) && st.callers[me] == Asked(n, limit, need)
      ensures calls[me] == Entry(n, limit, need, None, false, 0, None)
      ensures env(0) == [] ==> st == Apply(old(st), Call(n, limit, need))
    {
      me := |st.callers|;
      Do(Call(n, limit, need));
      Interfere(me, env(0));
    }

    /**
    What a call handed out: of what its reservation took, less what the re-check took off, as many as
    the gate had before it refused one. Nothing when there was no room, or when its sync or the
    re-check left it nothing.
    */
    ghost predicate HandsOut(e: Entry, got: nat, checked: bool, gate: nat -> bool) {
      && e.read.Some?
      && var room := RoomFor(e);
         && room <= e.n && (0 < room ==> HasRoom(e.limit, e.need, e.read.value, room))
         && (room < e.n ==> !HasRoom(e.limit, e.need, e.read.value, room + 1))
         && (room == 0 ==> e.kept.None?)
         && (e.kept.None? ==> got == 0 && (room == 0 || checked))
         && (e.kept.Some? ==>
               && e.kept.value == room - e.trimmed && (!checked ==> e.trimmed == 0)
               && got <= e.kept.value && (got < e.kept.value ==> !gate(got)))
         && (forall j :: 0 <= j < got ==> gate(j))
    }

    /**
    One AcquireN: what the others do at each pause is env's, whether the gate has a session
    is gate's. Its accesses to what is shared are steps of the machine, which fixes their order;
    with TV slots on and a cap it never goes to the gate without its sync. It hands out a func
    for each session the gate gave, as many as its entry in the ledger then owes.
    */
    method AcquireN(n: nat, linked: bool, ready: bool, limit: int, need: int, late: bool,
                    env: nat -> seq<Action>, gate: nat -> bool) returns (got: nat)
      requires Traced()
      modifies this
      ensures Traced()
      ensures linked && !ready ==> st == old(st) && got == 0
      ensures !linked || ready ==> Is(st, |old(st).callers|) && Owed(st.callers[|old(st).callers|]) == got
      ensures !linked || ready ==>
                var e := calls[|old(st).callers|];
                && e.n == n && e.limit == limit && e.need == need && (e.unsynced ==> !linked || limit <= 0)
                && HandsOut(e, got, linked && limit > 0, gate)
      ensures (!linked || ready) && limit <= 0 && (forall j :: 0 <= j < n ==> gate(j)) ==> got == n
      ensures linked && ready && 0 < limit && (forall j :: 0 <= j < n ==> gate(j)) ==>
                (InTime(Asking(old(st), n, limit, need), |old(st).callers|, late, env) ==>
                   got == Asking(old(st), n, limit, need).held - old(st).held)
    {
      if linked && !ready { return 0; }
      var me := ReserveNext(n, limit, need, env);
      if st.callers[me].Gone? { return 0; }
      got := SyncAndTake(me, linked && limit > 0, late, env, gate);
    }

    /** The room read, then what there is reserved under the lock. */
    method ReserveNext(n: nat, limit: int, need: int, env: nat -> seq<Action>) returns (me: nat)
      requires Traced()
      modifies this
      ensures Traced() && me == |old(st).callers| && Is(st, me) && me < |calls| && calls[me].read.Some?
      ensures calls[me] == Entry(n, limit, need, calls[me].read, false, 0, None)
      ensures st.callers[me] == if RoomFor(calls[me]) == 0 then Gone else Reserved(RoomFor(calls[me]), limit)
      ensures HandsOut(calls[me], 0, true, _ => false)
      ensures env(0) == [] ==> st == Asking(old(st), n, limit, need)
    {
      me := Ask(n, limit, need, env);
      Do(Reserve(me));
    }

    /** What was reserved, checked with the slots if they are to be asked, then taken. */
    method SyncAndTake(me: nat, checked: bool, late: bool, env: nat -> seq<Action>, gate: nat -> bool) returns (got: nat)
      requires Traced() && Is(st, me) && st.callers[me].Reserved?
      requires calls[me].trimmed == 0 && !calls[me].unsynced && calls[me].kept.None?
      modifies this
      ensures Traced() && Is(st, me) && Owed(st.callers[me]) == got
      ensures me < |calls| && var e := calls[me];
              && e == old(calls[me]).(unsynced := !checked, trimmed := e.trimmed, kept := e.kept)
              && (!checked ==> e.trimmed == 0 && e.kept.Some?)
              && (e.kept.None? ==> got == 0)
              && (e.kept.Some? ==>
                    && e.kept.value == old(st).callers[me].k - e.trimmed
                    && got <= e.kept.value && (got < e.kept.value ==> !gate(got)))
      ensures forall j :: 0 <= j < got ==> gate(j)
      ensures checked && InTime(old(st), me, late, env) ==> calls[me].trimmed == 0 && calls[me].kept.Some?
    {
      ghost var k := st.callers[me].k;
      var ok := true;
      if checked { ok := SyncAndCheck(me, late, env); } else { Do(NoSync(me)); }
      if !ok { return 0; }
      assert st.callers[me] == Taking(k - calls[me].trimmed, 0);
      got := TakeFromGate(me, env, gate);
      UnreleasedFresh(got);
    }
  }
}
