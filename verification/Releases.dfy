/**
The release pointers of an install (shared/go/layout/layout.go) as the launcher goes by them
(cmd/maktaba-launcher/run.go): the switch to a release, the rollback from it, the repair of what
a power cut in either leaves, and the choice of what to start. Every file is replaced in one
step, and the process may end before any of them.
*/
module Releases {

  datatype Option<T> = None | Some(value: T)

  /** The marker of a release switched to and not confirmed; previous: what ran before it. */
  datatype Pending = Pending(version: string, previous: Option<string>)

  datatype Marker = NoMarker | Corrupt | Marks(p: Pending)

  datatype Files = Files(current: Option<string>, previous: Option<string>, marker: Marker)

  /** How a write ends: done, refused, or the process ends before it. */
  datatype Outcome = Fine | Fails | Cut

  predicate IsPending(f: Files, version: string) { f.marker.Marks? && f.marker.p.version == version }

  /** A marker that is no current release's is stale. */
  function Reconciled(f: Files): Files {
    if f.marker.Corrupt? || (f.marker.Marks? && f.current != Some(f.marker.p.version)) then f.(marker := NoMarker) else f
  }

  /** What a rollback goes back to. */
  function WayBack(f: Files): Option<string> {
    if f.marker.Marks? && f.marker.p.previous.Some? then f.marker.p.previous else f.previous
  }

  function Switched(f: Files, version: string): Files {
    if f.current == Some(version) then f
    else Files(Some(version), if f.current.Some? then f.current else f.previous, Marks(Pending(version, f.current)))
  }

  /** What starts when the current release is not pending: it, or the one before it. */
  function StartOf(f: Files, valid: string -> bool): Option<string> {
    if f.current.Some? && valid(f.current.value) then f.current
    else if f.previous.Some? && f.previous != f.current && valid(f.previous.value) then f.previous
    else None
  }

  /** What starts, every write working: a pending release that does not validate is gone back from first. */
  function ChoiceOf(f: Files, valid: string -> bool): Option<string> {
    if f.current.Some? && valid(f.current.value) then f.current else Fallback(f, valid)
  }

  /** What starts when the current release does not validate. */
  function Fallback(f: Files, valid: string -> bool): Option<string> {
    if f.current.Some? && IsPending(f, f.current.value) then
      if WayBack(f).None? then None else FallbackOf(WayBack(f), f.previous, valid)
    else FallbackOf(None, if f.previous == f.current then None else f.previous, valid)
  }

  function FallbackOf(first: Option<string>, second: Option<string>, valid: string -> bool): Option<string> {
    if first.Some? && valid(first.value) then first
    else if second.Some? && valid(second.value) then second
    else None
  }

  /** The files after k of a switch's writes. */
  function SwitchCut(f: Files, version: string, k: nat): Files
    requires f.current != Some(version)
  {
    var noted := if k >= 1 && f.current.Some? then f.(previous := f.current) else f;
    var marked := if k >= 2 then noted.(marker := Marks(Pending(version, f.current))) else noted;
    if k >= 3 then marked.(current := Some(version)) else marked
  }

  /** And of a rollback's. */
  function RollbackCut(f: Files, k: nat): Files {
    if k == 0 || WayBack(f).None? then f
    else if k == 1 then f.(current := WayBack(f))
    else f.(current := WayBack(f), marker := NoMarker)
  }

  class Install {
    const valid: string -> bool
    var files: Files
    var steps: nat

    constructor (valid: string -> bool, files: Files)
      ensures this.valid == valid && this.files == files
    {
      this.valid, this.files, steps := valid, files, 0;
    }

    method Step(env: nat -> Outcome) returns (ok: bool)
      modifies this`steps
      ensures steps == old(steps) + 1 && (ok <==> env(old(steps)).Fine?)
    {
      ok := env(steps).Fine?;
      steps := steps + 1;
    }

    /**
    Switch: what ran is noted, then the marker, then `current`. Cut anywhere before the last
    write, the repair finds the release that ran still current.
    */
    method Switch(version: string, env: nat -> Outcome) returns (ok: bool)
      modifies this
      ensures ok ==> valid(version) && files == Switched(old(files), version)
      ensures !valid(version) ==> !ok && files == old(files)
      ensures !ok && valid(version) ==> old(files).current != Some(version)
                                        && exists k :: 0 <= k < 3 && files == SwitchCut(old(files), version, k)
      ensures (forall k :: env(k).Fine?) && valid(version) ==> ok
    {
      if !valid(version) { return false; }
      var was := files.current;
      if was == Some(version) { return true; }
      assert files == SwitchCut(files, version, 0);
      if was.Some? {
        ok := Step(env);
        if !ok { return; }
        files := files.(previous := was);
      }
      assert files == SwitchCut(old(files), version, 1);
      ok := Step(env);
      if !ok { return; }
      files := files.(marker := Marks(Pending(version, was)));
      assert files == SwitchCut(old(files), version, 2);
      ok := Step(env);
      if !ok { return; }
      files := files.(current := Some(version));
    }

    /** Rollback: `current` back, then the marker off; nothing when there is no way back. */
    method Rollback(env: nat -> Outcome) returns (to: Option<string>, ok: bool)
      modifies this
      ensures files.previous == old(files).previous
      ensures WayBack(old(files)).None? ==> !ok && files == old(files)
      ensures ok ==> to == WayBack(old(files)) && to.Some? && files == old(files).(current := to, marker := NoMarker)
      ensures !ok ==> files == old(files) || files == old(files).(current := WayBack(old(files)))
      ensures (forall k :: env(k).Fine?) && WayBack(old(files)).Some? ==> ok
    {
      to := files.previous;
      if files.marker.Marks? && files.marker.p.previous.Some? { to := files.marker.p.previous; }
      if to.None? { return to, false; }
      ok := Step(env);
      if !ok { return; }
      files := files.(current := to);
      ok := Step(env);
      if !ok { return; }
      files := files.(marker := NoMarker);
    }

    /** Reconcile. */
    method Reconcile(env: nat -> Outcome) returns (changed: bool)
      modifies this
      ensures files == old(files) || files == Reconciled(old(files))
      ensures changed <==> Reconciled(old(files)) != old(files)
      ensures (forall k :: env(k).Fine?) ==> files == Reconciled(old(files))
    {
      var stale := files.marker.Corrupt?;
      if files.marker.Marks? { stale := files.current != Some(files.marker.p.version); }
      changed := stale;
      if stale {
        var ok := Step(env);
        if ok { files := files.(marker := NoMarker); }
      }
    }

    /**
    choose: the current release when it validates; when it does not and is pending, the guard
    goes back from it first; else the one before it.
    */
    method Choose(env: nat -> Outcome) returns (start: Option<string>)
      modifies this
      ensures start.Some? ==> valid(start.value)
      ensures old(files).current.Some? && valid(old(files).current.value) ==> start == old(files).current
      ensures var refused := old(files).current.Some? && !valid(old(files).current.value)
                             && IsPending(old(files), old(files).current.value);
              && (!refused ==> files == old(files) && start == StartOf(files, valid))
              && (refused && start.Some? ==> files == old(files).(current := WayBack(old(files)), marker := NoMarker)
                                             && start == StartOf(files, valid))
      ensures (forall k :: env(k).Fine?) ==> start == ChoiceOf(old(files), valid)
      decreases if files.marker.Marks? then 1 else 0
    {
      var cur := files.current;
      if cur.Some? {
        if valid(cur.value) { return cur; }
        if IsPending(files, cur.value) {
          var to, ok := Rollback(env);
          if !ok { return None; }
          start := Choose(env);
          return;
        }
      }
      var prev := files.previous;
      if prev.None? || prev == cur || !valid(prev.value) { return None; }
      start := prev;
    }
  }

  // ---------------------------------------------------------------------
  // What is started, and what goes back
  // ---------------------------------------------------------------------

  function Listed(r: Option<string>): seq<string> { if r.Some? then [r.value] else [] }

  /** The releases there are to start, in order: the current one, what a pending one is gone back to, the one before. */
  function Candidates(f: Files): seq<string> {
    match (f.marker, f.current)
    case (Marks(p), Some(c)) =>
      if p.version != c then [c] + Listed(f.previous)
      else [c] + Listed(p.previous) + Listed(f.previous)
    case _ => Listed(f.current) + Listed(f.previous)
  }

  function FirstValid(rs: seq<string>, valid: string -> bool): Option<string> {
    if rs == [] then None else if valid(rs[0]) then Some(rs[0]) else FirstValid(rs[1..], valid)
  }

  lemma {:induction false} FirstOfJoined(a: seq<string>, b: seq<string>, valid: string -> bool)
    ensures FirstValid(a + b, valid) == if FirstValid(a, valid).Some? then FirstValid(a, valid) else FirstValid(b, valid)
  {
    if a == [] {
      assert a + b == b;
    } else {
      assert (a + b)[1..] == a[1..] + b;
      FirstOfJoined(a[1..], b, valid);
    }
  }

  lemma FirstOfListed(r: Option<string>, valid: string -> bool)
    ensures FirstValid(Listed(r), valid) == if r.Some? && valid(r.value) then r else None
  {
    if r.Some? { assert [r.value][1..] == []; }
  }

  /** The first of them that validates is started. */
  lemma FirstValidIsStarted(f: Files, valid: string -> bool)
    ensures ChoiceOf(f, valid) == FirstValid(Candidates(f), valid)
  {
    FirstOfListed(f.current, valid);
    FirstOfListed(f.previous, valid);
    if f.marker.Marks? && f.current.Some? && f.marker.p.version == f.current.value {
      FirstOfListed(f.marker.p.previous, valid);
      FirstOfJoined([f.current.value] + Listed(f.marker.p.previous), Listed(f.previous), valid);
      FirstOfJoined([f.current.value], Listed(f.marker.p.previous), valid);
      assert Listed(f.current) == [f.current.value];
    } else {
      FirstOfJoined(Listed(f.current), Listed(f.previous), valid);
    }
  }

  /** A switch notes what ran, in its marker and as the release before, and is none to the release that runs. */
  lemma SwitchNotesWhatRan(f: Files, version: string)
    ensures var s := Switched(f, version);
            && s.current == Some(version)
            && (f.current == Some(version) ==> s == f)
            && (f.current != Some(version) ==>
                  && s.marker == Marks(Pending(version, f.current))
                  && s.previous == (if f.current.Some? then f.current else f.previous)
                  && (f.current.Some? ==> WayBack(s) == f.current))
  {
  }

  /** A pending release is gone back from to what its marker says ran, any other to the release before. */
  lemma GoesBackTo(f: Files)
    ensures f.marker.Marks? && f.marker.p.previous.Some? ==> WayBack(f) == f.marker.p.previous
    ensures f.marker.Marks? && f.marker.p.previous.None? ==> WayBack(f) == f.previous
    ensures !f.marker.Marks? ==> WayBack(f) == f.previous
  {
  }

  // ---------------------------------------------------------------------
  // Power cuts
  // ---------------------------------------------------------------------

  /** Nothing is on its way: the marker, if any, is the current release's, which did not come before itself. */
  predicate AtRest(f: Files) {
    Reconciled(f) == f && (f.marker.Marks? ==> f.marker.p.previous != Some(f.marker.p.version))
  }

  /**
  A switch cut anywhere and repaired: the release that ran runs, with its marker if it had one
  and the cut came before the new one was written, or the new one runs marked, with a way back.
  */
  lemma CutSwitchIsAllOrNothing(f: Files, version: string, k: nat)
    requires AtRest(f) && f.current != Some(version)
    ensures var r := Reconciled(SwitchCut(f, version, k));
            && AtRest(r)
            && (k < 3 ==> r.current == f.current && r.marker == if k < 2 then f.marker else NoMarker)
            && (k >= 3 ==> r == Switched(f, version) && IsPending(r, version) && (f.current.Some? ==> WayBack(r) == f.current))
  {
  }

  /** A rollback that is not cut. */
  lemma WholeRollback(f: Files, k: nat)
    requires k >= 2
    ensures RollbackCut(f, k) == if WayBack(f).None? then f else Files(WayBack(f), f.previous, NoMarker)
  {
  }

  /** A rollback cut anywhere and repaired: the pending release still runs marked, or the one before it runs unmarked. */
  lemma CutRollbackIsAllOrNothing(f: Files, k: nat)
    requires AtRest(f) && f.marker.Marks? && f.marker.p.previous.Some?
    ensures var r := Reconciled(RollbackCut(f, k));
            && AtRest(r)
            && (k == 0 ==> r == f)
            && (k > 0 ==> r.current == f.marker.p.previous && r.marker.NoMarker? && r.previous == f.previous)
  {
  }

  /** Going back from a switch runs exactly what ran before it. */
  lemma SwitchAndBack(f: Files, version: string, k: nat)
    requires AtRest(f) && f.current.Some? && f.current != Some(version)
    ensures var s := Switched(f, version);
            RollbackCut(s, k + 2).current == f.current && Reconciled(RollbackCut(s, k + 1)).current == f.current
  {
  }

  /** Exactly when a switch cut before its last write leaves `previous` as it was. */
  lemma CutSwitchKeepsThePreviousIff(f: Files, version: string, k: nat)
    requires f.current != Some(version) && k < 3
    ensures Reconciled(SwitchCut(f, version, k)).previous == f.previous <==>
            k == 0 || f.current.None? || f.previous == f.current
  {
  }

  /** Exactly when it leaves a pending release its marker. */
  lemma CutSwitchKeepsTheMarkerIff(f: Files, version: string, k: nat)
    requires AtRest(f) && f.marker.Marks? && f.current != Some(version) && k < 3
    ensures Reconciled(SwitchCut(f, version, k)).marker == f.marker <==> k < 2
  {
  }

  /** And exactly when it leaves the install as if it had not begun. */
  lemma CutSwitchChangesNothingIff(f: Files, version: string, k: nat)
    requires AtRest(f) && f.current != Some(version) && k < 3
    ensures Reconciled(SwitchCut(f, version, k)) == f <==>
            k == 0 || ((f.current.None? || f.previous == f.current) && (k == 1 || f.marker.NoMarker?))
  {
  }

  /**
  Exactly when a switch cut before its last write starts what would have started: the current
  release validates, nothing else could be started, nothing was written that matters, or it was
  pending with a way back of its own that validates and still has its marker.
  */
  lemma CutSwitchStartsTheSameIff(f: Files, version: string, valid: string -> bool, k: nat)
    requires AtRest(f) && f.current != Some(version) && k < 3
    ensures ChoiceOf(Reconciled(SwitchCut(f, version, k)), valid) == ChoiceOf(f, valid) <==>
            || k == 0 || f.current.None? || valid(f.current.value) || Fallback(f, valid).None?
            || (k == 1 && f.marker.Marks? && f.marker.p.previous.Some? && valid(f.marker.p.previous.value))
  {
  }

  /** Of an install with no marker: the same, in what its files say. */
  lemma UnmarkedCutSwitchStartsTheSameIff(f: Files, version: string, valid: string -> bool, k: nat)
    requires AtRest(f) && f.marker.NoMarker? && f.current.Some? && f.current != Some(version) && k < 3
    ensures StartOf(Reconciled(SwitchCut(f, version, k)), valid) == StartOf(f, valid) <==>
            || k == 0 || valid(f.current.value)
            || f.previous.None? || f.previous == f.current || !valid(f.previous.value)
  {
  }

  datatype Op = SwitchTo(version: string, k: nat) | GoBack(k: nat) | Confirms

  /** One operation, cut after k of its writes, and the repair at the launcher's next turn. */
  function Next(f: Files, op: Op): Files {
    match op
    case SwitchTo(version, k) => if f.current == Some(version) then f else Reconciled(SwitchCut(f, version, k))
    case GoBack(k) => Reconciled(RollbackCut(f, k))
    case Confirms => f.(marker := NoMarker)
  }

  function After(f: Files, ops: seq<Op>): Files {
    if ops == [] then f else Next(After(f, ops[..|ops| - 1]), ops[|ops| - 1])
  }

  /** Each operation comes after those before it; uncut, a switch and a rollback are made whole, and a confirmation takes the marker off. */
  lemma OpsInTurn(f: Files, ops: seq<Op>, op: Op)
    requires AtRest(f)
    ensures var b, r := After(f, ops), After(f, ops + [op]);
            && (op.Confirms? ==> r == Files(b.current, b.previous, NoMarker))
            && (op.GoBack? && op.k >= 2 && WayBack(b).Some? ==> r == Files(WayBack(b), b.previous, NoMarker))
            && (op.SwitchTo? && op.k >= 3 ==> r == Switched(b, op.version))
  {
    assert (ops + [op])[..|ops|] == ops;
    AlwaysAtRest(f, ops);
  }

  /**
  Over any operations, cut anywhere: the install is at rest, and a pending release that had one
  before it can go back to it.
  */
  lemma {:induction false} AlwaysAtRest(f: Files, ops: seq<Op>)
    requires AtRest(f)
    ensures var r := After(f, ops);
            && AtRest(r)
            && (r.marker.Marks? && r.marker.p.previous.Some? ==>
                  && Next(r, GoBack(2)).current == r.marker.p.previous && r.marker.p.previous != r.current
                  && Next(r, GoBack(2)).marker.NoMarker?)
  {
    if ops != [] { AlwaysAtRest(f, ops[..|ops| - 1]); }
  }
}
