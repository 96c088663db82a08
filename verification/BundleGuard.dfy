/**
The launcher's guard of an app bundle (cmd/maktaba-launcher/run.go): which payload the next
start runs, given the override, the record of the release it rolled back from, and the update
guard, each a file that a write may fail to change (shared/go/layout/guard.go).
*/
module BundleGuard {

  datatype Option<T> = None | Some(value: T)

  datatype Guard = Guard(version: string, previous: Option<string>)

  /** The files, as they read: override and failed under updates/, the guard, the app's version. */
  datatype Files = Files(override: Option<string>, failed: Option<string>, guard: Option<Guard>, app: Option<string>)

  datatype Payload = Own | Copy(dir: string)

  /** The kept copies' versions and servers, and the order of versions. */
  datatype Kept = Kept(version: string -> Option<string>, server: string -> bool, rank: string -> int)

  /** Removing the override: it stays, its record of the failed release stays, or both go. */
  datatype Clear = OverrideStays | RecordStays | Cleared

  /** Writing it: the old record stays, the old override does, the new record is missing, or all is written. */
  datatype Write = Refused | OldOverride | NoRecord | Written

  function WithoutOverride(f: Files, c: Clear): Files {
    match c
    case OverrideStays => f
    case RecordStays => f.(override := None)
    case Cleared => f.(override := None, failed := None)
  }

  function Overridden(f: Files, to: string, failed: string, w: Write): Files {
    match w
    case Refused => f
    case OldOverride => f.(failed := None)
    case NoRecord => f.(override := Some(to), failed := None)
    case Written => f.(override := Some(to), failed := Some(failed))
  }

  /** The guard tries the release the app's own payload is. */
  predicate TriesApp(f: Files) { f.guard.Some? && f.app == Some(f.guard.value.version) }

  /** The app is another release than the failed one, and newer than the kept copy. */
  predicate Supersedes(k: Kept, f: Files, o: string) {
    && f.failed.Some? && f.app.Some? && f.app != f.failed
    && (k.version(o).Some? ==> k.rank(f.app.value) > k.rank(k.version(o).value))
  }

  /** The files after a look at which payload runs, and that payload. */
  function Look(k: Kept, f: Files, c: Clear): (Files, Payload) {
    if f.override.None? || TriesApp(f) then (f, Own)
    else
      var o := f.override.value;
      if Supersedes(k, f, o) then
        (WithoutOverride(f, c), if c.Cleared? || !k.server(o) then Own else Copy(o))
      else (f, if k.server(o) then Copy(o) else Own)
  }

  function VersionOf(k: Kept, f: Files, p: Payload): Option<string> {
    if p.Own? then f.app else k.version(p.dir)
  }

  /** The guard is on p. */
  predicate Guards(k: Kept, f: Files, p: Payload) {
    f.guard.Some? && VersionOf(k, f, p) == Some(f.guard.value.version)
  }

  /** bundleGuard: the guard, when it is on the payload the next start runs. */
  function LookGuarded(k: Kept, f: Files, c: Clear): (Files, Option<Guard>) {
    if f.guard.None? then (f, None)
    else
      var (g, p) := Look(k, f, c);
      (g, if Guards(k, g, p) then g.guard else None)
  }

  /** The guard firing: the files after it, and whether there was something to go back to. */
  function RolledBack(k: Kept, f: Files, c: Clear, w: Write, guardGoes: bool): (Files, bool) {
    var (h, g) := LookGuarded(k, f, c);
    if g.None? || g.value.previous.None? || !k.server(g.value.previous.value) then (h, false)
    else
      var o := Overridden(h, g.value.previous.value, g.value.version, w);
      if !w.Written? then (o, false) else (if guardGoes then o.(guard := None) else o, true)
  }

  class Launcher {
    const kept: Kept
    var files: Files

    constructor (kept: Kept, files: Files)
      ensures this.kept == kept && this.files == files
    {
      this.kept, this.files := kept, files;
    }

    /** appSupersedes, for the override o. */
    method AppSupersedes(o: string, c: Clear) returns (takesOver: bool)
      modifies this
      ensures takesOver <==> Supersedes(kept, old(files), o) && c.Cleared?
      ensures files == if Supersedes(kept, old(files), o) then WithoutOverride(old(files), c) else old(files)
    {
      if files.failed.None? || files.app.None? || files.app == files.failed { return false; }
      var was := kept.version(o);
      if was.Some? && kept.rank(files.app.value) <= kept.rank(was.value) { return false; }
      files := WithoutOverride(files, c);
      takesOver := c.Cleared?;
    }

    /** bundlePayload. */
    method BundlePayload(c: Clear) returns (p: Payload)
      modifies this
      ensures (files, p) == Look(kept, old(files), c)
    {
      p := Own;
      if files.override.Some? {
        var o := files.override.value;
        if files.guard.Some? && files.app.Some? && files.app.value == files.guard.value.version { return; }
        var takesOver := AppSupersedes(o, c);
        if takesOver { return; }
        if kept.server(o) { p := Copy(o); }
      }
    }

    method ReadGuard(c: Clear) returns (g: Option<Guard>)
      modifies this
      ensures (files, g) == LookGuarded(kept, old(files), c)
    {
      g := files.guard;
      if g.None? { return; }
      var p := BundlePayload(c);
      var v := if p.Own? then files.app else kept.version(p.dir);
      if v != Some(g.value.version) { g := None; }
    }

    /** bundleRollback. */
    method Rollback(c: Clear, w: Write, guardGoes: bool) returns (back: bool)
      modifies this
      ensures (files, back) == RolledBack(kept, old(files), c, w, guardGoes)
    {
      var g := ReadGuard(c);
      if g.None? || g.value.previous.None? { return false; }
      if !kept.server(g.value.previous.value) { return false; }
      files := Overridden(files, g.value.previous.value, g.value.version, w);
      if !w.Written? { return false; }
      if guardGoes { files := files.(guard := None); }
      back := true;
    }

    /**
    A start: whether a pending release starts, then the payload started. The two agree but for
    an override whose removal failed at the first look and came off by the second.
    */
    method Start(first: Clear, second: Clear) returns (pending: bool, p: Payload)
      modifies this
      ensures pending ==> old(files).guard.Some?
      ensures !Disagree(kept, old(files), first, second) ==> (pending <==> Guards(kept, files, p))
    {
      ghost var f := files;
      var g := ReadGuard(first);
      pending := g.Some?;
      p := BundlePayload(second);
      TwoLooksDisagreeIff(kept, f, first, second);
    }
  }

  // ---------------------------------------------------------------------
  // One look
  // ---------------------------------------------------------------------

  /** The app is a release newer than the copy's, or the copy's is not known, and not the one that failed. */
  predicate IsNewer(k: Kept, f: Files, o: string) {
    match (f.app, f.failed, k.version(o))
    case (Some(app), Some(failed), Some(was)) => app != failed && k.rank(was) < k.rank(app)
    case (Some(app), Some(failed), None) => app != failed
    case _ => false
  }

  /** With no override, or the guard trying the app's release, the app's own payload runs and nothing changes. */
  lemma OwnUnlessOverridden(k: Kept, f: Files, c: Clear)
    requires f.override.None? || (f.guard.Some? && f.app == Some(f.guard.value.version))
    ensures Look(k, f, c) == (f, Own)
  {
  }

  /**
  Otherwise a newer app takes over when the override comes off, and with it the failed record; in
  every other case the copy runs if it has a server and the app's own payload if it has none, and
  of the files at most the override of a newer app's look is gone.
  */
  lemma OverriddenRuns(k: Kept, f: Files, c: Clear)
    requires f.override.Some? && !(f.guard.Some? && f.app == Some(f.guard.value.version))
    ensures var o := f.override.value;
            var (g, p) := Look(k, f, c);
            && (p == if (IsNewer(k, f, o) && c == Cleared) || !k.server(o) then Own else Copy(o))
            && g.guard == f.guard && g.app == f.app
            && g.override == (if IsNewer(k, f, o) && c != OverrideStays then None else f.override)
            && g.failed == (if IsNewer(k, f, o) && c == Cleared then None else f.failed)
  {
  }

  /** With no guard to speak of, asking for it looks at nothing. */
  lemma NoGuardNoLook(k: Kept, f: Files, c: Clear)
    requires f.guard.None?
    ensures LookGuarded(k, f, c) == (f, None)
  {
  }

  /** A rollback whose write failed has left the old record, or none, under the old override or the new one. */
  lemma FailedRollbackLeaves(k: Kept, f: Files, c: Clear, w: Write, guardGoes: bool)
    requires w != Written && RolledBack(k, f, c, Written, guardGoes).1
    ensures var (h, g) := LookGuarded(k, f, c);
            var (o, back) := RolledBack(k, f, c, w, guardGoes);
            && !back && o.guard == f.guard && o.app == f.app
            && o.override == (if w == NoRecord then g.value.previous else h.override)
            && o.failed == (if w == Refused then h.failed else None)
  {
  }

  // ---------------------------------------------------------------------
  // Two looks
  // ---------------------------------------------------------------------

  /** The app takes over, but the first look could not take the override off and the second sees it gone. */
  predicate Disagree(k: Kept, f: Files, first: Clear, second: Clear) {
    && f.override.Some? && !TriesApp(f) && Supersedes(k, f, f.override.value) && k.server(f.override.value)
    && (first.RecordStays? || (first.OverrideStays? && second.Cleared?))
  }

  lemma TwoLooksDisagreeIff(k: Kept, f: Files, first: Clear, second: Clear)
    ensures var (g, p) := Look(k, f, first);
            p != Look(k, g, second).1 <==> Disagree(k, f, first, second)
  {
  }

  // ---------------------------------------------------------------------
  // After a rollback
  // ---------------------------------------------------------------------

  datatype Event =
    | Looked(c: Clear)
    | Asked(c: Clear)
    | Fired(c: Clear, w: Write, guardGoes: bool)   // the guard: bundleRollback
    | GuardIs(g: Option<Guard>)
    | AppIs(version: Option<string>)

  function Next(k: Kept, f: Files, e: Event): Files {
    match e
    case Looked(c) => Look(k, f, c).0
    case Asked(c) => LookGuarded(k, f, c).0
    case Fired(c, w, guardGoes) => RolledBack(k, f, c, w, guardGoes).0
    case GuardIs(g) => f.(guard := g)
    case AppIs(v) => f.(app := v)
  }

  function After(k: Kept, f: Files, run: seq<Event>): Files {
    if run == [] then f else Next(k, After(k, f, run[..|run| - 1]), run[|run| - 1])
  }

  /** Each event of a run comes after those before it; a guard or an app that changes changes nothing else. */
  lemma EventsInTurn(k: Kept, f: Files, run: seq<Event>, e: Event)
    ensures var b, g := After(k, f, run), After(k, f, run + [e]);
            && (e.GuardIs? ==> g == Files(b.override, b.failed, e.g, b.app))
            && (e.AppIs? ==> g == Files(b.override, b.failed, b.guard, e.version))
            && (e.Looked? ==> g == Look(k, b, e.c).0)
            && (e.Asked? ==> g == LookGuarded(k, b, e.c).0)
            && (e.Fired? ==> g == RolledBack(k, b, e.c, e.w, e.guardGoes).0)
  {
    assert (run + [e])[..|run|] == run;
  }

  /** The override of a rollback to the copy, from failed. */
  predicate Overrides(k: Kept, f: Files, copy: string, failed: string) {
    f.override == Some(copy) && f.failed == Some(failed) && k.server(copy)
  }

  /** The app's own payload is called for: a guard tries it, or it is a newer release that did not fail. */
  predicate AppCalled(k: Kept, f: Files, copy: string) { TriesApp(f) || Supersedes(k, f, copy) }

  /** When the guard fires, and what it leaves: the copy overrides, the failed release on record. */
  lemma RollbackIff(k: Kept, f: Files, c: Clear, w: Write, guardGoes: bool)
    ensures var (h, back) := RolledBack(k, f, c, w, guardGoes);
            var g := f.guard;
            && (back <==> g.Some? && Guards(k, f, Look(k, f, c).1) && g.value.previous.Some?
                          && k.server(g.value.previous.value) && w.Written?)
            && (back ==> Overrides(k, h, g.value.previous.value, g.value.version)
                         && h.guard == (if guardGoes then None else g) && h.app == f.app)
            && (!back ==> h.guard == g && h.app == f.app)
  {
  }

  /** The guard is on the copy's own release. */
  predicate CopyGuarded(k: Kept, f: Files, copy: string) {
    f.guard.Some? && k.version(copy) == Some(f.guard.value.version)
  }

  /** Nothing before the step calls for the app, nor is it the guard firing on the copy. */
  predicate LeavesTheCopy(k: Kept, f: Files, run: seq<Event>, i: nat, copy: string)
    requires i <= |run|
  {
    var g := After(k, f, run[..i]);
    !AppCalled(k, g, copy) && (i < |run| && run[i].Fired? ==> !CopyGuarded(k, g, copy))
  }

  /**
  Under an override, whatever looks, starts and rollbacks are tried and however the guard and the
  app change, the copy runs and the override stays, as long as the app is never called for and the
  guard does not fire on the copy itself; a start is pending exactly when the guard is on the copy.
  */
  lemma {:induction false} CopyRunsUntilAppIsCalled(k: Kept, f: Files, run: seq<Event>, copy: string, failed: string, c: Clear)
    requires Overrides(k, f, copy, failed)
    requires forall i :: 0 <= i <= |run| ==> LeavesTheCopy(k, f, run, i, copy)
    ensures var h := After(k, f, run);
            && Overrides(k, h, copy, failed)
            && Look(k, h, c) == (h, Copy(copy))
            && LookGuarded(k, h, c).0 == h
            && (LookGuarded(k, h, c).1.Some? <==> CopyGuarded(k, h, copy))
  {
    assert run[..|run|] == run && LeavesTheCopy(k, f, run, |run|, copy);
    if run != [] {
      var n := |run| - 1;
      forall i | 0 <= i <= n ensures LeavesTheCopy(k, f, run[..n], i, copy) {
        assert run[..n][..i] == run[..i] && LeavesTheCopy(k, f, run, i, copy);
      }
      assert LeavesTheCopy(k, f, run, n, copy);
      CopyRunsUntilAppIsCalled(k, f, run[..n], copy, failed, LookOf(run[n], c));
    }
  }

  function LookOf(e: Event, c: Clear): Clear {
    if e.Looked? || e.Asked? || e.Fired? then e.c else c
  }

  /**
  So from a rollback that went back and whose guard came off: until the app is called for, or a
  guard fires on the copy, every start runs the copy it went back to, and two looks agree.
  */
  lemma RolledBackStaysBack(k: Kept, f: Files, c: Clear, w: Write, run: seq<Event>, first: Clear, second: Clear)
    requires RolledBack(k, f, c, w, true).1
    requires forall i :: 0 <= i <= |run| ==>
               LeavesTheCopy(k, RolledBack(k, f, c, w, true).0, run, i, f.guard.value.previous.value)
    ensures var copy := f.guard.value.previous.value;
            var h := After(k, RolledBack(k, f, c, w, true).0, run);
            && Look(k, h, first) == (h, Copy(copy)) && Look(k, h, second) == (h, Copy(copy))
            && h.failed == Some(f.guard.value.version)
            && (LookGuarded(k, h, first).1.Some? <==> CopyGuarded(k, h, copy))
  {
    RollbackIff(k, f, c, w, true);
    var h := RolledBack(k, f, c, w, true).0;
    CopyRunsUntilAppIsCalled(k, h, run, f.guard.value.previous.value, f.guard.value.version, first);
    CopyRunsUntilAppIsCalled(k, h, run, f.guard.value.previous.value, f.guard.value.version, second);
  }

  /** And once the app is called for it runs, unless it only supersedes and the override does not come off. */
  lemma AppRunsWhenCalled(k: Kept, f: Files, copy: string, failed: string, c: Clear)
    requires Overrides(k, f, copy, failed)
    ensures Look(k, f, c).1.Own? <==> TriesApp(f) || (Supersedes(k, f, copy) && c.Cleared?)
  {
  }

  /**
  The start after a rollback runs the copy exactly when the guard came off or was not on the
  app's own release (and no newer app takes over).
  */
  lemma StartAfterRollback(k: Kept, f: Files, c: Clear, w: Write, guardGoes: bool, d: Clear)
    requires RolledBack(k, f, c, w, guardGoes).1
    ensures var h := RolledBack(k, f, c, w, guardGoes).0;
            var g := f.guard.value;
            Look(k, h, d).1 == Copy(g.previous.value) <==>
            (guardGoes || f.app != Some(g.version)) && !(Supersedes(k, h, g.previous.value) && d.Cleared?)
  {
    RollbackIff(k, f, c, w, guardGoes);
  }

  /**
  A guard that fires and does not come off starts the failed release again, though the
  rollback said it took.
  */
  lemma StuckGuardStartsTheFailed(k: Kept, f: Files, c: Clear, w: Write, d: Clear)
    requires RolledBack(k, f, c, w, false).1 && f.app == Some(f.guard.value.version)
    ensures Look(k, RolledBack(k, f, c, w, false).0, d).1 == Own
  {
    StartAfterRollback(k, f, c, w, false, d);
  }

  /** The app's failed release never comes back by itself: with no guard on it, the copy runs. */
  lemma FailedReleaseStaysOut(k: Kept, f: Files, copy: string, failed: string, c: Clear)
    requires Overrides(k, f, copy, failed) && f.app == Some(failed)
    requires f.guard.None? || f.guard.value.version != failed
    ensures Look(k, f, c) == (f, Copy(copy))
  {
  }

  /** An override with no record of the release that failed is never taken off by a newer app. */
  lemma UnrecordedOverrideStays(k: Kept, f: Files, c: Clear)
    requires f.override.Some? && f.failed.None?
    ensures Look(k, f, c).0 == f
  {
  }
}
