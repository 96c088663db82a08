/**
A newer image's switch in a container (cmd/maktaba-server/cmd_container.go): the bootstrap that
points the volume's runtime at the image's release under the launcher's guard, the launcher that
goes back from it (cmd/maktaba-launcher/run.go), and the confirm beside it that keeps the switch
or records the version as refused. They share files and take interleaved steps.
*/
module ImageSwitch {

  datatype Option<T> = None | Some(value: T)

  /** A runtime directory's version, and how long a version must answer to be kept. */
  datatype World = World(versionOf: string -> int, settle: nat)

  /** The guard the bootstrap writes; id tells the switches apart. */
  datatype Guard = Guard(version: int, previous: string, id: nat)

  /** The launcher's rollback: it read the guard, then moved `current` back. */
  datatype Launcher = Idle | Held(g: Guard) | Moved(g: Guard)

  datatype Outcome = KeptIt | RefusedIt | Nothing

  /** confirm: about to read the guard, to look at `current`, to probe, to clear the guard, to finish. */
  datatype Confirm =
    | Off
    | Waiting(g: Guard)
    | Gone(g: Guard)
    | Matched(g: Guard)
    | Ready(g: Guard)
    | Kept(g: Guard)
    | Done(g: Guard, outcome: Outcome)

  datatype Probe = Probe(at: nat, matched: bool)

  datatype State = State(
    now: nat,
    guard: Option<Guard>,
    current: string,
    watermark: Option<int>,
    refused: Option<int>,
    server: Option<string>,   // the runtime that answers
    launcher: Launcher,
    confirm: Confirm,
    since: Option<nat>,
    probes: seq<Probe>,       // this confirm's
    switches: nat,
    kept: set<nat>,           // switches whose guard the confirm cleared
    back: set<nat>,           // switches the launcher moved `current` back from
    raised: set<nat>)         // switches the watermark was raised for

  datatype How = InstallFails | PointFails | CutAfterGuard | Pointed

  datatype Action =
    | Tick
    | ServerStarts
    | ServerEnds
    | LaunchReads
    | LaunchMoves(ok: bool)
    | LaunchClears(ok: bool)
    | Reads
    | Looks(ok: bool)
    | Probes(answers: bool)
    | Clears(ok: bool)
    | Finishes(raises: bool, removes: bool)
    | Boot(dir: string, how: How)

  datatype Plan = First | Newer | Older | Runs

  /** What the runtime says of a payload against what the volume has. */
  datatype Status = Status(from: Option<string>, current: Option<string>, updatePending: bool, downgrade: bool)

  function StatusOf(w: World, current: Option<string>, watermark: Option<int>, from: Option<string>): Status {
    if from.None? then Status(None, current, false, false)
    else
      var v := w.versionOf(from.value);
      var running := if current.Some? then Some(w.versionOf(current.value)) else None;
      var floor := if watermark.Some? then watermark else running;
      var downgrade := floor.Some? && v < floor.value;
      Status(from, current, !downgrade && from != current && (running.None? || v >= running.value), downgrade)
  }

  function PlanContainer(st: Status): Plan {
    if st.from.None? then Runs
    else if st.current.None? then First
    else if st.downgrade then Older
    else if st.updatePending then Newer
    else Runs
  }

  /** A volume without a runtime gets the payload; one with is moved only to another build, no older than it or than it ever ran. */
  lemma PlanNeverGoesBack(w: World, current: Option<string>, watermark: Option<int>, dir: string)
    ensures var p := PlanContainer(StatusOf(w, current, watermark, Some(dir)));
            && (p.First? <==> current.None?)
            && (p.Newer? <==> current.Some? && dir != current.value && w.versionOf(dir) >= w.versionOf(current.value)
                              && (watermark.Some? ==> w.versionOf(dir) >= watermark.value))
            && (p.Older? <==> current.Some? && w.versionOf(dir) <
                              if watermark.Some? then watermark.value else w.versionOf(current.value))
    ensures PlanContainer(StatusOf(w, current, watermark, None)).Runs?
  {
  }

  function PlanFor(w: World, s: State, dir: string): Plan {
    PlanContainer(StatusOf(w, Some(s.current), s.watermark, Some(dir)))
  }

  predicate Switches(w: World, s: State, dir: string) {
    PlanFor(w, s, dir).Newer? && s.refused != Some(w.versionOf(dir))
  }

  /** A container's start: nothing else runs; with no switch of its own it watches on. */
  function Booted(w: World, s: State, dir: string, how: How): State {
    var t := s.(server := None, launcher := Idle, since := None, probes := [], confirm := Off);
    if !Switches(w, s, dir) then
      if t.guard.Some? then t.(confirm := Waiting(t.guard.value)) else t
    else
      var g := Guard(w.versionOf(dir), s.current, s.switches);
      match how
      case InstallFails => t
      case PointFails => t.(switches := s.switches + 1, guard := None)
      case CutAfterGuard => t.(switches := s.switches + 1, guard := Some(g))
      case Pointed => t.(switches := s.switches + 1, guard := Some(g), current := dir, confirm := Waiting(g))
  }

  function Raise(watermark: Option<int>, v: int): Option<int> {
    if watermark.Some? && v <= watermark.value then watermark else Some(v)
  }

  /** One step; an action that cannot be taken now changes nothing. */
  function Next(w: World, s: State, a: Action): State {
    match a
    case Tick => s.(now := s.now + 1)
    case ServerStarts => if s.launcher.Idle? && s.server.None? then s.(server := Some(s.current)) else s
    case ServerEnds => s.(server := None)
    case LaunchReads =>
      if s.launcher.Idle? && s.server.None? && s.guard.Some? && w.versionOf(s.current) == s.guard.value.version then
        s.(launcher := Held(s.guard.value))
      else s
    case LaunchMoves(ok) =>
      if !s.launcher.Held? then s
      else if !ok then s.(launcher := Idle)
      else s.(launcher := Moved(s.launcher.g), current := s.launcher.g.previous, back := s.back + {s.launcher.g.id})
    case LaunchClears(ok) =>
      if s.launcher.Moved? then s.(launcher := Idle, guard := if ok then None else s.guard) else s
    case Reads =>
      if !s.confirm.Waiting? then s
      else
        var g := s.confirm.g;
        s.(confirm := if s.guard.Some? && s.guard.value.version == g.version then Matched(g) else Gone(g))
    case Looks(ok) =>
      if !s.confirm.Gone? then s
      else
        var g := s.confirm.g;
        if s.current == g.previous then
          s.(confirm := Done(g, RefusedIt), refused := if ok then Some(g.version) else s.refused)
        else s.(confirm := Done(g, Nothing))
    case Probes(answers) =>
      if !s.confirm.Matched? then s
      else
        var g := s.confirm.g;
        var matched := answers && s.server.Some? && w.versionOf(s.server.value) == g.version;
        var since := if !matched then None else if s.since.None? then Some(s.now) else s.since;
        s.(probes := s.probes + [Probe(s.now, matched)], since := since,
           confirm := if matched && s.now - since.value >= w.settle then Ready(g) else Waiting(g))
    case Clears(ok) =>
      if !s.confirm.Ready? then s
      else if !ok then s.(confirm := Waiting(s.confirm.g))
      else s.(confirm := Kept(s.confirm.g), guard := None, kept := s.kept + {s.confirm.g.id})
    case Finishes(raises, removes) =>
      if !s.confirm.Kept? then s
      else
        var g := s.confirm.g;
        s.(confirm := Done(g, KeptIt),
           watermark := if raises then Raise(s.watermark, g.version) else s.watermark,
           raised := if raises then s.raised + {g.id} else s.raised,
           refused := if removes then None else s.refused)
    case Boot(dir, how) => Booted(w, s, dir, how)
  }

  function After(w: World, s: State, run: seq<Action>): State {
    if run == [] then s else Next(w, After(w, s, run[..|run| - 1]), run[|run| - 1])
  }

  /** A volume before its first switch. */
  predicate Init(s: State) {
    && s.guard.None? && s.server.None? && s.launcher.Idle? && s.confirm.Off? && s.since.None? && s.probes == []
    && s.switches == 0 && s.kept == {} && s.back == {} && s.raised == {}
  }

  /** The guard is cleared right after the probe that made it ready: the two are as one step. */
  predicate Prompt(w: World, s: State, run: seq<Action>) {
    run == [] ||
    (var n := |run| - 1;
     && Prompt(w, s, run[..n])
     && (run[n].Clears? && After(w, s, run[..n]).confirm.Ready? ==> JustReady(w, s, run[..n])))
  }

  predicate JustReady(w: World, s: State, run: seq<Action>) {
    run != [] && !After(w, s, run[..|run| - 1]).confirm.Ready?
  }

  /** No version is built twice. */
  ghost predicate OneBuild(w: World) { forall d, e :: w.versionOf(d) == w.versionOf(e) ==> d == e }

  // ---------------------------------------------------------------------
  // What every step keeps
  // ---------------------------------------------------------------------

  predicate Watches(c: Confirm) { c.Waiting? || c.Gone? || c.Matched? || c.Ready? }

  /** A switch gone back from runs the release before it, while anyone still minds its guard. */
  predicate BackRunsBefore(s: State, g: Guard) {
    g.id in s.back ==> s.current == g.previous && (s.server.None? || s.server == Some(g.previous))
  }

  /** A switch to a version newer than what ran, no older than the volume ran, and not refused. */
  predicate Known(w: World, s: State, g: Guard) {
    && g.id < s.switches && w.versionOf(g.previous) < g.version
    && (s.watermark.Some? ==> s.watermark.value <= g.version)
    && s.refused != Some(g.version)
  }

  predicate LauncherSound(w: World, s: State) {
    && (!s.launcher.Idle? ==> s.server.None?)
    && (s.launcher.Held? ==> s.guard == Some(s.launcher.g))
    && (s.launcher.Moved? ==> s.launcher.g.id in s.back && (s.guard.None? || s.guard == Some(s.launcher.g))
                              && (Watches(s.confirm) ==> s.confirm.g == s.launcher.g))
  }

  predicate ConfirmSound(w: World, s: State) {
    && (s.guard.Some? ==> Known(w, s, s.guard.value) && s.guard.value.id !in s.kept && BackRunsBefore(s, s.guard.value))
    && (Watches(s.confirm) ==>
          && Known(w, s, s.confirm.g) && s.confirm.g.id !in s.kept && BackRunsBefore(s, s.confirm.g)
          && (s.guard == Some(s.confirm.g) || (s.guard.None? && s.confirm.g.id in s.back)))
    && (s.confirm.Gone? ==> s.guard.None?)
    && (s.confirm.Kept? ==> s.confirm.g.id in s.kept && s.guard.None?)
    && (s.confirm.Done? ==> match s.confirm.outcome
                            case KeptIt => s.confirm.g.id in s.kept
                            case RefusedIt => s.confirm.g.id in s.back
                            case Nothing => false)
  }

  ghost predicate LogSound(s: State) {
    && s.kept !! s.back && s.raised <= s.kept
    && (forall i :: i in s.kept || i in s.back ==> i < s.switches)
  }

  ghost predicate Sound(w: World, s: State) { LauncherSound(w, s) && ConfirmSound(w, s) && LogSound(s) }

  /** Right after a probe: ready means the new release answers. */
  predicate JustProbed(w: World, s: State) {
    s.confirm.Ready? ==> s.server.Some? && w.versionOf(s.server.value) == s.confirm.g.version && s.launcher.Idle?
  }

  lemma StepKeepsSound(w: World, s: State, a: Action)
    requires OneBuild(w) && Sound(w, s) && (a.Clears? && s.confirm.Ready? ==> JustProbed(w, s))
    ensures Sound(w, Next(w, s, a))
    ensures !s.confirm.Ready? ==> JustProbed(w, Next(w, s, a))
  {
    if a.Boot? { BootKeepsSound(w, s, a.dir, a.how); }
    else if a.LaunchReads? || a.LaunchMoves? || a.LaunchClears? { LauncherKeepsSound(w, s, a); }
    else if !a.Tick? && !a.ServerStarts? && !a.ServerEnds? { ConfirmKeepsSound(w, s, a); }
  }

  lemma BootKeepsSound(w: World, s: State, dir: string, how: How)
    requires OneBuild(w) && Sound(w, s)
    ensures Sound(w, Booted(w, s, dir, how)) && JustProbed(w, Booted(w, s, dir, how))
  {
  }

  lemma LauncherKeepsSound(w: World, s: State, a: Action)
    requires OneBuild(w) && Sound(w, s) && (a.LaunchReads? || a.LaunchMoves? || a.LaunchClears?)
    ensures Sound(w, Next(w, s, a))
  {
  }

  lemma ConfirmKeepsSound(w: World, s: State, a: Action)
    requires OneBuild(w) && Sound(w, s) && (a.Clears? && s.confirm.Ready? ==> JustProbed(w, s))
    requires a.Reads? || a.Looks? || a.Probes? || a.Clears? || a.Finishes?
    ensures Sound(w, Next(w, s, a))
    ensures !s.confirm.Ready? ==> JustProbed(w, Next(w, s, a))
  {
    if a.Clears? { ClearKeepsSound(w, s, a.ok); }
    else if a.Probes? { ProbeKeepsSound(w, s, a.answers); }
  }

  lemma ClearKeepsSound(w: World, s: State, ok: bool)
    requires OneBuild(w) && Sound(w, s) && (s.confirm.Ready? ==> JustProbed(w, s))
    ensures Sound(w, Next(w, s, Clears(ok))) && !Next(w, s, Clears(ok)).confirm.Ready?
  {
    assert s.confirm.Ready? ==> s.confirm.g.id !in s.back;
  }

  lemma ProbeKeepsSound(w: World, s: State, answers: bool)
    requires OneBuild(w) && Sound(w, s)
    ensures Sound(w, Next(w, s, Probes(answers)))
    ensures !s.confirm.Ready? ==> JustProbed(w, Next(w, s, Probes(answers)))
  {
  }

  lemma {:induction false} RunKeepsSound(w: World, s: State, run: seq<Action>)
    requires OneBuild(w) && Init(s) && Prompt(w, s, run)
    ensures Sound(w, After(w, s, run)) && (JustReady(w, s, run) ==> JustProbed(w, After(w, s, run)))
  {
    if run != [] {
      var n := |run| - 1;
      RunKeepsSound(w, s, run[..n]);
      var t := After(w, s, run[..n]);
      StepKeepsSound(w, t, run[n]);
    }
  }

  // ---------------------------------------------------------------------
  // Kept or gone back from
  // ---------------------------------------------------------------------

  /**
  In every run: no switch is both kept and gone back from, the watermark is raised only for kept
  ones, and a confirm ends as its switch did.
  */
  lemma KeptOrGoneBack(w: World, s: State, run: seq<Action>)
    requires OneBuild(w) && Init(s) && Prompt(w, s, run)
    ensures var t := After(w, s, run);
            && t.kept !! t.back && t.raised <= t.kept
            && (t.confirm.Done? ==> (t.confirm.outcome.KeptIt? <==> t.confirm.g.id in t.kept)
                                    && (t.confirm.outcome.RefusedIt? <==> t.confirm.g.id in t.back)
                                    && !t.confirm.outcome.Nothing?)
  {
    RunKeepsSound(w, s, run);
  }

  /** The launcher went back and cleared the guard while the confirm watched. */
  predicate WentBack(s: State) {
    Watches(s.confirm) && s.confirm.g.id in s.back && s.guard.None?
  }

  predicate Boots(run: seq<Action>) { exists i :: 0 <= i < |run| && run[i].Boot? }

  /** In the run from s, the confirm looked at `current` with the guard gone; ok: it could write the refusal. */
  predicate Looked(w: World, s: State, run: seq<Action>, ok: bool) {
    run != [] &&
    (var n := |run| - 1;
     Looked(w, s, run[..n], ok) || (run[n] == Looks(ok) && After(w, s, run[..n]).confirm.Gone?))
  }

  lemma {:induction false} LookedIsIn(w: World, s: State, run: seq<Action>, ok: bool)
    requires Looked(w, s, run, ok)
    ensures Looks(ok) in run
  {
    var n := |run| - 1;
    if Looked(w, s, run[..n], ok) { LookedIsIn(w, s, run[..n], ok); }
  }

  lemma {:induction false} RunsJoin(w: World, s: State, a: seq<Action>, b: seq<Action>)
    ensures After(w, s, a + b) == After(w, After(w, s, a), b)
  {
    if b == [] {
      assert a + b == a;
    } else {
      var n := |b| - 1;
      RunsJoin(w, s, a, b[..n]);
      assert (a + b)[..|a + b| - 1] == a + b[..n];
    }
  }

  /** What holds from then on, until the container starts again; recorded: the refusal was written, failed: it was not. */
  ghost predicate OnTheWayOut(s: State, g: Guard, watermark: Option<int>, recorded: bool, failed: bool) {
    && s.watermark == watermark && s.guard.None? && s.current == g.previous
    && !s.confirm.Off? && s.confirm.g == g && g.id in s.back && g.id !in s.kept
    && (s.refused == Some(g.version) <==> recorded)
    && (if Watches(s.confirm) then !recorded && !failed else s.confirm == Done(g, RefusedIt) && (recorded || failed))
  }

  lemma StepStaysOnTheWayOut(w: World, s: State, a: Action, g: Guard, watermark: Option<int>, recorded: bool, failed: bool)
    requires OneBuild(w) && Sound(w, s) && (a.Clears? && s.confirm.Ready? ==> JustProbed(w, s)) && !a.Boot?
    requires OnTheWayOut(s, g, watermark, recorded, failed)
    ensures var gone := s.confirm.Gone?;
            OnTheWayOut(Next(w, s, a), g, watermark, recorded || (a == Looks(true) && gone), failed || (a == Looks(false) && gone))
  {
  }

  /**
  Once the launcher went back and cleared the guard, a confirm that goes on is on its way to the
  refusal: it keeps nothing, the watermark stays, `current` stays on the release before, and the
  refused file names the version exactly once it looked and could write.
  */
  lemma {:induction false} GoneBackIsRefused(w: World, s: State, before: seq<Action>, after: seq<Action>)
    requires OneBuild(w) && Init(s) && Prompt(w, s, before + after) && !Boots(after)
    requires WentBack(After(w, s, before))
    ensures var b, t := After(w, s, before), After(w, s, before + after);
            && OnTheWayOut(t, b.confirm.g, b.watermark, Looked(w, b, after, true), Looked(w, b, after, false))
            && (t.confirm.Done? ==> t.confirm.outcome.RefusedIt?)
  {
    var b := After(w, s, before);
    RunKeepsSound(w, s, before + after);
    if after == [] {
      assert before + after == before;
    } else {
      var n := |after| - 1;
      var r := before + after[..n];
      assert !after[n].Boot?;
      forall i | 0 <= i < n ensures !after[..n][i].Boot? { assert after[..n][i] == after[i]; }
      assert (before + after)[..|before + after| - 1] == r && (before + after)[|r|] == after[n];
      GoneBackIsRefused(w, s, before, after[..n]);
      RunKeepsSound(w, s, r);
      RunsJoin(w, s, before, after[..n]);
      StepStaysOnTheWayOut(w, After(w, s, r), after[n], b.confirm.g, b.watermark,
                           Looked(w, b, after[..n], true), Looked(w, b, after[..n], false));
    }
  }

  /** So a confirm that ends, with no write of the refusal failed, has recorded the version as refused. */
  lemma RefusalIsRecorded(w: World, s: State, before: seq<Action>, after: seq<Action>)
    requires OneBuild(w) && Init(s) && Prompt(w, s, before + after) && !Boots(after)
    requires WentBack(After(w, s, before)) && Looks(false) !in after
    ensures var b, t := After(w, s, before), After(w, s, before + after);
            t.confirm.Done? ==> t.refused == Some(b.confirm.g.version)
  {
    GoneBackIsRefused(w, s, before, after);
    if Looked(w, After(w, s, before), after, false) { LookedIsIn(w, After(w, s, before), after, false); }
  }

  /**
  And the image is switched to again, by the container's next start, exactly when the confirm had
  not looked by then, or could not write.
  */
  lemma SwitchedAgainIff(w: World, s: State, before: seq<Action>, after: seq<Action>, dir: string)
    requires OneBuild(w) && Init(s) && Prompt(w, s, before + after) && !Boots(after)
    requires WentBack(After(w, s, before)) && w.versionOf(dir) == After(w, s, before).confirm.g.version
    ensures var b, t := After(w, s, before), After(w, s, before + after);
            Next(w, t, Boot(dir, Pointed)).current == dir <==> !Looked(w, b, after, true)
  {
    var b, t := After(w, s, before), After(w, s, before + after);
    GoneBackIsRefused(w, s, before, after);
    PrefixIsPrompt(w, s, before, after);
    RunKeepsSound(w, s, before);
    SwitchesUnlessRecorded(w, b, t, dir, Looked(w, b, after, true), Looked(w, b, after, false));
  }

  lemma SwitchesUnlessRecorded(w: World, b: State, t: State, dir: string, recorded: bool, failed: bool)
    requires OneBuild(w) && Watches(b.confirm) && Known(w, b, b.confirm.g) && w.versionOf(dir) == b.confirm.g.version
    requires OnTheWayOut(t, b.confirm.g, b.watermark, recorded, failed)
    ensures Booted(w, t, dir, Pointed).current == dir <==> !recorded
  {
    PlanNeverGoesBack(w, Some(t.current), t.watermark, dir);
  }

  lemma {:induction false} PrefixIsPrompt(w: World, s: State, before: seq<Action>, after: seq<Action>)
    requires Prompt(w, s, before + after)
    ensures Prompt(w, s, before)
  {
    if after == [] {
      assert before + after == before;
    } else {
      var n := |after| - 1;
      assert (before + after)[..|before + after| - 1] == before + after[..n];
      PrefixIsPrompt(w, s, before, after[..n]);
    }
  }

  /** The watermark never falls, and no switch, start or rollback moves it: only a kept switch does. */
  lemma WatermarkMovesOnlyWhenKept(w: World, s: State, a: Action)
    ensures Next(w, s, a).watermark != s.watermark ==> a.Finishes? && s.confirm.Kept?
    ensures s.watermark.Some? ==> Next(w, s, a).watermark.Some? && Next(w, s, a).watermark.value >= s.watermark.value
  {
  }

  /** The watermark is raised to a version above it, and to the first one. */
  lemma RaisedToTheNewest(watermark: Option<int>, v: int)
    ensures var r := Raise(watermark, v);
            && r.Some? && v <= r.value && (watermark.Some? ==> watermark.value <= r.value)
            && (r.value == v || r == watermark)
  {
  }

  /** A switch that fails leaves `current` and is not watched; a guard is left only where the container ended between its two writes. */
  lemma FailedSwitchLeaves(w: World, s: State, dir: string, how: How)
    requires Switches(w, s, dir) && !how.Pointed?
    ensures var t := Booted(w, s, dir, how);
            && t.current == s.current && t.watermark == s.watermark && t.refused == s.refused && t.confirm.Off?
            && t.guard == (match how
                           case InstallFails => s.guard
                           case PointFails => None
                           case _ => Some(Guard(w.versionOf(dir), s.current, s.switches)))
            && t.switches == if how.InstallFails? then s.switches else s.switches + 1
  {
  }

  /** The launcher goes back from a guarded release that ended: `current` first, then the guard, each as its write works. */
  lemma LauncherGoesBack(w: World, s: State, moves: bool, clears: bool)
    requires s.launcher.Idle? && s.server.None? && s.guard.Some? && w.versionOf(s.current) == s.guard.value.version
    ensures var g := s.guard.value;
            var t := Next(w, Next(w, Next(w, s, LaunchReads), LaunchMoves(moves)), LaunchClears(clears));
            && t.launcher.Idle? && t.current == (if moves then g.previous else s.current)
            && t.back == (if moves then s.back + {g.id} else s.back)
            && t.guard == if moves && clears then None else s.guard
  {
  }

  /** And from no other: only the release the guard is on, once its server has ended. */
  lemma LauncherGoesBackOnlyFromTheGuarded(w: World, s: State)
    ensures Next(w, s, LaunchReads) != s <==>
            s.launcher.Idle? && s.server.None? && s.guard.Some? && w.versionOf(s.current) == s.guard.value.version
    ensures Next(w, s, LaunchReads) != s ==> Next(w, s, LaunchReads) == s.(launcher := Held(s.guard.value))
    ensures !s.launcher.Held? ==> Next(w, s, LaunchMoves(true)) == s
  {
  }

  /**
  A confirm that finds its guard gone ends: the version is refused exactly when `current` is back on
  the release before, and could be recorded; one that finds its guard goes on to probe.
  */
  lemma ConfirmFindsTheGuardGone(w: World, s: State, works: bool)
    requires s.confirm.Waiting?
    ensures var g, r := s.confirm.g, Next(w, s, Reads);
            && (s.guard.Some? && s.guard.value.version == g.version ==> r == s.(confirm := Matched(g)))
            && (s.guard.None? || s.guard.value.version != g.version ==>
                  var t := Next(w, r, Looks(works));
                  && t.confirm == Done(g, if s.current == g.previous then RefusedIt else Nothing)
                  && t.refused == (if s.current == g.previous && works then Some(g.version) else s.refused)
                  && t.current == s.current && t.guard == s.guard && t.watermark == s.watermark)
  {
  }

  /** A guard that cannot be cleared is tried again: the switch is kept only once it is gone. */
  lemma StuckClearIsTriedAgain(w: World, s: State)
    requires s.confirm.Ready?
    ensures Next(w, s, Clears(false)) == s.(confirm := Waiting(s.confirm.g))
    ensures var t := Next(w, s, Clears(true)); t.guard.None? && t.confirm == Kept(s.confirm.g) && s.confirm.g.id in t.kept
  {
  }

  /** A kept switch ends with the watermark raised and no version refused, each as its write works. */
  lemma KeptSwitchEnds(w: World, s: State, raises: bool, removes: bool)
    requires s.confirm.Kept?
    ensures var g, t := s.confirm.g, Next(w, s, Finishes(raises, removes));
            && t.confirm == Done(g, KeptIt) && t.current == s.current && t.guard == s.guard
            && t.watermark == (if raises && !(s.watermark.Some? && g.version < s.watermark.value) then Some(g.version) else s.watermark)
            && t.refused == (if removes then None else s.refused)
            && t.raised == if raises then s.raised + {g.id} else s.raised
  {
  }

  /** A refused version is not switched to again. */
  lemma RefusedIsNotTried(w: World, s: State, dir: string, how: How)
    requires s.refused == Some(w.versionOf(dir))
    ensures Booted(w, s, dir, how).current == s.current && Booted(w, s, dir, how).guard == s.guard
    ensures Booted(w, s, dir, how).switches == s.switches
  {
  }

  /** A switch is under a guard that can go back from it, and to no older version than the volume ran. */
  lemma SwitchIsGuarded(w: World, s: State, dir: string, how: How)
    requires Booted(w, s, dir, how).current != s.current
    ensures var t := Booted(w, s, dir, how);
            && t.current == dir && t.guard == Some(Guard(w.versionOf(dir), s.current, s.switches))
            && t.confirm == Waiting(t.guard.value)
            && w.versionOf(dir) >= w.versionOf(s.current)
            && (s.watermark.Some? ==> w.versionOf(dir) >= s.watermark.value)
            && t.watermark == s.watermark && t.refused == s.refused
  {
  }

  // ---------------------------------------------------------------------
  // Kept only after settling
  // ---------------------------------------------------------------------

  /** The probes from the k-th on all matched, the k-th at since. */
  predicate MatchedFrom(s: State, k: nat) {
    && k < |s.probes| && s.since == Some(s.probes[k].at)
    && (forall i :: k <= i < |s.probes| ==> s.probes[i].matched)
    && s.probes[|s.probes| - 1].at <= s.now
  }

  ghost predicate Settling(w: World, s: State) {
    && (s.since.Some? ==> exists k: nat :: MatchedFrom(s, k))
    && (Decided(s.confirm) ==> Settled(w, s))
  }

  /** To be kept, or kept. */
  predicate Decided(c: Confirm) { c.Ready? || c.Kept? || (c.Done? && c.outcome.KeptIt?) }

  /** Every probe since one at least settle before the last matched. */
  ghost predicate Settled(w: World, s: State) {
    exists k: nat :: MatchedFrom(s, k) && LongAgo(w, s, k)
  }

  predicate LongAgo(w: World, s: State, k: nat)
    requires k < |s.probes|
  {
    s.probes[|s.probes| - 1].at - s.probes[k].at >= w.settle
  }

  lemma StepKeepsSettling(w: World, s: State, a: Action)
    requires Settling(w, s)
    ensures Settling(w, Next(w, s, a))
  {
    var t := Next(w, s, a);
    if a.Probes? {
      ProbeKeepsSettling(w, s, a);
    } else if !a.Boot? {
      StepLeavesProbes(w, s, a);
      if s.since.Some? {
        var k := FirstMatched(s);
        assert MatchedFrom(t, k);
      }
      if Settled(w, s) { SettledStays(w, s, t); }
    }
  }

  /** But for a probe or a start, a step leaves the probes, and what they settled. */
  lemma StepLeavesProbes(w: World, s: State, a: Action)
    requires !a.Probes? && !a.Boot?
    ensures var t := Next(w, s, a);
            && t.probes == s.probes && t.since == s.since && s.now <= t.now
            && (Decided(t.confirm) ==> Decided(s.confirm))
  {
  }

  lemma SettledStays(w: World, s: State, t: State)
    requires Settled(w, s) && t.probes == s.probes && t.since == s.since && s.now <= t.now
    ensures Settled(w, t)
  {
    var j: nat :| MatchedFrom(s, j) && LongAgo(w, s, j);
    assert MatchedFrom(t, j) && LongAgo(w, t, j);
  }

  lemma ProbeKeepsSettling(w: World, s: State, a: Action)
    requires Settling(w, s) && a.Probes?
    ensures Settling(w, Next(w, s, a))
  {
    var t := Next(w, s, a);
    if s.confirm.Matched? && t.since.Some? {
      var k := |s.probes|;
      if s.since.Some? { k := FirstMatched(s); }
      assert MatchedFrom(t, k);
      if t.confirm.Ready? { assert LongAgo(w, t, k); }
    }
  }

  lemma FirstMatched(s: State) returns (k: nat)
    requires exists j: nat :: MatchedFrom(s, j)
    ensures MatchedFrom(s, k)
  {
    k :| MatchedFrom(s, k);
  }

  /** A switch is kept only once its version answered every probe for at least settle. */
  lemma {:induction false} KeptOnlySettled(w: World, s: State, run: seq<Action>)
    requires Init(s)
    ensures Settling(w, After(w, s, run))
  {
    if run != [] {
      KeptOnlySettled(w, s, run[..|run| - 1]);
      StepKeepsSettling(w, After(w, s, run[..|run| - 1]), run[|run| - 1]);
    }
  }

  // ---------------------------------------------------------------------
  // What each condition is for
  // ---------------------------------------------------------------------

  /** A run, and one step more. */
  lemma Then(w: World, s: State, run: seq<Action>, a: Action) returns (longer: seq<Action>)
    ensures longer == run + [a] && After(w, s, longer) == Next(w, After(w, s, run), a)
    ensures Prompt(w, s, run) && !(a.Clears? && After(w, s, run).confirm.Ready?) ==> Prompt(w, s, longer)
    ensures Prompt(w, s, run) && JustReady(w, s, run) ==> Prompt(w, s, longer)
    ensures JustReady(w, s, longer) <==> !After(w, s, run).confirm.Ready?
  {
    longer := run + [a];
    assert longer[..|run|] == run;
  }

  lemma {:induction false} TimePasses(w: World, s: State, run: seq<Action>, n: nat) returns (longer: seq<Action>)
    requires Prompt(w, s, run)
    ensures Prompt(w, s, longer) && run <= longer
    ensures After(w, s, longer) == After(w, s, run).(now := After(w, s, run).now + n)
  {
    longer := run;
    if n > 0 {
      longer := TimePasses(w, s, run, n - 1);
      longer := Then(w, s, longer, Tick);
    }
  }

  /** The guard is there and its version answers: a confirm that just began gets ready, whatever it must settle for. */
  lemma Settles(w: World, s: State, run: seq<Action>) returns (longer: seq<Action>)
    requires Prompt(w, s, run)
    requires var t := After(w, s, run);
             && t.confirm.Waiting? && t.guard == Some(t.confirm.g) && t.since.None?
             && t.server.Some? && w.versionOf(t.server.value) == t.confirm.g.version
    ensures Prompt(w, s, longer) && JustReady(w, s, longer) && run <= longer
    ensures var t, u := After(w, s, run), After(w, s, longer);
            && u == t.(confirm := Ready(t.confirm.g), now := u.now, since := u.since, probes := u.probes)
  {
    var g := After(w, s, run).confirm.g;
    longer := Then(w, s, run, Reads);
    longer := Then(w, s, longer, Probes(true));
    if w.settle > 0 {
      assert After(w, s, longer).confirm == Waiting(g);
      longer := TimePasses(w, s, longer, w.settle);
      longer := Then(w, s, longer, Reads);
      longer := Then(w, s, longer, Probes(true));
    }
  }

  /** A container started again with a guard there, and no switch of its own, watches that one on and changes nothing. */
  lemma RestartWatchesOn(w: World, s: State, dir: string, how: How)
    requires s.guard.Some? && !Switches(w, s, dir)
    ensures var t := Booted(w, s, dir, how);
            && t.confirm == Waiting(s.guard.value) && t.guard == s.guard && t.current == s.current
            && t.watermark == s.watermark && t.refused == s.refused && t.switches == s.switches
            && t.since.None? && t.probes == []
  {
  }

  /**
  However it came about, a switch under its guard whose version `current` still has can be kept by
  a container started again: watched on from there, kept once its version answered for the settle
  time, with the watermark at its version and no version refused.
  */
  lemma RestartedCanBeKept(w: World, s: State, run: seq<Action>, dir: string, how: How) returns (longer: seq<Action>)
    requires Prompt(w, s, run)
    requires var t := After(w, s, run);
             t.guard.Some? && w.versionOf(t.current) == t.guard.value.version && !Switches(w, t, dir)
    ensures Prompt(w, s, longer) && run + [Boot(dir, how)] <= longer
    ensures var t, u := After(w, s, run), After(w, s, longer);
            var g := t.guard.value;
            && u.confirm == Done(g, KeptIt) && g.id in u.kept && u.guard.None? && u.current == t.current
            && u.watermark == Raise(t.watermark, g.version) && u.refused.None?
  {
    longer := Then(w, s, run, Boot(dir, how));
    RestartWatchesOn(w, After(w, s, run), dir, how);
    longer := Then(w, s, longer, ServerStarts);
    var settled := Settles(w, s, longer);
    longer := Then(w, s, settled, Clears(true));
    longer := Then(w, s, longer, Finishes(true, true));
  }

  /** The first switch, from s to dir, is under its guard and watched. */
  predicate UnderGuard(w: World, s: State, t: State, dir: string) {
    && t.guard == Some(Guard(w.versionOf(dir), s.current, 0)) && t.confirm == Waiting(t.guard.value)
    && t.current == dir && t.watermark == s.watermark && t.switches == 1
  }

  lemma StaysUnderGuard(w: World, s: State, t: State, dir: string)
    requires UnderGuard(w, s, t, dir)
    ensures !Switches(w, t, dir) && UnderGuard(w, s, Booted(w, t, dir, Pointed), dir)
  {
    PlanNeverGoesBack(w, Some(t.current), t.watermark, dir);
  }

  lemma StartsUnderGuard(w: World, s: State, dir: string)
    requires Init(s) && Switches(w, s, dir)
    ensures UnderGuard(w, s, Booted(w, s, dir, Pointed), dir)
  {
  }

  /** Started from the same image over and over before it settles, a switch is still there to be kept. */
  lemma {:induction false} RestartsKeepTheGuard(w: World, s: State, dir: string, n: nat) returns (run: seq<Action>)
    requires Init(s) && Switches(w, s, dir)
    ensures Prompt(w, s, run) && |run| == n + 1 && forall i :: 0 <= i <= n ==> run[i] == Boot(dir, Pointed)
    ensures UnderGuard(w, s, After(w, s, run), dir) && !Switches(w, After(w, s, run), dir)
  {
    if n == 0 {
      StartsUnderGuard(w, s, dir);
      run := Then(w, s, [], Boot(dir, Pointed));
    } else {
      var before := RestartsKeepTheGuard(w, s, dir, n - 1);
      StaysUnderGuard(w, s, After(w, s, before), dir);
      run := Then(w, s, before, Boot(dir, Pointed));
    }
    StaysUnderGuard(w, s, After(w, s, run), dir);
  }

  /**
  A clear that comes late: on any volume that switches, a run in which the launcher goes back
  between the probe and the clear, and the switch is both kept and gone back from.
  */
  lemma LateClearKeepsWhatWentBack(w: World, s: State, dir: string) returns (run: seq<Action>)
    requires Init(s) && Switches(w, s, dir)
    ensures var t := After(w, s, run); 0 in t.kept && 0 in t.back && t.current == s.current
  {
    run := Then(w, s, [], Boot(dir, Pointed));
    run := Then(w, s, run, ServerStarts);
    run := Settles(w, s, run);
    run := Then(w, s, run, ServerEnds);
    run := Then(w, s, run, LaunchReads);
    run := Then(w, s, run, LaunchMoves(true));
    run := Then(w, s, run, Clears(true));
  }

  /** A volume no image is newer for, as it was. */
  predicate Quiet(s: State, t: State) {
    && t.guard.None? && t.confirm.Off? && t.launcher.Idle? && t.kept == {} && t.back == {}
    && t.current == s.current && t.watermark == s.watermark && t.refused == s.refused
  }

  lemma {:induction false} StaysQuiet(w: World, s: State, run: seq<Action>)
    requires Init(s) && forall dir :: !Switches(w, s, dir)
    ensures Quiet(s, After(w, s, run))
  {
    if run != [] {
      var n := |run| - 1;
      StaysQuiet(w, s, run[..n]);
      if run[n].Boot? { assert !Switches(w, s, run[n].dir); }
    }
  }

  /**
  Whenever the clears come, no switch is ever both kept and gone back from, whatever is built, if and
  only if no image is newer than what the volume has: then nothing is switched to.
  */
  lemma AnyTimeExclusiveIff(w: World, s: State)
    requires Init(s)
    ensures (forall run :: After(w, s, run).kept !! After(w, s, run).back) <==> forall dir :: !Switches(w, s, dir)
  {
    if dir :| Switches(w, s, dir) {
      var run := LateClearKeepsWhatWentBack(w, s, dir);
      assert 0 in After(w, s, run).kept && 0 in After(w, s, run).back;
    } else {
      forall run ensures After(w, s, run).kept !! After(w, s, run).back { StaysQuiet(w, s, run); }
    }
  }

  /**
  One version built twice: on any such volume, with the clear right after its probe, a guard that
  does not come off is cleared by the confirm while the build before runs.
  */
  lemma SecondBuildIsKeptToo(w: World, s: State, dir: string) returns (run: seq<Action>)
    requires Init(s) && Switches(w, s, dir) && w.versionOf(dir) == w.versionOf(s.current)
    ensures Prompt(w, s, run)
    ensures var t := After(w, s, run); 0 in t.kept && 0 in t.back && t.current == s.current
  {
    run := Then(w, s, [], Boot(dir, Pointed));
    run := Then(w, s, run, LaunchReads);
    run := Then(w, s, run, LaunchMoves(true));
    run := Then(w, s, run, LaunchClears(false));
    run := Then(w, s, run, ServerStarts);
    run := Settles(w, s, run);
    run := Then(w, s, run, Clears(true));
  }

  /** With each clear right after its probe, no switch is ever both kept and gone back from if and only if no version is built twice. */
  lemma ExclusiveIffOneBuild(w: World)
    ensures (forall s, run :: Init(s) && Prompt(w, s, run) ==> After(w, s, run).kept !! After(w, s, run).back) <==> OneBuild(w)
  {
    if OneBuild(w) {
      forall s, run | Init(s) && Prompt(w, s, run) ensures After(w, s, run).kept !! After(w, s, run).back {
        KeptOrGoneBack(w, s, run);
      }
    } else {
      var d, e :| w.versionOf(d) == w.versionOf(e) && d != e;
      var s := State(0, None, d, None, None, None, Idle, Off, None, [], 0, {}, {}, {});
      var run := SecondBuildIsKeptToo(w, s, e);
    }
  }

  /**
  A container started again before its confirm looked: on any volume that switches, a run after
  which the same image is switched to once more.
  */
  lemma RestartForgetsTheRefusal(w: World, s: State, dir: string) returns (run: seq<Action>)
    requires OneBuild(w) && Init(s) && Switches(w, s, dir)
    ensures Prompt(w, s, run) && WentBack(After(w, s, run)) && After(w, s, run).current == s.current
    ensures var t := Next(w, After(w, s, run), Boot(dir, Pointed));
            t.current == dir && t.switches == 2 && t.refused == s.refused
  {
    run := Then(w, s, [], Boot(dir, Pointed));
    run := Then(w, s, run, LaunchReads);
    run := Then(w, s, run, LaunchMoves(true));
    run := Then(w, s, run, LaunchClears(true));
    assert run + [] == run;
    SwitchedAgainIff(w, s, run, [], dir);
  }

  // ---------------------------------------------------------------------
  // The container and the launcher
  // ---------------------------------------------------------------------

  /** What a confirm that ended leaves in the refused file, when it can change it and when it cannot. */
  predicate Recorded(c: Confirm, before: Option<int>, after: Option<int>, works: bool)
    requires c.Done?
  {
    match c.outcome
    case RefusedIt => after == if works then Some(c.g.version) else before
    case KeptIt => after == if works then None else before
    case Nothing => after == before
  }

  /** The volume's files and those who change them, since before the first switch. */
  class Volume {
    const w: World
    ghost const start: State
    var st: State
    ghost var run: seq<Action>

    ghost predicate Traced()
      reads this
    {
      OneBuild(w) && Init(start) && Prompt(w, start, run) && st == After(w, start, run)
    }

    constructor (w: World, s: State)
      requires OneBuild(w) && Init(s)
      ensures Traced() && st == s && this.w == w && start == s && run == []
    {
      this.w, start, st, run := w, s, s, [];
    }

    method Do(a: Action)
      requires Traced() && (a.Clears? && st.confirm.Ready? ==> JustReady(w, start, run))
      modifies this
      ensures Traced() && st == Next(w, old(st), a) && run == old(run) + [a]
    {
      assert (run + [a])[..|run|] == run;
      run := run + [a];
      st := Next(w, st, a);
    }

    /** Steps of the others: not the confirm's, nor a container's start. */
    method Others(acts: seq<Action>)
      requires Traced()
      modifies this
      ensures Traced() && st.confirm == old(st).confirm && st.since == old(st).since && st.probes == old(st).probes
      ensures st.refused == old(st).refused
    {
      for k := 0 to |acts|
        invariant Traced() && st.confirm == old(st).confirm && st.since == old(st).since && st.probes == old(st).probes
        invariant st.refused == old(st).refused
      {
        var a := acts[k];
        if a.Tick? || a.ServerStarts? || a.ServerEnds? || a.LaunchReads? || a.LaunchMoves? || a.LaunchClears? { Do(a); }
      }
    }

    /** bootstrap on a volume that has a runtime: the guard of a switch to watch, if any. */
    method Bootstrap(dir: string, how: How) returns (pending: Option<Guard>)
      requires Traced()
      modifies this
      ensures Traced() && st == Booted(w, old(st), dir, how)
      ensures pending == if st.confirm.Waiting? then Some(st.confirm.g) else None
      ensures old(st).guard.Some? && !Switches(w, old(st), dir) ==> pending == old(st).guard == st.guard
    {
      TracesBoot(dir, how);
      run := run + [Boot(dir, how)];
      var plan := PlanFor(w, st, dir);
      st := st.(server := None, launcher := Idle, since := None, probes := [], confirm := Off);
      pending := None;
      if plan.Newer? && st.refused != Some(w.versionOf(dir)) {
        pending := SwitchNewer(dir, how);
      } else {
        pending := st.guard; // one an earlier start left
      }
      if pending.Some? { st := st.(confirm := Waiting(pending.value)); }
    }

    lemma TracesBoot(dir: string, how: How)
      requires Traced()
      ensures Prompt(w, start, run + [Boot(dir, how)])
      ensures After(w, start, run + [Boot(dir, how)]) == Booted(w, st, dir, how)
    {
      assert (run + [Boot(dir, how)])[..|run|] == run;
    }

    /** switchNewer: the guard first, then `current`; a failed or cut one leaves nothing to watch. */
    method SwitchNewer(dir: string, how: How) returns (pending: Option<Guard>)
      modifies this`st
      ensures var g := Guard(w.versionOf(dir), old(st).current, old(st).switches);
              && pending == (if how.Pointed? then Some(g) else None)
              && st == match how
                       case InstallFails => old(st)
                       case PointFails => old(st).(switches := old(st).switches + 1, guard := None)
                       case CutAfterGuard => old(st).(switches := old(st).switches + 1, guard := Some(g))
                       case Pointed => old(st).(switches := old(st).switches + 1, guard := Some(g), current := dir)
    {
      pending := None;
      if how.InstallFails? { return; }
      var g := Guard(w.versionOf(dir), st.current, st.switches);
      st := st.(guard := Some(g), switches := st.switches + 1);
      if how.CutAfterGuard? { return; }
      if how.PointFails? {
        st := st.(guard := None);
        return;
      }
      st := st.(current := dir);
      pending := Some(g);
    }

    /**
    confirm, for as many turns as the launcher runs; env: what the others do before each look; last:
    the turn it ended at, after a probe in each before it.
    */
    method KeepOrRefuse(turns: nat, env: (nat, nat) -> seq<Action>, works: nat -> bool, answers: nat -> bool)
      returns (outcome: Option<Outcome>, last: nat)
      requires Traced() && st.confirm.Waiting?
      modifies this
      ensures Traced() && !st.confirm.Off? && st.confirm.g == old(st).confirm.g
      ensures outcome.Some? <==> st.confirm.Done?
      ensures outcome.Some? ==> outcome.value == st.confirm.outcome
      ensures outcome == Some(KeptIt) ==> st.confirm.g.id in st.kept && st.confirm.g.id !in st.back && Settled(w, st)
      ensures outcome == Some(RefusedIt) ==> st.confirm.g.id in st.back && st.confirm.g.id !in st.kept
      ensures outcome != Some(Nothing)
      ensures outcome.None? ==> |st.probes| == |old(st).probes| + turns && st.refused == old(st).refused
      ensures last <= turns && (outcome.Some? <==> last < turns)
      ensures outcome == Some(RefusedIt) ==>
                && |st.probes| == |old(st).probes| + last
                && st.refused == if works(last) then Some(st.confirm.g.version) else old(st).refused
      ensures outcome == Some(KeptIt) ==>
                && |st.probes| == |old(st).probes| + last + 1
                && st.refused == if works(last) then None else old(st).refused
    {
      outcome, last := None, 0;
      while last < turns
        invariant last <= turns && outcome.None?
        invariant Traced() && st.confirm == Waiting(old(st).confirm.g) && |st.probes| == |old(st).probes| + last
        invariant st.refused == old(st).refused
      {
        KeepTurn(env(last, 0), env(last, 1), env(last, 2), works(last), answers(last));
        if st.confirm.Done? {
          outcome := Some(st.confirm.outcome);
          Conclude();
          return;
        }
        last := last + 1;
      }
    }

    /** One turn of confirm's loop. */
    method KeepTurn(first: seq<Action>, second: seq<Action>, third: seq<Action>, works: bool, answers: bool)
      requires Traced() && st.confirm.Waiting?
      modifies this
      ensures Traced() && (st.confirm.Done? || st.confirm.Waiting?) && st.confirm.g == old(st).confirm.g
      ensures st.confirm.Waiting? ==> |st.probes| == |old(st).probes| + 1 && st.refused == old(st).refused
      ensures st.confirm.Done? ==>
                && Recorded(st.confirm, old(st).refused, st.refused, works)
                && |st.probes| == |old(st).probes| + (if st.confirm.outcome.KeptIt? then 1 else 0)
    {
      Others(first);
      Do(Reads);
      Others(second);
      if st.confirm.Gone? {
        Do(Looks(works));
        return;
      }
      ProbeTurn(third, works, answers);
    }

    /** The guard was there: the probe, and the guard's clearing right after it when it is the last. */
    method ProbeTurn(others: seq<Action>, works: bool, answers: bool)
      requires Traced() && st.confirm.Matched?
      modifies this
      ensures Traced() && (st.confirm.Done? || st.confirm.Waiting?) && st.confirm.g == old(st).confirm.g
      ensures st.confirm.Waiting? ==> |st.probes| == |old(st).probes| + 1 && st.refused == old(st).refused
      ensures st.confirm.Done? ==>
                && Recorded(st.confirm, old(st).refused, st.refused, works)
                && st.confirm.outcome.KeptIt? && |st.probes| == |old(st).probes| + 1
    {
      JustReadyAfter(Probes(answers));
      Do(Probes(answers));
      if !st.confirm.Ready? { return; }
      Do(Clears(works));
      if !st.confirm.Kept? { return; }
      Others(others);
      Do(Finishes(works, works));
    }

    /** A run that is here, one step on, has just become ready if it became so. */
    lemma JustReadyAfter(a: Action)
      requires Traced() && !st.confirm.Ready?
      ensures JustReady(w, start, run + [a])
    {
      assert (run + [a])[..|run|] == run;
    }

    lemma Conclude()
      requires Traced() && st.confirm.Done?
      ensures st.kept !! st.back && !st.confirm.outcome.Nothing?
      ensures st.confirm.outcome.KeptIt? ==> st.confirm.g.id in st.kept && Settled(w, st)
      ensures st.confirm.outcome.RefusedIt? ==> st.confirm.g.id in st.back
    {
      KeptOrGoneBack(w, start, run);
      KeptOnlySettled(w, start, run);
    }

    /** Steps of the confirm between the launcher's own: with the server down it clears nothing. */
    method ConfirmLooks(acts: seq<Action>)
      requires Traced()
      modifies this
      ensures Traced() && st.launcher == old(st).launcher && st.guard == old(st).guard && st.server == old(st).server
      ensures st.current == old(st).current && st.back == old(st).back
    {
      for k := 0 to |acts|
        invariant Traced() && st.launcher == old(st).launcher && st.guard == old(st).guard && st.server == old(st).server
        invariant st.current == old(st).current && st.back == old(st).back
      {
        var a := acts[k];
        if a.Tick? || a.Reads? || a.Looks? || a.Probes? { Do(a); }
      }
    }

    /** The launcher's rollback, the server down: `current` first, the guard second. */
    method GoBack(first: seq<Action>, second: seq<Action>, moves: bool, clears: bool) returns (back: bool)
      requires Traced() && st.launcher.Idle? && st.server.None?
      modifies this
      ensures Traced() && st.launcher.Idle? && st.server.None?
      ensures back <==> moves && old(st).guard.Some? && w.versionOf(old(st).current) == old(st).guard.value.version
      ensures back ==> old(st).guard.value.id in st.back && st.current == old(st).guard.value.previous
      ensures st.guard == if back && clears then None else old(st).guard
      ensures !back ==> st.current == old(st).current && st.back == old(st).back
    {
      Do(LaunchReads);
      if st.launcher.Idle? { return false; }
      ConfirmLooks(first);
      Do(LaunchMoves(moves));
      if !moves { return false; }
      ConfirmLooks(second);
      Do(LaunchClears(clears));
      back := true;
    }
  }
}
