# Maktaba, modelled and proved in Dafny

Maktaba is a home media server: a Go API, a streaming service, a launcher that keeps the server
running and goes back from a bad release, and nodes that follow a home. This project models the
parts of it that several writers share, that depend on a clock, or that can be cut short at any
step, and proves what they promise.

Each module is one component.

| module | models |
|---|---|
| `VodGate` | VOD's share of the hardware encoder sessions: any number of interleaved `AcquireN` calls, releases, budget syncs and the live TV slot |
| `BundleGuard` | which payload an app bundle's launcher starts, its rollback, and the files they go by |
| `Releases` | the release pointers: switch, rollback, repair after a power cut, and the choice of what to start |
| `LaunchWindows` | the boot-loop guard, the pending deadline and the can't-start cut-off |
| `ImageSwitch` | a newer container image's switch: bootstrap, launcher and confirm over shared files |
| `Materialize` | a kept release's tree copied over the app's bundle, restartable |
| `LogDisk`, `LogFile`, `FollowLog` | the rotating log, its accounting, and the follower that copies it |
| `DbWatch` | the database watch and who waits for it |
| `Background` | the goroutines of a process and their bounded stop |
| `LinkRequire` | the cluster link's day-long hold before it is required |
| `HomeClock` | the home's clock as a node measures it, and which reads its copy may answer |
| `VodSweep` | the sweep of the VOD session folders |
| `Text`, `UpStatements` | the migration reader |
| `Migrations` | the SQLite migration applier |
| `Decimal`, `StopRules` | the load test's stop rules |
| `Sums` | sums over callers |

Concurrent components are state machines: a datatype for the shared state, an action for each
access to it, and lemmas over every run. Beside each is a class whose methods take those steps in
the source's order, with steps of the others (parameters named `env`, `acts` or the like) between
them. Methods of imperative components are proved against a function of the old state, and that
function has lemmas of its own. Clocks, disks, databases and the network answer through parameters.

Several promises turned out to hold only under a condition. Each has a lemma with an input or a
family of states where it fails, and a theorem with the condition:

- VOD's caps are promised for every cap. Re-checked by two separate reads of `held` a trim can be negative, and then
  the documented bound holds in every run exactly when the cap is under 6 (`VodGate.WithinCapIff`,
  `VodGate.HalfTheCapIff`; the failing runs: `VodGate.TwoReadsBreakTheCap`); with a larger cap it holds as long as no
  trim is negative (`VodGate.SessionsWithinCap`).
- The log's follower misses what a file renamed aside before it had it open holds (`FollowLog.UnseenFileIsLost`), and
  copies again what a file holds that a failed stat made it close and it opened again (`FollowLog.FailedStatRepeats`).
  It has everything once exactly when neither is a byte (`FollowLog.CompleteIff`, `FollowLog.FollowsTheLog`). A first
  open that fails makes it repeat what the log held before (`FollowLog.OldIsNotRepeatedIff`).
- A rollback whose guard file does not come off starts the failed release again
  (`BundleGuard.StuckGuardStartsTheFailed`; exactly when: `BundleGuard.StartAfterRollback`), and two looks at the
  payload can disagree when the override's removal fails (`BundleGuard.TwoLooksDisagreeIff`).
- A release switch cut by a power cut is safe for the release that runs, but can lose what it falls back to or, over
  a pending release, its marker (`Releases.CutSwitchKeepsThePreviousIff`, `Releases.CutSwitchKeepsTheMarkerIff`,
  `Releases.CutSwitchStartsTheSameIff`).
- A container restarted before its confirm looked forgets a refusal (`ImageSwitch.RestartForgetsTheRefusal`,
  `ImageSwitch.SwitchedAgainIff`); a guard cleared later than its probe, or a version built twice, can keep a switch
  that was gone back from (`ImageSwitch.AnyTimeExclusiveIff`, `ImageSwitch.ExclusiveIffOneBuild`).
- `link_since` survives a break that a failed row update or a grace under the mark's 10 s limit hides
  (`LinkRequire.FailedClearRequiresTheDown`, `LinkRequire.PromisedIff`), and a mark of an older run counts for a
  machine with no session in this one (`LinkRequire.OldMarkCounts`).
- The load test's comment promises "any drop, for 2 minutes". The code names a drop by its count, so only
  one unchanging count is ever held (`StopRules.DropHeldIffSameCount`, `StopRules.ChangingDropsNeverHeld`).
- A migration run that fails or is cut is made good by the next, whatever the runs were, exactly when no two pending
  files are of one slot and each is in a transaction or has nothing to execute (`Migrations.MadeGoodIff`,
  `Migrations.FirstStatementTwice`, `Migrations.SecondNotOnRecord`).
- A node's copy answers reads no staler than the rule's lag, the 2 s of a verdict and the clock's error, once the
  home's clock was measured or kept; before that nothing bounds it (`HomeClock.ReadsAreNewOnceMeasured`,
  `HomeClock.BoundedIffKnown`).

`dafny verify dfyconfig.toml` checks everything.

## Model

| member | source | states |
|---|---|---|
| VodGate.StepKeepsLedger | streaming/vod_gate.go:114-181 | each step of a call, a release, a sync or the slot keeps `held` equal to what the calls in flight reserved plus what was handed out and not released |
| VodGate.HeldIsReservedPlusOut | streaming/vod_gate.go:94-103 | in every reachable state the ledger holds and `held` is never negative, through failed syncs, trims, gate refusals and repeated releases |
| VodGate.WithinCapIff | streaming/vod_gate.go:73-94 | the documented bound: with one cap and TV slots on, VOD's committed sessions and the live slot's stay within the cap in every run if and only if the cap is under 6 |
| VodGate.HalfTheCapIff | streaming/vod_gate.go:127-143 | TV slots on or off, `held` stays within half of one cap in every run if and only if the cap is under 6 |
| VodGate.SessionsWithinCap | streaming/vod_gate.go:73-94 | with one cap, TV slots on and no trim negative: committed VOD sessions plus the live slot's stay within the cap, `held` within its half, and budget plus `held` is exactly the cap |
| VodGate.HeldWithinHalfTheCap | streaming/vod_gate.go:127-143 | with TV slots on or off, `held` stays within half of a fixed cap |
| VodGate.ReservationTakesTheRoom | streaming/vod_gate.go:127-143 | a reservation takes as many sessions as the call asks for and half the cap and the need it read leave, no fewer, and is refused only if that is none; with no cap it takes them all |
| VodGate.SlotBudgetIs | streaming/vod_gate.go:81-84 | the slots' budget is what the cap leaves beside VOD, at least 1, and none without a cap |
| VodGate.SyncGivesBack | streaming/vod_gate.go:147-150 | a sync that fails or is given up gives the call's sessions back |
| VodGate.OneSampleIsGuarded | streaming/vod_gate.go:152-161 | re-checked as one sample, the trim is more than nothing and brings the sum to the limit or takes all |
| VodGate.HeldRisesOnlyByNegativeTrim | streaming/vod_gate.go:162-163 | outside a reservation `held` rises only by a trim whose second read was under the limit |
| VodGate.TwoReadsBreakTheCap | streaming/vod_gate.go:152-162 | for every cap of 6 or more, a run of the two-read re-check that ends over the cap |
| VodGate.TwoReadsBreakTheHalf | streaming/vod_gate.go:152-162 | and one that ends with `held` over half of it |
| VodGate.World.AcquireN | streaming/vod_gate.go:114-181 | one call, others interleaved at each pause: of the room it read under the lock, less what the re-check took off, it hands out as many as the gate had before it refused one; nothing when there was no room, the slots were not ready, or its sync or re-check left nothing; all it asks for with no cap, and all it reserved when its sync was answered in time with room for them; with TV slots on and a cap it never takes a session without its sync |
| VodGate.SyncIsAnswered | streaming/internal/frontdoor/slots.go:474-480 | a sync the slots serve is answered, with the live slot's sessions and its budget less what VOD holds |
| VodGate.World.SyncAndCheck | streaming/vod_gate.go:145-162 | the sync and the re-check end with the reservation less what was taken off, or with nothing |
| VodGate.World.TakeFromGate | streaming/vod_gate.go:163-181 | stops at the gate's first refusal or the whole reservation, hands out an unreleased func for each session and gives the rest back |
| BundleGuard.Launcher.BundlePayload | cmd/maktaba-launcher/run.go:361-395 | runs the payload that guard, override, failed record and app version call for, and changes the files no further |
| BundleGuard.Launcher.AppSupersedes | cmd/maktaba-launcher/run.go:397-416 | the app takes over exactly when it is newer than the copy, not the failed release, and the override came off |
| BundleGuard.Launcher.Rollback | cmd/maktaba-launcher/run.go:446-482 | the files after the guard fires, for every way its writes can fail |
| BundleGuard.Launcher.Start | cmd/maktaba-launcher/run.go:512-551 | a start is pending exactly when the guard is on the payload started, unless two looks disagree |
| BundleGuard.OwnUnlessOverridden | cmd/maktaba-launcher/run.go:368-377 | with no override, or the guard trying the app's release, the app's own payload runs and no file changes |
| BundleGuard.OverriddenRuns | cmd/maktaba-launcher/run.go:378-416 | otherwise which payload runs and which files change, for a newer app, each way the removal ends and a copy with no server |
| BundleGuard.NoGuardNoLook | cmd/maktaba-launcher/run.go:434-444 | without a guard no release is pending and nothing is looked at |
| BundleGuard.FailedRollbackLeaves | cmd/maktaba-launcher/run.go:466-472 | what a rollback whose write failed leaves |
| BundleGuard.TwoLooksDisagreeIff | cmd/maktaba-launcher/run.go:368-395 | two looks in a row disagree exactly when an override's removal failed at the first and is off at the second |
| BundleGuard.RollbackIff | cmd/maktaba-launcher/run.go:450-482 | exactly when a rollback succeeds, and the files it leaves |
| BundleGuard.CopyRunsUntilAppIsCalled | cmd/maktaba-launcher/run.go:361-395 | under an override every look, start and rollback tried finds the kept copy and changes no file until a guard names the app's version, a newer app that did not fail appears, or the guard fires on the copy itself; a start is pending exactly when the guard names the copy |
| BundleGuard.RolledBackStaysBack | cmd/maktaba-launcher/run.go:446-482 | so it is from any rollback that went back and whose guard came off |
| BundleGuard.AppRunsWhenCalled | cmd/maktaba-launcher/run.go:369-377 | exactly when the app's own payload runs over an override |
| BundleGuard.EventsInTurn | cmd/maktaba-launcher/run.go:361-482 | what each event of such a run does |
| BundleGuard.StartAfterRollback | cmd/maktaba-launcher/run.go:469-480 | the start after a successful rollback runs the copy exactly when the guard came off or was not on the app's version, and no newer app takes over |
| BundleGuard.StuckGuardStartsTheFailed | cmd/maktaba-launcher/run.go:479 | with the guard's removal failed, the failed release starts again |
| BundleGuard.FailedReleaseStaysOut | shared/go/layout/guard.go:97-110 | the failed release never comes back by itself |
| BundleGuard.UnrecordedOverrideStays | cmd/maktaba-launcher/run.go:397-406 | an override with no failed record is never taken off |
| Releases.Install.Switch | shared/go/layout/layout.go:293-328 | the pointers after a switch, or after as many of its writes as were made |
| Releases.Install.Rollback | shared/go/layout/layout.go:330-346 | the release before is current and the marker off, or nothing changed when there is none |
| Releases.Install.Reconcile | shared/go/layout/layout.go:348-365 | a marker that is not the current release's is dropped, and no other |
| Releases.Install.Choose | cmd/maktaba-launcher/run.go:261-294 | only a release that validates is started: current, the one a refused pending release goes back to, or previous |
| Releases.FirstValidIsStarted | cmd/maktaba-launcher/run.go:261-294 | the first release that validates is started, of the current one, what a pending one is gone back to, and the one before |
| Releases.SwitchNotesWhatRan | shared/go/layout/layout.go:293-328 | a switch notes what ran in the marker and as the release before, and goes back to just that |
| Releases.GoesBackTo | shared/go/layout/layout.go:330-340 | a rollback goes to what the marker says ran, else to the release before |
| Releases.CutSwitchIsAllOrNothing | shared/go/layout/layout.go:296-303 | a switch cut anywhere and repaired, from a marked install too: the old release, with its marker if the cut came before the new one was written, or the new one marked with a way back |
| Releases.CutRollbackIsAllOrNothing | shared/go/layout/layout.go:348-351 | a rollback cut anywhere and repaired: the pending release marked, or the one before it unmarked |
| Releases.WholeRollback | shared/go/layout/layout.go:330-346 | and what one that is not cut leaves |
| Releases.SwitchAndBack | shared/go/layout/layout.go:293-346 | going back from a switch runs what ran before it |
| Releases.AlwaysAtRest | shared/go/layout/layout.go:293-365 | over any switches, rollbacks and confirmations, cut anywhere, a marker is the current release's and leads back to another |
| Releases.OpsInTurn | shared/go/layout/layout.go:281-346 | what each of those operations does, uncut |
| Releases.CutSwitchKeepsThePreviousIff | shared/go/layout/layout.go:297-301 | exactly when a switch cut before its last write leaves `previous` as it was |
| Releases.CutSwitchChangesNothingIff | shared/go/layout/layout.go:296-303 | exactly when it leaves the install as if it had not begun |
| Releases.CutSwitchStartsTheSameIff | cmd/maktaba-launcher/run.go:261-294 | exactly when the launcher then starts what it would have started |
| Releases.UnmarkedCutSwitchStartsTheSameIff | cmd/maktaba-launcher/run.go:261-294 | the same for an install with no marker, in what its files say |
| Releases.CutSwitchKeepsTheMarkerIff | shared/go/layout/layout.go:298-302 | exactly when it leaves a pending release its marker: the cut came before the new marker |
| LaunchWindows.Launcher.Turn | cmd/maktaba-launcher/run.go:165-242 | a turn of the loop, a refused pending release's rollback included, on pruned lists, does what the whole unpruned history calls for |
| LaunchWindows.Launcher.NoteFailure | cmd/maktaba-launcher/run.go:210-221 | fires exactly when the exits since the last reset inside the window, counted in the history, reach LoopMax |
| LaunchWindows.Launcher.EarlyExit | cmd/maktaba-launcher/cantstart.go:61-82 | cuts exactly when the unstable exits since the last stable run inside the window reach the limit |
| LaunchWindows.Launcher.NoteStart | cmd/maktaba-launcher/run.go:512-519 | a start of another version forgets the exits and takes its time as the first start, one not pending forgets both, one of the same version keeps them |
| LaunchWindows.Launcher.Watch | cmd/maktaba-launcher/run.go:591-614 | a run is given up exactly at a tick past its deadline |
| LaunchWindows.PrunedAgain | cmd/maktaba-launcher/run.go:211-220 | pruning what was pruned before is pruning the whole history |
| LaunchWindows.LoopCountIs | cmd/maktaba-launcher/run.go:210-221 | on the history alone: the guard's count at an exit is the number of exits noted since the last rollback, start not pending or start of another release, inside the window |
| LaunchWindows.EarlyCountIs | cmd/maktaba-launcher/cantstart.go:61-82 | the cut-off's is that of the early exits since the last stable run or choice |
| LaunchWindows.CountsFromSomewhere | cmd/maktaba-launcher/run.go:512-519 | every history has one place each is counted from |
| LaunchWindows.TurnNotesExactly | cmd/maktaba-launcher/run.go:165-242 | which events a turn adds: the start, a rollback for each reason, a pending release's exit, an early or stable one, the cut-off and its choice, each exactly when |
| LaunchWindows.GuardsFireExactly | cmd/maktaba-launcher/run.go:205-242 | over every life of the launcher, boot-loop rollbacks and cut-offs come right after the exits that make their counts, and after no others |
| LaunchWindows.CountsStayUnder | cmd/maktaba-launcher/run.go:221-226 | between turns the count is under LoopMax |
| LaunchWindows.GivenUpIff | cmd/maktaba-launcher/run.go:307-321 | a release is given up exactly when a tick finds it pending at or past its first start plus the timeout and the deadline set for it; its first start is the event that started the count over |
| LaunchWindows.RestartsKeepTheFirstStart | cmd/maktaba-launcher/run.go:191-202 | exits 75 neither reset the first start nor the count |
| LaunchWindows.QuickRestartsNeverFire | cmd/maktaba-launcher/run.go:591-614 | a release that exits 75 before each tick is never given up |
| ImageSwitch.PlanNeverGoesBack | cmd/maktaba-server/cmd_container.go:164-177 | exactly when an image's payload is a first, a newer or an older one; newer is never older than what the volume has or ever ran |
| ImageSwitch.KeptOrGoneBack | cmd/maktaba-server/cmd_container.go:259-307 | no switch is both kept and gone back from, the watermark is raised only for kept ones, and a confirm ends as its switch did |
| ImageSwitch.GoneBackIsRefused | cmd/maktaba-server/cmd_container.go:272-284 | once the launcher went back and cleared the guard: nothing is kept, watermark and `current` stay, and the refused file names the version exactly once the confirm looked and could write |
| ImageSwitch.KeptOnlySettled | cmd/maktaba-server/cmd_container.go:285-294 | a switch is kept only after every probe since one at least settle before matched |
| ImageSwitch.WatermarkMovesOnlyWhenKept | cmd/maktaba-server/internal/appruntime/activate.go:163-176 | only keeping a switch moves the watermark, and it never falls |
| ImageSwitch.RefusedIsNotTried | cmd/maktaba-server/cmd_container.go:204-206 | a refused version is not switched to |
| ImageSwitch.SwitchIsGuarded | cmd/maktaba-server/cmd_container.go:232-257 | a switch writes a guard back to what ran, moves to no older version, and leaves watermark and refusal |
| ImageSwitch.FailedSwitchLeaves | cmd/maktaba-server/cmd_container.go:232-257 | a switch that fails leaves `current` and is not watched; a guard stays only after a cut between its two writes |
| ImageSwitch.RestartWatchesOn | cmd/maktaba-server/cmd_container.go:223-228 | a container started again with a guard there watches that one on and changes nothing |
| ImageSwitch.RestartsKeepTheGuard | cmd/maktaba-server/cmd_container.go:223-228 | started from the same image any number of times before it settles, the switch is still guarded and watched |
| ImageSwitch.RestartedCanBeKept | cmd/maktaba-server/cmd_container.go:259-307 | from any run: a guarded switch whose version `current` has, the container started again, is kept once its version answered for the settle time, with the watermark at its version |
| ImageSwitch.RaisedToTheNewest | cmd/maktaba-server/internal/appruntime/activate.go:163-176 | a raised watermark is the newer of the two versions |
| ImageSwitch.LauncherGoesBack | cmd/maktaba-launcher/run.go:450-480 | from a guarded release that ended: `current`, then the guard, as each write works |
| ImageSwitch.LauncherGoesBackOnlyFromTheGuarded | cmd/maktaba-launcher/run.go:434-448 | and from no other release, nor while its server runs |
| ImageSwitch.ConfirmFindsTheGuardGone | cmd/maktaba-server/cmd_container.go:272-284 | a confirm whose guard is gone ends, refusing exactly when `current` is back on the release before |
| ImageSwitch.StuckClearIsTriedAgain | cmd/maktaba-server/cmd_container.go:295-298 | a switch is kept only once its guard came off |
| ImageSwitch.KeptSwitchEnds | cmd/maktaba-server/cmd_container.go:299-306 | a kept switch raises the watermark and forgets a refusal, each as its write works |
| ImageSwitch.RefusalIsRecorded | cmd/maktaba-server/cmd_container.go:324-329 | in every such run a confirm that ended, no write of the refusal failed, has recorded the version |
| ImageSwitch.SwitchedAgainIff | cmd/maktaba-server/cmd_container.go:204-213 | the container's next start switches to that image again exactly when the confirm had not looked, or could not write |
| ImageSwitch.LateClearKeepsWhatWentBack | cmd/maktaba-server/cmd_container.go:285-299 | on any volume that switches, a run from the start in which a clear that comes late keeps what went back |
| ImageSwitch.AnyTimeExclusiveIff | cmd/maktaba-server/cmd_container.go:285-299 | whenever the clears come, kept and gone back from exclude each other in every run from a volume if and only if no image is switched to |
| ImageSwitch.SecondBuildIsKeptToo | cmd/maktaba-server/cmd_container.go:285-299 | with one version built twice, whatever the settle, a run from the start in which a stuck guard is kept on the old build |
| ImageSwitch.ExclusiveIffOneBuild | cmd/maktaba-server/cmd_container.go:259-263 | with each clear right after its probe, kept and gone back from exclude each other in every run if and only if no version is built twice |
| ImageSwitch.RestartForgetsTheRefusal | cmd/maktaba-server/cmd_container.go:223-228 | on any volume that switches, a run from the start after which the image gone back from is switched to once more |
| ImageSwitch.Volume.Bootstrap | cmd/maktaba-server/cmd_container.go:179-230 | the volume and the guard to watch after a start: that of its own switch, or the one an earlier start left |
| ImageSwitch.Volume.SwitchNewer | cmd/maktaba-server/cmd_container.go:232-257 | the guard is written before `current` moves; a switch that fails or is cut leaves nothing to watch |
| ImageSwitch.Volume.KeepOrRefuse | cmd/maktaba-server/cmd_container.go:264-307 | the confirm loop keeps only settled switches that were not gone back from, refuses only those that were, and at the turn it ended leaves the refused file naming the version, cleared, or as it was when that turn could not write it |
| ImageSwitch.Volume.GoBack | cmd/maktaba-launcher/run.go:456-480 | the launcher's rollback: `current` back, then the guard off, the confirm's steps between them |
| Materialize.Bundle.Materialize | cmd/maktaba-launcher/materialize.go:26-83 | on success the bundle is exactly the kept release's tree but for what lasts; cut anywhere, the same tree is still to be reached; an unhindered run comes through exactly when no kind of node clashes |
| Materialize.Bundle.Restarted | cmd/maktaba-launcher/materialize.go:26-30 | however often it is cut, the run that comes through leaves what one run would, and an unhindered one comes through |
| Materialize.Bundle.CopyInto | cmd/maktaba-launcher/materialize.go:85-115 | a file is replaced whole or not at all; a cut leaves something only beside it |
| Materialize.Bundle.CopyAll | cmd/maktaba-launcher/materialize.go:34-60 | the walk places every kept directory and regular file and touches nothing that lasts |
| Materialize.Bundle.RemoveExtras | cmd/maktaba-launcher/materialize.go:61-82 | exactly what is in nothing wanted goes |
| Materialize.FilesAreTheKeptOnes | cmd/maktaba-launcher/materialize.go:26-29 | the bundle's regular files are the kept copy's, the marker and the launcher aside |
| Materialize.LauncherStays | cmd/maktaba-launcher/materialize.go:53-54 | the running launcher stays exactly when the directories on its way are the kept release's |
| Materialize.OldLauncherStays | cmd/maktaba-launcher/materialize.go:63-75 | so does the launcher it replaced, unless the kept release has a file of that name |
| Materialize.NoTmpLeft | cmd/maktaba-launcher/materialize.go:96 | no copy cut short is left beside a file |
| Materialize.DoneTwiceIsDoneOnce | cmd/maktaba-launcher/materialize.go:28-29 | done once more it changes nothing |
| LogFile.Log.constructor | cmd/maktaba-launcher/logfile.go:64-79 | an over-long log is renamed aside and nothing of it is lost |
| LogFile.Log.Write | cmd/maktaba-launcher/logfile.go:95-130 | what is written is in the file whole after the note of what was lost before it, or is counted as lost; one rename at most; the size bound |
| LogFile.Log.WriteAll | cmd/maktaba-launcher/logfile.go:46-62 | over any writes: each call is in the log whole, after the note of what was lost before it, or lost; the log grew by just that, in order; and the bytes given are those of the whole calls, those the notes named and those pending |
| LogFile.Log.Rotate | cmd/maktaba-launcher/logfile.go:117-125 | a rotation loses no byte of the stream and empties the file when its rename works |
| LogFile.Log.Retry | cmd/maktaba-launcher/logfile.go:105-116 | after the wait the note names exactly what was lost |
| LogDisk.StreamGrows | cmd/maktaba-launcher/logfile.go:117-125 | of all operations on the path only an append changes the stream of bytes |
| FollowLog.NoRepeatNoReorder | cmd/maktaba-server/cmd_container.go:484-535 | in every run, failed opens and stats included, what was copied is readings of the files in order, each from its start, and the bytes read more than once are just those an open found again or a rewind went back over |
| FollowLog.FollowsTheLog | cmd/maktaba-server/cmd_container.go:484-535 | with at most one rotation between two polls, what was copied is a prefix of what was appended while nothing is read again, and a copy of the newest file completes it if and only if nothing was |
| FollowLog.RotationIsNoticed | cmd/maktaba-server/cmd_container.go:512-529 | a look at a path that names another file, or none, copies what the old one got since, closes it and opens the one the path names at its start; at one that names the file copied it goes on |
| FollowLog.UndisturbedHasAll | cmd/maktaba-server/cmd_container.go:503-535 | whatever went before, a follower nothing disturbs has all there is after at most 9 steps, two polls: copied and missed bytes make the log's and those read again |
| FollowLog.CompleteIff | cmd/maktaba-server/cmd_container.go:503-535 | without that pace: copied and missed bytes make the log's and those read again; a copy is complete exactly when nothing was missed, if nothing was read again, and the other way round |
| FollowLog.WorkingStatsRepeatNothing | cmd/maktaba-server/cmd_container.go:512-522 | while every stat works, nothing is read again |
| FollowLog.FailedStatRepeats | cmd/maktaba-server/cmd_container.go:515-522 | one failed stat of a log open at its end: a run that copies all of it again |
| FollowLog.OldIsNotRepeatedIff | cmd/maktaba-server/cmd_container.go:479-483 | exactly when nothing the log held before is copied, in the runs that read nothing again: the first open worked, or there was no log, or it was empty |
| FollowLog.OldIsRepeated | cmd/maktaba-server/cmd_container.go:491-508 | a first open that fails on a log that holds something: a run that copies all of it |
| FollowLog.UnseenFileIsLost | cmd/maktaba-server/cmd_container.go:504-507 | a run that loses a file renamed before it was opened |
| FollowLog.Tail.Follow | cmd/maktaba-server/cmd_container.go:503-535 | the loop, the writer at work between its steps, opens and stats failing at will: every file it has open is copied to its end, with nothing missed or read again all but a file it has not opened yet, and everything when nothing disturbed its last poll |
| DbWatch.NoLostWakeUp | streaming/offline.go:40-70 | a waiter blocked while the database answers has its channel closed, or a set about to close it |
| DbWatch.EveryWaiterReturns | streaming/offline.go:108-124 | and it then returns |
| DbWatch.ReturnsOnlyWhenUp | streaming/offline.go:112-117 | wait returns nil exactly by reading down false |
| DbWatch.OtherOrderStrands | streaming/offline.go:108-111 | read the other way round, a run strands a waiter |
| DbWatch.StrandedStays | streaming/offline.go:108-111 | and it stays so while the database stays up |
| DbWatch.InOrderNeverStrands | streaming/offline.go:108-111 | in the source's order none is stranded |
| DbWatch.CancelEndsTheWait | streaming/offline.go:118-121 | a blocked waiter whose context ends is done |
| DbWatch.Watch.Set | streaming/offline.go:40-60 | a set that brings the database back swaps down, then closes the channel; any other only swaps |
| DbWatch.Watch.Wait | streaming/offline.go:112-124 | the wait loop: true exactly when it returned by reading down false, at once when the database answers and nobody disturbs it; otherwise it was at its channel once each turn |
| Background.NoGoAfterTheEnd | streaming/lifecycle.go:33-47 | once the context has ended no Go adds a goroutine |
| Background.HookRunsAtMostOnce | streaming/lifecycle.go:49-65 | no hook runs twice, however many stops there are |
| Background.StopAnswersTruly | streaming/lifecycle.go:57-82 | a stop that answers true: no goroutine runs, and each hook it took ran once and finished; the first takes all registered before it |
| Background.NothingRunsAfterTrue | streaming/lifecycle.go:57-59 | after it nothing runs, whatever is called |
| Background.LateHookWaits | streaming/lifecycle.go:51-65 | a hook registered after the last stop has not run |
| Background.Shared.Start | streaming/lifecycle.go:35-47 | Go adds its goroutine exactly when the context has not ended |
| Background.Shared.Stop | streaming/lifecycle.go:60-82 | Stop answers true exactly when its hooks and every goroutine had finished by one of the others' turns before its timer, and what its answer then says of the state |
| LinkRequire.RequiredOnlyWhenHeld | api/cluster_link.go:397-425 | when the mode switches, every approved machine's mark is a day old, and since its first session of this run no spell down that ended after the mark, or goes on, was longer than the longest grace and one sweep |
| LinkRequire.PromisedIff | api/cluster_link.go:353-425 | with one grace and sweeps that work, that holds in every run if and only if the grace is no shorter than a mark's 10 s limit |
| LinkRequire.StepKeepsSound | api/cluster_link.go:353-386 | sessions, marks, sweeps and ticks keep every long spell before the mark |
| LinkRequire.OnlyTheseSwitch | api/cluster_link.go:397-408 | only autoRequire on ready machines, or an admin, changes the mode |
| LinkRequire.SwitchesIff | api/cluster_link.go:397-425 | exactly when autoRequire switches: the link preferred and allowed to be required, some machine approved, each approved one's mark 24 hours old, the rule written |
| LinkRequire.RulesAreTaken | api/cluster_link.go:157-167 | the mode, the permission and the grace are as last read |
| LinkRequire.ApprovalsAreTaken | api/cluster_link.go:420-425 | an approval given or taken back is taken |
| LinkRequire.SessionsAreNoted | api/cluster_link.go:353-366 | what a session that came or went changes of a machine |
| LinkRequire.EverySpellIsNoted | api/cluster_link.go:353-366 | in every run each spell between two sessions is among those the promise speaks of |
| LinkRequire.MarkLasts | api/cluster_link.go:353-366 | a mark stays in every run while the session lasts |
| LinkRequire.ShortDropIsNoBreak | api/cluster_link.go:351-380 | and a sweep leaves one down no longer than the grace |
| LinkRequire.OldMarkCounts | api/cluster_link.go:420-425 | a machine with no session in this run keeps an older mark |
| LinkRequire.FirstSessionKeepsTheOldMark | api/cluster_link.go:363-365 | and its first session keeps it |
| LinkRequire.ShortGraceMarksTheDown | api/cluster_link.go:353-366 | with any shorter grace, a run from the start, every sweep working, that requires the link of a machine down for more than a day |
| LinkRequire.LateMarkForgetsTheBreak | api/cluster_link.go:363-365 | a mark that comes after the sweep stays in every run without a session of the machine |
| LinkRequire.FailedClearForgetsTheBreak | api/cluster_link.go:380-385 | a row that could not be cleared keeps its mark in every run without a session of the machine, and counts as ready once it is a day old |
| LinkRequire.FailedClearRequiresTheDown | api/cluster_link.go:368-425 | with any grace, a run from the start with one failed clear that requires the link of a machine down for more than a day |
| LinkRequire.MarkIsASession | api/cluster_link.go:353-366 | a new mark is of a session of this run, at most 10 s old |
| LinkRequire.Home.OnSession | api/cluster_link.go:353-366 | the down map after a session came or went |
| LinkRequire.Home.RefreshRules | api/cluster_link.go:157-167 | the rules after a refresh, and nothing else changed |
| LinkRequire.Home.ClearBroken | api/cluster_link.go:368-386 | the rows and the down map after a sweep |
| LinkRequire.Home.LinkReady | api/cluster_link.go:420-425 | the two counts are equal exactly when all approved machines are ready |
| LinkRequire.Home.SwitchToRequire | api/cluster_link.go:397-410 | the mode switches exactly when every approved machine held its link |
| HomeClock.MeasureWithin | api/node_clock.go:79-86 | the stored offset is within half the call, rounded up, of the true one |
| HomeClock.MeasureTight | api/node_clock.go:79-86 | and within no less |
| HomeClock.VerdictAsGoodAsOffset | api/node_bootstrap.go:733-736 | a fresh verdict bounds the copy's lag by the limit and e exactly when the offset is at most e short |
| HomeClock.LookMeasures | api/node_bootstrap.go:722-736 | a look that makes a verdict, with a copy and a home that answers, measures the home's clock unless that was done in the last 30 s, and judges with that |
| HomeClock.VerdictLasts | api/node_bootstrap.go:718-722 | a verdict is taken for 2 s and then made anew |
| HomeClock.Clock.Measure | api/node_clock.go:69-90 | a due measure stores an offset within its error; another changes nothing |
| HomeClock.Clock.KeepAt | api/node_clock.go:35-48 | a kept offset is taken until one is measured |
| HomeClock.Copy.CopyFresh | api/node_bootstrap.go:713-747 | the verdict, cached or read anew with the offset of the look's own measure, and what it proves of the copy |
| HomeClock.Copy.CopyMayRead | api/node_bootstrap.go:683-691 | while the home is away every read and no look; while it answers the reads of an allowing verdict, which see every home change older than that look's limit, copyFreshEvery and half its measure's call |
| HomeClock.ReadsAreNew | api/node_bootstrap.go:662-691 | so does each of any number of reads, the copy following the home meanwhile, by a limit and an error of looks that were made |
| HomeClock.ReadsAreNewOnceMeasured | api/node_bootstrap.go:662-736 | in particular every read after the first visit that was to make a verdict with a home that answered |
| HomeClock.BoundedIffKnown | api/node_bootstrap.go:733-736 | a verdict bounds anything exactly when its offset was measured or kept; then by the limit and the offset's error |
| HomeClock.ManyReads | api/node_bootstrap.go:662-681 | which reads go to the copy, and what is then known, over any number of requests |
| VodSweep.Sweeper.PurgeSessions | streaming/vod_purge.go:112-181 | the sweep's trace: what is due, then the kept ones in a sorted order while the disk is under its floor |
| VodSweep.Judge | streaming/vod_purge.go:133-164 | when a folder goes at once, for each reason, and when it is kept for its grace |
| VodSweep.SweepTries | streaming/vod_purge.go:97-111 | every due folder is tried once for its reason, of the kept ones a prefix by last watched, and some are left only when the last reading had enough |
| VodSweep.GracedGoOnlyUnderFloor | streaming/vod_purge.go:168-180 | a graced folder is tried only with the disk last read under its floor |
| VodSweep.ShortestPrefix | streaming/vod_purge.go:172-180 | with no failed removal, the kept ones removed are the shortest prefix after which the disk has enough |
| VodSweep.NeverTouched | streaming/vod_purge.go:105-111 | open sessions' folders, those just changed, unanswered for or no session's are never tried |
| VodSweep.DueAreTried | streaming/vod_purge.go:133-164 | every due folder is among those tried for their reason |
| VodSweep.GracedAreKept | streaming/vod_purge.go:146-156 | every graced folder is among the kept ones, with the time it was last watched |
| VodSweep.IdleIsKeptForItsGrace | streaming/vod_purge.go:90-95 | an idle session's folder is kept 10 minutes after it was closed or last fetched from, whichever is later, 4 hours if it was finished |
| VodSweep.ConfiguredFloor | streaming/vod_purge.go:51-75 | a configured floor is so many GiB, one below 0 none |
| VodSweep.AutomaticFloor | streaming/vod_purge.go:36-43 | the automatic floor's bounds |
| VodSweep.SortByWatched | streaming/vod_purge.go:172 | sorted, and a permutation |
| UpStatements.Read | api/migrate_sqlite.go:88-125 | the loop over buffer and flags gives the statements of the file |
| UpStatements.HasCodeOf | api/migrate_sqlite.go:127-134 | some line is neither blank nor a comment |
| UpStatements.RoundTrip | api/migrate_sqlite.go:88-125 | printed statements, in a block or ending themselves, read back as they were |
| UpStatements.StatementsAreClean | api/migrate_sqlite.go:94-125 | every statement read is trimmed, has code and holds no directive line |
| UpStatements.ReadingIsStable | api/migrate_sqlite.go:88-125 | reading, printing and reading again changes nothing |
| UpStatements.NothingBeforeUp | api/migrate_sqlite.go:103-109 | lines before the Up directive count for nothing |
| UpStatements.NothingAfterDown | api/migrate_sqlite.go:106-108 | nor do those after Down |
| UpStatements.WindowsLineEnds | api/migrate_sqlite.go:101 | CRLF line ends give the same statements |
| UpStatements.LineKinds | api/migrate_sqlite.go:100-123 | which lines are which directive, and which end a statement: by a semicolon, and never a comment |
| UpStatements.BlocksAreOneStatement | api/migrate_sqlite.go:110-114 | a block starts over and is one statement, whatever its lines end with |
| UpStatements.LineEndsAStatement | api/migrate_sqlite.go:116-121 | outside a block lines are gathered until one that ends a statement |
| UpStatements.CommentsAreNoCode | api/migrate_sqlite.go:127-134 | a text of blank lines and comments alone is no statement, any other is |
| Text.SpacesAre | api/migrate_sqlite.go:102 | the white space trimmed |
| Text.SplitOfJoin | api/migrate_sqlite.go:95-101 | splitting joined lines gives them back |
| Text.JoinOfSplit | api/migrate_sqlite.go:95-101 | and joining split ones |
| Migrations.Database.ApplyOne | api/migrate_sqlite.go:250-284 | by how far its steps went: a migration is applied and on record, or in a transaction leaves nothing, or outside one leaves the statements executed until then |
| Migrations.Database.ApplyAll | api/migrate_sqlite.go:217-248 | a run applies the first of the pending ones in order, as many as its steps allow, and what it leaves of the next |
| Migrations.Database.Restarted | api/migrate_sqlite.go:217-248 | runs until one goes through: the statements executed and the rows are those of each run's pending files in turn |
| Migrations.MadeGoodIff | api/migrate_sqlite.go:217-284 | every sequence of runs that ends well leaves the rows and statements of one run if and only if no two pending files are of one slot and each is in a transaction or has no statements |
| Migrations.OnceIff | api/migrate_sqlite.go:256-274 | with one pending file of a slot the rows are one run's, and the statements exactly when no run executed some of a file it did not get on record |
| Migrations.FirstStatementTwice | api/migrate_sqlite.go:256-274 | a file in no transaction, cut after its first statement: the next run executes that statement again |
| Migrations.SecondNotOnRecord | api/migrate_sqlite.go:238-241 | two pending files of one slot, cut between them: the second never gets on record |
| Migrations.TodoAfterSomeIff | api/migrate_sqlite.go:199-215 | cut after any number of files, the next run takes up exactly the rest if and only if none of it is of a slot already done |
| Migrations.CutAnywhereIff | api/migrate_sqlite.go:217-248 | after a cut between any files the next run takes up exactly the rest, if and only if no two pending files are of one slot |
| Migrations.SecondOfASlotIsSkipped | api/migrate_sqlite.go:238-241 | two pending files of one slot: one run applies both, cut between them the second is never applied |
| StopRules.Watch.Add | cloud/loadtest/rules.go:68-93 | until the first trip it answers a rule exactly when some kind's unbroken stretch spans Hold |
| StopRules.Start | cloud/loadtest/rules.go:52-57 | where the last unbroken stretch of a kind begins |
| StopRules.KindOfMessage | cloud/loadtest/rules.go:59-66 | the first word of a message names the rule broken |
| StopRules.MessageOfKind | cloud/loadtest/rules.go:31-50 | each broken rule has a message of its kind |
| StopRules.DropHeldIffSameCount | cloud/loadtest/rules.go:46-48 | a drop rule is held exactly while the same count is dropped |
| StopRules.ChangingDropsNeverHeld | cloud/loadtest/rules.go:27-29 | drops whose count changes at each sample never trip |
| Decimal.DigitsInjective | cloud/loadtest/rules.go:47 | two counts never print alike |

## Left out

- HTTP servers, routers, proxies, flags, setup, pages and translations; process control and consoles: no property.
- SQL, TLS, ffmpeg and docker: only what they answer, as parameters.
- The standby and staging slots' sessions, which the source puts on top of the cap; syncs are served one at a time, as the front door's loop does (streaming/internal/frontdoor/slots.go:441-472), the live slot starts under a budget of at least 1 (streaming/internal/frontdoor/slots.go:990-991), and other probes of the slots beside it are not modelled.
- `localChannels.onAir` and `Room`: the need and the limit a call read are parameters.
- VodGate.SessionsWithinCap: asks that no second read of `held` finds less than there is room for, which with a cap under 6 none does; from 6 on the caps are false without it (`VodGate.WithinCapIff`).
- The runtime copy's rollback by `PreviousRuntime` in `BundleGuard` (the container's is in `ImageSwitch`), the database record it marks, and materializing at a start (in `Materialize`); a kept copy's own version and server do not change.
- Backoff and its sleeps; the exit codes the can't-start record carries, the choice file and the page.
- The install of a first runtime, a command run beside the container, another update's switch while an image's guard waits, and a guard that a start cannot read (nothing then watches it).
- ImageSwitch.KeptOrGoneBack: asks that a version is built once and that the guard's clear is one step with its probe; without them it is false (`ImageSwitch.ExclusiveIffOneBuild`, `ImageSwitch.AnyTimeExclusiveIff`).
- Materialize.Bundle.Materialize: asks that the marker is a regular file and that no kept file's name is another's plus `.materialize`; a rename is taken as durable, symbolic links under `.materialize` names as errors, and unreadable bundle folders are not modelled.
- `logFile.Close` and the pipe that feeds the log.
- FollowLog.FollowsTheLog: asks that a file is renamed aside only while the follower has it open; without it the promise is false, and `FollowLog.CompleteIff` says what holds. Copies and seeks are taken to work.
- Real time limits of `dbWatch.run`'s pings and back-off.
- LinkRequire.RequiredOnlyWhenHeld: asks for graces of at least the mark's 10 s limit and row updates that work, without which it is false (`LinkRequire.PromisedIff`, `LinkRequire.FailedClearRequiresTheDown`), and for callbacks in the order of the sessions; a sweep's clears are taken at the moment it collects them, and the database's clock is the home's.
- Read-your-writes through the recent changes of a credential.
- HomeClock.Copy.CopyMayRead: speaks of verdicts made once an offset was measured or a kept one is still within its error; before that the offset is 0 and nothing bounds it (`HomeClock.BoundedIffKnown`). The two clocks run at one rate.
- The 292-year saturation of durations; goroutine scheduling beyond interleaved steps.
- VodSweep.ShortestPrefix: with failed removals no reading follows the failure, so only `VodSweep.SweepTries` and `VodSweep.GracedGoOnlyUnderFloor` hold.
- `StatementBegin` discards an unterminated buffer, so nothing is claimed of every byte of a file being in some statement.
- The `ADD COLUMN IF NOT EXISTS` rewrite, comment stripping and the order in which migration files are listed.
- A commit that works though the process ends before its answer is, to the next run, a cut one step later.
- After its first trip a `Watch` promises nothing: which of several rules is answered then depends on the map's order.
