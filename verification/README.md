# Veery, verified

A Dafny model of the parts of Veery that have to be right whatever happens around them, with proofs
of what they promise.

- **Updates** (`Looks`, `Docker`, `Verification`, `Snapshots`, `Records`, `Update`, `SelfUpdate`, `Recovery`,
  `Startup`, `Jobs`, `Updater`, `CrashSafety`, `HandOff`, `Sweep`, `LateSweep`, `Lifecycle`): swapping a container
  onto a new image, undoing that, recovering from crashes, handing Veery's own update to a helper,
  and keeping the records true to the containers there are.
- **RAID** (`RaidTransitions`, `RaidSchedule`): announcing what changes about an array, and starting
  scheduled scrubs.
- **Target URLs** (`Strings`, `Percent`, `Query`, `UrlText`, `Services`, `TargetForm`,
  `FormRoundTrip`, `FormEditing`): printing the form of a notification target and reading it back.
- **Logs and times** (`Events`, `Like`, `Notify`, `WallClock`, `RRuleBuilder`, `Numbers`).

## How the daemon is modelled

`Docker.Daemon` holds a `World`: containers by name, ids that are never reused, what every container
was made from, images and tags. Every call may be refused, may take effect and lose its reply, or may
be cut short by the death of the caller before or after its effect; `Call` results are either
`Crashed` or a reply. Between any two calls everybody else may do anything (`Interfere`), except to
containers that bear a *guarded* name. A method that returns `Crashed` has left the world as the crash
found it, so a contract that holds in every outcome holds in every state of a run. A `reliable` daemon
serves every possible call with nobody interfering; contracts under `d.reliable` say exactly what the
code then does, as a function of the old world. `up` is what the daemon was last told; whether the
process inside runs, and how it feels, is only ever observed, and the observation is arbitrary but for
a container that is not up not running. What looks can show is a constant of the daemon that the code
cannot know, `sights`, and `Daemon.Valid` says that every container called verified stood verification
by what was shown (`Looks.Verified`): whatever promises a valid daemon promises that nobody is called
verified without it.

Methods follow the shape of the functions they model, with their loops and their order of calls. What
they promise beyond one call is proved about the worlds before and after, as lemmas.

## What the proofs found

- A container left parked from an earlier update can displace the live original: recovery removes the
  original unless it passes for a healthy replacement or is the Veery recovering
  (`CrashSafety.LeftoverDisplacesOriginal`; `ALeftoverDisplacesOne` is such a state). A swap is
  therefore safe to interrupt only if nothing was parked under its name when it began.
- Recovery does not always leave the survivor running. After a failure-free one, whoever bears a name
  is up if and only if it was up before, or a container was parked under the name and the bearer is not
  the Veery recovering (`CrashSafety.BearerUp`, in `Converge`). So an original that got its name back
  but not its start stays down, whoever recovers (`CrashSafety.RestoredButNotStarted`;
  `ARestoredContainerStaysDown` is such a state). Over a whole run that is the only way an original
  that was up ends down, but for a Veery that recovered itself (`CrashSafety.Run`, by the set
  `Docker.Daemon.unstarted`).
- A hand-off that begins while a container is parked under Veery's name can end with both Veery
  containers removed, from every state in which Veery can hand off and no helper works
  (`HandOff.UnquietHandOffLosesVeery`; `ARunLosesVeery` is a whole run). With nothing parked no
  interleaving can, so that is the exact condition (`HandOff.SafeToHandOff`, `HandOff.HandOffIsSafe`).
- A job interrupted before its pull found a newer image is settled as updated
  (`CrashSafety.AnInterruptedJobReadsUpdated`); otherwise settlement tells a swap that took from one
  that did not (`CrashSafety.SettlementIsRight`).
- `verifyHealthy` may accept a container that is still flagged as restarting
  (`Verification.ARestartingContainerMayPass`), but only on a look at which the deadline has passed
  (`Verification.VerifyHealthy`).
- A job begun under a used id would lose its outcome without being reopened (`Jobs.LastWordStands`).
- `ApplyUpdate` leaves the job row open when it gives up before looking up the image: when all works,
  exactly if no row has the name, the container is gone or was made from no reference
  (`Updater.ApplyUpdate`; `ApplyingToNothing` is one case).
- A record written by bringing a stack up is true exactly when the new container joined every network
  (`Lifecycle.TruthNeedsEveryNetwork`; `AMissedNetworkMakesALie` is a false one).
- A sweep that listed containers before an update of one can put the record back to the old container
  afterwards. With all services working it does so exactly if that container is still there, because
  its removal failed, and looks settled (`LateSweep.RerecordLate`, `AParkedContainerIsRecorded`). If the
  old container is gone the record stays (`LateSweep.SweepAroundSwap`).
- A form URL falls back to raw text, although the form built it, exactly when the last part of its
  variadic path ends in white space (`FormRoundTrip.RoundTrip`; `ATidyPathReads` and
  `AnUntidyPathFallsBack` show both sides). A colon pair that ends in its only colon loses it
  (`FormRoundTrip.PairReadsBackIfWhole`, `ABrokenPair`).
- An array that is missing from one non-empty scan is forgotten: the next announcement may repeat the
  last (`RaidTransitions.AbsenceBreaksAlternation`). One that stays is announced in strict alternation
  (`RaidTransitions.AnnouncementsAlternate`).
- A failing manual start, a check seen running, or a schedule switched off resets the retries of a
  scheduled scrub; without those, at most five tries fall between two values of an array's last run
  (`RaidSchedule.Scheduler.Run`).

## Model

| member | source | states |
|---|---|---|
| CrashSafety.Run | internal/docker/update.go:151-223 | A swap, any failing calls, a death after any call, and any number of starts of Veery that fail and die in turn: the original is in place or parked, or its name belongs to a container that passed verification or to a Veery that recovered; records stay true; if the original was up, the bearer of the name is up in the end, unless it is a Veery that recovered or one put back by a restore whose start was not confirmed, which only the original and what had been parked can be, and on a reliable daemon nobody |
| CrashSafety.RecoverSafely | internal/docker/recover.go:21-117 | One more start, however it ends, keeps what a run keeps |
| CrashSafety.Converge | internal/docker/recover.go:21-117 | From every state a run can leave, one failure-free start with no helper at work leaves nothing parked (but a Veery that finds its name held by a container that was up), the name with the original or a good container, that one up exactly if it was up before or a container was parked and the bearer is not the Veery recovering, and no job unfinished |
| CrashSafety.RecoveryReaches | internal/docker/recover.go:43-117 | Where a failure-free recovery leaves the name a run was about, and exactly when its bearer is up |
| CrashSafety.SecondRecoveryChangesNothing | internal/docker/recover.go:43-117 | A second whole start that judges replacements as the first did changes no container, but for helpers that were up and have exited since |
| CrashSafety.SettlementIsRight | internal/docker/recover.go:206-244 | In every state a run can leave, settling says whether the name passed on, if and only if the reference does not still name the original's image |
| CrashSafety.SettleAfterRun | internal/docker/recover.go:204-222 | Once the pull found a newer image, the row says done exactly when the name ended on the new container |
| CrashSafety.LeftoverDisplacesOriginal | internal/docker/recover.go:70-117 | With a leftover parked, recovery keeps the live original if and only if it is accepted as a replacement or is the Veery recovering |
| CrashSafety.RestoredButNotStarted | internal/docker/recover.go:99-102 | After a crash between rename and start, every failure-free recovery leaves the original in place, and up if and only if it was up while parked |
| CrashSafety.ARestoredContainerStaysDown | internal/docker/recover.go:99-102 | A state in which the original is in place, down, and stays so under every failure-free recovery |
| CrashSafety.ALeftoverDisplacesOne | internal/docker/recover.go:104-113 | A state in which recovery removes a live original for a leftover |
| CrashSafety.AnInterruptedJobReadsUpdated | internal/docker/recover.go:224-244 | A container never touched whose job is settled as updated |
| CrashSafety.NestingMatters | internal/docker/recover.go:54-63 | Were parked names nested, the order of a listing would decide which container survives |
| HandOff.HandOffIsSafe | internal/docker/selfupdate.go:29-137 | In every interleaving of Veery processes, helper and crashes whose hand-offs begin quietly: no starting Veery meddles while a helper works, the helper's rollback target exists until it commits, and Veery is never lost |
| HandOff.StepKeeps | internal/docker/recover.go:28-36 | Every step of every process keeps that |
| HandOff.RecoveryKeepsItsHandsOff | internal/docker/recover.go:28-36 | While a helper works no step of a Veery process changes who bears or is parked under the name; a process handing off never does |
| HandOff.SafeToHandOff | internal/docker/selfupdate.go:75-84 | With no helper at work, a hand-off is safe to begin, in every run with no other, if and only if nothing is parked |
| HandOff.UnquietHandOffLosesVeery | internal/docker/selfupdate.go:75-84 | From every state with a container parked and no helper at work, a hand-off can end with neither container left |
| HandOff.ARunLosesVeery | internal/docker/selfupdate.go:75-84 | A run from Veery's first start that loses it |
| HandOff.SettlesByTheTable | internal/docker/recover.go:70-117 | The steps of a starting Veery, undisturbed, leave the names to whom recovery's decision table gives them |
| HandOff.SwapsOrRollsBack | internal/docker/update.go:151-223 | The steps of a helper, undisturbed, end as a swap on a reliable daemon does |
| Update.Swap | internal/docker/update.go:151-202 | In every outcome the original survives or a verified container serves the name, and only those two ever bear it or its parked form; success means verified, up and made from the wanted spec; a reported rollback means back and up; records stay true; on a reliable daemon it succeeds or rolls back, and leaves nothing parked; the record follows the new container and is untouched by a failure; a container that was up is left so, but for one put back with no confirmed start |
| Update.Exchange | internal/docker/update.go:175-201 | From the parked state on: the same, and a lost reply never loses the parked container |
| Update.Replace | internal/docker/update.go:175-185 | A replacement is reported only if verified, up and made as wanted; a rollback only if the original is back and up |
| Update.Park | internal/docker/update.go:163-173 | The original stays under its name or the parked one, whatever fails; success frees the name |
| Update.Install | internal/docker/update.go:175-185 | The parked original is untouched; what takes the name is new and made from the wanted spec; fit means verified and up |
| Update.Rollback | internal/docker/update.go:209-223 | The original is in place or still parked in every outcome; success means in place and up; on a reliable daemon the result is exact |
| Update.Restore | internal/docker/recover.go:95-102 | The same for a parked container with no replacement |
| Update.Commit | internal/docker/update.go:187-194 | The replacement is not touched, the parked container goes or stays, the record follows a truthful inspection |
| Verification.VerifyHealthy | internal/docker/update.go:236-279 | At most seventeen looks; accepts only if the container stood verification: looks a second or more apart, all undecided but the last, which was running and without healthcheck or healthy, and if that one is undecided too only past the deadline; on a reliable daemon rejects only on a last look that fails, undecided only past the deadline |
| Verification.PollOnce | internal/docker/update.go:242-278 | What one look and the clock decide: an undecided look accepts or, on a reliable daemon, rejects only past the deadline, and an undecided round takes a second |
| Verification.ARestartingContainerMayPass | internal/docker/update.go:250-272 | A restarting container can be good enough; being so and undecided means restarting or without healthcheck |
| Recovery.ReconcileParked | internal/docker/recover.go:41-65 | Whatever fails, each parked container is kept in the sense of a swap, other names are left, nobody new appears; on a reliable daemon the world is that of the logged steps, one for each parked container |
| Recovery.ReconcileOne | internal/docker/recover.go:70-117 | The same for one parked container, by the branch its circumstances call for |
| Recovery.ReclaimName | internal/docker/recover.go:80-93 | A parked Veery ends in place or parked, and yields only to a bearer seen running and not unhealthy |
| Recovery.JudgeReplacement | internal/docker/recover.go:104-115 | An unverified replacement stays only if it passes verification, else the parked container is kept or restored, and only that one can come back without a confirmed start |
| Recovery.IsHealthy | internal/docker/recover.go:119-126 | Healthy implies there and up |
| Recovery.FateOf | internal/docker/recover.go:54-63 | Each parked container fares as the decision table says of the starting state, whatever is settled before or after |
| Recovery.RecoveryIsOrderIndependent | internal/docker/recover.go:49-64 | Every order of the listing yields the same world |
| Recovery.RecoveryConverges | internal/docker/recover.go:70-117 | Afterwards nothing is parked but a Veery deliberately left so; each name is held by the original or an accepted replacement; all else is unchanged |
| Recovery.RecoveryIsIdempotent | internal/docker/recover.go:70-117 | Settling again with the same judgements changes nothing |
| Recovery.RecoveryElsewhere | internal/docker/recover.go:70-117 | Settling touches only the two names it is about, and neither specs, images nor tags |
| Docker.RenderInjective | internal/docker/update.go:18-20 | A base name and a number of parkings stand for exactly one string |
| Docker.NameOf | internal/docker/recover.go:55-58 | Every string is the rendering of such a name, its base free of the suffix |
| Docker.Daemon.Settle | internal/docker/update.go:167-170 | A call has its whole effect or none, and a successful reply means it had it |
| Docker.Daemon.Rename | internal/docker/update.go:168-170 | On guarded names, a rename moves one container or nothing; exact when reliable |
| Docker.Daemon.Create | internal/docker/snapshot.go:97-100 | A new id, a name that was free, the image the reference names |
| Startup.Recover | internal/docker/recover.go:21-39 | With a helper seen running nothing is renamed or removed; otherwise every name is tended, helpers that finished are cleared, and no job of a lost worker stays open; on a reliable daemon a helper is seen running exactly if the listing says so |
| Startup.Prune | internal/docker/selfupdate.go:175-187 | Only helper containers go, and on a reliable daemon every one that is not up |
| Startup.ResumeJobs | internal/docker/recover.go:128-149 | Finished jobs and those of running helpers are left alone; all others are closed |
| Startup.SettleJob | internal/docker/recover.go:204-222 | The row is closed with what the container ended up with; "Updated" only if it runs the image its snapshot asks for |
| Startup.OnSnapshotImage | internal/docker/recover.go:224-244 | Says so only if true, under interference; exact when reliable |
| Startup.TendingFrames | internal/docker/recover.go:28-36 | Tending a name is not disturbed by what others may do before and after |
| SelfUpdate.DoUpdate | internal/docker/update.go:80-124 | The container that was there survives, Veery's own is never disturbed, the records stay true, and an update that took carries the spec of the live container it replaced and, on a reliable daemon, another image; it is up to date only if it runs the image its reference names; the job is marked as Veery's own if it is handed off, and only if the container is Veery's own |
| SelfUpdate.ReadSpec | internal/docker/reconcile.go:213-229 | The spec updated from is the live container's own, whether or not the record was stale |
| SelfUpdate.HandOff | internal/docker/selfupdate.go:29-88 | The job is marked as Veery's own; the helper runs the image Veery runs, with its process settings and access, the command to apply the update, no ports, no restart policy and no healthcheck; Veery's container is untouched and undisturbed, whatever fails |
| SelfUpdate.CarriedOverWhole | internal/docker/snapshot.go:101-103 | The spec carried over is whole if and only if every network was joined |
| Updater.RunUpdate | internal/docker/update.go:27-73 | A job stays open exactly when its update crashed or was handed off, in which case it is marked; it says done exactly on success |
| Updater.ApplyUpdate | internal/docker/selfupdate.go:90-155 | The swap's guarantees from outside; the row is closed by the outcome, except for refusals before the image lookup, which when all works come exactly if there is no row, no container or no reference |
| Updater.ApplyingToNothing | internal/docker/selfupdate.go:90-109 | A helper whose container has gone leaves its job unfinished |
| Jobs.DoneIsForever | internal/store/update_jobs.go:38-57 | No write reopens a finished job |
| Jobs.OutcomeStands | internal/store/update_jobs.go:38-43 | Late progress and marks do not disturb a finished outcome |
| Jobs.OnlyClosingFinishes | internal/store/update_jobs.go:26-57 | A job is finished if and only if it was or some write closed it |
| Jobs.LastWordStands | internal/store/update_jobs.go:26-57 | Over any run of writes a finished row shows what the last write that began or closed it said; its error is that of the last closing |
| Jobs.JobTable.SetPhase | internal/store/update_jobs.go:38-43 | Progress is recorded on unfinished rows only |
| Jobs.JobTable.Finish | internal/store/update_jobs.go:52-57 | Closing sets outcome and done together, or nothing |
| Snapshots.Recreate | internal/docker/snapshot.go:59-108 | Other names are untouched; the new container is made from part of the wanted spec, whole on a reliable daemon, which succeeds exactly if the name is free and the image known |
| Snapshots.PrimaryIsDeterministic | internal/docker/snapshot.go:110-129 | The primary network is the project's default if there, else the least default-looking one, else the least: a function of the set of networks |
| Snapshots.ArrangeNetworks | internal/docker/snapshot.go:73-95 | Names sorted without loss, all but the primary joined later |
| Records.FaithfulUnderInterference | internal/docker/reconcile.go:25-27 | Nothing done to containers can make a true record false: a recreated container has a new id |
| Records.RecordingIsFaithful | internal/docker/reconcile.go:231-244 | Recording what was inspected keeps the records true |
| Records.Store.RefreshIfRecreated | internal/docker/reconcile.go:213-229 | The stored snapshot is used only for the very container it was taken from |
| Records.Store.AddManaged | internal/store/docker_store.go:52-63 | A row that is there keeps its name and auto-update setting |
| Records.Store.DeleteManaged | internal/store/docker_store.go:165-197 | The stack goes with its last container, and only then |
| Sweep.Reconcile | internal/docker/reconcile.go:30-74 | Rows change only to follow settled containers nobody holds, to take on new services of managed stacks, or to forget compose's leftovers; records stay true; on reliable services everything is caught up but what was held or unsettled; nothing to do means nothing written |
| Sweep.ReconcileTwice | internal/docker/reconcile.go:30-74 | On an unchanged daemon a second sweep writes nothing, unless the first passed over a held or unsettled container |
| Sweep.Rerecord | internal/docker/reconcile.go:166-211 | A snapshot is replaced only by one of a container seen settled, and never while the name is held |
| LateSweep.RerecordLate | internal/docker/reconcile.go:166-203 | Once a row tells of another container, a sweep puts it back to the one it listed if and only if that one is still there and looks settled |
| LateSweep.SweepAroundSwap | internal/docker/reconcile.go:30-61 | A row written by an update is not overwritten by a sweep that listed before it, if the old container is gone; when all works it tells of the new container in the end |
| LateSweep.AParkedContainerIsRecorded | internal/docker/reconcile.go:166-203 | A state in which it is overwritten |
| Sweep.AdoptNew | internal/docker/reconcile.go:123-164 | Takes on exactly what is in a managed stack, truthfully, with auto-update off |
| Sweep.ScaffoldingIsNeverAdopted | internal/docker/reconcile.go:76-98 | Over any number of sweeps, every row there in the end was there at the start or was listed by one of them as a service of a managed stack: not parked, no helper, not compose's temporary container |
| Sweep.ForgetGone | internal/docker/reconcile.go:100-121 | Only records of compose's temporary containers that are gone are dropped, and all of them |
| Sweep.BeforeUnderscore | internal/docker/reconcile.go:92-95 | The cut is at the first underscore, and is there exactly if one is |
| Lifecycle.Adopt | internal/docker/lifecycle.go:241-293 | Manages exactly the stack's services, keeps names and auto-update settings of rows that were there, one row per name, records true |
| Lifecycle.BringUpStack | internal/docker/lifecycle.go:337-373 | Success means every container of the stack is there and up; no recorded spec changes, other containers are untouched, no live container is replaced |
| Lifecycle.BringUpOne | internal/docker/lifecycle.go:347-371 | A container that is there is never replaced, even if looking at it failed |
| Lifecycle.AMissedNetworkMakesALie | internal/docker/lifecycle.go:355-362 | A row brought up that is false |
| Lifecycle.TruthNeedsEveryNetwork | internal/docker/lifecycle.go:355-362 | A record brought up is true if and only if its container joined every network |
| RaidTransitions.TransitionWatcher.Watch | internal/raidwatch/raidwatch.go:74-135 | Over any run, what is announced about a scan, an array's health or a disk is exactly the edges between consecutive observations; the last-scan time is when a check was last seen to end |
| RaidTransitions.TransitionWatcher.CheckTransitions | internal/raidwatch/raidwatch.go:95-135 | One sweep announces an aspect exactly if it was remembered otherwise, and remembers what is seen |
| RaidTransitions.TransitionWatcher.Sweep | internal/raidwatch/raidwatch.go:74-87 | An empty scan changes nothing at all |
| RaidTransitions.TransitionWatcher.NotifyScan | internal/raidwatch/raidwatch.go:137-153 | Finished exactly at a check that is over |
| RaidTransitions.TransitionWatcher.NotifyDisks | internal/raidwatch/raidwatch.go:170-185 | Each member known before is announced exactly if it changed, no other |
| RaidTransitions.AnnouncementsAlternate | internal/raidwatch/raidwatch.go:137-185 | Over any run in which an array, and if a disk is meant that member, stays in the scans, what is heard of it alternates, begins with a change from what was remembered, and ends with what is remembered then |
| RaidTransitions.EveryEdgeIsSeen | internal/raidwatch/raidwatch.go:111-124 | Every announcement is of something seen differently one sweep before: first sight is silent |
| RaidTransitions.EmptySweepsDoNotMatter | internal/raidwatch/raidwatch.go:77-82 | Empty scans inserted anywhere change no observation |
| RaidTransitions.AbsenceBreaksAlternation | internal/raidwatch/raidwatch.go:111-127 | For every aspect of every array there is a run of scans that leave the array out once and announce the same twice in a row |
| RaidSchedule.Scheduler.OncePerOccurrence | internal/raidwatch/raidwatch.go:192-291 | Over any run of sweeps, manual starts and changes of schedules, the occurrences an array's scrubs are for come strictly later and later: none has two |
| RaidSchedule.Scheduler.Run | internal/raidwatch/raidwatch.go:192-354 | Every such run keeps the scheduler's invariant, and what fired stays fired; for an array with no manual start, no check seen and its schedule kept on, there are at most five tries between two values of its last run, spaced by the delays, only the first and the fifth failure announced, and but for a success only the fifth failure sets the last run |
| RaidSchedule.Scheduler.SweepOne | internal/raidwatch/raidwatch.go:213-279 | A scrub is tried exactly when the array is idle, scheduled, anchored, and due or due for a retry; what success, failure and neither change; every try is logged, and ends a span exactly if it sets the last run |
| RaidSchedule.Scheduler.PendingRetryIsForAnOccurrence | internal/raidwatch/raidwatch.go:239-263 | A pending retry stands for an occurrence after the last run and no later than the failed try, tried as often as it says, only the first try announced; left alone, these are all the tries since the last run |
| RaidSchedule.Scheduler.Fail | internal/raidwatch/raidwatch.go:255-271 | A failed try is recorded and logged, keeps the tries spaced and announced as they should be, and as the fifth uses the occurrence up |
| RaidSchedule.Scheduler.RecordFailure | internal/raidwatch/raidwatch.go:293-321 | A scheduled record has one to five attempts and waits for another exactly below five |
| RaidSchedule.Scheduler.Start | internal/raidwatch/raidwatch.go:323-354 | A manual start never advances the last run; failing, it replaces whatever retries were pending; either way it disturbs the log of that array only |
| RaidSchedule.DueMeansOccurrence | internal/raidwatch/schedule.go:74-88 | Due if and only if an occurrence falls after `since` and not after now |
| FormRoundTrip.RoundTrip | web/src/lib/shoutrrr.ts:655-822 | For every listed service and every complete target with delimiter-free host and port, a whole colon pair and foreign extra parameters: what is printed reads back to the same scheme, trimmed values, plain path and extra parameters and prints the same URL, unless the last part of the variadic path ends in white space; then it falls back to raw text |
| FormRoundTrip.Reprinted | web/src/lib/shoutrrr.ts:818-840 | The round-trip check passes if and only if the variadic path is tidy |
| FormRoundTrip.ATidyPathReads | web/src/lib/shoutrrr.ts:655-822 | A Pushbullet target with any plain token and a trimmed one-part path reads back |
| FormRoundTrip.AnUntidyPathFallsBack | web/src/lib/shoutrrr.ts:818-840 | One whose path is a part ending in space before a slash falls back to raw text |
| FormRoundTrip.ABrokenPair | web/src/lib/shoutrrr.ts:677-684 | A colon pair that ends in its only colon comes back without it |
| FormRoundTrip.PrintedIsCut | web/src/lib/shoutrrr.ts:686-739 | The URL pattern cuts a printed URL into the parts it was printed from |
| FormRoundTrip.PrintedIsRead | web/src/lib/shoutrrr.ts:751-816 | Every input and every extra parameter reads back |
| FormRoundTrip.PairReadsBackIfWhole | web/src/lib/shoutrrr.ts:677-684 | A colon pair reads back if and only if it does not end in its only colon |
| FormRoundTrip.VariadicPathReads | web/src/lib/shoutrrr.ts:797-811 | Fixed path inputs before and after the variadic one get their own segments, and it gets the rest |
| FormRoundTrip.FixedPathReads | web/src/lib/shoutrrr.ts:797-804 | Without a variadic input every path input gets its own segment |
| FormRoundTrip.QueryIs | web/src/lib/shoutrrr.ts:707-715 | The query printed is the valued extra parameters, then the valued inputs |
| FormRoundTrip.ExtraReads | web/src/lib/shoutrrr.ts:813-816 | Exactly the parameters without an input are kept as extra |
| FormRoundTrip.PathRereads | web/src/lib/shoutrrr.ts:696-705 | The plain form of a path has the same segments if and only if trimming leaves it alone |
| FormEditing.Build | web/src/lib/shoutrrr.ts:660-718 | The loops print the URL the round trip is proved about |
| FormEditing.Parse | web/src/lib/shoutrrr.ts:741-822 | The loops read the target the round trip is proved about |
| Services.TableIsWellDesigned | web/src/lib/shoutrrr.ts:63-614 | In every listed form names and places are unique, path inputs leave no doubt which segment is whose, a colon pair has the password to itself, and a host is asked for or fixed |
| Services.ServiceForItsScheme | web/src/lib/shoutrrr.ts:628-630 | Every listed service is the one found under its scheme |
| UrlText.ReadingIsCut | web/src/lib/shoutrrr.ts:737-739 | Text put together as the pattern describes is cut into just those parts |
| UrlText.CutIsReading | web/src/lib/shoutrrr.ts:737-739 | Only such text matches |
| Percent.EncodeRoundTrip | web/src/lib/shoutrrr.ts:725-735 | Decoding undoes encodeURIComponent on every string |
| Percent.FormRoundTrip | web/src/lib/shoutrrr.ts:707-715 | Decoding undoes form encoding on every string |
| Percent.Utf8RoundTrip | web/src/lib/shoutrrr.ts:725-735 | Every character is the one its UTF-8 bytes, and no fewer, decode to |
| Query.SerializeRoundTrip | web/src/lib/shoutrrr.ts:715-770 | Parsing a serialized parameter list gives the list, duplicates and order included |
| Events.WalkIsExact | internal/store/events.go:56-131 | When a walk ends, every matching row there throughout was shown exactly once, newest first, whatever was appended or pruned between pages |
| Events.ShownDescends | internal/store/events.go:94-105 | Keys get strictly older from page to page, so no row is shown twice |
| Events.WalkEnds | internal/store/events.go:125-130 | If nothing is inserted below the cursor a walk ends within one page more than there were rows |
| Events.Walk | internal/store/events.go:56-131 | A client following cursors on a live log, with any limits, makes such a walk |
| Events.EventLog.List | internal/store/events.go:59-131 | The newest matching rows below the cursor, a next cursor exactly if there are more, pointing at the last row shown; fails exactly on a malformed cursor |
| Events.EventLog.Append | internal/store/events.go:36-54 | A fresh id above every id ever given, other rows untouched |
| Events.EventLog.Prune | internal/store/events.go:133-144 | Exactly the rows before a positive cutoff go |
| Events.CursorRoundTrip | internal/store/events.go:146-167 | A cursor leads back to the key it was made from |
| Events.SearchKeepsWhatContainsIt | internal/store/events.go:82-88 | A search keeps the rows whose title or body contains it |
| Like.SearchIsLiteral | internal/store/events.go:82-88 | The LIKE pattern for a query matches a text if and only if the query occurs in it, up to ASCII case |
| Like.EscapedMatchesItself | internal/store/events.go:169-174 | An escaped string matches itself, up to ASCII case, and nothing else |
| Notify.StatusWatcher.Watch | internal/docker/notify.go:34-89 | Restarts at any points of a run change no announcement |
| Notify.StatusWatcher.NoteStatuses | internal/docker/notify.go:34-89 | A sweep compares with the last one, in memory or in the database, and remembers itself |
| Notify.ChangesAreToldExactly | internal/docker/notify.go:57-76 | Each container is announced exactly once if it changed to something but missing with no update under way, else not |
| Notify.RemovalsAreCoveredOnce | internal/docker/notify.go:107-135 | Every newly missing container is covered by exactly one message: its own, or its stack's when all of several managed ones went at once |
| Notify.GoneAreManaged | internal/docker/notify.go:115-124 | Counting tells: as many gone as managed if and only if every managed one is newly missing |
| Notify.SteadyIsSilent | internal/docker/notify.go:58-63 | A container that keeps its status is not mentioned |
| WallClock.InstantShowsTheWall | web/src/lib/rrule.ts:131-143 | With at most one clock change in reach, the instant named shows the wall-clock time if and only if some instant does; in a skipped hour the first guess is named |
| WallClock.TwiceShown | web/src/lib/rrule.ts:131-143 | Which of the two instants of a repeated hour is named |
| WallClock.InstantOf | web/src/lib/rrule.ts:135-143 | Stopping once settled gives what two refinements give |
| RRuleBuilder.BuildRRule | web/src/lib/rrule.ts:34-44 | The parts pushed in turn are those the round trip is proved about |
| RRuleBuilder.BuiltRuleReads | web/src/lib/rrule.ts:34-44 | A form prefilled from the rule it built shows the same fields, but for weekdays and day of the month its frequency does not use |

## Left out

- Image pruning after a swap, update-available flags, progress messages and the text of pull progress: no effect on what is proved.
- Failures of the database are modelled where they decide an outcome (recording a spec, job rows, adopting); loading and saving the notifier's and the RAID watcher's state is taken to succeed, and a process does not die between their two saves.
- Two swaps of one name at once, from two processes or by the user's own hand, and two helpers at once: nothing in the code excludes them. Stack-level and per-container lifecycle actions take no part in interleaved runs for the same reason.
- HandOff.HandOffIsSafe: every process is taken to know its own container; the code keeps a failed look-up as "unknown" for good (internal/docker/self.go:25-30), and such a Veery swaps its own container in its own process, as `Update.Swap` describes, crash included.
- HandOff.StepKeeps: a container's failing network joins, its image and its spec are not part of the interleaving; the swap in it is the sequence of calls that decide who bears which name, tied to the others by `HandOff.SwapsOrRollsBack` and `HandOff.SettlesByTheTable` for undisturbed processes only.
- Sweep.Rerecord: the lock a name is under is a parameter, `busy`. An update and the part of a sweep under the lock exclude each other whole, so `LateSweep` runs one after the other; the sweep's own writes without the lock, adopting and forgetting, are not interleaved with an update.
- SelfUpdate.HandOff: does not model a daemon that describes Veery's own container without its configuration, on which the code gives up.
- Networks a user connects a container to by hand after it was created are not part of its make.
- Container names are strings; the model keeps a base name and a count of suffixes, which `Docker.RenderInjective` and `Docker.NameOf` relate one to one. Rollback and recovery are about names without nested suffixes.
- Watching a job that a helper is still running, and everything sent to clients.
- Strings are sequences of Unicode scalar values: lone surrogates, on which encodeURIComponent throws, do not occur. Objects keep properties in the order they were first set; keys that look like array indices are not moved to the front, and `__proto__` is a key like any other.
- How bytes that are not UTF-8 are repaired and how strings are ordered for the locale are parameters of the URL reader; no result depends on them.
- The composite input of Discord, field labels and hints, and defaults of new targets.
- Services.TableIsWellDesigned: optional attributes of inputs that do not bear on the URL (secret, advanced, options) are not in the table.
- Recurrence rules (RFC 5545) are an abstract set of occurrences to the scheduler, and time zones an abstract offset to `instantOf`; describing rules in words is left out.
- Titles and bodies of notifications; only which are sent.
- NUL characters in searches, which would end an SQLite pattern early.
