# Continuous capture and recovery of the detection worker

This project models the recording and recovery logic of the camera's detection
worker and proves properties of whole runs of it.

- **Visits.** `Visit.dfy` is the per-key state machine that turns present
  detections into open / extend / finalize transitions; `VisitRuns.dfy` follows
  it over any run with a clock that does not go back; `VisitLaws.dfy` says what
  each call does in terms of clock, sliders and detections.
- **Runner and recovery.** `VisitRuntime.dfy` is the runner with its durable
  table of open visits, `Recovery.dfy` and `Arming.dfy` the boot: recover, sweep,
  arm. `Pipeline.dfy` puts tracker, runner, finalize threads, crashes and boots
  together as one step system. `PipelineInvariant.dfy` proves its invariant,
  `PipelineFrames.dfy` what a step leaves alone, `PipelineTheorems.dfy` what
  follows for runs, `PipelineEvictions.dfy` what becomes of evicted visits,
  `PipelineHandOffs.dfy` which windows are handed over, `PipelineLosses.dfy` from
  which states a visit can still be published, `PipelineLeftovers.dfy` how long
  the entries an earlier recovery left survive, `PipelineExamples.dfy` the runs in
  which promises fail, `RecoverySteps.dfy` that the small recovery steps add
  up to the pass of `Recovery.dfy`, and `RunnerLaws.dfy` what a frame, a tick or a
  drain does to memory and disk, in bytes free, seconds and windows.
- **Footage.** `Preroll.dfy` is the segment ring and the incremental copy,
  `RingRuns.dfy` any interleaving of rotations and copies, `ClipNames.dfy` the
  padded file names, `Recording.dfy` the all-or-nothing finalize, and
  `EndToEnd.dfy` the way from the ring to the published clip.
- **Watchdog.** `Watchdog.dfy` is the escalation ladder, `DetectLoop.dfy` the
  capture loop's side of it, `WatchdogRuns.dfy` worker lives with deaths at any
  point, and `WatchdogLaws.dfy` when a failure is answered, with what, and what a
  real frame undoes.
- **Legacy gate and sidecar.** `Presence.dfy`, `PresenceRuns.dfy` and
  `PresenceLaws.dfy`, which fixes the overlap by counting cells and the emits by
  the detections before; `Tracks.dfy`.
- **Shared.** `Collections.dfy`: least elements, listings, a stable sort.

Objects that the program updates in place are classes. Each method is proved
against a predicate or function on values (`Observed`, `Ticked`, `Handle`,
`Pass`, `Appends`, `Fired`, `Gated`), and the lemmas about runs use the same
predicates and functions. Choices the program leaves to dictionary or directory
order are left open by these predicates. What the predicates themselves amount to
is proved in the program's own quantities, with its constants written out: 450 MiB
of free space, three attempts, ten seconds of tolerance, thirty minutes between
reboots.

Conventions: times are reals; visit ids come from a counter; the durable table
and the watchdog file are written atomically and without error; removals
succeed; two ring generations never carry the same modification time; only a
publish replaces a valid clip. At a boot the probe of a clip may fail on a good
one (it times out after ten seconds), but accepts no bad one. A crash may fall
after any durable write, in the middle of a batch too, and between any two stages
of a finalize. That a disruptive step comes only after a durable one is the
precondition of the method that takes it (`PostEvent`, `CallFinalizer`,
`ExecuteAction`, `RebootCommand`).

Where the program's code and its comments differ, the model follows the code:

- The tracker never uses a POST_ROLL state, and box overlap does not split
  visits (visit.py:113-121), although its comments still mention both.
- The runner's table starts empty (visit_runtime.py:465-469); its comment says
  it is seeded from disk, so that surviving entries are not lost. They survive
  exactly until its first write: `PipelineLeftovers.LeftoverSurvivesExactly`, and
  a run in `PipelineExamples.FirstWriteErasesLeftover`.
- Recovery leaves a failed entry "for a later retry" (visit_runtime.py:352-364),
  but the finalizer removes the scratch on every exit (recording.py:1148-1154).
  `PipelineLosses.FailedRecoveryIsFinal` shows that no retry can succeed,
  `PipelineLosses.MarkedMayPublish` that an attempt can if and only if there is
  scratch when the entry is marked, `PipelineExamples.RetriedInVain` is a run.
- The attempt limit is compared only after the finalizer returns
  (visit_runtime.py:336). `PipelineTheorems.AttemptLimit` shows that a fourth call
  is made exactly when a crash cut the third short, and
  `PipelineExamples.CrashingRecoveryNeverGivesUp` gives runs with any number.
- "Never a double publish" (visit_runtime.py:257-260) holds if and only if no
  attempt that publishes came from a probe that failed on a good clip:
  `PipelineTheorems.PublishedOnceExactly`; a run in
  `PipelineExamples.SlowProbePublishesTwice`.
- The sweep is meant for orphans, but a re-arm at run time
  (detect.py:2204-2212) also sweeps the scratch of finalize threads still
  running: `PipelineLosses.ArmCostsExactly` says which visits that costs a clip,
  and `PipelineExamples.ToggleLosesTheClip` is a run in which it happens.
- A visit handed to a finalize thread is no longer crash-safe
  (visit_runtime.py:681-685): `PipelineLosses.CrashOrphansFinalizes` says exactly
  when its clip can still be had, `PipelineExamples.CrashLosesTheClip` is a run.
- Below the disk floor, finalize is said to bound the clip to the footage that
  exists (visit_runtime.py:633-637), but the hand-off keeps the tracker's end
  (visit_runtime.py:664-685). `PipelineHandOffs.HandedBandExactly` says when the
  window lies within what was asked for; in the run of
  `PipelineExamples.FloorOutrunsTheCopies` it claims 30 seconds more, of which
  the check of the duration tolerates ten.
- A visit evicted by the tracker's cap is not closed (visit.py:268-286): its entry
  stays until the runner is gone, `PipelineEvictions.EvictedOnlyRecovered`.
- A copy that failed and is made good later is numbered behind newer footage
  (preroll.py:637-658): `RingRuns.OutOfOrderExactly` gives the exact condition,
  `RingRuns.FailedCopyBreaksOrder` a run.
- Six digits keep names in order up to one million segments
  (preroll.py:642): `ClipNames.ListingAscendsExactly`.
- The emit gate's table may exceed its cap by one (presence.py:178-183):
  `PresenceRuns.OverCapExactly` says when, `PresenceRuns.CapIsExceeded` is a run.

## Model

| member | source | states |
|---|---|---|
| `VisitLifecycle.VisitTracker.Observe` | detection/visit.py:88-160 | a present detection opens, splits at the cap, closes and reopens, or extends, in that order of precedence; nothing else in the table changes but what a prune drops |
| `VisitLifecycle.VisitTracker.SplitAtCap` | detection/visit.py:123-136 | two adjacent windows with consecutive indices and no pre-roll between them |
| `VisitLifecycle.VisitTracker.StartVisit` | detection/visit.py:107-111 | a prune, then a fresh visit reaching back by the pre-roll |
| `VisitLifecycle.VisitTracker.Tick` | detection/visit.py:162-182 | exactly the visits past their absence deadline are closed, each once and at its deadline; they become idle and no other record moves |
| `VisitLifecycle.VisitTracker.Prune` | detection/visit.py:268-286 | idle records go; live ones only when there is no room for one more, then just enough of the longest unseen |
| `VisitLifecycle.VisitTracker.Forget` | detection/visit.py:191-197 | the key leaves the table |
| `VisitLifecycle.VisitTracker.OpenVisit` | detection/visit.py:219-240 | the new record and its open transition, under the next id |
| `VisitLifecycle.VisitTracker.FinalizeVisit` | detection/visit.py:242-266 | the record becomes idle; the window ends at the given end, clamped to now when asked |
| `VisitRuns.CoverageOnEveryRun` | detection/visit.py:88-182 | after any run, with sliders changing on each call, every present detection lies in a finalized window of its key, in its open visit, or in a visit that was evicted or rolled back |
| `VisitRuns.TilingOnEveryRun` | detection/visit.py:123-147 | after any run, a window with index n+1 starts exactly where one of index n of its key ended, and a window overlaps an earlier one of its key by no more than its own visit reaches back |
| `VisitRuns.ReachIsOwnPreRoll` | detection/visit.py:107-147 | a visit reaches back by the pre-roll of the very call that opened it, and not at all if it continues one cut by the cap |
| `VisitRuns.ChainOnEveryRun` | detection/visit.py:123-136 | after any run, from every finalized window, whatever its index, the windows of its key reach back without a gap to the start of one with index 0 |
| `VisitRuns.LengthBoundOnEveryRun` | detection/visit.py:129-147 | with fixed sliders and every detection within d of a tick, each window is forward, ends by now, and is at most max_visit + absence + max(pre_roll, absence + d) long |
| `VisitLaws.ObservedFirst` | detection/visit.py:107-111 | a key without an open visit is opened under the next id, from one pre-roll before the frame |
| `VisitLaws.ObservedAtCap` | detection/visit.py:123-136 | a visit that has lasted max_visit is cut at started_at + max_visit and goes on from there under the next index, even if the subject was away for longer than the absence |
| `VisitLaws.ObservedBack` | detection/visit.py:138-147 | otherwise, after more than the absence, the visit ends at last_seen + absence and a fresh one starts one pre-roll before the frame |
| `VisitLaws.ObservedAgain` | detection/visit.py:149-160 | otherwise the visit goes on, last seen now, and nothing else in the table moves |
| `VisitLaws.TickedCases` | detection/visit.py:162-182 | a live visit is closed by a tick, at last_seen + absence and no later, if and only if now is past that; else it stays as it is |
| `VisitLaws.StartEvicts` | detection/visit.py:268-286 | before an open, all live records stay if there is a place left, otherwise max_keys - 1 of them, none of which was seen earlier than one evicted |
| `VisitLaws.RemembersOnEveryRun` | detection/visit.py:149-160 | on any run last_seen of an open visit is the latest detection of its key, and it was opened for one |
| `VisitRuntime.VisitRunner.constructor` | detection/visit_runtime.py:448-491 | a new runner has an empty table and leaves the disk as it is |
| `VisitRuntime.VisitRunner.Tick` | detection/visit_runtime.py:517-523 | the tracker's tick, its transitions handled in order |
| `VisitRuntime.VisitRunner.Observe` | detection/visit_runtime.py:525-542 | the tracker's observe, its transitions handled in order |
| `VisitRuntime.VisitRunner.HandleTransitions` | detection/visit_runtime.py:551-559 | memory and disk become the fold of the handlers over the transitions |
| `VisitRuntime.VisitRunner.HandleOpen` | detection/visit_runtime.py:561-620 | with a reading below the disk floor the tracker is rolled back and nothing is written; otherwise the entry is in the table and on disk, and then posted |
| `VisitRuntime.VisitRunner.PostEvent` | detection/visit_runtime.py:597-613 | an open event can only go out for a visit whose current entry is on disk |
| `VisitRuntime.VisitRunner.HandleExtend` | detection/visit_runtime.py:622-662 | the sighting is recorded; the claim advances and a copy is made only above the disk floor; the table is persisted |
| `VisitRuntime.VisitRunner.HandleFinalize` | detection/visit_runtime.py:664-685 | a last copy unless below the floor, the entry gone from table and disk, one finalize thread |
| `VisitRuntime.VisitRunner.CopySegments` | detection/visit_runtime.py:649-655 | a copy call over the band; it may leave a whole segment in scratch, or just an empty directory |
| `VisitRuntime.VisitRunner.SpawnFinalize` | detection/visit_runtime.py:721-746 | a visit that is already being finalized is not handed over again |
| `VisitRuntime.VisitRunner.FinalizeOpenVisitsForEscalation` | detection/visit_runtime.py:760-802 | every live visit is closed once at its last sighting, the tracker is fresh, and the drained table is on disk on return |
| `VisitRuntime.VisitRunner.SetAbsenceFinalizeS` | detection/visit_runtime.py:811-819 | only a positive value replaces the remembered one |
| `RunnerLaws.DefaultFloor` | detection/visit_runtime.py:67 | the floor is 471859200 bytes unless another is given |
| `RunnerLaws.OpenTakesRoom` | detection/visit_runtime.py:570-613 | with no reading of the free space, or one at the floor or above, the visit is in table, on disk and posted and its key live; with a smaller one table, disk and posts stay, the key is forgotten and one more open refused |
| `RunnerLaws.ExtendTakesRoom` | detection/visit_runtime.py:622-662 | the sighting always reaches the disk; with room the claim goes up to the frame and a copy is made over exactly that band, without it neither changes |
| `RunnerLaws.FinalizeTakesRoom` | detection/visit_runtime.py:664-719 | the entry leaves table and disk and one thread gets the window; the catch-up copy over it is made exactly with room |
| `RunnerLaws.FirstSight` | detection/visit_runtime.py:561-620 | in every reachable state, a frame with a new key puts its visit in table, disk and post from one pre-roll before, or, below the floor, leaves no trace of it |
| `RunnerLaws.SeenAgain` | detection/visit_runtime.py:622-662 | in every reachable state, a frame with a live key in time moves its sighting, and above the floor its claim and copy band, up to now on disk |
| `RunnerLaws.CutAtCap` | detection/visit.py:123-136 | in every reachable state, a frame at or past the cap hands over the window up to the cap, before absence is considered, and its successor starts there |
| `RunnerLaws.BackAfterAbsence` | detection/visit.py:138-147 | in every reachable state, a frame after more than the absence hands over the window with its grace and starts afresh |
| `RunnerLaws.TickEnds` | detection/visit_runtime.py:517-523 | in every reachable state, a tick puts each visit past its absence into a thread's hands, over its start to last_seen + absence, and leaves every other visit alone |
| `RunnerLaws.DrainEnds` | detection/visit_runtime.py:760-802 | in every reachable state, a drain hands over every live visit up to its last sighting; at its end neither memory nor disk knows it |
| `RunnerLaws.ThreadLeavesNothing` | detection/recording.py:1144-1165 | in every reachable state, a finalize thread that ends leaves no scratch and no temporary file of its visit, and a clip if and only if it published one |
| `RunnerLaws.CapIs32` | detection/visit_runtime.py:760-802 | on any run the tracker of a runner that is up has room for 32 keys |
| `Recovery.RecoverOne` | detection/visit_runtime.py:277-364 | one entry: a valid clip is skipped; otherwise it is marked on disk first, finalized over start to the lesser of last extend and now, and dropped on success or when two attempts were counted before; its fate, table and call in terms of clip, scratch and attempts |
| `Recovery.CallFinalizer` | detection/visit_runtime.py:321-331 | recovery can call the finalizer only on an entry marked on disk and without a clip the probe accepts; what it yields depends on the visit and the window asked for; the scratch is always taken |
| `Recovery.RecoverOpenVisits` | detection/visit_runtime.py:250-365 | the table after the pass, the exact summary, one finalize call per entry without a valid clip and none for the others, over exactly the recorded window; existing valid clips are untouched |
| `Recovery.SweepOrphans` | detection/visit_runtime.py:368-422 | scratch directories outside the durable table, empty or not, and temporary files go, and are counted; clips, table and ring are outside what it may modify |
| `Recovery.OutlivesPasses` | detection/visit_runtime.py:292-364 | an entry outlives n complete passes if and only if no pass found or made its clip and its attempts plus n stay under the limit |
| `Recovery.AtMostThreeCalls` | detection/visit_runtime.py:73-80 | any number of complete passes call the finalizer for an entry at most three times |
| `Recovery.ThreePassesEmpty` | detection/visit_runtime.py:336-351 | three complete passes leave the table empty, whatever they met |
| `Recovery.ThirdPassAbandons` | detection/visit_runtime.py:80-364 | an untried entry that no pass finds or publishes is there after two complete passes with two attempts, and gone after the third, with exactly three calls |
| `Recovery.SummaryTells` | detection/visit_runtime.py:270-365 | each entry is named once in the summary; failed are exactly those still in the table |
| `RecoverySteps.StepsMakeOnePass` | detection/visit_runtime.py:276-365 | the interruptible recovery steps, not cut by a crash, make of the durable table what one pass does, and the same finalizer calls: one for each entry but those whose clip the probe accepted, over the recorded window at the time of the boot |
| `Arming.ArmVisitRunner` | detection/detect.py:1318-1353 | recovery, sweep, then a runner with empty memory over the recovered disk; no scratch outlives it |
| `Arming.DisarmVisitRunner` | detection/detect.py:1356-1376 | the open visits are drained before the runner is dropped |
| `PipelineInvariant.StepKeepsInv` | detection/visit_runtime.py:425-822 | every step of the worker, crashes and boots included, keeps the invariant tying tracker, table, disk, finalize threads and clips together |
| `PipelineInvariant.InvOnEveryRun` | detection/visit_runtime.py:425-822 | hence it holds in every reachable state |
| `PipelineTheorems.ThreeWayAgreement` | detection/visit_runtime.py:551-685 | in every armed state each live visit is in the table and on disk with its key, start, last sighting and index; any other table entry is a visit the tracker evicted; the tracker stays within its cap |
| `PipelineEvictions.EvictedOnlyRecovered` | detection/visit.py:268-286 | on any run, the entry of an evicted visit stays in the table as long as the runner lives, no runner hands it to a finalize thread, and only the recovery of a later boot can publish it |
| `PipelineTheorems.OpenVisitSurvivesCrash` | detection/visit_runtime.py:585-597 | from its post to its hand-off a visit is on disk with start <= last extend <= last sighting; whatever takes the runner away, in the middle of a batch too, either it was just handed over or the next boot takes its entry up unchanged |
| `PipelineTheorems.RecoveredOverItsWindow` | detection/visit_runtime.py:305-320 | whenever a later boot finalizes such a visit, the call is for exactly start to last extend of the entry before the crash |
| `PipelineTheorems.HandedOverOnce` | detection/visit_runtime.py:721-746 | no visit id is handed to a finalize thread twice |
| `PipelineTheorems.HandedWindowsAreSane` | detection/visit_runtime.py:664-685 | every window handed over is forward and in the past |
| `PipelineHandOffs.HandedBandExactly` | detection/visit_runtime.py:664-719 | for every finalize thread in every state, the window is the band of the visit's last copy call if the disk was above the floor at the hand-off; it lies within that band if and only if that was so, or nothing is claimed beyond the last extend |
| `PipelineTheorems.RecoveryStaysWithinCopies` | detection/visit_runtime.py:305-320 | the window recovery asks for is empty or lies within the visit's last copy call |
| `PipelineTheorems.PublishStep` | detection/visit_runtime.py:279-304 | a step publishes at most one clip and removes no valid one; it publishes over a valid clip exactly when the attempt came from a probe that failed on it |
| `PipelineTheorems.PublishedOnceExactly` | detection/visit_runtime.py:250-365 | under any schedule of crashes and boots each visit is published at most once, if and only if no attempt that published came from a probe that failed on a good clip |
| `PipelineTheorems.AttemptLimit` | detection/visit_runtime.py:296-364 | on every run, when an entry is marked again, attempt b >= 3 has been made if and only if a crash cut it short; the attempts counted on disk are the finalizer calls made |
| `PipelineTheorems.MoreCallsNeedACrash` | detection/visit_runtime.py:73-80 | on every run, more than three finalizer calls for one visit mean that a crash cut the third short |
| `PipelineTheorems.ReturnKeepsExactly` | detection/visit_runtime.py:331-364 | an attempt that returns keeps its entry if and only if it published nothing and was the first or second |
| `PipelineLosses.HopelessForever` | detection/recording.py:1148-1165 | on any path, a visit with no pending output and nothing left to make a clip from is never published again |
| `PipelineLosses.MarkedMayPublish` | detection/visit_runtime.py:292-331 | once an entry is marked, some continuation publishes its visit if and only if its scratch held a whole segment when it was marked, whether or not it already has a clip |
| `PipelineLosses.DownMayPublish` | detection/visit_runtime.py:276-365 | while the worker is down, a visit no thread works on can still be published if and only if both its entry and scratch with a whole segment have survived |
| `PipelineLosses.FailedRecoveryIsFinal` | detection/visit_runtime.py:352-364 | once a recovery attempt has returned, no continuation publishes its visit: it is published in a later state if and only if this attempt published or it had a clip before |
| `PipelineLosses.CrashOrphansFinalizes` | detection/visit_runtime.py:681-685 | after a crash between steps or inside a batch, some continuation publishes a visit that was in the hands of a finalize thread, or handed over in that batch, if and only if the crash hit a drain whose table had not reached the disk and the scratch was still there |
| `PipelineLosses.RearmKillsFinalizes` | detection/visit_runtime.py:379-414 | no continuation publishes a visit that was in the hands of a finalize thread when a runner was armed; it is published later if and only if it already was |
| `PipelineLosses.ArmCostsExactly` | detection/visit_runtime.py:368-422 | after an arm a visit can still be published if and only if it could before and no finalize thread works on it; so a clip is lost just when a thread could still have finished it |
| `PipelineLeftovers.LeftoverSurvivesExactly` | detection/visit_runtime.py:465-469 | as long as a runner lives, an entry that recovery had left is on disk if and only if no open was accepted since the arm and no drain has ended; some continuation publishes it if and only if it is on disk and had scratch |
| `PipelineExamples.ToggleLosesTheClip` | detection/detect.py:2204-2212 | a run without any crash in which turning the flag off and on loses the clip of a visit that was handed over, for good |
| `PipelineExamples.CrashLosesTheClip` | detection/visit_runtime.py:681-685 | a run in which a crash after a complete drain loses a visit that was handed over, for good |
| `PipelineExamples.FloorOutrunsTheCopies` | detection/visit_runtime.py:633-645 | a run in which the window handed over claims thirty seconds more than was copied, because the disk was full |
| `PipelineExamples.FirstWriteErasesLeftover` | detection/visit_runtime.py:352-364 | a run in which an entry left for a later retry after one attempt of three is erased by the first detection after the boot |
| `PipelineExamples.RetriedInVain` | detection/visit_runtime.py:352-364 | a run from the first boot in which an attempt with scratch returns without a clip and the next boot calls the finalizer again, which no continuation can make succeed |
| `PipelineExamples.CrashingRecoveryNeverGivesUp` | detection/visit_runtime.py:296-303 | for every n, a run from the first boot in which n boots die in the finalizer, with n calls for one visit and its entry still in place |
| `PipelineExamples.SlowProbePublishesTwice` | detection/visit_runtime.py:234-247 | a run from the first boot in which a clip published just before a crash is published over, because the probe fails on it |
| `Preroll.PrerollBuffer.SegmentsInRange` | detection/preroll.py:444-504 | exactly the segments whose time overlaps the closed band, in play order; none for a reversed band |
| `Preroll.PrerollBuffer.RingNewestMtime` | detection/preroll.py:506-526 | the newest modification time, if there is any file |
| `Preroll.PrerollBuffer.CopyNewSegments` | detection/preroll.py:528-661 | exactly the overlapping closed generations not copied before and not failing are appended, in play order; scratch names have no gap and no collision, and each generation appears once |
| `RingRuns.ScratchInPlayOrder` | detection/preroll.py:554-570 | whatever the ring did between calls, if no copy failed the scratch holds closed generations in strictly increasing order |
| `RingRuns.OrderKeptExactly` | detection/preroll.py:637-658 | a call, whichever of its copies fail, keeps the scratch in play order if and only if nothing it copies is older than something copied before |
| `RingRuns.OrderKeptOnRuns` | detection/preroll.py:637-658 | on any run, with restarts and failing copies, the scratch is in play order if and only if every call so far met that condition |
| `RingRuns.OutOfOrderExactly` | detection/preroll.py:637-658 | on any run the scratch is out of play order if and only if some call made good the copy of a segment on which an earlier call, that copied a newer one, had failed |
| `RingRuns.FailedCopyBreaksOrder` | detection/preroll.py:645-658 | a run with two calls, the first failing on the older of two segments, that leaves the scratch out of order |
| `RingRuns.HoldsLast` | detection/preroll.py:95-118 | the ring holds a write if and only if it is among the last capacity ones |
| `RingRuns.RestartTakesFirstSlot` | detection/preroll.py:95-118 | a recorder restart costs the ring exactly the write in slot 0 |
| `RingRuns.CopiedExactly` | detection/preroll.py:600-661 | on any run a generation is in scratch if and only if at some call it was in the ring, closed and in the band, and its copy did not fail |
| `RingRuns.TimelyCopyTakes` | detection/preroll.py:528-543 | a timely call, whatever its band and whichever copies fail, takes every generation that closed since the last call or passes it over |
| `RingRuns.NoFootageLost` | detection/preroll.py:539-544 | over rotations, recorder restarts and copies with any bands and failures, if nothing is overwritten between two calls, every generation that closed since the first call and that the window reaches is in scratch, but for those passed over |
| `RingRuns.PassedExactly` | detection/preroll.py:600-661 | passed over are exactly the generations that were closed at some call which failed on them or whose band ended before they began |
| `RingRuns.NothingPassed` | detection/visit_runtime.py:649-655 | when no copy fails and every call but the last asks up to now, nothing within the band of the last call is passed over |
| `RingRuns.TimelyExactly` | detection/preroll.py:95-118 | on any run without a recorder restart, nothing is overwritten between two calls if and only if the ring turned by less than its capacity (by no more than it, if the first of them found an empty ring) |
| `RingRuns.WithheldIsCopiedIff` | detection/preroll.py:605-636 | on any run without a recorder restart, the generation withheld as possibly unfinished is copied by the next call that asks for it if and only if the ring turned by at least one and less than its capacity; the slot being written is never copied |
| `ClipNames.NamesInOrder` | detection/preroll.py:637-642 | padded names of numbers below one million sort as the numbers do |
| `ClipNames.NameSpells` | detection/preroll.py:637-642 | a name spells its number, in six digits if and only if it is below one million |
| `ClipNames.MillionthNameIsOutOfOrder` | detection/preroll.py:642 | the next name sorts before its predecessor |
| `ClipNames.SortedNamesAscend` | detection/recording.py:1173-1179 | a listing sorted by name is in counting order while the names stay below one million |
| `ClipNames.ListingAscendsExactly` | detection/preroll.py:642 | a scratch of n segments, listed by name, is in counting order if and only if n is at most one million |
| `Recording.Recordings.FinalizeVisit` | detection/recording.py:1098-1165 | returns true if and only if every stage went well, the concat within the timeout its bytes allow, the decode clean, and the duration within 10.0 s of a nonempty window; then the clip is the concat of the playable segments in name order, otherwise no clip changes; scratch gone, permit back, no new temporary file, on every exit |
| `Recording.PublishesExactly` | detection/recording.py:924-1354 | what it takes to publish, in bytes, seconds and exit codes: second pass up to 256 MiB, the timeout, code 0 and a nonempty output, a clean decode, and for a nonempty window a probed duration within 10.0 s of it |
| `Recording.TotalBytesAdds` | detection/recording.py:1235-1240 | the size is the sum over the segments that can be measured |
| `Recording.FinalizeTimeout` | detection/recording.py:924-940 | between one minute and half an hour, and 300 seconds a gigabyte in between |
| `Recording.Recordings.FinalizeVisitLocked` | detection/recording.py:1167-1354 | the same under the permit, with the second pass only for small outputs; once the concat is reached neither temporary file nor list of the visit remains |
| `Recording.Recordings.ConcatAndPublish` | detection/recording.py:1247-1351 | each failing stage from the list to the rename leaves clips and temporary files as they were |
| `Recording.DecodeValidate` | detection/recording.py:987-1070 | true if and only if the decode ran with code 0 and no bad marker and, for a nonempty window, the probe gave a duration within 10.0 s of it |
| `Recording.FilterValidSegments` | detection/recording.py:212-287 | the playable segments, in the order given |
| `Recording.SortedListing` | detection/recording.py:1173-1179 | every scratch name once, sorted as strings |
| `Recording.ClipPlaysInOrder` | detection/recording.py:1173-1202 | a scratch in play order, with whatever a failed copy left behind, is concatenated in strictly increasing order and misses only what the probe rejects |
| `EndToEnd.ClipHasItsFootage` | detection/preroll.py:528-661 | on any run of the ring in which nothing is overwritten between calls and calls copy in order, a clip published from the scratch plays in strictly increasing order, only what was copied, and every generation that closed since the first call and that the window reaches, except what was passed over or the probe rejects |
| `EndToEnd.ClipHasItsWindow` | detection/visit_runtime.py:664-685 | with no failing copy and calls up to now but for the last, the clip has every generation in the last band that closed since the first call, except what the probe rejects |
| `Watchdog.MediaMtxWatchdog.OnCaptureOk` | detection/mediamtx_watchdog.py:127-140 | tally and level reset; true exactly when the level was not the bottom; the last action time stays |
| `Watchdog.MediaMtxWatchdog.OnCaptureFail` | detection/mediamtx_watchdog.py:142-144 | the tally grows by one, nothing else changes |
| `Watchdog.MediaMtxWatchdog.NextAction` | detection/mediamtx_watchdog.py:146-177 | acts exactly when debounced and it never acted, or the clock went back, or the gate is past; then the rung's action, one rung up, tally zero; otherwise nothing changes |
| `Watchdog.MediaMtxWatchdog.ResolveAction` | detection/mediamtx_watchdog.py:191-198 | the rung's action, never a reboot when reboots are disallowed |
| `Watchdog.MediaMtxWatchdog.Restore` | detection/mediamtx_watchdog.py:212-230 | level clamped to the ladder, bad or far-future times read as zero |
| `Watchdog.RestoreUndoesSnapshot` | detection/mediamtx_watchdog.py:202-230 | a saved state of the past is restored as it was |
| `Watchdog.GateKeepsDwellExactly` | detection/mediamtx_watchdog.py:179-189 | for any ladder, the gate after a rung keeps that rung's dwell if and only if the dwell it reads is no shorter |
| `Watchdog.DefaultGatesKeepDwell` | detection/mediamtx_watchdog.py:61-85 | on the default ladder every gate, the top one included, is the dwell of the action before it |
| `WatchdogRuns.InvOnEveryRun` | detection/detect.py:1423-1513 | what memory, file and history have in common after any run of failures, frames, deaths, restarts and host requests, from any state file |
| `WatchdogRuns.LadderSurvivesDeath` | detection/detect.py:1458-1504 | within an incident the persisted decisions are consecutive rungs from where it began, and the executed ones a subsequence, wherever workers die |
| `WatchdogRuns.NoRebootBeforeLowerRungs` | detection/mediamtx_watchdog.py:61-67 | a reboot decision comes only after every lower rung was decided |
| `WatchdogRuns.DwellAcrossRestarts` | detection/mediamtx_watchdog.py:69-85 | across restarts, consecutive persisted decisions are at least the dwell of the earlier action apart |
| `WatchdogRuns.FirstRebootIsLate` | detection/mediamtx_watchdog.py:61-85 | from the bottom, the first reboot decision is at least 6.5 cooldowns after the first decision |
| `WatchdogRuns.RebootsAreSpaced` | detection/detect.py:1191-1224 | any two reboot commands, ladder or host, are 1800 s apart per step between them, across clears and restarts; so a span of T holds at most T div 1800 plus one |
| `WatchdogRuns.AtMostThreeDecisionsPerLife` | detection/detect.py:1449-1513 | thirty failures per decision: a life without a real frame makes at most three decisions and stops by failure 101 |
| `WatchdogLaws.FailIsAnsweredExactly` | detection/mediamtx_watchdog.py:146-198 | a whole failure is answered if and only if it is at least the threshold-th since the last answer and the ladder never acted, or the clock went back, or the wait of the rung is over; then the rung's action is decided and carried out and the file has the next rung; failure 101 ends the life |
| `WatchdogLaws.FirstDecisionComes` | detection/mediamtx_watchdog.py:123-177 | a life that starts from a file without an action time makes its first decision at the threshold-th whole failure and none before |
| `WatchdogLaws.NextDecisionComes` | detection/mediamtx_watchdog.py:61-85 | on the default ladder a debounced failure makes the next decision if and only if the last action has had 0.75 cooldowns (server) or 2.5 (daemon, host) |
| `WatchdogLaws.FrameEndsIncident` | detection/detect.py:2098-2110 | on any run a whole frame step leaves the ladder at the bottom in memory and file, and no action time in the file if it had been climbed |
| `WatchdogLaws.NextIncidentStartsAtBottom` | detection/mediamtx_watchdog.py:127-140 | the decisions after a whole frame are those of the rungs 0, 1, 2 and so on |
| `WatchdogLaws.RebootComesLast` | detection/mediamtx_watchdog.py:61-85 | on the default ladder no reboot is decided after a whole frame before two server and two daemon restarts and 6.5 cooldowns |
| `WatchdogLaws.RebootsComeInTheEnd` | detection/mediamtx_watchdog.py:191-198 | from the fifth decision on each is a reboot, or a daemon restart where reboots are not allowed |
| `WatchdogLaws.RebootGoesOutExactly` | detection/detect.py:1191-1224 | on any run a host request is commanded, with its time on disk, if and only if the last known reboot is 1800 s ago, an unusable time counting as that of the epoch |
| `WatchdogLaws.LadderRebootGoesOutExactly` | detection/detect.py:1481-1504 | a reboot the ladder decides is commanded under the same condition |
| `DetectLoop.CaptureLoop.constructor` | detection/detect.py:1997-2014 | a worker starts where the file says, or from whatever corrupt values it holds |
| `DetectLoop.CaptureLoop.HandleCaptureFailure` | detection/detect.py:1423-1513 | the step of the run model: tally, decide, persist, drain, act, give up after the hundredth failure; the open visits are drained if and only if the ladder acts |
| `DetectLoop.CaptureLoop.ExecuteAction` | detection/detect.py:1481-1504 | an action can only be taken with the ladder on disk and every open visit handed over, the drained table on disk |
| `DetectLoop.CaptureLoop.PersistWatchdogLevel` | detection/detect.py:1064-1070 | level and action time reach the file; the reboot time stays |
| `DetectLoop.CaptureLoop.HandleFrame` | detection/detect.py:2098-2110 | a real frame resets tally and level in memory; a climbed ladder and its action time leave the file |
| `DetectLoop.CaptureLoop.ClearWatchdogEscalation` | detection/detect.py:1080-1086 | the persisted ladder is cleared when it was not at the bottom; the reboot time stays |
| `DetectLoop.CaptureLoop.DoReboot` | detection/detect.py:1191-1224 | the time is saved and the command goes out, unless that is inside the guard interval |
| `DetectLoop.CaptureLoop.RebootCommand` | detection/detect.py:1208-1220 | the reboot command can only go out with its time on disk |
| `Presence.IouInUnitInterval` | detection/presence.py:29-49 | overlap lies in [0, 1] and is symmetric |
| `Presence.IouInvariant` | detection/presence.py:29-49 | overlap does not change when both boxes are shifted and rescaled per axis |
| `PresenceLaws.IouCountsCells` | detection/presence.py:29-49 | for boxes with whole corners the overlap is the number of common unit cells over the number of all of them, and 0 without a common one |
| `PresenceLaws.IouOfItself` | detection/presence.py:29-49 | a box that is not degenerate overlaps itself fully |
| `Presence.PresenceTracker.ShouldEmitWithDecision` | detection/presence.py:97-168 | the verdict, the ledger's descriptor with transition, reason and overlap, and the new table |
| `Presence.PresenceTracker.Prune` | detection/presence.py:170-183 | lapsed presences go, and one longest unseen when still over the cap |
| `PresenceRuns.SuppressedIsRecorded` | detection/presence.py:130-161 | on every run a suppressed detection falls inside the clip of its key's latest emit |
| `PresenceRuns.EmitsAreSpaced` | detection/presence.py:105-161 | emits of a key the cap did not evict are at least min(min_gap, clip, gap) apart, and the table exceeds its cap by at most one |
| `PresenceLaws.EmitsExactly` | detection/presence.py:105-161 | on any run a detection emits if and only if it is the first of its key, or the first for longer than the gap, or its key was thrown out; or it is elsewhere and min_gap has passed since the latest emit; or it goes on and the clip of the latest emit has ended |
| `PresenceLaws.LedgerExactly` | detection/presence.py:136-168 | every emit is noted, and of the suppressed detections exactly the first since the latest emit that goes on where the one before was |
| `PresenceLaws.VictimIsLongestUnseen` | detection/presence.py:170-183 | the cap throws out one presence per call at most, and none that stays was last detected earlier |
| `PresenceRuns.OverCapExactly` | detection/presence.py:113-183 | on any run the table is over its cap if and only if the last fresh presence came when the cap was already full of unlapsed ones |
| `PresenceRuns.WithinCapExactly` | detection/presence.py:113-183 | one call leaves the table within its cap if and only if a presence goes on in a table within it, or a fresh one finds fewer than the cap unlapsed |
| `PresenceRuns.CapIsExceeded` | detection/presence.py:113-125 | a run of first sightings that fills the table to one more than its cap |
| `PresenceRuns.EmitsLikeReference` | detection/presence.py:105-183 | while the cap does not fire, the gate emits exactly when a gate that never forgets does, even on shifted and rescaled boxes |
| `Tracks.BuildPayload` | detection/tracks.py:53-99 | the samples of the window, stably sorted by offset; above the cap exactly 5000 of them at the thinning indices, a sorted subsequence |
| `Tracks.RenderedExactly` | detection/tracks.py:71-83 | exactly the samples from the clip's start to one second after its end are rendered, in input order, with their offsets |
| `Tracks.Round3IsNearest` | detection/tracks.py:81 | an offset is rounded to the nearest millisecond, ties to the even one |
| `Tracks.ThinningIsUniform` | detection/tracks.py:85-92 | the thinning indices run from the first to the last sample, strictly increase, and their gaps differ by at most one |

## Left out

- ffmpeg, ffprobe, systemctl, journal, HTTP posts, heartbeat and polling threads: only their possible outcomes enter, as parameters of the calls that use them.
- Inference, face recognition, capture files, zones, schedule, memory and thermal guards, metrics, client and server: not part of the recording core, or single-branch facts.
- Floating point: times, boxes and overlaps are reals, so rounding of sums and the decimal rounding of binary floats are not modelled.
- Malformed JSON in the open-visit table and I/O errors while writing it: entries are well typed and writes succeed; the watchdog's restore does model corrupt values.
- Contents of a visit's scratch inside the runner model: there scratch holds a whole segment or not; contents and order are the subject of the ring and finalize models.
- Crash points between a copy and the durable write of the same handler: a crash falls after a durable write, and what a copy left unrecorded is not modelled.
- Races inside the sweep: it is one step, so a finalize cannot slip between its removal of the scratch and of the temporary files.
- Deletion of clips by the server while the worker is down.
- Growing the ring (`ensure_capacity_for`) and the recorder's own restarts as processes: a restart enters as a rotation back to slot 0.
- `RingRuns.NoFootageLost`: takes a copy call as atomic with respect to rotations.
- `VisitRuntime.VisitRunner.CopySegments`: what the call leaves in scratch is a parameter here; which segments it copies is the subject of `Preroll.PrerollBuffer.CopyNewSegments`.
- `Recovery.CallFinalizer`: the calls that yield a clip are a parameter; when a finalize succeeds, and with which contents, is the subject of `Recording.Recordings.FinalizeVisit`.
- `Recording.Recordings.FinalizeVisit`: takes the concat output to hold exactly the listed segments.
- `Preroll.PrerollBuffer.SegmentsInRange`: order among equal modification times, which the program takes from the directory listing, is not stated.
- `PipelineTheorems.RecoveryStaysWithinCopies`: speaks of the band of the last copy call, not of which segments that call could copy.
- `Watchdog.MediaMtxWatchdog.Restore`: a level that is not an integer enters as one bad value.
- The legacy per-event clip recorder and its pre-roll merge, superseded by the finalize modelled here.
