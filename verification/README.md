# nixbot model

nixbot evaluates a flake, builds its attributes, reports to forges and runs
effects. This project models the parts of it that keep state between events,
and proves what they promise over every run. Code between two `await`s is one
atomic step, and what the service cannot know (build outcomes, cache answers,
arrival and completion order, clocks, cancellations) is an explicit choice.

**Incremental scheduler** (`Scheduler*.dfy`, `JobScheduler.dfy`).
`SchedulerState` gives the state of `JobScheduler` as a value and each step as
a function: a batch delivered, a ready job started or skipped, a build
finished. `SchedulerInvariant`, `SchedulerSteps` and `SchedulerRuns` prove that
every step keeps the jobs, the closure index and dispatch safety, and that the
loop ends. `SchedulerConfluence` proves that batches, arrival order, completion
order and truthful cache answers do not decide what succeeds. `Scheduling` has
the classes with their loops, proved to take only those steps. Hypotheses:
attributes are distinct within a batch, a derivation belongs to one attribute,
and dependencies have a rank (no cycle). `FailureConservesExactly` says what
goes wrong without the second one: a failure drops exactly the pending jobs
that share the failed derivation and are not its dependents. `AliasIsLost` is
such a run, accepted and finished, after which a fed job has no result.
`SchedulerOutcomes` lets each derivation end in any of the five ways, with both
modifiers: the jobs dispatched are exactly those with nothing failed or
cancelled upstream, and the others are cancelled or dependency-failed for such
a job. That needs dependencies not to be delivered after their dependents;
without it one half holds, and `LateDependencyIsNotSeen` is a run against the
other.

**Linked-context fan-out** (`LinkedFanout.dfy`, `Fanout*.dfy`). The runs of one
build, their lookups, and any number of contexts that attach to the build or
reuse it interleave. Under a lock, a lookup finds a row that is not cancelled
and returns it, or the row as it is by then if it updates the pull request, so
a cancelled record comes only from a cancellation between the two statements.
Posting a final status is four steps: nix-eval, nix-build as pending after a
successful eval, the guard against stale generations, the summary. A run frees
its slot before it clears the list of attached contexts, and frees it once more
then, so other runs can start beside it.

While nobody cancels the build from outside, its rows have one writer:
`StartsOnPresentRow` says that at most one outstanding record starts a run,
that it is the present row, and that no run is working on it. What is promised
beyond that needs grants the source does not make: earlier runs are over when a
run starts; contexts still attaching are on the list then; nobody cancels the
build from outside while no run holds its slot. `EvalExactly`: no nix-eval
check stays pending in any interleaving if and only if the first two are
granted. `BuildExactly`: no nix-build check does if and only if the first and
the third are. Each comes with the run from a new build that goes wrong without
the grant, through lookups alone. A build that is run once needs only the
third, and its contexts end with the status the run wrote when it starts from a
pending row, and only then: when a cancelled row is run again, a context can
read the old cancellation before the run resets it.

Which nix-eval check an event ends with is told by what served it last
(`ChecksFollow`): the fan-out of a run says whether the run aggregated, a
replay goes by the row and by whether there are attribute rows. The two can
differ. The events of one run agree in every interleaving if and only if it
does not leave attribute rows behind when it is cancelled after evaluating or
aborted as failed (`VerdictExactly`); a run that fails after a finished
evaluation takes its own success back.

**Log store** (`LogRetention`, `LogText`, `LogContainer`, `LogCapture`,
`LogScan`, `LogSearch`). Interleaved derivations are kept apart: what is packed
of one is what its own calls say, name, status, lines, phases and times.
Retention keeps the two halves and an exact elision line; phases come out at
their lines, from the call to the rendered log. Text goes through line
splitting, and the round trip of a stored line holds exactly when it contains
no line boundary: `setup_line` can store multi-line text, whose entry reads
back as more lines. The container's table is found from its trailing length,
every entry reads back in any order through the one-frame cache, and `search`
reports what a scan line by line reports up to ASCII case, with its positions,
bisection, empty derivations and cap. Compression and JSON are a faithful codec
whose frames are not empty.

**Live log** (`LogBuffer.dfy`, `LogStream.dfy`). Every byte is in the head,
dropped or in the tail, and the closed file is the stream, exactly when that
fits, or its first half, a note and a suffix as long as whole chunks allow. A
snapshot joined to its subscription is the whole stream within the head budget.
Past it, exactly the dropped bytes are missing, and the rest of a write that
crossed the budget and waits for the flush lock the snapshot holds;
`CrossingWriteIsLost` is a run where that happens.

**Slot pool** (`FairPool.dfy`, `FairGrants.dfy`). Slots are conserved under
every interleaving of acquire, release, cancellation and resumption; turns are
FIFO within a key and round-robin between keys. A turn that goes to a waiter
already cancelled is no grant: between two grants of a waiting key every other
key gets at most one exactly when none of its turns was such.

**Supersede tracking** (`Canceller.dfy`). The two indexes are inverse to each
other and refine one map, and events are set exactly for builds that lose their
last context by supersede or pull-request close. A registration keeps agreement
exactly when a tracked build comes with its own project and does not replace
itself in its only context; a build row keeps its project and tree, which
implies it.

**Effects and schedules** (`EffectGraph`, `EffectTree`, `Schedules`,
`ScheduleSweep`). `validate_deps` returns exactly for closed acyclic graphs and
its errors are real. The tree draws each path down from a root as often as the
`after` lists spell it, which is once for every path exactly when no list
repeats itself; rows are in preorder, and connectors and columns tell whether a
sibling follows. Of a schedule, every occurrence that some sweep catches within
five minutes is enqueued once if and only if each mark is stamped before the
occurrence caught next. Marks stamped less than 55 minutes after their sweep
are, and with sweeps at most five minutes apart every occurrence is caught.

## Model

| member | source | states |
|---|---|---|
| SchedulerModel.JobClosuresOf | nixbot/nixbot/build_scheduler.py:220-232 | with distinct derivations a job's closure is its dependencies in flight without itself |
| SchedulerModel.ComputeReverseDeps | nixbot/nixbot/build_scheduler.py:182-188 | the loop gives exactly the inverse of the closure edges |
| SchedulerModel.GroupByDrv | nixbot/nixbot/build_scheduler.py:204-206 | each derivation gets its jobs in order |
| SchedulerModel.DependentsAreLeast | nixbot/nixbot/build_scheduler.py:196-202 | what is reachable through pending jobs is the least set closed under direct dependents |
| SchedulerModel.GetFailedDependents | nixbot/nixbot/build_scheduler.py:191-217 | the stack search returns exactly the jobs reachable from the failed one through edges between the given jobs, each once |
| SchedulerSort.StaticOrder | nixbot/nixbot/build_scheduler.py:178-179 | an order with dependencies first, or an error only if no rank exists |
| SchedulerSort.SortJobsByClosures | nixbot/nixbot/build_scheduler.py:171-179 | a permutation of the jobs with dependencies first |
| SchedulerSteps.SettledExactly | nixbot/nixbot/build_scheduler.py:522-548 | the settling fixpoint fails the least set of derivations closed under depending on a failed one, and keeps exactly the jobs with no failed dependency |
| SchedulerSteps.IngestKeepsInv | nixbot/nixbot/build_scheduler.py:509-555 | merging a batch keeps conservation, the index, dispatch safety and the records of failures |
| SchedulerSteps.StepKeepsInv | nixbot/nixbot/build_scheduler.py:408-458 | so does every other step |
| SchedulerInvariant.PruneKeepsInv | nixbot/nixbot/build_scheduler.py:346-348 | pruning along the static reverse edges removes a retired derivation from every closure |
| SchedulerInvariant.FailDependentsSafe | nixbot/nixbot/build_scheduler.py:350-363 | after failing the dependents no pending job depends on anything settled |
| SchedulerInvariant.FailDependentsKeepsInv | nixbot/nixbot/build_scheduler.py:350-363 | failing the dependents of a retiring job keeps the whole invariant |
| SchedulerInvariant.FailureConservesExactly | nixbot/nixbot/build_scheduler.py:354-358 | without distinct derivations, items are conserved if and only if no pending job shares the failed derivation outside its dependents |
| SchedulerAliases.AliasIsLost | nixbot/nixbot/build_scheduler.py:354-358 | two attributes of one derivation, the second arriving while the first builds and fails: a finished run in which the second has no result |
| SchedulerRuns.RunKeepsInv | nixbot/nixbot/build_scheduler.py:563-598 | the invariant after every run over well-formed batches |
| SchedulerRuns.IndexAgreement | nixbot/nixbot/build_scheduler.py:346-363 | after every run the pruned closure of each pending job equals the one computed from scratch |
| SchedulerRuns.DispatchSafety | nixbot/nixbot/build_scheduler.py:408-426 | a job starts only when none of its dependencies is failed, and no other is pending or running |
| SchedulerRuns.FinishedRunConserves | nixbot/nixbot/build_scheduler.py:385-406 | a finished run gave every failed evaluation and every supported job exactly one result |
| SchedulerRuns.ResentBatchIsNoop | nixbot/nixbot/build_scheduler.py:519-521 | delivering only seen attributes changes nothing but the order of the pending list |
| SchedulerRuns.SomeJobIsReady | nixbot/nixbot/build_scheduler.py:577-586 | with nothing running and jobs pending, some job is ready on acyclic dependencies |
| SchedulerRuns.StepDecreases | nixbot/nixbot/build_scheduler.py:577-586 | every step but a delivery decreases (pending, running) lexicographically |
| SchedulerConfluence.FinishedVerdict | nixbot/nixbot/build_scheduler.py:434-458 | when outcomes are truthful, a finished run succeeds for exactly the jobs that build, whatever its order |
| SchedulerConfluence.Confluence | nixbot/nixbot/build_scheduler.py:153-158 | two finished runs over the same items agree on the succeeded attributes and on success, for any batches, orders and truthful cache answers |
| SchedulerOutcomes.FinishedOutcomes | nixbot/nixbot/build_scheduler.py:434-458 | each derivation having any one of the five outcomes, a job of a finished run is not dispatched only when something it depends on, directly or not, ended Failure, FailureNoCache or WasCancelled, and is then dependency-failed or cancelled accordingly and names only such a job; every other job ends with the status of its own outcome, so a post-build failure is itself failed and stops nobody; when no dependency comes late the jobs dispatched are exactly those with none of the three upstream |
| SchedulerOutcomes.FinishedSuccess | nixbot/nixbot/build_scheduler.py:153-158 | the schedule is then a success if and only if everything evaluated, nothing failed or was cancelled upstream of anything, and every job ended as its modifiers ask |
| SchedulerOutcomes.DispatchConfluence | nixbot/nixbot/build_scheduler.py:434-458 | two finished runs over the same items, no dependency late in either, dispatch the same jobs, with all five outcomes and both modifiers |
| SchedulerOutcomes.OneBatchNames | nixbot/nixbot/build_scheduler.py:350-363 | when everything is delivered at once every attribute that fails for a dependency names one |
| SchedulerLate.LateDependencyIsNotSeen | nixbot/nixbot/build_scheduler.py:538-551 | the condition is needed: a finished run in which a job succeeds before its dependency is delivered, and the dependency fails |
| Scheduling.SchedulingState.Prune | nixbot/nixbot/build_scheduler.py:346-348 | the loop over recorded dependents is the prune step |
| Scheduling.SchedulingState.RecordDependents | nixbot/nixbot/build_scheduler.py:359-363 | one result per dependent, in order, and each is pruned |
| Scheduling.SchedulingState.FailDependents | nixbot/nixbot/build_scheduler.py:350-363 | exactly the transitive pending dependents are settled, found before anything is pruned |
| Scheduling.ResultEmitter.Flush | nixbot/nixbot/build_scheduler.py:247-252 | afterwards every result has been delivered once, in order |
| Scheduling.JobScheduler.SettlingPass | nixbot/nixbot/build_scheduler.py:528-547 | one pass over the candidates, and whether it settled any |
| Scheduling.JobScheduler.SettleToFixpoint | nixbot/nixbot/build_scheduler.py:526-548 | the loop ends, at the fixpoint of the passes |
| Scheduling.JobScheduler.PartitionJobs | nixbot/nixbot/build_scheduler.py:385-406 | failed evaluations get a record, supported jobs are kept, the rest is dropped |
| Scheduling.JobScheduler.Ingest | nixbot/nixbot/build_scheduler.py:509-555 | takes exactly a delivery step from a state of a run to a state of a run |
| Scheduling.JobScheduler.SkipPresent | nixbot/nixbot/build_scheduler.py:609-611 | a job whose output is in the local store is recorded and pruned without a build |
| Scheduling.JobScheduler.SkipKnownFailure | nixbot/nixbot/build_scheduler.py:613-627 | a cached failure is recorded, its dependents fail, then it is pruned |
| Scheduling.JobScheduler.StartOrSkip | nixbot/nixbot/build_scheduler.py:600-632 | the classification of a ready job takes one enabled step |
| Scheduling.JobScheduler.DispatchJob | nixbot/nixbot/build_scheduler.py:420-432 | a ready job leaves the pending list and the other ready jobs stay pending and ready |
| Scheduling.JobScheduler.DispatchReady | nixbot/nixbot/build_scheduler.py:408-432 | ends with no pending job ready, and tells whether any was |
| Scheduling.JobScheduler.ApplyOutcome | nixbot/nixbot/build_scheduler.py:434-458 | the result is recorded; Success and PostBuildFailure fail nothing, Failure and FailureNoCache fail the job and its transitive pending dependents, WasCancelled cancels them; then the job is pruned |
| Scheduling.JobScheduler.FinishJob | nixbot/nixbot/build_scheduler.py:434-458 | takes a finishing step, so the run stays a run and fewer builds are running |
| Scheduling.JobScheduler.WaitForProgress | nixbot/nixbot/build_scheduler.py:460-507 | takes the next batch, the end of input or finished builds, and always makes progress |
| Scheduling.JobScheduler.RunIncremental | nixbot/nixbot/build_scheduler.py:563-598 | ends with nothing pending or running, one result per accepted item, all delivered once and in order; the unresolvable branch is unreachable; the events are a finished run, so FinishedOutcomes says what it builds |
| Scheduling.JobScheduler.Run | nixbot/nixbot/build_scheduler.py:557-561 | is a finished run over one batch |
| Scheduling.NeverStuck | nixbot/nixbot/build_scheduler.py:255-264 | nothing running and nothing ready means nothing pending |
| RunAgreement.RunBothWays | nixbot/nixbot/build_scheduler.py:557-561 | `run` on all jobs and `run_incremental` on any split of them agree on what succeeds |
| RunAgreement.RunWithOutcomes | nixbot/nixbot/build_scheduler.py:563-598 | `run_incremental` on builds with fixed outcomes obeys the laws of FinishedOutcomes, FinishedSuccess and OneBatchNames |
| FanoutLookup.StepKeepsLook | nixbot/nixbot/db.py:66-93 | while nobody cancels from outside every step keeps: one run at most works on the row, one outstanding record at most starts a run, and it is the present row |
| FanoutLookup.RunKeepsLook | nixbot/nixbot/db_gen/builds.py:114-117 | the same after every interleaving, runs beside each other included |
| FanoutLookup.DispatchExactly | nixbot/nixbot/orchestrator.py:368-420 | an event runs a build it created, or a cancelled one that holds no slot; a decided one it replays at once; to any other it attaches |
| FanoutLookup.StartsOnPresentRow | nixbot/nixbot/orchestrator.py:383-388 | a dispatch that starts a run has the present row, no run works on it, and no other dispatch can start one |
| FanoutEval.StepKeepsInv | nixbot/nixbot/build_reuse.py:38-54 | with earlier runs over and attaching contexts listed at each start, every step keeps: each event without a final eval check is on a list still to be popped, or still to be posted to or replayed |
| FanoutEval.RunKeepsInv | nixbot/nixbot/build_run.py:592-620 | the same after every interleaving of runs, lookups, contexts and cancellations from outside |
| FanoutEval.NobodyStaysPending | nixbot/nixbot/build_reuse.py:94-114 | once all are done, no event's last eval check is pending and no list entry is left; ChecksFollow says which check it is |
| FanoutBuild.StepKeepsPending | nixbot/nixbot/status.py:547-577 | with earlier runs over at each start and no cancellation from outside, every step keeps: whoever set nix-build to pending still owes a post that the generation guard does not drop |
| FanoutBuild.RunKeepsPending | nixbot/nixbot/status.py:656-669 | the same after every interleaving |
| FanoutBuild.NoBuildStaysPending | nixbot/nixbot/status.py:656-689 | once all are done, no event's last nix-build check is pending, early readers and reusers included |
| FanoutAgreement.SingleRunSettles | nixbot/nixbot/build_reuse.py:38-74 | a build run once leaves no eval check and no list entry pending with nothing granted, and no nix-build check unless it is cancelled from outside |
| FanoutAgreement.ContextsAgree | nixbot/nixbot/build_reuse.py:57-74 | the last nix-build check of each event of one run is the status the run wrote, unless one of its reads saw the row before the reset |
| FanoutAgreement.FreshRunAgrees | nixbot/nixbot/build_run.py:592-617 | from a pending row every event ends with the run's status |
| FanoutVerdict.ChecksFollow | nixbot/nixbot/build_reuse.py:57-114 | with nothing granted, once all are done every event's last nix-eval check follows from what served it last: a replayed row SUCCEEDED gives success, CANCELLED gives cancelled, FAILED success exactly when there were attribute rows; a run gives success exactly when it aggregated, else cancelled or failure as it ended; and with the grants of NobodyStaysPending it is one of these |
| FanoutVerdict.SingleRunVerdicts | nixbot/nixbot/build_reuse.py:94-114 | after one run of a new build every event's nix-eval check is the verdict of the run or that of the row it wrote, so all are successes when it aggregated as succeeded or failed, and all cancelled when the evaluation was cancelled |
| FanoutVerdict.VerdictExactly | nixbot/nixbot/build_reuse.py:57-74 | the events of one run of a new build get the same nix-eval check in every interleaving if and only if it does not leave attribute rows behind when it ends cancelled after evaluating or aborted as failed |
| FanoutVerdict.CancelledAfterEvaluation | nixbot/nixbot/build_reuse.py:64-65 | a run cancelled while its attributes were built: its own event keeps the finished evaluation, an event that replays the row is told it was cancelled |
| FanoutVerdict.FailedWithAttributes | nixbot/nixbot/build_reuse.py:67-71 | a run aborted with attribute rows recorded: its own event is told the evaluation failed, an event that replays the row that it succeeded |
| FanoutVerdict.FailureTakesEvaluationBack | nixbot/nixbot/build_run.py:236-250 | a run that fails after a finished evaluation posts a failed evaluation over it |
| FanoutRuns.ClearingLosesContext | nixbot/nixbot/orchestrator.py:412-420 | a run from a new build: cancelled during a lookup, whose event runs it again beside the first run; a context of the second run loses its list entry to the first run's clearing, and its eval check stays pending |
| FanoutRuns.LateContextLost | nixbot/nixbot/build_reuse.py:43-49 | likewise, a context served before it announced itself reads the second run's pending row, and stays pending |
| FanoutRuns.SlotFreedTwice | nixbot/nixbot/orchestrator.py:417-420 | the first run frees the slot of the second, a third starts beside it on the present row, and the second's final status is dropped as stale: its nix-build check stays pending |
| FanoutRuns.OutsideCancelDrops | nixbot/nixbot/service.py:838-849 | a build cancelled from outside before its event is dispatched runs on an old record, and its final status is dropped as stale |
| FanoutRuns.EvalExactly | nixbot/nixbot/orchestrator.py:383-420 | no eval check stays pending in any interleaving if and only if earlier runs are over and every attaching context is on the list whenever a run starts |
| FanoutRuns.BuildExactly | nixbot/nixbot/status.py:656-669 | no nix-build check stays pending in any interleaving if and only if earlier runs are over whenever a run starts and nobody cancels from outside |
| FanoutRuns.RaceLeavesRecord | nixbot/nixbot/db.py:66-93 | how a cancelled row comes to be run: from a new build, a cancellation during a lookup leaves one record of it, beside an earlier pending one |
| FanoutRuns.EarlyReadDisagrees | nixbot/nixbot/build_reuse.py:47-54 | from what that leaves there is an interleaving of one run that ends with the old cancellation posted |
| FanoutRuns.AgreementExactly | nixbot/nixbot/orchestrator.py:412-420 | every interleaving of one run ends in agreement if and only if it starts from a pending row |
| LogRetention.AppendKeeps | nixbot/nixbot/logstore.py:41-48 | an append keeps the retained parts exact and the count never decreases |
| LogRetention.KeptLines | nixbot/nixbot/logstore.py:50-59 | the lines are all of them, or first half, one elision line with the exact count, last half; the count is their number |
| LogRetention.ElidedTells | nixbot/nixbot/logstore.py:57-58 | the elision line reads as the number of lines dropped |
| LogRetention.DerivationLog.AppendLine | nixbot/nixbot/logstore.py:41-48 | keeps the retention of every line it ever got |
| LogRetention.DerivationLog.CurrentLines | nixbot/nixbot/logstore.py:54-59 | returns the retained lines, as many as counted, with the phases in order |
| LogRetention.DerivationLog.RecordPhase | nixbot/nixbot/logstore.py:102-107 | a new phase is recorded after as many lines as are retained of all lines so far, a repeated one is not recorded |
| LogRetention.DerivationLog.Receive | nixbot/nixbot/logstore.py:95-100 | a line with its time is kept like any other; the first time starts the derivation and each one is its latest |
| LogRetention.DerivationLog.Announce | nixbot/nixbot/logstore.py:102-107 | the same with a time, which becomes the latest |
| LogRetention.PhasesByLine | nixbot/nixbot/logstore.py:240-242 | groups the phases by line, in order |
| LogRetention.LinesWithPhases | nixbot/nixbot/logstore.py:234-248 | the lines when markers are erased, and every phase recorded no later than their end, once, in order and at its line, with the marker text written out |
| LogText.SplitIsClean | nixbot/nixbot/logstore.py:232 | a line read back never has a line boundary in it |
| LogText.SplitExactly | nixbot/nixbot/logstore.py:232 | any text is its lines and their boundaries one after the other; no boundary stands in a line, and a line feed after a carriage return belongs to it |
| LogText.RoundTripExactly | nixbot/nixbot/logstore.py:175 | stored lines come back if and only if none contains a line boundary |
| LogContainer.UnpackPack | nixbot/nixbot/logstore.py:199 | the 32-bit little-endian length is recovered |
| LogContainer.Finalize | nixbot/nixbot/logstore.py:153-199 | frames, table, length and magic; groups follow each other, close with the text that reaches the group size, and every entry points at its text |
| LogContainer.Flush | nixbot/nixbot/logstore.py:162-171 | the buffered texts become the next frame and their entries get its offset and length |
| LogContainer.TableRecovered | nixbot/nixbot/logstore.py:209-212 | the table is found from the trailing length |
| LogContainer.OffsetsIncrease | nixbot/nixbot/logstore.py:166-170 | frame offsets strictly increase |
| LogContainer.GroupOf | nixbot/nixbot/logstore.py:173-195 | every entry is in a group |
| LogContainer.FrameDecodes | nixbot/nixbot/logstore.py:223-227 | the bytes at an entry's offset decompress to its group's texts |
| LogContainer.EntryText | nixbot/nixbot/logstore.py:182-183 | an entry's byte range in its frame is its text |
| LogContainer.ContainerRoundTrip | nixbot/nixbot/logstore.py:229-232 | every entry gives back the writer's lines if and only if none has a line boundary, for any group size |
| LogContainer.RetainedStaysClean | nixbot/nixbot/logstore.py:58-59 | the elision line has no line boundary, so retention keeps the round trip |
| LogCapture.LogContainerWriter.Get | nixbot/nixbot/logstore.py:80-86 | a derivation gets a log of its own at its first mention, named as told or by its path, at the end of the order; every other log is as before |
| LogCapture.LogContainerWriter.AddLine | nixbot/nixbot/logstore.py:92-100 | every derivation holds what the calls say of it, now with this line: no other derivation changes |
| LogCapture.LogContainerWriter.AddPhaseOf | nixbot/nixbot/logstore.py:102-107 | the same for a phase: it goes to its derivation, where PhasesExactly says, and to no other |
| LogCapture.LogContainerWriter.SetStatus | nixbot/nixbot/logstore.py:109-110 | the same for a status |
| LogCapture.LogContainerWriter.RegisterDrv | nixbot/nixbot/logstore.py:88-90 | the same for a name before any line |
| LogCapture.LogContainerWriter.StopDrv | nixbot/nixbot/logstore.py:112-113 | the same for the last time |
| LogCapture.InterleavingIsLost | nixbot/nixbot/logstore.py:62-67 | what the calls say of a derivation is what its own calls say |
| LogCapture.ViewExactly | nixbot/nixbot/logstore.py:92-107 | that is the lines that arrived, and the phases announced without immediate repetitions, in order and within the retained lines |
| LogCapture.PhasesExactly | nixbot/nixbot/logstore.py:102-107 | from the calls alone: the phases are the announcements that do not repeat the latest one, in order, each with its name and the number of lines retained of those received before it |
| LogCapture.ColumnsExactly | nixbot/nixbot/logstore.py:80-113 | from the calls alone: the latest name and status, the time of the first line that has one, the latest time; an empty first name is the path |
| LogCapture.FirstSeenExactly | nixbot/nixbot/logstore.py:80-86 | the derivations mentioned, each once, by first mention |
| LogCapture.LogContainerWriter.Collect | nixbot/nixbot/logstore.py:173-189 | one record per derivation in first-seen order, each column as PhasesExactly and ColumnsExactly have it, with the retained lines |
| LogCapture.LogContainerWriter.Pack | nixbot/nixbot/logstore.py:153-199 | the container holds those records, and reads back, for every derivation, the retained lines it got, when they have no line boundary |
| LogCapture.RenderCaptured | nixbot/nixbot/logstore.py:234-248 | from the calls to the reader: an entry rendered is its derivation's retained lines and one marker per announcement, in order; before a marker stand as many lines as were retained then, and the very lines received before the announcement while these are in the kept head or nothing is elided |
| LogContainer.LogContainerReader.constructor | nixbot/nixbot/logstore.py:209-215 | a reader on a finalized container has the writer's table and an empty cache |
| LogContainer.LogContainerReader.Frame | nixbot/nixbot/logstore.py:223-227 | returns the frame asked for, cached or not |
| LogContainer.LogContainerReader.ReadLines | nixbot/nixbot/logstore.py:229-232 | the round trip in any read order, through the cache |
| LogContainer.LogContainerReader.RenderedLines | nixbot/nixbot/logstore.py:234-248 | the same with the record's phases put back at their lines |
| LogScan.ScanMembers | nixbot/nixbot/logstore.py:250-252 | the reference scan reports a line number exactly when that line contains the query |
| LogScan.ScanIgnoresCase | nixbot/nixbot/logstore.py:253-264 | the scan of lower-cased lines for the lower-cased query lists each line number as often as the query stands in the line up to ASCII case |
| LogScan.PosLinesScan | nixbot/nixbot/logstore.py:270-283 | byte positions in the text, with the newlines before them, give the scan line by line |
| LogScan.OccursInside | nixbot/nixbot/logstore.py:271-283 | an occurrence that starts in a text lies in it |
| LogSearch.BisectRight | nixbot/nixbot/logstore.py:275 | how many starts are at most the position |
| LogSearch.BisectHolds | nixbot/nixbot/logstore.py:275-276 | the bisection finds the text a position is in, where empty texts share its start too |
| LogSearch.LineInMember | nixbot/nixbot/logstore.py:273-282 | the line counted from the frame's start less the lines before the member is the line in the member |
| LogSearch.Bases | nixbot/nixbot/logstore.py:261-269 | bytes and lines before each member |
| LogSearch.GroupEntries | nixbot/nixbot/logstore.py:255-257 | each frame's members in table order, each frame once |
| LogSearch.GroupAt | nixbot/nixbot/logstore.py:255-262 | the members found at an offset are the entries of one frame |
| LogSearch.SortKeeps | nixbot/nixbot/logstore.py:260 | the members are in order already |
| LogSearch.SearchFrame | nixbot/nixbot/logstore.py:263-283 | the cursor loop records every occurrence of the frame at its entry and line, and touches no other entry |
| LogSearch.SearchGroup | nixbot/nixbot/logstore.py:259-283 | after a round the entries of one more frame have exactly what the scan finds |
| LogSearch.SortedKeys | nixbot/nixbot/logstore.py:284 | the hits in increasing order |
| LogSearch.Search | nixbot/nixbot/logstore.py:250-284 | reports exactly the derivations with a line that contains the query up to ASCII case, in order, each with the first line numbers at which it does, as often as it does |
| LogBuffer.PutHeadKeepsInv | nixbot/nixbot/executor.py:285-299 | the head part of a write loses no byte |
| LogBuffer.PutTailKeepsInv | nixbot/nixbot/executor.py:300-311 | nor does its tail part, and the tail stays within its limit |
| LogBuffer.BytesConserved | nixbot/nixbot/executor.py:285-311 | bytes seen are head, dropped, tail and suspended rest; truncated exactly when bytes were dropped; head and tail fit the size limit |
| LogBuffer.NothingDroppedExactly | nixbot/nixbot/executor.py:300-311 | nothing is dropped if and only if the stream without the suspended rest fits the size limit |
| LogBuffer.TailIsLongest | nixbot/nixbot/executor.py:304-311 | each dropped chunk with what followed it exceeds the half of the limit that is for the tail: no chunk that fits is lost |
| LogBuffer.CloseFile | nixbot/nixbot/executor.py:337-347 | head, note and tail make the closed file |
| LogBuffer.MarkerTells | nixbot/nixbot/executor.py:339-345 | the note reads as the number of bytes dropped |
| LogBuffer.ClosedFileBound | nixbot/nixbot/executor.py:339-345 | the closed file exceeds the size limit by the note at most |
| LogWriting.LogWriter.Write | nixbot/nixbot/executor.py:285-311 | a write extends the stream and keeps every byte accounted for; what goes past the head is in the tail or among the dropped chunks |
| LogWriting.LogWriter.WriteHead | nixbot/nixbot/executor.py:295-299 | what fits the budget goes to the frames, the rest is returned |
| LogWriting.LogWriter.KeepTail | nixbot/nixbot/executor.py:300-311 | the oldest chunks go, and are counted, only until the tail fits |
| LogWriting.LogWriter.AppendFrame | nixbot/nixbot/executor.py:313-319 | the bytes follow those on the way to the file |
| LogWriting.LogWriter.FlushFrame | nixbot/nixbot/executor.py:321-329 | the buffer moves to the file |
| LogWriting.LogWriter.Close | nixbot/nixbot/executor.py:337-347 | the file is the whole stream if and only if that fits the size limit; else its first half, the note and a true suffix, which with the last dropped chunk exceeds the other half |
| LogWriting.LogWriter.DrainTail | nixbot/nixbot/executor.py:344-346 | the tail reaches the frames in order |
| LogStream.StepKeepsInv | nixbot/nixbot/executor.py:246-283 | every write, flush, snapshot and take keeps each subscriber's view exact |
| LogStream.RunKeepsInv | nixbot/nixbot/executor.py:257-283 | the same after every interleaving |
| LogStream.SnapshotJoinsStream | nixbot/nixbot/executor.py:257-283 | history and queue are the whole stream if and only if the snapshot met no gap and no suspended rest; otherwise exactly those bytes are missing |
| LogStream.WithinHeadBudget | nixbot/nixbot/executor.py:246-283 | within the head budget they are the whole stream |
| LogStream.CrossingWriteIsLost | nixbot/nixbot/executor.py:295-302 | a write crossing the head budget during a snapshot loses its last byte to the subscriber |
| LogStream.QueuesStayRecent | nixbot/nixbot/executor.py:229-240 | overflowed or not, what a subscriber has queued is the end of the stream, in at most 256 chunks |
| FairPool.StepKeepsInv | nixbot/nixbot/executor.py:142-186 | every atomic step keeps the rotation, the queues, the turns and the slots |
| FairPool.RunKeepsInv | nixbot/nixbot/executor.py:142-186 | the same after every sequence of steps |
| FairPool.SlotsConserved | nixbot/nixbot/executor.py:166-186 | active slots are the granted and unreleased ones, within capacity, and none leaks once every call is gone |
| FairPool.FifoWithinKey | nixbot/nixbot/executor.py:178-186 | turns of a key come in arrival order, before all that still wait |
| FairPool.RoundRobin | nixbot/nixbot/executor.py:179-183 | while a key waits only keys that were ahead of it take turns, each once and then behind it, so at most as many as were ahead |
| FairGrants.TurnsKeepPace | nixbot/nixbot/executor.py:172-183 | while a key has someone in its queue, every other key takes at most one turn more than it does |
| FairGrants.GrantsKeepPace | nixbot/nixbot/executor.py:178-186 | and is granted at most one slot more, and one for each of its turns that went to a cancelled waiter |
| FairGrants.DeadTurnGrantsTwice | nixbot/nixbot/executor.py:178-186 | a run in which a key is granted two slots between two grants of a waiting one, after one such turn |
| FairGrants.OneGrantExactly | nixbot/nixbot/executor.py:178-186 | between two grants of a waiting key every other key is granted at most one slot if and only if none of its turns went to a cancelled waiter |
| FairPool.StepKeepsSettled | nixbot/nixbot/executor.py:142-151 | waiters mean that all slots are taken, after every step but a release |
| FairPool.PopEmptiesQueues | nixbot/nixbot/executor.py:171-186 | a round of the dispatch loop leaves fewer queued calls |
| FairPool.FrontHasWaiter | nixbot/nixbot/executor.py:172-177 | the front key always has a waiter, so its empty branch is not taken |
| FairScheduling.FairScheduler.Acquire | nixbot/nixbot/executor.py:142-150 | takes a free slot at once, or queues |
| FairScheduling.FairScheduler.Dispatch | nixbot/nixbot/executor.py:170-186 | only pops, until no slot is free or nobody waits |
| FairScheduling.FairScheduler.PopOnce | nixbot/nixbot/executor.py:172-186 | one turn of the front key |
| FairScheduling.FairScheduler.Release | nixbot/nixbot/executor.py:166-168 | gives the slot back and dispatches |
| FairScheduling.FairScheduler.CancelWaiter | nixbot/nixbot/executor.py:152-153 | a waiting call is cancelled |
| FairScheduling.FairScheduler.ResumeGranted | nixbot/nixbot/executor.py:152 | a granted call returns holding its slot |
| FairScheduling.FairScheduler.HandleCancellation | nixbot/nixbot/executor.py:153-164 | a call cancelled before its grant leaves its queue, one cancelled after it gives the slot back |
| Canceller.KeysSeparate | nixbot/nixbot/canceller.py:38-51 | two events share a key exactly when they are the same pull request, the same plain branch or refs with the same parent |
| Canceller.PullRefsCollapse | nixbot/nixbot/canceller.py:46-48 | merge and head refs of a pull request have one key |
| Canceller.KeysExactly | nixbot/nixbot/canceller.py:38-51 | a key is `pr/` and the decimal number, a pull-request ref up to its last slash, or `branch/` and the branch |
| Canceller.RegisterAgreesExactly | nixbot/nixbot/canceller.py:93-134 | a registration keeps the indexes inverse if and only if a tracked build comes with its project and does not replace itself in its only context |
| Canceller.RegisterCancelsExactly | nixbot/nixbot/canceller.py:99-134 | it moves at most its own context, and sets exactly the event of a build left without context; none on duplicate or stale |
| Canceller.OutcomeExactly | nixbot/nixbot/canceller.py:104-134 | a registration is a duplicate when a tracked build of the same tree has its context, stale when one of another tree has it and the incoming commit is older, new otherwise |
| Canceller.CompleteAgrees | nixbot/nixbot/canceller.py:151-157 | completing keeps the indexes inverse |
| Canceller.CompleteExactly | nixbot/nixbot/canceller.py:151-157 | completing frees exactly the build's contexts and sets no event |
| Canceller.CancelAgrees | nixbot/nixbot/canceller.py:159-169 | closing a pull request keeps the indexes inverse |
| Canceller.CancelPrExactly | nixbot/nixbot/canceller.py:159-169 | it frees its context and cancels its build exactly when none is left |
| Canceller.CallKeeps | nixbot/nixbot/canceller.py:76-169 | every call keeps the indexes as one map from contexts to builds |
| Canceller.SupersedeExactness | nixbot/nixbot/canceller.py:70-169 | over every run the indexes agree and the set events are exactly those of builds that lost their last context other than by completing |
| Canceller.TrackedExactly | nixbot/nixbot/canceller.py:93-134 | over every run a tracked build has the project, tree and commit it was registered with when tracking began, and the cancel event of its latest registration |
| Canceller.SelfReplacementDangles | nixbot/nixbot/canceller.py:121-133 | a build registered with another tree in its only context is cancelled and leaves a dangling context |
| Cancelling.CancellationManager.RegisterBuild | nixbot/nixbot/canceller.py:76-134 | is that registration |
| Cancelling.CancellationManager.Release | nixbot/nixbot/canceller.py:136-149 | frees a context, and cancels the build when it was the last |
| Cancelling.CancellationManager.CompleteBuild | nixbot/nixbot/canceller.py:151-157 | the loop frees every context of the build |
| Cancelling.CancellationManager.CancelPullRequest | nixbot/nixbot/canceller.py:159-169 | tells whether the pull request had a build in flight, and afterwards it has none |
| Cancelling.CancellationManager.RunningCommit | nixbot/nixbot/canceller.py:171-178 | the commit of the context's build, present for every tracked context |
| EffectGraph.OrderedIsAcyclic | nixbot_effects/nixbot_effects/graph.py:38-60 | a graph with dependencies first is closed and has no cycle |
| EffectGraph.Validator.Visit | nixbot_effects/nixbot_effects/graph.py:44-57 | finishes an effect after its dependencies, or reports a real cycle or unknown dependency |
| EffectGraph.ValidateDeps | nixbot_effects/nixbot_effects/graph.py:38-60 | returns if and only if the graph is closed and acyclic |
| EffectGraph.MultiplicityExactly | nixbot_effects/nixbot_effects/graph.py:66-68 | a path is to be drawn exactly when it leads down from a root, and at most once when no `after` repeats itself |
| EffectGraph.OnceExactly | nixbot_effects/nixbot_effects/graph.py:70-73 | in a valid graph every root path is to be drawn once if and only if no `after` repeats itself |
| EffectGraph.RepeatedAfterIsValid | nixbot_effects/nixbot_effects/graph.py:70-73 | `b` after `a` twice is a valid graph whose path from `a` to `b` is drawn twice |
| EffectGraph.SomeRootPath | nixbot_effects/nixbot_effects/graph.py:88-90 | every effect of a valid graph ends some path from a root |
| EffectTree.SortSorts | nixbot_effects/nixbot_effects/graph.py:82 | the same names in alphabetical order |
| EffectTree.TextLeqExactly | nixbot_effects/nixbot_effects/graph.py:82 | alphabetical: a prefix first, else the smaller character where two names first differ |
| EffectTree.Children | nixbot_effects/nixbot_effects/graph.py:70-73 | each effect's children, as often as they mention it |
| EffectTree.Drawing.Walk | nixbot_effects/nixbot_effects/graph.py:81-86 | ends, and draws every path below an effect as often as it is to be drawn, in preorder and laid out as a tree |
| EffectTree.SiblingExactly | nixbot_effects/nixbot_effects/graph.py:83-86 | what the rows below tell of a depth: a sibling of the effect there is drawn after its whole subtree |
| EffectTree.RootsOnce | nixbot_effects/nixbot_effects/graph.py:88 | every root is started from once |
| EffectTree.RenderTree | nixbot_effects/nixbot_effects/graph.py:63-91 | errors exactly as validation does, and otherwise draws every path as often as it is to be drawn and no other, parents before children, siblings in alphabetical order; the text is the rows line by line, each its columns, four characters a depth, which tell whether a sibling follows there, then the name and the lock if any |
| EffectTree.RootPathsDrawn | nixbot_effects/nixbot_effects/graph.py:63-91 | so exactly the paths from roots are drawn, every effect at least once, and each path once if and only if no `after` repeats itself |
| Schedules.FindDue | nixbot/nixbot/schedules.py:69-78 | the most recent occurrence in the five-minute window |
| Schedules.OccursExactly | nixbot/nixbot/schedules.py:49-60 | a minute of a day is an occurrence when its minute is the one stated, its hour and day of the month are among those stated, and the day is one of the weekdays stated, 5 January 1970 being a Monday |
| Schedules.ResolvedExactly | nixbot/nixbot/config.py:480-501 | an unset minute comes from the hash modulo 60, an unset hour is every hour, weekdays are numbered from Monday, and an unknown one raises |
| Schedules.HourApart | nixbot/nixbot/schedules.py:49-60 | two occurrences are at least an hour apart |
| Schedules.DueIsCaught | nixbot/nixbot/schedules.py:69-78 | a sweep finds an occurrence exactly when it comes less than five minutes after it |
| Schedules.FiredExactly | nixbot/nixbot/schedules.py:203-234 | every caught occurrence is enqueued once if and only if, for each with the one caught next, the first sweep that catches it is stamped before the next one |
| Schedules.LostExactly | nixbot/nixbot/schedules.py:203-234 | a caught occurrence is lost if and only if one enqueued before it was stamped at or after it |
| Schedules.PromptIsInTime | nixbot/nixbot/schedule_runner.py:44-66 | marks stamped less than 55 minutes after their sweep are in time |
| Schedules.ExactlyOnce | nixbot/nixbot/schedule_runner.py:42-72 | with sweeps at most five minutes apart and marks in time every occurrence between the first and last sweep is enqueued once |
| Schedules.OnlyOccurrences | nixbot/nixbot/schedules.py:203-234 | nothing else is enqueued, nothing twice, nothing early or late, however late the marks |
| Schedules.LateMarkLoses | nixbot/nixbot/schedules.py:273-280 | a mark stamped an hour late loses the next occurrence |
| ScheduleSweep.DueIsSelected | nixbot/nixbot/db_gen/scheduled.py:94-97 | the query leaves out no row that is due |
| ScheduleSweep.ScheduledEffectsStore.DueEffects | nixbot/nixbot/schedules.py:203-234 | the due rows in order; malformed specs are skipped |
| ScheduleSweep.ScheduledEffectsStore.MarkRun | nixbot/nixbot/schedules.py:273-280 | stamps the row with that key and no other |
| ScheduleSweep.ScheduledEffectsStore.SweepOnce | nixbot/nixbot/schedule_runner.py:44-66 | enqueues what is due and then marks it, row by row as the single-schedule rule says |
| ScheduleSweep.SweepLoop | nixbot/nixbot/schedule_runner.py:42-72 | over any number of rounds and stored schedules, each schedule fires its caught occurrences once exactly if its marks are in time, and all occurrences if sweeps are frequent too |

## Left out

- Ingest: graphlib's CycleError is excluded by the rank of the dependencies; derivation graphs have no cycles.
- RunIncremental: jobs that share a derivation are excluded, because a failure loses their results (FailureConservesExactly); cancelling the loop itself, which stops in-flight executor tasks, is not modelled.
- ApplyOutcome: writes to the failed-build cache are part of the cache answers, and URLs and times in error texts are dropped.
- Confluence: failed attributes may differ in why they failed (own build, dependency or cache); requireFailure, ignoreFailure and cancellation are excluded by hypothesis; FinishedOutcomes and DispatchConfluence have them.
- FinishedOutcomes: a job with both a failure and a cancellation upstream ends as either, by which of them is seen first.
- ChecksFollow: the attribute rows of a build are one flag, set or cleared while a run evaluates and set while it builds.
- NobodyStaysPending: reporter failures, tag and branch deliveries, the stale-event path, runs without a terminal write and a later post-processing error are not modelled; the rows of the database are atomic variables.
- StartsOnPresentRow: restarts, which reset a finished row and run it outside a dispatch, and builds recovered after a crash are not modelled.
- BuildExactly: posted generations are never forgotten; the source drops the oldest ones past a limit, which only posts more. Of the cancellations from outside only that of a whole build is modelled.
- StepKeepsPending: in the fan-out the statuses before a terminal one are one pending status, and runs and contexts are a state machine on values rather than objects.
- RoundTripExactly: text is its UTF-8 bytes.
- Finalize: the compression level, and the live views of the writer (`nlines`, `entry`, `failing`, `state`), are left out.
- Search: the query is ASCII, because lower-casing other text and lower-casing its bytes differ in the source.
- Write: one pump writes a log at a time, and `tail_lines` with its recent buffer is left out.
- WithinHeadBudget: of a subscriber whose queue overflowed only QueuesStayRecent is stated; a close during a snapshot is left out.
- FairScheduler: a capacity below one, which raises ValueError, is a precondition.
- RegisterBuild: in-flight builds are values under their id; a build object that was popped while being registered again is one that stays untracked.
- RenderCaptured: a table of four gigabytes or more, which struct.pack refuses, gives no container; phases of text with line boundaries stay at their recorded numbers while the lines move.
- SweepLoop: rounds that fail part-way, the work queue's own deduplication and replacing the stored schedules between rounds are left out; the day of the month and the hash of a schedule name are parameters.
- Forge clients, webhooks, web routes, git, nix evaluation, sandboxes and uploads are I/O.
- Status classification, retry backoff and `when` matching of events are settled by reading one branch.
