/**
 The scheduling state of `JobScheduler` and what each of its steps does to it.
 Choices the source leaves to set iteration order, to the build executor or to
 the failed-build cache are explicit arguments of a step.
 */
module SchedulerState {
  import opened Wrappers
  import opened SchedulerModel
  import opened SchedulerSort

  datatype Status = Succeeded | Failed | Cancelled | FailedEval | DependencyFailed | CachedFailure
                  | SkippedLocal | IgnoredFailure

  datatype BuildOutcome = Success | Failure | FailureNoCache | PostBuildFailure | WasCancelled

  datatype AttributeResult = AttributeResult(
    attr: string, status: Status, job: EvalJob, error: Option<string>, dependencyAttr: Option<string>,
    outPath: Option<string>)

  function SuccessResult(job: Job, status: Status, error: Option<string>,
                         dependencyAttr: Option<string>): AttributeResult {
    AttributeResult(job.attr, status, job, error, dependencyAttr, if job.depsOnly then None else job.outPath)
  }

  /** `outcome_status`: the hercules-ci modifiers requireFailure and ignoreFailure. */
  function OutcomeStatus(job: Job, outcome: BuildOutcome): (Status, Option<string>) {
    if outcome == WasCancelled then (Cancelled, None)
    else if job.requireFailure then
      if outcome == Failure then (Succeeded, None)
      else if outcome == Success then (Failed, Some("the build succeeded but requireFailure is set"))
      else (Failed, None)
    else if outcome != Success && job.ignoreFailure then (IgnoredFailure, None)
    else (if outcome != Success then Failed else Succeeded, None)
  }

  /** Outcomes that fail the dependents of the job. */
  predicate Propagates(outcome: BuildOutcome) {
    outcome != Success && outcome != PostBuildFailure
  }

  /** `ScheduleResult.success` */
  predicate ScheduleSuccess(results: seq<AttributeResult>) {
    forall r :: r in results ==>
      r.status !in {Failed, FailedEval, DependencyFailed, CachedFailure} && r.status != Cancelled
  }

  datatype State = State(
    results: seq<AttributeResult>, pending: seq<Job>, closures: Closures, running: seq<Job>,
    reverseDeps: Closures, failed: set<Drv>, cancelled: set<Drv>, seen: set<string>)

  const Initial := State([], [], map[], [], map[], {}, {}, {})

  // ---------------------------------------------------------------------------
  // Ingesting a batch
  // ---------------------------------------------------------------------------

  /** The items of a batch whose attribute was not seen before. */
  function FreshOf(batch: seq<EvalJob>, seen: set<string>): seq<EvalJob> {
    if batch == [] then []
    else
      var last := batch[|batch| - 1];
      FreshOf(batch[..|batch| - 1], seen) + (if last.attr in seen then [] else [last])
  }

  function Attrs(items: seq<EvalJob>): set<string> {
    set i | i in items :: i.attr
  }

  /** The failed-eval records of `_partition_jobs`. */
  function EvalFailures(items: seq<EvalJob>): seq<AttributeResult> {
    if items == [] then []
    else
      var last := items[|items| - 1];
      EvalFailures(items[..|items| - 1]) +
      (if last.JobError? then [AttributeResult(last.attr, FailedEval, last, Some(last.error), None, None)] else [])
  }

  /** The supported jobs of `_partition_jobs`. */
  function Buildable(items: seq<EvalJob>, supported: set<string>): seq<Job> {
    if items == [] then []
    else
      var last := items[|items| - 1];
      Buildable(items[..|items| - 1], supported) +
      (if last.JobSuccess? && last.system in supported then [last] else [])
  }

  datatype Settling = Settling(remaining: seq<Job>, failed: set<Drv>, cancelled: set<Drv>,
                               results: seq<AttributeResult>)

  /** One candidate: settled when it depends on a failed drv, else kept. */
  function SettleOne(st: Settling, job: Job): Settling {
    var blocking := job.Deps() * st.failed;
    if blocking == {} then st.(remaining := st.remaining + [job])
    else if blocking <= st.cancelled then
      Settling(st.remaining, st.failed + {job.drv}, st.cancelled + {job.drv},
               st.results + [SuccessResult(job, Cancelled, None, None)])
    else
      Settling(st.remaining, st.failed + {job.drv}, st.cancelled,
               st.results + [SuccessResult(job, DependencyFailed, None, None)])
  }

  /** One pass over the candidates, in order. */
  function SettlePass(jobs: seq<Job>, st: Settling): (r: Settling)
    ensures |r.remaining| + |r.results| == |st.remaining| + |st.results| + |jobs|
    ensures |r.results| >= |st.results|
  {
    if jobs == [] then st else SettleOne(SettlePass(jobs[..|jobs| - 1], st), jobs[|jobs| - 1])
  }

  /** Passes until one settles nothing. */
  function SettleAll(jobs: seq<Job>, failed: set<Drv>, cancelled: set<Drv>, results: seq<AttributeResult>): Settling
    decreases |jobs|
  {
    var st := SettlePass(jobs, Settling([], failed, cancelled, results));
    if |st.results| == |results| then st else SettleAll(st.remaining, st.failed, st.cancelled, st.results)
  }

  /** What `_ingest` settles of a batch before it rebuilds the closures. */
  function Settled(s: State, supported: set<string>, batch: seq<EvalJob>): Settling {
    var items := FreshOf(batch, s.seen);
    SettleAll(s.pending + Buildable(items, supported), s.failed, s.cancelled, s.results + EvalFailures(items))
  }

  /** `_ingest`; `order` is the sorted pending list. */
  function Ingest(s: State, supported: set<string>, batch: seq<EvalJob>, order: seq<Job>): State {
    var st := Settled(s, supported, batch);
    var closures := JobClosures(st.remaining, Drvs(s.running));
    State(st.results, order, closures, s.running, ReverseDeps(closures), st.failed, st.cancelled,
          s.seen + Attrs(FreshOf(batch, s.seen)))
  }

  ghost predicate CanIngest(s: State, supported: set<string>, batch: seq<EvalJob>, order: seq<Job>) {
    var st := Settled(s, supported, batch);
    && multiset(order) == multiset(st.remaining)
    && DepsFirst(JobClosures(st.remaining, Drvs(s.running)), order)
  }

  // ---------------------------------------------------------------------------
  // Pruning and failing
  // ---------------------------------------------------------------------------

  /** `_State.prune` on the closures. */
  function PruneClosures(closures: Closures, reverse: Closures, drv: Drv): (r: Closures)
    ensures r.Keys == closures.Keys
  {
    map k | k in closures :: if drv in reverse && k in reverse[drv] then closures[k] - {drv} else closures[k]
  }

  function Prune(s: State, drv: Drv): State {
    s.(closures := PruneClosures(s.closures, s.reverseDeps, drv))
  }

  function PruneAll(closures: Closures, reverse: Closures, jobs: seq<Job>): (r: Closures)
    ensures r.Keys == closures.Keys
  {
    if jobs == [] then closures
    else PruneClosures(PruneAll(closures, reverse, jobs[..|jobs| - 1]), reverse, jobs[|jobs| - 1].drv)
  }

  function DependencyResults(dependents: seq<Job>, status: Status, attr: string): seq<AttributeResult> {
    if dependents == [] then []
    else DependencyResults(dependents[..|dependents| - 1], status, attr)
         + [SuccessResult(dependents[|dependents| - 1], status, None, Some(attr))]
  }

  /** `dependents` lists the pending transitive dependents of `job`, in some order. */
  ghost predicate IsDependents(s: State, job: Job, dependents: seq<Job>) {
    multiset(dependents) == multiset(Select(s.pending, Dependents(s.closures, Drvs(s.pending), job.drv), true))
  }

  /** `_State.fail_dependents` */
  function FailDependents(s: State, job: Job, status: Status, dependents: seq<Job>): State {
    var settled := {job.drv} + Drvs(dependents);
    s.(failed := s.failed + settled,
       cancelled := if status == Cancelled then s.cancelled + settled else s.cancelled,
       pending := Select(s.pending, settled, false),
       results := s.results + DependencyResults(dependents, status, job.attr),
       closures := PruneAll(s.closures, s.reverseDeps, dependents))
  }

  // ---------------------------------------------------------------------------
  // Steps
  // ---------------------------------------------------------------------------

  /** What the scheduler cannot know: cache answers and build outcomes. */
  datatype Env = Env(supported: set<string>, mayHit: Drv -> bool, outcomes: Job -> set<BuildOutcome>)

  datatype Event =
    | Deliver(batch: seq<EvalJob>, order: seq<Job>)
    | Start(job: Job)
    | SkipLocal(job: Job)
    | SkipFailed(job: Job, error: string, dependents: seq<Job>)
    | Finish(job: Job, outcome: BuildOutcome, dependents: seq<Job>)

  /** `not state.job_closures.get(job.drv_path)` */
  predicate Ready(closures: Closures, job: Job) {
    job.drv in closures ==> closures[job.drv] == {}
  }

  function TakePending(s: State, job: Job): State
    requires job in s.pending
  {
    s.(pending := Remove(s.pending, job))
  }

  /** A ready job with a cached failure: recorded, and its dependents failed. */
  function SkipFailedState(s: State, job: Job, error: string): State
    requires job in s.pending
  {
    var s1 := TakePending(s, job);
    s1.(results := s1.results + [SuccessResult(job, CachedFailure, Some(error), None)])
  }

  /** A finished job with its result, before its dependents are looked at. */
  function FinishState(s: State, job: Job, outcome: BuildOutcome): State
    requires job in s.running
  {
    var (status, error) := OutcomeStatus(job, outcome);
    s.(running := Remove(s.running, job), results := s.results + [SuccessResult(job, status, error, None)])
  }

  function PropagatedStatus(outcome: BuildOutcome): Status {
    if outcome == WasCancelled then Cancelled else DependencyFailed
  }

  ghost predicate Enabled(env: Env, s: State, e: Event) {
    match e
    case Deliver(batch, order) => CanIngest(s, env.supported, batch, order)
    case Start(job) =>
      && job in s.pending && Ready(s.closures, job)
      && (job.requireFailure || job.cacheStatus != Some(Local))
    case SkipLocal(job) =>
      && job in s.pending && Ready(s.closures, job)
      && !job.requireFailure && job.cacheStatus == Some(Local)
    case SkipFailed(job, error, dependents) =>
      && job in s.pending && Ready(s.closures, job)
      && !job.requireFailure && job.cacheStatus != Some(Local) && !job.ignoreFailure && env.mayHit(job.drv)
      && IsDependents(SkipFailedState(s, job, error), job, dependents)
    case Finish(job, outcome, dependents) =>
      && job in s.running && outcome in env.outcomes(job)
      && (if Propagates(outcome) then IsDependents(FinishState(s, job, outcome), job, dependents) else dependents == [])
  }

  ghost function Apply(env: Env, s: State, e: Event): State
    requires Enabled(env, s, e)
  {
    match e
    case Deliver(batch, order) => Ingest(s, env.supported, batch, order)
    case Start(job) => TakePending(s, job).(running := s.running + [job])
    case SkipLocal(job) =>
      var s1 := TakePending(s, job);
      Prune(s1.(results := s1.results + [SuccessResult(job, SkippedLocal, None, None)]), job.drv)
    case SkipFailed(job, error, dependents) =>
      Prune(FailDependents(SkipFailedState(s, job, error), job, DependencyFailed, dependents), job.drv)
    case Finish(job, outcome, dependents) =>
      var s1 := FinishState(s, job, outcome);
      Prune(if Propagates(outcome) then FailDependents(s1, job, PropagatedStatus(outcome), dependents) else s1, job.drv)
  }
}
