/** The scheduler's mutable state and loop, proved to take only the steps of `SchedulerState`. */
module Scheduling {
  import opened Wrappers
  import opened SchedulerModel
  import opened SchedulerSort
  import Steps = SchedulerState
  import opened SchedulerState
  import opened SchedulerInvariant
  import opened SchedulerSteps
  import opened SchedulerRuns

  /** `_State`: shared by the loop helpers. `events` is the run so far. */
  class SchedulingState {
    var results: seq<AttributeResult>
    var pending: seq<Job>
    var closures: Closures
    var running: seq<Job>
    var reverseDeps: Closures
    var failed: set<Drv>
    var cancelled: set<Drv>
    var seen: set<string>
    ghost var events: seq<Event>

    ghost function View(): State
      reads this
    {
      State(results, pending, closures, running, reverseDeps, failed, cancelled, seen)
    }

    /** The state is that of the run `events`, and the run kept the invariant. */
    ghost predicate Valid(env: Env)
      reads this
    {
      && WellFormed(Batches(events))
      && Exec(env, events) == Some(View())
    }

    constructor (ghost env: Env)
      ensures Valid(env) && events == [] && View() == Initial
    {
      results, pending, closures, running := [], [], map[], [];
      reverseDeps, failed, cancelled, seen := map[], {}, {}, {};
      events := [];
    }

    /** `prune`: discards `drv` from the closures of its recorded dependents. */
    method Prune(drv: Drv)
      requires Covered(closures, reverseDeps)
      modifies this`closures
      ensures View() == Steps.Prune(old(View()), drv)
    {
      var todo := if drv in reverseDeps then reverseDeps[drv] else {};
      ghost var all := todo;
      while todo != {}
        invariant todo <= all <= old(closures).Keys
        invariant closures == map k | k in old(closures) ::
                                if k in all - todo then old(closures)[k] - {drv} else old(closures)[k]
        decreases |todo|
      {
        var dependent :| dependent in todo;
        closures := closures[dependent := closures[dependent] - {drv}];
        todo := todo - {dependent};
      }
      assert closures == PruneClosures(old(closures), reverseDeps, drv);
    }

    /** The final loop of `fail_dependents`: each dependent gets its result and is pruned. */
    method RecordDependents(job: Job, status: Status, dependents: seq<Job>)
      requires Covered(closures, reverseDeps)
      modifies this`results, this`closures
      ensures results == old(results) + DependencyResults(dependents, status, job.attr)
      ensures closures == PruneAll(old(closures), reverseDeps, dependents)
    {
      hide Covered, PruneClosures;
      for i := 0 to |dependents|
        invariant results == old(results) + DependencyResults(dependents[..i], status, job.attr)
        invariant closures == PruneAll(old(closures), reverseDeps, dependents[..i])
        invariant Covered(closures, reverseDeps)
      {
        var dependent := dependents[i];
        assert dependents[..i + 1][..i] == dependents[..i];
        results := results + [SuccessResult(dependent, status, None, Some(job.attr))];
        PruneRemoves(closures, reverseDeps, dependent.drv);
        Prune(dependent.drv);
      }
      assert dependents[..|dependents|] == dependents;
    }

    /** `fail_dependents`: the dependents are found before anything is pruned. */
    method FailDependents(job: Job, status: Status) returns (dependents: seq<Job>)
      requires Covered(closures, reverseDeps)
      modifies this`results, this`pending, this`closures, this`failed, this`cancelled
      ensures IsDependents(old(View()), job, dependents)
      ensures View() == Steps.FailDependents(old(View()), job, status, dependents)
    {
      hide Dependents, Covered, Select, Drvs, PruneAll, DependencyResults;
      dependents := GetFailedDependents(job, pending, closures);
      var settled := {job.drv} + Drvs(dependents);
      failed := failed + settled;
      if status == Cancelled {
        cancelled := cancelled + settled;
      }
      pending := Select(pending, settled, false);
      RecordDependents(job, status, dependents);
    }
  }

  /** `_ResultEmitter`: `delivered` is what on_result saw. */
  class ResultEmitter {
    var emitted: nat
    var delivered: seq<AttributeResult>

    constructor ()
      ensures emitted == 0 && delivered == []
    {
      emitted, delivered := 0, [];
    }

    /** Delivers the results not delivered yet, in order and once each. */
    method Flush(results: seq<AttributeResult>)
      requires emitted == |delivered| && delivered <= results
      modifies this
      ensures emitted == |delivered| && delivered == results
    {
      while emitted < |results|
        invariant emitted == |delivered| && delivered <= results
        decreases |results| - emitted
      {
        delivered := delivered + [results[emitted]];
        emitted := emitted + 1;
      }
    }
  }

  class JobScheduler {
    const env: Env

    constructor (env: Env)
      ensures this.env == env
    {
      this.env := env;
    }

    /** One settling pass of `_ingest` over the candidates. */
    method SettlingPass(candidates: seq<Job>, failed: set<Drv>, cancelled: set<Drv>, results: seq<AttributeResult>)
      returns (st: Settling, settledAny: bool)
      ensures st == SettlePass(candidates, Settling([], failed, cancelled, results))
      ensures settledAny <==> |st.results| != |results|
    {
      st, settledAny := Settling([], failed, cancelled, results), false;
      for i := 0 to |candidates|
        invariant st == SettlePass(candidates[..i], Settling([], failed, cancelled, results))
        invariant settledAny <==> |st.results| != |results|
      {
        assert candidates[..i + 1][..i] == candidates[..i];
        var job := candidates[i];
        var blocking := job.Deps() * st.failed;
        if blocking != {} {
          var cancel := blocking <= st.cancelled;
          var status := if cancel then Cancelled else DependencyFailed;
          st := Settling(st.remaining, st.failed + {job.drv},
                         if cancel then st.cancelled + {job.drv} else st.cancelled,
                         st.results + [SuccessResult(job, status, None, None)]);
          settledAny := true;
        } else {
          st := st.(remaining := st.remaining + [job]);
        }
      }
      assert candidates[..|candidates|] == candidates;
    }

    /** Passes until nothing more settles. */
    method SettleToFixpoint(jobs: seq<Job>, failed: set<Drv>, cancelled: set<Drv>, results: seq<AttributeResult>)
      returns (st: Settling)
      ensures st == SettleAll(jobs, failed, cancelled, results)
    {
      hide SettlePass;
      var settledAny;
      st, settledAny := SettlingPass(jobs, failed, cancelled, results);
      ghost var left := jobs;
      while settledAny
        invariant if settledAny then |st.remaining| < |left|
                  && SettleAll(st.remaining, st.failed, st.cancelled, st.results)
                                                                  == SettleAll(jobs, failed, cancelled, results)
                  else st == SettleAll(jobs, failed, cancelled, results)
        decreases settledAny, |st.remaining|
      {
        left := st.remaining;
        st, settledAny := SettlingPass(st.remaining, st.failed, st.cancelled, st.results);
      }
    }

    /** `_partition_jobs` */
    method PartitionJobs(items: seq<EvalJob>) returns (failures: seq<AttributeResult>, jobs: seq<Job>)
      ensures failures == EvalFailures(items) && jobs == Buildable(items, env.supported)
    {
      failures, jobs := [], [];
      for i := 0 to |items|
        invariant failures == EvalFailures(items[..i]) && jobs == Buildable(items[..i], env.supported)
      {
        assert items[..i + 1][..i] == items[..i];
        match items[i]
        case JobError(attr, error) =>
          failures := failures + [AttributeResult(attr, FailedEval, items[i], Some(error), None, None)];
        case JobSuccess(_, _, _, _, _, system, _, _, _, _) =>
          if system in env.supported {
            jobs := jobs + [items[i]];
          }
      }
      assert items[..|items|] == items;
    }

    /** `_ingest`; acyclic dependencies rule out graphlib's CycleError. */
    method Ingest(state: SchedulingState, batch: seq<EvalJob>, ghost rank: Drv -> nat)
      requires state.Valid(env)
      requires WellFormed(Batches(state.events) + [batch])
      requires Acyclic(FedItems(Batches(state.events) + [batch]), rank)
      modifies state
      ensures state.Valid(env)
      ensures Batches(state.events) == old(Batches(state.events)) + [batch]
      ensures state.running == old(state.running) && old(state.results) <= state.results
    {
      hide WellFormed, SettleAll, EvalFailures, Buildable, JobClosures, ReverseDeps, FreshOf, DepsFirst, Acyclic,
           FedItems, Exec, Batches, Drvs, Attrs, Ranked;
      ghost var s := state.View();
      var news := FreshOf(batch, state.seen);
      var failures, newJobs := PartitionJobs(news);
      var st := SettleToFixpoint(state.pending + newJobs, state.failed, state.cancelled, state.results + failures);
      var runningDrvs := Drvs(state.running);
      var closures := JobClosures(st.remaining, runningDrvs);
      KeptWasFed(env, state.events, s, batch);
      ClosuresRanked(st.remaining, runningDrvs, FedItems(Batches(state.events) + [batch]), rank);
      ClosureKeys(st.remaining, runningDrvs);
      var sorted := SortJobsByClosures(st.remaining, closures);
      if sorted.None? {
        assert false;
      }
      state.seen := state.seen + Attrs(news);
      state.results, state.failed, state.cancelled := st.results, st.failed, st.cancelled;
      state.closures := closures;
      state.reverseDeps := ComputeReverseDeps(closures);
      state.pending := sorted.value;
      ghost var e := Deliver(batch, sorted.value);
      SettlingKeepsResults(s.pending + newJobs, s.failed, s.cancelled, s.results + failures);
      ExtendRun(env, state.events, s, e);
      state.events := state.events + [e];
    }

    /** The output is in the local store: recorded without a build. */
    method SkipPresent(state: SchedulingState, job: Job)
      requires state.Valid(env) && Enabled(env, state.View(), SkipLocal(job))
      modifies state`pending, state`results, state`closures
      ensures state.View() == Apply(env, old(state.View()), SkipLocal(job))
    {
      hide Remove, PruneClosures, Covered, Inv;
      ghost var s := state.View();
      var r := SuccessResult(job, SkippedLocal, None, None);
      state.pending := Remove(state.pending, job);
      state.results := state.results + [r];
      RunKeepsInv(env, state.events);
      RetiringIsCovered(s, state.View(), job, r, FedItems(Batches(state.events)), env.supported);
      state.Prune(job.drv);
    }

    /** A cached failure counts as a failure: dependents are failed before pruning. */
    method SkipKnownFailure(state: SchedulingState, job: Job, error: string) returns (dependents: seq<Job>)
      requires state.Valid(env) && job in state.pending
      modifies state`pending, state`results, state`closures, state`failed, state`cancelled
      ensures IsDependents(SkipFailedState(old(state.View()), job, error), job, dependents)
      ensures state.View() == Steps.Prune(Steps.FailDependents(
                SkipFailedState(old(state.View()), job, error), job, DependencyFailed, dependents), job.drv)
    {
      hide Remove, PruneClosures, Covered, Inv, IsDependents, Steps.FailDependents;
      ghost var s := state.View();
      var r := SuccessResult(job, CachedFailure, Some(error), None);
      state.pending := Remove(state.pending, job);
      state.results := state.results + [r];
      ghost var items := FedItems(Batches(state.events));
      RunKeepsInv(env, state.events);
      ghost var s1 := state.View();
      RetiringIsCovered(s, s1, job, r, items, env.supported);
      dependents := state.FailDependents(job, DependencyFailed);
      FailingIsCovered(s1, job, DependencyFailed, dependents, items, env.supported);
      state.Prune(job.drv);
    }

    /** `_classify` and its action on one ready job. */
    method StartOrSkip(state: SchedulingState, job: Job) returns (ghost e: Event)
      requires state.Valid(env)
      requires job in state.pending && Ready(state.closures, job)
      modifies state`pending, state`results, state`closures, state`failed, state`cancelled, state`running
      ensures Dispatches(e, job) && Enabled(env, old(state.View()), e)
      ensures state.View() == Apply(env, old(state.View()), e)
    {
      hide WellFormed, Remove, IsDependents, Steps.FailDependents, Steps.Prune, Exec, Batches;
      if !job.requireFailure && job.cacheStatus == Some(Local) {
        SkipPresent(state, job);
        return SkipLocal(job);
      }
      if !job.requireFailure && !job.ignoreFailure && env.mayHit(job.drv) {
        var hit := *;
        if hit {
          var dependents := SkipKnownFailure(state, job, "skipped due to cached failure");
          return SkipFailed(job, "skipped due to cached failure", dependents);
        }
      }
      state.pending := Remove(state.pending, job);
      state.running := state.running + [job];
      return Start(job);
    }

    /** Starts or skips one ready job and records the step. */
    method DispatchJob(state: SchedulingState, job: Job)
      requires state.Valid(env)
      requires job in state.pending && Ready(state.closures, job)
      modifies state
      ensures state.Valid(env) && Batches(state.events) == old(Batches(state.events))
      ensures |state.pending| < old(|state.pending|)
      ensures old(state.results) <= state.results && |state.running| >= old(|state.running|)
      ensures forall j :: j in old(state.pending) && j.drv != job.drv && Ready(old(state.closures), j) ==>
                j in state.pending && Ready(state.closures, j)
    {
      hide WellFormed, Inv, Enabled, Apply, Exec, Batches, Dispatches, Ready;
      ghost var s := state.View();
      RunKeepsInv(env, state.events);
      ghost var e := StartOrSkip(state, job);
      RecordDispatch(env, state.events, s, e, job, FedItems(Batches(state.events)));
      state.events := state.events + [e];
    }

    /** Starts or skips all dependency-free jobs, until none is left: skipping
        a job can free its dependents at once. */
    method DispatchReady(state: SchedulingState) returns (anyReady: bool)
      requires state.Valid(env)
      modifies state
      ensures state.Valid(env) && Batches(state.events) == old(Batches(state.events))
      ensures forall j :: j in state.pending ==> !Ready(state.closures, j)
      ensures |state.pending| <= old(|state.pending|) && (anyReady <==> |state.pending| < old(|state.pending|))
      ensures old(state.results) <= state.results && |state.running| >= old(|state.running|)
      ensures !anyReady ==> state.running == old(state.running)
    {
      hide WellFormed, Exec, Batches, Ready;
      anyReady := false;
      while true
        invariant state.Valid(env) && Batches(state.events) == old(Batches(state.events))
        invariant |state.pending| <= old(|state.pending|) && (anyReady <==> |state.pending| < old(|state.pending|))
        invariant old(state.results) <= state.results && |state.running| >= old(|state.running|)
        invariant !anyReady ==> state.running == old(state.running)
        decreases |state.pending|
      {
        var ready := ReadyJobs(state.pending, state.closures);
        ReadyMembers(state.pending, state.closures);
        if ready == [] {
          return;
        }
        anyReady := true;
        PendingDistinct(env, state.events, state.View());
        ReadyDistinct(state.pending, state.closures);
        label round:
        for i := 0 to |ready|
          invariant state.Valid(env) && Batches(state.events) == old(Batches(state.events))
          invariant old@round(state.results) <= state.results && |state.running| >= old@round(|state.running|)
          invariant |state.pending| <= old@round(|state.pending|)
                    && (i > 0 ==> |state.pending| < old@round(|state.pending|))
          invariant forall k :: i <= k < |ready| ==> ready[k] in state.pending && Ready(state.closures, ready[k])
        {
          DispatchJob(state, ready[i]);
        }
      }
    }

    /** `_finish_job`: records the result, fails the dependents of a failure, prunes. */
    method ApplyOutcome(state: SchedulingState, job: Job, outcome: BuildOutcome) returns (dependents: seq<Job>)
      requires state.Valid(env) && job in state.running
      modifies state`pending, state`results, state`closures, state`failed, state`cancelled, state`running
      ensures if Propagates(outcome) then IsDependents(FinishState(old(state.View()), job, outcome), job, dependents)
              else dependents == []
      ensures FailedBy(outcome, old(state.View()), job, dependents, state.View())
      ensures state.View() == Steps.Prune(
                if Propagates(outcome) then
                  Steps.FailDependents(FinishState(old(state.View()), job, outcome), job, PropagatedStatus(outcome),
                                       dependents)
                else FinishState(old(state.View()), job, outcome), job.drv)
    {
      hide Remove, PruneClosures, Covered, Inv, IsDependents, Steps.FailDependents, FailedBy;
      ghost var s := state.View();
      ghost var items := FedItems(Batches(state.events));
      RunKeepsInv(env, state.events);
      var (status, error) := OutcomeStatus(job, outcome);
      var r := SuccessResult(job, status, error, None);
      state.running := Remove(state.running, job);
      state.results := state.results + [r];
      ghost var s1 := state.View();
      FinishingIsCovered(s, s1, job, r, items, env.supported);
      dependents := [];
      if Propagates(outcome) {
        dependents := state.FailDependents(job, PropagatedStatus(outcome));
        FailingIsCovered(s1, job, PropagatedStatus(outcome), dependents, items, env.supported);
      }
      state.Prune(job.drv);
      OutcomeFails(s, job, outcome, dependents);
    }

    method FinishJob(state: SchedulingState, job: Job, outcome: BuildOutcome)
      requires state.Valid(env)
      requires job in state.running && outcome in env.outcomes(job)
      modifies state
      ensures state.Valid(env) && Batches(state.events) == old(Batches(state.events))
      ensures |state.pending| <= old(|state.pending|) && |state.running| < old(|state.running|)
      ensures old(state.results) <= state.results
    {
      hide WellFormed, Inv, IsDependents, Exec, Batches;
      ghost var s := state.View();
      var dependents := ApplyOutcome(state, job, outcome);
      ghost var e := Finish(job, outcome, dependents);
      RecordFinish(env, state.events, s, job, outcome, dependents);
      state.events := state.events + [e];
    }

    /** `_wait_for_progress`: a batch arrives, running builds finish, or both.
        `next` counts the batches taken; `open` is false after the sentinel. */
    method WaitForProgress(state: SchedulingState, emitter: ResultEmitter, batches: seq<seq<EvalJob>>,
                           next: nat, open: bool, ghost rank: Drv -> nat)
      returns (next': nat, open': bool)
      requires state.Valid(env) && next <= |batches| && Batches(state.events) == batches[..next]
      requires WellFormed(batches) && Acyclic(FedItems(batches), rank)
      requires forall job :: env.outcomes(job) != {}
      requires open || state.running != []
      requires emitter.emitted == |emitter.delivered| && emitter.delivered <= state.results
      modifies state, emitter
      ensures state.Valid(env) && next <= next' <= |batches| && Batches(state.events) == batches[..next']
      ensures emitter.emitted == |emitter.delivered| && emitter.delivered <= state.results
      ensures || next' > next || (next' == next && open && !open')
              || (next' == next && open' == open && |state.pending| <= old(|state.pending|)
                  && |state.running| < old(|state.running|))
      ensures open' ==> open
      ensures !open' ==> (open && next' == |batches|) || (!open && next' == next)
    {
      hide WellFormed, Acyclic, Exec, Batches, FedItems;
      next', open' := next, open;
      var item, done := open, false;
      if open && state.running != [] {
        item := *;
        done := *;
      }
      if state.running != [] && !item {
        done := true;
      }
      if item {
        if next == |batches| {
          open' := false;
        } else {
          PrefixGood(batches, next, rank);
          Ingest(state, batches[next], rank);
          next' := next + 1;
        }
      }
      label ingested:
      if done {
        var more := true;
        while more && state.running != []
          invariant state.Valid(env) && Batches(state.events) == batches[..next']
          invariant emitter.emitted == |emitter.delivered| && emitter.delivered <= state.results
          invariant |state.pending| <= old@ingested(|state.pending|)
          invariant |state.running| <= old@ingested(|state.running|)
          invariant !more ==> |state.running| < old@ingested(|state.running|)
          decreases |state.running|
        {
          assert state.running[0] in state.running;
          var job :| job in state.running;
          var outcome :| outcome in env.outcomes(job);
          FinishJob(state, job, outcome);
          emitter.Flush(state.results);
          more := *;
        }
      }
    }

    /** Schedules batches as they arrive, until the input has ended and nothing is pending or running. */
    method RunIncremental(batches: seq<seq<EvalJob>>, ghost rank: Drv -> nat)
      returns (results: seq<AttributeResult>, delivered: seq<AttributeResult>, ghost events: seq<Event>)
      requires WellFormed(batches) && Acyclic(FedItems(batches), rank)
      requires forall job :: env.outcomes(job) != {}
      ensures Exec(env, events).Some? && Batches(events) == batches
      ensures Exec(env, events).value.pending == [] && Exec(env, events).value.running == []
      ensures results == Exec(env, events).value.results && delivered == results
      ensures multiset(ResultItems(results)) == multiset(Accepted(FedItems(batches), env.supported))
    {
      hide WellFormed, Acyclic, Exec, Batches, FedItems, Ready, Accepted;
      var state := new SchedulingState(env);
      var emitter := new ResultEmitter();
      var next: nat, open := 0, true;
      NoBatches();
      while open || state.pending != [] || state.running != []
        invariant fresh(state) && fresh(emitter)
        invariant state.Valid(env) && next <= |batches| && Batches(state.events) == batches[..next]
        invariant !open ==> next == |batches|
        invariant emitter.emitted == |emitter.delivered| && emitter.delivered <= state.results
        decreases |batches| - next, open, |state.pending|, |state.running|
      {
        var anyReady := DispatchReady(state);
        emitter.Flush(state.results);
        if state.running == [] && !open {
          if state.pending != [] {
            PrefixAcyclic(batches, next, rank);
            NeverStuck(env, state.events, state.View(), rank);
          }
          if state.pending != [] && !anyReady {
            assert false;  // `_fail_unresolvable` is never reached
          }
          continue;
        }
        next, open := WaitForProgress(state, emitter, batches, next, open, rank);
      }
      emitter.Flush(state.results);
      assert batches[..|batches|] == batches;
      FinishedRunConserves(env, state.events);
      return state.results, emitter.delivered, state.events;
    }

    /** `run`: the whole evaluation as one batch. */
    method Run(jobs: seq<EvalJob>, ghost rank: Drv -> nat)
      returns (results: seq<AttributeResult>, ghost events: seq<Event>)
      requires WellFormed([jobs]) && Acyclic(FedItems([jobs]), rank)
      requires forall job :: env.outcomes(job) != {}
      ensures Exec(env, events).Some? && Batches(events) == [jobs]
      ensures Exec(env, events).value.pending == [] && Exec(env, events).value.running == []
      ensures results == Exec(env, events).value.results
      ensures multiset(ResultItems(results)) == multiset(Accepted(FedItems([jobs]), env.supported))
    {
      var delivered;
      results, delivered, events := RunIncremental([jobs], rank);
    }
  }

  /** What each outcome fails: nothing, when the derivation was built; the job and its dependents, as cancelled or not,
      when it was not. */
  ghost predicate FailedBy(outcome: BuildOutcome, s: State, job: Job, dependents: seq<Job>, s': State)
    requires job in s.running
  {
    match outcome
    case Success => s'.pending == s.pending && s'.failed == s.failed && s'.cancelled == s.cancelled
    case PostBuildFailure => s'.pending == s.pending && s'.failed == s.failed && s'.cancelled == s.cancelled
    case WasCancelled =>
      && IsDependents(FinishState(s, job, WasCancelled), job, dependents)
      && s'.failed == s.failed + ({job.drv} + Drvs(dependents))
      && s'.cancelled == s.cancelled + ({job.drv} + Drvs(dependents))
    case Failure =>
      && IsDependents(FinishState(s, job, Failure), job, dependents)
      && s'.failed == s.failed + ({job.drv} + Drvs(dependents)) && s'.cancelled == s.cancelled
    case FailureNoCache =>
      && IsDependents(FinishState(s, job, FailureNoCache), job, dependents)
      && s'.failed == s.failed + ({job.drv} + Drvs(dependents)) && s'.cancelled == s.cancelled
  }

  lemma OutcomeFails(s: State, job: Job, outcome: BuildOutcome, dependents: seq<Job>)
    requires job in s.running
    requires if Propagates(outcome) then IsDependents(FinishState(s, job, outcome), job, dependents)
             else dependents == []
    ensures FailedBy(outcome, s, job, dependents,
                     Steps.Prune(if Propagates(outcome) then
                                   Steps.FailDependents(FinishState(s, job, outcome), job, PropagatedStatus(outcome),
                                                        dependents)
                                 else FinishState(s, job, outcome), job.drv))
  {
    hide IsDependents, PruneClosures, PruneAll, Remove, OutcomeStatus, Select;
  }

  lemma NoBatches()
    ensures Batches([]) == []
  {
  }

  lemma {:induction false} FedPrefix(batches: seq<seq<EvalJob>>, n: nat)
    requires n <= |batches|
    ensures forall x :: x in FedItems(batches[..n]) ==> x in FedItems(batches)
    decreases |batches|
  {
    if n < |batches| {
      FedPrefix(batches[..|batches| - 1], n);
      assert batches[..|batches| - 1][..n] == batches[..n];
    } else {
      assert batches[..n] == batches;
    }
  }

  lemma PrefixAcyclic(batches: seq<seq<EvalJob>>, n: nat, rank: Drv -> nat)
    requires n <= |batches| && Acyclic(FedItems(batches), rank)
    ensures Acyclic(FedItems(batches[..n]), rank)
  {
    FedPrefix(batches, n);
  }

  lemma PrefixGood(batches: seq<seq<EvalJob>>, n: nat, rank: Drv -> nat)
    requires n < |batches| && WellFormed(batches) && Acyclic(FedItems(batches), rank)
    ensures WellFormed(batches[..n] + [batches[n]]) && Acyclic(FedItems(batches[..n] + [batches[n]]), rank)
    ensures batches[..n] + [batches[n]] == batches[..n + 1]
  {
    hide WellFormed, Acyclic, FedItems;
    assert batches[..n] + [batches[n]] == batches[..n + 1];
    WellFormedPrefix(batches[..n + 1], batches);
    PrefixAcyclic(batches, n + 1, rank);
  }

  /** Pending jobs with nothing running and nothing ready contradict acyclicity. */
  lemma {:induction false} NeverStuck(env: Env, events: seq<Event>, s: State, rank: Drv -> nat)
    requires Exec(env, events) == Some(s) && WellFormed(Batches(events)) && Acyclic(FedItems(Batches(events)), rank)
    requires s.running == [] && forall j :: j in s.pending ==> !Ready(s.closures, j)
    ensures s.pending == []
  {
    if s.pending != [] {
      RunKeepsInv(env, events);
      var job := SomeJobIsReady(s, FedItems(Batches(events)), env.supported, rank);
    }
  }

  lemma FinishingIsCovered(s: State, s': State, job: Job, r: AttributeResult, items: seq<EvalJob>,
                           supported: set<string>)
    requires Inv(s, {}, items, supported) && job in s.running && r.job == job
    requires s' == s.(running := Remove(s.running, job), results := s.results + [r])
    ensures Inv(s', {job.drv}, items, supported) && Covered(s'.closures, s'.reverseDeps)
  {
    RetireRunningKeepsInv(s, job, r, items, supported);
  }

  lemma RecordFinish(env: Env, events: seq<Event>, s: State, job: Job, outcome: BuildOutcome, dependents: seq<Job>)
    requires Exec(env, events) == Some(s) && Enabled(env, s, Finish(job, outcome, dependents))
    ensures var e := Finish(job, outcome, dependents);
            var s' := Apply(env, s, e);
            && Exec(env, events + [e]) == Some(s') && Batches(events + [e]) == Batches(events)
            && s.results <= s'.results && |s'.pending| <= |s.pending| && |s'.running| < |s.running|
  {
    ExtendRun(env, events, s, Finish(job, outcome, dependents));
    RemoveShrinks(s.running, job);
    SelectShrinks(s.pending, {job.drv} + Drvs(dependents));
  }

  /** The pending jobs with no dependency in flight, in order. */
  function ReadyJobs(pending: seq<Job>, closures: Closures): seq<Job> {
    if pending == [] then []
    else
      var last := pending[|pending| - 1];
      ReadyJobs(pending[..|pending| - 1], closures) + (if Ready(closures, last) then [last] else [])
  }

  lemma {:induction false} ReadyMembers(pending: seq<Job>, closures: Closures)
    ensures forall j :: j in ReadyJobs(pending, closures) <==> j in pending && Ready(closures, j)
  {
    if pending != [] {
      assert pending == pending[..|pending| - 1] + [pending[|pending| - 1]];
      ReadyMembers(pending[..|pending| - 1], closures);
    }
  }

  lemma {:induction false} ReadyDistinct(pending: seq<Job>, closures: Closures)
    requires Distinct(pending)
    ensures Distinct(ReadyJobs(pending, closures))
  {
    if pending != [] {
      var init, last := pending[..|pending| - 1], pending[|pending| - 1];
      ReadyDistinct(init, closures);
      ReadyMembers(init, closures);
      forall j | j in ReadyJobs(init, closures)
        ensures j.drv != last.drv
      {
        var i :| 0 <= i < |init| && init[i] == j;
        assert pending[i] == j;
      }
    }
  }

  lemma PendingDistinct(env: Env, events: seq<Event>, s: State)
    requires Exec(env, events) == Some(s) && WellFormed(Batches(events))
    ensures Distinct(s.pending)
  {
    RunKeepsInv(env, events);
    ConservedSeparates(s, FedItems(Batches(events)), env.supported);
  }

  /** What a dispatch does to the run and to the other jobs. */
  lemma RecordDispatch(env: Env, events: seq<Event>, s: State, e: Event, job: Job, items: seq<EvalJob>)
    requires Exec(env, events) == Some(s) && Enabled(env, s, e) && Dispatches(e, job)
    requires Inv(s, {}, items, env.supported)
    ensures var s' := Apply(env, s, e);
            && Exec(env, events + [e]) == Some(s') && Batches(events + [e]) == Batches(events)
            && s.results <= s'.results && |s'.running| >= |s.running| && |s'.pending| < |s.pending|
            && (forall j :: j in s.pending && j.drv != job.drv && Ready(s.closures, j) ==>
                  j in s'.pending && Ready(s'.closures, j))
  {
    hide Enabled, Apply, Inv;
    ReadyStaysReady(env, s, e, job, items);
    ExtendRun(env, events, s, e);
    DispatchGrows(env, s, e, job);
  }

  /** One more enabled event extends a run. */
  lemma ExtendRun(env: Env, events: seq<Event>, s: State, e: Event)
    requires Exec(env, events) == Some(s) && Enabled(env, s, e)
    ensures Exec(env, events + [e]) == Some(Apply(env, s, e))
    ensures Batches(events + [e]) == Batches(events) + (if e.Deliver? then [e.batch] else [])
  {
    assert (events + [e])[..|events + [e]| - 1] == events;
  }

  lemma {:induction false} SettlingKeepsResults(jobs: seq<Job>, failed: set<Drv>, cancelled: set<Drv>,
                                                results: seq<AttributeResult>)
    ensures results <= SettleAll(jobs, failed, cancelled, results).results
    decreases |jobs|
  {
    var a := Settling([], failed, cancelled, results);
    PassKeepsResults(jobs, a);
    var st := SettlePass(jobs, a);
    if |st.results| != |results| {
      SettlingKeepsResults(st.remaining, st.failed, st.cancelled, st.results);
    }
  }

  lemma {:induction false} PassKeepsResults(jobs: seq<Job>, a: Settling)
    ensures a.results <= SettlePass(jobs, a).results
  {
    if jobs != [] {
      PassKeepsResults(jobs[..|jobs| - 1], a);
    }
  }

  /** What settling keeps was fed. */
  lemma KeptWasFed(env: Env, events: seq<Event>, s: State, batch: seq<EvalJob>)
    requires Exec(env, events) == Some(s) && WellFormed(Batches(events) + [batch])
    ensures forall j :: j in Settled(s, env.supported, batch).remaining ==> j in FedItems(Batches(events) + [batch])
  {
    hide SettleAll, EvalFailures, Buildable, FreshOf, Inv, FedItems;
    var items := FedItems(Batches(events));
    var news := FreshOf(batch, s.seen);
    WellFormedPrefix(Batches(events), Batches(events) + [batch]);
    RunKeepsInv(env, events);
    InvSeen(s, items, env.supported);
    FedByBatch(Batches(events), batch);
    PendingIsFed(s, {}, items, env.supported);
    BuildableMembers(news, env.supported);
    SettledExactly(s.pending + Buildable(news, env.supported), s.failed, s.cancelled, s.results + EvalFailures(news),
                   {});
  }

  lemma ClosureKeys(jobs: seq<Job>, extra: set<Drv>)
    ensures JobClosures(jobs, extra).Keys == Drvs(jobs)
  {
  }

  /** The closures of acyclic jobs have a topological order. */
  lemma ClosuresRanked(jobs: seq<Job>, extra: set<Drv>, items: seq<EvalJob>, rank: Drv -> nat)
    requires Acyclic(items, rank) && forall j :: j in jobs ==> j in items
    ensures Ranked(JobClosures(jobs, extra), rank)
  {
    var closures := JobClosures(jobs, extra);
    forall k, d | k in closures && d in closures[k]
      ensures rank(d) < rank(k)
    {
      var j := LastWith(jobs, k);
    }
  }

  lemma {:induction false} BuildableMembers(items: seq<EvalJob>, supported: set<string>)
    ensures forall j :: j in Buildable(items, supported) ==> j in items
  {
    if items != [] {
      var init, last := items[..|items| - 1], items[|items| - 1];
      assert items == init + [last];
      BuildableMembers(init, supported);
    }
  }

  lemma RetiringIsCovered(s: State, s': State, job: Job, r: AttributeResult, items: seq<EvalJob>,
                          supported: set<string>)
    requires Inv(s, {}, items, supported) && job in s.pending && r.job == job
    requires s' == TakePending(s, job).(results := s.results + [r])
    ensures Inv(s', {job.drv}, items, supported) && Covered(s'.closures, s'.reverseDeps)
  {
    RetirePendingKeepsInv(s, job, r, items, supported);
  }

  lemma FailingIsCovered(s: State, job: Job, status: Status, dependents: seq<Job>, items: seq<EvalJob>,
                         supported: set<string>)
    requires Inv(s, {job.drv}, items, supported) && IsDependents(s, job, dependents)
    ensures Covered(FailDependents(s, job, status, dependents).closures, s.reverseDeps)
  {
    FailDependentsKeepsInv(s, job, status, dependents, items, supported);
  }

  /** The event is the dispatch of `job`. */
  predicate Dispatches(e: Event, job: Job) {
    match e
    case Start(j) => j == job
    case SkipLocal(j) => j == job
    case SkipFailed(j, _, _) => j == job
    case _ => false
  }

  lemma DispatchGrows(env: Env, s: State, e: Event, job: Job)
    requires Enabled(env, s, e) && Dispatches(e, job)
    ensures s.results <= Apply(env, s, e).results
    ensures |Apply(env, s, e).running| >= |s.running| && |Apply(env, s, e).pending| < |s.pending|
  {
    StepDecreases(env, s, e);
  }

  /** Dispatching one ready job leaves the other ready jobs pending and ready. */
  lemma ReadyStaysReady(env: Env, s: State, e: Event, job: Job, items: seq<EvalJob>)
    requires Inv(s, {}, items, env.supported) && Enabled(env, s, e) && Dispatches(e, job)
    ensures forall j :: j in s.pending && j.drv != job.drv && Ready(s.closures, j) ==>
              j in Apply(env, s, e).pending && Ready(Apply(env, s, e).closures, j)
  {
    hide Inv, Enabled, Apply, Remove, Ready;
    forall j | j in s.pending && j.drv != job.drv && Ready(s.closures, j)
      ensures j in Apply(env, s, e).pending && Ready(Apply(env, s, e).closures, j)
    {
      if e.SkipFailed? {
        StaysReadyPastFailure(env, s, job, e.error, e.dependents, items, j);
      } else {
        StaysReadyPastStart(env, s, e, job, j);
      }
    }
  }

  lemma {:induction false} OthersStayPending(jobs: seq<Job>, job: Job, j: Job)
    requires job in jobs && j in jobs && j != job
    ensures j in Remove(jobs, job)
  {
    hide Remove;
    assert j in multiset(Remove(jobs, job));
  }

  /** Pruning leaves an empty closure empty. */
  lemma PrunedStaysReady(s: State, drv: Drv, j: Job)
    requires Ready(s.closures, j)
    ensures Ready(Steps.Prune(s, drv).closures, j)
  {
  }

  lemma StaysReadyPastStart(env: Env, s: State, e: Event, job: Job, j: Job)
    requires Enabled(env, s, e) && Dispatches(e, job) && !e.SkipFailed?
    requires j in s.pending && j.drv != job.drv && Ready(s.closures, j)
    ensures j in Apply(env, s, e).pending && Ready(Apply(env, s, e).closures, j)
  {
    hide Remove, Ready, PruneClosures;
    OthersStayPending(s.pending, job, j);
    if e.SkipLocal? {
      var s1 := TakePending(s, job);
      PrunedStaysReady(s1.(results := s1.results + [SuccessResult(job, SkippedLocal, None, None)]), job.drv, j);
    }
  }

  lemma StaysReadyPastFailure(env: Env, s: State, job: Job, error: string, dependents: seq<Job>, items: seq<EvalJob>,
                              j: Job)
    requires Inv(s, {}, items, env.supported) && Enabled(env, s, SkipFailed(job, error, dependents))
    requires j in s.pending && j.drv != job.drv && Ready(s.closures, j)
    ensures j in Apply(env, s, SkipFailed(job, error, dependents)).pending
    ensures Ready(Apply(env, s, SkipFailed(job, error, dependents)).closures, j)
  {
    hide Remove, PruneClosures, PruneAll, IsDependents, Inv, Select, DependencyResults, Ready;
    var s1 := SkipFailedState(s, job, error);
    OthersStayPending(s.pending, job, j);
    InvParts(s, items, env.supported);
    RemovedDrvs(s.pending, job);
    DependentsSplit(s1, job, dependents);
    EmptyClosure(s.closures, j);
    ReadyIsNoDependent(s.closures, Drvs(s1.pending), job.drv, j.drv);
    PruneAllRemoves(s.closures, s.reverseDeps, dependents);
    StillEmpty(s.closures, PruneAll(s.closures, s.reverseDeps, dependents), Drvs(dependents), j);
    PrunedStaysReady(Steps.FailDependents(s1, job, DependencyFailed, dependents), job.drv, j);
  }

  lemma InvParts(s: State, items: seq<EvalJob>, supported: set<string>)
    requires Inv(s, {}, items, supported)
    ensures Separate(s) && Covered(s.closures, s.reverseDeps)
  {
    ConservedSeparates(s, items, supported);
  }

  lemma EmptyClosure(closures: Closures, j: Job)
    requires Ready(closures, j)
    ensures j.drv in closures ==> closures[j.drv] == {}
  {
  }

  lemma StillEmpty(closures: Closures, pruned: Closures, drvs: set<Drv>, j: Job)
    requires Ready(closures, j) && pruned.Keys == closures.Keys
    requires forall k :: k in closures ==> pruned[k] == closures[k] - drvs
    ensures Ready(pruned, j)
  {
  }

  lemma ReadyIsNoDependent(closures: Closures, within: set<Drv>, source: Drv, d: Drv)
    requires d in closures ==> closures[d] == {}
    ensures d !in Dependents(closures, within, source)
  {
    assert ClosedUnderDependents(closures, within, source, within - {d});
    DependentsAreLeast(closures, within, source, within - {d});
  }
}

/** `run` and `run_incremental` side by side. */
module RunAgreement {
  import opened SchedulerModel
  import opened SchedulerState
  import opened SchedulerInvariant
  import opened SchedulerRuns
  import opened SchedulerConfluence
  import opened SchedulerOutcomes
  import opened Scheduling

  /** The whole evaluation at once, and the same items in any batches, succeed for the same attributes. */
  method RunBothWays(whole: JobScheduler, split: JobScheduler, jobs: seq<EvalJob>, batches: seq<seq<EvalJob>>,
                     ghost rank: Drv -> nat, ghost ok: Drv -> bool)
    returns (a: seq<AttributeResult>, b: seq<AttributeResult>)
    requires whole.env.supported == split.env.supported
    requires WellFormed([jobs]) && Acyclic(FedItems([jobs]), rank) && WellFormed(batches)
             && Acyclic(FedItems(batches), rank)
    requires Delivered([jobs]) == Delivered(batches) && Consistent(Delivered([jobs]))
    requires forall job :: whole.env.outcomes(job) != {} && split.env.outcomes(job) != {}
    requires Truthful(whole.env, ok, FedItems([jobs])) && Truthful(split.env, ok, FedItems(batches))
    ensures AttrsWith(a, Succeeded) == AttrsWith(b, Succeeded)
            && AttrsWith(a, SkippedLocal) == AttrsWith(b, SkippedLocal)
    ensures ScheduleSuccess(a) <==> ScheduleSuccess(b)
  {
    hide WellFormed, Acyclic, FedItems, Delivered, Consistent, Truthful, AttrsWith, ScheduleSuccess, Exec, Batches;
    ghost var events1, events2;
    var delivered;
    a, events1 := whole.Run(jobs, rank);
    b, delivered, events2 := split.RunIncremental(batches, rank);
    Confluence(whole.env, events1, split.env, events2, ok);
  }

  /** `run_incremental` on builds that end as `fate` says: when no dependency comes late, the jobs dispatched are those
      with nothing failed or cancelled upstream, and only those have a result of their own. */
  method RunWithOutcomes(scheduler: JobScheduler, batches: seq<seq<EvalJob>>, ghost rank: Drv -> nat,
                         ghost fate: Drv -> BuildOutcome)
    returns (results: seq<AttributeResult>, ghost dispatched: set<EvalJob>)
    requires WellFormed(batches) && Acyclic(FedItems(batches), rank)
    requires forall job :: scheduler.env.outcomes(job) != {}
    requires Fated(scheduler.env, fate, Accepted(FedItems(batches), scheduler.env.supported))
    ensures var items := Accepted(FedItems(batches), scheduler.env.supported);
            && multiset(ResultItems(results)) == multiset(items)
            && (forall r :: r in results ==> Labelled(r))
            && (forall r :: r in results && r.job in dispatched && r.job.JobSuccess? ==>
                  && Ends(r.job, fate(r.job.drv), r.status) && ExplainsError(r, fate(r.job.drv))
                  && r.dependencyAttr.None?)
            && (forall r :: r in results && r.job !in dispatched && r.job.JobSuccess? ==>
                  || (r.status == Cancelled && Upstream(items, fate, {WasCancelled}, r.job)
                      && NamesOne(items, fate, {WasCancelled}, r))
                  || (r.status == DependencyFailed && Upstream(items, fate, {Failure, FailureNoCache}, r.job)
                      && NamesOne(items, fate, {Failure, FailureNoCache}, r)))
            && (InTime(batches, scheduler.env.supported) ==>
                  && (forall j: Job :: j in items ==>
                        (j in dispatched <==> !Upstream(items, fate, {Failure, FailureNoCache, WasCancelled}, j)))
                  && (ScheduleSuccess(results) <==>
                      forall x :: x in items ==>
                        && x.JobSuccess? && Fine(x, fate(x.drv))
                        && !Upstream(items, fate, {Failure, FailureNoCache, WasCancelled}, x)))
            && (|batches| <= 1 ==> NamedAll(results))
  {
    hide WellFormed, Acyclic, FedItems, Fated, InTime, Ends, Upstream, Exec, Batches, Accepted, Dispatched, Labelled,
         ExplainsError, NamesOne, NamedAll, Fine, ScheduleSuccess;
    ghost var events;
    var delivered;
    results, delivered, events := scheduler.RunIncremental(batches, rank);
    dispatched := Dispatched(events);
    FinishedOutcomes(scheduler.env, events, fate);
    if InTime(batches, scheduler.env.supported) {
      FinishedSuccess(scheduler.env, events, fate);
    }
    if |batches| <= 1 {
      OneBatchNames(scheduler.env, events);
    }
  }
}
