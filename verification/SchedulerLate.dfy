/** A dependency that is delivered after its dependent was built. */
module SchedulerLate {
  import opened Wrappers
  import opened SchedulerModel
  import opened SchedulerSort
  import opened SchedulerState
  import opened SchedulerInvariant
  import opened SchedulerSteps
  import opened SchedulerRuns
  import opened SchedulerConfluence
  import opened SchedulerAliases
  import opened SchedulerOutcomes

  /** `job` is built before its dependency `dep` is known, and `dep` fails. */
  function LateRun(job: Job, dep: Job): seq<Event> {
    [Deliver([job], [job]), Start(job), Finish(job, Success, []),
     Deliver([dep], [dep]), Start(dep), Finish(dep, Failure, [])]
  }

  /** Nothing pending and nothing running. */
  function Idle(results: seq<AttributeResult>, seen: set<string>, drv: Drv, failed: set<Drv>): State {
    State(results, [], map[drv := {}], [], map[], failed, {}, seen)
  }

  function ResultOf(job: Job, outcome: BuildOutcome): AttributeResult {
    SuccessResult(job, OutcomeStatus(job, outcome).0, OutcomeStatus(job, outcome).1, None)
  }

  /** The only job finishes. */
  lemma FinishAlone(env: Env, results: seq<AttributeResult>, job: Job, seen: set<string>, outcome: BuildOutcome)
    requires outcome in env.outcomes(job) && (outcome == Success || outcome == Failure)
    ensures var s := SchedulerAliases.Delivered(results, job, [], seen).(pending := [], running := [job]);
            && Enabled(env, s, Finish(job, outcome, []))
            && Apply(env, s, Finish(job, outcome, []))
               == Idle(results + [ResultOf(job, outcome)], seen + {job.attr}, job.drv,
                       if outcome == Failure then {job.drv} else {})
  {
    hide OutcomeStatus, Dependents;
    var s := SchedulerAliases.Delivered(results, job, [], seen).(pending := [], running := [job]);
    assert Remove(s.running, job) == [];
    assert s.closures.Keys == {job.drv};
  }

  lemma LateBatches(job: Job, dep: Job)
    ensures Batches(LateRun(job, dep)) == [[job], [dep]]
  {
    hide Batches;
    var e := LateRun(job, dep);
    NoBatches();
    BatchesOne([], e[0]);
    BatchesOne([] + [e[0]], e[1]);
    BatchesOne([] + [e[0]] + [e[1]], e[2]);
    BatchesOne([] + [e[0]] + [e[1]] + [e[2]], e[3]);
    BatchesOne([] + [e[0]] + [e[1]] + [e[2]] + [e[3]], e[4]);
    BatchesOne([] + [e[0]] + [e[1]] + [e[2]] + [e[3]] + [e[4]], e[5]);
    assert [] + [e[0]] + [e[1]] + [e[2]] + [e[3]] + [e[4]] + [e[5]] == e;
    assert [] + [[job]] + [[dep]] == [[job], [dep]];
  }

  lemma LateExec(env: Env, job: Job, dep: Job)
    requires ToBuild(env, job) && ToBuild(env, dep) && job.attr != dep.attr
    requires Success in env.outcomes(job) && Failure in env.outcomes(dep)
    ensures Exec(env, LateRun(job, dep))
         == Some(Idle([ResultOf(job, Success), ResultOf(dep, Failure)], {job.attr, dep.attr}, dep.drv, {dep.drv}))
  {
    hide ToBuild, Enabled, Apply, Exec, ResultOf;
    var e := LateRun(job, dep);
    ExecNothing(env);
    DeliverOne(env, Initial, job);
    ExecOne(env, [], Initial, e[0]);
    var s1 := SchedulerAliases.Delivered([], job, [], {});
    StartOne(env, [], job, {});
    ExecOne(env, [] + [e[0]], s1, e[1]);
    FinishAlone(env, [], job, {}, Success);
    ExecOne(env, [] + [e[0]] + [e[1]], s1.(pending := [], running := [job]), e[2]);
    var s3 := Idle([] + [ResultOf(job, Success)], {} + {job.attr}, job.drv, {});
    DeliverOne(env, s3, dep);
    ExecOne(env, [] + [e[0]] + [e[1]] + [e[2]], s3, e[3]);
    var s4 := SchedulerAliases.Delivered(s3.results, dep, [], s3.seen);
    StartOne(env, s3.results, dep, s3.seen);
    ExecOne(env, [] + [e[0]] + [e[1]] + [e[2]] + [e[3]], s4, e[4]);
    FinishAlone(env, s3.results, dep, s3.seen, Failure);
    ExecOne(env, [] + [e[0]] + [e[1]] + [e[2]] + [e[3]] + [e[4]], s4.(pending := [], running := [dep]), e[5]);
    assert [] + [e[0]] + [e[1]] + [e[2]] + [e[3]] + [e[4]] + [e[5]] == e;
    assert {} + {job.attr} + {dep.attr} == {job.attr, dep.attr};
    assert [] + [ResultOf(job, Success)] + [ResultOf(dep, Failure)] == [ResultOf(job, Success), ResultOf(dep, Failure)];
  }

  /** Without the condition the law fails: a job can be built, and succeed, with a failed dependency upstream, when
      that dependency is delivered after it was built. */
  lemma LateDependencyIsNotSeen(env: Env, job: Job, dep: Job, fate: Drv -> BuildOutcome)
    requires ToBuild(env, job) && ToBuild(env, dep) && job.attr != dep.attr && dep.drv in Others(job)
    requires Success in env.outcomes(job) && Failure in env.outcomes(dep) && fate(dep.drv) == Failure
    ensures var run := LateRun(job, dep);
            && Finished(env, run) && WellFormed(Batches(run)) && !InTime(Batches(run), env.supported)
            && job in Dispatched(run)
            && (exists r :: r in Exec(env, run).value.results && r.job == job && Ends(job, Success, r.status))
            && Upstream(Accepted(FedItems(Batches(run)), env.supported), fate, {Failure}, job)
  {
    hide Exec, Accepted, FedItems, Batches;
    var run := LateRun(job, dep);
    LateExec(env, job, dep);
    LateBatches(job, dep);
    FedByTwo(job, dep, env.supported);
    assert ResultOf(job, Success) in Exec(env, run).value.results;
    assert LeadsTo([job, dep], [dep], job);
    assert run[1].job == job;
    var first: seq<seq<EvalJob>> := [[job], [dep]][..1];
    assert first == [[job]];
    FedByOne(job, env.supported);
    assert job in [job] && dep in [job, dep] && dep !in [job];
  }

  lemma FedByOne(job: Job, supported: set<string>)
    requires job.system in supported
    ensures Accepted(FedItems([[job]]), supported) == [job]
  {
    hide FedItems, FreshOf, Attrs, Accepted;
    NoFeed();
    FedByBatch([], [job]);
    assert [] + [[job]] == [[job]];
    NoAttrs();
    FreshOne(job, {});
    AcceptedOne(job, supported);
    var items: seq<EvalJob> := [job];
    assert [] + items == items;
  }
}
