/** Two attributes of one derivation: a run that loses the second one. */
module SchedulerAliases {
  import opened Wrappers
  import opened SchedulerModel
  import opened SchedulerSort
  import opened SchedulerState
  import opened SchedulerInvariant
  import opened SchedulerSteps
  import opened SchedulerRuns

  predicate ToBuild(env: Env, job: Job) {
    job.system in env.supported && job.cacheStatus != Some(Local)
  }

  /** A job to build, with no dependencies. */
  predicate Standalone(env: Env, job: Job) {
    job.Deps() == {} && ToBuild(env, job)
  }

  /** `b` arrives while `a` builds, and `a` fails. */
  function AliasRun(a: Job, b: Job): seq<Event> {
    [Deliver([a], [a]), Start(a), Deliver([b], [b]), Finish(a, Failure, [])]
  }

  /** The state with just this job delivered, and perhaps another running. */
  function Delivered(results: seq<AttributeResult>, job: Job, running: seq<Job>, seen: set<string>): State {
    State(results, [job], map[job.drv := {}], running, map[], {}, {}, seen + {job.attr})
  }

  lemma DeliverOne(env: Env, s: State, job: Job)
    requires ToBuild(env, job) && job.attr !in s.seen && job.Deps() !! Drvs(s.running)
    requires s.pending == [] && s.failed == {} && s.cancelled == {}
    ensures Enabled(env, s, Deliver([job], [job]))
    ensures Apply(env, s, Deliver([job], [job])) == Delivered(s.results, job, s.running, s.seen)
  {
    hide FreshOf, Buildable, EvalFailures, SettleAll, JobClosures, ReverseDeps, Attrs, DepsFirst;
    FreshOne(job, s.seen);
    BuildableOne(env, job);
    var jobs: seq<Job> := [job];
    assert s.pending + jobs == jobs && s.results + [] == s.results;
    SettleNone(job, s.results);
    OneClosure(job, Drvs(s.running));
  }

  lemma FreshOne(item: EvalJob, seen: set<string>)
    requires item.attr !in seen
    ensures FreshOf([item], seen) == [item] && Attrs([item]) == {item.attr}
  {
    var items, none: seq<EvalJob> := [item], [];
    assert items[..0] == none;
  }

  lemma BuildableOne(env: Env, job: Job)
    requires ToBuild(env, job)
    ensures Buildable([job], env.supported) == [job] && EvalFailures([job]) == []
  {
    var items, none: seq<EvalJob> := [job], [];
    assert items[..0] == none;
  }

  lemma SettleNone(job: Job, results: seq<AttributeResult>)
    ensures SettleAll([job], {}, {}, results) == Settling([job], {}, {}, results)
  {
    UnblockedPass([job], Settling([], {}, {}, results));
  }

  lemma OneClosure(job: Job, running: set<Drv>)
    requires job.Deps() !! running
    ensures JobClosures([job], running) == map[job.drv := {}]
    ensures ReverseDeps(map[job.drv := {}]) == map[]
    ensures DepsFirst(map[job.drv := {}], [job])
  {
    var jobs: seq<Job> := [job];
    assert Drvs(jobs) == {job.drv} && LastWith(jobs, job.drv) == job;
    var closures := JobClosures(jobs, running);
    assert closures.Keys == {job.drv} && closures[job.drv] == {};
  }

  lemma NoDependents(drv: Drv, within: set<Drv>, source: Drv)
    ensures Dependents(map[drv := {}], within, source) == {}
  {
  }

  lemma FinishOne(env: Env, a: Job, b: Job, seen: set<string>)
    requires a.drv == b.drv && Failure in env.outcomes(a)
    ensures var s := Delivered([], b, [a], seen);
            && Enabled(env, s, Finish(a, Failure, []))
            && var s' := Apply(env, s, Finish(a, Failure, []));
               s'.pending == [] && s'.running == [] && ResultItems(s'.results) == [a]
  {
    hide Select, Dependents, Drvs, PruneClosures, PruneAll, DependencyResults;
    var s := Delivered([], b, [a], seen);
    var s1 := FinishState(s, a, Failure);
    NoDependents(b.drv, Drvs(s1.pending), a.drv);
    SelectOne(b);
    assert IsDependents(s1, a, []);
    NoDependencyResults(a);
    assert s1.results == [SuccessResult(a, OutcomeStatus(a, Failure).0, OutcomeStatus(a, Failure).1, None)];
  }

  lemma SelectOne(b: Job)
    ensures Select([b], {}, true) == [] && Select([b], {b.drv} + Drvs([]), false) == []
  {
    var jobs, none: seq<Job> := [b], [];
    assert jobs[..0] == none && Drvs(none) == {};
  }

  lemma NoDependencyResults(a: Job)
    ensures DependencyResults([], DependencyFailed, a.attr) == []
  {
  }

  lemma ExecOne(env: Env, events: seq<Event>, s: State, e: Event)
    requires Exec(env, events) == Some(s) && Enabled(env, s, e)
    ensures Exec(env, events + [e]) == Some(Apply(env, s, e))
  {
    hide Enabled, Apply;
    assert (events + [e])[..|events|] == events;
  }

  lemma StartOne(env: Env, results: seq<AttributeResult>, job: Job, seen: set<string>)
    requires ToBuild(env, job)
    ensures var s := Delivered(results, job, [], seen);
            Enabled(env, s, Start(job)) && Apply(env, s, Start(job)) == s.(pending := [], running := [job])
  {
  }

  lemma FedByTwo(a: Job, b: Job, supported: set<string>)
    requires a.attr != b.attr && a.system in supported && b.system in supported
    ensures Accepted(FedItems([[a], [b]]), supported) == [a, b]
  {
    hide FedItems, FreshOf, Attrs, Accepted;
    NoFeed();
    FedByBatch([], [a]);
    assert [] + [[a]] == [[a]] && [[a]] + [[b]] == [[a], [b]];
    FedByBatch([[a]], [b]);
    FreshOne(a, {});
    FreshOne(b, {a.attr});
    NoAttrs();
    AcceptedOne(a, supported);
    AcceptedOne(b, supported);
    AcceptedConcat([a], [b], supported);
    var items: seq<EvalJob> := [a];
    assert [] + items == items && items + [b] == [a, b];
  }

  lemma NoFeed()
    ensures FedItems([]) == []
  {
  }

  lemma AliasBatches(a: Job, b: Job)
    ensures Batches(AliasRun(a, b)) == [[a], [b]]
  {
    hide Batches;
    var e := AliasRun(a, b);
    NoBatches();
    BatchesOne([], e[0]);
    BatchesOne([e[0]], e[1]);
    BatchesOne([e[0], e[1]], e[2]);
    BatchesOne([e[0], e[1], e[2]], e[3]);
    assert [] + [e[0]] == [e[0]] && [e[0]] + [e[1]] == [e[0], e[1]];
    assert [e[0], e[1]] + [e[2]] == [e[0], e[1], e[2]] && [e[0], e[1], e[2]] + [e[3]] == e;
    assert [] + [[a]] + [[b]] == [[a], [b]];
  }

  lemma NoBatches()
    ensures Batches([]) == []
  {
  }

  lemma BatchesOne(events: seq<Event>, e: Event)
    ensures Batches(events + [e]) == Batches(events) + if e.Deliver? then [e.batch] else []
  {
    assert (events + [e])[..|events|] == events;
  }

  lemma NoAttrs()
    ensures Attrs([]) == {}
  {
  }

  lemma AcceptedOne(job: Job, supported: set<string>)
    requires job.system in supported
    ensures Accepted([job], supported) == [job]
  {
    var items, none: seq<EvalJob> := [job], [];
    assert items[..0] == none;
  }

  /** Derivations shared by two attributes: the run is accepted and finished, and the second attribute, fed
      and supported, has no result. */
  lemma AliasIsLost(env: Env, a: Job, b: Job)
    requires a.drv == b.drv && a.attr != b.attr && Standalone(env, a) && Standalone(env, b)
    requires Failure in env.outcomes(a)
    ensures var run := AliasRun(a, b);
            && Exec(env, run).Some?
            && var s := Exec(env, run).value;
               && s.pending == [] && s.running == []
               && Accepted(FedItems(Batches(run)), env.supported) == [a, b]
               && ResultItems(s.results) == [a]
  {
    hide Enabled, Apply, Exec, FedItems, Batches, Accepted, ResultItems;
    var e := AliasRun(a, b);
    assert Exec(env, []) == Some(Initial) by {
      ExecNothing(env);
    }
    DeliverOne(env, Initial, a);
    ExecOne(env, [], Initial, e[0]);
    StartOne(env, [], a, {});
    ExecOne(env, [] + [e[0]], Delivered([], a, [], {}), e[1]);
    var building := Delivered([], a, [], {}).(pending := [], running := [a]);
    DeliverOne(env, building, b);
    ExecOne(env, [] + [e[0]] + [e[1]], building, e[2]);
    FinishOne(env, a, b, {} + {a.attr});
    ExecOne(env, [] + [e[0]] + [e[1]] + [e[2]], Delivered([], b, [a], {} + {a.attr}), e[3]);
    assert [] + [e[0]] + [e[1]] + [e[2]] + [e[3]] == e;
    SupportedOne(env, a);
    SupportedOne(env, b);
    AliasBatches(a, b);
    FedByTwo(a, b, env.supported);
  }

  lemma ExecNothing(env: Env)
    ensures Exec(env, []) == Some(Initial)
  {
  }

  lemma SupportedOne(env: Env, job: Job)
    requires Standalone(env, job)
    ensures job.system in env.supported
  {
  }
}
