/**
 Confluence: how the evaluation is split into batches, and in which order
 batches arrive and builds finish, does not decide which attributes succeed.
 */
module SchedulerConfluence {
  import opened Wrappers
  import opened SchedulerModel
  import opened SchedulerSort
  import opened SchedulerState
  import opened SchedulerInvariant
  import opened SchedulerSteps
  import opened SchedulerRuns

  /** What the executor and the caches say about `job` agrees with `ok`, the
      derivations that build: a build fails when a dependency does. */
  ghost predicate TruthfulFor(env: Env, ok: Drv -> bool, job: Job) {
    && !job.requireFailure && !job.ignoreFailure
    && env.outcomes(job) <= (if ok(job.drv) then {Success} else {Failure, FailureNoCache})
    && (env.mayHit(job.drv) ==> !ok(job.drv))
    && (job.cacheStatus == Some(Local) ==> ok(job.drv))
    && (ok(job.drv) ==> forall d :: d in job.Deps() ==> ok(d))
  }

  ghost predicate Truthful(env: Env, ok: Drv -> bool, world: seq<EvalJob>) {
    forall x :: x in world && x.JobSuccess? ==> TruthfulFor(env, ok, x)
  }

  /** The status an item must end with. */
  ghost predicate Verdict(r: AttributeResult, ok: Drv -> bool) {
    && r.attr == r.job.attr
    && match r.job
       case JobError(_, _) => r.status == FailedEval
       case JobSuccess(_, drv, _, _, cache, _, _, _, _, _) =>
         if cache == Some(Local) then r.status == SkippedLocal
         else if ok(drv) then r.status == Succeeded
         else r.status in {Failed, DependencyFailed, CachedFailure}
  }

  ghost predicate Verdicts(results: seq<AttributeResult>, ok: Drv -> bool) {
    forall r :: r in results ==> Verdict(r, ok)
  }

  ghost predicate Honest(results: seq<AttributeResult>, failed: set<Drv>, cancelled: set<Drv>, ok: Drv -> bool) {
    && Verdicts(results, ok)
    && (forall d :: d in failed ==> !ok(d))
    && cancelled == {}
  }

  lemma VerdictsConcat(a: seq<AttributeResult>, b: seq<AttributeResult>, ok: Drv -> bool)
    requires Verdicts(a, ok) && Verdicts(b, ok)
    ensures Verdicts(a + b, ok)
  {
  }

  lemma {:induction false} SettlePassHonest(jobs: seq<Job>, a: Settling, env: Env, ok: Drv -> bool)
    requires forall j :: j in jobs || j in a.remaining ==> TruthfulFor(env, ok, j)
    requires Honest(a.results, a.failed, a.cancelled, ok)
    ensures var b := SettlePass(jobs, a); Honest(b.results, b.failed, b.cancelled, ok)
    ensures forall j :: j in SettlePass(jobs, a).remaining ==> TruthfulFor(env, ok, j)
  {
    if jobs != [] {
      var init, last := jobs[..|jobs| - 1], jobs[|jobs| - 1];
      assert jobs == init + [last];
      SettlePassHonest(init, a, env, ok);
      var b := SettlePass(init, a);
      var blocking := last.Deps() * b.failed;
      if blocking != {} {
        var d :| d in blocking;
        assert TruthfulFor(env, ok, last) && d in last.Deps();
        assert !ok(last.drv);
        assert !(blocking <= {});
        VerdictsConcat(b.results, [SuccessResult(last, DependencyFailed, None, None)], ok);
      }
    }
  }

  lemma {:induction false} SettleAllHonest(jobs: seq<Job>, failed: set<Drv>, cancelled: set<Drv>,
                                           results: seq<AttributeResult>, env: Env, ok: Drv -> bool)
    requires forall j :: j in jobs ==> TruthfulFor(env, ok, j)
    requires Honest(results, failed, cancelled, ok)
    ensures var st := SettleAll(jobs, failed, cancelled, results); Honest(st.results, st.failed, st.cancelled, ok)
    decreases |jobs|
  {
    hide TruthfulFor, Honest;
    var a := Settling([], failed, cancelled, results);
    SettlePassHonest(jobs, a, env, ok);
    var st := SettlePass(jobs, a);
    if |st.results| != |results| {
      SettleAllHonest(st.remaining, st.failed, st.cancelled, st.results, env, ok);
    }
  }

  lemma {:induction false} PartitionHonest(items: seq<EvalJob>, supported: set<string>, ok: Drv -> bool)
    ensures Verdicts(EvalFailures(items), ok)
    ensures forall j :: j in Buildable(items, supported) ==> j in items
  {
    if items != [] {
      var init, last := items[..|items| - 1], items[|items| - 1];
      assert items == init + [last];
      PartitionHonest(init, supported, ok);
    }
  }

  lemma IngestHonest(s: State, env: Env, batch: seq<EvalJob>, order: seq<Job>, ok: Drv -> bool, world: seq<EvalJob>)
    requires Honest(s.results, s.failed, s.cancelled, ok) && Truthful(env, ok, world)
    requires forall j :: j in s.pending || j in FreshOf(batch, s.seen) ==> j in world
    ensures var s' := Ingest(s, env.supported, batch, order); Honest(s'.results, s'.failed, s'.cancelled, ok)
  {
    hide TruthfulFor, Verdict;
    var news := FreshOf(batch, s.seen);
    PartitionHonest(news, env.supported, ok);
    VerdictsConcat(s.results, EvalFailures(news), ok);
    SettleAllHonest(s.pending + Buildable(news, env.supported), s.failed, s.cancelled,
                    s.results + EvalFailures(news), env, ok);
  }

  /** Every transitive dependent of a broken derivation is broken. */
  lemma {:induction false} DependentsBroken(s: State, env: Env, job: Job, dependents: seq<Job>, ok: Drv -> bool)
    requires IsDependents(s, job, dependents) && Indexed(s, {job.drv}) && !ok(job.drv)
    requires forall j :: j in s.pending ==> TruthfulFor(env, ok, j)
    ensures forall j :: j in dependents ==> j in s.pending && !ok(j.drv)
  {
    var within := Drvs(s.pending);
    var broken := set d | d in within && !ok(d);
    forall from, to | (from == job.drv || from in broken) && to in within && Edge(s.closures, from, to)
      ensures to in broken
    {
      var j :| j in s.pending && j.drv == to;
      assert from in j.Deps();
    }
    DependentsAreLeast(s.closures, within, job.drv, broken);
    var found := Dependents(s.closures, within, job.drv);
    SameMembers(dependents, Select(s.pending, found, true));
    SelectMembers(s.pending, found, true);
  }

  lemma {:induction false} DependencyVerdicts(dependents: seq<Job>, attr: string, env: Env, ok: Drv -> bool)
    requires forall j :: j in dependents ==> TruthfulFor(env, ok, j) && !ok(j.drv)
    ensures Verdicts(DependencyResults(dependents, DependencyFailed, attr), ok)
  {
    if dependents != [] {
      DependencyVerdicts(dependents[..|dependents| - 1], attr, env, ok);
    }
  }

  lemma FailDependentsHonest(s: State, env: Env, job: Job, dependents: seq<Job>, ok: Drv -> bool)
    requires IsDependents(s, job, dependents) && Indexed(s, {job.drv}) && !ok(job.drv)
    requires forall j :: j in s.pending ==> TruthfulFor(env, ok, j)
    requires Honest(s.results, s.failed, s.cancelled, ok)
    ensures var s' := FailDependents(s, job, DependencyFailed, dependents);
            Honest(s'.results, s'.failed, s'.cancelled, ok)
  {
    hide TruthfulFor, Verdict;
    DependentsBroken(s, env, job, dependents, ok);
    DependencyVerdicts(dependents, job.attr, env, ok);
    VerdictsConcat(s.results, DependencyResults(dependents, DependencyFailed, job.attr), ok);
  }

  /** Everything decided so far is right, and locally present jobs never run. */
  ghost predicate HonestState(s: State, ok: Drv -> bool) {
    && Honest(s.results, s.failed, s.cancelled, ok)
    && (forall j :: j in s.running ==> j.cacheStatus != Some(Local))
  }

  lemma InvIndexed(s: State, extra: set<Drv>, items: seq<EvalJob>, supported: set<string>)
    requires Inv(s, extra, items, supported)
    ensures Indexed(s, extra)
  {
  }

  lemma HonestAppend(s: State, r: AttributeResult, ok: Drv -> bool)
    requires Honest(s.results, s.failed, s.cancelled, ok) && Verdict(r, ok)
    ensures Honest(s.results + [r], s.failed, s.cancelled, ok)
  {
  }

  lemma SkipFailedHonest(env: Env, s: State, job: Job, error: string, dependents: seq<Job>, items: seq<EvalJob>,
                         ok: Drv -> bool)
    requires Inv(s, {}, items, env.supported) && Enabled(env, s, SkipFailed(job, error, dependents))
    requires HonestState(s, ok) && Truthful(env, ok, items)
    ensures HonestState(Apply(env, s, SkipFailed(job, error, dependents)), ok)
  {
    hide Inv, Indexed, IsDependents, FailDependents, PruneClosures, Remove, Honest;
    PendingIsFed(s, {}, items, env.supported);
    var r := SuccessResult(job, CachedFailure, Some(error), None);
    var s1 := SkipFailedState(s, job, error);
    RetirePendingKeepsInv(s, job, r, items, env.supported);
    InvIndexed(s1, {job.drv}, items, env.supported);
    PendingIsFed(s1, {job.drv}, items, env.supported);
    HonestAppend(s, r, ok);
    FailDependentsHonest(s1, env, job, dependents, ok);
    FailDependentsKeepsRunning(s1, job, DependencyFailed, dependents);
  }

  lemma FailDependentsKeepsRunning(s: State, job: Job, status: Status, dependents: seq<Job>)
    ensures FailDependents(s, job, status, dependents).running == s.running
  {
  }

  lemma FinishHonest(env: Env, s: State, job: Job, outcome: BuildOutcome, dependents: seq<Job>, items: seq<EvalJob>,
                     ok: Drv -> bool)
    requires Inv(s, {}, items, env.supported) && Enabled(env, s, Finish(job, outcome, dependents))
    requires HonestState(s, ok) && Truthful(env, ok, items)
    ensures HonestState(Apply(env, s, Finish(job, outcome, dependents)), ok)
  {
    hide Inv, Indexed, IsDependents, FailDependents, PruneClosures, Remove, Honest;
    PendingIsFed(s, {}, items, env.supported);
    assert TruthfulFor(env, ok, job);
    var (status, error) := OutcomeStatus(job, outcome);
    var r := SuccessResult(job, status, error, None);
    var s1 := FinishState(s, job, outcome);
    RetireRunningKeepsInv(s, job, r, items, env.supported);
    StillRunning(s.running, job);
    HonestAppend(s, r, ok);
    if Propagates(outcome) {
      InvIndexed(s1, {job.drv}, items, env.supported);
      PendingIsFed(s1, {job.drv}, items, env.supported);
      FailDependentsHonest(s1, env, job, dependents, ok);
      FailDependentsKeepsRunning(s1, job, DependencyFailed, dependents);
    }
  }

  lemma StepHonest(env: Env, s: State, e: Event, items: seq<EvalJob>, ok: Drv -> bool)
    requires Inv(s, {}, items, env.supported) && Enabled(env, s, e)
    requires HonestState(s, ok) && Truthful(env, ok, Fed(items, s, e))
    ensures HonestState(Apply(env, s, e), ok)
  {
    hide Inv, Settled, CanIngest, Ingest, FailDependents, FreshOf, PruneClosures, Honest, Remove, Enabled, Apply;
    PendingIsFed(s, {}, items, env.supported);
    assert forall x :: x in items ==> x in Fed(items, s, e);
    match e
    case Deliver(batch, order) => IngestStaysHonest(env, s, batch, order, items, ok);
    case Start(job) => StartHonest(env, s, job, items, ok);
    case SkipLocal(job) => SkipLocalHonest(env, s, job, items, ok);
    case SkipFailed(job, error, dependents) => SkipFailedHonest(env, s, job, error, dependents, items, ok);
    case Finish(job, outcome, dependents) => FinishHonest(env, s, job, outcome, dependents, items, ok);
  }

  lemma IngestStaysHonest(env: Env, s: State, batch: seq<EvalJob>, order: seq<Job>, items: seq<EvalJob>,
                          ok: Drv -> bool)
    requires Inv(s, {}, items, env.supported) && Enabled(env, s, Deliver(batch, order))
    requires HonestState(s, ok) && Truthful(env, ok, items + FreshOf(batch, s.seen))
    ensures HonestState(Apply(env, s, Deliver(batch, order)), ok)
  {
    hide Inv, Settled, CanIngest, FreshOf, Honest, Truthful;
    PendingIsFed(s, {}, items, env.supported);
    IngestHonest(s, env, batch, order, ok, items + FreshOf(batch, s.seen));
  }

  lemma StartHonest(env: Env, s: State, job: Job, items: seq<EvalJob>, ok: Drv -> bool)
    requires Inv(s, {}, items, env.supported) && Enabled(env, s, Start(job))
    requires HonestState(s, ok) && Truthful(env, ok, items)
    ensures HonestState(Apply(env, s, Start(job)), ok)
  {
    hide Inv, Honest, Remove;
    PendingIsFed(s, {}, items, env.supported);
    assert TruthfulFor(env, ok, job);
  }

  lemma SkipLocalHonest(env: Env, s: State, job: Job, items: seq<EvalJob>, ok: Drv -> bool)
    requires Inv(s, {}, items, env.supported) && Enabled(env, s, SkipLocal(job))
    requires HonestState(s, ok) && Truthful(env, ok, items)
    ensures HonestState(Apply(env, s, SkipLocal(job)), ok)
  {
    hide Inv, Honest, Remove, PruneClosures;
    HonestAppend(s, SuccessResult(job, SkippedLocal, None, None), ok);
  }

  lemma TruthfulPrefix(env: Env, ok: Drv -> bool, a: seq<EvalJob>, b: seq<EvalJob>)
    requires Truthful(env, ok, b) && forall x :: x in a ==> x in b
    ensures Truthful(env, ok, a)
  {
  }

  lemma {:induction false} RunHonest(env: Env, events: seq<Event>, ok: Drv -> bool)
    requires Exec(env, events).Some? && WellFormed(Batches(events))
    requires Truthful(env, ok, FedItems(Batches(events)))
    ensures HonestState(Exec(env, events).value, ok)
  {
    hide Inv, Enabled, Apply, WellFormed, FedItems, Batches, Truthful, HonestState;
    if events == [] {
      InitiallyHonest(ok);
    } else {
      var init, e := events[..|events| - 1], events[|events| - 1];
      var s := Exec(env, init).value;
      BatchesGrow(events);
      WellFormedPrefix(Batches(init), Batches(events));
      RunKeepsInv(env, init);
      InvSeen(s, FedItems(Batches(init)), env.supported);
      FedByStep(events, s);
      TruthfulPrefix(env, ok, FedItems(Batches(init)), FedItems(Batches(events)));
      RunHonest(env, init, ok);
      StepHonest(env, s, e, FedItems(Batches(init)), ok);
    }
  }

  lemma InitiallyHonest(ok: Drv -> bool)
    ensures HonestState(Initial, ok)
  {
  }

  // ---------------------------------------------------------------------------
  // The verdict of a finished run
  // ---------------------------------------------------------------------------

  ghost predicate Finished(env: Env, events: seq<Event>) {
    && Exec(env, events).Some?
    && Exec(env, events).value.pending == []
    && Exec(env, events).value.running == []
  }

  function AttrsWith(results: seq<AttributeResult>, status: Status): set<string> {
    set r | r in results && r.status == status :: r.attr
  }

  /** The attributes that must succeed. */
  ghost function Succeeding(items: seq<EvalJob>, ok: Drv -> bool): set<string> {
    set x | x in items && x.JobSuccess? && x.cacheStatus != Some(Local) && ok(x.drv) :: x.attr
  }

  function LocalAttrs(items: seq<EvalJob>): set<string> {
    set x | x in items && x.JobSuccess? && x.cacheStatus == Some(Local) :: x.attr
  }

  lemma ItemsOfResults(results: seq<AttributeResult>, items: seq<EvalJob>)
    requires multiset(ResultItems(results)) == multiset(items)
    ensures forall r :: r in results ==> r.job in items
    ensures forall x :: x in items ==> exists r :: r in results && r.job == x
  {
    forall r | r in results
      ensures r.job in items
    {
      var i :| 0 <= i < |results| && results[i] == r;
      assert ResultItems(results)[i] == r.job;
      assert r.job in multiset(items);
    }
    forall x | x in items
      ensures exists r :: r in results && r.job == x
    {
      assert x in multiset(ResultItems(results));
      var i :| 0 <= i < |ResultItems(results)| && ResultItems(results)[i] == x;
      assert results[i] in results;
    }
  }

  lemma VerdictsDecide(results: seq<AttributeResult>, items: seq<EvalJob>, ok: Drv -> bool)
    requires multiset(ResultItems(results)) == multiset(items) && Verdicts(results, ok)
    requires forall x :: x in items && x.JobSuccess? && x.cacheStatus == Some(Local) ==> ok(x.drv)
    ensures AttrsWith(results, Succeeded) == Succeeding(items, ok)
    ensures AttrsWith(results, SkippedLocal) == LocalAttrs(items)
    ensures ScheduleSuccess(results) <==> forall x :: x in items ==> x.JobSuccess? && ok(x.drv)
  {
    ItemsOfResults(results, items);
    forall r | r in results
      ensures Verdict(r, ok) && r.job in items
    {
    }
  }

  /** A finished run succeeds on exactly the attributes whose derivation builds. */
  lemma {:induction false} FinishedVerdict(env: Env, events: seq<Event>, ok: Drv -> bool)
    requires Finished(env, events) && WellFormed(Batches(events))
    requires Truthful(env, ok, FedItems(Batches(events)))
    ensures var results := Exec(env, events).value.results;
            var items := Accepted(FedItems(Batches(events)), env.supported);
            && AttrsWith(results, Succeeded) == Succeeding(items, ok)
            && AttrsWith(results, SkippedLocal) == LocalAttrs(items)
            && (ScheduleSuccess(results) <==> forall x :: x in items ==> x.JobSuccess? && ok(x.drv))
  {
    var all := FedItems(Batches(events));
    WellFormedIsDistinct(Batches(events));
    AcceptedDistinct(all, env.supported);
    RunHonest(env, events, ok);
    FinishedRunConserves(env, events);
    VerdictsDecide(Exec(env, events).value.results, Accepted(all, env.supported), ok);
  }

  /** Every item of every batch, with repetitions dropped. */
  function Delivered(batches: seq<seq<EvalJob>>): set<EvalJob> {
    set b, x | b in batches && x in b :: x
  }

  /** A repeated attribute is a repeated item. */
  ghost predicate Consistent(items: set<EvalJob>) {
    forall x, y :: x in items && y in items && x.attr == y.attr ==> x == y
  }

  lemma FedIsDelivered(batches: seq<seq<EvalJob>>)
    requires Consistent(Delivered(batches))
    ensures forall x :: x in FedItems(batches) <==> x in Delivered(batches)
  {
    FedMembers(batches);
    forall x | x in Delivered(batches)
      ensures x in FedItems(batches)
    {
      var b :| b in batches && x in b;
      assert x.attr in Attrs(FedItems(batches));
      var y :| y in FedItems(batches) && y.attr == x.attr;
      var c :| c in batches && y in c;
      assert y in Delivered(batches);
    }
  }

  lemma {:induction false} AcceptedMembers(items: seq<EvalJob>, supported: set<string>)
    ensures forall x :: x in Accepted(items, supported) <==> x in items && (x.JobError? || x.system in supported)
  {
    if items != [] {
      var init, last := items[..|items| - 1], items[|items| - 1];
      assert items == init + [last];
      AcceptedMembers(init, supported);
    }
  }

  /** Two finished runs over the same items agree on what succeeded, whatever
      the batches, the arrival order, the completion order and the cache answers. */
  lemma {:induction false} Confluence(env1: Env, events1: seq<Event>, env2: Env, events2: seq<Event>, ok: Drv -> bool)
    requires env1.supported == env2.supported
    requires Finished(env1, events1) && WellFormed(Batches(events1))
    requires Finished(env2, events2) && WellFormed(Batches(events2))
    requires Delivered(Batches(events1)) == Delivered(Batches(events2))
    requires Consistent(Delivered(Batches(events1)))
    requires Truthful(env1, ok, FedItems(Batches(events1))) && Truthful(env2, ok, FedItems(Batches(events2)))
    ensures var a, b := Exec(env1, events1).value.results, Exec(env2, events2).value.results;
            && AttrsWith(a, Succeeded) == AttrsWith(b, Succeeded)
            && AttrsWith(a, SkippedLocal) == AttrsWith(b, SkippedLocal)
            && (ScheduleSuccess(a) <==> ScheduleSuccess(b))
  {
    hide Finished, WellFormed, Truthful, Exec, ScheduleSuccess;
    FinishedVerdict(env1, events1, ok);
    FinishedVerdict(env2, events2, ok);
    FedIsDelivered(Batches(events1));
    FedIsDelivered(Batches(events2));
    AcceptedMembers(FedItems(Batches(events1)), env1.supported);
    AcceptedMembers(FedItems(Batches(events2)), env2.supported);
  }
}
