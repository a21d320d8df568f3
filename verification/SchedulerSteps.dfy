/** Every step keeps the invariant; ingestion settles exactly the blocked jobs. */
module SchedulerSteps {
  import opened Wrappers
  import opened SchedulerModel
  import opened SchedulerSort
  import opened SchedulerState
  import opened SchedulerInvariant

  // ---------------------------------------------------------------------------
  // Settling
  // ---------------------------------------------------------------------------

  /** `b` is `a` after candidates `jobs`: each is kept or recorded, and each new failure is recorded. */
  ghost predicate Settles(jobs: seq<Job>, a: Settling, b: Settling) {
    && multiset(ResultItems(b.results)) + multiset(b.remaining)
       == multiset(ResultItems(a.results)) + multiset(a.remaining) + multiset(jobs)
    && a.failed <= b.failed
    && a.cancelled <= b.cancelled
    && ResultDrvs(a.results) <= ResultDrvs(b.results)
    && b.failed - a.failed <= ResultDrvs(b.results)
    && b.cancelled - a.cancelled <= b.failed
  }

  lemma SettleOneSettles(a: Settling, job: Job)
    ensures Settles([job], a, SettleOne(a, job))
  {
    var b := SettleOne(a, job);
    if b.results != a.results {
      var r := b.results[|a.results|];
      assert b.results == a.results + [r];
      ResultItemsConcat(a.results, [r]);
      assert ResultItems(b.results) == ResultItems(a.results) + [job];
      assert r in b.results;
    }
  }

  lemma SettlesTrans(jobs0: seq<Job>, jobs1: seq<Job>, a: Settling, b: Settling, c: Settling)
    requires Settles(jobs0, a, b) && Settles(jobs1, b, c)
    ensures Settles(jobs0 + jobs1, a, c)
  {
  }

  lemma {:induction false} SettlePassSettles(jobs: seq<Job>, a: Settling)
    ensures Settles(jobs, a, SettlePass(jobs, a))
  {
    if jobs != [] {
      var init, last := jobs[..|jobs| - 1], jobs[|jobs| - 1];
      assert jobs == init + [last];
      SettlePassSettles(init, a);
      SettleOneSettles(SettlePass(init, a), last);
      SettlesTrans(init, [last], a, SettlePass(init, a), SettlePass(jobs, a));
    }
  }

  lemma EmptyMeetsAreDisjoint(a: set<Drv>, b: set<Drv>)
    ensures a * b == {} <==> a !! b
  {
    forall d | d in a && d in b
      ensures d in a * b
    {
    }
  }

  /** A pass that settles nothing found nothing blocked. */
  lemma {:induction false} QuietPass(jobs: seq<Job>, a: Settling)
    requires |SettlePass(jobs, a).results| == |a.results|
    ensures SettlePass(jobs, a) == a.(remaining := a.remaining + jobs)
    ensures forall j :: j in jobs ==> j.Deps() !! a.failed
  {
    if jobs != [] {
      var init, last := jobs[..|jobs| - 1], jobs[|jobs| - 1];
      assert jobs == init + [last];
      QuietPass(init, a);
      forall j | j in jobs
        ensures j.Deps() !! a.failed
      {
        assert j in init || j == last;
        EmptyMeetsAreDisjoint(last.Deps(), a.failed);
      }
    } else {
      assert a.remaining + jobs == a.remaining;
    }
  }

  lemma {:induction false} SettleAllSettles(jobs: seq<Job>, failed: set<Drv>, cancelled: set<Drv>,
                                            results: seq<AttributeResult>)
    ensures Settles(jobs, Settling([], failed, cancelled, results), SettleAll(jobs, failed, cancelled, results))
    ensures forall j :: j in SettleAll(jobs, failed, cancelled, results).remaining ==>
              j.Deps() !! SettleAll(jobs, failed, cancelled, results).failed
    decreases |jobs|
  {
    var a := Settling([], failed, cancelled, results);
    var st := SettlePass(jobs, a);
    SettlePassSettles(jobs, a);
    if |st.results| == |results| {
      QuietPass(jobs, a);
      assert [] + jobs == jobs;
    } else {
      SettleAllSettles(st.remaining, st.failed, st.cancelled, st.results);
    }
  }

  /** Whoever depends on a member of `drvs` among `jobs` is a member. */
  ghost predicate Blocked(jobs: seq<Job>, drvs: set<Drv>) {
    forall j :: j in jobs && !(j.Deps() !! drvs) ==> j.drv in drvs
  }

  lemma {:induction false} SettlePassLeast(jobs: seq<Job>, a: Settling, all: seq<Job>, drvs: set<Drv>)
    requires Blocked(all, drvs) && a.failed <= drvs
    requires forall j :: j in jobs || j in a.remaining ==> j in all
    ensures SettlePass(jobs, a).failed <= drvs
    ensures forall j :: j in SettlePass(jobs, a).remaining ==> j in all
    ensures forall j :: (j in jobs || j in a.remaining) && j !in SettlePass(jobs, a).remaining ==>
              !(j.Deps() !! SettlePass(jobs, a).failed)
  {
    if jobs != [] {
      var init, last := jobs[..|jobs| - 1], jobs[|jobs| - 1];
      assert jobs == init + [last];
      SettlePassLeast(init, a, all, drvs);
      var b := SettlePass(init, a);
      var c := SettleOne(b, last);
      assert b.failed <= c.failed;
      assert forall j :: j in b.remaining ==> j in c.remaining;
    }
  }

  lemma {:induction false} SettleAllLeast(jobs: seq<Job>, failed: set<Drv>, cancelled: set<Drv>,
                                          results: seq<AttributeResult>, all: seq<Job>, drvs: set<Drv>)
    requires Blocked(all, drvs) && failed <= drvs
    requires forall j :: j in jobs ==> j in all
    ensures SettleAll(jobs, failed, cancelled, results).failed <= drvs
    ensures forall j :: j in SettleAll(jobs, failed, cancelled, results).remaining ==> j in all
    ensures forall j :: j in jobs && j !in SettleAll(jobs, failed, cancelled, results).remaining ==>
              !(j.Deps() !! SettleAll(jobs, failed, cancelled, results).failed)
    decreases |jobs|
  {
    var a := Settling([], failed, cancelled, results);
    var st := SettlePass(jobs, a);
    SettlePassLeast(jobs, a, all, drvs);
    if |st.results| != |results| {
      SettleAllSettles(st.remaining, st.failed, st.cancelled, st.results);
      SettleAllLeast(st.remaining, st.failed, st.cancelled, st.results, all, drvs);
    }
  }

  /** The failed drvs after settling are the least set that has the earlier
      ones and every candidate depending on a member. */
  lemma SettledExactly(jobs: seq<Job>, failed: set<Drv>, cancelled: set<Drv>, results: seq<AttributeResult>,
                       drvs: set<Drv>)
    ensures var st := SettleAll(jobs, failed, cancelled, results);
            && failed <= st.failed
            && (forall j :: j in st.remaining <==> j in jobs && j.Deps() !! st.failed)
            && (Blocked(jobs, drvs) && failed <= drvs ==> st.failed <= drvs)
  {
    SettleAllSettles(jobs, failed, cancelled, results);
    var top := failed + Drvs(jobs);
    assert Blocked(jobs, top);
    SettleAllLeast(jobs, failed, cancelled, results, jobs, top);
    if Blocked(jobs, drvs) && failed <= drvs {
      SettleAllLeast(jobs, failed, cancelled, results, jobs, drvs);
    }
  }

  // ---------------------------------------------------------------------------
  // Ingestion
  // ---------------------------------------------------------------------------

  lemma AttrsConcat(a: seq<EvalJob>, b: seq<EvalJob>)
    ensures Attrs(a + b) == Attrs(a) + Attrs(b)
  {
  }

  lemma IngestConserves(s: State, supported: set<string>, batch: seq<EvalJob>, order: seq<Job>, items: seq<EvalJob>)
    requires Conserved(s, items, supported)
    requires multiset(order) == multiset(Settled(s, supported, batch).remaining)
    ensures Conserved(Ingest(s, supported, batch, order), items + FreshOf(batch, s.seen), supported)
    ensures Conserved(Ingest(s, supported, batch, order).(pending := Settled(s, supported, batch).remaining),
                      items + FreshOf(batch, s.seen), supported)
  {
    var news := FreshOf(batch, s.seen);
    var results, jobs := s.results + EvalFailures(news), s.pending + Buildable(news, supported);
    SettleAllSettles(jobs, s.failed, s.cancelled, results);
    ResultItemsConcat(s.results, EvalFailures(news));
    PartitionSplits(news, supported);
    AcceptedConcat(items, news, supported);
  }

  /** Closures computed from scratch are an index, and so are their reverse edges. */
  lemma ScratchIndex(s: State, remaining: seq<Job>)
    requires Distinct(remaining) && multiset(s.pending) == multiset(remaining)
    requires s.closures == JobClosures(remaining, Drvs(s.running)) && s.reverseDeps == ReverseDeps(s.closures)
    ensures Indexed(s, {})
    ensures Covered(s.closures, s.reverseDeps)
  {
    SameMembers(s.pending, remaining);
    assert InFlight(s) + {} == InFlight(s);
    forall j | j in s.pending
      ensures j.drv in s.closures && s.closures[j.drv] == (InFlight(s) * j.Deps()) - {j.drv}
    {
      JobClosuresOf(remaining, Drvs(s.running), j);
    }
    hide Indexed, JobClosures;
    ReverseCovers(s.closures);
  }

  lemma ReverseCovers(closures: Closures)
    ensures Covered(closures, ReverseDeps(closures))
  {
    forall k, d | k in closures && d in closures[k]
      ensures d in AllDeps(closures)
    {
    }
  }

  lemma IngestIndexed(s: State, supported: set<string>, batch: seq<EvalJob>, order: seq<Job>, items: seq<EvalJob>)
    requires Conserved(s, items, supported) && DistinctItems(items + FreshOf(batch, s.seen))
    requires multiset(order) == multiset(Settled(s, supported, batch).remaining)
    ensures Indexed(Ingest(s, supported, batch, order), {})
    ensures Covered(Ingest(s, supported, batch, order).closures, Ingest(s, supported, batch, order).reverseDeps)
  {
    hide Settled, Indexed, Covered, Conserved, DistinctItems, JobClosures, ReverseDeps;
    var st := Settled(s, supported, batch);
    var s' := Ingest(s, supported, batch, order);
    IngestConserves(s, supported, batch, order, items);
    ConservedSeparates(s'.(pending := st.remaining), items + FreshOf(batch, s.seen), supported);
    ScratchIndex(s', st.remaining);
  }

  lemma {:induction false} IngestKeepsInv(s: State, supported: set<string>, batch: seq<EvalJob>, order: seq<Job>,
                                          items: seq<EvalJob>)
    requires Inv(s, {}, items, supported) && DistinctItems(items + FreshOf(batch, s.seen))
    requires CanIngest(s, supported, batch, order)
    ensures Inv(Ingest(s, supported, batch, order), {}, items + FreshOf(batch, s.seen), supported)
  {
    hide SettleAll, FreshOf, EvalFailures, Buildable, DepsFirst, Indexed, Conserved, DistinctItems, Covered;
    var news := FreshOf(batch, s.seen);
    var results, jobs := s.results + EvalFailures(news), s.pending + Buildable(news, supported);
    IngestConserves(s, supported, batch, order, items);
    IngestIndexed(s, supported, batch, order, items);
    SettleAllSettles(jobs, s.failed, s.cancelled, results);
    var st := Settled(s, supported, batch);
    SameMembers(order, st.remaining);
    AttrsConcat(items, news);
    assert ResultDrvs(s.results) <= ResultDrvs(results);
  }

  // ---------------------------------------------------------------------------
  // The other steps
  // ---------------------------------------------------------------------------

  lemma RemovedDrvs(jobs: seq<Job>, job: Job)
    requires Distinct(jobs) && job in jobs
    ensures Drvs(Remove(jobs, job)) == Drvs(jobs) - {job.drv}
    ensures forall j :: j in Remove(jobs, job) ==> j in jobs && j.drv != job.drv
    ensures job.drv in Drvs(jobs)
  {
    hide Remove;
    forall j
      ensures j in Remove(jobs, job) <==> j in jobs && j.drv != job.drv
    {
      RemovedMember(jobs, job, j);
    }
    DrvsWithout(jobs, Remove(jobs, job), job);
  }

  lemma {:induction false} RemovedMember(jobs: seq<Job>, job: Job, j: Job)
    requires Distinct(jobs) && job in jobs
    ensures j in Remove(jobs, job) <==> j in jobs && j.drv != job.drv
  {
    hide Remove;
    var rest := Remove(jobs, job);
    assert j in rest <==> j in multiset(rest);
    assert j in jobs <==> j in multiset(jobs);
    if j in jobs && j.drv == job.drv {
      SameJob(jobs, job, j);
      JobOccursOnce(jobs, job);
    }
  }

  lemma SameJob(jobs: seq<Job>, job: Job, j: Job)
    requires Distinct(jobs) && job in jobs && j in jobs && j.drv == job.drv
    ensures j == job
  {
  }

  lemma DrvsWithout(jobs: seq<Job>, rest: seq<Job>, job: Job)
    requires job in jobs && forall j :: j in rest <==> j in jobs && j.drv != job.drv
    ensures Drvs(rest) == Drvs(jobs) - {job.drv} && job.drv in Drvs(jobs)
  {
  }

  lemma {:induction false} JobOccursOnce(jobs: seq<Job>, job: Job)
    requires Distinct(jobs)
    ensures multiset(jobs)[job] <= 1
  {
    if jobs != [] {
      var init, last := jobs[..|jobs| - 1], jobs[|jobs| - 1];
      assert jobs == init + [last];
      JobOccursOnce(init, job);
      if job in init {
        var i :| 0 <= i < |init| && init[i] == job;
        assert jobs[i].drv != jobs[|jobs| - 1].drv;
      }
    }
  }

  lemma {:induction false} StillRunning(jobs: seq<Job>, job: Job)
    requires job in jobs
    ensures forall j :: j in Remove(jobs, job) ==> j in jobs
  {
    forall j | j in Remove(jobs, job)
      ensures j in jobs
    {
      assert j in multiset(Remove(jobs, job));
      assert j in multiset(jobs);
    }
  }

  lemma IndexCarriesOver(s: State, s': State, extra: set<Drv>, extra': set<Drv>)
    requires Indexed(s, extra) && s'.closures == s.closures
    requires forall j :: j in s'.pending ==> j in s.pending
    requires InFlight(s') + extra' == InFlight(s) + extra
    ensures Indexed(s', extra')
  {
  }

  lemma DrvsAppend(jobs: seq<Job>, job: Job)
    ensures Drvs(jobs + [job]) == Drvs(jobs) + {job.drv}
  {
  }

  /** The job leaves the pending list and joins the running one. */
  lemma StartMovesItem(s: State, job: Job)
    requires job in s.pending
    ensures multiset(AllItems(TakePending(s, job).(running := s.running + [job]))) == multiset(AllItems(s))
  {
    hide Remove, ResultItems;
  }

  lemma StartKeepsInv(s: State, job: Job, items: seq<EvalJob>, supported: set<string>)
    requires Inv(s, {}, items, supported) && job in s.pending
    ensures Inv(TakePending(s, job).(running := s.running + [job]), {}, items, supported)
  {
    hide Indexed, Covered, DistinctItems, ResultDrvs, Accepted, ResultItems, Drvs;
    ConservedSeparates(s, items, supported);
    RemovedDrvs(s.pending, job);
    DrvsAppend(s.running, job);
    var s' := TakePending(s, job).(running := s.running + [job]);
    IndexCarriesOver(s, s', {}, {});
    StartMovesItem(s, job);
    hide AllItems;
  }

  lemma RecordedResult(s: State, r: AttributeResult)
    requires r.job.JobSuccess? && Recorded(s)
    ensures ResultItems(s.results + [r]) == ResultItems(s.results) + [r.job]
    ensures ResultDrvs(s.results + [r]) == ResultDrvs(s.results) + {r.job.drv}
  {
    ResultItemsConcat(s.results, [r]);
    assert r in s.results + [r];
  }

  /** A pending job that got its result is retiring. */
  lemma RetirePendingKeepsInv(s: State, job: Job, r: AttributeResult, items: seq<EvalJob>, supported: set<string>)
    requires Inv(s, {}, items, supported) && job in s.pending && r.job == job
    ensures Inv(TakePending(s, job).(results := s.results + [r]), {job.drv}, items, supported)
  {
    hide Indexed, Covered, DistinctItems, ResultDrvs, Accepted, ResultItems;
    ConservedSeparates(s, items, supported);
    RemovedDrvs(s.pending, job);
    RecordedResult(s, r);
    var s' := TakePending(s, job).(results := s.results + [r]);
    assert multiset(AllItems(s')) == multiset(AllItems(s));
    assert job.drv in Drvs(s.pending);
    IndexCarriesOver(s, s', {}, {job.drv});
  }

  lemma RetireRunningKeepsInv(s: State, job: Job, r: AttributeResult, items: seq<EvalJob>, supported: set<string>)
    requires Inv(s, {}, items, supported) && job in s.running && r.job == job
    ensures Inv(s.(running := Remove(s.running, job), results := s.results + [r]), {job.drv}, items, supported)
  {
    hide Indexed, Covered, DistinctItems, ResultDrvs, Accepted, ResultItems;
    ConservedSeparates(s, items, supported);
    RemovedDrvs(s.running, job);
    RecordedResult(s, r);
    var s' := s.(running := Remove(s.running, job), results := s.results + [r]);
    assert multiset(AllItems(s')) == multiset(AllItems(s));
    assert job.drv in Drvs(s.running);
    IndexCarriesOver(s, s', {}, {job.drv});
  }

  /** The items fed to the scheduler after a step. */
  function Fed(items: seq<EvalJob>, s: State, e: Event): seq<EvalJob> {
    if e.Deliver? then items + FreshOf(e.batch, s.seen) else items
  }

  /** Conservation, index agreement and dispatch safety hold across every step. */
  lemma {:induction false} StepKeepsInv(env: Env, s: State, e: Event, items: seq<EvalJob>)
    requires Inv(s, {}, items, env.supported) && Enabled(env, s, e)
    requires DistinctItems(Fed(items, s, e))
    ensures Inv(Apply(env, s, e), {}, Fed(items, s, e), env.supported)
  {
    hide Inv, CanIngest, Ingest, IsDependents, FailDependents, DistinctItems, SettleAll, Remove, FreshOf, PruneClosures,
         OutcomeStatus;
    match e
    case Deliver(batch, order) =>
      IngestDistinct(s, items, env.supported);
      IngestKeepsInv(s, env.supported, batch, order, items);
    case Start(job) =>
      StartKeepsInv(s, job, items, env.supported);
    case SkipLocal(job) =>
      var r := SuccessResult(job, SkippedLocal, None, None);
      RetirePendingKeepsInv(s, job, r, items, env.supported);
      PruneKeepsInv(TakePending(s, job).(results := s.results + [r]), job.drv, {job.drv}, items, env.supported);
      assert {job.drv} - {job.drv} == {};
    case SkipFailed(job, error, dependents) =>
      var s1 := SkipFailedState(s, job, error);
      RetirePendingKeepsInv(s, job, SuccessResult(job, CachedFailure, Some(error), None), items, env.supported);
      FailDependentsKeepsInv(s1, job, DependencyFailed, dependents, items, env.supported);
      PruneKeepsInv(FailDependents(s1, job, DependencyFailed, dependents), job.drv, {job.drv}, items, env.supported);
      assert {job.drv} - {job.drv} == {};
    case Finish(job, outcome, dependents) =>
      var s1 := FinishState(s, job, outcome);
      var (status, error) := OutcomeStatus(job, outcome);
      RetireRunningKeepsInv(s, job, SuccessResult(job, status, error, None), items, env.supported);
      if Propagates(outcome) {
        FailDependentsKeepsInv(s1, job, PropagatedStatus(outcome), dependents, items, env.supported);
        PruneKeepsInv(FailDependents(s1, job, PropagatedStatus(outcome), dependents), job.drv, {job.drv}, items,
                      env.supported);
      } else {
        PruneKeepsInv(s1, job.drv, {job.drv}, items, env.supported);
      }
      assert {job.drv} - {job.drv} == {};
  }

  lemma IngestDistinct(s: State, items: seq<EvalJob>, supported: set<string>)
    requires Inv(s, {}, items, supported)
    ensures Conserved(s, items, supported) && DistinctItems(items)
  {
  }
}
