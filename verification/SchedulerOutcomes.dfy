/**
 What a finished run says when each derivation has a fixed build outcome among
 all five: which jobs are built, and which are settled because of one they
 depend on.
 */
module SchedulerOutcomes {
  import opened Wrappers
  import opened SchedulerModel
  import opened SchedulerSort
  import opened SchedulerState
  import opened SchedulerInvariant
  import opened SchedulerSteps
  import opened SchedulerRuns
  import opened SchedulerConfluence

  /** Found in the local store, and taken as it is. */
  predicate Skipped(job: Job) {
    job.cacheStatus == Some(Local) && !job.requireFailure
  }

  /** A build of `job` ends as `fate` says, and only a failing build has a cached failure. */
  ghost predicate FatedFor(env: Env, fate: Drv -> BuildOutcome, job: Job) {
    && (Skipped(job) ==> fate(job.drv) == Success)
    && (!Skipped(job) ==> env.outcomes(job) <= {fate(job.drv)})
    && (!Skipped(job) && !job.requireFailure && !job.ignoreFailure && env.mayHit(job.drv) ==> fate(job.drv) == Failure)
  }

  ghost predicate Fated(env: Env, fate: Drv -> BuildOutcome, items: seq<EvalJob>) {
    forall x :: x in items && x.JobSuccess? ==> FatedFor(env, fate, x)
  }

  /** The status of a job that was dispatched, by the outcome of its build. */
  predicate Ends(job: Job, outcome: BuildOutcome, status: Status) {
    if Skipped(job) then status == SkippedLocal
    else
      match outcome
      case Success => status == if job.requireFailure then Failed else Succeeded
      case Failure =>
        if job.requireFailure then status == Succeeded
        else if job.ignoreFailure then status == IgnoredFailure
        else status == Failed || status == CachedFailure
      case FailureNoCache => status == if job.ignoreFailure && !job.requireFailure then IgnoredFailure else Failed
      case PostBuildFailure => status == if job.ignoreFailure && !job.requireFailure then IgnoredFailure else Failed
      case WasCancelled => status == Cancelled
  }

  /** The job counts as a success. */
  predicate Fine(job: Job, outcome: BuildOutcome) {
    || Skipped(job)
    || (outcome != WasCancelled
        && if job.requireFailure then outcome == Failure else outcome == Success || job.ignoreFailure)
  }

  lemma EndsFine(job: Job, outcome: BuildOutcome, status: Status)
    requires Ends(job, outcome, status)
    ensures Fine(job, outcome) <==> status in {Succeeded, SkippedLocal, IgnoredFailure}
  {
  }

  /** The jobs started, or skipped when their turn came. */
  function Dispatched(events: seq<Event>): set<EvalJob> {
    set e | e in events && (e.Start? || e.SkipLocal? || e.SkipFailed?) :: e.job
  }

  // ---------------------------------------------------------------------------
  // Dependency chains between the items
  // ---------------------------------------------------------------------------

  function Others(job: Job): set<Drv> {
    job.Deps() - {job.drv}
  }

  /** A chain of items, each depending on the one before, that ends with a dependency of `job`. */
  ghost predicate LeadsTo(items: seq<EvalJob>, chain: seq<Job>, job: Job) {
    && chain != []
    && (forall i :: 0 <= i < |chain| ==> chain[i] in items)
    && (forall i :: 0 < i < |chain| ==> chain[i - 1].drv in Others(chain[i]))
    && chain[|chain| - 1].drv in Others(job)
  }

  /** Some direct or indirect dependency of the job has one of these outcomes. */
  ghost predicate Upstream(items: seq<EvalJob>, fate: Drv -> BuildOutcome, outcomes: set<BuildOutcome>, job: Job) {
    exists chain: seq<Job> :: LeadsTo(items, chain, job) && fate(chain[0].drv) in outcomes
  }

  /** The derivation of an item that has one of these outcomes, or depends on one that has. */
  ghost predicate Source(items: seq<EvalJob>, fate: Drv -> BuildOutcome, outcomes: set<BuildOutcome>, drv: Drv) {
    exists j: Job :: j in items && j.drv == drv && (fate(drv) in outcomes || Upstream(items, fate, outcomes, j))
  }

  lemma UpstreamStep(items: seq<EvalJob>, fate: Drv -> BuildOutcome, outcomes: set<BuildOutcome>, drv: Drv, job: Job)
    requires Source(items, fate, outcomes, drv) && drv in Others(job)
    ensures Upstream(items, fate, outcomes, job)
  {
    var j: Job :| j in items && j.drv == drv && (fate(drv) in outcomes || Upstream(items, fate, outcomes, j));
    if fate(drv) in outcomes {
      assert LeadsTo(items, [j], job);
    } else {
      var chain: seq<Job> :| LeadsTo(items, chain, j) && fate(chain[0].drv) in outcomes;
      assert LeadsTo(items, chain + [j], job) && (chain + [j])[0] == chain[0];
    }
  }

  lemma UpstreamBack(items: seq<EvalJob>, fate: Drv -> BuildOutcome, outcomes: set<BuildOutcome>, job: Job)
      returns (j: Job)
    requires Upstream(items, fate, outcomes, job)
    ensures j in items && j.drv in Others(job) && Source(items, fate, outcomes, j.drv)
  {
    var chain: seq<Job> :| LeadsTo(items, chain, job) && fate(chain[0].drv) in outcomes;
    var n := |chain| - 1;
    j := chain[n];
    if n > 0 {
      assert LeadsTo(items, chain[..n], j) && chain[..n][0] == chain[0];
    }
  }

  /** `job` depends on `d`, directly or through other items. */
  ghost predicate Above(items: seq<EvalJob>, d: Job, job: Job) {
    exists chain: seq<Job> :: LeadsTo(items, chain, job) && chain[0] == d
  }

  lemma AboveStep(items: seq<EvalJob>, d: Job, from: Job, to: Job)
    requires from in items && (from == d || Above(items, d, from)) && from.drv in Others(to)
    ensures Above(items, d, to)
  {
    if from == d {
      assert LeadsTo(items, [d], to);
    } else {
      var chain: seq<Job> :| LeadsTo(items, chain, from) && chain[0] == d;
      assert LeadsTo(items, chain + [from], to) && (chain + [from])[0] == d;
    }
  }

  lemma AboveIsUpstream(items: seq<EvalJob>, fate: Drv -> BuildOutcome, outcomes: set<BuildOutcome>, d: Job, job: Job)
    requires Above(items, d, job) && fate(d.drv) in outcomes
    ensures Upstream(items, fate, outcomes, job)
  {
    var chain: seq<Job> :| LeadsTo(items, chain, job) && chain[0] == d;
    assert fate(chain[0].drv) in outcomes;
  }

  lemma UpstreamMore(items: seq<EvalJob>, fate: Drv -> BuildOutcome, a: set<BuildOutcome>, b: set<BuildOutcome>,
                     job: Job)
    requires a <= b
    ensures Upstream(items, fate, a, job) ==> Upstream(items, fate, b, job)
  {
    if Upstream(items, fate, a, job) {
      var chain: seq<Job> :| LeadsTo(items, chain, job) && fate(chain[0].drv) in a;
      assert fate(chain[0].drv) in b;
    }
  }

  // ---------------------------------------------------------------------------
  // What is said of jobs that are not dispatched
  // ---------------------------------------------------------------------------

  const CANCELLING: set<BuildOutcome> := {WasCancelled}
  const FAILING: set<BuildOutcome> := {Failure, FailureNoCache}
  const BLOCKING: set<BuildOutcome> := {Failure, FailureNoCache, WasCancelled}

  /** A settled job is cancelled because of a cancelled one, or failed because of a failed one. */
  ghost predicate SettledBy(items: seq<EvalJob>, fate: Drv -> BuildOutcome, job: Job, status: Status) {
    || (status == Cancelled && Upstream(items, fate, CANCELLING, job))
    || (status == DependencyFailed && Upstream(items, fate, FAILING, job))
  }

  /** The cause of each status that is passed on. */
  function CauseOf(status: Status): set<BuildOutcome> {
    if status == Cancelled then CANCELLING else FAILING
  }

  /** The attribute named is that of a job upstream with such an outcome. */
  ghost predicate Names(items: seq<EvalJob>, fate: Drv -> BuildOutcome, outcomes: set<BuildOutcome>, attr: string,
                        job: Job) {
    exists d: Job :: d in items && d.attr == attr && fate(d.drv) in outcomes && Above(items, d, job)
  }

  /** What a result repeats of its item. */
  predicate Labelled(r: AttributeResult) {
    && r.attr == r.job.attr
    && match r.job
       case JobError(_, error) => r.status == FailedEval && r.error == Some(error) && r.outPath.None?
       case JobSuccess(_, _, _, _, _, _, out, depsOnly, _, _) => r.outPath == if depsOnly then None else out
  }

  /** The error of a dispatched job: that of the cached failure, or that it should have failed. */
  predicate ExplainsError(r: AttributeResult, outcome: BuildOutcome)
    requires r.job.JobSuccess?
  {
    if r.status == CachedFailure then r.error.Some?
    else if !Skipped(r.job) && r.job.requireFailure && outcome == Success then
      r.error == Some("the build succeeded but requireFailure is set")
    else r.error.None?
  }

  ghost predicate Told(r: AttributeResult, items: seq<EvalJob>, fate: Drv -> BuildOutcome, done: set<EvalJob>) {
    && Labelled(r)
    && (r.job.JobSuccess? ==>
          if r.job in done then
            Ends(r.job, fate(r.job.drv), r.status) && ExplainsError(r, fate(r.job.drv)) && r.dependencyAttr.None?
          else
            && SettledBy(items, fate, r.job, r.status) && r.error.None?
            && (r.dependencyAttr.Some? ==> Names(items, fate, CauseOf(r.status), r.dependencyAttr.value, r.job)))
  }

  ghost predicate AllTold(results: seq<AttributeResult>, items: seq<EvalJob>, fate: Drv -> BuildOutcome,
                          done: set<EvalJob>) {
    forall r :: r in results ==> Told(r, items, fate, done)
  }

  /** The derivations failed so far, by cause. */
  ghost predicate Caused(failed: set<Drv>, cancelled: set<Drv>, items: seq<EvalJob>, fate: Drv -> BuildOutcome) {
    && (forall d :: d in cancelled ==> Source(items, fate, CANCELLING, d))
    && (forall d :: d in failed && d !in cancelled ==> Source(items, fate, FAILING, d))
  }

  lemma AllToldConcat(a: seq<AttributeResult>, b: seq<AttributeResult>, items: seq<EvalJob>,
                      fate: Drv -> BuildOutcome, done: set<EvalJob>)
    requires AllTold(a, items, fate, done) && AllTold(b, items, fate, done)
    ensures AllTold(a + b, items, fate, done)
  {
  }

  lemma SourceOf(items: seq<EvalJob>, fate: Drv -> BuildOutcome, outcomes: set<BuildOutcome>, job: Job)
    requires job in items && (fate(job.drv) in outcomes || Upstream(items, fate, outcomes, job))
    ensures Source(items, fate, outcomes, job.drv)
  {
  }

  // ---------------------------------------------------------------------------
  // Settling
  // ---------------------------------------------------------------------------

  /** A candidate with a failed dependency other than itself is settled for a cause. */
  lemma SettleOneTold(a: Settling, job: Job, items: seq<EvalJob>, fate: Drv -> BuildOutcome, done: set<EvalJob>)
    requires AllTold(a.results, items, fate, done) && Caused(a.failed, a.cancelled, items, fate)
    requires job in items && job !in done && job.drv !in a.failed
    ensures var b := SettleOne(a, job);
            AllTold(b.results, items, fate, done) && Caused(b.failed, b.cancelled, items, fate)
  {
    hide Upstream, Source;
    var blocking := job.Deps() * a.failed;
    var b := SettleOne(a, job);
    if blocking != {} {
      if blocking <= a.cancelled {
        var d :| d in blocking;
        UpstreamStep(items, fate, CANCELLING, d, job);
        SourceOf(items, fate, CANCELLING, job);
      } else {
        var d :| d in blocking && d !in a.cancelled;
        UpstreamStep(items, fate, FAILING, d, job);
        SourceOf(items, fate, FAILING, job);
      }
      var r := b.results[|a.results|];
      assert b.results == a.results + [r] && Told(r, items, fate, done);
    }
  }

  /** Nothing is settled twice. */
  ghost predicate Unsettled(jobs: seq<Job>, a: Settling) {
    && Distinct(jobs) && Distinct(a.remaining)
    && Drvs(jobs) !! a.failed && Drvs(a.remaining) !! a.failed && Drvs(jobs) !! Drvs(a.remaining)
  }

  lemma {:induction false} SettlePassTold(jobs: seq<Job>, a: Settling, items: seq<EvalJob>,
                                          fate: Drv -> BuildOutcome, done: set<EvalJob>)
    requires Unsettled(jobs, a) && AllTold(a.results, items, fate, done)
    requires Caused(a.failed, a.cancelled, items, fate)
    requires forall j :: j in jobs || j in a.remaining ==> j in items && j !in done
    ensures var b := SettlePass(jobs, a);
            && AllTold(b.results, items, fate, done) && Caused(b.failed, b.cancelled, items, fate)
            && b.failed <= a.failed + Drvs(jobs) && Distinct(b.remaining) && Drvs(b.remaining) !! b.failed
            && Drvs(b.remaining) <= Drvs(a.remaining) + Drvs(jobs)
            && (forall j :: j in b.remaining ==> j in items && j !in done)
  {
    hide AllTold, Caused;
    if jobs != [] {
      var init, last := jobs[..|jobs| - 1], jobs[|jobs| - 1];
      assert jobs == init + [last];
      assert Drvs(jobs) == Drvs(init) + {last.drv} && last.drv !in Drvs(init);
      SettlePassTold(init, a, items, fate, done);
      SettleOneTold(SettlePass(init, a), last, items, fate, done);
    }
  }

  lemma {:induction false} SettleAllTold(jobs: seq<Job>, failed: set<Drv>, cancelled: set<Drv>,
                                         results: seq<AttributeResult>, items: seq<EvalJob>,
                                         fate: Drv -> BuildOutcome, done: set<EvalJob>)
    requires Distinct(jobs) && Drvs(jobs) !! failed && AllTold(results, items, fate, done)
    requires Caused(failed, cancelled, items, fate)
    requires forall j :: j in jobs ==> j in items && j !in done
    ensures var st := SettleAll(jobs, failed, cancelled, results);
            && AllTold(st.results, items, fate, done) && Caused(st.failed, st.cancelled, items, fate)
            && forall j :: j in st.remaining ==> j in items && j !in done
    decreases |jobs|
  {
    hide AllTold, Caused, Distinct;
    var a := Settling([], failed, cancelled, results);
    NothingDistinct();
    SettlePassTold(jobs, a, items, fate, done);
    var st := SettlePass(jobs, a);
    if |st.results| != |results| {
      SettleAllTold(st.remaining, st.failed, st.cancelled, st.results, items, fate, done);
    }
  }

  lemma NothingDistinct()
    ensures Distinct([]) && Drvs([]) == {}
  {
  }

  /** The pending jobs and the new ones have derivations of their own. */
  lemma MergedSeparates(s: State, supported: set<string>, news: seq<EvalJob>, items: seq<EvalJob>)
    requires Inv(s, {}, items, supported) && DistinctItems(items + news)
    ensures Distinct(s.pending + Buildable(news, supported))
    ensures Drvs(s.pending + Buildable(news, supported)) !! s.failed
  {
    hide Distinct, DistinctItems, Indexed, Covered, Safe, Buildable, EvalFailures, Accepted, ResultItems;
    var merged := s.(results := s.results + EvalFailures(news), pending := s.pending + Buildable(news, supported));
    ResultItemsConcat(s.results, EvalFailures(news));
    PartitionSplits(news, supported);
    AcceptedConcat(items, news, supported);
    ConservedSeparates(merged, items + news, supported);
    assert ResultDrvs(s.results) <= ResultDrvs(merged.results);
  }

  // ---------------------------------------------------------------------------
  // Every step tells the truth
  // ---------------------------------------------------------------------------

  /** All that is decided so far is explained; `done` are the jobs dispatched. */
  ghost predicate Explained(s: State, items: seq<EvalJob>, fate: Drv -> BuildOutcome, done: set<EvalJob>) {
    && AllTold(s.results, items, fate, done) && Caused(s.failed, s.cancelled, items, fate)
    && (forall j :: j in s.pending ==> j in items && j !in done)
    && (forall j :: j in s.running ==> j in items && j in done && !Skipped(j))
    && (forall x :: x in done ==> x.attr in s.seen)
  }

  lemma {:induction false} PartitionTold(news: seq<EvalJob>, supported: set<string>, items: seq<EvalJob>,
                                         fate: Drv -> BuildOutcome, done: set<EvalJob>)
    ensures AllTold(EvalFailures(news), items, fate, done)
    ensures forall j :: j in Buildable(news, supported) ==> j in Accepted(news, supported) && j in news
  {
    if news != [] {
      var init, last := news[..|news| - 1], news[|news| - 1];
      assert news == init + [last];
      PartitionTold(init, supported, items, fate, done);
    }
  }

  lemma IngestTold(env: Env, s: State, batch: seq<EvalJob>, order: seq<Job>, fed: seq<EvalJob>, items: seq<EvalJob>,
                   fate: Drv -> BuildOutcome, done: set<EvalJob>)
    requires Inv(s, {}, fed, env.supported) && Enabled(env, s, Deliver(batch, order))
    requires Explained(s, items, fate, done) && DistinctItems(fed + FreshOf(batch, s.seen))
    requires forall x :: x in Accepted(fed + FreshOf(batch, s.seen), env.supported) ==> x in items
    ensures Explained(Apply(env, s, Deliver(batch, order)), items, fate, done)
  {
    hide Inv, AllTold, Caused, SettleAll, EvalFailures, Buildable, FreshOf, Accepted, Distinct, DistinctItems,
         DepsFirst,
         JobClosures, ReverseDeps;
    var news := FreshOf(batch, s.seen);
    MergedSeparates(s, env.supported, news, fed);
    PartitionTold(news, env.supported, items, fate, done);
    AllToldConcat(s.results, EvalFailures(news), items, fate, done);
    AcceptedConcat(fed, news, env.supported);
    FreshOfMembers(batch, s.seen);
    var jobs := s.pending + Buildable(news, env.supported);
    forall j | j in jobs
      ensures j in items && j !in done
    {
      if j !in s.pending {
        assert j in Buildable(news, env.supported) && j in news;
        assert j in Accepted(fed, env.supported) + Accepted(news, env.supported);
      }
    }
    SettleAllTold(jobs, s.failed, s.cancelled, s.results + EvalFailures(news), items, fate, done);
    SameMembers(order, Settled(s, env.supported, batch).remaining);
  }

  /** The dependents of a job have it upstream. */
  lemma DependentsAbove(s: State, job: Job, dependents: seq<Job>, items: seq<EvalJob>)
    requires IsDependents(s, job, dependents) && Indexed(s, {job.drv}) && job in items
    requires forall j :: j in s.pending ==> j in items
    ensures forall j :: j in dependents ==> j in s.pending
    ensures forall j :: j in dependents && Distinct(s.pending) ==> Above(items, job, j)
  {
    hide Above;
    var within := Drvs(s.pending);
    var found := Dependents(s.closures, within, job.drv);
    SameMembers(dependents, Select(s.pending, found, true));
    SelectMembers(s.pending, found, true);
    var below := set j | j in s.pending && Above(items, job, j) :: j.drv;
    forall from, to | (from == job.drv || from in below) && to in within && Edge(s.closures, from, to)
      ensures to in below
    {
      var k :| k in s.pending && k.drv == to;
      assert from in Others(k);
      if from == job.drv {
        AboveStep(items, job, job, k);
      } else {
        var j :| j in s.pending && Above(items, job, j) && j.drv == from;
        AboveStep(items, job, j, k);
      }
    }
    DependentsAreLeast(s.closures, within, job.drv, below);
    forall j | j in dependents && Distinct(s.pending)
      ensures Above(items, job, j)
    {
      assert j.drv in below;
      var k :| k in s.pending && Above(items, job, k) && k.drv == j.drv;
      SameJob(s.pending, j, k);
    }
  }

  lemma {:induction false} DependencyTold(dependents: seq<Job>, status: Status, attr: string, items: seq<EvalJob>,
                                          fate: Drv -> BuildOutcome, done: set<EvalJob>)
    requires forall j :: j in dependents ==>
               j !in done && SettledBy(items, fate, j, status) && Names(items, fate, CauseOf(status), attr, j)
    ensures AllTold(DependencyResults(dependents, status, attr), items, fate, done)
  {
    hide SettledBy, Names;
    if dependents != [] {
      DependencyTold(dependents[..|dependents| - 1], status, attr, items, fate, done);
    }
  }

  lemma FailDependentsTold(s: State, job: Job, status: Status, dependents: seq<Job>, items: seq<EvalJob>,
                           fate: Drv -> BuildOutcome, done: set<EvalJob>)
    requires IsDependents(s, job, dependents) && Indexed(s, {job.drv}) && Distinct(s.pending) && job in items
    requires status == Cancelled || status == DependencyFailed
    requires fate(job.drv) in CauseOf(status)
    requires Explained(s, items, fate, done)
    ensures Explained(FailDependents(s, job, status, dependents), items, fate, done)
  {
    hide Upstream, Source, IsDependents, Indexed, Distinct, Told, Above;
    var s' := FailDependents(s, job, status, dependents);
    DependentsAbove(s, job, dependents, items);
    forall j | j in dependents
      ensures Upstream(items, fate, CauseOf(status), j) && Names(items, fate, CauseOf(status), job.attr, j)
    {
      AboveIsUpstream(items, fate, CauseOf(status), job, j);
    }
    DependencyTold(dependents, status, job.attr, items, fate, done);
    AllToldConcat(s.results, DependencyResults(dependents, status, job.attr), items, fate, done);
    SelectMembers(s.pending, {job.drv} + Drvs(dependents), false);
    SourceOf(items, fate, CauseOf(status), job);
    forall j | j in dependents
      ensures Source(items, fate, CauseOf(status), j.drv)
    {
      SourceOf(items, fate, CauseOf(status), j);
    }
  }

  /** What an event dispatches. */
  function DispatchOf(e: Event): set<EvalJob> {
    if e.Start? || e.SkipLocal? || e.SkipFailed? then {e.job} else {}
  }

  /** A pending job has no result yet and does not run: dispatching it changes nothing said of others. */
  lemma DispatchTold(s: State, job: Job, fed: seq<EvalJob>, supported: set<string>, items: seq<EvalJob>,
                     fate: Drv -> BuildOutcome, done: set<EvalJob>)
    requires Inv(s, {}, fed, supported) && job in s.pending && Explained(s, items, fate, done)
    ensures AllTold(s.results, items, fate, done + {job})
    ensures forall j :: j in Remove(s.pending, job) ==> j in items && j !in done + {job}
    ensures job in items && job.attr in s.seen && job !in s.running
  {
    hide Indexed, Covered, SettledBy, Ends, Remove, Safe, Caused, Conserved, DistinctItems;
    ConservedSeparates(s, fed, supported);
    PendingIsFed(s, {}, fed, supported);
    RemovedDrvs(s.pending, job);
    assert job.drv in Drvs(s.pending);
    forall r | r in s.results
      ensures Told(r, items, fate, done + {job})
    {
      assert Told(r, items, fate, done);
      if r.job.JobSuccess? {
        assert r.job.drv in ResultDrvs(s.results);
      }
    }
  }

  lemma ToldAppend(results: seq<AttributeResult>, r: AttributeResult, items: seq<EvalJob>, fate: Drv -> BuildOutcome,
                   done: set<EvalJob>)
    requires AllTold(results, items, fate, done) && Told(r, items, fate, done)
    ensures AllTold(results + [r], items, fate, done)
  {
  }

  lemma StartTold(env: Env, s: State, job: Job, fed: seq<EvalJob>, items: seq<EvalJob>, fate: Drv -> BuildOutcome,
                  done: set<EvalJob>)
    requires Inv(s, {}, fed, env.supported) && Enabled(env, s, Start(job)) && Explained(s, items, fate, done)
    ensures Explained(Apply(env, s, Start(job)), items, fate, done + {job})
  {
    hide Inv, AllTold, Caused, Remove, Ready;
    DispatchTold(s, job, fed, env.supported, items, fate, done);
  }

  lemma SkipLocalTold(env: Env, s: State, job: Job, fed: seq<EvalJob>, items: seq<EvalJob>,
                      fate: Drv -> BuildOutcome, done: set<EvalJob>)
    requires Inv(s, {}, fed, env.supported) && Enabled(env, s, SkipLocal(job)) && Explained(s, items, fate, done)
    ensures Explained(Apply(env, s, SkipLocal(job)), items, fate, done + {job})
  {
    hide Inv, AllTold, Caused, Remove, Ready, PruneClosures;
    DispatchTold(s, job, fed, env.supported, items, fate, done);
    ToldAppend(s.results, SuccessResult(job, SkippedLocal, None, None), items, fate, done + {job});
  }

  lemma SkipFailedTold(env: Env, s: State, job: Job, error: string, dependents: seq<Job>, fed: seq<EvalJob>,
                       items: seq<EvalJob>, fate: Drv -> BuildOutcome, done: set<EvalJob>)
    requires Inv(s, {}, fed, env.supported) && Enabled(env, s, SkipFailed(job, error, dependents))
    requires Explained(s, items, fate, done) && Fated(env, fate, items)
    ensures Explained(Apply(env, s, SkipFailed(job, error, dependents)), items, fate, done + {job})
  {
    hide Inv, AllTold, Caused, Remove, Ready, PruneClosures, IsDependents, FailDependents, Indexed, Distinct;
    DispatchTold(s, job, fed, env.supported, items, fate, done);
    assert FatedFor(env, fate, job);
    var r := SuccessResult(job, CachedFailure, Some(error), None);
    ToldAppend(s.results, r, items, fate, done + {job});
    var s1 := SkipFailedState(s, job, error);
    RetirePendingKeepsInv(s, job, r, fed, env.supported);
    RetiringParts(s1, job, fed, env.supported);
    FailDependentsTold(s1, job, DependencyFailed, dependents, items, fate, done + {job});
  }

  lemma RetiringParts(s: State, job: Job, fed: seq<EvalJob>, supported: set<string>)
    requires Inv(s, {job.drv}, fed, supported)
    ensures Indexed(s, {job.drv}) && Distinct(s.pending)
  {
    ConservedSeparates(s, fed, supported);
  }

  /** The status of a finished job is the one its outcome stands for. */
  lemma FinishEnds(job: Job, outcome: BuildOutcome)
    requires !Skipped(job)
    ensures var (status, error) := OutcomeStatus(job, outcome);
            Ends(job, outcome, status) && ExplainsError(SuccessResult(job, status, error, None), outcome)
  {
  }

  lemma FinishTold(env: Env, s: State, job: Job, outcome: BuildOutcome, dependents: seq<Job>, fed: seq<EvalJob>,
                   items: seq<EvalJob>, fate: Drv -> BuildOutcome, done: set<EvalJob>)
    requires Inv(s, {}, fed, env.supported) && Enabled(env, s, Finish(job, outcome, dependents))
    requires Explained(s, items, fate, done) && Fated(env, fate, items)
    ensures Explained(Apply(env, s, Finish(job, outcome, dependents)), items, fate, done)
  {
    hide Inv, AllTold, Caused, Remove, PruneClosures, IsDependents, FailDependents, Indexed, Distinct, Ends,
         OutcomeStatus, ExplainsError;
    assert FatedFor(env, fate, job);
    FinishEnds(job, outcome);
    var (status, error) := OutcomeStatus(job, outcome);
    var r := SuccessResult(job, status, error, None);
    ToldAppend(s.results, r, items, fate, done);
    StillRunning(s.running, job);
    if Propagates(outcome) {
      var s1 := FinishState(s, job, outcome);
      RetireRunningKeepsInv(s, job, r, fed, env.supported);
      RetiringParts(s1, job, fed, env.supported);
      FailDependentsTold(s1, job, PropagatedStatus(outcome), dependents, items, fate, done);
    }
  }

  lemma StepTold(env: Env, s: State, e: Event, fed: seq<EvalJob>, items: seq<EvalJob>, fate: Drv -> BuildOutcome,
                 done: set<EvalJob>)
    requires Inv(s, {}, fed, env.supported) && Enabled(env, s, e) && DistinctItems(Fed(fed, s, e))
    requires Explained(s, items, fate, done) && Fated(env, fate, items)
    requires forall x :: x in Accepted(Fed(fed, s, e), env.supported) ==> x in items
    ensures Explained(Apply(env, s, e), items, fate, done + DispatchOf(e))
  {
    hide Inv, Enabled, Apply, Explained, Fated, DistinctItems, Accepted, FreshOf;
    assert done + {} == done;
    match e
    case Deliver(batch, order) => IngestTold(env, s, batch, order, fed, items, fate, done);
    case Start(job) => StartTold(env, s, job, fed, items, fate, done);
    case SkipLocal(job) => SkipLocalTold(env, s, job, fed, items, fate, done);
    case SkipFailed(job, error, dependents) =>
      SkipFailedTold(env, s, job, error, dependents, fed, items, fate, done);
    case Finish(job, outcome, dependents) =>
      FinishTold(env, s, job, outcome, dependents, fed, items, fate, done);
  }

  lemma DispatchedGrows(events: seq<Event>)
    requires events != []
    ensures Dispatched(events) == Dispatched(events[..|events| - 1]) + DispatchOf(events[|events| - 1])
  {
    var init, e := events[..|events| - 1], events[|events| - 1];
    assert events == init + [e];
  }

  /** Accepted items stay accepted. */
  lemma AcceptedGrows(events: seq<Event>, s: State, supported: set<string>)
    requires events != [] && s.seen == Attrs(FedItems(Batches(events[..|events| - 1])))
    ensures forall x :: x in Accepted(FedItems(Batches(events[..|events| - 1])), supported) ==>
              x in Accepted(FedItems(Batches(events)), supported)
  {
    hide Accepted, FreshOf, Batches, FedItems;
    FedByStep(events, s);
    var e := events[|events| - 1];
    if e.Deliver? {
      AcceptedConcat(FedItems(Batches(events[..|events| - 1])), FreshOf(e.batch, s.seen), supported);
    }
  }

  lemma {:induction false} RunTold(env: Env, events: seq<Event>, items: seq<EvalJob>, fate: Drv -> BuildOutcome)
    requires Exec(env, events).Some? && WellFormed(Batches(events)) && Fated(env, fate, items)
    requires forall x :: x in Accepted(FedItems(Batches(events)), env.supported) ==> x in items
    ensures Explained(Exec(env, events).value, items, fate, Dispatched(events))
  {
    hide Inv, Enabled, Apply, WellFormed, FedItems, Batches, Fated, Explained, Dispatched, Accepted, DistinctItems;
    if events == [] {
      NothingTold(items, fate);
    } else {
      var init, e := events[..|events| - 1], events[|events| - 1];
      var s := Exec(env, init).value;
      BatchesGrow(events);
      WellFormedPrefix(Batches(init), Batches(events));
      RunKeepsInv(env, init);
      InvSeen(s, FedItems(Batches(init)), env.supported);
      FedByStep(events, s);
      AcceptedGrows(events, s, env.supported);
      WellFormedIsDistinct(Batches(events));
      RunTold(env, init, items, fate);
      StepTold(env, s, e, FedItems(Batches(init)), items, fate, Dispatched(init));
      DispatchedGrows(events);
    }
  }

  lemma NothingTold(items: seq<EvalJob>, fate: Drv -> BuildOutcome)
    ensures Explained(Initial, items, fate, Dispatched([]))
  {
  }

  // ---------------------------------------------------------------------------
  // No dependency comes late
  // ---------------------------------------------------------------------------

  /** The dependencies of `fed` among `items` are in `fed`. */
  ghost predicate ClosedIn(fed: seq<EvalJob>, items: seq<EvalJob>) {
    forall x: Job, y: Job :: x in fed && y in items && y.drv in Others(x) ==> y in fed
  }

  /** No batch comes before one with a dependency of its jobs. */
  ghost predicate InTime(batches: seq<seq<EvalJob>>, supported: set<string>) {
    forall n :: 0 <= n <= |batches| ==>
      ClosedIn(Accepted(FedItems(batches[..n]), supported), Accepted(FedItems(batches), supported))
  }

  /** A single batch comes before no other. */
  lemma OneBatchInTime(batch: seq<EvalJob>, supported: set<string>)
    ensures InTime([batch], supported)
  {
    hide Others;
    forall n | 0 <= n <= 1
      ensures ClosedIn(Accepted(FedItems([batch][..n]), supported), Accepted(FedItems([batch]), supported))
    {
      assert [batch][..0] == [] && [batch][..1] == [batch];
    }
  }

  /** Finished jobs that have such an outcome or depend on one are failed, and no other job was dispatched. */
  ghost predicate Complete(s: State, items: seq<EvalJob>, fate: Drv -> BuildOutcome, done: set<EvalJob>) {
    && AllFailed(s.results, s.failed, items, fate)
    && (forall x: Job :: x in done ==> !Upstream(items, fate, BLOCKING, x))
    && (forall j :: j in s.running ==> j in done)
  }

  ghost predicate AllFailed(results: seq<AttributeResult>, failed: set<Drv>, items: seq<EvalJob>,
                            fate: Drv -> BuildOutcome) {
    forall r :: r in results && r.job.JobSuccess? && Source(items, fate, BLOCKING, r.job.drv) ==> r.job.drv in failed
  }

  lemma NotInEmpty(a: set<Drv>, b: set<Drv>, c: set<Drv>, x: Drv)
    requires a * b - c == {} && x in b && x !in c
    ensures x !in a
  {
    assert x !in a * b - c;
  }

  /** The dependencies of a ready job are all there, finished, and not failed. */
  lemma DependencyIsDone(s: State, job: Job, j: Job, fed: seq<EvalJob>, supported: set<string>, items: seq<EvalJob>)
    requires Inv(s, {}, fed, supported) && job in s.pending && Ready(s.closures, job)
    requires ClosedIn(Accepted(fed, supported), items) && j in items && j.drv in Others(job)
    ensures j.drv !in s.failed && exists r :: r in s.results && r.job == j
  {
    hide Covered, DistinctItems, Accepted;
    assert job in AllItems(s) && job in multiset(AllItems(s));
    assert job in Accepted(fed, supported);
    assert j in Accepted(fed, supported) && j in multiset(Accepted(fed, supported)) && j in multiset(AllItems(s));
    assert s.closures[job.drv] == ((InFlight(s) + {}) * job.Deps()) - {job.drv};
    NotInEmpty(InFlight(s) + {}, job.Deps(), {job.drv}, j.drv);
    assert j !in s.pending && j !in s.running;
    var i :| 0 <= i < |s.results| && s.results[i].job == j;
    assert s.results[i] in s.results;
  }

  /** A ready job has nothing blocking upstream. */
  lemma ReadyIsClear(s: State, job: Job, fed: seq<EvalJob>, supported: set<string>, items: seq<EvalJob>,
                     fate: Drv -> BuildOutcome)
    requires Inv(s, {}, fed, supported) && job in s.pending && Ready(s.closures, job)
    requires ClosedIn(Accepted(fed, supported), items) && AllFailed(s.results, s.failed, items, fate)
    ensures !Upstream(items, fate, BLOCKING, job)
  {
    hide Inv, Ready, Upstream, Source, ClosedIn, Accepted;
    if Upstream(items, fate, BLOCKING, job) {
      var j := UpstreamBack(items, fate, BLOCKING, job);
      DependencyIsDone(s, job, j, fed, supported, items);
    }
  }

  lemma {:induction false} SettlePassFails(jobs: seq<Job>, a: Settling)
    ensures var b := SettlePass(jobs, a);
            && a.failed <= b.failed
            && forall r :: r in b.results && r.job.JobSuccess? ==> r in a.results || r.job.drv in b.failed
  {
    if jobs != [] {
      SettlePassFails(jobs[..|jobs| - 1], a);
    }
  }

  lemma {:induction false} SettleAllFails(jobs: seq<Job>, failed: set<Drv>, cancelled: set<Drv>,
                                          results: seq<AttributeResult>)
    ensures var st := SettleAll(jobs, failed, cancelled, results);
            && failed <= st.failed
            && forall r :: r in st.results && r.job.JobSuccess? ==> r in results || r.job.drv in st.failed
    decreases |jobs|
  {
    var a := Settling([], failed, cancelled, results);
    SettlePassFails(jobs, a);
    var st := SettlePass(jobs, a);
    if |st.results| != |results| {
      SettleAllFails(st.remaining, st.failed, st.cancelled, st.results);
    }
  }

  lemma IngestComplete(env: Env, s: State, batch: seq<EvalJob>, order: seq<Job>, items: seq<EvalJob>,
                       fate: Drv -> BuildOutcome, done: set<EvalJob>)
    requires Enabled(env, s, Deliver(batch, order)) && Complete(s, items, fate, done)
    ensures Complete(Apply(env, s, Deliver(batch, order)), items, fate, done)
  {
    hide Upstream, Source, SettleAll, FreshOf, Buildable, EvalFailures, JobClosures, ReverseDeps, DepsFirst;
    var news := FreshOf(batch, s.seen);
    PartitionTold(news, env.supported, items, fate, done);
    FailuresAreErrors(news);
    SettleAllFails(s.pending + Buildable(news, env.supported), s.failed, s.cancelled, s.results + EvalFailures(news));
  }

  lemma {:induction false} FailuresAreErrors(news: seq<EvalJob>)
    ensures forall r :: r in EvalFailures(news) ==> r.job.JobError?
  {
    if news != [] {
      FailuresAreErrors(news[..|news| - 1]);
    }
  }

  lemma {:induction false} DependencyJobs(dependents: seq<Job>, status: Status, attr: string)
    ensures forall r :: r in DependencyResults(dependents, status, attr) ==> r.job in dependents
  {
    if dependents != [] {
      var init, last := dependents[..|dependents| - 1], dependents[|dependents| - 1];
      assert dependents == init + [last];
      DependencyJobs(init, status, attr);
    }
  }

  lemma FailDependentsFails(s: State, job: Job, status: Status, dependents: seq<Job>, items: seq<EvalJob>,
                            fate: Drv -> BuildOutcome)
    requires forall r :: r in s.results && r.job.JobSuccess? && Source(items, fate, BLOCKING, r.job.drv) ==>
               r.job.drv in s.failed || r.job == job
    ensures var s' := FailDependents(s, job, status, dependents);
            AllFailed(s'.results, s'.failed, items, fate) && s'.running == s.running
  {
    hide Source;
    DependencyJobs(dependents, status, job.attr);
  }

  /** The derivation of a job that does not block and has nothing blocking upstream. */
  lemma ClearJob(job: Job, items: seq<EvalJob>, fate: Drv -> BuildOutcome)
    requires DistinctItems(items) && job in items
    requires fate(job.drv) !in BLOCKING && !Upstream(items, fate, BLOCKING, job)
    ensures !Source(items, fate, BLOCKING, job.drv)
  {
    hide Upstream, DistinctItems;
    if Source(items, fate, BLOCKING, job.drv) {
      var j: Job :| j in items && j.drv == job.drv && Upstream(items, fate, BLOCKING, j);
      SameItem(items, j, job);
    }
  }

  lemma SameItem(items: seq<EvalJob>, x: Job, y: Job)
    requires DistinctItems(items) && x in items && y in items && x.drv == y.drv
    ensures x == y
  {
    var a :| 0 <= a < |items| && items[a] == x;
    var b :| 0 <= b < |items| && items[b] == y;
    assert !(a < b) && !(b < a);
  }

  lemma StepComplete(env: Env, s: State, e: Event, fed: seq<EvalJob>, items: seq<EvalJob>,
                     fate: Drv -> BuildOutcome, done: set<EvalJob>)
    requires Inv(s, {}, fed, env.supported) && Enabled(env, s, e) && DistinctItems(items)
    requires Explained(s, items, fate, done) && Fated(env, fate, items) && Complete(s, items, fate, done)
    requires ClosedIn(Accepted(fed, env.supported), items)
    ensures Complete(Apply(env, s, e), items, fate, done + DispatchOf(e))
  {
    hide Inv, Upstream, Source, Accepted, DistinctItems, ClosedIn, CanIngest, Ingest, FailDependents, Remove,
         PruneClosures, IsDependents, OutcomeStatus, AllTold, Caused, Ready;
    assert done + {} == done;
    match e
    case Deliver(batch, order) => IngestComplete(env, s, batch, order, items, fate, done);
    case Start(job) => ReadyIsClear(s, job, fed, env.supported, items, fate);
    case SkipLocal(job) =>
      ReadyIsClear(s, job, fed, env.supported, items, fate);
      assert FatedFor(env, fate, job);
      ClearJob(job, items, fate);
    case SkipFailed(job, error, dependents) =>
      ReadyIsClear(s, job, fed, env.supported, items, fate);
      FailDependentsFails(SkipFailedState(s, job, error), job, DependencyFailed, dependents, items, fate);
    case Finish(job, outcome, dependents) =>
      assert FatedFor(env, fate, job);
      StillRunning(s.running, job);
      if Propagates(outcome) {
        FailDependentsFails(FinishState(s, job, outcome), job, PropagatedStatus(outcome), dependents, items, fate);
      } else {
        ClearJob(job, items, fate);
      }
  }

  lemma {:induction false} RunComplete(env: Env, events: seq<Event>, items: seq<EvalJob>, fate: Drv -> BuildOutcome)
    requires Exec(env, events).Some? && WellFormed(Batches(events)) && Fated(env, fate, items) && DistinctItems(items)
    requires forall x :: x in Accepted(FedItems(Batches(events)), env.supported) ==> x in items
    requires forall n :: 0 <= n <= |Batches(events)| ==>
               ClosedIn(Accepted(FedItems(Batches(events)[..n]), env.supported), items)
    ensures Complete(Exec(env, events).value, items, fate, Dispatched(events))
  {
    hide Inv, Enabled, Apply, WellFormed, FedItems, Batches, Fated, Explained, Complete, Dispatched, Accepted,
         DistinctItems, ClosedIn;
    if events == [] {
      NothingComplete(items, fate);
    } else {
      var init, e := events[..|events| - 1], events[|events| - 1];
      var s := Exec(env, init).value;
      BatchesGrow(events);
      BatchesBefore(events);
      WellFormedPrefix(Batches(init), Batches(events));
      RunKeepsInv(env, init);
      InvSeen(s, FedItems(Batches(init)), env.supported);
      AcceptedGrows(events, s, env.supported);
      RunTold(env, init, items, fate);
      forall n | 0 <= n <= |Batches(init)|
        ensures ClosedIn(Accepted(FedItems(Batches(init)[..n]), env.supported), items)
      {
        assert Batches(init)[..n] == Batches(events)[..n];
      }
      RunComplete(env, init, items, fate);
      assert Batches(init)[..|Batches(init)|] == Batches(init);
      StepComplete(env, s, e, FedItems(Batches(init)), items, fate, Dispatched(init));
      DispatchedGrows(events);
    }
  }

  lemma BatchesBefore(events: seq<Event>)
    requires events != []
    ensures var before, after := Batches(events[..|events| - 1]), Batches(events);
            |before| <= |after| && before == after[..|before|]
  {
  }

  lemma NothingComplete(items: seq<EvalJob>, fate: Drv -> BuildOutcome)
    ensures Complete(Initial, items, fate, Dispatched([]))
  {
  }

  // ---------------------------------------------------------------------------
  // The law of finished runs
  // ---------------------------------------------------------------------------

  /** A job is not dispatched only when one it depends on, directly or not, failed or was cancelled; it is then settled
      as dependency-failed or as cancelled accordingly, and names such a job if any. A post-build failure stops nobody.
      When no dependency comes late, the jobs dispatched are exactly those with nothing failed or cancelled upstream. */
  lemma {:induction false} FinishedOutcomes(env: Env, events: seq<Event>, fate: Drv -> BuildOutcome)
    requires Finished(env, events) && WellFormed(Batches(events))
    requires Fated(env, fate, Accepted(FedItems(Batches(events)), env.supported))
    ensures var items := Accepted(FedItems(Batches(events)), env.supported);
            var results := Exec(env, events).value.results;
            && multiset(ResultItems(results)) == multiset(items)
            && (forall r :: r in results ==> Labelled(r))
            && (forall r :: r in results && r.job in Dispatched(events) && r.job.JobSuccess? ==>
                  && Ends(r.job, fate(r.job.drv), r.status) && ExplainsError(r, fate(r.job.drv))
                  && r.dependencyAttr.None?)
            && (forall r :: r in results && r.job !in Dispatched(events) && r.job.JobSuccess? ==>
                  || (r.status == Cancelled && Upstream(items, fate, {WasCancelled}, r.job)
                      && NamesOne(items, fate, {WasCancelled}, r))
                  || (r.status == DependencyFailed && Upstream(items, fate, {Failure, FailureNoCache}, r.job)
                      && NamesOne(items, fate, {Failure, FailureNoCache}, r)))
            && (InTime(Batches(events), env.supported) ==>
                  forall j: Job :: j in items ==>
                    (j in Dispatched(events)
                     <==> !Upstream(items, fate, {Failure, FailureNoCache, WasCancelled}, j)))
  {
    hide Inv, Enabled, Apply, Exec, WellFormed, FedItems, Batches, Fated, Dispatched, Accepted, DistinctItems, ClosedIn,
         Upstream, Source, Ends, Labelled, ExplainsError, Names;
    var items := Accepted(FedItems(Batches(events)), env.supported);
    var s := Exec(env, events).value;
    var done := Dispatched(events);
    FinishedRunConserves(env, events);
    RunTold(env, events, items, fate);
    forall r | r in s.results
      ensures Told(r, items, fate, done)
    {
    }
    if InTime(Batches(events), env.supported) {
      WellFormedIsDistinct(Batches(events));
      AcceptedDistinct(FedItems(Batches(events)), env.supported);
      RunComplete(env, events, items, fate);
      ItemsOfResults(s.results, items);
      forall j: Job | j in items
        ensures j in done <==> !Upstream(items, fate, BLOCKING, j)
      {
        if j !in done {
          var r :| r in s.results && r.job == j;
          UpstreamMore(items, fate, CANCELLING, BLOCKING, j);
          UpstreamMore(items, fate, FAILING, BLOCKING, j);
        }
      }
    }
  }

  /** No error of its own, and the attribute named, if any, is upstream with such an outcome. */
  ghost predicate NamesOne(items: seq<EvalJob>, fate: Drv -> BuildOutcome, outcomes: set<BuildOutcome>,
                           r: AttributeResult)
    requires r.job.JobSuccess?
  {
    r.error.None? && (r.dependencyAttr.Some? ==> Names(items, fate, outcomes, r.dependencyAttr.value, r.job))
  }

  /** The schedule is a success if and only if nothing failed to evaluate, nothing failed or was cancelled upstream of
      anything, and every job ended as it should. */
  lemma {:induction false} FinishedSuccess(env: Env, events: seq<Event>, fate: Drv -> BuildOutcome)
    requires Finished(env, events) && WellFormed(Batches(events)) && InTime(Batches(events), env.supported)
    requires Fated(env, fate, Accepted(FedItems(Batches(events)), env.supported))
    ensures var items := Accepted(FedItems(Batches(events)), env.supported);
            ScheduleSuccess(Exec(env, events).value.results) <==>
            forall x :: x in items ==>
              && x.JobSuccess? && Fine(x, fate(x.drv))
              && !Upstream(items, fate, {Failure, FailureNoCache, WasCancelled}, x)
  {
    hide WellFormed, Fated, InTime, Exec, Upstream, Dispatched, Accepted, FedItems, Batches, Ends, Fine,
         ExplainsError, NamesOne;
    var items := Accepted(FedItems(Batches(events)), env.supported);
    var results := Exec(env, events).value.results;
    FinishedOutcomes(env, events, fate);
    ItemsOfResults(results, items);
    forall r | r in results && r.job.JobSuccess? && r.job in Dispatched(events)
      ensures Fine(r.job, fate(r.job.drv)) <==> r.status in {Succeeded, SkippedLocal, IgnoredFailure}
    {
      EndsFine(r.job, fate(r.job.drv), r.status);
    }
  }

  // ---------------------------------------------------------------------------
  // One batch
  // ---------------------------------------------------------------------------

  /** Nothing happens before the first batch. */
  lemma {:induction false} NothingBefore(env: Env, events: seq<Event>)
    requires Exec(env, events).Some? && Batches(events) == []
    ensures events == []
  {
    if events != [] {
      NothingBefore(env, events[..|events| - 1]);
    }
  }

  ghost predicate NamedAll(results: seq<AttributeResult>) {
    forall r :: r in results && r.status == DependencyFailed ==> r.dependencyAttr.Some?
  }

  /** With nothing failed nothing is settled. */
  lemma FirstBatchSettlesNothing(env: Env, batch: seq<EvalJob>, order: seq<Job>)
    requires Enabled(env, Initial, Deliver(batch, order))
    ensures NamedAll(Apply(env, Initial, Deliver(batch, order)).results)
  {
    hide FreshOf, Buildable, EvalFailures, JobClosures, ReverseDeps, DepsFirst;
    var news := FreshOf(batch, {});
    var jobs := Buildable(news, env.supported);
    assert Initial.pending + jobs == jobs && Initial.results + EvalFailures(news) == EvalFailures(news);
    UnblockedPass(jobs, Settling([], {}, {}, EvalFailures(news)));
    FailuresAreEvals(news);
  }

  lemma {:induction false} FailuresAreEvals(news: seq<EvalJob>)
    ensures forall r :: r in EvalFailures(news) ==> r.status == FailedEval
  {
    if news != [] {
      FailuresAreEvals(news[..|news| - 1]);
    }
  }

  lemma {:induction false} DependentsNamed(dependents: seq<Job>, status: Status, attr: string)
    ensures NamedAll(DependencyResults(dependents, status, attr))
  {
    if dependents != [] {
      DependentsNamed(dependents[..|dependents| - 1], status, attr);
    }
  }

  lemma StepNames(env: Env, s: State, e: Event)
    requires Enabled(env, s, e) && !e.Deliver? && NamedAll(s.results)
    ensures NamedAll(Apply(env, s, e).results)
  {
    hide IsDependents, Remove, PruneClosures, PruneAll, Select, Ready;
    if e.SkipFailed? {
      DependentsNamed(e.dependents, DependencyFailed, e.job.attr);
    } else if e.Finish? {
      DependentsNamed(e.dependents, PropagatedStatus(e.outcome), e.job.attr);
    }
  }

  /** When everything is delivered at once, every attribute that fails for a dependency names it. */
  lemma {:induction false} OneBatchNames(env: Env, events: seq<Event>)
    requires Exec(env, events).Some? && |Batches(events)| <= 1
    ensures NamedAll(Exec(env, events).value.results)
  {
    hide Enabled, Apply, NamedAll;
    if events == [] {
      NothingNamed();
    } else {
      var init, e := events[..|events| - 1], events[|events| - 1];
      OneBatchNames(env, init);
      if e.Deliver? {
        NothingBefore(env, init);
        FirstBatchSettlesNothing(env, e.batch, e.order);
      } else {
        StepNames(env, Exec(env, init).value, e);
      }
    }
  }

  lemma NothingNamed()
    ensures NamedAll(Initial.results)
  {
  }

  lemma UpstreamSame(a: seq<EvalJob>, b: seq<EvalJob>, fate: Drv -> BuildOutcome, outcomes: set<BuildOutcome>, job: Job)
    requires forall x :: x in a ==> x in b
    ensures Upstream(a, fate, outcomes, job) ==> Upstream(b, fate, outcomes, job)
  {
    if Upstream(a, fate, outcomes, job) {
      var chain: seq<Job> :| LeadsTo(a, chain, job) && fate(chain[0].drv) in outcomes;
      assert LeadsTo(b, chain, job);
    }
  }

  /** Two finished runs over the same items, with no dependency late in either, dispatch the same jobs, whatever the
      batches, the completion order and the cache answers, and all five outcomes among the builds. */
  lemma {:induction false} DispatchConfluence(env1: Env, events1: seq<Event>, env2: Env, events2: seq<Event>,
                                              fate: Drv -> BuildOutcome)
    requires env1.supported == env2.supported
    requires Finished(env1, events1) && WellFormed(Batches(events1)) && InTime(Batches(events1), env1.supported)
    requires Finished(env2, events2) && WellFormed(Batches(events2)) && InTime(Batches(events2), env2.supported)
    requires Delivered(Batches(events1)) == Delivered(Batches(events2)) && Consistent(Delivered(Batches(events1)))
    requires Fated(env1, fate, Accepted(FedItems(Batches(events1)), env1.supported))
    requires Fated(env2, fate, Accepted(FedItems(Batches(events2)), env2.supported))
    ensures forall j: Job :: j in Accepted(FedItems(Batches(events1)), env1.supported) ==>
              && j in Accepted(FedItems(Batches(events2)), env2.supported)
              && (j in Dispatched(events1) <==> j in Dispatched(events2))
  {
    hide Finished, WellFormed, Fated, InTime, Exec, Upstream, Dispatched, Accepted, FedItems, Batches, Ends;
    FinishedOutcomes(env1, events1, fate);
    FinishedOutcomes(env2, events2, fate);
    FedIsDelivered(Batches(events1));
    FedIsDelivered(Batches(events2));
    AcceptedMembers(FedItems(Batches(events1)), env1.supported);
    AcceptedMembers(FedItems(Batches(events2)), env2.supported);
    var a := Accepted(FedItems(Batches(events1)), env1.supported);
    var b := Accepted(FedItems(Batches(events2)), env2.supported);
    forall j: Job | j in a
      ensures j in b && (j in Dispatched(events1) <==> j in Dispatched(events2))
    {
      UpstreamSame(a, b, fate, BLOCKING, j);
      UpstreamSame(b, a, fate, BLOCKING, j);
    }
  }
}
