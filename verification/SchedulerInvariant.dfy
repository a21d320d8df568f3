/** The invariant every step of the scheduler keeps. */
module SchedulerInvariant {
  import opened Wrappers
  import opened SchedulerModel
  import opened SchedulerSort
  import opened SchedulerState

  // ---------------------------------------------------------------------------
  // Conservation of jobs
  // ---------------------------------------------------------------------------

  function ResultItems(results: seq<AttributeResult>): seq<EvalJob> {
    seq(|results|, i requires 0 <= i < |results| => results[i].job)
  }

  lemma ResultItemsConcat(a: seq<AttributeResult>, b: seq<AttributeResult>)
    ensures ResultItems(a + b) == ResultItems(a) + ResultItems(b)
  {
  }

  /** Everything the scheduler has accepted, wherever it is now. */
  function AllItems(s: State): seq<EvalJob> {
    ResultItems(s.results) + s.pending + s.running
  }

  /** The items that must get a result: failed evaluations and supported jobs. */
  function Accepted(items: seq<EvalJob>, supported: set<string>): seq<EvalJob> {
    if items == [] then []
    else
      var last := items[|items| - 1];
      Accepted(items[..|items| - 1], supported) +
      (if last.JobError? || last.system in supported then [last] else [])
  }

  lemma {:induction false} AcceptedConcat(a: seq<EvalJob>, b: seq<EvalJob>, supported: set<string>)
    ensures Accepted(a + b, supported) == Accepted(a, supported) + Accepted(b, supported)
  {
    if b == [] {
      assert a + b == a;
    } else {
      assert (a + b)[..|a + b| - 1] == a + b[..|b| - 1];
      AcceptedConcat(a, b[..|b| - 1], supported);
    }
  }

  lemma {:induction false} PartitionSplits(items: seq<EvalJob>, supported: set<string>)
    ensures multiset(Accepted(items, supported))
         == multiset(ResultItems(EvalFailures(items))) + multiset(Buildable(items, supported))
  {
    if items != [] {
      var init, last := items[..|items| - 1], items[|items| - 1];
      PartitionSplits(init, supported);
      var was, now := EvalFailures(init), EvalFailures(items);
      if last.JobError? {
        ResultItemsConcat(was, [AttributeResult(last.attr, FailedEval, last, Some(last.error), None, None)]);
        assert ResultItems(now) == ResultItems(was) + [last];
        assert Buildable(items, supported) == Buildable(init, supported);
      } else {
        assert now == was;
      }
    }
  }

  /** Each accepted item is in exactly one place: a result, pending or running. */
  ghost predicate Conserved(s: State, items: seq<EvalJob>, supported: set<string>) {
    multiset(AllItems(s)) == multiset(Accepted(items, supported))
  }

  /** Attributes and derivations are pairwise distinct. */
  ghost predicate DistinctItems(items: seq<EvalJob>) {
    forall i, k :: 0 <= i < k < |items| ==>
      && items[i].attr != items[k].attr
      && (items[i].JobSuccess? && items[k].JobSuccess? ==> items[i].drv != items[k].drv)
  }

  lemma OccursTwice(items: seq<EvalJob>, i: nat, k: nat)
    requires i < k < |items| && items[i] == items[k]
    ensures multiset(items)[items[i]] >= 2
  {
    assert items == items[..k] + [items[k]] + items[k + 1..];
    assert items[..k][i] == items[k];
    assert items[i] in multiset(items[..k]);
  }

  lemma {:induction false} OccursOnce(items: seq<EvalJob>, x: EvalJob)
    requires DistinctItems(items)
    ensures multiset(items)[x] <= 1
  {
    if items != [] {
      var init, last := items[..|items| - 1], items[|items| - 1];
      assert items == init + [last];
      OccursOnce(init, x);
      if x in init {
        var i :| 0 <= i < |init| && init[i] == x;
        assert items[i].attr != items[|items| - 1].attr;
      }
    }
  }

  lemma PermutationDistinct(a: seq<EvalJob>, b: seq<EvalJob>)
    requires multiset(a) == multiset(b) && DistinctItems(b)
    ensures DistinctItems(a)
  {
    forall i, k | 0 <= i < k < |a|
      ensures a[i].attr != a[k].attr && (a[i].JobSuccess? && a[k].JobSuccess? ==> a[i].drv != a[k].drv)
    {
      assert a[i] in multiset(a) && a[k] in multiset(a);
      assert a[i] in b && a[k] in b;
      if a[i] == a[k] {
        OccursTwice(a, i, k);
        OccursOnce(b, a[i]);
      }
    }
  }

  lemma {:induction false} AcceptedDistinct(items: seq<EvalJob>, supported: set<string>)
    requires DistinctItems(items)
    ensures DistinctItems(Accepted(items, supported))
    ensures forall x :: x in Accepted(items, supported) ==> x in items
  {
    if items != [] {
      var init, last := items[..|items| - 1], items[|items| - 1];
      assert items == init + [last];
      AcceptedDistinct(init, supported);
      forall x | x in init
        ensures x.attr != last.attr && (x.JobSuccess? && last.JobSuccess? ==> x.drv != last.drv)
      {
        var i :| 0 <= i < |init| && init[i] == x;
        assert items[i] == x;
      }
    }
  }

  function ResultDrvs(results: seq<AttributeResult>): set<Drv> {
    set r | r in results && r.job.JobSuccess? :: r.job.drv
  }

  /** Finished, pending and running derivations do not overlap. */
  ghost predicate Separate(s: State) {
    && Distinct(s.pending) && Distinct(s.running)
    && Drvs(s.pending) !! Drvs(s.running)
    && ResultDrvs(s.results) !! Drvs(s.pending)
    && ResultDrvs(s.results) !! Drvs(s.running)
  }

  lemma ConservedSeparates(s: State, items: seq<EvalJob>, supported: set<string>)
    requires Conserved(s, items, supported) && DistinctItems(items)
    ensures Separate(s)
  {
    AcceptedDistinct(items, supported);
    var all := AllItems(s);
    PermutationDistinct(all, Accepted(items, supported));
    var n, m := |s.results|, |s.results| + |s.pending|;
    forall i, k | 0 <= i < k < |s.pending|
      ensures s.pending[i].drv != s.pending[k].drv
    {
      assert all[n + i] == s.pending[i] && all[n + k] == s.pending[k];
    }
    forall i, k | 0 <= i < k < |s.running|
      ensures s.running[i].drv != s.running[k].drv
    {
      assert all[m + i] == s.running[i] && all[m + k] == s.running[k];
    }
    forall p, r | p in s.pending && r in s.running
      ensures p.drv != r.drv
    {
      var i :| 0 <= i < |s.pending| && s.pending[i] == p;
      var k :| 0 <= k < |s.running| && s.running[k] == r;
      assert all[n + i] == p && all[m + k] == r;
    }
    forall d, j | d in s.results && d.job.JobSuccess? && (j in s.pending || j in s.running)
      ensures d.job.drv != j.drv
    {
      var i :| 0 <= i < |s.results| && s.results[i] == d;
      assert all[i] == d.job;
      if j in s.pending {
        var k :| 0 <= k < |s.pending| && s.pending[k] == j;
        assert all[n + k] == j;
      } else {
        var k :| 0 <= k < |s.running| && s.running[k] == j;
        assert all[m + k] == j;
      }
    }
  }

  // ---------------------------------------------------------------------------
  // Index agreement and dispatch safety
  // ---------------------------------------------------------------------------

  function InFlight(s: State): set<Drv> {
    Drvs(s.pending) + Drvs(s.running)
  }

  /** Each pending job's closure is its dependencies in flight, counting the retiring drvs `extra`. */
  ghost predicate Indexed(s: State, extra: set<Drv>) {
    forall j :: j in s.pending ==>
      j.drv in s.closures && s.closures[j.drv] == ((InFlight(s) + extra) * j.Deps()) - {j.drv}
  }

  /** The static reverse edges still cover every closure edge, and only name jobs with a closure. */
  ghost predicate Covered(closures: Closures, reverse: Closures) {
    && (forall k, d :: k in closures && d in closures[k] ==> d in reverse && k in reverse[d])
    && (forall d :: d in reverse ==> reverse[d] <= closures.Keys)
  }

  /** No pending job depends on a failed derivation. */
  ghost predicate Safe(s: State) {
    forall j :: j in s.pending ==> j.Deps() !! s.failed
  }

  /** Every failed derivation has a result. */
  ghost predicate Recorded(s: State) {
    && s.cancelled <= s.failed
    && s.failed <= ResultDrvs(s.results)
  }

  ghost predicate Inv(s: State, extra: set<Drv>, items: seq<EvalJob>, supported: set<string>) {
    && DistinctItems(items)
    && Conserved(s, items, supported)
    && s.seen == Attrs(items)
    && Indexed(s, extra)
    && Covered(s.closures, s.reverseDeps)
    && Safe(s)
    && Recorded(s)
    && extra <= ResultDrvs(s.results)
  }

  lemma InvInitially(supported: set<string>)
    ensures Inv(Initial, {}, [], supported)
  {
  }

  lemma PruneRemoves(closures: Closures, reverse: Closures, drv: Drv)
    requires Covered(closures, reverse)
    ensures forall k :: k in closures ==> PruneClosures(closures, reverse, drv)[k] == closures[k] - {drv}
    ensures Covered(PruneClosures(closures, reverse, drv), reverse)
  {
  }

  lemma {:induction false} PruneAllRemoves(closures: Closures, reverse: Closures, jobs: seq<Job>)
    requires Covered(closures, reverse)
    ensures forall k :: k in closures ==> PruneAll(closures, reverse, jobs)[k] == closures[k] - Drvs(jobs)
    ensures Covered(PruneAll(closures, reverse, jobs), reverse)
  {
    if jobs != [] {
      var init, last := jobs[..|jobs| - 1], jobs[|jobs| - 1];
      assert jobs == init + [last];
      PruneAllRemoves(closures, reverse, init);
      PruneRemoves(PruneAll(closures, reverse, init), reverse, last.drv);
      assert Drvs(jobs) == Drvs(init) + {last.drv};
    }
  }

  /** A retired drv leaves every closure. */
  lemma {:induction false} PruneKeepsInv(s: State, drv: Drv, extra: set<Drv>, items: seq<EvalJob>,
                                         supported: set<string>)
    requires Inv(s, extra, items, supported) && drv in extra
    ensures Inv(Prune(s, drv), extra - {drv}, items, supported)
  {
    ConservedSeparates(s, items, supported);
    PruneRemoves(s.closures, s.reverseDeps, drv);
    var s' := Prune(s, drv);
    forall j | j in s'.pending
      ensures j.drv in s'.closures && s'.closures[j.drv] == ((InFlight(s') + (extra - {drv})) * j.Deps()) - {j.drv}
    {
      assert s'.closures[j.drv] == s.closures[j.drv] - {drv};
      assert drv !in InFlight(s);
    }
    assert AllItems(s') == AllItems(s);
  }

  lemma {:induction false} DependencyResultItems(dependents: seq<Job>, status: Status, attr: string)
    ensures ResultItems(DependencyResults(dependents, status, attr)) == dependents
  {
    if dependents != [] {
      var init, last := dependents[..|dependents| - 1], dependents[|dependents| - 1];
      assert dependents == init + [last];
      DependencyResultItems(init, status, attr);
      ResultItemsConcat(DependencyResults(init, status, attr), [SuccessResult(last, status, None, Some(attr))]);
    }
  }

  lemma ResultDrvsOfItems(results: seq<AttributeResult>, jobs: seq<Job>)
    requires ResultItems(results) == jobs
    ensures ResultDrvs(results) == Drvs(jobs)
  {
    forall r | r in results
      ensures r.job in jobs
    {
      var i :| 0 <= i < |results| && results[i] == r;
      assert ResultItems(results)[i] == r.job;
    }
    forall j | j in jobs
      ensures j.drv in ResultDrvs(results)
    {
      var i :| 0 <= i < |jobs| && jobs[i] == j;
      assert ResultItems(results)[i] == j && results[i].job == j;
    }
  }

  /** The dependents are the pending drvs of the search, and the rest stay pending. */
  lemma DependentsSplit(s: State, job: Job, dependents: seq<Job>)
    requires IsDependents(s, job, dependents) && job.drv !in Drvs(s.pending)
    ensures Drvs(dependents) == Dependents(s.closures, Drvs(s.pending), job.drv)
    ensures forall j :: j in Select(s.pending, {job.drv} + Drvs(dependents), false)
                   <==> j in s.pending && j.drv !in Drvs(dependents)
    ensures multiset(s.pending) == multiset(dependents)
            + multiset(Select(s.pending, {job.drv} + Drvs(dependents), false))
  {
    var within := Drvs(s.pending);
    var found := Dependents(s.closures, within, job.drv);
    SameMembers(dependents, Select(s.pending, found, true));
    SelectMembers(s.pending, found, true);
    assert Drvs(dependents) == found;
    var settled := {job.drv} + found;
    SelectMembers(s.pending, settled, false);
    SelectSplits(s.pending, settled);
    SelectUnion(s.pending, {job.drv}, found);
    SelectNone(s.pending, {job.drv});
  }

  lemma FailDependentsConserves(s: State, job: Job, status: Status, dependents: seq<Job>)
    requires IsDependents(s, job, dependents) && job.drv !in Drvs(s.pending)
    ensures multiset(AllItems(FailDependents(s, job, status, dependents))) == multiset(AllItems(s))
    ensures ResultDrvs(FailDependents(s, job, status, dependents).results) == ResultDrvs(s.results) + Drvs(dependents)
  {
    DependentsSplit(s, job, dependents);
    DependencyResultItems(dependents, status, job.attr);
    var results := DependencyResults(dependents, status, job.attr);
    ResultItemsConcat(s.results, results);
    ResultDrvsOfItems(results, dependents);
  }

  /** The pending jobs that share the failed derivation without being its dependents. */
  ghost function Aliases(s: State, job: Job): seq<Job> {
    Select(s.pending, {job.drv} - Dependents(s.closures, Drvs(s.pending), job.drv), true)
  }

  lemma PendingSplits(s: State, job: Job, dependents: seq<Job>)
    requires IsDependents(s, job, dependents)
    ensures multiset(s.pending) == multiset(Select(s.pending, {job.drv} + Drvs(dependents), false))
                                 + multiset(dependents) + multiset(Aliases(s, job))
  {
    var found := Dependents(s.closures, Drvs(s.pending), job.drv);
    SameMembers(dependents, Select(s.pending, found, true));
    SelectMembers(s.pending, found, true);
    assert Drvs(dependents) == found;
    var alias := {job.drv} - found;
    assert {job.drv} + found == alias + found;
    SelectSplits(s.pending, alias + found);
    SelectUnion(s.pending, alias, found);
  }

  lemma SomeAlias(s: State, job: Job)
    ensures multiset(Aliases(s, job)) == multiset{}
       <==> job.drv !in Drvs(s.pending) - Dependents(s.closures, Drvs(s.pending), job.drv)
  {
    SelectMembers(s.pending, {job.drv} - Dependents(s.closures, Drvs(s.pending), job.drv), true);
    var lost := Aliases(s, job);
    if lost != [] {
      assert lost[0] in lost && lost[0] in multiset(lost);
    } else {
      assert forall j :: j in s.pending ==> j !in lost;
    }
  }

  /** Without distinct derivations a failure can lose jobs: exactly when a pending job shares the failed
      derivation and is not one of its dependents. */
  lemma {:induction false} FailureConservesExactly(s: State, job: Job, status: Status, dependents: seq<Job>)
    requires IsDependents(s, job, dependents)
    ensures multiset(AllItems(FailDependents(s, job, status, dependents))) == multiset(AllItems(s)) <==>
            job.drv !in Drvs(s.pending) - Dependents(s.closures, Drvs(s.pending), job.drv)
  {
    hide Select, Dependents, Aliases, IsDependents, Drvs;
    PendingSplits(s, job, dependents);
    SomeAlias(s, job);
    DependencyResultItems(dependents, status, job.attr);
    ResultItemsConcat(s.results, DependencyResults(dependents, status, job.attr));
    assert multiset(AllItems(s))
        == multiset(AllItems(FailDependents(s, job, status, dependents))) + multiset(Aliases(s, job));
  }

  /** After the dependents are failed, no pending job depends on anything settled. */
  lemma {:induction false} FailDependentsSafe(s: State, job: Job, status: Status, dependents: seq<Job>, j: Job)
    requires Safe(s) && IsDependents(s, job, dependents) && job.drv !in Drvs(s.pending)
    requires Indexed(s, {job.drv})
    requires j in FailDependents(s, job, status, dependents).pending
    ensures j in s.pending && j.drv !in Drvs(dependents)
    ensures j.Deps() !! FailDependents(s, job, status, dependents).failed
  {
    DependentsSplit(s, job, dependents);
    var settled := {job.drv} + Drvs(dependents);
    forall d | d in j.Deps() && d in settled
      ensures false
    {
      assert j.drv in Drvs(s.pending);
      assert d != j.drv;
      assert d in InFlight(s) + {job.drv};
      assert Edge(s.closures, d, j.drv);
      ReachesStep(s.closures, Drvs(s.pending), job.drv, d, j.drv);
    }
  }

  lemma FailDependentsIndexed(s: State, job: Job, status: Status, dependents: seq<Job>)
    requires IsDependents(s, job, dependents) && job.drv !in Drvs(s.pending)
    requires Separate(s) && Indexed(s, {job.drv}) && Covered(s.closures, s.reverseDeps)
    ensures Indexed(FailDependents(s, job, status, dependents), {job.drv})
    ensures Covered(FailDependents(s, job, status, dependents).closures, s.reverseDeps)
  {
    DependentsSplit(s, job, dependents);
    PruneAllRemoves(s.closures, s.reverseDeps, dependents);
    var s' := FailDependents(s, job, status, dependents);
    var found := Drvs(dependents);
    assert Drvs(s'.pending) == Drvs(s.pending) - found;
    assert found !! Drvs(s.running);
    forall j | j in s'.pending
      ensures j.drv in s'.closures && s'.closures[j.drv] == ((InFlight(s') + {job.drv}) * j.Deps()) - {j.drv}
    {
      assert s'.closures[j.drv] == s.closures[j.drv] - found;
    }
  }

  /** Failing the dependents of a retiring job keeps the invariant. */
  lemma FailDependentsKeepsInv(s: State, job: Job, status: Status, dependents: seq<Job>,
                               items: seq<EvalJob>, supported: set<string>)
    requires Inv(s, {job.drv}, items, supported)
    requires IsDependents(s, job, dependents)
    ensures Inv(FailDependents(s, job, status, dependents), {job.drv}, items, supported)
  {
    ConservedSeparates(s, items, supported);
    FailDependentsConserves(s, job, status, dependents);
    FailDependentsIndexed(s, job, status, dependents);
    var s' := FailDependents(s, job, status, dependents);
    forall j | j in s'.pending
      ensures j.Deps() !! s'.failed
    {
      FailDependentsSafe(s, job, status, dependents, j);
    }
  }
}
