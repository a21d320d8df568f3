/** Whole runs of the scheduler: what holds after every run, and confluence. */
module SchedulerRuns {
  import opened Wrappers
  import opened SchedulerModel
  import opened SchedulerSort
  import opened SchedulerState
  import opened SchedulerInvariant
  import opened SchedulerSteps

  /** The state after a run, None when some event was not enabled. */
  ghost function Exec(env: Env, events: seq<Event>): Option<State> {
    if events == [] then Some(Initial)
    else
      var before := Exec(env, events[..|events| - 1]);
      var e := events[|events| - 1];
      if before.Some? && Enabled(env, before.value, e) then Some(Apply(env, before.value, e)) else None
  }

  /** The batches a run delivered. */
  function Batches(events: seq<Event>): seq<seq<EvalJob>> {
    if events == [] then []
    else
      var e := events[|events| - 1];
      Batches(events[..|events| - 1]) + (if e.Deliver? then [e.batch] else [])
  }

  /** The items of the batches, the first of each attribute. */
  function FedItems(batches: seq<seq<EvalJob>>): seq<EvalJob> {
    if batches == [] then []
    else
      var items := FedItems(batches[..|batches| - 1]);
      items + FreshOf(batches[|batches| - 1], Attrs(items))
  }

  /** Attributes are distinct within a batch, and a derivation belongs to one attribute. */
  ghost predicate WellFormed(batches: seq<seq<EvalJob>>) {
    && (forall b: seq<EvalJob>, i, k :: b in batches && 0 <= i < k < |b| ==> b[i].attr != b[k].attr)
    && (forall b, c, x, y ::
          (b in batches && c in batches && x in b && y in c && x.JobSuccess? && y.JobSuccess? && x.drv == y.drv)
          ==> x.attr == y.attr)
  }

  lemma {:induction false} FreshOfMembers(batch: seq<EvalJob>, seen: set<string>)
    ensures forall x :: x in FreshOf(batch, seen) <==> x in batch && x.attr !in seen
    ensures (forall i, k :: 0 <= i < k < |batch| ==> batch[i].attr != batch[k].attr) ==>
              (forall i, k :: 0 <= i < k < |FreshOf(batch, seen)| ==>
               FreshOf(batch, seen)[i].attr != FreshOf(batch, seen)[k].attr)
  {
    if batch != [] {
      var init, last := batch[..|batch| - 1], batch[|batch| - 1];
      assert batch == init + [last];
      FreshOfMembers(init, seen);
      var f := FreshOf(init, seen);
      if forall i, k :: 0 <= i < k < |batch| ==> batch[i].attr != batch[k].attr {
        forall x | x in init
          ensures x.attr != last.attr
        {
          var i :| 0 <= i < |init| && init[i] == x;
          assert batch[i].attr != batch[|batch| - 1].attr;
        }
        forall i, k | 0 <= i < k < |FreshOf(batch, seen)|
          ensures FreshOf(batch, seen)[i].attr != FreshOf(batch, seen)[k].attr
        {
          assert f[i] in f;
          if k < |f| {
            assert f[k] in f;
          }
        }
      }
    }
  }

  /** Every fed item comes from a batch, and every attribute of a batch was fed. */
  lemma {:induction false} FedMembers(batches: seq<seq<EvalJob>>)
    ensures forall x :: x in FedItems(batches) ==> exists b :: b in batches && x in b
    ensures forall b, x :: b in batches && x in b ==> x.attr in Attrs(FedItems(batches))
  {
    if batches != [] {
      var init, last := batches[..|batches| - 1], batches[|batches| - 1];
      assert batches == init + [last];
      FedMembers(init);
      var items := FedItems(init);
      FreshOfMembers(last, Attrs(items));
      AttrsConcat(items, FreshOf(last, Attrs(items)));
      forall b, x | b in batches && x in b
        ensures x.attr in Attrs(FedItems(batches))
      {
        if b == last && x.attr !in Attrs(items) {
          assert x in FreshOf(last, Attrs(items));
        }
      }
    }
  }

  lemma {:induction false} WellFormedIsDistinct(batches: seq<seq<EvalJob>>)
    requires WellFormed(batches)
    ensures DistinctItems(FedItems(batches))
  {
    if batches != [] {
      var init, last := batches[..|batches| - 1], batches[|batches| - 1];
      assert batches == init + [last];
      assert forall b :: b in init ==> b in batches;
      WellFormedIsDistinct(init);
      var items := FedItems(init);
      FedMembers(init);
      var news := FreshOf(last, Attrs(items));
      FreshOfMembers(last, Attrs(items));
      var all := items + news;
      forall i, k | 0 <= i < k < |all|
        ensures all[i].attr != all[k].attr && (all[i].JobSuccess? && all[k].JobSuccess? ==> all[i].drv != all[k].drv)
      {
        if i < |items| <= k {
          assert items[i] in items && all[k] in news;
          assert items[i].attr in Attrs(items);
        } else if |items| <= i {
          assert news[i - |items|] in news && news[k - |items|] in news;
        }
      }
    }
  }

  /** A step feeds what its batch adds to the items fed before. */
  lemma {:induction false} FedByStep(events: seq<Event>, s: State)
    requires events != []
    requires s.seen == Attrs(FedItems(Batches(events[..|events| - 1])))
    ensures FedItems(Batches(events)) == Fed(FedItems(Batches(events[..|events| - 1])), s, events[|events| - 1])
  {
    hide FedItems, FreshOf, Attrs;
    if events[|events| - 1].Deliver? {
      FedByBatch(Batches(events[..|events| - 1]), events[|events| - 1].batch);
    } else {
      assert Batches(events) == Batches(events[..|events| - 1]);
    }
  }

  lemma FedByBatch(batches: seq<seq<EvalJob>>, batch: seq<EvalJob>)
    ensures FedItems(batches + [batch]) == FedItems(batches) + FreshOf(batch, Attrs(FedItems(batches)))
  {
    hide FreshOf, Attrs;
    assert (batches + [batch])[..|batches + [batch]| - 1] == batches;
  }

  /** The invariant holds after every run over well-formed batches. */
  lemma {:induction false} RunKeepsInv(env: Env, events: seq<Event>)
    requires Exec(env, events).Some? && WellFormed(Batches(events))
    ensures Inv(Exec(env, events).value, {}, FedItems(Batches(events)), env.supported)
  {
    hide Inv, Enabled, Apply, WellFormed, FedItems, Batches, Fed, DistinctItems;
    if events == [] {
      InvInitially(env.supported);
      NothingFed();
    } else {
      var init, e := events[..|events| - 1], events[|events| - 1];
      BatchesGrow(events);
      WellFormedPrefix(Batches(init), Batches(events));
      RunKeepsInv(env, init);
      WellFormedIsDistinct(Batches(events));
      InvSeen(Exec(env, init).value, FedItems(Batches(init)), env.supported);
      FedByStep(events, Exec(env, init).value);
      StepKeepsInv(env, Exec(env, init).value, e, FedItems(Batches(init)));
    }
  }

  lemma NothingFed()
    ensures FedItems(Batches([])) == []
  {
  }

  lemma BatchesGrow(events: seq<Event>)
    requires events != []
    ensures forall b :: b in Batches(events[..|events| - 1]) ==> b in Batches(events)
  {
  }

  lemma WellFormedPrefix(a: seq<seq<EvalJob>>, b: seq<seq<EvalJob>>)
    requires WellFormed(b) && forall x :: x in a ==> x in b
    ensures WellFormed(a)
  {
  }

  lemma InvSeen(s: State, items: seq<EvalJob>, supported: set<string>)
    requires Inv(s, {}, items, supported)
    ensures s.seen == Attrs(items)
  {
  }

  // ---------------------------------------------------------------------------
  // Safety of every run
  // ---------------------------------------------------------------------------

  /** The pruned closures equal closures computed from scratch. */
  lemma {:induction false} IndexAgreement(env: Env, events: seq<Event>)
    requires Exec(env, events).Some? && WellFormed(Batches(events))
    ensures var s := Exec(env, events).value;
            forall j :: j in s.pending ==>
              && j.drv in s.closures
              && j.drv in JobClosures(s.pending, Drvs(s.running))
              && s.closures[j.drv] == JobClosures(s.pending, Drvs(s.running))[j.drv]
  {
    hide Inv, Exec, JobClosures;
    RunKeepsInv(env, events);
    var s := Exec(env, events).value;
    forall j | j in s.pending
      ensures j.drv in s.closures && j.drv in JobClosures(s.pending, Drvs(s.running))
      ensures s.closures[j.drv] == JobClosures(s.pending, Drvs(s.running))[j.drv]
    {
      IndexedFromScratch(s, FedItems(Batches(events)), env.supported, j);
    }
  }

  /** A job starts only when no other dependency of it is pending, running or failed. */
  lemma {:induction false} DispatchSafety(env: Env, events: seq<Event>, job: Job)
    requires Exec(env, events + [Start(job)]).Some? && WellFormed(Batches(events))
    ensures Exec(env, events).Some?
    ensures var s := Exec(env, events).value;
            && job.Deps() !! s.failed
            && (job.Deps() - {job.drv}) !! (Drvs(s.pending) + Drvs(s.running))
  {
    var all := events + [Start(job)];
    assert all[..|all| - 1] == events;
    RunKeepsInv(env, events);
    var s := Exec(env, events).value;
    assert s.closures[job.drv] == ((InFlight(s) + {}) * job.Deps()) - {job.drv};
    forall d | d in job.Deps() - {job.drv} && d in InFlight(s)
      ensures d in s.closures[job.drv]
    {
    }
  }

  /** A finished run gave each accepted item exactly one result. */
  lemma {:induction false} FinishedRunConserves(env: Env, events: seq<Event>)
    requires Exec(env, events).Some? && WellFormed(Batches(events))
    requires Exec(env, events).value.pending == [] && Exec(env, events).value.running == []
    ensures multiset(ResultItems(Exec(env, events).value.results))
         == multiset(Accepted(FedItems(Batches(events)), env.supported))
  {
    RunKeepsInv(env, events);
    var s := Exec(env, events).value;
    assert AllItems(s) == ResultItems(s.results);
  }

  /** Delivering only attributes seen before changes nothing but the order of the pending list. */
  lemma {:induction false} ResentBatchIsNoop(env: Env, s: State, batch: seq<EvalJob>, order: seq<Job>,
                                             items: seq<EvalJob>)
    requires Inv(s, {}, items, env.supported) && Enabled(env, s, Deliver(batch, order))
    requires forall x :: x in batch ==> x.attr in s.seen
    ensures var s' := Apply(env, s, Deliver(batch, order));
            && s'.results == s.results && s'.running == s.running && s'.seen == s.seen
            && s'.failed == s.failed && s'.cancelled == s.cancelled
            && multiset(s'.pending) == multiset(s.pending)
            && (forall j :: j in s.pending ==> j.drv in s'.closures && s'.closures[j.drv] == s.closures[j.drv])
  {
    hide Inv, JobClosures, ReverseDeps, SettlePass, SettleAll, Drvs;
    InvSafe(s, items, env.supported);
    NothingSettles(s, env.supported, batch);
    forall j | j in s.pending
      ensures j.drv in s.closures && j.drv in JobClosures(s.pending, Drvs(s.running))
      ensures s.closures[j.drv] == JobClosures(s.pending, Drvs(s.running))[j.drv]
    {
      IndexedFromScratch(s, items, env.supported, j);
    }
  }

  lemma InvSafe(s: State, items: seq<EvalJob>, supported: set<string>)
    requires Inv(s, {}, items, supported)
    ensures Safe(s)
  {
  }

  lemma NothingSettles(s: State, supported: set<string>, batch: seq<EvalJob>)
    requires Safe(s) && forall x :: x in batch ==> x.attr in s.seen
    ensures FreshOf(batch, s.seen) == [] && Attrs([]) == {}
    ensures Settled(s, supported, batch) == Settling(s.pending, s.failed, s.cancelled, s.results)
  {
    NothingFresh(batch, s.seen);
    assert s.pending + [] == s.pending && s.results + [] == s.results;
    UnblockedPass(s.pending, Settling([], s.failed, s.cancelled, s.results));
    assert [] + s.pending == s.pending;
  }

  lemma IndexedFromScratch(s: State, items: seq<EvalJob>, supported: set<string>, j: Job)
    requires Inv(s, {}, items, supported) && j in s.pending
    ensures j.drv in s.closures && j.drv in JobClosures(s.pending, Drvs(s.running))
    ensures s.closures[j.drv] == JobClosures(s.pending, Drvs(s.running))[j.drv]
  {
    hide JobClosures, Conserved;
    ConservedSeparates(s, items, supported);
    JobClosuresOf(s.pending, Drvs(s.running), j);
    assert InFlight(s) + {} == Drvs(s.pending) + Drvs(s.running);
  }

  lemma {:induction false} NothingFresh(batch: seq<EvalJob>, seen: set<string>)
    requires forall x :: x in batch ==> x.attr in seen
    ensures FreshOf(batch, seen) == []
  {
    if batch != [] {
      NothingFresh(batch[..|batch| - 1], seen);
    }
  }

  lemma {:induction false} UnblockedPass(jobs: seq<Job>, a: Settling)
    requires forall j :: j in jobs ==> j.Deps() !! a.failed
    ensures SettlePass(jobs, a) == a.(remaining := a.remaining + jobs)
  {
    if jobs == [] {
      assert a.remaining + jobs == a.remaining;
    } else {
      var init, last := jobs[..|jobs| - 1], jobs[|jobs| - 1];
      assert jobs == init + [last];
      UnblockedPass(init, a);
      EmptyMeetsAreDisjoint(last.Deps(), a.failed);
    }
  }

  // ---------------------------------------------------------------------------
  // Progress and termination
  // ---------------------------------------------------------------------------

  /** The dependency graph of the jobs is acyclic. */
  ghost predicate Acyclic(items: seq<EvalJob>, rank: Drv -> nat) {
    forall x, d :: x in items && x.JobSuccess? && d in x.Deps() && d != x.drv ==> rank(d) < rank(x.drv)
  }

  lemma PendingIsFed(s: State, extra: set<Drv>, items: seq<EvalJob>, supported: set<string>)
    requires Inv(s, extra, items, supported)
    ensures forall j :: j in s.pending || j in s.running ==> j in items
  {
    AcceptedDistinct(items, supported);
    forall j | j in s.pending || j in s.running
      ensures j in items
    {
      assert j in AllItems(s);
      assert j in multiset(AllItems(s));
      assert j in Accepted(items, supported);
    }
  }

  /** With nothing running, some pending job is ready: the scheduler never gets stuck. */
  lemma SomeJobIsReady(s: State, items: seq<EvalJob>, supported: set<string>, rank: Drv -> nat) returns (job: Job)
    requires Inv(s, {}, items, supported) && Acyclic(items, rank)
    requires s.pending != [] && s.running == []
    ensures job in s.pending && Ready(s.closures, job)
  {
    assert s.pending[0].drv in Drvs(s.pending);
    var d := SmallestRank(Drvs(s.pending), rank);
    job :| job in s.pending && job.drv == d;
    PendingIsFed(s, {}, items, supported);
    var closure := s.closures[job.drv];
    assert closure == ((InFlight(s) + {}) * job.Deps()) - {job.drv};
    forall e
      ensures e !in closure
    {
    }
  }

  lemma {:induction false} SelectShrinks(jobs: seq<Job>, drvs: set<Drv>)
    ensures |Select(jobs, drvs, false)| <= |jobs|
  {
    if jobs != [] {
      SelectShrinks(jobs[..|jobs| - 1], drvs);
    }
  }

  lemma RemoveShrinks(jobs: seq<Job>, job: Job)
    requires job in jobs
    ensures |Remove(jobs, job)| == |jobs| - 1
  {
    assert |multiset(jobs)| == |jobs| && |multiset(Remove(jobs, job))| == |Remove(jobs, job)|;
  }

  /** Every event but a delivery decreases (pending, running) lexicographically. */
  lemma {:induction false} StepDecreases(env: Env, s: State, e: Event)
    requires Enabled(env, s, e) && !e.Deliver?
    ensures var s' := Apply(env, s, e);
            |s'.pending| < |s.pending| || (|s'.pending| == |s.pending| && |s'.running| < |s.running|)
  {
    match e
    case Start(job) => RemoveShrinks(s.pending, job);
    case SkipLocal(job) => RemoveShrinks(s.pending, job);
    case SkipFailed(job, error, dependents) =>
      RemoveShrinks(s.pending, job);
      SelectShrinks(Remove(s.pending, job), {job.drv} + Drvs(dependents));
    case Finish(job, outcome, dependents) =>
      RemoveShrinks(s.running, job);
      SelectShrinks(s.pending, {job.drv} + Drvs(dependents));
  }
}
