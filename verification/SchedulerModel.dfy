/**
 Evaluation jobs, the in-flight dependency closures of
 `nixbot/nixbot/build_scheduler.py`, and the search over them.
 */
module SchedulerModel {
  import opened Wrappers

  /** A derivation's store path. */
  datatype Drv = Drv(path: string)

  datatype CacheStatus = Cached | Local | NotBuilt

  /** One item of an evaluation batch: a failed attribute or a derivation to build. */
  datatype EvalJob =
    | JobError(attr: string, error: string)
    | JobSuccess(attr: string, drv: Drv, neededBuilds: seq<Drv>, neededSubstitutes: seq<Drv>,
                 cacheStatus: Option<CacheStatus>, system: string, outPath: Option<string>,
                 depsOnly: bool, ignoreFailure: bool, requireFailure: bool)
  {
    function Deps(): set<Drv>
      requires JobSuccess?
    {
      (set d | d in neededBuilds) + (set d | d in neededSubstitutes)
    }
  }

  type Job = j: EvalJob | j.JobSuccess?
    witness JobSuccess("", Drv(""), [], [], None, "", None, false, false, false)

  function Drvs(jobs: seq<Job>): set<Drv> {
    set j | j in jobs :: j.drv
  }

  /** The jobs whose derivation is (`inside`) or is not in `drvs`, in order. */
  function Select(jobs: seq<Job>, drvs: set<Drv>, inside: bool): seq<Job> {
    if jobs == [] then []
    else
      var rest := Select(jobs[..|jobs| - 1], drvs, inside);
      var last := jobs[|jobs| - 1];
      if (last.drv in drvs) == inside then rest + [last] else rest
  }

  lemma {:induction false} SelectMembers(jobs: seq<Job>, drvs: set<Drv>, inside: bool)
    ensures forall j :: j in Select(jobs, drvs, inside) <==> j in jobs && (j.drv in drvs) == inside
  {
    if jobs != [] {
      SelectMembers(jobs[..|jobs| - 1], drvs, inside);
      assert jobs == jobs[..|jobs| - 1] + [jobs[|jobs| - 1]];
    }
  }

  lemma {:induction false} SelectNone(jobs: seq<Job>, drvs: set<Drv>)
    requires Drvs(jobs) !! drvs
    ensures Select(jobs, drvs, true) == []
  {
    if jobs != [] {
      var init, last := jobs[..|jobs| - 1], jobs[|jobs| - 1];
      assert last in jobs && last.drv in Drvs(jobs);
      assert Drvs(init) <= Drvs(jobs);
      SelectNone(init, drvs);
    }
  }

  lemma {:induction false} SelectSplits(jobs: seq<Job>, drvs: set<Drv>)
    ensures multiset(jobs) == multiset(Select(jobs, drvs, true)) + multiset(Select(jobs, drvs, false))
  {
    if jobs != [] {
      SelectSplits(jobs[..|jobs| - 1], drvs);
      assert jobs == jobs[..|jobs| - 1] + [jobs[|jobs| - 1]];
    }
  }

  lemma {:induction false} SelectUnion(jobs: seq<Job>, a: set<Drv>, b: set<Drv>)
    requires a !! b
    ensures multiset(Select(jobs, a + b, true)) == multiset(Select(jobs, a, true)) + multiset(Select(jobs, b, true))
  {
    if jobs != [] {
      SelectUnion(jobs[..|jobs| - 1], a, b);
    }
  }

  /** `pending.remove(job)`: drops the first equal job. */
  function Remove(jobs: seq<Job>, job: Job): (r: seq<Job>)
    requires job in jobs
    ensures multiset(r) == multiset(jobs) - multiset{job}
  {
    assert jobs == [jobs[0]] + jobs[1..];
    if jobs[0] == job then jobs[1..] else [jobs[0]] + Remove(jobs[1..], job)
  }

  lemma SameMembers(a: seq<Job>, b: seq<Job>)
    requires multiset(a) == multiset(b)
    ensures forall j :: j in a <==> j in b
    ensures Drvs(a) == Drvs(b)
  {
    forall j
      ensures j in a <==> j in b
    {
      assert j in a <==> j in multiset(a);
      assert j in b <==> j in multiset(b);
    }
  }

  /** No derivation occurs twice. */
  ghost predicate Distinct(jobs: seq<Job>) {
    forall i, k :: 0 <= i < k < |jobs| ==> jobs[i].drv != jobs[k].drv
  }

  // ---------------------------------------------------------------------------
  // Closures
  // ---------------------------------------------------------------------------

  type Closures = map<Drv, set<Drv>>

  /** The last job carrying `drv`, the one a dict comprehension keeps. */
  function LastWith(jobs: seq<Job>, drv: Drv): (j: Job)
    requires drv in Drvs(jobs)
    ensures j in jobs && j.drv == drv
  {
    if jobs[|jobs| - 1].drv == drv then jobs[|jobs| - 1]
    else
      assert jobs == jobs[..|jobs| - 1] + [jobs[|jobs| - 1]];
      LastWith(jobs[..|jobs| - 1], drv)
  }

  /** Each job's in-flight dependencies; `extra` drvs count as in flight but get no entry. */
  function JobClosures(jobs: seq<Job>, extra: set<Drv>): Closures {
    map d | d in Drvs(jobs) :: ((Drvs(jobs) + extra) * LastWith(jobs, d).Deps()) - {d}
  }

  lemma JobClosuresOf(jobs: seq<Job>, extra: set<Drv>, j: Job)
    requires Distinct(jobs) && j in jobs
    ensures j.drv in JobClosures(jobs, extra)
    ensures JobClosures(jobs, extra)[j.drv] == ((Drvs(jobs) + extra) * j.Deps()) - {j.drv}
  {
    assert LastWith(jobs, j.drv) == j;
  }

  /** drv -> the drvs whose closure contains it. */
  function ReverseDeps(closures: Closures): Closures {
    map d | d in AllDeps(closures) :: Dependers(closures, d)
  }

  function AllDeps(closures: Closures): set<Drv> {
    set k, d | k in closures && d in closures[k] :: d
  }

  function Dependers(closures: Closures, d: Drv): set<Drv> {
    set k | k in closures && d in closures[k]
  }

  ghost predicate IsReverse(closures: Closures, reverse: Closures) {
    && (forall d :: d in reverse <==> Dependers(closures, d) != {})
    && (forall d :: d in reverse ==> reverse[d] == Dependers(closures, d))
  }

  lemma ReverseIsUnique(closures: Closures, reverse: Closures)
    requires IsReverse(closures, reverse)
    ensures reverse == ReverseDeps(closures)
  {
    forall d
      ensures d in AllDeps(closures) <==> d in reverse
    {
      if d in reverse {
        var k :| k in Dependers(closures, d);
      }
      if d in AllDeps(closures) {
        var k :| k in closures && d in closures[k];
        assert k in Dependers(closures, d);
      }
    }
  }

  lemma ReverseGrows(done: Closures, drv: Drv, added: set<Drv>, dep: Drv, reverse: Closures)
    requires IsReverse(done[drv := added], reverse)
    ensures IsReverse(done[drv := added + {dep}], AddEdge(reverse, drv, dep))
  {
    var before, after := done[drv := added], done[drv := added + {dep}];
    forall d
      ensures Dependers(after, d) == if d == dep then Dependers(before, dep) + {drv} else Dependers(before, d)
    {
    }
  }

  /** `reverse.setdefault(dep, set()).add(drv)` */
  function AddEdge(reverse: Closures, drv: Drv, dep: Drv): Closures {
    reverse[dep := (if dep in reverse then reverse[dep] else {}) + {drv}]
  }

  lemma EmptyEntry(done: Closures, reverse: Closures, drv: Drv)
    requires IsReverse(done, reverse) && drv !in done
    ensures IsReverse(done[drv := {}], reverse)
  {
    assert forall d :: Dependers(done[drv := {}], d) == Dependers(done, d);
  }

  /** The inner loop of `compute_reverse_deps`: the edges of one derivation. */
  method AddEdges(reverse0: Closures, drv: Drv, deps: set<Drv>, ghost done: Closures) returns (reverse: Closures)
    requires drv !in done && IsReverse(done, reverse0)
    ensures IsReverse(done[drv := deps], reverse)
  {
    hide IsReverse;
    reverse := reverse0;
    var todo, added := deps, {};
    EmptyEntry(done, reverse, drv);
    while todo != {}
      invariant todo !! added && todo + added == deps
      invariant IsReverse(done[drv := added], reverse)
      decreases |todo|
    {
      var dep :| dep in todo;
      ReverseGrows(done, drv, added, dep, reverse);
      reverse := AddEdge(reverse, drv, dep);
      todo, added := todo - {dep}, added + {dep};
    }
  }

  method ComputeReverseDeps(closures: Closures) returns (reverse: Closures)
    ensures reverse == ReverseDeps(closures)
  {
    reverse := map[];
    var todo := closures.Keys;
    ghost var done: Closures := map[];
    while todo != {}
      invariant todo <= closures.Keys
      invariant done == map k | k in closures && k !in todo :: closures[k]
      invariant IsReverse(done, reverse)
      decreases |todo|
    {
      var drv :| drv in todo;
      reverse := AddEdges(reverse, drv, closures[drv], done);
      todo := todo - {drv};
      done := done[drv := closures[drv]];
    }
    assert done == closures;
    ReverseIsUnique(closures, reverse);
  }

  // ---------------------------------------------------------------------------
  // Transitive dependents
  // ---------------------------------------------------------------------------

  /** `to` directly depends on `from`, as far as the closures know. */
  predicate Edge(closures: Closures, from: Drv, to: Drv) {
    to in closures && from in closures[to]
  }

  /** A dependency chain out of `source` that runs through `within` only. */
  ghost predicate Chain(closures: Closures, within: set<Drv>, source: Drv, p: seq<Drv>) {
    && p != []
    && Edge(closures, source, p[0])
    && (forall i :: 0 <= i < |p| ==> p[i] in within)
    && (forall i :: 0 < i < |p| ==> Edge(closures, p[i - 1], p[i]))
  }

  ghost predicate Reaches(closures: Closures, within: set<Drv>, source: Drv, d: Drv) {
    exists p :: Chain(closures, within, source, p) && p[|p| - 1] == d
  }

  /** The drvs of `within` that transitively depend on `source` through `within`. */
  ghost function Dependents(closures: Closures, within: set<Drv>, source: Drv): set<Drv> {
    set d | d in within && Reaches(closures, within, source, d)
  }

  lemma ReachesStep(closures: Closures, within: set<Drv>, source: Drv, from: Drv, to: Drv)
    requires from == source || from in Dependents(closures, within, source)
    requires to in within && Edge(closures, from, to)
    ensures to in Dependents(closures, within, source)
  {
    if from == source {
      assert Chain(closures, within, source, [to]);
    } else {
      var p :| Chain(closures, within, source, p) && p[|p| - 1] == from;
      var q := p + [to];
      assert Chain(closures, within, source, q) && q[|q| - 1] == to;
    }
  }

  /** `drvs` has every dependent of `source` and of its own members. */
  ghost predicate ClosedUnderDependents(closures: Closures, within: set<Drv>, source: Drv, drvs: set<Drv>) {
    forall from, to :: (from == source || from in drvs) && to in within && Edge(closures, from, to) ==> to in drvs
  }

  lemma {:induction false} ChainStaysInside(closures: Closures, within: set<Drv>, source: Drv, drvs: set<Drv>,
                                            p: seq<Drv>)
    requires ClosedUnderDependents(closures, within, source, drvs)
    requires Chain(closures, within, source, p)
    ensures p[|p| - 1] in drvs
    decreases |p|
  {
    if |p| == 1 {
    } else {
      var q := p[..|p| - 1];
      assert Chain(closures, within, source, q);
      ChainStaysInside(closures, within, source, drvs, q);
      assert Edge(closures, q[|q| - 1], p[|p| - 1]);
    }
  }

  lemma DependentsAreLeast(closures: Closures, within: set<Drv>, source: Drv, drvs: set<Drv>)
    requires ClosedUnderDependents(closures, within, source, drvs)
    ensures Dependents(closures, within, source) <= drvs
  {
    forall d | d in Dependents(closures, within, source)
      ensures d in drvs
    {
      var p :| Chain(closures, within, source, p) && p[|p| - 1] == d;
      ChainStaysInside(closures, within, source, drvs, p);
    }
  }

  /** `byDrv` maps each derivation to its jobs, in order. */
  ghost predicate Grouped(byDrv: map<Drv, seq<Job>>, jobs: seq<Job>) {
    && byDrv.Keys == Drvs(jobs)
    && forall d :: d in byDrv ==> byDrv[d] == Select(jobs, {d}, true)
  }

  method GroupByDrv(jobs: seq<Job>) returns (byDrv: map<Drv, seq<Job>>)
    ensures Grouped(byDrv, jobs)
  {
    byDrv := map[];
    for i := 0 to |jobs|
      invariant byDrv.Keys == Drvs(jobs[..i])
      invariant forall d :: d in byDrv ==> byDrv[d] == Select(jobs[..i], {d}, true)
    {
      var job := jobs[i];
      assert jobs[..i + 1] == jobs[..i] + [job];
      assert jobs[..i + 1][..i] == jobs[..i];
      if job.drv !in byDrv {
        SelectNone(jobs[..i], {job.drv});
      }
      byDrv := byDrv[job.drv := (if job.drv in byDrv then byDrv[job.drv] else []) + [job]];
    }
    assert jobs[..|jobs|] == jobs;
  }

  /** State of the search while the dependents `todo` of `current` are still to be looked at:
      everything seen is a dependent, and unseen dependents hang off the stack or `todo`. */
  ghost predicate Searching(closures: Closures, jobs: seq<Job>, source: Drv,
                            seen: set<Drv>, stack: seq<Drv>, removed: seq<Job>, current: Drv, todo: set<Drv>)
  {
    && multiset(removed) == multiset(Select(jobs, seen, true))
    && seen <= Dependents(closures, Drvs(jobs), source)
    && (forall d :: d in stack ==> d == source || d in seen)
    && (current == source || current in seen)
    && (forall to :: to in todo ==> Edge(closures, current, to))
    && (forall from, to :: ((from == source || from in seen) && from !in stack && to in Drvs(jobs)
                            && Edge(closures, from, to)) ==> to in seen || (from == current && to in todo))
  }

  lemma SearchStarts(closures: Closures, jobs: seq<Job>, source: Drv)
    ensures Searching(closures, jobs, source, {}, [source], [], source, {})
  {
    SelectNone(jobs, {});
  }

  lemma SearchPops(closures: Closures, jobs: seq<Job>, source: Drv,
                   seen: set<Drv>, stack: seq<Drv>, removed: seq<Job>, current: Drv, found: set<Drv>)
    requires stack != []
    requires Searching(closures, jobs, source, seen, stack, removed, current, {})
    requires found == (if stack[|stack| - 1] in ReverseDeps(closures) then ReverseDeps(closures)[stack[|stack| - 1]]
                       else {})
    ensures Searching(closures, jobs, source, seen, stack[..|stack| - 1], removed, stack[|stack| - 1], found)
  {
    var drv, rest := stack[|stack| - 1], stack[..|stack| - 1];
    assert stack == rest + [drv];
    forall to | Edge(closures, drv, to)
      ensures to in found
    {
      assert drv in AllDeps(closures);
    }
  }

  lemma SearchVisits(closures: Closures, jobs: seq<Job>, source: Drv,
                     seen: set<Drv>, stack: seq<Drv>, removed: seq<Job>, current: Drv, todo: set<Drv>,
                     dependent: Drv, byDrv: map<Drv, seq<Job>>)
    requires Searching(closures, jobs, source, seen, stack, removed, current, todo)
    requires dependent in todo && Grouped(byDrv, jobs)
    ensures if dependent in byDrv && dependent !in seen then
              |Drvs(jobs) - (seen + {dependent})| < |Drvs(jobs) - seen| &&
              Searching(closures, jobs, source, seen + {dependent}, stack + [dependent],
                        removed + byDrv[dependent], current, todo - {dependent})
            else
              Searching(closures, jobs, source, seen, stack, removed, current, todo - {dependent})
  {
    if dependent in byDrv && dependent !in seen {
      SelectUnion(jobs, seen, {dependent});
      ReachesStep(closures, Drvs(jobs), source, current, dependent);
      var within, seen', stack' := Drvs(jobs), seen + {dependent}, stack + [dependent];
      assert within - seen' == (within - seen) - {dependent};
      forall from, to | (from == source || from in seen') && from !in stack' && to in within && Edge(closures, from, to)
        ensures to in seen' || (from == current && to in todo - {dependent})
      {
        assert from !in stack && from != dependent;
      }
    }
  }

  lemma SearchEnds(closures: Closures, jobs: seq<Job>, source: Drv, seen: set<Drv>, removed: seq<Job>, current: Drv)
    requires Searching(closures, jobs, source, seen, [], removed, current, {})
    ensures multiset(removed) == multiset(Select(jobs, Dependents(closures, Drvs(jobs), source), true))
  {
    DependentsAreLeast(closures, Drvs(jobs), source, seen);
    assert seen == Dependents(closures, Drvs(jobs), source);
  }

  /** Transitive dependents of a failed job among `jobs`: exactly the jobs
      reachable from it through edges between `jobs`, each once. */
  method GetFailedDependents(job: Job, jobs: seq<Job>, closures: Closures) returns (removed: seq<Job>)
    ensures multiset(removed) == multiset(Select(jobs, Dependents(closures, Drvs(jobs), job.drv), true))
  {
    hide Searching, Dependents, Drvs, Select, Grouped, ReverseDeps;
    var reverse := ComputeReverseDeps(closures);
    var byDrv := GroupByDrv(jobs);
    removed := [];
    var seen: set<Drv> := {};
    var stack, drv := [job.drv], job.drv;
    SearchStarts(closures, jobs, job.drv);
    while stack != []
      invariant Searching(closures, jobs, job.drv, seen, stack, removed, drv, {})
      decreases |Drvs(jobs) - seen|, |stack|
    {
      var found := if stack[|stack| - 1] in reverse then reverse[stack[|stack| - 1]] else {};
      SearchPops(closures, jobs, job.drv, seen, stack, removed, drv, found);
      drv, stack := stack[|stack| - 1], stack[..|stack| - 1];
      ghost var was, rest := seen, stack;
      while found != {}
        invariant Searching(closures, jobs, job.drv, seen, stack, removed, drv, found)
        invariant |Drvs(jobs) - seen| < |Drvs(jobs) - was| || (seen == was && stack == rest)
        decreases |found|
      {
        var dependent :| dependent in found;
        SearchVisits(closures, jobs, job.drv, seen, stack, removed, drv, found, dependent, byDrv);
        if dependent in byDrv && dependent !in seen {
          seen, stack, removed := seen + {dependent}, stack + [dependent], removed + byDrv[dependent];
        }
        found := found - {dependent};
      }
    }
    SearchEnds(closures, jobs, job.drv, seen, removed, drv);
  }
}
