/** The topological sort of pending jobs (`sort_jobs_by_closures`). */
module SchedulerSort {
  import opened Wrappers
  import opened SchedulerModel

  /** Every dependency has a smaller rank: the closures are acyclic. */
  ghost predicate Ranked(closures: Closures, rank: Drv -> nat) {
    forall k, d :: k in closures && d in closures[k] ==> rank(d) < rank(k)
  }

  /** `order` lists `nodes` once each, dependencies first. */
  ghost predicate Ordered(closures: Closures, nodes: set<Drv>, order: seq<Drv>) {
    && (forall d :: d in order <==> d in nodes)
    && (forall i, k :: 0 <= i < k < |order| ==> order[i] != order[k])
    && (forall i, k :: 0 <= i <= k < |order| && order[i] in closures ==> order[k] !in closures[order[i]])
  }

  lemma {:induction false} SmallestRank(nodes: set<Drv>, rank: Drv -> nat) returns (d: Drv)
    requires nodes != {}
    ensures d in nodes && forall e :: e in nodes ==> rank(d) <= rank(e)
    decreases |nodes|
  {
    var x :| x in nodes;
    if nodes == {x} {
      d := x;
    } else {
      assert nodes == (nodes - {x}) + {x};
      d := SmallestRank(nodes - {x}, rank);
      if rank(x) < rank(d) {
        d := x;
      }
    }
  }

  /** The nodes of `left` with no dependency in `left`. */
  function ReadyNodes(closures: Closures, left: set<Drv>): set<Drv> {
    set d | d in left && (d in closures ==> closures[d] !! left)
  }

  lemma StuckIsNotRanked(closures: Closures, left: set<Drv>, rank: Drv -> nat)
    requires left != {} && ReadyNodes(closures, left) == {}
    ensures !Ranked(closures, rank)
  {
    var d := SmallestRank(left, rank);
    assert d !in ReadyNodes(closures, left);
    var e :| e in closures[d] && e in left;
    assert rank(d) <= rank(e);
  }

  lemma StuckHasNoRank(closures: Closures, left: set<Drv>)
    requires left != {} && ReadyNodes(closures, left) == {}
    ensures forall rank: Drv -> nat :: !Ranked(closures, rank)
  {
    forall rank: Drv -> nat
      ensures !Ranked(closures, rank)
    {
      StuckIsNotRanked(closures, left, rank);
    }
  }

  /** `order` is `Ordered` so far, and no node of `left` precedes it. */
  ghost predicate Sorting(closures: Closures, nodes: set<Drv>, left: set<Drv>, order: seq<Drv>) {
    && left <= nodes
    && Ordered(closures, nodes - left, order)
    && (forall i :: 0 <= i < |order| && order[i] in closures ==> closures[order[i]] !! left)
  }

  lemma SortsNext(closures: Closures, nodes: set<Drv>, left: set<Drv>, order: seq<Drv>, d: Drv)
    requires Sorting(closures, nodes, left, order)
    requires d in ReadyNodes(closures, left)
    ensures d in left && Sorting(closures, nodes, left - {d}, order + [d])
  {
    var order', left' := order + [d], left - {d};
    forall e
      ensures e in order' <==> e in nodes - left'
    {
    }
  }

  /** graphlib's `static_order`: ready nodes in any order, None for its CycleError. */
  method StaticOrder(closures: Closures) returns (order: Option<seq<Drv>>)
    ensures order.Some? ==> Ordered(closures, closures.Keys + AllDeps(closures), order.value)
    ensures order.None? ==> forall rank: Drv -> nat :: !Ranked(closures, rank)
  {
    hide Sorting, AllDeps, ReadyNodes, Ordered, Ranked;
    ghost var nodes := closures.Keys + AllDeps(closures);
    var left := closures.Keys + AllDeps(closures);
    var done: seq<Drv> := [];
    SortingStarts(closures, nodes);
    while left != {}
      invariant left <= nodes
      invariant Sorting(closures, nodes, left, done)
      decreases |left|
    {
      var ready := ReadyNodes(closures, left);
      if ready == {} {
        StuckHasNoRank(closures, left);
        return None;
      }
      var d :| d in ready;
      SortsNext(closures, nodes, left, done, d);
      left, done := left - {d}, done + [d];
    }
    SortingEnds(closures, nodes, done);
    return Some(done);
  }

  lemma SortingStarts(closures: Closures, nodes: set<Drv>)
    ensures Sorting(closures, nodes, nodes, [])
  {
  }

  lemma SortingEnds(closures: Closures, nodes: set<Drv>, order: seq<Drv>)
    requires Sorting(closures, nodes, {}, order)
    ensures Ordered(closures, nodes, order)
  {
  }

  /** The jobs of each listed drv, in list order. */
  function InOrder(jobs: seq<Job>, order: seq<Drv>): seq<Job> {
    if order == [] then []
    else InOrder(jobs, order[..|order| - 1]) + Select(jobs, {order[|order| - 1]}, true)
  }

  ghost function Listed(order: seq<Drv>): set<Drv> {
    set d | d in order
  }

  lemma {:induction false} InOrderPermutes(jobs: seq<Job>, order: seq<Drv>)
    requires forall i, k :: 0 <= i < k < |order| ==> order[i] != order[k]
    ensures multiset(InOrder(jobs, order)) == multiset(Select(jobs, Listed(order), true))
  {
    if order == [] {
      SelectNone(jobs, Listed(order));
    } else {
      var init, last := order[..|order| - 1], order[|order| - 1];
      assert order == init + [last];
      InOrderPermutes(jobs, init);
      assert Listed(order) == Listed(init) + {last};
      SelectUnion(jobs, Listed(init), {last});
    }
  }

  /** Dependencies come first: no job depends on itself or on a later one. */
  ghost predicate DepsFirst(closures: Closures, jobs: seq<Job>) {
    forall i, k :: 0 <= i <= k < |jobs| && jobs[i].drv in closures ==> jobs[k].drv !in closures[jobs[i].drv]
  }

  lemma {:induction false} InOrderDepsFirst(closures: Closures, nodes: set<Drv>, jobs: seq<Job>, order: seq<Drv>)
    requires Ordered(closures, nodes, order)
    ensures DepsFirst(closures, InOrder(jobs, order))
    ensures forall j :: j in InOrder(jobs, order) ==> j.drv in order
    decreases |order|
  {
    if order != [] {
      var init, last := order[..|order| - 1], order[|order| - 1];
      assert order == init + [last];
      assert Ordered(closures, nodes - {last}, init);
      InOrderDepsFirst(closures, nodes - {last}, jobs, init);
      SelectMembers(jobs, {last}, true);
      var a, b := InOrder(jobs, init), Select(jobs, {last}, true);
      var c: seq<Job> := a + b;
      forall i, k | 0 <= i <= k < |c| && c[i].drv in closures
        ensures c[k].drv !in closures[c[i].drv]
      {
        if k >= |a| {
          assert c[k] in b;
          assert i < |a| ==> a[i] in a;
          assert i >= |a| ==> c[i] in b;
        }
      }
    }
  }

  lemma SelectAll(jobs: seq<Job>, drvs: set<Drv>)
    requires Drvs(jobs) <= drvs
    ensures multiset(Select(jobs, drvs, true)) == multiset(jobs)
  {
    SelectMembers(jobs, drvs, false);
    var none := Select(jobs, drvs, false);
    forall j | j in jobs
      ensures j.drv in drvs
    {
      assert j.drv in Drvs(jobs);
    }
    assert forall j :: j !in none;
    assert multiset(none) == multiset{};
    SelectSplits(jobs, drvs);
  }

  /** Dependencies first; None where graphlib raises, which acyclic closures rule out. */
  method SortJobsByClosures(jobs: seq<Job>, closures: Closures) returns (sorted: Option<seq<Job>>)
    requires Drvs(jobs) <= closures.Keys
    ensures sorted.Some? ==> multiset(sorted.value) == multiset(jobs) && DepsFirst(closures, sorted.value)
    ensures sorted.None? ==> forall rank: Drv -> nat :: !Ranked(closures, rank)
  {
    hide AllDeps, Select, DepsFirst;
    var byDrv := GroupByDrv(jobs);
    var order := StaticOrder(closures);
    if order.None? {
      return None;
    }
    var result: seq<Job> := [];
    for i := 0 to |order.value|
      invariant result == InOrder(jobs, order.value[..i])
    {
      var item := order.value[i];
      assert order.value[..i + 1][..i] == order.value[..i];
      if item !in byDrv {
        SelectNone(jobs, {item});
      }
      result := result + (if item in byDrv then byDrv[item] else []);
    }
    assert order.value[..|order.value|] == order.value;
    InOrderPermutes(jobs, order.value);
    InOrderDepsFirst(closures, closures.Keys + AllDeps(closures), jobs, order.value);
    assert Drvs(jobs) <= Listed(order.value);
    SelectAll(jobs, Listed(order.value));
    return Some(result);
  }
}
