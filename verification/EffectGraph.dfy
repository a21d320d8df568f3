/** The graph of effect dependencies: what makes it valid, and the tree drawn from it. */
module EffectGraph {
  import opened Wrappers

  datatype Name = Name(text: string)

  /** What each effect runs after, under its name. */
  type Deps = map<Name, seq<Name>>

  datatype GraphError = Cycle(names: seq<Name>) | Unknown(effect: Name, dep: Name)

  // ---------------------------------------------------------------------------
  // Valid graphs
  // ---------------------------------------------------------------------------

  predicate RunsAfter(deps: Deps, n: Name, d: Name) {
    n in deps && d in deps[n]
  }

  /** Each name runs after the one that follows it. */
  ghost predicate IsChain(deps: Deps, ns: seq<Name>) {
    forall i, j :: 0 <= i && j == i + 1 && j < |ns| ==> RunsAfter(deps, ns[i], ns[j])
  }

  ghost predicate IsCycle(deps: Deps, ns: seq<Name>) {
    |ns| >= 2 && ns[0] == ns[|ns| - 1] && IsChain(deps, ns)
  }

  ghost predicate Acyclic(deps: Deps) {
    forall ns :: !IsCycle(deps, ns)
  }

  ghost predicate Closed(deps: Deps) {
    forall n, d :: RunsAfter(deps, n, d) ==> d in deps
  }

  /** The error names a real cycle, or a real dependency on an effect that is not there. */
  ghost predicate RealError(deps: Deps, e: GraphError) {
    match e
    case Cycle(names) => IsCycle(deps, names)
    case Unknown(effect, dep) => RunsAfter(deps, effect, dep) && dep !in deps
  }

  /** Every effect in `order` comes after everything it runs after. */
  ghost predicate DepsFirst(deps: Deps, order: seq<Name>) {
    forall i :: 0 <= i < |order| ==> order[i] in deps && forall d :: d in deps[order[i]] ==> d in order[..i]
  }

  function Position(order: seq<Name>, n: Name): (i: nat)
    requires n in order
    ensures i < |order| && order[i] == n && n !in order[..i]
  {
    if order[0] == n then 0 else 1 + Position(order[1..], n)
  }

  lemma {:induction false} PositionBefore(order: seq<Name>, n: Name, i: nat)
    requires i <= |order| && n in order[..i]
    ensures n in order && Position(order, n) < i
  {
    if order[0] != n {
      assert order[1..][..i - 1] == order[..i][1..];
      PositionBefore(order[1..], n, i - 1);
    }
  }

  lemma DepIsEarlier(deps: Deps, order: seq<Name>, n: Name, d: Name)
    requires DepsFirst(deps, order) && n in order && RunsAfter(deps, n, d)
    ensures d in order && Position(order, d) < Position(order, n)
  {
    var i := Position(order, n);
    assert order[i] in deps && d in order[..i];
    PositionBefore(order, d, i);
  }

  lemma {:induction false} ChainDescends(deps: Deps, order: seq<Name>, ns: seq<Name>)
    requires DepsFirst(deps, order) && IsChain(deps, ns) && |ns| >= 2 && ns[0] in order
    ensures ns[|ns| - 1] in order && Position(order, ns[|ns| - 1]) < Position(order, ns[0])
  {
    DepIsEarlier(deps, order, ns[0], ns[1]);
    if |ns| > 2 {
      TailIsChain(deps, ns, 1);
      ChainDescends(deps, order, ns[1..]);
    }
  }

  lemma TailIsChain(deps: Deps, ns: seq<Name>, k: nat)
    requires IsChain(deps, ns) && k <= |ns|
    ensures IsChain(deps, ns[k..])
  {
    var rest := ns[k..];
    forall i, j | 0 <= i && j == i + 1 && j < |rest|
      ensures RunsAfter(deps, rest[i], rest[j])
    {
      assert rest[i] == ns[k + i] && rest[j] == ns[k + j];
    }
  }

  /** A graph with such an order has no cycle. */
  lemma OrderedIsAcyclic(deps: Deps, order: seq<Name>)
    requires DepsFirst(deps, order) && forall n :: n in deps ==> n in order
    ensures Acyclic(deps) && Closed(deps)
  {
    forall ns
      ensures !IsCycle(deps, ns)
    {
      if IsCycle(deps, ns) {
        assert RunsAfter(deps, ns[0], ns[1]);
        ChainDescends(deps, order, ns);
      }
    }
    forall n, d | RunsAfter(deps, n, d)
      ensures d in deps
    {
      DepIsEarlier(deps, order, n, d);
      assert order[Position(order, d)] in deps;
    }
  }

  // ---------------------------------------------------------------------------
  // Paths
  // ---------------------------------------------------------------------------

  predicate IsRoot(deps: Deps, n: Name) {
    n in deps && deps[n] == []
  }

  /** How often a path is to be drawn: once for a root, and for each step
      once per mention of the parent in the child's `after`. */
  function Multiplicity(deps: Deps, path: seq<Name>): nat {
    if path != [] && IsRoot(deps, path[0]) then Steps(deps, path, 1) else 0
  }

  /** The product of the mentions from step `i` on. */
  function Steps(deps: Deps, path: seq<Name>, i: nat): nat
    requires i >= 1
    decreases |path| - i
  {
    if i >= |path| then 1 else Mentions(deps, path[i], path[i - 1]) * Steps(deps, path, i + 1)
  }

  function Mentions(deps: Deps, child: Name, parent: Name): nat {
    if child in deps then multiset(deps[child])[parent] else 0
  }

  /** From step `i` on, each name runs after the one before it. */
  ghost predicate StepsDown(deps: Deps, path: seq<Name>, i: nat)
    requires i >= 1
  {
    forall k, j :: i - 1 <= k && j == k + 1 && j < |path| ==> RunsAfter(deps, path[j], path[k])
  }

  /** A path down from an effect that runs after nothing. */
  ghost predicate IsRootPath(deps: Deps, path: seq<Name>) {
    path != [] && IsRoot(deps, path[0]) && StepsDown(deps, path, 1)
  }

  /** `after` lists without repetition. */
  ghost predicate NoRepeats(deps: Deps) {
    forall n, d :: RunsAfter(deps, n, d) ==> multiset(deps[n])[d] == 1
  }

  /** The multiplicity is positive exactly on root paths, and 1 there when no `after` repeats itself. */
  lemma MultiplicityExactly(deps: Deps, path: seq<Name>)
    ensures Multiplicity(deps, path) > 0 <==> IsRootPath(deps, path)
    ensures NoRepeats(deps) ==> Multiplicity(deps, path) <= 1
  {
    StepsExactly(deps, path, 1);
  }

  lemma {:induction false} StepsExactly(deps: Deps, path: seq<Name>, i: nat)
    requires i >= 1
    ensures Steps(deps, path, i) > 0 <==> StepsDown(deps, path, i)
    ensures NoRepeats(deps) ==> Steps(deps, path, i) <= 1
    decreases |path| - i
  {
    if i < |path| {
      StepsExactly(deps, path, i + 1);
      MentionsExactly(deps, path[i], path[i - 1]);
      ProductBounds(Mentions(deps, path[i], path[i - 1]), Steps(deps, path, i + 1));
      assert StepsDown(deps, path, i) <==> RunsAfter(deps, path[i], path[i - 1]) && StepsDown(deps, path, i + 1);
    }
  }

  lemma MentionsExactly(deps: Deps, child: Name, parent: Name)
    ensures Mentions(deps, child, parent) > 0 <==> RunsAfter(deps, child, parent)
    ensures NoRepeats(deps) ==> Mentions(deps, child, parent) <= 1
  {
    if child in deps && Mentions(deps, child, parent) > 0 {
      assert parent in multiset(deps[child]);
      assert RunsAfter(deps, child, parent);
    }
  }

  lemma ProductBounds(m: nat, k: nat)
    ensures m * k > 0 <==> m > 0 && k > 0
    ensures m <= 1 && k <= 1 ==> m * k <= 1
  {
    if m == 0 || k == 0 {
      assert m * k == 0;
    } else {
      assert m * k >= k;
    }
  }

  /** In a valid graph every effect ends some root path. */
  lemma {:induction false} SomeRootPath(deps: Deps, order: seq<Name>, n: Name) returns (path: seq<Name>)
    requires DepsFirst(deps, order) && n in order
    ensures IsRootPath(deps, path) && path[|path| - 1] == n
    decreases Position(order, n)
  {
    assert order[Position(order, n)] in deps;
    if deps[n] == [] {
      path := [n];
    } else {
      var d := deps[n][0];
      DepIsEarlier(deps, order, n, d);
      var up := SomeRootPath(deps, order, d);
      path := up + [n];
      assert forall k, j :: 0 <= k && j == k + 1 && j < |up| ==> RunsAfter(deps, up[j], up[k]);
    }
  }

  /** One more step: as often as the step is mentioned. */
  lemma {:induction false} StepsSnoc(deps: Deps, path: seq<Name>, n: Name, i: nat)
    requires 1 <= i <= |path|
    ensures Steps(deps, path + [n], i) == Steps(deps, path, i) * Mentions(deps, n, path[|path| - 1])
    decreases |path| - i
  {
    var longer := path + [n];
    if i < |path| {
      StepsSnoc(deps, path, n, i + 1);
      assert longer[i] == path[i] && longer[i - 1] == path[i - 1];
      Associates(Mentions(deps, path[i], path[i - 1]), Steps(deps, path, i + 1), Mentions(deps, n, path[|path| - 1]));
    } else {
      assert Steps(deps, longer, i + 1) == 1 && Steps(deps, path, i) == 1;
    }
  }

  lemma Associates(a: nat, b: nat, c: nat)
    ensures a * (b * c) == (a * b) * c
  {
  }

  /** An effect that mentions another twice is to be drawn below it twice. */
  lemma RepeatsTwice(deps: Deps, order: seq<Name>, n: Name, d: Name) returns (path: seq<Name>)
    requires DepsFirst(deps, order) && n in order && RunsAfter(deps, n, d) && multiset(deps[n])[d] != 1
    ensures Multiplicity(deps, path) >= 2
  {
    hide DepsFirst, Steps, Mentions;
    DepIsEarlier(deps, order, n, d);
    var up := SomeRootPath(deps, order, d);
    path := up + [n];
    StepsExactly(deps, up, 1);
    StepsSnoc(deps, up, n, 1);
    TwiceMentioned(deps, n, d);
    TwiceAtLeast(Steps(deps, up, 1), Mentions(deps, n, d));
    assert path[0] == up[0];
  }

  lemma TwiceMentioned(deps: Deps, n: Name, d: Name)
    requires RunsAfter(deps, n, d) && multiset(deps[n])[d] != 1
    ensures Mentions(deps, n, d) >= 2
  {
    assert d in multiset(deps[n]);
  }

  lemma TwiceAtLeast(a: nat, b: nat)
    requires a >= 1 && b >= 2
    ensures a * b >= 2
  {
    assert a * b >= b;
  }

  /** In a valid graph every root path is to be drawn once, and no other path, if and only if no `after` repeats
      itself. */
  lemma {:induction false} OnceExactly(deps: Deps, order: seq<Name>)
    requires DepsFirst(deps, order) && forall n :: n in deps ==> n in order
    ensures (forall p :: Multiplicity(deps, p) == if IsRootPath(deps, p) then 1 else 0) <==> NoRepeats(deps)
  {
    hide DepsFirst, Multiplicity, IsRootPath;
    forall p
      ensures Multiplicity(deps, p) > 0 <==> IsRootPath(deps, p)
      ensures NoRepeats(deps) ==> Multiplicity(deps, p) <= 1
    {
      MultiplicityExactly(deps, p);
    }
    if n, d :| RunsAfter(deps, n, d) && multiset(deps[n])[d] != 1 {
      var path := RepeatsTwice(deps, order, n, d);
      assert Multiplicity(deps, path) >= 2;
    }
  }

  /** A valid graph with a repetition: `b` runs after `a` twice. */
  lemma RepeatedAfterIsValid(a: Name, b: Name)
    requires a != b
    ensures var deps := map[a := [], b := [a, a]];
            Closed(deps) && Acyclic(deps) && Multiplicity(deps, [a, b]) == 2
  {
    var deps := map[a := [], b := [a, a]];
    var path := [a, b];
    assert path[..1] == [a] && deps[b] == [a, a];
    OrderedIsAcyclic(deps, path);
    assert Steps(deps, path, 2) == 1 && Mentions(deps, b, a) == 2;
  }

  // ---------------------------------------------------------------------------
  // Validation
  // ---------------------------------------------------------------------------

  function Index(ns: seq<Name>, n: Name): (i: nat)
    requires n in ns
    ensures i < |ns| && ns[i] == n
  {
    Position(ns, n)
  }

  class Validator {
    const deps: Deps
    var visiting: set<Name>
    var done: set<Name>
    /** The finished effects, in the order they finished. */
    ghost var finished: seq<Name>

    constructor (deps: Deps)
      ensures this.deps == deps && Valid([]) && done == {}
    {
      this.deps := deps;
      visiting, done, finished := {}, {}, [];
    }

    /** `chain` is what is being visited and not finished; what is finished comes after its dependencies. */
    ghost predicate Valid(chain: seq<Name>)
      reads this
    {
      && done <= visiting <= deps.Keys
      && (forall n :: n in finished <==> n in done) && DepsFirst(deps, finished)
      && (forall n :: n in chain <==> n in visiting && n !in done) && IsChain(deps, chain)
    }

    method Visit(name: Name, chain: seq<Name>) returns (e: Option<GraphError>)
      requires Valid(chain) && name in deps && (chain != [] ==> RunsAfter(deps, chain[|chain| - 1], name))
      modifies this
      ensures e.None? ==> Valid(chain) && name in done && old(done) <= done && old(visiting) <= visiting
      ensures e.Some? ==> RealError(deps, e.value)
      decreases deps.Keys - visiting
    {
      hide DepsFirst;
      if name in done {
        return None;
      }
      ChainExtends(deps, chain, name);
      if name in visiting {
        var i := Index(chain, name);
        TailIsChain(deps, chain + [name], i);
        assert (chain + [name])[i..] == chain[i..] + [name];
        return Some(Cycle(chain[i..] + [name]));
      }
      visiting := visiting + {name};
      for k := 0 to |deps[name]|
        invariant Valid(chain + [name]) && old(done) <= done && old(visiting) + {name} <= visiting
        invariant forall j :: 0 <= j < k ==> deps[name][j] in done
      {
        var dep := deps[name][k];
        assert RunsAfter(deps, name, dep);
        if dep !in deps {
          return Some(Unknown(name, dep));
        }
        e := Visit(dep, chain + [name]);
        if e.Some? {
          return;
        }
      }
      FinishOne(deps, finished, name);
      done := done + {name};
      finished := finished + [name];
      return None;
    }
  }

  lemma ChainExtends(deps: Deps, chain: seq<Name>, name: Name)
    requires IsChain(deps, chain) && (chain != [] ==> RunsAfter(deps, chain[|chain| - 1], name))
    ensures IsChain(deps, chain + [name])
  {
  }

  lemma FinishOne(deps: Deps, finished: seq<Name>, name: Name)
    requires DepsFirst(deps, finished) && name in deps && forall d :: d in deps[name] ==> d in finished
    ensures DepsFirst(deps, finished + [name])
  {
    forall i | 0 <= i < |finished| + 1
      ensures (finished + [name])[..i] == finished[..i]
    {
    }
  }

  /** A graph with a real error is not closed or not acyclic. */
  lemma RealErrorRefutes(deps: Deps, e: GraphError)
    requires RealError(deps, e)
    ensures !(Closed(deps) && Acyclic(deps))
  {
  }

  /** `validate_deps`: None where it returns. It returns exactly for closed acyclic graphs. */
  method ValidateDeps(names: seq<Name>, deps: Deps) returns (e: Option<GraphError>, ghost order: seq<Name>)
    requires forall n :: n in names <==> n in deps
    ensures e.None? <==> Closed(deps) && Acyclic(deps)
    ensures e.Some? ==> RealError(deps, e.value)
    ensures e.None? ==> DepsFirst(deps, order) && forall n :: n in deps ==> n in order
  {
    hide DepsFirst, RealError;
    var v := new Validator(deps);
    for i := 0 to |names|
      invariant v.Valid([]) && v.deps == deps && fresh(v)
      invariant forall j :: 0 <= j < i ==> names[j] in v.done
    {
      e := v.Visit(names[i], []);
      if e.Some? {
        RealErrorRefutes(deps, e.value);
        return e, [];
      }
    }
    OrderedIsAcyclic(deps, v.finished);
    return None, v.finished;
  }
}
