/** The tree drawn from a valid graph: one row per path down from a root. */
module EffectTree {
  import opened Wrappers
  import opened EffectGraph

  /** What is drawn before the label, and the path from the root to the effect of this row. */
  datatype Row = Row(lead: string, path: seq<Name>)

  /** How many rows are drawn for a path. */
  function Drawn(rows: seq<Row>, path: seq<Name>): nat {
    if rows == [] then 0
    else Drawn(rows[..|rows| - 1], path) + (if rows[|rows| - 1].path == path then 1 else 0)
  }

  // ---------------------------------------------------------------------------
  // Sorting
  // ---------------------------------------------------------------------------

  predicate TextLeq(a: string, b: string) {
    a == "" || (b != "" && (a[0] < b[0] || (a[0] == b[0] && TextLeq(a[1..], b[1..]))))
  }

  /** One text comes before another as a prefix of it, or by the smaller character where they differ first. */
  lemma {:induction false} TextLeqExactly(a: string, b: string)
    ensures TextLeq(a, b) <==>
            a <= b || exists i :: 0 <= i < |a| && i < |b| && a[..i] == b[..i] && a[i] < b[i]
  {
    if a != "" && b != "" {
      if a[0] == b[0] {
        TextLeqExactly(a[1..], b[1..]);
        assert a == [a[0]] + a[1..] && b == [b[0]] + b[1..];
        assert a <= b <==> a[1..] <= b[1..];
        forall i | 0 <= i < |a| - 1 && i < |b| - 1
          ensures a[1..][..i] == b[1..][..i] <==> a[..i + 1] == b[..i + 1]
          ensures a[1..][i] == a[i + 1] && b[1..][i] == b[i + 1]
        {
          assert a[..i + 1] == [a[0]] + a[1..][..i] && b[..i + 1] == [b[0]] + b[1..][..i];
        }
        if i :| 0 <= i < |a| - 1 && i < |b| - 1 && a[1..][..i] == b[1..][..i] && a[1..][i] < b[1..][i] {
          assert a[..i + 1] == b[..i + 1] && a[i + 1] < b[i + 1];
        }
        if i :| 0 <= i < |a| && i < |b| && a[..i] == b[..i] && a[i] < b[i] {
          assert i > 0;
          assert a[1..][..i - 1] == b[1..][..i - 1] && a[1..][i - 1] < b[1..][i - 1];
        }
      } else if a[0] < b[0] {
        assert a[..0] == b[..0];
      } else {
        forall i | 0 <= i < |a| && i < |b| && a[..i] == b[..i]
          ensures a[i] >= b[i]
        {
          if i > 0 {
            SameStart(a, b, i);
          }
        }
      }
    }
  }

  lemma SameStart(a: string, b: string, i: nat)
    requires 0 < i <= |a| && i <= |b| && a[..i] == b[..i]
    ensures a[0] == b[0]
  {
    assert a[0] == a[..i][0] == b[..i][0];
  }

  lemma {:induction false} TextLeqTotal(a: string, b: string)
    ensures TextLeq(a, b) || TextLeq(b, a)
  {
    if a != "" && b != "" && a[0] == b[0] {
      TextLeqTotal(a[1..], b[1..]);
    }
  }

  /** In alphabetical order. */
  ghost predicate Alphabetical(ns: seq<Name>) {
    forall i, j :: 0 <= i && j == i + 1 && j < |ns| ==> TextLeq(ns[i].text, ns[j].text)
  }

  function Sort(ns: seq<Name>): seq<Name> {
    if ns == [] then [] else Insert(Sort(ns[..|ns| - 1]), ns[|ns| - 1])
  }

  function Insert(ns: seq<Name>, n: Name): seq<Name> {
    if ns == [] || TextLeq(ns[|ns| - 1].text, n.text) then ns + [n]
    else Insert(ns[..|ns| - 1], n) + [ns[|ns| - 1]]
  }

  lemma {:induction false} InsertSorts(ns: seq<Name>, n: Name)
    requires Alphabetical(ns)
    ensures Alphabetical(Insert(ns, n))
    ensures var r := Insert(ns, n); r != [] && (r[|r| - 1] == n || (ns != [] && r[|r| - 1] == ns[|ns| - 1]))
  {
    hide TextLeq, Alphabetical;
    if ns == [] || TextLeq(ns[|ns| - 1].text, n.text) {
      AlphabeticalSnoc(ns, n);
    } else {
      var init, last := ns[..|ns| - 1], ns[|ns| - 1];
      AlphabeticalInit(ns);
      InsertSorts(init, n);
      TextLeqTotal(n.text, last.text);
      AlphabeticalSnoc(Insert(init, n), last);
    }
  }

  lemma AlphabeticalInit(ns: seq<Name>)
    requires Alphabetical(ns) && ns != []
    ensures Alphabetical(ns[..|ns| - 1])
    ensures |ns| > 1 ==> TextLeq(ns[|ns| - 2].text, ns[|ns| - 1].text)
  {
    hide TextLeq;
  }

  lemma AlphabeticalSnoc(ns: seq<Name>, n: Name)
    requires Alphabetical(ns) && (ns != [] ==> TextLeq(ns[|ns| - 1].text, n.text))
    ensures Alphabetical(ns + [n])
  {
    hide TextLeq;
  }

  lemma {:induction false} InsertPermutes(ns: seq<Name>, n: Name)
    ensures multiset(Insert(ns, n)) == multiset(ns) + multiset{n}
  {
    hide TextLeq;
    if ns != [] && !TextLeq(ns[|ns| - 1].text, n.text) {
      MultisetInit(ns);
      InsertPermutes(ns[..|ns| - 1], n);
    }
  }

  lemma MultisetInit(ns: seq<Name>)
    requires ns != []
    ensures multiset(ns) == multiset(ns[..|ns| - 1]) + multiset{ns[|ns| - 1]}
  {
    assert ns == ns[..|ns| - 1] + [ns[|ns| - 1]];
  }

  lemma NothingIsSorted()
    ensures Alphabetical([])
  {
  }

  /** `sorted`: the same names, in alphabetical order. */
  lemma {:induction false} SortSorts(ns: seq<Name>)
    ensures Alphabetical(Sort(ns)) && multiset(Sort(ns)) == multiset(ns)
  {
    hide Insert, Alphabetical;
    NothingIsSorted();
    if ns != [] {
      MultisetInit(ns);
      SortSorts(ns[..|ns| - 1]);
      InsertSorts(Sort(ns[..|ns| - 1]), ns[|ns| - 1]);
      InsertPermutes(Sort(ns[..|ns| - 1]), ns[|ns| - 1]);
    }
  }

  // ---------------------------------------------------------------------------
  // Children
  // ---------------------------------------------------------------------------

  /** The keys of a dictionary, in its order. */
  ghost predicate KeysOf(names: seq<Name>, deps: Deps) {
    && (forall n :: n in names <==> n in deps)
    && (forall i, j :: 0 <= i < j < |names| ==> names[i] != names[j])
  }

  type ChildMap = map<Name, seq<Name>>

  function ChildCount(children: ChildMap, d: Name, n: Name): nat {
    if d in children then multiset(children[d])[n] else 0
  }

  /** The children of each effect: a child as often as it mentions the effect. */
  ghost predicate Inverts(children: ChildMap, deps: Deps) {
    children.Keys == deps.Keys && forall d, n :: d in deps ==> ChildCount(children, d, n) == Mentions(deps, n, d)
  }

  method Children(names: seq<Name>, deps: Deps) returns (children: ChildMap)
    requires KeysOf(names, deps) && Closed(deps)
    ensures Inverts(children, deps)
  {
    hide Closed;
    children := map n | n in deps :: [];
    for i := 0 to |names|
      invariant children.Keys == deps.Keys
      invariant forall d, n :: d in deps ==>
                ChildCount(children, d, n) == if n in names[..i] then Mentions(deps, n, d) else 0
    {
      children := AddChild(children, deps, names[i]);
    }
  }

  method AddChild(children0: ChildMap, deps: Deps, name: Name) returns (children: ChildMap)
    requires children0.Keys == deps.Keys && name in deps && Closed(deps)
    ensures children.Keys == deps.Keys
    ensures forall d, n :: d in deps ==>
              ChildCount(children, d, n) == ChildCount(children0, d, n) + if n == name then Mentions(deps, n, d) else 0
  {
    children := children0;
    var after := deps[name];
    for k := 0 to |after|
      invariant children.Keys == deps.Keys
      invariant forall d, n :: d in deps ==>
                  ChildCount(children, d, n)
                    == ChildCount(children0, d, n) + if n == name then multiset(after[..k])[d] else 0
    {
      assert RunsAfter(deps, name, after[k]);
      assert after[..k + 1] == after[..k] + [after[k]];
      children := children[after[k] := children[after[k]] + [name]];
    }
    assert after[..|after|] == after;
  }

  /** A child comes later than its parent in a valid order. */
  lemma {:induction false} KidIsLater(children: ChildMap, deps: Deps, order: seq<Name>, n: Name, kid: Name)
    requires Inverts(children, deps) && DepsFirst(deps, order) && (forall x :: x in deps ==> x in order)
    requires n in deps && kid in children[n]
    ensures kid in deps && Position(order, n) < Position(order, kid)
  {
    assert ChildCount(children, n, kid) > 0;
    MentionsExactly(deps, kid, n);
    DepIsEarlier(deps, order, kid, n);
  }

  // ---------------------------------------------------------------------------
  // Drawing
  // ---------------------------------------------------------------------------

  /** How often a path is drawn below `path`. */
  function Below(deps: Deps, path: seq<Name>, p: seq<Name>): nat
    requires path != []
  {
    if path < p then Steps(deps, p, |path|) else 0
  }

  /** How often, by way of the first children only. */
  function BelowKids(deps: Deps, kids: seq<Name>, path: seq<Name>, p: seq<Name>): nat {
    if path < p then multiset(kids)[p[|path|]] * Steps(deps, p, |path| + 1) else 0
  }

  lemma BelowAllKids(deps: Deps, children: ChildMap, kids: seq<Name>, path: seq<Name>, p: seq<Name>)
    requires Inverts(children, deps) && path != [] && path[|path| - 1] in deps
    requires multiset(kids) == multiset(children[path[|path| - 1]])
    ensures BelowKids(deps, kids, path, p) == Below(deps, path, p)
  {
    if path < p {
      var name := path[|path| - 1];
      assert p[|path| - 1] == name;
      assert ChildCount(children, name, p[|path|]) == Mentions(deps, p[|path|], name);
    }
  }

  /** One more child: its own row, and what is below it. */
  lemma OneMoreKid(deps: Deps, kids: seq<Name>, kid: Name, path: seq<Name>, p: seq<Name>)
    ensures BelowKids(deps, kids + [kid], path, p)
         == BelowKids(deps, kids, path, p) + (if p == path + [kid] then 1 else 0) + Below(deps, path + [kid], p)
  {
    if path < p {
      var n, s := p[|path|], Steps(deps, p, |path| + 1);
      assert multiset(kids + [kid])[n] == multiset(kids)[n] + if kid == n then 1 else 0;
      Distributes(multiset(kids)[n], if kid == n then 1 else 0, s);
      if kid == n {
        assert path + [kid] <= p;
      }
    }
  }

  lemma Distributes(a: nat, b: nat, s: nat)
    ensures (a + b) * s == a * s + b * s
  {
  }

  const ELBOW := "└── "
  const TEE := "├── "
  const BLANK := "    "
  const BAR := "│   "

  // ---------------------------------------------------------------------------
  // Layout
  // ---------------------------------------------------------------------------

  /** `b` may come right after `a`: the parent of `b` is on the path to `a`, and the child of it that
      `a` is or is below comes before `b` in the alphabet. */
  predicate Follows(a: Row, b: Row) {
    b.path != [] &&
    var k := |b.path| - 1;
    k <= |a.path| && b.path[..k] == a.path[..k] && (k < |a.path| ==> TextLeq(a.path[k].text, b.path[k].text))
  }

  /** From the roots down, each effect before its children, and children in alphabetical order. */
  ghost predicate Preorder(rows: seq<Row>) {
    && (rows != [] ==> |rows[0].path| == 1)
    && (forall i :: 0 <= i < |rows| ==> rows[i].path != [])
    && (forall i, j :: 0 <= i && j == i + 1 && j < |rows| ==> Follows(rows[i], rows[j]))
  }

  /** The depth of the first row that is no deeper than `m`; `after` is the depth of the row after these, if any. */
  function NextUp(rows: seq<Row>, m: nat, after: nat): nat {
    if rows == [] then after else if |rows[0].path| <= m then |rows[0].path| else NextUp(rows[1..], m, after)
  }

  /** Another child of the same parent follows at depth `m`. */
  predicate SiblingFollows(rest: seq<Row>, m: nat, after: nat) {
    NextUp(rest, m, after) == m
  }

  /** What is drawn at the depths from `m` on before a label at depth `depth`, the rows below it being `rest`:
      the connector tells whether a sibling of the effect follows, a column whether one of that ancestor does. */
  function Lead(rest: seq<Row>, m: nat, depth: nat, after: nat): string
    decreases depth - m
  {
    if m > depth then ""
    else if m == depth then (if SiblingFollows(rest, m, after) then TEE else ELBOW)
    else (if SiblingFollows(rest, m, after) then BAR else BLANK) + Lead(rest, m + 1, depth, after)
  }

  /** Every row has that lead, after a common prefix for the depths below `m`. */
  ghost predicate LaidOut(rows: seq<Row>, m: nat, prefix: string, after: nat) {
    forall i :: 0 <= i < |rows| ==>
      rows[i].lead == prefix + Lead(rows[i + 1..], m, |rows[i].path|, after)
  }

  ghost predicate Under(rows: seq<Row>, path: seq<Name>) {
    forall i :: 0 <= i < |rows| ==> path < rows[i].path
  }

  /** Row `j` draws the next sibling of the effect at depth `m` on the path to row `i`, whose rows all lie between. */
  ghost predicate IsNextSibling(rows: seq<Row>, i: nat, j: nat, m: nat) {
    && 1 <= m && i < j < |rows| && m <= |rows[i].path|
    && |rows[j].path| == m && rows[j].path[..m - 1] == rows[i].path[..m - 1]
    && forall k :: i < k < j ==> rows[i].path[..m] < rows[k].path
  }

  /** That is what connectors and columns tell. */
  lemma SiblingExactly(rows: seq<Row>, i: nat, m: nat)
    requires Preorder(rows) && i < |rows| && 1 <= m <= |rows[i].path|
    ensures SiblingFollows(rows[i + 1..], m, 0) <==> exists j: nat :: IsNextSibling(rows, i, j, m)
  {
    SiblingFrom(rows, i, i + 1, m);
  }

  lemma {:induction false} SiblingFrom(rows: seq<Row>, i: nat, s: nat, m: nat)
    requires Preorder(rows) && i < s <= |rows| && 1 <= m <= |rows[i].path|
    requires forall k :: i < k < s ==> rows[i].path[..m] < rows[k].path
    ensures NextUp(rows[s..], m, 0) == m <==> exists j: nat :: IsNextSibling(rows, i, j, m)
    decreases |rows| - s
  {
    hide Preorder;
    if s < |rows| {
      StaysBelow(rows, i, s, m);
      assert rows[s..][0] == rows[s] && rows[s..][1..] == rows[s + 1..];
      if |rows[s].path| > m {
        SiblingFrom(rows, i, s + 1, m);
      } else if |rows[s].path| == m {
        assert IsNextSibling(rows, i, s, m);
      }
    }
  }

  lemma StaysBelow(rows: seq<Row>, i: nat, s: nat, m: nat)
    requires Preorder(rows) && i < s < |rows| && 1 <= m <= |rows[i].path|
    requires forall k :: i < k < s ==> rows[i].path[..m] < rows[k].path
    ensures |rows[s].path| > m ==> rows[i].path[..m] < rows[s].path
    ensures |rows[s].path| == m ==> rows[s].path[..m - 1] == rows[i].path[..m - 1]
  {
    var r := s - 1;
    var up, here, next := rows[i].path[..m], rows[r].path, rows[s].path;
    assert Follows(rows[r], rows[s]) && up <= here;
    var k := |next| - 1;
    assert k >= m ==> next[..m] == next[..k][..m] == here[..k][..m] == here[..m];
    assert k == m - 1 ==> here[..k] == up[..k] == rows[i].path[..k];
  }

  /** What follows decides as its first row does. */
  lemma {:induction false} NextUpConcat(a: seq<Row>, b: seq<Row>, m: nat, after: nat)
    requires b != [] && |b[0].path| <= m
    ensures NextUp(a + b, m, after) == NextUp(a, m, |b[0].path|)
  {
    if a == [] {
      assert a + b == b;
    } else {
      assert (a + b)[1..] == a[1..] + b;
      NextUpConcat(a[1..], b, m, after);
    }
  }

  lemma {:induction false} LeadConcat(a: seq<Row>, b: seq<Row>, m: nat, depth: nat, after: nat)
    requires b != [] && |b[0].path| <= m
    ensures Lead(a + b, m, depth, after) == Lead(a, m, depth, |b[0].path|)
    decreases depth - m
  {
    if m <= depth {
      NextUpConcat(a, b, m, after);
      LeadConcat(a, b, m + 1, depth, after);
    }
  }

  /** Rows that a row of at most this depth follows, and the rows from there on. */
  lemma LaidOutConcat(a: seq<Row>, b: seq<Row>, m: nat, prefix: string, after: nat)
    requires b != [] && |b[0].path| <= m && LaidOut(a, m, prefix, |b[0].path|) && LaidOut(b, m, prefix, after)
    ensures LaidOut(a + b, m, prefix, after)
  {
    hide Lead;
    var rows := a + b;
    forall i | 0 <= i < |rows|
      ensures rows[i].lead == prefix + Lead(rows[i + 1..], m, |rows[i].path|, after)
    {
      if i < |a| {
        assert rows[i] == a[i] && rows[i + 1..] == a[i + 1..] + b;
        LeadConcat(a[i + 1..], b, m, |a[i].path|, after);
      } else {
        assert rows[i] == b[i - |a|] && rows[i + 1..] == b[i - |a| + 1..];
      }
    }
  }

  /** Among deeper rows only what comes after counts, and at these depths not even that. */
  lemma {:induction false} NextUpDeeper(rows: seq<Row>, m: nat, after: nat)
    requires forall i :: 0 <= i < |rows| ==> |rows[i].path| > m
    ensures NextUp(rows, m, after) == after
  {
    if rows != [] {
      NextUpDeeper(rows[1..], m, after);
    }
  }

  lemma {:induction false} NextUpShallow(rows: seq<Row>, m: nat, after: nat)
    requires after < m
    ensures NextUp(rows, m, after) == m <==> NextUp(rows, m, 0) == m
  {
    if rows != [] {
      NextUpShallow(rows[1..], m, after);
    }
  }

  lemma {:induction false} LeadShallow(rows: seq<Row>, m: nat, depth: nat, after: nat)
    requires after < m
    ensures Lead(rows, m, depth, after) == Lead(rows, m, depth, 0)
    decreases depth - m
  {
    if m <= depth {
      NextUpShallow(rows, m, after);
      LeadShallow(rows, m + 1, depth, after);
    }
  }

  /** A child and everything below it: the connector and the column tell whether another child follows. */
  lemma LaidOutChild(row: Row, below: seq<Row>, prefix: string, more: bool)
    requires var m := |row.path|;
             && m >= 1 && row.lead == prefix + (if more then TEE else ELBOW)
             && Under(below, row.path) && LaidOut(below, m + 1, prefix + (if more then BAR else BLANK), 0)
    ensures LaidOut([row] + below, |row.path|, prefix, if more then |row.path| else 0)
  {
    hide NextUp, Lead;
    var rows, m, after := [row] + below, |row.path|, if more then |row.path| else 0;
    forall i | 0 <= i < |rows|
      ensures rows[i].lead == prefix + Lead(rows[i + 1..], m, |rows[i].path|, after)
    {
      var rest := rows[i + 1..];
      assert rest == below[i..];
      NextUpDeeper(rest, m, after);
      LeadUnfolds(rest, m, |rows[i].path|, after);
      if i > 0 {
        assert rows[i] == below[i - 1];
        LeadShallow(rest, m + 1, |rows[i].path|, after);
      }
    }
  }

  lemma LeadUnfolds(rest: seq<Row>, m: nat, depth: nat, after: nat)
    requires m <= depth
    ensures Lead(rest, m, depth, after)
         == if m == depth then (if SiblingFollows(rest, m, after) then TEE else ELBOW)
            else (if SiblingFollows(rest, m, after) then BAR else BLANK) + Lead(rest, m + 1, depth, after)
  {
  }

  lemma NextChild(rows: seq<Row>, kids: seq<Name>, i: nat, path: seq<Name>, row: Row)
    requires rows != [] && Preorder(rows) && Alphabetical(kids) && i < |kids| && row.path == path + [kids[i]]
    requires var last := rows[|rows| - 1].path; if i == 0 then last == path else path + [kids[i - 1]] <= last
    ensures Preorder(rows + [row])
  {
    hide TextLeq;
    var last := rows[|rows| - 1];
    assert row.path[..|path|] == path == last.path[..|path|];
    if i > 0 {
      var k := i - 1;
      assert TextLeq(kids[k].text, kids[i].text);
      assert last.path[|path|] == (path + [kids[k]])[|path|];
    }
    assert Follows(last, row);
  }

  class Drawing {
    const deps: Deps
    const children: ChildMap
    var rows: seq<Row>

    constructor (deps: Deps, children: ChildMap)
      ensures this.deps == deps && this.children == children && rows == []
    {
      this.deps, this.children, rows := deps, children, [];
    }

    /** `walk`: draws every path below `path` as often as it is to be drawn, in preorder and laid out as a tree. */
    method Walk(path: seq<Name>, prefix: string, ghost order: seq<Name>)
      requires Inverts(children, deps) && DepsFirst(deps, order) && forall n :: n in deps ==> n in order
      requires path != [] && path[|path| - 1] in deps
      requires rows != [] && rows[|rows| - 1].path == path && Preorder(rows)
      modifies this`rows
      ensures old(rows) <= rows && Preorder(rows)
      ensures var below := rows[old(|rows|)..]; Under(below, path) && LaidOut(below, |path| + 1, prefix, 0)
      ensures forall p :: Drawn(rows, p) == Drawn(old(rows), p) + Below(deps, path, p)
      decreases |order| - Position(order, path[|path| - 1])
    {
      hide DepsFirst, Inverts, Below, BelowKids, Drawn, Sort, Preorder, LaidOut, Alphabetical, Under, KidsLaidOut;
      var name := path[|path| - 1];
      InvertsKeys(children, deps);
      var kids := Sort(children[name]);
      SortSorts(children[name]);
      NoKids(deps, path);
      NoKidsLaidOut(rows, kids, path, prefix);
      for i := 0 to |kids|
        invariant KidsLaidOut(old(rows), rows, kids, i, path, prefix)
        invariant forall p :: Drawn(rows, p) == Drawn(old(rows), p) + BelowKids(deps, kids[..i], path, p)
      {
        var kid, last := kids[i], i == |kids| - 1;
        ghost var before := rows;
        var row := Row(prefix + (if last then ELBOW else TEE), path + [kid]);
        KidFollows(old(rows), rows, kids, i, path, prefix, row);
        rows := rows + [row];
        assert kid in multiset(kids);
        KidIsLater(children, deps, order, name, kid);
        Walk(path + [kid], prefix + (if last then BLANK else BAR), order);
        KidLaidOut(old(rows), before, rows, kids, i, path, prefix, row);
        KidCounted(deps, old(rows), before, rows, kids, i, path, row);
      }
      AllKidsLaidOut(old(rows), rows, kids, path, prefix);
      assert kids[..|kids|] == kids;
      forall p
        ensures BelowKids(deps, kids, path, p) == Below(deps, path, p)
      {
        BelowAllKids(deps, children, kids, path, p);
      }
    }
  }

  /** The rows of the first `i` children, below those of `path`. */
  ghost predicate KidsLaidOut(rows0: seq<Row>, rows: seq<Row>, kids: seq<Name>, i: nat, path: seq<Name>, prefix: string)
    requires i <= |kids|
  {
    && rows0 != [] && rows0[|rows0| - 1].path == path && rows0 <= rows && Preorder(rows) && Alphabetical(kids)
    && (i == 0 <==> rows == rows0)
    && (i > 0 ==> path + [kids[i - 1]] <= rows[|rows| - 1].path)
    && var below := rows[|rows0|..];
       Under(below, path) && LaidOut(below, |path| + 1, prefix, if i < |kids| then |path| + 1 else 0)
  }

  lemma NoKidsLaidOut(rows: seq<Row>, kids: seq<Name>, path: seq<Name>, prefix: string)
    requires rows != [] && rows[|rows| - 1].path == path && Preorder(rows) && Alphabetical(kids)
    ensures KidsLaidOut(rows, rows, kids, 0, path, prefix)
  {
    hide Preorder, Alphabetical;
  }

  lemma KidFollows(rows0: seq<Row>, rows: seq<Row>, kids: seq<Name>, i: nat, path: seq<Name>, prefix: string, row: Row)
    requires i < |kids| && KidsLaidOut(rows0, rows, kids, i, path, prefix) && row.path == path + [kids[i]]
    ensures Preorder(rows + [row])
  {
    hide Preorder, Alphabetical, LaidOut, Under;
    NextChild(rows, kids, i, path, row);
  }

  /** One more child, and all that is below it. */
  lemma KidLaidOut(rows0: seq<Row>, before: seq<Row>, rows: seq<Row>, kids: seq<Name>, i: nat, path: seq<Name>,
                   prefix: string, row: Row)
    requires i < |kids| && KidsLaidOut(rows0, before, kids, i, path, prefix)
    requires row == Row(prefix + (if i < |kids| - 1 then TEE else ELBOW), path + [kids[i]])
    requires before + [row] <= rows && Preorder(rows)
    requires var deeper := rows[|before| + 1..];
             && Under(deeper, row.path)
             && LaidOut(deeper, |path| + 2, prefix + (if i < |kids| - 1 then BAR else BLANK), 0)
    ensures KidsLaidOut(rows0, rows, kids, i + 1, path, prefix)
  {
    hide Preorder, Alphabetical, LaidOut, Under;
    var below := before[|rows0|..];
    assert row.path[..|path|] == path;
    var next := ChildDrawn(before, below, row, rows, prefix, |path| + 1, i < |kids| - 1);
    assert before[..|before| - |below|] == rows0;
    assert rows[|rows0|..] == next;
  }

  lemma KidCounted(deps: Deps, rows0: seq<Row>, before: seq<Row>, rows: seq<Row>, kids: seq<Name>, i: nat,
                   path: seq<Name>, row: Row)
    requires i < |kids| && row.path == path + [kids[i]]
    requires forall p :: Drawn(before, p) == Drawn(rows0, p) + BelowKids(deps, kids[..i], path, p)
    requires forall p :: Drawn(rows, p) == Drawn(before + [row], p) + Below(deps, row.path, p)
    ensures forall p :: Drawn(rows, p) == Drawn(rows0, p) + BelowKids(deps, kids[..i + 1], path, p)
  {
    hide Drawn, Below, BelowKids;
    assert kids[..i + 1] == kids[..i] + [kids[i]];
    forall p
      ensures Drawn(rows, p) == Drawn(rows0, p) + BelowKids(deps, kids[..i + 1], path, p)
    {
      DrawnOneMore(before, row, p);
      OneMoreKid(deps, kids[..i], kids[i], path, p);
    }
  }

  lemma AllKidsLaidOut(rows0: seq<Row>, rows: seq<Row>, kids: seq<Name>, path: seq<Name>, prefix: string)
    requires KidsLaidOut(rows0, rows, kids, |kids|, path, prefix)
    ensures rows0 <= rows && Preorder(rows)
    ensures var below := rows[|rows0|..]; Under(below, path) && LaidOut(below, |path| + 1, prefix, 0)
  {
  }

  lemma NothingLaidOut(m: nat, prefix: string)
    ensures forall after :: LaidOut([], m, prefix, after)
  {
  }

  /** The rows of one more child, after those of the children before it. */
  lemma ChildDrawn(before: seq<Row>, below: seq<Row>, row: Row, rows: seq<Row>, prefix: string, m: nat, more: bool)
      returns (next: seq<Row>)
    requires m >= 1 && |row.path| == m && row.lead == prefix + (if more then TEE else ELBOW)
    requires before + [row] <= rows && |below| <= |before| && below == before[|before| - |below|..]
    requires LaidOut(below, m, prefix, m) && Under(below, row.path[..m - 1])
    requires var deeper := rows[|before| + 1..];
             Under(deeper, row.path) && LaidOut(deeper, m + 1, prefix + (if more then BAR else BLANK), 0)
    ensures LaidOut(next, m, prefix, if more then m else 0) && Under(next, row.path[..m - 1])
    ensures next == below + rows[|before|..] && row.path <= next[|next| - 1].path
    ensures rows == before[..|before| - |below|] + next
  {
    hide LaidOut;
    var deeper := rows[|before| + 1..];
    next := below + ([row] + deeper);
    assert rows == before + [row] + deeper;
    LaidOutChild(row, deeper, prefix, more);
    LaidOutConcat(below, [row] + deeper, m, prefix, if more then m else 0);
    assert rows[|before|..] == [row] + deeper;
  }

  lemma InvertsKeys(children: ChildMap, deps: Deps)
    requires Inverts(children, deps)
    ensures children.Keys == deps.Keys
  {
  }

  lemma NoKids(deps: Deps, path: seq<Name>)
    ensures forall p :: BelowKids(deps, [], path, p) == 0
  {
  }

  lemma DrawnOneMore(rows: seq<Row>, row: Row, p: seq<Name>)
    ensures Drawn(rows + [row], p) == Drawn(rows, p) + if p == row.path then 1 else 0
  {
    assert (rows + [row])[..|rows|] == rows;
  }

  function Label(locks: map<Name, string>, n: Name): string {
    if n in locks && locks[n] != "" then n.text + " [lock: " + locks[n] + "]" else n.text
  }

  function LineOf(row: Row, locks: map<Name, string>): string
    requires row.path != []
  {
    row.lead + Label(locks, row.path[|row.path| - 1])
  }

  function JoinRows(rows: seq<Row>, locks: map<Name, string>): string
    requires forall i :: 0 <= i < |rows| ==> rows[i].path != []
  {
    if rows == [] then ""
    else
      var init, line := rows[..|rows| - 1], LineOf(rows[|rows| - 1], locks);
      if init == [] then line else JoinRows(init, locks) + "\n" + line
  }

  /** The line of a row: its lead, the effect its path ends with, and the lock it has, if any. */
  ghost predicate IsLine(line: string, row: Row, locks: map<Name, string>) {
    && row.path != []
    && var n := row.path[|row.path| - 1];
       line == row.lead + n.text + if n in locks && locks[n] != "" then " [lock: " + locks[n] + "]" else ""
  }

  /** Line `i` of the text stands between two starts, and a newline after it unless it is the last. */
  ghost predicate LineAt(text: string, rows: seq<Row>, locks: map<Name, string>, starts: seq<nat>, i: nat) {
    && i < |rows| && i + 1 < |starts| && starts[i] < starts[i + 1] <= |text| + 1
    && IsLine(text[starts[i]..starts[i + 1] - 1], rows[i], locks)
    && (i + 1 < |rows| ==> starts[i + 1] <= |text| && text[starts[i + 1] - 1] == '\n')
  }

  /** The text is the lines of the rows, with newlines between. */
  ghost predicate Printed(text: string, rows: seq<Row>, locks: map<Name, string>, starts: seq<nat>) {
    && |starts| == |rows| + 1 && starts[0] == 0
    && (if rows == [] then text == "" else starts[|rows|] == |text| + 1)
    && forall i: nat :: i < |rows| ==> LineAt(text, rows, locks, starts, i)
  }

  lemma {:induction false} JoinPrinted(rows: seq<Row>, locks: map<Name, string>) returns (starts: seq<nat>)
    requires forall i :: 0 <= i < |rows| ==> rows[i].path != []
    ensures Printed(JoinRows(rows, locks), rows, locks, starts)
  {
    hide Printed, IsLine, LineOf;
    if rows == [] {
      starts := [0];
      NothingPrinted(locks);
    } else {
      var init, last := rows[..|rows| - 1], rows[|rows| - 1];
      LabelEnds(last, locks);
      assert init + [last] == rows;
      if init == [] {
        starts := [0, |LineOf(last, locks)| + 1];
        OnePrinted(LineOf(last, locks), last, locks);
      } else {
        var before := JoinPrinted(init, locks);
        starts := OneMorePrinted(JoinRows(init, locks), LineOf(last, locks), init, last, locks, before);
      }
    }
  }

  lemma NothingPrinted(locks: map<Name, string>)
    ensures Printed("", [], locks, [0])
  {
  }

  lemma OnePrinted(line: string, row: Row, locks: map<Name, string>)
    requires IsLine(line, row, locks)
    ensures Printed(line, [row], locks, [0, |line| + 1])
  {
    hide IsLine;
    assert line[0..|line|] == line;
    assert LineAt(line, [row], locks, [0, |line| + 1], 0);
  }

  lemma LabelEnds(row: Row, locks: map<Name, string>)
    requires row.path != []
    ensures IsLine(LineOf(row, locks), row, locks)
  {
    var n := row.path[|row.path| - 1];
    var lock := if n in locks && locks[n] != "" then " [lock: " + locks[n] + "]" else "";
    assert Label(locks, n) == n.text + lock;
    assert row.lead + (n.text + lock) == row.lead + n.text + lock;
  }

  lemma OneMorePrinted(text: string, line: string, rows: seq<Row>, row: Row, locks: map<Name, string>, starts: seq<nat>)
      returns (next: seq<nat>)
    requires rows != [] && Printed(text, rows, locks, starts) && IsLine(line, row, locks)
    ensures Printed(text + "\n" + line, rows + [row], locks, next)
  {
    hide IsLine;
    var all := text + "\n" + line;
    next := starts + [starts[|rows|] + |line| + 1];
    forall i: nat | i < |rows|
      ensures LineAt(all, rows + [row], locks, next, i)
    {
      assert LineAt(text, rows, locks, starts, i);
      assert all[next[i]..next[i + 1] - 1] == text[starts[i]..starts[i + 1] - 1];
    }
    assert all[next[|rows|]..next[|rows| + 1] - 1] == line;
  }

  /** A later sibling of the effect on the path at depth `m` is drawn. */
  ghost predicate HasNext(rows: seq<Row>, i: nat, m: nat) {
    exists j: nat :: IsNextSibling(rows, i, j, m)
  }

  /** What stands in the four columns of depth `m`: a connector at the depth of the row, a bar or nothing before. */
  function Column(connects: bool, follows: bool): string {
    if connects then (if follows then "├── " else "└── ") else (if follows then "│   " else "    ")
  }

  ghost predicate ColumnAt(rows: seq<Row>, i: nat, m: nat) {
    && i < |rows| && 2 <= m <= |rows[i].path| && 4 * (m - 1) <= |rows[i].lead|
    && rows[i].lead[4 * (m - 2)..4 * (m - 1)] == Column(m == |rows[i].path|, HasNext(rows, i, m))
  }

  /** The lead of a row, four columns for each depth below the root. */
  ghost predicate LeadTells(rows: seq<Row>, i: nat) {
    && i < |rows| && rows[i].path != [] && |rows[i].lead| == 4 * (|rows[i].path| - 1)
    && forall m: nat :: 2 <= m <= |rows[i].path| ==> ColumnAt(rows, i, m)
  }

  lemma LeadColumn(rest: seq<Row>, m: nat, depth: nat, after: nat)
    requires m <= depth
    ensures var column := Column(m == depth, SiblingFollows(rest, m, after));
            |column| == 4 && Lead(rest, m, depth, after) == column + Lead(rest, m + 1, depth, after)
  {
    hide SiblingFollows;
    if m == depth {
      assert Lead(rest, m + 1, depth, after) == "";
    }
  }

  lemma Skip(a: string, b: string, i: nat, j: nat)
    requires i <= j <= |b|
    ensures (a + b)[|a| + i..|a| + j] == b[i..j]
  {
  }

  lemma {:induction false} LeadParts(rest: seq<Row>, m: nat, depth: nat, after: nat, k: nat)
    requires m <= depth + 1
    ensures |Lead(rest, m, depth, after)| == 4 * (depth + 1 - m)
    ensures m <= k <= depth ==>
              Lead(rest, m, depth, after)[4 * (k - m)..4 * (k - m + 1)]
                == Column(k == depth, SiblingFollows(rest, k, after))
    decreases depth + 1 - m
  {
    if m <= depth {
      LeadParts(rest, m + 1, depth, after, k);
      hide Lead, SiblingFollows, Column;
      LeadColumn(rest, m, depth, after);
      var more := Lead(rest, m + 1, depth, after);
      var column := Column(m == depth, SiblingFollows(rest, m, after));
      if m < k <= depth {
        Skip(column, more, 4 * (k - m - 1), 4 * (k - m));
      } else {
        assert (column + more)[..4] == column;
      }
    }
  }

  lemma LeadsTell(rows: seq<Row>)
    requires Preorder(rows)
    requires forall i :: 0 <= i < |rows| ==> rows[i].path != []
    requires forall i :: 0 <= i < |rows| ==> rows[i].lead == Lead(rows[i + 1..], 2, |rows[i].path|, 0)
    ensures forall i :: 0 <= i < |rows| ==> LeadTells(rows, i)
  {
    hide Preorder, SiblingFollows, Lead, IsNextSibling;
    forall i: nat | i < |rows|
      ensures LeadTells(rows, i)
    {
      LeadParts(rows[i + 1..], 2, |rows[i].path|, 0, 2);
      forall m: nat | 2 <= m <= |rows[i].path|
        ensures ColumnAt(rows, i, m)
      {
        SiblingExactly(rows, i, m);
        LeadParts(rows[i + 1..], 2, |rows[i].path|, 0, m);
      }
    }
  }

  /** How often a path is drawn when the first roots have been. */
  function FromRoots(deps: Deps, roots: seq<Name>, p: seq<Name>): nat {
    BelowKids(deps, roots, [], p)
  }

  function Roots(names: seq<Name>, deps: Deps): seq<Name> {
    if names == [] then []
    else
      var n := names[|names| - 1];
      Roots(names[..|names| - 1], deps) + if n in deps && deps[n] == [] then [n] else []
  }

  lemma {:induction false} RootsOnce(names: seq<Name>, deps: Deps, n: Name)
    requires forall i, j :: 0 <= i < j < |names| ==> names[i] != names[j]
    ensures multiset(Roots(names, deps))[n] == if n in names && IsRoot(deps, n) then 1 else 0
  {
    if names != [] {
      var init := names[..|names| - 1];
      assert names == init + [names[|names| - 1]];
      RootsOnce(init, deps, n);
    }
  }

  /** From all roots, a path is drawn as often as it is to be. */
  lemma {:induction false} FromAllRoots(names: seq<Name>, deps: Deps, roots: seq<Name>, p: seq<Name>)
    requires KeysOf(names, deps) && multiset(roots) == multiset(Roots(names, deps))
    ensures FromRoots(deps, roots, p) == Multiplicity(deps, p)
  {
    if p != [] {
      RootsOnce(names, deps, p[0]);
      var m, s := multiset(roots)[p[0]], Steps(deps, p, 1);
      assert m == 1 ==> m * s == s;
      assert m == 0 ==> m * s == 0;
    }
  }

  /** `render_tree`. It draws each path from a root, as often as the `after` lists spell it, in preorder, with a
      tee or a bar exactly where a sibling of the effect or of its ancestor follows. */
  method RenderTree(names: seq<Name>, deps: Deps, locks: map<Name, string>)
    returns (r: Result<string, GraphError>, ghost rows: seq<Row>, ghost starts: seq<nat>)
    requires KeysOf(names, deps)
    ensures r.Ok? <==> Closed(deps) && Acyclic(deps)
    ensures r.Err? ==> RealError(deps, r.error)
    ensures Preorder(rows) && (r.Ok? ==> Printed(r.value, rows, locks, starts))
    ensures forall i :: 0 <= i < |rows| ==> LeadTells(rows, i)
    ensures r.Ok? ==> forall p :: Drawn(rows, p) == Multiplicity(deps, p)
  {
    hide DepsFirst, Acyclic, Closed, RealError, Inverts, FromRoots, Multiplicity, Roots, Sort, Drawn;
    hide Preorder, LaidOut, Alphabetical, LeadTells, Printed;
    NothingLaidOut(2, "");
    NoRows();
    var e, order := ValidateDeps(names, deps);
    if e.Some? {
      return Err(e.value), [], [];
    }
    var children := Children(names, deps);
    var d := new Drawing(deps, children);
    var roots := Sort(Roots(names, deps));
    SortSorts(Roots(names, deps));
    NothingDrawn(deps);
    for i := 0 to |roots|
      invariant d.deps == deps && d.children == children && fresh(d)
      invariant Preorder(d.rows) && LaidOut(d.rows, 2, "", 0)
      invariant i == 0 <==> d.rows == []
      invariant i > 0 ==> [roots[i - 1]] <= d.rows[|d.rows| - 1].path
      invariant forall p :: Drawn(d.rows, p) == FromRoots(deps, roots[..i], p)
    {
      ghost var before := d.rows;
      var root := roots[i];
      NextRoot(before, roots, i);
      d.rows := d.rows + [Row("", [root])];
      assert root in multiset(roots);
      RootsOnce(names, deps, root);
      d.Walk([root], "", order);
      RootDrawn(before, root, d.rows);
      assert roots[..i + 1] == roots[..i] + [root];
      forall p
        ensures Drawn(d.rows, p) == FromRoots(deps, roots[..i + 1], p)
      {
        DrawnOneMore(before, Row("", [root]), p);
        OneMoreRoot(deps, roots[..i], root, p);
      }
    }
    assert roots[..|roots|] == roots;
    forall p
      ensures Drawn(d.rows, p) == Multiplicity(deps, p)
    {
      FromAllRoots(names, deps, roots, p);
    }
    RowsAreLaidOut(d.rows);
    LeadsTell(d.rows);
    starts := JoinPrinted(d.rows, locks);
    return Ok(JoinRows(d.rows, locks)), d.rows, starts;
  }

  lemma NoRows()
    ensures Preorder([])
  {
  }

  lemma RowsAreLaidOut(rows: seq<Row>)
    requires Preorder(rows) && LaidOut(rows, 2, "", 0)
    ensures forall i :: 0 <= i < |rows| ==> rows[i].path != []
    ensures forall i :: 0 <= i < |rows| ==> rows[i].lead == Lead(rows[i + 1..], 2, |rows[i].path|, 0)
  {
    hide Lead, Follows;
    forall i | 0 <= i < |rows|
      ensures rows[i].lead == Lead(rows[i + 1..], 2, |rows[i].path|, 0)
    {
      assert "" + Lead(rows[i + 1..], 2, |rows[i].path|, 0) == Lead(rows[i + 1..], 2, |rows[i].path|, 0);
    }
  }

  lemma NextRoot(rows: seq<Row>, roots: seq<Name>, i: nat)
    requires Preorder(rows) && Alphabetical(roots) && i < |roots| && (i == 0 <==> rows == [])
    requires i > 0 ==> [roots[i - 1]] <= rows[|rows| - 1].path
    ensures Preorder(rows + [Row("", [roots[i]])])
  {
    hide TextLeq;
    if i > 0 {
      var k := i - 1;
      assert TextLeq(roots[k].text, roots[i].text);
      assert Follows(rows[|rows| - 1], Row("", [roots[i]]));
    }
  }

  /** The rows of one more root: nothing is drawn before the root itself. */
  lemma RootDrawn(before: seq<Row>, root: Name, rows: seq<Row>)
    requires before + [Row("", [root])] <= rows && LaidOut(before, 2, "", 0)
    requires var below := rows[|before| + 1..]; Under(below, [root]) && LaidOut(below, 2, "", 0)
    ensures LaidOut(rows, 2, "", 0) && [root] <= rows[|rows| - 1].path
  {
    hide Lead;
    var row, below := Row("", [root]), rows[|before| + 1..];
    forall i | 0 <= i < |before|
      ensures Lead(before[i + 1..], 2, |before[i].path|, 1) == Lead(before[i + 1..], 2, |before[i].path|, 0)
    {
      LeadShallow(before[i + 1..], 2, |before[i].path|, 1);
    }
    RootLaidOut(row, below);
    LaidOutConcat(before, [row] + below, 2, "", 0);
    assert rows == before + ([row] + below);
  }

  lemma RootLaidOut(row: Row, below: seq<Row>)
    requires |row.path| == 1 && row.lead == "" && LaidOut(below, 2, "", 0)
    ensures LaidOut([row] + below, 2, "", 0)
  {
    var rows := [row] + below;
    forall i | 0 <= i < |rows|
      ensures rows[i].lead == "" + Lead(rows[i + 1..], 2, |rows[i].path|, 0)
    {
      if i > 0 {
        assert rows[i] == below[i - 1] && rows[i + 1..] == below[i..];
      }
    }
  }

  lemma NothingDrawn(deps: Deps)
    ensures forall p :: Drawn([], p) == FromRoots(deps, [], p) == 0
  {
  }

  lemma OneMoreRoot(deps: Deps, roots: seq<Name>, root: Name, p: seq<Name>)
    ensures FromRoots(deps, roots + [root], p)
         == FromRoots(deps, roots, p) + (if p == [root] then 1 else 0) + Below(deps, [root], p)
  {
    OneMoreKid(deps, roots, root, [], p);
    assert [] + [root] == [root];
  }

  /** What that means: exactly the root paths are drawn, so every effect is, and each path once if and only if
      no `after` repeats itself. */
  lemma {:induction false} RootPathsDrawn(deps: Deps, order: seq<Name>, rows: seq<Row>)
    requires DepsFirst(deps, order) && forall n :: n in deps ==> n in order
    requires forall p :: Drawn(rows, p) == Multiplicity(deps, p)
    ensures forall p :: Drawn(rows, p) > 0 <==> IsRootPath(deps, p)
    ensures (forall p :: Drawn(rows, p) == if IsRootPath(deps, p) then 1 else 0) <==> NoRepeats(deps)
    ensures forall n :: n in deps ==> exists p :: Drawn(rows, p) > 0 && p != [] && p[|p| - 1] == n
  {
    hide Drawn, Multiplicity, DepsFirst, NoRepeats, IsRootPath;
    forall p
      ensures Multiplicity(deps, p) > 0 <==> IsRootPath(deps, p)
    {
      MultiplicityExactly(deps, p);
    }
    OnceExactly(deps, order);
    forall n | n in deps
      ensures exists p :: Drawn(rows, p) > 0 && p != [] && p[|p| - 1] == n
    {
      var path := SomeRootPath(deps, order, n);
      RootPathIsNotEmpty(deps, path);
      assert Drawn(rows, path) > 0;
    }
  }

  lemma RootPathIsNotEmpty(deps: Deps, path: seq<Name>)
    requires IsRootPath(deps, path)
    ensures path != []
  {
  }
}
