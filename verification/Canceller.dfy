/**
 Supersede tracking: which build each (project, context) runs, and when a
 shared build is cancelled.
 */
module Canceller {
  import opened Wrappers

  // ---------------------------------------------------------------------------
  // Context keys
  // ---------------------------------------------------------------------------

  function Decimal(n: nat): (s: string)
    ensures s != [] && forall c :: c in s ==> '0' <= c <= '9'
  {
    var last := ['0' + (n % 10) as char];
    if n < 10 then last else Decimal(n / 10) + last
  }

  lemma {:induction false} DecimalInjective(a: nat, b: nat)
    requires Decimal(a) == Decimal(b)
    ensures a == b
  {
    var s, t := Decimal(a), Decimal(b);
    assert s[|s| - 1] == '0' + (a % 10) as char && t[|t| - 1] == '0' + (b % 10) as char;
    assert a >= 10 ==> s[..|s| - 1] == Decimal(a / 10);
    assert b >= 10 ==> t[..|t| - 1] == Decimal(b / 10);
    if a >= 10 && b >= 10 {
      DecimalInjective(a / 10, b / 10);
    }
  }

  function StartsWith(s: string, prefix: string): bool {
    prefix <= s
  }

  predicate IsPullRef(branch: string) {
    StartsWith(branch, "refs/pull/") || StartsWith(branch, "refs/merge-requests/")
  }

  /** The number that decimal digits stand for. */
  function NumberOf(s: string): int {
    if s == "" then 0 else 10 * NumberOf(s[..|s| - 1]) + s[|s| - 1] as int - '0' as int
  }

  lemma {:induction false} DecimalReads(n: nat)
    ensures NumberOf(Decimal(n)) == n && (n > 0 ==> Decimal(n)[0] != '0')
  {
    if n >= 10 {
      DecimalReads(n / 10);
      assert Decimal(n)[..|Decimal(n)| - 1] == Decimal(n / 10);
    } else {
      assert Decimal(n)[..0] == "";
    }
  }

  /** `rsplit("/", 1)[0]`: the text before the last slash, all of it when there is none. */
  function Parent(s: string): string {
    if '/' !in s then s
    else if s[|s| - 1] == '/' then s[..|s| - 1]
    else Parent(s[..|s| - 1])
  }

  function BranchKey(branch: string, pr: Option<nat>): string {
    match pr
    case Some(n) => "pr/" + Decimal(n)
    case None => if IsPullRef(branch) then Parent(branch) else "branch/" + branch
  }

  lemma {:induction false} ParentSplits(stem: string, leaf: string)
    requires '/' !in leaf
    ensures Parent(stem + "/" + leaf) == stem
  {
    var s := stem + "/" + leaf;
    assert s[|stem|] == '/';
    if leaf == "" {
      assert s[..|s| - 1] == stem;
    } else {
      assert leaf[|leaf| - 1] in leaf;
      assert s[..|s| - 1] == stem + "/" + leaf[..|leaf| - 1];
      ParentSplits(stem, leaf[..|leaf| - 1]);
    }
  }

  /** The key of a pull ref keeps the leading 'r'. */
  lemma {:induction false} ParentStarts(s: string)
    requires |s| > 5 && s[..5] == "refs/"
    ensures Parent(s) != [] && Parent(s)[0] == 'r'
  {
    assert s[4] == '/' && s[0] == 'r';
    if s[|s| - 1] != '/' {
      if |s| > 6 {
        assert s[..|s| - 1][..5] == s[..5];
        ParentStarts(s[..|s| - 1]);
      } else {
        assert s[..5][4] == '/';
        assert s[..|s| - 1] == s[..5];
      }
    }
  }

  /** Two events share a context exactly when they are the same pull request, the same plain branch,
      or refs of the same pull request in different forms. */
  lemma KeysSeparate(b1: string, pr1: Option<nat>, b2: string, pr2: Option<nat>)
    ensures BranchKey(b1, pr1) == BranchKey(b2, pr2) <==>
            if pr1.Some? || pr2.Some? then pr1 == pr2
            else if IsPullRef(b1) || IsPullRef(b2) then IsPullRef(b1) && IsPullRef(b2) && Parent(b1) == Parent(b2)
            else b1 == b2
  {
    KeyStarts(b1, pr1);
    KeyStarts(b2, pr2);
    var k1, k2 := BranchKey(b1, pr1), BranchKey(b2, pr2);
    if k1 == k2 {
      if pr1.Some? && pr2.Some? {
        assert k1[3..] == Decimal(pr1.value) && k2[3..] == Decimal(pr2.value);
        DecimalInjective(pr1.value, pr2.value);
      } else if pr1.None? && pr2.None? && !IsPullRef(b1) && !IsPullRef(b2) {
        assert k1[7..] == b1 && k2[7..] == b2;
      }
    }
  }

  lemma KeyStarts(branch: string, pr: Option<nat>)
    ensures var k := BranchKey(branch, pr);
            k != [] && k[0] == if pr.Some? then 'p' else if IsPullRef(branch) then 'r' else 'b'
  {
    if pr.None? && IsPullRef(branch) {
      assert "refs/pull/"[..5] == "refs/" && "refs/merge-requests/"[..5] == "refs/";
      assert branch[..5] == "refs/";
      ParentStarts(branch);
    }
  }

  /** What a key looks like: the number of the pull request, the part of a pull-request ref before its last slash, or the
      branch. */
  lemma KeysExactly(branch: string, pr: Option<nat>)
    ensures pr.Some? ==> var key := BranchKey(branch, pr);
              |key| > 3 && key[..3] == "pr/" && NumberOf(key[3..]) == pr.value
    ensures pr.None? && !("refs/pull/" <= branch) && !("refs/merge-requests/" <= branch) ==>
              BranchKey(branch, pr) == "branch/" + branch
    ensures pr.None? && ("refs/pull/" <= branch || "refs/merge-requests/" <= branch) ==>
              exists leaf :: '/' !in leaf && branch == BranchKey(branch, pr) + "/" + leaf
  {
    if pr.Some? {
      DecimalReads(pr.value);
      assert ("pr/" + Decimal(pr.value))[3..] == Decimal(pr.value);
    } else if IsPullRef(branch) {
      assert "refs/pull/"[4] == '/' && "refs/merge-requests/"[4] == '/' && branch[4] == '/';
      var leaf := ParentLeaf(branch);
    }
  }

  lemma {:induction false} ParentLeaf(s: string) returns (leaf: string)
    requires '/' in s
    ensures '/' !in leaf && s == Parent(s) + "/" + leaf
  {
    var n := |s| - 1;
    if s[n] == '/' {
      leaf := "";
    } else {
      assert s == s[..n] + [s[n]];
      var before := ParentLeaf(s[..n]);
      leaf := before + [s[n]];
    }
  }

  /** Merge and head refs of one pull request have one key. */
  lemma PullRefsCollapse(stem: string, leaf1: string, leaf2: string)
    requires '/' !in leaf1 && '/' !in leaf2 && IsPullRef(stem + "/" + leaf1) && IsPullRef(stem + "/" + leaf2)
    ensures BranchKey(stem + "/" + leaf1, None) == BranchKey(stem + "/" + leaf2, None) == stem
  {
    ParentSplits(stem, leaf1);
    ParentSplits(stem, leaf2);
  }

  // ---------------------------------------------------------------------------
  // The manager
  // ---------------------------------------------------------------------------

  /** An asyncio event, by identity. */
  datatype Event = Event(id: int)

  datatype Context = Context(project: int, key: string)

  /** An in-flight build; `builds` holds it under its id. */
  datatype InFlight = InFlight(project: int, tree: string, commit: string, cancelEvent: Event, contexts: set<string>)

  datatype Outcome = NEW | DUPLICATE | STALE

  /** The two indexes, and the events that have been set. */
  datatype Tracker = Tracker(builds: map<int, InFlight>, byContext: map<Context, int>, signalled: set<Event>)

  const Idle := Tracker(map[], map[], {})

  datatype Registration = Registration(
    project: int, key: string, build: int, tree: string, commit: string, event: Event, incomingIsAncestor: bool)
  {
    function At(): Context { Context(project, key) }
  }

  /** `_release_context` on the build tracked as `id`. */
  function ReleaseContext(t: Tracker, id: int, key: string): Tracker
    requires id in t.builds
  {
    var b := t.builds[id];
    var left := b.contexts - {key};
    var byContext := t.byContext - {Context(b.project, key)};
    if left == {} then Tracker(t.builds - {id}, byContext, t.signalled + {b.cancelEvent})
    else Tracker(t.builds[id := b.(contexts := left)], byContext, t.signalled)
  }

  /** A known build gets the event of its new registration. */
  function Refresh(t: Tracker, r: Registration): Tracker {
    if r.build in t.builds then t.(builds := t.builds[r.build := t.builds[r.build].(cancelEvent := r.event)]) else t
  }

  /** The build a context runs, if it is still tracked. */
  function Running(t: Tracker, c: Context): Option<int> {
    if c in t.byContext && t.byContext[c] in t.builds then Some(t.byContext[c]) else None
  }

  function OutcomeOf(t: Tracker, r: Registration): Outcome {
    match Running(t, r.At())
    case None => NEW
    case Some(prior) =>
      if t.builds[prior].tree == r.tree then DUPLICATE else if r.incomingIsAncestor then STALE else NEW
  }

  /** The build takes over the context. A build that was known but is no longer tracked stays untracked. */
  function TakeContext(t: Tracker, known: bool, r: Registration): Tracker {
    var builds :=
      if !known then t.builds[r.build := InFlight(r.project, r.tree, r.commit, r.event, {r.key})]
      else if r.build in t.builds then
        t.builds[r.build := t.builds[r.build].(contexts := t.builds[r.build].contexts + {r.key})]
      else t.builds;
    Tracker(builds, t.byContext[r.At() := r.build], t.signalled)
  }

  function Registered(t: Tracker, r: Registration): Tracker {
    var t1, prior := Refresh(t, r), Running(t, r.At());
    match OutcomeOf(t, r)
    case DUPLICATE =>
      var b := t1.builds[prior.value];
      t1.(builds := t1.builds[prior.value := b.(contexts := b.contexts + {r.key})])
    case STALE => t1
    case NEW => TakeContext(if prior.Some? then ReleaseContext(t1, prior.value, r.key) else t1, r.build in t.builds, r)
  }

  function Completed(t: Tracker, id: int): Tracker {
    if id !in t.builds then t
    else
      var b := t.builds[id];
      Tracker(t.builds - {id}, t.byContext - (set k | k in b.contexts :: Context(b.project, k)), t.signalled)
  }

  function PrContext(project: int, pr: nat): Context {
    Context(project, BranchKey("", Some(pr)))
  }

  function PrCancelled(t: Tracker, project: int, pr: nat): Tracker {
    match Running(t, PrContext(project, pr))
    case None => t
    case Some(id) => ReleaseContext(t, id, BranchKey("", Some(pr)))
  }

  // ---------------------------------------------------------------------------
  // Index agreement
  // ---------------------------------------------------------------------------

  /** The indexes are inverse to each other, and no tracked build is without a context. */
  ghost predicate Agree(t: Tracker) {
    && (forall c :: c in t.byContext ==>
          var id := t.byContext[c];
          id in t.builds && t.builds[id].project == c.project && c.key in t.builds[id].contexts)
    && (forall id, k :: id in t.builds && k in t.builds[id].contexts ==>
          Context(t.builds[id].project, k) in t.byContext && t.byContext[Context(t.builds[id].project, k)] == id)
    && (forall id :: id in t.builds ==> t.builds[id].contexts != {})
  }

  /** The tracked build `id` serves the context of the registration. */
  predicate Serves(t: Tracker, id: int, r: Registration) {
    id in t.builds && t.builds[id].project == r.project && r.key in t.builds[id].contexts
  }

  /** A registration is a duplicate when a build of the same tree serves its context, stale when one of another tree does
      and the incoming commit is older, and new otherwise. */
  lemma OutcomeExactly(t: Tracker, r: Registration)
    requires Agree(t)
    ensures OutcomeOf(t, r) == DUPLICATE <==> exists id :: Serves(t, id, r) && t.builds[id].tree == r.tree
    ensures OutcomeOf(t, r) == STALE <==>
            r.incomingIsAncestor && exists id :: Serves(t, id, r) && t.builds[id].tree != r.tree
    ensures OutcomeOf(t, r) == NEW <==>
            forall id :: Serves(t, id, r) ==> t.builds[id].tree != r.tree && !r.incomingIsAncestor
  {
    forall id | Serves(t, id, r)
      ensures Running(t, r.At()) == Some(id)
    {
    }
    if Running(t, r.At()).Some? {
      assert Serves(t, Running(t, r.At()).value, r);
    }
  }

  /** What a caller can check before registering: a tracked build is registered for its own project,
      and not to replace itself in its only context. */
  predicate Fits(t: Tracker, r: Registration) {
    r.build in t.builds && OutcomeOf(t, r) == NEW ==>
      && t.builds[r.build].project == r.project
      && !(Running(t, r.At()) == Some(r.build) && t.builds[r.build].contexts == {r.key})
  }

  lemma RefreshAgrees(t: Tracker, r: Registration)
    requires Agree(t)
    ensures Agree(Refresh(t, r))
  {
  }

  lemma ReleaseAgrees(t: Tracker, id: int, key: string)
    requires Agree(t) && id in t.builds && key in t.builds[id].contexts
    ensures Agree(ReleaseContext(t, id, key))
  {
    var b := t.builds[id];
    forall c | c in t.byContext && t.byContext[c] == id && c != Context(b.project, key)
      ensures c.key in b.contexts - {key}
    {
      assert c == Context(b.project, c.key);
    }
  }

  lemma TakeAgrees(t: Tracker, r: Registration, known: bool)
    requires Agree(t) && r.At() !in t.byContext && (known <==> r.build in t.builds)
    requires known ==> t.builds[r.build].project == r.project
    ensures Agree(TakeContext(t, known, r))
  {
  }

  /** Exactly: a registration keeps the indexes in agreement if and only if it fits. */
  lemma {:induction false} RegisterAgreesExactly(t: Tracker, r: Registration)
    requires Agree(t)
    ensures Agree(Registered(t, r)) <==> Fits(t, r)
  {
    hide Agree;
    RefreshAgrees(t, r);
    var t1, prior := Refresh(t, r), Running(t, r.At());
    if OutcomeOf(t, r) == NEW {
      OldHasContext(t, r);
      if !Fits(t, r) {
        MisfitBreaks(t, r);
      } else if prior.Some? {
        ReleaseAgrees(t1, prior.value, r.key);
        TakeAgrees(ReleaseContext(t1, prior.value, r.key), r, r.build in t.builds);
      } else {
        TakeAgrees(t1, r, r.build in t.builds);
      }
    } else {
      OldHasContext(t, r);
      RepeatChangesNothing(t1, r, prior.value);
    }
  }

  lemma OldHasContext(t: Tracker, r: Registration)
    requires Agree(t)
    ensures var prior := Running(t, r.At());
            && (prior.None? ==> r.At() !in t.byContext)
            && (prior.Some? ==> prior.value in t.builds && r.key in t.builds[prior.value].contexts)
            && (prior.Some? ==> t.builds[prior.value].project == r.project)
  {
  }

  lemma RepeatChangesNothing(t: Tracker, r: Registration, prior: int)
    requires prior in t.builds && r.key in t.builds[prior].contexts
    ensures t.(builds := t.builds[prior := t.builds[prior].(contexts := t.builds[prior].contexts + {r.key})]) == t
  {
    assert t.builds[prior].contexts + {r.key} == t.builds[prior].contexts;
  }

  lemma MisfitBreaks(t: Tracker, r: Registration)
    requires Agree(t) && !Fits(t, r)
    ensures !Agree(Registered(t, r))
  {
    var t' := Registered(t, r);
    assert t'.byContext[r.At()] == r.build;
    OldHasContext(t, r);
    if Running(t, r.At()) == Some(r.build) {
      assert {r.key} - {r.key} == {};
      assert r.build !in t'.builds;
    } else {
      assert t'.builds[r.build].project == t.builds[r.build].project;
    }
  }

  lemma CompleteAgrees(t: Tracker, id: int)
    requires Agree(t)
    ensures Agree(Completed(t, id))
  {
  }

  lemma CancelAgrees(t: Tracker, project: int, pr: nat)
    requires Agree(t)
    ensures Agree(PrCancelled(t, project, pr))
  {
    var c := PrContext(project, pr);
    if Running(t, c).Some? {
      ReleaseAgrees(t, t.byContext[c], c.key);
    }
  }

  // ---------------------------------------------------------------------------
  // Exact cancellation
  // ---------------------------------------------------------------------------

  /** The two indexes as one map: what each context runs. */
  ghost predicate Refines(t: Tracker, owner: map<Context, int>) {
    t.byContext == owner && t.builds.Keys == owner.Values
  }

  lemma AgreeRefines(t: Tracker)
    requires Agree(t)
    ensures Refines(t, t.byContext)
  {
    forall id | id in t.builds
      ensures id in t.byContext.Values
    {
      var k :| k in t.builds[id].contexts;
      assert t.byContext[Context(t.builds[id].project, k)] == id;
    }
  }

  /** The events of builds that run in some context of `before` and in none of `after`. */
  ghost function Lost(t: Tracker, after: map<Context, int>): set<Event> {
    set id | id in t.builds && id in t.byContext.Values - after.Values :: t.builds[id].cancelEvent
  }

  /** A registration moves one context, or none, and cancels exactly the build that has no context left. */
  lemma RegisterCancelsExactly(t: Tracker, r: Registration)
    requires Agree(t) && Fits(t, r)
    ensures var t' := Registered(t, r);
            && t'.byContext == (if OutcomeOf(t, r) == NEW then t.byContext[r.At() := r.build] else t.byContext)
            && t'.signalled == t.signalled + Lost(t, t'.byContext)
            && (OutcomeOf(t, r) != NEW ==> Lost(t, t'.byContext) == {})
  {
    hide Lost, Agree;
    OldHasContext(t, r);
    if OutcomeOf(t, r) == NEW {
      NewRegistration(t, r);
      LostAfterMove(t, r.At(), r.build);
    } else {
      RepeatChangesNothing(Refresh(t, r), r, Running(t, r.At()).value);
      NothingLost(t);
    }
  }

  lemma NewRegistration(t: Tracker, r: Registration)
    requires Agree(t) && Fits(t, r) && OutcomeOf(t, r) == NEW
    ensures var t', c := Registered(t, r), r.At();
            && t'.byContext == t.byContext[c := r.build]
            && (c in t.byContext && t.byContext[c] == r.build ==> t.builds[r.build].contexts != {c.key})
            && t'.signalled == t.signalled +
                 (if c in t.byContext && t.byContext[c] != r.build && t.builds[t.byContext[c]].contexts == {c.key}
                  then {t.builds[t.byContext[c]].cancelEvent} else {})
  {
    hide Agree;
    OldHasContext(t, r);
    var prior := Running(t, r.At());
    if prior.Some? {
      OnlyContext(t.builds[prior.value].contexts, r.key);
    }
  }

  lemma OnlyContext(contexts: set<string>, key: string)
    requires key in contexts
    ensures contexts - {key} == {} <==> contexts == {key}
  {
  }

  lemma NothingLost(t: Tracker)
    ensures Lost(t, t.byContext) == {}
  {
  }

  /** Moving a context to another build loses the build it ran, when that had no other context. */
  lemma LostAfterMove(t: Tracker, c: Context, id: int)
    requires Agree(t) && (c in t.byContext && t.byContext[c] == id ==> t.builds[id].contexts != {c.key})
    ensures Lost(t, t.byContext[c := id])
         == if c in t.byContext && t.byContext[c] != id && t.builds[t.byContext[c]].contexts == {c.key}
            then {t.builds[t.byContext[c]].cancelEvent} else {}
  {
    var after := t.byContext[c := id];
    forall x | x in t.builds
      ensures x in t.byContext.Values - after.Values <==>
              c in t.byContext && t.byContext[c] == x && x != id && t.builds[x].contexts == {c.key}
    {
      StaysOwner(t, c, x, after);
    }
  }

  /** After the context `c` is gone from it, a build still runs somewhere unless `c` was its only context. */
  lemma StaysOwner(t: Tracker, c: Context, x: int, after: map<Context, int>)
    requires Agree(t) && x in t.builds
    requires forall d :: d != c ==> (d in t.byContext <==> d in after) && (d in after ==> t.byContext[d] == after[d])
    requires c in after ==> c in t.byContext && t.byContext[c] == x == after[c] ==> t.builds[x].contexts != {c.key}
    ensures x in t.byContext.Values
    ensures x !in after.Values <==>
            c in t.byContext && t.byContext[c] == x && t.builds[x].contexts == {c.key} && (c in after ==> after[c] != x)
  {
    var b := t.builds[x];
    var k :| k in b.contexts;
    assert t.byContext[Context(b.project, k)] == x;
    if k0 :| k0 in b.contexts && Context(b.project, k0) != c {
      assert after[Context(b.project, k0)] == x;
    } else {
      assert forall k1 :: k1 in b.contexts ==> Context(b.project, k1) == c;
      assert b.contexts == {c.key};
      forall d | d in t.byContext && t.byContext[d] == x
        ensures d == c
      {
        assert d.key in b.contexts && d == Context(b.project, d.key);
      }
    }
  }

  /** Closing a pull request frees its context, and cancels its build if no context is left. */
  lemma CancelPrExactly(t: Tracker, project: int, pr: nat)
    requires Agree(t)
    ensures var t' := PrCancelled(t, project, pr);
            && t'.byContext == t.byContext - {PrContext(project, pr)}
            && t'.signalled == t.signalled + Lost(t, t'.byContext)
  {
    var c := PrContext(project, pr);
    var after := t.byContext - {c};
    forall x | x in t.builds
      ensures x in t.byContext.Values - after.Values <==>
              c in t.byContext && t.byContext[c] == x && t.builds[x].contexts == {c.key}
    {
      StaysOwner(t, c, x, after);
    }
  }

  function Without(owner: map<Context, int>, id: int): map<Context, int> {
    map c | c in owner && owner[c] != id :: owner[c]
  }

  /** A finished build gives up all its contexts and nothing is cancelled. */
  lemma CompleteExactly(t: Tracker, id: int)
    requires Agree(t)
    ensures var t' := Completed(t, id);
            && t'.byContext == Without(t.byContext, id)
            && t'.signalled == t.signalled
  {
  }

  // ---------------------------------------------------------------------------
  // Runs
  // ---------------------------------------------------------------------------

  datatype Call = Register(r: Registration) | Complete(id: int) | CancelPr(project: int, pr: nat)

  function Apply(t: Tracker, call: Call): Tracker {
    match call
    case Register(r) => Registered(t, r)
    case Complete(id) => Completed(t, id)
    case CancelPr(project, pr) => PrCancelled(t, project, pr)
  }

  function Run(calls: seq<Call>): Tracker {
    if calls == [] then Idle else Apply(Run(calls[..|calls| - 1]), calls[|calls| - 1])
  }

  /** What one map from contexts to builds does on a call. */
  function MapApply(owner: map<Context, int>, call: Call, outcome: Outcome): map<Context, int> {
    match call
    case Register(r) => if outcome == NEW then owner[r.At() := r.build] else owner
    case Complete(id) => Without(owner, id)
    case CancelPr(project, pr) => owner - {PrContext(project, pr)}
  }

  function CallOutcome(t: Tracker, call: Call): Outcome {
    match call
    case Register(r) => OutcomeOf(t, r)
    case Complete(_) => NEW
    case CancelPr(_, _) => NEW
  }

  /** A build id always comes with the project and the tree of its row. */
  datatype Row = Row(project: int, tree: string)

  ghost predicate RowsKept(calls: seq<Call>, rows: map<int, Row>) {
    forall i :: 0 <= i < |calls| ==> CallKeepsRow(calls[i], rows)
  }

  ghost predicate CallKeepsRow(call: Call, rows: map<int, Row>) {
    call.Register? ==> call.r.build in rows && rows[call.r.build] == Row(call.r.project, call.r.tree)
  }

  ghost predicate OfRows(t: Tracker, rows: map<int, Row>) {
    forall id :: id in t.builds ==> id in rows && Row(t.builds[id].project, t.builds[id].tree) == rows[id]
  }

  lemma RowsFit(t: Tracker, r: Registration, rows: map<int, Row>)
    requires OfRows(t, rows) && CallKeepsRow(Register(r), rows)
    ensures Fits(t, r) && OfRows(Registered(t, r), rows)
  {
  }

  /** One call: the indexes still agree, they refine the one map, and events are set for the builds that
      lost their last context, except by completing. */
  lemma CallKeeps(t: Tracker, call: Call, rows: map<int, Row>)
    requires Agree(t) && OfRows(t, rows) && CallKeepsRow(call, rows)
    ensures var t' := Apply(t, call);
            && Agree(t') && OfRows(t', rows)
            && Refines(t', MapApply(t.byContext, call, CallOutcome(t, call)))
            && t'.signalled == t.signalled + (if call.Complete? then {} else Lost(t, t'.byContext))
  {
    hide Agree, Fits, Registered, Completed, PrCancelled, Lost, OfRows, Refines;
    match call {
      case Register(r) =>
        RowsFit(t, r, rows);
        RegisterAgreesExactly(t, r);
        RegisterCancelsExactly(t, r);
      case Complete(id) =>
        CompleteAgrees(t, id);
        CompleteExactly(t, id);
        RemovalKeepsRows(t, rows, call);
      case CancelPr(project, pr) =>
        CancelAgrees(t, project, pr);
        CancelPrExactly(t, project, pr);
        RemovalKeepsRows(t, rows, call);
    }
    AgreeRefines(Apply(t, call));
  }

  lemma RemovalKeepsRows(t: Tracker, rows: map<int, Row>, call: Call)
    requires OfRows(t, rows) && !call.Register?
    ensures OfRows(Apply(t, call), rows)
  {
  }

  /** The events that supersedes and closed pull requests must have set by now. */
  ghost function Cancelled(calls: seq<Call>): set<Event> {
    if calls == [] then {}
    else
      var init := calls[..|calls| - 1];
      Cancelled(init) + (if calls[|calls| - 1].Complete? then {} else Lost(Run(init), Run(calls).byContext))
  }

  /** Over every run: the indexes agree, and exactly those events are set. */
  lemma {:induction false} SupersedeExactness(calls: seq<Call>, rows: map<int, Row>)
    requires RowsKept(calls, rows)
    ensures Agree(Run(calls)) && OfRows(Run(calls), rows) && Refines(Run(calls), Run(calls).byContext)
    ensures Run(calls).signalled == Cancelled(calls)
  {
    hide Agree, Apply, Lost, OfRows;
    if calls == [] {
      IdleAgrees(rows);
    } else {
      var init := calls[..|calls| - 1];
      SupersedeExactness(init, rows);
      CallKeeps(Run(init), calls[|calls| - 1], rows);
    }
    AgreeRefines(Run(calls));
  }

  /** What a call leaves of a tracked build, and where a new one comes from. */
  lemma CallTracks(t: Tracker, call: Call, id: int)
    requires id in Apply(t, call).builds
    ensures var b := Apply(t, call).builds[id];
            if id in t.builds then
              && b.project == t.builds[id].project && b.tree == t.builds[id].tree && b.commit == t.builds[id].commit
              && b.cancelEvent == if call.Register? && call.r.build == id then call.r.event else t.builds[id].cancelEvent
            else
              && call.Register? && call.r.build == id
              && b.project == call.r.project && b.tree == call.r.tree && b.commit == call.r.commit
              && b.cancelEvent == call.r.event
  {
  }

  /** Call `i` registered the build, which has been tracked ever since. */
  ghost predicate TrackedSince(calls: seq<Call>, id: int, i: nat) {
    && i < |calls| && calls[i].Register? && calls[i].r.build == id && id !in Run(calls[..i]).builds
    && forall m :: i < m <= |calls| ==> id in Run(calls[..m]).builds
  }

  /** Call `k` is the latest registration of the build. */
  ghost predicate LatestOf(calls: seq<Call>, id: int, k: nat) {
    && k < |calls| && calls[k].Register? && calls[k].r.build == id
    && forall m :: k < m < |calls| && calls[m].Register? ==> calls[m].r.build != id
  }

  /** Over every run: a tracked build has the project, the tree and the commit it was first registered with since it is
      tracked, and the cancel event it was last registered with. */
  lemma {:induction false} TrackedExactly(calls: seq<Call>, id: int) returns (i: nat, k: nat)
    requires id in Run(calls).builds
    ensures TrackedSince(calls, id, i) && LatestOf(calls, id, k)
    ensures var b := Run(calls).builds[id];
            && b.project == calls[i].r.project && b.tree == calls[i].r.tree && b.commit == calls[i].r.commit
            && b.cancelEvent == calls[k].r.event
  {
    hide Apply;
    var n := |calls| - 1;
    var init, call := calls[..n], calls[n];
    CallTracks(Run(init), call, id);
    assert calls[..|calls|] == calls && forall m :: 0 <= m <= n ==> init[..m] == calls[..m];
    if id in Run(init).builds {
      i, k := TrackedExactly(init, id);
      if call.Register? && call.r.build == id {
        k := n;
      }
    } else {
      i, k := n, n;
    }
  }

  lemma IdleAgrees(rows: map<int, Row>)
    ensures Agree(Idle) && OfRows(Idle, rows)
  {
  }

  /** Without that, agreement fails: a build replacing itself in its only context is cancelled and left dangling. */
  lemma SelfReplacementDangles(e1: Event, e2: Event)
    ensures var first := Registered(Idle, Registration(1, "branch/main", 7, "tree one", "c", e1, false));
            var t := Registered(first, Registration(1, "branch/main", 7, "tree two", "c", e2, false));
            && !Agree(t) && t.signalled == {e2} && t.builds == map[]
               && t.byContext == map[Context(1, "branch/main") := 7]
  {
    var r1 := Registration(1, "branch/main", 7, "tree one", "c", e1, false);
    var first := Registered(Idle, r1);
    assert "tree one"[5] != "tree two"[5];
    assert first.builds[7].contexts == {"branch/main"};
    assert {"branch/main"} - {"branch/main"} == {};
    assert !Agree(Registered(first, r1.(tree := "tree two", event := e2))) by {
      assert Context(1, "branch/main") in Registered(first, r1.(tree := "tree two", event := e2)).byContext;
    }
  }
}

/** The manager itself, updating its two dictionaries in place. */
module Cancelling {
  import opened Wrappers
  import opened Canceller

  class CancellationManager {
    var builds: map<int, InFlight>
    var byContext: map<Context, int>
    var signalled: set<Event>

    ghost function View(): Tracker
      reads this
    {
      Tracker(builds, byContext, signalled)
    }

    constructor ()
      ensures View() == Idle && Agree(View())
    {
      builds, byContext, signalled := map[], map[], {};
    }

    /** Keeps the indexes in agreement exactly when the registration fits. */
    method RegisterBuild(r: Registration) returns (outcome: Outcome)
      modifies this
      ensures View() == Registered(old(View()), r) && outcome == OutcomeOf(old(View()), r)
      ensures old(Agree(View())) ==> (Agree(View()) <==> old(Fits(View(), r)))
    {
      ghost var before := View();
      if Agree(before) {
        RegisterAgreesExactly(before, r);
      }
      hide Agree, Fits;
      var known := r.build in builds;
      if known {
        builds := builds[r.build := builds[r.build].(cancelEvent := r.event)];
      }
      assert View() == Refresh(before, r);
      var context := r.At();
      if context in byContext {
        var id := byContext[context];
        if id in builds {
          if builds[id].tree == r.tree {
            builds := builds[id := builds[id].(contexts := builds[id].contexts + {r.key})];
            return DUPLICATE;
          }
          if r.incomingIsAncestor {
            return STALE;
          }
          Release(id, r.key);
        }
      }
      if !known {
        builds := builds[r.build := InFlight(r.project, r.tree, r.commit, r.event, {r.key})];
      } else if r.build in builds {
        builds := builds[r.build := builds[r.build].(contexts := builds[r.build].contexts + {r.key})];
      }
      byContext := byContext[context := r.build];
      return NEW;
    }

    /** `_release_context` */
    method Release(id: int, key: string)
      requires id in builds
      modifies this
      ensures View() == ReleaseContext(old(View()), id, key)
    {
      var b := builds[id];
      b := b.(contexts := b.contexts - {key});
      builds := builds[id := b];
      byContext := byContext - {Context(b.project, key)};
      if b.contexts == {} {
        signalled := signalled + {b.cancelEvent};
        builds := builds - {id};
      }
    }

    method CompleteBuild(id: int)
      modifies this`builds, this`byContext
      ensures View() == Completed(old(View()), id)
      ensures old(Agree(View())) ==> Agree(View()) && byContext == Without(old(byContext), id)
    {
      ghost var before := View();
      if Agree(before) {
        CompleteAgrees(before, id);
        CompleteExactly(before, id);
      }
      hide Agree;
      if id !in builds {
        return;
      }
      var b := builds[id];
      builds := builds - {id};
      var rest := b.contexts;
      while rest != {}
        invariant rest <= b.contexts && builds == before.builds - {id}
        invariant byContext == before.byContext - (set k | k in b.contexts - rest :: Context(b.project, k))
        decreases |rest|
      {
        var k :| k in rest;
        assert (set j | j in b.contexts - (rest - {k}) :: Context(b.project, j))
            == (set j | j in b.contexts - rest :: Context(b.project, j)) + {Context(b.project, k)};
        byContext := byContext - {Context(b.project, k)};
        rest := rest - {k};
      }
      assert b.contexts - {} == b.contexts;
    }

    /** Whether the pull request had a build in flight. */
    method CancelPullRequest(project: int, pr: nat) returns (found: bool)
      modifies this
      ensures View() == PrCancelled(old(View()), project, pr)
      ensures found <==> Running(old(View()), PrContext(project, pr)).Some?
      ensures old(Agree(View())) ==> Agree(View()) && PrContext(project, pr) !in byContext
    {
      ghost var before := View();
      if Agree(before) {
        CancelAgrees(before, project, pr);
        CancelPrExactly(before, project, pr);
      }
      hide Agree;
      var key := BranchKey("", Some(pr));
      var context := Context(project, key);
      if context !in byContext {
        return false;
      }
      var id := byContext[context];
      if id !in builds {
        return false;
      }
      Release(id, key);
      return true;
    }

    /** `running_commit_for` */
    method RunningCommit(c: Context) returns (commit: Option<string>)
      ensures commit == match Running(View(), c) case None => None case Some(id) => Some(builds[id].commit)
      ensures Agree(View()) ==> (commit.Some? <==> c in byContext)
    {
      if c !in byContext || byContext[c] !in builds {
        return None;
      }
      return Some(builds[byContext[c]].commit);
    }
  }
}
