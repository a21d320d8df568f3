/** No context of the fan-out is left with a pending eval check. */
module FanoutEval {
  import opened Wrappers
  import opened LinkedFanout
  import opened FanoutLookup

  // ---------------------------------------------------------------------------
  // The list
  // ---------------------------------------------------------------------------

  lemma {:induction false} EntriesUpdate(attachers: seq<Attacher>, i: nat, a: Attacher, epoch: nat)
    requires i < |attachers|
    ensures Entries(attachers[i := a], epoch) + Entry(attachers[i], epoch)
         == Entries(attachers, epoch) + Entry(a, epoch)
    decreases |attachers|
  {
    hide Entry;
    var n := |attachers| - 1;
    var init, next := attachers[..n], attachers[i := a];
    if i == n {
      assert next[..n] == init;
      Swap(Entries(init, epoch), Entry(a, epoch), Entry(attachers[n], epoch));
    } else {
      assert next[..n] == init[i := a];
      EntriesUpdate(init, i, a, epoch);
      AddBoth(Entries(init[i := a], epoch), Entry(attachers[i], epoch),
              Entries(init, epoch), Entry(a, epoch), Entry(attachers[n], epoch));
    }
  }

  lemma Swap(a: multiset<ChangeEvent>, b: multiset<ChangeEvent>, c: multiset<ChangeEvent>)
    ensures (a + b) + c == (a + c) + b
  {
  }

  lemma AddBoth(a: multiset<ChangeEvent>, b: multiset<ChangeEvent>, c: multiset<ChangeEvent>, d: multiset<ChangeEvent>,
                x: multiset<ChangeEvent>)
    requires a + b == c + d
    ensures (a + x) + b == (c + x) + d
  {
    Swap(a, x, b);
    Swap(c, x, d);
  }

  lemma {:induction false} EntriesMember(attachers: seq<Attacher>, i: nat, epoch: nat)
    requires i < |attachers|
    ensures Entry(attachers[i], epoch) <= Entries(attachers, epoch)
    decreases |attachers|
  {
    if i < |attachers| - 1 {
      EntriesMember(attachers[..|attachers| - 1], i, epoch);
    }
  }

  lemma EntriesAppend(attachers: seq<Attacher>, a: Attacher, epoch: nat)
    ensures Entries(attachers + [a], epoch) == Entries(attachers, epoch) + Entry(a, epoch)
  {
    assert (attachers + [a])[..|attachers|] == attachers;
  }

  lemma {:induction false} NoEntries(attachers: seq<Attacher>, epoch: nat)
    requires forall a :: a in attachers ==> Settled(a) && (a.Detached? ==> a.epoch < epoch)
    ensures Entries(attachers, epoch) == multiset{}
  {
    if attachers != [] {
      var init, last := attachers[..|attachers| - 1], attachers[|attachers| - 1];
      assert last in attachers && forall a :: a in init ==> a in attachers;
      NoEntries(init, epoch);
    }
  }

  lemma {:induction false} RemoveEventMultiset(events: seq<ChangeEvent>, event: ChangeEvent)
    ensures multiset(RemoveEvent(events, event)) == multiset(events) - multiset{event}
  {
    if events != [] {
      assert events == [events[0]] + events[1..];
      if events[0] != event {
        RemoveEventMultiset(events[1..], event);
      }
    }
  }

  /** The next thing that happens to the list is the pop for the fan-out. */
  predicate Listing(runner: Runner) {
    || runner.Idle? || runner.Starting? || runner.Resetting? || runner.Claiming? || runner.Evaluating?
    || runner.Evaluated? || runner.Building? || runner.Reporting? || runner.Popping?
  }

  /** The run has written its terminal status. */
  predicate HasWritten(runner: Runner) {
    || runner.Reporting? || runner.Popping? || runner.Fanning? || runner.Settling? || runner.Released?
    || runner.Ended?
  }

  /** The row while a run works and after it has written, and what the reports post. */
  ghost predicate RowInv(s: State) {
    && (s.runner.Claiming? || s.runner.Evaluating? || s.runner.Evaluated? || s.runner.Building? ==>
          s.row.status == PENDING)
    && (HasWritten(s.runner) ==> s.row == s.runner.ending.row && Terminal(s.row.status))
    && (s.runner.Reporting? ==> s.runner.report.event == s.own && s.runner.report.check != EvalPending)
    && (s.runner.Fanning? && s.runner.current.Some? ==> s.runner.current.value.check != EvalPending)
    && forall a :: a in s.attachers && a.Replaying? ==> a.report.check != EvalPending
  }

  /** Before the pop the list has exactly the entries of the contexts that wait for it;
      afterwards only entries that their context will still take off. */
  ghost predicate ListInv(s: State) {
    && (if Listing(s.runner) then multiset(s.linked) == Entries(s.attachers, s.epoch)
        else multiset(s.linked) <= Entries(s.attachers, s.epoch))
    && forall a :: a in s.attachers && a.Detached? ==> a.epoch <= s.epoch && (!Listing(s.runner) ==> a.epoch < s.epoch)
  }

  lemma ListedEntry(s: State, i: nat)
    requires i < |s.attachers| && ListInv(s) && Listing(s.runner) && Entry(s.attachers[i], s.epoch) != multiset{}
    ensures s.attachers[i].event in s.linked
  {
    EntriesMember(s.attachers, i, s.epoch);
    assert s.attachers[i].event in multiset(s.linked);
  }

  lemma GoKeepsList(s: State)
    requires RowInv(s) && ListInv(s) && CanAdvance(s)
    ensures RowInv(Advance(s)) && ListInv(Advance(s))
  {
    hide Entries, Advance, RowInv;
    GoKeepsRow(s);
    GoMovesList(s);
  }

  lemma GoKeepsRow(s: State)
    requires RowInv(s) && CanAdvance(s)
    ensures RowInv(Advance(s))
  {
    hide Perform, ResultRow;
    if s.runner.Reporting? {
      PerformChanges(s, s.runner.report);
    } else if s.runner.Fanning? && s.runner.current.Some? {
      PerformChanges(s, s.runner.current.value);
    }
    assert Advance(s).attachers == s.attachers;
  }

  lemma GoMovesList(s: State)
    requires CanAdvance(s)
    ensures var s' := Advance(s);
            && s'.attachers == s.attachers
            && (if s.runner.Popping? then s'.linked == [] && s'.epoch == s.epoch + 1 && !Listing(s'.runner)
                else s'.epoch == s.epoch && (s'.linked == s.linked || (s'.linked == [] && !Listing(s.runner)))
                     && (Listing(s.runner) <==> Listing(s'.runner)))
  {
    hide FanCheck, ResultRow, NewReport, Rest, Perform;
    if s.runner.Reporting? {
      PerformChanges(s, s.runner.report);
    } else if s.runner.Fanning? && s.runner.current.Some? {
      PerformChanges(s, s.runner.current.value);
    }
  }

  lemma EndKeepsList(s: State, ending: Ending)
    requires RowInv(s) && ListInv(s) && CanEnd(s, ending)
    ensures RowInv(Written(s, ending)) && ListInv(Written(s, ending))
  {
    hide Entries;
  }

  lemma StartKeepsList(s: State, own: ChangeEvent, record: Row)
    requires RowInv(s) && ListInv(s) && Cleared(s) && Listed(s)
    ensures RowInv(Started(s, own, record)) && ListInv(Started(s, own, record))
  {
    hide Entries;
  }

  lemma JoinKeepsList(s: State, s': State, a: Attacher)
    requires RowInv(s) && ListInv(s) && (a.Appended? || (a.Replaying? && a.report.check != EvalPending))
    requires s' == s.(linked := if a.Appended? then s.linked + [a.event] else s.linked, attachers := s.attachers + [a])
    ensures RowInv(s') && ListInv(s')
  {
    hide Entries;
    EntriesAppend(s.attachers, a, s.epoch);
  }

  /** What a context's step changes. */
  lemma ContextChanges(s: State, i: nat)
    requires RowInv(s) && i < |s.attachers| && !Settled(s.attachers[i])
    ensures var s', a := ContextStep(s, i), s.attachers[i];
            && |s'.attachers| == |s.attachers| && s'.attachers == s.attachers[i := s'.attachers[i]]
            && s' == s.(attachers := s'.attachers, linked := s'.linked, posts := s'.posts)
            && EventOf(s'.attachers[i]) == EventOf(a)
            && s'.linked == (if a.SawTerminal? then RemoveEvent(s.linked, a.event) else s.linked)
            && (Entry(s'.attachers[i], s.epoch) == if a.SawTerminal? then multiset{} else Entry(a, s.epoch))
            && (a.SawTerminal? ==> Entry(a, s.epoch) == multiset{a.event})
            && (s'.attachers[i].Replaying? ==> s'.attachers[i].report.check != EvalPending)
            && (s'.attachers[i].Detached? ==> s'.attachers[i].epoch == s.epoch && !Terminal(s.row.status))
  {
    hide RowInv, ContextStep, Entry, EventOf;
    ContextFields(s, i);
    ContextEntry(s, i);
    ContextChecks(s, i);
  }

  lemma ContextEntry(s: State, i: nat)
    requires i < |s.attachers| && !Settled(s.attachers[i])
    ensures var s', a := ContextStep(s, i), s.attachers[i];
            && |s'.attachers| == |s.attachers| && EventOf(s'.attachers[i]) == EventOf(a)
            && (Entry(s'.attachers[i], s.epoch) == if a.SawTerminal? then multiset{} else Entry(a, s.epoch))
            && (a.SawTerminal? ==> Entry(a, s.epoch) == multiset{a.event})
  {
    hide ContextStep, Waits;
    ContextWaits(s, i);
  }

  lemma ContextWaits(s: State, i: nat)
    requires i < |s.attachers| && !Settled(s.attachers[i])
    ensures var s', a := ContextStep(s, i), s.attachers[i];
            && |s'.attachers| == |s.attachers| && EventOf(s'.attachers[i]) == EventOf(a)
            && (Waits(s'.attachers[i], s.epoch) <==> Waits(a, s.epoch) && !a.SawTerminal?)
            && (a.SawTerminal? ==> Waits(a, s.epoch))
  {
    hide RemoveEvent, ReplayCheck, Perform, Terminal, Rest;
    var a := s.attachers[i];
    if a.Replaying? {
      RestKeepsEvent(s, a.report);
    }
  }

  lemma RestKeepsEvent(s: State, r: Report)
    ensures Rest(s, r).Some? ==> Rest(s, r).value.event == r.event
  {
  }

  lemma ContextChecks(s: State, i: nat)
    requires RowInv(s) && i < |s.attachers| && !Settled(s.attachers[i])
    ensures var s' := ContextStep(s, i);
            && |s'.attachers| == |s.attachers|
            && (s'.attachers[i].Replaying? ==> s'.attachers[i].report.check != EvalPending)
            && (s'.attachers[i].Detached? ==> s'.attachers[i].epoch == s.epoch && !Terminal(s.row.status))
  {
    hide HasWritten, RemoveEvent, FanCheck, ResultRow;
    assert s.attachers[i] in s.attachers;
  }

  lemma ContextKeepsList(s: State, i: nat)
    requires RowInv(s) && ListInv(s) && i < |s.attachers| && !Settled(s.attachers[i])
    ensures RowInv(ContextStep(s, i)) && ListInv(ContextStep(s, i))
  {
    hide ContextStep, Entry, Entries;
    var s', a := ContextStep(s, i), s.attachers[i];
    ContextChanges(s, i);
    EntriesUpdate(s.attachers, i, s'.attachers[i], s.epoch);
    EntriesMember(s.attachers, i, s.epoch);
    ListFollows(s.linked, s'.linked, EventOf(a), a.SawTerminal?, Entry(a, s.epoch),
                Entries(s.attachers, s.epoch), Entries(s'.attachers, s.epoch));
    forall b | b in s'.attachers
      ensures b == s'.attachers[i] || b in s.attachers
    {
    }
  }

  /** The list loses an entry as the entries do. */
  lemma ListFollows(linked: seq<ChangeEvent>, linked': seq<ChangeEvent>, event: ChangeEvent, removes: bool,
                    entry: multiset<ChangeEvent>, entries: multiset<ChangeEvent>, entries': multiset<ChangeEvent>)
    requires linked' == if removes then RemoveEvent(linked, event) else linked
    requires removes ==> entry == multiset{event}
    requires entries' + entry == entries + (if removes then multiset{} else entry)
    ensures multiset(linked) == entries ==> multiset(linked') == entries'
    ensures multiset(linked) <= entries ==> multiset(linked') <= entries'
  {
    if removes {
      RemoveEventMultiset(linked, event);
      NothingAdded(entries', entries, entry);
    } else {
      SameSum(entries', entries, entry);
    }
  }

  lemma NothingAdded(a: multiset<ChangeEvent>, b: multiset<ChangeEvent>, c: multiset<ChangeEvent>)
    requires a + c == b + multiset{}
    ensures a == b - c
  {
    assert a == (a + c) - c;
  }

  lemma SameSum(a: multiset<ChangeEvent>, b: multiset<ChangeEvent>, c: multiset<ChangeEvent>)
    requires a + c == b + c
    ensures a == b
  {
    assert a == (a + c) - c;
    assert b == (b + c) - c;
  }

  // ---------------------------------------------------------------------------
  // Who still posts an eval check
  // ---------------------------------------------------------------------------

  /** The run will post a terminal eval check for `e`. */
  predicate RunWillPost(s: State, e: ChangeEvent) {
    if s.runner.Fanning? then
      e in s.runner.left
      || (s.runner.current.Some? && s.runner.current.value.event == e && s.runner.current.value.stage == AtEval)
    else Listing(s.runner) && e in s.linked
  }

  /** It is the run's own event, and its check is still to come. */
  predicate OwnWillPost(s: State, e: ChangeEvent) {
    e == s.own && (s.runner.Starting? || s.runner.Resetting? || s.runner.Claiming? || s.runner.Evaluating?
                   || (s.runner.Reporting? && s.runner.report.stage == AtEval))
  }

  /** The context will find a terminal row, or has. */
  predicate WillReplay(written: bool, a: Attacher) {
    || ((a.Appended? || a.Announced?) && written) || a.SawTerminal?
    || (a.Replaying? && a.report.stage == AtEval)
  }

  predicate WillPostFor(s: State, i: nat, e: ChangeEvent) {
    i < |s.attachers| && EventOf(s.attachers[i]) == e && WillReplay(HasWritten(s.runner), s.attachers[i])
  }

  ghost predicate ContextWillPost(s: State, e: ChangeEvent) {
    exists i: nat :: WillPostFor(s, i, e)
  }

  ghost predicate EvalCovered(s: State, e: ChangeEvent) {
    EvalResolved(s, e) || RunWillPost(s, e) || OwnWillPost(s, e) || ContextWillPost(s, e)
  }

  ghost predicate EvalInv(s: State) {
    forall e :: Involved(s, e) ==> EvalCovered(s, e)
  }

  /** No run works beside another, and a run that has not released its slot holds it. */
  predicate Alone(s: State) {
    s.others == [] && (Over(s.runner) || s.runner.Released? || s.slot)
  }

  ghost predicate Inv(s: State) {
    Alone(s) && RowInv(s) && ListInv(s) && EvalInv(s)
  }

  lemma InitInv(s: State)
    requires Init(s)
    ensures Inv(s) && BuildNotices(s)
  {
  }

  /** Whoever the run serves is resolved or still served. */
  lemma GoServes(s: State, e: ChangeEvent)
    requires RowInv(s) && CanAdvance(s) && (EvalResolved(s, e) || RunWillPost(s, e) || OwnWillPost(s, e))
    ensures EvalResolved(Advance(s), e) || RunWillPost(Advance(s), e) || OwnWillPost(Advance(s), e)
  {
    hide HasWritten, ResultRow, Perform, Rest;
    if s.runner.Reporting? {
      ReportServes(s, s.runner.report, e);
    } else if s.runner.Fanning? && s.runner.current.Some? {
      ReportServes(s, s.runner.current.value, e);
    }
  }

  /** A report of a final check resolves its own event, and leaves the others resolved. */
  lemma ReportServes(s: State, r: Report, e: ChangeEvent)
    requires r.check != EvalPending
    ensures var s' := Perform(s, r);
            && (EvalResolved(s, e) || (r.stage == AtEval && e == r.event) ==> EvalResolved(s', e))
            && s' == s.(posts := s'.posts)
    ensures Rest(s, r).Some? ==> Rest(s, r).value.event == r.event && Rest(s, r).value.stage != AtEval
  {
    PerformChanges(s, r);
  }

  lemma GoKeepsContexts(s: State)
    requires CanAdvance(s)
    ensures Advance(s).attachers == s.attachers && Advance(s).owners == s.owners
    ensures Alone(s) ==> Alone(Advance(s))
    ensures HasWritten(s.runner) ==> HasWritten(Advance(s).runner)
  {
    hide FanCheck, ResultRow, NewReport, Rest, Perform;
    if s.runner.Reporting? {
      PerformChanges(s, s.runner.report);
    } else if s.runner.Fanning? && s.runner.current.Some? {
      PerformChanges(s, s.runner.current.value);
    }
  }

  lemma GoKeepsInv(s: State)
    requires Inv(s) && CanAdvance(s)
    ensures Inv(Advance(s))
  {
    hide Advance, RunWillPost, OwnWillPost, EvalResolved, RowInv, ListInv, HasWritten;
    GoKeepsList(s);
    GoKeepsContexts(s);
    forall e | Involved(Advance(s), e)
      ensures EvalCovered(Advance(s), e)
    {
      assert Involved(s, e);
      if ContextWillPost(s, e) {
        ContextsStillPost(s, Advance(s), e);
      } else {
        GoServes(s, e);
      }
    }
  }

  lemma ContextsStillPost(s: State, s': State, e: ChangeEvent)
    requires s'.attachers == s.attachers && (HasWritten(s.runner) ==> HasWritten(s'.runner)) && ContextWillPost(s, e)
    ensures ContextWillPost(s', e)
  {
    hide HasWritten;
    var i: nat :| WillPostFor(s, i, e);
    assert WillPostFor(s', i, e);
  }

  lemma EndKeepsInv(s: State, ending: Ending)
    requires Inv(s) && CanEnd(s, ending)
    ensures Inv(Written(s, ending))
  {
    hide RowInv, ListInv;
    EndKeepsList(s, ending);
    var s' := Written(s, ending);
    forall e | Involved(s', e)
      ensures EvalCovered(s', e)
    {
      assert Involved(s, e);
      if ContextWillPost(s, e) {
        ContextsStillPost(s, s', e);
      }
    }
  }

  /** A run that starts serves the contexts still attaching, which are on the list. */
  lemma StartKeepsInv(s: State, own: ChangeEvent, record: Row)
    requires Inv(s) && Cleared(s) && Listed(s)
    ensures Inv(Started(s, own, record))
  {
    hide RowInv, ListInv, Listed;
    StartKeepsList(s, own, record);
    var s' := Started(s, own, record);
    forall e | Involved(s', e)
      ensures EvalCovered(s', e)
    {
      if e != own {
        assert Involved(s, e);
        if i: nat :| WillPostFor(s, i, e) {
          if s.attachers[i].Appended? || s.attachers[i].Announced? {
            ListedEntry(s', i);
          } else {
            assert WillPostFor(s', i, e);
          }
        }
      }
    }
  }

  /** A context that attaches or reuses. */
  lemma JoinKeepsInv(s: State, s': State, a: Attacher)
    requires Inv(s) && (a.Appended? || (a.Replaying? && a.report.check != EvalPending && a.report.stage == AtEval))
    requires s' == s.(linked := if a.Appended? then s.linked + [a.event] else s.linked, attachers := s.attachers + [a])
    ensures Inv(s')
  {
    hide RowInv, ListInv;
    JoinKeepsList(s, s', a);
    var n := |s.attachers|;
    assert s'.attachers[n] == a && forall i: nat :: i < n ==> s'.attachers[i] == s.attachers[i];
    forall e | Involved(s', e)
      ensures EvalCovered(s', e)
    {
      if e == EventOf(a) {
        assert WillPostFor(s', n, e) || (Listing(s'.runner) && e in s'.linked);
      } else {
        assert Involved(s, e);
        if i: nat :| WillPostFor(s, i, e) {
          assert WillPostFor(s', i, e);
        }
      }
    }
  }

  lemma ContextKeepsInv(s: State, i: nat)
    requires Inv(s) && i < |s.attachers| && !Settled(s.attachers[i])
    ensures Inv(ContextStep(s, i))
  {
    hide RowInv, ListInv, ContextStep, EvalCovered;
    var s' := ContextStep(s, i);
    ContextKeepsList(s, i);
    ContextChanges(s, i);
    forall e | Involved(s', e)
      ensures EvalCovered(s', e)
    {
      StillInvolved(s, s', i, e);
      if e == EventOf(s.attachers[i]) {
        MovedStaysCovered(s, i);
      } else {
        OthersStayCovered(s, i, e);
      }
    }
  }

  lemma StillInvolved(s: State, s': State, i: nat, e: ChangeEvent)
    requires i < |s.attachers| == |s'.attachers| && s'.attachers == s.attachers[i := s'.attachers[i]]
    requires EventOf(s'.attachers[i]) == EventOf(s.attachers[i]) && s'.owners == s.owners
    ensures Involved(s', e) ==> Involved(s, e)
  {
    if k: nat :| k < |s'.attachers| && EventOf(s'.attachers[k]) == e {
      assert EventOf(s.attachers[k]) == e;
    }
  }

  /** A step of one context leaves the others' events as they are. */
  lemma OthersStayCovered(s: State, i: nat, e: ChangeEvent)
    requires RowInv(s) && i < |s.attachers| && !Settled(s.attachers[i]) && e != EventOf(s.attachers[i])
    requires EvalCovered(s, e)
    ensures EvalCovered(ContextStep(s, i), e)
  {
    hide RowInv, ContextStep, EvalResolved, RunWillPost, OwnWillPost, HasWritten;
    var s' := ContextStep(s, i);
    ContextChanges(s, i);
    OthersKeepPosts(s, i, e);
    if k: nat :| WillPostFor(s, k, e) {
      assert s'.attachers[k] == s.attachers[k] && s'.runner == s.runner;
      assert WillPostFor(s', k, e);
    }
  }

  lemma OthersKeepPosts(s: State, i: nat, e: ChangeEvent)
    requires RowInv(s) && i < |s.attachers| && !Settled(s.attachers[i]) && e != EventOf(s.attachers[i])
    ensures var s' := ContextStep(s, i);
            (EvalResolved(s, e) ==> EvalResolved(s', e)) && (RunWillPost(s, e) ==> RunWillPost(s', e))
            && (OwnWillPost(s, e) ==> OwnWillPost(s', e))
  {
    hide RowInv;
    var s' := ContextStep(s, i);
    ContextChanges(s, i);
    OtherStaysListed(s.linked, EventOf(s.attachers[i]), e);
  }

  lemma OtherStaysListed(events: seq<ChangeEvent>, event: ChangeEvent, e: ChangeEvent)
    requires e != event
    ensures e in events ==> e in RemoveEvent(events, event)
  {
    RemoveEventMultiset(events, event);
    assert e in events ==> e in multiset(RemoveEvent(events, event));
  }

  /** The context that moves has its event resolved, or it is still on the list or will replay. */
  lemma MovedStaysCovered(s: State, i: nat)
    requires Inv(s) && i < |s.attachers| && !Settled(s.attachers[i])
    ensures EvalCovered(ContextStep(s, i), EventOf(s.attachers[i]))
  {
    hide ListInv, Entries;
    var s', a := ContextStep(s, i), s.attachers[i];
    var e := EventOf(a);
    ContextKeepsList(s, i);
    ContextChanges(s, i);
    if WillReplay(HasWritten(s'.runner), s'.attachers[i]) {
      assert WillPostFor(s', i, e);
    } else if a.Appended? || a.Announced? {
      ListedEntry(s', i);
    } else if a.Replaying? && a.report.stage != AtEval {
      assert Involved(s, e);
      ReplayLeavesEval(s, i);
    }
  }

  /** The later stages of a replay leave whoever else covers the event covering it. */
  lemma ReplayLeavesEval(s: State, i: nat)
    requires RowInv(s) && i < |s.attachers| && s.attachers[i].Replaying? && s.attachers[i].report.stage != AtEval
    requires EvalCovered(s, s.attachers[i].report.event)
    ensures EvalCovered(ContextStep(s, i), s.attachers[i].report.event)
  {
    var s', e := ContextStep(s, i), s.attachers[i].report.event;
    ContextChanges(s, i);
    if k: nat :| WillPostFor(s, k, e) {
      assert k != i && s'.attachers[k] == s.attachers[k];
      assert WillPostFor(s', k, e);
    }
  }

  /** Lookups, and posts of build statuses, leave it as it is. */
  lemma ElsewhereKeepsInv(s: State, s': State)
    requires Inv(s)
    requires s' == s.(looking := s'.looking, dispatches := s'.dispatches, notices := s'.notices, posts := s'.posts,
                      attributes := s'.attributes) && s'.posts.evals == s.posts.evals
    ensures Inv(s')
  {
    hide Entries, HasWritten, Listing, WillReplay;
    forall e | Involved(s', e)
      ensures EvalCovered(s', e)
    {
      assert Involved(s, e);
      if i: nat :| WillPostFor(s, i, e) {
        assert WillPostFor(s', i, e);
      }
    }
  }

  lemma DispatchKeepsInv(s: State, i: nat)
    requires Inv(s) && i < |s.dispatches|
    requires var d := s.dispatches[i];
             Decide(d.created, d.record.status, s.slot) == Run ==> Cleared(s) && Listed(s)
    ensures Inv(Dispatched(s, i))
  {
    hide Inv, Entries, Without, Decide;
    var d := s.dispatches[i];
    var s1 := s.(dispatches := Without(s.dispatches, i));
    ElsewhereKeepsInv(s, s1);
    match Decide(d.created, d.record.status, s.slot)
    case Run => StartKeepsInv(s1, d.event, d.record);
    case Attach => JoinKeepsInv(s1, Dispatched(s, i), Appended(d.event));
    case Reuse =>
      JoinKeepsInv(s1, Dispatched(s, i),
                   Replaying(Replay(d.event, d.record, s.attributes)));
  }

  /** A cancellation from outside meets no run at work. */
  lemma WithdrawKeepsInv(s: State, event: ChangeEvent)
    requires Inv(s) && !s.slot && s.row.status == PENDING
    ensures Inv(Withdrawn(s, event))
  {
    hide Entries, WillReplay;
    var s' := Withdrawn(s, event);
    assert s.runner.Idle?;
    forall e | Involved(s', e)
      ensures EvalCovered(s', e)
    {
      assert Involved(s, e);
      if i: nat :| WillPostFor(s, i, e) {
        assert WillPostFor(s', i, e);
      }
    }
  }

  lemma NoticeChanges(s: State, i: nat)
    requires i < |s.notices| && s.notices[i].stage != AtEval
    ensures var s' := Noticed(s, i);
            s' == s.(notices := s'.notices, posts := s'.posts) && s'.posts.evals == s.posts.evals
  {
  }

  /** Notices post build statuses only. */
  predicate BuildNotices(s: State) {
    forall r :: r in s.notices ==> r.stage != AtEval
  }

  lemma StepKeepsNotices(p: Policy, s: State, step: Step)
    requires BuildNotices(s) && Enabled(p, s, step)
    ensures BuildNotices(Apply(s, step))
  {
    hide Advance, ContextStep, MayStart, Perform, CanAdvance, CanEnd;
    if step.Go? {
      GoMovesRow(s);
    } else if step.Context? {
      ContextFields(s, step.i);
    } else if step.Notice? {
      PerformChanges(s, s.notices[step.i]);
    }
  }

  /** Every step keeps it, when runs start with earlier runs over and everybody who attaches on the list. */
  lemma {:induction false} StepKeepsInv(p: Policy, s: State, step: Step)
    requires p.cleared && p.listed && Inv(s) && BuildNotices(s) && Enabled(p, s, step)
    ensures Inv(Apply(s, step))
  {
    hide Inv, Advance, ContextStep, Cleared, Listed, CanEnd, CanAdvance, Written, Dispatched, Withdrawn, Noticed;
    match step
    case Look(event) => ElsewhereKeepsInv(s, Apply(s, step));
    case Take(updates) => ElsewhereKeepsInv(s, Apply(s, step));
    case Dispatching(i) => DispatchKeepsInv(s, i);
    case Go => GoKeepsInv(s);
    case Record(any) => ElsewhereKeepsInv(s, Apply(s, step));
    case End(ending) => EndKeepsInv(s, ending);
    case Switch(i) => NobodyElse(s);
    case Context(i) => ContextKeepsInv(s, i);
    case Withdraw(event) => WithdrawKeepsInv(s, event);
    case Notice(i) =>
      assert s.notices[i] in s.notices;
      NoticeChanges(s, i);
      ElsewhereKeepsInv(s, Apply(s, step));
  }

  lemma NobodyElse(s: State)
    requires Inv(s)
    ensures s.others == []
  {
  }

  lemma {:induction false} RunKeepsInv(p: Policy, s0: State, steps: seq<Step>)
    requires p.cleared && p.listed && Init(s0) && Exec(p, s0, steps).Some?
    ensures Inv(Exec(p, s0, steps).value) && BuildNotices(Exec(p, s0, steps).value)
  {
    hide Inv, Init, Enabled, Apply, BuildNotices;
    if steps == [] {
      InitInv(s0);
    } else {
      RunKeepsInv(p, s0, steps[..|steps| - 1]);
      StepKeepsInv(p, Exec(p, s0, steps[..|steps| - 1]).value, steps[|steps| - 1]);
      StepKeepsNotices(p, Exec(p, s0, steps[..|steps| - 1]).value, steps[|steps| - 1]);
    }
  }

  /** Everybody's last eval check is terminal, and no list entry is left. */
  ghost predicate EvalSettled(s: State) {
    s.linked == [] && forall e :: Involved(s, e) ==> EvalResolved(s, e)
  }

  lemma EvalSettledByInv(s: State)
    requires Inv(s) && Quiescent(s)
    ensures EvalSettled(s)
  {
    hide Entries;
    NoEntries(s.attachers, s.epoch);
    assert forall i: nat :: i < |s.attachers| ==> s.attachers[i] in s.attachers;
    assert |multiset(s.linked)| == |s.linked|;
  }

  /** In every interleaving, once all runs and all contexts are done. */
  lemma {:induction false} NobodyStaysPending(p: Policy, s0: State, steps: seq<Step>)
    requires p.cleared && p.listed && Init(s0) && Exec(p, s0, steps).Some? && Quiescent(Exec(p, s0, steps).value)
    ensures EvalSettled(Exec(p, s0, steps).value)
  {
    hide Init, Exec, Inv, EvalSettled, Quiescent;
    RunKeepsInv(p, s0, steps);
    EvalSettledByInv(Exec(p, s0, steps).value);
  }
}
