/** The contexts of one run end with the build status it wrote, unless they read the row too early. */
module FanoutAgreement {
  import opened Wrappers
  import opened LinkedFanout
  import opened FanoutEval
  import opened FanoutLookup
  import opened FanoutBuild

  /** Nobody cancels the build from outside, and nothing else is granted. */
  const ALONE := Policy(false, false, true)

  // ---------------------------------------------------------------------------
  // One run
  // ---------------------------------------------------------------------------

  /** At most one run. */
  predicate OneRun(s: State) {
    if s.runner.Idle? then s.runs == 0 && s.owners == {} else s.runs == 1 && s.owners == {s.own}
  }

  /** The terminal rows of the build: `origin`, and what the run has written. */
  ghost predicate RowsFrom(s: State, origin: Row) {
    && (s.runner.Idle? || s.runner.Starting? || s.runner.Resetting? ==> s.row == origin)
    && forall r :: r in s.history && Terminal(r.status) ==> r == origin || (HasWritten(s.runner) && r == s.row)
  }

  lemma StepKeepsOneRun(p: Policy, s: State, step: Step)
    requires OneRun(s) && Alone(s) && Enabled(p, s, step) && Apply(s, step).runs <= 1
    ensures OneRun(Apply(s, step))
  {
    hide OneRun, Advance, ContextStep, Perform, MayStart, Without, CanAdvance, Dispatched;
    match step
    case Dispatching(i) => DispatchKeepsOneRun(s, i);
    case Go => GoKeepsOneRun(s);
    case Record(any) => SameRun(s, Apply(s, step));
    case End(ending) => EndKeepsOneRun(s, ending);
    case Context(i) =>
      ContextFields(s, i);
      SameRun(s, Apply(s, step));
    case Notice(i) =>
      PerformChanges(s, s.notices[i]);
      SameRun(s, Apply(s, step));
    case Look(event) => SameRun(s, Apply(s, step));
    case Take(updates) => SameRun(s, Apply(s, step));
    case Switch(i) =>
    case Withdraw(event) => SameRun(s, Apply(s, step));
  }

  lemma SameRun(s: State, s': State)
    requires OneRun(s) && s'.runner == s.runner && s'.runs == s.runs && s'.own == s.own && s'.owners == s.owners
    ensures OneRun(s')
  {
  }

  lemma DispatchKeepsOneRun(s: State, i: nat)
    requires OneRun(s) && i < |s.dispatches| && Dispatched(s, i).runs <= 1
    ensures OneRun(Dispatched(s, i))
  {
    hide Without;
  }

  lemma GoKeepsOneRun(s: State)
    requires OneRun(s) && CanAdvance(s)
    ensures OneRun(Advance(s))
  {
    hide Advance;
    GoKeepsRun(s);
  }

  lemma EndKeepsOneRun(s: State, ending: Ending)
    requires OneRun(s) && CanEnd(s, ending)
    ensures OneRun(Written(s, ending))
  {
  }

  lemma GoKeepsRun(s: State)
    requires CanAdvance(s)
    ensures var s' := Advance(s);
            && s'.runs == s.runs && s'.own == s.own && s'.owners == s.owners && !s'.runner.Idle?
            && (HasWritten(s'.runner) <==> HasWritten(s.runner)) && !s'.runner.Starting?
            && (s'.runner.Resetting? ==> s.runner.Starting?)
  {
    hide FanCheck, ResultRow, NewReport, Rest, Perform;
    if s.runner.Reporting? {
      PerformChanges(s, s.runner.report);
    } else if s.runner.Fanning? && s.runner.current.Some? {
      PerformChanges(s, s.runner.current.value);
    }
  }

  lemma StepKeepsRows(p: Policy, s: State, step: Step, origin: Row)
    requires RowsFrom(s, origin) && BuildInv(s) && Enabled(p, s, step) && p.alone && OneRun(s)
    requires Apply(s, step).runs <= 1
    ensures RowsFrom(Apply(s, step), origin)
  {
    hide RowsFrom, LookInv, PendingInv, Advance, ContextStep, Perform, MayStart, Without, Noticed, CanAdvance;
    hide HasWritten, Dispatched;
    match step
    case Dispatching(i) => DispatchKeepsRows(s, i, origin);
    case Go => GoKeepsRows(s, origin);
    case Record(any) => SameRows(s, Apply(s, step), origin);
    case End(ending) => EndKeepsRows(s, ending, origin);
    case Context(i) =>
      ContextFields(s, i);
      SameRows(s, Apply(s, step), origin);
    case Withdraw(_) =>
    case Notice(i) => NothingToNotice(s);
    case Look(event) => SameRows(s, Apply(s, step), origin);
    case Take(updates) => SameRows(s, Apply(s, step), origin);
    case Switch(i) =>
  }

  lemma DispatchKeepsRows(s: State, i: nat, origin: Row)
    requires RowsFrom(s, origin) && OneRun(s) && i < |s.dispatches| && Dispatched(s, i).runs <= 1
    ensures RowsFrom(Dispatched(s, i), origin)
  {
    hide Without, RowsFrom;
    var s' := Dispatched(s, i);
    if s'.runs != s.runs {
      StartKeepsRows(s, s', origin);
    } else {
      SameRows(s, s', origin);
    }
  }

  lemma GoKeepsRows(s: State, origin: Row)
    requires RowsFrom(s, origin) && CanAdvance(s)
    ensures RowsFrom(Advance(s), origin)
  {
    hide Advance, HasWritten;
    GoMovesRow(s);
    GoKeepsRun(s);
  }

  lemma EndKeepsRows(s: State, ending: Ending, origin: Row)
    requires RowsFrom(s, origin) && CanEnd(s, ending)
    ensures RowsFrom(Written(s, ending), origin)
  {
    hide OwnReport;
  }

  lemma SameRows(s: State, s': State, origin: Row)
    requires RowsFrom(s, origin) && s'.runner == s.runner && s'.row == s.row && s'.history == s.history
    ensures RowsFrom(s', origin)
  {
  }

  lemma StartKeepsRows(s: State, s': State, origin: Row)
    requires RowsFrom(s, origin) && s.runner.Idle? && s'.runner.Starting? && s'.row == s.row && s'.history == s.history
    ensures RowsFrom(s', origin)
  {
  }

  // ---------------------------------------------------------------------------
  // Who still reports the final status
  // ---------------------------------------------------------------------------

  /** No context of `e` replays the row as it was before this run. */
  ghost predicate NoEarlyRead(s: State, e: ChangeEvent, origin: Row) {
    forall i: nat :: i < |s.attachers| && EventOf(s.attachers[i]) == e && HasRow(s.attachers[i]) ==>
      RowOf(s.attachers[i]) != origin
  }

  predicate BuildAgrees(s: State, e: ChangeEvent) {
    HasWritten(s.runner) && e in s.posts.builds && s.posts.builds[e] == s.row.status
  }

  /** The run still reports to `e`. */
  predicate RunReportsTo(s: State, e: ChangeEvent) {
    if s.runner.Fanning? then e in s.runner.left || (s.runner.current.Some? && s.runner.current.value.event == e)
    else Listing(s.runner) && e in s.linked
  }

  predicate OwnReports(s: State, e: ChangeEvent) {
    e == s.own && Listing(s.runner) && !s.runner.Idle? && !s.runner.Popping?
  }

  predicate Replays(written: bool, a: Attacher) {
    ((a.Appended? || a.Announced?) && written) || a.SawTerminal? || a.Replaying?
  }

  predicate ReportsFor(s: State, i: nat, e: ChangeEvent) {
    i < |s.attachers| && EventOf(s.attachers[i]) == e && Replays(HasWritten(s.runner), s.attachers[i])
  }

  ghost predicate ContextReports(s: State, e: ChangeEvent) {
    exists i: nat :: ReportsFor(s, i, e)
  }

  ghost predicate AgreeCovered(s: State, e: ChangeEvent) {
    BuildAgrees(s, e) || RunReportsTo(s, e) || OwnReports(s, e) || ContextReports(s, e)
  }

  ghost predicate AgreeInv(s: State, origin: Row) {
    forall e :: Involved(s, e) && NoEarlyRead(s, e, origin) ==> AgreeCovered(s, e)
  }

  lemma GoReports(s: State, e: ChangeEvent)
    requires CurrentInv(s) && CanAdvance(s) && (BuildAgrees(s, e) || RunReportsTo(s, e) || OwnReports(s, e))
    ensures var s' := Advance(s); BuildAgrees(s', e) || RunReportsTo(s', e) || OwnReports(s', e)
  {
    hide GoodContext, Perform, Rest, ResultRow, FanCheck;
    if s.runner.Reporting? {
      ReportAgrees(s, s.runner.report, e);
    } else if s.runner.Fanning? && s.runner.current.Some? {
      ReportAgrees(s, s.runner.current.value, e);
    }
  }

  /** A report of the present row is not dropped, and ends with its status. */
  lemma ReportAgrees(s: State, r: Report, e: ChangeEvent)
    requires r.row == s.row && s.posts.generation <= s.row.generation && HasWritten(s.runner)
    ensures var s' := Perform(s, r);
            && s' == s.(posts := s'.posts)
            && (e != r.event && BuildAgrees(s, e) ==> BuildAgrees(s', e))
            && (Rest(s, r).None? ==> BuildAgrees(s', r.event))
            && (Rest(s, r).Some? ==> Rest(s, r).value.event == r.event)
  {
    hide HasWritten;
    PerformChanges(s, r);
  }

  lemma GoKeepsAgree(s: State, origin: Row)
    requires CurrentInv(s) && AgreeInv(s, origin) && CanAdvance(s)
    ensures AgreeInv(Advance(s), origin)
  {
    hide CurrentInv, Advance, BuildAgrees, RunReportsTo, OwnReports, HasWritten;
    var s' := Advance(s);
    GoKeepsContexts(s);
    forall e | Involved(s', e) && NoEarlyRead(s', e, origin)
      ensures AgreeCovered(s', e)
    {
      assert Involved(s, e) && NoEarlyRead(s, e, origin);
      if i: nat :| ReportsFor(s, i, e) {
        assert ReportsFor(s', i, e);
      } else {
        GoReports(s, e);
      }
    }
  }

  lemma EndKeepsAgree(s: State, ending: Ending, origin: Row)
    requires AgreeInv(s, origin) && CanEnd(s, ending)
    ensures AgreeInv(Written(s, ending), origin)
  {
    var s' := Written(s, ending);
    forall e | Involved(s', e) && NoEarlyRead(s', e, origin)
      ensures AgreeCovered(s', e)
    {
      assert Involved(s, e) && NoEarlyRead(s, e, origin);
      if i: nat :| ReportsFor(s, i, e) {
        assert ReportsFor(s', i, e);
      }
    }
  }

  /** The run starts: everybody but its own event is as before. */
  lemma StartKeepsAgree(s: State, own: ChangeEvent, record: Row, origin: Row)
    requires AgreeInv(s, origin) && s.runner.Idle?
    ensures AgreeInv(Started(s, own, record), origin)
  {
    var s' := Started(s, own, record);
    forall e | Involved(s', e) && NoEarlyRead(s', e, origin)
      ensures AgreeCovered(s', e)
    {
      if e != own {
        assert Involved(s, e) && NoEarlyRead(s, e, origin);
        if i: nat :| ReportsFor(s, i, e) {
          assert ReportsFor(s', i, e);
        }
      }
    }
  }

  lemma JoinKeepsAgree(s: State, s': State, a: Attacher, origin: Row)
    requires AgreeInv(s, origin) && (a.Appended? || a.Replaying?)
    requires s' == s.(linked := if a.Appended? then s.linked + [a.event] else s.linked, attachers := s.attachers + [a])
    ensures AgreeInv(s', origin)
  {
    var n := |s.attachers|;
    assert s'.attachers[n] == a && forall i: nat :: i < n ==> s'.attachers[i] == s.attachers[i];
    forall e | Involved(s', e) && NoEarlyRead(s', e, origin)
      ensures AgreeCovered(s', e)
    {
      if e == EventOf(a) {
        assert ReportsFor(s', n, e) || RunReportsTo(s', e);
      } else {
        assert Involved(s, e);
        EarlierReads(s, s', e, origin);
        if i: nat :| ReportsFor(s, i, e) {
          assert ReportsFor(s', i, e);
        }
      }
    }
  }

  lemma EarlierReads(s: State, s': State, e: ChangeEvent, origin: Row)
    requires |s.attachers| <= |s'.attachers| && NoEarlyRead(s', e, origin)
    requires forall i: nat :: i < |s.attachers| && EventOf(s.attachers[i]) == e ==> s'.attachers[i] == s.attachers[i]
    ensures NoEarlyRead(s, e, origin)
  {
    forall i: nat | i < |s.attachers| && EventOf(s.attachers[i]) == e && HasRow(s.attachers[i])
      ensures RowOf(s.attachers[i]) != origin
    {
      assert s'.attachers[i] == s.attachers[i];
    }
  }

  lemma ContextKeepsAgree(s: State, i: nat, origin: Row)
    requires Inv(s) && CurrentInv(s) && RowsFrom(s, origin) && AgreeInv(s, origin)
    requires i < |s.attachers| && !Settled(s.attachers[i])
    ensures AgreeInv(ContextStep(s, i), origin)
  {
    hide Inv, RowInv, ListInv, CurrentInv, RowsFrom, ContextStep, AgreeCovered, NoEarlyRead;
    var s' := ContextStep(s, i);
    InvRow(s);
    ContextChanges(s, i);
    forall e | Involved(s', e) && NoEarlyRead(s', e, origin)
      ensures AgreeCovered(s', e)
    {
      StillInvolved(s, s', i, e);
      if e == EventOf(s.attachers[i]) {
        MovedStaysAgreed(s, i, origin);
      } else {
        EarlierReads(s, s', e, origin);
        OthersStayAgreed(s, i, e);
      }
    }
  }

  lemma InvRow(s: State)
    requires Inv(s)
    ensures RowInv(s) && ListInv(s)
  {
  }

  lemma OthersStayAgreed(s: State, i: nat, e: ChangeEvent)
    requires RowInv(s) && i < |s.attachers| && !Settled(s.attachers[i]) && e != EventOf(s.attachers[i])
    requires AgreeCovered(s, e)
    ensures AgreeCovered(ContextStep(s, i), e)
  {
    hide RowInv, ContextStep, BuildAgrees, RunReportsTo, OwnReports, HasWritten;
    var s' := ContextStep(s, i);
    ContextChanges(s, i);
    OthersKeepReports(s, i, e);
    if k: nat :| ReportsFor(s, k, e) {
      assert s'.attachers[k] == s.attachers[k] && s'.runner == s.runner;
      assert ReportsFor(s', k, e);
    }
  }

  lemma OthersKeepReports(s: State, i: nat, e: ChangeEvent)
    requires RowInv(s) && i < |s.attachers| && !Settled(s.attachers[i]) && e != EventOf(s.attachers[i])
    ensures var s' := ContextStep(s, i);
            (BuildAgrees(s, e) ==> BuildAgrees(s', e)) && (RunReportsTo(s, e) ==> RunReportsTo(s', e))
            && (OwnReports(s, e) ==> OwnReports(s', e))
  {
    hide RowInv;
    ContextChanges(s, i);
    OtherStaysListed(s.linked, EventOf(s.attachers[i]), e);
  }

  /** The context that moves agrees, is still on the list, or still replays. */
  lemma MovedStaysAgreed(s: State, i: nat, origin: Row)
    requires RowInv(s) && ListInv(s) && CurrentInv(s) && RowsFrom(s, origin)
    requires i < |s.attachers| && !Settled(s.attachers[i])
    requires NoEarlyRead(ContextStep(s, i), EventOf(s.attachers[i]), origin)
    ensures AgreeCovered(ContextStep(s, i), EventOf(s.attachers[i]))
  {
    hide RowInv, ListInv, Entries, CurrentInv, RowsFrom;
    var s', a := ContextStep(s, i), s.attachers[i];
    ContextKeepsList(s, i);
    ContextChanges(s, i);
    if Replays(HasWritten(s'.runner), s'.attachers[i]) {
      assert ReportsFor(s', i, EventOf(a));
    } else if a.Appended? || a.Announced? {
      MovesWhileListing(s, i);
      ListedEntry(s', i);
    } else {
      assert HasRow(s'.attachers[i]) && EventOf(s'.attachers[i]) == a.report.event;
      LateReplay(s, i, origin);
    }
  }

  /** A context that attaches to a row that is not terminal does so before the pop. */
  lemma MovesWhileListing(s: State, i: nat)
    requires RowInv(s) && i < |s.attachers| && (s.attachers[i].Appended? || s.attachers[i].Announced?)
    requires !Replays(HasWritten(s.runner), ContextStep(s, i).attachers[i])
    ensures Listing(s.runner)
  {
  }

  /** A replay of a late read is of what the run wrote, and is not dropped. */
  lemma LateReplay(s: State, i: nat, origin: Row)
    requires CurrentInv(s) && RowsFrom(s, origin) && i < |s.attachers| && s.attachers[i].Replaying?
    requires s.attachers[i].report.row != origin
    ensures HasWritten(s.runner) && s.attachers[i].report.row == s.row && s.posts.generation <= s.row.generation
  {
    assert GoodContext(s.history, s.attachers[i]);
  }

  lemma ElsewhereKeepsAgree(s: State, s': State, origin: Row)
    requires AgreeInv(s, origin)
    requires s' == s.(looking := s'.looking, dispatches := s'.dispatches, attributes := s'.attributes)
    ensures AgreeInv(s', origin)
  {
    forall e | Involved(s', e) && NoEarlyRead(s', e, origin)
      ensures AgreeCovered(s', e)
    {
      assert Involved(s, e) && NoEarlyRead(s, e, origin);
      if i: nat :| ReportsFor(s, i, e) {
        assert ReportsFor(s', i, e);
      }
    }
  }

  lemma DispatchKeepsAgree(s: State, i: nat, origin: Row)
    requires AgreeInv(s, origin) && i < |s.dispatches|
    requires var d := s.dispatches[i]; Decide(d.created, d.record.status, s.slot) == Run ==> s.runner.Idle?
    ensures AgreeInv(Dispatched(s, i), origin)
  {
    hide AgreeInv, Without, Decide;
    var d := s.dispatches[i];
    var s1 := s.(dispatches := Without(s.dispatches, i));
    ElsewhereKeepsAgree(s, s1, origin);
    match Decide(d.created, d.record.status, s.slot)
    case Run => StartKeepsAgree(s1, d.event, d.record, origin);
    case Attach => JoinKeepsAgree(s1, Dispatched(s, i), Appended(d.event), origin);
    case Reuse =>
      JoinKeepsAgree(s1, Dispatched(s, i),
                     Replaying(Replay(d.event, d.record, s.attributes)), origin);
  }

  lemma StepKeepsAgree(p: Policy, s: State, step: Step, origin: Row)
    requires p.alone && Inv(s) && BuildInv(s) && OneRun(s) && RowsFrom(s, origin) && AgreeInv(s, origin)
    requires Enabled(p, s, step) && Apply(s, step).runs <= 1
    ensures AgreeInv(Apply(s, step), origin)
  {
    hide Inv, LookInv, PendingInv, AgreeInv, RowsFrom, Advance, ContextStep, MayStart, CanEnd, CanAdvance, Written;
    hide Noticed, Without;
    PendingIsCurrent(s);
    match step
    case Look(event) => ElsewhereKeepsAgree(s, Apply(s, step), origin);
    case Take(updates) => ElsewhereKeepsAgree(s, Apply(s, step), origin);
    case Dispatching(i) => DispatchKeepsAgree(s, i, origin);
    case Go => GoKeepsAgree(s, origin);
    case Record(any) => ElsewhereKeepsAgree(s, Apply(s, step), origin);
    case End(ending) => EndKeepsAgree(s, ending, origin);
    case Switch(i) =>
    case Context(i) => ContextKeepsAgree(s, i, origin);
    case Withdraw(_) =>
    case Notice(i) => NothingToNotice(s);
  }

  // ---------------------------------------------------------------------------
  // Every interleaving of one run
  // ---------------------------------------------------------------------------

  ghost predicate Agreeing(s: State, origin: Row) {
    BuildInv(s) && RowsFrom(s, origin) && AgreeInv(s, origin)
  }

  ghost predicate SingleInv(p: Policy, s: State, origin: Row) {
    Inv(s) && BuildNotices(s) && OneRun(s) && (p.alone ==> Agreeing(s, origin))
  }

  /** A run that starts first finds no earlier one, and everybody on the list. */
  function Granted(p: Policy): Policy {
    Policy(true, true, p.alone)
  }

  lemma StepIsGranted(p: Policy, s: State, step: Step)
    requires Inv(s) && OneRun(s) && Enabled(p, s, step) && Apply(s, step).runs <= 1
    ensures Enabled(Granted(p), s, step)
  {
    hide Inv, MayStart, CanEnd, CanAdvance, Decide, Without;
    if step.Dispatching? {
      var d := s.dispatches[step.i];
      if Decide(d.created, d.record.status, s.slot) == Run {
        FirstStart(p, s);
      }
    }
  }

  lemma FirstStart(p: Policy, s: State)
    requires Inv(s) && OneRun(s) && s.runs == 0
    ensures MayStart(Granted(p), s)
  {
    hide Entries;
  }

  lemma {:induction false} AgreeingStep(p: Policy, s: State, step: Step, origin: Row)
    requires p.alone && Inv(s) && OneRun(s) && Agreeing(s, origin)
    requires Enabled(p, s, step) && Enabled(Granted(p), s, step) && Apply(s, step).runs <= 1
    ensures Agreeing(Apply(s, step), origin)
  {
    hide Inv, BuildInv, RowsFrom, AgreeInv, Enabled, Apply;
    StepKeepsPending(Granted(p), s, step);
    StepKeepsRows(p, s, step, origin);
    StepKeepsAgree(p, s, step, origin);
  }

  /** One run, its contexts attaching whenever they like, with nothing granted at its start. */
  lemma {:induction false} SingleRunKeepsInv(p: Policy, s0: State, steps: seq<Step>)
    requires Init(s0) && Exec(p, s0, steps).Some? && Exec(p, s0, steps).value.runs <= 1
    ensures SingleInv(p, Exec(p, s0, steps).value, s0.row)
  {
    hide Inv, Agreeing, OneRun, BuildNotices, Init, Enabled, Apply;
    if steps == [] {
      InitSingle(p, s0);
    } else {
      var s, step := Exec(p, s0, steps[..|steps| - 1]).value, steps[|steps| - 1];
      RunsGrow(p, s, step);
      SingleRunKeepsInv(p, s0, steps[..|steps| - 1]);
      InvIsAlone(s);
      StepIsGranted(p, s, step);
      StepKeepsInv(Granted(p), s, step);
      StepKeepsNotices(p, s, step);
      StepKeepsOneRun(p, s, step);
      if p.alone {
        AgreeingStep(p, s, step, s0.row);
      }
    }
  }

  lemma RunsGrow(p: Policy, s: State, step: Step)
    requires Enabled(p, s, step)
    ensures s.runs <= Apply(s, step).runs
  {
    hide MayStart, Perform, Rest, ContextStep, Advance, Without;
    if step.Go? {
      GoKeepsRun(s);
    } else if step.Context? {
      ContextFields(s, step.i);
    } else if step.Notice? {
      PerformChanges(s, s.notices[step.i]);
    }
  }

  lemma InvIsAlone(s: State)
    requires Inv(s)
    ensures Alone(s)
  {
  }

  lemma PendingIsCurrent(s: State)
    requires BuildInv(s)
    ensures CurrentInv(s)
  {
  }

  lemma InitSingle(p: Policy, s: State)
    requires Init(s)
    ensures SingleInv(p, s, s.row)
  {
    InitInv(s);
    InitLook(s);
    InitPending(s);
  }

  /** One run of a build: once it and all contexts are done, no eval check and no list entry is left pending,
      however many contexts attached before, during or after the pop and the clearing; and no nix-build check
      either, unless the build was cancelled from outside. */
  lemma {:induction false} SingleRunSettles(p: Policy, s0: State, steps: seq<Step>)
    requires Init(s0) && Exec(p, s0, steps).Some?
    requires Exec(p, s0, steps).value.runs <= 1 && Quiescent(Exec(p, s0, steps).value)
    ensures EvalSettled(Exec(p, s0, steps).value)
    ensures p.alone ==> BuildSettled(Exec(p, s0, steps).value)
  {
    hide Init, Exec, LookInv, PendingInv, RowsFrom, AgreeInv, OneRun, EvalSettled, BuildSettled;
    SingleRunKeepsInv(p, s0, steps);
    EvalSettledByInv(Exec(p, s0, steps).value);
    if p.alone {
      BuildSettledByInv(Exec(p, s0, steps).value);
    }
  }

  /** The last build status of every context is the status the run wrote, unless one of the
      context's deliveries read the row before the run reset it. */
  lemma {:induction false} ContextsAgree(p: Policy, s0: State, steps: seq<Step>)
    requires p.alone && Init(s0) && Exec(p, s0, steps).Some?
    requires Exec(p, s0, steps).value.runs <= 1 && Quiescent(Exec(p, s0, steps).value)
    ensures var s := Exec(p, s0, steps).value;
            forall e :: Involved(s, e) && NoEarlyRead(s, e, s0.row) ==> BuildAgrees(s, e)
  {
    hide Init, Exec, LookInv, PendingInv, Inv, OneRun, RowsFrom, NoEarlyRead;
    var s := Exec(p, s0, steps).value;
    SingleRunKeepsInv(p, s0, steps);
    forall e | Involved(s, e) && NoEarlyRead(s, e, s0.row)
      ensures BuildAgrees(s, e)
    {
      assert AgreeCovered(s, e);
      assert forall i: nat :: i < |s.attachers| ==> s.attachers[i] in s.attachers;
    }
  }

  /** The last build status of every event involved is what the run wrote. */
  ghost predicate AllAgree(s: State) {
    forall e :: Involved(s, e) ==> BuildAgrees(s, e)
  }

  /** A fresh build has no early read: every context ends with the run's status. */
  lemma {:induction false} FreshRunAgrees(p: Policy, s0: State, steps: seq<Step>)
    requires p.alone && Init(s0) && s0.row.status == PENDING && Exec(p, s0, steps).Some?
    requires Exec(p, s0, steps).value.runs <= 1 && Quiescent(Exec(p, s0, steps).value)
    ensures AllAgree(Exec(p, s0, steps).value)
  {
    hide Init, Exec, LookInv, Inv, OneRun, RowsFrom, AgreeInv;
    var s := Exec(p, s0, steps).value;
    SingleRunKeepsInv(p, s0, steps);
    ContextsAgree(p, s0, steps);
    forall e | Involved(s, e)
      ensures NoEarlyRead(s, e, s0.row)
    {
      forall i: nat | i < |s.attachers| && EventOf(s.attachers[i]) == e && HasRow(s.attachers[i])
        ensures RowOf(s.attachers[i]) != s0.row
      {
        assert GoodContext(s.history, s.attachers[i]);
      }
    }
  }
}
