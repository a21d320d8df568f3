/** No nix-build check of the fan-out is left pending, and the contexts of a run agree with it. */
module FanoutBuild {
  import opened Wrappers
  import opened LinkedFanout
  import opened FanoutEval
  import opened FanoutLookup

  // ---------------------------------------------------------------------------
  // Rows and generations
  // ---------------------------------------------------------------------------

  predicate Decided(row: Row) {
    row.status == SUCCEEDED || row.status == FAILED
  }

  /** No run is between its start and its terminal write. */
  predicate Still(runner: Runner) {
    runner.Idle? || HasWritten(runner)
  }

  predicate HasRow(a: Attacher) {
    a.SawTerminal? || a.Replaying? || a.Done?
  }

  function RowOf(a: Attacher): Row
    requires HasRow(a)
  {
    if a.Replaying? then a.report.row else a.row
  }

  /** A context replays a terminal row of this build, and nix-build goes pending only for a decided one. */
  predicate GoodContext(history: set<Row>, a: Attacher) {
    && (HasRow(a) ==> RowOf(a) in history && Terminal(RowOf(a).status))
    && (a.Replaying? && a.report.stage == AtPending ==> a.report.check == EvalFinished(true))
    && (a.Replaying? && a.report.check == EvalFinished(true) ==> Decided(a.report.row))
  }

  /** What a run reports is the row it wrote, with the generation of its record. */
  predicate RunnerCurrent(s: State) {
    && s.posts.generation <= s.row.generation
    && (!Still(s.runner) ==> s.recorded == s.row.generation)
    && (HasWritten(s.runner) ==>
          s.row == s.runner.ending.row == ResultRow(s, s.runner.ending) && Terminal(s.row.status))
    && (s.runner.Reporting? ==> s.runner.report.row == s.row && s.runner.report.event == s.own)
    && (s.runner.Fanning? && s.runner.current.Some? ==> s.runner.current.value.row == s.row)
  }

  /** Generations do not exceed the row's, and a decided row is final. */
  ghost predicate CurrentInv(s: State) {
    && s.row in s.history && RunnerCurrent(s)
    && (forall r :: r in s.history ==>
          r.generation <= s.row.generation && (Decided(r) ==> r == s.row && Still(s.runner)))
    && (forall a :: a in s.attachers ==> GoodContext(s.history, a))
  }

  /** A stage of a report of the present row leaves the row, and no later generation is posted. */
  lemma StagesKeepRow(s: State)
    ensures forall r: Report :: var s' := Perform(s, r);
              && s' == s.(posts := s'.posts)
              && (r.row == s.row && s.posts.generation <= s.row.generation ==> s'.posts.generation <= s.row.generation)
              && (Rest(s, r).Some? ==> Rest(s, r).value.row == r.row && Rest(s, r).value.event == r.event)
  {
  }

  lemma GoKeepsRunner(s: State)
    requires RunnerCurrent(s) && CanAdvance(s)
    ensures RunnerCurrent(Advance(s))
  {
    hide FanCheck, Perform, Rest;
    StagesKeepRow(s);
  }

  lemma GoStaysStill(s: State)
    requires CanAdvance(s)
    ensures Still(s.runner) ==> Still(Advance(s).runner)
    ensures s.runner.Resetting? ==> !Still(s.runner)
  {
    hide FanCheck, ResultRow, NewReport, Rest, Perform;
  }

  lemma GoKeepsCurrent(s: State)
    requires CurrentInv(s) && CanAdvance(s)
    ensures CurrentInv(Advance(s))
  {
    hide GoodContext, Advance, RunnerCurrent;
    GoKeepsContexts(s);
    GoMovesRow(s);
    GoKeepsRunner(s);
    GoStaysStill(s);
    assert s.history <= Advance(s).history;
    forall a | a in s.attachers
      ensures GoodContext(Advance(s).history, a)
    {
      MoreHistory(s.history, Advance(s).history, a);
    }
  }

  lemma MoreHistory(a: set<Row>, b: set<Row>, c: Attacher)
    requires a <= b && GoodContext(a, c)
    ensures GoodContext(b, c)
  {
  }

  lemma EndKeepsCurrent(s: State, ending: Ending)
    requires CurrentInv(s) && CanEnd(s, ending)
    ensures CurrentInv(Written(s, ending))
  {
    hide GoodContext;
    forall a | a in s.attachers
      ensures GoodContext(s.history + {ending.row}, a)
    {
      MoreHistory(s.history, s.history + {ending.row}, a);
    }
  }

  lemma StartKeepsCurrent(s: State, own: ChangeEvent)
    requires CurrentInv(s) && !Decided(s.row)
    ensures CurrentInv(Started(s, own, s.row))
  {
    hide GoodContext;
  }

  lemma JoinKeepsCurrent(s: State, s': State, a: Attacher)
    requires CurrentInv(s) && GoodContext(s.history, a)
    requires s' == s.(linked := s'.linked, attachers := s.attachers + [a])
    ensures CurrentInv(s')
  {
    hide GoodContext;
  }

  /** What a context's step changes, as far as rows are concerned. */
  lemma ContextStaysGood(s: State, i: nat)
    requires CurrentInv(s) && i < |s.attachers| && !Settled(s.attachers[i])
    ensures var s' := ContextStep(s, i);
            && |s'.attachers| == |s.attachers| && s'.attachers == s.attachers[i := s'.attachers[i]]
            && GoodContext(s.history, s'.attachers[i]) && s'.posts.generation <= s.row.generation
            && s' == s.(attachers := s'.attachers, linked := s'.linked, posts := s'.posts)
  {
    hide RemoveEvent, FanCheck, ResultRow;
    assert GoodContext(s.history, s.attachers[i]);
    ContextFields(s, i);
  }

  lemma ContextKeepsCurrent(s: State, i: nat)
    requires CurrentInv(s) && i < |s.attachers| && !Settled(s.attachers[i])
    ensures CurrentInv(ContextStep(s, i))
  {
    hide GoodContext, ContextStep;
    ContextStaysGood(s, i);
    var s' := ContextStep(s, i);
    forall a | a in s'.attachers
      ensures GoodContext(s'.history, a)
    {
      assert a == s'.attachers[i] || a in s.attachers;
    }
  }

  // ---------------------------------------------------------------------------
  // Who owes nix-build a final status
  // ---------------------------------------------------------------------------

  predicate OwnOwes(s: State, e: ChangeEvent) {
    e == s.own && (s.runner.Building? || s.runner.Reporting?)
  }

  predicate FanOwes(s: State, e: ChangeEvent) {
    s.runner.Fanning? && s.runner.current.Some? && s.runner.current.value.event == e
  }

  predicate ReplayOwes(a: Attacher, e: ChangeEvent) {
    a.Replaying? && a.report.event == e && a.report.check == EvalFinished(true)
  }

  ghost predicate ContextOwes(s: State, e: ChangeEvent) {
    exists i: nat :: i < |s.attachers| && ReplayOwes(s.attachers[i], e)
  }

  predicate BuildPending(s: State, e: ChangeEvent) {
    e in s.posts.builds && s.posts.builds[e] == PENDING
  }

  ghost predicate PendingOwed(s: State, e: ChangeEvent) {
    BuildPending(s, e) ==> OwnOwes(s, e) || FanOwes(s, e) || ContextOwes(s, e)
  }

  /** Whoever set nix-build to pending still posts a status that is not dropped. */
  ghost predicate PendingInv(s: State) {
    CurrentInv(s) && forall e :: PendingOwed(s, e)
  }

  lemma InitPending(s: State)
    requires Init(s)
    ensures PendingInv(s) && Alone(s)
  {
  }

  /** A report of the present row is not dropped, and ends with a final status. */
  lemma ReportIsPosted(s: State, r: Report)
    requires s.posts.generation <= r.row.generation && Terminal(r.row.status)
    ensures Rest(s, r).None? ==> !BuildPending(Perform(s, r), r.event)
    ensures forall e :: e != r.event ==> (BuildPending(Perform(s, r), e) <==> BuildPending(s, e))
    ensures Rest(s, r).Some? ==> Rest(s, r).value.event == r.event && Rest(s, r).value.check == r.check
    ensures Perform(s, r) == s.(posts := Perform(s, r).posts)
  {
  }

  lemma GoOwes(s: State, e: ChangeEvent)
    requires CurrentInv(s) && CanAdvance(s)
    ensures BuildPending(Advance(s), e) ==> BuildPending(s, e) || OwnOwes(Advance(s), e) || FanOwes(Advance(s), e)
    ensures BuildPending(Advance(s), e) && (OwnOwes(s, e) || FanOwes(s, e)) ==>
              OwnOwes(Advance(s), e) || FanOwes(Advance(s), e)
  {
    hide CurrentInv, Perform, Rest, BuildPending;
    var s' := Advance(s);
    RunReports(s);
    if s.runner.Reporting? {
      ReportIsPosted(s, s.runner.report);
      SameBuilds(Perform(s, s.runner.report), s', e);
    } else if s.runner.Fanning? && s.runner.current.Some? {
      ReportIsPosted(s, s.runner.current.value);
      SameBuilds(Perform(s, s.runner.current.value), s', e);
    } else if s.runner.Evaluated? {
      OthersPend(s, e);
    } else {
      SameBuilds(s, s', e);
    }
  }

  lemma RunReports(s: State)
    requires CurrentInv(s)
    ensures s.runner.Reporting? ==> var r := s.runner.report;
              r.event == s.own && s.posts.generation <= r.row.generation && Terminal(r.row.status)
    ensures s.runner.Fanning? && s.runner.current.Some? ==> var r := s.runner.current.value;
              s.posts.generation <= r.row.generation && Terminal(r.row.status)
  {
    hide GoodContext;
  }

  lemma SameBuilds(s: State, s': State, e: ChangeEvent)
    requires s'.posts.builds == s.posts.builds
    ensures BuildPending(s', e) <==> BuildPending(s, e)
  {
  }

  lemma OthersPend(s: State, e: ChangeEvent)
    requires s.runner.Evaluated?
    ensures Advance(s).runner.Building? && Advance(s).own == s.own
    ensures e != s.own ==> (BuildPending(Advance(s), e) <==> BuildPending(s, e))
  {
  }

  lemma GoKeepsPending(s: State)
    requires PendingInv(s) && CanAdvance(s)
    ensures PendingInv(Advance(s))
  {
    hide CurrentInv, Advance, BuildPending, OwnOwes, FanOwes;
    GoKeepsCurrent(s);
    GoKeepsContexts(s);
    forall e
      ensures PendingOwed(Advance(s), e)
    {
      GoOwes(s, e);
      assert PendingOwed(s, e);
    }
  }

  lemma EndKeepsPending(s: State, ending: Ending)
    requires PendingInv(s) && CanEnd(s, ending)
    ensures PendingInv(Written(s, ending))
  {
    hide CurrentInv;
    EndKeepsCurrent(s, ending);
    forall e
      ensures PendingOwed(Written(s, ending), e)
    {
      assert PendingOwed(s, e);
    }
  }

  lemma StartKeepsPending(s: State, own: ChangeEvent)
    requires PendingInv(s) && Over(s.runner) && !Decided(s.row)
    ensures PendingInv(Started(s, own, s.row))
  {
    hide CurrentInv;
    StartKeepsCurrent(s, own);
    forall e
      ensures PendingOwed(Started(s, own, s.row), e)
    {
      assert PendingOwed(s, e);
    }
  }

  lemma JoinKeepsPending(s: State, s': State, a: Attacher)
    requires PendingInv(s) && GoodContext(s.history, a)
    requires s' == s.(linked := s'.linked, attachers := s.attachers + [a])
    ensures PendingInv(s')
  {
    hide CurrentInv, GoodContext;
    JoinKeepsCurrent(s, s', a);
    forall e
      ensures PendingOwed(s', e)
    {
      assert PendingOwed(s, e);
      if i: nat :| i < |s.attachers| && ReplayOwes(s.attachers[i], e) {
        assert s'.attachers[i] == s.attachers[i];
      }
    }
  }

  lemma ContextKeepsPending(s: State, i: nat)
    requires PendingInv(s) && i < |s.attachers| && !Settled(s.attachers[i])
    ensures PendingInv(ContextStep(s, i))
  {
    hide CurrentInv, ContextStep, PendingOwed;
    ContextKeepsCurrent(s, i);
    forall e
      ensures PendingOwed(ContextStep(s, i), e)
    {
      assert PendingOwed(s, e);
      if s.attachers[i].Replaying? && s.attachers[i].report.event == e {
        ReplayStaysOwed(s, i);
      } else {
        OtherStaysOwed(s, i, e);
      }
    }
  }

  lemma OtherStaysOwed(s: State, i: nat, e: ChangeEvent)
    requires CurrentInv(s) && i < |s.attachers| && !Settled(s.attachers[i]) && PendingOwed(s, e)
    requires !(s.attachers[i].Replaying? && s.attachers[i].report.event == e)
    ensures PendingOwed(ContextStep(s, i), e)
  {
    hide CurrentInv;
    var s' := ContextStep(s, i);
    ContextStaysGood(s, i);
    assert BuildPending(s', e) ==> BuildPending(s, e);
    if k: nat :| k < |s.attachers| && ReplayOwes(s.attachers[k], e) {
      assert k != i && s'.attachers[k] == s.attachers[k];
    }
  }

  lemma ReplayStaysOwed(s: State, i: nat)
    requires CurrentInv(s) && i < |s.attachers| && s.attachers[i].Replaying?
             && PendingOwed(s, s.attachers[i].report.event)
    ensures PendingOwed(ContextStep(s, i), s.attachers[i].report.event)
  {
    hide CurrentInv;
    var s', r := ContextStep(s, i), s.attachers[i].report;
    ContextStaysGood(s, i);
    ReplayIsGood(s, i);
    if r.check == EvalFinished(true) {
      ReportIsPosted(s, r);
      assert Rest(s, r).Some? ==> ReplayOwes(s'.attachers[i], r.event);
    } else if k: nat :| k < |s.attachers| && ReplayOwes(s.attachers[k], r.event) {
      assert k != i && s'.attachers[k] == s.attachers[k];
    }
  }

  /** A successful replay is of the present row; any other never makes nix-build pending. */
  lemma ReplayIsGood(s: State, i: nat)
    requires CurrentInv(s) && i < |s.attachers| && s.attachers[i].Replaying?
    ensures var r := s.attachers[i].report;
            && Terminal(r.row.status)
            && (r.stage == AtPending ==> r.check == EvalFinished(true))
            && (r.check == EvalFinished(true) ==> r.row == s.row && s.posts.generation <= r.row.generation)
  {
    assert GoodContext(s.history, s.attachers[i]);
  }

  /** No run beside another, one writer, and every pending check owed. */
  ghost predicate BuildInv(s: State) {
    Alone(s) && LookInv(s) && PendingInv(s)
  }

  lemma StepKeepsAlone(p: Policy, s: State, step: Step)
    requires p.cleared && Alone(s) && Enabled(p, s, step)
    ensures Alone(Apply(s, step))
  {
    hide Advance, ContextStep, Perform, CanAdvance, Listed;
    if step.Go? {
      GoKeepsContexts(s);
    } else if step.Context? {
      ContextFields(s, step.i);
    } else if step.Notice? {
      PerformChanges(s, s.notices[step.i]);
    }
  }

  lemma ElsewhereKeepsPending(s: State, s': State)
    requires PendingInv(s)
    requires s' == s.(linked := s'.linked, looking := s'.looking, dispatches := s'.dispatches,
                      attributes := s'.attributes)
    ensures PendingInv(s')
  {
    hide GoodContext;
    forall e
      ensures PendingOwed(s', e)
    {
      assert PendingOwed(s, e);
      if i: nat :| i < |s.attachers| && ReplayOwes(s.attachers[i], e) {
        assert ReplayOwes(s'.attachers[i], e);
      }
    }
  }

  lemma DispatchKeepsPending(s: State, i: nat)
    requires BuildInv(s) && i < |s.dispatches|
    requires var d := s.dispatches[i]; Decide(d.created, d.record.status, s.slot) == Run ==> Over(s.runner)
    ensures PendingInv(Dispatched(s, i))
  {
    hide PendingInv, Without, GoodContext, Alone;
    var d := s.dispatches[i];
    var s1 := s.(dispatches := Without(s.dispatches, i));
    ElsewhereKeepsPending(s, s1);
    DispatchIsCurrent(s, i);
    match Decide(d.created, d.record.status, s.slot)
    case Run => StartKeepsPending(s1, d.event);
    case Attach =>
      FreshIsGood(s.history, d.event);
      JoinKeepsPending(s1, Dispatched(s, i), Appended(d.event));
    case Reuse =>
      ReusedIsGood(s.history, d.event, d.record, s.attributes);
      JoinKeepsPending(s1, Dispatched(s, i),
                       Replaying(Replay(d.event, d.record, s.attributes)));
  }

  lemma DispatchIsCurrent(s: State, i: nat)
    requires LookInv(s) && i < |s.dispatches|
    ensures var d := s.dispatches[i];
            && d.record in s.history
            && (Decide(d.created, d.record.status, s.slot) == Run ==> d.record == s.row && !Decided(s.row))
            && (Decide(d.created, d.record.status, s.slot) == Reuse ==> Decided(d.record))
  {
    hide OneWorks, LookingInv, NoneWorks;
    assert s.dispatches[i] in s.dispatches;
  }

  /** Every step keeps it, when a run starts with the earlier ones over and the build is not cancelled from outside. */
  lemma {:induction false} StepKeepsPending(p: Policy, s: State, step: Step)
    requires p.cleared && p.alone && BuildInv(s) && Enabled(p, s, step)
    ensures BuildInv(Apply(s, step))
  {
    hide PendingInv, LookInv, Advance, ContextStep, Listed, CanEnd, CanAdvance, Written, Dispatched, Noticed;
    StepKeepsAlone(p, s, step);
    StepKeepsLook(p, s, step);
    match step
    case Look(event) => ElsewhereKeepsPending(s, Apply(s, step));
    case Take(updates) => ElsewhereKeepsPending(s, Apply(s, step));
    case Dispatching(i) => DispatchKeepsPending(s, i);
    case Go => GoKeepsPending(s);
    case Record(any) => ElsewhereKeepsPending(s, Apply(s, step));
    case End(ending) => EndKeepsPending(s, ending);
    case Switch(i) =>
    case Context(i) => ContextKeepsPending(s, i);
    case Withdraw(_) =>
    case Notice(i) => NothingToNotice(s);
  }

  lemma FreshIsGood(history: set<Row>, event: ChangeEvent)
    ensures GoodContext(history, Appended(event))
  {
  }

  lemma ReusedIsGood(history: set<Row>, event: ChangeEvent, record: Row, attributes: bool)
    requires record in history && Decided(record)
    ensures GoodContext(history, Replaying(Replay(event, record, attributes)))
  {
  }

  lemma {:induction false} RunKeepsPending(p: Policy, s0: State, steps: seq<Step>)
    requires p.cleared && p.alone && Init(s0) && Exec(p, s0, steps).Some?
    ensures BuildInv(Exec(p, s0, steps).value)
  {
    hide PendingInv, LookInv, Init, Enabled, Apply, Alone;
    if steps == [] {
      InitLook(s0);
      InitPending(s0);
    } else {
      RunKeepsPending(p, s0, steps[..|steps| - 1]);
      StepKeepsPending(p, Exec(p, s0, steps[..|steps| - 1]).value, steps[|steps| - 1]);
    }
  }

  /** No nix-build check is pending. */
  ghost predicate BuildSettled(s: State) {
    forall e :: !BuildPending(s, e)
  }

  lemma BuildSettledByInv(s: State)
    requires BuildInv(s) && Quiescent(s)
    ensures BuildSettled(s)
  {
    hide CurrentInv, LookInv;
    forall e
      ensures !BuildPending(s, e)
    {
      assert PendingOwed(s, e);
      assert forall i: nat :: i < |s.attachers| ==> s.attachers[i] in s.attachers;
    }
  }

  /** In every interleaving, once all runs and all contexts are done. */
  lemma {:induction false} NoBuildStaysPending(p: Policy, s0: State, steps: seq<Step>)
    requires p.cleared && p.alone && Init(s0) && Exec(p, s0, steps).Some? && Quiescent(Exec(p, s0, steps).value)
    ensures BuildSettled(Exec(p, s0, steps).value)
  {
    hide Init, Exec, BuildInv, BuildSettled, Quiescent;
    RunKeepsPending(p, s0, steps);
    BuildSettledByInv(Exec(p, s0, steps).value);
  }
}
