/** Which nix-eval check each event ends with, from the run or the row that served it. */
module FanoutVerdict {
  import opened Wrappers
  import opened LinkedFanout
  import opened FanoutEval
  import opened FanoutLookup
  import opened FanoutBuild
  import opened FanoutAgreement
  import opened FanoutRuns

  /** The check each service stands for. */
  predicate Follows(check: EvalCheck, service: Service) {
    match service
    case ByStart => check == EvalPending
    case ByEvaluation => check == EvalFinished(true)
    case ByRun(Aggregated(_)) => check == EvalFinished(true)
    case ByRun(Aborted(row)) => check == if row.status == CANCELLED then EvalCancelled else EvalFinished(false)
    case ByRow(row, attributes) =>
      match row.status
      case SUCCEEDED => check == EvalFinished(true)
      case CANCELLED => check == EvalCancelled
      case FAILED => check == EvalFinished(attributes)
      case PENDING => false
  }

  /** The row of a service is one the build has had. */
  predicate Real(history: set<Row>, service: Service) {
    match service
    case ByStart => true
    case ByEvaluation => true
    case ByRun(ending) => ending.row in history && Terminal(ending.row.status)
    case ByRow(row, _) => row in history && Terminal(row.status)
  }

  predicate Honest(history: set<Row>, check: EvalCheck, service: Service) {
    Follows(check, service) && Real(history, service)
  }

  // ---------------------------------------------------------------------------
  // Every check follows from what served it
  // ---------------------------------------------------------------------------

  ghost predicate HonestPosts(history: set<Row>, p: Posts) {
    forall e :: e in p.served ==> e in p.evals && Honest(history, p.evals[e], p.served[e])
  }

  predicate HonestReport(history: set<Row>, r: Report) {
    Honest(history, r.check, r.service)
  }

  predicate HonestRunner(history: set<Row>, runner: Runner) {
    && (HasWritten(runner) ==> runner.ending.row in history && Terminal(runner.ending.row.status))
    && (runner.Reporting? ==> HonestReport(history, runner.report))
    && (runner.Fanning? && runner.current.Some? ==> HonestReport(history, runner.current.value))
  }

  predicate HonestContext(history: set<Row>, a: Attacher) {
    && (a.SawTerminal? ==> a.row in history && Terminal(a.row.status))
    && (a.Replaying? ==> HonestReport(history, a.report))
  }

  ghost predicate HonestState(s: State) {
    && s.row in s.history && HonestPosts(s.history, s.posts) && HonestRunner(s.history, s.runner)
    && (s.looking.Some? ==> s.looking.value.found in s.history)
    && (forall d :: d in s.dispatches ==> d.record in s.history)
    && (forall o :: o in s.others ==> HonestRunner(s.history, o.runner))
    && (forall a :: a in s.attachers ==> HonestContext(s.history, a))
    && BuildNotices(s)
  }

  lemma InitHonest(s: State)
    requires Init(s)
    ensures HonestState(s)
  {
  }

  lemma MoreRows(a: set<Row>, b: set<Row>, s: State)
    requires a <= b
    ensures HonestPosts(a, s.posts) ==> HonestPosts(b, s.posts)
    ensures HonestRunner(a, s.runner) ==> HonestRunner(b, s.runner)
    ensures forall o :: o in s.others && HonestRunner(a, o.runner) ==> HonestRunner(b, o.runner)
    ensures forall c :: c in s.attachers && HonestContext(a, c) ==> HonestContext(b, c)
  {
  }

  /** A stage of an honest report keeps what is posted honest, and what is left of it. */
  lemma ReportStaysHonest(s: State, r: Report)
    requires HonestPosts(s.history, s.posts) && (r.stage == AtEval ==> HonestReport(s.history, r))
    ensures HonestPosts(s.history, Posted(s.posts, r))
    ensures HonestReport(s.history, r) && Rest(s, r).Some? ==> HonestReport(s.history, Rest(s, r).value)
    ensures Rest(s, r).Some? ==> Rest(s, r).value.stage != AtEval
  {
    hide Honest;
  }

  lemma FanIsHonest(history: set<Row>, s: State, ending: Ending, e: ChangeEvent)
    requires ending.row in history && Terminal(ending.row.status)
    ensures HonestReport(history, NewReport(e, FanCheck(ending), ResultRow(s, ending), ByRun(ending)))
    ensures HonestReport(history, OwnReport(s, ending))
  {
  }

  lemma ReplayIsHonest(history: set<Row>, e: ChangeEvent, row: Row, attributes: bool)
    requires row in history && Terminal(row.status)
    ensures HonestReport(history, Replay(e, row, attributes))
  {
  }

  lemma PostIsHonest(history: set<Row>, p: Posts, e: ChangeEvent)
    requires HonestPosts(history, p)
    ensures HonestPosts(history, PostEval(p, e, EvalPending, ByStart))
    ensures HonestPosts(history, PostEval(p, e, EvalFinished(true), ByEvaluation))
    ensures forall status :: HonestPosts(history, PostBuild(p, e, status))
  {
  }

  lemma GoStaysHonest(s: State)
    requires HonestState(s) && CanAdvance(s)
    ensures HonestState(Advance(s))
  {
    hide HonestPosts, HonestReport, HonestContext, FanCheck, ResultRow, NewReport, Rest, PostEval, PostBuild, Posted;
    var s' := Advance(s);
    GoMovesRow(s);
    GoKeepsContexts(s);
    MoreRows(s.history, s'.history, s);
    match s.runner
    case Starting => PostIsHonest(s.history, s.posts, s.own);
    case Resetting =>
    case Claiming =>
    case Evaluating => PostIsHonest(s.history, s.posts, s.own);
    case Evaluated => PostIsHonest(s.history, s.posts, s.own);
    case Reporting(ending, r) => ReportStaysHonest(s, r);
    case Popping(ending) =>
    case Fanning(ending, left, Some(r)) => ReportStaysHonest(s, r);
    case Fanning(ending, left, None) => if left != [] { FanIsHonest(s.history, s, ending, left[0]); }
    case Settling(ending) =>
    case Released(ending) =>
  }

  lemma EndStaysHonest(s: State, ending: Ending)
    requires HonestState(s) && CanEnd(s, ending)
    ensures HonestState(Written(s, ending))
  {
    hide HonestPosts, HonestReport, HonestContext, OwnReport;
    MoreRows(s.history, s.history + {ending.row}, s);
    FanIsHonest(s.history + {ending.row}, s, ending, s.own);
  }

  lemma DispatchStaysHonest(s: State, i: nat)
    requires HonestState(s) && i < |s.dispatches|
    ensures HonestState(Dispatched(s, i))
  {
    hide HonestPosts, HonestReport, Without, Replay;
    var d := s.dispatches[i];
    assert d in s.dispatches;
    StillDispatched(s.dispatches, i);
    if Decide(d.created, d.record.status, s.slot) == Reuse {
      ReplayIsHonest(s.history, d.event, d.record, s.attributes);
    }
  }

  lemma StillDispatched(ds: seq<Deciding>, i: nat)
    requires i < |ds|
    ensures forall d :: d in Without(ds, i) ==> d in ds
  {
  }

  lemma ContextStaysHonest(s: State, i: nat)
    requires HonestState(s) && i < |s.attachers| && !Settled(s.attachers[i])
    ensures HonestState(ContextStep(s, i))
  {
    hide HonestPosts, HonestReport, HonestRunner, RemoveEvent, PostEval, Posted, Replay, Rest;
    var a := s.attachers[i];
    assert a in s.attachers;
    ContextFields(s, i);
    match a {
      case Appended(e) => PostIsHonest(s.history, s.posts, e);
      case Announced(e) =>
      case SawTerminal(e, row) => ReplayIsHonest(s.history, e, row, s.attributes);
      case Replaying(r) => ReportStaysHonest(s, r);
      case Detached(_, _) =>
      case Done(_, _) =>
    }
    forall b | b in ContextStep(s, i).attachers
      ensures HonestContext(s.history, b)
    {
      assert b == ContextStep(s, i).attachers[i] || b in s.attachers;
    }
  }

  lemma WithdrawStaysHonest(s: State, event: ChangeEvent)
    requires HonestState(s)
    ensures HonestState(Withdrawn(s, event))
  {
    hide HonestPosts, HonestReport, HonestContext;
    MoreRows(s.history, Withdrawn(s, event).history, s);
  }

  lemma NoticeStaysHonest(s: State, i: nat)
    requires HonestState(s) && i < |s.notices|
    ensures HonestState(Noticed(s, i))
  {
    hide HonestPosts, HonestReport, HonestContext, HonestRunner, Posted, Rest;
    assert s.notices[i] in s.notices;
    ReportStaysHonest(s, s.notices[i]);
  }

  lemma SwitchStaysHonest(s: State, i: nat)
    requires HonestState(s) && i < |s.others|
    ensures HonestState(Switched(s, i))
  {
    hide HonestPosts, HonestContext, HonestRunner;
    assert s.others[i] in s.others;
    forall o | o in Switched(s, i).others
      ensures HonestRunner(s.history, o.runner)
    {
      assert o in s.others || o.runner == s.runner;
    }
  }

  lemma StepStaysHonest(p: Policy, s: State, step: Step)
    requires HonestState(s) && Enabled(p, s, step)
    ensures HonestState(Apply(s, step))
  {
    hide HonestState, Dispatched, Advance, Written, Switched, ContextStep, Noticed, Withdrawn, MayStart, CanEnd,
         CanAdvance;
    match step
    case Look(event) => ElsewhereStaysHonest(s, Apply(s, step));
    case Take(updates) => ElsewhereStaysHonest(s, Apply(s, step));
    case Dispatching(i) => DispatchStaysHonest(s, i);
    case Go => GoStaysHonest(s);
    case Record(any) => ElsewhereStaysHonest(s, Apply(s, step));
    case End(ending) => EndStaysHonest(s, ending);
    case Switch(i) => SwitchStaysHonest(s, i);
    case Context(i) => ContextStaysHonest(s, i);
    case Withdraw(event) => WithdrawStaysHonest(s, event);
    case Notice(i) => NoticeStaysHonest(s, i);
  }

  /** A lookup finds the present row, and hands on what it found or the present row. */
  lemma ElsewhereStaysHonest(s: State, s': State)
    requires HonestState(s) && s' == s.(looking := s'.looking, dispatches := s'.dispatches, attributes := s'.attributes)
    requires s'.looking.Some? ==> s'.looking == s.looking || s'.looking.value.found == s.row
    requires forall d :: d in s'.dispatches ==>
               d in s.dispatches || d.record == s.row || (s.looking.Some? && d.record == s.looking.value.found)
    ensures HonestState(s')
  {
    hide HonestPosts, HonestRunner, HonestContext;
  }

  // ---------------------------------------------------------------------------
  // Everybody gets a post
  // ---------------------------------------------------------------------------

  predicate HasPosted(a: Attacher) {
    !a.Appended? && !(a.Replaying? && a.report.stage == AtEval)
  }

  predicate StillStarting(s: State, e: ChangeEvent) {
    (s.runner.Starting? && s.own == e) || exists o :: o in s.others && o.runner.Starting? && o.own == e
  }

  /** Whoever has posted is in `served`. */
  ghost predicate PostedInv(s: State) {
    && (forall a :: a in s.attachers && HasPosted(a) ==> EventOf(a) in s.posts.served)
    && forall e :: e in s.owners ==> e in s.posts.served || StillStarting(s, e)
  }

  lemma GoKeepsPosted(s: State)
    requires PostedInv(s) && CanAdvance(s)
    ensures PostedInv(Advance(s))
  {
    hide FanCheck, ResultRow, NewReport, Rest, HasPosted;
    GoMovesRow(s);
    GoKeepsContexts(s);
    GoKeepsServed(s);
  }

  lemma GoKeepsServed(s: State)
    requires CanAdvance(s)
    ensures forall e :: e in s.posts.served ==> e in Advance(s).posts.served
    ensures s.runner.Starting? ==> s.own in Advance(s).posts.served
    ensures !Advance(s).runner.Starting? && Advance(s).own == s.own
  {
    hide FanCheck, ResultRow, NewReport, Rest;
  }

  lemma ContextKeepsPosted(s: State, i: nat)
    requires PostedInv(s) && i < |s.attachers| && !Settled(s.attachers[i])
    ensures PostedInv(ContextStep(s, i))
  {
    hide RemoveEvent, ReplayCheck;
    ContextFields(s, i);
    var s' := ContextStep(s, i);
    assert s.attachers[i] in s.attachers;
    assert forall e :: e in s.posts.served ==> e in s'.posts.served;
    assert HasPosted(s'.attachers[i]) ==> EventOf(s'.attachers[i]) in s'.posts.served;
    forall a | a in s'.attachers && HasPosted(a)
      ensures EventOf(a) in s'.posts.served
    {
      assert a == s'.attachers[i] || a in s.attachers;
    }
  }

  lemma DispatchKeepsPosted(s: State, i: nat)
    requires PostedInv(s) && i < |s.dispatches|
    ensures PostedInv(Dispatched(s, i))
  {
    hide Without, ReplayCheck;
    var s' := Dispatched(s, i);
    forall e | e in s'.owners
      ensures e in s'.posts.served || StillStarting(s', e)
    {
      if e in s.owners && StillStarting(s, e) && s.runner.Starting? && s.own == e && s'.runs != s.runs {
        assert s'.others[|s.others|].own == e;
      }
    }
  }

  lemma SwitchKeepsPosted(s: State, i: nat)
    requires PostedInv(s) && i < |s.others|
    ensures PostedInv(Switched(s, i))
  {
    var s' := Switched(s, i);
    forall e | e in s'.owners
      ensures e in s'.posts.served || StillStarting(s', e)
    {
      if s.runner.Starting? && s.own == e {
        assert s'.others[i] in s'.others;
      } else if k :| 0 <= k < |s.others| && s.others[k].runner.Starting? && s.others[k].own == e {
        assert k != i ==> s'.others[k] in s'.others;
      }
    }
  }

  lemma StepKeepsPosted(p: Policy, s: State, step: Step)
    requires PostedInv(s) && Enabled(p, s, step)
    ensures PostedInv(Apply(s, step))
  {
    hide Dispatched, Advance, Switched, ContextStep, MayStart, CanEnd, CanAdvance, OwnReport, Rest;
    match step
    case Look(event) =>
    case Take(updates) =>
    case Dispatching(i) => DispatchKeepsPosted(s, i);
    case Go => GoKeepsPosted(s);
    case Record(any) =>
    case End(ending) => EndKeepsPosted(s, ending);
    case Switch(i) => SwitchKeepsPosted(s, i);
    case Context(i) => ContextKeepsPosted(s, i);
    case Withdraw(event) =>
    case Notice(i) =>
  }

  lemma EndKeepsPosted(s: State, ending: Ending)
    requires PostedInv(s) && CanEnd(s, ending)
    ensures PostedInv(Written(s, ending))
  {
    hide OwnReport, HasPosted;
  }

  lemma {:induction false} RunStaysHonest(p: Policy, s0: State, steps: seq<Step>)
    requires Init(s0) && Exec(p, s0, steps).Some?
    ensures HonestState(Exec(p, s0, steps).value) && PostedInv(Exec(p, s0, steps).value)
  {
    hide HonestState, PostedInv, Init, Enabled, Apply;
    if steps == [] {
      InitHonest(s0);
      InitPosted(s0);
    } else {
      RunStaysHonest(p, s0, steps[..|steps| - 1]);
      StepStaysHonest(p, Exec(p, s0, steps[..|steps| - 1]).value, steps[|steps| - 1]);
      StepKeepsPosted(p, Exec(p, s0, steps[..|steps| - 1]).value, steps[|steps| - 1]);
    }
  }

  lemma InitPosted(s: State)
    requires Init(s)
    ensures PostedInv(s)
  {
  }

  /** Whatever the runs, the contexts and the cancellations from outside did: once all are done, the last nix-eval check
      of every event is the one that follows from the run or the row that served it last. */
  lemma ChecksFollow(p: Policy, s0: State, steps: seq<Step>)
    requires Init(s0) && Exec(p, s0, steps).Some? && Quiescent(Exec(p, s0, steps).value)
    ensures var s := Exec(p, s0, steps).value;
            forall e :: Involved(s, e) ==>
              && e in s.posts.served && e in s.posts.evals
              && match s.posts.served[e]
                 case ByStart => s.posts.evals[e] == EvalPending
                 case ByEvaluation => s.posts.evals[e] == EvalFinished(true)
                 case ByRun(ending) =>
                   && ending.row in s.history && Terminal(ending.row.status)
                   && (ending.Aggregated? ==> s.posts.evals[e] == EvalFinished(true))
                   && (ending.Aborted? && ending.row.status == CANCELLED ==> s.posts.evals[e] == EvalCancelled)
                   && (ending.Aborted? && ending.row.status != CANCELLED ==> s.posts.evals[e] == EvalFinished(false))
                 case ByRow(row, attributes) =>
                   && row in s.history && Terminal(row.status)
                   && (row.status == SUCCEEDED ==> s.posts.evals[e] == EvalFinished(true))
                   && (row.status == CANCELLED ==> s.posts.evals[e] == EvalCancelled)
                   && (row.status == FAILED ==> s.posts.evals[e] == EvalFinished(attributes))
    ensures p.cleared && p.listed ==>
              var s := Exec(p, s0, steps).value;
              forall e :: Involved(s, e) ==> e in s.posts.served && s.posts.served[e] != ByStart
  {
    hide Init, Exec, EvalSettled;
    var s := Exec(p, s0, steps).value;
    RunStaysHonest(p, s0, steps);
    forall e | Involved(s, e)
      ensures e in s.posts.served && e in s.posts.evals && Honest(s.history, s.posts.evals[e], s.posts.served[e])
    {
      EveryoneServed(s, e);
    }
    if p.cleared && p.listed {
      NobodyStaysPending(p, s0, steps);
      NotByStart(s);
    }
  }

  lemma EveryoneServed(s: State, e: ChangeEvent)
    requires PostedInv(s) && Quiescent(s) && Involved(s, e)
    ensures e in s.posts.served
  {
    if i: nat :| i < |s.attachers| && EventOf(s.attachers[i]) == e {
      assert s.attachers[i] in s.attachers;
    }
  }

  lemma NotByStart(s: State)
    requires HonestState(s) && EvalSettled(s)
    ensures forall e :: Involved(s, e) && e in s.posts.served ==> s.posts.served[e] != ByStart
  {
    forall e | Involved(s, e) && e in s.posts.served
      ensures s.posts.served[e] != ByStart
    {
      assert EvalResolved(s, e) && Follows(s.posts.evals[e], s.posts.served[e]);
    }
  }

  // ---------------------------------------------------------------------------
  // One run
  // ---------------------------------------------------------------------------

  /** What serves an event comes from the one run, or from the row it wrote. */
  predicate FromThisRun(s: State, e: ChangeEvent, service: Service) {
    match service
    case ByStart => true
    case ByEvaluation =>
      && e == s.own
      && (s.runner.Evaluated? || s.runner.Building?
          || (HasWritten(s.runner)
              && (s.runner.ending.Aggregated? || (s.runner.Reporting? && s.runner.report.stage == AtEval))))
    case ByRun(ending) => HasWritten(s.runner) && ending == s.runner.ending
    case ByRow(row, attributes) => HasWritten(s.runner) && row == s.row && attributes == s.attributes
  }

  predicate ContextOfThisRun(s: State, a: Attacher) {
    && (a.SawTerminal? ==> HasWritten(s.runner) && a.row == s.row)
    && (a.Replaying? ==> HasWritten(s.runner) && a.report.service == ByRow(s.row, s.attributes))
  }

  ghost predicate SourceInv(s: State) {
    && (forall e :: e in s.posts.served ==> FromThisRun(s, e, s.posts.served[e]))
    && (s.runner.Reporting? ==> s.runner.report.service == ByRun(s.runner.ending) && s.runner.report.event == s.own)
    && (s.runner.Fanning? && s.runner.current.Some? ==> s.runner.current.value.service == ByRun(s.runner.ending))
    && (forall a :: a in s.attachers ==> ContextOfThisRun(s, a))
    && (HasWritten(s.runner) && s.runner.ending.Aggregated? ==> s.attributes || s.row.status == SUCCEEDED)
  }

  lemma InitSources(s: State)
    requires Init(s)
    ensures SourceInv(s)
  {
  }

  /** What a step of the run posts. */
  lemma GoPosts(s: State)
    requires SourceInv(s) && CanAdvance(s)
    ensures var s' := Advance(s);
            forall e :: e in s'.posts.served ==>
              || (e in s.posts.served && s'.posts.served[e] == s.posts.served[e]
                  && !(e == s.own && s.runner.Reporting? && s.runner.report.stage == AtEval))
              || s'.posts.served[e] == ByStart
              || (s'.posts.served[e] == ByEvaluation && e == s.own && s'.runner.Evaluated?)
              || (s'.posts.served[e] == ByRun(s.runner.ending) && HasWritten(s.runner))
  {
    hide FanCheck, ResultRow, NewReport, Rest, FromThisRun, ContextOfThisRun;
  }

  lemma GoMovesRunner(s: State)
    requires SourceInv(s) && CanAdvance(s)
    ensures var s' := Advance(s);
            && s'.own == s.own && s'.attributes == s.attributes && s'.attachers == s.attachers
            && (HasWritten(s'.runner) <==> HasWritten(s.runner))
            && (HasWritten(s.runner) ==> s'.row == s.row && s'.runner.ending == s.runner.ending)
            && (s'.runner.Reporting? ==> s'.runner.report.service == ByRun(s'.runner.ending)
                                         && s'.runner.report.event == s.own && s'.runner.report.stage != AtEval)
            && (s'.runner.Fanning? && s'.runner.current.Some? ==>
                  s'.runner.current.value.service == ByRun(s'.runner.ending))
            && (s.runner.Evaluated? || s.runner.Building? ==> s'.runner.Building?)
  {
    hide FanCheck, ResultRow, FromThisRun, ContextOfThisRun, PostEval, PostBuild, Posted;
    GoKeepsContexts(s);
  }

  lemma GoKeepsSources(s: State)
    requires SourceInv(s) && CanAdvance(s)
    ensures SourceInv(Advance(s))
  {
    hide Advance, HasWritten;
    var s' := Advance(s);
    GoMovesRunner(s);
    GoPosts(s);
    forall e | e in s'.posts.served
      ensures FromThisRun(s', e, s'.posts.served[e])
    {
      if e in s.posts.served {
        assert FromThisRun(s, e, s.posts.served[e]);
      }
      RunnerIs(s.runner);
      RunnerIs(s'.runner);
    }
  }

  lemma RunnerIs(runner: Runner)
    ensures runner.Evaluated? || runner.Building? ==> !HasWritten(runner)
    ensures runner.Reporting? ==> HasWritten(runner)
  {
  }

  lemma EndKeepsSources(s: State, ending: Ending)
    requires SourceInv(s) && CanEnd(s, ending)
    ensures SourceInv(Written(s, ending))
  {
    hide FanCheck, ResultRow;
    forall e | e in s.posts.served
      ensures FromThisRun(Written(s, ending), e, s.posts.served[e])
    {
      assert FromThisRun(s, e, s.posts.served[e]);
    }
  }

  /** A terminal row is the one the run wrote. */
  lemma TerminalIsWritten(s: State, origin: Row, row: Row)
    requires RowsFrom(s, origin) && !Terminal(origin.status) && row in s.history && Terminal(row.status)
    ensures HasWritten(s.runner) && row == s.row
  {
  }

  lemma ContextKeepsSources(s: State, i: nat, origin: Row)
    requires SourceInv(s) && RowsFrom(s, origin) && !Terminal(origin.status) && s.row in s.history
    requires i < |s.attachers| && !Settled(s.attachers[i])
    ensures SourceInv(ContextStep(s, i))
  {
    hide RemoveEvent, ReplayCheck, HasWritten, RowsFrom;
    var s' := ContextStep(s, i);
    ContextFields(s, i);
    assert ContextOfThisRun(s, s.attachers[i]);
    if s.attachers[i].Announced? && Terminal(s.row.status) {
      TerminalIsWritten(s, origin, s.row);
    }
    assert ContextOfThisRun(s', s'.attachers[i]);
    forall a | a in s'.attachers
      ensures ContextOfThisRun(s', a)
    {
      assert a == s'.attachers[i] || a in s.attachers;
    }
    forall e | e in s'.posts.served
      ensures FromThisRun(s', e, s'.posts.served[e])
    {
      assert e in s.posts.served ==> FromThisRun(s, e, s.posts.served[e]);
    }
  }

  lemma DispatchKeepsSources(s: State, i: nat, origin: Row)
    requires SourceInv(s) && RowsFrom(s, origin) && !Terminal(origin.status) && LookInv(s) && OneRun(s)
    requires i < |s.dispatches| && Dispatched(s, i).runs <= 1
    ensures SourceInv(Dispatched(s, i))
  {
    hide Without, ReplayCheck, LookInv, RowsFrom;
    var s', d := Dispatched(s, i), s.dispatches[i];
    DispatchIsCurrent(s, i);
    if Decide(d.created, d.record.status, s.slot) == Reuse {
      TerminalIsWritten(s, origin, d.record);
    }
    forall e | e in s'.posts.served
      ensures FromThisRun(s', e, s'.posts.served[e])
    {
      assert FromThisRun(s, e, s.posts.served[e]);
    }
    forall a | a in s'.attachers
      ensures ContextOfThisRun(s', a)
    {
      if a in s.attachers {
        assert ContextOfThisRun(s, a);
      }
    }
  }

  lemma RecordKeepsSources(s: State, any: bool)
    requires SourceInv(s) && (s.runner.Evaluating? || s.runner.Evaluated? || s.runner.Building?)
    ensures SourceInv(s.(attributes := any))
  {
    var s' := s.(attributes := any);
    forall e | e in s.posts.served
      ensures FromThisRun(s', e, s.posts.served[e])
    {
      assert FromThisRun(s, e, s.posts.served[e]);
    }
    forall a | a in s.attachers
      ensures ContextOfThisRun(s', a)
    {
      assert ContextOfThisRun(s, a);
    }
  }

  lemma LookupKeepsSources(s: State, s': State)
    requires SourceInv(s) && s' == s.(looking := s'.looking, dispatches := s'.dispatches)
    ensures SourceInv(s')
  {
    hide HasWritten;
    forall e | e in s.posts.served
      ensures FromThisRun(s', e, s.posts.served[e])
    {
      assert FromThisRun(s, e, s.posts.served[e]);
    }
    forall a | a in s.attachers
      ensures ContextOfThisRun(s', a)
    {
      assert ContextOfThisRun(s, a);
    }
  }

  lemma StepKeepsSources(p: Policy, s: State, step: Step, origin: Row)
    requires p.alone && SourceInv(s) && BuildInv(s) && RowsFrom(s, origin) && !Terminal(origin.status) && OneRun(s)
    requires Enabled(p, s, step) && Apply(s, step).runs <= 1
    ensures SourceInv(Apply(s, step))
  {
    hide SourceInv, LookInv, PendingInv, RowsFrom, OneRun, Advance, ContextStep, MayStart, CanEnd, CanAdvance, Written,
         Noticed, Dispatched;
    PresentRow(s);
    match step
    case Look(event) => LookupKeepsSources(s, Apply(s, step));
    case Take(updates) => LookupKeepsSources(s, Apply(s, step));
    case Dispatching(i) => DispatchKeepsSources(s, i, origin);
    case Go => GoKeepsSources(s);
    case Record(any) => RecordKeepsSources(s, any);
    case End(ending) => EndKeepsSources(s, ending);
    case Switch(i) =>
    case Context(i) => ContextKeepsSources(s, i, origin);
    case Withdraw(_) =>
    case Notice(i) => NothingToNotice(s);
  }

  lemma PresentRow(s: State)
    requires LookInv(s)
    ensures s.row in s.history
  {
  }

  lemma {:induction false} RunKeepsSources(p: Policy, s0: State, steps: seq<Step>)
    requires p.alone && Init(s0) && s0.row.status == PENDING && Exec(p, s0, steps).Some?
    requires Exec(p, s0, steps).value.runs <= 1
    ensures SourceInv(Exec(p, s0, steps).value)
  {
    hide SourceInv, Inv, OneRun, BuildNotices, Init, Enabled, Apply, BuildInv, RowsFrom, AgreeInv;
    if steps == [] {
      InitSources(s0);
    } else {
      var s, step := Exec(p, s0, steps[..|steps| - 1]).value, steps[|steps| - 1];
      RunsGrow(p, s, step);
      RunKeepsSources(p, s0, steps[..|steps| - 1]);
      SingleRunKeepsInv(p, s0, steps[..|steps| - 1]);
      PendingRow(s0);
      StepKeepsSources(p, s, step, s0.row);
    }
  }

  lemma PendingRow(s: State)
    requires s.row.status == PENDING
    ensures !Terminal(s.row.status)
  {
  }

  /** One run of a new build: every event ends with the verdict of the run or with that of the row it wrote. Where they
      differ, a replay of a build cancelled while its attributes were built takes the evaluation back, and a replay of
      a failed evaluation that left attribute rows calls it a success. */
  lemma SingleRunVerdicts(p: Policy, s0: State, steps: seq<Step>)
    requires p.alone && Init(s0) && s0.row.status == PENDING && Exec(p, s0, steps).Some?
    requires Exec(p, s0, steps).value.runs <= 1 && Quiescent(Exec(p, s0, steps).value)
    ensures var s := Exec(p, s0, steps).value;
            var aggregated, status := s.runner.ending.Aggregated?, s.runner.ending.row.status;
            forall e :: Involved(s, e) ==>
              && e in s.posts.evals && var check := s.posts.evals[e];
              && (aggregated && status != CANCELLED ==> check == EvalFinished(true))
              && (aggregated && status == CANCELLED ==> check == EvalFinished(true) || check == EvalCancelled)
              && (!aggregated && status == CANCELLED ==> check == EvalCancelled)
              && (!aggregated && status == FAILED ==>
                    check == EvalFinished(false) || check == EvalFinished(s.attributes))
              && (aggregated || status != SUCCEEDED)
  {
    hide Init, Exec, Inv, RowsFrom, AgreeInv, OneRun, HonestPosts, LookInv;
    var s := Exec(p, s0, steps).value;
    RunKeepsSources(p, s0, steps);
    RunStaysHonest(p, s0, steps);
    SingleRunKeepsInv(p, s0, steps);
    SingleRunSettles(p, s0, steps);
    EndingStatus(p, s0, steps);
    forall e | Involved(s, e)
      ensures e in s.posts.served && e in s.posts.evals && Follows(s.posts.evals[e], s.posts.served[e])
      ensures FromThisRun(s, e, s.posts.served[e]) && s.posts.served[e] != ByStart
    {
      EveryoneServed(s, e);
      HonestPost(s, e);
      NotByStart(s);
    }
    assert s.row == s.runner.ending.row;
  }

  lemma HonestPost(s: State, e: ChangeEvent)
    requires HonestPosts(s.history, s.posts) && e in s.posts.served
    ensures e in s.posts.evals && Follows(s.posts.evals[e], s.posts.served[e])
  {
  }

  /** A run is not aborted with success. */
  predicate EndsWell(runner: Runner) {
    HasWritten(runner) && runner.ending.Aborted? ==> runner.ending.row.status != SUCCEEDED
  }

  ghost predicate AllEndWell(s: State) {
    EndsWell(s.runner) && forall o :: o in s.others ==> EndsWell(o.runner)
  }

  lemma StepEndsWell(p: Policy, s: State, step: Step)
    requires AllEndWell(s) && Enabled(p, s, step)
    ensures AllEndWell(Apply(s, step))
  {
    hide Advance, ContextStep, MayStart, Posted, Rest, Without;
    if step.Go? {
      GoKeepsEnding(s);
    } else if step.Context? {
      ContextFields(s, step.i);
    } else if step.Switch? {
      assert s.others[step.i] in s.others;
      forall o | o in Switched(s, step.i).others
        ensures EndsWell(o.runner)
      {
        assert o in s.others || o.runner == s.runner;
      }
    }
  }

  lemma GoKeepsEnding(s: State)
    requires CanAdvance(s)
    ensures var s' := Advance(s);
            && s'.others == s.others && (HasWritten(s'.runner) <==> HasWritten(s.runner))
            && (HasWritten(s.runner) ==> s'.runner.ending == s.runner.ending)
  {
    hide FanCheck, ResultRow, NewReport, Rest, PostEval, PostBuild, Posted;
  }

  lemma {:induction false} EndingStatus(p: Policy, s0: State, steps: seq<Step>)
    requires Init(s0) && Exec(p, s0, steps).Some?
    ensures AllEndWell(Exec(p, s0, steps).value)
  {
    hide AllEndWell, Enabled, Apply, Init;
    if steps == [] {
      StartsWell(s0);
    } else {
      EndingStatus(p, s0, steps[..|steps| - 1]);
      StepEndsWell(p, Exec(p, s0, steps[..|steps| - 1]).value, steps[|steps| - 1]);
    }
  }

  lemma StartsWell(s: State)
    requires Init(s)
    ensures AllEndWell(s)
  {
  }

  // ---------------------------------------------------------------------------
  // When the verdicts are one
  // ---------------------------------------------------------------------------

  /** All events end with the same nix-eval check. */
  ghost predicate OneVerdict(s: State) {
    forall e, f :: Involved(s, e) && Involved(s, f) ==>
      e in s.posts.evals && f in s.posts.evals && s.posts.evals[e] == s.posts.evals[f]
  }

  /** They do in every interleaving of one run of a new build that ends so. */
  ghost predicate AlwaysOneVerdict(aggregated: bool, status: BuildStatus, attributes: bool) {
    forall s0, s ::
      Init(s0) && s0.row.status == PENDING && Reaches(ALONE, s0, s) && s.runs <= 1 && Quiescent(s)
      && EndsSo(s, aggregated, status, attributes) ==>
        OneVerdict(s)
  }

  predicate EndsSo(s: State, aggregated: bool, status: BuildStatus, attributes: bool) {
    && HasWritten(s.runner) && s.runner.ending.Aggregated? == aggregated && s.runner.ending.row.status == status
    && s.attributes == attributes
  }

  /** Event 2 attaches while event 0 evaluates, with attribute rows recorded. */
  lemma AttachedEarly(evaluated: bool) returns (s: State)
    ensures Init(Fresh(E0)) && Reaches(ALONE, Fresh(E0), s)
    ensures && s.row == CREATED && s.attributes && s.slot && s.runs == 1 && s.own == E0 && s.owners == {E0}
            && s.others == [] && s.looking.None? && s.dispatches == [] && s.notices == [] && s.recorded == 0
            && s.runner == (if evaluated then Building else Evaluating)
            && s.linked == [E2] && s.attachers == [Appended(E2)] && s.posts.generation == 0
            && E0 in s.posts.evals && (evaluated ==> s.posts.evals[E0] == EvalFinished(true))
  {
    hide Reaches, Init;
    var s0 := Fresh(E0);
    FreshInit(E0);
    Nothing(ALONE, s0);
    FirstMayStart(ALONE, s0);
    s := Starts(ALONE, s0, s0);
    if evaluated {
      s := Evaluates(ALONE, s0, s);
    } else {
      Then(ALONE, s0, s, Record(true));
      s := s.(attributes := true);
    }
    s := Attaches(ALONE, s0, s, E2);
  }

  /** The context finds the terminal row before the run pops the list, and replays it up to its status. */
  lemma ReplaysNow(s0: State, s: State, e: ChangeEvent) returns (next: State)
    requires Reaches(ALONE, s0, s) && s.attachers == [Appended(e)] && s.linked == [e] && Terminal(s.row.status)
    requires s.posts.generation <= s.row.generation
    ensures Reaches(ALONE, s0, next)
    ensures next == s.(linked := [], attachers := [Done(e, s.row)], posts := next.posts)
    ensures && next.posts.evals == s.posts.evals[e := ReplayCheck(s.row, s.attributes)]
            && next.posts.generation == s.row.generation
  {
    hide Reaches, ReplayCheck;
    Then(ALONE, s0, s, Context(0));
    next := ContextStep(s, 0);
    Then(ALONE, s0, next, Context(0));
    next := ContextStep(next, 0);
    Then(ALONE, s0, next, Context(0));
    next := ContextStep(next, 0);
    next := Replayed(s0, next, e, s.row, ReplayCheck(s.row, s.attributes));
    assert s.posts.evals[e := EvalPending][e := ReplayCheck(s.row, s.attributes)]
        == s.posts.evals[e := ReplayCheck(s.row, s.attributes)];
  }

  lemma Replayed(s0: State, s: State, e: ChangeEvent, row: Row, check: EvalCheck) returns (next: State)
    requires Reaches(ALONE, s0, s) && s.posts.generation <= row.generation
    requires |s.attachers| == 1 && s.attachers[0].Replaying? && s.attachers[0].report.stage == AtEval
    requires s.attachers[0].report.event == e && s.attachers[0].report.row == row
             && s.attachers[0].report.check == check
    ensures Reaches(ALONE, s0, next)
    ensures next == s.(attachers := [Done(e, row)], posts := next.posts)
    ensures next.posts.evals == s.posts.evals[e := check] && next.posts.generation == row.generation
  {
    hide Reaches;
    Then(ALONE, s0, s, Context(0));
    next := ContextStep(s, 0);
    if check == EvalFinished(true) {
      Then(ALONE, s0, next, Context(0));
      next := ContextStep(next, 0);
    }
    next := ReplayedStatus(s0, next, e, row);
  }

  lemma ReplayedStatus(s0: State, s: State, e: ChangeEvent, row: Row) returns (next: State)
    requires Reaches(ALONE, s0, s) && s.posts.generation <= row.generation
    requires |s.attachers| == 1 && s.attachers[0].Replaying? && s.attachers[0].report.stage == AtGuard
    requires s.attachers[0].report.event == e && s.attachers[0].report.row == row
    ensures Reaches(ALONE, s0, next)
    ensures next == s.(attachers := [Done(e, row)], posts := next.posts)
    ensures next.posts.evals == s.posts.evals && next.posts.generation == row.generation
  {
    hide Reaches;
    Then(ALONE, s0, s, Context(0));
    next := ContextStep(s, 0);
    Then(ALONE, s0, next, Context(0));
    next := ContextStep(next, 0);
  }

  /** Cancelled while its attributes are built: the run's own event keeps its finished evaluation, the event that
      replays the row is told that it was cancelled. */
  lemma CancelledAfterEvaluation()
    ensures !AlwaysOneVerdict(true, CANCELLED, true)
  {
    hide Reaches, OneVerdict;
    var s0 := Fresh(E0);
    var s := AttachedEarly(true);
    var ending := Aggregated(Row(CANCELLED, 1));
    Then(ALONE, s0, s, End(ending));
    s := Written(s, ending);
    s := ReplaysNow(s0, s, E2);
    s := Reports(ALONE, s0, s);
    s := Releases(ALONE, s0, s);
    Goes(ALONE, s0, s);
    s := Advance(s);
    TwoVerdicts(s, E0, E2);
  }

  lemma TwoVerdicts(s: State, e: ChangeEvent, f: ChangeEvent)
    requires e in s.owners && |s.attachers| == 1 && EventOf(s.attachers[0]) == f
    requires e in s.posts.evals && f in s.posts.evals && s.posts.evals[e] != s.posts.evals[f]
    ensures !OneVerdict(s)
  {
    assert Involved(s, e) && Involved(s, f);
  }

  /** An aborted run posts to its own event, and ends: nobody is on the list. */
  lemma AbortsAlone(s0: State, s: State) returns (next: State)
    requires Reaches(ALONE, s0, s) && s.runner.Reporting? && s.runner.ending.Aborted? && s.linked == []
    requires s.runner.report == OwnReport(s, s.runner.ending) && s.runner.ending.row.status == FAILED
    requires s.posts.generation <= s.recorded
    ensures Reaches(ALONE, s0, next)
    ensures next == s.(epoch := s.epoch + 1, slot := false, runner := Ended(s.runner.ending), posts := next.posts)
    ensures next.posts.evals == s.posts.evals[s.own := EvalFinished(false)]
  {
    hide Reaches;
    Goes(ALONE, s0, s);
    next := Advance(s);
    Goes(ALONE, s0, next);
    next := Advance(next);
    Goes(ALONE, s0, next);
    next := Advance(next);
    next := PopsNobody(ALONE, s0, next);
  }

  /** Aborted with attribute rows recorded: the run's own event is told that the evaluation failed, the event that
      replays the row that it succeeded. */
  lemma FailedWithAttributes()
    ensures !AlwaysOneVerdict(false, FAILED, true)
  {
    hide Reaches, OneVerdict;
    var s0 := Fresh(E0);
    var s := AttachedEarly(false);
    var ending := Aborted(Row(FAILED, 0));
    Then(ALONE, s0, s, End(ending));
    s := Written(s, ending);
    s := ReplaysNow(s0, s, E2);
    s := AbortsAlone(s0, s);
    TwoVerdicts(s, E0, E2);
  }

  /** A run that fails after a finished evaluation takes its own success back. */
  lemma FailureTakesEvaluationBack() returns (mid: State, s: State)
    ensures Init(Fresh(E0)) && Reaches(ALONE, Fresh(E0), mid) && Reaches(ALONE, mid, s) && Quiescent(s)
    ensures E0 in mid.posts.evals && mid.posts.evals[E0] == EvalFinished(true) && mid.runner == Building
    ensures s.runner == Ended(Aborted(Row(FAILED, 0))) && E0 in s.posts.evals
            && s.posts.evals[E0] == EvalFinished(false)
  {
    hide Reaches;
    mid := AttachedEarly(true);
    Nothing(ALONE, mid);
    var ending := Aborted(Row(FAILED, 0));
    Then(ALONE, mid, mid, End(ending));
    s := Written(mid, ending);
    s := ReplaysNow(mid, s, E2);
    s := AbortsAlone(mid, s);
  }

  /** One run of a new build always tells every event the same of its evaluation if and only if it does not leave
      attribute rows behind when it is cancelled after evaluating or aborted as failed. */
  lemma VerdictExactly(aggregated: bool, status: BuildStatus, attributes: bool)
    ensures AlwaysOneVerdict(aggregated, status, attributes)
       <==> !(attributes && status == if aggregated then CANCELLED else FAILED)
  {
    hide Init, Quiescent, OneVerdict;
    if attributes && status == (if aggregated then CANCELLED else FAILED) {
      if aggregated {
        CancelledAfterEvaluation();
      } else {
        FailedWithAttributes();
      }
    } else {
      forall s0, s | Init(s0) && s0.row.status == PENDING && Reaches(ALONE, s0, s) && s.runs <= 1 && Quiescent(s)
                     && EndsSo(s, aggregated, status, attributes)
        ensures OneVerdict(s)
      {
        var steps :| Exec(ALONE, s0, steps) == Some(s);
        VerdictIsOne(s0, steps, aggregated, status, attributes);
      }
    }
  }

  /** With no rows left, cancellation after evaluating does not happen. */
  lemma VerdictIsOne(s0: State, steps: seq<Step>, aggregated: bool, status: BuildStatus, attributes: bool)
    requires Init(s0) && s0.row.status == PENDING && Exec(ALONE, s0, steps).Some?
    requires var s := Exec(ALONE, s0, steps).value;
             s.runs <= 1 && Quiescent(s) && EndsSo(s, aggregated, status, attributes)
    requires !(attributes && status == if aggregated then CANCELLED else FAILED)
    ensures OneVerdict(Exec(ALONE, s0, steps).value)
  {
    hide Init, Exec, Involved, HonestState;
    var s := Exec(ALONE, s0, steps).value;
    SingleRunVerdicts(ALONE, s0, steps);
    RunKeepsSources(ALONE, s0, steps);
    RunStaysHonest(ALONE, s0, steps);
    SingleRunKeepsInv(ALONE, s0, steps);
    WrittenRow(s);
  }

  lemma WrittenRow(s: State)
    requires CurrentInv(s) && HasWritten(s.runner)
    ensures s.row == s.runner.ending.row && Terminal(s.row.status)
  {
  }
}
