/** When the fan-out keeps its promise, exactly: each grant is needed, by a run without it. */
module FanoutRuns {
  import opened Wrappers
  import opened LinkedFanout
  import opened FanoutEval
  import opened FanoutLookup
  import opened FanoutBuild
  import opened FanoutAgreement

  /** Some interleaving takes the build from `s0` to `s`. */
  ghost predicate Reaches(p: Policy, s0: State, s: State) {
    exists steps :: Exec(p, s0, steps) == Some(s)
  }

  /** However runs and contexts interleave, once all are done no eval check is left pending. */
  ghost predicate EvalAlways(p: Policy) {
    forall s0, s :: Init(s0) && Reaches(p, s0, s) && Quiescent(s) ==> EvalSettled(s)
  }

  /** Nor any nix-build check. */
  ghost predicate BuildAlways(p: Policy) {
    forall s0, s :: Init(s0) && Reaches(p, s0, s) && Quiescent(s) ==> BuildSettled(s)
  }

  /** A single run from this row always leaves every event with the status it wrote. */
  ghost predicate AlwaysAgrees(row: Row) {
    forall s0, s :: Init(s0) && s0.row == row && Reaches(ALONE, s0, s) && s.runs <= 1 && Quiescent(s) ==> AllAgree(s)
  }

  // ---------------------------------------------------------------------------
  // Building runs
  // ---------------------------------------------------------------------------

  lemma Nothing(p: Policy, s0: State)
    ensures Reaches(p, s0, s0)
  {
    assert Exec(p, s0, []) == Some(s0);
  }

  lemma Then(p: Policy, s0: State, s: State, step: Step)
    requires Reaches(p, s0, s) && Enabled(p, s, step)
    ensures Reaches(p, s0, Apply(s, step))
  {
    hide Apply, CanAdvance, CanEnd, MayStart, Decide;
    var steps :| Exec(p, s0, steps) == Some(s);
    assert (steps + [step])[..|steps|] == steps;
    assert Exec(p, s0, steps + [step]) == Some(Apply(s, step));
  }

  lemma Goes(p: Policy, s0: State, s: State)
    requires Reaches(p, s0, s) && CanAdvance(s)
    ensures Reaches(p, s0, Advance(s))
  {
    hide Reaches, CanAdvance, Advance;
    Then(p, s0, s, Go);
  }

  /** The build as it is created, with its event to be dispatched. */
  const CREATED := Row(PENDING, 0)

  function Fresh(own: ChangeEvent): State {
    Before(CREATED, [Deciding(own, CREATED, true)])
  }

  function Before(row: Row, ds: seq<Deciding>): State {
    State(row, {row} + (set d | d in ds :: d.record), false, [], 0, 0, ChangeEvent(0), 0, Idle, [], false, None, ds, {},
          [], Posts(map[], map[], map[], 0), [])
  }

  lemma FreshInit(own: ChangeEvent)
    ensures Init(Fresh(own)) && Fresh(own).history == {CREATED}
  {
    var ds := [Deciding(own, CREATED, true)];
    assert First(CREATED, ds[0]);
    assert (set d | d in ds :: d.record) == {CREATED};
  }

  /** The first dispatch starts a run, which gets to the evaluation. */
  lemma Starts(p: Policy, s0: State, s: State) returns (next: State)
    requires Reaches(p, s0, s) && |s.dispatches| > 0
    requires var d := s.dispatches[0]; Decide(d.created, d.record.status, s.slot) == Run && MayStart(p, s)
    ensures Reaches(p, s0, next)
    ensures var d, row := s.dispatches[0], Row(PENDING, s.row.generation);
            next == Started(s, d.event, d.record).(
                      dispatches := s.dispatches[1..], row := row,
                      posts := PostEval(s.posts, d.event, EvalPending, ByStart),
                      history := s.history + {row}, runner := Evaluating)
  {
    hide Reaches, MayStart, Decide;
    Then(p, s0, s, Dispatching(0));
    next := Dispatched(s, 0);
    assert Without(s.dispatches, 0) == s.dispatches[1..];
    Goes(p, s0, next);
    next := Advance(next);
    Goes(p, s0, next);
    next := Advance(next);
    Goes(p, s0, next);
    next := Advance(next);
  }

  /** It evaluates, and records attribute rows. */
  lemma Evaluates(p: Policy, s0: State, s: State) returns (next: State)
    requires Reaches(p, s0, s) && s.runner.Evaluating?
    ensures Reaches(p, s0, next)
    ensures next == s.(attributes := true, runner := Building,
                       posts := PostBuild(PostEval(s.posts, s.own, EvalFinished(true), ByEvaluation), s.own, PENDING))
  {
    hide Reaches;
    Then(p, s0, s, Record(true));
    next := s.(attributes := true);
    Goes(p, s0, next);
    next := Advance(next);
    Goes(p, s0, next);
    next := Advance(next);
  }

  /** The status of this row, posted to the event. */
  function Final(p: Posts, e: ChangeEvent, row: Row): Posts {
    PostBuild(p.(generation := row.generation), e, row.status)
  }

  /** It aggregates, and reports to its own event. */
  lemma Aggregates(p: Policy, s0: State, s: State, row: Row) returns (next: State)
    requires Reaches(p, s0, s) && CanEnd(s, Aggregated(row)) && s.posts.generation <= row.generation
    ensures Reaches(p, s0, next)
    ensures next == s.(row := row, history := s.history + {row}, posts := Final(s.posts, s.own, row),
                       runner := Popping(Aggregated(row)))
  {
    hide Reaches, CanEnd;
    Then(p, s0, s, End(Aggregated(row)));
    next := Written(s, Aggregated(row));
    next := Reports(p, s0, next);
  }

  lemma Reports(p: Policy, s0: State, s: State) returns (next: State)
    requires Reaches(p, s0, s) && s.runner.Reporting? && s.runner.ending.Aggregated?
    requires s.runner.report == Report(s.own, EvalFinished(true), s.runner.ending.row, AtGuard, ByRun(s.runner.ending))
    requires s.posts.generation <= s.runner.ending.row.generation
    ensures Reaches(p, s0, next)
    ensures var row := s.runner.ending.row;
            next == s.(posts := Final(s.posts, s.own, row), runner := Popping(s.runner.ending))
  {
    hide Reaches;
    Goes(p, s0, s);
    next := Advance(s);
    Goes(p, s0, next);
    next := Advance(next);
  }

  /** It is cancelled between the two statements of a lookup for `e`, whose record is then the cancelled row. */
  lemma AggregatesInRace(p: Policy, s0: State, s: State, e: ChangeEvent) returns (next: State)
    requires Reaches(p, s0, s) && s.runner.Building? && s.row.status == PENDING && s.looking.None? && s.attributes
    ensures Reaches(p, s0, next)
    ensures var row := Row(CANCELLED, s.row.generation + 1);
            next == s.(row := row, history := s.history + {row}, dispatches := s.dispatches + [Deciding(e, row, false)],
                       runner := Reporting(Aggregated(row), OwnReport(s, Aggregated(row))))
  {
    hide Reaches;
    var ending := Aggregated(Row(CANCELLED, s.row.generation + 1));
    Then(p, s0, s, Look(e));
    next := s.(looking := Some(Lookup(e, s.row)));
    Then(p, s0, next, End(ending));
    next := Written(next, ending);
    Then(p, s0, next, Take(true));
    next := Taken(next, true);
  }

  /** It is cancelled while it evaluates, and ends: nobody is on the list. */
  lemma Cancels(p: Policy, s0: State, s: State) returns (next: State)
    requires Reaches(p, s0, s) && s.runner.Evaluating? && s.posts.generation <= s.recorded && s.linked == []
    ensures Reaches(p, s0, next)
    ensures var row := Row(CANCELLED, s.row.generation);
            next == s.(row := row, history := s.history + {row},
                       posts := Final(PostEval(s.posts, s.own, EvalCancelled, ByRun(Aborted(row))), s.own,
                                      Row(CANCELLED, s.recorded)),
                       epoch := s.epoch + 1, slot := false, runner := Ended(Aborted(row)))
  {
    hide Reaches;
    var ending := Aborted(Row(CANCELLED, s.row.generation));
    Then(p, s0, s, End(ending));
    next := Written(s, ending);
    Goes(p, s0, next);
    next := Advance(next);
    Goes(p, s0, next);
    next := Advance(next);
    Goes(p, s0, next);
    next := Advance(next);
    next := PopsNobody(p, s0, next);
  }

  /** It fails while it builds, with a record that is behind: its own status is dropped. */
  lemma FailsStale(p: Policy, s0: State, s: State) returns (next: State)
    requires Reaches(p, s0, s) && s.runner.Building? && s.recorded < s.posts.generation && s.linked == []
    requires s.row.status == PENDING
    ensures Reaches(p, s0, next)
    ensures var row := Row(FAILED, s.row.generation);
            next == s.(row := row, history := s.history + {row},
                       posts := PostEval(s.posts, s.own, EvalFinished(false), ByRun(Aborted(row))),
                       epoch := s.epoch + 1, slot := false, runner := Ended(Aborted(row)))
  {
    hide Reaches;
    var ending := Aborted(Row(FAILED, s.row.generation));
    Then(p, s0, s, End(ending));
    next := Written(s, ending);
    Goes(p, s0, next);
    next := Advance(next);
    Goes(p, s0, next);
    next := Advance(next);
    next := PopsNobody(p, s0, next);
  }

  /** An empty fan-out of an aborted run, to its end. */
  lemma PopsNobody(p: Policy, s0: State, s: State) returns (next: State)
    requires Reaches(p, s0, s) && s.runner.Popping? && s.runner.ending.Aborted? && s.linked == []
    ensures Reaches(p, s0, next) && next == s.(epoch := s.epoch + 1, slot := false, runner := Ended(s.runner.ending))
  {
    hide Reaches;
    Goes(p, s0, s);
    next := Advance(s);
    Goes(p, s0, next);
    next := Advance(next);
    Goes(p, s0, next);
    next := Advance(next);
  }

  /** An empty fan-out of an aggregated run, up to the release of its slot. */
  lemma Releases(p: Policy, s0: State, s: State) returns (next: State)
    requires Reaches(p, s0, s) && s.runner.Popping? && s.runner.ending.Aggregated? && s.linked == []
    ensures Reaches(p, s0, next)
    ensures next == s.(epoch := s.epoch + 1, slot := false, runner := Released(s.runner.ending))
  {
    hide Reaches;
    Goes(p, s0, s);
    next := Advance(s);
    Goes(p, s0, next);
    next := Advance(next);
  }

  /** A fan-out to the one event on the list, to the end of the run. */
  lemma Serves(p: Policy, s0: State, s: State, e: ChangeEvent) returns (next: State)
    requires Reaches(p, s0, s) && s.runner.Popping? && s.runner.ending.Aggregated? && s.linked == [e]
    requires s.posts.generation == s.runner.ending.row.generation
    ensures Reaches(p, s0, next)
    ensures var posts := PostEval(s.posts, e, EvalFinished(true), ByRun(s.runner.ending));
            next == s.(linked := [], epoch := s.epoch + 1, posts := Final(posts, e, s.runner.ending.row), slot := false,
                       runner := Ended(s.runner.ending))
  {
    hide Reaches;
    Goes(p, s0, s);
    next := Advance(s);
    Goes(p, s0, next);
    next := Advance(next);
    Goes(p, s0, next);
    next := Advance(next);
    Goes(p, s0, next);
    next := Advance(next);
    next := ServesRest(p, s0, next, e, PostEval(s.posts, e, EvalFinished(true), ByRun(s.runner.ending)));
  }

  lemma ServesRest(p: Policy, s0: State, s: State, e: ChangeEvent, posts: Posts)
      returns (next: State)
    requires Reaches(p, s0, s) && s.runner.Fanning? && s.runner.ending.Aggregated? && s.linked == []
    requires s.posts == PostBuild(posts, e, PENDING) && s.posts.generation == s.runner.ending.row.generation
    requires s.runner.left == []
    requires s.runner.current == Some(Report(e, EvalFinished(true), s.runner.ending.row, AtGuard,
                                             ByRun(s.runner.ending)))
    ensures Reaches(p, s0, next)
    ensures next == s.(posts := Final(posts, e, s.runner.ending.row), slot := false, runner := Ended(s.runner.ending))
  {
    hide Reaches;
    Goes(p, s0, s);
    next := Advance(s);
    Goes(p, s0, next);
    next := Advance(next);
    Goes(p, s0, next);
    next := Advance(next);
    Goes(p, s0, next);
    next := Advance(next);
    assert posts.builds[e := PENDING][e := s.runner.ending.row.status] == posts.builds[e := s.runner.ending.row.status];
  }

  // ---------------------------------------------------------------------------
  // Each grant is needed
  // ---------------------------------------------------------------------------

  const E0 := ChangeEvent(0)
  const E1 := ChangeEvent(1)
  const E2 := ChangeEvent(2)

  /** A context attaches to a build whose row is pending and whose slot is held. */
  lemma Attaches(p: Policy, s0: State, s: State, e: ChangeEvent) returns (next: State)
    requires Reaches(p, s0, s) && s.row.status == PENDING && s.slot && s.looking.None? && s.dispatches == []
    ensures Reaches(p, s0, next)
    ensures next == s.(linked := s.linked + [e], attachers := s.attachers + [Appended(e)])
  {
    hide Reaches;
    Then(p, s0, s, Look(e));
    next := s.(looking := Some(Lookup(e, s.row)));
    Then(p, s0, next, Take(false));
    next := Taken(next, false);
    Then(p, s0, next, Dispatching(0));
    next := Dispatched(next, 0);
  }

  /** A new build, run once by event 0: evaluated, aggregated as cancelled while event 1 looks it up, reported and
      not yet fanned out. Event 2 may attach while attributes build. */
  lemma FirstRun(p: Policy, attaches: bool) returns (s: State)
    ensures Init(Fresh(E0)) && Reaches(p, Fresh(E0), s)
    ensures && s.row == Row(CANCELLED, 1) && s.dispatches == [Deciding(E1, s.row, false)]
            && s.linked == (if attaches then [E2] else []) && s.attachers == (if attaches then [Appended(E2)] else [])
            && s.epoch == 0 && s.others == [] && s.slot && s.looking.None? && s.notices == [] && s.recorded == 0
            && s.posts.generation == 1 && s.runner == Popping(Aggregated(s.row)) && s.own == E0
  {
    hide Reaches, Init, OneFirst;
    var s0 := Fresh(E0);
    FreshInit(E0);
    Nothing(p, s0);
    FirstMayStart(p, s0);
    s := Starts(p, s0, s0);
    s := Evaluates(p, s0, s);
    if attaches {
      s := Attaches(p, s0, s, E2);
    }
    s := AggregatesInRace(p, s0, s, E1);
    s := Reports(p, s0, s);
  }

  lemma FirstMayStart(p: Policy, s: State)
    requires s.attachers == [] && Over(s.runner) && s.others == []
    ensures MayStart(p, s)
  {
  }

  /** The turn goes to the run that has released its slot: it frees the slot again, and clears the list. */
  lemma ReleasedEnds(p: Policy, s0: State, s: State) returns (next: State)
    requires Reaches(p, s0, s) && |s.others| == 1 && s.others[0].runner.Released?
    ensures Reaches(p, s0, next)
    ensures var o := s.others[0];
            next == s.(others := [o.(runner := Ended(o.runner.ending))], linked := [], slot := false)
  {
    hide Reaches;
    Then(p, s0, s, Switch(0));
    next := Switched(s, 0);
    Goes(p, s0, next);
    next := Advance(next);
    Then(p, s0, next, Switch(0));
    next := Switched(next, 0);
  }

  /** The second run starts in the window between the release of the slot and the clearing; the context that
      attaches to it loses its list entry to the clearing. */
  lemma ClearingLosesContext(p: Policy)
    requires !p.cleared
    ensures !EvalAlways(p)
  {
    hide Reaches, EvalSettled, Started;
    var s0 := Fresh(E0);
    var s := FirstRun(p, false);
    s := Releases(p, s0, s);
    assert MayStart(p, s);
    s := Beside(p, s0, s);
    s := Attaches(p, s0, s, E2);
    s := Detaches(p, s0, s, E2);
    s := ReleasedEnds(p, s0, s);
    s := Cancels(p, s0, s);
    StaysPending(s, E2);
  }

  /** The dispatch of a cancelled record starts a run beside the one that has released its slot. */
  lemma Beside(p: Policy, s0: State, s: State) returns (next: State)
    requires Reaches(p, s0, s) && s.runner.Released? && s.others == [] && !s.slot && MayStart(p, s)
    requires |s.dispatches| == 1 && !s.dispatches[0].created && s.dispatches[0].record == s.row
    requires s.row.status == CANCELLED
    ensures Reaches(p, s0, next)
    ensures var e, row := s.dispatches[0].event, Row(PENDING, s.row.generation);
            next == s.(runs := s.runs + 1, own := e, recorded := s.row.generation, owners := s.owners + {e},
                       others := [Earlier(s.own, s.recorded, s.runner)], slot := true, dispatches := [],
                       posts := PostEval(s.posts, e, EvalPending, ByStart), row := row, history := s.history + {row},
                       runner := Evaluating)
  {
    hide Reaches, MayStart;
    next := Starts(p, s0, s);
  }

  /** The context announces itself and reads a pending row. */
  lemma Detaches(p: Policy, s0: State, s: State, e: ChangeEvent) returns (next: State)
    requires Reaches(p, s0, s) && s.attachers == [Appended(e)] && s.row.status == PENDING
    ensures Reaches(p, s0, next)
    ensures next == s.(attachers := [Detached(e, s.epoch)], posts := PostEval(s.posts, e, EvalPending, ByStart))
  {
    hide Reaches;
    Then(p, s0, s, Context(0));
    next := ContextStep(s, 0);
    Then(p, s0, next, Context(0));
    next := ContextStep(next, 0);
  }

  lemma StaysPending(s: State, e: ChangeEvent)
    requires s.attachers != [] && EventOf(s.attachers[0]) == e && e in s.posts.evals && s.posts.evals[e] == EvalPending
    ensures !EvalSettled(s)
  {
    assert Involved(s, e) && !EvalResolved(s, e);
  }

  /** The first run serves a context before it has announced itself; the second run starts, so the context
      finds a pending row, and is on no list. */
  lemma LateContextLost(p: Policy)
    requires !p.listed
    ensures !EvalAlways(p)
  {
    hide Reaches, EvalSettled;
    var s0 := Fresh(E0);
    var s := ServedEarly(p);
    Then(p, s0, s, Context(0));
    s := ContextStep(s, 0);
    s := Cancels(p, s0, s);
    StaysPending(s, E2);
  }

  /** The context has announced itself after it was served, and the second run evaluates. */
  lemma ServedEarly(p: Policy) returns (s: State)
    requires !p.listed
    ensures Init(Fresh(E0)) && Reaches(p, Fresh(E0), s)
    ensures && s.runner == Evaluating && s.row.status == PENDING && s.attachers == [Announced(E2)] && s.linked == []
            && s.posts.generation <= s.recorded && s.own == E1 && E2 in s.posts.evals
            && s.posts.evals[E2] == EvalPending && s.dispatches == [] && s.looking.None? && s.notices == []
            && forall o :: o in s.others ==> o.runner.Ended?
  {
    hide Reaches, Entries, Init;
    var s0 := Fresh(E0);
    s := FirstRun(p, true);
    s := Serves(p, s0, s, E2);
    Then(p, s0, s, Context(0));
    s := ContextStep(s, 0);
    assert MayStart(p, s);
    s := Starts(p, s0, s);
  }

  /** The first run frees the slot of the second a second time; the second aggregates as cancelled while event 2
      looks it up, and event 2 starts a third run beside it, whose status overtakes that of the second: it is
      dropped. */
  lemma SlotFreedTwice(p: Policy)
    requires !p.cleared
    ensures !BuildAlways(p)
  {
    hide Reaches, BuildSettled;
    var s0 := Fresh(E0);
    var s := SecondRun(p);
    s := ThirdRun(p, s0, s);
    Then(p, s0, s, Switch(1));
    s := Switched(s, 1);
    Goes(p, s0, s);
    s := Advance(s);
    s := Releases(p, s0, s);
    Goes(p, s0, s);
    s := Advance(s);
    NotSettled(s, E1);
  }

  /** The second run has written, not yet reported, and lost its slot. */
  lemma SecondRun(p: Policy) returns (s: State)
    requires !p.cleared
    ensures Init(Fresh(E0)) && Reaches(p, Fresh(E0), s)
    ensures && s.row == Row(CANCELLED, 2) && s.dispatches == [Deciding(E2, s.row, false)] && s.own == E1
            && s.runner == Reporting(Aggregated(s.row),
                                     Report(E1, EvalFinished(true), s.row, AtGuard, ByRun(Aggregated(s.row))))
            && |s.others| == 1 && s.others[0].runner.Ended? && BuildPending(s, E1) && s.posts.generation == 1
            && s.linked == [] && s.attachers == [] && !s.slot && s.looking.None? && s.notices == []
  {
    hide Reaches;
    var s0 := Fresh(E0);
    s := FirstRun(p, false);
    s := Releases(p, s0, s);
    assert MayStart(p, s);
    s := Beside(p, s0, s);
    s := Evaluates(p, s0, s);
    s := ReleasedEnds(p, s0, s);
    s := AggregatesInRace(p, s0, s, E2);
  }

  lemma ThirdRun(p: Policy, s0: State, s: State) returns (next: State)
    requires !p.cleared && Reaches(p, s0, s)
    requires && s.row == Row(CANCELLED, 2) && s.dispatches == [Deciding(E2, s.row, false)] && s.own == E1
             && s.runner == Reporting(Aggregated(s.row),
                                      Report(E1, EvalFinished(true), s.row, AtGuard, ByRun(Aggregated(s.row))))
             && |s.others| == 1 && s.others[0].runner.Ended? && BuildPending(s, E1) && s.posts.generation == 1
             && s.linked == [] && s.attachers == [] && !s.slot && s.looking.None? && s.notices == []
    ensures Reaches(p, s0, next)
    ensures && next.runner.Ended? && |next.others| == 2 && next.others[0].runner.Ended?
            && next.others[1] == Earlier(E1, s.recorded, s.runner) && BuildPending(next, E1)
            && next.posts.generation == 3 && next.linked == [] && next.attachers == [] && next.dispatches == []
            && next.looking.None? && next.notices == []
  {
    hide Reaches;
    assert MayStart(p, s);
    next := Starts(p, s0, s);
    next := Evaluates(p, s0, next);
    next := Aggregates(p, s0, next, Row(SUCCEEDED, 3));
    next := Releases(p, s0, next);
    Goes(p, s0, next);
    next := Advance(next);
  }

  /** The build is cancelled from outside before its event is dispatched: the run has the old generation in its
      record, and when it fails its status is dropped. */
  lemma OutsideCancelDrops(p: Policy)
    requires !p.alone
    ensures !BuildAlways(p)
  {
    hide Reaches, BuildSettled;
    var s0 := Fresh(E0);
    var s := CancelledBefore(p);
    FirstMayStart(p, s);
    s := Starts(p, s0, s);
    s := Evaluates(p, s0, s);
    s := FailsStale(p, s0, s);
    NotSettled(s, E0);
  }

  lemma CancelledBefore(p: Policy) returns (s: State)
    requires !p.alone
    ensures Init(Fresh(E0)) && Reaches(p, Fresh(E0), s)
    ensures && s.row == Row(CANCELLED, 1) && s.dispatches == [Deciding(E0, CREATED, true)] && s.runner == Idle
            && s.others == [] && s.linked == [] && s.attachers == [] && !s.slot && s.looking.None? && s.notices == []
            && s.posts.generation == 1
  {
    hide Reaches, Init;
    var s0 := Fresh(E0);
    FreshInit(E0);
    Nothing(p, s0);
    Then(p, s0, s0, Withdraw(E0));
    s := Withdrawn(s0, E0);
    Then(p, s0, s, Notice(0));
    s := Noticed(s, 0);
    Then(p, s0, s, Notice(0));
    s := Noticed(s, 0);
  }

  lemma NotSettled(s: State, e: ChangeEvent)
    requires BuildPending(s, e)
    ensures !BuildSettled(s)
  {
  }

  // ---------------------------------------------------------------------------
  // The exact conditions
  // ---------------------------------------------------------------------------

  /** Nobody's eval check stays pending, however runs and contexts interleave, if and only if a run starts just
      when earlier runs are over and every context still attaching is on the list. */
  lemma EvalExactly(p: Policy)
    ensures EvalAlways(p) <==> p.cleared && p.listed
  {
    hide Init, Quiescent, EvalSettled;
    if p.cleared && p.listed {
      forall s0, s | Init(s0) && Reaches(p, s0, s) && Quiescent(s)
        ensures EvalSettled(s)
      {
        var steps :| Exec(p, s0, steps) == Some(s);
        NobodyStaysPending(p, s0, steps);
      }
    } else if p.cleared {
      LateContextLost(p);
    } else {
      ClearingLosesContext(p);
    }
  }

  /** Nobody's nix-build check stays pending if and only if a run starts just when earlier runs are over, and the
      build is not cancelled from outside. */
  lemma BuildExactly(p: Policy)
    ensures BuildAlways(p) <==> p.cleared && p.alone
  {
    hide Init, Quiescent, BuildSettled;
    if p.cleared && p.alone {
      forall s0, s | Init(s0) && Reaches(p, s0, s) && Quiescent(s)
        ensures BuildSettled(s)
      {
        var steps :| Exec(p, s0, steps) == Some(s);
        NoBuildStaysPending(p, s0, steps);
      }
    } else if p.alone {
      SlotFreedTwice(p);
    } else {
      OutsideCancelDrops(p);
    }
  }

  // ---------------------------------------------------------------------------
  // Early readers
  // ---------------------------------------------------------------------------

  /** How a cancelled row comes to be run: while attributes of a new build are built, event 2 looks it up, then event
      1 does, and meanwhile it is cancelled. Once the run is over, both are still to be dispatched, and the record of
      event 1 is the present row. */
  lemma RaceLeavesRecord() returns (s: State)
    ensures Init(Fresh(E0)) && Reaches(ALONE, Fresh(E0), s)
    ensures && s.runner.Ended? && s.others == [] && !s.slot && s.looking.None? && s.linked == [] && s.attachers == []
            && s.row.status == CANCELLED && OneFirst(s.row, s.dispatches)
            && s.dispatches == [Deciding(E2, CREATED, false), Deciding(E1, s.row, false)]
  {
    hide Reaches, Init;
    var s0 := Fresh(E0);
    FreshInit(E0);
    Nothing(ALONE, s0);
    FirstMayStart(ALONE, s0);
    s := Starts(ALONE, s0, s0);
    s := Evaluates(ALONE, s0, s);
    Then(ALONE, s0, s, Look(E2));
    s := s.(looking := Some(Lookup(E2, s.row)));
    Then(ALONE, s0, s, Take(false));
    s := Taken(s, false);
    s := AggregatesInRace(ALONE, s0, s, E1);
    s := Reports(ALONE, s0, s);
    s := Releases(ALONE, s0, s);
    Goes(ALONE, s0, s);
    s := Advance(s);
    assert First(s.row, s.dispatches[1]) && Waiting(s.row, s.dispatches[0]);
  }

  /** What that leaves, for any cancelled row. */
  function Raced(row: Row): State {
    Before(row, [Deciding(E2, Row(PENDING, row.generation), false), Deciding(E1, row, false)])
  }

  lemma RacedInit(row: Row)
    requires row.status == CANCELLED
    ensures Init(Raced(row))
  {
    var ds := Raced(row).dispatches;
    assert First(row, ds[1]) && Waiting(row, ds[0]);
  }

  /** From a cancelled row, a context that reads it before the run has reset it ends with the old cancellation. */
  lemma EarlyReadDisagrees(row: Row)
    requires row.status == CANCELLED
    ensures !AlwaysAgrees(row)
  {
    hide Reaches, AllAgree, Init, OneFirst;
    var s0 := Raced(row);
    RacedInit(row);
    var s := ReadsEarly(row);
    s := ReplaysOld(s0, s, E2, row);
    s := Evaluates(ALONE, s0, s);
    s := Aggregates(ALONE, s0, s, Row(SUCCEEDED, row.generation + 1));
    s := Releases(ALONE, s0, s);
    Goes(ALONE, s0, s);
    s := Advance(s);
    Disagrees(s, E2);
  }

  /** Event 1 runs the build; event 2 attaches and reads the row before the run has reset it. */
  lemma ReadsEarly(row: Row) returns (s: State)
    requires row.status == CANCELLED
    ensures var s0, next := Raced(row), Row(PENDING, row.generation);
            && Reaches(ALONE, s0, s)
            && s == Started(s0, E1, row).(
                      dispatches := [], row := next,
                      posts := PostEval(PostEval(s0.posts, E1, EvalPending, ByStart), E2, EvalPending, ByStart),
                      history := s0.history + {next}, runner := Evaluating, linked := [E2],
                      attachers := [SawTerminal(E2, row)])
  {
    hide Reaches;
    var s0 := Raced(row);
    s := AttachesEarly(row);
    Then(ALONE, s0, s, Context(0));
    s := ContextStep(s, 0);
    Then(ALONE, s0, s, Context(0));
    s := ContextStep(s, 0);
    Goes(ALONE, s0, s);
    s := Advance(s);
    Goes(ALONE, s0, s);
    s := Advance(s);
  }

  lemma AttachesEarly(row: Row) returns (s: State)
    requires row.status == CANCELLED
    ensures var s0 := Raced(row);
            && Reaches(ALONE, s0, s)
            && s == Started(s0, E1, row).(dispatches := [], posts := PostEval(s0.posts, E1, EvalPending, ByStart),
                                          runner := Resetting, linked := [E2], attachers := [Appended(E2)])
  {
    hide Reaches;
    var s0 := Raced(row);
    Nothing(ALONE, s0);
    Then(ALONE, s0, s0, Dispatching(1));
    s := Dispatched(s0, 1);
    Goes(ALONE, s0, s);
    s := Advance(s);
    Then(ALONE, s0, s, Dispatching(0));
    s := Dispatched(s, 0);
  }

  lemma ReplaysOld(s0: State, s: State, e: ChangeEvent, row: Row) returns (next: State)
    requires Reaches(ALONE, s0, s) && s.attachers == [SawTerminal(e, row)] && s.linked == [e]
    requires row.status == CANCELLED && s.posts.generation <= row.generation
    ensures Reaches(ALONE, s0, next)
    ensures next == s.(linked := [], attachers := [Done(e, row)],
                       posts := Final(PostEval(s.posts, e, EvalCancelled, ByRow(row, s.attributes)), e, row))
  {
    hide Reaches;
    Then(ALONE, s0, s, Context(0));
    next := ContextStep(s, 0);
    Then(ALONE, s0, next, Context(0));
    next := ContextStep(next, 0);
    Then(ALONE, s0, next, Context(0));
    next := ContextStep(next, 0);
    Then(ALONE, s0, next, Context(0));
    next := ContextStep(next, 0);
  }

  lemma Disagrees(s: State, e: ChangeEvent)
    requires s.attachers != [] && EventOf(s.attachers[0]) == e && e in s.posts.builds
             && s.posts.builds[e] != s.row.status
    ensures !AllAgree(s)
  {
    assert Involved(s, e) && !BuildAgrees(s, e);
  }

  /** A single run always leaves every event with its status if and only if the row it starts from is fresh. */
  lemma AgreementExactly(row: Row)
    requires row.status == PENDING || row.status == CANCELLED
    ensures AlwaysAgrees(row) <==> row.status == PENDING
  {
    hide Init, Quiescent, AllAgree;
    if row.status == PENDING {
      forall s0, s | Init(s0) && s0.row == row && Reaches(ALONE, s0, s) && s.runs <= 1 && Quiescent(s)
        ensures AllAgree(s)
      {
        var steps :| Exec(ALONE, s0, steps) == Some(s);
        FreshRunAgrees(ALONE, s0, steps);
      }
    } else {
      EarlyReadDisagrees(row);
    }
  }
}
