/** The rows of a build have one writer, unless it is cancelled from outside: at most one record is outstanding
    that starts a run, and it is the present row. */
module FanoutLookup {
  import opened Wrappers
  import opened LinkedFanout

  /** A post changes what is posted, and nothing else. */
  lemma PerformChanges(s: State, r: Report)
    ensures var s' := Perform(s, r);
            s' == s.(posts := s'.posts)
  {
  }

  /** A context's step changes its own state, the list, and what is posted. */
  lemma ContextFields(s: State, i: nat)
    requires i < |s.attachers|
    ensures var s', a := ContextStep(s, i), s.attachers[i];
            && |s'.attachers| == |s.attachers| && s'.attachers == s.attachers[i := s'.attachers[i]]
            && s' == s.(attachers := s'.attachers, linked := s'.linked, posts := s'.posts)
            && s'.linked == (if a.SawTerminal? then RemoveEvent(s.linked, a.event) else s.linked)
  {
    hide RemoveEvent, ReplayCheck, Rest, Perform;
    if s.attachers[i].Replaying? {
      PerformChanges(s, s.attachers[i].report);
    }
  }

  /** Between its start and its terminal write. */
  predicate Working(runner: Runner) {
    || runner.Starting? || runner.Resetting? || runner.Claiming? || runner.Evaluating? || runner.Evaluated?
    || runner.Building?
  }

  predicate NoneWorks(s: State) {
    !Working(s.runner) && forall o :: o in s.others ==> !Working(o.runner)
  }

  /** At most one run works. */
  ghost predicate OneWorks(s: State) {
    && (Working(s.runner) ==> forall o :: o in s.others ==> !Working(o.runner))
    && (forall i, j :: 0 <= i < j < |s.others| ==> !(Working(s.others[i].runner) && Working(s.others[j].runner)))
  }

  ghost predicate NoneRunnable(ds: seq<Deciding>) {
    forall d :: d in ds ==> !Runnable(d)
  }

  ghost predicate OneRunnable(ds: seq<Deciding>) {
    forall i, j :: 0 <= i < j < |ds| ==> !(Runnable(ds[i]) && Runnable(ds[j]))
  }

  /** A record that starts a run is the present row, and no run works on it. */
  predicate Current(s: State, d: Deciding) {
    Runnable(d) ==> d.record == s.row && NoneWorks(s) && s.row.status == if d.created then PENDING else CANCELLED
  }

  /** A lookup that has found the row is the only one; were it cancelled since, no other record of that is out. */
  ghost predicate LookingInv(s: State) {
    s.looking.Some? ==>
      && s.looking.value.found in s.history && s.looking.value.found.status != CANCELLED
      && (s.row.status == CANCELLED ==> NoneWorks(s) && NoneRunnable(s.dispatches))
  }

  ghost predicate LookInv(s: State) {
    && s.row in s.history && s.notices == [] && OneWorks(s) && OneRunnable(s.dispatches) && LookingInv(s)
    && forall d :: d in s.dispatches ==> d.record in s.history && Current(s, d)
  }

  lemma InitLook(s: State)
    requires Init(s)
    ensures LookInv(s)
  {
  }

  lemma TakeKeepsLook(s: State, updates: bool)
    requires LookInv(s) && s.looking.Some?
    ensures LookInv(Taken(s, updates))
  {
    hide OneWorks, Working;
    var s' := Taken(s, updates);
    assert s'.runner == s.runner && s'.others == s.others;
    assert OneWorks(s') by {
      SameRuns(s, s');
    }
    forall d | d in s'.dispatches
      ensures d.record in s'.history && Current(s', d)
    {
      if d in s.dispatches {
        assert Current(s, d);
      }
    }
    TakenIsOne(s, updates);
  }

  lemma TakenIsOne(s: State, updates: bool)
    requires LookInv(s) && s.looking.Some?
    ensures OneRunnable(Taken(s, updates).dispatches)
  {
    hide OneWorks, Working, NoneWorks, Current;
    var s' := Taken(s, updates);
    var n := |s.dispatches|;
    forall i, j | 0 <= i < j < n + 1
      ensures !(Runnable(s'.dispatches[i]) && Runnable(s'.dispatches[j]))
    {
      assert s'.dispatches[i] == s.dispatches[i] && s.dispatches[i] in s.dispatches;
      if j == n && Runnable(s'.dispatches[n]) {
        assert s.row.status == CANCELLED;
      }
    }
  }

  lemma SameRuns(s: State, s': State)
    requires OneWorks(s) && s'.runner == s.runner && s'.others == s.others
    ensures OneWorks(s')
  {
  }

  lemma WithoutOne(ds: seq<Deciding>, i: nat)
    requires i < |ds| && OneRunnable(ds)
    ensures OneRunnable(Without(ds, i))
    ensures forall d :: d in Without(ds, i) ==> d in ds
    ensures Runnable(ds[i]) ==> NoneRunnable(Without(ds, i))
  {
    hide Runnable;
    var rest := Without(ds, i);
    forall k | 0 <= k < |rest|
      ensures rest[k] == ds[if k < i then k else k + 1]
    {
    }
  }

  lemma DispatchKeepsLook(s: State, i: nat)
    requires LookInv(s) && i < |s.dispatches|
    ensures LookInv(Dispatched(s, i))
  {
    hide Working, Runnable, Without, OneRunnable;
    var s', d := Dispatched(s, i), s.dispatches[i];
    WithoutOne(s.dispatches, i);
    if Decide(d.created, d.record.status, s.slot) == Run {
      RunsAreRunnable(d, s.slot);
      assert Current(s, d);
      StartIsOne(s, s');
    } else {
      SameRuns(s, s');
    }
  }

  /** What an event does with the record of its lookup: it runs a build it has created, or a cancelled one that no run
      works on; it replays a decided one at once, without announcing itself; it joins the list of any other. */
  lemma DispatchExactly(s: State, i: nat)
    requires i < |s.dispatches|
    ensures var s', d := Dispatched(s, i), s.dispatches[i];
            && s'.dispatches == s.dispatches[..i] + s.dispatches[i + 1..] && s'.posts == s.posts && s'.row == s.row
            && if d.created || (d.record.status == CANCELLED && !s.slot) then
                 && s'.runs == s.runs + 1 && s'.own == d.event && s'.recorded == d.record.generation
                 && s'.runner == Starting && s'.slot && s'.linked == s.linked && s'.attachers == s.attachers
               else if d.record.status == SUCCEEDED || d.record.status == FAILED then
                 && s'.runs == s.runs && s'.runner == s.runner && s'.linked == s.linked
                 && |s'.attachers| == |s.attachers| + 1 && s'.attachers[..|s.attachers|] == s.attachers
                 && var a := s'.attachers[|s.attachers|];
                    a.Replaying? && a.report.event == d.event && a.report.row == d.record && a.report.stage == AtEval
               else
                 && s'.runs == s.runs && s'.runner == s.runner && s'.linked == s.linked + [d.event]
                 && s'.attachers == s.attachers + [Appended(d.event)]
  {
    hide ReplayCheck;
  }

  lemma RunsAreRunnable(d: Deciding, slot: bool)
    requires Decide(d.created, d.record.status, slot) == Run
    ensures Runnable(d)
  {
  }

  /** The new run is the only one that works. */
  lemma StartIsOne(s: State, s': State)
    requires NoneWorks(s) && s'.runner == Starting
    requires s'.others == if Over(s.runner) then s.others else s.others + [Earlier(s.own, s.recorded, s.runner)]
    ensures OneWorks(s')
  {
  }

  lemma GoKeepsLook(s: State)
    requires LookInv(s) && CanAdvance(s)
    ensures LookInv(Advance(s))
  {
    hide FanCheck, ResultRow, NewReport, Perform, Rest, OneWorks, NoneRunnable, OneRunnable, Runnable;
    var s' := Advance(s);
    GoMovesRow(s);
    assert OneWorks(s') by {
      RunKeepsOne(s, s');
    }
  }

  lemma GoMovesRow(s: State)
    requires CanAdvance(s)
    ensures var s' := Advance(s);
            && s'.others == s.others && s'.dispatches == s.dispatches && s'.looking == s.looking
            && s'.notices == s.notices && (Working(s'.runner) <==> Working(s.runner))
            && (if s.runner.Resetting? then
                  s'.row == Row(PENDING, s.row.generation) && s'.history == s.history + {s'.row}
                else s'.row == s.row && s'.history == s.history)
  {
    hide FanCheck, ResultRow, NewReport, Rest, Perform;
    match s.runner
    case Starting =>
    case Resetting =>
    case Claiming =>
    case Evaluating =>
    case Evaluated =>
    case Reporting(ending, r) => PerformChanges(s, r);
    case Popping(ending) =>
    case Fanning(ending, left, Some(r)) => PerformChanges(s, r);
    case Fanning(ending, left, None) =>
    case Settling(ending) =>
    case Released(ending) =>
  }

  lemma RunKeepsOne(s: State, s': State)
    requires OneWorks(s) && s'.others == s.others && (Working(s'.runner) ==> Working(s.runner))
    ensures OneWorks(s')
  {
    hide Working;
  }

  lemma EndKeepsLook(s: State, ending: Ending)
    requires LookInv(s) && CanEnd(s, ending)
    ensures LookInv(Written(s, ending))
  {
    hide OneRunnable, NoneRunnable, OwnReport;
    RunKeepsOne(s, Written(s, ending));
    assert !NoneWorks(s) && NoneWorks(Written(s, ending));
    forall d | d in s.dispatches
      ensures !Runnable(d)
    {
      assert Current(s, d);
    }
    assert NoneRunnable(s.dispatches) by {
      NothingRuns(s.dispatches);
    }
  }

  lemma NothingRuns(ds: seq<Deciding>)
    requires forall d :: d in ds ==> !Runnable(d)
    ensures NoneRunnable(ds)
  {
  }

  lemma SwitchKeepsLook(s: State, i: nat)
    requires LookInv(s) && i < |s.others|
    ensures LookInv(Switched(s, i))
  {
    hide Working, Runnable, OneRunnable, NoneRunnable;
    var s' := Switched(s, i);
    assert s.others[i] in s.others && s'.others[i] in s'.others;
    assert NoneWorks(s') <==> NoneWorks(s) by {
      SwitchKeepsWork(s, i);
    }
  }

  lemma SwitchKeepsWork(s: State, i: nat)
    requires i < |s.others|
    ensures NoneWorks(Switched(s, i)) <==> NoneWorks(s)
  {
    hide Working;
    var s' := Switched(s, i);
    assert s.others[i] in s.others && s'.others[i] in s'.others;
    forall k | 0 <= k < |s.others| && k != i
      ensures s.others[k] in s'.others && s'.others[k] in s.others
    {
      assert s'.others[k] == s.others[k];
    }
  }

  lemma ContextKeepsLook(s: State, i: nat)
    requires LookInv(s) && i < |s.attachers|
    ensures LookInv(ContextStep(s, i))
  {
    hide Working, Runnable, OneRunnable, NoneRunnable, OneWorks, ContextStep;
    ContextFields(s, i);
    SameRuns(s, ContextStep(s, i));
  }

  lemma {:induction false} StepKeepsLook(p: Policy, s: State, step: Step)
    requires p.alone && LookInv(s) && Enabled(p, s, step)
    ensures LookInv(Apply(s, step))
  {
    hide LookInv, Taken, Dispatched, Advance, Written, Switched, ContextStep, Noticed, MayStart, CanEnd, CanAdvance;
    match step
    case Look(event) => LookKeepsLook(s, event);
    case Take(updates) => TakeKeepsLook(s, updates);
    case Dispatching(i) => DispatchKeepsLook(s, i);
    case Go => GoKeepsLook(s);
    case Record(any) => RecordKeepsLook(s, any);
    case End(ending) => EndKeepsLook(s, ending);
    case Switch(i) => SwitchKeepsLook(s, i);
    case Context(i) => ContextKeepsLook(s, i);
    case Withdraw(_) =>
    case Notice(i) => NothingToNotice(s);
  }

  lemma LookKeepsLook(s: State, event: ChangeEvent)
    requires LookInv(s) && s.row.status != CANCELLED
    ensures LookInv(s.(looking := Some(Lookup(event, s.row))))
  {
    SameRuns(s, s.(looking := Some(Lookup(event, s.row))));
  }

  lemma RecordKeepsLook(s: State, any: bool)
    requires LookInv(s)
    ensures LookInv(s.(attributes := any))
  {
    SameRuns(s, s.(attributes := any));
  }

  lemma NothingToNotice(s: State)
    requires LookInv(s)
    ensures s.notices == []
  {
  }

  lemma {:induction false} RunKeepsLook(p: Policy, s0: State, steps: seq<Step>)
    requires p.alone && Init(s0) && Exec(p, s0, steps).Some?
    ensures LookInv(Exec(p, s0, steps).value)
  {
    hide LookInv, Init, Enabled, Apply;
    if steps == [] {
      InitLook(s0);
    } else {
      RunKeepsLook(p, s0, steps[..|steps| - 1]);
      StepKeepsLook(p, Exec(p, s0, steps[..|steps| - 1]).value, steps[|steps| - 1]);
    }
  }

  /** One writer: a dispatch that starts a run has the present row, no other run works on it, and it is the only
      dispatch that can. */
  lemma StartsOnPresentRow(p: Policy, s0: State, steps: seq<Step>, i: nat)
    requires p.alone && Init(s0) && Exec(p, s0, steps).Some?
    requires i < |Exec(p, s0, steps).value.dispatches| && Runnable(Exec(p, s0, steps).value.dispatches[i])
    ensures var s := Exec(p, s0, steps).value;
            && s.dispatches[i].record == s.row && NoneWorks(s)
            && forall j: nat :: j < |s.dispatches| && Runnable(s.dispatches[j]) ==> j == i
  {
    hide Init, Exec, OneWorks, LookingInv;
    var s := Exec(p, s0, steps).value;
    RunKeepsLook(p, s0, steps);
    assert s.dispatches[i] in s.dispatches;
  }
}
