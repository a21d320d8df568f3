/**
 The linked-context fan-out: the runs of one build, and any number of contexts
 that attach to it. Everything between two awaits is one step; steps of the
 runs, of the lookups and of the contexts interleave freely.
 */
module LinkedFanout {
  import opened Wrappers

  /** A change event, what a status is posted for. Two deliveries may be equal. */
  datatype ChangeEvent = ChangeEvent(id: nat)

  datatype BuildStatus = PENDING | SUCCEEDED | FAILED | CANCELLED

  /** `BuildStatus.TERMINAL` */
  predicate Terminal(status: BuildStatus) {
    status != PENDING
  }

  /** The build row: its status and its monotonic status generation. */
  datatype Row = Row(status: BuildStatus, generation: nat)

  /** The last nix-eval status posted for a commit. */
  datatype EvalCheck = EvalPending | EvalFinished(success: bool) | EvalCancelled

  /** How a run ends, after building attributes or settled as aborted, and the row it writes. */
  datatype Ending = Aggregated(row: Row) | Aborted(row: Row)

  /** Where an eval check comes from: the start of a run or of a context, the evaluation of a run, the fan-out of a run,
      or a row that is replayed, with whether the build had attribute rows then. */
  datatype Service =
    | ByStart
    | ByEvaluation
    | ByRun(ending: Ending)
    | ByRow(row: Row, attributes: bool)

  /** Posting a final status: the eval check, nix-build as pending after a successful eval, the guard
      against stale generations, and the build summary. */
  datatype Stage = AtEval | AtPending | AtGuard | AtStatus

  datatype Report = Report(event: ChangeEvent, check: EvalCheck, row: Row, stage: Stage, service: Service)

  /** What is posted: the last nix-eval check of each event and where it came from, its last nix-build status, and the
      generation below which a status is stale. */
  datatype Posts = Posts(
    evals: map<ChangeEvent, EvalCheck>, served: map<ChangeEvent, Service>, builds: map<ChangeEvent, BuildStatus>,
    generation: nat)

  datatype Runner =
    | Idle                                        // no run yet
    | Starting                                    // build_started of its own event
    | Resetting                                   // the row goes back to pending
    | Claiming                                    // the slot is taken, if it is free
    | Evaluating
    | Evaluated                                   // own eval check posted, nix-build not yet pending
    | Building
    | Reporting(ending: Ending, report: Report)   // terminal status written, own checks still to post
    | Popping(ending: Ending)
    | Fanning(ending: Ending, left: seq<ChangeEvent>, current: Option<Report>)
    | Settling(ending: Ending)                    // fanned out, slot still held
    | Released(ending: Ending)                    // fanned out, slot free, list not cleared yet
    | Ended(ending: Ending)

  datatype Attacher =
    | Appended(event: ChangeEvent)
    | Announced(event: ChangeEvent)               // build_started posted
    | Detached(event: ChangeEvent, epoch: nat)    // the row was not terminal: the run will report
    | SawTerminal(event: ChangeEvent, row: Row)
    | Replaying(report: Report)                   // taken off the list
    | Done(event: ChangeEvent, row: Row)

  function EventOf(a: Attacher): ChangeEvent {
    if a.Replaying? then a.report.event else a.event
  }

  /** A run that another one started beside. */
  datatype Earlier = Earlier(own: ChangeEvent, recorded: nat, runner: Runner)

  /** `get_or_create_build` holds the lock of the tree and has found the row, not cancelled. */
  datatype Lookup = Lookup(event: ChangeEvent, found: Row)

  /** A change event with the build record its lookup returned, to be dispatched. */
  datatype Deciding = Deciding(event: ChangeEvent, record: Row, created: bool)

  datatype State = State(
    row: Row,
    history: set<Row>,                            // every row the build has had
    attributes: bool,                             // it has attribute rows
    linked: seq<ChangeEvent>,                     // linked_events[build.id_]
    epoch: nat,                                   // how often the list was popped for a fan-out
    runs: nat,
    own: ChangeEvent,                             // of the run whose turn it is
    recorded: nat,                                // the generation in its build record
    runner: Runner,
    others: seq<Earlier>,                         // runs that others started beside
    slot: bool,                                   // build.id_ in cancel_events
    looking: Option<Lookup>,
    dispatches: seq<Deciding>,
    owners: set<ChangeEvent>,                     // the events of all runs
    attachers: seq<Attacher>,
    posts: Posts,
    notices: seq<Report>)                         // of cancellations from outside

  // ---------------------------------------------------------------------------
  // Posting
  // ---------------------------------------------------------------------------

  function NewReport(event: ChangeEvent, check: EvalCheck, row: Row, service: Service): Report {
    Report(event, check, row, AtEval, service)
  }

  function PostEval(p: Posts, e: ChangeEvent, check: EvalCheck, service: Service): Posts {
    p.(evals := p.evals[e := check], served := p.served[e := service])
  }

  function PostBuild(p: Posts, e: ChangeEvent, status: BuildStatus): Posts {
    p.(builds := p.builds[e := status])
  }

  /** What the reporter does at this stage. */
  function Posted(p: Posts, r: Report): Posts {
    match r.stage
    case AtEval => PostEval(p, r.event, r.check, r.service)
    case AtPending => PostBuild(p, r.event, PENDING)
    case AtGuard => if r.row.generation < p.generation then p else p.(generation := r.row.generation)
    case AtStatus => PostBuild(p, r.event, r.row.status)
  }

  function Perform(s: State, r: Report): State {
    s.(posts := Posted(s.posts, r))
  }

  /** What is left of the report then; a stale one is dropped at the guard. */
  function Rest(s: State, r: Report): Option<Report> {
    match r.stage
    case AtEval => Some(r.(stage := if r.check == EvalFinished(true) then AtPending else AtGuard))
    case AtPending => Some(r.(stage := AtGuard))
    case AtGuard => if r.row.generation < s.posts.generation then None else Some(r.(stage := AtStatus))
    case AtStatus => None
  }

  /** `linked_events[...].remove(event)`, a missing event is ignored. */
  function RemoveEvent(events: seq<ChangeEvent>, event: ChangeEvent): seq<ChangeEvent> {
    if events == [] then []
    else if events[0] == event then events[1..]
    else [events[0]] + RemoveEvent(events[1..], event)
  }

  // ---------------------------------------------------------------------------
  // Steps of a run
  // ---------------------------------------------------------------------------

  /** The row a result is reported with: an aborted run takes the generation of its record. */
  function ResultRow(s: State, ending: Ending): Row {
    if ending.Aggregated? then ending.row else Row(ending.row.status, s.recorded)
  }

  /** The eval check of the fan-out; an aborted run has eval_success False, or None when cancelled. */
  function FanCheck(ending: Ending): EvalCheck {
    match ending
    case Aggregated(_) => EvalFinished(true)
    case Aborted(final) => if final.status == CANCELLED then EvalCancelled else EvalFinished(false)
  }

  /** Aggregation bumps the generation, aborting does not; both write a terminal status, and without attribute rows
      aggregation finds success. A cancelled evaluation aborts; once evaluated a run aborts only by an error, and then
      only over an unfinished row. */
  predicate CanEnd(s: State, ending: Ending) {
    match ending
    case Aggregated(final) =>
      && s.runner.Building? && Terminal(final.status) && final.generation == s.row.generation + 1
      && (s.attributes || final.status == SUCCEEDED)
    case Aborted(final) =>
      && final.generation == s.row.generation
      && (final.status == CANCELLED || (final.status == FAILED && !Terminal(s.row.status)))
      && (s.runner.Evaluating? || (s.runner.Building? && final.status == FAILED))
  }

  /** The run's own report: the eval check of an aggregated run was posted before. */
  function OwnReport(s: State, ending: Ending): Report {
    var r := NewReport(s.own, FanCheck(ending), ResultRow(s, ending), ByRun(ending));
    if ending.Aggregated? then r.(stage := AtGuard) else r
  }

  function Written(s: State, ending: Ending): State {
    s.(row := ending.row, history := s.history + {ending.row}, runner := Reporting(ending, OwnReport(s, ending)))
  }

  predicate CanAdvance(s: State) {
    !s.runner.Idle? && !s.runner.Building? && !s.runner.Ended?
  }

  /** The run's next step where it has no choice. */
  function Advance(s: State): State
    requires CanAdvance(s)
  {
    match s.runner
    case Starting =>
      s.(posts := PostEval(s.posts, s.own, EvalPending, ByStart), runner := Resetting)
    case Resetting =>
      var row := Row(PENDING, s.row.generation);
      s.(row := row, history := s.history + {row}, runner := Claiming)
    case Claiming => s.(slot := true, runner := Evaluating)
    case Evaluating =>
      s.(posts := PostEval(s.posts, s.own, EvalFinished(true), ByEvaluation), runner := Evaluated)
    case Evaluated => s.(posts := PostBuild(s.posts, s.own, PENDING), runner := Building)
    case Reporting(ending, r) =>
      Perform(s, r).(runner := if Rest(s, r).Some? then Reporting(ending, Rest(s, r).value) else Popping(ending))
    case Popping(ending) => s.(linked := [], epoch := s.epoch + 1, runner := Fanning(ending, s.linked, None))
    case Fanning(ending, left, Some(r)) => Perform(s, r).(runner := Fanning(ending, left, Rest(s, r)))
    case Fanning(ending, left, None) =>
      if left != [] then
        var r := NewReport(left[0], FanCheck(ending), ResultRow(s, ending), ByRun(ending));
        s.(runner := Fanning(ending, left[1..], Some(r)))
      else if ending.Aggregated? then s.(slot := false, runner := Released(ending))
      else s.(runner := Settling(ending))
    case Settling(ending) => s.(linked := [], slot := false, runner := Ended(ending))
    case Released(ending) => s.(linked := [], slot := false, runner := Ended(ending))
  }

  predicate Over(runner: Runner) {
    runner.Idle? || runner.Ended?
  }

  /** The turn goes to another run. */
  function Switched(s: State, i: nat): State
    requires i < |s.others|
  {
    var o := s.others[i];
    s.(own := o.own, recorded := o.recorded, runner := o.runner,
       others := s.others[i := Earlier(s.own, s.recorded, s.runner)])
  }

  datatype Dispatch = Reuse | Run | Attach

  // ---------------------------------------------------------------------------
  // Lookup and dispatch
  // ---------------------------------------------------------------------------

  /** `_dispatch_build`: what an event does with the record of its lookup. */
  function Decide(created: bool, recorded: BuildStatus, inFlight: bool): Dispatch {
    if !created && (recorded == SUCCEEDED || recorded == FAILED) then Dispatch.Reuse
    else if created || (!inFlight && recorded == CANCELLED) then Run
    else Dispatch.Attach
  }

  /** The dispatch of this record starts a run when no run holds the slot. */
  predicate Runnable(d: Deciding) {
    d.created || d.record.status == CANCELLED
  }

  /** An event that runs the build, with its record. */
  function Started(s: State, own: ChangeEvent, record: Row): State {
    s.(runs := s.runs + 1, own := own, recorded := record.generation, runner := Starting, owners := s.owners + {own},
       others := if Over(s.runner) then s.others else s.others + [Earlier(s.own, s.recorded, s.runner)], slot := true)
  }

  /** The lookup returns the row it found, or the present one when it updates the pull request of the build. */
  function Taken(s: State, updates: bool): State
    requires s.looking.Some?
  {
    var d := Deciding(s.looking.value.event, if updates then s.row else s.looking.value.found, false);
    s.(looking := None, dispatches := s.dispatches + [d])
  }

  /** The eval check of a replay; `attributes` tells whether a failed build has attribute rows. */
  function ReplayCheck(row: Row, attributes: bool): EvalCheck {
    if row.status == CANCELLED then EvalCancelled else EvalFinished(row.status == SUCCEEDED || attributes)
  }

  function Replay(event: ChangeEvent, row: Row, attributes: bool): Report {
    NewReport(event, ReplayCheck(row, attributes), row, ByRow(row, attributes))
  }

  function Without(ds: seq<Deciding>, i: nat): seq<Deciding>
    requires i < |ds|
  {
    ds[..i] + ds[i + 1..]
  }

  function Dispatched(s: State, i: nat): State
    requires i < |s.dispatches|
  {
    var d := s.dispatches[i];
    var s1 := s.(dispatches := Without(s.dispatches, i));
    match Decide(d.created, d.record.status, s.slot)
    case Run => Started(s1, d.event, d.record)
    case Attach => s1.(linked := s.linked + [d.event], attachers := s.attachers + [Appended(d.event)])
    case Reuse =>
      s1.(attachers := s.attachers + [Replaying(Replay(d.event, d.record, s.attributes))])
  }

  /** `cancel_build` of a build without a run here: the row is cancelled at once, and only its build status posted. */
  function Withdrawn(s: State, event: ChangeEvent): State {
    var row := Row(CANCELLED, s.row.generation + 1);
    s.(row := row, history := s.history + {row},
       notices := s.notices + [Report(event, EvalCancelled, row, AtGuard, ByRow(row, s.attributes))])
  }

  function Noticed(s: State, i: nat): State
    requires i < |s.notices|
  {
    var r := s.notices[i];
    var rest := Rest(s, r);
    Perform(s, r).(notices := s.notices[..i] + (if rest.Some? then [rest.value] else []) + s.notices[i + 1..])
  }

  // ---------------------------------------------------------------------------
  // Steps of the contexts
  // ---------------------------------------------------------------------------

  /** The context's next step: announce, read the row, leave the list, replay what was read. */
  function ContextStep(s: State, i: nat): State
    requires i < |s.attachers|
  {
    match s.attachers[i]
    case Appended(e) =>
      s.(posts := PostEval(s.posts, e, EvalPending, ByStart),
         attachers := s.attachers[i := Announced(e)])
    case Announced(e) =>
      s.(attachers := s.attachers[i := if Terminal(s.row.status) then SawTerminal(e, s.row) else Detached(e, s.epoch)])
    case SawTerminal(e, row) =>
      s.(linked := RemoveEvent(s.linked, e),
         attachers := s.attachers[i := Replaying(Replay(e, row, s.attributes))])
    case Replaying(r) =>
      var rest := Rest(s, r);
      Perform(s, r).(attachers := s.attachers[i := if rest.Some? then Replaying(rest.value) else Done(r.event, r.row)])
    case _ => s
  }

  predicate Settled(a: Attacher) {
    a.Detached? || a.Done?
  }

  // ---------------------------------------------------------------------------
  // Behaviours
  // ---------------------------------------------------------------------------

  datatype Step =
    | Look(event: ChangeEvent)
    | Take(updates: bool)
    | Dispatching(i: nat)
    | Go                                          // the run advances
    | Record(any: bool)                           // the run records attribute rows, or finds that there are none
    | End(ending: Ending)                         // the run writes its terminal status
    | Switch(i: nat)
    | Context(i: nat)
    | Withdraw(event: ChangeEvent)
    | Notice(i: nat)

  /** A context that has not taken its entry off the list, or waits for the next pop. */
  predicate Waits(a: Attacher, epoch: nat) {
    a.Appended? || a.Announced? || a.SawTerminal? || (a.Detached? && a.epoch == epoch)
  }

  /** Its list entry. */
  function Entry(a: Attacher, epoch: nat): multiset<ChangeEvent> {
    if Waits(a, epoch) then multiset{EventOf(a)} else multiset{}
  }

  function Entries(attachers: seq<Attacher>, epoch: nat): multiset<ChangeEvent> {
    if attachers == [] then multiset{}
    else Entries(attachers[..|attachers| - 1], epoch) + Entry(attachers[|attachers| - 1], epoch)
  }

  /** What is granted: when a run starts, earlier runs are over; the contexts that are still attaching are on the
      list; nobody cancels the build from outside while no run holds its slot. */
  datatype Policy = Policy(cleared: bool, listed: bool, alone: bool)

  predicate Cleared(s: State) {
    Over(s.runner) && forall o :: o in s.others ==> Over(o.runner)
  }

  predicate Listed(s: State) {
    Entries(s.attachers, s.epoch) <= multiset(s.linked)
  }

  predicate MayStart(p: Policy, s: State) {
    (p.cleared ==> Cleared(s)) && (p.listed ==> Listed(s))
  }

  /** A lookup never finds a cancelled row, and lookups of one tree take turns. */
  predicate Enabled(p: Policy, s: State, step: Step) {
    match step
    case Look(_) => s.looking.None? && s.row.status != CANCELLED
    case Take(_) => s.looking.Some?
    case Dispatching(i) =>
      && i < |s.dispatches|
      && var d := s.dispatches[i]; Decide(d.created, d.record.status, s.slot) == Run ==> MayStart(p, s)
    case Go => CanAdvance(s)
    case Record(any) => s.runner.Evaluating? || (any && (s.runner.Evaluated? || s.runner.Building?))
    case End(ending) => CanEnd(s, ending)
    case Switch(i) => i < |s.others|
    case Context(i) => i < |s.attachers| && !Settled(s.attachers[i])
    case Withdraw(_) => !p.alone && !s.slot && s.row.status == PENDING
    case Notice(i) => i < |s.notices|
  }

  function Apply(s: State, step: Step): State
    requires step.Take? ==> s.looking.Some?
    requires step.Dispatching? ==> step.i < |s.dispatches|
    requires step.Go? ==> CanAdvance(s)
    requires step.Switch? ==> step.i < |s.others|
    requires step.Context? ==> step.i < |s.attachers|
    requires step.Notice? ==> step.i < |s.notices|
  {
    match step
    case Look(event) => s.(looking := Some(Lookup(event, s.row)))
    case Take(updates) => Taken(s, updates)
    case Dispatching(i) => Dispatched(s, i)
    case Go => Advance(s)
    case Record(any) => s.(attributes := any)
    case End(ending) => Written(s, ending)
    case Switch(i) => Switched(s, i)
    case Context(i) => ContextStep(s, i)
    case Withdraw(event) => Withdrawn(s, event)
    case Notice(i) => Noticed(s, i)
  }

  /** The one record that starts a run: of the build just created, or of one cancelled during the lookup. */
  predicate First(row: Row, d: Deciding) {
    d.record == row && row.status == if d.created then PENDING else CANCELLED
  }

  /** A record of a lookup before that. */
  predicate Waiting(row: Row, d: Deciding) {
    !d.created && d.record.status == PENDING && d.record.generation <= row.generation
  }

  ghost predicate OneFirst(row: Row, ds: seq<Deciding>) {
    exists k :: 0 <= k < |ds| && First(row, ds[k]) && forall i :: 0 <= i < |ds| && i != k ==> Waiting(row, ds[i])
  }

  /** A build at rest that is to be run: just created, or cancelled with the one record of that outstanding. */
  ghost predicate Init(s: State) {
    && s.runner == Idle && s.others == [] && !s.slot && s.linked == [] && s.attachers == []
    && s.runs == 0 && s.owners == {} && s.looking.None? && s.notices == []
    && s.history == {s.row} + (set d | d in s.dispatches :: d.record) && OneFirst(s.row, s.dispatches)
    && s.posts.generation <= s.row.generation && s.posts.served == map[] && (s.row.status == PENDING ==> !s.attributes)
    && forall e :: e in s.posts.builds ==> s.posts.builds[e] != PENDING
  }

  /** The state after the steps, None when one was not enabled. */
  function Exec(p: Policy, s0: State, steps: seq<Step>): Option<State> {
    if steps == [] then Some(s0)
    else
      var before := Exec(p, s0, steps[..|steps| - 1]);
      var step := steps[|steps| - 1];
      if before.Some? && Enabled(p, before.value, step) then Some(Apply(before.value, step)) else None
  }

  /** Every run, every lookup and every context is finished. */
  predicate Quiescent(s: State) {
    && s.runner.Ended? && (forall o :: o in s.others ==> o.runner.Ended?)
    && s.looking.None? && s.dispatches == [] && s.notices == []
    && forall a :: a in s.attachers ==> Settled(a)
  }

  /** `e` belongs to a run, or to a context that attached or reused the build. */
  ghost predicate Involved(s: State, e: ChangeEvent) {
    e in s.owners || exists i: nat :: i < |s.attachers| && EventOf(s.attachers[i]) == e
  }

  predicate EvalResolved(s: State, e: ChangeEvent) {
    e in s.posts.evals && s.posts.evals[e] != EvalPending
  }
}
