/**
 The writing side of the log container: the calls for interleaved derivations
 are kept apart by derivation path, and packed in first-seen order.
 */
module LogCapture {
  import opened Wrappers
  import opened ByteStrings
  import opened LogText
  import opened LogRetention
  import opened LogContainer

  /** What the capture tells the writer, in the order it arrives. */
  datatype Call =
    | Line(drv: Bytes, text: Bytes, ts: Option<int>, name: Option<Bytes>)
    | PhaseOf(drv: Bytes, phase: Bytes, ts: Option<int>)
    | StatusOf(drv: Bytes, status: Bytes)
    | Register(drv: Bytes, name: Option<Bytes>)
    | Stop(drv: Bytes, at: int)

  // ---------------------------------------------------------------------------
  // What the calls say of one derivation
  // ---------------------------------------------------------------------------

  /** All lines of a derivation, and the other columns of its record. */
  datatype View = View(
    name: Bytes, status: Bytes, lines: seq<Bytes>, phases: seq<Phase>, t0: Option<int>, t1: Option<int>)

  /** How many lines are retained of `n`. */
  function RetainedCount(n: nat, half: nat): nat {
    if n <= 2 * half then n else 2 * half + 1
  }

  /** `_get`: an unset or empty name stands for the path at the first mention; later names replace it. */
  function Mention(v: Option<View>, drv: Bytes, name: Option<Bytes>): View {
    match v
    case None => View(if name.Some? && name.value != [] then name.value else drv, Ascii("built"), [], [], None, None)
    case Some(w) => if name.Some? then w.(name := name.value) else w
  }

  /** What a call of the derivation changes. A phase is recorded before the next retained line. */
  function Update(v: Option<View>, c: Call, half: nat): View {
    var w := Mention(v, c.drv, if c.Line? || c.Register? then c.name else None);
    match c
    case Line(_, text, ts, _) =>
      w.(lines := w.lines + [text], t0 := if w.t0.None? then ts else w.t0, t1 := if ts.Some? then ts else w.t1)
    case PhaseOf(_, phase, ts) =>
      w.(phases := AddPhase(w.phases, phase, RetainedCount(|w.lines|, half)), t1 := if ts.Some? then ts else w.t1)
    case StatusOf(_, status) => w.(status := status)
    case Register(_, _) => w
    case Stop(_, at) => w.(t1 := Some(at))
  }

  /** What the calls say of a derivation, None when they do not mention it. */
  function ViewOf(calls: seq<Call>, drv: Bytes, half: nat): Option<View> {
    if calls == [] then None
    else
      var before, c := ViewOf(calls[..|calls| - 1], drv, half), calls[|calls| - 1];
      if c.drv == drv then Some(Update(before, c, half)) else before
  }

  function Seen(order: seq<Bytes>, drv: Bytes): seq<Bytes> {
    if drv in order then order else order + [drv]
  }

  /** The derivations in the order of their first mention. */
  function FirstSeen(calls: seq<Call>): seq<Bytes> {
    if calls == [] then [] else Seen(FirstSeen(calls[..|calls| - 1]), calls[|calls| - 1].drv)
  }

  /** The calls of one derivation, in order. */
  function OwnCalls(calls: seq<Call>, drv: Bytes): seq<Call> {
    if calls == [] then []
    else
      var own, c := OwnCalls(calls[..|calls| - 1], drv), calls[|calls| - 1];
      if c.drv == drv then own + [c] else own
  }

  /** The lines among the calls, in order. */
  function LinesOf(calls: seq<Call>, drv: Bytes): seq<Bytes> {
    if calls == [] then []
    else
      var c := calls[|calls| - 1];
      LinesOf(calls[..|calls| - 1], drv) + if c.Line? && c.drv == drv then [c.text] else []
  }

  /** The phases announced, in order, a repetition of the one before left out. */
  function PhasesOf(calls: seq<Call>, drv: Bytes): seq<Bytes> {
    if calls == [] then []
    else
      var names, c := PhasesOf(calls[..|calls| - 1], drv), calls[|calls| - 1];
      if c.PhaseOf? && c.drv == drv && (names == [] || names[|names| - 1] != c.phase) then names + [c.phase] else names
  }

  function NamesOf(phases: seq<Phase>): seq<Bytes> {
    seq(|phases|, i requires 0 <= i < |phases| => phases[i].name)
  }

  lemma ViewOfAppend(calls: seq<Call>, c: Call, half: nat)
    ensures ViewOf(calls + [c], c.drv, half) == Some(Update(ViewOf(calls, c.drv, half), c, half))
    ensures forall d :: d != c.drv ==> ViewOf(calls + [c], d, half) == ViewOf(calls, d, half)
    ensures FirstSeen(calls + [c]) == Seen(FirstSeen(calls), c.drv)
  {
    hide Update;
    assert (calls + [c])[..|calls|] == calls;
  }

  /** Interleaving leaves no trace: a derivation's view is that of its own calls. */
  lemma {:induction false} InterleavingIsLost(calls: seq<Call>, drv: Bytes, half: nat)
    ensures ViewOf(OwnCalls(calls, drv), drv, half) == ViewOf(calls, drv, half)
  {
    hide Update;
    if calls != [] {
      var init, c := calls[..|calls| - 1], calls[|calls| - 1];
      InterleavingIsLost(init, drv, half);
      if c.drv == drv {
        ViewOfAppend(OwnCalls(init, drv), c, half);
      }
    }
  }

  /** The view has the lines that arrived, and the phases announced, each no later than the retained lines go. */
  lemma {:induction false} ViewExactly(calls: seq<Call>, drv: Bytes, half: nat)
    ensures ViewOf(calls, drv, half).Some? <==> drv in FirstSeen(calls)
    ensures ViewOf(calls, drv, half).None? ==> LinesOf(calls, drv) == [] && PhasesOf(calls, drv) == []
    ensures ViewOf(calls, drv, half).Some? ==>
              Shows(ViewOf(calls, drv, half).value, LinesOf(calls, drv), PhasesOf(calls, drv), half)
  {
    hide Update, Shows;
    if calls != [] {
      var init, c := calls[..|calls| - 1], calls[|calls| - 1];
      ViewExactly(init, drv, half);
      assert LinesOf(init, drv) + [] == LinesOf(init, drv);
      if c.drv == drv {
        UpdateShows(ViewOf(init, drv, half), c, half, LinesOf(init, drv), PhasesOf(init, drv));
      }
    }
  }

  /** The lines, the names of the phases, and their order within the retained lines. */
  ghost predicate Shows(v: View, lines: seq<Bytes>, names: seq<Bytes>, half: nat) {
    v.lines == lines && NamesOf(v.phases) == names && InOrder(v.phases, RetainedCount(|v.lines|, half))
  }

  lemma UpdateShows(before: Option<View>, c: Call, half: nat, lines: seq<Bytes>, names: seq<Bytes>)
    requires if before.None? then lines == [] && names == [] else Shows(before.value, lines, names, half)
    ensures Shows(Update(before, c, half),
                  lines + (if c.Line? then [c.text] else []),
                  if c.PhaseOf? && (names == [] || names[|names| - 1] != c.phase) then names + [c.phase] else names,
                  half)
  {
    hide AddPhase;
    var w := Mention(before, c.drv, if c.Line? || c.Register? then c.name else None);
    assert Shows(w, lines, names, half);
    if c.PhaseOf? {
      AddPhaseNames(w.phases, c.phase, RetainedCount(|w.lines|, half));
    }
  }

  lemma AddPhaseNames(phases: seq<Phase>, name: Bytes, count: nat)
    requires InOrder(phases, count)
    ensures var names := NamesOf(phases);
            NamesOf(AddPhase(phases, name, count))
              == if names == [] || names[|names| - 1] != name then names + [name] else names
    ensures InOrder(AddPhase(phases, name, count), count)
  {
  }

  // ---------------------------------------------------------------------------
  // Each column of the view, from the calls alone
  // ---------------------------------------------------------------------------

  predicate IsPhase(c: Call, drv: Bytes) {
    c.PhaseOf? && c.drv == drv
  }

  /** Call `i` announces a phase of the derivation that is not a repetition of its latest one. */
  ghost predicate Announces(calls: seq<Call>, drv: Bytes, i: nat) {
    && i < |calls| && IsPhase(calls[i], drv)
    && forall k :: 0 <= k < i && LastBefore(calls, drv, k, i) ==> calls[k].phase != calls[i].phase
  }

  ghost predicate LastBefore(calls: seq<Call>, drv: Bytes, k: nat, i: nat) {
    k < i <= |calls| && IsPhase(calls[k], drv) && forall m :: k < m < i ==> !IsPhase(calls[m], drv)
  }

  /** The calls that announce a phase of the derivation, in order. */
  ghost predicate AnnouncedAt(calls: seq<Call>, drv: Bytes, at: seq<nat>) {
    && (forall a, b :: 0 <= a < b < |at| ==> at[a] < at[b])
    && forall i :: i in at <==> Announces(calls, drv, i)
  }

  /** Each phase has the name announced, and stands after the lines retained at that time. */
  ghost predicate Recorded(phases: seq<Phase>, calls: seq<Call>, drv: Bytes, half: nat, at: seq<nat>) {
    && AnnouncedAt(calls, drv, at) && |phases| == |at|
    && forall k :: 0 <= k < |at| ==> RecordedAt(phases[k], calls, drv, half, at[k])
  }

  ghost predicate RecordedAt(phase: Phase, calls: seq<Call>, drv: Bytes, half: nat, i: nat) {
    && i < |calls| && calls[i].PhaseOf?
    && phase == Phase(calls[i].phase, |Retained(LinesOf(calls[..i], drv), half)|)
  }

  function PhasesOfView(v: Option<View>): seq<Phase> {
    if v.None? then [] else v.value.phases
  }

  /** The phases end with the latest one announced, and are empty when there was none. */
  ghost predicate EndsWithLatest(phases: seq<Phase>, calls: seq<Call>, drv: Bytes) {
    if phases == [] then forall m :: 0 <= m < |calls| ==> !IsPhase(calls[m], drv)
    else exists k :: 0 <= k < |calls| && LastBefore(calls, drv, k, |calls|)
                     && calls[k].phase == phases[|phases| - 1].name
  }

  /** The phases of a derivation, from its calls: the announcements without immediate repetition, each with its name
      and the number of lines retained when it came. */
  lemma {:induction false} PhasesExactly(calls: seq<Call>, drv: Bytes, half: nat) returns (at: seq<nat>)
    ensures Recorded(PhasesOfView(ViewOf(calls, drv, half)), calls, drv, half, at)
    ensures EndsWithLatest(PhasesOfView(ViewOf(calls, drv, half)), calls, drv)
  {
    hide Update, Recorded, EndsWithLatest, LinesOf;
    at := [];
    if calls == [] {
      NothingRecorded(drv, half);
    } else {
      var n := |calls| - 1;
      var init, c := calls[..n], calls[n];
      at := PhasesExactly(init, drv, half);
      var before := ViewOf(init, drv, half);
      var phases := PhasesOfView(before);
      assert init + [c] == calls;
      ViewExactly(init, drv, half);
      UpdatePhases(init, before, c, drv, half);
      if !IsPhase(c, drv) {
        RecordedOther(phases, init, c, drv, half, at);
      } else if phases != [] && phases[|phases| - 1].name == c.phase {
        RecordedRepeat(phases, init, c, drv, half, at);
      } else {
        RecordedNew(phases, init, c, drv, half, at);
        at := at + [n];
      }
    }
  }

  lemma NothingRecorded(drv: Bytes, half: nat)
    ensures Recorded([], [], drv, half, []) && EndsWithLatest([], [], drv)
  {
  }

  lemma UpdatePhases(init: seq<Call>, before: Option<View>, c: Call, drv: Bytes, half: nat)
    requires before == ViewOf(init, drv, half)
    requires before.Some? ==> before.value.lines == LinesOf(init, drv)
    requires before.None? ==> LinesOf(init, drv) == []
    ensures var phases := PhasesOfView(before);
            var after := if c.drv == drv then Some(Update(before, c, half)) else before;
            PhasesOfView(after)
              == if IsPhase(c, drv) && (phases == [] || phases[|phases| - 1].name != c.phase)
                 then phases + [Phase(c.phase, |Retained(LinesOf(init, drv), half)|)] else phases
  {
    hide ViewOf, LinesOf;
  }

  lemma AnnouncesGrows(calls: seq<Call>, c: Call, drv: Bytes)
    ensures forall i :: 0 <= i < |calls| ==> (Announces(calls + [c], drv, i) <==> Announces(calls, drv, i))
    ensures forall k, i :: 0 <= k < i <= |calls| ==>
              (LastBefore(calls + [c], drv, k, i) <==> LastBefore(calls, drv, k, i))
  {
    forall k, i | 0 <= k < i <= |calls|
      ensures LastBefore(calls + [c], drv, k, i) <==> LastBefore(calls, drv, k, i)
    {
      assert forall m :: 0 <= m < i ==> (calls + [c])[m] == calls[m];
    }
    forall i | 0 <= i < |calls|
      ensures Announces(calls + [c], drv, i) <==> Announces(calls, drv, i)
    {
      assert forall k :: 0 <= k < i ==> (LastBefore(calls + [c], drv, k, i) <==> LastBefore(calls, drv, k, i));
    }
  }

  lemma RecordedGrows(phases: seq<Phase>, calls: seq<Call>, c: Call, drv: Bytes, half: nat, at: seq<nat>)
    requires Recorded(phases, calls, drv, half, at)
    ensures |phases| == |at| && forall k :: 0 <= k < |at| ==> RecordedAt(phases[k], calls + [c], drv, half, at[k])
    ensures forall i :: i in at ==> i < |calls|
    ensures forall i: nat :: i < |calls| ==> (i in at <==> Announces(calls + [c], drv, i))
  {
    hide Retained, LinesOf, LastBefore;
    AnnouncesGrows(calls, c, drv);
    forall k | 0 <= k < |at|
      ensures RecordedAt(phases[k], calls + [c], drv, half, at[k])
    {
      assert RecordedAt(phases[k], calls, drv, half, at[k]);
      assert (calls + [c])[..at[k]] == calls[..at[k]];
    }
    assert forall i :: i in at ==> Announces(calls, drv, i);
  }

  lemma RecordedOther(phases: seq<Phase>, calls: seq<Call>, c: Call, drv: Bytes, half: nat, at: seq<nat>)
    requires Recorded(phases, calls, drv, half, at) && EndsWithLatest(phases, calls, drv) && !IsPhase(c, drv)
    ensures Recorded(phases, calls + [c], drv, half, at) && EndsWithLatest(phases, calls + [c], drv)
  {
    hide RecordedAt;
    RecordedGrows(phases, calls, c, drv, half, at);
    assert (calls + [c])[|calls|] == c && !Announces(calls + [c], drv, |calls|);
    if phases != [] {
      var k :| 0 <= k < |calls| && LastBefore(calls, drv, k, |calls|)
               && calls[k].phase == phases[|phases| - 1].name;
      assert LastBefore(calls + [c], drv, k, |calls| + 1);
    }
  }

  lemma RecordedRepeat(phases: seq<Phase>, calls: seq<Call>, c: Call, drv: Bytes, half: nat, at: seq<nat>)
    requires Recorded(phases, calls, drv, half, at) && EndsWithLatest(phases, calls, drv)
    requires IsPhase(c, drv) && phases != [] && phases[|phases| - 1].name == c.phase
    ensures Recorded(phases, calls + [c], drv, half, at) && EndsWithLatest(phases, calls + [c], drv)
  {
    hide RecordedAt;
    var n := |calls|;
    RecordedGrows(phases, calls, c, drv, half, at);
    AnnouncesGrows(calls, c, drv);
    var k :| 0 <= k < n && LastBefore(calls, drv, k, n) && calls[k].phase == phases[|phases| - 1].name;
    assert LastBefore(calls + [c], drv, k, n) && (calls + [c])[k].phase == (calls + [c])[n].phase;
    assert !Announces(calls + [c], drv, n);
    assert LastBefore(calls + [c], drv, n, n + 1);
  }

  lemma RecordedNew(phases: seq<Phase>, calls: seq<Call>, c: Call, drv: Bytes, half: nat, at: seq<nat>)
    requires Recorded(phases, calls, drv, half, at) && EndsWithLatest(phases, calls, drv)
    requires IsPhase(c, drv) && (phases == [] || phases[|phases| - 1].name != c.phase)
    ensures var more := phases + [Phase(c.phase, |Retained(LinesOf(calls, drv), half)|)];
            && Recorded(more, calls + [c], drv, half, at + [|calls|])
            && EndsWithLatest(more, calls + [c], drv)
  {
    hide Retained, LinesOf;
    var n := |calls|;
    var all := calls + [c];
    RecordedGrows(phases, calls, c, drv, half, at);
    AnnouncesGrows(calls, c, drv);
    assert all[..n] == calls && all[n] == c;
    forall k | 0 <= k < n && LastBefore(all, drv, k, n)
      ensures all[k].phase != c.phase
    {
      var last :| 0 <= last < n && LastBefore(calls, drv, last, n)
                  && calls[last].phase == phases[|phases| - 1].name;
      assert LastBefore(calls, drv, k, n) && k == last;
    }
    assert Announces(all, drv, n);
    assert LastBefore(all, drv, n, n + 1);
    assert RecordedAt(Phase(c.phase, |Retained(LinesOf(calls, drv), half)|), all, drv, half, n);
    assert forall i :: i in at + [n] <==> i in at || i == n;
    assert forall k :: 0 <= k < |at| ==> at[k] in at;
  }

  /** What a call can say of its derivation. */
  datatype Column = Mentioned | Named | Status | Started | Timed

  predicate Says(c: Call, drv: Bytes, column: Column) {
    && c.drv == drv
    && match column
       case Mentioned => true
       case Named => (c.Line? || c.Register?) && c.name.Some?
       case Status => c.StatusOf?
       case Started => c.Line? && c.ts.Some?
       case Timed => c.Stop? || ((c.Line? || c.PhaseOf?) && c.ts.Some?)
  }

  ghost predicate LastToSay(calls: seq<Call>, drv: Bytes, column: Column, k: nat) {
    k < |calls| && Says(calls[k], drv, column) && forall m :: k < m < |calls| ==> !Says(calls[m], drv, column)
  }

  ghost predicate FirstToSay(calls: seq<Call>, drv: Bytes, column: Column, k: nat) {
    k < |calls| && Says(calls[k], drv, column) && forall m :: 0 <= m < k ==> !Says(calls[m], drv, column)
  }

  ghost predicate NeverSaid(calls: seq<Call>, drv: Bytes, column: Column) {
    forall k :: 0 <= k < |calls| ==> !Says(calls[k], drv, column)
  }

  function TimeOf(c: Call): Option<int>
    requires Says(c, c.drv, Timed)
  {
    if c.Stop? then Some(c.at) else c.ts
  }

  /** The latest name; the path when there is none, or when it is empty and came with the first mention. */
  ghost predicate NameIs(name: Bytes, calls: seq<Call>, drv: Bytes) {
    && (forall k: nat :: k < |calls| && LastToSay(calls, drv, Named, k) ==>
          name == if calls[k].name.value == [] && FirstToSay(calls, drv, Mentioned, k) then drv
                  else calls[k].name.value)
    && (NeverSaid(calls, drv, Named) ==> name == drv)
  }

  /** The latest status, `built` when there is none. */
  ghost predicate StatusIs(status: Bytes, calls: seq<Call>, drv: Bytes) {
    && (forall k: nat :: k < |calls| && LastToSay(calls, drv, Status, k) ==> status == calls[k].status)
    && (NeverSaid(calls, drv, Status) ==> status == Ascii("built"))
  }

  /** The time of the first line that has one. */
  ghost predicate StartIs(t0: Option<int>, calls: seq<Call>, drv: Bytes) {
    && (forall k: nat :: k < |calls| && FirstToSay(calls, drv, Started, k) ==> t0 == calls[k].ts)
    && (NeverSaid(calls, drv, Started) <==> t0.None?)
  }

  /** The latest time. */
  ghost predicate EndIs(t1: Option<int>, calls: seq<Call>, drv: Bytes) {
    && (forall k: nat :: k < |calls| && LastToSay(calls, drv, Timed, k) ==> t1 == TimeOf(calls[k]))
    && (NeverSaid(calls, drv, Timed) ==> t1.None?)
  }

  ghost predicate Columns(v: View, calls: seq<Call>, drv: Bytes) {
    NameIs(v.name, calls, drv) && StatusIs(v.status, calls, drv) && StartIs(v.t0, calls, drv) && EndIs(v.t1, calls, drv)
  }

  /** The other columns of a derivation, from its calls. */
  lemma {:induction false} ColumnsExactly(calls: seq<Call>, drv: Bytes, half: nat)
    ensures ViewOf(calls, drv, half).None? <==> NeverSaid(calls, drv, Mentioned)
    ensures ViewOf(calls, drv, half).Some? ==> Columns(ViewOf(calls, drv, half).value, calls, drv)
  {
    hide Columns, Update;
    if calls != [] {
      var init, c := calls[..|calls| - 1], calls[|calls| - 1];
      assert init + [c] == calls;
      var before := ViewOf(init, drv, half);
      ColumnsExactly(init, drv, half);
      SayingGrows(init, c, drv, Mentioned);
      if c.drv == drv {
        ColumnsUpdate(before, init, c, half);
      } else if before.Some? {
        ColumnsOther(before.value, init, c, drv);
      }
    }
  }

  lemma SayingGrows(calls: seq<Call>, c: Call, drv: Bytes, column: Column)
    ensures NeverSaid(calls + [c], drv, column) <==> NeverSaid(calls, drv, column) && !Says(c, drv, column)
    ensures forall k: nat :: LastToSay(calls + [c], drv, column, k)
              <==> if Says(c, drv, column) then k == |calls| else LastToSay(calls, drv, column, k)
    ensures forall k: nat :: FirstToSay(calls + [c], drv, column, k)
              <==> FirstToSay(calls, drv, column, k)
                   || (k == |calls| && NeverSaid(calls, drv, column) && Says(c, drv, column))
    ensures forall k: nat :: k < |calls| ==> (calls + [c])[k] == calls[k]
  {
    hide Says;
    var all := calls + [c];
    assert all[|calls|] == c && forall k :: 0 <= k < |calls| ==> all[k] == calls[k];
    assert Says(c, drv, column) <==> Says(all[|calls|], drv, column);
  }

  lemma ColumnsOther(v: View, calls: seq<Call>, c: Call, drv: Bytes)
    requires c.drv != drv && Columns(v, calls, drv)
    ensures Columns(v, calls + [c], drv)
  {
    hide LastToSay, FirstToSay, NeverSaid;
    SayingGrows(calls, c, drv, Mentioned);
    SayingGrows(calls, c, drv, Named);
    SayingGrows(calls, c, drv, Status);
    SayingGrows(calls, c, drv, Started);
    SayingGrows(calls, c, drv, Timed);
    NotBeforeFirst(calls, drv);
  }

  lemma NameUpdate(before: Option<View>, calls: seq<Call>, c: Call, half: nat)
    requires before.None? <==> NeverSaid(calls, c.drv, Mentioned)
    requires before.None? ==> NeverSaid(calls, c.drv, Named)
    requires before.Some? ==> NameIs(before.value.name, calls, c.drv)
    ensures NameIs(Update(before, c, half).name, calls + [c], c.drv)
  {
    hide LastToSay, FirstToSay, NeverSaid, AddPhase;
    SayingGrows(calls, c, c.drv, Named);
    SayingGrows(calls, c, c.drv, Mentioned);
    NotBeforeFirst(calls, c.drv);
  }

  /** Nothing said, nothing said first or last. */
  lemma NotBeforeFirst(calls: seq<Call>, drv: Bytes)
    ensures forall k: nat, s :: NeverSaid(calls, drv, s) ==>
              !LastToSay(calls, drv, s, k) && !FirstToSay(calls, drv, s, k)
    ensures forall k: nat, s :: FirstToSay(calls, drv, s, k) || LastToSay(calls, drv, s, k) ==> k < |calls|
  {
  }

  lemma ColumnsUpdate(before: Option<View>, calls: seq<Call>, c: Call, half: nat)
    requires before.None? <==> NeverSaid(calls, c.drv, Mentioned)
    requires before.Some? ==> Columns(before.value, calls, c.drv)
    ensures Columns(Update(before, c, half), calls + [c], c.drv)
  {
    hide LastToSay, FirstToSay, AddPhase;
    var w := Update(before, c, half);
    if before.None? {
      assert forall s :: NeverSaid(calls, c.drv, s);
    }
    NameUpdate(before, calls, c, half);
    NotBeforeFirst(calls, c.drv);
    SayingGrows(calls, c, c.drv, Status);
    assert StatusIs(w.status, calls + [c], c.drv);
    SayingGrows(calls, c, c.drv, Started);
    assert StartIs(w.t0, calls + [c], c.drv);
    SayingGrows(calls, c, c.drv, Timed);
    assert EndIs(w.t1, calls + [c], c.drv);
  }

  // ---------------------------------------------------------------------------
  // Records
  // ---------------------------------------------------------------------------

  /** What is to be packed of a derivation. */
  function RecordOf(drv: Bytes, v: View, half: nat): Record {
    Record(drv, v.name, v.status, Retained(v.lines, half), v.phases, v.t0, v.t1)
  }

  /** One record per derivation in first-seen order, with all that the calls say of it. */
  ghost predicate Records(records: seq<Record>, order: seq<Bytes>, calls: seq<Call>, half: nat) {
    && |records| == |order|
    && forall i :: 0 <= i < |order| ==>
         var v := ViewOf(calls, order[i], half);
         && v.Some? && records[i] == RecordOf(order[i], v.value, half)
         && InOrder(records[i].phases, |records[i].lines|)
  }

  ghost predicate NoRepeats(order: seq<Bytes>) {
    forall i, k :: 0 <= i < k < |order| ==> order[i] != order[k]
  }

  /** A record, from the calls alone. */
  ghost predicate RecordTells(r: Record, calls: seq<Call>, drv: Bytes, half: nat) {
    && r.drv == drv && r.lines == Retained(LinesOf(calls, drv), half)
    && NameIs(r.name, calls, drv) && StatusIs(r.status, calls, drv) && StartIs(r.t0, calls, drv)
    && EndIs(r.t1, calls, drv) && exists at :: Recorded(r.phases, calls, drv, half, at)
  }

  lemma RecordsTell(records: seq<Record>, order: seq<Bytes>, calls: seq<Call>, half: nat)
    requires Records(records, order, calls, half)
    ensures |records| == |order| && forall i :: 0 <= i < |order| ==> RecordTells(records[i], calls, order[i], half)
  {
    hide ViewOf, Retained, LinesOf, NameIs, StatusIs, StartIs, EndIs, Recorded;
    forall i | 0 <= i < |order|
      ensures RecordTells(records[i], calls, order[i], half)
    {
      ViewExactly(calls, order[i], half);
      ColumnsExactly(calls, order[i], half);
      var at := PhasesExactly(calls, order[i], half);
    }
  }

  /** The first mention of `a` comes before that of `b`. */
  ghost predicate MentionedBefore(calls: seq<Call>, a: Bytes, b: Bytes) {
    forall i: nat, k: nat :: FirstToSay(calls, a, Mentioned, i) && FirstToSay(calls, b, Mentioned, k) ==> i < k
  }

  /** The derivations mentioned, each once, in the order of their first mention. */
  lemma {:induction false} FirstSeenExactly(calls: seq<Call>)
    ensures NoRepeats(FirstSeen(calls))
    ensures forall drv :: drv in FirstSeen(calls) <==> !NeverSaid(calls, drv, Mentioned)
    ensures forall i, k :: 0 <= i < k < |FirstSeen(calls)| ==>
              MentionedBefore(calls, FirstSeen(calls)[i], FirstSeen(calls)[k])
  {
    hide NeverSaid, FirstToSay;
    if calls == [] {
      forall drv, s: Column
        ensures NeverSaid([], drv, s)
      {
        NothingSaid(drv, s);
      }
    } else {
      var init, c := calls[..|calls| - 1], calls[|calls| - 1];
      assert init + [c] == calls;
      FirstSeenExactly(init);
      forall drv
        ensures NeverSaid(calls, drv, Mentioned) <==> NeverSaid(init, drv, Mentioned) && c.drv != drv
      {
        SayingGrows(init, c, drv, Mentioned);
      }
      forall i, k | 0 <= i < k < |FirstSeen(calls)|
        ensures MentionedBefore(calls, FirstSeen(calls)[i], FirstSeen(calls)[k])
      {
        assert FirstSeen(init)[i] in FirstSeen(init) && FirstSeen(calls)[i] == FirstSeen(init)[i];
        if k < |FirstSeen(init)| {
          assert FirstSeen(calls)[k] in FirstSeen(init);
        }
        MentionedOneMore(init, c, FirstSeen(calls)[i], FirstSeen(calls)[k]);
      }
    }
  }

  lemma MentionedOneMore(calls: seq<Call>, c: Call, a: Bytes, b: Bytes)
    requires !NeverSaid(calls, a, Mentioned) && (MentionedBefore(calls, a, b) || NeverSaid(calls, b, Mentioned))
    ensures MentionedBefore(calls + [c], a, b)
  {
    hide NeverSaid, FirstToSay;
    SayingGrows(calls, c, a, Mentioned);
    SayingGrows(calls, c, b, Mentioned);
    NotBeforeFirst(calls, a);
    NotBeforeFirst(calls, b);
  }

  lemma NothingSaid(drv: Bytes, s: Column)
    ensures NeverSaid([], drv, s)
  {
  }

  lemma RecordsOne(records: seq<Record>, order: seq<Bytes>, calls: seq<Call>, half: nat, i: nat)
    requires Records(records, order, calls, half) && i < |order|
    ensures |records| == |order|
    ensures records[i].phases == ViewOf(calls, order[i], half).value.phases
    ensures records[i].lines == Retained(LinesOf(calls, order[i]), half)
    ensures InOrder(records[i].phases, |records[i].lines|)
  {
    hide Retained, Update, InOrder;
    ViewExactly(calls, order[i], half);
  }

  /** The log of a derivation holds what is said of it. */
  ghost predicate Holds(log: DerivationLog, v: View, half: nat)
    reads log
  {
    && log.Valid(half) && log.all == v.lines && log.phases == v.phases
    && log.name == v.name && log.status == v.status && log.t0 == v.t0 && log.t1 == v.t1
  }

  lemma HeldLog(log: DerivationLog, v: View, half: nat)
    ensures Holds(log, v, half) <==>
              && log.Valid(half) && log.all == v.lines && log.phases == v.phases
              && log.name == v.name && log.status == v.status && log.t0 == v.t0 && log.t1 == v.t1
    ensures log.Valid(half) ==> Count(log.View()) == RetainedCount(|log.all|, half)
  {
    hide Keeps, InOrder, Count;
    if log.Valid(half) {
      KeptLines(log.View(), log.all, half);
    }
  }

  lemma NoRepeatsGrows(order: seq<Bytes>, drv: Bytes)
    requires NoRepeats(order) && drv !in order
    ensures NoRepeats(order + [drv])
  {
  }

  class LogContainerWriter {
    const half: nat
    const groupBytes: nat
    var drvs: map<Bytes, DerivationLog>
    /** The insertion order of `drvs`. */
    var order: seq<Bytes>
    ghost var calls: seq<Call>

    ghost predicate Apart()
      reads this
    {
      && half >= 1 && NoRepeats(order) && (forall d :: d in order <==> d in drvs)
      && (forall a, b :: a in drvs && b in drvs && a != b ==> drvs[a] != drvs[b])
    }

    /** Each derivation's log holds what the calls say of it. */
    ghost predicate Valid()
      reads this, drvs.Values
    {
      && Apart() && order == FirstSeen(calls)
      && (forall d :: d in drvs ==> ViewOf(calls, d, half).Some? && Holds(drvs[d], ViewOf(calls, d, half).value, half))
      && (forall d :: d !in drvs ==> ViewOf(calls, d, half).None?)
    }

    /** The same in the middle of a call for `drv`, whose log holds `v`. */
    ghost predicate Within(drv: Bytes, v: View)
      reads this, drvs.Values
    {
      && Apart() && order == Seen(FirstSeen(calls), drv) && drv in drvs && Holds(drvs[drv], v, half)
      && (forall d :: d in drvs && d != drv ==>
            ViewOf(calls, d, half).Some? && Holds(drvs[d], ViewOf(calls, d, half).value, half))
      && (forall d :: d !in drvs ==> ViewOf(calls, d, half).None?)
    }

    constructor (groupBytes: nat, maxLines: nat)
      ensures Valid() && calls == [] && half == (if maxLines / 2 < 1 then 1 else maxLines / 2)
    {
      half := if maxLines / 2 < 1 then 1 else maxLines / 2;
      this.groupBytes := groupBytes;
      drvs, order, calls := map[], [], [];
    }

    /** `_get`: the derivation's log, a new one at its first mention. */
    method Get(drv: Bytes, name: Option<Bytes>) returns (d: DerivationLog)
      requires Valid()
      modifies this, drvs.Values
      ensures calls == old(calls) && Within(drv, Mention(ViewOf(calls, drv, half), drv, name)) && drvs[drv] == d
      ensures fresh(drvs.Values - old(drvs.Values))
    {
      hide ViewOf, Keeps, InOrder, Count, NoRepeats, Holds, FirstSeen;
      ghost var v := Mention(ViewOf(calls, drv, half), drv, name);
      if drv !in drvs {
        NoRepeatsGrows(order, drv);
        d := new DerivationLog(if name.Some? && name.value != [] then name.value else drv, half);
        HeldLog(d, v, half);
        drvs := drvs[drv := d];
        order := order + [drv];
      } else {
        d := drvs[drv];
        HeldLog(d, ViewOf(calls, drv, half).value, half);
        if name.Some? {
          d.name := name.value;
        }
        HeldLog(d, v, half);
      }
    }

    /** The call is over: the state is that after one more call. */
    ghost method Finish(c: Call)
      requires Within(c.drv, Update(ViewOf(calls, c.drv, half), c, half))
      modifies this`calls
      ensures Valid() && calls == old(calls) + [c]
    {
      hide ViewOf, Update, Holds, NoRepeats, FirstSeen;
      ViewOfAppend(calls, c, half);
      calls := calls + [c];
    }

    /** One line of one derivation. */
    method AddLine(drv: Bytes, text: Bytes, ts: Option<int>, name: Option<Bytes>)
      requires Valid()
      modifies this, drvs.Values
      ensures Valid() && calls == old(calls) + [Line(drv, text, ts, name)]
    {
      hide ViewOf, Keeps, InOrder, Count, NoRepeats, Append, Holds, Mention, FirstSeen;
      var d := Get(drv, name);
      HeldLog(d, Mention(ViewOf(calls, drv, half), drv, name), half);
      d.Receive(text, ts, half);
      HeldLog(d, Update(ViewOf(calls, drv, half), Line(drv, text, ts, name), half), half);
      Finish(Line(drv, text, ts, name));
    }

    /** A phase of one derivation, before its next line. */
    method AddPhaseOf(drv: Bytes, phase: Bytes, ts: Option<int>)
      requires Valid()
      modifies this, drvs.Values
      ensures Valid() && calls == old(calls) + [PhaseOf(drv, phase, ts)]
    {
      hide ViewOf, Keeps, InOrder, Count, NoRepeats, Holds, AddPhase, Retained, Mention, FirstSeen;
      var d := Get(drv, None);
      HeldLog(d, Mention(ViewOf(calls, drv, half), drv, None), half);
      d.Announce(phase, ts, half);
      HeldLog(d, Update(ViewOf(calls, drv, half), PhaseOf(drv, phase, ts), half), half);
      Finish(PhaseOf(drv, phase, ts));
    }

    method SetStatus(drv: Bytes, status: Bytes)
      requires Valid()
      modifies this, drvs.Values
      ensures Valid() && calls == old(calls) + [StatusOf(drv, status)]
    {
      hide ViewOf, Keeps, InOrder, Count, NoRepeats, Holds, Mention, FirstSeen;
      var d := Get(drv, None);
      HeldLog(d, Mention(ViewOf(calls, drv, half), drv, None), half);
      d.status := status;
      HeldLog(d, Update(ViewOf(calls, drv, half), StatusOf(drv, status), half), half);
      Finish(StatusOf(drv, status));
    }

    /** `register`: a derivation and its name before any line. */
    method RegisterDrv(drv: Bytes, name: Option<Bytes>)
      requires Valid()
      modifies this, drvs.Values
      ensures Valid() && calls == old(calls) + [Register(drv, name)]
    {
      hide ViewOf, NoRepeats, Holds, Mention, FirstSeen;
      var d := Get(drv, name);
      Finish(Register(drv, name));
    }

    /** `stop`: the last time of a derivation. */
    method StopDrv(drv: Bytes, ts: int)
      requires Valid()
      modifies this, drvs.Values
      ensures Valid() && calls == old(calls) + [Stop(drv, ts)]
    {
      hide ViewOf, Keeps, InOrder, Count, NoRepeats, Holds, Mention, FirstSeen;
      var d := Get(drv, None);
      HeldLog(d, Mention(ViewOf(calls, drv, half), drv, None), half);
      d.t1 := Some(ts);
      HeldLog(d, Update(ViewOf(calls, drv, half), Stop(drv, ts), half), half);
      Finish(Stop(drv, ts));
    }

    /** What is packed: the derivations in first-seen order with their retained lines, phases, names and times. */
    method Collect() returns (records: seq<Record>)
      requires Valid()
      ensures Records(records, FirstSeen(calls), calls, half)
      ensures forall i :: 0 <= i < |records| ==> RecordTells(records[i], calls, FirstSeen(calls)[i], half)
    {
      hide ViewOf, Keeps, Count, NoRepeats, Retained, FirstSeen, Holds;
      records := [];
      for i := 0 to |order|
        invariant Records(records, order[..i], calls, half)
      {
        var d := drvs[order[i]];
        HeldLog(d, ViewOf(calls, order[i], half).value, half);
        var lines := d.CurrentLines(half);
        records := records + [Record(order[i], d.name, d.status, lines, d.phases, d.t0, d.t1)];
      }
      assert order[..|order|] == order;
      RecordsTell(records, order, calls, half);
    }

    /** The finished container: it contains those records, and read back each derivation has the retained lines it
        got, whatever was interleaved, when no line had a line boundary. */
    method Pack(codec: Codec) returns (blob: Option<Bytes>, ghost records: seq<Record>, ghost toc: seq<Entry>,
                                       ghost groups: seq<Group>, ghost payload: Bytes)
      requires Valid() && codec.Faithful()
      ensures Records(records, FirstSeen(calls), calls, half) && |toc| == |records| == |FirstSeen(calls)|
      ensures blob.Some? ==> Contains(codec, blob.value, records, toc, groups, payload)
      ensures blob.Some? ==> forall i :: 0 <= i < |toc| && AllClean(LinesOf(calls, FirstSeen(calls)[i])) ==>
                EntryLines(codec, blob.value, toc[i]) == Retained(LinesOf(calls, FirstSeen(calls)[i]), half)
    {
      hide Retained, Clean, Contains, Records, Laid, EntryLines, LinesOf, Described, FirstSeen;
      var rs := Collect();
      records := rs;
      blob, toc, groups, payload := Finalize(codec, groupBytes, rs);
      ghost var drvs := FirstSeen(calls);
      SameLength(records, drvs, calls, half);
      if blob.Some? {
        forall i | 0 <= i < |toc| && AllClean(LinesOf(calls, drvs[i]))
          ensures EntryLines(codec, blob.value, toc[i]) == Retained(LinesOf(calls, drvs[i]), half)
        {
          RecordsOne(records, drvs, calls, half, i);
          RetainedStaysClean(LinesOf(calls, drvs[i]), half);
          ContainerRoundTrip(codec, blob.value, records, toc, groups, payload, i);
        }
      }
    }
  }

  ghost predicate AllClean(lines: seq<Bytes>) {
    forall l :: l in lines ==> Clean(l)
  }

  lemma SameLength(records: seq<Record>, order: seq<Bytes>, calls: seq<Call>, half: nat)
    requires Records(records, order, calls, half)
    ensures |records| == |order|
  {
  }

  lemma {:induction false} LinesOfPrefix(calls: seq<Call>, drv: Bytes, n: nat)
    requires n <= |calls|
    ensures |LinesOf(calls[..n], drv)| <= |LinesOf(calls, drv)|
    ensures LinesOf(calls[..n], drv) == LinesOf(calls, drv)[..|LinesOf(calls[..n], drv)|]
  {
    if n < |calls| {
      var init := calls[..|calls| - 1];
      LinesOfPrefix(init, drv, n);
      assert init[..n] == calls[..n];
    } else {
      assert calls[..n] == calls;
    }
  }

  /** Row `p` marks the phase that call `i` announced: before it stand as many lines as were retained at that time,
      and the very lines received before it when these are in the kept head or nothing is elided. */
  ghost predicate MarksCall(rows: seq<Row>, p: nat, calls: seq<Call>, drv: Bytes, half: nat, i: nat) {
    && p < |rows| && i < |calls| && calls[i].PhaseOf? && rows[p] == Marker(calls[i].phase)
    && var lines := LinesOf(calls[..i], drv);
       && |Texts(rows[..p])| == |Retained(lines, half)|
       && (|lines| <= half || |LinesOf(calls, drv)| <= 2 * half ==> Texts(rows[..p]) == lines)
  }

  /** The rendered rows, from the calls: the retained lines, and a marker for every announced phase, in order. */
  ghost predicate RendersCalls(rows: seq<Row>, calls: seq<Call>, drv: Bytes, half: nat, marks: seq<nat>, at: seq<nat>) {
    && Texts(rows) == Retained(LinesOf(calls, drv), half) && AnnouncedAt(calls, drv, at)
    && (forall a, b :: 0 <= a < b < |marks| ==> marks[a] < marks[b])
    && (forall p :: p in marks <==> 0 <= p < |rows| && rows[p].Marker?)
    && |marks| == |at| && forall k :: 0 <= k < |at| ==> MarksCall(rows, marks[k], calls, drv, half, at[k])
  }

  lemma RowsOfCalls(rows: seq<Row>, calls: seq<Call>, drv: Bytes, half: nat) returns (marks: seq<nat>, at: seq<nat>)
    requires Texts(rows) == Retained(LinesOf(calls, drv), half)
    requires Placed(rows) == PhasesOfView(ViewOf(calls, drv, half))
    ensures RendersCalls(rows, calls, drv, half, marks, at)
  {
    hide Texts, Placed, Retained, LinesOf, ViewOf, AnnouncedAt, MarksCall;
    at := PhasesExactly(calls, drv, half);
    marks := FindMarkers(rows);
    forall k | 0 <= k < |at|
      ensures MarksCall(rows, marks[k], calls, drv, half, at[k])
    {
      MarkOfCall(rows, marks[k], Placed(rows)[k], calls, drv, half, at[k]);
    }
  }

  lemma MarkOfCall(rows: seq<Row>, p: nat, phase: Phase, calls: seq<Call>, drv: Bytes, half: nat, i: nat)
    requires Texts(rows) == Retained(LinesOf(calls, drv), half) && RecordedAt(phase, calls, drv, half, i)
    requires p < |rows| && rows[p] == Marker(phase.name) && |Texts(rows[..p])| == phase.line
    ensures MarksCall(rows, p, calls, drv, half, i)
  {
    hide Texts, Retained, LinesOf;
    var lines, all := LinesOf(calls[..i], drv), LinesOf(calls, drv);
    LinesOfPrefix(calls, drv, i);
    TextsPrefix(rows, p);
    if |lines| <= half || |all| <= 2 * half {
      RetainedPrefix(all, half, |lines|);
      RetainedPrefix(lines, half, |lines|);
      assert |Retained(lines, half)| == |lines| by {
        NothingElided(lines, half);
      }
    }
  }

  lemma NothingElided(lines: seq<Bytes>, half: nat)
    requires |lines| <= 2 * half
    ensures Retained(lines, half) == lines
  {
  }

  /** From the calls to the reader: entry `i` of the packed container, rendered, has the retained lines of its
      derivation, and its announced phases, each where it was recorded. */
  method RenderCaptured(writer: LogContainerWriter, codec: Codec, i: nat)
      returns (out: Option<seq<Bytes>>, ghost rows: seq<Row>, ghost marks: seq<nat>, ghost at: seq<nat>)
    requires writer.Valid() && codec.Faithful() && i < |FirstSeen(writer.calls)|
    ensures var drv := FirstSeen(writer.calls)[i];
            out.Some? && AllClean(LinesOf(writer.calls, drv)) ==>
              && |out.value| == |rows|
              && (forall p :: 0 <= p < |rows| ==>
                    out.value[p] == match rows[p] case Marker(name) => Ascii("Running phase: ") + name
                                                  case Content(line) => line)
              && RendersCalls(rows, writer.calls, drv, writer.half, marks, at)
              && NamesOf(Placed(rows)) == PhasesOf(writer.calls, drv)
  {
    hide Retained, Clean, Contains, Records, EntryLines, LinesOf, RenderAll, Texts, Placed, FirstSeen, ViewOf, PhasesOf;
    ghost var calls, half := writer.calls, writer.half;
    ghost var drvs := FirstSeen(calls);
    var blob, records, toc, groups, payload := writer.Pack(codec);
    if blob.None? {
      return None, [], [], [];
    }
    RecordsOne(records, drvs, calls, half, i);
    ViewExactly(calls, drvs[i], half);
    if AllClean(LinesOf(calls, drvs[i])) {
      RetainedStaysClean(LinesOf(calls, drvs[i]), half);
    }
    var reader := new LogContainerReader(codec, blob.value, records, toc, groups, payload);
    var lines;
    lines, rows := reader.RenderedLines(i);
    RenderedRows(rows);
    out, marks, at := Some(lines), [], [];
    if AllClean(LinesOf(calls, drvs[i])) {
      marks, at := RowsOfCalls(rows, calls, drvs[i], half);
    }
  }
}
