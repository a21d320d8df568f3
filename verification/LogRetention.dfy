/** Retention of one derivation's log lines, and the phases recorded beside them. */
module LogRetention {
  import opened Wrappers
  import opened ByteStrings

  /** A build phase and the line number it was announced before. */
  datatype Phase = Phase(name: Bytes, line: nat)

  /** The head and tail of the lines, and how many were dropped between. */
  datatype Kept = Kept(head: seq<Bytes>, tail: seq<Bytes>, dropped: nat)

  function Append(k: Kept, text: Bytes, half: nat): Kept {
    if |k.head| < half then k.(head := k.head + [text])
    else if |k.tail| + 1 > half then k.(tail := (k.tail + [text])[1..], dropped := k.dropped + 1)
    else k.(tail := k.tail + [text])
  }

  function Count(k: Kept): nat {
    |k.head| + (if k.dropped > 0 then 1 else 0) + |k.tail|
  }

  const ELLIPSIS: Bytes := [0xE2, 0x80, 0xA6]

  /** The line that stands in for the dropped ones. */
  function Elided(dropped: nat): Bytes {
    ELLIPSIS + Ascii(" ") + Digits(dropped) + Ascii(" lines elided (log too large) ") + ELLIPSIS
  }

  /** It says how many, between two ellipses, U+2026. */
  lemma ElidedTells(dropped: nat) returns (digits: Bytes)
    ensures Elided(dropped)
         == [0xE2, 0x80, 0xA6] + Ascii(" ") + digits + Ascii(" lines elided (log too large) ") + [0xE2, 0x80, 0xA6]
    ensures NumberOf(digits) == dropped
  {
    digits := Digits(dropped);
    DigitsRead(dropped);
  }

  function Lines(k: Kept): seq<Bytes> {
    if k.dropped == 0 then k.head + k.tail else k.head + [Elided(k.dropped)] + k.tail
  }

  /** All lines, or the first half, one elision line with the exact count, and the last half. */
  function Retained(all: seq<Bytes>, half: nat): seq<Bytes> {
    if |all| <= 2 * half then all
    else all[..half] + [Elided(|all| - 2 * half)] + all[|all| - half..]
  }

  /** What is kept of the lines appended so far. */
  ghost predicate Keeps(k: Kept, all: seq<Bytes>, half: nat) {
    && (if |all| <= half then k.head == all else k.head == all[..half])
    && (if |all| <= half then k.tail == []
        else if |all| <= 2 * half then k.tail == all[half..] else k.tail == all[|all| - half..])
    && k.dropped == (if |all| <= 2 * half then 0 else |all| - 2 * half)
  }

  lemma AppendKeeps(k: Kept, all: seq<Bytes>, half: nat, text: Bytes)
    requires half >= 1 && Keeps(k, all, half)
    ensures Keeps(Append(k, text, half), all + [text], half)
    ensures Count(k) <= Count(Append(k, text, half)) <= Count(k) + 1
  {
    var all' := all + [text];
    if |all| < half {
      assert all' == all + [text];
    } else if |all| < 2 * half {
      assert all'[half..] == all[half..] + [text];
      assert all'[..half] == all[..half];
    } else {
      assert all'[..half] == all[..half];
      assert all'[|all'| - half..] == (all[|all| - half..] + [text])[1..];
    }
  }

  /** The retained lines are the stated ones, and the count is their number. */
  lemma KeptLines(k: Kept, all: seq<Bytes>, half: nat)
    requires Keeps(k, all, half)
    ensures Lines(k) == Retained(all, half)
    ensures Count(k) == |Lines(k)| == (if |all| <= 2 * half then |all| else 2 * half + 1)
  {
    if half < |all| <= 2 * half {
      assert all == all[..half] + all[half..];
    }
  }

  // ---------------------------------------------------------------------------
  // Phases
  // ---------------------------------------------------------------------------

  /** A new phase is recorded at the present line; repeating the last one is not. */
  function AddPhase(phases: seq<Phase>, name: Bytes, count: nat): seq<Phase> {
    if phases == [] || phases[|phases| - 1].name != name then phases + [Phase(name, count)] else phases
  }

  ghost predicate InOrder(phases: seq<Phase>, count: nat) {
    && (forall i, k :: 0 <= i < k < |phases| ==> phases[i].line <= phases[k].line)
    && (forall i :: 0 <= i < |phases| ==> phases[i].line <= count)
  }

  /** One line of the rendered log. */
  datatype Row = Marker(name: Bytes) | Content(line: Bytes)

  function Render(row: Row): Bytes {
    match row
    case Marker(name) => Ascii("Running phase: ") + name
    case Content(line) => line
  }

  function RenderAll(rows: seq<Row>): seq<Bytes> {
    seq(|rows|, i requires 0 <= i < |rows| => Render(rows[i]))
  }

  /** The rows that are lines, markers erased. */
  function Texts(rows: seq<Row>): seq<Bytes> {
    if rows == [] then []
    else Texts(rows[..|rows| - 1]) + (match rows[|rows| - 1] case Marker(_) => [] case Content(line) => [line])
  }

  /** The markers, in order, each with the number of lines before it. */
  function Placed(rows: seq<Row>): seq<Phase> {
    if rows == [] then []
    else
      var init := rows[..|rows| - 1];
      Placed(init) + (match rows[|rows| - 1] case Marker(name) => [Phase(name, |Texts(init)|)] case Content(_) => [])
  }

  /** The names of the phases announced exactly before line `n`. */
  function NamesAt(phases: seq<Phase>, n: nat): seq<Bytes> {
    if phases == [] then []
    else
      var last := phases[|phases| - 1];
      NamesAt(phases[..|phases| - 1], n) + (if last.line == n then [last.name] else [])
  }

  /** The phases announced before an earlier line. */
  function PhasesBefore(phases: seq<Phase>, n: nat): seq<Phase> {
    if phases == [] then []
    else
      var last := phases[|phases| - 1];
      PhasesBefore(phases[..|phases| - 1], n) + (if last.line < n then [last] else [])
  }

  function AtLine(names: seq<Bytes>, n: nat): seq<Phase> {
    seq(|names|, i requires 0 <= i < |names| => Phase(names[i], n))
  }

  /** Ordered phases come out line by line. */
  lemma {:induction false} PhasesStep(phases: seq<Phase>, n: nat, count: nat)
    requires InOrder(phases, count)
    ensures PhasesBefore(phases, n + 1) == PhasesBefore(phases, n) + AtLine(NamesAt(phases, n), n)
  {
    hide AtLine, NamesAt, PhasesBefore;
    if phases == [] {
      NoPhases(n);
    } else {
      var init, last := phases[..|phases| - 1], phases[|phases| - 1];
      assert forall i :: 0 <= i < |init| ==> init[i] == phases[i] && init[i].line <= last.line;
      PhasesStep(init, n, count);
      PhasesSnoc(phases, n);
      PhasesSnoc(phases, n + 1);
      if last.line < n {
        NoneAt(init, n);
      } else if last.line == n {
        AtLineAppend(NamesAt(init, n), last.name, n);
        AssocPhases(PhasesBefore(init, n), AtLine(NamesAt(init, n), n), last);
      }
    }
  }

  lemma NoPhases(n: nat)
    ensures PhasesBefore([], n + 1) == PhasesBefore([], n) + AtLine(NamesAt([], n), n)
  {
  }

  lemma PhasesSnoc(phases: seq<Phase>, n: nat)
    requires phases != []
    ensures var init, last := phases[..|phases| - 1], phases[|phases| - 1];
            && PhasesBefore(phases, n) == (if last.line < n then PhasesBefore(init, n) + [last]
                                           else PhasesBefore(init, n))
            && NamesAt(phases, n) == (if last.line == n then NamesAt(init, n) + [last.name] else NamesAt(init, n))
            && AtLine([], n) == [] && PhasesBefore(init, n) + [] == PhasesBefore(init, n)
  {
  }

  lemma AtLineAppend(names: seq<Bytes>, name: Bytes, n: nat)
    ensures AtLine(names + [name], n) == AtLine(names, n) + [Phase(name, n)]
  {
  }

  lemma {:induction false} NoneAt(phases: seq<Phase>, n: nat)
    requires forall i :: 0 <= i < |phases| ==> phases[i].line < n
    ensures NamesAt(phases, n) == []
  {
    if phases != [] {
      NoneAt(phases[..|phases| - 1], n);
    }
  }

  lemma {:induction false} PhasesAll(phases: seq<Phase>, n: nat)
    requires forall i :: 0 <= i < |phases| ==> phases[i].line < n
    ensures PhasesBefore(phases, n) == phases
  {
    hide PhasesBefore, NamesAt, AtLine;
    if phases == [] {
      NoneBefore(n);
    } else {
      var init, last := phases[..|phases| - 1], phases[|phases| - 1];
      PhasesAll(init, n);
      PhasesSnoc(phases, n);
      assert init + [last] == phases;
    }
  }

  lemma NoneBefore(n: nat)
    ensures PhasesBefore([], n) == []
  {
  }

  lemma {:induction false} PhasesNone(phases: seq<Phase>)
    ensures PhasesBefore(phases, 0) == []
  {
    if phases != [] {
      PhasesNone(phases[..|phases| - 1]);
    }
  }

  function MarkerRows(names: seq<Bytes>): seq<Row> {
    seq(|names|, i requires 0 <= i < |names| => Marker(names[i]))
  }

  lemma {:induction false} AppendMarkers(rows: seq<Row>, names: seq<Bytes>)
    ensures Texts(rows + MarkerRows(names)) == Texts(rows)
    ensures Placed(rows + MarkerRows(names)) == Placed(rows) + AtLine(names, |Texts(rows)|)
  {
    hide Texts, Placed, AtLine, MarkerRows;
    if names == [] {
      NoMarkers(rows);
    } else {
      var init, last := names[..|names| - 1], names[|names| - 1];
      assert names == init + [last];
      AppendMarkers(rows, init);
      MarkerRowsAppend(rows, init, last);
      AppendMarker(rows + MarkerRows(init), last);
      AtLineAppend(init, last, |Texts(rows)|);
      AssocPhases(Placed(rows), AtLine(init, |Texts(rows)|), Phase(last, |Texts(rows)|));
    }
  }

  lemma NoMarkers(rows: seq<Row>)
    ensures rows + MarkerRows([]) == rows && forall n :: AtLine([], n) == []
  {
  }

  lemma MarkerRowsAppend(rows: seq<Row>, init: seq<Bytes>, last: Bytes)
    ensures rows + MarkerRows(init + [last]) == rows + MarkerRows(init) + [Marker(last)]
  {
    assert MarkerRows(init + [last]) == MarkerRows(init) + [Marker(last)];
  }

  lemma AppendMarker(rows: seq<Row>, name: Bytes)
    ensures Texts(rows + [Marker(name)]) == Texts(rows)
    ensures Placed(rows + [Marker(name)]) == Placed(rows) + [Phase(name, |Texts(rows)|)]
  {
    assert (rows + [Marker(name)])[..|rows|] == rows;
  }

  lemma AssocPhases(a: seq<Phase>, b: seq<Phase>, p: Phase)
    ensures a + b + [p] == a + (b + [p])
  {
  }

  lemma AppendText(rows: seq<Row>, line: Bytes)
    ensures Texts(rows + [Content(line)]) == Texts(rows) + [line]
    ensures Placed(rows + [Content(line)]) == Placed(rows)
  {
    assert (rows + [Content(line)])[..|rows|] == rows;
  }

  /** The markers are at these places, each with the name and after as many lines as `placed` says. */
  ghost predicate MarkersAt(rows: seq<Row>, placed: seq<Phase>, at: seq<nat>) {
    && |at| == |placed| && (forall a, b :: 0 <= a < b < |at| ==> at[a] < at[b])
    && (forall j :: j in at <==> 0 <= j < |rows| && rows[j].Marker?)
    && forall k :: 0 <= k < |at| ==>
         at[k] < |rows| && rows[at[k]] == Marker(placed[k].name) && |Texts(rows[..at[k]])| == placed[k].line
  }

  lemma {:induction false} FindMarkers(rows: seq<Row>) returns (at: seq<nat>)
    ensures MarkersAt(rows, Placed(rows), at)
  {
    hide Texts, Placed, MarkersAt;
    if rows == [] {
      at := [];
      NoMarkersAt();
    } else {
      var n := |rows| - 1;
      var before := FindMarkers(rows[..n]);
      assert rows[..n] + [rows[n]] == rows;
      match rows[n] {
        case Marker(name) =>
          AppendMarker(rows[..n], name);
          MarkersGrow(rows[..n], rows[n], Placed(rows[..n]), before);
          at := before + [n];
        case Content(line) =>
          AppendText(rows[..n], line);
          MarkersGrow(rows[..n], rows[n], Placed(rows[..n]), before);
          at := before;
      }
    }
  }

  lemma NoMarkersAt()
    ensures MarkersAt([], Placed([]), [])
  {
  }

  lemma MarkersGrow(rows: seq<Row>, row: Row, placed: seq<Phase>, at: seq<nat>)
    requires MarkersAt(rows, placed, at)
    ensures match row
            case Marker(name) => MarkersAt(rows + [row], placed + [Phase(name, |Texts(rows)|)], at + [|rows|])
            case Content(_) => MarkersAt(rows + [row], placed, at)
  {
    hide Texts;
    assert forall k :: 0 <= k < |at| ==> at[k] in at && (rows + [row])[..at[k]] == rows[..at[k]];
    assert (rows + [row])[..|rows|] == rows;
    assert forall j :: j in at + [|rows|] <==> j in at || j == |rows|;
  }

  lemma {:induction false} TextsPrefix(rows: seq<Row>, n: nat)
    requires n <= |rows|
    ensures |Texts(rows[..n])| <= |Texts(rows)| && Texts(rows[..n]) == Texts(rows)[..|Texts(rows[..n])|]
  {
    if n < |rows| {
      var init := rows[..|rows| - 1];
      TextsPrefix(init, n);
      assert init[..n] == rows[..n];
    } else {
      assert rows[..n] == rows;
    }
  }

  /** Within the kept head, or when nothing is elided, the retained lines begin like the lines. */
  lemma RetainedPrefix(all: seq<Bytes>, half: nat, n: nat)
    requires n <= |all| && (n <= half || |all| <= 2 * half)
    ensures n <= |Retained(all, half)| && Retained(all, half)[..n] == all[..n]
  {
  }

  /** The rendered markers of the phases `names`. */
  function MarkerTexts(names: seq<Bytes>): seq<Bytes> {
    seq(|names|, i requires 0 <= i < |names| => Ascii("Running phase: ") + names[i])
  }

  /** `rows` renders to `out`: the first `n` lines and the markers of the phases before line `n`. */
  ghost predicate Rendering(out: seq<Bytes>, rows: seq<Row>, lines: seq<Bytes>, phases: seq<Phase>, n: nat) {
    && out == RenderAll(rows)
    && Texts(rows) == lines[..if n <= |lines| then n else |lines|]
    && Placed(rows) == PhasesBefore(phases, n)
  }

  lemma RenderingStarts(lines: seq<Bytes>, phases: seq<Phase>)
    ensures Rendering([], [], lines, phases, 0)
  {
    PhasesNone(phases);
  }

  lemma RenderingStep(out: seq<Bytes>, rows: seq<Row>, lines: seq<Bytes>, phases: seq<Phase>, n: nat, count: nat)
    requires Rendering(out, rows, lines, phases, n) && InOrder(phases, count) && n <= |lines|
    ensures var names := NamesAt(phases, n);
            if n < |lines| then
              Rendering(out + MarkerTexts(names) + [lines[n]], rows + MarkerRows(names) + [Content(lines[n])], lines,
                        phases, n + 1)
            else Rendering(out + MarkerTexts(names), rows + MarkerRows(names), lines, phases, n + 1)
  {
    hide Texts, Placed, NamesAt, PhasesBefore, MarkerRows, MarkerTexts, RenderAll, InOrder;
    var names := NamesAt(phases, n);
    PhasesStep(phases, n, count);
    AppendMarkers(rows, names);
    RenderMarkers(rows, names);
    if n < |lines| {
      AppendText(rows + MarkerRows(names), lines[n]);
      RenderText(rows + MarkerRows(names), lines[n]);
      assert lines[..n] + [lines[n]] == lines[..n + 1];
    }
  }

  lemma RenderMarkers(rows: seq<Row>, names: seq<Bytes>)
    ensures RenderAll(rows + MarkerRows(names)) == RenderAll(rows) + MarkerTexts(names)
  {
  }

  lemma RenderText(rows: seq<Row>, line: Bytes)
    ensures RenderAll(rows + [Content(line)]) == RenderAll(rows) + [line]
  {
  }

  /** `lines_with_phases`: the lines when markers are erased, and every phase recorded no later than their end, once,
      in order and at its line. */
  method LinesWithPhases(lines: seq<Bytes>, phases: seq<Phase>, ghost count: nat)
      returns (out: seq<Bytes>, ghost rows: seq<Row>)
    requires InOrder(phases, count)
    ensures out == RenderAll(rows) && Texts(rows) == lines && Placed(rows) == PhasesBefore(phases, |lines| + 1)
    ensures |out| == |rows| && forall p :: 0 <= p < |rows| ==>
              out[p] == match rows[p] case Marker(name) => Ascii("Running phase: ") + name case Content(line) => line
    ensures count <= |lines| ==> Placed(rows) == phases
    ensures phases == [] ==> out == lines
  {
    hide Texts, Placed, NamesAt, RenderAll;
    rows := [];
    if phases == [] {
      rows := seq(|lines|, i requires 0 <= i < |lines| => Content(lines[i]));
      TextsOnly(lines);
      RenderingEnds(lines, rows, lines, phases, count);
      RenderedRows(rows);
      return lines, rows;
    }
    hide Rendering, MarkerTexts, MarkerRows;
    var at := PhasesByLine(phases);
    out := [];
    RenderingStarts(lines, phases);
    for n := 0 to |lines| + 1
      invariant Rendering(out, rows, lines, phases, n)
    {
      RenderingStep(out, rows, lines, phases, n, count);
      var names := if n in at then at[n] else [];
      out := out + MarkerTexts(names);
      rows := rows + MarkerRows(names);
      if n < |lines| {
        out := out + [lines[n]];
        rows := rows + [Content(lines[n])];
      }
    }
    RenderingEnds(out, rows, lines, phases, count);
    RenderedRows(rows);
  }

  lemma RenderedRows(rows: seq<Row>)
    ensures |RenderAll(rows)| == |rows|
    ensures forall p :: 0 <= p < |rows| ==>
              RenderAll(rows)[p]
                == match rows[p] case Marker(name) => Ascii("Running phase: ") + name case Content(line) => line
  {
  }

  lemma RenderingEnds(out: seq<Bytes>, rows: seq<Row>, lines: seq<Bytes>, phases: seq<Phase>, count: nat)
    requires Rendering(out, rows, lines, phases, |lines| + 1) && InOrder(phases, count)
    ensures out == RenderAll(rows) && Texts(rows) == lines && Placed(rows) == PhasesBefore(phases, |lines| + 1)
    ensures count <= |lines| ==> Placed(rows) == phases
  {
    hide RenderAll, Texts, Placed;
    if count <= |lines| {
      PhasesAll(phases, |lines| + 1);
    }
  }

  lemma {:induction false} TextsOnly(lines: seq<Bytes>)
    ensures Texts(seq(|lines|, i requires 0 <= i < |lines| => Content(lines[i]))) == lines
    ensures Placed(seq(|lines|, i requires 0 <= i < |lines| => Content(lines[i]))) == []
    ensures RenderAll(seq(|lines|, i requires 0 <= i < |lines| => Content(lines[i]))) == lines
  {
    var rows := seq(|lines|, i requires 0 <= i < |lines| => Content(lines[i]));
    if lines != [] {
      TextsOnly(lines[..|lines| - 1]);
      assert rows[..|lines| - 1] == seq(|lines| - 1,
                                        i requires 0 <= i < |lines| - 1 => Content(lines[..|lines| - 1][i]));
    }
  }

  /** `at`: the phases of each line, in order. */
  method PhasesByLine(phases: seq<Phase>) returns (at: map<nat, seq<Bytes>>)
    ensures forall n: nat :: (if n in at then at[n] else []) == NamesAt(phases, n)
  {
    at := map[];
    for i := 0 to |phases|
      invariant forall n: nat :: (if n in at then at[n] else []) == NamesAt(phases[..i], n)
    {
      assert phases[..i + 1][..i] == phases[..i];
      var p := phases[i];
      at := at[p.line := (if p.line in at then at[p.line] else []) + [p.name]];
    }
    assert phases[..|phases|] == phases;
  }

  /** `_Drv`: the lines of one derivation as they arrive. `all` is every line it got. */
  class DerivationLog {
    var name: Bytes
    var status: Bytes
    var t0: Option<int>
    var t1: Option<int>
    var head: seq<Bytes>
    var tail: seq<Bytes>
    var dropped: nat
    var phases: seq<Phase>
    ghost var all: seq<Bytes>

    ghost function View(): Kept
      reads this
    {
      Kept(head, tail, dropped)
    }

    ghost predicate Valid(half: nat)
      reads this
    {
      half >= 1 && Keeps(View(), all, half) && InOrder(phases, Count(View()))
    }

    constructor (name: Bytes, half: nat)
      requires half >= 1
      ensures Valid(half) && all == [] && phases == [] && this.name == name
      ensures status == Ascii("built") && t0.None? && t1.None?
    {
      this.name, status, t0, t1 := name, Ascii("built"), None, None;
      head, tail, dropped, phases, all := [], [], 0, [], [];
    }

    /** A line with its time: the first time starts the derivation, each one is its latest. */
    method Receive(text: Bytes, ts: Option<int>, half: nat)
      requires Valid(half)
      modifies this`head, this`tail, this`dropped, this`all, this`t0, this`t1
      ensures Valid(half) && all == old(all) + [text]
      ensures t0 == (if old(t0).None? then ts else old(t0)) && t1 == (if ts.Some? then ts else old(t1))
    {
      if ts.Some? {
        if t0.None? {
          t0 := ts;
        }
        t1 := ts;
      }
      AppendLine(text, half);
    }

    /** A phase with its time. */
    method Announce(phase: Bytes, ts: Option<int>, ghost half: nat)
      requires Valid(half)
      modifies this`phases, this`t1
      ensures Valid(half) && t1 == (if ts.Some? then ts else old(t1))
      ensures phases == AddPhase(old(phases), phase, Count(View()))
      ensures old(phases) != [] && old(phases)[|old(phases)| - 1].name == phase ==> phases == old(phases)
      ensures old(phases) == [] || old(phases)[|old(phases)| - 1].name != phase ==>
                phases == old(phases) + [Phase(phase, |Retained(all, half)|)]
    {
      RecordPhase(phase, half);
      if ts.Some? {
        t1 := ts;
      }
    }

    method AppendLine(text: Bytes, half: nat)
      requires Valid(half)
      modifies this`head, this`tail, this`dropped, this`all
      ensures Valid(half) && all == old(all) + [text] && View() == Append(old(View()), text, half)
    {
      hide Keeps, Count;
      AppendKeeps(View(), all, half, text);
      all := all + [text];
      if |head| < half {
        head := head + [text];
        return;
      }
      tail := tail + [text];
      if |tail| > half {
        tail := tail[1..];
        dropped := dropped + 1;
      }
    }

    method CurrentLines(ghost half: nat) returns (lines: seq<Bytes>)
      requires Valid(half)
      ensures lines == Retained(all, half) && |lines| == Count(View()) && InOrder(phases, |lines|)
    {
      KeptLines(View(), all, half);
      if dropped == 0 {
        return head + tail;
      }
      return head + [Elided(dropped)] + tail;
    }

    /** `LogContainerWriter.phase` on this derivation. */
    method RecordPhase(name: Bytes, ghost half: nat)
      requires Valid(half)
      modifies this`phases
      ensures Valid(half) && phases == AddPhase(old(phases), name, Count(View()))
      ensures old(phases) != [] && old(phases)[|old(phases)| - 1].name == name ==> phases == old(phases)
      ensures old(phases) == [] || old(phases)[|old(phases)| - 1].name != name ==>
                phases == old(phases) + [Phase(name, |Retained(all, half)|)]
    {
      KeptLines(View(), all, half);
      var count := |head| + (if dropped > 0 then 1 else 0) + |tail|;
      if phases == [] || phases[|phases| - 1].name != name {
        phases := phases + [Phase(name, count)];
      }
    }
  }
}
