/**
 `LogContainerReader.search`: finds a query in the lower-cased frames and
 attributes byte positions to derivations and lines by bisection. It reports
 what a scan of every derivation line by line finds.
 */
module LogSearch {
  import opened ByteStrings
  import opened LogText
  import opened LogScan
  import opened LogContainer

  datatype Hit = Hit(idx: nat, name: Bytes, lines: seq<nat>)

  /** Byte offset in the frame, and entry number. */
  datatype Member = Member(bs: nat, ti: nat)

  function FirstOf(found: seq<nat>, cap: nat): seq<nat> {
    if |found| <= cap then found else found[..cap]
  }

  // ---------------------------------------------------------------------------
  // Specification
  // ---------------------------------------------------------------------------

  /** What the naive scan finds in one derivation. */
  function Scan(record: Record, q: Bytes): seq<nat> {
    ScanLines(LowerAll(record.lines), q)
  }

  /** Exactly the derivations the naive scan finds something in, in order, each
      with its name and the first `cap` line numbers. */
  ghost predicate Reports(out: seq<Hit>, records: seq<Record>, q: Bytes, cap: nat) {
    && (forall a, b :: 0 <= a < b < |out| ==> out[a].idx < out[b].idx)
    && (forall h :: h in out ==> IsHit(h, records, q, cap))
    && (forall i :: 0 <= i < |records| && Scan(records[i], q) != [] ==>
          Hit(i, records[i].name, FirstOf(Scan(records[i], q), cap)) in out)
  }

  ghost predicate IsHit(h: Hit, records: seq<Record>, q: Bytes, cap: nat) {
    && h.idx < |records| && Scan(records[h.idx], q) != []
    && h == Hit(h.idx, records[h.idx].name, FirstOf(Scan(records[h.idx], q), cap))
  }

  /** The same in the caller's terms: a derivation is reported exactly when one of its lines contains the query in
      whatever case, with the first `cap` line numbers at which it does. */
  ghost predicate ReportsIgnoringCase(out: seq<Hit>, records: seq<Record>, query: Bytes, cap: nat) {
    && (forall a, b :: 0 <= a < b < |out| ==> out[a].idx < out[b].idx)
    && (forall i :: 0 <= i < |records| ==>
          ((exists h :: h in out && h.idx == i)
           <==> exists l :: l in records[i].lines && ContainsIgnoringCase(l, query)))
    && forall h :: h in out ==>
         && h.idx < |records| && h.name == records[h.idx].name
         && exists found :: Found(found, records[h.idx].lines, query)
                            && h.lines == found[..if |found| < cap then |found| else cap]
  }

  lemma ReportsIgnoreCase(out: seq<Hit>, records: seq<Record>, query: Bytes, cap: nat)
    requires Reports(out, records, Lower(query), cap)
    ensures ReportsIgnoringCase(out, records, query, cap)
  {
    hide Found, ContainsIgnoringCase, Lower, LowerAll, ScanLines;
    forall i | 0 <= i < |records|
      ensures Found(Scan(records[i], Lower(query)), records[i].lines, query)
      ensures Scan(records[i], Lower(query)) != []
         <==> exists l :: l in records[i].lines && ContainsIgnoringCase(l, query)
    {
      ScanIgnoresCase(records[i].lines, query);
      FoundSomething(Scan(records[i], Lower(query)), records[i].lines, query);
    }
    forall i | 0 <= i < |records|
      ensures (exists h :: h in out && h.idx == i) <==> Scan(records[i], Lower(query)) != []
    {
      if Scan(records[i], Lower(query)) != [] {
        assert Hit(i, records[i].name, FirstOf(Scan(records[i], Lower(query)), cap)) in out;
      }
    }
    forall h | h in out
      ensures h.idx < |records| && h.name == records[h.idx].name
      ensures exists found :: Found(found, records[h.idx].lines, query)
                              && h.lines == found[..if |found| < cap then |found| else cap]
    {
      var found := Scan(records[h.idx], Lower(query));
      assert Found(found, records[h.idx].lines, query);
      assert h.lines == found[..if |found| < cap then |found| else cap];
    }
  }

  // ---------------------------------------------------------------------------
  // The texts of one frame
  // ---------------------------------------------------------------------------

  function Start(ts: seq<Bytes>, k: nat): nat
    requires k <= |ts|
  {
    |Join(ts[..k])|
  }

  ghost predicate EndsLine(t: Bytes) {
    t == [] || t[|t| - 1] == NEWLINE
  }

  lemma SplitAt(ts: seq<Bytes>, k: nat)
    requires k < |ts|
    ensures Join(ts) == Join(ts[..k]) + ts[k] + Join(ts[k + 1..])
    ensures Start(ts, k + 1) == Start(ts, k) + |ts[k]| <= |Join(ts)|
  {
    hide Join;
    assert ts == ts[..k] + [ts[k]] + ts[k + 1..];
    assert ts[..k + 1] == ts[..k] + [ts[k]];
    JoinConcat(ts[..k] + [ts[k]], ts[k + 1..]);
    JoinLast(ts[..k], ts[k]);
  }

  lemma {:induction false} StartsMonotone(ts: seq<Bytes>, a: nat, b: nat)
    requires a <= b <= |ts|
    ensures Start(ts, a) <= Start(ts, b)
    decreases b
  {
    hide Start;
    if a < b {
      StartsMonotone(ts, a, b - 1);
      SplitAt(ts, b - 1);
    }
  }

  lemma WholeStart(ts: seq<Bytes>)
    ensures Start(ts, |ts|) == |Join(ts)| && Start(ts, 0) == 0
  {
    assert ts[..|ts|] == ts;
  }

  /** How much of a text of length `len` at `start` lies before `pos`. */
  function Clamp(pos: nat, start: nat, len: nat): (r: nat)
    ensures r <= len
  {
    if pos <= start then 0 else if pos - start <= len then pos - start else len
  }

  /** The occurrences in text `t` at `start` that begin before `pos` are recorded. */
  ghost predicate MemberDone(hits: map<nat, Hit>, ti: nat, name: Bytes, t: Bytes, start: nat, q: Bytes, cap: nat,
                             pos: nat) {
    var found := PosLines(t, q, Clamp(pos, start, |t|));
    && (ti in hits <==> found != [])
    && (ti in hits ==> hits[ti] == Hit(ti, name, FirstOf(found, cap)))
  }

  ghost predicate GroupDone(hits: map<nat, Hit>, first: nat, names: seq<Bytes>, ts: seq<Bytes>, q: Bytes, cap: nat,
                            pos: nat) {
    && |names| == |ts|
    && forall k: nat :: k < |ts| ==> MemberDone(hits, first + k, names[k], ts[k], Start(ts, k), q, cap, pos)
  }

  /** Entries outside `first..end` have the hits they had. */
  ghost predicate OthersKept(hits0: map<nat, Hit>, hits: map<nat, Hit>, first: nat, end: nat) {
    forall i :: i < first || end <= i ==> (i in hits <==> i in hits0) && (i in hits ==> hits[i] == hits0[i])
  }

  lemma GroupStarts(hits: map<nat, Hit>, first: nat, names: seq<Bytes>, ts: seq<Bytes>, q: Bytes, cap: nat)
    requires |names| == |ts| && forall i :: first <= i < first + |ts| ==> i !in hits
    ensures GroupDone(hits, first, names, ts, q, cap, 0)
  {
  }

  /** No occurrence in the frame, none in the text. */
  lemma NoneInText(ts: seq<Bytes>, q: Bytes, k: nat, done: nat, pos: nat)
    requires k < |ts| && NoNewline(q) && EndsLine(ts[k])
    requires forall p :: done <= p < pos ==> !OccursAt(Join(ts), q, p)
    ensures PosLines(ts[k], q, Clamp(done, Start(ts, k), |ts[k]|))
         == PosLines(ts[k], q, Clamp(if done <= pos then pos else done, Start(ts, k), |ts[k]|))
  {
    hide Join, PosLines, OccursAt;
    var t, start := ts[k], Start(ts, k);
    SplitAt(ts, k);
    var upto := if done <= pos then pos else done;
    var a, b := Clamp(done, start, |t|), Clamp(upto, start, |t|);
    forall p: nat | a <= p < b
      ensures !OccursAt(t, q, p)
    {
      OccursInside(Join(ts[..k]), t, Join(ts[k + 1..]), q, p);
    }
    PosLinesSkip(t, q, a, b);
  }

  /** Positions without an occurrence change nothing. */
  lemma {:induction false} GroupSkips(
    hits: map<nat, Hit>, first: nat, names: seq<Bytes>, ts: seq<Bytes>, q: Bytes, cap: nat, done: nat, pos: nat)
    requires GroupDone(hits, first, names, ts, q, cap, done) && done <= pos
    requires NoNewline(q) && forall k :: 0 <= k < |ts| ==> EndsLine(ts[k])
    requires forall p :: done <= p < pos ==> !OccursAt(Join(ts), q, p)
    ensures GroupDone(hits, first, names, ts, q, cap, pos)
  {
    hide Join, PosLines, OccursAt, Start, Clamp, FirstOf;
    forall k: nat | k < |ts|
      ensures MemberDone(hits, first + k, names[k], ts[k], Start(ts, k), q, cap, pos)
    {
      assert MemberDone(hits, first + k, names[k], ts[k], Start(ts, k), q, cap, done);
      NoneInText(ts, q, k, done, pos);
    }
  }

  /** Text `mi` is the one position `pos` is in. */
  ghost predicate Holds(ts: seq<Bytes>, mi: nat, pos: nat) {
    mi < |ts| && Start(ts, mi) <= pos < Start(ts, mi) + |ts[mi]|
  }

  /** `setdefault` and the capped append. */
  function AddHit(hits: map<nat, Hit>, ti: nat, name: Bytes, line: nat, cap: nat): map<nat, Hit> {
    var h := if ti in hits then hits[ti] else Hit(ti, name, []);
    hits[ti := if |h.lines| < cap then h.(lines := h.lines + [line]) else h]
  }

  /** An occurrence at `pos`, recorded for its text with its line there. */
  lemma {:induction false} GroupAdds(
    hits: map<nat, Hit>, first: nat, names: seq<Bytes>, ts: seq<Bytes>, q: Bytes, cap: nat, pos: nat, mi: nat)
    requires GroupDone(hits, first, names, ts, q, cap, pos) && Holds(ts, mi, pos) && OccursAt(Join(ts), q, pos)
    requires NoNewline(q) && EndsLine(ts[mi])
    ensures GroupDone(AddHit(hits, first + mi, names[mi], 1 + Newlines(ts[mi][..pos - Start(ts, mi)]), cap),
                      first, names, ts, q, cap, pos + 1)
  {
    hide *;
    GroupNames(hits, first, names, ts, q, cap, pos);
    HeldIndex(ts, mi, pos);
    forall k: nat | k < |ts|
      ensures MemberDone(AddHit(hits, first + mi, names[mi], 1 + Newlines(ts[mi][..pos - Start(ts, mi)]), cap),
                         first + k, names[k], ts[k], Start(ts, k), q, cap, pos + 1)
    {
      GroupMember(hits, first, names, ts, q, cap, pos, k);
      MemberAfter(hits, first, names[k], names[mi], ts, q, cap, pos, k, mi);
    }
    GroupFromMembers(AddHit(hits, first + mi, names[mi], 1 + Newlines(ts[mi][..pos - Start(ts, mi)]), cap),
                     first, names, ts, q, cap, pos + 1);
  }

  lemma GroupNames(hits: map<nat, Hit>, first: nat, names: seq<Bytes>, ts: seq<Bytes>, q: Bytes, cap: nat, pos: nat)
    requires GroupDone(hits, first, names, ts, q, cap, pos)
    ensures |names| == |ts|
  {
    hide MemberDone, Start;
  }

  lemma GroupMember(hits: map<nat, Hit>, first: nat, names: seq<Bytes>, ts: seq<Bytes>, q: Bytes, cap: nat, pos: nat,
                    k: nat)
    requires GroupDone(hits, first, names, ts, q, cap, pos) && k < |ts|
    ensures |names| == |ts| && MemberDone(hits, first + k, names[k], ts[k], Start(ts, k), q, cap, pos)
  {
    hide MemberDone, Start;
  }

  lemma GroupFromMembers(hits: map<nat, Hit>, first: nat, names: seq<Bytes>, ts: seq<Bytes>, q: Bytes, cap: nat,
                         pos: nat)
    requires |names| == |ts|
    requires forall k: nat :: k < |ts| ==> MemberDone(hits, first + k, names[k], ts[k], Start(ts, k), q, cap, pos)
    ensures GroupDone(hits, first, names, ts, q, cap, pos)
  {
    hide MemberDone, Start;
  }

  /** What an occurrence in text `mi` does to the record of text `k`. */
  lemma {:induction false} MemberAfter(
    hits: map<nat, Hit>, first: nat, name: Bytes, nameAt: Bytes, ts: seq<Bytes>, q: Bytes, cap: nat, pos: nat, k: nat,
    mi: nat)
    requires k < |ts| && Holds(ts, mi, pos) && OccursAt(Join(ts), q, pos) && NoNewline(q) && EndsLine(ts[mi])
    requires MemberDone(hits, first + k, name, ts[k], Start(ts, k), q, cap, pos) && (k == mi ==> name == nameAt)
    ensures MemberDone(AddHit(hits, first + mi, nameAt, 1 + Newlines(ts[mi][..pos - Start(ts, mi)]), cap),
                       first + k, name, ts[k], Start(ts, k), q, cap, pos + 1)
  {
    hide Join, PosLines, OccursAt, Start, Newlines, AddHit, Clamp, FirstOf, EndsLine, NoNewline;
    if k == mi {
      OccursInText(ts, q, mi, pos);
      MemberAdds(hits, first + mi, name, ts[mi], Start(ts, mi), q, cap, pos);
    } else {
      OtherTextClamped(ts, k, mi, pos);
      MemberKept(hits, first + k, first + mi, nameAt, 1 + Newlines(ts[mi][..pos - Start(ts, mi)]), cap);
    }
  }

  lemma OccursInText(ts: seq<Bytes>, q: Bytes, mi: nat, pos: nat)
    requires Holds(ts, mi, pos) && OccursAt(Join(ts), q, pos) && NoNewline(q) && EndsLine(ts[mi])
    ensures OccursAt(ts[mi], q, pos - Start(ts, mi))
  {
    hide Join, OccursAt;
    SplitAt(ts, mi);
    OccursInside(Join(ts[..mi]), ts[mi], Join(ts[mi + 1..]), q, pos - Start(ts, mi));
  }

  lemma OtherTextClamped(ts: seq<Bytes>, k: nat, mi: nat, pos: nat)
    requires Holds(ts, mi, pos) && k < |ts| && k != mi
    ensures Clamp(pos, Start(ts, k), |ts[k]|) == Clamp(pos + 1, Start(ts, k), |ts[k]|)
  {
    hide Start;
    SplitAt(ts, k);
    SplitAt(ts, mi);
    if k < mi {
      StartsMonotone(ts, k + 1, mi);
    } else {
      StartsMonotone(ts, mi + 1, k);
    }
  }

  lemma MemberAdds(hits: map<nat, Hit>, ti: nat, name: Bytes, t: Bytes, start: nat, q: Bytes, cap: nat, pos: nat)
    requires MemberDone(hits, ti, name, t, start, q, cap, pos)
    requires start <= pos < start + |t| && OccursAt(t, q, pos - start)
    ensures MemberDone(AddHit(hits, ti, name, 1 + Newlines(t[..pos - start]), cap), ti, name, t, start, q, cap, pos + 1)
  {
    hide Newlines, OccursAt;
    var found, found' := PosLines(t, q, Clamp(pos, start, |t|)), PosLines(t, q, Clamp(pos + 1, start, |t|));
    assert found' == found + [1 + Newlines(t[..pos - start])];
  }

  lemma MemberKept(hits: map<nat, Hit>, i: nat, ti: nat, name: Bytes, line: nat, cap: nat)
    requires i != ti
    ensures i in AddHit(hits, ti, name, line, cap) <==> i in hits
    ensures i in hits ==> AddHit(hits, ti, name, line, cap)[i] == hits[i]
  {
  }

  // ---------------------------------------------------------------------------
  // The search of one frame
  // ---------------------------------------------------------------------------

  /** `bisect_right`: how many of the sorted `starts` are at most `pos`. */
  method BisectRight(starts: seq<nat>, pos: nat) returns (lo: nat)
    requires forall a, b :: 0 <= a <= b < |starts| ==> starts[a] <= starts[b]
    ensures lo <= |starts|
    ensures forall k :: 0 <= k < lo ==> starts[k] <= pos
    ensures forall k :: lo <= k < |starts| ==> pos < starts[k]
  {
    lo := 0;
    var hi := |starts|;
    while lo < hi
      invariant lo <= hi <= |starts|
      invariant forall k :: 0 <= k < lo ==> starts[k] <= pos
      invariant forall k :: hi <= k < |starts| ==> pos < starts[k]
    {
      var mid := (lo + hi) / 2;
      if pos < starts[mid] {
        hi := mid;
      } else {
        lo := mid + 1;
      }
    }
  }

  /** The members of a frame, as the table gives them, against its lower-cased texts. */
  ghost predicate FrameOf(toc: seq<Entry>, mem: seq<Member>, first: nat, names: seq<Bytes>, ts: seq<Bytes>) {
    && |mem| == |ts| == |names| && first + |ts| <= |toc|
    && (forall k :: 0 <= k < |ts| ==> mem[k].ti == first + k && mem[k].bs == Start(ts, k))
    && (forall k :: 0 <= k < |ts| ==>
          toc[first + k].name == names[k] && toc[first + k].n == Newlines(ts[k]) && EndsLine(ts[k]))
  }

  /** `starts` and `linebase`: bytes and lines before each member. */
  method Bases(toc: seq<Entry>, mem: seq<Member>, ghost first: nat, ghost names: seq<Bytes>, ghost ts: seq<Bytes>)
    returns (starts: seq<nat>, linebase: seq<nat>)
    requires FrameOf(toc, mem, first, names, ts)
    ensures |starts| == |linebase| == |ts|
    ensures forall k :: 0 <= k < |ts| ==> starts[k] == Start(ts, k) && linebase[k] == Newlines(Join(ts[..k]))
  {
    hide Start, Newlines, Join;
    starts, linebase := [], [];
    var acc: nat := 0;
    NoLines(ts);
    for k := 0 to |mem|
      invariant |starts| == |linebase| == k && acc == Newlines(Join(ts[..k]))
      invariant forall j :: 0 <= j < k ==> starts[j] == Start(ts, j) && linebase[j] == Newlines(Join(ts[..j]))
    {
      starts, linebase := starts + [mem[k].bs], linebase + [acc];
      LinesBefore(ts, k);
      acc := acc + toc[mem[k].ti].n;
    }
  }

  lemma NoLines(ts: seq<Bytes>)
    ensures Newlines(Join(ts[..0])) == 0
  {
  }

  lemma LinesBefore(ts: seq<Bytes>, k: nat)
    requires k < |ts|
    ensures Newlines(Join(ts[..k + 1])) == Newlines(Join(ts[..k])) + Newlines(ts[k])
  {
    hide Join, Newlines;
    assert ts[..k + 1] == ts[..k] + [ts[k]];
    JoinLast(ts[..k], ts[k]);
    NewlinesConcat(Join(ts[..k]), ts[k]);
  }

  /** Lines counted from the frame's start, less those before the member, give the line in the member. */
  lemma LineInMember(ts: seq<Bytes>, mi: nat, pos: nat)
    requires Holds(ts, mi, pos)
    ensures pos <= |Join(ts)|
    ensures Newlines(Join(ts)[..pos]) == Newlines(Join(ts[..mi])) + Newlines(ts[mi][..pos - Start(ts, mi)])
  {
    hide Join, Newlines;
    SplitAt(ts, mi);
    var before := Join(ts[..mi]);
    assert Join(ts)[..pos] == before + ts[mi][..pos - |before|];
    NewlinesConcat(before, ts[mi][..pos - |before|]);
  }

  /** The bisection finds the text a position is in, even where empty texts share its start. */
  lemma BisectHolds(ts: seq<Bytes>, starts: seq<nat>, pos: nat, r: nat)
    requires |starts| == |ts| && forall k :: 0 <= k < |ts| ==> starts[k] == Start(ts, k)
    requires r <= |ts| && pos < |Join(ts)|
    requires forall k :: 0 <= k < r ==> starts[k] <= pos
    requires forall k :: r <= k < |starts| ==> pos < starts[k]
    ensures r > 0 && Holds(ts, r - 1, pos)
  {
    hide Start;
    WholeStart(ts);
    assert |ts| > 0 ==> starts[0] == 0;
    if r > 0 {
      SplitAt(ts, r - 1);
    }
  }

  lemma CountFrom(raw: Bytes, a: nat, b: nat)
    requires a <= b <= |raw|
    ensures Newlines(raw[..b]) == Newlines(raw[..a]) + Newlines(raw[a..b])
  {
    assert raw[..b] == raw[..a] + raw[a..b];
    NewlinesConcat(raw[..a], raw[a..b]);
  }

  /** The cursor loop over one frame. */
  method SearchFrame(toc: seq<Entry>, mem: seq<Member>, raw: Bytes, q: Bytes, cap: nat, hits0: map<nat, Hit>,
                     ghost first: nat, ghost names: seq<Bytes>, ghost ts: seq<Bytes>)
    returns (hits: map<nat, Hit>)
    requires FrameOf(toc, mem, first, names, ts) && raw == Join(ts)
    requires q != [] && NoNewline(q)
    requires forall i :: first <= i < first + |ts| ==> i !in hits0
    ensures OthersKept(hits0, hits, first, first + |ts|)
    ensures GroupDone(hits, first, names, ts, q, cap, |raw|)
  {
    hide Start, Newlines, Join, OccursAt, GroupDone, Find, AddHit, Holds;
    hits := hits0;
    GroupStarts(hits, first, names, ts, q, cap);
    var pos := Find(raw, q, 0);
    if pos == -1 {
      GroupSkips(hits, first, names, ts, q, cap, 0, |raw|);
      return;
    }
    var starts, linebase := Bases(toc, mem, first, names, ts);
    StartsSorted(ts, starts);
    var lastPos: nat, lastLine: nat := 0, 0;
    ghost var done: nat := 0;
    NothingCounted(raw);
    while pos != -1
      invariant done <= |raw| && pos == Find(raw, q, done)
      invariant lastPos <= done && lastLine == Newlines(raw[..lastPos])
      invariant OthersKept(hits0, hits, first, first + |ts|)
      invariant GroupDone(hits, first, names, ts, q, cap, done)
      decreases |raw| - done
    {
      OccurrenceFits(raw, q, pos);
      GroupSkips(hits, first, names, ts, q, cap, done, pos);
      CountFrom(raw, lastPos, pos);
      lastLine := lastLine + Newlines(raw[lastPos..pos]);
      lastPos := pos;
      var r := BisectRight(starts, pos);
      BisectHolds(ts, starts, pos, r);
      var mi := r - 1;
      HeldIndex(ts, mi, pos);
      LineInMember(ts, mi, pos);
      var ti := mem[mi].ti;
      GroupAdds(hits, first, names, ts, q, cap, pos, mi);
      OthersStayKept(hits0, hits, first, first + |ts|, ti, toc[ti].name, lastLine - linebase[mi] + 1, cap);
      hits := AddHit(hits, ti, toc[ti].name, lastLine - linebase[mi] + 1, cap);
      done := pos + 1;
      pos := Find(raw, q, pos + 1);
    }
    GroupSkips(hits, first, names, ts, q, cap, done, |raw|);
  }

  lemma StartsSorted(ts: seq<Bytes>, starts: seq<nat>)
    requires |starts| == |ts| && forall k :: 0 <= k < |ts| ==> starts[k] == Start(ts, k)
    ensures forall a, b :: 0 <= a <= b < |starts| ==> starts[a] <= starts[b]
  {
    hide Start;
    forall a, b | 0 <= a <= b < |starts|
      ensures starts[a] <= starts[b]
    {
      StartsMonotone(ts, a, b);
    }
  }

  lemma NothingCounted(raw: Bytes)
    ensures Newlines(raw[..0]) == 0
  {
  }

  lemma OccurrenceFits(raw: Bytes, q: Bytes, pos: nat)
    requires OccursAt(raw, q, pos) && q != []
    ensures pos < |raw|
  {
  }

  lemma HeldIndex(ts: seq<Bytes>, mi: nat, pos: nat)
    requires Holds(ts, mi, pos)
    ensures mi < |ts| && Start(ts, mi) <= pos <= Start(ts, mi) + |ts[mi]|
  {
  }

  lemma OthersStayKept(hits0: map<nat, Hit>, hits: map<nat, Hit>, first: nat, end: nat, ti: nat, name: Bytes, line: nat,
                       cap: nat)
    requires OthersKept(hits0, hits, first, end) && first <= ti < end
    ensures OthersKept(hits0, AddHit(hits, ti, name, line, cap), first, end)
  {
  }

  // ---------------------------------------------------------------------------
  // Entries by frame
  // ---------------------------------------------------------------------------

  /** The entries of the frame at `off` among the first `n`, in table order. */
  function MembersAt(toc: seq<Entry>, off: nat, n: nat): seq<Member>
    requires n <= |toc|
  {
    if n == 0 then []
    else MembersAt(toc, off, n - 1) + (if toc[n - 1].off == off then [Member(toc[n - 1].bs, n - 1)] else [])
  }

  ghost predicate Distinct(order: seq<nat>) {
    forall a, b :: 0 <= a < b < |order| ==> order[a] != order[b]
  }

  /** `groups`: the members of each frame; `order`: the frames as first seen. */
  method GroupEntries(toc: seq<Entry>) returns (order: seq<nat>, at: map<nat, seq<Member>>)
    ensures Distinct(order) && forall off :: off in order <==> off in at
    ensures forall off: nat :: off in at <==> MembersAt(toc, off, |toc|) != []
    ensures forall off: nat :: off in at ==> at[off] == MembersAt(toc, off, |toc|)
  {
    hide MembersAt, Distinct;
    order, at := [], map[];
    NothingGrouped(toc);
    for i := 0 to |toc|
      invariant Grouped(toc, i, order, at)
    {
      var e := toc[i];
      GroupOne(toc, i, order, at);
      if e.off !in at {
        order := order + [e.off];
      }
      at := at[e.off := (if e.off in at then at[e.off] else []) + [Member(e.bs, i)]];
    }
  }

  /** The first `n` entries are grouped. */
  ghost predicate Grouped(toc: seq<Entry>, n: nat, order: seq<nat>, at: map<nat, seq<Member>>) {
    && n <= |toc| && Distinct(order) && (forall off :: off in order <==> off in at)
    && (forall off: nat :: off in at <==> MembersAt(toc, off, n) != [])
    && (forall off: nat :: off in at ==> at[off] == MembersAt(toc, off, n))
  }

  lemma NothingGrouped(toc: seq<Entry>)
    ensures Grouped(toc, 0, [], map[])
  {
  }

  lemma GroupOne(toc: seq<Entry>, n: nat, order: seq<nat>, at: map<nat, seq<Member>>)
    requires Grouped(toc, n, order, at) && n < |toc|
    ensures var off, m := toc[n].off, Member(toc[n].bs, n);
            if off in at then Grouped(toc, n + 1, order, at[off := at[off] + [m]])
            else Grouped(toc, n + 1, order + [off], at[off := [] + [m]])
  {
    hide Distinct, MembersAt;
    var off, m := toc[n].off, Member(toc[n].bs, n);
    forall o: nat
      ensures MembersAt(toc, o, n + 1) == if o == off then MembersAt(toc, o, n) + [m] else MembersAt(toc, o, n)
    {
      MembersSnoc(toc, o, n);
    }
    if off !in at {
      DistinctGrows(order, off);
      assert MembersAt(toc, off, n) == [];
    }
  }

  lemma MembersSnoc(toc: seq<Entry>, o: nat, n: nat)
    requires n < |toc|
    ensures MembersAt(toc, o, n + 1)
         == if o == toc[n].off then MembersAt(toc, o, n) + [Member(toc[n].bs, n)] else MembersAt(toc, o, n)
  {
    assert MembersAt(toc, o, n) + [] == MembersAt(toc, o, n);
  }

  lemma DistinctGrows(order: seq<nat>, off: nat)
    requires Distinct(order) && off !in order
    ensures Distinct(order + [off])
  {
  }

  predicate Before(a: Member, b: Member) {
    a.bs < b.bs || (a.bs == b.bs && a.ti <= b.ti)
  }

  /** `mem.sort()`, on pairs of offset and entry number. */
  function Sort(mem: seq<Member>): seq<Member> {
    if mem == [] then [] else Insert(Sort(mem[..|mem| - 1]), mem[|mem| - 1])
  }

  function Insert(mem: seq<Member>, m: Member): seq<Member> {
    if mem == [] || Before(mem[|mem| - 1], m) then mem + [m]
    else Insert(mem[..|mem| - 1], m) + [mem[|mem| - 1]]
  }

  ghost predicate Sorted(mem: seq<Member>) {
    forall a, b :: 0 <= a < b < |mem| ==> Before(mem[a], mem[b])
  }

  /** The members of a frame are in order already. */
  lemma {:induction false} SortKeeps(mem: seq<Member>)
    requires Sorted(mem)
    ensures Sort(mem) == mem
  {
    if mem != [] {
      var init, last := mem[..|mem| - 1], mem[|mem| - 1];
      SortKeeps(init);
      assert init != [] ==> Before(mem[|mem| - 2], last);
      assert Sort(mem) == Insert(init, last);
    }
  }

  function Run(toc: seq<Entry>, first: nat, end: nat): seq<Member>
    requires first <= end <= |toc|
  {
    seq(end - first, j requires 0 <= j < end - first => Member(toc[first + j].bs, first + j))
  }

  /** An entry has the offset of a group exactly when it is one of the group's. */
  lemma OffsetOfGroup(codec: Codec, payload: Bytes, texts: seq<Bytes>, toc: seq<Entry>, groups: seq<Group>, k: nat,
                      i: nat)
    requires Laid(codec, payload, texts, toc, groups, |toc|) && codec.Faithful() && k < |groups| && i < |toc|
    ensures toc[i].off == groups[k].off <==> groups[k].first <= i < groups[k].end
  {
    hide Raw, Chained;
    var h := GroupOf(codec, payload, texts, groups, |toc|, i);
    assert GroupLaid(codec, payload, texts, toc, groups[h]);
    assert GroupLaid(codec, payload, texts, toc, groups[k]);
    if toc[i].off == groups[k].off {
      SameOffset(codec, payload, texts, groups, |toc|, h, k);
    }
  }

  lemma {:induction false} MembersAreRun(codec: Codec, payload: Bytes, texts: seq<Bytes>, toc: seq<Entry>,
                                         groups: seq<Group>, k: nat, n: nat)
    requires Laid(codec, payload, texts, toc, groups, |toc|) && codec.Faithful() && k < |groups| && n <= |toc|
    ensures groups[k].first <= groups[k].end <= |toc|
    ensures MembersAt(toc, groups[k].off, n)
         == Run(toc, groups[k].first,
                if n < groups[k].first then groups[k].first else if n < groups[k].end then n else groups[k].end)
    decreases n
  {
    hide GroupLaid, Raw;
    if n > 0 {
      MembersAreRun(codec, payload, texts, toc, groups, k, n - 1);
      OffsetOfGroup(codec, payload, texts, toc, groups, k, n - 1);
    }
  }

  lemma {:induction false} SomeMember(toc: seq<Entry>, off: nat, n: nat) returns (i: nat)
    requires n <= |toc| && MembersAt(toc, off, n) != []
    ensures i < n && toc[i].off == off
  {
    if toc[n - 1].off == off {
      i := n - 1;
    } else {
      i := SomeMember(toc, off, n - 1);
    }
  }

  /** The members found at an offset are the entries of one group. */
  lemma GroupAt(codec: Codec, payload: Bytes, texts: seq<Bytes>, toc: seq<Entry>, groups: seq<Group>, off: nat)
      returns (k: nat)
    requires Laid(codec, payload, texts, toc, groups, |toc|) && codec.Faithful() && MembersAt(toc, off, |toc|) != []
    ensures k < |groups| && groups[k].off == off && groups[k].first < groups[k].end <= |toc|
    ensures GroupLaid(codec, payload, texts, toc, groups[k])
    ensures MembersAt(toc, off, |toc|) == Run(toc, groups[k].first, groups[k].end)
  {
    hide Raw, MembersAt;
    var i := SomeMember(toc, off, |toc|);
    k := GroupOf(codec, payload, texts, groups, |toc|, i);
    OffsetOfGroup(codec, payload, texts, toc, groups, k, i);
    MembersAreRun(codec, payload, texts, toc, groups, k, |toc|);
  }

  // ---------------------------------------------------------------------------
  // The whole search
  // ---------------------------------------------------------------------------

  function LowerChunks(chunks: seq<Bytes>): seq<Bytes> {
    seq(|chunks|, k requires 0 <= k < |chunks| => Lower(chunks[k]))
  }

  lemma {:induction false} LowerJoin(chunks: seq<Bytes>)
    ensures Lower(Join(chunks)) == Join(LowerChunks(chunks))
  {
    if chunks != [] {
      var init, last := chunks[..|chunks| - 1], chunks[|chunks| - 1];
      LowerJoin(init);
      LowerConcat(Join(init), last);
      assert LowerChunks(chunks)[..|chunks| - 1] == LowerChunks(init);
    }
  }

  ghost predicate Newlineless(records: seq<Record>) {
    forall i :: 0 <= i < |records| ==> forall l :: l in records[i].lines ==> NoNewline(l)
  }

  /** The lower-cased text of a record: what it counts, how it ends, and where the query is in it. */
  lemma LoweredRecord(record: Record, q: Bytes)
    requires forall l :: l in record.lines ==> NoNewline(l)
    requires q != [] && NoNewline(q)
    ensures var t := Lower(Text(record.lines));
            EndsLine(t) && Newlines(t) == |record.lines| && PosLines(t, q, |t|) == Scan(record, q)
  {
    hide Lower, ScanLines, PosLines, Newlines, Text;
    var lines := LowerAll(record.lines);
    LowerText(record.lines);
    forall l | l in lines
      ensures NoNewline(l)
    {
      var i :| 0 <= i < |lines| && lines[i] == l;
      LowerKeepsNewlines(record.lines[i]);
    }
    NewlinesOfText(lines);
    PosLinesScan(lines, q);
    if lines != [] {
      TextEnds(lines);
    } else {
      NoText(lines);
    }
  }

  lemma NoText(lines: seq<Bytes>)
    requires lines == []
    ensures Text(lines) == []
  {
  }

  function NamesOf(records: seq<Record>, first: nat, end: nat): seq<Bytes>
    requires first <= end <= |records|
  {
    seq(end - first, j requires 0 <= j < end - first => records[first + j].name)
  }

  /** A laid group, lower-cased, is a frame as the cursor loop expects it. */
  lemma GroupIsFrame(codec: Codec, payload: Bytes, records: seq<Record>, toc: seq<Entry>, g: Group, q: Bytes)
    requires GroupLaid(codec, payload, TextsOf(records), toc, g) && Described(records, toc) && |toc| == |records|
    requires Newlineless(records) && q != [] && NoNewline(q)
    ensures Sorted(Run(toc, g.first, g.end))
    ensures FrameOf(toc, Run(toc, g.first, g.end), g.first, NamesOf(records, g.first, g.end),
                    LowerChunks(TextsOf(records)[g.first..g.end]))
    ensures Lower(Raw(TextsOf(records), g)) == Join(LowerChunks(TextsOf(records)[g.first..g.end]))
  {
    hide *;
    GroupBounds(codec, payload, TextsOf(records), toc, g);
    var texts := TextsOf(records);
    TextCount(records);
    var chunks := texts[g.first..g.end];
    var ts := LowerChunks(chunks);
    LengthOfChunks(chunks);
    LowerJoin(chunks);
    forall k: nat | k < |ts|
      ensures FrameRow(records, toc, g.first, ts, k)
    {
      FrameMember(codec, payload, records, toc, g, q, k);
    }
    FrameFromMembers(records, toc, g.first, g.end, ts);
    RawIs(texts, g);
  }

  lemma GroupBounds(codec: Codec, payload: Bytes, texts: seq<Bytes>, toc: seq<Entry>, g: Group)
    requires GroupLaid(codec, payload, texts, toc, g)
    ensures g.first < g.end <= |toc| <= |texts|
  {
    hide Raw, Join;
  }

  lemma TextCount(records: seq<Record>)
    ensures |TextsOf(records)| == |records|
  {
  }

  lemma RawIs(texts: seq<Bytes>, g: Group)
    requires g.first <= g.end <= |texts|
    ensures Raw(texts, g) == Join(texts[g.first..g.end])
  {
  }

  /** One entry of a laid group against its lower-cased text. */
  lemma FrameMember(codec: Codec, payload: Bytes, records: seq<Record>, toc: seq<Entry>, g: Group, q: Bytes, k: nat)
    requires GroupLaid(codec, payload, TextsOf(records), toc, g) && Described(records, toc) && |toc| == |records|
    requires Newlineless(records) && q != [] && NoNewline(q) && g.first + k < g.end
    ensures FrameRow(records, toc, g.first, LowerChunks(TextsOf(records)[g.first..g.end]), k)
  {
    hide Join, Lower, Newlines, Scan, PosLines, EndsLine, NoNewline, Start, Text, Raw;
    LoweredStart(TextsOf(records), g.first, g.end, k);
    LoweredRecord(records[g.first + k], q);
  }

  /** Entry `first + k` points at text `k` and counts its lines. */
  ghost predicate FrameRow(records: seq<Record>, toc: seq<Entry>, first: nat, ts: seq<Bytes>, k: nat) {
    && k < |ts| && first + k < |toc| == |records|
    && toc[first + k].bs == Start(ts, k) && toc[first + k].name == records[first + k].name
    && toc[first + k].n == Newlines(ts[k]) && EndsLine(ts[k])
  }

  lemma FrameFromMembers(records: seq<Record>, toc: seq<Entry>, first: nat, end: nat, ts: seq<Bytes>)
    requires first <= end <= |toc| == |records| && |ts| == end - first
    requires forall k: nat :: k < |ts| ==> FrameRow(records, toc, first, ts, k)
    ensures FrameOf(toc, Run(toc, first, end), first, NamesOf(records, first, end), ts)
    ensures Sorted(Run(toc, first, end))
  {
    hide Start, Newlines, EndsLine, Sorted;
    var mem, names := Run(toc, first, end), NamesOf(records, first, end);
    forall k | 0 <= k < |ts|
      ensures mem[k].ti == first + k && mem[k].bs == Start(ts, k) == toc[first + k].bs
      ensures toc[first + k].name == names[k] && toc[first + k].n == Newlines(ts[k]) && EndsLine(ts[k])
    {
      assert FrameRow(records, toc, first, ts, k);
    }
    RunSorted(toc, first, end, ts);
  }

  lemma LoweredStart(texts: seq<Bytes>, first: nat, end: nat, k: nat)
    requires first + k <= end <= |texts|
    ensures Start(LowerChunks(texts[first..end]), k) == |Join(texts[first..first + k])|
  {
    hide Join, Lower;
    var chunks := texts[first..end];
    LowerJoin(chunks[..k]);
    assert chunks[..k] == texts[first..first + k];
    assert LowerChunks(chunks)[..k] == LowerChunks(chunks[..k]);
    LowerLength(Join(chunks[..k]));
  }

  lemma RunSorted(toc: seq<Entry>, first: nat, end: nat, ts: seq<Bytes>)
    requires first <= end <= |toc| && |ts| == end - first
    requires forall k :: 0 <= k < |ts| ==> toc[first + k].bs == Start(ts, k)
    ensures Sorted(Run(toc, first, end))
  {
    hide Start;
    forall a, b | 0 <= a < b < end - first
      ensures Before(Run(toc, first, end)[a], Run(toc, first, end)[b])
    {
      StartsMonotone(ts, a, b);
    }
  }

  ghost predicate EntryDone(hits: map<nat, Hit>, records: seq<Record>, i: nat, q: Bytes, cap: nat)
    requires i < |records|
  {
    && (i in hits <==> Scan(records[i], q) != [])
    && (i in hits ==> hits[i] == Hit(i, records[i].name, FirstOf(Scan(records[i], q), cap)))
  }

  /** The frames at `offs` are searched, the others are not. */
  ghost predicate Searched(hits: map<nat, Hit>, records: seq<Record>, toc: seq<Entry>, offs: seq<nat>, q: Bytes,
                           cap: nat) {
    && |records| == |toc| && (forall i :: i in hits ==> i < |toc|)
    && forall i :: 0 <= i < |toc| ==> if toc[i].off in offs then EntryDone(hits, records, i, q, cap) else i !in hits
  }

  /** A finished frame is a finished group of entries. */
  lemma GroupSearched(hits: map<nat, Hit>, records: seq<Record>, first: nat, end: nat, q: Bytes, cap: nat, i: nat)
    requires first <= i < end <= |records| && Newlineless(records) && q != [] && NoNewline(q)
    requires var ts := LowerChunks(TextsOf(records)[first..end]);
             GroupDone(hits, first, NamesOf(records, first, end), ts, q, cap, |Join(ts)|)
    ensures EntryDone(hits, records, i, q, cap)
  {
    hide Join, Lower, Newlines, Scan, PosLines, Start, FirstOf;
    var ts := LowerChunks(TextsOf(records)[first..end]);
    var k := i - first;
    assert MemberDone(hits, first + k, NamesOf(records, first, end)[k], ts[k], Start(ts, k), q, cap, |Join(ts)|);
    SplitAt(ts, k);
    SplitAtStart(ts, k);
    LoweredRecord(records[i], q);
  }

  lemma SplitAtStart(ts: seq<Bytes>, k: nat)
    requires k < |ts|
    ensures Start(ts, k) + |ts[k]| <= |Join(ts)|
  {
    SplitAt(ts, k);
  }

  lemma SearchedGrows(hits: map<nat, Hit>, hits': map<nat, Hit>, records: seq<Record>, toc: seq<Entry>, offs: seq<nat>,
                      off: nat, first: nat, end: nat, q: Bytes, cap: nat)
    requires Searched(hits, records, toc, offs, q, cap) && OthersKept(hits, hits', first, end) && first <= end <= |toc|
    requires forall i :: 0 <= i < |toc| ==> (toc[i].off == off <==> first <= i < end)
    requires forall i :: first <= i < end ==> EntryDone(hits', records, i, q, cap)
    ensures Searched(hits', records, toc, offs + [off], q, cap)
  {
    hide Scan, FirstOf;
    forall i | 0 <= i < |toc|
      ensures if toc[i].off in offs + [off] then EntryDone(hits', records, i, q, cap) else i !in hits'
    {
      if !(first <= i < end) {
        assert i in hits' <==> i in hits;
      }
    }
  }

  ghost predicate Increasing(keys: seq<nat>) {
    forall a, b :: 0 <= a < b < |keys| ==> keys[a] < keys[b]
  }

  /** `sorted(hits)` */
  method SortedKeys(hits: map<nat, Hit>) returns (keys: seq<nat>)
    ensures Increasing(keys) && forall i :: i in keys <==> i in hits
  {
    hide Increasing;
    keys := [];
    var rest := hits.Keys;
    NothingIncreases();
    while rest != {}
      invariant rest <= hits.Keys && forall i :: i in keys <==> i in hits.Keys - rest
      invariant Increasing(keys)
      decreases |rest|
    {
      var x :| x in rest;
      InsertKeyMembers(keys, x);
      InsertKeyIncreases(keys, x);
      keys := InsertKey(keys, x);
      rest := rest - {x};
    }
  }

  lemma NothingIncreases()
    ensures Increasing([])
  {
  }

  function InsertKey(keys: seq<nat>, x: nat): seq<nat> {
    if keys == [] || keys[|keys| - 1] < x then keys + [x]
    else InsertKey(keys[..|keys| - 1], x) + [keys[|keys| - 1]]
  }

  lemma {:induction false} InsertKeyMembers(keys: seq<nat>, x: nat)
    ensures forall i :: i in InsertKey(keys, x) <==> i == x || i in keys
  {
    if keys != [] && keys[|keys| - 1] >= x {
      InsertKeyMembers(keys[..|keys| - 1], x);
      assert forall i :: i in keys <==> i in keys[..|keys| - 1] || i == keys[|keys| - 1];
    }
  }

  lemma {:induction false} InsertKeyIncreases(keys: seq<nat>, x: nat)
    requires Increasing(keys) && x !in keys
    ensures Increasing(InsertKey(keys, x))
  {
    hide Increasing;
    if keys == [] {
      IncreasingSnoc(keys, x);
    } else {
      var init, last := keys[..|keys| - 1], keys[|keys| - 1];
      AllBelowLast(keys);
      assert forall i :: i in keys <==> i in init || i == last;
      if last < x {
        IncreasingSnoc(keys, x);
      } else {
        InsertKeyIncreases(init, x);
        InsertKeyMembers(init, x);
        IncreasingSnoc(InsertKey(init, x), last);
      }
    }
  }

  ghost predicate AllBelow(keys: seq<nat>, x: nat) {
    forall i :: i in keys ==> i < x
  }

  lemma AllBelowLast(keys: seq<nat>)
    requires Increasing(keys) && keys != []
    ensures Increasing(keys[..|keys| - 1]) && AllBelow(keys[..|keys| - 1], keys[|keys| - 1])
  {
    var init, last := keys[..|keys| - 1], keys[|keys| - 1];
    forall i | i in init
      ensures i < last
    {
      var a :| 0 <= a < |init| && init[a] == i;
      assert keys[a] == i;
    }
  }

  lemma IncreasingSnoc(keys: seq<nat>, x: nat)
    requires Increasing(keys) && AllBelow(keys, x)
    ensures Increasing(keys + [x])
  {
    forall a, b | 0 <= a < b < |keys + [x]|
      ensures (keys + [x])[a] < (keys + [x])[b]
    {
      assert keys[a] in keys;
    }
  }

  predicate IsAscii(s: Bytes) {
    forall b :: b in s ==> b < 128
  }

  /** `search`: the case-insensitive scan of every derivation, line by line. */
  method Search(r: LogContainerReader, query: Bytes, cap: nat) returns (out: seq<Hit>)
    requires r.Valid() && Newlineless(r.records)
    requires query != [] && NoNewline(query) && IsAscii(query)
    ensures Reports(out, r.records, Lower(query), cap)
    ensures ReportsIgnoringCase(out, r.records, query, cap)
  {
    hide *;
    var q := Lower(query);
    ReaderContains(r);
    LowerLength(query);
    LowerKeepsNewlines(query);
    var order, at := GroupEntries(r.toc);
    var hits: map<nat, Hit> := map[];
    NothingSearched(r.records, r.toc, q, cap);
    for g := 0 to |order|
      invariant Searched(hits, r.records, r.toc, order[..g], q, cap)
    {
      hits := SearchGroup(r.codec, r.blob, r.toc, order, g, at[order[g]], q, cap, hits, r.records, r.groups, r.payload);
    }
    assert order[..|order|] == order;
    forall i | 0 <= i < |r.toc|
      ensures r.toc[i].off in order
    {
      EntryIsMember(r.toc, i, |r.toc|);
    }
    var keys := SortedKeys(hits);
    out := [];
    for j := 0 to |keys|
      invariant |out| == j && forall a :: 0 <= a < j ==> out[a] == hits[keys[a]]
    {
      out := out + [hits[keys[j]]];
    }
    AllReported(out, keys, hits, r.records, r.toc, order, q, cap);
    ReportsIgnoreCase(out, r.records, query, cap);
  }

  lemma ReaderContains(r: LogContainerReader)
    requires r.Valid()
    ensures r.codec.Faithful() && Contains(r.codec, r.blob, r.records, r.toc, r.groups, r.payload)
            && |r.toc| == |r.records|
  {
    hide Described, Laid;
  }

  lemma {:induction false} EntryIsMember(toc: seq<Entry>, i: nat, n: nat)
    requires i < n <= |toc|
    ensures MembersAt(toc, toc[i].off, n) != []
  {
    if i < n - 1 {
      EntryIsMember(toc, i, n - 1);
    }
  }

  lemma NothingSearched(records: seq<Record>, toc: seq<Entry>, q: Bytes, cap: nat)
    requires |records| == |toc|
    ensures Searched(map[], records, toc, [], q, cap)
  {
  }

  /** One round of the search: the frame of `order[g]`. */
  method SearchGroup(codec: Codec, blob: Bytes, toc: seq<Entry>, order: seq<nat>, g: nat, mem0: seq<Member>, q: Bytes,
                     cap: nat,
                     hits0: map<nat, Hit>, ghost records: seq<Record>, ghost groups: seq<Group>, ghost payload: Bytes)
    returns (hits: map<nat, Hit>)
    requires codec.Faithful() && Contains(codec, blob, records, toc, groups, payload)
    requires Newlineless(records) && q != [] && NoNewline(q)
    requires g < |order| && Distinct(order) && mem0 == MembersAt(toc, order[g], |toc|) != []
    requires Searched(hits0, records, toc, order[..g], q, cap)
    ensures Searched(hits, records, toc, order[..g + 1], q, cap)
  {
    hide *;
    var off := order[g];
    ghost var texts := TextsOf(records);
    ContainerParts(codec, blob, records, toc, groups, payload);
    ghost var k := GroupAt(codec, payload, texts, toc, groups, off);
    ghost var grp := groups[k];
    ghost var names, ts := NamesOf(records, grp.first, grp.end), LowerChunks(texts[grp.first..grp.end]);
    GroupIsFrame(codec, payload, records, toc, grp, q);
    SortKeeps(mem0);
    var mem := Sort(mem0);
    FirstMember(codec, payload, texts, toc, grp);
    var clen := toc[mem[0].ti].clen;
    FrameDecodes(codec, blob, records, toc, groups, payload, k, off, clen);
    var raw := Lower(codec.decompress(blob[off..off + clen]));
    forall i | 0 <= i < |toc|
      ensures toc[i].off == off <==> grp.first <= i < grp.end
    {
      OffsetOfGroup(codec, payload, texts, toc, groups, k, i);
    }
    LengthOfChunks(texts[grp.first..grp.end]);
    forall i | grp.first <= i < grp.end
      ensures i !in hits0
    {
      NotSearchedYet(hits0, records, toc, order, g, i, q, cap);
    }
    hits := SearchFrame(toc, mem, raw, q, cap, hits0, grp.first, names, ts);
    forall i | grp.first <= i < grp.end
      ensures EntryDone(hits, records, i, q, cap)
    {
      GroupSearched(hits, records, grp.first, grp.end, q, cap, i);
    }
    SearchedGrows(hits0, hits, records, toc, order[..g], off, grp.first, grp.end, q, cap);
    assert order[..g + 1] == order[..g] + [off];
  }

  lemma NotSearchedYet(hits: map<nat, Hit>, records: seq<Record>, toc: seq<Entry>, order: seq<nat>, g: nat, i: nat,
                       q: Bytes, cap: nat)
    requires g < |order| && Distinct(order) && i < |toc| && toc[i].off == order[g]
    requires Searched(hits, records, toc, order[..g], q, cap)
    ensures i !in hits
  {
    hide EntryDone;
  }

  lemma ContainerParts(codec: Codec, blob: Bytes, records: seq<Record>, toc: seq<Entry>, groups: seq<Group>,
                       payload: Bytes)
    requires Contains(codec, blob, records, toc, groups, payload)
    ensures |toc| == |records| == |TextsOf(records)| && Described(records, toc)
    ensures Laid(codec, payload, TextsOf(records), toc, groups, |toc|)
  {
    hide Described, Laid;
  }

  lemma FirstMember(codec: Codec, payload: Bytes, texts: seq<Bytes>, toc: seq<Entry>, g: Group)
    requires GroupLaid(codec, payload, texts, toc, g)
    ensures g.first < g.end <= |toc| <= |texts| && Run(toc, g.first, g.end) != []
    ensures Run(toc, g.first, g.end)[0].ti == g.first && toc[g.first].clen == |codec.compress(Raw(texts, g))|
  {
    hide Raw, Join;
  }

  lemma LengthOfChunks(chunks: seq<Bytes>)
    ensures |LowerChunks(chunks)| == |chunks|
  {
  }

  lemma AllReported(out: seq<Hit>, keys: seq<nat>, hits: map<nat, Hit>, records: seq<Record>, toc: seq<Entry>,
                    order: seq<nat>, q: Bytes, cap: nat)
    requires Searched(hits, records, toc, order, q, cap) && forall i :: 0 <= i < |toc| ==> toc[i].off in order
    requires Increasing(keys) && forall i :: i in keys <==> i in hits
    requires |out| == |keys| && forall a :: 0 <= a < |keys| ==> out[a] == hits[keys[a]]
    ensures Reports(out, records, q, cap)
  {
    hide Scan, FirstOf;
    forall a | 0 <= a < |keys|
      ensures out[a].idx == keys[a] && IsHit(out[a], records, q, cap)
    {
      assert keys[a] in keys;
      assert EntryDone(hits, records, keys[a], q, cap);
    }
    forall i | 0 <= i < |records| && Scan(records[i], q) != []
      ensures Hit(i, records[i].name, FirstOf(Scan(records[i], q), cap)) in out
    {
      assert EntryDone(hits, records, i, q, cap);
      var a :| 0 <= a < |keys| && keys[a] == i;
      assert out[a] in out;
    }
  }
}
