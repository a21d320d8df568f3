/**
 The per-derivation log container: compressed group frames, a table of
 contents, its length and a magic word. Compression and the JSON of the table
 are a `Codec`, of which only faithfulness is assumed.
 */
module LogContainer {
  import opened Wrappers
  import opened ByteStrings
  import opened LogText
  import opened LogRetention

  /** What the writer holds of one derivation when it packs. */
  datatype Record = Record(
    drv: Bytes, name: Bytes, status: Bytes, lines: seq<Bytes>, phases: seq<Phase>, t0: Option<int>, t1: Option<int>)

  /** A table entry: frame offset and length, byte range in the frame, line count. */
  datatype Entry = Entry(
    drv: Bytes, name: Bytes, status: Bytes, off: nat, clen: nat, bs: nat, bn: nat, n: nat, ph: seq<Phase>,
    t0: Option<int>, t1: Option<int>)

  datatype Codec = Codec(
    compress: Bytes -> Bytes, decompress: Bytes -> Bytes,
    encodeToc: seq<Entry> -> Bytes, decodeToc: Bytes -> seq<Entry>)
  {
    ghost predicate Faithful() {
      && (forall x :: decompress(compress(x)) == x && compress(x) != [])
      && (forall t :: decodeToc(encodeToc(t)) == t)
    }
  }

  /** "NBL1" */
  const MAGIC: Bytes := [0x4E, 0x42, 0x4C, 0x31]

  /** `struct.pack("<I", n)` */
  function Pack(n: nat): (b: Bytes)
    requires n < 0x1_0000_0000
    ensures |b| == 4
  {
    var n1 := n / 256;
    var n2 := n1 / 256;
    [(n % 256) as byte, (n1 % 256) as byte, (n2 % 256) as byte, (n2 / 256) as byte]
  }

  function Unpack(b: Bytes): nat
    requires |b| == 4
  {
    b[0] as int + 256 * (b[1] as int + 256 * (b[2] as int + 256 * b[3] as int))
  }

  lemma UnpackPack(n: nat)
    requires n < 0x1_0000_0000
    ensures Unpack(Pack(n)) == n
    ensures var b := Pack(n);
            n == b[0] as int + 0x100 * b[1] as int + 0x1_0000 * b[2] as int + 0x100_0000 * b[3] as int
  {
  }

  // ---------------------------------------------------------------------------
  // Layout
  // ---------------------------------------------------------------------------

  /** A frame at `off` holding the texts `first..end`. */
  datatype Group = Group(off: nat, first: nat, end: nat)

  function TextsOf(records: seq<Record>): seq<Bytes> {
    seq(|records|, i requires 0 <= i < |records| => Text(records[i].lines))
  }

  function Raw(texts: seq<Bytes>, g: Group): Bytes
    requires g.first <= g.end <= |texts|
  {
    Join(texts[g.first..g.end])
  }

  /** The frame is in the payload, and the entries of its texts point into it. */
  ghost predicate GroupLaid(codec: Codec, payload: Bytes, texts: seq<Bytes>, toc: seq<Entry>, g: Group) {
    && g.first < g.end <= |toc| && |toc| <= |texts|
    && (var frame := codec.compress(Raw(texts, g));
        && g.off + |frame| <= |payload| && payload[g.off..g.off + |frame|] == frame
        && forall i :: g.first <= i < g.end ==> toc[i].off == g.off && toc[i].clen == |frame|)
    && forall i :: g.first <= i < g.end ==> toc[i].bs == |Join(texts[g.first..i])| && toc[i].bn == |texts[i]|
  }

  /** The groups follow each other, in the table and in the payload, up to entry `upto`. */
  ghost predicate Chained(codec: Codec, payload: Bytes, texts: seq<Bytes>, groups: seq<Group>, upto: nat) {
    && upto <= |texts|
    && (forall k :: 0 <= k < |groups| ==> groups[k].first < groups[k].end <= upto)
    && (if groups == [] then upto == 0 && payload == []
        else groups[0].first == 0 && groups[|groups| - 1].end == upto
             && groups[|groups| - 1].off + |codec.compress(Raw(texts, groups[|groups| - 1]))| == |payload|)
    && (forall k :: 0 < k < |groups| ==> Adjacent(codec, texts, groups[k - 1], groups[k]))
  }

  /** The second group starts where the first one ends. */
  ghost predicate Adjacent(codec: Codec, texts: seq<Bytes>, a: Group, b: Group)
    requires a.first <= a.end <= |texts|
  {
    b.first == a.end && b.off == a.off + |codec.compress(Raw(texts, a))|
  }

  ghost predicate Laid(codec: Codec, payload: Bytes, texts: seq<Bytes>, toc: seq<Entry>, groups: seq<Group>,
                       upto: nat) {
    && Chained(codec, payload, texts, groups, upto)
    && (forall k :: 0 <= k < |groups| ==> GroupLaid(codec, payload, texts, toc, groups[k]))
  }

  /** The table's other columns. */
  ghost predicate Described(records: seq<Record>, toc: seq<Entry>) {
    && |toc| <= |records|
    && forall i :: 0 <= i < |toc| ==>
         && toc[i].drv == records[i].drv && toc[i].name == records[i].name && toc[i].status == records[i].status
         && toc[i].n == |records[i].lines| && toc[i].ph == records[i].phases
         && toc[i].t0 == records[i].t0 && toc[i].t1 == records[i].t1
  }

  /** Entries `start..` are not in a frame yet; their texts are buffered. */
  ghost predicate Buffered(texts: seq<Bytes>, toc: seq<Entry>, start: nat, buf: seq<Bytes>, bufbytes: nat) {
    && start <= |toc| <= |texts|
    && buf == texts[start..|toc|] && bufbytes == |Join(buf)|
    && forall i :: start <= i < |toc| ==> toc[i].bs == |Join(texts[start..i])| && toc[i].bn == |texts[i]|
  }

  lemma BufferOne(texts: seq<Bytes>, toc: seq<Entry>, start: nat, buf: seq<Bytes>, bufbytes: nat, e: Entry)
    requires Buffered(texts, toc, start, buf, bufbytes) && |toc| < |texts|
    requires e.bs == bufbytes && e.bn == |texts[|toc|]|
    ensures Buffered(texts, toc + [e], start, buf + [texts[|toc|]], bufbytes + |texts[|toc|]|)
  {
    hide Join;
    JoinLast(buf, texts[|toc|]);
    assert texts[start..|toc| + 1] == buf + [texts[|toc|]];
  }

  /** More payload and more entries leave laid groups as they are. */
  lemma GroupStaysLaid(codec: Codec, payload: Bytes, more: Bytes, texts: seq<Bytes>, toc: seq<Entry>, toc': seq<Entry>,
                       g: Group)
    requires GroupLaid(codec, payload, texts, toc, g)
    requires |toc| <= |toc'| <= |texts| && forall i :: g.first <= i < g.end ==> toc'[i] == toc[i]
    ensures GroupLaid(codec, payload + more, texts, toc', g)
  {
    hide Join;
    var frame := codec.compress(Raw(texts, g));
    assert (payload + more)[g.off..g.off + |frame|] == payload[g.off..g.off + |frame|];
  }

  /** `flush`: entries from `start` get the offset and length of the new frame. */
  function SetFrame(toc: seq<Entry>, start: nat, off: nat, clen: nat): seq<Entry> {
    seq(|toc|, i requires 0 <= i < |toc| => if i < start then toc[i] else toc[i].(off := off, clen := clen))
  }

  lemma FlushLays(codec: Codec, payload: Bytes, texts: seq<Bytes>, toc: seq<Entry>, groups: seq<Group>, start: nat,
                  buf: seq<Bytes>, bufbytes: nat)
    requires Laid(codec, payload, texts, toc, groups, start) && Buffered(texts, toc, start, buf, bufbytes) && buf != []
    ensures var frame := codec.compress(Join(buf));
            Laid(codec, payload + frame, texts, SetFrame(toc, start, |payload|, |frame|),
                 groups + [Group(|payload|, start, |toc|)], |toc|)
  {
    hide Join;
    var frame := codec.compress(Join(buf));
    var g := Group(|payload|, start, |toc|);
    var toc', groups' := SetFrame(toc, start, |payload|, |frame|), groups + [g];
    assert Raw(texts, g) == Join(buf);
    assert (payload + frame)[|payload|..|payload| + |frame|] == frame;
    assert GroupLaid(codec, payload + frame, texts, toc', g);
    forall k | 0 <= k < |groups'|
      ensures GroupLaid(codec, payload + frame, texts, toc', groups'[k])
    {
      if k < |groups| {
        assert GroupLaid(codec, payload, texts, toc, groups[k]);
        GroupStaysLaid(codec, payload, frame, texts, toc, toc', groups[k]);
      }
    }
    FlushChains(codec, payload, frame, texts, groups, start, g);
  }

  lemma FlushChains(codec: Codec, payload: Bytes, frame: Bytes, texts: seq<Bytes>, groups: seq<Group>, start: nat,
                    g: Group)
    requires Chained(codec, payload, texts, groups, start)
    requires g.off == |payload| && g.first == start && start < g.end <= |texts|
             && frame == codec.compress(Raw(texts, g))
    ensures Chained(codec, payload + frame, texts, groups + [g], g.end)
  {
    hide Raw;
    var groups' := groups + [g];
    assert groups != [] ==> Adjacent(codec, texts, groups[|groups| - 1], g);
  }

  /** Everything the reader relies on. */
  ghost predicate Contains(codec: Codec, blob: Bytes, records: seq<Record>, toc: seq<Entry>, groups: seq<Group>,
                           payload: Bytes) {
    var table := codec.encodeToc(toc);
    && |toc| == |records| && |table| < 0x1_0000_0000
    && blob == payload + table + Pack(|table|) + MAGIC
    && Described(records, toc)
    && Laid(codec, payload, TextsOf(records), toc, groups, |toc|)
  }

  /** `blob` is a container of these records. */
  ghost predicate IsContainer(codec: Codec, blob: Bytes, records: seq<Record>) {
    exists toc, groups, payload :: Contains(codec, blob, records, toc, groups, payload)
  }

  /** A group closes with the text that makes it `groupBytes` long: without it the group is shorter,
      and a `closed` group is that long. */
  ghost predicate Sized(texts: seq<Bytes>, g: Group, groupBytes: nat, closed: bool) {
    && g.first < g.end <= |texts|
    && (g.first + 1 < g.end ==> |Join(texts[g.first..g.end - 1])| < groupBytes)
    && (closed ==> |Raw(texts, g)| >= groupBytes)
  }

  ghost predicate AllSized(texts: seq<Bytes>, groups: seq<Group>, groupBytes: nat, closed: int) {
    forall k :: 0 <= k < |groups| ==> Sized(texts, groups[k], groupBytes, k < closed)
  }

  /** The buffered texts without the last one are short. */
  ghost predicate Short(texts: seq<Bytes>, start: nat, upto: nat, groupBytes: nat) {
    start + 1 < upto <= |texts| ==> |Join(texts[start..upto - 1])| < groupBytes
  }

  lemma ShortGrows(texts: seq<Bytes>, toc: seq<Entry>, start: nat, buf: seq<Bytes>, bufbytes: nat, groupBytes: nat)
    requires Buffered(texts, toc, start, buf, bufbytes) && (start < |toc| ==> bufbytes < groupBytes)
    ensures Short(texts, start, |toc| + 1, groupBytes)
  {
    hide Join;
  }

  lemma BufferSized(texts: seq<Bytes>, toc: seq<Entry>, start: nat, buf: seq<Bytes>, bufbytes: nat, groupBytes: nat,
                    g: Group)
    requires Buffered(texts, toc, start, buf, bufbytes) && g.first == start && g.end == |toc| && start < |toc|
    requires Short(texts, start, |toc|, groupBytes)
    ensures Sized(texts, g, groupBytes, bufbytes >= groupBytes)
  {
    hide Join;
  }

  lemma SizedGrows(texts: seq<Bytes>, groups: seq<Group>, g: Group, groupBytes: nat, closed: bool)
    requires AllSized(texts, groups, groupBytes, |groups|) && Sized(texts, g, groupBytes, closed)
    ensures AllSized(texts, groups + [g], groupBytes, if closed then |groups| + 1 else |groups|)
  {
    hide Sized;
  }

  /** `finalize`; None where struct.pack raises on a table of 4 GiB. */
  method Finalize(codec: Codec, groupBytes: nat, records: seq<Record>)
    returns (blob: Option<Bytes>, ghost toc: seq<Entry>, ghost groups: seq<Group>, ghost payload: Bytes)
    ensures blob.Some? ==> IsContainer(codec, blob.value, records)
    ensures blob.Some? ==> Contains(codec, blob.value, records, toc, groups, payload)
    ensures blob.Some? <==> |codec.encodeToc(toc)| < 0x1_0000_0000
    ensures AllSized(TextsOf(records), groups, groupBytes, |groups| - 1)
    ensures |toc| == |records| && Described(records, toc) && Laid(codec, payload, TextsOf(records), toc, groups, |toc|)
  {
    hide Laid, Buffered, Join, AllSized, Short, Sized;
    var frames: Bytes, table: seq<Entry>, buf: seq<Bytes>, bufbytes: nat := [], [], [], 0;
    ghost var texts := TextsOf(records);
    var start: nat := 0;
    groups := [];
    NothingLaid(codec, texts);
    NothingSized(texts, groupBytes);
    for k := 0 to |records|
      invariant |table| == k && start <= k && (buf == [] <==> start == k)
      invariant Described(records, table)
      invariant Laid(codec, frames, texts, table, groups, start)
      invariant Buffered(texts, table, start, buf, bufbytes)
      invariant AllSized(texts, groups, groupBytes, |groups|) && Short(texts, start, k, groupBytes)
      invariant start < k ==> bufbytes < groupBytes
    {
      var d := records[k];
      ShortGrows(texts, table, start, buf, bufbytes, groupBytes);
      var txt := Text(d.lines);
      var e := Entry(d.drv, d.name, d.status, 0, 0, bufbytes, |txt|, |d.lines|, d.phases, d.t0, d.t1);
      BufferOne(texts, table, start, buf, bufbytes, e);
      LaidGrows(codec, frames, texts, table, e, groups, start);
      table, buf, bufbytes := table + [e], buf + [txt], bufbytes + |txt|;
      if bufbytes >= groupBytes {
        ghost var g := Group(|frames|, start, |table|);
        BufferSized(texts, table, start, buf, bufbytes, groupBytes, g);
        SizedGrows(texts, groups, g, groupBytes, true);
        frames, table, buf, bufbytes, start, groups :=
          Flush(codec, frames, table, buf, bufbytes, start, groups, texts, records);
        NothingSized(texts, groupBytes);
      }
    }
    if buf != [] {
      ghost var g := Group(|frames|, start, |table|);
      BufferSized(texts, table, start, buf, bufbytes, groupBytes, g);
      SizedGrows(texts, groups, g, groupBytes, false);
    } else {
      SizedWeakens(texts, groups, groupBytes);
    }
    frames, table, buf, bufbytes, start, groups :=
      Flush(codec, frames, table, buf, bufbytes, start, groups, texts, records);
    toc, payload := table, frames;
    var tj := codec.encodeToc(table);
    if |tj| >= 0x1_0000_0000 {
      return None, toc, groups, payload;
    }
    blob := Some(frames + tj + Pack(|tj|) + MAGIC);
    assert Contains(codec, blob.value, records, toc, groups, payload);
  }

  method Flush(codec: Codec, frames0: Bytes, toc0: seq<Entry>, buf0: seq<Bytes>, bufbytes0: nat, start0: nat,
               ghost groups0: seq<Group>, ghost texts: seq<Bytes>, ghost records: seq<Record>)
    returns (frames: Bytes, toc: seq<Entry>, buf: seq<Bytes>, bufbytes: nat, start: nat, ghost groups: seq<Group>)
    requires start0 <= |toc0| && (buf0 == [] <==> start0 == |toc0|)
    requires Laid(codec, frames0, texts, toc0, groups0, start0) && Buffered(texts, toc0, start0, buf0, bufbytes0)
    requires Described(records, toc0)
    ensures buf == [] && start == |toc| == |toc0|
    ensures groups == if buf0 == [] then groups0 else groups0 + [Group(|frames0|, start0, |toc0|)]
    ensures Laid(codec, frames, texts, toc, groups, start) && Buffered(texts, toc, start, buf, bufbytes)
    ensures Described(records, toc)
  {
    hide Laid, Buffered, Join;
    frames, toc, buf, bufbytes, start, groups := frames0, toc0, buf0, bufbytes0, start0, groups0;
    if buf == [] {
      return;
    }
    var fr := codec.compress(Join(buf));
    FlushLays(codec, frames, texts, toc, groups, start, buf, bufbytes);
    var off := |frames|;
    toc := SetFrame(toc, start, off, |fr|);
    frames := frames + fr;
    groups := groups + [Group(off, start, |toc|)];
    StillBuffered(texts, toc0, toc, start0, buf0, bufbytes0);
    buf, bufbytes, start := [], 0, |toc|;
  }

  lemma StillBuffered(texts: seq<Bytes>, toc: seq<Entry>, toc': seq<Entry>, start: nat, buf: seq<Bytes>, bufbytes: nat)
    requires Buffered(texts, toc, start, buf, bufbytes) && |toc'| == |toc|
    ensures Buffered(texts, toc', |toc'|, [], 0)
  {
  }

  lemma NothingSized(texts: seq<Bytes>, groupBytes: nat)
    ensures AllSized(texts, [], groupBytes, 0) && forall k :: Short(texts, k, k, groupBytes)
  {
  }

  lemma SizedWeakens(texts: seq<Bytes>, groups: seq<Group>, groupBytes: nat)
    requires AllSized(texts, groups, groupBytes, |groups|)
    ensures AllSized(texts, groups, groupBytes, |groups| - 1)
  {
  }

  lemma NothingLaid(codec: Codec, texts: seq<Bytes>)
    ensures Laid(codec, [], texts, [], [], 0) && Buffered(texts, [], 0, [], 0)
  {
  }

  lemma LaidGrows(codec: Codec, payload: Bytes, texts: seq<Bytes>, toc: seq<Entry>, e: Entry, groups: seq<Group>,
                  start: nat)
    requires Laid(codec, payload, texts, toc, groups, start) && |toc| < |texts|
    ensures Laid(codec, payload, texts, toc + [e], groups, start)
  {
    hide Join;
    forall k | 0 <= k < |groups|
      ensures GroupLaid(codec, payload, texts, toc + [e], groups[k])
    {
      assert GroupLaid(codec, payload, texts, toc, groups[k]);
      GroupStaysLaid(codec, payload, [], texts, toc, toc + [e], groups[k]);
      assert payload + [] == payload;
    }
  }

  // ---------------------------------------------------------------------------
  // Reading
  // ---------------------------------------------------------------------------

  /** The table is found from the trailing length. */
  lemma TableRecovered(codec: Codec, blob: Bytes, records: seq<Record>, toc: seq<Entry>, groups: seq<Group>,
                       payload: Bytes)
    requires Contains(codec, blob, records, toc, groups, payload) && codec.Faithful()
    ensures |blob| >= 8
    ensures var tlen := Unpack(blob[|blob| - 8..|blob| - 4]);
            8 + tlen <= |blob| && codec.decodeToc(blob[|blob| - 8 - tlen..|blob| - 8]) == toc
    ensures blob[..|payload|] == payload && blob[|blob| - 4..] == MAGIC
  {
    hide Laid, Described;
    var table := codec.encodeToc(toc);
    UnpackPack(|table|);
    assert blob[|blob| - 8..|blob| - 4] == Pack(|table|);
    assert blob[|blob| - 8 - |table|..|blob| - 8] == table;
  }

  /** Every entry is in some group. */
  lemma {:induction false} GroupOf(codec: Codec, payload: Bytes, texts: seq<Bytes>, groups: seq<Group>, upto: nat,
                                   i: nat)
    returns (k: nat)
    requires Chained(codec, payload, texts, groups, upto) && i < upto
    ensures k < |groups| && groups[k].first <= i < groups[k].end
  {
    hide Raw;
    k := 0;
    while i >= groups[k].end
      invariant k < |groups| && groups[k].first <= i
      decreases |groups| - k
    {
      assert k + 1 < |groups|;
      assert Adjacent(codec, texts, groups[k], groups[k + 1]);
      k := k + 1;
    }
  }

  /** Frame offsets strictly increase, so an offset identifies its frame. */
  lemma {:induction false} OffsetsIncrease(codec: Codec, payload: Bytes, texts: seq<Bytes>, groups: seq<Group>,
                                           upto: nat, a: nat, b: nat)
    requires Chained(codec, payload, texts, groups, upto) && codec.Faithful() && a < b < |groups|
    ensures groups[a].off < groups[b].off && groups[a].end <= groups[b].first
    decreases b
  {
    hide Raw;
    assert Adjacent(codec, texts, groups[b - 1], groups[b]);
    assert codec.compress(Raw(texts, groups[b - 1])) != [];
    if a < b - 1 {
      OffsetsIncrease(codec, payload, texts, groups, upto, a, b - 1);
    }
  }

  /** An entry's byte range in its frame is its text. */
  lemma EntryText(texts: seq<Bytes>, g: Group, i: nat)
    requires g.first <= i < g.end <= |texts|
    ensures var raw, bs := Raw(texts, g), |Join(texts[g.first..i])|;
            bs + |texts[i]| <= |raw| && raw[bs..bs + |texts[i]|] == texts[i]
  {
    hide Join;
    var before, after := texts[g.first..i], texts[i + 1..g.end];
    assert texts[g.first..g.end] == before + [texts[i]] + after;
    JoinConcat(before + [texts[i]], after);
    JoinLast(before, texts[i]);
  }

  /** The bytes of group `k`'s frame, read from the container, decompress to its texts. */
  lemma {:induction false} FrameDecodes(
    codec: Codec, blob: Bytes, records: seq<Record>, toc: seq<Entry>, groups: seq<Group>, payload: Bytes,
    k: nat, off: nat, clen: nat)
    requires codec.Faithful() && Contains(codec, blob, records, toc, groups, payload) && k < |groups|
    requires GroupLaid(codec, payload, TextsOf(records), toc, groups[k])
    requires off == groups[k].off && clen == |codec.compress(Raw(TextsOf(records), groups[k]))|
    ensures off + clen <= |blob| && codec.decompress(blob[off..off + clen]) == Raw(TextsOf(records), groups[k])
  {
    hide Raw, Laid, Described;
    TableRecovered(codec, blob, records, toc, groups, payload);
    PrefixSlice(blob, payload, off, clen);
  }

  /** The elision line has no line boundary, so retention keeps clean lines clean. */
  lemma RetainedStaysClean(all: seq<Bytes>, half: nat)
    requires forall l :: l in all ==> Clean(l)
    ensures forall l :: l in Retained(all, half) ==> Clean(l)
  {
    hide Clean, Elided;
    if |all| > 2 * half {
      ElidedIsClean(|all| - 2 * half);
      assert forall l :: l in all[..half] || l in all[|all| - half..] ==> l in all;
    }
  }

  lemma ElidedIsClean(dropped: nat)
    ensures Clean(Elided(dropped))
  {
    var a, d, z := Ascii(" "), Digits(dropped), Ascii(" lines elided (log too large) ");
    PlainAscii(" ");
    PlainAscii(" lines elided (log too large) ");
    assert forall i :: 0 <= i < |d| ==> d[i] in d;
    assert ELLIPSIS + a + d + z + ELLIPSIS == ELLIPSIS + (a + d + z) + ELLIPSIS;
    CleanBetween(a + d + z);
  }

  lemma CleanBetween(middle: Bytes)
    requires forall i :: 0 <= i < |middle| ==> 32 <= middle[i] < 127
    ensures Clean(ELLIPSIS + middle + ELLIPSIS)
  {
    hide BoundaryAt;
    var line := ELLIPSIS + middle + ELLIPSIS;
    forall i | 0 <= i < |line|
      ensures BoundaryAt(line[i..]) == 0
    {
      assert line[i] == 0xE2 ==> i + 2 < |line| && line[i + 2] == 0xA6;
      assert line[i] != 0xC2 && line[i] !in {10, 11, 12, 13, 28, 29, 30};
      NoBoundary(line[i..]);
    }
  }

  lemma NoBoundary(s: Bytes)
    requires s != [] && s[0] != 0xC2 && s[0] !in {10, 11, 12, 13, 28, 29, 30}
    requires s[0] == 0xE2 ==> |s| > 2 && s[2] == 0xA6
    ensures BoundaryAt(s) == 0
  {
  }

  lemma PlainAscii(text: string)
    requires forall i :: 0 <= i < |text| ==> ' ' <= text[i] < '~'
    ensures |Ascii(text)| == |text| && forall i :: 0 <= i < |text| ==> 32 <= Ascii(text)[i] < 127
  {
  }

  /** Entry `i` read from the container alone. */
  function EntryLines(codec: Codec, blob: Bytes, e: Entry): seq<Bytes> {
    if e.off + e.clen > |blob| then []
    else
      var raw := codec.decompress(blob[e.off..e.off + e.clen]);
      if e.bs + e.bn > |raw| then [] else SplitLines(raw[e.bs..e.bs + e.bn])
  }

  /** Round trip: every entry gives back its record's lines exactly when none of them has a line boundary. */
  lemma {:induction false} ContainerRoundTrip(
    codec: Codec, blob: Bytes, records: seq<Record>, toc: seq<Entry>, groups: seq<Group>, payload: Bytes, i: nat)
    requires codec.Faithful() && Contains(codec, blob, records, toc, groups, payload) && i < |records|
    ensures EntryLines(codec, blob, toc[i]) == SplitLines(Text(records[i].lines))
    ensures EntryLines(codec, blob, toc[i]) == records[i].lines <==> forall l :: l in records[i].lines ==> Clean(l)
  {
    hide Raw, Join, Described;
    var texts := TextsOf(records);
    var k := GroupOf(codec, payload, texts, groups, |toc|, i);
    assert GroupLaid(codec, payload, texts, toc, groups[k]);
    FrameDecodes(codec, blob, records, toc, groups, payload, k, toc[i].off, toc[i].clen);
    EntryText(texts, groups[k], i);
    RoundTripExactly(records[i].lines);
  }

  class LogContainerReader {
    const codec: Codec
    const blob: Bytes
    const toc: seq<Entry>
    var cacheOff: int
    var cacheRaw: Bytes
    ghost const records: seq<Record>
    ghost const groups: seq<Group>
    ghost const payload: Bytes

    /** The reader is on a finalized container, and its cache is empty or holds the frame at its offset. */
    ghost predicate Valid()
      reads this
    {
      && codec.Faithful() && Contains(codec, blob, records, toc, groups, payload)
      && (cacheOff == -1 || exists k: nat :: HoldsFrame(k))
    }

    ghost predicate HoldsFrame(k: nat)
      reads this
    {
      && k < |groups| && groups[k].first <= groups[k].end <= |records|
      && cacheOff == groups[k].off && cacheRaw == Raw(TextsOf(records), groups[k])
    }

    constructor (codec: Codec, blob: Bytes, ghost records: seq<Record>, ghost toc: seq<Entry>, ghost groups: seq<Group>,
                 ghost payload: Bytes)
      requires codec.Faithful() && Contains(codec, blob, records, toc, groups, payload)
      ensures Valid() && this.records == records && this.toc == toc && this.codec == codec && this.blob == blob
      ensures this.groups == groups && this.payload == payload
    {
      hide Laid, Described;
      TableRecovered(codec, blob, records, toc, groups, payload);
      var tlen := Unpack(blob[|blob| - 8..|blob| - 4]);
      this.codec, this.blob := codec, blob;
      this.toc := codec.decodeToc(blob[|blob| - 8 - tlen..|blob| - 8]);
      cacheOff, cacheRaw := -1, [];
      this.records, this.groups, this.payload := records, groups, payload;
    }

    /** `_frame`: decompresses the frame at `off` unless it is the cached one. */
    method Frame(off: nat, clen: nat, ghost k: nat) returns (raw: Bytes)
      requires Valid() && k < |groups|
      requires GroupLaid(codec, payload, TextsOf(records), toc, groups[k])
      requires off == groups[k].off && clen == |codec.compress(Raw(TextsOf(records), groups[k]))|
      modifies this`cacheOff, this`cacheRaw
      ensures Valid() && raw == Raw(TextsOf(records), groups[k])
    {
      hide Raw;
      FrameDecodes(codec, blob, records, toc, groups, payload, k, off, clen);
      if off != cacheOff {
        cacheRaw := codec.decompress(blob[off..off + clen]);
        cacheOff := off;
        assert HoldsFrame(k);
      } else {
        ghost var held: nat :| HoldsFrame(held);
        SameOffset(codec, payload, TextsOf(records), groups, |toc|, held, k);
      }
      return cacheRaw;
    }

    /** The lines of entry `i`, whatever was read before: the writer's lines
        if and only if none of them contains a line boundary. */
    method ReadLines(i: nat) returns (lines: seq<Bytes>)
      requires Valid() && i < |toc|
      modifies this`cacheOff, this`cacheRaw
      ensures Valid() && lines == SplitLines(Text(records[i].lines))
      ensures lines == records[i].lines <==> forall l :: l in records[i].lines ==> Clean(l)
    {
      hide Raw, Join, Described;
      var e := toc[i];
      ghost var texts := TextsOf(records);
      ghost var k := GroupOf(codec, payload, texts, groups, |toc|, i);
      assert GroupLaid(codec, payload, texts, toc, groups[k]);
      var raw := Frame(e.off, e.clen, k);
      EntryText(texts, groups[k], i);
      lines := SplitLines(raw[e.bs..e.bs + e.bn]);
      RoundTripExactly(records[i].lines);
    }

    /** The lines of entry `i` with its phases put back, each at the line it was recorded at. */
    method RenderedLines(i: nat) returns (out: seq<Bytes>, ghost rows: seq<Row>)
      requires Valid() && i < |toc| && InOrder(records[i].phases, |records[i].lines|)
      modifies this`cacheOff, this`cacheRaw
      ensures Valid() && out == RenderAll(rows) && Texts(rows) == SplitLines(Text(records[i].lines))
      ensures Placed(rows) == PhasesBefore(records[i].phases, |Texts(rows)| + 1)
      ensures (forall l :: l in records[i].lines ==> Clean(l)) ==>
                Texts(rows) == records[i].lines && Placed(rows) == records[i].phases
    {
      hide Laid, InOrder, RenderAll, Texts, Placed, PhasesBefore, Clean, Text, SplitLines;
      var lines := ReadLines(i);
      out, rows := LogRetention.LinesWithPhases(lines, toc[i].ph, |records[i].lines|);
    }
  }

  lemma PrefixSlice(blob: Bytes, payload: Bytes, off: nat, clen: nat)
    requires |payload| <= |blob| && blob[..|payload|] == payload && off + clen <= |payload|
    ensures blob[off..off + clen] == payload[off..off + clen]
  {
    forall i | 0 <= i < |payload|
      ensures blob[i] == payload[i]
    {
      assert blob[..|payload|][i] == blob[i];
    }
  }

  lemma SameOffset(codec: Codec, payload: Bytes, texts: seq<Bytes>, groups: seq<Group>, upto: nat, a: nat, b: nat)
    requires Chained(codec, payload, texts, groups, upto) && codec.Faithful()
    requires a < |groups| && b < |groups| && groups[a].off == groups[b].off
    ensures a == b
  {
    if a < b {
      OffsetsIncrease(codec, payload, texts, groups, upto, a, b);
    } else if b < a {
      OffsetsIncrease(codec, payload, texts, groups, upto, b, a);
    }
  }
}
