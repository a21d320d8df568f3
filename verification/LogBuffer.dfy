/**
 The size-capped log of `LogWriter`: a head that goes to compressed frames, a
 bounded tail kept in memory, and the bytes dropped between them.
 Frames are compressed and decompressed faithfully, so the file is its content.
 */
module LogBuffer {
  import opened ByteStrings

  const FRAME_FLUSH_THRESHOLD: nat := 64 * 1024

  /** `gone` lists the dropped tail chunks and `gap` is their bytes; the source keeps its length, `_dropped`. */
  datatype Log = Log(
    sizeLimit: nat, bytesSeen: nat, headBudget: nat, tail: seq<Bytes>, tailSize: nat, gone: seq<Bytes>, gap: Bytes,
    truncated: bool, frameBuffer: Bytes, file: Bytes)

  function HeadLimit(sizeLimit: nat): nat {
    sizeLimit / 2
  }

  function TailLimit(sizeLimit: nat): nat {
    sizeLimit - sizeLimit / 2
  }

  function Empty(sizeLimit: nat): Log {
    Log(sizeLimit, 0, HeadLimit(sizeLimit), [], 0, [], [], false, [], [])
  }

  /** The part of a write that still fits the head budget. */
  function HeadPart(log: Log, data: Bytes): Bytes {
    data[..if log.headBudget < |data| then log.headBudget else |data|]
  }

  /** The part of a write past the head budget. */
  function TailPart(log: Log, data: Bytes): Bytes {
    data[|HeadPart(log, data)|..]
  }

  /** A write up to its first await: counted, and its head part buffered. */
  function PutHead(log: Log, data: Bytes): Log {
    var chunk := HeadPart(log, data);
    log.(bytesSeen := log.bytesSeen + |data|, headBudget := log.headBudget - |chunk|,
         frameBuffer := log.frameBuffer + chunk)
  }

  /** The oldest tail chunk goes. */
  function DropFirst(log: Log): Log
    requires log.tail != [] && |log.tail[0]| <= log.tailSize
  {
    log.(tail := log.tail[1..], tailSize := log.tailSize - |log.tail[0]|, gone := log.gone + [log.tail[0]],
         gap := log.gap + log.tail[0], truncated := true)
  }

  /** Oldest tail chunks go while the tail is over its limit. */
  function Trim(log: Log): Log
    decreases |log.tail|
  {
    if log.tailSize > TailLimit(log.sizeLimit) && log.tail != [] && |log.tail[0]| <= log.tailSize then
      Trim(DropFirst(log))
    else log
  }

  lemma TrimDrops(log: Log)
    requires log.tailSize > TailLimit(log.sizeLimit) && log.tail != [] && |log.tail[0]| <= log.tailSize
    ensures Trim(log) == Trim(DropFirst(log))
  {
  }

  lemma TrimEnds(log: Log)
    requires log.tailSize <= TailLimit(log.sizeLimit) || log.tail == []
    ensures Trim(log) == log
  {
  }

  /** The rest of a write: nothing, or one more tail chunk. */
  function PutTail(log: Log, data: Bytes): Log {
    if data == [] then log else Trim(log.(tail := log.tail + [data], tailSize := log.tailSize + |data|))
  }

  /** Everything on the way to the file: written, being compressed (`limbo`), buffered. */
  function Head(log: Log, limbo: Bytes): Bytes {
    log.file + limbo + log.frameBuffer
  }

  ghost predicate Parts(stream: Bytes, head: Bytes, gap: Bytes, tail: Bytes, rest: Bytes) {
    stream == head + gap + tail + rest
  }

  lemma PartsExtend(stream: Bytes, head: Bytes, gap: Bytes, tail: Bytes, data: Bytes)
    requires Parts(stream, head, gap, tail, [])
    ensures Parts(stream + data, head, gap, tail, data)
  {
  }

  lemma PartsSplit(stream: Bytes, head: Bytes, chunk: Bytes, rest: Bytes)
    requires Parts(stream, head, [], [], [])
    ensures Parts(stream + (chunk + rest), head + chunk, [], [], rest)
  {
    assert stream == head;
    assert (head + chunk) + [] + [] + rest == head + (chunk + rest);
  }

  lemma PartsKeep(stream: Bytes, head: Bytes, gap: Bytes, tail: Bytes, rest: Bytes)
    requires Parts(stream, head, gap, tail, rest)
    ensures Parts(stream, head, gap, tail + rest, [])
  {
    assert head + gap + (tail + rest) + [] == head + gap + tail + rest;
  }

  lemma PartsDrop(stream: Bytes, head: Bytes, gap: Bytes, first: Bytes, tail: Bytes)
    requires Parts(stream, head, gap, first + tail, [])
    ensures Parts(stream, head, gap + first, tail, [])
  {
    assert head + (gap + first) + tail + [] == head + gap + (first + tail) + [];
  }

  lemma PartsLength(stream: Bytes, head: Bytes, gap: Bytes, tail: Bytes, rest: Bytes)
    requires Parts(stream, head, gap, tail, rest)
    ensures |stream| == |head| + |gap| + |tail| + |rest|
    ensures stream[..|head|] == head && stream[|stream| - |tail| - |rest|..|stream| - |rest|] == tail
  {
  }

  lemma JoinFirst(chunks: seq<Bytes>)
    requires chunks != []
    ensures Join(chunks) == chunks[0] + Join(chunks[1..])
  {
    assert chunks == [chunks[0]] + chunks[1..];
    JoinConcat([chunks[0]], chunks[1..]);
    JoinOne(chunks[0]);
  }

  /** What was dropped: whole chunks, and the last of them did not fit beside the tail that is kept. */
  ghost predicate Gone(log: Log) {
    && log.gap == Join(log.gone)
    && (forall c :: c in log.gone ==> c != [])
    && (log.gone != [] ==> log.tailSize + |log.gone[|log.gone| - 1]| > log.sizeLimit - log.sizeLimit / 2)
  }

  /** No byte of `stream` is lost or moved: head, dropped bytes, tail, and the
      `rest` of a write that is waiting for a flush. */
  ghost predicate Inv(log: Log, limbo: Bytes, rest: Bytes, stream: Bytes) {
    && log.bytesSeen == |stream|
    && Parts(stream, Head(log, limbo), log.gap, Join(log.tail), rest)
    && |Head(log, limbo)| + log.headBudget == HeadLimit(log.sizeLimit)
    && (log.headBudget > 0 ==> log.gap == [] && log.tail == [] && rest == [])
    && log.tailSize == |Join(log.tail)| <= TailLimit(log.sizeLimit)
    && (log.truncated <==> log.gap != [])
    && (forall c :: c in log.tail ==> c != []) && Gone(log)
  }

  lemma EmptyInv(sizeLimit: nat)
    ensures Inv(Empty(sizeLimit), [], [], [])
  {
  }

  lemma PutHeadKeepsInv(log: Log, limbo: Bytes, stream: Bytes, data: Bytes)
    requires Inv(log, limbo, [], stream)
    ensures Inv(PutHead(log, data), limbo, TailPart(log, data), stream + data)
  {
    hide Parts;
    var chunk, rest := HeadPart(log, data), TailPart(log, data);
    assert data == chunk + rest;
    HeadGrows(log, limbo, chunk);
    if log.headBudget > 0 {
      PartsSplit(stream, Head(log, limbo), chunk, rest);
    } else {
      PartsExtend(stream, Head(log, limbo), log.gap, Join(log.tail), data);
      assert chunk == [] && rest == data;
      assert Head(log, limbo) + chunk == Head(log, limbo);
    }
  }

  lemma HeadGrows(log: Log, limbo: Bytes, chunk: Bytes)
    ensures Head(log.(frameBuffer := log.frameBuffer + chunk), limbo) == Head(log, limbo) + chunk
  {
  }

  /** `Inv` but for the tail limit. */
  ghost predicate Untrimmed(log: Log, limbo: Bytes, stream: Bytes) {
    && log.bytesSeen == |stream|
    && Parts(stream, Head(log, limbo), log.gap, Join(log.tail), [])
    && |Head(log, limbo)| == HeadLimit(log.sizeLimit) && log.headBudget == 0
    && log.tailSize == |Join(log.tail)|
    && (log.truncated <==> log.gap != [])
    && (forall c :: c in log.tail ==> c != []) && Gone(log)
  }

  lemma {:induction false} TrimKeepsInv(log: Log, limbo: Bytes, stream: Bytes)
    requires Untrimmed(log, limbo, stream)
    ensures Inv(Trim(log), limbo, [], stream)
    decreases |log.tail|
  {
    hide Parts, Join, Head;
    if log.tail == [] {
      NothingJoined();
    } else {
      var first, others := log.tail[0], log.tail[1..];
      JoinFirst(log.tail);
      if log.tailSize > TailLimit(log.sizeLimit) {
        var next := DropFirst(log);
        JoinLast(log.gone, first);
        PartsDrop(stream, Head(log, limbo), log.gap, first, Join(others));
        SameBuffers(log, next, limbo);
        assert first in log.tail;
        assert |log.gap + first| > 0;
        assert forall c :: c in others ==> c in log.tail;
        TrimKeepsInv(next, limbo, stream);
      }
    }
  }

  lemma NothingJoined()
    ensures Join([]) == []
  {
  }

  lemma SameBuffers(a: Log, b: Log, limbo: Bytes)
    requires a.file == b.file && a.frameBuffer == b.frameBuffer
    ensures Head(a, limbo) == Head(b, limbo)
  {
  }

  lemma {:induction false} TrimIgnoresBuffers(log: Log, frameBuffer: Bytes, file: Bytes)
    ensures Trim(log.(frameBuffer := frameBuffer, file := file)) == Trim(log).(frameBuffer := frameBuffer, file := file)
    decreases |log.tail|
  {
    if log.tailSize > TailLimit(log.sizeLimit) && log.tail != [] && |log.tail[0]| <= log.tailSize {
      TrimIgnoresBuffers(DropFirst(log), frameBuffer, file);
    }
  }

  lemma PutTailKeepsInv(log: Log, limbo: Bytes, rest: Bytes, stream: Bytes)
    requires Inv(log, limbo, rest, stream)
    ensures Inv(PutTail(log, rest), limbo, [], stream)
  {
    hide Parts, Join, Head;
    if rest != [] {
      var next := log.(tail := log.tail + [rest], tailSize := log.tailSize + |rest|);
      JoinLast(log.tail, rest);
      PartsKeep(stream, Head(log, limbo), log.gap, Join(log.tail), rest);
      SameBuffers(log, next, limbo);
      TrimKeepsInv(next, limbo, stream);
    }
  }

  /** Conservation with a real bound: every byte seen is in the head, dropped or in the tail. */
  lemma BytesConserved(log: Log, limbo: Bytes, rest: Bytes, stream: Bytes)
    requires Inv(log, limbo, rest, stream)
    ensures log.bytesSeen == |Head(log, limbo)| + |log.gap| + log.tailSize + |rest|
    ensures log.truncated <==> |log.gap| > 0
    ensures |Head(log, limbo)| + log.tailSize <= log.sizeLimit
  {
    hide Parts, Head;
    PartsLength(stream, Head(log, limbo), log.gap, Join(log.tail), rest);
  }

  /** Exactly: nothing is dropped if and only if what was written fits the size limit. */
  lemma NothingDroppedExactly(log: Log, limbo: Bytes, rest: Bytes, stream: Bytes)
    requires Inv(log, limbo, rest, stream)
    ensures log.gap == [] <==> log.gone == []
    ensures log.gap == [] <==> |stream| - |rest| <= log.sizeLimit
  {
    hide Parts, Head, Join;
    PartsLength(stream, Head(log, limbo), log.gap, Join(log.tail), rest);
    if log.gone != [] {
      var n := |log.gone| - 1;
      assert log.gone == log.gone[..n] + [log.gone[n]] && log.gone[n] in log.gone;
      JoinLast(log.gone[..n], log.gone[n]);
    } else {
      NothingJoined();
    }
  }

  /** The tail is as long as it can be: with any chunk that was dropped, what follows it would not fit the other
      half of the size limit. */
  lemma {:induction false} TailIsLongest(log: Log, limbo: Bytes, rest: Bytes, stream: Bytes, k: nat)
    requires Inv(log, limbo, rest, stream) && k < |log.gone|
    ensures |Join(log.tail)| <= log.sizeLimit - log.sizeLimit / 2 < |Join(log.gone[k..] + log.tail)|
  {
    hide Parts, Head, Join;
    var n := |log.gone| - 1;
    assert log.gone[k..] + log.tail == log.gone[k..n] + ([log.gone[n]] + log.tail);
    JoinConcat(log.gone[k..n], [log.gone[n]] + log.tail);
    JoinConcat([log.gone[n]], log.tail);
    JoinOne(log.gone[n]);
  }

  /** Trimming moves chunks from the tail to what is gone, in order. */
  lemma {:induction false} TrimMovesChunks(log: Log)
    ensures Trim(log).gone + Trim(log).tail == log.gone + log.tail
    decreases |log.tail|
  {
    if log.tailSize > TailLimit(log.sizeLimit) && log.tail != [] && |log.tail[0]| <= log.tailSize {
      TrimMovesChunks(DropFirst(log));
      assert log.gone + log.tail == log.gone + [log.tail[0]] + log.tail[1..];
    }
  }

  /** The note that stands in for the dropped bytes. */
  function Marker(dropped: nat): Bytes {
    Ascii("\n\n... log truncated (") + Digits(dropped) + Ascii(" bytes omitted) ...\n\n")
  }

  /** It says how many. */
  lemma MarkerTells(dropped: nat) returns (digits: Bytes)
    ensures Marker(dropped) == Ascii("\n\n... log truncated (") + digits + Ascii(" bytes omitted) ...\n\n")
    ensures NumberOf(digits) == dropped
  {
    digits := Digits(dropped);
    DigitsRead(dropped);
  }

  /** What the file must hold after close: everything, or the first half of the
      size limit, the note, and a true suffix no longer than the other half. */
  ghost predicate ClosedFile(file: Bytes, stream: Bytes, sizeLimit: nat, dropped: nat) {
    if dropped == 0 then file == stream && |stream| <= sizeLimit
    else
      var cut := HeadLimit(sizeLimit) + dropped;
      && cut <= |stream| <= cut + TailLimit(sizeLimit)
      && file == stream[..HeadLimit(sizeLimit)] + Marker(dropped) + stream[cut..]
  }

  lemma {:induction false} CloseFile(log: Log, stream: Bytes)
    requires Inv(log, [], [], stream)
    ensures ClosedFile(Head(log, []) + (if log.gap == [] then [] else Marker(|log.gap|)) + Join(log.tail), stream,
                       log.sizeLimit, |log.gap|)
  {
    hide Head, Join, Parts, Marker;
    PartsAtClose(stream, Head(log, []), log.gap, Join(log.tail));
    assert log.gap == [] ==> Head(log, []) + [] + Join(log.tail) == Head(log, []) + Join(log.tail);
  }

  lemma PartsAtClose(stream: Bytes, head: Bytes, gap: Bytes, tail: Bytes)
    requires Parts(stream, head, gap, tail, [])
    ensures |stream| == |head| + |gap| + |tail|
    ensures stream[..|head|] == head && stream[|head| + |gap|..] == tail
    ensures gap == [] ==> stream == head + tail
  {
    PartsLength(stream, head, gap, tail, []);
    assert head + [] + tail + [] == head + tail;
  }

  /** The closed file exceeds the size limit by the note at most. */
  lemma ClosedFileBound(file: Bytes, stream: Bytes, sizeLimit: nat, dropped: nat)
    requires ClosedFile(file, stream, sizeLimit, dropped)
    ensures |file| <= sizeLimit + (if dropped == 0 then 0 else |Marker(dropped)|)
  {
  }
}

/** The writer itself, used by one pump at a time. */
module LogWriting {
  import opened ByteStrings
  import opened LogBuffer

  class LogWriter {
    const sizeLimit: nat
    var bytesSeen: nat
    var truncated: bool
    var closed: bool
    var headBudget: nat
    var tail: seq<Bytes>
    var tailSize: nat
    var dropped: nat
    var frameBuffer: Bytes
    var file: Bytes
    ghost var gap: Bytes
    ghost var gone: seq<Bytes>
    ghost var stream: Bytes

    ghost function View(): Log
      reads this
    {
      Log(sizeLimit, bytesSeen, headBudget, tail, tailSize, gone, gap, truncated, frameBuffer, file)
    }

    ghost predicate Valid()
      reads this
    {
      Inv(View(), [], [], stream) && dropped == |gap| && !closed && |frameBuffer| < FRAME_FLUSH_THRESHOLD
    }

    constructor (sizeLimit: nat)
      ensures Valid() && stream == [] && this.sizeLimit == sizeLimit
    {
      this.sizeLimit := sizeLimit;
      bytesSeen, truncated, closed, headBudget := 0, false, false, sizeLimit / 2;
      tail, tailSize, dropped, frameBuffer, file := [], 0, 0, [], [];
      gap, gone, stream := [], [], [];
      new;
      EmptyInv(sizeLimit);
    }

    method Write(data: Bytes)
      requires Valid()
      modifies this
      ensures Valid() && stream == old(stream) + data
      ensures View() == PutTail(PutHead(old(View()), data), TailPart(old(View()), data)).(
                          frameBuffer := frameBuffer, file := file)
      ensures file + frameBuffer == old(file + frameBuffer) + HeadPart(old(View()), data)
      ensures gone + tail == old(gone + tail) + if |data| <= old(headBudget) then [] else [data[old(headBudget)..]]
    {
      hide Inv, Trim, Parts, Gone;
      ghost var log := View();
      if data == [] {
        assert log.file + log.frameBuffer + [] == log.file + log.frameBuffer;
        assert stream + data == stream;
        return;
      }
      PutHeadKeepsInv(log, [], stream, data);
      var rest := WriteHead(data);
      stream := stream + data;
      ghost var log' := View();
      FlushedHead(PutHead(log, data), log', rest, stream);
      PutTailKeepsInv(log', [], rest, stream);
      if rest != [] {
        TrimMovesChunks(log'.(tail := log'.tail + [rest], tailSize := log'.tailSize + |rest|));
        assert log'.gone + (log'.tail + [rest]) == log.gone + log.tail + [rest];
        KeepTail(rest);
        TrimIgnoresBuffers(PutHead(log, data).(tail := log.tail + [rest], tailSize := log.tailSize + |rest|),
                           frameBuffer, file);
      }
    }

    /** The head branch of write: what fits the budget goes to the frames. */
    method WriteHead(data: Bytes) returns (rest: Bytes)
      modifies this`bytesSeen, this`headBudget, this`frameBuffer, this`file
      ensures View() == PutHead(old(View()), data).(frameBuffer := frameBuffer, file := file)
      ensures rest == TailPart(old(View()), data)
      ensures old(|frameBuffer|) < FRAME_FLUSH_THRESHOLD ==> |frameBuffer| < FRAME_FLUSH_THRESHOLD
      ensures file + frameBuffer == old(file + frameBuffer) + HeadPart(old(View()), data)
    {
      NoBudget(View(), data);
      bytesSeen := bytesSeen + |data|;
      rest := data;
      if headBudget > 0 {
        var chunk := data[..if headBudget < |data| then headBudget else |data|];
        headBudget := headBudget - |chunk|;
        AppendFrame(chunk);
        rest := data[|chunk|..];
      } else {
        assert file + frameBuffer + [] == file + frameBuffer;
      }
    }

    /** The tail branch of write: the chunk is kept, and the oldest chunks are dropped over the limit. */
    method KeepTail(data: Bytes)
      requires data != [] && Inv(View(), [], data, stream) && dropped == |gap|
      modifies this`tail, this`tailSize, this`dropped, this`truncated, this`gap, this`gone
      ensures View() == PutTail(old(View()), data) && dropped == |gap|
    {
      hide Join, Head, Parts, Gone, HeadLimit;
      JoinLast(tail, data);
      tail := tail + [data];
      tailSize := tailSize + |data|;
      var tailLimit := sizeLimit - sizeLimit / 2;
      hide PutTail, Trim;
      while tailSize > tailLimit && tail != []
        invariant tailSize == |Join(tail)| && dropped == |gap|
        invariant Trim(View()) == PutTail(old(View()), data)
        decreases |tail|
      {
        JoinFirst(tail);
        TrimDrops(View());
        DropOldest();
      }
      TrimEnds(View());
    }

    /** The oldest tail chunk goes, and is counted. */
    method DropOldest()
      requires tail != [] && tailSize == |Join(tail)| && |tail[0]| <= tailSize && dropped == |gap|
      modifies this`tail, this`tailSize, this`dropped, this`truncated, this`gap, this`gone
      ensures View() == DropFirst(old(View())) && tailSize == |Join(tail)| && dropped == |gap|
    {
      hide Join;
      JoinFirst(tail);
      var first := tail[0];
      tail := tail[1..];
      tailSize := tailSize - |first|;
      dropped := dropped + |first|;
      gap := gap + first;
      gone := gone + [first];
      truncated := true;
    }

    /** Buffered until a frame is full, then flushed. */
    method AppendFrame(data: Bytes)
      modifies this`frameBuffer, this`file
      ensures file + frameBuffer == old(file + frameBuffer) + data
      ensures |frameBuffer| < FRAME_FLUSH_THRESHOLD
              && (old(|frameBuffer|) + |data| < FRAME_FLUSH_THRESHOLD ==> file == old(file))
    {
      frameBuffer := frameBuffer + data;
      if |frameBuffer| >= FRAME_FLUSH_THRESHOLD {
        FlushFrame();
      }
    }

    method FlushFrame()
      modifies this`frameBuffer, this`file
      ensures file == old(file + frameBuffer) && frameBuffer == []
    {
      if frameBuffer == [] {
        return;
      }
      file := file + frameBuffer;
      frameBuffer := [];
    }

    /** Everything still in memory reaches the file, after a note about what was dropped. */
    method Close()
      requires Valid()
      modifies this`closed, this`tail, this`tailSize, this`frameBuffer, this`file
      ensures closed && tail == [] && frameBuffer == [] && tailSize == 0
      ensures ClosedFile(file, stream, sizeLimit, dropped)
      ensures truncated <==> dropped > 0
      ensures |stream| <= sizeLimit <==> dropped == 0
      ensures |stream| <= sizeLimit ==> file == stream
      ensures |stream| > sizeLimit ==>
                && gone != [] && sizeLimit / 2 + dropped <= |stream|
                && var rest := stream[sizeLimit / 2 + dropped..];
                   && file == stream[..sizeLimit / 2] + Marker(dropped) + rest
                   && |rest| <= sizeLimit - sizeLimit / 2 < |rest| + |gone[|gone| - 1]|
    {
      hide Inv, Join, Marker;
      NothingDroppedExactly(View(), [], [], stream);
      LastDidNotFit(View(), stream);
      CloseFile(View(), stream);
      GapTells(View(), stream);
      assert file + frameBuffer + [] == file + frameBuffer;
      closed := true;
      if dropped > 0 {
        AppendFrame(Marker(dropped));
      }
      DrainTail();
      FlushFrame();
    }

    /** The tail chunks reach the frames, oldest first. */
    method DrainTail()
      modifies this`tail, this`tailSize, this`frameBuffer, this`file
      ensures tail == [] && tailSize == 0
      ensures file + frameBuffer == old(file + frameBuffer) + Join(old(tail))
    {
      hide Join;
      NothingJoined();
      ghost var left := Join(tail);
      ghost var done: Bytes := [];
      while tail != []
        invariant file + frameBuffer == old(file + frameBuffer) + done
        invariant done + Join(tail) == left
        decreases |tail|
      {
        JoinFirst(tail);
        ghost var next := done + tail[0];
        assert next + Join(tail[1..]) == left;
        assert old(file + frameBuffer) + done + tail[0] == old(file + frameBuffer) + next;
        AppendFrame(tail[0]);
        tail := tail[1..];
        done := next;
      }
      assert done == left;
      tailSize := 0;
    }
  }

  lemma LastDidNotFit(log: Log, stream: Bytes)
    requires Inv(log, [], [], stream)
    ensures log.gone != [] ==> var n := |log.gone| - 1;
              |Join(log.tail)| <= log.sizeLimit - log.sizeLimit / 2 < |Join(log.tail)| + |log.gone[n]|
    ensures |Join(log.tail)| == |stream| - |log.gap| - |Head(log, [])|
    ensures log.gap != [] ==> |Head(log, [])| == log.sizeLimit / 2
  {
    hide Parts;
    PartsLength(stream, Head(log, []), log.gap, Join(log.tail), []);
  }

  lemma GapTells(log: Log, stream: Bytes)
    requires Inv(log, [], [], stream)
    ensures log.truncated <==> log.gap != []
    ensures Head(log, []) == log.file + log.frameBuffer
  {
  }

  lemma NoBudget(log: Log, data: Bytes)
    ensures log.headBudget == 0 ==> PutHead(log, data) == log.(bytesSeen := log.bytesSeen + |data|)
    ensures log.headBudget == 0 ==> HeadPart(log, data) == [] && TailPart(log, data) == data
  {
  }

  lemma FlushedHead(a: Log, b: Log, rest: Bytes, stream: Bytes)
    requires Inv(a, [], rest, stream)
    requires b == a.(frameBuffer := b.frameBuffer, file := b.file) && b.file + b.frameBuffer == a.file + a.frameBuffer
    ensures Inv(b, [], rest, stream)
  {
    assert Head(a, []) == a.file + a.frameBuffer && Head(b, []) == b.file + b.frameBuffer;
    SameHead(a, b, [], rest, stream);
  }

  /** Moving buffered bytes to the file keeps the invariant. */
  lemma SameHead(a: Log, b: Log, limbo: Bytes, rest: Bytes, stream: Bytes)
    requires Inv(a, limbo, rest, stream)
    requires b == a.(frameBuffer := b.frameBuffer, file := b.file) && Head(a, limbo) == Head(b, limbo)
    ensures Inv(b, limbo, rest, stream)
  {
  }
}
