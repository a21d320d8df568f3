/**
 Joining a snapshot of a live log to a subscription (`subscribe_with_history`),
 under every interleaving of writes, locked flushes and snapshots. Everything
 between two awaits is one step.
 */
module LogStream {
  import opened ByteStrings
  import opened LogBuffer

  const SUBSCRIBER_QUEUE_MAXSIZE: nat := 256

  /** The flush lock, held by a flush with its chunk or by the snapshot of a subscriber. */
  datatype Lock = Free | Flushing(chunk: Bytes) | Copying(holder: nat)

  /** `lost` tells that the queue overflowed. A live subscriber remembers where
      its history has the gap of dropped bytes, and what a suspended write still held. */
  datatype Subscriber =
    | Requested(start: nat, queue: seq<Bytes>, lost: bool)
    | Reading(start: nat, queue: seq<Bytes>, lost: bool)
    | HasRead(start: nat, queue: seq<Bytes>, lost: bool, read: Bytes)
    | Live(history: Bytes, received: seq<Bytes>, queue: seq<Bytes>, lost: bool, cut: nat, gap: Bytes, missing: Bytes)

  /** `rest` is what a write past the head budget keeps while it waits for a flush;
      `written` is the byte stream so far. */
  datatype State = State(log: Log, lock: Lock, rest: Bytes, written: Bytes, subs: seq<Subscriber>)

  datatype Step =
    | Write(data: Bytes)
    | Resume                 // a suspended write puts its rest into the tail
    | FlushStart
    | FlushEnd
    | Subscribe
    | CopyStart(i: nat)      // the snapshot gets the lock
    | CopyRead(i: nat)       // the file is read in a thread
    | CopyEnd(i: nat)        // the rest is captured and the overlap dropped
    | Take(i: nat)           // the subscriber takes a chunk

  /** `_offer`: the oldest chunk goes when the queue is full. */
  function Offer(sub: Subscriber, data: Bytes): Subscriber {
    if |sub.queue| >= SUBSCRIBER_QUEUE_MAXSIZE then sub.(queue := sub.queue[1..] + [data], lost := true)
    else sub.(queue := sub.queue + [data])
  }

  function OfferAll(subs: seq<Subscriber>, data: Bytes): seq<Subscriber> {
    seq(|subs|, i requires 0 <= i < |subs| => Offer(subs[i], data))
  }

  /** Chunks are dropped from the front until `overlap` bytes are gone. */
  function DropOverlap(queue: seq<Bytes>, overlap: int): seq<Bytes> {
    if overlap <= 0 || queue == [] then queue else DropOverlap(queue[1..], overlap - |queue[0]|)
  }

  function Limbo(lock: Lock): Bytes {
    if lock.Flushing? then lock.chunk else []
  }

  predicate Enabled(s: State, step: Step) {
    match step
    case Write(data) => data != [] && s.rest == []
    case Resume => s.rest != []
    case FlushStart => s.lock == Free && s.log.frameBuffer != []
    case FlushEnd => s.lock.Flushing?
    case Subscribe => true
    case CopyStart(i) => s.lock == Free && i < |s.subs| && s.subs[i].Requested?
    case CopyRead(i) => i < |s.subs| && s.subs[i].Reading?
    case CopyEnd(i) => i < |s.subs| && s.subs[i].HasRead?
    case Take(i) => i < |s.subs| && s.subs[i].Live? && s.subs[i].queue != []
  }

  /** A write whose head part fills the frame buffer waits for a flush. */
  predicate Suspends(log: Log) {
    |log.frameBuffer| >= FRAME_FLUSH_THRESHOLD
  }

  function Capture(s: State, sub: Subscriber): Subscriber
    requires sub.HasRead?
  {
    Live(sub.read + s.log.frameBuffer + Join(s.log.tail), [],
         DropOverlap(sub.queue, s.log.bytesSeen - sub.start), sub.lost,
         |sub.read + s.log.frameBuffer|, s.log.gap, s.rest)
  }

  function Apply(s: State, step: Step): State
    requires Enabled(s, step)
  {
    match step
    case Write(data) =>
      var log, rest := PutHead(s.log, data), TailPart(s.log, data);
      var s' := s.(written := s.written + data, subs := OfferAll(s.subs, data));
      if s.log.headBudget > 0 && Suspends(log) then s'.(log := log, rest := rest)
      else s'.(log := PutTail(log, rest))
    case Resume => s.(log := PutTail(s.log, s.rest), rest := [])
    case FlushStart => s.(log := s.log.(frameBuffer := []), lock := Flushing(s.log.frameBuffer))
    case FlushEnd => s.(log := s.log.(file := s.log.file + s.lock.chunk), lock := Free)
    case Subscribe => s.(subs := s.subs + [Requested(s.log.bytesSeen, [], false)])
    case CopyStart(i) =>
      s.(lock := Copying(i), subs := s.subs[i := Reading(s.subs[i].start, s.subs[i].queue, s.subs[i].lost)])
    case CopyRead(i) =>
      s.(subs := s.subs[i := HasRead(s.subs[i].start, s.subs[i].queue, s.subs[i].lost, s.log.file)])
    case CopyEnd(i) => s.(lock := Free, subs := s.subs[i := Capture(s, s.subs[i])])
    case Take(i) =>
      s.(subs := s.subs[i := s.subs[i].(received := s.subs[i].received + [s.subs[i].queue[0]],
                                        queue := s.subs[i].queue[1..])])
  }

  function Start(sizeLimit: nat): State {
    State(Empty(sizeLimit), Free, [], [], [])
  }

  // ---------------------------------------------------------------------------
  // The invariant
  // ---------------------------------------------------------------------------

  ghost predicate NonEmpty(chunks: seq<Bytes>) {
    forall c :: c in chunks ==> c != []
  }

  /** Until it is live a subscriber has queued exactly what was written since it subscribed. */
  ghost predicate QueuedSince(written: Bytes, start: nat, queue: seq<Bytes>) {
    start <= |written| && Join(queue) == written[start..] && NonEmpty(queue)
  }

  /** Once live, the stream is its history, with the gap and the missing bytes put back,
      and then what it received and has queued. */
  ghost predicate JoinsStream(written: Bytes, sub: Subscriber)
    requires sub.Live?
  {
    && sub.cut <= |sub.history|
    && written == sub.history[..sub.cut] + sub.gap + sub.history[sub.cut..] + sub.missing + Join(sub.received)
       + Join(sub.queue)
  }

  ghost predicate SubInv(s: State, i: nat)
    requires i < |s.subs|
  {
    var sub := s.subs[i];
    && ((sub.Reading? || sub.HasRead?) <==> s.lock == Copying(i))
    && (sub.HasRead? ==> sub.read == s.log.file)
    && (!sub.lost ==> if sub.Live? then JoinsStream(s.written, sub) else QueuedSince(s.written, sub.start, sub.queue))
  }

  ghost predicate StreamInv(s: State) {
    && Inv(s.log, Limbo(s.lock), s.rest, s.written)
    && (forall i: nat :: i < |s.subs| ==> SubInv(s, i))
    && (s.lock.Copying? ==> s.lock.holder < |s.subs|)
  }

  lemma StartInv(sizeLimit: nat)
    ensures StreamInv(Start(sizeLimit))
  {
    EmptyInv(sizeLimit);
  }

  /** A queue holding exactly `overlap` bytes is drained. */
  lemma {:induction false} OverlapDrains(queue: seq<Bytes>)
    requires NonEmpty(queue)
    ensures DropOverlap(queue, |Join(queue)|) == []
    decreases |queue|
  {
    if queue != [] {
      JoinFirst(queue);
      assert queue[0] in queue;
      assert forall c :: c in queue[1..] ==> c in queue;
      OverlapDrains(queue[1..]);
    }
  }

  lemma LogStepKeepsInv(s: State, step: Step)
    requires StreamInv(s) && Enabled(s, step)
    ensures Inv(Apply(s, step).log, Limbo(Apply(s, step).lock), Apply(s, step).rest, Apply(s, step).written)
  {
    hide Parts, Head, Trim, PutHead, TailPart, Join, LogBuffer.Inv, JoinsStream, QueuedSince;
    var limbo := Limbo(s.lock);
    match step
    case Write(data) =>
      PutHeadKeepsInv(s.log, limbo, s.written, data);
      PutTailKeepsInv(PutHead(s.log, data), limbo, TailPart(s.log, data), s.written + data);
    case Resume =>
      PutTailKeepsInv(s.log, limbo, s.rest, s.written);
    case FlushStart =>
      FlushMoves(s.log, s.log.(frameBuffer := []), [], s.log.frameBuffer, s.rest, s.written);
    case FlushEnd =>
      FlushMoves(s.log, s.log.(file := s.log.file + limbo), limbo, [], s.rest, s.written);
    case CopyEnd(i) =>
      assert SubInv(s, i);
    case _ =>
  }

  lemma FlushMoves(a: Log, b: Log, limboA: Bytes, limboB: Bytes, rest: Bytes, written: Bytes)
    requires Inv(a, limboA, rest, written)
    requires b == a.(frameBuffer := b.frameBuffer, file := b.file)
    requires || (limboA == [] && limboB == a.frameBuffer && b.frameBuffer == [] && b.file == a.file)
             || (limboB == [] && b.file == a.file + limboA && b.frameBuffer == a.frameBuffer)
    ensures Inv(b, limboB, rest, written)
  {
    assert Head(b, limboB) == Head(a, limboA);
  }

  lemma WriteKeepsSub(s: State, data: Bytes, i: nat)
    requires StreamInv(s) && Enabled(s, Write(data)) && i < |s.subs|
    ensures SubInv(Apply(s, Write(data)), i)
  {
    hide LogBuffer.Inv, Trim, JoinsStream, QueuedSince;
    var sub, sub' := s.subs[i], Offer(s.subs[i], data);
    assert SubInv(s, i);
    if !sub'.lost {
      if sub.Live? {
        OfferJoins(s.written, sub, data);
      } else {
        OfferQueues(s.written, sub.start, sub.queue, data);
      }
    }
    PutKeepsFile(s.log, data);
  }

  lemma PutKeepsFile(log: Log, data: Bytes)
    ensures PutHead(log, data).file == log.file
    ensures PutTail(PutHead(log, data), TailPart(log, data)).file == log.file
    ensures PutTail(log, data).file == log.file
  {
    TrimKeepsFile(PutHead(log, data).(tail := log.tail + [TailPart(log, data)],
                                      tailSize := log.tailSize + |TailPart(log, data)|));
    TrimKeepsFile(log.(tail := log.tail + [data], tailSize := log.tailSize + |data|));
  }

  lemma {:induction false} TrimKeepsFile(log: Log)
    ensures Trim(log).file == log.file
    decreases |log.tail|
  {
    if log.tailSize > TailLimit(log.sizeLimit) && log.tail != [] && |log.tail[0]| <= log.tailSize {
      TrimKeepsFile(DropFirst(log));
    }
  }

  lemma OfferJoins(written: Bytes, sub: Subscriber, data: Bytes)
    requires sub.Live? && JoinsStream(written, sub) && |sub.queue| < SUBSCRIBER_QUEUE_MAXSIZE
    ensures JoinsStream(written + data, Offer(sub, data))
  {
    hide Join;
    JoinLast(sub.queue, data);
  }

  lemma OfferQueues(written: Bytes, start: nat, queue: seq<Bytes>, data: Bytes)
    requires QueuedSince(written, start, queue) && data != []
    ensures QueuedSince(written + data, start, queue + [data])
  {
    hide Join;
    JoinLast(queue, data);
    assert (written + data)[start..] == written[start..] + data;
  }

  lemma CaptureJoins(s: State, i: nat)
    requires StreamInv(s) && Enabled(s, CopyEnd(i)) && !s.subs[i].lost
    ensures JoinsStream(s.written, Capture(s, s.subs[i]))
  {
    hide Join, DropOverlap;
    assert SubInv(s, i);
    var sub := s.subs[i];
    var head, tail := Head(s.log, []), Join(s.log.tail);
    OverlapDrains(sub.queue);
    NothingJoined();
    assert head == sub.read + s.log.frameBuffer;
    var history := head + tail;
    assert history[..|head|] == head && history[|head|..] == tail;
    assert s.written == head + s.log.gap + tail + s.rest;
    assert s.written == head + s.log.gap + tail + s.rest + [] + [];
  }

  lemma TakeJoins(written: Bytes, sub: Subscriber)
    requires sub.Live? && sub.queue != [] && JoinsStream(written, sub)
    ensures JoinsStream(written, sub.(received := sub.received + [sub.queue[0]], queue := sub.queue[1..]))
  {
    hide Join;
    JoinLast(sub.received, sub.queue[0]);
    JoinFirst(sub.queue);
    AssocTake(sub.history[..sub.cut] + sub.gap + sub.history[sub.cut..] + sub.missing,
              Join(sub.received), sub.queue[0], Join(sub.queue[1..]));
  }

  lemma AssocTake(a: Bytes, b: Bytes, c: Bytes, d: Bytes)
    ensures a + b + (c + d) == a + (b + c) + d
  {
  }

  lemma StepKeepsSub(s: State, step: Step, i: nat)
    requires StreamInv(s) && Enabled(s, step) && i < |Apply(s, step).subs|
    ensures SubInv(Apply(s, step), i)
  {
    hide LogBuffer.Inv, Trim, JoinsStream, QueuedSince, Join, DropOverlap;
    assert i < |s.subs| ==> SubInv(s, i);
    match step
    case Write(data) =>
      WriteKeepsSub(s, data, i);
    case Resume =>
      PutKeepsFile(s.log, s.rest);
    case Subscribe =>
      if i == |s.subs| {
        SeenIsWritten(s);
        NothingQueued(s.written);
      }
    case CopyEnd(k) =>
      assert SubInv(s, k);
      if i == k && !s.subs[i].lost {
        CaptureJoins(s, i);
      }
    case CopyStart(k) =>
      assert SubInv(s, k);
    case CopyRead(k) =>
      assert SubInv(s, k);
    case Take(k) =>
      if i == k && !s.subs[i].lost {
        TakeJoins(s.written, s.subs[i]);
      }
    case _ =>
  }

  lemma SeenIsWritten(s: State)
    requires StreamInv(s)
    ensures s.log.bytesSeen == |s.written|
  {
  }

  lemma NothingQueued(written: Bytes)
    ensures QueuedSince(written, |written|, [])
  {
  }

  lemma {:induction false} StepKeepsInv(s: State, step: Step)
    requires StreamInv(s) && Enabled(s, step)
    ensures StreamInv(Apply(s, step))
  {
    hide LogBuffer.Inv, SubInv, Trim;
    LogStepKeepsInv(s, step);
    forall i: nat | i < |Apply(s, step).subs|
      ensures SubInv(Apply(s, step), i)
    {
      StepKeepsSub(s, step, i);
    }
  }

  // ---------------------------------------------------------------------------
  // Runs
  // ---------------------------------------------------------------------------

  ghost predicate Follows(s: State, s': State) {
    exists step :: Enabled(s, step) && s' == Apply(s, step)
  }

  ghost predicate IsRun(run: seq<State>, sizeLimit: nat) {
    && run != [] && run[0] == Start(sizeLimit)
    && forall i :: 0 < i < |run| ==> Follows(run[i - 1], run[i])
  }

  lemma {:induction false} RunKeepsInv(run: seq<State>, sizeLimit: nat, n: nat)
    requires IsRun(run, sizeLimit) && n < |run|
    ensures StreamInv(run[n])
  {
    if n == 0 {
      StartInv(sizeLimit);
    } else {
      RunKeepsInv(run, sizeLimit, n - 1);
      assert Follows(run[n - 1], run[n]);
      var step :| Enabled(run[n - 1], step) && run[n] == Apply(run[n - 1], step);
      StepKeepsInv(run[n - 1], step);
    }
  }

  // ---------------------------------------------------------------------------
  // Queues that overflow
  // ---------------------------------------------------------------------------

  /** What is queued is the end of the stream, in at most so many chunks. */
  ghost predicate Recent(written: Bytes, queue: seq<Bytes>) {
    |queue| <= SUBSCRIBER_QUEUE_MAXSIZE && exists k :: 0 <= k <= |written| && Join(queue) == written[k..]
  }

  ghost predicate AllRecent(s: State) {
    forall i :: 0 <= i < |s.subs| ==> Recent(s.written, s.subs[i].queue)
  }

  lemma OfferStaysRecent(written: Bytes, sub: Subscriber, data: Bytes)
    requires Recent(written, sub.queue)
    ensures Recent(written + data, Offer(sub, data).queue)
  {
    if |sub.queue| >= SUBSCRIBER_QUEUE_MAXSIZE {
      FrontStaysRecent(written, sub.queue);
      BackStaysRecent(written, sub.queue[1..], data);
    } else {
      BackStaysRecent(written, sub.queue, data);
    }
  }

  lemma BackStaysRecent(written: Bytes, queue: seq<Bytes>, data: Bytes)
    requires Recent(written, queue) && |queue| < SUBSCRIBER_QUEUE_MAXSIZE
    ensures Recent(written + data, queue + [data])
  {
    hide Join;
    var k :| 0 <= k <= |written| && Join(queue) == written[k..];
    JoinLast(queue, data);
    assert written[k..] + data == (written + data)[k..];
  }

  lemma FrontStaysRecent(written: Bytes, queue: seq<Bytes>)
    requires Recent(written, queue) && queue != []
    ensures Recent(written, queue[1..])
  {
    hide Join;
    var k :| 0 <= k <= |written| && Join(queue) == written[k..];
    JoinFirst(queue);
    assert written[k..] == queue[0] + Join(queue[1..]);
    assert Join(queue[1..]) == written[k + |queue[0]|..];
  }

  lemma {:induction false} DropStaysRecent(written: Bytes, queue: seq<Bytes>, overlap: int)
    requires Recent(written, queue)
    ensures Recent(written, DropOverlap(queue, overlap))
    decreases |queue|
  {
    hide Recent;
    if overlap > 0 && queue != [] {
      FrontStaysRecent(written, queue);
      DropStaysRecent(written, queue[1..], overlap - |queue[0]|);
    }
  }

  lemma StepStaysRecent(s: State, step: Step)
    requires AllRecent(s) && Enabled(s, step)
    ensures AllRecent(Apply(s, step))
  {
    hide Recent, Offer, DropOverlap, PutHead, PutTail, TailPart, Suspends, Join;
    match step
    case Write(data) =>
      forall i | 0 <= i < |s.subs|
        ensures Recent(s.written + data, Offer(s.subs[i], data).queue)
      {
        OfferStaysRecent(s.written, s.subs[i], data);
      }
    case Resume =>
    case FlushStart =>
    case FlushEnd =>
    case Subscribe => NothingRecent(s.written);
    case CopyStart(i) =>
    case CopyRead(i) =>
    case CopyEnd(i) => DropStaysRecent(s.written, s.subs[i].queue, s.log.bytesSeen - s.subs[i].start);
    case Take(i) => FrontStaysRecent(s.written, s.subs[i].queue);
  }

  lemma NothingRecent(written: Bytes)
    ensures Recent(written, [])
  {
    assert Join([]) == written[|written|..];
  }

  /** Overflowed or not: what a subscriber has queued is the end of the stream, and its queue is bounded. */
  lemma {:induction false} QueuesStayRecent(run: seq<State>, sizeLimit: nat, n: nat)
    requires IsRun(run, sizeLimit) && n < |run|
    ensures AllRecent(run[n])
  {
    hide AllRecent, Enabled, Apply;
    if n == 0 {
      StartsRecent(sizeLimit);
    } else {
      QueuesStayRecent(run, sizeLimit, n - 1);
      assert Follows(run[n - 1], run[n]);
      var step :| Enabled(run[n - 1], step) && run[n] == Apply(run[n - 1], step);
      StepStaysRecent(run[n - 1], step);
    }
  }

  lemma StartsRecent(sizeLimit: nat)
    ensures AllRecent(Start(sizeLimit))
  {
  }

  /** History, then what was received, then what is queued. */
  function Seen(sub: Subscriber): Bytes
    requires sub.Live?
  {
    sub.history + Join(sub.received) + Join(sub.queue)
  }

  /** A subscriber whose queue never overflowed sees exactly the stream if and only if
      its snapshot met no dropped bytes and no write suspended past the head budget;
      otherwise exactly those bytes are missing. */
  lemma SnapshotJoinsStream(run: seq<State>, sizeLimit: nat, i: nat)
    requires IsRun(run, sizeLimit) && i < |run[|run| - 1].subs|
    requires var sub := run[|run| - 1].subs[i]; sub.Live? && !sub.lost
    ensures var s := run[|run| - 1];
            var sub := s.subs[i];
            && JoinsStream(s.written, sub)
            && (Seen(sub) == s.written <==> sub.gap == [] && sub.missing == [])
            && |s.written| == |Seen(sub)| + |sub.gap| + |sub.missing|
  {
    hide LogBuffer.Inv, Join;
    var s := run[|run| - 1];
    var sub := s.subs[i];
    RunKeepsInv(run, sizeLimit, |run| - 1);
    assert SubInv(s, i);
    if sub.gap == [] && sub.missing == [] {
      NothingBetween(sub.history[..sub.cut], sub.history[sub.cut..], Join(sub.received) + Join(sub.queue));
      assert sub.history[..sub.cut] + sub.history[sub.cut..] == sub.history;
    }
  }

  lemma NothingBetween(a: Bytes, b: Bytes, c: Bytes)
    ensures a + [] + b + [] == a + b
  {
  }

  /** Within the head budget nothing is ever dropped or suspended. */
  lemma WithinHeadBudget(run: seq<State>, sizeLimit: nat, i: nat)
    requires IsRun(run, sizeLimit) && i < |run[|run| - 1].subs|
    requires var sub := run[|run| - 1].subs[i]; sub.Live? && !sub.lost
    requires |run[|run| - 1].written| <= HeadLimit(sizeLimit)
    ensures Seen(run[|run| - 1].subs[i]) == run[|run| - 1].written
  {
    hide LogBuffer.Inv, Join;
    SnapshotJoinsStream(run, sizeLimit, i);
    CapturedWithinHead(run, sizeLimit, |run| - 1, i);
  }

  /** A snapshot taken within the head budget met neither a gap nor a suspended rest. */
  ghost predicate CleanWithinHead(s: State, sizeLimit: nat) {
    && s.log.sizeLimit == sizeLimit
    && forall i: nat :: i < |s.subs| && s.subs[i].Live? && |s.written| <= HeadLimit(sizeLimit) ==>
         s.subs[i].gap == [] && s.subs[i].missing == []
  }

  lemma {:induction false} CapturedWithinHead(run: seq<State>, sizeLimit: nat, n: nat, i: nat)
    requires IsRun(run, sizeLimit) && n < |run| && i < |run[n].subs| && run[n].subs[i].Live?
    requires |run[n].written| <= HeadLimit(sizeLimit)
    ensures run[n].subs[i].gap == [] && run[n].subs[i].missing == []
  {
    AllClean(run, sizeLimit, n);
  }

  lemma {:induction false} AllClean(run: seq<State>, sizeLimit: nat, n: nat)
    requires IsRun(run, sizeLimit) && n < |run|
    ensures CleanWithinHead(run[n], sizeLimit)
  {
    if n > 0 {
      AllClean(run, sizeLimit, n - 1);
      RunKeepsInv(run, sizeLimit, n - 1);
      assert Follows(run[n - 1], run[n]);
      var step :| Enabled(run[n - 1], step) && run[n] == Apply(run[n - 1], step);
      StepKeepsClean(run[n - 1], step, sizeLimit);
    }
  }

  lemma StepKeepsClean(s: State, step: Step, sizeLimit: nat)
    requires StreamInv(s) && CleanWithinHead(s, sizeLimit) && Enabled(s, step)
    ensures CleanWithinHead(Apply(s, step), sizeLimit)
  {
    hide LogBuffer.Inv, Trim, Join, DropOverlap, SubInv;
    var s' := Apply(s, step);
    match step
    case Write(data) =>
      PutKeepsLimit(s.log, data);
      assert |s'.written| >= |s.written|;
      forall i: nat | i < |s'.subs| && s'.subs[i].Live? && |s'.written| <= HeadLimit(sizeLimit)
        ensures s'.subs[i].gap == [] && s'.subs[i].missing == []
      {
        assert s'.subs[i] == Offer(s.subs[i], data);
      }
    case Resume =>
      PutKeepsLimit(s.log, s.rest);
    case CopyEnd(k) =>
      if |s.written| <= HeadLimit(sizeLimit) {
        NothingPastHead(s);
      }
    case _ =>
  }

  lemma PutKeepsLimit(log: Log, data: Bytes)
    ensures PutTail(PutHead(log, data), TailPart(log, data)).sizeLimit == log.sizeLimit
    ensures PutTail(log, data).sizeLimit == log.sizeLimit
  {
    TrimKeepsLimit(PutHead(log, data).(tail := log.tail + [TailPart(log, data)],
                                       tailSize := log.tailSize + |TailPart(log, data)|));
    TrimKeepsLimit(log.(tail := log.tail + [data], tailSize := log.tailSize + |data|));
  }

  lemma {:induction false} TrimKeepsLimit(log: Log)
    ensures Trim(log).sizeLimit == log.sizeLimit
    decreases |log.tail|
  {
    if log.tailSize > TailLimit(log.sizeLimit) && log.tail != [] && |log.tail[0]| <= log.tailSize {
      TrimKeepsLimit(DropFirst(log));
    }
  }

  lemma NothingPastHead(s: State)
    requires StreamInv(s) && |s.written| <= HeadLimit(s.log.sizeLimit)
    ensures s.log.gap == [] && s.rest == []
  {
    PartsLength(s.written, Head(s.log, Limbo(s.lock)), s.log.gap, Join(s.log.tail), s.rest);
  }

  // ---------------------------------------------------------------------------
  // A write that crosses the head budget during a snapshot
  // ---------------------------------------------------------------------------

  /** A write one byte past a head budget of one frame, while a snapshot holds the lock. */
  function CrossingStep(k: nat): Step
    requires k < 5
  {
    if k == 0 then Subscribe
    else if k == 1 then CopyStart(0)
    else if k == 2 then Write(seq(FRAME_FLUSH_THRESHOLD + 1, i => 0))
    else if k == 3 then CopyRead(0)
    else CopyEnd(0)
  }

  /** The write's last byte is in neither the history nor the queue. */
  lemma CrossingWriteIsLost() returns (run: seq<State>)
    ensures IsRun(run, 2 * FRAME_FLUSH_THRESHOLD)
    ensures var s := run[|run| - 1];
            && |s.subs| == 1 && s.subs[0].Live? && !s.subs[0].lost && s.subs[0].queue == []
            && |s.written| == FRAME_FLUSH_THRESHOLD + 1 && |Seen(s.subs[0])| == FRAME_FLUSH_THRESHOLD
  {
    hide Trim, PutTail, Join, DropOverlap;
    var data: Bytes := seq(FRAME_FLUSH_THRESHOLD + 1, i => 0);
    var s0 := Start(2 * FRAME_FLUSH_THRESHOLD);
    var s1 := Apply(s0, Subscribe);
    var s2 := Apply(s1, CopyStart(0));
    var log := PutHead(s2.log, data);
    assert |HeadPart(s2.log, data)| == FRAME_FLUSH_THRESHOLD;
    assert Suspends(log);
    var s3 := Apply(s2, Write(data));
    assert s3.subs[0] == Reading(0, [data], false);
    var s4 := Apply(s3, CopyRead(0));
    var s5 := Apply(s4, CopyEnd(0));
    JoinOne(data);
    NothingJoined();
    OverlapDrains([data]);
    run := [s0, s1, s2, s3, s4, s5];
    forall i | 0 < i < |run|
      ensures Follows(run[i - 1], run[i])
    {
      assert Enabled(run[i - 1], CrossingStep(i - 1)) && run[i] == Apply(run[i - 1], CrossingStep(i - 1));
    }
  }
}
