/**
 The slot pool `FairScheduler` of `nixbot/nixbot/executor.py`, as the atomic
 steps its methods are made of, and what every sequence of steps keeps.
 */
module FairPool {
  import opened Wrappers

  type Key = int

  /** One call of `acquire`. A granted call holds a slot from the grant on,
      although its task resumes later; a cancelled one still has to clean up. */
  datatype TicketState = Waiting | Granted | Holding | Cancelled | Gone

  datatype Ticket = Ticket(key: Key, state: TicketState)

  /** A dequeue of `_dispatch`: the key at the front of the rotation, its oldest waiter, and whether that one still
      waited, so that it was granted a slot. */
  datatype Turn = Turn(key: Key, ticket: nat, granted: bool)

  datatype Pool = Pool(
    capacity: nat, active: int, waiters: map<Key, seq<nat>>, rotation: seq<Key>,
    tickets: seq<Ticket>, turns: seq<Turn>)

  datatype Step =
    | FastGrant(key: Key)       // acquire, a slot is free and nobody waits
    | Enqueue(key: Key)         // acquire, otherwise
    | Pop                       // one round of _dispatch
    | Cancel(ticket: nat)       // the waiting task is cancelled: its future is
    | Withdraw(ticket: nat)     // the cancelled task resumes and leaves the queue
    | Resume(ticket: nat)       // a granted task resumes
    | GiveBack(ticket: nat)     // release, or a grant that met a cancellation

  function Start(capacity: nat): Pool {
    Pool(capacity, 0, map[], [], [], [])
  }

  function Without<T(==)>(xs: seq<T>, x: T): (r: seq<T>)
    ensures |r| <= |xs|
  {
    if xs == [] then [] else if xs[0] == x then xs[1..] else [xs[0]] + Without(xs[1..], x)
  }

  function SetState(p: Pool, t: nat, state: TicketState): Pool
    requires t < |p.tickets|
  {
    p.(tickets := p.tickets[t := p.tickets[t].(state := state)])
  }

  predicate Enabled(p: Pool, step: Step) {
    match step
    case FastGrant(_) => p.active < p.capacity && p.waiters == map[]
    case Enqueue(_) => !(p.active < p.capacity && p.waiters == map[])
    case Pop =>
      && p.active < p.capacity && p.rotation != []
      && p.rotation[0] in p.waiters && p.waiters[p.rotation[0]] != []
      && p.waiters[p.rotation[0]][0] < |p.tickets|
    case Cancel(t) => t < |p.tickets| && p.tickets[t].state == Waiting
    case Withdraw(t) => t < |p.tickets| && p.tickets[t].state == Cancelled
    case Resume(t) => t < |p.tickets| && p.tickets[t].state == Granted
    case GiveBack(t) => t < |p.tickets| && (p.tickets[t].state == Granted || p.tickets[t].state == Holding)
  }

  /** The front key's oldest waiter leaves its queue; the key moves to the back, or away when its queue is empty. */
  function PopFront(p: Pool): Pool
    requires Enabled(p, Pop)
  {
    var key := p.rotation[0];
    var t, queue := p.waiters[key][0], p.waiters[key][1..];
    var q := p.(waiters := if queue == [] then p.waiters - {key} else p.waiters[key := queue],
                rotation := if queue == [] then p.rotation[1..] else p.rotation[1..] + [key],
                turns := p.turns + [Turn(key, t, p.tickets[t].state == Waiting)]);
    if p.tickets[t].state == Waiting then SetState(q.(active := q.active + 1), t, Granted) else q
  }

  /** `queue.remove(future)`, and the key goes when its queue is empty. */
  function LeaveQueue(p: Pool, t: nat): Pool
    requires t < |p.tickets|
  {
    var key := p.tickets[t].key;
    if key in p.waiters && t in p.waiters[key] then
      var queue := Without(p.waiters[key], t);
      if queue == [] then p.(waiters := p.waiters - {key}, rotation := Without(p.rotation, key))
      else p.(waiters := p.waiters[key := queue])
    else p
  }

  function Apply(p: Pool, step: Step): Pool
    requires Enabled(p, step)
  {
    match step
    case FastGrant(key) => p.(active := p.active + 1, tickets := p.tickets + [Ticket(key, Holding)])
    case Enqueue(key) =>
      p.(waiters := p.waiters[key := (if key in p.waiters then p.waiters[key] else []) + [|p.tickets|]],
         rotation := if key in p.waiters then p.rotation else p.rotation + [key],
         tickets := p.tickets + [Ticket(key, Waiting)])
    case Pop => PopFront(p)
    case Cancel(t) => SetState(p, t, Cancelled)
    case Withdraw(t) => SetState(LeaveQueue(p, t), t, Gone)
    case Resume(t) => SetState(p, t, Holding)
    case GiveBack(t) => SetState(p.(active := p.active - 1), t, Gone)
  }

  // ---------------------------------------------------------------------------
  // The invariant
  // ---------------------------------------------------------------------------

  predicate HasSlot(t: Ticket) {
    t.state == Granted || t.state == Holding
  }

  /** Slots granted and not given back. */
  function Slots(tickets: seq<Ticket>): nat {
    if tickets == [] then 0
    else Slots(tickets[..|tickets| - 1]) + (if HasSlot(tickets[|tickets| - 1]) then 1 else 0)
  }

  ghost predicate NoDup<T>(xs: seq<T>) {
    forall i, k :: 0 <= i < k < |xs| ==> xs[i] != xs[k]
  }

  /** The rotation lists exactly the keys with waiters, once each. */
  ghost predicate RotationInv(p: Pool) {
    && NoDup(p.rotation)
    && (forall k :: k in p.rotation <==> k in p.waiters)
    && (forall k :: k in p.waiters ==> p.waiters[k] != [])
  }

  ghost predicate Ascending(xs: seq<nat>) {
    forall i, k :: 0 <= i < k < |xs| ==> xs[i] < xs[k]
  }

  /** Call `t` is in the queue of `k`. */
  predicate Queued(p: Pool, k: Key, t: nat) {
    k in p.waiters && t in p.waiters[k]
  }

  /** A queued call belongs to the key and still waits, or was cancelled and has not cleaned up. */
  predicate GoodEntry(p: Pool, k: Key, t: nat) {
    t < |p.tickets| && p.tickets[t].key == k && (p.tickets[t].state == Waiting || p.tickets[t].state == Cancelled)
  }

  /** Queues are in arrival order and hold the waiting calls of their key. */
  ghost predicate QueueInv(p: Pool) {
    && (forall k :: k in p.waiters ==> Ascending(p.waiters[k]))
    && (forall k, t :: Queued(p, k, t) ==> GoodEntry(p, k, t))
    && (forall t: nat :: t < |p.tickets| && p.tickets[t].state == Waiting ==> Queued(p, p.tickets[t].key, t))
  }

  /** Turns of a key are in arrival order, before all that still wait. */
  ghost predicate TurnInv(p: Pool) {
    && (forall i :: 0 <= i < |p.turns| ==> p.turns[i].ticket < |p.tickets|)
    && (forall i, k :: 0 <= i < k < |p.turns| && p.turns[i].key == p.turns[k].key ==>
        p.turns[i].ticket < p.turns[k].ticket)
    && (forall i, t :: 0 <= i < |p.turns| && Queued(p, p.turns[i].key, t) ==> p.turns[i].ticket < t)
  }

  ghost predicate SlotInv(p: Pool) {
    p.active == Slots(p.tickets) && p.active <= p.capacity
  }

  ghost predicate Inv(p: Pool) {
    RotationInv(p) && QueueInv(p) && TurnInv(p) && SlotInv(p)
  }

  lemma StartInv(capacity: nat)
    ensures Inv(Start(capacity))
  {
  }

  lemma {:induction false} SlotsUpdate(tickets: seq<Ticket>, t: nat, a: Ticket)
    requires t < |tickets|
    ensures Slots(tickets[t := a]) == Slots(tickets) - (if HasSlot(tickets[t]) then 1 else 0)
            + (if HasSlot(a) then 1 else 0)
    decreases |tickets|
  {
    var n := |tickets| - 1;
    if t == n {
      assert tickets[t := a][..n] == tickets[..n];
    } else {
      SlotsUpdate(tickets[..n], t, a);
      assert tickets[t := a][..n] == tickets[..n][t := a];
    }
  }

  lemma SlotsAppend(tickets: seq<Ticket>, a: Ticket)
    ensures Slots(tickets + [a]) == Slots(tickets) + (if HasSlot(a) then 1 else 0)
  {
    assert (tickets + [a])[..|tickets|] == tickets;
  }

  lemma {:induction false} WithoutKeeps<T>(xs: seq<T>, x: T)
    requires NoDup(xs)
    ensures NoDup(Without(xs, x))
    ensures forall y :: y in Without(xs, x) <==> y in xs && y != x
  {
    hide NoDup;
    if xs != [] {
      NoDupTail(xs);
      WithoutKeeps(xs[1..], x);
      if xs[0] != x {
        NoDupCons(xs[0], Without(xs[1..], x));
      } else {
        assert forall y :: y in xs <==> y == x || y in xs[1..];
      }
    }
  }

  lemma NoDupTail<T>(xs: seq<T>)
    requires NoDup(xs) && xs != []
    ensures NoDup(xs[1..]) && xs[0] !in xs[1..]
  {
  }

  lemma NoDupCons<T>(x: T, xs: seq<T>)
    requires NoDup(xs) && x !in xs
    ensures NoDup([x] + xs)
  {
    forall i, k | 0 <= i < k < |[x] + xs|
      ensures ([x] + xs)[i] != ([x] + xs)[k]
    {
      assert ([x] + xs)[k] == xs[k - 1];
      assert xs[k - 1] in xs;
      assert i > 0 ==> ([x] + xs)[i] == xs[i - 1];
    }
  }

  lemma {:induction false} WithoutAscends(xs: seq<nat>, x: nat)
    requires Ascending(xs)
    ensures Ascending(Without(xs, x))
    ensures forall y :: y in Without(xs, x) <==> y in xs && y != x
  {
    hide Ascending;
    if xs != [] {
      AscendingTail(xs);
      WithoutAscends(xs[1..], x);
      if xs[0] != x {
        AscendingCons(xs[0], Without(xs[1..], x));
      } else {
        assert forall y :: y in xs <==> y == x || y in xs[1..];
      }
    }
  }

  lemma AscendingTail(xs: seq<nat>)
    requires Ascending(xs) && xs != []
    ensures Ascending(xs[1..]) && forall y :: y in xs[1..] ==> xs[0] < y
  {
  }

  lemma AscendingCons(x: nat, xs: seq<nat>)
    requires Ascending(xs) && forall y :: y in xs ==> x < y
    ensures Ascending([x] + xs)
  {
    forall i, k | 0 <= i < k < |[x] + xs|
      ensures ([x] + xs)[i] < ([x] + xs)[k]
    {
      assert ([x] + xs)[k] == xs[k - 1];
      assert xs[k - 1] in xs;
      assert i > 0 ==> ([x] + xs)[i] == xs[i - 1];
    }
  }

  // ---------------------------------------------------------------------------
  // Every step keeps it
  // ---------------------------------------------------------------------------

  /** The queues only lose entries, and no call that was not queued waits. */
  ghost predicate Shrinks(p: Pool, q: Pool) {
    && |q.tickets| == |p.tickets|
    && (forall k :: k in q.waiters ==> Ascending(q.waiters[k]))
    && (forall k, t :: Queued(q, k, t) ==> Queued(p, k, t) && GoodEntry(q, k, t))
    && (forall t: nat :: t < |q.tickets| && q.tickets[t].state == Waiting ==> Queued(q, q.tickets[t].key, t))
  }

  lemma ShrinkingKeepsQueues(p: Pool, q: Pool)
    requires QueueInv(p) && TurnInv(p) && Shrinks(p, q) && q.turns == p.turns
    ensures QueueInv(q) && TurnInv(q)
  {
  }

  /** Setting the state of a call outside the queues, or cancelling a waiting one. */
  lemma SetStateShrinks(p: Pool, t: nat, state: TicketState)
    requires QueueInv(p) && t < |p.tickets| && state != Waiting
    requires Queued(p, p.tickets[t].key, t) ==> state == Cancelled
    ensures Shrinks(p, SetState(p, t, state))
  {
    var q := SetState(p, t, state);
    forall k, u | Queued(q, k, u)
      ensures Queued(p, k, u) && GoodEntry(q, k, u)
    {
      assert Queued(p, k, u);
    }
    forall u: nat | u < |q.tickets| && q.tickets[u].state == Waiting
      ensures Queued(q, q.tickets[u].key, u)
    {
      assert Queued(p, p.tickets[u].key, u);
    }
  }

  lemma SetStateKeepsInv(p: Pool, t: nat, state: TicketState, active: int)
    requires RotationInv(p) && QueueInv(p) && TurnInv(p)
    requires t < |p.tickets| && state != Waiting
    requires Queued(p, p.tickets[t].key, t) ==> state == Cancelled
    requires p.active == Slots(p.tickets) && active <= p.capacity
    requires active == p.active - (if HasSlot(p.tickets[t]) then 1 else 0)
                       + (if HasSlot(p.tickets[t].(state := state)) then 1 else 0)
    ensures Inv(SetState(p.(active := active), t, state))
  {
    SlotsUpdate(p.tickets, t, p.tickets[t].(state := state));
    SetStateShrinks(p, t, state);
    var q := SetState(p, t, state);
    ShrinkingKeepsQueues(p, q);
    SameQueues(q, SetState(p.(active := active), t, state));
  }

  lemma SameQueues(p: Pool, q: Pool)
    requires q == p.(active := q.active) && QueueInv(p) && TurnInv(p)
    ensures QueueInv(q) && TurnInv(q)
  {
    assert forall k, t :: Queued(q, k, t) <==> Queued(p, k, t);
  }

  lemma EnqueueQueues(p: Pool, key: Key)
    requires QueueInv(p) && TurnInv(p) && RotationInv(p) && Enabled(p, Enqueue(key))
    ensures QueueInv(Apply(p, Enqueue(key))) && TurnInv(Apply(p, Enqueue(key)))
  {
    var q := Apply(p, Enqueue(key));
    var n := |p.tickets|;
    var was := if key in p.waiters then p.waiters[key] else [];
    assert q.waiters[key] == was + [n];
    forall k, t
      ensures Queued(q, k, t) <==> Queued(p, k, t) || (k == key && t == n)
    {
    }
    assert Ascending(was + [n]) by {
      forall i | 0 <= i < |was|
        ensures was[i] < n
      {
        assert Queued(p, key, was[i]);
      }
    }
    forall t: nat | t < |q.tickets| && q.tickets[t].state == Waiting
      ensures Queued(q, q.tickets[t].key, t)
    {
      assert t < n ==> Queued(p, p.tickets[t].key, t);
    }
  }

  lemma EnqueueKeepsInv(p: Pool, key: Key)
    requires Inv(p) && Enabled(p, Enqueue(key))
    ensures Inv(Apply(p, Enqueue(key)))
  {
    EnqueueQueues(p, key);
    SlotsAppend(p.tickets, Ticket(key, Waiting));
  }

  lemma FastGrantKeepsInv(p: Pool, key: Key)
    requires Inv(p) && Enabled(p, FastGrant(key))
    ensures Inv(Apply(p, FastGrant(key)))
  {
    SlotsAppend(p.tickets, Ticket(key, Holding));
    var q := Apply(p, FastGrant(key));
    assert forall k, t :: Queued(q, k, t) <==> Queued(p, k, t);
    assert forall t :: 0 <= t < |p.tickets| ==> q.tickets[t] == p.tickets[t];
  }

  /** Dropping call `t` from the queue of `key`, and the key with its last call. */
  ghost predicate Drops(p: Pool, q: Pool, key: Key, t: nat, queue: seq<nat>) {
    && q.waiters == (if queue == [] then p.waiters - {key} else p.waiters[key := queue])
    && Ascending(queue)
    && (forall u :: u in queue <==> Queued(p, key, u) && u != t)
    && q.tickets == p.tickets
  }

  lemma DropsQueued(p: Pool, q: Pool, key: Key, t: nat, queue: seq<nat>)
    requires key in p.waiters && Drops(p, q, key, t, queue)
    ensures forall k, u :: Queued(q, k, u) <==> Queued(p, k, u) && !(k == key && u == t)
  {
    forall k, u
      ensures Queued(q, k, u) <==> Queued(p, k, u) && !(k == key && u == t)
    {
      if k == key && queue == [] {
        assert Queued(p, k, u) && u != t ==> u in queue;
      }
    }
  }

  lemma LeaveQueueDrops(p: Pool, t: nat)
    requires RotationInv(p) && QueueInv(p) && t < |p.tickets| && Queued(p, p.tickets[t].key, t)
    ensures Drops(p, LeaveQueue(p, t), p.tickets[t].key, t, Without(p.waiters[p.tickets[t].key], t))
    ensures RotationInv(LeaveQueue(p, t))
  {
    var key := p.tickets[t].key;
    WithoutAscends(p.waiters[key], t);
    WithoutKeeps(p.rotation, key);
  }

  lemma LeaveQueueKeepsInv(p: Pool, t: nat)
    requires Inv(p) && t < |p.tickets| && p.tickets[t].state == Cancelled
    ensures RotationInv(LeaveQueue(p, t)) && QueueInv(LeaveQueue(p, t)) && TurnInv(LeaveQueue(p, t))
    ensures !Queued(LeaveQueue(p, t), p.tickets[t].key, t)
  {
    hide RotationInv, Ascending;
    var key, q := p.tickets[t].key, LeaveQueue(p, t);
    if Queued(p, key, t) {
      LeaveQueueDrops(p, t);
      var queue := Without(p.waiters[key], t);
      DropsQueued(p, q, key, t, queue);
      assert Shrinks(p, q);
      ShrinkingKeepsQueues(p, q);
    }
  }

  lemma PopDrops(p: Pool)
    requires RotationInv(p) && QueueInv(p) && Enabled(p, Pop)
    ensures var key := p.rotation[0];
            var t := p.waiters[key][0];
            && Queued(p, key, t)
            && Drops(p, PopFront(p).(tickets := p.tickets), key, t, p.waiters[key][1..])
    ensures RotationInv(PopFront(p))
  {
    var key := p.rotation[0];
    var t, queue := p.waiters[key][0], p.waiters[key][1..];
    assert p.waiters[key] == [t] + queue;
    assert p.rotation == [key] + p.rotation[1..];
    var q := PopFront(p);
    assert forall k :: k in p.rotation[1..] <==> k in p.rotation && k != key;
  }

  lemma PopKeepsTurns(p: Pool)
    requires Inv(p) && Enabled(p, Pop)
    ensures TurnInv(PopFront(p))
  {
    hide RotationInv, Slots;
    var key := p.rotation[0];
    var t, queue := p.waiters[key][0], p.waiters[key][1..];
    var q := PopFront(p);
    PopDrops(p);
    DropsQueued(p, q.(tickets := p.tickets), key, t, queue);
    assert forall k, u :: Queued(q, k, u) <==> Queued(q.(tickets := p.tickets), k, u);
    forall i, u | 0 <= i < |q.turns| && Queued(q, q.turns[i].key, u)
      ensures q.turns[i].ticket < u
    {
      if i == |p.turns| {
        assert u in queue;
        var j :| 0 <= j < |queue| && queue[j] == u;
        assert p.waiters[key][j + 1] == u;
      }
    }
  }

  lemma PopKeepsQueues(p: Pool)
    requires Inv(p) && Enabled(p, Pop)
    ensures QueueInv(PopFront(p))
  {
    hide RotationInv, TurnInv, Slots, Ascending;
    var key := p.rotation[0];
    var t, queue := p.waiters[key][0], p.waiters[key][1..];
    var q := PopFront(p);
    PopDrops(p);
    DropsQueued(p, q.(tickets := p.tickets), key, t, queue);
    assert forall k, u :: Queued(q, k, u) <==> Queued(q.(tickets := p.tickets), k, u);
    forall k, u | Queued(q, k, u)
      ensures GoodEntry(q, k, u)
    {
      assert Queued(p, k, u) && GoodEntry(p, k, u);
      assert u != t;
    }
    forall u: nat | u < |q.tickets| && q.tickets[u].state == Waiting
      ensures Queued(q, q.tickets[u].key, u)
    {
      assert Queued(p, p.tickets[u].key, u);
    }
  }

  lemma PopKeepsInv(p: Pool)
    requires Inv(p) && Enabled(p, Pop)
    ensures Inv(PopFront(p))
  {
    PopDrops(p);
    PopKeepsQueues(p);
    PopKeepsTurns(p);
    var t := p.waiters[p.rotation[0]][0];
    SlotsUpdate(p.tickets, t, p.tickets[t].(state := Granted));
  }

  lemma {:induction false} StepKeepsInv(p: Pool, step: Step)
    requires Inv(p) && Enabled(p, step)
    ensures Inv(Apply(p, step))
  {
    hide RotationInv, QueueInv, TurnInv;
    match step
    case FastGrant(key) => FastGrantKeepsInv(p, key);
    case Enqueue(key) => EnqueueKeepsInv(p, key);
    case Pop => PopKeepsInv(p);
    case Cancel(t) => SetStateKeepsInv(p, t, Cancelled, p.active);
    case Withdraw(t) =>
      LeaveQueueKeepsInv(p, t);
      SetStateKeepsInv(LeaveQueue(p, t), t, Gone, p.active);
    case Resume(t) =>
      GrantedIsNotQueued(p, t);
      SetStateKeepsInv(p, t, Holding, p.active);
    case GiveBack(t) =>
      GrantedIsNotQueued(p, t);
      SetStateKeepsInv(p, t, Gone, p.active - 1);
  }

  lemma GrantedIsNotQueued(p: Pool, t: nat)
    requires QueueInv(p) && t < |p.tickets| && HasSlot(p.tickets[t])
    ensures !Queued(p, p.tickets[t].key, t)
  {
  }

  // ---------------------------------------------------------------------------
  // Runs
  // ---------------------------------------------------------------------------

  /** The pool after a sequence of steps, None when some step was not enabled. */
  function Exec(capacity: nat, steps: seq<Step>): Option<Pool> {
    if steps == [] then Some(Start(capacity))
    else
      var before, step := Exec(capacity, steps[..|steps| - 1]), steps[|steps| - 1];
      if before.Some? && Enabled(before.value, step) then Some(Apply(before.value, step)) else None
  }

  lemma {:induction false} RunKeepsInv(capacity: nat, steps: seq<Step>)
    requires Exec(capacity, steps).Some?
    ensures Inv(Exec(capacity, steps).value) && Exec(capacity, steps).value.capacity == capacity
  {
    hide Inv;
    if steps == [] {
      StartInv(capacity);
    } else {
      RunKeepsInv(capacity, steps[..|steps| - 1]);
      StepKeepsInv(Exec(capacity, steps[..|steps| - 1]).value, steps[|steps| - 1]);
    }
  }

  /** No interleaving of acquire, release and cancellation leaks or invents a slot:
      the counter is the number of slots held, and is zero when every call has ended. */
  lemma {:induction false} SlotsConserved(capacity: nat, steps: seq<Step>)
    requires Exec(capacity, steps).Some?
    ensures var p := Exec(capacity, steps).value;
            && 0 <= p.active == Slots(p.tickets) <= capacity
            && ((forall t :: t in p.tickets ==> t.state == Gone) ==>
                  p.active == 0 && p.waiters == map[] && p.rotation == [])
  {
    RunKeepsInv(capacity, steps);
    var p := Exec(capacity, steps).value;
    if forall t :: t in p.tickets ==> t.state == Gone {
      AllGone(p.tickets);
      NobodyWaits(p);
    }
  }

  lemma NobodyWaits(p: Pool)
    requires RotationInv(p) && QueueInv(p) && forall t :: t in p.tickets ==> t.state == Gone
    ensures p.waiters == map[] && p.rotation == []
  {
    forall k
      ensures k !in p.waiters
    {
      if k in p.waiters {
        assert Queued(p, k, p.waiters[k][0]);
      }
    }
    assert p.waiters == map[];
    if p.rotation != [] {
      var k := SomeKey(p.rotation);
    }
  }

  lemma SomeKey(rotation: seq<Key>) returns (k: Key)
    requires rotation != []
    ensures k in rotation
  {
    k := rotation[0];
  }

  lemma {:induction false} AllGone(tickets: seq<Ticket>)
    requires forall t :: t in tickets ==> t.state == Gone
    ensures Slots(tickets) == 0
  {
    if tickets != [] {
      assert tickets == tickets[..|tickets| - 1] + [tickets[|tickets| - 1]];
      AllGone(tickets[..|tickets| - 1]);
    }
  }

  /** Within a key, turns are taken in arrival order, and before everyone still queued. */
  lemma FifoWithinKey(capacity: nat, steps: seq<Step>, i: nat, k: nat)
    requires Exec(capacity, steps).Some?
    requires i < k < |Exec(capacity, steps).value.turns|
    requires Exec(capacity, steps).value.turns[i].key == Exec(capacity, steps).value.turns[k].key
    ensures var p := Exec(capacity, steps).value;
            && p.turns[i].ticket < p.turns[k].ticket
            && forall t :: Queued(p, p.turns[k].key, t) ==> p.turns[k].ticket < t
  {
    RunKeepsInv(capacity, steps);
  }

  // ---------------------------------------------------------------------------
  // Round robin
  // ---------------------------------------------------------------------------

  /** The keys in front of `k` in the rotation. */
  function Front(rotation: seq<Key>, k: Key): set<Key> {
    if rotation == [] || rotation[0] == k then {} else {rotation[0]} + Front(rotation[1..], k)
  }

  lemma {:induction false} FrontMembers(rotation: seq<Key>, k: Key)
    ensures forall x :: x in Front(rotation, k) ==> x in rotation && x != k
    ensures |Front(rotation, k)| <= |rotation|
  {
    if rotation != [] && rotation[0] != k {
      FrontMembers(rotation[1..], k);
    }
  }

  lemma {:induction false} FrontAppend(rotation: seq<Key>, x: Key, k: Key)
    requires k in rotation
    ensures Front(rotation + [x], k) == Front(rotation, k)
  {
    if rotation[0] != k {
      assert (rotation + [x])[1..] == rotation[1..] + [x];
      FrontAppend(rotation[1..], x, k);
    }
  }

  lemma {:induction false} FrontWithout(rotation: seq<Key>, x: Key, k: Key)
    requires x != k
    ensures Front(Without(rotation, x), k) <= Front(rotation, k)
  {
    if rotation != [] && rotation[0] != k && rotation[0] != x {
      FrontWithout(rotation[1..], x, k);
    }
  }

  lemma {:induction false} FrontPop(rotation: seq<Key>, k: Key)
    requires NoDup(rotation) && k in rotation && rotation[0] != k
    ensures k in rotation[1..]
    ensures Front(rotation[1..], k) == Front(rotation, k) - {rotation[0]}
    ensures rotation[0] in Front(rotation, k)
  {
    FrontMembers(rotation[1..], k);
    assert rotation[0] !in rotation[1..];
  }

  /** While `k` stays in the rotation, a step never puts a key in front of it,
      and a turn of another key takes that key out of its front. */
  lemma StepShrinksFront(p: Pool, step: Step, k: Key)
    requires Inv(p) && Enabled(p, step) && k in p.waiters && k in Apply(p, step).waiters
    requires step == Pop ==> p.rotation[0] != k
    ensures var q := Apply(p, step);
            && Front(q.rotation, k) <= Front(p.rotation, k)
            && (step == Pop ==> |q.turns| == |p.turns| + 1 && q.turns[..|p.turns|] == p.turns
                                && q.turns[|p.turns|].key == p.rotation[0]
                                && p.rotation[0] in Front(p.rotation, k) - Front(q.rotation, k))
            && (step != Pop ==> q.turns == p.turns)
  {
    match step
    case Enqueue(key) =>
      if key !in p.waiters {
        FrontAppend(p.rotation, key, k);
      }
    case Pop =>
      FrontPop(p.rotation, k);
      FrontAppend(p.rotation[1..], p.rotation[0], k);
    case Withdraw(t) =>
      if p.tickets[t].key != k {
        FrontWithout(p.rotation, p.tickets[t].key, k);
      }
    case _ =>
  }

  ghost predicate Follows(p: Pool, q: Pool) {
    exists step :: Enabled(p, step) && q == Apply(p, step)
  }

  /** Consecutive pools of a run. */
  ghost predicate IsPath(path: seq<Pool>) {
    path != [] && Inv(path[0])
    && forall i :: 0 < i < |path| ==> Follows(path[i - 1], path[i])
  }

  /** `k` waits throughout and takes no turn after the first `n`. */
  ghost predicate KeepsWaiting(path: seq<Pool>, k: Key, n: nat) {
    forall p :: p in path ==> k in p.waiters && forall i :: n <= i < |p.turns| ==> p.turns[i].key != k
  }

  /** The turns after the first `n` took distinct keys out of `front`. */
  ghost predicate TookFrom(front: set<Key>, p: Pool, k: Key, n: nat) {
    && n <= |p.turns|
    && Front(p.rotation, k) <= front
    && (forall i :: n <= i < |p.turns| ==> p.turns[i].key in front && p.turns[i].key !in Front(p.rotation, k))
    && (forall i, j :: n <= i < j < |p.turns| ==> p.turns[i].key != p.turns[j].key)
  }

  lemma StepTakesFrom(front: set<Key>, p: Pool, step: Step, k: Key, n: nat)
    requires Inv(p) && Enabled(p, step) && k in p.waiters && k in Apply(p, step).waiters
    requires TookFrom(front, p, k, n)
    requires forall i :: n <= i < |Apply(p, step).turns| ==> Apply(p, step).turns[i].key != k
    ensures TookFrom(front, Apply(p, step), k, n)
  {
    hide Inv, Front;
    if step == Pop {
      assert Apply(p, step).turns[|p.turns|].key == p.rotation[0];
    }
    StepShrinksFront(p, step, k);
  }

  lemma {:induction false} TurnsComeFromFront(path: seq<Pool>, k: Key)
    requires IsPath(path) && KeepsWaiting(path, k, |path[0].turns|)
    ensures Inv(path[|path| - 1])
    ensures TookFrom(Front(path[0].rotation, k), path[|path| - 1], k, |path[0].turns|)
    decreases |path|
  {
    hide Inv, Front, TookFrom, Enabled, Apply;
    if |path| == 1 {
      NothingTaken(path[0], k);
    } else {
      var init := path[..|path| - 1];
      var p, q := init[|init| - 1], path[|path| - 1];
      assert forall x :: x in init ==> x in path;
      TurnsComeFromFront(init, k);
      assert Follows(p, q);
      var step :| Enabled(p, step) && q == Apply(p, step);
      assert p in path && q in path;
      StepKeepsInv(p, step);
      StepTakesFrom(Front(path[0].rotation, k), p, step, k, |path[0].turns|);
    }
  }

  lemma NothingTaken(p: Pool, k: Key)
    ensures TookFrom(Front(p.rotation, k), p, k, |p.turns|)
  {
  }

  /** A key that keeps waiting sees only keys that were in front of it take turns until its own, each at most
      once and then no longer in front of it, and so no more turns than there were keys in front of it. */
  lemma RoundRobin(path: seq<Pool>, k: Key)
    requires IsPath(path) && KeepsWaiting(path, k, |path[0].turns|)
    ensures var p, n := path[|path| - 1], |path[0].turns|;
            && (forall i, j :: n <= i < j < |p.turns| ==> p.turns[i].key != p.turns[j].key)
            && (forall i :: n <= i < |p.turns| ==>
                  p.turns[i].key in Front(path[0].rotation, k) && p.turns[i].key !in Front(p.rotation, k))
            && n <= |p.turns| <= n + |Front(path[0].rotation, k)|
            && |Front(path[0].rotation, k)| < |path[0].rotation|
  {
    TurnsComeFromFront(path, k);
    var p, n := path[|path| - 1], |path[0].turns|;
    var keys := set i | n <= i < |p.turns| :: p.turns[i].key;
    DistinctTurnsCount(p.turns, n, |p.turns|);
    assert keys == TurnKeys(p.turns, n, |p.turns|);
    CardinalityOfSubset(keys, Front(path[0].rotation, k));
    assert path[0] in path;
    FrontIsProper(path[0].rotation, k);
  }

  function TurnKeys(turns: seq<Turn>, n: nat, m: nat): set<Key>
    requires n <= m <= |turns|
  {
    set i | n <= i < m :: turns[i].key
  }

  lemma {:induction false} DistinctTurnsCount(turns: seq<Turn>, n: nat, m: nat)
    requires n <= m <= |turns|
    requires forall i, j :: n <= i < j < m ==> turns[i].key != turns[j].key
    ensures |TurnKeys(turns, n, m)| == m - n
  {
    if n < m {
      DistinctTurnsCount(turns, n, m - 1);
      OneMoreTurn(turns, n, m);
    }
  }

  lemma OneMoreTurn(turns: seq<Turn>, n: nat, m: nat)
    requires n < m <= |turns|
    ensures TurnKeys(turns, n, m) == TurnKeys(turns, n, m - 1) + {turns[m - 1].key}
    ensures (forall i, j :: n <= i < j < m ==> turns[i].key != turns[j].key) ==>
            turns[m - 1].key !in TurnKeys(turns, n, m - 1)
  {
  }

  lemma {:induction false} CardinalityOfSubset(a: set<Key>, b: set<Key>)
    requires a <= b
    ensures |a| <= |b|
  {
    assert b == a + (b - a);
  }

  lemma {:induction false} FrontIsProper(rotation: seq<Key>, k: Key)
    requires k in rotation
    ensures |Front(rotation, k)| < |rotation|
  {
    if rotation[0] != k {
      FrontIsProper(rotation[1..], k);
    }
  }

  /** Nobody waits while a slot is free. */
  predicate Settled(p: Pool) {
    p.waiters == map[] || p.active >= p.capacity
  }

  /** Every step but a release keeps the pool settled; a release is followed by dispatch. */
  lemma StepKeepsSettled(p: Pool, step: Step)
    requires Inv(p) && Settled(p) && Enabled(p, step) && !step.GiveBack?
    ensures Settled(Apply(p, step))
  {
    if step.Withdraw? {
      assert LeaveQueue(p, step.ticket).active == p.active;
    }
  }

  /** The calls still in a queue. */
  ghost function QueuedTickets(p: Pool): set<nat> {
    set t: nat | t < |p.tickets| && Queued(p, p.tickets[t].key, t)
  }

  lemma PopEmptiesQueues(p: Pool)
    requires Inv(p) && Enabled(p, Pop)
    ensures |QueuedTickets(PopFront(p))| < |QueuedTickets(p)|
  {
    var key, q := p.rotation[0], PopFront(p);
    var t := p.waiters[key][0];
    PopDequeues(p);
    assert t in QueuedTickets(p) by {
      FrontIsGood(p);
    }
    assert QueuedTickets(q) == QueuedTickets(p) - {t} by {
      hide Inv, PopFront, Queued, Enabled;
    }
  }

  lemma FrontIsGood(p: Pool)
    requires Inv(p) && Enabled(p, Pop)
    ensures var t := p.waiters[p.rotation[0]][0]; t < |p.tickets| && Queued(p, p.tickets[t].key, t)
  {
    var key := p.rotation[0];
    assert Queued(p, key, p.waiters[key][0]);
  }

  lemma PopDequeues(p: Pool)
    requires Inv(p) && Enabled(p, Pop)
    ensures var q, t := PopFront(p), p.waiters[p.rotation[0]][0];
            && |q.tickets| == |p.tickets|
            && forall u: nat :: u < |p.tickets| ==>
                 (Queued(q, q.tickets[u].key, u) <==> Queued(p, p.tickets[u].key, u) && u != t)
  {
    var key, q := p.rotation[0], PopFront(p);
    var t, queue := p.waiters[key][0], p.waiters[key][1..];
    PopDrops(p);
    DropsQueued(p, q.(tickets := p.tickets), key, t, queue);
    hide PopFront, Inv;
    assert forall k, u :: Queued(q, k, u) <==> Queued(q.(tickets := p.tickets), k, u);
    PopKeepsKeys(p);
  }

  lemma PopKeepsKeys(p: Pool)
    requires Enabled(p, Pop)
    ensures |PopFront(p).tickets| == |p.tickets|
    ensures forall u: nat :: u < |p.tickets| ==> PopFront(p).tickets[u].key == p.tickets[u].key
  {
  }

  /** The front key of a non-empty rotation has a waiter: `_dispatch` never meets an empty queue. */
  lemma FrontHasWaiter(p: Pool)
    requires Inv(p) && p.active < p.capacity && p.rotation != []
    ensures Enabled(p, Pop)
  {
    assert p.rotation[0] in p.rotation;
    assert Queued(p, p.rotation[0], p.waiters[p.rotation[0]][0]);
  }
}

/** The mutable scheduler, proved to take only these steps. */
module FairScheduling {
  import opened Wrappers
  import opened FairPool

  class FairScheduler {
    const capacity: nat
    var active: int
    var waiters: map<Key, seq<nat>>
    var rotation: seq<Key>
    var tickets: seq<Ticket>            // the calls of acquire, with the state of their futures
    ghost var turns: seq<Turn>
    ghost var steps: seq<Step>

    ghost function View(): Pool
      reads this
    {
      Pool(capacity, active, waiters, rotation, tickets, turns)
    }

    /** The state is that of the run `steps`. */
    ghost predicate Consistent()
      reads this
    {
      Exec(capacity, steps) == Some(View())
    }

    ghost predicate Valid()
      reads this
    {
      Consistent() && Settled(View())
    }

    constructor (capacity: nat)
      requires capacity >= 1
      ensures Valid() && steps == [] && this.capacity == capacity
    {
      this.capacity := capacity;
      active, waiters, rotation, tickets, turns, steps := 0, map[], [], [], [], [];
    }

    /** Takes a free slot at once, or queues behind the calls of its key. */
    method Acquire(key: Key) returns (ticket: nat)
      requires Valid()
      modifies this
      ensures Valid() && ticket == old(|tickets|) && |tickets| == ticket + 1 && tickets[ticket].key == key
      ensures if old(active) < capacity then steps == old(steps) + [FastGrant(key)] && tickets[ticket].state == Holding
              else steps == old(steps) + [Enqueue(key)] && tickets[ticket].state == Waiting
    {
      ghost var p := View();
      RunKeepsInv(capacity, steps);
      ticket := |tickets|;
      if active < capacity && waiters == map[] {
        active := active + 1;
        tickets := tickets + [Ticket(key, Holding)];
        Record(p, FastGrant(key));
        return;
      }
      if key !in waiters {
        waiters := waiters[key := []];
        rotation := rotation + [key];
      }
      waiters := waiters[key := waiters[key] + [ticket]];
      tickets := tickets + [Ticket(key, Waiting)];
      assert waiters == Apply(p, Enqueue(key)).waiters;
      Record(p, Enqueue(key));
    }

    /** Extends the run by the step that led from `p` to the present state. */
    ghost method Record(p: Pool, step: Step)
      requires Exec(capacity, steps) == Some(p) && Enabled(p, step) && View() == Apply(p, step)
      modifies this`steps
      ensures Consistent() && steps == old(steps) + [step]
    {
      steps := steps + [step];
      assert steps[..|steps| - 1] == old(steps);
    }

    /** `_dispatch`: grants free slots to the front keys in turn. */
    method Dispatch()
      requires Consistent()
      modifies this
      ensures Valid()
      ensures old(steps) <= steps && forall i :: |old(steps)| <= i < |steps| ==> steps[i] == Pop
    {
      RunKeepsInv(capacity, steps);
      while active < capacity && rotation != []
        invariant Consistent() && Inv(View())
        invariant old(steps) <= steps && forall i :: |old(steps)| <= i < |steps| ==> steps[i] == Pop
        decreases |QueuedTickets(View())|
      {
        ghost var p := View();
        FrontHasWaiter(p);
        PopEmptiesQueues(p);
        StepKeepsInv(p, Pop);
        PopOnce();
        Record(p, Pop);
      }
      assert rotation == [] ==> waiters == map[] by {
        assert forall k :: k in waiters ==> k in rotation;
      }
    }

    /** The body of the dispatch loop. */
    method PopOnce()
      requires Inv(View()) && Enabled(View(), Pop)
      modifies this`waiters, this`rotation, this`active, this`tickets, this`turns
      ensures View() == Apply(old(View()), Pop)
    {
      var key := rotation[0];
      var queue := waiters[key];
      var future := queue[0];
      queue := queue[1..];
      turns := turns + [Turn(key, future, tickets[future].state == Waiting)];
      rotation := rotation[1..] + [rotation[0]];
      if queue == [] {
        waiters := waiters - {key};
        RotatedAway(old(rotation), key);
        rotation := Without(rotation, key);
      } else {
        waiters := waiters[key := queue];
      }
      if tickets[future].state == Waiting {
        active := active + 1;
        tickets := tickets[future := tickets[future].(state := Granted)];
      }
    }

    /** Gives a held slot back and grants it on. */
    method Release(ticket: nat)
      requires Valid() && ticket < |tickets|
      requires tickets[ticket].state == Holding || tickets[ticket].state == Granted
      modifies this
      ensures Valid()
      ensures |steps| > |old(steps)| && steps[..|old(steps)| + 1] == old(steps) + [GiveBack(ticket)]
      ensures forall i :: |old(steps)| < i < |steps| ==> steps[i] == Pop
    {
      ghost var p := View();
      active := active - 1;
      tickets := tickets[ticket := tickets[ticket].(state := Gone)];
      Record(p, GiveBack(ticket));
      Dispatch();
    }

    /** The waiting task is cancelled: its future is cancelled at once. */
    method CancelWaiter(ticket: nat)
      requires Valid() && ticket < |tickets| && tickets[ticket].state == Waiting
      modifies this
      ensures Valid() && steps == old(steps) + [Cancel(ticket)]
    {
      ghost var p := View();
      tickets := tickets[ticket := tickets[ticket].(state := Cancelled)];
      Record(p, Cancel(ticket));
    }

    /** A granted task resumes and returns from acquire. */
    method ResumeGranted(ticket: nat)
      requires Valid() && ticket < |tickets| && tickets[ticket].state == Granted
      modifies this
      ensures Valid() && steps == old(steps) + [FairPool.Resume(ticket)]
    {
      ghost var p := View();
      tickets := tickets[ticket := tickets[ticket].(state := Holding)];
      Record(p, FairPool.Resume(ticket));
    }

    /** The except branch of acquire: leave the queue, and give back a slot
        that was granted while the cancellation was on its way. */
    method HandleCancellation(ticket: nat)
      requires Valid() && ticket < |tickets|
      requires tickets[ticket].state == Cancelled || tickets[ticket].state == Granted
      modifies this
      ensures Valid()
      ensures if old(tickets[ticket].state) == Cancelled then steps == old(steps) + [Withdraw(ticket)]
              else |steps| > |old(steps)| && steps[..|old(steps)| + 1] == old(steps) + [GiveBack(ticket)]
    {
      ghost var p := View();
      RunKeepsInv(capacity, steps);
      if tickets[ticket].state == Granted {
        GrantedIsNotQueued(p, ticket);
      }
      var key := tickets[ticket].key;
      if key in waiters && ticket in waiters[key] {
        waiters := waiters[key := Without(waiters[key], ticket)];
        if waiters[key] == [] {
          waiters := waiters - {key};
          rotation := Without(rotation, key);
        }
      }
      if tickets[ticket].state == Cancelled {
        tickets := tickets[ticket := tickets[ticket].(state := Gone)];
        assert waiters == Apply(p, Withdraw(ticket)).waiters;
        StepKeepsSettled(p, Withdraw(ticket));
        Record(p, Withdraw(ticket));
        return;
      }
      Release(ticket);
    }
  }

  /** Rotating the front key to the back and removing it leaves the rest. */
  lemma RotatedAway(rotation: seq<Key>, key: Key)
    requires NoDup(rotation) && rotation != [] && rotation[0] == key
    ensures Without(rotation[1..] + [rotation[0]], key) == rotation[1..]
  {
    assert key !in rotation[1..];
    WithoutLast(rotation[1..], key);
  }

  lemma {:induction false} WithoutLast(xs: seq<Key>, x: Key)
    requires x !in xs
    ensures Without(xs + [x], x) == xs
  {
    if xs != [] {
      assert (xs + [x])[1..] == xs[1..] + [x];
      WithoutLast(xs[1..], x);
    }
  }
}
