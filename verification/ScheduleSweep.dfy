/** The stored schedules and the sweep loop over them. */
module ScheduleSweep {
  import opened Wrappers
  import opened Schedules

  datatype Key = Key(project: int, schedule: string, effect: string)

  /** A stored row; None for a spec that does not parse. */
  datatype Row = Row(key: Key, when: Option<When>, lastRun: Option<int>)

  /** One round of the loop: when it reads the clock, and when it stamps each mark. */
  datatype Tick = Tick(now: int, stamps: Key -> int)

  function FieldsOf(env: Env, row: Row): Option<Fields> {
    if row.when.None? then None else Resolved(env, row.when.value, row.key.schedule)
  }

  /** A stored spec goes by the name of its schedule; a row without a spec, or with an unknown weekday, has none. */
  lemma StoredFields(env: Env, row: Row)
    ensures FieldsOf(env, row).Some? <==>
            row.when.Some? && Resolved(env, row.when.value, row.key.schedule).Some?
    ensures FieldsOf(env, row).Some? && row.when.value.minute.None? ==>
              exists k: nat :: env.seed(row.key.schedule) == 60 * k + FieldsOf(env, row).value.minute
  {
    if row.when.Some? {
      ResolvedExactly(env, row.when.value, row.key.schedule);
    }
  }

  /** The rows the query selects. */
  predicate Selected(row: Row, now: int) {
    row.lastRun.None? || row.lastRun.value < MinuteOf(now) * MINUTE
  }

  /** The occurrence to enqueue for a row; malformed specs are skipped. */
  function DueOf(env: Env, row: Row, now: int): Option<int> {
    match FieldsOf(env, row)
    case None => None
    case Some(f) =>
      var o := DueOccurrence(env, f, now);
      if o.Some? && Behind(row.lastRun, o.value) then o else None
  }

  /** The query leaves out no row that is due. */
  lemma DueIsSelected(env: Env, row: Row, now: int)
    requires DueOf(env, row, now).Some?
    ensures Selected(row, now)
  {
    hide IsDue;
  }

  function DueKeys(env: Env, rows: seq<Row>, now: int): seq<Key> {
    if rows == [] then []
    else
      var row := rows[|rows| - 1];
      DueKeys(env, rows[..|rows| - 1], now) + if DueOf(env, row, now).Some? then [row.key] else []
  }

  lemma {:induction false} DueKeysMembers(env: Env, rows: seq<Row>, now: int, key: Key)
    ensures key in DueKeys(env, rows, now)
       <==> exists i :: 0 <= i < |rows| && rows[i].key == key && DueOf(env, rows[i], now).Some?
  {
    hide DueOf;
    if rows != [] {
      var init := rows[..|rows| - 1];
      DueKeysMembers(env, init, now, key);
      if key in DueKeys(env, init, now) {
        var i :| 0 <= i < |init| && init[i].key == key && DueOf(env, init[i], now).Some?;
        assert rows[i] == init[i];
      }
    }
  }

  ghost predicate DistinctKeys(rows: seq<Row>) {
    forall i, j :: 0 <= i < j < |rows| ==> rows[i].key != rows[j].key
  }

  /** What a sweep does to a row. */
  function Swept(env: Env, row: Row, tick: Tick): Row {
    if DueOf(env, row, tick.now).Some? then row.(lastRun := Some(tick.stamps(row.key))) else row
  }

  /** The occurrences enqueued under a key. */
  function Occurrences(fired: seq<(Key, int)>, key: Key): seq<int> {
    if fired == [] then []
    else
      var last := fired[|fired| - 1];
      Occurrences(fired[..|fired| - 1], key) + if last.0 == key then [last.1] else []
  }

  /** The sweeps as one row sees them. */
  function SweepsOf(ticks: seq<Tick>, key: Key): seq<Sweep> {
    seq(|ticks|, i requires 0 <= i < |ticks| => Sweep(ticks[i].now, ticks[i].stamps(key)))
  }

  class ScheduledEffectsStore {
    var rows: seq<Row>
    /** Work enqueued, in order. */
    var queue: seq<Key>
    /** The same with the occurrence each entry is for. */
    ghost var fired: seq<(Key, int)>

    ghost predicate Valid()
      reads this
    {
      DistinctKeys(rows) && |queue| == |fired| && forall i :: 0 <= i < |queue| ==> queue[i] == fired[i].0
    }

    constructor (rows: seq<Row>)
      requires DistinctKeys(rows)
      ensures Valid() && this.rows == rows && queue == [] && fired == []
    {
      this.rows, queue, fired := rows, [], [];
    }

    /** `due_effects` */
    method DueEffects(env: Env, now: int) returns (due: seq<Key>)
      ensures due == DueKeys(env, rows, now)
    {
      due := [];
      for i := 0 to |rows|
        invariant due == DueKeys(env, rows[..i], now)
      {
        var row := rows[i];
        assert rows[..i + 1][..i] == rows[..i];
        if DueOf(env, row, now).Some? {
          DueIsSelected(env, row, now);
        }
        if Selected(row, now) {
          var f := FieldsOf(env, row);
          if f.Some? {
            var o := FindDue(env, f.value, now);
            if o.Some? && Behind(row.lastRun, o.value) {
              due := due + [row.key];
            }
          }
        }
      }
      assert rows[..|rows|] == rows;
    }

    /** `mark_run`: one update of the row with that key. */
    method MarkRun(key: Key, stamp: int)
      modifies this`rows
      ensures |rows| == |old(rows)|
      ensures forall i :: 0 <= i < |rows| ==>
                rows[i] == if old(rows)[i].key == key then old(rows)[i].(lastRun := Some(stamp)) else old(rows)[i]
    {
      rows := seq(|rows|, i requires 0 <= i < |rows| reads this =>
                            if rows[i].key == key then rows[i].(lastRun := Some(stamp)) else rows[i]);
    }

    /** One round of the sweep loop: enqueue what is due, then mark it. */
    method SweepOnce(env: Env, tick: Tick)
      requires Valid()
      modifies this
      ensures Valid() && |rows| == |old(rows)|
      ensures queue == old(queue) + DueKeys(env, old(rows), tick.now)
      ensures forall i :: 0 <= i < |rows| ==> rows[i] == Swept(env, old(rows)[i], tick)
      ensures forall i :: 0 <= i < |rows| ==>
                var o := DueOf(env, old(rows)[i], tick.now);
                Occurrences(fired, rows[i].key)
                  == Occurrences(old(fired), rows[i].key) + if o.Some? then [o.value] else []
    {
      hide DueOf, Occurrences, DueKeys, FiredSoFar, MarkedSoFar, DistinctKeys;
      ghost var rows0, fired0 := rows, fired;
      var due := DueEffects(env, tick.now);
      DueKeysOnce(env, rows0, tick.now);
      NothingFired(env, rows0, tick, fired0);
      for k := 0 to |due|
        invariant Valid() && queue == old(queue) + due[..k] && MarkedSoFar(rows0, rows, tick, due[..k])
        invariant FiredSoFar(env, rows0, tick.now, fired0, fired, due[..k])
      {
        var key := due[k];
        ghost var before := rows;
        ghost var j := DueRow(env, rows0, tick.now, key);
        queue := queue + [key];
        FireOne(env, rows0, tick.now, fired0, fired, due[..k], j);
        fired := fired + [(key, DueOf(env, rows0[j], tick.now).value)];
        MarkRun(key, tick.stamps(key));
        assert due[..k + 1] == due[..k] + [key];
        MarkOne(rows0, before, rows, tick, due[..k], key);
      }
      assert due[..|due|] == due;
      AllFired(env, rows0, rows, tick, fired0, fired, due);
    }
  }

  /** The rows whose keys have been marked have their stamps, the others are as before. */
  ghost predicate MarkedSoFar(rows0: seq<Row>, rows: seq<Row>, tick: Tick, keys: seq<Key>) {
    && |rows| == |rows0|
    && forall i :: 0 <= i < |rows| ==>
         var row := rows0[i];
         rows[i] == if row.key in keys then row.(lastRun := Some(tick.stamps(row.key))) else row
  }

  lemma MarkOne(rows0: seq<Row>, before: seq<Row>, rows: seq<Row>, tick: Tick, keys: seq<Key>, key: Key)
    requires MarkedSoFar(rows0, before, tick, keys) && DistinctKeys(before) && |rows| == |before|
    requires forall i :: 0 <= i < |rows| ==>
               rows[i] == if before[i].key == key then before[i].(lastRun := Some(tick.stamps(key))) else before[i]
    ensures MarkedSoFar(rows0, rows, tick, keys + [key]) && DistinctKeys(rows)
  {
    assert forall i :: 0 <= i < |rows| ==> rows[i].key == before[i].key;
  }

  lemma DueRow(env: Env, rows: seq<Row>, now: int, key: Key) returns (j: nat)
    requires key in DueKeys(env, rows, now)
    ensures j < |rows| && rows[j].key == key && DueOf(env, rows[j], now).Some?
  {
    hide DueOf;
    DueKeysMembers(env, rows, now, key);
    j :| 0 <= j < |rows| && rows[j].key == key && DueOf(env, rows[j], now).Some?;
  }

  lemma NothingFired(env: Env, rows: seq<Row>, tick: Tick, fired: seq<(Key, int)>)
    ensures MarkedSoFar(rows, rows, tick, []) && FiredSoFar(env, rows, tick.now, fired, fired, [])
  {
    hide DueOf, Occurrences;
  }

  /** Once all due keys are through, every row is swept and has its occurrence on record. */
  lemma AllFired(env: Env, rows0: seq<Row>, rows: seq<Row>, tick: Tick, fired0: seq<(Key, int)>, fired: seq<(Key, int)>,
                 due: seq<Key>)
    requires DistinctKeys(rows0) && due == DueKeys(env, rows0, tick.now)
    requires MarkedSoFar(rows0, rows, tick, due) && FiredSoFar(env, rows0, tick.now, fired0, fired, due)
    ensures |rows| == |rows0|
    ensures forall i :: 0 <= i < |rows| ==> rows[i] == Swept(env, rows0[i], tick)
    ensures forall i :: 0 <= i < |rows| ==>
              var o := DueOf(env, rows0[i], tick.now);
              Occurrences(fired, rows[i].key) == Occurrences(fired0, rows[i].key) + if o.Some? then [o.value] else []
  {
    hide DueOf, Occurrences, DueKeys;
    forall i | 0 <= i < |rows|
      ensures rows0[i].key in due <==> DueOf(env, rows0[i], tick.now).Some?
      ensures rows[i].key == rows0[i].key
    {
      DueKeysMembers(env, rows0, tick.now, rows0[i].key);
      if rows0[i].key in due {
        var j := DueRow(env, rows0, tick.now, rows0[i].key);
        assert j == i;
      }
    }
  }

  /** The keys marked so far have their occurrence on record, the others nothing new. */
  ghost predicate FiredSoFar(env: Env, rows: seq<Row>, now: int, fired0: seq<(Key, int)>, fired: seq<(Key, int)>,
                             keys: seq<Key>) {
    forall i :: 0 <= i < |rows| ==>
      var o := DueOf(env, rows[i], now);
      Occurrences(fired, rows[i].key)
        == Occurrences(fired0, rows[i].key) + if rows[i].key in keys && o.Some? then [o.value] else []
  }

  lemma FireOne(env: Env, rows: seq<Row>, now: int, fired0: seq<(Key, int)>, fired: seq<(Key, int)>, keys: seq<Key>,
                j: nat)
    requires FiredSoFar(env, rows, now, fired0, fired, keys) && DistinctKeys(rows)
    requires j < |rows| && rows[j].key !in keys && DueOf(env, rows[j], now).Some?
    ensures FiredSoFar(env, rows, now, fired0, fired + [(rows[j].key, DueOf(env, rows[j], now).value)],
                       keys + [rows[j].key])
  {
    hide DueOf;
    var last := (rows[j].key, DueOf(env, rows[j], now).value);
    assert (fired + [last])[..|fired|] == fired;
  }

  lemma {:induction false} DueKeysOnce(env: Env, rows: seq<Row>, now: int)
    requires DistinctKeys(rows)
    ensures forall i, j :: 0 <= i < j < |DueKeys(env, rows, now)| ==>
            DueKeys(env, rows, now)[i] != DueKeys(env, rows, now)[j]
  {
    hide DueOf;
    if rows != [] {
      var init := rows[..|rows| - 1];
      DueKeysOnce(env, init, now);
      DueKeysMembers(env, init, now, rows[|rows| - 1].key);
    }
  }

  /** Row `i` after some rounds, against the single schedule it holds. */
  ghost predicate Follows(env: Env, row0: Row, row: Row, fired: seq<(Key, int)>, ticks: seq<Tick>) {
    && row.key == row0.key && row.when == row0.when
    && match FieldsOf(env, row0)
       case None => row == row0 && Occurrences(fired, row0.key) == []
       case Some(f) =>
         var s := FireAll(env, f, row0.lastRun, SweepsOf(ticks, row0.key));
         row.lastRun == s.last && Occurrences(fired, row0.key) == s.enqueued
  }

  /** How often a stored schedule is enqueued. */
  function TimesFired(env: Env, row: Row, ticks: seq<Tick>): nat {
    match FieldsOf(env, row)
    case None => 0
    case Some(f) => |FireAll(env, f, row.lastRun, SweepsOf(ticks, row.key)).enqueued|
  }

  lemma {:induction false} QueueCounts(queue: seq<Key>, fired: seq<(Key, int)>, key: Key)
    requires |queue| == |fired| && forall i :: 0 <= i < |queue| ==> queue[i] == fired[i].0
    ensures multiset(queue)[key] == |Occurrences(fired, key)|
  {
    if queue != [] {
      var n := |queue| - 1;
      assert queue == queue[..n] + [queue[n]];
      QueueCounts(queue[..n], fired[..n], key);
    }
  }

  lemma {:induction false} FollowsCounts(env: Env, row0: Row, row: Row, queue: seq<Key>, fired: seq<(Key, int)>,
                                         ticks: seq<Tick>)
    requires Follows(env, row0, row, fired, ticks)
    requires |queue| == |fired| && forall i :: 0 <= i < |queue| ==> queue[i] == fired[i].0
    ensures multiset(queue)[row0.key] == TimesFired(env, row0, ticks)
  {
    QueueCounts(queue, fired, row0.key);
  }

  lemma {:induction false} FollowsOne(
    env: Env, row0: Row, row: Row, fired: seq<(Key, int)>, ticks: seq<Tick>, tick: Tick, fired': seq<(Key, int)>)
    requires Follows(env, row0, row, fired, ticks)
    requires var o := DueOf(env, row, tick.now);
             Occurrences(fired', row.key) == Occurrences(fired, row.key) + if o.Some? then [o.value] else []
    ensures Follows(env, row0, Swept(env, row, tick), fired', ticks + [tick])
  {
    hide Occurrences, Resolved, DueOccurrence;
    var all, init := SweepsOf(ticks + [tick], row0.key), SweepsOf(ticks, row0.key);
    assert all[..|all| - 1] == init && all[|all| - 1] == Sweep(tick.now, tick.stamps(row0.key));
  }

  /** Of a stored schedule that parses: everything it expects is enqueued once, exactly if its marks are in time. */
  ghost predicate FiresExactly(env: Env, row: Row, fired: seq<(Key, int)>, ticks: seq<Tick>) {
    FieldsOf(env, row).Some? ==>
      var f, sweeps := FieldsOf(env, row).value, SweepsOf(ticks, row.key);
      EachOnce(env, f, row.lastRun, sweeps, Occurrences(fired, row.key)) <==> InTime(env, f, row.lastRun, sweeps)
  }

  /** With frequent sweeps and marks in time, these are all occurrences after the first round and up to the last. */
  ghost predicate FiresAll(env: Env, row: Row, fired: seq<(Key, int)>, ticks: seq<Tick>) {
    FieldsOf(env, row).Some? ==>
      var f, sweeps := FieldsOf(env, row).value, SweepsOf(ticks, row.key);
      sweeps != [] && Frequent(sweeps) && StartsAt(row.lastRun, sweeps) && InTime(env, f, row.lastRun, sweeps) ==>
        forall o :: IsDue(env, f, o) && sweeps[0].now < o * MINUTE <= sweeps[|sweeps| - 1].now ==>
          multiset(Occurrences(fired, row.key))[o] == 1
  }

  /** The loop over any number of rounds, for all stored schedules at once. */
  method SweepLoop(env: Env, rows0: seq<Row>, ticks: seq<Tick>) returns (queue: seq<Key>, ghost fired: seq<(Key, int)>)
    requires DistinctKeys(rows0)
    requires forall i :: 0 <= i < |rows0| ==> Ordered(SweepsOf(ticks, rows0[i].key))
    ensures |queue| == |fired| && forall i :: 0 <= i < |queue| ==> queue[i] == fired[i].0
    ensures forall i :: 0 <= i < |rows0| ==> multiset(queue)[rows0[i].key] == TimesFired(env, rows0[i], ticks)
    ensures forall i :: 0 <= i < |rows0| ==> FiresExactly(env, rows0[i], fired, ticks)
    ensures forall i :: 0 <= i < |rows0| ==> FiresAll(env, rows0[i], fired, ticks)
  {
    hide FiresExactly, FiresAll, Ordered, Occurrences, Follows, Swept, DueOf, TimesFired;
    var store := new ScheduledEffectsStore(rows0);
    forall i | 0 <= i < |rows0|
      ensures Follows(env, rows0[i], rows0[i], [], [])
    {
      FollowsNothing(env, rows0[i]);
    }
    for k := 0 to |ticks|
      invariant store.Valid() && fresh(store) && |store.rows| == |rows0|
      invariant forall i :: 0 <= i < |rows0| ==> Follows(env, rows0[i], store.rows[i], store.fired, ticks[..k])
    {
      ghost var rows, fired0 := store.rows, store.fired;
      store.SweepOnce(env, ticks[k]);
      assert ticks[..k + 1] == ticks[..k] + [ticks[k]];
      forall i | 0 <= i < |rows0|
        ensures Follows(env, rows0[i], store.rows[i], store.fired, ticks[..k + 1])
      {
        SweptKeepsKey(env, rows[i], ticks[k]);
        FollowsOne(env, rows0[i], rows[i], fired0, ticks[..k], ticks[k], store.fired);
      }
    }
    assert ticks[..|ticks|] == ticks;
    queue, fired := store.queue, store.fired;
    forall i | 0 <= i < |rows0|
      ensures multiset(queue)[rows0[i].key] == TimesFired(env, rows0[i], ticks)
      ensures FiresExactly(env, rows0[i], fired, ticks) && FiresAll(env, rows0[i], fired, ticks)
    {
      FollowsCounts(env, rows0[i], store.rows[i], queue, fired, ticks);
      FollowsExactly(env, rows0[i], store.rows[i], fired, ticks);
    }
  }

  lemma FollowsNothing(env: Env, row: Row)
    ensures Follows(env, row, row, [], [])
  {
  }

  lemma SweptKeepsKey(env: Env, row: Row, tick: Tick)
    ensures Swept(env, row, tick).key == row.key
  {
  }

  lemma FollowsExactly(env: Env, row0: Row, row: Row, fired: seq<(Key, int)>, ticks: seq<Tick>)
    requires Follows(env, row0, row, fired, ticks) && Ordered(SweepsOf(ticks, row0.key))
    ensures FiresExactly(env, row0, fired, ticks) && FiresAll(env, row0, fired, ticks)
  {
    hide IsDue, Occurrences, Ordered, Frequent, StartsAt, InTime, EachOnce, FieldsOf, FireAll;
    if FieldsOf(env, row0).Some? {
      var f, sweeps := FieldsOf(env, row0).value, SweepsOf(ticks, row0.key);
      FiredExactly(env, f, row0.lastRun, sweeps);
      if sweeps != [] && Frequent(sweeps) && StartsAt(row0.lastRun, sweeps) && InTime(env, f, row0.lastRun, sweeps) {
        forall o | IsDue(env, f, o) && sweeps[0].now < o * MINUTE <= sweeps[|sweeps| - 1].now
          ensures multiset(Occurrences(fired, row0.key))[o] == 1
        {
          ExactlyOnce(env, f, row0.lastRun, sweeps, o);
        }
      }
    }
  }
}
