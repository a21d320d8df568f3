/**
 Scheduled effects: cron-like specs in UTC, and the sweep that enqueues each
 occurrence. Times are microseconds since 1970-01-01T00:00Z; an occurrence is
 a minute, counted from the same origin.
 */
module Schedules {
  import opened Wrappers

  const MINUTE := 60_000_000

  /** How far back a sweep looks for a matching minute. */
  const WINDOW := 5

  /** The parts that come from elsewhere: the day of the month of a day, and the hash of a name. */
  datatype Env = Env(dayOfMonth: int -> int, seed: string -> nat)

  /** A stored spec. Days of the week are names. */
  datatype When = When(minute: Option<int>, hour: Option<seq<int>>, dayOfWeek: Option<seq<string>>,
                       dayOfMonth: Option<seq<int>>)

  datatype Fields = Fields(minute: int, hours: seq<int>, dayOfWeek: Option<seq<int>>, dayOfMonth: Option<seq<int>>)

  const DAYS := ["Mon", "Tue", "Wed", "Thu", "Fri", "Sat", "Sun"]

  function IndexOf(days: seq<string>, d: string): nat
    requires d in days
  {
    if days[0] == d then 0 else 1 + IndexOf(days[1..], d)
  }

  /** None where a day name is unknown, which raises. */
  function DayNumbers(names: seq<string>): Option<seq<int>> {
    if names == [] then Some([])
    else
      var init, last := DayNumbers(names[..|names| - 1]), names[|names| - 1];
      if init.None? || last !in DAYS then None else Some(init.value + [IndexOf(DAYS, last)])
  }

  /** `resolved`: an unset minute comes from the name's hash, an unset hour means every hour. */
  function Resolved(env: Env, when: When, name: string): Option<Fields> {
    var minute := if when.minute.Some? then when.minute.value else env.seed(name) % 60;
    var hours := if when.hour.Some? then when.hour.value else seq(24, i => i);
    match when.dayOfWeek
    case None => Some(Fields(minute, hours, None, when.dayOfMonth))
    case Some(names) =>
      if DayNumbers(names).None? then None else Some(Fields(minute, hours, DayNumbers(names), when.dayOfMonth))
  }

  function MinuteOf(t: int): int { t / MINUTE }

  function MinuteField(m: int): int { m % 60 }

  function HourField(m: int): int { m / 60 % 24 }

  function DayNumber(m: int): int { m / 1440 }

  /** Monday is 0; day 0 was a Thursday. */
  function Weekday(m: int): int { (DayNumber(m) + 3) % 7 }

  predicate IsDue(env: Env, f: Fields, m: int) {
    && MinuteField(m) == f.minute
    && HourField(m) in f.hours
    && (f.dayOfWeek.Some? ==> Weekday(m) in f.dayOfWeek.value)
    && (f.dayOfMonth.Some? ==> env.dayOfMonth(DayNumber(m)) in f.dayOfMonth.value)
  }

  /** Day 4, 5 January 1970, was a Monday. */
  ghost predicate OnWeekday(day: int, weekday: int) {
    0 <= weekday < 7 && exists week: int :: day == 4 + 7 * week + weekday
  }

  /** The minute `h:minute` of a day is an occurrence when the minute is the one stated, the hour and the day of the
      month are among those stated, and the day is one of the weekdays stated. */
  lemma OccursExactly(env: Env, f: Fields, day: int, h: int, minute: int)
    requires 0 <= h < 24 && 0 <= minute < 60
    ensures IsDue(env, f, 1440 * day + 60 * h + minute) <==>
            && minute == f.minute && h in f.hours
            && (f.dayOfWeek.Some? ==> exists w :: w in f.dayOfWeek.value && OnWeekday(day, w))
            && (f.dayOfMonth.Some? ==> env.dayOfMonth(day) in f.dayOfMonth.value)
  {
    var m := 1440 * day + 60 * h + minute;
    assert m / 60 == 24 * day + h && m / 1440 == day && m % 60 == minute;
    WeekdayExactly(m, day);
  }

  lemma WeekdayExactly(m: int, day: int)
    requires DayNumber(m) == day
    ensures forall w :: OnWeekday(day, w) <==> w == Weekday(m)
  {
    var week := (day + 3) / 7 - 1;
    assert day == 4 + 7 * week + Weekday(m);
    forall w
      ensures OnWeekday(day, w) <==> w == Weekday(m)
    {
      if OnWeekday(day, w) {
        var k: int :| day == 4 + 7 * k + w;
        assert (day + 3) % 7 == w;
      }
    }
  }

  /** A spec is read as it is written: the names of days are resolved in order, Monday first, and an unknown one spoils
      it. */
  lemma {:induction false} DaysAreNamed(names: seq<string>)
    ensures DayNumbers(names).Some?
       <==> forall d :: d in names ==> d in ["Mon", "Tue", "Wed", "Thu", "Fri", "Sat", "Sun"]
    ensures DayNumbers(names).Some? ==>
              && |DayNumbers(names).value| == |names|
              && forall i :: 0 <= i < |names| ==>
                   var d := DayNumbers(names).value[i];
                   0 <= d < 7 && names[i] == ["Mon", "Tue", "Wed", "Thu", "Fri", "Sat", "Sun"][d]
  {
    if names != [] {
      var init, last := names[..|names| - 1], names[|names| - 1];
      assert names == init + [last];
      DaysAreNamed(init);
      if last in DAYS {
        DayIndex(DAYS, last);
      }
    }
  }

  lemma {:induction false} DayIndex(days: seq<string>, d: string)
    requires d in days
    ensures IndexOf(days, d) < |days| && days[IndexOf(days, d)] == d
  {
    if days[0] != d {
      DayIndex(days[1..], d);
    }
  }

  lemma NumbersOfNames(names: seq<string>, days: seq<int>)
    requires |days| == |names| && forall i :: 0 <= i < |names| ==> 0 <= days[i] < 7 && names[i] == DAYS[days[i]]
    ensures forall w :: w in days <==> 0 <= w < 7 && DAYS[w] in names
  {
    forall w | 0 <= w < 7 && DAYS[w] in names
      ensures w in days
    {
      var i :| 0 <= i < |names| && names[i] == DAYS[w];
      assert forall a, b :: 0 <= a < b < 7 ==> DAYS[a] != DAYS[b];
      assert days[i] == w;
    }
  }

  lemma EveryHour(hours: seq<int>)
    requires |hours| == 24 && forall i :: 0 <= i < 24 ==> hours[i] == i
    ensures forall h :: 0 <= h < 24 ==> h in hours
  {
    forall h | 0 <= h < 24
      ensures h in hours
    {
      assert hours[h] == h;
    }
  }

  /** An unset minute comes from the hash of the name, an unset hour means every hour. */
  lemma ResolvedExactly(env: Env, when: When, name: string)
    ensures Resolved(env, when, name).None? <==>
            when.dayOfWeek.Some? && exists d :: d in when.dayOfWeek.value && d !in DAYS
    ensures Resolved(env, when, name).Some? ==>
              var f := Resolved(env, when, name).value;
              && (when.minute.Some? ==> f.minute == when.minute.value)
              && (when.minute.None? ==> 0 <= f.minute < 60 && exists k: nat :: env.seed(name) == 60 * k + f.minute)
              && (forall h :: 0 <= h < 24 ==> (h in f.hours <==> when.hour.Some? ==> h in when.hour.value))
              && f.dayOfMonth == when.dayOfMonth
              && (f.dayOfWeek.Some? <==> when.dayOfWeek.Some?)
              && (forall w :: f.dayOfWeek.Some? ==>
                    (w in f.dayOfWeek.value <==> 0 <= w < 7 && DAYS[w] in when.dayOfWeek.value))
  {
    hide IndexOf;
    if when.dayOfWeek.Some? {
      DaysAreNamed(when.dayOfWeek.value);
      if DayNumbers(when.dayOfWeek.value).Some? {
        NumbersOfNames(when.dayOfWeek.value, DayNumbers(when.dayOfWeek.value).value);
      }
    }
    EveryHour(seq(24, i => i));
    assert env.seed(name) == 60 * (env.seed(name) / 60) + env.seed(name) % 60;
  }

  /** The most recent occurrence in the `n` minutes up to `m`. */
  function LatestDue(env: Env, f: Fields, m: int, n: nat): (r: Option<int>)
    ensures r.Some? ==> IsDue(env, f, r.value) && m - n < r.value <= m
    ensures forall o :: IsDue(env, f, o) && m - n < o <= m ==> r.Some? && o <= r.value
    decreases n
  {
    if n == 0 then None else if IsDue(env, f, m) then Some(m) else LatestDue(env, f, m - 1, n - 1)
  }

  function DueOccurrence(env: Env, f: Fields, now: int): Option<int> {
    LatestDue(env, f, MinuteOf(now), WINDOW)
  }

  /** `due_occurrence`, trying the present minute first. */
  method FindDue(env: Env, f: Fields, now: int) returns (r: Option<int>)
    ensures r == DueOccurrence(env, f, now)
    ensures r.Some? ==> IsDue(env, f, r.value) && MinuteOf(now) - WINDOW < r.value <= MinuteOf(now)
  {
    hide IsDue;
    for offset := 0 to WINDOW
      invariant DueOccurrence(env, f, now) == LatestDue(env, f, MinuteOf(now) - offset, WINDOW - offset)
    {
      var candidate := MinuteOf(now - offset * MINUTE);
      assert candidate == MinuteOf(now) - offset;
      if IsDue(env, f, candidate) {
        return Some(candidate);
      }
    }
    return None;
  }

  /** Occurrences have one minute field, so they are at least an hour apart. */
  lemma HourApart(env: Env, f: Fields, a: int, b: int)
    requires IsDue(env, f, a) && IsDue(env, f, b) && a < b
    ensures a + 60 <= b
  {
  }

  /** A sweep at `t` looks at occurrence `o` exactly when it comes less than the window after it. */
  predicate Catches(t: int, o: int) {
    o * MINUTE <= t < (o + WINDOW) * MINUTE
  }

  lemma DueIsCaught(env: Env, f: Fields, t: int, o: int)
    requires IsDue(env, f, o)
    ensures DueOccurrence(env, f, t) == Some(o) <==> Catches(t, o)
  {
    var r := DueOccurrence(env, f, t);
    if r.Some? && r.value != o && Catches(t, o) {
      HourApart(env, f, o, r.value);
    }
  }

  // ---------------------------------------------------------------------------
  // One schedule over many sweeps
  // ---------------------------------------------------------------------------

  /** A sweep: its time, and the time its mark is stamped with if it makes one. */
  datatype Sweep = Sweep(now: int, stamp: int)

  /** The last mark, and the occurrences enqueued. */
  datatype Firing = Firing(last: Option<int>, enqueued: seq<int>)

  predicate Behind(last: Option<int>, o: int) {
    last.None? || last.value < o * MINUTE
  }

  function Fire(env: Env, f: Fields, s: Firing, w: Sweep): Firing {
    var o := DueOccurrence(env, f, w.now);
    if o.Some? && Behind(s.last, o.value) then Firing(Some(w.stamp), s.enqueued + [o.value]) else s
  }

  function FireAll(env: Env, f: Fields, last0: Option<int>, sweeps: seq<Sweep>): Firing {
    if sweeps == [] then Firing(last0, [])
    else Fire(env, f, FireAll(env, f, last0, sweeps[..|sweeps| - 1]), sweeps[|sweeps| - 1])
  }

  /** Sweeps come one after the other, and no mark is stamped before its sweep read the clock. */
  ghost predicate Ordered(sweeps: seq<Sweep>) {
    && (forall i, j :: 0 <= i <= j < |sweeps| ==> sweeps[i].now <= sweeps[j].now)
    && (forall i :: 0 <= i < |sweeps| ==> sweeps[i].now <= sweeps[i].stamp)
  }

  /** The mark before the first sweep was not stamped in the future. */
  ghost predicate StartsAt(last0: Option<int>, sweeps: seq<Sweep>) {
    sweeps != [] ==> last0.None? || last0.value <= sweeps[0].now
  }

  ghost predicate CaughtBy(sweeps: seq<Sweep>, o: int) {
    exists i :: 0 <= i < |sweeps| && Catches(sweeps[i].now, o)
  }

  /** The stamp of the first sweep that catches `o`. */
  ghost function FirstStamp(sweeps: seq<Sweep>, o: int): int
    requires CaughtBy(sweeps, o)
  {
    var init := sweeps[..|sweeps| - 1];
    if CaughtBy(init, o) then FirstStamp(init, o) else sweeps[|sweeps| - 1].stamp
  }

  /** An occurrence that some sweep catches, and that is not marked as run from the start. */
  ghost predicate Expected(env: Env, f: Fields, last0: Option<int>, sweeps: seq<Sweep>, o: int) {
    IsDue(env, f, o) && CaughtBy(sweeps, o) && Behind(last0, o)
  }

  /** `b` is the occurrence caught next after `a`. */
  ghost predicate NextCaught(env: Env, f: Fields, sweeps: seq<Sweep>, a: int, b: int) {
    && a < b && IsDue(env, f, b) && CaughtBy(sweeps, b)
    && forall c :: a < c < b && IsDue(env, f, c) ==> !CaughtBy(sweeps, c)
  }

  /** Each mark is stamped before the occurrence that is caught next. */
  ghost predicate InTime(env: Env, f: Fields, last0: Option<int>, sweeps: seq<Sweep>) {
    forall a, b :: Expected(env, f, last0, sweeps, a) && NextCaught(env, f, sweeps, a, b) ==>
      FirstStamp(sweeps, a) < b * MINUTE
  }

  ghost predicate EachOnce(env: Env, f: Fields, last0: Option<int>, sweeps: seq<Sweep>, enqueued: seq<int>) {
    forall o :: Expected(env, f, last0, sweeps, o) ==> multiset(enqueued)[o] == 1
  }

  lemma LatestWindow(env: Env, f: Fields, t: int)
    ensures var o := DueOccurrence(env, f, t); o.Some? ==> IsDue(env, f, o.value) && Catches(t, o.value)
  {
  }

  /** A further sweep catches what it catches, and first stamps stay. */
  lemma CatchOneMore(sweeps: seq<Sweep>, w: Sweep, o: int)
    ensures CaughtBy(sweeps + [w], o) <==> CaughtBy(sweeps, o) || Catches(w.now, o)
    ensures CaughtBy(sweeps, o) ==> FirstStamp(sweeps + [w], o) == FirstStamp(sweeps, o)
    ensures !CaughtBy(sweeps, o) && Catches(w.now, o) ==> FirstStamp(sweeps + [w], o) == w.stamp
  {
    hide Catches;
    var all := sweeps + [w];
    assert all[..|sweeps|] == sweeps && all[|sweeps|] == w;
    if i :| 0 <= i < |sweeps| && Catches(sweeps[i].now, o) {
      assert all[i] == sweeps[i];
    }
  }

  /** What is enqueued was expected; the mark is the first stamp of the last of it, and no first stamp is later. */
  ghost predicate Recorded(env: Env, f: Fields, last0: Option<int>, sweeps: seq<Sweep>, s: Firing) {
    && (forall x :: x in s.enqueued ==>
          && Expected(env, f, last0, sweeps, x) && s.last.Some?
          && x * MINUTE <= FirstStamp(sweeps, x) <= s.last.value)
    && (s.enqueued == [] ==> s.last == last0)
    && (s.enqueued != [] ==>
          var x := s.enqueued[|s.enqueued| - 1];
          CaughtBy(sweeps, x) && s.last == Some(FirstStamp(sweeps, x)))
  }

  /** It increases, each one beyond the stamps of those before it. */
  ghost predicate Spaced(sweeps: seq<Sweep>, enqueued: seq<int>) {
    && (forall x :: x in enqueued ==> CaughtBy(sweeps, x))
    && (forall i, j :: 0 <= i < j < |enqueued| ==>
          enqueued[i] < enqueued[j] && FirstStamp(sweeps, enqueued[i]) < enqueued[j] * MINUTE)
  }

  /** An earlier occurrence that was enqueued has its first stamp too late for `o`. */
  ghost predicate Overtaken(sweeps: seq<Sweep>, enqueued: seq<int>, o: int) {
    exists a :: a in enqueued && a < o && CaughtBy(sweeps, a) && o * MINUTE <= FirstStamp(sweeps, a)
  }

  ghost predicate LostAreOvertaken(env: Env, f: Fields, last0: Option<int>, sweeps: seq<Sweep>, enqueued: seq<int>) {
    forall o :: Expected(env, f, last0, sweeps, o) && o !in enqueued ==> Overtaken(sweeps, enqueued, o)
  }

  ghost predicate Traced(env: Env, f: Fields, last0: Option<int>, sweeps: seq<Sweep>, s: Firing) {
    && Recorded(env, f, last0, sweeps, s) && Spaced(sweeps, s.enqueued)
    && LostAreOvertaken(env, f, last0, sweeps, s.enqueued)
  }

  /** The mark never goes back: what is behind it was behind the first. */
  lemma BehindFirst(env: Env, f: Fields, last0: Option<int>, sweeps: seq<Sweep>, s: Firing, o: int)
    requires Recorded(env, f, last0, sweeps, s) && Behind(s.last, o)
    ensures Behind(last0, o)
    ensures forall x :: x in s.enqueued ==> x < o && FirstStamp(sweeps, x) < o * MINUTE
  {
    hide IsDue, CaughtBy, FirstStamp;
  }

  /** An occurrence that is enqueued has not been caught before. */
  lemma FirstCatch(env: Env, f: Fields, last0: Option<int>, sweeps: seq<Sweep>, s: Firing, o: int)
    requires Traced(env, f, last0, sweeps, s) && IsDue(env, f, o) && Behind(s.last, o)
    ensures !CaughtBy(sweeps, o) && Behind(last0, o) && o !in s.enqueued
  {
    hide IsDue, CaughtBy, FirstStamp;
    BehindFirst(env, f, last0, sweeps, s, o);
    if CaughtBy(sweeps, o) {
      CaughtIsMarked(env, f, last0, sweeps, s, o);
    }
  }

  lemma CaughtIsMarked(env: Env, f: Fields, last0: Option<int>, sweeps: seq<Sweep>, s: Firing, o: int)
    requires Traced(env, f, last0, sweeps, s) && Expected(env, f, last0, sweeps, o)
    ensures !Behind(s.last, o)
  {
    hide Expected, CaughtBy, FirstStamp, Spaced;
    if o !in s.enqueued {
      var a :| a in s.enqueued && a < o && CaughtBy(sweeps, a) && o * MINUTE <= FirstStamp(sweeps, a);
    }
  }

  /** An occurrence caught for the first time when the mark is beyond it was overtaken by the last enqueued one. */
  lemma LateCatch(env: Env, f: Fields, last0: Option<int>, sweeps: seq<Sweep>, s: Firing, w: Sweep, o: int)
    requires Recorded(env, f, last0, sweeps, s) && Ordered(sweeps + [w]) && IsDue(env, f, o) && Catches(w.now, o)
    requires !Behind(s.last, o) && Behind(last0, o) && o !in s.enqueued
    ensures Overtaken(sweeps, s.enqueued, o)
  {
    hide IsDue, FirstStamp;
    var x := s.enqueued[|s.enqueued| - 1];
    assert x in s.enqueued && IsDue(env, f, x);
    var i :| 0 <= i < |sweeps| && Catches(sweeps[i].now, x);
    assert (sweeps + [w])[i].now <= (sweeps + [w])[|sweeps|].now;
    if o < x {
      HourApart(env, f, o, x);
    }
  }

  lemma RecordedStays(env: Env, f: Fields, last0: Option<int>, sweeps: seq<Sweep>, s: Firing, w: Sweep)
    requires Recorded(env, f, last0, sweeps, s) && Spaced(sweeps, s.enqueued)
    ensures Recorded(env, f, last0, sweeps + [w], s) && Spaced(sweeps + [w], s.enqueued)
  {
    hide IsDue, CaughtBy, FirstStamp, Catches;
    forall x
      ensures CaughtBy(sweeps, x) ==>
                CaughtBy(sweeps + [w], x) && FirstStamp(sweeps + [w], x) == FirstStamp(sweeps, x)
    {
      CatchOneMore(sweeps, w, x);
    }
  }

  lemma OvertakenStays(sweeps: seq<Sweep>, w: Sweep, enqueued: seq<int>, more: seq<int>, o: int)
    requires Overtaken(sweeps, enqueued, o) && enqueued <= more
    ensures Overtaken(sweeps + [w], more, o)
  {
    hide CaughtBy, FirstStamp, Catches;
    var a :| a in enqueued && a < o && CaughtBy(sweeps, a) && o * MINUTE <= FirstStamp(sweeps, a);
    CatchOneMore(sweeps, w, a);
    var i :| 0 <= i < |enqueued| && enqueued[i] == a;
    assert more[i] == a;
  }

  /** A sweep that enqueues nothing. */
  lemma SkipKeepsTraced(env: Env, f: Fields, last0: Option<int>, sweeps: seq<Sweep>, s: Firing, w: Sweep)
    requires Traced(env, f, last0, sweeps, s) && Ordered(sweeps + [w])
    requires var o := DueOccurrence(env, f, w.now); o.None? || !Behind(s.last, o.value)
    ensures Traced(env, f, last0, sweeps + [w], s)
  {
    hide IsDue, LatestDue, CaughtBy, FirstStamp, Catches, Recorded, Spaced, Overtaken, Ordered, Behind;
    RecordedStays(env, f, last0, sweeps, s, w);
    forall o | Expected(env, f, last0, sweeps + [w], o) && o !in s.enqueued
      ensures Overtaken(sweeps + [w], s.enqueued, o)
    {
      CatchOneMore(sweeps, w, o);
      DueIsCaught(env, f, w.now, o);
      if CaughtBy(sweeps, o) {
        assert Expected(env, f, last0, sweeps, o);
      } else {
        LateCatch(env, f, last0, sweeps, s, w, o);
      }
      OvertakenStays(sweeps, w, s.enqueued, s.enqueued, o);
    }
  }

  /** A sweep that enqueues the occurrence it catches. */
  lemma FireKeepsTraced(env: Env, f: Fields, last0: Option<int>, sweeps: seq<Sweep>, s: Firing, w: Sweep, o: int)
    requires Traced(env, f, last0, sweeps, s) && Ordered(sweeps + [w])
    requires DueOccurrence(env, f, w.now) == Some(o) && Behind(s.last, o)
    ensures Traced(env, f, last0, sweeps + [w], Firing(Some(w.stamp), s.enqueued + [o]))
  {
    hide IsDue, LatestDue, CaughtBy, FirstStamp, Catches, Recorded, Spaced, Overtaken, Ordered, Behind;
    LatestWindow(env, f, w.now);
    FirstCatch(env, f, last0, sweeps, s, o);
    RecordedGrows(env, f, last0, sweeps, s, w, o);
    forall p | Expected(env, f, last0, sweeps + [w], p) && p !in s.enqueued + [o]
      ensures Overtaken(sweeps + [w], s.enqueued + [o], p)
    {
      CatchOneMore(sweeps, w, p);
      DueIsCaught(env, f, w.now, p);
      assert p != o && Expected(env, f, last0, sweeps, p);
      OvertakenStays(sweeps, w, s.enqueued, s.enqueued + [o], p);
    }
  }

  lemma RecordedGrows(env: Env, f: Fields, last0: Option<int>, sweeps: seq<Sweep>, s: Firing, w: Sweep, o: int)
    requires Recorded(env, f, last0, sweeps, s) && Spaced(sweeps, s.enqueued) && Ordered(sweeps + [w])
    requires IsDue(env, f, o) && Catches(w.now, o) && Behind(s.last, o) && !CaughtBy(sweeps, o)
    ensures Recorded(env, f, last0, sweeps + [w], Firing(Some(w.stamp), s.enqueued + [o]))
    ensures Spaced(sweeps + [w], s.enqueued + [o])
  {
    hide IsDue, CaughtBy, FirstStamp;
    BehindFirst(env, f, last0, sweeps, s, o);
    CatchOneMore(sweeps, w, o);
    var all := sweeps + [w];
    assert all[|sweeps|] == w && w.now <= w.stamp;
    forall x | CaughtBy(sweeps, x)
      ensures CaughtBy(all, x) && FirstStamp(all, x) == FirstStamp(sweeps, x)
    {
      CatchOneMore(sweeps, w, x);
    }
  }

  lemma {:induction false} FireAllTraced(env: Env, f: Fields, last0: Option<int>, sweeps: seq<Sweep>)
    requires Ordered(sweeps)
    ensures Traced(env, f, last0, sweeps, FireAll(env, f, last0, sweeps))
  {
    hide IsDue, LatestDue, Ordered, Traced;
    if sweeps == [] {
      NothingTraced(env, f, last0);
    } else {
      var init, w := sweeps[..|sweeps| - 1], sweeps[|sweeps| - 1];
      assert sweeps == init + [w];
      InitOrdered(init, w);
      FireAllTraced(env, f, last0, init);
      var s, o := FireAll(env, f, last0, init), DueOccurrence(env, f, w.now);
      if o.Some? && Behind(s.last, o.value) {
        FireKeepsTraced(env, f, last0, init, s, w, o.value);
      } else {
        SkipKeepsTraced(env, f, last0, init, s, w);
      }
    }
  }

  lemma InitOrdered(sweeps: seq<Sweep>, w: Sweep)
    requires Ordered(sweeps + [w])
    ensures Ordered(sweeps)
  {
    var all := sweeps + [w];
    assert forall i :: 0 <= i < |sweeps| ==> all[i] == sweeps[i];
  }

  lemma NothingTraced(env: Env, f: Fields, last0: Option<int>)
    ensures Traced(env, f, last0, [], Firing(last0, []))
  {
  }

  /** Of two occurrences the first of which is caught, one is caught next after it. */
  lemma {:induction false} SomeNextCaught(env: Env, f: Fields, sweeps: seq<Sweep>, a: int, o: int) returns (b: int)
    requires a < o && IsDue(env, f, o) && CaughtBy(sweeps, o)
    ensures b <= o && NextCaught(env, f, sweeps, a, b)
    decreases o - a
  {
    hide IsDue, CaughtBy;
    if c :| a < c < o && IsDue(env, f, c) && CaughtBy(sweeps, c) {
      b := SomeNextCaught(env, f, sweeps, a, c);
    } else {
      b := o;
    }
  }

  /** An expected occurrence is enqueued if and only if no enqueued one before it was stamped too late for it. */
  lemma LostExactly(env: Env, f: Fields, last0: Option<int>, sweeps: seq<Sweep>, o: int)
    requires Ordered(sweeps) && Expected(env, f, last0, sweeps, o)
    ensures var enqueued := FireAll(env, f, last0, sweeps).enqueued;
            o !in enqueued <==> Overtaken(sweeps, enqueued, o)
  {
    hide Expected, Ordered, Recorded, CaughtBy, FirstStamp;
    FireAllTraced(env, f, last0, sweeps);
    var enqueued := FireAll(env, f, last0, sweeps).enqueued;
    if o in enqueued && Overtaken(sweeps, enqueued, o) {
      var a :| a in enqueued && a < o && CaughtBy(sweeps, a) && o * MINUTE <= FirstStamp(sweeps, a);
      SpacedApart(sweeps, enqueued, a, o);
    }
  }

  lemma SpacedApart(sweeps: seq<Sweep>, enqueued: seq<int>, a: int, b: int)
    requires Spaced(sweeps, enqueued) && a in enqueued && b in enqueued && a < b
    ensures FirstStamp(sweeps, a) < b * MINUTE
  {
    hide CaughtBy, FirstStamp;
    var i, j :| 0 <= i < |enqueued| && 0 <= j < |enqueued| && enqueued[i] == a && enqueued[j] == b;
    assert i < j;
  }

  /** Exactly: every occurrence that a sweep catches is enqueued once if and only if each mark is stamped before
      the occurrence that is caught next. */
  lemma {:induction false} FiredExactly(env: Env, f: Fields, last0: Option<int>, sweeps: seq<Sweep>)
    requires Ordered(sweeps)
    ensures EachOnce(env, f, last0, sweeps, FireAll(env, f, last0, sweeps).enqueued)
       <==> InTime(env, f, last0, sweeps)
  {
    hide IsDue, Ordered, FireAll, Recorded, Spaced, CaughtBy, FirstStamp;
    FireAllTraced(env, f, last0, sweeps);
    var enqueued := FireAll(env, f, last0, sweeps).enqueued;
    if InTime(env, f, last0, sweeps) {
      forall o | Expected(env, f, last0, sweeps, o)
        ensures multiset(enqueued)[o] == 1
      {
        if o !in enqueued {
          NotOvertaken(env, f, last0, sweeps, o);
        }
        SpacedOnce(sweeps, enqueued, o);
      }
    }
    if EachOnce(env, f, last0, sweeps, enqueued) {
      forall a, b | Expected(env, f, last0, sweeps, a) && NextCaught(env, f, sweeps, a, b)
        ensures FirstStamp(sweeps, a) < b * MINUTE
      {
        assert Expected(env, f, last0, sweeps, b);
        assert a in multiset(enqueued) && b in multiset(enqueued);
        SpacedApart(sweeps, enqueued, a, b);
      }
    }
  }

  lemma NotOvertaken(env: Env, f: Fields, last0: Option<int>, sweeps: seq<Sweep>, o: int)
    requires Ordered(sweeps) && InTime(env, f, last0, sweeps) && Expected(env, f, last0, sweeps, o)
    ensures o in FireAll(env, f, last0, sweeps).enqueued
  {
    hide IsDue, Ordered, FireAll, Spaced, CaughtBy, FirstStamp;
    FireAllTraced(env, f, last0, sweeps);
    forall a | Expected(env, f, last0, sweeps, a) && a < o
      ensures FirstStamp(sweeps, a) < o * MINUTE
    {
      var b := SomeNextCaught(env, f, sweeps, a, o);
    }
  }

  lemma SpacedOnce(sweeps: seq<Sweep>, enqueued: seq<int>, o: int)
    requires Spaced(sweeps, enqueued) && o in enqueued
    ensures multiset(enqueued)[o] == 1
  {
    hide CaughtBy, FirstStamp;
    IncreasingOnce(enqueued, o);
  }

  /** Marks stamped less than 55 minutes after their sweep read the clock are in time. */
  lemma {:induction false} PromptIsInTime(env: Env, f: Fields, last0: Option<int>, sweeps: seq<Sweep>)
    requires forall i :: 0 <= i < |sweeps| ==> sweeps[i].stamp < sweeps[i].now + 55 * MINUTE
    ensures InTime(env, f, last0, sweeps)
  {
    hide IsDue, FirstStamp, CaughtBy;
    forall a, b | Expected(env, f, last0, sweeps, a) && NextCaught(env, f, sweeps, a, b)
      ensures FirstStamp(sweeps, a) < b * MINUTE
    {
      HourApart(env, f, a, b);
      var i := FirstStampAt(sweeps, a);
    }
  }

  lemma {:induction false} FirstStampAt(sweeps: seq<Sweep>, o: int) returns (i: nat)
    requires CaughtBy(sweeps, o)
    ensures i < |sweeps| && Catches(sweeps[i].now, o) && FirstStamp(sweeps, o) == sweeps[i].stamp
  {
    hide Catches;
    var init := sweeps[..|sweeps| - 1];
    if CaughtBy(init, o) {
      i := FirstStampAt(init, o);
    } else {
      i := |init|;
      assert sweeps == init + [sweeps[i]];
      CatchOneMore(init, sweeps[i], o);
    }
  }

  /** Sweeps at most five minutes apart. */
  ghost predicate Frequent(sweeps: seq<Sweep>) {
    forall i, j :: 0 <= i && j == i + 1 && j < |sweeps| ==> sweeps[j].now <= sweeps[i].now + WINDOW * MINUTE
  }

  lemma {:induction false} FrequentCatches(sweeps: seq<Sweep>, o: int)
    requires sweeps != [] && Frequent(sweeps) && sweeps[0].now < o * MINUTE <= sweeps[|sweeps| - 1].now
    ensures CaughtBy(sweeps, o)
  {
    var init, w := sweeps[..|sweeps| - 1], sweeps[|sweeps| - 1];
    assert |init| > 0;
    if o * MINUTE <= init[|init| - 1].now {
      FrequentCatches(init, o);
      var i :| 0 <= i < |init| && Catches(init[i].now, o);
      assert sweeps[i] == init[i];
    } else {
      assert w.now <= sweeps[|init| - 1].now + WINDOW * MINUTE;
      assert Catches(sweeps[|init|].now, o);
    }
  }

  /** Exactly once: with sweeps at most five minutes apart and marks in time, every occurrence after the first
      sweep and up to the last one is enqueued once. */
  lemma {:induction false} ExactlyOnce(env: Env, f: Fields, last0: Option<int>, sweeps: seq<Sweep>, o: int)
    requires sweeps != [] && Ordered(sweeps) && Frequent(sweeps) && StartsAt(last0, sweeps)
    requires InTime(env, f, last0, sweeps)
    requires IsDue(env, f, o) && sweeps[0].now < o * MINUTE <= sweeps[|sweeps| - 1].now
    ensures multiset(FireAll(env, f, last0, sweeps).enqueued)[o] == 1
  {
    hide IsDue, InTime, FireAll, Ordered;
    FrequentCatches(sweeps, o);
    FiredExactly(env, f, last0, sweeps);
    assert Expected(env, f, last0, sweeps, o);
  }

  /** Only occurrences are enqueued, none twice, none before its time or later than the window. */
  lemma {:induction false} OnlyOccurrences(env: Env, f: Fields, last0: Option<int>, sweeps: seq<Sweep>, o: int)
    requires Ordered(sweeps) && o in FireAll(env, f, last0, sweeps).enqueued
    ensures Expected(env, f, last0, sweeps, o) && multiset(FireAll(env, f, last0, sweeps).enqueued)[o] == 1
  {
    hide Ordered, FireAll, Spaced;
    FireAllTraced(env, f, last0, sweeps);
    SpacedOnce(sweeps, FireAll(env, f, last0, sweeps).enqueued, o);
  }

  lemma {:induction false} IncreasingOnce(xs: seq<int>, x: int)
    requires x in xs && forall i, j :: 0 <= i < j < |xs| ==> xs[i] < xs[j]
    ensures multiset(xs)[x] == 1
  {
    var i :| 0 <= i < |xs| && xs[i] == x;
    assert xs == xs[..i] + [x] + xs[i + 1..];
    assert x !in xs[..i] && x !in xs[i + 1..];
  }

  /** A mark that is not in time loses an occurrence: that of one hour stamped in the next. */
  lemma LateMarkLoses(env: Env, f: Fields, o: int)
    requires IsDue(env, f, o) && IsDue(env, f, o + 60)
    ensures var sweeps := [Sweep(o * MINUTE, (o + 60) * MINUTE), Sweep((o + 60) * MINUTE, (o + 60) * MINUTE)];
            Ordered(sweeps) && FireAll(env, f, None, sweeps).enqueued == [o]
  {
    hide IsDue, LatestDue;
    var a, b := Sweep(o * MINUTE, (o + 60) * MINUTE), Sweep((o + 60) * MINUTE, (o + 60) * MINUTE);
    DueIsCaught(env, f, a.now, o);
    DueIsCaught(env, f, b.now, o + 60);
    var none: seq<Sweep> := [];
    assert [a, b][..1] == [a] && [a][..0] == none;
    assert FireAll(env, f, None, none) == Firing(None, []);
    assert FireAll(env, f, None, [a]) == Firing(Some(a.stamp), [o]);
  }
}
