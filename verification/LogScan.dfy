/** Occurrences of a query in stored text, line by line and byte by byte. */
module LogScan {
  import opened ByteStrings
  import opened LogText

  /** ASCII lower case, what `bytes.lower` does. */
  function LowerByte(b: byte): byte {
    if 65 <= b <= 90 then b + 32 else b
  }

  function Lower(s: Bytes): Bytes {
    seq(|s|, i requires 0 <= i < |s| => LowerByte(s[i]))
  }

  function LowerAll(lines: seq<Bytes>): seq<Bytes> {
    seq(|lines|, i requires 0 <= i < |lines| => Lower(lines[i]))
  }

  predicate NoNewline(s: Bytes) {
    NEWLINE !in s
  }

  predicate OccursAt(s: Bytes, q: Bytes, p: nat) {
    p + |q| <= |s| && s[p..p + |q|] == q
  }

  /** The query starts at one of the first `upto` positions. */
  ghost predicate OccursBefore(s: Bytes, q: Bytes, upto: nat) {
    exists p: nat :: p < upto && OccursAt(s, q, p)
  }

  /** Number of occurrences starting before `upto`, overlapping ones included. */
  function Occurrences(s: Bytes, q: Bytes, upto: nat): nat {
    if upto == 0 then 0 else Occurrences(s, q, upto - 1) + (if OccursAt(s, q, upto - 1) then 1 else 0)
  }

  function Repeat(x: nat, n: nat): seq<nat> {
    if n == 0 then [] else Repeat(x, n - 1) + [x]
  }

  /** The naive scan: for each line its 1-based number, once per occurrence in it. */
  function ScanLines(lines: seq<Bytes>, q: Bytes): seq<nat> {
    if lines == [] then []
    else
      var last := lines[|lines| - 1];
      ScanLines(lines[..|lines| - 1], q) + Repeat(|lines|, Occurrences(last, q, |last|))
  }

  /** A line number is reported exactly when that line contains the query. */
  lemma {:induction false} ScanMembers(lines: seq<Bytes>, q: Bytes)
    ensures forall n :: n in ScanLines(lines, q) <==> 1 <= n <= |lines| && OccursBefore(lines[n - 1], q, |lines[n - 1]|)
  {
    if lines != [] {
      var init, last := lines[..|lines| - 1], lines[|lines| - 1];
      ScanMembers(init, q);
      RepeatMembers(|lines|, Occurrences(last, q, |last|));
      OccurrencesExist(last, q, |last|);
      forall n
        ensures n in ScanLines(lines, q) <==> 1 <= n <= |lines| && OccursBefore(lines[n - 1], q, |lines[n - 1]|)
      {
        if 1 <= n < |lines| {
          assert init[n - 1] == lines[n - 1];
        }
      }
    }
  }

  lemma {:induction false} RepeatMembers(x: nat, n: nat)
    ensures forall y :: y in Repeat(x, n) <==> y == x && n > 0
  {
    if n > 0 {
      RepeatMembers(x, n - 1);
    }
  }

  lemma {:induction false} OccurrencesExist(s: Bytes, q: Bytes, upto: nat)
    ensures Occurrences(s, q, upto) > 0 <==> OccursBefore(s, q, upto)
  {
    if upto > 0 {
      OccurrencesExist(s, q, upto - 1);
    }
  }

  function Newlines(s: Bytes): nat {
    if s == [] then 0 else Newlines(s[..|s| - 1]) + (if s[|s| - 1] == NEWLINE then 1 else 0)
  }

  lemma {:induction false} NewlinesConcat(a: Bytes, b: Bytes)
    ensures Newlines(a + b) == Newlines(a) + Newlines(b)
  {
    if b == [] {
      assert a + b == a;
    } else {
      assert (a + b)[..|a + b| - 1] == a + b[..|b| - 1];
      NewlinesConcat(a, b[..|b| - 1]);
    }
  }

  lemma {:induction false} NoNewlines(s: Bytes)
    requires NoNewline(s)
    ensures Newlines(s) == 0
  {
    if s != [] {
      NoNewlines(s[..|s| - 1]);
    }
  }

  /** The line numbers of the occurrences in a text before `upto`. */
  function PosLines(t: Bytes, q: Bytes, upto: nat): seq<nat>
    requires upto <= |t|
  {
    if upto == 0 then []
    else PosLines(t, q, upto - 1) + (if OccursAt(t, q, upto - 1) then [1 + Newlines(t[..upto - 1])] else [])
  }

  /** No new occurrence, no new line number. */
  lemma {:induction false} PosLinesSkip(t: Bytes, q: Bytes, a: nat, b: nat)
    requires a <= b <= |t| && forall p :: a <= p < b ==> !OccursAt(t, q, p)
    ensures PosLines(t, q, a) == PosLines(t, q, b)
    decreases b
  {
    if a < b {
      PosLinesSkip(t, q, a, b - 1);
    }
  }

  /** An occurrence that starts in a text ends in it: the text ends with a newline, the query has none. */
  lemma OccursInside(before: Bytes, t: Bytes, after: Bytes, q: Bytes, p: nat)
    requires NoNewline(q) && p < |t| && t[|t| - 1] == NEWLINE
    ensures OccursAt(before + t + after, q, |before| + p) <==> OccursAt(t, q, p)
  {
    var s := before + t + after;
    if p + |q| <= |t| {
      assert s[|before| + p..|before| + p + |q|] == t[p..p + |q|];
    } else if |before| + p + |q| <= |s| {
      assert s[|before| + p..|before| + p + |q|][|t| - 1 - p] == NEWLINE;
    }
  }

  lemma {:induction false} TextAppend(lines: seq<Bytes>, line: Bytes)
    ensures Text(lines + [line]) == Text(lines) + line + [NEWLINE]
  {
    if lines == [] {
      assert Text([line]) == line + [NEWLINE] + Text([line][1..]);
    } else {
      assert (lines + [line])[1..] == lines[1..] + [line];
      TextAppend(lines[1..], line);
    }
  }

  lemma {:induction false} TextEnds(lines: seq<Bytes>)
    requires lines != []
    ensures Text(lines) != [] && Text(lines)[|Text(lines)| - 1] == NEWLINE
  {
    var init, last := lines[..|lines| - 1], lines[|lines| - 1];
    assert lines == init + [last];
    TextAppend(init, last);
  }

  lemma {:induction false} NewlinesOfText(lines: seq<Bytes>)
    requires forall l :: l in lines ==> NoNewline(l)
    ensures Newlines(Text(lines)) == |lines|
  {
    if lines != [] {
      var init, last := lines[..|lines| - 1], lines[|lines| - 1];
      assert lines == init + [last];
      NewlinesOfText(init);
      TextAppend(init, last);
      NewlinesConcat(Text(init) + last, [NEWLINE]);
      NewlinesConcat(Text(init), last);
      NoNewlines(last);
      assert Newlines([NEWLINE]) == 1 by {
        assert [NEWLINE][..0] == [];
      }
    }
  }

  /** Positions in the earlier lines are what they were. */
  lemma {:induction false} PosLinesPrefix(t: Bytes, more: Bytes, q: Bytes, upto: nat)
    requires NoNewline(q) && upto <= |t| && (t == [] || t[|t| - 1] == NEWLINE)
    ensures PosLines(t + more, q, upto) == PosLines(t, q, upto)
  {
    hide OccursAt, Newlines, NoNewline;
    if upto > 0 {
      PosLinesPrefix(t, more, q, upto - 1);
      PrefixOccurs(t, more, q, upto - 1);
    }
  }

  lemma PrefixOccurs(t: Bytes, more: Bytes, q: Bytes, p: nat)
    requires NoNewline(q) && p < |t| && t[|t| - 1] == NEWLINE
    ensures OccursAt(t + more, q, p) <==> OccursAt(t, q, p)
    ensures (t + more)[..p] == t[..p]
  {
    hide OccursAt, NoNewline;
    OccursInside([], t, more, q, p);
    assert [] + t + more == t + more;
  }

  /** Positions in the last line all carry its number. */
  lemma {:induction false} PosLinesLast(t: Bytes, line: Bytes, q: Bytes, upto: nat)
    requires NoNewline(q) && NoNewline(line) && q != [] && upto <= |line|
    ensures PosLines(t + line + [NEWLINE], q, |t| + upto)
         == PosLines(t + line + [NEWLINE], q, |t|) + Repeat(1 + Newlines(t), Occurrences(line, q, upto))
  {
    hide OccursAt, Newlines;
    if upto > 0 {
      PosLinesLast(t, line, q, upto - 1);
      LastLineOccurs(t, line, q, upto - 1);
      LastLineNumber(t, line, upto - 1);
    }
  }

  lemma {:induction false} LastLineNumber(t: Bytes, line: Bytes, p: nat)
    requires NoNewline(line) && p <= |line|
    ensures Newlines((t + line + [NEWLINE])[..|t| + p]) == Newlines(t)
  {
    hide Newlines;
    assert (t + line + [NEWLINE])[..|t| + p] == t + line[..p];
    NewlinesConcat(t, line[..p]);
    assert forall b :: b in line[..p] ==> b in line;
    NoNewlines(line[..p]);
  }

  lemma LastLineOccurs(t: Bytes, line: Bytes, q: Bytes, p: nat)
    requires NoNewline(q) && p < |line|
    ensures OccursAt(t + line + [NEWLINE], q, |t| + p) <==> OccursAt(line, q, p)
  {
    var all := t + line + [NEWLINE];
    if p + |q| <= |line| {
      assert all[|t| + p..|t| + p + |q|] == line[p..p + |q|];
    } else if |t| + p + |q| <= |all| {
      assert all[|t| + p..|t| + p + |q|][|line| - p] == NEWLINE;
    }
  }

  /** Byte positions in the text give the naive line scan. */
  lemma {:induction false} PosLinesScan(lines: seq<Bytes>, q: Bytes)
    requires q != [] && NoNewline(q) && forall l :: l in lines ==> NoNewline(l)
    ensures PosLines(Text(lines), q, |Text(lines)|) == ScanLines(lines, q)
  {
    hide PosLines, Occurrences, Newlines, NoNewline, Text;
    if lines != [] {
      var init, last := lines[..|lines| - 1], lines[|lines| - 1];
      assert lines == init + [last];
      PosLinesScan(init, q);
      NewlinesOfText(init);
      OneMoreLine(init, last, q);
    } else {
      NothingToScan(q);
    }
  }

  lemma NothingToScan(q: Bytes)
    ensures PosLines(Text([]), q, |Text([])|) == []
  {
  }

  /** The last line adds its occurrences, all with its number. */
  lemma OneMoreLine(init: seq<Bytes>, last: Bytes, q: Bytes)
    requires q != [] && NoNewline(q) && NoNewline(last)
    ensures var t, all := Text(init), Text(init + [last]);
            PosLines(all, q, |all|) == PosLines(t, q, |t|) + Repeat(1 + Newlines(t), Occurrences(last, q, |last|))
  {
    hide PosLines, Occurrences, Newlines, NoNewline, Text, OccursAt;
    var t := Text(init);
    TextAppend(init, last);
    TextEndsOrEmpty(init);
    PosLinesPrefix(t, last + [NEWLINE], q, |t|);
    assert t + (last + [NEWLINE]) == t + last + [NEWLINE];
    PosLinesLast(t, last, q, |last|);
    NoOccurrenceAtNewline(t + last, q);
    PosLinesSkip(t + last + [NEWLINE], q, |t| + |last|, |t| + |last| + 1);
  }

  lemma {:induction false} TextEndsOrEmpty(lines: seq<Bytes>)
    ensures Text(lines) == [] || Text(lines)[|Text(lines)| - 1] == NEWLINE
  {
    if lines != [] {
      TextEnds(lines);
    }
  }

  lemma NoOccurrenceAtNewline(t: Bytes, q: Bytes)
    requires q != [] && NoNewline(q)
    ensures !OccursAt(t + [NEWLINE], q, |t|)
  {
    assert q[0] in q;
    assert |q| == 1 ==> (t + [NEWLINE])[|t|..|t| + |q|][0] == NEWLINE;
  }

  lemma LowerConcat(a: Bytes, b: Bytes)
    ensures Lower(a + b) == Lower(a) + Lower(b)
  {
  }

  lemma LowerKeepsNewlines(s: Bytes)
    ensures NoNewline(s) <==> NoNewline(Lower(s))
  {
    if i :| 0 <= i < |s| && s[i] == NEWLINE {
      assert Lower(s)[i] == NEWLINE;
    }
    if i :| 0 <= i < |s| && Lower(s)[i] == NEWLINE {
      assert s[i] == NEWLINE;
    }
  }

  lemma {:induction false} LowerText(lines: seq<Bytes>)
    ensures Lower(Text(lines)) == Text(LowerAll(lines))
  {
    if lines != [] {
      LowerText(lines[1..]);
      assert LowerAll(lines)[1..] == LowerAll(lines[1..]);
      LowerConcat(lines[0] + [NEWLINE], Text(lines[1..]));
      LowerConcat(lines[0], [NEWLINE]);
    }
  }

  // ---------------------------------------------------------------------------
  // Ignoring case
  // ---------------------------------------------------------------------------

  /** The same byte, or the same ASCII letter in the other case. */
  predicate SameByte(a: byte, b: byte) {
    a == b || (65 <= a <= 90 && b == a + 32) || (65 <= b <= 90 && a == b + 32)
  }

  /** The query stands at position `p` of the line, in whatever case. */
  predicate MatchesAt(line: Bytes, query: Bytes, p: nat) {
    p + |query| <= |line| && forall k :: 0 <= k < |query| ==> SameByte(line[p + k], query[k])
  }

  ghost function MatchPositions(line: Bytes, query: Bytes, upto: nat): set<nat> {
    set p: nat | p < upto && MatchesAt(line, query, p)
  }

  predicate ContainsIgnoringCase(line: Bytes, query: Bytes) {
    exists p :: 0 <= p < |line| && MatchesAt(line, query, p)
  }

  /** How often the query stands in line `n`, counted from 1. */
  ghost function TimesIn(lines: seq<Bytes>, query: Bytes, n: nat): nat {
    if 1 <= n <= |lines| then |MatchPositions(lines[n - 1], query, |lines[n - 1]|)| else 0
  }

  /** Line numbers in order, each as often as the query stands in that line, in whatever case. */
  ghost predicate Found(numbers: seq<nat>, lines: seq<Bytes>, query: Bytes) {
    && (forall a, b :: 0 <= a < b < |numbers| ==> numbers[a] <= numbers[b])
    && forall n: nat :: multiset(numbers)[n] == TimesIn(lines, query, n)
  }

  lemma LowerMatches(line: Bytes, query: Bytes, p: nat)
    ensures OccursAt(Lower(line), Lower(query), p) <==> MatchesAt(line, query, p)
  {
    var s, q := Lower(line), Lower(query);
    if p + |q| <= |s| {
      assert forall k :: 0 <= k < |q| ==>
          s[p + k] == LowerByte(line[p + k]) && q[k] == LowerByte(query[k]) && s[p..p + |q|][k] == s[p + k];
      if s[p..p + |q|] == q {
        assert forall k :: 0 <= k < |q| ==> s[p..p + |q|][k] == q[k];
      }
    }
  }

  lemma {:induction false} OccurrencesCount(line: Bytes, query: Bytes, upto: nat)
    ensures Occurrences(Lower(line), Lower(query), upto) == |MatchPositions(line, query, upto)|
  {
    hide OccursAt, MatchesAt, Lower;
    if upto == 0 {
      assert MatchPositions(line, query, 0) == {};
    } else {
      OccurrencesCount(line, query, upto - 1);
      LowerMatches(line, query, upto - 1);
      assert MatchPositions(line, query, upto)
          == MatchPositions(line, query, upto - 1) + if MatchesAt(line, query, upto - 1) then {upto - 1} else {};
    }
  }

  lemma {:induction false} RepeatCount(x: nat, n: nat)
    ensures forall k :: 0 <= k < |Repeat(x, n)| ==> Repeat(x, n)[k] == x
    ensures forall y: nat :: multiset(Repeat(x, n))[y] == if y == x then n else 0
  {
    if n > 0 {
      RepeatCount(x, n - 1);
    }
  }

  /** The scan of the lower-cased lines for the lower-cased query is the search in whatever case. */
  lemma {:induction false} ScanIgnoresCase(lines: seq<Bytes>, query: Bytes)
    ensures Found(ScanLines(LowerAll(lines), Lower(query)), lines, query)
  {
    hide Lower, MatchPositions, Occurrences, Found, Repeat;
    if lines == [] {
      NothingFound(query);
    } else {
      var init, last := lines[..|lines| - 1], lines[|lines| - 1];
      ScanIgnoresCase(init, query);
      assert LowerAll(lines)[..|lines| - 1] == LowerAll(init);
      LowerLength(last);
      OccurrencesCount(last, query, |last|);
      FoundInOneMore(ScanLines(LowerAll(init), Lower(query)), init, last, query);
      assert init + [last] == lines;
    }
  }

  lemma NothingFound(query: Bytes)
    ensures Found([], [], query)
  {
  }

  lemma FoundInOneMore(numbers: seq<nat>, lines: seq<Bytes>, last: Bytes, query: Bytes)
    requires Found(numbers, lines, query)
    ensures var n := |lines| + 1;
            Found(numbers + Repeat(n, |MatchPositions(last, query, |last|)|), lines + [last], query)
  {
    hide MatchPositions, Repeat;
    var times := |MatchPositions(last, query, |last|)|;
    var more := Repeat(|lines| + 1, times);
    RepeatCount(|lines| + 1, times);
    NumbersWithin(numbers, lines, query);
    forall n: nat
      ensures multiset(numbers + more)[n] == TimesIn(lines + [last], query, n)
    {
      assert multiset(numbers)[n] == TimesIn(lines, query, n);
      if 1 <= n <= |lines| {
        assert (lines + [last])[n - 1] == lines[n - 1];
      }
    }
  }

  lemma NumbersWithin(numbers: seq<nat>, lines: seq<Bytes>, query: Bytes)
    requires Found(numbers, lines, query)
    ensures forall k :: 0 <= k < |numbers| ==> numbers[k] <= |lines|
  {
    forall k | 0 <= k < |numbers|
      ensures numbers[k] <= |lines|
    {
      assert numbers[k] in multiset(numbers);
    }
  }

  lemma TimesPositive(lines: seq<Bytes>, query: Bytes, n: nat)
    ensures TimesIn(lines, query, n) > 0 <==> 1 <= n <= |lines| && ContainsIgnoringCase(lines[n - 1], query)
  {
    hide MatchesAt;
    if 1 <= n <= |lines| {
      var line := lines[n - 1];
      var at := MatchPositions(line, query, |line|);
      if ContainsIgnoringCase(line, query) {
        var p :| 0 <= p < |line| && MatchesAt(line, query, p);
        assert p in at;
      }
      if |at| > 0 {
        var p :| p in at;
      }
    }
  }

  /** Something is found exactly when some line contains the query in whatever case. */
  lemma FoundSomething(numbers: seq<nat>, lines: seq<Bytes>, query: Bytes)
    requires Found(numbers, lines, query)
    ensures forall n :: n in numbers <==> 1 <= n <= |lines| && ContainsIgnoringCase(lines[n - 1], query)
    ensures numbers != [] <==> exists l :: l in lines && ContainsIgnoringCase(l, query)
  {
    hide ContainsIgnoringCase, TimesIn;
    forall n: nat
      ensures n in numbers <==> 1 <= n <= |lines| && ContainsIgnoringCase(lines[n - 1], query)
    {
      assert n in numbers <==> multiset(numbers)[n] > 0;
      TimesPositive(lines, query, n);
    }
    if numbers != [] {
      assert numbers[0] in numbers;
    }
    if l :| l in lines && ContainsIgnoringCase(l, query) {
      var n :| 0 <= n < |lines| && lines[n] == l;
      assert n + 1 in numbers;
    }
  }

  lemma LowerLength(s: Bytes)
    ensures |Lower(s)| == |s|
  {
  }

  /** `find(query, start)`: the first occurrence at or after `start`, else -1. */
  function Find(s: Bytes, q: Bytes, start: nat): (r: int)
    ensures r == -1 ==> forall p :: start <= p < |s| ==> !OccursAt(s, q, p)
    ensures r != -1 ==> start <= r && OccursAt(s, q, r) && forall p :: start <= p < r ==> !OccursAt(s, q, p)
    decreases |s| - start
  {
    if start >= |s| then -1
    else if OccursAt(s, q, start) then start
    else Find(s, q, start + 1)
  }
}
