/** Lines to text and back: `t + "\n"` joined, and `splitlines` on its UTF-8 bytes. */
module LogText {
  import opened ByteStrings

  /** Length of the line boundary at the start of `s`, 0 when there is none:
      \n, \v, \f, \r, \r\n, \x1c, \x1d, \x1e, U+0085, U+2028 and U+2029. */
  function BoundaryAt(s: Bytes): (n: nat)
    ensures n <= |s|
  {
    if s == [] then 0
    else if s[0] == 13 && |s| > 1 && s[1] == 10 then 2
    else if s[0] in {10, 11, 12, 13, 28, 29, 30} then 1
    else if |s| > 1 && s[0] == 0xC2 && s[1] == 0x85 then 2
    else if |s| > 2 && s[0] == 0xE2 && s[1] == 0x80 && (s[2] == 0xA8 || s[2] == 0xA9) then 3
    else 0
  }

  /** No line boundary anywhere. */
  ghost predicate Clean(line: Bytes) {
    forall i :: 0 <= i < |line| ==> BoundaryAt(line[i..]) == 0
  }

  /** `splitlines`, with `i` bytes of the current line already read. */
  function SplitFrom(s: Bytes, i: nat): seq<Bytes>
    requires i <= |s|
    decreases |s|, |s| - i
  {
    if i == |s| then (if s == [] then [] else [s])
    else if BoundaryAt(s[i..]) > 0 then [s[..i]] + SplitFrom(s[i + BoundaryAt(s[i..])..], 0)
    else SplitFrom(s, i + 1)
  }

  function SplitLines(s: Bytes): seq<Bytes> {
    SplitFrom(s, 0)
  }

  /** The stored text of a derivation. */
  function Text(lines: seq<Bytes>): Bytes {
    if lines == [] then [] else lines[0] + [NEWLINE] + Text(lines[1..])
  }

  /** A boundary inside a line is a boundary there in the text, and only those. */
  lemma BoundaryInLine(line: Bytes, rest: Bytes, i: nat)
    requires i < |line|
    ensures BoundaryAt((line + [NEWLINE] + rest)[i..]) > 0 <==> BoundaryAt(line[i..]) > 0
  {
    var text := line + [NEWLINE] + rest;
    var a, b := text[i..], line[i..];
    assert |b| <= |a| && forall k :: 0 <= k < |b| ==> a[k] == b[k];
    assert |b| < |a| && a[|b|] == NEWLINE;
  }

  lemma {:induction false} SplitReachesEnd(line: Bytes, rest: Bytes, i: nat)
    requires i <= |line| && forall k :: i <= k < |line| ==> BoundaryAt(line[k..]) == 0
    ensures SplitFrom(line + [NEWLINE] + rest, i) == [line] + SplitLines(rest)
    decreases |line| - i
  {
    var text := line + [NEWLINE] + rest;
    if i == |line| {
      assert text[i..] == [NEWLINE] + rest;
      assert BoundaryAt(text[i..]) == 1;
      assert text[i + 1..] == rest && text[..i] == line;
    } else {
      BoundaryInLine(line, rest, i);
      SplitReachesEnd(line, rest, i + 1);
    }
  }

  /** Clean lines survive the round trip. */
  lemma {:induction false} CleanLinesSplit(lines: seq<Bytes>)
    requires forall l :: l in lines ==> Clean(l)
    ensures SplitLines(Text(lines)) == lines
  {
    if lines == [] {
    } else {
      assert lines[0] in lines;
      assert forall l :: l in lines[1..] ==> l in lines;
      CleanLinesSplit(lines[1..]);
      SplitReachesEnd(lines[0], Text(lines[1..]), 0);
      assert lines == [lines[0]] + lines[1..];
    }
  }

  lemma PrefixBoundary(s: Bytes, n: nat, i: nat)
    requires i < n <= |s| && BoundaryAt(s[i..]) == 0
    ensures BoundaryAt(s[..n][i..]) == 0
  {
    var a, b := s[i..], s[..n][i..];
    assert |b| <= |a| && forall k :: 0 <= k < |b| ==> b[k] == a[k];
  }

  /** `splitlines` never returns a line with a boundary in it. */
  lemma {:induction false} SplitIsClean(s: Bytes, i: nat)
    requires i <= |s| && forall k :: 0 <= k < i ==> BoundaryAt(s[k..]) == 0
    ensures forall l :: l in SplitFrom(s, i) ==> Clean(l)
    decreases |s|, |s| - i
  {
    if i == |s| {
    } else if BoundaryAt(s[i..]) > 0 {
      forall k | 0 <= k < i
        ensures BoundaryAt(s[..i][k..]) == 0
      {
        PrefixBoundary(s, i, k);
      }
      SplitIsClean(s[i + BoundaryAt(s[i..])..], 0);
    } else {
      SplitIsClean(s, i + 1);
    }
  }

  /** The stored lines come back exactly when none contains a line boundary. */
  lemma RoundTripExactly(lines: seq<Bytes>)
    ensures SplitLines(Text(lines)) == lines <==> forall l :: l in lines ==> Clean(l)
  {
    SplitIsClean(Text(lines), 0);
    if forall l :: l in lines ==> Clean(l) {
      CleanLinesSplit(lines);
    }
  }

  // ---------------------------------------------------------------------------
  // What is split, boundary by boundary
  // ---------------------------------------------------------------------------

  /** \n, \v, \f, \r, \r\n, \x1c, \x1d, \x1e, U+0085, U+2028 and U+2029, as UTF-8. */
  predicate IsBoundary(b: Bytes) {
    || b == [10] || b == [11] || b == [12] || b == [13] || b == [13, 10] || b == [28] || b == [29] || b == [30]
    || b == [0xC2, 0x85] || b == [0xE2, 0x80, 0xA8] || b == [0xE2, 0x80, 0xA9]
  }

  /** No boundary stands anywhere in the line. */
  ghost predicate Unbroken(line: Bytes) {
    forall i, k :: 0 <= i <= k <= |line| ==> !IsBoundary(line[i..k])
  }

  function Interleave(lines: seq<Bytes>, ends: seq<Bytes>): Bytes
    requires |lines| == |ends|
  {
    if lines == [] then [] else lines[0] + ends[0] + Interleave(lines[1..], ends[1..])
  }

  /** The lines are unbroken and end with boundaries, the last one perhaps with the text; a line feed after a carriage
      return belongs to the same boundary. */
  ghost predicate SplitAs(s: Bytes, lines: seq<Bytes>, ends: seq<Bytes>) {
    && |lines| == |ends| && s == Interleave(lines, ends)
    && (forall i :: 0 <= i < |lines| ==> Unbroken(lines[i]))
    && (forall i :: 0 <= i < |lines| ==> IsBoundary(ends[i]) || (i == |lines| - 1 && ends[i] == [] && lines[i] != []))
    && forall i :: 0 <= i && i + 1 < |lines| ==> FollowsBoundary(ends[i], lines[i + 1], ends[i + 1])
  }

  predicate FollowsBoundary(end: Bytes, line: Bytes, next: Bytes) {
    end == [13] ==> line + next != [] && (line + next)[0] != 10
  }

  lemma BoundaryIsLiteral(s: Bytes)
    ensures BoundaryAt(s) > 0 ==> IsBoundary(s[..BoundaryAt(s)])
    ensures BoundaryAt(s) > 0 && s[..BoundaryAt(s)] == [13] && |s| > 1 ==> s[1] != 10
    ensures forall k :: 0 <= k <= |s| && IsBoundary(s[..k]) ==> BoundaryAt(s) > 0
  {
    forall k | 0 <= k <= |s| && IsBoundary(s[..k])
      ensures BoundaryAt(s) > 0
    {
      assert s[..k] == s[..k] + [] && k > 0 && s[0] == s[..k][0];
      assert k > 1 ==> s[1] == s[..k][1];
      assert k > 2 ==> s[2] == s[..k][2];
    }
  }

  /** A line is clean exactly when no boundary stands in it. */
  lemma CleanExactly(line: Bytes)
    ensures Clean(line) <==> Unbroken(line)
  {
    hide IsBoundary, BoundaryAt;
    forall i, k | 0 <= i <= k <= |line| && IsBoundary(line[i..k])
      ensures BoundaryAt(line[i..]) > 0 && i < |line|
    {
      BoundaryIsLiteral(line[i..]);
      assert line[i..][..k - i] == line[i..k];
    }
    forall i | 0 <= i < |line| && BoundaryAt(line[i..]) > 0
      ensures exists k :: i <= k <= |line| && IsBoundary(line[i..k])
    {
      var n := BoundaryAt(line[i..]);
      BoundaryIsLiteral(line[i..]);
      assert line[i..][..n] == line[i..i + n];
    }
  }

  lemma PrefixUnbroken(s: Bytes, i: nat)
    requires i <= |s| && forall k :: 0 <= k < i ==> BoundaryAt(s[k..]) == 0
    ensures Unbroken(s[..i])
  {
    hide IsBoundary, BoundaryAt;
    forall a, b | 0 <= a <= b <= i
      ensures !IsBoundary(s[..i][a..b])
    {
      BoundaryIsLiteral(s[a..]);
      assert s[a..][..b - a] == s[..i][a..b];
      if a == i {
        NoEmptyBoundary(s[..i][a..b]);
      }
    }
  }

  lemma NoEmptyBoundary(b: Bytes)
    requires b == []
    ensures !IsBoundary(b)
  {
  }

  /** The first line with its end opens the text. */
  lemma OpensText(s: Bytes, lines: seq<Bytes>, ends: seq<Bytes>)
    requires SplitAs(s, lines, ends)
    ensures lines == [] <==> s == []
    ensures lines != [] ==> lines[0] + ends[0] != [] && (lines[0] + ends[0])[0] == s[0]
  {
    hide Unbroken, FollowsBoundary;
  }

  lemma {:induction false} SplitFromExactly(s: Bytes, i: nat) returns (ends: seq<Bytes>)
    requires i <= |s| && forall k :: 0 <= k < i ==> BoundaryAt(s[k..]) == 0
    ensures SplitAs(s, SplitFrom(s, i), ends)
    decreases |s|, |s| - i
  {
    hide BoundaryAt, Unbroken, IsBoundary, FollowsBoundary;
    if i == |s| {
      ends := if s == [] then [] else [[]];
      PrefixUnbroken(s, i);
      assert s[..i] == s;
      WholeLine(s);
    } else if BoundaryAt(s[i..]) > 0 {
      var n := BoundaryAt(s[i..]);
      var rest := SplitFromExactly(s[i + n..], 0);
      ends := [s[i..i + n]] + rest;
      PrefixUnbroken(s, i);
      FirstLine(s, i, n, SplitFrom(s[i + n..], 0), rest);
    } else {
      ends := SplitFromExactly(s, i + 1);
    }
  }

  lemma WholeLine(s: Bytes)
    requires Unbroken(s)
    ensures s == [] ==> SplitAs(s, [], [])
    ensures s != [] ==> SplitAs(s, [s], [[]])
  {
    hide Unbroken;
    var lines, ends: seq<Bytes> := [s], [[]];
    assert lines[1..] == [] && ends[1..] == [] && Interleave(lines[1..], ends[1..]) == [];
    assert s + [] + [] == s;
  }

  lemma FirstLine(s: Bytes, i: nat, n: nat, lines: seq<Bytes>, ends: seq<Bytes>)
    requires i < |s| && n == BoundaryAt(s[i..]) > 0 && Unbroken(s[..i]) && SplitAs(s[i + n..], lines, ends)
    ensures SplitAs(s, [s[..i]] + lines, [s[i..i + n]] + ends)
  {
    hide Unbroken, BoundaryAt, IsBoundary;
    var all, stops := [s[..i]] + lines, [s[i..i + n]] + ends;
    BoundaryIsLiteral(s[i..]);
    assert s[i..][..n] == s[i..i + n];
    OpensText(s[i + n..], lines, ends);
    assert all[1..] == lines && stops[1..] == ends;
    assert s == s[..i] + s[i..i + n] + s[i + n..];
    forall k | 0 <= k && k + 1 < |all|
      ensures FollowsBoundary(stops[k], all[k + 1], stops[k + 1])
    {
      if k > 0 {
        assert FollowsBoundary(ends[k - 1], lines[k], ends[k]);
      }
    }
  }

  /** Every text, split: the lines and their boundaries, one after the other, are the text. */
  lemma SplitExactly(s: Bytes) returns (ends: seq<Bytes>)
    ensures SplitAs(s, SplitLines(s), ends)
  {
    ends := SplitFromExactly(s, 0);
  }
}
