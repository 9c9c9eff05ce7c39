/**
 * Python string operations the scripts rely on, over Dafny strings (seq<char>):
 * `startswith`, `in`, `split`, `join`, `replace`, `rstrip` and the ordering
 * `sorted` uses (code point by code point, a proper prefix first).
 */
module Strs {

  predicate StartsWith(s: string, p: string) {
    |p| <= |s| && s[..|p|] == p
  }

  /** Python's `p in s` for strings: `p` occurs somewhere in `s`. */
  predicate Contains(s: string, p: string)
    decreases |s|
  {
    StartsWith(s, p) || (|s| > 0 && Contains(s[1..], p))
  }

  /** Every character of `s` is `c` (true of the empty string). */
  predicate AllChar(s: string, c: char) {
    forall i :: 0 <= i < |s| ==> s[i] == c
  }

  lemma {:induction false} ContainsAt(s: string, p: string, i: nat)
    requires i + |p| <= |s| && s[i..i + |p|] == p
    ensures Contains(s, p)
    decreases i
  {
    if i > 0 {
      assert s[1..][i - 1..i - 1 + |p|] == s[i..i + |p|];
      ContainsAt(s[1..], p, i - 1);
    }
  }

  lemma {:induction false} ContainsAppend(a: string, b: string, p: string)
    requires Contains(b, p)
    ensures Contains(a + b, p)
    decreases |a|
  {
    if a != [] {
      assert (a + b)[1..] == a[1..] + b;
      ContainsAppend(a[1..], b, p);
      assert Contains((a + b)[1..], p);
    } else {
      assert a + b == b;
    }
  }

  // ---------------------------------------------------------------- split / join

  /** Python's `s.split(sep)` for a one-character separator: never an empty list. */
  function Split(s: string, sep: char): (parts: seq<string>)
    ensures |parts| >= 1
  {
    if s == [] then [""]
    else if s[0] == sep then [""] + Split(s[1..], sep)
    else
      var rest := Split(s[1..], sep);
      [[s[0]] + rest[0]] + rest[1..]
  }

  /** Python's `sep.join(parts)`. */
  function Join(parts: seq<string>, sep: string): string {
    if parts == [] then ""
    else if |parts| == 1 then parts[0]
    else parts[0] + sep + Join(parts[1..], sep)
  }

  /** Splitting at a separator that was put between two strings splits each side. */
  lemma {:induction false} SplitAppend(a: string, b: string, sep: char)
    ensures Split(a + [sep] + b, sep) == Split(a, sep) + Split(b, sep)
    decreases |a|
  {
    if a == [] {
      assert a + [sep] + b == [sep] + b;
      assert ([sep] + b)[1..] == b;
    } else {
      assert (a + [sep] + b)[1..] == a[1..] + [sep] + b;
      SplitAppend(a[1..], b, sep);
    }
  }

  lemma {:induction false} SplitNoSep(s: string, sep: char)
    requires sep !in s
    ensures Split(s, sep) == [s]
    decreases |s|
  {
    if s != [] {
      assert sep !in s[1..] by {
        forall k | 0 <= k < |s[1..]| ensures s[1..][k] != sep { assert s[1..][k] == s[k + 1]; }
      }
      SplitNoSep(s[1..], sep);
      assert s[0] != sep;
      assert [s[0]] + s[1..] == s;
    }
  }

  /** `split` is the inverse of `join` when no part holds the separator. */
  lemma {:induction false} SplitJoin(parts: seq<string>, sep: char)
    requires |parts| >= 1
    requires forall i :: 0 <= i < |parts| ==> sep !in parts[i]
    ensures Split(Join(parts, [sep]), sep) == parts
    decreases |parts|
  {
    if |parts| == 1 {
      SplitNoSep(parts[0], sep);
    } else {
      SplitNoSep(parts[0], sep);
      SplitJoin(parts[1..], sep);
      SplitAppend(parts[0], Join(parts[1..], [sep]), sep);
      assert [parts[0]] + parts[1..] == parts;
    }
  }

  /** Appending a part to a non-empty list appends the separator and the part. */
  lemma {:induction false} JoinSnoc(parts: seq<string>, x: string, sep: string)
    requires parts != []
    ensures Join(parts + [x], sep) == Join(parts, sep) + sep + x
    decreases |parts|
  {
    if |parts| == 1 {
      assert (parts + [x])[1..] == [x];
    } else {
      assert (parts + [x])[1..] == parts[1..] + [x];
      JoinSnoc(parts[1..], x, sep);
    }
  }

  lemma {:induction false} JoinEmpty(parts: seq<string>, sep: string)
    requires forall i :: 0 <= i < |parts| ==> parts[i] != ""
    ensures Join(parts, sep) == "" <==> parts == []
  {
    if |parts| >= 2 {
      assert |Join(parts, sep)| >= |parts[0]| > 0;
    } else if |parts| == 1 {
      assert parts[0] != "";
    }
  }

  // ------------------------------------------------------------------- replace

  /** Python's `s.replace(pat, rep)`: every non-overlapping occurrence, left to right. */
  function ReplaceAll(s: string, pat: string, rep: string): string
    requires |pat| > 0
    decreases |s|
  {
    if StartsWith(s, pat) then rep + ReplaceAll(s[|pat|..], pat, rep)
    else if s == [] then []
    else [s[0]] + ReplaceAll(s[1..], pat, rep)
  }

  /**
   * An occurrence of `pat` cannot straddle the border of `a + t` when `t` starts with a
   * character that `pat` does not contain: replacing in the whole replaces in each part.
   */
  lemma {:induction false} ReplaceAllSplitAt(a: string, t: string, pat: string, rep: string)
    requires |pat| > 0
    requires t == [] || t[0] !in pat
    ensures ReplaceAll(a + t, pat, rep) == ReplaceAll(a, pat, rep) + ReplaceAll(t, pat, rep)
    decreases |a|, 1
  {
    if a == [] {
      assert a + t == t;
    } else if |a| < |pat| {
      StraddleImpossible(a, t, pat);
      NoStartSplit(a, t, pat, rep);
    } else if StartsWith(a, pat) {
      assert (a + t)[..|pat|] == a[..|pat|];
      assert (a + t)[|pat|..] == a[|pat|..] + t;
      assert ReplaceAll(a + t, pat, rep) == rep + ReplaceAll(a[|pat|..] + t, pat, rep);
      assert ReplaceAll(a, pat, rep) == rep + ReplaceAll(a[|pat|..], pat, rep);
      ReplaceAllSplitAt(a[|pat|..], t, pat, rep);
    } else {
      assert (a + t)[..|pat|] == a[..|pat|];
      NoStartSplit(a, t, pat, rep);
    }
  }

  /** Neither `a + t` nor `a` starts with `pat`: the first character of each goes through unchanged. */
  lemma {:induction false} NoStartSplit(a: string, t: string, pat: string, rep: string)
    requires |pat| > 0 && a != []
    requires t == [] || t[0] !in pat
    requires !StartsWith(a + t, pat) && !StartsWith(a, pat)
    ensures ReplaceAll(a + t, pat, rep) == ReplaceAll(a, pat, rep) + ReplaceAll(t, pat, rep)
    decreases |a|, 0
  {
    var at := a + t;
    assert at[1..] == a[1..] + t;
    assert at[0] == a[0];
    ReplaceAllStep(at, pat, rep);
    ReplaceAllStep(a, pat, rep);
    ReplaceAllSplitAt(a[1..], t, pat, rep);
    var ra, rt := ReplaceAll(a[1..], pat, rep), ReplaceAll(t, pat, rep);
    assert [a[0]] + (ra + rt) == ([a[0]] + ra) + rt;
  }

  /** `s` differs from `pat` at position `k`, so it does not start with `pat`. */
  lemma MismatchAt(s: string, pat: string, k: nat)
    requires k < |pat| && (k >= |s| || s[k] != pat[k])
    ensures !StartsWith(s, pat)
  {
    if k < |s| && |pat| <= |s| {
      assert s[..|pat|][k] == s[k];
    }
  }

  /** No occurrence of `pat` starts inside a prefix `a` shorter than `pat` when `t` blocks it. */
  lemma StraddleImpossible(a: string, t: string, pat: string)
    requires |a| < |pat|
    requires t == [] || t[0] !in pat
    ensures !StartsWith(a + t, pat)
  {
    if t != [] {
      assert (a + t)[|a|] == t[0];
    }
    MismatchAt(a + t, pat, |a|);
  }

  /** No occurrence of a pattern beginning with `c0 c1` can begin inside `a`. */
  predicate NoMatchStart(a: string, c0: char, c1: char) {
    forall i {:trigger a[i]} :: 0 <= i < |a| ==> a[i] != c0 || (i + 1 < |a| && a[i + 1] != c1)
  }

  lemma NoMatchStartHead(a: string, c0: char, c1: char)
    requires a != [] && NoMatchStart(a, c0, c1)
    ensures a[0] != c0 || (1 < |a| && a[1] != c1)
  {
    var i := 0;
    assert a[i] != c0 || (i + 1 < |a| && a[i + 1] != c1);
  }

  lemma NoMatchStartTail(a: string, c0: char, c1: char)
    requires a != [] && NoMatchStart(a, c0, c1)
    ensures NoMatchStart(a[1..], c0, c1)
  {
    forall i | 0 <= i < |a[1..]|
      ensures a[1..][i] != c0 || (i + 1 < |a[1..]| && a[1..][i + 1] != c1)
    {
      assert a[1..][i] == a[i + 1];
      assert a[i + 1] != c0 || (i + 2 < |a| && a[i + 2] != c1);
      if i + 1 < |a[1..]| {
        assert a[1..][i + 1] == a[i + 2];
      }
    }
  }

  lemma ReplaceAllStep(s: string, pat: string, rep: string)
    requires |pat| > 0 && s != [] && !StartsWith(s, pat)
    ensures ReplaceAll(s, pat, rep) == [s[0]] + ReplaceAll(s[1..], pat, rep)
  {
  }

  /** Replacing in `a + t` leaves a prefix `a` in which no occurrence can begin untouched. */
  lemma {:induction false} ReplaceAllSafePrefix(a: string, t: string, pat: string, rep: string)
    requires |pat| >= 2 && NoMatchStart(a, pat[0], pat[1])
    ensures ReplaceAll(a + t, pat, rep) == a + ReplaceAll(t, pat, rep)
    decreases |a|
  {
    if a == [] {
      assert a + t == t;
    } else {
      var s := a + t;
      assert s[0] == a[0];
      NoMatchStartHead(a, pat[0], pat[1]);
      if a[0] == pat[0] {
        assert s[1] == a[1];
        MismatchAt(s, pat, 1);
      } else {
        MismatchAt(s, pat, 0);
      }
      ReplaceAllStep(s, pat, rep);
      assert s[1..] == a[1..] + t;
      NoMatchStartTail(a, pat[0], pat[1]);
      ReplaceAllSafePrefix(a[1..], t, pat, rep);
      calc {
        ReplaceAll(s, pat, rep);
        [a[0]] + ReplaceAll(a[1..] + t, pat, rep);
        [a[0]] + (a[1..] + ReplaceAll(t, pat, rep));
        { assert [a[0]] + a[1..] == a; }
        a + ReplaceAll(t, pat, rep);
      }
    }
  }

  lemma {:induction false} ReplaceAllNoMatch(s: string, pat: string, rep: string)
    requires |pat| > 0 && !Contains(s, pat)
    ensures ReplaceAll(s, pat, rep) == s
    decreases |s|
  {
    if s != [] {
      ReplaceAllNoMatch(s[1..], pat, rep);
    }
  }

  // ------------------------------------------------------------------ ordering

  /** Python's `a <= b` on str: code point by code point, a prefix before its extensions. */
  predicate Le(a: string, b: string)
    decreases |a|
  {
    a == [] || (b != [] && (a[0] < b[0] || (a[0] == b[0] && Le(a[1..], b[1..]))))
  }

  lemma LeTotal(a: string, b: string)
    ensures Le(a, b) || Le(b, a)
  {
  }

  lemma LeTrans(a: string, b: string, c: string)
    requires Le(a, b) && Le(b, c)
    ensures Le(a, c)
  {
  }

  predicate Sorted(s: seq<string>) {
    forall i, j :: 0 <= i < j < |s| ==> Le(s[i], s[j])
  }

  function Insert(x: string, s: seq<string>): (r: seq<string>)
    requires Sorted(s)
    ensures Sorted(r)
    ensures multiset(r) == multiset(s) + multiset{x}
  {
    if s == [] then [x]
    else if Le(x, s[0]) then
      assert forall k :: 0 <= k < |s| ==> Le(x, s[k]) by {
        forall k | 0 < k < |s| ensures Le(x, s[k]) { LeTrans(x, s[0], s[k]); }
      }
      SortedCons(x, s);
      [x] + s
    else
      var tail := Insert(x, s[1..]);
      LeTotal(x, s[0]);
      InsertBound(x, s, tail);
      SortedCons(s[0], tail);
      assert s == [s[0]] + s[1..];
      [s[0]] + tail
  }

  /** A sorted list stays sorted under a new head no greater than any of its items. */
  lemma SortedCons(x: string, s: seq<string>)
    requires Sorted(s)
    requires forall k :: 0 <= k < |s| ==> Le(x, s[k])
    ensures Sorted([x] + s)
  {
    forall i, j | 0 <= i < j < |[x] + s| ensures Le(([x] + s)[i], ([x] + s)[j]) {
      assert ([x] + s)[j] == s[j - 1];
      if i > 0 { assert ([x] + s)[i] == s[i - 1]; }
    }
  }

  /** The insertion into the tail holds only items no smaller than the head of a sorted list. */
  lemma InsertBound(x: string, s: seq<string>, tail: seq<string>)
    requires Sorted(s) && s != [] && Le(s[0], x)
    requires multiset(tail) == multiset(s[1..]) + multiset{x}
    ensures forall k :: 0 <= k < |tail| ==> Le(s[0], tail[k])
  {
    forall k | 0 <= k < |tail| ensures Le(s[0], tail[k]) {
      var y := tail[k];
      assert y in multiset(tail);
      if y != x {
        assert y in multiset(s[1..]);
        var m :| 0 <= m < |s[1..]| && s[1..][m] == y;
        assert s[m + 1] == y;
      }
    }
  }

  /** Python's `sorted` on a list of strings (insertion sort; the order is total). */
  function Sort(s: seq<string>): (r: seq<string>)
    ensures Sorted(r)
    ensures multiset(r) == multiset(s)
  {
    if s == [] then []
    else
      assert s == [s[0]] + s[1..];
      Insert(s[0], Sort(s[1..]))
  }

  // -------------------------------------------------------------------- rstrip

  /** Python's `str.isspace()` for one character. */
  predicate IsSpace(c: char) {
    c == ' ' || ('\t' <= c <= '\r') || ('\U{1C}' <= c <= '\U{1F}')
    || c == '\U{85}' || c == '\U{A0}' || c == '\U{1680}' || ('\U{2000}' <= c <= '\U{200A}')
    || c == '\U{2028}' || c == '\U{2029}' || c == '\U{202F}' || c == '\U{205F}' || c == '\U{3000}'
  }

  /** Python's `s.rstrip()`: drops the trailing run of whitespace and nothing else. */
  function RStrip(s: string): (r: string)
    ensures StartsWith(s, r)
    ensures r == [] || !IsSpace(r[|r| - 1])
    ensures forall k :: |r| <= k < |s| ==> IsSpace(s[k])
  {
    if s != [] && IsSpace(s[|s| - 1]) then RStrip(s[..|s| - 1]) else s
  }

  /** Python's `s.rstrip(c)` for one character `c`. */
  function RStripChar(s: string, c: char): (r: string)
    ensures StartsWith(s, r)
    ensures r == [] || r[|r| - 1] != c
    ensures forall k :: |r| <= k < |s| ==> s[k] == c
  {
    if s != [] && s[|s| - 1] == c then RStripChar(s[..|s| - 1], c) else s
  }
}
