/**
  The string searches of Go's `strings` package that the text code relies on:
  first and last occurrence, replacement of a one-character pattern, and the
  fact about first occurrences that every scanner in the program rests on.
 */
module Strings {
  import opened Common

  /** `sub` occurs in `s` starting at `i`. */
  predicate At(s: string, sub: string, i: nat) {
    i + |sub| <= |s| && forall k :: 0 <= k < |sub| ==> s[i + k] == sub[k]
  }

  ghost predicate Contains(s: string, sub: string) {
    exists i: nat :: At(s, sub, i)
  }

  /** `r` is the first occurrence of `sub` at or after `from`, or -1 if there is none. */
  predicate First(s: string, sub: string, from: nat, r: int) {
    && (r == -1 || from <= r <= |s| - |sub|)
    && (r >= 0 ==> At(s, sub, r))
    && forall j: nat :: from <= j <= |s| && (r < 0 || j < r) ==> !At(s, sub, j)
  }

  /** Go's `strings.Index(s[from:], sub)`, as a position in `s` itself, or -1. */
  function IndexFrom(s: string, sub: string, from: nat): (r: int)
    requires from <= |s|
    ensures First(s, sub, from, r)
    ensures r == -1 || from <= r <= |s| - |sub|
    decreases |s| - from
  {
    if At(s, sub, from) then from
    else if from == |s| then -1
    else IndexFrom(s, sub, from + 1)
  }

  /** strings.Index: the first occurrence of `sub`, or -1. */
  function Index(s: string, sub: string): (r: int)
    ensures First(s, sub, 0, r)
    ensures r == -1 || 0 <= r <= |s| - |sub|
    ensures r < 0 <==> !Contains(s, sub)
  {
    IndexFrom(s, sub, 0)
  }

  function LastIndexBefore(s: string, c: char, n: nat): (r: int)
    requires n <= |s|
    ensures -1 <= r < n
    ensures r >= 0 ==> s[r] == c
    ensures forall k :: r < k < n ==> s[k] != c
  {
    if n == 0 then -1 else if s[n - 1] == c then n - 1 else LastIndexBefore(s, c, n - 1)
  }

  /** strings.LastIndex for a one-character pattern: its last occurrence, or -1. */
  function LastIndex(s: string, c: char): (r: int)
    ensures -1 <= r < |s|
    ensures r >= 0 ==> s[r] == c
    ensures forall k :: r < k < |s| ==> s[k] != c
  {
    LastIndexBefore(s, c, |s|)
  }

  /** strings.ReplaceAll for a one-character pattern. */
  function ReplaceAll(s: string, c: char, with: string): string {
    if s == "" then "" else (if s[0] == c then with else [s[0]]) + ReplaceAll(s[1..], c, with)
  }

  lemma {:induction false} ReplaceAllConcat(a: string, b: string, c: char, with: string)
    ensures ReplaceAll(a + b, c, with) == ReplaceAll(a, c, with) + ReplaceAll(b, c, with)
  {
    if a == "" {
      assert a + b == b;
    } else {
      assert (a + b)[1..] == a[1..] + b;
      ReplaceAllConcat(a[1..], b, c, with);
    }
  }

  lemma {:induction false} NothingToReplace(s: string, c: char, with: string)
    requires c !in s
    ensures ReplaceAll(s, c, with) == s
  {
    if s != "" {
      NothingToReplace(s[1..], c, with);
      assert s == [s[0]] + s[1..];
    }
  }

  lemma ReplaceOne(c: char, d: char, with: string)
    ensures ReplaceAll([c], d, with) == if c == d then with else [c]
  {
    assert [c][1..] == "";
  }

  /** `s` without the character `c`. */
  function Without(s: string, c: char): string {
    ReplaceAll(s, c, "")
  }

  /** One pass over the characters, each replaced by a string. */
  function Expand(f: char -> string, s: string): string {
    if s == "" then "" else f(s[0]) + Expand(f, s[1..])
  }

  /** A pattern whose first character does not come back inside it. */
  predicate Unbordered(d: string) {
    |d| > 0 && d[0] !in d[1..]
  }

  /** The first `k` characters of `sub` end `a`, and the others begin `b`. */
  predicate Straddles(a: string, b: string, sub: string, k: nat) {
    && 0 < k < |sub| && k <= |a| && |sub| - k <= |b|
    && (forall m :: 0 <= m < k ==> a[|a| - k + m] == sub[m])
    && (forall m :: k <= m < |sub| ==> b[m - k] == sub[m])
  }

  /** An occurrence in `a + b` lies in `a`, lies in `b`, or straddles the seam. */
  lemma OccurrenceInConcat(a: string, b: string, sub: string, i: nat)
    requires |sub| > 0
    requires At(a + b, sub, i)
    ensures At(a, sub, i) || (i >= |a| && At(b, sub, i - |a|)) || (i < |a| && Straddles(a, b, sub, |a| - i))
  {
    if i + |sub| <= |a| {
      assert At(a, sub, i);
    } else if i >= |a| {
      assert At(b, sub, i - |a|);
    } else {
      assert Straddles(a, b, sub, |a| - i);
    }
  }

  lemma NoOccurrenceInConcat(a: string, b: string, sub: string)
    requires |sub| > 0
    requires !Contains(a, sub) && !Contains(b, sub)
    requires forall k: nat :: !Straddles(a, b, sub, k)
    ensures !Contains(a + b, sub)
  {
    forall i: nat | At(a + b, sub, i)
      ensures At(a, sub, i) || (i >= |a| && At(b, sub, i - |a|)) || (i < |a| && Straddles(a, b, sub, |a| - i))
    {
      OccurrenceInConcat(a, b, sub, i);
    }
  }

  lemma FreeOf(s: string, sub: string)
    requires sub != ""
    ensures sub[0] !in s ==> !Contains(s, sub)
  {
    if Contains(s, sub) {
      var i: nat :| At(s, sub, i);
      assert s[i + 0] == sub[0];
    }
  }

  lemma InsideConcat(a: string, mid: string, b: string, sub: string)
    ensures Contains(mid, sub) ==> Contains(a + mid + b, sub)
  {
    if Contains(mid, sub) {
      var i: nat :| At(mid, sub, i);
      assert At(a + mid + b, sub, |a| + i);
    }
  }

  /** Up to the first delimiter there is none. */
  lemma NoneBeforeFirst(s: string, d: string, from: nat, e: nat)
    requires d != "" && from <= e <= |s| && First(s, d, 0, e)
    ensures !Contains(s[from..e], d)
  {
    forall i: nat | At(s[from..e], d, i) ensures At(s, d, from + i) && from + i < e {
    }
  }

  /** Text `v` without the delimiter `d`, after some text `pre` and before `d`: the search
      that starts after `pre` finds the delimiter right after `v`. */
  lemma Seek(s: string, pre: string, v: string, d: string, rest: string)
    requires s == pre + v + d + rest
    requires Unbordered(d)
    requires !Contains(v, d)
    ensures IndexFrom(s, d, |pre|) == |pre| + |v|
  {
    assert At(s, d, |pre| + |v|);
    forall j: nat | |pre| <= j < |pre| + |v| && At(s, d, j) ensures At(v, d, j - |pre|) || d[0] in d[1..] {
      InsideOrBordered(s, pre, v, d, rest, j);
    }
  }

  lemma InsideOrBordered(s: string, pre: string, v: string, d: string, rest: string, j: nat)
    requires s == pre + v + d + rest && |d| > 0
    requires |pre| <= j < |pre| + |v| && At(s, d, j)
    ensures At(v, d, j - |pre|) || d[0] in d[1..]
  {
    if j + |d| > |pre| + |v| {
      var k := |pre| + |v| - j;
      assert d[1..][k - 1] == d[k] == s[j + k] == d[0];
    }
  }

  /** The search from the start, with what lies before and after the delimiter it finds. */
  lemma FirstDelimiter(s: string, v: string, d: string, rest: string)
    requires s == v + d + rest
    requires Unbordered(d)
    requires !Contains(v, d)
    ensures |v| + |d| <= |s| && IndexFrom(s, d, 0) == |v|
    ensures s[..|v|] == v && s[|v| + |d|..] == rest
  {
    assert "" + v == v;
    Seek(s, "", v, d, rest);
  }

  /** The search, with what lies before and after the delimiter it finds. */
  lemma Found(s: string, from: nat, at: nat, pre: string, v: string, d: string, rest: string)
    requires s == pre + v + d + rest
    requires from == |pre| && at == |pre| + |v|
    requires Unbordered(d)
    requires !Contains(v, d)
    ensures at + |d| <= |s| && IndexFrom(s, d, from) == at
    ensures s[from..at] == v
    ensures s[at + |d|..] == rest
  {
    Seek(s, pre, v, d, rest);
  }

  /** `s` is cut at the first `d` into what comes before and what comes after. */
  ghost predicate Split(s: string, d: string, pre: string, post: string) {
    s == pre + d + post && !Contains(pre, d)
  }

  /** The cut itself, if there is one. */
  function CutAt(s: string, d: string): Option<(string, string)> {
    var i := Index(s, d);
    if i < 0 then None else Some((s[..i], s[i + |d|..]))
  }

  lemma CutIff(s: string, d: string, pre: string, post: string)
    requires Unbordered(d)
    ensures CutAt(s, d) == Some((pre, post)) <==> Split(s, d, pre, post)
  {
    if CutAt(s, d).Some? {
      IndexSplit(s, d);
    }
    if Split(s, d, pre, post) {
      FirstDelimiter(s, pre, d, post);
    }
  }

  lemma IndexSplit(s: string, d: string)
    requires d != "" && Index(s, d) >= 0
    ensures Split(s, d, s[..Index(s, d)], s[Index(s, d) + |d|..])
  {
    var i := Index(s, d);
    NoneBeforeFirst(s, d, 0, i);
    assert s[0..i] == s[..i];
    assert s[i..i + |d|] == d;
    assert s == s[..i] + s[i..i + |d|] + s[i + |d|..];
  }

  lemma FreeOfChar(s: string, c: char)
    ensures Contains(s, [c]) <==> c in s
  {
    FreeOf(s, [c]);
    if c in s {
      var i :| 0 <= i < |s| && s[i] == c;
      assert At(s, [c], i);
    }
  }

  lemma SplitAfter(head: string, c: char, pre: string, post: string)
    requires c !in head && c !in pre
    ensures Split(head + (pre + [c] + post), [c], head + pre, post)
  {
    FreeOfChar(head + pre, c);
    assert head + (pre + [c] + post) == head + pre + [c] + post;
  }

  /** A prefix without the delimiter does not move the cut, for a delimiter of one character. */
  lemma CutAfter(head: string, rest: string, c: char)
    requires c !in head
    ensures CutAt(rest, [c]).None? ==> CutAt(head + rest, [c]).None?
    ensures CutAt(rest, [c]).Some? ==>
              CutAt(head + rest, [c]) == Some((head + CutAt(rest, [c]).value.0, CutAt(rest, [c]).value.1))
  {
    match CutAt(rest, [c])
    case None =>
      FreeOfChar(head + rest, c);
      FreeOfChar(rest, c);
    case Some(cut) =>
      CutIff(rest, [c], cut.0, cut.1);
      FreeOfChar(cut.0, c);
      SplitAfter(head, c, cut.0, cut.1);
      CutIff(head + rest, [c], head + cut.0, cut.1);
  }

  /** Searching for the end of a tag from its start or from after it comes to the same. */
  lemma TagCut(s: string, d: string, c: char, a: nat, tag: string, rest: string)
    requires d != "" && c !in d && Index(s, d) == a && tag == s[a..] && a + |d| <= |s| && rest == s[a + |d|..]
    ensures Index(tag, [c]) < 0 <==> CutAt(rest, [c]).None?
    ensures CutAt(rest, [c]).Some? ==> s[a + Index(tag, [c]) + 1..] == CutAt(rest, [c]).value.1
  {
    IndexSplit(s, d);
    assert tag == d + rest;
    CutAfter(d, rest, c);
    TagCutText(s, a, tag, [c]);
  }

  lemma TagCutText(s: string, a: nat, tag: string, d: string)
    requires a <= |s| && tag == s[a..]
    ensures CutAt(tag, d).Some? ==> s[a + Index(tag, d) + |d|..] == CutAt(tag, d).value.1
  {
  }

  lemma AtShifted(s: string, d: string, from: nat, j: nat)
    requires from <= |s|
    ensures At(s[from..], d, j) <==> At(s, d, from + j)
  {
    if At(s, d, from + j) {
      forall k | 0 <= k < |d| ensures s[from..][j + k] == d[k] {
        assert s[from + j + k] == d[k];
      }
    }
    if At(s[from..], d, j) {
      forall k | 0 <= k < |d| ensures s[from + j + k] == d[k] {
        assert s[from..][j + k] == d[k];
      }
    }
  }

  /** A search from a position is a search in what follows it. */
  lemma IndexFromIs(s: string, d: string, from: nat)
    requires d != "" && from <= |s|
    ensures IndexFrom(s, d, from) == if Index(s[from..], d) < 0 then -1 else from + Index(s[from..], d)
  {
    var i, j := IndexFrom(s, d, from), Index(s[from..], d);
    if i >= 0 {
      AtShifted(s, d, from, i - from);
    }
    if j >= 0 {
      AtShifted(s, d, from, j);
    }
  }

  lemma CutFrom(s: string, d: string, from: nat)
    requires d != "" && from <= |s|
    ensures CutAt(s[from..], d) ==
              var i := IndexFrom(s, d, from);
              if i < 0 then None else Some((s[from..i], s[i + |d|..]))
  {
    IndexFromIs(s, d, from);
    var j := Index(s[from..], d);
    if j >= 0 {
      assert s[from..][..j] == s[from..from + j];
      assert s[from..][j + |d|..] == s[from + j + |d|..];
    }
  }
}
