/**
  The methods of Python's `str` that the path logic uses, over `seq<char>`:
  `startswith`, `endswith`, `find`, `rfind`, `lstrip`, `rstrip`, `replace`,
  `split`, `sep.join` and `s * n`, each restricted to the one-character
  arguments the helper passes where Python allows a string.
*/
module StrOps {

  predicate StartsWith(s: string, p: string) {
    |p| <= |s| && s[..|p|] == p
  }

  predicate EndsWith(s: string, p: string) {
    |p| <= |s| && s[|s| - |p|..] == p
  }

  /** Every character of `s` is `c` (true of the empty string). */
  predicate AllChar(s: string, c: char) {
    forall j :: 0 <= j < |s| ==> s[j] == c
  }

  /** `s.find(c)`: the first index holding `c`, or -1. */
  function Find(s: string, c: char): (r: int)
    ensures -1 <= r < |s|
    ensures r >= 0 ==> s[r] == c
    ensures forall j :: 0 <= j < |s| && (r < 0 || j < r) ==> s[j] != c
  {
    if s == [] then -1
    else if s[0] == c then 0
    else
      var k := Find(s[1..], c);
      if k < 0 then -1 else k + 1
  }

  /** `s.rfind(c)`: the last index holding `c`, or -1. */
  function RFind(s: string, c: char): (r: int)
    ensures -1 <= r < |s|
    ensures r >= 0 ==> s[r] == c
    ensures forall j :: r < j < |s| ==> s[j] != c
  {
    if s == [] then -1
    else if s[|s| - 1] == c then |s| - 1
    else RFind(s[..|s| - 1], c)
  }

  /** `s.lstrip(c)`: `s` without its leading run of `c`. */
  function LStrip(s: string, c: char): (r: string)
    ensures |r| <= |s| && r == s[|s| - |r|..]
    ensures r == [] || r[0] != c
    ensures AllChar(s[..|s| - |r|], c)
  {
    if s != [] && s[0] == c then
      var r := LStrip(s[1..], c);
      AllCharAfterHead(s, c, |s[1..]| - |r|, |s| - |r|);
      r
    else s
  }

  /** A run of `c` after a leading `c` is a longer run of `c`. */
  lemma {:induction false} AllCharAfterHead(s: string, c: char, k: int, n: int)
    requires s != [] && s[0] == c && 0 <= k <= |s| - 1 && n == k + 1
    requires AllChar(s[1..][..k], c)
    ensures AllChar(s[..n], c)
  {
    assert s[..n] == [c] + s[1..][..k];
  }

  /** `s.rstrip(c)`: `s` without its trailing run of `c`. */
  function RStrip(s: string, c: char): (r: string)
    ensures |r| <= |s| && r == s[..|r|]
    ensures r == [] || r[|r| - 1] != c
    ensures AllChar(s[|r|..], c)
  {
    if s != [] && s[|s| - 1] == c then
      var t := s[..|s| - 1];
      var r := RStrip(t, c);
      assert s[|r|..] == t[|r|..] + [c];
      assert s[..|r|] == t[..|r|];
      r
    else s
  }

  /** Stripping a string that ends in `c` shortens it. */
  lemma {:induction false} RStripShortens(s: string, c: char)
    requires s != [] && s[|s| - 1] == c
    ensures |RStrip(s, c)| < |s|
  {
    assert RStrip(s, c) == RStrip(s[..|s| - 1], c);
  }

  /**
    `s.replace(pat, repl)`: scans left to right and replaces every
    non-overlapping occurrence of `pat`; an empty `pat` matches before every
    character and at the end.
  */
  function ReplaceAll(s: string, pat: string, repl: string): (r: string)
    ensures pat == repl ==> r == s
    decreases |s|
  {
    if pat == [] then
      if s == [] then repl else repl + [s[0]] + ReplaceAll(s[1..], pat, repl)
    else if |s| < |pat| then s
    else if s[..|pat|] == pat then repl + ReplaceAll(s[|pat|..], pat, repl)
    else [s[0]] + ReplaceAll(s[1..], pat, repl)
  }

  /** `s.split(c)`: the pieces between occurrences of `c`; never empty. */
  function Split(s: string, c: char): (parts: seq<string>)
    ensures |parts| >= 1
    ensures forall k :: 0 <= k < |parts| ==> c !in parts[k]
    decreases |s|
  {
    var i := Find(s, c);
    if i < 0 then [s]
    else
      var rest := Split(s[i + 1..], c);
      NoCharBeforeFirst(s, c, i);
      NoCharCons(s[..i], rest, c);
      [s[..i]] + rest
  }

  /** Nothing before the first `c` is a `c`. */
  lemma {:induction false} NoCharBeforeFirst(s: string, c: char, i: int)
    requires 0 <= i <= |s|
    requires forall j :: 0 <= j < |s| && j < i ==> s[j] != c
    ensures c !in s[..i]
  {
    assert forall j :: 0 <= j < i ==> s[..i][j] == s[j];
  }

  lemma {:induction false} NoCharCons(a: string, rest: seq<string>, c: char)
    requires c !in a
    requires forall k :: 0 <= k < |rest| ==> c !in rest[k]
    ensures forall k :: 0 <= k < |[a] + rest| ==> c !in ([a] + rest)[k]
  {
    assert forall k :: 0 < k < |[a] + rest| ==> ([a] + rest)[k] == rest[k - 1];
  }

  /** `c.join(parts)`. */
  function JoinWith(parts: seq<string>, c: char): string
    decreases |parts|
  {
    if parts == [] then ""
    else if |parts| == 1 then parts[0]
    else parts[0] + [c] + JoinWith(parts[1..], c)
  }

  /** `s * n`. */
  function Repeat(s: string, n: nat): (r: string)
    ensures |r| == |s| * n
  {
    if n == 0 then "" else s + Repeat(s, n - 1)
  }

  /** Replacing the empty string by the empty string changes nothing. */
  lemma {:induction false} ReplaceEmptyByEmpty(s: string)
    ensures ReplaceAll(s, "", "") == s
  {
    if s != [] {
      ReplaceEmptyByEmpty(s[1..]);
      assert s == [s[0]] + s[1..];
    }
  }

  /** Replacing one character distributes over concatenation. */
  lemma {:induction false} ReplaceCharAppend(a: string, b: string, c: char, repl: string)
    ensures ReplaceAll(a + b, [c], repl) == ReplaceAll(a, [c], repl) + ReplaceAll(b, [c], repl)
    decreases |a|
  {
    if a != [] {
      ReplaceCharAppend(a[1..], b, c, repl);
      assert (a + b)[1..] == a[1..] + b;
      assert (a + b)[..1] == a[..1];
    } else {
      assert a + b == b;
    }
  }

  /** After replacing `c` by a string free of `c`, no `c` is left. */
  lemma {:induction false} ReplaceCharRemoves(s: string, c: char, repl: string)
    requires c !in repl
    ensures c !in ReplaceAll(s, [c], repl)
    decreases |s|
  {
    if s != [] {
      ReplaceCharRemoves(s[1..], c, repl);
    }
  }

  /** Replacing a character that does not occur changes nothing. */
  lemma {:induction false} ReplaceCharAbsent(s: string, c: char, repl: string)
    ensures c !in s ==> ReplaceAll(s, [c], repl) == s
    decreases |s|
  {
    if c !in s && s != [] {
      ReplaceCharAbsent(s[1..], c, repl);
      assert s == [s[0]] + s[1..];
    }
  }

  /** `pat` occurs in `s` starting at index `i`. */
  predicate OccursAt(s: string, pat: string, i: int) {
    0 <= i && i + |pat| <= |s| && s[i..i + |pat|] == pat
  }

  /** Replacing a pattern that does not occur changes nothing. */
  lemma {:induction false} ReplaceAbsent(s: string, pat: string, repl: string)
    requires pat != []
    requires forall i :: 0 <= i <= |s| - |pat| ==> !OccursAt(s, pat, i)
    ensures ReplaceAll(s, pat, repl) == s
    decreases |s|
  {
    if |s| >= |pat| {
      assert !OccursAt(s, pat, 0);
      forall i | 0 <= i <= |s[1..]| - |pat| ensures !OccursAt(s[1..], pat, i) {
        assert s[1..][i..i + |pat|] == s[i + 1..i + 1 + |pat|];
        assert !OccursAt(s, pat, i + 1);
      }
      ReplaceAbsent(s[1..], pat, repl);
      assert s == [s[0]] + s[1..];
    }
  }

  /** A leading occurrence of the pattern is replaced, and the scan goes on after it. */
  lemma {:induction false} ReplaceLeading(pat: string, x: string, repl: string)
    requires pat != []
    ensures ReplaceAll(pat + x, pat, repl) == repl + ReplaceAll(x, pat, repl)
  {
    assert (pat + x)[..|pat|] == pat;
    assert (pat + x)[|pat|..] == x;
  }

  /** A first character that does not start the pattern is kept, and the scan goes on after it. */
  lemma ReplaceSkip(c: char, x: string, pat: string, repl: string)
    requires pat != [] && c != pat[0]
    ensures ReplaceAll([c] + x, pat, repl) == if |[c] + x| < |pat| then [c] + x else [c] + ReplaceAll(x, pat, repl)
  {
    var s := [c] + x;
    if |s| >= |pat| {
      assert s[..|pat|][0] == c;
      assert s[1..] == x;
    }
  }

  /** Joining a first part onto further parts puts the separator between them. */
  lemma {:induction false} JoinWithCons(a: string, rest: seq<string>, c: char)
    requires rest != []
    ensures JoinWith([a] + rest, c) == a + [c] + JoinWith(rest, c)
  {
    assert ([a] + rest)[0] == a;
    assert ([a] + rest)[1..] == rest;
  }

  /** A join whose first part is non-empty starts with that part's first character. */
  lemma {:induction false} JoinWithHead(parts: seq<string>, c: char)
    requires |parts| >= 1 && parts[0] != []
    ensures JoinWith(parts, c) != [] && JoinWith(parts, c)[0] == parts[0][0]
  {
  }
}
