/**
  Facts about sequences of any element type. Stating them once, generically,
  keeps the proofs about strings and call traces from re-deriving them.
*/
module SeqFacts {

  predicate IsPrefix<T(==)>(a: seq<T>, b: seq<T>) {
    |a| <= |b| && b[..|a|] == a
  }

  lemma PrefixTrans<T>(a: seq<T>, b: seq<T>, c: seq<T>)
    requires IsPrefix(a, b) && IsPrefix(b, c)
    ensures IsPrefix(a, c)
  {
    assert c[..|a|] == c[..|b|][..|a|];
  }

  lemma PrefixAppend<T>(a: seq<T>, x: seq<T>, y: seq<T>)
    requires IsPrefix(x, y)
    ensures IsPrefix(a + x, a + y)
  {
    assert (a + y)[..|a + x|] == a + y[..|x|];
  }

  /** What a sequence does not hold, none of its suffixes holds. */
  lemma NotInDrop<T>(s: seq<T>, k: int, x: T)
    requires 0 <= k <= |s| && x !in s
    ensures x !in s[k..]
  {
    assert forall j :: 0 <= j < |s| - k ==> s[k..][j] == s[k + j];
  }

  /** A sequence leads anything appended to it. */
  lemma PrefixOfAppend<T>(x: seq<T>, y: seq<T>)
    ensures IsPrefix(x, x + y)
  {
    assert (x + y)[..|x|] == x;
  }

  lemma AppendEmpty<T>(a: seq<T>, b: seq<T>)
    requires |b| == 0
    ensures a + b == a
  {
  }

  lemma AppendEmptyLeft<T>(b: seq<T>)
    ensures [] + b == b
  {
  }

  lemma TakeNone<T>(s: seq<T>)
    ensures s[..0] == []
  {
  }

  lemma TakeAll<T>(s: seq<T>, n: int)
    requires n == |s|
    ensures s[..n] == s
  {
  }

  lemma AppendAssoc<T>(a: seq<T>, b: seq<T>, c: seq<T>)
    ensures (a + b) + c == a + (b + c)
  {
  }

  /** The two halves of a concatenation. */
  lemma AppendHalves<T>(x: seq<T>, y: seq<T>)
    ensures (x + y)[..|x|] == x && (x + y)[|x|..] == y
  {
  }

  /** Dropping past the left part of a concatenation drops from the right part. */
  lemma DropOfAppend<T>(x: seq<T>, y: seq<T>, i: int)
    requires 0 <= i <= |y|
    ensures (x + y)[|x| + i..] == y[i..]
  {
  }

  lemma TakeTake<T>(s: seq<T>, i: int, j: int)
    requires 0 <= i <= j <= |s|
    ensures s[..j][..i] == s[..i]
  {
  }

  /** A sequence is its first `k` elements followed by the rest. */
  lemma TakeDrop<T>(s: seq<T>, k: int)
    requires 0 <= k <= |s|
    ensures s[..k] + s[k..] == s
  {
  }

  /** A sequence is what comes before index `i`, element `i`, and what comes after. */
  lemma AroundIndex<T>(s: seq<T>, i: int)
    requires 0 <= i < |s|
    ensures s == s[..i] + [s[i]] + s[i + 1..]
  {
  }

  /** Removing the first element of a sequence that starts with `x`. */
  lemma ConsTail<T>(s: seq<T>)
    requires s != []
    ensures s == [s[0]] + s[1..]
  {
  }

  lemma TailOfAppend<T>(x: seq<T>, y: seq<T>)
    requires x != []
    ensures (x + y)[0] == x[0] && (x + y)[1..] == x[1..] + y
  {
  }

  /** The first `k + 1` elements are the first `k` followed by element `k`. */
  lemma TakeSnoc<T>(s: seq<T>, k: int)
    requires 0 <= k < |s|
    ensures s[..k + 1] == s[..k] + [s[k]]
  {
  }

  /** All but the last element of `[x] + s`, for a non-empty `s`. */
  lemma ConsInit<T>(x: T, s: seq<T>)
    requires s != []
    ensures ([x] + s)[..|s|] == [x] + s[..|s| - 1]
  {
  }

  /** Cutting a sequence known to equal `x + [c] + y` inside `x`. */
  lemma CutBeforeSeparator<T>(t: seq<T>, x: seq<T>, c: T, y: seq<T>, i: int)
    requires t == x + [c] + y && 0 <= i < |x|
    ensures t[..i] == x[..i]
    ensures t[i + 1..] == x[i + 1..] + [c] + y
  {
  }

  /** Cutting a sequence known to equal `x + [c] + y` at the separator `c`. */
  lemma CutAtSeparator<T>(t: seq<T>, x: seq<T>, c: T, y: seq<T>)
    requires t == x + [c] + y
    ensures t[..|x|] == x
    ensures t[|x| + 1..] == y
  {
  }

  /** `DropOfAppend` for a sequence known to equal a concatenation. */
  lemma DropOfEqualAppend<T>(t: seq<T>, x: seq<T>, y: seq<T>, i: int, n: int)
    requires t == x + y && 0 <= i <= |y| && n == |x| + i
    ensures t[n..] == y[i..]
  {
  }

  /** `PrefixAppend` for sequences known to equal concatenations. */
  lemma PrefixOfEqualAppend<T>(s: seq<T>, t: seq<T>, a: seq<T>, x: seq<T>, y: seq<T>)
    requires s == a + x && t == a + y && IsPrefix(x, y)
    ensures IsPrefix(s, t)
  {
    PrefixAppend(a, x, y);
  }

  /** A sequence known to equal `x + y` starts with (anything equal to) `x`, and `y` follows it. */
  lemma HalvesOfEqualAppend<T>(t: seq<T>, s: seq<T>, x: seq<T>, y: seq<T>, n: int)
    requires t == x + y && s == x && n == |s|
    ensures IsPrefix(s, t) && t[n..] == y
  {
  }

  /** Membership in a non-empty sequence: in all but its last element, or the last one. */
  lemma InInitOrLast<T>(s: seq<T>, y: T)
    requires s != []
    ensures y in s <==> y in s[..|s| - 1] || y == s[|s| - 1]
  {
    assert s == s[..|s| - 1] + [s[|s| - 1]];
  }
}
