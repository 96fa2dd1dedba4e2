/**
  The POSIX flavour of Python's `os.path` (the `posixpath` module) that the
  helper calls: `basename`, `dirname`, `join`, `normpath`, `abspath` and
  `relpath`. The working directory that `abspath` reads is a parameter.
*/
module PosixPath {
  import opened Wrappers
  import opened SeqFacts
  import opened StrOps

  predicate IsAbs(p: string) {
    StartsWith(p, "/")
  }

  /** `os.path.basename`: everything after the last `/`. */
  function Basename(p: string): (r: string)
    ensures '/' !in r
    ensures EndsWith(p, r)
    ensures r == p || p[|p| - |r| - 1] == '/'
  {
    p[RFind(p, '/') + 1..]
  }

  /**
    `os.path.dirname`: everything up to and including the last `/`, with the
    trailing slashes removed unless nothing but slashes is left.
  */
  function Dirname(p: string): (r: string)
    ensures StartsWith(p, r)
    ensures '/' !in p ==> r == ""
  {
    var head := p[..RFind(p, '/') + 1];
    if head != [] && !AllChar(head, '/') then RStrip(head, '/') else head
  }

  /** Two-argument `os.path.join`: an absolute `b` discards `a`. */
  function Join(a: string, b: string): (r: string)
    ensures EndsWith(r, b)
  {
    if IsAbs(b) then b
    else if a == [] || EndsWith(a, "/") then a + b
    else a + "/" + b
  }

  /** `os.path.join(*parts)`, folding the two-argument join from the left. */
  function JoinAll(parts: seq<string>): string
    requires |parts| >= 1
  {
    if |parts| == 1 then parts[0] else Join(JoinAll(parts[..|parts| - 1]), parts[|parts| - 1])
  }

  /** One step of `normpath`'s component loop. */
  function NormStep(acc: seq<string>, comp: string, rooted: bool): seq<string> {
    if comp == "" || comp == "." then acc
    else if comp != ".." || (!rooted && acc == []) || (acc != [] && acc[|acc| - 1] == "..") then acc + [comp]
    else if acc != [] then acc[..|acc| - 1]
    else acc
  }

  /** `normpath`'s component loop over `comps`, starting from `acc`. */
  function NormFold(comps: seq<string>, rooted: bool, acc: seq<string>): seq<string>
    decreases |comps|
  {
    if comps == [] then acc else NormFold(comps[1..], rooted, NormStep(acc, comps[0], rooted))
  }

  /** `normpath` keeps exactly two leading slashes, and folds three or more into one. */
  function LeadingSlashes(p: string): nat {
    if !IsAbs(p) then 0
    else if StartsWith(p, "//") && !StartsWith(p, "///") then 2
    else 1
  }

  /** `os.path.normpath`: drops empty and `.` components and resolves `..`. */
  function Normpath(p: string): (r: string)
    ensures r != ""
  {
    if p == "" then "."
    else
      var r := Repeat("/", LeadingSlashes(p)) + JoinWith(NormFold(Split(p, '/'), IsAbs(p), []), '/');
      if r == "" then "." else r
  }

  /** `os.path.abspath` relative to the working directory `cwd`. */
  function Abspath(cwd: string, p: string): (r: string)
    ensures IsAbs(cwd) || IsAbs(p) ==> IsAbs(r)
  {
    var q := if IsAbs(p) then p else Join(cwd, p);
    assert IsAbs(cwd) && !IsAbs(p) ==> q[..1] == cwd[..1];
    NormpathOfAbsolute(q);
    Normpath(q)
  }

  /** Normalising keeps a path absolute. */
  lemma {:induction false} NormpathOfAbsolute(p: string)
    ensures IsAbs(p) ==> IsAbs(Normpath(p))
  {
    if IsAbs(p) {
      var lead := Repeat("/", LeadingSlashes(p));
      var r := lead + JoinWith(NormFold(Split(p, '/'), IsAbs(p), []), '/');
      assert lead == "/" + Repeat("/", LeadingSlashes(p) - 1);
      assert r[..1] == "/";
    }
  }

  /** A slash-free path is its own last component. */
  lemma {:induction false} BasenameOfSlashFree(p: string)
    requires '/' !in p
    ensures Basename(p) == p
  {
    assert p[0..] == p;
  }

  /** The non-empty pieces of a list of components (`[x for x in parts if x]`). */
  function NonEmpty(parts: seq<string>): (r: seq<string>)
    ensures forall k :: 0 <= k < |r| ==> r[k] != ""
    ensures |r| <= |parts|
  {
    if parts == [] then []
    else if parts[0] == "" then NonEmpty(parts[1..])
    else [parts[0]] + NonEmpty(parts[1..])
  }

  /** `os.path.commonprefix` of two component lists, as a length. */
  function CommonPrefixLen(s: seq<string>, t: seq<string>): (n: nat)
    ensures n <= |s| && n <= |t| && s[..n] == t[..n]
    ensures n < |s| && n < |t| ==> s[n] != t[n]
  {
    if s == [] || t == [] || s[0] != t[0] then 0
    else
      var n := 1 + CommonPrefixLen(s[1..], t[1..]);
      assert s[..n] == [s[0]] + s[1..][..n - 1];
      assert t[..n] == [t[0]] + t[1..][..n - 1];
      n
  }

  /**
    `os.path.relpath(path, start)`: climb out of `start` with `..` and descend
    into the rest of `path`, component-wise after making both absolute.
    An empty `path` raises `ValueError`, modelled as `None`.
  */
  function Relpath(cwd: string, path: string, start: string): (r: Option<string>)
    ensures r.None? <==> path == ""
  {
    if path == "" then None
    else
      Some(RelComps(NonEmpty(Split(Abspath(cwd, start), '/')), NonEmpty(Split(Abspath(cwd, path), '/'))))
  }

  /** `relpath` on component lists: a `..` per component of `s` past the common prefix, then the rest of `t`. */
  function RelComps(s: seq<string>, t: seq<string>): string {
    var i := CommonPrefixLen(s, t);
    var rel := seq(|s| - i, _ => "..") + t[i..];
    if rel == [] then "." else JoinAll(rel)
  }

  // ---------------------------------------------------------------------
  // Facts about the functions above
  // ---------------------------------------------------------------------

  /** `rfind` is determined by its contract: the last index holding `c`. */
  lemma {:induction false} RFindUnique(s: string, c: char, r: int)
    requires -1 <= r < |s|
    requires r >= 0 ==> s[r] == c
    requires forall j :: r < j < |s| ==> s[j] != c
    ensures RFind(s, c) == r
  {
  }

  /** `rfind` over a concatenation looks in the right part first. */
  lemma {:induction false} RFindAppend(x: string, y: string, c: char)
    ensures RFind(x + y, c) == if RFind(y, c) >= 0 then |x| + RFind(y, c) else RFind(x, c)
  {
    var xy := x + y;
    var ry := RFind(y, c);
    if ry >= 0 {
      forall j | |x| + ry < j < |xy| ensures xy[j] != c {
        assert xy[j] == y[j - |x|];
      }
      assert xy[|x| + ry] == y[ry];
      RFindUnique(xy, c, |x| + ry);
    } else {
      var rx := RFind(x, c);
      forall j | rx < j < |xy| ensures xy[j] != c {
        if j < |x| {
          assert xy[j] == x[j];
        } else {
          assert xy[j] == y[j - |x|];
        }
      }
      assert rx >= 0 ==> xy[rx] == x[rx];
      RFindUnique(xy, c, rx);
    }
  }

  /** The last component of `x + b` is that of `b` when `x` is empty or ends in `/`. */
  lemma {:induction false} BasenameAfterSlash(x: string, b: string)
    requires x == [] || x[|x| - 1] == '/'
    ensures Basename(x + b) == Basename(b)
  {
    var xb := x + b;
    RFindAppend(x, b, '/');
    var rb := RFind(b, '/');
    var r := RFind(xb, '/');
    if rb >= 0 {
      assert r == |x| + rb;
      DropOfAppend(x, b, rb + 1);
    } else {
      if x != [] {
        RFindUnique(x, '/', |x| - 1);
      }
      assert r + 1 == |x|;
      AppendHalves(x, b);
    }
  }

  /** A last component is relative and has no directory part. */
  lemma {:induction false} BasenameIsRelative(p: string)
    ensures !IsAbs(Basename(p)) && Dirname(Basename(p)) == ""
  {
    var b := Basename(p);
    if b != [] {
      assert b[0] in b;
    }
  }

  /** A path is relative when its first character is not `/`. */
  lemma {:induction false} RelativeByHead(p: string)
    requires p != [] && p[0] != '/'
    ensures !IsAbs(p)
  {
    assert p[..1] == [p[0]];
  }

  /** A path without `/` is relative. */
  lemma {:induction false} SlashFreeIsRelative(p: string)
    requires '/' !in p
    ensures !IsAbs(p)
  {
    if p != [] {
      assert p[0] in p;
    }
  }

  /** The directory part of an absolute path is absolute. */
  lemma {:induction false} DirnameOfAbsolute(p: string)
    requires IsAbs(p)
    ensures IsAbs(Dirname(p))
  {
    assert p[0] == '/' by { assert p[..1][0] == p[0]; }
    var i := RFind(p, '/') + 1;
    var head := p[..i];
    assert head[0] == '/';
    if !AllChar(head, '/') {
      var r := RStrip(head, '/');
      assert head[0..] == head;
      assert r[..1] == head[..1];
    } else {
      assert head[..1] == [head[0]];
    }
  }

  /** Joining a relative path under `""` leaves it as it is. */
  lemma {:induction false} JoinUnderEmpty(b: string)
    requires !IsAbs(b)
    ensures Join("", b) == b
  {
    AppendEmptyLeft(b);
  }

  /** The last component of a join is the last component of its right argument. */
  lemma {:induction false} BasenameOfJoin(a: string, b: string)
    ensures Basename(Join(a, b)) == Basename(b)
  {
    if !IsAbs(b) {
      if a == [] || EndsWith(a, "/") {
        BasenameAfterSlash(a, b);
      } else {
        assert a + "/" + b == (a + "/") + b;
        BasenameAfterSlash(a + "/", b);
      }
    }
  }

  /** The shape every `dirname` result has: empty, all slashes, or not ending in `/`. */
  predicate DirShaped(d: string) {
    d == [] || AllChar(d, '/') || d[|d| - 1] != '/'
  }

  lemma {:induction false} DirnameIsDirShaped(p: string)
    ensures DirShaped(Dirname(p))
  {
  }

  /** Below a directory part `x` ending in `/`, the `dirname` of `x + n` is decided by `x` alone. */
  lemma {:induction false} DirnameAfterSlash(x: string, n: string)
    requires x != [] && x[|x| - 1] == '/'
    requires '/' !in n
    ensures Dirname(x + n) == if AllChar(x, '/') then x else RStrip(x, '/')
  {
    var xn := x + n;
    RFindAppend(x, n, '/');
    RFindUnique(x, '/', |x| - 1);
    assert RFind(xn, '/') + 1 == |x|;
    assert xn[..|x|] == x;
  }

  lemma {:induction false} DirnameJoinUnderSlashes(d: string, n: string)
    requires d != [] && AllChar(d, '/')
    requires n != "" && '/' !in n
    ensures Dirname(Join(d, n)) == d
  {
    assert !IsAbs(n) by { assert n[0] != '/'; }
    assert Join(d, n) == d + n;
    DirnameAfterSlash(d, n);
  }

  lemma {:induction false} DirnameJoinUnderName(d: string, n: string)
    requires d != [] && d[|d| - 1] != '/'
    requires n != "" && '/' !in n
    ensures Dirname(Join(d, n)) == d
  {
    assert !IsAbs(n) by { assert n[0] != '/'; }
    var x := d + "/";
    assert Join(d, n) == x + n;
    DirnameAfterSlash(x, n);
    assert !AllChar(x, '/') by { assert x[|d| - 1] != '/'; }
    assert x[..|x| - 1] == d;
    assert RStrip(x, '/') == RStrip(d, '/');
  }

  /** Joining a plain name under a directory puts exactly that name under exactly that directory. */
  lemma {:induction false} DirnameBasenameOfJoinName(d: string, n: string)
    requires DirShaped(d)
    requires n != "" && '/' !in n
    ensures Dirname(Join(d, n)) == d
    ensures Basename(Join(d, n)) == n
  {
    BasenameOfJoin(d, n);
    if d == [] {
      assert Join(d, n) == n by { assert n[0] != '/'; }
    } else if AllChar(d, '/') {
      DirnameJoinUnderSlashes(d, n);
    } else {
      DirnameJoinUnderName(d, n);
    }
  }

  /** `dirname` fixes exactly the all-slash paths and shortens every other path. */
  lemma {:induction false} DirnameShrinks(p: string)
    ensures AllChar(p, '/') ==> Dirname(p) == p
    ensures !AllChar(p, '/') ==> |Dirname(p)| < |p|
  {
    var i := RFind(p, '/') + 1;
    if AllChar(p, '/') && p != [] {
      assert p[|p| - 1] == '/';
      assert p[..i] == p;
    }
    if !AllChar(p, '/') && i == |p| {
      assert p[..i] == p;
      assert p[|p| - 1] == '/';
      RStripShortens(p, '/');
    }
  }

  /** Components that `normpath` keeps: non-empty and free of `/`. */
  predicate PlainComps(cs: seq<string>) {
    forall k :: 0 <= k < |cs| ==> cs[k] != "" && '/' !in cs[k]
  }

  lemma {:induction false} NormFoldPlain(comps: seq<string>, rooted: bool, acc: seq<string>)
    requires PlainComps(acc)
    requires forall k :: 0 <= k < |comps| ==> '/' !in comps[k]
    ensures PlainComps(NormFold(comps, rooted, acc))
    decreases |comps|
  {
    if comps != [] {
      var next := NormStep(acc, comps[0], rooted);
      assert PlainComps(next);
      NormFoldPlain(comps[1..], rooted, next);
    }
  }

  /** `normpath` never produces more than two leading slashes. */
  lemma {:induction false} NormpathNoTripleSlash(p: string)
    ensures !StartsWith(Normpath(p), "///")
  {
    if p != "" {
      var comps := NormFold(Split(p, '/'), IsAbs(p), []);
      NormFoldPlain(Split(p, '/'), IsAbs(p), []);
      var lead := Repeat("/", LeadingSlashes(p));
      var body := JoinWith(comps, '/');
      if comps != [] {
        JoinWithHead(comps, '/');
        assert body[0] != '/';
        var r := lead + body;
        assert r[|lead|] != '/';
        assert |lead| <= 2;
      }
    }
  }

  /** `normpath` leaves a plain relative name alone. */
  lemma {:induction false} NormpathOfName(s: string)
    requires s != "" && '/' !in s && s != "." && s != ".."
    ensures Normpath(s) == s
  {
    assert Split(s, '/') == [s];
    assert NormFold([s], false, []) == NormFold([], false, [s]);
  }

  /** A plain name directly under the root is already normal. */
  lemma {:induction false} NormpathOfTopLevel(s: string)
    requires s != "" && '/' !in s && s != "." && s != ".."
    ensures Normpath("/" + s) == "/" + s
  {
    var p := "/" + s;
    assert p[1..] == s;
    assert Split(s, '/') == [s];
    assert Split(p, '/') == [""] + [s];
    assert NormFold(["", s], true, []) == NormFold([s], true, []);
    assert NormFold([s], true, []) == NormFold([], true, [s]);
    assert !StartsWith(p, "//") by { assert p[1] == s[0]; assert s[0] in s; }
    assert Repeat("/", 1) == "/";
  }

  /**
    When the components of `abspath(start)` lead those of `abspath(path)`,
    `relpath` is the remaining components joined, or `.` when none remain.
  */
  lemma {:induction false} RelpathUnderStart(cwd: string, path: string, start: string)
    requires path != ""
    requires var s := NonEmpty(Split(Abspath(cwd, start), '/'));
             var t := NonEmpty(Split(Abspath(cwd, path), '/'));
             |s| <= |t| && t[..|s|] == s
    ensures var s := NonEmpty(Split(Abspath(cwd, start), '/'));
            var t := NonEmpty(Split(Abspath(cwd, path), '/'));
            Relpath(cwd, path, start) == Some(if |s| == |t| then "." else JoinAll(t[|s|..]))
  {
    RelCompsLeading(NonEmpty(Split(Abspath(cwd, start), '/')), NonEmpty(Split(Abspath(cwd, path), '/')));
  }

  /** When `s` leads `t`, no `..` is needed and the rest of `t` is the result. */
  lemma {:induction false} RelCompsLeading(s: seq<string>, t: seq<string>)
    requires |s| <= |t| && t[..|s|] == s
    ensures RelComps(s, t) == if |s| == |t| then "." else JoinAll(t[|s|..])
  {
    var i := CommonPrefixLen(s, t);
    CommonPrefixOfLeading(s, t);
    AppendEmptyLeft(t[|s|..]);
    assert seq(|s| - i, _ => "..") == [];
  }

  /** A list that leads another is their whole common prefix. */
  lemma {:induction false} CommonPrefixOfLeading(s: seq<string>, t: seq<string>)
    requires |s| <= |t| && t[..|s|] == s
    ensures CommonPrefixLen(s, t) == |s|
    decreases |s|
  {
    if s != [] {
      assert s[0] == t[..|s|][0];
      assert t[1..][..|s| - 1] == s[1..];
      CommonPrefixOfLeading(s[1..], t[1..]);
    }
  }

  // ---------------------------------------------------------------------
  // Component algebra: `split`, `join` and `normpath` on paths without
  // `.` or `..` components
  // ---------------------------------------------------------------------

  /** No component is `.` or `..`. */
  predicate NoDots(cs: seq<string>) {
    forall k :: 0 <= k < |cs| ==> cs[k] != "." && cs[k] != ".."
  }

  /** No component contains `/`. */
  predicate SlashFree(cs: seq<string>) {
    forall k :: 0 <= k < |cs| ==> '/' !in cs[k]
  }

  lemma {:induction false} FindUnique(s: string, c: char, r: int)
    requires -1 <= r < |s|
    requires r >= 0 ==> s[r] == c
    requires forall j :: 0 <= j < |s| && (r < 0 || j < r) ==> s[j] != c
    ensures Find(s, c) == r
  {
  }

  /** The first `/` of `x + "/" + y` is the first of `x`, or the one added. */
  lemma {:induction false} FindAcross(x: string, y: string)
    ensures Find(x + "/" + y, '/') == if Find(x, '/') >= 0 then Find(x, '/') else |x|
  {
    var s := x + "/" + y;
    var fx := Find(x, '/');
    var r := if fx >= 0 then fx else |x|;
    forall j | 0 <= j < r ensures s[j] != '/' {
      assert s[j] == x[j];
    }
    assert s[r] == '/' by {
      if fx >= 0 { assert s[fx] == x[fx]; }
    }
    FindUnique(s, '/', r);
  }

  /** Splitting on `/` turns an inserted `/` into a component boundary. */
  lemma {:induction false} SplitAcross(x: string, y: string)
    ensures Split(x + "/" + y, '/') == Split(x, '/') + Split(y, '/')
    decreases |x|
  {
    var i := Find(x, '/');
    if i >= 0 {
      SplitAcross(x[i + 1..], y);
      SplitBeforeFirstSlash(x, y, i);
    } else {
      SplitAtFirstSlash(x, y);
    }
  }

  /** When the first `/` of `x` is at `i`, the split goes on from the rest of `x`. */
  lemma {:induction false} SplitBeforeFirstSlash(x: string, y: string, i: int)
    requires 0 <= i < |x| && Find(x, '/') == i
    requires Split(x[i + 1..] + "/" + y, '/') == Split(x[i + 1..], '/') + Split(y, '/')
    ensures Split(x + "/" + y, '/') == Split(x, '/') + Split(y, '/')
  {
    var s := x + "/" + y;
    FindAcross(x, y);
    CutBeforeSeparator(s, x, '/', y, i);
    assert Split(s, '/') == [x[..i]] + Split(x[i + 1..] + "/" + y, '/');
    AppendAssoc([x[..i]], Split(x[i + 1..], '/'), Split(y, '/'));
  }

  /** When `x` has no `/`, the one added is the first boundary of the split. */
  lemma {:induction false} SplitAtFirstSlash(x: string, y: string)
    requires Find(x, '/') < 0
    ensures Split(x + "/" + y, '/') == [x] + Split(y, '/')
  {
    var s := x + "/" + y;
    FindAcross(x, y);
    CutAtSeparator(s, x, '/', y);
  }

  /** `split` undoes a `join` of slash-free components. */
  lemma {:induction false} SplitJoinWith(cs: seq<string>)
    requires |cs| >= 1 && SlashFree(cs)
    ensures Split(JoinWith(cs, '/'), '/') == cs
    decreases |cs|
  {
    assert Find(cs[0], '/') < 0;
    if |cs| > 1 {
      SplitAcross(cs[0], JoinWith(cs[1..], '/'));
      SplitJoinWith(cs[1..]);
    }
  }

  /** `join` undoes a `split`. */
  lemma {:induction false} JoinWithSplit(s: string)
    ensures JoinWith(Split(s, '/'), '/') == s
    decreases |s|
  {
    var i := Find(s, '/');
    if i >= 0 {
      var rest := s[i + 1..];
      assert Split(s, '/') == [s[..i]] + Split(rest, '/');
      JoinWithSplit(rest);
      JoinWithCons(s[..i], Split(rest, '/'), '/');
      AroundIndex(s, i);
    } else {
      assert Split(s, '/') == [s];
    }
  }

  lemma {:induction false} NonEmptyAppend(a: seq<string>, b: seq<string>)
    ensures NonEmpty(a + b) == NonEmpty(a) + NonEmpty(b)
    decreases |a|
  {
    if a != [] {
      TailOfAppend(a, b);
      NonEmptyAppend(a[1..], b);
    } else {
      AppendEmptyLeft(b);
    }
  }

  /** Without `.` and `..`, `normpath`'s loop only drops the empty components. */
  lemma {:induction false} NormFoldNoDots(cs: seq<string>, rooted: bool, acc: seq<string>)
    requires NoDots(cs)
    ensures NormFold(cs, rooted, acc) == acc + NonEmpty(cs)
    decreases |cs|
  {
    if cs != [] {
      NormFoldNoDots(cs[1..], rooted, NormStep(acc, cs[0], rooted));
    }
  }

  /** The components `relpath` compares (`[x for x in p.split('/') if x]`). */
  function Segments(p: string): seq<string> {
    NonEmpty(Split(p, '/'))
  }

  /** The components of a run of one or more slashes are all empty. */
  lemma {:induction false} SegmentsOfSlashes(n: nat, body: string)
    ensures Segments(Repeat("/", n) + body) == Segments(body)
    decreases n
  {
    if n > 0 {
      assert Repeat("/", n) + body == "" + "/" + (Repeat("/", n - 1) + body);
      SplitAcross("", Repeat("/", n - 1) + body);
      SegmentsOfSlashes(n - 1, body);
    } else {
      assert Repeat("/", n) + body == body;
    }
  }

  /** For an absolute path without `.` or `..`, `normpath` keeps the non-empty components. */
  lemma {:induction false} SegmentsOfNormpath(x: string)
    requires IsAbs(x) && NoDots(Split(x, '/'))
    ensures Segments(Normpath(x)) == Segments(x)
  {
    var f := NormFold(Split(x, '/'), true, []);
    NormFoldNoDots(Split(x, '/'), true, []);
    NormFoldPlain(Split(x, '/'), true, []);
    assert f == NonEmpty(Split(x, '/'));
    var n := LeadingSlashes(x);
    assert n >= 1;
    SegmentsOfSlashes(n, JoinWith(f, '/'));
    if f == [] {
      assert Split("", '/') == [""];
    } else {
      SplitJoinWith(f);
      assert NonEmpty(f) == f by { NonEmptyOfPlain(f); }
    }
  }

  lemma {:induction false} NonEmptyOfPlain(cs: seq<string>)
    requires forall k :: 0 <= k < |cs| ==> cs[k] != ""
    ensures NonEmpty(cs) == cs
    decreases |cs|
  {
    if cs != [] {
      NonEmptyOfPlain(cs[1..]);
    }
  }

  /**
    `abspath` of a relative path without `.` or `..`, against an absolute
    working directory without them: the directory's components, then the path's.
  */
  lemma {:induction false} SegmentsOfAbspath(cwd: string, p: string)
    requires IsAbs(cwd) && NoDots(Split(cwd, '/'))
    requires !IsAbs(p) && NoDots(Split(p, '/'))
    ensures Segments(Abspath(cwd, p)) == Segments(cwd) + Segments(p)
  {
    var c := if EndsWith(cwd, "/") then cwd[..|cwd| - 1] else cwd;
    var j := c + "/" + p;
    AbspathOfRelative(cwd, p, c, j);
    SplitAcross(c, p);
    DropTrailingSlash(cwd);
    NoDotsAppend(Split(c, '/'), Split(p, '/'));
    SegmentsOfNormpath(j);
    NonEmptyAppend(Split(c, '/'), Split(p, '/'));
  }

  /** A relative path against an absolute directory is normalised below it. */
  lemma {:induction false} AbspathOfRelative(cwd: string, p: string, c: string, j: string)
    requires IsAbs(cwd) && !IsAbs(p)
    requires c == (if EndsWith(cwd, "/") then cwd[..|cwd| - 1] else cwd) && j == c + "/" + p
    ensures IsAbs(j) && Abspath(cwd, p) == Normpath(j)
  {
    JoinOfRelative(cwd, p);
    assert Join(cwd, p) == j;
    assert j[0] == cwd[0];
  }

  /** A directory without its trailing `/` has the same components. */
  lemma {:induction false} DropTrailingSlash(cwd: string)
    requires NoDots(Split(cwd, '/'))
    ensures var c := if EndsWith(cwd, "/") then cwd[..|cwd| - 1] else cwd;
            Segments(cwd) == Segments(c) && NoDots(Split(c, '/'))
  {
    if EndsWith(cwd, "/") {
      var c := cwd[..|cwd| - 1];
      assert cwd == c + "/";
      TrailingSlashSegments(c);
      var sc := Split(c, '/');
      assert Split(cwd, '/') == sc + [""];
      forall k | 0 <= k < |sc| ensures sc[k] != "." && sc[k] != ".." {
        assert sc[k] == Split(cwd, '/')[k];
      }
    }
  }

  lemma {:induction false} NoDotsAppend(a: seq<string>, b: seq<string>)
    requires NoDots(a) && NoDots(b)
    ensures NoDots(a + b)
  {
    forall k | 0 <= k < |a + b| ensures (a + b)[k] != "." && (a + b)[k] != ".." {
      if k < |a| {
        assert (a + b)[k] == a[k];
      } else {
        assert (a + b)[k] == b[k - |a|];
      }
    }
  }

  /** Joining a relative path under a non-empty directory inserts exactly one `/`. */
  lemma {:induction false} JoinOfRelative(cwd: string, p: string)
    requires cwd != [] && !IsAbs(p)
    ensures Join(cwd, p) == (if EndsWith(cwd, "/") then cwd[..|cwd| - 1] else cwd) + "/" + p
  {
    if EndsWith(cwd, "/") {
      assert cwd == cwd[..|cwd| - 1] + "/";
    }
  }

  /** A trailing `/` adds one empty component. */
  lemma {:induction false} TrailingSlashSegments(c: string)
    ensures Split(c + "/", '/') == Split(c, '/') + [""]
    ensures Segments(c + "/") == Segments(c)
  {
    assert c + "/" == c + "/" + "";
    SplitAcross(c, "");
    assert Split("", '/') == [""];
    NonEmptyAppend(Split(c, '/'), [""]);
    assert NonEmpty([""]) == [];
  }

  /** Joining a parent with a slash-free name that is not empty. */
  lemma {:induction false} JoinWithSnoc(cs: seq<string>, n: string)
    requires |cs| >= 1
    ensures JoinWith(cs + [n], '/') == JoinWith(cs, '/') + "/" + n
    decreases |cs|
  {
    var t := cs + [n];
    TailOfAppend(cs, [n]);
    if |cs| > 1 {
      JoinWithSnoc(cs[1..], n);
      var h, j := cs[0] + "/", JoinWith(cs[1..], '/');
      assert JoinWith(t, '/') == h + (j + "/" + n);
      AppendAssoc(j, "/", n);
      AppendAssoc(h, j, "/" + n);
      AppendAssoc(h + j, "/", n);
    } else {
      assert t[1..] == [n];
    }
  }

  /** `os.path.join(*parts)` of non-empty slash-free parts is `'/'.join(parts)`. */
  lemma {:induction false} JoinAllPlain(parts: seq<string>)
    requires |parts| >= 1 && PlainComps(parts)
    ensures JoinAll(parts) == JoinWith(parts, '/')
    decreases |parts|
  {
    if |parts| > 1 {
      var init := parts[..|parts| - 1];
      var last := parts[|parts| - 1];
      JoinAllPlain(init);
      JoinWithSnoc(init, last);
      assert init + [last] == parts;
      JoinWithHead(init, '/');
      var j := JoinWith(init, '/');
      assert !IsAbs(last) by { assert last[0] != '/'; }
      assert j != [] && !EndsWith(j, "/") by {
        assert j[|j| - 1] != '/' by { JoinWithLast(init); }
      }
    }
  }

  /** A join of non-empty slash-free parts ends with the last part's last character. */
  lemma {:induction false} JoinWithLast(cs: seq<string>)
    requires |cs| >= 1 && PlainComps(cs)
    ensures JoinWith(cs, '/') != []
    ensures JoinWith(cs, '/')[|JoinWith(cs, '/')| - 1] == cs[|cs| - 1][|cs[|cs| - 1]| - 1]
    decreases |cs|
  {
    if |cs| > 1 {
      JoinWithLast(cs[1..]);
    }
  }

  /**
    `relpath` of a key below a prefix: when, after making both absolute, the
    prefix's components lead the key's, the result is the key's remaining
    components joined with `/`, or `.` when none remain.
  */
  lemma {:induction false} RelpathBelowPrefix(cwd: string, key: string, prefix: string)
    requires IsAbs(cwd) && NoDots(Split(cwd, '/'))
    requires key != "" && !IsAbs(key) && NoDots(Split(key, '/'))
    requires !IsAbs(prefix) && NoDots(Split(prefix, '/'))
    requires |Segments(prefix)| <= |Segments(key)|
    requires Segments(key)[..|Segments(prefix)|] == Segments(prefix)
    ensures var rest := Segments(key)[|Segments(prefix)|..];
            Relpath(cwd, key, prefix) == Some(if rest == [] then "." else JoinWith(rest, '/'))
  {
    AbsoluteSegmentsBelow(cwd, key, prefix);
    RelpathUnderStart(cwd, key, prefix);
    var rest := Segments(key)[|Segments(prefix)|..];
    if rest != [] {
      SegmentsSlashFree(key);
      PlainCompsDrop(Segments(key), |Segments(prefix)|);
      JoinAllPlain(rest);
    }
  }

  /** Made absolute against the same directory, a prefix's components still lead the key's. */
  lemma {:induction false} AbsoluteSegmentsBelow(cwd: string, key: string, prefix: string)
    requires IsAbs(cwd) && NoDots(Split(cwd, '/'))
    requires !IsAbs(key) && NoDots(Split(key, '/'))
    requires !IsAbs(prefix) && NoDots(Split(prefix, '/'))
    requires IsPrefix(Segments(prefix), Segments(key))
    ensures var s := Segments(Abspath(cwd, prefix));
            var t := Segments(Abspath(cwd, key));
            IsPrefix(s, t) && t[|s|..] == Segments(key)[|Segments(prefix)|..]
  {
    var sp, sk, sc := Segments(prefix), Segments(key), Segments(cwd);
    SegmentsOfAbspath(cwd, key);
    SegmentsOfAbspath(cwd, prefix);
    var s := Segments(Abspath(cwd, prefix));
    var t := Segments(Abspath(cwd, key));
    PrefixOfEqualAppend(s, t, sc, sp, sk);
    DropOfEqualAppend(t, sc, sk, |sp|, |s|);
  }

  lemma {:induction false} PlainCompsDrop(cs: seq<string>, i: int)
    requires PlainComps(cs) && 0 <= i <= |cs|
    ensures PlainComps(cs[i..])
  {
    forall k | 0 <= k < |cs[i..]| ensures cs[i..][k] != "" && '/' !in cs[i..][k] {
      assert cs[i..][k] == cs[i + k];
    }
  }

  lemma {:induction false} SegmentsSlashFree(p: string)
    ensures PlainComps(Segments(p))
  {
    NonEmptySlashFree(Split(p, '/'));
  }

  lemma {:induction false} NonEmptySlashFree(cs: seq<string>)
    requires SlashFree(cs)
    ensures PlainComps(NonEmpty(cs))
    decreases |cs|
  {
    if cs != [] {
      NonEmptySlashFree(cs[1..]);
    }
  }

  /**
    The common case: a key spelled `prefix/rest`, where neither part has an
    empty, `.` or `..` component, is at `rest` relative to the prefix.
  */
  lemma {:induction false} RelpathOfPrefixedKey(cwd: string, prefix: string, rest: string)
    requires IsAbs(cwd) && NoDots(Split(cwd, '/'))
    requires Clean(Split(prefix, '/')) && Clean(Split(rest, '/'))
    ensures Relpath(cwd, prefix + "/" + rest, prefix) == Some(rest)
  {
    var key := prefix + "/" + rest;
    PrefixedKeySegments(prefix, rest);
    RelpathBelowPrefix(cwd, key, prefix);
    JoinWithSplit(rest);
  }

  /** The components of `prefix/rest` are those of `prefix` followed by those of `rest`. */
  lemma {:induction false} PrefixedKeySegments(prefix: string, rest: string)
    requires Clean(Split(prefix, '/')) && Clean(Split(rest, '/'))
    ensures var key := prefix + "/" + rest;
            && key != "" && !IsAbs(key) && NoDots(Split(key, '/'))
            && !IsAbs(prefix) && NoDots(Split(prefix, '/'))
            && IsPrefix(Segments(prefix), Segments(key))
            && Segments(key)[|Segments(prefix)|..] == Split(rest, '/')
  {
    var key := prefix + "/" + rest;
    var p := Split(prefix, '/');
    var r := Split(rest, '/');
    SplitAcross(prefix, rest);
    CleanSegments(prefix);
    CleanSegments(rest);
    NonEmptyAppend(p, r);
    HalvesOfEqualAppend(Segments(key), Segments(prefix), p, r, |Segments(prefix)|);
    NoDotsAppend(p, r);
    CleanHead(prefix);
    RelativeByHead(prefix);
    assert key[0] == prefix[0];
    RelativeByHead(key);
  }

  /** The components of a clean path are the pieces of its `split`. */
  lemma {:induction false} CleanSegments(p: string)
    requires Clean(Split(p, '/'))
    ensures Segments(p) == Split(p, '/') && NoDots(Split(p, '/'))
  {
    NonEmptyOfPlain(Split(p, '/'));
  }

  /** Components that are non-empty and neither `.` nor `..`. */
  predicate Clean(cs: seq<string>) {
    forall k :: 0 <= k < |cs| ==> cs[k] != "" && cs[k] != "." && cs[k] != ".."
  }

  /** A path whose components are clean does not start with `/`. */
  lemma {:induction false} CleanHead(p: string)
    requires Clean(Split(p, '/'))
    ensures p != [] && p[0] != '/'
  {
    var i := Find(p, '/');
    assert Split(p, '/')[0] != "";
  }
}
