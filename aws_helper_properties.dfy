/**
  What the helper's key and path mappings and its transfer loops promise:
  how far `get_base_directory` can climb, which key an uploaded file gets,
  where a downloaded object lands, and how the folder loops stop.
*/
module AwsHelperProperties {
  import opened Wrappers
  import opened SeqFacts
  import opened StrOps
  import opened PosixPath
  import opened Effects
  import opened AwsHelper

  // ---------------------------------------------------------------------
  // get_base_directory
  // ---------------------------------------------------------------------

  /** Every level `get_base_directory` climbs to is a prefix of the normalised path. */
  lemma {:induction false} BaseDirectoryIsPrefix(p: string, n: nat)
    ensures StartsWith(p, DirnameN(p, n))
  {
    if n > 0 {
      BaseDirectoryIsPrefix(p, n - 1);
      var q := DirnameN(p, n - 1);
      var d := Dirname(q);
      TakeTake(p, |d|, |q|);
    }
  }

  /** Level `n` is a run of slashes or at least `n` characters shorter than the path. */
  lemma {:induction false} BaseDirectoryShrinks(p: string, n: nat)
    ensures AllChar(DirnameN(p, n), '/') || |DirnameN(p, n)| + n <= |p|
  {
    if n > 0 {
      BaseDirectoryShrinks(p, n - 1);
      DirnameShrinks(DirnameN(p, n - 1));
    }
  }

  /** A path that starts with a run of three or more slashes starts with `///`. */
  lemma {:induction false} SlashRunStart(p: string, run: string)
    requires StartsWith(p, run) && AllChar(run, '/')
    ensures |run| >= 3 ==> StartsWith(p, "///")
  {
    if |run| >= 3 {
      assert p[..3] == run[..3];
    }
  }

  /**
    Climbing at least as many levels as the normalised path has characters
    ends at `""`, `"/"` or `"//"`, which `dirname` leaves as they are.
  */
  lemma {:induction false} BaseDirectoryBottomsOut(path: string, n: nat)
    requires n >= |Normpath(path)|
    ensures var top := DirnameN(Normpath(path), n);
            AllChar(top, '/') && |top| <= 2 && Dirname(top) == top
  {
    var np := Normpath(path);
    var top := DirnameN(np, n);
    BaseDirectoryShrinks(np, n);
    BaseDirectoryIsPrefix(np, n);
    NormpathNoTripleSlash(path);
    SlashRunStart(np, top);
    DirnameShrinks(top);
  }

  /**
    A folder given as a bare name has the empty string as its base
    directory, the value `upload_folder_to_s3` then cuts out of every path.
  */
  lemma {:induction false} BaseDirectoryOfBareName(name: string)
    requires name != "" && '/' !in name && name != "." && name != ".."
    ensures DirnameN(Normpath(name), 1) == ""
  {
    NormpathOfName(name);
  }

  // ---------------------------------------------------------------------
  // replace_filename_with_new
  // ---------------------------------------------------------------------

  /** Renaming to a plain name twice is renaming once. */
  lemma {:induction false} ReplaceFilenameIdempotent(path: string, name: string)
    requires name != "" && '/' !in name
    ensures ReplaceFilenameWithNew(ReplaceFilenameWithNew(path, name), name) == ReplaceFilenameWithNew(path, name)
  {
    var once := ReplaceFilenameWithNew(path, name);
    assert Dirname(once) == Dirname(path);
  }

  // ---------------------------------------------------------------------
  // upload_file_to_s3
  // ---------------------------------------------------------------------

  /** `a + "/" + b` carries the backslashes of `a` and `b` only. */
  lemma {:induction false} NoBackslashAcross(a: string, b: string)
    requires '\\' !in a && '\\' !in b
    ensures '\\' !in a + b && '\\' !in a + "/" + b
  {
    assert forall j :: 0 <= j < |a + b| ==> (a + b)[j] == (if j < |a| then a[j] else b[j - |a|]);
  }

  /** Joining two paths free of backslashes gives a path free of backslashes. */
  lemma {:induction false} JoinNoBackslash(a: string, b: string)
    requires '\\' !in a && '\\' !in b
    ensures '\\' !in Join(a, b)
  {
    NoBackslashAcross(a, b);
  }

  /** `prefix` the way a two-argument join puts it in front of a relative name. */
  function Under(prefix: string): string {
    if prefix == "" || EndsWith(prefix, "/") then prefix else prefix + "/"
  }

  lemma {:induction false} JoinRelative(prefix: string, b: string)
    requires !IsAbs(b)
    ensures Join(prefix, b) == Under(prefix) + b
  {
  }

  /**
    Without `use_whole_path` and without `object_name`, the object goes under
    the prefix with the file's last path component as its name.
  */
  lemma {:induction false} UploadKeyFlat(fileName: string, s3Prefix: string)
    requires '\\' !in fileName && '\\' !in s3Prefix
    ensures UploadKey(fileName, s3Prefix, None, false) == Under(s3Prefix) + Basename(fileName)
  {
    var b := Basename(fileName);
    BasenameNoBackslash(fileName);
    BasenameIsRelative(fileName);
    JoinRelative(s3Prefix, b);
    JoinNoBackslash(s3Prefix, b);
  }

  /**
    With an `object_name` and without `use_whole_path`, the object takes the
    last component of that name under the prefix, whatever directories
    `file_name` has; a plain `object_name` is its own last component.
  */
  lemma {:induction false} UploadKeyRenamed(fileName: string, s3Prefix: string, objectName: string)
    requires '\\' !in objectName && '\\' !in s3Prefix
    ensures UploadKey(fileName, s3Prefix, Some(objectName), false) == Under(s3Prefix) + Basename(objectName)
  {
    var b := Basename(objectName);
    assert ReplaceFilenameWithNew(fileName, objectName) == Join(Dirname(fileName), objectName);
    BasenameOfJoin(Dirname(fileName), objectName);
    BasenameNoBackslash(objectName);
    BasenameIsRelative(objectName);
    JoinRelative(s3Prefix, b);
    JoinNoBackslash(s3Prefix, b);
  }

  /** The last component of a path free of backslashes is free of them. */
  lemma {:induction false} BasenameNoBackslash(p: string)
    requires '\\' !in p
    ensures '\\' !in Basename(p)
  {
    var b := Basename(p);
    assert p[|p| - |b|..] == b;
    NotInDrop(p, |p| - |b|, '\\');
  }

  /**
    With `use_whole_path`, an absolute `file_name` discards the prefix: the
    key is the whole path, leading slash included, after the backslash
    rewrite, since the join is with an absolute path.
  */
  lemma {:induction false} UploadKeyWholePathAbsolute(fileName: string, s3Prefix: string)
    requires IsAbs(fileName)
    ensures UploadKey(fileName, s3Prefix, None, true) == S3Key(fileName)
  {
  }

  /** With `use_whole_path` and a relative `file_name`, the whole path goes under the prefix. */
  lemma {:induction false} UploadKeyWholePathRelative(fileName: string, s3Prefix: string)
    requires !IsAbs(fileName) && '\\' !in fileName && '\\' !in s3Prefix
    ensures UploadKey(fileName, s3Prefix, None, true) == Under(s3Prefix) + fileName
  {
    JoinRelative(s3Prefix, fileName);
    JoinNoBackslash(s3Prefix, fileName);
  }

  /**
    With both an `object_name` and `use_whole_path`, a relative `file_name`
    and a relative `object_name` give the renamed path, directories of
    `file_name` kept, under the prefix.
  */
  lemma {:induction false} UploadKeyRenamedWholePath(fileName: string, s3Prefix: string, objectName: string)
    requires !IsAbs(fileName) && !IsAbs(objectName)
    requires '\\' !in fileName && '\\' !in objectName && '\\' !in s3Prefix
    ensures UploadKey(fileName, s3Prefix, Some(objectName), true)
            == Under(s3Prefix) + ReplaceFilenameWithNew(fileName, objectName)
  {
    var d := Dirname(fileName);
    var name := ReplaceFilenameWithNew(fileName, objectName);
    assert name == Join(d, objectName);
    DirnameOfRelative(fileName);
    JoinRelative(d, objectName);
    JoinNoBackslash(d, objectName);
    if d != [] {
      RelativeByHead(Under(d) + objectName);
    }
    JoinRelative(s3Prefix, name);
    JoinNoBackslash(s3Prefix, name);
  }

  /**
    With both an `object_name` and `use_whole_path`, a renamed path that is
    absolute discards the prefix; an absolute `object_name` also discards the
    directories of `file_name`.
  */
  lemma {:induction false} UploadKeyRenamedWholePathAbsolute(fileName: string, s3Prefix: string, objectName: string)
    requires IsAbs(fileName) || IsAbs(objectName)
    ensures UploadKey(fileName, s3Prefix, Some(objectName), true)
            == S3Key(ReplaceFilenameWithNew(fileName, objectName))
    ensures IsAbs(objectName) ==> UploadKey(fileName, s3Prefix, Some(objectName), true) == S3Key(objectName)
  {
    var d := Dirname(fileName);
    assert ReplaceFilenameWithNew(fileName, objectName) == Join(d, objectName);
    if !IsAbs(objectName) {
      DirnameOfAbsolute(fileName);
      JoinRelative(d, objectName);
      assert (Under(d) + objectName)[..1] == d[..1];
    }
  }

  /** The directory part of a relative path free of backslashes is relative and free of them. */
  lemma {:induction false} DirnameOfRelative(p: string)
    requires !IsAbs(p) && '\\' !in p
    ensures !IsAbs(Dirname(p)) && '\\' !in Dirname(p)
  {
    var d := Dirname(p);
    assert p[..|d|] == d;
    assert forall j :: 0 <= j < |d| ==> d[j] == p[j];
    if d != [] {
      assert p[..1] == [p[0]];
      RelativeByHead(d);
    }
  }

  /** Every backslash of a key, not only the first, becomes a slash. */
  lemma {:induction false} S3KeyAcrossBackslash(a: string, b: string)
    ensures S3Key(a + "\\" + b) == S3Key(a) + "/" + S3Key(b)
  {
    ReplaceCharAppend(a + "\\", b, '\\', "/");
    ReplaceCharAppend(a, "\\", '\\', "/");
    assert ReplaceAll("\\", "\\", "/") == "/";
  }

  // ---------------------------------------------------------------------
  // upload_folder_to_s3
  // ---------------------------------------------------------------------

  /** A path that does not start with `/` is left alone by `lstrip('/')`. */
  lemma {:induction false} LStripNoLeadingSlash(p: string)
    requires p == [] || p[0] != '/'
    ensures LStrip(p, '/') == p
  {
  }

  /**
    A folder given as a bare name keeps that name in every key: its base
    directory is `""`, and replacing `""` by `""` leaves a path unchanged, so
    the walked path itself (which starts with the folder's name) goes under
    the prefix.
  */
  lemma {:induction false} BareFolderKeepsName(folderName: string, s3Prefix: string, filePath: string)
    requires folderName != "" && '/' !in folderName && folderName != "." && folderName != ".."
    requires filePath != [] && filePath[0] != '/'
    requires '\\' !in filePath && '\\' !in s3Prefix
    ensures FolderKey(DirnameN(Normpath(folderName), 1), s3Prefix, false, filePath) == Under(s3Prefix) + filePath
  {
    BaseDirectoryOfBareName(folderName);
    ReplaceEmptyByEmpty(filePath);
    LStripNoLeadingSlash(filePath);
    JoinRelative(s3Prefix, filePath);
    JoinNoBackslash(s3Prefix, filePath);
  }

  /** Under an empty prefix, a walked file's key is its stored path with backslashes made slashes. */
  lemma {:induction false} FolderKeyEmptyPrefix(rootFolderName: string, useWholePath: bool, filePath: string)
    ensures FolderKey(rootFolderName, "", useWholePath, filePath)
            == S3Key(FolderRelativePath(rootFolderName, filePath, useWholePath))
  {
    var r := FolderRelativePath(rootFolderName, filePath, useWholePath);
    if r != [] {
      RelativeByHead(r);
    }
    JoinUnderEmpty(r);
  }

  /**
    A walked path of the form `<base>/<rest>`, where the base directory does
    not occur again, is stored as `<rest>` under the prefix: the folder's
    parent directories are cut off and its own name is kept.
  */
  lemma {:induction false} FolderKeyBelowBase(base: string, s3Prefix: string, rest: string)
    requires base != []
    requires forall i :: 0 <= i <= |"/" + rest| - |base| ==> !OccursAt("/" + rest, base, i)
    requires rest != [] && rest[0] != '/'
    requires '\\' !in rest && '\\' !in s3Prefix
    ensures FolderKey(base, s3Prefix, false, base + "/" + rest) == Under(s3Prefix) + rest
  {
    RelativeBelowBase(base, rest);
    JoinRelative(s3Prefix, rest);
    JoinNoBackslash(s3Prefix, rest);
  }

  lemma {:induction false} RelativeBelowBase(base: string, rest: string)
    requires base != []
    requires forall i :: 0 <= i <= |"/" + rest| - |base| ==> !OccursAt("/" + rest, base, i)
    requires rest != [] && rest[0] != '/'
    ensures FolderRelativePath(base, base + "/" + rest, false) == rest
  {
    CutLeadingBase(base, rest);
    assert LStrip("/" + rest, '/') == LStrip(rest, '/');
    LStripNoLeadingSlash(rest);
  }

  lemma {:induction false} CutLeadingBase(base: string, rest: string)
    requires base != []
    requires forall i :: 0 <= i <= |"/" + rest| - |base| ==> !OccursAt("/" + rest, base, i)
    ensures ReplaceAll(base + "/" + rest, base, "") == "/" + rest
  {
    AppendAssoc(base, "/", rest);
    ReplaceLeading(base, "/" + rest, "");
    ReplaceAbsent("/" + rest, base, "");
    AppendEmptyLeft("/" + rest);
  }

  /**
    The base directory is cut out wherever it occurs, not only at the start:
    with base directory `a`, the walked path `a/ba` is stored as `b`.
  */
  lemma {:induction false} FolderKeyCutsEveryOccurrence()
    ensures FolderRelativePath("a", "a/ba", false) == "b"
  {
    CutAOutOfABA();
    assert LStrip("/b", '/') == "b";
  }
  /** A top-level folder `/<name>` has the root `/` as its base directory. */
  lemma {:induction false} TopLevelFolderBase(name: string)
    requires name != "" && '/' !in name && name != "." && name != ".."
    ensures DirnameN(Normpath("/" + name), 1) == "/"
  {
    var p := "/" + name;
    NormpathOfTopLevel(name);
    assert forall j :: 0 < j < |p| ==> p[j] == name[j - 1];
    RFindUnique(p, '/', 0);
    assert p[..1] == "/";
  }

  /**
    A one-character base directory is cut out of every name, not only out of
    the directories it heads: with base `/` (a top-level folder) the stored
    path has no `/` left, and with base `a` no name keeps its letter `a`.
  */
  lemma {:induction false} FolderKeySingleCharBase(c: char, filePath: string)
    ensures c !in FolderRelativePath([c], filePath, false)
  {
    var t := ReplaceAll(filePath, [c], "");
    ReplaceCharRemoves(filePath, c, "");
    var r := LStrip(t, '/');
    NotInDrop(t, |t| - |r|, c);
  }


  lemma {:induction false} CutAOutOfABA()
    ensures ReplaceAll("a/ba", "a", "") == "/b"
  {
    ReplaceLeading("a", "/ba", "");
    CutAOutOfSlashBA();
    assert "a/ba" == "a" + "/ba";
  }

  lemma {:induction false} CutAOutOfSlashBA()
    ensures ReplaceAll("/ba", "a", "") == "/b"
  {
    ReplaceSkip('/', "ba", "a", "");
    ReplaceSkip('b', "a", "a", "");
    ReplaceLeading("a", "", "");
  }

  /** The number of files a walk lists. */
  function FileCount(walk: seq<WalkEntry>): nat {
    if walk == [] then 0 else FileCount(walk[..|walk| - 1]) + |walk[|walk| - 1].files|
  }

  /** A put into `bucket` under a key without backslashes. */
  predicate PutInto(c: Call, bucket: string) {
    c.Put? && c.bucket == bucket && '\\' !in c.key
  }

  lemma {:induction false} FilePutsShape(bucket: string, rootFolderName: string, s3Prefix: string,
                                         useWholePath: bool, root: string, files: seq<string>)
    ensures var puts := FilePuts(bucket, rootFolderName, s3Prefix, useWholePath, root, files);
            |puts| == |files| && forall k :: 0 <= k < |puts| ==> PutInto(puts[k], bucket)
    decreases |files|
  {
    if files != [] {
      FilePutsShape(bucket, rootFolderName, s3Prefix, useWholePath, root, files[..|files| - 1]);
    }
  }

  /**
    The folder upload plans exactly one put per walked file, each into the
    given bucket under a key without backslashes; a walk without files plans
    nothing.
  */
  lemma {:induction false} FolderPlanShape(bucket: string, rootFolderName: string, s3Prefix: string,
                                           useWholePath: bool, walk: seq<WalkEntry>)
    ensures var plan := WalkPuts(bucket, rootFolderName, s3Prefix, useWholePath, walk);
            |plan| == FileCount(walk) && forall k :: 0 <= k < |plan| ==> PutInto(plan[k], bucket)
    decreases |walk|
  {
    if walk != [] {
      var e := walk[|walk| - 1];
      FolderPlanShape(bucket, rootFolderName, s3Prefix, useWholePath, walk[..|walk| - 1]);
      FilePutsShape(bucket, rootFolderName, s3Prefix, useWholePath, e.root, e.files);
    }
  }

  /** A walk that lists no file issues no put, and the upload returns `None`. */
  lemma {:induction false} EmptyWalkUploadsNothing(env: Env, bucket: string, folderName: string, s3Prefix: string,
                                                   useWholePath: bool, walk: seq<WalkEntry>)
    requires FileCount(walk) == 0
    ensures var run := Issue(env, FolderPlan(bucket, folderName, s3Prefix, useWholePath, walk));
            run.issued == [] && FolderUploadOutcome(run.stop) == Returned(PyNone)
  {
    FolderPlanShape(bucket, DirnameN(Normpath(folderName), 1), s3Prefix, useWholePath, walk);
    assert FolderPlan(bucket, folderName, s3Prefix, useWholePath, walk) == [];
  }

  /**
    `upload_folder_to_s3` is fail-fast: it returns `None` exactly when every
    planned put was issued and succeeded, `False` exactly when the last put
    issued raised a `ClientError`, never `True`; and whenever it stops early,
    the puts issued are the plan's first ones and all but the last succeeded.
  */
  lemma {:induction false} UploadFolderFailFast(env: Env, bucket: string, folderName: string, s3Prefix: string,
                             useWholePath: bool, walk: seq<WalkEntry>)
    ensures var plan := FolderPlan(bucket, folderName, s3Prefix, useWholePath, walk);
            var run := Issue(env, plan);
            var outcome := FolderUploadOutcome(run.stop);
            && IsPrefix(run.issued, plan)
            && (outcome == Returned(PyNone) <==> run.issued == plan && AllSucceed(env, plan))
            && (outcome == Returned(PyFalse) <==>
                  run.issued != [] && Respond(env, run.issued[|run.issued| - 1]) == Failed(ClientError))
            && outcome != Returned(PyTrue)
            && (outcome != Returned(PyNone) ==>
                  run.issued != [] && AllSucceed(env, run.issued[..|run.issued| - 1]))
  {
    IssueFailFast(env, FolderPlan(bucket, folderName, s3Prefix, useWholePath, walk));
  }

  // ---------------------------------------------------------------------
  // download_file_from_s3
  // ---------------------------------------------------------------------

  /** The directory a download goes under: `local_path`, or the working directory without it. */
  function DownloadBase(cwd: string, localPath: Option<string>): string {
    match localPath case None => cwd case Some(p) => p
  }

  /**
    Whatever the base and `use_s3_path`, the saved file is named by the last
    component of the key, or of `file_name` when one is given.
  */
  lemma {:induction false} DownloadFileName(cwd: string, s3Key: string, localPath: Option<string>,
                                            useS3Path: bool, fileName: Option<string>)
    ensures Basename(DownloadFileDestination(cwd, s3Key, localPath, useS3Path, fileName))
            == Basename(match fileName case None => s3Key case Some(n) => n)
  {
    var base := DownloadBase(cwd, localPath);
    var name := if useS3Path then s3Key else Basename(s3Key);
    var dest := Join(base, name);
    BasenameOfJoin(base, name);
    BasenameOfSlashFree(Basename(s3Key));
    if fileName.Some? {
      BasenameOfJoin(Dirname(dest), fileName.value);
    }
  }

  /**
    Without `use_s3_path` and `file_name`, the object lands directly in the
    base directory under the last component of its key.
  */
  lemma {:induction false} DownloadFileFlat(cwd: string, s3Key: string, localPath: Option<string>)
    requires DirShaped(DownloadBase(cwd, localPath)) && Basename(s3Key) != ""
    ensures var dest := DownloadFileDestination(cwd, s3Key, localPath, false, None);
            Dirname(dest) == DownloadBase(cwd, localPath) && Basename(dest) == Basename(s3Key)
  {
    DirnameBasenameOfJoinName(DownloadBase(cwd, localPath), Basename(s3Key));
  }

  /**
    With `use_s3_path`, a relative key is mirrored under the base directory;
    a key starting with `/` discards the base directory altogether.
  */
  lemma {:induction false} DownloadFileMirrors(cwd: string, s3Key: string, localPath: Option<string>)
    ensures DownloadFileDestination(cwd, s3Key, localPath, true, None)
            == if IsAbs(s3Key) then s3Key else Under(DownloadBase(cwd, localPath)) + s3Key
  {
    if !IsAbs(s3Key) {
      JoinRelative(DownloadBase(cwd, localPath), s3Key);
    }
  }

  /**
    A plain `file_name` renames the downloaded file and keeps the directory
    it would otherwise have gone to.
  */
  lemma {:induction false} DownloadFileRenamed(cwd: string, s3Key: string, localPath: Option<string>, useS3Path: bool, fileName: string)
    requires fileName != "" && '/' !in fileName
    ensures var dest := DownloadFileDestination(cwd, s3Key, localPath, useS3Path, Some(fileName));
            var plain := DownloadFileDestination(cwd, s3Key, localPath, useS3Path, None);
            Dirname(dest) == Dirname(plain) && Basename(dest) == fileName
  {
  }

  /**
    With `local_path=""`, the directory to create is `""`, which
    `os.makedirs` rejects: the object is never fetched.
  */
  lemma {:induction false} DownloadFileIntoEmptyLocalPath(env: Env, cwd: string, s3Key: string)
    ensures var dest := DownloadFileDestination(cwd, s3Key, Some(""), false, None);
            Dirname(dest) == "" && !Succeeds(env, MakeDirs(Dirname(dest)))
  {
    var b := Basename(s3Key);
    BasenameIsRelative(s3Key);
    JoinUnderEmpty(b);
    var dest := DownloadFileDestination(cwd, s3Key, Some(""), false, None);
    assert dest == b;
    MakeDirsOfNothing(env, Dirname(dest));
  }

  lemma {:induction false} MakeDirsOfNothing(env: Env, d: string)
    requires d == ""
    ensures !Succeeds(env, MakeDirs(d))
  {
    assert Respond(env, MakeDirs(d)) == Failed(OtherError);
  }

  // ---------------------------------------------------------------------
  // download_folder_from_s3
  // ---------------------------------------------------------------------

  /** `relpath` raises for exactly one key: the empty one. */
  lemma {:induction false} FolderDestinationFails(cwd: string, s3Prefix: string, localDir: string, key: string)
    ensures FolderDestination(cwd, s3Prefix, localDir, key).None? <==> key == ""
  {
  }

  /** The plan ends with `relpath` raising exactly when the listing holds the empty key. */
  lemma {:induction false} KeysPlanRaises(cwd: string, bucketName: string, s3Prefix: string, localDir: string,
                                          keys: seq<string>)
    ensures KeysPlan(cwd, bucketName, s3Prefix, localDir, keys).raises <==> "" in keys
    decreases |keys|
  {
    if keys != [] {
      var init := keys[..|keys| - 1];
      KeysPlanRaises(cwd, bucketName, s3Prefix, localDir, init);
      InInitOrLast(keys, "");
      FolderDestinationFails(cwd, s3Prefix, localDir, keys[|keys| - 1]);
    }
  }

  /** Where key `key` is written to; every key the listing can hold but `""` has one. */
  function Destination(cwd: string, s3Prefix: string, localDir: string, key: string): string
    requires key != ""
  {
    FolderDestination(cwd, s3Prefix, localDir, key).value
  }

  /** The calls of a key listed after other keys, none of them empty, come after theirs. */
  lemma {:induction false} KeysPlanLast(cwd: string, bucketName: string, s3Prefix: string, localDir: string, keys: seq<string>)
    requires keys != [] && "" !in keys
    ensures var key := keys[|keys| - 1];
            var dest := Destination(cwd, s3Prefix, localDir, key);
            var before := KeysPlan(cwd, bucketName, s3Prefix, localDir, keys[..|keys| - 1]);
            KeysPlan(cwd, bucketName, s3Prefix, localDir, keys)
            == Plan(before.calls + [MakeDirs(Dirname(dest))] + [Get(bucketName, key, dest)], false)
  {
    var init := keys[..|keys| - 1];
    assert keys[|keys| - 1] in keys;
    assert forall x :: x in init ==> x in keys;
    KeysPlanRaises(cwd, bucketName, s3Prefix, localDir, init);
  }

  /** The `k`-th pair of calls of `before + [a] + [b]`, for `k` past `before`'s pairs. */
  lemma {:induction false} PairAtEnd<T>(before: seq<T>, a: T, b: T, k: nat)
    requires |before| == 2 * k
    ensures (before + [a] + [b])[2 * k] == a && (before + [a] + [b])[2 * k + 1] == b
  {
  }

  lemma {:induction false} PairBefore<T>(before: seq<T>, a: T, b: T, k: nat)
    requires 2 * k + 1 < |before|
    ensures (before + [a] + [b])[2 * k] == before[2 * k] && (before + [a] + [b])[2 * k + 1] == before[2 * k + 1]
  {
  }

  /** Without the empty key, the plan has two calls per key. */
  lemma {:induction false} KeysPlanLength(cwd: string, bucketName: string, s3Prefix: string, localDir: string,
                                          keys: seq<string>)
    requires "" !in keys
    ensures |KeysPlan(cwd, bucketName, s3Prefix, localDir, keys).calls| == 2 * |keys|
    decreases |keys|
  {
    if keys != [] {
      var init := keys[..|keys| - 1];
      assert forall x :: x in init ==> x in keys;
      KeysPlanLength(cwd, bucketName, s3Prefix, localDir, init);
      KeysPlanLast(cwd, bucketName, s3Prefix, localDir, keys);
    }
  }

  /** The `k`-th pair of planned calls creates the directory of key `k`'s destination, then gets key `k` into it. */
  lemma {:induction false} KeysPlanAt(cwd: string, bucketName: string, s3Prefix: string, localDir: string,
                                      keys: seq<string>, k: nat)
    requires "" !in keys && k < |keys|
    ensures var calls := KeysPlan(cwd, bucketName, s3Prefix, localDir, keys).calls;
            var dest := Destination(cwd, s3Prefix, localDir, keys[k]);
            && |calls| == 2 * |keys|
            && calls[2 * k] == MakeDirs(Dirname(dest))
            && calls[2 * k + 1] == Get(bucketName, keys[k], dest)
    decreases |keys|
  {
    var init := keys[..|keys| - 1];
    var key := keys[|keys| - 1];
    assert forall x :: x in init ==> x in keys;
    KeysPlanLength(cwd, bucketName, s3Prefix, localDir, keys);
    KeysPlanLength(cwd, bucketName, s3Prefix, localDir, init);
    KeysPlanLast(cwd, bucketName, s3Prefix, localDir, keys);
    var before := KeysPlan(cwd, bucketName, s3Prefix, localDir, init).calls;
    var dest := Destination(cwd, s3Prefix, localDir, key);
    if k < |init| {
      KeysPlanAt(cwd, bucketName, s3Prefix, localDir, init, k);
      assert init[k] == keys[k];
      assert Destination(cwd, s3Prefix, localDir, init[k]) == Destination(cwd, s3Prefix, localDir, keys[k]);
      PairBefore(before, MakeDirs(Dirname(dest)), Get(bucketName, key, dest), k);
    } else {
      assert k == |init| && keys[k] == key;
      PairAtEnd(before, MakeDirs(Dirname(dest)), Get(bucketName, key, dest), k);
    }
  }

  /**
    A key of the form `<prefix>/<rest>` is written to `<rest>` under the local
    directory, when the working directory is absolute and neither side has
    empty, `.` or `..` components.
  */
  lemma {:induction false} PrefixedKeyDestination(cwd: string, s3Prefix: string, localDir: string, rest: string)
    requires IsAbs(cwd) && NoDots(Split(cwd, '/'))
    requires Clean(Split(s3Prefix, '/')) && Clean(Split(rest, '/'))
    ensures FolderDestination(cwd, s3Prefix, localDir, s3Prefix + "/" + rest) == Some(Join(localDir, rest))
  {
    RelpathOfPrefixedKey(cwd, s3Prefix, rest);
  }

  /** The folder download plans no uploads. */
  lemma {:induction false} KeysPlanNoPut(cwd: string, bucketName: string, s3Prefix: string, localDir: string,
                                         keys: seq<string>)
    ensures forall c :: c in KeysPlan(cwd, bucketName, s3Prefix, localDir, keys).calls ==> !c.Put?
    decreases |keys|
  {
    if keys != [] {
      var init := keys[..|keys| - 1];
      var before := KeysPlan(cwd, bucketName, s3Prefix, localDir, init);
      KeysPlanNoPut(cwd, bucketName, s3Prefix, localDir, init);
      var dest := FolderDestination(cwd, s3Prefix, localDir, keys[|keys| - 1]);
      if !before.raises && dest.Some? {
        var mk := MakeDirs(Dirname(dest.value));
        NoPutSnoc(before.calls, mk);
        NoPutSnoc(before.calls + [mk], Get(bucketName, keys[|keys| - 1], dest.value));
      }
    }
  }

  lemma {:induction false} NoPutSnoc(calls: seq<Call>, c: Call)
    requires forall x :: x in calls ==> !x.Put?
    requires !c.Put?
    ensures forall x :: x in calls + [c] ==> !x.Put?
  {
  }

  /** Over any plan of gets and directory creations, see `FolderDownloadFailFast`. */
  lemma {:induction false} DownloadRunOutcome(env: Env, calls: seq<Call>, raises: bool, noEmptyKey: bool,
                                              result: (Outcome, seq<Call>))
    requires forall c :: c in calls ==> !c.Put?
    requires raises <==> !noEmptyKey
    requires result == (DownloadOutcome(Issue(env, calls), raises), Issue(env, calls).issued)
    ensures var trace := result.1;
            && IsPrefix(trace, calls)
            && (result.0 == Returned(PyNone) <==>
                  || (trace == calls && AllSucceed(env, trace) && noEmptyKey)
                  || (trace != [] && trace[|trace| - 1].Get?
                      && Respond(env, trace[|trace| - 1]) == Failed(ClientError)))
  {
    var run := Issue(env, calls);
    IssueFailFast(env, calls);
    if run.stop.Stopped? {
      var last := run.issued[|run.issued| - 1];
      assert calls[|run.issued| - 1] == last;
      assert last in calls;
      assert !Succeeds(env, run.issued[|run.issued| - 1]);
      if run.stop.fault == ClientError {
        assert !last.Put? && !last.MakeDirs?;
      }
    }
  }

  /**
    `download_folder_from_s3` ends at the first failing call, and returns
    `None` exactly when every planned call was issued and succeeded and no
    key was empty, or when the last call issued was a get that raised
    `ClientError`: a failing `makedirs`, another exception from a get, or the
    empty key make it raise instead.
  */
  lemma {:induction false} FolderDownloadFailFast(env: Env, cwd: string, bucketName: string, s3Prefix: string, localDir: string,
                               keys: seq<string>)
    ensures var plan := KeysPlan(cwd, bucketName, s3Prefix, localDir, keys);
            var result := FolderDownload(env, cwd, bucketName, s3Prefix, localDir, Listed(Some(keys)));
            var trace := result.1;
            && IsPrefix(trace, plan.calls)
            && (result.0 == Returned(PyNone) <==>
                  || (trace == plan.calls && AllSucceed(env, trace) && "" !in keys)
                  || (trace != [] && trace[|trace| - 1].Get?
                      && Respond(env, trace[|trace| - 1]) == Failed(ClientError)))
  {
    var plan := KeysPlan(cwd, bucketName, s3Prefix, localDir, keys);
    var result := FolderDownload(env, cwd, bucketName, s3Prefix, localDir, Listed(Some(keys)));
    KeysPlanNoPut(cwd, bucketName, s3Prefix, localDir, keys);
    KeysPlanRaises(cwd, bucketName, s3Prefix, localDir, keys);
    DownloadRunOutcome(env, plan.calls, plan.raises, "" !in keys, result);
  }

  /** `name` is a single clean path component. */
  lemma {:induction false} SplitOfName(name: string)
    requires name != "" && '/' !in name && name != "." && name != ".."
    ensures Split(name, '/') == [name] && Clean(Split(name, '/'))
  {
  }

  /** A listing of one key plans that key's two calls. */
  lemma {:induction false} OneKeyPlan(cwd: string, bucketName: string, s3Prefix: string, localDir: string, key: string)
    requires key != ""
    ensures var dest := Destination(cwd, s3Prefix, localDir, key);
            KeysPlan(cwd, bucketName, s3Prefix, localDir, [key])
            == Plan([MakeDirs(Dirname(dest))] + [Get(bucketName, key, dest)], false)
  {
    TakeNone([key]);
    AppendEmptyLeft([MakeDirs(Dirname(Destination(cwd, s3Prefix, localDir, key)))]);
  }

  /** With `local_dir=""`, a key directly below the prefix is written to its bare name. */
  lemma {:induction false} TopLevelKeyDestination(cwd: string, s3Prefix: string, name: string)
    requires IsAbs(cwd) && NoDots(Split(cwd, '/'))
    requires Clean(Split(s3Prefix, '/'))
    requires name != "" && '/' !in name && name != "." && name != ".."
    ensures Destination(cwd, s3Prefix, "", s3Prefix + "/" + name) == name
    ensures Dirname(name) == ""
  {
    SplitOfName(name);
    PrefixedKeyDestination(cwd, s3Prefix, "", name);
    SlashFreeIsRelative(name);
    JoinUnderEmpty(name);
  }

  /** A plan whose first call fails with an exception other than `ClientError` makes the download raise. */
  lemma {:induction false} FirstCallRaises(env: Env, c: Call, d: Call)
    requires Respond(env, c) == Failed(OtherError)
    ensures Issue(env, [c] + [d]) == Run([c], Stopped(OtherError))
  {
    assert ([c] + [d])[0] == c;
  }

  /**
    With the default `local_dir=""`, a key directly below the prefix maps to a
    bare file name whose directory is `""`: `os.makedirs` raises, and since
    that is not a `ClientError` it escapes the function before the get.
  */
  lemma {:induction false} DefaultLocalDirTopLevelKeyRaises(env: Env, cwd: string, bucketName: string, s3Prefix: string, name: string)
    requires IsAbs(cwd) && NoDots(Split(cwd, '/'))
    requires Clean(Split(s3Prefix, '/'))
    requires name != "" && '/' !in name && name != "." && name != ".."
    ensures FolderDownload(env, cwd, bucketName, s3Prefix, "", Listed(Some([s3Prefix + "/" + name])))
            == (Raised, [MakeDirs("")])
  {
    var key := s3Prefix + "/" + name;
    TopLevelKeyDestination(cwd, s3Prefix, name);
    OneKeyPlan(cwd, bucketName, s3Prefix, "", key);
    FirstCallRaises(env, MakeDirs(""), Get(bucketName, key, name));
  }
}
