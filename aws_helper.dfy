/**
  The helper layer of aws_helper.py: how local paths become S3 keys for an
  upload and S3 keys become local paths for a download, and the loops that
  issue one storage call per file or per key. The storage client, `os.walk`,
  `os.getcwd` and the bucket listing are inputs; every storage and
  directory-creation call is recorded, in order, in the returned trace.
*/
module AwsHelper {
  import opened Wrappers
  import opened SeqFacts
  import opened StrOps
  import opened PosixPath
  import opened Effects

  /** The Python values the helper's functions return. */
  datatype PyValue = PyTrue | PyFalse | PyNone

  /** How a call of one of the helper's functions ends: a return, or an exception escaping it. */
  datatype Outcome = Returned(value: PyValue) | Raised

  // ---------------------------------------------------------------------
  // get_base_directory, replace_filename_with_new
  // ---------------------------------------------------------------------

  /** `dirname` applied `n` times. */
  function DirnameN(p: string, n: nat): string {
    if n == 0 then p else Dirname(DirnameN(p, n - 1))
  }

  /**
    `get_base_directory(path, levels_up)`: normalise, then go up `levels_up`
    directories; a negative count, like `range` of it, does nothing.
  */
  method GetBaseDirectory(path: string, levelsUp: int) returns (top: string)
    ensures top == DirnameN(Normpath(path), if levelsUp < 0 then 0 else levelsUp)
  {
    var normalizedPath := Normpath(path);
    top := normalizedPath;
    var i := 0;
    while i < levelsUp
      invariant 0 <= i <= (if levelsUp < 0 then 0 else levelsUp)
      invariant top == DirnameN(normalizedPath, i)
    {
      top := Dirname(top);
      i := i + 1;
    }
    assert i == (if levelsUp < 0 then 0 else levelsUp);
  }

  /**
    `replace_filename_with_new(path, new_filename)`: `new_filename` under the
    directory of `path`. A relative `new_filename` may bring directories of
    its own; an absolute one replaces the whole path; a plain name becomes
    the last component under the very same directory.
  */
  function ReplaceFilenameWithNew(path: string, newFilename: string): (r: string)
    ensures !IsAbs(newFilename) ==> StartsWith(r, Dirname(path)) && EndsWith(r, newFilename)
    ensures IsAbs(newFilename) ==> r == newFilename
    ensures newFilename != "" && '/' !in newFilename ==>
              Dirname(r) == Dirname(path) && Basename(r) == newFilename
  {
    DirnameIsDirShaped(path);
    if newFilename != "" && '/' !in newFilename then
      DirnameBasenameOfJoinName(Dirname(path), newFilename);
      Join(Dirname(path), newFilename)
    else
      Join(Dirname(path), newFilename)
  }

  // ---------------------------------------------------------------------
  // upload_file_to_s3
  // ---------------------------------------------------------------------

  /** `.replace("\\", "/")`, applied to every key before it is sent. */
  function S3Key(p: string): (k: string)
    ensures '\\' !in k
    ensures '\\' !in p ==> k == p
  {
    ReplaceCharRemoves(p, '\\', "/");
    ReplaceCharAbsent(p, '\\', "/");
    ReplaceAll(p, "\\", "/")
  }

  /** The object name before the prefix is joined on (aws_helper.py:36-42). */
  function UploadObjectName(fileName: string, objectName: Option<string>, useWholePath: bool): (r: string)
    ensures !useWholePath ==> '/' !in r
    ensures Basename(r) == Basename(match objectName case None => fileName case Some(o) => o)
  {
    var name := match objectName
      case None => fileName
      case Some(o) => ReplaceFilenameWithNew(fileName, o);
    BasenameOfSlashFree(Basename(name));
    var r := if !useWholePath then Basename(name) else name;
    match objectName
    case None => r
    case Some(o) =>
      BasenameOfJoin(Dirname(fileName), o);
      r
  }

  /** The key `upload_file_to_s3` uploads `file_name` under (aws_helper.py:36-45). */
  function UploadKey(fileName: string, s3Prefix: string, objectName: Option<string>, useWholePath: bool): (key: string)
    ensures '\\' !in key
  {
    S3Key(Join(s3Prefix, UploadObjectName(fileName, objectName, useWholePath)))
  }

  /**
    `upload_file_to_s3`: one put of `file_name` under the computed key;
    `True` when it succeeds, `False` on a `ClientError`, and any other
    exception propagates.
  */
  method UploadFileToS3(env: Env, bucket: string, fileName: string, s3Prefix: string,
                        objectName: Option<string>, useWholePath: bool)
    returns (outcome: Outcome, trace: seq<Call>)
    ensures trace == [Put(fileName, bucket, UploadKey(fileName, s3Prefix, objectName, useWholePath))]
    ensures outcome == Returned(PyTrue) <==> Respond(env, trace[0]) == Succeeded
    ensures outcome == Returned(PyFalse) <==> Respond(env, trace[0]) == Failed(ClientError)
    ensures outcome == Raised <==> Respond(env, trace[0]) == Failed(OtherError)
  {
    var name: string;
    if objectName.None? {
      name := fileName;
    } else {
      name := ReplaceFilenameWithNew(fileName, objectName.value);
    }
    if !useWholePath {
      name := Basename(name);
    }
    var key := S3Key(Join(s3Prefix, name));
    var put := Put(fileName, bucket, key);
    trace := [put];
    match Respond(env, put)
    case Succeeded => outcome := Returned(PyTrue);
    case Failed(ClientError) => outcome := Returned(PyFalse);
    case Failed(OtherError) => outcome := Raised;
  }

  // ---------------------------------------------------------------------
  // upload_folder_to_s3
  // ---------------------------------------------------------------------

  /** One `(root, dirs, files)` triple of `os.walk`; `dirs` is not used. */
  datatype WalkEntry = WalkEntry(root: string, files: seq<string>)

  /**
    The path a walked file is stored under (aws_helper.py:70-73): without
    `use_whole_path`, every occurrence of the folder's parent directory is cut
    out; either way the leading slashes go.
  */
  function FolderRelativePath(rootFolderName: string, filePath: string, useWholePath: bool): (r: string)
    ensures r == [] || r[0] != '/'
    ensures useWholePath ==> r == LStrip(filePath, '/')
  {
    if !useWholePath then LStrip(ReplaceAll(filePath, rootFolderName, ""), '/')
    else LStrip(filePath, '/')
  }

  /** The key of one walked file (aws_helper.py:69-75). */
  function FolderKey(rootFolderName: string, s3Prefix: string, useWholePath: bool, filePath: string): (key: string)
    ensures '\\' !in key
  {
    S3Key(Join(s3Prefix, FolderRelativePath(rootFolderName, filePath, useWholePath)))
  }

  function FolderPut(bucket: string, rootFolderName: string, s3Prefix: string, useWholePath: bool, filePath: string): Call {
    Put(filePath, bucket, FolderKey(rootFolderName, s3Prefix, useWholePath, filePath))
  }

  /** The puts planned for the files of one walked directory, in order. */
  function FilePuts(bucket: string, rootFolderName: string, s3Prefix: string, useWholePath: bool,
                    root: string, files: seq<string>): seq<Call>
    decreases |files|
  {
    if files == [] then []
    else FilePuts(bucket, rootFolderName, s3Prefix, useWholePath, root, files[..|files| - 1])
         + [FolderPut(bucket, rootFolderName, s3Prefix, useWholePath, Join(root, files[|files| - 1]))]
  }

  /** The puts planned for a whole walk, in walk order. */
  function WalkPuts(bucket: string, rootFolderName: string, s3Prefix: string, useWholePath: bool,
                    walk: seq<WalkEntry>): seq<Call>
    decreases |walk|
  {
    if walk == [] then []
    else
      var e := walk[|walk| - 1];
      WalkPuts(bucket, rootFolderName, s3Prefix, useWholePath, walk[..|walk| - 1])
      + FilePuts(bucket, rootFolderName, s3Prefix, useWholePath, e.root, e.files)
  }

  /** `upload_folder_to_s3` returns `None` after the loop, and `False` on a `ClientError`. */
  function FolderUploadOutcome(stop: Stop): (r: Outcome)
    ensures r != Returned(PyTrue)
  {
    match stop
    case Finished => Returned(PyNone)
    case Stopped(ClientError) => Returned(PyFalse)
    case Stopped(OtherError) => Raised
  }

  /** The planned puts of `upload_folder_to_s3(bucket, folder_name, s3_prefix, use_whole_path)`. */
  function FolderPlan(bucket: string, folderName: string, s3Prefix: string, useWholePath: bool,
                      walk: seq<WalkEntry>): seq<Call>
  {
    WalkPuts(bucket, DirnameN(Normpath(folderName), 1), s3Prefix, useWholePath, walk)
  }

  lemma {:induction false} FilePutsPrefix(bucket: string, rootFolderName: string, s3Prefix: string,
                                          useWholePath: bool, root: string, files: seq<string>, f: nat)
    requires f <= |files|
    ensures IsPrefix(FilePuts(bucket, rootFolderName, s3Prefix, useWholePath, root, files[..f]),
                     FilePuts(bucket, rootFolderName, s3Prefix, useWholePath, root, files))
    decreases |files|
  {
    if f < |files| {
      var init := files[..|files| - 1];
      assert init[..f] == files[..f];
      FilePutsPrefix(bucket, rootFolderName, s3Prefix, useWholePath, root, init, f);
      var last := FolderPut(bucket, rootFolderName, s3Prefix, useWholePath, Join(root, files[|files| - 1]));
      var before := FilePuts(bucket, rootFolderName, s3Prefix, useWholePath, root, init);
      PrefixOfAppend(before, [last]);
      PrefixTrans(FilePuts(bucket, rootFolderName, s3Prefix, useWholePath, root, files[..f]), before, before + [last]);
    } else {
      assert files[..f] == files;
    }
  }

  lemma {:induction false} WalkPutsPrefix(bucket: string, rootFolderName: string, s3Prefix: string,
                                          useWholePath: bool, walk: seq<WalkEntry>, w: nat)
    requires w <= |walk|
    ensures IsPrefix(WalkPuts(bucket, rootFolderName, s3Prefix, useWholePath, walk[..w]),
                     WalkPuts(bucket, rootFolderName, s3Prefix, useWholePath, walk))
    decreases |walk|
  {
    if w < |walk| {
      var init := walk[..|walk| - 1];
      assert init[..w] == walk[..w];
      WalkPutsPrefix(bucket, rootFolderName, s3Prefix, useWholePath, init, w);
    } else {
      assert walk[..w] == walk;
    }
  }

  lemma {:induction false} FilePutsSnoc(bucket: string, rootFolderName: string, s3Prefix: string, useWholePath: bool,
                     root: string, files: seq<string>, f: nat)
    requires f < |files|
    ensures FilePuts(bucket, rootFolderName, s3Prefix, useWholePath, root, files[..f + 1])
         == FilePuts(bucket, rootFolderName, s3Prefix, useWholePath, root, files[..f])
            + [FolderPut(bucket, rootFolderName, s3Prefix, useWholePath, Join(root, files[f]))]
  {
    assert files[..f + 1][..f] == files[..f];
  }

  lemma {:induction false} WalkPutsSnoc(bucket: string, rootFolderName: string, s3Prefix: string, useWholePath: bool,
                     walk: seq<WalkEntry>, w: nat)
    requires w < |walk|
    ensures WalkPuts(bucket, rootFolderName, s3Prefix, useWholePath, walk[..w + 1])
         == WalkPuts(bucket, rootFolderName, s3Prefix, useWholePath, walk[..w])
            + FilePuts(bucket, rootFolderName, s3Prefix, useWholePath, walk[w].root, walk[w].files)
  {
    assert walk[..w + 1][..w] == walk[..w];
  }

  /** The puts of the entries before `w` and of the first `f` files of entry `w` lead the whole plan. */
  lemma {:induction false} WalkPutsUpTo(bucket: string, rootFolderName: string, s3Prefix: string, useWholePath: bool,
                     walk: seq<WalkEntry>, w: nat, f: nat)
    requires w < |walk| && f <= |walk[w].files|
    ensures IsPrefix(WalkPuts(bucket, rootFolderName, s3Prefix, useWholePath, walk[..w])
                     + FilePuts(bucket, rootFolderName, s3Prefix, useWholePath, walk[w].root, walk[w].files[..f]),
                     WalkPuts(bucket, rootFolderName, s3Prefix, useWholePath, walk))
  {
    var e := walk[w];
    var before := WalkPuts(bucket, rootFolderName, s3Prefix, useWholePath, walk[..w]);
    var part := FilePuts(bucket, rootFolderName, s3Prefix, useWholePath, e.root, e.files[..f]);
    var all := FilePuts(bucket, rootFolderName, s3Prefix, useWholePath, e.root, e.files);
    FilePutsPrefix(bucket, rootFolderName, s3Prefix, useWholePath, e.root, e.files, f);
    WalkPutsPrefix(bucket, rootFolderName, s3Prefix, useWholePath, walk, w + 1);
    assert walk[..w + 1][..w] == walk[..w];
    assert WalkPuts(bucket, rootFolderName, s3Prefix, useWholePath, walk[..w + 1]) == before + all;
    PrefixAppend(before, part, all);
    PrefixTrans(before + part, before + all, WalkPuts(bucket, rootFolderName, s3Prefix, useWholePath, walk));
  }

  /** One more file of the current directory extends the trace by its put. */
  lemma {:induction false} FilePutsStep(bucket: string, rootFolderName: string, s3Prefix: string, useWholePath: bool,
                                        root: string, files: seq<string>, f: nat, done: seq<Call>, trace: seq<Call>, put: Call)
    requires f < |files|
    requires trace == done + FilePuts(bucket, rootFolderName, s3Prefix, useWholePath, root, files[..f])
    requires put == FolderPut(bucket, rootFolderName, s3Prefix, useWholePath, Join(root, files[f]))
    ensures trace + [put] == done + FilePuts(bucket, rootFolderName, s3Prefix, useWholePath, root, files[..f + 1])
  {
    FilePutsSnoc(bucket, rootFolderName, s3Prefix, useWholePath, root, files, f);
    AppendAssoc(done, FilePuts(bucket, rootFolderName, s3Prefix, useWholePath, root, files[..f]), [put]);
  }

  /** All files of entry `w` done, the trace holds the puts of the first `w + 1` entries. */
  lemma {:induction false} WalkPutsStep(bucket: string, rootFolderName: string, s3Prefix: string, useWholePath: bool,
                                        walk: seq<WalkEntry>, w: nat, done: seq<Call>, trace: seq<Call>)
    requires w < |walk|
    requires done == WalkPuts(bucket, rootFolderName, s3Prefix, useWholePath, walk[..w])
    requires trace == done + FilePuts(bucket, rootFolderName, s3Prefix, useWholePath, walk[w].root,
                                      walk[w].files[..|walk[w].files|])
    ensures trace == WalkPuts(bucket, rootFolderName, s3Prefix, useWholePath, walk[..w + 1])
  {
    TakeAll(walk[w].files, |walk[w].files|);
    WalkPutsSnoc(bucket, rootFolderName, s3Prefix, useWholePath, walk, w);
  }

  /** A put that fails after the successful puts `trace` ends the whole walk there. */
  lemma {:induction false} WalkStopsAt(env: Env, bucket: string, rootFolderName: string, s3Prefix: string,
                                       useWholePath: bool, walk: seq<WalkEntry>, w: nat, f: nat,
                                       trace: seq<Call>, put: Call)
    requires w < |walk| && f < |walk[w].files|
    requires trace == WalkPuts(bucket, rootFolderName, s3Prefix, useWholePath, walk[..w])
                      + FilePuts(bucket, rootFolderName, s3Prefix, useWholePath, walk[w].root, walk[w].files[..f])
    requires put == FolderPut(bucket, rootFolderName, s3Prefix, useWholePath, Join(walk[w].root, walk[w].files[f]))
    requires AllSucceed(env, trace) && Respond(env, put).Failed?
    ensures Issue(env, WalkPuts(bucket, rootFolderName, s3Prefix, useWholePath, walk))
            == Run(trace + [put], Stopped(Respond(env, put).fault))
  {
    var done := WalkPuts(bucket, rootFolderName, s3Prefix, useWholePath, walk[..w]);
    FilePutsStep(bucket, rootFolderName, s3Prefix, useWholePath, walk[w].root, walk[w].files, f, done, trace, put);
    WalkPutsUpTo(bucket, rootFolderName, s3Prefix, useWholePath, walk, w, f + 1);
    IssueStopsAfter(env, WalkPuts(bucket, rootFolderName, s3Prefix, useWholePath, walk), trace, put);
  }

  /**
    `upload_folder_to_s3`: one put per walked file, in walk order, stopping at
    the first put that fails. Returns `None` when all succeed and `False` on a
    `ClientError`; any other exception propagates.
  */
  method UploadFolderToS3(env: Env, bucket: string, folderName: string, s3Prefix: string,
                          useWholePath: bool, walk: seq<WalkEntry>)
    returns (outcome: Outcome, trace: seq<Call>)
    ensures var run := Issue(env, FolderPlan(bucket, folderName, s3Prefix, useWholePath, walk));
            trace == run.issued && outcome == FolderUploadOutcome(run.stop)
  {
    var rootFolderName := GetBaseDirectory(folderName, 1);
    assert rootFolderName == DirnameN(Normpath(folderName), 1);
    outcome, trace := UploadWalk(env, bucket, rootFolderName, s3Prefix, useWholePath, walk);
  }

  /** The outcome and the trace of the walk loop: its planned puts, issued until the first failure. */
  predicate WalkResult(env: Env, bucket: string, rootFolderName: string, s3Prefix: string, useWholePath: bool,
                       walk: seq<WalkEntry>, outcome: Outcome, trace: seq<Call>)
  {
    var run := Issue(env, WalkPuts(bucket, rootFolderName, s3Prefix, useWholePath, walk));
    trace == run.issued && outcome == FolderUploadOutcome(run.stop)
  }

  /** A failing put ends the walk: `False` on a `ClientError`, anything else propagates. */
  lemma {:induction false} PutExit(env: Env, bucket: string, rootFolderName: string, s3Prefix: string,
                                   useWholePath: bool, walk: seq<WalkEntry>, w: nat, f: nat,
                                   trace: seq<Call>, put: Call)
    requires w < |walk| && f < |walk[w].files|
    requires trace == WalkPuts(bucket, rootFolderName, s3Prefix, useWholePath, walk[..w])
                      + FilePuts(bucket, rootFolderName, s3Prefix, useWholePath, walk[w].root, walk[w].files[..f])
    requires put == FolderPut(bucket, rootFolderName, s3Prefix, useWholePath, Join(walk[w].root, walk[w].files[f]))
    requires AllSucceed(env, trace) && Respond(env, put).Failed?
    ensures WalkResult(env, bucket, rootFolderName, s3Prefix, useWholePath, walk,
                       if Respond(env, put).fault == ClientError then Returned(PyFalse) else Raised, trace + [put])
  {
    WalkStopsAt(env, bucket, rootFolderName, s3Prefix, useWholePath, walk, w, f, trace, put);
  }

  /** A put that succeeds extends the successful prefix of the plan by one. */
  lemma {:induction false} PutDone(env: Env, bucket: string, rootFolderName: string, s3Prefix: string, useWholePath: bool,
                                   root: string, files: seq<string>, f: nat, done: seq<Call>, trace: seq<Call>, put: Call)
    requires f < |files|
    requires trace == done + FilePuts(bucket, rootFolderName, s3Prefix, useWholePath, root, files[..f])
    requires put == FolderPut(bucket, rootFolderName, s3Prefix, useWholePath, Join(root, files[f]))
    requires AllSucceed(env, trace) && Succeeds(env, put)
    ensures trace + [put] == done + FilePuts(bucket, rootFolderName, s3Prefix, useWholePath, root, files[..f + 1])
    ensures AllSucceed(env, trace + [put])
  {
    FilePutsStep(bucket, rootFolderName, s3Prefix, useWholePath, root, files, f, done, trace, put);
    AllSucceedSnoc(env, trace, put);
  }

  /** Each directory starts with no puts of its own. */
  lemma {:induction false} FilesStart(bucket: string, rootFolderName: string, s3Prefix: string, useWholePath: bool,
                                      root: string, files: seq<string>, done: seq<Call>)
    ensures done == done + FilePuts(bucket, rootFolderName, s3Prefix, useWholePath, root, files[..0])
  {
    AppendEmpty(done, FilePuts(bucket, rootFolderName, s3Prefix, useWholePath, root, files[..0]));
  }

  /** After the whole walk, every planned put was issued and succeeded. */
  lemma {:induction false} WalkExit(env: Env, bucket: string, rootFolderName: string, s3Prefix: string,
                                    useWholePath: bool, walk: seq<WalkEntry>, trace: seq<Call>)
    requires trace == WalkPuts(bucket, rootFolderName, s3Prefix, useWholePath, walk[..|walk|])
    requires AllSucceed(env, trace)
    ensures WalkResult(env, bucket, rootFolderName, s3Prefix, useWholePath, walk, Returned(PyNone), trace)
  {
    TakeAll(walk, |walk|);
    IssueAll(env, trace);
  }

  /**
    The inner loop of `upload_folder_to_s3` over the files of walk entry `w`
    (aws_helper.py:68-80), after the puts `done` of the entries before it all
    succeeded. Either a failing put ends the whole function, with its outcome
    and trace, or every file of the entry was put.
  */
  method UploadFiles(env: Env, bucket: string, rootFolderName: string, s3Prefix: string,
                     useWholePath: bool, walk: seq<WalkEntry>, w: nat, done: seq<Call>)
    returns (stop: bool, outcome: Outcome, trace: seq<Call>)
    requires w < |walk|
    requires done == WalkPuts(bucket, rootFolderName, s3Prefix, useWholePath, walk[..w])
    requires AllSucceed(env, done)
    ensures stop ==> WalkResult(env, bucket, rootFolderName, s3Prefix, useWholePath, walk, outcome, trace)
    ensures !stop ==> trace == WalkPuts(bucket, rootFolderName, s3Prefix, useWholePath, walk[..w + 1])
                      && AllSucceed(env, trace)
  {
    var root, files := walk[w].root, walk[w].files;
    trace := done;
    var f := 0;
    FilesStart(bucket, rootFolderName, s3Prefix, useWholePath, root, files, done);
    while f < |files|
      invariant 0 <= f <= |files|
      invariant trace == done + FilePuts(bucket, rootFolderName, s3Prefix, useWholePath, root, files[..f])
      invariant AllSucceed(env, trace)
    {
      var filePath := Join(root, files[f]);
      var put := FolderPut(bucket, rootFolderName, s3Prefix, useWholePath, filePath);
      if Respond(env, put).Failed? {
        PutExit(env, bucket, rootFolderName, s3Prefix, useWholePath, walk, w, f, trace, put);
        if Respond(env, put).fault == ClientError {
          outcome := Returned(PyFalse);
        } else {
          outcome := Raised;
        }
        stop, trace := true, trace + [put];
        return;
      }
      PutDone(env, bucket, rootFolderName, s3Prefix, useWholePath, root, files, f, done, trace, put);
      trace := trace + [put];
      f := f + 1;
    }
    WalkPutsStep(bucket, rootFolderName, s3Prefix, useWholePath, walk, w, done, trace);
    stop, outcome := false, Returned(PyNone);
  }

  /**
    The walk loop of `upload_folder_to_s3` (aws_helper.py:67-83), once the
    folder's parent directory `rootFolderName` is known.
  */
  method UploadWalk(env: Env, bucket: string, rootFolderName: string, s3Prefix: string,
                    useWholePath: bool, walk: seq<WalkEntry>)
    returns (outcome: Outcome, trace: seq<Call>)
    ensures WalkResult(env, bucket, rootFolderName, s3Prefix, useWholePath, walk, outcome, trace)
  {
    trace := [];
    var w := 0;
    while w < |walk|
      invariant 0 <= w <= |walk|
      invariant trace == WalkPuts(bucket, rootFolderName, s3Prefix, useWholePath, walk[..w])
      invariant AllSucceed(env, trace)
    {
      var stop;
      stop, outcome, trace := UploadFiles(env, bucket, rootFolderName, s3Prefix, useWholePath, walk, w, trace);
      if stop {
        return;
      }
      w := w + 1;
    }
    WalkExit(env, bucket, rootFolderName, s3Prefix, useWholePath, walk, trace);
    outcome := Returned(PyNone);
  }

  // ---------------------------------------------------------------------
  // download_file_from_s3
  // ---------------------------------------------------------------------

  /**
    Where `download_file_from_s3` writes the object (aws_helper.py:95-106):
    under `local_path`, or the working directory when it is `None`, at the
    whole key or only its last component; `file_name` then renames the file
    in that directory.
  */
  function DownloadFileDestination(cwd: string, s3Key: string, localPath: Option<string>,
                                   useS3Path: bool, fileName: Option<string>): string
  {
    var base := match localPath case None => cwd case Some(p) => p;
    var dest := Join(base, if useS3Path then s3Key else Basename(s3Key));
    match fileName
    case None => dest
    case Some(n) => ReplaceFilenameWithNew(dest, n)
  }

  /**
    `download_file_from_s3`: create the destination's directory, then get the
    object into it. Every exception is caught, so it always returns `None`;
    the get is issued only when the directory could be created.
  */
  method DownloadFileFromS3(env: Env, cwd: string, bucketName: string, s3Key: string,
                            localPath: Option<string>, useS3Path: bool, fileName: Option<string>)
    returns (outcome: Outcome, trace: seq<Call>)
    ensures outcome == Returned(PyNone)
    ensures var dest := DownloadFileDestination(cwd, s3Key, localPath, useS3Path, fileName);
            && 1 <= |trace| <= 2
            && trace[0] == MakeDirs(Dirname(dest))
            && (|trace| == 2 <==> Succeeds(env, trace[0]))
            && (|trace| == 2 ==> trace[1] == Get(bucketName, s3Key, dest))
  {
    var dest := DownloadFileDestination(cwd, s3Key, localPath, useS3Path, fileName);
    var mk := MakeDirs(Dirname(dest));
    trace := [mk];
    if Succeeds(env, mk) {
      trace := trace + [Get(bucketName, s3Key, dest)];
    }
    outcome := Returned(PyNone);
  }

  // ---------------------------------------------------------------------
  // download_folder_from_s3
  // ---------------------------------------------------------------------

  /**
    The answer to `list_objects_v2(Bucket, Prefix)`: an exception, or a
    response with or without `Contents` (the keys, in listing order).
  */
  datatype Listing = ListFailed(fault: Fault) | Listed(contents: Option<seq<string>>)

  /**
    Where `download_folder_from_s3` writes one key (aws_helper.py:137-138):
    `local_dir` joined with the key's path relative to the prefix; `None`
    when `relpath` raises.
  */
  function FolderDestination(cwd: string, s3Prefix: string, localDir: string, key: string): (r: Option<string>)
    ensures r.None? <==> key == ""
  {
    match Relpath(cwd, key, s3Prefix)
    case None => None
    case Some(rel) => Some(Join(localDir, rel))
  }

  /** The calls planned for a listing, and whether computing a destination raises first. */
  datatype Plan = Plan(calls: seq<Call>, raises: bool)

  /** Per key: create its directory, then get it; the plan ends at the first key `relpath` rejects. */
  function KeysPlan(cwd: string, bucketName: string, s3Prefix: string, localDir: string, keys: seq<string>): Plan
    decreases |keys|
  {
    if keys == [] then Plan([], false)
    else
      var before := KeysPlan(cwd, bucketName, s3Prefix, localDir, keys[..|keys| - 1]);
      var key := keys[|keys| - 1];
      if before.raises then before
      else match FolderDestination(cwd, s3Prefix, localDir, key)
        case None => Plan(before.calls, true)
        case Some(dest) => Plan(before.calls + [MakeDirs(Dirname(dest))] + [Get(bucketName, key, dest)], false)
  }

  /**
    What `download_folder_from_s3` does with a listing: nothing without
    `Contents`; otherwise the per-key calls, issued until the first failure.
    A `ClientError` is caught and ends the whole loop normally; any other
    exception propagates, as does `relpath`'s `ValueError`.
  */
  function FolderDownload(env: Env, cwd: string, bucketName: string, s3Prefix: string, localDir: string,
                          listing: Listing): (r: (Outcome, seq<Call>))
    ensures r.0 == Raised || r.0 == Returned(PyNone)
  {
    match listing
    case ListFailed(f) => (if f == ClientError then Returned(PyNone) else Raised, [])
    case Listed(None) => (Returned(PyNone), [])
    case Listed(Some(keys)) =>
      var plan := KeysPlan(cwd, bucketName, s3Prefix, localDir, keys);
      var run := Issue(env, plan.calls);
      (DownloadOutcome(run, plan.raises), run.issued)
  }

  /**
    How the key loop ends, given the run of its planned calls: a non-`ClientError`
    failure propagates, and so does `relpath`'s `ValueError` once every call
    before it succeeded; a `ClientError` ends the loop normally.
  */
  function DownloadOutcome(run: Run, raises: bool): (r: Outcome)
    ensures r == Raised || r == Returned(PyNone)
    ensures run.stop == Stopped(ClientError) ==> r == Returned(PyNone)
    ensures run.stop == Stopped(OtherError) ==> r == Raised
  {
    if run.stop == Stopped(OtherError) || (run.stop == Finished && raises) then Raised else Returned(PyNone)
  }

  lemma {:induction false} KeysPlanPrefix(cwd: string, bucketName: string, s3Prefix: string, localDir: string,
                                          keys: seq<string>, i: nat)
    requires i <= |keys|
    ensures var part := KeysPlan(cwd, bucketName, s3Prefix, localDir, keys[..i]);
            var whole := KeysPlan(cwd, bucketName, s3Prefix, localDir, keys);
            IsPrefix(part.calls, whole.calls) && (part.raises ==> whole == part)
    decreases |keys|
  {
    if i < |keys| {
      var init := keys[..|keys| - 1];
      assert init[..i] == keys[..i];
      KeysPlanPrefix(cwd, bucketName, s3Prefix, localDir, init, i);
    } else {
      assert keys[..i] == keys;
    }
  }

  lemma {:induction false} KeysPlanSnoc(cwd: string, bucketName: string, s3Prefix: string, localDir: string, keys: seq<string>, i: nat)
    requires i < |keys|
    requires !KeysPlan(cwd, bucketName, s3Prefix, localDir, keys[..i]).raises
    ensures var before := KeysPlan(cwd, bucketName, s3Prefix, localDir, keys[..i]).calls;
            KeysPlan(cwd, bucketName, s3Prefix, localDir, keys[..i + 1])
            == match FolderDestination(cwd, s3Prefix, localDir, keys[i])
               case None => Plan(before, true)
               case Some(dest) => Plan(before + [MakeDirs(Dirname(dest))] + [Get(bucketName, keys[i], dest)], false)
  {
    assert keys[..i + 1][..i] == keys[..i];
  }

  /** A key `relpath` rejects ends the plan with the calls before it. */
  lemma {:induction false} KeysPlanStopsAt(cwd: string, bucketName: string, s3Prefix: string, localDir: string,
                                           keys: seq<string>, i: nat, done: seq<Call>)
    requires i < |keys|
    requires KeysPlan(cwd, bucketName, s3Prefix, localDir, keys[..i]) == Plan(done, false)
    requires Relpath(cwd, keys[i], s3Prefix).None?
    ensures KeysPlan(cwd, bucketName, s3Prefix, localDir, keys) == Plan(done, true)
  {
    KeysPlanSnoc(cwd, bucketName, s3Prefix, localDir, keys, i);
    KeysPlanPrefix(cwd, bucketName, s3Prefix, localDir, keys, i + 1);
  }

  /** A key with a destination adds its directory creation and its get, both leading the whole plan. */
  lemma {:induction false} KeysPlanStep(cwd: string, bucketName: string, s3Prefix: string, localDir: string,
                                        keys: seq<string>, i: nat, done: seq<Call>, dest: string)
    requires i < |keys|
    requires KeysPlan(cwd, bucketName, s3Prefix, localDir, keys[..i]) == Plan(done, false)
    requires Relpath(cwd, keys[i], s3Prefix).Some? && dest == Join(localDir, Relpath(cwd, keys[i], s3Prefix).value)
    ensures var next := done + [MakeDirs(Dirname(dest))] + [Get(bucketName, keys[i], dest)];
            var whole := KeysPlan(cwd, bucketName, s3Prefix, localDir, keys).calls;
            && KeysPlan(cwd, bucketName, s3Prefix, localDir, keys[..i + 1]) == Plan(next, false)
            && IsPrefix(done + [MakeDirs(Dirname(dest))], whole)
            && IsPrefix(next, whole)
  {
    KeysPlanSnoc(cwd, bucketName, s3Prefix, localDir, keys, i);
    KeysPlanPrefix(cwd, bucketName, s3Prefix, localDir, keys, i + 1);
    assert FolderDestination(cwd, s3Prefix, localDir, keys[i]) == Some(dest);
    var mk := MakeDirs(Dirname(dest));
    var next := done + [mk] + [Get(bucketName, keys[i], dest)];
    PrefixTrans(done + [mk], next, KeysPlan(cwd, bucketName, s3Prefix, localDir, keys).calls);
  }

  /** `download_folder_from_s3`, against the listing its `list_objects_v2` call returned. */
  method DownloadFolderFromS3(env: Env, cwd: string, bucketName: string, s3Prefix: string, localDir: string,
                              listing: Listing)
    returns (outcome: Outcome, trace: seq<Call>)
    ensures (outcome, trace) == FolderDownload(env, cwd, bucketName, s3Prefix, localDir, listing)
    ensures listing.ListFailed? ==> trace == [] && (outcome == Returned(PyNone) <==> listing.fault == ClientError)
    ensures listing == Listed(None) ==> trace == [] && outcome == Returned(PyNone)
  {
    trace := [];
    if listing.ListFailed? {
      outcome := if listing.fault == ClientError then Returned(PyNone) else Raised;
      return;
    }
    if listing.contents.None? {
      outcome := Returned(PyNone);
      return;
    }
    outcome, trace := DownloadKeys(env, cwd, bucketName, s3Prefix, localDir, listing.contents.value);
  }

  /** The outcome and the trace of the key loop over `keys`: its plan, issued until the first failure. */
  predicate KeysResult(env: Env, cwd: string, bucketName: string, s3Prefix: string, localDir: string,
                       keys: seq<string>, outcome: Outcome, trace: seq<Call>)
  {
    var plan := KeysPlan(cwd, bucketName, s3Prefix, localDir, keys);
    var run := Issue(env, plan.calls);
    outcome == DownloadOutcome(run, plan.raises) && trace == run.issued
  }

  /** `relpath` raising after the successful calls `done` ends the loop with the `ValueError`. */
  lemma {:induction false} RelpathExit(env: Env, cwd: string, bucketName: string, s3Prefix: string, localDir: string,
                                       keys: seq<string>, i: nat, done: seq<Call>)
    requires i < |keys| && KeysPlan(cwd, bucketName, s3Prefix, localDir, keys[..i]) == Plan(done, false)
    requires AllSucceed(env, done) && Relpath(cwd, keys[i], s3Prefix).None?
    ensures KeysResult(env, cwd, bucketName, s3Prefix, localDir, keys, Raised, done)
  {
    KeysPlanStopsAt(cwd, bucketName, s3Prefix, localDir, keys, i, done);
    IssueAll(env, done);
  }

  /** A failing `makedirs` ends the loop with its `OSError`. */
  lemma {:induction false} MakeDirsExit(env: Env, cwd: string, bucketName: string, s3Prefix: string, localDir: string,
                                        keys: seq<string>, i: nat, done: seq<Call>, dest: string)
    requires i < |keys| && KeysPlan(cwd, bucketName, s3Prefix, localDir, keys[..i]) == Plan(done, false)
    requires AllSucceed(env, done)
    requires Relpath(cwd, keys[i], s3Prefix).Some? && dest == Join(localDir, Relpath(cwd, keys[i], s3Prefix).value)
    requires !Succeeds(env, MakeDirs(Dirname(dest)))
    ensures KeysResult(env, cwd, bucketName, s3Prefix, localDir, keys, Raised, done + [MakeDirs(Dirname(dest))])
  {
    KeysPlanStep(cwd, bucketName, s3Prefix, localDir, keys, i, done, dest);
    IssueStopsAfter(env, KeysPlan(cwd, bucketName, s3Prefix, localDir, keys).calls, done, MakeDirs(Dirname(dest)));
  }

  /** A failing get ends the loop: normally on a `ClientError`, by propagating anything else. */
  lemma {:induction false} GetExit(env: Env, cwd: string, bucketName: string, s3Prefix: string, localDir: string,
                                   keys: seq<string>, i: nat, done: seq<Call>, dest: string)
    requires i < |keys| && KeysPlan(cwd, bucketName, s3Prefix, localDir, keys[..i]) == Plan(done, false)
    requires AllSucceed(env, done)
    requires Relpath(cwd, keys[i], s3Prefix).Some? && dest == Join(localDir, Relpath(cwd, keys[i], s3Prefix).value)
    requires Succeeds(env, MakeDirs(Dirname(dest))) && Respond(env, Get(bucketName, keys[i], dest)).Failed?
    ensures var get := Get(bucketName, keys[i], dest);
            KeysResult(env, cwd, bucketName, s3Prefix, localDir, keys,
                       if Respond(env, get).fault == ClientError then Returned(PyNone) else Raised,
                       done + [MakeDirs(Dirname(dest))] + [get])
  {
    var mk, get := MakeDirs(Dirname(dest)), Get(bucketName, keys[i], dest);
    KeysPlanStep(cwd, bucketName, s3Prefix, localDir, keys, i, done, dest);
    AllSucceedSnoc(env, done, mk);
    IssueStopsAfter(env, KeysPlan(cwd, bucketName, s3Prefix, localDir, keys).calls, done + [mk], get);
  }

  /** A key whose two calls succeed extends the successful prefix of the plan by them. */
  lemma {:induction false} KeyDone(env: Env, cwd: string, bucketName: string, s3Prefix: string, localDir: string,
                                   keys: seq<string>, i: nat, done: seq<Call>, dest: string)
    requires i < |keys| && KeysPlan(cwd, bucketName, s3Prefix, localDir, keys[..i]) == Plan(done, false)
    requires AllSucceed(env, done)
    requires Relpath(cwd, keys[i], s3Prefix).Some? && dest == Join(localDir, Relpath(cwd, keys[i], s3Prefix).value)
    requires Succeeds(env, MakeDirs(Dirname(dest))) && Succeeds(env, Get(bucketName, keys[i], dest))
    ensures var next := done + [MakeDirs(Dirname(dest))] + [Get(bucketName, keys[i], dest)];
            KeysPlan(cwd, bucketName, s3Prefix, localDir, keys[..i + 1]) == Plan(next, false)
            && AllSucceed(env, next)
  {
    var mk, get := MakeDirs(Dirname(dest)), Get(bucketName, keys[i], dest);
    KeysPlanStep(cwd, bucketName, s3Prefix, localDir, keys, i, done, dest);
    AllSucceedSnoc(env, done, mk);
    AllSucceedSnoc(env, done + [mk], get);
  }

  /** After every key, all planned calls were issued and succeeded. */
  lemma {:induction false} LoopExit(env: Env, cwd: string, bucketName: string, s3Prefix: string, localDir: string,
                                    keys: seq<string>, done: seq<Call>)
    requires KeysPlan(cwd, bucketName, s3Prefix, localDir, keys[..|keys|]) == Plan(done, false)
    requires AllSucceed(env, done)
    ensures KeysResult(env, cwd, bucketName, s3Prefix, localDir, keys, Returned(PyNone), done)
  {
    TakeAll(keys, |keys|);
    IssueAll(env, done);
  }

  /**
    One pass of the key loop of `download_folder_from_s3` (aws_helper.py:136-145),
    after the calls `done` for the keys before `keys[i]` all succeeded. Either
    the loop ends here, with the outcome and the trace of the whole loop, or
    it goes on with this key's two calls added.
  */
  method DownloadKey(env: Env, cwd: string, bucketName: string, s3Prefix: string, localDir: string,
                     keys: seq<string>, i: nat, done: seq<Call>)
    returns (stop: bool, outcome: Outcome, trace: seq<Call>)
    requires i < |keys| && KeysPlan(cwd, bucketName, s3Prefix, localDir, keys[..i]) == Plan(done, false)
    requires AllSucceed(env, done)
    ensures stop ==> KeysResult(env, cwd, bucketName, s3Prefix, localDir, keys, outcome, trace)
    ensures !stop ==> KeysPlan(cwd, bucketName, s3Prefix, localDir, keys[..i + 1]) == Plan(trace, false)
                      && AllSucceed(env, trace)
  {
    var s3Key := keys[i];
    var relativePath := Relpath(cwd, s3Key, s3Prefix);
    if relativePath.None? {
      RelpathExit(env, cwd, bucketName, s3Prefix, localDir, keys, i, done);
      stop, outcome, trace := true, Raised, done;
      return;
    }
    var localFilePath := Join(localDir, relativePath.value);
    var mk := MakeDirs(Dirname(localFilePath));
    if !Succeeds(env, mk) {
      MakeDirsExit(env, cwd, bucketName, s3Prefix, localDir, keys, i, done, localFilePath);
      stop, outcome, trace := true, Raised, done + [mk];
      return;
    }
    var get := Get(bucketName, s3Key, localFilePath);
    var response := Respond(env, get);
    trace := done + [mk] + [get];
    if response.Failed? {
      GetExit(env, cwd, bucketName, s3Prefix, localDir, keys, i, done, localFilePath);
      stop := true;
      if response.fault == ClientError {
        outcome := Returned(PyNone);
      } else {
        outcome := Raised;
      }
      return;
    }
    KeyDone(env, cwd, bucketName, s3Prefix, localDir, keys, i, done, localFilePath);
    stop, outcome := false, Returned(PyNone);
  }

  /** The key loop of `download_folder_from_s3` (aws_helper.py:135-147). */
  method DownloadKeys(env: Env, cwd: string, bucketName: string, s3Prefix: string, localDir: string,
                      keys: seq<string>)
    returns (outcome: Outcome, trace: seq<Call>)
    ensures KeysResult(env, cwd, bucketName, s3Prefix, localDir, keys, outcome, trace)
  {
    trace := [];
    var i := 0;
    while i < |keys|
      invariant 0 <= i <= |keys|
      invariant KeysPlan(cwd, bucketName, s3Prefix, localDir, keys[..i]) == Plan(trace, false)
      invariant AllSucceed(env, trace)
    {
      var stop;
      stop, outcome, trace := DownloadKey(env, cwd, bucketName, s3Prefix, localDir, keys, i, trace);
      if stop {
        return;
      }
      i := i + 1;
    }
    LoopExit(env, cwd, bucketName, s3Prefix, localDir, keys, trace);
    outcome := Returned(PyNone);
  }
}
