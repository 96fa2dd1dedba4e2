# s3_python_helper: a Dafny model of `aws_helper.py`

`aws_helper.py` is a small helper layer over a boto3 S3 client. It uploads a
file or a folder to a bucket and downloads an object or every object under a
prefix. This project models the part of it that decides *what* is
transferred *where*:

- how a local path becomes an S3 key on upload: `get_base_directory`,
  `replace_filename_with_new`, the key computation of `upload_file_to_s3` and
  `upload_folder_to_s3`, and the backslash-to-slash rewrite;
- how an S3 key becomes a local path on download: the destination logic of
  `download_file_from_s3` and `download_folder_from_s3`, including
  `os.path.relpath`;
- the control flow of the transfers: which storage and `os.makedirs` calls
  happen, in which order, where a loop stops, and what each function returns
  or lets escape.

Modules:

| module | file | contents |
|---|---|---|
| `Wrappers` | `wrappers.dfy` | `Option` |
| `SeqFacts` | `seq_facts.dfy` | the prefix relation on sequences, and small facts about `+` and slicing |
| `StrOps` | `str_ops.dfy` | `str` methods: `replace` and `lstrip`, which the helper calls, and `find`, `rfind`, `rstrip`, `split` and `join`, which `posixpath` uses |
| `PosixPath` | `posix_path.dfy` | POSIX `os.path`: `basename`, `dirname`, `join`, `normpath`, `abspath`, `relpath` |
| `Effects` | `effects.dfy` | the calls into the client and the filesystem, the oracle that answers them, fail-fast issuing |
| `AwsHelper` | `aws_helper.dfy` | the functions of `aws_helper.py` |
| `AwsHelperProperties` | `aws_helper_properties.dfy` | what those functions promise |

How the outside world is modelled:

- The shared `s3_client` and `os.makedirs` are one oracle,
  `env: Call -> Response`. A call either succeeds or fails with a
  `ClientError` or with some other exception.
- Which of the two a failing storage call raises is the oracle's choice. It
  abstracts the client library, whose own exception types are not part of
  this model. So the `ClientError` outcomes cover the handlers as written,
  and say nothing about which exceptions boto3 itself raises. Its transfer
  methods may, for example, wrap an upload failure in a different exception
  type.
- Each transfer function returns its `Outcome` together with the trace of
  calls it issued, in order. The `Outcome` is a return value (`True`,
  `False`, `None`) or `Raised`, for an exception escaping the function.
- `os.makedirs(d, exist_ok=True)` is a recorded call. It always fails for
  `d == ""`, and it never fails with a `ClientError`.
- The working directory (`os.getcwd()`) is an input. So are the directory
  triples of `os.walk` and the response of `list_objects_v2`.

The loops are imperative methods:

- `GetBaseDirectory`, proved against `DirnameN`;
- `UploadWalk`, with its inner loop over one directory's files in `UploadFiles`;
- `DownloadKeys`, with one pass of its loop body in `DownloadKey`.

Each transfer loop is proved against the plan of calls it should make
(`WalkPuts`, `KeysPlan`), issued in order by `Effects.Issue` up to the first
failure. The lemmas then prove what the transfers promise about those plans.

Without `use_whole_path`, the docstring of `upload_folder_to_s3`
(aws_helper.py:61-62) says the keys use the last folder in the `folder_name`
path. The code does this. Uploading folder `root` (holding `root/sub/a.txt`)
with prefix `backup` gives the key `backup/root/sub/a.txt`:

- `get_base_directory("root")` is `""`;
- replacing `""` by `""` leaves the walked path `root/sub/a.txt` as it is.

`AwsHelperProperties.BareFolderKeepsName` states this behaviour for a
walked path and prefix without backslashes, with the walked path non-empty and
not starting with `/`. `AwsHelperProperties.FolderKeyBelowBase` states it for
a folder below a parent directory, for a path `<base>/<rest>` whose `rest` is
non-empty, does not start with `/` and, like the prefix, has no backslash.
Outside these conditions the key still follows the code: backslashes become
`/` and leading slashes of the stored path are stripped.

The base directory is removed with `str.replace` (aws_helper.py:71), so it is
cut wherever it occurs, not only at the start. A top-level folder such as
`/data` has base `/`, so every `/` goes and `/data/sub/a.txt` is stored as
`datasuba.txt`; a base `a` cuts the letter out of names, turning
`a/root/a.txt` into `root/.txt`. The model keeps this behaviour:
`TopLevelFolderBase`, `FolderKeySingleCharBase` and
`FolderKeyCutsEveryOccurrence` state it.

## Model

| member | source | states |
|---|---|---|
| `AwsHelper.GetBaseDirectory` | aws_helper.py:7-12 | the result is `dirname` applied `levels_up` times to the normalised path, and not at all for a negative count |
| `AwsHelper.DirnameN` | aws_helper.py:10-11 | `dirname` applied `n` times, the meaning of the loop; `BaseDirectoryIsPrefix`, `BaseDirectoryShrinks` and `BaseDirectoryBottomsOut` state what it gives |
| `AwsHelperProperties.BaseDirectoryIsPrefix` | aws_helper.py:7-12 | every level climbed is a prefix of the path it started from |
| `AwsHelperProperties.BaseDirectoryShrinks` | aws_helper.py:10-11 | level `n` is a run of slashes or at least `n` characters shorter than the normalised path |
| `AwsHelperProperties.BaseDirectoryBottomsOut` | aws_helper.py:7-12 | climbing at least as many levels as the normalised path has characters ends at `""`, `/` or `//`, which `dirname` fixes |
| `AwsHelperProperties.BaseDirectoryOfBareName` | aws_helper.py:65 | a folder given as a bare name has base directory `""` |
| `AwsHelper.ReplaceFilenameWithNew` | aws_helper.py:14-24 | a relative new name goes under the old path's directory and ends the result; an absolute one is the result; a plain name becomes exactly the last component under exactly the old directory |
| `AwsHelperProperties.ReplaceFilenameIdempotent` | aws_helper.py:14-24 | renaming to the same plain name twice is the same as renaming once |
| `AwsHelper.S3Key` | aws_helper.py:45 | the key has no backslash, and a path without backslashes is kept as it is |
| `AwsHelperProperties.S3KeyAcrossBackslash` | aws_helper.py:45 | every backslash becomes a slash, not only the first |
| `AwsHelper.UploadKey` | aws_helper.py:36-45 | the key a single-file upload uses has no backslash |
| `AwsHelper.UploadObjectName` | aws_helper.py:36-42 | without `use_whole_path` the object name is a single component (no `/`); its last component is that of `object_name` when one is given, else that of `file_name`; `UploadKeyFlat`, `UploadKeyRenamed`, `UploadKeyWholePathAbsolute`, `UploadKeyWholePathRelative`, `UploadKeyRenamedWholePath` and `UploadKeyRenamedWholePathAbsolute` give the key in each case |
| `AwsHelperProperties.UploadKeyFlat` | aws_helper.py:36-45 | with no `object_name` and no `use_whole_path`, and a file path and prefix without backslashes, the key is the prefix, then a `/` unless the prefix is empty or ends in one, then the file's last component |
| `AwsHelperProperties.UploadKeyRenamed` | aws_helper.py:36-45 | with an `object_name` and no `use_whole_path`, and an `object_name` and prefix without backslashes, the key is the last component of `object_name` under the prefix, whatever directories the file has |
| `AwsHelperProperties.UploadKeyWholePathAbsolute` | aws_helper.py:41-45 | with `use_whole_path` and no `object_name`, an absolute file path discards the prefix: the key is that path, leading slash included, with its backslashes made slashes |
| `AwsHelperProperties.UploadKeyWholePathRelative` | aws_helper.py:41-45 | with `use_whole_path` and no `object_name`, a relative file path goes whole under the prefix, when neither has a backslash |
| `AwsHelperProperties.UploadKeyRenamedWholePath` | aws_helper.py:36-45 | with an `object_name` and `use_whole_path`, a relative file path and a relative `object_name`, both without backslashes, give the renamed path (the file's directories kept) under the prefix |
| `AwsHelperProperties.UploadKeyRenamedWholePathAbsolute` | aws_helper.py:36-45 | with an `object_name` and `use_whole_path`, a renamed path that is absolute discards the prefix and is the key after the backslash rewrite; an absolute `object_name` also discards the file's directories, and the key is `object_name` with its backslashes made slashes |
| `AwsHelper.UploadFileToS3` | aws_helper.py:36-53 | exactly one put of the file under `UploadKey`; `True` exactly when it succeeds, `False` exactly on a `ClientError`, and any other exception escapes |
| `AwsHelper.FolderRelativePath` | aws_helper.py:70-73 | the stored path never starts with `/`; with `use_whole_path` it is the walked path with its leading slashes stripped |
| `AwsHelper.FolderKey` | aws_helper.py:69-75 | a walked file's key has no backslash |
| `AwsHelperProperties.FolderKeyEmptyPrefix` | aws_helper.py:70-75 | under an empty prefix, a walked file's key is its stored path, with backslashes made slashes |
| `AwsHelperProperties.BareFolderKeepsName` | aws_helper.py:65-75 | a folder given as a bare name (not `.` or `..`) keeps that name in every key: for a non-empty walked path that does not start with `/` and a walked path and prefix without backslashes, the walked path goes whole under the prefix |
| `AwsHelperProperties.FolderKeyBelowBase` | aws_helper.py:69-75 | a walked path `<base>/<rest>` in which the base directory occurs only at the start is stored as `<rest>` under the prefix, for a non-empty `rest` that does not start with `/` and a `rest` and prefix without backslashes |
| `AwsHelperProperties.FolderKeyCutsEveryOccurrence` | aws_helper.py:71 | the base directory is cut out wherever it occurs: base `a` turns `a/ba` into `b` |
| `AwsHelperProperties.TopLevelFolderBase` | aws_helper.py:65 | a top-level folder `/<name>` has the root `/` as its base directory |
| `AwsHelperProperties.FolderKeySingleCharBase` | aws_helper.py:70-71 | a one-character base directory is cut out of every name: with base `/` (a top-level folder) the stored path has no `/` left, so the walked tree is flattened; with base `a` no stored name keeps a letter `a` |
| `PosixPath.NormpathOfTopLevel` | aws_helper.py:8 | a plain name directly under the root is already normal |
| `AwsHelperProperties.FolderPlanShape` | aws_helper.py:67-77 | the folder upload plans exactly one put per walked file, each into the given bucket and under a key without backslashes |
| `AwsHelper.WalkPuts` | aws_helper.py:67-77 | the puts planned for a walk, one per walked file in walk order; `FolderPlanShape` proves one put per file, each into the bucket under a key without backslashes, and `UploadWalk` proves the loop issues them in this order |
| `AwsHelper.FolderPlan` | aws_helper.py:65-77 | the walk's puts under the folder's base directory, `dirname` of the normalised folder name; `UploadFolderToS3` and `UploadFolderFailFast` state what issuing it does |
| `AwsHelperProperties.EmptyWalkUploadsNothing` | aws_helper.py:67-83 | a walk that lists no file issues no put, and the upload returns `None` |
| `AwsHelper.UploadFiles` | aws_helper.py:68-80 | the loop over one directory's files either ends the whole function at a failing put, with the outcome and trace of the walk, or puts every file of the directory |
| `AwsHelper.UploadWalk` | aws_helper.py:67-83 | the walk loop issues the planned puts in walk order up to the first failure; it returns `None` after all of them, `False` on a `ClientError`, and lets anything else escape |
| `AwsHelper.WalkStopsAt` | aws_helper.py:76-80 | a failing put after successful ones ends the whole walk, with the puts so far and that one as the trace |
| `AwsHelper.PutExit` | aws_helper.py:76-80 | a failing put makes the function return `False` on a `ClientError` and raise otherwise |
| `AwsHelper.FolderUploadOutcome` | aws_helper.py:76-83 | the folder upload never returns `True`: `None` after the loop, `False` on a `ClientError`, and any other exception escapes; `UploadFolderFailFast` ties it to the issued puts |
| `AwsHelper.UploadFolderToS3` | aws_helper.py:55-83 | the trace is the plan issued up to its first failure (the plan uses the folder's base directory), and the outcome is how that run stopped |
| `AwsHelperProperties.UploadFolderFailFast` | aws_helper.py:55-83 | the issued puts lead the plan; `None` exactly when every planned put was issued and succeeded; `False` exactly when the last one issued raised a `ClientError`; never `True`; on an early stop, every put but the last succeeded |
| `AwsHelper.DownloadFileDestination` | aws_helper.py:95-106 | the path `download_file_from_s3` writes to; `DownloadFileName`, `DownloadFileFlat`, `DownloadFileMirrors` and `DownloadFileRenamed` state its meaning |
| `AwsHelperProperties.DownloadFileName` | aws_helper.py:95-106 | whatever the base and `use_s3_path`, the saved file is named by the last component of the key, or of `file_name` when one is given |
| `AwsHelper.DownloadFileFromS3` | aws_helper.py:85-116 | always returns `None`; first creates the destination's directory, then issues the get into the destination only if that succeeded |
| `AwsHelperProperties.DownloadFileFlat` | aws_helper.py:95-103 | without `use_s3_path` and `file_name`, the object lands directly in the base directory (`local_path` or the working directory) under its key's last component |
| `AwsHelperProperties.DownloadFileMirrors` | aws_helper.py:96-101 | with `use_s3_path`, a relative key is mirrored under the base directory, and a key starting with `/` replaces it |
| `AwsHelperProperties.DownloadFileRenamed` | aws_helper.py:105-106 | a plain `file_name` renames the file and keeps the directory it would have gone to |
| `AwsHelperProperties.DownloadFileIntoEmptyLocalPath` | aws_helper.py:100-110 | with `local_path=""`, no `use_s3_path` and no `file_name`, the directory to create is `""`, whose creation fails, so nothing is fetched |
| `AwsHelper.FolderDestination` | aws_helper.py:137-138 | a key has a local destination exactly when it is not empty; `PrefixedKeyDestination` and `TopLevelKeyDestination` state where it is |
| `AwsHelperProperties.FolderDestinationFails` | aws_helper.py:137-138 | a key has no local destination (`relpath` raises) exactly when it is empty |
| `AwsHelperProperties.KeysPlanRaises` | aws_helper.py:135-138 | the plan ends in `relpath`'s `ValueError` exactly when the listing holds the empty key |
| `AwsHelperProperties.KeysPlanLength` | aws_helper.py:135-144 | without an empty key, the plan has two calls per listed key |
| `AwsHelperProperties.KeysPlanAt` | aws_helper.py:135-144 | the `k`-th pair of planned calls creates the directory of key `k`'s destination and then gets key `k` into it |
| `AwsHelperProperties.KeysPlanNoPut` | aws_helper.py:135-144 | the folder download plans no upload |
| `AwsHelperProperties.PrefixedKeyDestination` | aws_helper.py:137-138 | a key `<prefix>/<rest>` is written to `<rest>` under the local directory, when the paths are clean and the working directory is absolute |
| `AwsHelperProperties.TopLevelKeyDestination` | aws_helper.py:137-138 | with `local_dir=""`, a key directly below the prefix is written to its bare name, whose directory is `""` |
| `AwsHelperProperties.DefaultLocalDirTopLevelKeyRaises` | aws_helper.py:119-147 | with the default `local_dir=""`, a single key directly below the prefix makes `os.makedirs("")` raise, and the exception escapes before any get |
| `AwsHelper.KeysPlan` | aws_helper.py:135-144 | per listed key a `makedirs` then a get, ending at the first key `relpath` rejects; `KeysPlanRaises`, `KeysPlanLength`, `KeysPlanAt` and `KeysPlanNoPut` state its meaning |
| `AwsHelper.DownloadOutcome` | aws_helper.py:135-147 | the key loop returns `None` or raises and never returns anything else; a `ClientError` is caught and a `None` returned, any other failure escapes |
| `AwsHelper.FolderDownload` | aws_helper.py:127-147 | `download_folder_from_s3` only ever returns `None` or raises; `DownloadFolderFromS3` and `FolderDownloadFailFast` state which and with what calls |
| `AwsHelper.RelpathExit` | aws_helper.py:137 | `relpath` raising on a key, after the calls before it succeeded, ends the loop with the exception escaping |
| `AwsHelper.MakeDirsExit` | aws_helper.py:141 | a failing `makedirs` ends the loop, and its exception escapes |
| `AwsHelper.GetExit` | aws_helper.py:144-147 | a failing get ends the loop: normally on a `ClientError`, by raising otherwise |
| `AwsHelper.KeysPlanStep` | aws_helper.py:135-144 | a key with a destination adds its `makedirs` and then its get to the plan |
| `AwsHelper.DownloadKey` | aws_helper.py:136-145 | one key either ends the loop, with the outcome and trace of the whole loop, or adds its `makedirs` and its get, both successful |
| `AwsHelper.DownloadKeys` | aws_helper.py:135-147 | the key loop issues the plan (per key, a `makedirs` then a get) up to its first failure, with the outcome that failure dictates |
| `AwsHelper.DownloadFolderFromS3` | aws_helper.py:119-147 | a failed listing issues no call, and returns `None` exactly when it failed with a `ClientError`; a response without `Contents` returns `None` with no calls; otherwise the key loop's outcome and trace |
| `AwsHelperProperties.FolderDownloadFailFast` | aws_helper.py:127-147 | the issued calls lead the plan; `None` exactly when every planned call succeeded and no key was empty, or when the last call issued was a get that raised a `ClientError` |
| `Effects.Respond` | aws_helper.py:141 | `os.makedirs("")` fails; a failing `makedirs` is never a `ClientError`; storage calls are answered by the client |
| `Effects.Issue` | aws_helper.py:127-147 | the fail-fast meaning of the `try` blocks here and at aws_helper.py:76-80: the planned calls issued in order up to the first failure; `IssueFailFast` states it |
| `Effects.IssueFailFast` | aws_helper.py:76-80 | issuing stops at the first failing call: what is issued leads the plan, all of it but the last succeeded, and the run finishes exactly when the whole plan succeeded |
| `PosixPath.Basename` | aws_helper.py:42 | the last component has no `/`, ends the path, and follows its last `/` |
| `PosixPath.Dirname` | aws_helper.py:22 | the directory part is a prefix of the path, and is `""` for a path without `/` |
| `PosixPath.Join` | aws_helper.py:23 | a join ends with its right argument |
| `PosixPath.DirnameBasenameOfJoinName` | aws_helper.py:22-23 | joining a plain name under a directory part gives back exactly that directory and that name |
| `PosixPath.BasenameOfJoin` | aws_helper.py:103 | the last component of a join is the last component of its right argument |
| `PosixPath.DirnameShrinks` | aws_helper.py:11 | `dirname` fixes exactly the all-slash paths and shortens every other path |
| `PosixPath.Normpath` | aws_helper.py:8 | a normalised path is never empty |
| `PosixPath.NormpathNoTripleSlash` | aws_helper.py:8 | a normalised path never starts with three slashes |
| `PosixPath.NormpathOfName` | aws_helper.py:8 | a plain relative name is already normal |
| `PosixPath.Abspath` | aws_helper.py:137 | against an absolute working directory, or for an absolute path, the result is absolute |
| `PosixPath.Relpath` | aws_helper.py:137 | `relpath` raises `ValueError` exactly for an empty path; `RelpathUnderStart`, `RelpathBelowPrefix` and `RelpathOfPrefixedKey` state its result |
| `PosixPath.RelpathUnderStart` | aws_helper.py:137 | when the components of the absolute start lead those of the absolute path, `relpath` is the rest joined, or `.` |
| `PosixPath.RelpathBelowPrefix` | aws_helper.py:137 | the same for relative key and prefix without `.` or `..`, against an absolute working directory |
| `PosixPath.RelpathOfPrefixedKey` | aws_helper.py:137 | a clean key `<prefix>/<rest>` is at `<rest>` relative to the prefix |
| `StrOps.LStrip` | aws_helper.py:71 | `lstrip('/')` removes exactly the leading run of `/` |
| `StrOps.ReplaceAll` | aws_helper.py:71 | `str.replace`, used here and at aws_helper.py:45: replacing a pattern by itself changes nothing; `ReplaceEmptyByEmpty`, `ReplaceAbsent`, `ReplaceLeading` and `ReplaceCharRemoves` state the rest |
| `StrOps.ReplaceEmptyByEmpty` | aws_helper.py:71 | replacing `""` by `""` changes nothing |
| `StrOps.ReplaceAbsent` | aws_helper.py:71 | replacing a pattern that does not occur changes nothing |
| `StrOps.ReplaceLeading` | aws_helper.py:71 | one step of `str.replace` unfolded: a leading occurrence is replaced and the scan goes on after it |
| `StrOps.ReplaceCharRemoves` | aws_helper.py:45 | after replacing `\` by `/`, no backslash is left |

## Left out

- `initializeEnvirons` (aws_helper.py:149-155): it creates the boto3 session and the shared client. The model takes the client as the oracle `env`.
- The bytes moved by `upload_file` and `download_file`, and their effects on S3 and on the local disk: only the calls are recorded.
- The `print` and `logging.error` output, including the success message that `upload_folder_to_s3` builds from `output_path` (aws_helper.py:82-83).
- Windows path semantics (`ntpath`). The model is POSIX `os.path`, so a backslash in a local path is an ordinary character until the key rewrite.
- Pagination of `list_objects_v2`: the model takes the first response's keys, as the source does.
- The oracle answers depend only on the call, not on earlier calls. A `makedirs` whose success depends on an earlier one is not modelled.
- `os.walk` order, its error handling and its unused `dirs`: the walk is an input sequence of `(root, files)` entries.
- `os.getcwd()` is an input, so `abspath` inside `relpath` uses a given working directory.
- `PosixPath.RelpathBelowPrefix`: states only the case where the prefix's components lead the key's, with no `.`, `..` or empty components in the relative paths. `PosixPath.Relpath` itself models every case, `..` climbing included.
- `AwsHelperProperties.DownloadFileFlat`: stated for a base directory that is empty, all slashes or not ending in `/`, and a key whose last component is not empty.
- `Effects.Respond`: a failing `makedirs` is modelled as one kind of exception, not the specific `OSError` subclasses.
