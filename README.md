# s3yum in Dafny

s3yum keeps a yum package repository in an Amazon S3 bucket. The repository
has RPM packages under a path prefix and yum metadata under
`<path>/repodata`. The command line tool has five actions:

- `create` and `update` build a local working directory. They copy the given
  RPMs into it (`update` first downloads the current repository), run
  `createrepo`, and then publish. Publishing uploads the packages that changed,
  deletes the old metadata and every package matched by `--remove`, and
  uploads the new metadata.
- `get` downloads the whole repository into an output directory.
- `list` lists what is in the bucket.
- `delete` asks for a "yes" up to five times and then deletes the repository.

This project models that core of `s3yum/s3yum_cli.py` and `s3yum/util.py`:

- the transfer decisions and loops;
- the confirmation prompt;
- the working-directory steps;
- `perform_action`;
- `main`'s argument validation and clean-up;
- the `s3join` key helper, the S3 time parser and the MD5 file checksum.

It proves properties of each.

How things are represented:

- **The bucket** is a `Remote.Store` class. Its `objects` map holds each key's
  contents, ETag and Last-Modified text. Its `log` records every put and
  delete in order, so a dry run is specified as "the log did not change".
- **The local disk** is a `Local.LocalFs` class. It holds a map from
  directory path to that directory's entries, each entry a regular file
  (contents and mtime) or a sub-directory.
- **An invocation's state** (`S3YumContext`) is the `Session.Context` class.
- **Loops** become methods with invariants, proved against functions that
  recurse from the end of the sequence (`Downloads`, `UploadPlan`, `Copies`,
  `RemovedDeletes`, `KeepMetadata`, `KeepRpms`, `Confirm`).
- **Exceptions** become a `Result` whose `Error` says which handler would
  catch them:
  - `UserError` and `ServiceError` are the module's own exceptions;
  - `IOError` is the one `download_items` converts;
  - `Other` is an exception no handler of the module converts, which `main`
    reports through its catch-all.

A few things are parameters rather than code:

- the MD5 function (`Md5.Digest`);
- the name `tempfile.mkdtemp` returns;
- the `createrepo` program, as a function from the working directory's
  entries to the repodata directory it writes, or `None` when it fails;
- the lines typed at the delete prompt;
- the current time stamped on written files and uploaded objects.

Three behaviours of the code are easy to misread. The model follows the
code in each:

- **The docstring of `s3time_as_datetime`** says it returns `None` on
  failure. The code raises an exception. `S3Time.S3TimeAsDatetime` returns
  `Failure(NoMatchingFormat(t))`, and `should_download` and `should_upload`
  propagate it.
- **The output check.** `context.action in (GET)` tests against the string
  `'get'`, not a one-element tuple, so it is a substring test.
  `Cli.Validate` models it as `Contains(Get, action)`, and
  `Cli.GetTestIsEquality` shows that this is equality for the six valid
  actions.
- **The `--remove` loop** deletes an item once for every pattern that matches
  it. `Publish.DeleteMultiplicity` states the multiplicity. The metadata and
  package listings are not a partition of the bucket either:
  - `list_rpms` lists under the bare path prefix, so a repository at `dev`
    also picks up the packages of `devel` (`Listing.SiblingRepoListed`);
  - a `.rpm` key under `repodata/` is in both lists.

## Model

| member | source | states |
|---|---|---|
| Paths.CollapseSlashes | s3yum/util.py:48 | the result of collapsing slash runs has no two slashes in a row, is no longer than the input, and keeps its first and last character |
| Paths.S3Join | s3yum/util.py:43-51 | an s3join result never starts with a slash and never holds two slashes in a row |
| Paths.StripLeadingSlashes | s3yum/s3yum_cli.py:212 | the stripped path is a suffix of the input, does not start with '/', and only slashes were removed |
| Paths.Basename | s3yum/s3yum_cli.py:418 | os.path.basename has no slash and is no longer than the path |
| Paths.BasenameIsSuffix | s3yum/s3yum_cli.py:418 | the base name is the tail of the path, and a slash comes right before it when anything does |
| Paths.CollapseIdentity | s3yum/util.py:48 | collapsing a string that has no run of slashes is the identity |
| Paths.JoinPlain | s3yum/util.py:47 | joining non-empty slash-free parts with '/' gives a string with no doubled slash and no leading slash |
| Paths.S3JoinPlain | s3yum/util.py:43-51 | for non-empty slash-free parts, s3join is plain joining with '/' |
| Paths.S3JoinIdempotent | s3yum/util.py:43-51 | s3join of its own output changes nothing |
| Paths.S3JoinTrailingSlash | s3yum/util.py:43-51 | a trailing slash on the last part survives s3join, unless the whole join collapses to "/" |
| Paths.S3JoinPlainExample | tests/test_util.py:34 | s3join('a','b','c') is 'a/b/c' |
| Paths.CollapseTailExample | s3yum/util.py:48 | the slash runs of '///c' collapse to '/c' |
| Paths.CollapseMiddleExample | s3yum/util.py:48 | the slash runs of '///b///c' collapse to '/b/c' |
| Paths.CollapseDoubledExample | s3yum/util.py:48 | the slash runs of 'a///b///c' collapse to 'a/b/c' |
| Paths.S3JoinDoubledExample | tests/test_util.py:36 | s3join('a/','/b/','/c') is 'a/b/c' |
| Paths.S3JoinTrailingExample | tests/test_util.py:38 | s3join('a','b','c/') is 'a/b/c/' |
| Text.ContainsAt | s3yum/s3yum_cli.py:361 | `find(sub) != -1` holds exactly when `sub` occurs at some offset |
| Text.Lower | s3yum/s3yum_cli.py:208 | lower() maps every character through the ASCII lower-casing and keeps the length |
| Md5.Hasher.constructor | s3yum/util.py:107 | a new hasher has been fed nothing |
| Md5.Hasher.Update | s3yum/util.py:111 | update appends the block to what the hasher has been fed |
| Md5.Reader.constructor | s3yum/util.py:108 | an opened file reads from position 0 |
| Md5.Reader.Read | s3yum/util.py:109 | read(n) returns the next at most n bytes and advances the position by that many |
| Md5.GetFileMd5 | s3yum/util.py:102-113 | the hex digest is the digest of the whole file; the loop reads exactly ceil(size / 65536) non-empty blocks |
| Md5.FileMatches | s3yum/util.py:116-122 | md5_matches is true exactly when the file's digest equals the token |
| S3Time.AtOrAfterTotalOrder | s3yum/s3yum_cli.py:400 | the `>=` of naive datetimes is reflexive, total, antisymmetric and transitive |
| S3Time.DigitRun | s3yum/util.py:150-151 | the digit run at the head of a string is all digits and is followed by a non-digit or the end |
| S3Time.ParseIsoForm | s3yum/util.py:150-151 | strptime with the ISO format yields only values the datetime constructor accepts |
| S3Time.ParseHttpForm | s3yum/util.py:154-155 | strptime with the RFC 1123 format yields only values the datetime constructor accepts |
| S3Time.S3TimeAsDatetime | s3yum/util.py:133-159 | a parsed time is a valid datetime; failure is exactly the "no matching format" exception for the input text |
| S3Time.PadValue | s3yum/util.py:150 | a zero-padded decimal rendering reads back as its value |
| S3Time.FieldOfPad | s3yum/util.py:150 | a numeric strptime field reads a padded value back when it fits the field's width and range |
| S3Time.FractionOfMillis | s3yum/util.py:151 | %f reads three millisecond digits back as microseconds |
| S3Time.NameOf | s3yum/util.py:155 | %a/%b read a name case-insensitively and yield its index in the name table |
| S3Time.ParseClockText | s3yum/util.py:150-155 | '%H:%M:%S' reads a rendered time of day back exactly |
| S3Time.ParseIsoDateText | s3yum/util.py:150-151 | '%Y-%m-%d' reads a rendered date back exactly |
| S3Time.ParseIsoText | s3yum/util.py:150-151 | the ISO form of any valid datetime parses back to it, and any text after it is rejected |
| S3Time.ParseWeekdayAndDay | s3yum/util.py:154-155 | '%a, %d' accepts a weekday name and reads the day back |
| S3Time.ParseMonthAndYear | s3yum/util.py:154-155 | '%b %Y' reads a month name and the year back |
| S3Time.ParseHttpDateText | s3yum/util.py:154-155 | '%a, %d %b %Y' reads a rendered date back, whatever the weekday |
| S3Time.GmtZone | s3yum/util.py:155 | %Z accepts GMT |
| S3Time.ParseHttpText | s3yum/util.py:154-155 | the RFC 1123 form of any valid datetime parses back to it |
| S3Time.BothFormsAgree | s3yum/util.py:133-159 | both Last-Modified forms of one wall-clock value give that same datetime |
| S3Time.FormsDisjoint | s3yum/util.py:148-158 | no text is accepted by both formats, so the order of the fallback never changes a result |
| S3Time.TrailingTextRejected | s3yum/util.py:148-158 | an ISO stamp followed by extra text raises the "no matching format" exception |
| Glob.PlainMatchesItself | s3yum/s3yum_cli.py:550 | a --remove pattern without wildcards matches exactly the key equal to it |
| Glob.StarMatchesAll | s3yum/s3yum_cli.py:550 | the pattern '*' matches every key |
| Glob.StarSuffix | s3yum/s3yum_cli.py:550 | '*' followed by plain text matches exactly the keys ending in that text |
| Glob.PlainPrefixStar | s3yum/s3yum_cli.py:550 | plain text followed by '*' matches exactly the keys starting with that text |
| Glob.MatchLength | s3yum/s3yum_cli.py:550 | a pattern without '*' only matches keys of its own length |
| Glob.Match | s3yum/s3yum_cli.py:550 | a match needs at least one key character for every pattern character other than '*' |
| Remote.UntouchedKey | s3yum/s3yum_cli.py:517-523 | a key that no put or delete names keeps its object |
| Remote.LastOpDecides | s3yum/s3yum_cli.py:541-557 | the last put or delete of a key decides whether the key is in the bucket afterwards |
| Remote.Store.constructor | s3yum/s3yum_cli.py:291 | the bucket starts with its initial objects and an empty log |
| Remote.Store.Put | s3yum/s3yum_cli.py:518-523 | set_contents_from_filename stores the contents under the key, with its ETag and the upload time, and logs one put |
| Remote.Store.Delete | s3yum/s3yum_cli.py:545 | Key.delete removes the key and logs one delete |
| Remote.Store.List | s3yum/s3yum_cli.py:357 | Bucket.list(prefix) returns every stored object under the prefix, each once, and nothing else |
| Local.LocalFs.constructor | s3yum/s3yum_cli.py:669 | the disk starts as given |
| Local.LocalFs.Write | s3yum/s3yum_cli.py:422-427 | open(path, 'w') and writing succeed exactly when the directory exists and the path does not name a directory (an empty name names the directory itself); the file then holds the data, stamped now |
| Local.LocalFs.ListDir | s3yum/s3yum_cli.py:501 | os.listdir fails exactly when the directory is missing; otherwise it lists every entry name once |
| Local.LocalFs.MakeDirs | s3yum/s3yum_cli.py:450-457 | os.makedirs of a missing repodata directory fails exactly when the parent path is a regular file and then changes nothing; otherwise it adds it to its parent and creates it |
| Local.LocalFs.MakeDir | s3yum/s3yum_cli.py:256-262 | mkdtemp or makedirs of a missing -w path creates an empty directory |
| Local.LocalFs.Populate | s3yum/s3yum_cli.py:602-611 | createrepo's output appears as the repodata sub-directory of the working directory |
| Local.LocalFs.RemoveTree | s3yum/s3yum_cli.py:724-725 | shutil.rmtree succeeds exactly when the path is a directory, and then removes it and everything below it |
| Local.RemovedTree | s3yum/s3yum_cli.py:600 | after rmtree neither the path nor anything below it is a directory; every other directory keeps its entries, except that the parent loses only the removed name |
| Session.ParseArgs | s3yum/s3yum_cli.py:202-213 | the action is the second word lower-cased, when there is one; the RPM arguments are the words after it; the only option changed is the path, with its leading slashes stripped |
| Session.ByBaseNameKeys | s3yum/s3yum_cli.py:497-498 | a name is in upload_directory's dictionary exactly when some check item has it as its base name |
| Session.ByBaseNameLast | s3yum/s3yum_cli.py:497-498 | the dictionary maps a base name to the last check item that has it |
| Session.Context.constructor | s3yum/s3yum_types.py:56-72 | a new context holds the parsed invocation, no listings and no working directory |
| Decisions.RemoteTime | s3yum/s3yum_cli.py:398 | the remote time is a valid datetime, or the exception s3time_as_datetime raises for the item's text |
| Decisions.ShouldDownload | s3yum/s3yum_cli.py:385-400 | forced or missing: true; an existing file is downloaded over only when the checksums differ and the remote copy is at least as new; it raises only the time parser's exception or, for a directory, IOError on the path |
| Decisions.ShouldUpload | s3yum/s3yum_cli.py:471-486 | forced or no remote item: true; otherwise true only when the checksums differ and the local file is at least as new; it raises only the time parser's exception |
| Decisions.DownloadForcedOrMissing | s3yum/s3yum_cli.py:394-395 | should_download is true when forced or when the file does not exist |
| Decisions.DownloadDecision | s3yum/s3yum_cli.py:385-400 | otherwise it is true exactly when the checksums differ and the remote time is at or after the local mtime |
| Decisions.DownloadEqualChecksums | s3yum/s3yum_cli.py:399-400 | equal checksums never download unless forced |
| Decisions.DownloadEqualTimes | s3yum/s3yum_cli.py:400 | equal times with differing checksums download |
| Decisions.DownloadOntoDirectory | s3yum/s3yum_cli.py:397-399 | with a directory at the path, the remote time is read first and then the checksum read raises IOError |
| Decisions.UploadForcedOrMissing | s3yum/s3yum_cli.py:480-481 | should_upload is true when forced or when there is no remote item |
| Decisions.UploadDecision | s3yum/s3yum_cli.py:471-486 | otherwise it is true exactly when the checksums differ and the local mtime is at or after the remote time |
| Decisions.UploadRemoteNewer | s3yum/s3yum_cli.py:486 | a newer remote copy is never overwritten unless forced |
| Decisions.DecisionsMirror | s3yum/s3yum_cli.py:385-486 | for differing contents, at least one direction transfers, and both do exactly when the times are equal |
| Decisions.DownloadTestCases | tests/test_downloads.py:47-124 | the unforced cases of the tests (local and remote times a year apart or equal): download exactly when the checksums differ and the remote copy is at least as new |
| Decisions.UploadTestCases | tests/test_uploads.py:47-124 | the unforced cases of the tests: upload exactly when the checksums differ and the local file is at least as new |
| Transfer.Converted | s3yum/s3yum_cli.py:439-442 | download_items turns an IOError into a ServiceError naming the file and lets every other exception through |
| Transfer.DownloadsStopAtFailure | s3yum/s3yum_cli.py:410-442 | once an item fails, the later items change nothing |
| Transfer.DownloadOneCounts | s3yum/s3yum_cli.py:436 | a pass does not depend on the count so far: it adds its own count to it |
| Transfer.FetchEntry | s3yum/s3yum_cli.py:421-435 | one item after the decision: the file is written and its checksum verified, or skipped, or the error is converted; a path naming a directory (also through an empty base name) fails to open |
| Transfer.DownloadEntry | s3yum/s3yum_cli.py:413-436 | one pass of download_items' loop, as DownloadOne specifies it |
| Transfer.Downloads | s3yum/s3yum_cli.py:410-438 | a run counts at most one per item, never removes an entry, adds only regular files, and changes nothing when the destination directory is missing |
| Transfer.DownloadStep | s3yum/s3yum_cli.py:412-436 | the loop invariant of download_items is kept for one more item |
| Transfer.DownloadItems | s3yum/s3yum_cli.py:403-443 | the new disk and the result are those of the Downloads run over the items |
| Transfer.DownloadCountsItems | s3yum/s3yum_cli.py:411-438 | a run that succeeds returns the number of items that are not folder markers |
| Transfer.DownloadOneWrites | s3yum/s3yum_cli.py:418-427 | a pass writes at most the item's base name, with the item's contents |
| Transfer.DownloadWritesAtBasename | s3yum/s3yum_cli.py:412-436 | every entry a run changes or adds is the download of a non-folder item under its base name |
| Transfer.RunVerifiesDownloads | s3yum/s3yum_cli.py:412-436 | a run that succeeds has verified the checksum of every non-folder item should_download selected, forced or not |
| Transfer.ForcedRunVerifiesAll | s3yum/s3yum_cli.py:429-432 | a forced run that succeeds has verified the checksum of every non-folder item |
| Transfer.SkippedItemNotChecked | s3yum/s3yum_cli.py:433-436 | an item should_download skips is counted and not checked |
| Transfer.MismatchFails | s3yum/s3yum_cli.py:422-432 | a selected item whose checksum does not match ends the run with an exception, forced or not; when the file could be written it stays and the error is the md5 mismatch naming it |
| Transfer.FolderObjectFails | s3yum/s3yum_cli.py:418-442 | a key ending in '/' has an empty base name, so its path is the destination directory: the open raises IOError, reported as a ServiceError naming that path |
| Transfer.FolderObjectFailsRun | s3yum/s3yum_cli.py:410-442 | a run over items one of which ends in '/' fails |
| Transfer.GetRepo | s3yum/s3yum_cli.py:446-465 | get_repo creates repodata if missing (a makedirs failure is a ServiceError), downloads the metadata forced, then the packages with --force-download; its disk and result are GetRepoEffect |
| Transfer.GetRepoVerifiesMetadata | s3yum/s3yum_cli.py:459 | a get_repo that succeeds has verified every metadata item's checksum |
| Transfer.GetRepoOntoFile | s3yum/s3yum_cli.py:450-457 | with an output path that is a regular file, makedirs raises and get_repo fails with a ServiceError, changing nothing |
| Transfer.GetRepoFolderObjectFails | s3yum/s3yum_cli.py:446-465 | metadata holding a key that ends in '/' makes get_repo fail |
| Transfer.UploadPlan | s3yum/s3yum_cli.py:501-525 | an upload run issues at most one put per listed name and only puts; it can fail only with an unparseable remote time, so never without check items |
| Transfer.UploadOneAppends | s3yum/s3yum_cli.py:505-525 | a pass of upload_directory's loop only appends to the puts |
| Transfer.UploadEntry | s3yum/s3yum_cli.py:502-525 | one listed name: skip non-files, decide, put unless dry run |
| Transfer.UploadStep | s3yum/s3yum_cli.py:501-525 | the loop invariant of upload_directory is kept for one more name |
| Transfer.UploadNames | s3yum/s3yum_cli.py:501-525 | the loop issues exactly the puts of UploadPlan over the listing (none under --dry-run) and fails as it does |
| Transfer.UploadDirectory | s3yum/s3yum_cli.py:489-526 | a missing directory raises; otherwise the log grows by the plan over some enumeration of the directory |
| Transfer.PlanStopsAtFailure | s3yum/s3yum_cli.py:501-525 | once a name fails, the later names issue nothing |
| Transfer.PutsAreSelected | s3yum/s3yum_cli.py:505-523 | every put is the contents of a listed regular file that should_upload selected, under s3join(prefix, name) |
| Transfer.PlanIsComplete | s3yum/s3yum_cli.py:501-525 | a run that does not fail puts every listed regular file should_upload selects |
| Transfer.NoCheckItemsUploadsAll | s3yum/s3yum_cli.py:555-557 | with no check items, the run cannot fail and puts every regular file |
| Listing.KeepMetadataExact | s3yum/s3yum_cli.py:359-364 | list_metadata keeps exactly the listed items that are not folder markers |
| Listing.KeepRpmsExact | s3yum/s3yum_cli.py:374-378 | list_rpms keeps exactly the listed items whose key ends in '.rpm' |
| Listing.KeepMetadata | s3yum/s3yum_cli.py:359-364 | the kept items are listed items, no folder marker among them, and no more than were listed |
| Listing.KeepRpms | s3yum/s3yum_cli.py:374-378 | the kept items are listed items whose key ends in '.rpm', and no more than were listed |
| Listing.MetadataListing | s3yum/s3yum_cli.py:352-366 | the metadata items are exactly the stored objects under s3join(path, 'repodata') that are not folder markers |
| Listing.RpmListing | s3yum/s3yum_cli.py:369-379 | the package items are exactly the stored objects under the path prefix whose key ends in '.rpm' |
| Listing.SiblingRepoListed | s3yum/s3yum_cli.py:373 | a repository at 'dev' also lists the packages of 'devel' |
| Listing.ListMetadata | s3yum/s3yum_cli.py:352-366 | the repodata path and the metadata items are set from a listing of the bucket, and nothing else changes |
| Listing.ListRpms | s3yum/s3yum_cli.py:369-379 | the package items are set from a listing of the bucket, and nothing else changes |
| Deletion.Deletes | s3yum/s3yum_cli.py:574-583 | one delete per item, of that item's key, in the items' order |
| Deletion.DeletesRemoveKeys | s3yum/s3yum_cli.py:574-583 | deleting the items removes exactly their keys |
| Deletion.DeleteItems | s3yum/s3yum_cli.py:574-577 | every item is deleted in order, or nothing under --dry-run |
| Deletion.ConfirmDelete | s3yum/s3yum_cli.py:217-236 | the prompt loop returns Confirm's answer and prompt count |
| Deletion.Confirm | s3yum/s3yum_cli.py:217-236 | at most five prompts; true only with a "yes" as the last line read, false only after five prompts or with a "no" last; EOFError only when the lines run out; every line skipped was neither answer |
| Deletion.PromptsBounded | s3yum/s3yum_cli.py:226 | the prompt is shown at least once and at most five times |
| Deletion.ConfirmedIff | s3yum/s3yum_cli.py:226-236 | the answer is true exactly when the first accepted line among the first five is "yes" |
| Deletion.NoEndsAtOnce | s3yum/s3yum_cli.py:229-236 | "no" ends the prompt at once with false |
| Deletion.FiveInvalidAnswers | s3yum/s3yum_cli.py:226-236 | five unaccepted lines give false and nothing after them is read |
| Deletion.DeleteRepo | s3yum/s3yum_cli.py:564-584 | without a "yes" nothing is deleted; with one, every metadata item and then every package item is deleted (none under --dry-run) |
| Deletion.DeleteRepoEffect | s3yum/s3yum_cli.py:564-584 | a confirmed delete leaves no listed key and keeps every other object |
| Publish.MatchingDeletesCount | s3yum/s3yum_cli.py:549-553 | an item is deleted once per matching --remove pattern, and only deleted |
| Publish.DeleteMultiplicity | s3yum/s3yum_cli.py:548-553 | among items with distinct keys, each key is deleted as many times as patterns match it |
| Publish.OthersNotDeleted | s3yum/s3yum_cli.py:548-553 | the --remove loop never deletes a key that is not a listed package |
| Publish.RemovedAreDeletes | s3yum/s3yum_cli.py:548-553 | the --remove loop only deletes |
| Publish.DeleteMatching | s3yum/s3yum_cli.py:549-553 | the deletes of one package item, none under --dry-run |
| Publish.DeleteRemovedStep | s3yum/s3yum_cli.py:548-553 | the --remove loop's invariant is kept for one more package |
| Publish.DeleteRemoved | s3yum/s3yum_cli.py:548-553 | the --remove loop issues exactly RemovedDeletes, none under --dry-run |
| Publish.RemoveOld | s3yum/s3yum_cli.py:541-553 | the old metadata and then the --remove'd packages are deleted, none under --dry-run |
| Publish.ReplaceMetadata | s3yum/s3yum_cli.py:541-557 | the removals, then the upload of the new repodata directory under s3join(path, 'repodata') |
| Publish.UploadRepodata | s3yum/s3yum_cli.py:529-558 | the log grows by PublishOps (not under --dry-run): package upload, then removals and metadata upload, stopping at the first exception |
| Publish.PublishOps | s3yum/s3yum_cli.py:529-558 | success needs the working and repodata directories; every delete is one of the removals; a successful publish issues all of them |
| Publish.MetadataUploadCannotFail | s3yum/s3yum_cli.py:555-557 | once the packages are up and the repodata directory exists, upload_repodata succeeds |
| Publish.PutsKeep | s3yum/s3yum_cli.py:517-523 | uploads only add keys |
| Publish.DeletesShrink | s3yum/s3yum_cli.py:541-553 | deletes never add a key |
| Publish.PublishReplacesMetadata | s3yum/s3yum_cli.py:529-558 | after a successful publish, no old metadata key survives unless re-uploaded, and every new metadata file is in the bucket |
| WorkDir.InitDirs | s3yum/s3yum_cli.py:249-265 | init_workingdir keeps every directory, adds at most the working directory (empty), and the working directory then exists unless a -w path already existed |
| WorkDir.InitWorkingDir | s3yum/s3yum_cli.py:242-270 | the working directory is -w or the temp directory, its repodata path is os.path.join(wd, 'repodata'), and only the disk changes |
| WorkDir.CopyOne | s3yum/s3yum_cli.py:280-284 | shutil.copy succeeds exactly when the working directory exists and the path names a regular file; the file then lands under its base name |
| WorkDir.CopiesStopAtFailure | s3yum/s3yum_cli.py:277-284 | once a copy fails, the later paths change nothing |
| WorkDir.CopyPath | s3yum/s3yum_cli.py:278-284 | one shutil.copy, as CopyOne specifies it |
| WorkDir.CopyRpms | s3yum/s3yum_cli.py:273-285 | the new disk and the result are those of Copies over the RPM arguments |
| WorkDir.CopiesFrame | s3yum/s3yum_cli.py:277-284 | copying changes no directory but the working directory |
| WorkDir.CopiesPlaceEach | s3yum/s3yum_cli.py:277-284 | after a successful copy run, every argument's base name is a regular file in the working directory |
| WorkDir.CopiesFailure | s3yum/s3yum_cli.py:281-284 | a failed copy run names one of the arguments |
| WorkDir.CopiesLastWins | s3yum/s3yum_cli.py:277-284 | when packages share a base name, the last one given decides the copied contents |
| WorkDir.SourceOutsideWd | s3yum/s3yum_cli.py:280 | a change to the working directory does not change what a path outside it names |
| WorkDir.CreateRepodata | s3yum/s3yum_cli.py:590-623 | the disk and result are CreateEffect: old repodata removed, createrepo run, every failure a ServiceError |
| WorkDir.CreateRepodataFresh | s3yum/s3yum_cli.py:596-611 | after a successful create_repodata the repodata directory holds exactly createrepo's output |
| WorkDir.CreateRepodataBlocked | s3yum/s3yum_cli.py:596-600 | a repodata path that is a regular file makes create_repodata fail and change nothing |
| Cli.Validate | s3yum/s3yum_cli.py:677-698 | a "bad action" rejection names the action that was given |
| Cli.GetTestIsEquality | s3yum/s3yum_cli.py:697 | among the valid actions, only 'get' passes the substring test against 'get' |
| Cli.ProceedIff | s3yum/s3yum_cli.py:677-698 | main goes on exactly when the action is given, valid and not help, create/update have RPMs or --remove, a bucket is given, and get has an output directory |
| Cli.NoActionFirst | s3yum/s3yum_cli.py:677-678 | a missing action is reported before anything else |
| Cli.ListNeedsOnlyBucket | s3yum/s3yum_cli.py:690-698 | list and delete need nothing but a bucket |
| Cli.Prepare | s3yum/s3yum_cli.py:634-645 | create and update before upload: init, (update:) get_repo, copy, createrepo, as PrepareEffect |
| Cli.PublishRepo | s3yum/s3yum_cli.py:634-646 | a failed preparation publishes nothing; otherwise the bucket changes as upload_repodata specifies |
| Cli.ActionEffect | s3yum/s3yum_cli.py:629-659 | a failed preparation publishes nothing; a dry run and get send nothing to the bucket; delete leaves the disk alone and deletes only after "yes"; any other action changes nothing |
| Cli.PerformAction | s3yum/s3yum_cli.py:629-659 | the disk, the bucket requests and the result are those ActionEffect gives; create and update set the working directory |
| Cli.Execute | s3yum/s3yum_cli.py:700-725 | the metadata and package items are the filtered bucket listings; the result and bucket requests are ActionEffect's; the disk is its disk with the temp directory removed when -w was not given |
| Cli.CleanedUp | s3yum/s3yum_cli.py:724-725 | no temp directory survives create or update without -w; in every other case the disk is unchanged |
| Cli.Run | s3yum/s3yum_cli.py:662-726 | help and rejected invocations change nothing; valid ones complete; list changes nothing; get leaves the bucket and delete the disk alone; no temp directory survives create/update |

## Left out

- connect_to_bucket (including STS role assumption) and print_lists are not part of this model. They talk to AWS or only print. The bucket is an input to `Cli.Run`, and `list` reduces to the two listings.
- Printing, `verbose`, the progress callbacks and the exact texts of error messages are left out. Errors carry a reason instead of a message.
- `get_s3item_md5` is imported from `s3yum/util.py` but is not defined there. The model takes an item's checksum to be its stored ETag (`RemoteObj.md5`).
- The MD5 function is a parameter (`Md5.Digest`). Its values are not computed.
- `mtime_as_datetime` is not modelled. A local file's mtime is stored as a naive datetime, so the conversion from the epoch in the local zone is left out. Naive local times are compared with S3's UTC times as the code compares them.
- Remote.Store.List: returns the objects under the prefix in some order; S3's lexicographic listing order is not modelled.
- Local.LocalFs.ListDir: returns the entries in some order, as os.listdir does; the statements about uploads hold for every order.
- S3Time.S3TimeAsDatetime: `%Z` accepts only "UTC" and "GMT". Local zone names are left out because they depend on the machine. Bracket directives and locale-specific weekday and month names are left out too.
- Glob: fnmatch's bracket classes (`[...]`) are left out. Patterns are matched as `*`, `?` and literal characters.
- The disk is flat: a map from path to directory. Paths are compared as strings, with no resolution of `..`, symbolic links or the current directory. `mkdtemp` and `makedirs` of a `-w` path do not add an entry to the parent directory.
- WorkDir.InitWorkingDir: an OSError from makedirs is not modelled. A `-w` path that exists as a regular file is taken as it stands, as the code takes it.
- WorkDir.CopyOne: when the working directory is a regular file, Python 2.7's shutil.copy overwrites that file with the package and succeeds; the model fails the copy instead. The run then fails later either way (createrepo or the makedirs of the repodata directory cannot use a regular file).
- WorkDir.CopyRpms: shutil's same-file error (a package already inside the working directory) and copies that fail part-way are left out.
- Transfer.DownloadItems: an IOError is raised only for a missing destination directory or a directory in the way (including a key ending in '/', whose path is the directory itself). Disk-full and permission errors are left out.
- Transfer.GetRepo: makedirs raises only when the output path itself is a regular file. A regular file further up the path, and permission errors, are left out.
- Transfer.UploadDirectory: puts never fail. Network errors from boto are left out.
- WorkDir.CreateRepodata: createrepo's output is a function of the working directory's entries. Its exit code and output text are reduced to success or failure.
- Cli.Run: the exceptions of the try block become the `Result` of `Completed`. Printing the traceback or help text is left out. `sys.exit(0)` after help is `Helped`; the clean-up it skips has nothing to remove then.
- Cli.Execute: an exception raised by the clean-up's rmtree itself is not modelled. The clean-up's result is dropped.
