// The transfer loops of s3yum/s3yum_cli.py: download_items, get_repo and
// upload_directory. Each loop is a method proved against a function that
// states its whole effect; the properties the source promises are lemmas about
// those functions.

module Transfer {
  import opened Wrappers
  import opened Text
  import opened Paths
  import opened S3Time
  import opened Md5
  import opened Remote
  import opened Local
  import opened Session
  import opened Decisions

  // ---------------------------------------------------------------------
  // download_items
  // ---------------------------------------------------------------------

  /** A folder marker key, which download_items skips. */
  predicate IsFolderKey(key: string) {
    Contains(key, FolderSuffix)
  }

  /** The state of a download run: the destination directory's entries, the
      number of items considered so far, and the exception that ended it. */
  datatype Progress = Progress(files: Dir, count: nat, failure: Option<Error>)

  /** download_items' handler: an IOError becomes a ServiceError that names the
      path; other exceptions pass through. */
  function Converted(e: Error): (r: Error)
    ensures !r.IOError?
    ensures e.IOError? ==> r == ServiceError(OpenFailed(e.path))
    ensures !e.IOError? ==> r == e
  {
    if e.IOError? then ServiceError(OpenFailed(e.path)) else e
  }

  /** What download_items does with an item once should_download has given
      `decision` for it: nothing, or open the path for writing, write the
      contents and check their checksum. */
  function Fetch(p: Progress, item: RemoteObj, destDir: string, present: bool,
                 decision: Result<bool, Error>, digest: Digest, now: DateTime): Progress
  {
    var name := Basename(item.key);
    var path := PathJoin(destDir, name);
    if decision.Failure? then p.(failure := Some(Converted(decision.error)))
    else if !decision.value then p.(count := p.count + 1)
    else if !present || LocalOf(p.files, item, present) == Some(SubDir) then p.(failure := Some(ServiceError(OpenFailed(path))))
    else
      var files := p.files[name := File(item.data, now)];
      if Matches(item.data, item.md5, digest) then Progress(files, p.count + 1, None)
      else Progress(files, p.count, Some(ServiceError(Md5Mismatch(name))))
  }

  /** What the path should_download looks at for `item` names, in a
      destination directory with entries `files` that exists when `present`.
      A key ending in '/' has an empty base name, and its path names the
      destination directory itself. */
  function LocalOf(files: Dir, item: RemoteObj, present: bool): Option<Entry> {
    var name := Basename(item.key);
    if !present then None
    else if name == "" then Some(SubDir)
    else if name in files then Some(files[name])
    else None
  }

  /** One pass of download_items' loop body. `present` says whether the
      destination directory exists. */
  function DownloadOne(p: Progress, item: RemoteObj, destDir: string, present: bool,
                       force: bool, digest: Digest, now: DateTime): Progress
  {
    if p.failure.Some? || IsFolderKey(item.key) then p
    else
      var decision := ShouldDownload(item, PathJoin(destDir, Basename(item.key)), LocalOf(p.files, item, present),
                                     force, digest);
      Fetch(p, item, destDir, present, decision, digest, now)
  }

  /** The run of download_items over `items`, from the entries `files`. */
  function Downloads(items: seq<RemoteObj>, files: Dir, destDir: string, present: bool,
                     force: bool, digest: Digest, now: DateTime): (p: Progress)
    ensures p.count <= |items|
    ensures files.Keys <= p.files.Keys
    ensures !present ==> p.files == files
    ensures forall n :: n in p.files && n !in files ==> p.files[n].File?
    decreases |items|
  {
    if items == [] then Progress(files, 0, None)
    else DownloadOne(Downloads(items[..|items| - 1], files, destDir, present, force, digest, now),
                     items[|items| - 1], destDir, present, force, digest, now)
  }

  /** download_items' effect on the filesystem and its result. */
  function DownloadEffect(dirs: map<string, Dir>, items: seq<RemoteObj>, destDir: string,
                          force: bool, digest: Digest, now: DateTime): (map<string, Dir>, Result<nat, Error>)
  {
    var p := Downloads(items, EntriesOf(dirs, destDir), destDir, destDir in dirs, force, digest, now);
    (if destDir in dirs then dirs[destDir := p.files] else dirs,
     if p.failure.Some? then Failure(p.failure.value) else Success(p.count))
  }

  /** Once a run has failed, the later items change nothing. */
  lemma {:induction false} DownloadsStopAtFailure(items: seq<RemoteObj>, k: nat, files: Dir, destDir: string,
                                                  present: bool, force: bool, digest: Digest, now: DateTime)
    requires k <= |items|
    requires Downloads(items[..k], files, destDir, present, force, digest, now).failure.Some?
    ensures Downloads(items, files, destDir, present, force, digest, now)
         == Downloads(items[..k], files, destDir, present, force, digest, now)
    decreases |items|
  {
    if k < |items| {
      var front := items[..|items| - 1];
      assert front[..k] == items[..k];
      DownloadsStopAtFailure(front, k, files, destDir, present, force, digest, now);
    } else {
      assert items[..k] == items;
    }
  }

  /** A pass that starts from a run with no failure only adds to its count. */
  lemma DownloadOneCounts(files: Dir, count: nat, item: RemoteObj, destDir: string, present: bool,
                          force: bool, digest: Digest, now: DateTime)
    ensures var q := DownloadOne(Progress(files, 0, None), item, destDir, present, force, digest, now);
            DownloadOne(Progress(files, count, None), item, destDir, present, force, digest, now)
            == Progress(q.files, count + q.count, q.failure)
  {
  }

  /** download_items' loop body after should_download has given `decision`. */
  method FetchEntry(ctx: Context, item: RemoteObj, destDir: string, decision: Result<bool, Error>)
    returns (failure: Option<Error>, counted: nat)
    modifies ctx.fs
    ensures var q := Fetch(Progress(EntriesOf(old(ctx.fs.dirs), destDir), 0, None), item, destDir,
                           destDir in old(ctx.fs.dirs), decision, ctx.digest, ctx.fs.now);
            && failure == q.failure && counted == q.count
            && ctx.fs.dirs == if destDir in old(ctx.fs.dirs) then old(ctx.fs.dirs)[destDir := q.files]
                              else old(ctx.fs.dirs)
  {
    var name := Basename(item.key);
    var path := PathJoin(destDir, name);
    if decision.Failure? {
      return Some(Converted(decision.error)), 0;
    }
    if decision.value {
      var ok := ctx.fs.Write(destDir, name, item.data);
      if !ok {
        return Some(ServiceError(OpenFailed(path))), 0;
      }
      if !Matches(item.data, item.md5, ctx.digest) {
        return Some(ServiceError(Md5Mismatch(name))), 0;
      }
    }
    failure, counted := None, 1;
  }

  /** The body of download_items' loop for one item; `counted` is what the
      item adds to the count. */
  method DownloadEntry(ctx: Context, item: RemoteObj, destDir: string, force: bool)
    returns (failure: Option<Error>, counted: nat)
    modifies ctx.fs
    ensures var q := DownloadOne(Progress(EntriesOf(old(ctx.fs.dirs), destDir), 0, None), item, destDir,
                                 destDir in old(ctx.fs.dirs), force, ctx.digest, ctx.fs.now);
            && failure == q.failure && counted == q.count
            && ctx.fs.dirs == if destDir in old(ctx.fs.dirs) then old(ctx.fs.dirs)[destDir := q.files]
                              else old(ctx.fs.dirs)
  {
    if IsFolderKey(item.key) {
      return None, 0;
    }
    var name := Basename(item.key);
    var local := ctx.fs.Lookup(destDir, name);
    assert local == LocalOf(EntriesOf(ctx.fs.dirs, destDir), item, destDir in ctx.fs.dirs);
    var decision := ShouldDownload(item, PathJoin(destDir, name), local, force, ctx.digest);
    failure, counted := FetchEntry(ctx, item, destDir, decision);
  }

  /** The invariant of download_items' loop after `i` items: the directory
      holds the run's entries and `count` is its count. */
  ghost predicate DownloadedSoFar(dirs: map<string, Dir>, dirs0: map<string, Dir>, items: seq<RemoteObj>, i: nat,
                                  destDir: string, force: bool, digest: Digest, now: DateTime, count: nat)
    requires i <= |items|
  {
    && (destDir in dirs <==> destDir in dirs0)
    && Downloads(items[..i], EntriesOf(dirs0, destDir), destDir, destDir in dirs0, force, digest, now)
       == Progress(EntriesOf(dirs, destDir), count, None)
    && dirs == if destDir in dirs0 then dirs0[destDir := dirs[destDir]] else dirs0
  }

  /** One pass of download_items' loop, at position `i` of `items`. */
  method DownloadStep(ctx: Context, items: seq<RemoteObj>, i: nat, destDir: string, force: bool,
                      count: nat, ghost dirs0: map<string, Dir>)
    returns (failure: Option<Error>, count': nat)
    requires i < |items|
    requires DownloadedSoFar(ctx.fs.dirs, dirs0, items, i, destDir, force, ctx.digest, ctx.fs.now, count)
    modifies ctx.fs
    ensures failure.None? ==>
              DownloadedSoFar(ctx.fs.dirs, dirs0, items, i + 1, destDir, force, ctx.digest, ctx.fs.now, count')
    ensures failure.Some? ==>
              (ctx.fs.dirs, Failure(failure.value))
              == DownloadEffect(dirs0, items, destDir, force, ctx.digest, ctx.fs.now)
  {
    assert items[..i + 1][..i] == items[..i];
    ghost var files0 := EntriesOf(dirs0, destDir);
    ghost var present := destDir in dirs0;
    DownloadOneCounts(EntriesOf(ctx.fs.dirs, destDir), count, items[i], destDir, present, force, ctx.digest, ctx.fs.now);
    ghost var before := ctx.fs.dirs;
    ghost var q := DownloadOne(Progress(EntriesOf(before, destDir), 0, None), items[i], destDir, present,
                               force, ctx.digest, ctx.fs.now);
    assert Downloads(items[..i + 1], files0, destDir, present, force, ctx.digest, ctx.fs.now)
        == Progress(q.files, count + q.count, q.failure);
    var counted;
    failure, counted := DownloadEntry(ctx, items[i], destDir, force);
    count' := count + counted;
    assert ctx.fs.dirs == if present then dirs0[destDir := q.files] else dirs0;
    if failure.Some? {
      DownloadsStopAtFailure(items, i + 1, files0, destDir, present, force, ctx.digest, ctx.fs.now);
    } else if present {
      assert EntriesOf(ctx.fs.dirs, destDir) == q.files;
    } else {
      assert q.files == EntriesOf(before, destDir);
    }
  }

  /** download_items: downloads into `destDir` the items that should_download
      selects, checks each download's checksum and counts the items it
      considered. */
  method DownloadItems(ctx: Context, items: seq<RemoteObj>, destDir: string, force: bool)
    returns (r: Result<nat, Error>)
    modifies ctx.fs
    ensures (ctx.fs.dirs, r) == DownloadEffect(old(ctx.fs.dirs), items, destDir, force, ctx.digest, ctx.fs.now)
  {
    ghost var dirs0 := ctx.fs.dirs;
    var count := 0;
    var i := 0;
    while i < |items|
      invariant 0 <= i <= |items|
      invariant DownloadedSoFar(ctx.fs.dirs, dirs0, items, i, destDir, force, ctx.digest, ctx.fs.now, count)
    {
      var failure;
      failure, count := DownloadStep(ctx, items, i, destDir, force, count, dirs0);
      if failure.Some? {
        return Failure(failure.value);
      }
      i := i + 1;
    }
    assert items[..i] == items;
    r := Success(count);
  }

  // ---------------------------------------------------------------------
  // What download_items promises
  // ---------------------------------------------------------------------

  /** The number of items that are not folder markers. */
  function NonFolderCount(items: seq<RemoteObj>): nat
    decreases |items|
  {
    if items == [] then 0
    else NonFolderCount(items[..|items| - 1]) + if IsFolderKey(items[|items| - 1].key) then 0 else 1
  }

  /** A run that succeeds returns the number of items that are not folder
      markers, downloaded or skipped alike. */
  lemma {:induction false} DownloadCountsItems(items: seq<RemoteObj>, files: Dir, destDir: string,
                                               present: bool, force: bool, digest: Digest, now: DateTime)
    ensures var p := Downloads(items, files, destDir, present, force, digest, now);
            p.failure.None? ==> p.count == NonFolderCount(items)
    decreases |items|
  {
    if items != [] {
      DownloadCountsItems(items[..|items| - 1], files, destDir, present, force, digest, now);
    }
  }

  /** The entry `e` under name `n` is the download of some item that is not a
      folder marker and whose key has base name `n`. */
  predicate DownloadedFrom(items: seq<RemoteObj>, n: string, e: Entry, now: DateTime) {
    exists i :: 0 <= i < |items| && !IsFolderKey(items[i].key) && Basename(items[i].key) == n
                && e == File(items[i].data, now)
  }

  /** One pass of the loop writes at most the item's base name, with the
      item's contents, and never for a folder marker. */
  lemma DownloadOneWrites(p: Progress, item: RemoteObj, destDir: string, present: bool,
                          force: bool, digest: Digest, now: DateTime)
    ensures var q := DownloadOne(p, item, destDir, present, force, digest, now);
            forall n :: n in q.files ==>
              (n in p.files && q.files[n] == p.files[n]) ||
              (!IsFolderKey(item.key) && n == Basename(item.key) && q.files[n] == File(item.data, now))
  {
  }

  /** Every entry a run changes or adds is the download of a non-folder item,
      written under that item's base name: folder markers are never written. */
  lemma {:induction false} DownloadWritesAtBasename(items: seq<RemoteObj>, files: Dir, destDir: string,
                                                    present: bool, force: bool, digest: Digest, now: DateTime)
    ensures var p := Downloads(items, files, destDir, present, force, digest, now);
            forall n :: n in p.files ==>
              (n in files && p.files[n] == files[n]) || DownloadedFrom(items, n, p.files[n], now)
    decreases |items|
  {
    if items != [] {
      var front := items[..|items| - 1];
      var last := items[|items| - 1];
      DownloadWritesAtBasename(front, files, destDir, present, force, digest, now);
      var q := Downloads(front, files, destDir, present, force, digest, now);
      var p := DownloadOne(q, last, destDir, present, force, digest, now);
      assert p == Downloads(items, files, destDir, present, force, digest, now);
      DownloadOneWrites(q, last, destDir, present, force, digest, now);
      forall n | n in p.files && !(n in files && p.files[n] == files[n])
        ensures DownloadedFrom(items, n, p.files[n], now)
      {
        if n in q.files && p.files[n] == q.files[n] {
          var i :| 0 <= i < |front| && !IsFolderKey(front[i].key) && Basename(front[i].key) == n
                   && q.files[n] == File(front[i].data, now);
          assert items[i] == front[i];
        } else {
          assert items[|items| - 1] == last;
        }
      }
    }
  }

  /** The decision should_download gives item `i` of a run, from the entries
      the run has left in the destination directory before it. */
  function DecisionAt(items: seq<RemoteObj>, i: nat, files: Dir, destDir: string, present: bool,
                      force: bool, digest: Digest, now: DateTime): Result<bool, Error>
    requires i < |items|
  {
    var q := Downloads(items[..i], files, destDir, present, force, digest, now);
    ShouldDownload(items[i], PathJoin(destDir, Basename(items[i].key)), LocalOf(q.files, items[i], present),
                   force, digest)
  }

  /** A run that succeeds has verified the checksum of every item it
      downloaded: every item that is not a folder marker and that
      should_download selected, forced or not. */
  lemma {:induction false} RunVerifiesDownloads(items: seq<RemoteObj>, files: Dir, destDir: string,
                                                present: bool, force: bool, digest: Digest, now: DateTime)
    ensures Downloads(items, files, destDir, present, force, digest, now).failure.None? ==>
              forall i :: 0 <= i < |items| && !IsFolderKey(items[i].key) &&
                          DecisionAt(items, i, files, destDir, present, force, digest, now) == Success(true) ==>
                Matches(items[i].data, items[i].md5, digest)
    decreases |items|
  {
    if items != [] {
      var front := items[..|items| - 1];
      RunVerifiesDownloads(front, files, destDir, present, force, digest, now);
      if Downloads(items, files, destDir, present, force, digest, now).failure.None? {
        forall i | 0 <= i < |items| && !IsFolderKey(items[i].key) &&
                   DecisionAt(items, i, files, destDir, present, force, digest, now) == Success(true)
          ensures Matches(items[i].data, items[i].md5, digest)
        {
          if i < |front| {
            assert front[i] == items[i] && front[..i] == items[..i];
            assert DecisionAt(front, i, files, destDir, present, force, digest, now)
                == DecisionAt(items, i, files, destDir, present, force, digest, now);
          } else {
            assert items[..i] == front;
          }
        }
      }
    }
  }

  /** With the force flag every item is selected, so a run that succeeds has
      verified the checksum of every item that is not a folder marker. */
  lemma ForcedRunVerifiesAll(items: seq<RemoteObj>, files: Dir, destDir: string,
                             present: bool, digest: Digest, now: DateTime)
    ensures Downloads(items, files, destDir, present, true, digest, now).failure.None? ==>
              forall i :: 0 <= i < |items| && !IsFolderKey(items[i].key) ==>
                Matches(items[i].data, items[i].md5, digest)
  {
    RunVerifiesDownloads(items, files, destDir, present, true, digest, now);
  }

  /** An item should_download skips is not checked: the run goes on whatever
      its checksum, and the directory is left as it was. */
  lemma SkippedItemNotChecked(item: RemoteObj, files: Dir, destDir: string, present: bool,
                              force: bool, digest: Digest, now: DateTime)
    requires !IsFolderKey(item.key)
    requires ShouldDownload(item, PathJoin(destDir, Basename(item.key)), LocalOf(files, item, present), force, digest)
               == Success(false)
    ensures Downloads([item], files, destDir, present, force, digest, now) == Progress(files, 1, None)
  {
    assert [item][..0] == [];
  }

  /** A selected download whose checksum does not match ends the run with a
      ServiceError, forced or not; when the file could be written it stays in
      place. */
  lemma MismatchFails(p: Progress, item: RemoteObj, destDir: string, present: bool, force: bool,
                      digest: Digest, now: DateTime)
    requires p.failure.None?
    requires !IsFolderKey(item.key) && !Matches(item.data, item.md5, digest)
    requires ShouldDownload(item, PathJoin(destDir, Basename(item.key)), LocalOf(p.files, item, present), force, digest)
               == Success(true)
    ensures DownloadOne(p, item, destDir, present, force, digest, now).failure.Some?
    ensures var n := Basename(item.key);
            present && LocalOf(p.files, item, present) != Some(SubDir) ==>
              DownloadOne(p, item, destDir, present, force, digest, now)
              == Progress(p.files[n := File(item.data, now)], p.count, Some(ServiceError(Md5Mismatch(n))))
  {
  }

  /** A key ending in '/' (a zero-byte folder object such as
      "dev/repodata/", which has no "_$folder$" in its name) has an empty base
      name, so its path names the destination directory itself: opening that
      path, for the checksum or for writing, raises an IOError, which becomes
      a ServiceError. Unforced, the remote time is read first. */
  lemma FolderObjectFails(p: Progress, item: RemoteObj, destDir: string, present: bool, force: bool,
                          digest: Digest, now: DateTime)
    requires p.failure.None?
    requires |item.key| > 0 && item.key[|item.key| - 1] == '/' && !IsFolderKey(item.key)
    requires force || !present || S3TimeAsDatetime(item.lastModified).Success?
    ensures DownloadOne(p, item, destDir, present, force, digest, now)
         == p.(failure := Some(ServiceError(OpenFailed(PathJoin(destDir, "")))))
  {
    assert Basename(item.key) == "";
  }

  /** A run over items one of which is a folder object fails. */
  lemma {:induction false} FolderObjectFailsRun(items: seq<RemoteObj>, files: Dir, destDir: string, present: bool,
                                                force: bool, digest: Digest, now: DateTime, k: nat)
    requires k < |items|
    requires |items[k].key| > 0 && items[k].key[|items[k].key| - 1] == '/' && !IsFolderKey(items[k].key)
    requires force || !present || S3TimeAsDatetime(items[k].lastModified).Success?
    ensures Downloads(items, files, destDir, present, force, digest, now).failure.Some?
    decreases |items|
  {
    var front := items[..|items| - 1];
    var q := Downloads(front, files, destDir, present, force, digest, now);
    if k < |front| {
      assert front[k] == items[k];
      FolderObjectFailsRun(front, files, destDir, present, force, digest, now, k);
    } else if q.failure.None? {
      FolderObjectFails(q, items[k], destDir, present, force, digest, now);
    }
  }

  // ---------------------------------------------------------------------
  // get_repo
  // ---------------------------------------------------------------------

  /** The file system before the downloads: os.makedirs(dest/repodata) when
      that path does not exist, or None when makedirs raises an OSError. */
  function MakeRepodataDir(dirs: map<string, Dir>, destDir: string): Option<map<string, Dir>> {
    var present := (destDir in dirs && Repodata in dirs[destDir]) || PathJoin(destDir, Repodata) in dirs;
    if present then Some(dirs)
    else if IsRegularFile(dirs, destDir) then None
    else Some(MadeDirs(dirs, destDir, Repodata))
  }

  /** get_repo's effect: every metadata item is downloaded, forced, into
      dest/repodata, then the packages into dest with the --force-download
      flag; the first failure ends it. */
  function GetRepoEffect(dirs: map<string, Dir>, metadata: seq<RemoteObj>, rpms: seq<RemoteObj>,
                         destDir: string, force: bool, digest: Digest, now: DateTime)
    : (map<string, Dir>, Result<(), Error>)
  {
    match MakeRepodataDir(dirs, destDir)
    case None => (dirs, Failure(ServiceError(MakeDirsFailed(PathJoin(destDir, Repodata)))))
    case Some(start) =>
      var (afterMeta, r1) := DownloadEffect(start, metadata, PathJoin(destDir, Repodata), true, digest, now);
      if r1.Failure? then (afterMeta, Failure(r1.error))
      else
        var (afterRpms, r2) := DownloadEffect(afterMeta, rpms, destDir, force, digest, now);
        (afterRpms, if r2.Failure? then Failure(r2.error) else Success(()))
  }

  method GetRepo(ctx: Context, destDir: string) returns (r: Result<(), Error>)
    modifies ctx.fs
    ensures (ctx.fs.dirs, r) == GetRepoEffect(old(ctx.fs.dirs), ctx.repodataItems, ctx.rpmItems, destDir,
                                              ctx.opts.forceDownload, ctx.digest, ctx.fs.now)
  {
    var repodataDir := PathJoin(destDir, Repodata);
    if !ctx.fs.Exists(destDir, Repodata) {
      var made := ctx.fs.MakeDirs(destDir, Repodata);
      if !made {
        return Failure(ServiceError(MakeDirsFailed(repodataDir)));
      }
    }
    var r1 := DownloadItems(ctx, ctx.repodataItems, repodataDir, true);
    if r1.Failure? {
      return Failure(r1.error);
    }
    var r2 := DownloadItems(ctx, ctx.rpmItems, destDir, ctx.opts.forceDownload);
    if r2.Failure? {
      return Failure(r2.error);
    }
    r := Success(());
  }

  /** A get_repo that succeeds has verified the checksum of every metadata
      item, whatever --force-download says. */
  lemma GetRepoVerifiesMetadata(dirs: map<string, Dir>, metadata: seq<RemoteObj>, rpms: seq<RemoteObj>,
                                destDir: string, force: bool, digest: Digest, now: DateTime)
    ensures GetRepoEffect(dirs, metadata, rpms, destDir, force, digest, now).1.Success? ==>
              forall i :: 0 <= i < |metadata| && !IsFolderKey(metadata[i].key) ==>
                Matches(metadata[i].data, metadata[i].md5, digest)
  {
    if MakeRepodataDir(dirs, destDir).Some? {
      var start := MakeRepodataDir(dirs, destDir).value;
      var dir := PathJoin(destDir, Repodata);
      ForcedRunVerifiesAll(metadata, EntriesOf(start, dir), dir, dir in start, digest, now);
    }
  }

  /** get_repo onto an output path that is a regular file: makedirs raises,
      and nothing changes. */
  lemma GetRepoOntoFile(dirs: map<string, Dir>, metadata: seq<RemoteObj>, rpms: seq<RemoteObj>,
                        destDir: string, force: bool, digest: Digest, now: DateTime)
    requires IsRegularFile(dirs, destDir) && PathJoin(destDir, Repodata) !in dirs
    ensures GetRepoEffect(dirs, metadata, rpms, destDir, force, digest, now)
         == (dirs, Failure(ServiceError(MakeDirsFailed(PathJoin(destDir, Repodata)))))
  {
  }

  /** get_repo fails when the metadata listing holds a folder object (a key
      ending in '/'): metadata is always downloaded forced. */
  lemma GetRepoFolderObjectFails(dirs: map<string, Dir>, metadata: seq<RemoteObj>, rpms: seq<RemoteObj>,
                                 destDir: string, force: bool, digest: Digest, now: DateTime, k: nat)
    requires k < |metadata|
    requires |metadata[k].key| > 0 && metadata[k].key[|metadata[k].key| - 1] == '/' && !IsFolderKey(metadata[k].key)
    ensures GetRepoEffect(dirs, metadata, rpms, destDir, force, digest, now).1.Failure?
  {
    if MakeRepodataDir(dirs, destDir).Some? {
      var start := MakeRepodataDir(dirs, destDir).value;
      var dir := PathJoin(destDir, Repodata);
      FolderObjectFailsRun(metadata, EntriesOf(start, dir), dir, dir in start, true, digest, now, k);
    }
  }

  // ---------------------------------------------------------------------
  // upload_directory
  // ---------------------------------------------------------------------

  /** `names` lists the entries of a directory, each once, in some order. */
  ghost predicate IsEnumeration(names: seq<string>, entries: Dir) {
    (forall n :: n in names <==> n in entries) &&
    (forall i, j :: 0 <= i < j < |names| ==> names[i] != names[j])
  }

  /** The puts of an upload run and the exception that ended it. */
  datatype Plan = Plan(puts: seq<Op>, failure: Option<Error>)

  /** One pass of upload_directory's loop body: a regular file that
      should_upload selects, against the check item of the same base name, is
      put under s3join(prefix, name). */
  function UploadOne(plan: Plan, name: string, entries: Dir, byName: map<string, RemoteObj>,
                     prefix: string, force: bool, digest: Digest): Plan
  {
    if plan.failure.Some? || name !in entries || entries[name].SubDir? then plan
    else
      var remote := if name in byName then Some(byName[name]) else None;
      var decision := ShouldUpload(entries[name].data, entries[name].mtime, remote, force, digest);
      if decision.Failure? then plan.(failure := Some(decision.error))
      else if decision.value then plan.(puts := plan.puts + [Op.Put(S3Join([prefix, name]), entries[name].data)])
      else plan
  }

  /** The run of upload_directory over the directory listing `names`. */
  function UploadPlan(names: seq<string>, entries: Dir, byName: map<string, RemoteObj>,
                      prefix: string, force: bool, digest: Digest): (plan: Plan)
    ensures |plan.puts| <= |names|
    ensures forall op :: op in plan.puts ==> op.Put?
    ensures plan.failure.Some? ==> plan.failure.value.Other? && plan.failure.value.problem.BadTime?
    ensures byName == map[] ==> plan.failure.None?
    decreases |names|
  {
    if names == [] then Plan([], None)
    else UploadOne(UploadPlan(names[..|names| - 1], entries, byName, prefix, force, digest),
                   names[|names| - 1], entries, byName, prefix, force, digest)
  }

  /** A pass of the loop that has not failed only appends to the puts. */
  lemma UploadOneAppends(puts: seq<Op>, name: string, entries: Dir, byName: map<string, RemoteObj>,
                         prefix: string, force: bool, digest: Digest)
    ensures var step := UploadOne(Plan([], None), name, entries, byName, prefix, force, digest);
            UploadOne(Plan(puts, None), name, entries, byName, prefix, force, digest)
            == Plan(puts + step.puts, step.failure)
  {
  }

  /** The body of upload_directory's loop for one listed name. */
  method UploadEntry(ctx: Context, name: string, entries: Dir, byName: map<string, RemoteObj>, prefix: string)
    returns (failure: Option<Error>)
    requires ctx.store.Valid()
    modifies ctx.store
    ensures ctx.store.Valid()
    ensures var step := UploadOne(Plan([], None), name, entries, byName, prefix, ctx.opts.forceUpload, ctx.digest);
            && failure == step.failure
            && ctx.store.log == old(ctx.store.log) + (if ctx.opts.dryRun then [] else step.puts)
  {
    if name !in entries || entries[name].SubDir? {
      return None;
    }
    var remote := if name in byName then Some(byName[name]) else None;
    var file := entries[name];
    var decision := ShouldUpload(file.data, file.mtime, remote, ctx.opts.forceUpload, ctx.digest);
    if decision.Failure? {
      return Some(decision.error);
    }
    if decision.value {
      var dest := S3Join([prefix, name]);
      if !ctx.opts.dryRun {
        ctx.store.Put(dest, file.data);
      }
    }
    failure := None;
  }

  /** One pass of upload_directory's loop, at position `i` of `files`. */
  method UploadStep(ctx: Context, files: seq<string>, i: nat, entries: Dir, byName: map<string, RemoteObj>,
                    prefix: string, ghost log0: seq<Op>)
    returns (failure: Option<Error>)
    requires i < |files|
    requires ctx.store.Valid()
    requires UploadPlan(files[..i], entries, byName, prefix, ctx.opts.forceUpload, ctx.digest).failure.None?
    requires ctx.store.log == log0 + (if ctx.opts.dryRun then []
                                      else UploadPlan(files[..i], entries, byName, prefix, ctx.opts.forceUpload, ctx.digest).puts)
    modifies ctx.store
    ensures ctx.store.Valid()
    ensures failure == UploadPlan(files[..i + 1], entries, byName, prefix, ctx.opts.forceUpload, ctx.digest).failure
    ensures ctx.store.log == log0 + (if ctx.opts.dryRun then []
                                     else UploadPlan(files[..i + 1], entries, byName, prefix, ctx.opts.forceUpload, ctx.digest).puts)
  {
    assert files[..i + 1][..i] == files[..i];
    ghost var before := UploadPlan(files[..i], entries, byName, prefix, ctx.opts.forceUpload, ctx.digest);
    UploadOneAppends(before.puts, files[i], entries, byName, prefix, ctx.opts.forceUpload, ctx.digest);
    failure := UploadEntry(ctx, files[i], entries, byName, prefix);
  }

  /** upload_directory's loop over the listed names `files`. */
  method UploadNames(ctx: Context, files: seq<string>, entries: Dir, byName: map<string, RemoteObj>, prefix: string)
    returns (failure: Option<Error>)
    requires ctx.store.Valid()
    modifies ctx.store
    ensures ctx.store.Valid()
    ensures failure == UploadPlan(files, entries, byName, prefix, ctx.opts.forceUpload, ctx.digest).failure
    ensures ctx.store.log == old(ctx.store.log) + (if ctx.opts.dryRun then []
                             else UploadPlan(files, entries, byName, prefix, ctx.opts.forceUpload, ctx.digest).puts)
  {
    ghost var log0 := ctx.store.log;
    var i := 0;
    while i < |files|
      invariant 0 <= i <= |files|
      invariant ctx.store.Valid()
      invariant UploadPlan(files[..i], entries, byName, prefix, ctx.opts.forceUpload, ctx.digest).failure.None?
      invariant ctx.store.log == log0 + (if ctx.opts.dryRun then []
                                         else UploadPlan(files[..i], entries, byName, prefix, ctx.opts.forceUpload, ctx.digest).puts)
    {
      failure := UploadStep(ctx, files, i, entries, byName, prefix, log0);
      if failure.Some? {
        PlanStopsAtFailure(files, i + 1, entries, byName, prefix, ctx.opts.forceUpload, ctx.digest);
        return;
      }
      i := i + 1;
    }
    assert files[..i] == files;
    failure := None;
  }

  /** upload_directory: lists `dirPath` and uploads what should_upload selects;
      under --dry-run nothing is put. `listing` is the order os.listdir gave. */
  method UploadDirectory(ctx: Context, dirPath: string, prefix: string, checkItems: seq<RemoteObj>)
    returns (r: Result<(), Error>, ghost listing: seq<string>)
    requires ctx.store.Valid()
    modifies ctx.store
    ensures ctx.store.Valid()
    ensures dirPath !in ctx.fs.dirs ==>
              r == Failure(Other(NoSuchDirectory(dirPath))) && ctx.store.log == old(ctx.store.log)
    ensures dirPath in ctx.fs.dirs ==>
              && IsEnumeration(listing, ctx.fs.dirs[dirPath])
              && var plan := UploadPlan(listing, ctx.fs.dirs[dirPath], ByBaseName(checkItems), prefix,
                                        ctx.opts.forceUpload, ctx.digest);
                 && ctx.store.log == old(ctx.store.log) + (if ctx.opts.dryRun then [] else plan.puts)
                 && r == if plan.failure.Some? then Failure(plan.failure.value) else Success(())
  {
    var byName := ByBaseName(checkItems);
    var names := ctx.fs.ListDir(dirPath);
    if names.None? {
      return Failure(Other(NoSuchDirectory(dirPath))), [];
    }
    listing := names.value;
    var failure := UploadNames(ctx, names.value, ctx.fs.dirs[dirPath], byName, prefix);
    r := if failure.Some? then Failure(failure.value) else Success(());
  }

  /** Once an upload run has failed, the later names change nothing. */
  lemma {:induction false} PlanStopsAtFailure(names: seq<string>, k: nat, entries: Dir, byName: map<string, RemoteObj>,
                                              prefix: string, force: bool, digest: Digest)
    requires k <= |names|
    requires UploadPlan(names[..k], entries, byName, prefix, force, digest).failure.Some?
    ensures UploadPlan(names, entries, byName, prefix, force, digest)
         == UploadPlan(names[..k], entries, byName, prefix, force, digest)
    decreases |names|
  {
    if k < |names| {
      var front := names[..|names| - 1];
      assert front[..k] == names[..k];
      PlanStopsAtFailure(front, k, entries, byName, prefix, force, digest);
    } else {
      assert names[..k] == names;
    }
  }

  /** Name `n` is a regular file that should_upload selects. */
  predicate Selected(n: string, entries: Dir, byName: map<string, RemoteObj>, force: bool, digest: Digest) {
    n in entries && entries[n].File? &&
    ShouldUpload(entries[n].data, entries[n].mtime, if n in byName then Some(byName[n]) else None, force, digest)
      == Success(true)
  }

  /** `op` puts the contents of a listed regular file that should_upload
      selects, under s3join(prefix, its name). */
  predicate PutOfSelected(op: Op, names: seq<string>, entries: Dir, byName: map<string, RemoteObj>,
                          prefix: string, force: bool, digest: Digest) {
    exists n :: n in names && Selected(n, entries, byName, force, digest) &&
                op == Op.Put(S3Join([prefix, n]), entries[n].data)
  }

  /** Every put of a run is the contents of a listed regular file that
      should_upload selects, under s3join(prefix, its name). */
  lemma {:induction false} PutsAreSelected(names: seq<string>, entries: Dir, byName: map<string, RemoteObj>,
                                           prefix: string, force: bool, digest: Digest)
    ensures forall k :: 0 <= k < |UploadPlan(names, entries, byName, prefix, force, digest).puts| ==>
              PutOfSelected(UploadPlan(names, entries, byName, prefix, force, digest).puts[k],
                            names, entries, byName, prefix, force, digest)
    decreases |names|
  {
    if names != [] {
      var front := names[..|names| - 1];
      PutsAreSelected(front, entries, byName, prefix, force, digest);
      var q := UploadPlan(front, entries, byName, prefix, force, digest);
      var plan := UploadPlan(names, entries, byName, prefix, force, digest);
      forall k | 0 <= k < |plan.puts|
        ensures PutOfSelected(plan.puts[k], names, entries, byName, prefix, force, digest)
      {
        if k < |q.puts| {
          assert plan.puts[k] == q.puts[k];
          assert PutOfSelected(q.puts[k], front, entries, byName, prefix, force, digest);
          var n :| n in front && Selected(n, entries, byName, force, digest) &&
                   q.puts[k] == Op.Put(S3Join([prefix, n]), entries[n].data);
          assert n in names;
        } else {
          assert names[|names| - 1] in names;
        }
      }
    }
  }

  /** A run that does not fail puts every listed regular file that
      should_upload selects. */
  lemma {:induction false} PlanIsComplete(names: seq<string>, entries: Dir, byName: map<string, RemoteObj>,
                                          prefix: string, force: bool, digest: Digest)
    ensures var plan := UploadPlan(names, entries, byName, prefix, force, digest);
            plan.failure.None? ==>
              forall n :: n in names && Selected(n, entries, byName, force, digest) ==>
                Op.Put(S3Join([prefix, n]), entries[n].data) in plan.puts
    decreases |names|
  {
    if names != [] {
      var front := names[..|names| - 1];
      PlanIsComplete(front, entries, byName, prefix, force, digest);
      var q := UploadPlan(front, entries, byName, prefix, force, digest);
      var plan := UploadPlan(names, entries, byName, prefix, force, digest);
      if plan.failure.None? {
        forall n | n in names && Selected(n, entries, byName, force, digest)
          ensures Op.Put(S3Join([prefix, n]), entries[n].data) in plan.puts
        {
          if n in front {
            assert q.puts <= plan.puts;
          }
        }
      }
    }
  }

  /** With no check items (the metadata upload), the run cannot fail and puts
      every regular file of the listing. */
  lemma {:induction false} NoCheckItemsUploadsAll(names: seq<string>, entries: Dir, prefix: string,
                                                  force: bool, digest: Digest)
    ensures var plan := UploadPlan(names, entries, map[], prefix, force, digest);
            plan.failure.None? &&
            forall n :: n in names && n in entries && entries[n].File? ==>
              Op.Put(S3Join([prefix, n]), entries[n].data) in plan.puts
    decreases |names|
  {
    if names != [] {
      var front := names[..|names| - 1];
      NoCheckItemsUploadsAll(front, entries, prefix, force, digest);
      var q := UploadPlan(front, entries, map[], prefix, force, digest);
      var plan := UploadPlan(names, entries, map[], prefix, force, digest);
      assert q.puts <= plan.puts;
    }
  }
}
