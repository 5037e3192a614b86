// The working directory of s3yum/s3yum_cli.py: init_workingdir picks or
// creates it, copy_rpms puts the packages named on the command line into it
// and create_repodata has createrepo write its repodata directory.

module WorkDir {
  import opened Wrappers
  import opened Text
  import opened Paths
  import opened S3Time
  import opened Local
  import opened Session

  // ---------------------------------------------------------------------
  // init_workingdir
  // ---------------------------------------------------------------------

  /** The working directory: the -w option when given, else the directory
      mkdtemp creates, named `tempName`. */
  function WorkDirOf(opts: Options, tempName: string): string {
    if opts.workingDir != "" then opts.workingDir else tempName
  }

  /** The file system after init_workingdir: a missing -w directory is
      created, a temporary one always is, and nothing that was there
      changes. */
  function InitDirs(dirs: map<string, Dir>, opts: Options, tempName: string): (r: map<string, Dir>)
    requires opts.workingDir == "" ==> tempName !in dirs
    ensures forall d :: d in dirs ==> d in r && r[d] == dirs[d]
    ensures forall d :: d in r && d !in dirs ==> d == WorkDirOf(opts, tempName) && r[d] == map[]
    ensures WorkDirOf(opts, tempName) in r || (opts.workingDir != "" && PathExists(dirs, opts.workingDir))
  {
    var wd := WorkDirOf(opts, tempName);
    if opts.workingDir != "" && PathExists(dirs, wd) then dirs else dirs[wd := map[]]
  }

  /** init_workingdir; `tempName` is the fresh name mkdtemp returns. */
  method InitWorkingDir(ctx: Context, tempName: string)
    requires ctx.opts.workingDir == "" ==> tempName !in ctx.fs.dirs
    modifies ctx, ctx.fs
    ensures ctx.workingDir == Some(WorkDirOf(ctx.opts, tempName))
    ensures ctx.workingDirRepodata == Some(PathJoin(WorkDirOf(ctx.opts, tempName), Repodata))
    ensures ctx.fs.dirs == InitDirs(old(ctx.fs.dirs), ctx.opts, tempName)
    ensures ctx.repodataPath == old(ctx.repodataPath) && ctx.repodataItems == old(ctx.repodataItems)
    ensures ctx.rpmItems == old(ctx.rpmItems)
    ensures ctx.store.log == old(ctx.store.log) && ctx.store.objects == old(ctx.store.objects)
  {
    if ctx.opts.workingDir != "" {
      ctx.workingDir := Some(ctx.opts.workingDir);
      ctx.workingDirRepodata := Some(PathJoin(ctx.opts.workingDir, Repodata));
      if !PathExists(ctx.fs.dirs, ctx.opts.workingDir) {
        ctx.fs.MakeDir(ctx.opts.workingDir);
      }
    } else {
      ctx.fs.MakeDir(tempName);
      ctx.workingDir := Some(tempName);
      ctx.workingDirRepodata := Some(PathJoin(tempName, Repodata));
    }
  }

  // ---------------------------------------------------------------------
  // copy_rpms
  // ---------------------------------------------------------------------

  /** What a whole path names: the entry of its directory, or the directory
      itself (also when the path ends in a slash). */
  function Source(dirs: map<string, Dir>, p: string): Option<Entry> {
    if Dirname(p) in dirs && Basename(p) == "" then Some(SubDir)
    else if Dirname(p) in dirs && Basename(p) in dirs[Dirname(p)] then Some(dirs[Dirname(p)][Basename(p)])
    else if p in dirs then Some(SubDir)
    else None
  }

  /** shutil.copy(p, wd): the file's contents go to wd under its base name,
      stamped with the current time. Reading a missing path or a directory,
      or writing into a missing directory or onto a sub-directory, is an
      IOError, which copy_rpms turns into a ServiceError. */
  function CopyOne(dirs: map<string, Dir>, wd: string, p: string, now: DateTime): (r: Result<map<string, Dir>, Error>)
    ensures r.Failure? ==> r.error == ServiceError(CopyFailed(p))
    ensures r.Success? <==> wd in dirs && Source(dirs, p).Some? && Source(dirs, p).value.File? &&
                            (Basename(p) in dirs[wd] ==> dirs[wd][Basename(p)].File?)
    ensures r.Success? ==> r.value == dirs[wd := dirs[wd][Basename(p) := File(Source(dirs, p).value.data, now)]]
  {
    var src := Source(dirs, p);
    var name := Basename(p);
    if src.None? || src.value.SubDir? then Failure(ServiceError(CopyFailed(p)))
    else if wd !in dirs || (name in dirs[wd] && dirs[wd][name] == SubDir) then Failure(ServiceError(CopyFailed(p)))
    else Success(dirs[wd := dirs[wd][name := File(src.value.data, now)]])
  }

  /** copy_rpms: the paths are copied in order and the first failure ends
      the loop. */
  function Copies(dirs: map<string, Dir>, wd: string, paths: seq<string>, now: DateTime)
    : (map<string, Dir>, Result<(), Error>)
    decreases |paths|
  {
    if paths == [] then (dirs, Success(()))
    else
      var (front, r) := Copies(dirs, wd, paths[..|paths| - 1], now);
      if r.Failure? then (front, r)
      else match CopyOne(front, wd, paths[|paths| - 1], now)
        case Failure(e) => (front, Failure(e))
        case Success(next) => (next, Success(()))
  }

  lemma CopiesStep(dirs: map<string, Dir>, wd: string, paths: seq<string>, now: DateTime, i: nat)
    requires i < |paths|
    requires Copies(dirs, wd, paths[..i], now).1.Success?
    ensures Copies(dirs, wd, paths[..i + 1], now)
         == match CopyOne(Copies(dirs, wd, paths[..i], now).0, wd, paths[i], now)
              case Failure(e) => (Copies(dirs, wd, paths[..i], now).0, Failure(e))
              case Success(next) => (next, Success(()))
  {
    assert paths[..i + 1][..i] == paths[..i];
  }

  /** Once a copy fails, the later paths change nothing. */
  lemma {:induction false} CopiesStopAtFailure(dirs: map<string, Dir>, wd: string, paths: seq<string>,
                                               now: DateTime, k: nat)
    requires k <= |paths|
    requires Copies(dirs, wd, paths[..k], now).1.Failure?
    ensures Copies(dirs, wd, paths, now) == Copies(dirs, wd, paths[..k], now)
    decreases |paths| - k
  {
    if k < |paths| {
      assert paths[..k + 1][..k] == paths[..k];
      CopiesStopAtFailure(dirs, wd, paths, now, k + 1);
    } else {
      assert paths[..k] == paths;
    }
  }

  /** One shutil.copy of copy_rpms. */
  method CopyPath(ctx: Context, wd: string, p: string) returns (r: Result<(), Error>)
    modifies ctx.fs
    ensures r.Failure? ==> ctx.fs.dirs == old(ctx.fs.dirs) && CopyOne(old(ctx.fs.dirs), wd, p, ctx.fs.now) == Failure(r.error)
    ensures r.Success? ==> CopyOne(old(ctx.fs.dirs), wd, p, ctx.fs.now) == Success(ctx.fs.dirs)
  {
    var src := ctx.fs.Lookup(Dirname(p), Basename(p));
    if src.None? && p in ctx.fs.dirs {
      src := Some(SubDir);
    }
    if src.None? || src.value.SubDir? {
      return Failure(ServiceError(CopyFailed(p)));
    }
    var ok := ctx.fs.Write(wd, Basename(p), src.value.data);
    if !ok {
      return Failure(ServiceError(CopyFailed(p)));
    }
    r := Success(());
  }

  /** copy_rpms. */
  method CopyRpms(ctx: Context) returns (r: Result<(), Error>)
    requires ctx.workingDir.Some?
    modifies ctx.fs
    ensures (ctx.fs.dirs, r) == Copies(old(ctx.fs.dirs), ctx.workingDir.value, ctx.rpmArgs, ctx.fs.now)
  {
    var wd := ctx.workingDir.value;
    ghost var dirs0 := ctx.fs.dirs;
    var i := 0;
    assert ctx.rpmArgs[..0] == [];
    while i < |ctx.rpmArgs|
      invariant 0 <= i <= |ctx.rpmArgs|
      invariant Copies(dirs0, wd, ctx.rpmArgs[..i], ctx.fs.now) == (ctx.fs.dirs, Success(()))
    {
      CopiesStep(dirs0, wd, ctx.rpmArgs, ctx.fs.now, i);
      r := CopyPath(ctx, wd, ctx.rpmArgs[i]);
      if r.Failure? {
        CopiesStopAtFailure(dirs0, wd, ctx.rpmArgs, ctx.fs.now, i + 1);
        return;
      }
      i := i + 1;
    }
    assert ctx.rpmArgs[..i] == ctx.rpmArgs;
    r := Success(());
  }

  /** Copying changes no directory but the working directory. */
  lemma {:induction false} CopiesFrame(dirs: map<string, Dir>, wd: string, paths: seq<string>, now: DateTime)
    ensures Copies(dirs, wd, paths, now).0.Keys == dirs.Keys
    ensures forall d :: d in dirs && d != wd ==> Copies(dirs, wd, paths, now).0[d] == dirs[d]
    decreases |paths|
  {
    if paths != [] {
      CopiesFrame(dirs, wd, paths[..|paths| - 1], now);
    }
  }

  /** A copy run that succeeds leaves a regular file in the working
      directory under the base name of every path. */
  lemma {:induction false} CopiesPlaceEach(dirs: map<string, Dir>, wd: string, paths: seq<string>, now: DateTime)
    requires Copies(dirs, wd, paths, now).1.Success?
    ensures paths != [] ==> wd in Copies(dirs, wd, paths, now).0
    ensures forall i :: 0 <= i < |paths| ==>
              var after := Copies(dirs, wd, paths, now).0;
              wd in after && Basename(paths[i]) in after[wd] && after[wd][Basename(paths[i])].File?
    decreases |paths|
  {
    if paths != [] {
      var front := paths[..|paths| - 1];
      CopiesPlaceEach(dirs, wd, front, now);
      forall i | 0 <= i < |front| ensures paths[i] == front[i] { }
    }
  }

  /** A copy run that fails names one of the paths. */
  lemma {:induction false} CopiesFailure(dirs: map<string, Dir>, wd: string, paths: seq<string>, now: DateTime)
    requires Copies(dirs, wd, paths, now).1.Failure?
    ensures exists i :: 0 <= i < |paths| && Copies(dirs, wd, paths, now).1.error == ServiceError(CopyFailed(paths[i]))
    decreases |paths|
  {
    var front := paths[..|paths| - 1];
    if Copies(dirs, wd, front, now).1.Failure? {
      CopiesFailure(dirs, wd, front, now);
      var i :| 0 <= i < |front| && Copies(dirs, wd, front, now).1.error == ServiceError(CopyFailed(front[i]));
      assert paths[i] == front[i];
    } else {
      assert Copies(dirs, wd, paths, now).1.error == ServiceError(CopyFailed(paths[|paths| - 1]));
    }
  }

  /** When no package lives in the working directory itself, the file a base
      name ends up with holds the contents of the last path with that base
      name. */
  lemma {:induction false} CopiesLastWins(dirs: map<string, Dir>, wd: string, paths: seq<string>, now: DateTime,
                                          i: nat)
    requires i < |paths|
    requires forall j :: 0 <= j < |paths| ==> Dirname(paths[j]) != wd && paths[j] != wd
    requires forall j :: i < j < |paths| ==> Basename(paths[j]) != Basename(paths[i])
    requires Copies(dirs, wd, paths, now).1.Success?
    ensures Source(dirs, paths[i]).Some? && Source(dirs, paths[i]).value.File?
    ensures var after := Copies(dirs, wd, paths, now).0;
            wd in after && Basename(paths[i]) in after[wd] &&
            after[wd][Basename(paths[i])] == File(Source(dirs, paths[i]).value.data, now)
    decreases |paths|
  {
    var front := paths[..|paths| - 1];
    var before := Copies(dirs, wd, front, now).0;
    CopiesFrame(dirs, wd, front, now);
    SourceOutsideWd(dirs, before, wd, paths[|paths| - 1]);
    if i < |front| {
      assert front[i] == paths[i];
      CopiesLastWins(dirs, wd, front, now, i);
    }
  }

  /** A path outside `wd` names the same thing before and after a change to
      `wd` alone. */
  lemma SourceOutsideWd(dirs: map<string, Dir>, after: map<string, Dir>, wd: string, p: string)
    requires after.Keys == dirs.Keys
    requires forall d :: d in dirs && d != wd ==> after[d] == dirs[d]
    requires Dirname(p) != wd && p != wd
    ensures Source(after, p) == Source(dirs, p)
  {
  }

  // ---------------------------------------------------------------------
  // create_repodata
  // ---------------------------------------------------------------------

  /** create_repodata. `createrepo` stands for the external program: given
      the entries of the working directory, the repodata directory it
      writes, or None when it exits with an error or cannot be run. An old
      repodata directory is removed first; one that is not a directory makes
      rmtree raise an OSError. Every failure is a ServiceError. */
  function CreateEffect(dirs: map<string, Dir>, wd: string, createrepo: Dir -> Option<Dir>)
    : (map<string, Dir>, Result<(), Error>)
  {
    var wdr := PathJoin(wd, Repodata);
    var present := PathExists(dirs, wdr);
    if present && wdr !in dirs then (dirs, Failure(ServiceError(CreaterepoFailed)))
    else
      var cleared := if present then RemovedTree(dirs, wdr) else dirs;
      if wd !in cleared then (cleared, Failure(ServiceError(CreaterepoFailed)))
      else match createrepo(cleared[wd])
        case None => (cleared, Failure(ServiceError(CreaterepoFailed)))
        case Some(meta) => (cleared[wd := cleared[wd][Repodata := SubDir]][wdr := meta], Success(()))
  }

  method CreateRepodata(ctx: Context, createrepo: Dir -> Option<Dir>) returns (r: Result<(), Error>)
    requires ctx.workingDir.Some?
    requires ctx.workingDirRepodata == Some(PathJoin(ctx.workingDir.value, Repodata))
    modifies ctx.fs
    ensures (ctx.fs.dirs, r) == CreateEffect(old(ctx.fs.dirs), ctx.workingDir.value, createrepo)
  {
    var wd := ctx.workingDir.value;
    var wdr := ctx.workingDirRepodata.value;
    if PathExists(ctx.fs.dirs, wdr) {
      var removed := ctx.fs.RemoveTree(wdr);
      if !removed {
        return Failure(ServiceError(CreaterepoFailed));
      }
    }
    if wd !in ctx.fs.dirs {
      return Failure(ServiceError(CreaterepoFailed));
    }
    var meta := createrepo(ctx.fs.dirs[wd]);
    if meta.None? {
      return Failure(ServiceError(CreaterepoFailed));
    }
    ctx.fs.Populate(wd, Repodata, meta.value);
    r := Success(());
  }

  /** A successful create_repodata leaves exactly createrepo's output in the
      repodata directory, listed in the working directory, and nothing of the
      old repodata tree below it. */
  lemma CreateRepodataFresh(dirs: map<string, Dir>, wd: string, createrepo: Dir -> Option<Dir>)
    requires CreateEffect(dirs, wd, createrepo).1.Success?
    ensures var after := CreateEffect(dirs, wd, createrepo).0;
            var wdr := PathJoin(wd, Repodata);
            var cleared := if PathExists(dirs, wdr) then RemovedTree(dirs, wdr) else dirs;
            && wd in cleared && createrepo(cleared[wd]).Some?
            && wdr in after && after[wdr] == createrepo(cleared[wd]).value
            && wd in after && Repodata in after[wd] && after[wd][Repodata] == SubDir
            && (PathExists(dirs, wdr) ==> forall d :: StartsWith(d, wdr + "/") ==> d !in after)
  {
  }

  /** create_repodata fails, and changes nothing, when the repodata path is
      taken by something that is not a directory. */
  lemma CreateRepodataBlocked(dirs: map<string, Dir>, wd: string, createrepo: Dir -> Option<Dir>)
    requires PathExists(dirs, PathJoin(wd, Repodata)) && PathJoin(wd, Repodata) !in dirs
    ensures CreateEffect(dirs, wd, createrepo) == (dirs, Failure(ServiceError(CreaterepoFailed)))
  {
  }
}
