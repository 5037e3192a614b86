// perform_action and main of s3yum/s3yum_cli.py: the validation of the
// command line, the dispatch on the action and the removal of a temporary
// working directory at the end of the run.

module Cli {
  import opened Wrappers
  import opened Text
  import opened Paths
  import opened S3Time
  import opened Md5
  import opened Remote
  import opened Local
  import opened Session
  import opened Transfer
  import opened Listing
  import opened Deletion
  import opened Publish
  import opened WorkDir

  // ---------------------------------------------------------------------
  // Validating the command line
  // ---------------------------------------------------------------------

  /** What main decides before it connects: go on, print the action help and
      exit, or raise a UserError. */
  datatype Verdict = Proceed | ShowHelp | Reject(reason: UsageReason)

  /** The checks of main, in order; the output check is written
      `action in (GET)`, which tests for a substring of 'get'. */
  function Validate(inv: Invocation): (v: Verdict)
    ensures v.Reject? && v.reason.BadAction? ==> inv.action == Some(v.reason.action)
  {
    if inv.action.None? || inv.action.value == "" then Reject(NoAction)
    else if inv.action.value !in Actions then Reject(BadAction(inv.action.value))
    else if inv.action.value == Help then ShowHelp
    else if (inv.action.value == Create || inv.action.value == Update) && inv.rpmArgs == [] && inv.opts.remove == []
    then Reject(NoPackages)
    else if inv.opts.bucket == "" then Reject(NoBucket)
    else if Contains(Get, inv.action.value) && inv.opts.output == "" then Reject(NoOutput)
    else Proceed
  }

  /** Among the valid actions, only 'get' is a substring of 'get'. */
  lemma GetTestIsEquality(a: string)
    requires a in Actions
    ensures Contains(Get, a) <==> a == Get
  {
    ContainsAt(Get, a);
  }

  /** main goes on exactly when an action is given and valid, is not help,
      has packages or --remove patterns when it creates or updates, a bucket
      is given, and an output directory is given for get. */
  lemma ProceedIff(inv: Invocation)
    ensures Validate(inv) == Proceed <==>
              && inv.action.Some? && inv.action.value in Actions && inv.action.value != Help
              && !((inv.action.value == Create || inv.action.value == Update) && inv.rpmArgs == [] && inv.opts.remove == [])
              && inv.opts.bucket != ""
              && !(inv.action.value == Get && inv.opts.output == "")
  {
    if inv.action.Some? && inv.action.value in Actions {
      GetTestIsEquality(inv.action.value);
    }
  }

  /** A missing action is reported before anything else is looked at. */
  lemma NoActionFirst(inv: Invocation)
    requires inv.action.None?
    ensures Validate(inv) == Reject(NoAction)
  {
  }

  /** 'list' and 'delete' need nothing but a bucket. */
  lemma ListNeedsOnlyBucket(inv: Invocation)
    requires inv.action == Some(List) || inv.action == Some(Session.Delete)
    ensures Validate(inv) == Proceed <==> inv.opts.bucket != ""
  {
    GetTestIsEquality(inv.action.value);
  }

  // ---------------------------------------------------------------------
  // perform_action
  // ---------------------------------------------------------------------

  /** create_repodata after copy_rpms, as create and update run them. */
  function BuildEffect(dirs: map<string, Dir>, wd: string, rpmArgs: seq<string>, createrepo: Dir -> Option<Dir>,
                       now: DateTime): (map<string, Dir>, Result<(), Error>)
  {
    var (copied, r) := Copies(dirs, wd, rpmArgs, now);
    if r.Failure? then (copied, r) else CreateEffect(copied, wd, createrepo)
  }

  /** The local part of create (`fetch` false) and update (`fetch` true):
      the working directory is set up, update downloads the current repo
      into it, the packages are copied in and createrepo is run. */
  function PrepareEffect(dirs: map<string, Dir>, opts: Options, fetch: bool, tempName: string,
                         metadata: seq<RemoteObj>, rpms: seq<RemoteObj>, rpmArgs: seq<string>,
                         createrepo: Dir -> Option<Dir>, digest: Digest, now: DateTime)
    : (map<string, Dir>, Result<(), Error>)
    requires opts.workingDir == "" ==> tempName !in dirs
  {
    var wd := WorkDirOf(opts, tempName);
    var start := InitDirs(dirs, opts, tempName);
    if !fetch then BuildEffect(start, wd, rpmArgs, createrepo, now)
    else
      var (fetched, r) := GetRepoEffect(start, metadata, rpms, wd, opts.forceDownload, digest, now);
      if r.Failure? then (fetched, r) else BuildEffect(fetched, wd, rpmArgs, createrepo, now)
  }

  /** The steps of create and update before upload_repodata. */
  method Prepare(ctx: Context, fetch: bool, tempName: string, createrepo: Dir -> Option<Dir>)
    returns (r: Result<(), Error>)
    requires ctx.opts.workingDir == "" ==> tempName !in ctx.fs.dirs
    modifies ctx, ctx.fs
    ensures ctx.workingDir == Some(WorkDirOf(ctx.opts, tempName))
    ensures ctx.workingDirRepodata == Some(PathJoin(WorkDirOf(ctx.opts, tempName), Repodata))
    ensures ctx.repodataPath == old(ctx.repodataPath) && ctx.repodataItems == old(ctx.repodataItems)
    ensures ctx.rpmItems == old(ctx.rpmItems)
    ensures (ctx.fs.dirs, r) == PrepareEffect(old(ctx.fs.dirs), ctx.opts, fetch, tempName, ctx.repodataItems,
                                              ctx.rpmItems, ctx.rpmArgs, createrepo, ctx.digest, ctx.fs.now)
  {
    InitWorkingDir(ctx, tempName);
    var wd := ctx.workingDir.value;
    if fetch {
      r := GetRepo(ctx, wd);
      if r.Failure? {
        return;
      }
    }
    r := CopyRpms(ctx);
    if r.Failure? {
      return;
    }
    r := CreateRepodata(ctx, createrepo);
  }

  /** create and update: the working directory is prepared, and only when
      that succeeds is anything uploaded or deleted in the bucket. */
  method PublishRepo(ctx: Context, fetch: bool, tempName: string, createrepo: Dir -> Option<Dir>)
    returns (r: Result<(), Error>, ghost prepared: Result<(), Error>, ghost listing: seq<string>,
             ghost metaListing: seq<string>)
    requires ctx.store.Valid()
    requires ctx.opts.workingDir == "" ==> tempName !in ctx.fs.dirs
    modifies ctx, ctx.fs, ctx.store
    ensures ctx.store.Valid()
    ensures ctx.workingDir == Some(WorkDirOf(ctx.opts, tempName))
    ensures ctx.workingDirRepodata == Some(PathJoin(WorkDirOf(ctx.opts, tempName), Repodata))
    ensures ctx.repodataItems == old(ctx.repodataItems) && ctx.rpmItems == old(ctx.rpmItems)
    ensures (ctx.fs.dirs, prepared) == PrepareEffect(old(ctx.fs.dirs), ctx.opts, fetch, tempName, ctx.repodataItems,
                                                     ctx.rpmItems, ctx.rpmArgs, createrepo, ctx.digest, ctx.fs.now)
    ensures prepared.Failure? ==> r == prepared && ctx.store.log == old(ctx.store.log)
    ensures prepared.Success? ==>
              var (ops, result) := PublishOps(ctx.fs.dirs, ctx.opts, ctx.repodataItems, ctx.rpmItems,
                                              ctx.workingDir.value, ctx.workingDirRepodata.value, ctx.digest,
                                              listing, metaListing);
              r == result && ctx.store.log == old(ctx.store.log) + (if ctx.opts.dryRun then [] else ops)
  {
    r := Prepare(ctx, fetch, tempName, createrepo);
    prepared := r;
    if r.Failure? {
      return r, prepared, [], [];
    }
    r, listing, metaListing := UploadRepodata(ctx);
  }

  /** What perform_action's delete branch returns: delete_repo's answer is
      dropped. */
  function Dropped(r: Result<bool, Error>): Result<(), Error> {
    if r.Failure? then Failure(r.error) else Success(())
  }

  /** Whether the action prepares a working directory and publishes it. */
  predicate Publishes(action: Option<string>) {
    action == Some(Create) || action == Some(Update)
  }

  /** perform_action's effect: the file system it leaves, the requests it
      sends to the bucket and its result. create and update prepare the
      working directory (update fetching the current repo first) and publish
      it only when that succeeds; get only writes to disk; delete only sends
      deletions, and only when the prompt is answered yes; any other action
      does nothing. `listing` and `metaListing` are the orders in which
      upload_repodata enumerates the working directory. */
  function ActionEffect(dirs: map<string, Dir>, opts: Options, action: Option<string>, metadata: seq<RemoteObj>,
                        rpms: seq<RemoteObj>, rpmArgs: seq<string>, answers: seq<string>, tempName: string,
                        createrepo: Dir -> Option<Dir>, digest: Digest, now: DateTime,
                        listing: seq<string>, metaListing: seq<string>)
    : (e: (map<string, Dir>, seq<Op>, Result<(), Error>))
    requires opts.workingDir == "" ==> tempName !in dirs
    ensures var prepared := PrepareEffect(dirs, opts, action == Some(Update), tempName, metadata, rpms, rpmArgs,
                                          createrepo, digest, now);
            Publishes(action) && prepared.1.Failure? ==> e == (prepared.0, [], prepared.1)
    ensures opts.dryRun ==> e.1 == []
    ensures action == Some(Get) ==> e.1 == []
    ensures action == Some(Session.Delete) ==> e.0 == dirs && e.2 == Dropped(Confirm(answers, 0).0)
    ensures action == Some(Session.Delete) && e.1 != [] ==>
              Confirm(answers, 0).0 == Success(true) && e.1 == Deletes(metadata) + Deletes(rpms)
    ensures !Publishes(action) && action != Some(Get) && action != Some(Session.Delete) ==>
              e == (dirs, [], Success(()))
  {
    if Publishes(action) then
      var (prepDirs, prepared) := PrepareEffect(dirs, opts, action == Some(Update), tempName, metadata, rpms, rpmArgs,
                                                createrepo, digest, now);
      if prepared.Failure? then (prepDirs, [], prepared)
      else
        var wd := WorkDirOf(opts, tempName);
        var (ops, result) := PublishOps(prepDirs, opts, metadata, rpms, wd, PathJoin(wd, Repodata), digest,
                                        listing, metaListing);
        (prepDirs, if opts.dryRun then [] else ops, result)
    else if action == Some(Get) then
      var (fetched, r) := GetRepoEffect(dirs, metadata, rpms, opts.output, opts.forceDownload, digest, now);
      (fetched, [], r)
    else if action == Some(Session.Delete) then
      var answer := Confirm(answers, 0).0;
      (dirs, if answer != Success(true) || opts.dryRun then [] else Deletes(metadata) + Deletes(rpms), Dropped(answer))
    else (dirs, [], Success(()))
  }

  /** perform_action. `answers` are the lines delete's prompt reads,
      `tempName` the name mkdtemp returns and `createrepo` the external
      program. */
  method PerformAction(ctx: Context, answers: seq<string>, tempName: string, createrepo: Dir -> Option<Dir>)
    returns (r: Result<(), Error>, ghost listing: seq<string>, ghost metaListing: seq<string>)
    requires ctx.store.Valid()
    requires ctx.opts.workingDir == "" ==> tempName !in ctx.fs.dirs
    modifies ctx, ctx.fs, ctx.store
    ensures ctx.store.Valid()
    ensures ctx.repodataItems == old(ctx.repodataItems) && ctx.rpmItems == old(ctx.rpmItems)
    ensures ctx.workingDir == if Publishes(ctx.action) then Some(WorkDirOf(ctx.opts, tempName)) else old(ctx.workingDir)
    ensures Publishes(ctx.action) ==>
              ctx.workingDirRepodata == Some(PathJoin(WorkDirOf(ctx.opts, tempName), Repodata))
    ensures var (dirs, ops, result) := ActionEffect(old(ctx.fs.dirs), ctx.opts, ctx.action, ctx.repodataItems,
                                                    ctx.rpmItems, ctx.rpmArgs, answers, tempName, createrepo,
                                                    ctx.digest, ctx.fs.now, listing, metaListing);
            ctx.fs.dirs == dirs && ctx.store.log == old(ctx.store.log) + ops && r == result
  {
    r, listing, metaListing := Success(()), [], [];
    if Publishes(ctx.action) {
      ghost var prepared;
      r, prepared, listing, metaListing := PublishRepo(ctx, ctx.action == Some(Update), tempName, createrepo);
    } else if ctx.action == Some(Get) {
      r := GetRepo(ctx, ctx.opts.output);
    } else if ctx.action == Some(Session.Delete) {
      var d := DeleteRepo(ctx, answers);
      r := Dropped(d);
    }
  }

  // ---------------------------------------------------------------------
  // main
  // ---------------------------------------------------------------------

  /** How a run of main ends: the action ran, with the result its exception
      handlers report; the action help was printed; or a UserError was
      reported with the usage text. */
  datatype Outcome = Completed(result: Result<(), Error>) | Helped | Rejected(reason: UsageReason)

  /** main, after the options are parsed (`given`) and the bucket is
      connected (`store`). The working directory is removed at the end,
      whatever happened, when mkdtemp made it. */
  method Run(argv: seq<string>, given: Options, store: Store, fs: LocalFs, digest: Digest,
             answers: seq<string>, tempName: string, createrepo: Dir -> Option<Dir>) returns (outcome: Outcome)
    requires store.Valid()
    requires tempName !in fs.dirs
    modifies store, fs
    ensures store.Valid()
    ensures Validate(ParseArgs(argv, given)) == ShowHelp ==> outcome == Helped
    ensures Validate(ParseArgs(argv, given)).Reject? ==> outcome == Rejected(Validate(ParseArgs(argv, given)).reason)
    ensures Validate(ParseArgs(argv, given)) == Proceed ==> outcome.Completed?
    ensures Validate(ParseArgs(argv, given)) != Proceed ==> fs.dirs == old(fs.dirs) && store.log == old(store.log)
    ensures var inv := ParseArgs(argv, given);
            inv.opts.workingDir == "" && (inv.action == Some(Create) || inv.action == Some(Update)) ==>
              tempName !in fs.dirs
    ensures ParseArgs(argv, given).action == Some(List) ==> fs.dirs == old(fs.dirs) && store.log == old(store.log)
    ensures ParseArgs(argv, given).action == Some(Get) ==> store.log == old(store.log)
    ensures ParseArgs(argv, given).action == Some(Session.Delete) ==> fs.dirs == old(fs.dirs)
  {
    var inv := ParseArgs(argv, given);
    var verdict := Validate(inv);
    if verdict == ShowHelp {
      return Helped;
    }
    if verdict.Reject? {
      return Rejected(verdict.reason);
    }
    var ctx := new Context(inv, store, fs, digest);
    var r, metaObjects, rpmObjects, listing, metaListing := Execute(ctx, answers, tempName, createrepo);
    outcome := Completed(r);
  }

  /** The file system main leaves: the working directory is removed when
      mkdtemp made it and it is still there. */
  function CleanedUp(dirs: map<string, Dir>, opts: Options, action: Option<string>, tempName: string)
    : (r: map<string, Dir>)
    ensures Publishes(action) && opts.workingDir == "" ==> tempName !in r
    ensures !(Publishes(action) && opts.workingDir == "") ==> r == dirs
  {
    if Publishes(action) && opts.workingDir == "" && tempName in dirs then RemovedTree(dirs, tempName) else dirs
  }

  /** The body of main's try block after validation, and the cleanup. The
      metadata and package listings are the bucket's listings under
      <path>/repodata and <path>, filtered as list_metadata and list_rpms do;
      the action then has the effect ActionEffect specifies, and the
      working directory is removed when mkdtemp made it. */
  method Execute(ctx: Context, answers: seq<string>, tempName: string, createrepo: Dir -> Option<Dir>)
    returns (r: Result<(), Error>, ghost metaObjects: seq<RemoteObj>, ghost rpmObjects: seq<RemoteObj>,
             ghost listing: seq<string>, ghost metaListing: seq<string>)
    requires ctx.store.Valid()
    requires ctx.workingDir.None?
    requires tempName !in ctx.fs.dirs
    modifies ctx, ctx.store, ctx.fs
    ensures ctx.store.Valid()
    ensures IsListing(old(ctx.store.objects), S3Join([ctx.opts.path, Repodata]), metaObjects)
    ensures ctx.repodataItems == KeepMetadata(metaObjects)
    ensures IsListing(old(ctx.store.objects), ctx.opts.path, rpmObjects) && ctx.rpmItems == KeepRpms(rpmObjects)
    ensures var (dirs, ops, result) := ActionEffect(old(ctx.fs.dirs), ctx.opts, ctx.action, ctx.repodataItems,
                                                    ctx.rpmItems, ctx.rpmArgs, answers, tempName, createrepo,
                                                    ctx.digest, ctx.fs.now, listing, metaListing);
            && r == result && ctx.store.log == old(ctx.store.log) + ops
            && ctx.fs.dirs == CleanedUp(dirs, ctx.opts, ctx.action, tempName)
  {
    metaObjects := ListMetadata(ctx);
    rpmObjects := ListRpms(ctx);
    r, listing, metaListing := PerformAction(ctx, answers, tempName, createrepo);
    if ctx.workingDir.Some? && ctx.opts.workingDir == "" {
      var _ := ctx.fs.RemoveTree(ctx.workingDir.value);
    }
  }
}
