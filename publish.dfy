// upload_repodata of s3yum/s3yum_cli.py: the order in which a repository is
// published. The packages of the working directory go up first, then every
// old metadata item is deleted, then every package a --remove pattern names,
// and last the new metadata goes up.

module Publish {
  import opened Wrappers
  import opened Paths
  import opened Md5
  import opened Glob
  import opened Remote
  import opened Local
  import opened Session
  import opened Transfer
  import opened Deletion

  // ---------------------------------------------------------------------
  // The --remove deletes
  // ---------------------------------------------------------------------

  /** The deletes of `item` for the patterns it matches: one per matching
      pattern, in pattern order. */
  function MatchingDeletes(item: RemoteObj, patterns: seq<string>): seq<Op>
    decreases |patterns|
  {
    if patterns == [] then []
    else
      var front := MatchingDeletes(item, patterns[..|patterns| - 1]);
      if Match(patterns[|patterns| - 1], item.key) then front + [Op.Delete(item.key)] else front
  }

  /** The deletes of the --remove loop: for each package item, for each
      pattern that matches its key. */
  function RemovedDeletes(rpms: seq<RemoteObj>, patterns: seq<string>): seq<Op>
    decreases |rpms|
  {
    if rpms == [] then []
    else RemovedDeletes(rpms[..|rpms| - 1], patterns) + MatchingDeletes(rpms[|rpms| - 1], patterns)
  }

  /** The number of patterns that match `key`. */
  function MatchCount(key: string, patterns: seq<string>): nat
    decreases |patterns|
  {
    if patterns == [] then 0
    else MatchCount(key, patterns[..|patterns| - 1]) + if Match(patterns[|patterns| - 1], key) then 1 else 0
  }

  /** An item is deleted once for every pattern that matches it, and nothing
      else is deleted on its account. */
  lemma {:induction false} MatchingDeletesCount(item: RemoteObj, patterns: seq<string>)
    ensures |MatchingDeletes(item, patterns)| == MatchCount(item.key, patterns)
    ensures forall k :: 0 <= k < |MatchingDeletes(item, patterns)| ==>
              MatchingDeletes(item, patterns)[k] == Op.Delete(item.key)
    decreases |patterns|
  {
    if patterns != [] {
      MatchingDeletesCount(item, patterns[..|patterns| - 1]);
    }
  }

  /** Among package items with distinct keys, the key of item `i` is deleted
      exactly as many times as there are patterns matching it. */
  lemma {:induction false} DeleteMultiplicity(rpms: seq<RemoteObj>, patterns: seq<string>, i: nat)
    requires i < |rpms|
    requires forall a, b :: 0 <= a < b < |rpms| ==> rpms[a].key != rpms[b].key
    ensures multiset(RemovedDeletes(rpms, patterns))[Op.Delete(rpms[i].key)] == MatchCount(rpms[i].key, patterns)
    decreases |rpms|
  {
    var front := rpms[..|rpms| - 1];
    var last := rpms[|rpms| - 1];
    var d := Op.Delete(rpms[i].key);
    MatchingDeletesCount(last, patterns);
    var mine := MatchingDeletes(last, patterns);
    assert multiset(RemovedDeletes(rpms, patterns)) == multiset(RemovedDeletes(front, patterns)) + multiset(mine);
    if i < |front| {
      assert front[i] == rpms[i];
      DeleteMultiplicity(front, patterns, i);
      assert d !in mine;
    } else {
      OthersNotDeleted(front, patterns, rpms[i].key);
      assert mine == seq(|mine|, _ => d);
      ConstantMultiplicity(|mine|, d);
    }
  }

  /** A key that no item of `rpms` has is never deleted by the --remove loop. */
  lemma {:induction false} OthersNotDeleted(rpms: seq<RemoteObj>, patterns: seq<string>, key: string)
    requires forall a :: 0 <= a < |rpms| ==> rpms[a].key != key
    ensures Op.Delete(key) !in RemovedDeletes(rpms, patterns)
    decreases |rpms|
  {
    if rpms != [] {
      var front := rpms[..|rpms| - 1];
      OthersNotDeleted(front, patterns, key);
      MatchingDeletesCount(rpms[|rpms| - 1], patterns);
    }
  }

  lemma {:induction false} ConstantMultiplicity(n: nat, d: Op)
    ensures multiset(seq(n, _ => d))[d] == n
  {
    if n > 0 {
      assert seq(n, _ => d) == seq(n - 1, _ => d) + [d];
      ConstantMultiplicity(n - 1, d);
    }
  }

  /** The --remove loop only deletes. */
  lemma {:induction false} RemovedAreDeletes(rpms: seq<RemoteObj>, patterns: seq<string>)
    ensures forall k :: 0 <= k < |RemovedDeletes(rpms, patterns)| ==> RemovedDeletes(rpms, patterns)[k].Delete?
    decreases |rpms|
  {
    if rpms != [] {
      RemovedAreDeletes(rpms[..|rpms| - 1], patterns);
      MatchingDeletesCount(rpms[|rpms| - 1], patterns);
    }
  }

  lemma MatchingDeletesStep(item: RemoteObj, patterns: seq<string>, j: nat)
    requires j < |patterns|
    ensures MatchingDeletes(item, patterns[..j + 1])
         == MatchingDeletes(item, patterns[..j]) + (if Match(patterns[j], item.key) then [Op.Delete(item.key)] else [])
  {
    assert patterns[..j + 1][..j] == patterns[..j];
  }

  /** The deletes of one package item, unless --dry-run is set. */
  method DeleteMatching(ctx: Context, item: RemoteObj, patterns: seq<string>)
    requires ctx.store.Valid()
    modifies ctx.store
    ensures ctx.store.Valid()
    ensures ctx.opts.dryRun ==> ctx.store.log == old(ctx.store.log)
    ensures !ctx.opts.dryRun ==> ctx.store.log == old(ctx.store.log) + MatchingDeletes(item, patterns)
  {
    ghost var log0 := ctx.store.log;
    var j := 0;
    while j < |patterns|
      invariant 0 <= j <= |patterns|
      invariant ctx.store.Valid()
      invariant ctx.store.log == log0 + (if ctx.opts.dryRun then [] else MatchingDeletes(item, patterns[..j]))
    {
      MatchingDeletesStep(item, patterns, j);
      var hit := Match(patterns[j], item.key);
      if hit && !ctx.opts.dryRun {
        ctx.store.Delete(item.key);
      }
      j := j + 1;
    }
    assert patterns[..j] == patterns;
  }

  lemma RemovedDeletesStep(rpms: seq<RemoteObj>, patterns: seq<string>, i: nat)
    requires i < |rpms|
    ensures RemovedDeletes(rpms[..i + 1], patterns) == RemovedDeletes(rpms[..i], patterns) + MatchingDeletes(rpms[i], patterns)
  {
    assert rpms[..i + 1][..i] == rpms[..i];
  }

  /** The --remove deletes so far: those of the first `i` package items. */
  ghost predicate RemovedSoFar(store: Store, log0: seq<Op>, dryRun: bool, rpms: seq<RemoteObj>,
                               patterns: seq<string>, i: nat)
    requires i <= |rpms|
    reads store
  {
    && store.Valid()
    && (dryRun ==> store.log == log0)
    && (!dryRun ==> store.log == log0 + RemovedDeletes(rpms[..i], patterns))
  }

  /** One turn of the --remove loop: the deletes of package item `i`. */
  method DeleteRemovedStep(ctx: Context, rpms: seq<RemoteObj>, patterns: seq<string>, i: nat, ghost log0: seq<Op>)
    requires i < |rpms|
    requires RemovedSoFar(ctx.store, log0, ctx.opts.dryRun, rpms, patterns, i)
    modifies ctx.store
    ensures RemovedSoFar(ctx.store, log0, ctx.opts.dryRun, rpms, patterns, i + 1)
  {
    RemovedDeletesStep(rpms, patterns, i);
    DeleteMatching(ctx, rpms[i], patterns);
    if !ctx.opts.dryRun {
      assert log0 + RemovedDeletes(rpms[..i], patterns) + MatchingDeletes(rpms[i], patterns)
          == log0 + (RemovedDeletes(rpms[..i], patterns) + MatchingDeletes(rpms[i], patterns));
    }
  }

  /** The --remove loop of upload_repodata. */
  method DeleteRemoved(ctx: Context, rpms: seq<RemoteObj>, patterns: seq<string>)
    requires ctx.store.Valid()
    modifies ctx.store
    ensures ctx.store.Valid()
    ensures ctx.opts.dryRun ==> ctx.store.log == old(ctx.store.log)
    ensures !ctx.opts.dryRun ==> ctx.store.log == old(ctx.store.log) + RemovedDeletes(rpms, patterns)
  {
    ghost var log0 := ctx.store.log;
    var i := 0;
    assert rpms[..0] == [];
    while i < |rpms|
      invariant 0 <= i <= |rpms|
      invariant RemovedSoFar(ctx.store, log0, ctx.opts.dryRun, rpms, patterns, i)
    {
      DeleteRemovedStep(ctx, rpms, patterns, i, log0);
      i := i + 1;
    }
    assert rpms[..i] == rpms;
  }

  // ---------------------------------------------------------------------
  // upload_repodata
  // ---------------------------------------------------------------------

  /** The deletes upload_repodata issues once the packages are up: every old
      metadata item, then every package a --remove pattern matches. */
  function Removal(metadata: seq<RemoteObj>, rpms: seq<RemoteObj>, patterns: seq<string>): seq<Op> {
    Deletes(metadata) + RemovedDeletes(rpms, patterns)
  }

  /** The upload of the new repodata directory: no check items, under
      s3join(path, 'repodata'). */
  function MetadataPlan(dir: Dir, opts: Options, digest: Digest, metaListing: seq<string>): Plan {
    UploadPlan(metaListing, dir, map[], S3Join([opts.path, Repodata]), opts.forceUpload, digest)
  }

  /** What follows the package upload when it succeeds: the removals, then
      the metadata upload (or a missing repodata directory), and the result. */
  function ReplaceOps(dirs: map<string, Dir>, opts: Options, metadata: seq<RemoteObj>, rpms: seq<RemoteObj>,
                      repodataDir: string, digest: Digest, metaListing: seq<string>): (seq<Op>, Result<(), Error>)
  {
    var removal := Removal(metadata, rpms, opts.remove);
    if repodataDir !in dirs then (removal, Failure(Other(NoSuchDirectory(repodataDir))))
    else
      var meta := MetadataPlan(dirs[repodataDir], opts, digest, metaListing);
      (removal + meta.puts, if meta.failure.Some? then Failure(meta.failure.value) else Success(()))
  }

  /** The operations upload_repodata issues when it is not a dry run, and
      its result; `listing` and `metaListing` are the orders os.listdir gave
      for the working directory and its repodata directory. */
  function PublishOps(dirs: map<string, Dir>, opts: Options, metadata: seq<RemoteObj>, rpms: seq<RemoteObj>,
                      workDir: string, repodataDir: string, digest: Digest,
                      listing: seq<string>, metaListing: seq<string>): (r: (seq<Op>, Result<(), Error>))
    ensures r.1.Success? ==> workDir in dirs && repodataDir in dirs
    ensures forall op :: op in r.0 && op.Delete? ==> op in Removal(metadata, rpms, opts.remove)
    ensures r.1.Success? ==> forall op :: op in Removal(metadata, rpms, opts.remove) ==> op in r.0
  {
    if workDir !in dirs then ([], Failure(Other(NoSuchDirectory(workDir))))
    else
      var packages := UploadPlan(listing, dirs[workDir], ByBaseName(rpms), opts.path, opts.forceUpload, digest);
      if packages.failure.Some? then (packages.puts, Failure(packages.failure.value))
      else
        var rest := ReplaceOps(dirs, opts, metadata, rpms, repodataDir, digest, metaListing);
        (packages.puts + rest.0, rest.1)
  }

  /** The package upload of upload_repodata ran to its end. */
  predicate PackagesUploaded(dirs: map<string, Dir>, opts: Options, rpms: seq<RemoteObj>, workDir: string,
                             digest: Digest, listing: seq<string>) {
    workDir in dirs &&
    UploadPlan(listing, dirs[workDir], ByBaseName(rpms), opts.path, opts.forceUpload, digest).failure.None?
  }

  /** The removals of upload_repodata: every old metadata item, then every
      package a --remove pattern matches (nothing under --dry-run). */
  method RemoveOld(ctx: Context)
    requires ctx.store.Valid()
    modifies ctx.store
    ensures ctx.store.Valid()
    ensures ctx.opts.dryRun ==> ctx.store.log == old(ctx.store.log)
    ensures !ctx.opts.dryRun ==>
              ctx.store.log == old(ctx.store.log) + Removal(ctx.repodataItems, ctx.rpmItems, ctx.opts.remove)
  {
    DeleteItems(ctx, ctx.repodataItems);
    ghost var log1 := ctx.store.log;
    DeleteRemoved(ctx, ctx.rpmItems, ctx.opts.remove);
    if !ctx.opts.dryRun {
      assert old(ctx.store.log) + Deletes(ctx.repodataItems) + RemovedDeletes(ctx.rpmItems, ctx.opts.remove)
          == old(ctx.store.log) + (Deletes(ctx.repodataItems) + RemovedDeletes(ctx.rpmItems, ctx.opts.remove));
    }
  }

  /** The second half of upload_repodata: the removals, then the upload of
      the new metadata. */
  method ReplaceMetadata(ctx: Context) returns (r: Result<(), Error>, ghost metaListing: seq<string>)
    requires ctx.store.Valid()
    requires ctx.workingDirRepodata.Some?
    modifies ctx.store
    ensures ctx.store.Valid()
    ensures ctx.workingDirRepodata.value in ctx.fs.dirs ==>
              IsEnumeration(metaListing, ctx.fs.dirs[ctx.workingDirRepodata.value])
    ensures r == ReplaceOps(ctx.fs.dirs, ctx.opts, ctx.repodataItems, ctx.rpmItems, ctx.workingDirRepodata.value,
                            ctx.digest, metaListing).1
    ensures ctx.opts.dryRun ==> ctx.store.log == old(ctx.store.log)
    ensures !ctx.opts.dryRun ==>
              ctx.store.log == old(ctx.store.log) +
                               ReplaceOps(ctx.fs.dirs, ctx.opts, ctx.repodataItems, ctx.rpmItems,
                                          ctx.workingDirRepodata.value, ctx.digest, metaListing).0
  {
    RemoveOld(ctx);
    ghost var removal := Removal(ctx.repodataItems, ctx.rpmItems, ctx.opts.remove);
    ghost var log1 := ctx.store.log;
    var repoDest := S3Join([ctx.opts.path, Repodata]);
    assert ByBaseName([]) == map[];
    r, metaListing := UploadDirectory(ctx, ctx.workingDirRepodata.value, repoDest, []);
    if !ctx.opts.dryRun && ctx.workingDirRepodata.value in ctx.fs.dirs {
      ghost var meta := MetadataPlan(ctx.fs.dirs[ctx.workingDirRepodata.value], ctx.opts, ctx.digest, metaListing);
      assert ctx.store.log == log1 + meta.puts;
      assert old(ctx.store.log) + removal + meta.puts == old(ctx.store.log) + (removal + meta.puts);
    }
  }

  /** upload_repodata. */
  method UploadRepodata(ctx: Context) returns (r: Result<(), Error>, ghost listing: seq<string>,
                                               ghost metaListing: seq<string>)
    requires ctx.store.Valid()
    requires ctx.workingDir.Some? && ctx.workingDirRepodata.Some?
    modifies ctx.store
    ensures ctx.store.Valid()
    ensures ctx.workingDir.value in ctx.fs.dirs ==> IsEnumeration(listing, ctx.fs.dirs[ctx.workingDir.value])
    ensures ctx.workingDirRepodata.value in ctx.fs.dirs &&
            PackagesUploaded(ctx.fs.dirs, ctx.opts, ctx.rpmItems, ctx.workingDir.value, ctx.digest, listing) ==>
              IsEnumeration(metaListing, ctx.fs.dirs[ctx.workingDirRepodata.value])
    ensures r == PublishOps(ctx.fs.dirs, ctx.opts, ctx.repodataItems, ctx.rpmItems, ctx.workingDir.value,
                            ctx.workingDirRepodata.value, ctx.digest, listing, metaListing).1
    ensures ctx.opts.dryRun ==> ctx.store.log == old(ctx.store.log)
    ensures !ctx.opts.dryRun ==>
              ctx.store.log == old(ctx.store.log) +
                               PublishOps(ctx.fs.dirs, ctx.opts, ctx.repodataItems, ctx.rpmItems, ctx.workingDir.value,
                                          ctx.workingDirRepodata.value, ctx.digest, listing, metaListing).0
  {
    var r1;
    r1, listing := UploadDirectory(ctx, ctx.workingDir.value, ctx.opts.path, ctx.rpmItems);
    if r1.Failure? {
      return r1, listing, [];
    }
    ghost var log1 := ctx.store.log;
    r, metaListing := ReplaceMetadata(ctx);
    if !ctx.opts.dryRun {
      ghost var packages := UploadPlan(listing, ctx.fs.dirs[ctx.workingDir.value], ByBaseName(ctx.rpmItems),
                                       ctx.opts.path, ctx.opts.forceUpload, ctx.digest);
      ghost var rest := ReplaceOps(ctx.fs.dirs, ctx.opts, ctx.repodataItems, ctx.rpmItems,
                                   ctx.workingDirRepodata.value, ctx.digest, metaListing);
      assert log1 == old(ctx.store.log) + packages.puts;
      assert old(ctx.store.log) + packages.puts + rest.0 == old(ctx.store.log) + (packages.puts + rest.0);
    }
  }

  // ---------------------------------------------------------------------
  // What upload_repodata promises
  // ---------------------------------------------------------------------

  /** Once the packages are up, the rest of the run cannot fail: the metadata
      upload has no check items, so should_upload never reads a time. */
  lemma MetadataUploadCannotFail(dirs: map<string, Dir>, opts: Options, metadata: seq<RemoteObj>,
                                 rpms: seq<RemoteObj>, workDir: string, repodataDir: string, digest: Digest,
                                 listing: seq<string>, metaListing: seq<string>)
    requires workDir in dirs && repodataDir in dirs
    requires UploadPlan(listing, dirs[workDir], ByBaseName(rpms), opts.path, opts.forceUpload, digest).failure.None?
    ensures PublishOps(dirs, opts, metadata, rpms, workDir, repodataDir, digest, listing, metaListing).1
         == Success(())
  {
    NoCheckItemsUploadsAll(metaListing, dirs[repodataDir], S3Join([opts.path, Repodata]), opts.forceUpload, digest);
  }

  /** A sequence of puts keeps every key and adds the keys it puts. */
  lemma {:induction false} PutsKeep(objects: map<string, RemoteObj>, ops: seq<Op>, etag: Digest, now: string)
    requires forall k :: 0 <= k < |ops| ==> ops[k].Put?
    ensures objects.Keys <= ApplyAll(objects, ops, etag, now).Keys
    ensures forall k :: 0 <= k < |ops| ==> ops[k].key in ApplyAll(objects, ops, etag, now)
    decreases |ops|
  {
    if ops != [] {
      PutsKeep(objects, ops[..|ops| - 1], etag, now);
    }
  }

  /** A sequence of deletes adds no key. */
  lemma {:induction false} DeletesShrink(objects: map<string, RemoteObj>, ops: seq<Op>, etag: Digest, now: string)
    requires forall k :: 0 <= k < |ops| ==> ops[k].Delete?
    ensures ApplyAll(objects, ops, etag, now).Keys <= objects.Keys
    decreases |ops|
  {
    if ops != [] {
      DeletesShrink(objects, ops[..|ops| - 1], etag, now);
    }
  }

  /** After a publish that is not a dry run, no old metadata item survives
      unless the new metadata has a file of the same key, and every regular
      file of the new repodata directory is in the bucket. */
  lemma PublishReplacesMetadata(objects: map<string, RemoteObj>, etag: Digest, now: string,
                                dirs: map<string, Dir>, opts: Options, metadata: seq<RemoteObj>,
                                rpms: seq<RemoteObj>, workDir: string, repodataDir: string, digest: Digest,
                                listing: seq<string>, metaListing: seq<string>)
    requires workDir in dirs && repodataDir in dirs
    requires IsEnumeration(metaListing, dirs[repodataDir])
    requires PublishOps(dirs, opts, metadata, rpms, workDir, repodataDir, digest, listing, metaListing).1.Success?
    ensures var after := ApplyAll(objects,
                                  PublishOps(dirs, opts, metadata, rpms, workDir, repodataDir, digest,
                                             listing, metaListing).0, etag, now);
            var meta := UploadPlan(metaListing, dirs[repodataDir], map[], S3Join([opts.path, Repodata]),
                                   opts.forceUpload, digest);
            && (forall i :: 0 <= i < |metadata| && (forall k :: 0 <= k < |meta.puts| ==> meta.puts[k].key != metadata[i].key)
                  ==> metadata[i].key !in after)
            && (forall n :: n in dirs[repodataDir] && dirs[repodataDir][n].File? ==>
                  S3Join([S3Join([opts.path, Repodata]), n]) in after)
  {
    var packages := UploadPlan(listing, dirs[workDir], ByBaseName(rpms), opts.path, opts.forceUpload, digest);
    var removal := Deletes(metadata) + RemovedDeletes(rpms, opts.remove);
    var prefix := S3Join([opts.path, Repodata]);
    var meta := UploadPlan(metaListing, dirs[repodataDir], map[], prefix, opts.forceUpload, digest);
    var ops := PublishOps(dirs, opts, metadata, rpms, workDir, repodataDir, digest, listing, metaListing).0;
    assert ops == packages.puts + (removal + meta.puts);
    assert ops == packages.puts + removal + meta.puts;
    var o1 := ApplyAll(objects, packages.puts, etag, now);
    var o2 := ApplyAll(o1, Deletes(metadata), etag, now);
    var o3 := ApplyAll(o2, RemovedDeletes(rpms, opts.remove), etag, now);
    var after := ApplyAll(o3, meta.puts, etag, now);
    ApplyAllConcat(objects, packages.puts + removal, meta.puts, etag, now);
    ApplyAllConcat(objects, packages.puts, removal, etag, now);
    ApplyAllConcat(o1, Deletes(metadata), RemovedDeletes(rpms, opts.remove), etag, now);
    assert ApplyAll(objects, ops, etag, now) == after;
    DeletesRemoveKeys(o1, metadata, etag, now);
    RemovedAreDeletes(rpms, opts.remove);
    DeletesShrink(o2, RemovedDeletes(rpms, opts.remove), etag, now);
    forall i | 0 <= i < |metadata| && (forall k :: 0 <= k < |meta.puts| ==> meta.puts[k].key != metadata[i].key)
      ensures metadata[i].key !in after
    {
      assert metadata[i].key in KeysOf(metadata);
      UntouchedKey(o3, meta.puts, etag, now, metadata[i].key);
    }
    NoCheckItemsUploadsAll(metaListing, dirs[repodataDir], prefix, opts.forceUpload, digest);
    PutsAreSelected(metaListing, dirs[repodataDir], map[], prefix, opts.forceUpload, digest);
    PutsKeep(o3, meta.puts, etag, now);
    forall n | n in dirs[repodataDir] && dirs[repodataDir][n].File?
      ensures S3Join([prefix, n]) in after
    {
      var put := Op.Put(S3Join([prefix, n]), dirs[repodataDir][n].data);
      assert put in meta.puts;
      var k :| 0 <= k < |meta.puts| && meta.puts[k] == put;
      assert meta.puts[k].key == S3Join([prefix, n]);
    }
  }
}
