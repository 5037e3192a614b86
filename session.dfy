// The state one s3yum invocation carries around (S3YumContext of
// s3yum/s3yum_types.py), its options, its constants and the exceptions the
// command line module raises.

module Session {
  import opened Wrappers
  import opened Text
  import opened Paths
  import opened S3Time
  import opened Md5
  import opened Remote
  import opened Local

  const Repodata: string := "repodata"
  const FolderSuffix: string := "_$folder$"

  const Help: string := "help"
  const List: string := "list"
  const Create: string := "create"
  const Update: string := "update"
  const Get: string := "get"
  const Delete: string := "delete"
  const Actions: seq<string> := [Help, List, Create, Update, Get, Delete]

  /** The reason a UserError is raised while validating the command line. */
  datatype UsageReason = NoAction | BadAction(action: string) | NoPackages | NoBucket | NoOutput

  /** The reason a ServiceError is raised. */
  datatype ServiceReason =
    | OpenFailed(path: string)
    | MakeDirsFailed(path: string)
    | Md5Mismatch(name: string)
    | CopyFailed(path: string)
    | CreaterepoFailed

  /** An exception none of the module's own handlers converts, which main
      reports through its catch-all. */
  datatype Unexpected = BadTime(time: TimeError) | EndOfInput | NoSuchDirectory(path: string)

  /** The exceptions of the command line module. */
  datatype Error =
    | UserError(usage: UsageReason)
    | ServiceError(service: ServiceReason)
    | IOError(path: string)
    | Other(problem: Unexpected)

  /** The parsed options used by the core. A string option that was not given
      is the empty string: every test the module makes on one is a truth test. */
  datatype Options = Options(
    bucket: string,
    path: string,
    output: string,
    workingDir: string,
    remove: seq<string>,
    forceDownload: bool,
    forceUpload: bool,
    dryRun: bool)

  /** What parse_args takes from the command line. */
  datatype Invocation = Invocation(opts: Options, action: Option<string>, rpmArgs: seq<string>)

  /** parse_args after optparse: `argv` holds the program name first, then the
      action, then the packages. The repo path loses its leading slashes and
      the action is lower-cased. */
  function ParseArgs(argv: seq<string>, opts: Options): (r: Invocation)
    ensures r.action.Some? <==> |argv| > 1
    ensures r.action.Some? ==>
              |r.action.value| == |argv[1]| &&
              forall i :: 0 <= i < |argv[1]| ==> r.action.value[i] == LowerChar(argv[1][i])
    ensures |argv| > 2 ==> r.rpmArgs == argv[2..]
    ensures |argv| <= 2 ==> r.rpmArgs == []
    ensures r.opts == opts.(path := r.opts.path)
    ensures |r.opts.path| == 0 || r.opts.path[0] != '/'
    ensures |r.opts.path| <= |opts.path| && r.opts.path == opts.path[|opts.path| - |r.opts.path|..]
    ensures forall i :: 0 <= i < |opts.path| - |r.opts.path| ==> opts.path[i] == '/'
  {
    var action := if |argv| > 1 then Some(Lower(argv[1])) else None;
    var rpmArgs := if |argv| > 2 then argv[2..] else [];
    Invocation(opts.(path := StripLeadingSlashes(opts.path)), action, rpmArgs)
  }

  /** The dictionary upload_directory builds from its check items, keyed by
      base name; a later item replaces an earlier one with the same base name. */
  function ByBaseName(items: seq<RemoteObj>): map<string, RemoteObj>
    decreases |items|
  {
    if items == [] then map[]
    else
      var front := ByBaseName(items[..|items| - 1]);
      var last := items[|items| - 1];
      front[Basename(last.key) := last]
  }

  /** The base names of the items' keys, in order. */
  function BaseNames(items: seq<RemoteObj>): (r: seq<string>)
    ensures |r| == |items|
    ensures forall i :: 0 <= i < |items| ==> r[i] == Basename(items[i].key)
  {
    seq(|items|, i requires 0 <= i < |items| => Basename(items[i].key))
  }

  /** Some item has base name `n`. */
  predicate HasBaseName(items: seq<RemoteObj>, n: string) {
    n in BaseNames(items)
  }

  lemma HasBaseNameSnoc(items: seq<RemoteObj>, n: string)
    requires items != []
    ensures HasBaseName(items, n) <==>
              HasBaseName(items[..|items| - 1], n) || Basename(items[|items| - 1].key) == n
  {
    var front := items[..|items| - 1];
    var all := BaseNames(items);
    var head := BaseNames(front);
    forall i | 0 <= i < |head| ensures all[i] == head[i] {
      assert front[i] == items[i];
    }
    assert all == head + [all[|items| - 1]];
  }

  /** A base name is in the dictionary exactly when some item has it. */
  lemma {:induction false} ByBaseNameKeys(items: seq<RemoteObj>, n: string)
    ensures n in ByBaseName(items) <==> HasBaseName(items, n)
    decreases |items|
  {
    if items != [] {
      ByBaseNameKeys(items[..|items| - 1], n);
      HasBaseNameSnoc(items, n);
    }
  }

  /** The entry for a base name is the last item that has it. */
  lemma {:induction false} ByBaseNameLast(items: seq<RemoteObj>, i: nat)
    requires i < |items|
    requires forall j :: i < j < |items| ==> Basename(items[j].key) != Basename(items[i].key)
    ensures Basename(items[i].key) in ByBaseName(items)
    ensures ByBaseName(items)[Basename(items[i].key)] == items[i]
    decreases |items|
  {
    if i < |items| - 1 {
      var front := items[..|items| - 1];
      assert front[i] == items[i];
      ByBaseNameLast(front, i);
    }
  }

  /** One invocation's context. */
  class Context {
    const opts: Options
    const action: Option<string>
    const rpmArgs: seq<string>
    const store: Store
    const fs: LocalFs
    /** hashlib's MD5 on the local side. */
    const digest: Digest
    var repodataPath: string
    var repodataItems: seq<RemoteObj>
    var rpmItems: seq<RemoteObj>
    var workingDir: Option<string>
    var workingDirRepodata: Option<string>

    constructor(inv: Invocation, store: Store, fs: LocalFs, digest: Digest)
      ensures opts == inv.opts && action == inv.action && rpmArgs == inv.rpmArgs
      ensures this.store == store && this.fs == fs && this.digest == digest
      ensures repodataItems == [] && rpmItems == [] && workingDir.None? && workingDirRepodata.None?
    {
      opts := inv.opts;
      action := inv.action;
      rpmArgs := inv.rpmArgs;
      this.store := store;
      this.fs := fs;
      this.digest := digest;
      repodataPath := "";
      repodataItems := [];
      rpmItems := [];
      workingDir := None;
      workingDirRepodata := None;
    }
  }
}
