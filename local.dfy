// The local filesystem as the command line module uses it: directories by
// path, each mapping entry names to regular files or sub-directories. A path
// `os.path.join(dir, name)` is addressed as the pair (dir, name).

module Local {
  import opened Wrappers
  import opened Md5
  import opened S3Time
  import opened Paths
  import opened Text

  /** A directory entry: a regular file with its contents and modification
      time (local wall-clock time, as `datetime.fromtimestamp` gives it), or a
      sub-directory. */
  datatype Entry = File(data: seq<byte>, mtime: DateTime) | SubDir

  type Dir = map<string, Entry>

  /** The entries of `dir`, none if it does not exist. */
  function EntriesOf(dirs: map<string, Dir>, dir: string): Dir {
    if dir in dirs then dirs[dir] else map[]
  }

  class LocalFs {
    var dirs: map<string, Dir>
    /** The time stamped on every file this run writes. */
    const now: DateTime

    constructor(dirs: map<string, Dir>, now: DateTime)
      ensures this.dirs == dirs && this.now == now
    {
      this.dirs := dirs;
      this.now := now;
    }

    /** What `os.path.join(dir, name)` names, if anything. An empty name
        joins to `dir` followed by a slash, which names `dir` itself. */
    function Lookup(dir: string, name: string): Option<Entry>
      reads this
    {
      if dir !in dirs then None
      else if name == "" then Some(SubDir)
      else if name in dirs[dir] then Some(dirs[dir][name])
      else None
    }

    /** os.path.exists(os.path.join(dir, name)): an entry of `dir`, or a
        directory of that path. */
    function Exists(dir: string, name: string): bool
      reads this
    {
      Lookup(dir, name).Some? || PathJoin(dir, name) in dirs
    }

    /** open(path, 'w') and write `data`: an IOError when the directory is
        missing or the name is a directory. */
    method Write(dir: string, name: string, data: seq<byte>) returns (ok: bool)
      modifies this
      ensures ok <==> dir in old(dirs) && old(Lookup(dir, name)) != Some(SubDir)
      ensures dirs == if ok then old(dirs)[dir := old(dirs)[dir][name := File(data, now)]] else old(dirs)
    {
      if dir in dirs && Lookup(dir, name) != Some(SubDir) {
        dirs := dirs[dir := dirs[dir][name := File(data, now)]];
        ok := true;
      } else {
        ok := false;
      }
    }

    /** os.listdir(dir): every entry name once, in no particular order; an
        OSError when the directory is missing. */
    method ListDir(dir: string) returns (r: Option<seq<string>>)
      ensures r.None? <==> dir !in dirs
      ensures r.Some? ==> forall n :: n in r.value <==> n in dirs[dir]
      ensures r.Some? ==> forall i, j :: 0 <= i < j < |r.value| ==> r.value[i] != r.value[j]
    {
      if dir !in dirs {
        return None;
      }
      var pending := dirs[dir].Keys;
      var names: seq<string> := [];
      while pending != {}
        invariant pending <= dirs[dir].Keys
        invariant forall n :: n in names ==> n in dirs[dir] && n !in pending
        invariant forall n :: n in dirs[dir] ==> n in names || n in pending
        invariant forall i, j :: 0 <= i < j < |names| ==> names[i] != names[j]
        decreases pending
      {
        var n :| n in pending;
        names := names + [n];
        pending := pending - {n};
      }
      r := Some(names);
    }

    /** os.makedirs(os.path.join(parent, name)), called only when that path does
        not exist: an OSError when `parent` is a regular file; otherwise the
        parent gains the sub-directory entry and the new directory starts
        empty. */
    method MakeDirs(parent: string, name: string) returns (ok: bool)
      modifies this
      ensures ok <==> !IsRegularFile(old(dirs), parent)
      ensures dirs == if ok then MadeDirs(old(dirs), parent, name) else old(dirs)
    {
      if IsRegularFile(dirs, parent) {
        return false;
      }
      var child := PathJoin(parent, name);
      dirs := dirs[parent := EntriesOf(dirs, parent)[name := SubDir]][child := EntriesOf(dirs, child)];
      ok := true;
    }

    /** tempfile.mkdtemp(), or os.makedirs(path) on a path that does not
        exist: a new empty directory. */
    method MakeDir(path: string)
      requires path !in dirs
      modifies this
      ensures dirs == old(dirs)[path := map[]]
    {
      dirs := dirs[path := map[]];
    }

    /** A sub-directory `name` of `parent` holding `entries`, as an external
        program writes it. */
    method Populate(parent: string, name: string, entries: Dir)
      modifies this
      ensures dirs == old(dirs)[parent := EntriesOf(old(dirs), parent)[name := SubDir]]
                               [PathJoin(parent, name) := entries]
    {
      dirs := dirs[parent := EntriesOf(dirs, parent)[name := SubDir]][PathJoin(parent, name) := entries];
    }

    /** shutil.rmtree(path): an OSError unless `path` is a directory;
        otherwise the directory, every directory below it and its entry in
        its parent are gone. */
    method RemoveTree(path: string) returns (ok: bool)
      modifies this
      ensures ok <==> path in old(dirs)
      ensures dirs == if ok then RemovedTree(old(dirs), path) else old(dirs)
    {
      if path !in dirs {
        return false;
      }
      dirs := RemovedTree(dirs, path);
      ok := true;
    }
  }

  /** The directories other than `path` and those below it. */
  function Pruned(dirs: map<string, Dir>, path: string): (r: map<string, Dir>)
    ensures forall d :: d in r <==> d in dirs && d != path && !StartsWith(d, path + "/")
  {
    map d | d in dirs && d != path && !StartsWith(d, path + "/") :: dirs[d]
  }

  /** The file system after `path` and everything below it is removed. */
  function RemovedTree(dirs: map<string, Dir>, path: string): (r: map<string, Dir>)
    ensures path !in r
    ensures forall d :: StartsWith(d, path + "/") ==> d !in r
    ensures forall d :: d in r ==> d in dirs
    ensures forall d :: d in dirs && d != path && !StartsWith(d, path + "/") && d != Dirname(path) ==>
              d in r && r[d] == dirs[d]
    ensures var parent := Dirname(path);
            parent in dirs && parent != path && !StartsWith(parent, path + "/") ==>
              parent in r && r[parent] == dirs[parent] - {Basename(path)}
  {
    var p := Pruned(dirs, path);
    var parent := Dirname(path);
    if parent in p then p[parent := p[parent] - {Basename(path)}] else p
  }

  /** The file system after os.makedirs(os.path.join(parent, name)). */
  function MadeDirs(dirs: map<string, Dir>, parent: string, name: string): map<string, Dir> {
    dirs[parent := EntriesOf(dirs, parent)[name := SubDir]][PathJoin(parent, name) := EntriesOf(dirs, PathJoin(parent, name))]
  }

  /** `p` names a regular file: an entry of its directory that is not a
      directory. */
  predicate IsRegularFile(dirs: map<string, Dir>, p: string) {
    && p !in dirs
    && Dirname(p) in dirs && Basename(p) in dirs[Dirname(p)]
    && dirs[Dirname(p)][Basename(p)].File?
  }

  /** os.path.exists(p) for a whole path. */
  predicate PathExists(dirs: map<string, Dir>, p: string) {
    p in dirs || (Dirname(p) in dirs && Basename(p) in dirs[Dirname(p)])
  }
}
