/** Key and path helpers: `s3join` of s3yum/util.py, the leading-slash strip that
    `parse_args` applies to the repo path, and the `os.path` functions the
    command line module relies on (basename, dirname, join). */
module Paths {

  predicate NoSlash(s: string) {
    forall i :: 0 <= i < |s| ==> s[i] != '/'
  }

  predicate NoDoubleSlash(s: string) {
    forall i :: 0 <= i < |s| - 1 ==> !(s[i] == '/' && s[i + 1] == '/')
  }

  /** `string.join(parts, sep)` */
  function JoinWith(parts: seq<string>, sep: char): string
    decreases |parts|
  {
    if |parts| == 0 then ""
    else if |parts| == 1 then parts[0]
    else JoinWith(parts[..|parts| - 1], sep) + [sep] + parts[|parts| - 1]
  }

  /** `re.sub(r'/+', '/', s)`: every run of slashes becomes a single slash. */
  function CollapseSlashes(s: string): (r: string)
    ensures NoDoubleSlash(r)
    ensures |r| <= |s|
    ensures |s| > 0 ==> |r| > 0 && r[0] == s[0] && r[|r| - 1] == s[|s| - 1]
    decreases |s|
  {
    if |s| <= 1 then s
    else if s[0] == '/' && s[1] == '/' then CollapseSlashes(s[1..])
    else [s[0]] + CollapseSlashes(s[1..])
  }

  /** `s3join(*parts)`: join with '/', collapse runs of '/', drop one leading '/'. */
  function S3Join(parts: seq<string>): (r: string)
    ensures |r| == 0 || r[0] != '/'
    ensures NoDoubleSlash(r)
  {
    var c := CollapseSlashes(JoinWith(parts, '/'));
    if |c| > 0 && c[0] == '/' then c[1..] else c
  }

  /** `re.sub(r'^\/+', '', path)`, applied to the repo path by `parse_args`. */
  function StripLeadingSlashes(p: string): (r: string)
    ensures |r| == 0 || r[0] != '/'
    ensures |r| <= |p| && r == p[|p| - |r|..]
    ensures forall i :: 0 <= i < |p| - |r| ==> p[i] == '/'
    decreases |p|
  {
    if |p| > 0 && p[0] == '/' then StripLeadingSlashes(p[1..]) else p
  }

  /** `os.path.basename(p)`: the longest suffix of `p` without a slash. */
  function Basename(p: string): (r: string)
    ensures NoSlash(r)
    ensures |r| <= |p|
    decreases |p|
  {
    if |p| == 0 || p[|p| - 1] == '/' then "" else Basename(p[..|p| - 1]) + [p[|p| - 1]]
  }

  /** The base name is the tail of the path after its last slash. */
  lemma {:induction false} BasenameIsSuffix(p: string)
    ensures Basename(p) == p[|p| - |Basename(p)|..]
    ensures |Basename(p)| < |p| ==> p[|p| - |Basename(p)| - 1] == '/'
    decreases |p|
  {
    if |p| > 0 && p[|p| - 1] != '/' {
      var front := p[..|p| - 1];
      BasenameIsSuffix(front);
      assert p[|p| - |Basename(p)|..] == front[|front| - |Basename(front)|..] + [p[|p| - 1]];
    }
  }

  predicate AllSlashes(s: string) {
    forall i :: 0 <= i < |s| ==> s[i] == '/'
  }

  function RStripSlashes(s: string): (r: string)
    decreases |s|
  {
    if |s| > 0 && s[|s| - 1] == '/' then RStripSlashes(s[..|s| - 1]) else s
  }

  /** `os.path.dirname(p)`: the head before the basename, trailing slashes
      removed unless the head consists of slashes only. */
  function Dirname(p: string): string {
    var head := p[..|p| - |Basename(p)|];
    if head != "" && !AllSlashes(head) then RStripSlashes(head) else head
  }

  /** `os.path.join(a, b)` */
  function PathJoin(a: string, b: string): string {
    if |b| > 0 && b[0] == '/' then b
    else if a == "" || a[|a| - 1] == '/' then a + b
    else a + "/" + b
  }

  // ---------------------------------------------------------------------
  // Properties of s3join
  // ---------------------------------------------------------------------

  lemma NoDoubleSlashTail(s: string)
    requires NoDoubleSlash(s) && |s| > 0
    ensures NoDoubleSlash(s[1..])
  {
    forall i | 0 <= i < |s[1..]| - 1
      ensures !(s[1..][i] == '/' && s[1..][i + 1] == '/')
    {
      assert s[1..][i] == s[i + 1] && s[1..][i + 1] == s[i + 2];
    }
  }

  /** Collapsing changes nothing in a string that has no run of slashes. */
  lemma {:induction false} CollapseIdentity(s: string)
    requires NoDoubleSlash(s)
    ensures CollapseSlashes(s) == s
    decreases |s|
  {
    if |s| > 1 {
      NoDoubleSlashTail(s);
      CollapseIdentity(s[1..]);
      assert [s[0]] + s[1..] == s;
    }
  }

  lemma ConcatNoDoubleSlash(a: string, b: string)
    requires NoDoubleSlash(a) && NoDoubleSlash(b)
    requires |a| > 0 && |b| > 0 ==> !(a[|a| - 1] == '/' && b[0] == '/')
    ensures NoDoubleSlash(a + b)
  {
    var c := a + b;
    forall i | 0 <= i < |c| - 1
      ensures !(c[i] == '/' && c[i + 1] == '/')
    {
      if i < |a| - 1 {
        assert c[i] == a[i] && c[i + 1] == a[i + 1];
      } else if i == |a| - 1 {
        assert c[i] == a[|a| - 1] && c[i + 1] == b[0];
      } else {
        assert c[i] == b[i - |a|] && c[i + 1] == b[i - |a| + 1];
      }
    }
  }

  predicate PlainParts(parts: seq<string>) {
    forall k :: 0 <= k < |parts| ==> parts[k] != "" && NoSlash(parts[k])
  }

  /** Joining non-empty slash-free parts yields no run of slashes and no slash at
      either end. */
  lemma {:induction false} JoinPlain(parts: seq<string>)
    requires PlainParts(parts)
    ensures var j := JoinWith(parts, '/');
      NoDoubleSlash(j) && (|parts| > 0 ==> |j| > 0 && j[0] != '/' && j[|j| - 1] != '/')
    decreases |parts|
  {
    var n := |parts|;
    if n == 1 {
      assert parts[0][0] != '/';
      assert parts[0][|parts[0]| - 1] != '/';
    } else if n > 1 {
      var front := parts[..n - 1];
      var last := parts[n - 1];
      assert PlainParts(front) by {
        forall k | 0 <= k < |front| ensures front[k] != "" && NoSlash(front[k]) {
          assert front[k] == parts[k];
        }
      }
      JoinPlain(front);
      var j0 := JoinWith(front, '/');
      assert last[0] != '/' && last[|last| - 1] != '/';
      ConcatNoDoubleSlash(j0, "/");
      ConcatNoDoubleSlash(j0 + "/", last);
      assert JoinWith(parts, '/') == j0 + "/" + last;
    }
  }

  /** For non-empty parts without slashes, s3join is plain '/'-joining. */
  lemma S3JoinPlain(parts: seq<string>)
    requires PlainParts(parts)
    ensures S3Join(parts) == JoinWith(parts, '/')
  {
    JoinPlain(parts);
    CollapseIdentity(JoinWith(parts, '/'));
  }

  /** s3join is idempotent: re-joining its own output changes nothing. */
  lemma S3JoinIdempotent(parts: seq<string>)
    ensures S3Join([S3Join(parts)]) == S3Join(parts)
  {
    var r := S3Join(parts);
    assert JoinWith([r], '/') == r;
    CollapseIdentity(r);
  }

  lemma {:induction false} JoinLastChar(parts: seq<string>, sep: char)
    requires |parts| > 0 && |parts[|parts| - 1]| > 0
    ensures var j := JoinWith(parts, sep); var last := parts[|parts| - 1];
      |j| > 0 && j[|j| - 1] == last[|last| - 1]
  {
  }

  /** A trailing slash on the last part survives, unless the whole joined text
      collapses to a single slash (then the result is empty). */
  lemma S3JoinTrailingSlash(parts: seq<string>)
    requires |parts| > 0
    requires var last := parts[|parts| - 1]; |last| > 0 && last[|last| - 1] == '/'
    ensures var r := S3Join(parts); r == "" || r[|r| - 1] == '/'
    ensures S3Join(parts) == "" <==> CollapseSlashes(JoinWith(parts, '/')) == "/"
  {
    JoinLastChar(parts, '/');
  }

  /** The cases of tests/test_util.py: plain parts, doubled slashes, trailing slash. */
  lemma S3JoinPlainExample()
    ensures S3Join(["a", "b", "c"]) == "a/b/c"
  {
    var parts := ["a", "b", "c"];
    assert parts[..2] == ["a", "b"] && ["a", "b"][..1] == ["a"];
    assert JoinWith(parts, '/') == "a/b/c";
    assert PlainParts(parts);
    S3JoinPlain(parts);
  }

  lemma CollapseTailExample()
    ensures CollapseSlashes("///c") == "/c"
  {
    var s := "///c";
    assert s[1..] == "//c" && s[2..] == "/c" && s[3..] == "c";
    assert CollapseSlashes("/c") == "/c";
    assert CollapseSlashes("//c") == "/c";
  }

  lemma CollapseMiddleExample()
    ensures CollapseSlashes("///b///c") == "/b/c"
  {
    var s := "///b///c";
    assert s[1..] == "//b///c" && s[2..] == "/b///c" && s[3..] == "b///c" && s[4..] == "///c";
    CollapseTailExample();
    assert CollapseSlashes("b///c") == "b/c";
    assert CollapseSlashes("/b///c") == "/b/c";
    assert CollapseSlashes("//b///c") == "/b/c";
  }

  lemma CollapseDoubledExample()
    ensures CollapseSlashes("a///b///c") == "a/b/c"
  {
    var s := "a///b///c";
    assert s[1..] == "///b///c";
    CollapseMiddleExample();
  }

  lemma S3JoinDoubledExample()
    ensures S3Join(["a/", "/b/", "/c"]) == "a/b/c"
  {
    var parts := ["a/", "/b/", "/c"];
    assert parts[..2] == ["a/", "/b/"] && ["a/", "/b/"][..1] == ["a/"];
    assert JoinWith(parts, '/') == "a///b///c";
    CollapseDoubledExample();
  }

  lemma S3JoinTrailingExample()
    ensures S3Join(["a", "b", "c/"]) == "a/b/c/"
  {
    var parts := ["a", "b", "c/"];
    assert parts[..2] == ["a", "b"] && ["a", "b"][..1] == ["a"];
    assert JoinWith(parts, '/') == "a/b/c/";
    var s := "a/b/c/";
    assert s[1..] == "/b/c/" && s[2..] == "b/c/" && s[3..] == "/c/" && s[4..] == "c/" && s[5..] == "/";
    CollapseIdentity(s);
  }
}
