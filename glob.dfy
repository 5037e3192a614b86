// fnmatch.fnmatch as upload_repodata uses it to pick the RPMs named by
// --remove: '*' matches any run of characters (slashes included), '?' any one
// character, and every other character itself. Bracket classes are not part
// of this model.

module Glob {
  import opened Text

  /** A pattern with no wildcard characters. */
  predicate Plain(p: string) {
    forall i :: 0 <= i < |p| ==> p[i] != '*' && p[i] != '?'
  }

  /** The number of characters of `p` other than '*': each matches exactly
      one character. */
  function Fixed(p: string): nat
    decreases |p|
  {
    if p == [] then 0 else (if p[0] == '*' then 0 else 1) + Fixed(p[1..])
  }

  /** The pattern `p` matches the whole of `s`; a match needs at least one
      character for every character of `p` that is not a star. */
  predicate Match(p: string, s: string)
    ensures Match(p, s) ==> Fixed(p) <= |s|
    decreases |p| + |s|
  {
    if p == [] then s == []
    else if p[0] == '*' then Match(p[1..], s) || (|s| > 0 && Match(p, s[1..]))
    else |s| > 0 && (p[0] == '?' || p[0] == s[0]) && Match(p[1..], s[1..])
  }

  /** A pattern without wildcards matches exactly itself. */
  lemma {:induction false} PlainMatchesItself(p: string, s: string)
    requires Plain(p)
    ensures Match(p, s) <==> s == p
  {
    if p != [] {
      assert Plain(p[1..]) by {
        forall i | 0 <= i < |p[1..]| ensures p[1..][i] != '*' && p[1..][i] != '?' {
          assert p[1..][i] == p[i + 1];
        }
      }
      if |s| > 0 {
        PlainMatchesItself(p[1..], s[1..]);
        if s == p {
          assert s[1..] == p[1..];
        }
        if s[0] == p[0] && s[1..] == p[1..] {
          assert s == [s[0]] + s[1..];
          assert p == [p[0]] + p[1..];
        }
      }
    }
  }

  /** '*' on its own matches anything. */
  lemma {:induction false} StarMatchesAll(s: string)
    ensures Match("*", s)
  {
    assert "*"[1..] == [];
    if |s| > 0 {
      StarMatchesAll(s[1..]);
    }
  }

  /** A star and a plain suffix, such as '*.rpm', matches exactly the names
      that end with the suffix. */
  lemma {:induction false} StarSuffix(lit: string, s: string)
    requires Plain(lit)
    ensures Match("*" + lit, s) <==> EndsWith(s, lit)
    decreases |s|
  {
    var p := "*" + lit;
    assert p[1..] == lit;
    PlainMatchesItself(lit, s);
    if |s| > 0 {
      StarSuffix(lit, s[1..]);
      if |s| > |lit| {
        assert s[1..][|s[1..]| - |lit|..] == s[|s| - |lit|..];
      }
    }
  }

  /** A plain prefix and a star, such as 'mypkg-*', matches exactly the names
      that start with the prefix. */
  lemma {:induction false} PlainPrefixStar(lit: string, s: string)
    requires Plain(lit)
    ensures Match(lit + "*", s) <==> StartsWith(s, lit)
  {
    var p := lit + "*";
    if lit == [] {
      assert p == "*";
      StarMatchesAll(s);
    } else {
      assert p[1..] == lit[1..] + "*";
      assert Plain(lit[1..]) by {
        forall i | 0 <= i < |lit[1..]| ensures lit[1..][i] != '*' && lit[1..][i] != '?' {
          assert lit[1..][i] == lit[i + 1];
        }
      }
      if |s| > 0 {
        PlainPrefixStar(lit[1..], s[1..]);
        if StartsWith(s, lit) {
          assert s[1..][..|lit| - 1] == s[..|lit|][1..];
        }
        if s[0] == lit[0] && StartsWith(s[1..], lit[1..]) {
          assert s[..|lit|] == [s[0]] + s[1..][..|lit| - 1];
        }
      }
    }
  }

  /** '?' patterns only match names of their own length. */
  lemma {:induction false} MatchLength(p: string, s: string)
    requires forall i :: 0 <= i < |p| ==> p[i] != '*'
    requires Match(p, s)
    ensures |s| == |p|
  {
    if p != [] {
      MatchLength(p[1..], s[1..]);
    }
  }
}
