/** The two POSIX path operations the packer uses to resolve a symbolic link:
    Python's `posixpath.dirname` and `posixpath.join` (two arguments). */
module Paths {
  import opened Common

  predicate AllSlashes(s: string)
  {
    forall j :: 0 <= j < |s| ==> s[j] == '/'
  }

  predicate NoSlash(s: string)
  {
    forall j :: 0 <= j < |s| ==> s[j] != '/'
  }

  /** `s.rstrip('/')` */
  function RStripSlashes(s: string): string
  {
    if |s| > 0 && s[|s| - 1] == '/' then RStripSlashes(s[..|s| - 1]) else s
  }

  /** Stripping removes a run of trailing slashes and nothing else. */
  lemma {:induction false} RStripSlashesShape(s: string)
    ensures var r := RStripSlashes(s);
      r <= s && AllSlashes(s[|r|..]) && (|r| == 0 || r[|r| - 1] != '/')
  {
    if |s| > 0 && s[|s| - 1] == '/' {
      RStripSlashesShape(s[..|s| - 1]);
    }
  }

  /** `sep * n` for the separator '/'. */
  function Slashes(n: nat): string
  {
    if n == 0 then "" else Slashes(n - 1) + "/"
  }

  lemma {:induction false} SlashesAll(s: string)
    ensures s == Slashes(|s|) <==> AllSlashes(s)
  {
    if |s| > 0 {
      SlashesAll(s[..|s| - 1]);
      if AllSlashes(s) {
        assert AllSlashes(s[..|s| - 1]);
        assert s == s[..|s| - 1] + "/";
      }
    }
  }

  /** `posixpath.dirname(p)`: everything up to the last '/', with trailing
      slashes removed unless the head is empty or consists of slashes only. */
  function Dirname(p: string): string
  {
    var i := RFind(p, '/') + 1;
    var head := p[..i];
    if head != "" && head != Slashes(|head|) then RStripSlashes(head) else head
  }

  /** The directory part is a prefix of the path; it is empty exactly when the
      path has no '/'; it ends in '/' only when it is all slashes; and what
      follows it is separating slashes, then a slash-free base name. */
  lemma DirnameShape(p: string)
    ensures var d := Dirname(p);
      && d <= p
      && (NoSlash(p) <==> d == "")
      && (|d| > 0 && d[|d| - 1] == '/' ==> AllSlashes(d))
      && exists k :: |d| <= k <= |p| && AllSlashes(p[|d|..k]) && NoSlash(p[k..])
  {
    var d := Dirname(p);
    RFindIsLast(p, '/');
    var i := RFind(p, '/') + 1;
    var head := p[..i];
    SlashesAll(head);
    RStripSlashesShape(head);
    assert NoSlash(p[i..]);
    if head != "" && !AllSlashes(head) {
      assert p[|d|..i] == head[|d|..];
    } else {
      assert AllSlashes(p[i..i]);
      assert !NoSlash(p) ==> i > 0;
    }
  }

  /** `posixpath.join(a, b)`: an absolute `b` replaces `a`; otherwise `b` is
      appended to `a`, with a '/' in between unless `a` is empty or already
      ends with one. */
  function Join(a: string, b: string): string
  {
    if |b| > 0 && b[0] == '/' then b
    else if a == "" || a[|a| - 1] == '/' then a + b
    else a + "/" + b
  }

  /** An absolute second part wins; otherwise the result starts with the
      first part, ends with the second, and has exactly one '/' between
      them unless the first part is empty or already ends in one. */
  lemma JoinShape(a: string, b: string)
    ensures var r := Join(a, b);
      && (|b| > 0 && b[0] == '/' ==> r == b)
      && (!(|b| > 0 && b[0] == '/') ==>
            a <= r && |r| >= |b| && r[|r| - |b|..] == b &&
            if a == "" || a[|a| - 1] == '/' then |r| == |a| + |b|
            else |r| == |a| + 1 + |b| && r[|a|] == '/')
  {
  }
}
