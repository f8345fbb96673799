/** The text helpers of the VisTrails plugin: `escape_xml` (Python's
    `str.replace`, twice), `split_sig` (`rsplit(':', 1)`), `split(':', 1)` as
    used on command-line file specifications, and `sorted` on file names
    (Python's code-point order on strings). */
module VistrailsText {
  import opened Common

  /** Python's `s.replace(pat, rep)` for a non-empty pattern: every occurrence,
      scanning left to right, without overlaps. */
  function Replace(s: string, pat: string, rep: string): string
    requires |pat| > 0
    decreases |s|
  {
    if |s| < |pat| then s
    else if pat <= s then rep + Replace(s[|pat|..], pat, rep)
    else [s[0]] + Replace(s[1..], pat, rep)
  }

  lemma ReplaceMatch(s: string, pat: string, rep: string)
    requires |pat| > 0 && pat <= s
    ensures Replace(s, pat, rep) == rep + Replace(s[|pat|..], pat, rep)
  {
  }

  lemma ReplaceNoMatch(s: string, pat: string, rep: string)
    requires |pat| > 0 && |s| > 0 && !(pat <= s)
    ensures Replace(s, pat, rep) == [s[0]] + Replace(s[1..], pat, rep)
  {
  }

  /** `escape_xml(s)`: '&' becomes "&amp;", then '"' becomes "&quot;". */
  function EscapeXml(s: string): string
  {
    Replace(Replace(s, "&", "&amp;"), "\"", "&quot;")
  }

  /** The inverse reading: "&quot;" back to '"', then "&amp;" back to '&'. */
  function UnescapeXml(s: string): string
  {
    Replace(Replace(s, "&quot;", "\""), "&amp;", "&")
  }

  /** What one character becomes in the escaped text. */
  function EscapeChar(c: char): string
  {
    if c == '&' then "&amp;" else if c == '"' then "&quot;" else [c]
  }

  /** Text that cannot start the pattern passes through unchanged. */
  lemma {:induction false} ReplaceSkip(u: string, s: string, pat: string, rep: string)
    requires |pat| > 0 && pat[0] !in u
    ensures Replace(u + s, pat, rep) == u + Replace(s, pat, rep)
    decreases |u|
  {
    if |u| > 0 {
      var t := u + s;
      assert t[0] == u[0] && t[1..] == u[1..] + s;
      ReplaceNoMatch(t, pat, rep);
      ReplaceSkip(u[1..], s, pat, rep);
      assert u == [u[0]] + u[1..];
    } else {
      assert u + s == s;
    }
  }

  /** `s.replace('&', '&amp;')` character by character. */
  lemma AmpCons(c: char, s: string)
    ensures Replace([c] + s, "&", "&amp;")
         == (if c == '&' then "&amp;" else [c]) + Replace(s, "&", "&amp;")
  {
    var t := [c] + s;
    assert t[1..] == s;
    if c == '&' {
      ReplaceMatch(t, "&", "&amp;");
    } else {
      ReplaceSkip([c], s, "&", "&amp;");
    }
  }

  /** Escaping works character by character: the '&' pass produces no '"',
      and the '"' pass leaves the "&amp;" entities alone. */
  lemma EscapeXmlCons(c: char, s: string)
    ensures EscapeXml([c] + s) == EscapeChar(c) + EscapeXml(s)
  {
    AmpCons(c, s);
    var a := Replace(s, "&", "&amp;");
    if c == '&' {
      ReplaceSkip("&amp;", a, "\"", "&quot;");
    } else if c == '"' {
      ReplaceMatch([c] + a, "\"", "&quot;");
      assert ([c] + a)[1..] == a;
    } else {
      ReplaceSkip([c], a, "\"", "&quot;");
    }
  }

  /** Escaped text never contains a double quote, so it can sit inside an
      attribute value. */
  lemma {:induction false} EscapeXmlNoQuote(s: string)
    ensures forall i :: 0 <= i < |EscapeXml(s)| ==> EscapeXml(s)[i] != '"'
    decreases |s|
  {
    if |s| == 0 {
      assert EscapeXml(s) == "";
    } else {
      EscapeXmlCons(s[0], s[1..]);
      assert s == [s[0]] + s[1..];
      EscapeXmlNoQuote(s[1..]);
    }
  }

  /** Undoing the '&' pass. */
  lemma {:induction false} UnescapeAmp(s: string)
    ensures Replace(Replace(s, "&", "&amp;"), "&amp;", "&") == s
    decreases |s|
  {
    if |s| > 0 {
      var c, rest := s[0], s[1..];
      assert s == [c] + rest;
      AmpCons(c, rest);
      var a := Replace(rest, "&", "&amp;");
      UnescapeAmp(rest);
      if c == '&' {
        ReplaceMatch("&amp;" + a, "&amp;", "&");
        assert ("&amp;" + a)[5..] == a;
      } else {
        ReplaceSkip([c], a, "&amp;", "&");
      }
    }
  }

  /** An "&amp;" entity is not a "&quot;" entity. */
  lemma QuoteKeepsAmp(e: string)
    ensures Replace("&amp;" + e, "&quot;", "\"") == "&amp;" + Replace(e, "&quot;", "\"")
  {
    var t := "&amp;" + e;
    assert t[1] == 'a' && t[1..] == "amp;" + e;
    ReplaceNoMatch(t, "&quot;", "\"");
    ReplaceSkip("amp;", e, "&quot;", "\"");
  }

  /** One character of the '"' pass undone. */
  lemma UnescapeQuoteStep(c: char, rest: string)
    requires Replace(EscapeXml(rest), "&quot;", "\"") == Replace(rest, "&", "&amp;")
    ensures Replace(EscapeXml([c] + rest), "&quot;", "\"") == Replace([c] + rest, "&", "&amp;")
  {
    EscapeXmlCons(c, rest);
    AmpCons(c, rest);
    var e := EscapeXml(rest);
    if c == '"' {
      ReplaceMatch("&quot;" + e, "&quot;", "\"");
      assert ("&quot;" + e)[6..] == e;
    } else if c == '&' {
      QuoteKeepsAmp(e);
    } else {
      ReplaceSkip([c], e, "&quot;", "\"");
    }
  }

  /** Undoing the '"' pass gives back the '&'-escaped text. */
  lemma {:induction false} UnescapeQuote(s: string)
    ensures Replace(EscapeXml(s), "&quot;", "\"") == Replace(s, "&", "&amp;")
    decreases |s|
  {
    if |s| > 0 {
      UnescapeQuote(s[1..]);
      UnescapeQuoteStep(s[0], s[1..]);
      assert s == [s[0]] + s[1..];
    }
  }

  /** Reading an escaped attribute value back gives the original text. */
  lemma EscapeXmlRoundTrip(s: string)
    ensures UnescapeXml(EscapeXml(s)) == s
  {
    UnescapeQuote(s);
    UnescapeAmp(s);
  }

  /** Escaping is injective: different texts never collide in the file. */
  lemma EscapeXmlInjective(s: string, t: string)
    requires EscapeXml(s) == EscapeXml(t)
    ensures s == t
  {
    EscapeXmlRoundTrip(s);
    EscapeXmlRoundTrip(t);
  }

  /** `split_sig(sig)`: `sig.rsplit(':', 1)` unpacked into (package, name) and
      returned as (name, package); None where the unpacking raises ValueError
      because `sig` holds no ':'. */
  function SplitSig(sig: string): (r: Option<(string, string)>)
    ensures r.None? <==> ':' !in sig
    ensures r.Some? ==> var (name, pkg) := r.value;
      ':' !in name && pkg + ":" + name == sig
  {
    var k := RFind(sig, ':');
    RFindIsLast(sig, ':');
    if k < 0 then None
    else
      assert sig == sig[..k] + ":" + sig[k + 1..];
      Some((sig[k + 1..], sig[..k]))
  }

  /** Splitting a signature built from a package and a colon-free name gives
      both back, whatever colons the package holds. */
  lemma SplitSigJoin(pkg: string, name: string)
    requires ':' !in name
    ensures SplitSig(pkg + ":" + name) == Some((name, pkg))
  {
    var sig := pkg + ":" + name;
    RFindIsLast(sig, ':');
    var k := RFind(sig, ':');
    assert sig[|pkg|] == ':';
    assert forall j :: |pkg| < j < |sig| ==> sig[j] == name[j - |pkg| - 1];
    assert k == |pkg|;
    assert sig[k + 1..] == name && sig[..k] == pkg;
  }

  /** `s.split(':', 1)` unpacked into two parts: the text before the first ':'
      and everything after it; None where the unpacking raises ValueError. */
  function SplitFirst(s: string): (r: Option<(string, string)>)
    ensures r.None? <==> ':' !in s
    ensures r.Some? ==> var (first, rest) := r.value;
      ':' !in first && first + ":" + rest == s
  {
    var k := Find(s, ':');
    FindIsFirst(s, ':');
    if k < 0 then None
    else
      assert s == s[..k] + ":" + s[k + 1..];
      Some((s[..k], s[k + 1..]))
  }

  /** Splitting text whose first part has no ':' gives both parts back. */
  lemma SplitFirstJoin(first: string, rest: string)
    requires ':' !in first
    ensures SplitFirst(first + ":" + rest) == Some((first, rest))
  {
    var s := first + ":" + rest;
    FindIsFirst(s, ':');
    var k := Find(s, ':');
    assert s[|first|] == ':';
    assert forall j :: 0 <= j < |first| ==> s[j] == first[j];
    assert k == |first|;
    assert s[..k] == first && s[k + 1..] == rest;
  }

  /** Python's `a < b` on strings: lexicographic by code point, a proper
      prefix coming first. */
  predicate StrLess(a: string, b: string)
  {
    if |a| == 0 then |b| > 0
    else if |b| == 0 then false
    else if a[0] == b[0] then StrLess(a[1..], b[1..])
    else a[0] < b[0]
  }

  predicate StrLessEq(a: string, b: string)
  {
    a == b || StrLess(a, b)
  }

  /** The order is strict and total, as `sorted` needs. */
  lemma {:induction false} StrLessTotal(a: string, b: string)
    ensures !(StrLess(a, b) && StrLess(b, a))
    ensures !StrLess(a, a)
    ensures a == b || StrLess(a, b) || StrLess(b, a)
    decreases |a|
  {
    if |a| > 0 && |b| > 0 && a[0] == b[0] {
      StrLessTotal(a[1..], b[1..]);
      if a[1..] == b[1..] {
        assert a == [a[0]] + a[1..] && b == [b[0]] + b[1..];
      }
    }
    if |a| > 0 {
      StrLessTotal(a[1..], a[1..]);
    }
  }

  lemma {:induction false} StrLessTrans(a: string, b: string, c: string)
    requires StrLess(a, b) && StrLess(b, c)
    ensures StrLess(a, c)
    decreases |a|
  {
    if |a| > 0 && a[0] == b[0] && b[0] == c[0] {
      StrLessTrans(a[1..], b[1..], c[1..]);
    }
  }

  /** Each name is at most its successor. */
  predicate Sorted(xs: seq<string>)
  {
    forall i :: 0 < i < |xs| ==> StrLessEq(xs[i - 1], xs[i])
  }

  /** Insert one name into a sorted list. */
  function Insert(x: string, xs: seq<string>): (r: seq<string>)
    requires Sorted(xs)
    ensures Sorted(r)
    ensures multiset(r) == multiset(xs) + multiset{x}
    ensures |r| == |xs| + 1 && (r[0] == x || (|xs| > 0 && r[0] == xs[0]))
  {
    if |xs| == 0 then [x]
    else if StrLessEq(x, xs[0]) then [x] + xs
    else
      StrLessTotal(x, xs[0]);
      var t := Insert(x, xs[1..]);
      assert xs == [xs[0]] + xs[1..];
      [xs[0]] + t
  }

  /** `sorted(xs)` on strings. */
  function Sort(xs: seq<string>): (r: seq<string>)
    ensures Sorted(r)
    ensures multiset(r) == multiset(xs)
    ensures |r| == |xs|
  {
    if |xs| == 0 then []
    else
      assert xs == xs[..|xs| - 1] + [xs[|xs| - 1]];
      Insert(xs[|xs| - 1], Sort(xs[..|xs| - 1]))
  }

  /** Sorted means every earlier name is at most every later one. */
  lemma {:induction false} SortedPairwise(xs: seq<string>, i: int, j: int)
    requires Sorted(xs) && 0 <= i <= j < |xs|
    ensures StrLessEq(xs[i], xs[j])
    decreases j - i
  {
    if i < j {
      SortedPairwise(xs, i, j - 1);
      if xs[i] != xs[j - 1] && xs[j - 1] != xs[j] {
        StrLessTrans(xs[i], xs[j - 1], xs[j]);
      }
    }
  }

  lemma SortedTail(xs: seq<string>)
    requires Sorted(xs) && |xs| > 0
    ensures Sorted(xs[1..])
  {
    forall i | 0 < i < |xs[1..]| ensures StrLessEq(xs[1..][i - 1], xs[1..][i]) {
      assert xs[1..][i - 1] == xs[i] && xs[1..][i] == xs[i + 1];
    }
  }

  /** The first element of a sorted list is its least element. */
  lemma SortedHead(xs: seq<string>, ys: seq<string>)
    requires Sorted(xs) && Sorted(ys) && multiset(xs) == multiset(ys) && |xs| > 0
    ensures |ys| > 0 && xs[0] == ys[0]
  {
    assert |ys| == |multiset(ys)| == |multiset(xs)| == |xs|;
    var a, b := xs[0], ys[0];
    assert b in multiset(xs) by { assert ys[0] in multiset(ys); }
    assert a in multiset(ys) by { assert xs[0] in multiset(xs); }
    var i :| 0 <= i < |xs| && xs[i] == b;
    var j :| 0 <= j < |ys| && ys[j] == a;
    SortedPairwise(xs, 0, i);
    SortedPairwise(ys, 0, j);
    StrLessTotal(a, b);
  }

  /** `sorted` is determined by its input's elements: two sorted lists with the
      same elements are equal. */
  lemma {:induction false} SortedUnique(xs: seq<string>, ys: seq<string>)
    requires Sorted(xs) && Sorted(ys) && multiset(xs) == multiset(ys)
    ensures xs == ys
    decreases |xs|
  {
    if |xs| > 0 {
      SortedHead(xs, ys);
      var a := xs[0];
      assert xs == [a] + xs[1..] && ys == [a] + ys[1..];
      assert multiset(xs[1..]) == multiset(xs) - multiset([a]);
      assert multiset(ys[1..]) == multiset(ys) - multiset([a]);
      SortedTail(xs);
      SortedTail(ys);
      SortedUnique(xs[1..], ys[1..]);
    } else {
      assert |ys| == |multiset(ys)| == 0;
    }
  }
}
