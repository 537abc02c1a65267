/**
 * Two answers to "which screen is this?": the sidebar's running-longest loop (`app-nav.tsx`) and the help
 * panel's sort-then-find (`help-routes.ts`).
 */
module NavMatch {
  import opened Text

  /** The navigation table: groups of hrefs. */
  type Groups = seq<seq<string>>

  function Flatten(groups: Groups): seq<string> {
    if groups == [] then [] else groups[0] + Flatten(groups[1..])
  }

  lemma {:induction false} FlattenHas(groups: Groups, g: nat, i: nat)
    requires g < |groups| && i < |groups[g]|
    ensures groups[g][i] in Flatten(groups)
  {
    if g > 0 {
      FlattenHas(groups[1..], g - 1, i);
    } else {
      assert groups[0][i] == Flatten(groups)[i];
    }
  }

  lemma {:induction false} FlattenFrom(groups: Groups, href: string) returns (g: nat, i: nat)
    requires href in Flatten(groups)
    ensures g < |groups| && i < |groups[g]| && groups[g][i] == href
  {
    if href in groups[0] {
      g := 0;
      i :| i < |groups[0]| && groups[0][i] == href;
    } else {
      g, i := FlattenFrom(groups[1..], href);
      g := g + 1;
    }
  }

  /** `/` matches itself alone; any other href matches itself and everything below it. */
  predicate Matches(path: string, href: string) {
    if href == "/" then path == "/" else path == href || href + "/" <= path
  }

  lemma MatchIsPrefix(path: string, href: string)
    requires Matches(path, href)
    ensures href <= path
  {
  }

  /**
   * An href matches by whole segments: its own are the first of the path's, so `/client` is not above `/clients`. Only
   * `/`, which would be above nothing but what starts with two slashes, matches itself alone.
   */
  lemma MatchesBySegments(path: string, href: string)
    ensures Matches(path, href) <==> if href == "/" then path == "/" else Split(href, '/') <= Split(path, '/')
  {
    if href != "/" { SegmentsMatch(path, href); }
  }

  lemma SegmentsMatch(path: string, href: string)
    ensures (path == href || href + "/" <= path) <==> Split(href, '/') <= Split(path, '/')
  {
    var parts, whole := Split(href, '/'), Split(path, '/');
    if href + "/" <= path {
      var rest := path[|href| + 1..];
      assert path == href + "/" + rest;
      SplitAppend(href, rest, '/');
    }
    if parts <= whole {
      var rest := whole[|parts|..];
      assert whole == parts + rest;
      JoinOfSplit(path, '/');
      JoinOfSplit(href, '/');
      if rest == [] { assert whole == parts; } else { JoinAppend(parts, rest, '/'); }
    }
  }

  // ---------------------------------------------------------------- the sidebar

  /** The longest non-empty match, or nothing when there is none. */
  ghost predicate IsActive(hrefs: seq<string>, path: string, best: string) {
    (best != "" ==> best in hrefs && Matches(path, best)) &&
    forall h :: h in hrefs && Matches(path, h) ==> |h| <= |best|
  }

  method ActiveHref(groups: Groups, pathname: string) returns (best: string)
    ensures IsActive(Flatten(groups), pathname, best)
  {
    best := "";
    for g := 0 to |groups|
      invariant best != "" ==> best in Flatten(groups) && Matches(pathname, best)
      invariant forall k, j :: 0 <= k < g && 0 <= j < |groups[k]| && Matches(pathname, groups[k][j]) ==> |groups[k][j]| <= |best|
    {
      for i := 0 to |groups[g]|
        invariant best != "" ==> best in Flatten(groups) && Matches(pathname, best)
        invariant forall k, j :: 0 <= k < g && 0 <= j < |groups[k]| && Matches(pathname, groups[k][j]) ==> |groups[k][j]| <= |best|
        invariant forall j :: 0 <= j < i && Matches(pathname, groups[g][j]) ==> |groups[g][j]| <= |best|
      {
        var href := groups[g][i];
        var matches := if href == "/" then pathname == "/" else pathname == href || href + "/" <= pathname;
        if matches && |href| > |best| {
          FlattenHas(groups, g, i);
          best := href;
        }
      }
    }
    forall h | h in Flatten(groups) && Matches(pathname, h) ensures |h| <= |best| {
      var g, i := FlattenFrom(groups, h);
    }
  }

  // ---------------------------------------------------------------- the help panel

  function InsertByLength(h: string, sorted: seq<string>): seq<string> {
    if sorted == [] || |h| >= |sorted[0]| then [h] + sorted
    else [sorted[0]] + InsertByLength(h, sorted[1..])
  }

  /** `[...hrefs].sort((a, b) => b.length - a.length)`, stable. */
  function ByLength(hrefs: seq<string>): seq<string> {
    if hrefs == [] then [] else InsertByLength(hrefs[0], ByLength(hrefs[1..]))
  }

  ghost predicate LongestFirst(s: seq<string>) {
    forall i, j :: 0 <= i < j < |s| ==> |s[i]| >= |s[j]|
  }

  lemma {:induction false} InsertKeepsOrder(h: string, sorted: seq<string>)
    requires LongestFirst(sorted)
    ensures LongestFirst(InsertByLength(h, sorted))
    ensures forall x :: x in InsertByLength(h, sorted) <==> x == h || x in sorted
  {
    if sorted != [] && |h| < |sorted[0]| {
      InsertKeepsOrder(h, sorted[1..]);
      assert sorted == [sorted[0]] + sorted[1..];
      var rest := InsertByLength(h, sorted[1..]);
      forall j | 0 <= j < |rest| ensures |rest[j]| <= |sorted[0]| {
        assert rest[j] in rest;
      }
    }
  }

  lemma {:induction false} ByLengthSorts(hrefs: seq<string>)
    ensures LongestFirst(ByLength(hrefs))
    ensures forall x :: x in ByLength(hrefs) <==> x in hrefs
  {
    if hrefs != [] {
      ByLengthSorts(hrefs[1..]);
      InsertKeepsOrder(hrefs[0], ByLength(hrefs[1..]));
      assert hrefs == [hrefs[0]] + hrefs[1..];
    }
  }

  datatype Found = NotFound | Found(href: string)

  function Find(hrefs: seq<string>, path: string): Found {
    if hrefs == [] then NotFound
    else if Matches(path, hrefs[0]) then Found(hrefs[0])
    else Find(hrefs[1..], path)
  }

  /** In a list sorted longest first, the first match is a longest one. */
  lemma {:induction false} FindIsLongest(hrefs: seq<string>, path: string)
    requires LongestFirst(hrefs)
    ensures match Find(hrefs, path)
      case NotFound => forall h :: h in hrefs ==> !Matches(path, h)
      case Found(href) => href in hrefs && Matches(path, href) && forall h :: h in hrefs && Matches(path, h) ==> |h| <= |href|
  {
    if hrefs != [] {
      FindIsLongest(hrefs[1..], path);
      assert hrefs == [hrefs[0]] + hrefs[1..];
      forall h | h in hrefs ensures |h| <= |hrefs[0]| {
        var i :| 0 <= i < |hrefs| && hrefs[i] == h;
      }
    }
  }

  /** `replace(/\/+$/, "")`. */
  function TrimSlashes(s: string): (t: string)
    ensures t <= s && (t != "" ==> t[|t| - 1] != '/')
    ensures forall i :: |t| <= i < |s| ==> s[i] == '/'
  {
    if s != "" && s[|s| - 1] == '/' then TrimSlashes(s[..|s| - 1]) else s
  }

  /** The pathname the help panel looks up: no query, no trailing slashes, `/` when nothing is left. */
  function NormalPath(pathname: string): string {
    var path := TrimSlashes(Split(pathname, '?')[0]);
    if path == "" then "/" else path
  }

  function HelpRouteFor(groups: Groups, pathname: string): string {
    var path := NormalPath(pathname);
    match Find(ByLength(Flatten(groups)), path)
    case NotFound => path
    case Found(href) => href
  }

  /** A query, whatever it holds, and slashes at the end of the path before it, do not change the help screen. */
  lemma QueryAndSlashesAreIgnored(groups: Groups, path: string, slashes: nat, query: string)
    requires '?' !in path
    ensures var p := path + Repeat('/', slashes);
      HelpRouteFor(groups, p + "?" + query) == HelpRouteFor(groups, p) == HelpRouteFor(groups, path)
  {
    var p := path + Repeat('/', slashes);
    SplitAppend(p, query, '?');
    SplitOfFree(p, '?');
    SplitOfFree(path, '?');
    TrimOfSlashes(path, slashes);
  }

  lemma {:induction false} TrimOfSlashes(path: string, n: nat)
    ensures TrimSlashes(path + Repeat('/', n)) == TrimSlashes(path)
    decreases n
  {
    if n == 0 {
      assert path + Repeat('/', n) == path;
    } else {
      var p := path + Repeat('/', n);
      assert p[..|p| - 1] == path + Repeat('/', n - 1);
      TrimOfSlashes(path, n - 1);
    }
  }

  // ---------------------------------------------------------------- when they agree

  predicate AllSlashes(s: string) { forall i :: 0 <= i < |s| ==> s[i] == '/' }

  /** A pathname as the router reports one: it starts with a slash, has no query and is not a run of slashes. */
  predicate IsPathname(p: string) {
    p != "" && p[0] == '/' && '?' !in p && (p == "/" || !AllSlashes(p))
  }

  /** An href on which the two rules part: the empty one, and one with a trailing slash. */
  predicate Awkward(h: string) {
    h == "" || (h[0] == '/' && h[|h| - 1] == '/' && !AllSlashes(h) && '?' !in h)
  }

  predicate NoAwkward(groups: Groups) {
    forall h :: h in Flatten(groups) ==> !Awkward(h)
  }

  /** The help panel and the highlighted item name the same screen, or the help panel falls back to the path. */
  ghost predicate Agree(groups: Groups, pathname: string, active: string) {
    HelpRouteFor(groups, pathname) == if active != "" then active else NormalPath(pathname)
  }

  lemma NormalPathOfPathname(p: string)
    requires IsPathname(p)
    ensures NormalPath(p) == if p == "/" then "/" else TrimSlashes(p)
    ensures p != "/" ==> TrimSlashes(p) != ""
  {
    SplitOfFree(p, '?');
    assert TrimSlashes("/") == "";
  }

  /** A prefix longer than the trimmed text ends on a slash, and cannot be all slashes unless the text is. */
  lemma TrimReaches(p: string, h: string)
    requires h <= p && |TrimSlashes(p)| < |h|
    ensures h[|h| - 1] == '/'
    ensures AllSlashes(h) ==> AllSlashes(p)
  {
    assert forall i :: 0 <= i < |h| ==> p[i] == h[i];
  }

  lemma PrefixHasNoQuery(p: string, h: string)
    requires h <= p && '?' !in p
    ensures '?' !in h
  {
    assert forall i :: 0 <= i < |h| ==> h[i] == p[i];
  }

  lemma TrimKeepsMatch(p: string, h: string)
    requires IsPathname(p) && p != "/" && !Awkward(h) && Matches(p, h)
    ensures Matches(TrimSlashes(p), h)
  {
    var path := TrimSlashes(p);
    PrefixHasNoQuery(p, h);
    if |path| < |h| {
      TrimReaches(p, h);
    } else if |path| > |h| {
      assert path[..|h| + 1] == p[..|h| + 1] == h + "/";
    } else {
      assert path == p[..|h|] == h;
    }
  }

  lemma TrimAddsNoMatch(p: string, h: string)
    requires IsPathname(p) && p != "/" && Matches(TrimSlashes(p), h)
    ensures Matches(p, h)
  {
    var path := TrimSlashes(p);
    NormalPathOfPathname(p);
    if path == h && p != h {
      assert p[..|h|] == h && p[|h|] == '/';
      assert p[..|h| + 1] == h + "/";
    }
  }

  lemma MatchesSurvivesTrim(p: string, h: string)
    requires IsPathname(p) && !Awkward(h)
    ensures Matches(p, h) <==> Matches(NormalPath(p), h)
  {
    NormalPathOfPathname(p);
    if p != "/" {
      if Matches(p, h) { TrimKeepsMatch(p, h); }
      if Matches(TrimSlashes(p), h) { TrimAddsNoMatch(p, h); }
    }
  }

  lemma SameLengthSameHref(path: string, a: string, b: string)
    requires Matches(path, a) && Matches(path, b) && |a| == |b|
    ensures a == b
  {
    MatchIsPrefix(path, a);
    MatchIsPrefix(path, b);
  }

  /** With no awkward href in the table the two always agree. */
  lemma AgreeOnPathnames(groups: Groups, p: string, active: string)
    requires NoAwkward(groups) && IsPathname(p)
    requires IsActive(Flatten(groups), p, active)
    ensures Agree(groups, p, active)
  {
    var hrefs, path := Flatten(groups), NormalPath(p);
    ByLengthSorts(hrefs);
    FindIsLongest(ByLength(hrefs), path);
    forall h | h in hrefs ensures Matches(p, h) <==> Matches(path, h) {
      MatchesSurvivesTrim(p, h);
    }
    match Find(ByLength(hrefs), path) {
      case NotFound =>
      case Found(href) =>
        assert |href| <= |active| && active != "";
        SameLengthSameHref(p, href, active);
    }
  }

  /** An href with a trailing slash lights up in the sidebar at its own address and is never the help screen there. */
  lemma TrailingSlashParts(groups: Groups, h: string)
    requires h in Flatten(groups) && Awkward(h) && h != ""
    ensures IsPathname(h) && IsActive(Flatten(groups), h, h) && !Agree(groups, h, h)
  {
    var hrefs := Flatten(groups);
    forall x | x in hrefs && Matches(h, x) ensures |x| <= |h| {
      MatchIsPrefix(h, x);
    }
    NormalPathOfPathname(h);
    var path := NormalPath(h);
    assert |path| < |h|;
    ByLengthSorts(hrefs);
    FindIsLongest(ByLength(hrefs), path);
  }

  function Repeat(c: char, n: nat): (s: string)
    ensures |s| == n && forall i :: 0 <= i < n ==> s[i] == c
  {
    seq(n, i => c)
  }

  lemma {:induction false} LongerThanAll(hrefs: seq<string>) returns (n: nat)
    ensures forall h :: h in hrefs ==> |h| < n
  {
    if hrefs == [] {
      n := 0;
    } else {
      n := LongerThanAll(hrefs[1..]);
      n := n + |hrefs[0]| + 1;
      assert hrefs == [hrefs[0]] + hrefs[1..];
    }
  }

  /** An empty href swallows every page the table does not list. */
  lemma EmptyHrefParts(groups: Groups) returns (p: string)
    requires "" in Flatten(groups)
    ensures IsPathname(p) && IsActive(Flatten(groups), p, "") && !Agree(groups, p, "")
  {
    var hrefs := Flatten(groups);
    var n := LongerThanAll(hrefs);
    p := "/" + Repeat('x', n + 1);
    assert p[1] == 'x';
    forall h | h in hrefs && Matches(p, h) ensures h == "" {
      if h + "/" <= p {
        assert p[|h|] == '/';
      }
    }
    NormalPathOfPathname(p);
    assert TrimSlashes(p) == p;
    ByLengthSorts(hrefs);
    FindIsLongest(ByLength(hrefs), p);
    assert Matches(p, "") by { assert "" + "/" <= p; }
  }

  /** The rule the two screens need of the table: they agree on every pathname exactly when it has no awkward href. */
  lemma AgreeExactly(groups: Groups)
    ensures NoAwkward(groups) <==>
      forall p, active :: IsPathname(p) && IsActive(Flatten(groups), p, active) ==> Agree(groups, p, active)
  {
    if NoAwkward(groups) {
      forall p, active | IsPathname(p) && IsActive(Flatten(groups), p, active) ensures Agree(groups, p, active) {
        AgreeOnPathnames(groups, p, active);
      }
    } else {
      var h :| h in Flatten(groups) && Awkward(h);
      if h == "" {
        var p := EmptyHrefParts(groups);
        assert IsPathname(p) && IsActive(Flatten(groups), p, "") && !Agree(groups, p, "");
      } else {
        TrailingSlashParts(groups, h);
        assert IsPathname(h) && IsActive(Flatten(groups), h, h) && !Agree(groups, h, h);
      }
    }
  }
}
