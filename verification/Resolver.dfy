/** Resolution of a reference found in a page, and the same-host test that decides
    whether the result may ride on the page's connection. */
module Resolver {
  import opened Text
  import opened UrlParser
  import opened Wrappers

  predicate IsAbsolute(src: string) {
    "http://" <= src || "https://" <= src
  }

  /** A path up to and including its last slash; the whole path if there is none. */
  function Directory(path: string): string {
    var slash := FindLast(path, '/');
    if slash < |path| then path[..slash + 1] else path
  }

  /** The third branch stands after the test for a single slash, as it does in the program. */
  function ResolveUrl(src: string, pageUrl: string): string {
    match Parse(pageUrl)
    case Failure(_) => src
    case Success(base) =>
      if IsAbsolute(src) then src
      else if "/" <= src then "https://" + base.host + src
      else if "//" <= src then "https:" + src
      else "https://" + base.host + Directory(base.path) + src
  }

  predicate SameHost(url: string, host: string) {
    var p := Parse(url);
    p.Success? && p.value.host == host
  }

  lemma AbsoluteStays(src: string, pageUrl: string)
    requires "http://" <= src || "https://" <= src
    ensures ResolveUrl(src, pageUrl) == src
  {}

  lemma BecomesAbsolute(src: string, pageUrl: string)
    requires Parse(pageUrl).Success?
    ensures "http://" <= ResolveUrl(src, pageUrl) || "https://" <= ResolveUrl(src, pageUrl)
  {
    var base := Parse(pageUrl).value;
    ResolvedAgainst(src, pageUrl, base, Directory(base.path));
    if "/" <= src {
      InFront("https://", base.host, src);
    } else {
      Assoc("https://" + base.host, Directory(base.path), src);
      InFront("https://", base.host, Directory(base.path) + src);
    }
  }

  lemma InFront(a: string, b: string, c: string)
    ensures a <= a + b + c
  {
    Assoc(a, b, c);
  }

  lemma ResolveIdempotent(src: string, pageUrl: string)
    ensures ResolveUrl(ResolveUrl(src, pageUrl), pageUrl) == ResolveUrl(src, pageUrl)
  {
    if Parse(pageUrl).Success? {
      BecomesAbsolute(src, pageUrl);
      AbsoluteStays(ResolveUrl(src, pageUrl), pageUrl);
    }
  }

  /** The host of a URL is the one that stands in it. */
  lemma SameHostExactly(c: Components, host: string)
    requires WellFormed(c)
    ensures SameHost(Print(c), host) <==> c.host.name == host
  {
    PrintParse(c, DEFAULT_PORT);
  }

  lemma DirectoryEndsAtSlash(dir: string, leaf: string)
    requires dir != "" && dir[|dir| - 1] == '/' && '/' !in leaf
    ensures Directory(dir + leaf) == dir
  {
    var path := dir + leaf;
    assert path[|dir| - 1] == '/' && '/' in path;
    assert forall k :: |dir| <= k < |path| ==> path[k] == leaf[k - |dir|];
    assert path[..|dir|] == dir;
  }

  /** What a reference in a page stands for, in terms of the page's URL: an absolute one for itself, one that
      starts with a slash for that path on the page's host, any other for a path below that of the page, whose
      last segment it replaces. */
  lemma ReferenceMeans(src: string, c: Components, dir: string, leaf: string)
    requires WellFormed(c) && (if c.path == "" then "/" else c.path) == dir + leaf
    requires dir != "" && dir[|dir| - 1] == '/' && '/' !in leaf
    ensures var url := ResolveUrl(src, Print(c));
            if "http://" <= src || "https://" <= src then url == src
            else if "/" <= src then url == "https://" + c.host.name + src
            else url == "https://" + c.host.name + dir + src
  {
    PrintParse(c, DEFAULT_PORT);
    DirectoryEndsAtSlash(dir, leaf);
    ResolvedAgainst(src, Print(c), Parse(Print(c)).value, dir);
    if "/" <= src {
      SlashIsRelative(src);
    }
  }

  lemma ResolvedAgainst(src: string, pageUrl: string, base: ParsedUrl, dir: string)
    requires Parse(pageUrl) == Success(base) && Directory(base.path) == dir
    ensures "http://" <= src || "https://" <= src ==> ResolveUrl(src, pageUrl) == src
    ensures "/" <= src ==> ResolveUrl(src, pageUrl) == "https://" + base.host + src
    ensures !("http://" <= src) && !("https://" <= src) && !("/" <= src) ==>
              ResolveUrl(src, pageUrl) == "https://" + base.host + dir + src
  {
    if "/" <= src {
      SlashIsRelative(src);
    } else {
      assert !("//" <= src);
    }
  }

  lemma SlashIsRelative(src: string)
    requires "/" <= src
    ensures !("http://" <= src) && !("https://" <= src)
  {
    assert src[0] == '/';
  }

  /** A path without any slash, which only a URL without host can have, stays before the reference as it is. */
  lemma DirectoryWithoutSlash(path: string)
    requires '/' !in path
    ensures Directory(path) == path
  {
    if FindLast(path, '/') < |path| {
      assert path[FindLast(path, '/')] in path;
    }
  }

  /** A host taken from an authority has none of the authority's end characters. */
  lemma HostStaysInAuthority(a: string)
    requires FreeOf(a, AUTHORITY_END) && SplitAuthority(a).Success?
    ensures FreeOf(SplitAuthority(a).value.host, AUTHORITY_END)
  {
    FreeOfParts(Before(a, {'@'}), From(a, {'@'}), AUTHORITY_END);
    HostStaysInHostPort(if From(a, {'@'}) == "" then "" else Before(a, {'@'}), HostPort(a));
  }

  lemma HostStaysInHostPort(userinfo: string, hp: string)
    requires FreeOf(hp, AUTHORITY_END) && SplitHostPort(userinfo, hp).Success?
    ensures FreeOf(SplitHostPort(userinfo, hp).value.host, AUTHORITY_END)
  {
    FreeOfParts(Before(hp, {']'}), From(hp, {']'}), AUTHORITY_END);
    FreeOfParts(Before(hp, {':'}), From(hp, {':'}), AUTHORITY_END);
  }

  lemma ParseHttps(host: string, tail: string)
    requires FreeOf(host, AUTHORITY_END) && "/" <= tail
    ensures Parse("https://" + host + tail).Success? <==> SplitAuthority(host).Success?
    ensures SplitAuthority(host).Success? ==>
              Parse("https://" + host + tail).value.host == SplitAuthority(host).value.host
  {
    var rest := "//" + (host + tail);
    HttpsPrefix(host, tail);
    SchemeEndIs("https", ":" + rest);
    assert Split("https://" + host + tail) == Success(SplitHier("https", rest));
    HierOfHost(host, tail);
  }

  lemma HierOfHost(host: string, tail: string)
    requires FreeOf(host, AUTHORITY_END) && "/" <= tail
    ensures SplitHier("https", "//" + (host + tail)).authority == Some(host)
  {
    assert ("//" + (host + tail))[2..] == host + tail;
    CutAtSeam(host, tail, AUTHORITY_END);
  }

  lemma HttpsPrefix(host: string, tail: string)
    ensures "https://" + host + tail == "https" + (":" + ("//" + (host + tail)))
  {}

  lemma DirectoryStartsWithSlash(path: string)
    requires "/" <= path
    ensures "/" <= Directory(path)
  {
    assert path[0] == '/';
  }

  lemma RootRelative(src: string, pageUrl: string, host: string)
    requires "/" <= src && SameHost(pageUrl, host)
    ensures ResolveUrl(src, pageUrl) == "https://" + host + src
  {
    assert src[0] == '/';
    var p := Parse(pageUrl);
    assert p == Success(p.value);
  }

  /** What follows the host in a resolved relative reference starts with a slash. */
  lemma ResolvedForm(src: string, pageUrl: string) returns (tail: string)
    requires Split(pageUrl).Success? && Split(pageUrl).value.authority.Some? && Parse(pageUrl).Success?
    requires !IsAbsolute(src)
    ensures "/" <= tail && ResolveUrl(src, pageUrl) == "https://" + Parse(pageUrl).value.host + tail
  {
    SplitThenRecompose(pageUrl);
    var base := Parse(pageUrl).value;
    if "/" <= src {
      tail := src;
    } else {
      DirectoryStartsWithSlash(base.path);
      tail := Directory(base.path) + src;
      Assoc("https://" + base.host, Directory(base.path), src);
    }
  }

  /** A relative reference resolves to a URL on the page's host exactly when that host string reads
      back as itself: no `@`, no leading bracket, not exactly one colon. */
  lemma RelativeStaysOnHost(src: string, pageUrl: string)
    requires Parse(pageUrl).Success? && Split(pageUrl).value.authority.Some?
    requires !IsAbsolute(src)
    ensures SameHost(ResolveUrl(src, pageUrl), Parse(pageUrl).value.host) <==> Reparses(Parse(pageUrl).value.host)
  {
    SplitThenRecompose(pageUrl);
    var host := Parse(pageUrl).value.host;
    HostStaysInAuthority(Split(pageUrl).value.authority.value);
    var tail := ResolvedForm(src, pageUrl);
    ParseHttps(host, tail);
    HostReparses(host);
  }

  /** A scheme-relative reference `//cdn/x` never reaches its own branch: it becomes a path on the page's
      host, so the host it names is not the one that is asked. */
  lemma SchemeRelativeBecomesPath(src: string, pageUrl: string)
    requires "//" <= src
    requires Parse(pageUrl).Success? && Split(pageUrl).value.authority.Some?
    ensures SameHost(ResolveUrl(src, pageUrl), Parse(pageUrl).value.host) <==> Reparses(Parse(pageUrl).value.host)
    ensures ResolveUrl(src, pageUrl) == "https://" + Parse(pageUrl).value.host + src
  {
    assert src[0] == '/';
    RelativeStaysOnHost(src, pageUrl);
  }
}
