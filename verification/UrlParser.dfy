/** The URL parser: a cursor moves once through the string and cuts it into components.
    Its specification is the grammar of RFC 3986, section 3, with the parser's own leniencies. */
module UrlParser {
  import opened Text
  import opened Wrappers

  datatype ParsedUrl = ParsedUrl(scheme: string, userinfo: string, host: string, port: string,
                                 path: string, query: string, fragment: string)

  datatype UrlError = InvalidScheme | MissingColon | InvalidIpv6Literal

  /** The default port of the parser's declaration, whatever the scheme. */
  const DEFAULT_PORT := "443"

  const AUTHORITY_END := {'/', '?', '#'}
  const PATH_END := {'?', '#'}
  const QUERY_END := {'#'}

  predicate IsAlpha(c: char) {
    'a' <= c <= 'z' || 'A' <= c <= 'Z'
  }

  predicate IsSchemeChar(c: char) {
    IsAlpha(c) || '0' <= c <= '9' || c == '+' || c == '-' || c == '.'
  }

  ghost predicate IsScheme(s: string) {
    s != [] && IsAlpha(s[0]) && forall k :: 0 <= k < |s| ==> IsSchemeChar(s[k])
  }

  // ---------- Specification: the five top-level components ----------

  /** The components of a URI as they stand in the text. `None` means that the delimiter is absent. */
  datatype RawUrl = RawUrl(scheme: string, authority: Option<string>, path: string,
                           query: Option<string>, fragment: Option<string>)

  /** A component with its delimiter in front, if it is there. */
  function Delimited(delimiter: string, o: Option<string>): string {
    if o.Some? then delimiter + o.value else ""
  }

  function Undelimited(s: string): Option<string> {
    if s == "" then None else Some(s[1..])
  }

  /** Component recomposition, section 5.3 of RFC 3986. */
  function Recompose(u: RawUrl): string {
    u.scheme + (":" + (Delimited("//", u.authority) + RecomposeTail(u)))
  }

  function RecomposeTail(u: RawUrl): string {
    u.path + (Delimited("?", u.query) + Delimited("#", u.fragment))
  }

  ghost predicate WellSplit(u: RawUrl) {
    && IsScheme(u.scheme)
    && (u.authority.Some? ==> FreeOf(u.authority.value, AUTHORITY_END) && (u.path == "" || u.path[0] == '/'))
    && (u.authority.None? ==> !("//" <= u.path))
    && WellSplitTail(u)
  }

  ghost predicate WellSplitTail(u: RawUrl) {
    FreeOf(u.path, PATH_END) && (u.query.Some? ==> FreeOf(u.query.value, QUERY_END))
  }

  function SchemeEnd(uri: string, from: nat): (i: nat)
    requires from <= |uri|
    ensures from <= i <= |uri|
    ensures forall k :: from <= k < i ==> IsSchemeChar(uri[k])
    ensures i < |uri| ==> !IsSchemeChar(uri[i])
    decreases |uri| - from
  {
    if from == |uri| || !IsSchemeChar(uri[from]) then from else SchemeEnd(uri, from + 1)
  }

  function Split(uri: string): Result<RawUrl, UrlError> {
    if uri == "" || !IsAlpha(uri[0]) then Failure(InvalidScheme)
    else
      var e := SchemeEnd(uri, 0);
      if e == |uri| || uri[e] != ':' then Failure(MissingColon)
      else Success(SplitHier(uri[..e], uri[e + 1..]))
  }

  function SplitHier(scheme: string, rest: string): RawUrl {
    if "//" <= rest then
      SplitTail(scheme, Some(Before(rest[2..], AUTHORITY_END)), From(rest[2..], AUTHORITY_END))
    else SplitTail(scheme, None, rest)
  }

  function SplitTail(scheme: string, authority: Option<string>, tail: string): RawUrl {
    var more := From(tail, PATH_END);
    RawUrl(scheme, authority, Before(tail, PATH_END),
           Undelimited(Before(more, QUERY_END)), Undelimited(From(more, QUERY_END)))
  }

  // ---------- Specification: the authority ----------

  datatype Authority = Authority(userinfo: string, host: string, port: string)

  /** The first `@` ends the userinfo. A host in brackets runs to the first `]`, and what follows
      counts only if it is `:port`. Otherwise exactly one colon splits host and port. */
  function SplitAuthority(a: string): Result<Authority, UrlError> {
    var at := From(a, {'@'});
    if at == "" then SplitHostPort("", a) else SplitHostPort(Before(a, {'@'}), at[1..])
  }

  function SplitHostPort(userinfo: string, hp: string): Result<Authority, UrlError> {
    if "[" <= hp then
      var after := From(hp, {']'});
      if after == "" then Failure(InvalidIpv6Literal)
      else Success(Authority(userinfo, Before(hp, {']'})[1..], if "]:" <= after then after[2..] else ""))
    else
      var colon := From(hp, {':'});
      if colon != "" && ':' !in colon[1..] then Success(Authority(userinfo, Before(hp, {':'}), colon[1..]))
      else Success(Authority(userinfo, hp, ""))
  }

  function PortOrDefault(port: string, scheme: string, defaultPort: string): string {
    if port != "" then port
    else if defaultPort != "" then defaultPort
    else if scheme == "https" then "443"
    else if scheme == "http" then "80"
    else ""
  }

  function OrEmpty(o: Option<string>): string {
    if o.Some? then o.value else ""
  }

  function Finish(u: RawUrl, a: Authority, defaultPort: string): ParsedUrl {
    ParsedUrl(u.scheme, a.userinfo, a.host, PortOrDefault(a.port, u.scheme, defaultPort),
              if u.path == "" then "/" else u.path, OrEmpty(u.query), OrEmpty(u.fragment))
  }

  function FinishHier(u: RawUrl, defaultPort: string): Result<ParsedUrl, UrlError> {
    if u.authority.None? then Success(Finish(u, Authority("", "", ""), defaultPort))
    else
      match SplitAuthority(u.authority.value)
      case Failure(e) => Failure(e)
      case Success(a) => Success(Finish(u, a, defaultPort))
  }

  /** What the parser computes. */
  function Parse(uri: string, defaultPort: string := DEFAULT_PORT): Result<ParsedUrl, UrlError> {
    match Split(uri)
    case Failure(e) => Failure(e)
    case Success(u) => FinishHier(u, defaultPort)
  }

  // ---------- The parser itself ----------

  lemma AfterBracket(hp: string, close: nat)
    requires 1 <= close < |hp| && hp[close] == ']'
    ensures "]:" <= hp[close..] <==> close + 1 < |hp| && hp[close + 1] == ':'
    ensures close + 1 < |hp| ==> hp[close..][2..] == hp[close + 2..]
    ensures hp[..close][1..] == hp[1..close]
  {}

  lemma HostInBrackets(userinfo: string, hp: string, close: nat)
    requires "[" <= hp && close == FindFirstOf(hp, {']'}, 0)
    ensures SplitHostPort(userinfo, hp)
            == if close == |hp| then Failure(InvalidIpv6Literal)
               else Success(Authority(userinfo, hp[1..close],
                                      if close + 1 < |hp| && hp[close + 1] == ':' then hp[close + 2..] else ""))
  {
    CutAtFirst(hp, {']'}, close);
    if close < |hp| {
      AfterBracket(hp, close);
    }
  }

  lemma LoneColon(hp: string, first: nat, last: nat)
    requires first == FindFirstOf(hp, {':'}, 0) && last == FindLast(hp, ':')
    ensures first == |hp| <==> last == |hp|
    ensures first < |hp| ==> (':' !in hp[first + 1..] <==> first == last)
  {
    if first < |hp| && first != last {
      assert last < |hp| && hp[first + 1..][last - first - 1] == ':';
    }
  }

  lemma HostBeforeColon(userinfo: string, hp: string, colon: nat)
    requires !("[" <= hp) && colon == FindLast(hp, ':')
    ensures SplitHostPort(userinfo, hp)
            == if colon != |hp| && FindFirstOf(hp, {':'}, 0) == colon then
                 Success(Authority(userinfo, hp[..colon], hp[colon + 1..]))
               else Success(Authority(userinfo, hp, ""))
  {
    ColonCut(hp, colon);
  }

  lemma ColonCut(hp: string, colon: nat)
    requires colon == FindLast(hp, ':')
    ensures var from := From(hp, {':'});
            && (from != "" && ':' !in from[1..] <==> colon != |hp| && FindFirstOf(hp, {':'}, 0) == colon)
            && (from != "" && ':' !in from[1..] ==> Before(hp, {':'}) == hp[..colon] && from[1..] == hp[colon + 1..])
  {
    var first := FindFirstOf(hp, {':'}, 0);
    CutAtFirst(hp, {':'}, first);
    LoneColon(hp, first, colon);
  }

  method ParseHostPort(userinfo: string, authority: string) returns (r: Result<Authority, UrlError>)
    ensures r == SplitHostPort(userinfo, authority)
  {
    var host, port := "", "";
    if authority != "" && authority[0] == '[' {
      var close := FindFirstOf(authority, {']'}, 0);
      HostInBrackets(userinfo, authority, close);
      if close == |authority| {
        return Failure(InvalidIpv6Literal);
      }
      host := authority[1..close];
      if close + 1 < |authority| && authority[close + 1] == ':' {
        port := authority[close + 2..];
      }
    } else {
      var colon := FindLast(authority, ':');
      HostBeforeColon(userinfo, authority, colon);
      if colon != |authority| && FindFirstOf(authority, {':'}, 0) == colon {
        host := authority[..colon];
        port := authority[colon + 1..];
      } else {
        host := authority;
      }
    }
    r := Success(Authority(userinfo, host, port));
  }

  lemma SplitAtSign(a: string, at: nat)
    requires at == FindFirstOf(a, {'@'}, 0)
    ensures SplitAuthority(a) == if at == |a| then SplitHostPort("", a) else SplitHostPort(a[..at], a[at + 1..])
  {
    CutAtFirst(a, {'@'}, at);
  }

  method ParseAuthority(authority0: string) returns (r: Result<Authority, UrlError>)
    ensures r == SplitAuthority(authority0)
  {
    var authority, userinfo := authority0, "";
    var at := FindFirstOf(authority, {'@'}, 0);
    SplitAtSign(authority0, at);
    if at != |authority| {
      userinfo := authority[..at];
      authority := authority[at + 1..];
    }
    r := ParseHostPort(userinfo, authority);
  }

  /** Steps 3 to 5: the cursor stands behind the authority. */
  method ParseTail(uri: string, start: nat, ghost scheme: string, ghost authority: Option<string>)
    returns (path: string, query: string, fragment: string)
    requires start <= |uri|
    ensures var u := SplitTail(scheme, authority, uri[start..]);
            path == (if u.path == "" then "/" else u.path) && query == OrEmpty(u.query)
                && fragment == OrEmpty(u.fragment)
  {
    var i, n := start, |uri|;
    FindFirstOfSuffix(uri, PATH_END, i);
    var pathEnd := FindFirstOf(uri, PATH_END, i);
    path := uri[i..pathEnd];
    i := pathEnd;
    if path == "" {
      path := "/";
    }
    query, fragment := ParseQueryFragment(uri, i);
  }

  method ParseQueryFragment(uri: string, start: nat) returns (query: string, fragment: string)
    requires start <= |uri| && (start < |uri| ==> uri[start] in PATH_END)
    ensures query == OrEmpty(Undelimited(Before(uri[start..], QUERY_END)))
    ensures fragment == OrEmpty(Undelimited(From(uri[start..], QUERY_END)))
  {
    var i, n := start, |uri|;
    query, fragment := "", "";
    ghost var end := FindFirstOf(uri, QUERY_END, start);
    QueryAndFragment(uri, start, end);
    if i < n && uri[i] == '?' {
      i := i + 1;
      var queryEnd := FindFirstOf(uri, QUERY_END, i);
      query := uri[i..queryEnd];
      i := queryEnd;
    }
    if i < n && uri[i] == '#' {
      fragment := uri[i + 1..];
    }
  }

  /** The query and the fragment by position: the query, if there is a `?`, runs to the first `#`. */
  lemma QueryAndFragment(uri: string, start: nat, end: nat)
    requires start <= |uri| && end == FindFirstOf(uri, QUERY_END, start)
    ensures OrEmpty(Undelimited(Before(uri[start..], QUERY_END))) == if start < end then uri[start + 1..end] else ""
    ensures OrEmpty(Undelimited(From(uri[start..], QUERY_END))) == if end < |uri| then uri[end + 1..] else ""
    ensures start < end ==> FindFirstOf(uri, QUERY_END, start + 1) == end
  {
    FindFirstOfSuffix(uri, QUERY_END, start);
    if start < end {
      SliceTail(uri, start, end);
    }
    if end < |uri| {
      DropDrop(uri, end, 1);
    }
  }

  lemma TwoSlashes(uri: string, i: nat)
    requires i <= |uri|
    ensures "//" <= uri[i..] <==> i + 1 < |uri| && uri[i] == '/' && uri[i + 1] == '/'
  {}

  /** Steps 2 to 6: the cursor stands behind the scheme's colon. */
  method ParseHier(scheme: string, uri: string, start: nat, defaultPort: string)
    returns (r: Result<ParsedUrl, UrlError>)
    requires start <= |uri|
    ensures r == FinishHier(SplitHier(scheme, uri[start..]), defaultPort)
  {
    var i, n := start, |uri|;
    var a := Authority("", "", "");
    ghost var authority: Option<string> := None;
    TwoSlashes(uri, i);
    if i + 1 < n && uri[i] == '/' && uri[i + 1] == '/' {
      DropDrop(uri, i, 2);
      i := i + 2;
      FindFirstOfSuffix(uri, AUTHORITY_END, i);
      var authEnd := FindFirstOf(uri, AUTHORITY_END, i);
      authority := Some(uri[i..authEnd]);
      var parsed := ParseAuthority(uri[i..authEnd]);
      if parsed.Failure? {
        return Failure(parsed.error);
      }
      a := parsed.value;
      i := authEnd;
    }
    var path, query, fragment := ParseTail(uri, i, scheme, authority);
    r := Success(ParsedUrl(scheme, a.userinfo, a.host, PortOrDefault(a.port, scheme, defaultPort),
                           path, query, fragment));
  }

  method ParseUrl(uri: string, defaultPort: string := DEFAULT_PORT) returns (r: Result<ParsedUrl, UrlError>)
    ensures r == Parse(uri, defaultPort)
  {
    var i, n := 0, |uri|;
    if n == 0 || !IsAlpha(uri[0]) {
      return Failure(InvalidScheme);
    }
    while i < n && IsSchemeChar(uri[i])
      invariant i <= n && SchemeEnd(uri, i) == SchemeEnd(uri, 0)
    {
      i := i + 1;
    }
    ParseFromColon(uri, i, defaultPort);
    if i >= n || uri[i] != ':' {
      return Failure(MissingColon);
    }
    r := ParseHier(uri[..i], uri, i + 1, defaultPort);
  }

  /** What is left to compute once the cursor stands behind the scheme's characters. */
  lemma ParseFromColon(uri: string, i: nat, defaultPort: string)
    requires uri != "" && IsAlpha(uri[0]) && i == SchemeEnd(uri, 0)
    ensures i == |uri| || uri[i] != ':' ==> Parse(uri, defaultPort) == Failure(MissingColon)
    ensures i < |uri| && uri[i] == ':' ==>
              Parse(uri, defaultPort) == FinishHier(SplitHier(uri[..i], uri[i + 1..]), defaultPort)
  {
    if i < |uri| && uri[i] == ':' {
      assert Split(uri) == Success(SplitHier(uri[..i], uri[i + 1..]));
    } else {
      assert Split(uri) == Failure(MissingColon);
    }
  }

  // ---------- Splitting and recomposing are inverse ----------

  lemma SplitTailRecomposes(scheme: string, authority: Option<string>, tail: string)
    ensures var u := SplitTail(scheme, authority, tail); RecomposeTail(u) == tail && WellSplitTail(u)
    ensures var u := SplitTail(scheme, authority, tail);
            u.path <= tail && (tail == "" || tail[0] in AUTHORITY_END ==> u.path == "" || u.path[0] == '/')
  {
    var u := SplitTail(scheme, authority, tail);
    var more := From(tail, PATH_END);
    assert more == Before(more, QUERY_END) + From(more, QUERY_END);
    assert Delimited("?", u.query) == Before(more, QUERY_END);
    assert Delimited("#", u.fragment) == From(more, QUERY_END);
  }

  /** Accepted input is, in order, its components and their delimiters: nothing is lost or moved. */
  lemma SplitThenRecompose(uri: string)
    requires Split(uri).Success?
    ensures WellSplit(Split(uri).value) && Recompose(Split(uri).value) == uri
  {
    var e := SchemeEnd(uri, 0);
    SchemeOfUri(uri, e);
    RecomposeHier(uri[..e], uri[e + 1..]);
    CutAround(uri, e, ':');
  }

  lemma SchemeOfUri(uri: string, e: nat)
    requires uri != "" && IsAlpha(uri[0]) && e == SchemeEnd(uri, 0) && e < |uri| && uri[e] == ':'
    ensures IsScheme(uri[..e]) && Split(uri) == Success(SplitHier(uri[..e], uri[e + 1..]))
  {}

  lemma RecomposeHier(scheme: string, rest: string)
    requires IsScheme(scheme)
    ensures WellSplit(SplitHier(scheme, rest)) && Recompose(SplitHier(scheme, rest)) == scheme + ([':'] + rest)
  {
    SplitHierRecomposes(scheme, rest);
  }

  lemma AuthorityRecomposes(scheme: string, rest: string)
    requires IsScheme(scheme)
    ensures var u := SplitTail(scheme, Some(Before(rest, AUTHORITY_END)), From(rest, AUTHORITY_END));
            WellSplit(u) && u.scheme == scheme && u.authority == Some(Before(rest, AUTHORITY_END))
            && RecomposeTail(u) == From(rest, AUTHORITY_END)
  {
    SplitTailRecomposes(scheme, Some(Before(rest, AUTHORITY_END)), From(rest, AUTHORITY_END));
  }

  lemma NoAuthorityRecomposes(scheme: string, rest: string)
    requires IsScheme(scheme) && !("//" <= rest)
    ensures WellSplit(SplitTail(scheme, None, rest)) && RecomposeTail(SplitTail(scheme, None, rest)) == rest
  {
    SplitTailRecomposes(scheme, None, rest);
  }

  lemma SplitHierRecomposes(scheme: string, rest: string)
    requires IsScheme(scheme)
    ensures WellSplit(SplitHier(scheme, rest))
    ensures Delimited("//", SplitHier(scheme, rest).authority) + RecomposeTail(SplitHier(scheme, rest)) == rest
    ensures SplitHier(scheme, rest).scheme == scheme
  {
    if "//" <= rest {
      AuthorityRecomposes(scheme, rest[2..]);
      RejoinAuthority(rest);
    } else {
      NoAuthorityRecomposes(scheme, rest);
      assert "" + rest == rest;
    }
  }

  lemma RejoinAuthority(rest: string)
    requires "//" <= rest
    ensures "//" + Before(rest[2..], AUTHORITY_END) + From(rest[2..], AUTHORITY_END) == rest
  {
    DropPrefix("//", rest);
    Assoc("//", Before(rest[2..], AUTHORITY_END), From(rest[2..], AUTHORITY_END));
  }

  lemma SplitTailOfRecomposed(u: RawUrl)
    requires WellSplitTail(u)
    ensures SplitTail(u.scheme, u.authority, RecomposeTail(u)) == u
  {
    var q, f := Delimited("?", u.query), Delimited("#", u.fragment);
    CutAtSeam(u.path, q + f, PATH_END);
    CutAtSeam(q, f, QUERY_END);
  }

  /** Each well-formed list of components is the only reading of its text. */
  lemma RecomposeThenSplit(u: RawUrl)
    requires WellSplit(u)
    ensures Split(Recompose(u)) == Success(u)
  {
    var rest := Delimited("//", u.authority) + RecomposeTail(u);
    SchemeEndIs(u.scheme, ":" + rest);
    SplitHierOfRecomposed(u);
  }

  lemma SplitHierOfRecomposed(u: RawUrl)
    requires WellSplit(u)
    ensures SplitHier(u.scheme, Delimited("//", u.authority) + RecomposeTail(u)) == u
  {
    var tail := RecomposeTail(u);
    SplitTailOfRecomposed(u);
    if u.authority.Some? {
      TailStartsAtEnd(u);
      CutAuthority(u.scheme, u.authority.value, tail);
    } else {
      assert "" + tail == tail;
      TailKeepsNoAuthority(u);
    }
  }

  lemma TailStartsAtEnd(u: RawUrl)
    requires u.path == "" || u.path[0] == '/'
    ensures RecomposeTail(u) == "" || RecomposeTail(u)[0] in AUTHORITY_END
  {
    var q, f := Delimited("?", u.query), Delimited("#", u.fragment);
    assert u.path == "" ==> RecomposeTail(u) == q + f;
    assert u.path == "" && q == "" ==> RecomposeTail(u) == f;
  }

  lemma CutAuthority(scheme: string, authority: string, tail: string)
    requires FreeOf(authority, AUTHORITY_END) && (tail == "" || tail[0] in AUTHORITY_END)
    ensures SplitHier(scheme, "//" + authority + tail) == SplitTail(scheme, Some(authority), tail)
  {
    Assoc("//", authority, tail);
    assert ("//" + (authority + tail))[2..] == authority + tail;
    CutAtSeam(authority, tail, AUTHORITY_END);
  }

  lemma TailKeepsNoAuthority(u: RawUrl)
    requires !("//" <= u.path)
    ensures !("//" <= RecomposeTail(u))
  {
    var tail := RecomposeTail(u);
    if |tail| >= 2 {
      assert tail[0] == '/' && tail[1] == '/' ==> u.path[0] == '/' && u.path[1] == '/';
    }
  }

  lemma SchemeEndIs(scheme: string, rest: string)
    requires IsScheme(scheme) && rest != "" && rest[0] == ':'
    ensures SchemeEnd(scheme + rest, 0) == |scheme|
    ensures (scheme + rest)[..|scheme|] == scheme && (scheme + rest)[|scheme| + 1..] == rest[1..]
  {
    assert (scheme + rest)[|scheme|] == ':';
    assert forall k :: 0 <= k < |scheme| ==> (scheme + rest)[k] == scheme[k];
  }

  /** A scheme is a letter, then letters, digits, plus, minus and full stop: section 3.1 of RFC 3986. */
  lemma SchemeExactly(s: string)
    ensures IsScheme(s) <==>
              && s != "" && !('0' <= s[0] <= '9') && s[0] != '+' && s[0] != '-' && s[0] != '.'
              && forall k :: 0 <= k < |s| ==>
                   || 'a' <= s[k] <= 'z' || 'A' <= s[k] <= 'Z' || '0' <= s[k] <= '9'
                   || s[k] == '+' || s[k] == '-' || s[k] == '.'
  {}

  /** Exactly the strings that are some well-formed list of components get past the first two errors. */
  lemma SplitsExactly(uri: string)
    ensures Split(uri).Success? <==> exists u :: WellSplit(u) && Recompose(u) == uri
    ensures Split(uri) == Failure(InvalidScheme) <==>
              uri == "" || !('a' <= uri[0] <= 'z' || 'A' <= uri[0] <= 'Z')
  {
    if Split(uri).Success? {
      SplitThenRecompose(uri);
    }
    if u :| WellSplit(u) && Recompose(u) == uri {
      RecomposeThenSplit(u);
    }
  }

  /** The part of an authority after its userinfo. */
  function HostPort(a: string): string {
    if From(a, {'@'}) == "" then a else From(a, {'@'})[1..]
  }

  /** The third error is an unclosed bracket in host position, and nothing else. */
  lemma RejectsAuthorityExactly(a: string)
    ensures SplitAuthority(a).Failure? <==> "[" <= HostPort(a) && FreeOf(HostPort(a), {']'})
  {
    NoCut(HostPort(a), {']'});
  }

  // ---------- Printing well-formed components and parsing them back ----------

  datatype Host = Plain(name: string) | Bracketed(name: string)

  datatype Components = Components(scheme: string, userinfo: Option<string>, host: Host, port: Option<string>,
                                   path: string, query: Option<string>, fragment: Option<string>)

  function PrintHost(h: Host): string {
    if h.Plain? then h.name else "[" + h.name + "]"
  }

  function PrintAuthority(c: Components): string {
    (if c.userinfo.Some? then c.userinfo.value + "@" else "") + (PrintHost(c.host) + Delimited(":", c.port))
  }

  function Print(c: Components): string {
    Recompose(RawUrl(c.scheme, Some(PrintAuthority(c)), c.path, c.query, c.fragment))
  }

  ghost predicate WellFormed(c: Components) {
    && IsScheme(c.scheme)
    && (c.userinfo.Some? ==> FreeOf(c.userinfo.value, {'/', '?', '#', '@'}))
    && FreeOf(c.host.name, {'/', '?', '#', '@'})
    && (c.host.Plain? ==> FreeOf(c.host.name, {':'}) && !("[" <= c.host.name))
    && (c.host.Bracketed? ==> FreeOf(c.host.name, {']'}))
    && (c.port.Some? ==> FreeOf(c.port.value, {'/', '?', '#', '@', ':'}))
    && (c.path == "" || c.path[0] == '/') && FreeOf(c.path, PATH_END)
    && (c.query.Some? ==> FreeOf(c.query.value, QUERY_END))
  }

  lemma PlainRoundTrip(userinfo: string, name: string, port: Option<string>)
    requires FreeOf(name, {':'}) && !("[" <= name) && (port.Some? ==> FreeOf(port.value, {':'}))
    ensures SplitHostPort(userinfo, name + Delimited(":", port)) == Success(Authority(userinfo, name, OrEmpty(port)))
  {
    CutAtSeam(name, Delimited(":", port), {':'});
    var hp := name + Delimited(":", port);
    assert hp == if name == "" then Delimited(":", port) else [hp[0]] + hp[1..];
    assert port.Some? ==> Delimited(":", port)[1..] == port.value;
    assert port.None? ==> hp == name;
  }

  lemma BracketedRoundTrip(userinfo: string, name: string, port: Option<string>)
    requires FreeOf(name, {']'})
    ensures SplitHostPort(userinfo, "[" + name + "]" + Delimited(":", port))
            == Success(Authority(userinfo, name, OrEmpty(port)))
  {
    var p := Delimited(":", port);
    Assoc("[" + name, "]", p);
    CutAtSeam("[" + name, "]" + p, {']'});
    assert ("[" + name)[1..] == name;
    assert port.Some? ==> "]" + p == "]:" + port.value && ("]" + p)[2..] == port.value;
  }

  lemma HostPortRoundTrip(userinfo: string, c: Components)
    requires WellFormed(c)
    ensures SplitHostPort(userinfo, PrintHost(c.host) + Delimited(":", c.port))
            == Success(Authority(userinfo, c.host.name, OrEmpty(c.port)))
  {
    if c.host.Plain? {
      PlainRoundTrip(userinfo, c.host.name, c.port);
    } else {
      BracketedRoundTrip(userinfo, c.host.name, c.port);
    }
  }

  lemma HostPortHasNoAt(c: Components)
    requires WellFormed(c)
    ensures FreeOf(PrintHost(c.host) + Delimited(":", c.port), {'@'})
  {}

  lemma AuthorityRoundTrip(c: Components)
    requires WellFormed(c)
    ensures SplitAuthority(PrintAuthority(c)) == Success(Authority(OrEmpty(c.userinfo), c.host.name, OrEmpty(c.port)))
  {
    var hp := PrintHost(c.host) + Delimited(":", c.port);
    HostPortRoundTrip(OrEmpty(c.userinfo), c);
    HostPortHasNoAt(c);
    if c.userinfo.Some? {
      UserinfoCut(c.userinfo.value, hp);
    } else {
      assert PrintAuthority(c) == hp;
      NoCut(hp, {'@'});
    }
  }

  lemma UserinfoCut(userinfo: string, hp: string)
    requires FreeOf(userinfo, {'@'})
    ensures SplitAuthority(userinfo + "@" + hp) == SplitHostPort(userinfo, hp)
  {
    Assoc(userinfo, "@", hp);
    CutAtSeam(userinfo, "@" + hp, {'@'});
    assert ("@" + hp)[1..] == hp;
  }

  /** Parsing the printed form of well-formed components gives the components back;
      only an empty path and an empty port are filled in. */
  lemma PrintParse(c: Components, defaultPort: string)
    requires WellFormed(c)
    ensures Parse(Print(c), defaultPort)
            == Success(ParsedUrl(c.scheme, OrEmpty(c.userinfo), c.host.name,
                                 PortOrDefault(OrEmpty(c.port), c.scheme, defaultPort),
                                 if c.path == "" then "/" else c.path, OrEmpty(c.query), OrEmpty(c.fragment)))
  {
    var u := RawUrl(c.scheme, Some(PrintAuthority(c)), c.path, c.query, c.fragment);
    assert FreeOf(PrintAuthority(c), AUTHORITY_END) by {
      assert FreeOf(PrintHost(c.host), AUTHORITY_END);
      assert FreeOf(Delimited(":", c.port), AUTHORITY_END);
    }
    RecomposeThenSplit(u);
    AuthorityRoundTrip(c);
  }

  /** A port that stands in the URL is the port; only if none stands there, the caller's default counts, and only
      without one of those, the scheme. */
  lemma PortIsGivenOrDefault(c: Components, defaultPort: string)
    requires WellFormed(c)
    ensures Parse(Print(c), defaultPort).Success?
    ensures var port := Parse(Print(c), defaultPort).value.port;
            if c.port.Some? && c.port.value != "" then port == c.port.value
            else if defaultPort != "" then port == defaultPort
            else port == if c.scheme == "https" then "443" else if c.scheme == "http" then "80" else ""
  {
    PrintParse(c, defaultPort);
  }

  /** However a URL is put together from well-formed components, its path, or "/" if that is empty, and its query are
      what the parser finds, and of the fragment nothing is in them. */
  ghost predicate Names(url: string, u: ParsedUrl) {
    forall w :: WellSplit(w) && Recompose(w) == url ==>
      && u.path == (if w.path == "" then "/" else w.path)
      && u.query == (if w.query.Some? then w.query.value else "")
  }

  lemma ParsedIsNamed(url: string)
    requires Parse(url).Success?
    ensures Names(url, Parse(url).value)
  {
    forall w | WellSplit(w) && Recompose(w) == url
      ensures Parse(url).value.path == (if w.path == "" then "/" else w.path)
      ensures Parse(url).value.query == (if w.query.Some? then w.query.value else "")
    {
      RecomposeThenSplit(w);
    }
  }

  /** A URI without `//` behind its scheme is accepted, too: it has no host, and the port that is filled in. */
  lemma WithoutAuthority(w: RawUrl)
    requires WellSplit(w) && w.authority.None?
    ensures var u := Parse(Recompose(w));
            && u.Success? && u.value.scheme == w.scheme && u.value.userinfo == "" && u.value.host == ""
            && u.value.port == "443" && u.value.fragment == if w.fragment.Some? then w.fragment.value else ""
  {
    RecomposeThenSplit(w);
  }

  /** The components of a printed URL, as they stand in the text. */
  function RawOf(c: Components): RawUrl {
    RawUrl(c.scheme, Some(PrintAuthority(c)), c.path, c.query, c.fragment)
  }

  lemma RawIsWellSplit(c: Components)
    requires WellFormed(c)
    ensures WellSplit(RawOf(c)) && Recompose(RawOf(c)) == Print(c)
  {
    assert FreeOf(PrintAuthority(c), AUTHORITY_END) by {
      assert FreeOf(PrintHost(c.host), AUTHORITY_END);
      assert FreeOf(Delimited(":", c.port), AUTHORITY_END);
    }
  }

  /** The declared default port wins over the scheme: the parser's branch for `http` and 80 is never taken. */
  lemma HttpGets443(c: Components)
    requires WellFormed(c) && c.scheme == "http" && OrEmpty(c.port) == ""
    ensures Parse(Print(c)).Success? && Parse(Print(c)).value.port == "443"
  {
    PrintParse(c, DEFAULT_PORT);
  }

  // ---------- When does a parsed host parse back to itself? ----------

  ghost predicate SingleColon(h: string) {
    exists k :: 0 <= k < |h| && h[k] == ':' && forall j :: 0 <= j < |h| && j != k ==> h[j] != ':'
  }

  ghost predicate Reparses(h: string) {
    '@' !in h && !("[" <= h) && !SingleColon(h)
  }

  /** Used as an authority of its own, a host string is read back as that host exactly when it has no `@`,
      no leading bracket, and not exactly one colon. */
  lemma HostReparses(h: string)
    ensures (SplitAuthority(h).Success? && SplitAuthority(h).value.host == h) <==> Reparses(h)
  {
    NoCut(h, {'@'});
    if '@' in h {
      AfterAtIsShorter(h);
      HostNoLonger(Before(h, {'@'}), From(h, {'@'})[1..]);
    } else {
      HostPortReparses(h);
    }
  }

  lemma AfterAtIsShorter(h: string)
    requires '@' in h
    ensures From(h, {'@'}) != "" && |From(h, {'@'})[1..]| < |h|
  {
    NoCut(h, {'@'});
  }

  lemma HostNoLonger(userinfo: string, hp: string)
    ensures SplitHostPort(userinfo, hp).Success? ==> |SplitHostPort(userinfo, hp).value.host| <= |hp|
  {}

  lemma HostPortReparses(h: string)
    ensures (SplitHostPort("", h).Success? && SplitHostPort("", h).value.host == h) <==> !("[" <= h) && !SingleColon(h)
  {
    var colon := From(h, {':'});
    if "[" <= h {
      assert |Before(h, {']'})| <= |h|;
    } else if colon != "" && ':' !in colon[1..] {
      SingleColonFound(Before(h, {':'}), colon);
    }
  }

  lemma SingleColonFound(a: string, b: string)
    requires FreeOf(a, {':'}) && ":" <= b && ':' !in b[1..]
    ensures SingleColon(a + b)
  {
    var h := a + b;
    assert h[|a|] == ':';
    forall j | 0 <= j < |h| && j != |a| ensures h[j] != ':' {
      if j > |a| {
        assert h[j] == b[1..][j - |a| - 1];
      }
    }
  }
}
