/** What a request asks the server for: the path and the query of its URL. */
module Targets {
  import opened Http2Client
  import opened UrlParser
  import opened Wrappers

  /** The request's target, section 8.3.1 of RFC 9113: the path, "/" if it is empty, then "?" and the query if
      that is not empty. */
  ghost predicate Asks(target: string, path: string, query: Option<string>) {
    target == (if path == "" then "/" else path)
              + (if query.Some? && query.value != "" then "?" + query.value else "")
  }

  /** The request asks for what its URL names, however that URL is put together, and it is for the host there. */
  ghost predicate Honest(e: Submission) {
    && (forall w :: WellSplit(w) && Recompose(w) == e.url ==> Asks(e.target, w.path, w.query))
    && (forall c :: WellFormed(c) && Print(c) == e.url ==> e.host == c.host.name)
  }

  /** What is submitted for a URL asks for what the URL names. */
  lemma SubmitAsks(host: string, goaway: bool, url: string, u: ParsedUrl, sid: int)
    requires Names(url, u)
    ensures var e := Submit(host, goaway, url, u, sid);
            forall w :: WellSplit(w) && Recompose(w) == e.url ==> Asks(e.target, w.path, w.query)
  {
    var e := Submit(host, goaway, url, u, sid);
    forall w | WellSplit(w) && Recompose(w) == e.url ensures Asks(e.target, w.path, w.query) {
      assert u.path == (if w.path == "" then "/" else w.path);
      assert u.path + "" == u.path;
    }
  }

  lemma ParsedIsHonest(host: string, goaway: bool, url: string, sid: int)
    requires Parse(url).Success?
    ensures Honest(Submit(host, goaway, url, Parse(url).value, sid))
  {
    ParsedIsNamed(url);
    SubmitAsks(host, goaway, url, Parse(url).value, sid);
    forall c | WellFormed(c) && Print(c) == url ensures Parse(url).value.host == c.host.name {
      PrintParse(c, DEFAULT_PORT);
    }
  }

  /** For a URL printed from its components: the request is for the printed host, path and query, and never for the
      fragment. */
  lemma HonestAsksForComponents(e: Submission, c: Components)
    requires Honest(e) && WellFormed(c) && e.url == Print(c)
    ensures e.host == c.host.name && Asks(e.target, c.path, c.query)
  {
    RawIsWellSplit(c);
  }
}
