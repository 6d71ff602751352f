/** What the error of a result says about the fetch, for every way in which it can fail. */
module FetchErrors {
  import opened Http2Client
  import opened Lifecycle
  import opened PageFetch
  import opened PageLoop
  import opened PageResults
  import opened Scheduler
  import opened SingleFetch
  import opened UrlParser
  import opened Wrappers

  /** A proxy is used, and its target port is none. */
  ghost predicate PortRefused(opt: Options, u: ParsedUrl) {
    opt.proxy && !(1 <= LeadingInt(u.port, 0) <= 65535)
  }

  /** The way to the server is open up to the TLS setup. */
  ghost predicate TlsReached(env: Environment, k: nat, opt: Options, u: ParsedUrl) {
    env.connects(k) && !PortRefused(opt, u) && (opt.proxy ==> env.proxies(k + 1))
  }

  ghost function TlsAt(k: nat, opt: Options): nat {
    if opt.proxy then k + 2 else k + 1
  }

  /** The protocol agreed on, if the TLS handshake succeeds. */
  ghost function Agreed(env: Environment, k: nat, opt: Options): Option<string> {
    env.handshakes(TlsAt(k, opt) + 1)
  }

  /** Why a hop makes no request, on a new connection for a URL that was parsed: each error names the first step that
      fails, and there is none exactly if all succeed and the protocol agreed on is h2. Only a plain fetch tells a bad
      port from a refused tunnel. */
  ghost predicate NewLineError(env: Environment, k: nat, opt: Options, u: ParsedUrl, page: bool, e: Problem) {
    && (e == NotConnected <==> !env.connects(k))
    && (e == InvalidPort <==> env.connects(k) && PortRefused(opt, u) && !page)
    && (e == ProxyRefused <==>
          env.connects(k) && (if PortRefused(opt, u) then page else opt.proxy && !env.proxies(k + 1)))
    && (e == TlsUnavailable <==> TlsReached(env, k, opt, u) && !env.tlsInits(TlsAt(k, opt)))
    && (e == TlsRefused <==>
          TlsReached(env, k, opt, u) && env.tlsInits(TlsAt(k, opt)) && Agreed(env, k, opt).None?)
    && (e == Fine <==> TlsReached(env, k, opt, u) && env.tlsInits(TlsAt(k, opt)) && Agreed(env, k, opt) == Some("h2"))
    && (e.Unsupported? <==> TlsReached(env, k, opt, u) && env.tlsInits(TlsAt(k, opt)) && Agreed(env, k, opt).Some?
                            && Agreed(env, k, opt).value != "h2")
    && (e.Unsupported? ==> Some(e.protocol) == Agreed(env, k, opt))
  }

  lemma HopErrorExactly(env: Environment, k: nat, opt: Options, u: Parsed, reused: bool, page: bool)
    ensures var e := HopError(env, k, opt, u, reused, page);
            && (e == UrlUnparsed <==> u.Failure?)
            && (u.Success? && reused ==> e == Fine)
            && (u.Success? && !reused ==> NewLineError(env, k, opt, u.value, page, e))
  {
    if u.Success? {
      WayExactly(env, k, opt, u.value);
    }
  }

  /** The error of a plain fetch, by what became of its last turn: no turn at all or no answer, a refused request, a
      timeout, or what kept the turn from a request. */
  lemma PlainError(env: Environment, opt: Options, url: string, f: Fetched, hops: seq<HopRecord>)
    requires PlainFetch(env, opt, url, f, hops)
    ensures hops == [] ==> f.error == NoAnswer
    ensures hops != [] ==>
              var r := hops[|hops| - 1];
              && (r.outcome.None? ==> f.error == HopError(env, r.begun, opt, Parse(r.url), r.reused, false) != Fine)
              && (r.outcome.Some? ==>
                    && (f.error == NotSubmitted <==> r.sid < 0)
                    && (f.error == TooSlow <==> r.outcome.value.TimedOut?)
                    && (f.error == NoAnswer <==> r.outcome.value.Redirected? || r.outcome.value.Silent?)
                    && (f.error == Fine <==> r.outcome.value.Answered?))
  {
    if hops != [] {
      assert Recorded(env, opt)(hops[|hops| - 1]);
    }
  }

  /** The error of a page hop that was never run: what kept it from a request, or the refusal of the one it made. */
  lemma StopErrorExactly(env: Environment, k: nat, opt: Options, u: Parsed, reused: bool)
    ensures var e, s := HopError(env, k, opt, u, reused, true), StopError(env, k, opt, u, reused);
            (s == NotSubmitted <==> e == Fine) && (e != Fine ==> s == e)
  {
    HopErrorExactly(env, k, opt, u, reused, true);
  }

  /** A page fetch that finishes is ok exactly if the page of one of its hops arrived, and otherwise says that nothing
      was captured. */
  lemma FinishedError(env: Environment, opt: Options, pages: seq<PageRecord>, end: PageEnd, primary: Fetched,
                      also: seq<Fetched>)
    requires PageFetched(env, opt, pages, end, primary, also) && end.Finished?
    ensures primary.ok <==> SomePageArrived(env.dec, pages)
    ensures primary.error == if SomePageArrived(env.dec, pages) then Fine else NothingCaptured
  {
    PageOfHops(env, opt, pages);
  }

  /** No page fetch makes more hops than the caller allows; one that has made them all and is still redirected says so,
      and so does one that is allowed none. */
  lemma HopsAllowed(env: Environment, opt: Options, pages: seq<PageRecord>, end: PageEnd, primary: Fetched,
                    also: seq<Fetched>)
    requires PageFetched(env, opt, pages, end, primary, also)
    ensures if opt.maxRedirects <= 0 then pages == [] && end == LimitHit else |pages| <= opt.maxRedirects
    ensures end == LimitHit <==> primary.error == TooManyRedirects
    ensures end == LimitHit && opt.maxRedirects > 0 ==> |pages| == opt.maxRedirects
  {
    PageOfHops(env, opt, pages);
    if end.NoRequest? {
      StopErrorExactly(env, end.k, opt, Parse(NextUrl(env.dec, opt, pages)), end.reused);
      HopErrorExactly(env, end.k, opt, Parse(NextUrl(env.dec, opt, pages)), end.reused, true);
    }
  }
}
