/** What the requests of a batch ask for, whichever turn, hop or page made them. */
module Requests {
  import opened Http2Client
  import opened Lifecycle
  import opened PageFetch
  import opened PageHop
  import opened PageLoop
  import opened PageRun
  import opened Scheduler
  import opened SingleFetch
  import opened SubresourceScanner
  import opened Targets
  import opened UrlParser
  import opened Wrappers

  /** Every request asks for what its URL names, and is for the host there. */
  ghost predicate AllHonest(asked: seq<Asked>) {
    forall i :: 0 <= i < |asked| ==> Honest(asked[i].entry)
  }

  lemma BothHonest(a: seq<Asked>, b: seq<Asked>)
    requires AllHonest(a) && AllHonest(b)
    ensures AllHonest(a + b)
  {}

  /** The turn's URL is the one that was parsed. */
  ghost predicate ReadsItsUrl(r: HopRecord) {
    r.parsed == Parse(r.url)
  }

  lemma TurnIsHonest(r: HopRecord)
    requires ReadsItsUrl(r)
    ensures AllHonest(RequestOf(r))
  {
    if r.outcome.Some? && r.parsed.Success? {
      ParsedIsHonest(r.parsed.value.host, false, r.url, r.sid);
    }
  }

  lemma {:induction false} TurnsAreHonest(hops: seq<HopRecord>)
    requires forall i :: 0 <= i < |hops| ==> ReadsItsUrl(hops[i])
    ensures AllHonest(RequestsOf(hops))
    decreases |hops|
  {
    if hops != [] {
      var n := |hops| - 1;
      TurnsAreHonest(hops[..n]);
      TurnIsHonest(hops[n]);
      BothHonest(RequestsOf(hops[..n]), RequestOf(hops[n]));
    }
  }

  /** Whatever a plain fetch comes to, each of its requests asks for what its URL names. */
  lemma PlainIsHonest(env: Environment, opt: Options, url: string, f: Fetched, hops: seq<HopRecord>)
    requires PlainFetch(env, opt, url, f, hops)
    ensures AllHonest(RequestsOf(hops))
  {
    forall i | 0 <= i < |hops| ensures ReadsItsUrl(hops[i]) {
      assert Recorded(env, opt)(hops[i]);
    }
    TurnsAreHonest(hops);
  }

  lemma {:induction false} RunsAreHonest(runs: seq<FetchRun>)
    requires forall i :: 0 <= i < |runs| ==> AllHonest(RequestsOf(runs[i].hops))
    ensures AllHonest(RequestsOfRuns(runs))
    decreases |runs|
  {
    if runs != [] {
      var n := |runs| - 1;
      RunsAreHonest(runs[..n]);
      BothHonest(RequestsOfRuns(runs[..n]), RequestsOf(runs[n].hops));
    }
  }

  lemma ExtrasAreHonest(env: Environment, opt: Options, items: seq<Item>, next: int, added: seq<Fetched>,
                        runs: seq<FetchRun>)
    requires Extras(Fit(env, opt), items, next, added, runs)
    ensures AllHonest(RequestsOfRuns(runs))
  {
    forall i | 0 <= i < |runs| ensures AllHonest(RequestsOf(runs[i].hops)) {
      assert Fit(env, opt)(items[i], next + i, added[i], runs[i].hops);
      PlainIsHonest(env, opt, items[i].url, added[i], runs[i].hops);
    }
    RunsAreHonest(runs);
  }

  /** The submissions of a connection from the `base`-th on. */
  ghost predicate HonestFrom(log: seq<Submission>, base: nat) {
    forall i :: base <= i < |log| ==> Honest(log[i])
  }

  lemma ContinuesHonest(x: Context, base: nat, log: seq<Submission>, log2: seq<Submission>)
    requires Continues(x, log, log2) && HonestFrom(log, base)
    ensures HonestFrom(log2, base)
  {
    forall i | base <= i < |log2| ensures Honest(log2[i]) {
      if i < |log| {
        assert log2[i] == log[i];
      }
    }
  }

  lemma HonestTagged(conn: int, log: seq<Submission>, base: nat)
    requires HonestFrom(log, base)
    ensures AllHonest(Tagged(conn, log[MinLength(base, log)..]))
  {}

  lemma HonestPageRequest(x: Context, u: ParsedUrl)
    requires Parse(x.pageUrl) == Success(u)
    ensures Honest(PageRequest(x, u))
  {
    ParsedIsHonest(x.clientHost, false, x.pageUrl, x.primarySid);
  }

  lemma OneHonest(log: seq<Submission>, base: nat)
    requires |log| == base + 1 && Honest(log[base])
    ensures HonestFrom(log, base)
  {}

  lemma PageRequestIsHonest(opt: Options, url: string, primary: Fetched, also: seq<Fetched>, r: PageRecord)
    requires PageStart(opt, url, primary, also, r) && Parse(url) == Success(r.on.u)
    ensures HonestFrom(r.start.log, r.base)
  {
    HonestPageRequest(r.x, r.on.u);
    OneHonest(r.start.log, r.base);
  }

  /** The requests of one page hop: the page's own, and all that the scheduler made. */
  lemma PageHopIsHonest(dec: Decoders, opt: Options, url: string, primary: Fetched, also: seq<Fetched>, r: PageRecord)
    requires PageStart(opt, url, primary, also, r) && Parse(url) == Success(r.on.u)
    ensures AllHonest(PageRequests(dec, r))
  {
    PageRequestIsHonest(opt, url, primary, also, r);
    RunContinues(r.x, dec, r.start, r.events);
    ContinuesHonest(r.x, r.base, r.start.log, EndHop(dec, r).log);
    HonestTagged(r.on.conn, EndHop(dec, r).log, r.base);
  }

  lemma {:induction false} LinkedAreHonest(begins: PageRecord -> bool, follows: (PageRecord, PageRecord) -> bool,
                                           dec: Decoders, pages: seq<PageRecord>)
    requires Linked(begins, follows, pages)
    requires forall r :: begins(r) ==> AllHonest(PageRequests(dec, r))
    requires forall p, r :: follows(p, r) ==> AllHonest(PageRequests(dec, r))
    ensures AllHonest(RequestsOfPages(dec, pages))
    decreases |pages|
  {
    if pages != [] {
      var before, last := pages[..|pages| - 1], pages[|pages| - 1];
      LinkedAreHonest(begins, follows, dec, before);
      BothHonest(RequestsOfPages(dec, before), PageRequests(dec, last));
    }
  }

  lemma FirstIsHonest(env: Environment, opt: Options, r: PageRecord)
    requires Begins(env, opt)(r)
    ensures AllHonest(PageRequests(env.dec, r))
  {
    PageHopIsHonest(env.dec, opt, opt.url, NO_FETCH, [], r);
  }

  lemma FollowingIsHonest(env: Environment, opt: Options, p: PageRecord, r: PageRecord)
    requires Follows(env, opt)(p, r)
    ensures AllHonest(PageRequests(env.dec, r))
  {
    var t := EndHop(env.dec, p);
    PageHopIsHonest(env.dec, opt, t.c.redirectUrl, t.s.primary, t.s.also, r);
  }

  lemma PagesAreHonest(env: Environment, opt: Options, pages: seq<PageRecord>)
    requires PageChain(env, opt, pages)
    ensures AllHonest(RequestsOfPages(env.dec, pages))
  {
    forall r | Begins(env, opt)(r) ensures AllHonest(PageRequests(env.dec, r)) {
      FirstIsHonest(env, opt, r);
    }
    forall p, r | Follows(env, opt)(p, r) ensures AllHonest(PageRequests(env.dec, r)) {
      FollowingIsHonest(env, opt, p, r);
    }
    LinkedAreHonest(Begins(env, opt), Follows(env, opt), env.dec, pages);
  }

  lemma RefusedIsHonest(url: string, refused: seq<Asked>)
    requires RefusedFor(url, Parse(url), refused)
    ensures AllHonest(refused)
  {
    ParsedIsHonest(Parse(url).value.host, false, url, refused[0].entry.sid);
  }

  /** Whatever a page fetch comes to, each of its requests asks for what its URL names: those for the page, those of the
      scheduler, one that was refused, and those for what remains. */
  lemma PageFetchIsHonest(env: Environment, opt: Options, pages: seq<PageRecord>, end: PageEnd, primary: Fetched,
                          also: seq<Fetched>)
    requires PageFetched(env, opt, pages, end, primary, also)
    ensures AllHonest(RequestsOfPages(env.dec, pages) + RequestsOfEnd(end))
  {
    PagesAreHonest(env, opt, pages);
    match end {
      case NoRequest(e, k, reused, refused) =>
        if e == NotSubmitted {
          RefusedIsHonest(NextUrl(env.dec, opt, pages), refused);
        }
      case Finished(added, runs) =>
        var s := EndHop(env.dec, pages[|pages| - 1]).s;
        ExtrasAreHonest(env, opt, Remaining(opt, s.pending, s.also), s.nextSeq, added, runs);
      case _ =>
    }
    BothHonest(RequestsOfPages(env.dec, pages), RequestsOfEnd(end));
  }
}
