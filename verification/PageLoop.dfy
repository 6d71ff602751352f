/** A page fetch from its first hop to its end: the redirects between hops, and what is fetched after the page. */
module PageLoop {
  import opened Http2Client
  import opened Lifecycle
  import opened PageFetch
  import opened PageHop
  import opened PageRun
  import opened Scheduler
  import opened SchedulerInvariant
  import opened SchedulerResults
  import opened SingleFetch
  import opened SubresourceScanner
  import opened UrlParser
  import opened Wrappers

  // ---------- What is fetched after the page ----------

  function Manual(urls: seq<string>): seq<Item> {
    seq(|urls|, i requires 0 <= i < |urls| => Item(urls[i], "manual"))
  }

  function FinalUrls(also: seq<Fetched>): set<string> {
    set f | f in also :: f.finalUrl
  }

  /** What is left to fetch after the page: the queue and the manual URLs, without what the page already fetched. */
  function Remaining(opt: Options, pending: seq<Item>, streamed: seq<Fetched>): seq<Item> {
    Filter(pending, NotIn(FinalUrls(streamed))) + Filter(Manual(opt.alsoFetch), NotIn(FinalUrls(streamed)))
  }

  lemma ExtrasConcat(fit: Fitting, a: seq<Item>, b: seq<Item>, next: int, fa: seq<Fetched>, fb: seq<Fetched>,
                     ra: seq<FetchRun>, rb: seq<FetchRun>)
    requires Extras(fit, a, next, fa, ra) && Extras(fit, b, next + |fa|, fb, rb)
    ensures Extras(fit, a + b, next, fa + fb, ra + rb)
  {
    var items, added, runs := a + b, fa + fb, ra + rb;
    forall i | 0 <= i < |items|
      ensures fit(items[i], next + i, added[i], runs[i].hops) && added[i].requestSeq == next + i
    {
      if i >= |a| {
        var k := i - |a|;
        assert fit(b[k], next + |fa| + k, fb[k], rb[k].hops);
      }
    }
  }

  lemma RemainingExtras(opt: Options, pending: seq<Item>, streamed: seq<Fetched>, fit: Fitting, next: int,
                        first: seq<Fetched>, second: seq<Fetched>, ra: seq<FetchRun>, rb: seq<FetchRun>)
    requires Extras(fit, Filter(pending, NotIn(FinalUrls(streamed))), next, first, ra)
    requires Extras(fit, Filter(Manual(opt.alsoFetch), NotIn(FinalUrls(streamed))), next + |first|, second, rb)
    ensures Extras(fit, Remaining(opt, pending, streamed), next, first + second, ra + rb)
    ensures streamed + first + second == streamed + (first + second)
  {
    ExtrasConcat(fit, Filter(pending, NotIn(FinalUrls(streamed))),
                 Filter(Manual(opt.alsoFetch), NotIn(FinalUrls(streamed))),
                 next, first, second, ra, rb);
  }

  /** A page result that is neither ok nor an error becomes an error. */
  function Reported(f: Fetched): Fetched {
    if !f.ok && f.error == Fine then f.(error := NothingCaptured) else f
  }

  method FinishPage(world: World, conn: ConnectionState, opt: Options, batch: Batch, pending: seq<Item>, next0: int)
    returns (ghost added: seq<Fetched>, ghost runs: seq<FetchRun>)
    requires Owns(world, conn) && AllGood(world)
    modifies world, conn, conn.client, batch
    ensures Owns(world, conn) && AllGood(world)
    ensures batch.primary == Reported(old(batch.primary))
    ensures batch.also == old(batch.also) + added
    ensures Extras(Fit(world.env, opt), Remaining(opt, pending, old(batch.also)), next0, added, runs)
    ensures OneByOne(Sound(), old(Now(world, conn)), runs, Now(world, conn))
  {
    if !batch.primary.ok && batch.primary.error == Fine {
      batch.primary := batch.primary.(error := NothingCaptured);
    }
    added, runs := FetchRemaining(world, conn, opt, batch, pending, next0);
  }

  method FetchRemaining(world: World, conn: ConnectionState, opt: Options, batch: Batch, pending: seq<Item>, next0: int)
    returns (ghost added: seq<Fetched>, ghost runs: seq<FetchRun>)
    requires Owns(world, conn) && AllGood(world)
    modifies world, conn, conn.client, batch`also
    ensures Owns(world, conn) && AllGood(world)
    ensures batch.also == old(batch.also) + added
    ensures Extras(Fit(world.env, opt), Remaining(opt, pending, old(batch.also)), next0, added, runs)
    ensures OneByOne(Sound(), old(Now(world, conn)), runs, Now(world, conn))
  {
    var fetched := FinalUrls(batch.also);
    ghost var from, streamed := Now(world, conn), batch.also;
    var next;
    ghost var first, second, ra, rb;
    next, first, ra := FetchExtras(world, conn, opt, batch, pending, fetched, next0);
    ghost var mid := Now(world, conn);
    next, second, rb := FetchExtras(world, conn, opt, batch, Manual(opt.alsoFetch), fetched, next);
    added, runs := first + second, ra + rb;
    RemainingExtras(opt, pending, streamed, Fit(world.env, opt), next0, first, second, ra, rb);
    RunsThenRuns(Sound(), from, ra, mid, rb, Now(world, conn));
  }

  // ---------- The hops of a page fetch ----------

  /** The frames of the hop are those that its loop saw of what the environment delivered. */
  ghost predicate Heard(env: Environment, opt: Options, r: PageRecord) {
    r.events == Seen(r.x, env.dec, r.start, env.receives(r.tick), opt.timeout)
  }

  /** The URL that the hop redirects to is the Location of the last redirect among its frames, whatever its stream. */
  ghost predicate RedirectExplained(dec: Decoders, r: PageRecord) {
    EndsOnce(r.events) ==> EndHop(dec, r).c.redirectUrl == RedirectedTo(r.x.clientHost, r.events, |r.events|)
  }

  lemma HopIsExplained(dec: Decoders, opt: Options, url: string, primary: Fetched, also: seq<Fetched>, r: PageRecord)
    requires PageStart(opt, url, primary, also, r)
    ensures RedirectExplained(dec, r)
  {
    if EndsOnce(r.events) {
      HopRedirectedTo(r.x, dec, r.start, r.events, |r.events|);
      assert r.events[..|r.events|] == r.events;
    }
  }

  /** The page hops in order: the first asks for the caller's URL with nothing recorded; each further one asks for
      the URL the one before was redirected to, at once, and keeps what had been recorded. */
  ghost predicate PageChain(env: Environment, opt: Options, pages: seq<PageRecord>) {
    Linked(Begins(env, opt), Follows(env, opt), pages)
  }

  ghost predicate Linked(begins: PageRecord -> bool, follows: (PageRecord, PageRecord) -> bool,
                         pages: seq<PageRecord>) {
    pages == [] ||
    (var before, last := pages[..|pages| - 1], pages[|pages| - 1];
     && Linked(begins, follows, before)
     && if before == [] then begins(last) else follows(before[|before| - 1], last))
  }

  ghost function Begins(env: Environment, opt: Options): PageRecord -> bool {
    (r: PageRecord) => PageStart(opt, opt.url, NO_FETCH, [], r) && HopTold(env, opt, r)
  }

  ghost function Follows(env: Environment, opt: Options): (PageRecord, PageRecord) -> bool {
    (p: PageRecord, q: PageRecord) => PageFollows(env, opt, p, q) && HopTold(env, opt, q)
  }

  lemma LinkedOneMore(begins: PageRecord -> bool, follows: (PageRecord, PageRecord) -> bool, pages: seq<PageRecord>,
                      r: PageRecord)
    requires Linked(begins, follows, pages) && if pages == [] then begins(r) else follows(pages[|pages| - 1], r)
    ensures Linked(begins, follows, pages + [r])
  {
    assert (pages + [r])[..|pages|] == pages;
  }

  lemma {:induction false} LinkedUpTo(begins: PageRecord -> bool, follows: (PageRecord, PageRecord) -> bool,
                                      pages: seq<PageRecord>, n: nat)
    requires Linked(begins, follows, pages) && n <= |pages|
    ensures Linked(begins, follows, pages[..n])
    decreases |pages|
  {
    if n < |pages| {
      LinkedUpTo(begins, follows, pages[..|pages| - 1], n);
      assert pages[..|pages| - 1][..n] == pages[..n];
    } else {
      assert pages[..n] == pages;
    }
  }

  lemma LinkedAt(begins: PageRecord -> bool, follows: (PageRecord, PageRecord) -> bool, pages: seq<PageRecord>, n: nat)
    requires Linked(begins, follows, pages) && n < |pages|
    ensures if n == 0 then begins(pages[0]) else follows(pages[n - 1], pages[n])
  {
    LinkedUpTo(begins, follows, pages, n + 1);
    assert pages[..n + 1][..n] == pages[..n];
  }

  /** What every hop tells of itself. */
  ghost predicate HopTold(env: Environment, opt: Options, r: PageRecord) {
    Heard(env, opt, r) && RedirectExplained(env.dec, r) && Stands(r) && Parse(r.x.pageUrl) == Success(r.on.u)
  }

  ghost predicate PageFollows(env: Environment, opt: Options, p: PageRecord, q: PageRecord) {
    var t := EndHop(env.dec, p);
    && t.c.redirectUrl != "" && PageStart(opt, t.c.redirectUrl, t.s.primary, t.s.also, q)
    && q.on.begun == EndedAt(env.dec, p)
  }

  /** What is recorded after the hops so far, and the URL to ask for next. */
  function RecordedSoFar(dec: Decoders, pages: seq<PageRecord>): (Fetched, seq<Fetched>) {
    if pages == [] then (NO_FETCH, [])
    else
      var t := EndHop(dec, pages[|pages| - 1]);
      (t.s.primary, t.s.also)
  }

  function NextUrl(dec: Decoders, opt: Options, pages: seq<PageRecord>): string {
    if pages == [] then opt.url else EndHop(dec, pages[|pages| - 1]).c.redirectUrl
  }

  /** The moment after the hops so far, if each was redirected. */
  function MomentAfter(dec: Decoders, from: Moment, pages: seq<PageRecord>): Moment {
    if pages == [] then from else EndedAt(dec, pages[|pages| - 1])
  }

  /** How a page fetch ends: the limit is hit, the next hop makes no request or has it refused, the last hop times
      out, or the page is done. For a hop without a run, `k` and `reused` say what it began with. */
  datatype PageEnd =
    | LimitHit
    | NoRequest(error: Problem, k: nat, reused: bool, refused: seq<Asked>)
    | LoopTimedOut
    | Finished(added: seq<Fetched>, runs: seq<FetchRun>)

  /** The state of the page loop before its next turn. */
  ghost predicate PageFollowing(env: Environment, opt: Options, target: string, pages: seq<PageRecord>,
                                primary: Fetched, also: seq<Fetched>) {
    && PageChain(env, opt, pages) && (primary, also) == RecordedSoFar(env.dec, pages)
    && target == NextUrl(env.dec, opt, pages) && (pages != [] ==> target != "")
  }

  function Limit(opt: Options): nat {
    if opt.maxRedirects > 0 then opt.maxRedirects else 0
  }

  /** What a page fetch returns, told from its hops and its end. */
  ghost predicate PageFetched(env: Environment, opt: Options, pages: seq<PageRecord>, end: PageEnd,
                              primary: Fetched, also: seq<Fetched>) {
    var (p, a) := RecordedSoFar(env.dec, pages);
    && PageChain(env, opt, pages) && |pages| <= Limit(opt)
    && match end
       case LimitHit =>
         && |pages| == Limit(opt) && (pages != [] ==> NextUrl(env.dec, opt, pages) != "")
         && primary == p.(error := TooManyRedirects) && also == a
       case NoRequest(e, k, reused, refused) =>
         && |pages| < Limit(opt) && (pages != [] ==> NextUrl(env.dec, opt, pages) != "")
         && primary == p.(error := e) && also == a
         && e == StopError(env, k, opt, Parse(NextUrl(env.dec, opt, pages)), reused)
         && (if e == NotSubmitted
             then RefusedFor(NextUrl(env.dec, opt, pages), Parse(NextUrl(env.dec, opt, pages)), refused)
             else refused == [])
       case LoopTimedOut =>
         && pages != [] && EndHop(env.dec, pages[|pages| - 1]).c.running
         && primary == p.(error := TooSlow) && also == a
       case Finished(added, runs) => PageIsDone(env, opt, pages, added, runs, primary, also)
  }

  /** The last hop ended without a redirect; its result is kept if it is one, and the remaining URLs are fetched. */
  ghost predicate PageIsDone(env: Environment, opt: Options, pages: seq<PageRecord>, added: seq<Fetched>,
                             runs: seq<FetchRun>, primary: Fetched, also: seq<Fetched>) {
    && pages != []
    && var t := EndHop(env.dec, pages[|pages| - 1]);
       && t.c.redirectUrl == ""
       && primary == Reported(t.s.primary)
       && also == t.s.also + added
       && Extras(Fit(env, opt), Remaining(opt, t.s.pending, t.s.also), t.s.nextSeq, added, runs)
  }

  /** What a page fetch leaves in the world: hop follows upon hop, and the end upon the last, from one moment to
      another. */
  ghost predicate PageTraced(dec: Decoders, from: Moment, pages: seq<PageRecord>, end: PageEnd, to: Moment) {
    var now := MomentAfter(dec, from, pages);
    && BeginsAt(from, pages)
    && match end
       case LimitHit => to == now
       case NoRequest(_, k, _, refused) => k == now.tick <= to.tick && to.asked == now.asked + refused
       case LoopTimedOut => to == now.(line := to.line)
       case Finished(_, runs) => OneByOne(Sound(), now, runs, to)
  }

  ghost predicate BeginsAt(from: Moment, pages: seq<PageRecord>) {
    pages != [] ==> pages[0].on.begun == from
  }

  lemma PageChainOneMore(env: Environment, opt: Options, pages: seq<PageRecord>, rec: PageRecord)
    requires PageChain(env, opt, pages) && HopTold(env, opt, rec)
    requires if pages == [] then PageStart(opt, opt.url, NO_FETCH, [], rec)
             else PageFollows(env, opt, pages[|pages| - 1], rec)
    ensures PageChain(env, opt, pages + [rec])
  {
    LinkedOneMore(Begins(env, opt), Follows(env, opt), pages, rec);
  }

  /** A turn with a run, in terms of where the run ended. */
  ghost predicate TurnEnded(env: Environment, opt: Options, url: string, primary: Fetched, also: seq<Fetched>,
                            outcome: PageOutcome, rec: PageRecord, primary2: Fetched, also2: seq<Fetched>) {
    && PageStart(opt, url, primary, also, rec) && Heard(env, opt, rec) && RedirectExplained(env.dec, rec)
    && EndOf(EndHop(env.dec, rec), outcome, primary2, also2)
  }

  lemma TurnWithRun(env: Environment, opt: Options, url: string, primary: Fetched, also: seq<Fetched>,
                    outcome: PageOutcome, rec: PageRecord, primary2: Fetched, also2: seq<Fetched>)
    requires PageTurn(env, opt, url, primary, also, outcome, Some(rec), primary2, also2)
    ensures TurnEnded(env, opt, url, primary, also, outcome, rec, primary2, also2)
  {
    RanToEnd(env.dec, opt.timeout, env.receives(rec.tick), rec, outcome, primary2, also2);
    HopIsExplained(env.dec, opt, url, primary, also, rec);
  }

  /** A turn that comes upon the hops so far. */
  ghost predicate Next(dec: Decoders, u: Parsed, pages: seq<PageRecord>, rec: PageRecord) {
    u == Success(rec.on.u) && Stands(rec) && (pages != [] ==> rec.on.begun == EndedAt(dec, pages[|pages| - 1]))
  }

  lemma ChainOfTurn(env: Environment, opt: Options, target: string, pages: seq<PageRecord>, primary: Fetched,
                    also: seq<Fetched>, outcome: PageOutcome, rec: PageRecord, primary2: Fetched, also2: seq<Fetched>)
    requires PageFollowing(env, opt, target, pages, primary, also) && Next(env.dec, Parse(target), pages, rec)
    requires TurnEnded(env, opt, target, primary, also, outcome, rec, primary2, also2)
    ensures PageChain(env, opt, pages + [rec])
  {
    PageChainOneMore(env, opt, pages, rec);
  }

  lemma TurnWithoutRun(env: Environment, opt: Options, target: string, pages: seq<PageRecord>, primary: Fetched,
                       also: seq<Fetched>, e: Problem, k: nat, reused: bool, refused: seq<Asked>)
    requires PageFollowing(env, opt, target, pages, primary, also) && |pages| < Limit(opt)
    requires e == StopError(env, k, opt, Parse(target), reused)
    requires if e == NotSubmitted then RefusedFor(target, Parse(target), refused) else refused == []
    ensures PageFetched(env, opt, pages, NoRequest(e, k, reused, refused), primary.(error := e), also)
  {}

  lemma TurnTimedOut(env: Environment, opt: Options, target: string, pages: seq<PageRecord>, primary: Fetched,
                     also: seq<Fetched>, outcome: PageOutcome, rec: PageRecord, primary2: Fetched, also2: seq<Fetched>)
    requires PageFollowing(env, opt, target, pages, primary, also) && Next(env.dec, Parse(target), pages, rec)
             && |pages| < Limit(opt)
    requires TurnEnded(env, opt, target, primary, also, outcome, rec, primary2, also2) && outcome.PageFailed?
    ensures PageFetched(env, opt, pages + [rec], LoopTimedOut, primary2.(error := TooSlow), also2)
  {
    ChainOfTurn(env, opt, target, pages, primary, also, outcome, rec, primary2, also2);
  }

  lemma TurnRedirected(env: Environment, opt: Options, target: string, pages: seq<PageRecord>, primary: Fetched,
                       also: seq<Fetched>, outcome: PageOutcome, rec: PageRecord, primary2: Fetched,
                       also2: seq<Fetched>)
    requires PageFollowing(env, opt, target, pages, primary, also) && Next(env.dec, Parse(target), pages, rec)
    requires TurnEnded(env, opt, target, primary, also, outcome, rec, primary2, also2) && outcome.PageRedirected?
    ensures PageFollowing(env, opt, outcome.url, pages + [rec], primary2, also2)
  {
    ChainOfTurn(env, opt, target, pages, primary, also, outcome, rec, primary2, also2);
  }

  function EndsAs(outcome: PageOutcome, rec: Option<PageRecord>, k: nat, reused: bool, refused: seq<Asked>): PageEnd {
    if !outcome.PageFailed? then LimitHit
    else if rec.Some? then LoopTimedOut
    else NoRequest(outcome.error, k, reused, refused)
  }

  function Extended(pages: seq<PageRecord>, rec: Option<PageRecord>): seq<PageRecord> {
    if rec.Some? then pages + [rec.value] else pages
  }

  /** The state of the page loop before a turn, and the moment. */
  ghost predicate AtTurn(env: Environment, opt: Options, target: string, pages: seq<PageRecord>, primary: Fetched,
                         also: seq<Fetched>, from: Moment, now: Moment) {
    && PageFollowing(env, opt, target, pages, primary, also)
    && BeginsAt(from, pages) && now == MomentAfter(env.dec, from, pages)
  }

  /** What one turn without results to add has led to. */
  ghost predicate TurnMade(env: Environment, opt: Options, target: string, primary: Fetched, also: seq<Fetched>,
                           outcome: PageOutcome, rec: Option<PageRecord>, primary2: Fetched, also2: seq<Fetched>,
                           from: Moment, reused: bool, refused: seq<Asked>, to: Moment) {
    && PageTurn(env, opt, target, primary, also, outcome, rec, primary2, also2)
    && PageLeaves(env.dec, target, Parse(target), from, reused, outcome, rec, refused, to)
    && (rec.None? ==> outcome == PageFailed(StopError(env, from.tick, opt, Parse(target), reused)))
  }

  /** A turn that is redirected leaves the next URL to ask for. */
  lemma TurnGoesOn(env: Environment, opt: Options, target: string, pages: seq<PageRecord>, primary: Fetched,
                   also: seq<Fetched>, outcome: PageOutcome, rec: PageRecord, primary2: Fetched, also2: seq<Fetched>)
    requires PageFollowing(env, opt, target, pages, primary, also) && Next(env.dec, Parse(target), pages, rec)
             && outcome.PageRedirected?
    requires PageTurn(env, opt, target, primary, also, outcome, Some(rec), primary2, also2)
    ensures PageFollowing(env, opt, outcome.url, pages + [rec], primary2, also2)
  {
    TurnWithRun(env, opt, target, primary, also, outcome, rec, primary2, also2);
    TurnRedirected(env, opt, target, pages, primary, also, outcome, rec, primary2, also2);
  }

  /** A turn that fails leaves the failed fetch. */
  lemma TurnFails(env: Environment, opt: Options, target: string, pages: seq<PageRecord>, primary: Fetched,
                  also: seq<Fetched>, outcome: PageOutcome, rec: PageRecord, primary2: Fetched, also2: seq<Fetched>)
    requires PageFollowing(env, opt, target, pages, primary, also) && Next(env.dec, Parse(target), pages, rec)
             && |pages| < Limit(opt)
    requires PageTurn(env, opt, target, primary, also, outcome, Some(rec), primary2, also2) && outcome.PageFailed?
    ensures outcome.error == TooSlow
    ensures PageFetched(env, opt, pages + [rec], LoopTimedOut, primary2.(error := TooSlow), also2)
  {
    TurnWithRun(env, opt, target, primary, also, outcome, rec, primary2, also2);
    TurnTimedOut(env, opt, target, pages, primary, also, outcome, rec, primary2, also2);
  }

  lemma TurnTimes(env: Environment, opt: Options, target: string, pages: seq<PageRecord>, primary: Fetched,
                  also: seq<Fetched>, outcome: PageOutcome, rec: Option<PageRecord>, primary2: Fetched,
                  also2: seq<Fetched>,
                  from: Moment, now: Moment, reused: bool, refused: seq<Asked>, to: Moment)
    requires AtTurn(env, opt, target, pages, primary, also, from, now)
    requires TurnMade(env, opt, target, primary, also, outcome, rec, primary2, also2, now, reused, refused, to)
    ensures BeginsAt(from, Extended(pages, rec))
    ensures !outcome.PageFailed? ==> rec.Some? && to == MomentAfter(env.dec, from, Extended(pages, rec))
    ensures outcome.PageFailed? ==>
              PageTraced(env.dec, from, Extended(pages, rec), EndsAs(outcome, rec, now.tick, reused, refused), to)
    ensures rec.Some? ==> Next(env.dec, Parse(target), pages, rec.value)
  {
    LeavesAt(env.dec, target, Parse(target), pages, outcome, rec, from, now, reused, refused, to);
  }

  lemma LeavesAt(dec: Decoders, url: string, u: Parsed, pages: seq<PageRecord>, outcome: PageOutcome,
                 rec: Option<PageRecord>,
                 from: Moment, now: Moment, reused: bool, refused: seq<Asked>, to: Moment)
    requires BeginsAt(from, pages) && now == MomentAfter(dec, from, pages)
    requires PageLeaves(dec, url, u, now, reused, outcome, rec, refused, to) && (rec.None? ==> outcome.PageFailed?)
    ensures BeginsAt(from, Extended(pages, rec))
    ensures !outcome.PageFailed? ==> rec.Some? && to == MomentAfter(dec, from, Extended(pages, rec))
    ensures outcome.PageFailed? ==>
              PageTraced(dec, from, Extended(pages, rec), EndsAs(outcome, rec, now.tick, reused, refused), to)
    ensures rec.Some? ==> Next(dec, u, pages, rec.value)
  {
    assert pages != [] ==> Extended(pages, rec)[0] == pages[0];
  }

  /** The last hop has ended without a redirect, and what remains may be fetched. */
  ghost predicate CanFinish(env: Environment, opt: Options, pages: seq<PageRecord>, outcome: PageOutcome,
                            primary: Fetched,
                            also: seq<Fetched>, from: Moment, now: Moment) {
    && PageChain(env, opt, pages) && |pages| <= Limit(opt) && pages != [] && outcome.PageDone?
    && EndOf(EndHop(env.dec, pages[|pages| - 1]), outcome, primary, also)
    && BeginsAt(from, pages) && now == MomentAfter(env.dec, from, pages)
  }

  /** What a turn leads to, before anything is done about it. */
  ghost predicate Outlook(env: Environment, opt: Options, pages: seq<PageRecord>, end: PageEnd, outcome: PageOutcome,
                          primary: Fetched, also: seq<Fetched>, from: Moment, now: Moment) {
    match outcome
    case PageRedirected(url) => AtTurn(env, opt, url, pages, primary, also, from, now)
    case PageFailed(e) =>
      PageFetched(env, opt, pages, end, primary.(error := e), also) && PageTraced(env.dec, from, pages, end, now)
    case PageDone(_, _) => CanFinish(env, opt, pages, outcome, primary, also, from, now)
  }

  lemma TurnLeads(env: Environment, opt: Options, target: string, pages: seq<PageRecord>, primary: Fetched,
                  also: seq<Fetched>, outcome: PageOutcome, rec: Option<PageRecord>, primary2: Fetched,
                  also2: seq<Fetched>,
                  from: Moment, now: Moment, reused: bool, refused: seq<Asked>, to: Moment)
    requires AtTurn(env, opt, target, pages, primary, also, from, now) && |pages| < Limit(opt)
    requires TurnMade(env, opt, target, primary, also, outcome, rec, primary2, also2, now, reused, refused, to)
    ensures Outlook(env, opt, Extended(pages, rec), EndsAs(outcome, rec, now.tick, reused, refused), outcome,
                    primary2, also2, from, to)
    ensures outcome.PageRedirected? ==> rec.Some?
  {
    TurnTimes(env, opt, target, pages, primary, also, outcome, rec, primary2, also2, from, now, reused, refused, to);
    match outcome {
      case PageRedirected(url) =>
        TurnGoesOn(env, opt, target, pages, primary, also, outcome, rec.value, primary2, also2);
      case PageFailed(e) =>
        if rec.None? {
          TurnWithoutRun(env, opt, target, pages, primary, also, e, now.tick, reused, refused);
        } else {
          TurnFails(env, opt, target, pages, primary, also, outcome, rec.value, primary2, also2);
        }
      case PageDone(_, _) =>
        TurnEnds(env, opt, target, pages, primary, also, outcome, rec.value, primary2, also2);
    }
  }

  lemma TurnEnds(env: Environment, opt: Options, target: string, pages: seq<PageRecord>, primary: Fetched,
                 also: seq<Fetched>, outcome: PageOutcome, rec: PageRecord, primary2: Fetched, also2: seq<Fetched>)
    requires PageFollowing(env, opt, target, pages, primary, also) && Next(env.dec, Parse(target), pages, rec)
    requires PageTurn(env, opt, target, primary, also, outcome, Some(rec), primary2, also2)
    ensures PageChain(env, opt, pages + [rec]) && EndOf(EndHop(env.dec, rec), outcome, primary2, also2)
  {
    TurnWithRun(env, opt, target, primary, also, outcome, rec, primary2, also2);
    ChainOfTurn(env, opt, target, pages, primary, also, outcome, rec, primary2, also2);
  }

  lemma DoneLeads(env: Environment, opt: Options, pages: seq<PageRecord>, outcome: PageOutcome, primary: Fetched,
                  also: seq<Fetched>, from: Moment, now: Moment, added: seq<Fetched>, runs: seq<FetchRun>, to: Moment)
    requires CanFinish(env, opt, pages, outcome, primary, also, from, now)
    requires Extras(Fit(env, opt), Remaining(opt, outcome.pending, also), outcome.next, added, runs)
    requires OneByOne(Sound(), now, runs, to)
    ensures Went(env, opt, None, pages, Finished(added, runs), Reported(primary), also + added, from, to)
  {}

  /** Where a turn has led: on to a next URL, or to the end of the fetch. */
  ghost predicate Went(env: Environment, opt: Options, next: Option<string>, pages: seq<PageRecord>, end: PageEnd,
                       primary: Fetched, also: seq<Fetched>, from: Moment, now: Moment) {
    if next.Some? then AtTurn(env, opt, next.value, pages, primary, also, from, now)
    else PageFetched(env, opt, pages, end, primary, also) && PageTraced(env.dec, from, pages, end, now)
  }

  function NextOf(outcome: PageOutcome): Option<string> {
    if outcome.PageRedirected? then Some(outcome.url) else None
  }

  function Entered(primary: Fetched, outcome: PageOutcome): Fetched {
    if outcome.PageFailed? then primary.(error := outcome.error) else primary
  }

  lemma OutlookLeads(env: Environment, opt: Options, pages: seq<PageRecord>, end: PageEnd, outcome: PageOutcome,
                     primary: Fetched, also: seq<Fetched>, from: Moment, now: Moment)
    requires Outlook(env, opt, pages, end, outcome, primary, also, from, now) && !outcome.PageDone?
    ensures Went(env, opt, NextOf(outcome), pages, end, Entered(primary, outcome), also, from, now)
  {}

  /** The page is done: fetches what remains. */
  method CompletePage(world: World, conn: ConnectionState, opt: Options, batch: Batch, outcome: PageOutcome,
                      ghost pages: seq<PageRecord>, ghost from: Moment)
    returns (ghost end: PageEnd)
    requires Owns(world, conn) && AllGood(world) && outcome.PageDone?
    requires CanFinish(world.env, opt, pages, outcome, batch.primary, batch.also, from, Now(world, conn))
    modifies world, conn, conn.client, batch
    ensures Owns(world, conn) && AllGood(world)
    ensures Went(world.env, opt, None, pages, end, batch.primary, batch.also, from, Now(world, conn))
  {
    ghost var primary, also, now := batch.primary, batch.also, Now(world, conn);
    ghost var added, runs;
    added, runs := FinishPage(world, conn, opt, batch, outcome.pending, outcome.next);
    end := Finished(added, runs);
    DoneLeads(world.env, opt, pages, outcome, primary, also, from, now, added, runs, Now(world, conn));
  }

  /** One turn of the page loop, with what is left to fetch if the page is done; `next` is the URL to go on with. */
  method TakePageTurn(world: World, conn: ConnectionState, opt: Options, batch: Batch, target: string,
                      ghost before: seq<PageRecord>, ghost from: Moment)
    returns (next: Option<string>, ghost pages: seq<PageRecord>, ghost end: PageEnd)
    requires Owns(world, conn) && AllGood(world) && |before| < Limit(opt)
    requires AtTurn(world.env, opt, target, before, batch.primary, batch.also, from, Now(world, conn))
    modifies world, conn, conn.client, batch
    ensures Owns(world, conn) && AllGood(world)
    ensures next.Some? && conn.client != null && conn.client != old(conn.client) ==> fresh(conn.client)
    ensures Went(world.env, opt, next, pages, end, batch.primary, batch.also, from, Now(world, conn))
    ensures next.Some? ==> |pages| == |before| + 1
  {
    var outcome;
    outcome, pages, end := AskForPage(world, conn, opt, batch, target, before, from);
    if outcome.PageDone? {
      next := None;
      end := CompletePage(world, conn, opt, batch, outcome, pages, from);
      return;
    }
    next := GoOn(world, conn, opt, batch, outcome, pages, end, from);
  }

  /** The URL to go on with; a failure is entered in the batch. */
  method GoOn(world: World, conn: ConnectionState, opt: Options, batch: Batch, outcome: PageOutcome,
              ghost pages: seq<PageRecord>, ghost end: PageEnd, ghost from: Moment)
    returns (next: Option<string>)
    requires Owns(world, conn) && AllGood(world) && !outcome.PageDone?
    requires Outlook(world.env, opt, pages, end, outcome, batch.primary, batch.also, from, Now(world, conn))
    modifies batch`primary
    ensures Owns(world, conn) && AllGood(world) && next == NextOf(outcome)
    ensures Went(world.env, opt, next, pages, end, batch.primary, batch.also, from, Now(world, conn))
  {
    OutlookLeads(world.env, opt, pages, end, outcome, batch.primary, batch.also, from, Now(world, conn));
    next := NextOf(outcome);
    Enter(world, conn, batch, Entered(batch.primary, outcome));
  }

  method Enter(world: World, conn: ConnectionState, batch: Batch, primary: Fetched)
    requires Owns(world, conn) && AllGood(world)
    modifies batch`primary
    ensures Owns(world, conn) && AllGood(world) && batch.primary == primary
  {
    batch.primary := primary;
  }

  /** One turn, and what it leads to. */
  method AskForPage(world: World, conn: ConnectionState, opt: Options, batch: Batch, target: string,
                    ghost before: seq<PageRecord>, ghost from: Moment)
    returns (outcome: PageOutcome, ghost pages: seq<PageRecord>, ghost end: PageEnd)
    requires Owns(world, conn) && AllGood(world) && |before| < Limit(opt)
    requires AtTurn(world.env, opt, target, before, batch.primary, batch.also, from, Now(world, conn))
    modifies world, conn, conn.client, batch
    ensures Owns(world, conn) && AllGood(world)
    ensures conn.client != null && conn.client != old(conn.client) ==> fresh(conn.client)
    ensures Outlook(world.env, opt, pages, end, outcome, batch.primary, batch.also, from, Now(world, conn))
    ensures outcome.PageRedirected? ==> |pages| == |before| + 1
  {
    ghost var now, primary, also := Now(world, conn), batch.primary, batch.also;
    var parsed := ParseUrl(target);
    ghost var reused := MayReuse(conn, opt, parsed);
    ghost var rec, refused;
    outcome, rec, refused := FetchPageHop(world, conn, opt, batch, target, parsed);
    TurnLeads(world.env, opt, target, before, primary, also, outcome, rec, batch.primary, batch.also, from, now, reused,
              refused, Now(world, conn));
    pages, end := Extended(before, rec), EndsAs(outcome, rec, now.tick, reused, refused);
  }

  /** A fetched page: every hop follows from the one before, within the limit, and the result is that of its end. */
  method FetchPage(world: World, conn: ConnectionState, opt: Options, batch: Batch)
    returns (ghost pages: seq<PageRecord>, ghost end: PageEnd)
    requires Owns(world, conn) && AllGood(world)
    requires batch.primary == NO_FETCH && batch.also == []
    modifies world, conn, conn.client, batch
    ensures Owns(world, conn) && AllGood(world)
    ensures PageFetched(world.env, opt, pages, end, batch.primary, batch.also)
    ensures PageTraced(world.env.dec, old(Now(world, conn)), pages, end, Now(world, conn))
  {
    pages, end := [], LimitHit;
    var target := opt.url;
    var hop := 0;
    NothingYet(world.env, opt, Now(world, conn));
    while hop < opt.maxRedirects
      invariant Owns(world, conn) && AllGood(world)
      invariant conn.client != null && conn.client != old(conn.client) ==> fresh(conn.client)
      invariant AtTurn(world.env, opt, target, pages, batch.primary, batch.also, old(Now(world, conn)),
                       Now(world, conn))
      invariant |pages| == hop <= Limit(opt)
    {
      var next;
      next, pages, end := TakePageTurn(world, conn, opt, batch, target, pages, old(Now(world, conn)));
      if next.None? {
        return;
      }
      target := next.value;
      hop := hop + 1;
    }
    LimitIsHit(world.env, opt, target, pages, batch.primary, batch.also, old(Now(world, conn)), Now(world, conn));
    end := LimitHit;
    Enter(world, conn, batch, batch.primary.(error := TooManyRedirects));
  }

  lemma LimitIsHit(env: Environment, opt: Options, target: string, pages: seq<PageRecord>, primary: Fetched,
                   also: seq<Fetched>, from: Moment, now: Moment)
    requires AtTurn(env, opt, target, pages, primary, also, from, now) && |pages| == Limit(opt)
    ensures PageFetched(env, opt, pages, LimitHit, primary.(error := TooManyRedirects), also)
    ensures PageTraced(env.dec, from, pages, LimitHit, now)
  {}

  lemma NothingYet(env: Environment, opt: Options, now: Moment)
    ensures AtTurn(env, opt, opt.url, [], NO_FETCH, [], now, now)
  {}

  // ---------- The requests of a page fetch ----------

  function RequestsOfPages(dec: Decoders, pages: seq<PageRecord>): seq<Asked> {
    if pages == [] then []
    else RequestsOfPages(dec, pages[..|pages| - 1]) + PageRequests(dec, pages[|pages| - 1])
  }

  function RequestsOfEnd(end: PageEnd): seq<Asked> {
    match end
    case NoRequest(_, _, _, refused) => refused
    case Finished(_, runs) => RequestsOfRuns(runs)
    case _ => []
  }

  /** Hops that follow one another in time, whatever else links them. */
  lemma {:induction false} AskedByLinked(begins: PageRecord -> bool, follows: (PageRecord, PageRecord) -> bool,
                                         dec: Decoders, from: Moment, pages: seq<PageRecord>)
    requires Linked(begins, follows, pages) && BeginsAt(from, pages)
    requires forall p, q :: follows(p, q) ==> q.on.begun == EndedAt(dec, p)
    ensures MomentAfter(dec, from, pages).asked == from.asked + RequestsOfPages(dec, pages)
    decreases |pages|
  {
    if pages != [] {
      var before, last := pages[..|pages| - 1], pages[|pages| - 1];
      AskedByLinked(begins, follows, dec, from, before);
      Associate(from.asked, RequestsOfPages(dec, before), PageRequests(dec, last));
    }
  }

  lemma AskedByPages(env: Environment, opt: Options, from: Moment, pages: seq<PageRecord>)
    requires PageChain(env, opt, pages) && BeginsAt(from, pages)
    ensures MomentAfter(env.dec, from, pages).asked == from.asked + RequestsOfPages(env.dec, pages)
  {
    AskedByLinked(Begins(env, opt), Follows(env, opt), env.dec, from, pages);
  }

  /** What has been asked after a page fetch: what had been before, the requests of its hops, and those of its end. */
  lemma AskedByPageFetch(env: Environment, opt: Options, pages: seq<PageRecord>, end: PageEnd, from: Moment, to: Moment)
    requires PageChain(env, opt, pages) && PageTraced(env.dec, from, pages, end, to)
    ensures to.asked == from.asked + (RequestsOfPages(env.dec, pages) + RequestsOfEnd(end))
  {
    AskedByPages(env, opt, from, pages);
    AskedByEnd(env.dec, from, pages, end, to);
    Associate(from.asked, RequestsOfPages(env.dec, pages), RequestsOfEnd(end));
  }

  lemma AskedByEnd(dec: Decoders, from: Moment, pages: seq<PageRecord>, end: PageEnd, to: Moment)
    requires PageTraced(dec, from, pages, end, to)
    ensures to.asked == MomentAfter(dec, from, pages).asked + RequestsOfEnd(end)
  {
    if end.Finished? {
      AskedByRuns(MomentAfter(dec, from, pages), end.runs, to);
    }
  }
}
