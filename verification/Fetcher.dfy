/** A whole batch: the page with its subresources, or one plain fetch and the further URLs, and then the teardown. */
module Fetcher {
  import opened Http2Client
  import opened Lifecycle
  import opened PageFetch
  import opened PageLoop
  import opened Requests
  import opened Scheduler
  import opened SingleFetch
  import opened Wrappers

  /** The manual URLs; only if there are none, and if the caller asked for it, the challenge scripts of the page. */
  function ExtraUrls(opt: Options, primary: Fetched): seq<string> {
    if opt.autoScripts && opt.alsoFetch == [] then opt.challenge(primary.resp.body, primary.finalUrl) else opt.alsoFetch
  }

  /** What happened in a batch: the plain fetches in order, the first of them for the primary, or the hops of the
      page. */
  datatype Story = Plain(runs: seq<FetchRun>) | Page(pages: seq<PageRecord>, end: PageEnd)

  type Fetching = (string, Fetched, seq<HopRecord>) -> bool

  ghost function FetchedFor(env: Environment, opt: Options): Fetching {
    (url: string, f: Fetched, hops: seq<HopRecord>) => PlainFetch(env, opt, url, f, hops)
  }

  /** One result per URL, in order, each explained by a fetch of its own. */
  ghost predicate AllFetched(fetched: Fetching, urls: seq<string>, results: seq<Fetched>, runs: seq<FetchRun>) {
    && |results| == |urls| == |runs|
    && forall i :: 0 <= i < |urls| ==> fetched(urls[i], results[i], runs[i].hops)
  }

  /** The same, from one moment to another. */
  ghost predicate FetchedSoFar(fetched: Fetching, done: seq<string>, results: seq<Fetched>, from: Moment,
                               runs: seq<FetchRun>, to: Moment) {
    AllFetched(fetched, done, results, runs) && OneByOne(Sound(), from, runs, to)
  }

  lemma OneMoreFetched(fetched: Fetching, done: seq<string>, results: seq<Fetched>, from: Moment, runs: seq<FetchRun>,
                       url: string, f: Fetched, run: FetchRun)
    requires FetchedSoFar(fetched, done, results, from, runs, run.from) && fetched(url, f, run.hops) && Sound()(run)
    ensures FetchedSoFar(fetched, done + [url], results + [f], from, runs + [run], run.to)
  {
    OneMoreRun(Sound(), from, runs, run);
  }

  /** A plain batch: the primary, and if that is a response, one result per further URL. */
  ghost predicate PlainBatch(env: Environment, opt: Options, primary: Fetched, also: seq<Fetched>,
                             runs: seq<FetchRun>) {
    AllFetched(FetchedFor(env, opt), [opt.url] + if primary.ok then ExtraUrls(opt, primary) else [], [primary] + also,
               runs)
  }

  lemma PlainBatchOf(env: Environment, opt: Options, primary: Fetched, also: seq<Fetched>, first: FetchRun,
                     runs: seq<FetchRun>)
    requires FetchedFor(env, opt)(opt.url, primary, first.hops)
    requires AllFetched(FetchedFor(env, opt), if primary.ok then ExtraUrls(opt, primary) else [], also, runs)
    ensures PlainBatch(env, opt, primary, also, [first] + runs)
  {
    var urls := if primary.ok then ExtraUrls(opt, primary) else [];
    FirstFetched(FetchedFor(env, opt), opt.url, urls, primary, also, first, runs);
  }

  lemma FirstFetched(fetched: Fetching, url: string, urls: seq<string>, f: Fetched, results: seq<Fetched>,
                     first: FetchRun,
                     runs: seq<FetchRun>)
    requires fetched(url, f, first.hops) && AllFetched(fetched, urls, results, runs)
    ensures AllFetched(fetched, [url] + urls, [f] + results, [first] + runs)
  {
    var us, rs, ts := [url] + urls, [f] + results, [first] + runs;
    forall i | 0 <= i < |us| ensures fetched(us[i], rs[i], ts[i].hops) {
      if i > 0 {
        assert us[i] == urls[i - 1] && rs[i] == results[i - 1] && ts[i] == runs[i - 1];
      }
    }
  }

  lemma FirstRun(sound: FetchRun -> bool, first: FetchRun, runs: seq<FetchRun>, to: Moment)
    requires sound(first) && OneByOne(sound, first.to, runs, to)
    ensures OneByOne(sound, first.from, [first] + runs, to)
  {
    OneMoreRun(sound, first.from, [], first);
    assert [] + [first] == [first];
    RunsThenRuns(sound, first.from, [first], first.to, runs, to);
  }

  /** What a batch holds and how it came about, from one moment to another. */
  ghost predicate Told(env: Environment, opt: Options, story: Story, primary: Fetched, also: seq<Fetched>,
                       from: Moment, to: Moment) {
    match story
    case Plain(runs) => !opt.subresources && PlainBatch(env, opt, primary, also, runs)
        && OneByOne(Sound(), from, runs, to)
    case Page(pages, end) =>
      opt.subresources && PageFetched(env, opt, pages, end, primary, also) && PageTraced(env.dec, from, pages, end, to)
  }

  /** One plain fetch, and the moments before and after it. */
  method FetchUrl(world: World, conn: ConnectionState, opt: Options, url: string)
    returns (f: Fetched, ghost run: FetchRun)
    requires Owns(world, conn) && AllGood(world)
    modifies world, conn, conn.client
    ensures Owns(world, conn) && AllGood(world)
    ensures conn.client != null && conn.client != old(conn.client) ==> fresh(conn.client)
    ensures FetchedFor(world.env, opt)(url, f, run.hops)
    ensures run.from == old(Now(world, conn)) && run.to == Now(world, conn) && Sound()(run)
  {
    ghost var from, hops := Now(world, conn), [];
    f, hops := FetchOne(world, conn, opt, url);
    run := FetchRun(from, hops, Now(world, conn));
  }

  method FetchPlain(world: World, conn: ConnectionState, opt: Options, batch: Batch)
    returns (ghost runs: seq<FetchRun>)
    requires Owns(world, conn) && AllGood(world) && batch.also == []
    modifies world, conn, conn.client, batch
    ensures Owns(world, conn) && AllGood(world)
    ensures PlainBatch(world.env, opt, batch.primary, batch.also, runs)
    ensures OneByOne(Sound(), old(Now(world, conn)), runs, Now(world, conn))
  {
    ghost var first;
    batch.primary, first := FetchUrl(world, conn, opt, opt.url);
    runs := [];
    if batch.primary.ok {
      runs := FetchAll(world, conn, opt, batch, ExtraUrls(opt, batch.primary));
    }
    FirstRun(Sound(), first, runs, Now(world, conn));
    PlainBatchOf(world.env, opt, batch.primary, batch.also, first, runs);
    runs := [first] + runs;
  }

  method FetchAll(world: World, conn: ConnectionState, opt: Options, batch: Batch, urls: seq<string>)
    returns (ghost runs: seq<FetchRun>)
    requires Owns(world, conn) && AllGood(world) && batch.also == []
    modifies world, conn, conn.client, batch`also
    ensures Owns(world, conn) && AllGood(world)
    ensures FetchedSoFar(FetchedFor(world.env, opt), urls, batch.also, old(Now(world, conn)), runs, Now(world, conn))
  {
    runs := [];
    ghost var done: seq<string> := [];
    var i := 0;
    while i < |urls|
      invariant Owns(world, conn) && AllGood(world)
      invariant conn.client != null && conn.client != old(conn.client) ==> fresh(conn.client)
      invariant i <= |urls| && done == urls[..i]
      invariant FetchedSoFar(FetchedFor(world.env, opt), done, batch.also, old(Now(world, conn)), runs,
                             Now(world, conn))
    {
      runs := FetchFurther(world, conn, opt, batch, urls[i], done, old(Now(world, conn)), runs);
      OneMoreUrl(urls, i);
      done := done + [urls[i]];
      i := i + 1;
    }
    assert done == urls;
  }

  lemma OneMoreUrl(urls: seq<string>, i: nat)
    requires i < |urls|
    ensures urls[..i] + [urls[i]] == urls[..i + 1]
  {}

  /** Fetches one further URL and records its result. */
  method FetchFurther(world: World, conn: ConnectionState, opt: Options, batch: Batch, url: string,
                      ghost done: seq<string>, ghost from: Moment, ghost runs: seq<FetchRun>)
    returns (ghost runs2: seq<FetchRun>)
    requires Owns(world, conn) && AllGood(world)
    requires FetchedSoFar(FetchedFor(world.env, opt), done, batch.also, from, runs, Now(world, conn))
    modifies world, conn, conn.client, batch`also
    ensures Owns(world, conn) && AllGood(world)
    ensures conn.client != null && conn.client != old(conn.client) ==> fresh(conn.client)
    ensures FetchedSoFar(FetchedFor(world.env, opt), done + [url], batch.also, from, runs2, Now(world, conn))
  {
    var extra;
    ghost var run;
    extra, run := FetchUrl(world, conn, opt, url);
    OneMoreFetched(FetchedFor(world.env, opt), done, batch.also, from, runs, url, extra, run);
    AddResult(world, conn, batch, extra);
    runs2 := runs + [run];
  }

  method FetchBatch(world: World, conn: ConnectionState, opt: Options, batch: Batch) returns (ghost story: Story)
    requires Owns(world, conn) && AllGood(world) && batch.primary == NO_FETCH && batch.also == []
    modifies world, conn, conn.client, batch
    ensures Owns(world, conn) && AllGood(world)
    ensures Told(world.env, opt, story, batch.primary, batch.also, old(Now(world, conn)), Now(world, conn))
    ensures world.asked == old(world.asked) + RequestsIn(world.env.dec, story)
  {
    ghost var from := Now(world, conn);
    if opt.subresources {
      ghost var pages, end := FetchPage(world, conn, opt, batch);
      story := Page(pages, end);
    } else {
      ghost var runs := FetchPlain(world, conn, opt, batch);
      story := Plain(runs);
    }
    AskedByStory(world.env, opt, story, batch.primary, batch.also, from, Now(world, conn));
  }

  /** Every request of the batch, in order. */
  function RequestsIn(dec: Decoders, story: Story): seq<Asked> {
    match story
    case Plain(runs) => RequestsOfRuns(runs)
    case Page(pages, end) => RequestsOfPages(dec, pages) + RequestsOfEnd(end)
  }

  lemma AskedByStory(env: Environment, opt: Options, story: Story, primary: Fetched, also: seq<Fetched>,
                     from: Moment, to: Moment)
    requires Told(env, opt, story, primary, also, from, to)
    ensures to.asked == from.asked + RequestsIn(env.dec, story)
  {
    match story {
      case Plain(runs) => AskedByRuns(from, runs, to);
      case Page(pages, end) =>
        AskedByPageFetch(env, opt, pages, end, from, to);
    }
  }

  /** Each request of a batch, whatever becomes of it, asks for what its URL names. */
  lemma StoryIsHonest(env: Environment, opt: Options, story: Story, primary: Fetched, also: seq<Fetched>,
                      from: Moment, to: Moment)
    requires Told(env, opt, story, primary, also, from, to)
    ensures AllHonest(RequestsIn(env.dec, story))
  {
    match story {
      case Plain(runs) => PlainBatchIsHonest(env, opt, primary, also, runs);
      case Page(pages, end) =>
        PageFetchIsHonest(env, opt, pages, end, primary, also);
    }
  }

  lemma PlainBatchIsHonest(env: Environment, opt: Options, primary: Fetched, also: seq<Fetched>, runs: seq<FetchRun>)
    requires PlainBatch(env, opt, primary, also, runs)
    ensures AllHonest(RequestsOfRuns(runs))
  {
    var urls, results := [opt.url] + if primary.ok then ExtraUrls(opt, primary) else [], [primary] + also;
    forall i | 0 <= i < |runs| ensures AllHonest(RequestsOf(runs[i].hops)) {
      assert FetchedFor(env, opt)(urls[i], results[i], runs[i].hops);
      PlainIsHonest(env, opt, urls[i], results[i], runs[i].hops);
    }
    RunsAreHonest(runs);
  }

  method FetchAndClose(world: World, conn: ConnectionState, opt: Options, batch: Batch)
    returns (ghost story: Story, ghost to: Moment)
    requires Owns(world, conn) && AllGood(world) && batch.primary == NO_FETCH && batch.also == []
    modifies world, conn, conn.client, batch
    ensures conn.Cleared() && Owns(world, conn) && AllGood(world)
    ensures world.asked == old(world.asked) + RequestsIn(world.env.dec, story)
    ensures to.asked == world.asked && to.tick == world.tick
    ensures Told(world.env, opt, story, batch.primary, batch.also, old(Now(world, conn)), to)
  {
    story := FetchBatch(world, conn, opt, batch);
    to := Now(world, conn);
    Close(world, conn);
  }

  method Close(world: World, conn: ConnectionState)
    requires Owns(world, conn) && AllGood(world)
    modifies world`open, world`released, conn
    ensures conn.Cleared() && Owns(world, conn) && AllGood(world)
  {
    Teardown(world, conn);
  }

  /** A whole batch, from nothing open to nothing open: every socket, TLS handle and client acquired on the way has
      been released exactly once, whatever failed; and every request made is one that the story tells, in order. */
  method FetchMulti(world: World, opt: Options) returns (batch: Batch, ghost story: Story, ghost to: Moment)
    requires world.Ledger() && world.open == {} && AllGood(world)
    modifies world
    ensures fresh(batch)
    ensures world.open == {} && multiset(world.released) == multiset(world.acquired)
    ensures AllGood(world) && world.asked == old(world.asked) + RequestsIn(world.env.dec, story)
    ensures AllHonest(RequestsIn(world.env.dec, story))
    ensures to.asked == world.asked && to.tick == world.tick
    ensures Told(world.env, opt, story, batch.primary, batch.also, old(Moment(world.asked, None, world.tick)), to)
  {
    batch := new Batch();
    var conn := new ConnectionState();
    NothingLeft(world, conn);
    ghost var from := Now(world, conn);
    story, to := FetchAndClose(world, conn, opt, batch);
    NothingLeft(world, conn);
    StoryIsHonest(world.env, opt, story, batch.primary, batch.also, from, to);
  }
}
