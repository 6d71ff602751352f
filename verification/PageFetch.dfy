/** A page fetch: hop after hop with a scheduler of its own, then what is left to fetch. */
module PageFetch {
  import opened Http2Client
  import opened Lifecycle
  import opened PageHop
  import opened PageRun
  import opened Resolver
  import opened Scheduler
  import opened SchedulerInvariant
  import opened SchedulerResults
  import opened SingleFetch
  import opened SubresourceScanner
  import opened UrlParser
  import opened Wrappers

  // ---------- One hop ----------

  /** What a hop stands on: its URL as parsed, its connection, whether that was there before, and the moment
      before the hop. */
  datatype Footing = Footing(u: ParsedUrl, reused: bool, conn: int, begun: Moment)

  /** One turn of the page loop whose event loop was entered: the hop's context, its start, the receive that its frames
      came from, and the frames that the loop saw. `base` requests were made on the connection before it, and `from`
      results had been recorded. */
  datatype PageRecord = PageRecord(x: Context, base: nat, from: nat, start: Hop, tick: nat, events: seq<Event>,
                                   on: Footing)

  datatype PageOutcome = PageFailed(error: Problem) | PageRedirected(url: string)
      | PageDone(pending: seq<Item>, next: int)

  /** The request for the page itself. */
  function PageRequest(x: Context, u: ParsedUrl): (e: Submission)
    ensures e.url == x.pageUrl && e.sid == x.primarySid
  {
    Submit(x.clientHost, false, x.pageUrl, u, x.primarySid)
  }

  /** The hop has asked for `url` on a connection to its host, and starts with that request alone. */
  ghost predicate PageStart(opt: Options, url: string, primary: Fetched, also: seq<Fetched>, r: PageRecord) {
    && r.x.config == Config(opt.extract, url, opt.maxSubresources) && r.x.pageUrl == url
    && r.on.u.host == r.x.connHost && r.x.clientHost == r.x.connHost
    && |r.start.log| == r.base + 1 && r.start.log[r.base] == PageRequest(r.x, r.on.u)
    && r.start.c == ClientState(r.x.clientHost, true, false, "", map[])
    && r.start.s == Fresh(primary, also) && r.from == |also|
    && (FreshIds(r.x.answer) ==> Starts(r.x, r.base, r.from, r.start))
  }

  ghost predicate GoodEntries(host: string, answer: nat -> int, log: seq<Submission>) {
    forall i :: 0 <= i < |log| ==>
      && log[i].host == host && log[i].authority == AuthorityOf(host) && !log[i].afterGoaway && log[i].sid == answer(i)
  }

  lemma GoodContinues(x: Context, log: seq<Submission>, log2: seq<Submission>)
    requires GoodEntries(x.connHost, x.answer, log) && Continues(x, log, log2) && x.clientHost == x.connHost
    ensures GoodEntries(x.connHost, x.answer, log2)
  {
    forall i | 0 <= i < |log2|
      ensures log2[i].host == x.connHost && log2[i].authority == AuthorityOf(x.connHost) && !log2[i].afterGoaway
              && log2[i].sid == x.answer(i)
    {
      if i < |log| {
        assert log2[i] == log[i];
      }
    }
  }

  lemma GoodAfterLoop(x: Context, dec: Decoders, h: Hop, turns: seq<Turn>, timeout: int)
    requires GoodEntries(x.connHost, x.answer, h.log) && x.clientHost == x.connHost
    ensures GoodEntries(x.connHost, x.answer, RunLoop(x, dec, h, turns, timeout).0.log)
    ensures h.log <= RunLoop(x, dec, h, turns, timeout).0.log
  {
    LoopIsHopRun(x, dec, h, turns, timeout);
    RunContinues(x, dec, h, Seen(x, dec, h, turns, timeout));
    GoodContinues(x, h.log, RunLoop(x, dec, h, turns, timeout).0.log);
  }

  /** The hop for `url` on a connection to `u.host`, once its request is submitted and has got stream `sid`. */
  function PageContext(opt: Options, url: string, u: ParsedUrl, answer: nat -> int, sid: int): Context {
    Context(Config(opt.extract, url, opt.maxSubresources), url, u.host, u.host, answer, sid)
  }

  function OpeningOf(opt: Options, url: string, answer: nat -> int, log: seq<Submission>, sid: int, primary: Fetched,
                     also: seq<Fetched>, on: Footing): PageRecord {
    PageRecord(PageContext(opt, url, on.u, answer, sid), |log|, |also|,
               Hop(ClientState(on.u.host, true, false, "", map[]), Fresh(primary, also),
                   log + [Submit(on.u.host, false, url, on.u, sid)]), 0, [], on)
  }

  lemma PageStarts(opt: Options, url: string, answer: nat -> int, log: seq<Submission>, sid: int, primary: Fetched,
                   also: seq<Fetched>, on: Footing)
    requires GoodEntries(on.u.host, answer, log) && sid == answer(|log|) >= 0
    ensures PageStart(opt, url, primary, also, OpeningOf(opt, url, answer, log, sid, primary, also, on))
  {}

  /** Submits the page request and gives the hop its scheduler. */
  method OpenPage(world: World, client: Client, batch: Batch, opt: Options, url: string, u: ParsedUrl)
    returns (state: RuntimeSubresourceState, sid: int)
    requires client in world.clients && AllGood(world) && client.host == u.host && !client.goaway
    modifies world`asked, client
    ensures AllGood(world) && fresh(state) && fresh(state.scanner) && state.client == client && state.batch == batch
    ensures sid == client.answer(|old(client.log)|)
    ensures client.log == old(client.log) + [Submit(client.host, false, url, u, sid)]
    ensures world.asked == old(world.asked) + [RequestFor(world.clients[client], url, u, sid)]
    ensures sid >= 0 ==> state.Ctx() == PageContext(opt, url, u, client.answer, sid)
                         && View(state) == Hop(Reset(old(client.View())), Fresh(batch.primary, batch.also), client.log)
  {
    state := new RuntimeSubresourceState(client, batch, Config(opt.extract, url, opt.maxSubresources), u.host);
    sid := SubmitRequest(world, client, url, u);
    if sid >= 0 {
      state.Begin(sid);
    }
  }

  /** Runs the hop's event loop over what the environment delivers. */
  method RunPage(world: World, state: RuntimeSubresourceState, opt: Options) returns (ok: bool)
    requires state.client in world.clients && AllGood(world) && state.connHost == state.client.host
    modifies world`tick, world`asked, state, state.scanner, state.batch, state.client
    ensures AllGood(world) && state.Ctx() == old(state.Ctx()) && world.tick == old(world.tick) + 1
    ensures (View(state), ok) == RunLoop(state.Ctx(), state.client.dec, old(View(state)),
                                         world.env.receives(old(world.tick)), opt.timeout)
    ensures old(state.client.log) <= state.client.log
    ensures world.asked == old(world.asked)
                           + Tagged(world.clients[state.client], state.client.log[|old(state.client.log)|..])
  {
    var k := world.Ask();
    var turns := world.env.receives(k);
    ghost var log := state.client.log;
    assert GoodLog(state.client);
    GoodAfterLoop(state.Ctx(), state.client.dec, View(state), turns, opt.timeout);
    ok := RunEventLoop(state, turns, opt.timeout);
    Record(world, state.client, |log|);
  }

  /** What comes of a page hop, by what its event loop leaves behind. */
  function PageOutcomeOf(t: Hop, ok: bool): PageOutcome {
    if !ok then PageFailed(TooSlow)
    else if t.c.redirectUrl != "" then PageRedirected(t.c.redirectUrl)
    else PageDone(t.s.pending, t.s.nextSeq)
  }

  ghost predicate Ran(dec: Decoders, timeout: int, turns: seq<Turn>, r: PageRecord, outcome: PageOutcome,
                      primary: Fetched, also: seq<Fetched>) {
    var (t, ok) := RunLoop(r.x, dec, r.start, turns, timeout);
    && r.events == Seen(r.x, dec, r.start, turns, timeout)
    && outcome == PageOutcomeOf(t, ok) && primary == t.s.primary && also == t.s.also
  }

  /** What one turn of the page loop leaves behind. Without a record nothing was received. */
  ghost predicate PageTurn(env: Environment, opt: Options, url: string, primary: Fetched, also: seq<Fetched>,
                           outcome: PageOutcome, rec: Option<PageRecord>, primary2: Fetched, also2: seq<Fetched>) {
    && (rec.None? ==> outcome.PageFailed? && outcome.error != Fine && primary2 == primary && also2 == also)
    && (rec.Some? ==>
          && PageStart(opt, url, primary, also, rec.value)
          && Ran(env.dec, opt.timeout, env.receives(rec.value.tick), rec.value, outcome, primary2, also2))
  }

  /** In terms of the frames seen: where the run ended is what the outcome and the batch tell. */
  ghost predicate EndOf(t: Hop, outcome: PageOutcome, primary: Fetched, also: seq<Fetched>) {
    && primary == t.s.primary && also == t.s.also
    && (outcome.PageFailed? ==> outcome.error != Fine && t.c.running)
    && (outcome.PageRedirected? ==> outcome.url == t.c.redirectUrl != "")
    && (outcome.PageDone? ==> t.c.redirectUrl == "" && outcome.pending == t.s.pending && outcome.next == t.s.nextSeq)
  }

  lemma RanToEnd(dec: Decoders, timeout: int, turns: seq<Turn>, r: PageRecord, outcome: PageOutcome,
                 primary: Fetched, also: seq<Fetched>)
    requires Ran(dec, timeout, turns, r, outcome, primary, also)
    ensures EndOf(EndHop(dec, r), outcome, primary, also)
  {
    LoopIsHopRun(r.x, dec, r.start, turns, timeout);
  }

  /** The state in which a hop's run ended. */
  function EndHop(dec: Decoders, r: PageRecord): Hop {
    RunHop(r.x, dec, r.start, r.events)
  }

  /** The requests of the hop: the page's, and those of the scheduler. */
  function PageRequests(dec: Decoders, r: PageRecord): seq<Asked> {
    Tagged(r.on.conn, EndHop(dec, r).log[MinLength(r.base, EndHop(dec, r).log)..])
  }

  function MinLength(n: nat, log: seq<Submission>): (k: nat)
    ensures k <= |log|
  {
    if n <= |log| then n else |log|
  }

  /** The record of a hop that starts as `opening` and runs over what is received at `tick`. */
  function RecordOfRun(env: Environment, opt: Options, opening: PageRecord, tick: nat): PageRecord {
    opening.(tick := tick, events := Seen(opening.x, env.dec, opening.start, env.receives(tick), opt.timeout))
  }

  lemma TurnOfRun(env: Environment, opt: Options, url: string, primary: Fetched, also: seq<Fetched>,
                  opening: PageRecord,
                  tick: nat, outcome: PageOutcome, t: Hop, ok: bool)
    requires PageStart(opt, url, primary, also, opening)
    requires (t, ok) == RunLoop(opening.x, env.dec, opening.start, env.receives(tick), opt.timeout)
    requires outcome == PageOutcomeOf(t, ok)
    ensures PageTurn(env, opt, url, primary, also, outcome, Some(RecordOfRun(env, opt, opening, tick)), t.s.primary,
                     t.s.also)
    ensures EndHop(env.dec, RecordOfRun(env, opt, opening, tick)) == t
  {
    LoopIsHopRun(opening.x, env.dec, opening.start, env.receives(tick), opt.timeout);
    assert PageStart(opt, url, primary, also, RecordOfRun(env, opt, opening, tick));
  }

  lemma RequestsOfRun(dec: Decoders, r: PageRecord, before: seq<Submission>, e: Submission)
    requires r.base == |before| && r.start.log == before + [e] && r.start.log <= EndHop(dec, r).log
    ensures PageRequests(dec, r) == [Asked(r.on.conn, e)] + Tagged(r.on.conn, EndHop(dec, r).log[|r.start.log|..])
  {
    var log := EndHop(dec, r).log;
    assert log[r.base] == r.start.log[r.base];
    assert log[r.base..] == [e] + log[r.base + 1..];
  }

  /** What asking for a page leads to: a refused request, or a run with its requests. `log` is what had been asked
      on the connection, and `answer` how the library answers there. */
  ghost predicate PageAsked(env: Environment, opt: Options, url: string, batch: (Fetched, seq<Fetched>),
                            answer: nat -> int,
                            log: seq<Submission>, on: Footing, asked: seq<Asked>, tick: nat, outcome: PageOutcome,
                            rec: Option<PageRecord>, refused: seq<Asked>, batch2: (Fetched, seq<Fetched>),
                            asked2: seq<Asked>, tick2: nat) {
    && PageTurn(env, opt, url, batch.0, batch.1, outcome, rec, batch2.0, batch2.1)
    && match rec
       case None =>
         outcome == PageFailed(NotSubmitted) && tick2 == tick && RefusedFor(url, Success(on.u), refused)
             && asked2 == asked + refused
       case Some(r) =>
         && r.on == on && r.x.answer == answer && r.tick == tick && tick2 == tick + 1
         && r.base == |log| && log <= r.start.log && asked2 == asked + PageRequests(env.dec, r)
  }

  /** The one request made was refused. */
  ghost predicate RefusedFor(url: string, u: Parsed, refused: seq<Asked>) {
    && |refused| == 1 && u.Success? && refused[0].entry.sid < 0
    && refused[0] == RequestFor(refused[0].conn, url, u.value, refused[0].entry.sid)
  }

  lemma AcceptedTurn(env: Environment, opt: Options, url: string, batch: (Fetched, seq<Fetched>), answer: nat -> int,
                     log: seq<Submission>, sid: int, on: Footing, asked: seq<Asked>, tick: nat, opening: PageRecord,
                     outcome: PageOutcome, t: Hop, ok: bool, asked2: seq<Asked>)
    requires GoodEntries(on.u.host, answer, log) && sid == answer(|log|) >= 0
    requires opening == OpeningOf(opt, url, answer, log, sid, batch.0, batch.1, on)
    requires (t, ok) == RunLoop(opening.x, env.dec, opening.start, env.receives(tick), opt.timeout)
    requires outcome == PageOutcomeOf(t, ok) && opening.start.log <= t.log
    requires asked2 == asked + [RequestFor(on.conn, url, on.u, sid)] + Tagged(on.conn, t.log[|log| + 1..])
    ensures PageAsked(env, opt, url, batch, answer, log, on, asked, tick, outcome,
                      Some(RecordOfRun(env, opt, opening, tick)), [], (t.s.primary, t.s.also), asked2, tick + 1)
  {
    var e := Submit(on.u.host, false, url, on.u, sid);
    PageStarts(opt, url, answer, log, sid, batch.0, batch.1, on);
    TurnOfRun(env, opt, url, batch.0, batch.1, opening, tick, outcome, t, ok);
    RequestsOfRun(env.dec, RecordOfRun(env, opt, opening, tick), log, e);
  }

  lemma RefusedTurn(env: Environment, opt: Options, url: string, batch: (Fetched, seq<Fetched>), answer: nat -> int,
                    log: seq<Submission>, sid: int, on: Footing, asked: seq<Asked>, tick: nat)
    requires sid < 0
    ensures PageAsked(env, opt, url, batch, answer, log, on, asked, tick, PageFailed(NotSubmitted), None,
                      [RequestFor(on.conn, url, on.u, sid)], batch, asked + [RequestFor(on.conn, url, on.u, sid)], tick)
  {}

  method AskPage(world: World, client: Client, opt: Options, batch: Batch, url: string, u: ParsedUrl, ghost on: Footing)
    returns (outcome: PageOutcome, ghost rec: Option<PageRecord>, ghost refused: seq<Asked>)
    requires client in world.clients && AllGood(world) && client.dec == world.env.dec
             && on.conn == world.clients[client]
    requires !client.goaway && client.host == u.host && on.u == u
    modifies world`tick, world`asked, batch, client
    ensures AllGood(world)
    ensures PageAsked(world.env, opt, url, old((batch.primary, batch.also)), client.answer, old(client.log), on,
                      old(world.asked), old(world.tick), outcome, rec, refused, (batch.primary, batch.also),
                      world.asked, world.tick)
  {
    ghost var log, asked, before := client.log, world.asked, (batch.primary, batch.also);
    assert GoodLog(client);
    var state, sid := OpenPage(world, client, batch, opt, url, u);
    if sid < 0 {
      RefusedTurn(world.env, opt, url, before, client.answer, log, sid, on, asked, world.tick);
      return PageFailed(NotSubmitted), None, [RequestFor(on.conn, url, u, sid)];
    }
    outcome, rec := RunAccepted(world, state, opt, url, u, log, sid, on, asked, before);
    refused := [];
  }

  /** The accepted request's hop, from its start in `state`. */
  method RunAccepted(world: World, state: RuntimeSubresourceState, opt: Options, ghost url: string, ghost u: ParsedUrl,
                     ghost log: seq<Submission>, ghost sid: int, ghost on: Footing, ghost asked: seq<Asked>,
                     ghost before: (Fetched, seq<Fetched>))
    returns (outcome: PageOutcome, ghost rec: Option<PageRecord>)
    requires state.client in world.clients && AllGood(world) && state.connHost == state.client.host
    requires on.conn == world.clients[state.client] && state.client.dec == world.env.dec && on.u == u
    requires GoodEntries(u.host, state.client.answer, log) && sid == state.client.answer(|log|) >= 0
    requires state.Ctx() == PageContext(opt, url, u, state.client.answer, sid)
    requires View(state) == OpeningOf(opt, url, state.client.answer, log, sid, before.0, before.1, on).start
    requires world.asked == asked + [RequestFor(on.conn, url, u, sid)]
    modifies world`tick, world`asked, state, state.scanner, state.batch, state.client
    ensures AllGood(world)
    ensures PageAsked(world.env, opt, url, before, state.client.answer, log, on, asked, old(world.tick), outcome,
                      rec, [],
                      (state.batch.primary, state.batch.also), world.asked, world.tick)
  {
    ghost var tick := world.tick;
    ghost var opening := OpeningOf(opt, url, state.client.answer, log, sid, before.0, before.1, on);
    ghost var ok;
    outcome, ok := RunOpened(world, state, opt);
    AcceptedTurn(world.env, opt, url, before, state.client.answer, log, sid, on, asked, tick, opening, outcome,
                 View(state),
                 ok, world.asked);
    rec := Some(RecordOfRun(world.env, opt, opening, tick));
  }

  /** The rest of a hop whose request was accepted. */
  method RunOpened(world: World, state: RuntimeSubresourceState, opt: Options)
    returns (outcome: PageOutcome, ghost done: bool)
    requires state.client in world.clients && AllGood(world) && state.connHost == state.client.host
    modifies world`tick, world`asked, state, state.scanner, state.batch, state.client
    ensures AllGood(world) && state.Ctx() == old(state.Ctx()) && world.tick == old(world.tick) + 1
    ensures (View(state), done) == RunLoop(state.Ctx(), state.client.dec, old(View(state)),
                                           world.env.receives(old(world.tick)), opt.timeout)
    ensures outcome == PageOutcomeOf(View(state), done)
    ensures old(state.client.log) <= state.client.log
    ensures world.asked == old(world.asked)
                           + Tagged(world.clients[state.client], state.client.log[|old(state.client.log)|..])
  {
    var ok := RunPage(world, state, opt);
    done := ok;
    if !ok {
      outcome := PageFailed(TooSlow);
    } else if state.client.redirectUrl != "" {
      outcome := PageRedirected(state.client.redirectUrl);
    } else {
      outcome := PageDone(state.pending, state.nextSeq);
    }
  }

  /** Why a page hop without a run has none: no request could be made, or the one made was refused. */
  function StopError(env: Environment, k: nat, opt: Options, u: Parsed, reused: bool): Problem {
    var e := HopError(env, k, opt, u, reused, true);
    if e != Fine then e else NotSubmitted
  }

  /** The record and the moment before the hop: its connection was in hand or is new, and what the client there
      had logged is what had been asked on the connection. */
  ghost predicate Stands(r: PageRecord) {
    && OnConnection(r.on.reused, r.on.begun.line, r.on.begun.asked, r.on.conn) && r.on.begun.tick <= r.tick
    && r.base <= |r.start.log| && r.start.log[..r.base] == On(r.on.begun.asked, r.on.conn)
  }

  /** The moment after a hop that has not cost its connection. */
  function EndedAt(dec: Decoders, r: PageRecord): Moment {
    Moment(r.on.begun.asked + PageRequests(dec, r), Some(r.on.conn), r.tick + 1)
  }

  /** What a turn of the page loop leaves in the world. */
  ghost predicate PageLeaves(dec: Decoders, url: string, u: Parsed, from: Moment, reused: bool, outcome: PageOutcome,
                             rec: Option<PageRecord>, refused: seq<Asked>, to: Moment) {
    match rec
    case None =>
      && to.asked == from.asked + refused && from.tick <= to.tick
      && (if outcome == PageFailed(NotSubmitted) then RefusedFor(url, u, refused) else refused == [])
    case Some(r) =>
      && u == Success(r.on.u) && r.on.begun == from && r.on.reused == reused && Stands(r)
      && to == EndedAt(dec, r).(line := to.line) && (!outcome.PageFailed? ==> to.line == Some(r.on.conn))
  }

  lemma AskedLeaves(env: Environment, opt: Options, url: string, batch: (Fetched, seq<Fetched>), answer: nat -> int,
                    log: seq<Submission>, on: Footing, tick: nat, outcome: PageOutcome, rec: Option<PageRecord>,
                    refused: seq<Asked>, batch2: (Fetched, seq<Fetched>), asked2: seq<Asked>, tick2: nat,
                    line: Option<int>)
    requires PageAsked(env, opt, url, batch, answer, log, on, on.begun.asked, tick, outcome, rec, refused, batch2,
                       asked2, tick2)
    requires log == On(on.begun.asked, on.conn) && on.begun.tick <= tick
    requires OnConnection(on.reused, on.begun.line, on.begun.asked, on.conn)
    ensures outcome.PageFailed? || line == Some(on.conn) ==>
              PageLeaves(env.dec, url, Success(on.u), on.begun, on.reused, outcome, rec, refused,
                         Moment(asked2, line, tick2))
    ensures rec.None? ==> outcome == PageFailed(NotSubmitted)
    ensures PageTurn(env, opt, url, batch.0, batch.1, outcome, rec, batch2.0, batch2.1)
  {
    if rec.Some? {
      assert rec.value.start.log[..rec.value.base] == log;
    }
  }

  /** One turn of the page loop. */
  method FetchPageHop(world: World, conn: ConnectionState, opt: Options, batch: Batch, url: string, u: Parsed)
    returns (outcome: PageOutcome, ghost rec: Option<PageRecord>, ghost refused: seq<Asked>)
    requires Owns(world, conn) && AllGood(world)
    modifies world, conn, conn.client, batch
    ensures Owns(world, conn) && AllGood(world)
    ensures conn.client != null && conn.client != old(conn.client) ==> fresh(conn.client)
    ensures rec.None? ==>
              outcome == PageFailed(StopError(world.env, old(world.tick), opt, u, old(MayReuse(conn, opt, u))))
    ensures rec.Some? ==> StopError(world.env, old(world.tick), opt, u, old(MayReuse(conn, opt, u))) == NotSubmitted
    ensures PageTurn(world.env, opt, url, old(batch.primary), old(batch.also), outcome, rec, batch.primary, batch.also)
    ensures PageLeaves(world.env.dec, url, u, old(Now(world, conn)), old(MayReuse(conn, opt, u)), outcome, rec, refused,
                       Now(world, conn))
  {
    ghost var from := Now(world, conn);
    var error;
    ghost var reused;
    error, reused := Reaching(world, conn, opt, u, true);
    rec, refused := None, [];
    if error != Fine {
      return PageFailed(error), None, [];
    }
    outcome, rec, refused := AskPageOn(world, conn, opt, batch, url, u.value, reused, from);
  }

  /** Asks on the connection; a refused or timed out page costs it. */
  method AskPageOn(world: World, conn: ConnectionState, opt: Options, batch: Batch, url: string, u: ParsedUrl,
                   ghost reused: bool, ghost from: Moment)
    returns (outcome: PageOutcome, ghost rec: Option<PageRecord>, ghost refused: seq<Asked>)
    requires Owns(world, conn) && AllGood(world)
    requires conn.client != null && !conn.client.goaway && conn.client.host == u.host
    requires world.asked == from.asked && from.tick <= world.tick
    requires OnConnection(reused, from.line, from.asked, conn.ssl.value)
    modifies world`tick, world`asked, world`open, world`released, batch, conn, conn.client
    ensures Owns(world, conn) && AllGood(world)
    ensures conn.client == if outcome.PageFailed? then null else old(conn.client)
    ensures rec.None? ==> outcome == PageFailed(NotSubmitted)
    ensures PageTurn(world.env, opt, url, old(batch.primary), old(batch.also), outcome, rec, batch.primary, batch.also)
    ensures PageLeaves(world.env.dec, url, Success(u), from, reused, outcome, rec, refused, Now(world, conn))
  {
    ghost var on := Footing(u, reused, conn.ssl.value, from);
    assert conn.client.log == On(world.asked, on.conn);
    ghost var client, log, tick, before := conn.client, conn.client.log, world.tick, (batch.primary, batch.also);
    outcome, rec, refused := AskPage(world, conn.client, opt, batch, url, u, on);
    GiveUpIf(world, conn, outcome.PageFailed?);
    AskedLeaves(world.env, opt, url, before, client.answer, log, on, tick, outcome, rec, refused,
                (batch.primary, batch.also), world.asked, world.tick, conn.ssl);
  }

  method GiveUpIf(world: World, conn: ConnectionState, failed: bool)
    requires Owns(world, conn) && AllGood(world)
    modifies world`open, world`released, conn
    ensures Owns(world, conn) && AllGood(world)
    ensures conn.client == if failed then null else old(conn.client)
    ensures !failed ==> conn.ssl == old(conn.ssl)
  {
    if failed {
      Teardown(world, conn);
    }
  }

  // ---------- The requests after the page ----------

  /** One plain fetch, and the moments before and after it. */
  datatype FetchRun = FetchRun(from: Moment, hops: seq<HopRecord>, to: Moment)

  ghost function Sound(): FetchRun -> bool {
    (run: FetchRun) => Traced(run.from, run.hops, run.to)
  }

  /** The fetches follow one another from one moment to another, and nothing else happens. */
  ghost predicate OneByOne(sound: FetchRun -> bool, from: Moment, runs: seq<FetchRun>, to: Moment) {
    if runs == [] then from == to
    else
      var last := runs[|runs| - 1];
      OneByOne(sound, from, runs[..|runs| - 1], last.from) && sound(last) && last.to == to
  }

  /** The requests of the fetches. */
  function RequestsOfRuns(runs: seq<FetchRun>): seq<Asked> {
    if runs == [] then [] else RequestsOfRuns(runs[..|runs| - 1]) + RequestsOf(runs[|runs| - 1].hops)
  }

  lemma OneMoreRun(sound: FetchRun -> bool, from: Moment, runs: seq<FetchRun>, run: FetchRun)
    requires OneByOne(sound, from, runs, run.from) && sound(run)
    ensures OneByOne(sound, from, runs + [run], run.to)
  {
    assert (runs + [run])[..|runs|] == runs;
  }

  lemma {:induction false} RunsThenRuns(sound: FetchRun -> bool, from: Moment, a: seq<FetchRun>, mid: Moment,
                                        b: seq<FetchRun>, to: Moment)
    requires OneByOne(sound, from, a, mid) && OneByOne(sound, mid, b, to)
    ensures OneByOne(sound, from, a + b, to)
    decreases |b|
  {
    if b == [] {
      assert a + b == a;
    } else {
      var n := |b| - 1;
      RunsThenRuns(sound, from, a, mid, b[..n], b[n].from);
      OneMoreRun(sound, from, a + b[..n], b[n]);
      assert a + b[..n] + [b[n]] == a + b;
    }
  }

  /** What has been asked after the fetches: what had been before, and their requests. */
  lemma {:induction false} AskedByRuns(from: Moment, runs: seq<FetchRun>, to: Moment)
    requires OneByOne(Sound(), from, runs, to)
    ensures to.asked == from.asked + RequestsOfRuns(runs) && from.tick <= to.tick
    decreases |runs|
  {
    if runs != [] {
      var n := |runs| - 1;
      AskedByRuns(from, runs[..n], runs[n].from);
      assert from.asked + RequestsOfRuns(runs[..n]) + RequestsOf(runs[n].hops) == from.asked + RequestsOfRuns(runs);
    }
  }

  /** Result `f` is number `n` of the batch, fetched for `item` in the turns `hops`. */
  ghost predicate ExtraOk(env: Environment, opt: Options, item: Item, n: int, f: Fetched, hops: seq<HopRecord>) {
    && f.requestSeq == n && f.role == "subresource" && f.source == item.source
    && PlainFetch(env, opt, item.url, f, hops)
  }

  type Fitting = (Item, int, Fetched, seq<HopRecord>) -> bool

  ghost function Fit(env: Environment, opt: Options): Fitting {
    (item: Item, n: int, f: Fetched, hops: seq<HopRecord>) => ExtraOk(env, opt, item, n, f, hops)
  }

  /** One result per item, in order, numbered from `next` on; `fit` says what makes a result the item's. */
  ghost predicate Extras(fit: Fitting, items: seq<Item>, next: int, added: seq<Fetched>, runs: seq<FetchRun>) {
    && |added| == |items| == |runs|
    && (forall i :: 0 <= i < |items| ==> fit(items[i], next + i, added[i], runs[i].hops))
    && Consecutive(next, added)
  }

  ghost predicate Consecutive(next: int, added: seq<Fetched>) {
    forall i :: 0 <= i < |added| ==> added[i].requestSeq == next + i
  }

  lemma OneMoreExtra(fit: Fitting, items: seq<Item>, next: int, added: seq<Fetched>, runs: seq<FetchRun>, item: Item,
                     f: Fetched, run: FetchRun)
    requires Extras(fit, items, next, added, runs) && fit(item, next + |items|, f, run.hops)
    requires f.requestSeq == next + |items|
    ensures Extras(fit, items + [item], next, added + [f], runs + [run])
  {}

  lemma FilterUpTo(items: seq<Item>, i: nat, keep: Item -> bool)
    requires i < |items|
    ensures Filter(items[..i + 1], keep) == Filter(items[..i], keep) + if keep(items[i]) then [items[i]] else []
  {
    assert items[..i + 1][..i] == items[..i];
  }

  function NotIn(skip: set<string>): Item -> bool {
    (item: Item) => item.url !in skip
  }

  /** Fetches every item that is not skipped, in order, and numbers the results from `next0` on. The skipped set is
      that of the start; it does not learn from these fetches. */
  method FetchExtras(world: World, conn: ConnectionState, opt: Options, batch: Batch, items: seq<Item>,
                     skip: set<string>, next0: int)
    returns (next: int, ghost added: seq<Fetched>, ghost runs: seq<FetchRun>)
    requires Owns(world, conn) && AllGood(world)
    modifies world, conn, conn.client, batch`also
    ensures Owns(world, conn) && AllGood(world)
    ensures conn.client != null && conn.client != old(conn.client) ==> fresh(conn.client)
    ensures batch.also == old(batch.also) + added && next == next0 + |added|
    ensures Extras(Fit(world.env, opt), Filter(items, NotIn(skip)), next0, added, runs)
    ensures OneByOne(Sound(), old(Now(world, conn)), runs, Now(world, conn))
  {
    next, added, runs := next0, [], [];
    ghost var from, also := Now(world, conn), batch.also;
    ghost var told := Listed(Fit(world.env, opt), items, NotIn(skip), next0, from, also);
    NoneListed(Fit(world.env, opt), items, NotIn(skip), next0, from, also);
    var i := 0;
    while i < |items|
      invariant Owns(world, conn) && AllGood(world)
      invariant conn.client != null && conn.client != old(conn.client) ==> fresh(conn.client)
      invariant i <= |items|
      invariant told(i, added, runs, Now(world, conn), next, batch.also)
    {
      next, added, runs := FetchUnlessSkipped(world, conn, opt, batch, items, i, skip, next, next0, from, also, added,
                                              runs);
      i := i + 1;
    }
    AllListed(Fit(world.env, opt), items, NotIn(skip), next0, from, also, added, runs, Now(world, conn), next,
              batch.also);
  }

  /** The first `i` items have been dealt with. */
  ghost predicate ListedTo(fit: Fitting, items: seq<Item>, keep: Item -> bool, next0: int, from: Moment,
                           also: seq<Fetched>, i: nat, added: seq<Fetched>, runs: seq<FetchRun>, to: Moment, next: int,
                           results: seq<Fetched>) {
    i <= |items| && results == also + added && SoFar(fit, Filter(items[..i], keep), next0, from, added, runs, to, next)
  }

  type Listing = (nat, seq<Fetched>, seq<FetchRun>, Moment, int, seq<Fetched>) -> bool

  ghost function Listed(fit: Fitting, items: seq<Item>, keep: Item -> bool, next0: int, from: Moment,
                        also: seq<Fetched>): Listing {
    (i: nat, added: seq<Fetched>, runs: seq<FetchRun>, to: Moment, next: int, results: seq<Fetched>) =>
      ListedTo(fit, items, keep, next0, from, also, i, added, runs, to, next, results)
  }

  lemma NoneListed(fit: Fitting, items: seq<Item>, keep: Item -> bool, next0: int, from: Moment, also: seq<Fetched>)
    ensures Listed(fit, items, keep, next0, from, also)(0, [], [], from, next0, also)
  {
    assert also + [] == also && items[..0] == [];
  }

  lemma AllListed(fit: Fitting, items: seq<Item>, keep: Item -> bool, next0: int, from: Moment, also: seq<Fetched>,
                  added: seq<Fetched>, runs: seq<FetchRun>, to: Moment, next: int, results: seq<Fetched>)
    requires Listed(fit, items, keep, next0, from, also)(|items|, added, runs, to, next, results)
    ensures results == also + added && next == next0 + |added|
    ensures Extras(fit, Filter(items, keep), next0, added, runs) && OneByOne(Sound(), from, runs, to)
  {
    assert items[..|items|] == items;
  }

  /** One item of the list, unless it is skipped. */
  method FetchUnlessSkipped(world: World, conn: ConnectionState, opt: Options, batch: Batch, items: seq<Item>, i: nat,
                            skip: set<string>, next: int, ghost next0: int, ghost from: Moment,
                            ghost also: seq<Fetched>, ghost added: seq<Fetched>, ghost runs: seq<FetchRun>)
    returns (next2: int, ghost added2: seq<Fetched>, ghost runs2: seq<FetchRun>)
    requires Owns(world, conn) && AllGood(world) && i < |items|
    requires Listed(Fit(world.env, opt), items, NotIn(skip), next0, from, also)(i, added, runs, Now(world, conn), next,
                                                                                 batch.also)
    modifies world, conn, conn.client, batch`also
    ensures Owns(world, conn) && AllGood(world)
    ensures conn.client != null && conn.client != old(conn.client) ==> fresh(conn.client)
    ensures Listed(Fit(world.env, opt), items, NotIn(skip), next0, from, also)(i + 1, added2, runs2, Now(world, conn),
                                                                                next2, batch.also)
  {
    next2, added2, runs2 := next, added, runs;
    FilterUpTo(items, i, NotIn(skip));
    if items[i].url !in skip {
      next2, added2, runs2 := FetchNext(world, conn, opt, batch, items[i], next, Filter(items[..i], NotIn(skip)), next0,
                                        from, added, runs);
      AppendRest(also, added, added2);
    }
  }

  /** Fetches an item and records its result. */
  method FetchNext(world: World, conn: ConnectionState, opt: Options, batch: Batch, item: Item, next: int,
                   ghost taken: seq<Item>, ghost next0: int, ghost from: Moment, ghost added: seq<Fetched>,
                   ghost runs: seq<FetchRun>)
    returns (next2: int, ghost added2: seq<Fetched>, ghost runs2: seq<FetchRun>)
    requires Owns(world, conn) && AllGood(world)
    requires SoFar(Fit(world.env, opt), taken, next0, from, added, runs, Now(world, conn), next)
    modifies world, conn, conn.client, batch`also
    ensures Owns(world, conn) && AllGood(world)
    ensures conn.client != null && conn.client != old(conn.client) ==> fresh(conn.client)
    ensures SoFar(Fit(world.env, opt), taken + [item], next0, from, added2, runs2, Now(world, conn), next2)
    ensures added <= added2 && batch.also == old(batch.also) + added2[|added|..]
  {
    var extra;
    ghost var run;
    extra, run := FetchExtra(world, conn, opt, item, next);
    TakeOneItem(Fit(world.env, opt), taken, next0, from, added, runs, item, extra, run);
    next2, added2, runs2 := next + 1, added + [extra], runs + [run];
    AddResult(world, conn, batch, extra);
  }

  method AddResult(world: World, conn: ConnectionState, batch: Batch, f: Fetched)
    requires Owns(world, conn) && AllGood(world)
    modifies batch`also
    ensures Owns(world, conn) && AllGood(world) && batch.also == old(batch.also) + [f]
  {
    batch.also := batch.also + [f];
  }

  lemma AppendRest(a: seq<Fetched>, b: seq<Fetched>, c: seq<Fetched>)
    requires b <= c
    ensures a + b + c[|b|..] == a + c
  {}

  /** The results of the items so far, and the next number. */
  ghost predicate SoFar(fit: Fitting, taken: seq<Item>, next0: int, from: Moment, added: seq<Fetched>,
                        runs: seq<FetchRun>,
                        to: Moment, next: int) {
    Extras(fit, taken, next0, added, runs) && OneByOne(Sound(), from, runs, to) && next == next0 + |added|
  }

  lemma TakeOneItem(fit: Fitting, taken: seq<Item>, next0: int, from: Moment, added: seq<Fetched>, runs: seq<FetchRun>,
                    item: Item, f: Fetched, run: FetchRun)
    requires SoFar(fit, taken, next0, from, added, runs, run.from, next0 + |added|)
    requires fit(item, next0 + |added|, f, run.hops) && f.requestSeq == next0 + |added| && Sound()(run)
    ensures SoFar(fit, taken + [item], next0, from, added + [f], runs + [run], run.to, next0 + |added| + 1)
  {
    OneMoreExtra(fit, taken, next0, added, runs, item, f, run);
    OneMoreRun(Sound(), from, runs, run);
  }

  method FetchExtra(world: World, conn: ConnectionState, opt: Options, item: Item, n: int)
    returns (extra: Fetched, ghost run: FetchRun)
    requires Owns(world, conn) && AllGood(world)
    modifies world, conn, conn.client
    ensures Owns(world, conn) && AllGood(world)
    ensures conn.client != null && conn.client != old(conn.client) ==> fresh(conn.client)
    ensures Fit(world.env, opt)(item, n, extra, run.hops) && extra.requestSeq == n
    ensures run.from == old(Now(world, conn)) && run.to == Now(world, conn) && Sound()(run)
  {
    ghost var hops;
    ghost var from := Now(world, conn);
    extra, hops := FetchOne(world, conn, opt, item.url);
    run := FetchRun(from, hops, Now(world, conn));
    Renumbered(world.env, opt, item, n, extra, hops);
    extra := extra.(requestSeq := n, role := "subresource", source := item.source);
  }

  lemma Renumbered(env: Environment, opt: Options, item: Item, n: int, f: Fetched, hops: seq<HopRecord>)
    requires PlainFetch(env, opt, item.url, f, hops)
    ensures ExtraOk(env, opt, item, n, f.(requestSeq := n, role := "subresource", source := item.source), hops)
  {}
}
