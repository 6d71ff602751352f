/** One plain fetch: a reused or new connection, a request, its answer, and the redirects that are followed. */
module SingleFetch {
  import opened Http2Client
  import opened Lifecycle
  import opened PageHop
  import opened Scheduler
  import opened SingleHop
  import opened UrlParser
  import opened Wrappers

  // ---------- A connection for a URL ----------

  /** What the result says of a failed connect; a page fetch does not tell a bad port from a refused tunnel. */
  function Message(e: ConnectError, page: bool): (p: Problem)
    ensures p != Fine
  {
    match e
    case NoSocket => NotConnected
    case BadPort => if page then ProxyRefused else InvalidPort
    case ProxyFailed => ProxyRefused
    case TlsInitFailed => TlsUnavailable
    case TlsFailed => TlsRefused
  }

  /** The connection in hand serves the URL: same host and port, h2, no proxy, no GOAWAY received. */
  ghost predicate Reusable(conn: ConnectionState, opt: Options, u: ParsedUrl)
    reads conn, conn.client
  {
    && conn.client != null && conn.ssl.Some? && conn.protocol == "h2" && !opt.proxy
    && u.host == conn.connHost && u.port == conn.connPort && !conn.client.goaway
  }

  /** Why there is no connection for a parsed URL, by the answers from the k-th on; `Fine` if there is one. */
  function ConnectFailure(env: Environment, k: nat, opt: Options, u: ParsedUrl, reused: bool, page: bool): Problem {
    if reused then Fine
    else
      var e := Way(env, k, opt, u).0;
      if e.Some? then Message(e.value, page) else Fine
  }

  /** The connection `c` is the one that was there, or a new one on which nothing has been asked. */
  ghost predicate OnConnection(reused: bool, before: Option<int>, asked: seq<Asked>, c: int) {
    if reused then before == Some(c) else NoneOn(asked, c)
  }

  /** The connection that is there, if it serves the URL; otherwise a new one. */
  method Prepare(world: World, conn: ConnectionState, opt: Options, u: ParsedUrl, page: bool) returns (error: Problem)
    requires Owns(world, conn) && AllGood(world)
    modifies world, conn
    ensures Owns(world, conn) && AllGood(world)
    ensures world.asked == old(world.asked) && world.tick >= old(world.tick)
    ensures conn.client != null && conn.client != old(conn.client) ==> fresh(conn.client)
    ensures error == ConnectFailure(world.env, old(world.tick), opt, u, old(Reusable(conn, opt, u)), page)
    ensures if error != Fine then conn.Cleared() else Ready(conn, u)
    ensures if old(conn.client != null && conn.ssl.Some? && conn.protocol == "h2" && !opt.proxy
                   && conn.connHost == u.host && conn.connPort == u.port && !conn.client.goaway)
            then conn.client == old(conn.client) && world.released == old(world.released)
            else error == Fine ==> conn.protocol == Way(world.env, old(world.tick), opt, u).1
    ensures error == Fine ==> OnConnection(old(Reusable(conn, opt, u)), old(conn.ssl), world.asked, conn.ssl.value)
  {
    var reuse := conn.client != null && conn.ssl.Some? && conn.protocol == "h2" && !opt.proxy
                 && u.host == conn.connHost && u.port == conn.connPort && !conn.client.goaway;
    if !reuse {
      var failure := Establish(world, conn, opt, u);
      if failure.Some? {
        return Message(failure.value, page);
      }
    }
    error := Fine;
  }

  type Parsed = Result<ParsedUrl, UrlError>

  /** Why a hop makes no request; `Fine` if it makes one. */
  function HopError(env: Environment, k: nat, opt: Options, u: Parsed, reused: bool, page: bool): Problem {
    if u.Failure? then UrlUnparsed
    else
      var e := ConnectFailure(env, k, opt, u.value, reused, page);
      if e != Fine then e
      else if !reused && Way(env, k, opt, u.value).1 != "h2" then Unsupported(Way(env, k, opt, u.value).1)
      else Fine
  }

  ghost predicate MayReuse(conn: ConnectionState, opt: Options, u: Parsed)
    reads conn, conn.client
  {
    u.Success? && Reusable(conn, opt, u.value)
  }

  /** Everything a hop does before its request. */
  method Reaching(world: World, conn: ConnectionState, opt: Options, u: Parsed, page: bool)
    returns (error: Problem, ghost reused: bool)
    requires Owns(world, conn) && AllGood(world)
    modifies world, conn
    ensures Owns(world, conn) && AllGood(world)
    ensures world.asked == old(world.asked) && world.tick >= old(world.tick)
    ensures conn.client != null && conn.client != old(conn.client) ==> fresh(conn.client)
    ensures reused == old(MayReuse(conn, opt, u))
    ensures error == HopError(world.env, old(world.tick), opt, u, reused, page)
    ensures error == Fine ==> u.Success? && Ready(conn, u.value) && conn.client != null
    ensures error == Fine ==> OnConnection(reused, old(conn.ssl), world.asked, conn.ssl.value)
  {
    reused := MayReuse(conn, opt, u);
    if u.Failure? {
      Teardown(world, conn);
      return UrlUnparsed, reused;
    }
    error := Prepare(world, conn, opt, u.value, page);
    if error == Fine && conn.protocol != "h2" {
      error := Unsupported(conn.protocol);
    }
  }

  // ---------- What comes of a request ----------

  datatype Outcome = Refused | TimedOut | Redirected(url: string) | Answered(resp: Response) | Silent

  /** The client re-armed for a request: nothing captured yet. */
  function Armed(host: string): Single {
    Single(ClientState(host, true, false, "", map[]), None)
  }

  /** What comes of an accepted request, by what the event loop leaves behind. */
  function OutcomeOf(dec: Decoders, host: string, turns: seq<Turn>, timeout: int): Outcome {
    var (t, ok) := LoopSingle(dec, Armed(host), turns, timeout);
    if !ok then TimedOut
    else if t.c.redirectUrl != "" then Redirected(t.c.redirectUrl)
    else if t.got.Some? then Answered(t.got.value)
    else Silent
  }

  /** The frames that the event loop saw. */
  function Frames(dec: Decoders, host: string, turns: seq<Turn>, timeout: int): seq<Event> {
    Processed(dec, Armed(host), turns, timeout)
  }

  /** Each outcome, told from the frames: a redirect is the Location of the last stream that ended in one, an answer the
      response of the last stream that ended with one, silence and a timeout mean that there was none. */
  ghost predicate Explained(dec: Decoders, host: string, frames: seq<Event>, o: Outcome) {
    var k, r := LastDelivery(frames, |frames|), RedirectedTo(host, frames, |frames|);
    match o
    case Refused => frames == []
    case TimedOut => k.None? && r == ""
    case Redirected(next) => next == r != ""
    case Answered(resp) => r == "" && k.Some? && resp == Decompress(dec, WholeAt(frames, k.value))
    case Silent => r == "" && k.None?
  }

  /** No stream but `sid` ends among the frames. */
  ghost predicate OnlyEnds(frames: seq<Event>, sid: int) {
    forall i :: 0 <= i < |frames| && EndsStream(frames[i]) ==> frames[i].sid == sid
  }

  /** The answer, or the redirect, is that of stream `sid`. */
  ghost predicate IsAnswerOf(dec: Decoders, host: string, sid: int, frames: seq<Event>, o: Outcome) {
    match o
    case Answered(resp) =>
      exists k: nat :: EndsInResponse(frames, k) && frames[k].sid == sid && resp == Decompress(dec, WholeAt(frames, k))
    case Redirected(next) =>
      exists k: nat :: EndsInRedirect(frames, k) && frames[k].sid == sid && next == LocationAt(host, frames, k)
    case _ => true
  }

  /** What is known of an outcome: where it comes from, and that it answers the request if no other stream ended. */
  ghost predicate Attributed(dec: Decoders, host: string, sid: int, frames: seq<Event>, o: Outcome) {
    EndsOnce(frames) ==>
          Explained(dec, host, frames, o) && (OnlyEnds(frames, sid) ==> IsAnswerOf(dec, host, sid, frames, o))
  }

  lemma OutcomeExplained(dec: Decoders, host: string, turns: seq<Turn>, timeout: int)
    requires EndsOnce(Frames(dec, host, turns, timeout))
    ensures Explained(dec, host, Frames(dec, host, turns, timeout), OutcomeOf(dec, host, turns, timeout))
  {
    var frames := Frames(dec, host, turns, timeout);
    LoopIsRun(dec, Armed(host), turns, timeout);
    TimeoutMeansNothingTerminal(dec, Armed(host), turns, timeout);
    Provenance(dec, Armed(host), frames, |frames|);
    assert frames[..|frames|] == frames;
  }

  lemma OwnIfAlone(dec: Decoders, host: string, sid: int, frames: seq<Event>, o: Outcome)
    requires Explained(dec, host, frames, o) && OnlyEnds(frames, sid)
    ensures IsAnswerOf(dec, host, sid, frames, o)
  {
    match o {
      case Answered(resp) =>
        assert EndsInResponse(frames, LastDelivery(frames, |frames|).value);
      case Redirected(next) =>
        assert EndsInRedirect(frames, LastRedirect(frames, |frames|).value);
      case _ =>
    }
  }

  /** Whatever the environment delivers, the outcome is the one the frames explain; and if no other stream ended, it is
      the response, or the Location, of the stream that was asked for. */
  lemma OutcomeIsAttributed(dec: Decoders, host: string, sid: int, turns: seq<Turn>, timeout: int)
    ensures Attributed(dec, host, sid, Frames(dec, host, turns, timeout), OutcomeOf(dec, host, turns, timeout))
  {
    if EndsOnce(Frames(dec, host, turns, timeout)) {
      OutcomeExplained(dec, host, turns, timeout);
      if OnlyEnds(Frames(dec, host, turns, timeout), sid) {
        OwnIfAlone(dec, host, sid, Frames(dec, host, turns, timeout), OutcomeOf(dec, host, turns, timeout));
      }
    }
  }

  /** The exact condition: a captured answer is that of the stream asked for if and only if the last stream that ended
      with a response among the frames is that stream. */
  lemma AnswerIsOwn(dec: Decoders, host: string, sid: int, turns: seq<Turn>, timeout: int)
    requires EndsOnce(Frames(dec, host, turns, timeout)) && OutcomeOf(dec, host, turns, timeout).Answered?
    ensures var frames := Frames(dec, host, turns, timeout);
            AnswerComesFrom(dec, Armed(host), frames, sid)
            <==> LastDelivery(frames, |frames|).Some? && frames[LastDelivery(frames, |frames|).value].sid == sid
  {
    AnswerIsOwnExactly(dec, Armed(host), Frames(dec, host, turns, timeout), sid);
  }

  // ---------- One request ----------

  /** The submission for a URL, and where it is made. */
  function RequestFor(conn: int, url: string, u: ParsedUrl, sid: int): Asked {
    Asked(conn, Submit(u.host, false, url, u, sid))
  }

  method SubmitRequest(world: World, client: Client, url: string, u: ParsedUrl) returns (sid: int)
    requires client in world.clients && AllGood(world) && client.host == u.host && !client.goaway
    modifies world`asked, client
    ensures AllGood(world) && client.View() == Reset(old(client.View()))
    ensures sid == client.answer(|old(client.log)|)
    ensures client.log == old(client.log) + [Submit(client.host, false, url, u, sid)]
    ensures world.asked == old(world.asked) + [RequestFor(world.clients[client], url, u, sid)]
  {
    assert GoodLog(client);
    ghost var log := client.log;
    client.ResetForRequest();
    sid := client.SendHeader(url, u);
    assert client.log[|log|..] == [Submit(client.host, false, url, u, sid)];
    Record(world, client, |log|);
  }

  /** Submits one request and waits; `sid` is the stream that the library gave it. */
  method Request(world: World, client: Client, opt: Options, url: string, u: ParsedUrl)
    returns (outcome: Outcome, sid: int)
    requires client in world.clients && AllGood(world)
    requires client.host == u.host && !client.goaway
    modifies world`tick, world`asked, client
    ensures AllGood(world) && world.asked == old(world.asked) + [RequestFor(world.clients[client], url, u, sid)]
    ensures sid == client.answer(|old(client.log)|)
    ensures client.log == old(client.log) + [Submit(client.host, false, url, u, sid)]
    ensures outcome == if sid < 0 then Refused
                       else OutcomeOf(client.dec, u.host, world.env.receives(old(world.tick)), opt.timeout)
    ensures world.tick == old(world.tick) + if sid < 0 then 0 else 1
  {
    sid := SubmitRequest(world, client, url, u);
    if sid < 0 {
      return Refused, sid;
    }
    var k := world.Ask();
    var turns := world.env.receives(k);
    var ok, got := RunSingleLoop(client, turns, opt.timeout);
    if !ok {
      outcome := TimedOut;
    } else if client.redirectUrl != "" {
      outcome := Redirected(client.redirectUrl);
    } else if got.Some? {
      outcome := Answered(got.value);
    } else {
      outcome := Silent;
    }
  }

  // ---------- One turn of the redirect loop ----------

  /** One turn: its URL, whether it reused the connection, its outcome (`None` if it made no request), the
      connection and the stream of its request, the time it began, and the receive that its frames came from. */
  datatype HopRecord = HopRecord(url: string, parsed: Parsed, reused: bool, outcome: Option<Outcome>, conn: int,
                                 sid: int,
                                 begun: nat, tick: nat)

  /** The request that the turn made, if it made one. */
  function RequestOf(r: HopRecord): seq<Asked> {
    if r.outcome.Some? && r.parsed.Success? then [RequestFor(r.conn, r.url, r.parsed.value, r.sid)] else []
  }

  function RequestsOf(hops: seq<HopRecord>): seq<Asked> {
    if hops == [] then [] else RequestsOf(hops[..|hops| - 1]) + RequestOf(hops[|hops| - 1])
  }

  /** The connection in hand after the turns, if it was `line` before them. */
  function LineAfter(line: Option<int>, hops: seq<HopRecord>): Option<int> {
    if hops == [] then line else Some(hops[|hops| - 1].conn)
  }

  /** Each request was made on the connection in hand or on a new one; `asked` is what had been asked before. */
  ghost predicate Wired(asked: seq<Asked>, line: Option<int>, hops: seq<HopRecord>) {
    hops == [] ||
    (var before, last := hops[..|hops| - 1], hops[|hops| - 1];
     && Wired(asked, line, before)
     && (last.outcome.Some? ==>
           OnConnection(last.reused, LineAfter(line, before), asked + RequestsOf(before), last.conn)))
  }

  /** The turn got frames. */
  predicate Received(r: HopRecord) {
    r.outcome.Some? && r.outcome != Some(Refused)
  }

  function FramesOf(env: Environment, opt: Options, r: HopRecord): seq<Event>
    requires r.parsed.Success?
  {
    Frames(env.dec, r.parsed.value.host, env.receives(r.tick), opt.timeout)
  }

  ghost predicate TurnOk(env: Environment, opt: Options, r: HopRecord) {
    && (r.outcome.None? <==> HopError(env, r.begun, opt, r.parsed, r.reused, false) != Fine)
    && (r.outcome.Some? ==> r.parsed.Success? && (r.outcome == Some(Refused) <==> r.sid < 0))
    && (Received(r) ==>
          && r.outcome == Some(OutcomeOf(env.dec, r.parsed.value.host, env.receives(r.tick), opt.timeout))
          && Attributed(env.dec, r.parsed.value.host, r.sid, FramesOf(env, opt, r), r.outcome.value))
  }

  ghost predicate RecordOk(env: Environment, opt: Options, r: HopRecord) {
    r.parsed == Parse(r.url) && TurnOk(env, opt, r)
  }

  predicate GoesOn(o: Option<Outcome>) {
    o.Some? && (o.value.Redirected? || o.value.Answered? || o.value.Silent?)
  }

  /** The error of a fetch whose last turn was `r`. */
  function RecordError(env: Environment, opt: Options, r: HopRecord): Problem {
    match r.outcome
    case None => HopError(env, r.begun, opt, r.parsed, r.reused, false)
    case Some(Refused) => NotSubmitted
    case Some(TimedOut) => TooSlow
    case Some(Answered(_)) => Fine
    case Some(_) => NoAnswer
  }

  /** The turn lies between two readings of the clock. */
  ghost predicate Between(lo: nat, r: HopRecord, hi: nat) {
    lo <= r.begun <= r.tick <= hi && (Received(r) ==> r.tick < hi)
  }

  method FetchHop(world: World, conn: ConnectionState, opt: Options, url: string)
    returns (error: Problem, outcome: Option<Outcome>, ghost rec: HopRecord)
    requires Owns(world, conn) && AllGood(world)
    modifies world, conn, conn.client
    ensures Owns(world, conn) && AllGood(world)
    ensures conn.client != null && conn.client != old(conn.client) ==> fresh(conn.client)
    ensures rec.reused == old(MayReuse(conn, opt, Parse(url))) && rec.outcome == outcome
    ensures Turned(world.env, opt, url, Parse(url), old(Now(world, conn)), rec, error, Now(world, conn))
  {
    var parsed := ParseUrl(url);
    error, outcome, rec := FetchParsed(world, conn, opt, url, parsed);
  }

  lemma TurnWithRequest(env: Environment, opt: Options, r: HopRecord)
    requires HopError(env, r.begun, opt, r.parsed, r.reused, false) == Fine && r.parsed.Success? && r.outcome.Some?
    requires r.outcome.value == if r.sid < 0 then Refused
                                else OutcomeOf(env.dec, r.parsed.value.host, env.receives(r.tick), opt.timeout)
    ensures TurnOk(env, opt, r)
  {
    OutcomeIsAttributed(env.dec, r.parsed.value.host, r.sid, env.receives(r.tick), opt.timeout);
  }

  /** What a turn says of itself, and leaves in the world. */
  ghost predicate Turned(env: Environment, opt: Options, url: string, parsed: Parsed, from: Moment, rec: HopRecord,
                         error: Problem, to: Moment) {
    && rec.url == url && rec.parsed == parsed && TurnOk(env, opt, rec)
    && rec.begun == from.tick && Between(from.tick, rec, to.tick)
    && error == (if GoesOn(rec.outcome) then Fine else RecordError(env, opt, rec))
    && to.asked == from.asked + RequestOf(rec)
    && (rec.outcome.Some? ==> OnConnection(rec.reused, from.line, from.asked, rec.conn))
    && (GoesOn(rec.outcome) ==> to.line == Some(rec.conn))
  }

  method FetchParsed(world: World, conn: ConnectionState, opt: Options, url: string, parsed: Parsed)
    returns (error: Problem, outcome: Option<Outcome>, ghost rec: HopRecord)
    requires Owns(world, conn) && AllGood(world)
    modifies world, conn, conn.client
    ensures Owns(world, conn) && AllGood(world)
    ensures conn.client != null && conn.client != old(conn.client) ==> fresh(conn.client)
    ensures rec.reused == old(MayReuse(conn, opt, parsed)) && rec.outcome == outcome
    ensures Turned(world.env, opt, url, parsed, old(Now(world, conn)), rec, error, Now(world, conn))
  {
    ghost var reused;
    ghost var begun := world.tick;
    error, reused := Reaching(world, conn, opt, parsed, false);
    outcome, rec := None, HopRecord(url, parsed, reused, None, -1, -1, begun, world.tick);
    if error == Fine {
      error, outcome, rec := AskRecorded(world, conn, opt, url, parsed, reused, begun);
    }
  }

  /** The rest of a turn that has a connection. */
  method AskRecorded(world: World, conn: ConnectionState, opt: Options, url: string, parsed: Parsed,
                     ghost reused: bool, ghost begun: nat)
    returns (error: Problem, outcome: Option<Outcome>, ghost rec: HopRecord)
    requires Owns(world, conn) && AllGood(world)
    requires parsed.Success? && Ready(conn, parsed.value) && conn.client != null && begun <= world.tick
    requires HopError(world.env, begun, opt, parsed, reused, false) == Fine
    modifies world`tick, world`asked, world`open, world`released, conn, conn.client
    ensures Owns(world, conn) && AllGood(world)
    ensures conn.client == null || conn.client == old(conn.client)
    ensures rec.reused == reused && rec.outcome == outcome && outcome.Some? && rec.conn == old(conn.ssl.value)
    ensures rec.url == url && rec.parsed == parsed && rec.begun == begun && TurnOk(world.env, opt, rec)
    ensures Between(begun, rec, world.tick)
    ensures error == if GoesOn(rec.outcome) then Fine else RecordError(world.env, opt, rec)
    ensures world.asked == old(world.asked) + RequestOf(rec)
    ensures GoesOn(rec.outcome) ==> conn.ssl == Some(rec.conn)
  {
    ghost var tick, line := world.tick, conn.ssl.value;
    var answer, sid;
    error, answer, sid := AskOn(world, conn, opt, url, parsed.value);
    outcome, rec := Some(answer), HopRecord(url, parsed, reused, Some(answer), line, sid, begun, tick);
    TurnWithRequest(world.env, opt, rec);
  }

  /** Makes the request on the connection; a refused or timed out request costs the connection. */
  method AskOn(world: World, conn: ConnectionState, opt: Options, url: string, u: ParsedUrl)
    returns (error: Problem, outcome: Outcome, sid: int)
    requires Owns(world, conn) && AllGood(world)
    requires conn.client != null && !conn.client.goaway && conn.client.host == u.host && conn.ssl.Some?
    modifies world`tick, world`asked, world`open, world`released, conn, conn.client
    ensures Owns(world, conn) && AllGood(world)
    ensures world.asked == old(world.asked) + [RequestFor(old(conn.ssl.value), url, u, sid)]
    ensures sid == old(conn.client).answer(|old(conn.client.log)|)
    ensures outcome == if sid < 0 then Refused
                       else OutcomeOf(world.env.dec, u.host, world.env.receives(old(world.tick)), opt.timeout)
    ensures conn.client == if outcome.Refused? || outcome.TimedOut? then null else old(conn.client)
    ensures conn.client != null ==> conn.ssl == old(conn.ssl)
    ensures error == if outcome.Refused? then NotSubmitted else if outcome.TimedOut? then TooSlow else Fine
    ensures world.tick == old(world.tick) + if sid < 0 then 0 else 1
  {
    error := Fine;
    outcome, sid := Request(world, conn.client, opt, url, u);
    if outcome.Refused? || outcome.TimedOut? {
      error := if outcome.Refused? then NotSubmitted else TooSlow;
      Teardown(world, conn);
    }
  }

  // ---------- The redirect loop ----------

  /** Each turn is as `fits` says, and each but the last was answered by a redirect to the next turn's URL. */
  ghost predicate Chain(fits: HopRecord -> bool, hops: seq<HopRecord>) {
    && (forall i :: 0 <= i < |hops| ==> fits(hops[i]))
    && (forall i :: 0 <= i < |hops| - 1 ==> hops[i].outcome == Some(Redirected(hops[i + 1].url)))
  }

  ghost function Recorded(env: Environment, opt: Options): HopRecord -> bool {
    (r: HopRecord) => RecordOk(env, opt, r)
  }

  lemma ChainOne(fits: HopRecord -> bool, hops: seq<HopRecord>, rec: HopRecord)
    requires Chain(fits, hops) && fits(rec)
    requires hops != [] ==> hops[|hops| - 1].outcome == Some(Redirected(rec.url))
    ensures Chain(fits, hops + [rec])
  {}

  /** The turns follow one another in time, between two readings of the clock; none uses another's receive. */
  ghost predicate Span(lo: nat, hops: seq<HopRecord>, hi: nat) {
    && lo <= hi
    && (forall i :: 0 <= i < |hops| ==> Between(lo, hops[i], hi))
    && (forall i, j :: 0 <= i < j < |hops| && Received(hops[i]) ==> hops[i].tick < hops[j].begun)
  }

  /** What turns leave in the world: exactly their requests, in order, each on the connection in hand or a new
      one; after the last of them that connection is still in hand, unless the turn has cost it. */
  ghost predicate Traced(from: Moment, hops: seq<HopRecord>, to: Moment) {
    && to.asked == from.asked + RequestsOf(hops) && Wired(from.asked, from.line, hops) && Span(from.tick, hops, to.tick)
    && (hops == [] || GoesOn(hops[|hops| - 1].outcome) ==> to.line == LineAfter(from.line, hops))
  }

  lemma Associate(a: seq<Asked>, b: seq<Asked>, c: seq<Asked>)
    ensures a + b + c == a + (b + c)
  {}

  lemma TracedOne(from: Moment, hops: seq<HopRecord>, mid: Moment, rec: HopRecord, to: Moment)
    requires Traced(from, hops, mid) && mid.line == LineAfter(from.line, hops)
    requires to.asked == mid.asked + RequestOf(rec) && Between(mid.tick, rec, to.tick)
    requires rec.outcome.Some? ==> OnConnection(rec.reused, mid.line, mid.asked, rec.conn)
    requires GoesOn(rec.outcome) ==> to.line == Some(rec.conn)
    ensures Traced(from, hops + [rec], to)
  {
    assert (hops + [rec])[..|hops|] == hops;
    Associate(from.asked, RequestsOf(hops), RequestOf(rec));
    SpanOne(from.tick, hops, mid.tick, rec, to.tick);
  }

  lemma SpanOne(lo: nat, hops: seq<HopRecord>, mid: nat, rec: HopRecord, hi: nat)
    requires Span(lo, hops, mid) && Between(mid, rec, hi)
    ensures Span(lo, hops + [rec], hi)
  {}

  /** What a plain fetch returns, told from its turns: each turn but the last was answered by a redirect to the next
      turn's URL, the last one is where the result comes from, and exactly a result without error is a response. */
  ghost predicate PlainFetch(env: Environment, opt: Options, url: string, f: Fetched, hops: seq<HopRecord>) {
    && (f.ok <==> f.error == Fine)
    && (hops == [] <==> opt.maxRedirects <= 0) && |hops| <= (if opt.maxRedirects > 0 then opt.maxRedirects else 0)
    && Chain(Recorded(env, opt), hops)
    && (if hops == [] then f.error == NoAnswer && f.finalUrl == ""
        else hops[0].url == url && f.finalUrl == hops[|hops| - 1].url && ResultOf(env, opt, hops[|hops| - 1], f))
  }

  ghost predicate ResultOf(env: Environment, opt: Options, last: HopRecord, f: Fetched) {
    (f.ok <==> last.outcome == Some(Answered(f.resp))) && f.error == RecordError(env, opt, last)
  }

  /** The state of the redirect loop before its next turn. */
  ghost predicate Following(env: Environment, opt: Options, url: string, target: string, hops: seq<HopRecord>) {
    && Chain(Recorded(env, opt), hops)
    && (if hops == [] then target == url
        else hops[0].url == url && hops[|hops| - 1].outcome == Some(Redirected(target)))
  }

  lemma FollowOne(env: Environment, opt: Options, url: string, target: string, hops: seq<HopRecord>, rec: HopRecord)
    requires Following(env, opt, url, target, hops) && rec.url == target && RecordOk(env, opt, rec)
    requires rec.outcome.Some? && rec.outcome.value.Redirected?
    ensures Following(env, opt, url, rec.outcome.value.url, hops + [rec])
  {
    ChainOne(Recorded(env, opt), hops, rec);
  }

  lemma LastHop(env: Environment, opt: Options, url: string, target: string, hops: seq<HopRecord>, rec: HopRecord,
                f: Fetched)
    requires Following(env, opt, url, target, hops) && rec.url == target && RecordOk(env, opt, rec)
    requires |hops| < opt.maxRedirects
    requires (f.ok <==> f.error == Fine) && f.finalUrl == target && ResultOf(env, opt, rec, f)
    ensures PlainFetch(env, opt, url, f, hops + [rec])
  {
    ChainOne(Recorded(env, opt), hops, rec);
  }

  lemma LimitReached(env: Environment, opt: Options, url: string, target: string, hops: seq<HopRecord>, f: Fetched)
    requires Following(env, opt, url, target, hops) && !f.ok && f.error == NoAnswer
    requires if hops == [] then opt.maxRedirects <= 0 && f.finalUrl == ""
             else opt.maxRedirects == |hops| && f.finalUrl == hops[|hops| - 1].url
    ensures PlainFetch(env, opt, url, f, hops)
  {}

  /** A result that is neither a response nor an error becomes an error. */
  function Closed(f: Fetched): Fetched {
    if !f.ok && f.error == Fine then f.(error := NoAnswer) else f
  }

  function WithAnswer(f: Fetched, o: Outcome): Fetched {
    if o.Answered? then f.(ok := true, resp := o.resp) else f
  }

  /** Between two turns: still following redirects, or finished with a result that only has to be closed. */
  ghost predicate BetweenHops(env: Environment, opt: Options, url: string, target: string, hops: seq<HopRecord>,
                              f: Fetched,
                              finished: bool) {
    if finished then (f.ok ==> f.error == Fine) && PlainFetch(env, opt, url, Closed(f), hops)
    else
      && Following(env, opt, url, target, hops) && !f.ok && f.error == Fine
      && f.finalUrl == if hops == [] then "" else hops[|hops| - 1].url
  }

  lemma HopTaken(env: Environment, opt: Options, url: string, target: string, hops: seq<HopRecord>, f: Fetched,
                 rec: HopRecord)
    requires BetweenHops(env, opt, url, target, hops, f, false) && |hops| < opt.maxRedirects
    requires rec.url == target && RecordOk(env, opt, rec)
    ensures var g := f.(finalUrl := target);
            if !GoesOn(rec.outcome)
                then PlainFetch(env, opt, url, g.(error := RecordError(env, opt, rec)), hops + [rec])
            else if rec.outcome.value.Redirected? then
              BetweenHops(env, opt, url, rec.outcome.value.url, hops + [rec], g, false)
            else BetweenHops(env, opt, url, target, hops + [rec], WithAnswer(g, rec.outcome.value), true)
  {
    if !GoesOn(rec.outcome) {
      HopFailed(env, opt, url, target, hops, f, rec);
    } else if rec.outcome.value.Redirected? {
      FollowOne(env, opt, url, target, hops, rec);
    } else {
      HopFinished(env, opt, url, target, hops, f, rec);
    }
  }

  lemma HopFailed(env: Environment, opt: Options, url: string, target: string, hops: seq<HopRecord>, f: Fetched,
                  rec: HopRecord)
    requires BetweenHops(env, opt, url, target, hops, f, false) && |hops| < opt.maxRedirects
    requires rec.url == target && RecordOk(env, opt, rec) && !GoesOn(rec.outcome)
    ensures PlainFetch(env, opt, url, f.(finalUrl := target, error := RecordError(env, opt, rec)), hops + [rec])
  {
    LastHop(env, opt, url, target, hops, rec, f.(finalUrl := target, error := RecordError(env, opt, rec)));
  }

  lemma HopFinished(env: Environment, opt: Options, url: string, target: string, hops: seq<HopRecord>, f: Fetched,
                    rec: HopRecord)
    requires BetweenHops(env, opt, url, target, hops, f, false) && |hops| < opt.maxRedirects
    requires rec.url == target && RecordOk(env, opt, rec) && GoesOn(rec.outcome) && !rec.outcome.value.Redirected?
    ensures BetweenHops(env, opt, url, target, hops + [rec], WithAnswer(f.(finalUrl := target), rec.outcome.value),
                        true)
  {
    LastHop(env, opt, url, target, hops, rec, Closed(WithAnswer(f.(finalUrl := target), rec.outcome.value)));
  }

  /** The result so far, with what a turn adds. */
  function Noted(f: Fetched, target: string, error: Problem, outcome: Option<Outcome>): Fetched {
    var g := f.(finalUrl := target);
    if error != Fine || outcome.None? then g.(error := error) else WithAnswer(g, outcome.value)
  }

  lemma TurnNoted(env: Environment, opt: Options, url: string, target: string, before: seq<HopRecord>, f: Fetched,
                  rec: HopRecord, error: Problem, from: Moment, mid: Moment, to: Moment)
    requires BetweenHops(env, opt, url, target, before, f, false) && |before| < opt.maxRedirects
    requires Traced(from, before, mid) && mid.line == LineAfter(from.line, before)
    requires Turned(env, opt, target, Parse(target), mid, rec, error, to)
    ensures Traced(from, before + [rec], to)
    ensures Advanced(env, opt, url, target, before + [rec], Noted(f, target, error, rec.outcome), rec.outcome)
    ensures GoesOn(rec.outcome) ==> to.line == LineAfter(from.line, before + [rec])
  {
    TracedOne(from, before, mid, rec, to);
    HopTaken(env, opt, url, target, before, f, rec);
  }

  /** One turn, and the result so far with what it adds. */
  method TakeTurn(world: World, conn: ConnectionState, opt: Options, target: string, result: Fetched, ghost url: string,
                  ghost before: seq<HopRecord>, ghost from: Moment)
    returns (outcome: Option<Outcome>, f: Fetched, ghost hops: seq<HopRecord>)
    requires Owns(world, conn) && AllGood(world)
    requires BetweenHops(world.env, opt, url, target, before, result, false) && |before| < opt.maxRedirects
    requires Traced(from, before, Now(world, conn)) && conn.ssl == LineAfter(from.line, before)
    modifies world, conn, conn.client
    ensures Owns(world, conn) && AllGood(world)
    ensures conn.client != null && conn.client != old(conn.client) ==> fresh(conn.client)
    ensures |hops| == |before| + 1 && Traced(from, hops, Now(world, conn))
    ensures GoesOn(outcome) ==> conn.ssl == LineAfter(from.line, hops)
    ensures Advanced(world.env, opt, url, target, hops, f, outcome)
  {
    var error;
    ghost var rec;
    ghost var mid := Now(world, conn);
    error, outcome, rec := FetchHop(world, conn, opt, target);
    TurnNoted(world.env, opt, url, target, before, result, rec, error, from, mid, Now(world, conn));
    hops := before + [rec];
    f := Noted(result, target, error, outcome);
  }

  /** Where a turn has led: to the end with an error, to a next URL, or to the end with or without a response. */
  ghost predicate Advanced(env: Environment, opt: Options, url: string, target: string, hops: seq<HopRecord>,
                           f: Fetched,
                           outcome: Option<Outcome>) {
    if !GoesOn(outcome) then PlainFetch(env, opt, url, f, hops)
    else if outcome.value.Redirected? then BetweenHops(env, opt, url, outcome.value.url, hops, f, false)
    else BetweenHops(env, opt, url, target, hops, f, true)
  }

  method FetchOne(world: World, conn: ConnectionState, opt: Options, startUrl: string)
    returns (result: Fetched, ghost hops: seq<HopRecord>)
    requires Owns(world, conn) && AllGood(world)
    modifies world, conn, conn.client
    ensures Owns(world, conn) && AllGood(world)
    ensures conn.client != null && conn.client != old(conn.client) ==> fresh(conn.client)
    ensures PlainFetch(world.env, opt, startUrl, result, hops)
    ensures Traced(old(Now(world, conn)), hops, Now(world, conn))
  {
    result, hops := NO_FETCH, [];
    var target, finished, hop := startUrl, false, 0;
    while hop < opt.maxRedirects && !finished
      invariant Owns(world, conn) && AllGood(world)
      invariant conn.client != null && conn.client != old(conn.client) ==> fresh(conn.client)
      invariant Traced(old(Now(world, conn)), hops, Now(world, conn))
      invariant conn.ssl == LineAfter(old(conn.ssl), hops)
      invariant |hops| == hop && (hop == 0 || hop <= opt.maxRedirects)
      invariant BetweenHops(world.env, opt, startUrl, target, hops, result, finished)
    {
      var outcome;
      outcome, result, hops := TakeTurn(world, conn, opt, target, result, startUrl, hops, old(Now(world, conn)));
      hop := hop + 1;
      if !GoesOn(outcome) {
        return;
      }
      if outcome.value.Redirected? {
        target := outcome.value.url;
      } else {
        finished := true;
      }
    }
    if !finished {
      LimitReached(world.env, opt, startUrl, target, hops, Closed(result));
    }
    result := Closed(result);
  }

  // ---------- What the result of a fetch is ----------

  /** Where the next URL of a redirected turn comes from: it is the Location of the last stream that ended in a
      redirect; and it is the request's own redirect exactly when that is the stream that the request got. */
  ghost predicate NextExplained(env: Environment, opt: Options, r: HopRecord, sid: int, next: string) {
    r.parsed.Success? &&
    var frames := FramesOf(env, opt, r);
    var k := LastRedirect(frames, |frames|);
    && k.Some? && next == LocationAt(r.parsed.value.host, frames, k.value)
    && LedFrom(r.parsed.value.host, frames, k.value, next)
    && (RedirectIsOf(env.dec, Armed(r.parsed.value.host), frames, sid) <==> frames[k.value].sid == sid)
  }

  /** Where the response of the last turn comes from: it is that of the last stream that ended in one; and it
      answers the turn's request exactly when that is the stream that the request got. */
  ghost predicate ResponseExplained(env: Environment, opt: Options, r: HopRecord, sid: int, resp: Response) {
    r.parsed.Success? &&
    var frames := FramesOf(env, opt, r);
    var k := LastDelivery(frames, |frames|);
    && k.Some? && resp == Decompress(env.dec, WholeAt(frames, k.value))
    && (AnswerComesFrom(env.dec, Armed(r.parsed.value.host), frames, sid) <==> frames[k.value].sid == sid)
  }

  /** No stream ends twice among the frames of the turn, if it got any. */
  ghost predicate Regular(env: Environment, opt: Options, r: HopRecord) {
    r.parsed.Success? ==> EndsOnce(FramesOf(env, opt, r))
  }

  lemma TurnIsExplained(env: Environment, opt: Options, r: HopRecord, sid: int)
    requires RecordOk(env, opt, r) && Received(r) && Regular(env, opt, r)
    ensures r.outcome.value.Redirected? ==> NextExplained(env, opt, r, sid, r.outcome.value.url)
    ensures r.outcome.value.Answered? ==> ResponseExplained(env, opt, r, sid, r.outcome.value.resp)
  {
    if r.outcome.value.Answered? {
      AnswerIsOwn(env.dec, r.parsed.value.host, sid, env.receives(r.tick), opt.timeout);
    } else {
      RedirectIsOwn(env.dec, Armed(r.parsed.value.host), FramesOf(env, opt, r), sid);
      if r.outcome.value.Redirected? {
        LastLeads(r.parsed.value.host, FramesOf(env, opt, r));
      }
    }
  }

  /** If every turn made its request, the requests and the turns go together. */
  lemma {:induction false} RequestOfEach(hops: seq<HopRecord>)
    requires forall i :: 0 <= i < |hops| ==> RequestOf(hops[i]) != []
    ensures |RequestsOf(hops)| == |hops|
    ensures forall i :: 0 <= i < |hops| ==> RequestOf(hops[i]) == [RequestsOf(hops)[i]]
    decreases |hops|
  {
    if hops != [] {
      RequestOfEach(hops[..|hops| - 1]);
    }
  }

  /** A whole plain fetch that returns a response, told with the requests that it made. There is one for each
      turn, the first for the caller's URL. Each further request is for the Location that a stream of the turn
      before ended with, the response is what a stream of the last turn ended with, and each is what its own
      turn's request was answered, or not, as that stream is or is not the one which the request got. */
  lemma FetchIsExplained(env: Environment, opt: Options, url: string, f: Fetched, hops: seq<HopRecord>,
                         made: seq<Asked>)
    requires PlainFetch(env, opt, url, f, hops) && f.ok && made == RequestsOf(hops)
    requires forall i :: 0 <= i < |hops| ==> Regular(env, opt, hops[i])
    ensures |made| == |hops| > 0 && made[0].entry.url == url && made[|made| - 1].entry.url == f.finalUrl
    ensures ResponseExplained(env, opt, hops[|hops| - 1], made[|made| - 1].entry.sid, f.resp)
    ensures forall i :: 0 <= i < |hops| - 1 ==>
              NextExplained(env, opt, hops[i], made[i].entry.sid, made[i + 1].entry.url)
  {
    var n := |hops| - 1;
    TurnsOfFetch(env, opt, url, f, hops);
    RequestOfEach(hops);
    assert RequestOf(hops[0]) == [made[0]] && RequestOf(hops[n]) == [made[n]];
    TurnOfChain(env, opt, hops, n, made[n].entry.sid);
    forall i | 0 <= i < n ensures NextExplained(env, opt, hops[i], made[i].entry.sid, made[i + 1].entry.url) {
      assert hops[i].outcome == Some(Redirected(hops[i + 1].url));
      assert RequestOf(hops[i + 1]) == [made[i + 1]];
      TurnOfChain(env, opt, hops, i, made[i].entry.sid);
    }
  }

  /** In a fetch that returns a response every turn made its request and was answered. */
  lemma TurnsOfFetch(env: Environment, opt: Options, url: string, f: Fetched, hops: seq<HopRecord>)
    requires PlainFetch(env, opt, url, f, hops) && f.ok
    ensures hops != [] && hops[|hops| - 1].outcome == Some(Answered(f.resp))
    ensures forall i :: 0 <= i < |hops| ==> Received(hops[i]) && RecordOk(env, opt, hops[i]) && RequestOf(hops[i]) != []
  {
    forall i | 0 <= i < |hops| ensures Received(hops[i]) && RecordOk(env, opt, hops[i]) && RequestOf(hops[i]) != [] {
      assert Recorded(env, opt)(hops[i]);
      assert i < |hops| - 1 ==> hops[i].outcome == Some(Redirected(hops[i + 1].url));
    }
  }

  lemma TurnOfChain(env: Environment, opt: Options, hops: seq<HopRecord>, i: nat, sid: int)
    requires Chain(Recorded(env, opt), hops) && i < |hops| && Received(hops[i]) && Regular(env, opt, hops[i])
    ensures hops[i].outcome.value.Redirected? ==> NextExplained(env, opt, hops[i], sid, hops[i].outcome.value.url)
    ensures hops[i].outcome.value.Answered? ==> ResponseExplained(env, opt, hops[i], sid, hops[i].outcome.value.resp)
  {
    assert Recorded(env, opt)(hops[i]);
    TurnIsExplained(env, opt, hops[i], sid);
  }
}
