/** Which streams are open on the process's connections, and what that says of the answers: told from the requests
    and the frames, for a library that ends only streams that are open, and each once. */
module OpenStreams {
  import opened Http2Client
  import opened Lifecycle
  import opened PageAnswers
  import opened PageFetch
  import opened PageHop
  import opened PageLoop
  import opened PageResults
  import opened Scheduler
  import opened SingleFetch
  import opened SingleHop
  import opened SubresourceScanner
  import opened Wrappers

  /** A connection and a stream on it. */
  type Stream = (int, int)

  /** The streams that the requests got. */
  function StreamsAsked(asked: seq<Asked>): set<Stream> {
    set a | a in asked && a.entry.sid >= 0 :: (a.conn, a.entry.sid)
  }

  function EndedOn(conn: int, events: seq<Event>): set<Stream> {
    set sid | sid in EndedSids(events) :: (conn, sid)
  }

  /** No stream is open on the connection. */
  ghost predicate ClearOn(open: set<Stream>, conn: int) {
    forall s :: s in open ==> s.0 != conn
  }

  ghost predicate ClearOnLine(open: set<Stream>, line: Option<int>) {
    line.Some? ==> ClearOn(open, line.value)
  }

  /** On a connection on which nothing has been asked no stream is open. */
  lemma NewIsClear(open: set<Stream>, asked: seq<Asked>, conn: int)
    requires open <= StreamsAsked(asked) && NoneOn(asked, conn)
    ensures ClearOn(open, conn)
  {}

  // ---------- One turn ----------

  function FramesSeen(env: Environment, opt: Options, r: HopRecord): seq<Event> {
    if Received(r) && r.parsed.Success? then FramesOf(env, opt, r) else []
  }

  /** The turn's request opens its stream, and the frames close those that end. */
  function OpenAfterTurn(env: Environment, opt: Options, open: set<Stream>, r: HopRecord): set<Stream> {
    if Received(r) then open + {(r.conn, r.sid)} - EndedOn(r.conn, FramesSeen(env, opt, r)) else open
  }

  /** Only streams that are open on the connection end, and each once. */
  ghost predicate EndsOnlyOpen(env: Environment, opt: Options, open: set<Stream>, r: HopRecord) {
    Received(r) ==>
      EndsOnce(FramesSeen(env, opt, r)) && EndedOn(r.conn, FramesSeen(env, opt, r)) <= open + {(r.conn, r.sid)}
  }

  /** The turn's outcome is what its own request, which got stream `sid`, was answered; no other stream ended. */
  ghost predicate OwnTurn(env: Environment, opt: Options, r: HopRecord, sid: int, o: Outcome) {
    && r.parsed.Success? && r.outcome == Some(o) && OnlyEnds(FramesOf(env, opt, r), sid)
    && IsAnswerOf(env.dec, r.parsed.value.host, sid, FramesOf(env, opt, r), o)
  }

  lemma OnlyOwnEnds(open: set<Stream>, conn: int, sid: int, events: seq<Event>)
    requires ClearOn(open, conn) && EndedOn(conn, events) <= open + {(conn, sid)}
    ensures OnlyEnds(events, sid)
    ensures sid in EndedSids(events) ==> open + {(conn, sid)} - EndedOn(conn, events) == open
  {
    forall i | 0 <= i < |events| && EndsStream(events[i]) ensures events[i].sid == sid {
      assert events[i].sid in EndedSids(events);
      assert (conn, events[i].sid) in EndedOn(conn, events);
    }
  }

  lemma OwnHasEnded(dec: Decoders, host: string, sid: int, events: seq<Event>, o: Outcome)
    requires IsAnswerOf(dec, host, sid, events, o) && (o.Answered? || o.Redirected?)
    ensures sid in EndedSids(events)
  {}

  /** A turn that is answered or redirected, on a connection without other open streams, is answered by its own
      stream, and leaves no other open than before. */
  lemma TurnClosesItsOwn(env: Environment, opt: Options, open: set<Stream>, r: HopRecord, o: Outcome)
    requires RecordOk(env, opt, r) && r.outcome == Some(o) && (o.Answered? || o.Redirected?)
    requires ClearOn(open, r.conn) && EndsOnlyOpen(env, opt, open, r)
    ensures OwnTurn(env, opt, r, r.sid, o) && OpenAfterTurn(env, opt, open, r) == open
  {
    OnlyOwnEnds(open, r.conn, r.sid, FramesOf(env, opt, r));
    OwnHasEnded(env.dec, r.parsed.value.host, r.sid, FramesOf(env, opt, r), o);
  }

  // ---------- A whole fetch ----------

  function OpenAfter(env: Environment, opt: Options, open: set<Stream>, hops: seq<HopRecord>): set<Stream> {
    if hops == [] then open
    else OpenAfterTurn(env, opt, OpenAfter(env, opt, open, hops[..|hops| - 1]), hops[|hops| - 1])
  }

  ghost predicate WellEnded(env: Environment, opt: Options, open: set<Stream>, hops: seq<HopRecord>) {
    hops == [] ||
    (var before, last := hops[..|hops| - 1], hops[|hops| - 1];
     WellEnded(env, opt, open, before) && EndsOnlyOpen(env, opt, OpenAfter(env, opt, open, before), last))
  }

  /** Each turn was answered, by a response or a redirect. */
  ghost predicate AllAnswered(env: Environment, opt: Options, hops: seq<HopRecord>) {
    forall r :: r in hops ==>
      RecordOk(env, opt, r) && r.outcome.Some? && (r.outcome.value.Answered? || r.outcome.value.Redirected?)
  }

  ghost predicate AllOwn(env: Environment, opt: Options, hops: seq<HopRecord>) {
    forall r :: r in hops ==> r.outcome.Some? && OwnTurn(env, opt, r, r.sid, r.outcome.value)
  }

  lemma LineIsClear(open: set<Stream>, asked: seq<Asked>, more: seq<Asked>, line: Option<int>, r: HopRecord)
    requires open <= StreamsAsked(asked) && ClearOnLine(open, line)
             && OnConnection(r.reused, line, asked + more, r.conn)
    ensures ClearOn(open, r.conn)
  {
    if !r.reused {
      assert forall a :: a in asked ==> a in asked + more;
      NewIsClear(open, asked, r.conn);
    }
  }

  /** By induction over the turns: on a connection without open streams each is answered by its own stream, and
      closes it. */
  lemma {:induction false} TurnsCloseTheirOwn(env: Environment, opt: Options, open: set<Stream>, asked: seq<Asked>,
                                              line: Option<int>, hops: seq<HopRecord>)
    requires AllAnswered(env, opt, hops) && Wired(asked, line, hops) && WellEnded(env, opt, open, hops)
    requires open <= StreamsAsked(asked) && ClearOnLine(open, line)
    ensures AllOwn(env, opt, hops) && OpenAfter(env, opt, open, hops) == open
            && ClearOnLine(open, LineAfter(line, hops))
    decreases |hops|
  {
    if hops != [] {
      var before, last := hops[..|hops| - 1], hops[|hops| - 1];
      assert last in hops;
      TurnsCloseTheirOwn(env, opt, open, asked, line, before);
      LineIsClear(open, asked, RequestsOf(before), LineAfter(line, before), last);
      TurnClosesItsOwn(env, opt, open, last, last.outcome.value);
      OwnOneMore(env, opt, hops);
    }
  }

  lemma OwnOneMore(env: Environment, opt: Options, hops: seq<HopRecord>)
    requires hops != [] && AllOwn(env, opt, hops[..|hops| - 1])
    requires var r := hops[|hops| - 1]; r.outcome.Some? && OwnTurn(env, opt, r, r.sid, r.outcome.value)
    ensures AllOwn(env, opt, hops)
  {
    forall r | r in hops ensures r.outcome.Some? && OwnTurn(env, opt, r, r.sid, r.outcome.value) {
      if r != hops[|hops| - 1] {
        assert r in hops[..|hops| - 1];
      }
    }
  }

  /** The fetch answers its requests `made`: each further request is for the Location that the one before was
      answered, and the result is what the last one was answered. */
  ghost predicate AnswersItself(env: Environment, opt: Options, f: Fetched, hops: seq<HopRecord>, made: seq<Asked>) {
    && |made| == |hops| > 0
    && OwnTurn(env, opt, hops[|hops| - 1], made[|hops| - 1].entry.sid, Answered(f.resp))
    && forall i :: 0 <= i < |hops| - 1 ==>
         OwnTurn(env, opt, hops[i], made[i].entry.sid, Redirected(made[i + 1].entry.url))
  }

  lemma AnsweredTurns(env: Environment, opt: Options, url: string, f: Fetched, hops: seq<HopRecord>)
    requires PlainFetch(env, opt, url, f, hops) && f.ok
    ensures hops != [] && AllAnswered(env, opt, hops)
  {
    TurnsOfFetch(env, opt, url, f, hops);
    forall r | r in hops
      ensures RecordOk(env, opt, r) && r.outcome.Some? && (r.outcome.value.Answered? || r.outcome.value.Redirected?)
    {
      var i :| 0 <= i < |hops| && hops[i] == r;
      assert i < |hops| - 1 ==> hops[i].outcome == Some(Redirected(hops[i + 1].url));
    }
  }

  lemma OwnIsAnswer(env: Environment, opt: Options, url: string, f: Fetched, hops: seq<HopRecord>)
    requires PlainFetch(env, opt, url, f, hops) && f.ok && AllOwn(env, opt, hops)
    ensures AnswersItself(env, opt, f, hops, RequestsOf(hops))
  {
    var made := RequestsOf(hops);
    TurnsOfFetch(env, opt, url, f, hops);
    RequestOfEach(hops);
    forall i | 0 <= i < |hops| - 1
      ensures OwnTurn(env, opt, hops[i], made[i].entry.sid, Redirected(made[i + 1].entry.url))
    {
      assert hops[i].outcome == Some(Redirected(hops[i + 1].url)) && hops[i] in hops;
      assert RequestOf(hops[i]) == [made[i]] && RequestOf(hops[i + 1]) == [made[i + 1]];
    }
    assert hops[|hops| - 1] in hops && RequestOf(hops[|hops| - 1]) == [made[|hops| - 1]];
  }

  /** The caller's own condition, known before the call: if no stream is open on the connection in hand, a fetch
      that returns a response returns the answer to its own request, and leaves no stream open that was not
      before. */
  lemma FetchAnswersItself(env: Environment, opt: Options, url: string, f: Fetched, hops: seq<HopRecord>, from: Moment,
                           to: Moment, open: set<Stream>)
    requires PlainFetch(env, opt, url, f, hops) && f.ok && Traced(from, hops, to)
    requires open <= StreamsAsked(from.asked) && ClearOnLine(open, from.line) && WellEnded(env, opt, open, hops)
    ensures AnswersItself(env, opt, f, hops, RequestsOf(hops))
    ensures OpenAfter(env, opt, open, hops) == open && ClearOnLine(open, to.line)
  {
    AnsweredTurns(env, opt, url, f, hops);
    TurnsOfFetch(env, opt, url, f, hops);
    TurnsCloseTheirOwn(env, opt, open, from.asked, from.line, hops);
    OwnIsAnswer(env, opt, url, f, hops);
  }

  // ---------- Fetch after fetch ----------

  function OpenAfterRuns(env: Environment, opt: Options, open: set<Stream>, runs: seq<FetchRun>): set<Stream> {
    if runs == [] then open
    else OpenAfter(env, opt, OpenAfterRuns(env, opt, open, runs[..|runs| - 1]), runs[|runs| - 1].hops)
  }

  ghost predicate RunsWellEnded(env: Environment, opt: Options, open: set<Stream>, runs: seq<FetchRun>) {
    runs == [] ||
    (var before, last := runs[..|runs| - 1], runs[|runs| - 1];
     RunsWellEnded(env, opt, open, before) && WellEnded(env, opt, OpenAfterRuns(env, opt, open, before), last.hops))
  }

  /** The result is one of a plain fetch told by the run, and a response. */
  ghost predicate Responds(env: Environment, opt: Options, f: Fetched, run: FetchRun) {
    f.ok && exists url :: PlainFetch(env, opt, url, f, run.hops)
  }

  lemma RunAnswersItself(env: Environment, opt: Options, f: Fetched, run: FetchRun, open: set<Stream>)
    requires Responds(env, opt, f, run) && Sound()(run)
    requires open <= StreamsAsked(run.from.asked) && ClearOnLine(open, run.from.line)
             && WellEnded(env, opt, open, run.hops)
    ensures AnswersItself(env, opt, f, run.hops, RequestsOf(run.hops))
    ensures OpenAfter(env, opt, open, run.hops) == open && ClearOnLine(open, run.to.line)
  {
    var url :| PlainFetch(env, opt, url, f, run.hops);
    FetchAnswersItself(env, opt, url, f, run.hops, run.from, run.to, open);
  }

  /** Each result has its run, and stands to it as `fits` says. */
  ghost predicate Matched(fits: (Fetched, FetchRun) -> bool, results: seq<Fetched>, runs: seq<FetchRun>) {
    |results| == |runs| && forall i :: 0 <= i < |runs| ==> fits(results[i], runs[i])
  }

  lemma MatchedOneMore(fits: (Fetched, FetchRun) -> bool, results: seq<Fetched>, runs: seq<FetchRun>, n: nat)
    requires |results| == |runs| == n + 1
    ensures Matched(fits, results, runs) <==> Matched(fits, results[..n], runs[..n]) && fits(results[n], runs[n])
  {
    if Matched(fits, results[..n], runs[..n]) && fits(results[n], runs[n]) {
      forall i | 0 <= i < |runs| ensures fits(results[i], runs[i]) {
        if i < n {
          assert fits(results[..n][i], runs[..n][i]);
        }
      }
    }
  }

  ghost function Responding(env: Environment, opt: Options): (Fetched, FetchRun) -> bool {
    (f: Fetched, run: FetchRun) => Responds(env, opt, f, run)
  }

  ghost function SelfAnswering(env: Environment, opt: Options): (Fetched, FetchRun) -> bool {
    (f: Fetched, run: FetchRun) => AnswersItself(env, opt, f, run.hops, RequestsOf(run.hops))
  }

  /** Fetches that follow one another and each return a response, from a moment with no stream open on the connection in
      hand: each returns the answer to its own request, and none leaves a stream open. */
  lemma {:induction false} RunsAnswerThemselves(env: Environment, opt: Options, results: seq<Fetched>,
                                                runs: seq<FetchRun>,
                                                from: Moment, to: Moment, open: set<Stream>)
    requires OneByOne(Sound(), from, runs, to) && Matched(Responding(env, opt), results, runs)
    requires open <= StreamsAsked(from.asked) && ClearOnLine(open, from.line) && RunsWellEnded(env, opt, open, runs)
    ensures Matched(SelfAnswering(env, opt), results, runs)
    ensures OpenAfterRuns(env, opt, open, runs) == open && ClearOnLine(open, to.line)
    decreases |runs|
  {
    if runs != [] {
      var n := |runs| - 1;
      MatchedOneMore(Responding(env, opt), results, runs, n);
      RunsAnswerThemselves(env, opt, results[..n], runs[..n], from, runs[n].from, open);
      AskedByRuns(from, runs[..n], runs[n].from);
      StillKnown(open, from.asked, RequestsOfRuns(runs[..n]));
      RunAnswersItself(env, opt, results[n], runs[n], open);
      MatchedOneMore(SelfAnswering(env, opt), results, runs, n);
    }
  }

  lemma StillKnown(open: set<Stream>, asked: seq<Asked>, more: seq<Asked>)
    requires open <= StreamsAsked(asked)
    ensures open <= StreamsAsked(asked + more)
  {
    forall s | s in open ensures s in StreamsAsked(asked + more) {
      var a :| a in asked && a.entry.sid >= 0 && (a.conn, a.entry.sid) == s;
      assert a in asked + more;
    }
  }

  // ---------- After a page ----------

  function PageStreams(dec: Decoders, r: PageRecord): set<Stream> {
    set sid | sid in PageAnswers.StreamsOf(EndHop(dec, r).log, r.base) :: (r.on.conn, sid)
  }

  /** The hop's requests open their streams, and the frames close those that end. */
  function OpenAfterPage(dec: Decoders, open: set<Stream>, r: PageRecord): set<Stream> {
    open + PageStreams(dec, r) - EndedOn(r.on.conn, r.events)
  }

  /** A clean hop on a connection without open streams leaves none open. */
  lemma CleanPageClosesAll(env: Environment, opt: Options, url: string, primary: Fetched, also: seq<Fetched>,
                           r: PageRecord,
                           open: set<Stream>)
    requires PageStart(opt, url, primary, also, r) && Clean(env.dec, r) && ClearOn(open, r.on.conn)
    ensures OpenAfterPage(env.dec, open, r) == open
  {
    CleanIsComplete(env, opt, url, primary, also, r);
    assert PageStreams(env.dec, r) == EndedOn(r.on.conn, r.events);
  }

  /** After a page fetch whose last hop was clean, on a connection without other open streams: if each remaining URL was
      answered, it was by its own request's stream, and nothing is left open. */
  lemma ExtrasAnswerThemselves(env: Environment, opt: Options, pages: seq<PageRecord>, end: PageEnd, primary: Fetched,
                               also: seq<Fetched>, from: Moment, to: Moment, open: set<Stream>)
    requires PageFetched(env, opt, pages, end, primary, also) && PageTraced(env.dec, from, pages, end, to)
             && end.Finished?
    requires pages != [] && Clean(env.dec, pages[|pages| - 1]) && ClearOn(open, pages[|pages| - 1].on.conn)
    requires open <= StreamsAsked(pages[|pages| - 1].on.begun.asked)
    requires RunsWellEnded(env, opt, OpenAfterPage(env.dec, open, pages[|pages| - 1]), end.runs)
    requires forall f :: f in end.added ==> f.ok
    ensures Matched(SelfAnswering(env, opt), end.added, end.runs)
    ensures OpenAfterRuns(env, opt, open, end.runs) == open && ClearOnLine(open, to.line)
  {
    var last := pages[|pages| - 1];
    var url, p0, a0 := StartOfLast(env, opt, pages);
    CleanPageClosesAll(env, opt, url, p0, a0, last, open);
    StillKnown(open, last.on.begun.asked, PageRequests(env.dec, last));
    ExtrasRespond(env, opt, pages, end, primary, also);
    RunsAnswerThemselves(env, opt, end.added, end.runs, EndedAt(env.dec, last), to, open);
  }

  lemma ExtrasRespond(env: Environment, opt: Options, pages: seq<PageRecord>, end: PageEnd, primary: Fetched,
                      also: seq<Fetched>)
    requires PageFetched(env, opt, pages, end, primary, also) && end.Finished? && forall f :: f in end.added ==> f.ok
    ensures Matched(Responding(env, opt), end.added, end.runs)
  {
    var s := EndHop(env.dec, pages[|pages| - 1]).s;
    FitRespond(env, opt, Remaining(opt, s.pending, s.also), s.nextSeq, end.added, end.runs);
  }

  lemma FitRespond(env: Environment, opt: Options, items: seq<Item>, next: int, added: seq<Fetched>,
                   runs: seq<FetchRun>)
    requires Extras(Fit(env, opt), items, next, added, runs) && forall f :: f in added ==> f.ok
    ensures Matched(Responding(env, opt), added, runs)
  {
    forall i | 0 <= i < |runs| ensures Responding(env, opt)(added[i], runs[i]) {
      assert Fit(env, opt)(items[i], next + i, added[i], runs[i].hops);
      assert added[i] in added;
    }
  }
}
