/** Runs that occur: a page that ends well, and the runs in which the program does less than it promises. They are
    told of any site whose page has one tag, for a script on the same host; the page's text may be anything longer
    than the scanner's guard, and the library numbers streams 1, 3, 5 and so on. */
module Scenarios {
  import opened Http2Client
  import opened Lifecycle
  import opened PageFetch
  import opened PageHop
  import opened PageLoop
  import opened PageResults
  import opened PageRun
  import opened Resolver
  import opened Scheduler
  import opened SchedulerInvariant
  import opened SingleFetch
  import opened SingleHop
  import opened SubresourceScanner
  import opened Text
  import UrlParser
  import opened Wrappers

  /** A page on `host` with the text `text`, in which the scanner only ever finds the tag `src`, which stands for
      `script`. */
  datatype Site = Site(host: string, config: Config, u: UrlParser.ParsedUrl, src: string, script: Item, text: string,
                       dec: Decoders)

  ghost predicate Proper(a: Site) {
    && UrlParser.Parse(a.config.page) == Success(a.u) && a.u.host == a.host
    && SameHost(a.script.url, a.host) && OneTagOnly(a)
  }

  ghost predicate OneTagOnly(a: Site) {
    && a.config.max == 0 && |a.text| > TAIL_GUARD
    && IsFetchable(a.src) && ResolveUrl(a.src, a.config.page) == a.script.url
    && (forall w :: a.config.extract(w) == [Candidate(a.src, a.script.source)])
  }

  function ParsedOf(url: string): UrlParser.ParsedUrl {
    var p := UrlParser.Parse(url);
    if p.Success? then p.value else UrlParser.ParsedUrl("", "", "", "", "", "", "")
  }

  function SiteOf(host: string, path: string, src: string, text: string, dec: Decoders): Site {
    Site(host, Config(OneTag(src), "https://" + host + path, 0), ParsedOf("https://" + host + path), src,
         Item("https://" + host + src, "script"), text, dec)
  }

  /** There is such a site at every path of every host whose name reads back as itself, with any root-relative tag. */
  lemma SitesExist(host: string, path: string, src: string, text: string, dec: Decoders)
    requires UrlParser.Reparses(host) && FreeOf(host, UrlParser.AUTHORITY_END)
    requires "/" <= path && "/" <= src && |text| > TAIL_GUARD
    ensures Proper(SiteOf(host, path, src, text, dec))
  {
    OnHost(host, path);
    OnHost(host, src);
    RootRelative(src, "https://" + host + path, host);
    PathIsFetchable(src);
  }

  lemma OnHost(host: string, path: string)
    requires UrlParser.Reparses(host) && FreeOf(host, UrlParser.AUTHORITY_END) && "/" <= path
    ensures SameHost("https://" + host + path, host)
  {
    ParseHttps(host, path);
    UrlParser.HostReparses(host);
  }

  lemma PathIsFetchable(src: string)
    requires "/" <= src
    ensures IsFetchable(src)
  {
    assert ToLower(src[0]) == '/';
  }

  function OneTag(src: string): Extractor {
    (window: string) => [Candidate(src, "script")]
  }

  function OddIds(k: nat): int {
    2 * k + 1
  }

  // ---------- The start of a hop ----------

  /** A hop for the site's page on a connection on which `base` requests were made before. */
  function HopFor(a: Site, base: nat): Context {
    Context(a.config, a.config.page, a.host, a.host, OddIds, OddIds(base))
  }

  /** The submission of the page, and that of its script, when `base` requests were made before the page. */
  function PageEntry(a: Site, base: nat): Submission {
    Submit(a.host, false, a.config.page, a.u, OddIds(base))
  }

  function ScriptEntry(a: Site, base: nat): Submission
    requires SameHost(a.script.url, a.host)
  {
    Scheduler.Request(HopFor(a, base), a.script, base + 1)
  }

  /** The start of a hop on a connection on which `log` was asked before. */
  function Begun(a: Site, log: seq<Submission>, primary: Fetched, also: seq<Fetched>): Hop {
    Hop(ClientState(a.host, true, false, "", map[]), Fresh(primary, also), log + [PageEntry(a, |log|)])
  }

  ghost predicate OddLog(log: seq<Submission>) {
    forall i :: 0 <= i < |log| ==> log[i].sid == OddIds(i)
  }

  lemma BegunStarts(a: Site, log: seq<Submission>, primary: Fetched, also: seq<Fetched>)
    requires OddLog(log)
    ensures Starts(HopFor(a, |log|), |log|, |also|, Begun(a, log, primary, also))
  {}

  // ---------- Steps ----------

  lemma OneMore(x: Context, dec: Decoders, h: Hop, events: seq<Event>, ev: Event)
    ensures RunHop(x, dec, h, events + [ev]) == Step(x, dec, RunHop(x, dec, h, events), ev)
    ensures Admissible(x, dec, h, events + [ev])
            <==> Admissible(x, dec, h, events) && Ends(x, RunHop(x, dec, h, events), ev)
    ensures PlainRun(x, dec, h, events + [ev]) <==> PlainRun(x, dec, h, events) && Plain(RunHop(x, dec, h, events), ev)
  {
    assert (events + [ev])[..|events|] == events;
  }

  lemma OneEvent(x: Context, dec: Decoders, h: Hop, ev: Event)
    ensures RunHop(x, dec, h, [ev]) == Step(x, dec, h, ev)
    ensures Admissible(x, dec, h, [ev]) <==> Ends(x, h, ev)
    ensures PlainRun(x, dec, h, [ev]) <==> Plain(h, ev)
  {
    OneMore(x, dec, h, [], ev);
    assert [] + [ev] == [ev];
  }

  /** The state once the page's text has been received: the script is found and submitted. */
  function Scanned(a: Site): State
    requires |a.text| > TAIL_GUARD
  {
    State(a.text, |a.text| - TAIL_GUARD, {a.script.url}, 1)
  }

  function Found(a: Site, base: nat, primary: Fetched, also: seq<Fetched>): Sched
    requires |a.text| > TAIL_GUARD
  {
    var q, url := OddIds(base + 1), a.script.url;
    Sched(Scanned(a), [], {}, {url}, map[q := url], map[q := a.script.source], map[q := 1], 2, 2, false, primary, also)
  }

  lemma OneCandidate(c: Candidate, page: string, seen: set<string>, found: nat)
    requires IsFetchable(c.src)
    ensures var url := ResolveUrl(c.src, page);
            ResolveNew([c], page, seen, 0, found)
            == if url in seen then Resolved([], seen, found)
               else Resolved([Item(url, c.source)], seen + {url}, found + 1)
  {
    assert [c][1..] == [];
  }

  /** A first chunk longer than the guard: its one tag is returned, and never again. */
  lemma OneTagScanned(c: Config, text: string, src: string, it: Item)
    requires |text| > TAIL_GUARD && c.max == 0 && IsFetchable(src) && it.url == ResolveUrl(src, c.page)
    requires c.extract(text[0..|text| - TAIL_GUARD]) == [Candidate(src, it.source)]
    requires c.extract(text[|text| - TAIL_GUARD..|text|]) == [Candidate(src, it.source)]
    ensures var s := State(text, |text| - TAIL_GUARD, {it.url}, 1);
            Feed(c, INITIAL, text) == (s, [it]) && Finalize(c, s) == (s, [])
  {
    assert "" + text == text;
    OneCandidate(Candidate(src, it.source), c.page, {}, 0);
    OneCandidate(Candidate(src, it.source), c.page, {it.url}, 1);
    assert {} + {it.url} == {it.url};
  }

  lemma ScanFindsTag(a: Site)
    requires OneTagOnly(a)
    ensures Feed(a.config, INITIAL, a.text) == (Scanned(a), [a.script])
    ensures Finalize(a.config, Scanned(a)) == (Scanned(a), [])
  {
    OneTagScanned(a.config, a.text, a.src, a.script);
  }

  lemma OneQueued(s: Sched, item: Item)
    requires s.pending == [] && item.url !in s.dispatched && s.pendingUrls == {}
    ensures Enqueue(s, [item]) == s.(pending := [item], pendingUrls := {item.url})
  {
    assert [item][1..] == [] && [] + [item] == [item];
  }

  lemma OneSubmission(x: Context, s: Sched, log: seq<Submission>, item: Item)
    requires s.pending == [item] && item.url !in s.dispatched && SameHost(item.url, x.connHost)
    ensures Dispatch(x, false, s, log)
            == (AfterSubmit(s.(pending := []), x.answer(|log|), item), log + [Scheduler.Request(x, item, |log|)])
  {
    assert s.pending[1..] == [];
    var (s2, log2) := SubmitOne(x, s.(pending := []), log, item);
    assert s2.pending == [];
    assert DispatchAll(x, s, log, []) == DispatchAll(x, s2, log2, []);
    assert s2.(pending := []) == s2;
  }

  lemma TagIsOpened(a: Site, x: Context, s: Sched, log: seq<Submission>)
    requires s.pending == [] && a.script.url !in s.dispatched && s.pendingUrls == {}
             && SameHost(a.script.url, x.connHost)
    requires x.answer(|log|) >= 0
    ensures Dispatch(x, false, Enqueue(s, [a.script]), log).0
            == Opened(s.(dispatched := s.dispatched + {a.script.url}), x.answer(|log|), a.script)
    ensures Dispatch(x, false, Enqueue(s, [a.script]), log).1 == log + [Scheduler.Request(x, a.script, |log|)]
  {
    var item := a.script;
    OneQueued(s, item);
    OneSubmission(x, s.(pending := [item], pendingUrls := {item.url}), log, item);
    assert {item.url} - {item.url} == {};
  }

  lemma ChunkDispatched(x: Context, s: Sched, log: seq<Submission>, text: string, scan: State, items: seq<Item>)
    requires Feed(x.config, s.scan, text) == (scan, items) && !s.primaryDone
    ensures OnBodyChunk(x, false, s, log, x.primarySid, text)
            == Dispatch(x, false, Enqueue(s.(scan := scan), items), log)
  {}

  lemma ChunkScanned(a: Site, base: nat, s: Sched, log: seq<Submission>)
    requires Proper(a) && s == Fresh(s.primary, s.also) && |log| == base + 1
    ensures OnBodyChunk(HopFor(a, base), false, s, log, OddIds(base), a.text).0 == Found(a, base, s.primary, s.also)
    ensures OnBodyChunk(HopFor(a, base), false, s, log, OddIds(base), a.text).1 == log + [ScriptEntry(a, base)]
  {
    ScanFindsTag(a);
    ChunkDispatched(HopFor(a, base), s, log, a.text, Scanned(a), [a.script]);
    TagIsOpened(a, HopFor(a, base), s.(scan := Scanned(a)), log);
  }

  /** The page's text arrives: its script is found and requested. */
  lemma TextArrives(a: Site, base: nat, g: Hop)
    requires Proper(a) && g.s == Fresh(g.s.primary, g.s.also) && |g.log| == base + 1 && !g.c.goaway
    ensures var t, r := Step(HopFor(a, base), a.dec, g, DataChunk(OddIds(base), a.text)),
            Get(g.c.responses, OddIds(base));
            && t.s == Found(a, base, g.s.primary, g.s.also) && t.log == g.log + [ScriptEntry(a, base)]
            && t.c == g.c.(responses := g.c.responses[OddIds(base) := r.(body := r.body + a.text)])
  {
    ChunkScanned(a, base, g.s, g.log);
  }

  lemma TextFirst(a: Site, log: seq<Submission>, primary: Fetched, also: seq<Fetched>)
    requires Proper(a)
    ensures var x, h, events := HopFor(a, |log|), Begun(a, log, primary, also), [DataChunk(OddIds(|log|), a.text)];
            var t := RunHop(x, a.dec, h, events);
            && t.s == Found(a, |log|, primary, also)
            && t.c == ClientState(a.host, true, false, "", map[OddIds(|log|) := Response(map[], a.text)])
            && t.log == log + [PageEntry(a, |log|)] + [ScriptEntry(a, |log|)]
            && Admissible(x, a.dec, h, events) && PlainRun(x, a.dec, h, events)
  {
    OneEvent(HopFor(a, |log|), a.dec, Begun(a, log, primary, also), DataChunk(OddIds(|log|), a.text));
    TextArrives(a, |log|, Begun(a, log, primary, also));
    assert "" + a.text == a.text;
  }

  function EndOf(sid: int): Event {
    FrameEnd(DataFrame, sid, true)
  }

  /** What stream `sid` has delivered when it ends, decoded. */
  function Delivered(dec: Decoders, g: Hop, sid: int): Response {
    Decompress(dec, TouchStatus(Get(g.c.responses, sid)))
  }

  lemma OtherEnds(x: Context, dec: Decoders, g: Hop, sid: int)
    requires sid > 0 && sid != x.primarySid && g.s.pending == [] && Plain(g, EndOf(sid)) && !g.s.primaryDone
    ensures var t := Step(x, dec, g, EndOf(sid));
            && t.s == SubresourceDone(x, g.s.(active := Minus(g.s)), sid, Delivered(dec, g, sid))
            && t.c == g.c.(responses := g.c.responses[sid := Delivered(dec, g, sid)]) && t.log == g.log
  {}

  lemma PageEnds(x: Context, dec: Decoders, g: Hop)
    requires x.primarySid > 0 && g.s.pending == [] && Plain(g, EndOf(x.primarySid))
    requires Finalize(x.config, g.s.scan) == (g.s.scan, [])
    ensures var t := Step(x, dec, g, EndOf(x.primarySid));
            && t.s == g.s.(active := Minus(g.s), primaryDone := true, primary := t.s.primary)
            && t.c == g.c.(responses := t.c.responses, running := g.c.running && t.s.active != 0)
            && (forall sid :: sid != x.primarySid ==> Get(t.c.responses, sid) == Get(g.c.responses, sid))
               && t.log == g.log
  {}

  // ---------- One hop: a page that is complete, and one that stops early ----------

  /** The page's text arrives, then another stream ends, then the page. */
  function TextOtherPage(a: Site, base: nat, sid: int): seq<Event> {
    [DataChunk(OddIds(base), a.text)] + [EndOf(sid)] + [EndOf(OddIds(base))]
  }

  lemma TextThenOther(a: Site, log: seq<Submission>, primary: Fetched, also: seq<Fetched>, sid: int)
    requires Proper(a) && sid > 0 && sid != OddIds(|log|)
    ensures var x, h := HopFor(a, |log|), Begun(a, log, primary, also);
            var events := [DataChunk(OddIds(|log|), a.text)] + [EndOf(sid)];
            var t := RunHop(x, a.dec, h, events);
            var s := Found(a, |log|, primary, also).(active := 1);
            && t.s == SubresourceDone(x, s, sid, Decompress(a.dec, TouchStatus(NO_RESPONSE)))
            && t.c.running && !t.c.goaway && Get(t.c.responses, OddIds(|log|)) == Response(map[], a.text)
            && PlainRun(x, a.dec, h, events) && (sid == OddIds(|log| + 1) ==> Admissible(x, a.dec, h, events))
  {
    var x, h, first := HopFor(a, |log|), Begun(a, log, primary, also), DataChunk(OddIds(|log|), a.text);
    TextFirst(a, log, primary, also);
    OneMore(x, a.dec, h, [first], EndOf(sid));
    OtherEnds(x, a.dec, RunHop(x, a.dec, h, [first]), sid);
  }

  /** One result was added, under number `n`. */
  ghost predicate OneAdded(also: seq<Fetched>, more: seq<Fetched>, n: int) {
    also <= more && |more| == |also| + 1 && more[|also|].requestSeq == n
  }

  lemma TextOtherPageRun(a: Site, log: seq<Submission>, primary: Fetched, also: seq<Fetched>, sid: int)
    requires Proper(a) && sid > 0 && sid != OddIds(|log|)
    ensures var x, h := HopFor(a, |log|), Begun(a, log, primary, also);
            var t := RunHop(x, a.dec, h, TextOtherPage(a, |log|, sid));
            && !t.c.running && !t.c.goaway && t.c.redirectUrl == "" && t.s.primaryDone && t.s.pending == []
               && t.s.nextSeq == 2
            && t.s.sidUrl == map[OddIds(|log| + 1) := a.script.url] - {sid}
            && OneAdded(also, t.s.also, if sid == OddIds(|log| + 1) then 1 else 0)
            && PlainRun(x, a.dec, h, TextOtherPage(a, |log|, sid))
            && (sid == OddIds(|log| + 1) ==> Admissible(x, a.dec, h, TextOtherPage(a, |log|, sid)))
  {
    var x, h, before := HopFor(a, |log|), Begun(a, log, primary, also),
        [DataChunk(OddIds(|log|), a.text)] + [EndOf(sid)];
    TextThenOther(a, log, primary, also, sid);
    var g := RunHop(x, a.dec, h, before);
    ScanFindsTag(a);
    OneMore(x, a.dec, h, before, EndOf(OddIds(|log|)));
    PageEnds(x, a.dec, g);
  }

  /** A page with one subresource, from its first chunk to its end: a start and a run that meet what is asked of a clean
      hop. The page, its script and nothing else are there. */
  lemma CleanPage(a: Site, log: seq<Submission>, primary: Fetched, also: seq<Fetched>)
    requires Proper(a) && OddLog(log)
    ensures var x, h, events := HopFor(a, |log|), Begun(a, log, primary, also),
            TextOtherPage(a, |log|, OddIds(|log| + 1));
            var t := RunHop(x, a.dec, h, events);
            && Starts(x, |log|, |also|, h) && Admissible(x, a.dec, h, events) && PlainRun(x, a.dec, h, events)
               && !t.c.running
            && Open(x, t.s) == {} && OneAdded(also, t.s.also, 1)
  {
    BegunStarts(a, log, primary, also);
    TextOtherPageRun(a, log, primary, also, OddIds(|log| + 1));
  }

  /** The end of any stream that is not of this hop, say one left over from an earlier hop on the connection, and
      then the end of the page: the loop stops, without GOAWAY and without redirect, while the script is still
      open. */
  lemma LeftoverRun(a: Site, log: seq<Submission>, primary: Fetched, also: seq<Fetched>, sid: int)
    requires Proper(a) && OddLog(log) && 0 < sid < OddIds(|log|)
    ensures var x, h, events := HopFor(a, |log|), Begun(a, log, primary, also), TextOtherPage(a, |log|, sid);
            var t := RunHop(x, a.dec, h, events);
            && Starts(x, |log|, |also|, h) && PlainRun(x, a.dec, h, events)
            && !t.c.running && !t.c.goaway && Open(x, t.s) == {OddIds(|log| + 1)}
  {
    BegunStarts(a, log, primary, also);
    TextOtherPageRun(a, log, primary, also, sid);
  }

  // ---------- A redirect on one stream ----------

  /** The header fields of a redirect. */
  function Heads(sid: int, to: string): seq<Event> {
    [HeaderField(HeadersFrame, sid, ":status", "302")] + [HeaderField(HeadersFrame, sid, "location", to)]
  }

  function RedirectOn(sid: int, to: string): seq<Event> {
    Heads(sid, to) + [EndOf(sid)]
  }

  /** What the client holds for the stream is a redirect to `to`. */
  ghost predicate Holds(g: Hop, sid: int, to: string) {
    IsRedirect(TouchStatus(Get(g.c.responses, sid))) && Get(g.c.responses, sid).headers["location"] == to
  }

  lemma HeadsArrive(x: Context, dec: Decoders, g: Hop, sid: int, to: string)
    ensures var t := RunHop(x, dec, g, Heads(sid, to));
            && t.s == g.s && t.log == g.log && t.c == g.c.(responses := t.c.responses) && Holds(t, sid, to)
            && (forall other :: other != sid ==> Get(t.c.responses, other) == Get(g.c.responses, other))
            && Admissible(x, dec, g, Heads(sid, to))
  {
    var e1, e2 := HeaderField(HeadersFrame, sid, ":status", "302"), HeaderField(HeadersFrame, sid, "location", to);
    OneMore(x, dec, g, [], e1);
    assert [] + [e1] == [e1];
    OneMore(x, dec, g, [e1], e2);
    var r := Get(g.c.responses, sid);
    assert Get(RunHop(x, dec, g, [e1] + [e2]).c.responses, sid).headers
           == r.headers[":status" := "302"]["location" := to];
  }

  lemma RedirectEnds(x: Context, dec: Decoders, g: Hop, sid: int, to: string)
    requires sid > 0 && Holds(g, sid, to)
    ensures var t := Step(x, dec, g, EndOf(sid));
            && t.s == g.s && t.log == g.log && !t.c.running && t.c.goaway == g.c.goaway
            && t.c.redirectUrl == ResolveLocation(g.c.host, to)
  {}

  lemma RedirectArrives(x: Context, dec: Decoders, g: Hop, sid: int, to: string)
    requires sid > 0
    ensures var t := RunHop(x, dec, g, RedirectOn(sid, to));
            && t.s == g.s && t.log == g.log && !t.c.running && t.c.goaway == g.c.goaway
            && t.c.redirectUrl == ResolveLocation(g.c.host, to)
  {
    HeadsArrive(x, dec, g, sid, to);
    OneMore(x, dec, g, Heads(sid, to), EndOf(sid));
    RedirectEnds(x, dec, RunHop(x, dec, g, Heads(sid, to)), sid, to);
  }

  /** The page arrives, and then its script turns out to have moved. */
  function TextPageMoved(a: Site, base: nat, to: string): seq<Event> {
    [DataChunk(OddIds(base), a.text)] + [EndOf(OddIds(base))] + RedirectOn(OddIds(base + 1), to)
  }

  lemma TextThenPage(a: Site, log: seq<Submission>, primary: Fetched, also: seq<Fetched>)
    requires Proper(a)
    ensures var x, h := HopFor(a, |log|), Begun(a, log, primary, also);
            var t := RunHop(x, a.dec, h, [DataChunk(OddIds(|log|), a.text)] + [EndOf(OddIds(|log|))]);
            && t.s.primaryDone && t.s.also == also && t.c.host == a.host && t.c.running && !t.c.goaway
            && t.log == log + [PageEntry(a, |log|)] + [ScriptEntry(a, |log|)]
  {
    var x, h, first := HopFor(a, |log|), Begun(a, log, primary, also), DataChunk(OddIds(|log|), a.text);
    TextFirst(a, log, primary, also);
    ScanFindsTag(a);
    OneMore(x, a.dec, h, [first], EndOf(OddIds(|log|)));
    PageEnds(x, a.dec, RunHop(x, a.dec, h, [first]));
  }

  lemma PageThenMoved(a: Site, log: seq<Submission>, primary: Fetched, also: seq<Fetched>, to: string)
    requires Proper(a)
    ensures var x, h := HopFor(a, |log|), Begun(a, log, primary, also);
            var t := RunHop(x, a.dec, h, TextPageMoved(a, |log|, to));
            && t.s.primaryDone && t.s.also == also && t.c.redirectUrl == ResolveLocation(a.host, to) && !t.c.running
            && t.log == log + [PageEntry(a, |log|)] + [ScriptEntry(a, |log|)]
  {
    var x, h := HopFor(a, |log|), Begun(a, log, primary, also);
    var before := [DataChunk(OddIds(|log|), a.text)] + [EndOf(OddIds(|log|))];
    TextThenPage(a, log, primary, also);
    RunHopConcat(x, a.dec, h, before, RedirectOn(OddIds(|log| + 1), to));
    RedirectArrives(x, a.dec, RunHop(x, a.dec, h, before), OddIds(|log| + 1), to);
  }

  // ---------- Page fetches ----------

  function RecordOf(a: Site, log: seq<Submission>, primary: Fetched, also: seq<Fetched>, tick: nat, events: seq<Event>,
                    on: Footing): PageRecord
  {
    PageRecord(HopFor(a, |log|), |log|, |also|, Begun(a, log, primary, also), tick, events, on)
  }

  /** The environment delivers the record's frames in one receive, and the caller asks for the site's subresources. */
  ghost predicate Delivers(env: Environment, opt: Options, a: Site, r: PageRecord) {
    && env.dec == a.dec && env.receives(r.tick) == [Turn(0, r.events, false)] && opt.timeout <= 0
    && opt.extract == a.config.extract && opt.maxSubresources == 0 && opt.alsoFetch == []
  }

  /** `log` is what was asked on the hop's connection, which is there or new. */
  ghost predicate Grounded(a: Site, log: seq<Submission>, tick: nat, on: Footing) {
    && on.u == a.u && on.begun.tick <= tick && OddLog(log) && log == On(on.begun.asked, on.conn)
    && OnConnection(on.reused, on.begun.line, on.begun.asked, on.conn)
  }

  lemma RecordStands(env: Environment, opt: Options, a: Site, log: seq<Submission>, primary: Fetched,
                     also: seq<Fetched>,
                     tick: nat, events: seq<Event>, on: Footing)
    requires Proper(a) && Grounded(a, log, tick, on)
    requires Delivers(env, opt, a, RecordOf(a, log, primary, also, tick, events, on))
    ensures var r := RecordOf(a, log, primary, also, tick, events, on);
            PageStart(opt, a.config.page, primary, also, r) && HopTold(env, opt, r)
  {
    var r := RecordOf(a, log, primary, also, tick, events, on);
    BegunStarts(a, log, primary, also);
    RecordHeard(env, opt, r);
    HopIsExplained(env.dec, opt, a.config.page, primary, also, r);
  }

  const START := Moment([], None, 0)

  /** The first hop, on connection `conn`. */
  function FirstHop(a: Site, conn: int, events: seq<Event>): PageRecord {
    RecordOf(a, [], NO_FETCH, [], 0, events, Footing(a.u, false, conn, START))
  }

  /** The hop after `p`, on the same connection. */
  function NextHop(b: Site, p: PageRecord, events: seq<Event>): PageRecord {
    var t := EndHop(b.dec, p);
    RecordOf(b, t.log, t.s.primary, t.s.also, p.tick + 1, events, Footing(b.u, true, p.on.conn, EndedAt(b.dec, p)))
  }

  lemma FirstStands(env: Environment, opt: Options, a: Site, conn: int, events: seq<Event>)
    requires Proper(a) && Delivers(env, opt, a, FirstHop(a, conn, events)) && opt.url == a.config.page
    ensures var p := FirstHop(a, conn, events);
            PageStart(opt, opt.url, NO_FETCH, [], p) && HopTold(env, opt, p) && PageChain(env, opt, [p])
  {
    RecordStands(env, opt, a, [], NO_FETCH, [], 0, events, Footing(a.u, false, conn, START));
    LinkedOneMore(Begins(env, opt), Follows(env, opt), [], FirstHop(a, conn, events));
    assert [] + [FirstHop(a, conn, events)] == [FirstHop(a, conn, events)];
  }

  lemma NextFollows(env: Environment, opt: Options, b: Site, p: PageRecord, q: PageRecord)
    requires p.base == 0 && p.on.begun == START && OddLog(EndHop(b.dec, p).log)
    requires Proper(b) && q == NextHop(b, p, q.events) && Delivers(env, opt, b, q)
    requires EndHop(b.dec, p).c.redirectUrl == b.config.page != ""
    ensures HopTold(env, opt, q) && PageFollows(env, opt, p, q)
  {
    NextIsGrounded(b, p);
    NextStands(env, opt, b, EndHop(b.dec, p), q);
  }

  lemma NextStands(env: Environment, opt: Options, b: Site, t: Hop, q: PageRecord)
    requires Proper(b) && Delivers(env, opt, b, q) && Grounded(b, t.log, q.tick, q.on)
    requires q == RecordOf(b, t.log, t.s.primary, t.s.also, q.tick, q.events, q.on)
    ensures PageStart(opt, b.config.page, t.s.primary, t.s.also, q) && HopTold(env, opt, q)
  {
    RecordStands(env, opt, b, t.log, t.s.primary, t.s.also, q.tick, q.events, q.on);
  }

  lemma ChainOfTwo(env: Environment, opt: Options, p: PageRecord, q: PageRecord)
    requires PageChain(env, opt, [p]) && PageFollows(env, opt, p, q) && HopTold(env, opt, q)
    ensures PageChain(env, opt, [p, q])
  {
    LinkedOneMore(Begins(env, opt), Follows(env, opt), [p], q);
    assert [p] + [q] == [p, q];
  }

  lemma NextIsGrounded(b: Site, p: PageRecord)
    requires p.base == 0 && p.on.begun == START && OddLog(EndHop(b.dec, p).log)
    ensures Grounded(b, EndHop(b.dec, p).log, p.tick + 1, Footing(b.u, true, p.on.conn, EndedAt(b.dec, p)))
  {
    var log := EndHop(b.dec, p).log;
    assert log[0..] == log;
    OnTagged(p.on.conn, log, p.on.conn);
    assert [] + PageRequests(b.dec, p) == PageRequests(b.dec, p);
  }

  lemma RecordHeard(env: Environment, opt: Options, r: PageRecord)
    requires env.receives(r.tick) == [Turn(0, r.events, false)] && opt.timeout <= 0 && r.start.c.running
    ensures Heard(env, opt, r)
  {
    assert env.receives(r.tick)[1..] == [];
    assert r.events + [] == r.events;
  }

  /** The page has arrived, one script has moved, and the limit is one hop: the caller gets a result that is ok,
      is the page, and carries an error. */
  lemma LimitAfterPage(env: Environment, opt: Options, a: Site, to: string, conn: int, p: PageRecord)
    requires Proper(a) && opt.url == a.config.page && ResolveLocation(a.host, to) != "" && opt.maxRedirects == 1
    requires p == FirstHop(a, conn, TextPageMoved(a, 0, to)) && Delivers(env, opt, a, p)
    ensures var f := EndHop(env.dec, p).s.primary.(error := TooManyRedirects);
            && PageFetched(env, opt, [p], LimitHit, f, [])
            && PageTraced(env.dec, START, [p], LimitHit, EndedAt(env.dec, p))
            && f.ok && f.finalUrl == a.config.page && f.error != Fine
  {
    FirstStands(env, opt, a, conn, p.events);
    PageThenMoved(a, [], NO_FETCH, [], to);
    PageOfHop(opt, env.dec, opt.url, NO_FETCH, [], p);
  }

  /** Only the last frame ends a stream, and that is `sid`. */
  ghost predicate SoleEnd(events: seq<Event>, sid: int) {
    forall i :: 0 <= i < |events| && EndsStream(events[i]) ==> events[i].sid == sid && i == |events| - 1
  }

  lemma RedirectIsForeign(x: Context, dec: Decoders, h: Hop, events: seq<Event>, sid: int)
    requires SoleEnd(events, sid) && sid != x.primarySid && h.c.responses == map[]
    ensures EndsOnce(events) && !RedirectComesFrom(x, dec, h, events, x.primarySid)
  {}

  /** The page's text arrives, and then its script turns out to have moved. */
  function TextMoved(a: Site, base: nat, to: string): seq<Event> {
    [DataChunk(OddIds(base), a.text)] + RedirectOn(OddIds(base + 1), to)
  }

  lemma TextMovedRun(a: Site, log: seq<Submission>, primary: Fetched, also: seq<Fetched>, to: string)
    requires Proper(a)
    ensures var t := RunHop(HopFor(a, |log|), a.dec, Begun(a, log, primary, also), TextMoved(a, |log|, to));
            t.s == Found(a, |log|, primary, also) && !t.c.running && t.c.redirectUrl == ResolveLocation(a.host, to)
  {
    var x, h, first := HopFor(a, |log|), Begun(a, log, primary, also), DataChunk(OddIds(|log|), a.text);
    TextFirst(a, log, primary, also);
    RunHopConcat(x, a.dec, h, [first], RedirectOn(OddIds(|log| + 1), to));
    RedirectArrives(x, a.dec, RunHop(x, a.dec, h, [first]), OddIds(|log| + 1), to);
  }

  lemma MovedEndsAlone(a: Site, base: nat, to: string)
    ensures SoleEnd(TextMoved(a, base, to), OddIds(base + 1))
  {
    var q := OddIds(base + 1);
    assert TextMoved(a, base, to) == [DataChunk(OddIds(base), a.text), HeaderField(HeadersFrame, q, ":status", "302"),
                                      HeaderField(HeadersFrame, q, "location", to), EndOf(q)];
  }

  /** A script of a page that is still loading has moved: the loop stops, the scheduler is left as it was, and the
      page is asked for at the script's new place, although no redirect was on the page's own stream. */
  lemma ScriptMovesPage(a: Site, log: seq<Submission>, primary: Fetched, also: seq<Fetched>, to: string)
    requires Proper(a)
    ensures var x, h, events := HopFor(a, |log|), Begun(a, log, primary, also), TextMoved(a, |log|, to);
            var t := RunHop(x, a.dec, h, events);
            && t.s == Found(a, |log|, primary, also) && !t.c.running && t.c.redirectUrl == ResolveLocation(a.host, to)
            && EndsOnce(events) && !RedirectComesFrom(x, a.dec, h, events, x.primarySid)
  {
    TextMovedRun(a, log, primary, also, to);
    MovedEndsAlone(a, |log|, to);
    RedirectIsForeign(HopFor(a, |log|), a.dec, Begun(a, log, primary, also), TextMoved(a, |log|, to),
                      OddIds(|log| + 1));
  }

  lemma NothingRemains(opt: Options, also: seq<Fetched>)
    requires opt.alsoFetch == []
    ensures Remaining(opt, [], also) == []
  {}

  /** The second page is where the first one's script has moved to. */
  ghost predicate MovedTo(a: Site, b: Site, to: string) {
    && Proper(a) && Proper(b) && a.host == b.host && a.dec == b.dec && a.config.extract == b.config.extract
    && b.config.page == ResolveLocation(a.host, to) && b.config.page != ""
  }

  lemma MovedSitesExist(host: string, to: string, src: string, text: string, dec: Decoders)
    requires UrlParser.Reparses(host) && FreeOf(host, UrlParser.AUTHORITY_END)
    requires "/" <= to && !("//" <= to) && "/" <= src && |text| > TAIL_GUARD
    ensures MovedTo(SiteOf(host, "/", src, text, dec), SiteOf(host, to, src, text, dec), to)
  {
    SitesExist(host, "/", src, text, dec);
    SitesExist(host, to, src, text, dec);
  }

  /** Then the connection is closed by GOAWAY before anything has come of the second page. */
  lemma GoawayAlone(a: Site, log: seq<Submission>, primary: Fetched, also: seq<Fetched>)
    ensures var t := RunHop(HopFor(a, |log|), a.dec, Begun(a, log, primary, also), [GoAway]);
            t.s == Fresh(primary, also) && t.c.redirectUrl == ""
  {
    OneEvent(HopFor(a, |log|), a.dec, Begun(a, log, primary, also), GoAway);
  }

  lemma OddOfTwo(a: Site)
    requires Proper(a)
    ensures OddLog([] + [PageEntry(a, 0)] + [ScriptEntry(a, 0)])
  {}

  /** The caller asked for one page, was led to another by a script, and gets the first, ok and without error. */
  lemma EarlierPageReturned(env: Environment, opt: Options, a: Site, b: Site, to: string, conn: int, p: PageRecord,
                            q: PageRecord)
    requires MovedTo(a, b, to) && opt.url == a.config.page && opt.maxRedirects >= 2
    requires p == FirstHop(a, conn, TextPageMoved(a, 0, to)) && Delivers(env, opt, a, p)
    requires q == NextHop(b, p, [GoAway]) && Delivers(env, opt, b, q)
    ensures var f := EndHop(a.dec, p).s.primary;
            && PageFetched(env, opt, [p, q], Finished([], []), f, [])
            && PageTraced(env.dec, START, [p, q], Finished([], []), EndedAt(env.dec, q))
            && f.ok && f.error == Fine && f.finalUrl == a.config.page && !EndHop(a.dec, q).s.primaryDone
  {
    var t := EndHop(a.dec, p);
    FirstStands(env, opt, a, conn, p.events);
    PageThenMoved(a, [], NO_FETCH, [], to);
    OddOfTwo(a);
    PageOfHop(opt, env.dec, opt.url, NO_FETCH, [], p);
    NextFollows(env, opt, b, p, q);
    ChainOfTwo(env, opt, p, q);
    GoawayAlone(b, t.log, t.s.primary, []);
    PageEndsFetch(env, opt, p, q);
  }

  // ---------- Numbers over two hops ----------

  /** The page's response is a redirect whose text has a tag: the script arrives, then the page ends. */
  function MovedWithText(a: Site, base: nat, to: string): seq<Event> {
    Heads(OddIds(base), to) + [DataChunk(OddIds(base), a.text)] + [EndOf(OddIds(base + 1))] + [EndOf(OddIds(base))]
  }

  lemma StillHolds(g: Hop, t: Hop, sid: int, to: string, body: string)
    requires Holds(g, sid, to) && t.c.responses == g.c.responses[sid := Get(g.c.responses, sid).(body := body)]
    ensures Holds(t, sid, to) && forall other :: other != sid ==> Get(t.c.responses, other) == Get(g.c.responses, other)
  {}

  lemma TextOfMoved(a: Site, log: seq<Submission>, primary: Fetched, also: seq<Fetched>, to: string)
    requires Proper(a)
    ensures var t := RunHop(HopFor(a, |log|), a.dec, Begun(a, log, primary, also),
                            Heads(OddIds(|log|), to) + [DataChunk(OddIds(|log|), a.text)]);
            && t.s == Found(a, |log|, primary, also) && t.c.running && !t.c.goaway && t.c.host == a.host
            && t.log == log + [PageEntry(a, |log|)] + [ScriptEntry(a, |log|)]
            && Holds(t, OddIds(|log|), to) && Get(t.c.responses, OddIds(|log| + 1)) == NO_RESPONSE
            && Admissible(HopFor(a, |log|), a.dec, Begun(a, log, primary, also),
                          Heads(OddIds(|log|), to) + [DataChunk(OddIds(|log|), a.text)])
  {
    var x, h := HopFor(a, |log|), Begun(a, log, primary, also);
    HeadsArrive(x, a.dec, h, OddIds(|log|), to);
    OneMore(x, a.dec, h, Heads(OddIds(|log|), to), DataChunk(OddIds(|log|), a.text));
    var g := RunHop(x, a.dec, h, Heads(OddIds(|log|), to));
    TextArrives(a, |log|, g);
    var t := Step(x, a.dec, g, DataChunk(OddIds(|log|), a.text));
    StillHolds(g, t, OddIds(|log|), to, Get(g.c.responses, OddIds(|log|)).body + a.text);
  }

  lemma MovedWithTextRun(a: Site, log: seq<Submission>, primary: Fetched, also: seq<Fetched>, to: string)
    requires Proper(a)
    ensures var t := RunHop(HopFor(a, |log|), a.dec, Begun(a, log, primary, also), MovedWithText(a, |log|, to));
            && OneAdded(also, t.s.also, 1) && !t.s.primaryDone && t.s.primary == primary
            && t.log == log + [PageEntry(a, |log|)] + [ScriptEntry(a, |log|)]
            && t.c.redirectUrl == ResolveLocation(a.host, to)
            && Admissible(HopFor(a, |log|), a.dec, Begun(a, log, primary, also), MovedWithText(a, |log|, to))
  {
    var x, h, p, q := HopFor(a, |log|), Begun(a, log, primary, also), OddIds(|log|), OddIds(|log| + 1);
    var before := Heads(p, to) + [DataChunk(p, a.text)];
    TextOfMoved(a, log, primary, also, to);
    var g := RunHop(x, a.dec, h, before);
    OneMore(x, a.dec, h, before, EndOf(q));
    OtherEnds(x, a.dec, g, q);
    OneMore(x, a.dec, h, before + [EndOf(q)], EndOf(p));
    RedirectEnds(x, a.dec, RunHop(x, a.dec, h, before + [EndOf(q)]), p, to);
  }

  lemma TwoMoves(env: Environment, opt: Options, a: Site, b: Site, to: string, conn: int, p: PageRecord, q: PageRecord)
    requires MovedTo(a, b, to) && opt.url == a.config.page
    requires p == FirstHop(a, conn, MovedWithText(a, 0, to)) && Delivers(env, opt, a, p)
    requires q == NextHop(b, p, TextOtherPage(b, 2, OddIds(3))) && Delivers(env, opt, b, q)
    ensures PageChain(env, opt, [p, q]) && OneAdded([], EndHop(a.dec, p).s.also, 1) && Admits(a.dec, p)
    ensures OddLog(EndHop(a.dec, p).log) && |EndHop(a.dec, p).log| == 2
  {
    FirstStands(env, opt, a, conn, p.events);
    MovedWithTextRun(a, [], NO_FETCH, [], to);
    OddOfTwo(a);
    NextFollows(env, opt, b, p, q);
    ChainOfTwo(env, opt, p, q);
  }

  lemma SecondPage(a: Site, log: seq<Submission>, primary: Fetched, also: seq<Fetched>, tick: nat, on: Footing)
    requires Proper(a) && |log| == 2
    ensures var r := RecordOf(a, log, primary, also, tick, TextOtherPage(a, 2, OddIds(3)), on);
            var t := EndHop(a.dec, r);
            t.c.redirectUrl == "" && t.s.pending == [] && t.s.primary.ok && OneAdded(also, t.s.also, 1)
                && Clean(a.dec, r)
  {
    TextOtherPageRun(a, log, primary, also, OddIds(3));
    PrimaryIsPage(HopFor(a, 2), a.dec, Begun(a, log, primary, also), TextOtherPage(a, 2, OddIds(3)));
  }

  /** A page with one script redirects to another with one script, and both scripts arrive: every hop is as it
      should be, the caller gets two results, and both are number 1. */
  lemma NumberOneTwice(env: Environment, opt: Options, a: Site, b: Site, to: string, conn: int, p: PageRecord,
                       q: PageRecord)
    requires MovedTo(a, b, to) && opt.url == a.config.page && opt.maxRedirects >= 2
    requires p == FirstHop(a, conn, MovedWithText(a, 0, to)) && Delivers(env, opt, a, p)
    requires q == NextHop(b, p, TextOtherPage(b, 2, OddIds(3))) && Delivers(env, opt, b, q)
    ensures var t := EndHop(a.dec, q);
            && PageFetched(env, opt, [p, q], Finished([], []), t.s.primary, t.s.also)
            && PageTraced(env.dec, START, [p, q], Finished([], []), EndedAt(env.dec, q))
            && |t.s.also| == 2 && t.s.also[0].requestSeq == 1 && t.s.also[1].requestSeq == 1
            && Admits(env.dec, p) && Clean(env.dec, q)
  {
    var t := EndHop(a.dec, p);
    TwoMoves(env, opt, a, b, to, conn, p, q);
    SecondPage(b, t.log, t.s.primary, t.s.also, q.tick, q.on);
    PageEndsFetch(env, opt, p, q);
    TwoResults(t.s.also, EndHop(a.dec, q).s.also);
  }

  lemma TwoResults(first: seq<Fetched>, both: seq<Fetched>)
    requires OneAdded([], first, 1) && OneAdded(first, both, 1)
    ensures |both| == 2 && both[0].requestSeq == 1 && both[1].requestSeq == 1
  {
    assert both[0] == first[0];
  }

  lemma PageEndsFetch(env: Environment, opt: Options, p: PageRecord, q: PageRecord)
    requires PageChain(env, opt, [p, q]) && opt.alsoFetch == [] && opt.maxRedirects >= 2
    requires var t := EndHop(env.dec, q); t.c.redirectUrl == "" && t.s.pending == [] && t.s.primary.ok
    ensures var t := EndHop(env.dec, q); PageFetched(env, opt, [p, q], Finished([], []), t.s.primary, t.s.also)
  {
    NothingRemains(opt, EndHop(env.dec, q).s.also);
  }

  // ---------- A plain fetch on a connection with a stream left open ----------

  /** The rest of a stream that an earlier hop on the connection has left open. */
  function Rest(left: int, body: string): seq<Event> {
    [DataChunk(left, body)] + [EndOf(left)]
  }

  function RestOf(dec: Decoders, body: string): Response {
    Decompress(dec, TouchStatus(Response(map[], body)))
  }

  lemma RestIsPlain(dec: Decoders, body: string)
    ensures RestOf(dec, body).body == body && !IsRedirect(TouchStatus(Response(map[], body)))
  {}

  lemma OneMoreSingle(dec: Decoders, s: Single, events: seq<Event>, ev: Event)
    ensures RunSingle(dec, s, events + [ev]) == StepSingle(dec, RunSingle(dec, s, events), ev)
  {
    assert (events + [ev])[..|events|] == events;
  }

  lemma RestIsCaptured(dec: Decoders, host: string, left: int, body: string)
    requires left > 0
    ensures var t := RunSingle(dec, Armed(host), Rest(left, body));
            t.got == Some(RestOf(dec, body)) && t.c.redirectUrl == "" && !t.c.running
  {
    var first := DataChunk(left, body);
    OneMoreSingle(dec, Armed(host), [], first);
    assert [] + [first] == [first];
    assert "" + body == body;
    OneMoreSingle(dec, Armed(host), [first], EndOf(left));
    RestIsPlain(dec, body);
  }

  /** All that is ever received comes at once. */
  lemma OneReceive(dec: Decoders, s: Single, turns: seq<Turn>, timeout: int)
    requires |turns| == 1 && !turns[0].broken && timeout <= 0 && s.c.running
    ensures LoopSingle(dec, s, turns, timeout) == (RunSingle(dec, s, turns[0].events), true)
    ensures Processed(dec, s, turns, timeout) == turns[0].events
  {
    var t := RunSingle(dec, s, turns[0].events);
    assert turns[1..] == [];
    assert LoopSingle(dec, t, turns[1..], timeout) == (t, true);
    assert Processed(dec, t, turns[1..], timeout) == [];
    assert turns[0].events + [] == turns[0].events;
  }

  lemma RestIsAnswer(dec: Decoders, host: string, left: int, body: string, turns: seq<Turn>, timeout: int)
    requires left > 0 && turns == [Turn(0, Rest(left, body), false)] && timeout <= 0
    ensures OutcomeOf(dec, host, turns, timeout) == Answered(RestOf(dec, body))
    ensures Frames(dec, host, turns, timeout) == Rest(left, body)
  {
    RestIsCaptured(dec, host, left, body);
    OneReceive(dec, Armed(host), turns, timeout);
  }

  lemma RestIsForeign(dec: Decoders, host: string, left: int, sid: int, body: string)
    requires 0 < left != sid
    ensures EndsOnce(Rest(left, body)) && BodyOf(Rest(left, body), sid) == ""
    ensures !AnswerComesFrom(dec, Armed(host), Rest(left, body), sid)
  {
    BodyOfSnoc([], DataChunk(left, body), sid);
    assert [] + [DataChunk(left, body)] == [DataChunk(left, body)];
    BodyOfSnoc([DataChunk(left, body)], EndOf(left), sid);
  }

  /** A plain fetch whose request got stream `sid` on a connection with stream `left` still open: the rest of
      `left` is the body returned for the URL, without error, and nothing has come of the one request that was
      made. */
  lemma LeftoverAnswers(env: Environment, opt: Options, url: string, u: UrlParser.ParsedUrl, asked: seq<Asked>,
                        conn: int,
                        left: int, sid: int, body: string)
    requires UrlParser.Parse(url) == Success(u) && 0 < left < sid && opt.maxRedirects >= 1 && opt.timeout <= 0
    requires env.receives(0) == [Turn(0, Rest(left, body), false)]
    ensures var resp, made := RestOf(env.dec, body), [RequestFor(conn, url, u, sid)];
            var r := HopRecord(url, Success(u), true, Some(Answered(resp)), conn, sid, 0, 0);
            && PlainFetch(env, opt, url, NO_FETCH.(ok := true, finalUrl := url, resp := resp), [r])
            && Traced(Moment(asked, Some(conn), 0), [r], Moment(asked + made, Some(conn), 1))
            && resp.body == body && FramesOf(env, opt, r) == Rest(left, body)
            && BodyOf(Rest(left, body), made[0].entry.sid) == ""
            && !AnswerComesFrom(env.dec, Armed(u.host), Rest(left, body), made[0].entry.sid)
  {
    RestIsPlain(env.dec, body);
    RestIsAnswer(env.dec, u.host, left, body, env.receives(0), opt.timeout);
    RestIsForeign(env.dec, u.host, left, sid, body);
    var r := HopRecord(url, Success(u), true, Some(Answered(RestOf(env.dec, body))), conn, sid, 0, 0);
    TurnWithRequest(env, opt, r);
    OneTurnTraced(Moment(asked, Some(conn), 0), r, RequestFor(conn, url, u, sid));
  }

  lemma OneTurnTraced(from: Moment, r: HopRecord, e: Asked)
    requires RequestOf(r) == [e] && GoesOn(r.outcome) && r.reused && from.line == Some(r.conn)
             && from.tick == r.begun == r.tick
    ensures Traced(from, [r], Moment(from.asked + [e], from.line, from.tick + 1))
  {
    assert from.asked + [] == from.asked;
    TracedOne(from, [], from, r, Moment(from.asked + [e], from.line, from.tick + 1));
    assert [] + [r] == [r];
  }
}
