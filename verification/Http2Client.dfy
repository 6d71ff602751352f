/** The HTTP/2 client: callbacks of the HTTP/2 library assemble one response per stream and decide, at the
    end of a stream, between a redirect and a response to hand on. The library itself is the environment:
    it delivers events and answers submissions with stream ids. */
module Http2Client {
  import opened Resolver
  import opened Text
  import opened UrlParser
  import opened Wrappers

  type Headers = map<string, string>

  datatype Response = Response(headers: Headers, body: string)

  const NO_RESPONSE := Response(map[], "")

  /** The decompression libraries, as functions. */
  datatype Decoders = Decoders(inflate: string -> string, brotli: string -> string)

  datatype FrameKind = HeadersFrame | DataFrame | OtherFrame

  /** One callback of the library, in the order of arrival. */
  datatype Event =
    | HeaderField(kind: FrameKind, sid: int, name: string, value: string)
    | DataChunk(sid: int, payload: string)
    | FrameEnd(kind: FrameKind, sid: int, endStream: bool)
    | GoAway

  /** What the client asks of its owner: the registered callbacks, as values. */
  datatype Effect = Nothing | Chunk(sid: int, payload: string) | Completed(sid: int, resp: Response)

  /** One request given to the library. `sid` is negative when the library refused it. */
  datatype Submission = Submission(url: string, host: string, authority: string, target: string,
                                   afterGoaway: bool, sid: int)

  datatype ClientState = ClientState(host: string, running: bool, goaway: bool, redirectUrl: string,
                                     responses: map<int, Response>)

  function Get(responses: map<int, Response>, sid: int): Response {
    if sid in responses then responses[sid] else NO_RESPONSE
  }

  function Lookup(h: Headers, name: string): string {
    if name in h then h[name] else ""
  }

  /** Reading `:status` through the map's index operator leaves an empty entry behind if there was none. */
  function TouchStatus(r: Response): Response {
    r.(headers := r.headers[":status" := Lookup(r.headers, ":status")])
  }

  predicate IsRedirect(r: Response) {
    && Lookup(r.headers, ":status") in {"301", "302", "303", "307", "308"}
    && "location" in r.headers
  }

  function ResolveLocation(host: string, loc: string): string {
    if "//" <= loc then "https:" + loc
    else if "/" <= loc then "https://" + host + loc
    else loc
  }

  function ContentEncoding(h: Headers): string {
    if "content-encoding" in h then h["content-encoding"] else Lookup(h, "Content-Encoding")
  }

  function Decompress(dec: Decoders, r: Response): Response {
    var encoding := ContentEncoding(r.headers);
    if encoding == "gzip" || encoding == "deflate" then r.(body := dec.inflate(r.body))
    else if encoding == "br" then r.(body := dec.brotli(r.body))
    else r
  }

  predicate EndsStream(ev: Event) {
    ev.FrameEnd? && ev.sid > 0 && (ev.kind.HeadersFrame? || ev.kind.DataFrame?) && ev.endStream
  }

  function OnEvent(dec: Decoders, c: ClientState, ev: Event): (ClientState, Effect) {
    match ev
    case HeaderField(kind, sid, name, value) =>
      if kind.HeadersFrame? then
        var r := Get(c.responses, sid);
        (c.(responses := c.responses[sid := r.(headers := r.headers[name := value])]), Nothing)
      else (c, Nothing)
    case DataChunk(sid, payload) =>
      var r := Get(c.responses, sid);
      (c.(responses := c.responses[sid := r.(body := r.body + payload)]), Chunk(sid, payload))
    case GoAway => (c.(goaway := true, running := false), Nothing)
    case FrameEnd(_, sid, _) =>
      if !EndsStream(ev) then (c, Nothing)
      else
        var r := TouchStatus(Get(c.responses, sid));
        if IsRedirect(r) then
          (c.(responses := c.responses[sid := r], redirectUrl := ResolveLocation(c.host, r.headers["location"]),
              running := false), Nothing)
        else
          var d := Decompress(dec, r);
          (c.(responses := c.responses[sid := d]), Completed(sid, d))
  }

  function Reset(c: ClientState): ClientState {
    c.(running := true, redirectUrl := "", responses := map[])
  }

  /** The `:authority` of every request: the client's host up to its first colon. */
  function AuthorityOf(host: string): string {
    Before(host, {':'})
  }

  function TargetOf(u: ParsedUrl): string {
    if u.query != "" then u.path + "?" + u.query else u.path
  }

  function Submit(host: string, goaway: bool, url: string, u: ParsedUrl, sid: int): Submission {
    Submission(url, u.host, AuthorityOf(host), TargetOf(u), goaway, sid)
  }

  class Client {
    const host: string
    const dec: Decoders
    /** The library's answer to the k-th submission on this connection. */
    const answer: nat -> int
    var running: bool
    var goaway: bool
    var redirectUrl: string
    var responses: map<int, Response>
    var log: seq<Submission>

    function View(): ClientState
      reads this
    {
      ClientState(host, running, goaway, redirectUrl, responses)
    }

    constructor (host: string, dec: Decoders, answer: nat -> int)
      ensures this.host == host && this.dec == dec && this.answer == answer
      ensures View() == ClientState(host, true, false, "", map[]) && log == []
    {
      this.host, this.dec, this.answer := host, dec, answer;
      running, goaway, redirectUrl, responses, log := true, false, "", map[], [];
    }

    method ResetForRequest()
      modifies this
      ensures View() == Reset(old(View())) && log == old(log)
    {
      running := true;
      redirectUrl := "";
      responses := map[];
    }

    method SendHeader(url: string, u: ParsedUrl) returns (sid: int)
      modifies this`log
      ensures sid == answer(|old(log)|) && log == old(log) + [Submit(host, goaway, url, u, sid)]
    {
      var target := u.path;
      if u.query != "" {
        target := target + "?" + u.query;
      }
      var authority := host;
      NoCut(host, {':'});
      var colon := FindFirstOf(authority, {':'}, 0);
      if colon != |authority| {
        authority := authority[..colon];
      }
      sid := answer(|log|);
      log := log + [Submission(url, u.host, authority, target, goaway, sid)];
    }

    method PerformDecompression(sid: int)
      requires sid in responses
      modifies this`responses
      ensures responses == old(responses)[sid := Decompress(dec, old(responses)[sid])]
    {
      var resp := responses[sid];
      var encoding := "";
      if "content-encoding" in resp.headers {
        encoding := resp.headers["content-encoding"];
      } else if "Content-Encoding" in resp.headers {
        encoding := resp.headers["Content-Encoding"];
      }
      if encoding == "gzip" || encoding == "deflate" {
        resp := resp.(body := dec.inflate(resp.body));
      } else if encoding == "br" {
        resp := resp.(body := dec.brotli(resp.body));
      }
      responses := responses[sid := resp];
    }

    method OnFrameRecv(kind: FrameKind, sid: int, endStream: bool) returns (e: Effect)
      modifies this`running, this`redirectUrl, this`responses
      ensures (View(), e) == OnEvent(dec, old(View()), FrameEnd(kind, sid, endStream))
    {
      e := Nothing;
      if sid > 0 && (kind.HeadersFrame? || kind.DataFrame?) {
        if endStream {
          responses := responses[sid := TouchStatus(Get(responses, sid))];
          var resp := responses[sid];
          var status := resp.headers[":status"];
          if status in {"301", "302", "303", "307", "308"} && "location" in resp.headers {
            var loc := resp.headers["location"];
            if "//" <= loc {
              loc := "https:" + loc;
            } else if "/" <= loc {
              loc := "https://" + host + loc;
            }
            redirectUrl := loc;
            running := false;
          } else {
            PerformDecompression(sid);
            assert responses == old(responses)[sid := Decompress(dec, resp)];
            e := Completed(sid, responses[sid]);
          }
        }
      }
    }

    method OnCallback(ev: Event) returns (e: Effect)
      modifies this`running, this`redirectUrl, this`responses, this`goaway
      ensures (View(), e) == OnEvent(dec, old(View()), ev)
    {
      e := Nothing;
      match ev {
        case HeaderField(kind, sid, name, value) =>
          if kind.HeadersFrame? {
            var r := Get(responses, sid);
            responses := responses[sid := r.(headers := r.headers[name := value])];
          }
        case DataChunk(sid, payload) =>
          var r := Get(responses, sid);
          responses := responses[sid := r.(body := r.body + payload)];
          e := Chunk(sid, payload);
        case GoAway =>
          goaway := true;
          running := false;
        case FrameEnd(kind, sid, endStream) =>
          e := OnFrameRecv(kind, sid, endStream);
      }
    }

    method Stop()
      modifies this`running
      ensures View() == old(View()).(running := false)
    {
      running := false;
    }
  }

  // ---------- Responses under interleaving ----------

  lemma SameResponses(dec: Decoders, c1: ClientState, c2: ClientState, ev: Event)
    requires c1.responses == c2.responses && c1.host == c2.host
    ensures OnEvent(dec, c1, ev).0.responses == OnEvent(dec, c2, ev).0.responses
    ensures OnEvent(dec, c1, ev).0.host == OnEvent(dec, c2, ev).0.host
  {
    match ev {
      case HeaderField(_, sid, _, _) => assert Get(c1.responses, sid) == Get(c2.responses, sid);
      case DataChunk(sid, _) => assert Get(c1.responses, sid) == Get(c2.responses, sid);
      case GoAway =>
      case FrameEnd(_, sid, _) => assert Get(c1.responses, sid) == Get(c2.responses, sid);
    }
  }

  function Run(dec: Decoders, c: ClientState, events: seq<Event>): ClientState {
    if events == [] then c
    else OnEvent(dec, Run(dec, c, events[..|events| - 1]), events[|events| - 1]).0
  }

  /** The events that concern one stream. */
  function Project(events: seq<Event>, sid: int): seq<Event> {
    if events == [] then []
    else
      var ev := events[|events| - 1];
      Project(events[..|events| - 1], sid) + if !ev.GoAway? && ev.sid == sid then [ev] else []
  }

  /** The stream's DATA payloads, in order. */
  function BodyOf(events: seq<Event>, sid: int): string {
    if events == [] then ""
    else
      var ev := events[|events| - 1];
      BodyOf(events[..|events| - 1], sid) + if ev.DataChunk? && ev.sid == sid then ev.payload else ""
  }

  predicate IsHeaderOf(ev: Event, sid: int) {
    ev.HeaderField? && ev.kind.HeadersFrame? && ev.sid == sid
  }

  function HeadersOf(events: seq<Event>, sid: int): Headers {
    if events == [] then map[]
    else
      var ev := events[|events| - 1];
      var h := HeadersOf(events[..|events| - 1], sid);
      if IsHeaderOf(ev, sid) then h[ev.name := ev.value] else h
  }

  /** A name maps to the value of its last HEADERS field on the stream, and to nothing if there was none. */
  lemma {:induction false} LastValueWins(events: seq<Event>, sid: int, name: string)
    ensures name in HeadersOf(events, sid) <==>
            exists i :: 0 <= i < |events| && IsHeaderOf(events[i], sid) && events[i].name == name
    ensures forall i :: 0 <= i < |events| && IsHeaderOf(events[i], sid) && events[i].name == name
                        && (forall j :: i < j < |events| ==> !(IsHeaderOf(events[j], sid) && events[j].name == name))
                        ==> name in HeadersOf(events, sid) && HeadersOf(events, sid)[name] == events[i].value
    decreases |events|
  {
    if events != [] {
      var n := |events| - 1;
      LastValueWins(events[..n], sid, name);
      if IsHeaderOf(events[n], sid) && events[n].name == name {
      } else if name in HeadersOf(events[..n], sid) {
        var i :| 0 <= i < n && IsHeaderOf(events[..n][i], sid) && events[..n][i].name == name;
        assert IsHeaderOf(events[i], sid) && events[i].name == name;
      }
    }
  }

  ghost predicate Unended(events: seq<Event>, sid: int) {
    forall i :: 0 <= i < |events| && EndsStream(events[i]) ==> events[i].sid != sid
  }

  /** Until a stream ends, its response is exactly its own headers and its own data, whatever other
      streams do in between. */
  lemma {:induction false} AssembledPerStream(dec: Decoders, c: ClientState, events: seq<Event>, sid: int)
    requires sid !in c.responses && Unended(events, sid)
    ensures Get(Run(dec, c, events).responses, sid) == Response(HeadersOf(events, sid), BodyOf(events, sid))
    decreases |events|
  {
    if events != [] {
      var n := |events| - 1;
      UnendedPrefix(events, sid);
      AssembledPerStream(dec, c, events[..n], sid);
      StreamStep(dec, Run(dec, c, events[..n]), events[n], sid);
    }
  }

  lemma UnendedPrefix(events: seq<Event>, sid: int)
    requires events != [] && Unended(events, sid)
    ensures Unended(events[..|events| - 1], sid)
    ensures EndsStream(events[|events| - 1]) ==> events[|events| - 1].sid != sid
  {
    var n := |events| - 1;
    forall i | 0 <= i < n && EndsStream(events[..n][i]) ensures events[..n][i].sid != sid {
      assert events[..n][i] == events[i];
    }
  }

  /** One event changes a stream's response only by the stream's own field or payload. */
  lemma StreamStep(dec: Decoders, c: ClientState, ev: Event, sid: int)
    requires EndsStream(ev) ==> ev.sid != sid
    ensures var r := Get(c.responses, sid);
            Get(OnEvent(dec, c, ev).0.responses, sid)
            == Response(if IsHeaderOf(ev, sid) then r.headers[ev.name := ev.value] else r.headers,
                        r.body + if ev.DataChunk? && ev.sid == sid then ev.payload else "")
  {
    var r := Get(c.responses, sid);
    assert r.body + "" == r.body;
  }

  lemma BodyOfSnoc(events: seq<Event>, ev: Event, sid: int)
    ensures BodyOf(events + [ev], sid)
            == BodyOf(events, sid) + if ev.DataChunk? && ev.sid == sid then ev.payload else ""
  {
    assert (events + [ev])[..|events|] == events;
  }

  lemma HeadersOfSnoc(events: seq<Event>, ev: Event, sid: int)
    ensures HeadersOf(events + [ev], sid)
            == var h := HeadersOf(events, sid); if IsHeaderOf(ev, sid) then h[ev.name := ev.value] else h
  {
    assert (events + [ev])[..|events|] == events;
  }

  lemma {:induction false} OnlyOwnEventsCount(events: seq<Event>, sid: int)
    ensures BodyOf(events, sid) == BodyOf(Project(events, sid), sid)
    ensures HeadersOf(events, sid) == HeadersOf(Project(events, sid), sid)
    decreases |events|
  {
    if events != [] {
      var ev := events[|events| - 1];
      var p := Project(events[..|events| - 1], sid);
      OnlyOwnEventsCount(events[..|events| - 1], sid);
      if !ev.GoAway? && ev.sid == sid {
        BodyOfSnoc(p, ev, sid);
        HeadersOfSnoc(p, ev, sid);
      } else {
        assert Project(events, sid) == p;
      }
    }
  }

  /** What is delivered at the end of a stream: either a redirect to the resolved Location, or the decoded
      concatenation of the stream's data with the stream's headers. */
  lemma DeliveredResponse(dec: Decoders, c: ClientState, events: seq<Event>, end: Event)
    requires EndsStream(end) && end.sid !in c.responses && Unended(events, end.sid)
    ensures var sid := end.sid;
            var whole := TouchStatus(Response(HeadersOf(events, sid), BodyOf(events, sid)));
            var before := Run(dec, c, events);
            var (after, effect) := OnEvent(dec, before, end);
            && (IsRedirect(whole) ==> effect == Nothing && !after.running
                                      && after.redirectUrl == ResolveLocation(before.host, whole.headers["location"]))
            && (!IsRedirect(whole) ==> effect == Completed(sid, Decompress(dec, whole))
                                       && after.redirectUrl == before.redirectUrl && after.running == before.running)
  {
    AssembledPerStream(dec, c, events, end.sid);
  }

  /** Where a Location leads, for a client of `host`: "//" in front keeps its host, "/" in front keeps the client's, and
      anything else stands for itself. */
  ghost predicate LeadsTo(host: string, loc: string, url: string) {
    && ("//" <= loc ==> url == "https:" + loc)
    && ("/" <= loc && !("//" <= loc) ==> url == "https://" + host + loc)
    && (!("/" <= loc) ==> url == loc)
  }

  /** Exactly these five statuses, with a Location, make a redirect. */
  ghost predicate Redirecting(h: Headers) {
    && ":status" in h && "location" in h
    && (|| h[":status"] == "301" || h[":status"] == "302" || h[":status"] == "303"
        || h[":status"] == "307" || h[":status"] == "308")
  }

  /** What the end of a stream does, in terms of what has been received for it: a redirect is followed to where its
      Location leads and handed to no one, everything else is handed on, and stops nothing. */
  lemma StatusDecides(dec: Decoders, c: ClientState, end: Event)
    requires EndsStream(end)
    ensures var h := Get(c.responses, end.sid).headers;
            var (after, effect) := OnEvent(dec, c, end);
            if Redirecting(h)
                then !after.running && LeadsTo(c.host, h["location"], after.redirectUrl) && effect == Nothing
            else
              && effect.Completed? && effect.sid == end.sid
              && after.running == c.running && after.redirectUrl == c.redirectUrl
  {}

  /** A decoded body: gzip and deflate are inflated, br goes to its own decoder, anything else is left as it is.
      The name of the encoding stands under the lower-case header, or, failing that, the capitalized one. */
  ghost predicate DecodedBy(dec: Decoders, h: Headers, raw: string, body: string) {
    var encoding := if "content-encoding" in h then h["content-encoding"]
                    else if "Content-Encoding" in h then h["Content-Encoding"] else "";
    && (encoding == "gzip" || encoding == "deflate" ==> body == dec.inflate(raw))
    && (encoding == "br" ==> body == dec.brotli(raw))
    && (encoding !in {"gzip", "deflate", "br"} ==> body == raw)
  }

  /** The response that is handed on: the headers as received, with an empty status if there was none, and the decoded
      body. */
  lemma HandedOn(dec: Decoders, c: ClientState, end: Event)
    requires EndsStream(end)
    ensures var r := Get(c.responses, end.sid);
            var effect := OnEvent(dec, c, end).1;
            effect.Completed? ==>
              && effect.resp.headers == (if ":status" in r.headers then r.headers else r.headers[":status" := ""])
              && DecodedBy(dec, r.headers, r.body, effect.resp.body)
  {
    var r := Get(c.responses, end.sid);
    if ":status" in r.headers {
      assert r.headers[":status" := r.headers[":status"]] == r.headers;
    }
  }

  /** Streams end with the END_STREAM flag of a HEADERS or DATA frame, on any stream but the connection's own. */
  lemma FramesThatEnd(ev: Event)
    ensures EndsStream(ev) <==>
            exists sid: int :: sid > 0
                && (ev == FrameEnd(HeadersFrame, sid, true) || ev == FrameEnd(DataFrame, sid, true))
  {
    if EndsStream(ev) {
      assert ev.sid > 0 && (ev == FrameEnd(HeadersFrame, ev.sid, true) || ev == FrameEnd(DataFrame, ev.sid, true));
    }
  }

  /** Event `k` ends a stream whose header fields are a redirect that leads to `url`. */
  ghost predicate LedFrom(host: string, events: seq<Event>, k: nat, url: string) {
    && k < |events| && EndsStream(events[k])
    && var h := HeadersOf(events[..k], events[k].sid);
       Redirecting(h) && LeadsTo(host, h["location"], url)
  }

  lemma LocationLeads(host: string, events: seq<Event>, k: nat)
    requires EndsInRedirect(events, k)
    ensures LedFrom(host, events, k, LocationAt(host, events, k))
  {}

  lemma LastLeads(host: string, events: seq<Event>)
    ensures var k := LastRedirect(events, |events|);
            k.Some? ==> LedFrom(host, events, k.value, LocationAt(host, events, k.value))
  {
    var k := LastRedirect(events, |events|);
    if k.Some? {
      LocationLeads(host, events, k.value);
    }
  }

  /** A Location that is a whole URL leads to the host and the path that it names. */
  lemma WholeUrlIsFollowed(host: string, c: Components, url: string)
    requires WellFormed(c) && LeadsTo(host, Print(c), url)
    ensures url == Print(c) && Parse(url).Success?
    ensures Parse(url).value.host == c.host.name && Parse(url).value.path == if c.path == "" then "/" else c.path
  {
    PrintParse(c, DEFAULT_PORT);
    assert Print(c)[0] == c.scheme[0];
  }

  /** Two interleavings that agree on a stream's own events deliver the same response for it. */
  lemma OthersDoNotInterfere(dec: Decoders, c: ClientState, e1: seq<Event>, e2: seq<Event>, end: Event)
    requires EndsStream(end) && end.sid !in c.responses && Unended(e1, end.sid) && Unended(e2, end.sid)
    requires Project(e1, end.sid) == Project(e2, end.sid)
    ensures OnEvent(dec, Run(dec, c, e1), end).1 == OnEvent(dec, Run(dec, c, e2), end).1
  {
    OnlyOwnEventsCount(e1, end.sid);
    OnlyOwnEventsCount(e2, end.sid);
    DeliveredResponse(dec, c, e1, end);
    DeliveredResponse(dec, c, e2, end);
  }

  // ---------- Which stream an answer comes from ----------

  /** No stream ends twice (section 5.1 of RFC 9113). */
  ghost predicate EndsOnce(events: seq<Event>) {
    forall i, j :: 0 <= i < j < |events| && EndsStream(events[i]) && EndsStream(events[j]) ==>
          events[i].sid != events[j].sid
  }

  /** The response of the stream that event `k` ends: the last value of each of its header fields, and its data. */
  function WholeAt(events: seq<Event>, k: nat): Response
    requires k < |events| && EndsStream(events[k])
  {
    TouchStatus(Response(HeadersOf(events[..k], events[k].sid), BodyOf(events[..k], events[k].sid)))
  }

  predicate EndsInRedirect(events: seq<Event>, k: nat) {
    k < |events| && EndsStream(events[k]) && IsRedirect(WholeAt(events, k))
  }

  predicate EndsInResponse(events: seq<Event>, k: nat) {
    k < |events| && EndsStream(events[k]) && !IsRedirect(WholeAt(events, k))
  }

  /** The last of the first `n` frames that ends a stream with a redirect. */
  function LastRedirect(events: seq<Event>, n: nat): (k: Option<nat>)
    requires n <= |events|
    ensures k.Some? ==> k.value < n && EndsInRedirect(events, k.value)
    ensures forall j :: 0 <= j < n && EndsInRedirect(events, j) ==> k.Some? && j <= k.value
  {
    if n == 0 then None else if EndsInRedirect(events, n - 1) then Some(n - 1) else LastRedirect(events, n - 1)
  }

  /** The last of the first `n` frames that ends a stream with a response to hand on. */
  function LastDelivery(events: seq<Event>, n: nat): (k: Option<nat>)
    requires n <= |events|
    ensures k.Some? ==> k.value < n && EndsInResponse(events, k.value)
    ensures forall j :: 0 <= j < n && EndsInResponse(events, j) ==> k.Some? && j <= k.value
  {
    if n == 0 then None else if EndsInResponse(events, n - 1) then Some(n - 1) else LastDelivery(events, n - 1)
  }

  function LocationAt(host: string, events: seq<Event>, k: nat): string
    requires EndsInRedirect(events, k)
  {
    ResolveLocation(host, WholeAt(events, k).headers["location"])
  }

  /** The redirect URL after the first `n` frames: the resolved Location of the last redirect among them. */
  function RedirectedTo(host: string, events: seq<Event>, n: nat): string
    requires n <= |events|
  {
    var k := LastRedirect(events, n);
    if k.Some? then LocationAt(host, events, k.value) else ""
  }

  /** What the client holds for a stream when it ends is that stream's whole response. */
  lemma HeldIsWhole(dec: Decoders, c: ClientState, events: seq<Event>, k: nat)
    requires c.responses == map[] && EndsOnce(events) && k < |events| && EndsStream(events[k])
    ensures TouchStatus(Get(Run(dec, c, events[..k]).responses, events[k].sid)) == WholeAt(events, k)
  {
    AssembledPerStream(dec, c, events[..k], events[k].sid);
  }

  lemma GoawayStep(dec: Decoders, c: ClientState, ev: Event)
    ensures OnEvent(dec, c, ev).0.goaway <==> c.goaway || ev == GoAway
    ensures OnEvent(dec, c, ev).0.host == c.host
  {}

  /** GOAWAY is remembered: no event and no re-arming clears it. */
  lemma {:induction false} GoawayIsPermanent(dec: Decoders, c: ClientState, events: seq<Event>)
    ensures Run(dec, c, events).goaway <==> c.goaway || GoAway in events
    ensures Run(dec, Reset(c), events).goaway <==> c.goaway || GoAway in events
    ensures Run(dec, c, events).host == c.host
    decreases |events|
  {
    if events != [] {
      var before, last := events[..|events| - 1], events[|events| - 1];
      assert events == before + [last];
      GoawayIsPermanent(dec, c, before);
      GoawayStep(dec, Run(dec, c, before), last);
      GoawayStep(dec, Run(dec, Reset(c), before), last);
    }
  }

  /** The authority stops at the first colon. */
  lemma AuthorityStopsAtColon(a: string, b: string)
    requires ':' !in a
    ensures AuthorityOf(a) == a && AuthorityOf(a + ":" + b) == a
  {
    NoCut(a, {':'});
    Assoc(a, ":", b);
    CutAtSeam(a, ":" + b, {':'});
  }

  /** The authority sent is the client's host exactly when that host has no colon; a bare IPv6 host loses
      everything from its first colon on. */
  lemma AuthorityIsHost(host: string)
    ensures AuthorityOf(host) == host <==> ':' !in host
  {
    NoCut(host, {':'});
  }

  /** A root-relative redirect stays on the client's host exactly when the host string reads back as itself. */
  lemma RootRelativeStaysOnHost(host: string, loc: string)
    requires "/" <= loc && !("//" <= loc) && FreeOf(host, AUTHORITY_END)
    ensures SameHost(ResolveLocation(host, loc), host) <==> Reparses(host)
  {
    ParseHttps(host, loc);
    HostReparses(host);
  }
}
