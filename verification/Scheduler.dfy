/** The streaming subresource scheduler: while a page's body arrives, it queues the script URLs found in it
    and submits those on the page's host on the page's own connection. */
module Scheduler {
  import opened Http2Client
  import opened Resolver
  import opened SubresourceScanner
  import opened UrlParser
  import opened Wrappers

  /** What the error text of a result says; `Fine` is the empty text. */
  datatype Problem =
    | Fine
    | UrlUnparsed
    | NotConnected
    | InvalidPort
    | ProxyRefused
    | TlsUnavailable
    | TlsRefused
    | Unsupported(protocol: string)
    | NotSubmitted
    | TooSlow
    | NoAnswer
    | NothingCaptured
    | TooManyRedirects

  /** The result of one request. */
  datatype Fetched = Fetched(ok: bool, error: Problem, finalUrl: string, resp: Response, sid: int, requestSeq: int,
                             role: string, source: string)

  const NO_FETCH := Fetched(false, Fine, "", NO_RESPONSE, -1, 0, "", "")
  const PRIMARY_SEQ := 0

  /** What stays fixed during a hop. */
  datatype Context = Context(config: Config, pageUrl: string, connHost: string, clientHost: string,
                             answer: nat -> int, primarySid: int)

  datatype Sched = Sched(scan: State, pending: seq<Item>, pendingUrls: set<string>, dispatched: set<string>,
                         sidUrl: map<int, string>, sidDiscovery: map<int, string>, sidSeq: map<int, int>,
                         nextSeq: int, active: int, primaryDone: bool, primary: Fetched, also: seq<Fetched>)

  // ---------- Specification of the steps ----------

  function Enqueue(s: Sched, items: seq<Item>): Sched
    decreases |items|
  {
    if items == [] then s
    else if items[0].url in s.dispatched || items[0].url in s.pendingUrls then Enqueue(s, items[1..])
    else Enqueue(s.(pendingUrls := s.pendingUrls + {items[0].url}, pending := s.pending + [items[0]]), items[1..])
  }

  function DispatchAll(x: Context, s: Sched, log: seq<Submission>, deferred: seq<Item>): (Sched, seq<Submission>)
    decreases |s.pending|
  {
    if s.pending == [] then (s.(pending := deferred), log)
    else
      var item := s.pending[0];
      var s1 := s.(pending := s.pending[1..]);
      if !SameHost(item.url, x.connHost) then DispatchAll(x, s1, log, deferred + [item])
      else if item.url in s1.dispatched then DispatchAll(x, s1, log, deferred)
      else
        var (s2, log2) := SubmitOne(x, s1, log, item);
        DispatchAll(x, s2, log2, deferred)
  }

  /** The next submission of the connection, for `item`. */
  function Request(x: Context, item: Item, k: nat): (e: Submission)
    requires SameHost(item.url, x.connHost)
    ensures e.url == item.url && e.sid == x.answer(k)
  {
    Submit(x.clientHost, false, item.url, Parse(item.url).value, x.answer(k))
  }

  function AfterSubmit(s: Sched, sid: int, item: Item): (t: Sched)
    ensures t.pending == s.pending
  {
    var s1 := MarkedDispatched(s, item.url);
    if sid < 0 then s1 else Opened(s1, sid, item)
  }

  function SubmitOne(x: Context, s: Sched, log: seq<Submission>, item: Item): (Sched, seq<Submission>)
    requires SameHost(item.url, x.connHost)
  {
    var e := Request(x, item, |log|);
    (AfterSubmit(s, e.sid, item), log + [e])
  }

  function MarkedDispatched(s: Sched, url: string): Sched {
    s.(dispatched := s.dispatched + {url}, pendingUrls := s.pendingUrls - {url})
  }

  function Opened(s: Sched, sid: int, item: Item): Sched {
    s.(sidUrl := s.sidUrl[sid := item.url], sidDiscovery := s.sidDiscovery[sid := item.source],
       sidSeq := s.sidSeq[sid := s.nextSeq], nextSeq := s.nextSeq + 1, active := s.active + 1)
  }

  function Dispatch(x: Context, goaway: bool, s: Sched, log: seq<Submission>): (Sched, seq<Submission>) {
    if goaway then (s, log) else DispatchAll(x, s, log, [])
  }

  function OnBodyChunk(x: Context, goaway: bool, s: Sched, log: seq<Submission>, sid: int, payload: string)
    : (Sched, seq<Submission>)
  {
    if sid != x.primarySid || s.primaryDone then (s, log)
    else
      var (scan, items) := Feed(x.config, s.scan, payload);
      Dispatch(x, goaway, Enqueue(s.(scan := scan), items), log)
  }

  function Finished(sid: int, resp: Response, url: string, seqNo: int, role: string, source: string): Fetched {
    Fetched(true, Fine, url, resp, sid, seqNo, role,
            if role == "primary" then "primary" else if source == "" then "other" else source)
  }

  function Minus(s: Sched): int {
    if s.active - 1 < 0 then 0 else s.active - 1
  }

  /** The bookkeeping of one completed stream, before the next dispatch. */
  function Settle(x: Context, s: Sched, sid: int, resp: Response): Sched {
    var s1 := s.(active := Minus(s));
    if sid == x.primarySid then PrimaryDone(x, s1, resp) else SubresourceDone(x, s1, sid, resp)
  }

  function PrimaryDone(x: Context, s: Sched, resp: Response): Sched {
    var (scan, items) := Finalize(x.config, s.scan);
    Enqueue(s.(primaryDone := true, scan := scan,
               primary := Finished(x.primarySid, resp, x.pageUrl, PRIMARY_SEQ, "primary", "primary")), items)
  }

  function SubresourceDone(x: Context, s: Sched, sid: int, resp: Response): Sched {
    var url := if sid in s.sidUrl then s.sidUrl[sid] else x.pageUrl;
    var source := if sid in s.sidDiscovery then s.sidDiscovery[sid] else "other";
    var seqNo := if sid in s.sidSeq then s.sidSeq[sid] else PRIMARY_SEQ;
    s.(sidUrl := s.sidUrl - {sid}, sidDiscovery := s.sidDiscovery - {sid}, sidSeq := s.sidSeq - {sid},
       also := s.also + [Finished(sid, resp, url, seqNo, "subresource", source)])
  }

  function OnStreamComplete(x: Context, goaway: bool, s: Sched, log: seq<Submission>, sid: int, resp: Response)
    : (Sched, seq<Submission>, bool)
  {
    var (t, log2) := Dispatch(x, goaway, Settle(x, s, sid, resp), log);
    (t, log2, t.primaryDone && t.active == 0)
  }

  // ---------- The scheduler's state in place ----------

  /** The caller's result, which the scheduler writes into. */
  class Batch {
    var primary: Fetched
    var also: seq<Fetched>

    constructor ()
      ensures primary == NO_FETCH && also == []
    {
      primary, also := NO_FETCH, [];
    }
  }

  class RuntimeSubresourceState {
    const client: Client
    const batch: Batch
    const scanner: IncrementalSubresourceScanner
    const pageUrl: string
    const connHost: string
    var pending: seq<Item>
    var pendingUrls: set<string>
    var dispatched: set<string>
    var sidUrl: map<int, string>
    var sidDiscovery: map<int, string>
    var sidSeq: map<int, int>
    var primarySid: int
    var nextSeq: int
    var activeStreams: int
    var primaryDone: bool

    ghost function View(): Sched
      reads this, scanner, batch
    {
      Sched(scanner.View(), pending, pendingUrls, dispatched, sidUrl, sidDiscovery, sidSeq,
            nextSeq, activeStreams, primaryDone, batch.primary, batch.also)
    }

    ghost function Ctx(): Context
      reads this`primarySid
    {
      Context(scanner.config, pageUrl, connHost, client.host, client.answer, primarySid)
    }

    constructor (client: Client, batch: Batch, config: Config, connHost: string)
      ensures this.client == client && this.batch == batch && this.connHost == connHost && pageUrl == config.page
      ensures fresh(scanner) && scanner.config == config && primarySid == -1
      ensures View() == Fresh(batch.primary, batch.also).(active := 0)
    {
      this.client, this.batch, this.connHost, pageUrl := client, batch, connHost, config.page;
      scanner := new IncrementalSubresourceScanner(config);
      pending, pendingUrls, dispatched := [], {}, {};
      sidUrl, sidDiscovery, sidSeq := map[], map[], map[];
      primarySid, nextSeq, activeStreams, primaryDone := -1, 1, 0, false;
    }

    method Begin(sid: int)
      modifies this
      ensures View() == old(View()).(nextSeq := 1, active := 1) && Ctx() == old(Ctx()).(primarySid := sid)
    {
      primarySid := sid;
      nextSeq := 1;
      activeStreams := 1;
    }

    method EnqueueItems(items: seq<Item>)
      modifies this`pending, this`pendingUrls
      ensures View() == Enqueue(old(View()), items)
    {
      var i := 0;
      while i < |items|
        invariant i <= |items| && Enqueue(View(), items[i..]) == Enqueue(old(View()), items)
      {
        var item := items[i];
        assert items[i..][1..] == items[i + 1..];
        i := i + 1;
        if item.url in dispatched || item.url in pendingUrls { continue; }
        pendingUrls := pendingUrls + {item.url};
        pending := pending + [item];
      }
    }

    method DispatchSameHost()
      modifies this, client`log
      ensures Ctx() == old(Ctx())
      ensures (View(), client.log) == Dispatch(Ctx(), client.goaway, old(View()), old(client.log))
    {
      if client.goaway {
        return;
      }
      var deferred: seq<Item> := [];
      while pending != []
        invariant Ctx() == old(Ctx())
        invariant DispatchAll(Ctx(), View(), client.log, deferred)
                  == DispatchAll(Ctx(), old(View()), old(client.log), [])
        decreases |pending|
      {
        var item := pending[0];
        pending := pending[1..];
        if !SameHost(item.url, connHost) {
          deferred := deferred + [item];
          continue;
        }
        if item.url in dispatched { continue; }
        SubmitItem(item);
      }
      assert pending + deferred == deferred;
      pending := pending + deferred;
    }

    method SubmitItem(item: Item)
      requires SameHost(item.url, connHost) && !client.goaway
      modifies this, client`log
      ensures Ctx() == old(Ctx()) && pending == old(pending)
      ensures (View(), client.log) == SubmitOne(Ctx(), old(View()), old(client.log), item)
    {
      var parsed := ParseUrl(item.url);
      MarkDispatched(item.url);
      var sid := client.SendHeader(item.url, parsed.value);
      assert View() == MarkedDispatched(old(View()), item.url);
      if sid >= 0 {
        OpenStream(sid, item);
      }
    }

    method MarkDispatched(url: string)
      modifies this`dispatched, this`pendingUrls
      ensures View() == MarkedDispatched(old(View()), url)
    {
      dispatched := dispatched + {url};
      pendingUrls := pendingUrls - {url};
    }

    method OpenStream(sid: int, item: Item)
      modifies this
      ensures Ctx() == old(Ctx()) && pending == old(pending)
      ensures View() == Opened(old(View()), sid, item)
    {
      sidUrl := sidUrl[sid := item.url];
      sidDiscovery := sidDiscovery[sid := item.source];
      sidSeq := sidSeq[sid := nextSeq];
      nextSeq := nextSeq + 1;
      activeStreams := activeStreams + 1;
    }

    method BodyChunk(sid: int, payload: string)
      modifies this, scanner, client`log
      ensures Ctx() == old(Ctx())
      ensures (View(), client.log) == OnBodyChunk(Ctx(), client.goaway, old(View()), old(client.log), sid, payload)
    {
      if sid != primarySid || primaryDone {
        return;
      }
      var items := scanner.FeedChunk(payload);
      EnqueueItems(items);
      DispatchSameHost();
    }

    method SettlePrimary(resp: Response)
      modifies this, scanner, batch
      ensures Ctx() == old(Ctx())
      ensures View() == PrimaryDone(Ctx(), old(View()), resp)
    {
      primaryDone := true;
      batch.primary := Finished(primarySid, resp, pageUrl, PRIMARY_SEQ, "primary", "primary");
      var items := scanner.FinalizeScan();
      EnqueueItems(items);
    }

    method SettleSubresource(sid: int, resp: Response)
      modifies this, batch
      ensures Ctx() == old(Ctx())
      ensures View() == SubresourceDone(Ctx(), old(View()), sid, resp)
    {
      ghost var s := View();
      var url := if sid in sidUrl then sidUrl[sid] else pageUrl;
      sidUrl := sidUrl - {sid};
      var source := "other";
      if sid in sidDiscovery {
        source := sidDiscovery[sid];
        sidDiscovery := sidDiscovery - {sid};
      }
      var seqNo := PRIMARY_SEQ;
      if sid in sidSeq {
        seqNo := sidSeq[sid];
        sidSeq := sidSeq - {sid};
      }
      batch.also := batch.also + [Finished(sid, resp, url, seqNo, "subresource", source)];
      assert sidDiscovery == s.sidDiscovery - {sid} && sidSeq == s.sidSeq - {sid};
    }

    method StreamComplete(sid: int, resp: Response) returns (stop: bool)
      modifies this, scanner, batch, client`log
      ensures Ctx() == old(Ctx())
      ensures (View(), client.log, stop)
              == OnStreamComplete(Ctx(), client.goaway, old(View()), old(client.log), sid, resp)
    {
      activeStreams := activeStreams - 1;
      if activeStreams < 0 {
        activeStreams := 0;
      }
      if sid == primarySid {
        SettlePrimary(resp);
      } else {
        SettleSubresource(sid, resp);
      }
      DispatchSameHost();
      stop := primaryDone && activeStreams == 0;
    }
  }

  /** The state with which a hop begins, its primary request just submitted. */
  function Fresh(primary: Fetched, also: seq<Fetched>): Sched {
    Sched(INITIAL, [], {}, {}, map[], map[], map[], 1, 1, false, primary, also)
  }
}
