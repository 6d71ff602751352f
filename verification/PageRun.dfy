/** Properties of whole page hops: every sequence of events, every chunking, every interleaving. */
module PageRun {
  import opened Http2Client
  import opened PageHop
  import opened Resolver
  import opened Scheduler
  import opened SchedulerInvariant
  import opened SchedulerResults
  import opened SubresourceScanner
  import opened Targets
  import opened Wrappers

  // ---------- Runs ----------

  /** The environment ends only streams of this hop that are open. */
  ghost predicate Ends(x: Context, h: Hop, ev: Event) {
    EndsStream(ev) ==> ev.sid in Open(x, h.s)
  }

  ghost predicate Admissible(x: Context, dec: Decoders, h: Hop, events: seq<Event>) {
    events == [] ||
    (var n := |events| - 1;
     Admissible(x, dec, h, events[..n]) && Ends(x, RunHop(x, dec, h, events[..n]), events[n]))
  }

  ghost predicate HopInv(x: Context, base: nat, from: nat, h: Hop) {
    FreshIds(x.answer) && SchedInv(x, base, from, h.s, h.log)
  }

  /** The state in which the event loop is entered: one request submitted, nothing received. */
  ghost predicate Starts(x: Context, base: nat, from: nat, h: Hop) {
    && FreshIds(x.answer)
    && |h.log| == base + 1 && h.log[base].sid == x.primarySid >= 0
    && (forall i :: 0 <= i < |h.log| ==> h.log[i].sid == x.answer(i))
    && h.s == Fresh(h.s.primary, h.s.also) && from == |h.s.also|
    && h.c.running && !h.c.goaway && h.c.redirectUrl == "" && h.c.responses == map[]
  }

  /** A completion the client reports comes from the end of that stream. */
  lemma EffectOfEvent(dec: Decoders, c: ClientState, ev: Event)
    ensures var e := Http2Client.OnEvent(dec, c, ev).1;
            && (e.Completed? ==> EndsStream(ev) && e.sid == ev.sid)
            && (e.Chunk? <==> ev.DataChunk?)
            && (e.Chunk? ==> e.sid == ev.sid && e.payload == ev.payload)
  {}

  ghost predicate EffectOk(x: Context, s: Sched, effect: Effect) {
    effect.Completed? ==> effect.sid in Open(x, s)
  }

  lemma ReactKeepsInv(x: Context, base: nat, from: nat, s: Sched, log: seq<Submission>, c: ClientState, effect: Effect)
    requires FreshIds(x.answer) && SchedInv(x, base, from, s, log) && EffectOk(x, s, effect)
    ensures HopInv(x, base, from, React(x, s, log, c, effect))
  {
    match effect {
      case Nothing =>
      case Chunk(sid, payload) => BodyChunkKeepsInv(x, base, from, c.goaway, s, log, sid, payload);
      case Completed(sid, resp) => CompletionKeepsInv(x, base, from, c.goaway, s, log, sid, resp);
    }
  }

  lemma StepKeepsInv(x: Context, dec: Decoders, base: nat, from: nat, h: Hop, ev: Event)
    requires HopInv(x, base, from, h) && Ends(x, h, ev)
    ensures HopInv(x, base, from, Step(x, dec, h, ev))
  {
    var (c, effect) := Http2Client.OnEvent(dec, h.c, ev);
    EffectOfEvent(dec, h.c, ev);
    ReactKeepsInv(x, base, from, h.s, h.log, c, effect);
  }

  /** Every reachable state of a hop satisfies the scheduler's invariant. */
  lemma {:induction false} RunKeepsInv(x: Context, dec: Decoders, base: nat, from: nat, h: Hop, events: seq<Event>)
    requires HopInv(x, base, from, h) && Admissible(x, dec, h, events)
    ensures HopInv(x, base, from, RunHop(x, dec, h, events))
    decreases |events|
  {
    if events != [] {
      var n := |events| - 1;
      RunKeepsInv(x, dec, base, from, h, events[..n]);
      StepKeepsInv(x, dec, base, from, RunHop(x, dec, h, events[..n]), events[n]);
    }
  }

  lemma StartHasInv(x: Context, base: nat, from: nat, h: Hop)
    requires Starts(x, base, from, h)
    ensures HopInv(x, base, from, h)
  {
    InvAtStart(x, base, h.log, h.s.primary, h.s.also);
  }

  // ---------- No request after GOAWAY, none to a foreign host, none for another resource ----------

  ghost predicate GoodRequest(x: Context, e: Submission) {
    e.host == x.connHost && !e.afterGoaway && e.authority == AuthorityOf(x.clientHost) && Honest(e)
  }

  /** `log2` continues `log` with good requests only. */
  ghost predicate Continues(x: Context, log: seq<Submission>, log2: seq<Submission>) {
    log <= log2 && forall i :: |log| <= i < |log2| ==> GoodRequest(x, log2[i]) && log2[i].sid == x.answer(i)
  }

  lemma {:induction false} DispatchAllContinues(x: Context, s: Sched, log: seq<Submission>, deferred: seq<Item>)
    ensures Continues(x, log, DispatchAll(x, s, log, deferred).1)
    decreases |s.pending|
  {
    if s.pending != [] {
      var item, tail := s.pending[0], s.(pending := s.pending[1..]);
      if !SameHost(item.url, x.connHost) {
        DispatchAllContinues(x, tail, log, deferred + [item]);
      } else if item.url in s.dispatched {
        DispatchAllContinues(x, tail, log, deferred);
      } else {
        var e := Request(x, item, |log|);
        DispatchAllContinues(x, AfterSubmit(tail, e.sid, item), log + [e], deferred);
        RequestIsGood(x, item, |log|);
        ContinuesFrom(x, log, e, DispatchAll(x, s, log, deferred).1);
      }
    }
  }

  lemma RequestIsGood(x: Context, item: Item, k: nat)
    requires SameHost(item.url, x.connHost)
    ensures GoodRequest(x, Request(x, item, k))
  {
    ParsedIsHonest(x.clientHost, false, item.url, x.answer(k));
  }

  lemma ContinuesFrom(x: Context, log: seq<Submission>, e: Submission, log2: seq<Submission>)
    requires GoodRequest(x, e) && e.sid == x.answer(|log|) && Continues(x, log + [e], log2)
    ensures Continues(x, log, log2)
  {
    assert log2[|log|] == (log + [e])[|log|] == e;
    assert log <= log + [e];
  }

  lemma StepContinues(x: Context, dec: Decoders, h: Hop, ev: Event)
    ensures Continues(x, h.log, Step(x, dec, h, ev).log)
    ensures h.c.goaway ==> Step(x, dec, h, ev).log == h.log && Step(x, dec, h, ev).c.goaway
    ensures Step(x, dec, h, ev).c.host == h.c.host
  {
    var (c, effect) := Http2Client.OnEvent(dec, h.c, ev);
    match effect {
      case Nothing =>
      case Chunk(sid, payload) =>
        var (scan, items) := Feed(x.config, h.s.scan, payload);
        DispatchAllContinues(x, Enqueue(h.s.(scan := scan), items), h.log, []);
      case Completed(sid, resp) =>
        DispatchAllContinues(x, Settle(x, h.s, sid, resp), h.log, []);
    }
  }

  /** Over any run at all, admissible or not, every request the scheduler submits names the page's host and the
      client's authority and asks for what its URL names, and none is submitted once GOAWAY has been received. */
  lemma {:induction false} RunContinues(x: Context, dec: Decoders, h: Hop, events: seq<Event>)
    ensures Continues(x, h.log, RunHop(x, dec, h, events).log)
    ensures h.c.goaway ==> RunHop(x, dec, h, events).log == h.log && RunHop(x, dec, h, events).c.goaway
    ensures RunHop(x, dec, h, events).c.host == h.c.host
    decreases |events|
  {
    if events != [] {
      var n := |events| - 1;
      RunContinues(x, dec, h, events[..n]);
      StepContinues(x, dec, RunHop(x, dec, h, events[..n]), events[n]);
    }
  }

  /** The events that the loop gets to see before it ends. */
  function Seen(x: Context, dec: Decoders, h: Hop, turns: seq<Turn>, timeout: int): seq<Event>
    decreases |turns|
  {
    if !h.c.running || turns == [] || (timeout > 0 && turns[0].elapsed >= timeout) then []
    else if turns[0].broken then turns[0].events
    else turns[0].events + Seen(x, dec, RunHop(x, dec, h, turns[0].events), turns[1..], timeout)
  }

  lemma {:induction false} RunHopConcat(x: Context, dec: Decoders, h: Hop, a: seq<Event>, b: seq<Event>)
    ensures RunHop(x, dec, h, a + b) == RunHop(x, dec, RunHop(x, dec, h, a), b)
    decreases |b|
  {
    if b == [] {
      assert a + b == a;
    } else {
      assert (a + b)[..|a + b| - 1] == a + b[..|b| - 1];
      RunHopConcat(x, dec, h, a, b[..|b| - 1]);
    }
  }

  /** However the events are cut into receives, the loop is one run over the events it has seen, and it answers
      false only at the timeout, with the client still running. */
  lemma {:induction false} LoopIsHopRun(x: Context, dec: Decoders, h: Hop, turns: seq<Turn>, timeout: int)
    ensures RunLoop(x, dec, h, turns, timeout).0 == RunHop(x, dec, h, Seen(x, dec, h, turns, timeout))
    ensures var (t, ok) := RunLoop(x, dec, h, turns, timeout); !ok ==> timeout > 0 && t.c.running
    decreases |turns|
  {
    if h.c.running && turns != [] && !(timeout > 0 && turns[0].elapsed >= timeout) && !turns[0].broken {
      var h1 := RunHop(x, dec, h, turns[0].events);
      LoopIsHopRun(x, dec, h1, turns[1..], timeout);
      RunHopConcat(x, dec, h, turns[0].events, Seen(x, dec, h1, turns[1..], timeout));
    }
  }

  // ---------- The primary's record ----------

  /** A finished primary is recorded as the page itself, under number 0. */
  ghost predicate PrimaryOk(x: Context, s: Sched) {
    s.primaryDone ==>
      && s.primary.ok && s.primary.error == Fine && s.primary.finalUrl == x.pageUrl && s.primary.sid == x.primarySid
      && s.primary.requestSeq == 0 && s.primary.role == "primary"
  }

  lemma {:induction false} EnqueueKeepsPrimary(s: Sched, items: seq<Item>)
    ensures Enqueue(s, items).primary == s.primary && Enqueue(s, items).primaryDone == s.primaryDone
    ensures Enqueue(s, items).also == s.also
    decreases |items|
  {
    if items != [] {
      if items[0].url in s.dispatched || items[0].url in s.pendingUrls {
        EnqueueKeepsPrimary(s, items[1..]);
      } else {
        EnqueueKeepsPrimary(s.(pendingUrls := s.pendingUrls + {items[0].url}, pending := s.pending + [items[0]]),
                            items[1..]);
      }
    }
  }

  lemma {:induction false} DispatchAllKeepsPrimary(x: Context, s: Sched, log: seq<Submission>, deferred: seq<Item>)
    ensures var t := DispatchAll(x, s, log, deferred).0;
            t.primary == s.primary && t.primaryDone == s.primaryDone && t.also == s.also
    decreases |s.pending|
  {
    if s.pending != [] {
      var item, tail := s.pending[0], s.(pending := s.pending[1..]);
      if !SameHost(item.url, x.connHost) {
        DispatchAllKeepsPrimary(x, tail, log, deferred + [item]);
      } else if item.url in s.dispatched {
        DispatchAllKeepsPrimary(x, tail, log, deferred);
      } else {
        var e := Request(x, item, |log|);
        DispatchAllKeepsPrimary(x, AfterSubmit(tail, e.sid, item), log + [e], deferred);
      }
    }
  }

  lemma ReactKeepsPrimary(x: Context, s: Sched, log: seq<Submission>, c: ClientState, effect: Effect)
    ensures var t := React(x, s, log, c, effect).s; !t.primaryDone ==> !s.primaryDone && t.primary == s.primary
    ensures PrimaryOk(x, s) ==> PrimaryOk(x, React(x, s, log, c, effect).s)
    ensures s.also <= React(x, s, log, c, effect).s.also
  {
    match effect {
      case Nothing =>
      case Chunk(sid, payload) =>
        var (scan, items) := Feed(x.config, s.scan, payload);
        EnqueueKeepsPrimary(s.(scan := scan), items);
        DispatchAllKeepsPrimary(x, Enqueue(s.(scan := scan), items), log, []);
      case Completed(sid, resp) =>
        DispatchAllKeepsPrimary(x, Settle(x, s, sid, resp), log, []);
        if sid == x.primarySid {
          SettledPrimaryIsDone(x, s.(active := Minus(s)), resp);
        }
    }
  }

  lemma SettledPrimaryIsDone(x: Context, s: Sched, resp: Response)
    ensures PrimaryDone(x, s, resp).primaryDone && PrimaryOk(x, PrimaryDone(x, s, resp))
    ensures PrimaryDone(x, s, resp).also == s.also
  {
    var (scan, items) := Finalize(x.config, s.scan);
    EnqueueKeepsPrimary(s.(primaryDone := true, scan := scan,
                           primary := Finished(x.primarySid, resp, x.pageUrl, PRIMARY_SEQ, "primary", "primary")),
                           items);
  }

  /** Until the primary stream has ended, the caller's primary result is what it was before the hop. */
  lemma {:induction false} PrimaryUntouched(x: Context, dec: Decoders, h: Hop, events: seq<Event>)
    ensures var t := RunHop(x, dec, h, events).s; !t.primaryDone ==> t.primary == h.s.primary
    decreases |events|
  {
    if events != [] {
      var n := |events| - 1;
      PrimaryUntouched(x, dec, h, events[..n]);
      var g := RunHop(x, dec, h, events[..n]);
      var (c, effect) := Http2Client.OnEvent(dec, g.c, events[n]);
      ReactKeepsPrimary(x, g.s, g.log, c, effect);
    }
  }

  /** Once it has ended, the result is the page, for the rest of the run, whatever the run. */
  lemma {:induction false} PrimaryIsPage(x: Context, dec: Decoders, h: Hop, events: seq<Event>)
    requires PrimaryOk(x, h.s)
    ensures PrimaryOk(x, RunHop(x, dec, h, events).s)
    decreases |events|
  {
    if events != [] {
      var n := |events| - 1;
      PrimaryIsPage(x, dec, h, events[..n]);
      var g := RunHop(x, dec, h, events[..n]);
      var (c, effect) := Http2Client.OnEvent(dec, g.c, events[n]);
      ReactKeepsPrimary(x, g.s, g.log, c, effect);
    }
  }

  /** Results are only ever added: what was recorded before the hop is kept, in place. */
  lemma {:induction false} ResultsKept(x: Context, dec: Decoders, h: Hop, events: seq<Event>)
    ensures h.s.also <= RunHop(x, dec, h, events).s.also
    decreases |events|
  {
    if events != [] {
      var n := |events| - 1;
      ResultsKept(x, dec, h, events[..n]);
      var g := RunHop(x, dec, h, events[..n]);
      var (c, effect) := Http2Client.OnEvent(dec, g.c, events[n]);
      ReactKeepsPrimary(x, g.s, g.log, c, effect);
    }
  }

  // ---------- Where a page is redirected to ----------

  lemma RedirectStepOfHop(x: Context, dec: Decoders, g: Hop, ev: Event)
    ensures Step(x, dec, g, ev).c.redirectUrl
            == if EndsStream(ev) && IsRedirect(TouchStatus(Get(g.c.responses, ev.sid))) then
                 ResolveLocation(g.c.host, TouchStatus(Get(g.c.responses, ev.sid)).headers["location"])
               else g.c.redirectUrl
  {}

  lemma RedirectAt(x: Context, dec: Decoders, h: Hop, events: seq<Event>, k: nat)
    requires h.c.responses == map[] && EndsOnce(events) && k < |events|
    ensures var g := RunHop(x, dec, h, events[..k]);
            Step(x, dec, g, events[k]).c.redirectUrl
            == if EndsInRedirect(events, k) then LocationAt(h.c.host, events, k) else g.c.redirectUrl
  {
    RedirectStepOfHop(x, dec, RunHop(x, dec, h, events[..k]), events[k]);
    RunContinues(x, dec, h, events[..k]);
    HopResponses(x, dec, h, events[..k]);
    if EndsStream(events[k]) {
      HeldIsWhole(dec, h.c, events, k);
    }
  }

  /** The URL that a page hop redirects to is the resolved Location of the last redirect among its frames, on whatever
      stream. */
  lemma {:induction false} HopRedirectedTo(x: Context, dec: Decoders, h: Hop, events: seq<Event>, n: nat)
    requires h.c.redirectUrl == "" && h.c.responses == map[] && EndsOnce(events) && n <= |events|
    ensures RunHop(x, dec, h, events[..n]).c.redirectUrl == RedirectedTo(h.c.host, events, n)
    decreases n
  {
    if n > 0 {
      HopRedirectedTo(x, dec, h, events, n - 1);
      assert events[..n][..n - 1] == events[..n - 1];
      RedirectAt(x, dec, h, events, n - 1);
    }
  }

  /** Event `k` of the run ends a stream whose response, as the client holds it, is a redirect. */
  ghost predicate RedirectsInRun(x: Context, dec: Decoders, h: Hop, events: seq<Event>, k: nat) {
    && k < |events| && EndsStream(events[k])
    && IsRedirect(TouchStatus(Get(RunHop(x, dec, h, events[..k]).c.responses, events[k].sid)))
  }

  /** The last redirect that the client took in the run was that of stream `sid`. */
  ghost predicate RedirectComesFrom(x: Context, dec: Decoders, h: Hop, events: seq<Event>, sid: int) {
    exists k: nat :: RedirectsInRun(x, dec, h, events, k) && events[k].sid == sid
                     && forall j: nat :: k < j ==> !RedirectsInRun(x, dec, h, events, j)
  }

  /** A page is redirected by its own stream exactly when the last redirect among its frames is on that stream. */
  lemma RedirectIsOwnExactly(x: Context, dec: Decoders, h: Hop, events: seq<Event>)
    requires h.c.responses == map[] && EndsOnce(events)
    ensures RedirectComesFrom(x, dec, h, events, x.primarySid)
            <==> LastRedirect(events, |events|).Some?
                 && events[LastRedirect(events, |events|).value].sid == x.primarySid
  {
    forall k: nat ensures RedirectsInRun(x, dec, h, events, k) <==> EndsInRedirect(events, k) {
      if k < |events| && EndsStream(events[k]) {
        HopResponses(x, dec, h, events[..k]);
        HeldIsWhole(dec, h.c, events, k);
      }
    }
    var last := LastRedirect(events, |events|);
    if last.Some? {
      assert RedirectsInRun(x, dec, h, events, last.value);
    }
  }

  /** A redirect stops the loop and leaves the scheduler as it was: the stream is never completed. */
  lemma RedirectLeavesScheduler(x: Context, dec: Decoders, g: Hop, ev: Event)
    requires EndsStream(ev) && IsRedirect(TouchStatus(Get(g.c.responses, ev.sid)))
    ensures var t := Step(x, dec, g, ev); t.s == g.s && t.log == g.log && !t.c.running
  {}

  // ---------- Reaching the stop condition ----------

  /** The event is not GOAWAY and does not end its stream with a redirect. */
  ghost predicate Plain(h: Hop, ev: Event) {
    !ev.GoAway? && (EndsStream(ev) ==> !IsRedirect(TouchStatus(Get(h.c.responses, ev.sid))))
  }

  ghost predicate PlainRun(x: Context, dec: Decoders, h: Hop, events: seq<Event>) {
    events == [] ||
    (var n := |events| - 1;
     PlainRun(x, dec, h, events[..n]) && Plain(RunHop(x, dec, h, events[..n]), events[n]))
  }

  function CountEnds(events: seq<Event>): nat {
    if events == [] then 0
    else CountEnds(events[..|events| - 1]) + if EndsStream(events[|events| - 1]) then 1 else 0
  }

  /** The loop runs exactly as long as some stream of the hop is open. */
  ghost predicate RunsWhileOpen(x: Context, h: Hop) {
    (h.c.running <==> Open(x, h.s) != {}) && h.c.redirectUrl == "" && !h.c.goaway
  }

  lemma CompletionCounts(x: Context, base: nat, from: nat, goaway: bool, s: Sched, log: seq<Submission>, sid: int,
                         resp: Response)
    requires FreshIds(x.answer) && SchedInv(x, base, from, s, log) && sid in Open(x, s)
    ensures Completions(from, OnStreamComplete(x, goaway, s, log, sid, resp).0) == Completions(from, s) + 1
  {
    SettleKeepsSettled(x, base, from, s, log, sid, resp);
    PrimaryIsNotInTable(x, base, from, s, log);
    if sid == x.primarySid {
      AcceptStreams(x, base, from, s, log, s.(active := Minus(s)));
      PrimaryDoneKeepsSettled(x, base, from, s.(active := Minus(s)), log, resp);
    }
    DispatchKeepsInv(x, base, from, goaway, Settle(x, s, sid, resp), log);
  }

  lemma ChunkKeepsOpen(x: Context, base: nat, from: nat, goaway: bool, s: Sched, log: seq<Submission>, sid: int,
                       payload: string)
    requires FreshIds(x.answer) && SchedInv(x, base, from, s, log)
    ensures var t := OnBodyChunk(x, goaway, s, log, sid, payload).0;
            Completions(from, t) == Completions(from, s) && (Open(x, t) == {} <==> Open(x, s) == {})
  {
    if sid == x.primarySid && !s.primaryDone {
      var (scan, items) := Feed(x.config, s.scan, payload);
      FeedStep(x.config, s.scan, payload);
      AcceptKeepsSettled(x, base, from, s, log, scan, items);
      DispatchKeepsInv(x, base, from, goaway, Enqueue(s.(scan := scan), items), log);
      assert x.primarySid in Open(x, s);
      assert x.primarySid in Open(x, OnBodyChunk(x, goaway, s, log, sid, payload).0);
    }
  }

  lemma PlainStep(x: Context, dec: Decoders, base: nat, from: nat, h: Hop, ev: Event)
    requires HopInv(x, base, from, h) && Ends(x, h, ev) && Plain(h, ev) && RunsWhileOpen(x, h)
    ensures var t := Step(x, dec, h, ev);
            && RunsWhileOpen(x, t)
            && Completions(from, t.s) == Completions(from, h.s) + if EndsStream(ev) then 1 else 0
  {
    var (c, effect) := Http2Client.OnEvent(dec, h.c, ev);
    match effect {
      case Nothing =>
      case Chunk(sid, payload) => ChunkKeepsOpen(x, base, from, c.goaway, h.s, h.log, sid, payload);
      case Completed(sid, resp) =>
        StopMeansAllEnded(x, base, from, c.goaway, h.s, h.log, sid, resp);
        CompletionCounts(x, base, from, c.goaway, h.s, h.log, sid, resp);
    }
  }

  /** In a run without GOAWAY and redirect, the loop is stopped exactly when every stream of the hop has ended,
      and each end of a stream is one completion. */
  lemma {:induction false} PlainRunStopsWhenAllEnded(x: Context, dec: Decoders, base: nat, from: nat, h: Hop,
                                                     events: seq<Event>)
    requires Starts(x, base, from, h) && Admissible(x, dec, h, events) && PlainRun(x, dec, h, events)
    ensures var t := RunHop(x, dec, h, events);
            HopInv(x, base, from, t) && RunsWhileOpen(x, t) && Completions(from, t.s) == CountEnds(events)
    decreases |events|
  {
    StartHasInv(x, base, from, h);
    RunKeepsInv(x, dec, base, from, h, events);
    if events == [] {
      assert x.primarySid in Open(x, h.s);
    } else {
      var n := |events| - 1;
      PlainRunStopsWhenAllEnded(x, dec, base, from, h, events[..n]);
      PlainStep(x, dec, base, from, RunHop(x, dec, h, events[..n]), events[n]);
    }
  }

  /** With a cap of n >= 1 a hop submits at most 1 + n requests and sees at most 1 + n ends of streams, and while
      the loop runs there is a stream left to end: 1 + n minus the ends so far is the termination measure. */
  lemma StopWithinCap(x: Context, dec: Decoders, base: nat, from: nat, h: Hop, events: seq<Event>)
    requires Starts(x, base, from, h) && Admissible(x, dec, h, events) && PlainRun(x, dec, h, events)
    requires x.config.max >= 1
    ensures var t := RunHop(x, dec, h, events);
            && |t.log| - base <= 1 + x.config.max
            && CountEnds(events) <= 1 + x.config.max
            && (CountEnds(events) == 1 + x.config.max ==> !t.c.running)
            && (t.c.running ==> Open(x, t.s) != {})
  {
    PlainRunStopsWhenAllEnded(x, dec, base, from, h, events);
    var t := RunHop(x, dec, h, events);
    HopWithinCap(x, base, from, t.s, t.log);
    if t.c.running {
      assert |Open(x, t.s)| >= 1;
    }
  }

  // ---------- What is offered, in order ----------

  /** The scanner call that an effect leads to, if any. */
  function OpOfEffect(x: Context, s: Sched, effect: Effect): Option<Op> {
    match effect
    case Nothing => None
    case Chunk(sid, payload) => if sid != x.primarySid || s.primaryDone then None else Some(FeedOp(payload))
    case Completed(sid, _) => if sid == x.primarySid then Some(FinalizeOp) else None
  }

  function OpOf(x: Context, dec: Decoders, h: Hop, ev: Event): Option<Op> {
    OpOfEffect(x, h.s, Http2Client.OnEvent(dec, h.c, ev).1)
  }

  function Scanned(x: Context, s: Sched, op: Option<Op>): (State, seq<Item>) {
    if op.Some? then Apply(x.config, s.scan, op.value) else (s.scan, [])
  }

  /** The items the scanner returns in one step. */
  function Offer(x: Context, dec: Decoders, h: Hop, ev: Event): seq<Item> {
    Scanned(x, h.s, OpOf(x, dec, h, ev)).1
  }

  function Offered(x: Context, dec: Decoders, h: Hop, events: seq<Event>): seq<Item> {
    if events == [] then []
    else
      var n := |events| - 1;
      Offered(x, dec, h, events[..n]) + Offer(x, dec, RunHop(x, dec, h, events[..n]), events[n])
  }

  /** The scanner calls that a run makes. */
  function ScanOps(x: Context, dec: Decoders, h: Hop, events: seq<Event>): seq<Op> {
    if events == [] then []
    else
      var n := |events| - 1;
      var op := OpOf(x, dec, RunHop(x, dec, h, events[..n]), events[n]);
      ScanOps(x, dec, h, events[..n]) + if op.Some? then [op.value] else []
  }

  lemma RunOpsSnoc(c: Config, ops: seq<Op>, op: Op)
    ensures var (s, items) := RunOps(c, ops);
            var (t, out) := Apply(c, s, op);
            RunOps(c, ops + [op]) == (t, items + out)
  {
    assert (ops + [op])[..|ops|] == ops;
  }

  /** The state just before a step dispatches. */
  ghost predicate Queued(x: Context, s: Sched, op: Option<Op>, mid: Sched) {
    && mid.pending == s.pending + Scanned(x, s, op).1
    && mid.scan == Scanned(x, s, op).0
    && (PrimaryOk(x, s) ==> PrimaryOk(x, mid))
    && (mid.primaryDone <==> s.primaryDone || op == Some(FinalizeOp))
  }

  /** A step with an effect is: queue what the scanner returned, then one pass over the queue. */
  lemma QueueThenDispatch(x: Context, base: nat, from: nat, s: Sched, log: seq<Submission>, c: ClientState,
                          effect: Effect)
    returns (mid: Sched, pass: bool)
    requires FreshIds(x.answer) && SchedInv(x, base, from, s, log) && EffectOk(x, s, effect)
    ensures Settled(x, base, from, mid, log) && Queued(x, s, OpOfEffect(x, s, effect), mid)
    ensures var t := React(x, s, log, c, effect);
            if pass then (t.s, t.log) == Dispatch(x, c.goaway, mid, log)
            else (t.s, t.log) == (mid, log) && OpOfEffect(x, s, effect) == None
  {
    if effect.Chunk? && effect.sid == x.primarySid && !s.primaryDone {
      mid := QueueChunk(x, base, from, s, log, effect.payload);
      pass := true;
    } else if effect.Completed? {
      mid := QueueCompletion(x, base, from, s, log, effect);
      pass := true;
    } else {
      mid, pass := s, false;
      NothingQueued(x, s, effect);
    }
  }

  lemma NothingQueued(x: Context, s: Sched, effect: Effect)
    requires !effect.Completed? && !(effect.Chunk? && effect.sid == x.primarySid && !s.primaryDone)
    ensures OpOfEffect(x, s, effect) == None && Queued(x, s, None, s)
  {
    assert s.pending + [] == s.pending;
  }

  lemma QueueCompletion(x: Context, base: nat, from: nat, s: Sched, log: seq<Submission>, effect: Effect)
    returns (mid: Sched)
    requires FreshIds(x.answer) && SchedInv(x, base, from, s, log) && effect.Completed? && effect.sid in Open(x, s)
    ensures mid == Settle(x, s, effect.sid, effect.resp)
    ensures Settled(x, base, from, mid, log) && Queued(x, s, OpOfEffect(x, s, effect), mid)
  {
    mid := Settle(x, s, effect.sid, effect.resp);
    SettleKeepsSettled(x, base, from, s, log, effect.sid, effect.resp);
    QueuedByCompletion(x, base, from, s, log, effect);
  }

  lemma QueuedByCompletion(x: Context, base: nat, from: nat, s: Sched, log: seq<Submission>, effect: Effect)
    requires Settled(x, base, from, s, log) && effect.Completed?
    ensures Queued(x, s, OpOfEffect(x, s, effect), Settle(x, s, effect.sid, effect.resp))
  {
    SettleQueue(x, base, from, s, log, effect.sid, effect.resp);
    assert s.pending + [] == s.pending;
  }

  lemma ReactScan(x: Context, base: nat, from: nat, s: Sched, log: seq<Submission>, c: ClientState, effect: Effect)
    requires FreshIds(x.answer) && SchedInv(x, base, from, s, log) && EffectOk(x, s, effect)
    ensures var t := React(x, s, log, c, effect).s;
            && t.scan == Scanned(x, s, OpOfEffect(x, s, effect)).0
            && (PrimaryOk(x, s) ==> PrimaryOk(x, t))
            && (t.primaryDone <==> s.primaryDone || OpOfEffect(x, s, effect) == Some(FinalizeOp))
  {
    var mid, pass := QueueThenDispatch(x, base, from, s, log, c, effect);
    DispatchKeepsInv(x, base, from, c.goaway, mid, log);
  }

  lemma QueueChunk(x: Context, base: nat, from: nat, s: Sched, log: seq<Submission>, payload: string)
    returns (mid: Sched)
    requires Settled(x, base, from, s, log)
    ensures var (scan, items) := Feed(x.config, s.scan, payload);
            && mid == Enqueue(s.(scan := scan), items) && Settled(x, base, from, mid, log)
            && mid.pending == s.pending + items && mid.scan == scan && mid.primaryDone == s.primaryDone
               && mid.primary == s.primary
  {
    var (scan, items) := Feed(x.config, s.scan, payload);
    FeedStep(x.config, s.scan, payload);
    AcceptKeepsSettled(x, base, from, s, log, scan, items);
    mid := Enqueue(s.(scan := scan), items);
  }

  lemma SettleQueue(x: Context, base: nat, from: nat, s: Sched, log: seq<Submission>, sid: int, resp: Response)
    requires Settled(x, base, from, s, log)
    ensures var t := Settle(x, s, sid, resp);
            if sid == x.primarySid then
              && t.scan == Finalize(x.config, s.scan).0 && t.pending == s.pending + Finalize(x.config, s.scan).1
              && t.primaryDone && PrimaryOk(x, t) && t.primary.resp == resp
            else t.scan == s.scan && t.pending == s.pending && t.primaryDone == s.primaryDone && t.primary == s.primary
  {
    if sid == x.primarySid {
      var (scan, items) := Finalize(x.config, s.scan);
      FinalizeStep(x.config, s.scan);
      EnqueueTakesAll(s.(active := Minus(s), primaryDone := true, scan := scan,
                         primary := Finished(x.primarySid, resp, x.pageUrl, PRIMARY_SEQ, "primary", "primary")), items);
    }
  }

  lemma StepScan(x: Context, dec: Decoders, base: nat, from: nat, h: Hop, ev: Event)
    requires HopInv(x, base, from, h) && Ends(x, h, ev)
    ensures var t, op := Step(x, dec, h, ev).s, OpOf(x, dec, h, ev);
            && t.scan == Scanned(x, h.s, op).0
            && (PrimaryOk(x, h.s) ==> PrimaryOk(x, t))
            && (t.primaryDone <==> h.s.primaryDone || op == Some(FinalizeOp))
  {
    var (c, effect) := Http2Client.OnEvent(dec, h.c, ev);
    EffectOfEvent(dec, h.c, ev);
    ReactScan(x, base, from, h.s, h.log, c, effect);
  }

  /** What a hop offers to its queue is what the scanner returns for the primary stream's chunks. */
  lemma {:induction false} OfferedIsScanned(x: Context, dec: Decoders, base: nat, from: nat, h: Hop, events: seq<Event>)
    requires Starts(x, base, from, h) && Admissible(x, dec, h, events)
    ensures RunOps(x.config, ScanOps(x, dec, h, events))
            == (RunHop(x, dec, h, events).s.scan, Offered(x, dec, h, events))
    decreases |events|
  {
    if events != [] {
      var n := |events| - 1;
      OfferedIsScanned(x, dec, base, from, h, events[..n]);
      StartHasInv(x, base, from, h);
      RunKeepsInv(x, dec, base, from, h, events[..n]);
      var g := RunHop(x, dec, h, events[..n]);
      StepScan(x, dec, base, from, g, events[n]);
      var op := OpOf(x, dec, g, events[n]);
      if op.Some? {
        RunOpsSnoc(x.config, ScanOps(x, dec, h, events[..n]), op.value);
      } else {
        assert ScanOps(x, dec, h, events) == ScanOps(x, dec, h, events[..n]);
        assert Offered(x, dec, h, events) == Offered(x, dec, h, events[..n]);
      }
    }
  }

  // ---------- Without GOAWAY: who is submitted and who is left ----------

  lemma FilterSnoc(items: seq<Item>, item: Item, keep: Item -> bool)
    ensures Filter(items + [item], keep) == Filter(items, keep) + if keep(item) then [item] else []
  {
    assert (items + [item])[..|items|] == items;
  }

  lemma {:induction false} FilterOfFilter(items: seq<Item>, keep: Item -> bool, drop: Item -> bool)
    requires forall it :: drop(it) <==> !keep(it)
    ensures Filter(Filter(items, keep), keep) == Filter(items, keep)
    ensures Filter(Filter(items, keep), drop) == []
    decreases |items|
  {
    if items != [] {
      var n := |items| - 1;
      FilterOfFilter(items[..n], keep, drop);
      if keep(items[n]) {
        FilterSnoc(Filter(items[..n], keep), items[n], keep);
        FilterSnoc(Filter(items[..n], keep), items[n], drop);
      } else {
        assert Filter(items, keep) == Filter(items[..n], keep);
      }
    }
  }

  lemma OffHostIsSettled(items: seq<Item>, host: string)
    ensures OffHost(OffHost(items, host), host) == OffHost(items, host)
    ensures OnHost(OffHost(items, host), host) == []
  {
    FilterOfFilter(items, OtherTest(host), HostTest(host));
  }

  /** The queue holds exactly the offered items of other hosts, and exactly the offered items of the page's host
      have been submitted; both in the order of the document. */
  ghost predicate Sorted(host: string, base: nat, offered: seq<Item>, pending: seq<Item>, log: seq<Submission>) {
    && pending == OffHost(offered, host)
    && base < |log| && SubmittedInOrder(log, base) == UrlsInOrder(OnHost(offered, host))
  }

  lemma SortedStep(host: string, base: nat, offered: seq<Item>, items: seq<Item>, pending: seq<Item>,
                   log: seq<Submission>,
                   pending2: seq<Item>, log2: seq<Submission>)
    requires Sorted(host, base, offered, pending, log)
    requires InOrder(host, base, pending + items, log, [], pending2, log2)
    ensures Sorted(host, base, offered + items, pending2, log2)
  {
    FilterConcat(pending, items, HostTest(host));
    FilterConcat(pending, items, OtherTest(host));
    FilterConcat(offered, items, HostTest(host));
    FilterConcat(offered, items, OtherTest(host));
    OffHostIsSettled(offered, host);
    assert [] + OnHost(items, host) == OnHost(items, host);
    UrlsInOrderConcat(OnHost(offered, host), OnHost(items, host));
  }

  lemma UrlsInOrderConcat(a: seq<Item>, b: seq<Item>)
    ensures UrlsInOrder(a + b) == UrlsInOrder(a) + UrlsInOrder(b)
  {}

  lemma PassInOrder(x: Context, base: nat, from: nat, mid: Sched, log: seq<Submission>)
    requires FreshIds(x.answer) && Settled(x, base, from, mid, log)
    ensures var (t, log2) := Dispatch(x, false, mid, log);
            InOrder(x.connHost, base, mid.pending, log, [], t.pending, log2)
  {
    assert [] + mid.pending == mid.pending;
    assert mid.(pending := [] + mid.pending) == mid;
    DispatchAllOrder(x, base, from, mid, log, []);
  }

  /** In a run without GOAWAY, the URLs submitted are exactly the page-host URLs offered, in document order, each
      once, and the queue is exactly the others, in document order. */
  lemma {:induction false} RunIsSorted(x: Context, dec: Decoders, base: nat, from: nat, h: Hop, events: seq<Event>)
    requires Starts(x, base, from, h) && Admissible(x, dec, h, events) && GoAway !in events
    ensures var t := RunHop(x, dec, h, events);
            !t.c.goaway && Sorted(x.connHost, base, Offered(x, dec, h, events), t.s.pending, t.log)
    decreases |events|
  {
    if events != [] {
      var n := |events| - 1;
      assert events == events[..n] + [events[n]];
      RunIsSorted(x, dec, base, from, h, events[..n]);
      StartHasInv(x, base, from, h);
      RunKeepsInv(x, dec, base, from, h, events[..n]);
      var g := RunHop(x, dec, h, events[..n]);
      var offered := Offered(x, dec, h, events[..n]);
      SortedOneStep(x, dec, base, from, g, events[n], offered);
    }
  }

  lemma SortedOneStep(x: Context, dec: Decoders, base: nat, from: nat, g: Hop, ev: Event, offered: seq<Item>)
    requires HopInv(x, base, from, g) && Ends(x, g, ev) && !ev.GoAway? && !g.c.goaway
    requires Sorted(x.connHost, base, offered, g.s.pending, g.log)
    ensures !Step(x, dec, g, ev).c.goaway
    ensures Sorted(x.connHost, base, offered + Offer(x, dec, g, ev), Step(x, dec, g, ev).s.pending,
                   Step(x, dec, g, ev).log)
  {
    StaysWithoutGoaway(x, dec, g, ev);
    var (c, effect) := Http2Client.OnEvent(dec, g.c, ev);
    EffectOfEvent(dec, g.c, ev);
    SortedReact(x, base, from, g.s, g.log, c, effect, offered);
  }

  lemma SortedReact(x: Context, base: nat, from: nat, s: Sched, log: seq<Submission>, c: ClientState, effect: Effect,
                    offered: seq<Item>)
    requires FreshIds(x.answer) && SchedInv(x, base, from, s, log) && EffectOk(x, s, effect) && !c.goaway
    requires Sorted(x.connHost, base, offered, s.pending, log)
    ensures var t := React(x, s, log, c, effect);
            Sorted(x.connHost, base, offered + Scanned(x, s, OpOfEffect(x, s, effect)).1, t.s.pending, t.log)
  {
    var mid, pass := QueueThenDispatch(x, base, from, s, log, c, effect);
    var items := Scanned(x, s, OpOfEffect(x, s, effect)).1;
    if pass {
      SortedPass(x, base, from, mid, log, offered, items, s.pending);
    } else {
      assert offered + items == offered && s.pending + items == s.pending;
    }
  }

  lemma StaysWithoutGoaway(x: Context, dec: Decoders, g: Hop, ev: Event)
    requires !ev.GoAway? && !g.c.goaway
    ensures !Http2Client.OnEvent(dec, g.c, ev).0.goaway && !Step(x, dec, g, ev).c.goaway
  {}

  lemma SortedPass(x: Context, base: nat, from: nat, mid: Sched, log: seq<Submission>, offered: seq<Item>,
                   items: seq<Item>,
                   pending: seq<Item>)
    requires FreshIds(x.answer) && Settled(x, base, from, mid, log) && mid.pending == pending + items
    requires Sorted(x.connHost, base, offered, pending, log)
    ensures Sorted(x.connHost, base, offered + items, Dispatch(x, false, mid, log).0.pending,
                   Dispatch(x, false, mid, log).1)
  {
    PassInOrder(x, base, from, mid, log);
    SortedStep(x.connHost, base, offered, items, pending, log,
               Dispatch(x, false, mid, log).0.pending, Dispatch(x, false, mid, log).1);
  }

  // ---------- The finished page ----------

  /** The page is recorded under number 0; every accepted submission has its result, numbered 1 to n, each number
      once; the queue is what was offered of other hosts; and each URL the scanner returned is in exactly one of
      queue, results and refused submissions. */
  ghost predicate PageComplete(x: Context, base: nat, from: nat, s: Sched, log: seq<Submission>, offered: seq<Item>) {
    && base < |log|
    && s.primaryDone && PrimaryOk(x, s)
    && s.nextSeq - 1 == Accepted(log, base, |log|)
    && NumberedOnce(s.also, from, s.nextSeq - 1)
    && Sorted(x.connHost, base, offered, s.pending, log)
    && Urls(offered) == s.scan.seen
    && (forall url :: url in Urls(offered) ==>
          ExactlyOne(url in Urls(s.pending), false, IsCompleted(s, from, url), IsRefused(log, base, url)))
  }

  lemma CompleteFromInv(x: Context, base: nat, from: nat, s: Sched, log: seq<Submission>, offered: seq<Item>)
    requires FreshIds(x.answer) && Settled(x, base, from, s, log) && Open(x, s) == {} && PrimaryOk(x, s)
    requires Sorted(x.connHost, base, offered, s.pending, log) && Urls(offered) == s.scan.seen
    ensures PageComplete(x, base, from, s, log, offered)
  {
    AllClosed(x, s);
    ResultsNumberedOnce(x, base, from, s, log);
    forall url | url in s.scan.seen
      ensures ExactlyOne(url in Urls(s.pending), false, IsCompleted(s, from, url), IsRefused(log, base, url))
    {
      OneFatePerUrl(x, base, from, s, log, url);
      assert !IsOpen(s, url);
    }
  }

  lemma {:induction false} PlainHasNoGoaway(x: Context, dec: Decoders, h: Hop, events: seq<Event>)
    requires PlainRun(x, dec, h, events)
    ensures GoAway !in events
    decreases |events|
  {
    if events != [] {
      PlainHasNoGoaway(x, dec, h, events[..|events| - 1]);
      assert events == events[..|events| - 1] + [events[|events| - 1]];
    }
  }

  /** A hop without GOAWAY and redirect whose loop has stopped is a complete page, whatever the chunking and the
      interleaving. */
  lemma FinishedPage(x: Context, dec: Decoders, base: nat, from: nat, h: Hop, events: seq<Event>)
    requires Starts(x, base, from, h) && Admissible(x, dec, h, events) && PlainRun(x, dec, h, events)
    requires !RunHop(x, dec, h, events).c.running
    ensures var t := RunHop(x, dec, h, events);
            PageComplete(x, base, from, t.s, t.log, Offered(x, dec, h, events))
  {
    PlainRunStopsWhenAllEnded(x, dec, base, from, h, events);
    PlainHasNoGoaway(x, dec, h, events);
    RunIsSorted(x, dec, base, from, h, events);
    OfferedIsScanned(x, dec, base, from, h, events);
    ReturnedOnceWithinCap(x.config, ScanOps(x, dec, h, events));
    PrimaryIsPage(x, dec, h, events);
    var t := RunHop(x, dec, h, events);
    CompleteFromInv(x, base, from, t.s, t.log, Offered(x, dec, h, events));
  }

  lemma AllClosed(x: Context, s: Sched)
    requires Open(x, s) == {}
    ensures s.sidUrl == map[] && s.primaryDone
  {
    assert s.sidUrl.Keys == {};
  }

  /** `events` is a plain run of a hop from its start. */
  ghost predicate Reached(x: Context, dec: Decoders, base: nat, from: nat, h: Hop, events: seq<Event>) {
    Starts(x, base, from, h) && Admissible(x, dec, h, events) && PlainRun(x, dec, h, events)
  }

  /** `events`, and then what a policy sends that is asked `n` times, each time in the state reached. */
  function PolicyRun(x: Context, dec: Decoders, h: Hop, events: seq<Event>, policy: Hop -> Event, n: nat): seq<Event> {
    if n == 0 then events
    else
      var before := PolicyRun(x, dec, h, events, policy, n - 1);
      before + [policy(RunHop(x, dec, h, before))]
  }

  /** If a stream is open, the event ends one, and not with a redirect. */
  ghost predicate EndsOne(x: Context, g: Hop, ev: Event) {
    Open(x, g.s) != {} ==> EndsStream(ev) && Ends(x, g, ev) && Plain(g, ev)
  }

  /** Wherever the policy gets to, it ends an open stream if there is one. */
  ghost predicate EndsOpenStreams(x: Context, dec: Decoders, h: Hop, events: seq<Event>, policy: Hop -> Event) {
    forall n: nat :: EndsOne(x, RunHop(x, dec, h, PolicyRun(x, dec, h, events, policy, n)),
                             policy(RunHop(x, dec, h, PolicyRun(x, dec, h, events, policy, n))))
  }

  /** There is always such an event, unless every open stream holds the headers of a redirect. */
  lemma CanEndOne(x: Context, g: Hop, sid: int) returns (ev: Event)
    requires sid in Open(x, g.s) && sid > 0 && !IsRedirect(TouchStatus(Get(g.c.responses, sid)))
    ensures EndsOne(x, g, ev) && EndsStream(ev) && ev.sid == sid
  {
    ev := FrameEnd(DataFrame, sid, true);
  }

  /** Whatever the environment chooses to end next, a page hop comes to its stop: from any state of a plain run, a
      policy that keeps ending open streams without redirect stops the loop within the measure of `StopWithinCap`. */
  lemma PolicyReachesStop(x: Context, dec: Decoders, base: nat, from: nat, h: Hop, events: seq<Event>,
                          policy: Hop -> Event) returns (n: nat)
    requires Reached(x, dec, base, from, h, events) && EndsOpenStreams(x, dec, h, events, policy) && x.config.max >= 1
    ensures var longer := PolicyRun(x, dec, h, events, policy, n);
            Reached(x, dec, base, from, h, longer) && !RunHop(x, dec, h, longer).c.running
    ensures n + CountEnds(events) <= 1 + x.config.max
  {
    StopWithinCap(x, dec, base, from, h, events);
    var kept, runs := Kept(x, dec, base, from, h, events, policy), Runs(x, dec, h, events, policy);
    forall i: nat ensures (kept(i) && runs(i) ==> kept(i + 1)) && (kept(i) ==> i <= 1 + x.config.max) {
      PolicyOneOn(x, dec, base, from, h, events, policy, i);
    }
    n := EndsWithin(kept, runs, 1 + x.config.max, 0);
  }

  lemma PolicyOneOn(x: Context, dec: Decoders, base: nat, from: nat, h: Hop, events: seq<Event>, policy: Hop -> Event,
                    i: nat)
    requires EndsOpenStreams(x, dec, h, events, policy) && x.config.max >= 1
    ensures var kept, runs := Kept(x, dec, base, from, h, events, policy), Runs(x, dec, h, events, policy);
            (kept(i) && runs(i) ==> kept(i + 1)) && (kept(i) ==> i <= 1 + x.config.max)
  {
    var kept, runs := Kept(x, dec, base, from, h, events, policy), Runs(x, dec, h, events, policy);
    if kept(i) {
      KeptBound(x, dec, base, from, h, events, PolicyRun(x, dec, h, events, policy, i), i);
      if runs(i) {
        PolicyStep(x, dec, base, from, h, events, policy, i);
      }
    }
  }

  lemma KeptBound(x: Context, dec: Decoders, base: nat, from: nat, h: Hop, events: seq<Event>, longer: seq<Event>,
                  n: nat)
    requires PolicyKept(x, dec, base, from, h, events, longer, n)
    ensures n <= 1 + x.config.max
  {}

  /** What is kept as long as something runs, and never for more than `bound` steps, comes to an end. */
  lemma EndsWithin(kept: nat -> bool, runs: nat -> bool, bound: nat, n: nat) returns (m: nat)
    requires kept(n) && (forall i: nat :: kept(i) && runs(i) ==> kept(i + 1)) && forall i: nat :: kept(i) ==> i <= bound
    ensures kept(m) && !runs(m)
    decreases bound - n
  {
    if runs(n) {
      assert kept(n + 1);
      m := EndsWithin(kept, runs, bound, n + 1);
    } else {
      m := n;
    }
  }

  ghost function Kept(x: Context, dec: Decoders, base: nat, from: nat, h: Hop, events: seq<Event>, policy: Hop -> Event)
    : nat -> bool
  {
    (n: nat) => PolicyKept(x, dec, base, from, h, events, PolicyRun(x, dec, h, events, policy, n), n)
  }

  ghost function Runs(x: Context, dec: Decoders, h: Hop, events: seq<Event>, policy: Hop -> Event): nat -> bool {
    (n: nat) => RunHop(x, dec, h, PolicyRun(x, dec, h, events, policy, n)).c.running
  }

  ghost predicate PolicyKept(x: Context, dec: Decoders, base: nat, from: nat, h: Hop, events: seq<Event>,
                             longer: seq<Event>, n: nat)
  {
    Reached(x, dec, base, from, h, longer) && CountEnds(longer) == CountEnds(events) + n <= 1 + x.config.max
  }

  lemma PolicyStep(x: Context, dec: Decoders, base: nat, from: nat, h: Hop, events: seq<Event>, policy: Hop -> Event,
                   n: nat)
    requires PolicyKept(x, dec, base, from, h, events, PolicyRun(x, dec, h, events, policy, n), n) && x.config.max >= 1
    requires EndsOpenStreams(x, dec, h, events, policy)
    requires RunHop(x, dec, h, PolicyRun(x, dec, h, events, policy, n)).c.running
    ensures PolicyKept(x, dec, base, from, h, events, PolicyRun(x, dec, h, events, policy, n + 1), n + 1)
    ensures n + 1 <= 1 + x.config.max
  {
    var before := PolicyRun(x, dec, h, events, policy, n);
    var g := RunHop(x, dec, h, before);
    StopWithinCap(x, dec, base, from, h, before);
    PlainRunStopsWhenAllEnded(x, dec, base, from, h, before);
    assert EndsOne(x, g, policy(g));
    ExtendRun(x, dec, h, before, policy(g));
  }

  lemma ExtendRun(x: Context, dec: Decoders, h: Hop, events: seq<Event>, ev: Event)
    requires Admissible(x, dec, h, events) && PlainRun(x, dec, h, events)
    requires Ends(x, RunHop(x, dec, h, events), ev) && Plain(RunHop(x, dec, h, events), ev)
    ensures Admissible(x, dec, h, events + [ev]) && PlainRun(x, dec, h, events + [ev])
    ensures CountEnds(events + [ev]) == CountEnds(events) + if EndsStream(ev) then 1 else 0
  {
    var longer := events + [ev];
    assert longer[..|longer| - 1] == events && longer[|longer| - 1] == ev;
  }

  // ---------- The page's body: what is delivered and what is scanned ----------

  /** The client's state in a hop is that of the client alone, but for the running flag. */
  lemma {:induction false} HopResponses(x: Context, dec: Decoders, h: Hop, events: seq<Event>)
    ensures RunHop(x, dec, h, events).c.responses == Run(dec, h.c, events).responses
    ensures RunHop(x, dec, h, events).c.host == Run(dec, h.c, events).host
    decreases |events|
  {
    if events != [] {
      var n := |events| - 1;
      HopResponses(x, dec, h, events[..n]);
      var g := RunHop(x, dec, h, events[..n]);
      SameResponses(dec, g.c, Run(dec, h.c, events[..n]), events[n]);
      ReactKeepsClient(x, g.s, g.log, Http2Client.OnEvent(dec, g.c, events[n]).0,
                       Http2Client.OnEvent(dec, g.c, events[n]).1);
    }
  }

  lemma ReactKeepsClient(x: Context, s: Sched, log: seq<Submission>, c: ClientState, effect: Effect)
    ensures React(x, s, log, c, effect).c.responses == c.responses && React(x, s, log, c, effect).c.host == c.host
  {}

  function Feeds(chunks: seq<string>): seq<Op> {
    seq(|chunks|, i requires 0 <= i < |chunks| => FeedOp(chunks[i]))
  }

  lemma FeedsSnoc(chunks: seq<string>, chunk: string)
    ensures Feeds(chunks + [chunk]) == Feeds(chunks) + [FeedOp(chunk)]
  {}

  /** While the primary stream has not ended, the scanner has been fed exactly its DATA payloads. */
  lemma {:induction false} ScannedBody(x: Context, dec: Decoders, base: nat, from: nat, h: Hop, events: seq<Event>)
    returns (chunks: seq<string>)
    requires Starts(x, base, from, h) && Admissible(x, dec, h, events) && Unended(events, x.primarySid)
    ensures !RunHop(x, dec, h, events).s.primaryDone
    ensures ScanOps(x, dec, h, events) == Feeds(chunks) && Flatten(chunks) == BodyOf(events, x.primarySid)
    decreases |events|
  {
    if events == [] {
      chunks := [];
    } else {
      var n := |events| - 1;
      var ev := events[n];
      UnendedPrefix(events, x.primarySid);
      chunks := ScannedBody(x, dec, base, from, h, events[..n]);
      StartHasInv(x, base, from, h);
      RunKeepsInv(x, dec, base, from, h, events[..n]);
      StaysUndone(x, dec, base, from, RunHop(x, dec, h, events[..n]), ev);
      if ev.DataChunk? && ev.sid == x.primarySid {
        FeedsSnoc(chunks, ev.payload);
        FlattenSnoc(chunks, ev.payload);
        chunks := chunks + [ev.payload];
      }
    }
  }

  lemma StaysUndone(x: Context, dec: Decoders, base: nat, from: nat, g: Hop, ev: Event)
    requires HopInv(x, base, from, g) && Ends(x, g, ev) && !g.s.primaryDone
    requires EndsStream(ev) ==> ev.sid != x.primarySid
    ensures !Step(x, dec, g, ev).s.primaryDone
    ensures OpOf(x, dec, g, ev) == if ev.DataChunk? && ev.sid == x.primarySid then Some(FeedOp(ev.payload)) else None
  {
    EffectOfEvent(dec, g.c, ev);
    StepScan(x, dec, base, from, g, ev);
  }

  lemma IncrementalIsRunOps(c: Config, chunks: seq<string>)
    ensures RunOps(c, Feeds(chunks) + [FinalizeOp]).1 == Incremental(c, chunks)
  {
    RunOpsSnoc(c, Feeds(chunks), FinalizeOp);
  }

  /** At the end of the primary stream the recorded page body is the decoded concatenation of the stream's DATA
      payloads, while the items offered so far are an incremental scan of the same payloads as received, before
      decoding. */
  lemma PrimaryDelivered(x: Context, dec: Decoders, base: nat, from: nat, h: Hop, events: seq<Event>, end: Event)
    returns (chunks: seq<string>)
    requires Starts(x, base, from, h) && Admissible(x, dec, h, events) && Unended(events, x.primarySid)
    requires EndsStream(end) && end.sid == x.primarySid && Plain(RunHop(x, dec, h, events), end)
    ensures var whole := TouchStatus(Response(HeadersOf(events, x.primarySid), BodyOf(events, x.primarySid)));
            RunHop(x, dec, h, events + [end]).s.primary.resp == Decompress(dec, whole)
    ensures Flatten(chunks) == BodyOf(events, x.primarySid)
    ensures Offered(x, dec, h, events + [end]) == Incremental(x.config, chunks)
  {
    chunks := ScannedBody(x, dec, base, from, h, events);
    var longer := events + [end];
    assert longer[..|longer| - 1] == events && longer[|longer| - 1] == end;
    StartHasInv(x, base, from, h);
    RunKeepsInv(x, dec, base, from, h, events);
    HopResponses(x, dec, h, events);
    AssembledPerStream(dec, h.c, events, x.primarySid);
    PrimaryRecorded(x, dec, base, from, RunHop(x, dec, h, events), end);
    OfferedIsScanned(x, dec, base, from, h, longer);
    assert ScanOps(x, dec, h, longer) == Feeds(chunks) + [FinalizeOp];
    IncrementalIsRunOps(x.config, chunks);
  }

  lemma EndCompletes(dec: Decoders, c: ClientState, end: Event)
    requires EndsStream(end) && !IsRedirect(TouchStatus(Get(c.responses, end.sid)))
    ensures Http2Client.OnEvent(dec, c, end).1
            == Completed(end.sid, Decompress(dec, TouchStatus(Get(c.responses, end.sid))))
  {}

  lemma PrimaryRecorded(x: Context, dec: Decoders, base: nat, from: nat, g: Hop, end: Event)
    requires HopInv(x, base, from, g) && EndsStream(end) && end.sid == x.primarySid && !g.s.primaryDone && Plain(g, end)
    ensures Step(x, dec, g, end).s.primary.resp == Decompress(dec, TouchStatus(Get(g.c.responses, x.primarySid)))
    ensures OpOf(x, dec, g, end) == Some(FinalizeOp) && Ends(x, g, end)
  {
    EndCompletes(dec, g.c, end);
    var (c, effect) := Http2Client.OnEvent(dec, g.c, end);
    RecordPrimary(x, g.s, g.log, c, effect.resp);
  }

  lemma RecordPrimary(x: Context, s: Sched, log: seq<Submission>, c: ClientState, resp: Response)
    ensures React(x, s, log, c, Completed(x.primarySid, resp)).s.primary.resp == resp
  {
    var s1 := s.(active := Minus(s));
    var (scan, items) := Finalize(x.config, s1.scan);
    EnqueueKeepsPrimary(s1.(primaryDone := true, scan := scan,
                            primary := Finished(x.primarySid, resp, x.pageUrl, PRIMARY_SEQ, "primary", "primary")),
                            items);
    DispatchAllKeepsPrimary(x, PrimaryDone(x, s1, resp), log, []);
  }

  /** The streamed discovery of a page agrees with batch discovery over the body as received exactly when the
      windows hold the candidates of the whole. */
  lemma PageMatchesBatch(x: Context, dec: Decoders, base: nat, from: nat, h: Hop, events: seq<Event>, end: Event)
    returns (chunks: seq<string>)
    requires Starts(x, base, from, h) && Admissible(x, dec, h, events) && Unended(events, x.primarySid)
    requires EndsStream(end) && end.sid == x.primarySid && Plain(RunHop(x, dec, h, events), end)
    ensures Flatten(chunks) == BodyOf(events, x.primarySid)
    ensures var c := x.config;
            var inWindows := WindowUrls(c, AllWindows(chunks));
            var inBody := AbsUrls(c.extract(BodyOf(events, x.primarySid)), c.page);
            c.max <= 0 || (|inWindows| <= c.max && |inBody| <= c.max) ==>
              (Urls(Offered(x, dec, h, events + [end]))
                 == Urls(Discover(c.extract, BodyOf(events, x.primarySid), c.page, c.max))
               <==> inWindows == inBody)
  {
    chunks := PrimaryDelivered(x, dec, base, from, h, events, end);
    var c := x.config;
    if c.max <= 0 || (&& |WindowUrls(c, AllWindows(chunks))| <= c.max
                      && |AbsUrls(c.extract(Flatten(chunks)), c.page)| <= c.max) {
      IncrementalRefinesBatch(c, chunks);
    }
  }
}
