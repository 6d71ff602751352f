/** Where the recorded results of a page hop come from: each is that of an item which the scanner returned, and says by
    which pattern that item was found. */
module PageSources {
  import opened Http2Client
  import opened PageHop
  import opened PageRun
  import opened Scheduler
  import opened SchedulerInvariant
  import opened SubresourceScanner

  type Known = Item -> bool

  /** The result is a subresource fetched for one of the known items, and names its source; "other" if that is empty. */
  ghost predicate OfItem(known: Known, f: Fetched) {
    f.role == "subresource" && f.ok && f.error == Fine
    && exists item :: known(item) && item.url == f.finalUrl && f.source == if item.source == "" then "other"
       else item.source
  }

  ghost predicate ResultsTraced(known: Known, from: nat, also: seq<Fetched>) {
    from <= |also| && forall j :: from <= j < |also| ==> OfItem(known, also[j])
  }

  /** So is whatever may still become a result: the queue and the open streams. */
  ghost predicate Traced(known: Known, from: nat, s: Sched) {
    && ResultsTraced(known, from, s.also)
    && (forall i :: 0 <= i < |s.pending| ==> known(s.pending[i]))
    && TableTraced(known, s.sidUrl, s.sidDiscovery)
  }

  ghost predicate TableTraced(known: Known, urls: map<int, string>, sources: map<int, string>) {
    forall sid :: sid in urls ==> sid in sources && known(Item(urls[sid], sources[sid]))
  }

  ghost predicate AllKnown(known: Known, items: seq<Item>) {
    forall i :: 0 <= i < |items| ==> known(items[i])
  }

  lemma {:induction false} EnqueueTraced(known: Known, from: nat, s: Sched, items: seq<Item>)
    requires Traced(known, from, s) && AllKnown(known, items)
    ensures Traced(known, from, Enqueue(s, items))
    decreases |items|
  {
    if items != [] {
      assert known(items[0]);
      if items[0].url in s.dispatched || items[0].url in s.pendingUrls {
        EnqueueTraced(known, from, s, items[1..]);
      } else {
        EnqueueTraced(known, from, s.(pendingUrls := s.pendingUrls + {items[0].url}, pending := s.pending + [items[0]]),
                      items[1..]);
      }
    }
  }

  lemma {:induction false} DispatchTraced(known: Known, from: nat, x: Context, s: Sched, log: seq<Submission>,
                                          deferred: seq<Item>)
    requires Traced(known, from, s) && AllKnown(known, deferred)
    ensures Traced(known, from, DispatchAll(x, s, log, deferred).0)
    decreases |s.pending|
  {
    if s.pending != [] {
      var item, tail := s.pending[0], s.(pending := s.pending[1..]);
      assert known(item);
      if !Resolver.SameHost(item.url, x.connHost) {
        DispatchTraced(known, from, x, tail, log, deferred + [item]);
      } else if item.url in s.dispatched {
        DispatchTraced(known, from, x, tail, log, deferred);
      } else {
        var e := Request(x, item, |log|);
        SubmitTraced(known, from, tail, e.sid, item);
        DispatchTraced(known, from, x, AfterSubmit(tail, e.sid, item), log + [e], deferred);
      }
    }
  }

  lemma SubmitTraced(known: Known, from: nat, s: Sched, sid: int, item: Item)
    requires Traced(known, from, s) && known(item)
    ensures Traced(known, from, AfterSubmit(s, sid, item))
  {
    assert Item(item.url, item.source) == item;
  }

  lemma SettleTraced(known: Known, from: nat, x: Context, s: Sched, sid: int, resp: Response)
    requires Traced(known, from, s) && sid in Open(x, s)
    requires sid == x.primarySid ==> AllKnown(known, Finalize(x.config, s.scan).1)
    ensures Traced(known, from, Settle(x, s, sid, resp))
  {
    if sid == x.primarySid {
      var (scan, items) := Finalize(x.config, s.scan);
      EnqueueTraced(known, from, s.(active := Minus(s), primaryDone := true, scan := scan,
                                    primary := Finished(x.primarySid, resp, x.pageUrl, PRIMARY_SEQ, "primary",
                                                        "primary")),
                    items);
    } else {
      var t := Settle(x, s, sid, resp);
      ResultOfItem(known, s, sid, t.also[|s.also|]);
      OneMoreTraced(known, from, s.also, t.also[|s.also|]);
    }
  }

  lemma ResultOfItem(known: Known, s: Sched, sid: int, f: Fetched)
    requires sid in s.sidUrl && TableTraced(known, s.sidUrl, s.sidDiscovery)
    requires f.role == "subresource" && f.ok && f.error == Fine && f.finalUrl == s.sidUrl[sid]
    requires sid in s.sidDiscovery ==> f.source == if s.sidDiscovery[sid] == "" then "other" else s.sidDiscovery[sid]
    ensures OfItem(known, f)
  {
    var item := Item(s.sidUrl[sid], s.sidDiscovery[sid]);
    assert known(item) && item.url == f.finalUrl;
  }

  lemma OneMoreTraced(known: Known, from: nat, also: seq<Fetched>, f: Fetched)
    requires ResultsTraced(known, from, also) && OfItem(known, f)
    ensures ResultsTraced(known, from, also + [f])
  {}

  lemma StepTraced(known: Known, from: nat, x: Context, dec: Decoders, h: Hop, ev: Event)
    requires Traced(known, from, h.s) && Ends(x, h, ev) && AllKnown(known, Offer(x, dec, h, ev))
    ensures Traced(known, from, Step(x, dec, h, ev).s)
  {
    var (c, effect) := Http2Client.OnEvent(dec, h.c, ev);
    EffectOfEvent(dec, h.c, ev);
    ReactTraced(known, from, x, h.s, h.log, c, effect);
  }

  lemma ReactTraced(known: Known, from: nat, x: Context, s: Sched, log: seq<Submission>, c: ClientState, effect: Effect)
    requires Traced(known, from, s) && EffectOk(x, s, effect)
    requires AllKnown(known, Scanned(x, s, OpOfEffect(x, s, effect)).1)
    ensures Traced(known, from, React(x, s, log, c, effect).s)
  {
    match effect {
      case Nothing =>
      case Chunk(sid, payload) =>
        if sid == x.primarySid && !s.primaryDone {
          var (scan, items) := Feed(x.config, s.scan, payload);
          EnqueueTraced(known, from, s.(scan := scan), items);
          DispatchTraced(known, from, x, Enqueue(s.(scan := scan), items), log, []);
        }
      case Completed(sid, resp) =>
        SettleTraced(known, from, x, s, sid, resp);
        DispatchTraced(known, from, x, Settle(x, s, sid, resp), log, []);
    }
  }

  ghost function In(items: seq<Item>): Known {
    (item: Item) => item in items
  }

  lemma {:induction false} RunTraced(known: Known, x: Context, dec: Decoders, base: nat, from: nat, h: Hop,
                                     events: seq<Event>)
    requires Starts(x, base, from, h) && Admissible(x, dec, h, events)
    requires AllKnown(known, Offered(x, dec, h, events))
    ensures Traced(known, from, RunHop(x, dec, h, events).s)
    decreases |events|
  {
    if events != [] {
      var n := |events| - 1;
      var g := RunHop(x, dec, h, events[..n]);
      Parts(known, Offered(x, dec, h, events[..n]), Offer(x, dec, g, events[n]));
      RunTraced(known, x, dec, base, from, h, events[..n]);
      StepTraced(known, from, x, dec, g, events[n]);
    }
  }

  lemma Parts(known: Known, a: seq<Item>, b: seq<Item>)
    requires AllKnown(known, a + b)
    ensures AllKnown(known, a) && AllKnown(known, b)
  {
    forall i | 0 <= i < |a| ensures known(a[i]) {
      assert known((a + b)[i]);
    }
    forall i | 0 <= i < |b| ensures known(b[i]) {
      assert known((a + b)[|a| + i]);
    }
  }

  /** Each result that a hop records is that of an item which the scanner of the hop returned: its URL is the
      item's, and it says by which pattern the item was found. */
  lemma ResultsAreOfItems(x: Context, dec: Decoders, base: nat, from: nat, h: Hop, events: seq<Event>)
    requires Starts(x, base, from, h) && Admissible(x, dec, h, events)
    ensures ResultsTraced(In(Offered(x, dec, h, events)), from, RunHop(x, dec, h, events).s.also)
  {
    RunTraced(In(Offered(x, dec, h, events)), x, dec, base, from, h, events);
  }

  // ---------- Whatever streams end ----------

  /** A stream that the hop does not know is recorded, too: under the page's URL and number 0, with source "other". */
  lemma UnknownIsRecorded(x: Context, s: Sched, sid: int, resp: Response)
    requires sid != x.primarySid && sid !in s.sidUrl && sid !in s.sidDiscovery && sid !in s.sidSeq
    ensures Settle(x, s, sid, resp).also
            == s.also + [Fetched(true, Fine, x.pageUrl, resp, sid, 0, "subresource", "other")]
  {}

  /** Whatever streams end, and whatever had been received: apart from GOAWAY and redirects, an event stops the loop
      exactly if it ends a stream, the page's own stream has ended, and no further stream is counted as open. */
  lemma StopsExactly(x: Context, dec: Decoders, h: Hop, ev: Event)
    requires h.c.running && Plain(h, ev)
    ensures var t := Step(x, dec, h, ev);
            !t.c.running <==> EndsStream(ev) && t.s.primaryDone && t.s.active == 0
  {}
}
