/** What every step of the scheduler keeps. The environment may feed chunks, end open streams, send GOAWAY and
    refuse submissions, in any order. */
module SchedulerInvariant {
  import opened Http2Client
  import opened Resolver
  import opened Scheduler
  import opened SubresourceScanner
  import opened UrlParser
  import opened Wrappers

  /** The library never gives out a stream id twice: ids only grow (section 5.1.1 of RFC 9113). */
  ghost predicate FreshIds(answer: nat -> int) {
    forall i: nat, j: nat :: i < j && answer(i) >= 0 && answer(j) >= 0 ==> answer(i) < answer(j)
  }

  /** How many submissions strictly between `base` and `n` were accepted. */
  function Accepted(log: seq<Submission>, base: nat, n: nat): (k: nat)
    requires base < n <= |log|
    decreases n
  {
    if n == base + 1 then 0
    else Accepted(log, base, n - 1) + if log[n - 1].sid >= 0 then 1 else 0
  }

  function SubmittedUrls(log: seq<Submission>, base: nat): set<string> {
    set i | base < i < |log| :: log[i].url
  }

  // ---------- The invariant ----------

  /** The queue holds each URL once, and its companion set is its contents. */
  ghost predicate QueueOk(s: Sched) {
    Distinct(s.pending) && s.pendingUrls == Urls(s.pending)
  }

  /** What the scanner has accepted is pending or dispatched, never both. */
  ghost predicate AcceptedOk(x: Context, s: Sched) {
    && s.pendingUrls !! s.dispatched && s.scan.seen == s.pendingUrls + s.dispatched
    && Inv(x.config, s.scan)
  }

  /** The hop's submissions are the dispatched URLs, each submitted once. */
  ghost predicate SubmittedOk(base: nat, s: Sched, log: seq<Submission>) {
    && s.dispatched == SubmittedUrls(log, base)
    && (forall i, j :: base < i < j < |log| ==> log[i].url != log[j].url)
  }

  ghost predicate Partition(x: Context, base: nat, s: Sched, log: seq<Submission>) {
    QueueOk(s) && AcceptedOk(x, s) && SubmittedOk(base, s, log)
  }

  /** Submission `i` of the hop opened stream `sid` for `url` with number `seqNo`. */
  ghost predicate Slot(log: seq<Submission>, base: nat, i: nat, sid: int, url: string, seqNo: int) {
    base < i < |log| && log[i].sid == sid && sid >= 0 && log[i].url == url && seqNo == Accepted(log, base, i) + 1
  }

  ghost predicate HasSlot(log: seq<Submission>, base: nat, sid: int, url: string, seqNo: int) {
    exists i: nat :: Slot(log, base, i, sid, url, seqNo)
  }

  ghost predicate SameKeys(s: Sched) {
    s.sidUrl.Keys == s.sidDiscovery.Keys == s.sidSeq.Keys
  }

  ghost predicate SidsOk(x: Context, base: nat, log: seq<Submission>) {
    && base < |log| && log[base].sid == x.primarySid && x.primarySid >= 0
    && (forall i :: 0 <= i < |log| ==> log[i].sid == x.answer(i))
  }

  /** Each open stream was submitted in this hop, under the URL and number the tables hold. */
  ghost predicate OpenOk(base: nat, s: Sched, log: seq<Submission>) {
    && SameKeys(s)
    && (forall sid :: sid in s.sidUrl ==> HasSlot(log, base, sid, s.sidUrl[sid], s.sidSeq[sid]))
  }

  /** Each result of this hop (from index `from` on) belongs to a stream of its own that is no longer open. */
  ghost predicate ResultsOk(base: nat, from: nat, s: Sched, log: seq<Submission>) {
    && from <= |s.also|
    && (forall j :: from <= j < |s.also| ==> Recorded(log, base, s.also[j]))
    && (forall j :: from <= j < |s.also| ==> s.also[j].sid !in s.sidUrl)
    && (forall j, k :: from <= j < k < |s.also| ==> s.also[j].sid != s.also[k].sid)
  }

  ghost predicate Streams(x: Context, base: nat, from: nat, s: Sched, log: seq<Submission>) {
    SidsOk(x, base, log) && OpenOk(base, s, log) && ResultsOk(base, from, s, log) && AllHeld(base, from, s, log)
  }

  ghost predicate Recorded(log: seq<Submission>, base: nat, f: Fetched) {
    f.ok && HasSlot(log, base, f.sid, f.finalUrl, f.requestSeq)
  }

  ghost predicate Done(s: Sched, from: nat, sid: int) {
    exists j :: from <= j < |s.also| && s.also[j].sid == sid
  }

  ghost predicate Counts(base: nat, from: nat, s: Sched, log: seq<Submission>)
    requires base < |log|
  {
    && s.nextSeq == Accepted(log, base, |log|) + 1
    && |s.sidUrl| + |s.also| - from == s.nextSeq - 1
  }

  /** The stream counter is the number of streams that have not ended. */
  ghost predicate ActiveIsOpen(s: Sched) {
    s.active == |s.sidUrl| + if s.primaryDone then 0 else 1
  }

  ghost predicate Settled(x: Context, base: nat, from: nat, s: Sched, log: seq<Submission>) {
    Partition(x, base, s, log) && Streams(x, base, from, s, log) && Counts(base, from, s, log)
  }

  ghost predicate SchedInv(x: Context, base: nat, from: nat, s: Sched, log: seq<Submission>) {
    Settled(x, base, from, s, log) && ActiveIsOpen(s)
  }

  /** The streams of this hop that have not ended. */
  ghost function Open(x: Context, s: Sched): set<int> {
    s.sidUrl.Keys + if s.primaryDone then {} else {x.primarySid}
  }

  lemma InvAtStart(x: Context, base: nat, log: seq<Submission>, primary: Fetched, also: seq<Fetched>)
    requires |log| == base + 1 && log[base].sid == x.primarySid >= 0
    requires forall i :: 0 <= i < |log| ==> log[i].sid == x.answer(i)
    ensures SchedInv(x, base, |also|, Fresh(primary, also), log)
  {}

  // ---------- Submitting ----------

  lemma {:induction false} AcceptedOfLonger(log: seq<Submission>, e: Submission, base: nat, n: nat)
    requires base < n <= |log|
    ensures Accepted(log + [e], base, n) == Accepted(log, base, n)
    decreases n
  {
    if n > base + 1 {
      AcceptedOfLonger(log, e, base, n - 1);
    }
  }

  lemma SlotOfLonger(log: seq<Submission>, e: Submission, base: nat, sid: int, url: string, seqNo: int)
    requires HasSlot(log, base, sid, url, seqNo)
    ensures HasSlot(log + [e], base, sid, url, seqNo)
  {
    var i: nat :| Slot(log, base, i, sid, url, seqNo);
    AcceptedOfLonger(log, e, base, i);
    assert Slot(log + [e], base, i, sid, url, seqNo);
  }

  lemma SubmittedUrlsOfLonger(log: seq<Submission>, e: Submission, base: nat)
    requires base < |log|
    ensures SubmittedUrls(log + [e], base) == SubmittedUrls(log, base) + {e.url}
  {
    var log2 := log + [e];
    assert log2[|log|].url == e.url;
    forall u | u in SubmittedUrls(log, base) ensures u in SubmittedUrls(log2, base) {
      var i :| base < i < |log| && log[i].url == u;
      assert log2[i].url == u;
    }
  }

  lemma PartitionSubmit(x: Context, base: nat, s: Sched, log: seq<Submission>, item: Item, e: Submission,
                        deferred: seq<Item>)
    requires base < |log| && e.url == item.url
    requires Partition(x, base, s.(pending := deferred + ([item] + s.pending)), log)
    ensures Partition(x, base, AfterSubmit(s, e.sid, item).(pending := deferred + s.pending), log + [e])
  {
    QueueSubmit(s, item, e.sid, deferred);
    AcceptedSubmit(x, s, item, e.sid, deferred);
    SubmittedSubmit(base, s, log, item, e, deferred);
  }

  lemma QueueSubmit(s: Sched, item: Item, sid: int, deferred: seq<Item>)
    requires QueueOk(s.(pending := deferred + ([item] + s.pending)))
    ensures QueueOk(AfterSubmit(s, sid, item).(pending := deferred + s.pending))
  {
    PickOut(deferred, item, s.pending);
  }

  lemma AcceptedSubmit(x: Context, s: Sched, item: Item, sid: int, deferred: seq<Item>)
    requires QueueOk(s.(pending := deferred + ([item] + s.pending)))
    requires AcceptedOk(x, s.(pending := deferred + ([item] + s.pending)))
    ensures AcceptedOk(x, AfterSubmit(s, sid, item).(pending := deferred + s.pending))
  {
    PickOut(deferred, item, s.pending);
    MoveUrl(s.pendingUrls, s.dispatched, s.scan.seen, Urls(deferred + s.pending), item.url);
  }

  lemma SubmittedSubmit(base: nat, s: Sched, log: seq<Submission>, item: Item, e: Submission, deferred: seq<Item>)
    requires base < |log| && e.url == item.url && item.url !in s.dispatched
    requires SubmittedOk(base, s.(pending := deferred + ([item] + s.pending)), log)
    ensures SubmittedOk(base, AfterSubmit(s, e.sid, item).(pending := deferred + s.pending), log + [e])
  {
    SubmittedUrlsOfLonger(log, e, base);
    UrlsStayDistinct(log, e, base);
  }

  lemma UrlsStayDistinct(log: seq<Submission>, e: Submission, base: nat)
    requires base < |log| && e.url !in SubmittedUrls(log, base)
    requires forall i, j :: base < i < j < |log| ==> log[i].url != log[j].url
    ensures forall i, j :: base < i < j < |log + [e]| ==> (log + [e])[i].url != (log + [e])[j].url
  {
    forall i | base < i < |log| ensures log[i].url != e.url {
      assert log[i].url in SubmittedUrls(log, base);
    }
  }

  lemma MoveUrl(pending: set<string>, dispatched: set<string>, seen: set<string>, rest: set<string>, u: string)
    requires pending == rest + {u} && u !in rest && pending !! dispatched && seen == pending + dispatched
    ensures pending - {u} == rest && rest !! dispatched + {u} && seen == rest + (dispatched + {u})
  {}

  lemma PickOut(a: seq<Item>, it: Item, b: seq<Item>)
    requires Distinct(a + ([it] + b))
    ensures Distinct(a + b) && Urls(a + ([it] + b)) == Urls(a + b) + {it.url} && it.url !in Urls(a + b)
  {
    var whole := a + ([it] + b);
    assert whole[|a|] == it;
    UrlsOfConcat(a, [it] + b);
    UrlsOfConcat([it], b);
    UrlsOfOne(it);
    UrlsOfConcat(a, b);
    forall i | 0 <= i < |b| ensures b[i] == whole[|a| + 1 + i] {}
    forall i | 0 <= i < |a| ensures a[i] == whole[i] {}
  }

  lemma StreamsSubmit(x: Context, base: nat, from: nat, s: Sched, log: seq<Submission>, item: Item, e: Submission)
    requires FreshIds(x.answer) && e.url == item.url && e.sid == x.answer(|log|)
    requires Streams(x, base, from, s, log) && s.nextSeq == Accepted(log, base, |log|) + 1
    ensures Streams(x, base, from, AfterSubmit(s, e.sid, item), log + [e])
  {
    NewIdIsNew(x, base, from, s, log, e.sid);
    OpenSubmit(base, s, log, item, e);
    ResultsSubmit(base, from, s, log, item, e);
    AllHeldAfterSubmit(base, from, s, log, item, e);
  }

  lemma OpenSubmit(base: nat, s: Sched, log: seq<Submission>, item: Item, e: Submission)
    requires base < |log| && e.url == item.url && OpenOk(base, s, log)
    requires s.nextSeq == Accepted(log, base, |log|) + 1
    ensures OpenOk(base, AfterSubmit(s, e.sid, item), log + [e])
  {
    forall sid | sid in s.sidUrl ensures HasSlot(log + [e], base, sid, s.sidUrl[sid], s.sidSeq[sid]) {
      SlotOfLonger(log, e, base, sid, s.sidUrl[sid], s.sidSeq[sid]);
    }
    AcceptedOfLonger(log, e, base, |log|);
    assert e.sid >= 0 ==> Slot(log + [e], base, |log|, e.sid, item.url, s.nextSeq);
  }

  lemma ResultsSubmit(base: nat, from: nat, s: Sched, log: seq<Submission>, item: Item, e: Submission)
    requires ResultsOk(base, from, s, log)
    requires forall j :: from <= j < |s.also| ==> s.also[j].sid != e.sid
    ensures ResultsOk(base, from, AfterSubmit(s, e.sid, item), log + [e])
  {
    forall j | from <= j < |s.also| ensures Recorded(log + [e], base, s.also[j]) {
      SlotOfLonger(log, e, base, s.also[j].sid, s.also[j].finalUrl, s.also[j].requestSeq);
    }
  }

  /** Every accepted submission is an open stream or a recorded result. */
  ghost predicate AllHeld(base: nat, from: nat, s: Sched, log: seq<Submission>) {
    forall i :: base < i < |log| && log[i].sid >= 0 ==> log[i].sid in s.sidUrl || Done(s, from, log[i].sid)
  }

  lemma AllHeldAfterSubmit(base: nat, from: nat, s: Sched, log: seq<Submission>, item: Item, e: Submission)
    requires base < |log| && AllHeld(base, from, s, log)
    ensures AllHeld(base, from, AfterSubmit(s, e.sid, item), log + [e])
  {
    var t := AfterSubmit(s, e.sid, item);
    forall i | base < i < |log| && log[i].sid >= 0 ensures log[i].sid in t.sidUrl || Done(t, from, log[i].sid) {
      if log[i].sid !in s.sidUrl {
        var j :| from <= j < |s.also| && s.also[j].sid == log[i].sid;
        assert t.also[j].sid == log[i].sid;
      }
    }
  }

  lemma IdsGrow(answer: nat -> int, i: nat, j: nat)
    requires FreshIds(answer) && i < j && answer(i) >= 0 && answer(j) >= 0
    ensures answer(i) < answer(j)
  {}

  /** The next id the library gives is larger than all before. */
  lemma NewestId(x: Context, log: seq<Submission>, sid: int)
    requires FreshIds(x.answer) && sid == x.answer(|log|)
    requires forall i :: 0 <= i < |log| ==> log[i].sid == x.answer(i)
    ensures forall i :: 0 <= i < |log| && log[i].sid >= 0 && sid >= 0 ==> log[i].sid < sid
  {
    forall i | 0 <= i < |log| && log[i].sid >= 0 && sid >= 0 ensures log[i].sid < sid {
      IdsGrow(x.answer, i, |log|);
    }
  }

  lemma NewIdNotInTables(x: Context, base: nat, s: Sched, log: seq<Submission>, sid: int)
    requires FreshIds(x.answer) && SidsOk(x, base, log) && OpenOk(base, s, log) && sid == x.answer(|log|)
    ensures sid !in s.sidUrl && sid != x.primarySid
  {
    NewestId(x, log, sid);
  }

  lemma NewKey(m: map<int, string>, k: int, v: string)
    requires k !in m
    ensures |m[k := v]| == |m| + 1
  {
    assert m[k := v].Keys == m.Keys + {k};
    assert |m[k := v].Keys| == |m[k := v]| && |m.Keys| == |m|;
  }

  lemma NewIdIsNew(x: Context, base: nat, from: nat, s: Sched, log: seq<Submission>, sid: int)
    requires FreshIds(x.answer) && Streams(x, base, from, s, log) && sid == x.answer(|log|)
    ensures sid !in s.sidUrl && sid != x.primarySid
    ensures forall j :: from <= j < |s.also| ==> s.also[j].sid != sid
  {
    NewestId(x, log, sid);
    NewIdNotInTables(x, base, s, log, sid);
    forall j | from <= j < |s.also| ensures s.also[j].sid != sid {
      assert Recorded(log, base, s.also[j]);
      var i: nat :| Slot(log, base, i, s.also[j].sid, s.also[j].finalUrl, s.also[j].requestSeq);
    }
  }

  lemma CountsSubmit(x: Context, base: nat, from: nat, s: Sched, log: seq<Submission>, item: Item, e: Submission)
    requires FreshIds(x.answer) && e.sid == x.answer(|log|)
    requires Streams(x, base, from, s, log) && Counts(base, from, s, log)
    ensures Counts(base, from, AfterSubmit(s, e.sid, item), log + [e])
    ensures SameBalance(s, AfterSubmit(s, e.sid, item))
  {
    NewIdNotInTables(x, base, s, log, e.sid);
    CountsSubmitted(base, from, s, log, item, e);
  }

  lemma CountsSubmitted(base: nat, from: nat, s: Sched, log: seq<Submission>, item: Item, e: Submission)
    requires base < |log| && Counts(base, from, s, log) && e.sid !in s.sidUrl
    ensures Counts(base, from, AfterSubmit(s, e.sid, item), log + [e])
    ensures SameBalance(s, AfterSubmit(s, e.sid, item))
  {
    AcceptedOfLonger(log, e, base, |log|);
    NewKey(s.sidUrl, e.sid, item.url);
  }

  /** The stream counter moves with the table of open streams, and nothing else of the result changes. */
  ghost predicate SameBalance(s: Sched, t: Sched) {
    && t.active - |t.sidUrl| == s.active - |s.sidUrl|
    && t.primaryDone == s.primaryDone && t.also == s.also && t.primary == s.primary && t.scan == s.scan
  }

  ghost predicate Midway(x: Context, base: nat, from: nat, s: Sched, log: seq<Submission>, deferred: seq<Item>) {
    && Partition(x, base, s.(pending := deferred + s.pending), log)
    && Streams(x, base, from, s, log) && Counts(base, from, s, log)
  }

  lemma SubmitKeepsMidway(x: Context, base: nat, from: nat, s: Sched, log: seq<Submission>, item: Item, e: Submission,
                          deferred: seq<Item>)
    requires FreshIds(x.answer) && e.url == item.url && e.sid == x.answer(|log|)
    requires Midway(x, base, from, s.(pending := [item] + s.pending), log, deferred)
    ensures Midway(x, base, from, AfterSubmit(s, e.sid, item), log + [e], deferred)
    ensures SameBalance(s, AfterSubmit(s, e.sid, item))
  {
    PartitionSubmit(x, base, s, log, item, e, deferred);
    StreamsSubmit(x, base, from, s, log, item, e);
    CountsSubmit(x, base, from, s, log, item, e);
  }

  lemma DeferKeepsMidway(x: Context, base: nat, from: nat, s: Sched, log: seq<Submission>, item: Item,
                         deferred: seq<Item>)
    requires Midway(x, base, from, s.(pending := [item] + s.pending), log, deferred)
    ensures Midway(x, base, from, s, log, deferred + [item])
  {
    assert deferred + [item] + s.pending == deferred + ([item] + s.pending);
  }

  lemma StreamsIgnoreQueue(x: Context, base: nat, from: nat, s: Sched, log: seq<Submission>, pending: seq<Item>)
    requires Streams(x, base, from, s, log)
    ensures Streams(x, base, from, s.(pending := pending), log)
  {
    var t := s.(pending := pending);
    assert OpenOk(base, t, log) && ResultsOk(base, from, t, log);
    HeldIgnoresQueue(base, from, s, log, pending);
  }

  lemma HeldIgnoresQueue(base: nat, from: nat, s: Sched, log: seq<Submission>, pending: seq<Item>)
    requires AllHeld(base, from, s, log)
    ensures AllHeld(base, from, s.(pending := pending), log)
  {
    var t := s.(pending := pending);
    forall i | base < i < |log| && log[i].sid >= 0 ensures log[i].sid in t.sidUrl || Done(t, from, log[i].sid) {
      if log[i].sid !in s.sidUrl {
        var j :| from <= j < |s.also| && s.also[j].sid == log[i].sid;
        assert t.also[j].sid == log[i].sid;
      }
    }
  }

  lemma EndOfPass(x: Context, base: nat, from: nat, s: Sched, log: seq<Submission>, deferred: seq<Item>)
    requires s.pending == [] && Midway(x, base, from, s, log, deferred)
    ensures Settled(x, base, from, s.(pending := deferred), log)
  {
    assert deferred + s.pending == deferred;
    StreamsIgnoreQueue(x, base, from, s, log, deferred);
  }

  /** The pass, one item at a time: an item that was not dispatched before is deferred or submitted, never dropped. */
  lemma FirstOfPass(x: Context, s: Sched, log: seq<Submission>, deferred: seq<Item>)
    requires s.pending != [] && s.pending[0].url !in s.dispatched
    ensures var item, tail := s.pending[0], s.(pending := s.pending[1..]);
            DispatchAll(x, s, log, deferred)
            == if !SameHost(item.url, x.connHost) then DispatchAll(x, tail, log, deferred + [item])
               else DispatchAll(x, AfterSubmit(tail, x.answer(|log|), item), log + [Request(x, item, |log|)], deferred)
    ensures s == s.(pending := [s.pending[0]] + s.pending[1..])
  {
    assert s.pending == [s.pending[0]] + s.pending[1..];
  }

  /** A whole pass over the queue keeps the invariant, with the deferred items counted as pending. */
  lemma {:induction false} DispatchAllKeepsInv(x: Context, base: nat, from: nat, s: Sched, log: seq<Submission>,
                                               deferred: seq<Item>)
    requires FreshIds(x.answer)
    requires Midway(x, base, from, s, log, deferred)
    ensures Settled(x, base, from, DispatchAll(x, s, log, deferred).0, DispatchAll(x, s, log, deferred).1)
    ensures SameBalance(s, DispatchAll(x, s, log, deferred).0)
    decreases |s.pending|
  {
    if s.pending == [] {
      EndOfPass(x, base, from, s, log, deferred);
    } else {
      var item, tail := s.pending[0], s.(pending := s.pending[1..]);
      ItemNotDispatched(x, base, s, log, deferred);
      FirstOfPass(x, s, log, deferred);
      if !SameHost(item.url, x.connHost) {
        DeferKeepsMidway(x, base, from, tail, log, item, deferred);
        DispatchAllKeepsInv(x, base, from, tail, log, deferred + [item]);
      } else {
        var e := Request(x, item, |log|);
        SubmitKeepsMidway(x, base, from, tail, log, item, e, deferred);
        DispatchAllKeepsInv(x, base, from, AfterSubmit(tail, e.sid, item), log + [e], deferred);
      }
    }
  }

  /** The duplicate test in the dispatch loop never fires. */
  lemma ItemNotDispatched(x: Context, base: nat, s: Sched, log: seq<Submission>, deferred: seq<Item>)
    requires s.pending != [] && Partition(x, base, s.(pending := deferred + s.pending), log)
    ensures s.pending[0].url !in s.dispatched
  {
    assert (deferred + s.pending)[|deferred|] == s.pending[0];
    assert s.pending[0] in deferred + s.pending;
    assert s.pending[0].url in s.pendingUrls;
  }

  // ---------- Accepting what the scanner found ----------

  /** The duplicate test on entry to the queue never fires: every item offered is queued, in order. */
  lemma {:induction false} EnqueueTakesAll(s: Sched, items: seq<Item>)
    requires Distinct(items) && Urls(items) !! s.dispatched && Urls(items) !! s.pendingUrls
    ensures Enqueue(s, items) == s.(pending := s.pending + items, pendingUrls := s.pendingUrls + Urls(items))
    decreases |items|
  {
    if items == [] {
      assert s.pending + items == s.pending && s.pendingUrls + Urls(items) == s.pendingUrls;
    } else {
      var it, rest := items[0], items[1..];
      HeadAndTail(items);
      var s1 := s.(pendingUrls := s.pendingUrls + {it.url}, pending := s.pending + [it]);
      EnqueueTakesAll(s1, rest);
      assert s.pending + [it] + rest == s.pending + items;
      assert s.pendingUrls + {it.url} + Urls(rest) == s.pendingUrls + Urls(items);
    }
  }

  lemma HeadAndTail(items: seq<Item>)
    requires items != [] && Distinct(items)
    ensures Urls(items) == {items[0].url} + Urls(items[1..]) && items[0].url !in Urls(items[1..])
            && Distinct(items[1..])
  {
    assert items == [items[0]] + items[1..];
    UrlsOfConcat([items[0]], items[1..]);
    UrlsOfOne(items[0]);
    HeadNotInTail(items);
  }

  lemma HeadNotInTail(items: seq<Item>)
    requires items != [] && Distinct(items)
    ensures items[0].url !in Urls(items[1..])
  {}

  ghost predicate NewFind(x: Context, s: Sched, scan: State, items: seq<Item>) {
    Distinct(items) && Urls(items) !! s.scan.seen && scan.seen == s.scan.seen + Urls(items) && Inv(x.config, scan)
  }

  lemma AcceptKeepsSettled(x: Context, base: nat, from: nat, s: Sched, log: seq<Submission>, scan: State,
                           items: seq<Item>)
    requires Settled(x, base, from, s, log) && NewFind(x, s, scan, items)
    ensures Settled(x, base, from, Enqueue(s.(scan := scan), items), log)
    ensures Enqueue(s.(scan := scan), items)
            == s.(scan := scan, pending := s.pending + items, pendingUrls := s.pendingUrls + Urls(items))
  {
    var t := s.(scan := scan, pending := s.pending + items, pendingUrls := s.pendingUrls + Urls(items));
    EnqueueTakesAll(s.(scan := scan), items);
    AcceptQueue(s, scan, items);
    AcceptSets(x, s, scan, items);
    AcceptStreams(x, base, from, s, log, t);
  }

  lemma AcceptQueue(s: Sched, scan: State, items: seq<Item>)
    requires QueueOk(s) && Distinct(items) && Urls(items) !! s.pendingUrls
    ensures QueueOk(s.(scan := scan, pending := s.pending + items, pendingUrls := s.pendingUrls + Urls(items)))
  {
    UrlsOfConcat(s.pending, items);
    DistinctConcat(s.pending, items);
  }

  lemma AcceptSets(x: Context, s: Sched, scan: State, items: seq<Item>)
    requires AcceptedOk(x, s) && NewFind(x, s, scan, items)
    ensures AcceptedOk(x, s.(scan := scan, pending := s.pending + items, pendingUrls := s.pendingUrls + Urls(items)))
  {}

  /** The tables of streams and results decide these parts of the invariant. */
  ghost predicate SameTables(s: Sched, t: Sched) {
    && t.sidUrl == s.sidUrl && t.sidDiscovery == s.sidDiscovery && t.sidSeq == s.sidSeq
    && t.nextSeq == s.nextSeq && t.also == s.also
  }

  lemma AcceptStreams(x: Context, base: nat, from: nat, s: Sched, log: seq<Submission>, t: Sched)
    requires Streams(x, base, from, s, log) && Counts(base, from, s, log) && SameTables(s, t)
    ensures Streams(x, base, from, t, log) && Counts(base, from, t, log)
  {
    assert OpenOk(base, t, log) && ResultsOk(base, from, t, log);
    HeldByTables(base, from, s, log, t);
  }

  lemma HeldByTables(base: nat, from: nat, s: Sched, log: seq<Submission>, t: Sched)
    requires AllHeld(base, from, s, log) && SameTables(s, t)
    ensures AllHeld(base, from, t, log)
  {
    forall i | base < i < |log| && log[i].sid >= 0 ensures log[i].sid in t.sidUrl || Done(t, from, log[i].sid) {
      if log[i].sid !in s.sidUrl {
        var j :| from <= j < |s.also| && s.also[j].sid == log[i].sid;
        assert t.also[j].sid == log[i].sid;
      }
    }
  }

  // ---------- The steps keep the invariant ----------

  lemma DispatchKeepsInv(x: Context, base: nat, from: nat, goaway: bool, s: Sched, log: seq<Submission>)
    requires FreshIds(x.answer) && Settled(x, base, from, s, log)
    ensures Settled(x, base, from, Dispatch(x, goaway, s, log).0, Dispatch(x, goaway, s, log).1)
    ensures SameBalance(s, Dispatch(x, goaway, s, log).0)
  {
    if !goaway {
      assert [] + s.pending == s.pending;
      assert s.(pending := [] + s.pending) == s;
      DispatchAllKeepsInv(x, base, from, s, log, []);
    }
  }

  lemma BodyChunkKeepsInv(x: Context, base: nat, from: nat, goaway: bool, s: Sched, log: seq<Submission>, sid: int,
                          payload: string)
    requires FreshIds(x.answer) && SchedInv(x, base, from, s, log)
    ensures var (t, log2) := OnBodyChunk(x, goaway, s, log, sid, payload); SchedInv(x, base, from, t, log2)
  {
    if sid == x.primarySid && !s.primaryDone {
      var (scan, items) := Feed(x.config, s.scan, payload);
      FeedStep(x.config, s.scan, payload);
      AcceptKeepsSettled(x, base, from, s, log, scan, items);
      DispatchKeepsInv(x, base, from, goaway, Enqueue(s.(scan := scan), items), log);
    }
  }

  lemma PrimaryDoneKeepsSettled(x: Context, base: nat, from: nat, s: Sched, log: seq<Submission>, resp: Response)
    requires Settled(x, base, from, s, log)
    ensures Settled(x, base, from, PrimaryDone(x, s, resp), log)
    ensures PrimaryDone(x, s, resp).primaryDone && SameTables(s, PrimaryDone(x, s, resp))
    ensures PrimaryDone(x, s, resp).active == s.active
  {
    var (scan, items) := Finalize(x.config, s.scan);
    FinalizeStep(x.config, s.scan);
    var s1 := s.(primaryDone := true,
                 primary := Finished(x.primarySid, resp, x.pageUrl, PRIMARY_SEQ, "primary", "primary"));
    AcceptStreams(x, base, from, s, log, s1);
    assert Partition(x, base, s1, log);
    AcceptKeepsSettled(x, base, from, s1, log, scan, items);
    assert PrimaryDone(x, s, resp) == Enqueue(s1.(scan := scan), items);
  }

  lemma SubresourceDoneKeepsSettled(x: Context, base: nat, from: nat, s: Sched, log: seq<Submission>, sid: int,
                                    resp: Response)
    requires Settled(x, base, from, s, log) && sid in s.sidUrl
    ensures Settled(x, base, from, SubresourceDone(x, s, sid, resp), log)
    ensures |SubresourceDone(x, s, sid, resp).sidUrl| == |s.sidUrl| - 1
  {
    var t := SubresourceDone(x, s, sid, resp);
    assert t.sidUrl.Keys == s.sidUrl.Keys - {sid};
    assert Partition(x, base, t, log);
    OpenDone(x, base, s, log, sid, resp);
    ResultsDone(x, base, from, s, log, sid, resp);
    HeldDone(x, base, from, s, log, sid, resp);
  }

  lemma OpenDone(x: Context, base: nat, s: Sched, log: seq<Submission>, sid: int, resp: Response)
    requires OpenOk(base, s, log) && sid in s.sidUrl
    ensures OpenOk(base, SubresourceDone(x, s, sid, resp), log)
  {
    var t := SubresourceDone(x, s, sid, resp);
    assert t.sidUrl.Keys == s.sidUrl.Keys - {sid};
    assert t.sidDiscovery.Keys == s.sidDiscovery.Keys - {sid};
    assert t.sidSeq.Keys == s.sidSeq.Keys - {sid};
  }

  lemma ResultsDone(x: Context, base: nat, from: nat, s: Sched, log: seq<Submission>, sid: int, resp: Response)
    requires OpenOk(base, s, log) && ResultsOk(base, from, s, log) && sid in s.sidUrl
    ensures ResultsOk(base, from, SubresourceDone(x, s, sid, resp), log)
  {
    assert HasSlot(log, base, sid, s.sidUrl[sid], s.sidSeq[sid]);
  }

  lemma HeldDone(x: Context, base: nat, from: nat, s: Sched, log: seq<Submission>, sid: int, resp: Response)
    requires AllHeld(base, from, s, log) && sid in s.sidUrl && from <= |s.also|
    ensures AllHeld(base, from, SubresourceDone(x, s, sid, resp), log)
  {
    var t := SubresourceDone(x, s, sid, resp);
    forall i | base < i < |log| && log[i].sid >= 0 ensures log[i].sid in t.sidUrl || Done(t, from, log[i].sid) {
      if log[i].sid == sid {
        assert t.also[|s.also|].sid == sid;
      } else if log[i].sid !in s.sidUrl {
        var j :| from <= j < |s.also| && s.also[j].sid == log[i].sid;
        assert t.also[j].sid == log[i].sid;
      }
    }
  }

  lemma SettleKeepsSettled(x: Context, base: nat, from: nat, s: Sched, log: seq<Submission>, sid: int, resp: Response)
    requires FreshIds(x.answer) && SchedInv(x, base, from, s, log) && sid in Open(x, s)
    ensures SchedInv(x, base, from, Settle(x, s, sid, resp), log)
  {
    var s1 := s.(active := Minus(s));
    AcceptStreams(x, base, from, s, log, s1);
    assert Partition(x, base, s1, log);
    PrimaryIsNotInTable(x, base, from, s, log);
    if sid == x.primarySid {
      PrimaryDoneKeepsSettled(x, base, from, s1, log, resp);
    } else {
      SubresourceDoneKeepsSettled(x, base, from, s1, log, sid, resp);
    }
  }

  lemma PrimaryIsNotInTable(x: Context, base: nat, from: nat, s: Sched, log: seq<Submission>)
    requires FreshIds(x.answer) && Streams(x, base, from, s, log)
    ensures x.primarySid !in s.sidUrl
  {
  }

  /** The end of an open stream keeps the invariant. */
  lemma CompletionKeepsInv(x: Context, base: nat, from: nat, goaway: bool, s: Sched, log: seq<Submission>, sid: int,
                           resp: Response)
    requires FreshIds(x.answer) && SchedInv(x, base, from, s, log) && sid in Open(x, s)
    ensures var (t, log2, stop) := OnStreamComplete(x, goaway, s, log, sid, resp); SchedInv(x, base, from, t, log2)
  {
    SettleKeepsSettled(x, base, from, s, log, sid, resp);
    DispatchKeepsInv(x, base, from, goaway, Settle(x, s, sid, resp), log);
  }
}
