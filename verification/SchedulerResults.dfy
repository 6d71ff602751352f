/** What the scheduler's invariant means for its caller. */
module SchedulerResults {
  import opened Http2Client
  import opened Resolver
  import opened Scheduler
  import opened SchedulerInvariant
  import opened SubresourceScanner
  import opened Wrappers

  // ---------- The verdict of a completed stream ----------

  /** The end of an open stream stops the loop exactly when no stream of the hop is left open. */
  lemma StopMeansAllEnded(x: Context, base: nat, from: nat, goaway: bool, s: Sched, log: seq<Submission>, sid: int,
                          resp: Response)
    requires FreshIds(x.answer) && SchedInv(x, base, from, s, log) && sid in Open(x, s)
    ensures var (t, log2, stop) := OnStreamComplete(x, goaway, s, log, sid, resp); stop <==> Open(x, t) == {}
  {
    CompletionKeepsInv(x, base, from, goaway, s, log, sid, resp);
    var t := OnStreamComplete(x, goaway, s, log, sid, resp).0;
    assert |t.sidUrl.Keys| == |t.sidUrl|;
  }

  /** What dispatching needs to know of the tables to keep the counter in step. */
  ghost predicate TablesOk(x: Context, base: nat, s: Sched, log: seq<Submission>) {
    SidsOk(x, base, log) && OpenOk(base, s, log) && s.nextSeq == Accepted(log, base, |log|) + 1
  }

  lemma TablesSubmit(x: Context, base: nat, s: Sched, log: seq<Submission>, item: Item, e: Submission)
    requires FreshIds(x.answer) && TablesOk(x, base, s, log) && e.url == item.url && e.sid == x.answer(|log|)
    ensures TablesOk(x, base, AfterSubmit(s, e.sid, item), log + [e])
    ensures SameBalance(s, AfterSubmit(s, e.sid, item))
  {
    OpenSubmit(base, s, log, item, e);
    AcceptedOfLonger(log, e, base, |log|);
    NewIdNotInTables(x, base, s, log, e.sid);
    NewKey(s.sidUrl, e.sid, item.url);
  }

  lemma TablesIgnoreQueue(x: Context, base: nat, s: Sched, log: seq<Submission>, pending: seq<Item>)
    requires TablesOk(x, base, s, log)
    ensures TablesOk(x, base, s.(pending := pending), log) && SameBalance(s, s.(pending := pending))
  {}

  /** Dispatching moves the counter with the table, whatever the results so far. */
  lemma {:induction false} DispatchAllBalance(x: Context, base: nat, s: Sched, log: seq<Submission>,
                                              deferred: seq<Item>)
    requires FreshIds(x.answer) && TablesOk(x, base, s, log)
    ensures SameBalance(s, DispatchAll(x, s, log, deferred).0)
    decreases |s.pending|
  {
    if s.pending != [] {
      var item, tail := s.pending[0], s.(pending := s.pending[1..]);
      TablesIgnoreQueue(x, base, s, log, s.pending[1..]);
      if !SameHost(item.url, x.connHost) {
        DispatchAllBalance(x, base, tail, log, deferred + [item]);
      } else if item.url in s.dispatched {
        DispatchAllBalance(x, base, tail, log, deferred);
      } else {
        var e := Request(x, item, |log|);
        TablesSubmit(x, base, tail, log, item, e);
        DispatchAllBalance(x, base, AfterSubmit(tail, e.sid, item), log + [e], deferred);
      }
    }
  }

  /** The stream counter survives the report of an ended stream exactly when that stream was one of the hop's
      open streams, or the counter was already at zero. A stream left over from an earlier request on the
      same connection breaks it. */
  lemma CountSurvivesExactly(x: Context, base: nat, from: nat, goaway: bool, s: Sched, log: seq<Submission>, sid: int,
                             resp: Response)
    requires FreshIds(x.answer) && SchedInv(x, base, from, s, log)
    ensures ActiveIsOpen(OnStreamComplete(x, goaway, s, log, sid, resp).0) <==> sid in Open(x, s) || s.active == 0
  {
    if sid in Open(x, s) {
      CompletionKeepsInv(x, base, from, goaway, s, log, sid, resp);
    } else {
      var t := Settle(x, s, sid, resp);
      ForeignSettle(x, base, from, s, log, sid, resp);
      if !goaway {
        DispatchAllBalance(x, base, t, log, []);
      }
    }
  }

  /** The report of a stream that is not open changes no table, yet it takes one from the counter. */
  lemma ForeignSettle(x: Context, base: nat, from: nat, s: Sched, log: seq<Submission>, sid: int, resp: Response)
    requires FreshIds(x.answer) && SchedInv(x, base, from, s, log) && sid !in Open(x, s)
    ensures var t := Settle(x, s, sid, resp);
            && t.sidUrl == s.sidUrl && t.primaryDone == s.primaryDone && t.active == Minus(s)
            && TablesOk(x, base, t, log)
  {
    var s1 := s.(active := Minus(s));
    if sid == x.primarySid {
      AcceptStreams(x, base, from, s, log, s1);
      PrimaryDoneKeepsSettled(x, base, from, s1, log, resp);
    } else {
      ForeignSubresource(x, base, s1, log, sid, resp);
    }
  }

  lemma ForeignSubresource(x: Context, base: nat, s: Sched, log: seq<Submission>, sid: int, resp: Response)
    requires TablesOk(x, base, s, log) && sid !in s.sidUrl
    ensures var t := SubresourceDone(x, s, sid, resp);
            t.sidUrl == s.sidUrl && t.active == s.active && t.primaryDone == s.primaryDone && TablesOk(x, base, t, log)
  {
    assert s.sidUrl - {sid} == s.sidUrl && s.sidDiscovery - {sid} == s.sidDiscovery && s.sidSeq - {sid} == s.sidSeq;
  }

  lemma {:induction false} EnqueueKeepsTables(s: Sched, items: seq<Item>)
    ensures var t := Enqueue(s, items); t.sidUrl == s.sidUrl && t.active == s.active && t.primaryDone == s.primaryDone
    decreases |items|
  {
    if items != [] {
      if items[0].url in s.dispatched || items[0].url in s.pendingUrls {
        EnqueueKeepsTables(s, items[1..]);
      } else {
        EnqueueKeepsTables(s.(pendingUrls := s.pendingUrls + {items[0].url}, pending := s.pending + [items[0]]),
                           items[1..]);
      }
    }
  }

  ghost predicate AllElsewhere(items: seq<Item>, host: string) {
    forall it :: it in items ==> !SameHost(it.url, host)
  }

  lemma {:induction false} EnqueueElsewhere(s: Sched, items: seq<Item>, host: string)
    requires AllElsewhere(s.pending, host) && AllElsewhere(items, host)
    ensures AllElsewhere(Enqueue(s, items).pending, host)
    decreases |items|
  {
    if items != [] {
      if items[0].url in s.dispatched || items[0].url in s.pendingUrls {
        EnqueueElsewhere(s, items[1..], host);
      } else {
        EnqueueElsewhere(s.(pendingUrls := s.pendingUrls + {items[0].url}, pending := s.pending + [items[0]]),
                         items[1..], host);
      }
    }
  }

  /** A pass over a queue of other hosts submits nothing and keeps the queue. */
  lemma {:induction false} NothingToSubmit(x: Context, s: Sched, log: seq<Submission>, deferred: seq<Item>)
    requires AllElsewhere(s.pending, x.connHost)
    ensures DispatchAll(x, s, log, deferred) == (s.(pending := deferred + s.pending), log)
    decreases |s.pending|
  {
    if s.pending == [] {
      assert deferred + s.pending == deferred;
    } else {
      var item, rest := s.pending[0], s.pending[1..];
      assert item in s.pending;
      NothingToSubmit(x, s.(pending := rest), log, deferred + [item]);
      assert deferred + [item] + rest == deferred + s.pending;
    }
  }

  lemma NothingDispatched(x: Context, s: Sched, log: seq<Submission>)
    requires AllElsewhere(s.pending, x.connHost)
    ensures Dispatch(x, false, s, log) == (s, log)
  {
    NothingToSubmit(x, s, log, []);
    assert [] + s.pending == s.pending;
  }

  /** The harm it does, GOAWAY or not: with one subresource open besides the page and nothing left to submit, a leftover
      stream and then the page end, and the loop is told to stop although the subresource is still open. */
  lemma LeftoverStopsEarly(x: Context, base: nat, from: nat, goaway: bool, s: Sched, log: seq<Submission>, sid: int,
                           r1: Response, r2: Response)
    requires FreshIds(x.answer) && SchedInv(x, base, from, s, log) && !s.primaryDone && |s.sidUrl| == 1
    requires sid !in Open(x, s)
    requires AllElsewhere(s.pending, x.connHost) && AllElsewhere(Finalize(x.config, s.scan).1, x.connHost)
    ensures var (t, log1, stop1) := OnStreamComplete(x, goaway, s, log, sid, r1);
            var (u, log2, stop2) := OnStreamComplete(x, goaway, t, log1, x.primarySid, r2);
            !stop1 && stop2 && u.sidUrl == s.sidUrl && log2 == log
  {
    var t := Settle(x, s, sid, r1);
    ForeignSettle(x, base, from, s, log, sid, r1);
    assert t == SubresourceDone(x, s.(active := Minus(s)), sid, r1);
    NothingDispatched(x, t, log);
    PageEndsEarly(x, goaway, t, log, r2);
  }

  lemma PageEndsEarly(x: Context, goaway: bool, t: Sched, log: seq<Submission>, resp: Response)
    requires t.active <= 1
    requires AllElsewhere(t.pending, x.connHost) && AllElsewhere(Finalize(x.config, t.scan).1, x.connHost)
    ensures var (u, log2, stop) := OnStreamComplete(x, goaway, t, log, x.primarySid, resp);
            stop && u.sidUrl == t.sidUrl && log2 == log
  {
    var (scan, items) := Finalize(x.config, t.scan);
    var done := t.(active := Minus(t), primaryDone := true, scan := scan,
                   primary := Finished(x.primarySid, resp, x.pageUrl, PRIMARY_SEQ, "primary", "primary"));
    EnqueueKeepsTables(done, items);
    EnqueueElsewhere(done, items, x.connHost);
    NothingDispatched(x, Enqueue(done, items), log);
  }

  // ---------- The fate of each accepted URL ----------

  ghost predicate IsOpen(s: Sched, url: string) {
    exists sid :: sid in s.sidUrl && s.sidUrl[sid] == url
  }

  ghost predicate IsCompleted(s: Sched, from: nat, url: string) {
    exists j :: from <= j < |s.also| && s.also[j].finalUrl == url
  }

  ghost predicate IsRefused(log: seq<Submission>, base: nat, url: string) {
    exists i :: base < i < |log| && log[i].url == url && log[i].sid < 0
  }

  ghost predicate ExactlyOne(a: bool, b: bool, c: bool, d: bool) {
    (a || b || c || d) && !(a && b) && !(a && c) && !(a && d) && !(b && c) && !(b && d) && !(c && d)
  }

  lemma UrlSubmittedOnce(base: nat, s: Sched, log: seq<Submission>, i: nat, k: nat)
    requires SubmittedOk(base, s, log) && base < i < |log| && base < k < |log| && log[i].url == log[k].url
    ensures i == k
  {
  }

  lemma RefusedOrNot(base: nat, s: Sched, log: seq<Submission>, i: nat)
    requires SubmittedOk(base, s, log) && base < i < |log|
    ensures IsRefused(log, base, log[i].url) <==> log[i].sid < 0
  {
    if k :| base < k < |log| && log[k].url == log[i].url && log[k].sid < 0 {
      UrlSubmittedOnce(base, s, log, i, k);
    }
  }

  lemma OpenOrNot(x: Context, base: nat, s: Sched, log: seq<Submission>, i: nat)
    requires FreshIds(x.answer) && SidsOk(x, base, log) && OpenOk(base, s, log) && SubmittedOk(base, s, log)
    requires base < i < |log|
    ensures IsOpen(s, log[i].url) <==> log[i].sid in s.sidUrl
  {
    var sid := log[i].sid;
    if sid in s.sidUrl {
      var k: nat :| Slot(log, base, k, sid, s.sidUrl[sid], s.sidSeq[sid]);
      OneSubmissionPerSid(x, base, log, i, k);
    }
    if other :| other in s.sidUrl && s.sidUrl[other] == log[i].url {
      var k: nat :| Slot(log, base, k, other, log[i].url, s.sidSeq[other]);
      UrlSubmittedOnce(base, s, log, i, k);
    }
  }

  lemma CompletedOrNot(x: Context, base: nat, from: nat, s: Sched, log: seq<Submission>, i: nat)
    requires FreshIds(x.answer) && SidsOk(x, base, log) && ResultsOk(base, from, s, log) && SubmittedOk(base, s, log)
    requires base < i < |log|
    ensures IsCompleted(s, from, log[i].url) <==> Done(s, from, log[i].sid)
  {
    if j :| from <= j < |s.also| && s.also[j].finalUrl == log[i].url {
      var k := SlotOfResult(base, from, s, log, j);
      UrlSubmittedOnce(base, s, log, i, k);
    }
    if j :| from <= j < |s.also| && s.also[j].sid == log[i].sid {
      var k := SlotOfResult(base, from, s, log, j);
      OneSubmissionPerSid(x, base, log, i, k);
    }
  }

  lemma SlotOfResult(base: nat, from: nat, s: Sched, log: seq<Submission>, j: nat) returns (k: nat)
    requires ResultsOk(base, from, s, log) && from <= j < |s.also|
    ensures Slot(log, base, k, s.also[j].sid, s.also[j].finalUrl, s.also[j].requestSeq)
  {
    assert Recorded(log, base, s.also[j]);
    k :| Slot(log, base, k, s.also[j].sid, s.also[j].finalUrl, s.also[j].requestSeq);
  }

  lemma OneSubmissionPerSid(x: Context, base: nat, log: seq<Submission>, i: nat, k: nat)
    requires FreshIds(x.answer) && SidsOk(x, base, log) && i < |log| && k < |log|
    requires log[i].sid == log[k].sid >= 0
    ensures i == k
  {
    assert x.answer(i) == x.answer(k);
  }

  /** Each URL the scanner accepted is in exactly one place: still queued, an open stream, a recorded result,
      or a submission the library refused. */
  lemma OneFatePerUrl(x: Context, base: nat, from: nat, s: Sched, log: seq<Submission>, url: string)
    requires FreshIds(x.answer) && Settled(x, base, from, s, log) && url in s.scan.seen
    ensures ExactlyOne(url in Urls(s.pending), IsOpen(s, url), IsCompleted(s, from, url), IsRefused(log, base, url))
  {
    if url in s.dispatched {
      var i :| base < i < |log| && log[i].url == url;
      RefusedOrNot(base, s, log, i);
      OpenOrNot(x, base, s, log, i);
      CompletedOrNot(x, base, from, s, log, i);
      DoneIsNotOpen(base, from, s, log, log[i].sid);
    } else {
      NotSubmittedNoFate(x, base, from, s, log, url);
    }
  }

  lemma DoneIsNotOpen(base: nat, from: nat, s: Sched, log: seq<Submission>, sid: int)
    requires ResultsOk(base, from, s, log)
    ensures Done(s, from, sid) ==> sid !in s.sidUrl && sid >= 0
  {
    if Done(s, from, sid) {
      var j :| from <= j < |s.also| && s.also[j].sid == sid;
      assert Recorded(log, base, s.also[j]);
    }
  }

  lemma NotSubmittedNoFate(x: Context, base: nat, from: nat, s: Sched, log: seq<Submission>, url: string)
    requires Settled(x, base, from, s, log) && url !in s.dispatched
    ensures !IsOpen(s, url) && !IsCompleted(s, from, url) && !IsRefused(log, base, url)
  {
  }

  // ---------- The cap bounds the hop ----------

  lemma {:induction false} DistinctUrlsCard(log: seq<Submission>, base: nat)
    requires base < |log|
    requires forall i, j :: base < i < j < |log| ==> log[i].url != log[j].url
    ensures |SubmittedUrls(log, base)| == |log| - base - 1
    decreases |log|
  {
    if |log| == base + 1 {
      assert SubmittedUrls(log, base) == {};
    } else {
      var n := |log| - 1;
      DistinctUrlsCard(log[..n], base);
      assert log == log[..n] + [log[n]];
      SubmittedUrlsOfLonger(log[..n], log[n], base);
      assert log[n].url !in SubmittedUrls(log[..n], base);
    }
  }

  /** How many streams of the hop have completed. */
  function Completions(from: nat, s: Sched): int {
    |s.also| - from + if s.primaryDone then 1 else 0
  }

  /** With a cap of n, a hop makes at most 1 + n submissions, and its completed and open streams together are
      never more than that. */
  lemma HopWithinCap(x: Context, base: nat, from: nat, s: Sched, log: seq<Submission>)
    requires FreshIds(x.answer) && SchedInv(x, base, from, s, log) && x.config.max > 0
    ensures |log| - base <= 1 + x.config.max
    ensures Completions(from, s) + |Open(x, s)| <= 1 + x.config.max
  {
    DistinctUrlsCard(log, base);
    assert |s.dispatched| <= |s.scan.seen| by { SubsetCard(s.dispatched, s.scan.seen); }
    AcceptedBound(log, base, |log|);
    OpenCard(x, base, from, s, log);
  }

  lemma SubsetCard(a: set<string>, b: set<string>)
    requires a <= b
    ensures |a| <= |b|
  {
    assert b == a + (b - a);
  }

  lemma {:induction false} AcceptedBound(log: seq<Submission>, base: nat, n: nat)
    requires base < n <= |log|
    ensures Accepted(log, base, n) <= n - base - 1
    decreases n
  {
    if n > base + 1 {
      AcceptedBound(log, base, n - 1);
    }
  }

  lemma OpenCard(x: Context, base: nat, from: nat, s: Sched, log: seq<Submission>)
    requires FreshIds(x.answer) && Streams(x, base, from, s, log)
    ensures |Open(x, s)| == |s.sidUrl| + if s.primaryDone then 0 else 1
  {
    PrimaryIsNotInTable(x, base, from, s, log);
    assert |s.sidUrl.Keys| == |s.sidUrl|;
  }

  // ---------- Request numbers ----------

  lemma {:induction false} AcceptedGrows(log: seq<Submission>, base: nat, i: nat, k: nat)
    requires base < i <= k <= |log|
    ensures Accepted(log, base, i) <= Accepted(log, base, k)
    ensures i < k && log[i].sid >= 0 ==> Accepted(log, base, i) < Accepted(log, base, k)
    decreases k
  {
    if i < k {
      AcceptedGrows(log, base, i, k - 1);
    }
  }

  /** The k-th accepted submission exists. */
  lemma {:induction false} NthAccepted(log: seq<Submission>, base: nat, n: nat, k: int) returns (i: nat)
    requires base < n <= |log| && 0 <= k < Accepted(log, base, n)
    ensures base < i < n && log[i].sid >= 0 && Accepted(log, base, i) == k
    decreases n
  {
    if k == Accepted(log, base, n - 1) {
      i := n - 1;
    } else {
      i := NthAccepted(log, base, n - 1, k);
    }
  }

  /** The results from index `from` on carry the numbers 1 to n, each once. */
  ghost predicate NumberedOnce(also: seq<Fetched>, from: nat, n: int) {
    && from <= |also| && |also| - from == n
    && (forall j :: from <= j < |also| ==> 1 <= also[j].requestSeq <= n)
    && (forall j, k :: from <= j < k < |also| ==> also[j].requestSeq != also[k].requestSeq)
    && (forall r :: 1 <= r <= n ==> HasNumber(also, from, r))
  }

  ghost predicate HasNumber(also: seq<Fetched>, from: nat, r: int) {
    exists j :: from <= j < |also| && also[j].requestSeq == r
  }

  lemma NumbersDiffer(base: nat, from: nat, s: Sched, log: seq<Submission>, j: nat, k: nat)
    requires ResultsOk(base, from, s, log) && from <= j < k < |s.also|
    ensures s.also[j].requestSeq != s.also[k].requestSeq
  {
    var a := SlotOfResult(base, from, s, log, j);
    var b := SlotOfResult(base, from, s, log, k);
    if a < b {
      AcceptedGrows(log, base, a, b);
    } else {
      AcceptedGrows(log, base, b, a);
    }
  }

  lemma NumberInRange(base: nat, from: nat, s: Sched, log: seq<Submission>, j: nat)
    requires ResultsOk(base, from, s, log) && from <= j < |s.also| && base < |log|
    ensures 1 <= s.also[j].requestSeq <= Accepted(log, base, |log|)
  {
    var a := SlotOfResult(base, from, s, log, j);
    AcceptedGrows(log, base, a, |log|);
    AcceptedIsNat(log, base, a);
  }

  lemma AcceptedIsNat(log: seq<Submission>, base: nat, n: nat)
    requires base < n <= |log|
    ensures Accepted(log, base, n) >= 0
  {}

  lemma NumberHeld(x: Context, base: nat, from: nat, s: Sched, log: seq<Submission>, r: int)
    requires FreshIds(x.answer) && Settled(x, base, from, s, log) && s.sidUrl == map[] && 1 <= r < s.nextSeq
    ensures HasNumber(s.also, from, r)
  {
    var i := NthAccepted(log, base, |log|, r - 1);
    assert Done(s, from, log[i].sid);
    var j :| from <= j < |s.also| && s.also[j].sid == log[i].sid;
    var k := SlotOfResult(base, from, s, log, j);
    OneSubmissionPerSid(x, base, log, i, k);
    assert s.also[j].requestSeq == r;
  }

  /** When every stream of the hop has ended, there is one result per accepted submission, and the results are
      numbered 1 to n without gap or repetition; the primary has number 0. */
  lemma ResultsNumberedOnce(x: Context, base: nat, from: nat, s: Sched, log: seq<Submission>)
    requires FreshIds(x.answer) && Settled(x, base, from, s, log) && s.sidUrl == map[]
    ensures NumberedOnce(s.also, from, s.nextSeq - 1)
    ensures s.nextSeq - 1 == Accepted(log, base, |log|)
  {
    forall j | from <= j < |s.also| ensures 1 <= s.also[j].requestSeq <= s.nextSeq - 1 {
      NumberInRange(base, from, s, log, j);
    }
    forall j, k | from <= j < k < |s.also| ensures s.also[j].requestSeq != s.also[k].requestSeq {
      NumbersDiffer(base, from, s, log, j, k);
    }
    forall r | 1 <= r <= s.nextSeq - 1 ensures HasNumber(s.also, from, r) {
      NumberHeld(x, base, from, s, log, r);
    }
  }

  // ---------- Order of dispatch ----------

  function Filter(items: seq<Item>, keep: Item -> bool): seq<Item> {
    if items == [] then []
    else Filter(items[..|items| - 1], keep) + if keep(items[|items| - 1]) then [items[|items| - 1]] else []
  }

  function HostTest(host: string): Item -> bool {
    (item: Item) => SameHost(item.url, host)
  }

  function OtherTest(host: string): Item -> bool {
    (item: Item) => !SameHost(item.url, host)
  }

  function OnHost(items: seq<Item>, host: string): seq<Item> {
    Filter(items, HostTest(host))
  }

  function OffHost(items: seq<Item>, host: string): seq<Item> {
    Filter(items, OtherTest(host))
  }

  function UrlsInOrder(items: seq<Item>): seq<string> {
    seq(|items|, i requires 0 <= i < |items| => items[i].url)
  }

  function SubmittedInOrder(log: seq<Submission>, base: nat): seq<string>
    requires base < |log|
  {
    seq(|log| - base - 1, i requires 0 <= i < |log| - base - 1 => log[base + 1 + i].url)
  }

  lemma {:induction false} FilterConcat(a: seq<Item>, b: seq<Item>, keep: Item -> bool)
    ensures Filter(a + b, keep) == Filter(a, keep) + Filter(b, keep)
    decreases |b|
  {
    if b == [] {
      assert a + b == a;
    } else {
      var n := |b| - 1;
      FilterConcat(a, b[..n], keep);
      assert (a + b)[..|a + b| - 1] == a + b[..n];
    }
  }

  lemma FilterOne(item: Item, keep: Item -> bool)
    ensures Filter([item], keep) == if keep(item) then [item] else []
  {
    assert [item][..0] == [];
  }

  lemma FilterHead(item: Item, rest: seq<Item>, keep: Item -> bool)
    ensures Filter([item] + rest, keep) == (if keep(item) then [item] else []) + Filter(rest, keep)
  {
    FilterConcat([item], rest, keep);
    FilterOne(item, keep);
  }

  /** What a pass over `queue` does: the items on the page's host are submitted, in queue order, and the others
      stay behind the deferred ones, in queue order. */
  ghost predicate InOrder(host: string, base: nat, queue: seq<Item>, log: seq<Submission>, deferred: seq<Item>,
                          pending: seq<Item>, log2: seq<Submission>) {
    && pending == deferred + OffHost(queue, host)
    && base < |log| && base < |log2|
    && SubmittedInOrder(log2, base) == SubmittedInOrder(log, base) + UrlsInOrder(OnHost(queue, host))
  }

  lemma DeferInOrder(host: string, base: nat, item: Item, rest: seq<Item>, log: seq<Submission>, deferred: seq<Item>,
                     pending: seq<Item>, log2: seq<Submission>)
    requires !HostTest(host)(item) && OtherTest(host)(item)
    requires InOrder(host, base, rest, log, deferred + [item], pending, log2)
    ensures InOrder(host, base, [item] + rest, log, deferred, pending, log2)
  {
    FilterHead(item, rest, HostTest(host));
    FilterHead(item, rest, OtherTest(host));
    DeferStep(deferred, item, OffHost(rest, host));
    assert [] + OnHost(rest, host) == OnHost(rest, host);
  }

  lemma SubmitInOrder(host: string, base: nat, item: Item, rest: seq<Item>, log: seq<Submission>, e: Submission,
                      deferred: seq<Item>, pending: seq<Item>, log2: seq<Submission>)
    requires HostTest(host)(item) && !OtherTest(host)(item) && e.url == item.url && base < |log|
    requires InOrder(host, base, rest, log + [e], deferred, pending, log2)
    ensures InOrder(host, base, [item] + rest, log, deferred, pending, log2)
  {
    FilterHead(item, rest, HostTest(host));
    FilterHead(item, rest, OtherTest(host));
    SubmittedSnoc(log, e, base);
    OrderStep(SubmittedInOrder(log, base), item, OnHost(rest, host));
    assert [] + OffHost(rest, host) == OffHost(rest, host);
  }

  /** One pass submits exactly the queued items on the page's host, and leaves exactly the others. */
  lemma {:induction false} DispatchAllOrder(x: Context, base: nat, from: nat, s: Sched, log: seq<Submission>,
                                            deferred: seq<Item>)
    requires FreshIds(x.answer) && Midway(x, base, from, s, log, deferred)
    ensures InOrder(x.connHost, base, s.pending, log, deferred,
                    DispatchAll(x, s, log, deferred).0.pending, DispatchAll(x, s, log, deferred).1)
    decreases |s.pending|
  {
    var (t, log2) := DispatchAll(x, s, log, deferred);
    if s.pending == [] {
      assert deferred + OffHost(s.pending, x.connHost) == deferred;
    } else {
      var item, tail := s.pending[0], s.(pending := s.pending[1..]);
      ItemNotDispatched(x, base, s, log, deferred);
      FirstOfPass(x, s, log, deferred);
      if !SameHost(item.url, x.connHost) {
        DeferKeepsMidway(x, base, from, tail, log, item, deferred);
        DispatchAllOrder(x, base, from, tail, log, deferred + [item]);
        DeferInOrder(x.connHost, base, item, tail.pending, log, deferred, t.pending, log2);
      } else {
        var e := Request(x, item, |log|);
        SubmitKeepsMidway(x, base, from, tail, log, item, e, deferred);
        DispatchAllOrder(x, base, from, AfterSubmit(tail, e.sid, item), log + [e], deferred);
        SubmitInOrder(x.connHost, base, item, tail.pending, log, e, deferred, t.pending, log2);
      }
    }
  }

  lemma DeferStep(deferred: seq<Item>, item: Item, rest: seq<Item>)
    ensures deferred + [item] + rest == deferred + ([item] + rest)
  {}

  lemma SubmittedSnoc(log: seq<Submission>, e: Submission, base: nat)
    requires base < |log|
    ensures SubmittedInOrder(log + [e], base) == SubmittedInOrder(log, base) + [e.url]
  {}

  lemma OrderStep(done: seq<string>, item: Item, rest: seq<Item>)
    ensures done + [item.url] + UrlsInOrder(rest) == done + UrlsInOrder([item] + rest)
  {}
}
