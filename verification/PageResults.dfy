/** What a caller can tell from the result of a page fetch. */
module PageResults {
  import Catalog
  import opened Http2Client
  import opened Lifecycle
  import opened PageAnswers
  import opened PageFetch
  import opened PageHop
  import opened PageLoop
  import opened PageRun
  import opened Scheduler
  import opened SchedulerInvariant
  import opened SchedulerResults
  import opened SingleFetch
  import opened SubresourceScanner
  import opened UrlParser
  import opened Wrappers

  // ---------- A clean last hop ----------

  /** The hop's run had ids that only grow, ended open streams only, saw neither GOAWAY nor redirect, and stopped. */
  ghost predicate Clean(dec: Decoders, r: PageRecord) {
    && Admits(dec, r) && PlainRun(r.x, dec, r.start, r.events)
    && !EndHop(dec, r).c.running
  }

  ghost predicate Admits(dec: Decoders, r: PageRecord) {
    FreshIds(r.x.answer) && Admissible(r.x, dec, r.start, r.events)
  }

  lemma NumberedOneMore(also: seq<Fetched>, from: nat, n: int, f: Fetched)
    requires NumberedOnce(also, from, n) && f.requestSeq == n + 1
    ensures NumberedOnce(also + [f], from, n + 1)
  {
    var more := also + [f];
    forall r | 1 <= r <= n + 1 ensures HasNumber(more, from, r) {
      if r <= n {
        assert HasNumber(also, from, r);
        var j :| from <= j < |also| && also[j].requestSeq == r;
        assert more[j].requestSeq == r;
      } else {
        assert more[|also|].requestSeq == r;
      }
    }
  }

  lemma {:induction false} NumberedRun(also: seq<Fetched>, from: nat, n: int, added: seq<Fetched>)
    requires NumberedOnce(also, from, n) && Consecutive(n + 1, added)
    ensures NumberedOnce(also + added, from, n + |added|)
    decreases |added|
  {
    if added == [] {
      assert also + added == also;
    } else {
      var k := |added| - 1;
      NumberedRun(also, from, n, added[..k]);
      NumberedOneMore(also + added[..k], from, n + k, added[k]);
      assert also + added[..k] + [added[k]] == also + added;
    }
  }

  /** What a clean last hop leaves the caller with: the page under number 0, one result per accepted submission,
      per queued URL of another host and per manual URL, and the numbers 1 to n each once. The page and the
      results of the hop hold the responses of their own streams, and no stream of the hop is left open. */
  ghost predicate PageResult(env: Environment, opt: Options, r: PageRecord, primary: Fetched, also: seq<Fetched>,
                             added: seq<Fetched>, runs: seq<FetchRun>) {
    var t := EndHop(env.dec, r);
    && PrimaryResult(r.x, primary) && CleanEnd(env.dec, r)
    && primary == t.s.primary && also == t.s.also + added
    && Extras(Fit(env, opt), Remaining(opt, t.s.pending, t.s.also), t.s.nextSeq, added, runs)
    && NumberedOnce(also, r.from, |also| - r.from)
  }

  ghost predicate PrimaryResult(x: Context, primary: Fetched) {
    && primary.ok && primary.error == Fine && primary.requestSeq == 0
    && primary.finalUrl == x.pageUrl && primary.sid == x.primarySid
  }

  ghost predicate CleanEnd(dec: Decoders, r: PageRecord) {
    var t := EndHop(dec, r);
    && t.c.redirectUrl == ""
    && PageComplete(r.x, r.base, r.from, t.s, t.log, Offered(r.x, dec, r.start, r.events))
    && AllAnswer(dec, r.events, r.from, t.s)
    && EndsOnce(r.events) && EndedSids(r.events) == StreamsOf(t.log, r.base)
  }

  /** A clean hop neither fails nor redirects, is a complete page whose results are answers, and leaves no stream
      open. */
  lemma CleanIsComplete(env: Environment, opt: Options, url: string, primary: Fetched, also: seq<Fetched>,
                        r: PageRecord)
    requires PageStart(opt, url, primary, also, r) && Clean(env.dec, r)
    ensures CleanEnd(env.dec, r)
  {
    FinishedPage(r.x, env.dec, r.base, r.from, r.start, r.events);
    PlainRunStopsWhenAllEnded(r.x, env.dec, r.base, r.from, r.start, r.events);
    FinishedPageAnswers(r.x, env.dec, r.base, r.from, r.start, r.events);
  }

  lemma NumbersOfComplete(x: Context, base: nat, from: nat, s: Sched, log: seq<Submission>, offered: seq<Item>,
                          fit: Fitting, items: seq<Item>, added: seq<Fetched>, runs: seq<FetchRun>)
    requires PageComplete(x, base, from, s, log, offered) && Extras(fit, items, s.nextSeq, added, runs)
    ensures PrimaryResult(x, s.primary) && NumberedOnce(s.also + added, from, |s.also + added| - from)
  {
    NumberedRun(s.also, from, s.nextSeq - 1, added);
  }

  lemma CleanResult(env: Environment, opt: Options, url: string, primary: Fetched, also: seq<Fetched>, r: PageRecord,
                    added: seq<Fetched>, runs: seq<FetchRun>)
    requires PageStart(opt, url, primary, also, r) && Clean(env.dec, r)
    requires var s := EndHop(env.dec, r).s;
             Extras(Fit(env, opt), Remaining(opt, s.pending, s.also), s.nextSeq, added, runs)
    ensures PageResult(env, opt, r, EndHop(env.dec, r).s.primary, EndHop(env.dec, r).s.also + added, added, runs)
  {
    CleanIsComplete(env, opt, url, primary, also, r);
    var t := EndHop(env.dec, r);
    NumbersOfComplete(r.x, r.base, r.from, t.s, t.log, Offered(r.x, env.dec, r.start, r.events),
                      Fit(env, opt), Remaining(opt, t.s.pending, t.s.also), added, runs);
  }

  lemma StartOfLast(env: Environment, opt: Options, pages: seq<PageRecord>)
    returns (url: string, primary: Fetched, also: seq<Fetched>)
    requires PageChain(env, opt, pages) && pages != []
    ensures PageStart(opt, url, primary, also, pages[|pages| - 1])
    ensures (primary, also) == RecordedSoFar(env.dec, pages[..|pages| - 1])
  {
    var n := |pages| - 1;
    var recorded := RecordedSoFar(env.dec, pages[..n]);
    url, primary, also := NextUrl(env.dec, opt, pages[..n]), recorded.0, recorded.1;
    LinkedAt(Begins(env, opt), Follows(env, opt), pages, n);
    if n > 0 {
      assert pages[..n][n - 1] == pages[n - 1];
    }
  }

  lemma ChainUpTo(env: Environment, opt: Options, pages: seq<PageRecord>, n: nat)
    requires PageChain(env, opt, pages) && n <= |pages|
    ensures PageChain(env, opt, pages[..n])
  {
    LinkedUpTo(Begins(env, opt), Follows(env, opt), pages, n);
  }

  lemma ConsecutiveHops(env: Environment, opt: Options, pages: seq<PageRecord>, i: nat)
    requires PageChain(env, opt, pages) && i + 1 < |pages|
    ensures PageFollows(env, opt, pages[i], pages[i + 1]) && RedirectExplained(env.dec, pages[i])
  {
    LinkedAt(Begins(env, opt), Follows(env, opt), pages, i);
    LinkedAt(Begins(env, opt), Follows(env, opt), pages, i + 1);
  }

  /** A clean last hop means that the page is done, and complete. */
  lemma CleanPageIsDone(env: Environment, opt: Options, pages: seq<PageRecord>, end: PageEnd, primary: Fetched,
                        also: seq<Fetched>)
    requires PageFetched(env, opt, pages, end, primary, also) && pages != [] && Clean(env.dec, pages[|pages| - 1])
    ensures end.Finished? && PageResult(env, opt, pages[|pages| - 1], primary, also, end.added, end.runs)
  {
    var r := pages[|pages| - 1];
    var url, p0, a0 := StartOfLast(env, opt, pages);
    CleanIsComplete(env, opt, url, p0, a0, r);
    if end.Finished? {
      CleanResult(env, opt, url, p0, a0, r, end.added, end.runs);
    }
  }

  // ---------- Results that are ok and carry an error ----------

  /** Some hop of the fetch saw its page's stream end. */
  ghost predicate SomePageArrived(dec: Decoders, pages: seq<PageRecord>) {
    exists i :: 0 <= i < |pages| && EndHop(dec, pages[i]).s.primaryDone
  }

  /** What one hop records as the page: its own, once that has ended; until then, what was recorded before. */
  lemma PageOfHop(opt: Options, dec: Decoders, url: string, primary: Fetched, also: seq<Fetched>, r: PageRecord)
    requires PageStart(opt, url, primary, also, r)
    ensures PageAfter(dec, primary, r)
  {
    PrimaryIsPage(r.x, dec, r.start, r.events);
    PrimaryUntouched(r.x, dec, r.start, r.events);
  }

  ghost predicate PageAfter(dec: Decoders, primary: Fetched, r: PageRecord) {
    var s := EndHop(dec, r).s;
    if s.primaryDone then PrimaryResult(r.x, s.primary) else s.primary == primary
  }

  lemma PageOfLast(env: Environment, opt: Options, pages: seq<PageRecord>)
    requires PageChain(env, opt, pages) && pages != []
    ensures PageAfter(env.dec, RecordedSoFar(env.dec, pages[..|pages| - 1]).0, pages[|pages| - 1])
  {
    var url, p0, a0 := StartOfLast(env, opt, pages);
    PageOfHop(opt, env.dec, url, p0, a0, pages[|pages| - 1]);
  }

  lemma {:induction false} PageOfHops(env: Environment, opt: Options, pages: seq<PageRecord>)
    requires PageChain(env, opt, pages)
    ensures var f := RecordedSoFar(env.dec, pages).0;
            f.error == Fine && (f.ok <==> SomePageArrived(env.dec, pages))
    decreases |pages|
  {
    if pages != [] {
      var n := |pages| - 1;
      ChainUpTo(env, opt, pages, n);
      PageOfHops(env, opt, pages[..n]);
      PageOfLast(env, opt, pages);
      ArrivedOneMore(env.dec, pages, n);
    }
  }

  lemma ArrivedOneMore(dec: Decoders, pages: seq<PageRecord>, n: nat)
    requires |pages| == n + 1
    ensures SomePageArrived(dec, pages) <==> SomePageArrived(dec, pages[..n]) || EndHop(dec, pages[n]).s.primaryDone
  {
    if i :| 0 <= i < n && EndHop(dec, pages[..n][i]).s.primaryDone {
      assert EndHop(dec, pages[i]).s.primaryDone;
    }
    if i :| 0 <= i < n && EndHop(dec, pages[i]).s.primaryDone {
      assert EndHop(dec, pages[..n][i]).s.primaryDone;
    }
  }

  /** A page fetch returns a result that is ok and yet carries an error exactly when it did not finish, for whatever
      reason, after the page of one of its hops had arrived. */
  lemma OkWithError(env: Environment, opt: Options, pages: seq<PageRecord>, end: PageEnd, primary: Fetched,
                    also: seq<Fetched>)
    requires PageFetched(env, opt, pages, end, primary, also)
    ensures primary.ok && primary.error != Fine <==> !end.Finished? && SomePageArrived(env.dec, pages)
  {
    PageOfHops(env, opt, pages);
  }

  /** A page fetch that finishes returns the page of its last hop if that has ended, and else what an earlier hop
      left. */
  lemma FinishedReturns(env: Environment, opt: Options, pages: seq<PageRecord>, end: PageEnd, primary: Fetched,
                        also: seq<Fetched>)
    requires PageFetched(env, opt, pages, end, primary, also) && end.Finished?
    ensures var r := pages[|pages| - 1];
            if EndHop(env.dec, r).s.primaryDone then PrimaryResult(r.x, primary)
            else primary == Reported(RecordedSoFar(env.dec, pages[..|pages| - 1]).0)
  {
    PageOfLast(env, opt, pages);
  }

  // ---------- Where the next page URL comes from ----------

  lemma NextIsLocation(env: Environment, opt: Options, p: PageRecord, q: PageRecord, url: string, primary: Fetched,
                       also: seq<Fetched>)
    requires PageStart(opt, url, primary, also, p) && RedirectExplained(env.dec, p) && PageFollows(env, opt, p, q)
    requires EndsOnce(p.events)
    ensures MovedByRedirect(env.dec, p, q)
  {
    RedirectIsOwnExactly(p.x, env.dec, p.start, p.events);
    LastLeads(p.x.connHost, p.events);
  }

  /** The second hop asks for the resolved Location of the last redirect among the frames of the first; and that
      redirect is the page's own exactly when it is on the page's stream. */
  ghost predicate MovedByRedirect(dec: Decoders, p: PageRecord, q: PageRecord) {
    var k := LastRedirect(p.events, |p.events|);
    && k.Some? && q.x.pageUrl == LocationAt(p.x.connHost, p.events, k.value)
    && LedFrom(p.x.connHost, p.events, k.value, q.x.pageUrl)
    && (RedirectComesFrom(p.x, dec, p.start, p.events, p.x.primarySid) <==> p.events[k.value].sid == p.x.primarySid)
  }

  /** Every hop but the first asks for a URL that a stream of the hop before was redirected to, be it the page's
      or not. */
  lemma NextUrlIsLocation(env: Environment, opt: Options, pages: seq<PageRecord>, i: nat)
    requires PageChain(env, opt, pages) && i + 1 < |pages| && EndsOnce(pages[i].events)
    ensures MovedByRedirect(env.dec, pages[i], pages[i + 1])
  {
    ChainUpTo(env, opt, pages, i + 1);
    ConsecutiveHops(env, opt, pages, i);
    var url, p0, a0 := StartOfLast(env, opt, pages[..i + 1]);
    NextIsLocation(env, opt, pages[i], pages[i + 1], url, p0, a0);
  }

  /** A redirect to a whole URL leads to the host and the path that it names: the next hop asks there, on a
      connection to that host. */
  lemma NextHostIsNamed(env: Environment, opt: Options, pages: seq<PageRecord>, i: nat, c: Components)
    requires PageChain(env, opt, pages) && i + 1 < |pages| && EndsOnce(pages[i].events) && WellFormed(c)
    requires var k := LastRedirect(pages[i].events, |pages[i].events|);
             k.Some? && WholeAt(pages[i].events, k.value).headers["location"] == Print(c)
    ensures var q := pages[i + 1];
            q.x.pageUrl == Print(c) && q.x.connHost == c.host.name && q.on.u.path == if c.path == "" then "/"
                else c.path
  {
    NextUrlIsLocation(env, opt, pages, i);
    ConsecutiveHops(env, opt, pages, i);
    LinkedAt(Begins(env, opt), Follows(env, opt), pages, i + 1);
    WholeUrlIsFollowed(pages[i].x.connHost, c, pages[i + 1].x.pageUrl);
  }

  // ---------- Request numbers over several hops ----------

  ghost predicate DistinctNumbers(also: seq<Fetched>) {
    forall j, k :: 0 <= j < k < |also| ==> also[j].requestSeq != also[k].requestSeq
  }

  function Numbers(also: seq<Fetched>): set<int> {
    set f | f in also :: f.requestSeq
  }

  /** The numbers of the results that the hop itself has recorded. */
  function OwnNumbers(dec: Decoders, r: PageRecord): set<int> {
    var also := EndHop(dec, r).s.also;
    Numbers(if r.from <= |also| then also[r.from..] else [])
  }

  /** The results of one hop: what was recorded before is kept in place, and its own results carry different
      numbers, none below 1 and none above the number of requests that were accepted. */
  lemma NumbersOfHop(dec: Decoders, opt: Options, url: string, primary: Fetched, also: seq<Fetched>, r: PageRecord)
    requires PageStart(opt, url, primary, also, r) && Admits(dec, r)
    ensures OwnResults(dec, also, r)
  {
    ResultsKept(r.x, dec, r.start, r.events);
    StartHasInv(r.x, r.base, r.from, r.start);
    RunKeepsInv(r.x, dec, r.base, r.from, r.start, r.events);
    var t := EndHop(dec, r);
    NumbersInTable(r.base, r.from, t.s, t.log);
  }

  ghost predicate OwnResults(dec: Decoders, also: seq<Fetched>, r: PageRecord) {
    var t := EndHop(dec, r);
    && also <= t.s.also && r.from == |also| && r.base < |t.log| && DistinctNumbers(t.s.also[r.from..])
    && (forall v :: v in OwnNumbers(dec, r) ==> 1 <= v <= Accepted(t.log, r.base, |t.log|))
  }

  lemma NumbersInTable(base: nat, from: nat, s: Sched, log: seq<Submission>)
    requires ResultsOk(base, from, s, log) && base < |log| && from <= |s.also|
    ensures forall v :: v in Numbers(s.also[from..]) ==> 1 <= v <= Accepted(log, base, |log|)
    ensures DistinctNumbers(s.also[from..])
  {
    var own := s.also[from..];
    forall v | v in Numbers(own) ensures 1 <= v <= Accepted(log, base, |log|) {
      var j :| 0 <= j < |own| && own[j].requestSeq == v;
      NumberInRange(base, from, s, log, from + j);
    }
    forall j, k | 0 <= j < k < |own| ensures own[j].requestSeq != own[k].requestSeq {
      NumbersDiffer(base, from, s, log, from + j, from + k);
    }
  }

  lemma OwnOfLast(env: Environment, opt: Options, pages: seq<PageRecord>)
    requires PageChain(env, opt, pages) && pages != [] && Admits(env.dec, pages[|pages| - 1])
    ensures OwnResults(env.dec, RecordedSoFar(env.dec, pages[..|pages| - 1]).1, pages[|pages| - 1])
  {
    var url, p0, a0 := StartOfLast(env, opt, pages);
    NumbersOfHop(env.dec, opt, url, p0, a0, pages[|pages| - 1]);
  }

  lemma NumbersConcat(a: seq<Fetched>, b: seq<Fetched>)
    ensures Numbers(a + b) == Numbers(a) + Numbers(b)
  {
    var c := a + b;
    forall v | v in Numbers(a) + Numbers(b) ensures v in Numbers(c) {
      if v in Numbers(a) {
        var f :| f in a && f.requestSeq == v;
        assert f in c;
      } else {
        var f :| f in b && f.requestSeq == v;
        assert f in c;
      }
    }
  }

  lemma DistinctSplit(a: seq<Fetched>, b: seq<Fetched>)
    ensures DistinctNumbers(a + b) <==> DistinctNumbers(a) && DistinctNumbers(b) && Numbers(a) !! Numbers(b)
  {
    var c := a + b;
    assert forall j :: 0 <= j < |a| ==> c[j] == a[j];
    assert forall j :: 0 <= j < |b| ==> c[|a| + j] == b[j];
    if DistinctNumbers(c) {
      forall v | v in Numbers(a) ensures v !in Numbers(b) {
        var j :| 0 <= j < |a| && a[j].requestSeq == v;
        forall k | 0 <= k < |b| ensures b[k].requestSeq != v {
          assert c[j].requestSeq != c[|a| + k].requestSeq;
        }
      }
      forall j, k | 0 <= j < k < |b| ensures b[j].requestSeq != b[k].requestSeq {
        assert c[|a| + j].requestSeq != c[|a| + k].requestSeq;
      }
    } else if DistinctNumbers(a) && DistinctNumbers(b) {
      var j, k :| 0 <= j < k < |c| && c[j].requestSeq == c[k].requestSeq;
      assert j < |a| <= k;
      assert a[j] in a && b[k - |a|] in b;
      assert c[j].requestSeq in Numbers(a) && c[k].requestSeq in Numbers(b);
    }
  }

  /** No number is used by two of the hops. */
  ghost predicate Apart(owns: seq<set<int>>) {
    forall i, j :: 0 <= i < j < |owns| ==> owns[i] !! owns[j]
  }

  function OwnOfEach(dec: Decoders, pages: seq<PageRecord>): seq<set<int>> {
    if pages == [] then [] else OwnOfEach(dec, pages[..|pages| - 1]) + [OwnNumbers(dec, pages[|pages| - 1])]
  }

  function Union(owns: seq<set<int>>): set<int> {
    if owns == [] then {} else Union(owns[..|owns| - 1]) + owns[|owns| - 1]
  }

  lemma {:induction false} InUnion(owns: seq<set<int>>, v: int)
    ensures v in Union(owns) <==> exists i :: 0 <= i < |owns| && v in owns[i]
    decreases |owns|
  {
    if owns != [] {
      var before := owns[..|owns| - 1];
      InUnion(before, v);
      if i :| 0 <= i < |before| && v in before[i] {
        assert v in owns[i];
      }
      if i :| 0 <= i < |owns| - 1 && v in owns[i] {
        assert v in before[i];
      }
    }
  }

  lemma ApartOneMore(owns: seq<set<int>>, own: set<int>)
    ensures Apart(owns + [own]) <==> Apart(owns) && Union(owns) !! own
    ensures Union(owns + [own]) == Union(owns) + own
  {
    var more := owns + [own];
    assert more[..|owns|] == owns;
    forall v ensures v in Union(owns) <==> exists i :: 0 <= i < |owns| && v in owns[i] {
      InUnion(owns, v);
    }
    assert more[|owns|] == own;
    assert forall i :: 0 <= i < |owns| ==> more[i] == owns[i];
  }

  lemma NumbersOneMore(also: seq<Fetched>, more: seq<Fetched>, from: nat, owns: seq<set<int>>)
    requires also <= more && from == |also| && DistinctNumbers(more[from..])
    requires Numbers(also) == Union(owns) && (DistinctNumbers(also) <==> Apart(owns))
    ensures var own := Numbers(more[from..]);
            Numbers(more) == Union(owns + [own]) && (DistinctNumbers(more) <==> Apart(owns + [own]))
  {
    assert more == also + more[from..];
    DistinctSplit(also, more[from..]);
    NumbersConcat(also, more[from..]);
    ApartOneMore(owns, Numbers(more[from..]));
  }

  /** Over any hops: the results recorded carry different numbers exactly when no two hops use the same one. */
  lemma {:induction false} NumbersOfHops(env: Environment, opt: Options, pages: seq<PageRecord>)
    requires PageChain(env, opt, pages) && forall r :: r in pages ==> Admits(env.dec, r)
    ensures var also, owns := RecordedSoFar(env.dec, pages).1, OwnOfEach(env.dec, pages);
            Numbers(also) == Union(owns) && (DistinctNumbers(also) <==> Apart(owns))
    decreases |pages|
  {
    if pages != [] {
      var n := |pages| - 1;
      ChainUpTo(env, opt, pages, n);
      NumbersOfHops(env, opt, pages[..n]);
      OwnOfLast(env, opt, pages);
      NumbersOneMore(RecordedSoFar(env.dec, pages[..n]).1, EndHop(env.dec, pages[n]).s.also, pages[n].from,
                     OwnOfEach(env.dec, pages[..n]));
    }
  }

  lemma LastRestarts(kept: seq<Fetched>, also: seq<Fetched>, n: int, owns: seq<set<int>>)
    requires kept <= also && NumberedOnce(also, |kept|, n)
    requires Numbers(kept) == Union(owns) && (DistinctNumbers(kept) <==> Apart(owns))
    requires forall v :: v in Union(owns) ==> v >= 1
    ensures DistinctNumbers(also) <==> Apart(owns) && forall v :: v in Union(owns) ==> v > n
  {
    assert also == kept + also[|kept|..];
    DistinctSplit(kept, also[|kept|..]);
    NumbersOfRun(also, |kept|, n);
  }

  /** Results numbered 1 to n, each once. */
  lemma NumbersOfRun(also: seq<Fetched>, from: nat, n: int)
    requires NumberedOnce(also, from, n)
    ensures DistinctNumbers(also[from..]) && forall v :: v in Numbers(also[from..]) <==> 1 <= v <= n
  {
    var own := also[from..];
    forall v ensures v in Numbers(own) <==> 1 <= v <= n {
      if 1 <= v <= n {
        assert HasNumber(also, from, v);
        var j :| from <= j < |also| && also[j].requestSeq == v;
        assert own[j - from] in own;
      }
    }
  }

  lemma {:induction false} OwnArePositive(env: Environment, opt: Options, pages: seq<PageRecord>)
    requires PageChain(env, opt, pages) && forall r :: r in pages ==> Admits(env.dec, r)
    ensures forall v :: v in Union(OwnOfEach(env.dec, pages)) ==> v >= 1
    decreases |pages|
  {
    if pages != [] {
      var n := |pages| - 1;
      ChainUpTo(env, opt, pages, n);
      OwnArePositive(env, opt, pages[..n]);
      OwnOfLast(env, opt, pages);
      ApartOneMore(OwnOfEach(env.dec, pages[..n]), OwnNumbers(env.dec, pages[n]));
    }
  }

  /** Numbers start at 1 again after each redirect while the results of the hops before are kept. Over a whole
      page fetch whose last hop is clean, and all that is fetched after it: the last hop's results are numbered 1
      to n, and all numbers are distinct exactly when no two of the earlier hops use the same number and they use
      none up to n. */
  lemma NumbersRestart(env: Environment, opt: Options, pages: seq<PageRecord>, end: PageEnd, primary: Fetched,
                       also: seq<Fetched>)
    requires PageFetched(env, opt, pages, end, primary, also) && pages != [] && Clean(env.dec, pages[|pages| - 1])
    requires forall r :: r in pages ==> Admits(env.dec, r)
    ensures var before, last := pages[..|pages| - 1], pages[|pages| - 1];
            var n, owns := |also| - last.from, OwnOfEach(env.dec, before);
            && last.from <= |also| && also[..last.from] == RecordedSoFar(env.dec, before).1
            && NumberedOnce(also, last.from, n)
            && (DistinctNumbers(also) <==> Apart(owns) && forall v :: v in Union(owns) ==> v > n)
  {
    var before, last := pages[..|pages| - 1], pages[|pages| - 1];
    var kept := RecordedSoFar(env.dec, before).1;
    CleanPageIsDone(env, opt, pages, end, primary, also);
    ChainUpTo(env, opt, pages, |pages| - 1);
    OwnOfLast(env, opt, pages);
    NumbersOfHops(env, opt, before);
    OwnArePositive(env, opt, before);
    KeptToTheEnd(kept, EndHop(env.dec, last).s.also, end.added, also);
    LastRestarts(kept, also, |also| - last.from, OwnOfEach(env.dec, before));
  }

  lemma KeptToTheEnd(kept: seq<Fetched>, recorded: seq<Fetched>, added: seq<Fetched>, also: seq<Fetched>)
    requires kept <= recorded && also == recorded + added
    ensures kept <= also && also[..|kept|] == kept
  {}

  // ---------- One hop ----------

  /** A whole run of one clean hop: the page, the resources and the catalog carry the numbers 0 to the last, each
      once. */
  lemma ArtifactsNumberedOnce(env: Environment, opt: Options, pages: seq<PageRecord>, end: PageEnd, primary: Fetched,
                              also: seq<Fetched>, p: Catalog.Patterns, fetched: set<string>)
    requires PageFetched(env, opt, pages, end, primary, also) && |pages| == 1 && Clean(env.dec, pages[0])
    ensures Catalog.NumbersOk(Catalog.Numbers(primary.requestSeq, also,
              Catalog.CatalogOf(p, primary.resp.body, primary.finalUrl, fetched, primary.requestSeq, also)))
  {
    OneHopNumbers(env, opt, pages, end, primary, also);
    Catalog.NoNumberTwice(p, primary.resp.body, primary.finalUrl, fetched, also);
  }

  lemma OneHopNumbers(env: Environment, opt: Options, pages: seq<PageRecord>, end: PageEnd, primary: Fetched,
                      also: seq<Fetched>)
    requires PageFetched(env, opt, pages, end, primary, also) && |pages| == 1 && Clean(env.dec, pages[0])
    ensures primary.requestSeq == 0 && NumberedOnce(also, 0, |also|)
  {
    CleanPageIsDone(env, opt, pages, end, primary, also);
  }
}
