/** Which URLs are fetched after the page or the first plain fetch: told from the caller's options and from what
    the page left, without the lists that the fetch works through. */
module FurtherUrls {
  import opened Fetcher
  import opened Lifecycle
  import opened PageFetch
  import opened PageHop
  import opened PageLoop
  import opened Picking
  import opened Scheduler
  import opened SchedulerResults
  import opened SingleFetch
  import opened SubresourceScanner
  import opened Wrappers

  lemma {:induction false} FilterTakes(items: seq<Item>, keep: Item -> bool)
    ensures Chosen(Filter(items, keep), items, keep, Same())
    decreases |items|
  {
    if items == [] {
      ChooseNone(keep, Same());
    } else {
      var n := |items| - 1;
      FilterTakes(items[..n], keep);
      ChooseNext(Filter(items[..n], keep), Filter(items, keep), items, n, keep, Same());
    }
  }

  ghost function Same(): (Item, Item) -> bool {
    (a: Item, b: Item) => a == b
  }

  /** Result `f` was fetched for `url` after the page, found by `source`: the first turn is for that URL, unless the
      caller allows no turn at all. */
  ghost predicate FetchedAfter(env: Environment, opt: Options, url: string, source: string, f: Fetched,
                               hops: seq<HopRecord>) {
    && f.role == "subresource" && f.source == source && PlainFetch(env, opt, url, f, hops)
    && (opt.maxRedirects > 0 ==> hops != [] && hops[0].url == url)
  }

  /** No result so far is for the URL. */
  ghost predicate NotFetched(also: seq<Fetched>, url: string) {
    forall i :: 0 <= i < |also| ==> also[i].finalUrl != url
  }

  ghost function Left(also: seq<Fetched>, items: seq<Item>): nat -> bool {
    (i: nat) => i < |items| && NotFetched(also, items[i].url)
  }

  ghost function LeftUrl(also: seq<Fetched>, urls: seq<string>): nat -> bool {
    (i: nat) => i < |urls| && NotFetched(also, urls[i])
  }

  /** One result for each of the items that no result so far is for, in their order, and none besides. */
  ghost predicate ItemsServed(env: Environment, opt: Options, also: seq<Fetched>, items: seq<Item>, added: seq<Fetched>,
                              runs: seq<FetchRun>, idx: seq<nat>) {
    && Picks(idx, |items|, Left(also, items)) && |added| == |runs| == |idx|
    && forall j :: 0 <= j < |idx| ==>
         FetchedAfter(env, opt, items[idx[j]].url, items[idx[j]].source, added[j], runs[j].hops)
  }

  /** The same for the caller's own URLs. */
  ghost predicate UrlsServed(env: Environment, opt: Options, also: seq<Fetched>, urls: seq<string>, added: seq<Fetched>,
                             runs: seq<FetchRun>, idx: seq<nat>) {
    && Picks(idx, |urls|, LeftUrl(also, urls)) && |added| == |runs| == |idx|
    && forall j :: 0 <= j < |idx| ==> FetchedAfter(env, opt, urls[idx[j]], "manual", added[j], runs[j].hops)
  }

  lemma ExtrasServe(env: Environment, opt: Options, also: seq<Fetched>, items: seq<Item>, next: int,
                    added: seq<Fetched>, runs: seq<FetchRun>)
    requires Extras(Fit(env, opt), Filter(items, NotIn(FinalUrls(also))), next, added, runs)
    ensures exists idx :: ItemsServed(env, opt, also, items, added, runs, idx)
  {
    var keep := NotIn(FinalUrls(also));
    FilterTakes(items, keep);
    var idx :| ChosenAt(Filter(items, keep), items, keep, Same(), idx);
    SameWanted(also, items, idx);
    Matched(Fit(env, opt), Filter(items, keep), items, keep, idx, next, added, runs);
    Serve(env, opt, also, items, next, added, runs, idx);
  }

  lemma Serve(env: Environment, opt: Options, also: seq<Fetched>, items: seq<Item>, next: int, added: seq<Fetched>,
              runs: seq<FetchRun>, idx: seq<nat>)
    requires Picks(idx, |items|, Left(also, items)) && |idx| == |added| == |runs|
    requires forall j :: 0 <= j < |idx| ==> Fit(env, opt)(items[idx[j]], next + j, added[j], runs[j].hops)
    ensures ItemsServed(env, opt, also, items, added, runs, idx)
  {
    forall j | 0 <= j < |idx|
      ensures FetchedAfter(env, opt, items[idx[j]].url, items[idx[j]].source, added[j], runs[j].hops)
    {
      FitIsFetched(env, opt, items[idx[j]], next + j, added[j], runs[j].hops);
    }
  }

  lemma Matched(fit: Fitting, taken: seq<Item>, items: seq<Item>, keep: Item -> bool, idx: seq<nat>, next: int,
                added: seq<Fetched>, runs: seq<FetchRun>)
    requires ChosenAt(taken, items, keep, Same(), idx) && Extras(fit, taken, next, added, runs)
    ensures |idx| == |added| == |runs|
    ensures forall j :: 0 <= j < |idx| ==> idx[j] < |items| && fit(items[idx[j]], next + j, added[j], runs[j].hops)
  {
    forall j | 0 <= j < |idx| ensures idx[j] < |items| && fit(items[idx[j]], next + j, added[j], runs[j].hops) {
      assert Same()(items[idx[j]], taken[j]);
    }
  }

  lemma FitIsFetched(env: Environment, opt: Options, item: Item, n: int, f: Fetched, hops: seq<HopRecord>)
    requires Fit(env, opt)(item, n, f, hops)
    ensures FetchedAfter(env, opt, item.url, item.source, f, hops)
  {}

  lemma SameWanted(also: seq<Fetched>, items: seq<Item>, idx: seq<nat>)
    requires Picks(idx, |items|, At(items, NotIn(FinalUrls(also))))
    ensures Picks(idx, |items|, Left(also, items))
  {
    forall i: nat | i < |items| ensures At(items, NotIn(FinalUrls(also)))(i) <==> Left(also, items)(i) {
      FetchedOrNot(also, items[i].url);
    }
  }

  lemma FetchedOrNot(also: seq<Fetched>, url: string)
    ensures url !in FinalUrls(also) <==> NotFetched(also, url)
  {
    if !NotFetched(also, url) {
      var i :| 0 <= i < |also| && also[i].finalUrl == url;
      assert also[i] in also;
    }
  }

  lemma ManualServed(env: Environment, opt: Options, also: seq<Fetched>, urls: seq<string>, next: int,
                     added: seq<Fetched>, runs: seq<FetchRun>)
    requires Extras(Fit(env, opt), Filter(Manual(urls), NotIn(FinalUrls(also))), next, added, runs)
    ensures exists idx :: UrlsServed(env, opt, also, urls, added, runs, idx)
  {
    ExtrasServe(env, opt, also, Manual(urls), next, added, runs);
    var idx :| ItemsServed(env, opt, also, Manual(urls), added, runs, idx);
    SameLeft(also, urls, idx);
    assert UrlsServed(env, opt, also, urls, added, runs, idx);
  }

  lemma SameLeft(also: seq<Fetched>, urls: seq<string>, idx: seq<nat>)
    requires Picks(idx, |Manual(urls)|, Left(also, Manual(urls)))
    ensures Picks(idx, |urls|, LeftUrl(also, urls))
  {
    assert forall i: nat :: i < |urls| ==> (Left(also, Manual(urls))(i) <==> LeftUrl(also, urls)(i));
  }

  lemma ExtrasApart(fit: Fitting, a: seq<Item>, b: seq<Item>, next: int, added: seq<Fetched>, runs: seq<FetchRun>)
    requires Extras(fit, a + b, next, added, runs)
    ensures Extras(fit, a, next, added[..|a|], runs[..|a|])
    ensures Extras(fit, b, next + |a|, added[|a|..], runs[|a|..])
  {
    forall i | 0 <= i < |a|
      ensures fit(a[i], next + i, added[..|a|][i], runs[..|a|][i].hops) && added[..|a|][i].requestSeq == next + i
    {
      assert fit((a + b)[i], next + i, added[i], runs[i].hops);
    }
    forall i | 0 <= i < |b|
      ensures fit(b[i], next + |a| + i, added[|a|..][i], runs[|a|..][i].hops)
      ensures added[|a|..][i].requestSeq == next + |a| + i
    {
      assert fit((a + b)[|a| + i], next + (|a| + i), added[|a| + i], runs[|a| + i].hops);
    }
  }

  /** What is fetched after a page: first the items that the page left in its queue, then the caller's further URLs. */
  ghost predicate ServedAfter(env: Environment, opt: Options, pending: seq<Item>, also: seq<Fetched>,
                              added: seq<Fetched>, runs: seq<FetchRun>, n: nat) {
    && n <= |added| && n <= |runs|
    && (exists idx :: ItemsServed(env, opt, also, pending, added[..n], runs[..n], idx))
    && (exists idx :: UrlsServed(env, opt, also, opt.alsoFetch, added[n..], runs[n..], idx))
  }

  /** A page fetch that finishes adds to the results of its last hop exactly these: one for each item in the queue and
      then one for each of the caller's further URLs, in order, but none for a URL that has a result already. */
  lemma FinishedServes(env: Environment, opt: Options, pages: seq<PageRecord>, end: PageEnd, primary: Fetched,
                       also: seq<Fetched>)
    requires PageFetched(env, opt, pages, end, primary, also) && end.Finished?
    ensures var s := EndHop(env.dec, pages[|pages| - 1]).s;
            && also == s.also + end.added
            && exists n :: ServedAfter(env, opt, s.pending, s.also, end.added, end.runs, n)
  {
    var s := EndHop(env.dec, pages[|pages| - 1]).s;
    RemainingServes(env, opt, s.pending, s.also, s.nextSeq, end.added, end.runs);
  }

  lemma RemainingServes(env: Environment, opt: Options, pending: seq<Item>, also: seq<Fetched>, next: int,
                        added: seq<Fetched>, runs: seq<FetchRun>)
    requires Extras(Fit(env, opt), Remaining(opt, pending, also), next, added, runs)
    ensures exists n :: ServedAfter(env, opt, pending, also, added, runs, n)
  {
    var a, b := Filter(pending, NotIn(FinalUrls(also))), Filter(Manual(opt.alsoFetch), NotIn(FinalUrls(also)));
    ExtrasApart(Fit(env, opt), a, b, next, added, runs);
    ExtrasServe(env, opt, also, pending, next, added[..|a|], runs[..|a|]);
    ManualServed(env, opt, also, opt.alsoFetch, next + |a|, added[|a|..], runs[|a|..]);
    assert ServedAfter(env, opt, pending, also, added, runs, |a|);
  }

  // ---------- A plain batch ----------

  /** One plain fetch per URL, in order. */
  ghost predicate EachFetched(env: Environment, opt: Options, urls: seq<string>, results: seq<Fetched>,
                              runs: seq<FetchRun>) {
    && |results| == |urls| == |runs|
    && forall i :: 0 <= i < |urls| ==> PlainFetch(env, opt, urls[i], results[i], runs[i].hops)
  }

  /** After the primary of a plain batch come the caller's further URLs; if there are none and the caller asked for it,
      the challenge scripts of the page; and nothing if the primary is no response. */
  lemma PlainServes(env: Environment, opt: Options, primary: Fetched, also: seq<Fetched>, runs: seq<FetchRun>)
    requires PlainBatch(env, opt, primary, also, runs)
    ensures runs != [] && PlainFetch(env, opt, opt.url, primary, runs[0].hops)
    ensures !primary.ok ==> also == []
    ensures primary.ok && (opt.alsoFetch != [] || !opt.autoScripts) ==>
              EachFetched(env, opt, opt.alsoFetch, also, runs[1..])
    ensures primary.ok && opt.alsoFetch == [] && opt.autoScripts ==>
              EachFetched(env, opt, opt.challenge(primary.resp.body, primary.finalUrl), also, runs[1..])
  {
    Apart(FetchedFor(env, opt), opt.url, if primary.ok then ExtraUrls(opt, primary) else [], primary, also, runs);
    if primary.ok {
      EachIsFetched(env, opt, ExtraUrls(opt, primary), also, runs[1..]);
    }
  }

  lemma Apart(fetched: Fetching, url: string, urls: seq<string>, f: Fetched, results: seq<Fetched>, runs: seq<FetchRun>)
    requires AllFetched(fetched, [url] + urls, [f] + results, runs)
    ensures runs != [] && fetched(url, f, runs[0].hops) && AllFetched(fetched, urls, results, runs[1..])
  {
    var us, rs := [url] + urls, [f] + results;
    assert fetched(us[0], rs[0], runs[0].hops);
    forall i | 0 <= i < |urls| ensures fetched(urls[i], results[i], runs[1..][i].hops) {
      assert fetched(us[i + 1], rs[i + 1], runs[i + 1].hops);
    }
  }

  lemma EachIsFetched(env: Environment, opt: Options, urls: seq<string>, results: seq<Fetched>, runs: seq<FetchRun>)
    requires AllFetched(FetchedFor(env, opt), urls, results, runs)
    ensures EachFetched(env, opt, urls, results, runs)
  {
    forall i | 0 <= i < |urls| ensures PlainFetch(env, opt, urls[i], results[i], runs[i].hops) {
      assert FetchedFor(env, opt)(urls[i], results[i], runs[i].hops);
    }
  }
}
