/** The incremental scanner for subresource URLs. The tag patterns are a parameter: a function from a
    window of the document to the ordered list of candidates found in it. */
module SubresourceScanner {
  import opened Picking
  import opened Resolver

  datatype Candidate = Candidate(src: string, source: string)
  datatype Item = Item(url: string, source: string)

  type Extractor = string -> seq<Candidate>

  const TAIL_GUARD: nat := 2048

  // ---------- Fetchable candidates ----------

  function ToLower(c: char): char {
    if 'A' <= c <= 'Z' then c - 'A' + 'a' else c
  }

  predicate CiStartsWith(s: string, prefix: string) {
    |prefix| <= |s| && forall i :: 0 <= i < |prefix| ==> ToLower(s[i]) == prefix[i]
  }

  predicate IsFetchable(src: string) {
    && src != "" && src[0] != '#'
    && !CiStartsWith(src, "data:") && !CiStartsWith(src, "blob:") && !CiStartsWith(src, "javascript:")
    && !CiStartsWith(src, "vbscript:") && !CiStartsWith(src, "mailto:") && !CiStartsWith(src, "tel:")
  }

  /** Two texts that differ in the case of letters only; `lower` is in lower case. */
  ghost predicate SameButCase(lower: string, s: string) {
    && |lower| == |s|
    && forall i :: 0 <= i < |s| ==> s[i] == lower[i] || ('A' <= s[i] <= 'Z' && s[i] as int + 32 == lower[i] as int)
  }

  ghost predicate BeginsLike(s: string, lower: string) {
    |lower| <= |s| && SameButCase(lower, s[..|lower|])
  }

  lemma BeginsLikeIs(s: string, lower: string)
    requires forall i :: 0 <= i < |lower| ==> !('A' <= lower[i] <= 'Z')
    ensures CiStartsWith(s, lower) <==> BeginsLike(s, lower)
  {}

  /** Exactly empty sources, fragments and the six schemes that cannot be fetched are passed over, in whatever case. */
  lemma FetchableExactly(src: string)
    ensures IsFetchable(src) <==>
            && src != "" && src[0] != '#'
            && !BeginsLike(src, "data:") && !BeginsLike(src, "blob:") && !BeginsLike(src, "javascript:")
            && !BeginsLike(src, "vbscript:") && !BeginsLike(src, "mailto:") && !BeginsLike(src, "tel:")
  {
    BeginsLikeIs(src, "data:");
    BeginsLikeIs(src, "blob:");
    BeginsLikeIs(src, "javascript:");
    BeginsLikeIs(src, "vbscript:");
    BeginsLikeIs(src, "mailto:");
    BeginsLikeIs(src, "tel:");
  }

  // ---------- De-duplication under the cap ----------

  datatype Resolved = Resolved(out: seq<Item>, seen: set<string>, found: nat)

  predicate Capped(max: int, found: nat) {
    max > 0 && found >= max
  }

  function ResolveNew(raw: seq<Candidate>, page: string, seen: set<string>, max: int, found: nat): Resolved {
    if raw == [] then Resolved([], seen, found)
    else
      var abs := ResolveUrl(raw[0].src, page);
      if !IsFetchable(raw[0].src) || abs in seen then ResolveNew(raw[1..], page, seen, max, found)
      else if Capped(max, found + 1) then Resolved([Item(abs, raw[0].source)], seen + {abs}, found + 1)
      else
        var rest := ResolveNew(raw[1..], page, seen + {abs}, max, found + 1);
        Resolved([Item(abs, raw[0].source)] + rest.out, rest.seen, rest.found)
  }

  method ResolveNewCandidates(raw: seq<Candidate>, page: string, seen0: set<string>, max: int, found0: nat)
    returns (out: seq<Item>, seen: set<string>, found: nat)
    ensures Resolved(out, seen, found) == ResolveNew(raw, page, seen0, max, found0)
  {
    out, seen, found := [], seen0, found0;
    var i := 0;
    while i < |raw|
      invariant i <= |raw|
      invariant var rest := ResolveNew(raw[i..], page, seen, max, found);
                ResolveNew(raw, page, seen0, max, found0) == Resolved(out + rest.out, rest.seen, rest.found)
    {
      var c := raw[i];
      assert raw[i..][1..] == raw[i + 1..];
      i := i + 1;
      if !IsFetchable(c.src) { continue; }
      var abs := ResolveUrl(c.src, page);
      if abs in seen { continue; }
      seen := seen + {abs};
      out := out + [Item(abs, c.source)];
      found := found + 1;
      if max > 0 && found >= max { break; }
    }
  }

  function Urls(items: seq<Item>): set<string> {
    set it | it in items :: it.url
  }

  ghost predicate Distinct(items: seq<Item>) {
    forall i, j :: 0 <= i < j < |items| ==> items[i].url != items[j].url
  }

  /** The URLs a list of candidates stands for. */
  function AbsUrls(raw: seq<Candidate>, page: string): set<string> {
    set c | c in raw && IsFetchable(c.src) :: ResolveUrl(c.src, page)
  }

  lemma UrlsOfConcat(a: seq<Item>, b: seq<Item>)
    ensures Urls(a + b) == Urls(a) + Urls(b)
  {
    forall u | u in Urls(a) + Urls(b) ensures u in Urls(a + b) {
      if it :| it in a && it.url == u {
        assert it in a + b;
      } else {
        var it2 :| it2 in b && it2.url == u;
        assert it2 in a + b;
      }
    }
  }

  lemma AbsUrlsStep(raw: seq<Candidate>, page: string)
    requires raw != []
    ensures AbsUrls(raw, page)
            == AbsUrls(raw[1..], page) + (if IsFetchable(raw[0].src) then {ResolveUrl(raw[0].src, page)} else {})
  {
    assert raw == [raw[0]] + raw[1..];
    forall u | u in AbsUrls(raw[1..], page) ensures u in AbsUrls(raw, page) {
      var c :| c in raw[1..] && IsFetchable(c.src) && ResolveUrl(c.src, page) == u;
      assert c in raw;
    }
    assert raw[0] in raw;
  }

  /** Each new URL once, none of the old ones. */
  ghost predicate NewItems(r: Resolved, seen: set<string>, found: nat) {
    Distinct(r.out) && Urls(r.out) !! seen && r.seen == seen + Urls(r.out) && r.found == found + |r.out|
  }

  lemma NewItemsFront(it: Item, rest: Resolved, seen: set<string>, found: nat)
    requires it.url !in seen && NewItems(rest, seen + {it.url}, found + 1)
    ensures NewItems(Resolved([it] + rest.out, rest.seen, rest.found), seen, found)
  {
    UrlsOfConcat([it], rest.out);
    UrlsOfOne(it);
    HeadIsNew(it, rest.out);
  }

  /** What one pass returns: each new URL once, none of the old ones, never more than the cap allows. */
  lemma {:induction false} ResolveNewIsNew(raw: seq<Candidate>, page: string, seen: set<string>, max: int, found: nat)
    ensures var r := ResolveNew(raw, page, seen, max, found);
            NewItems(r, seen, found) && (!Capped(max, found) ==> max <= 0 || r.found <= max)
    decreases |raw|
  {
    if raw != [] {
      var it := Item(ResolveUrl(raw[0].src, page), raw[0].source);
      if !IsFetchable(raw[0].src) || it.url in seen {
        ResolveNewIsNew(raw[1..], page, seen, max, found);
      } else if !Capped(max, found + 1) {
        ResolveNewIsNew(raw[1..], page, seen + {it.url}, max, found + 1);
        NewItemsFront(it, ResolveNew(raw[1..], page, seen + {it.url}, max, found + 1), seen, found);
      } else {
        UrlsOfOne(it);
      }
    }
  }

  lemma UrlsOfOne(it: Item)
    ensures Urls([it]) == {it.url}
  {
    assert it in [it];
  }

  /** A pass returns only what the candidates stand for, and all of it unless the cap was reached. */
  lemma {:induction false} ResolveNewCovers(raw: seq<Candidate>, page: string, seen: set<string>, max: int, found: nat)
    ensures var r := ResolveNew(raw, page, seen, max, found);
            && r.seen <= seen + AbsUrls(raw, page)
            && (!Capped(max, r.found) ==> AbsUrls(raw, page) <= r.seen)
    decreases |raw|
  {
    if raw != [] {
      AbsUrlsStep(raw, page);
      var abs := ResolveUrl(raw[0].src, page);
      if !IsFetchable(raw[0].src) || abs in seen {
        ResolveNewCovers(raw[1..], page, seen, max, found);
        ResolveNewIsNew(raw[1..], page, seen, max, found);
      } else if !Capped(max, found + 1) {
        ResolveNewCovers(raw[1..], page, seen + {abs}, max, found + 1);
        ResolveNewIsNew(raw[1..], page, seen + {abs}, max, found + 1);
      }
    }
  }

  lemma ResolveNewMeaning(raw: seq<Candidate>, page: string, seen: set<string>, max: int, found: nat)
    ensures var r := ResolveNew(raw, page, seen, max, found);
            && Distinct(r.out) && Urls(r.out) !! seen && r.seen == seen + Urls(r.out)
            && r.found == found + |r.out|
            && (!Capped(max, found) ==> max <= 0 || r.found <= max)
            && Urls(r.out) <= AbsUrls(raw, page)
            && (!Capped(max, r.found) ==> AbsUrls(raw, page) <= r.seen)
  {
    ResolveNewIsNew(raw, page, seen, max, found);
    ResolveNewCovers(raw, page, seen, max, found);
  }

  lemma HeadIsNew(it: Item, rest: seq<Item>)
    requires Distinct(rest) && it.url !in Urls(rest)
    ensures Distinct([it] + rest)
  {
    forall j | 0 <= j < |rest| ensures rest[j].url != it.url {
      assert rest[j] in rest;
    }
  }

  /** Each returned item carries the source of a candidate that resolves to its URL. */
  lemma {:induction false} SourceIsFromCandidate(raw: seq<Candidate>, page: string, seen: set<string>, max: int,
                                                 found: nat, it: Item)
    requires it in ResolveNew(raw, page, seen, max, found).out
    ensures exists c :: c in raw && IsFetchable(c.src) && it == Item(ResolveUrl(c.src, page), c.source)
    decreases |raw|
  {
    var abs := ResolveUrl(raw[0].src, page);
    var first := Item(abs, raw[0].source);
    if !IsFetchable(raw[0].src) || abs in seen {
      SourceIsFromCandidate(raw[1..], page, seen, max, found, it);
    } else if it != first {
      SourceIsFromCandidate(raw[1..], page, seen + {abs}, max, found + 1, it);
    } else {
      assert raw[0] in raw;
    }
  }

  /** The URL that a candidate stands for, if it stands for one. */
  ghost function UrlFor(page: string): Candidate -> string {
    (c: Candidate) => ResolveUrl(c.src, page)
  }

  ghost function Fetchable(): Candidate -> bool {
    (c: Candidate) => IsFetchable(c.src)
  }

  /** The candidate at `k` is the first of a new URL. */
  ghost predicate IsNew(raw: seq<Candidate>, counts: Candidate -> bool, url: Candidate -> string, seen: set<string>,
                        k: nat) {
    && k < |raw| && counts(raw[k]) && url(raw[k]) !in seen
    && (forall i :: 0 <= i < k && counts(raw[i]) ==> url(raw[i]) != url(raw[k]))
  }

  ghost function NewAt(raw: seq<Candidate>, counts: Candidate -> bool, url: Candidate -> string, seen: set<string>)
    : nat -> bool
  {
    (k: nat) => IsNew(raw, counts, url, seen, k)
  }

  /** The items are those of the candidates at `idx`, in order. */
  ghost predicate ItemsAt(raw: seq<Candidate>, url: Candidate -> string, idx: seq<nat>, out: seq<Item>) {
    && |out| == |idx|
    && forall j :: 0 <= j < |idx| ==> idx[j] < |raw| && out[j] == Item(url(raw[idx[j]]), raw[idx[j]].source)
  }

  function SeenWith(seen: set<string>, c: Candidate, counts: Candidate -> bool, url: Candidate -> string): set<string> {
    seen + if counts(c) then {url(c)} else {}
  }

  lemma TailIsNew(raw: seq<Candidate>, counts: Candidate -> bool, url: Candidate -> string, seen: set<string>, k: nat)
    requires k + 1 < |raw|
    ensures IsNew(raw, counts, url, seen, k + 1)
            <==> IsNew(raw[1..], counts, url, SeenWith(seen, raw[0], counts, url), k)
  {
    var tail := raw[1..];
    assert forall i :: 0 <= i < |tail| ==> tail[i] == raw[i + 1];
    if IsNew(tail, counts, url, SeenWith(seen, raw[0], counts, url), k) {
      forall i | 0 <= i < k + 1 && counts(raw[i]) ensures url(raw[i]) != url(raw[k + 1]) {
        if i > 0 {
          assert tail[i - 1] == raw[i];
        }
      }
    }
  }

  /** The first items of a pass over `raw`, up to position `n`. */
  ghost predicate TakenUpTo(raw: seq<Candidate>, counts: Candidate -> bool, url: Candidate -> string, seen: set<string>,
                            n: nat, idx: seq<nat>, out: seq<Item>) {
    Picks(idx, n, NewAt(raw, counts, url, seen)) && n <= |raw| && ItemsAt(raw, url, idx, out)
  }

  lemma TakeHead(raw: seq<Candidate>, counts: Candidate -> bool, url: Candidate -> string, seen: set<string>, n: nat,
                 idx: seq<nat>, out: seq<Item>)
    requires raw != [] && TakenUpTo(raw[1..], counts, url, SeenWith(seen, raw[0], counts, url), n, idx, out)
    ensures var first := IsNew(raw, counts, url, seen, 0);
            TakenUpTo(raw, counts, url, seen, n + 1, (if first then [0] else []) + Later(idx),
                      (if first then [Item(url(raw[0]), raw[0].source)] else []) + out)
  {
    var tail, more := raw[1..], SeenWith(seen, raw[0], counts, url);
    forall k: nat | k < n ensures NewAt(tail, counts, url, more)(k) <==> NewAt(raw, counts, url, seen)(k + 1) {
      TailIsNew(raw, counts, url, seen, k);
    }
    PickFirst(idx, n, NewAt(tail, counts, url, more), NewAt(raw, counts, url, seen));
    HeadItems(raw, url, IsNew(raw, counts, url, seen, 0), idx, out);
  }

  lemma HeadItems(raw: seq<Candidate>, url: Candidate -> string, first: bool, idx: seq<nat>, out: seq<Item>)
    requires raw != [] && ItemsAt(raw[1..], url, idx, out)
    ensures ItemsAt(raw, url, (if first then [0] else []) + Later(idx),
                    (if first then [Item(url(raw[0]), raw[0].source)] else []) + out)
  {}

  /** One pass takes the first candidate of each new URL, in the order of the candidates, up to where the cap is
      reached. */
  ghost predicate TakenInOrder(raw: seq<Candidate>, counts: Candidate -> bool, url: Candidate -> string,
                               seen: set<string>,
                               max: int, found: nat, out: seq<Item>) {
    exists n: nat, idx: seq<nat> ::
      TakenUpTo(raw, counts, url, seen, n, idx, out) && (n == |raw| || (max > 0 && found + |out| >= max))
  }

  lemma TakenHead(raw: seq<Candidate>, counts: Candidate -> bool, url: Candidate -> string, seen: set<string>,
                  max: int, found: nat, out: seq<Item>)
    requires raw != []
    requires var first := IsNew(raw, counts, url, seen, 0);
             TakenInOrder(raw[1..], counts, url, SeenWith(seen, raw[0], counts, url), max, found + if first then 1
                          else 0, out)
    ensures var first := IsNew(raw, counts, url, seen, 0);
            TakenInOrder(raw, counts, url, seen, max, found,
                         (if first then [Item(url(raw[0]), raw[0].source)] else []) + out)
  {
    var first := IsNew(raw, counts, url, seen, 0);
    var n: nat, idx :| TakenUpTo(raw[1..], counts, url, SeenWith(seen, raw[0], counts, url), n, idx, out)
                       && (n == |raw[1..]| || (max > 0 && found + (if first then 1 else 0) + |out| >= max));
    TakeHead(raw, counts, url, seen, n, idx, out);
  }

  lemma TakenOnlyHead(raw: seq<Candidate>, counts: Candidate -> bool, url: Candidate -> string, seen: set<string>,
                      max: int, found: nat)
    requires raw != [] && IsNew(raw, counts, url, seen, 0) && max > 0 && found + 1 >= max
    ensures TakenInOrder(raw, counts, url, seen, max, found, [Item(url(raw[0]), raw[0].source)])
  {
    assert NewAt(raw, counts, url, seen)(0);
    assert TakenUpTo(raw, counts, url, seen, 1, [0], [Item(url(raw[0]), raw[0].source)]);
  }

  lemma PassStep(raw: seq<Candidate>, page: string, seen: set<string>, max: int, found: nat)
    requires raw != []
    ensures var counts, url := Fetchable(), UrlFor(page);
            var first, more := IsNew(raw, counts, url, seen, 0), SeenWith(seen, raw[0], counts, url);
            ResolveNew(raw, page, seen, max, found).out
            == (if first then [Item(url(raw[0]), raw[0].source)] else [])
               + if first && Capped(max, found + 1) then []
                 else ResolveNew(raw[1..], page, more, max, found + if first then 1 else 0).out
  {
    var counts, url := Fetchable(), UrlFor(page);
    if !IsNew(raw, counts, url, seen, 0) {
      assert SeenWith(seen, raw[0], counts, url) == seen;
    }
  }

  lemma {:induction false} ResolveNewInOrder(raw: seq<Candidate>, page: string, seen: set<string>, max: int, found: nat)
    ensures TakenInOrder(raw, Fetchable(), UrlFor(page), seen, max, found, ResolveNew(raw, page, seen, max, found).out)
    decreases |raw|
  {
    var counts, url := Fetchable(), UrlFor(page);
    if raw == [] {
      assert TakenUpTo(raw, counts, url, seen, 0, [], []);
    } else {
      var first, more := IsNew(raw, counts, url, seen, 0), SeenWith(seen, raw[0], counts, url);
      PassStep(raw, page, seen, max, found);
      if first && Capped(max, found + 1) {
        TakenOnlyHead(raw, counts, url, seen, max, found);
      } else {
        ResolveNewInOrder(raw[1..], page, more, max, found + if first then 1 else 0);
        TakenHead(raw, counts, url, seen, max, found,
                  ResolveNew(raw[1..], page, more, max, found + if first then 1 else 0).out);
      }
    }
  }

  /** Batch discovery over a whole document. */
  method DiscoverSubresourceUrls(extract: Extractor, html: string, page: string, max: int) returns (out: seq<Item>)
    ensures out == Discover(extract, html, page, max)
  {
    var seen, found;
    out, seen, found := ResolveNewCandidates(extract(html), page, {}, max, 0);
  }

  function Discover(extract: Extractor, html: string, page: string, max: int): seq<Item> {
    ResolveNew(extract(html), page, {}, max, 0).out
  }

  // ---------- The scanner ----------

  datatype Config = Config(extract: Extractor, page: string, max: int)
  datatype State = State(buffer: string, cursor: nat, seen: set<string>, found: nat)

  const INITIAL := State("", 0, {}, 0)

  function SafeEnd(received: nat): nat {
    if received > TAIL_GUARD then received - TAIL_GUARD else 0
  }

  function ScanWindow(c: Config, s: State, begin: nat, end: nat): (State, seq<Item>) {
    if begin >= end || end > |s.buffer| || Capped(c.max, s.found) then (s, [])
    else
      var r := ResolveNew(c.extract(s.buffer[begin..end]), c.page, s.seen, c.max, s.found);
      (s.(seen := r.seen, found := r.found), r.out)
  }

  function Feed(c: Config, s: State, chunk: string): (State, seq<Item>) {
    if chunk == "" || Capped(c.max, s.found) then (s, [])
    else
      var s1 := s.(buffer := s.buffer + chunk);
      var safeEnd := SafeEnd(|s1.buffer|);
      if safeEnd <= s1.cursor then (s1, [])
      else
        var (s2, out) := ScanWindow(c, s1, s1.cursor, safeEnd);
        (s2.(cursor := safeEnd), out)
  }

  function Finalize(c: Config, s: State): (State, seq<Item>) {
    if s.cursor >= |s.buffer| then (s, []) else ScanWindow(c, s, s.cursor, |s.buffer|)
  }

  class IncrementalSubresourceScanner {
    const config: Config
    var buffer: string
    var scanCursor: nat
    var seenAbs: set<string>
    var found: nat

    ghost function View(): State
      reads this
    {
      State(buffer, scanCursor, seenAbs, found)
    }

    constructor (config: Config)
      ensures this.config == config && View() == INITIAL
    {
      this.config := config;
      buffer, scanCursor, seenAbs, found := "", 0, {}, 0;
    }

    method ScanWindowAt(begin: nat, end: nat) returns (out: seq<Item>)
      modifies this
      ensures (View(), out) == ScanWindow(config, old(View()), begin, end)
    {
      if begin >= end || end > |buffer| {
        return [];
      }
      if config.max > 0 && found >= config.max {
        return [];
      }
      out, seenAbs, found :=
        ResolveNewCandidates(config.extract(buffer[begin..end]), config.page, seenAbs, config.max, found);
    }

    method FeedChunk(chunk: string) returns (out: seq<Item>)
      modifies this
      ensures (View(), out) == Feed(config, old(View()), chunk)
    {
      if chunk == "" {
        return [];
      }
      if config.max > 0 && found >= config.max {
        return [];
      }
      buffer := buffer + chunk;
      var safeEnd := if |buffer| > TAIL_GUARD then |buffer| - TAIL_GUARD else 0;
      if safeEnd <= scanCursor {
        return [];
      }
      out := ScanWindowAt(scanCursor, safeEnd);
      scanCursor := safeEnd;
    }

    method FinalizeScan() returns (out: seq<Item>)
      modifies this
      ensures (View(), out) == Finalize(config, old(View()))
    {
      if scanCursor >= |buffer| {
        return [];
      }
      out := ScanWindowAt(scanCursor, |buffer|);
    }
  }

  // ---------- What holds over a scanner's whole life ----------

  ghost predicate Inv(c: Config, s: State) {
    && s.cursor <= |s.buffer|
    && |s.seen| == s.found
    && (c.max > 0 ==> s.found <= c.max)
  }

  lemma DistinctCard(items: seq<Item>)
    requires Distinct(items)
    ensures |Urls(items)| == |items|
  {
    if items != [] {
      var n := |items| - 1;
      DistinctCard(items[..n]);
      assert items == items[..n] + [items[n]];
      UrlsOfConcat(items[..n], [items[n]]);
      assert Urls([items[n]]) == {items[n].url};
      assert items[n].url !in Urls(items[..n]);
    }
  }

  /** One operation returns only new URLs and keeps the invariant. */
  lemma ScanWindowStep(c: Config, s: State, begin: nat, end: nat)
    requires Inv(c, s)
    ensures var (t, out) := ScanWindow(c, s, begin, end);
            Inv(c, t) && Distinct(out) && Urls(out) !! s.seen && t.seen == s.seen + Urls(out)
  {
    if begin < end <= |s.buffer| && !Capped(c.max, s.found) {
      var raw := c.extract(s.buffer[begin..end]);
      ResolveNewMeaning(raw, c.page, s.seen, c.max, s.found);
      DistinctCard(ResolveNew(raw, c.page, s.seen, c.max, s.found).out);
    }
  }

  lemma FeedStep(c: Config, s: State, chunk: string)
    requires Inv(c, s)
    ensures var (t, out) := Feed(c, s, chunk);
            Inv(c, t) && Distinct(out) && Urls(out) !! s.seen && t.seen == s.seen + Urls(out)
  {
    if chunk != "" && !Capped(c.max, s.found) {
      var s1 := s.(buffer := s.buffer + chunk);
      ScanWindowStep(c, s1, s1.cursor, SafeEnd(|s1.buffer|));
    }
  }

  lemma FinalizeStep(c: Config, s: State)
    requires Inv(c, s)
    ensures var (t, out) := Finalize(c, s);
            Inv(c, t) && Distinct(out) && Urls(out) !! s.seen && t.seen == s.seen + Urls(out)
  {
    ScanWindowStep(c, s, s.cursor, |s.buffer|);
  }

  /** What is received and how far it has been scanned stay as they were: text that comes after a finalize is
      scanned as if there had been none, but for the URLs returned by it. */
  lemma FinalizeStaysAtCut(c: Config, s: State)
    ensures var t := Finalize(c, s).0; t.buffer == s.buffer && t.cursor == s.cursor
  {}

  datatype Op = FeedOp(chunk: string) | FinalizeOp

  function Apply(c: Config, s: State, op: Op): (State, seq<Item>) {
    if op.FeedOp? then Feed(c, s, op.chunk) else Finalize(c, s)
  }

  function RunOps(c: Config, ops: seq<Op>): (State, seq<Item>) {
    if ops == [] then (INITIAL, [])
    else
      var (s, items) := RunOps(c, ops[..|ops| - 1]);
      var (t, out) := Apply(c, s, ops[|ops| - 1]);
      (t, items + out)
  }

  /** Over any calls in any order: no URL is ever returned twice, the seen set is what was returned,
      and the number returned is the counter, which a positive cap bounds. */
  lemma {:induction false} ReturnedOnceWithinCap(c: Config, ops: seq<Op>)
    ensures var (s, items) := RunOps(c, ops);
            && Inv(c, s) && Distinct(items) && s.seen == Urls(items) && s.found == |items|
            && (c.max > 0 ==> |items| <= c.max)
    decreases |ops|
  {
    if ops != [] {
      var (s, items) := RunOps(c, ops[..|ops| - 1]);
      ReturnedOnceWithinCap(c, ops[..|ops| - 1]);
      var op := ops[|ops| - 1];
      if op.FeedOp? { FeedStep(c, s, op.chunk); } else { FinalizeStep(c, s); }
      var (t, out) := Apply(c, s, op);
      UrlsOfConcat(items, out);
      DistinctConcat(items, out);
      DistinctCard(items + out);
    }
  }

  lemma DistinctConcat(a: seq<Item>, b: seq<Item>)
    requires Distinct(a) && Distinct(b) && Urls(a) !! Urls(b)
    ensures Distinct(a + b)
  {
    forall i, j | 0 <= i < |a| && 0 <= j < |b| ensures a[i].url != b[j].url {
      assert a[i].url in Urls(a) && b[j].url in Urls(b);
    }
  }

  /** A second finalize returns nothing: its window holds nothing new, or the cap is reached. */
  lemma SecondFinalizeIsEmpty(c: Config, s: State)
    requires Inv(c, s)
    ensures var t := Finalize(c, s).0; Finalize(c, t) == (t, [])
  {
    var t := Finalize(c, s).0;
    FinalizeStep(c, s);
    if s.cursor < |s.buffer| && !Capped(c.max, t.found) {
      assert !Capped(c.max, s.found) by { FoundGrows(c, s); }
      var raw := c.extract(s.buffer[s.cursor..]);
      assert s.buffer[s.cursor..|s.buffer|] == s.buffer[s.cursor..];
      ResolveNewMeaning(raw, c.page, s.seen, c.max, s.found);
      NothingNew(raw, c.page, t.seen, c.max, t.found);
    }
  }

  lemma FoundGrows(c: Config, s: State)
    ensures Finalize(c, s).0.found >= s.found
  {
    if s.cursor < |s.buffer| {
      ResolveNewMeaning(c.extract(s.buffer[s.cursor..|s.buffer|]), c.page, s.seen, c.max, s.found);
    }
  }

  lemma {:induction false} NothingNew(raw: seq<Candidate>, page: string, seen: set<string>, max: int, found: nat)
    requires AbsUrls(raw, page) <= seen
    ensures ResolveNew(raw, page, seen, max, found) == Resolved([], seen, found)
    decreases |raw|
  {
    if raw != [] {
      AbsUrlsStep(raw, page);
      NothingNew(raw[1..], page, seen, max, found);
    }
  }

  // ---------- The windows tile the document ----------

  function Flatten(chunks: seq<string>): string {
    if chunks == [] then "" else Flatten(chunks[..|chunks| - 1]) + chunks[|chunks| - 1]
  }

  /** The windows that the arrival of `chunks` opens, each from the last cut to 2048 behind the received end. */
  function Windows(chunks: seq<string>): seq<string> {
    if chunks == [] then []
    else
      var before := Flatten(chunks[..|chunks| - 1]);
      var doc := Flatten(chunks);
      Windows(chunks[..|chunks| - 1])
      + if SafeEnd(|before|) < SafeEnd(|doc|) then [doc[SafeEnd(|before|)..SafeEnd(|doc|)]] else []
  }

  function AllWindows(chunks: seq<string>): seq<string> {
    var doc := Flatten(chunks);
    Windows(chunks) + if doc == "" then [] else [doc[SafeEnd(|doc|)..]]
  }

  lemma FlattenSnoc(ws: seq<string>, w: string)
    ensures Flatten(ws + [w]) == Flatten(ws) + w
  {
    assert (ws + [w])[..|ws|] == ws;
  }

  lemma {:induction false} WindowsReachTheCut(chunks: seq<string>)
    ensures Flatten(Windows(chunks)) == Flatten(chunks)[..SafeEnd(|Flatten(chunks)|)]
    decreases |chunks|
  {
    if chunks != [] {
      var prefix := chunks[..|chunks| - 1];
      WindowsReachTheCut(prefix);
      var before, doc := Flatten(prefix), Flatten(chunks);
      var a, b := SafeEnd(|before|), SafeEnd(|doc|);
      PrefixTake(before, chunks[|chunks| - 1], a);
      if a < b {
        FlattenSnoc(Windows(prefix), doc[a..b]);
        TakeSlice(doc, a, b);
      } else {
        assert Windows(chunks) == Windows(prefix);
      }
    }
  }

  lemma PrefixTake(s: string, t: string, n: nat)
    requires n <= |s|
    ensures (s + t)[..n] == s[..n]
  {}

  lemma TakeSlice(s: string, a: nat, b: nat)
    requires a <= b <= |s|
    ensures s[..a] + s[a..b] == s[..b]
  {}

  /** Read in order, the windows are the document: no gap and no overlap, whatever the chunking. */
  lemma WindowsTile(chunks: seq<string>)
    ensures Flatten(AllWindows(chunks)) == Flatten(chunks)
  {
    WindowsReachTheCut(chunks);
    var doc := Flatten(chunks);
    if doc == "" {
      assert AllWindows(chunks) == Windows(chunks);
    } else {
      FlattenSnoc(Windows(chunks), doc[SafeEnd(|doc|)..]);
      TakeSlice(doc, SafeEnd(|doc|), |doc|);
      assert doc[SafeEnd(|doc|)..|doc|] == doc[SafeEnd(|doc|)..];
    }
  }

  // ---------- Incremental scanning against batch scanning ----------

  function FeedAll(c: Config, chunks: seq<string>): (State, seq<Item>) {
    RunOps(c, seq(|chunks|, i requires 0 <= i < |chunks| => FeedOp(chunks[i])))
  }

  function Incremental(c: Config, chunks: seq<string>): seq<Item> {
    var (s, items) := FeedAll(c, chunks);
    items + Finalize(c, s).1
  }

  function WindowUrls(c: Config, ws: seq<string>): set<string> {
    if ws == [] then {}
    else WindowUrls(c, ws[..|ws| - 1]) + AbsUrls(c.extract(ws[|ws| - 1]), c.page)
  }

  lemma WindowUrlsSnoc(c: Config, ws: seq<string>, w: string)
    ensures WindowUrls(c, ws + [w]) == WindowUrls(c, ws) + AbsUrls(c.extract(w), c.page)
  {
    assert (ws + [w])[..|ws|] == ws;
  }

  lemma FeedAllStep(c: Config, chunks: seq<string>)
    requires chunks != []
    ensures var (s, items) := FeedAll(c, chunks[..|chunks| - 1]);
            var (t, out) := Feed(c, s, chunks[|chunks| - 1]);
            FeedAll(c, chunks) == (t, items + out)
  {
    var n := |chunks| - 1;
    var ops := seq(|chunks|, i requires 0 <= i < |chunks| => FeedOp(chunks[i]));
    assert ops[..n] == seq(n, i requires 0 <= i < n => FeedOp(chunks[..n][i]));
  }

  /** While the cap is not reached the buffer is the document so far, the cursor is the last cut, and the
      URLs returned are those of the windows; the cap can only cut this short. */
  lemma {:induction false} FeedAllMeaning(c: Config, chunks: seq<string>)
    ensures var (s, items) := FeedAll(c, chunks);
            && Inv(c, s) && s.seen == Urls(items) && Distinct(items)
            && Urls(items) <= WindowUrls(c, Windows(chunks))
            && (!Capped(c.max, s.found) ==>
                  && s.buffer == Flatten(chunks) && s.cursor == SafeEnd(|s.buffer|)
                  && Urls(items) == WindowUrls(c, Windows(chunks)))
    decreases |chunks|
  {
    ReturnedOnceWithinCap(c, seq(|chunks|, i requires 0 <= i < |chunks| => FeedOp(chunks[i])));
    if chunks != [] {
      var prefix, chunk := chunks[..|chunks| - 1], chunks[|chunks| - 1];
      FeedAllMeaning(c, prefix);
      FeedAllStep(c, chunks);
      var (s, items) := FeedAll(c, prefix);
      FeedCovers(c, s, chunk);
      var (t, out) := Feed(c, s, chunk);
      UrlsOfConcat(items, out);
      var doc := Flatten(chunks);
      var a, b := SafeEnd(|Flatten(prefix)|), SafeEnd(|doc|);
      if a < b {
        WindowUrlsSnoc(c, Windows(prefix), doc[a..b]);
      } else {
        assert Windows(chunks) == Windows(prefix);
      }
    }
  }

  lemma FeedCovers(c: Config, s: State, chunk: string)
    requires Inv(c, s) && (!Capped(c.max, s.found) ==> s.cursor == SafeEnd(|s.buffer|))
    ensures var (t, out) := Feed(c, s, chunk);
            && (Capped(c.max, s.found) ==> t == s && out == [])
            && (!Capped(c.max, s.found) ==>
                  && t.buffer == s.buffer + chunk && t.cursor == SafeEnd(|t.buffer|)
                  && (if s.cursor < t.cursor then
                        var w := AbsUrls(c.extract(t.buffer[s.cursor..t.cursor]), c.page);
                        Urls(out) <= w && (!Capped(c.max, t.found) ==> w <= t.seen)
                      else out == [] && t.seen == s.seen))
  {
    if !Capped(c.max, s.found) && chunk != "" {
      var buffer := s.buffer + chunk;
      if s.cursor < SafeEnd(|buffer|) {
        ResolveNewMeaning(c.extract(buffer[s.cursor..SafeEnd(|buffer|)]), c.page, s.seen, c.max, s.found);
      }
    } else if chunk == "" {
      assert s.buffer + chunk == s.buffer;
    }
  }

  lemma AllWindowUrls(c: Config, chunks: seq<string>)
    ensures var doc := Flatten(chunks);
            WindowUrls(c, AllWindows(chunks))
            == WindowUrls(c, Windows(chunks))
               + if doc == "" then {} else AbsUrls(c.extract(doc[SafeEnd(|doc|)..|doc|]), c.page)
  {
    var doc := Flatten(chunks);
    if doc == "" {
      assert AllWindows(chunks) == Windows(chunks);
    } else {
      WindowUrlsSnoc(c, Windows(chunks), doc[SafeEnd(|doc|)..]);
      assert doc[SafeEnd(|doc|)..|doc|] == doc[SafeEnd(|doc|)..];
    }
  }

  lemma FinalizeCovers(c: Config, s: State)
    requires Inv(c, s)
    ensures var (t, out) := Finalize(c, s);
            && (Capped(c.max, s.found) ==> t.found == s.found && out == [])
            && (!Capped(c.max, s.found) && s.cursor < |s.buffer| ==>
                  var w := AbsUrls(c.extract(s.buffer[s.cursor..|s.buffer|]), c.page);
                  Urls(out) <= w && (!Capped(c.max, t.found) ==> w <= t.seen))
            && (s.cursor == |s.buffer| ==> t == s && out == [])
  {
    if !Capped(c.max, s.found) && s.cursor < |s.buffer| {
      ResolveNewMeaning(c.extract(s.buffer[s.cursor..|s.buffer|]), c.page, s.seen, c.max, s.found);
    }
  }

  /** The URLs of an incremental scan are those of the windows, if the cap can hold them. */
  lemma IncrementalIsWindowUrls(c: Config, chunks: seq<string>)
    requires c.max <= 0 || |WindowUrls(c, AllWindows(chunks))| <= c.max
    ensures Urls(Incremental(c, chunks)) == WindowUrls(c, AllWindows(chunks))
  {
    FeedAllMeaning(c, chunks);
    var (s, items) := FeedAll(c, chunks);
    var (t, out) := Finalize(c, s);
    FinalizeStep(c, s);
    FinalizeCovers(c, s);
    UrlsOfConcat(items, out);
    AllWindowUrls(c, chunks);
    if Capped(c.max, t.found) {
      SubsetOfSameSize(t.seen, WindowUrls(c, AllWindows(chunks)));
    }
  }

  lemma SubsetOfSameSize(a: set<string>, b: set<string>)
    requires a <= b && |a| >= |b|
    ensures a == b
  {
    assert b == a + (b - a);
  }

  /** The URLs of a batch scan are those of the document, if the cap can hold them. */
  lemma BatchIsDocumentUrls(c: Config, html: string)
    requires c.max <= 0 || |AbsUrls(c.extract(html), c.page)| <= c.max
    ensures Urls(Discover(c.extract, html, c.page, c.max)) == AbsUrls(c.extract(html), c.page)
  {
    var raw := c.extract(html);
    ResolveNewMeaning(raw, c.page, {}, c.max, 0);
    var out := ResolveNew(raw, c.page, {}, c.max, 0).out;
    if Capped(c.max, |out|) {
      DistinctCard(out);
      SubsetOfSameSize(Urls(out), AbsUrls(raw, c.page));
    }
  }

  /** Incremental and batch scanning find the same URLs, for every chunking, exactly when the windows
      hold the same candidates as the document, that is, when no tag is lost or made up at a cut. */
  lemma IncrementalRefinesBatch(c: Config, chunks: seq<string>)
    requires c.max <= 0 || (&& |WindowUrls(c, AllWindows(chunks))| <= c.max
                            && |AbsUrls(c.extract(Flatten(chunks)), c.page)| <= c.max)
    ensures Urls(Incremental(c, chunks)) == Urls(Discover(c.extract, Flatten(chunks), c.page, c.max))
            <==> WindowUrls(c, AllWindows(chunks)) == AbsUrls(c.extract(Flatten(chunks)), c.page)
  {
    IncrementalIsWindowUrls(c, chunks);
    BatchIsDocumentUrls(c, Flatten(chunks));
  }

  // ---------- The cut, in characters ----------

  /** Below the cap, all that has been received is kept, and the scan has come up to exactly 2048 characters behind its
      end. */
  lemma CursorIs2048Behind(c: Config, chunks: seq<string>)
    ensures var (s, n) := (FeedAll(c, chunks).0, |Flatten(chunks)|);
            c.max <= 0 || s.found < c.max ==>
              s.buffer == Flatten(chunks) && s.cursor == if n <= 2048 then 0 else n - 2048
  {
    FeedAllMeaning(c, chunks);
  }

  /** What the windows have covered by then. */
  lemma WindowsEnd2048Behind(chunks: seq<string>)
    ensures var doc := Flatten(chunks);
            Flatten(Windows(chunks)) == doc[..if |doc| <= 2048 then 0 else |doc| - 2048]
  {
    WindowsReachTheCut(chunks);
  }

  /** A document of at most 2048 characters is one window, however it arrives. */
  lemma {:induction false} ShortIsOneWindow(chunks: seq<string>)
    requires 0 < |Flatten(chunks)| <= 2048
    ensures Windows(chunks) == [] && AllWindows(chunks) == [Flatten(chunks)]
  {
    NoWindowYet(chunks);
    assert Flatten(chunks)[0..] == Flatten(chunks);
  }

  lemma {:induction false} NoWindowYet(chunks: seq<string>)
    requires |Flatten(chunks)| <= 2048
    ensures Windows(chunks) == []
    decreases |chunks|
  {
    if chunks != [] {
      NoWindowYet(chunks[..|chunks| - 1]);
    }
  }

  /** So it is scanned as a whole: incremental and batch scanning find the same, whatever its tags and wherever they
      stand. */
  lemma ShortDocumentsAgree(c: Config, chunks: seq<string>)
    requires 0 < |Flatten(chunks)| <= 2048
    requires c.max <= 0 || |AbsUrls(c.extract(Flatten(chunks)), c.page)| <= c.max
    ensures Urls(Incremental(c, chunks)) == Urls(Discover(c.extract, Flatten(chunks), c.page, c.max))
            == AbsUrls(c.extract(Flatten(chunks)), c.page)
  {
    ShortIsOneWindow(chunks);
    var doc := Flatten(chunks);
    WindowUrlsSnoc(c, [], doc);
    assert [] + [doc] == [doc];
    IncrementalIsWindowUrls(c, chunks);
    BatchIsDocumentUrls(c, doc);
  }

  /** A pattern that matches one text and nothing else. */
  function OnlyIn(doc: string, tag: Candidate): Extractor {
    (w: string) => if w == doc then [tag] else []
  }

  /** A tag one character longer than the guard: the cut falls into it, and only the batch scan finds it. */
  lemma CutLosesTag(doc: string, tag: Candidate, page: string)
    requires |doc| == 2049 && IsFetchable(tag.src)
    ensures var c := Config(OnlyIn(doc, tag), page, 0);
            && Urls(Incremental(c, [doc])) == {}
            && Urls(Discover(c.extract, doc, page, 0)) == {ResolveUrl(tag.src, page)}
  {
    var c := Config(OnlyIn(doc, tag), page, 0);
    WindowsOfOne(doc);
    IncrementalIsWindowUrls(c, [doc]);
    BatchIsDocumentUrls(c, doc);
    NothingInShorter(c, doc, tag);
    assert AbsUrls([tag], page) == {ResolveUrl(tag.src, page)} by {
      assert tag in [tag];
    }
  }

  lemma WindowsOfOne(doc: string)
    requires |doc| == TAIL_GUARD + 1
    ensures Flatten([doc]) == doc && AllWindows([doc]) == [doc[..1], doc[1..]]
  {
    assert [doc][..0] == [];
    assert Flatten([doc][..0]) == "" && Flatten([doc]) == "" + doc == doc;
    assert doc[0..1] == doc[..1] && Windows([doc]) == [] + [doc[0..1]];
  }

  lemma NothingInShorter(c: Config, doc: string, tag: Candidate)
    requires |doc| == TAIL_GUARD + 1 && c.extract == OnlyIn(doc, tag)
    ensures WindowUrls(c, [doc[..1], doc[1..]]) == {}
  {
    assert [doc[..1], doc[1..]] == [] + [doc[..1]] + [doc[1..]];
    WindowUrlsSnoc(c, [], doc[..1]);
    WindowUrlsSnoc(c, [] + [doc[..1]], doc[1..]);
    assert |doc[..1]| == 1 && |doc[1..]| == TAIL_GUARD;
    assert AbsUrls([], c.page) == {};
  }
}
