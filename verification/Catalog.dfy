/** The catalog of resources that a page names but the run did not fetch, and the numbering that continues from the
    fetched ones. The patterns that find tags are parameters; what is done with their matches is not. */
module Catalog {
  import opened Resolver
  import opened Scheduler
  import opened SchedulerResults
  import opened SubresourceScanner

  /** A match of one of the URL patterns. */
  datatype Hit = Hit(src: string, source: string, caption: string)

  datatype Entry = Entry(url: string, source: string, kind: string, body: string, caption: string, number: int)

  datatype Key = Key(source: string, url: string)

  const INLINE := "inline_script"

  predicate IsCatalogable(src: string) {
    && src != "" && src[0] != '#'
    && !CiStartsWith(src, "data:") && !CiStartsWith(src, "blob:") && !CiStartsWith(src, "javascript:")
    && !CiStartsWith(src, "mailto:") && !CiStartsWith(src, "tel:")
  }

  /** The patterns: matches in the page before the inline scripts, the inline script bodies, the call hints in the
      joined scripts, and the quoted paths in a text. */
  datatype Patterns = Patterns(links: string -> seq<Hit>, scripts: string -> seq<string>,
                               hints: string -> seq<Hit>, paths: string -> seq<string>)

  // ---------- Decimal numbers ----------

  function Decimal(n: nat): string {
    if n < 10 then [(n as char) + '0'] else Decimal(n / 10) + [((n % 10) as char) + '0']
  }

  function Undecimal(s: string): int {
    if s == "" then 0 else Undecimal(s[..|s| - 1]) * 10 + (s[|s| - 1] as int - '0' as int)
  }

  lemma {:induction false} DecimalReadsBack(n: nat)
    ensures Undecimal(Decimal(n)) == n
    decreases n
  {
    if n >= 10 {
      DecimalReadsBack(n / 10);
      assert Decimal(n)[..|Decimal(n)| - 1] == Decimal(n / 10);
    } else {
      assert Decimal(n)[..0] == "";
    }
  }

  // ---------- Adding entries ----------

  datatype Book = Book(out: seq<Entry>, seen: set<Key>, next: int)

  function AddUrl(b: Book, h: Hit, page: string, fetched: set<string>): Book {
    if !IsCatalogable(h.src) then b
    else
      var abs := ResolveUrl(h.src, page);
      var key := Key(h.source, abs);
      if abs in fetched || key in b.seen then b
      else Book(b.out + [Entry(abs, h.source, "url", "", h.caption, b.next)], b.seen + {key}, b.next + 1)
  }

  function AddUrls(b: Book, hits: seq<Hit>, page: string, fetched: set<string>): Book {
    if hits == [] then b
    else AddUrl(AddUrls(b, hits[..|hits| - 1], page, fetched), hits[|hits| - 1], page, fetched)
  }

  predicate IsBlank(body: string) {
    forall i :: 0 <= i < |body| ==> body[i] in {' ', '\t', '\r', '\n'}
  }

  function AddInline(b: Book, body: string, index: nat): Book {
    var key := Key(INLINE, "inline:" + Decimal(index));
    if key in b.seen then b
    else Book(b.out + [Entry("", INLINE, "js", body, "inline-" + Decimal(index), b.next)], b.seen + {key}, b.next + 1)
  }

  /** The bodies that hold more than blanks. */
  function NonBlank(bodies: seq<string>): seq<string> {
    if bodies == [] then []
    else NonBlank(bodies[..|bodies| - 1]) + if IsBlank(bodies[|bodies| - 1]) then [] else [bodies[|bodies| - 1]]
  }

  function AddInlines(b: Book, bodies: seq<string>): Book {
    if bodies == [] then b
    else AddInline(AddInlines(b, bodies[..|bodies| - 1]), bodies[|bodies| - 1], |bodies|)
  }

  function Joined(bodies: seq<string>): string {
    if bodies == [] then "" else Joined(bodies[..|bodies| - 1]) + bodies[|bodies| - 1] + "\n"
  }

  /** The quoted paths that count, with the path's first 48 characters as label. */
  function PathHits(paths: seq<string>): seq<Hit> {
    if paths == [] then []
    else
      var path := paths[|paths| - 1];
      PathHits(paths[..|paths| - 1]) +
      if |path| < 3 || "/sportsbook-static/" <= path then []
      else [Hit(path, "api/path", if |path| > 48 then path[..48] else path)]
  }

  function CatalogBook(p: Patterns, html: string, page: string, fetched: set<string>, start: int): Book {
    var b0 := AddUrls(Book([], {}, start), p.links(html), page, fetched);
    var bodies := NonBlank(p.scripts(html));
    var b1 := AddInlines(b0, bodies);
    var blob := Joined(bodies);
    var b2 := AddUrls(b1, p.hints(blob), page, fetched);
    AddUrls(AddUrls(b2, PathHits(p.paths(blob)), page, fetched), PathHits(p.paths(html)), page, fetched)
  }

  method AddUrlEntry(out0: seq<Entry>, seen0: set<Key>, h: Hit, page: string, fetched: set<string>, next0: int)
    returns (out: seq<Entry>, seen: set<Key>, next: int)
    ensures Book(out, seen, next) == AddUrl(Book(out0, seen0, next0), h, page, fetched)
  {
    out, seen, next := out0, seen0, next0;
    if !IsCatalogable(h.src) {
      return;
    }
    var abs := ResolveUrl(h.src, page);
    if abs in fetched {
      return;
    }
    var key := Key(h.source, abs);
    if key in seen {
      return;
    }
    seen := seen + {key};
    out := out + [Entry(abs, h.source, "url", "", h.caption, next)];
    next := next + 1;
  }

  method ScanUrls(out0: seq<Entry>, seen0: set<Key>, hits: seq<Hit>, page: string, fetched: set<string>, next0: int)
    returns (out: seq<Entry>, seen: set<Key>, next: int)
    ensures Book(out, seen, next) == AddUrls(Book(out0, seen0, next0), hits, page, fetched)
  {
    out, seen, next := out0, seen0, next0;
    for i := 0 to |hits|
      invariant Book(out, seen, next) == AddUrls(Book(out0, seen0, next0), hits[..i], page, fetched)
    {
      assert hits[..i + 1][..i] == hits[..i];
      out, seen, next := AddUrlEntry(out, seen, hits[i], page, fetched, next);
    }
    assert hits[..|hits|] == hits;
  }

  method ScanInlines(out0: seq<Entry>, seen0: set<Key>, bodies: seq<string>, next0: int)
    returns (out: seq<Entry>, seen: set<Key>, next: int, blob: string)
    ensures Book(out, seen, next) == AddInlines(Book(out0, seen0, next0), NonBlank(bodies))
    ensures blob == Joined(NonBlank(bodies))
  {
    out, seen, next, blob := out0, seen0, next0, "";
    var index := 0;
    for i := 0 to |bodies|
      invariant index == |NonBlank(bodies[..i])| && blob == Joined(NonBlank(bodies[..i]))
      invariant Book(out, seen, next) == AddInlines(Book(out0, seen0, next0), NonBlank(bodies[..i]))
    {
      ghost var before := NonBlank(bodies[..i]);
      assert bodies[..i + 1][..i] == bodies[..i];
      if IsBlank(bodies[i]) {
        assert NonBlank(bodies[..i + 1]) == before;
        continue;
      }
      assert (before + [bodies[i]])[..|before|] == before;
      index := index + 1;
      // The program skips an inline script whose key it has seen; its index makes that impossible.
      var key := Key(INLINE, "inline:" + Decimal(index));
      if key !in seen {
        seen := seen + {key};
        out := out + [Entry("", INLINE, "js", bodies[i], "inline-" + Decimal(index), next)];
        next := next + 1;
      }
      blob := blob + bodies[i] + "\n";
    }
    assert bodies[..|bodies|] == bodies;
  }

  method CatalogPresentResources(p: Patterns, html: string, page: string, fetched: set<string>, start: int)
    returns (out: seq<Entry>)
    ensures out == CatalogBook(p, html, page, fetched, start).out
  {
    var seen, next, blob;
    out, seen, next := ScanUrls([], {}, p.links(html), page, fetched, start);
    out, seen, next, blob := ScanInlines(out, seen, p.scripts(html), next);
    out, seen, next := ScanUrls(out, seen, p.hints(blob), page, fetched, next);
    out, seen, next := ScanUrls(out, seen, PathHits(p.paths(blob)), page, fetched, next);
    out, seen, next := ScanUrls(out, seen, PathHits(p.paths(html)), page, fetched, next);
  }

  // ---------- What the catalog holds ----------

  ghost predicate IsUrl(e: Entry) {
    e.kind == "url"
  }

  /** Entries are numbered on from `start`; a URL is entered once per source, and never one that was fetched. */
  ghost predicate BookInv(b: Book, fetched: set<string>, start: int) {
    && b.next == start + |b.out|
    && (forall i :: 0 <= i < |b.out| ==> b.out[i].number == start + i)
    && (forall i :: 0 <= i < |b.out| && IsUrl(b.out[i]) ==>
          b.out[i].url !in fetched && Key(b.out[i].source, b.out[i].url) in b.seen)
    && (forall i, j :: 0 <= i < j < |b.out| && IsUrl(b.out[i]) && IsUrl(b.out[j]) ==>
          Key(b.out[i].source, b.out[i].url) != Key(b.out[j].source, b.out[j].url))
  }

  lemma {:induction false} AddUrlsKeepsInv(b: Book, hits: seq<Hit>, page: string, fetched: set<string>, start: int)
    requires BookInv(b, fetched, start)
    ensures BookInv(AddUrls(b, hits, page, fetched), fetched, start)
    ensures b.out <= AddUrls(b, hits, page, fetched).out
    decreases |hits|
  {
    if hits != [] {
      AddUrlsKeepsInv(b, hits[..|hits| - 1], page, fetched, start);
      AddUrlKeepsInv(AddUrls(b, hits[..|hits| - 1], page, fetched), hits[|hits| - 1], page, fetched, start);
    }
  }

  lemma AddUrlKeepsInv(b: Book, h: Hit, page: string, fetched: set<string>, start: int)
    requires BookInv(b, fetched, start)
    ensures BookInv(AddUrl(b, h, page, fetched), fetched, start) && b.out <= AddUrl(b, h, page, fetched).out
  {
    EntryKeepsInv(b, Entry(ResolveUrl(h.src, page), h.source, "url", "", h.caption, b.next),
                  Key(h.source, ResolveUrl(h.src, page)), fetched, start);
  }

  lemma EntryKeepsInv(b: Book, e: Entry, key: Key, fetched: set<string>, start: int)
    requires BookInv(b, fetched, start) && e.number == b.next
    ensures (IsUrl(e) ==> e.url !in fetched && key == Key(e.source, e.url)) && key !in b.seen ==>
              BookInv(Book(b.out + [e], b.seen + {key}, b.next + 1), fetched, start)
  {}

  lemma {:induction false} AddInlinesKeepsInv(b: Book, bodies: seq<string>, fetched: set<string>, start: int)
    requires BookInv(b, fetched, start)
    ensures BookInv(AddInlines(b, bodies), fetched, start)
    decreases |bodies|
  {
    if bodies != [] {
      var n := |bodies|;
      AddInlinesKeepsInv(b, bodies[..n - 1], fetched, start);
      var b1 := AddInlines(b, bodies[..n - 1]);
      EntryKeepsInv(b1, Entry("", INLINE, "js", bodies[n - 1], "inline-" + Decimal(n), b1.next),
                    Key(INLINE, "inline:" + Decimal(n)), fetched, start);
    }
  }

  /** The catalog's entries are numbered consecutively from the start, unique per source and URL, and never name a
      fetched URL. */
  lemma CatalogIsSound(p: Patterns, html: string, page: string, fetched: set<string>, start: int)
    ensures BookInv(CatalogBook(p, html, page, fetched, start), fetched, start)
  {
    var b0 := AddUrls(Book([], {}, start), p.links(html), page, fetched);
    AddUrlsKeepsInv(Book([], {}, start), p.links(html), page, fetched, start);
    var bodies := NonBlank(p.scripts(html));
    AddInlinesKeepsInv(b0, bodies, fetched, start);
    var b1 := AddInlines(b0, bodies);
    var blob := Joined(bodies);
    AddUrlsKeepsInv(b1, p.hints(blob), page, fetched, start);
    var b2 := AddUrls(b1, p.hints(blob), page, fetched);
    AddUrlsKeepsInv(b2, PathHits(p.paths(blob)), page, fetched, start);
    AddUrlsKeepsInv(AddUrls(b2, PathHits(p.paths(blob)), page, fetched), PathHits(p.paths(html)), page, fetched, start);
  }

  /** The sources and URLs that the catalog's URL entries stand for. */
  ghost function UrlKeys(out: seq<Entry>): set<Key> {
    set e | e in out && IsUrl(e) :: Key(e.source, e.url)
  }

  /** The sources and URLs that the matches call for: catalogable and not fetched. */
  ghost function HitKeys(hits: seq<Hit>, page: string, fetched: set<string>): set<Key> {
    set h | h in hits && IsCatalogable(h.src) && ResolveUrl(h.src, page) !in fetched
        :: Key(h.source, ResolveUrl(h.src, page))
  }

  ghost predicate NoInlineHits(hits: seq<Hit>) {
    forall h :: h in hits ==> h.source != INLINE
  }

  /** A key of a URL source has been seen exactly when it has its entry. */
  ghost predicate SeenIsEntered(b: Book) {
    forall k: Key :: k.source != INLINE ==> (k in b.seen <==> k in UrlKeys(b.out))
  }

  lemma UrlKeysOneMore(out: seq<Entry>, e: Entry)
    ensures UrlKeys(out + [e]) == UrlKeys(out) + if IsUrl(e) then {Key(e.source, e.url)} else {}
  {
    assert e in out + [e];
    forall k | k in UrlKeys(out) ensures k in UrlKeys(out + [e]) {
      var f :| f in out && IsUrl(f) && Key(f.source, f.url) == k;
      assert f in out + [e];
    }
  }

  lemma HitKeysConcat(a: seq<Hit>, b: seq<Hit>, page: string, fetched: set<string>)
    ensures HitKeys(a + b, page, fetched) == HitKeys(a, page, fetched) + HitKeys(b, page, fetched)
  {
    forall k | k in HitKeys(a, page, fetched) + HitKeys(b, page, fetched) ensures k in HitKeys(a + b, page, fetched) {
      if g :| g in a && IsCatalogable(g.src) && ResolveUrl(g.src, page) !in fetched
             && Key(g.source, ResolveUrl(g.src, page)) == k {
        assert g in a + b;
      } else {
        var g :| g in b && IsCatalogable(g.src) && ResolveUrl(g.src, page) !in fetched
            && Key(g.source, ResolveUrl(g.src, page)) == k;
        assert g in a + b;
      }
    }
  }

  lemma AddUrlEnters(b: Book, h: Hit, page: string, fetched: set<string>)
    requires SeenIsEntered(b) && h.source != INLINE
    ensures var b2 := AddUrl(b, h, page, fetched);
            SeenIsEntered(b2) && UrlKeys(b2.out) == UrlKeys(b.out) + HitKeys([h], page, fetched)
  {
    var abs := ResolveUrl(h.src, page);
    UrlKeysOneMore(b.out, Entry(abs, h.source, "url", "", h.caption, b.next));
    assert h in [h];
    assert HitKeys([h], page, fetched) == if IsCatalogable(h.src) && abs !in fetched then {Key(h.source, abs)} else {};
  }

  lemma LastHitKeys(hits: seq<Hit>, page: string, fetched: set<string>)
    requires hits != []
    ensures HitKeys(hits, page, fetched)
            == HitKeys(hits[..|hits| - 1], page, fetched) + HitKeys([hits[|hits| - 1]], page, fetched)
  {
    HitKeysConcat(hits[..|hits| - 1], [hits[|hits| - 1]], page, fetched);
    assert hits[..|hits| - 1] + [hits[|hits| - 1]] == hits;
  }

  /** A scan enters exactly the catalogable, unfetched matches. */
  lemma {:induction false} AllHitsEntered(b: Book, hits: seq<Hit>, page: string, fetched: set<string>)
    requires SeenIsEntered(b) && NoInlineHits(hits)
    ensures var b2 := AddUrls(b, hits, page, fetched);
            SeenIsEntered(b2) && UrlKeys(b2.out) == UrlKeys(b.out) + HitKeys(hits, page, fetched)
    decreases |hits|
  {
    if hits == [] {
      assert HitKeys(hits, page, fetched) == {};
    } else {
      var last := hits[|hits| - 1];
      AllHitsEntered(b, hits[..|hits| - 1], page, fetched);
      AddUrlEnters(AddUrls(b, hits[..|hits| - 1], page, fetched), last, page, fetched);
      LastHitKeys(hits, page, fetched);
    }
  }

  lemma {:induction false} InlinesKeepUrls(b: Book, bodies: seq<string>)
    requires SeenIsEntered(b)
    ensures SeenIsEntered(AddInlines(b, bodies)) && UrlKeys(AddInlines(b, bodies).out) == UrlKeys(b.out)
    decreases |bodies|
  {
    if bodies != [] {
      var n := |bodies|;
      InlinesKeepUrls(b, bodies[..n - 1]);
      var b1 := AddInlines(b, bodies[..n - 1]);
      UrlKeysOneMore(b1.out, Entry("", INLINE, "js", bodies[n - 1], "inline-" + Decimal(n), b1.next));
    }
  }

  lemma {:induction false} PathsAreNoInlines(paths: seq<string>)
    ensures NoInlineHits(PathHits(paths))
    decreases |paths|
  {
    if paths != [] {
      PathsAreNoInlines(paths[..|paths| - 1]);
    }
  }

  /** Everything that the patterns find in a page. */
  function AllHits(p: Patterns, html: string): seq<Hit> {
    var blob := Joined(NonBlank(p.scripts(html)));
    p.links(html) + (p.hints(blob) + (PathHits(p.paths(blob)) + PathHits(p.paths(html))))
  }

  /** The catalog's URLs are exactly what the patterns find in the page, in its inline scripts and in both as quoted
      paths, as far as it is catalogable and was not fetched. */
  lemma CatalogIsComplete(p: Patterns, html: string, page: string, fetched: set<string>, start: int)
    requires NoInlineHits(p.links(html)) && NoInlineHits(p.hints(Joined(NonBlank(p.scripts(html)))))
    ensures UrlKeys(CatalogBook(p, html, page, fetched, start).out) == HitKeys(AllHits(p, html), page, fetched)
  {
    var bodies := NonBlank(p.scripts(html));
    var blob := Joined(bodies);
    var hints, inner, outer := p.hints(blob), PathHits(p.paths(blob)), PathHits(p.paths(html));
    var b0 := AddUrls(Book([], {}, start), p.links(html), page, fetched);
    AllHitsEntered(Book([], {}, start), p.links(html), page, fetched);
    InlinesKeepUrls(b0, bodies);
    var b1 := AddInlines(b0, bodies);
    AllHitsEntered(b1, hints, page, fetched);
    var b2 := AddUrls(b1, hints, page, fetched);
    PathsAreNoInlines(p.paths(blob));
    AllHitsEntered(b2, inner, page, fetched);
    PathsAreNoInlines(p.paths(html));
    AllHitsEntered(AddUrls(b2, inner, page, fetched), outer, page, fetched);
    HitKeysConcat(inner, outer, page, fetched);
    HitKeysConcat(hints, inner + outer, page, fetched);
    HitKeysConcat(p.links(html), hints + (inner + outer), page, fetched);
  }

  /** No inline script is dropped: its key is new, because its index is. */
  lemma {:induction false} InlinesAllEntered(b: Book, bodies: seq<string>)
    requires forall k :: k in b.seen ==> k.source != INLINE
    ensures |AddInlines(b, bodies).out| == |b.out| + |bodies|
    ensures forall k :: k in AddInlines(b, bodies).seen && k.source == INLINE ==> IsInlineKey(k.url, |bodies|)
    decreases |bodies|
  {
    if bodies != [] {
      var n := |bodies|;
      InlinesAllEntered(b, bodies[..n - 1]);
      var b1 := AddInlines(b, bodies[..n - 1]);
      var key := Key(INLINE, "inline:" + Decimal(n));
      if key in b1.seen {
        var i :| 1 <= i <= n - 1 && key.url == "inline:" + Decimal(i);
        InlineKeysDiffer(i, n);
      }
      forall k | k in AddInlines(b, bodies).seen && k.source == INLINE ensures IsInlineKey(k.url, n) {
        if k in b1.seen {
          var i :| 1 <= i <= n - 1 && k.url == "inline:" + Decimal(i);
        }
      }
    }
  }

  ghost predicate IsInlineKey(url: string, n: nat) {
    exists i :: 1 <= i <= n && url == "inline:" + Decimal(i)
  }

  lemma InlineKeysDiffer(i: nat, n: nat)
    requires "inline:" + Decimal(i) == "inline:" + Decimal(n)
    ensures i == n
  {
    assert ("inline:" + Decimal(i))[7..] == Decimal(i) && ("inline:" + Decimal(n))[7..] == Decimal(n);
    DecimalReadsBack(i);
    DecimalReadsBack(n);
  }

  // ---------- Numbering over the whole run ----------

  function MaxNumber(primary: int, also: seq<Fetched>): int {
    if also == [] then (if primary >= 0 then primary else 0)
    else
      var m := MaxNumber(primary, also[..|also| - 1]);
      var r := also[|also| - 1].requestSeq;
      if r > m then r else m
  }

  method CatalogStart(primary: Fetched, also: seq<Fetched>) returns (fetched: set<string>, start: int)
    ensures fetched == {primary.finalUrl} + set i | 0 <= i < |also| && also[i].ok && also[i].finalUrl != ""
            :: also[i].finalUrl
    ensures start == MaxNumber(primary.requestSeq, also) + 1
  {
    fetched := {primary.finalUrl};
    for i := 0 to |also|
      invariant fetched == {primary.finalUrl} + set k | 0 <= k < i && also[k].ok && also[k].finalUrl != ""
                :: also[k].finalUrl
    {
      if also[i].ok && also[i].finalUrl != "" {
        fetched := fetched + {also[i].finalUrl};
      }
    }
    var maxSeq := if primary.requestSeq >= 0 then primary.requestSeq else 0;
    for i := 0 to |also|
      invariant maxSeq == MaxNumber(primary.requestSeq, also[..i])
    {
      assert also[..i + 1][..i] == also[..i];
      if also[i].requestSeq > maxSeq {
        maxSeq := also[i].requestSeq;
      }
    }
    assert also[..|also|] == also;
    start := maxSeq + 1;
  }

  /** The largest number in use, and no less than 0: above every number, and no larger than any bound of them. */
  lemma {:induction false} MaxIsBound(primary: int, also: seq<Fetched>, n: nat)
    ensures 0 <= MaxNumber(primary, also) && primary <= MaxNumber(primary, also)
    ensures forall j :: 0 <= j < |also| ==> also[j].requestSeq <= MaxNumber(primary, also)
    ensures primary <= n && (forall j :: 0 <= j < |also| ==> also[j].requestSeq <= n) ==> MaxNumber(primary, also) <= n
    decreases |also|
  {
    if also != [] {
      MaxIsBound(primary, also[..|also| - 1], n);
      assert forall j :: 0 <= j < |also| - 1 ==> also[..|also| - 1][j] == also[j];
    }
  }

  /** The numbers of all artifacts of a run: the primary, the fetched resources, the catalog. */
  function Numbers(primary: int, also: seq<Fetched>, out: seq<Entry>): seq<int> {
    [primary] + (seq(|also|, i requires 0 <= i < |also| => also[i].requestSeq)
                 + seq(|out|, i requires 0 <= i < |out| => out[i].number))
  }

  /** No two artifacts share a number, and the numbers are 0 to the last without a gap. */
  ghost predicate NumbersOk(all: seq<int>) {
    (forall i, j :: 0 <= i < j < |all| ==> all[i] != all[j]) && (forall i :: 0 <= i < |all| ==> 0 <= all[i] < |all|)
  }

  /** The catalog that continues the numbers of a run. */
  function CatalogOf(p: Patterns, html: string, page: string, fetched: set<string>, primary: int, also: seq<Fetched>)
    : seq<Entry>
  {
    CatalogBook(p, html, page, fetched, MaxNumber(primary, also) + 1).out
  }

  /** In a run whose page completed in one hop, no two artifacts share a number, and the numbers are 0 to the last
      without a gap: the catalog goes on where the fetched resources end. */
  lemma NoNumberTwice(p: Patterns, html: string, page: string, fetched: set<string>, also: seq<Fetched>)
    requires NumberedOnce(also, 0, |also|)
    ensures NumbersOk(Numbers(0, also, CatalogOf(p, html, page, fetched, 0, also)))
    ensures MaxNumber(0, also) == |also|
  {
    MaxOfNumbered(also);
    CatalogIsSound(p, html, page, fetched, |also| + 1);
    NumbersAreDistinct(also, CatalogOf(p, html, page, fetched, 0, also));
  }

  lemma MaxOfNumbered(also: seq<Fetched>)
    requires NumberedOnce(also, 0, |also|)
    ensures MaxNumber(0, also) == |also|
  {
    MaxIsBound(0, also, |also|);
    if also != [] {
      assert HasNumber(also, 0, |also|);
    }
  }

  lemma NumbersAreDistinct(also: seq<Fetched>, out: seq<Entry>)
    requires NumberedOnce(also, 0, |also|)
    requires forall i :: 0 <= i < |out| ==> out[i].number == |also| + 1 + i
    ensures NumbersOk(Numbers(0, also, out))
  {
    var all, n := Numbers(0, also, out), |also|;
    forall i | 0 <= i < |all|
      ensures all[i] == if i == 0 then 0 else if i <= n then also[i - 1].requestSeq else i
    {
      if i > n {
        assert all[i] == out[i - n - 1].number;
      }
    }
  }
}
