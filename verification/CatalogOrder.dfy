/** Which entries the catalog holds, in which order and with which fields: told from what the patterns find, without the
    books that are kept on the way. */
module CatalogOrder {
  import opened Catalog
  import opened Picking
  import opened Resolver
  import opened SubresourceScanner

  /** Exactly empty sources, fragments and five schemes are passed over, in whatever case; `vbscript:` is not among
      them. */
  lemma CatalogableExactly(src: string)
    ensures IsCatalogable(src) <==>
            && src != "" && src[0] != '#'
            && !BeginsLike(src, "data:") && !BeginsLike(src, "blob:") && !BeginsLike(src, "javascript:")
            && !BeginsLike(src, "mailto:") && !BeginsLike(src, "tel:")
  {
    BeginsLikeIs(src, "data:");
    BeginsLikeIs(src, "blob:");
    BeginsLikeIs(src, "javascript:");
    BeginsLikeIs(src, "mailto:");
    BeginsLikeIs(src, "tel:");
  }

  // ---------- One scan ----------

  /** Whether a match calls for an entry, and the source and URL of that entry. */
  datatype Calling = Calling(calls: Hit -> bool, key: Hit -> Key)

  /** It does if it is catalogable, and what it stands for was not fetched. */
  ghost function CallingIn(page: string, fetched: set<string>): Calling {
    Calling((h: Hit) => IsCatalogable(h.src) && ResolveUrl(h.src, page) !in fetched,
            (h: Hit) => Key(h.source, ResolveUrl(h.src, page)))
  }

  /** The k-th match is the first that calls for its source and URL, and that has no entry from before. */
  ghost function First(hits: seq<Hit>, g: Calling, before: set<Key>): nat -> bool {
    (k: nat) =>
      && k < |hits| && g.calls(hits[k]) && g.key(hits[k]) !in before
      && forall j :: 0 <= j < k && g.calls(hits[j]) ==> g.key(hits[j]) != g.key(hits[k])
  }

  ghost predicate EntryFor(e: Entry, h: Hit, g: Calling) {
    Key(e.source, e.url) == g.key(h) && e.kind == "url" && e.body == "" && e.caption == h.caption
  }

  /** The entries stand for the matches at these positions, one each, in order. */
  ghost predicate EntriesFor(out: seq<Entry>, hits: seq<Hit>, g: Calling, idx: seq<nat>) {
    && |out| == |idx|
    && forall j :: 0 <= j < |idx| ==> idx[j] < |hits| && EntryFor(out[j], hits[idx[j]], g)
  }

  /** The entries are those of the first matches for each source and URL, in order. */
  ghost predicate Scanned(out: seq<Entry>, hits: seq<Hit>, g: Calling, before: set<Key>, idx: seq<nat>) {
    Picks(idx, |hits|, First(hits, g, before)) && EntriesFor(out, hits, g, idx)
  }

  ghost predicate CalledBy(k: Key, hits: seq<Hit>, g: Calling) {
    exists i :: 0 <= i < |hits| && g.calls(hits[i]) && g.key(hits[i]) == k
  }

  /** What has been seen after a scan: what had been, and what the matches call for. */
  ghost predicate SeenAfter(seen: set<Key>, before: set<Key>, hits: seq<Hit>, g: Calling) {
    forall k :: k in seen <==> k in before || CalledBy(k, hits, g)
  }

  lemma CalledByMore(k: Key, hits: seq<Hit>, n: nat, g: Calling)
    requires |hits| == n + 1
    ensures CalledBy(k, hits, g) <==> CalledBy(k, hits[..n], g) || (g.calls(hits[n]) && g.key(hits[n]) == k)
  {
    forall i | 0 <= i < n ensures hits[..n][i] == hits[i] {}
    if CalledBy(k, hits[..n], g) {
      var i :| 0 <= i < n && g.calls(hits[..n][i]) && g.key(hits[..n][i]) == k;
      assert g.calls(hits[i]) && g.key(hits[i]) == k;
    }
    if CalledBy(k, hits, g) && !(g.calls(hits[n]) && g.key(hits[n]) == k) {
      var i :| 0 <= i < |hits| && g.calls(hits[i]) && g.key(hits[i]) == k;
      assert hits[..n][i] == hits[i];
    }
  }

  lemma SeenOneMore(seen: set<Key>, before: set<Key>, hits: seq<Hit>, n: nat, g: Calling)
    requires |hits| == n + 1 && SeenAfter(seen, before, hits[..n], g)
    ensures SeenAfter(seen + if g.calls(hits[n]) then {g.key(hits[n])} else {}, before, hits, g)
  {
    forall k ensures CalledBy(k, hits, g)
                     <==> CalledBy(k, hits[..n], g) || (g.calls(hits[n]) && g.key(hits[n]) == k) {
      CalledByMore(k, hits, n, g);
    }
  }

  lemma FirstIsNew(seen: set<Key>, before: set<Key>, hits: seq<Hit>, n: nat, g: Calling)
    requires |hits| == n + 1 && SeenAfter(seen, before, hits[..n], g)
    ensures First(hits, g, before)(n) <==> g.calls(hits[n]) && g.key(hits[n]) !in seen
  {
    var k := g.key(hits[n]);
    if j :| 0 <= j < n && g.calls(hits[j]) && g.key(hits[j]) == k {
      assert hits[..n][j] == hits[j];
    }
    assert forall i :: 0 <= i < n ==> hits[..n][i] == hits[i];
  }

  lemma FirstOfPrefix(hits: seq<Hit>, n: nat, g: Calling, before: set<Key>, idx: seq<nat>)
    requires |hits| == n + 1 && Picks(idx, n, First(hits[..n], g, before))
    ensures Picks(idx, n, First(hits, g, before))
  {
    forall k: nat | k < n ensures First(hits[..n], g, before)(k) <==> First(hits, g, before)(k) {
      assert forall j :: 0 <= j <= k ==> hits[..n][j] == hits[j];
    }
  }

  lemma EntriesOneMore(out: seq<Entry>, e: Entry, hits: seq<Hit>, n: nat, g: Calling, idx: seq<nat>)
    requires |hits| == n + 1 && EntriesFor(out, hits[..n], g, idx)
    ensures EntriesFor(out, hits, g, idx)
    ensures EntryFor(e, hits[n], g) ==> EntriesFor(out + [e], hits, g, idx + [n])
  {
    forall j | 0 <= j < |idx| ensures idx[j] < |hits| && EntryFor(out[j], hits[idx[j]], g) {
      assert hits[..n][idx[j]] == hits[idx[j]];
    }
  }

  /** What the program does with one match. */
  lemma OneMatch(b: Book, h: Hit, page: string, fetched: set<string>)
    ensures var g, b2 := CallingIn(page, fetched), AddUrl(b, h, page, fetched);
            && b2.seen == b.seen + (if g.calls(h) then {g.key(h)} else {})
            && if g.calls(h) && g.key(h) !in b.seen then |b2.out| == |b.out| + 1 && b2.out == b.out + [b2.out[|b.out|]]
                   && EntryFor(b2.out[|b.out|], h, g)
               else b2.out == b.out
  {}

  lemma ScannedOneMore(out: seq<Entry>, e: Entry, hits: seq<Hit>, n: nat, g: Calling, before: set<Key>, idx: seq<nat>)
    requires |hits| == n + 1 && Scanned(out, hits[..n], g, before, idx)
    ensures if First(hits, g, before)(n)
            then EntryFor(e, hits[n], g) ==> Scanned(out + [e], hits, g, before, idx + [n])
            else Scanned(out, hits, g, before, idx)
  {
    FirstOfPrefix(hits, n, g, before, idx);
    PickNext(idx, n, First(hits, g, before));
    EntriesOneMore(out, e, hits, n, g, idx);
  }

  ghost predicate SomeScanned(out: seq<Entry>, hits: seq<Hit>, g: Calling, before: set<Key>) {
    exists idx :: Scanned(out, hits, g, before, idx)
  }

  lemma {:induction false} ScanInOrder(b: Book, hits: seq<Hit>, page: string, fetched: set<string>)
    ensures var g, b2 := CallingIn(page, fetched), AddUrls(b, hits, page, fetched);
            && b.out <= b2.out && SeenAfter(b2.seen, b.seen, hits, g)
            && SomeScanned(b2.out[|b.out|..], hits, g, b.seen)
    decreases |hits|
  {
    var g := CallingIn(page, fetched);
    if hits == [] {
      var none: seq<nat> := [];
      assert Scanned(b.out[|b.out|..], hits, g, b.seen, none);
    } else {
      var n := |hits| - 1;
      ScanInOrder(b, hits[..n], page, fetched);
      OneMatch(AddUrls(b, hits[..n], page, fetched), hits[n], page, fetched);
      LastOfScan(b, AddUrls(b, hits[..n], page, fetched), AddUrls(b, hits, page, fetched), hits, n, g);
    }
  }

  lemma LastOfScan(b: Book, b1: Book, b2: Book, hits: seq<Hit>, n: nat, g: Calling)
    requires |hits| == n + 1 && b.out <= b1.out && SeenAfter(b1.seen, b.seen, hits[..n], g)
    requires SomeScanned(b1.out[|b.out|..], hits[..n], g, b.seen)
    requires b2.seen == b1.seen + (if g.calls(hits[n]) then {g.key(hits[n])} else {})
    requires if g.calls(hits[n]) && g.key(hits[n]) !in b1.seen
             then |b2.out| == |b1.out| + 1 && b2.out == b1.out + [b2.out[|b1.out|]]
                 && EntryFor(b2.out[|b1.out|], hits[n], g)
             else b2.out == b1.out
    ensures b.out <= b2.out && SeenAfter(b2.seen, b.seen, hits, g)
    ensures SomeScanned(b2.out[|b.out|..], hits, g, b.seen)
  {
    SeenOneMore(b1.seen, b.seen, hits, n, g);
    FirstIsNew(b1.seen, b.seen, hits, n, g);
    var idx :| Scanned(b1.out[|b.out|..], hits[..n], g, b.seen, idx);
    if First(hits, g, b.seen)(n) {
      ScannedOneMore(b1.out[|b.out|..], b2.out[|b1.out|], hits, n, g, b.seen, idx);
      assert b2.out[|b.out|..] == b1.out[|b.out|..] + [b2.out[|b1.out|]];
      assert Scanned(b2.out[|b.out|..], hits, g, b.seen, idx + [n]);
    } else {
      ScannedOneMore(b1.out[|b.out|..], Entry("", "", "", "", "", 0), hits, n, g, b.seen, idx);
      assert Scanned(b2.out[|b.out|..], hits, g, b.seen, idx);
    }
  }

  // ---------- Inline scripts ----------

  /** The script holds more than spaces, tabs and line ends. */
  ghost function Filled(): string -> bool {
    (body: string) => exists k :: 0 <= k < |body| && body[k] !in " \t\r\n"
  }

  ghost function Same(): (string, string) -> bool {
    (a: string, b: string) => a == b
  }

  /** The scripts that get an entry are those that are not blank, in order. */
  lemma {:induction false} NonBlankInOrder(bodies: seq<string>)
    ensures Chosen(NonBlank(bodies), bodies, Filled(), Same())
    decreases |bodies|
  {
    if bodies == [] {
      ChooseNone(Filled(), Same());
    } else {
      var n := |bodies| - 1;
      NonBlankInOrder(bodies[..n]);
      BlankOrFilled(bodies[n]);
      ChooseNext(NonBlank(bodies[..n]), NonBlank(bodies), bodies, n, Filled(), Same());
    }
  }

  lemma BlankOrFilled(body: string)
    ensures IsBlank(body) <==> !Filled()(body)
  {}

  /** One entry per script, numbered from 1 in its caption. */
  ghost predicate InlineEntries(out: seq<Entry>, bodies: seq<string>) {
    && |out| == |bodies|
    && forall j :: 0 <= j < |out| ==>
         && out[j].url == "" && out[j].source == "inline_script" && out[j].kind == "js" && out[j].body == bodies[j]
         && out[j].caption == "inline-" + Decimal(j + 1)
  }

  ghost predicate NoInlineKeys(seen: set<Key>) {
    forall k :: k in seen ==> k.source != INLINE
  }

  lemma {:induction false} InlinesInOrder(b: Book, bodies: seq<string>)
    requires NoInlineKeys(b.seen)
    ensures var b2 := AddInlines(b, bodies);
            && b.out <= b2.out && InlineEntries(b2.out[|b.out|..], bodies)
            && forall k: Key :: k.source != INLINE ==> (k in b2.seen <==> k in b.seen)
    decreases |bodies|
  {
    if bodies != [] {
      var n := |bodies| - 1;
      InlinesInOrder(b, bodies[..n]);
      InlinesAllEntered(b, bodies[..n]);
      InlinesAllEntered(b, bodies);
      var b1, b2 := AddInlines(b, bodies[..n]), AddInlines(b, bodies);
      assert b2.out[|b.out|..] == b1.out[|b.out|..] + [b2.out[|b1.out|]];
    }
  }

  /** The scripts one after the other, a line end behind each. */
  lemma {:induction false} JoinedInOrder(bodies: seq<string>)
    ensures Joined(bodies) == Flatten(seq(|bodies|, i requires 0 <= i < |bodies| => bodies[i] + "\n"))
    decreases |bodies|
  {
    if bodies != [] {
      var n := |bodies| - 1;
      JoinedInOrder(bodies[..n]);
      var lines := seq(|bodies|, i requires 0 <= i < |bodies| => bodies[i] + "\n");
      assert lines[..n] == seq(n, i requires 0 <= i < n => bodies[..n][i] + "\n");
      assert Joined(bodies) == Joined(bodies[..n]) + (bodies[n] + "\n");
    }
  }

  // ---------- Quoted paths ----------

  /** Paths of at least three characters that do not lie under the site's static files. */
  ghost function Quotable(): string -> bool {
    (path: string) => 3 <= |path| && !("/sportsbook-static/" <= path)
  }

  /** The path itself as the reference, and at most its first 48 characters as the caption. */
  ghost function QuotedAs(): (string, Hit) -> bool {
    (path: string, h: Hit) =>
      && h.src == path && h.source == "api/path" && h.caption <= path
      && |h.caption| == if |path| < 48 then |path| else 48
  }

  lemma {:induction false} PathsInOrder(paths: seq<string>)
    ensures Chosen(PathHits(paths), paths, Quotable(), QuotedAs())
    decreases |paths|
  {
    if paths == [] {
      ChooseNone(Quotable(), QuotedAs());
    } else {
      var n := |paths| - 1;
      PathsInOrder(paths[..n]);
      ChooseNext(PathHits(paths[..n]), PathHits(paths), paths, n, Quotable(), QuotedAs());
    }
  }

  // ---------- The whole catalog ----------

  /** The catalog is entries for links, then those for inline scripts, then those for the matches behind them. */
  ghost predicate Laid(out: seq<Entry>, links: seq<Hit>, bodies: seq<string>, rest: seq<Hit>, g: Calling,
                       before: set<Key>, a: seq<Entry>, i: seq<Entry>, r: seq<Entry>) {
    && out == a + (i + r) && SomeScanned(a, links, g, {}) && InlineEntries(i, bodies) && SomeScanned(r, rest, g, before)
  }

  lemma {:induction false} AddUrlsConcat(b: Book, x: seq<Hit>, y: seq<Hit>, page: string, fetched: set<string>)
    ensures AddUrls(b, x + y, page, fetched) == AddUrls(AddUrls(b, x, page, fetched), y, page, fetched)
    decreases |y|
  {
    if y == [] {
      assert x + y == x;
    } else {
      AddUrlsConcat(b, x, y[..|y| - 1], page, fetched);
      assert (x + y)[..|x + y| - 1] == x + y[..|y| - 1];
    }
  }

  lemma BehindInlines(out: seq<Entry>, rest: seq<Hit>, g: Calling, seen: set<Key>, keys: set<Key>)
    requires SomeScanned(out, rest, g, seen)
    requires forall h :: h in rest ==> (g.key(h) in seen <==> g.key(h) in keys)
    ensures SomeScanned(out, rest, g, keys)
  {
    var idx :| Scanned(out, rest, g, seen, idx);
    forall k: nat | k < |rest| ensures First(rest, g, seen)(k) <==> First(rest, g, keys)(k) {
      assert rest[k] in rest;
    }
    assert Scanned(out, rest, g, keys, idx);
  }

  /** The matches behind the inline scripts: the call hints and the quoted paths of the joined scripts, and the quoted
      paths of the page. */
  function RestHits(p: Patterns, html: string): seq<Hit> {
    var blob := Joined(NonBlank(p.scripts(html)));
    p.hints(blob) + (PathHits(p.paths(blob)) + PathHits(p.paths(html)))
  }

  /** The keys that the links call for. */
  ghost function LinkKeys(links: seq<Hit>, g: Calling): set<Key> {
    set h | h in links && g.calls(h) :: g.key(h)
  }

  /** The whole catalog, entry by entry: the first match for each source and URL among the links; one entry for each
      inline script that is not blank; and the first match for each source and URL behind them that no link has
      called for; all in the order of the page, and none besides. */
  lemma CatalogInOrder(p: Patterns, html: string, page: string, fetched: set<string>, start: int)
    requires NoInlineHits(p.links(html)) && NoInlineHits(p.hints(Joined(NonBlank(p.scripts(html)))))
    ensures var g := CallingIn(page, fetched);
            exists a, i, r :: Laid(CatalogBook(p, html, page, fetched, start).out, p.links(html),
                                   NonBlank(p.scripts(html)), RestHits(p, html), g, LinkKeys(p.links(html), g), a, i, r)
  {
    var g, bodies, rest := CallingIn(page, fetched), NonBlank(p.scripts(html)), RestHits(p, html);
    var b0 := AddUrls(Book([], {}, start), p.links(html), page, fetched);
    ScanInOrder(Book([], {}, start), p.links(html), page, fetched);
    KeysOfLinks(b0.seen, p.links(html), page, fetched);
    InlinesInOrder(b0, bodies);
    var b1 := AddInlines(b0, bodies);
    ScanInOrder(b1, rest, page, fetched);
    BookOfParts(p, html, page, fetched, start);
    var b2 := AddUrls(b1, rest, page, fetched);
    RestIsNoInline(p, html);
    BehindInlines(b2.out[|b1.out|..], rest, g, b1.seen, LinkKeys(p.links(html), g));
    ThreeParts(b0.out, b1.out, b2.out);
    assert b0.out[0..] == b0.out;
    assert Laid(b2.out, p.links(html), bodies, rest, g, LinkKeys(p.links(html), g), b0.out, b1.out[|b0.out|..],
                b2.out[|b1.out|..]);
  }

  lemma ThreeParts(a: seq<Entry>, b: seq<Entry>, c: seq<Entry>)
    requires a <= b <= c
    ensures c == a + (b[|a|..] + c[|b|..])
  {}

  lemma BookOfParts(p: Patterns, html: string, page: string, fetched: set<string>, start: int)
    ensures var b1 := AddInlines(AddUrls(Book([], {}, start), p.links(html), page, fetched), NonBlank(p.scripts(html)));
            CatalogBook(p, html, page, fetched, start) == AddUrls(b1, RestHits(p, html), page, fetched)
  {
    var blob := Joined(NonBlank(p.scripts(html)));
    var inner, outer := PathHits(p.paths(blob)), PathHits(p.paths(html));
    var b1 := AddInlines(AddUrls(Book([], {}, start), p.links(html), page, fetched), NonBlank(p.scripts(html)));
    AddUrlsConcat(b1, p.hints(blob), inner + outer, page, fetched);
    AddUrlsConcat(AddUrls(b1, p.hints(blob), page, fetched), inner, outer, page, fetched);
  }

  lemma RestIsNoInline(p: Patterns, html: string)
    requires NoInlineHits(p.hints(Joined(NonBlank(p.scripts(html)))))
    ensures NoInlineHits(RestHits(p, html))
  {
    PathsAreNoInlines(p.paths(html));
    PathsAreNoInlines(p.paths(Joined(NonBlank(p.scripts(html)))));
  }

  lemma KeysOfLinks(seen: set<Key>, links: seq<Hit>, page: string, fetched: set<string>)
    requires SeenAfter(seen, {}, links, CallingIn(page, fetched)) && NoInlineHits(links)
    ensures seen == LinkKeys(links, CallingIn(page, fetched)) && NoInlineKeys(seen)
  {
    var g := CallingIn(page, fetched);
    forall k | k in seen ensures k in LinkKeys(links, g) && k.source != INLINE {
      var i :| 0 <= i < |links| && g.calls(links[i]) && g.key(links[i]) == k;
      assert links[i] in links;
    }
    forall k | k in LinkKeys(links, g) ensures k in seen {
      var h :| h in links && g.calls(h) && g.key(h) == k;
      var i :| 0 <= i < |links| && links[i] == h;
      assert CalledBy(k, links, g);
    }
  }
}
