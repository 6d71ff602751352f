/** Where tags stand in a document, and which of them survive when the document is scanned window by window. */
module TagPositions {
  import opened SubresourceScanner

  /** A tag found at `[begin, end)` of a text. */
  datatype Match = Match(begin: nat, end: nat, tag: Candidate)

  type Matcher = string -> seq<Match>

  function Tags(ms: seq<Match>): seq<Candidate> {
    seq(|ms|, i requires 0 <= i < |ms| => ms[i].tag)
  }

  function TagsOf(m: Matcher): Extractor {
    (text: string) => Tags(m(text))
  }

  function Shifted(ms: seq<Match>, k: nat): seq<Match> {
    seq(|ms|, i requires 0 <= i < |ms| => Match(ms[i].begin + k, ms[i].end + k, ms[i].tag))
  }

  /** Some match lies on both sides of position `k`. */
  ghost predicate Crosses(ms: seq<Match>, k: nat) {
    exists x :: x in ms && x.begin < k < x.end
  }

  /** What stands in a text does not depend on what stands around it: cut where no match crosses, the text has the
      matches of its two parts; and no match is empty
      or reaches over the end. */
  ghost predicate Local(m: Matcher) {
    && (forall t: string, k: nat :: k <= |t| && !Crosses(m(t), k) ==> SplitsAt(m, t, k))
    && (forall t: string, x :: x in m(t) ==> x.begin < x.end <= |t|)
  }

  ghost predicate SplitsAt(m: Matcher, t: string, k: nat)
    requires k <= |t|
  {
    SameMatches(m(t), m(t[..k]) + Shifted(m(t[k..]), k))
  }

  /** In whatever order: each pattern lists its own matches, one pattern after the other. */
  ghost predicate SameMatches(a: seq<Match>, b: seq<Match>) {
    forall x :: x in a <==> x in b
  }

  lemma TagIn(ms: seq<Match>, c: Candidate)
    ensures c in Tags(ms) <==> exists x :: x in ms && x.tag == c
  {
    if c in Tags(ms) {
      var i :| 0 <= i < |ms| && Tags(ms)[i] == c;
      assert ms[i] in ms;
    }
    if x :| x in ms && x.tag == c {
      var i :| 0 <= i < |ms| && ms[i] == x;
      assert Tags(ms)[i] == c;
    }
  }

  lemma SameUrls(a: seq<Match>, b: seq<Match>, page: string)
    requires SameMatches(a, b)
    ensures AbsUrls(Tags(a), page) == AbsUrls(Tags(b), page)
  {
    forall c ensures c in Tags(a) <==> c in Tags(b) {
      TagIn(a, c);
      TagIn(b, c);
    }
  }

  lemma TagsOfParts(whole: seq<Match>, a: seq<Match>, b: seq<Match>, k: nat, page: string)
    requires SameMatches(whole, a + Shifted(b, k))
    ensures AbsUrls(Tags(whole), page) == AbsUrls(Tags(a), page) + AbsUrls(Tags(b), page)
  {
    SameUrls(whole, a + Shifted(b, k), page);
    assert Tags(a + Shifted(b, k)) == Tags(a) + Tags(b);
    UrlsOfParts(Tags(a), Tags(b), page);
  }

  lemma UrlsOfParts(a: seq<Candidate>, b: seq<Candidate>, page: string)
    ensures AbsUrls(a + b, page) == AbsUrls(a, page) + AbsUrls(b, page)
  {
    assert forall c :: c in a + b <==> c in a || c in b;
  }

  /** Up to a cut that no match crosses, the matches are the first ones of the whole. */
  lemma UpToCut(m: Matcher, t: string, j: nat, k: nat)
    requires Local(m) && j <= k <= |t| && !Crosses(m(t), j) && !Crosses(m(t), k)
    ensures SplitsAt(m, t[..k], j)
  {
    assert SplitsAt(m, t, k);
    assert forall x :: x in m(t[..k]) ==> x in m(t);
  }

  lemma NothingInNothing(m: Matcher)
    requires Local(m)
    ensures m("") == []
  {
    SomeMatch(m(""));
    assert forall x :: x in m("") ==> x.begin < x.end <= |""|;
  }

  lemma SomeMatch(ms: seq<Match>)
    ensures ms == [] || exists x :: x in ms
  {
    if ms != [] {
      assert ms[0] in ms;
    }
  }

  /** No tag of the document lies across a place where the windows of `chunks` are cut. */
  ghost predicate NoTagIsCut(m: Matcher, chunks: seq<string>) {
    forall i :: 0 <= i <= |chunks| ==> !Crosses(m(Flatten(chunks)), Cut(chunks, i))
  }

  /** Where the windows are cut after the first `i` chunks. */
  function Cut(chunks: seq<string>, i: nat): (k: nat)
    requires i <= |chunks|
    ensures k <= |Flatten(chunks[..i])|
  {
    SafeEnd(|Flatten(chunks[..i])|)
  }

  lemma {:induction false} PrefixOfDocument(chunks: seq<string>, i: nat)
    requires i <= |chunks|
    ensures Flatten(chunks[..i]) <= Flatten(chunks)
    decreases |chunks|
  {
    if i < |chunks| {
      var before := chunks[..|chunks| - 1];
      PrefixOfDocument(before, i);
      assert before[..i] == chunks[..i];
    } else {
      assert chunks[..i] == chunks;
    }
  }

  lemma WindowOfChunk(chunks: seq<string>, i: nat)
    requires i < |chunks|
    ensures var doc := Flatten(chunks);
            && Cut(chunks, i) <= Cut(chunks, i + 1) <= |doc|
            && Windows(chunks[..i + 1])
               == Windows(chunks[..i])
                  + if Cut(chunks, i) < Cut(chunks, i + 1) then [doc[Cut(chunks, i)..Cut(chunks, i + 1)]] else []
  {
    PrefixOfDocument(chunks, i + 1);
    assert chunks[..i + 1][..i] == chunks[..i];
    SliceOfPrefix(Flatten(chunks[..i + 1]), Flatten(chunks), Cut(chunks, i), Cut(chunks, i + 1));
  }

  lemma SliceOfPrefix(part: string, doc: string, j: nat, k: nat)
    requires part <= doc && j <= k <= |part|
    ensures part[j..k] == doc[j..k]
  {}

  /** The windows so far hold the tags of the document up to the last cut. */
  lemma {:induction false} WindowsHoldTags(m: Matcher, page: string, max: int, chunks: seq<string>, i: nat)
    requires Local(m) && NoTagIsCut(m, chunks) && i <= |chunks|
    ensures Cut(chunks, i) <= |Flatten(chunks)|
    ensures WindowUrls(Config(TagsOf(m), page, max), Windows(chunks[..i]))
            == AbsUrls(Tags(m(Flatten(chunks)[..Cut(chunks, i)])), page)
    decreases i
  {
    if i == 0 {
      NothingInNothing(m);
      assert Flatten(chunks)[..0] == "";
    } else {
      WindowsHoldTags(m, page, max, chunks, i - 1);
      WindowOfChunk(chunks, i - 1);
      OneMoreHeld(m, page, max, Windows(chunks[..i - 1]), Flatten(chunks), Cut(chunks, i - 1), Cut(chunks, i));
    }
  }

  lemma OneMoreHeld(m: Matcher, page: string, max: int, before: seq<string>, doc: string, j: nat, k: nat)
    requires Local(m) && j <= k <= |doc| && !Crosses(m(doc), j) && !Crosses(m(doc), k)
    requires WindowUrls(Config(TagsOf(m), page, max), before) == AbsUrls(Tags(m(doc[..j])), page)
    ensures WindowUrls(Config(TagsOf(m), page, max), before + if j < k then [doc[j..k]] else [])
            == AbsUrls(Tags(m(doc[..k])), page)
  {
    if j < k {
      WindowUrlsSnoc(Config(TagsOf(m), page, max), before, doc[j..k]);
      OneMoreWindow(m, page, doc, j, k);
    } else {
      assert before + [] == before;
    }
  }

  lemma OneMoreWindow(m: Matcher, page: string, doc: string, j: nat, k: nat)
    requires Local(m) && j <= k <= |doc| && !Crosses(m(doc), j) && !Crosses(m(doc), k)
    ensures AbsUrls(Tags(m(doc[..k])), page) == AbsUrls(Tags(m(doc[..j])), page) + AbsUrls(Tags(m(doc[j..k])), page)
  {
    UpToCut(m, doc, j, k);
    assert doc[..k][..j] == doc[..j] && doc[..k][j..] == doc[j..k];
    TagsOfParts(m(doc[..k]), m(doc[..j]), m(doc[j..k]), j, page);
  }

  lemma AllWindowsHoldTags(m: Matcher, page: string, max: int, chunks: seq<string>)
    requires Local(m) && NoTagIsCut(m, chunks)
    ensures WindowUrls(Config(TagsOf(m), page, max), AllWindows(chunks)) == AbsUrls(Tags(m(Flatten(chunks))), page)
  {
    var c, doc, n := Config(TagsOf(m), page, max), Flatten(chunks), |chunks|;
    assert chunks[..n] == chunks;
    WindowsHoldTags(m, page, max, chunks, n);
    AllWindowUrls(c, chunks);
    assert doc[..|doc|] == doc;
    if doc == "" {
      NothingInNothing(m);
    } else {
      NoneAtTheEnd(m, doc);
      OneMoreWindow(m, page, doc, Cut(chunks, n), |doc|);
    }
  }

  /** Of a local matcher no match reaches over the end of the text. */
  lemma NoneAtTheEnd(m: Matcher, doc: string)
    requires Local(m)
    ensures !Crosses(m(doc), |doc|)
  {}

  /** In terms of where tags stand: if none lies across a cut, scanning chunk by chunk finds what a scan of the
      whole finds. */
  lemma UncutTagsAreFound(m: Matcher, page: string, max: int, chunks: seq<string>)
    requires Local(m) && NoTagIsCut(m, chunks)
    requires max <= 0 || |AbsUrls(Tags(m(Flatten(chunks))), page)| <= max
    ensures Urls(Incremental(Config(TagsOf(m), page, max), chunks))
            == Urls(Discover(TagsOf(m), Flatten(chunks), page, max))
  {
    AllWindowsHoldTags(m, page, max, chunks);
    IncrementalRefinesBatch(Config(TagsOf(m), page, max), chunks);
  }

  // ---------- A matcher that is local ----------

  /** All occurrences of a text, as matches of one tag. */
  function Occurrences(p: string, tag: Candidate, t: string): seq<Match> {
    if t == "" then [] else Occurrences(p, tag, t[..|t| - 1]) + AtEnd(p, tag, t)
  }

  function AtEnd(p: string, tag: Candidate, t: string): seq<Match> {
    if |p| <= |t| && t[|t| - |p|..] == p then [Match(|t| - |p|, |t|, tag)] else []
  }

  function Finds(p: string, tag: Candidate): Matcher {
    (t: string) => Occurrences(p, tag, t)
  }

  lemma {:induction false} OccurrencesInside(p: string, tag: Candidate, t: string)
    requires p != ""
    ensures forall x :: x in Occurrences(p, tag, t) ==> x.begin < x.end <= |t|
    decreases |t|
  {
    if t != "" {
      OccurrencesInside(p, tag, t[..|t| - 1]);
    }
  }

  lemma ShiftedConcat(a: seq<Match>, b: seq<Match>, k: nat)
    ensures Shifted(a + b, k) == Shifted(a, k) + Shifted(b, k)
  {}

  lemma AtEndOfRest(p: string, tag: Candidate, t: string, k: nat)
    requires k < |t| && !Crosses(AtEnd(p, tag, t), k)
    ensures AtEnd(p, tag, t) == Shifted(AtEnd(p, tag, t[k..]), k)
  {
    if |p| <= |t| && t[|t| - |p|..] == p {
      assert Match(|t| - |p|, |t|, tag) in AtEnd(p, tag, t);
    }
    if |p| <= |t| - k {
      assert t[k..][|t| - k - |p|..] == t[|t| - |p|..];
    }
  }

  lemma OccurrencesOfRest(p: string, tag: Candidate, t: string, k: nat)
    requires k < |t|
    ensures Occurrences(p, tag, t[k..]) == Occurrences(p, tag, t[..|t| - 1][k..]) + AtEnd(p, tag, t[k..])
  {
    assert t[k..][..|t| - k - 1] == t[..|t| - 1][k..];
  }

  lemma Rejoined(before: seq<Match>, front: seq<Match>, rest: seq<Match>, end: seq<Match>, last: seq<Match>, k: nat)
    requires before == front + Shifted(rest, k) && end == Shifted(last, k)
    ensures before + end == front + Shifted(rest + last, k)
  {
    ShiftedConcat(rest, last, k);
  }

  lemma NoneOfParts(a: seq<Match>, b: seq<Match>, k: nat)
    requires !Crosses(a + b, k)
    ensures !Crosses(a, k) && !Crosses(b, k)
  {
    assert forall x :: x in a || x in b ==> x in a + b;
  }

  lemma NothingBehind(p: string, tag: Candidate, t: string)
    ensures Occurrences(p, tag, t) == Occurrences(p, tag, t[..|t|]) + Shifted(Occurrences(p, tag, t[|t|..]), |t|)
  {
    assert t[..|t|] == t && t[|t|..] == "";
  }

  lemma {:induction false} OccurrencesSplit(p: string, tag: Candidate, t: string, k: nat)
    requires k <= |t| && !Crosses(Occurrences(p, tag, t), k)
    ensures Occurrences(p, tag, t) == Occurrences(p, tag, t[..k]) + Shifted(Occurrences(p, tag, t[k..]), k)
    decreases |t|
  {
    if k == |t| {
      NothingBehind(p, tag, t);
    } else {
      var s := t[..|t| - 1];
      var before, end := Occurrences(p, tag, s), AtEnd(p, tag, t);
      NoneOfParts(before, end, k);
      OccurrencesSplit(p, tag, s, k);
      assert s[..k] == t[..k];
      AtEndOfRest(p, tag, t, k);
      OccurrencesOfRest(p, tag, t, k);
      Rejoined(before, Occurrences(p, tag, t[..k]), Occurrences(p, tag, s[k..]), end, AtEnd(p, tag, t[k..]), k);
    }
  }

  /** The tag that is one fixed text is such a pattern. */
  lemma FixedTextIsLocal(p: string, tag: Candidate)
    requires p != ""
    ensures Local(Finds(p, tag))
  {
    var m := Finds(p, tag);
    forall t: string, k: nat | k <= |t| && !Crosses(m(t), k) ensures SplitsAt(m, t, k) {
      OccurrencesSplit(p, tag, t, k);
    }
    forall t: string, x | x in m(t) ensures x.begin < x.end <= |t| {
      OccurrencesInside(p, tag, t);
    }
  }

  /** One pattern after the other. */
  function Both(m1: Matcher, m2: Matcher): Matcher {
    (t: string) => m1(t) + m2(t)
  }

  /** So are several such patterns together. */
  lemma BothAreLocal(m1: Matcher, m2: Matcher)
    requires Local(m1) && Local(m2)
    ensures Local(Both(m1, m2))
  {
    var m := Both(m1, m2);
    forall t: string, k: nat | k <= |t| && !Crosses(m(t), k) ensures SplitsAt(m, t, k) {
      NoneOfParts(m1(t), m2(t), k);
      assert SplitsAt(m1, t, k) && SplitsAt(m2, t, k);
      ShiftedConcat(m1(t[k..]), m2(t[k..]), k);
    }
  }
}
