/** The searches of std::string that the URL code is written with.
    "Not found" is the length of the string rather than npos. */
module Text {

  /** First index from `from` on that holds a character of `cs`, or `|s|`. */
  function FindFirstOf(s: string, cs: set<char>, from: nat): (i: nat)
    requires from <= |s|
    ensures from <= i <= |s|
    ensures forall k :: from <= k < i ==> s[k] !in cs
    ensures i < |s| ==> s[i] in cs
    decreases |s| - from
  {
    if from == |s| || s[from] in cs then from else FindFirstOf(s, cs, from + 1)
  }

  /** Last index that holds `c`, or `|s|`. */
  function FindLast(s: string, c: char): (i: nat)
    ensures i <= |s|
    ensures i < |s| ==> s[i] == c
    ensures forall k :: i < k < |s| ==> s[k] != c
    ensures i == |s| ==> c !in s
  {
    if s == [] then 0
    else if s[|s| - 1] == c then |s| - 1
    else
      var j := FindLast(s[..|s| - 1], c);
      if j == |s| - 1 then |s| else j
  }

  /** The text before the first character of `cs`. */
  function Before(s: string, cs: set<char>): (a: string)
    ensures FreeOf(a, cs)
  {
    s[..FindFirstOf(s, cs, 0)]
  }

  /** The text from the first character of `cs` on; empty if there is none. */
  function From(s: string, cs: set<char>): (b: string)
    ensures b == "" || b[0] in cs
    ensures s == Before(s, cs) + b
  {
    s[FindFirstOf(s, cs, 0)..]
  }

  /** Both parts by position. */
  lemma CutAtFirst(s: string, cs: set<char>, i: nat)
    requires i == FindFirstOf(s, cs, 0)
    ensures Before(s, cs) == s[..i] && From(s, cs) == s[i..]
    ensures From(s, cs) == "" <==> i == |s|
    ensures i < |s| ==> From(s, cs)[1..] == s[i + 1..]
  {}

  /** No character of `cs` occurs in `s`. */
  ghost predicate FreeOf(s: string, cs: set<char>) {
    forall k :: 0 <= k < |s| ==> s[k] !in cs
  }

  lemma NoCut(s: string, cs: set<char>)
    ensures From(s, cs) == "" <==> FreeOf(s, cs)
    ensures FreeOf(s, cs) ==> Before(s, cs) == s
  {
    if FreeOf(s, cs) {
      FindFirstOfIs(s, cs, 0, |s|);
    }
  }

  lemma FreeOfParts(a: string, b: string, cs: set<char>)
    requires FreeOf(a + b, cs)
    ensures FreeOf(a, cs) && FreeOf(b, cs)
  {
    forall k | 0 <= k < |a| ensures a[k] !in cs {
      assert a[k] == (a + b)[k];
    }
    forall k | 0 <= k < |b| ensures b[k] !in cs {
      assert b[k] == (a + b)[|a| + k];
    }
  }

  lemma Assoc(a: string, b: string, c: string)
    ensures a + b + c == a + (b + c)
  {}

  lemma CutAround(s: string, i: nat, c: char)
    requires i < |s| && s[i] == c
    ensures s == s[..i] + ([c] + s[i + 1..])
  {}

  lemma DropPrefix(p: string, s: string)
    requires p <= s
    ensures s == p + s[|p|..]
  {}

  lemma SliceTail(s: string, i: nat, j: nat)
    requires i < j <= |s|
    ensures s[i..j][1..] == s[i + 1..j]
  {}

  lemma DropDrop(s: string, i: nat, j: nat)
    requires i + j <= |s|
    ensures s[i..][j..] == s[i + j..]
  {}

  /** A search result is determined by what it promises. */
  lemma FindFirstOfIs(s: string, cs: set<char>, from: nat, i: nat)
    requires from <= i <= |s|
    requires forall k :: from <= k < i ==> s[k] !in cs
    requires i < |s| ==> s[i] in cs
    ensures FindFirstOf(s, cs, from) == i
  {}

  /** Searching from a cursor is searching the rest of the string. */
  lemma FindFirstOfSuffix(s: string, cs: set<char>, i: nat)
    requires i <= |s|
    ensures s[i..FindFirstOf(s, cs, i)] == Before(s[i..], cs)
    ensures s[FindFirstOf(s, cs, i)..] == From(s[i..], cs)
  {
    var j := FindFirstOf(s[i..], cs, 0);
    forall k | i <= k < i + j ensures s[k] !in cs {
      assert s[k] == s[i..][k - i];
    }
    FindFirstOfIs(s, cs, i, i + j);
  }

  /** The cut of `a + b` falls at the seam when `b` is empty or starts with a delimiter. */
  lemma CutAtSeam(a: string, b: string, cs: set<char>)
    requires FreeOf(a, cs)
    requires b == [] || b[0] in cs
    ensures Before(a + b, cs) == a && From(a + b, cs) == b
  {
    assert forall k :: 0 <= k < |a| ==> (a + b)[k] == a[k];
    FindFirstOfIs(a + b, cs, 0, |a|);
  }
}
