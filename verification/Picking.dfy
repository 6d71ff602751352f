/** Which elements of a list are taken, in order: the positions, told apart from what is made of them. */
module Picking {
  /** The positions below `n` that are wanted, in increasing order: all of them, and no other. */
  ghost predicate Picks(idx: seq<nat>, n: nat, want: nat -> bool) {
    && (forall j :: 0 <= j < |idx| ==> idx[j] < n && want(idx[j]))
    && (forall j, k :: 0 <= j < k < |idx| ==> idx[j] < idx[k])
    && (forall i: nat :: i < n && want(i) ==> i in idx)
  }

  lemma PickNext(idx: seq<nat>, n: nat, want: nat -> bool)
    requires Picks(idx, n, want)
    ensures Picks(if want(n) then idx + [n] else idx, n + 1, want)
  {
    if want(n) {
      var more := idx + [n];
      forall i: nat | i < n + 1 && want(i) ensures i in more {
        if i < n {
          assert i in idx;
        } else {
          assert more[|idx|] == n;
        }
      }
    }
  }

  function Later(idx: seq<nat>): seq<nat> {
    seq(|idx|, i requires 0 <= i < |idx| => idx[i] + 1)
  }

  lemma LaterAt(idx: seq<nat>, n: nat, tail: nat -> bool, want: nat -> bool)
    requires Picks(idx, n, tail) && forall i: nat :: i < n ==> (tail(i) <==> want(i + 1))
    ensures forall j :: 0 <= j < |idx| ==> 0 < Later(idx)[j] < n + 1 && want(Later(idx)[j])
    ensures forall j, k :: 0 <= j < k < |idx| ==> Later(idx)[j] < Later(idx)[k]
    ensures forall i: nat :: 0 < i < n + 1 && want(i) ==> i in Later(idx)
  {
    forall i: nat | 0 < i < n + 1 && want(i) ensures i in Later(idx) {
      assert tail(i - 1) && i - 1 in idx;
      var j :| 0 <= j < |idx| && idx[j] == i - 1;
      assert Later(idx)[j] == i;
    }
  }

  /** Positions in a tail, told as positions in the whole: the head is one more, if it is wanted. */
  lemma PickFirst(idx: seq<nat>, n: nat, tail: nat -> bool, want: nat -> bool)
    requires Picks(idx, n, tail) && forall i: nat :: i < n ==> (tail(i) <==> want(i + 1))
    ensures Picks((if want(0) then [0] else []) + Later(idx), n + 1, want)
  {
    LaterAt(idx, n, tail, want);
    if want(0) {
      HeadOfPicks(Later(idx), n + 1, want);
    } else {
      TailOfPicks(Later(idx), n + 1, want);
      assert [] + Later(idx) == Later(idx);
    }
  }

  lemma TailOfPicks(later: seq<nat>, n: nat, want: nat -> bool)
    requires 0 < n && !want(0) && forall j :: 0 <= j < |later| ==> 0 < later[j] < n && want(later[j])
    requires forall j, k :: 0 <= j < k < |later| ==> later[j] < later[k]
    requires forall i: nat :: 0 < i < n && want(i) ==> i in later
    ensures Picks(later, n, want)
  {}

  lemma HeadOfPicks(later: seq<nat>, n: nat, want: nat -> bool)
    requires 0 < n && want(0) && forall j :: 0 <= j < |later| ==> 0 < later[j] < n && want(later[j])
    requires forall j, k :: 0 <= j < k < |later| ==> later[j] < later[k]
    requires forall i: nat :: 0 < i < n && want(i) ==> i in later
    ensures Picks([0] + later, n, want)
  {
    var more := [0] + later;
    assert more[0] == 0;
    forall i: nat | i < n && want(i) ensures i in more {
      if i > 0 {
        assert i in later;
      }
    }
  }

  // ---------- What is made of the elements taken ----------

  ghost function At<T>(items: seq<T>, want: T -> bool): nat -> bool {
    (i: nat) => i < |items| && want(items[i])
  }

  ghost predicate ChosenAt<T, U>(out: seq<U>, items: seq<T>, want: T -> bool, fits: (T, U) -> bool, idx: seq<nat>) {
    && Picks(idx, |items|, At(items, want)) && |out| == |idx|
    && forall j :: 0 <= j < |idx| ==> fits(items[idx[j]], out[j])
  }

  /** One output for each element wanted, in order, and none besides; `fits` says what the output is. */
  ghost predicate Chosen<T, U>(out: seq<U>, items: seq<T>, want: T -> bool, fits: (T, U) -> bool) {
    exists idx :: ChosenAt(out, items, want, fits, idx)
  }

  lemma ChooseNone<T, U>(want: T -> bool, fits: (T, U) -> bool)
    ensures Chosen<T, U>([], [], want, fits)
  {
    var none: seq<nat> := [];
    assert ChosenAt<T, U>([], [], want, fits, none);
  }

  ghost predicate OneMore<U>(out: seq<U>, out2: seq<U>) {
    |out2| == |out| + 1 && out2[..|out|] == out
  }

  lemma PicksBefore<T>(items: seq<T>, n: nat, want: T -> bool, idx: seq<nat>)
    requires |items| == n + 1 && Picks(idx, n, At(items[..n], want))
    ensures Picks(if want(items[n]) then idx + [n] else idx, n + 1, At(items, want))
  {
    forall i: nat | i < n ensures At(items[..n], want)(i) <==> At(items, want)(i) {
      assert items[..n][i] == items[i];
    }
    PickNext(idx, n, At(items, want));
  }

  lemma ChooseNext<T, U>(out: seq<U>, out2: seq<U>, items: seq<T>, n: nat, want: T -> bool, fits: (T, U) -> bool)
    requires |items| == n + 1 && Chosen(out, items[..n], want, fits)
    requires if want(items[n]) then OneMore(out, out2) && fits(items[n], out2[|out|]) else out2 == out
    ensures Chosen(out2, items, want, fits)
  {
    var idx :| ChosenAt(out, items[..n], want, fits, idx);
    PicksBefore(items, n, want, idx);
    ChooseAt(out, out2, items, n, want, fits, idx, if want(items[n]) then idx + [n] else idx);
  }

  lemma ChooseAt<T, U>(out: seq<U>, out2: seq<U>, items: seq<T>, n: nat, want: T -> bool, fits: (T, U) -> bool,
                       idx: seq<nat>, idx2: seq<nat>)
    requires |items| == n + 1 && ChosenAt(out, items[..n], want, fits, idx)
    requires idx2 == (if want(items[n]) then idx + [n] else idx) && Picks(idx2, n + 1, At(items, want))
    requires if want(items[n]) then OneMore(out, out2) && fits(items[n], out2[|out|]) else out2 == out
    ensures ChosenAt(out2, items, want, fits, idx2)
  {
    forall j | 0 <= j < |idx2| ensures fits(items[idx2[j]], out2[j]) {
      if j < |idx| {
        assert fits(items[..n][idx[j]], out[j]) && out2[..|out|][j] == out2[j];
      }
    }
  }
}
