/** When the event loops end, and with which answer: told from the turns that were taken, without the loops
    themselves. */
module LoopEnds {
  import opened Http2Client
  import opened PageHop
  import PageRun
  import opened Scheduler
  import opened SingleHop

  /** The caller's time is up at this turn; a limit of 0 is none. */
  ghost predicate Late(turn: Turn, timeout: int) {
    timeout > 0 && turn.elapsed >= timeout
  }

  /** All that was received in these turns. */
  function Received(turns: seq<Turn>): seq<Event> {
    if turns == [] then [] else turns[0].events + Received(turns[1..])
  }

  /** The loop takes exactly `n` turns: it runs before each of them, none is late, and none but the last breaks
      the connection; `alive(i)` says whether it still runs after `i` turns. After them the connection is broken,
      the loop is stopped, nothing more happens, or, with the answer `false`, the next turn is late. */
  ghost predicate EndsAfter(turns: seq<Turn>, timeout: int, alive: nat -> bool, n: nat, ok: bool) {
    && n <= |turns|
    && (forall i :: 0 <= i < n ==> alive(i) && !Late(turns[i], timeout))
    && (forall i :: 0 <= i < n - 1 ==> !turns[i].broken)
    && if n > 0 && turns[n - 1].broken then ok
       else if !alive(n) || n == |turns| then ok
       else !ok && Late(turns[n], timeout)
  }

  lemma OneTurnMore(turns: seq<Turn>, timeout: int, alive: nat -> bool, tail: nat -> bool, n: nat, ok: bool)
    requires turns != [] && alive(0) && !Late(turns[0], timeout) && !turns[0].broken
    requires EndsAfter(turns[1..], timeout, tail, n, ok)
    requires forall i: nat :: i < |turns| ==> (tail(i) <==> alive(i + 1))
    ensures EndsAfter(turns, timeout, alive, n + 1, ok)
  {
    forall i | 0 <= i < n + 1 ensures alive(i) && !Late(turns[i], timeout) {
      if i > 0 {
        assert tail(i - 1) && turns[1..][i - 1] == turns[i];
      }
    }
    forall i | 0 <= i < n ensures !turns[i].broken {
      if i > 0 {
        assert turns[1..][i - 1] == turns[i];
      }
    }
    assert n > 0 ==> turns[1..][n - 1] == turns[n];
    assert n < |turns| - 1 ==> turns[1..][n] == turns[n + 1];
  }

  lemma ReceivedMore(turns: seq<Turn>, n: nat)
    requires turns != [] && n < |turns|
    ensures Received(turns[..n + 1]) == turns[0].events + Received(turns[1..][..n])
  {
    assert turns[..n + 1][1..] == turns[1..][..n];
  }

  // ---------- A plain request ----------

  ghost function SingleAlive(dec: Decoders, s: Single, turns: seq<Turn>): nat -> bool {
    (i: nat) => i <= |turns| && RunSingle(dec, s, Received(turns[..i])).c.running
  }

  ghost predicate SingleEnds(dec: Decoders, s: Single, turns: seq<Turn>, timeout: int, n: nat) {
    var (t, ok) := LoopSingle(dec, s, turns, timeout);
    && EndsAfter(turns, timeout, SingleAlive(dec, s, turns), n, ok)
    && t == RunSingle(dec, s, Received(turns[..n])) && Processed(dec, s, turns, timeout) == Received(turns[..n])
  }

  lemma {:induction false} SingleLoopEnds(dec: Decoders, s: Single, turns: seq<Turn>, timeout: int)
    ensures exists n: nat :: SingleEnds(dec, s, turns, timeout, n)
    decreases |turns|
  {
    if !s.c.running || turns == [] || Late(turns[0], timeout) {
      assert turns[..0] == [];
      assert SingleEnds(dec, s, turns, timeout, 0);
    } else {
      assert turns[..0] == [] && turns[..1] == [turns[0]] && turns[..1][1..] == [];
      assert Received(turns[..1]) == turns[0].events;
      if turns[0].broken {
        assert SingleEnds(dec, s, turns, timeout, 1);
      } else {
        var s1 := RunSingle(dec, s, turns[0].events);
        SingleLoopEnds(dec, s1, turns[1..], timeout);
        var n: nat :| SingleEnds(dec, s1, turns[1..], timeout, n);
        SingleOneTurn(dec, s, turns, timeout, n);
      }
    }
  }

  lemma SingleOneTurn(dec: Decoders, s: Single, turns: seq<Turn>, timeout: int, n: nat)
    requires s.c.running && turns != [] && !Late(turns[0], timeout) && !turns[0].broken
    requires SingleEnds(dec, RunSingle(dec, s, turns[0].events), turns[1..], timeout, n)
    ensures SingleEnds(dec, s, turns, timeout, n + 1)
  {
    var s1 := RunSingle(dec, s, turns[0].events);
    assert Received(turns[..0]) == [];
    forall i: nat | i < |turns|
      ensures RunSingle(dec, s1, Received(turns[1..][..i])) == RunSingle(dec, s, Received(turns[..i + 1]))
    {
      ReceivedMore(turns, i);
      RunSingleConcat(dec, s, turns[0].events, Received(turns[1..][..i]));
    }
    OneTurnMore(turns, timeout, SingleAlive(dec, s, turns), SingleAlive(dec, s1, turns[1..]), n,
                LoopSingle(dec, s1, turns[1..], timeout).1);
    ReceivedMore(turns, n);
  }

  // ---------- A page hop ----------

  ghost function PageAlive(x: Context, dec: Decoders, h: Hop, turns: seq<Turn>): nat -> bool {
    (i: nat) => i <= |turns| && RunHop(x, dec, h, Received(turns[..i])).c.running
  }

  ghost predicate PageEnds(x: Context, dec: Decoders, h: Hop, turns: seq<Turn>, timeout: int, n: nat) {
    var (t, ok) := RunLoop(x, dec, h, turns, timeout);
    && EndsAfter(turns, timeout, PageAlive(x, dec, h, turns), n, ok)
    && t == RunHop(x, dec, h, Received(turns[..n])) && PageRun.Seen(x, dec, h, turns, timeout) == Received(turns[..n])
  }

  lemma {:induction false} PageLoopEnds(x: Context, dec: Decoders, h: Hop, turns: seq<Turn>, timeout: int)
    ensures exists n: nat :: PageEnds(x, dec, h, turns, timeout, n)
    decreases |turns|
  {
    if !h.c.running || turns == [] || Late(turns[0], timeout) {
      assert turns[..0] == [];
      assert PageEnds(x, dec, h, turns, timeout, 0);
    } else {
      assert turns[..0] == [] && turns[..1] == [turns[0]] && turns[..1][1..] == [];
      assert Received(turns[..1]) == turns[0].events;
      if turns[0].broken {
        assert PageEnds(x, dec, h, turns, timeout, 1);
      } else {
        var h1 := RunHop(x, dec, h, turns[0].events);
        PageLoopEnds(x, dec, h1, turns[1..], timeout);
        var n: nat :| PageEnds(x, dec, h1, turns[1..], timeout, n);
        PageOneTurn(x, dec, h, turns, timeout, n);
      }
    }
  }

  lemma PageOneTurn(x: Context, dec: Decoders, h: Hop, turns: seq<Turn>, timeout: int, n: nat)
    requires h.c.running && turns != [] && !Late(turns[0], timeout) && !turns[0].broken
    requires PageEnds(x, dec, RunHop(x, dec, h, turns[0].events), turns[1..], timeout, n)
    ensures PageEnds(x, dec, h, turns, timeout, n + 1)
  {
    var h1 := RunHop(x, dec, h, turns[0].events);
    assert Received(turns[..0]) == [];
    forall i: nat | i < |turns|
      ensures RunHop(x, dec, h1, Received(turns[1..][..i])) == RunHop(x, dec, h, Received(turns[..i + 1]))
    {
      ReceivedMore(turns, i);
      PageRun.RunHopConcat(x, dec, h, turns[0].events, Received(turns[1..][..i]));
    }
    OneTurnMore(turns, timeout, PageAlive(x, dec, h, turns), PageAlive(x, dec, h1, turns[1..]), n,
                RunLoop(x, dec, h1, turns[1..], timeout).1);
    ReceivedMore(turns, n);
  }
}
