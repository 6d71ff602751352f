/** The concurrent connect race: every address is tried at once, the first success found by polling is returned,
    and a detached drainer takes and closes whatever the other attempts still produce. */
module ConnectRace {
  import opened Wrappers

  type Socket = int

  /** The process's table of open sockets. Closing one that is not open is not allowed. */
  class Kernel {
    var open: set<Socket>

    method Close(s: Socket)
      requires s in open
      modifies this
      ensures open == old(open) - {s}
    {
      open := open - {s};
    }
  }

  // ---------- One attempt ----------

  /** What the system answers during one attempt: the new socket, whether `connect` succeeded at once or is in
      progress, and what `select` and SO_ERROR said within the timeout. */
  datatype Dial = Dial(socket: Option<Socket>, atOnce: bool, inProgress: bool, writable: bool, soError: int)

  predicate Connects(d: Dial) {
    d.socket.Some? && (d.atOnce || (d.inProgress && d.writable && d.soError == 0))
  }

  /** An attempt that fails leaves no socket open; one that succeeds leaves exactly its own. */
  method TryConnect(kernel: Kernel, d: Dial) returns (r: Option<Socket>)
    requires d.socket.Some? ==> d.socket.value !in kernel.open
    modifies kernel
    ensures r == if d.socket.Some? && (d.atOnce || (d.inProgress && d.writable && d.soError == 0)) then d.socket
            else None
    ensures kernel.open == old(kernel.open) + (if r.Some? then {r.value} else {})
  {
    if d.socket.None? {
      return None;
    }
    var fd := d.socket.value;
    kernel.open := kernel.open + {fd};
    var connected := d.atOnce;
    if !connected {
      if d.inProgress {
        if d.writable {
          connected := d.soError == 0;
        }
      }
    }
    if !connected {
      kernel.Close(fd);
      return None;
    }
    r := Some(fd);
  }

  // ---------- Futures ----------

  /** An attempt's result and the time at which it is there. Taking it makes the future invalid, and an invalid
      future cannot be taken again. */
  class Future {
    const readyAt: nat
    const outcome: Option<Socket>
    var valid: bool

    constructor (readyAt: nat, outcome: Option<Socket>)
      ensures this.readyAt == readyAt && this.outcome == outcome && valid
    {
      this.readyAt, this.outcome, valid := readyAt, outcome, true;
    }

    method Take() returns (r: Option<Socket>)
      requires valid
      modifies this
      ensures !valid && r == outcome
    {
      valid := false;
      r := outcome;
    }

    /** Waits for at most two milliseconds, by a clock that never runs backwards. */
    method WaitFor(now: nat) returns (ready: bool, later: nat)
      ensures later >= now
      ensures if ready then readyAt <= later else now < readyAt && later >= now + 2
    {
      if readyAt <= now + 2 {
        later :| later >= now && later >= readyAt;
        ready := true;
      } else {
        later :| later >= now + 2;
        ready := false;
      }
    }
  }

  ghost predicate AllDistinct(futures: seq<Future>) {
    forall i, j :: 0 <= i < j < |futures| ==> futures[i] != futures[j]
  }

  /** Concurrently open sockets have different numbers. */
  ghost predicate DistinctSockets(futures: seq<Future>) {
    forall i, j :: 0 <= i < j < |futures| && futures[i].outcome.Some? && futures[j].outcome.Some?
                   ==> futures[i].outcome != futures[j].outcome
  }

  ghost function Sockets(futures: seq<Future>): set<Socket> {
    set i | 0 <= i < |futures| && futures[i].outcome.Some? :: futures[i].outcome.value
  }

  function CountDone(done: seq<bool>): nat {
    if done == [] then 0 else CountDone(done[..|done| - 1]) + if done[|done| - 1] then 1 else 0
  }

  lemma {:induction false} CountDoneUpdate(done: seq<bool>, i: nat)
    requires i < |done| && !done[i]
    ensures CountDone(done[i := true]) == CountDone(done) + 1
    decreases |done|
  {
    var n := |done| - 1;
    if i == n {
      assert done[i := true][..n] == done[..n];
    } else {
      assert done[i := true][..n] == done[..n][i := true];
      CountDoneUpdate(done[..n], i);
    }
  }

  lemma {:induction false} CountDoneFull(done: seq<bool>)
    ensures CountDone(done) <= |done|
    ensures CountDone(done) == |done| <==> forall i :: 0 <= i < |done| ==> done[i]
    decreases |done|
  {
    if done != [] {
      var n := |done| - 1;
      CountDoneFull(done[..n]);
      assert forall i :: 0 <= i < n ==> done[..n][i] == done[i];
    }
  }

  ghost function LastReady(futures: seq<Future>): (m: nat)
    ensures forall i :: 0 <= i < |futures| ==> futures[i].readyAt <= m
  {
    if futures == [] then 0
    else
      var m := LastReady(futures[..|futures| - 1]);
      var r := futures[|futures| - 1].readyAt;
      if r > m then r else m
  }

  // ---------- The poll loop ----------

  /** The state of the polling: the taken futures are the done ones, no success has been passed over, and the winner,
      if there is one, is the only success taken. */
  ghost predicate Polled(futures: seq<Future>, done: seq<bool>, completed: nat, winner: Option<Socket>, w: int)
    reads futures
  {
    && |done| == |futures| && completed == CountDone(done)
    && (forall i :: 0 <= i < |futures| ==> (futures[i].valid <==> !done[i]))
    && (forall i :: 0 <= i < |futures| && done[i] && i != w ==> futures[i].outcome.None?)
    && (if winner.Some? then 0 <= w < |futures| && done[w] && futures[w].outcome == winner else w == -1)
  }

  /** For every order and timing in which the attempts end: the call fails exactly when all of them failed; otherwise
      it returns a success, every other result taken so far was a failure, and addresses that come earlier in the
      list win against later ones that were ready no earlier than the start. */
  method HappyEyeballsConnect(futures: seq<Future>, start: nat)
    returns (winner: Option<Socket>, done: seq<bool>, ghost w: int)
    requires AllDistinct(futures) && forall f :: f in futures ==> f.valid
    modifies futures
    ensures Polled(futures, done, CountDone(done), winner, w)
    ensures winner.None? <==> forall f :: f in futures ==> f.outcome.None?
    ensures winner.None? ==> forall i :: 0 <= i < |done| ==> done[i]
    ensures forall j :: 0 <= j < |futures| && futures[j].outcome.Some? && futures[j].readyAt <= start
                        ==> winner.Some? && w <= j
  {
    var n := |futures|;
    done := seq(n, _ => false);
    var completed := 0;
    winner := None;
    w := -1;
    var now := start;
    NoneDone(n);
    while completed < n && winner.None?
      invariant Polled(futures, done, completed, winner, w) && now >= start
      invariant forall j :: 0 <= j < n && futures[j].outcome.Some? && futures[j].readyAt <= start ==>
                  (winner.None? ==> !done[j] && now == start) && (winner.Some? ==> w <= j)
      decreases n - completed, LastReady(futures) - now
    {
      CountDoneFull(done);
      winner, done, completed, now, w := Sweep(futures, done, completed, now);
      CountDoneFull(done);
    }
    CountDoneFull(done);
  }

  lemma {:induction false} NoneDone(n: nat)
    ensures CountDone(seq(n, _ => false)) == 0
    decreases n
  {
    if n > 0 {
      assert seq(n, _ => false)[..n - 1] == seq(n - 1, _ => false);
      NoneDone(n - 1);
    }
  }

  /** One round over the attempts that are not done yet. */
  method Sweep(futures: seq<Future>, done0: seq<bool>, completed0: nat, now0: nat)
    returns (winner: Option<Socket>, done: seq<bool>, completed: nat, now: nat, ghost w: int)
    requires AllDistinct(futures) && Polled(futures, done0, completed0, None, -1)
    modifies futures
    ensures Polled(futures, done, completed, winner, w) && now >= now0 && completed >= completed0
    ensures winner.None? && completed == completed0 ==> done == done0
    ensures forall i :: 0 <= i < |futures| && !done0[i] && completed == completed0 ==>
              now0 < futures[i].readyAt && now >= now0 + 2
    ensures forall j :: 0 <= j < |futures| && !done0[j] && futures[j].outcome.Some? && futures[j].readyAt <= now0
                        ==> winner.Some? && w <= j
  {
    winner, done, completed, now, w := None, done0, completed0, now0, -1;
    var i := 0;
    while i < |futures| && winner.None?
      invariant i <= |futures| && now >= now0 && completed >= completed0
      invariant Polled(futures, done, completed, winner, w)
      invariant completed == completed0 ==> done == done0
      invariant forall k :: i <= k < |futures| ==> done[k] == done0[k]
      invariant forall k :: 0 <= k < i && !done0[k] && completed == completed0 ==>
                  now0 < futures[k].readyAt && now >= now0 + 2
      invariant forall j :: 0 <= j < i && !done0[j] && futures[j].outcome.Some? && futures[j].readyAt <= now0
                            ==> winner.Some? && w <= j
      invariant winner.Some? ==> w < i && completed > completed0
    {
      if !done[i] {
        var ready, later := futures[i].WaitFor(now);
        now := later;
        if ready {
          CountDoneUpdate(done, i);
          done := done[i := true];
          completed := completed + 1;
          var ep := futures[i].Take();
          if ep.Some? {
            winner := ep;
            w := i;
          }
        }
      }
      i := i + 1;
    }
  }

  // ---------- The drainer ----------

  /** The sockets that attempts still out will produce. */
  ghost function Outstanding(futures: seq<Future>, done: seq<bool>): set<Socket>
    requires |done| == |futures|
  {
    set i | 0 <= i < |futures| && !done[i] && futures[i].outcome.Some? :: futures[i].outcome.value
  }

  /** Takes each result that was not taken, once, and closes each socket among them, once. */
  method Drain(kernel: Kernel, futures: seq<Future>, done: seq<bool>)
    requires AllDistinct(futures) && DistinctSockets(futures) && |done| == |futures|
    requires forall i :: 0 <= i < |futures| ==> (futures[i].valid <==> !done[i])
    requires Outstanding(futures, done) <= kernel.open
    modifies kernel, futures
    ensures forall f :: f in futures ==> !f.valid
    ensures kernel.open == old(kernel.open) - Outstanding(futures, done)
  {
    ghost var closed: set<Socket> := {};
    var i := 0;
    while i < |futures|
      invariant i <= |futures|
      invariant forall k :: 0 <= k < |futures| ==> (futures[k].valid <==> !done[k] && k >= i)
      invariant closed == set k | 0 <= k < i && !done[k] && futures[k].outcome.Some? :: futures[k].outcome.value
      invariant kernel.open == old(kernel.open) - closed
    {
      if !done[i] && futures[i].valid {
        var ep := futures[i].Take();
        if ep.Some? {
          assert futures[i].outcome.value in Outstanding(futures, done);
          kernel.Close(ep.value);
          closed := closed + {ep.value};
        }
      }
      i := i + 1;
    }
    assert closed == Outstanding(futures, done);
  }

  /** Polling, with the drainer run at any later time: every result is taken exactly once, and of all the sockets the
      attempts produced exactly the returned one stays open. */
  method PollAndDrain(kernel: Kernel, futures: seq<Future>, start: nat) returns (winner: Option<Socket>)
    requires AllDistinct(futures) && DistinctSockets(futures) && forall f :: f in futures ==> f.valid
    requires Sockets(futures) <= kernel.open
    modifies kernel, futures
    ensures forall f :: f in futures ==> !f.valid
    ensures winner.None? <==> Sockets(futures) == {}
    ensures winner.Some? ==> winner.value in Sockets(futures)
    ensures kernel.open == old(kernel.open) - Sockets(futures) + (if winner.Some? then {winner.value} else {})
  {
    var done;
    ghost var w;
    winner, done, w := HappyEyeballsConnect(futures, start);
    WinnerIsNotOutstanding(futures, done, winner, w);
    if CountDone(done) < |futures| {
      Drain(kernel, futures, done);
    } else {
      CountDoneFull(done);
      assert Outstanding(futures, done) == {};
    }
  }

  /** The sockets split into the returned one and those left to the drainer. */
  lemma WinnerIsNotOutstanding(futures: seq<Future>, done: seq<bool>, winner: Option<Socket>, w: int)
    requires DistinctSockets(futures) && |done| == |futures|
    requires forall i :: 0 <= i < |futures| && done[i] && i != w ==> futures[i].outcome.None?
    requires if winner.Some? then 0 <= w < |futures| && done[w] && futures[w].outcome == winner else w == -1
    ensures winner.Some? ==> winner.value !in Outstanding(futures, done)
    ensures Sockets(futures) == Outstanding(futures, done) + if winner.Some? then {winner.value} else {}
  {
  }

  // ---------- The whole race ----------

  function Outcome(d: Dial): Option<Socket> {
    if Connects(d) then d.socket else None
  }

  function Outcomes(dials: seq<Dial>): seq<Option<Socket>> {
    seq(|dials|, i requires 0 <= i < |dials| => Outcome(dials[i]))
  }

  ghost function Produced(dials: seq<Dial>): set<Socket> {
    set d | d in dials && Connects(d) :: d.socket.value
  }

  ghost function ProducedBy(dials: seq<Dial>, order: seq<nat>): set<Socket>
    requires forall k :: 0 <= k < |order| ==> order[k] < |dials|
  {
    set k | 0 <= k < |order| && Connects(dials[order[k]]) :: dials[order[k]].socket.value
  }

  /** `order` runs each attempt once, and the system gives no attempt the number of a socket that is open at the time: a
      number may come again only after the attempt that had it has failed and closed it. */
  ghost predicate RunOrder(open: set<Socket>, dials: seq<Dial>, order: seq<nat>) {
    && (forall k :: 0 <= k < |order| ==> order[k] < |dials|)
    && (forall i :: 0 <= i < |dials| ==> i in order)
    && (forall j, k :: 0 <= j < k < |order| ==> order[j] != order[k])
    && (forall d :: d in dials && d.socket.Some? ==> d.socket.value !in open)
    && (forall j, k :: 0 <= j < k < |order| && Connects(dials[order[j]]) ==>
          dials[order[j]].socket != dials[order[k]].socket)
  }

  /** Runs the attempts, in any order: what stays open are the sockets of the successful ones. */
  method RunAttempts(kernel: Kernel, dials: seq<Dial>, order: seq<nat>) returns (outcomes: seq<Option<Socket>>)
    requires RunOrder(kernel.open, dials, order)
    modifies kernel
    ensures outcomes == Outcomes(dials)
    ensures kernel.open == old(kernel.open) + Produced(dials)
  {
    outcomes := seq(|dials|, _ => None);
    var k := 0;
    while k < |order|
      invariant k <= |order| && |outcomes| == |dials|
      invariant kernel.open == old(kernel.open) + ProducedBy(dials, order[..k])
      invariant forall i :: 0 <= i < k ==> outcomes[order[i]] == Outcome(dials[order[i]])
    {
      NumberIsFree(old(kernel.open), dials, order, k);
      ProducedByOneMore(dials, order, k);
      var r := TryConnect(kernel, dials[order[k]]);
      outcomes := outcomes[order[k] := r];
      k := k + 1;
    }
    AllRun(dials, order);
    assert order[..k] == order;
    forall i | 0 <= i < |dials| ensures outcomes[i] == Outcome(dials[i]) {
      assert i in order;
      var j :| 0 <= j < |order| && order[j] == i;
    }
  }

  lemma NumberIsFree(open: set<Socket>, dials: seq<Dial>, order: seq<nat>, k: nat)
    requires RunOrder(open, dials, order) && k < |order|
    ensures dials[order[k]].socket.Some? ==> dials[order[k]].socket.value !in open + ProducedBy(dials, order[..k])
  {}

  lemma ProducedByOneMore(dials: seq<Dial>, order: seq<nat>, k: nat)
    requires k < |order| && forall j :: 0 <= j < |order| ==> order[j] < |dials|
    ensures ProducedBy(dials, order[..k + 1])
            == ProducedBy(dials, order[..k]) + if Connects(dials[order[k]]) then {dials[order[k]].socket.value} else {}
  {
    var a, b := order[..k], order[..k + 1];
    forall s | s in ProducedBy(dials, a) ensures s in ProducedBy(dials, b) {
      var j :| 0 <= j < |a| && Connects(dials[a[j]]) && dials[a[j]].socket.value == s;
      assert b[j] == a[j];
    }
    assert b[k] == order[k];
  }

  lemma AllRun(dials: seq<Dial>, order: seq<nat>)
    requires forall k :: 0 <= k < |order| ==> order[k] < |dials|
    requires forall i :: 0 <= i < |dials| ==> i in order
    ensures ProducedBy(dials, order) == Produced(dials)
  {
    forall s | s in Produced(dials) ensures s in ProducedBy(dials, order) {
      var i :| 0 <= i < |dials| && Connects(dials[i]) && dials[i].socket.value == s;
      assert i in order;
    }
  }

  method Launch(outcomes: seq<Option<Socket>>, readyAt: seq<nat>) returns (futures: seq<Future>)
    requires |readyAt| == |outcomes|
    ensures |futures| == |outcomes| && AllDistinct(futures) && fresh(set f | f in futures)
    ensures forall i :: 0 <= i < |futures| ==> futures[i].valid && futures[i].outcome == outcomes[i]
  {
    futures := [];
    for i := 0 to |outcomes|
      invariant |futures| == i && AllDistinct(futures) && fresh(set f | f in futures)
      invariant forall j :: 0 <= j < i ==> futures[j].valid && futures[j].outcome == outcomes[j]
    {
      var f := new Future(readyAt[i], outcomes[i]);
      futures := futures + [f];
    }
  }

  lemma SocketsOfOutcomes(open: set<Socket>, dials: seq<Dial>, order: seq<nat>, futures: seq<Future>)
    requires RunOrder(open, dials, order) && |futures| == |dials|
    requires forall i :: 0 <= i < |futures| ==> futures[i].outcome == Outcome(dials[i])
    ensures Sockets(futures) == Produced(dials) && DistinctSockets(futures) && Produced(dials) !! open
  {
    forall i, j | 0 <= i < j < |futures| && futures[i].outcome.Some? && futures[j].outcome.Some?
      ensures futures[i].outcome != futures[j].outcome
    {
      assert i in order && j in order;
      var a :| 0 <= a < |order| && order[a] == i;
      var b :| 0 <= b < |order| && order[b] == j;
    }
    forall s | s in Produced(dials) ensures s in Sockets(futures) {
      var i :| 0 <= i < |dials| && Connects(dials[i]) && dials[i].socket.value == s;
      assert futures[i].outcome == Some(s);
    }
  }

  /** The whole life of a race, from the first attempt to the drainer's end, for every order in which the attempts run
      and every time at which they end: the call fails exactly when all attempts failed, and one socket more is open
      than before, the returned one. */
  method Race(kernel: Kernel, dials: seq<Dial>, order: seq<nat>, readyAt: seq<nat>, start: nat)
    returns (winner: Option<Socket>)
    requires RunOrder(kernel.open, dials, order) && |readyAt| == |dials|
    modifies kernel
    ensures winner.None? <==>
            forall d :: d in dials ==>
              !(d.socket.Some? && (d.atOnce || (d.inProgress && d.writable && d.soError == 0)))
    ensures winner.Some? ==>
              exists d :: d in dials && d.socket == winner
                  && (d.atOnce || (d.inProgress && d.writable && d.soError == 0))
    ensures kernel.open == old(kernel.open) + if winner.Some? then {winner.value} else {}
  {
    var outcomes := RunAttempts(kernel, dials, order);
    var futures := Launch(outcomes, readyAt);
    SocketsOfOutcomes(old(kernel.open), dials, order, futures);
    winner := PollAndDrain(kernel, futures, start);
    if d :| d in dials && Connects(d) {
      assert d.socket.value in Produced(dials);
    }
  }
}
