/** One hop of a page fetch: the client's events and the scheduler's steps together, driven by the event loop. */
module PageHop {
  import opened Http2Client
  import opened Resolver
  import opened Scheduler
  import opened SchedulerInvariant
  import opened SchedulerResults
  import opened SubresourceScanner
  import opened Wrappers

  datatype Hop = Hop(c: ClientState, s: Sched, log: seq<Submission>)

  function Step(x: Context, dec: Decoders, h: Hop, ev: Event): Hop {
    var (c, effect) := Http2Client.OnEvent(dec, h.c, ev);
    React(x, h.s, h.log, c, effect)
  }

  /** The scheduler's answer to what the client asks for. */
  function React(x: Context, s: Sched, log: seq<Submission>, c: ClientState, effect: Effect): Hop {
    match effect
    case Nothing => Hop(c, s, log)
    case Chunk(sid, payload) =>
      var (s1, log1) := OnBodyChunk(x, c.goaway, s, log, sid, payload);
      Hop(c, s1, log1)
    case Completed(sid, resp) =>
      var (s1, log1, stop) := OnStreamComplete(x, c.goaway, s, log, sid, resp);
      Hop(if stop then c.(running := false) else c, s1, log1)
  }

  function RunHop(x: Context, dec: Decoders, h: Hop, events: seq<Event>): Hop {
    if events == [] then h else Step(x, dec, RunHop(x, dec, h, events[..|events| - 1]), events[|events| - 1])
  }

  /** One turn of the event loop: the clock reading, what one receive delivered, and whether reading or
      writing then failed for good. */
  datatype Turn = Turn(elapsed: int, events: seq<Event>, broken: bool)

  function RunLoop(x: Context, dec: Decoders, h: Hop, turns: seq<Turn>, timeout: int): (Hop, bool)
    decreases |turns|
  {
    if !h.c.running || turns == [] then (h, true)
    else if timeout > 0 && turns[0].elapsed >= timeout then (h, false)
    else
      var h1 := RunHop(x, dec, h, turns[0].events);
      if turns[0].broken then (h1, true) else RunLoop(x, dec, h1, turns[1..], timeout)
  }

  // ---------- The loop in place ----------

  ghost function View(state: RuntimeSubresourceState): Hop
    reads state, state.scanner, state.batch, state.client
  {
    Hop(state.client.View(), state.View(), state.client.log)
  }

  method OnCallback(state: RuntimeSubresourceState, ev: Event)
    modifies state, state.scanner, state.batch, state.client
    ensures state.Ctx() == old(state.Ctx())
    ensures View(state) == Step(state.Ctx(), state.client.dec, old(View(state)), ev)
  {
    var client := state.client;
    var effect := client.OnCallback(ev);
    match effect {
      case Nothing =>
      case Chunk(sid, payload) =>
        state.BodyChunk(sid, payload);
      case Completed(sid, resp) =>
        var stop := state.StreamComplete(sid, resp);
        if stop {
          client.Stop();
        }
    }
  }

  method Receive(state: RuntimeSubresourceState, events: seq<Event>)
    modifies state, state.scanner, state.batch, state.client
    ensures state.Ctx() == old(state.Ctx())
    ensures View(state) == RunHop(state.Ctx(), state.client.dec, old(View(state)), events)
  {
    var i := 0;
    while i < |events|
      invariant i <= |events| && state.Ctx() == old(state.Ctx())
      invariant View(state) == RunHop(state.Ctx(), state.client.dec, old(View(state)), events[..i])
    {
      assert events[..i + 1][..i] == events[..i];
      OnCallback(state, events[i]);
      i := i + 1;
    }
    assert events[..i] == events;
  }

  method RunEventLoop(state: RuntimeSubresourceState, turns: seq<Turn>, timeout: int) returns (ok: bool)
    modifies state, state.scanner, state.batch, state.client
    ensures state.Ctx() == old(state.Ctx())
    ensures (View(state), ok) == RunLoop(state.Ctx(), state.client.dec, old(View(state)), turns, timeout)
  {
    var i := 0;
    while state.client.running && i < |turns|
      invariant i <= |turns| && state.Ctx() == old(state.Ctx())
      invariant RunLoop(state.Ctx(), state.client.dec, View(state), turns[i..], timeout)
                == RunLoop(state.Ctx(), state.client.dec, old(View(state)), turns, timeout)
    {
      var turn := turns[i];
      assert turns[i..][1..] == turns[i + 1..];
      if timeout > 0 && turn.elapsed >= timeout {
        return false;
      }
      i := i + 1;
      Receive(state, turn.events);
      if turn.broken { break; }
    }
    ok := true;
  }
}
