/** One hop of a plain fetch: the client's events until a response or a redirect has been captured. */
module SingleHop {
  import opened Http2Client
  import opened PageHop
  import opened Wrappers

  /** The client and the response that the caller's callback has captured. */
  datatype Single = Single(c: ClientState, got: Option<Response>)

  function StepSingle(dec: Decoders, s: Single, ev: Event): Single {
    var (c, effect) := Http2Client.OnEvent(dec, s.c, ev);
    if effect.Completed? then Single(c.(running := false), Some(effect.resp)) else Single(c, s.got)
  }

  function RunSingle(dec: Decoders, s: Single, events: seq<Event>): Single {
    if events == [] then s else StepSingle(dec, RunSingle(dec, s, events[..|events| - 1]), events[|events| - 1])
  }

  function LoopSingle(dec: Decoders, s: Single, turns: seq<Turn>, timeout: int): (Single, bool)
    decreases |turns|
  {
    if !s.c.running || turns == [] then (s, true)
    else if timeout > 0 && turns[0].elapsed >= timeout then (s, false)
    else
      var s1 := RunSingle(dec, s, turns[0].events);
      if turns[0].broken then (s1, true) else LoopSingle(dec, s1, turns[1..], timeout)
  }

  method RunSingleLoop(client: Client, turns: seq<Turn>, timeout: int) returns (ok: bool, got: Option<Response>)
    modifies client
    ensures client.log == old(client.log)
    ensures (Single(client.View(), got), ok) == LoopSingle(client.dec, Single(old(client.View()), None), turns, timeout)
  {
    got := None;
    var i := 0;
    while client.running && i < |turns|
      invariant i <= |turns| && client.log == old(client.log)
      invariant LoopSingle(client.dec, Single(client.View(), got), turns[i..], timeout)
                == LoopSingle(client.dec, Single(old(client.View()), None), turns, timeout)
    {
      var turn := turns[i];
      assert turns[i..][1..] == turns[i + 1..];
      if timeout > 0 && turn.elapsed >= timeout {
        ok := false;
        return;
      }
      i := i + 1;
      got := ReceiveSingle(client, got, turn.events);
      if turn.broken { break; }
    }
    ok := true;
  }

  method ReceiveSingle(client: Client, got0: Option<Response>, events: seq<Event>) returns (got: Option<Response>)
    modifies client
    ensures client.log == old(client.log)
    ensures Single(client.View(), got) == RunSingle(client.dec, Single(old(client.View()), got0), events)
  {
    got := got0;
    for i := 0 to |events|
      invariant client.log == old(client.log)
      invariant Single(client.View(), got) == RunSingle(client.dec, Single(old(client.View()), got0), events[..i])
    {
      assert events[..i + 1][..i] == events[..i];
      var effect := client.OnCallback(events[i]);
      if effect.Completed? {
        got := Some(effect.resp);
        client.Stop();
      }
    }
    assert events[..|events|] == events;
  }

  // ---------- What the loop's answer means ----------

  /** While the loop runs, nothing terminal has arrived: no response, no redirect, no GOAWAY since the start. */
  ghost predicate Waiting(s: Single) {
    s.c.running ==> s.got == None && s.c.redirectUrl == "" && !s.c.goaway
  }

  lemma {:induction false} RunKeepsWaiting(dec: Decoders, s: Single, events: seq<Event>)
    requires Waiting(s)
    ensures Waiting(RunSingle(dec, s, events)) && RunSingle(dec, s, events).c.host == s.c.host
    decreases |events|
  {
    if events != [] {
      RunKeepsWaiting(dec, s, events[..|events| - 1]);
    }
  }

  /** The loop answers false only on a timeout, and then no terminal frame has arrived. */
  lemma {:induction false} TimeoutMeansNothingTerminal(dec: Decoders, s: Single, turns: seq<Turn>, timeout: int)
    requires Waiting(s)
    ensures var (t, ok) := LoopSingle(dec, s, turns, timeout);
            && Waiting(t) && t.c.host == s.c.host
            && (!ok ==> timeout > 0 && t.c.running && t.got == None && t.c.redirectUrl == "" && !t.c.goaway)
    decreases |turns|
  {
    if s.c.running && turns != [] && !(timeout > 0 && turns[0].elapsed >= timeout) {
      RunKeepsWaiting(dec, s, turns[0].events);
      var s1 := RunSingle(dec, s, turns[0].events);
      if !turns[0].broken {
        TimeoutMeansNothingTerminal(dec, s1, turns[1..], timeout);
      }
    }
  }

  /** The events that a loop gets to see before it ends. */
  function Processed(dec: Decoders, s: Single, turns: seq<Turn>, timeout: int): seq<Event>
    decreases |turns|
  {
    if !s.c.running || turns == [] || (timeout > 0 && turns[0].elapsed >= timeout) then []
    else if turns[0].broken then turns[0].events
    else turns[0].events + Processed(dec, RunSingle(dec, s, turns[0].events), turns[1..], timeout)
  }

  lemma {:induction false} RunSingleConcat(dec: Decoders, s: Single, a: seq<Event>, b: seq<Event>)
    ensures RunSingle(dec, s, a + b) == RunSingle(dec, RunSingle(dec, s, a), b)
    decreases |b|
  {
    if b == [] {
      assert a + b == a;
    } else {
      assert (a + b)[..|a + b| - 1] == a + b[..|b| - 1];
      RunSingleConcat(dec, s, a, b[..|b| - 1]);
    }
  }

  /** However the events are cut into receives, the loop is one run over the events it has seen. */
  lemma {:induction false} LoopIsRun(dec: Decoders, s: Single, turns: seq<Turn>, timeout: int)
    ensures LoopSingle(dec, s, turns, timeout).0 == RunSingle(dec, s, Processed(dec, s, turns, timeout))
    decreases |turns|
  {
    if s.c.running && turns != [] && !(timeout > 0 && turns[0].elapsed >= timeout) && !turns[0].broken {
      var s1 := RunSingle(dec, s, turns[0].events);
      LoopIsRun(dec, s1, turns[1..], timeout);
      RunSingleConcat(dec, s, turns[0].events, Processed(dec, s1, turns[1..], timeout));
    }
  }

  /** Event `k` ends a stream whose response is a redirect, and `next` is its Location as the client resolves it. */
  ghost predicate RedirectsAt(dec: Decoders, s: Single, events: seq<Event>, k: nat, next: string) {
    && k < |events| && EndsStream(events[k])
    && var r := TouchStatus(Get(RunSingle(dec, s, events[..k]).c.responses, events[k].sid));
       IsRedirect(r) && next == ResolveLocation(s.c.host, r.headers["location"])
  }

  ghost predicate Redirects(dec: Decoders, s: Single, events: seq<Event>, next: string) {
    exists k: nat :: RedirectsAt(dec, s, events, k, next)
  }

  lemma SingleKeepsHost(dec: Decoders, s: Single, events: seq<Event>)
    ensures RunSingle(dec, s, events).c.host == s.c.host
  {
    if events != [] {
      SingleKeepsHost(dec, s, events[..|events| - 1]);
    }
  }

  lemma RedirectStep(dec: Decoders, c: ClientState, ev: Event)
    ensures var c2 := Http2Client.OnEvent(dec, c, ev).0;
            c2.redirectUrl == c.redirectUrl
            || (EndsStream(ev) && var r := TouchStatus(Get(c.responses, ev.sid));
                IsRedirect(r) && c2.redirectUrl == ResolveLocation(c.host, r.headers["location"]))
  {}

  /** The URL a hop redirects to is the resolved Location of a redirect response received in that hop. */
  lemma {:induction false} RedirectWasReceived(dec: Decoders, s: Single, events: seq<Event>)
    requires s.c.redirectUrl == ""
    ensures var url := RunSingle(dec, s, events).c.redirectUrl; url == "" || Redirects(dec, s, events, url)
    decreases |events|
  {
    if events != [] {
      var n := |events| - 1;
      var before, after := RunSingle(dec, s, events[..n]), RunSingle(dec, s, events);
      RedirectWasReceived(dec, s, events[..n]);
      SingleKeepsHost(dec, s, events[..n]);
      RedirectStep(dec, before.c, events[n]);
      if after.c.redirectUrl != before.c.redirectUrl {
        assert RedirectsAt(dec, s, events, n, after.c.redirectUrl);
      } else if after.c.redirectUrl != "" {
        var k: nat :| RedirectsAt(dec, s, events[..n], k, after.c.redirectUrl);
        assert events[..n][..k] == events[..k];
        assert RedirectsAt(dec, s, events, k, after.c.redirectUrl);
      }
    }
  }

  // ---------- The captured response ----------

  /** Event `k` ends a stream, and the client hands `r` on for it. */
  ghost predicate CapturedAt(dec: Decoders, s: Single, events: seq<Event>, k: nat, r: Response) {
    && k < |events| && EndsStream(events[k])
    && Http2Client.OnEvent(dec, RunSingle(dec, s, events[..k]).c, events[k]).1 == Completed(events[k].sid, r)
  }

  lemma CaptureStep(dec: Decoders, s: Single, ev: Event)
    ensures var t := StepSingle(dec, s, ev);
            t.got == s.got || (EndsStream(ev) && t.got.Some?
                               && Http2Client.OnEvent(dec, s.c, ev).1 == Completed(ev.sid, t.got.value))
  {}

  lemma {:induction false} ResponseWasReceived(dec: Decoders, s: Single, events: seq<Event>) returns (k: nat)
    requires s.got == None && RunSingle(dec, s, events).got.Some?
    ensures CapturedAt(dec, s, events, k, RunSingle(dec, s, events).got.value)
    decreases |events|
  {
    var n := |events| - 1;
    var before := RunSingle(dec, s, events[..n]);
    CaptureStep(dec, before, events[n]);
    if RunSingle(dec, s, events).got == before.got {
      k := ResponseWasReceived(dec, s, events[..n]);
      assert events[..n][..k] == events[..k];
    } else {
      k := n;
    }
  }

  lemma {:induction false} SingleResponses(dec: Decoders, s: Single, events: seq<Event>)
    ensures RunSingle(dec, s, events).c.responses == Run(dec, s.c, events).responses
    ensures RunSingle(dec, s, events).c.host == Run(dec, s.c, events).host
    decreases |events|
  {
    if events != [] {
      var n := |events| - 1;
      SingleResponses(dec, s, events[..n]);
      SameResponses(dec, RunSingle(dec, s, events[..n]).c, Run(dec, s.c, events[..n]), events[n]);
    }
  }

  /** A hop's answer and its redirect, told from its frames alone: the response and the Location of the last stream
      that ended with one. */
  lemma {:induction false} Provenance(dec: Decoders, s: Single, events: seq<Event>, n: nat)
    requires s.got == None && s.c.redirectUrl == "" && s.c.responses == map[] && EndsOnce(events) && n <= |events|
    ensures var t, k := RunSingle(dec, s, events[..n]), LastDelivery(events, n);
            && t.got == (if k.Some? then Some(Decompress(dec, WholeAt(events, k.value))) else None)
            && t.c.redirectUrl == RedirectedTo(s.c.host, events, n)
    decreases n
  {
    if n > 0 {
      Provenance(dec, s, events, n - 1);
      assert events[..n][..n - 1] == events[..n - 1];
      SingleKeepsHost(dec, s, events[..n - 1]);
      SingleResponses(dec, s, events[..n - 1]);
      ProvenanceStep(dec, RunSingle(dec, s, events[..n - 1]), events[n - 1]);
      if EndsStream(events[n - 1]) {
        HeldIsWhole(dec, s.c, events, n - 1);
      }
    }
  }

  lemma ProvenanceStep(dec: Decoders, s: Single, ev: Event)
    ensures var t := StepSingle(dec, s, ev);
            if !EndsStream(ev) then t.got == s.got && t.c.redirectUrl == s.c.redirectUrl
            else
              var r := TouchStatus(Get(s.c.responses, ev.sid));
              if IsRedirect(r)
                  then t.got == s.got && t.c.redirectUrl == ResolveLocation(s.c.host, r.headers["location"])
              else t.got == Some(Decompress(dec, r)) && t.c.redirectUrl == s.c.redirectUrl
  {}

  ghost predicate Captures(dec: Decoders, s: Single, events: seq<Event>, k: nat) {
    k < |events| && Http2Client.OnEvent(dec, RunSingle(dec, s, events[..k]).c, events[k]).1.Completed?
  }

  /** The last response that the client handed on in the hop was that of stream `sid`. */
  ghost predicate AnswerComesFrom(dec: Decoders, s: Single, events: seq<Event>, sid: int) {
    exists k: nat :: Captures(dec, s, events, k) && EndsStream(events[k]) && events[k].sid == sid
                     && forall j: nat :: k < j ==> !Captures(dec, s, events, j)
  }

  lemma CapturesIsResponse(dec: Decoders, s: Single, events: seq<Event>, k: nat)
    requires s.c.responses == map[] && EndsOnce(events)
    ensures Captures(dec, s, events, k) <==> EndsInResponse(events, k)
  {
    if k < |events| && EndsStream(events[k]) {
      SingleResponses(dec, s, events[..k]);
      HeldIsWhole(dec, s.c, events, k);
    }
  }

  /** The answer is the response of the stream asked for exactly when the last stream that ended with a response among
      the hop's frames is that stream. */
  lemma AnswerIsOwnExactly(dec: Decoders, s: Single, events: seq<Event>, sid: int)
    requires s.c.responses == map[] && EndsOnce(events)
    ensures AnswerComesFrom(dec, s, events, sid)
            <==> LastDelivery(events, |events|).Some? && events[LastDelivery(events, |events|).value].sid == sid
  {
    forall k: nat ensures Captures(dec, s, events, k) <==> EndsInResponse(events, k) {
      CapturesIsResponse(dec, s, events, k);
    }
    var last := LastDelivery(events, |events|);
    if last.Some? {
      assert Captures(dec, s, events, last.value);
    }
  }

  /** Event `k` ends a stream that the client takes for a redirect. */
  ghost predicate TakesRedirect(dec: Decoders, s: Single, events: seq<Event>, k: nat) {
    && k < |events| && EndsStream(events[k])
    && IsRedirect(TouchStatus(Get(RunSingle(dec, s, events[..k]).c.responses, events[k].sid)))
  }

  /** The last redirect that the client took in the hop was that of stream `sid`. */
  ghost predicate RedirectIsOf(dec: Decoders, s: Single, events: seq<Event>, sid: int) {
    exists k: nat :: TakesRedirect(dec, s, events, k) && events[k].sid == sid
                     && forall j: nat :: k < j ==> !TakesRedirect(dec, s, events, j)
  }

  /** The redirect followed is that of the stream asked for exactly when the last stream that ended with a
      redirect among the hop's frames is that stream. */
  lemma RedirectIsOwn(dec: Decoders, s: Single, events: seq<Event>, sid: int)
    requires s.c.responses == map[] && EndsOnce(events)
    ensures RedirectIsOf(dec, s, events, sid)
            <==> LastRedirect(events, |events|).Some? && events[LastRedirect(events, |events|).value].sid == sid
  {
    forall k: nat ensures TakesRedirect(dec, s, events, k) <==> EndsInRedirect(events, k) {
      if k < |events| && EndsStream(events[k]) {
        SingleResponses(dec, s, events[..k]);
        HeldIsWhole(dec, s.c, events, k);
      }
    }
    var last := LastRedirect(events, |events|);
    if last.Some? {
      assert TakesRedirect(dec, s, events, last.value);
    }
  }

  /** The response that a hop captures is, for a stream that had not ended before, the last value of each of the
      stream's header fields and the decoded concatenation of its DATA payloads. */
  lemma CapturedIsAssembled(dec: Decoders, s: Single, events: seq<Event>, k: nat, r: Response)
    requires CapturedAt(dec, s, events, k, r)
    requires events[k].sid !in s.c.responses && Unended(events[..k], events[k].sid)
    ensures var sid := events[k].sid;
            var whole := TouchStatus(Response(HeadersOf(events[..k], sid), BodyOf(events[..k], sid)));
            !IsRedirect(whole) && r == Decompress(dec, whole)
  {
    SingleResponses(dec, s, events[..k]);
    AssembledPerStream(dec, s.c, events[..k], events[k].sid);
  }
}
