/** What the results of a page hop hold, and which of its streams are still open: told from the frames alone. */
module PageAnswers {
  import opened Http2Client
  import opened PageHop
  import opened PageRun
  import Resolver
  import opened Scheduler
  import opened SchedulerInvariant
  import opened SchedulerResults
  import opened SubresourceScanner

  // ---------- Each result is an answer ----------

  /** The result holds the response of the stream it names: what that stream had delivered when it ended, decoded. */
  ghost predicate Answers(dec: Decoders, events: seq<Event>, f: Fetched) {
    exists k: nat :: AnswersAt(dec, events, f, k)
  }

  ghost predicate AnswersAt(dec: Decoders, events: seq<Event>, f: Fetched, k: nat) {
    EndsInResponse(events, k) && events[k].sid == f.sid && f.resp == Decompress(dec, WholeAt(events, k))
  }

  /** So do all results of the hop, and the page, once there. */
  ghost predicate AllAnswer(dec: Decoders, events: seq<Event>, from: nat, s: Sched) {
    && (s.primaryDone ==> Answers(dec, events, s.primary))
    && (forall j :: from <= j < |s.also| ==> Answers(dec, events, s.also[j]))
  }

  /** What one step adds to the results: nothing, or the result of the stream that has ended. */
  lemma ResultsOfStep(x: Context, s: Sched, log: seq<Submission>, c: ClientState, effect: Effect)
    ensures var t := React(x, s, log, c, effect).s;
            if !effect.Completed? then t.also == s.also && t.primary == s.primary && t.primaryDone == s.primaryDone
            else if effect.sid == x.primarySid then
              t.also == s.also && t.primaryDone && t.primary.sid == effect.sid && t.primary.resp == effect.resp
            else
              && t.primary == s.primary && t.primaryDone == s.primaryDone && |t.also| == |s.also| + 1
                 && s.also <= t.also
              && t.also[|s.also|].sid == effect.sid && t.also[|s.also|].resp == effect.resp
  {
    match effect {
      case Nothing =>
      case Chunk(sid, payload) =>
        var (scan, items) := Feed(x.config, s.scan, payload);
        EnqueueKeepsPrimary(s.(scan := scan), items);
        DispatchAllKeepsPrimary(x, Enqueue(s.(scan := scan), items), log, []);
      case Completed(sid, resp) =>
        DispatchAllKeepsPrimary(x, Settle(x, s, sid, resp), log, []);
        if sid == x.primarySid {
          PrimaryIsEntered(x, s.(active := Minus(s)), resp);
        }
    }
  }

  lemma PrimaryIsEntered(x: Context, s: Sched, resp: Response)
    ensures var t := PrimaryDone(x, s, resp);
            t.also == s.also && t.primaryDone && t.primary.sid == x.primarySid && t.primary.resp == resp
  {
    var (scan, items) := Finalize(x.config, s.scan);
    EnqueueKeepsPrimary(s.(primaryDone := true, scan := scan,
                           primary := Finished(x.primarySid, resp, x.pageUrl, PRIMARY_SEQ, "primary", "primary")),
                           items);
  }

  /** What the client hands on at event `n` is the whole response of the stream that ends there. */
  lemma CompletedIsWhole(x: Context, dec: Decoders, h: Hop, events: seq<Event>, n: nat)
    requires h.c.responses == map[] && EndsOnce(events) && n < |events|
    ensures var e := Http2Client.OnEvent(dec, RunHop(x, dec, h, events[..n]).c, events[n]).1;
            e.Completed? ==>
                  EndsInResponse(events, n) && e.sid == events[n].sid && e.resp == Decompress(dec, WholeAt(events, n))
  {
    EffectOfEvent(dec, RunHop(x, dec, h, events[..n]).c, events[n]);
    if EndsStream(events[n]) {
      HopResponses(x, dec, h, events[..n]);
      HeldIsWhole(dec, h.c, events, n);
    }
  }

  lemma StepAnswers(dec: Decoders, events: seq<Event>, n: nat, from: nat, x: Context, s: Sched, log: seq<Submission>,
                    c: ClientState, effect: Effect)
    requires n < |events| && from <= |s.also| && AllAnswer(dec, events, from, s)
    requires effect.Completed? ==>
               EndsInResponse(events, n) && effect.sid == events[n].sid
                   && effect.resp == Decompress(dec, WholeAt(events, n))
    ensures AllAnswer(dec, events, from, React(x, s, log, c, effect).s) && from <= |React(x, s, log, c, effect).s.also|
  {
    ResultsOfStep(x, s, log, c, effect);
    var t := React(x, s, log, c, effect).s;
    if effect.Completed? {
      var f := if effect.sid == x.primarySid then t.primary else t.also[|s.also|];
      assert AnswersAt(dec, events, f, n);
    }
  }

  /** Over any run, every result of the hop holds the response of its own stream. */
  lemma {:induction false} RunAnswers(x: Context, dec: Decoders, h: Hop, events: seq<Event>, n: nat)
    requires h.c.responses == map[] && EndsOnce(events) && !h.s.primaryDone && n <= |events|
    ensures AllAnswer(dec, events, |h.s.also|, RunHop(x, dec, h, events[..n]).s)
    ensures |h.s.also| <= |RunHop(x, dec, h, events[..n]).s.also|
    decreases n
  {
    if n > 0 {
      RunAnswers(x, dec, h, events, n - 1);
      CompletedIsWhole(x, dec, h, events, n - 1);
      assert events[..n][..n - 1] == events[..n - 1];
      var g := RunHop(x, dec, h, events[..n - 1]);
      var (c, effect) := Http2Client.OnEvent(dec, g.c, events[n - 1]);
      StepAnswers(dec, events, n - 1, |h.s.also|, x, g.s, g.log, c, effect);
    }
  }

  // ---------- Which streams are open ----------

  /** The streams that the hop's requests got. */
  function StreamsOf(log: seq<Submission>, base: nat): set<int> {
    set i | base <= i < |log| && log[i].sid >= 0 :: log[i].sid
  }

  function EndedSids(events: seq<Event>): set<int> {
    set i | 0 <= i < |events| && EndsStream(events[i]) :: events[i].sid
  }

  lemma StreamsSplit(log: seq<Submission>, log2: seq<Submission>, base: nat)
    requires base <= |log| && log <= log2
    ensures StreamsOf(log2, base) == StreamsOf(log, base) + StreamsOf(log2, |log|)
  {
    forall sid | sid in StreamsOf(log, base) ensures sid in StreamsOf(log2, base) {
      var i :| base <= i < |log| && log[i].sid >= 0 && log[i].sid == sid;
      assert log2[i] == log[i];
    }
  }

  lemma SubmittedKeys(s: Sched, sid: int, item: Item)
    ensures var t := AfterSubmit(s, sid, item);
            t.primaryDone == s.primaryDone && t.sidUrl.Keys == s.sidUrl.Keys + if sid >= 0 then {sid} else {}
  {}

  /** A pass over the queue opens exactly the streams that its requests got. */
  lemma {:induction false} DispatchAllOpens(x: Context, s: Sched, log: seq<Submission>, deferred: seq<Item>)
    ensures var (t, log2) := DispatchAll(x, s, log, deferred);
            && log <= log2 && t.primaryDone == s.primaryDone
            && t.sidUrl.Keys == s.sidUrl.Keys + StreamsOf(log2, |log|)
    decreases |s.pending|
  {
    if s.pending == [] {
      assert StreamsOf(log, |log|) == {};
    } else {
      var item, tail := s.pending[0], s.(pending := s.pending[1..]);
      if !Resolver.SameHost(item.url, x.connHost) {
        DispatchAllOpens(x, tail, log, deferred + [item]);
      } else if item.url in s.dispatched {
        DispatchAllOpens(x, tail, log, deferred);
      } else {
        var e := Request(x, item, |log|);
        var next := AfterSubmit(tail, e.sid, item);
        DispatchAllOpens(x, next, log + [e], deferred);
        SubmittedKeys(tail, e.sid, item);
        var (t, log2) := DispatchAll(x, next, log + [e], deferred);
        FirstOfPass(log, e, log2, s.sidUrl.Keys, next.sidUrl.Keys, t.sidUrl.Keys);
      }
    }
  }

  lemma FirstOfPass(log: seq<Submission>, e: Submission, log2: seq<Submission>, before: set<int>, next: set<int>,
                    after: set<int>)
    requires log + [e] <= log2 && next == before + (if e.sid >= 0 then {e.sid} else {})
    requires after == next + StreamsOf(log2, |log + [e]|)
    ensures log <= log2 && after == before + StreamsOf(log2, |log|)
  {
    assert log2[|log|] == e;
  }

  lemma DispatchOpens(x: Context, goaway: bool, s: Sched, log: seq<Submission>)
    ensures var (t, log2) := Dispatch(x, goaway, s, log);
            && log <= log2 && t.primaryDone == s.primaryDone
            && t.sidUrl.Keys == s.sidUrl.Keys + StreamsOf(log2, |log|)
  {
    if goaway {
      assert StreamsOf(log, |log|) == {};
    } else {
      DispatchAllOpens(x, s, log, []);
    }
  }

  /** One step closes the stream that has ended and opens those of its requests. */
  lemma StepOpens(x: Context, s: Sched, log: seq<Submission>, c: ClientState, effect: Effect)
    requires x.primarySid !in s.sidUrl
    ensures var t := React(x, s, log, c, effect);
            && log <= t.log
            && Open(x, t.s) == Open(x, s) - (if effect.Completed? then {effect.sid} else {}) + StreamsOf(t.log, |log|)
  {
    match effect {
      case Nothing =>
        assert StreamsOf(log, |log|) == {};
      case Chunk(sid, payload) =>
        if sid == x.primarySid && !s.primaryDone {
          var (scan, items) := Feed(x.config, s.scan, payload);
          EnqueueKeepsTables(s.(scan := scan), items);
          DispatchOpens(x, c.goaway, Enqueue(s.(scan := scan), items), log);
        } else {
          assert StreamsOf(log, |log|) == {};
        }
      case Completed(sid, resp) =>
        SettleCloses(x, s, sid, resp);
        DispatchOpens(x, c.goaway, Settle(x, s, sid, resp), log);
    }
  }

  lemma SettleCloses(x: Context, s: Sched, sid: int, resp: Response)
    requires x.primarySid !in s.sidUrl
    ensures Open(x, Settle(x, s, sid, resp)) == Open(x, s) - {sid}
  {
    if sid == x.primarySid {
      var (scan, items) := Finalize(x.config, s.scan);
      EnqueueKeepsTables(s.(active := Minus(s), primaryDone := true, scan := scan,
                            primary := Finished(x.primarySid, resp, x.pageUrl, PRIMARY_SEQ, "primary", "primary")),
                            items);
    }
  }

  /** The ids of later requests are none of the earlier ones'. */
  lemma NewStreams(answer: nat -> int, log: seq<Submission>, log2: seq<Submission>, base: nat)
    requires FreshIds(answer) && base <= |log| && log <= log2
    requires forall i :: 0 <= i < |log2| ==> log2[i].sid == answer(i)
    ensures StreamsOf(log2, |log|) !! StreamsOf(log, base)
  {}

  /** A plain run so far: the open streams are those that the hop's requests got and that have not ended; no stream has
      ended that was not one of them, and none twice. */
  ghost predicate OpenAreUnended(x: Context, base: nat, h: Hop, events: seq<Event>) {
    && base < |h.log| && (forall i :: 0 <= i < |h.log| ==> h.log[i].sid == x.answer(i))
    && Open(x, h.s) == StreamsOf(h.log, base) - EndedSids(events)
    && EndedSids(events) <= StreamsOf(h.log, base) && EndsOnce(events)
  }

  lemma EndedOneMore(events: seq<Event>, ev: Event)
    ensures EndedSids(events + [ev]) == EndedSids(events) + if EndsStream(ev) then {ev.sid} else {}
    ensures EndsOnce(events) && (EndsStream(ev) ==> ev.sid !in EndedSids(events)) ==> EndsOnce(events + [ev])
  {
    var more := events + [ev];
    forall sid | sid in EndedSids(events) ensures sid in EndedSids(more) {
      var i :| 0 <= i < |events| && EndsStream(events[i]) && events[i].sid == sid;
      assert more[i] == events[i];
    }
    assert more[|events|] == ev;
  }

  lemma UnendedStep(x: Context, base: nat, h: Hop, events: seq<Event>, c: ClientState, effect: Effect, ev: Event)
    requires FreshIds(x.answer) && OpenAreUnended(x, base, h, events) && x.primarySid !in h.s.sidUrl
    requires if EndsStream(ev) then effect.Completed? && effect.sid == ev.sid && ev.sid in Open(x, h.s)
             else !effect.Completed?
    requires Continues(x, h.log, React(x, h.s, h.log, c, effect).log)
    ensures OpenAreUnended(x, base, React(x, h.s, h.log, c, effect), events + [ev])
  {
    var t := React(x, h.s, h.log, c, effect);
    StepOpens(x, h.s, h.log, c, effect);
    EndedOneMore(events, ev);
    AnswersContinue(x, h.log, t.log);
    StreamsSplit(h.log, t.log, base);
    NewStreams(x.answer, h.log, t.log, base);
    UnendedSets(Open(x, h.s), StreamsOf(h.log, base), EndedSids(events), if EndsStream(ev) then {ev.sid} else {},
                StreamsOf(t.log, |h.log|));
  }

  lemma AnswersContinue(x: Context, log: seq<Submission>, log2: seq<Submission>)
    requires Continues(x, log, log2) && forall i :: 0 <= i < |log| ==> log[i].sid == x.answer(i)
    ensures forall i :: 0 <= i < |log2| ==> log2[i].sid == x.answer(i)
  {
    forall i | 0 <= i < |log2| ensures log2[i].sid == x.answer(i) {
      assert i < |log| ==> log2[i] == log[i];
    }
  }

  lemma UnendedSets(open: set<int>, streams: set<int>, ended: set<int>, ends: set<int>, more: set<int>)
    requires open == streams - ended && ended <= streams && ends <= open && more !! streams
    ensures open - ends + more == streams + more - (ended + ends) && ended + ends <= streams + more
    ensures ends !! ended
  {}

  lemma StepUnended(x: Context, dec: Decoders, base: nat, from: nat, g: Hop, events: seq<Event>, ev: Event)
    requires HopInv(x, base, from, g) && OpenAreUnended(x, base, g, events) && Ends(x, g, ev) && Plain(g, ev)
    ensures OpenAreUnended(x, base, Step(x, dec, g, ev), events + [ev])
  {
    var (c, effect) := Http2Client.OnEvent(dec, g.c, ev);
    EffectOfEvent(dec, g.c, ev);
    StepContinues(x, dec, g, ev);
    PrimaryIsNotInTable(x, base, from, g.s, g.log);
    UnendedStep(x, base, g, events, c, effect, ev);
  }

  /** Over every plain run. */
  lemma {:induction false} RunUnended(x: Context, dec: Decoders, base: nat, from: nat, h: Hop, events: seq<Event>)
    requires HopInv(x, base, from, h) && OpenAreUnended(x, base, h, [])
    requires Admissible(x, dec, h, events) && PlainRun(x, dec, h, events)
    ensures OpenAreUnended(x, base, RunHop(x, dec, h, events), events)
    decreases |events|
  {
    if events != [] {
      var before, last := events[..|events| - 1], events[|events| - 1];
      RunUnended(x, dec, base, from, h, before);
      RunKeepsInv(x, dec, base, from, h, before);
      StepUnended(x, dec, base, from, RunHop(x, dec, h, before), before, last);
      FrontAndLast(events);
    }
  }

  lemma FrontAndLast(events: seq<Event>)
    requires events != []
    ensures events[..|events| - 1] + [events[|events| - 1]] == events
  {}

  lemma StreamsOfStart(x: Context, base: nat, from: nat, h: Hop)
    requires Starts(x, base, from, h)
    ensures OpenAreUnended(x, base, h, [])
  {
    assert StreamsOf(h.log, base) == {x.primarySid} by {
      assert h.log[base].sid == x.primarySid;
    }
  }

  // ---------- The finished page ----------

  /** A hop without GOAWAY and redirect whose loop has stopped has left no stream open: exactly the streams of its
      requests have ended, each once; and each of its results, the page first, holds the response of its own
      stream. */
  lemma FinishedPageAnswers(x: Context, dec: Decoders, base: nat, from: nat, h: Hop, events: seq<Event>)
    requires Starts(x, base, from, h) && Admissible(x, dec, h, events) && PlainRun(x, dec, h, events)
    requires !RunHop(x, dec, h, events).c.running
    ensures var t := RunHop(x, dec, h, events);
            && EndsOnce(events) && EndedSids(events) == StreamsOf(t.log, base)
            && t.s.primaryDone && AllAnswer(dec, events, from, t.s)
  {
    var t := RunHop(x, dec, h, events);
    StartHasInv(x, base, from, h);
    StreamsOfStart(x, base, from, h);
    RunUnended(x, dec, base, from, h, events);
    PlainRunStopsWhenAllEnded(x, dec, base, from, h, events);
    RunAnswers(x, dec, h, events, |events|);
    assert events[..|events|] == events;
    AllClosed(x, t.s);
  }
}
