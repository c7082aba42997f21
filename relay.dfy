/**
 * The continuous HTTP relay (`output_stream_http`): the player is started on
 * the address of a local HTTP server, and every request the player makes is
 * answered by opening the stream again and copying it into the connection,
 * fetching the streams again whenever the cached ones no longer serve.
 */
module Relay {
  import opened Io
  import opened Options
  import opened Names
  import opened Probe
  import Fetch
  import CopyLoop
  import Output

  /** The seconds the relay waits before fetching again when no requested stream is available. */
  const REFETCH_DELAY: nat := 10

  /**
   * The answers the relay consumes, in order: successive values of
   * `player.running` (false past the end), successive outcomes of
   * `server.open(timeout=2.5)` (true: a request arrived; false: the wait
   * timed out, as it does past the end), the plugin's fetches, the open
   * attempts of the streams, and the write outcomes of each request's
   * connection.
   */
  datatype Scripts = Scripts(running: seq<bool>, accepts: seq<bool>, fetches: seq<Fetch.FetchOutcome>,
                             opens: seq<OpenAttempt>, conns: seq<seq<WriteOutcome>>)

  /** The write outcomes of the i-th request's connection; past the end every write is accepted. */
  function ConnAt(conns: seq<seq<WriteOutcome>>, i: nat): seq<WriteOutcome>
  {
    if i < |conns| then conns[i] else []
  }

  /** None of the events that mark a request, the relay's teardown, or the end of a copy. */
  predicate Quiet(t: seq<Event>)
  {
    Log(Info, GotRequest) !in t && CloseConnection !in t && CloseSource !in t && ClosePlayer !in t && CloseServer !in t
  }

  /** The five counts the relay's contract speaks of add up over a concatenation. */
  lemma Tallies(t: seq<Event>, u: seq<Event>)
    ensures Count(t + u, Log(Info, GotRequest)) == Count(t, Log(Info, GotRequest)) + Count(u, Log(Info, GotRequest))
    ensures Count(t + u, CloseConnection) == Count(t, CloseConnection) + Count(u, CloseConnection)
    ensures Count(t + u, CloseSource) == Count(t, CloseSource) + Count(u, CloseSource)
    ensures Count(t + u, ClosePlayer) == Count(t, ClosePlayer) + Count(u, ClosePlayer)
    ensures Count(t + u, CloseServer) == Count(t, CloseServer) + Count(u, CloseServer)
  {
    CountConcat(t, u, Log(Info, GotRequest));
    CountConcat(t, u, CloseConnection);
    CountConcat(t, u, CloseSource);
    CountConcat(t, u, ClosePlayer);
    CountConcat(t, u, CloseServer);
  }

  lemma QuietCounts(t: seq<Event>)
    requires Quiet(t)
    ensures Count(t, Log(Info, GotRequest)) == 0 && Count(t, CloseConnection) == 0 && Count(t, CloseSource) == 0
    ensures Count(t, ClosePlayer) == 0 && Count(t, CloseServer) == 0
  {
    CountAbsent(t, Log(Info, GotRequest));
    CountAbsent(t, CloseConnection);
    CountAbsent(t, CloseSource);
    CountAbsent(t, ClosePlayer);
    CountAbsent(t, CloseServer);
  }

  // ---------------------------------------------------------------------------
  // `iter_http_requests`.

  /** Where one step of `iter_http_requests` leaves off: the next player check and wait, whether a request came, and the events. */
  datatype Wait = Wait(run: nat, acc: nat, got: bool, trace: seq<Event>)

  /**
   * One step of `iter_http_requests` from the `run`-th check of the player
   * and the `acc`-th wait: while the player runs, wait for a connection,
   * going round again when the wait times out; the generator ends at the
   * first check that finds the player stopped.
   */
  function Waited(s: Scripts, run: nat, acc: nat): Wait
    decreases |s.running| - run
  {
    if !AnswerAt(s.running, run, false) then Wait(run + 1, acc, false, [])
    else if AnswerAt(s.accepts, acc, false) then Wait(run + 1, acc + 1, true, [AcceptConnection])
    else
      var w := Waited(s, run + 1, acc + 1);
      Wait(w.run, w.acc, w.got, [AcceptConnection] + w.trace)
  }

  /** The step `w` preceded by the events `t`. */
  function WaitAfter(t: seq<Event>, w: Wait): Wait
  {
    Wait(w.run, w.acc, w.got, t + w.trace)
  }

  /** A wait while the player runs either brings the request or times out, and the step goes on. */
  lemma WaitStep(s: Scripts, run: nat, acc: nat)
    requires AnswerAt(s.running, run, false)
    ensures AnswerAt(s.accepts, acc, false) ==> Waited(s, run, acc) == Wait(run + 1, acc + 1, true, [AcceptConnection])
    ensures !AnswerAt(s.accepts, acc, false) ==> Waited(s, run, acc) == WaitAfter([AcceptConnection], Waited(s, run + 1, acc + 1))
  {
  }

  lemma WaitAfterAfter(t: seq<Event>, u: seq<Event>, w: Wait)
    ensures WaitAfter(t, WaitAfter(u, w)) == WaitAfter(t + u, w)
  {
    assert t + (u + w.trace) == (t + u) + w.trace;
  }

  /** One step of `iter_http_requests`, as a loop. */
  method NextRequest(s: Scripts, run: nat, acc: nat) returns (run': nat, acc': nat, got: bool, trace: seq<Event>)
    ensures Wait(run', acc', got, trace) == Waited(s, run, acc)
  {
    run' := run;
    acc' := acc;
    got := false;
    trace := [];
    while AnswerAt(s.running, run', false)
      invariant Waited(s, run, acc) == WaitAfter(trace, Waited(s, run', acc'))
      decreases |s.running| - run'
    {
      var arrived := AnswerAt(s.accepts, acc', false);
      WaitStep(s, run', acc');
      WaitAfterAfter(trace, [AcceptConnection], Waited(s, run' + 1, acc' + 1));
      trace := trace + [AcceptConnection];
      run' := run' + 1;
      acc' := acc' + 1;
      if arrived {
        got := true;
        return;
      }
    }
    AppendEmpty(trace);
    run' := run' + 1;
  }

  /** A step of `iter_http_requests` checks the player once before every wait, and once more when it has stopped. */
  lemma {:induction false} WaitBounds(s: Scripts, run: nat, acc: nat)
    ensures var w := Waited(s, run, acc);
            && run < w.run && acc <= w.acc && w.run - run == w.acc - acc + (if w.got then 0 else 1)
            && (w.got ==> acc < w.acc && w.run <= |s.running|)
    decreases |s.running| - run
  {
    if AnswerAt(s.running, run, false) && !AnswerAt(s.accepts, acc, false) {
      WaitBounds(s, run + 1, acc + 1);
    }
  }

  /**
   * Every check of the player before the last found it running, and the
   * last one found it stopped unless a request came; every wait but the last
   * timed out, and the last one brought the request.
   */
  lemma {:induction false} WaitChecks(s: Scripts, run: nat, acc: nat)
    ensures var w := Waited(s, run, acc);
            && w.run > 0
            && (forall i :: run <= i < w.run - 1 ==> AnswerAt(s.running, i, false))
            && (!w.got ==> !AnswerAt(s.running, w.run - 1, false))
            && (forall i :: acc <= i < w.acc - (if w.got then 1 else 0) ==> !AnswerAt(s.accepts, i, false))
            && (w.got ==> w.acc > 0 && AnswerAt(s.running, w.run - 1, false) && AnswerAt(s.accepts, w.acc - 1, false))
    decreases |s.running| - run
  {
    WaitBounds(s, run, acc);
    if AnswerAt(s.running, run, false) && !AnswerAt(s.accepts, acc, false) {
      WaitChecks(s, run + 1, acc + 1);
      WaitBounds(s, run + 1, acc + 1);
    }
  }

  /** Each wait accepts one connection, and waiting marks nothing else. */
  lemma {:induction false} WaitEvents(s: Scripts, run: nat, acc: nat)
    ensures var w := Waited(s, run, acc);
            Count(w.trace, AcceptConnection) == w.acc - acc && Quiet(w.trace)
    decreases |s.running| - run
  {
    WaitBounds(s, run, acc);
    if AnswerAt(s.running, run, false) {
      CountOne(AcceptConnection, AcceptConnection);
      if !AnswerAt(s.accepts, acc, false) {
        var v := Waited(s, run + 1, acc + 1);
        WaitEvents(s, run + 1, acc + 1);
        WaitBounds(s, run + 1, acc + 1);
        CountConcat([AcceptConnection], v.trace, AcceptConnection);
      }
    }
  }

  // ---------------------------------------------------------------------------
  // Finding a stream for one request.

  /** A stream ready to be copied: the name it was found under and the opened stream. */
  datatype Served = Served(name: string, stream: Opened)

  /** The streams a pass looks in: the cached ones, or else what a fetch gives (nothing when the plugin fails). */
  function Lookup(s: Scripts, cache: Streams, fetch: nat): Streams
  {
    if cache != [] then cache
    else match Fetch.FetchAt(s.fetches, fetch)
      case Fetched(d) => d
      case PluginFails => []
  }

  /** The cached streams serve a request at once: the player runs, a requested name is cached, and its probe succeeds. */
  predicate Serves(s: Scripts, names: seq<string>, cache: Streams, run: nat, open: nat)
  {
    cache != [] && AnswerAt(s.running, run, false) && FirstPresent(names, cache) < |names|
    && OpenStream(AttemptAt(s.opens, open)).result.Ok?
  }

  /** What one pass of the inner loop did: its events, fetches and probes, the streams it caches, and the stream it opened. */
  datatype Pass = Pass(events: seq<Event>, fetched: nat, tried: nat, cache: Streams, found: Option<Served>)

  /** The events of the fetch a pass makes when nothing is cached. */
  function FetchEvents(s: Scripts, cache: Streams, fetch: nat): seq<Event>
  {
    if cache != [] then []
    else if Fetch.FetchAt(s.fetches, fetch).PluginFails? then [FetchStreams, Log(Error, FetchFailed)]
    else [FetchStreams]
  }

  /** One pass of the inner loop, once the player was found running. */
  function Round(s: Scripts, names: seq<string>, cache: Streams, fetch: nat, open: nat): Pass
  {
    var pre := FetchEvents(s, cache, fetch);
    var fetched := if cache == [] then 1 else 0;
    var d := Lookup(s, cache, fetch);
    var k := FirstPresent(names, d);
    if k == |names| then
      Pass(pre + [Log(Info, StreamUnavailable), Sleep(REFETCH_DELAY)], fetched, 0, [], None)
    else
      var p := OpenStream(AttemptAt(s.opens, open));
      var t := pre + ([Log(Info, OpeningStream(names[k]))] + p.trace);
      if p.result.Err? then Pass(t + [Log(Error, p.result.error)], fetched, 1, [], None)
      else Pass(t, fetched, 1, d, Some(Served(names[k], p.result.value)))
  }

  /**
   * A pass fetches only when nothing is cached, probes the first requested
   * name present if there is one, keeps the stream and the streams it was
   * found in when the probe succeeds, and drops the cached streams otherwise.
   */
  lemma RoundOutcome(s: Scripts, names: seq<string>, cache: Streams, fetch: nat, open: nat)
    ensures var o := Round(s, names, cache, fetch, open);
            var d := Lookup(s, cache, fetch);
            var k := FirstPresent(names, d);
            var p := OpenStream(AttemptAt(s.opens, open));
            && o.fetched == (if cache == [] then 1 else 0)
            && o.tried == (if k < |names| then 1 else 0)
            && (o.found.Some? <==> k < |names| && p.result.Ok?)
            && (o.found.Some? ==> o.found.value == Served(names[k], p.result.value) && o.cache == d && d != [])
            && (o.found.None? ==> o.cache == [])
  {
    var d := Lookup(s, cache, fetch);
    var k := FirstPresent(names, d);
    if k < |names| {
      assert names[k] in Keys(d);
    }
  }

  /** A pass neither answers nor closes anything. */
  lemma RoundQuiet(s: Scripts, names: seq<string>, cache: Streams, fetch: nat, open: nat)
    ensures Quiet(Round(s, names, cache, fetch, open).events)
  {
    var pre := FetchEvents(s, cache, fetch);
    var d := Lookup(s, cache, fetch);
    var k := FirstPresent(names, d);
    assert Quiet(pre);
    if k < |names| {
      var p := OpenStream(AttemptAt(s.opens, open));
      var mid := [Log(Info, OpeningStream(names[k]))] + p.trace;
      assert Quiet(p.trace);
      QuietConcat([Log(Info, OpeningStream(names[k]))], p.trace);
      QuietConcat(pre, mid);
      if p.result.Err? {
        QuietConcat(pre + mid, [Log(Error, p.result.error)]);
      }
    } else {
      QuietConcat(pre, [Log(Info, StreamUnavailable), Sleep(REFETCH_DELAY)]);
    }
  }

  lemma QuietConcat(a: seq<Event>, b: seq<Event>)
    requires Quiet(a) && Quiet(b)
    ensures Quiet(a + b)
  {
  }

  /** A pass fetches once when nothing is cached and opens the stream once when it probes. */
  lemma RoundCounts(s: Scripts, names: seq<string>, cache: Streams, fetch: nat, open: nat)
    ensures var o := Round(s, names, cache, fetch, open);
            Count(o.events, FetchStreams) == o.fetched && Count(o.events, OpenSource) == o.tried
  {
    var pre := FetchEvents(s, cache, fetch);
    CountOne(FetchStreams, FetchStreams);
    CountOne(FetchStreams, OpenSource);
    CountTwo(FetchStreams, Log(Error, FetchFailed), FetchStreams);
    CountTwo(FetchStreams, Log(Error, FetchFailed), OpenSource);
    assert Count(pre, FetchStreams) == if cache == [] then 1 else 0;
    assert Count(pre, OpenSource) == 0;
    var d := Lookup(s, cache, fetch);
    var k := FirstPresent(names, d);
    if k == |names| {
      CountConcat(pre, [Log(Info, StreamUnavailable), Sleep(REFETCH_DELAY)], FetchStreams);
      CountConcat(pre, [Log(Info, StreamUnavailable), Sleep(REFETCH_DELAY)], OpenSource);
      CountTwo(Log(Info, StreamUnavailable), Sleep(REFETCH_DELAY), FetchStreams);
      CountTwo(Log(Info, StreamUnavailable), Sleep(REFETCH_DELAY), OpenSource);
    } else {
      var p := OpenStream(AttemptAt(s.opens, open));
      var mid := [Log(Info, OpeningStream(names[k]))] + p.trace;
      CountOne(OpenSource, OpenSource);
      CountOne(OpenSource, FetchStreams);
      CountTwo(OpenSource, ReadSource(CHUNK_SIZE), OpenSource);
      CountTwo(OpenSource, ReadSource(CHUNK_SIZE), FetchStreams);
      CountOne(Log(Info, OpeningStream(names[k])), OpenSource);
      CountOne(Log(Info, OpeningStream(names[k])), FetchStreams);
      CountConcat([Log(Info, OpeningStream(names[k]))], p.trace, FetchStreams);
      CountConcat([Log(Info, OpeningStream(names[k]))], p.trace, OpenSource);
      CountConcat(pre, mid, FetchStreams);
      CountConcat(pre, mid, OpenSource);
      if p.result.Err? {
        SnocCount(pre + mid, Log(Error, p.result.error), FetchStreams);
        SnocCount(pre + mid, Log(Error, p.result.error), OpenSource);
      }
    }
  }

  /** The state of the inner loop: the next player check, fetch and open attempt, the cached streams, and the events so far. */
  datatype Inner = Inner(run: nat, fetch: nat, open: nat, cache: Streams, trace: seq<Event>)

  /** How the inner loop ends: its last state, and the stream it opened if the player still ran. */
  datatype Acquired = Acquired(state: Inner, found: Option<Served>)

  /** The inner loop before its first pass. */
  function Begin(cache: Streams, run: nat, fetch: nat, open: nat): Inner
  {
    Inner(run, fetch, open, cache, [])
  }

  /**
   * The stream served came from open attempt `i`: that attempt opened a
   * stream whose first read gave the (non-empty) prebuffer, and the reads
   * after it are the rest of the stream.
   */
  predicate Probed(s: Scripts, i: nat, served: Served)
  {
    && |served.stream.prebuffer| > 0
    && AttemptAt(s.opens, i) == Opens([Data(served.stream.prebuffer)] + served.stream.rest)
  }

  /** The stream `r` ends with, if any, came from the last open attempt it used. */
  predicate FromLastProbe(s: Scripts, r: Acquired)
  {
    r.found.Some? ==> r.state.open >= 1 && Probed(s, r.state.open - 1, r.found.value)
  }

  /** The state after a pass from `b` that had outcome `o`: one more player check, and its fetch, probe and events. */
  function Advance(b: Inner, o: Pass): Inner
  {
    Inner(b.run + 1, b.fetch + o.fetched, b.open + o.tried, o.cache, b.trace + o.events)
  }

  /**
   * The inner loop from state `b`, for any pass function `pass`: stop when a
   * check (the answers of `running`) finds the player stopped, or when a
   * pass opens a stream.
   */
  function Loop(running: seq<bool>, pass: Inner -> Pass, b: Inner): Acquired
    decreases |running| - b.run
  {
    if !AnswerAt(running, b.run, false) then Acquired(Inner(b.run + 1, b.fetch, b.open, b.cache, b.trace), None)
    else
      var o := pass(b);
      if o.found.Some? then Acquired(Advance(b, o), o.found)
      else Loop(running, pass, Advance(b, o))
  }

  /** The relay's pass: a pass of the inner loop over the scripts `s`. */
  function PassOf(s: Scripts, names: seq<string>): Inner -> Pass
  {
    (b: Inner) => Round(s, names, b.cache, b.fetch, b.open)
  }

  /** The relay's inner loop from state `b`. */
  function AcquireFrom(s: Scripts, names: seq<string>, b: Inner): Acquired
  {
    Loop(s.running, PassOf(s, names), b)
  }

  /**
   * The inner loop of a request (`while not stream_fd`): until a stream is
   * opened, check that the player still runs, then look in the cached
   * streams (fetching when there are none) for the first requested name that
   * is present and probe it.
   */
  method Acquire(s: Scripts, names: seq<string>, cache: Streams, run: nat, fetch: nat, open: nat) returns (r: Acquired)
    ensures r == AcquireFrom(s, names, Begin(cache, run, fetch, open))
  {
    var b := Begin(cache, run, fetch, open);
    while true
      invariant AcquireFrom(s, names, b) == AcquireFrom(s, names, Begin(cache, run, fetch, open))
      decreases |s.running| - b.run
    {
      if !AnswerAt(s.running, b.run, false) {
        return Acquired(Inner(b.run + 1, b.fetch, b.open, b.cache, b.trace), None);
      }
      var found, next := Step(s, names, b);
      RoundStep(s, names, b);
      if found.Some? {
        return Acquired(next, found);
      }
      b := next;
    }
  }

  /** One pass of the inner loop from `b`, once the player was found running: the stream it opened, and the state after it. */
  method Step(s: Scripts, names: seq<string>, b: Inner) returns (found: Option<Served>, next: Inner)
    ensures var o := Round(s, names, b.cache, b.fetch, b.open);
            found == o.found && next == Advance(b, o)
  {
    var o := Round(s, names, b.cache, b.fetch, b.open);
    next := Inner(b.run + 1, b.fetch + o.fetched, b.open + o.tried, o.cache, b.trace + o.events);
    found := o.found;
  }

  /** The relay's inner loop goes on after a pass of its own as `LoopStep` says. */
  lemma RoundStep(s: Scripts, names: seq<string>, b: Inner)
    requires AnswerAt(s.running, b.run, false)
    ensures var o := Round(s, names, b.cache, b.fetch, b.open);
            && (o.found.Some? ==> AcquireFrom(s, names, b) == Acquired(Advance(b, o), o.found))
            && (o.found.None? ==> AcquireFrom(s, names, b) == AcquireFrom(s, names, Advance(b, o)))
  {
    assert PassOf(s, names)(b) == Round(s, names, b.cache, b.fetch, b.open);
    LoopStep(s.running, PassOf(s, names), b);
  }

  /** A pass while the player runs either ends the loop with the stream it opened, or the loop goes on from the state after it. */
  lemma LoopStep(running: seq<bool>, pass: Inner -> Pass, b: Inner)
    requires AnswerAt(running, b.run, false)
    ensures pass(b).found.Some? ==> Loop(running, pass, b) == Acquired(Advance(b, pass(b)), pass(b).found)
    ensures pass(b).found.None? ==> Loop(running, pass, b) == Loop(running, pass, Advance(b, pass(b)))
  {
  }

  /** Every pass checks the player once, and fetches and probes at most once. */
  lemma {:induction false} AcquireBounds(running: seq<bool>, pass: Inner -> Pass, b: Inner)
    ensures var r := Loop(running, pass, b);
            && b.run < r.state.run && b.fetch <= r.state.fetch && b.open <= r.state.open
            && (r.state.run <= |running| + 1 || r.state.run == b.run + 1)
    decreases |running| - b.run
  {
    if AnswerAt(running, b.run, false) && pass(b).found.None? {
      AcquireBounds(running, pass, Advance(b, pass(b)));
    }
  }

  /** The inner loop ends with a stream exactly when the player was still running at its last check. */
  lemma {:induction false} AcquireChecks(running: seq<bool>, pass: Inner -> Pass, b: Inner)
    ensures var r := Loop(running, pass, b);
            && b.run < r.state.run
            && (r.found.Some? <==> AnswerAt(running, r.state.run - 1, false))
    decreases |running| - b.run
  {
    if AnswerAt(running, b.run, false) && pass(b).found.None? {
      AcquireChecks(running, pass, Advance(b, pass(b)));
    }
  }

  /** Every check before the last found the player running: the loop stops at the first check that does not. */
  lemma {:induction false} AcquireRunning(running: seq<bool>, pass: Inner -> Pass, b: Inner)
    ensures var r := Loop(running, pass, b);
            forall i :: b.run <= i < r.state.run - 1 ==> AnswerAt(running, i, false)
    decreases |running| - b.run
  {
    if AnswerAt(running, b.run, false) && pass(b).found.None? {
      AcquireRunning(running, pass, Advance(b, pass(b)));
    }
  }

  /**
   * A stream the inner loop ends with is the first requested name among the
   * streams it then caches, opened by a successful probe of the last open
   * attempt it used.
   */
  lemma {:induction false} AcquireOpens(s: Scripts, names: seq<string>, b: Inner)
    ensures var r := AcquireFrom(s, names, b);
            r.found.Some? ==> && b.open < r.state.open && r.state.cache != []
                              && FirstPresent(names, r.state.cache) < |names|
                              && r.found.value.name == names[FirstPresent(names, r.state.cache)]
    decreases |s.running| - b.run
  {
    if AnswerAt(s.running, b.run, false) {
      var o := Round(s, names, b.cache, b.fetch, b.open);
      assert PassOf(s, names)(b) == o;
      var c := Advance(b, o);
      RoundOutcome(s, names, b.cache, b.fetch, b.open);
      LoopStep(s.running, PassOf(s, names), b);
      if o.found.None? {
        AcquireOpens(s, names, c);
      } else {
      }
    }
  }

  /** The stream the inner loop ends with comes from the last open attempt it used. */
  lemma AcquireProbes(s: Scripts, names: seq<string>, b: Inner)
    ensures FromLastProbe(s, AcquireFrom(s, names, b))
  {
    PassProbes(s, names);
    LoopProbes(s.running, PassOf(s, names), b, s);
  }

  /** A pass that ends the loop used one open attempt, whose probe gave the stream. */
  lemma PassProbes(s: Scripts, names: seq<string>)
    ensures forall c: Inner :: PassOf(s, names)(c).found.Some? ==>
              PassOf(s, names)(c).tried == 1 && Probed(s, c.open, PassOf(s, names)(c).found.value)
  {
    forall c: Inner | PassOf(s, names)(c).found.Some?
      ensures PassOf(s, names)(c).tried == 1 && Probed(s, c.open, PassOf(s, names)(c).found.value)
    {
      var o := Round(s, names, c.cache, c.fetch, c.open);
      assert PassOf(s, names)(c) == o;
      RoundOutcome(s, names, c.cache, c.fetch, c.open);
      var a := AttemptAt(s.opens, c.open);
      var v := OpenStream(a).result.value;
      assert a == Opens([Data(v.prebuffer)] + v.rest) && |v.prebuffer| > 0;
    }
  }

  /** For a pass function whose every success comes from a probe of its open attempt, the loop's stream comes from its last one. */
  lemma {:induction false} LoopProbes(running: seq<bool>, pass: Inner -> Pass, b: Inner, s: Scripts)
    requires forall c: Inner :: pass(c).found.Some? ==> pass(c).tried == 1 && Probed(s, c.open, pass(c).found.value)
    ensures FromLastProbe(s, Loop(running, pass, b))
    decreases |running| - b.run
  {
    if AnswerAt(running, b.run, false) && pass(b).found.None? {
      LoopProbes(running, pass, Advance(b, pass(b)), s);
    }
  }

  /**
   * The cached streams survive only while they serve: a pass that opens
   * nothing drops them, a player already stopped changes nothing, and cached
   * streams that serve are used at once, without fetching.
   */
  lemma {:induction false} AcquireCaches(s: Scripts, names: seq<string>, b: Inner)
    ensures var r := AcquireFrom(s, names, b);
            && (r.found.None? && r.state.run > b.run + 1 ==> r.state.cache == [])
            && (r.found.None? && r.state.run == b.run + 1 ==> r.state == Inner(b.run + 1, b.fetch, b.open, b.cache, b.trace))
            && (Serves(s, names, b.cache, b.run, b.open) ==>
                  && r.found.Some? && r.state.run == b.run + 1 && r.state.cache == b.cache
                  && r.state.fetch == b.fetch && r.state.open == b.open + 1)
    decreases |s.running| - b.run
  {
    if AnswerAt(s.running, b.run, false) {
      RoundOutcome(s, names, b.cache, b.fetch, b.open);
      var o := Round(s, names, b.cache, b.fetch, b.open);
      assert PassOf(s, names)(b) == o;
      if o.found.None? {
        var c := Advance(b, o);
        AcquireCaches(s, names, c);
        AcquireBounds(s.running, PassOf(s, names), c);
      }
    }
  }

  /** The inner loop neither answers nor closes anything, and fetches and opens once per fetch and probe. */
  lemma {:induction false} AcquireTrace(s: Scripts, names: seq<string>, b: Inner)
    requires Quiet(b.trace)
    ensures var r := AcquireFrom(s, names, b);
            && Quiet(r.state.trace)
            && Count(r.state.trace, FetchStreams) == Count(b.trace, FetchStreams) + (r.state.fetch - b.fetch)
            && Count(r.state.trace, OpenSource) == Count(b.trace, OpenSource) + (r.state.open - b.open)
    decreases |s.running| - b.run
  {
    AcquireBounds(s.running, PassOf(s, names), b);
    if AnswerAt(s.running, b.run, false) {
      var o := Round(s, names, b.cache, b.fetch, b.open);
      assert PassOf(s, names)(b) == o;
      RoundQuiet(s, names, b.cache, b.fetch, b.open);
      RoundCounts(s, names, b.cache, b.fetch, b.open);
      QuietConcat(b.trace, o.events);
      CountConcat(b.trace, o.events, FetchStreams);
      CountConcat(b.trace, o.events, OpenSource);
      if o.found.None? {
        AcquireTrace(s, names, Advance(b, o));
      }
    }
  }

  // ---------------------------------------------------------------------------
  // `output_stream_http`.

  /** `[resolve_stream_name(streams, s) for s in args.stream]`; the first KeyError ends the program. */
  function ResolveAll(d: Streams, names: seq<string>, synonyms: set<string>): (r: Result<seq<string>, ExitReason>)
    ensures r.Ok? ==> |r.value| == |names|
                      && forall i :: 0 <= i < |names| ==> ResolveStreamName(d, names[i], synonyms) == Ok(r.value[i])
    ensures r.Err? <==> exists i :: 0 <= i < |names| && ResolveStreamName(d, names[i], synonyms).Err?
    ensures r.Err? ==> r.error == UnboundName
  {
    if names == [] then Ok([])
    else match ResolveStreamName(d, names[0], synonyms)
      case Err(e) => Err(e)
      case Ok(n) =>
        match ResolveAll(d, names[1..], synonyms)
        case Err(e) =>
          var i :| 0 <= i < |names[1..]| && ResolveStreamName(d, names[1..][i], synonyms).Err?;
          assert names[i + 1] == names[1..][i];
          Err(e)
        case Ok(ns) =>
          assert forall i :: 1 <= i < |names| ==> names[i] == names[1..][i - 1];
          Ok([n] + ns)
  }

  /** What the relay ends with: its events, the reason the program exited if it did, the requests answered and the streams copied. */
  datatype RelayRun = RelayRun(trace: seq<Event>, exit: Option<ExitReason>, served: nat, copies: nat)

  /**
   * `output_stream_http(plugin, streams)`: bind the server, check the
   * player, resolve the requested names, start the player, serve its
   * requests, and close the player and then the server.
   */
  function HttpRun(args: Args, host: Output.Host, s: Scripts, streams: Streams, synonyms: set<string>): RelayRun
  {
    if !host.bindOk then RelayRun([], Some(ServerFailed), 0, 0)
    else if args.player == "" then RelayRun([], Some(NoPlayer), 0, 0)
    else match ResolveAll(streams, args.stream, synonyms)
      case Err(e) => RelayRun([], Some(e), 0, 0)
      case Ok(names) =>
        var start := [Log(Info, StartingPlayer), StartPlayer];
        if !host.playerStarts then RelayRun(start, Some(PlayerStartFailed), 0, 0)
        else
          var x := ServeFrom(s, host.win32, names, streams, 0, 0, 0, 0, 0);
          RelayRun(start + x.trace + [ClosePlayer, CloseServer], None, |x.requests|, Copies(x.requests))
  }

  /** `output_stream_http(plugin, streams)`. */
  method OutputStreamHttp(args: Args, host: Output.Host, s: Scripts, streams: Streams, synonyms: set<string>)
    returns (trace: seq<Event>, exit: Option<ExitReason>, served: nat, copies: nat)
    ensures RelayRun(trace, exit, served, copies) == HttpRun(args, host, s, streams, synonyms)
  {
    served, copies := 0, 0;
    if !host.bindOk {
      return [], Some(ServerFailed), 0, 0;
    }
    if args.player == "" {
      return [], Some(NoPlayer), 0, 0;
    }
    var resolved := ResolveAll(streams, args.stream, synonyms);
    if resolved.Err? {
      return [], Some(resolved.error), 0, 0;
    }
    var names := resolved.value;
    trace := [Log(Info, StartingPlayer), StartPlayer];
    if !host.playerStarts {
      return trace, Some(PlayerStartFailed), 0, 0;
    }
    exit := None;
    var served_trace;
    served_trace, served, copies := Serve(s, host.win32, names, streams);
    trace := trace + served_trace + [ClosePlayer, CloseServer];
  }

  /**
   * The relay's set-up fails, in this order, when the server cannot bind,
   * when there is no player, when a requested name is an unbound synonym,
   * and when the player does not start; once the player runs, every request
   * is answered and its connection closed, at most one stream is copied per
   * request, and the player and then the server are closed at the end.
   */
  lemma HttpOutcome(args: Args, host: Output.Host, s: Scripts, streams: Streams, synonyms: set<string>)
    ensures var r := HttpRun(args, host, s, streams, synonyms);
            var resolved := ResolveAll(streams, args.stream, synonyms);
            && (!host.bindOk ==> r.exit == Some(ServerFailed) && r.trace == [])
            && (host.bindOk && args.player == "" ==> r.exit == Some(NoPlayer) && r.trace == [])
            && (host.bindOk && args.player != "" && resolved.Err? ==> r.exit == Some(UnboundName) && r.trace == [])
            && (host.bindOk && args.player != "" && resolved.Ok? && !host.playerStarts ==>
                  r.exit == Some(PlayerStartFailed) && r.trace == [Log(Info, StartingPlayer), StartPlayer])
            && (r.exit.None? <==> host.bindOk && args.player != "" && resolved.Ok? && host.playerStarts)
            && (r.exit.None? ==> && |r.trace| >= 2 && r.trace[..2] == [Log(Info, StartingPlayer), StartPlayer]
                                 && IsSuffix([ClosePlayer, CloseServer], r.trace)
                                 && Count(r.trace, Log(Info, GotRequest)) == r.served
                                 && Count(r.trace, CloseConnection) == r.served
                                 && Count(r.trace, CloseSource) == r.copies && r.copies <= r.served
                                 && Count(r.trace, ClosePlayer) == 1 && Count(r.trace, CloseServer) == 1)
  {
    var resolved := ResolveAll(streams, args.stream, synonyms);
    if host.bindOk && args.player != "" && resolved.Ok? && host.playerStarts {
      var x := ServeFrom(s, host.win32, resolved.value, streams, 0, 0, 0, 0, 0);
      ServeCounts(s, host.win32, resolved.value, streams, 0, 0, 0, 0, 0);
      assert Tallied(x);
      RelayCounts(x.trace, |x.requests|, Copies(x.requests));
    }
  }

  /** A request the relay answered: the state its inner loop began in, and how that loop ended. */
  datatype Answered = Answered(start: Inner, acquired: Acquired)

  /** The requests loop run to its end: its events, and the requests it answered, in order. */
  datatype Session = Session(trace: seq<Event>, requests: seq<Answered>)

  /**
   * The requests loop of the relay (`for req in iter_http_requests(...)`)
   * from the `run`-th check of the player and the `acc`-th wait, with the
   * streams `cache`, the `fetch`-th fetch and the `open`-th open attempt
   * next, after `served` requests: wait for a request; announce it, find a
   * stream from the cached streams of the previous request, copy it, close
   * the connection; go on until the player stops.
   */
  function ServeFrom(s: Scripts, win32: bool, names: seq<string>, cache: Streams,
                     run: nat, acc: nat, fetch: nat, open: nat, served: nat): Session
    decreases if run <= |s.running| then |s.running| + 1 - run else 0
  {
    var w := Waited(s, run, acc);
    if !w.got then Session(w.trace, [])
    else
      var b := Begin(cache, w.run, fetch, open);
      var a := AcquireFrom(s, names, b);
      var rest := (WaitBounds(s, run, acc);
                   AcquireBounds(s.running, PassOf(s, names), b);
                   ServeFrom(s, win32, names, a.state.cache, a.state.run, w.acc, a.state.fetch, a.state.open, served + 1));
      Session(w.trace + RequestEvents(s, win32, served, a) + rest.trace, [Answered(b, a)] + rest.requests)
  }

  /** The requests of `rs` that were sent a stream. */
  function Copies(rs: seq<Answered>): (n: nat)
    ensures n <= |rs|
  {
    if rs == [] then 0 else (if rs[0].acquired.found.Some? then 1 else 0) + Copies(rs[1..])
  }

  lemma {:induction false} CopiesAppend(rs: seq<Answered>, r: Answered)
    ensures Copies(rs + [r]) == Copies(rs) + (if r.acquired.found.Some? then 1 else 0)
  {
    if rs != [] {
      assert (rs + [r])[1..] == rs[1..] + [r];
      CopiesAppend(rs[1..], r);
    }
  }

  /** One turn of the requests loop, as `ServeFrom` takes it. */
  lemma ServeStep(s: Scripts, win32: bool, names: seq<string>, cache: Streams,
                  run: nat, acc: nat, fetch: nat, open: nat, served: nat)
    ensures var w := Waited(s, run, acc);
            var x := ServeFrom(s, win32, names, cache, run, acc, fetch, open, served);
            && (!w.got ==> x == Session(w.trace, []))
            && (w.got ==>
                  var b := Begin(cache, w.run, fetch, open);
                  var a := AcquireFrom(s, names, b);
                  var rest := ServeFrom(s, win32, names, a.state.cache, a.state.run, w.acc, a.state.fetch, a.state.open, served + 1);
                  x == Session(w.trace + RequestEvents(s, win32, served, a) + rest.trace, [Answered(b, a)] + rest.requests))
  {
  }

  /**
   * The requests loop of the relay: each request is announced, sent the
   * first requested stream that opens if the player still runs, and has its
   * connection closed. The cached streams carry over from one request to the
   * next. Returns the events and the numbers of requests answered and of
   * streams copied.
   */
  method Serve(s: Scripts, win32: bool, names: seq<string>, streams: Streams)
    returns (trace: seq<Event>, served: nat, copies: nat)
    ensures var x := ServeFrom(s, win32, names, streams, 0, 0, 0, 0, 0);
            trace == x.trace && served == |x.requests| && copies == Copies(x.requests)
  {
    trace, served, copies := [], 0, 0;
    ghost var done: seq<Answered> := [];
    var cache := streams;
    var run: nat, acc: nat, fetch: nat, open: nat := 0, 0, 0, 0;
    while true
      invariant run <= |s.running| + 1
      invariant served == |done| && copies == Copies(done)
      invariant Resumes(s, win32, names, streams, trace, done, cache, run, acc, fetch, open, served)
      decreases |s.running| + 1 - run
    {
      var run', acc', got, waits := NextRequest(s, run, acc);
      if !got {
        ServeEnds(s, win32, names, streams, trace, done, cache, run, acc, fetch, open, served);
        trace := trace + waits;
        break;
      }
      var a, seg := Answer(s, win32, names, cache, run', fetch, open, served);
      ServeGoesOn(s, win32, names, streams, trace, done, cache, run, acc, fetch, open, served);
      ServeAdvances(s, names, cache, run, acc, fetch, open);
      CopiesAppend(done, Answered(Begin(cache, run', fetch, open), a));
      done := done + [Answered(Begin(cache, run', fetch, open), a)];
      run, acc, fetch, open, cache := a.state.run, acc', a.state.fetch, a.state.open, a.state.cache;
      trace := trace + waits + seg;
      served := served + 1;
      if a.found.Some? {
        copies := copies + 1;
      }
    }
  }

  /**
   * The requests loop, having produced `trace` and answered `done`, goes on
   * from the given state as `ServeFrom` says.
   */
  predicate Resumes(s: Scripts, win32: bool, names: seq<string>, streams: Streams, trace: seq<Event>, done: seq<Answered>,
                    cache: Streams, run: nat, acc: nat, fetch: nat, open: nat, served: nat)
  {
    var x := ServeFrom(s, win32, names, cache, run, acc, fetch, open, served);
    ServeFrom(s, win32, names, streams, 0, 0, 0, 0, 0) == Session(trace + x.trace, done + x.requests)
  }

  /** A session that goes on with `x`, where `x` is the events `pre`, the request `r` and then `rest`. */
  lemma Rejoin(total: Session, trace: seq<Event>, done: seq<Answered>, x: Session, pre: seq<Event>, r: Answered, rest: Session)
    requires total == Session(trace + x.trace, done + x.requests)
    requires x == Session(pre + rest.trace, [r] + rest.requests)
    ensures total == Session((trace + pre) + rest.trace, (done + [r]) + rest.requests)
  {
    assert trace + (pre + rest.trace) == (trace + pre) + rest.trace;
    assert done + ([r] + rest.requests) == (done + [r]) + rest.requests;
  }

  /** When the wait brings no request, the requests loop ends with the waits' events. */
  lemma ServeEnds(s: Scripts, win32: bool, names: seq<string>, streams: Streams, trace: seq<Event>, done: seq<Answered>,
                  cache: Streams, run: nat, acc: nat, fetch: nat, open: nat, served: nat)
    requires Resumes(s, win32, names, streams, trace, done, cache, run, acc, fetch, open, served)
    requires !Waited(s, run, acc).got
    ensures ServeFrom(s, win32, names, streams, 0, 0, 0, 0, 0) == Session(trace + Waited(s, run, acc).trace, done)
  {
    ServeStep(s, win32, names, cache, run, acc, fetch, open, served);
    assert done + [] == done;
  }

  /** When the wait brings a request, the requests loop answers it and goes on from where its inner loop left off. */
  lemma ServeGoesOn(s: Scripts, win32: bool, names: seq<string>, streams: Streams, trace: seq<Event>, done: seq<Answered>,
                    cache: Streams, run: nat, acc: nat, fetch: nat, open: nat, served: nat)
    requires Resumes(s, win32, names, streams, trace, done, cache, run, acc, fetch, open, served)
    requires Waited(s, run, acc).got
    ensures var w := Waited(s, run, acc);
            var b := Begin(cache, w.run, fetch, open);
            var a := AcquireFrom(s, names, b);
            Resumes(s, win32, names, streams, trace + w.trace + RequestEvents(s, win32, served, a), done + [Answered(b, a)],
                    a.state.cache, a.state.run, w.acc, a.state.fetch, a.state.open, served + 1)
  {
    var w := Waited(s, run, acc);
    var b := Begin(cache, w.run, fetch, open);
    var a := AcquireFrom(s, names, b);
    ServeStep(s, win32, names, cache, run, acc, fetch, open, served);
    var rest := ServeFrom(s, win32, names, a.state.cache, a.state.run, w.acc, a.state.fetch, a.state.open, served + 1);
    Rejoin(ServeFrom(s, win32, names, streams, 0, 0, 0, 0, 0), trace, done,
           ServeFrom(s, win32, names, cache, run, acc, fetch, open, served),
           w.trace + RequestEvents(s, win32, served, a), Answered(b, a), rest);
  }

  /** A request moves the requests loop on: its inner loop ends at a later check of the player, and not past the end. */
  lemma ServeAdvances(s: Scripts, names: seq<string>, cache: Streams, run: nat, acc: nat, fetch: nat, open: nat)
    requires Waited(s, run, acc).got
    ensures var a := AcquireFrom(s, names, Begin(cache, Waited(s, run, acc).run, fetch, open));
            run < a.state.run <= |s.running| + 1
  {
    WaitBounds(s, run, acc);
    AcquireBounds(s.running, PassOf(s, names), Begin(cache, Waited(s, run, acc).run, fetch, open));
  }

  /**
   * Every answered request is announced once and has its connection closed
   * once, one stream is closed per request that was sent one, and nothing
   * closes the player or the server.
   */
  predicate Tallied(x: Session)
  {
    && Count(x.trace, Log(Info, GotRequest)) == |x.requests| && Count(x.trace, CloseConnection) == |x.requests|
    && Count(x.trace, CloseSource) == Copies(x.requests)
    && Count(x.trace, ClosePlayer) == 0 && Count(x.trace, CloseServer) == 0
  }

  /** The requests loop keeps the tallies of `Tallied`. */
  lemma {:induction false} ServeCounts(s: Scripts, win32: bool, names: seq<string>, cache: Streams,
                                       run: nat, acc: nat, fetch: nat, open: nat, served: nat)
    ensures Tallied(ServeFrom(s, win32, names, cache, run, acc, fetch, open, served))
    decreases if run <= |s.running| then |s.running| + 1 - run else 0
  {
    var w := Waited(s, run, acc);
    WaitBounds(s, run, acc);
    WaitEvents(s, run, acc);
    QuietCounts(w.trace);
    ServeStep(s, win32, names, cache, run, acc, fetch, open, served);
    if w.got {
      var b := Begin(cache, w.run, fetch, open);
      var a := AcquireFrom(s, names, b);
      AcquireBounds(s.running, PassOf(s, names), b);
      var rest := ServeFrom(s, win32, names, a.state.cache, a.state.run, w.acc, a.state.fetch, a.state.open, served + 1);
      ServeCounts(s, win32, names, a.state.cache, a.state.run, w.acc, a.state.fetch, a.state.open, served + 1);
      RequestCounts(s, win32, names, b, served);
      TalliedCons(w.trace, RequestEvents(s, win32, served, a), Answered(b, a), rest);
    } else {
      assert Copies([]) == 0;
    }
  }

  /** Waits, one answered request `r` with events `seg`, and then a tallied session, are tallied together. */
  lemma TalliedCons(waits: seq<Event>, seg: seq<Event>, r: Answered, rest: Session)
    requires Count(waits, Log(Info, GotRequest)) == 0 && Count(waits, CloseConnection) == 0 && Count(waits, CloseSource) == 0
    requires Count(waits, ClosePlayer) == 0 && Count(waits, CloseServer) == 0
    requires Count(seg, Log(Info, GotRequest)) == 1 && Count(seg, CloseConnection) == 1
    requires Count(seg, CloseSource) == (if r.acquired.found.Some? then 1 else 0)
    requires Count(seg, ClosePlayer) == 0 && Count(seg, CloseServer) == 0
    requires Tallied(rest)
    ensures Tallied(Session(waits + seg + rest.trace, [r] + rest.requests))
  {
    Tallies(waits, seg);
    Tallies(waits + seg, rest.trace);
    assert ([r] + rest.requests)[1..] == rest.requests;
  }

  /** The inner loop of request `r` starts afresh and runs as `AcquireFrom` says. */
  predicate Runs(s: Scripts, names: seq<string>, r: Answered)
  {
    r.start.trace == [] && r.acquired == AcquireFrom(s, names, r.start)
  }

  /** Request `q` is answered after `p`, from the cache and counters `p` left. */
  predicate Follows(p: Answered, q: Answered)
  {
    && q.start.cache == p.acquired.state.cache && q.start.fetch == p.acquired.state.fetch
    && q.start.open == p.acquired.state.open && p.acquired.state.run < q.start.run
  }

  /** Every request of `rs` runs its inner loop, each from where the one before left off. */
  predicate Chained(s: Scripts, names: seq<string>, rs: seq<Answered>)
  {
    && (forall i :: 0 <= i < |rs| ==> Runs(s, names, rs[i]))
    && (forall i :: 0 <= i < |rs| - 1 ==> Follows(rs[i], rs[i + 1]))
  }

  lemma ChainedCons(s: Scripts, names: seq<string>, r: Answered, rest: seq<Answered>)
    requires Runs(s, names, r) && Chained(s, names, rest)
    requires rest != [] ==> Follows(r, rest[0])
    ensures Chained(s, names, [r] + rest)
  {
    var rs := [r] + rest;
    forall i | 0 < i < |rs| - 1
      ensures Follows(rs[i], rs[i + 1])
    {
      assert rs[i] == rest[i - 1] && rs[i + 1] == rest[i];
    }
  }

  /**
   * The requests are answered one after the other: each one's inner loop
   * starts from the cached streams, fetch and open attempt where the
   * previous one's left off (the first from the streams it was given) and
   * runs as `AcquireFrom` says.
   */
  lemma {:induction false} ServeChains(s: Scripts, win32: bool, names: seq<string>, cache: Streams,
                                       run: nat, acc: nat, fetch: nat, open: nat, served: nat)
    ensures var x := ServeFrom(s, win32, names, cache, run, acc, fetch, open, served);
            && (x.requests != [] ==> && x.requests[0].start.cache == cache && x.requests[0].start.run == Waited(s, run, acc).run
                                     && x.requests[0].start.fetch == fetch && x.requests[0].start.open == open)
            && Chained(s, names, x.requests)
    decreases if run <= |s.running| then |s.running| + 1 - run else 0
  {
    var w := Waited(s, run, acc);
    WaitBounds(s, run, acc);
    ServeStep(s, win32, names, cache, run, acc, fetch, open, served);
    if w.got {
      var b := Begin(cache, w.run, fetch, open);
      var a := AcquireFrom(s, names, b);
      AcquireBounds(s.running, PassOf(s, names), b);
      var rest := ServeFrom(s, win32, names, a.state.cache, a.state.run, w.acc, a.state.fetch, a.state.open, served + 1);
      ServeChains(s, win32, names, a.state.cache, a.state.run, w.acc, a.state.fetch, a.state.open, served + 1);
      WaitBounds(s, a.state.run, w.acc);
      ChainedCons(s, names, Answered(b, a), rest.requests);
    }
  }

  /**
   * The relay keeps what served: the first request looks in the streams the
   * relay was given, and after a request that was sent a stream the next one
   * starts from the (non-empty) streams that stream was found in, so it does
   * not fetch before its first probe, and while they still serve it is sent
   * a stream without fetching at all.
   */
  lemma CacheCarries(s: Scripts, win32: bool, names: seq<string>, streams: Streams, i: nat)
    ensures var x := ServeFrom(s, win32, names, streams, 0, 0, 0, 0, 0);
            && (x.requests != [] ==> x.requests[0].start.cache == streams)
            && (i + 1 < |x.requests| && x.requests[i].acquired.found.Some? ==>
                  var p := x.requests[i];
                  var q := x.requests[i + 1];
                  && q.start.cache == p.acquired.state.cache && q.start.cache != []
                  && FetchEvents(s, q.start.cache, q.start.fetch) == []
                  && (Serves(s, names, q.start.cache, q.start.run, q.start.open) ==>
                        q.acquired.found.Some? && q.acquired.state.fetch == q.start.fetch))
  {
    var x := ServeFrom(s, win32, names, streams, 0, 0, 0, 0, 0);
    ServeChains(s, win32, names, streams, 0, 0, 0, 0, 0);
    if i + 1 < |x.requests| && x.requests[i].acquired.found.Some? {
      var p := x.requests[i];
      var q := x.requests[i + 1];
      assert Runs(s, names, p) && Runs(s, names, q) && Follows(p, q);
      AcquireOpens(s, names, p.start);
      AcquireCaches(s, names, q.start);
    }
  }


  /** The relay's events once the player runs: start it, serve, then close the player and the server. */
  lemma RelayCounts(t: seq<Event>, served: nat, copies: nat)
    requires Count(t, Log(Info, GotRequest)) == served && Count(t, CloseConnection) == served
    requires Count(t, CloseSource) == copies
    requires Count(t, ClosePlayer) == 0 && Count(t, CloseServer) == 0
    ensures var r := [Log(Info, StartingPlayer), StartPlayer] + t + [ClosePlayer, CloseServer];
            && Count(r, Log(Info, GotRequest)) == served && Count(r, CloseConnection) == served
            && Count(r, CloseSource) == copies && Count(r, ClosePlayer) == 1 && Count(r, CloseServer) == 1
            && |r| >= 2 && r[..2] == [Log(Info, StartingPlayer), StartPlayer] && IsSuffix([ClosePlayer, CloseServer], r)
  {
    var h := [Log(Info, StartingPlayer), StartPlayer];
    var e := [ClosePlayer, CloseServer];
    CountTwo(Log(Info, StartingPlayer), StartPlayer, Log(Info, GotRequest));
    CountTwo(Log(Info, StartingPlayer), StartPlayer, CloseConnection);
    CountTwo(Log(Info, StartingPlayer), StartPlayer, CloseSource);
    CountTwo(Log(Info, StartingPlayer), StartPlayer, ClosePlayer);
    CountTwo(Log(Info, StartingPlayer), StartPlayer, CloseServer);
    CountTwo(ClosePlayer, CloseServer, Log(Info, GotRequest));
    CountTwo(ClosePlayer, CloseServer, CloseConnection);
    CountTwo(ClosePlayer, CloseServer, CloseSource);
    CountTwo(ClosePlayer, CloseServer, ClosePlayer);
    CountTwo(ClosePlayer, CloseServer, CloseServer);
    Tallies(h, t);
    Tallies(h + t, e);
    assert (h + t + e)[..2] == h;
    assert (h + t + e)[|h + t + e| - 2..] == e;
  }

  /** What the relay sends down the connection of the `served`-th request once it has a stream: the copy. */
  function Delivered(s: Scripts, win32: bool, served: nat, found: Option<Served>): seq<Event>
  {
    match found
    case None => []
    case Some(f) =>
      [Log(Debug, WritingToPlayer)]
        + CopyLoop.Copy(f.stream.rest, Sink(Http, ConnAt(s.conns, served), []), win32, f.stream.prebuffer).trace
  }

  /** The events of one answered request: announce it, find a stream, copy it if found, close the connection. */
  function RequestEvents(s: Scripts, win32: bool, served: nat, a: Acquired): seq<Event>
  {
    [Log(Info, GotRequest)] + a.state.trace + Delivered(s, win32, served, a.found) + [CloseConnection]
  }

  /** One pass of the relay's outer loop, after a request arrived. */
  method Answer(s: Scripts, win32: bool, names: seq<string>, cache: Streams, run: nat, fetch: nat, open: nat, served: nat)
    returns (a: Acquired, seg: seq<Event>)
    ensures a == AcquireFrom(s, names, Begin(cache, run, fetch, open))
    ensures seg == RequestEvents(s, win32, served, a)
  {
    a := Acquire(s, names, cache, run, fetch, open);
    var copied: seq<Event> := [];
    if a.found.Some? {
      var o := a.found.value.stream;
      var r := CopyLoop.ReadStream(o.rest, Sink(Http, ConnAt(s.conns, served), []), win32, o.prebuffer);
      copied := [Log(Debug, WritingToPlayer)] + r.trace;
    }
    seg := [Log(Info, GotRequest)] + a.state.trace + copied + [CloseConnection];
  }

  /**
   * Every answered request is announced once and has its connection closed
   * once, and one stream is closed in it exactly when it was sent a stream.
   */
  lemma RequestCounts(s: Scripts, win32: bool, names: seq<string>, b: Inner, served: nat)
    requires b.trace == []
    ensures var a := AcquireFrom(s, names, b);
            var t := RequestEvents(s, win32, served, a);
            && Count(t, Log(Info, GotRequest)) == 1 && Count(t, CloseConnection) == 1
            && Count(t, CloseSource) == (if a.found.Some? then 1 else 0)
            && Count(t, ClosePlayer) == 0 && Count(t, CloseServer) == 0
  {
    var a := AcquireFrom(s, names, b);
    AcquireTrace(s, names, b);
    if a.found.Some? {
      var f := a.found.value;
      CopiedCounts(f.stream.rest, Sink(Http, ConnAt(s.conns, served), []), win32, f.stream.prebuffer);
    }
    SegmentCounts(a.state.trace, Delivered(s, win32, served, a.found), if a.found.Some? then 1 else 0);
  }

  /** What a copy into a connection adds: one closed stream, and none of the relay's own events. */
  lemma CopiedCounts(src: seq<ReadOutcome>, sink: Sink, win32: bool, prebuffer: seq<byte>)
    ensures var t := [Log(Debug, WritingToPlayer)] + CopyLoop.Copy(src, sink, win32, prebuffer).trace;
            && Count(t, Log(Info, GotRequest)) == 0 && Count(t, CloseConnection) == 0 && Count(t, CloseSource) == 1
            && Count(t, ClosePlayer) == 0 && Count(t, CloseServer) == 0
  {
    var c := CopyLoop.Copy(src, sink, win32, prebuffer).trace;
    CopyLoop.CopyForeign(src, sink, win32, prebuffer, Log(Info, GotRequest));
    CopyLoop.CopyForeign(src, sink, win32, prebuffer, CloseConnection);
    CopyLoop.CopyForeign(src, sink, win32, prebuffer, ClosePlayer);
    CopyLoop.CopyForeign(src, sink, win32, prebuffer, CloseServer);
    CopyLoop.CopyCloses(src, sink, win32, prebuffer);
    CountOne(Log(Debug, WritingToPlayer), Log(Info, GotRequest));
    CountOne(Log(Debug, WritingToPlayer), CloseConnection);
    CountOne(Log(Debug, WritingToPlayer), CloseSource);
    CountOne(Log(Debug, WritingToPlayer), ClosePlayer);
    CountOne(Log(Debug, WritingToPlayer), CloseServer);
    Tallies([Log(Debug, WritingToPlayer)], c);
  }

  /** One answered request: announced once, its connection closed once, and `c` streams closed. */
  lemma SegmentCounts(acquired: seq<Event>, copied: seq<Event>, c: nat)
    requires Quiet(acquired)
    requires Count(copied, Log(Info, GotRequest)) == 0 && Count(copied, CloseConnection) == 0
    requires Count(copied, CloseSource) == c && Count(copied, ClosePlayer) == 0 && Count(copied, CloseServer) == 0
    ensures var t := [Log(Info, GotRequest)] + acquired + copied + [CloseConnection];
            && Count(t, Log(Info, GotRequest)) == 1 && Count(t, CloseConnection) == 1 && Count(t, CloseSource) == c
            && Count(t, ClosePlayer) == 0 && Count(t, CloseServer) == 0
  {
    var a := [Log(Info, GotRequest)];
    var e := [CloseConnection];
    QuietCounts(acquired);
    CountOne(Log(Info, GotRequest), Log(Info, GotRequest));
    CountOne(Log(Info, GotRequest), CloseConnection);
    CountOne(Log(Info, GotRequest), CloseSource);
    CountOne(Log(Info, GotRequest), ClosePlayer);
    CountOne(Log(Info, GotRequest), CloseServer);
    CountOne(CloseConnection, Log(Info, GotRequest));
    CountOne(CloseConnection, CloseConnection);
    CountOne(CloseConnection, CloseSource);
    CountOne(CloseConnection, ClosePlayer);
    CountOne(CloseConnection, CloseServer);
    Tallies(a, acquired);
    Tallies(a + acquired, copied);
    Tallies(a + acquired + copied, e);
  }
}
