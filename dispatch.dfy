/**
 * What the program does with the streams of a URL: `handle_url` picks the
 * first requested stream that exists (or lists them), and `handle_stream`
 * tries that stream and then its "_alt" fail-overs, each through the player
 * passthrough, the continuous HTTP relay, or a byte copy into the output.
 */
module Dispatch {
  import opened Io
  import opened Options
  import opened Names
  import Probe
  import Output
  import Fetch
  import Relay

  // ---------------------------------------------------------------------------
  // `handle_stream`.

  /** How a candidate is played. */
  datatype Mode = ViaPassthrough | ViaRelay | ViaCopy

  /** The stream type of a name (`type(stream).shortname()`); empty for a name that is not bound. */
  function Shortname(d: Streams, name: string): string
  {
    match Get(d, name)
    case Some(st) => st.shortname
    case None => ""
  }

  /**
   * The branch `handle_stream` takes for a stream type: passthrough for the
   * types the user listed, then the continuous HTTP relay, then a copy; the
   * first two only when no file output was asked for.
   */
  function ModeFor(args: Args, shortname: string): (m: Mode)
    ensures m == ViaPassthrough <==> shortname in args.playerPassthrough && !FileOutput(args)
    ensures m == ViaRelay <==> args.playerContinuousHttp && !FileOutput(args) && shortname !in args.playerPassthrough
    ensures FileOutput(args) ==> m == ViaCopy
  {
    if shortname in args.playerPassthrough && !FileOutput(args) then ViaPassthrough
    else if args.playerContinuousHttp && !FileOutput(args) then ViaRelay
    else ViaCopy
  }

  /** How trying the candidates ends: a candidate succeeded, none did, the program exited, or the relay took over. */
  datatype Tried = Succeeded(name: string) | AllFailed | Stopped(reason: ExitReason) | RelayFor(name: string)

  /** The events of trying the candidates, the next open attempt, and how it ended. */
  datatype Attempted = Attempted(trace: seq<Event>, next: nat, result: Tried)

  /** Earlier events before an attempt. */
  function Prepend(t: seq<Event>, a: Attempted): Attempted
  {
    Attempted(t + a.trace, a.next, a.result)
  }

  /**
   * The loop `for stream_name in [stream_name] + alt_streams` from candidate
   * `i` on, with the copies using the open attempts of `opens` from `at`: a
   * passthrough ends the loop (it succeeds or exits), the relay takes over
   * for good, and a copy that opens nothing moves on to the next candidate.
   */
  function Failover(args: Args, host: Output.Host, d: Streams, cands: seq<string>, i: nat,
                    opens: seq<Probe.OpenAttempt>, at: nat): Attempted
    requires i <= |cands|
    decreases |cands| - i
  {
    if i == |cands| then Attempted([], at, AllFailed)
    else
      var name := cands[i];
      var opening := [Log(Info, OpeningStream(name))];
      match ModeFor(args, Shortname(d, name))
      case ViaRelay => Attempted([], at, RelayFor(name))
      case ViaPassthrough =>
        var p := Output.Passthrough(host);
        Attempted(opening + p.0, at, if p.1.Done? then Succeeded(name) else Stopped(p.1.reason))
      case ViaCopy =>
        var r := Output.OutputStreamRun(args, host, opens, at);
        match r.result
        case Done => Attempted(opening + r.trace, r.next, Succeeded(name))
        case Exited(why) => Attempted(opening + r.trace, r.next, Stopped(why))
        case NotOpened => Prepend(opening + r.trace, Failover(args, host, d, cands, i + 1, opens, r.next))
  }

  /** A copy that opened nothing moves on to the next candidate. */
  lemma FailoverNext(args: Args, host: Output.Host, d: Streams, cands: seq<string>, i: nat,
                     opens: seq<Probe.OpenAttempt>, at: nat)
    requires i < |cands| && ModeFor(args, Shortname(d, cands[i])) == ViaCopy
    requires Output.OutputStreamRun(args, host, opens, at).result == Output.NotOpened
    ensures var r := Output.OutputStreamRun(args, host, opens, at);
            Failover(args, host, d, cands, i, opens, at)
              == Prepend([Log(Info, OpeningStream(cands[i]))] + r.trace, Failover(args, host, d, cands, i + 1, opens, r.next))
  {
  }

  lemma PrependPrepend(t: seq<Event>, u: seq<Event>, a: Attempted)
    ensures Prepend(t, Prepend(u, a)) == Prepend(t + u, a)
  {
    Assoc(t, u, a.trace);
  }

  /** A candidate the loop moves on from: it is copied, and no probe of it succeeds. */
  predicate Fails(args: Args, host: Output.Host, d: Streams, name: string, opens: seq<Probe.OpenAttempt>, at: nat)
  {
    ModeFor(args, Shortname(d, name)) == ViaCopy && Output.OutputStreamRun(args, host, opens, at).result == Output.NotOpened
  }

  /** The first candidate from `i` on that does not fail, and the open attempt its turn starts at. */
  function FirstWorking(args: Args, host: Output.Host, d: Streams, cands: seq<string>, i: nat,
                        opens: seq<Probe.OpenAttempt>, at: nat): (w: (nat, nat))
    requires i <= |cands|
    decreases |cands| - i
    ensures i <= w.0 <= |cands|
  {
    if i == |cands| || !Fails(args, host, d, cands[i], opens, at) then (i, at)
    else FirstWorking(args, host, d, cands, i + 1, opens, Output.OutputStreamRun(args, host, opens, at).next)
  }

  /** Only copied candidates are passed over: a passthrough or relay candidate always ends the loop. */
  lemma {:induction false} SkippedWereCopied(args: Args, host: Output.Host, d: Streams, cands: seq<string>, i: nat,
                                             opens: seq<Probe.OpenAttempt>, at: nat)
    requires i <= |cands|
    ensures AllCopied(args, d, cands, i, FirstWorking(args, host, d, cands, i, opens, at).0)
    decreases |cands| - i
  {
    var w := FirstWorking(args, host, d, cands, i, opens, at);
    if i < |cands| && Fails(args, host, d, cands[i], opens, at) {
      var next := Output.OutputStreamRun(args, host, opens, at).next;
      SkippedWereCopied(args, host, d, cands, i + 1, opens, next);
      assert w == FirstWorking(args, host, d, cands, i + 1, opens, next);
      CopiedOneMore(args, d, cands, i, w.0);
    } else {
      assert w.0 == i;
    }
  }

  /** Every candidate from `i` up to `j` is copied. */
  predicate AllCopied(args: Args, d: Streams, cands: seq<string>, i: nat, j: nat)
  {
    forall k :: i <= k < j && k < |cands| ==> ModeFor(args, Shortname(d, cands[k])) == ViaCopy
  }

  lemma CopiedOneMore(args: Args, d: Streams, cands: seq<string>, i: nat, j: nat)
    requires i < |cands| && ModeFor(args, Shortname(d, cands[i])) == ViaCopy && AllCopied(args, d, cands, i + 1, j)
    ensures AllCopied(args, d, cands, i, j)
  {
  }

  /** How a candidate that does not fail ends the loop. */
  function Settle(args: Args, host: Output.Host, d: Streams, name: string, opens: seq<Probe.OpenAttempt>, at: nat): Tried
  {
    match ModeFor(args, Shortname(d, name))
    case ViaRelay => RelayFor(name)
    case ViaPassthrough => if host.playerStarts then Succeeded(name) else Stopped(PlayerStartFailed)
    case ViaCopy =>
      var r := Output.OutputStreamRun(args, host, opens, at);
      if r.result.Done? then Succeeded(name) else if r.result.Exited? then Stopped(r.result.reason) else AllFailed
  }

  /**
   * The candidates are tried in order and the loop stops at the first that
   * does not fail: all fail exactly when the loop ends with nothing, and
   * otherwise that first candidate alone decides the outcome (success,
   * exit, or the relay).
   */
  lemma {:induction false} FailoverStopsAtFirstSuccess(args: Args, host: Output.Host, d: Streams, cands: seq<string>, i: nat,
                                                       opens: seq<Probe.OpenAttempt>, at: nat)
    requires i <= |cands|
    ensures var w := FirstWorking(args, host, d, cands, i, opens, at);
            var f := Failover(args, host, d, cands, i, opens, at);
            && (w.0 == |cands| <==> f.result == AllFailed)
            && (w.0 < |cands| ==> f.result == Settle(args, host, d, cands[w.0], opens, w.1))
            && (f.result.Succeeded? ==> w.0 < |cands| && f.result.name == cands[w.0])
    decreases |cands| - i
  {
    if i < |cands| && Fails(args, host, d, cands[i], opens, at) {
      FailoverStopsAtFirstSuccess(args, host, d, cands, i + 1, opens, Output.OutputStreamRun(args, host, opens, at).next);
    }
  }

  /** Once a candidate was copied (a file output, or no continuous HTTP), no later candidate goes to the relay. */
  lemma {:induction false} NoRelayAfterCopy(args: Args, host: Output.Host, d: Streams, cands: seq<string>, i: nat,
                                            opens: seq<Probe.OpenAttempt>, at: nat)
    requires i <= |cands| && (FileOutput(args) || !args.playerContinuousHttp)
    ensures !Failover(args, host, d, cands, i, opens, at).result.RelayFor?
    decreases |cands| - i
  {
    if i < |cands| && Fails(args, host, d, cands[i], opens, at) {
      NoRelayAfterCopy(args, host, d, cands, i + 1, opens, Output.OutputStreamRun(args, host, opens, at).next);
    }
  }

  /**
   * The relay takes over only at the first candidate examined, before
   * anything was tried: continuous HTTP returns after the first candidate.
   */
  lemma RelayOnlyFirst(args: Args, host: Output.Host, d: Streams, cands: seq<string>, i: nat,
                       opens: seq<Probe.OpenAttempt>, at: nat)
    requires i <= |cands|
    ensures var f := Failover(args, host, d, cands, i, opens, at);
            f.result.RelayFor? ==> i < |cands| && f.result.name == cands[i] && f.trace == [] && f.next == at
  {
    if i < |cands| && Fails(args, host, d, cands[i], opens, at) {
      NoRelayAfterCopy(args, host, d, cands, i + 1, opens, Output.OutputStreamRun(args, host, opens, at).next);
    }
  }

  /** Every open attempt the loop uses is one probe: the events open a stream once per attempt consumed. */
  lemma {:induction false} FailoverOpens(args: Args, host: Output.Host, d: Streams, cands: seq<string>, i: nat,
                                         opens: seq<Probe.OpenAttempt>, at: nat)
    requires i <= |cands|
    ensures var f := Failover(args, host, d, cands, i, opens, at);
            at <= f.next && Count(f.trace, OpenSource) == f.next - at
    decreases |cands| - i
  {
    if i < |cands| {
      var name := cands[i];
      var opening := [Log(Info, OpeningStream(name))];
      CountOne(Log(Info, OpeningStream(name)), OpenSource);
      match ModeFor(args, Shortname(d, name))
      case ViaRelay =>
      case ViaPassthrough =>
        var p := Output.Passthrough(host);
        CountAbsent(p.0, OpenSource);
        CountConcat(opening, p.0, OpenSource);
      case ViaCopy =>
        var r := Output.OutputStreamRun(args, host, opens, at);
        Output.OutputStreamRetries(args, host, opens, at);
        CountConcat(opening, r.trace, OpenSource);
        if r.result.NotOpened? {
          var rest := Failover(args, host, d, cands, i + 1, opens, r.next);
          FailoverOpens(args, host, d, cands, i + 1, opens, r.next);
          CountConcat(opening + r.trace, rest.trace, OpenSource);
        }
    }
  }

  /** What `handle_stream` ended with. */
  datatype HandleResult =
    | Finished(tried: Tried)                                      // the candidates were tried
    | Relayed(exit: Option<ExitReason>, served: nat, copies: nat) // the relay ran
    | PrintedJson                                                 // --json: the stream was printed

  /** What `handle_stream` did: its events, the index of the next open attempt, and how it ended. */
  datatype Handling = Handling(trace: seq<Event>, next: nat, result: HandleResult)

  /**
   * The candidates `cands` tried in order as `Failover` says; when the relay
   * takes over, it runs as `Relay.HttpRun` says after the events so far.
   */
  function Tries(args: Args, host: Output.Host, rs: Relay.Scripts, d: Streams, synonyms: set<string>,
                 cands: seq<string>, opens: seq<Probe.OpenAttempt>, at: nat): Handling
  {
    var f := Failover(args, host, d, cands, 0, opens, at);
    if f.result.RelayFor? then
      var h := Relay.HttpRun(args, host, rs, d, synonyms);
      Handling(f.trace + h.trace, f.next, Relayed(h.exit, h.served, h.copies))
    else Handling(f.trace, f.next, Finished(f.result))
  }

  /** The candidate loop of `handle_stream`, over the candidates `cands`. */
  method TryCandidates(args: Args, host: Output.Host, rs: Relay.Scripts, d: Streams, synonyms: set<string>,
                       cands: seq<string>, opens: seq<Probe.OpenAttempt>, at: nat)
    returns (trace: seq<Event>, next: nat, result: HandleResult)
    ensures Handling(trace, next, result) == Tries(args, host, rs, d, synonyms, cands, opens, at)
  {
    trace, next := [], at;
    var i := 0;
    while i < |cands|
      invariant i <= |cands|
      invariant Failover(args, host, d, cands, 0, opens, at) == Prepend(trace, Failover(args, host, d, cands, i, opens, next))
    {
      var candidate := cands[i];
      var opening := [Log(Info, OpeningStream(candidate))];
      var mode := ModeFor(args, Shortname(d, candidate));
      if mode == ViaPassthrough {
        var p := Output.Passthrough(host);
        trace := trace + (opening + p.0);
        if p.1.Done? {
          return trace, next, Finished(Succeeded(candidate));
        }
        return trace, next, Finished(Stopped(p.1.reason));
      } else if mode == ViaRelay {
        var t, exit, served, copies := Relay.OutputStreamHttp(args, host, rs, d, synonyms);
        AppendEmpty(trace);
        return trace + t, next, Relayed(exit, served, copies);
      }
      var r := Output.OutputStream(args, host, opens, next);
      if r.result.Done? {
        return trace + (opening + r.trace), r.next, Finished(Succeeded(candidate));
      } else if r.result.Exited? {
        return trace + (opening + r.trace), r.next, Finished(Stopped(r.result.reason));
      }
      FailoverNext(args, host, d, cands, i, opens, next);
      PrependPrepend(trace, opening + r.trace, Failover(args, host, d, cands, i + 1, opens, r.next));
      trace := trace + (opening + r.trace);
      next := r.next;
      i := i + 1;
    }
    AppendEmpty(trace);
    result := Finished(AllFailed);
  }

  /**
   * `handle_stream(plugin, streams, stream_name)`: resolve the name and look
   * it up (an unbound name raises a KeyError), print the stream with
   * --json, and otherwise try the stream and its "_alt" fail-overs.
   */
  function HandleRun(args: Args, host: Output.Host, rs: Relay.Scripts, d: Streams, name: string, synonyms: set<string>,
                     opens: seq<Probe.OpenAttempt>, at: nat): Handling
  {
    match ResolveStreamName(d, name, synonyms)
    case Err(_) => Handling([], at, Finished(Stopped(UnboundName)))
    case Ok(resolved) =>
      if resolved !in Keys(d) then Handling([], at, Finished(Stopped(UnboundName)))
      else if args.json then Handling([], at, PrintedJson)
      else Tries(args, host, rs, d, synonyms, Candidates(d, resolved), opens, at)
  }

  /**
   * `handle_stream(plugin, streams, stream_name)`, with the copies using the
   * open attempts of `opens` from `at` and the relay using the scripts `rs`.
   */
  method HandleStream(args: Args, host: Output.Host, rs: Relay.Scripts, d: Streams, name: string, synonyms: set<string>,
                      opens: seq<Probe.OpenAttempt>, at: nat)
    returns (trace: seq<Event>, next: nat, result: HandleResult)
    ensures Handling(trace, next, result) == HandleRun(args, host, rs, d, name, synonyms, opens, at)
  {
    var resolved := ResolveStreamName(d, name, synonyms);
    if resolved.Err? || resolved.value !in Keys(d) {
      return [], at, Finished(Stopped(UnboundName));
    }
    if args.json {
      return [], at, PrintedJson;
    }
    trace, next, result := TryCandidates(args, host, rs, d, synonyms, Candidates(d, resolved.value), opens, at);
  }

  /**
   * Resolving the name, or looking it up, raises a KeyError when it is not
   * bound, before --json is looked at; a bound name is printed with --json;
   * otherwise its candidates are tried in order until one works, and when
   * the relay takes over (only ever for the first candidate) it starts
   * serving exactly when the server binds, a player is set, every requested
   * name resolves and the player starts.
   */
  lemma HandleOutcome(args: Args, host: Output.Host, rs: Relay.Scripts, d: Streams, name: string, synonyms: set<string>,
                      opens: seq<Probe.OpenAttempt>, at: nat)
    ensures var h := HandleRun(args, host, rs, d, name, synonyms, opens, at);
            var resolved := ResolveStreamName(d, name, synonyms);
            && (resolved.Err? || resolved.value !in Keys(d) ==> h == Handling([], at, Finished(Stopped(UnboundName))))
            && (resolved.Ok? && resolved.value in Keys(d) ==>
                  && (args.json ==> h == Handling([], at, PrintedJson))
                  && (!args.json ==>
                        var cands := Candidates(d, resolved.value);
                        var f := Failover(args, host, d, cands, 0, opens, at);
                        && (!f.result.RelayFor? ==> h == Handling(f.trace, f.next, Finished(f.result)))
                        && (f.result.RelayFor? ==>
                              && f.trace == [] && f.next == at && f.result.name == cands[0]
                              && h.result.Relayed? && h.next == at
                              && h.trace == Relay.HttpRun(args, host, rs, d, synonyms).trace
                              && (h.result.exit.None? <==> && host.bindOk && args.player != ""
                                                           && Relay.ResolveAll(d, args.stream, synonyms).Ok?
                                                           && host.playerStarts))))
  {
    var resolved := ResolveStreamName(d, name, synonyms);
    if resolved.Ok? && resolved.value in Keys(d) && !args.json {
      var cands := Candidates(d, resolved.value);
      var f := Failover(args, host, d, cands, 0, opens, at);
      if f.result.RelayFor? {
        RelayOnlyFirst(args, host, d, cands, 0, opens, at);
        Relay.HttpOutcome(args, host, rs, d, synonyms);
        assert [] + Relay.HttpRun(args, host, rs, d, synonyms).trace == Relay.HttpRun(args, host, rs, d, synonyms).trace;
      }
    }
  }

  // ---------------------------------------------------------------------------
  // `handle_url`.

  /** The stream names asked for: "best" stands in for none with --best-stream-default, unless --json. */
  function Requested(args: Args): seq<string>
  {
    if args.stream == [] && args.bestStreamDefault && !args.json then ["best"] else args.stream
  }

  /** What `handle_url` does with the fetched streams. */
  datatype Pick =
    | NoStreamsFound     // the plugin returned no streams
    | Handle(name: string) // the first requested stream that exists
    | NotFound           // none of the requested streams exists
    | ListAll            // no stream was requested: list them

  /** The choice `handle_url` makes once it has the streams `d`. */
  function PickStream(args: Args, d: Streams): (p: Pick)
    ensures p == NoStreamsFound <==> d == []
    ensures p == ListAll <==> d != [] && Requested(args) == []
    // the requested names are looked at in the order given, and the first that exists is handled
    ensures p.Handle? ==> exists i :: && 0 <= i < |Requested(args)| && Requested(args)[i] == p.name
                                      && p.name in Keys(d)
                                      && forall j :: 0 <= j < i ==> Requested(args)[j] !in Keys(d)
    ensures p == NotFound <==> && d != [] && Requested(args) != []
                               && forall i :: 0 <= i < |Requested(args)| ==> Requested(args)[i] !in Keys(d)
  {
    var names := Requested(args);
    if d == [] then NoStreamsFound
    else if names == [] then ListAll
    else
      var k := FirstPresent(names, d);
      if k < |names| then Handle(names[k]) else NotFound
  }

  /** The streams the plugin gave, or None when it raised (or, waiting, when the script ran out first). */
  function Obtained(args: Args, fetches: seq<Fetch.FetchOutcome>): Option<Streams>
  {
    if args.retryStreams > 0 then
      var j := Fetch.FirstTruthy(fetches, 0);
      if j < |fetches| then Some(fetches[j].streams) else None
    else
      match Fetch.FetchAt(fetches, 0)
      case Fetched(d) => Some(d)
      case PluginFails => None
  }

  /** The events of fetching the streams of the URL: one fetch, or the wait of `fetch_streams_infinite`. */
  function Fetching(args: Args, fetches: seq<Fetch.FetchOutcome>): seq<Event>
  {
    if args.retryStreams > 0 then Fetch.Waiting(fetches, args.retryStreams) else [FetchStreams]
  }

  /** Fetching the streams of the URL: once, or with --retry-streams until some come. */
  method FetchForUrl(args: Args, fetches: seq<Fetch.FetchOutcome>) returns (trace: seq<Event>, r: Option<Streams>)
    ensures r == Obtained(args, fetches)
    // waiting never gives up on an empty answer
    ensures args.retryStreams > 0 && r.Some? ==> r.value != []
    ensures trace == Fetching(args, fetches)
  {
    if args.retryStreams > 0 {
      trace, r := Fetch.FetchStreamsInfinite(fetches, args.retryStreams);
    } else {
      trace := [FetchStreams];
      match Fetch.FetchAt(fetches, 0)
      case Fetched(d) => r := Some(d);
      case PluginFails => r := None;
    }
  }

  /** How `handle_url` ends. */
  datatype UrlResult =
    | Exit(reason: ExitReason)               // console.exit
    | Handled(name: string, how: HandleResult) // handle_stream ran on this stream
    | NotFoundJson                           // the "could not be found" error, printed as JSON
    | ListedJson                             // the streams, printed as JSON
    | Available(listing: string)             // "Available streams: <listing>"
    | StillWaiting                           // the script of fetches ran out while waiting

  /**
   * `handle_url()` once the plugin is found, with the plugin's answers in
   * `fetches`, the copies using the open attempts of `opens` and the relay
   * using the scripts `rs`.
   */
  method HandleUrl(args: Args, host: Output.Host, rs: Relay.Scripts, fetches: seq<Fetch.FetchOutcome>,
                   opens: seq<Probe.OpenAttempt>, synonyms: set<string>)
    returns (trace: seq<Event>, result: UrlResult)
    // the fetch comes first; a plugin error ends the program; waiting only ends when streams come
    ensures Obtained(args, fetches).None? ==> trace == Fetching(args, fetches)
    ensures args.retryStreams == 0 && Fetch.FetchAt(fetches, 0).PluginFails? ==> result == Exit(PluginFailed)
    ensures args.retryStreams > 0 && Obtained(args, fetches).None? ==> result == StillWaiting
    ensures Obtained(args, fetches).Some? ==>
              var d := Obtained(args, fetches).value;
              match PickStream(args, d)
              case NoStreamsFound => result == Exit(NoStreams) && trace == Fetching(args, fetches)
              // handle_stream sees the requested names after the --best-stream-default rewrite
              case Handle(name) =>
                var h := HandleRun(args.(stream := Requested(args)), host, rs, d, name, synonyms, opens, 0);
                && result == Handled(name, h.result)
                && trace == Fetching(args, fetches) + [Log(Info, AvailableStreams(Listing(d, synonyms)))] + h.trace
                && (result.how == PrintedJson <==> args.json)
              // otherwise nothing is logged after the fetch
              case NotFound => result == (if args.json then NotFoundJson else Exit(NoSuchStream))
                               && trace == Fetching(args, fetches)
              case ListAll => result == (if args.json then ListedJson else Available(Listing(d, synonyms)))
                              && trace == Fetching(args, fetches)
  {
    var r;
    trace, r := FetchForUrl(args, fetches);
    if r.None? {
      return trace, if args.retryStreams > 0 then StillWaiting else Exit(PluginFailed);
    }
    var d := r.value;
    match PickStream(args, d)
    case NoStreamsFound =>
      result := Exit(NoStreams);
    case Handle(name) =>
      var listing := FormatValidStreams(d, synonyms);
      var t, _, how := HandleStream(args.(stream := Requested(args)), host, rs, d, name, synonyms, opens, 0);
      HandleOutcome(args.(stream := Requested(args)), host, rs, d, name, synonyms, opens, 0);
      ResolveBound(d, name, synonyms);
      trace := trace + [Log(Info, AvailableStreams(listing))] + t;
      result := Handled(name, how);
    case NotFound =>
      result := if args.json then NotFoundJson else Exit(NoSuchStream);
    case ListAll =>
      if args.json {
        result := ListedJson;
      } else {
        var listing := FormatValidStreams(d, synonyms);
        result := Available(listing);
      }
  }
}
