/**
 * One-shot output: choosing the sink (`create_output`, `check_file_output`),
 * probing the stream with bounded retries and copying it to the sink
 * (`output_stream`), and handing the stream's URL to the player instead
 * (`output_stream_passthrough`).
 */
module Output {
  import opened Io
  import opened Options
  import CopyLoop
  import opened Probe

  /** How a player is fed. */
  datatype Transport = Stdin | NamedPipe | HttpFeed

  /** Where the stream goes. */
  datatype Target = Stdout | FileAt(filename: string) | PlayerVia(transport: Transport)

  /** The outcome of choosing an output: a target, or the program exits. */
  datatype Choice = Chosen(target: Target) | Quit(reason: ExitReason)

  /**
   * The answers of the environment the engine consults: whether the output
   * file present and what the user answers to the overwrite prompt, whether
   * the named pipe and the HTTP server can be set up, whether opening the
   * output succeeds, whether the player starts for passthrough, the
   * platform, and the write and player-exit scripts of the sink.
   */
  datatype Host = Host(fileExists: bool, answer: string, pipeOk: bool, bindOk: bool,
                       outputOpens: bool, playerStarts: bool, win32: bool,
                       writes: seq<WriteOutcome>, exits: seq<bool>)

  /** The ASCII lower-case of a character. */
  function LowerChar(c: char): char
  {
    if 'A' <= c <= 'Z' then (c as int + 32) as char else c
  }

  function Lower(s: string): (r: string)
    ensures |r| == |s|
    ensures forall i :: 0 <= i < |s| ==> r[i] == LowerChar(s[i])
  {
    if s == [] then [] else [LowerChar(s[0])] + Lower(s[1..])
  }

  /** `answer.lower() == "y"`. */
  predicate Confirms(answer: string)
  {
    Lower(answer) == "y"
  }

  /** Only "y" and "Y" confirm an overwrite. */
  lemma ConfirmsExactly(answer: string)
    ensures Confirms(answer) <==> answer == "y" || answer == "Y"
  {
    if Confirms(answer) {
      assert Lower(answer)[0] == LowerChar(answer[0]);
    }
  }

  /** `check_file_output(filename, force)`: an existing file is overwritten only with --force or the user's "y". */
  function CheckFileOutput(filename: string, force: bool, present: bool, answer: string): (c: Choice)
    ensures c == Chosen(FileAt(filename)) || c == Quit(OverwriteDeclined)
    ensures c == Quit(OverwriteDeclined) <==> present && !force && !Confirms(answer)
  {
    if present && !force && !Confirms(answer) then Quit(OverwriteDeclined) else Chosen(FileAt(filename))
  }

  /** `create_output()`. */
  function CreateOutput(args: Args, host: Host): (c: Choice)
  {
    if args.output != "" then
      if args.output == "-" then Chosen(Stdout)
      else CheckFileOutput(args.output, args.force, host.fileExists, host.answer)
    else if args.stdout then Chosen(Stdout)
    else if args.player == "" then Quit(NoPlayer)
    else if args.playerFifo then
      if host.pipeOk then Chosen(PlayerVia(NamedPipe)) else Quit(PipeFailed)
    else if args.playerHttp then
      if host.bindOk then Chosen(PlayerVia(HttpFeed)) else Quit(ServerFailed)
    else Chosen(PlayerVia(Stdin))
  }

  /**
   * The priority of `create_output`: --output (with "-" meaning stdout) wins
   * over --stdout, which wins over a player; a player needs a configured
   * executable, and is fed through a named pipe, else over HTTP, else on
   * stdin; a pipe or server that cannot be set up ends the program.
   */
  lemma CreateOutputPriority(args: Args, host: Host)
    ensures var c := CreateOutput(args, host);
            && (args.output == "-" ==> c == Chosen(Stdout))
            && (args.output != "" && args.output != "-" ==>
                  (c == Chosen(FileAt(args.output)) <==> !(host.fileExists && !args.force && !Confirms(host.answer))))
            && (args.output == "" && args.stdout ==> c == Chosen(Stdout))
            && (c.Chosen? && c.target.PlayerVia? <==> !FileOutput(args) && args.player != "" && c != Quit(PipeFailed) && c != Quit(ServerFailed))
            && (c == Quit(NoPlayer) <==> !FileOutput(args) && args.player == "")
            && (c.Chosen? && c.target == PlayerVia(NamedPipe) <==> !FileOutput(args) && args.player != "" && args.playerFifo && host.pipeOk)
            && (c.Chosen? && c.target == PlayerVia(HttpFeed) <==> !FileOutput(args) && args.player != "" && !args.playerFifo && args.playerHttp && host.bindOk)
            && (c.Quit? ==> c.reason in {OverwriteDeclined, NoPlayer, PipeFailed, ServerFailed})
  {
  }

  /** The kind of sink each target builds. */
  function KindOf(t: Target): (k: SinkKind)
    ensures k.File? <==> !t.PlayerVia?
    ensures k.Player? ==> (k.hasNamedPipe <==> t.transport == NamedPipe)
  {
    match t
    case Stdout => File(true)
    case FileAt(_) => File(false)
    case PlayerVia(tr) => Player(tr == NamedPipe)
  }

  /**
   * Progress is shown exactly when the stream goes to a named file, and the
   * player is polled before writes exactly on Windows with a named pipe.
   */
  lemma TargetBehaviour(args: Args, host: Host, win32: bool)
    requires CreateOutput(args, host).Chosen?
    ensures var t := CreateOutput(args, host).target;
            && (CopyLoop.ShowProgress(KindOf(t)) <==> args.output != "" && args.output != "-")
            && (CopyLoop.PollsPlayer(KindOf(t), win32) <==> win32 && !FileOutput(args) && args.playerFifo)
  {
  }

  // ---------------------------------------------------------------------------
  // Probing with retries.

  /** The probe attempts of `output_stream`: their events, how many were made, and the stream opened, if any. */
  datatype ProbeRun = ProbeRun(trace: seq<Event>, tries: nat, found: Option<Opened>)

  /** Probe with the attempts from index `at` of `opens`, at most `left` times, stopping at the first success. */
  function Retry(opens: seq<OpenAttempt>, at: nat, left: nat): (r: ProbeRun)
    decreases left
  {
    if left == 0 then ProbeRun([], 0, None)
    else
      var p := OpenStream(AttemptAt(opens, at));
      match p.result
      case Ok(o) => ProbeRun(p.trace, 1, Some(o))
      case Err(m) =>
        var rest := Retry(opens, at + 1, left - 1);
        ProbeRun(p.trace + [Log(Error, m)] + rest.trace, 1 + rest.tries, rest.found)
  }

  /** How many attempts from index `at` on fail before one succeeds, looking at most `left` far. */
  function FailuresBefore(opens: seq<OpenAttempt>, at: nat, left: nat): (j: nat)
    decreases left
    ensures j <= left
    ensures forall i :: at <= i < at + j ==> OpenStream(AttemptAt(opens, i)).result.Err?
    ensures j < left ==> OpenStream(AttemptAt(opens, at + j)).result.Ok?
  {
    if left == 0 || OpenStream(AttemptAt(opens, at)).result.Ok? then 0
    else 1 + FailuresBefore(opens, at + 1, left - 1)
  }

  /** `r` made one attempt per failure before the first success, within `left` attempts, and gives that success's stream. */
  predicate StopsAtFirstSuccess(opens: seq<OpenAttempt>, at: nat, left: nat, r: ProbeRun)
  {
    var j := FailuresBefore(opens, at, left);
    && r.tries == (if j < left then j + 1 else left)
    && (r.found.Some? <==> j < left)
    && (r.found.Some? ==> r.found == Some(OpenStream(AttemptAt(opens, at + j)).result.value))
  }

  /**
   * The retry loop makes at most `left` attempts and stops at the first
   * success, giving the stream that attempt opened, or nothing when all failed.
   */
  lemma {:induction false} RetryStopsAtFirstSuccess(opens: seq<OpenAttempt>, at: nat, left: nat)
    ensures StopsAtFirstSuccess(opens, at, left, Retry(opens, at, left))
    decreases left
  {
    if left > 0 && OpenStream(AttemptAt(opens, at)).result.Err? {
      RetryStopsAtFirstSuccess(opens, at + 1, left - 1);
      FailureStops(opens, at, left);
    }
  }

  /** A failed attempt keeps `StopsAtFirstSuccess` from the attempts after it back to the attempts from it. */
  lemma FailureStops(opens: seq<OpenAttempt>, at: nat, left: nat)
    requires left > 0 && OpenStream(AttemptAt(opens, at)).result.Err?
    requires StopsAtFirstSuccess(opens, at + 1, left - 1, Retry(opens, at + 1, left - 1))
    ensures StopsAtFirstSuccess(opens, at, left, Retry(opens, at, left))
  {
    RetryFails(opens, at, left);
    assert FailuresBefore(opens, at, left) == 1 + FailuresBefore(opens, at + 1, left - 1);
  }

  /** The events of probing: opening, reading and logging the stream only. */
  predicate ProbeEvents(t: seq<Event>)
  {
    forall i :: 0 <= i < |t| ==> t[i] == OpenSource || t[i] == ReadSource(CHUNK_SIZE) || t[i].Log?
  }

  /** Each attempt opens the stream once. */
  lemma {:induction false} RetryOpensOnce(opens: seq<OpenAttempt>, at: nat, left: nat)
    ensures var r := Retry(opens, at, left);
            Count(r.trace, OpenSource) == r.tries
    decreases left
  {
    if left > 0 {
      var p := OpenStream(AttemptAt(opens, at));
      CountTwo(OpenSource, ReadSource(CHUNK_SIZE), OpenSource);
      CountOne(OpenSource, OpenSource);
      if p.result.Err? {
        var head := p.trace + [Log(Error, p.result.error)];
        var rest := Retry(opens, at + 1, left - 1);
        RetryFails(opens, at, left);
        RetryOpensOnce(opens, at + 1, left - 1);
        CountConcat(head, rest.trace, OpenSource);
        CountConcat(p.trace, [Log(Error, p.result.error)], OpenSource);
        CountOne(Log(Error, p.result.error), OpenSource);
      }
    }
  }

  /** Nothing but the stream is touched while probing. */
  lemma {:induction false} RetryOnlyProbes(opens: seq<OpenAttempt>, at: nat, left: nat)
    ensures ProbeEvents(Retry(opens, at, left).trace)
    decreases left
  {
    if left > 0 {
      var p := OpenStream(AttemptAt(opens, at));
      if p.result.Err? {
        var head := p.trace + [Log(Error, p.result.error)];
        RetryFails(opens, at, left);
        RetryOnlyProbes(opens, at + 1, left - 1);
        assert ProbeEvents(head);
        ProbeEventsConcat(head, Retry(opens, at + 1, left - 1).trace);
      }
    }
  }

  lemma ProbeEventsConcat(a: seq<Event>, b: seq<Event>)
    requires ProbeEvents(a) && ProbeEvents(b)
    ensures ProbeEvents(a + b)
  {
    forall i | 0 <= i < |a + b|
      ensures (a + b)[i] == OpenSource || (a + b)[i] == ReadSource(CHUNK_SIZE) || (a + b)[i].Log?
    {
      if i >= |a| {
        assert (a + b)[i] == b[i - |a|];
      }
    }
  }

  // ---------------------------------------------------------------------------
  // `output_stream`.

  /** What `output_stream` returns: None (no probe succeeded), True, or the program exits. */
  datatype StreamResult = NotOpened | Done | Exited(reason: ExitReason)

  /** One call of `output_stream`: what it did, the index of the next open attempt, and its result. */
  datatype OutputRun = OutputRun(trace: seq<Event>, next: nat, result: StreamResult)

  /** The sink built for a target. */
  function SinkFor(t: Target, host: Host): Sink
  {
    Sink(KindOf(t), host.writes, host.exits)
  }

  /** What `output_stream` does once a probe succeeded: create and open the output, copy, close. */
  function AfterProbe(args: Args, host: Host, o: Opened): (r: (seq<Event>, StreamResult))
  {
    match CreateOutput(args, host)
    case Quit(why) => ([], Exited(why))
    case Chosen(t) =>
      var made := [OutputCreated(KindOf(t)), OpenOutput];
      if !host.outputOpens then (made, Exited(if t.PlayerVia? then PlayerStartFailed else OutputOpenFailed))
      else
        var copy := CopyLoop.Copy(o.rest, SinkFor(t, host), host.win32, o.prebuffer);
        (made + copy.trace + [CloseOutput], Done)
  }

  /** `output_stream(stream)`, using the open attempts of `opens` from index `at`. */
  function OutputStreamRun(args: Args, host: Host, opens: seq<OpenAttempt>, at: nat): OutputRun
  {
    var probes := Retry(opens, at, args.retryOpen);
    match probes.found
    case None => OutputRun(probes.trace, at + probes.tries, NotOpened)
    case Some(o) =>
      var (t, res) := AfterProbe(args, host, o);
      OutputRun(probes.trace + t, at + probes.tries, res)
  }

  /** A probe run preceded by `tries` earlier failed attempts that produced `trace`. */
  function After(trace: seq<Event>, tries: nat, r: ProbeRun): ProbeRun
  {
    ProbeRun(trace + r.trace, tries + r.tries, r.found)
  }

  /** A failed attempt contributes its events and its error line, then the retry goes on. */
  lemma RetryFails(opens: seq<OpenAttempt>, at: nat, left: nat)
    requires left > 0 && OpenStream(AttemptAt(opens, at)).result.Err?
    ensures var p := OpenStream(AttemptAt(opens, at));
            Retry(opens, at, left) == After(p.trace + [Log(Error, p.result.error)], 1, Retry(opens, at + 1, left - 1))
  {
  }

  /** A successful attempt ends the retry loop with its events and its stream. */
  lemma RetryEnds(opens: seq<OpenAttempt>, at: nat, left: nat, trace: seq<Event>, i: nat)
    requires i < left && OpenStream(AttemptAt(opens, at + i)).result.Ok?
    requires Retry(opens, at, left) == After(trace, i, Retry(opens, at + i, left - i))
    ensures var p := OpenStream(AttemptAt(opens, at + i));
            Retry(opens, at, left) == ProbeRun(trace + p.trace, i + 1, Some(p.result.value))
  {
    var p := OpenStream(AttemptAt(opens, at + i));
    assert Retry(opens, at + i, left - i) == ProbeRun(p.trace, 1, Some(p.result.value));
  }

  /** With no attempt left, the retry loop gives what the failed attempts did. */
  lemma RetryRunsOut(opens: seq<OpenAttempt>, at: nat, left: nat, trace: seq<Event>, i: nat)
    requires i == left && Retry(opens, at, left) == After(trace, i, Retry(opens, at + i, left - i))
    ensures Retry(opens, at, left) == ProbeRun(trace, i, None)
  {
    assert Retry(opens, at + i, 0) == ProbeRun([], 0, None);
    AppendEmpty(trace);
  }

  /** The retry loop's invariant survives a failed attempt. */
  lemma RetryGoesOn(opens: seq<OpenAttempt>, at: nat, left: nat, trace: seq<Event>, i: nat)
    requires i < left && OpenStream(AttemptAt(opens, at + i)).result.Err?
    requires Retry(opens, at, left) == After(trace, i, Retry(opens, at + i, left - i))
    ensures var p := OpenStream(AttemptAt(opens, at + i));
            Retry(opens, at, left) == After(trace + (p.trace + [Log(Error, p.result.error)]), i + 1, Retry(opens, at + (i + 1), left - (i + 1)))
  {
    var p := OpenStream(AttemptAt(opens, at + i));
    RetryFails(opens, at + i, left - i);
    AfterAfter(trace, i, p.trace + [Log(Error, p.result.error)], 1, Retry(opens, at + (i + 1), left - (i + 1)));
  }

  lemma AfterAfter(t: seq<Event>, n: nat, u: seq<Event>, m: nat, r: ProbeRun)
    ensures After(t, n, After(u, m, r)) == After(t + u, n + m, r)
  {
    Assoc(t, u, r.trace);
  }

  /** The probe loop of `output_stream`: up to `left` attempts from index `at`, stopping at the first success. */
  method ProbeWithRetries(opens: seq<OpenAttempt>, at: nat, left: nat) returns (r: ProbeRun)
    ensures r == Retry(opens, at, left)
  {
    var trace: seq<Event> := [];
    var i: nat := 0;
    var found: Option<Opened> := None;
    assert trace + Retry(opens, at, left).trace == Retry(opens, at, left).trace;
    while i < left
      invariant i <= left
      invariant Retry(opens, at, left) == After(trace, i, Retry(opens, at + i, left - i))
    {
      var p := OpenStream(AttemptAt(opens, at + i));
      if p.result.Ok? {
        RetryEnds(opens, at, left, trace, i);
        trace := trace + p.trace;
        found := Some(p.result.value);
        i := i + 1;
        break;
      }
      RetryGoesOn(opens, at, left, trace, i);
      trace := trace + (p.trace + [Log(Error, p.result.error)]);
      i := i + 1;
    }
    if found.None? {
      RetryRunsOut(opens, at, left, trace, i);
    }
    r := ProbeRun(trace, i, found);
  }

  /** `output_stream(stream)`. */
  method OutputStream(args: Args, host: Host, opens: seq<OpenAttempt>, at: nat) returns (r: OutputRun)
    ensures r == OutputStreamRun(args, host, opens, at)
  {
    var probes := ProbeWithRetries(opens, at, args.retryOpen);
    var trace := probes.trace;
    if probes.found.None? {
      return OutputRun(trace, at + probes.tries, NotOpened);
    }
    var o := probes.found.value;
    var choice := CreateOutput(args, host);
    if choice.Quit? {
      AppendEmpty(trace);
      return OutputRun(trace, at + probes.tries, Exited(choice.reason));
    }
    var target := choice.target;
    trace := trace + [OutputCreated(KindOf(target)), OpenOutput];
    if !host.outputOpens {
      var why := if target.PlayerVia? then PlayerStartFailed else OutputOpenFailed;
      return OutputRun(trace, at + probes.tries, Exited(why));
    }
    var copy := CopyLoop.ReadStream(o.rest, SinkFor(target, host), host.win32, o.prebuffer);
    Assoc(probes.trace, [OutputCreated(KindOf(target)), OpenOutput], copy.trace);
    trace := trace + copy.trace + [CloseOutput];
    r := OutputRun(trace, at + probes.tries, Done);
  }

  /**
   * `output_stream` makes at most --retry-open probes, stopping at the first
   * success; when all fail it returns a false value and creates no output;
   * otherwise it creates the output only after the probe, and either exits
   * (the output cannot be chosen or opened, with a message of its own for a
   * player) or copies the stream and closes the output, returning True.
   */
  lemma OutputStreamRetries(args: Args, host: Host, opens: seq<OpenAttempt>, at: nat)
    ensures var r := OutputStreamRun(args, host, opens, at);
            var j := FailuresBefore(opens, at, args.retryOpen);
            var c := CreateOutput(args, host);
            && at <= r.next <= at + args.retryOpen
            && Count(r.trace, OpenSource) == r.next - at
            && (r.result == NotOpened <==> j == args.retryOpen)
            && (r.result == NotOpened ==> ProbeEvents(r.trace))
            && (r.result != NotOpened ==> r.next == at + j + 1)
            && (r.result != NotOpened && c.Quit? ==> r.result == Exited(c.reason))
            && (r.result != NotOpened && c.Chosen? && !host.outputOpens ==>
                  r.result == Exited(if c.target.PlayerVia? then PlayerStartFailed else OutputOpenFailed))
            && (r.result == Done <==> j < args.retryOpen && c.Chosen? && host.outputOpens)
  {
    RetryStopsAtFirstSuccess(opens, at, args.retryOpen);
    RetryOpensOnce(opens, at, args.retryOpen);
    RetryOnlyProbes(opens, at, args.retryOpen);
    var probes := Retry(opens, at, args.retryOpen);
    if probes.found.Some? {
      var (t, res) := AfterProbe(args, host, probes.found.value);
      CountConcat(probes.trace, t, OpenSource);
      if CreateOutput(args, host).Chosen? && host.outputOpens {
        var target := CreateOutput(args, host).target;
        var copy := CopyLoop.Copy(probes.found.value.rest, SinkFor(target, host), host.win32, probes.found.value.prebuffer);
        CopyLoop.CopyForeign(probes.found.value.rest, SinkFor(target, host), host.win32, probes.found.value.prebuffer, OpenSource);
        CountConcat([OutputCreated(KindOf(target)), OpenOutput] + copy.trace, [CloseOutput], OpenSource);
        CountConcat([OutputCreated(KindOf(target)), OpenOutput], copy.trace, OpenSource);
        CountTwo(OutputCreated(KindOf(target)), OpenOutput, OpenSource);
        CountOne(CloseOutput, OpenSource);
      } else if CreateOutput(args, host).Chosen? {
        var target := CreateOutput(args, host).target;
        CountTwo(OutputCreated(KindOf(target)), OpenOutput, OpenSource);
      }
    } else {
      assert probes.trace + [] == probes.trace;
    }
  }

  /**
   * After a successful probe the output is created and opened once, the
   * stream is copied into it, and the output is closed as the last event.
   */
  lemma OutputStreamCloses(args: Args, host: Host, opens: seq<OpenAttempt>, at: nat)
    requires OutputStreamRun(args, host, opens, at).result == Done
    ensures var r := OutputStreamRun(args, host, opens, at);
            var probes := Retry(opens, at, args.retryOpen);
            var t := CreateOutput(args, host).target;
            && probes.found.Some?
            && r.trace == probes.trace + [OutputCreated(KindOf(t)), OpenOutput]
                          + CopyLoop.Copy(probes.found.value.rest, SinkFor(t, host), host.win32, probes.found.value.prebuffer).trace
                          + [CloseOutput]
            && r.trace[|r.trace| - 1] == CloseOutput
  {
  }

  // ---------------------------------------------------------------------------
  // `output_stream_passthrough`.

  /** What passthrough does: start the player on the stream's URL; it never opens the stream itself. */
  function Passthrough(host: Host): (r: (seq<Event>, StreamResult))
    ensures r.1 == Done <==> host.playerStarts
    ensures !host.playerStarts ==> r.1 == Exited(PlayerStartFailed)
    ensures OpenSource !in r.0 && StartPlayer in r.0
  {
    ([Log(Info, StartingPlayer), StartPlayer], if host.playerStarts then Done else Exited(PlayerStartFailed))
  }
}
