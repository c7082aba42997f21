# Livestreamer output dispatch, modelled in Dafny

This project models the output-dispatch engine of the Livestreamer command
line (`src/livestreamer_cli/main.py`). The engine is the part that runs once
a plugin has produced a dictionary of streams for a URL:

- `handle_url` chooses the first requested stream that exists, or lists the
  valid names.
- `handle_stream` resolves a synonym such as `best`. It then tries the stream
  and its `_alt` fail-overs in order. Each candidate is handed to the player
  directly (passthrough), relayed over local HTTP, or copied into an output.
- `output_stream` probes the stream with bounded retries (`open_stream`),
  chooses and opens an output (`create_output`, `check_file_output`) and
  copies the stream into it (`read_stream`).
- `output_stream_http` starts the player on a local HTTP server. It answers
  each of the player's requests by copying a freshly opened stream into the
  connection, and fetches the streams again when the cached ones do not
  serve.
- `fetch_streams_infinite` keeps asking the plugin until it returns some
  streams.
- `resolve_stream_name` and `format_valid_streams` handle the stream names.

Every collaborator the engine talks to is a script of outcomes: the stream
(open, then each read), the output (each write, each poll of the player
process), the player, the HTTP server, the plugin, and the user's answer to
the overwrite prompt. A script that runs out goes on with a fixed default.
What the engine does that someone could observe is recorded as an `Event`
in a trace: opens, reads, writes, closes, progress lines, sleeps, and log
lines tagged by level. Three info lines and three debug lines are not
recorded; "## Left out"
names them.

Each loop that drives a collaborator or builds a result step by step is a
Dafny method whose `ensures` ties its result to a recursive specification
function. These are the copy loop of `read_stream`, the retries of
`output_stream`, the listing of `format_valid_streams`, the wait of
`fetch_streams_infinite`, `iter_http_requests`, the relay's request and
`while not stream_fd` loops, and the candidate loop of `handle_stream`. The
pure searches are recursive functions with no method:
- the alias search of `resolve_stream_name` (`Names.FirstAlias`);
- the relay's search for a present name (`Names.FirstPresent`, in
  `Relay.Round`);
- the requested-name search of `handle_url` (`Names.FirstPresent`, in
  `Dispatch.PickStream`);
- the relay's list of resolved names (`Relay.ResolveAll`).

Lemmas then prove what the source promises about those functions:
- what is written, and in what order;
- where copying stops;
- how many times the source is closed;
- when progress is shown;
- which candidate wins;
- what the relay caches, within one request and from one request to the
  next.

Modules, in dependency order:

| module | file | models |
|---|---|---|
| `Io` | io.dfy | bytes, scripts of read and write outcomes, sink kinds, events, trace counting |
| `Options` | options.dfy | the options the engine reads, and the reasons it exits |
| `Names` | names.dfy | `resolve_stream_name`, `format_valid_streams`, the `_alt` candidate list |
| `CopyLoop` | copy_loop.dfy | `read_stream` |
| `Probe` | probe.dfy | `open_stream` |
| `Fetch` | fetch.dfy | `fetch_streams_infinite` |
| `Output` | output.dfy | `check_file_output`, `create_output`, `output_stream`, `output_stream_passthrough` |
| `Relay` | relay.dfy | `iter_http_requests`, `output_stream_http` |
| `Dispatch` | dispatch.dfy | `handle_stream`, `handle_url` |

The stream dictionary is a list of `(name, stream)` entries in insertion
order. Python's object identity (`stream is streams[n]`) becomes equality of
the streams' `id`.

## Model

| member | source | states |
|---|---|---|
| Names.ResolveStreamName | src/livestreamer_cli/main.py:401-409 | A name that is not a synonym comes back unchanged. A synonym bound to a stream resolves to the first non-synonym key, in dictionary order, that is bound to the same stream. If there is no such key, the synonym comes back itself. The only failure is the KeyError of a synonym that is not bound in a non-empty dictionary. |
| Names.ResolveBound | src/livestreamer_cli/main.py:401-409 | A name bound in the dictionary resolves to a name bound in it, so `streams[stream_name]` after it cannot fail. |
| Names.FirstAlias | src/livestreamer_cli/main.py:404-407 | The index found is the first entry from `from` on that is bound to the stream and is not a synonym, or the end of the dictionary when there is none. |
| Names.StrLeTotal | src/livestreamer_cli/main.py:423 | The string order that `sorted` uses compares every pair of names. |
| Names.StrLeAntisymmetric | src/livestreamer_cli/main.py:423 | Two names that are each at most the other are equal. So the sorted order of distinct keys is unique. |
| Names.InsertSorted | src/livestreamer_cli/main.py:423 | Inserting an entry into a list sorted by name keeps it sorted. |
| Names.InsertKeeps | src/livestreamer_cli/main.py:423 | Inserting adds exactly that entry to the multiset of entries. |
| Names.SortByNameCorrect | src/livestreamer_cli/main.py:423 | `sorted(streams.items())` gives a list sorted by name that is a permutation of the dictionary's entries. |
| Names.OtherNames | src/livestreamer_cli/main.py:427-428 | The names shown beside an entry are exactly the other keys bound to the same stream. |
| Names.Listed | src/livestreamer_cli/main.py:423-425 | The entries listed are exactly those whose name is not a synonym. |
| Names.Labels | src/livestreamer_cli/main.py:430-434 | There is one label per listed entry, in the same order, each the entry's label. |
| Names.LabelShape | src/livestreamer_cli/main.py:430-432 | A label starts with the stream's name. It is the bare name exactly when no other key is bound to the same stream. |
| Names.FormatValidStreams | src/livestreamer_cli/main.py:412-436 | The loop builds the ", "-joined labels of the non-synonym entries, in sorted order. |
| Names.ListingCorrect | src/livestreamer_cli/main.py:423-434 | The listing covers the sorted non-synonym entries: sorted by name, exactly the dictionary's non-synonym entries, and a permutation of them. |
| Names.ListedSorted | src/livestreamer_cli/main.py:423-425 | Skipping synonyms keeps a sorted list sorted. |
| Names.ListedCounts | src/livestreamer_cli/main.py:424-425 | Filtering drops every copy of a synonym entry and keeps every copy of any other entry. |
| Names.ListedPermutation | src/livestreamer_cli/main.py:423-425 | Filtering two permutations of the same entries gives two permutations of each other. |
| Names.FirstPresent | src/livestreamer_cli/main.py:146-150 | The index found is the first requested name that is a key, or the number of names when none is. |
| Names.OccursFrom | src/livestreamer_cli/main.py:348 | Python's substring test `sub in s`, searched from a position. |
| Names.AltNames | src/livestreamer_cli/main.py:348-349 | The fail-overs are exactly the keys that contain `name + "_alt"` anywhere, not only as a prefix. |
| Names.Candidates | src/livestreamer_cli/main.py:348-352 | The try order starts with the resolved name, followed exactly by its `_alt` keys. |
| Names.AltNamesAscending | src/livestreamer_cli/main.py:348-349 | Filtering a sorted key list keeps the fail-overs in ascending order. |
| Names.CandidatesAscending | src/livestreamer_cli/main.py:348-349 | The fail-overs are tried in ascending name order. |
| Probe.OpenStream | src/livestreamer_cli/main.py:198-223 | An open failure reads nothing. After a successful open there is exactly one read of 8192 bytes. A read fault, an empty read and an open failure give their three distinct StreamErrors. Success happens exactly when the read gave bytes, and those bytes become the non-empty prebuffer. |
| Probe.DataRunShift | src/livestreamer_cli/main.py:216 | Reading a stream from its second read on gives the rest of its data, and the data ends the same way. |
| Probe.ProbeThenFeed | src/livestreamer_cli/main.py:212-223 | Probing loses no data: the prebuffer followed by the later reads is the stream's own data run, ending the same way. |
| Fetch.FirstTruthy | src/livestreamer_cli/main.py:387-390 | The index found is the first fetch that gives a non-empty dictionary, or the script's length. |
| Fetch.FetchStart | src/livestreamer_cli/main.py:381-389 | The first attempt fetches once and does not sleep. It announces the wait exactly when no streams came. |
| Fetch.FetchRound | src/livestreamer_cli/main.py:390-396 | Each further round adds one sleep and one fetch, and does not announce the wait again. |
| Fetch.FetchStreamsInfinite | src/livestreamer_cli/main.py:378-398 | The result is the first non-empty dictionary the plugin returns. The events are exactly `Waiting`: the first fetch, then one round of sleep and fetch per further attempt, up to the first that gives streams. |
| Fetch.RoundsStep | src/livestreamer_cli/main.py:390-396 | A round of the wait is followed by the next round only when it gave no streams. |
| Fetch.WaitingCounts | src/livestreamer_cli/main.py:378-398 | There is one fetch per attempt and one sleep of the interval between attempts. "Waiting for streams" is said once, unless the first fetch already gave streams. |
| Fetch.RoundsCounts | src/livestreamer_cli/main.py:390-396 | The rounds from a given attempt sleep once and fetch once each, up to the first attempt that gives streams. They never announce the wait. |
| Fetch.FirstTruthyIs | src/livestreamer_cli/main.py:390 | A fetch that gives streams, with none giving streams before it, is the one the loop stops at. |
| Output.Lower | src/livestreamer_cli/main.py:39 | Lower-casing keeps the length and maps each character on its own. |
| Output.ConfirmsExactly | src/livestreamer_cli/main.py:39 | The overwrite prompt is confirmed exactly by "y" or "Y". |
| Output.CheckFileOutput | src/livestreamer_cli/main.py:29-42 | The result is the file output, or an exit. It exits exactly when the file exists, `--force` is off and the answer is not a confirmation. |
| Output.CreateOutputPriority | src/livestreamer_cli/main.py:45-88 | The choices, in priority order: `--output -` means stdout. Any other `--output` means that file, subject to the prompt. Then `--stdout`. Otherwise a player: with no player the program exits. The player is fed by a named pipe exactly when `--player-fifo` is set and the pipe is created, and over HTTP exactly when `--player-http` is set without `--player-fifo` and the server binds. The only exits are these four. |
| Output.KindOf | src/livestreamer_cli/main.py:260-263 | A stdout or file target is a file sink. A player sink has a named pipe exactly when it is fed through one. |
| Output.TargetBehaviour | src/livestreamer_cli/main.py:260-263 | Progress is shown exactly for a named output file. The player is polled exactly on Windows with `--player-fifo` and no file output. |
| Output.FailuresBefore | src/livestreamer_cli/main.py:229-234 | The count is the number of failing probes before the first success within the attempt budget. |
| Output.RetryStopsAtFirstSuccess | src/livestreamer_cli/main.py:229-236 | The retry loop makes at most `retry_open` probes. It stops at the first success and returns that probe's stream and prebuffer. When every attempt fails it returns nothing. |
| Output.FailureStops | src/livestreamer_cli/main.py:233-234 | A failed probe is logged and the loop goes on to the next attempt. |
| Output.RetryOpensOnce | src/livestreamer_cli/main.py:229-231 | Each attempt opens the stream exactly once. |
| Output.RetryOnlyProbes | src/livestreamer_cli/main.py:229-236 | Retrying does nothing but probe and log: it writes nothing and creates no output. |
| Output.ProbeWithRetries | src/livestreamer_cli/main.py:229-236 | The `for`/`else` retry loop computes the retry function. |
| Output.OutputStream | src/livestreamer_cli/main.py:226-254 | The method computes the one-shot output run. |
| Output.OutputStreamRetries | src/livestreamer_cli/main.py:229-248 | The run opens the stream once per attempt, at most `retry_open` times. It returns without output exactly when every attempt fails, and then only probes. After a success, a refused output choice exits for its reason. A failed `output.open()` exits with "Failed to start player" for a player and "Failed to open output" otherwise. The run completes exactly when a probe succeeds, an output is chosen and it opens. |
| Output.OutputStreamCloses | src/livestreamer_cli/main.py:238-254 | A completed run is: the probes, creating and opening the output, the copy of the probed stream into it, and closing the output last. |
| Output.Passthrough | src/livestreamer_cli/main.py:180-195 | Passthrough starts the player and never opens the stream. It succeeds exactly when the player starts, and otherwise exits with "Failed to start player". |
| CopyLoop.ClassifyWriteFault | src/livestreamer_cli/main.py:289-298 | A write fault is logged at info level exactly when the sink is a player or the HTTP server and the errno is EPIPE, EINVAL or ECONNRESET. Such a fault says "Player closed" or "HTTP connection closed" respectively. Every other fault, including any fault of a file sink, is an error carrying its errno. |
| CopyLoop.Step | src/livestreamer_cli/main.py:266-304 | One turn takes the pending prebuffer or the next read. It continues only when it got bytes and the sink accepted them. Then it consumes exactly one read (none for the prebuffer), counts one more write and adds the chunk's length to `written`. |
| CopyLoop.ReadWriteOnce | src/livestreamer_cli/main.py:267-304 | The loop body computes one turn. |
| CopyLoop.ReadStream | src/livestreamer_cli/main.py:257-310 | The `while True` loop computes the copy function. |
| CopyLoop.RunEnd | src/livestreamer_cli/main.py:267-275 | A stream's data ends either at an empty read or at a read fault. |
| CopyLoop.FirstRefusal | src/livestreamer_cli/main.py:280-298 | The index found is the first write that the sink refuses or that a poll finds the player gone, or the limit. |
| CopyLoop.FinishShape | src/livestreamer_cli/main.py:306-310 | Finishing keeps the counts and the loop's trace as a prefix. It ends with closing the stream and "Stream ended", after the optional end of the progress line. |
| CopyLoop.FinishKeeps | src/livestreamer_cli/main.py:306-310 | Finishing adds no write, no progress and no read. It adds exactly one close, and one progress-line end exactly when progress is shown and something was written. |
| CopyLoop.CopyFidelity | src/livestreamer_cli/main.py:266-301 | The chunks written are the prebuffer followed by the successive reads, in order, up to the first refusal. A refused chunk is attempted but not counted. `written` is the total length of the accepted chunks. The stop reason is the first refusal, or else how the data ended. |
| CopyLoop.CopyDeliversWholeStream | src/livestreamer_cli/main.py:266-301 | The copy stops at the stream's end or at a read fault exactly when every chunk was accepted. Then the writes are exactly the prebuffer and the stream's data, and `written` is their total length. |
| CopyLoop.CopyStopsAtFirstFault | src/livestreamer_cli/main.py:267-300 | Every write before the stop was accepted, and the write it stops at was refused. No read follows a fault. The trace ends with the stop's own log line, then the close events. |
| CopyLoop.CopyCloses | src/livestreamer_cli/main.py:303-310 | Every way out of the loop closes the stream exactly once, and "Stream ended" is the last event. The progress line is ended once exactly when progress is shown and `written > 0`. |
| CopyLoop.CopyReportsProgress | src/livestreamer_cli/main.py:303-304 | For a named output file, one progress line follows each accepted write, giving the running total, and the last one equals `written`. For any other sink there is none. |
| CopyLoop.FinishProgress | src/livestreamer_cli/main.py:303-307 | Finishing keeps the progress lines that the loop produced. |
| CopyLoop.CopyForeign | src/livestreamer_cli/main.py:257-310 | Copying never opens a stream, creates or closes an output, fetches, sleeps, starts a player or touches the server. |
| CopyLoop.TotalsShape | src/livestreamer_cli/main.py:300-304 | There is one running total per chunk, and the last total is the sum of all the chunk lengths. |
| Relay.NextRequest | src/livestreamer_cli/main.py:103-110 | One step of the generator computes `Waited`: the checks of the player, the waits, whether a request came, and the accepted connections. |
| Relay.WaitStep | src/livestreamer_cli/main.py:106-110 | While the player runs, a wait either brings the request or times out, and then the step goes on. |
| Relay.WaitBounds | src/livestreamer_cli/main.py:103-110 | The player is checked before every wait, and once more when it has stopped. A request comes only while the checks are within the script. |
| Relay.WaitChecks | src/livestreamer_cli/main.py:103-110 | The player was running at every check but the last. The last check found it stopped unless a request came. Every wait but the last timed out, and a request is returned exactly when the last wait brought one. |
| Relay.WaitEvents | src/livestreamer_cli/main.py:103-110 | Each wait accepts one connection. Waiting announces nothing and closes nothing. |
| Relay.RoundOutcome | src/livestreamer_cli/main.py:144-169 | One turn fetches only when nothing is cached. It probes only when a requested name is present. It finds a stream exactly when some requested name is present and its probe succeeds, and serves the first such name. A found stream keeps the streams it looked in. Any failure forgets the cached streams. |
| Relay.RoundQuiet | src/livestreamer_cli/main.py:144-169 | Looking for a stream writes nothing and closes nothing. |
| Relay.RoundCounts | src/livestreamer_cli/main.py:144-169 | The trace of one turn holds exactly its fetches and its probes. |
| Relay.Acquire | src/livestreamer_cli/main.py:139-169 | The inner `while not stream_fd` loop computes the acquisition function. |
| Relay.Step | src/livestreamer_cli/main.py:144-169 | One turn of the inner loop computes one round and advances the loop's state by it. |
| Relay.RoundStep | src/livestreamer_cli/main.py:140-169 | While the player runs, a turn that finds a stream ends the loop with it. A turn that does not is followed by another. |
| Relay.AcquireBounds | src/livestreamer_cli/main.py:140-169 | The loop checks the player at least once, and never un-fetches or un-probes. |
| Relay.AcquireChecks | src/livestreamer_cli/main.py:140-142 | The loop ends with a stream exactly when the player was still running at the last check. |
| Relay.AcquireRunning | src/livestreamer_cli/main.py:140-142 | The player was running at every check but the last. |
| Relay.AcquireOpens | src/livestreamer_cli/main.py:145-166 | A stream that is served has been probed, comes from a non-empty cache, and is the first requested name present in it. |
| Relay.AcquireProbes | src/livestreamer_cli/main.py:163-166 | A stream that is served is exactly what the loop's last probe returned. |
| Relay.PassProbes | src/livestreamer_cli/main.py:163-166 | Every turn that finds a stream made exactly one probe and serves its result. |
| Relay.LoopProbes | src/livestreamer_cli/main.py:140-169 | If every turn that finds a stream serves its own probe, then the loop serves its last probe. |
| Relay.AcquireCaches | src/livestreamer_cli/main.py:145-169 | A loop that gave up after a failed turn has forgotten the streams. If the player stopped at once, nothing changed. If the cache already serves, the first turn succeeds without fetching and keeps the cache. |
| Relay.AcquireTrace | src/livestreamer_cli/main.py:140-169 | The loop writes nothing and closes nothing. Its trace holds exactly its fetches and its probes. |
| Relay.ResolveAll | src/livestreamer_cli/main.py:126 | Every requested name is resolved, in order. This fails exactly when one of them raises a KeyError. |
| Relay.OutputStreamHttp | src/livestreamer_cli/main.py:113-177 | The relay computes `HttpRun`: its set-up, then the requests loop as `ServeFrom` says from the streams it was given, then the player and the server are closed. |
| Relay.HttpOutcome | src/livestreamer_cli/main.py:113-177 | The set-up fails in source order: server, missing player, unbound name, then player start. It serves exactly when none of these fails. Once the player runs, every request is logged and its connection force-closed. At most one stream is copied per request. The player and then the server are closed once at the end. |
| Relay.Serve | src/livestreamer_cli/main.py:135-174 | The requests loop computes `ServeFrom` from the streams it was given: its events, and the numbers of requests answered and of streams copied. |
| Relay.ServeStep | src/livestreamer_cli/main.py:135-174 | A wait that brings no request ends the loop. A request is announced, runs its inner loop from the cache and counters the previous request left, is sent the stream found, and the loop goes on. |
| Relay.ServeAdvances | src/livestreamer_cli/main.py:135-140 | Each request moves the loop to a later check of the player, within the script. |
| Relay.ServeCounts | src/livestreamer_cli/main.py:135-174 | Each request gets one "Got HTTP request" and one `server.close(True)`. A stream is closed once per request that was sent one. The loop closes neither the player nor the server. |
| Relay.ServeChains | src/livestreamer_cli/main.py:135-174 | Each request's inner loop starts afresh, runs as `AcquireFrom` says, and starts from the cached streams, fetch and open attempt where the previous request's loop left off. The first starts from the streams it was given. |
| Relay.CacheCarries | src/livestreamer_cli/main.py:145-174 | The first request looks in the streams the relay was given. After a request that was sent a stream, the next one starts from the same non-empty streams. It does not fetch before its first probe, and while those streams serve it is sent a stream without fetching at all. |
| Relay.RelayCounts | src/livestreamer_cli/main.py:129-177 | The relay starts the player first and closes the player and the server exactly once, last. |
| Relay.Answer | src/livestreamer_cli/main.py:135-174 | One request is: acquire a stream, copy it if one was found, and close the connection. |
| Relay.RequestCounts | src/livestreamer_cli/main.py:135-174 | A request logs itself and closes its connection once. It closes a stream exactly when one was served. |
| Relay.CopiedCounts | src/livestreamer_cli/main.py:171-172 | Relaying a stream to the player closes that stream exactly once and touches neither the connection nor the server. |
| Dispatch.ModeFor | src/livestreamer_cli/main.py:354-365 | A candidate uses passthrough exactly when its type is in `--player-passthrough` and no file output is requested. It uses the HTTP relay exactly when `--player-continuous-http` is set, no file output is requested and the type is not passed through. A file output always copies. |
| Dispatch.FailoverNext | src/livestreamer_cli/main.py:363-368 | A copied candidate whose output run fails logs "Opening stream" and its run, and the next candidate is tried. |
| Dispatch.SkippedWereCopied | src/livestreamer_cli/main.py:352-368 | Every candidate passed over before the first working one was tried as a byte copy. |
| Dispatch.FailoverStopsAtFirstSuccess | src/livestreamer_cli/main.py:352-368 | The loop falls through exactly when every candidate fails. Otherwise it ends with the first candidate that does not fail. A success names that candidate. |
| Dispatch.NoRelayAfterCopy | src/livestreamer_cli/main.py:360-361 | Without `--player-continuous-http`, or with a file output, the relay is never reached. |
| Dispatch.RelayOnlyFirst | src/livestreamer_cli/main.py:360-361 | The relay can only take over at the first candidate examined, before any probe or log line. |
| Dispatch.FailoverOpens | src/livestreamer_cli/main.py:352-368 | The candidate loop opens the stream once per probe it consumes. |
| Dispatch.TryCandidates | src/livestreamer_cli/main.py:352-368 | The candidate loop computes `Tries`: the fail-over function, and, when that hands over to the relay, the relay's run as `Relay.HttpRun` says, with its exit, requests and copies. |
| Dispatch.HandleStream | src/livestreamer_cli/main.py:313-368 | `handle_stream` computes `HandleRun`. |
| Dispatch.HandleOutcome | src/livestreamer_cli/main.py:313-368 | A name or synonym that is not bound ends the program with a KeyError, before `--json` is looked at. A bound name is printed with `--json`, and nothing else happens. Otherwise the resolved name and its `_alt` keys are tried in order, until one succeeds or the relay takes over. The relay takes over only at the first candidate, before any event. It serves exactly when the server binds, a player is set, every requested name resolves and the player starts. |
| Dispatch.PickStream | src/livestreamer_cli/main.py:464-492 | An empty dictionary means "no streams". With nothing requested, all streams are listed. Otherwise the first requested name that is a key is handled, and "not found" is reported exactly when none is a key. `best` is requested by default where `--best-stream-default` applies. |
| Dispatch.FetchForUrl | src/livestreamer_cli/main.py:455-458 | Without `--retry-streams` there is a single fetch. With it, the events are exactly those of `fetch_streams_infinite` (`Fetch.Waiting`), and the wait ends only with a non-empty dictionary. |
| Dispatch.HandleUrl | src/livestreamer_cli/main.py:439-493 | Without `--retry-streams`, a plugin error ends the program, and an empty result ends it with "No streams found". With it, the wait goes on until streams come, and the result is `StillWaiting` when the script runs out. A requested stream is handled as `HandleRun` says, with `--stream` replaced by the requested names after the `--best-stream-default` rewrite, so that the relay serves "best" too. Its events are the fetch, the logged listing, then those of `handle_stream`, and it prints JSON exactly with `--json`. Every other outcome logs nothing after the fetch. When none is found, the error is printed as JSON or the program exits. With no request, the listing is printed, or the streams as JSON. |

## Left out

- Real I/O is not modelled. The streams, outputs, player processes, named pipes and HTTP server are replaced by scripts of outcomes, and the model records what the engine asks of them as events.
- Time is not modelled. `sleep(10)`, `sleep(retry_streams)` and the 2.5-second accept timeout are recorded as `Sleep` events or as a timed-out wait. There is no clock.
- Keyboard interrupts and signals are not modelled.
- Argument parsing, config files, logging setup, plugin loading, session and plugin options, the version check, Twitch authentication and the root check are outside the engine.
- The plugin is not resolved from the URL, so `NoPluginError` is not modelled. `fetch_streams` is one scripted outcome; its stream-type and sorting arguments are forwarded unchanged to the plugin.
- The info lines "Found matching plugin" (main.py lines 451-452), "Creating pipe" (line 73) and the "Starting player" of `create_output` (line 82) are not recorded as events. The "Starting player" lines of passthrough and of the relay are.
- The debug lines "Checking file output" (line 33), "Pre-buffering 8192 bytes" (line 215) and "Writing stream to output" (line 251) are not recorded as events. The relay's "Writing stream to player" (line 171) is.
- Dispatch.HandleUrl: the model does not wait for ever. When the script of fetches runs out while `fetch_streams_infinite` is waiting, the result is `StillWaiting`, and `Fetch.FetchStreamsInfinite` returns `None`.
- Relay.OutputStreamHttp: the relay runs until the player stops. In the model, the scripts of `player.running` and of the accepted connections end that loop once they run out.
- Dispatch.HandleStream: the `--subprocess-cmdline` branch is not modelled.
- Dispatch.HandleStream: the `--json` branches of `handle_stream` and `handle_url` are display only. They are tagged by what they print (`PrintedJson`, `NotFoundJson`, `ListedJson`), without the printed content.
- `console.exit` and `sys.exit` are modelled as an `ExitReason` result. The exact wording of the messages, the player's arguments, the user-agent text and the pipe's name are not modelled.
- Output.Lower: only ASCII letters are lower-cased. This is all that matters when comparing with "y".
- The stream dictionary is modelled as an entry list, and any entry list is allowed. A Python dictionary never repeats a key; should a list repeat a name, lookups use its first entry, while the listing and the `_alt` scan see every entry. Python's identity `stream is streams[n]` is modelled as equality of stream ids, and `n is not name` (line 427) as string inequality.
- `STREAM_SYNONYMS` is a parameter.
- The errno values are the Linux ones: EPIPE 32, EINVAL 22, ECONNRESET 104.
- `create_http_server` and the relay's server are modelled by `bindOk`; port selection is not modelled.

Where the written description of the program and the code differ, the model follows the code:

- After the relay has copied a stream, it keeps the cached streams for the next request (lines 145 and 174). They are forgotten only when no requested name is present (line 159) or the probe fails (line 169).
- `open_stream` does not close the opened stream when its probe read fails or returns nothing (lines 214-221). The model emits no close event there.
- When every candidate fails, `handle_stream` returns without a message (lines 352-368). The model's result is `AllFailed`, which is not an exit.
- `resolve_stream_name` looks up `streams[stream_name]` inside the loop (line 406). An unbound synonym therefore raises a KeyError when the dictionary is non-empty, and comes back unchanged when it is empty.
