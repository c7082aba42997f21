/**
 * The collaborators of the output-dispatch engine, as scripted values.
 *
 * Nothing here performs I/O: a stream source, an output sink, the player
 * process, the HTTP server and the plugin are each replaced by the sequence
 * of outcomes they produce, and everything the engine does that a
 * collaborator or the user can observe is recorded as an `Event` in a trace.
 */
module Io {

  /** An octet of a media stream. */
  newtype byte = b: int | 0 <= b < 256

  /** The size of every `read` the engine issues (`read(8192)`). */
  const CHUNK_SIZE: nat := 8192

  /** Error codes a write can fail with that mean "the consumer went away" (Linux values). */
  const EPIPE: int := 32
  const EINVAL: int := 22
  const ECONNRESET: int := 104
  const ACCEPTABLE_ERRNO: set<int> := {EPIPE, EINVAL, ECONNRESET}

  /** What one `read` of an open stream returns: some bytes (none at end of stream) or an I/O fault. */
  datatype ReadOutcome = Data(bytes: seq<byte>) | ReadFault

  /** What one `write` to an output returns. */
  datatype WriteOutcome = Accepted | WriteFault(errno: int)

  /** The kind tag of an output sink; it drives error classification and progress display. */
  datatype SinkKind =
    | File(isStdout: bool)          // FileOutput: a named file, or the process's own stdout
    | Player(hasNamedPipe: bool)    // PlayerOutput: fed on stdin, over HTTP, or through a named pipe
    | Http                          // the relay's HTTPServer, writing to the current connection

  /**
   * An output sink: its kind, the outcomes of its successive writes, and the
   * answers a poll of the player process gives before each write (true: exited).
   */
  datatype Sink = Sink(kind: SinkKind, writes: seq<WriteOutcome>, exits: seq<bool>)

  /** The i-th read of a script; a script that has run out reports end of stream. */
  function ReadAt(script: seq<ReadOutcome>, i: nat): ReadOutcome
  {
    if i < |script| then script[i] else Data([])
  }

  /** The i-th write outcome; writes past the end of the script succeed. */
  function WriteAt(sink: Sink, i: nat): WriteOutcome
  {
    if i < |sink.writes| then sink.writes[i] else Accepted
  }

  /** Whether the player has exited at the i-th poll; past the script it is still running. */
  predicate ExitedAt(sink: Sink, i: nat)
  {
    i < |sink.exits| && sink.exits[i]
  }

  /** An answer of a boolean oracle (`player.running`, ...); past its script it answers `dflt`. */
  function AnswerAt(script: seq<bool>, i: nat, dflt: bool): bool
  {
    if i < |script| then script[i] else dflt
  }

  datatype Level = Debug | Info | Error

  /** The log lines of the engine, as classification tags. */
  datatype Msg =
    | ReadFailed               // "Error when reading from stream"
    | StreamEnded              // "Stream ended"
    | PlayerClosed             // "Player closed"
    | HttpClosed               // "HTTP connection closed"
    | WriteFailed(errno: int)  // "Error when writing to output"
    | CouldNotOpen             // "Could not open stream"
    | ProbeReadFailed          // "Failed to read data from stream"
    | NoData                   // "No data returned from stream"
    | OpeningStream(name: string)  // "Opening stream: <name> (<type>)"
    | StartingPlayer           // "Starting player"
    | FetchFailed              // "Unable to fetch new streams" / the plugin's own error
    | StreamUnavailable        // "Stream not available, will re-fetch streams in 10 sec"
    | WaitingForStreams        // "Waiting for streams, retrying every ... second(s)"
    | GotRequest               // "Got HTTP request from ..."
    | WritingToPlayer          // "Writing stream to player"
    | AvailableStreams(listing: string) // "Available streams: <listing>"

  /** Everything the engine does that a collaborator or the user can observe. */
  datatype Event =
    | OpenSource                    // stream.open()
    | ReadSource(size: nat)         // fd.read(size)
    | CloseSource                   // fd.close()
    | OutputCreated(kind: SinkKind) // create_output() built a sink of this kind
    | OpenOutput                    // output.open()
    | WriteOutput(data: seq<byte>)  // output.write(data)
    | PollPlayer                    // output.player.poll()
    | CloseOutput                   // output.close()
    | Progress(written: nat)        // "Written N bytes", in place
    | ProgressEnd                   // the newline that ends the progress line
    | StartPlayer                   // player.open() for passthrough or relay
    | FetchStreams                  // plugin.get_streams(...)
    | Sleep(seconds: nat)
    | AcceptConnection              // server.open(timeout=2.5)
    | CloseConnection               // server.close(True)
    | ClosePlayer                   // player.close()
    | CloseServer                   // server.close()
    | Log(level: Level, msg: Msg)

  /** The data an event hands to `write`, if it is a write. */
  function WriteOf(e: Event): seq<seq<byte>>
  {
    if e.WriteOutput? then [e.data] else []
  }

  /** The data handed to `write`, in order. */
  function Writes(t: seq<Event>): seq<seq<byte>>
  {
    if t == [] then [] else WriteOf(t[0]) + Writes(t[1..])
  }

  lemma {:induction false} WritesConcat(a: seq<Event>, b: seq<Event>)
    ensures Writes(a + b) == Writes(a) + Writes(b)
  {
    if a == [] {
      assert a + b == b;
    } else {
      assert (a + b)[1..] == a[1..] + b;
      WritesConcat(a[1..], b);
    }
  }

  /** The byte count an event shows, if it is a progress line. */
  function ProgressOf(e: Event): seq<nat>
  {
    if e.Progress? then [e.written] else []
  }

  /** The byte counts shown by the progress indicator, in order. */
  function Progresses(t: seq<Event>): seq<nat>
  {
    if t == [] then [] else ProgressOf(t[0]) + Progresses(t[1..])
  }

  lemma {:induction false} ProgressesConcat(a: seq<Event>, b: seq<Event>)
    ensures Progresses(a + b) == Progresses(a) + Progresses(b)
  {
    if a == [] {
      assert a + b == b;
    } else {
      assert (a + b)[1..] == a[1..] + b;
      ProgressesConcat(a[1..], b);
    }
  }

  /** How many times `x` occurs in `t`. */
  function Count<T(==)>(t: seq<T>, x: T): nat
  {
    if t == [] then 0 else (if t[0] == x then 1 else 0) + Count(t[1..], x)
  }

  lemma {:induction false} CountConcat<T>(a: seq<T>, b: seq<T>, x: T)
    ensures Count(a + b, x) == Count(a, x) + Count(b, x)
  {
    if a == [] {
      assert a + b == b;
    } else {
      assert (a + b)[1..] == a[1..] + b;
      CountConcat(a[1..], b, x);
    }
  }

  lemma {:induction false} CountAbsent<T>(t: seq<T>, x: T)
    ensures Count(t, x) == 0 <==> x !in t
  {
    if t != [] {
      CountAbsent(t[1..], x);
      assert t == [t[0]] + t[1..];
    }
  }

  /** Appending an event that neither writes nor shows progress. */
  lemma SnocQuiet(t: seq<Event>, e: Event)
    requires !e.WriteOutput? && !e.Progress?
    ensures Writes(t + [e]) == Writes(t)
    ensures Progresses(t + [e]) == Progresses(t)
  {
    assert [e][1..] == [];
    WritesConcat(t, [e]);
    ProgressesConcat(t, [e]);
  }

  /** Appending a write. */
  lemma SnocWrite(t: seq<Event>, data: seq<byte>)
    ensures Writes(t + [WriteOutput(data)]) == Writes(t) + [data]
    ensures Progresses(t + [WriteOutput(data)]) == Progresses(t)
  {
    assert [WriteOutput(data)][1..] == [];
    WritesConcat(t, [WriteOutput(data)]);
    ProgressesConcat(t, [WriteOutput(data)]);
  }

  /** Appending a progress line. */
  lemma SnocProgress(t: seq<Event>, written: nat)
    ensures Writes(t + [Progress(written)]) == Writes(t)
    ensures Progresses(t + [Progress(written)]) == Progresses(t) + [written]
  {
    assert [Progress(written)][1..] == [];
    WritesConcat(t, [Progress(written)]);
    ProgressesConcat(t, [Progress(written)]);
  }

  /** Appending one element to a sequence adds one to its count when it is the element counted. */
  lemma SnocCount<T>(t: seq<T>, e: T, x: T)
    ensures Count(t + [e], x) == Count(t, x) + (if e == x then 1 else 0)
  {
    assert [e][1..] == [];
    CountConcat(t, [e], x);
  }

  lemma CountOne<T>(a: T, x: T)
    ensures Count([a], x) == if a == x then 1 else 0
  {
    assert [a][1..] == [];
  }

  lemma CountTwo<T>(a: T, b: T, x: T)
    ensures Count([a, b], x) == (if a == x then 1 else 0) + (if b == x then 1 else 0)
  {
    assert [a, b][1..] == [b];
    CountOne(b, x);
  }

  lemma AppendEmpty<T>(s: seq<T>)
    ensures s + [] == s
  {
  }

  lemma Assoc<T>(a: seq<T>, b: seq<T>, c: seq<T>)
    ensures a + b + c == a + (b + c)
  {
  }

  /** The total number of bytes in a list of chunks. */
  function TotalLength(chunks: seq<seq<byte>>): nat
  {
    if chunks == [] then 0 else |chunks[0]| + TotalLength(chunks[1..])
  }

  lemma {:induction false} TotalLengthConcat(a: seq<seq<byte>>, b: seq<seq<byte>>)
    ensures TotalLength(a + b) == TotalLength(a) + TotalLength(b)
  {
    if a == [] {
      assert a + b == b;
    } else {
      assert (a + b)[1..] == a[1..] + b;
      TotalLengthConcat(a[1..], b);
    }
  }

  /** `s` is the tail end of `t`. */
  predicate IsSuffix<T(==)>(s: seq<T>, t: seq<T>)
  {
    |s| <= |t| && t[|t| - |s|..] == s
  }

  lemma SuffixExtends<T>(s: seq<T>, a: seq<T>, b: seq<T>)
    requires IsSuffix(s, b)
    ensures IsSuffix(s, a + b)
  {
    assert (a + b)[|a + b| - |s|..] == b[|b| - |s|..];
  }

  lemma SuffixAppend<T>(s: seq<T>, t: seq<T>, u: seq<T>)
    requires IsSuffix(s, t)
    ensures IsSuffix(s + u, t + u)
  {
    assert (t + u)[|t + u| - |s + u|..] == t[|t| - |s|..] + u;
  }

  datatype Option<+T> = None | Some(value: T)

  datatype Result<+T, +E> = Ok(value: T) | Err(error: E)
}
