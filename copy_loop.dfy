/**
 * The copy loop (`read_stream`): replays the prebuffered chunk, then reads
 * chunks of CHUNK_SIZE bytes from the open stream and writes each one to the
 * output, until an empty read, a read fault, a write fault, or (on Windows,
 * for a player fed through a named pipe) the player having exited.
 */
module CopyLoop {
  import opened Io

  /** Why the loop stopped. */
  datatype StopReason =
    | EndOfStream               // a read returned no bytes
    | ReadFailure               // a read raised an I/O error
    | PlayerExited              // the named-pipe player had exited before a write
    | WriteFailure(errno: int)  // a write raised an I/O error

  /**
   * One run of the loop: everything it did, the final `written` counter,
   * the number of writes the sink accepted, and why it stopped.
   */
  datatype CopyOutcome = CopyOutcome(trace: seq<Event>, written: nat, writesOk: nat, stop: StopReason)

  /** Progress is shown only for a FileOutput that is not stdout. */
  predicate ShowProgress(kind: SinkKind)
  {
    kind.File? && !kind.isStdout
  }

  /** Only a player fed through a named pipe on Windows is polled before each write. */
  predicate PollsPlayer(kind: SinkKind, win32: bool)
  {
    win32 && kind.Player? && kind.hasNamedPipe
  }

  /** The log line for a failed write: a consumer going away is informational, anything else an error. */
  function ClassifyWriteFault(kind: SinkKind, errno: int): (e: Event)
    ensures e.Log?
    ensures e.level == Info <==> (kind.Player? || kind.Http?) && errno in ACCEPTABLE_ERRNO
    ensures e.level == Info ==> e.msg == (if kind.Player? then PlayerClosed else HttpClosed)
    ensures e.level != Info ==> e == Log(Error, WriteFailed(errno))
  {
    if kind.Player? && errno in ACCEPTABLE_ERRNO then Log(Info, PlayerClosed)
    else if kind.Http? && errno in ACCEPTABLE_ERRNO then Log(Info, HttpClosed)
    else Log(Error, WriteFailed(errno))
  }

  /** The chunk a pass of the loop works on: the pending prebuffer, or the next read. */
  function Fetched(src: seq<ReadOutcome>, pos: nat, pending: seq<byte>): ReadOutcome
  {
    if pending == [] then ReadAt(src, pos) else Data(pending)
  }

  /** Whether the sink refuses its i-th chunk: the polled player has exited, or the write fails. */
  predicate Refuses(sink: Sink, win32: bool, i: nat)
  {
    (PollsPlayer(sink.kind, win32) && ExitedAt(sink, i)) || WriteAt(sink, i).WriteFault?
  }

  function RefusalReason(sink: Sink, win32: bool, i: nat): StopReason
    requires Refuses(sink, win32, i)
  {
    if PollsPlayer(sink.kind, win32) && ExitedAt(sink, i) then PlayerExited
    else WriteFailure(WriteAt(sink, i).errno)
  }

  /** The result of one pass of the loop body: it leaves the loop, or goes round again. */
  datatype Pass =
    | Halt(out: CopyOutcome)
    | Again(pos: nat, n: nat, written: nat, trace: seq<Event>, chunk: seq<byte>)

  /**
   * One pass of the loop body in a given state: `pos` reads of `src`
   * consumed, `pending` the prebuffer still to replay (empty once replayed),
   * `n` writes accepted and `written` bytes counted so far, `trace` what
   * happened before this pass.
   */
  function Step(src: seq<ReadOutcome>, sink: Sink, win32: bool,
                pos: nat, pending: seq<byte>, n: nat, written: nat, trace: seq<Event>): (p: Pass)
    requires pos <= |src|
    ensures p.Again? ==> p.pos <= |src| && (p.pos > pos || (p.pos == pos && pending != []))
    ensures p.Again? ==> && Fetched(src, pos, pending) == Data(p.chunk) && |p.chunk| > 0 && !Refuses(sink, win32, n)
                         && p.pos == (if pending == [] then pos + 1 else pos)
                         && p.n == n + 1 && p.written == written + |p.chunk|
                         && p.trace == TakenTrace(trace, pending, sink.kind, win32, p.chunk, p.written)
  {
    var t1 := if pending == [] then trace + [ReadSource(CHUNK_SIZE)] else trace;
    var got := Fetched(src, pos, pending);
    if got.ReadFault? then Halt(CopyOutcome(t1 + [Log(Error, ReadFailed)], written, n, ReadFailure))
    else if |got.bytes| == 0 then Halt(CopyOutcome(t1, written, n, EndOfStream))
    else
      var t2 := if PollsPlayer(sink.kind, win32) then t1 + [PollPlayer] else t1;
      if PollsPlayer(sink.kind, win32) && ExitedAt(sink, n) then
        Halt(CopyOutcome(t2 + [Log(Info, PlayerClosed)], written, n, PlayerExited))
      else
        var t3 := t2 + [WriteOutput(got.bytes)];
        if WriteAt(sink, n).WriteFault? then
          var errno := WriteAt(sink, n).errno;
          Halt(CopyOutcome(t3 + [ClassifyWriteFault(sink.kind, errno)], written, n, WriteFailure(errno)))
        else
          var total := written + |got.bytes|;
          var t4 := if ShowProgress(sink.kind) then t3 + [Progress(total)] else t3;
          Again(if pending == [] then pos + 1 else pos, n + 1, total, t4, got.bytes)
  }

  /** The loop from a given state to its last pass. */
  function Loop(src: seq<ReadOutcome>, sink: Sink, win32: bool,
                pos: nat, pending: seq<byte>, n: nat, written: nat, trace: seq<Event>): CopyOutcome
    requires pos <= |src|
    decreases |src| - pos, |pending|
  {
    match Step(src, sink, win32, pos, pending, n, written, trace)
    case Halt(out) => out
    case Again(pos', n', written', trace', _) => Loop(src, sink, win32, pos', [], n', written', trace')
  }

  /** What follows the loop on every exit: the progress newline if any, closing the stream, "Stream ended". */
  function Finish(kind: SinkKind, l: CopyOutcome): CopyOutcome
  {
    var t := if ShowProgress(kind) && l.written > 0 then l.trace + [ProgressEnd] else l.trace;
    l.(trace := t + [CloseSource] + [Log(Info, StreamEnded)])
  }

  /** The whole of `read_stream`, started on a fresh stream with the probe's prebuffer. */
  function Copy(src: seq<ReadOutcome>, sink: Sink, win32: bool, prebuffer: seq<byte>): CopyOutcome
  {
    Finish(sink.kind, Loop(src, sink, win32, 0, prebuffer, 0, 0, []))
  }

  /** The trace of a pass up to its read. */
  function ReadTrace(trace: seq<Event>, pending: seq<byte>): seq<Event>
  {
    if pending == [] then trace + [ReadSource(CHUNK_SIZE)] else trace
  }

  /** One pass of the body of `read_stream`'s loop: take the pending prebuffer or read a chunk, poll the player, write, report progress. */
  method ReadWriteOnce(src: seq<ReadOutcome>, sink: Sink, win32: bool,
                       pos: nat, pending: seq<byte>, n: nat, written: nat, trace: seq<Event>) returns (p: Pass)
    requires pos <= |src|
    ensures p == Step(src, sink, win32, pos, pending, n, written, trace)
  {
    var t := trace;
    var data: seq<byte>;
    if pending != [] {
      data := pending;
    } else {
      t := t + [ReadSource(CHUNK_SIZE)];
      var got := ReadAt(src, pos);
      if got.ReadFault? {
        return Halt(CopyOutcome(t + [Log(Error, ReadFailed)], written, n, ReadFailure));
      }
      data := got.bytes;
    }
    if |data| == 0 {
      return Halt(CopyOutcome(t, written, n, EndOfStream));
    }
    if win32 && sink.kind.Player? && sink.kind.hasNamedPipe {
      t := t + [PollPlayer];
      if ExitedAt(sink, n) {
        return Halt(CopyOutcome(t + [Log(Info, PlayerClosed)], written, n, PlayerExited));
      }
    }
    var outcome := WriteAt(sink, n);
    t := t + [WriteOutput(data)];
    if outcome.WriteFault? {
      return Halt(CopyOutcome(t + [ClassifyWriteFault(sink.kind, outcome.errno)], written, n, WriteFailure(outcome.errno)));
    }
    var total := written + |data|;
    if sink.kind.File? && !sink.kind.isStdout {
      t := t + [Progress(total)];
    }
    p := Again(if pending == [] then pos + 1 else pos, n + 1, total, t, data);
  }

  /** `read_stream(stream, output, prebuffer)`. */
  method ReadStream(src: seq<ReadOutcome>, sink: Sink, win32: bool, prebuffer: seq<byte>)
    returns (r: CopyOutcome)
    ensures r == Copy(src, sink, win32, prebuffer)
  {
    var pending := prebuffer;
    var pos: nat := 0;
    var n: nat := 0;
    var written: nat := 0;
    var trace: seq<Event> := [];
    var out: CopyOutcome;
    while true
      invariant pos <= |src|
      invariant Loop(src, sink, win32, 0, prebuffer, 0, 0, []) == Loop(src, sink, win32, pos, pending, n, written, trace)
      decreases |src| - pos, |pending|
    {
      var p := ReadWriteOnce(src, sink, win32, pos, pending, n, written, trace);
      if p.Halt? {
        LoopHalts(src, sink, win32, pos, pending, n, written, trace);
        out := p.out;
        break;
      }
      Advances(src, sink, win32, pos, pending, n, written, trace);
      pos, pending, n, written, trace := p.pos, [], p.n, p.written, p.trace;
    }
    // after the loop: end the progress line, close the stream
    var t := out.trace;
    if sink.kind.File? && !sink.kind.isStdout && out.written > 0 {
      t := t + [ProgressEnd];
    }
    t := t + [CloseSource];
    t := t + [Log(Info, StreamEnded)];
    r := out.(trace := t);
  }


  // ---------------------------------------------------------------------------
  // An independent description of what the loop delivers.

  /** The chunks the stream yields from read `pos` on, up to its first empty read or read fault. */
  function DataRun(src: seq<ReadOutcome>, pos: nat): seq<seq<byte>>
    decreases |src| - pos
  {
    if pos >= |src| then []
    else match src[pos]
      case ReadFault => []
      case Data(b) => if b == [] then [] else [b] + DataRun(src, pos + 1)
  }

  /** How that run of chunks ends. */
  function RunEnd(src: seq<ReadOutcome>, pos: nat): (s: StopReason)
    decreases |src| - pos
    ensures s == EndOfStream || s == ReadFailure
  {
    if pos >= |src| then EndOfStream
    else match src[pos]
      case ReadFault => ReadFailure
      case Data(b) => if b == [] then EndOfStream else RunEnd(src, pos + 1)
  }

  /** The chunks offered to the sink: the pending prebuffer, if any, then the stream's data run. */
  function Feed(src: seq<ReadOutcome>, pos: nat, pending: seq<byte>): seq<seq<byte>>
  {
    (if pending == [] then [] else [pending]) + DataRun(src, pos)
  }

  /** The first index in [from, limit) at which the sink refuses a chunk, or `limit`. */
  function FirstRefusal(sink: Sink, win32: bool, from: nat, limit: nat): (r: nat)
    requires from <= limit
    decreases limit - from
    ensures from <= r <= limit
    ensures forall i :: from <= i < r ==> !Refuses(sink, win32, i)
    ensures r < limit ==> Refuses(sink, win32, r)
  {
    if from == limit then limit
    else if Refuses(sink, win32, from) then from
    else FirstRefusal(sink, win32, from + 1, limit)
  }

  /** The running byte totals after each chunk, starting from `base`. */
  function Totals(chunks: seq<seq<byte>>, base: nat): seq<nat>
  {
    if chunks == [] then [] else [base + |chunks[0]|] + Totals(chunks[1..], base + |chunks[0]|)
  }

  /** The events that end the last pass of the loop, for each stop reason. */
  function StopEvents(stop: StopReason, kind: SinkKind): seq<Event>
  {
    match stop
    case EndOfStream => [ReadSource(CHUNK_SIZE)]
    case ReadFailure => [ReadSource(CHUNK_SIZE), Log(Error, ReadFailed)]
    case PlayerExited => [PollPlayer, Log(Info, PlayerClosed)]
    case WriteFailure(errno) => [ClassifyWriteFault(kind, errno)]
  }

  // ---------------------------------------------------------------------------
  // Facts about one pass that do not involve the trace.

  /** The chunk a pass handles is the head of the feed; a pass that finds none ends the run. */
  lemma FeedStep(src: seq<ReadOutcome>, pos: nat, pending: seq<byte>)
    requires pos <= |src|
    ensures var got := Fetched(src, pos, pending);
            var pos' := if pending == [] then pos + 1 else pos;
            if got.Data? && |got.bytes| > 0 then
              && pos' <= |src|
              && Feed(src, pos, pending) == [got.bytes] + Feed(src, pos', [])
              && RunEnd(src, pos) == RunEnd(src, pos')
            else
              && pending == [] && Feed(src, pos, pending) == []
              && RunEnd(src, pos) == (if got.ReadFault? then ReadFailure else EndOfStream)
  {
    if pending == [] && pos < |src| && src[pos].Data? && src[pos].bytes != [] {
      assert DataRun(src, pos) == [src[pos].bytes] + DataRun(src, pos + 1);
    }
  }

  /** A prefix of a feed whose head was taken. */
  lemma FeedTaken(F: seq<seq<byte>>, F': seq<seq<byte>>, chunk: seq<byte>, j: nat)
    requires F == [chunk] + F' && j <= |F'|
    ensures F[..j + 1] == [chunk] + F'[..j]
    ensures F[..j + 1][0] == chunk && F[..j + 1][1..] == F'[..j]
    ensures j < |F'| ==> F[j + 1] == F'[j]
  {
    assert ([chunk] + F'[..j])[1..] == F'[..j];
  }

  /** Once the sink took chunk n, the search for its first refusal starts at n + 1. */
  lemma RefusalShift(sink: Sink, win32: bool, n: nat, m: nat)
    requires !Refuses(sink, win32, n)
    ensures FirstRefusal(sink, win32, n, n + 1 + m) == FirstRefusal(sink, win32, n + 1, n + 1 + m)
  {
  }

  // ---------------------------------------------------------------------------
  // What the loop does from any state. Each property is stated of a run `r`,
  // the feed `F` it starts from and the number `k` of chunks the sink takes
  // from it, and proved in three steps: for a pass that leaves the loop, for a
  // pass that goes round again (given the property from the next state), and
  // for the whole loop by induction along the passes.

  /** How many chunks of the feed the sink takes, counting its writes from the n-th. */
  function Taken(src: seq<ReadOutcome>, sink: Sink, win32: bool, pos: nat, pending: seq<byte>, n: nat): nat
  {
    FirstRefusal(sink, win32, n, n + |Feed(src, pos, pending)|) - n
  }

  /** `r` took the first k chunks of F, then stopped at the end of F or at the sink's refusal. */
  predicate StopsAs(r: CopyOutcome, F: seq<seq<byte>>, k: nat, end: StopReason, sink: Sink, win32: bool, n: nat, written: nat)
  {
    && k <= |F|
    && (k < |F| ==> Refuses(sink, win32, n + k))
    && r.stop == (if k == |F| then end else RefusalReason(sink, win32, n + k))
    && r.writesOk == n + k
    && r.written == written + TotalLength(F[..k])
  }

  /** After `trace`, `r` hands to `write` the k chunks taken, then the next one if its write failed. */
  predicate WritesAs(r: CopyOutcome, F: seq<seq<byte>>, k: nat, trace: seq<Event>)
  {
    && k <= |F|
    && (r.stop.WriteFailure? ==> k < |F|)
    && Writes(r.trace) == Writes(trace) + F[..if r.stop.WriteFailure? then k + 1 else k]
  }

  /** After `trace`, `r` shows the running total after each chunk taken, when progress is shown at all. */
  predicate ShowsAs(r: CopyOutcome, F: seq<seq<byte>>, k: nat, show: bool, written: nat, trace: seq<Event>)
  {
    && k <= |F|
    && (show ==> Progresses(r.trace) == Progresses(trace) + Totals(F[..k], written))
    && (!show ==> Progresses(r.trace) == Progresses(trace))
  }

  /**
   * After `trace`, `r` reads once per chunk taken from the stream (the
   * replayed prebuffer is not read) and once more when the feed runs out;
   * it neither closes the stream nor ends the progress line.
   */
  predicate ReadsAs(r: CopyOutcome, F: seq<seq<byte>>, k: nat, replay: bool, trace: seq<Event>)
  {
    var p := if replay then 1 else 0;
    && Count(r.trace, ReadSource(CHUNK_SIZE))
       == Count(trace, ReadSource(CHUNK_SIZE)) + (if k == |F| then |F| - p + 1 else k + 1 - p)
    && Count(r.trace, CloseSource) == Count(trace, CloseSource)
    && Count(r.trace, ProgressEnd) == Count(trace, ProgressEnd)
  }

  /** The trace after a pass whose chunk `data` the sink accepted, bringing the count to `total`. */
  function TakenTrace(trace: seq<Event>, pending: seq<byte>, kind: SinkKind, win32: bool,
                      data: seq<byte>, total: nat): seq<Event>
  {
    var t1 := ReadTrace(trace, pending);
    var t3 := (if PollsPlayer(kind, win32) then t1 + [PollPlayer] else t1) + [WriteOutput(data)];
    if ShowProgress(kind) then t3 + [Progress(total)] else t3
  }

  // A pass that leaves the loop.

  lemma HaltStops(src: seq<ReadOutcome>, sink: Sink, win32: bool, pos: nat, pending: seq<byte>, n: nat, written: nat, trace: seq<Event>)
    requires pos <= |src| && Step(src, sink, win32, pos, pending, n, written, trace).Halt?
    ensures StopsAs(Step(src, sink, win32, pos, pending, n, written, trace).out, Feed(src, pos, pending), Taken(src, sink, win32, pos, pending, n),
                    RunEnd(src, pos), sink, win32, n, written)
  {
    FeedStep(src, pos, pending);
    assert Feed(src, pos, pending)[..0] == [];
  }

  lemma HaltWrites(src: seq<ReadOutcome>, sink: Sink, win32: bool, pos: nat, pending: seq<byte>, n: nat, written: nat, trace: seq<Event>)
    requires pos <= |src| && Step(src, sink, win32, pos, pending, n, written, trace).Halt?
    ensures WritesAs(Step(src, sink, win32, pos, pending, n, written, trace).out, Feed(src, pos, pending), Taken(src, sink, win32, pos, pending, n), trace)
  {
    var got := Fetched(src, pos, pending);
    var F := Feed(src, pos, pending);
    var r := Step(src, sink, win32, pos, pending, n, written, trace).out;
    FeedStep(src, pos, pending);
    var t1 := ReadTrace(trace, pending);
    SnocQuiet(trace, ReadSource(CHUNK_SIZE));
    assert Writes(t1) == Writes(trace);
    AppendEmpty(Writes(trace));
    assert F[..0] == [];
    if got.Data? && |got.bytes| > 0 {
      // the sink refused the first chunk: nothing was taken
      assert Refuses(sink, win32, n);
      assert Taken(src, sink, win32, pos, pending, n) == 0;
      var t2 := if PollsPlayer(sink.kind, win32) then t1 + [PollPlayer] else t1;
      SnocQuiet(t1, PollPlayer);
      assert Writes(t2) == Writes(trace);
      if PollsPlayer(sink.kind, win32) && ExitedAt(sink, n) {
        assert r == CopyOutcome(t2 + [Log(Info, PlayerClosed)], written, n, PlayerExited);
        SnocQuiet(t2, Log(Info, PlayerClosed));
      } else {
        var errno := WriteAt(sink, n).errno;
        assert r == CopyOutcome(t2 + [WriteOutput(got.bytes)] + [ClassifyWriteFault(sink.kind, errno)], written, n, WriteFailure(errno));
        SnocWrite(t2, got.bytes);
        SnocQuiet(t2 + [WriteOutput(got.bytes)], ClassifyWriteFault(sink.kind, errno));
        assert F[..1] == [got.bytes];
      }
    } else {
      assert F == [] && Taken(src, sink, win32, pos, pending, n) == 0;
      if got.ReadFault? {
        assert r == CopyOutcome(t1 + [Log(Error, ReadFailed)], written, n, ReadFailure);
        SnocQuiet(t1, Log(Error, ReadFailed));
      } else {
        assert r == CopyOutcome(t1, written, n, EndOfStream);
      }
    }
  }

  lemma HaltShows(src: seq<ReadOutcome>, sink: Sink, win32: bool, pos: nat, pending: seq<byte>, n: nat, written: nat, trace: seq<Event>)
    requires pos <= |src| && Step(src, sink, win32, pos, pending, n, written, trace).Halt?
    ensures ShowsAs(Step(src, sink, win32, pos, pending, n, written, trace).out, Feed(src, pos, pending), Taken(src, sink, win32, pos, pending, n),
                    ShowProgress(sink.kind), written, trace)
  {
    var got := Fetched(src, pos, pending);
    FeedStep(src, pos, pending);
    var t1 := ReadTrace(trace, pending);
    SnocQuiet(trace, ReadSource(CHUNK_SIZE));
    AppendEmpty(Progresses(trace));
    assert Feed(src, pos, pending)[..0] == [];
    if got.Data? && |got.bytes| > 0 {
      var t2 := if PollsPlayer(sink.kind, win32) then t1 + [PollPlayer] else t1;
      SnocQuiet(t1, PollPlayer);
      SnocQuiet(t2, Log(Info, PlayerClosed));
      SnocWrite(t2, got.bytes);
      if WriteAt(sink, n).WriteFault? {
        SnocQuiet(t2 + [WriteOutput(got.bytes)], ClassifyWriteFault(sink.kind, WriteAt(sink, n).errno));
      }
    } else if got.ReadFault? {
      SnocQuiet(t1, Log(Error, ReadFailed));
    }
  }

  lemma HaltReads(src: seq<ReadOutcome>, sink: Sink, win32: bool, pos: nat, pending: seq<byte>, n: nat, written: nat, trace: seq<Event>)
    requires pos <= |src| && Step(src, sink, win32, pos, pending, n, written, trace).Halt?
    ensures ReadsAs(Step(src, sink, win32, pos, pending, n, written, trace).out, Feed(src, pos, pending), Taken(src, sink, win32, pos, pending, n),
                    pending != [], trace)
  {
    var got := Fetched(src, pos, pending);
    FeedStep(src, pos, pending);
    var t1 := ReadTrace(trace, pending);
    SnocCounts(trace, ReadSource(CHUNK_SIZE));
    if got.Data? && |got.bytes| > 0 {
      var t2 := if PollsPlayer(sink.kind, win32) then t1 + [PollPlayer] else t1;
      SnocCounts(t1, PollPlayer);
      SnocCounts(t2, Log(Info, PlayerClosed));
      SnocCounts(t2, WriteOutput(got.bytes));
      if WriteAt(sink, n).WriteFault? {
        SnocCounts(t2 + [WriteOutput(got.bytes)], ClassifyWriteFault(sink.kind, WriteAt(sink, n).errno));
      }
    } else if got.ReadFault? {
      SnocCounts(t1, Log(Error, ReadFailed));
    }
  }

  lemma HaltEnds(src: seq<ReadOutcome>, sink: Sink, win32: bool, pos: nat, pending: seq<byte>, n: nat, written: nat, trace: seq<Event>)
    requires pos <= |src| && Step(src, sink, win32, pos, pending, n, written, trace).Halt?
    ensures var out := Step(src, sink, win32, pos, pending, n, written, trace).out;
            IsSuffix(StopEvents(out.stop, sink.kind), out.trace)
  {
    var got := Fetched(src, pos, pending);
    var t1 := ReadTrace(trace, pending);
    if got.ReadFault? {
      SuffixTwo(trace, ReadSource(CHUNK_SIZE), Log(Error, ReadFailed));
    } else if |got.bytes| == 0 {
      SuffixOne(trace, ReadSource(CHUNK_SIZE));
    } else {
      var t2 := if PollsPlayer(sink.kind, win32) then t1 + [PollPlayer] else t1;
      SuffixTwo(t1, PollPlayer, Log(Info, PlayerClosed));
      if WriteAt(sink, n).WriteFault? {
        SuffixOne(t2 + [WriteOutput(got.bytes)], ClassifyWriteFault(sink.kind, WriteAt(sink, n).errno));
      }
    }
  }

  // A pass that goes round again.

  /** After a chunk is taken, the feed is that chunk followed by the next state's feed, and the sink takes one more. */
  lemma FeedAdvance(src: seq<ReadOutcome>, sink: Sink, win32: bool, pos: nat, pending: seq<byte>, n: nat, data: seq<byte>)
    requires pos <= |src| && Fetched(src, pos, pending) == Data(data) && |data| > 0 && !Refuses(sink, win32, n)
    ensures var pos' := if pending == [] then pos + 1 else pos;
            && pos' <= |src|
            && Feed(src, pos, pending) == [data] + Feed(src, pos', [])
            && RunEnd(src, pos) == RunEnd(src, pos')
            && Taken(src, sink, win32, pos, pending, n) == Taken(src, sink, win32, pos', [], n + 1) + 1
  {
    FeedStep(src, pos, pending);
    RefusalShift(sink, win32, n, |Feed(src, if pending == [] then pos + 1 else pos, [])|);
  }

  /** What a pass that had its chunk accepted adds to the writes and the progress lines. */
  lemma TakenFacts(trace: seq<Event>, pending: seq<byte>, kind: SinkKind, win32: bool, data: seq<byte>, total: nat)
    ensures var t := TakenTrace(trace, pending, kind, win32, data, total);
            && Writes(t) == Writes(trace) + [data]
            && (ShowProgress(kind) ==> Progresses(t) == Progresses(trace) + [total])
            && (!ShowProgress(kind) ==> Progresses(t) == Progresses(trace))
  {
    var t1 := ReadTrace(trace, pending);
    var t2 := if PollsPlayer(kind, win32) then t1 + [PollPlayer] else t1;
    SnocQuiet(trace, ReadSource(CHUNK_SIZE));
    SnocQuiet(t1, PollPlayer);
    SnocWrite(t2, data);
    SnocProgress(t2 + [WriteOutput(data)], total);
  }

  /** What a pass that had its chunk accepted adds to the counts. */
  lemma TakenCounts(trace: seq<Event>, pending: seq<byte>, kind: SinkKind, win32: bool, data: seq<byte>, total: nat)
    ensures var t := TakenTrace(trace, pending, kind, win32, data, total);
            && Count(t, ReadSource(CHUNK_SIZE)) == Count(trace, ReadSource(CHUNK_SIZE)) + (if pending == [] then 1 else 0)
            && Count(t, CloseSource) == Count(trace, CloseSource)
            && Count(t, ProgressEnd) == Count(trace, ProgressEnd)
  {
    var t1 := ReadTrace(trace, pending);
    var t2 := if PollsPlayer(kind, win32) then t1 + [PollPlayer] else t1;
    SnocCounts(trace, ReadSource(CHUNK_SIZE));
    SnocCounts(t1, PollPlayer);
    SnocCounts(t2, WriteOutput(data));
    SnocCounts(t2 + [WriteOutput(data)], Progress(total));
  }

  lemma TakeStops(r: CopyOutcome, F: seq<seq<byte>>, F': seq<seq<byte>>, k': nat, end: StopReason,
                  sink: Sink, win32: bool, n: nat, written: nat, data: seq<byte>)
    requires F == [data] + F' && !Refuses(sink, win32, n)
    requires StopsAs(r, F', k', end, sink, win32, n + 1, written + |data|)
    ensures StopsAs(r, F, k' + 1, end, sink, win32, n, written)
  {
    FeedTaken(F, F', data, k');
  }

  lemma TakeWrites(r: CopyOutcome, F: seq<seq<byte>>, F': seq<seq<byte>>, k': nat,
                   trace: seq<Event>, t: seq<Event>, data: seq<byte>)
    requires F == [data] + F' && Writes(t) == Writes(trace) + [data]
    requires WritesAs(r, F', k', t)
    ensures WritesAs(r, F, k' + 1, trace)
  {
    var j := if r.stop.WriteFailure? then k' + 1 else k';
    FeedTaken(F, F', data, j);
    Assoc(Writes(trace), [data], F'[..j]);
  }

  lemma TakeShows(r: CopyOutcome, F: seq<seq<byte>>, F': seq<seq<byte>>, k': nat, show: bool, written: nat, written': nat,
                  trace: seq<Event>, t: seq<Event>, data: seq<byte>)
    requires F == [data] + F' && written' == written + |data|
    requires show ==> Progresses(t) == Progresses(trace) + [written']
    requires !show ==> Progresses(t) == Progresses(trace)
    requires ShowsAs(r, F', k', show, written', t)
    ensures ShowsAs(r, F, k' + 1, show, written, trace)
  {
    FeedTaken(F, F', data, k');
    Assoc(Progresses(trace), [written'], Totals(F'[..k'], written'));
  }

  lemma TakeReads(r: CopyOutcome, F: seq<seq<byte>>, F': seq<seq<byte>>, k': nat, replay: bool,
                  trace: seq<Event>, t: seq<Event>, data: seq<byte>)
    requires F == [data] + F'
    requires Count(t, ReadSource(CHUNK_SIZE)) == Count(trace, ReadSource(CHUNK_SIZE)) + (if replay then 0 else 1)
    requires Count(t, CloseSource) == Count(trace, CloseSource) && Count(t, ProgressEnd) == Count(trace, ProgressEnd)
    requires ReadsAs(r, F', k', false, t)
    ensures ReadsAs(r, F, k' + 1, replay, trace)
  {
  }

  // The whole loop.

  /** A pass whose chunk the sink accepted: the loop goes on from the state after it, one chunk further along the feed. */
  lemma Advances(src: seq<ReadOutcome>, sink: Sink, win32: bool, pos: nat, pending: seq<byte>, n: nat, written: nat, trace: seq<Event>)
    requires pos <= |src| && Step(src, sink, win32, pos, pending, n, written, trace).Again?
    ensures var p := Step(src, sink, win32, pos, pending, n, written, trace);
            && p.pos == (if pending == [] then pos + 1 else pos) && p.n == n + 1 && p.written == written + |p.chunk|
            && Loop(src, sink, win32, pos, pending, n, written, trace) == Loop(src, sink, win32, p.pos, [], p.n, p.written, p.trace)
            && Feed(src, pos, pending) == [p.chunk] + Feed(src, p.pos, [])
            && RunEnd(src, pos) == RunEnd(src, p.pos)
            && Taken(src, sink, win32, pos, pending, n) == Taken(src, sink, win32, p.pos, [], p.n) + 1
  {
    var p := Step(src, sink, win32, pos, pending, n, written, trace);
    assert Loop(src, sink, win32, pos, pending, n, written, trace) == Loop(src, sink, win32, p.pos, [], p.n, p.written, p.trace);
    FeedAdvance(src, sink, win32, pos, pending, n, p.chunk);
  }

  /** A pass that leaves the loop ends it with its own outcome. */
  lemma LoopHalts(src: seq<ReadOutcome>, sink: Sink, win32: bool, pos: nat, pending: seq<byte>, n: nat, written: nat, trace: seq<Event>)
    requires pos <= |src| && Step(src, sink, win32, pos, pending, n, written, trace).Halt?
    ensures Loop(src, sink, win32, pos, pending, n, written, trace) == Step(src, sink, win32, pos, pending, n, written, trace).out
  {
  }

  lemma AgainStops(src: seq<ReadOutcome>, sink: Sink, win32: bool, pos: nat, pending: seq<byte>, n: nat, written: nat, trace: seq<Event>)
    requires pos <= |src| && Step(src, sink, win32, pos, pending, n, written, trace).Again?
    requires var p := Step(src, sink, win32, pos, pending, n, written, trace);
             StopsAs(Loop(src, sink, win32, p.pos, [], p.n, p.written, p.trace), Feed(src, p.pos, []), Taken(src, sink, win32, p.pos, [], p.n),
                     RunEnd(src, p.pos), sink, win32, p.n, p.written)
    ensures StopsAs(Loop(src, sink, win32, pos, pending, n, written, trace), Feed(src, pos, pending), Taken(src, sink, win32, pos, pending, n),
                    RunEnd(src, pos), sink, win32, n, written)
  {
    var p := Step(src, sink, win32, pos, pending, n, written, trace);
    Advances(src, sink, win32, pos, pending, n, written, trace);
    TakeStops(Loop(src, sink, win32, p.pos, [], p.n, p.written, p.trace), Feed(src, pos, pending), Feed(src, p.pos, []),
              Taken(src, sink, win32, p.pos, [], p.n), RunEnd(src, p.pos), sink, win32, n, written, p.chunk);
  }

  lemma {:induction false} LoopStops(src: seq<ReadOutcome>, sink: Sink, win32: bool, pos: nat, pending: seq<byte>, n: nat, written: nat, trace: seq<Event>)
    requires pos <= |src|
    ensures StopsAs(Loop(src, sink, win32, pos, pending, n, written, trace), Feed(src, pos, pending), Taken(src, sink, win32, pos, pending, n),
                    RunEnd(src, pos), sink, win32, n, written)
    decreases |src| - pos, |pending|
  {
    if Step(src, sink, win32, pos, pending, n, written, trace).Halt? {
      LoopHalts(src, sink, win32, pos, pending, n, written, trace);
      HaltStops(src, sink, win32, pos, pending, n, written, trace);
    } else {
      var p := Step(src, sink, win32, pos, pending, n, written, trace);
      LoopStops(src, sink, win32, p.pos, [], p.n, p.written, p.trace);
      AgainStops(src, sink, win32, pos, pending, n, written, trace);
    }
  }

  lemma AgainWrites(src: seq<ReadOutcome>, sink: Sink, win32: bool, pos: nat, pending: seq<byte>, n: nat, written: nat, trace: seq<Event>)
    requires pos <= |src| && Step(src, sink, win32, pos, pending, n, written, trace).Again?
    requires var p := Step(src, sink, win32, pos, pending, n, written, trace);
             WritesAs(Loop(src, sink, win32, p.pos, [], p.n, p.written, p.trace), Feed(src, p.pos, []), Taken(src, sink, win32, p.pos, [], p.n), p.trace)
    ensures WritesAs(Loop(src, sink, win32, pos, pending, n, written, trace), Feed(src, pos, pending), Taken(src, sink, win32, pos, pending, n), trace)
  {
    var p := Step(src, sink, win32, pos, pending, n, written, trace);
    Advances(src, sink, win32, pos, pending, n, written, trace);
    TakenFacts(trace, pending, sink.kind, win32, p.chunk, p.written);
    TakeWrites(Loop(src, sink, win32, p.pos, [], p.n, p.written, p.trace), Feed(src, pos, pending), Feed(src, p.pos, []),
               Taken(src, sink, win32, p.pos, [], p.n), trace, p.trace, p.chunk);
  }

  lemma {:induction false} LoopWrites(src: seq<ReadOutcome>, sink: Sink, win32: bool, pos: nat, pending: seq<byte>, n: nat, written: nat, trace: seq<Event>)
    requires pos <= |src|
    ensures WritesAs(Loop(src, sink, win32, pos, pending, n, written, trace), Feed(src, pos, pending), Taken(src, sink, win32, pos, pending, n), trace)
    decreases |src| - pos, |pending|
  {
    if Step(src, sink, win32, pos, pending, n, written, trace).Halt? {
      LoopHalts(src, sink, win32, pos, pending, n, written, trace);
      HaltWrites(src, sink, win32, pos, pending, n, written, trace);
    } else {
      var p := Step(src, sink, win32, pos, pending, n, written, trace);
      LoopWrites(src, sink, win32, p.pos, [], p.n, p.written, p.trace);
      AgainWrites(src, sink, win32, pos, pending, n, written, trace);
    }
  }

  lemma AgainShows(src: seq<ReadOutcome>, sink: Sink, win32: bool, pos: nat, pending: seq<byte>, n: nat, written: nat, trace: seq<Event>)
    requires pos <= |src| && Step(src, sink, win32, pos, pending, n, written, trace).Again?
    requires var p := Step(src, sink, win32, pos, pending, n, written, trace);
             ShowsAs(Loop(src, sink, win32, p.pos, [], p.n, p.written, p.trace), Feed(src, p.pos, []), Taken(src, sink, win32, p.pos, [], p.n),
                     ShowProgress(sink.kind), p.written, p.trace)
    ensures ShowsAs(Loop(src, sink, win32, pos, pending, n, written, trace), Feed(src, pos, pending), Taken(src, sink, win32, pos, pending, n),
                    ShowProgress(sink.kind), written, trace)
  {
    var p := Step(src, sink, win32, pos, pending, n, written, trace);
    Advances(src, sink, win32, pos, pending, n, written, trace);
    TakenFacts(trace, pending, sink.kind, win32, p.chunk, p.written);
    TakeShows(Loop(src, sink, win32, p.pos, [], p.n, p.written, p.trace), Feed(src, pos, pending), Feed(src, p.pos, []),
              Taken(src, sink, win32, p.pos, [], p.n), ShowProgress(sink.kind), written, p.written, trace, p.trace, p.chunk);
  }

  lemma {:induction false} LoopShows(src: seq<ReadOutcome>, sink: Sink, win32: bool, pos: nat, pending: seq<byte>, n: nat, written: nat, trace: seq<Event>)
    requires pos <= |src|
    ensures ShowsAs(Loop(src, sink, win32, pos, pending, n, written, trace), Feed(src, pos, pending), Taken(src, sink, win32, pos, pending, n),
                    ShowProgress(sink.kind), written, trace)
    decreases |src| - pos, |pending|
  {
    if Step(src, sink, win32, pos, pending, n, written, trace).Halt? {
      LoopHalts(src, sink, win32, pos, pending, n, written, trace);
      HaltShows(src, sink, win32, pos, pending, n, written, trace);
    } else {
      var p := Step(src, sink, win32, pos, pending, n, written, trace);
      LoopShows(src, sink, win32, p.pos, [], p.n, p.written, p.trace);
      AgainShows(src, sink, win32, pos, pending, n, written, trace);
    }
  }

  lemma AgainReads(src: seq<ReadOutcome>, sink: Sink, win32: bool, pos: nat, pending: seq<byte>, n: nat, written: nat, trace: seq<Event>)
    requires pos <= |src| && Step(src, sink, win32, pos, pending, n, written, trace).Again?
    requires var p := Step(src, sink, win32, pos, pending, n, written, trace);
             ReadsAs(Loop(src, sink, win32, p.pos, [], p.n, p.written, p.trace), Feed(src, p.pos, []), Taken(src, sink, win32, p.pos, [], p.n), false, p.trace)
    ensures ReadsAs(Loop(src, sink, win32, pos, pending, n, written, trace), Feed(src, pos, pending), Taken(src, sink, win32, pos, pending, n), pending != [], trace)
  {
    var p := Step(src, sink, win32, pos, pending, n, written, trace);
    Advances(src, sink, win32, pos, pending, n, written, trace);
    TakenCounts(trace, pending, sink.kind, win32, p.chunk, p.written);
    TakeReads(Loop(src, sink, win32, p.pos, [], p.n, p.written, p.trace), Feed(src, pos, pending), Feed(src, p.pos, []),
              Taken(src, sink, win32, p.pos, [], p.n), pending != [], trace, p.trace, p.chunk);
  }

  lemma {:induction false} LoopReads(src: seq<ReadOutcome>, sink: Sink, win32: bool, pos: nat, pending: seq<byte>, n: nat, written: nat, trace: seq<Event>)
    requires pos <= |src|
    ensures ReadsAs(Loop(src, sink, win32, pos, pending, n, written, trace), Feed(src, pos, pending), Taken(src, sink, win32, pos, pending, n), pending != [], trace)
    decreases |src| - pos, |pending|
  {
    if Step(src, sink, win32, pos, pending, n, written, trace).Halt? {
      LoopHalts(src, sink, win32, pos, pending, n, written, trace);
      HaltReads(src, sink, win32, pos, pending, n, written, trace);
    } else {
      var p := Step(src, sink, win32, pos, pending, n, written, trace);
      LoopReads(src, sink, win32, p.pos, [], p.n, p.written, p.trace);
      AgainReads(src, sink, win32, pos, pending, n, written, trace);
    }
  }

  /** The loop's last events are those of its stop reason. */
  lemma {:induction false} LoopEnds(src: seq<ReadOutcome>, sink: Sink, win32: bool, pos: nat, pending: seq<byte>, n: nat, written: nat, trace: seq<Event>)
    requires pos <= |src|
    ensures var r := Loop(src, sink, win32, pos, pending, n, written, trace);
            IsSuffix(StopEvents(r.stop, sink.kind), r.trace)
    decreases |src| - pos, |pending|
  {
    var p := Step(src, sink, win32, pos, pending, n, written, trace);
    if p.Halt? {
      assert Loop(src, sink, win32, pos, pending, n, written, trace) == p.out;
      HaltEnds(src, sink, win32, pos, pending, n, written, trace);
    } else {
      Advances(src, sink, win32, pos, pending, n, written, trace);
      LoopEnds(src, sink, win32, p.pos, [], p.n, p.written, p.trace);
    }
  }

  /** The counts of the three events `read_stream` reports on, after one more event. */
  // ---------------------------------------------------------------------------
  // The whole of `read_stream`.

  /** Finishing keeps the loop's outcome and trace, and appends the closing events. */
  lemma FinishShape(kind: SinkKind, l: CopyOutcome)
    ensures var r := Finish(kind, l);
            && r.written == l.written && r.writesOk == l.writesOk && r.stop == l.stop
            && |l.trace| + 2 <= |r.trace|
            && r.trace[..|l.trace|] == l.trace
            && IsSuffix([CloseSource, Log(Info, StreamEnded)], r.trace)
            && IsSuffix(l.trace + CloseEvents(kind, l.written), r.trace)
  {
    var t := if ShowProgress(kind) && l.written > 0 then l.trace + [ProgressEnd] else l.trace;
    SuffixTwo(t, CloseSource, Log(Info, StreamEnded));
    assert t + [CloseSource] + [Log(Info, StreamEnded)] == l.trace + CloseEvents(kind, l.written);
  }

  /** The events after the loop, for a sink of this kind that counted `written` bytes. */
  function CloseEvents(kind: SinkKind, written: nat): seq<Event>
  {
    (if ShowProgress(kind) && written > 0 then [ProgressEnd] else []) + [CloseSource, Log(Info, StreamEnded)]
  }

  /** Finishing writes nothing, shows no progress count, reads nothing, closes the stream once. */
  lemma FinishKeeps(kind: SinkKind, l: CopyOutcome)
    ensures var r := Finish(kind, l);
            && Writes(r.trace) == Writes(l.trace)
            && Progresses(r.trace) == Progresses(l.trace)
            && Count(r.trace, ReadSource(CHUNK_SIZE)) == Count(l.trace, ReadSource(CHUNK_SIZE))
            && Count(r.trace, CloseSource) == Count(l.trace, CloseSource) + 1
            && Count(r.trace, ProgressEnd)
               == Count(l.trace, ProgressEnd) + (if ShowProgress(kind) && l.written > 0 then 1 else 0)
  {
    var t := if ShowProgress(kind) && l.written > 0 then l.trace + [ProgressEnd] else l.trace;
    SnocQuiet(l.trace, ProgressEnd);
    SnocCounts(l.trace, ProgressEnd);
    SnocQuiet(t, CloseSource);
    SnocCounts(t, CloseSource);
    SnocQuiet(t + [CloseSource], Log(Info, StreamEnded));
    SnocCounts(t + [CloseSource], Log(Info, StreamEnded));
  }

  lemma EmptyTrace()
    ensures Writes([]) == [] && Progresses([]) == []
    ensures Count([], ReadSource(CHUNK_SIZE)) == 0 && Count([], CloseSource) == 0 && Count([], ProgressEnd) == 0
  {
  }

  /**
   * Copy fidelity: the sink is handed the feed (the prebuffer, then the
   * stream's chunks up to its first empty read or read fault) in order, up
   * to the first chunk it refuses; the chunk whose write failed was handed
   * over too but not counted. The loop stops at the end of the feed for the
   * reason the stream gives, or else at that refusal for the reason the
   * sink gives.
   */
  lemma CopyFidelity(src: seq<ReadOutcome>, sink: Sink, win32: bool, prebuffer: seq<byte>)
    ensures var F := Feed(src, 0, prebuffer);
            var k := FirstRefusal(sink, win32, 0, |F|);
            var r := Copy(src, sink, win32, prebuffer);
            && r.stop == (if k == |F| then RunEnd(src, 0) else RefusalReason(sink, win32, k))
            && r.writesOk == k
            && r.written == TotalLength(F[..k])
            && (r.stop.WriteFailure? ==> k < |F|)
            && Writes(r.trace) == F[..if r.stop.WriteFailure? then k + 1 else k]
  {
    var l := Loop(src, sink, win32, 0, prebuffer, 0, 0, []);
    LoopStops(src, sink, win32, 0, prebuffer, 0, 0, []);
    LoopWrites(src, sink, win32, 0, prebuffer, 0, 0, []);
    FinishShape(sink.kind, l);
    FinishKeeps(sink.kind, l);
    EmptyTrace();
  }

  /** When the stream ends or fails first, every chunk it yielded, after the prebuffer, reached the sink. */
  lemma CopyDeliversWholeStream(src: seq<ReadOutcome>, sink: Sink, win32: bool, prebuffer: seq<byte>)
    ensures var r := Copy(src, sink, win32, prebuffer);
            var F := Feed(src, 0, prebuffer);
            (r.stop == EndOfStream || r.stop == ReadFailure) <==> r.writesOk == |F|
    ensures var r := Copy(src, sink, win32, prebuffer);
            (r.stop == EndOfStream || r.stop == ReadFailure) ==>
              && Writes(r.trace) == (if prebuffer == [] then [] else [prebuffer]) + DataRun(src, 0)
              && r.written == |prebuffer| + TotalLength(DataRun(src, 0))
  {
    var F := Feed(src, 0, prebuffer);
    CopyFidelity(src, sink, win32, prebuffer);
    assert F[..|F|] == F;
    TotalLengthConcat(if prebuffer == [] then [] else [prebuffer], DataRun(src, 0));
  }

  /**
   * The loop stops at the sink's first refusal: every chunk before it was
   * accepted, and the refused one is the next. The stream is read once per
   * chunk taken from it, plus the read that ended the run when the feed ran
   * out (the prebuffer is not read again), and the trace ends with the
   * events of the stop reason followed by the closing events.
   */
  lemma CopyStopsAtFirstFault(src: seq<ReadOutcome>, sink: Sink, win32: bool, prebuffer: seq<byte>)
    ensures var r := Copy(src, sink, win32, prebuffer);
            var F := Feed(src, 0, prebuffer);
            var p := if prebuffer == [] then 0 else 1;
            && (forall i :: 0 <= i < r.writesOk ==> !Refuses(sink, win32, i))
            && (r.writesOk < |F| ==> Refuses(sink, win32, r.writesOk))
            && Count(r.trace, ReadSource(CHUNK_SIZE))
               == (if r.writesOk == |F| then |F| - p + 1 else r.writesOk + 1 - p)
            && IsSuffix(StopEvents(r.stop, sink.kind) + CloseEvents(sink.kind, r.written), r.trace)
  {
    var l := Loop(src, sink, win32, 0, prebuffer, 0, 0, []);
    CopyFidelity(src, sink, win32, prebuffer);
    LoopReads(src, sink, win32, 0, prebuffer, 0, 0, []);
    LoopEnds(src, sink, win32, 0, prebuffer, 0, 0, []);
    FinishShape(sink.kind, l);
    FinishKeeps(sink.kind, l);
    EmptyTrace();
    SuffixAppend(StopEvents(l.stop, sink.kind), l.trace, CloseEvents(sink.kind, l.written));
    SuffixOfSuffix(StopEvents(l.stop, sink.kind) + CloseEvents(sink.kind, l.written),
                   l.trace + CloseEvents(sink.kind, l.written), Copy(src, sink, win32, prebuffer).trace);
  }

  /**
   * The stream is closed exactly once, last but for "Stream ended", and the
   * progress line is ended once exactly when something was written and shown.
   */
  lemma CopyCloses(src: seq<ReadOutcome>, sink: Sink, win32: bool, prebuffer: seq<byte>)
    ensures var r := Copy(src, sink, win32, prebuffer);
            && Count(r.trace, CloseSource) == 1
            && IsSuffix([CloseSource, Log(Info, StreamEnded)], r.trace)
            && Count(r.trace, ProgressEnd) == (if ShowProgress(sink.kind) && r.written > 0 then 1 else 0)
  {
    var l := Loop(src, sink, win32, 0, prebuffer, 0, 0, []);
    assert Copy(src, sink, win32, prebuffer) == Finish(sink.kind, l);
    LoopReads(src, sink, win32, 0, prebuffer, 0, 0, []);
    FinishShape(sink.kind, l);
    FinishKeeps(sink.kind, l);
    EmptyTrace();
  }

  /**
   * A progress count follows each chunk taken, for a non-stdout file only,
   * the last showing the final total.
   */
  lemma CopyReportsProgress(src: seq<ReadOutcome>, sink: Sink, win32: bool, prebuffer: seq<byte>)
    ensures var r := Copy(src, sink, win32, prebuffer);
            var F := Feed(src, 0, prebuffer);
            && r.writesOk <= |F|
            && (ShowProgress(sink.kind) ==> Progresses(r.trace) == Totals(F[..r.writesOk], 0))
            && (ShowProgress(sink.kind) ==> |Progresses(r.trace)| == r.writesOk)
            && (ShowProgress(sink.kind) && r.writesOk > 0 ==> Progresses(r.trace)[r.writesOk - 1] == r.written)
            && (!ShowProgress(sink.kind) ==> Progresses(r.trace) == [])
  {
    var l := Loop(src, sink, win32, 0, prebuffer, 0, 0, []);
    assert Copy(src, sink, win32, prebuffer) == Finish(sink.kind, l);
    LoopStops(src, sink, win32, 0, prebuffer, 0, 0, []);
    LoopShows(src, sink, win32, 0, prebuffer, 0, 0, []);
    FinishProgress(sink.kind, l, Feed(src, 0, prebuffer));
  }

  /** The progress counts of a finished copy are those its loop showed. */
  lemma FinishProgress(kind: SinkKind, l: CopyOutcome, F: seq<seq<byte>>)
    requires l.writesOk <= |F| && l.written == TotalLength(F[..l.writesOk])
    requires ShowsAs(l, F, l.writesOk, ShowProgress(kind), 0, [])
    ensures var r := Finish(kind, l);
            && r.writesOk <= |F|
            && (ShowProgress(kind) ==> Progresses(r.trace) == Totals(F[..r.writesOk], 0))
            && (ShowProgress(kind) ==> |Progresses(r.trace)| == r.writesOk)
            && (ShowProgress(kind) && r.writesOk > 0 ==> Progresses(r.trace)[r.writesOk - 1] == r.written)
            && (!ShowProgress(kind) ==> Progresses(r.trace) == [])
  {
    FinishShape(kind, l);
    FinishKeeps(kind, l);
    EmptyTrace();
    TotalsShape(F[..l.writesOk], 0);
  }

  /** An event the copy loop never emits: it does not open streams, manage outputs or connections, sleep, or log other lines. */
  predicate Foreign(x: Event)
  {
    !x.ReadSource? && !x.PollPlayer? && !x.WriteOutput? && !x.Progress? && !x.ProgressEnd?
    && !x.CloseSource? && !(x.Log? && (x.msg.WriteFailed? || x.msg in {ReadFailed, StreamEnded, PlayerClosed, HttpClosed}))
  }

  lemma HaltForeign(src: seq<ReadOutcome>, sink: Sink, win32: bool,
                    pos: nat, pending: seq<byte>, n: nat, written: nat, trace: seq<Event>, x: Event)
    requires pos <= |src| && Step(src, sink, win32, pos, pending, n, written, trace).Halt? && Foreign(x)
    ensures Count(Step(src, sink, win32, pos, pending, n, written, trace).out.trace, x) == Count(trace, x)
  {
    var got := Fetched(src, pos, pending);
    var t1 := ReadTrace(trace, pending);
    SnocCount(trace, ReadSource(CHUNK_SIZE), x);
    if got.Data? && |got.bytes| > 0 {
      var t2 := if PollsPlayer(sink.kind, win32) then t1 + [PollPlayer] else t1;
      SnocCount(t1, PollPlayer, x);
      SnocCount(t2, Log(Info, PlayerClosed), x);
      SnocCount(t2, WriteOutput(got.bytes), x);
      if WriteAt(sink, n).WriteFault? {
        SnocCount(t2 + [WriteOutput(got.bytes)], ClassifyWriteFault(sink.kind, WriteAt(sink, n).errno), x);
      }
    } else if got.ReadFault? {
      SnocCount(t1, Log(Error, ReadFailed), x);
    }
  }

  lemma TakenForeign(trace: seq<Event>, pending: seq<byte>, kind: SinkKind, win32: bool, data: seq<byte>, total: nat, x: Event)
    requires Foreign(x)
    ensures Count(TakenTrace(trace, pending, kind, win32, data, total), x) == Count(trace, x)
  {
    var t1 := ReadTrace(trace, pending);
    var t2 := if PollsPlayer(kind, win32) then t1 + [PollPlayer] else t1;
    SnocCount(trace, ReadSource(CHUNK_SIZE), x);
    SnocCount(t1, PollPlayer, x);
    SnocCount(t2, WriteOutput(data), x);
    SnocCount(t2 + [WriteOutput(data)], Progress(total), x);
  }

  lemma {:induction false} LoopForeign(src: seq<ReadOutcome>, sink: Sink, win32: bool,
                                       pos: nat, pending: seq<byte>, n: nat, written: nat, trace: seq<Event>, x: Event)
    requires pos <= |src| && Foreign(x)
    ensures Count(Loop(src, sink, win32, pos, pending, n, written, trace).trace, x) == Count(trace, x)
    decreases |src| - pos, |pending|
  {
    var p := Step(src, sink, win32, pos, pending, n, written, trace);
    if p.Halt? {
      assert Loop(src, sink, win32, pos, pending, n, written, trace) == p.out;
      HaltForeign(src, sink, win32, pos, pending, n, written, trace, x);
    } else {
      Advances(src, sink, win32, pos, pending, n, written, trace);
      LoopForeign(src, sink, win32, p.pos, [], p.n, p.written, p.trace, x);
      TakenForeign(trace, pending, sink.kind, win32, p.chunk, p.written, x);
    }
  }

  /**
   * The copy emits only its own events: it never opens the stream again,
   * never creates, opens or closes the output, never sleeps, and never
   * touches the relay's connections.
   */
  lemma CopyForeign(src: seq<ReadOutcome>, sink: Sink, win32: bool, prebuffer: seq<byte>, x: Event)
    requires Foreign(x)
    ensures Count(Copy(src, sink, win32, prebuffer).trace, x) == 0
  {
    var l := Loop(src, sink, win32, 0, prebuffer, 0, 0, []);
    LoopForeign(src, sink, win32, 0, prebuffer, 0, 0, [], x);
    var t := if ShowProgress(sink.kind) && l.written > 0 then l.trace + [ProgressEnd] else l.trace;
    SnocCount(l.trace, ProgressEnd, x);
    SnocCount(t, CloseSource, x);
    SnocCount(t + [CloseSource], Log(Info, StreamEnded), x);
    EmptyTrace();
  }

  /** One running total per chunk, the last being the base plus all their bytes. */
  lemma {:induction false} TotalsShape(chunks: seq<seq<byte>>, base: nat)
    ensures |Totals(chunks, base)| == |chunks|
    ensures chunks != [] ==> Totals(chunks, base)[|chunks| - 1] == base + TotalLength(chunks)
    decreases |chunks|
  {
    if chunks != [] {
      TotalsShape(chunks[1..], base + |chunks[0]|);
    }
  }

  lemma SnocCounts(t: seq<Event>, e: Event)
    ensures Count(t + [e], ReadSource(CHUNK_SIZE)) == Count(t, ReadSource(CHUNK_SIZE)) + (if e == ReadSource(CHUNK_SIZE) then 1 else 0)
    ensures Count(t + [e], CloseSource) == Count(t, CloseSource) + (if e == CloseSource then 1 else 0)
    ensures Count(t + [e], ProgressEnd) == Count(t, ProgressEnd) + (if e == ProgressEnd then 1 else 0)
  {
    SnocCount(t, e, ReadSource(CHUNK_SIZE));
    SnocCount(t, e, CloseSource);
    SnocCount(t, e, ProgressEnd);
  }

  lemma SuffixOne<T>(t: seq<T>, a: T)
    ensures IsSuffix([a], t + [a])
  {
    assert (t + [a])[|t|..] == [a];
  }

  lemma SuffixTwo<T>(t: seq<T>, a: T, b: T)
    ensures IsSuffix([a, b], t + [a] + [b])
  {
    assert (t + [a] + [b])[|t|..] == [a, b];
  }

  lemma SuffixOfSuffix<T>(s: seq<T>, t: seq<T>, u: seq<T>)
    requires IsSuffix(s, t) && IsSuffix(t, u)
    ensures IsSuffix(s, u)
  {
    assert u[|u| - |s|..] == u[|u| - |t|..][|t| - |s|..];
  }
}
