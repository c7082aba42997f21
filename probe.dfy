/**
 * The prebuffer probe (`open_stream`): open the stream, read one chunk of
 * CHUNK_SIZE bytes, and hand that chunk back only if there was one, so
 * that no output is created for a stream that yields nothing.
 */
module Probe {
  import opened Io
  import CopyLoop

  /** What `stream.open()` does: fail with a StreamError, or give a stream whose reads are scripted. */
  datatype OpenAttempt = OpenFails | Opens(script: seq<ReadOutcome>)

  /** An opened stream after the probe: the chunk it read, and the reads still to come. */
  datatype Opened = Opened(prebuffer: seq<byte>, rest: seq<ReadOutcome>)

  /** The probe's events, and the opened stream or the message of the StreamError it raised. */
  datatype ProbeOutcome = ProbeOutcome(trace: seq<Event>, result: Result<Opened, Msg>)

  /** The i-th entry of a script of open attempts; past its end every open fails. */
  function AttemptAt(opens: seq<OpenAttempt>, i: nat): OpenAttempt
  {
    if i < |opens| then opens[i] else OpenFails
  }

  /** The reads of a script after its first one. */
  function AfterFirst(script: seq<ReadOutcome>): seq<ReadOutcome>
  {
    if script == [] then [] else script[1..]
  }

  /** `open_stream(stream)`. */
  function OpenStream(a: OpenAttempt): (p: ProbeOutcome)
    // an open failure is reported as such, before anything is read
    ensures a.OpenFails? ==> p.trace == [OpenSource] && p.result == Err(CouldNotOpen)
    // after a successful open, exactly one read of CHUNK_SIZE bytes, and nothing else
    ensures a.Opens? ==> p.trace == [OpenSource, ReadSource(CHUNK_SIZE)]
    ensures a.Opens? && ReadAt(a.script, 0).ReadFault? ==> p.result == Err(ProbeReadFailed)
    ensures a.Opens? && ReadAt(a.script, 0) == Data([]) ==> p.result == Err(NoData)
    // success exactly when that read gave some bytes, which become the prebuffer
    ensures p.result.Ok? <==> a.Opens? && ReadAt(a.script, 0).Data? && |ReadAt(a.script, 0).bytes| > 0
    ensures p.result.Ok? ==> && |p.result.value.prebuffer| > 0
                             && ReadAt(a.script, 0) == Data(p.result.value.prebuffer)
                             && a.script == [Data(p.result.value.prebuffer)] + p.result.value.rest
    // every failure is one of the three StreamErrors
    ensures p.result.Err? ==> p.result.error in {CouldNotOpen, ProbeReadFailed, NoData}
  {
    match a
    case OpenFails => ProbeOutcome([OpenSource], Err(CouldNotOpen))
    case Opens(script) =>
      var t := [OpenSource, ReadSource(CHUNK_SIZE)];
      match ReadAt(script, 0)
      case ReadFault => ProbeOutcome(t, Err(ProbeReadFailed))
      case Data(b) =>
        if |b| == 0 then ProbeOutcome(t, Err(NoData))
        else ProbeOutcome(t, Ok(Opened(b, AfterFirst(script))))
  }

  /** The data run of a script read from its second read on is the run of the script without its first read. */
  lemma {:induction false} DataRunShift(script: seq<ReadOutcome>, pos: nat)
    requires 1 <= pos && script != []
    ensures CopyLoop.DataRun(script[1..], pos - 1) == CopyLoop.DataRun(script, pos)
    ensures CopyLoop.RunEnd(script[1..], pos - 1) == CopyLoop.RunEnd(script, pos)
    decreases |script| - pos
  {
    if pos < |script| {
      assert script[1..][pos - 1] == script[pos];
      DataRunShift(script, pos + 1);
    }
  }

  /**
   * Probing loses nothing: the chunks the copy loop is then fed (the
   * prebuffer, then the reads after it) are exactly the stream's own data
   * run, and that run ends the same way.
   */
  lemma ProbeThenFeed(a: OpenAttempt)
    requires OpenStream(a).result.Ok?
    ensures var o := OpenStream(a).result.value;
            && CopyLoop.Feed(o.rest, 0, o.prebuffer) == CopyLoop.DataRun(a.script, 0)
            && CopyLoop.RunEnd(o.rest, 0) == CopyLoop.RunEnd(a.script, 0)
  {
    DataRunShift(a.script, 1);
  }
}
