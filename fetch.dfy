/**
 * Fetching the streams of a URL from its plugin, and `fetch_streams_infinite`,
 * which fetches again after every wait until the plugin returns some.
 */
module Fetch {
  import opened Io
  import opened Names

  /** What one `plugin.get_streams(...)` call does: return a dictionary (maybe empty) or raise a PluginError. */
  datatype FetchOutcome = Fetched(streams: Streams) | PluginFails

  /** The i-th fetch of a script; past its end the plugin keeps failing. */
  function FetchAt(fetches: seq<FetchOutcome>, i: nat): FetchOutcome
  {
    if i < |fetches| then fetches[i] else PluginFails
  }

  /** A fetch that gives a non-empty dictionary (Python's truthiness). */
  predicate Truthy(f: FetchOutcome)
  {
    f.Fetched? && f.streams != []
  }

  /** The index of the first fetch from `from` on that gives some streams, or the script's length. */
  function FirstTruthy(fetches: seq<FetchOutcome>, from: nat): (j: nat)
    requires from <= |fetches|
    decreases |fetches| - from
    ensures from <= j <= |fetches|
    ensures forall i :: from <= i < j ==> !Truthy(fetches[i])
    ensures j < |fetches| ==> Truthy(fetches[j])
  {
    if from == |fetches| || Truthy(fetches[from]) then from else FirstTruthy(fetches, from + 1)
  }

  /** The counts of the events `fetch_streams_infinite` reports on, after one more event. */
  lemma SnocFetchCounts(t: seq<Event>, e: Event, interval: nat)
    ensures Count(t + [e], FetchStreams) == Count(t, FetchStreams) + (if e == FetchStreams then 1 else 0)
    ensures Count(t + [e], Sleep(interval)) == Count(t, Sleep(interval)) + (if e == Sleep(interval) then 1 else 0)
    ensures Count(t + [e], Log(Info, WaitingForStreams))
            == Count(t, Log(Info, WaitingForStreams)) + (if e == Log(Info, WaitingForStreams) then 1 else 0)
  {
    SnocCount(t, e, FetchStreams);
    SnocCount(t, e, Sleep(interval));
    SnocCount(t, e, Log(Info, WaitingForStreams));
  }

  /** The events of the first fetch: fetch, log a plugin error, and announce the wait unless streams came. */
  function Start(got: FetchOutcome): seq<Event>
  {
    [FetchStreams] + (if got.PluginFails? then [Log(Error, FetchFailed)] else [])
      + (if Truthy(got) then [] else [Log(Info, WaitingForStreams)])
  }

  lemma FetchStart(got: FetchOutcome, interval: nat)
    ensures Count(Start(got), FetchStreams) == 1
    ensures Count(Start(got), Sleep(interval)) == 0
    ensures Count(Start(got), Log(Info, WaitingForStreams)) == if Truthy(got) then 0 else 1
  {
    CountOne(FetchStreams, FetchStreams);
    CountOne(FetchStreams, Sleep(interval));
    CountOne(FetchStreams, Log(Info, WaitingForStreams));
    var t := [FetchStreams] + (if got.PluginFails? then [Log(Error, FetchFailed)] else []);
    SnocFetchCounts([FetchStreams], Log(Error, FetchFailed), interval);
    SnocFetchCounts(t, Log(Info, WaitingForStreams), interval);
    AppendEmpty([FetchStreams]);
    AppendEmpty(t);
  }

  /** The events of one more round of the wait: sleep, fetch, and log a plugin error. */
  function Round(got: FetchOutcome, interval: nat): seq<Event>
  {
    [Sleep(interval), FetchStreams] + (if got.PluginFails? then [Log(Error, FetchFailed)] else [])
  }

  lemma FetchRound(t: seq<Event>, got: FetchOutcome, interval: nat)
    ensures Count(t + Round(got, interval), FetchStreams) == Count(t, FetchStreams) + 1
    ensures Count(t + Round(got, interval), Sleep(interval)) == Count(t, Sleep(interval)) + 1
    ensures Count(t + Round(got, interval), Log(Info, WaitingForStreams)) == Count(t, Log(Info, WaitingForStreams))
  {
    SnocFetchCounts(t, Sleep(interval), interval);
    SnocFetchCounts(t + [Sleep(interval)], FetchStreams, interval);
    SnocFetchCounts(t + [Sleep(interval)] + [FetchStreams], Log(Error, FetchFailed), interval);
    assert t + Round(got, interval) == if got.PluginFails? then t + [Sleep(interval)] + [FetchStreams] + [Log(Error, FetchFailed)]
                                       else t + [Sleep(interval)] + [FetchStreams];
  }

  /** The rounds of the wait from the `k`-th fetch on, up to the first that gives streams or the end of the script. */
  function Rounds(fetches: seq<FetchOutcome>, k: nat, interval: nat): seq<Event>
    decreases |fetches| - k
  {
    if k >= |fetches| then []
    else Round(fetches[k], interval) + (if Truthy(fetches[k]) then [] else Rounds(fetches, k + 1, interval))
  }

  /** The rounds from the `k`-th fetch are its round, then the rest unless it gave streams. */
  lemma RoundsStep(fetches: seq<FetchOutcome>, k: nat, interval: nat, trace: seq<Event>)
    requires k < |fetches|
    ensures trace + Rounds(fetches, k, interval)
            == (trace + Round(fetches[k], interval)) + (if Truthy(fetches[k]) then [] else Rounds(fetches, k + 1, interval))
  {
    var rest := if Truthy(fetches[k]) then [] else Rounds(fetches, k + 1, interval);
    assert trace + (Round(fetches[k], interval) + rest) == (trace + Round(fetches[k], interval)) + rest;
  }

  /** The events of `fetch_streams_infinite`: the first fetch, then the rounds of the wait if it gave no streams. */
  function Waiting(fetches: seq<FetchOutcome>, interval: nat): seq<Event>
  {
    Start(FetchAt(fetches, 0)) + (if Truthy(FetchAt(fetches, 0)) then [] else Rounds(fetches, 1, interval))
  }

  /**
   * `fetch_streams_infinite(plugin, interval)`. The source waits for ever;
   * here the wait ends with None when the script of fetches runs out.
   */
  method FetchStreamsInfinite(fetches: seq<FetchOutcome>, interval: nat) returns (trace: seq<Event>, r: Option<Streams>)
    // the result is the first non-empty dictionary the plugin returns
    ensures var j := FirstTruthy(fetches, 0);
            && (r.Some? <==> j < |fetches|)
            && (r.Some? ==> r.value == fetches[j].streams && r.value != [])
    ensures trace == Waiting(fetches, interval)
  {
    var got := FetchAt(fetches, 0);
    trace := Start(got);
    var streams: Streams := if got.Fetched? then got.streams else [];
    var k: nat := 1;
    while streams == []
      invariant 1 <= k && (k <= |fetches| || k == 1)
      invariant forall i :: 0 <= i < k - 1 ==> i < |fetches| && !Truthy(fetches[i])
      invariant streams == [] && k - 1 < |fetches| ==> !Truthy(fetches[k - 1])
      invariant streams != [] ==> k - 1 < |fetches| && fetches[k - 1] == Fetched(streams)
      invariant Waiting(fetches, interval) == trace + (if streams != [] then [] else Rounds(fetches, k, interval))
      decreases |fetches| - k, if streams == [] then 1 else 0
    {
      if k >= |fetches| {
        assert FirstTruthy(fetches, 0) == |fetches|;
        AppendEmpty(trace);
        return trace, None;
      }
      got := fetches[k];
      RoundsStep(fetches, k, interval, trace);
      trace := trace + Round(got, interval);
      if got.Fetched? {
        streams := got.streams;
      }
      k := k + 1;
    }
    assert FirstTruthy(fetches, 0) == k - 1 by {
      FirstTruthyIs(fetches, 0, k - 1);
    }
    AppendEmpty(trace);
    r := Some(streams);
  }

  /**
   * The wait fetches once per attempt, up to the first that gives streams
   * (or the end of the script), sleeps `interval` seconds between attempts,
   * and says "Waiting for streams" once, unless the first fetch already gave
   * streams.
   */
  lemma WaitingCounts(fetches: seq<FetchOutcome>, interval: nat)
    ensures var j := FirstTruthy(fetches, 0);
            var t := Waiting(fetches, interval);
            && Count(t, FetchStreams) == (if j < |fetches| then j + 1 else if fetches == [] then 1 else |fetches|)
            && Count(t, Sleep(interval)) + 1 == Count(t, FetchStreams)
            && Count(t, Log(Info, WaitingForStreams)) == (if j == 0 && fetches != [] then 0 else 1)
  {
    var got := FetchAt(fetches, 0);
    FetchStart(got, interval);
    if !Truthy(got) && fetches != [] {
      var rest := Rounds(fetches, 1, interval);
      RoundsCounts(fetches, 1, interval);
      assert FirstTruthy(fetches, 0) == FirstTruthy(fetches, 1);
      CountConcat(Start(got), rest, FetchStreams);
      CountConcat(Start(got), rest, Sleep(interval));
      CountConcat(Start(got), rest, Log(Info, WaitingForStreams));
    } else {
      AppendEmpty(Start(got));
    }
  }

  /** The rounds from the `k`-th fetch: one sleep and one fetch each, up to the first that gives streams. */
  lemma {:induction false} RoundsCounts(fetches: seq<FetchOutcome>, k: nat, interval: nat)
    requires k <= |fetches|
    ensures var j := FirstTruthy(fetches, k);
            var n := if j < |fetches| then j - k + 1 else |fetches| - k;
            var t := Rounds(fetches, k, interval);
            Count(t, FetchStreams) == n && Count(t, Sleep(interval)) == n && Count(t, Log(Info, WaitingForStreams)) == 0
    decreases |fetches| - k
  {
    if k < |fetches| {
      var rest := if Truthy(fetches[k]) then [] else Rounds(fetches, k + 1, interval);
      FetchRound([], fetches[k], interval);
      assert [] + Round(fetches[k], interval) == Round(fetches[k], interval);
      if !Truthy(fetches[k]) {
        RoundsCounts(fetches, k + 1, interval);
      }
      CountConcat(Round(fetches[k], interval), rest, FetchStreams);
      CountConcat(Round(fetches[k], interval), rest, Sleep(interval));
      CountConcat(Round(fetches[k], interval), rest, Log(Info, WaitingForStreams));
    }
  }

  /** An index whose fetch gives streams, with none before it, is the first such index. */
  lemma {:induction false} FirstTruthyIs(fetches: seq<FetchOutcome>, from: nat, j: nat)
    requires from <= j < |fetches| && Truthy(fetches[j])
    requires forall i :: from <= i < j ==> !Truthy(fetches[i])
    ensures FirstTruthy(fetches, from) == j
    decreases j - from
  {
    if from < j {
      FirstTruthyIs(fetches, from + 1, j);
    }
  }
}
