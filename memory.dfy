/**
 * The pure part of `fetchMemorySummaries`: turning the memory contents of a
 * `GetAgentMemory` response into session summaries, and classifying a failed
 * request as "memory not supported" or as an ordinary, retryable error.
 */
module Memory {
  import opened Wrappers
  import opened JsText

  /** A `sessionSummary` record; times are instants, `None` when absent. */
  datatype SessionSummary = SessionSummary(
    sessionId: string,
    summaryText: string,
    sessionStartTime: Option<int>,
    sessionEndTime: Option<int>,
    sessionExpiryTime: Option<int>)

  /** One entry of `memoryContents`; other kinds of memory record carry no `sessionSummary`. */
  datatype MemoryContent = MemoryContent(sessionSummary: Option<SessionSummary>)

  /** A summary as the memory tab shows it. */
  datatype Summary = Summary(sessionId: string, summaryText: string, startTime: Option<int>, endTime: Option<int>)

  /** `sessionEndTime || sessionExpiryTime`: a present time object is always truthy. */
  function Normalise(s: SessionSummary): (r: Summary)
    ensures r.endTime == s.sessionEndTime || r.endTime == s.sessionExpiryTime
    ensures r.endTime.Some? <==> s.sessionEndTime.Some? || s.sessionExpiryTime.Some?
    ensures s.sessionEndTime.Some? ==> r.endTime == s.sessionEndTime
  {
    Summary(s.sessionId, s.summaryText, s.sessionStartTime,
            if s.sessionEndTime.Some? then s.sessionEndTime else s.sessionExpiryTime)
  }

  /** `.filter(content => content.sessionSummary).map(...)`. */
  function Extract(cs: seq<MemoryContent>): (r: seq<Summary>)
    ensures |r| <= |cs|
    ensures forall j :: 0 <= j < |cs| && cs[j].sessionSummary.Some? ==> Normalise(cs[j].sessionSummary.value) in r
    decreases |cs|
  {
    if cs == [] then []
    else Extract(cs[..|cs| - 1])
         + (match cs[|cs| - 1].sessionSummary case Some(s) => [Normalise(s)] case None => [])
  }

  /** The summaries of a response; absent or empty `memoryContents` gives none. */
  function Summaries(memoryContents: Option<seq<MemoryContent>>): (r: seq<Summary>)
    ensures memoryContents.None? ==> r == []
    ensures memoryContents.Some? ==> r == Extract(memoryContents.value)
  {
    if memoryContents.Some? && |memoryContents.value| > 0 then Extract(memoryContents.value) else []
  }

  /** The filter keeps the original order: extraction distributes over concatenation. */
  lemma {:induction false} ExtractDistributes(a: seq<MemoryContent>, b: seq<MemoryContent>)
    ensures Extract(a + b) == Extract(a) + Extract(b)
    decreases |b|
  {
    if b == [] {
      assert a + b == a;
    } else {
      assert (a + b)[..|a + b| - 1] == a + b[..|b| - 1];
      ExtractDistributes(a, b[..|b| - 1]);
    }
  }

  /** The indices of the entries that carry a session summary. */
  function SummaryIndices(cs: seq<MemoryContent>): set<int> {
    set j | 0 <= j < |cs| && cs[j].sessionSummary.Some?
  }

  /** Appending an entry adds its index exactly when it carries a summary. */
  lemma SummaryIndicesStep(cs: seq<MemoryContent>)
    requires cs != []
    ensures |cs| - 1 !in SummaryIndices(cs[..|cs| - 1])
    ensures SummaryIndices(cs) == SummaryIndices(cs[..|cs| - 1])
      + (if cs[|cs| - 1].sessionSummary.Some? then {|cs| - 1} else {})
  {
    var init := cs[..|cs| - 1];
    assert forall j :: 0 <= j < |init| ==> init[j] == cs[j];
  }

  /** Exactly the entries carrying a session summary are kept, one summary per entry. */
  lemma {:induction false} ExtractKeepsOnlySummaries(cs: seq<MemoryContent>)
    ensures |Extract(cs)| == |SummaryIndices(cs)|
    ensures (forall j :: 0 <= j < |cs| ==> cs[j].sessionSummary.None?) ==> Extract(cs) == []
    decreases |cs|
  {
    if cs != [] {
      var init := cs[..|cs| - 1];
      ExtractKeepsOnlySummaries(init);
      SummaryIndicesStep(cs);
      if cs[|cs| - 1].sessionSummary.Some? {
        assert |Extract(cs)| == |Extract(init)| + 1;
      } else {
        assert Extract(cs) == Extract(init) + [];
        assert SummaryIndices(cs) == SummaryIndices(init) + {};
      }
    }
    if forall j :: 0 <= j < |cs| ==> cs[j].sessionSummary.None? {
      assert SummaryIndices(cs) == {};
    }
  }

  /** The outcome of a failed memory request. */
  datatype MemoryFailure = Unsupported | Transient(message: string)

  const MemoryNotEnabled: string := "Memory is not enabled"
  const ErrorPrefix: string := "Error retrieving memory: "

  /** The unsupported condition: a validation rejection, or a message saying memory is not enabled. */
  function Classify(e: JsError): (r: MemoryFailure)
    ensures r.Transient? ==> r.message == ErrorPrefix + e.message
  {
    if e.name == "ValidationException" || (e.message != "" && Contains(e.message, MemoryNotEnabled))
    then Unsupported
    else Transient(ErrorPrefix + e.message)
  }

  /** Any `ValidationException` disables memory, whatever its message. */
  lemma ValidationIsUnsupported(message: string, serialized: string)
    ensures Classify(JsError("ValidationException", message, serialized)) == Unsupported
  {
  }

  /** Any error whose message mentions that memory is not enabled disables memory, whatever its name. */
  lemma NotEnabledIsUnsupported(name: string, before: string, after: string, serialized: string)
    ensures Classify(JsError(name, before + MemoryNotEnabled + after, serialized)) == Unsupported
  {
    ContainsInfix(before, MemoryNotEnabled, after);
  }

  /** Every other error is transient and reports its own message. */
  lemma OtherErrorsAreTransient(e: JsError)
    requires e.name != "ValidationException" && !Contains(e.message, MemoryNotEnabled)
    ensures Classify(e) == Transient(ErrorPrefix + e.message)
  {
  }
}
