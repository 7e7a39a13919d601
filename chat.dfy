/**
 * The session and streaming engine of src/ChatComponent.jsx: the component's
 * state as a class whose fields the operations update in place, local
 * storage as an abstract `Storage` value, and the remote agent, the memory
 * service and the identity provider as inputs (their results are parameters).
 * `Date.now()` readings are parameters too (`Stamps`, `EndStamps`).
 */
module Chat {
  import opened Wrappers
  import opened JsText
  import opened Messages
  import opened MessageLog
  import opened Stream
  import opened Memory
  import opened Config

  /** Local storage: the message logs plus the `lastSessionId`, `memoryId` and `appConfig` entries. */
  datatype Storage = Storage(
    logs: Log,
    lastSessionId: Option<string>,
    memoryId: Option<string>,
    appConfig: Option<AppConfig>)

  /** `tasksCompleted`. */
  datatype TaskTrace = TaskTrace(count: nat, latestRationale: string)

  /** `streamStats` without the elapsed time. */
  datatype StreamStats = StreamStats(chunkCount: nat, startTime: Option<nat>)

  /** `memorySummaries`, `memoryError`, `memorySupported` and `loadingMemory`. */
  datatype MemoryPanel = MemoryPanel(summaries: seq<Summary>, error: Option<string>, supported: bool, loading: bool)

  /** What `bedrockClient.send(InvokeAgentCommand)` yields. */
  datatype Invocation =
    | SendFailed(error: JsError)         // the call itself rejects
    | NoCompletion                       // `response.completion === undefined`
    | Streamed(events: seq<Event>, thrown: Option<JsError>)
                                         // the events in arrival order, then the error the
                                         // iterator itself throws after them, if any

  /** How `sendMessageToAgent` settles. */
  datatype SendOutcome =
    | Skipped                            // the guard returned `undefined`
    | Escaped(error: JsError)            // thrown outside the `try`: the promise rejects
    | Completed(completion: string)      // resolved with the completion
    | Failed(error: JsError)             // caught: resolved with `null`

  /** The `Date.now()` readings of one `sendMessageToAgent` call. */
  datatype Stamps = Stamps(userAt: nat, startAt: nat, agentAt: nat, storedAt: nat, errorAt: nat)

  /** The `Date.now()` readings of one `confirmEndSession` call. */
  datatype EndStamps = EndStamps(noticeAt: nat, send: Stamps, summaryAt: nat, errorAt: nat, sessionAt: nat, sessionNoticeAt: nat)

  /** What `bedrockClient.send(GetAgentMemoryCommand)` yields. */
  datatype MemoryResponse = Fetched(memoryContents: Option<seq<MemoryContent>>) | Rejected(error: JsError)

  /** The visible actions of ending a session, in the order they happen. */
  datatype EndStep = ShowEndingNotice | InvokeTermination | ShowSummarised | ScheduleRefresh | StartNewSession | ShowEndError

  const SummarizePrompt: string := "Please summarize our conversation."
  const EndingNoticeText: string := "Ending session and generating a conversation summary..."
  const SummarisedText: string := "Conversation has been summarized and stored in memory."
  const NewSessionText: string := "Starting a new conversation. Previous context will be accessible through memory."
  const AgentErrorPrefix: string := "An error occurred while processing your request. Error: "
  const EndErrorPrefix: string := "Error ending session: "
  const MemoryDisabledText: string := "Memory features are not enabled for this agent. Enable memory in the Bedrock Agent console."
  const MemoryIdPrefix: string := "memory-"

  /** `new Error("Completion is undefined")`. */
  const CompletionUndefined: JsError := PlainError("Completion is undefined")
  /** `JSON.parse(null).bedrock` when no configuration is stored. */
  const NoStoredConfig: JsError := PropertyOfNothing("null", "bedrock")

  /** A message id such as `user-1700000000000`. */
  function Stamp(prefix: string, at: nat): string {
    prefix + DecimalString(at)
  }

  function AgentMessageId(at: nat): string {
    Stamp("agent-", at)
  }

  function UserMessage(at: nat, text: string, username: string): Message {
    Message(Stamp("user-", at), text, username, false, false, false, false)
  }

  /** The streaming agent message added before the first event. */
  function Placeholder(id: string, agentName: string): Message {
    Message(id, "", agentName, true, false, false, false)
  }

  /** The agent message as stored (and as shown once streaming has finished). */
  function AgentRecord(id: string, text: string, agentName: string): Message {
    Message(id, text, agentName, false, false, false, false)
  }

  function ErrorMessage(at: nat, e: JsError): Message {
    Message(Stamp("error-", at), AgentErrorPrefix + ErrorText(e), "system", false, true, false, false)
  }

  function EndErrorMessage(at: nat, e: JsError): Message {
    Message(Stamp("error-", at), EndErrorPrefix + ErrorText(e), "system", false, true, false, false)
  }

  function EndingNotice(at: nat): Message {
    Message(Stamp("system-", at), EndingNoticeText, "system", false, false, false, false)
  }

  function SummarisedNotice(at: nat): Message {
    Message(Stamp("system-summary-", at), SummarisedText, "system", false, false, true, false)
  }

  function NewSessionNotice(at: nat): Message {
    Message(Stamp("system-", at), NewSessionText, "system", false, false, false, true)
  }

  /** How the `try` block of `sendMessageToAgent` settles for an invocation. */
  function Settle(inv: Invocation): (r: SendOutcome)
    ensures r.Completed? || r.Failed?
  {
    match inv
    case SendFailed(e) => Failed(e)
    case NoCompletion => Failed(CompletionUndefined)
    case Streamed(es, thrown) =>
      if StopAt(es) < |es| then Failed(Abort(es[StopAt(es)]).value)
      else if thrown.Some? then Failed(thrown.value)
      else Completed(Completion(es))
  }

  /** The chunks the loop handled. */
  function StreamedChunks(inv: Invocation): nat {
    if inv.Streamed? then ChunkCount(inv.events[..Consumed(inv.events)]) else 0
  }

  /** The partial texts the loop pushed to the streaming message. */
  function StreamedPartials(inv: Invocation): seq<string> {
    if inv.Streamed? then Partials(inv.events[..Consumed(inv.events)]) else []
  }

  /**
   * The visible message list after the `try` block of `sendMessageToAgent`
   * ran on `before`, the list that already shows the user's message.
   */
  function ReplyView(before: seq<Message>, endSession: bool, inv: Invocation, st: Stamps, agentName: string): seq<Message>
  {
    match inv
    case SendFailed(e) => before + [ErrorMessage(st.errorAt, e)]
    case NoCompletion => before + [ErrorMessage(st.errorAt, CompletionUndefined)]
    case Streamed(es, thrown) =>
      var id := AgentMessageId(st.agentAt);
      var started := if endSession then before else before + [Placeholder(id, agentName)];
      var handled := es[..Consumed(es)];
      var streamed :=
        if !endSession && ChunkCount(handled) > 0 then ReplaceText(started, id, Completion(handled)) else started;
      if StopAt(es) < |es| then streamed + [ErrorMessage(st.errorAt, Abort(es[StopAt(es)]).value)]
      else if thrown.Some? then streamed + [ErrorMessage(st.errorAt, thrown.value)]
      else if endSession then streamed
      else FinishStreaming(streamed, id, Completion(handled))
  }

  /** The visible message list after a send that reached the `try` block, starting from `base`. */
  function SendView(base: seq<Message>, text: string, endSession: bool, inv: Invocation, st: Stamps,
                    username: string, agentName: string): seq<Message>
  {
    ReplyView(if endSession then base else base + [UserMessage(st.userAt, text, username)], endSession, inv, st, agentName)
  }

  /** The records a normal (non-terminating) send appends to the session's log. */
  function SendRecords(text: string, inv: Invocation, st: Stamps, username: string, agentName: string): (r: seq<Message>)
    ensures |r| == 2 && r[0] == UserMessage(st.storedAt, text, username)
    ensures r[1].isError <==> Settle(inv).Failed?
    ensures Settle(inv).Completed? ==> r[1] == AgentRecord(AgentMessageId(st.agentAt), Settle(inv).completion, agentName)
    ensures Settle(inv).Failed? ==> r[1] == ErrorMessage(st.errorAt, Settle(inv).error)
  {
    var user := UserMessage(st.storedAt, text, username);
    var o := Settle(inv);
    if o.Completed? then [user, AgentRecord(AgentMessageId(st.agentAt), o.completion, agentName)]
    else [user, ErrorMessage(st.errorAt, o.error)]
  }

  /** The steps of `confirmEndSession` as written: anything but a thrown error counts as success. */
  function EndSessionStepsAsWritten(r: SendOutcome): seq<EndStep> {
    [ShowEndingNotice, InvokeTermination]
    + if r.Escaped? then [ShowEndError] else [ShowSummarised, ScheduleRefresh, StartNewSession]
  }

  /** The steps of ending a session when success is judged by the send's outcome. */
  function EndSessionSteps(r: SendOutcome): seq<EndStep> {
    [ShowEndingNotice, InvokeTermination]
    + if r.Escaped? then [ShowEndError]
      else if r.Completed? then [ShowSummarised, ScheduleRefresh, StartNewSession]
      else []
  }

  /** Why the memory request failed, if it did: a missing stored configuration fails before the request. */
  function MemoryRequestError(appConfig: Option<AppConfig>, resp: MemoryResponse): (r: Option<JsError>)
    ensures r.None? <==> appConfig.Some? && resp.Fetched?
    ensures appConfig.Some? && resp.Rejected? ==> r == Some(resp.error)
  {
    if appConfig.None? then Some(NoStoredConfig)
    else if resp.Rejected? then Some(resp.error)
    else None
  }

  /** The summary prompt is not blank, so ending a session is never stopped by the text guard. */
  lemma SummarizePromptNotBlank()
    ensures !IsBlank(SummarizePrompt)
  {
    assert SummarizePrompt[0] == 'P';
  }

  /** User, agent and error message ids never collide, whatever the clock says. */
  lemma StampPrefixesDiffer(a: nat, b: nat)
    ensures Stamp("user-", a) != AgentMessageId(b)
    ensures Stamp("error-", a) != AgentMessageId(b)
  {
    assert Stamp("user-", a)[0] == 'u';
    assert Stamp("error-", a)[0] == 'e';
    assert AgentMessageId(b)[0] == 'a';
  }

  /** A completed send consumed the whole stream: its text is the concatenation of every chunk. */
  lemma CompletedConsumesWholeStream(inv: Invocation)
    requires Settle(inv).Completed?
    ensures inv.Streamed? && StopAt(inv.events) == |inv.events| && inv.thrown.None?
    ensures Settle(inv).completion == Completion(inv.events)
    ensures StreamedChunks(inv) == ChunkCount(inv.events)
    ensures StreamedPartials(inv) == Partials(inv.events)
  {
    assert inv.events[..|inv.events|] == inv.events;
  }

  /** A completed normal send finishes the streaming message with the whole completion, whatever was shown before. */
  lemma CompletedView(before: seq<Message>, inv: Invocation, st: Stamps, agentName: string)
    requires Settle(inv).Completed?
    ensures var id := AgentMessageId(st.agentAt);
      ReplyView(before, false, inv, st, agentName)
        == FinishStreaming(before + [Placeholder(id, agentName)], id, Settle(inv).completion)
  {
    CompletedConsumesWholeStream(inv);
    var es := inv.events;
    var id := AgentMessageId(st.agentAt);
    var started := before + [Placeholder(id, agentName)];
    assert es[..Consumed(es)] == es;
    FinishAfterReplace(started, id, Completion(es), Completion(es));
  }

  /**
   * A normal send that succeeds shows exactly the user message and the
   * finished agent message after the earlier ones, and stores the pair.
   */
  lemma NormalTurnView(base: seq<Message>, text: string, inv: Invocation, st: Stamps, username: string, agentName: string)
    requires Settle(inv).Completed?
    requires IdUnused(base, AgentMessageId(st.agentAt))
    ensures var c := Settle(inv).completion;
      SendView(base, text, false, inv, st, username, agentName)
        == base + [UserMessage(st.userAt, text, username), AgentRecord(AgentMessageId(st.agentAt), c, agentName)]
      && SendRecords(text, inv, st, username, agentName)
        == [UserMessage(st.storedAt, text, username), AgentRecord(AgentMessageId(st.agentAt), c, agentName)]
  {
    var id := AgentMessageId(st.agentAt);
    var c := Settle(inv).completion;
    var user := UserMessage(st.userAt, text, username);
    var ph := Placeholder(id, agentName);
    var withUser := base + [user];
    CompletedView(withUser, inv, st, agentName);
    StampPrefixesDiffer(st.userAt, st.agentAt);
    UpdatesDistribute(withUser, [ph], id, c);
    UpdatesIgnoreOtherIds(withUser, id, c);
    FinishStreamingAt([ph], id, c);
    assert FinishStreaming(withUser + [ph], id, c) == withUser + [AgentRecord(id, c, agentName)];
  }

  /** A terminating send that succeeds adds no message at all. */
  lemma TerminationAddsNothing(base: seq<Message>, inv: Invocation, st: Stamps, username: string, agentName: string)
    requires Settle(inv).Completed?
    ensures SendView(base, SummarizePrompt, true, inv, st, username, agentName) == base
  {
    CompletedConsumesWholeStream(inv);
  }

  /**
   * A failed send ends the visible list with one system error message, and
   * it is the only error added.
   */
  lemma FailureAppendsOneError(base: seq<Message>, text: string, endSession: bool, inv: Invocation, st: Stamps,
                               username: string, agentName: string)
    requires Settle(inv).Failed?
    ensures var v := SendView(base, text, endSession, inv, st, username, agentName);
      && |v| > |base|
      && v[|v| - 1] == ErrorMessage(st.errorAt, Settle(inv).error)
      && v[|v| - 1].sender == "system" && v[|v| - 1].isError
      && ErrorCount(v) == ErrorCount(base) + 1
  {
    var v := SendView(base, text, endSession, inv, st, username, agentName);
    var err := ErrorMessage(st.errorAt, Settle(inv).error);
    var user := UserMessage(st.userAt, text, username);
    var withUser := if endSession then base else base + [user];
    ErrorCountConcat(base, [user]);
    assert ErrorCount(withUser) == ErrorCount(base) by {
      if !endSession {
        assert [user][..0] == [];
      }
    }
    assert ErrorCount([err]) == 1 by {
      assert [err][..0] == [];
    }
    if inv.Streamed? {
      var es := inv.events;
      var id := AgentMessageId(st.agentAt);
      var ph := Placeholder(id, agentName);
      var started := if endSession then withUser else withUser + [ph];
      ErrorCountConcat(withUser, [ph]);
      assert ErrorCount([ph]) == 0 by {
        assert [ph][..0] == [];
      }
      var handled := es[..Consumed(es)];
      ReplaceTextKeepsErrorCount(started, id, Completion(handled));
      var streamed :=
        if !endSession && ChunkCount(handled) > 0 then ReplaceText(started, id, Completion(handled)) else started;
      assert v == streamed + [err];
      ErrorCountConcat(streamed, [err]);
    } else {
      assert v == withUser + [err];
      ErrorCountConcat(withUser, [err]);
    }
  }

  /** A failed send keeps every message shown before it, in place, when the agent message id is new. */
  lemma FailureKeepsEarlierMessages(base: seq<Message>, text: string, endSession: bool, inv: Invocation, st: Stamps,
                                    username: string, agentName: string)
    requires Settle(inv).Failed?
    requires IdUnused(base, AgentMessageId(st.agentAt))
    ensures var v := SendView(base, text, endSession, inv, st, username, agentName);
      |v| > |base| && v[..|base|] == base
  {
    var v := SendView(base, text, endSession, inv, st, username, agentName);
    var err := ErrorMessage(st.errorAt, Settle(inv).error);
    var user := UserMessage(st.userAt, text, username);
    var id := AgentMessageId(st.agentAt);
    var ph := Placeholder(id, agentName);
    var rest := (if endSession then [] else [user]) + (if inv.Streamed? && !endSession then [ph] else []);
    var shown := base + rest;
    if inv.Streamed? {
      var es := inv.events;
      var c := Completion(es[..Consumed(es)]);
      StampPrefixesDiffer(st.userAt, st.agentAt);
      UpdatesDistribute(base, rest, id, c);
      UpdatesIgnoreOtherIds(base, id, c);
      if endSession {
        assert shown == base;
      } else {
        assert shown == base + [user] + [ph];
      }
      var streamed := if !endSession && ChunkCount(es[..Consumed(es)]) > 0 then ReplaceText(shown, id, c) else shown;
      assert streamed == base + (if !endSession && ChunkCount(es[..Consumed(es)]) > 0 then ReplaceText(rest, id, c) else rest);
      assert v == streamed + [err];
    } else {
      assert v == base + rest + [err];
    }
  }

  /** A failed termination call adds the error message and nothing else: no user and no agent message. */
  lemma TerminationFailureShowsOnlyError(base: seq<Message>, inv: Invocation, st: Stamps, username: string, agentName: string)
    requires Settle(inv).Failed?
    ensures SendView(base, SummarizePrompt, true, inv, st, username, agentName)
      == base + [ErrorMessage(st.errorAt, Settle(inv).error)]
  {
  }

  /**
   * When the iterator itself throws after the events, every chunk stays visible
   * in the streaming message and the thrown error, name and all, follows it.
   */
  lemma StreamThrowKeepsText(base: seq<Message>, text: string, es: seq<Event>, e: JsError, st: Stamps,
                             username: string, agentName: string)
    requires StopAt(es) == |es|
    requires IdUnused(base, AgentMessageId(st.agentAt))
    ensures Settle(Streamed(es, Some(e))) == Failed(e)
    ensures SendView(base, text, false, Streamed(es, Some(e)), st, username, agentName)
      == base + [UserMessage(st.userAt, text, username),
                 Placeholder(AgentMessageId(st.agentAt), agentName).(text := Completion(es)),
                 ErrorMessage(st.errorAt, e)]
  {
    var id := AgentMessageId(st.agentAt);
    var user := UserMessage(st.userAt, text, username);
    var ph := Placeholder(id, agentName);
    var err := ErrorMessage(st.errorAt, e);
    StreamThrowView(base + [user], es, e, st, agentName);
    if ChunkCount(es) == 0 {
      NoChunksNoText(es);
    }
    StampPrefixesDiffer(st.userAt, st.agentAt);
    StreamedTail(base, user, ph, Completion(es), ChunkCount(es));
    var v := SendView(base, text, false, Streamed(es, Some(e)), st, username, agentName);
    var shown := ph.(text := Completion(es));
    assert v == base + [user, shown] + [err];
    AppendThird(base, user, shown, err);
  }

  /**
   * Appending a third message to a list ending in two others. A helper only:
   * proved on its own it is cheap, while inline in `StreamThrowKeepsText` the
   * same step is costly.
   */
  lemma AppendThird(base: seq<Message>, a: Message, b: Message, c: Message)
    ensures base + [a, b] + [c] == base + [a, b, c]
  {
  }

  /** An iterator that throws after every event was handled shows the whole streamed text, then the error. */
  lemma StreamThrowView(before: seq<Message>, es: seq<Event>, e: JsError, st: Stamps, agentName: string)
    requires StopAt(es) == |es|
    ensures var id := AgentMessageId(st.agentAt); var ph := Placeholder(id, agentName);
      ReplyView(before, false, Streamed(es, Some(e)), st, agentName)
        == (if ChunkCount(es) > 0 then ReplaceText(before + [ph], id, Completion(es)) else before + [ph])
           + [ErrorMessage(st.errorAt, e)]
  {
    assert es[..Consumed(es)] == es;
  }

  /** The chunk updates of the streaming message leave the earlier messages alone. */
  lemma StreamedTail(base: seq<Message>, user: Message, ph: Message, c: string, chunks: nat)
    requires IdUnused(base, ph.id) && user.id != ph.id
    requires chunks == 0 ==> c == ph.text
    ensures (if chunks > 0 then ReplaceText(base + [user] + [ph], ph.id, c) else base + [user] + [ph])
      == base + [user, ph.(text := c)]
  {
    assert base + [user] + [ph] == base + [user, ph];
    if chunks > 0 {
      UpdatesDistribute(base, [user, ph], ph.id, c);
      UpdatesIgnoreOtherIds(base, ph.id, c);
      ReplaceTextAt([user, ph], ph.id, c);
    }
  }

  /** A stream that throws mid-way shows the text streamed before the throw, then the error. */
  lemma StreamFailureView(before: seq<Message>, es: seq<Event>, thrown: Option<JsError>, st: Stamps, agentName: string)
    requires StopAt(es) < |es|
    ensures var k := StopAt(es); var id := AgentMessageId(st.agentAt); var ph := Placeholder(id, agentName);
      ReplyView(before, false, Streamed(es, thrown), st, agentName)
        == (if ChunkCount(es[..k]) > 0 then ReplaceText(before + [ph], id, Completion(es[..k])) else before + [ph])
           + [ErrorMessage(st.errorAt, Abort(es[k]).value)]
  {
    var k := StopAt(es);
    TraceStep(es, k);
    var handled := es[..Consumed(es)];
    assert handled == es[..k + 1];
    assert Completion(handled) == Completion(es[..k]) && ChunkCount(handled) == ChunkCount(es[..k]);
  }

  /** Partial agent text shown before a mid-stream failure stays visible, ahead of the error. */
  lemma FailureKeepsPartialText(base: seq<Message>, text: string, es: seq<Event>, thrown: Option<JsError>, st: Stamps,
                                username: string, agentName: string)
    requires StopAt(es) < |es|
    requires IdUnused(base, AgentMessageId(st.agentAt))
    ensures var v := SendView(base, text, false, Streamed(es, thrown), st, username, agentName);
      && |v| == |base| + 3
      && v[..|base|] == base
      && v[|base|] == UserMessage(st.userAt, text, username)
      && v[|base| + 1] == Placeholder(AgentMessageId(st.agentAt), agentName).(text := Completion(es[..StopAt(es)]))
  {
    var id := AgentMessageId(st.agentAt);
    var user := UserMessage(st.userAt, text, username);
    var ph := Placeholder(id, agentName);
    var k := StopAt(es);
    var c := Completion(es[..k]);
    var err := ErrorMessage(st.errorAt, Abort(es[k]).value);
    StreamFailureView(base + [user], es, thrown, st, agentName);
    if ChunkCount(es[..k]) == 0 {
      NoChunksNoText(es[..k]);
    }
    StampPrefixesDiffer(st.userAt, st.agentAt);
    StreamedTail(base, user, ph, c, ChunkCount(es[..k]));
    var v := SendView(base, text, false, Streamed(es, thrown), st, username, agentName);
    assert v == base + [user, ph.(text := c)] + [err];
    assert v == base + [user, ph.(text := c), err];
  }

  /** As written, a failed termination call is still reported as a summary and replaced by a new session. */
  lemma EndSessionAsWrittenReportsFailureAsSuccess(e: JsError)
    ensures Settle(SendFailed(e)) == Failed(e)
    ensures EndSessionStepsAsWritten(Failed(e))
      == [ShowEndingNotice, InvokeTermination, ShowSummarised, ScheduleRefresh, StartNewSession]
  {
  }

  /**
   * Judged by the outcome, a summary is reported and a new session started
   * exactly when the termination call completed, and then in the order:
   * notice, termination call, success notice, delayed refresh, new session.
   */
  lemma EndSessionStepsFollowOutcome(r: SendOutcome)
    ensures StartNewSession in EndSessionSteps(r) <==> r.Completed?
    ensures ShowSummarised in EndSessionSteps(r) <==> r.Completed?
    ensures ShowEndError in EndSessionSteps(r) <==> r.Escaped?
    ensures r.Completed? ==> EndSessionSteps(r) == EndSessionStepsAsWritten(r)
    ensures r.Escaped? ==> EndSessionSteps(r) == EndSessionStepsAsWritten(r)
  {
  }

  /** The running state of the `for await` loop. */
  datatype LoopState = LoopState(
    completion: string,
    chunkCount: nat,
    failure: Option<JsError>,
    shownMessages: seq<Message>,
    tasks: TaskTrace,
    stats: StreamStats)

  /**
   * The loop body's effect on one event: a trace bumps the task counter and
   * either throws or records its rationale; a chunk extends the completion,
   * bumps the chunk counter and, unless the session is being ended, shows
   * the completion so far in the streaming message.
   */
  predicate Steps(e: Event, endSession: bool, id: string, s: LoopState, t: LoopState) {
    && t.completion == (if e.Chunk? then s.completion + e.text else s.completion)
    && t.chunkCount == s.chunkCount + (if e.Chunk? then 1 else 0)
    && t.failure == Abort(e)
    && t.tasks.count == s.tasks.count + (if e.Trace? then 1 else 0)
    && t.tasks.latestRationale == (match e
                                   case Trace(None, Orchestration(Some(r))) => r
                                   case _ => s.tasks.latestRationale)
    && t.stats == (if e.Chunk? then s.stats.(chunkCount := t.chunkCount) else s.stats)
    && t.shownMessages == (if e.Chunk? && !endSession then ReplaceText(s.shownMessages, id, t.completion)
                           else s.shownMessages)
  }

  /**
   * The loop state after the first `i` events, starting from the messages
   * `m0`, the task trace `t0` and the statistics `s0`; `shown` is what the
   * streaming message displayed so far.
   */
  ghost predicate Folded(events: seq<Event>, i: nat, endSession: bool, id: string, m0: seq<Message>, t0: TaskTrace,
                         s0: StreamStats, s: LoopState, shown: seq<string>)
  {
    && i <= |events|
    && (s.failure.None? ==> i <= StopAt(events))
    && (s.failure.Some? ==>
          StopAt(events) < |events| && i == StopAt(events) + 1 && s.failure == Abort(events[StopAt(events)]))
    && s.completion == Completion(events[..i])
    && s.chunkCount == ChunkCount(events[..i])
    && s.tasks == TaskTrace(t0.count + TaskCount(events[..i]), LatestRationale(events[..i], t0.latestRationale))
    && s.stats == (if s.chunkCount == 0 then s0 else s0.(chunkCount := s.chunkCount))
    && s.shownMessages == (if !endSession && s.chunkCount > 0 then ReplaceText(m0, id, s.completion) else m0)
    && shown == (if endSession then [] else Partials(events[..i]))
  }

  /** Handling the next event keeps the loop state equal to the fold of the events handled so far. */
  lemma FoldedStep(events: seq<Event>, i: nat, endSession: bool, id: string, m0: seq<Message>, t0: TaskTrace,
                   s0: StreamStats, s: LoopState, t: LoopState, shown: seq<string>)
    requires i < |events| && s.failure.None?
    requires Folded(events, i, endSession, id, m0, t0, s0, s, shown)
    requires Steps(events[i], endSession, id, s, t)
    ensures Folded(events, i + 1, endSession, id, m0, t0, s0, t,
                   if events[i].Chunk? && !endSession then shown + [t.completion] else shown)
  {
    FoldStep(events, i, t0.latestRationale);
    StopAtFirst(events);
    if events[i].Chunk? && !endSession && s.chunkCount > 0 {
      ReplaceTextTwice(m0, id, s.completion, t.completion);
    }
  }

  /** Once the loop stops, the folded state is the fold of exactly the events it consumed. */
  lemma FoldedDone(events: seq<Event>, i: nat, endSession: bool, id: string, m0: seq<Message>, t0: TaskTrace,
                   s0: StreamStats, s: LoopState, shown: seq<string>)
    requires Folded(events, i, endSession, id, m0, t0, s0, s, shown)
    requires !(i < |events| && s.failure.None?)
    ensures i == Consumed(events)
    ensures s.completion == Completion(events[..Consumed(events)])
    ensures s.chunkCount == ChunkCount(events[..Consumed(events)])
    ensures s.failure == if StopAt(events) < |events| then Abort(events[StopAt(events)]) else None
    ensures s.tasks == TaskTrace(t0.count + TaskCount(events[..Consumed(events)]),
                                 LatestRationale(events[..Consumed(events)], t0.latestRationale))
    ensures s.stats == if s.chunkCount == 0 then s0 else s0.(chunkCount := s.chunkCount)
    ensures s.shownMessages == if !endSession && s.chunkCount > 0 then ReplaceText(m0, id, s.completion) else m0
    ensures shown == if endSession then [] else Partials(events[..Consumed(events)])
  {
  }

  /** The body of the `for await` loop for one event. */
  method HandleEvent(e: Event, endSession: bool, agentMessageId: string, s: LoopState) returns (t: LoopState)
    ensures Steps(e, endSession, agentMessageId, s, t)
  {
    t := s.(failure := None);
    match e {
      case Trace(failureReason, orchestration) =>
        t := t.(tasks := t.tasks.(count := t.tasks.count + 1));
        if failureReason.Some? {
          t := t.(failure := Some(PlainError(failureReason.value)));
        } else if orchestration.NoOrchestration? {
          t := t.(failure := Some(OrchestrationMissing));
        } else if orchestration.rationale.Some? {
          t := t.(tasks := t.tasks.(latestRationale := orchestration.rationale.value));
        }
      case Chunk(text) =>
        t := t.(chunkCount := t.chunkCount + 1, completion := t.completion + text);
        if !endSession {
          t := t.(shownMessages := ReplaceText(t.shownMessages, agentMessageId, t.completion));
        }
        t := t.(stats := t.stats.(chunkCount := t.chunkCount));
    }
  }

  /** One turn of the `for await` loop: handle the next event and extend the fold by it. */
  method FoldNext(events: seq<Event>, i: nat, endSession: bool, id: string, m0: seq<Message>, t0: TaskTrace,
                  s0: StreamStats, s: LoopState, ghost shown: seq<string>)
    returns (t: LoopState, ghost shown': seq<string>)
    requires i < |events| && s.failure.None?
    requires Folded(events, i, endSession, id, m0, t0, s0, s, shown)
    ensures Folded(events, i + 1, endSession, id, m0, t0, s0, t, shown')
  {
    t := HandleEvent(events[i], endSession, id, s);
    FoldedStep(events, i, endSession, id, m0, t0, s0, s, t, shown);
    shown' := if events[i].Chunk? && !endSession then shown + [t.completion] else shown;
  }

  /**
   * The `for await` loop: fold the events in order until one throws,
   * starting from the visible `messages`, the task trace `tasks` and the
   * statistics `stats`. It counts traces and chunks, accumulates the
   * completion and, unless the session is being ended, replaces the
   * streaming message's text with the completion so far after every chunk.
   */
  method FoldEvents(events: seq<Event>, endSession: bool, agentMessageId: string, messages: seq<Message>,
                    tasks: TaskTrace, stats: StreamStats)
    returns (t: LoopState, ghost shown: seq<string>)
    ensures t.completion == Completion(events[..Consumed(events)])
    ensures t.chunkCount == ChunkCount(events[..Consumed(events)])
    ensures t.failure == if StopAt(events) < |events| then Abort(events[StopAt(events)]) else None
    ensures t.tasks == TaskTrace(tasks.count + TaskCount(events[..Consumed(events)]),
                                 LatestRationale(events[..Consumed(events)], tasks.latestRationale))
    ensures t.stats == if t.chunkCount == 0 then stats else stats.(chunkCount := t.chunkCount)
    ensures t.shownMessages == if !endSession && t.chunkCount > 0
                               then ReplaceText(messages, agentMessageId, t.completion) else messages
    ensures shown == if endSession then [] else Partials(events[..Consumed(events)])
  {
    t := LoopState("", 0, None, messages, tasks, stats);
    shown := [];
    var i := 0;
    assert events[..0] == [];
    while i < |events| && t.failure.None?
      invariant Folded(events, i, endSession, agentMessageId, messages, tasks, stats, t, shown)
      decreases |events| - i
    {
      t, shown := FoldNext(events, i, endSession, agentMessageId, messages, tasks, stats, t, shown);
      i := i + 1;
    }
    FoldedDone(events, i, endSession, agentMessageId, messages, tasks, stats, t, shown);
  }

  /**
   * The `try`/`catch` of `sendMessageToAgent` on the values it works with:
   * `view0` is the visible list (already showing the user's message), and
   * the results are the outcome, the new visible list, the records to store
   * for a normal send, and the new statistics.
   */
  method TryInvoke(text: string, endSession: bool, inv: Invocation, st: Stamps, username: string, agentName: string,
                   view0: seq<Message>, tasks0: TaskTrace, stats0: StreamStats)
    returns (r: SendOutcome, view: seq<Message>, records: seq<Message>, stats: StreamStats, ghost shown: seq<string>)
    ensures r == Settle(inv)
    ensures view == ReplyView(view0, endSession, inv, st, agentName)
    ensures !endSession ==> records == SendRecords(text, inv, st, username, agentName)
    ensures stats == if StreamedChunks(inv) == 0 then stats0 else stats0.(chunkCount := StreamedChunks(inv))
    ensures shown == if endSession then [] else StreamedPartials(inv)
  {
    shown, view, stats, records := [], view0, stats0, [];
    var failure: Option<JsError> := None;
    var completion := "";
    match inv {
      case SendFailed(e) =>
        failure := Some(e);
      case NoCompletion =>
        failure := Some(CompletionUndefined);
      case Streamed(events, thrown) =>
        var agentMessageId := AgentMessageId(st.agentAt);
        if !endSession {
          view := view + [Placeholder(agentMessageId, agentName)];
        }
        var state;
        state, shown := FoldEvents(events, endSession, agentMessageId, view, tasks0, stats0);
        view, stats, completion, failure := state.shownMessages, state.stats, state.completion, state.failure;
        if failure.None? {
          failure := thrown;
        }
        if failure.None? {
          assert events[..|events|] == events;
          if !endSession {
            view := FinishStreaming(view, agentMessageId, completion);
            records := [UserMessage(st.storedAt, text, username), AgentRecord(agentMessageId, completion, agentName)];
          }
        }
    }
    if failure.Some? {
      var errorMessage := ErrorMessage(st.errorAt, failure.value);
      view := view + [errorMessage];
      records := [UserMessage(st.storedAt, text, username), errorMessage];
      r := Failed(failure.value);
    } else {
      r := Completed(completion);
    }
  }

  class ChatComponent {
    const username: string
    /** `agentName.value`. */
    const agentName: string
    /** Whether `bedrockClient` is set. */
    const hasClient: bool

    var store: Storage
    var messages: seq<Message>
    /** `newMessage`, the text in the prompt box. */
    var draft: string
    var sessionId: Option<string>
    var memoryId: Option<string>
    var isAgentResponding: bool
    var isEndingSession: bool
    var tasks: TaskTrace
    var stats: StreamStats
    var memory: MemoryPanel

    /** The initial `useState` values. */
    constructor (username: string, agentName: string, hasClient: bool, store: Storage)
      ensures this.username == username && this.agentName == agentName && this.hasClient == hasClient
      ensures this.store == store && messages == [] && draft == ""
      ensures sessionId == None && memoryId == None
      ensures !isAgentResponding && !isEndingSession
      ensures tasks == TaskTrace(0, "") && stats == StreamStats(0, None)
      ensures memory == MemoryPanel([], None, true, false)
    {
      this.username := username;
      this.agentName := agentName;
      this.hasClient := hasClient;
      this.store := store;
      messages := [];
      draft := "";
      sessionId := None;
      memoryId := None;
      isAgentResponding := false;
      isEndingSession := false;
      tasks := TaskTrace(0, "");
      stats := StreamStats(0, None);
      memory := MemoryPanel([], None, true, false);
    }

    /** The guard shared by `handleSubmit` and `sendMessageToAgent`. */
    predicate Ready(text: string)
      reads this
    {
      !IsBlank(text) && Truthy(sessionId) && hasClient
    }

    /**
     * The state after a send that passed the guard, relative to the state
     * before it (`m0`, `s0`, `t0`, `c0`, `busy0`) and the captured session id `sid`.
     */
    ghost predicate SentFrom(m0: seq<Message>, s0: Storage, t0: TaskTrace, c0: StreamStats, busy0: bool, sid: string,
                             text: string, endSession: bool, inv: Invocation, auth: Option<JsError>, st: Stamps,
                             r: SendOutcome)
      reads this
    {
      if s0.appConfig.None? then
        && r == Escaped(NoStoredConfig)
        && messages == m0 && store == s0 && tasks == t0 && stats == c0 && isAgentResponding == busy0
      else if auth.Some? then
        && r == Escaped(auth.value)
        && messages == (if endSession then m0 else m0 + [UserMessage(st.userAt, text, username)])
        && store == s0 && tasks == t0
        && isAgentResponding && stats == StreamStats(0, Some(st.startAt))
      else
        && r == Settle(inv)
        && messages == SendView(m0, text, endSession, inv, st, username, agentName)
        && store == (if endSession then s0
                     else s0.(logs := Append(s0.logs, sid, SendRecords(text, inv, st, username, agentName))))
        && tasks == TaskTrace(0, "")
        && !isAgentResponding && stats == StreamStats(StreamedChunks(inv), Some(st.startAt))
    }

    /** `setNewMessage` from the prompt box. */
    method SetDraft(text: string)
      modifies this
      ensures draft == text
      ensures store == old(store) && messages == old(messages) && sessionId == old(sessionId)
      ensures memoryId == old(memoryId) && isAgentResponding == old(isAgentResponding)
      ensures isEndingSession == old(isEndingSession) && tasks == old(tasks) && stats == old(stats)
      ensures memory == old(memory)
    {
      draft := text;
    }

    /** `storeMessages`: read-merge-write of the session's log. */
    method StoreMessages(id: string, newMessages: seq<Message>)
      modifies this
      ensures store == old(store).(logs := Append(old(store.logs), id, newMessages))
      ensures messages == old(messages) && draft == old(draft) && sessionId == old(sessionId)
      ensures memoryId == old(memoryId) && isAgentResponding == old(isAgentResponding)
      ensures isEndingSession == old(isEndingSession) && tasks == old(tasks) && stats == old(stats)
      ensures memory == old(memory)
    {
      var currentMessages := Read(store.logs, id);
      var updatedMessages := currentMessages + newMessages;
      store := store.(logs := store.logs[MessagesKey(id) := updatedMessages]);
    }

    /** `createNewSession`: a fresh id, an empty stored list, one temporary notice; the memory id is kept. */
    method CreateNewSession(sessionAt: nat, noticeAt: nat)
      modifies this
      ensures sessionId == Some(DecimalString(sessionAt)) && Truthy(sessionId)
      ensures messages == [NewSessionNotice(noticeAt)]
      ensures store == old(store).(lastSessionId := Some(DecimalString(sessionAt)),
                                   logs := Reset(old(store.logs), DecimalString(sessionAt)))
      ensures memoryId == old(memoryId) && draft == old(draft) && isAgentResponding == old(isAgentResponding)
      ensures isEndingSession == old(isEndingSession) && tasks == old(tasks) && stats == old(stats)
      ensures memory == old(memory)
    {
      var newSessionId := DecimalString(sessionAt);
      sessionId := Some(newSessionId);
      messages := [];
      store := store.(lastSessionId := Some(newSessionId));
      store := store.(logs := store.logs[MessagesKey(newSessionId) := []]);
      messages := [NewSessionNotice(noticeAt)];
    }

    /** `loadExistingSession`: resume the last session and its stored messages, or create a new one. */
    method LoadExistingSession(sessionAt: nat, noticeAt: nat)
      modifies this
      ensures Truthy(sessionId)
      ensures Truthy(old(store.lastSessionId)) ==>
        && sessionId == old(store.lastSessionId)
        && messages == Read(old(store.logs), old(store.lastSessionId).value)
        && store == old(store)
      ensures !Truthy(old(store.lastSessionId)) ==>
        && sessionId == Some(DecimalString(sessionAt))
        && messages == [NewSessionNotice(noticeAt)]
        && store == old(store).(lastSessionId := Some(DecimalString(sessionAt)),
                                logs := Reset(old(store.logs), DecimalString(sessionAt)))
      ensures memoryId == old(memoryId) && draft == old(draft) && isAgentResponding == old(isAgentResponding)
      ensures isEndingSession == old(isEndingSession) && tasks == old(tasks) && stats == old(stats)
      ensures memory == old(memory)
    {
      var lastSessionId := store.lastSessionId;
      if Truthy(lastSessionId) {
        sessionId := lastSessionId;
        var loadedMessages := Read(store.logs, lastSessionId.value);
        messages := loadedMessages;
      } else {
        CreateNewSession(sessionAt, noticeAt);
      }
    }

    /**
     * The start-up effect: once a client exists and no session is set, load
     * or create the session, then take the stored memory id or derive it
     * from the user name and store it. Afterwards the guard no longer holds,
     * so running it again changes nothing.
     */
    method StartOrResume(sessionAt: nat, noticeAt: nat)
      modifies this
      ensures !old(hasClient && !Truthy(sessionId)) ==> unchanged(this)
      ensures old(hasClient && !Truthy(sessionId)) ==>
        && Truthy(sessionId) && Truthy(memoryId) && store.memoryId == memoryId
        && memoryId == (if Truthy(old(store.memoryId)) then old(store.memoryId) else Some(MemoryIdPrefix + username))
        && (Truthy(old(store.lastSessionId)) ==>
              && sessionId == old(store.lastSessionId)
              && messages == Read(old(store.logs), old(store.lastSessionId).value)
              && store == old(store).(memoryId := memoryId))
        && (!Truthy(old(store.lastSessionId)) ==>
              && sessionId == Some(DecimalString(sessionAt))
              && messages == [NewSessionNotice(noticeAt)]
              && store == old(store).(lastSessionId := Some(DecimalString(sessionAt)),
                                      logs := Reset(old(store.logs), DecimalString(sessionAt)),
                                      memoryId := memoryId))
      ensures draft == old(draft) && isAgentResponding == old(isAgentResponding)
      ensures isEndingSession == old(isEndingSession) && tasks == old(tasks) && stats == old(stats)
      ensures memory == old(memory)
    {
      if hasClient && !Truthy(sessionId) {
        LoadExistingSession(sessionAt, noticeAt);
        var storedMemoryId := store.memoryId;
        if Truthy(storedMemoryId) {
          memoryId := storedMemoryId;
        } else {
          var userMemoryId := MemoryIdPrefix + username;
          memoryId := Some(userMemoryId);
          store := store.(memoryId := Some(userMemoryId));
        }
      }
    }

    /**
     * The `try`/`catch`/`finally` of `sendMessageToAgent`, entered once the
     * user's message is shown and the call is authorised; `sid` is the
     * session id captured when the send began.
     */
    method InvokeAgent(sid: string, text: string, endSession: bool, inv: Invocation, st: Stamps)
      returns (r: SendOutcome, ghost shown: seq<string>)
      modifies this
      ensures r == Settle(inv)
      ensures messages == ReplyView(old(messages), endSession, inv, st, agentName)
      ensures store == if endSession then old(store)
                       else old(store).(logs := Append(old(store.logs), sid, SendRecords(text, inv, st, username, agentName)))
      ensures tasks == TaskTrace(0, "") && !isAgentResponding
      ensures stats == if StreamedChunks(inv) == 0 then old(stats) else old(stats).(chunkCount := StreamedChunks(inv))
      ensures shown == if endSession then [] else StreamedPartials(inv)
      ensures sessionId == old(sessionId) && memoryId == old(memoryId) && draft == old(draft)
      ensures isEndingSession == old(isEndingSession) && memory == old(memory)
    {
      var view, records, streamStats;
      r, view, records, streamStats, shown := TryInvoke(text, endSession, inv, st, username, agentName, messages, tasks, stats);
      messages, stats := view, streamStats;
      if !endSession {
        StoreMessages(sid, records);
      }
      isAgentResponding := false;
      tasks := TaskTrace(0, "");
    }

    /**
     * `sendMessageToAgent(text, endSession)`. `inv` is what the agent call
     * yields and `auth` the failure of `fetchAuthSession`, if any.
     */
    method SendMessageToAgent(text: string, endSession: bool, inv: Invocation, auth: Option<JsError>, st: Stamps)
      returns (r: SendOutcome, ghost shown: seq<string>)
      modifies this
      ensures !old(Ready(text)) ==> r == Skipped && unchanged(this)
      ensures old(Ready(text)) ==>
        SentFrom(old(messages), old(store), old(tasks), old(stats), old(isAgentResponding), old(sessionId).value,
                 text, endSession, inv, auth, st, r)
      ensures shown == if !endSession && (r.Completed? || r.Failed?) then StreamedPartials(inv) else []
      ensures sessionId == old(sessionId) && memoryId == old(memoryId) && draft == old(draft)
      ensures isEndingSession == old(isEndingSession) && memory == old(memory)
    {
      if IsBlank(text) || !Truthy(sessionId) || !hasClient {
        return Skipped, [];
      }
      if store.appConfig.None? {
        return Escaped(NoStoredConfig), [];
      }
      var sid := sessionId.value;
      if !endSession {
        messages := messages + [UserMessage(st.userAt, text, username)];
      }
      isAgentResponding := true;
      stats := StreamStats(0, Some(st.startAt));
      if auth.Some? {
        return Escaped(auth.value), [];
      }
      r, shown := InvokeAgent(sid, text, endSession, inv, st);
    }

    /** `handleSubmit`: drop temporary notices, clear the prompt box and send its text. */
    method HandleSubmit(inv: Invocation, auth: Option<JsError>, st: Stamps)
      returns (r: Option<SendOutcome>, ghost shown: seq<string>)
      modifies this
      ensures !old(Ready(draft)) ==> r == None && unchanged(this)
      ensures old(Ready(draft)) ==>
        && r.Some? && draft == ""
        && SentFrom(WithoutTemporary(old(messages)), old(store), old(tasks), old(stats), old(isAgentResponding),
                    old(sessionId).value, old(draft), false, inv, auth, st, r.value)
      ensures sessionId == old(sessionId) && memoryId == old(memoryId)
      ensures isEndingSession == old(isEndingSession) && memory == old(memory)
    {
      shown := [];
      r := None;
      if !IsBlank(draft) && Truthy(sessionId) && hasClient {
        messages := WithoutTemporary(messages);
        var message := draft;
        draft := "";
        var outcome;
        outcome, shown := SendMessageToAgent(message, false, inv, auth, st);
        r := Some(outcome);
      }
    }

    /**
     * `confirmEndSession`, with success judged by the outcome of the
     * termination call (see `EndSessionStepsAsWritten` for the code as
     * written): show a notice, invoke the agent with the session-end flag,
     * and only when that completed show the success notice, schedule the
     * memory refresh and start a new session. Nothing is stored for the
     * ended session.
     */
    method ConfirmEndSession(inv: Invocation, auth: Option<JsError>, st: EndStamps)
      returns (r: SendOutcome, steps: seq<EndStep>)
      modifies this
      ensures steps == EndSessionSteps(r)
      ensures r == if !old(Truthy(sessionId) && hasClient) then Skipped
                   else if old(store.appConfig).None? then Escaped(NoStoredConfig)
                   else if auth.Some? then Escaped(auth.value)
                   else Settle(inv)
      ensures r.Completed? ==>
        && sessionId == Some(DecimalString(st.sessionAt))
        && messages == [NewSessionNotice(st.sessionNoticeAt)]
        && store == old(store).(lastSessionId := Some(DecimalString(st.sessionAt)),
                                logs := Reset(old(store.logs), DecimalString(st.sessionAt)))
      ensures !r.Completed? ==> sessionId == old(sessionId) && store == old(store)
      ensures r.Skipped? ==> messages == old(messages) + [EndingNotice(st.noticeAt)]
      ensures r.Failed? ==>
        messages == SendView(old(messages) + [EndingNotice(st.noticeAt)], SummarizePrompt, true, inv, st.send,
                             username, agentName)
      ensures r.Escaped? ==> messages == old(messages) + [EndingNotice(st.noticeAt), EndErrorMessage(st.errorAt, r.error)]
      ensures isAgentResponding == if r.Skipped? || old(store.appConfig).None? then old(isAgentResponding) else r.Escaped?
      ensures tasks == if r.Completed? || r.Failed? then TaskTrace(0, "") else old(tasks)
      ensures stats == if r.Completed? || r.Failed? then StreamStats(StreamedChunks(inv), Some(st.send.startAt))
                       else if r.Escaped? && old(store.appConfig).Some? then StreamStats(0, Some(st.send.startAt))
                       else old(stats)
      ensures !isEndingSession && memoryId == old(memoryId) && draft == old(draft) && memory == old(memory)
    {
      SummarizePromptNotBlank();
      isEndingSession := true;
      messages := messages + [EndingNotice(st.noticeAt)];
      steps := [ShowEndingNotice, InvokeTermination];
      ghost var shown;
      r, shown := SendMessageToAgent(SummarizePrompt, true, inv, auth, st.send);
      if r.Escaped? {
        messages := messages + [EndErrorMessage(st.errorAt, r.error)];
        steps := steps + [ShowEndError];
      } else if r.Completed? {
        messages := messages + [SummarisedNotice(st.summaryAt)];
        steps := steps + [ShowSummarised, ScheduleRefresh];
        CreateNewSession(st.sessionAt, st.sessionNoticeAt);
        steps := steps + [StartNewSession];
      }
      isEndingSession := false;
    }

    /**
     * `fetchMemorySummaries`: without a client or a memory id nothing happens;
     * otherwise the summaries are replaced on success, and on failure
     * "memory not supported" clears `supported` while any other error only
     * records its message; the previous summaries are kept on failure.
     */
    method FetchMemorySummaries(resp: MemoryResponse)
      modifies this
      ensures !old(hasClient && Truthy(memoryId)) ==> unchanged(this)
      ensures old(hasClient && Truthy(memoryId)) ==>
        var failure := MemoryRequestError(old(store.appConfig), resp);
        && !memory.loading
        && (failure.None? ==>
              memory == old(memory).(summaries := Summaries(resp.memoryContents), error := None, loading := false))
        && (failure.Some? && Classify(failure.value) == Unsupported ==>
              memory == old(memory).(error := Some(MemoryDisabledText), supported := false, loading := false))
        && (failure.Some? && Classify(failure.value).Transient? ==>
              memory == old(memory).(error := Some(Classify(failure.value).message), loading := false))
      ensures store == old(store) && messages == old(messages) && draft == old(draft)
      ensures sessionId == old(sessionId) && memoryId == old(memoryId) && isAgentResponding == old(isAgentResponding)
      ensures isEndingSession == old(isEndingSession) && tasks == old(tasks) && stats == old(stats)
    {
      if !hasClient || !Truthy(memoryId) {
        return;
      }
      memory := memory.(loading := true, error := None);
      var failure: Option<JsError> := None;
      if store.appConfig.None? {
        failure := Some(NoStoredConfig);
      } else {
        match resp {
          case Fetched(contents) =>
            if contents.Some? && |contents.value| > 0 {
              memory := memory.(summaries := Extract(contents.value));
            } else {
              memory := memory.(summaries := []);
            }
          case Rejected(e) =>
            failure := Some(e);
        }
      }
      if failure.Some? {
        match Classify(failure.value) {
          case Unsupported =>
            memory := memory.(supported := false, error := Some(MemoryDisabledText));
          case Transient(message) =>
            memory := memory.(error := Some(message));
        }
      }
      memory := memory.(loading := false);
    }
  }
}
