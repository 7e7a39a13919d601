/**
 * The per-session message log kept in local storage under the key
 * `messages_<sessionId>` (`fetchMessagesForSession`, `storeMessages` and the
 * reset done by `createNewSession`). The store is an abstract map from keys
 * to the parsed message list.
 */
module MessageLog {
  import opened Messages

  type Log = map<string, seq<Message>>

  const KeyPrefix: string := "messages_"

  /** The storage key of a session's messages. */
  function MessagesKey(sessionId: string): (k: string)
    ensures |k| == |KeyPrefix| + |sessionId| && k[..|KeyPrefix|] == KeyPrefix
    ensures k[|KeyPrefix|..] == sessionId
  {
    KeyPrefix + sessionId
  }

  /** Different sessions never share a key. */
  lemma MessagesKeyInjective(a: string, b: string)
    requires a != b
    ensures MessagesKey(a) != MessagesKey(b)
  {
  }

  /** `fetchMessagesForSession`: the stored list, or the empty list when the key is absent. */
  function Read(log: Log, sessionId: string): (r: seq<Message>)
    ensures MessagesKey(sessionId) !in log ==> r == []
  {
    if MessagesKey(sessionId) in log then log[MessagesKey(sessionId)] else []
  }

  /** `storeMessages`: read the stored list, append the new messages and write the whole list back. */
  function Append(log: Log, sessionId: string, newMessages: seq<Message>): (r: Log)
    ensures Read(r, sessionId) == Read(log, sessionId) + newMessages
    ensures forall other :: other != sessionId ==> Read(r, other) == Read(log, other)
    ensures r.Keys == log.Keys + {MessagesKey(sessionId)}
  {
    var updated := Read(log, sessionId) + newMessages;
    var r := log[MessagesKey(sessionId) := updated];
    forall other | other != sessionId
      ensures Read(r, other) == Read(log, other)
    {
      MessagesKeyInjective(other, sessionId);
    }
    r
  }

  /** `localStorage.setItem(`messages_${id}`, '[]')`: the session starts with an empty list. */
  function Reset(log: Log, sessionId: string): (r: Log)
    ensures Read(r, sessionId) == []
    ensures forall other :: other != sessionId ==> Read(r, other) == Read(log, other)
  {
    var r := log[MessagesKey(sessionId) := []];
    forall other | other != sessionId
      ensures Read(r, other) == Read(log, other)
    {
      MessagesKeyInjective(other, sessionId);
    }
    r
  }

  /** Appending successive batches, e.g. the records of successive turns, in order. */
  function AppendAll(log: Log, sessionId: string, batches: seq<seq<Message>>): Log
    decreases |batches|
  {
    if batches == [] then log
    else Append(AppendAll(log, sessionId, batches[..|batches| - 1]), sessionId, batches[|batches| - 1])
  }

  /** Everything in the batches, in order. */
  function Flatten(batches: seq<seq<Message>>): seq<Message>
    decreases |batches|
  {
    if batches == [] then [] else Flatten(batches[..|batches| - 1]) + batches[|batches| - 1]
  }

  /**
   * After any number of appends, the session's list is what was stored before
   * followed by every appended message in order: nothing earlier is dropped or
   * edited, and other sessions are untouched.
   */
  lemma {:induction false} AppendAllExtends(log: Log, sessionId: string, batches: seq<seq<Message>>)
    ensures Read(AppendAll(log, sessionId, batches), sessionId) == Read(log, sessionId) + Flatten(batches)
    ensures forall other :: other != sessionId ==>
      Read(AppendAll(log, sessionId, batches), other) == Read(log, other)
    decreases |batches|
  {
    if batches != [] {
      AppendAllExtends(log, sessionId, batches[..|batches| - 1]);
    }
  }

  /** What was stored before an append is a prefix of what is stored after it. */
  lemma AppendKeepsPrefix(log: Log, sessionId: string, newMessages: seq<Message>, i: nat)
    requires i < |Read(log, sessionId)|
    ensures i < |Read(Append(log, sessionId, newMessages), sessionId)|
    ensures Read(Append(log, sessionId, newMessages), sessionId)[i] == Read(log, sessionId)[i]
  {
  }
}
