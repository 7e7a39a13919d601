/**
 * The chat messages (turns) of src/ChatComponent.jsx and the list
 * transformations the component applies to them: replacing the text of the
 * streaming agent message, finishing it, and dropping temporary notices.
 */
module Messages {

  /**
   * One message. Flags that a message object leaves out are `false` here,
   * which is how the component reads them (`!msg.temporary`, `message.isError`).
   */
  datatype Message = Message(
    id: string,
    text: string,
    sender: string,
    isStreaming: bool,
    isError: bool,
    isSummary: bool,
    temporary: bool)

  /** No message of `m` has `id`. */
  predicate IdUnused(m: seq<Message>, id: string) {
    forall i :: 0 <= i < |m| ==> m[i].id != id
  }

  /** `m.map(msg => msg.id === id ? {...msg, text} : msg)`: a chunk update of the streaming message. */
  function ReplaceText(m: seq<Message>, id: string, text: string): (r: seq<Message>)
    ensures |r| == |m|
  {
    if m == [] then []
    else [if m[0].id == id then m[0].(text := text) else m[0]] + ReplaceText(m[1..], id, text)
  }

  /** `m.map(msg => msg.id === id ? {...msg, text, isStreaming: false} : msg)`: the final update. */
  function FinishStreaming(m: seq<Message>, id: string, text: string): (r: seq<Message>)
    ensures |r| == |m|
  {
    if m == [] then []
    else [if m[0].id == id then m[0].(text := text, isStreaming := false) else m[0]]
         + FinishStreaming(m[1..], id, text)
  }

  /** `m.filter(msg => !msg.temporary)`. */
  function WithoutTemporary(m: seq<Message>): (r: seq<Message>)
    ensures |r| <= |m|
    ensures forall i :: 0 <= i < |r| ==> !r[i].temporary
    ensures forall i :: 0 <= i < |m| && !m[i].temporary ==> m[i] in r
    ensures forall x :: x in r ==> x in m
  {
    if m == [] then []
    else (if m[0].temporary then [] else [m[0]]) + WithoutTemporary(m[1..])
  }

  /** The number of error messages in `m`. */
  function ErrorCount(m: seq<Message>): nat {
    if m == [] then 0 else ErrorCount(m[..|m| - 1]) + (if m[|m| - 1].isError then 1 else 0)
  }

  /** The chunk update works element by element: only the messages with `id` get the new text. */
  lemma {:induction false} ReplaceTextAt(m: seq<Message>, id: string, text: string)
    ensures forall i :: 0 <= i < |m| ==>
      ReplaceText(m, id, text)[i] == if m[i].id == id then m[i].(text := text) else m[i]
    decreases |m|
  {
    if m != [] {
      ReplaceTextAt(m[1..], id, text);
      assert forall i :: 0 < i < |m| ==> ReplaceText(m, id, text)[i] == ReplaceText(m[1..], id, text)[i - 1];
    }
  }

  /** The final update works element by element: only the messages with `id` are finished. */
  lemma {:induction false} FinishStreamingAt(m: seq<Message>, id: string, text: string)
    ensures forall i :: 0 <= i < |m| ==>
      FinishStreaming(m, id, text)[i] == if m[i].id == id then m[i].(text := text, isStreaming := false) else m[i]
    decreases |m|
  {
    if m != [] {
      FinishStreamingAt(m[1..], id, text);
      assert forall i :: 0 < i < |m| ==> FinishStreaming(m, id, text)[i] == FinishStreaming(m[1..], id, text)[i - 1];
    }
  }

  /** Each chunk replaces the text, so only the latest replacement is visible. */
  lemma ReplaceTextTwice(m: seq<Message>, id: string, a: string, b: string)
    ensures ReplaceText(ReplaceText(m, id, a), id, b) == ReplaceText(m, id, b)
  {
    ReplaceTextAt(m, id, a);
    ReplaceTextAt(ReplaceText(m, id, a), id, b);
    ReplaceTextAt(m, id, b);
  }

  /** Finishing after chunk updates is the same as finishing the original list. */
  lemma FinishAfterReplace(m: seq<Message>, id: string, a: string, b: string)
    ensures FinishStreaming(ReplaceText(m, id, a), id, b) == FinishStreaming(m, id, b)
  {
    ReplaceTextAt(m, id, a);
    FinishStreamingAt(ReplaceText(m, id, a), id, b);
    FinishStreamingAt(m, id, b);
  }

  /** Messages with other ids are untouched, so a list without `id` is left as it is. */
  lemma UpdatesIgnoreOtherIds(m: seq<Message>, id: string, t: string)
    requires IdUnused(m, id)
    ensures ReplaceText(m, id, t) == m
    ensures FinishStreaming(m, id, t) == m
  {
    ReplaceTextAt(m, id, t);
    FinishStreamingAt(m, id, t);
  }

  /** The chunk and final updates work element by element, so they split over concatenation. */
  lemma UpdatesDistribute(a: seq<Message>, b: seq<Message>, id: string, t: string)
    ensures ReplaceText(a + b, id, t) == ReplaceText(a, id, t) + ReplaceText(b, id, t)
    ensures FinishStreaming(a + b, id, t) == FinishStreaming(a, id, t) + FinishStreaming(b, id, t)
  {
    var replaced, finished := ReplaceText(a, id, t) + ReplaceText(b, id, t), FinishStreaming(a, id, t) + FinishStreaming(b, id, t);
    ReplaceTextAt(a + b, id, t);
    ReplaceTextAt(a, id, t);
    ReplaceTextAt(b, id, t);
    FinishStreamingAt(a + b, id, t);
    FinishStreamingAt(a, id, t);
    FinishStreamingAt(b, id, t);
    forall i | 0 <= i < |a + b|
      ensures ReplaceText(a + b, id, t)[i] == replaced[i]
      ensures FinishStreaming(a + b, id, t)[i] == finished[i]
    {
      if i < |a| {
        assert (a + b)[i] == a[i];
      } else {
        assert (a + b)[i] == b[i - |a|];
      }
    }
  }

  /** Concatenation splits the error count. */
  lemma {:induction false} ErrorCountConcat(a: seq<Message>, b: seq<Message>)
    ensures ErrorCount(a + b) == ErrorCount(a) + ErrorCount(b)
    decreases |b|
  {
    if b != [] {
      assert (a + b)[..|a + b| - 1] == a + b[..|b| - 1];
      ErrorCountConcat(a, b[..|b| - 1]);
    } else {
      assert a + b == a;
    }
  }

  /** Text updates never turn a message into an error message or back. */
  lemma {:induction false} ReplaceTextKeepsErrorCount(m: seq<Message>, id: string, t: string)
    ensures ErrorCount(ReplaceText(m, id, t)) == ErrorCount(m)
    decreases |m|
  {
    if m != [] {
      var r := ReplaceText(m, id, t);
      ReplaceTextAt(m, id, t);
      ReplaceTextAt(m[..|m| - 1], id, t);
      assert r[..|r| - 1] == ReplaceText(m[..|m| - 1], id, t);
      ReplaceTextKeepsErrorCount(m[..|m| - 1], id, t);
    }
  }

  /** The filter keeps order: it distributes over concatenation. */
  lemma {:induction false} WithoutTemporaryDistributes(a: seq<Message>, b: seq<Message>)
    ensures WithoutTemporary(a + b) == WithoutTemporary(a) + WithoutTemporary(b)
  {
    if a != [] {
      assert (a + b)[1..] == a[1..] + b;
      WithoutTemporaryDistributes(a[1..], b);
    } else {
      assert a + b == b;
    }
  }

  /** A list with no temporary message passes the filter unchanged; in particular the filter is idempotent. */
  lemma {:induction false} WithoutTemporaryKeepsPermanent(m: seq<Message>)
    requires forall i :: 0 <= i < |m| ==> !m[i].temporary
    ensures WithoutTemporary(m) == m
  {
    if m != [] {
      WithoutTemporaryKeepsPermanent(m[1..]);
    }
  }

  /** Only temporary messages are dropped: every non-temporary message survives once per occurrence. */
  lemma {:induction false} WithoutTemporaryCounts(m: seq<Message>, x: Message)
    ensures multiset(WithoutTemporary(m))[x] == if x.temporary then 0 else multiset(m)[x]
  {
    if m != [] {
      assert m == [m[0]] + m[1..];
      WithoutTemporaryCounts(m[1..], x);
    }
  }
}
