/**
 * The event stream of one agent invocation (`response.completion` consumed by
 * the `for await` loop of `sendMessageToAgent`) and the reference definitions
 * of what folding it yields: the accumulated completion, the chunk and task
 * counters, the latest rationale, the partial texts shown while streaming,
 * and the event at which the fold stops.
 */
module Stream {
  import opened Wrappers
  import opened JsText

  /** `trace.trace.orchestrationTrace`: absent, or present with an optional rationale text. */
  datatype Orchestration = NoOrchestration | Orchestration(rationale: Option<string>)

  /**
   * A stream event: a trace (`failure` is `Some` when `failureTrace` is defined,
   * holding the `failureReason` the code reads, `""` when that is absent) or a
   * chunk whose bytes are already decoded to text.
   */
  datatype Event =
    | Trace(failure: Option<string>, orchestration: Orchestration)
    | Chunk(text: string)

  /** Reading `.rationale` of a missing `orchestrationTrace` throws this. */
  const OrchestrationMissing: JsError := PropertyOfNothing("undefined", "rationale")

  /** The error an event throws inside the loop, if any. */
  function Abort(e: Event): (r: Option<JsError>)
    ensures r.Some? ==> e.Trace?
    ensures e.Trace? && e.failure.Some? ==> r == Some(PlainError(e.failure.value))
  {
    match e
    case Chunk(_) => None
    case Trace(Some(reason), _) => Some(PlainError(reason))
    case Trace(None, NoOrchestration) => Some(OrchestrationMissing)
    case Trace(None, Orchestration(_)) => None
  }

  predicate Aborts(e: Event) {
    Abort(e).Some?
  }

  /** The index of the first event that throws, or `|es|` when none does. */
  function StopAt(es: seq<Event>): (k: nat)
    ensures k <= |es|
    ensures k < |es| ==> Aborts(es[k])
  {
    if es == [] then 0 else if Aborts(es[0]) then 0 else 1 + StopAt(es[1..])
  }

  /** No event before the stop point throws, so the stop point is the first event that does. */
  lemma {:induction false} StopAtFirst(es: seq<Event>)
    ensures forall j :: 0 <= j < StopAt(es) ==> !Aborts(es[j])
    decreases |es|
  {
    if es != [] && !Aborts(es[0]) {
      StopAtFirst(es[1..]);
      assert forall j :: 0 < j < StopAt(es) ==> es[j] == es[1..][j - 1];
    }
  }

  /** How many events the loop handles: up to and including the one that throws. */
  function Consumed(es: seq<Event>): (n: nat)
    ensures n <= |es|
    ensures es != [] ==> n > 0
    ensures forall j :: 0 <= j < n - 1 ==> !Aborts(es[j])
    ensures n < |es| ==> n > 0 && Aborts(es[n - 1])
  {
    StopAtFirst(es);
    if StopAt(es) < |es| then StopAt(es) + 1 else |es|
  }

  function TextOf(e: Event): string {
    if e.Chunk? then e.text else ""
  }

  /** The in-order concatenation of all chunk texts. */
  function Completion(es: seq<Event>): string
    decreases |es|
  {
    if es == [] then "" else Completion(es[..|es| - 1]) + TextOf(es[|es| - 1])
  }

  /** The number of chunk events. */
  function ChunkCount(es: seq<Event>): nat
    decreases |es|
  {
    if es == [] then 0 else ChunkCount(es[..|es| - 1]) + (if es[|es| - 1].Chunk? then 1 else 0)
  }

  /** The number of trace events. */
  function TaskCount(es: seq<Event>): nat
    decreases |es|
  {
    if es == [] then 0 else TaskCount(es[..|es| - 1]) + (if es[|es| - 1].Trace? then 1 else 0)
  }

  /** The rationale text of the last non-throwing trace that carries one, or `initial`. */
  function LatestRationale(es: seq<Event>, initial: string): string
    decreases |es|
  {
    if es == [] then initial
    else match es[|es| - 1]
      case Trace(None, Orchestration(Some(t))) => t
      case _ => LatestRationale(es[..|es| - 1], initial)
  }

  /** The completion so far after each chunk: the texts pushed to the streaming message, in order. */
  function Partials(es: seq<Event>): seq<string>
    decreases |es|
  {
    if es == [] then []
    else Partials(es[..|es| - 1]) + (if es[|es| - 1].Chunk? then [Completion(es)] else [])
  }

  /** Handling one more event extends every fold by that event alone. */
  lemma FoldStep(es: seq<Event>, i: nat, initial: string)
    requires i < |es|
    ensures Completion(es[..i + 1]) == if es[i].Chunk? then Completion(es[..i]) + es[i].text else Completion(es[..i])
    ensures ChunkCount(es[..i + 1]) == ChunkCount(es[..i]) + (if es[i].Chunk? then 1 else 0)
    ensures TaskCount(es[..i + 1]) == TaskCount(es[..i]) + (if es[i].Trace? then 1 else 0)
    ensures LatestRationale(es[..i + 1], initial) ==
      match es[i]
      case Trace(None, Orchestration(Some(t))) => t
      case _ => LatestRationale(es[..i], initial)
    ensures Partials(es[..i + 1]) == if es[i].Chunk? then Partials(es[..i]) + [Completion(es[..i + 1])] else Partials(es[..i])
  {
    assert es[..i + 1][..i] == es[..i];
    assert Completion(es[..i]) + "" == Completion(es[..i]);
    assert Partials(es[..i]) + [] == Partials(es[..i]);
  }

  /** A stream without chunks completes with the empty text. */
  lemma {:induction false} NoChunksNoText(es: seq<Event>)
    requires ChunkCount(es) == 0
    ensures Completion(es) == ""
    decreases |es|
  {
    if es != [] {
      NoChunksNoText(es[..|es| - 1]);
    }
  }

  /** The completion of a stream is the completion of its parts, joined. */
  lemma {:induction false} CompletionConcat(a: seq<Event>, b: seq<Event>)
    ensures Completion(a + b) == Completion(a) + Completion(b)
    ensures ChunkCount(a + b) == ChunkCount(a) + ChunkCount(b)
    decreases |b|
  {
    if b == [] {
      assert a + b == a;
    } else {
      assert (a + b)[..|a + b| - 1] == a + b[..|b| - 1];
      CompletionConcat(a, b[..|b| - 1]);
    }
  }

  /** A stream made only of chunks concatenates their texts and counts each one. */
  lemma {:induction false} ChunksOnly(texts: seq<string>, es: seq<Event>)
    requires |es| == |texts|
    requires forall i :: 0 <= i < |es| ==> es[i] == Chunk(texts[i])
    ensures StopAt(es) == |es| && Consumed(es) == |es|
    ensures ChunkCount(es) == |texts|
    ensures Completion(es) == Joined(texts)
    decreases |es|
  {
    if es != [] {
      ChunksOnly(texts[..|texts| - 1], es[..|es| - 1]);
    }
  }

  function Joined(texts: seq<string>): string
    decreases |texts|
  {
    if texts == [] then "" else Joined(texts[..|texts| - 1]) + texts[|texts| - 1]
  }

  /** The example stream "Hel", "lo, ", "world" yields "Hello, world" after three chunks. */
  lemma HelloWorld()
    ensures var es := [Chunk("Hel"), Chunk("lo, "), Chunk("world")];
      Completion(es) == "Hello, world" && ChunkCount(es) == 3 && Consumed(es) == 3
      && Partials(es) == ["Hel", "Hello, ", "Hello, world"]
  {
    var es := [Chunk("Hel"), Chunk("lo, "), Chunk("world")];
    assert es[..2] == [Chunk("Hel"), Chunk("lo, ")];
    assert es[..2][..1] == [Chunk("Hel")];
    assert [Chunk("Hel")][..0] == [];
    assert Completion([Chunk("Hel")]) == "Hel";
    assert Partials([Chunk("Hel")]) == ["Hel"];
    assert Completion(es[..2]) == "Hello, ";
    assert Partials(es[..2]) == ["Hel", "Hello, "];
  }

  /**
   * One partial per chunk; each partial is a prefix of every later one and of
   * the completion, and the last partial is the completion itself.
   */
  lemma {:induction false} PartialsGrow(es: seq<Event>)
    ensures |Partials(es)| == ChunkCount(es)
    ensures forall i :: 0 <= i < |Partials(es)| ==> Partials(es)[i] <= Completion(es)
    ensures forall i, j :: 0 <= i <= j < |Partials(es)| ==> Partials(es)[i] <= Partials(es)[j]
    ensures ChunkCount(es) > 0 ==> Partials(es)[|Partials(es)| - 1] == Completion(es)
    decreases |es|
  {
    if es != [] {
      var init := es[..|es| - 1];
      PartialsGrow(init);
      if es[|es| - 1].Chunk? {
        assert Completion(es) == Completion(init) + es[|es| - 1].text;
        assert Partials(es) == Partials(init) + [Completion(es)];
      } else {
        assert Completion(es) == Completion(init) + "" == Completion(init);
        assert Partials(es) == Partials(init) + [] == Partials(init);
      }
    }
  }

  /** Once an event throws, whatever follows it is never looked at. */
  lemma {:induction false} AbortIgnoresRest(es: seq<Event>, rest: seq<Event>)
    requires StopAt(es) < |es|
    ensures StopAt(es + rest) == StopAt(es)
    ensures Consumed(es + rest) == Consumed(es)
    ensures (es + rest)[..Consumed(es)] == es[..Consumed(es)]
    decreases |es|
  {
    if !Aborts(es[0]) {
      assert (es + rest)[1..] == es[1..] + rest;
      AbortIgnoresRest(es[1..], rest);
    }
  }

  /** A failed trace always stops the fold there, with its reason as the error message. */
  lemma FailureTraceStops(es: seq<Event>, i: nat, reason: string)
    requires i < |es| && es[i].Trace? && es[i].failure == Some(reason)
    requires forall j :: 0 <= j < i ==> !Aborts(es[j])
    ensures StopAt(es) == i && Consumed(es) == i + 1
    ensures Abort(es[i]) == Some(PlainError(reason))
    ensures TaskCount(es[..i + 1]) == TaskCount(es[..i]) + 1
    ensures Completion(es[..i + 1]) == Completion(es[..i])
  {
    StopAtIs(es, i);
    TraceStep(es, i);
  }

  /** Handling a trace adds no text and one task. */
  lemma TraceStep(es: seq<Event>, i: nat)
    requires i < |es| && es[i].Trace?
    ensures Completion(es[..i + 1]) == Completion(es[..i])
    ensures TaskCount(es[..i + 1]) == TaskCount(es[..i]) + 1
    ensures ChunkCount(es[..i + 1]) == ChunkCount(es[..i])
  {
    assert es[..i + 1][..i] == es[..i];
    assert Completion(es[..i]) + "" == Completion(es[..i]);
  }

  /** The stop point is the first event that throws. */
  lemma {:induction false} StopAtIs(es: seq<Event>, i: nat)
    requires i < |es| && Aborts(es[i])
    requires forall j :: 0 <= j < i ==> !Aborts(es[j])
    ensures StopAt(es) == i
    decreases i
  {
    if i > 0 {
      assert !Aborts(es[0]);
      assert forall j :: 0 <= j < i - 1 ==> es[1..][j] == es[j + 1];
      StopAtIs(es[1..], i - 1);
    }
  }
}
