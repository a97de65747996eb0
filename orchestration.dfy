/**
 * The message handling of a `Pipeline` (hive/hive/orchestration.py): messages
 * from agents outside the pipeline are rewritten into user context before the
 * inner graph flow sees them, and the flow's stream is split into the items
 * passed on and one final `Response`.
 *
 * The inner flow itself is a parameter (`run`, `runStream`); which sources are
 * pipeline participants is the predicate `isParticipant`, and `str.lower` is
 * the parameter `lower`.
 */
module Orchestration {
  import opened Wrappers
  import opened Values

  /** What kind of stream item a message is; `TaskResult` is the flow's closing summary. */
  datatype Kind = Text | Stop | TaskResult | Other

  /** A chat message or stream item; Python compares them field by field. */
  datatype Message = Message(source: string, content: string, kind: Kind)

  /** `Response(chat_message=..., inner_messages=...)`. */
  datatype Response = Response(chatMessage: Message, innerMessages: seq<Message>)

  /** A message that comes from neither a pipeline participant nor the user. */
  predicate Foreign(m: Message, isParticipant: string -> bool, lower: string -> string) {
    !isParticipant(m.source) && lower(m.source) != "user"
  }

  /** The text a foreign message is turned into. */
  function ContextText(m: Message): string {
    "Context from " + m.source + ": " + m.content
  }

  /** The treatment of one message by `obfuscate_nonpipeline_agents`. */
  function Obfuscate(m: Message, isParticipant: string -> bool, lower: string -> string): Message {
    if Foreign(m, isParticipant, lower) then Message("user", ContextText(m), Text) else m
  }

  /** The whole obfuscated list, built front to back as the source's loop does. */
  function ObfuscateAll(ms: seq<Message>, isParticipant: string -> bool, lower: string -> string): seq<Message>
    decreases |ms|
  {
    if ms == [] then []
    else ObfuscateAll(ms[..|ms| - 1], isParticipant, lower) + [Obfuscate(ms[|ms| - 1], isParticipant, lower)]
  }

  /** Obfuscation keeps length and order: output i is the treatment of input i alone. */
  lemma {:induction false} ObfuscateAllAt(ms: seq<Message>, isParticipant: string -> bool, lower: string -> string)
    ensures |ObfuscateAll(ms, isParticipant, lower)| == |ms|
    ensures forall i :: 0 <= i < |ms| ==> ObfuscateAll(ms, isParticipant, lower)[i] == Obfuscate(ms[i], isParticipant, lower)
    decreases |ms|
  {
    if ms != [] {
      var init := ms[..|ms| - 1];
      ObfuscateAllAt(init, isParticipant, lower);
      forall i | 0 <= i < |ms| - 1
        ensures ObfuscateAll(ms, isParticipant, lower)[i] == Obfuscate(ms[i], isParticipant, lower)
      {
        assert init[i] == ms[i];
      }
    }
  }

  /**
   * A message is left as it is exactly when it is not foreign: pipeline and
   * user messages pass through, every other one is rewritten.
   */
  lemma ObfuscateUnchangedIff(m: Message, isParticipant: string -> bool, lower: string -> string)
    ensures Obfuscate(m, isParticipant, lower) == m <==> !Foreign(m, isParticipant, lower)
  {
  }

  /** A rewritten message is a user text message carrying the original source and content. */
  lemma ObfuscateForeign(m: Message, isParticipant: string -> bool, lower: string -> string)
    requires Foreign(m, isParticipant, lower)
    ensures var r := Obfuscate(m, isParticipant, lower);
      && r.source == "user" && r.kind == Text
      && r.content == "Context from " + m.source + ": " + m.content
  {
  }

  /** After obfuscation no foreign message is left. */
  lemma ObfuscatedNotForeign(m: Message, isParticipant: string -> bool, lower: string -> string)
    requires lower("user") == "user"
    ensures !Foreign(Obfuscate(m, isParticipant, lower), isParticipant, lower)
  {
  }

  /** Obfuscation is idempotent: a second pass changes nothing. */
  lemma {:induction false} ObfuscateAllIdempotent(ms: seq<Message>, isParticipant: string -> bool, lower: string -> string)
    requires lower("user") == "user"
    ensures ObfuscateAll(ObfuscateAll(ms, isParticipant, lower), isParticipant, lower) == ObfuscateAll(ms, isParticipant, lower)
  {
    var once := ObfuscateAll(ms, isParticipant, lower);
    ObfuscateAllAt(ms, isParticipant, lower);
    ObfuscateAllAt(once, isParticipant, lower);
    forall i | 0 <= i < |once|
      ensures ObfuscateAll(once, isParticipant, lower)[i] == once[i]
    {
      ObfuscatedNotForeign(ms[i], isParticipant, lower);
    }
  }

  /** `obfuscate_nonpipeline_agents`: the loop that appends each converted message. */
  method ObfuscateNonpipelineAgents(messages: seq<Message>, isParticipant: string -> bool, lower: string -> string)
    returns (converted: seq<Message>)
    ensures converted == ObfuscateAll(messages, isParticipant, lower)
    ensures |converted| == |messages|
    ensures forall i :: 0 <= i < |messages| ==> converted[i] == Obfuscate(messages[i], isParticipant, lower)
  {
    converted := [];
    var i := 0;
    while i < |messages|
      invariant 0 <= i <= |messages|
      invariant converted == ObfuscateAll(messages[..i], isParticipant, lower)
    {
      var msg := messages[i];
      if !isParticipant(msg.source) && lower(msg.source) != "user" {
        converted := converted + [Message("user", "Context from " + msg.source + ": " + msg.content, Text)];
      } else {
        converted := converted + [msg];
      }
      assert messages[..i + 1][..i] == messages[..i];
      i := i + 1;
    }
    assert messages[..i] == messages;
    ObfuscateAllAt(messages, isParticipant, lower);
  }

  /** `on_messages`: the inner flow runs on the obfuscated messages, never on the originals. */
  method OnMessages<R>(messages: seq<Message>, isParticipant: string -> bool, lower: string -> string,
                       run: seq<Message> -> R)
    returns (r: R)
    ensures r == run(ObfuscateAll(messages, isParticipant, lower))
  {
    var obfuscated := ObfuscateNonpipelineAgents(messages, isParticipant, lower);
    r := run(obfuscated);
  }

  /** A stream item that `on_messages_stream` collects: not part of the task and not the TaskResult. */
  predicate Collectable(item: Message, task: seq<Message>) {
    item !in task && item.kind != TaskResult
  }

  /** The collected list `final_messages` after the stream `stream`. */
  function Collected(stream: seq<Message>, task: seq<Message>): seq<Message>
    decreases |stream|
  {
    if stream == [] then []
    else
      var last := stream[|stream| - 1];
      Collected(stream[..|stream| - 1], task) + (if Collectable(last, task) then [last] else [])
  }

  /** A list with its StopMessages left out. */
  function WithoutStops(ms: seq<Message>): seq<Message>
    decreases |ms|
  {
    if ms == [] then []
    else
      var last := ms[|ms| - 1];
      WithoutStops(ms[..|ms| - 1]) + (if last.kind != Stop then [last] else [])
  }

  /** The collected items are exactly the collectable items of the stream. */
  lemma {:induction false} CollectedMembers(stream: seq<Message>, task: seq<Message>, x: Message)
    ensures x in Collected(stream, task) <==> x in stream && Collectable(x, task)
    decreases |stream|
  {
    if stream != [] {
      var init := stream[..|stream| - 1];
      CollectedMembers(init, task, x);
      assert stream == init + [stream[|stream| - 1]];
    }
  }

  /** Collecting keeps the stream's order: it distributes over concatenation. */
  lemma {:induction false} CollectedAppend(a: seq<Message>, b: seq<Message>, task: seq<Message>)
    ensures Collected(a + b, task) == Collected(a, task) + Collected(b, task)
    decreases |b|
  {
    if b == [] {
      assert a + b == a;
    } else {
      var binit := b[..|b| - 1];
      CollectedAppend(a, binit, task);
      assert (a + b)[..|a + b| - 1] == a + binit;
    }
  }

  /** The items left after removing stops are exactly the non-stop items. */
  lemma {:induction false} WithoutStopsMembers(ms: seq<Message>, x: Message)
    ensures x in WithoutStops(ms) <==> x in ms && x.kind != Stop
    decreases |ms|
  {
    if ms != [] {
      var init := ms[..|ms| - 1];
      WithoutStopsMembers(init, x);
      assert ms == init + [ms[|ms| - 1]];
    }
  }

  /** Removing stops keeps the order: it distributes over concatenation. */
  lemma {:induction false} WithoutStopsAppend(a: seq<Message>, b: seq<Message>)
    ensures WithoutStops(a + b) == WithoutStops(a) + WithoutStops(b)
    decreases |b|
  {
    if b == [] {
      assert a + b == a;
    } else {
      var binit := b[..|b| - 1];
      WithoutStopsAppend(a, binit);
      assert (a + b)[..|a + b| - 1] == a + binit;
    }
  }

  /**
   * What the caller sees of a stream before the final Response: exactly the
   * stream items that are not task messages, not the TaskResult and not a stop.
   */
  lemma YieldedMembers(stream: seq<Message>, task: seq<Message>, x: Message)
    ensures x in WithoutStops(Collected(stream, task)) <==>
      x in stream && x !in task && x.kind != TaskResult && x.kind != Stop
  {
    WithoutStopsMembers(Collected(stream, task), x);
    CollectedMembers(stream, task, x);
  }

  /**
   * `on_messages_stream`: returns the items yielded before the end, and then
   * either the final Response or the IndexError that `final_messages[-1]`
   * raises when nothing was collected.
   */
  method OnMessagesStream(messages: seq<Message>, isParticipant: string -> bool, lower: string -> string,
                          runStream: seq<Message> -> seq<Message>)
    returns (yielded: seq<Message>, final: Result<Response, Exception>)
    ensures var task := ObfuscateAll(messages, isParticipant, lower);
      var collected := Collected(runStream(task), task);
      && yielded == WithoutStops(collected)
      && (final.Success? <==> collected != [])
      && (final.Failure? ==> final.error == IndexError)
      && (final.Success? ==> final.value.innerMessages + [final.value.chatMessage] == collected)
  {
    var obfuscated := ObfuscateNonpipelineAgents(messages, isParticipant, lower);
    var stream := runStream(obfuscated);
    var finalMessages: seq<Message> := [];
    yielded := [];
    var i := 0;
    while i < |stream|
      invariant 0 <= i <= |stream|
      invariant finalMessages == Collected(stream[..i], obfuscated)
      invariant yielded == WithoutStops(finalMessages)
    {
      var message := stream[i];
      assert stream[..i + 1][..i] == stream[..i];
      if message !in obfuscated && message.kind != TaskResult {
        finalMessages := finalMessages + [message];
        if message.kind != Stop {
          yielded := yielded + [message];
        }
      }
      i := i + 1;
    }
    assert stream[..i] == stream;
    if |finalMessages| == 0 {
      final := Failure(IndexError);
    } else {
      final := Success(Response(finalMessages[|finalMessages| - 1], finalMessages[..|finalMessages| - 1]));
      assert finalMessages[..|finalMessages| - 1] + [finalMessages[|finalMessages| - 1]] == finalMessages;
    }
  }
}
