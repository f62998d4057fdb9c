/*
 * The response-shaping layer of the Wikipedia agent: how the structured
 * output left in a session's checkpointed graph state becomes the
 * three-field record handed to the task layer, and how the states the
 * graph emits while it runs become a stream of such records.
 *
 * The graph itself (model calls, tool calls, checkpointing) is not part of
 * this model: the states it emits and the structured response it leaves
 * behind are inputs.
 */
module Agent {

  datatype Option<+T> = None | Some(value: T)

  /** The three values `ResponseFormat.status` is validated against. */
  datatype Status = InputRequired | Completed | Error

  /**
   * The structured answer the graph is asked to produce. As in the source,
   * the status may be omitted and then defaults to InputRequired:
   * `ResponseFormat(message := m)`.
   */
  datatype ResponseFormat = ResponseFormat(status: Status := InputRequired, message: string)

  /** What the `structured_response` entry of the checkpointed state holds. */
  datatype StructuredResponse =
    | Missing                              // no entry, or None
    | Unrecognised                         // some value that is not a ResponseFormat
    | Recognised(response: ResponseFormat)

  /** The record crossing into the task layer. */
  datatype AgentResult = AgentResult(isTaskComplete: bool, requireUserInput: bool, content: string)

  /**
   * The `[streaming]` configuration: `working_messages[0]`,
   * `working_messages[1]` and `error_message`.
   */
  datatype StreamingConfig = StreamingConfig(toolCallMessage: string, toolResultMessage: string, errorMessage: string)

  /** The last message of one state emitted by the graph. */
  datatype Message =
    | AIMessage(toolCalls: nat)            // an AI message and the length of its tool_calls list
    | ToolMessage
    | OtherMessage                         // user messages and anything else

  // ---------------------------------------------------------------------
  // Extraction of the final result (get_agent_response)
  // ---------------------------------------------------------------------

  /**
   * The result built from the structured response found in the session's
   * state. Total: an absent or unrecognised response degrades to the
   * configured error message instead of failing.
   */
  function AgentResponse(sr: StructuredResponse, cfg: StreamingConfig): (r: AgentResult)
    ensures r.isTaskComplete != r.requireUserInput
    ensures r.isTaskComplete <==> sr.Recognised? && sr.response.status == Completed
    ensures r.content == if sr.Recognised? then sr.response.message else cfg.errorMessage
  {
    match sr
    case Recognised(rf) =>
      (match rf.status
       case InputRequired | Error => AgentResult(false, true, rf.message)
       case Completed => AgentResult(true, false, rf.message))
    case _ => AgentResult(false, true, cfg.errorMessage)
  }

  /** The status table: completed finishes the task, the other two ask the user. */
  lemma StatusTable(rf: ResponseFormat, cfg: StreamingConfig)
    ensures rf.status == Completed ==>
      AgentResponse(Recognised(rf), cfg) == AgentResult(true, false, rf.message)
    ensures rf.status in {InputRequired, Error} ==>
      AgentResponse(Recognised(rf), cfg) == AgentResult(false, true, rf.message)
  {
  }

  /** Without a recognised structured response the result is the configured error. */
  lemma FallbackResult(cfg: StreamingConfig)
    ensures AgentResponse(Missing, cfg) == AgentResult(false, true, cfg.errorMessage)
    ensures AgentResponse(Unrecognised, cfg) == AgentResult(false, true, cfg.errorMessage)
  {
  }

  /** A response built from a message alone asks the user for input. */
  lemma DefaultStatusAsksUser(message: string, cfg: StreamingConfig)
    ensures ResponseFormat(message := message).status == InputRequired
    ensures AgentResponse(Recognised(ResponseFormat(message := message)), cfg)
            == AgentResult(false, true, message)
  {
  }

  // ---------------------------------------------------------------------
  // Synchronous invocation (invoke)
  // ---------------------------------------------------------------------

  /**
   * `invoke` runs the graph to completion (not modelled) and extracts the
   * result from the structured response the run leaves behind.
   */
  function Invoke(postRun: StructuredResponse, cfg: StreamingConfig): (r: AgentResult)
    ensures r.isTaskComplete != r.requireUserInput
    ensures r.isTaskComplete <==> postRun.Recognised? && postRun.response.status == Completed
    ensures r.content == if postRun.Recognised? then postRun.response.message else cfg.errorMessage
  {
    AgentResponse(postRun, cfg)
  }

  // ---------------------------------------------------------------------
  // Streaming (stream)
  // ---------------------------------------------------------------------

  /** Whether a state whose last message is `m` is announced to the caller. */
  predicate Announces(m: Message)
  {
    (m.AIMessage? && m.toolCalls > 0) || m.ToolMessage?
  }

  /** The interim result a single state contributes to the stream, if any. */
  function WorkingUpdate(m: Message, cfg: StreamingConfig): (r: Option<AgentResult>)
    ensures r.Some? <==> Announces(m)
    ensures r.Some? ==> !r.value.isTaskComplete && !r.value.requireUserInput
    ensures r.Some? && m.AIMessage? ==> r.value.content == cfg.toolCallMessage
    ensures r.Some? && m.ToolMessage? ==> r.value.content == cfg.toolResultMessage
  {
    match m
    case AIMessage(n) =>
      if n > 0 then Some(AgentResult(false, false, cfg.toolCallMessage)) else None
    case ToolMessage => Some(AgentResult(false, false, cfg.toolResultMessage))
    case OtherMessage => None
  }

  /**
   * The interim results for a sequence of states, in the order the graph
   * emitted them: every announced state contributes its working update,
   * every other state nothing.
   */
  function InterimUpdates(states: seq<Message>, cfg: StreamingConfig): (r: seq<AgentResult>)
    ensures |r| <= |states|
    ensures forall k :: 0 <= k < |r| ==>
      !r[k].isTaskComplete && !r[k].requireUserInput &&
      r[k].content in {cfg.toolCallMessage, cfg.toolResultMessage}
    decreases |states|
  {
    if states == [] then []
    else
      var earlier := InterimUpdates(states[..|states| - 1], cfg);
      match WorkingUpdate(states[|states| - 1], cfg)
      case Some(u) => earlier + [u]
      case None => earlier
  }

  /** The number of announced states, counted from the front. */
  function AnnouncedCount(states: seq<Message>): nat
  {
    if states == [] then 0
    else (if Announces(states[0]) then 1 else 0) + AnnouncedCount(states[1..])
  }

  /**
   * The whole stream: the interim updates followed by exactly one final
   * result extracted from the state the run leaves behind. Only the final
   * element raises a flag, so a consumer recognises the end of the stream
   * by either flag being set.
   */
  function StreamResults(states: seq<Message>, final: StructuredResponse, cfg: StreamingConfig)
    : (r: seq<AgentResult>)
    ensures |r| >= 1 && r[|r| - 1] == AgentResponse(final, cfg)
    ensures forall k :: 0 <= k < |r| ==>
      (r[k].isTaskComplete || r[k].requireUserInput <==> k == |r| - 1)
  {
    InterimUpdates(states, cfg) + [AgentResponse(final, cfg)]
  }

  /**
   * The streaming loop: walk the emitted states in order, announce tool
   * calls and tool results, skip everything else, then yield the extracted
   * final result.
   */
  method Stream(states: seq<Message>, final: StructuredResponse, cfg: StreamingConfig)
    returns (out: seq<AgentResult>)
    ensures out == StreamResults(states, final, cfg)
  {
    out := [];
    var i := 0;
    while i < |states|
      invariant 0 <= i <= |states|
      invariant out == InterimUpdates(states[..i], cfg)
    {
      var message := states[i];
      assert states[..i + 1][..i] == states[..i];
      if message.AIMessage? && message.toolCalls > 0 {
        out := out + [AgentResult(false, false, cfg.toolCallMessage)];
      } else if message.ToolMessage? {
        out := out + [AgentResult(false, false, cfg.toolResultMessage)];
      }
      i := i + 1;
    }
    assert states[..i] == states;
    out := out + [AgentResponse(final, cfg)];
  }

  /** A single state contributes its working update if it is announced, and nothing otherwise. */
  lemma InterimUpdatesSingle(m: Message, cfg: StreamingConfig)
    ensures InterimUpdates([m], cfg) == if Announces(m) then [WorkingUpdate(m, cfg).value] else []
  {
    assert [m][..0] == [];
  }

  /** Streaming a concatenation of runs streams each part in turn: order is kept. */
  lemma {:induction false} InterimUpdatesConcat(a: seq<Message>, b: seq<Message>, cfg: StreamingConfig)
    ensures InterimUpdates(a + b, cfg) == InterimUpdates(a, cfg) + InterimUpdates(b, cfg)
    decreases |b|
  {
    if b == [] {
      assert a + b == a;
    } else {
      var front := b[..|b| - 1];
      assert (a + b)[..|a + b| - 1] == a + front;
      assert (a + b)[|a + b| - 1] == b[|b| - 1];
      InterimUpdatesConcat(a, front, cfg);
    }
  }

  /** One interim result per announced state. */
  lemma {:induction false} InterimUpdatesLength(states: seq<Message>, cfg: StreamingConfig)
    ensures |InterimUpdates(states, cfg)| == AnnouncedCount(states)
    decreases |states|
  {
    if states != [] {
      var first := [states[0]];
      assert first + states[1..] == states;
      InterimUpdatesConcat(first, states[1..], cfg);
      assert first[..0] == [];
      InterimUpdatesLength(states[1..], cfg);
    }
  }

  /** The stream is one element longer than the number of announced states. */
  lemma StreamLength(states: seq<Message>, final: StructuredResponse, cfg: StreamingConfig)
    ensures |StreamResults(states, final, cfg)| == AnnouncedCount(states) + 1
  {
    InterimUpdatesLength(states, cfg);
  }

  /** A state that is not announced adds nothing to the stream, wherever it occurs. */
  lemma SilentStatesSkipped(a: seq<Message>, m: Message, b: seq<Message>, cfg: StreamingConfig)
    requires !Announces(m)
    ensures InterimUpdates(a + [m] + b, cfg) == InterimUpdates(a + b, cfg)
  {
    assert (a + [m])[..|a|] == a;
    InterimUpdatesConcat(a + [m], b, cfg);
    InterimUpdatesConcat(a, b, cfg);
  }

  /** `invoke` and the end of `stream` agree on the same post-run state. */
  lemma InvokeMatchesStreamEnd(states: seq<Message>, final: StructuredResponse, cfg: StreamingConfig)
    ensures var r := StreamResults(states, final, cfg);
      r[|r| - 1] == Invoke(final, cfg)
  {
  }

  /**
   * A run with one tool call and one tool result, after the user's message
   * and before the closing answer, streams two working updates and then
   * the final result, in that order.
   */
  lemma OneToolRound(final: StructuredResponse, cfg: StreamingConfig)
    ensures StreamResults([OtherMessage, AIMessage(1), ToolMessage, AIMessage(0)], final, cfg)
         == [AgentResult(false, false, cfg.toolCallMessage),
             AgentResult(false, false, cfg.toolResultMessage),
             AgentResponse(final, cfg)]
  {
    var s := [OtherMessage, AIMessage(1), ToolMessage, AIMessage(0)];
    assert [OtherMessage][..0] == [];
    assert InterimUpdates([OtherMessage], cfg) == [];
    assert [OtherMessage, AIMessage(1)][..1] == [OtherMessage];
    assert InterimUpdates([OtherMessage, AIMessage(1)], cfg)
        == [AgentResult(false, false, cfg.toolCallMessage)];
    assert s[..3][..2] == [OtherMessage, AIMessage(1)];
    assert InterimUpdates(s[..3], cfg)
        == [AgentResult(false, false, cfg.toolCallMessage), AgentResult(false, false, cfg.toolResultMessage)];
    assert InterimUpdates(s, cfg) == InterimUpdates(s[..3], cfg);
  }
}
