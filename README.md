# Wikipedia agent: response-shaping model

This Dafny project models the response-shaping layer of the standalone Wikipedia agent (`agent.py`). The layer sits between a task server and an external LangGraph ReAct agent. It does two things:

- **Extraction** (`get_agent_response`). It reads the structured response that a run leaves in the session's checkpointed state and maps it to the record the task layer consumes, `{is_task_complete, require_user_input, content}`. A structured response is a `ResponseFormat`: a status (`input_required`, `completed` or `error`, default `input_required`) and a message. If the response is absent or is not a `ResponseFormat`, extraction returns an error-shaped record that carries the configured `error_message`. It does not raise.
- **Streaming** (`stream`). It walks the states the graph emits, in order, and looks at the last message of each. A state ending in an AI message with at least one tool call yields a "working" record with `working_messages[0]`. A state ending in a tool message yields one with `working_messages[1]`. Every other state yields nothing. The stream then ends with exactly one record produced by extraction.

`invoke` runs the graph to completion and then applies extraction. The model covers only that composition.

The graph is not modelled. Its emitted states become a `seq<Message>`, where `Message` is `AIMessage(toolCalls)`, `ToolMessage` or `OtherMessage`. The structured response it leaves behind becomes a `StructuredResponse` value: `Missing`, `Unrecognised` or `Recognised(ResponseFormat)`. The `[streaming]` configuration becomes a `StreamingConfig` record.

Everything is in `agent.dfy`, in module `Agent`:

- `AgentResponse` is extraction.
- `Invoke` is the synchronous path.
- `WorkingUpdate`, `InterimUpdates` and `StreamResults` specify the stream.
- `Stream` is the streaming loop, proved equal to `StreamResults`.

## Model

| member | source | states |
|---|---|---|
| Agent.AgentResponse | agent.py:89-115 | Extraction is total. Exactly one of the two flags is set. The task is complete exactly when a recognised response has status `completed`. The content is that response's message, or the configured error message when no response is recognised. |
| Agent.Invoke | agent.py:59-62 | The synchronous path returns a record with exactly one flag set. It completes the task exactly when the run left a recognised response with status `completed`. Its content is that response's message, or the configured error message when the run left no recognised response. |
| Agent.StatusTable | agent.py:95-109 | `completed` maps to (complete, no input needed, message). `input_required` and `error` both map to (not complete, input needed, message). |
| Agent.FallbackResult | agent.py:91-115 | A missing response and a response that is not a `ResponseFormat` both give (not complete, input needed, configured error message). |
| Agent.DefaultStatusAsksUser | agent.py:27-31 | A `ResponseFormat` built from a message alone has status `input_required`, so extracting it asks the user for input and carries that message. |
| Agent.WorkingUpdate | agent.py:69-85 | A state produces an interim record exactly when its last message is an AI message with a non-empty tool-call list, or a tool message. The record has both flags false. Its content is the first working message for a tool call and the second for a tool result. |
| Agent.InterimUpdates | agent.py:68-85 | The interim records never set either flag, and each one carries one of the two working messages. There are never more of them than there are states. |
| Agent.StreamResults | agent.py:68-87 | The stream is never empty, and its last record is the extraction result for the post-run state. An element sets a flag exactly when it is the last one, so only the final record signals the end. |
| Agent.Stream | agent.py:64-87 | The loop over the emitted states returns exactly the specified stream: interim records in state order, then the one final record. |
| Agent.InterimUpdatesSingle | agent.py:69-85 | A single state yields exactly its working update when it ends in a tool call or a tool result, and nothing otherwise. Together with the concatenation lemma, this fixes the interim records state by state. |
| Agent.InterimUpdatesConcat | agent.py:68-85 | The interim records for two runs of states placed one after the other are those of the first run followed by those of the second, so state order is kept. |
| Agent.InterimUpdatesLength | agent.py:68-85 | There is one interim record for each state that ends in a tool call or a tool result. |
| Agent.StreamLength | agent.py:68-87 | The stream length is the number of tool-call and tool-result states plus one. |
| Agent.SilentStatesSkipped | agent.py:70-85 | A state whose last message is neither a tool call nor a tool result adds nothing to the stream, wherever it occurs in the run. |
| Agent.InvokeMatchesStreamEnd | agent.py:59-62 | For the same post-run state, `invoke` returns the same record that ends `stream`. |
| Agent.OneToolRound | agent.py:68-87 | A run made of a user message, one tool call, one tool result and a closing answer streams the tool-call update, then the tool-result update, then the final record, in that order. |

## Left out

- The LangGraph agent itself is out of scope. This covers `create_react_agent`, graph execution, the `MemorySaver` checkpoint store and `graph.get_state`. The model takes the states the graph emits and the structured response it leaves behind as inputs, so session keying by thread id is not modelled.
- The OpenAI chat model and its floating-point temperature, and the Wikipedia query tool, are external network clients.
- Loading `agent_config.toml` is left out. The configured strings are parameters. A `working_messages` list with fewer than two entries cannot be represented. The source raises an index error at the first state that needs a missing entry, after the earlier interim records have already been yielded. For an empty list that is the first announced state. For a one-entry list it is the first tool-result state, and a run without one never raises.
- Pydantic validation of `ResponseFormat` is assumed. The status type has exactly three values, so the source's fall-through after the `completed` test cannot be reached and is not modelled.
- The truthiness test on the structured response is folded into `Missing`/`Unrecognised`. A `ResponseFormat` instance is always truthy. Any falsy value is not a `ResponseFormat`, so it gets the same error result.
- The async generator is modelled as a finite sequence. Suspension, cancellation by the consumer, and exceptions raised by the graph are left out.
- Server bootstrap (`__main__.py`) is left out: environment and TOML loading, CLI options, the API-key check, agent card and skill construction, JWKS key material and server start. It is one-shot wiring around external classes.
- `agent_tests.py` is left out. It calls a live model and asserts nothing.
