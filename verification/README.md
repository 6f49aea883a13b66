# Sub-agent stream relay, modelled in Dafny

This project models `StreamProcessor` (backend/src/stream_processor.py). The
class relays one sub-agent's event stream. Each event the agent yields is
sorted by shape:

- A bare string is added to the answer and put on the parent queue inside a
  `contentBlockDelta` envelope.
- A dictionary with an `"event"` key is forwarded to the parent queue
  unchanged. A `contentBlockStart.start.toolUse` inside it first produces a
  `tool_use` progress notification. Its `contentBlockDelta.delta.text` is added
  to the answer.
- Anything else is dropped.

A call is framed by a `start` notification and, on success, a `complete`
notification. It returns the accumulated answer. If the stream raises, it
returns the agent's failure text instead.

Files:

- `wrappers.dfy`: `Option`.
- `agent_events.dfy` (module `AgentEvents`): the values involved.
  - Events are decoded into `Text`, `Envelope` and `Unrecognized`.
  - Queue items are progress notifications or relayed event dictionaries.
  - Also the notification texts and the per-event classification: the
    announced tool name and the delta text.
- `relay_spec.dfy` (module `RelaySpec`): what one call computes, as functions
  of the event sequence. `Accumulated` is the text added to `response`.
  `Relayed` and `Trace` are the items put on the queue. The lemmas state
  the order, forwarding and text properties.
- `relay.dfy` (module `Relay`): the imperative model.
  - `Queue` stands for the shared `asyncio.Queue`; `put` appends.
  - `StreamProcessor` has the fields `agentName`, `parent` and `response`.
    Its methods are proved against the functions of `RelaySpec`.

An agent stream is an `AgentStream(events, raises)`. It yields `events`, then
either ends or raises when asked for the next event. This is the same as
giving a failure index no larger than the number of events.

Where the code and the design description of the system differ, the model
follows the code:

- `response` is set to `""` only in the constructor and is never reset. A
  long-lived instance therefore returns, from its second call on, the earlier
  calls' text followed by the new text. `ConsecutiveCalls` states this.
- Dictionaries without an `"event"` key, and values that are neither strings
  nor dictionaries, are neither accumulated nor forwarded.
- The notification and failure texts are the Japanese strings of the code.
  The failure text is the agent name followed by `エージェントの処理に失敗しました`.
- The `tool_name` key of a progress notification is present only for a
  non-empty tool name.

## Model

| member | source | states |
|---|---|---|
| `AgentEvents.Wrap` | backend/src/stream_processor.py:47-54 | the envelope built for a bare string carries exactly that string as its delta text, and no tool start |
| `AgentEvents.Notification` | backend/src/stream_processor.py:15-28 | a progress envelope has the given message and stage; `tool_name` is present exactly when a non-empty name is given, and is then that name |
| `AgentEvents.MessagesEmbedNames` | backend/src/stream_processor.py:30-37 | the start, complete and tool-use texts contain the agent name; the tool-use text also contains the tool name; the failure text begins with the agent name |
| `AgentEvents.MessagesIdentifyAgent` | backend/src/stream_processor.py:30-34 | equal start texts, equal complete texts or equal failure texts name the same agent |
| `RelaySpec.RelayedOnlyToolUse` | backend/src/stream_processor.py:44-71 | the per-event items of a stream contain no `start` or `complete` notification |
| `RelaySpec.TraceOrder` | backend/src/stream_processor.py:41-73 | one call's queue items contain exactly one `start` notification, and it comes first; on success they contain exactly one `complete` notification, and it comes last; on failure they contain none |
| `RelaySpec.RelayPreservesText` | backend/src/stream_processor.py:44-71 | the text carried by the relayed items, read back in order, equals the text the call accumulates |
| `RelaySpec.TraceText` | backend/src/stream_processor.py:41-74 | the same holds for all of a call's queue items, because the notifications carry no answer text |
| `RelaySpec.RelayedEvents` | backend/src/stream_processor.py:45-71 | without the notifications, the queue receives, in stream order, each bare string wrapped and each envelope unchanged, and nothing for other events |
| `RelaySpec.DroppedEvent` | backend/src/stream_processor.py:44-71 | inserting an unrecognized event anywhere in a stream changes neither the accumulated text nor the queue items |
| `RelaySpec.TextEvent` | backend/src/stream_processor.py:45-54 | a bare string adds itself to the text and yields one relayed envelope carrying exactly that string |
| `RelaySpec.ToolStartEvent` | backend/src/stream_processor.py:59-64 | a tool-use start adds no text. It yields a `tool_use` notification followed by the unchanged event. The tool name defaults to "unknown"; `tool_name` is omitted for an empty name. The message contains the agent and tool names |
| `RelaySpec.StartWithoutToolUse` | backend/src/stream_processor.py:59-61 | a `contentBlockStart` without `start.toolUse` yields no notification, only the unchanged event |
| `RelaySpec.DeltaEvent` | backend/src/stream_processor.py:66-71 | an envelope with delta text adds exactly that text and is forwarded unchanged, alone |
| `Relay.StreamProcessor.constructor` | backend/src/stream_processor.py:7-10 | a new processor has the given name, no queue and an empty response |
| `Relay.StreamProcessor.SetParentQueue` | backend/src/stream_processor.py:12-13 | only the queue reference changes; the response is unchanged, and the name is a constant |
| `Relay.StreamProcessor.Notify` | backend/src/stream_processor.py:15-28 | with a queue, exactly one progress envelope is appended; with none, nothing changes |
| `Relay.StreamProcessor.NotifyStart` | backend/src/stream_processor.py:30-31 | appends the `start` notification naming the agent, if there is a queue |
| `Relay.StreamProcessor.NotifyComplete` | backend/src/stream_processor.py:33-34 | appends the `complete` notification naming the agent, if there is a queue |
| `Relay.StreamProcessor.NotifyToolUse` | backend/src/stream_processor.py:36-37 | appends the `tool_use` notification naming the agent and the tool, if there is a queue |
| `Relay.StreamProcessor.HandleEvent` | backend/src/stream_processor.py:44-71 | one event adds its text to `response` and appends its items to the queue, if there is one |
| `Relay.StreamProcessor.ProcessAgentStream` | backend/src/stream_processor.py:39-77 | `response` grows from its old value by the stream's text, including on failure. The call returns the failure text if the stream raises, else the new `response`. With a queue it appends exactly the call's trace: start, per-event items, then complete on success only. With no queue, the queue is untouched |
| `Relay.StreamProcessor.ProcessQueryWithContext` | backend/src/stream_processor.py:79-84 | the same as `ProcessAgentStream` on the stream the agent produces for the query |
| `Relay.ConsecutiveCalls` | backend/src/stream_processor.py:10 | a second call on one instance returns the first call's text followed by its own, or the failure text |
| `Relay.SharedQueue` | backend/src/stream_processor.py:12-13 | two processors given the same queue and called one after the other put two contiguous traces on it, in call order |

## Left out

- backend/src/aws_knowledge_agent.py is not part of this model. It wires in foreign libraries (the agent class, the MCP client, the HTTP transport, the tool decorator) and a module-level instance. Its own logic is one guard that returns `処理に失敗しました` when no MCP client exists.
- `Relay.StreamProcessor.ProcessQueryWithContext` does not model the `with context_manager:` block, `agent_factory()` or `agent.stream_async(query)`. These are foreign calls. The stream they produce is a parameter. Exceptions raised by them propagate out of the method uncaught, and that is not modelled.
- asyncio is not modelled: `await` suspension, `asyncio.Queue` internals, and concurrent producers interleaving on one queue. Every `put` is a sequential append that cannot fail.
- Exceptions are modelled only as the stream raising between events. Not modelled:
  - an exception inside the handling of one event, which would leave that event partly relayed (for example a `contentBlockStart` that is not a dictionary, or a `text` that is not a string);
  - a failing `put`;
  - a `BaseException` such as task cancellation, which the `except Exception` does not catch;
  - an exception from `notify_start`, which runs outside the `try` and would propagate rather than turn into the failure text.
- Keys of an event dictionary that the relay never reads are not represented. The dictionary is forwarded as the same value, so they would be forwarded too.
- A `toolUse.name` that is present but not a string (for example `None`) is not modelled; tool names are strings.
