# Coordinator agent decision logic, in Dafny

This project models the decision logic of the coordinator agent of the
wp3-hackathon-group1 repository (`group1/agents/coordinator/agent.py`). The
coordinator forwards a user query to a hosted model through an
orchestration graph, streams progress events to its caller while the model
delegates to the employee-catalog and service-catalog agents. When the
graph runs to completion, the turn ends with one event built from the
model's structured response. Its
remote-agent tool posts the query to another agent's `/tasks` endpoint and
returns the `result` field of the JSON reply.

The orchestration graph, the hosted model and the checkpoint store are
inputs here, not modelled: a turn is given by the sequence of streamed
states, each represented by its last message, and by the structured
response found in the checkpoint afterwards.

- `wrappers.dfy`: module `Wrappers`, the `Option` and `Result` datatypes.
- `coordinator.dfy`: module `Coordinator`. It holds `Status` and
  `ResponseFormat` (the status defaults to `InputRequired`), the `Event`
  record, and the final-response mapping `FinalResponse`. It also holds the
  delegation text (`ToolNames`, `Join`, `DelegationText`) and the stream
  translation. `Stream` is the loop. `ProgressEvents` and `StreamEvents`
  specify it.
- `remote_agent.dfy`: module `RemoteAgent`. It holds a JSON value type, the
  request the tool builds (`TaskRequest`) and the reply lookup with its
  fallback (`ResultOf`).

Modelling choices:
- A stored value that is absent, falsy or not a `ResponseFormat` is `None`.
  The source treats all of them the same way, with the "unable to process"
  event.
- The source reads a tool call's name with `tc.get('name', 'unknown')`. So
  only a call without a `name` key is shown as `unknown`. A present name is
  shown as it is, even an empty one. In the model, `ToolCall.name` is `None`
  exactly when the key is absent.
- `response.json().get(...)` only works on a JSON object. A reply of any
  other shape raises in the source; the model returns
  `Failure(NotAnObject)`. A present `result` is returned whatever its JSON
  type, `null` included, just as `dict.get` does.

## Model

| member | source | states |
|---|---|---|
| `Coordinator.FinalResponse` | group1/agents/coordinator/agent.py:134-166 | the task is complete exactly when a structured response is present with status `completed`. User input is required exactly when the task is not complete, so `input_required` and `error` both ask for input. The content is the response's message, or the fixed "We are unable to process your request at the moment. Please try again." text when there is no `ResponseFormat`. |
| `Coordinator.DefaultStatusRequiresInput` | group1/agents/coordinator/agent.py:19-31 | a response built with only a message has status `input_required`, and its final event asks for user input, does not complete the task, and carries that message |
| `Coordinator.DisplayName` | group1/agents/coordinator/agent.py:119 | a tool call is shown by its name when the call has a name key, and as `unknown` when it does not |
| `Coordinator.ToolNames` | group1/agents/coordinator/agent.py:119 | one name per tool call, in call order: the call's name when it has one, `unknown` otherwise |
| `Coordinator.Join` | group1/agents/coordinator/agent.py:123 | `", ".join` of no names is the empty text, and of one name is that name. `JoinLength`, `JoinPart` and `JoinSeparator` below give its meaning for any number of names. |
| `Coordinator.JoinLength` | group1/agents/coordinator/agent.py:123 | the `", ".join` text ends exactly where the last name ends, so nothing follows the last name |
| `Coordinator.JoinPart` | group1/agents/coordinator/agent.py:123 | each name appears intact in the joined text, at the offset given by the lengths of the names and separators before it |
| `Coordinator.JoinSeparator` | group1/agents/coordinator/agent.py:123 | exactly one separator lies between two neighbouring names in the joined text |
| `Coordinator.DelegationText` | group1/agents/coordinator/agent.py:119-123 | the delegation content starts with "Delegating to: " and ends with "...", and between them holds exactly the joined tool names. `DelegationListsCallsInOrder` below says where each name sits. |
| `Coordinator.FramedJoinPart` | group1/agents/coordinator/agent.py:123 | each name keeps its place when the joined names are framed by the "Delegating to: " prefix and the "..." suffix |
| `Coordinator.DelegationListsCallsInOrder` | group1/agents/coordinator/agent.py:119-124 | the "Delegating to: ..." text shows the i-th entry of `ToolNames` right after the prefix and the names before it. That entry is the i-th call's name, or `unknown`. So the names appear in request order. |
| `Coordinator.Progress` | group1/agents/coordinator/agent.py:113-130 | a state yields a progress event exactly when its last message is an AI message with a non-empty tool-call list, or a tool message. That event never completes the task and never asks for input. Its content is the delegation text for an AI message and "Processing the results from agents..." for a tool message. |
| `Coordinator.Emitted` | group1/agents/coordinator/agent.py:111-130 | one streamed state contributes at most one progress event |
| `Coordinator.ProgressEvents` | group1/agents/coordinator/agent.py:111-130 | the progress events of the streamed states, in order. There are never more of them than states. `ProgressEventsAppend` and `ProgressEventsAreTransient` below give their meaning. |
| `Coordinator.StreamEvents` | group1/agents/coordinator/agent.py:111-132 | everything a completed turn yields. There is at least one event and at most one more than there are states, and the last event is the final response. `OnlyLastEventCompletes` and `NoToolsMeansFinalOnly` below say more. |
| `Coordinator.Stream` | group1/agents/coordinator/agent.py:107-132 | the loop yields exactly the specified events: the progress events of the states in order, then the final event |
| `Coordinator.ProgressEventsAppend` | group1/agents/coordinator/agent.py:111-130 | the events for consecutive stretches of states are the events of each stretch in order, so every state contributes its own events in place |
| `Coordinator.ProgressEventsAreTransient` | group1/agents/coordinator/agent.py:114-130 | there is one progress event per announcing state, so at most one per state. None of them completes the task or asks for input. |
| `Coordinator.OnlyLastEventCompletes` | group1/agents/coordinator/agent.py:120-132 | a stream has one event more than its announcing states. Its last event is the final response. Every earlier event neither completes the task nor asks for input, so only the last event can complete the task. |
| `Coordinator.NoToolsMeansFinalOnly` | group1/agents/coordinator/agent.py:111-132 | a turn without tool calls or tool results yields just the final event |
| `RemoteAgent.TaskRequest` | group1/agents/coordinator/agent.py:44-47 | the request the tool posts goes to the agent URL followed by `/tasks`. The JSON body has exactly the keys `message` and `context_id`, which hold the query and the context identifier. |
| `RemoteAgent.RequestCarriesQuery` | group1/agents/coordinator/agent.py:44-47 | different URLs, queries or context identifiers always give different requests, so the remote agent can read back what was sent |
| `RemoteAgent.ResultOf` | group1/agents/coordinator/agent.py:48 | a JSON-object reply yields its `result` value when that key is present, and the exact string "No response from agent" when it is absent. A reply that is not an object fails. |
| `RemoteAgent.ResultIsReplyField` | group1/agents/coordinator/agent.py:48 | a reply `{"result": x, ...}` yields exactly `x`, and a reply without `result` yields the fallback string |

## Left out

- The hosted model client, the `create_agent` graph and the `MemorySaver` checkpoint store (agent.py:14, 69-96). These are foreign library calls. The streamed states and the stored structured response are inputs instead.
- The HTTP POST and its async client in `A2AAgentTool.invoke` (agent.py:43-47). This is network I/O. Transport and decoding failures are not modelled; only the request it builds and the lookup on the decoded reply are.
- Tool registration through `__name__`/`__doc__` in `_create_tool` (agent.py:98-105). This is runtime reflection that feeds the orchestration library.
- The system prompt, agent URLs from environment variables, and the supported content types (agent.py:54-66, 168). These are configuration constants with no behaviour.
- `Coordinator.Stream` covers only turns in which the graph runs to completion. If the graph's stream raises (agent.py:111), for example because the model endpoint is unreachable or a remote-agent tool fails, the exception ends the stream. The same happens if reading the checkpoint raises (agent.py:135). The caller then has only the progress events already yielded and no final event. The model does not represent such a failure.
- `Coordinator.Stream` represents each streamed state only by its last message. A state with an empty message list makes the source raise `IndexError`. The model cannot express that state.
- `Coordinator.ToolNames` does not model a tool call whose `name` key is present but holds `None`. There `", ".join` would raise a `TypeError`.
- `RemoteAgent.ResultOf` keeps JSON numbers integral. Floating-point numbers are not modelled.
- The async generator and its cooperative suspension. A turn is a finite input sequence that yields a finite output sequence.
- `group1/agents/coordinator/__main__.py` (server start-up), `group1/agents/employee_catalog/agent.py` and `group1/agents/service_catalog/agent.py`. These are configuration scripts around external frameworks with no decision logic of their own.
