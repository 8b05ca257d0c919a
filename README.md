# Chat-turn pipeline and provider selection, modelled in Dafny

This project models the core of a small chat backend. It covers:

- the prompt selector;
- the turn state and the per-session summary record;
- the three pipeline stages:
  - context preparation, which adds the role's system instruction;
  - the model call, which always appends exactly one AI message;
  - bookkeeping, which marks the turn processed and creates or increments the session summary;
- the linear graph that chains the stages, saving every thread under its session id;
- the chat agent, with its `chat`, history, existence, lookup and clear operations;
- the rules for choosing an LLM backend from the environment and the installed packages.

Modules, one per source file:

| module | file | source |
|---|---|---|
| `ChatUtils` | chat_utils.dfy | app/agents/utils/chat_utils.py |
| `ChatStates` | chat_state.dfy | app/agents/states/chat_state.py |
| `Nodes` | chat_nodes.dfy | app/agents/nodes/chat_nodes.py |
| `ChatGraph` | chat_graph.dfy | app/agents/graph/chat_graph.py |
| `Agent` | chat_agent.dfy | app/agents/chat_agent.py |
| `LlmProvider` | llm_provider.dfy | app/utils/llm_provider.py |

`Wrappers` (an `Option` type) and `Text` (a substring predicate with its lemmas) are helpers.

How the source's entities are represented:

- **Session dictionary.** It is shared by reference between the agent and the nodes. It is the class `Nodes.SessionStore`, and both sides hold the same object.
- **Checkpoint saver.** It is the class `ChatGraph.Checkpointer`, which holds a map from thread id to message thread.
- **Stages.** Each node method is proved equal to a pure function: `InputProcessed`, `LlmProcessed` or `Bookkept`.
- **Graph run.** `GraphInvoke` resumes the saved thread, runs the composition `RunPipeline` and saves the result.
- **One agent turn.** `Agent.ChatTurn` is one turn. `Agent.Converse` is a sequence of turns.
- **Chat model.** It is an oracle: a function from the ordered message list to `Replied(content)` or `Raised`.
- **Environment and packages.** The environment is a `map<string, string>`. The installed optional packages are a set.

Three behaviours of the code are worth noting, because a reader might expect otherwise:

- **`clear_session`** removes only the session summary. The checkpointed thread stays (`Agent.Cleared`, `Agent.ClearThenChat`).
- **Empty replies.** The reply of `chat` is not always non-empty. A model that answers with empty content gives an empty reply (`Agent.EmptyAnswerEmptyReply`).
- **A model that raises.** Stage 2 catches the exception. `chat` then returns that stage's apology ("… Please try again in a moment."), not its own technical-difficulties string (`Agent.TurnReply`, `Nodes.ModelReplyCases`).

## Model

| member | source | states |
|---|---|---|
| ChatUtils.GetSystemPrompt | app/agents/utils/chat_utils.py:12-17 | The prompt is always one of the three table strings and non-empty. Any key other than the three exact roles gives the customer prompt. "support_agent" and "manager" map to their own prompts, in both directions. |
| ChatUtils.KnownPromptsDistinct | app/agents/utils/chat_utils.py:13-15 | For known roles, two prompts are equal iff the roles are equal. |
| ChatUtils.PromptMarkers | app/agents/utils/chat_utils.py:13-15 | Each role's prompt contains that role's marker phrases. |
| ChatStates.SessionInfoFields | app/agents/states/chat_state.py:20-25 | A record built from an id alone has count 0 and role "customer". Explicit values, a negative count included, are stored as given. |
| ChatStates.SessionInfoEquality | app/agents/states/chat_state.py:20-25 | Equality is field-wise. Updating one field keeps the others. |
| Nodes.MockReply | app/agents/nodes/chat_nodes.py:43-45 | The mock text for a user type; its contract is `MockReplyMarkers`: it names the user type and says it is a mock answer. |
| Nodes.MockReplyMarkers | app/agents/nodes/chat_nodes.py:43-45 | The mock reply contains "User type: " followed by the role, "without OpenAI API key" and "mock chatbot response". |
| Nodes.SystemCountZero | app/agents/nodes/chat_nodes.py:30 | A list has no system message exactly when its system-message count is 0. |
| Nodes.InputProcessed | app/agents/nodes/chat_nodes.py:28-36 | Stage 1 as a function of the state; its contract is `InputProcessingContract` (system prompt prepended exactly when none is present) and `InputProcessingIdempotent`. |
| Nodes.InputProcessingContract | app/agents/nodes/chat_nodes.py:28-36 | The other fields are kept and afterwards there is a system message. With no system message anywhere, the role's prompt is at index 0, the old messages follow in order and the length grows by 1. Otherwise the list is unchanged. The system-message count becomes 1 or stays the same. |
| Nodes.InputProcessingIdempotent | app/agents/nodes/chat_nodes.py:30-36 | A second context preparation changes nothing. |
| Nodes.ModelReply | app/agents/nodes/chat_nodes.py:42-60 | The text stage 2 appends; its contract is `ModelReplyCases`: the mock text, the fixed apology or the model's answer, by branch. |
| Nodes.ModelReplyCases | app/agents/nodes/chat_nodes.py:42-60 | With no model, the reply is the mock text naming the user type. If the model raises, the reply is exactly the fixed apology. Otherwise it is the model's answer to the whole list. |
| Nodes.LlmProcessed | app/agents/nodes/chat_nodes.py:49-60 | Stage 2 as a function of the state; its contract is `LlmProcessingContract`: exactly one AI message appended, nothing else changed. |
| Nodes.LlmProcessingContract | app/agents/nodes/chat_nodes.py:49-60 | Exactly one message is appended, on every path. It is an AI message carrying the reply. Every earlier message and every other field is unchanged. |
| Nodes.Bookkept | app/agents/nodes/chat_nodes.py:68-78 | Stage 3 as a function of the registry and the state; its contract is `BookkeepingContract` (processed, session created with count 1 or incremented by 1) and `BookkeepingFields`. |
| Nodes.BookkeepingContract | app/agents/nodes/chat_nodes.py:68-78 | The turn is marked processed and the messages are kept. An absent session gets `SessionInfo(id, 1, user type)`. A present one has its count raised by exactly 1, with its role and id kept. No other entry changes. |
| Nodes.BookkeepingFields | app/agents/nodes/chat_nodes.py:70-78 | Bookkeeping depends only on the session id and the user type of the state. |
| Nodes.SessionStore.constructor | app/agents/chat_agent.py:33 | A new registry is empty. |
| Nodes.ChatNodes.constructor | app/agents/nodes/chat_nodes.py:20-22 | A supplied registry is used itself, by reference. Otherwise a fresh, empty registry is created. |
| Nodes.ChatNodes.InputProcessingNode | app/agents/nodes/chat_nodes.py:24-36 | The node's result is `InputProcessed` of its input. |
| Nodes.ChatNodes.LlmProcessingNode | app/agents/nodes/chat_nodes.py:38-62 | The node's result is `LlmProcessed` of its input, and no exception escapes. |
| Nodes.ChatNodes.ResponseFormattingNode | app/agents/nodes/chat_nodes.py:64-80 | The returned state and the new registry are those of `Bookkept` applied to the old registry. |
| ChatGraph.RunPipeline | app/agents/graph/chat_graph.py:28-35 | The three stages chained in edge order; its contract is `PipelineOutcome`. |
| ChatGraph.PipelineOutcome | app/agents/graph/chat_graph.py:28-35 | One run of the chain ends processed, with the same id and role. Its messages are the prepared ones followed by one AI message holding the model's reply. The registry is bookkept for the session. |
| ChatGraph.FirstTurnShape | tests/test_chat_nodes.py:217-240 | On a new session, the chain turns `[Human]` into `[System(prompt), Human, AI]`, marked processed, with count 1. |
| ChatGraph.GraphInvoke | app/agents/graph/chat_graph.py:37 | One checkpointed run: resume the thread, run the chain, save it; its contract is `GraphInvokeThreads` (only the run's own thread is written) together with `PipelineOutcome`. |
| ChatGraph.GraphInvokeThreads | app/agents/graph/chat_graph.py:37 | A run saves its final messages under its own thread id and leaves every other thread unchanged. |
| ChatGraph.Checkpointer.constructor | app/agents/chat_agent.py:32 | A new checkpoint store is empty. |
| ChatGraph.CompiledGraph.constructor | app/agents/graph/chat_graph.py:37 | The compiled graph runs the given nodes over the given store. |
| ChatGraph.CompiledGraph.Invoke | app/agents/graph/chat_graph.py:28-37 | The result, the new registry and the new store are those of `GraphInvoke`: resume, the three stages once each in order, save. |
| ChatGraph.CompiledGraph.GetState | app/agents/chat_agent.py:106-107 | Saved messages are returned exactly for a known thread, and none for an unknown one. |
| ChatGraph.ChatGraphBuilder.constructor | app/agents/graph/chat_graph.py:19-20 | The builder keeps the nodes object it is given. |
| ChatGraph.ChatGraphBuilder.BuildGraph | app/agents/graph/chat_graph.py:22-40 | The new graph wires exactly the builder's nodes to the given checkpoint store. |
| LlmProvider.Lower | app/utils/llm_provider.py:39 | Lower-casing keeps the length. |
| LlmProvider.LowerChars | app/utils/llm_provider.py:39 | Each character is lower-cased in place, and no upper-case ASCII letter remains. |
| LlmProvider.ProviderName | app/utils/llm_provider.py:39 | `LLM_PROVIDER` lower-cased, "openai" when unset; its contract is `LowerChars` (no upper-case ASCII letter remains, length kept) and `UnknownProviderIsOpenAi`. |
| LlmProvider.OpenAiClient | app/utils/llm_provider.py:41-46 | The OpenAI branch, shared with the fallback at lines 86-92; its contract is `UnknownProviderIsOpenAi` (an unknown or unset name takes this branch), `MissingKeyNoClient` (no client without a non-empty key) and `GetLlmClient` (the client is OpenAI's and carries the key). |
| LlmProvider.EffectiveProvider | app/utils/llm_provider.py:86-92 | The effective provider is always known. A known name is kept, and any other name stands for "openai". |
| LlmProvider.RequirementsMet | app/utils/llm_provider.py:41-84 | A provider's requirements hold iff its package, if any, is installed and its key, if any, is set and non-empty. |
| LlmProvider.UnmetLabelsOf | app/utils/llm_provider.py:116-151 | What is reported missing is the package label, then the key name, each only when unmet. |
| LlmProvider.UnmetLabelsEmpty | app/utils/llm_provider.py:127-128 | Nothing is missing exactly when every requirement is met. |
| LlmProvider.GetLlm | app/utils/llm_provider.py:36-92 | A client is built iff every requirement of the effective provider is met. |
| LlmProvider.GetLlmClient | app/utils/llm_provider.py:41-92 | A built client belongs to the effective provider. For key-based providers it carries the key from the environment. |
| LlmProvider.MissingKeyNoClient | app/utils/llm_provider.py:41-76 | For a provider that needs a key, a missing or empty key yields no client. |
| LlmProvider.MissingPackageNoClient | app/utils/llm_provider.py:48-81 | A missing backend package yields no client, whatever the key. |
| LlmProvider.OllamaClient | app/utils/llm_provider.py:78-84 | With its package installed, Ollama needs no key. It uses `OLLAMA_BASE_URL`, or "http://localhost:11434" when that is unset. |
| LlmProvider.UnknownProviderIsOpenAi | app/utils/llm_provider.py:86-92 | An unknown or unset provider gives exactly the OpenAI branch's result. |
| LlmProvider.Rank | app/utils/llm_provider.py:95-108 | The rank of a known provider is its index in the fixed listing order. |
| LlmProvider.GetAvailableProviders | app/utils/llm_provider.py:95-108 | The list starts with "openai" and equals the known providers that can be offered, in listing order. |
| LlmProvider.OfferedOfMembers | app/utils/llm_provider.py:97-106 | A name is listed iff it is in the candidate list and its package, if any, is installed. |
| LlmProvider.OfferedOfSorted | app/utils/llm_provider.py:97-106 | Filtering keeps the strictly increasing listing order. |
| LlmProvider.AvailableProviders | app/utils/llm_provider.py:95-108 | The listing holds only known providers, each exactly when it can be offered, in strictly increasing order and so without duplicates. |
| LlmProvider.ValidateProviderConfig | app/utils/llm_provider.py:111-153 | The lower-cased name is echoed, and `missing` lists the unmet requirements, package before key. For a known name, `configured` holds iff `missing` is empty. An unknown name gives not configured with nothing missing. |
| LlmProvider.ValidateAgreesWithGetLlm | app/utils/llm_provider.py:111-153 | For the five known names, nothing is missing iff `get_llm` builds a client with `LLM_PROVIDER` set to that name. |
| Agent.ChatReply | app/agents/chat_agent.py:86-94 | The text `chat` returns for a graph outcome; its contract is `ChatReplyCases`: last AI content, or one of the two fixed apologies. |
| Agent.AiContentsLast | app/agents/chat_agent.py:86-88 | There are no AI contents iff there is no AI message. Otherwise the last content belongs to an AI message with no AI message after it. |
| Agent.ChatReplyCases | app/agents/chat_agent.py:84-94 | A raise or a malformed result gives exactly the technical-difficulties apology. No AI message gives exactly the no-response apology. Otherwise the reply is the content of the last AI message. |
| Agent.ReplyOfTrailingAi | app/agents/chat_agent.py:86-88 | A list that ends in an AI message replies with that message's content. |
| Agent.HistoryOf | app/agents/chat_agent.py:107-114 | The history of a thread; its contract is `HistoryEntriesFromThread`, `HistoryOfConcat` and `SystemPrefixHistory`: human and AI messages only, in order. |
| Agent.HistoryEntriesFromThread | app/agents/chat_agent.py:107-114 | Every history entry comes from a human or AI message of the thread, with the matching type. There are never more entries than messages. |
| Agent.HistoryOfConcat | app/agents/chat_agent.py:108-114 | The history of two joined lists is the two histories joined. |
| Agent.SystemPrefixHistory | app/agents/chat_agent.py:109 | A system message adds no history entry. |
| Agent.ChatTurn | app/agents/chat_agent.py:74-90 | One turn of an initialised agent; its contract is `TurnReply`, `TurnSessions`, `TurnSaved` and `TurnThreads`. |
| Agent.TurnReply | app/agents/chat_agent.py:75-88 | The reply of an initialised agent's turn is stage 2's reply to the prepared thread. |
| Agent.TurnSessions | app/agents/chat_agent.py:75-84 | A turn bookkeeps the registry exactly as stage 3 does for its session id and user type. |
| Agent.TurnSaved | app/agents/chat_agent.py:82-84 | A turn saves the prepared thread plus the AI reply under the session id, and nothing else. |
| Agent.PreparedThread | app/agents/nodes/chat_nodes.py:28-34 | Preparing a turn adds exactly the new human entry to the saved thread's history. It leaves one system message if there were none. |
| Agent.TurnThreads | app/agents/chat_agent.py:82-84 | Only the session's thread changes, and other threads are untouched. Its history grows by the human entry and the AI reply. Its system-message count becomes 1 or stays the same. |
| Agent.AnsweredThread | app/agents/nodes/chat_nodes.py:49-51 | Appending the answer adds one AI entry and no system message. |
| Agent.TurnReplyNonEmpty | app/agents/chat_agent.py:86-88 | The reply is non-empty unless the model itself answered with empty content. |
| Agent.UnconfiguredReplyNamesUserType | app/agents/nodes/chat_nodes.py:43-45 | Without a model, the turn's reply contains "User type: " followed by the turn's user type, and says it runs without an OpenAI API key. |
| Agent.EmptyAnswerEmptyReply | app/agents/chat_agent.py:86-88 | A model answering with empty content makes the reply empty. |
| Agent.ConverseSessions | app/agents/nodes/chat_nodes.py:70-78 | After a sequence of turns, a session is registered iff it was before or had a turn. |
| Agent.ConverseCount | app/agents/nodes/chat_nodes.py:71-72 | A session's count is its old count (0 if it is new) plus its number of turns. |
| Agent.ConverseRole | app/agents/nodes/chat_nodes.py:71-78 | A session keeps the role it had, and otherwise takes the role of its first turn. |
| Agent.ConverseHistory | app/agents/chat_agent.py:75-84 | A session's human history entries are the old ones followed by the messages submitted on it, in order. |
| Agent.TurnHumans | app/agents/chat_agent.py:75-84 | A turn adds its message to its own session's human entries and to no other history. |
| Agent.SingleSessionConversation | tests/test_edge_cases.py:236-271 | After N turns on one new session, the count is N, the role is the first turn's, and the human entries are exactly the submitted messages, in order. |
| Agent.TurnPreservesInvariant | app/agents/nodes/chat_nodes.py:68-78 | A turn keeps the store invariant: one system message per thread, each session filed under its own id with a thread, and 1 ≤ count ≤ the number of human messages. |
| Agent.Cleared | app/agents/chat_agent.py:122-131 | Clearing removes only that key from the registry, keeps every other entry, and leaves every thread. |
| Agent.ClearPreservesInvariant | app/agents/chat_agent.py:122-131 | Clearing a session keeps the store invariant. |
| Agent.ConverseInvariant | app/agents/chat_agent.py:62-94 | Every store reached from an empty agent by turns satisfies the invariant. |
| Agent.ClearThenChat | app/agents/chat_agent.py:122-131 | After a clear, the next turn restarts the count at 1 with the new role, while the history keeps every earlier entry. |
| Agent.AgentModel | app/agents/chat_agent.py:42-53 | The model is absent iff `OPENAI_API_KEY` is missing or empty. Otherwise it is the "gpt-4o-mini" client with that key. |
| Agent.AgentModelIsOpenAiSelection | app/agents/chat_agent.py:42-53 | The agent's model is the client that provider selection builds for "openai". |
| Agent.ChatAgent.constructor | app/agents/chat_agent.py:29-35 | A new agent has no graph, model, nodes or builder, and an empty registry and store. |
| Agent.ChatAgent.Initialize | app/agents/chat_agent.py:37-60 | The model is absent iff the key is missing or empty. The nodes share the agent's own registry and model. The graph is set over the agent's store. Nothing stored changes. |
| Agent.ChatAgent.Chat | app/agents/chat_agent.py:62-94 | The session id defaults to "default" and the user type to "customer". An uninitialised agent returns exactly the technical-difficulties apology and changes nothing. Otherwise the reply, registry and store are those of `ChatTurn`. |
| Agent.ChatAgent.SessionExists | app/agents/chat_agent.py:96-98 | Membership of the session id in the registry; its contract is `ConverseSessions`: a session exists exactly when it existed before or had a turn. |
| Agent.ChatAgent.GetConversationHistory | app/agents/chat_agent.py:100-120 | The result is the human and AI entries of the session's thread, in order. It is empty for an unknown thread or an uninitialised agent. |
| Agent.ChatAgent.ClearSession | app/agents/chat_agent.py:122-131 | The registry and the store become `Cleared` of the old ones: only that key is removed, and an absent key is a no-op. |
| Agent.ChatAgent.GetSessionInfo | app/agents/chat_agent.py:133-135 | Returns the session's entry exactly when `SessionExists` holds, and none otherwise. |

## Left out

- async/await and concurrent sessions: turns are modelled as sequential, one call after another.
- Logging calls: they have no effect on results.
- The `timestamp` of a history entry: it is always empty in the source, so `HistoryEntry` has only a type and content.
- Temperature, `max_tokens` and the other client options: they are floating-point or opaque settings and do not affect control flow.
- The `add_messages` reducer's id-based merge is library code that is not part of this model. Each stage's returned list is taken as the new thread.
  - No lemma says where the reducer finally puts the system message in a stored thread.
  - `ChatGraph.FirstTurnShape` states the order produced by the stage composition.
  - The lemmas about stored threads use only order-independent facts: the human/AI history and the number of system messages.
- The behaviour of the real chat models and their clients is an oracle in the model. A reply is taken to be an AI message with text content.
- Exceptions from a real graph or a malformed result: the modelled graph cannot raise, because stage 2 catches every model failure.
  - An initialised `ChatAgent.Chat` therefore never takes the exception path.
  - `Agent.ChatReply` models both outcomes, and so does `Agent.ChatReplyCases`.
  - The uninitialised agent models the raise.
- `ChatAgent.GetConversationHistory` and `ChatAgent.ClearSession` have no other failure path than the one modelled. Deleting a key after a membership test cannot raise.
- `Nodes.ChatNodes.ResponseFormattingNode`: the `+= 1` on the shared `SessionInfo` object is modelled as a replacement by value.
  - A record returned earlier by `get_session_info` does not see later increments in the model. In the source it is the same, mutated object.
- The nodes write fields of the state dictionary in place. The model returns the updated state as a value.
- `None` as a session id, user type or message: all inputs are strings here.
- `LlmProvider.Lower`: only ASCII letters are lower-cased.
  - No known provider name can be produced from non-ASCII input, so every provider decision agrees with Python's `str.lower()`.
  - The name echoed by `validate_provider_config` can differ for non-ASCII input.
- Import-time detection of the optional packages is the `installed` set parameter, and `os.getenv` is the `env` map parameter.
- `Agent.ChatAgent.SessionExists` is the plain membership test and carries no contract of its own. `ChatAgent.GetSessionInfo` states its agreement with it.
- The HTTP routes, application bootstrap, settings loading and the test runner are not part of this model.
