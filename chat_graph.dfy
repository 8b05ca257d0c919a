/**
 * The pipeline: a fixed linear chain START -> input_processing ->
 * llm_processing -> response_formatting -> END, run against a checkpoint
 * store that keeps one message thread per thread id.
 */
module ChatGraph {
  import opened Wrappers
  import opened ChatStates
  import opened ChatUtils
  import opened Nodes

  /** The whole chain as function composition: each stage once, in order. */
  function RunPipeline(llm: Option<ChatModel>, sessions: map<string, SessionInfo>, state: ChatState): Formatted
  {
    Bookkept(sessions, LlmProcessed(llm, InputProcessed(state)))
  }

  /**
   * What one run of the chain produces: the prepared messages followed by
   * one AI message, the turn marked processed and the session bookkept.
   */
  lemma PipelineOutcome(llm: Option<ChatModel>, sessions: map<string, SessionInfo>, state: ChatState)
    ensures var prepared := InputProcessed(state);
      var r := RunPipeline(llm, sessions, state);
      && r.state.processed
      && r.state.sessionId == state.sessionId && r.state.userType == state.userType
      && r.state.messages == prepared.messages + [AIMessage(ModelReply(llm, prepared))]
      && r.sessions == Bookkept(sessions, state).sessions
  {
    var prepared := InputProcessed(state);
    InputProcessingContract(state);
    LlmProcessingContract(llm, prepared);
    BookkeepingFields(sessions, LlmProcessed(llm, prepared), state);
  }

  /**
   * A first turn on a new session, starting from one human message, ends as
   * [system, human, AI], processed, with that session's count at 1.
   */
  lemma FirstTurnShape(llm: Option<ChatModel>, sessions: map<string, SessionInfo>, text: string, id: string, role: string)
    requires id !in sessions
    ensures var r := RunPipeline(llm, sessions, ChatState([HumanMessage(text)], id, role, false));
      && r.state.processed
      && |r.state.messages| == 3
      && r.state.messages[0] == SystemMessage(GetSystemPrompt(role))
      && r.state.messages[1] == HumanMessage(text)
      && r.state.messages[2].AIMessage?
      && r.sessions[id] == SessionInfo(id, 1, role)
  {
    var state := ChatState([HumanMessage(text)], id, role, false);
    assert !HasSystemMessage(state.messages);
    PipelineOutcome(llm, sessions, state);
    BookkeepingContract(sessions, state);
  }

  /** The checkpoint store: the saved message thread of every thread id. */
  class Checkpointer {
    var threads: map<string, seq<Message>>

    constructor ()
      ensures threads == map[]
    {
      threads := map[];
    }
  }

  /** The saved thread of an id, empty when the id is unknown. */
  function ThreadOf(threads: map<string, seq<Message>>, threadId: string): seq<Message>
  {
    if threadId in threads then threads[threadId] else []
  }

  /** The input of a run merged into the saved thread: its messages are appended, the other fields replace the saved ones. */
  function Resumed(threads: map<string, seq<Message>>, input: ChatState, threadId: string): ChatState
  {
    input.(messages := ThreadOf(threads, threadId) + input.messages)
  }

  /** The final state, the session registry and the checkpoint store after one run. */
  datatype Invoked = Invoked(state: ChatState, sessions: map<string, SessionInfo>, threads: map<string, seq<Message>>)

  /** One run on a thread: resume, run the chain, save the final messages under the thread id. */
  function GraphInvoke(llm: Option<ChatModel>, sessions: map<string, SessionInfo>,
                       threads: map<string, seq<Message>>, input: ChatState, threadId: string): Invoked
  {
    var f := RunPipeline(llm, sessions, Resumed(threads, input, threadId));
    Invoked(f.state, f.sessions, threads[threadId := f.state.messages])
  }

  /**
   * A run saves its final messages under its own thread id, which then
   * exists, and leaves every other thread as it was.
   */
  lemma GraphInvokeThreads(llm: Option<ChatModel>, sessions: map<string, SessionInfo>,
                           threads: map<string, seq<Message>>, input: ChatState, threadId: string)
    ensures var r := GraphInvoke(llm, sessions, threads, input, threadId);
      && r.threads.Keys == threads.Keys + {threadId}
      && r.threads[threadId] == r.state.messages
      && (forall t :: t in threads && t != threadId ==> r.threads[t] == threads[t])
  {
  }

  /** The compiled graph: the stages of one `ChatNodes` wired in a chain over one checkpoint store. */
  class CompiledGraph {
    const nodes: ChatNodes
    const memory: Checkpointer

    constructor (nodes: ChatNodes, memory: Checkpointer)
      ensures this.nodes == nodes && this.memory == memory
    {
      this.nodes := nodes;
      this.memory := memory;
    }

    /** `ainvoke(input, {"thread_id": threadId})`. */
    method Invoke(input: ChatState, threadId: string) returns (result: ChatState)
      modifies nodes.sessions, memory
      ensures var r := GraphInvoke(nodes.llm, old(nodes.sessions.entries), old(memory.threads), input, threadId);
        result == r.state && nodes.sessions.entries == r.sessions && memory.threads == r.threads
    {
      var state := input.(messages := ThreadOf(memory.threads, threadId) + input.messages);
      state := nodes.InputProcessingNode(state);
      state := nodes.LlmProcessingNode(state);
      state := nodes.ResponseFormattingNode(state);
      memory.threads := memory.threads[threadId := state.messages];
      result := state;
    }

    /** `aget_state`: the saved messages of a thread, none for an unknown thread. */
    function GetState(threadId: string): (saved: Option<seq<Message>>)
      reads memory
      ensures saved.Some? <==> threadId in memory.threads
      ensures saved.Some? ==> saved.value == memory.threads[threadId]
    {
      if threadId in memory.threads then Some(memory.threads[threadId]) else None
    }
  }

  /** The builder keeps the nodes it is given and wires them into a graph. */
  class ChatGraphBuilder {
    const chatNodes: ChatNodes

    constructor (chatNodes: ChatNodes)
      ensures this.chatNodes == chatNodes
    {
      this.chatNodes := chatNodes;
    }

    method BuildGraph(memory: Checkpointer) returns (graph: CompiledGraph)
      ensures fresh(graph)
      ensures graph.nodes == chatNodes && graph.memory == memory
    {
      graph := new CompiledGraph(chatNodes, memory);
    }
  }
}
