/**
 * The three pipeline stages and the registry of session summaries they
 * update. Each stage is specified by a function on the turn state; the
 * `ChatNodes` class runs them against a shared `SessionStore`.
 */
module Nodes {
  import opened Wrappers
  import opened Text
  import opened ChatStates
  import opened ChatUtils
  import LlmProvider

  /** What one call of the chat model does: answer with a text, or raise (a timeout included). */
  datatype ModelOutcome = Replied(content: string) | Raised

  /**
   * A configured chat model: the client record and its behaviour, an
   * oracle from the ordered message list to the outcome of the call.
   */
  datatype ChatModel = ChatModel(backend: LlmProvider.ChatBackend, respond: seq<Message> -> ModelOutcome)

  /** The mock reply's fixed head and tail, split at their marker phrases. */
  const MockReplyHead: string := "Hello! I'm a " + "mock chatbot response" + " to your message. ("
  const MockReplyTail: string :=
    ") Your message was processed successfully, but I'm running " + "without OpenAI API key"
    + ". Please configure OPENAI_API_KEY environment variable for real AI responses."

  /** The apology appended when the model call raises. */
  const LlmErrorReply: string :=
    "I apologize, but I'm experiencing technical difficulties. Please try again in a moment."

  /** The reply used when no model is configured. */
  function MockReply(userType: string): string
  {
    MockReplyHead + "User type: " + userType + MockReplyTail
  }

  /** The mock reply names the user type and says that it is not a live answer. */
  lemma MockReplyMarkers(userType: string)
    ensures Contains(MockReply(userType), "User type: " + userType)
    ensures Contains(MockReply(userType), "without OpenAI API key")
    ensures Contains(MockReply(userType), "mock chatbot response")
  {
    var quoted := "User type: " + userType;
    assert MockReply(userType) == MockReplyHead + quoted + MockReplyTail;
    ContainsMiddle(MockReplyHead, quoted, MockReplyTail);
    ContainsMiddle("Hello! I'm a ", "mock chatbot response", " to your message. (");
    ContainsAppend(MockReplyHead, quoted, "mock chatbot response");
    ContainsAppend(MockReplyHead + quoted, MockReplyTail, "mock chatbot response");
    ContainsMiddle(") Your message was processed successfully, but I'm running ", "without OpenAI API key",
      ". Please configure OPENAI_API_KEY environment variable for real AI responses.");
    ContainsPrepend(MockReplyHead + quoted, MockReplyTail, "without OpenAI API key");
  }

  /** `any(isinstance(msg, SystemMessage) for msg in messages)`. */
  predicate HasSystemMessage(messages: seq<Message>)
  {
    exists i :: 0 <= i < |messages| && messages[i].SystemMessage?
  }

  /** The number of system messages in a list. */
  function SystemCount(messages: seq<Message>): nat
  {
    if messages == [] then 0
    else SystemCount(messages[..|messages| - 1]) + (if messages[|messages| - 1].SystemMessage? then 1 else 0)
  }

  lemma {:induction false} SystemCountZero(messages: seq<Message>)
    ensures SystemCount(messages) == 0 <==> !HasSystemMessage(messages)
  {
    if messages != [] {
      var init := messages[..|messages| - 1];
      SystemCountZero(init);
      assert forall i :: 0 <= i < |init| ==> init[i] == messages[i];
    }
  }

  lemma {:induction false} SystemCountConcat(a: seq<Message>, b: seq<Message>)
    ensures SystemCount(a + b) == SystemCount(a) + SystemCount(b)
  {
    if b == [] {
      assert a + b == a;
    } else {
      assert (a + b)[..|a + b| - 1] == a + b[..|b| - 1];
      SystemCountConcat(a, b[..|b| - 1]);
    }
  }

  /** Stage 1, context preparation (`input_processing_node`). */
  function InputProcessed(state: ChatState): ChatState
  {
    if HasSystemMessage(state.messages) then state
    else state.(messages := [SystemMessage(GetSystemPrompt(state.userType))] + state.messages)
  }

  /**
   * When no message is a system message, the role's instruction is put in
   * front and the old messages follow in their order; otherwise the list is
   * left as it is. Afterwards there is a system message, and a second one is
   * never added.
   */
  lemma InputProcessingContract(state: ChatState)
    ensures var result := InputProcessed(state);
      && result.sessionId == state.sessionId && result.userType == state.userType
      && result.processed == state.processed
      && HasSystemMessage(result.messages)
      && |result.messages| == |state.messages| + (if HasSystemMessage(state.messages) then 0 else 1)
      && result.messages[|result.messages| - |state.messages|..] == state.messages
      && (!HasSystemMessage(state.messages) ==> result.messages[0] == SystemMessage(GetSystemPrompt(state.userType)))
      && SystemCount(result.messages) == if HasSystemMessage(state.messages) then SystemCount(state.messages) else 1
  {
    if !HasSystemMessage(state.messages) {
      var system := SystemMessage(GetSystemPrompt(state.userType));
      SystemCountZero(state.messages);
      SystemCountConcat([system], state.messages);
      assert ([system] + state.messages)[0].SystemMessage?;
    }
  }

  /** Context preparation is idempotent: running it again changes nothing. */
  lemma InputProcessingIdempotent(state: ChatState)
    ensures InputProcessed(InputProcessed(state)) == InputProcessed(state)
  {
    InputProcessingContract(state);
  }

  /** Stage 2's reply text. */
  function ModelReply(llm: Option<ChatModel>, state: ChatState): string
  {
    match llm
    case None => MockReply(state.userType)
    case Some(model) =>
      match model.respond(state.messages)
      case Replied(content) => content
      case Raised => LlmErrorReply
  }

  /**
   * The reply is the model's answer to the whole message list; the mock
   * text, naming the user type, when no model is configured; and exactly the
   * fixed apology when the call raises.
   */
  lemma ModelReplyCases(llm: Option<ChatModel>, state: ChatState)
    ensures var reply := ModelReply(llm, state);
      && (llm.None? ==> Contains(reply, "User type: " + state.userType) && Contains(reply, "without OpenAI API key"))
      && (llm.Some? && llm.value.respond(state.messages).Raised? ==> reply == LlmErrorReply)
      && (llm.Some? && llm.value.respond(state.messages).Replied? ==>
            reply == llm.value.respond(state.messages).content)
  {
    if llm.None? {
      MockReplyMarkers(state.userType);
    }
  }

  /** Stage 2, model invocation (`llm_processing_node`). */
  function LlmProcessed(llm: Option<ChatModel>, state: ChatState): ChatState
  {
    state.(messages := state.messages + [AIMessage(ModelReply(llm, state))])
  }

  /**
   * Exactly one AI message is appended, on every path, and every earlier
   * message stays where it was.
   */
  lemma LlmProcessingContract(llm: Option<ChatModel>, state: ChatState)
    ensures var result := LlmProcessed(llm, state);
      && result.sessionId == state.sessionId && result.userType == state.userType
      && result.processed == state.processed
      && |result.messages| == |state.messages| + 1
      && result.messages[..|state.messages|] == state.messages
      && result.messages[|state.messages|] == AIMessage(ModelReply(llm, state))
  {
    var result := LlmProcessed(llm, state);
    assert result.messages[..|state.messages|] == state.messages;
  }

  /** The turn state and the session registry after bookkeeping. */
  datatype Formatted = Formatted(state: ChatState, sessions: map<string, SessionInfo>)

  /** Stage 3, bookkeeping (`response_formatting_node`). */
  function Bookkept(sessions: map<string, SessionInfo>, state: ChatState): Formatted
  {
    var id := state.sessionId;
    var info := if id in sessions
      then sessions[id].(messageCount := sessions[id].messageCount + 1)
      else SessionInfo(id, 1, state.userType);
    Formatted(state.(processed := true), sessions[id := info])
  }

  /**
   * The turn is marked processed and the session's summary is created with
   * count 1 or has its count raised by exactly 1, keeping the role it was
   * created with. No other entry and no message changes.
   */
  lemma BookkeepingContract(sessions: map<string, SessionInfo>, state: ChatState)
    ensures var result := Bookkept(sessions, state);
      && result.state == state.(processed := true)
      && result.sessions.Keys == sessions.Keys + {state.sessionId}
      && (forall id :: id in sessions && id != state.sessionId ==> result.sessions[id] == sessions[id])
      && (state.sessionId !in sessions ==>
            result.sessions[state.sessionId] == SessionInfo(state.sessionId, 1, state.userType))
      && (state.sessionId in sessions ==>
            && result.sessions[state.sessionId].messageCount == sessions[state.sessionId].messageCount + 1
            && result.sessions[state.sessionId].userType == sessions[state.sessionId].userType
            && result.sessions[state.sessionId].sessionId == sessions[state.sessionId].sessionId)
  {
  }

  /** Bookkeeping reads only the session id and the user type of the state. */
  lemma BookkeepingFields(sessions: map<string, SessionInfo>, a: ChatState, b: ChatState)
    requires a.sessionId == b.sessionId && a.userType == b.userType
    ensures Bookkept(sessions, a).sessions == Bookkept(sessions, b).sessions
  {
  }

  /** The registry of session summaries: one mutable dictionary, shared by every holder of the object. */
  class SessionStore {
    var entries: map<string, SessionInfo>

    constructor ()
      ensures entries == map[]
    {
      entries := map[];
    }
  }

  /** The container of the three stages: the model (if any) and the session registry. */
  class ChatNodes {
    const llm: Option<ChatModel>
    const sessions: SessionStore

    /** Uses the given registry itself, or a fresh empty one when none is given. */
    constructor (llm: Option<ChatModel>, sessions: Option<SessionStore>)
      ensures this.llm == llm
      ensures sessions.Some? ==> this.sessions == sessions.value
      ensures sessions.None? ==> fresh(this.sessions) && this.sessions.entries == map[]
    {
      this.llm := llm;
      if sessions.Some? {
        this.sessions := sessions.value;
      } else {
        this.sessions := new SessionStore();
      }
    }

    method InputProcessingNode(state: ChatState) returns (result: ChatState)
      ensures result == InputProcessed(state)
    {
      var systemPrompt := GetSystemPrompt(state.userType);
      var hasSystemMessage := HasSystemMessage(state.messages);
      result := state;
      if !hasSystemMessage {
        result := result.(messages := [SystemMessage(systemPrompt)] + state.messages);
      }
    }

    method LlmProcessingNode(state: ChatState) returns (result: ChatState)
      ensures result == LlmProcessed(llm, state)
    {
      var response: Message;
      if llm.None? {
        response := AIMessage(MockReply(state.userType));
      } else {
        var outcome := llm.value.respond(state.messages);
        if outcome.Raised? {
          // the exception is caught and replaced by the apology
          response := AIMessage(LlmErrorReply);
        } else {
          response := AIMessage(outcome.content);
        }
      }
      result := state.(messages := state.messages + [response]);
    }

    method ResponseFormattingNode(state: ChatState) returns (result: ChatState)
      modifies sessions
      ensures result == Bookkept(old(sessions.entries), state).state
      ensures sessions.entries == Bookkept(old(sessions.entries), state).sessions
    {
      result := state.(processed := true);
      var id := state.sessionId;
      if id in sessions.entries {
        var info := sessions.entries[id];
        sessions.entries := sessions.entries[id := info.(messageCount := info.messageCount + 1)];
      } else {
        sessions.entries := sessions.entries[id := SessionInfo(id, 1, state.userType)];
      }
    }
  }
}
