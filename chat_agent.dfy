/**
 * The orchestrator: one chat turn through the compiled pipeline, the
 * conversation history read back from the checkpoint store, and the
 * session-registry lookups. The agent's turn is specified by `ChatTurn`, a
 * function on the registry and the store; sequences of turns by `Converse`.
 */
module Agent {
  import opened Wrappers
  import opened Text
  import opened ChatStates
  import opened ChatUtils
  import LlmProvider
  import opened Nodes
  import opened ChatGraph

  /** Returned when the final thread holds no AI message. */
  const NoResponseReply: string := "I apologize, but I couldn't generate a response. Please try again."

  /** Returned when the turn raises: an uninitialised agent, a failing pipeline, a malformed result. */
  const ChatErrorReply: string := "I apologize, but I'm experiencing technical difficulties. Please try again."

  /** The contents of the AI messages of a list, in list order. */
  function AiContents(messages: seq<Message>): seq<string>
  {
    if messages == [] then []
    else
      var last := messages[|messages| - 1];
      AiContents(messages[..|messages| - 1]) + (if last.AIMessage? then [last.content] else [])
  }

  /**
   * The AI contents are empty exactly when no message is an AI message;
   * otherwise the last of them is the content of the last AI message.
   */
  lemma {:induction false} AiContentsLast(messages: seq<Message>)
    ensures var contents := AiContents(messages);
      && (contents == [] <==> forall i :: 0 <= i < |messages| ==> !messages[i].AIMessage?)
      && (contents != [] ==>
            exists i :: 0 <= i < |messages| && messages[i] == AIMessage(contents[|contents| - 1])
              && (forall j :: i < j < |messages| ==> !messages[j].AIMessage?))
  {
    if messages != [] {
      var init := messages[..|messages| - 1];
      AiContentsLast(init);
      assert forall i :: 0 <= i < |init| ==> init[i] == messages[i];
    }
  }

  /** What the compiled graph hands back to the agent: the final messages, a result without them, or an exception. */
  datatype GraphOutcome = Returned(messages: seq<Message>) | Malformed | RaisedError

  /** The text `chat` returns for an outcome (the list filter and the `[-1]` of the source). */
  function ChatReply(outcome: GraphOutcome): string
  {
    match outcome
    case Returned(messages) =>
      var ai := AiContents(messages);
      if ai != [] then ai[|ai| - 1] else NoResponseReply
    case _ => ChatErrorReply
  }

  /**
   * The reply is the content of the last AI message; the no-response apology
   * when there is no AI message; the technical-difficulties apology when
   * anything raised or the result has no messages.
   */
  lemma ChatReplyCases(outcome: GraphOutcome)
    ensures var reply := ChatReply(outcome);
      && (!outcome.Returned? ==> reply == ChatErrorReply)
      && (outcome.Returned? && (forall i :: 0 <= i < |outcome.messages| ==> !outcome.messages[i].AIMessage?) ==>
            reply == NoResponseReply)
      && (outcome.Returned? && (exists i :: 0 <= i < |outcome.messages| && outcome.messages[i].AIMessage?) ==>
            exists i :: 0 <= i < |outcome.messages| && outcome.messages[i] == AIMessage(reply)
              && forall j :: i < j < |outcome.messages| ==> !outcome.messages[j].AIMessage?)
  {
    if outcome.Returned? {
      AiContentsLast(outcome.messages);
    }
  }

  /** A list that ends with an AI message replies with that message's content. */
  lemma ReplyOfTrailingAi(messages: seq<Message>, content: string)
    ensures ChatReply(Returned(messages + [AIMessage(content)])) == content
  {
    var ms := messages + [AIMessage(content)];
    assert ms[..|ms| - 1] == messages;
  }

  /** The two kinds of entry a history keeps. */
  datatype EntryType = Human | Ai

  /** One entry of `get_conversation_history` (its always-empty timestamp is not modelled). */
  datatype HistoryEntry = HistoryEntry(kind: EntryType, content: string)

  /** The entry a message contributes: human and AI messages give one, every other kind none. */
  function EntryOf(m: Message): seq<HistoryEntry>
  {
    match m
    case HumanMessage(content) => [HistoryEntry(Human, content)]
    case AIMessage(content) => [HistoryEntry(Ai, content)]
    case _ => []
  }

  /** The history of a thread: its human and AI messages, in thread order, as entries. */
  function HistoryOf(messages: seq<Message>): seq<HistoryEntry>
  {
    if messages == [] then []
    else HistoryOf(messages[..|messages| - 1]) + EntryOf(messages[|messages| - 1])
  }

  /** Every entry of a history comes from a human or AI message of the thread, and there are no more entries than messages. */
  lemma {:induction false} HistoryEntriesFromThread(messages: seq<Message>)
    ensures var history := HistoryOf(messages);
      && |history| <= |messages|
      && (forall k :: 0 <= k < |history| && history[k].kind == Human ==> HumanMessage(history[k].content) in messages)
      && (forall k :: 0 <= k < |history| && history[k].kind == Ai ==> AIMessage(history[k].content) in messages)
  {
    if messages != [] {
      var init := messages[..|messages| - 1];
      HistoryEntriesFromThread(init);
      assert forall m :: m in init ==> m in messages;
    }
  }

  lemma {:induction false} HistoryOfConcat(a: seq<Message>, b: seq<Message>)
    ensures HistoryOf(a + b) == HistoryOf(a) + HistoryOf(b)
  {
    if b == [] {
      assert a + b == a;
    } else {
      assert (a + b)[..|a + b| - 1] == a + b[..|b| - 1];
      HistoryOfConcat(a, b[..|b| - 1]);
    }
  }

  /** A system message adds nothing to a history. */
  lemma SystemPrefixHistory(m: Message, rest: seq<Message>)
    requires m.SystemMessage?
    ensures HistoryOf([m] + rest) == HistoryOf(rest)
  {
    HistoryOfConcat([m], rest);
    assert HistoryOf([m]) == HistoryOf([]) + EntryOf(m);
  }

  /** The contents of the human entries of a history, in order. */
  function HumanContents(history: seq<HistoryEntry>): seq<string>
  {
    if history == [] then []
    else
      var last := history[|history| - 1];
      HumanContents(history[..|history| - 1]) + (if last.kind == Human then [last.content] else [])
  }

  lemma {:induction false} HumanContentsConcat(a: seq<HistoryEntry>, b: seq<HistoryEntry>)
    ensures HumanContents(a + b) == HumanContents(a) + HumanContents(b)
  {
    if b == [] {
      assert a + b == a;
    } else {
      assert (a + b)[..|a + b| - 1] == a + b[..|b| - 1];
      HumanContentsConcat(a, b[..|b| - 1]);
    }
  }

  /** One call of `chat`: the user's message, the session id (used as thread id) and the user type. */
  datatype Turn = Turn(message: string, sessionId: string, userType: string)

  /** The state a turn starts from: only the new human message, not yet processed. */
  function TurnInput(turn: Turn): ChatState
  {
    ChatState([HumanMessage(turn.message)], turn.sessionId, turn.userType, false)
  }

  /** What the agent keeps between turns: the session registry and the checkpointed threads. */
  datatype Store = Store(sessions: map<string, SessionInfo>, threads: map<string, seq<Message>>)

  /** The reply of a turn and the store after it. */
  datatype Turned = Turned(reply: string, store: Store)

  /** One turn of an initialised agent: run the graph on the session's thread and read the reply off the result. */
  function ChatTurn(llm: Option<ChatModel>, store: Store, turn: Turn): Turned
  {
    var r := GraphInvoke(llm, store.sessions, store.threads, TurnInput(turn), turn.sessionId);
    Turned(ChatReply(Returned(r.state.messages)), Store(r.sessions, r.threads))
  }

  /** The messages stage 2 hands to the model in a turn: the saved thread and the new message, prepared by stage 1. */
  function Prepared(store: Store, turn: Turn): ChatState
  {
    InputProcessed(Resumed(store.threads, TurnInput(turn), turn.sessionId))
  }

  /** The reply of a turn is the model's answer to the prepared thread (or the mock text, or the stage-2 apology). */
  lemma TurnReply(llm: Option<ChatModel>, store: Store, turn: Turn)
    ensures ChatTurn(llm, store, turn).reply == ModelReply(llm, Prepared(store, turn))
  {
    var resumed := Resumed(store.threads, TurnInput(turn), turn.sessionId);
    var prepared := Prepared(store, turn);
    PipelineOutcome(llm, store.sessions, resumed);
    ReplyOfTrailingAi(prepared.messages, ModelReply(llm, prepared));
  }

  /**
   * A turn bookkeeps its session exactly as stage 3 does: created with count
   * 1 and the turn's user type, or its count raised by 1 with the role kept.
   */
  lemma TurnSessions(llm: Option<ChatModel>, store: Store, turn: Turn)
    ensures ChatTurn(llm, store, turn).store.sessions == Bookkept(store.sessions, TurnInput(turn)).sessions
  {
    var resumed := Resumed(store.threads, TurnInput(turn), turn.sessionId);
    PipelineOutcome(llm, store.sessions, resumed);
    BookkeepingFields(store.sessions, resumed, TurnInput(turn));
  }

  /** A turn saves the prepared thread followed by the reply under the session id, and no other thread. */
  lemma TurnSaved(llm: Option<ChatModel>, store: Store, turn: Turn)
    ensures var t := ChatTurn(llm, store, turn);
      t.store.threads == store.threads[turn.sessionId := Prepared(store, turn).messages + [AIMessage(t.reply)]]
  {
    PipelineOutcome(llm, store.sessions, Resumed(store.threads, TurnInput(turn), turn.sessionId));
    TurnReply(llm, store, turn);
  }

  /**
   * Preparing a turn adds the new human message to the history of the saved
   * thread and leaves it with a system message exactly once if it held at
   * most one.
   */
  lemma PreparedThread(store: Store, turn: Turn)
    ensures var saved := ThreadOf(store.threads, turn.sessionId);
      var prepared := Prepared(store, turn).messages;
      && HistoryOf(prepared) == HistoryOf(saved) + [HistoryEntry(Human, turn.message)]
      && SystemCount(prepared) == if SystemCount(saved) == 0 then 1 else SystemCount(saved)
  {
    var saved := ThreadOf(store.threads, turn.sessionId);
    var human := [HumanMessage(turn.message)];
    var resumed := Resumed(store.threads, TurnInput(turn), turn.sessionId);
    assert resumed.messages == saved + human;
    InputProcessingContract(resumed);
    SystemCountConcat(saved, human);
    assert SystemCount(human) == 0 by { assert human[..0] == []; }
    SystemCountZero(saved);
    SystemCountZero(saved + human);
    HistoryOfConcat(saved, human);
    assert HistoryOf(human) == [HistoryEntry(Human, turn.message)] by { assert human[..0] == []; }
    if !HasSystemMessage(resumed.messages) {
      SystemPrefixHistory(SystemMessage(GetSystemPrompt(turn.userType)), resumed.messages);
    }
  }

  /**
   * A turn saves the session's thread and no other. The saved thread's
   * history is the old one followed by the human message and the reply, and
   * it holds a system message exactly once if the old one held at most one.
   */
  lemma TurnThreads(llm: Option<ChatModel>, store: Store, turn: Turn)
    ensures var t := ChatTurn(llm, store, turn);
      var old_ := ThreadOf(store.threads, turn.sessionId);
      && t.store.threads.Keys == store.threads.Keys + {turn.sessionId}
      && (forall id :: id in store.threads && id != turn.sessionId ==> t.store.threads[id] == store.threads[id])
      && HistoryOf(t.store.threads[turn.sessionId])
        == HistoryOf(old_) + [HistoryEntry(Human, turn.message), HistoryEntry(Ai, t.reply)]
      && SystemCount(t.store.threads[turn.sessionId]) == if SystemCount(old_) == 0 then 1 else SystemCount(old_)
  {
    var t := ChatTurn(llm, store, turn);
    var prepared := Prepared(store, turn).messages;
    TurnSaved(llm, store, turn);
    assert t.store.threads == store.threads[turn.sessionId := prepared + [AIMessage(t.reply)]];
    PreparedThread(store, turn);
    AnsweredThread(prepared, t.reply);
  }

  /** Appending the AI answer adds one AI entry to the history and no system message. */
  lemma AnsweredThread(prepared: seq<Message>, reply: string)
    ensures HistoryOf(prepared + [AIMessage(reply)]) == HistoryOf(prepared) + [HistoryEntry(Ai, reply)]
    ensures SystemCount(prepared + [AIMessage(reply)]) == SystemCount(prepared)
  {
    var answered := prepared + [AIMessage(reply)];
    assert answered[..|answered| - 1] == prepared;
  }

  /** The reply of a turn is empty only when the model itself answered with an empty text. */
  lemma TurnReplyNonEmpty(llm: Option<ChatModel>, store: Store, turn: Turn)
    requires llm.Some? && llm.value.respond(Prepared(store, turn).messages).Replied? ==>
      llm.value.respond(Prepared(store, turn).messages).content != ""
    ensures ChatTurn(llm, store, turn).reply != ""
  {
    TurnReply(llm, store, turn);
    var prepared := Prepared(store, turn);
    if llm.None? {
      var reply := ModelReply(llm, prepared);
      ModelReplyCases(llm, prepared);
      var i: nat :| OccursAt(reply, "without OpenAI API key", i);
    } else if llm.value.respond(prepared.messages).Raised? {
      assert |LlmErrorReply| > 0;
    }
  }

  /** Without a model, the reply is the mock text, which names the turn's user type. */
  lemma UnconfiguredReplyNamesUserType(store: Store, turn: Turn)
    ensures Contains(ChatTurn(None, store, turn).reply, "User type: " + turn.userType)
    ensures Contains(ChatTurn(None, store, turn).reply, "without OpenAI API key")
  {
    TurnReply(None, store, turn);
    ModelReplyCases(None, Prepared(store, turn));
  }

  /**
   * The reply text is not always non-empty: a model that answers with empty
   * content makes `chat` return the empty string.
   */
  lemma EmptyAnswerEmptyReply(llm: Option<ChatModel>, store: Store, turn: Turn)
    requires llm.Some? && llm.value.respond(Prepared(store, turn).messages) == Replied("")
    ensures ChatTurn(llm, store, turn).reply == ""
  {
    TurnReply(llm, store, turn);
  }

  /** The store after a sequence of turns, run one after another. */
  function Converse(llm: Option<ChatModel>, store: Store, turns: seq<Turn>): Store
  {
    if turns == [] then store
    else ChatTurn(llm, Converse(llm, store, turns[..|turns| - 1]), turns[|turns| - 1]).store
  }

  /** The number of turns on a session. */
  function TurnsOn(turns: seq<Turn>, id: string): nat
  {
    if turns == [] then 0
    else TurnsOn(turns[..|turns| - 1], id) + (if turns[|turns| - 1].sessionId == id then 1 else 0)
  }

  /** The messages submitted on a session, in submission order. */
  function MessagesOn(turns: seq<Turn>, id: string): seq<string>
  {
    if turns == [] then []
    else
      var last := turns[|turns| - 1];
      MessagesOn(turns[..|turns| - 1], id) + (if last.sessionId == id then [last.message] else [])
  }

  /** The user type of the first turn on a session, if there is one. */
  function FirstRoleOn(turns: seq<Turn>, id: string): Option<string>
  {
    if turns == [] then None
    else
      var earlier := FirstRoleOn(turns[..|turns| - 1], id);
      if earlier.Some? then earlier
      else if turns[|turns| - 1].sessionId == id then Some(turns[|turns| - 1].userType)
      else None
  }

  /** After a sequence of turns a session is registered iff it was before or had a turn. */
  lemma {:induction false} ConverseSessions(llm: Option<ChatModel>, store: Store, turns: seq<Turn>, id: string)
    ensures var s := Converse(llm, store, turns).sessions;
      && (id in s <==> id in store.sessions || TurnsOn(turns, id) > 0)
  {
    if turns != [] {
      var init := turns[..|turns| - 1];
      var last := turns[|turns| - 1];
      var before := Converse(llm, store, init);
      ConverseSessions(llm, store, init, id);
      TurnSessions(llm, before, last);
      BookkeepingContract(before.sessions, TurnInput(last));
    }
  }

  /** A registered session's count is its old count (0 for a new session) plus its number of turns. */
  lemma {:induction false} ConverseCount(llm: Option<ChatModel>, store: Store, turns: seq<Turn>, id: string)
    requires id in Converse(llm, store, turns).sessions
    ensures Converse(llm, store, turns).sessions[id].messageCount
      == (if id in store.sessions then store.sessions[id].messageCount else 0) + TurnsOn(turns, id)
  {
    if turns != [] {
      var init := turns[..|turns| - 1];
      var last := turns[|turns| - 1];
      var before := Converse(llm, store, init);
      ConverseSessions(llm, store, init, id);
      TurnSessions(llm, before, last);
      BookkeepingContract(before.sessions, TurnInput(last));
      if id in before.sessions {
        ConverseCount(llm, store, init, id);
      }
    }
  }

  /** A registered session keeps the user type it had, or else the one of its first turn. */
  lemma {:induction false} ConverseRole(llm: Option<ChatModel>, store: Store, turns: seq<Turn>, id: string)
    requires id in Converse(llm, store, turns).sessions
    ensures var info := Converse(llm, store, turns).sessions[id];
      && (id in store.sessions ==> info.userType == store.sessions[id].userType)
      && (id !in store.sessions ==> FirstRoleOn(turns, id) == Some(info.userType))
  {
    if turns != [] {
      var init := turns[..|turns| - 1];
      var last := turns[|turns| - 1];
      var before := Converse(llm, store, init);
      ConverseSessions(llm, store, init, id);
      TurnSessions(llm, before, last);
      BookkeepingContract(before.sessions, TurnInput(last));
      if id in before.sessions {
        ConverseRole(llm, store, init, id);
      } else {
        FirstRoleOnTurns(init, id);
      }
    }
  }

  /** A session has a first turn exactly when it has any turn. */
  lemma {:induction false} FirstRoleOnTurns(turns: seq<Turn>, id: string)
    ensures FirstRoleOn(turns, id).Some? <==> TurnsOn(turns, id) > 0
  {
    if turns != [] {
      FirstRoleOnTurns(turns[..|turns| - 1], id);
    }
  }

  /**
   * After a sequence of turns, the human entries of a session's history are
   * its old ones followed by the messages submitted on it, in order.
   */
  lemma {:induction false} ConverseHistory(llm: Option<ChatModel>, store: Store, turns: seq<Turn>, id: string)
    ensures HumanContents(HistoryOf(ThreadOf(Converse(llm, store, turns).threads, id)))
      == HumanContents(HistoryOf(ThreadOf(store.threads, id))) + MessagesOn(turns, id)
  {
    if turns != [] {
      var init := turns[..|turns| - 1];
      var last := turns[|turns| - 1];
      var before := Converse(llm, store, init);
      var after := ChatTurn(llm, before, last);
      assert Converse(llm, store, turns) == after.store;
      ConverseHistory(llm, store, init, id);
      TurnHumans(llm, before, last, id);
    }
  }

  /** One turn adds its message to the human entries of its own session's history, and changes no other history. */
  lemma TurnHumans(llm: Option<ChatModel>, store: Store, turn: Turn, id: string)
    ensures HumanContents(HistoryOf(ThreadOf(ChatTurn(llm, store, turn).store.threads, id)))
      == HumanContents(HistoryOf(ThreadOf(store.threads, id))) + (if turn.sessionId == id then [turn.message] else [])
  {
    var t := ChatTurn(llm, store, turn);
    TurnThreads(llm, store, turn);
    if turn.sessionId == id {
      var entries := [HistoryEntry(Human, turn.message), HistoryEntry(Ai, t.reply)];
      assert ThreadOf(t.store.threads, id) == t.store.threads[id];
      HumanContentsConcat(HistoryOf(ThreadOf(store.threads, id)), entries);
      HumanContentsOfTurn(turn.message, t.reply);
    } else {
      assert ThreadOf(t.store.threads, id) == ThreadOf(store.threads, id);
    }
  }

  /** A human entry followed by an AI entry contributes exactly the human content. */
  lemma HumanContentsOfTurn(message: string, reply: string)
    ensures HumanContents([HistoryEntry(Human, message), HistoryEntry(Ai, reply)]) == [message]
  {
    var entries := [HistoryEntry(Human, message), HistoryEntry(Ai, reply)];
    var first := [HistoryEntry(Human, message)];
    assert entries[..1] == first;
    assert first[..0] == [];
    assert HumanContents(first) == [message];
    assert HumanContents(entries) == HumanContents(first);
  }

  /**
   * N sequential turns on one new session: its count is N, its user type is
   * the first turn's, and the human entries of its history are exactly the
   * submitted messages in submission order.
   */
  lemma SingleSessionConversation(llm: Option<ChatModel>, turns: seq<Turn>, id: string)
    requires |turns| > 0
    requires forall k :: 0 <= k < |turns| ==> turns[k].sessionId == id
    ensures var s := Converse(llm, Store(map[], map[]), turns);
      && id in s.sessions
      && s.sessions[id].messageCount == |turns|
      && s.sessions[id].userType == turns[0].userType
      && HumanContents(HistoryOf(ThreadOf(s.threads, id))) == seq(|turns|, k requires 0 <= k < |turns| => turns[k].message)
  {
    OnOneSession(turns, id);
    ConverseSessions(llm, Store(map[], map[]), turns, id);
    ConverseCount(llm, Store(map[], map[]), turns, id);
    ConverseRole(llm, Store(map[], map[]), turns, id);
    ConverseHistory(llm, Store(map[], map[]), turns, id);
  }

  lemma {:induction false} OnOneSession(turns: seq<Turn>, id: string)
    requires forall k :: 0 <= k < |turns| ==> turns[k].sessionId == id
    ensures TurnsOn(turns, id) == |turns|
    ensures MessagesOn(turns, id) == seq(|turns|, k requires 0 <= k < |turns| => turns[k].message)
    ensures |turns| > 0 ==> FirstRoleOn(turns, id) == Some(turns[0].userType)
  {
    if turns != [] {
      var init := turns[..|turns| - 1];
      OnOneSession(init, id);
      if init != [] {
        assert init[0] == turns[0];
      }
    }
  }

  /**
   * What the registry and the store keep across turns: every thread holds
   * exactly one system message, and every session is filed under its own
   * id, has a thread, and counts at least one and at most as many turns as
   * its thread holds human messages.
   */
  ghost predicate StoreInvariant(store: Store)
  {
    && (forall t :: t in store.threads ==> SystemCount(store.threads[t]) == 1)
    && (forall id :: id in store.sessions ==>
          && store.sessions[id].sessionId == id
          && id in store.threads
          && 1 <= store.sessions[id].messageCount <= |HumanContents(HistoryOf(store.threads[id]))|)
  }

  lemma TurnPreservesInvariant(llm: Option<ChatModel>, store: Store, turn: Turn)
    requires StoreInvariant(store)
    ensures StoreInvariant(ChatTurn(llm, store, turn).store)
  {
    var after := ChatTurn(llm, store, turn).store;
    var id := turn.sessionId;
    var old_ := ThreadOf(store.threads, id);
    TurnSessions(llm, store, turn);
    BookkeepingContract(store.sessions, TurnInput(turn));
    TurnThreads(llm, store, turn);
    TurnHumans(llm, store, turn, id);
    assert ThreadOf(after.threads, id) == after.threads[id];
    assert |HumanContents(HistoryOf(after.threads[id]))| == |HumanContents(HistoryOf(old_))| + 1;
    forall t | t in after.threads
      ensures SystemCount(after.threads[t]) == 1
    {
      if t == id && id !in store.threads {
        assert old_ == [];
      }
    }
    forall x | x in after.sessions
      ensures after.sessions[x].sessionId == x && x in after.threads
      ensures 1 <= after.sessions[x].messageCount <= |HumanContents(HistoryOf(after.threads[x]))|
    {
      if x != id {
        assert after.sessions[x] == store.sessions[x];
        assert after.threads[x] == store.threads[x];
      } else if id in store.sessions {
        assert old_ == store.threads[id];
      }
    }
  }

  /** The store after `clear_session`: only the registry entry goes, the thread stays. */
  function Cleared(store: Store, id: string): (cleared: Store)
    ensures cleared.sessions.Keys == store.sessions.Keys - {id}
    ensures forall other :: other in cleared.sessions ==> cleared.sessions[other] == store.sessions[other]
    ensures cleared.threads == store.threads
  {
    Store(store.sessions - {id}, store.threads)
  }

  lemma ClearPreservesInvariant(store: Store, id: string)
    requires StoreInvariant(store)
    ensures StoreInvariant(Cleared(store, id))
  {
  }

  /** Invariant of every store reached from the empty one by turns. */
  lemma {:induction false} ConverseInvariant(llm: Option<ChatModel>, turns: seq<Turn>)
    ensures StoreInvariant(Converse(llm, Store(map[], map[]), turns))
  {
    if turns != [] {
      ConverseInvariant(llm, turns[..|turns| - 1]);
      TurnPreservesInvariant(llm, Converse(llm, Store(map[], map[]), turns[..|turns| - 1]), turns[|turns| - 1]);
    }
  }

  /**
   * Chatting on a cleared session starts its count again at 1 with the new
   * user type, while its thread keeps every earlier message: the next
   * history still begins with the old one.
   */
  lemma ClearThenChat(llm: Option<ChatModel>, store: Store, turn: Turn)
    ensures var t := ChatTurn(llm, Cleared(store, turn.sessionId), turn);
      var id := turn.sessionId;
      && t.store.sessions[id] == SessionInfo(id, 1, turn.userType)
      && HistoryOf(t.store.threads[id])
        == HistoryOf(ThreadOf(store.threads, id)) + [HistoryEntry(Human, turn.message), HistoryEntry(Ai, t.reply)]
  {
    TurnSessions(llm, Cleared(store, turn.sessionId), turn);
    BookkeepingContract(Cleared(store, turn.sessionId).sessions, TurnInput(turn));
    TurnThreads(llm, Cleared(store, turn.sessionId), turn);
  }

  /**
   * The model `initialize` builds: the OpenAI client when `OPENAI_API_KEY` is
   * set and non-empty, otherwise none.
   */
  function AgentModel(env: LlmProvider.Env, respond: seq<Message> -> ModelOutcome): (llm: Option<ChatModel>)
    ensures llm.None? <==> !LlmProvider.KeySet(env, "OPENAI_API_KEY")
    ensures llm.Some? ==>
      llm.value.backend == LlmProvider.ChatOpenAI("gpt-4o-mini", env["OPENAI_API_KEY"]) && llm.value.respond == respond
  {
    match LlmProvider.OpenAiClient(env)
    case None => None
    case Some(backend) => Some(ChatModel(backend, respond))
  }

  /** The agent's client is the one the provider selection builds for "openai". */
  lemma AgentModelIsOpenAiSelection(env: LlmProvider.Env, installed: set<LlmProvider.Package>,
                                    respond: seq<Message> -> ModelOutcome)
    ensures var selected := LlmProvider.GetLlm(env["LLM_PROVIDER" := "openai"], installed);
      && (AgentModel(env, respond).Some? <==> selected.Some?)
      && (selected.Some? ==> AgentModel(env, respond).value.backend == selected.value)
  {
    var e := env["LLM_PROVIDER" := "openai"];
    assert LlmProvider.Lower("openai") == "openai";
    assert LlmProvider.ProviderName(e) == "openai";
    assert LlmProvider.OpenAiClient(e) == LlmProvider.OpenAiClient(env);
  }

  class ChatAgent {
    var graph: CompiledGraph?
    var llm: Option<ChatModel>
    const memory: Checkpointer
    const sessions: SessionStore
    var chatNodes: ChatNodes?
    var graphBuilder: ChatGraphBuilder?

    /** Once initialised, the graph runs the agent's own nodes over the agent's own registry, model and store. */
    ghost predicate Valid()
      reads this
    {
      graph != null ==>
        && chatNodes != null && graphBuilder != null
        && graph.nodes == chatNodes && graphBuilder.chatNodes == chatNodes
        && chatNodes.sessions == sessions && chatNodes.llm == llm
        && graph.memory == memory
    }

    function Contents(): Store
      reads this, sessions, memory
    {
      Store(sessions.entries, memory.threads)
    }

    /** A new agent: no graph, no model, no nodes, an empty registry and an empty store. */
    constructor ()
      ensures Valid()
      ensures graph == null && llm.None? && chatNodes == null && graphBuilder == null
      ensures fresh(sessions) && fresh(memory)
      ensures Contents() == Store(map[], map[])
    {
      graph := null;
      llm := None;
      memory := new Checkpointer();
      sessions := new SessionStore();
      chatNodes := null;
      graphBuilder := null;
    }

    /**
     * Builds the model from the environment, the nodes over the agent's own
     * registry and the graph over its own store. Nothing stored changes.
     */
    method Initialize(env: LlmProvider.Env, respond: seq<Message> -> ModelOutcome)
      modifies this
      ensures Valid() && graph != null
      ensures llm == AgentModel(env, respond)
      ensures llm.None? <==> !LlmProvider.KeySet(env, "OPENAI_API_KEY")
      ensures chatNodes != null && chatNodes.sessions == sessions
      ensures sessions.entries == old(sessions.entries) && memory.threads == old(memory.threads)
    {
      if !LlmProvider.KeySet(env, "OPENAI_API_KEY") {
        llm := None;
      } else {
        llm := Some(ChatModel(LlmProvider.ChatOpenAI("gpt-4o-mini", env["OPENAI_API_KEY"]), respond));
      }
      chatNodes := new ChatNodes(llm, Some(sessions));
      graphBuilder := new ChatGraphBuilder(chatNodes);
      graph := graphBuilder.BuildGraph(memory);
    }

    /**
     * One chat turn. Uninitialised, it returns the technical-difficulties
     * apology and changes nothing; otherwise reply, registry and store are
     * those of `ChatTurn`.
     */
    method Chat(message: string, sessionId: string := "default", userType: string := "customer") returns (reply: string)
      requires Valid()
      modifies sessions, memory
      ensures Valid()
      ensures graph == null ==> reply == ChatErrorReply && Contents() == old(Contents())
      ensures graph != null ==>
        var t := ChatTurn(llm, old(Contents()), Turn(message, sessionId, userType));
        reply == t.reply && Contents() == t.store
    {
      if graph == null {
        // calling the missing graph raises, and the exception becomes the apology
        reply := ChatErrorReply;
        return;
      }
      var initialState := ChatState([HumanMessage(message)], sessionId, userType, false);
      var result := graph.Invoke(initialState, sessionId);
      reply := ChatReply(Returned(result.messages));
    }

    /** Whether the registry holds the session. */
    predicate SessionExists(sessionId: string)
      reads sessions
    {
      sessionId in sessions.entries
    }

    /**
     * The history of the session's thread; empty when the agent is not
     * initialised or the thread is unknown.
     */
    method GetConversationHistory(sessionId: string) returns (history: seq<HistoryEntry>)
      requires Valid()
      ensures graph == null ==> history == []
      ensures graph != null ==> history == HistoryOf(ThreadOf(memory.threads, sessionId))
    {
      history := [];
      if graph == null {
        // reading the missing graph raises, and the exception gives the empty history
        return;
      }
      var current := graph.GetState(sessionId);
      if current.Some? && current.value != [] {
        var messages := current.value;
        var i := 0;
        while i < |messages|
          invariant 0 <= i <= |messages|
          invariant history == HistoryOf(messages[..i])
        {
          assert messages[..i + 1][..i] == messages[..i];
          match messages[i] {
            case HumanMessage(content) =>
              history := history + [HistoryEntry(Human, content)];
            case AIMessage(content) =>
              history := history + [HistoryEntry(Ai, content)];
            case _ =>
          }
          i := i + 1;
        }
        assert messages[..i] == messages;
      }
    }

    /** Deletes the session's registry entry, if any; the checkpointed thread stays. */
    method ClearSession(sessionId: string)
      modifies sessions
      ensures Contents() == Cleared(old(Contents()), sessionId)
    {
      if sessionId in sessions.entries {
        sessions.entries := sessions.entries - {sessionId};
      }
    }

    /** The session's registry entry, or none. */
    function GetSessionInfo(sessionId: string): (info: Option<SessionInfo>)
      reads sessions
      ensures info.Some? <==> SessionExists(sessionId)
      ensures info.Some? ==> info.value == sessions.entries[sessionId]
    {
      if sessionId in sessions.entries then Some(sessions.entries[sessionId]) else None
    }
  }
}
