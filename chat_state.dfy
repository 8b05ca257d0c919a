/**
 * The records a chat turn works on: conversation messages, the per-turn
 * pipeline state and the per-session summary.
 */
module ChatStates {

  /**
   * A conversation message. The pipeline creates system, human and AI
   * messages; `OtherMessage` stands for every other message class (tool or
   * function messages) that may sit in a thread and that the history and
   * reply extraction skip.
   */
  datatype Message =
    | SystemMessage(content: string)
    | HumanMessage(content: string)
    | AIMessage(content: string)
    | OtherMessage(kind: string, content: string)

  /** The per-turn pipeline state: exactly these four fields. */
  datatype ChatState = ChatState(messages: seq<Message>, sessionId: string, userType: string, processed: bool)

  /**
   * The per-session summary. The count is a plain integer with no lower
   * bound; both trailing fields have the defaults of the record declaration.
   */
  datatype SessionInfo = SessionInfo(sessionId: string, messageCount: int := 0, userType: string := "customer")

  /** A record built from an id alone has count 0 and role "customer"; explicit values are kept as given. */
  lemma SessionInfoFields(id: string, count: int, role: string)
    ensures SessionInfo(id).messageCount == 0 && SessionInfo(id).userType == "customer"
    ensures SessionInfo(id).sessionId == id
    ensures SessionInfo(id, count, role).sessionId == id
    ensures SessionInfo(id, count, role).messageCount == count
    ensures SessionInfo(id, count, role).userType == role
  {
  }

  /** Records are equal exactly when all three fields are; updating one field keeps the others. */
  lemma SessionInfoEquality(a: SessionInfo, b: SessionInfo, n: int, role: string)
    ensures a == b <==> a.sessionId == b.sessionId && a.messageCount == b.messageCount && a.userType == b.userType
    ensures a.(messageCount := n).sessionId == a.sessionId && a.(messageCount := n).userType == a.userType
    ensures a.(userType := role).sessionId == a.sessionId && a.(userType := role).messageCount == a.messageCount
  {
  }
}
