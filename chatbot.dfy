/**
 * The chat message records the UI creates for a question and for the answer
 * being streamed back (redisinsight/ui/src/utils/transformers/chatbot.ts).
 * The uuid the source draws from `uuidv4()` is an argument here.
 */
module Chatbot {
  import opened Js

  datatype AiChatMessageType = HumanMessage | AIMessage

  /** What a failed answer leaves on its question: status code, optional error code and details. */
  datatype AiChatError = AiChatError(statusCode: int, errorCode: Option<int>, details: Option<map<string, string>>)

  /**
   * A chat message as the UI holds it. `context` is an object that a question
   * carries (empty when created) and an answer does not; `error` is set only
   * on a question whose answer failed.
   */
  datatype AiChatMessage = AiChatMessage(
    id: string,
    messageType: AiChatMessageType,
    content: string,
    context: Option<map<string, string>>,
    error: Option<AiChatError>)

  const ClientIdPrefix: string := "ai_"

  /** The id, `ai_` followed by a uuid, that the UI gives to a message it creates or loads. */
  function ClientId(uuid: string): (id: string)
    ensures |id| == |ClientIdPrefix| + |uuid|
    ensures id[..|ClientIdPrefix|] == ClientIdPrefix && id[|ClientIdPrefix|..] == uuid
  {
    ClientIdPrefix + uuid
  }

  /** The uuid inside a client id, if the id has the client prefix. */
  function UuidOf(id: string): Option<string> {
    if |id| >= |ClientIdPrefix| && id[..|ClientIdPrefix|] == ClientIdPrefix then Some(id[|ClientIdPrefix|..]) else None
  }

  /** A client id gives back the uuid it was made from; distinct uuids give distinct ids. */
  lemma ClientIdRoundTrip(uuid: string, other: string)
    ensures UuidOf(ClientId(uuid)) == Some(uuid)
    ensures ClientId(uuid) == ClientId(other) ==> uuid == other
  {
  }

  /** `generateHumanMessage(message)` with `uuidv4()` returning `uuid`. */
  function GenerateHumanMessage(message: string, uuid: string): (m: AiChatMessage)
    ensures m.messageType == HumanMessage && m.content == message
    ensures m.context == Some(map[]) && m.error == None
    ensures UuidOf(m.id) == Some(uuid)
  {
    AiChatMessage(ClientId(uuid), HumanMessage, message, Some(map[]), None)
  }

  /** `generateAiMessage()` with `uuidv4()` returning `uuid`: an empty answer without context. */
  function GenerateAiMessage(uuid: string): (m: AiChatMessage)
    ensures m.messageType == AIMessage && m.content == ""
    ensures m.context == None && m.error == None
    ensures UuidOf(m.id) == Some(uuid)
  {
    AiChatMessage(ClientId(uuid), AIMessage, "", None, None)
  }

  /**
   * Two questions built from the same text are the same record but for the id,
   * and the ids differ whenever the uuids do.
   */
  lemma HumanMessagesDifferOnlyInId(message: string, uuid1: string, uuid2: string)
    ensures GenerateHumanMessage(message, uuid1).(id := "") == GenerateHumanMessage(message, uuid2).(id := "")
    ensures uuid1 != uuid2 <==> GenerateHumanMessage(message, uuid1) != GenerateHumanMessage(message, uuid2)
  {
    ClientIdRoundTrip(uuid1, uuid2);
  }
}
