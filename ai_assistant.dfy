/**
 * The AI-assistant slice of the UI store
 * (redisinsight/ui/src/slices/panels/aiAssistant.ts): the chat state, one
 * method per reducer, and the rule by which the thunks build their request
 * URLs.
 */
module AiAssistant {
  import opened Js
  import opened Chatbot

  /** An agreement record as the server returns it; the reducers store it without looking inside. */
  datatype AiAgreement = AiAgreement(fields: map<string, string>)

  // ---------------------------------------------------------------------------
  // The list transformations the reducers apply

  /**
   * The list `setAiQuestionError` stores (aiAssistant.ts:95-98): every message
   * carrying `id` gets `error`, nothing else changes.
   */
  function MarkQuestionError(messages: seq<AiChatMessage>, id: string, error: Option<AiChatError>): (r: seq<AiChatMessage>)
    ensures |r| == |messages|
    ensures forall i :: 0 <= i < |r| ==> r[i].(error := messages[i].error) == messages[i]
    ensures forall i :: 0 <= i < |r| && messages[i].id == id ==> r[i].error == error
    ensures forall i :: 0 <= i < |r| && messages[i].id != id ==> r[i] == messages[i]
  {
    seq(|messages|, i requires 0 <= i < |messages| =>
      if messages[i].id == id then messages[i].(error := error) else messages[i])
  }

  /**
   * The list `getAiChatHistorySuccess` stores for a payload (aiAssistant.ts:76):
   * each message keeps all its fields but the id, which becomes a fresh client
   * id; the uuid drawn for the i-th message is `uuidAt(i)`.
   */
  function WithClientIds(payload: seq<AiChatMessage>, uuidAt: nat -> string): (r: seq<AiChatMessage>)
    ensures |r| == |payload|
    ensures forall i :: 0 <= i < |r| ==> r[i].(id := payload[i].id) == payload[i]
    ensures forall i :: 0 <= i < |r| ==> UuidOf(r[i].id) == Some(uuidAt(i))
  {
    seq(|payload|, i requires 0 <= i < |payload| => payload[i].(id := ClientId(uuidAt(i))))
  }

  /** The messages `getAiChatHistorySuccess` stores: the re-identified payload, or none. */
  function LoadedMessages(payload: Option<seq<AiChatMessage>>, uuidAt: nat -> string): (r: seq<AiChatMessage>)
    ensures payload.None? ==> r == []
    ensures payload.Some? ==> r == WithClientIds(payload.value, uuidAt)
  {
    match payload
    case None => []
    case Some(p) => WithClientIds(p, uuidAt)
  }

  predicate DistinctIds(messages: seq<AiChatMessage>) {
    forall i, j :: 0 <= i < j < |messages| ==> messages[i].id != messages[j].id
  }

  /** Loaded messages get pairwise distinct ids whenever the uuids drawn are distinct. */
  lemma LoadedIdsDistinct(payload: seq<AiChatMessage>, uuidAt: nat -> string)
    requires forall i, j :: 0 <= i < j < |payload| ==> uuidAt(i) != uuidAt(j)
    ensures DistinctIds(WithClientIds(payload, uuidAt))
  {
    var r := WithClientIds(payload, uuidAt);
    forall i, j | 0 <= i < j < |r| ensures r[i].id != r[j].id {
      assert UuidOf(r[i].id) == Some(uuidAt(i));
      assert UuidOf(r[j].id) == Some(uuidAt(j));
    }
  }

  /**
   * What a failed answer does after its question was sent: when the question's
   * id is new, only the question just appended gets the error.
   */
  lemma ErrorMarksOnlyTheNewQuestion(messages: seq<AiChatMessage>, question: AiChatMessage, error: Option<AiChatError>)
    requires forall i :: 0 <= i < |messages| ==> messages[i].id != question.id
    ensures MarkQuestionError(messages + [question], question.id, error) == messages + [question.(error := error)]
  {
    var r := MarkQuestionError(messages + [question], question.id, error);
    assert forall i :: 0 <= i < |messages| ==> (messages + [question])[i] == messages[i];
    assert r[|messages|] == question.(error := error);
  }

  /** Marking twice with the same id keeps only the second error, and keeps the ids. */
  lemma MarkQuestionErrorLastWins(messages: seq<AiChatMessage>, id: string, e1: Option<AiChatError>, e2: Option<AiChatError>)
    ensures MarkQuestionError(MarkQuestionError(messages, id, e1), id, e2) == MarkQuestionError(messages, id, e2)
  {
  }

  // ---------------------------------------------------------------------------
  // The store

  /**
   * The slice state: the `ai` sub-state (two loading flags, the agreements or
   * null, the ordered messages) and the splash-screen flag beside it.
   */
  class AiAssistantState {
    var loading: bool
    var agreementLoading: bool
    var agreements: Option<seq<AiAgreement>>
    var messages: seq<AiChatMessage>
    var hideCopilotSplashScreen: bool

    /** `initialState`, where `stored` is what local storage holds for the splash screen. */
    constructor (stored: Option<bool>)
      ensures !loading && !agreementLoading && agreements == None && messages == []
      ensures hideCopilotSplashScreen == stored.GetOr(false)
    {
      loading := false;
      agreementLoading := false;
      agreements := None;
      messages := [];
      hideCopilotSplashScreen := stored.GetOr(false);
    }

    method SetHideCopilotSplashScreen(payload: bool)
      modifies this
      ensures hideCopilotSplashScreen == payload
      ensures loading == old(loading) && agreementLoading == old(agreementLoading)
      ensures agreements == old(agreements) && messages == old(messages)
    {
      hideCopilotSplashScreen := payload;
    }

    method GetAiAgreements()
      modifies this
      ensures agreementLoading
      ensures loading == old(loading) && agreements == old(agreements) && messages == old(messages)
      ensures hideCopilotSplashScreen == old(hideCopilotSplashScreen)
    {
      agreementLoading := true;
    }

    method GetAiAgreementsSuccess(payload: seq<AiAgreement>)
      modifies this
      ensures !agreementLoading && agreements == Some(payload)
      ensures loading == old(loading) && messages == old(messages)
      ensures hideCopilotSplashScreen == old(hideCopilotSplashScreen)
    {
      agreementLoading := false;
      agreements := Some(payload);
    }

    method GetAiAgreementsFailed()
      modifies this
      ensures !agreementLoading
      ensures loading == old(loading) && agreements == old(agreements) && messages == old(messages)
      ensures hideCopilotSplashScreen == old(hideCopilotSplashScreen)
    {
      agreementLoading := false;
    }

    method ClearAiAgreements()
      modifies this
      ensures agreements == Some([])
      ensures loading == old(loading) && agreementLoading == old(agreementLoading)
      ensures messages == old(messages) && hideCopilotSplashScreen == old(hideCopilotSplashScreen)
    {
      agreements := Some([]);
    }

    method UpdateAiAgreements()
      modifies this
      ensures agreementLoading
      ensures loading == old(loading) && agreements == old(agreements) && messages == old(messages)
      ensures hideCopilotSplashScreen == old(hideCopilotSplashScreen)
    {
      agreementLoading := true;
    }

    method UpdateAiAgreementsSuccess(payload: seq<AiAgreement>)
      modifies this
      ensures !agreementLoading && agreements == Some(payload)
      ensures loading == old(loading) && messages == old(messages)
      ensures hideCopilotSplashScreen == old(hideCopilotSplashScreen)
    {
      agreementLoading := false;
      agreements := Some(payload);
    }

    method UpdateAiAgreementsFailed()
      modifies this
      ensures !agreementLoading
      ensures loading == old(loading) && agreements == old(agreements) && messages == old(messages)
      ensures hideCopilotSplashScreen == old(hideCopilotSplashScreen)
    {
      agreementLoading := false;
    }

    method GetAiChatHistory()
      modifies this
      ensures loading
      ensures agreementLoading == old(agreementLoading) && agreements == old(agreements)
      ensures messages == old(messages) && hideCopilotSplashScreen == old(hideCopilotSplashScreen)
    {
      loading := true;
    }

    /** `payload` is `None` when the response body is null or undefined. */
    method GetAiChatHistorySuccess(payload: Option<seq<AiChatMessage>>, uuidAt: nat -> string)
      modifies this
      ensures !loading && messages == LoadedMessages(payload, uuidAt)
      ensures agreementLoading == old(agreementLoading) && agreements == old(agreements)
      ensures hideCopilotSplashScreen == old(hideCopilotSplashScreen)
    {
      loading := false;
      messages := LoadedMessages(payload, uuidAt);
    }

    method GetAiChatHistoryFailed()
      modifies this
      ensures !loading
      ensures agreementLoading == old(agreementLoading) && agreements == old(agreements)
      ensures messages == old(messages) && hideCopilotSplashScreen == old(hideCopilotSplashScreen)
    {
      loading := false;
    }

    method SendAiQuestion(payload: AiChatMessage)
      modifies this
      ensures messages == old(messages) + [payload]
      ensures loading == old(loading) && agreementLoading == old(agreementLoading)
      ensures agreements == old(agreements) && hideCopilotSplashScreen == old(hideCopilotSplashScreen)
    {
      messages := messages + [payload];
    }

    method SetAiQuestionError(id: string, error: Option<AiChatError>)
      modifies this
      ensures messages == MarkQuestionError(old(messages), id, error)
      ensures loading == old(loading) && agreementLoading == old(agreementLoading)
      ensures agreements == old(agreements) && hideCopilotSplashScreen == old(hideCopilotSplashScreen)
    {
      messages := MarkQuestionError(messages, id, error);
    }

    method SendAiAnswer(payload: AiChatMessage)
      modifies this
      ensures messages == old(messages) + [payload]
      ensures loading == old(loading) && agreementLoading == old(agreementLoading)
      ensures agreements == old(agreements) && hideCopilotSplashScreen == old(hideCopilotSplashScreen)
    {
      messages := messages + [payload];
    }

    method ClearAiChatHistory()
      modifies this
      ensures messages == []
      ensures loading == old(loading) && agreementLoading == old(agreementLoading)
      ensures agreements == old(agreements) && hideCopilotSplashScreen == old(hideCopilotSplashScreen)
    {
      messages := [];
    }
  }

  /** The HTTP status that makes a failed ask log the user out instead of marking the question. */
  const Unauthorized: int := 401

  /** The status recorded on a failed question: the stream error's status, 500 when it has none. */
  const DefaultErrorStatus: int := 500

  /**
   * The dispatches of `askAiChatbotAction` when the stream fails
   * (aiAssistant.ts:239-242, 263-277), taken as two consecutive dispatches with
   * nothing dispatched while the answer streams, and with a uuid no message
   * already uses. The question is appended. On a 401
   * the user is logged out and the question keeps no error. Any other
   * failure puts the stream error's status (500 when it has none), code and
   * details on that question alone.
   */
  method AskThenFail(state: AiAssistantState, text: string, uuid: string,
                     status: Option<int>, errorCode: Option<int>, details: Option<map<string, string>>)
    requires forall i :: 0 <= i < |state.messages| ==> state.messages[i].id != ClientId(uuid)
    modifies state
    ensures status == Some(Unauthorized) ==>
      state.messages == old(state.messages) + [GenerateHumanMessage(text, uuid)]
    ensures status != Some(Unauthorized) ==>
      state.messages == old(state.messages)
        + [GenerateHumanMessage(text, uuid).(error := Some(AiChatError(status.GetOr(DefaultErrorStatus), errorCode, details)))]
    ensures state.agreements == old(state.agreements) && state.agreementLoading == old(state.agreementLoading)
    ensures state.loading == old(state.loading) && state.hideCopilotSplashScreen == old(state.hideCopilotSplashScreen)
  {
    var question := GenerateHumanMessage(text, uuid);
    state.SendAiQuestion(question);
    if status != Some(Unauthorized) {
      var error := AiChatError(status.GetOr(DefaultErrorStatus), errorCode, details);
      ErrorMarksOnlyTheNewQuestion(old(state.messages), question, Some(error));
      state.SetAiQuestionError(question.id, Some(error));
    }
  }

  // ---------------------------------------------------------------------------
  // Request URLs

  /** The chat path of the thunks (aiAssistant.ts:207-208): the endpoint, then `/` and the id when the id is truthy. */
  function ChatPath(aiChat: string, instanceId: Option<string>): string {
    if IsTruthy(instanceId) then aiChat + "/" + instanceId.value else aiChat
  }

  const MessagesSuffix: string := "/messages"

  /**
   * The messages URL of the history, delete and streaming requests: the id
   * segment appears exactly when the id is truthy.
   */
  function MessagesUrl(aiChat: string, instanceId: Option<string>): (url: string)
    ensures |url| == |aiChat| + |MessagesSuffix| + (if IsTruthy(instanceId) then 1 + |instanceId.value| else 0)
    ensures url[..|aiChat|] == aiChat && url[|url| - |MessagesSuffix|..] == MessagesSuffix
    ensures url[|aiChat|..|url| - |MessagesSuffix|] == (if IsTruthy(instanceId) then "/" + instanceId.value else "")
  {
    ChatPath(aiChat, instanceId) + MessagesSuffix
  }

  /** The agreements URL: the messages URL followed by `/agreements`. */
  function AgreementsUrl(aiChat: string, instanceId: Option<string>): (url: string)
    ensures url == MessagesUrl(aiChat, instanceId) + "/agreements"
  {
    ChatPath(aiChat, instanceId) + "/messages/agreements"
  }

  /**
   * Reads the instance id back out of a messages URL: `Some(None)` for the URL
   * without an id segment, `Some(Some(id))` for one with it, `None` for a URL
   * of another shape.
   */
  function InstanceIdOfMessagesUrl(aiChat: string, url: string): Option<Option<string>> {
    if |url| < |aiChat| + |MessagesSuffix| || url[..|aiChat|] != aiChat
       || url[|url| - |MessagesSuffix|..] != MessagesSuffix then None
    else
      var middle := url[|aiChat|..|url| - |MessagesSuffix|];
      if middle == [] then Some(None)
      else if middle[0] == '/' && |middle| > 1 then Some(Some(middle[1..]))
      else None
  }

  /**
   * The URL determines the id it was built from, with a null and an empty id
   * both giving the URL without an id segment.
   */
  lemma MessagesUrlRoundTrip(aiChat: string, instanceId: Option<string>)
    ensures InstanceIdOfMessagesUrl(aiChat, MessagesUrl(aiChat, instanceId))
            == Some(if IsTruthy(instanceId) then instanceId else None)
  {
    var url := MessagesUrl(aiChat, instanceId);
    if IsTruthy(instanceId) {
      assert url == aiChat + ("/" + instanceId.value) + MessagesSuffix;
      assert url[|aiChat|..|url| - |MessagesSuffix|] == "/" + instanceId.value;
    } else {
      assert url[|aiChat|..|url| - |MessagesSuffix|] == [];
    }
  }

  /** Hence two truthy ids give the same URL only if they are equal. */
  lemma MessagesUrlInjective(aiChat: string, id1: Option<string>, id2: Option<string>)
    requires IsTruthy(id1) && IsTruthy(id2)
    ensures MessagesUrl(aiChat, id1) == MessagesUrl(aiChat, id2) <==> id1 == id2
  {
    MessagesUrlRoundTrip(aiChat, id1);
    MessagesUrlRoundTrip(aiChat, id2);
  }
}
