/** The chat panel of a document (`ChatInterface.tsx`): loading the history,
    sending a message with an optimistic append that is rolled back when the
    send fails, and the panel's title. The clock that names the temporary
    message is a parameter, and the awaited actions' results are inputs. */
module ChatInterface {
  import opened Wrappers
  import opened JsText
  import opened Types
  import Seqs

  /** The part of the state that a history load decides. */
  datatype HistoryView = HistoryView(messages: seq<ChatMessage>, sessionInfo: Option<ChatSessionInfo>, error: Option<string>)

  /** What `fetchHistory` leaves behind, given the state before and what the
      awaited `getChatHistoryAction` did. */
  function AfterHistory(messages: seq<ChatMessage>, sessionInfo: Option<ChatSessionInfo>,
                        result: Outcome<Reply<ChatHistoryResponse>>): (v: HistoryView)
    ensures v.error.None? <==> result.Returned? && !Truthy(result.value.error) && result.value.value.Some?
    ensures v.error.None? ==> v.messages == result.value.value.value.messages &&
                              v.sessionInfo == Some(result.value.value.value.session)
    ensures result.Returned? && v.error.Some? ==> v.messages == [] && v.sessionInfo == None
    ensures result.Returned? && v.error.Some? ==> v.error == Some(OrElse(result.value.error, "Failed to load chat history."))
    ensures result.Threw? ==> v.messages == messages && v.sessionInfo == sessionInfo
    ensures v.error.Some? ==> v.error.value != ""
  {
    match result
    case Returned(reply) =>
      if Truthy(reply.error) || reply.value.None? then
        HistoryView([], None, Some(OrElse(reply.error, "Failed to load chat history.")))
      else
        HistoryView(reply.value.value.messages, Some(reply.value.value.session), None)
    case Threw(message) =>
      HistoryView(messages, sessionInfo, Some("An unexpected error occurred while fetching history: " + message))
  }

  /** `messages.filter(msg => msg.id !== tempId)`. */
  function WithoutMessage(messages: seq<ChatMessage>, tempId: string): seq<ChatMessage>
  {
    Seqs.Filter(messages, (m: ChatMessage) => m.id != tempId)
  }

  /** Rolling back an optimistic message restores the list it was appended
      to, as long as no earlier message carries the temporary id. */
  lemma RollbackRestores(prev: seq<ChatMessage>, optimistic: ChatMessage)
    requires forall i :: 0 <= i < |prev| ==> prev[i].id != optimistic.id
    ensures WithoutMessage(prev + [optimistic], optimistic.id) == prev
  {
    Seqs.FilterUndoesAppend(prev, optimistic, (m: ChatMessage) => m.id != optimistic.id);
  }

  /** Whatever the list holds, the rollback keeps every occurrence of every
      other message, in order, and leaves none with the temporary id. */
  lemma RollbackKeepsOthers(messages: seq<ChatMessage>, tempId: string)
    ensures forall i :: 0 <= i < |WithoutMessage(messages, tempId)| ==> WithoutMessage(messages, tempId)[i].id != tempId
    ensures forall i :: 0 <= i < |messages| && messages[i].id != tempId ==> messages[i] in WithoutMessage(messages, tempId)
    ensures forall m :: multiset(WithoutMessage(messages, tempId))[m] == if m.id != tempId then multiset(messages)[m] else 0
    ensures Seqs.IsSubsequence(WithoutMessage(messages, tempId), messages)
  {
    Seqs.FilterCounts(messages, (m: ChatMessage) => m.id != tempId);
    Seqs.FilterIsSubsequence(messages, (m: ChatMessage) => m.id != tempId);
  }

  /** `temp-${Date.now()}`. */
  function TempId(now: int): (id: string)
    ensures StartsWith(id, "temp-") && |id| > 5
  {
    "temp-" + IntToString(now)
  }

  /** What the message pane shows. */
  datatype Pane = Skeletons | ErrorAlert(message: string) | NoMessagesYet | Bubbles(messages: seq<ChatMessage>)

  class ChatPanel {
    const sessionId: string
    const chatTitleProp: Option<string>
    var messages: seq<ChatMessage>
    var sessionInfo: Option<ChatSessionInfo>
    var inputValue: string
    var isLoadingHistory: bool
    var isSendingMessage: bool
    var error: Option<string>

    constructor (sessionId: string, chatTitleProp: Option<string>)
      ensures this.sessionId == sessionId && this.chatTitleProp == chatTitleProp
      ensures messages == [] && sessionInfo == None && inputValue == ""
      ensures isLoadingHistory && !isSendingMessage && error == None
    {
      this.sessionId := sessionId;
      this.chatTitleProp := chatTitleProp;
      messages := [];
      sessionInfo := None;
      inputValue := "";
      isLoadingHistory := true;
      isSendingMessage := false;
      error := None;
    }

    /** `chatSessionInfo?.title || chatTitleProp || "Chat"`: never empty. */
    function Title(): (r: string)
      reads this
      ensures r != ""
      ensures sessionInfo.Some? && sessionInfo.value.title != "" ==> r == sessionInfo.value.title
      ensures (sessionInfo.None? || sessionInfo.value.title == "") && Truthy(chatTitleProp) ==> r == chatTitleProp.value
      ensures (sessionInfo.None? || sessionInfo.value.title == "") && !Truthy(chatTitleProp) ==> r == "Chat"
    {
      if sessionInfo.Some? && sessionInfo.value.title != "" then sessionInfo.value.title
      else OrElse(chatTitleProp, "Chat")
    }

    /** The pane: skeletons while loading, then the error, then the
        messages or the hint that there are none. */
    function ShownPane(): (p: Pane)
      reads this
      ensures p.Bubbles? <==> !isLoadingHistory && !Truthy(error) && |messages| > 0
      ensures p.Bubbles? ==> p.messages == messages
      ensures p.ErrorAlert? ==> Truthy(error) && p.message == error.value
    {
      if isLoadingHistory then Skeletons
      else if Truthy(error) then ErrorAlert(error.value)
      else if |messages| == 0 then NoMessagesYet
      else Bubbles(messages)
    }

    /** The send button is enabled only with some non-blank input and no load
        or send in progress. */
    predicate CanSend()
      reads this
    {
      !isSendingMessage && !isLoadingHistory && !AllWhitespace(inputValue)
    }

    /** The input's `onChange`; the input is disabled while history loads or
        a message is being sent, so typing then changes nothing. */
    method SetInput(value: string)
      modifies this
      ensures inputValue == (if old(isSendingMessage) || old(isLoadingHistory) then old(inputValue) else value)
      ensures messages == old(messages) && sessionInfo == old(sessionInfo) && error == old(error)
      ensures isLoadingHistory == old(isLoadingHistory) && isSendingMessage == old(isSendingMessage)
    {
      if !isSendingMessage && !isLoadingHistory {
        inputValue := value;
      }
    }

    /** `fetchHistory(showLoadingSpinner)`: the spinner flag is raised and
        lowered only when asked for. */
    method FetchHistory(showLoadingSpinner: bool, result: Outcome<Reply<ChatHistoryResponse>>)
      modifies this
      ensures HistoryView(messages, sessionInfo, error) == AfterHistory(old(messages), old(sessionInfo), result)
      ensures isLoadingHistory == (if showLoadingSpinner then false else old(isLoadingHistory))
      ensures inputValue == old(inputValue) && isSendingMessage == old(isSendingMessage)
    {
      if showLoadingSpinner {
        isLoadingHistory := true;
      }
      error := None;
      match result {
        case Returned(reply) =>
          if Truthy(reply.error) || reply.value.None? {
            error := Some(OrElse(reply.error, "Failed to load chat history."));
            messages := [];
            sessionInfo := None;
          } else {
            messages := reply.value.value.messages;
            sessionInfo := Some(reply.value.value.session);
          }
        case Threw(message) =>
          error := Some("An unexpected error occurred while fetching history: " + message);
      }
      if showLoadingSpinner {
        isLoadingHistory := false;
      }
    }

    /** The synchronous start of `handleSendMessage`. Blank input or a send in
        flight changes nothing; otherwise one user message holding the input
        as typed is appended, the input is cleared and the send flag raised.
        The optimistic message is returned for the awaited part. */
    method BeginSend(now: int, isoNow: string) returns (optimistic: Option<ChatMessage>)
      modifies this
      ensures AllWhitespace(old(inputValue)) || old(isSendingMessage) ==>
                optimistic.None? &&
                messages == old(messages) && inputValue == old(inputValue) && error == old(error) &&
                isSendingMessage == old(isSendingMessage)
      ensures !AllWhitespace(old(inputValue)) && !old(isSendingMessage) ==>
                optimistic == Some(ChatMessage(TempId(now), User, old(inputValue), Some(isoNow), None, None)) &&
                messages == old(messages) + [optimistic.value] &&
                inputValue == "" && isSendingMessage && error == None
      ensures sessionInfo == old(sessionInfo) && isLoadingHistory == old(isLoadingHistory)
      ensures old(CanSend()) ==> optimistic.Some?
    {
      var blank := IsBlank(inputValue);
      if blank || isSendingMessage {
        return None;
      }
      var m := ChatMessage(TempId(now), User, inputValue, Some(isoNow), None, None);
      messages := messages + [m];
      inputValue := "";
      isSendingMessage := true;
      error := None;
      optimistic := Some(m);
    }

    /** The awaited part of `handleSendMessage`, given what the send action
        did and, when it succeeded, what the quiet history refresh returned.
        A failed or thrown send removes the optimistic message; the send flag
        is lowered on every path. */
    method FinishSend(tempId: string, sent: Outcome<Ack>, refreshed: Outcome<Reply<ChatHistoryResponse>>)
      modifies this
      ensures sent.Returned? && (Truthy(sent.value.error) || !sent.value.success) ==>
                messages == WithoutMessage(old(messages), tempId) && sessionInfo == old(sessionInfo) &&
                error == Some(OrElse(sent.value.error, "Failed to send message."))
      ensures sent.Threw? ==>
                messages == WithoutMessage(old(messages), tempId) && sessionInfo == old(sessionInfo) &&
                error == Some("An unexpected error occurred while sending message: " + sent.message)
      ensures sent.Returned? && !Truthy(sent.value.error) && sent.value.success ==>
                HistoryView(messages, sessionInfo, error) == AfterHistory(old(messages), old(sessionInfo), refreshed)
      ensures !isSendingMessage
      ensures inputValue == old(inputValue) && isLoadingHistory == old(isLoadingHistory)
    {
      match sent {
        case Returned(ack) =>
          if Truthy(ack.error) || !ack.success {
            error := Some(OrElse(ack.error, "Failed to send message."));
            messages := WithoutMessage(messages, tempId);
          } else {
            FetchHistory(false, refreshed);
          }
        case Threw(message) =>
          error := Some("An unexpected error occurred while sending message: " + message);
          messages := WithoutMessage(messages, tempId);
      }
      isSendingMessage := false;
    }
  }

  /** A send that fails puts the message list back as it was before the
      send, provided no message already carried the temporary id, and leaves
      the panel ready to send again. */
  method SendThenFail(panel: ChatPanel, now: int, isoNow: string, failure: Outcome<Ack>, unused: Outcome<Reply<ChatHistoryResponse>>)
    requires failure.Threw? || !failure.value.success
    requires !panel.isSendingMessage
    requires forall i :: 0 <= i < |panel.messages| ==> panel.messages[i].id != TempId(now)
    modifies panel
    ensures panel.messages == old(panel.messages)
    ensures !panel.isSendingMessage
  {
    var optimistic := panel.BeginSend(now, isoNow);
    if optimistic.Some? {
      RollbackRestores(old(panel.messages), optimistic.value);
      panel.FinishSend(optimistic.value.id, failure, unused);
    }
  }
}
