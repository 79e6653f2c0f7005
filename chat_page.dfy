/** The chat page: its tab, the text being typed and the list of messages. */
module ChatPage {
  import opened Ascii

  datatype ChatMessage = ChatMessage(id: int, text: string, sender: string)

  const SeededMessages: seq<ChatMessage> :=
    [ChatMessage(1, "Hello! How can I help you today?", "assistant"),
     ChatMessage(2, "I have a question about photosynthesis.", "user")]

  class ChatPage {
    var activeTab: string
    var message: string
    var chatMessages: seq<ChatMessage>

    constructor ()
      ensures activeTab == "new" && message == "" && chatMessages == SeededMessages
    {
      activeTab := "new";
      message := "";
      chatMessages := SeededMessages;
    }

    /** The input's change handler. */
    method SetMessage(text: string)
      modifies this`message
      ensures message == text
    {
      message := text;
    }

    /**
     * `handleSendMessage`; `now` is the `Date.now()` used as the new id. A blank message changes
     * nothing; any other is appended as typed, from the user, and the input is cleared.
     */
    method HandleSendMessage(now: int)
      modifies this`message, this`chatMessages
      ensures IsBlank(old(message)) ==> message == old(message) && chatMessages == old(chatMessages)
      ensures !IsBlank(old(message)) ==>
        && chatMessages == old(chatMessages) + [ChatMessage(now, old(message), "user")]
        && |chatMessages| == |old(chatMessages)| + 1
        && chatMessages[..|old(chatMessages)|] == old(chatMessages)
        && message == ""
    {
      TrimSpec(message);
      if Trim(message) == "" {
        return;
      }
      chatMessages := chatMessages + [ChatMessage(now, message, "user")];
      message := "";
    }

    /** A tab button: only the tab changes. */
    method SetActiveTab(tab: string)
      modifies this`activeTab
      ensures activeTab == tab
    {
      activeTab := tab;
    }
  }
}
