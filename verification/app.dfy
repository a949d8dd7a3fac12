/**
 * App.tsx: the top-level view switch between the landing page and the chat
 * screen. Only one of the two components is mounted at a time, so leaving
 * the chat screen discards the chat component and its conversation, and
 * entering it again mounts a new one in its initial state.
 */
module AppView {
  import opened Wrappers
  import opened Types
  import Service
  import Chat
  import JsText

  /** `'landing' | 'chat'` */
  datatype View = Landing | ChatView

  /** What `App` renders: the landing page, or the mounted chat component. */
  datatype Page = LandingPage | ChatPage(chat: Chat.ChatInterface)

  class App {
    var currentView: View
    /** The mounted `ChatInterface`, present exactly while the chat view is shown. */
    var chat: Chat.ChatInterface?

    ghost predicate Valid()
      reads this
    {
      currentView == ChatView <==> chat != null
    }

    /** The app starts on the landing page. */
    constructor ()
      ensures Valid() && currentView == Landing && chat == null
    {
      currentView := Landing;
      chat := null;
    }

    /**
     * The landing page's `onStartChat`: the view becomes `'chat'`; coming from
     * the landing page, a new chat component is mounted in its initial state.
     */
    method OnStartChat()
      requires Valid()
      modifies this
      ensures Valid() && currentView == ChatView
      ensures old(currentView) == Landing ==>
        fresh(chat) && chat.messages == [Chat.Welcome] && chat.inputText == "" && !chat.isLoading
      ensures old(currentView) == ChatView ==> chat == old(chat)
    {
      if currentView == Landing {
        chat := new Chat.ChatInterface();
      }
      currentView := ChatView;
    }

    /** The chat screen's `onBack`: the view becomes `'landing'` and the chat component is unmounted. */
    method OnBack()
      requires Valid()
      modifies this
      ensures Valid() && currentView == Landing && chat == null
    {
      currentView := Landing;
      chat := null;
    }

    /** The page shown: the landing page exactly when the view is `'landing'`, otherwise the chat component. */
    function Rendered(): (p: Page)
      requires Valid()
      reads this
      ensures p.LandingPage? <==> currentView == Landing
      ensures p.ChatPage? <==> currentView == ChatView
      ensures p.ChatPage? ==> p.chat == chat
    {
      if currentView == Landing then LandingPage else ChatPage(chat)
    }
  }

  /**
   * Going back to the landing page and into the chat again starts a new
   * conversation: after a message has been sent, the round trip leaves only
   * the welcome message.
   */
  method RoundTripResetsConversation(apiKey: Option<string>, reply: Service.SdkReply)
    returns (during: seq<Message>, after: seq<Message>)
    ensures |during| >= 3 && during[0] == Chat.Welcome && during[1] == Chat.UserMessage("1", "hi")
    ensures after == [Chat.Welcome]
  {
    var service := new Service.GeminiService();
    var app := new App();
    app.OnStartChat();
    var chat := app.chat;
    chat.OnInputChange("hi");
    assert JsText.Trim("hi") == "hi";
    ghost var renders := chat.HandleSendMessage(service, apiKey, reply, "1", "2", "3");
    during := chat.messages;
    app.OnBack();
    app.OnStartChat();
    after := app.chat.messages;
  }
}
