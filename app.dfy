/**
  The chat window's state: the message list, the input box, the loading
  flag and the sidebar flag, and the handlers that change them. Sending
  runs in three steps, as the source's `async` handler does: the synchronous
  part up to the `await`, the call into the chat manager, and the answer that
  replaces the placeholder. `Date.now()` readings are parameters.
 */
module App {
  import opened Types
  import opened Text
  import GeminiService

  const WelcomeText: string :=
    "Hello! I'm InspectorAI. I can help you access inspection history, find reports, " +
    "or search for specific defects in the database. What equipment are you looking for today?"

  /** The single message the list starts with. */
  const Welcome: Message := Message("welcome", Model, WelcomeText, None)

  const QuickSelectPrefix: string := "Show me the inspection history for "

  /** `handleQuickSelect`: the input text that asks for one record's history. */
  function QuickSelectText(eqName: string): string
  {
    QuickSelectPrefix + eqName
  }

  /**
    A quick-select text is never blank, so the send guard lets it through;
    it names the record it was built from, and no other name builds it.
   */
  lemma QuickSelectTextShape(a: string, b: string)
    ensures !IsBlank(QuickSelectText(a))
    ensures QuickSelectText(a)[|QuickSelectPrefix|..] == a
    ensures QuickSelectText(a) == QuickSelectText(b) <==> a == b
  {
    assert QuickSelectText(a)[0] == 'S';
    assert QuickSelectText(a)[|QuickSelectPrefix|..] == a;
    assert QuickSelectText(b)[|QuickSelectPrefix|..] == b;
  }

  /** The id of a message stamped with `Date.now().toString()`. */
  function UserId(clock: nat): string
  {
    NatToDecimal(clock)
  }

  /** `'loading-' + Date.now()`. */
  function LoadingId(clock: nat): string
  {
    "loading-" + NatToDecimal(clock)
  }

  /** A user message is never mistaken for a placeholder, whatever the two clock readings. */
  lemma UserAndLoadingIdsDiffer(a: nat, b: nat)
    ensures UserId(a) != LoadingId(b)
  {
    assert IsDigit(UserId(a)[0]);
    assert LoadingId(b)[0] == 'l';
  }

  function UserMessage(clock: nat, text: string): Message
  {
    Message(UserId(clock), User, text, None)
  }

  /** The empty model message shown while the reply is pending. */
  function Placeholder(clock: nat): Message
  {
    Message(LoadingId(clock), Model, "", Some(true))
  }

  /**
    `prev.map(msg => msg.id === id ? { ...msg, content, isThinking: false } : msg)`:
    every message carrying `id` gets the reply and stops thinking; every other
    message, and every id and role, stays as it was.
   */
  function Answer(prev: seq<Message>, id: string, content: string): (r: seq<Message>)
    ensures |r| == |prev|
    ensures forall k :: 0 <= k < |prev| ==> r[k].id == prev[k].id && r[k].role == prev[k].role
    ensures forall k :: 0 <= k < |prev| && prev[k].id != id ==> r[k] == prev[k]
    ensures forall k :: 0 <= k < |prev| && prev[k].id == id ==>
      r[k].content == content && r[k].isThinking == Some(false)
  {
    seq(|prev|, k requires 0 <= k < |prev| =>
      if prev[k].id == id then prev[k].(content := content, isThinking := Some(false)) else prev[k])
  }

  /**
    When the placeholder's id is fresh, answering it leaves the earlier
    messages and the user message alone and turns the placeholder into the
    reply.
   */
  lemma AnswerFresh(prev: seq<Message>, userClock: nat, text: string, loadingClock: nat, reply: string)
    requires forall k :: 0 <= k < |prev| ==> prev[k].id != LoadingId(loadingClock)
    ensures Answer(prev + [UserMessage(userClock, text), Placeholder(loadingClock)], LoadingId(loadingClock), reply) ==
      prev + [UserMessage(userClock, text), Message(LoadingId(loadingClock), Model, reply, Some(false))]
  {
    UserAndLoadingIdsDiffer(userClock, loadingClock);
    var all := prev + [UserMessage(userClock, text), Placeholder(loadingClock)];
    var r := Answer(all, LoadingId(loadingClock), reply);
    var want := prev + [UserMessage(userClock, text), Message(LoadingId(loadingClock), Model, reply, Some(false))];
    forall k | 0 <= k < |all|
      ensures r[k] == want[k]
    {
      if k < |prev| {
        assert all[k] == prev[k];
      }
    }
  }

  /** The component's state. `manager` is the module-level `chatManager`, `db` the store its tools read. */
  class ChatWindow {
    var messages: seq<Message>
    var inputValue: string
    var isLoading: bool
    var isSidebarOpen: bool
    const manager: GeminiService.ChatManager
    const db: seq<Equipment>

    /** The initial `useState` values. */
    constructor(manager: GeminiService.ChatManager, db: seq<Equipment>)
      ensures messages == [Welcome] && inputValue == "" && !isLoading && !isSidebarOpen
      ensures this.manager == manager && this.db == db
    {
      messages := [Welcome];
      inputValue := "";
      isLoading := false;
      isSidebarOpen := false;
      this.manager := manager;
      this.db := db;
    }

    /** The textarea's `onChange`. */
    method SetInput(text: string)
      modifies this
      ensures inputValue == text
      ensures messages == old(messages) && isLoading == old(isLoading) && isSidebarOpen == old(isSidebarOpen)
    {
      inputValue := text;
    }

    /** `handleQuickSelect`: fills the input; on a narrow window it also closes the sidebar. */
    method QuickSelect(eqName: string, windowWidth: int)
      modifies this
      ensures inputValue == QuickSelectText(eqName)
      ensures isSidebarOpen == (old(isSidebarOpen) && windowWidth >= 768)
      ensures messages == old(messages) && isLoading == old(isLoading)
    {
      inputValue := QuickSelectText(eqName);
      if windowWidth < 768 {
        isSidebarOpen := false;
      }
    }

    /**
      The part of `handleSendMessage` before the `await`. A blank input or a
      pending request changes nothing; otherwise the input is cleared, the
      untrimmed text is appended as a user message followed by the thinking
      placeholder, and the window is loading.
     */
    method Submit(userClock: nat, loadingClock: nat) returns (accepted: bool, userText: string, loadingId: string)
      modifies this
      ensures accepted <==> !IsBlank(old(inputValue)) && !old(isLoading)
      ensures !accepted ==> messages == old(messages) && inputValue == old(inputValue) && isLoading == old(isLoading)
      ensures accepted ==> (userText == old(inputValue) && loadingId == LoadingId(loadingClock) &&
        inputValue == "" && isLoading &&
        messages == old(messages) + [UserMessage(userClock, userText), Placeholder(loadingClock)])
      ensures isSidebarOpen == old(isSidebarOpen)
    {
      if IsBlank(inputValue) || isLoading {
        return false, "", "";
      }
      accepted := true;
      userText := inputValue;
      inputValue := "";
      messages := messages + [UserMessage(userClock, userText)];
      loadingId := LoadingId(loadingClock);
      messages := messages + [Placeholder(loadingClock)];
      isLoading := true;
    }

    /** The part after the `await`: the placeholder takes the reply and loading ends. */
    method Complete(loadingId: string, responseText: string)
      modifies this
      ensures messages == Answer(old(messages), loadingId, responseText)
      ensures !isLoading
      ensures inputValue == old(inputValue) && isSidebarOpen == old(isSidebarOpen)
    {
      messages := Answer(messages, loadingId, responseText);
      isLoading := false;
    }

    /**
      `handleSendMessage`. The chat manager turns every failure into its
      error text, so the `catch` branch is never taken and the placeholder
      always receives the manager's reply.
     */
    method HandleSendMessage(userClock: nat, loadingClock: nat)
      modifies this, manager.chat
      ensures var text := old(inputValue);
        if IsBlank(text) || old(isLoading) then
          messages == old(messages) && inputValue == text && isLoading == old(isLoading) &&
          manager.chat.sent == old(manager.chat.sent) && manager.chat.replies == old(manager.chat.replies)
        else
          var o := GeminiService.Conversation(db, text, old(manager.chat.replies));
          inputValue == "" && !isLoading &&
          messages == Answer(old(messages) + [UserMessage(userClock, text), Placeholder(loadingClock)],
            LoadingId(loadingClock), o.reply) &&
          manager.chat.sent == old(manager.chat.sent) + o.sent &&
          manager.chat.replies == old(manager.chat.replies)[o.consumed..]
      ensures isSidebarOpen == old(isSidebarOpen)
    {
      var accepted, userText, loadingId := Submit(userClock, loadingClock);
      if !accepted {
        return;
      }
      var responseText := manager.SendMessage(db, userText);
      Complete(loadingId, responseText);
    }

    /**
      `handleKeyDown`: Enter without Shift runs `handleSendMessage`, with its
      guard; any other key changes nothing here.
     */
    method HandleKeyDown(key: string, shiftKey: bool, userClock: nat, loadingClock: nat)
      modifies this, manager.chat
      ensures !(key == "Enter" && !shiftKey) ==>
        messages == old(messages) && inputValue == old(inputValue) && isLoading == old(isLoading) &&
        manager.chat.sent == old(manager.chat.sent) && manager.chat.replies == old(manager.chat.replies)
      ensures key == "Enter" && !shiftKey ==>
        var text := old(inputValue);
        if IsBlank(text) || old(isLoading) then
          messages == old(messages) && inputValue == text && isLoading == old(isLoading) &&
          manager.chat.sent == old(manager.chat.sent) && manager.chat.replies == old(manager.chat.replies)
        else
          var o := GeminiService.Conversation(db, text, old(manager.chat.replies));
          inputValue == "" && !isLoading &&
          messages == Answer(old(messages) + [UserMessage(userClock, text), Placeholder(loadingClock)],
            LoadingId(loadingClock), o.reply) &&
          manager.chat.sent == old(manager.chat.sent) + o.sent &&
          manager.chat.replies == old(manager.chat.replies)[o.consumed..]
      ensures isSidebarOpen == old(isSidebarOpen)
    {
      if key == "Enter" && !shiftKey {
        HandleSendMessage(userClock, loadingClock);
      }
    }
  }
}
