/**
 * The session directory of the chat page (front/src/app/components/SideBar.tsx):
 * the list of session summaries the sidebar shows, its loading flag, and
 * the handlers that load the list, delete a session and forward selection
 * and new-chat clicks to the conversation controller.
 */
module Sidebar {
  import opened Common
  import Conversation

  /** One session summary as the sidebar keeps it. */
  datatype ChatHistoryItem = ChatHistoryItem(id: string, title: string, timestamp: Timestamp, lastMessage: string)

  /** How the session-list request settles: an ok response with the server's
      list, a response that is not ok, or an exception. */
  datatype LoadOutcome = Listed(sessions: seq<ChatHistoryItem>) | LoadNotOk | LoadThrew(error: string)

  /** How a delete request settles. */
  datatype DeleteOutcome = DeleteOk | DeleteNotOk | DeleteThrew(error: string)

  /** `history.filter(chat => chat.id !== chatId)`: the entries whose id is
      not `chatId`. No entry with that id is left, and an entry is kept
      exactly when it was there and has another id. */
  function RemoveChat(history: seq<ChatHistoryItem>, chatId: string): (r: seq<ChatHistoryItem>)
    ensures |r| <= |history|
    ensures forall i :: 0 <= i < |r| ==> r[i].id != chatId
    ensures forall x :: x in r <==> x in history && x.id != chatId
  {
    if history == [] then []
    else (if history[0].id == chatId then [] else [history[0]]) + RemoveChat(history[1..], chatId)
  }

  /** Removal works piecewise, so the entries that remain keep their
      original relative order. */
  lemma {:induction false} RemoveChatDistributes(a: seq<ChatHistoryItem>, b: seq<ChatHistoryItem>, chatId: string)
    ensures RemoveChat(a + b, chatId) == RemoveChat(a, chatId) + RemoveChat(b, chatId)
  {
    if a != [] {
      assert (a + b)[1..] == a[1..] + b;
      RemoveChatDistributes(a[1..], b, chatId);
    } else {
      assert a + b == b;
    }
  }

  /** A list with no entry for `chatId` is left as it is. */
  lemma {:induction false} RemoveChatAbsent(history: seq<ChatHistoryItem>, chatId: string)
    requires forall i :: 0 <= i < |history| ==> history[i].id != chatId
    ensures RemoveChat(history, chatId) == history
  {
    if history != [] {
      RemoveChatAbsent(history[1..], chatId);
    }
  }

  /** Deleting the same id twice is deleting it once. */
  lemma RemoveChatIdempotent(history: seq<ChatHistoryItem>, chatId: string)
    ensures RemoveChat(RemoveChat(history, chatId), chatId) == RemoveChat(history, chatId)
  {
    RemoveChatAbsent(RemoveChat(history, chatId), chatId);
  }

  /** An entry with another id survives in place between what remains of
      the entries before it and what remains of those after it. */
  lemma RemoveChatKeepsOthersInOrder(before: seq<ChatHistoryItem>, x: ChatHistoryItem,
                                     after: seq<ChatHistoryItem>, chatId: string)
    requires x.id != chatId
    ensures RemoveChat(before + [x] + after, chatId)
            == RemoveChat(before, chatId) + [x] + RemoveChat(after, chatId)
  {
    var head := before + [x];
    RemoveChatDistributes(head, after, chatId);
    RemoveChatDistributes(before, [x], chatId);
    assert [x][1..] == [];
    assert RemoveChat([x], chatId) == [x];
    assert RemoveChat(head, chatId) == RemoveChat(before, chatId) + [x];
  }

  /** The sidebar's state, updated in place by its handlers. */
  class SideBar {
    var chatHistory: seq<ChatHistoryItem>
    var isLoading: bool

    constructor ()
      ensures chatHistory == [] && !isLoading
    {
      chatHistory, isLoading := [], false;
    }

    /** `loadChatHistory` up to its `await`: loading starts. */
    method LoadChatHistory()
      modifies this
      ensures isLoading && chatHistory == old(chatHistory)
    {
      isLoading := true;
    }

    /** `loadChatHistory` after its `await`: an ok response replaces the whole
        list by the server's, in the server's order; a response that is not ok
        or an exception keeps the list. Loading ends in every case. */
    method ChatHistoryLoaded(outcome: LoadOutcome)
      modifies this
      ensures !isLoading
      ensures outcome.Listed? ==> chatHistory == outcome.sessions
      ensures !outcome.Listed? ==> chatHistory == old(chatHistory)
    {
      if outcome.Listed? {
        chatHistory := outcome.sessions;
      }
      isLoading := false;
    }

    /** `deleteChat`: only a successful delete removes the session's entries,
        from the list as it is when the request settles; the loading flag is
        not involved. */
    method DeleteChat(chatId: string, outcome: DeleteOutcome)
      modifies this
      ensures isLoading == old(isLoading)
      ensures outcome == DeleteOk ==> chatHistory == RemoveChat(old(chatHistory), chatId)
      ensures outcome != DeleteOk ==> chatHistory == old(chatHistory)
    {
      if outcome == DeleteOk {
        chatHistory := RemoveChat(chatHistory, chatId);
      }
    }

    /** `handleNewChat`: forwards to the page's new-chat handler; the sidebar
        itself does not change. */
    method HandleNewChat(home: Conversation.Home)
      modifies home
      ensures home.State() == Conversation.NewChatStep(old(home.State()))
      ensures chatHistory == old(chatHistory) && isLoading == old(isLoading)
    {
      home.HandleNewChat();
    }

    /** `handleSelectChat`: forwards the id to the page's select handler,
        which starts loading that session; the sidebar itself does not change. */
    method HandleSelectChat(home: Conversation.Home, chatId: string)
      modifies home
      ensures home.State() == Conversation.SelectStartStep(old(home.State()))
      ensures chatHistory == old(chatHistory) && isLoading == old(isLoading)
    {
      home.HandleSelectChat(chatId);
    }
  }
}
