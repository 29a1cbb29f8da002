/**
 * The HTTP contract between the page and the backend: how a request the
 * page issues reaches a handler, and how the handler's response becomes
 * the outcome the page's handlers settle with. Every response the backend
 * writes is JSON, so on the page's side the body always parses; only the
 * status class decides between "ok" and "not ok" where the page checks it.
 */
module Wire {
  import opened Common
  import Text
  import Conversation
  import Sidebar
  import Views

  /** `response.ok`: a 2xx status. */
  predicate IsOk(status: nat) {
    200 <= status < 300
  }

  /** The body `JSON.stringify` sends for a predict request; an undefined
      session id is dropped, so the member is absent. */
  function BodyOf(req: Conversation.PredictRequest): Views.PredictBody {
    Views.Object(Views.Str(req.input), req.sessionId)
  }

  /** The page's view of a predict response: the status is not checked, and
      a body without `prediction`, `session_id` and `chat_title` has them
      undefined. */
  function SendOutcomeOf(resp: Views.Response): Conversation.SendOutcome {
    match resp.payload
    case Prediction(p, id, title) => Conversation.Parsed(Conversation.Reply(Some(p), Some(id), title))
    case _ => Conversation.Parsed(Conversation.Reply(None, None, ""))
  }

  function MessageOf(e: Views.Entry): Conversation.Message {
    Conversation.Message(e.id, e.content, e.role, e.timestamp, None)
  }

  /** The page's view of a session-history response. */
  function SelectOutcomeOf(resp: Views.Response): Conversation.SelectOutcome {
    if IsOk(resp.status) && resp.payload.History? then
      Conversation.Loaded(seq(|resp.payload.messages|, i requires 0 <= i < |resp.payload.messages| =>
                                MessageOf(resp.payload.messages[i])),
                          resp.payload.sessionTitle)
    else Conversation.NotOk
  }

  function ItemOf(s: Views.Summary): Sidebar.ChatHistoryItem {
    Sidebar.ChatHistoryItem(s.id, s.title, s.timestamp, s.lastMessage)
  }

  /** The sidebar's view of a session-list response. */
  function LoadOutcomeOf(resp: Views.Response): Sidebar.LoadOutcome {
    if IsOk(resp.status) && resp.payload.Sessions? then
      Sidebar.Listed(seq(|resp.payload.sessions|, i requires 0 <= i < |resp.payload.sessions| =>
                           ItemOf(resp.payload.sessions[i])))
    else Sidebar.LoadNotOk
  }

  /** The sidebar's view of a delete response. */
  function DeleteOutcomeOf(resp: Views.Response): Sidebar.DeleteOutcome {
    if IsOk(resp.status) then Sidebar.DeleteOk else Sidebar.DeleteNotOk
  }

  /** Any backend answer other than a prediction, whatever its status,
      makes the page append "No response", not the error text, and adopt
      no session. */
  lemma ErrorAnswerShowsNoResponse(s: Conversation.ChatState, req: Conversation.PredictRequest,
                                   resp: Views.Response, id: string, now: Timestamp)
    requires !resp.payload.Prediction?
    ensures var t := Conversation.SendEndStep(s, req, SendOutcomeOf(resp), id, now);
      && t.messages == s.messages + [Conversation.Message(id, Conversation.NoResponse, Assistant, now, None)]
      && t.currentChatId == s.currentChatId && t.chatTitle == s.chatTitle
  {
  }

  /** The 405, 400 and 500 answers the backend writes are not ok, so the
      sidebar keeps its list after a failed load or delete. */
  lemma ErrorAnswersAreNotOk(resp: Views.Response)
    requires resp.payload.Error?
    requires resp.status == 405 || resp.status == 400 || resp.status == 500
    ensures DeleteOutcomeOf(resp) == Sidebar.DeleteNotOk
    ensures LoadOutcomeOf(resp) == Sidebar.LoadNotOk
    ensures SelectOutcomeOf(resp) == Conversation.NotOk
  {
  }

  /** The session a new conversation adopts is a stored one: when a send
      starts without a session and the backend answers from a store that
      keeps its invariant, the page takes the chosen session's id, which is
      non-empty and names that session, with its name as title. */
  lemma AdoptedSessionIsStored(s: Conversation.ChatState, sessions: seq<Views.Session>, next: nat,
                               freshId: string, now: Timestamp, prediction: string,
                               userId: string, replyId: string, repliedAt: Timestamp)
    requires Conversation.CanSend(s) && !Conversation.Truthy(s.currentChatId)
    requires Views.StoreInvariant(sessions, next)
    requires freshId != "" && forall i :: 0 <= i < |sessions| ==> sessions[i].id != freshId
    requires Views.Validate(BodyOf(Conversation.RequestOf(s))).Accepted?
    ensures var v := Views.Validate(BodyOf(Conversation.RequestOf(s)));
      var c := Views.GetOrCreate(sessions, v.sessionId, freshId, v.input, now);
      var resp := Views.Response(200, Views.Prediction(prediction, c.sessions[c.index].id, c.sessions[c.index].chatName));
      var t := Conversation.Send(s, userId, now, SendOutcomeOf(resp), replyId, repliedAt);
      && t.currentChatId == Some(c.sessions[c.index].id)
      && Conversation.Truthy(t.currentChatId)
      && Views.IndexOf(c.sessions, c.sessions[c.index].id) == Some(c.index)
      && t.chatTitle == c.sessions[c.index].chatName
  {
    var v := Views.Validate(BodyOf(Conversation.RequestOf(s)));
    var c := Views.GetOrCreate(sessions, v.sessionId, freshId, v.input, now);
    Views.GetOrCreateKeepsInvariant(sessions, next, v.sessionId, freshId, v.input, now);
    UniqueIndex(c.sessions, c.index);
  }

  /** In a list of sessions with unique ids, the search for a session's id
      finds that session. */
  lemma UniqueIndex(sessions: seq<Views.Session>, k: nat)
    requires Views.UniqueIds(sessions) && k < |sessions|
    ensures Views.IndexOf(sessions, sessions[k].id) == Some(k)
  {
  }

  /** The page and the backend disagree on white space: text made of an
      information separator (U+001C) passes the page's guard, is refused by
      the backend with 400, and the page shows "No response". A
      byte-order mark (U+FEFF) alone is the opposite case: the page never
      sends it, though the backend would accept it. */
  lemma WhiteSpaceMismatch(s: Conversation.ChatState, id: string, now: Timestamp, replyId: string, repliedAt: Timestamp)
    requires s.inputValue == "\U{1C}" && !s.isLoading
    ensures Conversation.CanSend(s)
    ensures Views.Validate(BodyOf(Conversation.RequestOf(s))) == Views.Rejected(Views.Response(400, Views.Error("No input provided")))
    ensures var resp := Views.Validate(BodyOf(Conversation.RequestOf(s))).response;
      Conversation.Send(s, id, now, SendOutcomeOf(resp), replyId, repliedAt).messages
        == s.messages + [Conversation.Message(id, "\U{1C}", User, now, None),
                         Conversation.Message(replyId, Conversation.NoResponse, Assistant, repliedAt, None)]
    ensures !Conversation.CanSend(s.(inputValue := "\U{FEFF}"))
    ensures Views.Validate(Views.Object(Views.Str("\U{FEFF}"), None)).Accepted?
  {
    assert s.inputValue[0] == '\U{1C}';
    assert !Text.AllSpace(s.inputValue, Text.IsJsSpace);
    assert "\U{FEFF}"[0] == '\U{FEFF}';
    assert !Text.AllSpace("\U{FEFF}", Text.IsPySpace);
    Conversation.SendAppendsTwo(s, id, now, SendOutcomeOf(Views.Response(400, Views.Error("No input provided"))), replyId, repliedAt);
  }

  /** Loading a session's history gives the page two messages per stored
      record, user then assistant, with distinct ids. */
  lemma LoadedHistoryAlternates(session: Views.Session)
    requires Views.DistinctRecordIds(session.messages)
    ensures var o := SelectOutcomeOf(Views.Response(200, Views.History(Views.Flatten(session.messages), session.chatName)));
      && o.Loaded? && |o.messages| == 2 * |session.messages|
      && o.sessionTitle == session.chatName
      && (forall i :: 0 <= i < |session.messages| ==>
            o.messages[2 * i].role == User && o.messages[2 * i].content == session.messages[i].userInput
            && o.messages[2 * i + 1].role == Assistant && o.messages[2 * i + 1].content == session.messages[i].response)
      && (forall p, q :: 0 <= p < q < |o.messages| ==> o.messages[p].id != o.messages[q].id)
  {
    var f := Views.Flatten(session.messages);
    if session.messages != [] {
      Views.FlattenAt(session.messages, 0);
    } else {
      assert f == [];
    }
    forall i | 0 <= i < |session.messages|
      ensures f[2 * i] == Views.UserEntry(session.messages[i])
      ensures f[2 * i + 1] == Views.AssistantEntry(session.messages[i])
    {
      Views.FlattenAt(session.messages, i);
    }
    Views.EntryIdsDistinct(session.messages);
  }
}
