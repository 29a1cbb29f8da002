/**
 * The conversation controller of the chat page (`Home` in
 * front/src/app/page.tsx): five pieces of state and the handlers that
 * change them. Each asynchronous handler is split at its `await` into a
 * step that runs when the user acts and a step that runs when the request
 * settles; the settled request is an outcome parameter.
 *
 * `ChatState` and the `...Step` functions say what each step does to the
 * five fields; the class `Home` holds the fields and its methods are proved
 * to perform those steps. The lemmas state what the page promises about
 * single steps and about whole exchanges.
 */
module Conversation {
  import opened Common
  import Text

  /** A chat message as the page keeps it; `error` holds the exception of a
      send that failed. */
  datatype Message = Message(id: string, content: string, role: Role,
                             timestamp: Timestamp, error: Option<string>)

  /** The page's five state variables. */
  datatype ChatState = ChatState(messages: seq<Message>, inputValue: string, isLoading: bool,
                                 currentChatId: Option<string>, chatTitle: string)

  /** The body of a predict request: the text typed and the session id the
      page had when the send began (absent for a new conversation). */
  datatype PredictRequest = PredictRequest(input: string, sessionId: Option<string>)

  /** A predict reply body that parsed as JSON, whatever its HTTP status.
      A missing `chat_title` is represented by "". */
  datatype Reply = Reply(prediction: Option<string>, sessionId: Option<string>, chatTitle: string)

  /** How a predict request settles: a parsed body, or an exception from
      `fetch` or from `response.json()`. */
  datatype SendOutcome = Parsed(reply: Reply) | Threw(error: string)

  /** How a session load settles: an ok response with its messages and
      title, a response that is not ok, or an exception. */
  datatype SelectOutcome = Loaded(messages: seq<Message>, sessionTitle: string)
                         | NotOk
                         | SelectThrew(error: string)

  const NoResponse := "No response"
  const ServerUnreachable := "Error: Could not reach server"

  /** JavaScript truthiness of an optional string. */
  predicate Truthy(o: Option<string>) {
    o.Some? && o.value != ""
  }

  /** The state the page starts in. */
  const Initial := ChatState([], "", false, None, "")

  /** The send guard: the input is not blank after `trim()` and nothing is loading. */
  predicate CanSend(s: ChatState) {
    Text.Strip(s.inputValue, Text.IsJsSpace) != [] && !s.isLoading
  }

  /** The request a send issues from state `s`. */
  function RequestOf(s: ChatState): PredictRequest {
    PredictRequest(s.inputValue, s.currentChatId)
  }

  /** The optimistic user message of a send. */
  function UserMessage(req: PredictRequest, id: string, now: Timestamp): Message {
    Message(id, req.input, User, now, None)
  }

  /** The assistant message a settled send appends. */
  function ReplyMessage(o: SendOutcome, id: string, now: Timestamp): Message {
    match o
    case Parsed(r) =>
      Message(id, if Truthy(r.prediction) then r.prediction.value else NoResponse, Assistant, now, None)
    case Threw(e) =>
      Message(id, ServerUnreachable, Assistant, now, Some(e))
  }

  /** The send adopts the reply's session: the request carried no session
      id and the reply names one. */
  predicate Adopts(req: PredictRequest, o: SendOutcome) {
    o.Parsed? && !Truthy(req.sessionId) && Truthy(o.reply.sessionId)
  }

  function InputStep(s: ChatState, text: string): ChatState {
    s.(inputValue := text)
  }

  function NewChatStep(s: ChatState): ChatState {
    s.(messages := [], currentChatId := None, chatTitle := "")
  }

  function SelectStartStep(s: ChatState): ChatState {
    s.(isLoading := true)
  }

  function SelectEndStep(s: ChatState, chatId: string, o: SelectOutcome): ChatState {
    match o
    case Loaded(ms, title) =>
      s.(messages := ms, currentChatId := Some(chatId), chatTitle := title, isLoading := false)
    case _ => s.(isLoading := false)
  }

  function SendStartStep(s: ChatState, id: string, now: Timestamp): ChatState {
    if CanSend(s) then
      s.(messages := s.messages + [UserMessage(RequestOf(s), id, now)], inputValue := "", isLoading := true)
    else s
  }

  function SendEndStep(s: ChatState, req: PredictRequest, o: SendOutcome, id: string, now: Timestamp): ChatState {
    var appended := s.(messages := s.messages + [ReplyMessage(o, id, now)], isLoading := false);
    if Adopts(req, o) then
      appended.(currentChatId := o.reply.sessionId, chatTitle := o.reply.chatTitle)
    else appended
  }

  /** A whole select: the start step followed by the end step. */
  function Select(s: ChatState, chatId: string, o: SelectOutcome): ChatState {
    SelectEndStep(SelectStartStep(s), chatId, o)
  }

  /** A whole send of the current input, with nothing else happening while
      the request is out. */
  function Send(s: ChatState, userId: string, sentAt: Timestamp,
                o: SendOutcome, replyId: string, repliedAt: Timestamp): ChatState {
    var t := SendStartStep(s, userId, sentAt);
    if CanSend(s) then SendEndStep(t, RequestOf(s), o, replyId, repliedAt) else t
  }

  // ---------------------------------------------------------------------
  // Properties of single steps

  /** A send of blank input, or a send while loading, changes no state at
      all; any other send changes the state. */
  lemma BlockedSendChangesNothing(s: ChatState, id: string, now: Timestamp)
    ensures SendStartStep(s, id, now) == s <==> !CanSend(s)
    ensures Text.AllSpace(s.inputValue, Text.IsJsSpace) || s.isLoading ==> SendStartStep(s, id, now) == s
  {
    if CanSend(s) {
      assert |SendStartStep(s, id, now).messages| == |s.messages| + 1;
    }
  }

  /** A permitted send appends exactly one user message holding the
      untrimmed input, clears the input and sets loading, before any
      outcome is applied; session id and title are untouched. */
  lemma SendStartAppendsUserMessage(s: ChatState, id: string, now: Timestamp)
    requires CanSend(s)
    ensures var t := SendStartStep(s, id, now);
      && t.messages[..|s.messages|] == s.messages
      && |t.messages| == |s.messages| + 1
      && t.messages[|s.messages|].role == User
      && t.messages[|s.messages|].content == s.inputValue
      && t.inputValue == "" && t.isLoading
      && t.currentChatId == s.currentChatId && t.chatTitle == s.chatTitle
  {
  }

  /** When the reply body parses, exactly one assistant message is
      appended, holding the prediction, or "No response" when the
      prediction is absent or empty, whatever the HTTP status was. */
  lemma ParsedReplyAppendsPrediction(s: ChatState, req: PredictRequest, r: Reply, id: string, now: Timestamp)
    ensures var t := SendEndStep(s, req, Parsed(r), id, now);
      && t.messages[..|s.messages|] == s.messages
      && |t.messages| == |s.messages| + 1
      && t.messages[|s.messages|].role == Assistant
      && t.messages[|s.messages|].error == None
      && (t.messages[|s.messages|].content == NoResponse <==>
            r.prediction == None || r.prediction == Some("") || r.prediction == Some(NoResponse))
      && (r.prediction.Some? && r.prediction.value != "" ==> t.messages[|s.messages|].content == r.prediction.value)
  {
  }

  /** When the request or the JSON parsing throws, exactly one assistant
      message is appended, with the fixed error text and the error attached;
      session id and title are untouched. */
  lemma ThrownSendAppendsError(s: ChatState, req: PredictRequest, e: string, id: string, now: Timestamp)
    ensures var t := SendEndStep(s, req, Threw(e), id, now);
      && t.messages == s.messages + [Message(id, ServerUnreachable, Assistant, now, Some(e))]
      && t.currentChatId == s.currentChatId && t.chatTitle == s.chatTitle
      && !t.isLoading
  {
  }

  /** The session id and title change at the end of a send only if the
      request carried no session id and the reply names one; a session id
      present when the send began is never overwritten. */
  lemma SessionAdoptedOnlyWhenUnset(s: ChatState, req: PredictRequest, o: SendOutcome, id: string, now: Timestamp)
    ensures var t := SendEndStep(s, req, o, id, now);
      && (Truthy(req.sessionId) ==> t.currentChatId == s.currentChatId && t.chatTitle == s.chatTitle)
      && (t.currentChatId != s.currentChatId ==> Adopts(req, o))
      && (!Adopts(req, o) ==> t.currentChatId == s.currentChatId && t.chatTitle == s.chatTitle)
      && (Adopts(req, o) ==> t.currentChatId == o.reply.sessionId && t.chatTitle == o.reply.chatTitle)
      && Truthy(t.currentChatId) == (Truthy(s.currentChatId) || Adopts(req, o))
  {
  }

  /** Starting a new chat empties the conversation and forgets its session;
      the input and the loading flag are left as they are, so an in-flight
      send is not cancelled. Starting twice is the same as starting once. */
  lemma NewChatResets(s: ChatState)
    ensures var t := NewChatStep(s);
      && t.messages == [] && t.currentChatId == None && t.chatTitle == ""
      && t.inputValue == s.inputValue && t.isLoading == s.isLoading
      && NewChatStep(t) == t
  {
  }

  /** A successful select replaces the conversation with the loaded one;
      a failed one keeps it. Loading ends either way, and selecting the same
      session twice with the same reply gives the state of selecting it once. */
  lemma SelectReplaces(s: ChatState, chatId: string, o: SelectOutcome)
    ensures var t := Select(s, chatId, o);
      && !t.isLoading && t.inputValue == s.inputValue
      && (o.Loaded? ==> t.messages == o.messages && t.currentChatId == Some(chatId) && t.chatTitle == o.sessionTitle)
      && (!o.Loaded? ==> t.messages == s.messages && t.currentChatId == s.currentChatId && t.chatTitle == s.chatTitle)
      && Select(t, chatId, o) == t
  {
  }

  // ---------------------------------------------------------------------
  // Properties of whole exchanges

  /** A permitted send, start and end, only appends: the old messages are a
      prefix of the new ones, exactly two messages are added (the user's and
      one assistant reply) and loading is over. */
  lemma {:induction false} SendAppendsTwo(s: ChatState, userId: string, sentAt: Timestamp,
                                         o: SendOutcome, replyId: string, repliedAt: Timestamp)
    requires CanSend(s)
    ensures var t := Send(s, userId, sentAt, o, replyId, repliedAt);
      && t.messages == s.messages + [UserMessage(RequestOf(s), userId, sentAt), ReplyMessage(o, replyId, repliedAt)]
      && t.inputValue == "" && !t.isLoading
  {
    var u := SendStartStep(s, userId, sentAt);
    assert u.messages == s.messages + [UserMessage(RequestOf(s), userId, sentAt)];
  }

  /** The example exchange: in a fresh page, typing "hello" and sending it,
      with the reply {prediction: "hi", session_id: "s1", chat_title:
      "Greeting"}, gives the user and assistant messages and adopts the
      session. */
  lemma GreetingExample(userId: string, replyId: string, t0: Timestamp, t1: Timestamp)
    ensures var t := Send(InputStep(Initial, "hello"), userId, t0,
                          Parsed(Reply(Some("hi"), Some("s1"), "Greeting")), replyId, t1);
      && t.messages == [Message(userId, "hello", User, t0, None), Message(replyId, "hi", Assistant, t1, None)]
      && t.currentChatId == Some("s1") && t.chatTitle == "Greeting" && !t.isLoading
      && NewChatStep(t).currentChatId == None
  {
    var s := InputStep(Initial, "hello");
    assert "hello"[0] == 'h' && !Text.IsJsSpace('h');
    assert !Text.AllSpace("hello", Text.IsJsSpace);
    SendAppendsTwo(s, userId, t0, Parsed(Reply(Some("hi"), Some("s1"), "Greeting")), replyId, t1);
  }

  /** New chat does not cancel a send: if the user starts a new chat while a
      send is out, the reply lands in the new, empty conversation and, when
      the send started without a session, the new conversation adopts the
      old send's session. */
  lemma NewChatDuringSend(s: ChatState, userId: string, sentAt: Timestamp,
                          o: SendOutcome, replyId: string, repliedAt: Timestamp)
    requires CanSend(s)
    ensures var t := SendEndStep(NewChatStep(SendStartStep(s, userId, sentAt)),
                                 RequestOf(s), o, replyId, repliedAt);
      && t.messages == [ReplyMessage(o, replyId, repliedAt)]
      && (Adopts(RequestOf(s), o) ==> t.currentChatId == o.reply.sessionId)
  {
  }

  /** Selecting a session while a send is out does not wait for the send:
      when the load settles, loading is over although the reply has not come
      back, so the send guard is open again and a second send can go out
      beside the first. */
  lemma SelectDuringSendReopensGuard(s: ChatState, userId: string, sentAt: Timestamp,
                                     chatId: string, o: SelectOutcome, text: string)
    requires CanSend(s)
    requires Text.Strip(text, Text.IsJsSpace) != []
    ensures SendStartStep(s, userId, sentAt).isLoading
    ensures !CanSend(SendStartStep(s, userId, sentAt))
    ensures var t := Select(SendStartStep(s, userId, sentAt), chatId, o);
      && !t.isLoading && CanSend(InputStep(t, text))
  {
  }

  /** One user turn: type `text`, then press send; the request, if the
      guard lets it through, settles with `outcome`. */
  datatype Turn = Turn(text: string, userId: string, sentAt: Timestamp,
                       outcome: SendOutcome, replyId: string, repliedAt: Timestamp)

  /** The state after a series of turns. */
  function Converse(s: ChatState, turns: seq<Turn>): ChatState
    decreases |turns|
  {
    if turns == [] then s
    else
      var x := turns[0];
      Converse(Send(InputStep(s, x.text), x.userId, x.sentAt, x.outcome, x.replyId, x.repliedAt), turns[1..])
  }

  /** The number of turns whose text is not blank. */
  function Accepted(turns: seq<Turn>): nat {
    if turns == [] then 0
    else (if Text.AllSpace(turns[0].text, Text.IsJsSpace) then 0 else 1) + Accepted(turns[1..])
  }

  /** Over any series of turns started while idle, the conversation only
      grows: the old messages stay a prefix, two messages are added per
      non-blank turn, loading is over at the end, and a session the
      conversation already had is kept with its title. */
  lemma {:induction false} ConverseOnlyAppends(s: ChatState, turns: seq<Turn>)
    requires !s.isLoading
    ensures var t := Converse(s, turns);
      && |t.messages| == |s.messages| + 2 * Accepted(turns)
      && t.messages[..|s.messages|] == s.messages
      && !t.isLoading
      && (Truthy(s.currentChatId) ==> t.currentChatId == s.currentChatId && t.chatTitle == s.chatTitle)
    decreases |turns|
  {
    if turns != [] {
      var x := turns[0];
      var a := InputStep(s, x.text);
      var b := Send(a, x.userId, x.sentAt, x.outcome, x.replyId, x.repliedAt);
      if CanSend(a) {
        SendAppendsTwo(a, x.userId, x.sentAt, x.outcome, x.replyId, x.repliedAt);
        SessionAdoptedOnlyWhenUnset(SendStartStep(a, x.userId, x.sentAt), RequestOf(a), x.outcome, x.replyId, x.repliedAt);
        assert !Text.AllSpace(x.text, Text.IsJsSpace);
      } else {
        assert Text.AllSpace(x.text, Text.IsJsSpace);
      }
      ConverseOnlyAppends(b, turns[1..]);
      var t := Converse(b, turns[1..]);
      assert t.messages[..|s.messages|] == t.messages[..|b.messages|][..|s.messages|];
    }
  }

  /** The chat page's state, updated in place by its handlers. */
  class Home {
    var messages: seq<Message>
    var inputValue: string
    var isLoading: bool
    var currentChatId: Option<string>
    var chatTitle: string

    /** The five fields as one value. */
    function State(): ChatState
      reads this
    {
      ChatState(messages, inputValue, isLoading, currentChatId, chatTitle)
    }

    constructor ()
      ensures State() == Initial
    {
      messages, inputValue, isLoading, currentChatId, chatTitle := [], "", false, None, "";
    }

    /** The textarea's change handler. */
    method SetInputValue(text: string)
      modifies this
      ensures inputValue == text
      ensures messages == old(messages) && isLoading == old(isLoading)
      ensures currentChatId == old(currentChatId) && chatTitle == old(chatTitle)
      ensures State() == InputStep(old(State()), text)
    {
      inputValue := text;
    }

    /** `handleNewChat`. */
    method HandleNewChat()
      modifies this
      ensures messages == [] && currentChatId == None && chatTitle == ""
      ensures inputValue == old(inputValue) && isLoading == old(isLoading)
      ensures State() == NewChatStep(old(State()))
    {
      messages := [];
      currentChatId := None;
      chatTitle := "";
    }

    /** `handleSelectChat` up to its `await`: loading starts, with no guard. */
    method HandleSelectChat(chatId: string)
      modifies this
      ensures isLoading
      ensures messages == old(messages) && inputValue == old(inputValue)
      ensures currentChatId == old(currentChatId) && chatTitle == old(chatTitle)
      ensures State() == SelectStartStep(old(State()))
    {
      isLoading := true;
    }

    /** `handleSelectChat` after its `await`: on an ok response the loaded
        conversation replaces the current one; loading ends in every case. */
    method SelectChatSettled(chatId: string, outcome: SelectOutcome)
      modifies this
      ensures !isLoading && inputValue == old(inputValue)
      ensures outcome.Loaded? ==>
        messages == outcome.messages && currentChatId == Some(chatId) && chatTitle == outcome.sessionTitle
      ensures !outcome.Loaded? ==>
        messages == old(messages) && currentChatId == old(currentChatId) && chatTitle == old(chatTitle)
      ensures State() == SelectEndStep(old(State()), chatId, outcome)
    {
      if outcome.Loaded? {
        messages := outcome.messages;
        currentChatId := Some(chatId);
        chatTitle := outcome.sessionTitle;
      }
      isLoading := false;
    }

    /** `handleSendMessage` up to its `await`: when the guard lets the send
        through, the user message is appended, the input cleared, loading
        started, and the request to issue is returned (it carries the
        session id of this moment); otherwise nothing changes. */
    method HandleSendMessage(userId: string, now: Timestamp) returns (request: Option<PredictRequest>)
      modifies this
      ensures request.Some? <==> old(CanSend(State()))
      ensures request.Some? ==> request.value == PredictRequest(old(inputValue), old(currentChatId))
      ensures request.Some? ==>
        && messages == old(messages) + [Message(userId, old(inputValue), User, now, None)]
        && inputValue == "" && isLoading
        && currentChatId == old(currentChatId) && chatTitle == old(chatTitle)
      ensures request.None? ==> State() == old(State())
      ensures State() == SendStartStep(old(State()), userId, now)
    {
      if Text.Strip(inputValue, Text.IsJsSpace) == [] || isLoading {
        return None;
      }
      var req := PredictRequest(inputValue, currentChatId);
      messages := messages + [Message(userId, inputValue, User, now, None)];
      inputValue := "";
      isLoading := true;
      request := Some(req);
    }

    /** `handleSendMessage` after its `await`, for the request it issued:
        one assistant message is appended to the messages as they are now,
        the reply's session is adopted when the request carried none, and
        loading ends. */
    method SendMessageSettled(request: PredictRequest, outcome: SendOutcome, replyId: string, now: Timestamp)
      modifies this
      ensures messages == old(messages) + [ReplyMessage(outcome, replyId, now)]
      ensures !isLoading && inputValue == old(inputValue)
      ensures Adopts(request, outcome) ==>
        currentChatId == outcome.reply.sessionId && chatTitle == outcome.reply.chatTitle
      ensures !Adopts(request, outcome) ==>
        currentChatId == old(currentChatId) && chatTitle == old(chatTitle)
      ensures State() == SendEndStep(old(State()), request, outcome, replyId, now)
    {
      match outcome {
        case Parsed(reply) =>
          var content := if Truthy(reply.prediction) then reply.prediction.value else NoResponse;
          messages := messages + [Message(replyId, content, Assistant, now, None)];
          if !Truthy(request.sessionId) && Truthy(reply.sessionId) {
            currentChatId := reply.sessionId;
            chatTitle := reply.chatTitle;
          }
        case Threw(e) =>
          messages := messages + [Message(replyId, ServerUnreachable, Assistant, now, Some(e))];
      }
      isLoading := false;
    }
  }
}
