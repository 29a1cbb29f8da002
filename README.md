# Chat client and backend: a verified model

This project models the logic of a small chat application: a Next.js page
with a conversation panel and a sidebar of past sessions, and a Django
backend that stores sessions and asks a language model for replies.

- `conversation.dfy` (module `Conversation`): the page's conversation
  controller (`Home` in `front/src/app/page.tsx`). It has five state
  variables: `messages`, `inputValue`, `isLoading`, `currentChatId` and
  `chatTitle`. The handlers are new chat, select a session and send a
  message. Each asynchronous handler is split at its `await`. A first
  method runs when the user acts. A second method runs when the request
  settles, and takes the outcome as a parameter. The send's second step
  gets the request built by the first, so it sees the session id as it
  was when the send began. `ChatState` and the `...Step` functions state
  each step on values. The class `Home` holds the fields, and its methods
  are proved to perform those steps. The lemmas state what the page
  promises, for one step and for whole runs of sends.
- `sidebar.dfy` (module `Sidebar`): the session list of
  `front/src/app/components/SideBar.tsx`. Loading replaces the list,
  deleting filters it, and the select and new-chat handlers forward to the
  page.
- `views.dfy` (module `Views`): the four request handlers of
  `backend/chatbot/views.py`. The database is a sequence of sessions, each
  with its history records, plus the counter that numbers records. The
  language model's reply is an input.
- `text.dfy` (module `Text`): white-space stripping for JavaScript's `trim`
  and for Python's `strip`. It also holds the 50-character (sidebar: 30)
  truncation rule and the decimal rendering of record ids.
- `wire.dfy` (module `Wire`): how a backend response becomes the outcome
  the page's handlers settle with. It holds lemmas that span both sides.
- `common.dfy` (module `Common`): `Option`, `Role` and
  `Timestamp`.

The model keeps these behaviours of the code as written:

- A send in flight cannot be cancelled. A failed send leaves no status
  behind except its error message.
- New chat does not reset `isLoading` and does not stop a send in flight.
  The reply of that send lands in the new conversation, and it can give
  the new conversation the old send's session (`NewChatDuringSend`).
- The page never checks the status of a predict response. A 400 or 500
  answer whose JSON body parses becomes an assistant message
  "No response", not an error message.
- `get_object_or_404` raises `Http404`. The handler's own
  `except Exception` catches it, so an unknown session id gets status 500,
  not 404.
- Selecting a session has no guard, and its load ends loading even while
  a send is still out. The send guard then opens again, so a second send
  can go out before the first reply arrives
  (`SelectDuringSendReopensGuard`).
- If the language model call fails, a session created for that request
  stays stored with no record. Nothing rolls it back.

## Model

| member | source | states |
|---|---|---|
| Text.Strip | backend/chatbot/views.py:18 | stripping gives "" exactly when the text is all white space; a non-empty result starts and ends with a non-space |
| Text.StripIsSlice | backend/chatbot/views.py:18 | stripping removes only a white-space prefix and a white-space suffix; the result is the slice between them |
| Text.Truncate | front/src/app/components/SideBar.tsx:80-82 | text of at most `max` characters is returned as is; longer text becomes its first `max` characters plus "..."; the result never exceeds `max + 3` (default 30 in the sidebar, 50 in the backend) |
| Text.TruncateIdempotent | front/src/app/components/SideBar.tsx:80-82 | truncating a truncated text changes nothing |
| Text.Decimal | backend/chatbot/views.py:106 | a record id renders as a non-empty string of digits, with a leading zero only for 0, that reads back as the id |
| Text.DecimalOfDigits | backend/chatbot/views.py:106 | every digit string without a superfluous leading zero is the rendering of the number it denotes, so rendering and reading back are inverse |
| Text.DecimalInjective | backend/chatbot/views.py:106-112 | distinct record ids render differently |
| Conversation.BlockedSendChangesNothing | front/src/app/page.tsx:58 | a send with blank input (per `trim`) or while loading leaves all five fields unchanged; a send that passes the guard changes the state |
| Conversation.SendStartAppendsUserMessage | front/src/app/page.tsx:60-69 | a permitted send appends exactly one user message holding the untrimmed input, clears the input and sets loading, leaving session id and title alone |
| Conversation.ParsedReplyAppendsPrediction | front/src/app/page.tsx:83-92 | when the reply body parses, exactly one assistant message is appended; its content is the prediction, or "No response" when the prediction is missing or empty |
| Conversation.ThrownSendAppendsError | front/src/app/page.tsx:99-107 | when the request or the parsing throws, exactly one assistant message "Error: Could not reach server" with the error attached is appended; session id and title stay |
| Conversation.SessionAdoptedOnlyWhenUnset | front/src/app/page.tsx:94-98 | id and title change only when the request had no session id and the reply carries one; a session id present at send time is never overwritten |
| Conversation.NewChatResets | front/src/app/page.tsx:30-34 | new chat empties the messages, unsets the session id, sets the title to ""; input and loading flag unchanged; doing it twice equals once |
| Conversation.SelectReplaces | front/src/app/page.tsx:36-55 | an ok load replaces messages, session id and title; other outcomes keep them; loading ends; selecting twice with the same reply equals selecting once |
| Conversation.SendAppendsTwo | front/src/app/page.tsx:57-111 | a permitted send with nothing in between appends exactly the user message and one assistant message to the old list, clears the input and ends loading |
| Conversation.GreetingExample | front/src/app/page.tsx:57-111 | sending "hello" from a fresh page with reply {prediction "hi", session_id "s1", chat_title "Greeting"} gives the two messages and adopts "s1"; a new chat then unsets it |
| Conversation.SelectDuringSendReopensGuard | front/src/app/page.tsx:36-58 | a select started while a send is out ends loading when it settles, before the reply; the send guard is then open again for any non-blank input |
| Conversation.NewChatDuringSend | front/src/app/page.tsx:92-98 | a new chat during a send does not cancel it: the reply becomes the only message of the new conversation, and a session-less send makes it adopt the reply's session |
| Conversation.ConverseOnlyAppends | front/src/app/page.tsx:57-111 | over any series of type-and-send turns from an idle page, old messages stay a prefix, two messages are added per non-blank turn, loading ends, and an existing session id and title are kept |
| Conversation.Home.constructor | front/src/app/page.tsx:15-19 | the page starts with no messages, empty input, not loading, no session, empty title |
| Conversation.Home.SetInputValue | front/src/app/page.tsx:192 | typing sets the input and nothing else |
| Conversation.Home.HandleNewChat | front/src/app/page.tsx:30-34 | performs the new-chat step on the fields |
| Conversation.Home.HandleSelectChat | front/src/app/page.tsx:36-39 | select starts loading without any guard and changes nothing else |
| Conversation.Home.SelectChatSettled | front/src/app/page.tsx:40-54 | on an ok load, sets messages, session id and title from the response; otherwise keeps them; loading ends |
| Conversation.Home.HandleSendMessage | front/src/app/page.tsx:57-81 | returns a request exactly when the guard passes, carrying the input and the session id of that moment; then appends the user message, clears the input and sets loading; otherwise changes nothing |
| Conversation.Home.SendMessageSettled | front/src/app/page.tsx:83-110 | appends the reply or error message to the current messages, adopts the reply's session when the request had none, and ends loading |
| Sidebar.RemoveChat | front/src/app/components/SideBar.tsx:60 | the filter leaves no entry with the deleted id and keeps an entry exactly when it was present with another id |
| Sidebar.RemoveChatDistributes | front/src/app/components/SideBar.tsx:60 | filtering a concatenation is concatenating the filtered parts, so the surviving entries keep their relative order |
| Sidebar.RemoveChatAbsent | front/src/app/components/SideBar.tsx:60 | deleting an id no entry has leaves the list as it is |
| Sidebar.RemoveChatIdempotent | front/src/app/components/SideBar.tsx:59-60 | repeating a successful delete of the same id changes nothing more |
| Sidebar.RemoveChatKeepsOthersInOrder | front/src/app/components/SideBar.tsx:60 | an entry with another id stays in place between the filtered entries before and after it |
| Sidebar.SideBar.constructor | front/src/app/components/SideBar.tsx:19-21 | the list starts empty and not loading |
| Sidebar.SideBar.LoadChatHistory | front/src/app/components/SideBar.tsx:24-27 | loading starts and the list is untouched |
| Sidebar.SideBar.ChatHistoryLoaded | front/src/app/components/SideBar.tsx:28-40 | an ok response makes the list exactly the server's list, in the server's order; other outcomes keep it; loading ends |
| Sidebar.SideBar.DeleteChat | front/src/app/components/SideBar.tsx:53-65 | a successful delete filters out the id; a non-ok response or an exception keeps the list; the loading flag is untouched |
| Sidebar.SideBar.HandleNewChat | front/src/app/components/SideBar.tsx:45-47 | forwards to the page's new-chat handler and leaves the sidebar unchanged |
| Sidebar.SideBar.HandleSelectChat | front/src/app/components/SideBar.tsx:49-51 | forwards the id to the page's select handler and leaves the sidebar unchanged |
| Views.Validate | backend/chatbot/views.py:16-63 | a body is accepted exactly when it is a JSON object whose `input` is a string that is not blank after `strip`; the accepted input is the stripped text; a body that does not parse gets 400 "Invalid JSON", a missing or blank input 400 "No input provided", a non-object body or non-string input a 500 error |
| Views.BlankInputRejected | backend/chatbot/views.py:18-22 | an all-white-space input is refused with 400 "No input provided" |
| Views.IndexOf | backend/chatbot/views.py:28 | finds a stored session with the given id, or reports that none has it |
| Views.GetOrCreate | backend/chatbot/views.py:25-35 | a named, stored session is reused and nothing is created; otherwise exactly one session is appended, with the fresh id, the truncated title and no records; stored sessions are kept |
| Views.NewTitleRule | backend/chatbot/views.py:34 | a new title is the input when at most 50 characters, else its first 50 plus "..."; never longer than 53 |
| Views.AddRecordAddsOne | backend/chatbot/views.py:48-52 | storing an exchange adds exactly one record in all, to the chosen session, and changes no other session |
| Views.GetOrCreateKeepsInvariant | backend/chatbot/views.py:25-35 | get-or-create keeps session ids unique and non-empty and the records well formed |
| Views.AddRecordKeepsInvariant | backend/chatbot/views.py:48-52 | storing a record with the next id and a non-empty input keeps the store invariant |
| Views.PreviewRule | backend/chatbot/views.py:76-79 | in a stored session the preview is "" exactly when the session has no records, else the oldest input truncated by the 50-character rule; never longer than 53 |
| Views.FlattenSnoc | backend/chatbot/views.py:103-117 | each further record extends the history by its user entry and then its assistant entry |
| Views.FlattenAt | backend/chatbot/views.py:103-117 | the history has 2n entries for n records; entries 2i and 2i+1 are the user and assistant entries of record i |
| Views.DerivedIdsDiffer | backend/chatbot/views.py:106-112 | "{id}_user" and "{id}_assistant" ids are equal only for the same record id and suffix |
| Views.EntryIdsDistinct | backend/chatbot/views.py:103-117 | when a session's records have distinct ids, whatever their order, the ids of its history entries are pairwise distinct |
| Views.RemoveSessionEffect | backend/chatbot/views.py:133-134 | deleting a session keeps every other session in order, leaves none with that id, and removes exactly its records |
| Views.Store.Predict | backend/chatbot/views.py:12-63 | a method other than POST gets 405 and a refused body its 400 or 500, with no store change; otherwise get-or-create; a failing model call gives 500 and keeps any new session; a reply stores one record and answers with the prediction and the session's id and name |
| Views.Store.GetChatSessions | backend/chatbot/views.py:66-91 | a method other than GET gets 405; otherwise one summary per session, in store order, with id, name, update time and preview |
| Views.Store.GetChatHistory | backend/chatbot/views.py:94-125 | a method other than GET gets 405; an unknown id gets 500; otherwise the flattened records (2n entries) and the session name |
| Views.Store.DeleteChatSession | backend/chatbot/views.py:128-138 | a method other than DELETE gets 405; an unknown id gets 500 and no change; otherwise that session and its records are removed |
| Wire.ErrorAnswerShowsNoResponse | front/src/app/page.tsx:83-92 | any backend answer other than a prediction, whatever its status, makes the page append "No response" and adopt no session |
| Wire.ErrorAnswersAreNotOk | front/src/app/components/SideBar.tsx:59 | the backend's 400, 405 and 500 answers leave the sidebar's list and the page's conversation unchanged |
| Wire.AdoptedSessionIsStored | front/src/app/page.tsx:95-98 | the session a new conversation adopts from a successful predict is non-empty, stored and found by its id, and its name becomes the title |
| Wire.WhiteSpaceMismatch | front/src/app/page.tsx:58 | U+001C alone passes the page's guard but is refused by the backend, so the page shows "No response"; U+FEFF alone is blocked by the page though the backend would accept it |
| Wire.LoadedHistoryAlternates | front/src/app/page.tsx:40-48 | loading a session whose records have distinct ids gives two messages per record, user then assistant, with that record's texts and pairwise distinct ids |

## Left out

- Rendering, styling, the sidebar's collapse toggle, `scrollToBottom`,
  `handleKeyPress` and `formatTimestamp` are presentation only.
  `formatTimestamp` also depends on the wall clock and the locale.
- `fetch`, HTTP and JSON are not modelled as I/O. A settled request is an
  outcome parameter. `Wire` maps backend responses to those outcomes.
- Message ids from `Date.now()` and timestamps from `new Date()` are
  parameters. The model does not claim these ids are unique.
- The sidebar's effect reloads the list whenever `currentChatId` changes
  (SideBar.tsx:23-43). React decides when that effect runs. The model
  provides the load steps for a caller to run, but does not model the
  scheduling.
- React state batching is not modelled. Each setter is applied in program
  order. Message appends go to the current list, as
  `setMessages(prev => ...)` does.
- A reply without `chat_title` stores `undefined` as the title. The model
  uses "" instead, which displays the same (page.tsx:134). The title is
  only read when `session_id` is present, and the backend always sends both.
- A reply's `prediction` is modelled as a string or absent. Other JSON
  types are not modelled.
- Text.Truncate counts characters (Unicode scalar values). JavaScript's
  `length` and `substring` count UTF-16 code units, so the sidebar rule
  differs from the model for characters outside the Basic Multilingual
  Plane.
- The Ollama client (views.py:9, 44-45) is a foreign library. Its reply
  or exception is an input. The `if not ollama_client` branch
  (views.py:38-41) is not modelled: a client object is always truthy, so
  the branch never runs.
- The Django ORM is replaced by a sequence of sessions, each with its
  records.
  - The order of `ChatSession.objects.all()` is taken to be the store's
    order, with new sessions appended. The `ChatSession` model is not part
    of this model.
  - Deleting a session deletes its records, assuming a cascading foreign
    key. models.py does not show that key.
  - Database errors other than the ones named above are not modelled.
- A `session_id` that is not a string is not modelled, and neither is a
  string that is not a valid UUID. In Django such a lookup raises a
  validation error, which the handler turns into 500. The model looks
  string ids up by equality, so an unknown one creates a new session.
  Django also finds a session by its UUID written another way, in upper
  case or without hyphens. The model treats such an id as unknown and
  creates a new session.
- urls.py routes only UUID-shaped ids to the history and delete handlers.
  Any other path gets the router's 404. This routing is not modelled.
- A new session's id is a parameter. The model requires it to differ from
  every stored id, standing in for UUID generation.
