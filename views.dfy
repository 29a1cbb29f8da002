/**
 * The backend's request handlers (backend/chatbot/views.py) over an
 * in-memory model of the database: the chat sessions in listing order,
 * each with its history records in creation order, and the counter that
 * numbers new history records. The language model's reply is an input.
 */
module Views {
  import opened Common
  import Text

  type SessionId = string

  /** Titles and previews keep at most this many characters before "...". */
  const TitleLimit: nat := 50

  /** One stored exchange (a `ChatHistory` row). */
  datatype Record = Record(id: nat, userInput: string, response: string, timestamp: Timestamp)

  /** One `ChatSession` row with its records (`session.messages`). */
  datatype Session = Session(id: SessionId, chatName: string, updatedAt: Timestamp, messages: seq<Record>)

  /** The `input` member of a predict body: absent, a string, or a value of
      another JSON type (named by its Python type, `NoneType` for null). */
  datatype InputField = Missing | Str(s: string) | NotStr(typeName: string)

  /** A predict request body: not JSON, JSON that is not an object (named by
      its Python type), or an object with its `input` and string `session_id`. */
  datatype PredictBody = InvalidJson | NotObject(typeName: string)
                       | Object(input: InputField, sessionId: Option<string>)

  /** What the language model call gives: the reply text, or an exception. */
  datatype OllamaReply = Answer(content: string) | Failed(message: string)

  /** One message of a session's history as the backend lists it. */
  datatype Entry = Entry(id: string, content: string, role: Role, timestamp: Timestamp)

  /** One session of the session listing. */
  datatype Summary = Summary(id: SessionId, title: string, timestamp: Timestamp, lastMessage: string)

  /** The JSON bodies the handlers answer with. */
  datatype Payload =
    | Error(message: string)
    | Prediction(prediction: string, sessionId: SessionId, chatTitle: string)
    | Sessions(sessions: seq<Summary>)
    | History(messages: seq<Entry>, sessionTitle: string)
    | Deleted(message: string)

  datatype Response = Response(status: nat, payload: Payload)

  /** The 405 answer of a handler called with another HTTP method. */
  function WrongMethod(expected: string): Response {
    Response(405, Error(expected + " request required"))
  }

  /** The text of the `Http404` that `get_object_or_404` raises. */
  const NotFound := "No ChatSession matches the given query."

  /** The text of Python's `AttributeError` for a missing method. */
  function MissingAttribute(typeName: string, attribute: string): string {
    "'" + typeName + "' object has no attribute '" + attribute + "'"
  }

  // ---------------------------------------------------------------------
  // predict: validation, get-or-create, storing the exchange

  /** The outcome of reading a predict body. */
  datatype Validated = Rejected(response: Response) | Accepted(input: string, sessionId: Option<string>)

  /** Parse the body, fetch `input` (default ""), strip it and refuse it when
      empty. An accepted input is the stripped text and is never empty;
      a body that does not parse gets 400 "Invalid JSON", a missing or blank
      input 400 "No input provided", and a body that is not an object or an
      input that is not a string 500. */
  function Validate(body: PredictBody): (v: Validated)
    ensures v.Rejected? ==> v.response.status == 400 || v.response.status == 500
    ensures body.InvalidJson? ==> v == Rejected(Response(400, Error("Invalid JSON")))
    ensures body.Object? && (body.input.Missing? || (body.input.Str? && Text.Strip(body.input.s, Text.IsPySpace) == [])) ==>
      v == Rejected(Response(400, Error("No input provided")))
    ensures body.NotObject? || (body.Object? && body.input.NotStr?) ==>
      v.Rejected? && v.response.status == 500 && v.response.payload.Error?
    ensures v.Accepted? <==>
      body.Object? && body.input.Str? && Text.Strip(body.input.s, Text.IsPySpace) != []
    ensures v.Accepted? ==>
      v.input == Text.Strip(body.input.s, Text.IsPySpace) && v.sessionId == body.sessionId
      && !Text.IsPySpace(v.input[0]) && !Text.IsPySpace(v.input[|v.input| - 1])
  {
    match body
    case InvalidJson => Rejected(Response(400, Error("Invalid JSON")))
    case NotObject(t) => Rejected(Response(500, Error(MissingAttribute(t, "get"))))
    case Object(field, sessionId) =>
      match field
      case NotStr(t) => Rejected(Response(500, Error(MissingAttribute(t, "strip"))))
      case Missing => Rejected(Response(400, Error("No input provided")))
      case Str(s) =>
        var input := Text.Strip(s, Text.IsPySpace);
        if input == [] then Rejected(Response(400, Error("No input provided")))
        else Accepted(input, sessionId)
  }

  /** A blank input is refused with 400. */
  lemma BlankInputRejected(raw: string, sessionId: Option<string>)
    requires Text.AllSpace(raw, Text.IsPySpace)
    ensures Validate(Object(Str(raw), sessionId)) == Rejected(Response(400, Error("No input provided")))
  {
  }

  /** The index of the session with id `id`, if one is stored. */
  function IndexOf(sessions: seq<Session>, id: SessionId): (k: Option<nat>)
    ensures k.Some? ==> k.value < |sessions| && sessions[k.value].id == id
    ensures k.None? <==> forall i :: 0 <= i < |sessions| ==> sessions[i].id != id
  {
    if sessions == [] then None
    else if sessions[0].id == id then Some(0)
    else match IndexOf(sessions[1..], id)
      case None => None
      case Some(k) => Some(k + 1)
  }

  /** The stored session a predict request names: its `session_id` is a
      non-empty string and a session has that id. */
  function Lookup(sessions: seq<Session>, sessionId: Option<string>): Option<nat> {
    if sessionId.Some? && sessionId.value != "" then IndexOf(sessions, sessionId.value) else None
  }

  /** The sessions after get-or-create, with the index of the chosen one. */
  datatype Chosen = Chosen(sessions: seq<Session>, index: nat)

  /** The title of a session created by `input`. */
  function NewTitle(input: string): string {
    Text.Truncate(input, TitleLimit)
  }

  /** Get-or-create: the named session when it exists, otherwise one new
      session, appended, with a fresh id, the truncated input as title and no
      records. The stored sessions are kept either way. */
  function GetOrCreate(sessions: seq<Session>, sessionId: Option<string>, freshId: SessionId,
                       input: string, now: Timestamp): (c: Chosen)
    ensures |sessions| <= |c.sessions| && c.index < |c.sessions| && c.sessions[..|sessions|] == sessions
    ensures Lookup(sessions, sessionId).Some? ==>
      c.sessions == sessions && c.sessions[c.index].id == sessionId.value
    ensures Lookup(sessions, sessionId).None? ==>
      && |c.sessions| == |sessions| + 1 && c.index == |sessions|
      && c.sessions[c.index] == Session(freshId, NewTitle(input), now, [])
  {
    match Lookup(sessions, sessionId)
    case Some(k) => Chosen(sessions, k)
    case None => Chosen(sessions + [Session(freshId, NewTitle(input), now, [])], |sessions|)
  }

  /** A new session's title is the input when it has at most 50 characters,
      else its first 50 characters and "...", so never more than 53. */
  lemma NewTitleRule(input: string)
    ensures |NewTitle(input)| <= 53
    ensures |input| <= 50 ==> NewTitle(input) == input
    ensures |input| > 50 ==> NewTitle(input) == input[..50] + "..."
  {
    var t := NewTitle(input);
    if |input| > 50 {
      assert t == t[..50] + t[50..];
    }
  }

  /** `sessions` with `rec` appended to the records of session `k`. */
  function AddRecord(sessions: seq<Session>, k: nat, rec: Record): seq<Session>
    requires k < |sessions|
  {
    sessions[k := sessions[k].(messages := sessions[k].messages + [rec])]
  }

  /** The number of records stored over all sessions. */
  function RecordCount(sessions: seq<Session>): nat {
    if sessions == [] then 0 else |sessions[0].messages| + RecordCount(sessions[1..])
  }

  lemma {:induction false} RecordCountConcat(a: seq<Session>, b: seq<Session>)
    ensures RecordCount(a + b) == RecordCount(a) + RecordCount(b)
  {
    if a == [] {
      assert a + b == b;
    } else {
      assert (a + b)[1..] == a[1..] + b;
      RecordCountConcat(a[1..], b);
    }
  }

  /** Replacing one session changes the record count by the difference of
      the two sessions' record counts. */
  lemma RecordCountReplace(sessions: seq<Session>, k: nat, x: Session)
    requires k < |sessions|
    ensures RecordCount(sessions[k := x]) + |sessions[k].messages| == RecordCount(sessions) + |x.messages|
  {
    var before, after := sessions[..k], sessions[k + 1..];
    assert sessions == before + [sessions[k]] + after;
    assert sessions[k := x] == before + [x] + after;
    RecordCountConcat(before + [sessions[k]], after);
    RecordCountConcat(before, [sessions[k]]);
    RecordCountConcat(before + [x], after);
    RecordCountConcat(before, [x]);
  }

  /** Storing an exchange adds exactly one record in all, to session `k`,
      and changes no other session and no session's id or name. */
  lemma AddRecordAddsOne(sessions: seq<Session>, k: nat, rec: Record)
    requires k < |sessions|
    ensures var r := AddRecord(sessions, k, rec);
      && RecordCount(r) == RecordCount(sessions) + 1
      && |r| == |sessions|
      && r[k].messages == sessions[k].messages + [rec]
      && r[k].id == sessions[k].id && r[k].chatName == sessions[k].chatName
      && (forall i :: 0 <= i < |r| && i != k ==> r[i] == sessions[i])
  {
    RecordCountReplace(sessions, k, sessions[k].(messages := sessions[k].messages + [rec]));
  }

  // ---------------------------------------------------------------------
  // get_chat_sessions: one summary per session

  /** The preview of a session: its oldest record's input, truncated like a
      title, or "" when the session has no records. */
  function Preview(records: seq<Record>): string {
    if records == [] then "" else Text.Truncate(records[0].userInput, TitleLimit)
  }

  function SummaryOf(s: Session): Summary {
    Summary(s.id, s.chatName, s.updatedAt, Preview(s.messages))
  }

  // ---------------------------------------------------------------------
  // get_chat_history: two entries per record

  function UserEntry(r: Record): Entry {
    Entry(Text.Decimal(r.id) + "_user", r.userInput, User, r.timestamp)
  }

  function AssistantEntry(r: Record): Entry {
    Entry(Text.Decimal(r.id) + "_assistant", r.response, Assistant, r.timestamp)
  }

  /** The history listing of `records`: each record becomes its user entry
      followed by its assistant entry, in record order. */
  function Flatten(records: seq<Record>): seq<Entry> {
    if records == [] then [] else [UserEntry(records[0]), AssistantEntry(records[0])] + Flatten(records[1..])
  }

  lemma {:induction false} FlattenSnoc(records: seq<Record>, r: Record)
    ensures Flatten(records + [r]) == Flatten(records) + [UserEntry(r), AssistantEntry(r)]
  {
    if records == [] {
      assert records + [r] == [r];
    } else {
      assert (records + [r])[1..] == records[1..] + [r];
      FlattenSnoc(records[1..], r);
    }
  }

  /** The listing has two entries per record, alternating user and
      assistant, the pair at 2i and 2i+1 coming from record i. */
  lemma {:induction false} FlattenAt(records: seq<Record>, i: nat)
    requires i < |records|
    ensures |Flatten(records)| == 2 * |records|
    ensures Flatten(records)[2 * i] == UserEntry(records[i])
    ensures Flatten(records)[2 * i + 1] == AssistantEntry(records[i])
  {
    if i > 0 {
      FlattenAt(records[1..], i - 1);
    } else if |records| > 1 {
      FlattenAt(records[1..], 0);
    }
  }

  /** Two derived ids are equal only for the same record id and the same suffix. */
  lemma DerivedIdsDiffer(m: nat, n: nat, sm: string, sn: string)
    requires sm == "_user" || sm == "_assistant"
    requires sn == "_user" || sn == "_assistant"
    requires m != n || sm != sn
    ensures Text.Decimal(m) + sm != Text.Decimal(n) + sn
  {
    var a, b := Text.Decimal(m) + sm, Text.Decimal(n) + sn;
    if sm == sn {
      Text.DecimalInjective(m, n);
      assert a[..|a| - |sm|] == Text.Decimal(m);
      assert b[..|b| - |sn|] == Text.Decimal(n);
    } else {
      assert a[|a| - 1] != b[|b| - 1];
    }
  }

  /** No two of a session's records share an id. */
  predicate DistinctRecordIds(records: seq<Record>) {
    forall a, b :: 0 <= a < b < |records| ==> records[a].id != records[b].id
  }

  /** The suffix of the id of the history entry at position `p`. */
  function EntrySuffix(p: nat): string {
    if p % 2 == 0 then "_user" else "_assistant"
  }

  /** The entry at position `p` is derived from record `p / 2`. */
  lemma EntryIdAt(records: seq<Record>, p: nat)
    requires p < |Flatten(records)|
    ensures p / 2 < |records|
    ensures Flatten(records)[p].id == Text.Decimal(records[p / 2].id) + EntrySuffix(p)
  {
    FlattenAt(records, 0);
    FlattenAt(records, p / 2);
  }

  /** When record ids differ, so do the ids of all the listed entries. */
  lemma EntryIdsDistinct(records: seq<Record>)
    requires DistinctRecordIds(records)
    ensures forall p, q :: 0 <= p < q < |Flatten(records)| ==> Flatten(records)[p].id != Flatten(records)[q].id
  {
    var f := Flatten(records);
    forall p, q | 0 <= p < q < |f| ensures f[p].id != f[q].id {
      EntryIdAt(records, p);
      EntryIdAt(records, q);
      var i, j := p / 2, q / 2;
      assert i <= j;
      if i == j {
        assert EntrySuffix(p) != EntrySuffix(q);
      } else {
        assert records[i].id != records[j].id;
      }
      DerivedIdsDiffer(records[i].id, records[j].id, EntrySuffix(p), EntrySuffix(q));
    }
  }

  // ---------------------------------------------------------------------
  // The store

  /** No two sessions share an id. */
  predicate UniqueIds(sessions: seq<Session>) {
    forall i, j :: 0 <= i < j < |sessions| ==> sessions[i].id != sessions[j].id
  }

  /** A session's records as `predict` stores them: distinct ids below
      `next`, each with a non-empty input. */
  predicate WellFormedRecords(records: seq<Record>, next: nat) {
    && DistinctRecordIds(records)
    && forall a :: 0 <= a < |records| ==> records[a].id < next && records[a].userInput != []
  }

  /** In a well-formed session the preview is empty exactly when the session
      has no records, and it is never longer than 53 characters. */
  lemma PreviewRule(records: seq<Record>, next: nat)
    requires WellFormedRecords(records, next)
    ensures Preview(records) == "" <==> records == []
    ensures |Preview(records)| <= 53
    ensures records != [] ==> Preview(records) == Text.Truncate(records[0].userInput, TitleLimit)
  {
    if records != [] {
      var u := records[0].userInput;
      assert u != [];
      assert |Text.Truncate(u, TitleLimit)| > 0;
    }
  }

  /** Deleting session `k` of a store with unique ids leaves every other
      session, in order, no session with that id, and removes that
      session's records from the count. */
  lemma RemoveSessionEffect(sessions: seq<Session>, k: nat)
    requires UniqueIds(sessions) && k < |sessions|
    ensures var rest := sessions[..k] + sessions[k + 1..];
      && UniqueIds(rest)
      && (forall i :: 0 <= i < |rest| ==> rest[i].id != sessions[k].id)
      && (forall x :: x in rest <==> x in sessions && x.id != sessions[k].id)
      && RecordCount(rest) + |sessions[k].messages| == RecordCount(sessions)
  {
    var rest := sessions[..k] + sessions[k + 1..];
    assert sessions == sessions[..k] + [sessions[k]] + sessions[k + 1..];
    RecordCountConcat(sessions[..k], sessions[k + 1..]);
    RecordCountConcat(sessions[..k] + [sessions[k]], sessions[k + 1..]);
    RecordCountConcat(sessions[..k], [sessions[k]]);
    forall i | 0 <= i < |rest| ensures rest[i] == sessions[if i < k then i else i + 1] {
    }
  }

  /** The database invariant: session ids are unique and non-empty, and
      every session's records are well formed below `next`. */
  predicate StoreInvariant(sessions: seq<Session>, next: nat) {
    && UniqueIds(sessions)
    && (forall i :: 0 <= i < |sessions| ==> sessions[i].id != "")
    && (forall i :: 0 <= i < |sessions| ==> WellFormedRecords(sessions[i].messages, next))
  }

  /** Get-or-create keeps the invariant when the fresh id is new. */
  lemma GetOrCreateKeepsInvariant(sessions: seq<Session>, next: nat, sessionId: Option<string>,
                                  freshId: SessionId, input: string, now: Timestamp)
    requires StoreInvariant(sessions, next)
    requires freshId != "" && forall i :: 0 <= i < |sessions| ==> sessions[i].id != freshId
    ensures StoreInvariant(GetOrCreate(sessions, sessionId, freshId, input, now).sessions, next)
  {
    var c := GetOrCreate(sessions, sessionId, freshId, input, now);
    forall i | 0 <= i < |c.sessions|
      ensures i < |sessions| ==> c.sessions[i] == sessions[i]
      ensures i >= |sessions| ==> c.sessions[i] == Session(freshId, NewTitle(input), now, [])
    {
      if i < |sessions| {
        assert c.sessions[i] == c.sessions[..|sessions|][i];
      }
    }
  }

  /** Storing a record numbered `next` with a non-empty input keeps the
      invariant, with the counter moved on. */
  lemma AddRecordKeepsInvariant(sessions: seq<Session>, next: nat, k: nat, rec: Record)
    requires StoreInvariant(sessions, next) && k < |sessions|
    requires rec.id == next && rec.userInput != []
    ensures StoreInvariant(AddRecord(sessions, k, rec), next + 1)
  {
    var r := AddRecord(sessions, k, rec);
    forall i | 0 <= i < |r| ensures WellFormedRecords(r[i].messages, next + 1) {
      var ms := sessions[i].messages;
      assert WellFormedRecords(ms, next);
      if i == k {
        assert r[i].messages == ms + [rec];
      }
    }
  }

  /** The chat database: sessions in listing order and the next record id. */
  class Store {
    var sessions: seq<Session>
    var nextRecordId: nat

    ghost predicate Valid()
      reads this
    {
      StoreInvariant(sessions, nextRecordId)
    }

    constructor ()
      ensures Valid() && sessions == [] && nextRecordId == 1
    {
      sessions, nextRecordId := [], 1;
    }

    /** `predict`. `freshId` is the id the database gives a session it
        creates, distinct from every stored one; `now` is the clock; `ollama`
        is what the language model call gives. The method is checked first,
        then the body; a usable input gets or creates its session, asks the
        model and stores one record. A failing model call leaves a session
        created for the request in place and stores no record. */
    method Predict(httpMethod: string, body: PredictBody, freshId: SessionId, now: Timestamp,
                   ollama: OllamaReply) returns (resp: Response)
      requires Valid()
      requires freshId != "" && forall i :: 0 <= i < |sessions| ==> sessions[i].id != freshId
      modifies this
      ensures Valid()
      ensures httpMethod != "POST" || Validate(body).Rejected? ==>
        && sessions == old(sessions) && nextRecordId == old(nextRecordId)
        && resp == (if httpMethod != "POST" then WrongMethod("POST") else Validate(body).response)
      ensures httpMethod == "POST" && Validate(body).Accepted? ==>
        var v := Validate(body);
        var c := GetOrCreate(old(sessions), v.sessionId, freshId, v.input, now);
        && (ollama.Failed? ==>
              sessions == c.sessions && nextRecordId == old(nextRecordId)
              && resp == Response(500, Error(ollama.message)))
        && (ollama.Answer? ==>
              && sessions == AddRecord(c.sessions, c.index, Record(old(nextRecordId), v.input, ollama.content, now))
              && nextRecordId == old(nextRecordId) + 1
              && resp == Response(200, Prediction(ollama.content, c.sessions[c.index].id,
                                                  c.sessions[c.index].chatName)))
    {
      if httpMethod != "POST" {
        return WrongMethod("POST");
      }
      var v := Validate(body);
      if v.Rejected? {
        return v.response;
      }
      var c := GetOrCreate(sessions, v.sessionId, freshId, v.input, now);
      GetOrCreateKeepsInvariant(sessions, nextRecordId, v.sessionId, freshId, v.input, now);
      sessions := c.sessions;
      match ollama {
        case Failed(message) =>
          resp := Response(500, Error(message));
        case Answer(prediction) =>
          var rec := Record(nextRecordId, v.input, prediction, now);
          AddRecordKeepsInvariant(sessions, nextRecordId, c.index, rec);
          sessions := AddRecord(sessions, c.index, rec);
          nextRecordId := nextRecordId + 1;
          resp := Response(200, Prediction(prediction, c.sessions[c.index].id, c.sessions[c.index].chatName));
      }
    }

    /** `get_chat_sessions`: one summary per stored session, in store order,
        with id, name, update time and preview. */
    method GetChatSessions(httpMethod: string) returns (resp: Response)
      ensures httpMethod != "GET" ==> resp == WrongMethod("GET")
      ensures httpMethod == "GET" ==>
        && resp.status == 200 && resp.payload.Sessions?
        && |resp.payload.sessions| == |sessions|
        && forall i :: 0 <= i < |sessions| ==> resp.payload.sessions[i] == SummaryOf(sessions[i])
    {
      if httpMethod != "GET" {
        return WrongMethod("GET");
      }
      var data: seq<Summary> := [];
      for i := 0 to |sessions|
        invariant |data| == i
        invariant forall j :: 0 <= j < i ==> data[j] == SummaryOf(sessions[j])
      {
        var s := sessions[i];
        var lastMessage := "";
        if s.messages != [] {
          var first := s.messages[0];
          lastMessage := if |first.userInput| > TitleLimit then first.userInput[..TitleLimit] + "..." else first.userInput;
        }
        data := data + [Summary(s.id, s.chatName, s.updatedAt, lastMessage)];
      }
      resp := Response(200, Sessions(data));
    }

    /** `get_chat_history`: for a stored session, its records as user and
        assistant entries in record order, and its name; an unknown id raises
        `Http404`, which the handler's `except` turns into 500. */
    method GetChatHistory(httpMethod: string, sessionId: SessionId) returns (resp: Response)
      ensures httpMethod != "GET" ==> resp == WrongMethod("GET")
      ensures httpMethod == "GET" && IndexOf(sessions, sessionId).None? ==>
        resp == Response(500, Error(NotFound))
      ensures httpMethod == "GET" && IndexOf(sessions, sessionId).Some? ==>
        var s := sessions[IndexOf(sessions, sessionId).value];
        && resp == Response(200, History(Flatten(s.messages), s.chatName))
        && |resp.payload.messages| == 2 * |s.messages|
    {
      if httpMethod != "GET" {
        return WrongMethod("GET");
      }
      var k := IndexOf(sessions, sessionId);
      if k.None? {
        return Response(500, Error(NotFound));
      }
      var s := sessions[k.value];
      var records := s.messages;
      var data: seq<Entry> := [];
      for i := 0 to |records|
        invariant data == Flatten(records[..i])
      {
        FlattenSnoc(records[..i], records[i]);
        assert records[..i + 1] == records[..i] + [records[i]];
        data := data + [UserEntry(records[i]), AssistantEntry(records[i])];
      }
      assert records[..|records|] == records;
      if records != [] {
        FlattenAt(records, 0);
      }
      resp := Response(200, History(data, s.chatName));
    }

    /** `delete_chat_session`: a stored session is removed with its records;
        an unknown id gets 500 as in `get_chat_history`. */
    method DeleteChatSession(httpMethod: string, sessionId: SessionId) returns (resp: Response)
      requires Valid()
      modifies this
      ensures Valid() && nextRecordId == old(nextRecordId)
      ensures httpMethod != "DELETE" ==> resp == WrongMethod("DELETE") && sessions == old(sessions)
      ensures httpMethod == "DELETE" && IndexOf(old(sessions), sessionId).None? ==>
        resp == Response(500, Error(NotFound)) && sessions == old(sessions)
      ensures httpMethod == "DELETE" && IndexOf(old(sessions), sessionId).Some? ==>
        var k := IndexOf(old(sessions), sessionId).value;
        && sessions == old(sessions)[..k] + old(sessions)[k + 1..]
        && resp == Response(200, Deleted("Session deleted successfully"))
    {
      if httpMethod != "DELETE" {
        return WrongMethod("DELETE");
      }
      var k := IndexOf(sessions, sessionId);
      if k.None? {
        return Response(500, Error(NotFound));
      }
      RemoveSessionEffect(sessions, k.value);
      sessions := sessions[..k.value] + sessions[k.value + 1..];
      resp := Response(200, Deleted("Session deleted successfully"));
    }
  }
}
