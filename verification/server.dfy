/** The backend: the message table with its AUTOINCREMENT counter, and the
    handlers `POST /api/chat`, `GET /api/history` and `DELETE /api/history`,
    each taken as one atomic step. Storage failures, clock readings and the
    provider's answer are parameters of the step. */
module Server {
  import opened Common
  import opened Text
  import opened MessageLog
  import opened Relay

  const EmptyMessageError: string := "Message cannot be empty"
  const ProcessError: string := "Failed to process message"
  const FetchHistoryError: string := "Failed to fetch chat history"
  const ClearHistoryError: string := "Failed to clear history"
  const ClearedNotice: string := "Chat history cleared"

  /** The `message` field of the request body.
      `Absent`: a falsy non-string (missing, `null`, `false`, `0`).
      `Str(text)`: a string.
      `OtherValue`: a truthy non-string (a non-zero number, `true`, an object
      or an array), which has no `trim` method. */
  datatype MessageField = Absent | Str(text: string) | OtherValue

  /** A message the handler goes on to store: a string that is not blank. */
  predicate Accepted(message: MessageField)
  {
    message.Str? && !IsBlank(message.text)
  }

  /** The outcome of the check at the top of the chat handler. */
  datatype Verdict = Refuse(status: int, error: string) | Proceed(text: string)

  /** `if (!message || message.trim() === '')`: a falsy value or an empty
      string is refused with 400; a truthy non-string has no `trim` and the
      handler's catch turns that into 500; a string goes on exactly when it
      is not blank. */
  function Validate(message: MessageField): (v: Verdict)
    ensures v.Proceed? <==> Accepted(message)
    ensures v.Proceed? ==> v.text == message.text
    ensures v.Refuse? ==>
      v == (if message.OtherValue? then Refuse(500, ProcessError) else Refuse(400, EmptyMessageError))
  {
    match message
    case Absent => Refuse(400, EmptyMessageError)
    case OtherValue => Refuse(500, ProcessError)
    case Str(text) =>
      TrimEmptyIffBlank(text);
      if text == "" || Trim(text) == "" then Refuse(400, EmptyMessageError) else Proceed(text)
  }

  /** The body of a chat answer: a 200 carries the echoed user message and
      the assistant row as read back from the table. */
  datatype ChatResponse =
    | ChatOk(userMessage: Message, aiMessage: Message)
    | ChatError(status: int, error: string)

  datatype HistoryResponse =
    | HistoryOk(rows: seq<Row>)
    | HistoryError(status: int, error: string)

  datatype ClearResponse =
    | Cleared(message: string)
    | ClearError(status: int, error: string)

  /** Which storage statements of one chat request throw. */
  datatype ChatFaults = ChatFaults(userInsert: bool, assistantInsert: bool, assistantSelect: bool)

  const NoFaults: ChatFaults := ChatFaults(false, false, false)

  /** What a chat turn with an accepted `text` leaves behind, given the
      state before it (`rows0`, `lastId0`, `issued0`, `requests0`) and after
      it (`rows`, `lastId`, `issued`, `requests`). A failing user insert stores nothing; otherwise
      the user row keeps the text as sent (not trimmed) and the provider is
      asked about `text` alone unless the key is the placeholder; a failing
      assistant insert keeps the user row (there is no rollback); a failing
      read of the new row keeps both rows; only then is the reply 200. */
  ghost predicate Stored(apiKey: string, text: string, provider: ProviderOutcome, faults: ChatFaults,
                         userTime: int, aiTime: int,
                         rows0: seq<Row>, lastId0: int, issued0: set<int>, requests0: seq<string>,
                         rows: seq<Row>, lastId: int, issued: set<int>, requests: seq<string>, resp: ChatResponse)
  {
    var userRow := Row(lastId0 + 1, User, text, userTime);
    var aiRow := Row(lastId0 + 2, Assistant, ChosenReply(apiKey, provider), aiTime);
    if faults.userInsert || lastId0 == MaxRowId then
      rows == rows0 && lastId == lastId0 && issued == issued0 && requests == requests0 &&
      resp == ChatError(500, ProcessError)
    else if faults.assistantInsert || lastId0 + 1 == MaxRowId then
      requests == requests0 + ProviderCalls(apiKey, text) &&
      rows == rows0 + [userRow] && lastId == lastId0 + 1 && issued == issued0 + {lastId0 + 1} &&
      resp == ChatError(500, ProcessError)
    else
      requests == requests0 + ProviderCalls(apiKey, text) &&
      rows == rows0 + [userRow, aiRow] && lastId == lastId0 + 2 &&
      issued == issued0 + {lastId0 + 1, lastId0 + 2} &&
      resp == (if faults.assistantSelect then ChatError(500, ProcessError)
               else ChatOk(Message(None, User, text, None), AsMessage(aiRow)))
  }

  /** A stored chat turn only appends, every appended row has an id above
      the counter's old value, no id is ever dropped from the issued set,
      and the reply is 200 exactly when no statement failed and two ids were
      left. A 200 echoes the text with neither id nor timestamp, while the
      reply carries the new row's id and timestamp. */
  lemma StoredOnlyAppends(apiKey: string, text: string, provider: ProviderOutcome, faults: ChatFaults,
                          userTime: int, aiTime: int,
                          rows0: seq<Row>, lastId0: int, issued0: set<int>, requests0: seq<string>,
                          rows: seq<Row>, lastId: int, issued: set<int>, requests: seq<string>, resp: ChatResponse)
    requires lastId0 <= MaxRowId
    requires Stored(apiKey, text, provider, faults, userTime, aiTime,
                    rows0, lastId0, issued0, requests0, rows, lastId, issued, requests, resp)
    ensures |rows| >= |rows0| && rows[..|rows0|] == rows0
    ensures forall i :: |rows0| <= i < |rows| ==> rows[i].id > lastId0
    ensures issued0 <= issued
    ensures resp.ChatOk? <==> faults == NoFaults && lastId0 + 2 <= MaxRowId
    ensures resp.ChatOk? ==>
      resp.userMessage == Message(None, User, text, None) &&
      resp.aiMessage.id == Some(lastId0 + 2) && resp.aiMessage.timestamp == Some(aiTime) &&
      resp.aiMessage.content == ChosenReply(apiKey, provider)
  {
  }

  /** The ids 1 to `n`: what an AUTOINCREMENT counter at `n` has handed out. */
  ghost function IdsUpTo(n: nat): (ids: set<int>)
    ensures forall k :: k in ids <==> 1 <= k <= n
  {
    if n == 0 then {} else IdsUpTo(n - 1) + {n}
  }

  class ChatServer {
    /** `GROQ_API_KEY`, read once at start-up. */
    const apiKey: string
    /** The table's rows in insertion order. */
    var rows: seq<Row>
    /** The table's `sqlite_sequence` entry: the largest id ever assigned. */
    var lastId: int
    /** Every id ever assigned, including ids of cleared rows. */
    ghost var issued: set<int>
    /** The prompts sent to the completion provider, oldest first. */
    ghost var providerRequests: seq<string>

    ghost predicate Valid()
      reads this
    {
      0 <= lastId <= MaxRowId &&
      IdsAscending(rows) &&
      (forall k :: k in issued ==> 1 <= k <= lastId) &&
      (forall i :: 0 <= i < |rows| ==> rows[i].id in issued)
    }

    /** Start-up over the database file: `CREATE TABLE IF NOT EXISTS` keeps
        the rows (`stored`) and the AUTOINCREMENT counter (`counter`) of an
        earlier run, both empty on the first start. Every id up to the
        counter counts as assigned, so none is handed out again. The key is
        resolved once. */
    constructor (env: Option<string>, stored: seq<Row>, counter: int)
      requires 0 <= counter <= MaxRowId && IdsAscending(stored)
      requires forall i :: 0 <= i < |stored| ==> 1 <= stored[i].id <= counter
      ensures Valid()
      ensures apiKey == ResolveApiKey(env)
      ensures rows == stored && lastId == counter && providerRequests == []
      ensures forall k :: k in issued <==> 1 <= k <= counter
    {
      apiKey := ResolveApiKey(env);
      rows := stored;
      lastId := counter;
      issued := IdsUpTo(counter);
      providerRequests := [];
    }

    /** `INSERT INTO messages (role, content) VALUES (?, ?)` with its
        `lastInsertRowid`. The new id is one more than any id ever used;
        a failed insert changes nothing. */
    method Insert(role: Role, content: string, now: int, fails: bool) returns (id: Option<int>)
      requires Valid()
      modifies this`rows, this`lastId, this`issued
      ensures Valid()
      ensures id.Some? <==> !fails && old(lastId) < MaxRowId
      ensures id.Some? ==> id.value == old(lastId) + 1 && id.value !in old(issued)
      ensures id.Some? ==> rows == old(rows) + [Row(id.value, role, content, now)]
      ensures id.Some? ==> lastId == id.value && issued == old(issued) + {id.value}
      ensures id.None? ==> rows == old(rows) && lastId == old(lastId) && issued == old(issued)
    {
      if fails || lastId == MaxRowId {
        return None;
      }
      lastId := lastId + 1;
      rows := rows + [Row(lastId, role, content, now)];
      issued := issued + {lastId};
      id := Some(lastId);
    }

    /** `POST /api/chat`. A missing or blank message is refused with 400
        before anything is stored; a message of another type fails on
        `trim` with 500. Otherwise the exchange is stored as
        `StoreExchange` says. The provider's answer never decides the status. */
    method Chat(message: MessageField, provider: ProviderOutcome, faults: ChatFaults, userTime: int, aiTime: int)
      returns (resp: ChatResponse)
      requires Valid()
      modifies this`rows, this`lastId, this`issued, this`providerRequests
      ensures Valid()
      ensures |rows| >= |old(rows)| && rows[..|old(rows)|] == old(rows)
      ensures forall i :: |old(rows)| <= i < |rows| ==> rows[i].id !in old(issued)
      ensures old(issued) <= issued
      ensures resp.ChatOk? <==> Accepted(message) && faults == NoFaults && old(lastId) + 2 <= MaxRowId
      ensures !Accepted(message) ==>
        rows == old(rows) && lastId == old(lastId) && issued == old(issued) &&
        providerRequests == old(providerRequests) &&
        resp == (if message.OtherValue? then ChatError(500, ProcessError) else ChatError(400, EmptyMessageError))
      ensures Accepted(message) ==>
        Stored(apiKey, message.text, provider, faults, userTime, aiTime,
               old(rows), old(lastId), old(issued), old(providerRequests),
               rows, lastId, issued, providerRequests, resp)
    {
      var verdict := Validate(message);
      if verdict.Refuse? {
        return ChatError(verdict.status, verdict.error);
      }
      var text := verdict.text;
      ghost var rows0, lastId0, issued0, requests0 := rows, lastId, issued, providerRequests;
      resp := StoreExchange(text, provider, faults, userTime, aiTime);
      StoredOnlyAppends(apiKey, text, provider, faults, userTime, aiTime,
                        rows0, lastId0, issued0, requests0, rows, lastId, issued, providerRequests, resp);
    }

    /** The reply choice of `POST /api/chat`: the placeholder text when the
        key is the placeholder, without asking the provider; otherwise one
        request carrying `text` alone, whose outcome is decoded. */
    method AskProvider(text: string, provider: ProviderOutcome) returns (reply: string)
      modifies this`providerRequests
      ensures reply == ChosenReply(apiKey, provider)
      ensures providerRequests == old(providerRequests) + ProviderCalls(apiKey, text)
    {
      if apiKey == PlaceholderKey {
        reply := PlaceholderReply;
      } else {
        providerRequests := providerRequests + [text];
        reply := ResolveReply(provider);
      }
    }

    /** The part of `POST /api/chat` after validation: two inserts around the
        reply choice, then the read-back of the assistant row. */
    method StoreExchange(text: string, provider: ProviderOutcome, faults: ChatFaults, userTime: int, aiTime: int)
      returns (resp: ChatResponse)
      requires Valid()
      modifies this`rows, this`lastId, this`issued, this`providerRequests
      ensures Valid()
      ensures Stored(apiKey, text, provider, faults, userTime, aiTime,
                     old(rows), old(lastId), old(issued), old(providerRequests),
                     rows, lastId, issued, providerRequests, resp)
    {
      ghost var rows0, lastId0, issued0 := rows, lastId, issued;
      var userId := Insert(User, text, userTime, faults.userInsert);
      if userId.None? {
        return ChatError(500, ProcessError);
      }
      var reply := AskProvider(text, provider);
      var userRow := Row(lastId0 + 1, User, text, userTime);
      assert rows == rows0 + [userRow] && issued == issued0 + {lastId0 + 1};
      var aiId := Insert(Assistant, reply, aiTime, faults.assistantInsert);
      if aiId.None? {
        return ChatError(500, ProcessError);
      }
      var aiRow := Row(lastId0 + 2, Assistant, reply, aiTime);
      assert rows == rows0 + [userRow, aiRow] && issued == issued0 + {lastId0 + 1, lastId0 + 2};
      resp := ReadBack(text, aiId.value, faults.assistantSelect);
    }

    /** `SELECT * FROM messages WHERE id = ?` for the row just inserted, and
        the answer built from it: the echo of the text and the row as JSON.
        A failing statement gives 500. */
    method ReadBack(text: string, id: int, fails: bool) returns (resp: ChatResponse)
      requires IdsAscending(rows) && |rows| > 0 && rows[|rows| - 1].id == id
      ensures fails ==> resp == ChatError(500, ProcessError)
      ensures !fails ==> resp == ChatOk(Message(None, User, text, None), AsMessage(rows[|rows| - 1]))
    {
      FindLastInserted(rows);
      var found := FindById(rows, id);
      assert found.Some?;
      if fails {
        return ChatError(500, ProcessError);
      }
      resp := ChatOk(Message(None, User, text, None), AsMessage(found.value));
    }

    /** `GET /api/history`: every row, in non-decreasing timestamp order
        (rows stored in the same second in no particular order). */
    method History(fails: bool) returns (resp: HistoryResponse)
      requires Valid()
      ensures fails ==> resp == HistoryError(500, FetchHistoryError)
      ensures !fails ==> resp.HistoryOk? && OrderedByTime(resp.rows) && multiset(resp.rows) == multiset(rows)
    {
      if fails {
        return HistoryError(500, FetchHistoryError);
      }
      OrderByTimestampSorts(rows);
      resp := HistoryOk(OrderByTimestamp(rows));
    }

    /** `DELETE /api/history`: removes every row. The AUTOINCREMENT counter
        is kept, so ids of cleared rows are never handed out again. */
    method ClearHistory(fails: bool) returns (resp: ClearResponse)
      requires Valid()
      modifies this`rows, this`lastId, this`issued, this`providerRequests
      ensures Valid()
      ensures lastId == old(lastId) && issued == old(issued) && providerRequests == old(providerRequests)
      ensures fails ==> resp == ClearError(500, ClearHistoryError) && rows == old(rows)
      ensures !fails ==> resp == Cleared(ClearedNotice) && rows == []
    {
      if fails {
        return ClearError(500, ClearHistoryError);
      }
      rows := [];
      resp := Cleared(ClearedNotice);
    }
  }

  /** A turn against a fresh database with a configured key: "Hello"
      answered with "Hi there!" is stored as rows 1 and 2 and, as the two
      rows are stored in different seconds, listed in that order. */
  method HelloExchange() returns (reply: ChatResponse, listed: HistoryResponse)
    ensures reply == ChatOk(Message(None, User, "Hello", None), Message(Some(2), Assistant, "Hi there!", Some(11)))
    ensures listed == HistoryOk([Row(1, User, "Hello", 10), Row(2, Assistant, "Hi there!", 11)])
  {
    var server := new ChatServer(Some("gsk_configured"), [], 0);
    assert server.apiKey != PlaceholderKey;
    assert !IsSpace("Hello"[0]);
    assert ChosenReply(server.apiKey, Answered(None, Some("Hi there!"))) == "Hi there!";
    reply := server.Chat(Str("Hello"), Answered(None, Some("Hi there!")), NoFaults, 10, 11);
    listed := server.History(false);
    DistinctTimesFixOrder(Row(1, User, "Hello", 10), Row(2, Assistant, "Hi there!", 11), listed.rows);
  }

  /** After a clear the listing is empty, and the next turn on a server whose
      counter stood at `n` gets ids above `n`: cleared ids are not reused. */
  method ClearThenChat(server: ChatServer, text: string) returns (afterClear: HistoryResponse, next: ChatResponse)
    requires server.Valid() && server.lastId + 2 <= MaxRowId && !IsBlank(text)
    modifies server
    ensures afterClear == HistoryOk([])
    ensures next.ChatOk? && next.aiMessage.id == Some(old(server.lastId) + 2)
    ensures old(server.lastId) + 1 !in old(server.issued) && old(server.lastId) + 2 !in old(server.issued)
  {
    var cleared := server.ClearHistory(false);
    afterClear := server.History(false);
    next := server.Chat(Str(text), Thrown("fetch failed"), NoFaults, 0, 0);
  }
}
