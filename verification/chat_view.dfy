/** The browser side: the `messages`, `input` and `loading` state of the chat
    page and its transitions in `fetchHistory`, `sendMessage` and
    `clearChat`. Each network answer and the user's confirmation are
    parameters; each settled request is one step. */
module ChatView {
  import opened Common
  import opened Text
  import opened MessageLog
  import opened Relay
  import Server

  /** What one request of the page came back with.
      `NoReply`: `fetch` rejected or the body was not JSON.
      `Refused(status, error)`: a non-2xx answer whose JSON body is `{error}`.
      `Delivered(value)`: a 2xx answer with the expected body. */
  datatype Reply<T> = NoReply | Refused(status: int, error: string) | Delivered(value: T)

  /** The body of a successful `POST /api/chat`. */
  datatype Exchange = Exchange(userMessage: Message, aiMessage: Message)

  /** The optimistic message shown while a send is in flight. */
  function TempMessage(text: string, tempId: int): Message
  {
    Message(Some(tempId), User, text, None)
  }

  /** `xs.filter(msg => msg.id !== id)`: drops exactly the messages carrying
      that id (messages without an id are kept). */
  function WithoutId(xs: seq<Message>, id: int): (r: seq<Message>)
    ensures |r| <= |xs|
    ensures forall i :: 0 <= i < |r| ==> r[i].id != Some(id)
  {
    if xs == [] then []
    else (if xs[0].id == Some(id) then [] else [xs[0]]) + WithoutId(xs[1..], id)
  }

  /** A message survives the filter exactly when it was in the list and
      does not carry the id. */
  lemma {:induction false} WithoutIdMembers(xs: seq<Message>, id: int, m: Message)
    ensures m in WithoutId(xs, id) <==> m in xs && m.id != Some(id)
  {
    if xs != [] {
      WithoutIdMembers(xs[1..], id, m);
      assert xs == [xs[0]] + xs[1..];
    }
  }

  /** Filtering a concatenation filters each part. */
  lemma {:induction false} WithoutIdAppend(a: seq<Message>, b: seq<Message>, id: int)
    ensures WithoutId(a + b, id) == WithoutId(a, id) + WithoutId(b, id)
  {
    if a == [] {
      assert a + b == b;
    } else {
      assert (a + b)[0] == a[0] && (a + b)[1..] == a[1..] + b;
      WithoutIdAppend(a[1..], b, id);
    }
  }

  /** Filtering a list in which nothing carries the id changes nothing. */
  lemma {:induction false} WithoutIdKeepsOthers(xs: seq<Message>, id: int)
    requires forall m :: m in xs ==> m.id != Some(id)
    ensures WithoutId(xs, id) == xs
  {
    if xs != [] {
      WithoutIdKeepsOthers(xs[1..], id);
      assert xs == [xs[0]] + xs[1..];
    }
  }

  /** The list once the chat request has settled: the temporary message is
      dropped and, for a delivered exchange, the server's user message and
      reply are appended in that order; any other answer only drops it.
      This is the corrected settlement: a refused answer is treated as a
      failure. `SettledAsWritten` is the page as written. */
  function Settled(prev: seq<Message>, tempId: int, reply: Reply<Exchange>): seq<Message>
  {
    match reply
    case Delivered(ex) => WithoutId(prev, tempId) + [ex.userMessage, ex.aiMessage]
    case _ => WithoutId(prev, tempId)
  }

  /** A send that fails takes the list back to what it was before the send,
      provided nothing else carried the temporary id. */
  lemma FailedSendRestores(prev: seq<Message>, text: string, tempId: int, reply: Reply<Exchange>)
    requires !reply.Delivered?
    requires forall m :: m in prev ==> m.id != Some(tempId)
    ensures Settled(prev + [TempMessage(text, tempId)], tempId, reply) == prev
  {
    WithoutIdAppend(prev, [TempMessage(text, tempId)], tempId);
    WithoutIdKeepsOthers(prev, tempId);
  }

  /** A send that succeeds replaces the temporary message by the server's two
      messages at the end of the list. */
  lemma DeliveredSendReplaces(prev: seq<Message>, text: string, tempId: int, ex: Exchange)
    requires forall m :: m in prev ==> m.id != Some(tempId)
    ensures Settled(prev + [TempMessage(text, tempId)], tempId, Delivered(ex)) == prev + [ex.userMessage, ex.aiMessage]
  {
    WithoutIdAppend(prev, [TempMessage(text, tempId)], tempId);
    WithoutIdKeepsOthers(prev, tempId);
  }

  /** How the page reads the answer to `POST /api/chat`: a 200 body is the
      exchange; an error status with its `{error}` body is a refused request. */
  function ChatReply(resp: Server.ChatResponse): Reply<Exchange>
  {
    match resp
    case ChatOk(u, a) => Delivered(Exchange(u, a))
    case ChatError(status, error) => Refused(status, error)
  }

  /** One chat turn seen from both sides. When the server stores the turn
      and answers 200, the page's temporary message gives way to the text as
      sent, with no id and no timestamp, followed by the stored reply with
      the new row's id and timestamp; any other answer takes the list back
      to what it was before the send. As written, the page instead keeps
      two `undefined` entries for such an answer. */
  lemma ChatTurnOnPage(prev: seq<Message>, tempId: int,
                       apiKey: string, text: string, provider: ProviderOutcome, faults: Server.ChatFaults,
                       userTime: int, aiTime: int,
                       rows0: seq<Row>, lastId0: int, issued0: set<int>, requests0: seq<string>,
                       rows: seq<Row>, lastId: int, issued: set<int>, requests: seq<string>,
                       resp: Server.ChatResponse)
    requires forall m :: m in prev ==> m.id != Some(tempId)
    requires lastId0 <= MaxRowId
    requires Server.Stored(apiKey, text, provider, faults, userTime, aiTime,
                           rows0, lastId0, issued0, requests0, rows, lastId, issued, requests, resp)
    ensures var shown := Settled(prev + [TempMessage(text, tempId)], tempId, ChatReply(resp));
      if resp.ChatOk? then
        shown == prev + [Message(None, User, text, None),
                         Message(Some(lastId0 + 2), Assistant, ChosenReply(apiKey, provider), Some(aiTime))]
      else shown == prev
    ensures !resp.ChatOk? ==>
      SettledAsWritten(prev + [TempMessage(text, tempId)], tempId, ChatReply(resp)) == Entries(prev) + [None, None]
  {
    Server.StoredOnlyAppends(apiKey, text, provider, faults, userTime, aiTime,
                             rows0, lastId0, issued0, requests0, rows, lastId, issued, requests, resp);
    if resp.ChatOk? {
      DeliveredSendReplaces(prev, text, tempId, Exchange(resp.userMessage, resp.aiMessage));
    } else {
      FailedSendRestores(prev, text, tempId, ChatReply(resp));
    }
  }

  /** The list after `fetchHistory`: the server's list when it answered,
      otherwise the list as it was. */
  function Fetched(prev: seq<Message>, reply: Reply<seq<Message>>): (r: seq<Message>)
    ensures reply.Delivered? ==> r == reply.value
    ensures !reply.Delivered? ==> r == prev
  {
    if reply.Delivered? then reply.value else prev
  }

  /** The text the page sends is already trimmed and not blank, so the
      server's validation accepts it: the page never gets the 400 answer. */
  lemma SentTextIsAccepted(input: string)
    requires !IsBlank(input)
    ensures Server.Accepted(Server.Str(Trim(input)))
  {
    TrimIdempotent(input);
    TrimEmptyIffBlank(input);
    TrimEmptyIffBlank(Trim(input));
  }

  class App {
    var messages: seq<Message>
    var input: string
    var loading: bool

    /** The three `useState` initial values. */
    constructor ()
      ensures messages == [] && input == "" && !loading
    {
      messages := [];
      input := "";
      loading := false;
    }

    /** `fetchHistory`: replaces the list by the server's list; a failed
        request leaves it as it was. */
    method FetchHistory(reply: Reply<seq<Message>>)
      modifies this`messages, this`input, this`loading
      ensures messages == Fetched(old(messages), reply)
      ensures input == old(input) && loading == old(loading)
    {
      if reply.Delivered? {
        messages := reply.value;
      }
    }

    /** The input field's `onChange`, or a suggestion button. The field is
        disabled while a send is pending; the buttons are shown only while
        the list is empty. */
    method SetInput(text: string, fromSuggestion: bool)
      requires fromSuggestion ==> messages == []
      requires !fromSuggestion ==> !loading
      modifies this`messages, this`input, this`loading
      ensures input == text
      ensures messages == old(messages) && loading == old(loading)
    {
      input := text;
    }

    /** The first half of `sendMessage`: ignored while the trimmed input is
        empty or a send is in flight; otherwise clears the input, sets
        `loading` and appends one temporary user message with the trimmed
        text, which is also what is sent (returned here). */
    method SendMessage(tempId: int) returns (sent: Option<string>)
      modifies this`messages, this`input, this`loading
      ensures sent.None? <==> Trim(old(input)) == "" || old(loading)
      ensures sent.None? ==> messages == old(messages) && input == old(input) && loading == old(loading)
      ensures sent.Some? ==>
        sent.value == Trim(old(input)) && input == "" && loading &&
        messages == old(messages) + [TempMessage(sent.value, tempId)]
    {
      var text := Trim(input);
      if text == "" || loading {
        return None;
      }
      input := "";
      loading := true;
      messages := messages + [TempMessage(text, tempId)];
      sent := Some(text);
    }

    /** The second half of `sendMessage`, once the request has settled:
        the list becomes `Settled(...)` and `loading` is reset whatever the
        outcome. */
    method SettleSend(tempId: int, reply: Reply<Exchange>)
      modifies this`messages, this`loading
      ensures messages == Settled(old(messages), tempId, reply)
      ensures !loading && input == old(input)
    {
      messages := Settled(messages, tempId, reply);
      loading := false;
    }

    /** `clearChat`: asks for confirmation; only a confirmed request that
        the server answers with an OK status empties the list. Returns
        whether the request was sent. */
    method ClearChat(confirmed: bool, reply: Reply<()>) returns (requested: bool)
      modifies this`messages, this`input, this`loading
      ensures requested == confirmed
      ensures messages == (if confirmed && reply.Delivered? then [] else old(messages))
      ensures input == old(input) && loading == old(loading)
    {
      if !confirmed {
        return false;
      }
      requested := true;
      if reply.Delivered? {
        messages := [];
      }
    }
  }

  /** The successful path end to end: from an idle page with a non-blank
      input, a send followed by the server's exchange leaves the previous
      list followed by the two server messages, an empty input and no
      pending send. */
  method SendAndDeliver(app: App, tempId: int, ex: Exchange) returns (sent: Option<string>)
    requires !app.loading && !IsBlank(app.input)
    requires forall m :: m in app.messages ==> m.id != Some(tempId)
    modifies app
    ensures sent == Some(Trim(old(app.input)))
    ensures app.messages == old(app.messages) + [ex.userMessage, ex.aiMessage]
    ensures app.input == "" && !app.loading
  {
    ghost var prev := app.messages;
    sent := app.SendMessage(tempId);
    app.SettleSend(tempId, Delivered(ex));
    DeliveredSendReplaces(prev, sent.value, tempId, ex);
  }

  // ---------------------------------------------------------------------
  // The page as written does not look at `response.ok` in `sendMessage`
  // and `fetchHistory`. A JSON `{error}` answer (the server's 500) is then
  // taken as a success. The members below model that behaviour; the class
  // above treats such an answer as a failed request.
  // ---------------------------------------------------------------------

  /** Messages as array entries; `None` stands for `undefined`. */
  function Entries(xs: seq<Message>): (r: seq<Option<Message>>)
    ensures |r| == |xs|
    ensures forall i :: 0 <= i < |xs| ==> r[i] == Some(xs[i])
  {
    if xs == [] then [] else [Some(xs[0])] + Entries(xs[1..])
  }

  /** `sendMessage` as written: any JSON answer goes through the success
      branch, so the `{error}` body's missing `userMessage` and `aiMessage`
      are appended as two `undefined` entries. */
  function SettledAsWritten(prev: seq<Message>, tempId: int, reply: Reply<Exchange>): (r: seq<Option<Message>>)
    ensures reply.Refused? ==> r == Entries(WithoutId(prev, tempId)) + [None, None]
    ensures !reply.Refused? ==> r == Entries(Settled(prev, tempId, reply))
  {
    match reply
    case NoReply => Entries(WithoutId(prev, tempId))
    case Refused(_, _) => Entries(WithoutId(prev, tempId)) + [None, None]
    case Delivered(ex) => Entries(WithoutId(prev, tempId) + [ex.userMessage, ex.aiMessage])
  }

  /** A 500 answer to a send leaves `undefined` entries in the list, which
      the page then reads `role` and `content` from. */
  lemma {:induction false} RefusedSendLeavesUndefined(prev: seq<Message>, text: string, tempId: int, status: int, error: string)
    requires forall m :: m in prev ==> m.id != Some(tempId)
    ensures var r := SettledAsWritten(prev + [TempMessage(text, tempId)], tempId, Refused(status, error));
      |r| == |prev| + 2 && r[|prev|] == None && r[|prev| + 1] == None
  {
    FailedSendRestores(prev, text, tempId, Refused(status, error));
  }

  /** A JSON value the page may store as its list. */
  datatype ListValue = ArrayValue(items: seq<Message>) | ObjectValue(error: string)

  /** `fetchHistory` as written: whatever JSON came back becomes the list,
      the `{error}` object of a 500 answer included. */
  function FetchedAsWritten(prev: seq<Message>, reply: Reply<seq<Message>>): (r: ListValue)
    ensures reply.Refused? ==> r == ObjectValue(reply.error)
    ensures !reply.Refused? ==> r == ArrayValue(Fetched(prev, reply))
  {
    match reply
    case NoReply => ArrayValue(prev)
    case Refused(_, e) => ObjectValue(e)
    case Delivered(xs) => ArrayValue(xs)
  }

  /** A 500 answer to the history request replaces the list by an object
      that has no `map` and no `length`, whatever the list held. */
  lemma RefusedHistoryReplacesList(prev: seq<Message>)
    ensures !FetchedAsWritten(prev, Refused(500, Server.FetchHistoryError)).ArrayValue?
  {
  }
}
