# Chat relay and chat page, modelled in Dafny

The system is a small chat application with two parts.

- **Backend** (`backend/server.js`). It keeps every message in one `messages` table. Each row has an AUTOINCREMENT `id`, a `role`, a `content` and a `timestamp`.
  - `POST /api/chat` validates the text and stores it as a `user` row. It then works out a reply from the Groq completion API, stores that reply as an `assistant` row and returns both messages.
  - `GET /api/history` lists the table ordered by timestamp.
  - `DELETE /api/history` empties the table.
- **Chat page** (`frontend/src/App.jsx`). It holds three pieces of React state: `messages`, `input` and `loading`.
  - `sendMessage` shows the user's text at once as a temporary message. When the request settles, it swaps that message for the server's pair or removes it.
  - `fetchHistory` loads the list.
  - `clearChat` empties the list after the user confirms.

The model is split into six modules:

- `Common`: the optional-value wrapper, the two roles and the JSON shape of a message.
- `Text`: ECMAScript `String.prototype.trim`. Both sides use it to decide whether a message is blank.
- `MessageLog`: a table row, the order `ORDER BY timestamp ASC` may give, and the lookup by id.
- `Relay`: the API-key default, the placeholder-key check and the decoding of the provider's answer into reply text.
- `Server`: class `ChatServer`. Its fields are:
  - the rows;
  - the AUTOINCREMENT counter (`lastId`);
  - a ghost set of every id ever assigned;
  - a ghost record of the prompts sent to the provider.

  One method stands for each handler. Storage failures, clock readings and the provider's outcome are method parameters.
- `ChatView`: class `App` holds `messages`, `input` and `loading`, with one method per transition. Beside it are the pure list updates (`filter` on the temporary id, append at the end) and the lemmas about them. The network answers and the user's confirmation are parameters.

Where the code and the intended design differ, the model follows the code:

- Only the literal key `YOUR_API_KEY_HERE` selects the placeholder reply. An unset key falls back to `dummy_key_for_build`, and the provider is still called (`Relay.UnsetKeyStillCallsProvider`).
- History is ordered by timestamp only. Rows stored within the same second may come back in any order, not by id (`MessageLog.TieOrderUnconstrained`).
- The chat response's `userMessage` is `{role: 'user', content: message}` with neither `id` nor `timestamp`. Only `aiMessage` is a stored row.
- The whole conversation is not sent to the provider. Each call carries only the current message (`Relay.ProviderCalls`).
- The `user` row stores the message exactly as sent. The trimmed form is used only for the blank check.

## Model

| member | source | states |
|---|---|---|
| `Text.SkipLeading` | backend/server.js:44 | the scan forward stops at the first character that is not white space, or at the end; everything it passed is white space |
| `Text.SkipTrailing` | backend/server.js:44 | the scan backward, not below the given start, stops after the last character that is not white space; everything it passed is white space |
| `Text.Trim` | backend/server.js:44 | the trimmed text has no white space at either end and is no longer than the input |
| `Text.TrimEmptyIffBlank` | backend/server.js:44 | `message.trim() === ''` holds exactly when every character is white space |
| `Text.TrimIsSlice` | frontend/src/App.jsx:35-37 | the trimmed text is one contiguous slice of the input, and only white space lies outside it |
| `Text.TrimIdempotent` | frontend/src/App.jsx:37 | trimming an already trimmed text changes nothing |
| `MessageLog.IdsIdentifyRows` | backend/server.js:18 | with ascending ids, the id picks out one row |
| `MessageLog.InsertByTime` | backend/server.js:31 | placing one row into a listing adds exactly one row |
| `MessageLog.InsertByTimePermutes` | backend/server.js:31 | placing a row into a listing keeps the other rows and adds that one |
| `MessageLog.InsertByTimeNotAfter` | backend/server.js:31 | placing a row that is not later than a bound keeps every row not later than that bound |
| `MessageLog.InsertByTimeOrdered` | backend/server.js:31 | placing a row into a time-ordered listing keeps it time-ordered |
| `MessageLog.OrderByTimestamp` | backend/server.js:31 | the listing has as many rows as the table |
| `MessageLog.OrderByTimestampSorts` | backend/server.js:31 | the listing is in non-decreasing timestamp order and is a rearrangement of exactly the table's rows |
| `MessageLog.DistinctTimesFixOrder` | backend/server.js:31 | two rows with different timestamps have only one admissible listing, the earlier row first |
| `MessageLog.FindLastInserted` | backend/server.js:113 | looking up the id of the row just appended finds exactly that row, because ids ascend |
| `MessageLog.TieOrderUnconstrained` | backend/server.js:31 | with no id tie-break, a reply stored in the same second as its question may be listed before it |
| `MessageLog.AsMessage` | backend/server.js:113-117 | `SELECT *` turns a row into the JSON object sent back, every column included; `Server.StoredOnlyAppends` states the id and timestamp it gives the reply of a chat turn |
| `MessageLog.FindById` | backend/server.js:113 | `SELECT … WHERE id = ?` returns a row of the table with that id, or nothing when no row has it |
| `Relay.ResolveApiKey` | backend/server.js:26 | a set, non-empty variable is used as it is; an unset or empty one gives `dummy_key_for_build` |
| `Relay.UnsetKeyStillCallsProvider` | backend/server.js:26-53 | an unset or empty key never equals the placeholder key, so the provider is still called |
| `Relay.ResolveReply` | backend/server.js:94-106 | the precedence: a provider error gives the API-error text whatever the content; otherwise non-empty first-choice content is relayed verbatim; otherwise the fixed unexpected-response text; a thrown failure gives the connection-error text; the reply is never empty |
| `Relay.ErrorOutranksContent` | backend/server.js:94-97 | the reply to a provider error does not depend on any content sent with it |
| `Relay.EmptyContentIsUnexpected` | backend/server.js:97-101 | empty content is falsy and gives the same reply as missing content |
| `Relay.ChosenReply` | backend/server.js:53-106 | with the placeholder key the reply is the fixed placeholder text; otherwise it is the decoded provider outcome; it is never empty |
| `Relay.ProviderCalls` | backend/server.js:53-89 | the placeholder key sends nothing; any other key sends exactly one prompt, the current message |
| `Server.Validate` | backend/server.js:44-46 | a message goes on exactly when it is a string that is not blank, and it goes on unchanged; a falsy value or a blank string gets 400 "Message cannot be empty"; a truthy non-string fails on `trim` and gets 500 |
| `Server.StoredOnlyAppends` | backend/server.js:49-118 | a chat turn only appends rows, each new id is above the counter's old value, no assigned id is ever forgotten, and the answer is 200 exactly when no storage statement failed and two ids were still available; a 200 echoes the text with neither id nor timestamp, while `aiMessage` is the new row read back with its id (the old counter plus two), its timestamp and the chosen reply |
| `Server.IdsUpTo` | backend/server.js:18 | the ids an AUTOINCREMENT counter at `n` has handed out are exactly 1 to `n` |
| `Server.ChatServer.constructor` | backend/server.js:13-26 | start-up over `chat.db` keeps the rows and the AUTOINCREMENT counter of an earlier run (empty and 0 on the first start), counts every id up to the counter as assigned, and resolves the key once |
| `Server.ChatServer.Insert` | backend/server.js:49-50 | a successful insert appends one row whose id is the counter plus one and was never assigned before; it fails, changing nothing, when the statement fails or the largest rowid (2^63-1) has been used |
| `Server.ChatServer.Chat` | backend/server.js:40-123 | a refused message leaves the table, the counter, the issued ids and the provider untouched; otherwise the turn is stored as `Stored` describes; rows are only appended, with ids never used before, and the set of issued ids only grows; the status is 200 exactly when the message is accepted and no storage statement fails, whatever the provider answered |
| `Server.ChatServer.AskProvider` | backend/server.js:53-106 | with the placeholder key the reply is the placeholder text and no request is recorded; otherwise one request with the message alone is recorded and its outcome is decoded |
| `Server.ChatServer.StoreExchange` | backend/server.js:48-118 | a failed user insert stores nothing (500); a failed assistant insert keeps the user row (500, no rollback); a failed read-back keeps both rows (500); otherwise the rows `user` (untrimmed text) then `assistant` (chosen reply) get consecutive ids, and the answer is the echo `{role: user, content}` together with the stored assistant row as JSON (`SELECT *`, so with its id and timestamp) |
| `Server.ChatServer.ReadBack` | backend/server.js:112-118 | for ids up to 2^53-1, the read-back by `lastInsertRowid` finds the row just inserted, so a 200 carries that row as JSON with the echo of the text; only a failing statement gives 500 |
| `Server.ChatServer.History` | backend/server.js:29-37 | on success the listing is exactly the table's rows in non-decreasing timestamp order; a storage failure gives 500 "Failed to fetch chat history" |
| `Server.ChatServer.ClearHistory` | backend/server.js:126-134 | on success every row is gone while the counter and the set of assigned ids stay; a storage failure gives 500 and keeps the rows |
| `Server.HelloExchange` | backend/server.js:40-118 | on a fresh database, "Hello" answered with "Hi there!" gives the echo and the assistant message with id 2 and its timestamp; with the two rows stored in different seconds, the history is then exactly rows 1 and 2 in that order (in the same second either order may come back, see `MessageLog.TieOrderUnconstrained`) |
| `Server.ClearThenChat` | backend/server.js:126-134 | after a clear the history is empty, and the next turn's rows get ids that were never assigned before the clear |
| `ChatView.Settled` | frontend/src/App.jsx:57-64 | the list once a send settles, in its corrected form (a refused answer is treated as a failure; `ChatView.SettledAsWritten` is the page as written): `FailedSendRestores` proves that a failed send brings back the list from before it, and `DeliveredSendReplaces` that a delivered one replaces the temporary message by the server's pair at the end |
| `ChatView.TempMessage` | frontend/src/App.jsx:42 | the optimistic `{role: 'user', content, id}` object, with no timestamp; `ChatView.App.SendMessage` states that it carries the trimmed text and the temporary id |
| `ChatView.ChatReply` | frontend/src/App.jsx:54 | how the page reads any JSON answer to a send, whatever its status: a 200 body is the exchange, an error status with its `{error}` body a refused request; `ChatView.ChatTurnOnPage` states what the list becomes for each |
| `ChatView.WithoutId` | frontend/src/App.jsx:58 | after the filter, no message carries the temporary id and the list is no longer |
| `ChatView.WithoutIdMembers` | frontend/src/App.jsx:64 | a message survives the filter exactly when it was in the list and does not carry the temporary id |
| `ChatView.WithoutIdAppend` | frontend/src/App.jsx:58 | filtering a concatenation filters each part, so order is kept |
| `ChatView.WithoutIdKeepsOthers` | frontend/src/App.jsx:64 | a list in which no message carries the id is left as it is |
| `ChatView.FailedSendRestores` | frontend/src/App.jsx:61-64 | when no other message shares the temporary id, a failed send brings the list back to its state before the send |
| `ChatView.DeliveredSendReplaces` | frontend/src/App.jsx:56-60 | a delivered exchange replaces the temporary message with the server's user message and then its reply, at the end of the list |
| `ChatView.ChatTurnOnPage` | frontend/src/App.jsx:54-64 | one chat turn across both sides: when the server stores the turn and answers 200, the page's temporary message gives way to the text as sent (no id, no timestamp) and the stored reply with the new row's id and timestamp; as the page is written, any other answer leaves the list before the send followed by two `undefined` entries, while the corrected page brings the list back to what it was before the send |
| `ChatView.Fetched` | frontend/src/App.jsx:22-29 | the list becomes the server's list when it answered, and stays as it was otherwise |
| `ChatView.SentTextIsAccepted` | frontend/src/App.jsx:35-51 | the text the page sends is never refused by the server's check, so the page never receives the 400 answer |
| `ChatView.App.constructor` | frontend/src/App.jsx:7-9 | the page starts with no messages, empty input and no pending send |
| `ChatView.App.FetchHistory` | frontend/src/App.jsx:22-30 | the list is replaced by the server's list, or kept on failure; input and loading are untouched |
| `ChatView.App.SetInput` | frontend/src/App.jsx:203-204 | typing (only while no send is pending, as the field is disabled then) or a suggestion button of lines 143-149 (only shown on an empty list) sets the input and nothing else |
| `ChatView.App.SendMessage` | frontend/src/App.jsx:32-43 | a send is ignored, changing nothing, exactly when the trimmed input is empty or a send is pending; otherwise the trimmed text is sent, the input is cleared, loading is set, and exactly one temporary message with that text is appended |
| `ChatView.App.SettleSend` | frontend/src/App.jsx:45-68 | the list becomes the settled list (temporary message dropped, the server's pair appended on success), and loading is false after either outcome |
| `ChatView.App.ClearChat` | frontend/src/App.jsx:71-90 | a request is sent exactly when the user confirms; the list is emptied only when it is confirmed and the answer is OK, and is otherwise unchanged |
| `ChatView.SendAndDeliver` | frontend/src/App.jsx:32-68 | from an idle page with non-blank input, a send followed by delivery leaves the earlier list plus the server's two messages, empty input and loading off |
| `ChatView.Entries` | frontend/src/App.jsx:59 | the messages become array entries in order, none of them `undefined` |
| `ChatView.SettledAsWritten` | frontend/src/App.jsx:54-60 | as written, an `{error}` answer appends two `undefined` entries; every other answer agrees with the corrected settlement |
| `ChatView.RefusedSendLeavesUndefined` | frontend/src/App.jsx:54-60 | as written, a 500 answer to a send ends the list with two `undefined` entries |
| `ChatView.FetchedAsWritten` | frontend/src/App.jsx:24-26 | as written, an `{error}` answer becomes the list itself; every other answer agrees with the corrected update |
| `ChatView.RefusedHistoryReplacesList` | frontend/src/App.jsx:24-26 | as written, a 500 answer to the history request turns the list into an object that is not an array |

## Findings

| source | as written | input that shows it | evidently intended | confidence | as-written member | corrected member |
|---|---|---|---|---|---|---|
| frontend/src/App.jsx:54-60 | `sendMessage` reads the JSON body without checking `response.ok`. It then appends `data.userMessage` and `data.aiMessage` | `POST /api/chat` answered with 500 `{error: 'Failed to process message'}` after a storage failure | treat a non-OK answer like a failed request: remove the temporary message and leave no `undefined` entries for the renderer to read `role` from | not executed; high | `ChatView.RefusedSendLeavesUndefined` | `ChatView.FailedSendRestores` |
| frontend/src/App.jsx:24-26 | `fetchHistory` stores whatever JSON came back as `messages` | `GET /api/history` answered with 500 `{error: 'Failed to fetch chat history'}` | keep the list on a non-OK answer; as written, `messages.map` is then called on an object | not executed; high | `ChatView.RefusedHistoryReplacesList` | `ChatView.Fetched` |

`ChatView.App` uses the corrected updates. Its `Reply.Refused` answers are handled like `Reply.NoReply`. The code as written is modelled by `ChatView.SettledAsWritten` and `ChatView.FetchedAsWritten`.

## Left out

- Express setup, CORS, the JSON body parser, `app.listen` and its start-up logging (backend/server.js:5-10, 136-147). These are I/O plumbing.
- better-sqlite3 and the SQL text are replaced by an abstract table.
  - `CURRENT_TIMESTAMP` becomes a whole-second integer supplied with each insert. No monotonic clock is assumed.
  - A failing statement becomes a boolean parameter.
- The Groq request itself is left out: URL, headers, model name, `temperature: 0.7` (a float) and `max_tokens: 500`. Only its outcome is modelled, as `Relay.ProviderOutcome`.
  - The caller supplies `data.error.message` already rendered as text.
  - Non-string `content` values are not modelled.
  - A `null` JSON body (whose `data.error` access throws) is covered by `Thrown`.
- Reading environment variables is left out. Only the `||` default is modelled; the variable's value is a constructor parameter.
- `console.*` logging on both sides.
- Concurrency. Each handler and each settled browser request is one atomic step. The model does not capture other requests interleaving at the `await` between the two inserts, or between a send and its settlement.
- ChatView.App.SettleSend: a refused answer (an error status with an `{error}` JSON body) only drops the temporary message, as intended. The code as written appends two `undefined` entries (frontend/src/App.jsx:57-59); that behaviour is modelled on values by `ChatView.SettledAsWritten`, not by the class, whose list holds only messages.
- ChatView.App.FetchHistory: a refused answer keeps the list, as intended. The code as written stores the `{error}` object as the list (frontend/src/App.jsx:25-26); that behaviour is modelled on values by `ChatView.FetchedAsWritten`, not by the class.
- Server.ChatServer.ReadBack: ids are exact integers up to 2^63-1 in the model. In the program, better-sqlite3 without `safeIntegers` hands `lastInsertRowid` and the `id` column over as JavaScript numbers, so above 2^53-1 (`Number.MAX_SAFE_INTEGER`) the lookup at backend/server.js:113 and the ids sent as JSON are rounded, and the read-back may find another row. The same holds for the ids stated by `Server.StoredOnlyAppends` and `ChatView.ChatTurnOnPage`.
- Server.ChatServer.History: states only what `ORDER BY timestamp ASC` guarantees (timestamp order and the same rows). The particular order the model's function produces among equal timestamps is not promised.
- A request whose body was never parsed (so `req.body` is undefined) is not modelled. A missing `message` field is modelled as `Absent`.
- JavaScript strings are UTF-16, while Dafny characters are Unicode scalar values. Lone surrogates in a message are not modelled. The white-space set of `trim` is the same for both.
- All JSX rendering, CSS, the suggestion chips' layout, auto-scroll, `toLocaleTimeString`, `alert` and the mount-time `useEffect` trigger (frontend/src/App.jsx:13-20, 92-221). `Date.now()` becomes the `tempId` parameter, and `window.confirm` becomes the `confirmed` parameter.
