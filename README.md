# Multi-turn SQL chat assistant: session store and decision loop

This project models the core of a chat service that answers questions about a
database. A language model drives it. For each chat request, `assistant_endpoint`
does the following:

- It loads the session's stored conversation from SQLite.
- It seeds a new session with the system prompt.
- It logs the user's message.
- It then asks the model for a decision up to `MULTI_TURN_ITERATION_MAX` (8) times.

A decision is `chat`, `sql` or `done`:

- `chat` and `done` end the request with the decision's reply.
- `sql` with a non-blank query first goes through the read-only gate. A query that
  fails the gate ends the request with a fixed error. A query that passes is executed.
  Its results are summarised and merged into one message, which is recorded in
  `sql_history`. The loop then goes on.
- Any other type, or `sql` with a blank query, ends the request with a fixed fallback
  message.

Every message the loop appends to the conversation is also inserted into the
`conversation_messages` table. The history endpoint shows a session's user and
assistant messages and hides its system messages.

The model has four modules:

- `SessionStore` (session_store.dfy) is the table. `MessageStore` is a class whose
  methods `InitDb`, `InsertMessage` and `GetConversation` update or read its rows. The
  pure functions `SessionRows` and `SessionMessages` state what a select returns.
- `ChatLoop` (chat_loop.dfy) is the decision loop written as a specification. `Step`
  is one iteration, `RunLoop` is the bounded loop and `Run` is a whole request. The
  model and the other collaborators are fields of an `Env` value. Its lemmas state
  what a request logs and answers.
- `ChatEndpoint` (chat_endpoint.dfy) is the endpoint written imperatively, with the
  source's local variables and `while` loop. It is proved against `ChatLoop.Run`.
- `ChatHistory` (chat_history.dfy) is the role filter of `get_chat_history`.

## Model

| member | source | states |
|---|---|---|
| SessionStore.MessageStore.InitDb | db_utils.py:6-19 | creates the table if it is missing; existing rows are kept |
| SessionStore.MessageStore.InsertMessage | db_utils.py:21-30 | with a table, appends exactly one row stamped with the current time (`created_at` default); without one, fails with SQLite's "no such table" and changes nothing |
| SessionStore.MessageStore.GetConversation | db_utils.py:32-45 | without a table, fails; otherwise returns the session's `{role, content}` pairs in creation order, `[]` for an unknown session, never more than the table holds |
| SessionStore.SessionRows | db_utils.py:36-40 | every selected row carries the session's id, and there are no more rows than the table holds |
| SessionStore.SessionRowsMembers | db_utils.py:36-40 | the selection holds exactly the table's rows of that session |
| SessionStore.SessionRowsSnoc | db_utils.py:25-28 | inserting a row extends its own session's selection by that row and leaves every other session's unchanged |
| SessionStore.SessionMessages | db_utils.py:36-44 | what `get_conversation` returns: never more messages than the table holds rows, and every message is the role and content of a row stored under that session |
| SessionStore.SessionRowsChronological | db_utils.py:36-40 | selecting one session out of a table in time order yields rows in time order (`ORDER BY created_at ASC`) |
| SessionStore.SessionRowsUnknown | db_utils.py:36-44 | a session reads back empty if and only if no row carries its id |
| SessionStore.SessionMessagesAfterInserts | db_utils.py:21-45 | after inserting messages under a session, `get_conversation` returns the old answer followed by exactly those messages, and every other session's answer is unchanged |
| ChatLoop.Classify | main.py:193-265 | the branch taken, each in both directions: chat if and only if the type (default `chat`) is `chat`; sql if and only if it is `sql` and the query (default `""`) is not blank; done if and only if it is `done`; unexpected if and only if the type (default `chat`) is none of chat/sql/done or is `sql` with a query that `strip()` empties; a `sql` branch carries the non-blank query; every other branch carries the reply (default `""`) |
| ChatLoop.PythonSpaceAscii | main.py:212 | the whitespace `strip()` removes is, among ASCII characters, exactly space, tab, newline, carriage return, vertical tab, form feed and the four separator controls |
| ChatLoop.TrimStart | main.py:212 | stripping leading whitespace leaves a suffix of the string that is empty or starts with a non-whitespace character, and everything it removed is whitespace |
| ChatLoop.BlankIffStripsToEmpty | main.py:212 | `IsBlank(q)`, the test `not gpt_query.strip()`, holds if and only if stripping the whitespace leaves nothing |
| ChatLoop.Step | main.py:176-203 | one iteration counts one turn, records the decision's query, and appends to the conversation |
| ChatLoop.StepLogsDecisionFirst | main.py:200-203 | the raw decision is logged before anything else the iteration appends |
| ChatLoop.StepReply | main.py:205-261 | `chat` (lines 205-209) and `done` (lines 258-261) stop the loop with the decision's reply and type; only the raw decision is logged; history and results are unchanged |
| ChatLoop.StepRejected | main.py:212-218 | a non-blank `sql` query that fails the read-only gate stops the loop with the fixed error and type `chat`; nothing is executed or logged beyond the raw decision |
| ChatLoop.StepAccepted | main.py:220-255 | an accepted query whose results encode: the results become `last_results`; one history entry numbered with the current turn is added with the merged message; the merged message (assistant) and the encoded results (system) are logged after the raw decision; the loop continues |
| ChatLoop.StepEncodingRaised | main.py:220-251 | an accepted query whose results `json.dumps` cannot encode (BLOB values) stops the loop with that error, after the merged message was logged and the history entry added; the results are not logged |
| ChatLoop.StepRaised | main.py:221 | an execution that raises stops the loop with that error; only the raw decision was logged |
| ChatLoop.StepUnexpected | main.py:263-265 | any other type, or `sql` with a blank query, stops the loop with the fallback message and keeps the decision's own type |
| ChatLoop.RunLoop | main.py:175 | the loop ends stopped or at the iteration limit, never beyond 8 turns, and takes at least one turn (and appends to the conversation) when it can |
| ChatLoop.Run | main.py:147-276 | a whole request appends at least two messages (`RunAppended` says which), and an answered request reports between 1 and 8 turns |
| ChatLoop.StepInv | main.py:175-265 | each iteration preserves the loop invariant (history numbered by turn, one entry per turn except a final turn that stopped before its query executed, `last_results` from the last entry, logged roles, the first decision logged right after the user message) |
| ChatLoop.RunLoopInv | main.py:175-265 | the invariant holds when the loop ends |
| ChatLoop.RunInv | main.py:147-265 | the invariant holds at the end of every request |
| ChatLoop.RunTurnsBounded | main.py:164-276 | `turns_executed` is between 1 and 8 and a type is always set |
| ChatLoop.RunSqlHistory | main.py:241-247 | `sql_history` entries are numbered 1, 2, ... by turn; each entry's query is non-blank, passed the gate, and executed to the recorded results; there is one entry per turn except a final stopping turn |
| ChatLoop.RunLastResults | main.py:222 | `last_results` is the last history entry's results, or `[]` when no query ran |
| ChatLoop.RunSoftCutoff | main.py:175-255 | when every turn ran a query, the loop was cut at 8 turns and the answer is the last query's: type `sql`, its merged message and its query |
| ChatLoop.RunRaised | main.py:220-251 | a request fails only with the error of a non-blank query that passed the gate: raised by executing it, or by encoding its results |
| ChatLoop.RunAppended | main.py:153-252 | a request appends the system prompt first if and only if the session was empty, then the user message, then the first decision as logged, then only assistant and system messages |
| ChatLoop.RunOneUserMessage | main.py:159-161 | the user message is the only user message a request appends |
| ChatLoop.SecondRequestDoesNotReseed | main.py:151-156 | a request on a session that already holds a request's log does not seed it again |
| ChatLoop.RunFirstReply | main.py:205-261 | a first decision `chat` or `done` answers in one turn with its reply, no history and no results; only the user message and the raw decision are logged |
| ChatLoop.RunFirstRejected | main.py:212-218 | a first write query answers in one turn with the fixed error as type `chat`, executes nothing, and logs only the user message and the raw decision |
| ChatLoop.RunSqlThenDone | main.py:220-261 | an accepted query whose results encode, followed by `done`, answers in two turns: one history entry numbered 1, that query's results, and the `done` reply |
| ChatLoop.RunFirstEncodingRaised | main.py:220-251 | a first accepted query whose results cannot be encoded fails the request with the encoding's error; the user message, the raw decision and the merged message are logged, the results are not |
| ChatLoop.LastQueryNotExecuted | main.py:194-218 | a first write query is rejected, yet the response reports it as `last_query`, with no history and no results |
| ChatLoop.LastQueryBlankWithResults | main.py:194-261 | an accepted query followed by a `done` decision without a query reports a blank `last_query` beside the accepted query's `last_results` |
| ChatLoop.RunLastExecutedQuery | main.py:241-247 | the last executed query, read from `sql_history` (`LastExecutedQuery`), agrees with `last_results`: either nothing ran and both are empty, or it is a non-blank query that passed the gate and executed to exactly `last_results` |
| ChatEndpoint.TakeTurn | main.py:176-265 | one pass of the loop body computes exactly `Step`, and inserts every message it appends into the store, in order, stamped with the current time |
| ChatEndpoint.OpenSession | main.py:147-161 | creates the table, reads the stored conversation, seeds an empty one with the system prompt and logs the user message; the rows inserted are the messages appended |
| ChatEndpoint.DecisionLoop | main.py:175-265 | the `while` loop reaches exactly the state `RunLoop` specifies, and the store receives exactly the messages it appended |
| ChatEndpoint.AssistantEndpoint | main.py:125-276 | the endpoint answers `Run`'s response (an error when a query raised), and the table gains exactly `Run`'s appended messages under the session, in order, so `get_conversation` afterwards returns the old conversation followed by exactly what the request appended in memory |
| ChatEndpoint.LoggedAppends | main.py:147-265 | a request's inserts extend its own session's stored conversation by the appended messages and leave every other session's unchanged |
| ChatEndpoint.Finished | main.py:267-276 | the returned dictionary is built from the loop's final variables |
| ChatHistory.VisibleMessages | main.py:439-441 | every message in the view is a user or assistant message, and the view is never longer than the conversation |
| ChatHistory.VisibleMessagesMembers | main.py:439-441 | the view holds exactly the conversation's user and assistant messages |
| ChatHistory.ChatHistoryView | main.py:436-441 | what `get_chat_history` lists: only user and assistant messages, never more than the session's stored conversation |
| ChatHistory.VisibleMessagesConcat | main.py:439-441 | filtering keeps order: the view of a concatenation is the concatenation of the views |
| ChatHistory.VisibleMessagesIdentity | main.py:439-441 | the filter changes nothing if and only if every message is a user or assistant message |
| ChatHistory.VisibleReplies | main.py:439-441 | of assistant and system messages, only assistant messages are shown |
| ChatHistory.VisibleHidden | main.py:439-441 | system messages are never shown |
| ChatHistory.HistoryAfterInserts | main.py:436-441 | inserting messages extends the session's history view by their visible part and changes no other session's view |
| ChatHistory.VisibleRequestLog | main.py:439-441 | a log shaped like a request's shows as the user message, the first decision, then assistant messages only |
| ChatHistory.HistoryAfterRequest | main.py:147-265 | a request adds to its session's view the user message, then the first decision, then assistant messages only; the seeded prompt and query results stay hidden |

## Findings

| source | as written | input that shows it | evidently intended | confidence | as-written member | corrected member |
|---|---|---|---|---|---|---|
| main.py:198 | `final_query = gpt_query` runs for every decision, so `last_query` is the query of the last decision, whatever its type or fate; the docstring (main.py:142) and the comment at main.py:272 call it the last executed SQL query | a first decision `sql` with a write query: rejected, yet returned as `last_query`; or an accepted query followed by `done` without a query: `last_query` is `""` while `last_results` holds the first query's rows | `last_query` is the query of the last `sql_history` entry, or `""` when none ran, so it matches `last_results` | medium, not executed | ChatLoop.LastQueryNotExecuted, ChatLoop.LastQueryBlankWithResults | ChatLoop.RunLastExecutedQuery |

The response keeps `last_query` as written, because that is what the endpoint returns. `ChatLoop.LastExecutedQuery` is the corrected reading, and `RunLastExecutedQuery` proves what the documentation promises of it.

## Left out

- The FastAPI routes, request and response validation, and CORS are not modelled. The endpoint is a method taking the session id and the message.
- The OpenAI call and `json.loads` are left out. The model's decision is `Env.llm`, an arbitrary function of the conversation it is shown. Because the conversation grows every turn, any per-turn sequence of answers can be expressed.
- Decision fields are optional strings. JSON values of other types in `type`, `reply` or `query` are not modelled. The logged raw decision (`json.dumps(data)`) depends here only on those three fields, while the source's text also keeps the model's key order and any other keys; no property here depends on that text.
- `build_function_schema`, the prompt text of `build_integrated_system_prompt`, and the utils.py functions (`is_read_only_sql`, `execute_sql`, `generate_plain_report`, `merge_final_output_with_json_mode_multi_turn`) are left out. So are both `json.dumps` encodings. Each is an `Env` field whose behaviour is left open.
- Inside the loop, two exceptions are modelled, each as a `Failure` that ends the request; rows inserted before it stay inserted. One is `execute_sql` raising (main.py:221). The other is `json.dumps` of the results raising (main.py:250), as it does on BLOB values (`bytes`), after the merged message was stored. Which results fail to encode is left to `Env.encodeResults`. The store methods model SQLite's missing-table error. Other SQLite errors, and exceptions from the model call, the report or the merge, are not modelled.
- `get_conversation_with_timestamp` is not part of this model. The history view filters the session's messages as `get_conversation` returns them, so timestamps are not carried.
- `get_all_sessions`, the `/generate-sql`, `/execute-sql` and `/chat_sessions` routes, and the remaining helpers of main.py are outside this core.
- The wall clock is `MessageStore.clock`, in whole seconds. `MessageStore.Tick` is how time passes between requests; no member calls it. Messages inserted within one second share a timestamp. A select returns them in insertion order, which is one of the orders `ORDER BY created_at ASC` allows.
- ChatEndpoint.AssistantEndpoint: a request runs at one clock reading, so all its rows share one timestamp. In the source each insert takes the time of its own moment, and a request spans several model calls. No property here depends on the timestamps within a request, because reads follow insertion order.
- Concurrent requests, and the database file being opened and closed per call, are not modelled.
- ChatEndpoint.TakeTurn, ChatEndpoint.OpenSession and ChatEndpoint.DecisionLoop are one Python function in the source. They are split so each part is proved on its own. In the source, `break` and `continue` end the loop body directly; here the body ends at the end of an `if` chain, and `done` is tested by the loop guard.
