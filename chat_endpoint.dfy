/**
 * `assistant_endpoint` (main.py) as the imperative loop it is: it reads the
 * session's history from the store, seeds it if empty, then requests at most
 * MULTI_TURN_ITERATION_MAX decisions, inserting every message it appends to its
 * in-memory conversation into the store as well. The loop body is the method
 * `TakeTurn`; the contracts tie each turn to `ChatLoop.Step` and the whole
 * request to `ChatLoop.Run`.
 */
module ChatEndpoint {
  import opened Wrappers
  import opened SessionStore
  import opened ChatLoop

  /** Logging `a` and then `b` adds the rows of `a + b`. */
  lemma StampConcat(sessionId: string, a: seq<Message>, b: seq<Message>, now: nat)
    ensures Stamp(sessionId, a + b, now) == Stamp(sessionId, a, now) + Stamp(sessionId, b, now)
  {
  }

  /** Concatenation regroups freely; stated once so loops need not rediscover it. */
  lemma ConcatAssoc<T>(a: seq<T>, b: seq<T>, c: seq<T>)
    ensures (a + b) + c == a + (b + c)
  {
  }

  /** Inserting `appended` under `sessionId` extends that session's conversation by it and no other's. */
  lemma LoggedAppends(rows: seq<Row>, sessionId: string, appended: seq<Message>, now: nat)
    ensures SessionMessages(rows + Stamp(sessionId, appended, now), sessionId) == SessionMessages(rows, sessionId) + appended
    ensures forall other | other != sessionId ::
              SessionMessages(rows + Stamp(sessionId, appended, now), other) == SessionMessages(rows, other)
  {
    SessionMessagesAfterInserts(rows, sessionId, appended, now, sessionId);
    forall other | other != sessionId
      ensures SessionMessages(rows + Stamp(sessionId, appended, now), other) == SessionMessages(rows, other)
    {
      SessionMessagesAfterInserts(rows, sessionId, appended, now, other);
    }
  }

  /** A loop state that `RunLoop` reaches from a request's initial state and that has stopped is the request's outcome. */
  lemma Finished(env: Env, stored: seq<Message>, message: string, t: LoopState, logged: seq<Message>)
    requires t == RunLoop(env, InitialState(env, stored, message))
    requires t.conversation == stored + logged
    ensures Run(env, stored, message).appended == logged
    ensures Run(env, stored, message).response
         == match t.raised
            case Some(e) => Failure(e)
            case None => Success(ChatResponse(t.finalType, t.finalMessage, t.finalQuery, t.finalResults, t.history, t.turn))
  {
    assert t.conversation[|stored|..] == logged;
  }

  /**
   * One pass of the loop body: ask for a decision on the conversation so far, log it,
   * and dispatch on it. Every message appended to the conversation is inserted into
   * the store, in the same order.
   */
  method TakeTurn(store: MessageStore, env: Env, sessionId: string, s: LoopState) returns (t: LoopState, ghost added: seq<Message>)
    requires store.Valid() && store.tableExists && s.Running()
    modifies store
    ensures t == Step(env, s)
    ensures t.conversation == s.conversation + added
    ensures store.Valid() && store.tableExists && store.clock == old(store.clock)
    ensures store.rows == old(store.rows) + Stamp(sessionId, added, store.clock)
  {
    var conversation := s.conversation;
    var finalType, finalMessage, finalQuery, finalResults := s.finalType, s.finalMessage, s.finalQuery, s.finalResults;
    var sqlHistory, done, raised := s.history, s.done, s.raised;
    added := [];
    ghost var now := store.clock;

    var turnCount := s.turn + 1;
    var data := env.llm(conversation);
    var gptType := data.Kind();
    var gptReply := data.Reply();
    var gptQuery := data.Query();
    finalType := Some(gptType);
    finalQuery := gptQuery;

    // The raw decision is logged before anything else.
    var rawJson := env.encodeDecision(data);
    var ack := store.InsertMessage(sessionId, "assistant", rawJson);
    conversation := conversation + [Message("assistant", rawJson)];
    added := added + [Message("assistant", rawJson)];
    StampSnoc(sessionId, [], Message("assistant", rawJson), now);

    if gptType == "chat" {
      finalMessage := gptReply;
      done := true;
      StepReply(env, s);
    } else if gptType == "sql" && !IsBlank(gptQuery) {
      if !env.isReadOnly(gptQuery) {
        finalMessage := NON_READ_ONLY_ERROR;
        finalType := Some("chat");
        done := true;
        StepRejected(env, s);
      } else {
        var dbResults := env.execute(gptQuery);
        if dbResults.Failure? {
          // execute_sql raised: the exception leaves the loop.
          raised := Some(dbResults.error);
          StepRaised(env, s, dbResults.error);
        } else {
          finalResults := dbResults.value;
          var finalReport := env.plainReport(gptQuery, dbResults.value);
          var mergedMessage := env.merge(PartialOutput(gptReply, gptQuery, dbResults.value, finalReport));
          finalMessage := mergedMessage;

          ack := store.InsertMessage(sessionId, "assistant", finalMessage);
          conversation := conversation + [Message("assistant", finalMessage)];
          StampSnoc(sessionId, added, Message("assistant", finalMessage), now);
          ConcatAssoc(s.conversation, added, [Message("assistant", finalMessage)]);
          ConcatAssoc(old(store.rows), Stamp(sessionId, added, now), [Row(sessionId, "assistant", finalMessage, now)]);
          added := added + [Message("assistant", finalMessage)];

          sqlHistory := sqlHistory + [SqlEntry(turnCount, gptQuery, dbResults.value, mergedMessage)];

          var encoded := env.encodeResults(dbResults.value);
          if encoded.Failure? {
            // json.dumps raised: the exception leaves the loop before the results are logged.
            raised := Some(encoded.error);
            StepEncodingRaised(env, s, dbResults.value, encoded.error);
          } else {
            var resultsStr := encoded.value;
            ack := store.InsertMessage(sessionId, "system", resultsStr);
            conversation := conversation + [Message("system", resultsStr)];
            StampSnoc(sessionId, added, Message("system", resultsStr), now);
            ConcatAssoc(s.conversation, added, [Message("system", resultsStr)]);
            ConcatAssoc(old(store.rows), Stamp(sessionId, added, now), [Row(sessionId, "system", resultsStr, now)]);
            added := added + [Message("system", resultsStr)];
            StepAccepted(env, s, dbResults.value, resultsStr);
          }
        }
      }
    } else if gptType == "done" {
      finalMessage := gptReply;
      done := true;
      StepReply(env, s);
    } else {
      finalMessage := UNEXPECTED_RESPONSE;
      done := true;
      StepUnexpected(env, s);
    }
    t := LoopState(conversation, turnCount, finalType, finalMessage, finalQuery, finalResults, sqlHistory, done, raised);
  }

  /**
   * The opening of the chat request: `init_db`, read the session's history, seed it
   * with the system prompt if it is empty, and log the user message. Returns the
   * stored history and the conversation the first decision is asked on.
   */
  method OpenSession(store: MessageStore, env: Env, sessionId: string, message: string)
      returns (conversation: seq<Message>, ghost stored: seq<Message>, ghost added: seq<Message>)
    requires store.Valid()
    modifies store
    ensures store.Valid() && store.tableExists && store.clock == old(store.clock)
    ensures stored == SessionMessages(old(store.rows), sessionId)
    ensures conversation == InitialConversation(env, stored, message)
    ensures conversation == stored + added
    ensures store.rows == old(store.rows) + Stamp(sessionId, added, store.clock)
  {
    store.InitDb();
    var loaded := store.GetConversation(sessionId);
    conversation := loaded.value;
    stored := conversation;
    ghost var now := store.clock;
    added := [];
    var ack: Result<(), string>;

    if conversation == [] {
      var integratedSystemPrompt := env.systemPrompt;
      ack := store.InsertMessage(sessionId, "system", integratedSystemPrompt);
      conversation := conversation + [Message("system", integratedSystemPrompt)];
      StampSnoc(sessionId, added, Message("system", integratedSystemPrompt), now);
      added := added + [Message("system", integratedSystemPrompt)];
    }
    ack := store.InsertMessage(sessionId, "user", message);
    conversation := conversation + [Message("user", message)];
    StampSnoc(sessionId, added, Message("user", message), now);
    added := added + [Message("user", message)];
  }

  /**
   * `while not done and turn_count < MULTI_TURN_ITERATION_MAX`: take turns from `start`
   * until one stops the loop or the limit is reached. A turn whose query's execution or
   * the encoding of its results raised stops it too; the caller turns that into the exception.
   */
  method DecisionLoop(store: MessageStore, env: Env, sessionId: string, start: LoopState)
      returns (state: LoopState, ghost logged: seq<Message>)
    requires store.Valid() && store.tableExists
    requires start.raised.None? && start.turn <= MULTI_TURN_ITERATION_MAX
    modifies store
    ensures state == RunLoop(env, start)
    ensures state.conversation == start.conversation + logged
    ensures store.Valid() && store.tableExists && store.clock == old(store.clock)
    ensures store.rows == old(store.rows) + Stamp(sessionId, logged, store.clock)
  {
    state := start;
    logged := [];
    while !state.done && state.turn < MULTI_TURN_ITERATION_MAX && state.raised.None?
      invariant store.Valid() && store.tableExists && store.clock == old(store.clock)
      invariant state.turn <= MULTI_TURN_ITERATION_MAX
      invariant state.conversation == start.conversation + logged
      invariant store.rows == old(store.rows) + Stamp(sessionId, logged, store.clock)
      invariant RunLoop(env, state) == RunLoop(env, start)
      decreases MULTI_TURN_ITERATION_MAX - state.turn
    {
      ghost var added;
      state, added := TakeTurn(store, env, sessionId, state);
      StampConcat(sessionId, logged, added, store.clock);
      ConcatAssoc(start.conversation, logged, added);
      ConcatAssoc(old(store.rows), Stamp(sessionId, logged, store.clock), Stamp(sessionId, added, store.clock));
      logged := logged + added;
    }
  }

  /**
   * The chat request: open the session, then run the decision loop. When executing a
   * query or encoding its results raises, the request ends with that error; what was
   * logged before stays logged.
   */
  method AssistantEndpoint(store: MessageStore, env: Env, sessionId: string, message: string)
      returns (r: Result<ChatResponse, string>)
    requires store.Valid()
    modifies store
    ensures store.Valid() && store.tableExists && store.clock == old(store.clock)
    ensures var o := Run(env, SessionMessages(old(store.rows), sessionId), message);
            r == o.response && store.rows == old(store.rows) + Stamp(sessionId, o.appended, old(store.clock))
    ensures SessionMessages(store.rows, sessionId)
         == SessionMessages(old(store.rows), sessionId) + Run(env, SessionMessages(old(store.rows), sessionId), message).appended
  {
    var conversation, stored, seeded := OpenSession(store, env, sessionId, message);
    var state := LoopState(conversation, 0, None, "", "", [], [], false, None);
    assert state == InitialState(env, stored, message);
    ghost var looped;
    state, looped := DecisionLoop(store, env, sessionId, state);
    StampConcat(sessionId, seeded, looped, store.clock);
    ConcatAssoc(stored, seeded, looped);
    ConcatAssoc(old(store.rows), Stamp(sessionId, seeded, store.clock), Stamp(sessionId, looped, store.clock));
    Finished(env, stored, message, state, seeded + looped);
    LoggedAppends(old(store.rows), sessionId, seeded + looped, store.clock);
    if state.raised.Some? {
      // The query's execution or the encoding of its results raised: the exception leaves the endpoint.
      return Failure(state.raised.value);
    }
    r := Success(ChatResponse(state.finalType, state.finalMessage, state.finalQuery, state.finalResults,
                              state.history, state.turn));
  }
}
