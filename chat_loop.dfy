/**
 * The multi-turn decision loop of `assistant_endpoint` (main.py), as a pure
 * specification: one function per loop iteration (`Step`), the bounded loop
 * (`RunLoop`) and a whole request (`Run`), which says what the request appends
 * to the session's conversation and what it answers.
 *
 * Everything the loop calls but does not define is a field of `Env`: the
 * language model (a function of the conversation it is shown), the read-only
 * gate, the SQL executor, the report writer, the merge step, the two
 * `json.dumps` encodings and the system prompt text.
 */
module ChatLoop {
  import opened Wrappers
  import opened SessionStore

  /** At most this many decisions are requested per chat request. */
  const MULTI_TURN_ITERATION_MAX: nat := 8

  const NON_READ_ONLY_ERROR: string := "Error: Attempted non-read-only query."
  const UNEXPECTED_RESPONSE: string := "Got an unexpected response from GPT."

  /** One SQLite column value of a result row. */
  datatype Scalar = Null | Integer(i: int) | Real(r: real) | Text(t: string) | Blob(b: seq<bv8>)

  /** One result row, keyed by column name. */
  type Record = map<string, Scalar>

  type QueryResult = seq<Record>

  /** The parsed arguments of the model's function call; a field may be missing. */
  datatype Decision = Decision(kind: Option<string>, reply: Option<string>, query: Option<string>) {
    /** `data.get("type", "chat")` */
    function Kind(): string { kind.GetOr("chat") }
    /** `data.get("reply", "")` */
    function Reply(): string { reply.GetOr("") }
    /** `data.get("query", "")` */
    function Query(): string { query.GetOr("") }
  }

  /** Characters Python's `str.strip()` removes (those for which `str.isspace()` holds). */
  predicate IsPythonSpace(c: char) {
    || ('\t' <= c <= '\r')
    || ('\U{1C}' <= c <= ' ')
    || c == '\U{85}' || c == '\U{A0}' || c == '\U{1680}'
    || ('\U{2000}' <= c <= '\U{200A}')
    || c == '\U{2028}' || c == '\U{2029}' || c == '\U{202F}' || c == '\U{205F}' || c == '\U{3000}'
  }

  /**
   * Among ASCII characters, Python's whitespace is exactly the five whitespace controls,
   * the four separator controls and the space.
   */
  lemma PythonSpaceAscii(c: char)
    requires c < '\U{80}'
    ensures IsPythonSpace(c) <==> c in " \t\n\r\U{B}\U{C}\U{1C}\U{1D}\U{1E}\U{1F}"
  {
  }

  /** `not s.strip()`: the string is empty or all whitespace. */
  predicate IsBlank(s: string) {
    forall i | 0 <= i < |s| :: IsPythonSpace(s[i])
  }

  /** `s.lstrip()`: what is left once the leading whitespace is removed. */
  function TrimStart(s: string): (r: string)
    ensures |r| <= |s| && r == s[|s| - |r|..]
    ensures r == [] || !IsPythonSpace(r[0])
    ensures forall i | 0 <= i < |s| - |r| :: IsPythonSpace(s[i])
  {
    if s != [] && IsPythonSpace(s[0]) then TrimStart(s[1..]) else s
  }

  /** A string is blank exactly when stripping its whitespace leaves nothing. */
  lemma BlankIffStripsToEmpty(s: string)
    ensures IsBlank(s) <==> TrimStart(s) == []
  {
  }

  /** Which branch of the loop body a decision takes. */
  datatype Turn = ChatTurn(reply: string) | SqlTurn(reply: string, query: string) | DoneTurn(reply: string) | Unexpected

  /** The branch test of the loop body: `chat`, `sql` with a query that is not blank, `done`, or anything else. */
  function Classify(d: Decision): (t: Turn)
    ensures t.ChatTurn? <==> d.Kind() == "chat"
    ensures t.SqlTurn? <==> d.Kind() == "sql" && !IsBlank(d.Query())
    ensures t.DoneTurn? <==> d.Kind() == "done"
    ensures t.Unexpected? <==> d.Kind() !in {"chat", "sql", "done"} || (d.Kind() == "sql" && IsBlank(d.Query()))
    ensures t.SqlTurn? ==> t.query == d.Query() && !IsBlank(t.query)
    ensures !t.Unexpected? ==> t.reply == d.Reply()
  {
    if d.Kind() == "chat" then ChatTurn(d.Reply())
    else if d.Kind() == "sql" && !IsBlank(d.Query()) then SqlTurn(d.Reply(), d.Query())
    else if d.Kind() == "done" then DoneTurn(d.Reply())
    else Unexpected
  }

  /** What the merge step is given for one accepted query. */
  datatype PartialOutput = PartialOutput(reply: string, query: string, results: QueryResult, finalReport: string)

  /** One entry of `sql_history`. */
  datatype SqlEntry = SqlEntry(turn: nat, query: string, results: QueryResult, steps: string)

  /** The collaborators the loop calls. */
  datatype Env = Env(
    llm: seq<Message> -> Decision,
    isReadOnly: string -> bool,
    execute: string -> Result<QueryResult, string>,
    plainReport: (string, QueryResult) -> string,
    merge: PartialOutput -> string,
    encodeDecision: Decision -> string,
    encodeResults: QueryResult -> Result<string, string>,
    systemPrompt: string)

  /** The loop's local variables; `raised` holds the error raised by a query's execution or by the encoding of its results. */
  datatype LoopState = LoopState(
    conversation: seq<Message>,
    turn: nat,
    finalType: Option<string>,
    finalMessage: string,
    finalQuery: string,
    finalResults: QueryResult,
    history: seq<SqlEntry>,
    done: bool,
    raised: Option<string>)
  {
    predicate Stopped() { done || raised.Some? }
    predicate Running() { !Stopped() && turn < MULTI_TURN_ITERATION_MAX }
  }

  /** The dictionary `assistant_endpoint` returns. */
  datatype ChatResponse = ChatResponse(
    kind: Option<string>,
    finalMessage: string,
    lastQuery: string,
    lastResults: QueryResult,
    sqlHistory: seq<SqlEntry>,
    turnsExecuted: nat)

  /** What one request does: the messages it appends, in order, and its answer or the error it raised. */
  datatype Outcome = Outcome(appended: seq<Message>, response: Result<ChatResponse, string>)

  /**
   * Query `q` made the loop raise `e`: it was not blank, passed the gate, and either its
   * execution raised `e` or encoding its results did.
   */
  ghost predicate Raises(env: Env, q: string, e: string) {
    && !IsBlank(q) && env.isReadOnly(q)
    && (env.execute(q) == Failure(e) || (env.execute(q).Success? && env.encodeResults(env.execute(q).value) == Failure(e)))
  }

  /** A query the loop accepted: not blank, passed the gate, and executed to `results`. */
  ghost predicate Accepted(env: Env, e: SqlEntry) {
    !IsBlank(e.query) && env.isReadOnly(e.query) && env.execute(e.query) == Success(e.results)
  }

  /** The assistant message that logs decision `d` verbatim (`json.dumps(data)`). */
  function RawDecision(env: Env, d: Decision): Message {
    Message("assistant", env.encodeDecision(d))
  }

  /** The start of an iteration: count the turn, record type and query, log the raw decision. */
  function Begin(env: Env, s: LoopState, d: Decision): LoopState {
    s.(turn := s.turn + 1, finalType := Some(d.Kind()), finalQuery := d.Query(),
       conversation := s.conversation + [RawDecision(env, d)])
  }

  /** The branch on the decision, taken after `Begin`. */
  function Dispatch(env: Env, s: LoopState, d: Decision): LoopState {
    match Classify(d)
    case ChatTurn(reply) => s.(finalMessage := reply, done := true)
    case SqlTurn(reply, query) =>
      if !env.isReadOnly(query) then
        s.(finalMessage := NON_READ_ONLY_ERROR, finalType := Some("chat"), done := true)
      else (
        match env.execute(query)
        case Failure(e) => s.(raised := Some(e))
        case Success(rows) =>
          var merged := env.merge(PartialOutput(reply, query, rows, env.plainReport(query, rows)));
          var entry := SqlEntry(s.turn, query, rows, merged);
          match env.encodeResults(rows)
          case Failure(e) =>
            s.(finalResults := rows, finalMessage := merged, raised := Some(e),
               conversation := s.conversation + [Message("assistant", merged)],
               history := s.history + [entry])
          case Success(text) =>
            s.(finalResults := rows, finalMessage := merged,
               conversation := s.conversation + [Message("assistant", merged), Message("system", text)],
               history := s.history + [entry])
      )
    case DoneTurn(reply) => s.(finalMessage := reply, done := true)
    case Unexpected => s.(finalMessage := UNEXPECTED_RESPONSE, done := true)
  }

  /** One iteration of the loop body, on the decision the model gives for the conversation so far. */
  function Step(env: Env, s: LoopState): (t: LoopState)
    requires s.Running()
    ensures t.turn == s.turn + 1
    ensures t.finalQuery == env.llm(s.conversation).Query()
    ensures |s.conversation| < |t.conversation|
  {
    var d := env.llm(s.conversation);
    Dispatch(env, Begin(env, s, d), d)
  }

  /** Every iteration logs the raw decision before anything else it appends. */
  lemma StepLogsDecisionFirst(env: Env, s: LoopState)
    requires s.Running()
    ensures s.conversation + [RawDecision(env, env.llm(s.conversation))] <= Step(env, s).conversation
  {
  }

  /** `chat` and `done` stop the loop with the decision's reply; nothing is executed. */
  lemma StepReply(env: Env, s: LoopState)
    requires s.Running() && env.llm(s.conversation).Kind() in {"chat", "done"}
    ensures var d := env.llm(s.conversation);
            var t := Step(env, s);
            && t.done && t.raised.None?
            && t.finalMessage == d.Reply() && t.finalType == Some(d.Kind())
            && t.conversation == s.conversation + [RawDecision(env, d)]
            && t.history == s.history && t.finalResults == s.finalResults
  {
  }

  /** A query that is not blank but fails the read-only gate stops the loop with a fixed error, as type `chat`. */
  lemma StepRejected(env: Env, s: LoopState)
    requires s.Running()
    requires var d := env.llm(s.conversation); d.Kind() == "sql" && !IsBlank(d.Query()) && !env.isReadOnly(d.Query())
    ensures var d := env.llm(s.conversation);
            var t := Step(env, s);
            && t.done && t.raised.None?
            && t.finalMessage == NON_READ_ONLY_ERROR && t.finalType == Some("chat")
            && t.conversation == s.conversation + [RawDecision(env, d)]
            && t.history == s.history && t.finalResults == s.finalResults
  {
  }

  /**
   * An accepted query is executed once; its result becomes `last_results`, one history entry
   * numbered with this turn is added, the merged message and the results are logged after the
   * raw decision, and the loop goes on.
   */
  lemma StepAccepted(env: Env, s: LoopState, rows: QueryResult, text: string)
    requires s.Running()
    requires var d := env.llm(s.conversation);
             && d.Kind() == "sql" && !IsBlank(d.Query()) && env.isReadOnly(d.Query())
             && env.execute(d.Query()) == Success(rows) && env.encodeResults(rows) == Success(text)
    ensures var d := env.llm(s.conversation);
            var t := Step(env, s);
            var merged := env.merge(PartialOutput(d.Reply(), d.Query(), rows, env.plainReport(d.Query(), rows)));
            && !t.done && t.raised.None?
            && t.finalResults == rows && t.finalMessage == merged && t.finalType == Some("sql")
            && t.history == s.history + [SqlEntry(t.turn, d.Query(), rows, merged)]
            && t.conversation == s.conversation + [RawDecision(env, d), Message("assistant", merged),
                                                   Message("system", text)]
  {
  }

  /**
   * An accepted query whose results cannot be encoded (`json.dumps` raises, as it does on
   * BLOB values) stops the loop with that error, after the merged message was logged and
   * the history entry added; the results message is never logged.
   */
  lemma StepEncodingRaised(env: Env, s: LoopState, rows: QueryResult, e: string)
    requires s.Running()
    requires var d := env.llm(s.conversation);
             && d.Kind() == "sql" && !IsBlank(d.Query()) && env.isReadOnly(d.Query())
             && env.execute(d.Query()) == Success(rows) && env.encodeResults(rows) == Failure(e)
    ensures var d := env.llm(s.conversation);
            var t := Step(env, s);
            var merged := env.merge(PartialOutput(d.Reply(), d.Query(), rows, env.plainReport(d.Query(), rows)));
            && !t.done && t.raised == Some(e)
            && t.finalResults == rows && t.finalMessage == merged
            && t.history == s.history + [SqlEntry(t.turn, d.Query(), rows, merged)]
            && t.conversation == s.conversation + [RawDecision(env, d), Message("assistant", merged)]
  {
  }

  /** A query whose execution raises stops the loop with that error. */
  lemma StepRaised(env: Env, s: LoopState, e: string)
    requires s.Running()
    requires var d := env.llm(s.conversation);
             && d.Kind() == "sql" && !IsBlank(d.Query()) && env.isReadOnly(d.Query())
             && env.execute(d.Query()) == Failure(e)
    ensures var d := env.llm(s.conversation);
            var t := Step(env, s);
            && !t.done && t.raised == Some(e)
            && t.conversation == s.conversation + [RawDecision(env, d)]
            && t.history == s.history && t.finalResults == s.finalResults
  {
  }

  /**
   * Any other type, or `sql` with a blank query, stops the loop with a fixed fallback
   * message; the type stays the decision's own.
   */
  lemma StepUnexpected(env: Env, s: LoopState)
    requires s.Running() && Classify(env.llm(s.conversation)).Unexpected?
    ensures var d := env.llm(s.conversation);
            var t := Step(env, s);
            && t.done && t.raised.None?
            && t.finalMessage == UNEXPECTED_RESPONSE && t.finalType == Some(d.Kind())
            && t.conversation == s.conversation + [RawDecision(env, d)]
            && t.history == s.history && t.finalResults == s.finalResults
  {
  }

  /** `while not done and turn_count < MULTI_TURN_ITERATION_MAX`: iterate until the loop stops. */
  function RunLoop(env: Env, s: LoopState): (t: LoopState)
    requires s.turn <= MULTI_TURN_ITERATION_MAX
    decreases MULTI_TURN_ITERATION_MAX - s.turn
    ensures !t.Running()
    ensures s.turn <= t.turn <= MULTI_TURN_ITERATION_MAX
    ensures s.Running() ==> s.turn < t.turn && |s.conversation| < |t.conversation|
    ensures |s.conversation| <= |t.conversation|
  {
    if s.Running() then RunLoop(env, Step(env, s)) else s
  }

  /** The conversation the first decision is asked on: the stored history, seeded if empty, plus the user message. */
  function InitialConversation(env: Env, stored: seq<Message>, message: string): seq<Message> {
    (if stored == [] then [Message("system", env.systemPrompt)] else stored) + [Message("user", message)]
  }

  function InitialState(env: Env, stored: seq<Message>, message: string): LoopState {
    LoopState(InitialConversation(env, stored, message), 0, None, "", "", [], [], false, None)
  }

  /** One chat request on a session whose stored conversation is `stored`. */
  function Run(env: Env, stored: seq<Message>, message: string): (o: Outcome)
    ensures |o.appended| >= 2
    ensures o.response.Success? ==> 1 <= o.response.value.turnsExecuted <= MULTI_TURN_ITERATION_MAX
  {
    var t := RunLoop(env, InitialState(env, stored, message));
    var appended := t.conversation[|stored|..];
    match t.raised
    case Some(e) => Outcome(appended, Failure(e))
    case None =>
      Outcome(appended, Success(ChatResponse(t.finalType, t.finalMessage, t.finalQuery, t.finalResults, t.history, t.turn)))
  }

  /** The last entry of a non-empty history. */
  function Last(h: seq<SqlEntry>): SqlEntry
    requires h != []
  {
    h[|h| - 1]
  }

  /**
   * What holds of the loop's variables at the head of every iteration, for a loop
   * started on conversation `base`.
   */
  ghost predicate Inv(env: Env, base: seq<Message>, s: LoopState) {
    && base <= s.conversation
    && |base| + s.turn <= |s.conversation|
    && (forall i | |base| <= i < |s.conversation| :: s.conversation[i].role in {"assistant", "system"})
    && s.turn <= MULTI_TURN_ITERATION_MAX
    && (s.turn == 0 <==> s.finalType.None?)
    && (s.turn == 0 ==> s.conversation == base)
    && (s.turn > 0 ==> s.conversation[|base|] == Message("assistant", env.encodeDecision(env.llm(base))))
    // every turn but a stopping one executed exactly one accepted query
    && |s.history| + (if s.done || (s.raised.Some? && env.execute(s.finalQuery).Failure?) then 1 else 0) == s.turn
    && (forall i | 0 <= i < |s.history| :: s.history[i].turn == i + 1 && Accepted(env, s.history[i]))
    && s.finalResults == (if s.history == [] then [] else Last(s.history).results)
    && (!s.Stopped() && s.turn > 0 ==>
          s.finalType == Some("sql") && s.finalMessage == Last(s.history).steps && s.finalQuery == Last(s.history).query)
    && (s.raised.Some? ==> Raises(env, s.finalQuery, s.raised.value))
  }

  lemma StepInv(env: Env, base: seq<Message>, s: LoopState)
    requires Inv(env, base, s) && s.Running()
    ensures Inv(env, base, Step(env, s))
  {
    var t := Step(env, s);
    var d := env.llm(s.conversation);
    var raw := RawDecision(env, d);
    StepLogsDecisionFirst(env, s);
    assert t.conversation[|s.conversation|] == raw by {
      assert (s.conversation + [raw])[|s.conversation|] == raw;
    }
    assert base <= t.conversation by {
      assert s.conversation <= t.conversation by {
        assert (s.conversation + [raw])[..|s.conversation|] == s.conversation;
      }
    }
    if s.turn == 0 {
      assert s.conversation == base;
    } else {
      assert t.conversation[|base|] == s.conversation[|base|];
    }
    var extra: seq<Message>;
    if d.Kind() in {"chat", "done"} {
      StepReply(env, s);
      extra := [raw];
    } else if Classify(d).Unexpected? {
      StepUnexpected(env, s);
      extra := [raw];
    } else if !env.isReadOnly(d.Query()) {
      StepRejected(env, s);
      extra := [raw];
    } else {
      match env.execute(d.Query())
      case Failure(e) =>
        StepRaised(env, s, e);
        extra := [raw];
      case Success(rows) =>
        var merged := env.merge(PartialOutput(d.Reply(), d.Query(), rows, env.plainReport(d.Query(), rows)));
        match env.encodeResults(rows)
        case Failure(e) =>
          StepEncodingRaised(env, s, rows, e);
          extra := [raw, Message("assistant", merged)];
        case Success(text) =>
          StepAccepted(env, s, rows, text);
          extra := [raw, Message("assistant", merged), Message("system", text)];
        assert Last(t.history) == SqlEntry(t.turn, d.Query(), rows, merged);
    }
    assert t.conversation == s.conversation + extra;
    forall i | |base| <= i < |t.conversation|
      ensures t.conversation[i].role in {"assistant", "system"}
    {
      if i >= |s.conversation| {
        assert t.conversation[i] == extra[i - |s.conversation|];
      }
    }
  }

  lemma {:induction false} RunLoopInv(env: Env, base: seq<Message>, s: LoopState)
    requires Inv(env, base, s)
    decreases MULTI_TURN_ITERATION_MAX - s.turn
    ensures Inv(env, base, RunLoop(env, s))
  {
    if s.Running() {
      StepInv(env, base, s);
      RunLoopInv(env, base, Step(env, s));
    }
  }

  /** The state the loop ends in for one request satisfies `Inv`. */
  lemma RunInv(env: Env, stored: seq<Message>, message: string)
    ensures Inv(env, InitialConversation(env, stored, message), RunLoop(env, InitialState(env, stored, message)))
  {
    RunLoopInv(env, InitialConversation(env, stored, message), InitialState(env, stored, message));
  }

  /** Every request stops after at least one and at most MULTI_TURN_ITERATION_MAX turns, with a type set. */
  lemma RunTurnsBounded(env: Env, stored: seq<Message>, message: string)
    ensures var o := Run(env, stored, message);
            o.response.Success? ==>
              && 1 <= o.response.value.turnsExecuted <= MULTI_TURN_ITERATION_MAX
              && o.response.value.kind.Some?
  {
    RunInv(env, stored, message);
  }

  /**
   * `sql_history` holds one entry per accepted query, numbered by turn 1, 2, ...: every turn
   * executed one, except a last turn that stopped the loop. Each entry's query is not blank,
   * passed the read-only gate, and its results are what executing it returned.
   */
  lemma RunSqlHistory(env: Env, stored: seq<Message>, message: string)
    ensures var o := Run(env, stored, message);
            o.response.Success? ==>
              var r := o.response.value;
              && (forall i | 0 <= i < |r.sqlHistory| :: r.sqlHistory[i].turn == i + 1 && Accepted(env, r.sqlHistory[i]))
              && (|r.sqlHistory| == r.turnsExecuted || |r.sqlHistory| == r.turnsExecuted - 1)
  {
    RunInv(env, stored, message);
  }

  /** `last_results` is the result of the most recently executed query, or `[]` when none ran. */
  lemma RunLastResults(env: Env, stored: seq<Message>, message: string)
    ensures var o := Run(env, stored, message);
            o.response.Success? ==>
              var r := o.response.value;
              r.lastResults == if r.sqlHistory == [] then [] else Last(r.sqlHistory).results
  {
    RunInv(env, stored, message);
  }

  /**
   * When every turn ran a query, the loop was cut at the iteration limit, and the answer
   * is that of the last query: type `sql`, its merged message and its query.
   */
  lemma RunSoftCutoff(env: Env, stored: seq<Message>, message: string)
    ensures var o := Run(env, stored, message);
            o.response.Success? && |o.response.value.sqlHistory| == o.response.value.turnsExecuted ==>
              var r := o.response.value;
              && r.turnsExecuted == MULTI_TURN_ITERATION_MAX
              && r.kind == Some("sql")
              && r.finalMessage == Last(r.sqlHistory).steps
              && r.lastQuery == Last(r.sqlHistory).query
  {
    RunInv(env, stored, message);
  }

  /**
   * A request fails only with the error raised by a non-blank query that passed the gate:
   * by executing it, or by encoding its results.
   */
  lemma RunRaised(env: Env, stored: seq<Message>, message: string)
    ensures var o := Run(env, stored, message);
            o.response.Failure? ==> exists q :: Raises(env, q, o.response.error)
  {
    RunInv(env, stored, message);
    var t := RunLoop(env, InitialState(env, stored, message));
    if t.raised.Some? {
      assert Raises(env, t.finalQuery, t.raised.value);
    }
  }

  /**
   * What a request appends: the system prompt exactly when the stored conversation was
   * empty, then the user message, then the first decision as an assistant message, then
   * only assistant and system messages.
   */
  lemma RunAppended(env: Env, stored: seq<Message>, message: string)
    ensures var o := Run(env, stored, message);
            var k := if stored == [] then 1 else 0;
            && |o.appended| >= k + 2
            && (o.appended[0] == Message("system", env.systemPrompt) <==> stored == [])
            && o.appended[k] == Message("user", message)
            && o.appended[k + 1] == Message("assistant", env.encodeDecision(env.llm(stored + o.appended[..k + 1])))
            && (forall i | k < i < |o.appended| :: o.appended[i].role in {"assistant", "system"})
  {
    var base := InitialConversation(env, stored, message);
    var t := RunLoop(env, InitialState(env, stored, message));
    RunLoopInv(env, base, InitialState(env, stored, message));
    var appended := t.conversation[|stored|..];
    assert Run(env, stored, message).appended == appended;
    var k := if stored == [] then 1 else 0;
    assert |base| == |stored| + k + 1;
    assert t.turn >= 1;
    assert base == stored + appended[..k + 1] by {
      assert base == t.conversation[..|base|];
    }
    assert appended[k] == Message("user", message) by {
      assert appended[k] == t.conversation[|base| - 1] == base[|base| - 1];
    }
    assert appended[k + 1] == t.conversation[|base|];
    forall i | k < i < |appended| ensures appended[i].role in {"assistant", "system"} {
      assert appended[i] == t.conversation[|stored| + i];
    }
    if stored != [] {
      assert appended[0].role == "user";
    }
  }

  /** The user message is the only user message a request appends. */
  lemma RunOneUserMessage(env: Env, stored: seq<Message>, message: string)
    ensures var o := Run(env, stored, message);
            forall i | 0 <= i < |o.appended| :: o.appended[i].role == "user" <==> o.appended[i] == Message("user", message)
  {
    RunAppended(env, stored, message);
  }

  /** A second request on the same session sees a non-empty history and does not seed it again. */
  lemma SecondRequestDoesNotReseed(env1: Env, env2: Env, stored: seq<Message>, m1: string, m2: string)
    ensures var o1 := Run(env1, stored, m1);
            var o2 := Run(env2, stored + o1.appended, m2);
            o2.appended[0] == Message("user", m2)
  {
    RunAppended(env1, stored, m1);
    RunAppended(env2, stored + Run(env1, stored, m1).appended, m2);
  }

  /**
   * A first decision of type `chat` or `done` answers the request at once: one turn, its
   * reply, no history, no results, and only the user message and the raw decision logged
   * (after the seed on a new session).
   */
  lemma RunFirstReply(env: Env, stored: seq<Message>, message: string)
    requires env.llm(InitialConversation(env, stored, message)).Kind() in {"chat", "done"}
    ensures var d := env.llm(InitialConversation(env, stored, message));
            var o := Run(env, stored, message);
            && o.response == Success(ChatResponse(Some(d.Kind()), d.Reply(), d.Query(), [], [], 1))
            && stored + o.appended == InitialConversation(env, stored, message) + [RawDecision(env, d)]
  {
    var s := InitialState(env, stored, message);
    StepReply(env, s);
    var t := Step(env, s);
    assert RunLoop(env, s) == t;
    assert t.conversation[|stored|..] == (InitialConversation(env, stored, message) + [RawDecision(env, env.llm(s.conversation))])[|stored|..];
  }

  /**
   * A first decision asking for a statement that fails the read-only gate answers the
   * request at once with the fixed error, as type `chat`; nothing is executed.
   */
  lemma RunFirstRejected(env: Env, stored: seq<Message>, message: string)
    requires var d := env.llm(InitialConversation(env, stored, message));
             d.Kind() == "sql" && !IsBlank(d.Query()) && !env.isReadOnly(d.Query())
    ensures var d := env.llm(InitialConversation(env, stored, message));
            var o := Run(env, stored, message);
            && o.response == Success(ChatResponse(Some("chat"), NON_READ_ONLY_ERROR, d.Query(), [], [], 1))
            && stored + o.appended == InitialConversation(env, stored, message) + [RawDecision(env, d)]
  {
    var s := InitialState(env, stored, message);
    StepRejected(env, s);
    var t := Step(env, s);
    assert RunLoop(env, s) == t;
    assert t.conversation[|stored|..] == (InitialConversation(env, stored, message) + [RawDecision(env, env.llm(s.conversation))])[|stored|..];
  }

  /**
   * An accepted query followed by a `done` decision: two turns, one history entry numbered 1,
   * the query's results as `last_results`, and the `done` decision's reply as the answer.
   */
  lemma RunSqlThenDone(env: Env, stored: seq<Message>, message: string, rows: QueryResult, text: string)
    requires var d := env.llm(InitialConversation(env, stored, message));
             && d.Kind() == "sql" && !IsBlank(d.Query()) && env.isReadOnly(d.Query())
             && env.execute(d.Query()) == Success(rows) && env.encodeResults(rows) == Success(text)
    requires env.llm(Step(env, InitialState(env, stored, message)).conversation).Kind() == "done"
    ensures var d := env.llm(InitialConversation(env, stored, message));
            var d2 := env.llm(Step(env, InitialState(env, stored, message)).conversation);
            var merged := env.merge(PartialOutput(d.Reply(), d.Query(), rows, env.plainReport(d.Query(), rows)));
            Run(env, stored, message).response
              == Success(ChatResponse(Some("done"), d2.Reply(), d2.Query(), rows, [SqlEntry(1, d.Query(), rows, merged)], 2))
  {
    var s := InitialState(env, stored, message);
    StepAccepted(env, s, rows, text);
    var t := Step(env, s);
    StepReply(env, t);
    var u := Step(env, t);
    assert RunLoop(env, t) == u;
    assert RunLoop(env, s) == u;
    assert u.turn == 2;
    assert u.history == [SqlEntry(1, env.llm(s.conversation).Query(), rows, t.finalMessage)];
    assert u.finalResults == rows;
    assert u.raised.None?;
  }

  /**
   * A first query whose results cannot be encoded: the request fails with the encoding's
   * error, after the raw decision and the merged message were logged; the results are
   * never logged.
   */
  lemma RunFirstEncodingRaised(env: Env, stored: seq<Message>, message: string, rows: QueryResult, e: string)
    requires var d := env.llm(InitialConversation(env, stored, message));
             && d.Kind() == "sql" && !IsBlank(d.Query()) && env.isReadOnly(d.Query())
             && env.execute(d.Query()) == Success(rows) && env.encodeResults(rows) == Failure(e)
    ensures var d := env.llm(InitialConversation(env, stored, message));
            var merged := env.merge(PartialOutput(d.Reply(), d.Query(), rows, env.plainReport(d.Query(), rows)));
            var o := Run(env, stored, message);
            && o.response == Failure(e)
            && stored + o.appended == InitialConversation(env, stored, message) + [RawDecision(env, d), Message("assistant", merged)]
  {
    var s := InitialState(env, stored, message);
    StepEncodingRaised(env, s, rows, e);
    var t := Step(env, s);
    assert RunLoop(env, s) == t;
    var d := env.llm(s.conversation);
    var merged := env.merge(PartialOutput(d.Reply(), d.Query(), rows, env.plainReport(d.Query(), rows)));
    assert t.conversation[|stored|..] == (InitialConversation(env, stored, message) + [RawDecision(env, d), Message("assistant", merged)])[|stored|..];
  }

  /**
   * `last_query` as the endpoint returns it can name a query that never ran: a first write
   * query is rejected, yet it is reported as the last query, with no history and no results.
   */
  lemma LastQueryNotExecuted(env: Env, stored: seq<Message>, message: string)
    requires var d := env.llm(InitialConversation(env, stored, message));
             d.Kind() == "sql" && !IsBlank(d.Query()) && !env.isReadOnly(d.Query())
    ensures var r := Run(env, stored, message).response;
            && r.Success?
            && !IsBlank(r.value.lastQuery) && !env.isReadOnly(r.value.lastQuery)
            && r.value.sqlHistory == [] && r.value.lastResults == []
  {
    RunFirstRejected(env, stored, message);
  }

  /**
   * `last_query` as the endpoint returns it can be blank while `last_results` holds the
   * rows of a query that did run: a `done` decision without a query after an accepted one.
   */
  lemma LastQueryBlankWithResults(env: Env, stored: seq<Message>, message: string, rows: QueryResult, text: string)
    requires var d := env.llm(InitialConversation(env, stored, message));
             && d.Kind() == "sql" && !IsBlank(d.Query()) && env.isReadOnly(d.Query())
             && env.execute(d.Query()) == Success(rows) && env.encodeResults(rows) == Success(text)
    requires var d2 := env.llm(Step(env, InitialState(env, stored, message)).conversation);
             d2.Kind() == "done" && d2.Query() == ""
    ensures var r := Run(env, stored, message).response;
            && r.Success?
            && r.value.lastQuery == "" && r.value.lastResults == rows && |r.value.sqlHistory| == 1
  {
    RunSqlThenDone(env, stored, message, rows, text);
  }

  /** The query `last_query` is documented to be: the last one executed, or `""` when none ran. */
  function LastExecutedQuery(r: ChatResponse): string {
    if r.sqlHistory == [] then "" else Last(r.sqlHistory).query
  }

  /**
   * The documented `last_query` agrees with `last_results`: either no query ran and both
   * are empty, or it is a non-blank query that passed the gate and executed to exactly
   * `last_results`.
   */
  lemma RunLastExecutedQuery(env: Env, stored: seq<Message>, message: string)
    ensures var o := Run(env, stored, message);
            o.response.Success? ==>
              var r := o.response.value;
              var q := LastExecutedQuery(r);
              || (r.sqlHistory == [] && q == "" && r.lastResults == [])
              || (!IsBlank(q) && env.isReadOnly(q) && env.execute(q) == Success(r.lastResults))
  {
    RunInv(env, stored, message);
  }
}
