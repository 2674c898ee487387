/**
 * The history view of `get_chat_history` (main.py): a session's conversation as
 * the frontend sees it, with the system messages (prompt and query results)
 * filtered out and only user and assistant messages kept, in stored order.
 */
module ChatHistory {
  import opened Wrappers
  import opened SessionStore
  import opened ChatLoop

  /** The roles the frontend is shown. */
  predicate Shown(m: Message) {
    m.role == "user" || m.role == "assistant"
  }

  /** The role filter applied to a session's messages. */
  function VisibleMessages(msgs: seq<Message>): (r: seq<Message>)
    ensures |r| <= |msgs|
    ensures forall i | 0 <= i < |r| :: Shown(r[i])
  {
    if msgs == [] then []
    else if Shown(msgs[0]) then [msgs[0]] + VisibleMessages(msgs[1..])
    else VisibleMessages(msgs[1..])
  }

  /** The view holds exactly the conversation's user and assistant messages. */
  lemma {:induction false} VisibleMessagesMembers(msgs: seq<Message>)
    ensures forall m :: m in VisibleMessages(msgs) <==> m in msgs && Shown(m)
    decreases |msgs|
  {
    if msgs != [] {
      VisibleMessagesMembers(msgs[1..]);
      assert msgs == [msgs[0]] + msgs[1..];
    }
  }

  /** Filtering commutes with concatenation, so order is kept across appends. */
  lemma {:induction false} VisibleMessagesConcat(a: seq<Message>, b: seq<Message>)
    ensures VisibleMessages(a + b) == VisibleMessages(a) + VisibleMessages(b)
    decreases |a|
  {
    if a == [] {
      assert a + b == b;
    } else {
      assert (a + b)[0] == a[0];
      assert (a + b)[1..] == a[1..] + b;
      VisibleMessagesConcat(a[1..], b);
    }
  }

  /** Filtering keeps every message the frontend is shown, and only those. */
  lemma {:induction false} VisibleMessagesIdentity(msgs: seq<Message>)
    ensures VisibleMessages(msgs) == msgs <==> forall i | 0 <= i < |msgs| :: Shown(msgs[i])
    decreases |msgs|
  {
    if msgs != [] {
      VisibleMessagesIdentity(msgs[1..]);
      if !Shown(msgs[0]) {
        assert |VisibleMessages(msgs)| < |msgs|;
      } else if VisibleMessages(msgs) == msgs {
        assert VisibleMessages(msgs[1..]) == msgs[1..];
      }
    }
  }

  /** What `get_chat_history(sessionId)` lists for a table holding `rows`. */
  function ChatHistoryView(rows: seq<Row>, sessionId: string): (r: seq<Message>)
    ensures |r| <= |SessionMessages(rows, sessionId)|
    ensures forall i | 0 <= i < |r| :: r[i].role in {"user", "assistant"}
  {
    VisibleMessages(SessionMessages(rows, sessionId))
  }

  /** Inserting `appended` under `sessionId` extends that session's view by the shown part of it and no other's. */
  lemma HistoryAfterInserts(rows: seq<Row>, sessionId: string, appended: seq<Message>, now: nat)
    ensures ChatHistoryView(rows + Stamp(sessionId, appended, now), sessionId)
         == ChatHistoryView(rows, sessionId) + VisibleMessages(appended)
    ensures forall other | other != sessionId ::
              ChatHistoryView(rows + Stamp(sessionId, appended, now), other) == ChatHistoryView(rows, other)
  {
    SessionMessagesAfterInserts(rows, sessionId, appended, now, sessionId);
    VisibleMessagesConcat(SessionMessages(rows, sessionId), appended);
    forall other | other != sessionId
      ensures ChatHistoryView(rows + Stamp(sessionId, appended, now), other) == ChatHistoryView(rows, other)
    {
      SessionMessagesAfterInserts(rows, sessionId, appended, now, other);
    }
  }

  /** Of messages that are all assistant or system messages, only assistant ones are shown. */
  lemma {:induction false} VisibleReplies(msgs: seq<Message>)
    requires forall i | 0 <= i < |msgs| :: msgs[i].role in {"assistant", "system"}
    ensures forall i | 0 <= i < |VisibleMessages(msgs)| :: VisibleMessages(msgs)[i].role == "assistant"
    decreases |msgs|
  {
    if msgs != [] {
      VisibleReplies(msgs[1..]);
    }
  }

  /** System messages are never shown. */
  lemma {:induction false} VisibleHidden(msgs: seq<Message>)
    requires forall i | 0 <= i < |msgs| :: msgs[i].role == "system"
    ensures VisibleMessages(msgs) == []
    decreases |msgs|
  {
    if msgs != [] {
      VisibleHidden(msgs[1..]);
    }
  }

  /** The user message and the first decision at the front are both shown, in that order. */
  lemma VisibleFront(msgs: seq<Message>)
    requires |msgs| >= 2 && msgs[0].role == "user" && msgs[1].role == "assistant"
    ensures VisibleMessages(msgs) == [msgs[0], msgs[1]] + VisibleMessages(msgs[2..])
  {
    assert msgs[1..][0] == msgs[1];
    assert msgs[1..][1..] == msgs[2..];
  }

  /**
   * A log shaped as a request logs it (`k` seeded system messages, the user message, the
   * first decision, then assistant and system messages only) shows as the user message,
   * the first decision, then assistant messages only.
   */
  lemma VisibleRequestLog(appended: seq<Message>, k: nat, user: Message, first: Message)
    requires k <= 1 && |appended| >= k + 2
    requires k == 1 ==> appended[0].role == "system"
    requires appended[k] == user && user.role == "user"
    requires appended[k + 1] == first && first.role == "assistant"
    requires forall i | k < i < |appended| :: appended[i].role in {"assistant", "system"}
    ensures var v := VisibleMessages(appended);
            && |v| >= 2 && v[0] == user && v[1] == first
            && forall i | 1 <= i < |v| :: v[i].role == "assistant"
  {
    var rest := appended[k + 2..];
    var tail := VisibleMessages(rest);
    assert VisibleMessages(appended) == [user, first] + tail by {
      var front := appended[k..];
      assert VisibleMessages(appended) == VisibleMessages(front) by {
        if k == 1 {
          assert appended[1..] == front;
        }
      }
      assert front[0] == user && front[1] == first && front[2..] == rest;
      VisibleFront(front);
    }
    assert forall i | 0 <= i < |tail| :: tail[i].role == "assistant" by {
      VisibleReplies(rest);
    }
  }

  /**
   * What a chat request adds to its session's history view: the user message, then the
   * first decision as logged, then assistant messages only (merged SQL answers and
   * later decisions); the seeded system prompt and query results stay hidden.
   */
  lemma HistoryAfterRequest(env: Env, stored: seq<Message>, message: string)
    ensures var v := VisibleMessages(Run(env, stored, message).appended);
            var k := if stored == [] then 1 else 0;
            && |v| >= 2
            && v[0] == Message("user", message)
            && v[1] == Message("assistant", env.encodeDecision(env.llm(stored + Run(env, stored, message).appended[..k + 1])))
            && forall i | 1 <= i < |v| :: v[i].role == "assistant"
  {
    var appended := Run(env, stored, message).appended;
    var k := if stored == [] then 1 else 0;
    RunAppended(env, stored, message);
    VisibleRequestLog(appended, k, Message("user", message),
                      Message("assistant", env.encodeDecision(env.llm(stored + appended[..k + 1]))));
  }
}
