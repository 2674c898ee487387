/**
 * The conversation log of db_utils.py: one table `conversation_messages` of
 * (session_id, role, content, created_at) rows, written one row at a time and
 * read back per session in creation order.
 *
 * The SQLite file becomes the fields of `MessageStore`; the clock behind
 * CURRENT_TIMESTAMP becomes the counter `clock`, which only `Tick` advances,
 * so that rows inserted within the same second share a timestamp.
 */
module SessionStore {
  import opened Wrappers

  /** One row of `conversation_messages`. */
  datatype Row = Row(sessionId: string, role: string, content: string, createdAt: nat)

  /** What `get_conversation` returns for one row: its role and content only. */
  datatype Message = Message(role: string, content: string)

  /** The error SQLite raises when the table has not been created. */
  const NO_SUCH_TABLE: string := "no such table: conversation_messages"

  /** Timestamps never decrease along the sequence. */
  ghost predicate Chronological(rows: seq<Row>) {
    forall i, j | 0 <= i < j < |rows| :: rows[i].createdAt <= rows[j].createdAt
  }

  /** The rows of one session, in table order (`WHERE session_id=?`). */
  function SessionRows(rows: seq<Row>, sessionId: string): (r: seq<Row>)
    ensures |r| <= |rows|
    ensures forall i | 0 <= i < |r| :: r[i].sessionId == sessionId
  {
    if rows == [] then []
    else (if rows[0].sessionId == sessionId then [rows[0]] else []) + SessionRows(rows[1..], sessionId)
  }

  /** The selection holds exactly the table's rows that carry the session's id. */
  lemma {:induction false} SessionRowsMembers(rows: seq<Row>, sessionId: string)
    ensures forall x :: x in SessionRows(rows, sessionId) <==> x in rows && x.sessionId == sessionId
    decreases |rows|
  {
    if rows != [] {
      SessionRowsMembers(rows[1..], sessionId);
      assert rows == [rows[0]] + rows[1..];
    }
  }

  /** Each row reduced to `{role, content}`. */
  function ToMessages(rows: seq<Row>): seq<Message> {
    seq(|rows|, i requires 0 <= i < |rows| => Message(rows[i].role, rows[i].content))
  }

  /** What `get_conversation(sessionId)` returns for a table holding `rows`. */
  function SessionMessages(rows: seq<Row>, sessionId: string): (r: seq<Message>)
    ensures |r| <= |rows|
    ensures forall i | 0 <= i < |r| :: StoredUnder(rows, sessionId, r[i])
  {
    SelectedMessagesFromRows(rows, sessionId);
    ToMessages(SessionRows(rows, sessionId))
  }

  /** `m` is the role and content of some row stored under `sessionId`. */
  ghost predicate StoredUnder(rows: seq<Row>, sessionId: string, m: Message) {
    exists x | x in rows :: x.sessionId == sessionId && m == Message(x.role, x.content)
  }

  /** Every selected message is the role and content of a stored row of that session. */
  lemma SelectedMessagesFromRows(rows: seq<Row>, sessionId: string)
    ensures forall i | 0 <= i < |ToMessages(SessionRows(rows, sessionId))| ::
              StoredUnder(rows, sessionId, ToMessages(SessionRows(rows, sessionId))[i])
  {
    var sel := SessionRows(rows, sessionId);
    var r := ToMessages(sel);
    SessionRowsMembers(rows, sessionId);
    forall i | 0 <= i < |r|
      ensures StoredUnder(rows, sessionId, r[i])
    {
      var x := sel[i];
      assert x in sel;
      assert x in rows && x.sessionId == sessionId && r[i] == Message(x.role, x.content);
    }
  }

  /** The rows that inserting `msgs` one by one under `sessionId` at time `now` adds. */
  function Stamp(sessionId: string, msgs: seq<Message>, now: nat): seq<Row> {
    seq(|msgs|, i requires 0 <= i < |msgs| => Row(sessionId, msgs[i].role, msgs[i].content, now))
  }

  /** Appending a row extends its own session's rows by that row and leaves every other session's alone. */
  lemma {:induction false} SessionRowsSnoc(rows: seq<Row>, x: Row, sessionId: string)
    ensures SessionRows(rows + [x], sessionId)
         == SessionRows(rows, sessionId) + (if x.sessionId == sessionId then [x] else [])
  {
    if rows == [] {
      assert rows + [x] == [x];
      assert SessionRows([x], sessionId) == (if x.sessionId == sessionId then [x] else []) + SessionRows([], sessionId);
    } else {
      assert (rows + [x])[0] == rows[0];
      assert (rows + [x])[1..] == rows[1..] + [x];
      SessionRowsSnoc(rows[1..], x, sessionId);
    }
  }

  /** A bound that every row's timestamp meets is met by every row of one session. */
  lemma SessionRowsLowerBound(rows: seq<Row>, sessionId: string, t: nat)
    requires forall i | 0 <= i < |rows| :: t <= rows[i].createdAt
    ensures forall i | 0 <= i < |SessionRows(rows, sessionId)| :: t <= SessionRows(rows, sessionId)[i].createdAt
  {
    var r := SessionRows(rows, sessionId);
    SessionRowsMembers(rows, sessionId);
    forall i | 0 <= i < |r| ensures t <= r[i].createdAt {
      assert r[i] in r;
      var k :| 0 <= k < |rows| && rows[k] == r[i];
    }
  }

  /** Selecting one session out of a chronological table gives a chronological result (`ORDER BY created_at ASC`). */
  lemma {:induction false} SessionRowsChronological(rows: seq<Row>, sessionId: string)
    requires Chronological(rows)
    ensures Chronological(SessionRows(rows, sessionId))
  {
    if rows != [] {
      var tail := rows[1..];
      assert Chronological(tail) by {
        forall i, j | 0 <= i < j < |tail| ensures tail[i].createdAt <= tail[j].createdAt {
          assert tail[i] == rows[i + 1] && tail[j] == rows[j + 1];
        }
      }
      SessionRowsChronological(tail, sessionId);
      var rest := SessionRows(tail, sessionId);
      if rows[0].sessionId == sessionId {
        forall i | 0 <= i < |tail| ensures rows[0].createdAt <= tail[i].createdAt {
          assert tail[i] == rows[i + 1];
        }
        SessionRowsLowerBound(tail, sessionId, rows[0].createdAt);
        var r := [rows[0]] + rest;
        assert r == SessionRows(rows, sessionId);
        forall i, j | 0 <= i < j < |r| ensures r[i].createdAt <= r[j].createdAt {
          assert r[j] == rest[j - 1];
          if i > 0 {
            assert r[i] == rest[i - 1];
          }
        }
      } else {
        assert rest == SessionRows(rows, sessionId);
      }
    }
  }

  /** A session with no rows reads back as the empty list. */
  lemma SessionRowsUnknown(rows: seq<Row>, sessionId: string)
    ensures SessionRows(rows, sessionId) == [] <==> forall x | x in rows :: x.sessionId != sessionId
  {
    var r := SessionRows(rows, sessionId);
    SessionRowsMembers(rows, sessionId);
    if r != [] {
      assert r[0] in r;
    }
  }

  lemma ToMessagesConcat(a: seq<Row>, b: seq<Row>)
    ensures ToMessages(a + b) == ToMessages(a) + ToMessages(b)
  {
  }

  lemma StampSnoc(sessionId: string, msgs: seq<Message>, m: Message, now: nat)
    ensures Stamp(sessionId, msgs + [m], now) == Stamp(sessionId, msgs, now) + [Row(sessionId, m.role, m.content, now)]
  {
  }

  /**
   * Inserting `msgs` under `sessionId` makes `get_conversation(sessionId)` return the old
   * answer followed by exactly `msgs`, and changes no other session's answer.
   */
  lemma {:induction false} SessionMessagesAfterInserts(rows: seq<Row>, sessionId: string, msgs: seq<Message>, now: nat, other: string)
    ensures SessionMessages(rows + Stamp(sessionId, msgs, now), sessionId) == SessionMessages(rows, sessionId) + msgs
    ensures other != sessionId ==>
              SessionMessages(rows + Stamp(sessionId, msgs, now), other) == SessionMessages(rows, other)
  {
    if msgs == [] {
      assert rows + Stamp(sessionId, msgs, now) == rows;
    } else {
      var init := msgs[..|msgs| - 1];
      var last := msgs[|msgs| - 1];
      var x := Row(sessionId, last.role, last.content, now);
      var before := rows + Stamp(sessionId, init, now);
      assert msgs == init + [last];
      StampSnoc(sessionId, init, last, now);
      assert rows + Stamp(sessionId, msgs, now) == before + [x];
      SessionMessagesAfterInserts(rows, sessionId, init, now, other);
      SessionRowsSnoc(before, x, sessionId);
      ToMessagesConcat(SessionRows(before, sessionId), [x]);
      assert ToMessages([x]) == [last];
      if other != sessionId {
        SessionRowsSnoc(before, x, other);
      }
    }
  }

  class MessageStore {
    /** Whether `CREATE TABLE ... conversation_messages` has run. */
    var tableExists: bool
    /** The table's rows, in insertion order. */
    var rows: seq<Row>
    /** The current time, in whole seconds, as CURRENT_TIMESTAMP would read it. */
    var clock: nat

    ghost predicate Valid()
      reads this
    {
      && (!tableExists ==> rows == [])
      && Chronological(rows)
      && (forall i | 0 <= i < |rows| :: rows[i].createdAt <= clock)
    }

    /** A database file that has no table yet, opened at time `now`. */
    constructor (now: nat)
      ensures Valid() && !tableExists && rows == [] && clock == now
    {
      tableExists, rows, clock := false, [], now;
    }

    /** `init_db`: creates the table if it does not exist; existing rows are kept. */
    method InitDb()
      requires Valid()
      modifies this
      ensures Valid() && tableExists
      ensures rows == old(rows) && clock == old(clock)
    {
      tableExists := true;
    }

    /** Time passes. */
    method Tick(seconds: nat)
      requires Valid()
      modifies this
      ensures Valid() && clock == old(clock) + seconds
      ensures rows == old(rows) && tableExists == old(tableExists)
    {
      clock := clock + seconds;
    }

    /** `insert_message`: adds one row stamped with the current time; fails when there is no table. */
    method InsertMessage(sessionId: string, role: string, content: string) returns (r: Result<(), string>)
      requires Valid()
      modifies this
      ensures Valid() && tableExists == old(tableExists) && clock == old(clock)
      ensures old(tableExists) ==> r.Success? && rows == old(rows) + [Row(sessionId, role, content, clock)]
      ensures !old(tableExists) ==> r == Failure(NO_SUCH_TABLE) && rows == old(rows)
    {
      if !tableExists {
        return Failure(NO_SUCH_TABLE);
      }
      rows := rows + [Row(sessionId, role, content, clock)];
      r := Success(());
    }

    /** `get_conversation`: the session's `{role, content}` pairs in creation order. */
    method GetConversation(sessionId: string) returns (r: Result<seq<Message>, string>)
      requires Valid()
      ensures !tableExists ==> r == Failure(NO_SUCH_TABLE)
      ensures tableExists ==> r == Success(SessionMessages(rows, sessionId))
      ensures tableExists && (forall x | x in rows :: x.sessionId != sessionId) ==> r == Success([])
      ensures r.Success? ==> |r.value| <= |rows|
    {
      if !tableExists {
        return Failure(NO_SUCH_TABLE);
      }
      SessionRowsUnknown(rows, sessionId);
      r := Success(SessionMessages(rows, sessionId));
    }
  }
}
