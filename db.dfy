/**
 * The conversation store (src/db.js): one append-only table of
 * (id, user_id, role, content, timestamp) rows behind a module-level handle.
 *
 * Rows are kept in insertion order. The source orders a user's history by a
 * `CURRENT_TIMESTAMP` column of one-second resolution; the model takes
 * insertion order as that order (rows written in the same second are assumed
 * to come back in the order they were written).
 */
module Db {
  import opened Wrappers

  datatype Row = Row(id: nat, userId: int, role: string, content: string)

  /** What `getChatHistory` returns per row: `SELECT role, content`. */
  datatype Turn = Turn(role: string, content: string)

  /** The module-level `db` variable: never assigned, an open connection, or a closed one. */
  datatype Handle = Unset | Open | Closed

  /**
   * Why a statement could not run: `db` is still undefined (a TypeError on
   * `db.prepare`), or the connection has been closed.
   */
  datatype StoreError = NotInitialised | ConnectionClosed

  /** The default `LIMIT` of `getChatHistory`. */
  const DefaultHistoryLimit: int := 20

  function HandleError(h: Handle): StoreError
    requires h != Open
  {
    if h == Unset then NotInitialised else ConnectionClosed
  }

  /** `SELECT role, content ... WHERE user_id = u`, in row order. */
  function UserTurns(rows: seq<Row>, u: int): (r: seq<Turn>)
    ensures |r| <= |rows|
    ensures (forall k :: 0 <= k < |rows| ==> rows[k].userId != u) ==> r == []
  {
    if rows == [] then []
    else
      var last := rows[|rows| - 1];
      UserTurns(rows[..|rows| - 1], u) + (if last.userId == u then [Turn(last.role, last.content)] else [])
  }

  /**
   * SQLite `LIMIT n`: at most n rows from the front; a negative limit means
   * no limit.
   */
  function Limit(ts: seq<Turn>, limit: int): (r: seq<Turn>)
    ensures r <= ts
    ensures limit >= 0 ==> |r| == if |ts| < limit then |ts| else limit
    ensures limit < 0 ==> r == ts
  {
    if limit < 0 || |ts| <= limit then ts else ts[..limit]
  }

  /** `DELETE FROM conversations WHERE user_id = u`. */
  function WithoutUser(rows: seq<Row>, u: int): (r: seq<Row>)
    ensures forall k :: 0 <= k < |r| ==> r[k].userId != u
    ensures |r| <= |rows|
  {
    if rows == [] then []
    else
      var last := rows[|rows| - 1];
      WithoutUser(rows[..|rows| - 1], u) + (if last.userId == u then [] else [last])
  }

  /** Row ids increase strictly along the table, and all lie below the next id. */
  ghost predicate IdsIncreasing(rows: seq<Row>, nextId: nat) {
    (forall k, l :: 0 <= k < l < |rows| ==> rows[k].id < rows[l].id) &&
    (forall k :: 0 <= k < |rows| ==> rows[k].id < nextId)
  }

  class ConversationStore {
    /** The `conversations` table, in insertion order. It outlives the handle: it is the data file. */
    var rows: seq<Row>
    /** The AUTOINCREMENT sequence: the id the next insert receives. It is never reused. */
    var nextId: nat
    var handle: Handle

    ghost predicate Valid()
      reads this
    {
      nextId >= 1 && IdsIncreasing(rows, nextId)
    }

    /** A process that has not called `initDatabase` yet, over an existing data file. */
    constructor (existing: seq<Row>, sequence: nat)
      requires sequence >= 1 && IdsIncreasing(existing, sequence)
      ensures Valid()
      ensures rows == existing && nextId == sequence && handle == Unset
    {
      rows := existing;
      nextId := sequence;
      handle := Unset;
    }

    /**
     * `initDatabase` (src/db.js:8-30): open the data file and create the table
     * if it does not exist. Rows left by an earlier run stay.
     */
    method InitDatabase()
      requires Valid()
      modifies this
      ensures Valid()
      ensures handle == Open && rows == old(rows) && nextId == old(nextId)
    {
      handle := Open;
    }

    /** `addMessage` (src/db.js:36-39): insert one row with the next id. */
    method AddMessage(userId: int, role: string, content: string) returns (r: Result<nat, StoreError>)
      requires Valid()
      modifies this
      ensures Valid()
      ensures handle == old(handle)
      ensures old(handle) == Open ==>
                r == Success(old(nextId)) &&
                rows == old(rows) + [Row(old(nextId), userId, role, content)] &&
                nextId == old(nextId) + 1
      ensures old(handle) != Open ==>
                r == Failure(HandleError(old(handle))) && rows == old(rows) && nextId == old(nextId)
    {
      if handle != Open {
        return Failure(HandleError(handle));
      }
      rows := rows + [Row(nextId, userId, role, content)];
      r := Success(nextId);
      nextId := nextId + 1;
    }

    /**
     * `getChatHistory(userId, limit)` (src/db.js:41-50): the user's turns in
     * ascending order, cut to the first `limit`.
     */
    function GetChatHistory(userId: int, limit: int): (r: Result<seq<Turn>, StoreError>)
      reads this
      ensures r.Success? <==> handle == Open
      ensures r.Failure? ==> r.error == HandleError(handle)
      ensures r.Success? ==> r.value <= UserTurns(rows, userId)
      ensures r.Success? && limit >= 0 ==> |r.value| <= limit
      ensures r.Success? && (limit < 0 || |UserTurns(rows, userId)| <= limit) ==>
                r.value == UserTurns(rows, userId)
      ensures r.Success? ==> r.value == Limit(UserTurns(rows, userId), limit)
    {
      if handle != Open then Failure(HandleError(handle))
      else Success(Limit(UserTurns(rows, userId), limit))
    }

    /** `clearChatHistory` (src/db.js:52-55): delete every row of one user. */
    method ClearChatHistory(userId: int) returns (r: Result<(), StoreError>)
      requires Valid()
      modifies this
      ensures Valid()
      ensures handle == old(handle) && nextId == old(nextId)
      ensures old(handle) == Open ==> r.Success? && rows == WithoutUser(old(rows), userId)
      ensures old(handle) != Open ==> r == Failure(HandleError(old(handle))) && rows == old(rows)
    {
      if handle != Open {
        return Failure(HandleError(handle));
      }
      WithoutUserKeepsIds(rows, nextId, userId);
      rows := WithoutUser(rows, userId);
      r := Success(());
    }

    /** `clearAllConversations` (src/db.js:57-59): delete every row. */
    method ClearAllConversations() returns (r: Result<(), StoreError>)
      requires Valid()
      modifies this
      ensures Valid()
      ensures handle == old(handle) && nextId == old(nextId)
      ensures old(handle) == Open ==> r.Success? && rows == []
      ensures old(handle) != Open ==> r == Failure(HandleError(old(handle))) && rows == old(rows)
    {
      if handle != Open {
        return Failure(HandleError(handle));
      }
      rows := [];
      r := Success(());
    }

    /**
     * `closeDatabase` (src/db.js:61-65): close the handle if one was ever
     * assigned; closing a closed connection is harmless.
     */
    method CloseDatabase()
      requires Valid()
      modifies this
      ensures Valid()
      ensures rows == old(rows) && nextId == old(nextId)
      ensures handle == if old(handle) == Unset then Unset else Closed
    {
      if handle != Unset {
        handle := Closed;
      }
    }
  }

  // ---------------------------------------------------------------------------
  // Properties of the table.

  /** An insert adds to the inserting user's history only, at its end. */
  lemma {:induction false} UserTurnsAppend(rows: seq<Row>, row: Row, u: int)
    ensures UserTurns(rows + [row], u) ==
            UserTurns(rows, u) + (if row.userId == u then [Turn(row.role, row.content)] else [])
  {
    assert (rows + [row])[..|rows|] == rows;
  }

  /** The history of a user holds exactly that user's rows, in table order, verbatim. */
  lemma {:induction false} UserTurnsAre(rows: seq<Row>, u: int)
    ensures |UserTurns(rows, u)| == |WithoutOthers(rows, u)|
    ensures forall k :: 0 <= k < |UserTurns(rows, u)| ==>
              UserTurns(rows, u)[k] == Turn(WithoutOthers(rows, u)[k].role, WithoutOthers(rows, u)[k].content)
  {
    if rows != [] {
      UserTurnsAre(rows[..|rows| - 1], u);
    }
  }

  /** The rows of a user are exactly the table's rows that belong to that user. */
  lemma {:induction false} WithoutOthersKeepsAll(rows: seq<Row>, u: int)
    ensures forall k :: 0 <= k < |rows| && rows[k].userId == u ==> rows[k] in WithoutOthers(rows, u)
    ensures forall k :: 0 <= k < |WithoutOthers(rows, u)| ==> WithoutOthers(rows, u)[k] in rows
  {
    if rows != [] {
      var init := rows[..|rows| - 1];
      WithoutOthersKeepsAll(init, u);
      var w := WithoutOthers(init, u);
      var all := WithoutOthers(rows, u);
      assert all == w + (if rows[|rows| - 1].userId == u then [rows[|rows| - 1]] else []);
      forall k | 0 <= k < |rows| && rows[k].userId == u
        ensures rows[k] in all
      {
        if k < |rows| - 1 {
          assert rows[k] == init[k];
          assert rows[k] in w;
        }
      }
      forall k | 0 <= k < |all|
        ensures all[k] in rows
      {
        if k < |w| {
          assert all[k] == w[k];
          assert w[k] in init;
        }
      }
    }
  }

  /** The rows of one user, in table order. */
  function WithoutOthers(rows: seq<Row>, u: int): (r: seq<Row>)
    ensures forall k :: 0 <= k < |r| ==> r[k].userId == u
  {
    if rows == [] then []
    else
      var last := rows[|rows| - 1];
      WithoutOthers(rows[..|rows| - 1], u) + (if last.userId == u then [last] else [])
  }

  /**
   * After a run of inserts by user `u`, `u`'s history has those turns appended
   * in order, verbatim, and every other user's history is as it was.
   */
  lemma {:induction false} HistoryOfInserts(rows: seq<Row>, u: int, firstId: nat, turns: seq<Turn>, v: int)
    ensures UserTurns(rows + RowsOf(u, firstId, turns), v) == UserTurns(rows, v) + (if v == u then turns else [])
    decreases |turns|
  {
    if turns == [] {
      assert rows + RowsOf(u, firstId, turns) == rows;
    } else {
      var init := turns[..|turns| - 1];
      var last := turns[|turns| - 1];
      var row := Row(firstId + |init|, u, last.role, last.content);
      var before := rows + RowsOf(u, firstId, init);
      assert rows + RowsOf(u, firstId, turns) == before + [row];
      HistoryOfInserts(rows, u, firstId, init, v);
      UserTurnsAppend(before, row, v);
      if v == u {
        calc {
          UserTurns(before + [row], v);
          UserTurns(before, v) + [Turn(row.role, row.content)];
          (UserTurns(rows, v) + init) + [last];
          { assert turns == init + [last]; }
          UserTurns(rows, v) + turns;
        }
      }
    }
  }

  /** The rows a run of inserts by user `u` writes, ids counting up from `firstId`. */
  function RowsOf(u: int, firstId: nat, turns: seq<Turn>): (r: seq<Row>)
    ensures |r| == |turns|
  {
    if turns == [] then []
    else
      var init := turns[..|turns| - 1];
      var last := turns[|turns| - 1];
      RowsOf(u, firstId, init) + [Row(firstId + |init|, u, last.role, last.content)]
  }

  /** The rows two consecutive inserts write. */
  lemma RowsOfTwo(u: int, firstId: nat, first: Turn, second: Turn)
    ensures RowsOf(u, firstId, [first, second]) ==
            [Row(firstId, u, first.role, first.content), Row(firstId + 1, u, second.role, second.content)]
  {
    assert [first, second][..1] == [first];
    assert [first][..0] == [];
  }

  /** Deleting one user's rows empties that user's history. */
  lemma {:induction false} ClearEmptiesUser(rows: seq<Row>, u: int)
    ensures UserTurns(WithoutUser(rows, u), u) == []
  {
    if rows != [] {
      var init := rows[..|rows| - 1];
      var last := rows[|rows| - 1];
      ClearEmptiesUser(init, u);
      if last.userId != u {
        assert WithoutUser(rows, u) == WithoutUser(init, u) + [last];
        UserTurnsAppend(WithoutUser(init, u), last, u);
      } else {
        assert WithoutUser(rows, u) == WithoutUser(init, u);
      }
    }
  }

  /** Deleting one user's rows leaves every other user's history as it was. */
  lemma {:induction false} ClearKeepsOthers(rows: seq<Row>, u: int, v: int)
    requires v != u
    ensures UserTurns(WithoutUser(rows, u), v) == UserTurns(rows, v)
  {
    if rows != [] {
      var init := rows[..|rows| - 1];
      var last := rows[|rows| - 1];
      ClearKeepsOthers(init, u, v);
      assert UserTurns(rows, v) == UserTurns(init, v) + (if last.userId == v then [Turn(last.role, last.content)] else []);
      if last.userId != u {
        assert WithoutUser(rows, u) == WithoutUser(init, u) + [last];
        UserTurnsAppend(WithoutUser(init, u), last, v);
      } else {
        assert WithoutUser(rows, u) == WithoutUser(init, u);
      }
    }
  }

  /** Deleting one user's rows twice deletes nothing more. */
  lemma {:induction false} ClearIdempotent(rows: seq<Row>, u: int)
    ensures WithoutUser(WithoutUser(rows, u), u) == WithoutUser(rows, u)
  {
    if rows != [] {
      var init := rows[..|rows| - 1];
      var last := rows[|rows| - 1];
      ClearIdempotent(init, u);
      if last.userId != u {
        var w := WithoutUser(init, u) + [last];
        assert WithoutUser(rows, u) == w;
        assert w[..|w| - 1] == WithoutUser(init, u);
        assert WithoutUser(w, u) == WithoutUser(WithoutUser(init, u), u) + [last];
      } else {
        assert WithoutUser(rows, u) == WithoutUser(init, u);
      }
    }
  }

  /** Deleting rows keeps the ids increasing and below the next id. */
  lemma {:induction false} WithoutUserKeepsIds(rows: seq<Row>, nextId: nat, u: int)
    requires IdsIncreasing(rows, nextId)
    ensures IdsIncreasing(WithoutUser(rows, u), nextId)
    ensures forall k :: 0 <= k < |WithoutUser(rows, u)| ==> WithoutUser(rows, u)[k] in rows
  {
    if rows != [] {
      var init := rows[..|rows| - 1];
      var last := rows[|rows| - 1];
      assert IdsIncreasing(init, nextId);
      WithoutUserKeepsIds(init, nextId, u);
      var w := WithoutUser(init, u);
      forall k | 0 <= k < |w|
        ensures w[k].id < last.id
      {
        var j :| 0 <= j < |init| && init[j] == w[k];
      }
    }
  }

  /**
   * `getChatHistory(u)` with its default limit: a user with more than 20
   * turns gets the earliest 20, and a user with no rows gets an empty history.
   */
  lemma ChatHistoryIsEarliest(store: ConversationStore, u: int)
    requires store.handle == Open
    ensures |UserTurns(store.rows, u)| > DefaultHistoryLimit ==>
              store.GetChatHistory(u, DefaultHistoryLimit) == Success(UserTurns(store.rows, u)[..DefaultHistoryLimit])
    ensures (forall k :: 0 <= k < |store.rows| ==> store.rows[k].userId != u) ==>
              store.GetChatHistory(u, DefaultHistoryLimit) == Success([])
  {
  }

  /** The history is the earliest `limit` turns, not the most recent ones. */
  lemma HistoryIsEarliest(rows: seq<Row>, u: int, limit: nat)
    requires |UserTurns(rows, u)| > limit
    ensures Limit(UserTurns(rows, u), limit) == UserTurns(rows, u)[..limit]
  {
  }
}
