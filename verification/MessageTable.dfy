/** The relay's queue table: three statements over rows kept in primary-key order. */
module MessageTable {
  /** `post` is an observer's tag, the request the message came in on; no statement reads it. */
  datatype QueuedMessage = QueuedMessage(
    id: nat,
    recipient: string,
    payload: string,
    nonce: string,
    createdAt: int,
    expiresAt: int,
    post: nat)

  function RowsFor(rows: seq<QueuedMessage>, recipient: string): seq<QueuedMessage> {
    if rows == [] then []
    else if rows[0].recipient == recipient then [rows[0]] + RowsFor(rows[1..], recipient)
    else RowsFor(rows[1..], recipient)
  }

  function RowsWithout(rows: seq<QueuedMessage>, recipient: string): seq<QueuedMessage> {
    if rows == [] then []
    else if rows[0].recipient == recipient then RowsWithout(rows[1..], recipient)
    else [rows[0]] + RowsWithout(rows[1..], recipient)
  }

  function Expired(rows: seq<QueuedMessage>, now: int): seq<QueuedMessage> {
    if rows == [] then []
    else if rows[0].expiresAt <= now then [rows[0]] + Expired(rows[1..], now)
    else Expired(rows[1..], now)
  }

  function Unexpired(rows: seq<QueuedMessage>, now: int): seq<QueuedMessage> {
    if rows == [] then []
    else if rows[0].expiresAt <= now then Unexpired(rows[1..], now)
    else [rows[0]] + Unexpired(rows[1..], now)
  }

  predicate Increasing(rows: seq<QueuedMessage>) {
    forall i, j | 0 <= i < j < |rows| :: rows[i].id < rows[j].id
  }

  /** The fetch takes exactly the recipient's rows, in order, and leaves exactly the others, in order. */
  lemma {:induction false} FetchPartitions(rows: seq<QueuedMessage>, recipient: string)
    requires Increasing(rows)
    ensures forall m :: m in RowsFor(rows, recipient) <==> m in rows && m.recipient == recipient
    ensures forall m :: m in RowsWithout(rows, recipient) <==> m in rows && m.recipient != recipient
    ensures Increasing(RowsFor(rows, recipient)) && Increasing(RowsWithout(rows, recipient))
    ensures |RowsFor(rows, recipient)| + |RowsWithout(rows, recipient)| == |rows|
  {
    if rows != [] {
      FetchPartitions(rows[1..], recipient);
      assert rows == [rows[0]] + rows[1..];
      if rows[0].recipient == recipient {
        HeadFirst(rows[0], RowsFor(rows[1..], recipient), rows);
      } else {
        HeadFirst(rows[0], RowsWithout(rows[1..], recipient), rows);
      }
    }
  }

  /** The clean-up takes exactly the rows whose time has come. */
  lemma {:induction false} CleanupPartitions(rows: seq<QueuedMessage>, now: int)
    requires Increasing(rows)
    ensures forall m :: m in Expired(rows, now) <==> m in rows && m.expiresAt <= now
    ensures forall m :: m in Unexpired(rows, now) <==> m in rows && m.expiresAt > now
    ensures Increasing(Expired(rows, now)) && Increasing(Unexpired(rows, now))
    ensures |Expired(rows, now)| + |Unexpired(rows, now)| == |rows|
  {
    if rows != [] {
      CleanupPartitions(rows[1..], now);
      assert rows == [rows[0]] + rows[1..];
      if rows[0].expiresAt <= now {
        HeadFirst(rows[0], Expired(rows[1..], now), rows);
      } else {
        HeadFirst(rows[0], Unexpired(rows[1..], now), rows);
      }
    }
  }

  lemma HeadFirst(head: QueuedMessage, tail: seq<QueuedMessage>, rows: seq<QueuedMessage>)
    requires rows != [] && head == rows[0] && Increasing(rows) && Increasing(tail)
    requires forall m | m in tail :: m in rows[1..]
    ensures Increasing([head] + tail)
  {
    forall j | 0 <= j < |tail|
      ensures head.id < tail[j].id
    {
      assert tail[j] in rows[1..];
    }
  }

  /** The `messages` table with its AUTOINCREMENT counter. */
  class Table {
    var rows: seq<QueuedMessage>
    var lastId: nat

    ghost predicate Valid()
      reads this
    {
      Increasing(rows) && forall m | m in rows :: 1 <= m.id <= lastId
    }

    constructor ()
      ensures Valid() && rows == [] && lastId == 0
    {
      rows, lastId := [], 0;
    }

    method Enqueue(recipient: string, payload: string, nonce: string, ttl: int, now: int, post: nat) returns (id: nat)
      requires Valid()
      modifies this
      ensures Valid() && id == lastId == old(lastId) + 1
      ensures rows == old(rows) + [QueuedMessage(id, recipient, payload, nonce, now, now + ttl, post)]
    {
      lastId := lastId + 1;
      rows := rows + [QueuedMessage(lastId, recipient, payload, nonce, now, now + ttl, post)];
      id := lastId;
    }

    /** SELECT and DELETE in one transaction. */
    method FetchAndDelete(recipient: string) returns (messages: seq<QueuedMessage>)
      requires Valid()
      modifies this`rows
      ensures Valid()
      ensures messages == RowsFor(old(rows), recipient) && rows == RowsWithout(old(rows), recipient)
      ensures Increasing(messages) && forall m :: m in messages <==> m in old(rows) && m.recipient == recipient
      ensures forall m :: m in rows <==> m in old(rows) && m.recipient != recipient
    {
      FetchPartitions(rows, recipient);
      messages := RowsFor(rows, recipient);
      if messages != [] {
        rows := RowsWithout(rows, recipient);
      } else {
        NothingFor(rows, recipient);
      }
    }

    method CleanupExpired(now: int) returns (removed: nat)
      requires Valid()
      modifies this`rows
      ensures Valid()
      ensures rows == Unexpired(old(rows), now) && removed == |Expired(old(rows), now)|
      ensures forall m :: m in rows <==> m in old(rows) && m.expiresAt > now
    {
      CleanupPartitions(rows, now);
      removed := |rows| - |Unexpired(rows, now)|;
      rows := Unexpired(rows, now);
    }
  }

  lemma {:induction false} NothingFor(rows: seq<QueuedMessage>, recipient: string)
    requires RowsFor(rows, recipient) == []
    ensures RowsWithout(rows, recipient) == rows
  {
    if rows != [] {
      NothingFor(rows[1..], recipient);
    }
  }
}
