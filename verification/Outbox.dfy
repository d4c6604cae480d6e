/** The outbox of undelivered messages: enqueueing when the socket is down, and the flush that retries. */
module Outbox {
  const MAX_ATTEMPTS := 10
  const BATCH := 20

  datatype Status = PENDING | SENT | FAILED_PERMANENTLY

  datatype Row = Row(phone: string, body: string, status: Status, attempts: nat)

  /** The rows in order of creation. */
  type Rows = seq<Row>

  ghost predicate Valid(rows: Rows) {
    && (forall i | 0 <= i < |rows| :: rows[i].status == PENDING ==> rows[i].attempts < MAX_ATTEMPTS)
    && (forall i | 0 <= i < |rows| :: rows[i].status == FAILED_PERMANENTLY ==> rows[i].attempts == MAX_ATTEMPTS)
    && (forall i, j | 0 <= i < j < |rows| && rows[i].status == PENDING && rows[j].status == PENDING ::
          rows[i].phone != rows[j].phone || rows[i].body != rows[j].body)
  }

  function Pending(rows: Rows): nat {
    if rows == [] then 0
    else Pending(rows[..|rows| - 1]) + (if rows[|rows| - 1].status == PENDING then 1 else 0)
  }

  /** The row is among the oldest pending ones that one flush takes. */
  predicate InBatch(rows: Rows, i: nat)
    requires i < |rows|
  {
    rows[i].status == PENDING && Pending(rows[..i]) < BATCH
  }

  /** One delivery attempt. */
  function Attempted(r: Row, delivered: bool): Row {
    if delivered then r.(status := SENT)
    else if r.attempts + 1 >= MAX_ATTEMPTS then r.(status := FAILED_PERMANENTLY, attempts := r.attempts + 1)
    else r.(attempts := r.attempts + 1)
  }

  /** One connected flush, when the sends of the batch succeed as told. */
  function Flushed(rows: Rows, delivers: nat -> bool): Rows {
    seq(|rows|, i requires 0 <= i < |rows| => if InBatch(rows, i) then Attempted(rows[i], delivers(i)) else rows[i])
  }

  class Box {
    var rows: Rows

    constructor ()
      ensures rows == [] && Valid(rows)
    {
      rows := [];
    }

    /** INSERT .. ON CONFLICT DO NOTHING under the unique index on pending (phone, body). */
    method Enqueue(phone: string, body: string)
      requires Valid(rows)
      modifies this
      ensures Valid(rows)
      ensures rows == if exists i | 0 <= i < |old(rows)| :: old(rows)[i] == Row(phone, body, PENDING, old(rows)[i].attempts)
                      then old(rows) else old(rows) + [Row(phone, body, PENDING, 0)]
    {
      for i := 0 to |rows|
        invariant rows == old(rows)
        invariant forall j | 0 <= j < i :: rows[j] != Row(phone, body, PENDING, rows[j].attempts)
      {
        if rows[i].status == PENDING && rows[i].phone == phone && rows[i].body == body {
          assert rows[i] == Row(phone, body, PENDING, rows[i].attempts);
          return;
        }
      }
      rows := rows + [Row(phone, body, PENDING, 0)];
    }

    /** SELECT .. WHERE status='PENDING' ORDER BY created_at LIMIT 20 */
    method OldestPending() returns (items: seq<nat>)
      ensures forall k | 0 <= k < |items| :: items[k] < |rows| && InBatch(rows, items[k])
      ensures forall k, l | 0 <= k < l < |items| :: items[k] < items[l]
      ensures forall j | 0 <= j < |rows| && InBatch(rows, j) :: j in items
    {
      items := [];
      var i := 0;
      while i < |rows| && |items| < BATCH
        invariant i <= |rows| && |items| == Pending(rows[..i]) <= BATCH
        invariant forall k | 0 <= k < |items| :: items[k] < i && InBatch(rows, items[k])
        invariant forall k, l | 0 <= k < l < |items| :: items[k] < items[l]
        invariant forall j | 0 <= j < i && InBatch(rows, j) :: j in items
      {
        assert rows[..i + 1][..i] == rows[..i];
        if rows[i].status == PENDING {
          items := items + [i];
        }
        i := i + 1;
      }
      forall j | i <= j < |rows|
        ensures !InBatch(rows, j)
      {
        PendingGrows(rows, i, j);
      }
    }

    /** One send and the update that records its outcome. */
    method Attempt(id: nat, delivered: bool)
      requires id < |rows|
      modifies this
      ensures rows == old(rows)[id := Attempted(old(rows)[id], delivered)]
    {
      if delivered {
        rows := rows[id := rows[id].(status := SENT)];
      } else if rows[id].attempts + 1 >= MAX_ATTEMPTS {
        rows := rows[id := rows[id].(status := FAILED_PERMANENTLY, attempts := rows[id].attempts + 1)];
      } else {
        rows := rows[id := rows[id].(attempts := rows[id].attempts + 1)];
      }
    }

    method FlushOutbox(connected: bool, delivers: nat -> bool)
      requires Valid(rows)
      modifies this
      ensures Valid(rows)
      ensures rows == if connected then Flushed(old(rows), delivers) else old(rows)
    {
      if !connected {
        return;
      }
      var items := OldestPending();
      for k := 0 to |items|
        invariant |rows| == |old(rows)|
        invariant forall j | 0 <= j < |rows| ::
                    rows[j] == if j in items[..k] then Attempted(old(rows)[j], delivers(j)) else old(rows)[j]
      {
        assert items[..k + 1] == items[..k] + [items[k]];
        Attempt(items[k], delivers(items[k]));
      }
      assert items[..|items|] == items;
      FlushKeepsValid(old(rows), delivers);
      assert rows == Flushed(old(rows), delivers);
    }
  }

  lemma {:induction false} PendingGrows(rows: Rows, i: nat, j: nat)
    requires i <= j <= |rows|
    ensures Pending(rows[..i]) <= Pending(rows[..j])
  {
    if i < j {
      PendingGrows(rows, i, j - 1);
      assert rows[..j][..j - 1] == rows[..j - 1];
    }
  }

  lemma FlushKeepsValid(rows: Rows, delivers: nat -> bool)
    requires Valid(rows)
    ensures Valid(Flushed(rows, delivers))
  {
    FlushedRows(rows, delivers);
  }

  lemma FlushedRows(rows: Rows, delivers: nat -> bool)
    ensures |Flushed(rows, delivers)| == |rows|
    ensures forall i | 0 <= i < |rows| ::
              Flushed(rows, delivers)[i] == if InBatch(rows, i) then Attempted(rows[i], delivers(i)) else rows[i]
  {
  }

  /** The attempts that the pending rows have left. */
  function AttemptsLeft(rows: Rows): int {
    if rows == [] then 0
    else
      var last := rows[|rows| - 1];
      AttemptsLeft(rows[..|rows| - 1]) + (if last.status == PENDING then MAX_ATTEMPTS - last.attempts else 0)
  }

  function Min(a: int, b: int): int {
    if a < b then a else b
  }

  lemma FlushedPrefix(rows: Rows, delivers: nat -> bool)
    requires rows != []
    ensures Flushed(rows, delivers)[..|rows| - 1] == Flushed(rows[..|rows| - 1], delivers)
  {
    var init := rows[..|rows| - 1];
    forall i | 0 <= i < |init|
      ensures InBatch(rows, i) == InBatch(init, i)
    {
      assert init[..i] == rows[..i];
    }
  }

  /** Each connected flush uses up at least min(20, pending) of the attempts left. */
  lemma {:induction false} FlushUsesAttempts(rows: Rows, delivers: nat -> bool)
    requires Valid(rows)
    ensures AttemptsLeft(Flushed(rows, delivers)) <= AttemptsLeft(rows) - Min(BATCH, Pending(rows))
  {
    if rows != [] {
      FlushUsesAttempts(rows[..|rows| - 1], delivers);
      FlushedPrefix(rows, delivers);
      FlushedRows(rows, delivers);
    }
  }

  lemma {:induction false} FlushNeverAddsPending(rows: Rows, delivers: nat -> bool)
    ensures Pending(Flushed(rows, delivers)) <= Pending(rows)
  {
    if rows != [] {
      FlushNeverAddsPending(rows[..|rows| - 1], delivers);
      FlushedPrefix(rows, delivers);
      FlushedRows(rows, delivers);
    }
  }

  lemma {:induction false} LeftCoversPending(rows: Rows)
    requires Valid(rows)
    ensures Pending(rows) <= AttemptsLeft(rows) <= MAX_ATTEMPTS * Pending(rows)
    ensures Pending(rows) == 0 <==> forall i | 0 <= i < |rows| :: rows[i].status != PENDING
  {
    if rows != [] {
      LeftCoversPending(rows[..|rows| - 1]);
    }
  }

  function Flushes(rows: Rows, runs: seq<nat -> bool>): Rows
    decreases |runs|
  {
    if runs == [] then rows else Flushes(Flushed(rows, runs[0]), runs[1..])
  }

  /** When the batch holds every pending row, each flush costs every one of them an attempt. */
  lemma {:induction false} SmallQueueEmpties(rows: Rows, runs: seq<nat -> bool>, left: nat)
    requires Valid(rows) && Pending(rows) <= BATCH && left <= |runs|
    requires forall i | 0 <= i < |rows| && rows[i].status == PENDING :: MAX_ATTEMPTS - rows[i].attempts <= left
    ensures Valid(Flushes(rows, runs)) && Pending(Flushes(rows, runs)) == 0
    decreases |runs|
  {
    LeftCoversPending(rows);
    if runs != [] {
      var next := Flushed(rows, runs[0]);
      FlushKeepsValid(rows, runs[0]);
      FlushNeverAddsPending(rows, runs[0]);
      forall i | 0 <= i < |rows| && rows[i].status == PENDING
        ensures InBatch(rows, i)
      {
        assert rows[..i + 1][..i] == rows[..i];
        PendingGrows(rows, i + 1, |rows|);
        assert rows[..|rows|] == rows;
      }
      FlushedRows(rows, runs[0]);
      SmallQueueEmpties(next, runs[1..], if left == 0 then 0 else left - 1);
    }
  }

  /** A single flusher and nothing added: after one connected flush for every twenty attempts left, and ten
      more, the queue is empty, whatever fails; every message then is sent or has failed exactly ten times. */
  lemma {:induction false} QueueDrains(rows: Rows, runs: seq<nat -> bool>)
    requires Valid(rows) && BATCH * |runs| >= AttemptsLeft(rows) + BATCH * MAX_ATTEMPTS
    ensures
      var end := Flushes(rows, runs);
      && |end| == |rows|
      && forall i | 0 <= i < |end| ::
           end[i].status == SENT || (end[i].status == FAILED_PERMANENTLY && end[i].attempts == MAX_ATTEMPTS)
    decreases |runs|
  {
    LeftCoversPending(rows);
    FlushesKeepRows(rows, runs);
    if Pending(rows) <= BATCH {
      SmallQueueEmpties(rows, runs, MAX_ATTEMPTS);
      LeftCoversPending(Flushes(rows, runs));
    } else {
      FlushKeepsValid(rows, runs[0]);
      FlushUsesAttempts(rows, runs[0]);
      QueueDrains(Flushed(rows, runs[0]), runs[1..]);
    }
  }

  lemma {:induction false} FlushesKeepRows(rows: Rows, runs: seq<nat -> bool>)
    ensures |Flushes(rows, runs)| == |rows|
    decreases |runs|
  {
    if runs != [] {
      FlushesKeepRows(Flushed(rows, runs[0]), runs[1..]);
    }
  }
}
