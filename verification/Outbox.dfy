/** The outbox table: its rows, counted by status, and the batch query. */
module OutboxTable {
  import opened Types
  import opened Extraction

  datatype RowStatus = PENDING | PUBLISHED | FAILED

  /** A committed row; its id is its index, ids being handed out in commit order. */
  datatype Row = Row(topic: string, messageId: Id, payload: Body, status: RowStatus)

  type Rows = seq<Row>

  function Count(rows: Rows, st: RowStatus): nat {
    if |rows| == 0 then 0
    else Count(rows[..|rows| - 1], st) + if rows[|rows| - 1].status == st then 1 else 0
  }

  lemma {:induction false} EveryRowCounted(rows: Rows)
    ensures Count(rows, PENDING) + Count(rows, PUBLISHED) + Count(rows, RowStatus.FAILED) == |rows|
  {
    if |rows| > 0 {
      EveryRowCounted(rows[..|rows| - 1]);
    }
  }

  lemma {:induction false} CountSet(rows: Rows, i: nat, row: Row, st: RowStatus)
    requires i < |rows|
    ensures Count(rows[i := row], st) + One(rows[i].status == st) == Count(rows, st) + One(row.status == st)
  {
    var n := |rows| - 1;
    if i < n {
      CountSet(rows[..n], i, row, st);
      assert rows[i := row][..n] == rows[..n][i := row];
    } else {
      assert rows[i := row][..n] == rows[..n];
    }
  }

  ghost predicate Increasing(ids: seq<nat>) {
    forall i, j :: 0 <= i < j < |ids| ==> ids[i] < ids[j]
  }

  /** The rows a batch may take: PENDING and not locked by another transaction. */
  predicate Free(rows: Rows, locked: set<nat>, i: nat) {
    i < |rows| && rows[i].status == PENDING && i !in locked
  }

  /** `ORDER BY id LIMIT limit FOR UPDATE SKIP LOCKED`, from row `i` on. */
  function Fetch(rows: Rows, locked: set<nat>, i: nat, limit: nat): (ids: seq<nat>)
    requires i <= |rows|
    ensures |ids| <= limit && Increasing(ids)
    ensures forall k :: 0 <= k < |ids| ==> i <= ids[k] && Free(rows, locked, ids[k])
    decreases |rows| - i
  {
    if limit == 0 || i == |rows| then []
    else if Free(rows, locked, i) then [i] + Fetch(rows, locked, i + 1, limit - 1)
    else Fetch(rows, locked, i + 1, limit)
  }

  /** A free row is left out only behind a full batch of lower rows. */
  lemma {:induction false} FetchTakesLowest(rows: Rows, locked: set<nat>, i: nat, limit: nat, j: nat)
    requires i <= |rows| && i <= j && Free(rows, locked, j) && j !in Fetch(rows, locked, i, limit)
    ensures |Fetch(rows, locked, i, limit)| == limit
    ensures forall k :: 0 <= k < limit ==> Fetch(rows, locked, i, limit)[k] < j
    decreases |rows| - i
  {
    if limit > 0 {
      var rest := Fetch(rows, locked, i + 1, if Free(rows, locked, i) then limit - 1 else limit);
      assert i != j && j !in rest;
      FetchTakesLowest(rows, locked, i + 1, if Free(rows, locked, i) then limit - 1 else limit, j);
    }
  }

  lemma {:induction false} CountPrefix(rows: Rows, i: nat, st: RowStatus)
    requires i < |rows|
    ensures Count(rows[..i + 1], st) == Count(rows[..i], st) + One(rows[i].status == st)
  {
    assert rows[..i + 1][..i] == rows[..i];
  }

  /** Without locks a batch takes as many rows as there are, up to the limit. */
  lemma {:induction false} FetchSize(rows: Rows, i: nat, limit: nat)
    requires i <= |rows|
    ensures var left := Count(rows, PENDING) - Count(rows[..i], PENDING);
            |Fetch(rows, {}, i, limit)| == if left < limit then left else limit
    decreases |rows| - i
  {
    if i == |rows| {
      assert rows[..i] == rows;
    } else {
      CountPrefix(rows, i, PENDING);
      PrefixCount(rows, i + 1);
      if limit > 0 {
        FetchSize(rows, i + 1, if Free(rows, {}, i) then limit - 1 else limit);
      } else {
        PrefixCount(rows, i);
      }
    }
  }

  lemma {:induction false} PrefixCount(rows: Rows, i: nat)
    requires i <= |rows|
    ensures Count(rows[..i], PENDING) <= Count(rows, PENDING)
    decreases |rows| - i
  {
    if i == |rows| {
      assert rows[..i] == rows;
    } else {
      CountPrefix(rows, i, PENDING);
      PrefixCount(rows, i + 1);
    }
  }

  ghost predicate DistinctIds(rows: Rows) {
    forall i, j :: 0 <= i < j < |rows| ==> rows[i].messageId != rows[j].messageId
  }

  ghost function MessageIds(rows: Rows): set<Id> { set row | row in rows :: row.messageId }

  lemma {:induction false} RowsAreIds(rows: Rows)
    requires DistinctIds(rows)
    ensures |MessageIds(rows)| == |rows|
  {
    if |rows| > 0 {
      var n := |rows| - 1;
      RowsAreIds(rows[..n]);
      assert rows == rows[..n] + [rows[n]];
      assert MessageIds(rows) == MessageIds(rows[..n]) + {rows[n].messageId};
      assert rows[n].messageId !in MessageIds(rows[..n]);
    }
  }
}

/** The writer and one relay at work on the table. */
module Outbox {
  import opened Types
  import opened Extraction
  import opened OutboxTable

  /** What the relay does with one row, in the order it does it. */
  datatype Action = Sent(id: nat) | Marked(id: nat, status: RowStatus)

  class Database {
    var rows: Rows
    ghost var actions: seq<Action>
    // What happens outside: sends attempted, sends the broker stored, exceptions raised to the relay.
    var sent: seq<nat>
    var stored: seq<nat>
    var raised: nat

    constructor ()
      ensures rows == [] && actions == [] && sent == [] && stored == [] && raised == 0
    {
      actions := [];
      rows, sent, stored, raised := [], [], [], 0;
    }

    /** `send_and_wait`: a send that raises may have been stored all the same. */
    method SendAndWait(id: nat) returns (raises: bool)
      modifies this`sent, this`stored, this`raised, this`actions
      ensures actions == old(actions) + [Sent(id)]
      ensures sent == old(sent) + [id] && raised == old(raised) + One(raises)
      ensures stored == old(stored) + [id] || (raises && stored == old(stored))
    {
      raises := *;
      var lost: bool := *;
      sent, actions := sent + [id], actions + [Sent(id)];
      if !raises || !lost { stored := stored + [id]; }
      raised := raised + One(raises);
    }

    /** The two UPDATE statements of the relay. */
    method Execute(id: nat, status: RowStatus) returns (raises: bool)
      requires id < |rows|
      modifies this`rows, this`raised, this`actions
      ensures raised == old(raised) + One(raises) && actions == old(actions) + [Marked(id, status)]
      ensures rows == if raises then old(rows) else old(rows)[id := old(rows)[id].(status := status)]
    {
      raises := *;
      if !raises { rows := rows[id := rows[id].(status := status)]; }
      actions := actions + [Marked(id, status)];
      raised := raised + One(raises);
    }

    /** The batch query; it changes nothing but may raise. */
    method FetchBatch(limit: nat) returns (ids: seq<nat>, raises: bool)
      modifies this`raised
      ensures raised == old(raised) + One(raises)
      ensures ids == Fetch(rows, {}, 0, limit)
    {
      raises := *;
      ids := Fetch(rows, {}, 0, limit);
      raised := raised + One(raises);
    }

    /** The end of a transaction begun on `before`: a commit that raises has taken effect, or all is rolled back. */
    method Commit(before: Rows) returns (raises: bool, ghost applied: bool)
      modifies this`rows, this`raised
      ensures raised == old(raised) + One(raises)
      ensures !raises ==> applied
      ensures rows == if applied then old(rows) else before
    {
      raises := *;
      var undone: bool := *;
      if raises && undone { rows := before; }
      applied := !(raises && undone);
      raised := raised + One(raises);
    }

    /** `OutboxWriter.write`: `ON CONFLICT (message_id) DO NOTHING`. */
    method Write(topic: string, messageId: Id, payload: Body)
      requires DistinctIds(rows)
      modifies this`rows
      ensures DistinctIds(rows)
      ensures MessageIds(rows) == MessageIds(old(rows)) + {messageId}
      ensures rows == if messageId in MessageIds(old(rows)) then old(rows)
                      else old(rows) + [Row(topic, messageId, payload, PENDING)]
    {
      for i := 0 to |rows|
        invariant forall j :: 0 <= j < i ==> rows[j].messageId != messageId
        invariant rows == old(rows)
      {
        if rows[i].messageId == messageId {
          assert rows[i] in rows;
          return;
        }
      }
      rows := rows + [Row(topic, messageId, payload, PENDING)];
    }
  }

  class OutboxRelay {
    const db: Database
    const batchSize: nat
    var running: bool

    constructor (db: Database, batchSize: nat)
      ensures this.db == db && this.batchSize == batchSize && !running
    {
      this.db, this.batchSize := db, batchSize;
      running := false;
    }

    /**
     The batch of one transaction: every row it locked is settled, or nothing of it stays but its sends.
     `marked` rows are newly PUBLISHED; if the reply to the commit is lost, the caller is not told of them.
     */
    method ProcessBatch() returns (published: nat, raises: bool, ghost committed: bool, ghost marked: nat)
      modifies db
      ensures |db.rows| == |old(db.rows)|
      ensures !raises ==> committed && published == marked
      ensures raises ==> published == 0 && db.raised > old(db.raised)
      ensures !committed ==> db.rows == old(db.rows) && marked == 0
      ensures committed ==> Settled(old(db.rows), db.rows, Batch(old(db.rows)), marked)
      ensures committed ==> db.sent == old(db.sent) + Batch(old(db.rows))
      ensures old(db.sent) <= db.sent <= old(db.sent) + Batch(old(db.rows))
      // PUBLISHED rows are at the broker, and all are PUBLISHED exactly if nothing raised.
      ensures committed ==> Delivered(db.rows, Batch(old(db.rows)), db.stored)
      ensures !raises ==> (published == |Batch(old(db.rows))| <==> db.raised == old(db.raised))
    {
      var before := db.rows;
      var ids;
      ids, raises := db.FetchBatch(batchSize);
      if raises {
        return 0, true, false, 0;
      }
      published, raises := DeliverAll(ids);
      if raises {
        db.rows := before;
        return 0, true, false, 0;
      }
      AllDone(before, db.rows, ids, published, db.stored);
      raises, committed := db.Commit(before);
      marked := if committed then published else 0;
      if raises { published := 0; }
    }

    /** The rows of the batch one by one, up to the first whose mark of FAILED raises. */
    method DeliverAll(ids: seq<nat>) returns (published: nat, raises: bool)
      requires Increasing(ids)
      requires forall k :: 0 <= k < |ids| ==> ids[k] < |db.rows| && db.rows[ids[k]].status == PENDING
      modifies db
      ensures old(db.sent) <= db.sent <= old(db.sent) + ids && old(db.raised) <= db.raised
      ensures raises ==> db.raised > old(db.raised)
      ensures !raises ==>
                && |db.rows| == |old(db.rows)|
                && Progress(old(db.rows), db.rows, ids, |ids|, published, db.stored)
                && db.sent == old(db.sent) + ids
                && (published == |ids| <==> db.raised == old(db.raised))
    {
      ghost var before := db.rows;
      published := 0;
      NothingDone(before, ids, db.stored);
      for j := 0 to |ids|
        invariant |db.rows| == |before| && Progress(before, db.rows, ids, j, published, db.stored)
        invariant db.sent == old(db.sent) + ids[..j]
        invariant published <= j && old(db.raised) <= db.raised && (published == j <==> db.raised == old(db.raised))
      {
        ghost var now, stored := db.rows, db.stored;
        var outcome := Deliver(ids[j]);
        NextSent(old(db.sent), ids, j);
        if outcome.None? {
          return 0, true;
        }
        SettleOne(before, now, ids, j, outcome.value, published, stored, db.stored);
        published := published + One(outcome == Some(PUBLISHED));
      }
      assert ids[..|ids|] == ids;
      return published, false;
    }

    /** Sends one row and marks it: FAILED exactly after an exception, and `None` when that mark raises too. */
    method Deliver(id: nat) returns (outcome: Option<RowStatus>)
      requires id < |db.rows|
      modifies db
      ensures db.sent == old(db.sent) + [id] && old(db.stored) <= db.stored && old(db.raised) <= db.raised
      ensures outcome.None? ==> db.rows == old(db.rows)
      ensures outcome.Some? ==>
                && outcome.value != PENDING
                && db.rows == old(db.rows)[id := old(db.rows)[id].(status := outcome.value)]
      ensures outcome == Some(PUBLISHED) <==> db.raised == old(db.raised)
      ensures outcome == Some(PUBLISHED) ==> id in db.stored
      ensures SentThenMarked(old(db.actions), db.actions, id, outcome)
    {
      var raises := db.SendAndWait(id);
      if !raises {
        raises := db.Execute(id, PUBLISHED);
      }
      if !raises {
        return Some(PUBLISHED);
      }
      raises := db.Execute(id, RowStatus.FAILED);
      return if raises then None else Some(RowStatus.FAILED);
    }

    /**
     The send comes first, then the mark of PUBLISHED if it did not raise; the mark of FAILED follows an exception. (The
     quantifier keeps callers from unfolding this.)
     */
    static ghost predicate SentThenMarked(
      before: seq<Action>, after: seq<Action>, id: nat, outcome: Option<RowStatus>)
    {
      forall n: nat :: n == |before| ==>
        && before <= after
        && if outcome == Some(PUBLISHED) then after[n..] == [Sent(id), Marked(id, PUBLISHED)]
           else
             || after[n..] == [Sent(id), Marked(id, RowStatus.FAILED)]
             || after[n..] == [Sent(id), Marked(id, PUBLISHED), Marked(id, RowStatus.FAILED)]
    }

    /** The first `j` rows of the batch are settled. (The quantifier keeps callers from unfolding this.) */
    static ghost predicate Progress(
      before: Rows, now: Rows, ids: seq<nat>, j: nat, published: nat, stored: seq<nat>)
    {
      forall m: nat :: m == j ==>
        m <= |ids| && Settled(before, now, ids[..m], published) && Delivered(now, ids[..m], stored)
    }

    static lemma AllDone(before: Rows, now: Rows, ids: seq<nat>, published: nat, stored: seq<nat>)
      requires Progress(before, now, ids, |ids|, published, stored)
      ensures Settled(before, now, ids, published) && Delivered(now, ids, stored)
    {
      assert ids[..|ids|] == ids;
    }

    static lemma NothingDone(before: Rows, ids: seq<nat>, stored: seq<nat>)
      ensures Progress(before, before, ids, 0, 0, stored)
    {
      assert ids[..0] == [];
    }

    static lemma NextSent(sent: seq<nat>, ids: seq<nat>, j: nat)
      requires j < |ids|
      ensures sent + ids[..j] + [ids[j]] == sent + ids[..j + 1] <= sent + ids
    {
      assert ids[..j + 1] == ids[..j] + [ids[j]];
      assert ids == ids[..j + 1] + ids[j + 1..];
      assert sent + ids == (sent + ids[..j + 1]) + ids[j + 1..];
    }

    static lemma SettleOne(
      before: Rows, now: Rows, ids: seq<nat>, j: nat, st: RowStatus, published: nat,
      stored: seq<nat>, stored': seq<nat>)
      requires j < |ids| && Increasing(ids) && ids[j] < |before| && before[ids[j]].status == PENDING && st != PENDING
      requires |now| == |before| && Progress(before, now, ids, j, published, stored)
      requires stored <= stored' && (st == PUBLISHED ==> ids[j] in stored')
      ensures Progress(before, now[ids[j] := now[ids[j]].(status := st)], ids, j + 1,
                       published + One(st == PUBLISHED), stored')
    {
      assert Settled(before, now, ids[..j], published) && Delivered(now, ids[..j], stored);
      var id := ids[j];
      assert ids[..j + 1] == ids[..j] + [id];
      assert id !in ids[..j];
      CountSet(now, id, now[id].(status := st), PENDING);
      CountSet(now, id, now[id].(status := st), PUBLISHED);
    }

    function Batch(rows: Rows): seq<nat> { Fetch(rows, {}, 0, batchSize) }

    static ghost predicate SameBut(a: Row, b: Row) { b == a.(status := b.status) }

    static ghost predicate Delivered(rows: Rows, ids: seq<nat>, stored: seq<nat>) {
      forall i :: i in ids && i < |rows| && rows[i].status == PUBLISHED ==> i in stored
    }

    static ghost predicate Settled(before: Rows, after: Rows, ids: seq<nat>, published: nat) {
      && |after| == |before|
      && (forall i :: 0 <= i < |before| ==>
        if i in ids then after[i].status != PENDING && SameBut(before[i], after[i]) else after[i] == before[i])
      && Count(after, PENDING) + |ids| == Count(before, PENDING)
      && Count(after, PUBLISHED) == Count(before, PUBLISHED) + published
    }

    /** Rows still PENDING lie above everything sent so far. */
    static ghost predicate Ahead(rows: Rows, sends: seq<nat>) {
      forall i, k :: 0 <= i < |rows| && rows[i].status == PENDING && 0 <= k < |sends| ==> sends[k] < i
    }

    /** One round of the loop, seen by the counts and by the order of the sends since `n`. */
    method Poll(ghost n: nat) returns (published: nat, raises: bool, ghost committed: bool, ghost marked: nat)
      requires n <= |db.sent|
      modifies db
      ensures |db.rows| == |old(db.rows)| && old(db.sent) <= db.sent
      ensures !raises ==> committed && published == marked
      ensures raises ==> published == 0
      ensures !committed ==> db.rows == old(db.rows) && marked == 0
      ensures committed ==>
                var pending := Count(old(db.rows), PENDING);
                && Count(db.rows, PENDING) == (if pending < batchSize then 0 else pending - batchSize)
                && Count(db.rows, PUBLISHED) == Count(old(db.rows), PUBLISHED) + marked
                && (Increasing(old(db.sent[n..])) && Ahead(old(db.rows), old(db.sent[n..])) ==>
                  Increasing(db.sent[n..]) && Ahead(db.rows, db.sent[n..]))
    {
      ghost var rows, sends := db.rows, db.sent[n..];
      published, raises, committed, marked := ProcessBatch();
      if committed {
        FetchSize(rows, 0, batchSize);
        assert rows[..0] == [];
        assert db.sent[n..] == sends + Batch(rows);
        if Increasing(sends) && Ahead(rows, sends) {
          NextBatchAhead(rows, db.rows, sends, Batch(rows), marked);
        }
      }
    }

    /**
     The first `polls` rounds of `_loop`, with `stop` called after `stopAfter` of them; nothing else ends it. A round
     that raises or publishes nothing is followed by a sleep. `told` has the counts the rounds returned, 0 for one
     that raised: its batch is rolled back, or committed and its rows `untold`.
     */
    method Loop(polls: nat, stopAfter: nat)
      returns (total: nat, errors: nat, sleeps: nat, ghost batches: nat, ghost rollbacks: nat, ghost untold: nat,
               ghost told: seq<nat>)
      modifies this, db
      ensures |db.rows| == |old(db.rows)|
      ensures |told| == batches + rollbacks == if polls <= stopAfter then polls else stopAfter
      ensures running <==> polls <= stopAfter
      // N rows are gone after ceil(N / batchSize) committed batches and not before, whatever sends failed.
      ensures Count(db.rows, PENDING) == Rest(Count(old(db.rows), PENDING), batches, batchSize)
      ensures Count(db.rows, PUBLISHED) == Count(old(db.rows), PUBLISHED) + total + untold
      ensures Count(db.rows, PENDING) + Count(db.rows, PUBLISHED) + Count(db.rows, RowStatus.FAILED) == |db.rows|
      ensures old(db.sent) <= db.sent
      ensures rollbacks == 0 ==> Increasing(db.sent[|old(db.sent)|..])
      ensures rollbacks <= errors <= |told| && (errors == 0 ==> untold == 0)
      ensures total == Sum(told) && sleeps == Zeros(told)
    {
      ghost var n := |db.sent|;
      running := true;
      total, errors, sleeps, batches, rollbacks, untold, told := 0, 0, 0, 0, 0, 0, [];
      for round := 0 to polls
        invariant |db.rows| == |old(db.rows)| && old(db.sent) <= db.sent && n == |old(db.sent)|
        invariant running && |told| == batches + rollbacks == round <= stopAfter
        invariant rollbacks <= errors <= round && (errors == 0 ==> untold == 0)
        invariant Count(db.rows, PENDING) == Rest(Count(old(db.rows), PENDING), batches, batchSize)
        invariant Count(db.rows, PUBLISHED) == Count(old(db.rows), PUBLISHED) + total + untold
        invariant rollbacks == 0 ==> Increasing(db.sent[n..]) && Ahead(db.rows, db.sent[n..])
        invariant total == Sum(told) && sleeps == Zeros(told)
      {
        if round == stopAfter {
          running := false;
          break;
        }
        var published, raises;
        ghost var committed, marked;
        published, raises, committed, marked := Poll(n);
        if raises { errors := errors + 1; }
        if published == 0 { sleeps := sleeps + 1; }
        total := total + published;
        SumStep(told, published);
        RestStep(Count(old(db.rows), PENDING), batches, batchSize);
        batches, rollbacks := batches + One(committed), rollbacks + One(!committed);
        untold, told := untold + marked - published, told + [published];
      }
      EveryRowCounted(db.rows);
    }

    static function Sum(ns: seq<nat>): nat {
      if |ns| == 0 then 0 else Sum(ns[..|ns| - 1]) + ns[|ns| - 1]
    }

    static function Zeros(ns: seq<nat>): nat {
      if |ns| == 0 then 0 else Zeros(ns[..|ns| - 1]) + One(ns[|ns| - 1] == 0)
    }

    static lemma SumStep(ns: seq<nat>, n: nat)
      ensures Sum(ns + [n]) == Sum(ns) + n && Zeros(ns + [n]) == Zeros(ns) + One(n == 0)
    {
      assert (ns + [n])[..|ns|] == ns;
    }

    lemma {:induction false} NextBatchAhead(rows: Rows, rows': Rows, sends: seq<nat>, ids: seq<nat>, published: nat)
      requires ids == Batch(rows) && Settled(rows, rows', ids, published)
      requires Increasing(sends) && Ahead(rows, sends)
      ensures Increasing(sends + ids) && Ahead(rows', sends + ids)
    {
      forall i, k | 0 <= i < |rows'| && rows'[i].status == PENDING && 0 <= k < |sends + ids|
        ensures (sends + ids)[k] < i
      {
        assert i !in ids && Free(rows, {}, i);
        FetchTakesLowest(rows, {}, 0, batchSize, i);
      }
    }
  }

  /** What `batches` batches of size `b` leave of `n` rows. */
  function Rest(n: nat, batches: nat, b: nat): nat {
    if n <= batches * b then 0 else n - batches * b
  }

  lemma {:induction false} RestStep(n: nat, batches: nat, b: nat)
    ensures Rest(n, batches + 1, b) == if Rest(n, batches, b) < b then 0 else Rest(n, batches, b) - b
  {
    assert (batches + 1) * b == batches * b + b;
  }

  /** The rows are drained exactly from batch ceil(n / b) on. */
  lemma {:induction false} DrainedExactly(n: nat, batches: nat, b: nat)
    requires b >= 1
    ensures Rest(n, batches, b) == 0 <==> (n + b - 1) / b <= batches
  {
    var q := (n + b - 1) / b;
    assert q * b <= n + b - 1 < q * b + b;
    if q <= batches {
      assert q * b <= batches * b;
    } else {
      assert (batches + 1) * b <= q * b;
      assert (batches + 1) * b == batches * b + b;
    }
  }
}
