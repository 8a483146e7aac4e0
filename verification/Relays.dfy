/** Any number of relays and writers on one outbox: overlapping transactions, crashes and rollbacks. */
module Relays {
  import opened Types
  import opened Extraction
  import opened OutboxTable

  /** Where a transaction stands with the row `ids[next]`. */
  datatype Stage = ToSend | ToPublish | ToFail

  datatype Tx =
    | NoTx
    | Open(ids: seq<nat>, next: nat, stage: Stage, writes: map<nat, RowStatus>)

  datatype Draft = Draft(topic: string, messageId: Id, payload: Body)

  datatype State = State(
    rows: Rows,                        // committed
    drafts: map<nat, seq<Draft>>,      // inserts of open writer transactions
    relays: map<nat, Tx>,
    topic: seq<nat>)                   // row ids the broker has stored, in order

  datatype Step =
    | Insert(w: nat, draft: Draft)
    | CommitInserts(w: nat)
    | AbortInserts(w: nat)
    | FetchBatch(r: nat, limit: nat)
    | Send(r: nat, stored: bool, raises: bool)
    | Mark(r: nat, raises: bool)
    | CommitBatch(r: nat)
    | Rollback(r: nat)

  function LockedBy(tx: Tx): set<nat> {
    if tx.Open? then set i | i in tx.ids else {}
  }

  function Locked(s: State): set<nat> {
    set r, i | r in s.relays && i in LockedBy(s.relays[r]) :: i
  }

  predicate Busy(s: State, r: nat) { r in s.relays && s.relays[r].Open? }

  predicate Taken(s: State, messageId: Id) {
    || (exists row :: row in s.rows && row.messageId == messageId)
    || (exists w :: w in s.drafts && exists d :: d in s.drafts[w] && d.messageId == messageId)
  }

  predicate Enabled(s: State, st: Step) {
    match st
    // A conflicting insert waits for an open writer, and does nothing against a committed row.
    case Insert(w, draft) => w in s.drafts && !Taken(s, draft.messageId)
    case CommitInserts(w) => w in s.drafts
    case AbortInserts(w) => w in s.drafts
    case FetchBatch(r, _) => r in s.relays && s.relays[r].NoTx?
    case Send(r, stored, raises) =>
      Busy(s, r) && s.relays[r].stage.ToSend? && s.relays[r].next < |s.relays[r].ids| && (raises || stored)
    case Mark(r, _) => Busy(s, r) && !s.relays[r].stage.ToSend? && s.relays[r].next < |s.relays[r].ids|
    case CommitBatch(r) => Busy(s, r) && s.relays[r].stage.ToSend? && s.relays[r].next == |s.relays[r].ids|
    case Rollback(r) => Busy(s, r)
  }

  function Committed(drafts: seq<Draft>): Rows {
    seq(|drafts|, i requires 0 <= i < |drafts| =>
      Row(drafts[i].topic, drafts[i].messageId, drafts[i].payload, PENDING))
  }

  function Flushed(rows: Rows, writes: map<nat, RowStatus>): Rows {
    seq(|rows|, i requires 0 <= i < |rows| => if i in writes then rows[i].(status := writes[i]) else rows[i])
  }

  /** A failing mark of PUBLISHED falls through to the mark of FAILED; a failing mark of FAILED ends the transaction. */
  function Marked(tx: Tx, raises: bool): Tx
    requires tx.Open? && !tx.stage.ToSend? && tx.next < |tx.ids|
  {
    if raises then (if tx.stage.ToPublish? then tx.(stage := ToFail) else NoTx)
    else tx.(writes := tx.writes[tx.ids[tx.next] := if tx.stage.ToPublish? then PUBLISHED else RowStatus.FAILED],
             next := tx.next + 1, stage := ToSend)
  }

  function Next(s: State, st: Step): State
    requires Enabled(s, st)
  {
    match st
    case Insert(w, draft) => s.(drafts := s.drafts[w := s.drafts[w] + [draft]])
    case CommitInserts(w) => s.(rows := s.rows + Committed(s.drafts[w]), drafts := s.drafts[w := []])
    case AbortInserts(w) => s.(drafts := s.drafts[w := []])
    case FetchBatch(r, limit) =>
      s.(relays := s.relays[r := Open(Fetch(s.rows, Locked(s), 0, limit), 0, ToSend, map[])])
    case Send(r, stored, raises) =>
      var tx := s.relays[r];
      s.(topic := if stored then s.topic + [tx.ids[tx.next]] else s.topic,
         relays := s.relays[r := tx.(stage := if raises then ToFail else ToPublish)])
    case Mark(r, raises) => s.(relays := s.relays[r := Marked(s.relays[r], raises)])
    case CommitBatch(r) => s.(rows := Flushed(s.rows, s.relays[r].writes), relays := s.relays[r := NoTx])
    case Rollback(r) => s.(relays := s.relays[r := NoTx])
  }

  datatype Run = Begins | Extend(prefix: Run, step: Step)

  ghost predicate Initial(s: State) {
    && s.rows == [] && s.topic == []
    && (forall r :: r in s.relays ==> s.relays[r] == NoTx)
    && (forall w :: w in s.drafts ==> s.drafts[w] == [])
  }

  /** The state a legal run reaches. */
  function After(s0: State, r: Run): Option<State> {
    if r.Begins? then Some(s0)
    else
      var s := After(s0, r.prefix);
      if s.Some? && Enabled(s.value, r.step) then Some(Next(s.value, r.step)) else None
  }

  // ---------------------------------------------------------------- what every state keeps

  ghost predicate GoodTx(s: State, tx: Tx) {
    tx.Open? ==>
      && tx.next <= |tx.ids| && Increasing(tx.ids)
      && (tx.next == |tx.ids| ==> tx.stage.ToSend?)
      && (forall k :: 0 <= k < |tx.ids| ==> tx.ids[k] < |s.rows| && s.rows[tx.ids[k]].status == PENDING)
      && tx.writes.Keys == (set i | i in tx.ids[..tx.next])
      && (forall i :: i in tx.writes ==> tx.writes[i] != PENDING && (tx.writes[i] == PUBLISHED ==> i in s.topic))
      && (tx.stage.ToPublish? ==> tx.ids[tx.next] in s.topic)
  }

  ghost predicate Disjoint(s: State) {
    forall q, r | q in s.relays && r in s.relays && q != r :: LockedBy(s.relays[q]) !! LockedBy(s.relays[r])
  }

  /** Rows of open transactions are disjoint and PENDING; PUBLISHED rows were sent; only committed rows were sent. */
  ghost predicate Good(s: State) {
    && Disjoint(s)
    && (forall r :: r in s.relays ==> GoodTx(s, s.relays[r]))
    && (forall i :: 0 <= i < |s.rows| && s.rows[i].status == PUBLISHED ==> i in s.topic)
    && (forall i :: i in s.topic ==> i < |s.rows|)
  }

  lemma {:induction false} LocksStep(s: State, st: Step)
    requires Good(s) && Enabled(s, st)
    ensures Disjoint(Next(s, st))
  {
    var s' := Next(s, st);
    forall q, r | q in s'.relays && r in s'.relays && q != r
      ensures LockedBy(s'.relays[q]) !! LockedBy(s'.relays[r])
    {
      assert LockedBy(s.relays[q]) !! LockedBy(s.relays[r]);
      if st.FetchBatch? && (st.r == q || st.r == r) {
        var other := if st.r == q then r else q;
        assert forall i :: i in LockedBy(s.relays[other]) ==> i in Locked(s);
      }
    }
  }

  /** A transaction of its own relay after a step. */
  lemma {:induction false} ActingTx(s: State, st: Step, r: nat)
    requires Good(s) && Enabled(s, st)
    requires (st.FetchBatch? || st.Send? || st.Mark?) && st.r == r
    ensures GoodTx(Next(s, st), Next(s, st).relays[r])
  {
    assert GoodTx(s, s.relays[r]);
    var tx, tx' := s.relays[r], Next(s, st).relays[r];
    if tx.Open? && tx'.Open? && tx'.next == tx.next + 1 {
      assert tx.ids[..tx'.next] == tx.ids[..tx.next] + [tx.ids[tx.next]];
    }
  }

  /** A transaction another process leaves alone. */
  lemma {:induction false} IdleTx(s: State, st: Step, r: nat)
    requires Good(s) && Enabled(s, st) && r in s.relays
    requires !((st.FetchBatch? || st.Send? || st.Mark?) && st.r == r)
    ensures GoodTx(Next(s, st), Next(s, st).relays[r])
  {
    assert GoodTx(s, s.relays[r]);
    var tx := s.relays[r];
    if tx.Open? && st.CommitBatch? && st.r != r {
      assert GoodTx(s, s.relays[st.r]);
      forall k | 0 <= k < |tx.ids| ensures tx.ids[k] !in s.relays[st.r].writes {
        assert tx.ids[k] in LockedBy(tx);
        assert LockedBy(tx) !! LockedBy(s.relays[st.r]);
      }
    }
  }

  lemma {:induction false} GoodStep(s: State, st: Step)
    requires Good(s) && Enabled(s, st)
    ensures Good(Next(s, st))
  {
    var s' := Next(s, st);
    LocksStep(s, st);
    forall r | r in s'.relays ensures GoodTx(s', s'.relays[r]) {
      if (st.FetchBatch? || st.Send? || st.Mark?) && st.r == r {
        ActingTx(s, st, r);
      } else {
        IdleTx(s, st, r);
      }
    }
    if st.CommitBatch? || st.Send? {
      assert GoodTx(s, s.relays[st.r]);
    }
  }

  /** Any interleaving of overlapping batches, crashes and rollbacks keeps the outbox good. */
  lemma {:induction false} OutboxStaysGood(s0: State, r: Run)
    requires Initial(s0) && After(s0, r).Some?
    ensures Good(After(s0, r).value)
  {
    if r.Extend? {
      OutboxStaysGood(s0, r.prefix);
      GoodStep(After(s0, r.prefix).value, r.step);
    }
  }

  // ---------------------------------------------------------------- a row's status over a run

  ghost predicate Continues(r: Run, later: Run) {
    later == r || (later.Extend? && Continues(r, later.prefix))
  }

  /** A committed row keeps everything but its status, and its status changes only from PENDING. */
  ghost predicate RowMoves(a: Row, b: Row) {
    b == a.(status := b.status) && (a.status != PENDING ==> b.status == a.status)
  }

  lemma {:induction false} RowStep(s: State, st: Step, i: nat)
    requires Good(s) && Enabled(s, st) && i < |s.rows|
    ensures i < |Next(s, st).rows| && RowMoves(s.rows[i], Next(s, st).rows[i])
  {
    if st.CommitBatch? {
      assert GoodTx(s, s.relays[st.r]);
    }
  }

  /** The committed status of a row leaves PENDING at most once and never returns. */
  lemma {:induction false} LeavesPendingOnce(s0: State, r: Run, later: Run, i: nat)
    requires Initial(s0) && After(s0, later).Some? && Continues(r, later) && After(s0, r).Some?
    requires i < |After(s0, r).value.rows|
    ensures i < |After(s0, later).value.rows|
    ensures RowMoves(After(s0, r).value.rows[i], After(s0, later).value.rows[i])
  {
    if later != r {
      LeavesPendingOnce(s0, r, later.prefix, i);
      OutboxStaysGood(s0, later.prefix);
      RowStep(After(s0, later.prefix).value, later.step, i);
    }
  }

  // ---------------------------------------------------------------- how often a row is sent

  predicate SendsRow(s: State, st: Step, i: nat) {
    && st.Send? && Busy(s, st.r)
    && var tx := s.relays[st.r];
    tx.next < |tx.ids| && tx.ids[tx.next] == i
  }

  /** The step rolls back a batch that held row `i`. */
  predicate RollsBackRow(s: State, st: Step, i: nat) {
    && (st.Rollback? || (st.Mark? && st.raises))
    && Busy(s, st.r) && (st.Mark? ==> s.relays[st.r].stage.ToFail?)
    && i in LockedBy(s.relays[st.r])
  }

  function Sends(s0: State, r: Run, i: nat): nat {
    if r.Begins? || After(s0, r.prefix).None? then 0
    else Sends(s0, r.prefix, i) + One(SendsRow(After(s0, r.prefix).value, r.step, i))
  }

  function RolledBack(s0: State, r: Run, i: nat): nat {
    if r.Begins? || After(s0, r.prefix).None? then 0
    else RolledBack(s0, r.prefix, i) + One(RollsBackRow(After(s0, r.prefix).value, r.step, i))
  }

  /** The open transaction has made its one send attempt for row `i`. */
  predicate Attempted(tx: Tx, i: nat) {
    tx.Open? && Tries(tx) <= |tx.ids| && i in tx.ids[..Tries(tx)]
  }

  function Tries(tx: Tx): nat
    requires tx.Open?
  {
    tx.next + One(!tx.stage.ToSend?)
  }

  ghost predicate SentThisRound(s: State, i: nat) {
    || (i < |s.rows| && s.rows[i].status != PENDING)
    || (exists r :: r in s.relays && Attempted(s.relays[r], i))
  }

  lemma {:induction false} AttemptedIsLocked(tx: Tx, i: nat)
    ensures Attempted(tx, i) ==> i in LockedBy(tx)
  {
  }

  lemma {:induction false} SendIsFirst(s: State, st: Step, i: nat)
    requires Good(s) && Enabled(s, st) && SendsRow(s, st, i)
    ensures !SentThisRound(s, i) && SentThisRound(Next(s, st), i)
  {
    assert GoodTx(s, s.relays[st.r]);
    var tx, tx' := s.relays[st.r], Next(s, st).relays[st.r];
    assert i in LockedBy(tx);
    forall r | r in s.relays ensures !Attempted(s.relays[r], i) {
      if r != st.r {
        assert LockedBy(s.relays[r]) !! LockedBy(tx);
        AttemptedIsLocked(s.relays[r], i);
      }
    }
    assert tx'.ids[..Tries(tx')] == tx.ids[..tx.next] + [i];
    assert Attempted(tx', i);
  }

  /** An attempt made stays made until the batch commits, when its row leaves PENDING, or is rolled back. */
  lemma {:induction false} AttemptSurvives(s: State, st: Step, r: nat, i: nat)
    requires Good(s) && Enabled(s, st) && r in s.relays && Attempted(s.relays[r], i) && !RollsBackRow(s, st, i)
    ensures var s' := Next(s, st);
            || Attempted(s'.relays[r], i)
            || (i < |s'.rows| && s'.rows[i].status != PENDING)
  {
    var tx, tx' := s.relays[r], Next(s, st).relays[r];
    assert GoodTx(s, tx);
    assert i in LockedBy(tx);
    if st.CommitBatch? && st.r == r {
      assert i in tx.writes.Keys;
    } else {
      assert tx'.Open? && tx'.ids == tx.ids && Tries(tx) <= Tries(tx') <= |tx.ids|;
    }
  }

  lemma {:induction false} RoundSurvives(s: State, st: Step, i: nat)
    requires Good(s) && Enabled(s, st) && SentThisRound(s, i) && !RollsBackRow(s, st, i)
    ensures SentThisRound(Next(s, st), i)
  {
    if i < |s.rows| && s.rows[i].status != PENDING {
      RowStep(s, st, i);
    } else {
      var r :| r in s.relays && Attempted(s.relays[r], i);
      AttemptSurvives(s, st, r, i);
    }
  }

  /** A row is sent at most once more than the batches holding it were rolled back. */
  lemma {:induction false} SendsBounded(s0: State, r: Run, i: nat)
    requires Initial(s0) && After(s0, r).Some?
    ensures Sends(s0, r, i) <= RolledBack(s0, r, i) + One(SentThisRound(After(s0, r).value, i))
    ensures Sends(s0, r, i) <= 1 + RolledBack(s0, r, i)
  {
    if r.Extend? {
      SendsBounded(s0, r.prefix, i);
      OutboxStaysGood(s0, r.prefix);
      var s := After(s0, r.prefix).value;
      if SendsRow(s, r.step, i) {
        SendIsFirst(s, r.step, i);
      } else if SentThisRound(s, i) && !RollsBackRow(s, r.step, i) {
        RoundSurvives(s, r.step, i);
      }
    }
  }

  // ---------------------------------------------------------------- message ids

  ghost predicate DistinctDrafts(drafts: seq<Draft>) {
    forall i, j :: 0 <= i < j < |drafts| ==> drafts[i].messageId != drafts[j].messageId
  }

  ghost predicate NotCommitted(drafts: seq<Draft>, rows: Rows) {
    forall i, j :: 0 <= i < |drafts| && 0 <= j < |rows| ==> drafts[i].messageId != rows[j].messageId
  }

  ghost predicate Apart(some: seq<Draft>, others: seq<Draft>) {
    forall i, j :: 0 <= i < |some| && 0 <= j < |others| ==> some[i].messageId != others[j].messageId
  }

  /** Ids are distinct over all rows, committed and drafted. */
  ghost predicate Unique(s: State) {
    && DistinctIds(s.rows)
    && (forall w :: w in s.drafts ==> DistinctDrafts(s.drafts[w]) && NotCommitted(s.drafts[w], s.rows))
    && (forall w, x :: w in s.drafts && x in s.drafts && w != x ==> Apart(s.drafts[w], s.drafts[x]))
  }

  /** An insert is of an id not taken. */
  lemma {:induction false} FreshDraft(s: State, st: Step, x: nat)
    requires st.Insert? && Enabled(s, st) && x in s.drafts
    ensures forall j :: 0 <= j < |s.drafts[x]| ==> s.drafts[x][j].messageId != st.draft.messageId
    ensures forall j :: 0 <= j < |s.rows| ==> s.rows[j].messageId != st.draft.messageId
  {
    assert forall j :: 0 <= j < |s.rows| ==> s.rows[j] in s.rows;
    assert forall j :: 0 <= j < |s.drafts[x]| ==> s.drafts[x][j] in s.drafts[x];
  }

  lemma {:induction false} RowsUniqueStep(s: State, st: Step)
    requires Unique(s) && Enabled(s, st)
    ensures DistinctIds(Next(s, st).rows)
  {
    if st.CommitInserts? {
      assert DistinctDrafts(s.drafts[st.w]) && NotCommitted(s.drafts[st.w], s.rows);
    }
  }

  lemma {:induction false} DraftsUniqueStep(s: State, st: Step, w: nat)
    requires Unique(s) && Enabled(s, st) && w in s.drafts
    ensures var s' := Next(s, st); DistinctDrafts(s'.drafts[w]) && NotCommitted(s'.drafts[w], s'.rows)
  {
    assert DistinctDrafts(s.drafts[w]) && NotCommitted(s.drafts[w], s.rows);
    if st.Insert? && st.w == w {
      FreshDraft(s, st, w);
    }
    if st.CommitInserts? && st.w != w {
      assert Apart(s.drafts[w], s.drafts[st.w]);
    }
  }

  lemma {:induction false} ApartStep(s: State, st: Step, w: nat, x: nat)
    requires Unique(s) && Enabled(s, st) && w in s.drafts && x in s.drafts && w != x
    ensures var s' := Next(s, st); Apart(s'.drafts[w], s'.drafts[x])
  {
    assert Apart(s.drafts[w], s.drafts[x]);
    if st.Insert? {
      FreshDraft(s, st, if st.w == w then x else w);
    }
  }

  lemma {:induction false} UniqueStep(s: State, st: Step)
    requires Unique(s) && Enabled(s, st)
    ensures Unique(Next(s, st))
  {
    var s' := Next(s, st);
    RowsUniqueStep(s, st);
    forall w | w in s'.drafts ensures DistinctDrafts(s'.drafts[w]) && NotCommitted(s'.drafts[w], s'.rows) {
      DraftsUniqueStep(s, st, w);
    }
    forall w, x | w in s'.drafts && x in s'.drafts && w != x ensures Apart(s'.drafts[w], s'.drafts[x]) {
      ApartStep(s, st, w, x);
    }
  }

  lemma {:induction false} IdsStayUnique(s0: State, r: Run)
    requires Initial(s0) && After(s0, r).Some?
    ensures Unique(After(s0, r).value)
  {
    if r.Extend? {
      IdsStayUnique(s0, r.prefix);
      UniqueStep(After(s0, r.prefix).value, r.step);
    }
  }
}
