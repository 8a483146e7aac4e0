/** Rows, statuses and topic told from the history of a run: committed inserts, committed batches, stored sends. */
module RelayHistory {
  import opened Types
  import opened Extraction
  import opened OutboxTable
  import opened Relays

  /** The inserts of writer `w` since its last commit or abort. */
  function Pending(r: Run, w: nat): seq<Draft> {
    if r.Begins? then []
    else
      match r.step
      case Insert(x, d) => if x == w then Pending(r.prefix, w) + [d] else Pending(r.prefix, w)
      case CommitInserts(x) => if x == w then [] else Pending(r.prefix, w)
      case AbortInserts(x) => if x == w then [] else Pending(r.prefix, w)
      case _ => Pending(r.prefix, w)
  }

  /** The inserts committed so far, in the order of their commits. */
  function Inserted(r: Run): seq<Draft> {
    if r.Begins? then []
    else if r.step.CommitInserts? then Inserted(r.prefix) + Pending(r.prefix, r.step.w)
    else Inserted(r.prefix)
  }

  predicate RowOf(row: Row, d: Draft) {
    row.topic == d.topic && row.messageId == d.messageId && row.payload == d.payload
  }

  /** The table holds exactly the committed inserts, in order; an aborted transaction leaves nothing. */
  lemma {:induction false} RowsAreCommittedInserts(s0: State, r: Run)
    requires Initial(s0) && After(s0, r).Some?
    ensures var s := After(s0, r).value;
            && |s.rows| == |Inserted(r)| && (forall i :: 0 <= i < |s.rows| ==> RowOf(s.rows[i], Inserted(r)[i]))
            && forall w :: w in s.drafts ==> s.drafts[w] == Pending(r, w)
  {
    if r.Extend? {
      RowsAreCommittedInserts(s0, r.prefix);
    }
  }

  /** The step commits a batch that holds row `i`. */
  predicate SettlesRow(s: State, st: Step, i: nat) {
    st.CommitBatch? && Busy(s, st.r) && i in LockedBy(s.relays[st.r])
  }

  function Settled(s0: State, r: Run, i: nat): nat {
    if r.Begins? || After(s0, r.prefix).None? then 0
    else Settled(s0, r.prefix, i) + One(SettlesRow(After(s0, r.prefix).value, r.step, i))
  }

  lemma {:induction false} SettledStep(s: State, st: Step, i: nat)
    requires Good(s) && Enabled(s, st) && i < |s.rows|
    ensures i < |Next(s, st).rows|
    ensures SettlesRow(s, st, i) ==> s.rows[i].status == PENDING
    ensures Next(s, st).rows[i].status != PENDING <==> s.rows[i].status != PENDING || SettlesRow(s, st, i)
  {
    if st.CommitBatch? {
      var tx := s.relays[st.r];
      assert GoodTx(s, tx);
      assert tx.ids[..tx.next] == tx.ids;
      assert i in tx.writes.Keys <==> i in tx.ids;
    }
  }

  /** New rows are PENDING, and no batch holds a row that is not there yet. */
  lemma {:induction false} NewRowStep(s: State, st: Step, i: nat)
    requires Good(s) && Enabled(s, st) && |s.rows| <= i
    ensures !SettlesRow(s, st, i)
    ensures i < |Next(s, st).rows| ==> Next(s, st).rows[i].status == PENDING
  {
    if st.CommitBatch? {
      assert GoodTx(s, s.relays[st.r]);
    }
  }

  /** A row has left PENDING exactly if one batch that held it was committed, and no other ever is. */
  lemma {:induction false} LeftPendingByOneBatch(s0: State, r: Run, i: nat)
    requires Initial(s0) && After(s0, r).Some?
    ensures var rows := After(s0, r).value.rows;
            Settled(s0, r, i) == One(i < |rows| && rows[i].status != PENDING)
  {
    if r.Extend? {
      LeftPendingByOneBatch(s0, r.prefix, i);
      OutboxStaysGood(s0, r.prefix);
      var s := After(s0, r.prefix).value;
      if i < |s.rows| {
        SettledStep(s, r.step, i);
      } else {
        NewRowStep(s, r.step, i);
      }
    }
  }

  /** Sends of row `i` that the broker stored, whether or not the relay was told. */
  function Stored(s0: State, r: Run, i: nat): nat {
    if r.Begins? || After(s0, r.prefix).None? then 0
    else Stored(s0, r.prefix, i) + One(r.step.Send? && r.step.stored && SendsRow(After(s0, r.prefix).value, r.step, i))
  }

  /** The copies of a row in the topic are its stored sends: rollbacks and later steps neither add nor take one away. */
  lemma {:induction false} CopiesAreStoredSends(s0: State, r: Run, i: nat)
    requires Initial(s0) && After(s0, r).Some?
    ensures multiset(After(s0, r).value.topic)[i] == Stored(s0, r, i) <= Sends(s0, r, i)
  {
    if r.Extend? {
      CopiesAreStoredSends(s0, r.prefix, i);
    }
  }

  /** A rolled-back batch leaves its sends and nothing else, and its rows are free again. */
  lemma {:induction false} RollbackFreesRows(s: State, st: Step, r: nat)
    requires Good(s) && Enabled(s, st) && Busy(s, r)
    requires st == Rollback(r) || (st == Mark(r, true) && s.relays[r].stage.ToFail?)
    ensures var s' := Next(s, st);
            && s'.rows == s.rows && s'.topic == s.topic && s'.drafts == s.drafts
            && forall i :: i in LockedBy(s.relays[r]) ==> i !in Locked(s') && Free(s'.rows, Locked(s'), i)
  {
    assert GoodTx(s, s.relays[r]);
    var s' := Next(s, st);
    forall i | i in LockedBy(s.relays[r]) ensures i !in Locked(s') {
      forall q | q in s'.relays ensures i !in LockedBy(s'.relays[q]) {
        assert q != r ==> LockedBy(s.relays[q]) !! LockedBy(s.relays[r]);
      }
    }
  }
}
