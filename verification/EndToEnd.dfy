/** From the outbox through the topic to one consumer. */
module EndToEnd {
  import opened Types
  import opened Extraction
  import opened OutboxTable
  import Relays
  import ClientMachine
  import opened Deployment
  import opened Deliveries
  import opened Repeats
  import Offsets

  /** What the relay sends for a row: no headers, the message id as the Kafka key, the payload as value. */
  function SentRecord(row: Row): Record { Record([], row.messageId, row.payload) }

  /** The payload names the message: its first truthy id field is the row's message id. */
  predicate CarriesId(row: Row) {
    if row.payload.Object? && row.payload.messageId != "" then row.payload.messageId == row.messageId
    else row.payload.Object? && row.payload.id != "" && row.payload.id == row.messageId
  }

  /** The id under which the consumer deduplicates a sent row, which has no header to raise on. */
  function DedupId(row: Row): (id: Option<Id>)
    ensures id == Some(row.messageId) <==> CarriesId(row)
    ensures id.None? <==> !row.payload.Object? || (row.payload.messageId == "" && row.payload.id == "")
  {
    match MessageId(SentRecord(row))
    case Found(id) => Some(id)
    case Absent => None
    case Raises => None
  }

  /** The ids a consumer reads from the topic, in order. */
  function TopicIds(s: Relays.State): seq<Option<Id>> {
    seq(|s.topic|, k requires 0 <= k < |s.topic| =>
      if s.topic[k] < |s.rows| then DedupId(s.rows[s.topic[k]]) else None)
  }

  /** The consumer has begun with the log the relays produced. */
  ghost predicate Reads(s0: State, c: Cid, q: Relays.State) {
    c in s0.clients && s0.clients[c].kind.Consumer? && s0.clients[c].log == TopicIds(q)
  }

  ghost predicate Drained(s: State, c: Cid) {
    c in s.clients && Resting(s.clients[c].pc) && s.clients[c].position == |s.clients[c].log|
  }

  /** How often row `i` was stored among the first `n` records of the topic. */
  function Copies(topic: seq<nat>, i: nat, n: nat): nat
    requires n <= |topic|
  {
    if n == 0 then 0 else Copies(topic, i, n - 1) + One(topic[n - 1] == i)
  }

  /** Handler calls for those copies. */
  function RowCalls(cfg: Config, s0: State, r: Run, c: Cid, topic: seq<nat>, i: nat, n: nat): nat
    requires n <= |topic|
  {
    if n == 0 then 0
    else
      RowCalls(cfg, s0, r, c, topic, i, n - 1) +
      if topic[n - 1] == i then Offsets.CallsAt(cfg, s0, r, c, n - 1) else 0
  }

  /** The first record of the log that has the id. */
  function FirstAt(log: seq<Option<Id>>, id: Id): (k: nat)
    requires Some(id) in log
    ensures k < |log| && log[k] == Some(id) && FirstOfItsId(log, k)
  {
    var n := |log| - 1;
    if Some(id) in log[..n] then FirstAt(log[..n], id) else n
  }

  /** Every call for a row is made at the first record of its id, if that is a copy of this row. */
  lemma {:induction false} RowCallsAtFirst(
    cfg: Config, q: Relays.State, s0: State, r: Run, c: Cid, i: nat, f: nat, n: nat)
    requires Solo(cfg, s0, r, c) && Reads(s0, c, q) && Relays.Good(q)
    requires i < |q.rows| && DedupId(q.rows[i]).Some? && n <= |q.topic| && f < |q.topic|
    requires TopicIds(q)[f] == DedupId(q.rows[i]) && FirstOfItsId(TopicIds(q), f)
    ensures RowCalls(cfg, s0, r, c, q.topic, i, n) ==
            if f < n && q.topic[f] == i then DeedsOf(cfg, s0, r, DedupId(q.rows[i]).value).calls else 0
  {
    if n > 0 {
      RowCallsAtFirst(cfg, q, s0, r, c, i, f, n - 1);
      if q.topic[n - 1] == i {
        assert TopicIds(q)[n - 1] == DedupId(q.rows[i]);
        CallsAreAtFirst(cfg, s0, r, c, n - 1);
        assert FirstOfItsId(TopicIds(q), n - 1) <==> n - 1 == f;
      }
    }
  }

  /** Every payload carries its own row's id or none. */
  predicate OwnIds(rows: Rows) {
    forall j :: 0 <= j < |rows| ==> DedupId(rows[j]) in {None, Some(rows[j].messageId)}
  }

  /** No other row is deduplicated under the id of row `i`. */
  predicate SoleCarrier(rows: Rows, i: nat)
    requires i < |rows|
  {
    forall j :: 0 <= j < |rows| && j != i ==> DedupId(rows[j]) != DedupId(rows[i])
  }

  /** As message ids are distinct, carrying one's own id is enough. */
  lemma {:induction false} OwnIdsAreSole(q0: Relays.State, q: Relays.Run, i: nat)
    requires Relays.Initial(q0) && Relays.After(q0, q).Some? && i < |Relays.After(q0, q).value.rows|
    requires var rows := Relays.After(q0, q).value.rows; OwnIds(rows) && DedupId(rows[i]).Some?
    ensures SoleCarrier(Relays.After(q0, q).value.rows, i)
  {
    Relays.IdsStayUnique(q0, q);
  }

  lemma {:induction false} CopyInLog(q: Relays.State, i: nat)
    requires Relays.Good(q) && i < |q.rows| && i in q.topic
    ensures DedupId(q.rows[i]) in TopicIds(q)
    ensures forall f :: 0 <= f < |q.topic| ==> q.topic[f] < |q.rows| && TopicIds(q)[f] == DedupId(q.rows[q.topic[f]])
  {
    var k :| 0 <= k < |q.topic| && q.topic[k] == i;
    assert TopicIds(q)[k] == DedupId(q.rows[i]);
    assert forall f :: 0 <= f < |q.topic| ==> q.topic[f] in q.topic;
  }

  lemma {:induction false} SentRowOutcome(cfg: Config, q: Relays.State, s0: State, r: Run, c: Cid, i: nat)
    requires Relays.Good(q) && i < |q.rows| && i in q.topic && DedupId(q.rows[i]).Some?
    requires Solo(cfg, s0, r, c) && Reads(s0, c, q) && Drained(After(cfg, s0, r), c)
    ensures var id, log := DedupId(q.rows[i]).value, TopicIds(q);
            var t, calls := DeedsOf(cfg, s0, r, id), RowCalls(cfg, s0, r, c, q.topic, i, |q.topic|);
            && OneOutcome(cfg, Standing(After(cfg, s0, r).store, id), t)
            && Some(id) in log && calls == (if q.topic[FirstAt(log, id)] == i then t.calls else 0)
            && (SoleCarrier(q.rows, i) ==> calls == t.calls)
  {
    CopyInLog(q, i);
    var f := FirstAt(TopicIds(q), DedupId(q.rows[i]).value);
    SoloIsRegular(cfg, s0, r, c);
    HandledExactlyIfFirst(cfg, s0, r, c, f);
    RowCallsAtFirst(cfg, q, s0, r, c, i, f, |q.topic|);
    assert DedupId(q.rows[q.topic[f]]) == DedupId(q.rows[i]);
  }

  /**
   For any interleaving of relays and writers, with any rollbacks and re-sends, once a consumer on its own has drained
   the topic: the id a PUBLISHED row is deduplicated under has exactly one outcome, handled with one success and
   COMPLETED, or given up once with no success. The calls are all made for copies of this row if it is the
   first in the topic with that id, as it is if no other row carries the id; else it is never handled.
   */
  lemma {:induction false} PublishedRowsHaveOneOutcome(
    q0: Relays.State, q: Relays.Run, cfg: Config, s0: State, r: Run, c: Cid, i: nat)
    requires Relays.Initial(q0) && Relays.After(q0, q).Some?
    requires i < |Relays.After(q0, q).value.rows|
    requires var row := Relays.After(q0, q).value.rows[i]; row.status == PUBLISHED && DedupId(row).Some?
    requires Solo(cfg, s0, r, c) && Reads(s0, c, Relays.After(q0, q).value) && Drained(After(cfg, s0, r), c)
    ensures var s := Relays.After(q0, q).value;
            var id, log := DedupId(s.rows[i]).value, TopicIds(s);
            var t, calls := DeedsOf(cfg, s0, r, id), RowCalls(cfg, s0, r, c, s.topic, i, |s.topic|);
            && OneOutcome(cfg, Standing(After(cfg, s0, r).store, id), t)
            && Some(id) in log && calls == (if s.topic[FirstAt(log, id)] == i then t.calls else 0)
            && (SoleCarrier(s.rows, i) || OwnIds(s.rows) ==> calls == t.calls)
  {
    Relays.OutboxStaysGood(q0, q);
    SentRowOutcome(cfg, Relays.After(q0, q).value, s0, r, c, i);
    if OwnIds(Relays.After(q0, q).value.rows) {
      OwnIdsAreSole(q0, q, i);
    }
  }

  // ---------------------------------------------------------------- payloads without an id

  /**
   A row whose payload has no id is not deduplicated at all, its message id being in the Kafka key only: under
   any crashes and any interference, a consumer that has committed the topic has handled it once per copy.
   */
  lemma {:induction false} EveryCopyIsHandled(
    cfg: Config, q: Relays.State, s0: State, r: Run, c: Cid, i: nat, n: nat)
    requires i < |q.rows| && DedupId(q.rows[i]).None? && n <= |q.topic|
    requires Initial(s0) && Legal(cfg, s0, r) && 1 <= cfg.maxRetries && Reads(s0, c, q)
    requires c in After(cfg, s0, r).clients && n <= After(cfg, s0, r).clients[c].committed
    ensures RowCalls(cfg, s0, r, c, q.topic, i, n) >= Copies(q.topic, i, n)
  {
    if n > 0 {
      EveryCopyIsHandled(cfg, q, s0, r, c, i, n - 1);
      if q.topic[n - 1] == i {
        assert TopicIds(q)[n - 1].None?;
        Offsets.UnidentifiedIsHandled(cfg, s0, r, c, n - 1);
      }
    }
  }
}
