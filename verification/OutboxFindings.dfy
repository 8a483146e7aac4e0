/** Runs of a relay and of a consumer on what it sent: a row that is handled twice, and one that never is. */
module OutboxFindings {
  import opened Types
  import opened ClientMachine
  import opened Extraction
  import opened OutboxTable
  import opened MemorySpec
  import Relays
  import opened Deployment
  import opened Deliveries
  import opened Serial
  import opened EndToEnd

  /** One writer with nothing to commit and one relay. */
  function Outbox(rows: Rows, tx: Relays.Tx, topic: seq<nat>): Relays.State {
    Relays.State(rows, map[0 := []], map[0 := tx], topic)
  }

  function NewOutbox(): Relays.State { Outbox([], Relays.NoTx, []) }

  ghost predicate Written(q: Relays.State) {
    exists run :: Relays.After(NewOutbox(), run) == Some(q)
  }

  lemma WrittenNext(q: Relays.State, st: Relays.Step, q': Relays.State)
    requires Written(q) && Relays.Enabled(q, st) && Relays.Next(q, st) == q'
    ensures Written(q')
  {
    var run :| Relays.After(NewOutbox(), run) == Some(q);
    assert Relays.After(NewOutbox(), Relays.Extend(run, st)) == Some(q');
  }

  /** The one client is a consumer that has delivered and committed part of its log. */
  function Reading(
    log: seq<Option<Id>>, mem: Mem, position: nat, committed: nat, id: Option<Id>, pc: Pc): State
  {
    State(0, Memory(mem), map[0 := Client(Consumer, log, position, committed, id, pc, 0)])
  }

  function Ready(log: seq<Option<Id>>): State { Reading(log, map[], 0, 0, None, Idle) }

  /** A run of the consumer on its own from the beginning of its log to `s`. */
  ghost predicate ReadsTo(cfg: Config, log: seq<Option<Id>>, r: Run, s: State) {
    Legal(cfg, Ready(log), r) && AloneRun(cfg, Ready(log), r, 0) && After(cfg, Ready(log), r) == s
  }

  ghost predicate Reached(cfg: Config, log: seq<Option<Id>>, s: State) {
    exists r :: ReadsTo(cfg, log, r, s)
  }

  lemma ReachedNext(cfg: Config, log: seq<Option<Id>>, s: State, st: Step, s': State)
    requires Reached(cfg, log, s) && Enabled(cfg, s, st) && Alone(s, st, 0) && Next(cfg, s, st) == s'
    ensures Reached(cfg, log, s')
  {
    var r :| ReadsTo(cfg, log, r, s);
    assert ReadsTo(cfg, log, Extend(r, st), s');
  }

  lemma ReachedFirst(cfg: Config, log: seq<Option<Id>>)
    ensures Reached(cfg, log, Ready(log))
  {
    assert ReadsTo(cfg, log, Begins, Ready(log));
  }

  // ---------------------------------------------------------------- one row handled twice

  const DRAFT := Relays.Draft("orders", "order-1", Object("", ""))

  function Order(status: RowStatus): Row { Row(DRAFT.topic, DRAFT.messageId, DRAFT.payload, status) }

  function Sending(stage: Relays.Stage): Relays.Tx { Relays.Open([0], 0, stage, map[]) }

  lemma OrderIsPending()
    ensures Written(Outbox([Order(PENDING)], Relays.NoTx, []))
  {
    assert Relays.After(NewOutbox(), Relays.Begins) == Some(NewOutbox());
    var drafted := Relays.State([], map[0 := [DRAFT]], map[0 := Relays.NoTx], []);
    assert NewOutbox().drafts[0] + [DRAFT] == [DRAFT];
    assert Relays.Next(NewOutbox(), Relays.Insert(0, DRAFT)).drafts == drafted.drafts;
    WrittenNext(NewOutbox(), Relays.Insert(0, DRAFT), drafted);
    var committed := Outbox([Order(PENDING)], Relays.NoTx, []);
    assert Relays.Next(drafted, Relays.CommitInserts(0)).rows == committed.rows;
    assert Relays.Next(drafted, Relays.CommitInserts(0)).drafts == committed.drafts;
    WrittenNext(drafted, Relays.CommitInserts(0), committed);
  }

  /** A batch takes the row and sends it. */
  lemma OrderIsSent(topic: seq<nat>)
    requires Written(Outbox([Order(PENDING)], Relays.NoTx, topic))
    ensures Written(Outbox([Order(PENDING)], Sending(Relays.ToPublish), topic + [0]))
  {
    var free := Outbox([Order(PENDING)], Relays.NoTx, topic);
    var open := Outbox([Order(PENDING)], Sending(Relays.ToSend), topic);
    var sent := Outbox([Order(PENDING)], Sending(Relays.ToPublish), topic + [0]);
    assert Free(free.rows, Relays.Locked(free), 0);
    assert Fetch(free.rows, Relays.Locked(free), 0, 1) == [0];
    WrittenNext(free, Relays.FetchBatch(0, 1), open);
    WrittenNext(open, Relays.Send(0, true, false), sent);
  }

  /** The first batch is rolled back, the second commits. */
  lemma OrderIsSentTwice()
    ensures Written(Outbox([Order(PUBLISHED)], Relays.NoTx, [0, 0]))
  {
    OrderIsPending();
    OrderIsSent([]);
    var once := Outbox([Order(PENDING)], Sending(Relays.ToPublish), [0]);
    assert [] + [0] == [0];
    WrittenNext(once, Relays.Rollback(0), Outbox([Order(PENDING)], Relays.NoTx, [0]));
    OrderIsSent([0]);
    assert [0] + [0] == [0, 0];
    var twice := Outbox([Order(PENDING)], Sending(Relays.ToPublish), [0, 0]);
    var marked := Outbox([Order(PENDING)], Relays.Open([0], 1, Relays.ToSend, map[0 := PUBLISHED]), [0, 0]);
    WrittenNext(twice, Relays.Mark(0, false), marked);
    var done := Outbox([Order(PUBLISHED)], Relays.NoTx, [0, 0]);
    assert Relays.Next(marked, Relays.CommitBatch(0)).rows == done.rows;
    WrittenNext(marked, Relays.CommitBatch(0), done);
  }

  const UNNAMED: seq<Option<Id>> := [None, None]

  function Copy(position: nat, committed: nat, pc: Pc): State {
    Reading(UNNAMED, map[], position, committed, None, pc)
  }

  function Processed0(): Pc { Done(Processed(None)) }

  lemma CopySteps(cfg: Config, n: nat, pc: Pc)
    requires n < 2 && Resting(pc) && 1 <= cfg.maxRetries
    ensures var handling, committing := Copy(n + 1, n, Handling(1)), Copy(n + 1, n, Committing(Processed(None)));
            && Enabled(cfg, Copy(n, n, pc), Begin(0, None))
            && Next(cfg, Copy(n, n, pc), Begin(0, None)) == handling
            && Enabled(cfg, handling, Await(0, HandlerReturns(None)))
            && Next(cfg, handling, Await(0, HandlerReturns(None))) == committing
            && Enabled(cfg, committing, Await(0, Ok))
            && Next(cfg, committing, Await(0, Ok)) == Copy(n + 1, n + 1, Processed0())
  {
  }

  lemma CopyIsHandled(cfg: Config, n: nat, pc: Pc)
    requires n < 2 && Resting(pc) && 1 <= cfg.maxRetries && Reached(cfg, UNNAMED, Copy(n, n, pc))
    ensures Reached(cfg, UNNAMED, Copy(n + 1, n + 1, Processed0()))
  {
    var handling, committing := Copy(n + 1, n, Handling(1)), Copy(n + 1, n, Committing(Processed(None)));
    CopySteps(cfg, n, pc);
    ReachedNext(cfg, UNNAMED, Copy(n, n, pc), Begin(0, None), handling);
    ReachedNext(cfg, UNNAMED, handling, Await(0, HandlerReturns(None)), committing);
    ReachedNext(cfg, UNNAMED, committing, Await(0, Ok), Copy(n + 1, n + 1, Processed0()));
  }

  lemma BothAreHandled(cfg: Config)
    requires 1 <= cfg.maxRetries
    ensures Reached(cfg, UNNAMED, Copy(2, 2, Processed0()))
  {
    ReachedFirst(cfg, UNNAMED);
    CopyIsHandled(cfg, 0, Idle);
    CopyIsHandled(cfg, 1, Processed0());
  }

  /** A batch rolled back after its send: the row is PUBLISHED once, sent twice under its key, and handled twice. */
  lemma KeyAloneDoesNotDeduplicate(cfg: Config)
    requires 1 <= cfg.maxRetries
    ensures Written(Outbox([Order(PUBLISHED)], Relays.NoTx, [0, 0]))
    ensures SentRecord(Order(PUBLISHED)).key == "order-1"
    ensures TopicIds(Outbox([Order(PUBLISHED)], Relays.NoTx, [0, 0])) == UNNAMED
    ensures exists r ::
              && ReadsTo(cfg, UNNAMED, r, Copy(2, 2, Processed0())) && Drained(Copy(2, 2, Processed0()), 0)
              && RowCalls(cfg, Ready(UNNAMED), r, 0, [0, 0], 0, 2) >= 2
  {
    OrderIsSentTwice();
    BothAreHandled(cfg);
    var r :| ReadsTo(cfg, UNNAMED, r, Copy(2, 2, Processed0()));
    TwiceCalled(cfg, r);
  }

  lemma TwiceCalled(cfg: Config, r: Run)
    requires ReadsTo(cfg, UNNAMED, r, Copy(2, 2, Processed0())) && 1 <= cfg.maxRetries
    ensures RowCalls(cfg, Ready(UNNAMED), r, 0, [0, 0], 0, 2) >= 2
  {
    var q := Outbox([Order(PUBLISHED)], Relays.NoTx, [0, 0]);
    assert TopicIds(q) == UNNAMED;
    EveryCopyIsHandled(cfg, q, Ready(UNNAMED), r, 0, 0, 2);
    assert Copies([0, 0], 0, 1) == 1;
  }

  // ---------------------------------------------------------------- one row lost to the payload of another

  function Draft(messageId: Id): Relays.Draft { Relays.Draft("orders", messageId, Object("b", "")) }

  /** Both payloads carry the message id of the second row. */
  function Both(first: RowStatus, second: RowStatus): Rows {
    [Row("orders", "a", Object("b", ""), first), Row("orders", "b", Object("b", ""), second)]
  }

  function Batch(next: nat, stage: Relays.Stage, writes: map<nat, RowStatus>): Relays.Tx {
    Relays.Open([0, 1], next, stage, writes)
  }

  lemma BothArePending()
    ensures Written(Outbox(Both(PENDING, PENDING), Relays.NoTx, []))
  {
    assert Relays.After(NewOutbox(), Relays.Begins) == Some(NewOutbox());
    var one := Relays.State([], map[0 := [Draft("a")]], map[0 := Relays.NoTx], []);
    var two := Relays.State([], map[0 := [Draft("a"), Draft("b")]], map[0 := Relays.NoTx], []);
    assert NewOutbox().drafts[0] + [Draft("a")] == [Draft("a")];
    assert Relays.Next(NewOutbox(), Relays.Insert(0, Draft("a"))).drafts == one.drafts;
    WrittenNext(NewOutbox(), Relays.Insert(0, Draft("a")), one);
    assert one.drafts[0] + [Draft("b")] == [Draft("a"), Draft("b")];
    assert Relays.Next(one, Relays.Insert(0, Draft("b"))).drafts == two.drafts;
    WrittenNext(one, Relays.Insert(0, Draft("b")), two);
    var committed := Outbox(Both(PENDING, PENDING), Relays.NoTx, []);
    assert Relays.Next(two, Relays.CommitInserts(0)).rows == committed.rows;
    assert Relays.Next(two, Relays.CommitInserts(0)).drafts == committed.drafts;
    WrittenNext(two, Relays.CommitInserts(0), committed);
  }

  lemma BatchOfBoth()
    requires Written(Outbox(Both(PENDING, PENDING), Relays.NoTx, []))
    ensures Written(Outbox(Both(PENDING, PENDING), Batch(0, Relays.ToSend, map[]), []))
  {
    var free := Outbox(Both(PENDING, PENDING), Relays.NoTx, []);
    assert Free(free.rows, Relays.Locked(free), 0) && Free(free.rows, Relays.Locked(free), 1);
    assert Fetch(free.rows, Relays.Locked(free), 1, 1) == [1];
    assert Fetch(free.rows, Relays.Locked(free), 0, 2) == [0, 1];
    WrittenNext(free, Relays.FetchBatch(0, 2), Outbox(Both(PENDING, PENDING), Batch(0, Relays.ToSend, map[]), []));
  }

  lemma FirstIsSent()
    requires Written(Outbox(Both(PENDING, PENDING), Batch(0, Relays.ToSend, map[]), []))
    ensures Written(Outbox(Both(PENDING, PENDING), Batch(1, Relays.ToSend, map[0 := PUBLISHED]), [0]))
  {
    var a := Outbox(Both(PENDING, PENDING), Batch(0, Relays.ToSend, map[]), []);
    var b := Outbox(Both(PENDING, PENDING), Batch(0, Relays.ToPublish, map[]), [0]);
    var c := Outbox(Both(PENDING, PENDING), Batch(1, Relays.ToSend, map[0 := PUBLISHED]), [0]);
    assert Written(b) by { WrittenNext(a, Relays.Send(0, true, false), b); }
    assert Written(c) by { WrittenNext(b, Relays.Mark(0, false), c); }
  }

  function Settled(): map<nat, RowStatus> { map[0 := PUBLISHED, 1 := PUBLISHED] }

  lemma SecondIsSent()
    requires Written(Outbox(Both(PENDING, PENDING), Batch(1, Relays.ToSend, map[0 := PUBLISHED]), [0]))
    ensures Written(Outbox(Both(PENDING, PENDING), Batch(2, Relays.ToSend, Settled()), [0, 1]))
  {
    var c := Outbox(Both(PENDING, PENDING), Batch(1, Relays.ToSend, map[0 := PUBLISHED]), [0]);
    var d := Outbox(Both(PENDING, PENDING), Batch(1, Relays.ToPublish, map[0 := PUBLISHED]), [0, 1]);
    var e := Outbox(Both(PENDING, PENDING), Batch(2, Relays.ToSend, Settled()), [0, 1]);
    assert Written(d) by {
      assert [0] + [1] == [0, 1];
      WrittenNext(c, Relays.Send(0, true, false), d);
    }
    assert Written(e) by {
      assert map[0 := PUBLISHED][1 := PUBLISHED] == Settled();
      WrittenNext(d, Relays.Mark(0, false), e);
    }
  }

  lemma BothAreCommitted()
    requires Written(Outbox(Both(PENDING, PENDING), Batch(2, Relays.ToSend, Settled()), [0, 1]))
    ensures Written(Outbox(Both(PUBLISHED, PUBLISHED), Relays.NoTx, [0, 1]))
  {
    var e := Outbox(Both(PENDING, PENDING), Batch(2, Relays.ToSend, Settled()), [0, 1]);
    var f := Outbox(Both(PUBLISHED, PUBLISHED), Relays.NoTx, [0, 1]);
    assert Relays.Next(e, Relays.CommitBatch(0)).rows == f.rows;
    WrittenNext(e, Relays.CommitBatch(0), f);
  }

  const NAMED: seq<Option<Id>> := [Some("b"), Some("b")]

  function Named(mem: Mem, position: nat, committed: nat, pc: Pc): State {
    Reading(NAMED, mem, position, committed, Some("b"), pc)
  }

  function Claimed(cfg: Config): Mem { map["b" := MRec(PROCESSING, 1, None, None, Some(LeaseEnd(cfg, 0)))] }

  function Completed(): Mem { map["b" := MRec(COMPLETED, 1, None, None, None)] }

  lemma FirstIsClaimed(cfg: Config)
    requires 1 <= cfg.maxRetries
    ensures Reached(cfg, NAMED, Named(Claimed(cfg), 1, 0, Succeeded(None)))
  {
    ReachedFirst(cfg, NAMED);
    var a, b := Named(map[], 1, 0, Claiming), Named(Claimed(cfg), 1, 0, Handling(1));
    var c := Named(Claimed(cfg), 1, 0, Succeeded(None));
    assert Reached(cfg, NAMED, a) by { ReachedNext(cfg, NAMED, Ready(NAMED), Begin(0, Some("b")), a); }
    assert Reached(cfg, NAMED, b) by { ReachedNext(cfg, NAMED, a, Await(0, Ok), b); }
    assert Reached(cfg, NAMED, c) by { ReachedNext(cfg, NAMED, b, Await(0, HandlerReturns(None)), c); }
  }

  lemma FirstIsCompleted(cfg: Config)
    requires 1 <= cfg.maxRetries && Reached(cfg, NAMED, Named(Claimed(cfg), 1, 0, Succeeded(None)))
    ensures Reached(cfg, NAMED, Named(Completed(), 1, 1, Processed0()))
  {
    FirstIsMarked(cfg);
    FirstIsCommitted(cfg);
  }

  lemma FirstIsCommitted(cfg: Config)
    requires Reached(cfg, NAMED, Named(Completed(), 1, 0, Committing(Processed(None))))
    ensures Reached(cfg, NAMED, Named(Completed(), 1, 1, Processed0()))
  {
    ReachedNext(cfg, NAMED, Named(Completed(), 1, 0, Committing(Processed(None))), Await(0, Ok),
                Named(Completed(), 1, 1, Processed0()));
  }

  lemma FirstIsMarked(cfg: Config)
    requires 1 <= cfg.maxRetries && Reached(cfg, NAMED, Named(Claimed(cfg), 1, 0, Succeeded(None)))
    ensures Reached(cfg, NAMED, Named(Completed(), 1, 0, Committing(Processed(None))))
  {
    assert Claimed(cfg)["b" := MRec(COMPLETED, 1, None, None, None)] == Completed();
    ReachedNext(cfg, NAMED, Named(Claimed(cfg), 1, 0, Succeeded(None)), Await(0, Ok),
                Named(Completed(), 1, 0, Committing(Processed(None))));
  }

  lemma SecondIsRefused(cfg: Config)
    requires 1 <= cfg.maxRetries && Reached(cfg, NAMED, Named(Completed(), 1, 1, Processed0()))
    ensures Reached(cfg, NAMED, Named(Completed(), 2, 1, Skipping))
  {
    var e, f := Named(Completed(), 1, 1, Processed0()), Named(Completed(), 2, 1, Claiming);
    var g := Named(Completed(), 2, 1, Skipping);
    assert Reached(cfg, NAMED, f) by { ReachedNext(cfg, NAMED, e, Begin(0, Some("b")), f); }
    assert Reached(cfg, NAMED, g) by { ReachedNext(cfg, NAMED, f, Await(0, Ok), g); }
  }

  lemma SecondIsSkipped(cfg: Config)
    requires 1 <= cfg.maxRetries && Reached(cfg, NAMED, Named(Completed(), 2, 1, Skipping))
    ensures Reached(cfg, NAMED, Named(Completed(), 2, 2, Done(Duplicate)))
  {
    var g, h := Named(Completed(), 2, 1, Skipping), Named(Completed(), 2, 1, Committing(Duplicate));
    var i := Named(Completed(), 2, 2, Done(Duplicate));
    assert Reached(cfg, NAMED, h) by { ReachedNext(cfg, NAMED, g, Await(0, Ok), h); }
    assert Reached(cfg, NAMED, i) by { ReachedNext(cfg, NAMED, h, Await(0, Ok), i); }
  }

  /**
   A row whose payload carries its own id, PUBLISHED and read by a consumer on its own without a crash or a lost call,
   is never handled: an earlier row's payload carried the same id, and this one is skipped as its duplicate.
   */
  lemma LostToAnotherPayload(cfg: Config)
    requires 1 <= cfg.maxRetries
    ensures var q := Outbox(Both(PUBLISHED, PUBLISHED), Relays.NoTx, [0, 1]);
            && Written(q) && CarriesId(q.rows[1]) && q.rows[1].status == PUBLISHED && TopicIds(q) == NAMED
    ensures exists r ::
              && ReadsTo(cfg, NAMED, r, Named(Completed(), 2, 2, Done(Duplicate)))
              && RowCalls(cfg, Ready(NAMED), r, 0, [0, 1], 1, 2) == 0
  {
    BothArePending();
    BatchOfBoth();
    FirstIsSent();
    SecondIsSent();
    BothAreCommitted();
    FirstIsClaimed(cfg);
    FirstIsCompleted(cfg);
    SecondIsRefused(cfg);
    SecondIsSkipped(cfg);
    var r :| ReadsTo(cfg, NAMED, r, Named(Completed(), 2, 2, Done(Duplicate)));
    NeverCalled(cfg, r);
  }

  lemma NeverCalled(cfg: Config, r: Run)
    requires ReadsTo(cfg, NAMED, r, Named(Completed(), 2, 2, Done(Duplicate))) && 1 <= cfg.maxRetries
    ensures RowCalls(cfg, Ready(NAMED), r, 0, [0, 1], 1, 2) == 0
  {
    var q := Outbox(Both(PUBLISHED, PUBLISHED), Relays.NoTx, [0, 1]);
    assert TopicIds(q) == NAMED;
    assert TopicIds(q)[0] == Some("b");
    RowCallsAtFirst(cfg, q, Ready(NAMED), r, 0, 1, 0, 2);
  }
}
