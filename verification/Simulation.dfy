/** The in-memory store against the Lua store: where they agree and exactly where they part. */
module Simulation {
  import opened Types
  import opened RedisSpec
  import opened MemorySpec
  import opened StoreTrace

  /** Equal records, the lease of one cut to the milliseconds of the other. */
  ghost predicate SameRecord(rec: Rec, m: MRec) {
    && WellFormed(rec)
    && rec.status == m.status && rec.attempts == m.attempts
    && rec.result == m.result && rec.error == m.error
    && (rec.leaseUntilMs.None? <==> m.leaseExpiresUs.None?)
    && (m.leaseExpiresUs.Some? ==> rec.leaseUntilMs.value == m.leaseExpiresUs.value / 1000)
  }

  ghost predicate SameStores(db: Db, mem: Mem) {
    && db.Keys == mem.Keys
    && forall id :: id in db ==> SameRecord(db[id].rec, mem[id])
  }

  /** The key of the operation, if any, has not reached its TTL. */
  predicate WithinTtl(db: Db, us: nat, id: Id) {
    id in db ==> Ms(us) <= db[id].deadlineMs
  }

  /** The claim lies in the one millisecond where the floored lease is over and the exact one is not. */
  predicate RoundingGap(mem: Mem, us: nat, id: Id) {
    && id in mem && mem[id].status.PROCESSING? && mem[id].leaseExpiresUs.Some?
    && us < mem[id].leaseExpiresUs.value && mem[id].leaseExpiresUs.value / 1000 <= Ms(us)
  }

  /** What a caller can check before an operation on which the stores agree. */
  predicate AgreeableOp(mem: Mem, us: nat, id: Id, op: Op) {
    match op
    case OpClaim => !RoundingGap(mem, us, id)
    case OpFail(error, attempts) =>
      id in mem ==>
        || (mem[id].status.PROCESSING? && error != "")
        || (mem[id].status.FAILED? && mem[id].error == Some(error) && mem[id].attempts == attempts)
    case _ => true
  }

  ghost predicate SameAnswer(cfg: Config, db: Db, mem: Mem, us: nat, id: Id, op: Op) {
    op.OpClaim? ==> (Wins(cfg, db, id, Ms(us)) <==> MemWins(cfg, mem, id, us))
  }

  lemma {:induction false} FlooredLease(us: nat, leaseMs: nat)
    ensures (us + 1000 * leaseMs) / 1000 == Ms(us) + leaseMs
  {
  }

  lemma {:induction false} OtherKeysAgree(cfg: Config, db: Db, mem: Mem, us: nat, id: Id, op: Op)
    requires SameStores(db, mem)
    ensures var db', mem' := RedisExec(cfg, db, us, id, op), MemExec(cfg, mem, us, id, op);
            SameStores(db', mem') <==>
            (id in db' <==> id in mem') && (id in db' && id in mem' ==> SameRecord(db'[id].rec, mem'[id]))
  {
    var db', mem' := RedisExec(cfg, db, us, id, op), MemExec(cfg, mem, us, id, op);
    assert forall i :: i != id ==> (i in db' <==> i in db) && (i in mem' <==> i in mem);
    assert forall i :: i != id && i in db ==> db'[i] == db[i] && mem'[i] == mem[i];
    if (id in db' <==> id in mem') && (id in db' && id in mem' ==> SameRecord(db'[id].rec, mem'[id])) {
      forall i ensures i in db'.Keys <==> i in mem'.Keys {
        assert i != id ==> (i in db.Keys <==> i in mem.Keys);
      }
      assert db'.Keys == mem'.Keys;
    } else {
      assert id in db'.Keys <==> id in db';
      assert id in mem'.Keys <==> id in mem';
    }
  }

  /** One operation from equal stores keeps answer and stores equal if and only if it is agreeable. */
  lemma {:induction false} StepAgreement(cfg: Config, db: Db, mem: Mem, us: nat, id: Id, op: Op)
    requires SameStores(db, mem) && WithinTtl(db, us, id)
    ensures AgreeableOp(mem, us, id, op) <==>
            && SameAnswer(cfg, db, mem, us, id, op)
            && SameStores(RedisExec(cfg, db, us, id, op), MemExec(cfg, mem, us, id, op))
  {
    OtherKeysAgree(cfg, db, mem, us, id, op);
    FlooredLease(us, cfg.LeaseMs());
    assert id in db.Keys <==> id in mem.Keys;
    if id in db {
      assert SameRecord(db[id].rec, mem[id]);
    }
  }

  /** No operation of the trace finds a key past its TTL. */
  ghost predicate NoExpiry(cfg: Config, tr: Trace) {
    tr.Then? ==> NoExpiry(cfg, tr.prev) && WithinTtl(DbAfter(cfg, tr.prev), tr.us, tr.id)
  }

  ghost predicate AllAgreeable(cfg: Config, tr: Trace) {
    tr.Then? ==> AllAgreeable(cfg, tr.prev) && AgreeableOp(MemAfter(cfg, tr.prev), tr.us, tr.id, tr.op)
  }

  /** At every point of the trace the answers given and the stores left behind are the same. */
  ghost predicate Indistinguishable(cfg: Config, tr: Trace) {
    && SameStores(DbAfter(cfg, tr), MemAfter(cfg, tr))
    && (tr.Then? ==>
      && Indistinguishable(cfg, tr.prev)
      && SameAnswer(cfg, DbAfter(cfg, tr.prev), MemAfter(cfg, tr.prev), tr.us, tr.id, tr.op))
  }

  /** Within the TTL, the two stores are indistinguishable on exactly the agreeable traces. */
  lemma {:induction false} StoresAgreeExactly(cfg: Config, tr: Trace)
    requires NoExpiry(cfg, tr)
    ensures Indistinguishable(cfg, tr) <==> AllAgreeable(cfg, tr)
  {
    if tr.Then? {
      StoresAgreeExactly(cfg, tr.prev);
      if Indistinguishable(cfg, tr.prev) {
        StepAgreement(cfg, DbAfter(cfg, tr.prev), MemAfter(cfg, tr.prev), tr.us, tr.id, tr.op);
      }
    }
  }

  ghost predicate WholeMilliseconds(tr: Trace) {
    tr.Then? ==> WholeMilliseconds(tr.prev) && tr.us % 1000 == 0
  }

  ghost predicate LeasesOnMilliseconds(mem: Mem) {
    forall i :: i in mem && mem[i].leaseExpiresUs.Some? ==> mem[i].leaseExpiresUs.value % 1000 == 0
  }

  /** On a clock that ticks in whole milliseconds no claim falls into the rounding gap. */
  lemma {:induction false} MillisecondClockHasNoGap(cfg: Config, tr: Trace)
    requires WholeMilliseconds(tr)
    ensures LeasesOnMilliseconds(MemAfter(cfg, tr))
    ensures tr.Then? && tr.op.OpClaim? ==> AgreeableOp(MemAfter(cfg, tr.prev), tr.us, tr.id, tr.op)
  {
    if tr.Then? {
      MillisecondClockHasNoGap(cfg, tr.prev);
      var mem, mem' := MemAfter(cfg, tr.prev), MemAfter(cfg, tr);
      assert LeaseEnd(cfg, tr.us) % 1000 == 0;
      forall i | i in mem' && mem'[i].leaseExpiresUs.Some? ensures mem'[i].leaseExpiresUs.value % 1000 == 0 {
        if i in mem && mem[i] == mem'[i] {
          assert mem[i].leaseExpiresUs.value % 1000 == 0;
        }
      }
    }
  }

  /** In Redis one operation moves a COMPLETED record only by deleting it, until its key expires. */
  lemma {:induction false} RedisCompletedIsTerminal(cfg: Config, db: Db, us: nat, id: Id, target: Id, op: Op)
    requires target in db && db[target].rec.status == COMPLETED && Ms(us) <= db[target].deadlineMs
    ensures var db' := RedisExec(cfg, db, us, id, op);
            if id == target && op == OpDelete then target !in db' else target in db' && db'[target] == db[target]
  {
  }

  /** In memory a COMPLETED record survives an operation if and only if it is not its own mark_failed or delete. */
  lemma {:induction false} MemoryCompletedSurvivesExactly(cfg: Config, mem: Mem, us: nat, id: Id, target: Id, op: Op)
    requires target in mem && mem[target].status == COMPLETED
    ensures var mem' := MemExec(cfg, mem, us, id, op);
            (target in mem' && mem'[target] == mem[target]) <==> !(id == target && (op.OpFail? || op.OpDelete?))
  {
  }

  /** A late mark_failed reopens a completed message in memory: the next claim wins a second time. */
  lemma {:induction false} MemoryReopensCompleted(cfg: Config)
    requires cfg.retryFailed && 1 < cfg.maxRetries
    ensures var tr := Then(Then(Then(Start, 0, "m", OpClaim), 0, "m", OpComplete(Some("done"))),
                           0, "m", OpFail("late", 1));
            && MemWins(cfg, MemAfter(cfg, tr), "m", 0)
            && !Wins(cfg, DbAfter(cfg, tr), "m", 0)
  {
    var t1 := Then(Start, 0, "m", OpClaim);
    var t2 := Then(t1, 0, "m", OpComplete(Some("done")));
    assert MemAfter(cfg, t1)["m"].status == PROCESSING && DbAfter(cfg, t1)["m"].rec.status == PROCESSING;
    assert MemAfter(cfg, t2)["m"].status == COMPLETED && DbAfter(cfg, t2)["m"].rec.status == COMPLETED;
  }

  /** A failure without a text is stored as an empty text in memory and not at all in Redis. */
  lemma {:induction false} EmptyErrorTextDiffers(cfg: Config, n: int)
    ensures var tr := Then(Then(Start, 0, "m", OpClaim), 0, "m", OpFail("", n));
            && NoExpiry(cfg, tr) && !Indistinguishable(cfg, tr)
            && "m" in DbAfter(cfg, tr) && DbAfter(cfg, tr)["m"].rec.error == None
            && "m" in MemAfter(cfg, tr) && MemAfter(cfg, tr)["m"].error == Some("")
  {
    var t1 := Then(Start, 0, "m", OpClaim);
    var t2 := Then(t1, 0, "m", OpFail("", n));
    assert DbAfter(cfg, t1)["m"].rec.status == PROCESSING && MemAfter(cfg, t1)["m"].status == PROCESSING;
    assert NoExpiry(cfg, t1) && NoExpiry(cfg, t2);
    assert "m" in DbAfter(cfg, t2) && !SameRecord(DbAfter(cfg, t2)["m"].rec, MemAfter(cfg, t2)["m"]);
  }
}
