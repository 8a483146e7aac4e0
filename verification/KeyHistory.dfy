/** What the fields of a record say about the operations that led to it. */
module KeyHistory {
  import opened Types
  import opened RedisSpec
  import opened MemorySpec
  import opened StoreTrace

  /** The past of one key since the claim that created its record (its lifetime). */
  datatype History = History(
    createdMs: nat,               // clock of the creating claim
    lastClaimUs: nat,             // clock of the last won claim
    claims: nat,                  // claims won
    leaseReclaims: nat,           // of these, over an expired lease
    failReclaims: nat,            // and over a FAILED record
    lastFailAttempts: int,        // argument of the last accepted mark_failed, 0 if none
    claimsSinceFail: nat,         // claims won since then
    failedSinceClaim: Option<int>) // argument of the last mark_failed accepted since the last won claim

  function NoHistory(): History { History(0, 0, 0, 0, 0, 0, 0, None) }

  function HistoryOf(cfg: Config, tr: Trace, id: Id): History {
    match tr
    case Start => NoHistory()
    case Then(prev, us, i, op) =>
      var h, db := HistoryOf(cfg, prev, id), DbAfter(cfg, prev);
      if i != id then h
      else match op
        case OpClaim =>
          var found := Get(db, id, Ms(us));
          if found.None? then History(Ms(us), us, 1, 0, 0, 0, 1, None)
          else if !Wins(cfg, db, id, Ms(us)) then h
          else h.(lastClaimUs := us,
                  claims := h.claims + 1,
                  leaseReclaims := h.leaseReclaims + One(found.value.rec.status.PROCESSING?),
                  failReclaims := h.failReclaims + One(found.value.rec.status.FAILED?),
                  claimsSinceFail := h.claimsSinceFail + 1,
                  failedSinceClaim := None)
        case OpFail(_, attempts) =>
          if UpdateReply(db, id, Ms(us)) != 1 then h
          else h.(lastFailAttempts := attempts, claimsSinceFail := 0, failedSinceClaim := Some(attempts))
        case _ => h
  }

  ghost predicate RecordTellsHistory(cfg: Config, e: Entry, h: History, now: nat) {
    && e.deadlineMs == h.createdMs + cfg.TtlMs()
    && e.rec.attempts == h.lastFailAttempts + h.claimsSinceFail
    && h.claims == 1 + h.leaseReclaims + h.failReclaims
    && h.lastClaimUs <= now
    && Ms(h.lastClaimUs) <= e.deadlineMs
    && h.createdMs + h.leaseReclaims * cfg.LeaseMs() <= Ms(h.lastClaimUs)
    && (e.rec.status.PROCESSING? ==> e.rec.leaseUntilMs == Some(Ms(h.lastClaimUs) + cfg.LeaseMs()))
    && (e.rec.status.FAILED? ==> h.failedSinceClaim == Some(e.rec.attempts))
  }

  lemma {:induction false} OneMoreLease(n: nat, lease: nat)
    ensures (n + 1) * lease == n * lease + lease
  {
  }

  lemma {:induction false} MsMonotone(a: nat, b: nat)
    requires a <= b
    ensures Ms(a) <= Ms(b)
  {
  }

  lemma {:induction false} HistoryStep(cfg: Config, tr: Trace, id: Id)
    requires tr.Then? && LastUs(tr.prev) <= tr.us
    requires id in DbAfter(cfg, tr.prev) ==>
               RecordTellsHistory(cfg, DbAfter(cfg, tr.prev)[id], HistoryOf(cfg, tr.prev, id), LastUs(tr.prev))
    ensures id in DbAfter(cfg, tr) ==>
              RecordTellsHistory(cfg, DbAfter(cfg, tr)[id], HistoryOf(cfg, tr, id), tr.us)
  {
    var db, h := DbAfter(cfg, tr.prev), HistoryOf(cfg, tr.prev, id);
    OneMoreLease(h.leaseReclaims, cfg.LeaseMs());
    MsMonotone(LastUs(tr.prev), tr.us);
    if id in db {
      MsMonotone(h.lastClaimUs, tr.us);
    }
  }

  /** In every reachable state the stored record agrees with the history of its lifetime. */
  lemma {:induction false} ReachableHistory(cfg: Config, tr: Trace, id: Id)
    requires Ordered(tr)
    ensures id in DbAfter(cfg, tr) ==>
              RecordTellsHistory(cfg, DbAfter(cfg, tr)[id], HistoryOf(cfg, tr, id), LastUs(tr))
  {
    if tr.Then? {
      ReachableHistory(cfg, tr.prev, id);
      HistoryStep(cfg, tr, id);
    }
  }

  /** Attempts equal the argument of the last accepted mark_failed plus the claims won since it. */
  lemma {:induction false} AttemptHistory(cfg: Config, tr: Trace, id: Id)
    requires Ordered(tr) && id in DbAfter(cfg, tr)
    ensures var h := HistoryOf(cfg, tr, id);
            DbAfter(cfg, tr)[id].rec.attempts == h.lastFailAttempts + h.claimsSinceFail
  {
    ReachableHistory(cfg, tr, id);
  }

  /** The deadline is fixed at creation, so k reclaims of expired leases take k leases out of one TTL. */
  lemma {:induction false} BoundedReclaims(cfg: Config, tr: Trace, id: Id)
    requires Ordered(tr) && id in DbAfter(cfg, tr)
    ensures var h := HistoryOf(cfg, tr, id);
            && DbAfter(cfg, tr)[id].deadlineMs == h.createdMs + cfg.TtlMs()
            && h.leaseReclaims * cfg.LeaseMs() <= cfg.TtlMs()
  {
    ReachableHistory(cfg, tr, id);
  }

  /** Two consecutive won claims of one lifetime are set apart by a retriable failure or by a floored lease. */
  lemma {:induction false} ClaimSeparation(cfg: Config, tr: Trace)
    requires Ordered(tr) && tr.Then? && tr.op.OpClaim?
    requires Get(DbAfter(cfg, tr.prev), tr.id, Ms(tr.us)).Some?
    requires Wins(cfg, DbAfter(cfg, tr.prev), tr.id, Ms(tr.us))
    ensures var h := HistoryOf(cfg, tr.prev, tr.id);
            || (h.failedSinceClaim.Some? && h.failedSinceClaim.value < cfg.maxRetries && cfg.retryFailed)
            || tr.us - h.lastClaimUs >= 1000 * cfg.LeaseMs() - 999
  {
    ReachableHistory(cfg, tr.prev, tr.id);
  }

  /**
   The bound is met: a lease taken in the last microsecond of a millisecond is over 999 microseconds early,
   at a time when the in-memory store still refuses the claim.
   */
  lemma {:induction false} ClaimSeparationIsTight(cfg: Config)
    requires 1 <= cfg.processingTimeoutSeconds <= cfg.ttlSeconds
    ensures var first := Then(Start, 999, "m", OpClaim);
            var again := 1000 * cfg.LeaseMs();
            && Wins(cfg, DbAfter(cfg, first), "m", Ms(again))
            && !MemWins(cfg, MemAfter(cfg, first), "m", again)
            && again - HistoryOf(cfg, first, "m").lastClaimUs == 1000 * cfg.LeaseMs() - 999
  {
    var first := Then(Start, 999, "m", OpClaim);
    assert DbAfter(cfg, Start) == map[] && MemAfter(cfg, Start) == map[];
    assert DbAfter(cfg, first)["m"] == ClaimedEntry(cfg, None, 0);
    assert Ms(1000 * cfg.LeaseMs()) == cfg.LeaseMs();
  }

  /** The same for the in-memory store, whose mark_failed takes effect on any record it finds. */
  function MemFailHistory(cfg: Config, tr: Trace, id: Id): (h: (int, nat)) {
    match tr
    case Start => (0, 0)
    case Then(prev, us, i, op) =>
      var h, mem := MemFailHistory(cfg, prev, id), MemAfter(cfg, prev);
      if i != id then h
      else match op
        case OpClaim =>
          if id !in mem then (0, 1) else if MemWins(cfg, mem, id, us) then (h.0, h.1 + 1) else h
        case OpFail(_, attempts) => if id in mem then (attempts, 0) else h
        case _ => h
  }

  lemma {:induction false} MemAttemptHistory(cfg: Config, tr: Trace, id: Id)
    requires id in MemAfter(cfg, tr)
    ensures var h := MemFailHistory(cfg, tr, id);
            MemAfter(cfg, tr)[id].attempts == h.0 + h.1
  {
    if tr.Then? && id in MemAfter(cfg, tr.prev) {
      MemAttemptHistory(cfg, tr.prev, id);
    }
  }
}

/** The laws of one key, for every run of any number of clients over the Redis store. */
module RunHistory {
  import opened Types
  import opened RedisSpec
  import opened StoreTrace
  import opened Deployment
  import opened KeyHistory

  /**
   However clients interleave, crash and retry: attempts add up, the deadline is the creating claim's,
   and a lifetime holds no more expired-lease reclaims than leases fit into one TTL.
   */
  lemma {:induction false} RunLaws(cfg: Config, s0: State, r: Run, id: Id)
    requires Initial(s0) && s0.store.Redis? && Legal(cfg, s0, r)
    requires var b := After(cfg, s0, r).store; b.Redis? && id in b.db
    ensures var e, h := After(cfg, s0, r).store.db[id], HistoryOf(cfg, OpsOf(cfg, s0, r), id);
            && e.rec.attempts == h.lastFailAttempts + h.claimsSinceFail
            && e.deadlineMs == h.createdMs + cfg.TtlMs()
            && h.leaseReclaims * cfg.LeaseMs() <= cfg.TtlMs()
  {
    RunsAreTraces(cfg, s0, r);
    AttemptHistory(cfg, OpsOf(cfg, s0, r), id);
    BoundedReclaims(cfg, OpsOf(cfg, s0, r), id);
  }
}
