/** Single ownership of an id, on either store, and exactly when a run departs from it. */
module Exclusion {
  import opened Types
  import opened ClientMachine
  import opened RedisSpec
  import opened MemorySpec
  import opened StoreTrace
  import opened Deployment

  /** The lease of the client's last claim still runs, on the clock its store reads. */
  predicate InLease(cfg: Config, b: Backend, us: nat, cl: Client) {
    match b
    case Redis(_) => Ms(us) < Ms(cl.claimedAt) + cfg.LeaseMs()
    case Memory(_) => us < LeaseEnd(cfg, cl.claimedAt)
  }

  /** The contract of `processing_timeout_seconds` for one id: its holder is within its lease and the key's TTL. */
  ghost predicate Timely(cfg: Config, s: State, id: Id) {
    forall c :: c in s.clients && HoldsId(s.clients[c], id) ==>
      InLease(cfg, s.store, s.us, s.clients[c]) && InTtl(s.store, s.us, id)
  }

  /** No operator deletes the record of a message that is being handled. */
  ghost predicate SpareDelete(s: State, st: Step, id: Id) {
    st == Delete(id) ==> forall c :: c in s.clients ==> !HoldsId(s.clients[c], id)
  }

  ghost predicate TimelyRun(cfg: Config, s0: State, r: Run, id: Id) {
    && Timely(cfg, After(cfg, s0, r), id)
    && (r.Extend? ==> TimelyRun(cfg, s0, r.prefix, id) && SpareDelete(Before(cfg, s0, r), r.step, id))
  }

  ghost predicate OwnsRecord(cfg: Config, b: Backend, cl: Client) {
    cl.id.Some? &&
    match b
    case Redis(db) =>
      && cl.id.value in db && db[cl.id.value].rec.status == PROCESSING
      && db[cl.id.value].rec.leaseUntilMs == Some(Ms(cl.claimedAt) + cfg.LeaseMs())
    case Memory(mem) =>
      && cl.id.value in mem && mem[cl.id.value].status == PROCESSING
      && mem[cl.id.value].leaseExpiresUs == Some(LeaseEnd(cfg, cl.claimedAt))
  }

  ghost predicate SoleHolder(s: State, id: Id) {
    forall c, d |
      c in s.clients && d in s.clients && HoldsId(s.clients[c], id) && HoldsId(s.clients[d], id) :: c == d
  }

  /** At most one client holds `id`, and its record is PROCESSING under that client's lease. */
  ghost predicate Owned(cfg: Config, s: State, id: Id) {
    && SoleHolder(s, id)
    && forall c :: c in s.clients && HoldsId(s.clients[c], id) ==> OwnsRecord(cfg, s.store, s.clients[c])
  }

  /** The record of a holder, as far as the steps of others go. */
  lemma {:induction false} HeldKeyStays(cfg: Config, s: State, st: Step, d: Cid, id: Id)
    requires Owned(cfg, s, id) && Timely(cfg, s, id) && Enabled(cfg, s, st) && SpareDelete(s, st, id)
    requires d in s.clients && HoldsId(s.clients[d], id) && !(st.Await? && st.c == d)
    ensures OwnsRecord(cfg, StoreNext(cfg, s, st), s.clients[d])
    ensures !Grants(cfg, s.store, s.us, id)
  {
    assert OwnsRecord(cfg, s.store, s.clients[d]);
    if st.Await? {
      var e := Effect(cfg, s.clients[st.c], st.fate);
      if e.Some? && e.value.0 == id {
        assert e.value.1.OpClaim?;
      }
    }
  }

  /** The client that acts: it held the id before, or has just won its claim. */
  lemma {:induction false} ActorOwns(cfg: Config, s: State, c: Cid, fate: Fate, id: Id)
    requires Owned(cfg, s, id) && Enabled(cfg, s, Await(c, fate))
    requires HoldsId(Advanced(cfg, s, s.clients[c], fate), id)
    ensures OwnsRecord(cfg, Written(cfg, s, s.clients[c], fate), Advanced(cfg, s, s.clients[c], fate))
    ensures HoldsId(s.clients[c], id) || Grants(cfg, s.store, s.us, id)
  {
    if HoldsId(s.clients[c], id) {
      assert OwnsRecord(cfg, s.store, s.clients[c]);
    }
  }

  lemma {:induction false} OwnedStep(cfg: Config, s: State, st: Step, id: Id)
    requires Owned(cfg, s, id) && Timely(cfg, s, id) && Enabled(cfg, s, st) && SpareDelete(s, st, id)
    ensures Owned(cfg, Next(cfg, s, st), id)
  {
    var s' := Next(cfg, s, st);
    forall d | d in s'.clients && HoldsId(s'.clients[d], id) ensures OwnsRecord(cfg, s'.store, s'.clients[d]) {
      if st.Await? && st.c == d {
        ActorOwns(cfg, s, d, st.fate, id);
      } else {
        HeldKeyStays(cfg, s, st, d, id);
      }
    }
    forall c, d | c in s'.clients && d in s'.clients && HoldsId(s'.clients[c], id) && HoldsId(s'.clients[d], id)
      ensures c == d
    {
      if st.Await? && c != d && (st.c == c || st.c == d) {
        ActorOwns(cfg, s, st.c, st.fate, id);
        HeldKeyStays(cfg, s, st, if st.c == c then d else c, id);
      }
    }
  }

  /**
   With any number of clients, crashes and lost calls, and whatever happens to other ids: a run that is
   timely for an id has at most one holder of it, which owns its PROCESSING record, on either store.
   */
  lemma {:induction false} SingleOwner(cfg: Config, s0: State, r: Run, id: Id)
    requires Initial(s0) && Legal(cfg, s0, r) && TimelyRun(cfg, s0, r, id)
    ensures Owned(cfg, After(cfg, s0, r), id)
  {
    if r.Extend? {
      SingleOwner(cfg, s0, r.prefix, id);
      OwnedStep(cfg, Before(cfg, s0, r), r.step, id);
    }
  }

  /** Over the in-memory store no TTL is assumed: a holder inside its exact lease keeps the record it claimed. */
  lemma {:induction false} SingleOwnerInMemory(cfg: Config, s0: State, r: Run, id: Id)
    requires Initial(s0) && s0.store == Memory(map[]) && Legal(cfg, s0, r) && TimelyRun(cfg, s0, r, id)
    ensures var s := After(cfg, s0, r);
            && s.store.Memory? && SoleHolder(s, id)
            && forall c :: c in s.clients && HoldsId(s.clients[c], id) ==>
              && id in s.store.mem && s.store.mem[id].status == PROCESSING
              && s.store.mem[id].leaseExpiresUs == Some(LeaseEnd(cfg, s.clients[c].claimedAt))
  {
    SingleOwner(cfg, s0, r, id);
    RunKeepsBackend(cfg, s0, r);
    var s := After(cfg, s0, r);
    forall c | c in s.clients && HoldsId(s.clients[c], id)
      ensures id in s.store.mem && s.store.mem[id].status == PROCESSING
      ensures s.store.mem[id].leaseExpiresUs == Some(LeaseEnd(cfg, s.clients[c].claimedAt))
    {
      assert OwnsRecord(cfg, s.store, s.clients[c]);
    }
  }

  // ---------------------------------------------------------------- the marks of an owner

  /** mark_completed and, on Redis, mark_failed take effect exactly on a readable PROCESSING record. */
  predicate Accepts(b: Backend, us: nat, id: Id) {
    match b
    case Redis(db) => UpdateReply(db, id, Ms(us)) == 1
    case Memory(mem) => id in mem && mem[id].status == PROCESSING
  }

  /** Every mark a client is about to issue is accepted. */
  lemma {:induction false} MarksAccepted(cfg: Config, s0: State, r: Run, c: Cid, id: Id)
    requires Initial(s0) && Legal(cfg, s0, r) && TimelyRun(cfg, s0, r, id)
    requires var cls := After(cfg, s0, r).clients; c in cls && HoldsId(cls[c], id)
    ensures Accepts(After(cfg, s0, r).store, After(cfg, s0, r).us, id)
  {
    SingleOwner(cfg, s0, r, id);
    var s := After(cfg, s0, r);
    assert OwnsRecord(cfg, s.store, s.clients[c]);
  }

  /** The script takes an empty error for none; the dictionary keeps it. */
  function StoredError(b: Backend, error: string): Option<string> {
    if b.Redis? && error == "" then None else Some(error)
  }

  /** What a client reports is what its record then holds, and nothing of an earlier attempt. */
  lemma {:induction false} MarksRecorded(cfg: Config, s0: State, r: Run, c: Cid, id: Id)
    requires Initial(s0) && Legal(cfg, s0, r) && TimelyRun(cfg, s0, r, id)
    requires var cls := After(cfg, s0, r).clients; c in cls && HoldsId(cls[c], id) && !cls[c].pc.Handling?
    ensures var s := After(cfg, s0, r);
            var pc := s.clients[c].pc;
            var before, after := Reported(s.store, id), Reported(Written(cfg, s, s.clients[c], Ok), id);
            && before.Some?
            && (pc.Succeeded? ==> after == Some(Report(COMPLETED, before.value.attempts, pc.value, None)))
            && (pc.Raised? ==> after == Some(Report(FAILED, pc.attempt, None, StoredError(s.store, pc.error))))
  {
    SingleOwner(cfg, s0, r, id);
    StoreStaysWellKept(cfg, s0, r);
    var s := After(cfg, s0, r);
    assert OwnsRecord(cfg, s.store, s.clients[c]);
    match s.store
    case Redis(db) => assert WellFormed(db[id].rec);
    case Memory(mem) => assert MemWellFormed(mem[id]);
  }

  // ---------------------------------------------------------------- when two clients hold one id

  /** A claim after whose grant the handler is called. */
  predicate ClaimsToHandle(cfg: Config, cl: Client) {
    cl.pc.Reclaiming? || (cl.pc.Claiming? && EnterLoop(cl.kind, cfg).Handling?)
  }

  /** The claim of a second client is answered while another holds `id` and nothing readable blocks it. */
  ghost predicate TakesOver(cfg: Config, s: State, st: Step, id: Id) {
    && st.Await? && st.fate.Ok? && st.c in s.clients && s.clients[st.c].id == Some(id)
    && ClaimsToHandle(cfg, s.clients[st.c]) && !Blocked(cfg, s.store, s.us, id)
    && exists c :: c in s.clients && c != st.c && HoldsId(s.clients[c], id)
  }

  /**
   From any well-kept state with `c` at work on `id`, in or out of its lease: the claim of another client
   makes it a second holder exactly if the key is missing or expired, the record FAILED with retries
   left, or its lease over.
   */
  lemma {:induction false} OvertakenExactly(cfg: Config, s: State, c: Cid, d: Cid, id: Id)
    requires s.store.Redis? && AllWellFormed(s.store.db)
    requires c in s.clients && d in s.clients && c != d && HoldsId(s.clients[c], id)
    requires s.clients[d].id == Some(id) && ClaimsToHandle(cfg, s.clients[d])
    ensures var s', db := Next(cfg, s, Await(d, Ok)), s.store.db;
            && HoldsId(s'.clients[c], id)
            && (HoldsId(s'.clients[d], id) <==>
              || id !in db || db[id].deadlineMs < Ms(s.us)
              || (db[id].rec.status == FAILED && cfg.retryFailed && db[id].rec.attempts < cfg.maxRetries)
              || (db[id].rec.status == PROCESSING && db[id].rec.leaseUntilMs.value <= Ms(s.us)))
  {
    if id in s.store.db {
      assert WellFormed(s.store.db[id].rec);
    }
  }

  /** A client begins to hold `id` only by a claim that is granted to it. */
  lemma {:induction false} HoldsAfter(cfg: Config, s: State, st: Step, d: Cid, id: Id)
    requires WellKept(s.store) && Enabled(cfg, s, st) && d in s.clients
    ensures st.Await? && st.c == d && !HoldsId(s.clients[d], id) ==>
              (HoldsId(Next(cfg, s, st).clients[d], id) <==>
              && st.fate.Ok? && s.clients[d].id == Some(id)
              && ClaimsToHandle(cfg, s.clients[d]) && !Blocked(cfg, s.store, s.us, id))
    ensures HoldsId(Next(cfg, s, st).clients[d], id) && !HoldsId(s.clients[d], id) ==> st.Await? && st.c == d
    ensures HoldsId(s.clients[d], id) && !HoldsId(Next(cfg, s, st).clients[d], id) ==>
              (st.Await? || st.Crash?) && st.c == d
  {
    RefusedExactly(cfg, s.store, s.us, id);
  }

  lemma {:induction false} TwoHoldersExactly(cfg: Config, s: State, st: Step, id: Id)
    requires WellKept(s.store) && SoleHolder(s, id) && Enabled(cfg, s, st)
    ensures SoleHolder(Next(cfg, s, st), id) <==> !TakesOver(cfg, s, st, id)
  {
    var s' := Next(cfg, s, st);
    forall d | d in s.clients {
      HoldsAfter(cfg, s, st, d, id);
    }
    if TakesOver(cfg, s, st, id) {
      var c :| c in s.clients && c != st.c && HoldsId(s.clients[c], id);
      assert HoldsId(s'.clients[c], id) && HoldsId(s'.clients[st.c], id);
    } else {
      forall c, d | c in s'.clients && d in s'.clients && HoldsId(s'.clients[c], id) && HoldsId(s'.clients[d], id)
        ensures c == d
      {
      }
    }
  }

  ghost predicate AlwaysSole(cfg: Config, s0: State, r: Run, id: Id) {
    SoleHolder(After(cfg, s0, r), id) && (r.Extend? ==> AlwaysSole(cfg, s0, r.prefix, id))
  }

  ghost predicate NeverTakenOver(cfg: Config, s0: State, r: Run, id: Id) {
    r.Extend? ==> NeverTakenOver(cfg, s0, r.prefix, id) && !TakesOver(cfg, Before(cfg, s0, r), r.step, id)
  }

  /**
   With no timing assumption: the winner of a claim is the sole processor throughout a run exactly if
   none is taken over.
   */
  lemma {:induction false} SoleProcessorExactly(cfg: Config, s0: State, r: Run, id: Id)
    requires Initial(s0) && Legal(cfg, s0, r)
    ensures AlwaysSole(cfg, s0, r, id) <==> NeverTakenOver(cfg, s0, r, id)
  {
    if r.Extend? {
      SoleProcessorExactly(cfg, s0, r.prefix, id);
      StoreStaysWellKept(cfg, s0, r.prefix);
      if AlwaysSole(cfg, s0, r.prefix, id) {
        TwoHoldersExactly(cfg, Before(cfg, s0, r), r.step, id);
      }
    }
  }

  /** The lease contract is enough for that. */
  lemma {:induction false} TimelyIsSole(cfg: Config, s0: State, r: Run, id: Id)
    requires Initial(s0) && Legal(cfg, s0, r) && TimelyRun(cfg, s0, r, id)
    ensures AlwaysSole(cfg, s0, r, id) && NeverTakenOver(cfg, s0, r, id)
  {
    SingleOwner(cfg, s0, r, id);
    SoleProcessorExactly(cfg, s0, r, id);
    if r.Extend? {
      TimelyIsSole(cfg, s0, r.prefix, id);
    }
  }
}
