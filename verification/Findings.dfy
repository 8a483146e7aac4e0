/** Runs that show where the guarantees of the framework end, each with the condition that decides it. */
module Findings {
  import opened Types
  import opened ClientMachine
  import opened RedisSpec
  import opened StoreTrace
  import opened Deployment
  import opened Deliveries
  import opened Exclusion
  import opened Witnesses

  /**
   Whatever a dead owner left behind, a redelivered record is handled exactly if no readable record blocks it;
   else it is skipped.
   */
  lemma {:induction false} RedeliveryHandledExactly(cfg: Config, s0: State, r: Run, c: Cid, id: Id)
    requires 1 <= cfg.maxRetries && Initial(s0) && Legal(cfg, s0, r) && c in After(cfg, s0, r).clients
    requires var cl := After(cfg, s0, r).clients[c]; cl.kind.Consumer? && cl.pc == Claiming && cl.id == Some(id)
    ensures var s := After(cfg, s0, r);
            Next(cfg, s, Await(c, Ok)).clients[c].pc ==
            if Blocked(cfg, s.store, s.us, id) then Skipping else Handling(1)
  {
    StoreStaysWellKept(cfg, s0, r);
    RefusedExactly(cfg, After(cfg, s0, r).store, After(cfg, s0, r).us, id);
  }

  // ---------------------------------------------------------------- a message lost to a live lease

  function Lone(cfg: Config, cl: Client): State { Cells(0, First(cfg), cl, Reader()) }

  /** It dies and is given the record again. */
  lemma Redelivered(cfg: Config, p: Follower)
    requires Kept(cfg, true, p) && p(Held(cfg), NoDeeds())
    requires 1 <= cfg.maxRetries && 1 <= cfg.processingTimeoutSeconds
    ensures p(Lone(cfg, At(Claiming, 0)), NoDeeds())
  {
    var a := Held(cfg);
    var b := Lone(cfg, At(Idle, 0).(position := 0));
    var c := Lone(cfg, At(Claiming, 0));
    assert p(b, NoDeeds()) by {
      Move(cfg, true, p, a, NoDeeds(), Crash(0), b, NoDeeds());
    }
    assert p(c, NoDeeds()) by {
      Move(cfg, true, p, b, NoDeeds(), Begin(0, Some(M)), c, NoDeeds());
    }
  }

  /** The lease still runs: the record is skipped. */
  lemma Skipped(cfg: Config, p: Follower)
    requires Kept(cfg, true, p) && p(Lone(cfg, At(Claiming, 0)), NoDeeds())
    requires 1 <= cfg.maxRetries && 1 <= cfg.processingTimeoutSeconds
    ensures p(Lone(cfg, At(Done(ClaimLost), 0).(committed := 1)), NoDeeds())
  {
    var c := Lone(cfg, At(Claiming, 0));
    var d := Lone(cfg, At(Skipping, 0));
    var e := Lone(cfg, At(Committing(ClaimLost), 0));
    var f := Lone(cfg, At(Done(ClaimLost), 0).(committed := 1));
    assert p(d, NoDeeds()) by {
      Move(cfg, true, p, c, NoDeeds(), Await(0, Ok), d, NoDeeds());
    }
    assert p(e, NoDeeds()) by {
      Move(cfg, true, p, d, NoDeeds(), Await(0, Ok), e, NoDeeds());
    }
    assert p(f, NoDeeds()) by {
      Move(cfg, true, p, e, NoDeeds(), Await(0, Ok), f, NoDeeds());
    }
  }

  /** A consumer dies after its claim and gets the record back within the lease: committed, and never handled. */
  lemma CommittedWithoutHandling(cfg: Config)
    requires 1 <= cfg.maxRetries && 1 <= cfg.processingTimeoutSeconds
    ensures Possible(cfg, true, Two(), Lone(cfg, At(Done(ClaimLost), 0).(committed := 1)), Did(0, 0, 0))
  {
    RunsAreKept(cfg, true, Two());
    var p: Follower := (s, d) => Possible(cfg, true, Two(), s, d);
    FirstClaim(cfg, true, p);
    Redelivered(cfg, p);
    Skipped(cfg, p);
  }

  // ---------------------------------------------------------------- a dead letter lost to its own record

  function FailedOnce(cfg: Config): Entry { First(cfg).(rec := UpdatedRec(First(cfg).rec, FAILED, None, "e", Some(1))) }

  function Given(cfg: Config, cl: Client): State { Cells(0, FailedOnce(cfg), cl, Reader()) }

  /** Its only attempt raises and is reported. */
  lemma RaisesOnce(cfg: Config, p: Follower)
    requires Kept(cfg, true, p) && p(Held(cfg), NoDeeds())
    requires cfg.maxRetries == 1 && 1 <= cfg.processingTimeoutSeconds
    ensures p(Given(cfg, At(Dropping(Some("e")), 0)), Did(1, 0, 0))
  {
    var a := Held(cfg);
    var b := Lone(cfg, At(Raised(1, "e"), 0));
    var c := Given(cfg, At(Dropping(Some("e")), 0));
    assert p(b, Did(1, 0, 0)) by {
      Move(cfg, true, p, a, NoDeeds(), Await(0, HandlerRaises("e")), b, Did(1, 0, 0));
    }
    assert p(c, Did(1, 0, 0)) by {
      Overwrite(First(cfg), FailedOnce(cfg));
      Move(cfg, true, p, b, Did(1, 0, 0), Await(0, Ok), c, Did(1, 0, 0));
    }
  }

  /** It dies before the send and is given the record again. */
  lemma DiesBeforeSend(cfg: Config, p: Follower)
    requires Kept(cfg, true, p) && p(Given(cfg, At(Dropping(Some("e")), 0)), Did(1, 0, 0))
    requires cfg.maxRetries == 1 && 1 <= cfg.processingTimeoutSeconds
    ensures p(Given(cfg, At(Claiming, 0)), Did(1, 0, 0))
  {
    var c := Given(cfg, At(Dropping(Some("e")), 0));
    var d := Given(cfg, At(Idle, 0).(position := 0));
    var e := Given(cfg, At(Claiming, 0));
    assert p(d, Did(1, 0, 0)) by {
      Move(cfg, true, p, c, Did(1, 0, 0), Crash(0), d, Did(1, 0, 0));
    }
    assert p(e, Did(1, 0, 0)) by {
      Move(cfg, true, p, d, Did(1, 0, 0), Begin(0, Some(M)), e, Did(1, 0, 0));
    }
  }

  /** The FAILED record has no retries left: the record is skipped as a duplicate. */
  lemma SkippedAsDuplicate(cfg: Config, p: Follower)
    requires Kept(cfg, true, p) && p(Given(cfg, At(Claiming, 0)), Did(1, 0, 0))
    requires cfg.maxRetries == 1 && 1 <= cfg.processingTimeoutSeconds
    ensures p(Given(cfg, At(Done(Duplicate), 0).(committed := 1)), Did(1, 0, 0))
  {
    var e := Given(cfg, At(Claiming, 0));
    var f := Given(cfg, At(Skipping, 0));
    var g := Given(cfg, At(Committing(Duplicate), 0));
    var h := Given(cfg, At(Done(Duplicate), 0).(committed := 1));
    assert p(f, Did(1, 0, 0)) by {
      Move(cfg, true, p, e, Did(1, 0, 0), Await(0, Ok), f, Did(1, 0, 0));
    }
    assert p(g, Did(1, 0, 0)) by {
      Move(cfg, true, p, f, Did(1, 0, 0), Await(0, Ok), g, Did(1, 0, 0));
    }
    assert p(h, Did(1, 0, 0)) by {
      Move(cfg, true, p, g, Did(1, 0, 0), Await(0, Ok), h, Did(1, 0, 0));
    }
  }

  /**
   A consumer dies between its last mark_failed and the DLQ: the message is committed, having neither
   succeeded nor been dead-lettered.
   */
  lemma LostDeadLetter(cfg: Config)
    requires cfg.maxRetries == 1 && 1 <= cfg.processingTimeoutSeconds
    ensures Possible(cfg, true, Two(), Given(cfg, At(Done(Duplicate), 0).(committed := 1)), Did(1, 0, 0))
  {
    RunsAreKept(cfg, true, Two());
    var p: Follower := (s, d) => Possible(cfg, true, Two(), s, d);
    FirstClaim(cfg, true, p);
    RaisesOnce(cfg, p);
    DiesBeforeSend(cfg, p);
    SkippedAsDuplicate(cfg, p);
  }

  // ---------------------------------------------------------------- an owner slower than its lease

  function Ended(cfg: Config): nat { 1000 * cfg.LeaseMs() }

  /** The entry after one more won claim. */
  function Again(cfg: Config, e: Entry, us: nat): Entry { ClaimedEntry(cfg, Some(e), Ms(us)) }

  function Stolen(cfg: Config): Entry { Again(cfg, First(cfg), Ended(cfg)) }

  function Slow(cfg: Config): Entry {
    Stolen(cfg).(rec := UpdatedRec(Stolen(cfg).rec, COMPLETED, Some("slow"), "", None))
  }

  function Late(cfg: Config, e: Entry, pc0: Pc, pc1: Pc, claimedAt1: nat): State {
    Cells(Ended(cfg), e, At(pc0, 0), At(pc1, claimedAt1))
  }

  /** The lease of consumer 0 runs out and consumer 1 claims. */
  lemma Overtaken(cfg: Config, p: Follower)
    requires Kept(cfg, false, p) && p(Held(cfg), NoDeeds())
    requires 1 <= cfg.maxRetries && cfg.processingTimeoutSeconds <= cfg.ttlSeconds
    ensures p(Late(cfg, Stolen(cfg), Handling(1), Handling(1), Ended(cfg)), NoDeeds())
  {
    var a := Held(cfg);
    var b := Cells(Ended(cfg), First(cfg), At(Handling(1), 0), Reader());
    var c := Late(cfg, First(cfg), Handling(1), Claiming, 0);
    var d := Late(cfg, Stolen(cfg), Handling(1), Handling(1), Ended(cfg));
    assert p(b, NoDeeds()) by {
      Move(cfg, false, p, a, NoDeeds(), Tick(Ended(cfg)), b, NoDeeds());
    }
    assert p(c, NoDeeds()) by {
      Move(cfg, false, p, b, NoDeeds(), Begin(1, Some(M)), c, NoDeeds());
    }
    assert p(d, NoDeeds()) by {
      Overwrite(First(cfg), Stolen(cfg));
      assert Ms(Ended(cfg)) == cfg.LeaseMs();
      Move(cfg, false, p, c, NoDeeds(), Await(1, Ok), d, NoDeeds());
    }
  }

  /** Both handlers return. */
  lemma BothReturn(cfg: Config, p: Follower)
    requires Kept(cfg, false, p) && p(Late(cfg, Stolen(cfg), Handling(1), Handling(1), Ended(cfg)), NoDeeds())
    requires 1 <= cfg.maxRetries && cfg.processingTimeoutSeconds <= cfg.ttlSeconds
    ensures p(Late(cfg, Stolen(cfg), Succeeded(Some("slow")), Succeeded(Some("new")), Ended(cfg)), Did(2, 2, 0))
  {
    var d := Late(cfg, Stolen(cfg), Handling(1), Handling(1), Ended(cfg));
    var e := Late(cfg, Stolen(cfg), Succeeded(Some("slow")), Handling(1), Ended(cfg));
    var f := Late(cfg, Stolen(cfg), Succeeded(Some("slow")), Succeeded(Some("new")), Ended(cfg));
    assert p(e, Did(1, 1, 0)) by {
      Move(cfg, false, p, d, NoDeeds(), Await(0, HandlerReturns(Some("slow"))), e, Did(1, 1, 0));
    }
    assert p(f, Did(2, 2, 0)) by {
      Move(cfg, false, p, e, Did(1, 1, 0), Await(1, HandlerReturns(Some("new"))), f, Did(2, 2, 0));
    }
  }

  /** The stale mark is accepted, the mark of the present owner is not. */
  lemma BothMark(cfg: Config, p: Follower)
    requires Kept(cfg, false, p)
    requires p(Late(cfg, Stolen(cfg), Succeeded(Some("slow")), Succeeded(Some("new")), Ended(cfg)), Did(2, 2, 0))
    requires 1 <= cfg.maxRetries && cfg.processingTimeoutSeconds <= cfg.ttlSeconds
    ensures p(Late(cfg, Slow(cfg), Marked(Some("slow")), Marked(Some("new")), Ended(cfg)), Did(2, 2, 0))
  {
    var f := Late(cfg, Stolen(cfg), Succeeded(Some("slow")), Succeeded(Some("new")), Ended(cfg));
    var g := Late(cfg, Slow(cfg), Marked(Some("slow")), Succeeded(Some("new")), Ended(cfg));
    var h := Late(cfg, Slow(cfg), Marked(Some("slow")), Marked(Some("new")), Ended(cfg));
    assert p(g, Did(2, 2, 0)) by {
      Overwrite(Stolen(cfg), Slow(cfg));
      assert Ms(Ended(cfg)) == cfg.LeaseMs();
      Move(cfg, false, p, f, Did(2, 2, 0), Await(0, Ok), g, Did(2, 2, 0));
    }
    assert p(h, Did(2, 2, 0)) by {
      Move(cfg, false, p, g, Did(2, 2, 0), Await(1, Ok), h, Did(2, 2, 0));
    }
  }

  /** An owner slower than its lease: both handlers succeed, and the stale result is the one kept. */
  lemma SlowOwnerRunsTwice(cfg: Config)
    requires 1 <= cfg.maxRetries && cfg.processingTimeoutSeconds <= cfg.ttlSeconds
    ensures Slow(cfg).rec.status == COMPLETED && Slow(cfg).rec.result == Some("slow")
    ensures Possible(cfg, false, Two(), Late(cfg, Slow(cfg), Marked(Some("slow")), Marked(Some("new")), Ended(cfg)),
                     Did(2, 2, 0))
  {
    RunsAreKept(cfg, false, Two());
    var p: Follower := (s, d) => Possible(cfg, false, Two(), s, d);
    FirstClaim(cfg, false, p);
    Overtaken(cfg, p);
    BothReturn(cfg, p);
    BothMark(cfg, p);
  }

  /** The stale owner's failure is accepted: the record of the present owner is open to claims. */
  function Reopened(cfg: Config): Entry {
    Stolen(cfg).(rec := UpdatedRec(Stolen(cfg).rec, FAILED, None, "e", Some(1)))
  }

  function Regained(cfg: Config): Entry { Again(cfg, Reopened(cfg), Ended(cfg)) }

  lemma StaleRaise(cfg: Config, p: Follower)
    requires Kept(cfg, false, p) && p(Late(cfg, Stolen(cfg), Handling(1), Handling(1), Ended(cfg)), NoDeeds())
    requires 2 <= cfg.maxRetries
    ensures p(Late(cfg, Stolen(cfg), Raised(1, "e"), Handling(1), Ended(cfg)), Did(1, 0, 0))
  {
    Move(cfg, false, p, Late(cfg, Stolen(cfg), Handling(1), Handling(1), Ended(cfg)), NoDeeds(),
         Await(0, HandlerRaises("e")), Late(cfg, Stolen(cfg), Raised(1, "e"), Handling(1), Ended(cfg)), Did(1, 0, 0));
  }

  lemma StaleFailure(cfg: Config, p: Follower)
    requires Kept(cfg, false, p) && p(Late(cfg, Stolen(cfg), Raised(1, "e"), Handling(1), Ended(cfg)), Did(1, 0, 0))
    requires 2 <= cfg.maxRetries && cfg.retryFailed && cfg.processingTimeoutSeconds <= cfg.ttlSeconds
    ensures p(Late(cfg, Reopened(cfg), Sleeping(1, "e"), Handling(1), Ended(cfg)), Did(1, 0, 0))
  {
    var e := Late(cfg, Stolen(cfg), Raised(1, "e"), Handling(1), Ended(cfg));
    var f := Late(cfg, Reopened(cfg), Sleeping(1, "e"), Handling(1), Ended(cfg));
    assert p(f, Did(1, 0, 0)) by {
      Overwrite(Stolen(cfg), Reopened(cfg));
      assert Ms(Ended(cfg)) == cfg.LeaseMs();
      Move(cfg, false, p, e, Did(1, 0, 0), Await(0, Ok), f, Did(1, 0, 0));
    }
  }

  function Rivals(cfg: Config): State {
    Cells(Ended(cfg), Regained(cfg), At(Handling(2), Ended(cfg)), At(Handling(1), Ended(cfg)))
  }

  /** It backs off and wins its reclaim beside the owner at work. */
  lemma Reclaims(cfg: Config, p: Follower)
    requires Kept(cfg, false, p) && p(Late(cfg, Reopened(cfg), Sleeping(1, "e"), Handling(1), Ended(cfg)), Did(1, 0, 0))
    requires 2 <= cfg.maxRetries && cfg.retryFailed && cfg.processingTimeoutSeconds <= cfg.ttlSeconds
    ensures p(Rivals(cfg), Did(1, 0, 0))
  {
    var f := Late(cfg, Reopened(cfg), Sleeping(1, "e"), Handling(1), Ended(cfg));
    var g := Late(cfg, Reopened(cfg), Reclaiming(1, "e"), Handling(1), Ended(cfg));
    assert p(g, Did(1, 0, 0)) by {
      Move(cfg, false, p, f, Did(1, 0, 0), Await(0, Ok), g, Did(1, 0, 0));
    }
    assert p(Rivals(cfg), Did(1, 0, 0)) by {
      Overwrite(Reopened(cfg), Regained(cfg));
      assert Ms(Ended(cfg)) == cfg.LeaseMs();
      Move(cfg, false, p, g, Did(1, 0, 0), Await(0, Ok), Rivals(cfg), Did(1, 0, 0));
    }
  }

  /** After one lapse of the lease, two clients hold the message with both leases and the TTL running. */
  lemma StaleFailureMakesRivals(cfg: Config)
    requires 2 <= cfg.maxRetries && cfg.retryFailed && 1 <= cfg.processingTimeoutSeconds <= cfg.ttlSeconds
    ensures Timely(cfg, Rivals(cfg), M) && !SoleHolder(Rivals(cfg), M)
    ensures Possible(cfg, false, Two(), Rivals(cfg), Did(1, 0, 0))
  {
    RunsAreKept(cfg, false, Two());
    var p: Follower := (s, d) => Possible(cfg, false, Two(), s, d);
    FirstClaim(cfg, false, p);
    Overtaken(cfg, p);
    StaleRaise(cfg, p);
    StaleFailure(cfg, p);
    Reclaims(cfg, p);
    assert Ms(Ended(cfg)) == cfg.LeaseMs();
    assert HoldsId(Rivals(cfg).clients[0], M) && HoldsId(Rivals(cfg).clients[1], M);
  }

  // ---------------------------------------------------------------- completed by one, given up by another

  function Retaken(cfg: Config): Entry { Again(cfg, FailedOnce(cfg), 0) }

  function Completed(cfg: Config): Entry {
    Retaken(cfg).(rec := UpdatedRec(Retaken(cfg).rec, COMPLETED, None, "", None))
  }

  function Both(e: Entry, pc0: Pc, pc1: Pc): State { Cells(0, e, At(pc0, 0), At(pc1, 0)) }

  /** The handler of consumer 0 raises and it backs off. */
  lemma BacksOff(cfg: Config, p: Follower)
    requires Kept(cfg, true, p) && p(Held(cfg), NoDeeds())
    requires 2 <= cfg.maxRetries && cfg.retryFailed && 1 <= cfg.processingTimeoutSeconds
    ensures p(Cells(0, FailedOnce(cfg), At(Sleeping(1, "e"), 0), Reader()), Did(1, 0, 0))
  {
    var a := Held(cfg);
    var b := Lone(cfg, At(Raised(1, "e"), 0));
    var c := Cells(0, FailedOnce(cfg), At(Sleeping(1, "e"), 0), Reader());
    assert p(b, Did(1, 0, 0)) by {
      Move(cfg, true, p, a, NoDeeds(), Await(0, HandlerRaises("e")), b, Did(1, 0, 0));
    }
    assert p(c, Did(1, 0, 0)) by {
      Overwrite(First(cfg), FailedOnce(cfg));
      Move(cfg, true, p, b, Did(1, 0, 0), Await(0, Ok), c, Did(1, 0, 0));
    }
  }

  /** Consumer 1 claims the FAILED record. */
  lemma SecondClaims(cfg: Config, p: Follower)
    requires Kept(cfg, true, p) && p(Cells(0, FailedOnce(cfg), At(Sleeping(1, "e"), 0), Reader()), Did(1, 0, 0))
    requires 2 <= cfg.maxRetries && cfg.retryFailed && 1 <= cfg.processingTimeoutSeconds
    ensures p(Both(Retaken(cfg), Sleeping(1, "e"), Handling(1)), Did(1, 0, 0))
  {
    var c := Cells(0, FailedOnce(cfg), At(Sleeping(1, "e"), 0), Reader());
    var d := Both(FailedOnce(cfg), Sleeping(1, "e"), Claiming);
    var e := Both(Retaken(cfg), Sleeping(1, "e"), Handling(1));
    assert p(d, Did(1, 0, 0)) by {
      Move(cfg, true, p, c, Did(1, 0, 0), Begin(1, Some(M)), d, Did(1, 0, 0));
    }
    assert p(e, Did(1, 0, 0)) by {
      Overwrite(FailedOnce(cfg), Retaken(cfg));
      Move(cfg, true, p, d, Did(1, 0, 0), Await(1, Ok), e, Did(1, 0, 0));
    }
  }

  /** It handles and completes the message. */
  lemma Completes(cfg: Config, p: Follower)
    requires Kept(cfg, true, p) && p(Both(Retaken(cfg), Sleeping(1, "e"), Handling(1)), Did(1, 0, 0))
    requires 2 <= cfg.maxRetries && cfg.retryFailed && 1 <= cfg.processingTimeoutSeconds
    ensures p(Both(Completed(cfg), Sleeping(1, "e"), Marked(None)), Did(2, 1, 0))
  {
    var e := Both(Retaken(cfg), Sleeping(1, "e"), Handling(1));
    var f := Both(Retaken(cfg), Sleeping(1, "e"), Succeeded(None));
    var g := Both(Completed(cfg), Sleeping(1, "e"), Marked(None));
    assert p(f, Did(2, 1, 0)) by {
      Move(cfg, true, p, e, Did(1, 0, 0), Await(1, HandlerReturns(None)), f, Did(2, 1, 0));
    }
    assert p(g, Did(2, 1, 0)) by {
      Overwrite(Retaken(cfg), Completed(cfg));
      Move(cfg, true, p, f, Did(2, 1, 0), Await(1, Ok), g, Did(2, 1, 0));
    }
  }

  /** Consumer 0 wakes up and loses its reclaim. */
  lemma LosesReclaim(cfg: Config, p: Follower)
    requires Kept(cfg, true, p) && p(Both(Completed(cfg), Sleeping(1, "e"), Marked(None)), Did(2, 1, 0))
    requires 2 <= cfg.maxRetries && cfg.retryFailed && 1 <= cfg.processingTimeoutSeconds
    ensures p(Both(Completed(cfg), Dropping(Some("e")), Marked(None)), Did(2, 1, 0))
  {
    var g := Both(Completed(cfg), Sleeping(1, "e"), Marked(None));
    var h := Both(Completed(cfg), Reclaiming(1, "e"), Marked(None));
    var i := Both(Completed(cfg), Dropping(Some("e")), Marked(None));
    assert p(h, Did(2, 1, 0)) by {
      Move(cfg, true, p, g, Did(2, 1, 0), Await(0, Ok), h, Did(2, 1, 0));
    }
    assert p(i, Did(2, 1, 0)) by {
      Move(cfg, true, p, h, Did(2, 1, 0), Await(0, Ok), i, Did(2, 1, 0));
    }
  }

  /** It gives the message up. */
  lemma GivesUp(cfg: Config, p: Follower)
    requires Kept(cfg, true, p) && p(Both(Completed(cfg), Dropping(Some("e")), Marked(None)), Did(2, 1, 0))
    requires 2 <= cfg.maxRetries && cfg.retryFailed && 1 <= cfg.processingTimeoutSeconds
    ensures p(Both(Completed(cfg), Committing(DeadLettered(Some("e"))), Marked(None)), Did(2, 1, 1))
  {
    Move(cfg, true, p, Both(Completed(cfg), Dropping(Some("e")), Marked(None)), Did(2, 1, 0), Await(0, Ok),
         Both(Completed(cfg), Committing(DeadLettered(Some("e"))), Marked(None)), Did(2, 1, 1));
  }

  /** Within the lease contract: completed by one consumer during the backoff of another, which then dead-letters it. */
  lemma DeadLetteredThoughCompleted(cfg: Config)
    requires 2 <= cfg.maxRetries && cfg.retryFailed && 1 <= cfg.processingTimeoutSeconds
    ensures Completed(cfg).rec.status == COMPLETED
    ensures Possible(cfg, true, Two(), Both(Completed(cfg), Committing(DeadLettered(Some("e"))), Marked(None)),
                     Did(2, 1, 1))
  {
    RunsAreKept(cfg, true, Two());
    var p: Follower := (s, d) => Possible(cfg, true, Two(), s, d);
    FirstClaim(cfg, true, p);
    BacksOff(cfg, p);
    SecondClaims(cfg, p);
    Completes(cfg, p);
    LosesReclaim(cfg, p);
    GivesUp(cfg, p);
  }

  // ---------------------------------------------------------------- skipped for a guard whose block then raises

  function Guarding(id: Option<Id>, pc: Pc): Client { Client(Guard, [], 0, 0, id, pc, 0) }

  /** A guard and a consumer with M in its partition. */
  function GuardAndReader(): State { State(0, Redis(map[]), map[0 := Guarding(None, Idle), 1 := Reader()]) }

  function Beside(e: Entry, pc0: Pc, cl1: Client): State { Cells(0, e, Guarding(Some(M), pc0), cl1) }

  lemma GuardClaims(cfg: Config, p: Follower)
    requires Kept(cfg, true, p) && p(GuardAndReader(), NoDeeds())
    requires 1 <= cfg.maxRetries && 1 <= cfg.processingTimeoutSeconds
    ensures p(Beside(First(cfg), Handling(1), Reader()), NoDeeds())
  {
    var a := State(0, Redis(map[]), map[0 := Guarding(Some(M), Checking), 1 := Reader()]);
    var b := State(0, Redis(map[]), map[0 := Guarding(Some(M), Claiming), 1 := Reader()]);
    var c := Beside(First(cfg), Handling(1), Reader());
    assert p(a, NoDeeds()) by {
      Move(cfg, true, p, GuardAndReader(), NoDeeds(), Begin(0, Some(M)), a, NoDeeds());
    }
    assert p(b, NoDeeds()) by {
      Move(cfg, true, p, a, NoDeeds(), Await(0, Ok), b, NoDeeds());
    }
    assert p(c, NoDeeds()) by {
      Move(cfg, true, p, b, NoDeeds(), Await(0, Ok), c, NoDeeds());
    }
  }

  lemma ConsumerIsRefused(cfg: Config, p: Follower)
    requires Kept(cfg, true, p) && p(Beside(First(cfg), Handling(1), Reader()), NoDeeds())
    requires 1 <= cfg.maxRetries && 1 <= cfg.processingTimeoutSeconds
    ensures p(Beside(First(cfg), Handling(1), At(Skipping, 0)), NoDeeds())
  {
    var c := Beside(First(cfg), Handling(1), Reader());
    var d := Beside(First(cfg), Handling(1), At(Claiming, 0));
    var e := Beside(First(cfg), Handling(1), At(Skipping, 0));
    assert p(d, NoDeeds()) by {
      Move(cfg, true, p, c, NoDeeds(), Begin(1, Some(M)), d, NoDeeds());
    }
    assert p(e, NoDeeds()) by {
      Move(cfg, true, p, d, NoDeeds(), Await(1, Ok), e, NoDeeds());
    }
  }

  function Committed(): Client { At(Done(ClaimLost), 0).(committed := 1) }

  lemma ConsumerCommits(cfg: Config, p: Follower)
    requires Kept(cfg, true, p) && p(Beside(First(cfg), Handling(1), At(Skipping, 0)), NoDeeds())
    requires 1 <= cfg.maxRetries && 1 <= cfg.processingTimeoutSeconds
    ensures p(Beside(First(cfg), Handling(1), Committed()), NoDeeds())
  {
    var e := Beside(First(cfg), Handling(1), At(Skipping, 0));
    var f := Beside(First(cfg), Handling(1), At(Committing(ClaimLost), 0));
    var g := Beside(First(cfg), Handling(1), Committed());
    assert p(f, NoDeeds()) by {
      Move(cfg, true, p, e, NoDeeds(), Await(1, Ok), f, NoDeeds());
    }
    assert p(g, NoDeeds()) by {
      Move(cfg, true, p, f, NoDeeds(), Await(1, Ok), g, NoDeeds());
    }
  }

  lemma BlockRaises(cfg: Config, p: Follower)
    requires Kept(cfg, true, p) && p(Beside(First(cfg), Handling(1), Committed()), NoDeeds())
    requires 1 <= cfg.maxRetries && 1 <= cfg.processingTimeoutSeconds
    ensures p(Beside(FailedOnce(cfg), Done(Failed(Some("e"))), Committed()), Did(1, 0, 0))
  {
    var g := Beside(First(cfg), Handling(1), Committed());
    var h := Beside(First(cfg), Raised(1, "e"), Committed());
    var i := Beside(FailedOnce(cfg), Done(Failed(Some("e"))), Committed());
    assert p(h, Did(1, 0, 0)) by {
      Move(cfg, true, p, g, NoDeeds(), Await(0, HandlerRaises("e")), h, Did(1, 0, 0));
    }
    assert p(i, Did(1, 0, 0)) by {
      Overwrite(First(cfg), FailedOnce(cfg));
      Move(cfg, true, p, h, Did(1, 0, 0), Await(0, Ok), i, Did(1, 0, 0));
    }
  }

  /**
   Nobody crashes, nothing is lost and all are within their leases: a consumer skips and commits a message that a guard
   is working on, whose block then raises.
   */
  lemma SkippedForAFailingGuard(cfg: Config)
    requires 1 <= cfg.maxRetries && 1 <= cfg.processingTimeoutSeconds
    ensures Possible(cfg, true, GuardAndReader(), Beside(FailedOnce(cfg), Done(Failed(Some("e"))), Committed()),
                     Did(1, 0, 0))
  {
    RunsAreKept(cfg, true, GuardAndReader());
    var p: Follower := (s, d) => Possible(cfg, true, GuardAndReader(), s, d);
    GuardClaims(cfg, p);
    ConsumerIsRefused(cfg, p);
    ConsumerCommits(cfg, p);
    BlockRaises(cfg, p);
  }

  // ---------------------------------------------------------------- more handler calls than max_retries

  /** PROCESSING after `n` claims, with its lease over at `ms`. */
  function Orphan(cfg: Config, n: nat, ms: nat): Entry {
    Entry(Rec(PROCESSING, n, None, None, Some(ms)), cfg.TtlMs())
  }

  /** At `ms`, after its owner of `n` handler calls has died. */
  function Left(cfg: Config, n: nat, ms: nat, claimedAt: nat): State {
    Cells(1000 * ms, Orphan(cfg, n, ms), At(Idle, claimedAt).(position := 0), Reader())
  }

  /** A client in its delivery, `n` claims into the record, with the lease to end at `until`. */
  function InDelivery(cfg: Config, us: nat, n: nat, until: nat, pc: Pc, claimedAt: nat): State {
    Cells(us, Orphan(cfg, n, until), At(pc, claimedAt), Reader())
  }

  /** The handler raises, the process dies before it can report that, and the lease runs out. */
  lemma DiesRaising(cfg: Config, p: Follower, n: nat, ms: nat)
    requires Kept(cfg, true, p) && 1 <= cfg.processingTimeoutSeconds && 1 <= cfg.maxRetries
    requires p(InDelivery(cfg, 1000 * ms, n + 1, ms + cfg.LeaseMs(), Handling(1), 1000 * ms), Did(n, 0, 0))
    requires ms <= cfg.TtlMs()
    ensures p(Left(cfg, n + 1, ms + cfg.LeaseMs(), 1000 * ms), Did(n + 1, 0, 0))
  {
    var until := ms + cfg.LeaseMs();
    var a := InDelivery(cfg, 1000 * ms, n + 1, until, Handling(1), 1000 * ms);
    var b := InDelivery(cfg, 1000 * ms, n + 1, until, Raised(1, "e"), 1000 * ms);
    var c := Cells(1000 * ms, Orphan(cfg, n + 1, until), At(Idle, 1000 * ms).(position := 0), Reader());
    var d := Left(cfg, n + 1, until, 1000 * ms);
    assert p(b, Did(n + 1, 0, 0)) by {
      Move(cfg, true, p, a, Did(n, 0, 0), Await(0, HandlerRaises("e")), b, Did(n + 1, 0, 0));
    }
    assert p(c, Did(n + 1, 0, 0)) by {
      Move(cfg, true, p, b, Did(n + 1, 0, 0), Crash(0), c, Did(n + 1, 0, 0));
    }
    assert p(d, Did(n + 1, 0, 0)) by {
      Move(cfg, true, p, c, Did(n + 1, 0, 0), Tick(1000 * until), d, Did(n + 1, 0, 0));
    }
  }

  /** It is given the record again and claims it over the expired lease. */
  lemma ClaimsOrphan(cfg: Config, p: Follower, n: nat, ms: nat, claimedAt: nat)
    requires Kept(cfg, true, p) && 1 <= cfg.processingTimeoutSeconds && 1 <= cfg.maxRetries && ms <= cfg.TtlMs()
    requires p(Left(cfg, n, ms, claimedAt), Did(n, 0, 0))
    ensures p(InDelivery(cfg, 1000 * ms, n + 1, ms + cfg.LeaseMs(), Handling(1), 1000 * ms), Did(n, 0, 0))
  {
    var a := Left(cfg, n, ms, claimedAt);
    var b := InDelivery(cfg, 1000 * ms, n, ms, Claiming, claimedAt);
    var c := InDelivery(cfg, 1000 * ms, n + 1, ms + cfg.LeaseMs(), Handling(1), 1000 * ms);
    assert p(b, Did(n, 0, 0)) by {
      Move(cfg, true, p, a, Did(n, 0, 0), Begin(0, Some(M)), b, Did(n, 0, 0));
    }
    assert p(c, Did(n, 0, 0)) by {
      Overwrite(Orphan(cfg, n, ms), Orphan(cfg, n + 1, ms + cfg.LeaseMs()));
      assert Ms(1000 * ms) == ms;
      Move(cfg, true, p, b, Did(n, 0, 0), Await(0, Ok), c, Did(n, 0, 0));
    }
  }

  lemma {:induction false} Rounds(cfg: Config, p: Follower, n: nat)
    requires Kept(cfg, true, p) && p(Held(cfg), NoDeeds())
    requires 1 <= cfg.processingTimeoutSeconds && 1 <= cfg.maxRetries && n * cfg.LeaseMs() <= cfg.TtlMs()
    ensures p(Left(cfg, n + 1, (n + 1) * cfg.LeaseMs(), 1000 * (n * cfg.LeaseMs())), Did(n + 1, 0, 0))
  {
    var now := n * cfg.LeaseMs();
    assert (n + 1) * cfg.LeaseMs() == now + cfg.LeaseMs();
    if n == 0 {
      assert Held(cfg) == InDelivery(cfg, 0, 1, cfg.LeaseMs(), Handling(1), 0);
    } else {
      assert (n - 1) * cfg.LeaseMs() + cfg.LeaseMs() == now;
      Rounds(cfg, p, n - 1);
      ClaimsOrphan(cfg, p, n, now, 1000 * ((n - 1) * cfg.LeaseMs()));
    }
    DiesRaising(cfg, p, n, now);
  }

  /**
   Within the lease contract one message can be handled any number of times the leases fit into its TTL, whatever
   max_retries is: the local counter starts again at 1 with each delivery.
   */
  lemma CallsPastMaxRetries(cfg: Config, n: nat)
    requires 1 <= cfg.processingTimeoutSeconds && 1 <= cfg.maxRetries && n * cfg.LeaseMs() <= cfg.TtlMs()
    ensures Possible(cfg, true, Two(), Left(cfg, n + 1, (n + 1) * cfg.LeaseMs(), 1000 * (n * cfg.LeaseMs())),
                     Did(n + 1, 0, 0))
  {
    RunsAreKept(cfg, true, Two());
    var p: Follower := (s, d) => Possible(cfg, true, Two(), s, d);
    FirstClaim(cfg, true, p);
    Rounds(cfg, p, n);
  }
}
