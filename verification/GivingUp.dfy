/** Giving a message up: when one message is both dead-lettered by a consumer and COMPLETED by another. */
module GivingUp {
  import opened Types
  import opened ClientMachine
  import opened RedisSpec
  import opened MemorySpec
  import opened StoreTrace
  import opened Deployment
  import opened Exclusion
  import opened Conservation

  /** A refused reclaim gives up on a record that is not FAILED exactly if it is COMPLETED or under a live lease. */
  lemma {:induction false} GivesUpOnOthersRecordExactly(cfg: Config, s: State, c: Cid, id: Id)
    requires WellKept(s.store) && InTtl(s.store, s.us, id) && c in s.clients
    requires s.clients[c].kind.Consumer? && s.clients[c].pc.Reclaiming? && s.clients[c].id == Some(id)
    ensures var v := StatusOf(s.store, id);
            Next(cfg, s, Await(c, Ok)).clients[c].pc.Dropping? && v != Some(FAILED) <==>
            || v == Some(COMPLETED)
            || (v == Some(PROCESSING) && Blocked(cfg, s.store, s.us, id))
  {
    RefusedExactly(cfg, s.store, s.us, id);
  }

  /** The last step of the run takes consumer `c` out of its retry loop without a success of `id`. */
  ghost predicate GivesUp(cfg: Config, s0: State, r: Run, c: Cid, id: Id) {
    && r.Extend? && c in Before(cfg, s0, r).clients && c in After(cfg, s0, r).clients
    && var cl, cl' := Before(cfg, s0, r).clients[c], After(cfg, s0, r).clients[c];
    cl.id == Some(id) && cl'.id == Some(id) && cl.kind.Consumer? && !cl.pc.Dropping? && cl'.pc.Dropping?
  }

  ghost predicate ReclaimRefused(cfg: Config, s0: State, r: Run, c: Cid) {
    r.Extend? && c in Before(cfg, s0, r).clients && Before(cfg, s0, r).clients[c].pc.Reclaiming?
  }

  /** COMPLETED, or FAILED and not to be retried. */
  predicate Finished(cfg: Config, rep: Option<Report>) {
    rep.Some? && (rep.value.status == COMPLETED || cfg.Spent(rep.value.status, rep.value.attempts))
  }

  /** After the last attempt a finished FAILED record is left, after a refused reclaim the record that refused it. */
  lemma {:induction false} GivenUpRecord(cfg: Config, s0: State, r: Run, c: Cid, id: Id)
    requires Initial(s0) && Legal(cfg, s0, r) && TimelyRun(cfg, s0, r, id) && 1 <= cfg.maxRetries
    requires GivesUp(cfg, s0, r, c, id)
    ensures var s := After(cfg, s0, r);
            var v := StatusOf(s.store, id);
            && v.Some? && InTtl(s.store, s.us, id)
            && (v == Some(FAILED) ==> Finished(cfg, Reported(s.store, id)))
            && (!ReclaimRefused(cfg, s0, r, c) ==> v == Some(FAILED))
  {
    var s, cl := Before(cfg, s0, r), Before(cfg, s0, r).clients[c];
    if cl.pc.Reclaiming? {
      StoreStaysWellKept(cfg, s0, r.prefix);
      RefusedExactly(cfg, s.store, s.us, id);
    } else {
      assert cl.pc.Raised?;
      assert HoldsId(cl, id);
      SingleOwner(cfg, s0, r.prefix, id);
      assert OwnsRecord(cfg, s.store, cl);
    }
  }

  // ---------------------------------------------------------------- the rest of the lifetime

  /** Marks of `id` meet their own record, by the guard of the script or by ownership. */
  ghost predicate Guarded(cfg: Config, s: State, id: Id) {
    s.store.Redis? || Owned(cfg, s, id)
  }

  /** `later` continues `r` within the lifetime of the record of `id`: no delete and no expiry of its key. */
  ghost predicate SameLifetime(cfg: Config, s0: State, r: Run, later: Run, id: Id) {
    && InTtl(After(cfg, s0, later).store, After(cfg, s0, later).us, id)
    && (later == r || (later.Extend? && later.step != Delete(id) && SameLifetime(cfg, s0, r, later.prefix, id)))
  }

  ghost predicate InLifetime(cfg: Config, s: State, st: Step, id: Id) {
    && Enabled(cfg, s, st) && st != Delete(id) && Guarded(cfg, s, id)
    && StatusOf(s.store, id).Some? && InTtl(s.store, s.us, id)
  }

  lemma {:induction false} FinishedStep(cfg: Config, s: State, st: Step, id: Id)
    requires InLifetime(cfg, s, st, id) && Finished(cfg, Reported(s.store, id))
    ensures Reported(StoreNext(cfg, s, st), id) == Reported(s.store, id)
  {
    assert forall c | c in s.clients && HoldsId(s.clients[c], id) ::
        Owned(cfg, s, id) ==> OwnsRecord(cfg, s.store, s.clients[c]);
  }

  /** A step makes the record COMPLETED exactly if it is an accepted completion. */
  lemma {:induction false} CompletionStep(cfg: Config, s: State, st: Step, id: Id)
    requires InLifetime(cfg, s, st, id)
    ensures var v, v', n := StatusOf(s.store, id), StatusOf(StoreNext(cfg, s, st), id), Adds(cfg, s, st, id).completed;
            && v'.Some? && n <= 1 && (v == Some(COMPLETED) ==> n == 0)
            && (v' == Some(COMPLETED) <==> v == Some(COMPLETED) || n == 1)
  {
    CompletedCountStep(cfg, s, st, id);
    if StatusOf(s.store, id) == Some(COMPLETED) {
      CompletedStays(cfg, s, st, id);
    }
  }

  function Completions(cfg: Config, s0: State, r: Run, id: Id): nat { Total(cfg, s0, r, id).completed }

  ghost predicate Continuation(cfg: Config, s0: State, r: Run, later: Run, id: Id) {
    && Initial(s0) && Legal(cfg, s0, later) && SameLifetime(cfg, s0, r, later, id)
    && (s0.store.Redis? || TimelyRun(cfg, s0, later, id))
  }

  lemma {:induction false} ContinuationStep(cfg: Config, s0: State, r: Run, later: Run, id: Id)
    requires Continuation(cfg, s0, r, later, id) && later != r
    ensures later.Extend? && Continuation(cfg, s0, r, later.prefix, id)
    ensures var s := Before(cfg, s0, later); StatusOf(s.store, id).Some? ==> InLifetime(cfg, s, later.step, id)
  {
    RunKeepsBackend(cfg, s0, later.prefix);
    if !s0.store.Redis? {
      SingleOwner(cfg, s0, later.prefix, id);
    }
  }

  lemma {:induction false} FinishedStays(cfg: Config, s0: State, r: Run, later: Run, id: Id)
    requires Continuation(cfg, s0, r, later, id) && Finished(cfg, Reported(After(cfg, s0, r).store, id))
    ensures Reported(After(cfg, s0, later).store, id) == Reported(After(cfg, s0, r).store, id)
  {
    if later != r {
      ContinuationStep(cfg, s0, r, later, id);
      FinishedStays(cfg, s0, r, later.prefix, id);
      FinishedStep(cfg, Before(cfg, s0, later), later.step, id);
    }
  }

  /** Over a continuation the record is COMPLETED exactly if a completion was accepted in it. */
  lemma {:induction false} CompletionsTell(cfg: Config, s0: State, r: Run, later: Run, id: Id)
    requires Continuation(cfg, s0, r, later, id)
    requires StatusOf(After(cfg, s0, r).store, id) in {Some(PROCESSING), Some(FAILED)}
    ensures var v := StatusOf(After(cfg, s0, later).store, id);
            var n, m := Completions(cfg, s0, later, id), Completions(cfg, s0, r, id);
            v.Some? && n >= m && (v == Some(COMPLETED) <==> n > m)
  {
    if later != r {
      var s := Before(cfg, s0, later);
      ContinuationStep(cfg, s0, r, later, id);
      CompletionsTell(cfg, s0, r, later.prefix, id);
      CompletionStep(cfg, s, later.step, id);
      assert After(cfg, s0, later).store == StoreNext(cfg, s, later.step);
      assert Completions(cfg, s0, later, id) ==
             Completions(cfg, s0, later.prefix, id) + Adds(cfg, s, later.step, id).completed;
    }
  }

  /** In the continuation a client whose handler has returned marks `id`, and the mark is not lost. */
  ghost predicate MarkedBetween(cfg: Config, s0: State, r: Run, later: Run, id: Id) {
    && later != r && later.Extend?
    && (MarkedBetween(cfg, s0, r, later.prefix, id) || MarksSuccess(Before(cfg, s0, later), later.step, id))
  }

  predicate MarksSuccess(s: State, st: Step, id: Id) {
    st.Await? && st.c in s.clients && Waits(s.clients[st.c], id) && st.fate != Lost(false)
  }

  /** Under the contract such marks are the completions, for none is refused. */
  lemma {:induction false} MarksAreCompletions(cfg: Config, s0: State, r: Run, later: Run, id: Id)
    requires Continuation(cfg, s0, r, later, id) && TimelyRun(cfg, s0, later, id)
    ensures var n, m := Completions(cfg, s0, later, id), Completions(cfg, s0, r, id);
            n >= m && (n > m <==> MarkedBetween(cfg, s0, r, later, id))
  {
    if later != r {
      var s := Before(cfg, s0, later);
      ContinuationStep(cfg, s0, r, later, id);
      MarksAreCompletions(cfg, s0, r, later.prefix, id);
      SingleOwner(cfg, s0, later.prefix, id);
      OwnersAdd(cfg, s, later.step, id);
      assert Adds(cfg, s, later.step, id).completed == One(MarksSuccess(s, later.step, id));
      assert Completions(cfg, s0, later, id) ==
             Completions(cfg, s0, later.prefix, id) + Adds(cfg, s, later.step, id).completed;
    }
  }

  /**
   What the record says at the giving up: FAILED, and the message is never COMPLETED in this lifetime;
   COMPLETED, and it stays so. After the last attempt it is FAILED; only a refused reclaim can meet
   another record.
   */
  lemma {:induction false} GivenUpForGood(cfg: Config, s0: State, r: Run, later: Run, c: Cid, id: Id)
    requires Legal(cfg, s0, r) && TimelyRun(cfg, s0, r, id) && 1 <= cfg.maxRetries
    requires GivesUp(cfg, s0, r, c, id) && Continuation(cfg, s0, r, later, id)
    ensures var v, v' := StatusOf(After(cfg, s0, r).store, id), StatusOf(After(cfg, s0, later).store, id);
            && (v != Some(PROCESSING) ==> v' == v && v.Some?)
            && (!ReclaimRefused(cfg, s0, r, c) ==> v == Some(FAILED))
  {
    GivenUpRecord(cfg, s0, r, c, id);
    if Finished(cfg, Reported(After(cfg, s0, r).store, id)) {
      FinishedStays(cfg, s0, r, later, id);
    }
  }

  /**
   Under the lease contract, a message that a consumer gives up is COMPLETED at a later point of the same
   lifetime if and only if it gave up because its reclaim was refused by a COMPLETED record, or by
   another client's live lease under which a completion is then accepted. If the contract goes on, that
   is: a client whose handler returned marks it and the mark is not lost. On Redis the contract is needed up
   to the giving up only; in memory, where mark_failed has no guard, to the end.
   */
  lemma {:induction false} DeadLetteredAndCompletedExactly(cfg: Config, s0: State, r: Run, later: Run, c: Cid, id: Id)
    requires Legal(cfg, s0, r) && TimelyRun(cfg, s0, r, id) && 1 <= cfg.maxRetries
    requires GivesUp(cfg, s0, r, c, id) && Continuation(cfg, s0, r, later, id)
    ensures var v := StatusOf(After(cfg, s0, r).store, id);
            var completed := StatusOf(After(cfg, s0, later).store, id) == Some(COMPLETED);
            && (completed <==>
              && ReclaimRefused(cfg, s0, r, c)
              && (v == Some(COMPLETED) ||
                (v == Some(PROCESSING) && Completions(cfg, s0, later, id) > Completions(cfg, s0, r, id))))
            && (v == Some(PROCESSING) && TimelyRun(cfg, s0, later, id) ==>
              (completed <==> MarkedBetween(cfg, s0, r, later, id)))
  {
    GivenUpForGood(cfg, s0, r, later, c, id);
    if StatusOf(After(cfg, s0, r).store, id) == Some(PROCESSING) {
      CompletionsTell(cfg, s0, r, later, id);
      if TimelyRun(cfg, s0, later, id) {
        MarksAreCompletions(cfg, s0, r, later, id);
      }
    }
  }
}
