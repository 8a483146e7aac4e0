/** One consumer alone on a store, either store: each message gets exactly one outcome. */
module Serial {
  import opened Types
  import opened ClientMachine
  import opened RedisSpec
  import opened MemorySpec
  import opened StoreTrace
  import opened Deployment
  import opened Deliveries
  import Losses

  /** The consumer on its own does not crash, and loses at most the answer of a mark_completed that took effect. */
  ghost predicate Alone(s: State, st: Step, c: Cid) {
    && OnItsOwn(s, st, c) && !st.Crash?
    && (st.Await? && c in s.clients ==> Harmless(s.clients[c], st.fate))
  }

  predicate Harmless(cl: Client, fate: Fate) {
    fate.Lost? ==> fate.applied && cl.pc.Succeeded?
  }

  ghost predicate AloneRun(cfg: Config, s0: State, r: Run, c: Cid) {
    r.Extend? ==> AloneRun(cfg, s0, r.prefix, c) && Alone(Before(cfg, s0, r), r.step, c)
  }

  /** Handled once with success and COMPLETED. */
  predicate Won(cfg: Config, v: Option<(Status, int)>, t: Deeds) {
    && v.Some? && v.value.0 == COMPLETED
    && t.successes == 1 && t.drops == 0 && 1 <= t.calls <= cfg.maxRetries
  }

  /** Given up once, never a success, and closed to another try. */
  predicate Dead(cfg: Config, v: Option<(Status, int)>, t: Deeds) {
    && Closed(cfg, v)
    && t.successes == 0 && t.drops == 1 && 1 <= t.calls <= cfg.maxRetries
  }

  predicate Untouched(v: Option<(Status, int)>, t: Deeds) { v == None && t == Deeds(0, 0, 0) }

  predicate AtRest(cfg: Config, v: Option<(Status, int)>, t: Deeds) {
    Untouched(v, t) || Won(cfg, v, t) || Dead(cfg, v, t)
  }

  /** At the loop head the record is PROCESSING and its attempts equal the local counter. */
  predicate InHand(cfg: Config, pc: Pc, v: Option<(Status, int)>, t: Deeds) {
    match pc
    case Claiming => AtRest(cfg, v, t)
    case Skipping => Won(cfg, v, t) || Dead(cfg, v, t)
    case Handling(n) => 1 <= n <= cfg.maxRetries && v == Some((PROCESSING, n)) && t == Deeds(n - 1, 0, 0)
    case Raised(n, _) => 1 <= n <= cfg.maxRetries && v == Some((PROCESSING, n)) && t == Deeds(n, 0, 0)
    case Sleeping(n, _) => 1 <= n < cfg.maxRetries && v == Some((FAILED, n)) && t == Deeds(n, 0, 0)
    case Reclaiming(n, _) => 1 <= n < cfg.maxRetries && v == Some((FAILED, n)) && t == Deeds(n, 0, 0)
    case Succeeded(_) =>
      v.Some? && v.value.0 == PROCESSING && t.successes == 1 && t.drops == 0 && 1 <= t.calls <= cfg.maxRetries
    case Dropping(_) => t.drops == 0 && Dead(cfg, v, t.(drops := 1))
    case Committing(verdict) =>
      // A refused delivery finds the message finished, never in flight.
      || (verdict.Processed? && Won(cfg, v, t))
      || (verdict.DeadLettered? && Dead(cfg, v, t))
      || (verdict.Duplicate? && (Won(cfg, v, t) || Dead(cfg, v, t)))
    case _ => false
  }

  predicate Fitting(cfg: Config, cl: Client, v: Option<(Status, int)>, t: Deeds, id: Id) {
    if cl.id == Some(id) && !cl.pc.Idle? && !cl.pc.Done? then InHand(cfg, cl.pc, v, t) else AtRest(cfg, v, t)
  }

  ghost predicate Answered(cfg: Config, s: State, cl: Client, fate: Fate) {
    && cl.kind.Consumer? && cl.id.Some? && 1 <= cfg.maxRetries
    && NextOf(cfg, cl).Some? && FateFits(NextOf(cfg, cl).value, fate) && Harmless(cl, fate)
    && InTtl(s.store, s.us, cl.id.value)
  }

  /** An awaited call of the client at work on `id` that does not write. */
  lemma {:induction false} QuietAwaitFits(cfg: Config, s: State, cl: Client, fate: Fate, t: Deeds)
    requires Answered(cfg, s, cl, fate) && InHand(cfg, cl.pc, Standing(s.store, cl.id.value), t)
    requires Effect(cfg, cl, fate) == None
    ensures Fitting(cfg, Advanced(cfg, s, cl, fate), Standing(s.store, cl.id.value), Deed(t, cl, fate), cl.id.value)
  {
  }

  lemma {:induction false} WriteAwaitFits(cfg: Config, s: State, cl: Client, fate: Fate, t: Deeds)
    requires Answered(cfg, s, cl, fate) && InHand(cfg, cl.pc, Standing(s.store, cl.id.value), t)
    requires Effect(cfg, cl, fate).Some?
    ensures Fitting(cfg, Advanced(cfg, s, cl, fate), Standing(Written(cfg, s, cl, fate), cl.id.value), t, cl.id.value)
  {
    var id, op := cl.id.value, Effect(cfg, cl, fate).value.1;
    var b' := Written(cfg, s, cl, fate);
    StandingStep(cfg, s.store, s.us, id, id, op);
    var v, v' := Standing(s.store, id), Standing(b', id);
    var pc' := Advanced(cfg, s, cl, fate).pc;
    match cl.pc {
      case Claiming =>
        assert pc' == if Grants(cfg, s.store, s.us, id) then Handling(1) else Skipping;
      case Reclaiming(n, e) =>
        assert pc' == if Grants(cfg, s.store, s.us, id) then Handling(n + 1) else Dropping(Some(e));
      case Raised(n, e) =>
        assert v' == Some((FAILED, n));
      case Succeeded(_) =>
        assert v' == Some((COMPLETED, v.value.1));
      case _ =>
    }
  }

  lemma {:induction false} AwaitFits(cfg: Config, s0: State, r: Run, c: Cid, id: Id)
    requires r.Extend? && r.step.Await? && 1 <= cfg.maxRetries
    requires var s := Before(cfg, s0, r);
             && Enabled(cfg, s, r.step) && Alone(s, r.step, c) && s.clients[c].kind.Consumer?
             && Fitting(cfg, s.clients[c], Standing(s.store, id), DeedsOf(cfg, s0, r.prefix, id), id)
    ensures var s' := After(cfg, s0, r);
            Fitting(cfg, s'.clients[c], Standing(s'.store, id), DeedsOf(cfg, s0, r, id), id)
  {
    var s, fate, t := Before(cfg, s0, r), r.step.fate, DeedsOf(cfg, s0, r.prefix, id);
    var cl := s.clients[c];
    var e := Effect(cfg, cl, fate);
    assert After(cfg, s0, r).clients[c] == Advanced(cfg, s, cl, fate);
    assert After(cfg, s0, r).store == Written(cfg, s, cl, fate);
    if cl.id != Some(id) {
      if e.Some? {
        StandingStep(cfg, s.store, s.us, e.value.0, id, e.value.1);
      }
    } else if e.Some? {
      WriteAwaitFits(cfg, s, cl, fate, t);
      assert !fate.HandlerReturns? && !fate.HandlerRaises? && !cl.pc.Dropping?;
    } else {
      QuietAwaitFits(cfg, s, cl, fate, t);
    }
  }

  lemma {:induction false} AllFit(cfg: Config, s0: State, r: Run, c: Cid, id: Id)
    requires Initial(s0) && Legal(cfg, s0, r) && AloneRun(cfg, s0, r, c) && 1 <= cfg.maxRetries
    requires c in s0.clients && s0.clients[c].kind.Consumer?
    ensures var s := After(cfg, s0, r);
            && c in s.clients && s.clients[c].kind.Consumer? && s.clients[c].log == s0.clients[c].log
            && Fitting(cfg, s.clients[c], Standing(s.store, id), DeedsOf(cfg, s0, r, id), id)
  {
    if r.Extend? {
      AllFit(cfg, s0, r.prefix, c, id);
      if r.step.Await? {
        AwaitFits(cfg, s0, r, c, id);
      }
    }
  }

  lemma {:induction false} AloneMayCrash(cfg: Config, s0: State, r: Run, c: Cid)
    requires AloneRun(cfg, s0, r, c)
    ensures Losses.CrashRun(cfg, s0, r, c)
  {
    if r.Extend? {
      AloneMayCrash(cfg, s0, r.prefix, c);
    }
  }

  /**
   For any sequence of deliveries with any repeats and handler failures through one consumer, once it
   rests every delivered id was handled with exactly one success, COMPLETED and never dropped, or is
   FAILED with exactly one DLQ entry or drop and no success; its handler ran at most max_retries times
   over all deliveries, and every delivery is committed.
   */
  lemma {:induction false} ExactlyOneOutcome(cfg: Config, s0: State, r: Run, c: Cid, o: nat)
    requires Initial(s0) && Legal(cfg, s0, r) && AloneRun(cfg, s0, r, c) && 1 <= cfg.maxRetries
    requires c in s0.clients && s0.clients[c].kind.Consumer?
    requires var cls := After(cfg, s0, r).clients;
             && c in cls && Resting(cls[c].pc) && o < cls[c].position
             && o < |s0.clients[c].log| && s0.clients[c].log[o].Some?
    ensures var s, id := After(cfg, s0, r), s0.clients[c].log[o].value;
            var v, t := Standing(s.store, id), DeedsOf(cfg, s0, r, id);
            && (Won(cfg, v, t) || Dead(cfg, v, t)) && !(Won(cfg, v, t) && Dead(cfg, v, t))
            && s.clients[c].position == s.clients[c].committed
  {
    AllFit(cfg, s0, r, c, s0.clients[c].log[o].value);
    AloneMayCrash(cfg, s0, r, c);
    Losses.AllRecorded(cfg, s0, r, c);
  }

  /** In the loop without interference the reclaim after a failure is refused only when retry_failed is off. */
  lemma {:induction false} ReclaimRefusedOnlyWhenRetryOff(cfg: Config, s0: State, r: Run, c: Cid)
    requires Initial(s0) && Legal(cfg, s0, r) && AloneRun(cfg, s0, r, c) && 1 <= cfg.maxRetries
    requires c in s0.clients && s0.clients[c].kind.Consumer?
    requires var s := After(cfg, s0, r);
             && c in s.clients && s.clients[c].pc.Reclaiming? && s.clients[c].id.Some?
             && InTtl(s.store, s.us, s.clients[c].id.value)
    ensures var s := After(cfg, s0, r);
            Grants(cfg, s.store, s.us, s.clients[c].id.value) <==> cfg.retryFailed
  {
    var s := After(cfg, s0, r);
    AllFit(cfg, s0, r, c, s.clients[c].id.value);
    StandingStep(cfg, s.store, s.us, s.clients[c].id.value, s.clients[c].id.value, OpClaim);
  }
}
