/** One consumer on its own and the repeats in its log: which of the deliveries of an id calls the handler. */
module Repeats {
  import opened Types
  import opened ClientMachine
  import opened RedisSpec
  import opened MemorySpec
  import opened StoreTrace
  import opened Deployment
  import opened Deliveries
  import opened Serial
  import Losses
  import Offsets

  /** No earlier record of the log has the id of the record at `k`. */
  predicate FirstOfItsId(log: seq<Option<Id>>, k: nat)
    requires k < |log|
  {
    forall j :: 0 <= j < k ==> log[j] != log[k]
  }

  predicate OneOutcome(cfg: Config, v: Option<(Status, int)>, t: Deeds) { Won(cfg, v, t) || Dead(cfg, v, t) }

  /** Every id in the committed part of the log has its outcome. */
  ghost predicate Concluded(cfg: Config, s0: State, r: Run, cl: Client) {
    && cl.committed <= |cl.log|
    && forall o :: 0 <= o < cl.committed && cl.log[o].Some? ==>
      OneOutcome(cfg, Standing(After(cfg, s0, r).store, cl.log[o].value), DeedsOf(cfg, s0, r, cl.log[o].value))
  }

  ghost predicate Solo(cfg: Config, s0: State, r: Run, c: Cid) {
    && Initial(s0) && Legal(cfg, s0, r) && AloneRun(cfg, s0, r, c) && 1 <= cfg.maxRetries
    && c in s0.clients && s0.clients[c].kind.Consumer?
  }

  /** What is known of the consumer in every state of such a run. */
  ghost predicate Regular(cfg: Config, s0: State, r: Run, c: Cid) {
    var s := After(cfg, s0, r);
    && c in s0.clients && c in s.clients && s.clients[c].kind.Consumer? && s.clients[c].log == s0.clients[c].log
    && Recorded(s, s.clients[c])
  }

  lemma {:induction false} SoloIsRegular(cfg: Config, s0: State, r: Run, c: Cid)
    requires Solo(cfg, s0, r, c)
    ensures Regular(cfg, s0, r, c)
  {
    AloneMayCrash(cfg, s0, r, c);
    Losses.AllRecorded(cfg, s0, r, c);
  }

  /** An outcome is never undone. */
  lemma {:induction false} OutcomeStays(cfg: Config, s0: State, r: Run, c: Cid, id: Id)
    requires Solo(cfg, s0, r, c) && r.Extend?
    requires OneOutcome(cfg, Standing(Before(cfg, s0, r).store, id), DeedsOf(cfg, s0, r.prefix, id))
    ensures OneOutcome(cfg, Standing(After(cfg, s0, r).store, id), DeedsOf(cfg, s0, r, id))
  {
    AllFit(cfg, s0, r.prefix, c, id);
    AllFit(cfg, s0, r, c, id);
    var s, st := Before(cfg, s0, r), r.step;
    if st.Await? && s.clients[c].id == Some(id) {
      assert s.clients[c].pc.Claiming? || s.clients[c].pc.Skipping? || s.clients[c].pc.Committing?;
      assert DeedsOf(cfg, s0, r, id) == DeedsOf(cfg, s0, r.prefix, id);
      StandingStep(cfg, s.store, s.us, id, id, OpClaim);
    } else if st.Await? && Effect(cfg, s.clients[c], st.fate).Some? {
      var e := Effect(cfg, s.clients[c], st.fate).value;
      StandingStep(cfg, s.store, s.us, e.0, id, e.1);
    }
  }

  lemma {:induction false} AllConcluded(cfg: Config, s0: State, r: Run, c: Cid)
    requires Solo(cfg, s0, r, c)
    ensures c in After(cfg, s0, r).clients && Concluded(cfg, s0, r, After(cfg, s0, r).clients[c])
  {
    SoloIsRegular(cfg, s0, r, c);
    if r.Extend? {
      AllConcluded(cfg, s0, r.prefix, c);
      SoloIsRegular(cfg, s0, r.prefix, c);
      var cl, cl' := Before(cfg, s0, r).clients[c], After(cfg, s0, r).clients[c];
      forall o | 0 <= o < cl'.committed && cl'.log[o].Some?
        ensures OneOutcome(cfg, Standing(After(cfg, s0, r).store, cl'.log[o].value),
                           DeedsOf(cfg, s0, r, cl'.log[o].value))
      {
        if o >= cl.committed {
          CommitConcludes(cfg, s0, r, c, o);
        }
        OutcomeStays(cfg, s0, r, c, cl'.log[o].value);
      }
    }
  }

  /** The record a consumer is about to commit has its outcome. */
  lemma {:induction false} CommitConcludes(cfg: Config, s0: State, r: Run, c: Cid, o: nat)
    requires Solo(cfg, s0, r, c) && r.Extend? && Regular(cfg, s0, r.prefix, c)
    requires c in After(cfg, s0, r).clients && Before(cfg, s0, r).clients[c].committed <= o
    requires o < After(cfg, s0, r).clients[c].committed
    requires o < |s0.clients[c].log| && s0.clients[c].log[o].Some?
    ensures var id := s0.clients[c].log[o].value;
            OneOutcome(cfg, Standing(Before(cfg, s0, r).store, id), DeedsOf(cfg, s0, r.prefix, id))
  {
    var cl := Before(cfg, s0, r).clients[c];
    assert cl.pc.Committing? && cl.position == o + 1 && cl.id == s0.clients[c].log[o];
    AllFit(cfg, s0, r.prefix, c, s0.clients[c].log[o].value);
  }

  /** A handler call is for the first record of its id, the one at the committed offset. */
  lemma {:induction false} CallIsForFirst(cfg: Config, s0: State, r: Run, c: Cid, id: Id)
    requires Solo(cfg, s0, r, c)
    requires var cls := After(cfg, s0, r).clients; c in cls && cls[c].pc.Handling? && cls[c].id == Some(id)
    ensures var log, o := s0.clients[c].log, After(cfg, s0, r).clients[c].committed;
            && After(cfg, s0, r).clients[c].position == o + 1
            && o < |log| && log[o] == Some(id) && FirstOfItsId(log, o)
  {
    SoloIsRegular(cfg, s0, r, c);
    AllConcluded(cfg, s0, r, c);
    AllFit(cfg, s0, r, c, id);
  }

  predicate CallsFor(s: State, st: Step, id: Id) {
    && st.Await? && st.c in s.clients && s.clients[st.c].id == Some(id)
    && (st.fate.HandlerReturns? || st.fate.HandlerRaises?)
  }

  /** All handler calls for an id are made by the delivery of its first record. */
  lemma {:induction false} CallsAreAtFirst(cfg: Config, s0: State, r: Run, c: Cid, k: nat)
    requires Solo(cfg, s0, r, c) && k < |s0.clients[c].log| && s0.clients[c].log[k].Some?
    ensures Offsets.CallsAt(cfg, s0, r, c, k) ==
            if FirstOfItsId(s0.clients[c].log, k) then DeedsOf(cfg, s0, r, s0.clients[c].log[k].value).calls else 0
  {
    if r.Extend? {
      CallsAreAtFirst(cfg, s0, r.prefix, c, k);
      SoloIsRegular(cfg, s0, r.prefix, c);
      var s, id := Before(cfg, s0, r), s0.clients[c].log[k].value;
      assert DeedsOf(cfg, s0, r, id).calls == DeedsOf(cfg, s0, r.prefix, id).calls + One(CallsFor(s, r.step, id));
      if CallsFor(s, r.step, id) || Offsets.CallsHandlerAt(s, r.step, c, k) {
        assert s.clients[c].pc.Handling? && s.clients[c].id == s0.clients[c].log[s.clients[c].committed];
        if s.clients[c].id.Some? {
          CallIsForFirst(cfg, s0, r.prefix, c, s.clients[c].id.value);
        }
      }
    }
  }

  /**
   Through one consumer on its own, a delivered record calls its handler if and only if no earlier record of the
   log has its id; all the calls and the one outcome of the id are those of that first record.
   */
  lemma {:induction false} HandledExactlyIfFirst(cfg: Config, s0: State, r: Run, c: Cid, k: nat)
    requires Solo(cfg, s0, r, c)
    requires var cls := After(cfg, s0, r).clients; c in cls && Resting(cls[c].pc) && k < cls[c].position
    requires k < |s0.clients[c].log| && s0.clients[c].log[k].Some?
    ensures var log, calls := s0.clients[c].log, Offsets.CallsAt(cfg, s0, r, c, k);
            var t := DeedsOf(cfg, s0, r, log[k].value);
            && OneOutcome(cfg, Standing(After(cfg, s0, r).store, log[k].value), t)
            && (calls >= 1 <==> FirstOfItsId(log, k))
            && calls == if FirstOfItsId(log, k) then t.calls else 0
  {
    ExactlyOneOutcome(cfg, s0, r, c, k);
    CallsAreAtFirst(cfg, s0, r, c, k);
  }
}
