/**
 One consumer on either store, which may crash anywhere and whose calls may be lost before or after
 taking effect: exactly which committed messages were neither handled with success nor given up.
 */
module Losses {
  import opened Types
  import opened ClientMachine
  import opened RedisSpec
  import opened MemorySpec
  import opened StoreTrace
  import opened Deployment
  import opened Deliveries

  ghost predicate CrashRun(cfg: Config, s0: State, r: Run, c: Cid) {
    r.Extend? ==> CrashRun(cfg, s0, r.prefix, c) && OnItsOwn(Before(cfg, s0, r), r.step, c)
  }

  // ---------------------------------------------------------------- how the last owner ended

  /** The process dies, or a call raises out of the delivery. */
  predicate Ends(cl: Client, st: Step) {
    st.Crash? || (st.Await? && st.fate.Lost? && !cl.pc.Succeeded?)
  }

  /** Where it stood by then, counting what a call did before it raised. */
  function Landed(cfg: Config, s: State, cl: Client, st: Step): Pc {
    if st.Await? && st.fate == Lost(true)
    then Advance(cl.kind, cfg, cl.id.Some?, cl.pc, AnswerOf(cfg, s.store, s.us, cl, Ok))
    else cl.pc
  }

  /** What a step of a client at work on an id makes of the death `d` of its last owner. */
  function DeathAfter(cfg: Config, s: State, cl: Client, st: Step, d: Option<Pc>): Option<Pc> {
    if Ends(cl, st) then (if EmptyHanded(Landed(cfg, s, cl, st)) then Some(Landed(cfg, s, cl, st)) else d)
    else if cl.pc.Claiming? && AnswerOf(cfg, s.store, s.us, cl, Ok) == Granted(true) then None
    else d
  }

  predicate MarkIsLost(cl: Client, st: Step) {
    cl.pc.Succeeded? && (st.Crash? || (st.Await? && st.fate == Lost(false)))
  }

  /** Where the last delivery that won `id` died empty-handed; `None` if it did not. */
  function Death(cfg: Config, s0: State, r: Run, id: Id): Option<Pc> {
    if r.Begins? then None
    else
      var d, s, st := Death(cfg, s0, r.prefix, id), Before(cfg, s0, r), r.step;
      if (st.Await? || st.Crash?) && st.c in s.clients && s.clients[st.c].id == Some(id)
      then DeathAfter(cfg, s, s.clients[st.c], st, d) else d
  }

  /** A success of `id` was never marked. */
  predicate MarkLost(cfg: Config, s0: State, r: Run, id: Id) {
    r.Extend? &&
    var s, st := Before(cfg, s0, r), r.step;
    || MarkLost(cfg, s0, r.prefix, id)
    || ((st.Await? || st.Crash?) && st.c in s.clients && s.clients[st.c].id == Some(id) &&
        MarkIsLost(s.clients[st.c], st))
  }

  // ---------------------------------------------------------------- what the record tells of it

  /** The record an owner leaves behind that dies at `pc`. */
  predicate LeftAs(cfg: Config, pc: Pc, v: Option<(Status, int)>) {
    v.Some? &&
    match pc
    case Handling(_) => v.value.0 == PROCESSING
    case Raised(_, _) => v.value.0 == PROCESSING
    case Sleeping(_, _) => v.value.0 == FAILED
    case Reclaiming(_, _) => v.value.0 == FAILED
    case Dropping(_) => Closed(cfg, v)
    case _ => false
  }

  predicate Served(t: Deeds) { t.successes >= 1 || t.drops >= 1 }

  /** No owner is at work. */
  predicate Rest(cfg: Config, v: Option<(Status, int)>, t: Deeds, d: Option<Pc>, lost: bool) {
    && (v.None? ==> t == Deeds(0, 0, 0) && d.None? && !lost)
    && (v.Some? && v.value.0 == COMPLETED ==> t.successes >= 1 && t.drops == 0 && d.None?)
    && (v.Some? && v.value.0 != COMPLETED ==> (t.successes >= 1 <==> lost))
    && t.drops <= 1 && (t.drops == 1 ==> Closed(cfg, v))
    && (v.Some? && d.None? ==> Served(t))
    && (d.Some? ==> t.drops == 0 && LeftAs(cfg, d.value, v))
  }

  /** An owner is at work and has nothing to show yet. */
  predicate Bare(t: Deeds, d: Option<Pc>, lost: bool) {
    d.None? && t.drops == 0 && (t.successes >= 1 <==> lost)
  }

  predicate InHand(cfg: Config, pc: Pc, v: Option<(Status, int)>, t: Deeds, d: Option<Pc>, lost: bool) {
    match pc
    case Handling(n) => 1 <= n <= cfg.maxRetries && v.Some? && v.value.0 == PROCESSING && Bare(t, d, lost)
    case Raised(n, _) => 1 <= n <= cfg.maxRetries && v.Some? && v.value.0 == PROCESSING && Bare(t, d, lost)
    case Sleeping(n, _) => 1 <= n < cfg.maxRetries && v == Some((FAILED, n)) && Bare(t, d, lost)
    case Reclaiming(n, _) => 1 <= n < cfg.maxRetries && v == Some((FAILED, n)) && Bare(t, d, lost)
    case Dropping(_) => Closed(cfg, v) && Bare(t, d, lost)
    case Succeeded(_) => v.Some? && v.value.0 == PROCESSING && d.None? && t.successes >= 1 && t.drops == 0
    case Checking => false
    case Idle => Rest(cfg, v, t, d, lost)
    case Claiming => Rest(cfg, v, t, d, lost)
    case Done(_) => Rest(cfg, v, t, d, lost)
    case _ => v.Some? && Rest(cfg, v, t, d, lost)
  }

  predicate Fitting(cfg: Config, cl: Client, v: Option<(Status, int)>, t: Deeds, d: Option<Pc>, lost: bool, id: Id) {
    if cl.id == Some(id) then InHand(cfg, cl.pc, v, t, d, lost) else Rest(cfg, v, t, d, lost)
  }

  ghost predicate Ready(cfg: Config, s: State, cl: Client, fate: Fate, t: Deeds, d: Option<Pc>, lost: bool) {
    && cl.kind.Consumer? && cl.id.Some? && 1 <= cfg.maxRetries && InTtl(s.store, s.us, cl.id.value)
    && NextOf(cfg, cl).Some? && FateFits(NextOf(cfg, cl).value, fate)
    && InHand(cfg, cl.pc, Standing(s.store, cl.id.value), t, d, lost)
  }

  /** A call that does not write and is answered. */
  lemma {:induction false} QuietAwaitFits(
    cfg: Config, s: State, c: Cid, cl: Client, fate: Fate, t: Deeds, d: Option<Pc>, lost: bool)
    requires Ready(cfg, s, cl, fate, t, d, lost) && Effect(cfg, cl, fate).None? && !fate.Lost?
    ensures InHand(cfg, Advanced(cfg, s, cl, fate).pc, Standing(s.store, cl.id.value), Deed(t, cl, fate), d, lost)
  {
  }

  /** A call that raises before it took effect. */
  lemma {:induction false} LostAwaitFits(
    cfg: Config, s: State, c: Cid, cl: Client, t: Deeds, d: Option<Pc>, lost: bool)
    requires Ready(cfg, s, cl, Lost(false), t, d, lost)
    ensures InHand(cfg, Advanced(cfg, s, cl, Lost(false)).pc, Standing(s.store, cl.id.value), t,
                   DeathAfter(cfg, s, cl, Await(c, Lost(false)), d), lost || MarkIsLost(cl, Await(c, Lost(false))))
  {
  }

  /** A call on the broker, or a read of the store, that raises after it took effect. */
  lemma {:induction false} LostReplyFits(
    cfg: Config, s: State, c: Cid, cl: Client, t: Deeds, d: Option<Pc>, lost: bool)
    requires Ready(cfg, s, cl, Lost(true), t, d, lost) && (cl.pc.Skipping? || cl.pc.Dropping? || cl.pc.Committing?)
    ensures InHand(cfg, Advanced(cfg, s, cl, Lost(true)).pc, Standing(s.store, cl.id.value), Deed(t, cl, Lost(true)),
                   DeathAfter(cfg, s, cl, Await(c, Lost(true)), d), lost)
  {
  }

  lemma {:induction false} ClaimFits(
    cfg: Config, s: State, c: Cid, cl: Client, fate: Fate, t: Deeds, d: Option<Pc>, lost: bool)
    requires Ready(cfg, s, cl, fate, t, d, lost) && (cl.pc.Claiming? || cl.pc.Reclaiming?) && fate != Lost(false)
    ensures InHand(cfg, Advanced(cfg, s, cl, fate).pc, Standing(Written(cfg, s, cl, fate), cl.id.value), t,
                   DeathAfter(cfg, s, cl, Await(c, fate), d), lost)
  {
    StandingStep(cfg, s.store, s.us, cl.id.value, cl.id.value, OpClaim);
  }

  lemma {:induction false} MarkFits(
    cfg: Config, s: State, c: Cid, cl: Client, fate: Fate, t: Deeds, d: Option<Pc>, lost: bool)
    requires Ready(cfg, s, cl, fate, t, d, lost) && (cl.pc.Raised? || cl.pc.Succeeded?) && fate != Lost(false)
    ensures InHand(cfg, Advanced(cfg, s, cl, fate).pc, Standing(Written(cfg, s, cl, fate), cl.id.value), t,
                   DeathAfter(cfg, s, cl, Await(c, fate), d), lost)
  {
    StandingStep(cfg, s.store, s.us, cl.id.value, cl.id.value, Effect(cfg, cl, fate).value.1);
  }

  lemma {:induction false} CrashFits(
    cfg: Config, s: State, c: Cid, cl: Client, t: Deeds, d: Option<Pc>, lost: bool, v: Option<(Status, int)>)
    requires InHand(cfg, cl.pc, v, t, d, lost)
    ensures Rest(cfg, v, t, DeathAfter(cfg, s, cl, Crash(c), d), lost || MarkIsLost(cl, Crash(c)))
  {
  }

  /** A step that is no await. */
  lemma {:induction false} OtherStepFits(cfg: Config, s0: State, r: Run, c: Cid, id: Id)
    requires r.Extend? && !r.step.Await? && 1 <= cfg.maxRetries
    requires var s := Before(cfg, s0, r);
             && Enabled(cfg, s, r.step) && OnItsOwn(s, r.step, c) && c in s.clients && s.clients[c].kind.Consumer?
             && Fitting(cfg, s.clients[c], Standing(s.store, id), DeedsOf(cfg, s0, r.prefix, id),
                        Death(cfg, s0, r.prefix, id), MarkLost(cfg, s0, r.prefix, id), id)
    ensures var s' := After(cfg, s0, r);
            Fitting(cfg, s'.clients[c], Standing(s'.store, id), DeedsOf(cfg, s0, r, id),
                    Death(cfg, s0, r, id), MarkLost(cfg, s0, r, id), id)
  {
    var s := Before(cfg, s0, r);
    assert After(cfg, s0, r).store == s.store && DeedsOf(cfg, s0, r, id) == DeedsOf(cfg, s0, r.prefix, id);
    if r.step.Crash? && s.clients[c].id == Some(id) {
      CrashFits(cfg, s, c, s.clients[c], DeedsOf(cfg, s0, r.prefix, id), Death(cfg, s0, r.prefix, id),
                MarkLost(cfg, s0, r.prefix, id), Standing(s.store, id));
    }
  }

  lemma {:induction false} AwaitFits(cfg: Config, s0: State, r: Run, c: Cid, id: Id)
    requires r.Extend? && r.step.Await? && 1 <= cfg.maxRetries
    requires var s := Before(cfg, s0, r);
             && Enabled(cfg, s, r.step) && OnItsOwn(s, r.step, c) && s.clients[c].kind.Consumer?
             && Fitting(cfg, s.clients[c], Standing(s.store, id), DeedsOf(cfg, s0, r.prefix, id),
                        Death(cfg, s0, r.prefix, id), MarkLost(cfg, s0, r.prefix, id), id)
    ensures var s' := After(cfg, s0, r);
            Fitting(cfg, s'.clients[c], Standing(s'.store, id), DeedsOf(cfg, s0, r, id),
                    Death(cfg, s0, r, id), MarkLost(cfg, s0, r, id), id)
  {
    var s := Before(cfg, s0, r);
    if s.clients[c].id != Some(id) {
      OthersAwaitFits(cfg, s0, r, c, id);
    } else {
      OwnAwaitFits(cfg, s, c, r.step.fate, DeedsOf(cfg, s0, r.prefix, id), Death(cfg, s0, r.prefix, id),
                   MarkLost(cfg, s0, r.prefix, id), id);
    }
  }

  /** A call of a delivery of another id. */
  lemma {:induction false} OthersAwaitFits(cfg: Config, s0: State, r: Run, c: Cid, id: Id)
    requires r.Extend? && r.step.Await? && 1 <= cfg.maxRetries
    requires var s := Before(cfg, s0, r);
             && Enabled(cfg, s, r.step) && OnItsOwn(s, r.step, c) && s.clients[c].id != Some(id)
             && Fitting(cfg, s.clients[c], Standing(s.store, id), DeedsOf(cfg, s0, r.prefix, id),
                        Death(cfg, s0, r.prefix, id), MarkLost(cfg, s0, r.prefix, id), id)
    ensures var s' := After(cfg, s0, r);
            && DeedsOf(cfg, s0, r, id) == DeedsOf(cfg, s0, r.prefix, id)
            && Fitting(cfg, s'.clients[c], Standing(s'.store, id), DeedsOf(cfg, s0, r, id),
                       Death(cfg, s0, r, id), MarkLost(cfg, s0, r, id), id)
  {
    var s := Before(cfg, s0, r);
    var e := Effect(cfg, s.clients[c], r.step.fate);
    assert After(cfg, s0, r).clients[c] == Advanced(cfg, s, s.clients[c], r.step.fate);
    assert After(cfg, s0, r).store == Written(cfg, s, s.clients[c], r.step.fate);
    if e.Some? {
      StandingStep(cfg, s.store, s.us, e.value.0, id, e.value.1);
    }
  }

  lemma {:induction false} OwnAwaitFits(
    cfg: Config, s: State, c: Cid, fate: Fate, t: Deeds, d: Option<Pc>, lost: bool, id: Id)
    requires Enabled(cfg, s, Await(c, fate)) && OnItsOwn(s, Await(c, fate), c) && s.clients[c].id == Some(id)
    requires Ready(cfg, s, s.clients[c], fate, t, d, lost)
    ensures var cl := s.clients[c];
            InHand(cfg, Advanced(cfg, s, cl, fate).pc, Standing(Written(cfg, s, cl, fate), id), Deed(t, cl, fate),
                   DeathAfter(cfg, s, cl, Await(c, fate), d), lost || MarkIsLost(cl, Await(c, fate)))
  {
    if Effect(cfg, s.clients[c], fate).Some? {
      WriteAwaitFits(cfg, s, c, fate, t, d, lost, id);
    } else if fate == Lost(false) {
      LostAwaitFits(cfg, s, c, s.clients[c], t, d, lost);
    } else if fate.Lost? {
      LostReplyFits(cfg, s, c, s.clients[c], t, d, lost);
    } else {
      QuietAwaitFits(cfg, s, c, s.clients[c], fate, t, d, lost);
    }
  }

  lemma {:induction false} WriteAwaitFits(
    cfg: Config, s: State, c: Cid, fate: Fate, t: Deeds, d: Option<Pc>, lost: bool, id: Id)
    requires c in s.clients && s.clients[c].id == Some(id) && Effect(cfg, s.clients[c], fate).Some?
    requires Ready(cfg, s, s.clients[c], fate, t, d, lost)
    ensures var cl := s.clients[c];
            && Deed(t, cl, fate) == t && !MarkIsLost(cl, Await(c, fate))
            && InHand(cfg, Advanced(cfg, s, cl, fate).pc, Standing(Written(cfg, s, cl, fate), id), t,
                      DeathAfter(cfg, s, cl, Await(c, fate), d), lost)
  {
    if s.clients[c].pc.Claiming? || s.clients[c].pc.Reclaiming? {
      ClaimFits(cfg, s, c, s.clients[c], fate, t, d, lost);
    } else {
      MarkFits(cfg, s, c, s.clients[c], fate, t, d, lost);
    }
  }

  lemma {:induction false} AllFit(cfg: Config, s0: State, r: Run, c: Cid, id: Id)
    requires Initial(s0) && Legal(cfg, s0, r) && CrashRun(cfg, s0, r, c) && 1 <= cfg.maxRetries
    requires c in s0.clients && s0.clients[c].kind.Consumer?
    ensures var s := After(cfg, s0, r);
            && c in s.clients && s.clients[c].kind.Consumer? && s.clients[c].log == s0.clients[c].log
            && Fitting(cfg, s.clients[c], Standing(s.store, id), DeedsOf(cfg, s0, r, id),
                       Death(cfg, s0, r, id), MarkLost(cfg, s0, r, id), id)
  {
    if r.Extend? {
      AllFit(cfg, s0, r.prefix, c, id);
      if r.step.Await? {
        AwaitFits(cfg, s0, r, c, id);
      } else {
        OtherStepFits(cfg, s0, r, c, id);
      }
    }
  }

  lemma {:induction false} AllSane(cfg: Config, s0: State, r: Run, c: Cid)
    requires Initial(s0) && Legal(cfg, s0, r) && CrashRun(cfg, s0, r, c)
    requires c in s0.clients && s0.clients[c].kind.Consumer?
    ensures var s := After(cfg, s0, r); c in s.clients && s.clients[c].kind.Consumer? && Sane(s.clients[c])
  {
    if r.Extend? {
      AllSane(cfg, s0, r.prefix, c);
      SaneStep(cfg, Before(cfg, s0, r), r.step, c);
    }
  }

  lemma {:induction false} AllRecorded(cfg: Config, s0: State, r: Run, c: Cid)
    requires Initial(s0) && Legal(cfg, s0, r) && CrashRun(cfg, s0, r, c) && 1 <= cfg.maxRetries
    requires c in s0.clients && s0.clients[c].kind.Consumer?
    ensures var s := After(cfg, s0, r);
            && c in s.clients && s.clients[c].kind.Consumer? && s.clients[c].log == s0.clients[c].log
            && Recorded(s, s.clients[c])
  {
    if r.Extend? {
      AllRecorded(cfg, s0, r.prefix, c);
      AllSane(cfg, s0, r.prefix, c);
      var cl := Before(cfg, s0, r).clients[c];
      if cl.id.Some? {
        AllFit(cfg, s0, r.prefix, c, cl.id.value);
      }
      RecordedStep(cfg, Before(cfg, s0, r), r.step, c);
    }
  }

  // ---------------------------------------------------------------- the messages nobody handled

  /**
   A committed message has neither a success nor a drop exactly if the last owner that won it died between its
   claim and its own success or drop, and no earlier success of it went unmarked. Its record is then
   PROCESSING if the owner died before reporting a failure, and FAILED if it died after.
   */
  lemma {:induction false} UnservedExactly(cfg: Config, s0: State, r: Run, c: Cid, o: nat)
    requires Initial(s0) && Legal(cfg, s0, r) && CrashRun(cfg, s0, r, c) && 1 <= cfg.maxRetries
    requires c in s0.clients && s0.clients[c].kind.Consumer?
    requires var cls := After(cfg, s0, r).clients;
             && c in cls && (cls[c].pc.Idle? || cls[c].pc.Done?) && o < cls[c].committed
             && o < |s0.clients[c].log| && s0.clients[c].log[o].Some?
    ensures var id := s0.clients[c].log[o].value;
            var v, t, d := Standing(After(cfg, s0, r).store, id), DeedsOf(cfg, s0, r, id), Death(cfg, s0, r, id);
            && (!Served(t) <==> d.Some? && !MarkLost(cfg, s0, r, id))
            && (d.Some? ==> LeftAs(cfg, d.value, v))
  {
    AllFit(cfg, s0, r, c, s0.clients[c].log[o].value);
    AllRecorded(cfg, s0, r, c);
  }

  /**
   A delivery is about to commit a message that has neither exactly if its claim was refused by the record of
   an owner that died empty-handed: one PROCESSING under its lease, or a FAILED one that may not be retried.
   */
  lemma {:induction false} RefusedUnservedExactly(cfg: Config, s0: State, r: Run, c: Cid, id: Id)
    requires Initial(s0) && Legal(cfg, s0, r) && CrashRun(cfg, s0, r, c) && 1 <= cfg.maxRetries
    requires c in s0.clients && s0.clients[c].kind.Consumer?
    requires r.Extend? && r.step.Await? && r.step.c == c
    requires var cls := After(cfg, s0, r).clients;
             && c in cls && cls[c].id == Some(id) && (cls[c].pc.Skipping? || cls[c].pc.Committing?)
    requires c in Before(cfg, s0, r).clients && !Before(cfg, s0, r).clients[c].pc.Skipping?
    ensures var s := After(cfg, s0, r);
            var v, t, d := Standing(s.store, id), DeedsOf(cfg, s0, r, id), Death(cfg, s0, r, id);
            && v.Some?
            && (!Served(t) <==>
              && s.clients[c].pc.Skipping? && Blocked(cfg, s.store, s.us, id)
              && !MarkLost(cfg, s0, r, id) && d.Some?
              && if v.value.0 == PROCESSING then d.value.Handling? || d.value.Raised?
                 else Closed(cfg, v) && (d.value.Sleeping? || d.value.Reclaiming? || d.value.Dropping?))
  {
    var s, s' := Before(cfg, s0, r), After(cfg, s0, r);
    AllFit(cfg, s0, r, c, id);
    AllFit(cfg, s0, r.prefix, c, id);
    if s'.clients[c].pc.Skipping? {
      RefusedClaim(cfg, s, c, r.step.fate, id);
      StoreStaysWellKept(cfg, s0, r.prefix);
      RefusedExactly(cfg, s.store, s.us, id);
      BlockedTells(cfg, s.store, s.us, id);
    } else {
      ServedCommit(cfg, s, c, r.step.fate, id);
    }
  }

  lemma {:induction false} RefusedClaim(cfg: Config, s: State, c: Cid, fate: Fate, id: Id)
    requires Enabled(cfg, s, Await(c, fate)) && s.clients[c].kind.Consumer? && s.clients[c].id == Some(id)
    requires Next(cfg, s, Await(c, fate)).clients[c].pc.Skipping? && !s.clients[c].pc.Skipping?
    ensures !Grants(cfg, s.store, s.us, id) && Next(cfg, s, Await(c, fate)).store == s.store
  {
  }

  lemma {:induction false} BlockedTells(cfg: Config, b: Backend, us: nat, id: Id)
    requires Blocked(cfg, b, us, id)
    ensures var v := Standing(b, id); v.Some? && (v.value.0 == FAILED ==> Closed(cfg, v))
  {
  }

  /** Other than by a refusal, an identified delivery comes to its commit by a mark of its success or by a drop. */
  lemma {:induction false} ServedCommit(cfg: Config, s: State, c: Cid, fate: Fate, id: Id)
    requires Enabled(cfg, s, Await(c, fate)) && s.clients[c].kind.Consumer? && s.clients[c].id == Some(id)
    requires Next(cfg, s, Await(c, fate)).clients[c].pc.Committing? && !s.clients[c].pc.Skipping?
    ensures s.clients[c].pc.Succeeded? || (s.clients[c].pc.Dropping? && fate == Ok)
  {
  }

  /**
   A mark_completed lost before it took effect does not keep the offset from being committed: the handler has
   succeeded, and the record stays PROCESSING, to be claimed and handled again once its lease is over.
   */
  lemma {:induction false} LostMarkLeaves(cfg: Config, s0: State, r: Run, c: Cid, id: Id)
    requires Initial(s0) && Legal(cfg, s0, r) && CrashRun(cfg, s0, r, c) && 1 <= cfg.maxRetries
    requires c in s0.clients && s0.clients[c].kind.Consumer?
    requires var cls := After(cfg, s0, r).clients; c in cls && cls[c].id == Some(id) && cls[c].pc.Succeeded?
    ensures var s, s' := After(cfg, s0, r), Next(cfg, After(cfg, s0, r), Await(c, Lost(false)));
            && s'.store == s.store && Standing(s.store, id).Some? && Standing(s.store, id).value.0 == PROCESSING
            && s'.clients[c].pc == Committing(Processed(s.clients[c].pc.value))
            && DeedsOf(cfg, s0, r, id).successes >= 1
            && MarkLost(cfg, s0, Extend(r, Await(c, Lost(false))), id)
  {
    AllFit(cfg, s0, r, c, id);
  }

  /**
   Through one consumer, whatever crashes and is lost: no message is dropped twice, and a dropped one is FAILED with
   no retry left, so none is both dropped and COMPLETED, at any point of the run.
   */
  lemma {:induction false} NeverDroppedAndCompleted(cfg: Config, s0: State, r: Run, c: Cid, id: Id)
    requires Initial(s0) && Legal(cfg, s0, r) && CrashRun(cfg, s0, r, c) && 1 <= cfg.maxRetries
    requires c in s0.clients && s0.clients[c].kind.Consumer?
    ensures var v, t := Standing(After(cfg, s0, r).store, id), DeedsOf(cfg, s0, r, id);
            t.drops <= 1 && (t.drops == 1 ==> Closed(cfg, v))
  {
    AllFit(cfg, s0, r, c, id);
  }
}
