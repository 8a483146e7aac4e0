/** When a consumer commits an offset, on either store, across crashes and restarts. */
module Offsets {
  import opened Types
  import opened ClientMachine
  import opened Deployment

  /** The step settles the record consumer `c` has at offset `o`. */
  ghost predicate Settles(cfg: Config, s: State, st: Step, c: Cid, o: nat) {
    && st.Await? && st.c == c && c in s.clients && s.clients[c].position == o + 1
    && var cl := s.clients[c];
    || (cl.pc.Handling? && st.fate.HandlerReturns?)
    || (cl.pc.Dropping? && st.fate.Ok? && (cl.pc.cause.Some? || cfg.maxRetries == 0))
    || (cl.pc.Claiming? && st.fate.Ok? && cl.id.Some? && Blocked(cfg, s.store, s.us, cl.id.value))
  }

  ghost predicate Settled(cfg: Config, s0: State, r: Run, c: Cid, o: nat) {
    r.Extend? && (Settled(cfg, s0, r.prefix, c, o) || Settles(cfg, Before(cfg, s0, r), r.step, c, o))
  }

  /** At most one record is delivered and uncommitted. */
  predicate Positioned(cfg: Config, cl: Client) {
    && cl.committed <= cl.position <= |cl.log| && cl.position <= cl.committed + 1
    && (Resting(cl.pc) ==> cl.position == cl.committed)
    && (!Resting(cl.pc) && !cl.pc.Done? ==> cl.position == cl.committed + 1)
    && (cl.pc == Dropping(None) ==> cfg.maxRetries == 0)
    && !cl.pc.Checking?
  }

  /** Committing waits for the record to be settled. */
  ghost predicate InOrder(cfg: Config, s0: State, r: Run, c: Cid, cl: Client) {
    && Positioned(cfg, cl)
    && (IsSettled(cl.pc) ==> Settled(cfg, s0, r, c, cl.position - 1))
  }

  predicate IsSettled(pc: Pc) { pc.Skipping? || pc.Succeeded? || pc.Committing? }

  lemma {:induction false} PositionedStep(cfg: Config, s: State, st: Step, c: Cid)
    requires Enabled(cfg, s, st) && c in s.clients && s.clients[c].kind.Consumer? && Positioned(cfg, s.clients[c])
    ensures Positioned(cfg, Next(cfg, s, st).clients[c])
  {
  }

  ghost predicate InOrderBefore(cfg: Config, s0: State, r: Run, c: Cid) {
    && r.Extend? && Enabled(cfg, Before(cfg, s0, r), r.step) && WellKept(Before(cfg, s0, r).store)
    && var cls := Before(cfg, s0, r).clients;
    c in cls && cls[c].kind.Consumer? && InOrder(cfg, s0, r.prefix, c, cls[c])
  }

  /** The step after which a delivery only has its commit to come is one that settles it. */
  lemma {:induction false} SettlingStep(cfg: Config, s: State, st: Step, c: Cid)
    requires Enabled(cfg, s, st) && c in s.clients && s.clients[c].kind.Consumer? && Positioned(cfg, s.clients[c])
    requires WellKept(s.store)
    requires IsSettled(Next(cfg, s, st).clients[c].pc)
    ensures Next(cfg, s, st).clients[c].position == s.clients[c].position
    ensures IsSettled(s.clients[c].pc) || Settles(cfg, s, st, c, s.clients[c].position - 1)
  {
    var cl := s.clients[c];
    if cl.pc.Claiming? && cl.id.Some? {
      RefusedExactly(cfg, s.store, s.us, cl.id.value);
    }
  }

  lemma {:induction false} InOrderStep(cfg: Config, s0: State, r: Run, c: Cid)
    requires InOrderBefore(cfg, s0, r, c)
    ensures c in After(cfg, s0, r).clients && InOrder(cfg, s0, r, c, After(cfg, s0, r).clients[c])
  {
    PositionedStep(cfg, Before(cfg, s0, r), r.step, c);
    if IsSettled(After(cfg, s0, r).clients[c].pc) {
      SettlingStep(cfg, Before(cfg, s0, r), r.step, c);
    }
  }

  /** The committed offset moves by one record, and only by a commit. */
  lemma {:induction false} CommittedStep(cfg: Config, s: State, st: Step, c: Cid)
    requires Enabled(cfg, s, st) && c in s.clients && s.clients[c].kind.Consumer? && Positioned(cfg, s.clients[c])
    ensures c in Next(cfg, s, st).clients
    ensures var cl, cl' := s.clients[c], Next(cfg, s, st).clients[c];
            && cl'.kind == cl.kind && cl'.log == cl.log
            && (cl'.committed == cl.committed ||
              (cl.pc.Committing? && cl'.committed == cl.committed + 1 == cl.position))
  {
  }

  lemma {:induction false} CommitMoves(cfg: Config, s0: State, r: Run, c: Cid)
    requires InOrderBefore(cfg, s0, r, c)
    ensures c in After(cfg, s0, r).clients
    ensures var cl, cl' := Before(cfg, s0, r).clients[c], After(cfg, s0, r).clients[c];
            && cl'.kind == cl.kind && cl'.log == cl.log && cl.committed <= cl'.committed
            && (cl.committed < cl'.committed ==>
              cl'.committed == cl.committed + 1 && Settled(cfg, s0, r, c, cl.committed))
  {
    CommittedStep(cfg, Before(cfg, s0, r), r.step, c);
  }

  /**
   Over any run with crashes and restarts from the committed offset, a consumer has at most one
   uncommitted delivery, and below its committed offset every record was handled, was given up on
   after its handler failed, or had its claim refused by a record that blocks it.
   */
  lemma {:induction false} CommitsAreSettled(cfg: Config, s0: State, r: Run, c: Cid)
    requires Initial(s0) && Legal(cfg, s0, r)
    requires c in s0.clients && s0.clients[c].kind.Consumer?
    ensures var cls := After(cfg, s0, r).clients;
            && c in cls && cls[c].kind.Consumer? && cls[c].log == s0.clients[c].log
            && InOrder(cfg, s0, r, c, cls[c])
            && forall o :: 0 <= o < cls[c].committed ==> Settled(cfg, s0, r, c, o)
  {
    if r.Extend? {
      CommitsAreSettled(cfg, s0, r.prefix, c);
      StoreStaysWellKept(cfg, s0, r.prefix);
      InOrderStep(cfg, s0, r, c);
      CommitMoves(cfg, s0, r, c);
    }
  }

  /** The broker takes the commit, whether or not the consumer hears of it. */
  predicate CommitSucceeds(s: State, st: Step, c: Cid) {
    st.Await? && st.c == c && c in s.clients && s.clients[c].pc.Committing? && st.fate in {Ok, Lost(true)}
  }

  function Commits(cfg: Config, s0: State, r: Run, c: Cid): nat {
    if r.Begins? then 0
    else Commits(cfg, s0, r.prefix, c) + if CommitSucceeds(Before(cfg, s0, r), r.step, c) then 1 else 0
  }

  /** Each offset is committed by one commit: the commits of a consumer number its committed offset. */
  lemma {:induction false} OneCommitEach(cfg: Config, s0: State, r: Run, c: Cid)
    requires Initial(s0) && Legal(cfg, s0, r)
    requires c in s0.clients && s0.clients[c].kind.Consumer?
    ensures c in After(cfg, s0, r).clients && Commits(cfg, s0, r, c) == After(cfg, s0, r).clients[c].committed
  {
    if r.Extend? {
      OneCommitEach(cfg, s0, r.prefix, c);
      CommitsAreSettled(cfg, s0, r.prefix, c);
    }
  }

  // ---------------------------------------------------------------- records without an id

  predicate CallsHandlerAt(s: State, st: Step, c: Cid, o: nat) {
    && st.Await? && st.c == c && c in s.clients && s.clients[c].position == o + 1
    && (st.fate.HandlerReturns? || st.fate.HandlerRaises?)
  }

  /** Handler calls of consumer `c` for the record at offset `o`, over all its deliveries. */
  function CallsAt(cfg: Config, s0: State, r: Run, c: Cid, o: nat): nat {
    if r.Begins? then 0 else CallsAt(cfg, s0, r.prefix, c, o) + One(CallsHandlerAt(Before(cfg, s0, r), r.step, c, o))
  }

  /** The handler has been called in this delivery. */
  predicate HandlerWasCalled(pc: Pc) {
    pc.Raised? || pc.Sleeping? || pc.Reclaiming? || (pc.Dropping? && pc.cause.Some?)
  }

  ghost predicate Attended(cfg: Config, s0: State, r: Run, c: Cid, cl: Client) {
    && cl.position <= |cl.log|
    && (!cl.pc.Idle? ==> cl.position >= 1 && cl.log[cl.position - 1] == cl.id)
    && (HandlerWasCalled(cl.pc) ==> CallsAt(cfg, s0, r, c, cl.position - 1) >= 1)
  }

  lemma {:induction false} AttendedStep(cfg: Config, s: State, st: Step, c: Cid)
    requires Enabled(cfg, s, st) && c in s.clients && s.clients[c].kind.Consumer? && 1 <= cfg.maxRetries
    ensures var cl, cl' := s.clients[c], Next(cfg, s, st).clients[c];
            HandlerWasCalled(cl'.pc) ==>
              && cl'.position == cl.position
              && (HandlerWasCalled(cl.pc) || (st.Await? && st.c == c && st.fate.HandlerRaises?))
  {
  }

  lemma {:induction false} AllAttended(cfg: Config, s0: State, r: Run, c: Cid)
    requires Initial(s0) && Legal(cfg, s0, r) && 1 <= cfg.maxRetries
    requires c in s0.clients && s0.clients[c].kind.Consumer?
    ensures var cls := After(cfg, s0, r).clients;
            c in cls && cls[c].kind.Consumer? && cls[c].log == s0.clients[c].log && Attended(cfg, s0, r, c, cls[c])
  {
    if r.Extend? {
      AllAttended(cfg, s0, r.prefix, c);
      CommitsAreSettled(cfg, s0, r, c);
      AttendedStep(cfg, Before(cfg, s0, r), r.step, c);
    }
  }

  lemma {:induction false} SettledIsAttended(cfg: Config, s0: State, r: Run, c: Cid, o: nat)
    requires Initial(s0) && Legal(cfg, s0, r) && 1 <= cfg.maxRetries && Settled(cfg, s0, r, c, o)
    requires c in s0.clients && s0.clients[c].kind.Consumer? && o < |s0.clients[c].log| && s0.clients[c].log[o].None?
    ensures CallsAt(cfg, s0, r, c, o) >= 1
  {
    AllAttended(cfg, s0, r.prefix, c);
    if Settled(cfg, s0, r.prefix, c, o) {
      SettledIsAttended(cfg, s0, r.prefix, c, o);
    }
  }

  /** Whatever crashes and interferes, a committed record without an id has had its handler called at that offset. */
  lemma {:induction false} UnidentifiedIsHandled(cfg: Config, s0: State, r: Run, c: Cid, o: nat)
    requires Initial(s0) && Legal(cfg, s0, r) && 1 <= cfg.maxRetries
    requires c in s0.clients && s0.clients[c].kind.Consumer? && o < |s0.clients[c].log| && s0.clients[c].log[o].None?
    requires c in After(cfg, s0, r).clients && o < After(cfg, s0, r).clients[c].committed
    ensures CallsAt(cfg, s0, r, c, o) >= 1
  {
    CommitsAreSettled(cfg, s0, r, c);
    SettledIsAttended(cfg, s0, r, c, o);
  }
}
