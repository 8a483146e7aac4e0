/**
 What becomes of every claim won, for any clients, crashes, lost calls and deletes on either store, with no
 timing assumption: each delivery or call that wins its claim comes to exactly one end, and each claim won
 lets the handler be called once.
 */
module Ledger {
  import opened Types
  import opened ClientMachine
  import opened RedisSpec
  import opened MemorySpec
  import opened StoreTrace
  import opened Deployment
  import opened Deliveries
  import opened Exclusion
  import opened Conservation
  import opened KeyHistory
  import opened Offsets

  /** Deliveries and calls that won `id`, and their ends. */
  datatype Book = Book(
    won: nat,
    successes: nat,
    drops: nat,    // sent to the DLQ or dropped
    died: nat,     // crashed, or left by an exception of store or DLQ, with neither of the two
    raised: nat)   // a decorated call or a guarded block that raised to its caller

  function Add(a: Book, b: Book): Book {
    Book(a.won + b.won, a.successes + b.successes, a.drops + b.drops, a.died + b.died, a.raised + b.raised)
  }

  const NOTHING := Book(0, 0, 0, 0, 0)

  /** The step is a claim of a client of `id` that takes effect, whether or not the client is told. */
  predicate WinsClaim(cfg: Config, s: State, st: Step, id: Id) {
    && st.Await? && st.c in s.clients && s.clients[st.c].id == Some(id)
    && (s.clients[st.c].pc.Claiming? || s.clients[st.c].pc.Reclaiming?)
    && st.fate != Lost(false) && Grants(cfg, s.store, s.us, id)
  }

  predicate Enters(cfg: Config, s: State, st: Step, id: Id) {
    WinsClaim(cfg, s, st, id) && s.clients[st.c].pc.Claiming?
  }

  predicate Succeeds(s: State, st: Step, id: Id) { Acts(s, st, id) && st.Await? && st.fate.HandlerReturns? }

  predicate Drops(s: State, st: Step, id: Id) {
    Acts(s, st, id) && st.Await? && s.clients[st.c].pc.Dropping? && st.fate in {Ok, Lost(true)}
  }

  /** The process dies, or a call raises out of the client, with the claim won and nothing to show for it. */
  predicate Dies(cfg: Config, s: State, st: Step, id: Id) {
    && Acts(s, st, id) && !Drops(s, st, id)
    && (EmptyHanded(s.clients[st.c].pc) || Enters(cfg, s, st, id))
    && (st.Crash? || st.fate.Lost?)
  }

  /** A decorated call or a guard comes to its end by raising to its caller. */
  predicate Raises(cfg: Config, s: State, st: Step, id: Id) {
    && Acts(s, st, id) && st.Await? && st.fate.Ok? && !s.clients[st.c].kind.Consumer?
    && var cl := s.clients[st.c];
    match cl.pc
    case Claiming => Grants(cfg, s.store, s.us, id) && EnterLoop(cl.kind, cfg).Done?
    case Raised(n, e) => AfterFailure(cl.kind, cfg, n, e).Done?
    case Reclaiming(_, _) => !Grants(cfg, s.store, s.us, id)
    case _ => false
  }

  /** What one step adds for `id`. */
  function Entered(cfg: Config, s: State, st: Step, id: Id): Book {
    Book(One(Enters(cfg, s, st, id)), One(Succeeds(s, st, id)), One(Drops(s, st, id)), One(Dies(cfg, s, st, id)),
         One(Raises(cfg, s, st, id)))
  }

  function BookOf(cfg: Config, s0: State, r: Run, id: Id): Book {
    if r.Begins? then NOTHING
    else Add(BookOf(cfg, s0, r.prefix, id), Entered(cfg, Before(cfg, s0, r), r.step, id))
  }

  lemma {:induction false} ActorKeepsId(cfg: Config, s: State, st: Step)
    requires Enabled(cfg, s, st) && (st.Await? || st.Crash?)
    ensures st.c in Next(cfg, s, st).clients && Next(cfg, s, st).clients[st.c].id == s.clients[st.c].id
  {
  }

  predicate Ends(cfg: Config, s: State, st: Step, id: Id) {
    Succeeds(s, st, id) || Drops(s, st, id) || Dies(cfg, s, st, id) || Raises(cfg, s, st, id)
  }

  /** A client is at work after its await exactly if it was or has just won, and does not end with the step. */
  lemma {:induction false} WorkMoves(cfg: Config, s: State, st: Step, id: Id)
    requires Enabled(cfg, s, st) && st.Await? && Acts(s, st, id)
    ensures var work, work' := EmptyHanded(s.clients[st.c].pc), EmptyHanded(Next(cfg, s, st).clients[st.c].pc);
            && !(work && Enters(cfg, s, st, id))
            && (work' <==> (work || Enters(cfg, s, st, id)) && !Ends(cfg, s, st, id))
            && (Ends(cfg, s, st, id) ==> work || Enters(cfg, s, st, id))
  {
  }

  lemma {:induction false} OneEnd(cfg: Config, s: State, st: Step, id: Id)
    requires Enabled(cfg, s, st)
    ensures One(Succeeds(s, st, id)) + One(Drops(s, st, id)) + One(Dies(cfg, s, st, id)) + One(Raises(cfg, s, st, id))
            == One(Ends(cfg, s, st, id))
  {
  }

  lemma {:induction false} NothingEntered(cfg: Config, s: State, st: Step, id: Id)
    requires Enabled(cfg, s, st) && !Acts(s, st, id)
    ensures Entered(cfg, s, st, id) == NOTHING
  {
  }

  /** Beginning a delivery is not yet work on it, and other clients are not changed. */
  lemma {:induction false} NoWork(cfg: Config, s: State, st: Step, id: Id)
    requires Enabled(cfg, s, st) && !Acts(s, st, id)
    ensures Those(Next(cfg, s, st), AtWork, id) == Those(s, AtWork, id)
  {
    var s' := Next(cfg, s, st);
    if st.Begin? || st.Await? || st.Crash? {
      assert !Stands(s.clients[st.c], AtWork, id) && !Stands(s'.clients[st.c], AtWork, id);
    }
    forall d ensures d in Those(s', AtWork, id) <==> d in Those(s, AtWork, id) {
    }
  }

  lemma {:induction false} CrashEntered(cfg: Config, s: State, st: Step, id: Id)
    requires Enabled(cfg, s, st) && st.Crash? && Acts(s, st, id)
    ensures Entered(cfg, s, st, id) == Book(0, 0, 0, One(EmptyHanded(s.clients[st.c].pc)), 0)
    ensures !EmptyHanded(Next(cfg, s, st).clients[st.c].pc)
  {
  }

  /** A step begins or ends the work of the client that acts, and of no other. */
  lemma {:induction false} EnteredStep(cfg: Config, s: State, st: Step, id: Id)
    requires Enabled(cfg, s, st)
    ensures var b := Entered(cfg, s, st, id);
            |Those(Next(cfg, s, st), AtWork, id)| ==
            |Those(s, AtWork, id)| + b.won - b.successes - b.drops - b.died - b.raised
  {
    if !Acts(s, st, id) {
      NothingEntered(cfg, s, st, id);
      NoWork(cfg, s, st, id);
    } else {
      ActorKeepsId(cfg, s, st);
      ThoseReplaced(s, Next(cfg, s, st), st.c, AtWork, id);
      if st.Crash? {
        CrashEntered(cfg, s, st, id);
      } else {
        WorkMoves(cfg, s, st, id);
        OneEnd(cfg, s, st, id);
      }
    }
  }

  /**
   Every delivery or call that won `id` succeeded, was given up, died empty-handed, raised to its caller, or is
   still at work.
   */
  lemma {:induction false} WonAreAccountedFor(cfg: Config, s0: State, r: Run, id: Id)
    requires Initial(s0) && Legal(cfg, s0, r)
    ensures var b := BookOf(cfg, s0, r, id);
            b.won == b.successes + b.drops + b.died + b.raised + |Those(After(cfg, s0, r), AtWork, id)|
  {
    if r.Begins? {
      assert Those(s0, AtWork, id) == {};
    } else {
      WonAreAccountedFor(cfg, s0, r.prefix, id);
      EnteredStep(cfg, Before(cfg, s0, r), r.step, id);
    }
  }

  lemma {:induction false} DeedsStep(cfg: Config, s0: State, r: Run, id: Id)
    requires r.Extend? && Enabled(cfg, Before(cfg, s0, r), r.step)
    ensures var t, t', s := DeedsOf(cfg, s0, r.prefix, id), DeedsOf(cfg, s0, r, id), Before(cfg, s0, r);
            && t'.successes == t.successes + One(Succeeds(s, r.step, id))
            && t'.drops == t.drops + One(Drops(s, r.step, id))
  {
  }

  /** The successes and drops of the book are the deeds of the run. */
  lemma {:induction false} BookTellsDeeds(cfg: Config, s0: State, r: Run, id: Id)
    requires Initial(s0) && Legal(cfg, s0, r)
    ensures var b, t := BookOf(cfg, s0, r, id), DeedsOf(cfg, s0, r, id);
            b.successes == t.successes && b.drops == t.drops
  {
    if r.Extend? {
      BookTellsDeeds(cfg, s0, r.prefix, id);
      DeedsStep(cfg, s0, r, id);
    }
  }

  // ---------------------------------------------------------------- the committed messages nobody handled

  /** A record is first written by a claim that is won. */
  lemma {:induction false} RecordIsWon(cfg: Config, s: State, st: Step, id: Id)
    requires Enabled(cfg, s, st) && StatusOf(s.store, id).None? && StatusOf(StoreNext(cfg, s, st), id).Some?
    ensures WinsClaim(cfg, s, st, id)
  {
  }

  lemma {:induction false} RecordsAreWon(cfg: Config, s0: State, r: Run, id: Id)
    requires Initial(s0) && Legal(cfg, s0, r) && StatusOf(After(cfg, s0, r).store, id).Some?
    ensures BookOf(cfg, s0, r, id).won >= 1
  {
    assert r.Extend?;
    var s, st := Before(cfg, s0, r), r.step;
    if StatusOf(s.store, id).Some? {
      RecordsAreWon(cfg, s0, r.prefix, id);
    } else {
      RecordIsWon(cfg, s, st, id);
      if s.clients[st.c].pc.Reclaiming? {
        WonAreAccountedFor(cfg, s0, r.prefix, id);
        assert st.c in Those(s, AtWork, id);
      }
    }
  }

  /** What settles an identified record shows that its id was won. */
  lemma {:induction false} SettledIsWon(cfg: Config, s0: State, r: Run, c: Cid, o: nat, id: Id)
    requires Initial(s0) && Legal(cfg, s0, r) && 1 <= cfg.maxRetries && Settled(cfg, s0, r, c, o)
    requires c in s0.clients && s0.clients[c].kind.Consumer?
    requires o < |s0.clients[c].log| && s0.clients[c].log[o] == Some(id)
    ensures BookOf(cfg, s0, r, id).won >= 1
  {
    if Settled(cfg, s0, r.prefix, c, o) {
      SettledIsWon(cfg, s0, r.prefix, c, o, id);
    } else {
      SettlerId(cfg, s0, r, c, o, id);
      var s := Before(cfg, s0, r);
      SettlerWon(cfg, s, r.step, c, o, id);
      if StatusOf(s.store, id).Some? {
        RecordsAreWon(cfg, s0, r.prefix, id);
      } else {
        WonAreAccountedFor(cfg, s0, r.prefix, id);
        assert c in Those(s, AtWork, id);
      }
      assert BookOf(cfg, s0, r, id).won >= BookOf(cfg, s0, r.prefix, id).won;
    }
  }

  lemma {:induction false} SettlerId(cfg: Config, s0: State, r: Run, c: Cid, o: nat, id: Id)
    requires Initial(s0) && Legal(cfg, s0, r) && 1 <= cfg.maxRetries
    requires c in s0.clients && s0.clients[c].kind.Consumer?
    requires o < |s0.clients[c].log| && s0.clients[c].log[o] == Some(id)
    requires r.Extend? && Settles(cfg, Before(cfg, s0, r), r.step, c, o)
    ensures Before(cfg, s0, r).clients[c].id == Some(id)
  {
    AllAttended(cfg, s0, r.prefix, c);
  }

  lemma {:induction false} SettlerWon(cfg: Config, s: State, st: Step, c: Cid, o: nat, id: Id)
    requires Settles(cfg, s, st, c, o) && s.clients[c].id == Some(id)
    ensures StatusOf(s.store, id).Some? || Stands(s.clients[c], AtWork, id)
  {
  }

  /**
   With any clients and no timing assumption: a committed message was won, and it has neither a success nor a drop
   exactly if every delivery and call that won it died empty-handed, raised to its caller, or is still
   at work.
   */
  lemma {:induction false} CommittedUnservedExactly(cfg: Config, s0: State, r: Run, c: Cid, o: nat)
    requires Initial(s0) && Legal(cfg, s0, r) && 1 <= cfg.maxRetries
    requires c in s0.clients && s0.clients[c].kind.Consumer?
    requires o < |s0.clients[c].log| && s0.clients[c].log[o].Some?
    requires c in After(cfg, s0, r).clients && o < After(cfg, s0, r).clients[c].committed
    ensures var id := s0.clients[c].log[o].value;
            var b, t := BookOf(cfg, s0, r, id), DeedsOf(cfg, s0, r, id);
            && b.won >= 1
            && (t.successes == 0 && t.drops == 0 <==>
              b.won == b.died + b.raised + |Those(After(cfg, s0, r), AtWork, id)|)
  {
    var id := s0.clients[c].log[o].value;
    CommitsAreSettled(cfg, s0, r, c);
    SettledIsWon(cfg, s0, r, c, o, id);
    WonAreAccountedFor(cfg, s0, r, id);
    BookTellsDeeds(cfg, s0, r, id);
  }

  /** A COMPLETED record shows a success. */
  lemma {:induction false} CompletedIsServed(cfg: Config, s0: State, r: Run, id: Id)
    requires Initial(s0) && Legal(cfg, s0, r) && StatusOf(After(cfg, s0, r).store, id) == Some(COMPLETED)
    ensures Total(cfg, s0, r, id).completed >= 1
  {
    assert r.Extend?;
    CompletedCountStep(cfg, Before(cfg, s0, r), r.step, id);
    if StatusOf(Before(cfg, s0, r).store, id) == Some(COMPLETED) {
      CompletedIsServed(cfg, s0, r.prefix, id);
    }
  }

  lemma {:induction false} TotalTellsDeeds(cfg: Config, s0: State, r: Run, id: Id)
    requires Initial(s0) && Legal(cfg, s0, r)
    ensures Total(cfg, s0, r, id).successes == DeedsOf(cfg, s0, r, id).successes
  {
    if r.Extend? {
      TotalTellsDeeds(cfg, s0, r.prefix, id);
      DeedsStep(cfg, s0, r, id);
      var s, st := Before(cfg, s0, r), r.step;
      assert Adds(cfg, s, st, id).successes == One(Succeeds(s, st, id));
    }
  }

  /**
   A claim that is refused meets a message with neither a success nor a drop exactly if all that won it are gone
   empty-handed or still at work; the record that refuses it is then PROCESSING or FAILED.
   */
  lemma {:induction false} UnservedAtRefusal(cfg: Config, s0: State, r: Run, id: Id)
    requires Initial(s0) && Legal(cfg, s0, r)
    requires Blocked(cfg, After(cfg, s0, r).store, After(cfg, s0, r).us, id)
    ensures var s, b, t := After(cfg, s0, r), BookOf(cfg, s0, r, id), DeedsOf(cfg, s0, r, id);
            && b.won >= 1
            && (t.successes == 0 && t.drops == 0 <==> b.won == b.died + b.raised + |Those(s, AtWork, id)|)
            && (t.successes == 0 ==> StatusOf(s.store, id) in {Some(PROCESSING), Some(FAILED)})
  {
    RecordsAreWon(cfg, s0, r, id);
    WonAreAccountedFor(cfg, s0, r, id);
    BookTellsDeeds(cfg, s0, r, id);
    if StatusOf(After(cfg, s0, r).store, id) == Some(COMPLETED) {
      CompletedIsServed(cfg, s0, r, id);
      SuccessesConserved(cfg, s0, r, id);
      TotalTellsDeeds(cfg, s0, r, id);
    }
  }

  // ---------------------------------------------------------------- handler calls of an id

  /** Claims won for an id, handler calls, and claims that never came to a call. */
  datatype Count = Count(claims: nat, calls: nat, unused: nat)

  const NONE := Count(0, 0, 0)

  function Sum(a: Count, b: Count): Count { Count(a.claims + b.claims, a.calls + b.calls, a.unused + b.unused) }

  predicate CallsFor(s: State, st: Step, id: Id) {
    Acts(s, st, id) && st.Await? && (st.fate.HandlerReturns? || st.fate.HandlerRaises?)
  }

  /** A claim is unused if its reply is lost, its client dies before the handler ends, or no attempt is to be made. */
  function Counts(cfg: Config, s: State, st: Step, id: Id): Count {
    if WinsClaim(cfg, s, st, id) then Count(1, 0, One(!Next(cfg, s, st).clients[st.c].pc.Handling?))
    else if CallsFor(s, st, id) then NONE.(calls := 1)
    else if Acts(s, st, id) && st.Crash? && s.clients[st.c].pc.Handling? then NONE.(unused := 1)
    else NONE
  }

  function CountOf(cfg: Config, s0: State, r: Run, id: Id): Count {
    if r.Begins? then NONE else Sum(CountOf(cfg, s0, r.prefix, id), Counts(cfg, Before(cfg, s0, r), r.step, id))
  }

  function LifetimeCount(cfg: Config, s0: State, r: Run, id: Id): Count {
    if r.Begins? then NONE
    else
      var s, st := Before(cfg, s0, r), r.step;
      Sum(if Creates(cfg, s, st, id) then NONE else LifetimeCount(cfg, s0, r.prefix, id), Counts(cfg, s, st, id))
  }

  lemma {:induction false} CountsAwait(cfg: Config, s: State, st: Step, id: Id)
    requires Enabled(cfg, s, st) && (st.Await? || st.Crash?)
    ensures var n := Counts(cfg, s, st, id);
            One(Stands(Next(cfg, s, st).clients[st.c], AtHandler, id)) ==
            One(Stands(s.clients[st.c], AtHandler, id)) + n.claims - n.calls - n.unused
  {
    ActorKeepsId(cfg, s, st);
    if Acts(s, st, id) {
      HandlerStep(cfg, s, st, id);
    }
  }

  /** A client of an id comes to its handler by a claim, and leaves it by a call or a crash. */
  lemma {:induction false} HandlerStep(cfg: Config, s: State, st: Step, id: Id)
    requires Enabled(cfg, s, st) && Acts(s, st, id)
    ensures var pc, pc' := s.clients[st.c].pc, Next(cfg, s, st).clients[st.c].pc;
            && (pc.Handling? ==> !pc'.Handling? && !WinsClaim(cfg, s, st, id) && (st.Crash? || CallsFor(s, st, id)))
            && (!pc.Handling? && pc'.Handling? ==> WinsClaim(cfg, s, st, id))
            && (!pc.Handling? ==> !CallsFor(s, st, id))
  {
  }

  lemma {:induction false} CountsStep(cfg: Config, s: State, st: Step, id: Id)
    requires Enabled(cfg, s, st)
    ensures var n := Counts(cfg, s, st, id);
            |Those(Next(cfg, s, st), AtHandler, id)| == |Those(s, AtHandler, id)| + n.claims - n.calls - n.unused
  {
    var s' := Next(cfg, s, st);
    if st.Tick? || st.Delete? {
      assert Those(s', AtHandler, id) == Those(s, AtHandler, id);
    } else {
      ThoseReplaced(s, s', st.c, AtHandler, id);
      if st.Begin? {
        assert !s.clients[st.c].pc.Handling?;
        assert s'.clients[st.c].pc.Handling? ==> s'.clients[st.c].id.None?;
      } else {
        CountsAwait(cfg, s, st, id);
      }
    }
  }

  /** With no timing assumption, each claim won is for one handler call: made, still to come, or never to be made. */
  lemma {:induction false} CallsAreClaimed(cfg: Config, s0: State, r: Run, id: Id)
    requires Initial(s0) && Legal(cfg, s0, r)
    ensures var n := CountOf(cfg, s0, r, id);
            n.claims == n.calls + n.unused + |Those(After(cfg, s0, r), AtHandler, id)|
  {
    if r.Begins? {
      assert Those(s0, AtHandler, id) == {};
    } else {
      CallsAreClaimed(cfg, s0, r.prefix, id);
      CountsStep(cfg, Before(cfg, s0, r), r.step, id);
    }
  }

  /** Under the contract nobody is at the handler of an id when its record is created. */
  lemma {:induction false} NobodyAtCreation(cfg: Config, s: State, st: Step, id: Id)
    requires Owned(cfg, s, id) && Timely(cfg, s, id) && Enabled(cfg, s, st) && Creates(cfg, s, st, id)
    ensures Those(s, AtHandler, id) == {}
  {
    assert forall d | d in s.clients && HoldsId(s.clients[d], id) :: OwnsRecord(cfg, s.store, s.clients[d]);
    assert forall d | d in s.clients && Stands(s.clients[d], AtHandler, id) :: HoldsId(s.clients[d], id);
  }

  /** So under the lease contract it holds of each lifetime of the record. */
  lemma {:induction false} LifetimeCallsAreClaimed(cfg: Config, s0: State, r: Run, id: Id)
    requires Initial(s0) && Legal(cfg, s0, r) && TimelyRun(cfg, s0, r, id)
    ensures var n := LifetimeCount(cfg, s0, r, id);
            n.claims == n.calls + n.unused + |Those(After(cfg, s0, r), AtHandler, id)|
  {
    if r.Begins? {
      assert Those(s0, AtHandler, id) == {};
    } else {
      LifetimeCallsAreClaimed(cfg, s0, r.prefix, id);
      SingleOwner(cfg, s0, r.prefix, id);
      CountsStep(cfg, Before(cfg, s0, r), r.step, id);
      if Creates(cfg, Before(cfg, s0, r), r.step, id) {
        NobodyAtCreation(cfg, Before(cfg, s0, r), r.step, id);
      }
    }
  }

  /** The claims of the present lifetime are those of the key's history. */
  lemma {:induction false} ClaimsOfHistory(cfg: Config, s0: State, r: Run, id: Id)
    requires Initial(s0) && s0.store.Redis? && Legal(cfg, s0, r)
    ensures LifetimeCount(cfg, s0, r, id).claims == HistoryOf(cfg, OpsOf(cfg, s0, r), id).claims
  {
    if r.Extend? {
      ClaimsOfHistory(cfg, s0, r.prefix, id);
      RunsAreTraces(cfg, s0, r.prefix);
      RunKeepsBackend(cfg, s0, r.prefix);
      TraceClaims(cfg, s0, r, id);
      var s := Before(cfg, s0, r);
      ClaimIsWritten(cfg, s, r.step, id);
      assert LifetimeCount(cfg, s0, r, id).claims ==
             (if Creates(cfg, s, r.step, id) then 0 else LifetimeCount(cfg, s0, r.prefix, id).claims)
             + One(WinsClaim(cfg, s, r.step, id));
    }
  }

  /** What the last step adds to the claims of the history. */
  lemma {:induction false} TraceClaims(cfg: Config, s0: State, r: Run, id: Id)
    requires r.Extend? && Enabled(cfg, Before(cfg, s0, r), r.step)
    requires Before(cfg, s0, r).store == Redis(DbAfter(cfg, OpsOf(cfg, s0, r.prefix)))
    ensures var s, st, n := Before(cfg, s0, r), r.step, HistoryOf(cfg, OpsOf(cfg, s0, r.prefix), id).claims;
            HistoryOf(cfg, OpsOf(cfg, s0, r), id).claims ==
            if !WinsClaim(cfg, s, st, id) then n else if Creates(cfg, s, st, id) then 1 else n + 1
  {
    var s, st, tr := Before(cfg, s0, r), r.step, OpsOf(cfg, s0, r.prefix);
    ClaimIsWritten(cfg, s, st, id);
    if st.Delete? {
      HistoryClaims(cfg, tr, s.us, st.id, OpDelete, id);
    } else if st.Await? && Effect(cfg, s.clients[st.c], st.fate).Some? {
      var e := Effect(cfg, s.clients[st.c], st.fate).value;
      assert OpsOf(cfg, s0, r) == Then(tr, s.us, e.0, e.1);
      HistoryClaims(cfg, tr, s.us, e.0, e.1, id);
    } else {
      assert OpsOf(cfg, s0, r) == tr;
    }
  }

  lemma {:induction false} HistoryClaims(cfg: Config, tr: Trace, us: nat, i: Id, op: Op, id: Id)
    ensures var n, db := HistoryOf(cfg, tr, id).claims, DbAfter(cfg, tr);
            HistoryOf(cfg, Then(tr, us, i, op), id).claims ==
            if i != id || !op.OpClaim? || !Wins(cfg, db, id, Ms(us)) then n
            else if Get(db, id, Ms(us)).None? then 1 else n + 1
  {
  }

  /** A won claim is an operation on the store, and one that finds no record creates it. */
  lemma {:induction false} ClaimIsWritten(cfg: Config, s: State, st: Step, id: Id)
    requires Enabled(cfg, s, st) && s.store.Redis?
    ensures var claims := st.Await? && Effect(cfg, s.clients[st.c], st.fate) == Some((id, OpClaim));
            && (WinsClaim(cfg, s, st, id) <==> claims && Wins(cfg, s.store.db, id, Ms(s.us)))
            && (Creates(cfg, s, st, id) <==> claims && Get(s.store.db, id, Ms(s.us)).None?)
  {
  }

  /**
   Over all its deliveries and under the lease contract, the handler of a message is called at most once per claim won
   in the lifetime of its record: once, and again for each expired lease and each retried failure. Of the former
   there are at most ttl / lease; max_retries bounds neither.
   */
  lemma {:induction false} CallsPerLifetime(cfg: Config, s0: State, r: Run, id: Id)
    requires Initial(s0) && s0.store.Redis? && Legal(cfg, s0, r) && TimelyRun(cfg, s0, r, id)
    requires var b := After(cfg, s0, r).store; b.Redis? && id in b.db
    ensures var n, h := LifetimeCount(cfg, s0, r, id), HistoryOf(cfg, OpsOf(cfg, s0, r), id);
            && n.calls <= h.claims == 1 + h.leaseReclaims + h.failReclaims
            && h.leaseReclaims * cfg.LeaseMs() <= cfg.TtlMs()
  {
    LifetimeCallsAreClaimed(cfg, s0, r, id);
    ClaimsOfHistory(cfg, s0, r, id);
    RunsAreTraces(cfg, s0, r);
    ReachableHistory(cfg, OpsOf(cfg, s0, r), id);
    BoundedReclaims(cfg, OpsOf(cfg, s0, r), id);
  }
}
