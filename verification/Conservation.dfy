/** Where handler successes go, with and without timing assumptions. */
module Conservation {
  import opened Types
  import opened ClientMachine
  import opened RedisSpec
  import opened StoreTrace
  import opened Deployment
  import opened Deliveries
  import opened Exclusion

  /** Successes of the handler for one id, and what became of their marks. */
  datatype Tally = Tally(
    successes: nat,
    completed: nat,   // mark_completed accepted by the store
    refused: nat,     // mark_completed found another status or no record
    lost: nat)        // mark_completed never took effect: a store error, or the process died first

  function Plus(a: Tally, b: Tally): Tally {
    Tally(a.successes + b.successes, a.completed + b.completed, a.refused + b.refused, a.lost + b.lost)
  }

  function Nothing(): Tally { Tally(0, 0, 0, 0) }

  predicate Acts(s: State, st: Step, id: Id) {
    (st.Await? || st.Crash?) && st.c in s.clients && s.clients[st.c].id == Some(id)
  }

  /** What one step adds for `id`. */
  function Adds(cfg: Config, s: State, st: Step, id: Id): Tally {
    if !Acts(s, st, id) then Nothing()
    else
      var cl := s.clients[st.c];
      if cl.pc.Handling? && st.Await? && st.fate.HandlerReturns? then Nothing().(successes := 1)
      else if !cl.pc.Succeeded? then Nothing()
      else if st.Crash? || st.fate == Lost(false) then Nothing().(lost := 1)
      else if Accepts(s.store, s.us, id) then Nothing().(completed := 1)
      else Nothing().(refused := 1)
  }

  /** The step is a claim that finds no record: a new lifetime of `id` begins. */
  predicate Creates(cfg: Config, s: State, st: Step, id: Id) {
    && st.Await? && st.c in s.clients
    && Effect(cfg, s.clients[st.c], st.fate) == Some((id, OpClaim))
    && GetStatus(s.store, s.us, id).None?
  }

  function Total(cfg: Config, s0: State, r: Run, id: Id): Tally {
    if r.Begins? then Nothing()
    else Plus(Total(cfg, s0, r.prefix, id), Adds(cfg, Before(cfg, s0, r), r.step, id))
  }

  function ThisLifetime(cfg: Config, s0: State, r: Run, id: Id): Tally {
    if r.Begins? || Creates(cfg, Before(cfg, s0, r), r.step, id) then Nothing()
    else Plus(ThisLifetime(cfg, s0, r.prefix, id), Adds(cfg, Before(cfg, s0, r), r.step, id))
  }

  /** Where a client stands with an id. */
  datatype Stage =
    | BeforeMark   // its handler has returned, and its mark is still to come
    | AtWork       // it has won its claim, and has neither a success nor an end
    | AtHandler    // it is about to call the handler, or in it

  predicate Stands(cl: Client, stage: Stage, id: Id) {
    cl.id == Some(id) &&
    match stage
    case BeforeMark => cl.pc.Succeeded?
    case AtWork => EmptyHanded(cl.pc)
    case AtHandler => cl.pc.Handling?
  }

  ghost function Those(s: State, stage: Stage, id: Id): set<Cid> {
    set c | c in s.clients && Stands(s.clients[c], stage, id)
  }

  /** Changing one client changes the count by that client alone. */
  lemma {:induction false} ThoseReplaced(s: State, s': State, c: Cid, stage: Stage, id: Id)
    requires c in s.clients && c in s'.clients && s'.clients == s.clients[c := s'.clients[c]]
    ensures |Those(s', stage, id)| ==
            |Those(s, stage, id)| - One(Stands(s.clients[c], stage, id)) + One(Stands(s'.clients[c], stage, id))
  {
    var before, after := Those(s, stage, id), Those(s', stage, id);
    assert forall d :: d in s.clients && d != c ==> s'.clients[d] == s.clients[d];
    assert before - {c} == after - {c};
    OneChanged(before, after, c);
  }

  lemma {:induction false} OneChanged(before: set<Cid>, after: set<Cid>, c: Cid)
    requires before - {c} == after - {c}
    ensures |after| == |before| - One(c in before) + One(c in after)
  {
    assert before == if c in before then (before - {c}) + {c} else before - {c};
    assert after == if c in after then (after - {c}) + {c} else after - {c};
  }

  predicate Waits(cl: Client, id: Id) { Stands(cl, BeforeMark, id) }

  /** The clients whose handler has returned and whose mark is still to come. */
  ghost function Unmarked(s: State, id: Id): set<Cid> { Those(s, BeforeMark, id) }

  /** A client waits with its mark exactly from the return of its handler on. */
  lemma {:induction false} WaitsStep(cfg: Config, s: State, c: Cid, fate: Fate, id: Id)
    requires Enabled(cfg, s, Await(c, fate))
    ensures var cl := s.clients[c];
            Waits(Advanced(cfg, s, cl, fate), id) <==>
            cl.id == Some(id) && cl.pc.Handling? && fate.HandlerReturns?
  {
  }

  lemma {:induction false} UnmarkedStep(cfg: Config, s: State, st: Step, id: Id)
    requires Enabled(cfg, s, st)
    ensures var add, n := Adds(cfg, s, st, id), |Unmarked(s, id)|;
            |Unmarked(Next(cfg, s, st), id)| == n + add.successes - add.completed - add.refused - add.lost
  {
    var s' := Next(cfg, s, st);
    if st.Tick? || st.Delete? {
      assert Unmarked(s', id) == Unmarked(s, id);
    } else {
      ThoseReplaced(s, s', st.c, BeforeMark, id);
      if st.Await? {
        WaitsStep(cfg, s, st.c, st.fate, id);
      }
    }
  }

  /**
   With no timing assumption at all and on either store, every handler success is an accepted completion,
   a mark still to come, a mark lost, or a mark the store refused.
   */
  lemma {:induction false} SuccessesConserved(cfg: Config, s0: State, r: Run, id: Id)
    requires Initial(s0) && Legal(cfg, s0, r)
    ensures var t := Total(cfg, s0, r, id);
            t.successes == t.completed + t.refused + t.lost + |Unmarked(After(cfg, s0, r), id)|
  {
    if r.Begins? {
      assert Unmarked(s0, id) == {};
    } else {
      SuccessesConserved(cfg, s0, r.prefix, id);
      UnmarkedStep(cfg, Before(cfg, s0, r), r.step, id);
    }
  }

  /** The status of the record of `id`, readable or not. */
  function StatusOf(b: Backend, id: Id): Option<Status> {
    var rep := Reported(b, id);
    if rep.Some? then Some(rep.value.status) else None
  }

  /** An accepted completion turns a PROCESSING record COMPLETED, and nothing else makes a record COMPLETED. */
  lemma {:induction false} CompletedCountStep(cfg: Config, s: State, st: Step, id: Id)
    requires Enabled(cfg, s, st)
    ensures var v, v' := StatusOf(s.store, id), StatusOf(StoreNext(cfg, s, st), id);
            && Adds(cfg, s, st, id).completed <= 1
            && (Adds(cfg, s, st, id).completed == 1 ==> v == Some(PROCESSING) && v' == Some(COMPLETED))
            && (v' == Some(COMPLETED) ==> v == Some(COMPLETED) || Adds(cfg, s, st, id).completed == 1)
            && (v.None? && !Creates(cfg, s, st, id) ==> v'.None?)
  {
  }

  /** A COMPLETED record stays or goes: on Redis always, in memory while marks come from owners. */
  lemma {:induction false} CompletedStays(cfg: Config, s: State, st: Step, id: Id)
    requires Enabled(cfg, s, st) && !Creates(cfg, s, st, id) && (s.store.Redis? || Owned(cfg, s, id))
    requires StatusOf(s.store, id) == Some(COMPLETED)
    ensures StatusOf(StoreNext(cfg, s, st), id) in {None, Some(COMPLETED)}
  {
    assert forall c | c in s.clients && HoldsId(s.clients[c], id) ::
        Owned(cfg, s, id) ==> OwnsRecord(cfg, s.store, s.clients[c]);
  }

  /** With no timing assumption, one record lifetime accepts at most one completion. */
  lemma {:induction false} OneCompletionPerLifetime(cfg: Config, s0: State, r: Run, id: Id)
    requires Initial(s0) && s0.store.Redis? && Legal(cfg, s0, r)
    ensures var t, v := ThisLifetime(cfg, s0, r, id), StatusOf(After(cfg, s0, r).store, id);
            t.completed <= 1 && (t.completed == 1 && v.Some? ==> v == Some(COMPLETED))
  {
    if r.Extend? {
      OneCompletionPerLifetime(cfg, s0, r.prefix, id);
      RunKeepsBackend(cfg, s0, r.prefix);
      LifetimeStep(cfg, s0, r, id);
    }
  }

  lemma {:induction false} LifetimeStep(cfg: Config, s0: State, r: Run, id: Id)
    requires r.Extend? && Enabled(cfg, Before(cfg, s0, r), r.step)
    requires Before(cfg, s0, r).store.Redis? || Owned(cfg, Before(cfg, s0, r), id)
    requires var t, v := ThisLifetime(cfg, s0, r.prefix, id), StatusOf(Before(cfg, s0, r).store, id);
             t.completed <= 1 && (t.completed == 1 && v.Some? ==> v == Some(COMPLETED))
    ensures var t, v := ThisLifetime(cfg, s0, r, id), StatusOf(After(cfg, s0, r).store, id);
            t.completed <= 1 && (t.completed == 1 && v.Some? ==> v == Some(COMPLETED))
  {
    var s := Before(cfg, s0, r);
    CompletedCountStep(cfg, s, r.step, id);
    if StatusOf(s.store, id) == Some(COMPLETED) && !Creates(cfg, s, r.step, id) {
      CompletedStays(cfg, s, r.step, id);
    }
  }

  /** `later` continues `r` by steps none of which deletes `id`. */
  ghost predicate Continues(r: Run, later: Run, id: Id) {
    later == r || (later.Extend? && later.step != Delete(id) && Continues(r, later.prefix, id))
  }

  lemma {:induction false} TimePasses(cfg: Config, s0: State, r: Run, later: Run, id: Id)
    requires Legal(cfg, s0, later) && Continues(r, later, id)
    ensures After(cfg, s0, r).us <= After(cfg, s0, later).us
  {
    if later != r {
      TimePasses(cfg, s0, r, later.prefix, id);
    }
  }

  /** A final record never changes and no claim wins, until its TTL or a delete. */
  lemma {:induction false} FinalStays(cfg: Config, s0: State, r: Run, later: Run, id: Id)
    requires s0.store.Redis? && Legal(cfg, s0, later) && Continues(r, later, id)
    requires var b := After(cfg, s0, r).store; b.Redis? && id in b.db && Final(cfg, b.db[id].rec)
    requires Ms(After(cfg, s0, later).us) <= After(cfg, s0, r).store.db[id].deadlineMs
    ensures var s := After(cfg, s0, later);
            && s.store.Redis? && id in s.store.db && s.store.db[id] == After(cfg, s0, r).store.db[id]
            && !Grants(cfg, s.store, s.us, id)
  {
    if later != r {
      assert Before(cfg, s0, later).us <= After(cfg, s0, later).us;
      FinalStays(cfg, s0, r, later.prefix, id);
    }
  }

  /** So, with no timing assumption, what completed a message stays its result over any continuation. */
  lemma {:induction false} CompletedIsFinal(cfg: Config, s0: State, r: Run, later: Run, id: Id)
    requires s0.store.Redis? && Legal(cfg, s0, later) && Continues(r, later, id)
    requires var b := After(cfg, s0, r).store; b.Redis? && id in b.db && b.db[id].rec.status == COMPLETED
    requires Ms(After(cfg, s0, later).us) <= After(cfg, s0, r).store.db[id].deadlineMs
    ensures var s := After(cfg, s0, later);
            && s.store.Redis? && id in s.store.db && s.store.db[id] == After(cfg, s0, r).store.db[id]
            && !Grants(cfg, s.store, s.us, id)
  {
    FinalStays(cfg, s0, r, later, id);
  }

  // ---------------------------------------------------------------- under the lease contract

  ghost predicate LifetimeBalance(cfg: Config, s: State, t: Tally, id: Id) {
    && t.refused == 0 && t.completed <= 1
    && t.successes == t.completed + t.lost + |Unmarked(s, id)|
    && (Unmarked(s, id) != {} ==> t.completed == 0)
    && (t.completed == 1 && StatusOf(s.store, id).Some? ==> StatusOf(s.store, id) == Some(COMPLETED))
  }

  lemma {:induction false} AtMostOneUnmarked(cfg: Config, s: State, id: Id)
    requires Owned(cfg, s, id)
    ensures |Unmarked(s, id)| <= 1
    ensures Unmarked(s, id) != {} ==> StatusOf(s.store, id) == Some(PROCESSING)
  {
    var u := Unmarked(s, id);
    if u != {} {
      var c :| c in u;
      assert OwnsRecord(cfg, s.store, s.clients[c]);
      assert u == {c};
    }
  }

  /** Under the contract a mark is never refused, and no record is created while a mark is still to come. */
  lemma {:induction false} OwnersAdd(cfg: Config, s: State, st: Step, id: Id)
    requires Owned(cfg, s, id) && Timely(cfg, s, id) && Enabled(cfg, s, st)
    ensures Adds(cfg, s, st, id).refused == 0
    ensures Creates(cfg, s, st, id) ==> Adds(cfg, s, st, id) == Nothing() && Unmarked(s, id) == {}
  {
    if Acts(s, st, id) && HoldsId(s.clients[st.c], id) {
      assert OwnsRecord(cfg, s.store, s.clients[st.c]);
    }
    if Creates(cfg, s, st, id) {
      assert forall d | d in s.clients && HoldsId(s.clients[d], id) :: OwnsRecord(cfg, s.store, s.clients[d]);
      assert Unmarked(s, id) == {};
    }
  }

  lemma {:induction false} BalanceStep(cfg: Config, s0: State, r: Run, id: Id)
    requires r.Extend? && Owned(cfg, Before(cfg, s0, r), id) && Owned(cfg, After(cfg, s0, r), id)
    requires Timely(cfg, Before(cfg, s0, r), id) && Enabled(cfg, Before(cfg, s0, r), r.step)
    requires LifetimeBalance(cfg, Before(cfg, s0, r), ThisLifetime(cfg, s0, r.prefix, id), id)
    ensures LifetimeBalance(cfg, After(cfg, s0, r), ThisLifetime(cfg, s0, r, id), id)
  {
    var s, st := Before(cfg, s0, r), r.step;
    UnmarkedStep(cfg, s, st, id);
    OwnersAdd(cfg, s, st, id);
    LifetimeStep(cfg, s0, r, id);
    AtMostOneUnmarked(cfg, s, id);
    AtMostOneUnmarked(cfg, After(cfg, s0, r), id);
  }

  lemma {:induction false} TimelyBalance(cfg: Config, s0: State, r: Run, id: Id)
    requires Initial(s0) && Legal(cfg, s0, r) && TimelyRun(cfg, s0, r, id)
    ensures LifetimeBalance(cfg, After(cfg, s0, r), ThisLifetime(cfg, s0, r, id), id)
  {
    SingleOwner(cfg, s0, r, id);
    if r.Begins? {
      assert Unmarked(s0, id) == {};
    } else {
      TimelyBalance(cfg, s0, r.prefix, id);
      SingleOwner(cfg, s0, r.prefix, id);
      BalanceStep(cfg, s0, r, id);
    }
  }

  /**
   Under the lease contract for an id, on either store, no mark of it is refused, and its handler succeeds
   at most once per record lifetime more than the number of its marks that a crash or a store error swallowed.
   */
  lemma {:induction false} OneSuccessUnlessMarksAreLost(cfg: Config, s0: State, r: Run, id: Id)
    requires Initial(s0) && Legal(cfg, s0, r) && TimelyRun(cfg, s0, r, id)
    ensures var t := ThisLifetime(cfg, s0, r, id);
            t.refused == 0 && t.successes <= 1 + t.lost
  {
    TimelyBalance(cfg, s0, r, id);
    SingleOwner(cfg, s0, r, id);
    AtMostOneUnmarked(cfg, After(cfg, s0, r), id);
  }
}
