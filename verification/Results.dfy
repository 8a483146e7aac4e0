/** What the callers of guards and decorated functions get to see, on either store. */
module Results {
  import opened Types
  import opened ClientMachine
  import opened RedisSpec
  import opened MemorySpec
  import opened StoreTrace
  import opened Deployment
  import opened Exclusion

  predicate Returns(s: State, st: Step, id: Id) {
    st.Await? && st.c in s.clients && s.clients[st.c].id == Some(id) && st.fate.HandlerReturns?
  }

  predicate Marks(s: State, st: Step, id: Id) {
    st.Await? && st.c in s.clients && s.clients[st.c].id == Some(id) && s.clients[st.c].pc.Succeeded?
  }

  /** The values the handler returned for `id`, in order. */
  function SuccessValues(cfg: Config, s0: State, r: Run, id: Id): seq<Option<Value>> {
    if r.Begins? then []
    else
      var vs, s, st := SuccessValues(cfg, s0, r.prefix, id), Before(cfg, s0, r), r.step;
      if Returns(s, st, id) then vs + [st.fate.value] else vs
  }

  /** The key of `id` is not deleted, and no mark of a success of it is swallowed. */
  ghost predicate CleanStep(s: State, st: Step, id: Id) {
    && st != Delete(id)
    && ((st.Crash? || (st.Await? && st.fate == Lost(false))) && st.c in s.clients && s.clients[st.c].id == Some(id)
      ==> !s.clients[st.c].pc.Succeeded?)
  }

  /** A run that is clean for `id`: what happens to other ids does not matter. */
  ghost predicate CleanRun(cfg: Config, s0: State, r: Run, id: Id) {
    && InTtl(After(cfg, s0, r).store, After(cfg, s0, r).us, id)
    && (r.Extend? ==> CleanRun(cfg, s0, r.prefix, id) && CleanStep(Before(cfg, s0, r), r.step, id))
  }

  /** The client shows `v` to its caller: cached, or as the outcome of its own execution. */
  predicate Shows(pc: Pc, v: Option<Value>) {
    (pc.Done? || pc.Committing?) && (pc.verdict == Cached(v) || pc.verdict == Processed(v))
  }

  predicate Knows(pc: Pc, v: Option<Value>) { Shows(pc, v) || pc == Succeeded(v) }

  /** What a reader of the store sees of `id`. */
  function Visible(s: State, id: Id): Option<Seen> { GetStatus(s.store, s.us, id) }

  /** A client comes to know a value by its own handler, by reading a COMPLETED record, or it knew it before. */
  lemma {:induction false} KnowsBefore(cfg: Config, s: State, st: Step, c: Cid, v: Option<Value>, id: Id)
    requires Enabled(cfg, s, st) && c in s.clients
    requires var cl := Next(cfg, s, st).clients[c]; cl.id == Some(id) && Knows(cl.pc, v)
    ensures
      || (s.clients[c].id == Some(id) && Knows(s.clients[c].pc, v))
      || (st.Await? && st.c == c && s.clients[c].id == Some(id) && st.fate == HandlerReturns(v))
      || Visible(s, id) == Some(Seen(COMPLETED, v))
  {
  }

  ghost predicate OneResult(s: State, vs: seq<Option<Value>>, id: Id) {
    var seen := Visible(s, id);
    && |vs| <= 1
    && (|vs| == 1 ==> seen.Some? && seen.value.status != FAILED)
    && (seen.Some? && seen.value.status == COMPLETED ==> vs == [seen.value.result])
    && (|vs| == 1 && seen.value.status == PROCESSING ==>
      exists c :: c in s.clients && s.clients[c].id == Some(id) && s.clients[c].pc == Succeeded(vs[0]))
    && (forall c, v | c in s.clients && s.clients[c].id == Some(id) :: Knows(s.clients[c].pc, v) ==> vs == [v])
  }

  ghost predicate Steady(cfg: Config, s: State, st: Step, vs: seq<Option<Value>>, id: Id) {
    && OneResult(s, vs, id) && Owned(cfg, s, id) && Timely(cfg, s, id) && WellKept(s.store)
    && InTtl(s.store, s.us, id) && InTtl(Next(cfg, s, st).store, Next(cfg, s, st).us, id)
    && Enabled(cfg, s, st) && CleanStep(s, st, id)
  }

  /** While the one success is in, the record is closed to claims and no other client of it is before its mark. */
  lemma {:induction false} ClosedAfterSuccess(cfg: Config, s: State, st: Step, vs: seq<Option<Value>>, id: Id)
    requires Steady(cfg, s, st, vs, id) && |vs| == 1
    ensures !Grants(cfg, s.store, s.us, id)
    ensures forall c :: c in s.clients && HoldsId(s.clients[c], id) ==> s.clients[c].pc == Succeeded(vs[0])
  {
    if Visible(s, id).value.status == PROCESSING {
      var c :| c in s.clients && s.clients[c].id == Some(id) && s.clients[c].pc == Succeeded(vs[0]);
      assert HoldsId(s.clients[c], id);
      assert OwnsRecord(cfg, s.store, s.clients[c]);
    }
    forall c | c in s.clients && HoldsId(s.clients[c], id) ensures s.clients[c].pc == Succeeded(vs[0]) {
      assert OwnsRecord(cfg, s.store, s.clients[c]);
    }
  }

  /** What a reader sees after a step that neither returns nor marks a success of `id`. */
  lemma {:induction false} QuietStep(cfg: Config, s: State, st: Step, vs: seq<Option<Value>>, id: Id)
    requires Steady(cfg, s, st, vs, id) && !Returns(s, st, id) && !Marks(s, st, id)
    ensures var seen, seen' := Visible(s, id), Visible(Next(cfg, s, st), id);
            && (|vs| == 1 ==> seen' == seen)
            && (|vs| == 0 && seen'.Some? ==> seen'.value.status != COMPLETED)
  {
    if |vs| == 1 {
      ClosedAfterSuccess(cfg, s, st, vs, id);
    }
  }

  /** The handler of a holder returns: this is the first success. */
  lemma {:induction false} ReturnStep(cfg: Config, s: State, st: Step, vs: seq<Option<Value>>, id: Id)
    requires Steady(cfg, s, st, vs, id) && Returns(s, st, id)
    ensures OneResult(Next(cfg, s, st), vs + [st.fate.value], id)
  {
    var s' := Next(cfg, s, st);
    assert HoldsId(s.clients[st.c], id);
    assert OwnsRecord(cfg, s.store, s.clients[st.c]);
    if |vs| == 1 {
      ClosedAfterSuccess(cfg, s, st, vs, id);
    }
    assert vs == [];
    assert s'.clients[st.c].pc == Succeeded(st.fate.value);
    forall c, v | c in s'.clients && s'.clients[c].id == Some(id) && Knows(s'.clients[c].pc, v)
      ensures vs + [st.fate.value] == [v]
    {
      KnowsBefore(cfg, s, st, c, v, id);
    }
  }

  /** The mark of an owner leaves its value to be read. */
  lemma {:induction false} MarkIsSeen(cfg: Config, s: State, st: Step, vs: seq<Option<Value>>, id: Id)
    requires Steady(cfg, s, st, vs, id) && Marks(s, st, id)
    ensures vs == [s.clients[st.c].pc.value]
    ensures Visible(Next(cfg, s, st), id) == Some(Seen(COMPLETED, vs[0]))
  {
    assert HoldsId(s.clients[st.c], id);
    assert OwnsRecord(cfg, s.store, s.clients[st.c]);
    assert Knows(s.clients[st.c].pc, s.clients[st.c].pc.value);
    match s.store
    case Redis(db) => assert WellFormed(db[id].rec);
    case Memory(mem) => assert MemWellFormed(mem[id]);
  }

  lemma {:induction false} MarkStep(cfg: Config, s: State, st: Step, vs: seq<Option<Value>>, id: Id)
    requires Steady(cfg, s, st, vs, id) && Marks(s, st, id)
    ensures OneResult(Next(cfg, s, st), vs, id)
  {
    var s' := Next(cfg, s, st);
    MarkIsSeen(cfg, s, st, vs, id);
    forall c, w | c in s'.clients && s'.clients[c].id == Some(id) && Knows(s'.clients[c].pc, w) ensures vs == [w] {
      KnowsBefore(cfg, s, st, c, w, id);
    }
  }

  lemma {:induction false} OtherStep(cfg: Config, s: State, st: Step, vs: seq<Option<Value>>, id: Id)
    requires Steady(cfg, s, st, vs, id) && !Returns(s, st, id) && !Marks(s, st, id)
    ensures OneResult(Next(cfg, s, st), vs, id)
  {
    var s' := Next(cfg, s, st);
    QuietStep(cfg, s, st, vs, id);
    forall c, v | c in s'.clients && s'.clients[c].id == Some(id) && Knows(s'.clients[c].pc, v) ensures vs == [v] {
      KnowsBefore(cfg, s, st, c, v, id);
    }
    if |vs| == 1 && Visible(s, id).value.status == PROCESSING {
      var c :| c in s.clients && s.clients[c].id == Some(id) && s.clients[c].pc == Succeeded(vs[0]);
      assert s'.clients[c] == s.clients[c];
    }
  }

  lemma {:induction false} ReachableOneResult(cfg: Config, s0: State, r: Run, id: Id)
    requires Initial(s0) && Legal(cfg, s0, r) && TimelyRun(cfg, s0, r, id) && CleanRun(cfg, s0, r, id)
    ensures OneResult(After(cfg, s0, r), SuccessValues(cfg, s0, r, id), id)
  {
    if r.Extend? {
      ReachableOneResult(cfg, s0, r.prefix, id);
      SingleOwner(cfg, s0, r.prefix, id);
      StoreStaysWellKept(cfg, s0, r.prefix);
      var s, st, vs := Before(cfg, s0, r), r.step, SuccessValues(cfg, s0, r.prefix, id);
      if Returns(s, st, id) {
        ReturnStep(cfg, s, st, vs, id);
      } else if Marks(s, st, id) {
        MarkStep(cfg, s, st, vs, id);
      } else {
        OtherStep(cfg, s, st, vs, id);
      }
    }
  }

  /**
   For any interleaving of consumers, guards and decorated calls with get_status and claim as separate
   steps, on either store, and whatever becomes of other keys: the handler of an id succeeds at most once,
   and every value any client shows for it, cached or its own, is the value of that one success.
   */
  lemma {:induction false} AllCallersSeeTheOneResult(cfg: Config, s0: State, r: Run, id: Id, c: Cid, v: Option<Value>)
    requires Initial(s0) && Legal(cfg, s0, r) && TimelyRun(cfg, s0, r, id) && CleanRun(cfg, s0, r, id)
    requires var cls := After(cfg, s0, r).clients; c in cls && cls[c].id == Some(id) && Shows(cls[c].pc, v)
    ensures SuccessValues(cfg, s0, r, id) == [v]
  {
    ReachableOneResult(cfg, s0, r, id);
  }

  /**
   A guard or a decorated call that asks for a COMPLETED message is given its result and ends with it; after any other
   answer it goes on to its claim.
   */
  lemma {:induction false} CompletedIsShown(cfg: Config, s: State, c: Cid, id: Id)
    requires c in s.clients && s.clients[c].pc == Checking && s.clients[c].id == Some(id)
    ensures var pc' := Next(cfg, s, Await(c, Ok)).clients[c].pc;
            && (forall v :: Visible(s, id) == Some(Seen(COMPLETED, v)) ==> pc' == Done(Cached(v)))
            && (Visible(s, id).None? || Visible(s, id).value.status != COMPLETED ==> pc' == Claiming)
  {
  }

  /** So on either store, with the key in its TTL, the reader of a COMPLETED record shows the recorded result. */
  lemma {:induction false} RecordedResultIsShown(cfg: Config, s: State, c: Cid, id: Id)
    requires c in s.clients && s.clients[c].pc == Checking && s.clients[c].id == Some(id)
    requires InTtl(s.store, s.us, id) && Reported(s.store, id).Some? && Reported(s.store, id).value.status == COMPLETED
    ensures Next(cfg, s, Await(c, Ok)).clients[c].pc == Done(Cached(Reported(s.store, id).value.result))
  {
    CompletedIsShown(cfg, s, c, id);
  }
}
