/**
 The same run over both stores: under the lease contract the in-memory store, whose mark_failed has no
 guard, does what Redis does, but for the rounding gap, the empty error text and the TTL.
 */
module Transfer {
  import opened Types
  import opened ClientMachine
  import opened RedisSpec
  import opened MemorySpec
  import opened StoreTrace
  import opened Simulation
  import opened Deployment
  import opened Exclusion

  /** The same deployment over the other store. */
  function OverMemory(s0: State): State { s0.(store := Memory(map[])) }

  /**
   What the step needs beside the lease contract: its key is within its TTL, a claim is not made in
   the rounding gap, and a reported error is not the empty string.
   */
  ghost predicate Comparable(cfg: Config, s: State, mem: Mem, st: Step) {
    st.Await? && st.c in s.clients && s.clients[st.c].id.Some? && s.store.Redis? ==>
      var cl := s.clients[st.c];
      && WithinTtl(s.store.db, s.us, cl.id.value)
      && (NextOf(cfg, cl) == Some(CallClaim) ==> !RoundingGap(mem, s.us, cl.id.value))
      && (cl.pc.Raised? ==> cl.pc.error != "")
  }

  ghost predicate ComparableRun(cfg: Config, s0: State, r: Run) {
    r.Extend? ==>
      && ComparableRun(cfg, s0, r.prefix)
      && After(cfg, OverMemory(s0), r.prefix).store.Memory?
      && Comparable(cfg, Before(cfg, s0, r), After(cfg, OverMemory(s0), r.prefix).store.mem, r.step)
  }

  /** Same clients at the same time, indistinguishable stores. */
  ghost predicate Twins(s: State, m: State) {
    && s.us == m.us && s.clients == m.clients
    && s.store.Redis? && m.store.Memory? && SameStores(s.store.db, m.store.mem)
  }

  /** The two stores agree on each operation a client issues: its mark_failed finds its own record. */
  lemma {:induction false} ClientOpsAgree(cfg: Config, s: State, m: State, st: Step, id: Id, op: Op)
    requires Twins(s, m) && Owned(cfg, s, id) && Enabled(cfg, s, st) && Comparable(cfg, s, m.store.mem, st)
    requires st.Await? && Effect(cfg, s.clients[st.c], st.fate) == Some((id, op))
    ensures AgreeableOp(m.store.mem, s.us, id, op) && WithinTtl(s.store.db, s.us, id)
    ensures op.OpFail? ==> id in m.store.mem && m.store.mem[id].status == PROCESSING
  {
    var cl := s.clients[st.c];
    if op.OpFail? {
      assert HoldsId(cl, id);
      assert OwnsRecord(cfg, s.store, cl);
      assert id in s.store.db.Keys;
      assert SameRecord(s.store.db[id].rec, m.store.mem[id]);
    }
  }

  lemma {:induction false} SameStatusSeen(s: State, m: State, id: Id)
    requires Twins(s, m) && WithinTtl(s.store.db, s.us, id)
    ensures GetStatus(s.store, s.us, id) == GetStatus(m.store, m.us, id)
  {
    assert id in s.store.db.Keys <==> id in m.store.mem.Keys;
    if id in s.store.db {
      assert SameRecord(s.store.db[id].rec, m.store.mem[id]);
    }
  }

  lemma {:induction false} TwinsStep(cfg: Config, s: State, m: State, st: Step)
    requires Twins(s, m) && (forall id :: Owned(cfg, s, id))
    requires Enabled(cfg, s, st) && Comparable(cfg, s, m.store.mem, st)
    ensures Twins(Next(cfg, s, st), Next(cfg, m, st)) && Enabled(cfg, m, st)
  {
    if st.Delete? {
      OtherKeysAgree(cfg, s.store.db, m.store.mem, s.us, st.id, OpDelete);
    }
    if st.Await? {
      var cl := s.clients[st.c];
      if cl.id.Some? {
        SameStatusSeen(s, m, cl.id.value);
        StepAgreement(cfg, s.store.db, m.store.mem, s.us, cl.id.value, OpClaim);
      }
      var e := Effect(cfg, cl, st.fate);
      if e.Some? {
        ClientOpsAgree(cfg, s, m, st, e.value.0, e.value.1);
        StepAgreement(cfg, s.store.db, m.store.mem, s.us, e.value.0, e.value.1);
      }
      assert Advanced(cfg, s, cl, st.fate) == Advanced(cfg, m, cl, st.fate);
    }
  }

  ghost predicate TimelyForAll(cfg: Config, s0: State, r: Run) {
    forall id :: TimelyRun(cfg, s0, r, id)
  }

  /**
   A run over Redis that is timely for every id is step for step a run over the in-memory store, if each key a
   client uses is within its TTL, no claim falls into the rounding gap and no reported error is empty.
   */
  lemma {:induction false} RunsCoincide(cfg: Config, s0: State, r: Run)
    requires Initial(s0) && s0.store.Redis? && Legal(cfg, s0, r)
    requires TimelyForAll(cfg, s0, r) && ComparableRun(cfg, s0, r)
    ensures Legal(cfg, OverMemory(s0), r)
    ensures Twins(After(cfg, s0, r), After(cfg, OverMemory(s0), r))
  {
    if r.Extend? {
      assert forall id :: TimelyRun(cfg, s0, r, id) ==> TimelyRun(cfg, s0, r.prefix, id);
      RunsCoincide(cfg, s0, r.prefix);
      forall id ensures Owned(cfg, Before(cfg, s0, r), id) {
        SingleOwner(cfg, s0, r.prefix, id);
      }
      TwinsStep(cfg, Before(cfg, s0, r), Before(cfg, OverMemory(s0), r), r.step);
    }
  }

  /** On such a run ownership carries over: the holders are the same, and each owns its record in both stores. */
  lemma {:induction false} OwnershipTransfers(cfg: Config, s0: State, r: Run, c: Cid, id: Id)
    requires Initial(s0) && s0.store.Redis? && Legal(cfg, s0, r)
    requires TimelyForAll(cfg, s0, r) && ComparableRun(cfg, s0, r)
    requires c in After(cfg, s0, r).clients && HoldsId(After(cfg, s0, r).clients[c], id)
    ensures var m := After(cfg, OverMemory(s0), r);
            && m.store.Memory? && id in m.store.mem && m.store.mem[id].status == PROCESSING
            && c in m.clients && HoldsId(m.clients[c], id) && SoleHolder(m, id)
  {
    RunsCoincide(cfg, s0, r);
    SingleOwner(cfg, s0, r, id);
    var s, m := After(cfg, s0, r), After(cfg, OverMemory(s0), r);
    assert OwnsRecord(cfg, s.store, s.clients[c]);
    assert id in s.store.db.Keys;
    assert SameRecord(s.store.db[id].rec, m.store.mem[id]);
  }
}
