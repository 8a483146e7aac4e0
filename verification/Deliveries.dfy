/** The deliveries of one consumer on its own, on either store: what it did for an id and what is recorded of it. */
module Deliveries {
  import opened Types
  import opened ClientMachine
  import opened RedisSpec
  import opened MemorySpec
  import opened StoreTrace
  import opened Deployment

  /** A claim won, and neither a success nor a dropped message to show for it. */
  predicate EmptyHanded(pc: Pc) {
    pc.Handling? || pc.Raised? || pc.Sleeping? || pc.Reclaiming? || pc.Dropping?
  }

  /** Only client `c` acts and no key it meets has expired. It may crash, and its calls may be lost. */
  ghost predicate OnItsOwn(s: State, st: Step, c: Cid) {
    match st
    case Tick(_) => true
    case Delete(_) => false
    case Begin(d, _) => d == c
    case Crash(d) => d == c
    case Await(d, _) =>
      d == c && (c in s.clients && s.clients[c].id.Some? ==> InTtl(s.store, s.us, s.clients[c].id.value))
  }

  /** Status and attempts of the record of `id`. */
  function Standing(b: Backend, id: Id): Option<(Status, int)> {
    var rep := Reported(b, id);
    if rep.Some? then Some((rep.value.status, rep.value.attempts)) else None
  }

  /** What happened to one id: handler calls, handler successes, and deliveries sent to the DLQ or dropped. */
  datatype Deeds = Deeds(calls: nat, successes: nat, drops: nat)

  function Deed(t: Deeds, cl: Client, fate: Fate): Deeds {
    if fate.HandlerReturns? then Deeds(t.calls + 1, t.successes + 1, t.drops)
    else if fate.HandlerRaises? then t.(calls := t.calls + 1)
    else if fate in {Ok, Lost(true)} && cl.pc.Dropping? then t.(drops := t.drops + 1)
    else t
  }

  function DeedsOf(cfg: Config, s0: State, r: Run, id: Id): Deeds {
    if r.Begins? then Deeds(0, 0, 0)
    else
      var t, s, st := DeedsOf(cfg, s0, r.prefix, id), Before(cfg, s0, r), r.step;
      if st.Await? && st.c in s.clients && s.clients[st.c].id == Some(id) then Deed(t, s.clients[st.c], st.fate) else t
  }

  predicate Closed(cfg: Config, v: Option<(Status, int)>) {
    v.Some? && cfg.Spent(v.value.0, v.value.1)
  }

  /** The effect of each operation on a record within its TTL is the same in both stores. */
  lemma {:induction false} StandingStep(cfg: Config, b: Backend, us: nat, id: Id, other: Id, op: Op)
    requires InTtl(b, us, id)
    ensures var v, v' := Standing(b, id), Standing(Exec(cfg, b, us, id, op), id);
            && (other != id ==> Standing(Exec(cfg, b, us, id, op), other) == Standing(b, other))
            && (op.OpClaim? && v.None? ==> Grants(cfg, b, us, id) && v' == Some((PROCESSING, 1)))
            && (op.OpClaim? && v.Some? && v.value.0 == FAILED ==>
              && (Grants(cfg, b, us, id) <==> cfg.retryFailed && v.value.1 < cfg.maxRetries)
              && v' == if Grants(cfg, b, us, id) then Some((PROCESSING, v.value.1 + 1)) else v)
            && (op.OpClaim? && v.Some? && v.value.0 == COMPLETED ==> !Grants(cfg, b, us, id) && v' == v)
            && (op.OpClaim? ==> if Grants(cfg, b, us, id) then v'.Some? && v'.value.0 == PROCESSING else v' == v)
            && (op.OpFail? && v.Some? && v.value.0 == PROCESSING ==> v' == Some((FAILED, op.attempts)))
            && (op.OpComplete? && v.Some? && v.value.0 == PROCESSING ==> v' == Some((COMPLETED, v.value.1)))
  {
  }

  /** The committed part of the log has left a record for every id in it. */
  ghost predicate Recorded(s: State, cl: Client) {
    && cl.committed <= cl.position <= |cl.log|
    && (forall o :: 0 <= o < cl.committed && cl.log[o].Some? ==> Standing(s.store, cl.log[o].value).Some?)
    && (Resting(cl.pc) ==> cl.position == cl.committed)
    && (!cl.pc.Idle? && !cl.pc.Done? ==> cl.position == cl.committed + 1 && cl.log[cl.committed] == cl.id)
  }

  lemma {:induction false} RecordsStay(cfg: Config, s: State, st: Step, c: Cid, id: Id)
    requires OnItsOwn(s, st, c) && Standing(s.store, id).Some?
    ensures Standing(StoreNext(cfg, s, st), id).Some?
  {
  }

  ghost predicate Sane(cl: Client) {
    && !cl.pc.Checking?
    && (cl.pc.Committing? ==> cl.pc.verdict != Escaped)
    && (cl.pc.Claiming? || cl.pc.Skipping? || cl.pc.Reclaiming? ==> cl.id.Some?)
  }

  lemma {:induction false} RecordedStep(cfg: Config, s: State, st: Step, c: Cid)
    requires Enabled(cfg, s, st) && OnItsOwn(s, st, c)
    requires c in s.clients && s.clients[c].kind.Consumer? && Sane(s.clients[c]) && Recorded(s, s.clients[c])
    requires s.clients[c].pc.Committing? && s.clients[c].id.Some? ==> Standing(s.store, s.clients[c].id.value).Some?
    ensures var s' := Next(cfg, s, st);
            && c in s'.clients && s'.clients[c].kind.Consumer? && s'.clients[c].log == s.clients[c].log
            && Recorded(s', s'.clients[c])
  {
    var s', cl := Next(cfg, s, st), s.clients[c];
    var cl' := s'.clients[c];
    forall o | 0 <= o < cl'.committed && cl'.log[o].Some? ensures Standing(s'.store, cl'.log[o].value).Some? {
      RecordsStay(cfg, s, st, c, cl'.log[o].value);
    }
  }

  lemma {:induction false} SaneStep(cfg: Config, s: State, st: Step, c: Cid)
    requires Enabled(cfg, s, st) && OnItsOwn(s, st, c)
    requires c in s.clients && s.clients[c].kind.Consumer? && Sane(s.clients[c])
    ensures var s' := Next(cfg, s, st); c in s'.clients && s'.clients[c].kind.Consumer? && Sane(s'.clients[c])
  {
  }
}
