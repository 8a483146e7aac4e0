/**
 Any number of consumers, decorated calls and guards over one store. Every await is one step, so
 clients interleave between any two of them; processes crash, calls fail before or after taking
 effect, the clock moves and operators delete keys. All choice is in the steps: a run is a list of
 steps, and the state it reaches is a function of it.
 */
module Deployment {
  import opened Types
  import opened ClientMachine
  import opened RedisSpec
  import opened MemorySpec
  import opened StoreTrace

  /** The two implementations of the store interface. */
  datatype Backend = Redis(db: Db) | Memory(mem: Mem)

  function Exec(cfg: Config, b: Backend, us: nat, id: Id, op: Op): Backend {
    match b
    case Redis(db) => Redis(RedisExec(cfg, db, us, id, op))
    case Memory(mem) => Memory(MemExec(cfg, mem, us, id, op))
  }

  predicate Grants(cfg: Config, b: Backend, us: nat, id: Id) {
    match b
    case Redis(db) => Wins(cfg, db, id, Ms(us))
    case Memory(mem) => MemWins(cfg, mem, id, us)
  }

  /** The stored record of `id` without its lease, readable or not. */
  datatype Report = Report(status: Status, attempts: int, result: Option<Value>, error: Option<string>)

  function Reported(b: Backend, id: Id): Option<Report> {
    match b
    case Redis(db) =>
      if id !in db then None
      else var rec := db[id].rec; Some(Report(rec.status, rec.attempts, rec.result, rec.error))
    case Memory(mem) =>
      if id !in mem then None else var m := mem[id]; Some(Report(m.status, m.attempts, m.result, m.error))
  }

  /** The key has not passed its TTL; the in-memory store has none. */
  predicate InTtl(b: Backend, us: nat, id: Id) {
    b.Redis? && id in b.db ==> Ms(us) <= b.db[id].deadlineMs
  }

  /** A readable record refuses claims: COMPLETED, FAILED and not to be retried, or under a live lease. */
  predicate Blocked(cfg: Config, b: Backend, us: nat, id: Id) {
    match b
    case Redis(db) => id in db && Ms(us) <= db[id].deadlineMs && Blocks(cfg, db[id].rec, Ms(us))
    case Memory(mem) => id in mem && MemBlocks(cfg, mem[id], us)
  }

  ghost predicate WellKept(b: Backend) {
    match b
    case Redis(db) => AllWellFormed(db)
    case Memory(mem) => MemAllWellFormed(mem)
  }

  lemma RefusedExactly(cfg: Config, b: Backend, us: nat, id: Id)
    requires WellKept(b)
    ensures Grants(cfg, b, us, id) <==> !Blocked(cfg, b, us, id)
  {
    match b
    case Redis(db) => RefusalReasons(cfg, db, id, Ms(us));
    case Memory(mem) => MemRefusalReasons(cfg, mem, id, us);
  }

  function GetStatus(b: Backend, us: nat, id: Id): Option<Seen> {
    match b
    case Redis(db) =>
      var e := Get(db, id, Ms(us));
      if e.Some? then Some(Seen(e.value.rec.status, e.value.rec.result)) else None
    case Memory(mem) =>
      if id in mem then Some(Seen(mem[id].status, mem[id].result)) else None
  }

  /** A consumer owns a log of record ids (its assigned partition); the other kinds have none. */
  datatype Client = Client(
    kind: Kind,
    log: seq<Option<Id>>,
    position: nat,       // records delivered
    committed: nat,      // committed offset, from which a restart reads on
    id: Option<Id>,      // of the current delivery or call
    pc: Pc,
    claimedAt: nat)      // clock of its last won claim

  type Cid = nat

  datatype State = State(us: nat, store: Backend, clients: map<Cid, Client>)

  /** How an awaited call goes. `Lost` calls raise, with or without having taken effect. */
  datatype Fate = Ok | Lost(applied: bool) | HandlerReturns(value: Option<Value>) | HandlerRaises(exc: string)

  datatype Step =
    | Tick(us: nat)
    | Delete(id: Id)
    | Begin(c: Cid, of: Option<Id>)   // a record is polled, or a call is made
    | Await(c: Cid, fate: Fate)
    | Crash(c: Cid)                   // the process dies or is cancelled, and restarts

  predicate Resting(pc: Pc) { pc.Idle? || (pc.Done? && !pc.verdict.Escaped?) }

  predicate FateFits(call: Call, fate: Fate) {
    match call
    case CallHandle => fate.HandlerReturns? || fate.HandlerRaises?
    case CallSleep(_) => fate.Ok?
    case _ => fate.Ok? || fate.Lost?
  }

  function NextOf(cfg: Config, cl: Client): Option<Call> { NextCall(cfg, cl.pc) }

  predicate Enabled(cfg: Config, s: State, st: Step) {
    match st
    case Tick(us) => s.us <= us
    case Delete(_) => true
    case Begin(c, id) =>
      && c in s.clients && Resting(s.clients[c].pc)
      && var cl := s.clients[c];
      if cl.kind.Consumer? then cl.position < |cl.log| && id == cl.log[cl.position] else id.Some?
    case Await(c, fate) =>
      && c in s.clients
      && NextOf(cfg, s.clients[c]).Some?
      && FateFits(NextOf(cfg, s.clients[c]).value, fate)
    case Crash(c) => c in s.clients
  }

  /** The store operation behind a call, if it writes. */
  function OpOf(call: Call): Option<Op> {
    match call
    case CallClaim => Some(OpClaim)
    case CallMarkFailed(e, n) => Some(OpFail(e, n))
    case CallMarkCompleted(v) => Some(OpComplete(v))
    case _ => None
  }

  /** The operation a client's await has on the store: the id and what is done to it. */
  function Effect(cfg: Config, cl: Client, fate: Fate): Option<(Id, Op)> {
    var call := NextOf(cfg, cl);
    if call.None? || cl.id.None? || OpOf(call.value).None? || fate == Lost(false) then None
    else Some((cl.id.value, OpOf(call.value).value))
  }

  function AnswerOf(cfg: Config, b: Backend, us: nat, cl: Client, fate: Fate): Answer {
    match fate
    case HandlerReturns(v) => Returned(v)
    case HandlerRaises(e) => Exc(e)
    case Lost(_) => Exc("")
    case Ok =>
      var call := NextOf(cfg, cl);
      if call == Some(CallClaim) && cl.id.Some? then Granted(Grants(cfg, b, us, cl.id.value))
      else if call == Some(CallGetStatus) && cl.id.Some? then Status(GetStatus(b, us, cl.id.value))
      else Fine
  }

  function Advanced(cfg: Config, s: State, cl: Client, fate: Fate): Client {
    var a := AnswerOf(cfg, s.store, s.us, cl, fate);
    cl.(pc := Advance(cl.kind, cfg, cl.id.Some?, cl.pc, a),
        claimedAt := if a == Granted(true) then s.us else cl.claimedAt,
        committed := if cl.pc.Committing? && fate in {Ok, Lost(true)} then cl.position else cl.committed)
  }

  function Begun(cfg: Config, cl: Client, id: Option<Id>): Client {
    cl.(id := id, pc := ClientMachine.Entry(cl.kind, cfg, id.Some?),
        position := if cl.kind.Consumer? then cl.position + 1 else cl.position)
  }

  /** The store after an await of the client. */
  function Written(cfg: Config, s: State, cl: Client, fate: Fate): Backend {
    var e := Effect(cfg, cl, fate);
    if e.Some? then Exec(cfg, s.store, s.us, e.value.0, e.value.1) else s.store
  }

  function StoreNext(cfg: Config, s: State, st: Step): Backend {
    match st
    case Delete(id) => Exec(cfg, s.store, s.us, id, OpDelete)
    case Await(c, fate) => if c in s.clients then Written(cfg, s, s.clients[c], fate) else s.store
    case _ => s.store
  }

  function ClientsNext(cfg: Config, s: State, st: Step): map<Cid, Client> {
    match st
    case Begin(c, id) => if c in s.clients then s.clients[c := Begun(cfg, s.clients[c], id)] else s.clients
    case Await(c, fate) => if c in s.clients then s.clients[c := Advanced(cfg, s, s.clients[c], fate)] else s.clients
    case Crash(c) =>
      if c in s.clients then s.clients[c := s.clients[c].(pc := Idle, position := s.clients[c].committed)]
      else s.clients
    case _ => s.clients
  }

  function Next(cfg: Config, s: State, st: Step): State {
    State(if st.Tick? then st.us else s.us, StoreNext(cfg, s, st), ClientsNext(cfg, s, st))
  }

  // ---------------------------------------------------------------- runs

  datatype Run = Begins | Extend(prefix: Run, step: Step)

  function After(cfg: Config, s0: State, r: Run): State {
    if r.Begins? then s0 else Next(cfg, After(cfg, s0, r.prefix), r.step)
  }

  /** The state before the last step. */
  function Before(cfg: Config, s0: State, r: Run): State
    requires r.Extend?
  {
    After(cfg, s0, r.prefix)
  }

  ghost predicate Legal(cfg: Config, s0: State, r: Run) {
    r.Extend? ==> Legal(cfg, s0, r.prefix) && Enabled(cfg, Before(cfg, s0, r), r.step)
  }

  /** An empty store and clients that have done nothing yet. */
  ghost predicate Initial(s: State) {
    && s.store in {Redis(map[]), Memory(map[])}
    && forall c :: c in s.clients ==>
      s.clients[c].pc == Idle && s.clients[c].position == 0 && s.clients[c].committed == 0 && s.clients[c].id == None
  }

  /** Between a won claim and its mark. */
  predicate Holds(cl: Client) {
    cl.id.Some? && (cl.pc.Handling? || cl.pc.Raised? || cl.pc.Succeeded?)
  }

  predicate HoldsId(cl: Client, id: Id) { Holds(cl) && cl.id == Some(id) }

  /** The store operations of a run, as a trace of the store alone. */
  function OpsOf(cfg: Config, s0: State, r: Run): Trace {
    if r.Begins? then Start
    else
      var tr, s := OpsOf(cfg, s0, r.prefix), Before(cfg, s0, r);
      match r.step
      case Delete(id) => Then(tr, s.us, id, OpDelete)
      case Await(c, fate) =>
        var e := if c in s.clients then Effect(cfg, s.clients[c], fate) else None;
        if e.Some? then Then(tr, s.us, e.value.0, e.value.1) else tr
      case _ => tr
  }

  /** A run leaves in either store what its operations alone leave there, so every fact of traces is one of runs. */
  lemma {:induction false} RunsAreTraces(cfg: Config, s0: State, r: Run)
    requires Initial(s0) && Legal(cfg, s0, r)
    ensures var s, tr := After(cfg, s0, r), OpsOf(cfg, s0, r);
            && Ordered(tr) && LastUs(tr) <= s.us
            && s.store == if s0.store.Redis? then Redis(DbAfter(cfg, tr)) else Memory(MemAfter(cfg, tr))
  {
    if r.Extend? {
      RunsAreTraces(cfg, s0, r.prefix);
    }
  }

  lemma {:induction false} RunKeepsBackend(cfg: Config, s0: State, r: Run)
    ensures After(cfg, s0, r).store.Redis? <==> s0.store.Redis?
  {
    if r.Extend? {
      RunKeepsBackend(cfg, s0, r.prefix);
    }
  }

  lemma StoreStaysWellKept(cfg: Config, s0: State, r: Run)
    requires Initial(s0) && Legal(cfg, s0, r)
    ensures WellKept(After(cfg, s0, r).store)
  {
    RunsAreTraces(cfg, s0, r);
    ReachableWellFormed(cfg, OpsOf(cfg, s0, r));
    MemReachableWellFormed(cfg, OpsOf(cfg, s0, r));
  }
}
