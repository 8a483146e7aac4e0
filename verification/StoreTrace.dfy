/** Sequences of store operations on any ids, and the state either store reaches by them. */
module StoreTrace {
  import opened Types
  import opened RedisSpec
  import opened MemorySpec

  datatype Op =
    | OpClaim
    | OpComplete(result: Option<Value>)
    | OpFail(error: string, attempts: int)
    | OpDelete

  function RedisExec(cfg: Config, db: Db, us: nat, id: Id, op: Op): Db {
    match op
    case OpClaim => Claim(cfg, db, id, Ms(us))
    case OpComplete(result) => Complete(db, id, Ms(us), result)
    case OpFail(error, attempts) => Fail(db, id, Ms(us), error, attempts)
    case OpDelete => db - {id}
  }

  function MemExec(cfg: Config, mem: Mem, us: nat, id: Id, op: Op): Mem {
    match op
    case OpClaim => MemClaim(cfg, mem, id, us)
    case OpComplete(result) => MemComplete(mem, id, result)
    case OpFail(error, attempts) => MemFail(mem, id, error, attempts)
    case OpDelete => mem - {id}
  }

  /** The operations issued since both stores were empty, with the clock reading of each. */
  datatype Trace = Start | Then(prev: Trace, us: nat, id: Id, op: Op)

  function LastUs(tr: Trace): nat {
    if tr.Start? then 0 else tr.us
  }

  ghost predicate Ordered(tr: Trace) {
    tr.Then? ==> Ordered(tr.prev) && LastUs(tr.prev) <= tr.us
  }

  function DbAfter(cfg: Config, tr: Trace): Db {
    if tr.Start? then map[] else RedisExec(cfg, DbAfter(cfg, tr.prev), tr.us, tr.id, tr.op)
  }

  function MemAfter(cfg: Config, tr: Trace): Mem {
    if tr.Start? then map[] else MemExec(cfg, MemAfter(cfg, tr.prev), tr.us, tr.id, tr.op)
  }

  lemma ExecKeepsWellFormed(cfg: Config, db: Db, us: nat, id: Id, op: Op)
    requires AllWellFormed(db)
    ensures AllWellFormed(RedisExec(cfg, db, us, id, op))
  {
    var db' := RedisExec(cfg, db, us, id, op);
    forall i | i in db' ensures WellFormed(db'[i].rec) {
      if i in db {
        assert WellFormed(db[i].rec);
      }
    }
  }

  /** Every reachable Redis record keeps lease, error and result to their own status. */
  lemma {:induction false} ReachableWellFormed(cfg: Config, tr: Trace)
    ensures AllWellFormed(DbAfter(cfg, tr))
  {
    if tr.Then? {
      ReachableWellFormed(cfg, tr.prev);
      ExecKeepsWellFormed(cfg, DbAfter(cfg, tr.prev), tr.us, tr.id, tr.op);
    }
  }

  lemma MemExecKeepsWellFormed(cfg: Config, mem: Mem, us: nat, id: Id, op: Op)
    requires MemAllWellFormed(mem)
    ensures MemAllWellFormed(MemExec(cfg, mem, us, id, op))
  {
    var mem' := MemExec(cfg, mem, us, id, op);
    forall i | i in mem' ensures MemWellFormed(mem'[i]) {
      if i in mem {
        assert MemWellFormed(mem[i]);
      }
    }
  }

  lemma {:induction false} MemReachableWellFormed(cfg: Config, tr: Trace)
    ensures MemAllWellFormed(MemAfter(cfg, tr))
  {
    if tr.Then? {
      MemReachableWellFormed(cfg, tr.prev);
      MemExecKeepsWellFormed(cfg, MemAfter(cfg, tr.prev), tr.us, tr.id, tr.op);
    }
  }
}
