/** What the two Lua scripts do to the keyspace, as functions. */
module RedisSpec {
  import opened Types

  /** The decoded JSON record. An absent field is `None`. */
  datatype Rec = Rec(
    status: Status,
    attempts: int,
    result: Option<Value>,
    error: Option<string>,
    leaseUntilMs: Option<int>)

  /** A key with its expiry. `KEEPTTL` writes leave the deadline alone. */
  datatype Entry = Entry(rec: Rec, deadlineMs: int)

  type Db = map<Id, Entry>

  /** `GET`: a key past its deadline reads as missing. */
  function Get(db: Db, id: Id, ms: nat): Option<Entry> {
    if id in db && ms <= db[id].deadlineMs then Some(db[id]) else None
  }

  predicate Retryable(cfg: Config, rec: Rec) {
    cfg.Retries(rec.status, rec.attempts)
  }

  predicate Orphaned(rec: Rec, ms: nat) {
    rec.status.PROCESSING? && rec.leaseUntilMs.Some? && rec.leaseUntilMs.value <= ms
  }

  predicate Claimable(cfg: Config, found: Option<Entry>, ms: nat) {
    found.None? || Retryable(cfg, found.value.rec) || Orphaned(found.value.rec, ms)
  }

  /** The record a won claim writes, and the expiry of its key. */
  function ClaimedEntry(cfg: Config, found: Option<Entry>, ms: nat): Entry {
    match found
    case None => Entry(Rec(PROCESSING, 1, None, None, Some(ms + cfg.LeaseMs())), ms + cfg.TtlMs())
    case Some(e) =>
      e.(rec := e.rec.(status := PROCESSING, attempts := e.rec.attempts + 1, error := None,
                       leaseUntilMs := Some(ms + cfg.LeaseMs())))
  }

  predicate Wins(cfg: Config, db: Db, id: Id, ms: nat) {
    Claimable(cfg, Get(db, id, ms), ms)
  }

  function Claim(cfg: Config, db: Db, id: Id, ms: nat): Db {
    if Wins(cfg, db, id, ms) then db[id := ClaimedEntry(cfg, Get(db, id, ms), ms)] else db
  }

  /** The reply of the update script: -1 no key, 0 not PROCESSING, 1 written. */
  function UpdateReply(db: Db, id: Id, ms: nat): int {
    match Get(db, id, ms)
    case None => -1
    case Some(e) => if e.rec.status.PROCESSING? then 1 else 0
  }

  /** An empty argument leaves its field as it was. */
  function UpdatedRec(rec: Rec, status: Status, result: Option<Value>, error: string, attempts: Option<int>): Rec {
    Rec(status,
        if attempts.Some? then attempts.value else rec.attempts,
        if result.Some? then result else rec.result,
        if error != "" then Some(error) else rec.error,
        None)
  }

  function Update(
    db: Db, id: Id, ms: nat, status: Status, result: Option<Value>, error: string, attempts: Option<int>): Db
  {
    if UpdateReply(db, id, ms) == 1
    then db[id := db[id].(rec := UpdatedRec(db[id].rec, status, result, error, attempts))]
    else db
  }

  function Complete(db: Db, id: Id, ms: nat, result: Option<Value>): Db {
    Update(db, id, ms, COMPLETED, result, "", None)
  }

  function Fail(db: Db, id: Id, ms: nat, error: string, attempts: int): Db {
    Update(db, id, ms, FAILED, None, error, Some(attempts))
  }

  /** Only PROCESSING carries a lease, only FAILED an error and only COMPLETED a result. */
  ghost predicate WellFormed(rec: Rec) {
    && (rec.status.PROCESSING? <==> rec.leaseUntilMs.Some?)
    && (rec.error.Some? ==> rec.status.FAILED?)
    && (rec.result.Some? ==> rec.status.COMPLETED?)
  }

  ghost predicate AllWellFormed(db: Db) {
    forall id :: id in db ==> WellFormed(db[id].rec)
  }

  /** A COMPLETED record, or a FAILED one that may not be retried. */
  predicate Final(cfg: Config, rec: Rec) {
    rec.status == COMPLETED || cfg.Spent(rec.status, rec.attempts)
  }

  predicate Blocks(cfg: Config, rec: Rec, ms: nat) {
    Final(cfg, rec) || (rec.status == PROCESSING && rec.leaseUntilMs.Some? && ms < rec.leaseUntilMs.value)
  }

  /** A refused claim met one of the three blocking records. */
  lemma RefusalReasons(cfg: Config, db: Db, id: Id, ms: nat)
    requires AllWellFormed(db)
    ensures !Wins(cfg, db, id, ms) <==> id in db && ms <= db[id].deadlineMs && Blocks(cfg, db[id].rec, ms)
  {
    if id in db {
      assert WellFormed(db[id].rec);
    }
  }
}

/** The Redis store: the keyspace is the only state, each method is one atomic script or command. */
module RedisStore {
  import opened Types
  import opened RedisSpec

  class RedisDeduplicationStore {
    const config: Config
    var db: Db

    constructor (config: Config)
      ensures this.config == config && db == map[]
    {
      this.config := config;
      db := map[];
    }

    /** `us` is the server's TIME, read inside the script. */
    method Claim(id: Id, us: nat) returns (won: bool)
      modifies this
      ensures won <==> Wins(config, old(db), id, Ms(us))
      ensures db == RedisSpec.Claim(config, old(db), id, Ms(us))
    {
      var nowMs := us / 1000;
      var raw := Get(db, id, nowMs);
      if raw.None? {
        var rec := Rec(PROCESSING, 1, None, None, Some(nowMs + config.LeaseMs()));
        db := db[id := Entry(rec, nowMs + config.TtlMs())];
        return true;
      }
      var rec := raw.value.rec;
      var attempts, lease := rec.attempts, rec.leaseUntilMs;
      var retryable := rec.status == FAILED && config.retryFailed && attempts < config.maxRetries;
      var orphaned := rec.status == PROCESSING && lease.Some? && lease.value <= nowMs;
      if !(retryable || orphaned) {
        return false;
      }
      rec := rec.(status := PROCESSING);
      rec := rec.(attempts := attempts + 1);
      rec := rec.(error := None);
      rec := rec.(leaseUntilMs := Some(nowMs + config.LeaseMs()));
      db := db[id := Entry(rec, raw.value.deadlineMs)];
      return true;
    }

    method RunUpdateScript(id: Id, us: nat, status: Status, result: Option<Value>, error: string, attempts: Option<int>)
      returns (ret: int)
      modifies this
      ensures ret == UpdateReply(old(db), id, Ms(us))
      ensures db == Update(old(db), id, Ms(us), status, result, error, attempts)
    {
      var raw := Get(db, id, Ms(us));
      if raw.None? {
        return -1;
      }
      var rec := raw.value.rec;
      if rec.status != PROCESSING {
        return 0;
      }
      rec := rec.(status := status);
      if result.Some? { rec := rec.(result := result); }
      if error != "" { rec := rec.(error := Some(error)); }
      if attempts.Some? { rec := rec.(attempts := attempts.value); }
      rec := rec.(leaseUntilMs := None);
      db := db[id := Entry(rec, raw.value.deadlineMs)];
      return 1;
    }

    /** A refusal or a missing key is only logged. */
    method MarkCompleted(id: Id, us: nat, result: Option<Value>)
      modifies this
      ensures db == Complete(old(db), id, Ms(us), result)
    {
      var _ := RunUpdateScript(id, us, COMPLETED, result, "", None);
    }

    method MarkFailed(id: Id, us: nat, error: string, attempts: int)
      modifies this
      ensures db == Fail(old(db), id, Ms(us), error, attempts)
    {
      var _ := RunUpdateScript(id, us, FAILED, None, error, Some(attempts));
    }

    method GetStatus(id: Id, us: nat) returns (found: Option<Rec>)
      ensures found.Some? <==> id in db && Ms(us) <= db[id].deadlineMs
      ensures found.Some? ==> found.value == db[id].rec
    {
      var raw := Get(db, id, Ms(us));
      found := if raw.Some? then Some(raw.value.rec) else None;
    }

    method Delete(id: Id)
      modifies this
      ensures db == old(db) - {id}
    {
      db := db - {id};
    }
  }
}
