/** What the in-memory store does to its dictionary, as functions. */
module MemorySpec {
  import opened Types

  /** The fields of one record; the lease is a datetime, here in microseconds. */
  datatype MRec = MRec(
    status: Status,
    attempts: int,
    result: Option<Value>,
    error: Option<string>,
    leaseExpiresUs: Option<int>)

  type Mem = map<Id, MRec>

  function LeaseEnd(cfg: Config, us: nat): nat { us + 1000 * cfg.LeaseMs() }

  predicate MemWins(cfg: Config, mem: Mem, id: Id, us: nat) {
    id in mem ==>
      var m := mem[id];
      || cfg.Retries(m.status, m.attempts)
      || (m.status.PROCESSING? && m.leaseExpiresUs.Some? && m.leaseExpiresUs.value <= us)
  }

  function MemClaim(cfg: Config, mem: Mem, id: Id, us: nat): Mem {
    if !MemWins(cfg, mem, id, us) then mem
    else
      var attempts := if id in mem then mem[id].attempts + 1 else 1;
      mem[id := MRec(PROCESSING, attempts, None, None, Some(LeaseEnd(cfg, us)))]
  }

  /** Guarded: anything but PROCESSING is left alone. */
  function MemComplete(mem: Mem, id: Id, result: Option<Value>): Mem {
    if id !in mem || !mem[id].status.PROCESSING? then mem
    else mem[id := mem[id].(status := COMPLETED, result := result, leaseExpiresUs := None)]
  }

  /** Not guarded: a record in any state becomes FAILED. */
  function MemFail(mem: Mem, id: Id, error: string, attempts: int): Mem {
    if id !in mem then mem
    else mem[id := mem[id].(status := FAILED, error := Some(error), attempts := attempts, leaseExpiresUs := None)]
  }

  predicate MemBlocks(cfg: Config, m: MRec, us: nat) {
    || m.status == COMPLETED
    || cfg.Spent(m.status, m.attempts)
    || (m.status == PROCESSING && m.leaseExpiresUs.Some? && us < m.leaseExpiresUs.value)
  }

  /** Only PROCESSING carries a lease, and neither an error nor a result. */
  ghost predicate MemWellFormed(m: MRec) {
    && (m.status.PROCESSING? <==> m.leaseExpiresUs.Some?)
    && (m.status.PROCESSING? ==> m.error.None? && m.result.None?)
  }

  ghost predicate MemAllWellFormed(mem: Mem) {
    forall id :: id in mem ==> MemWellFormed(mem[id])
  }

  lemma MemRefusalReasons(cfg: Config, mem: Mem, id: Id, us: nat)
    requires MemAllWellFormed(mem)
    ensures !MemWins(cfg, mem, id, us) <==> id in mem && MemBlocks(cfg, mem[id], us)
  {
    if id in mem {
      assert MemWellFormed(mem[id]);
    }
  }
}

/** The in-memory store: a dictionary of mutable records. */
module MemoryStore {
  import opened Types
  import opened MemorySpec

  class ProcessingStatus {
    var status: Status
    var attempts: int
    var result: Option<Value>
    var error: Option<string>
    var leaseExpiresUs: Option<int>

    constructor (attempts: int, leaseExpiresUs: int)
      ensures Fields() == MRec(PROCESSING, attempts, None, None, Some(leaseExpiresUs))
    {
      status, this.attempts := PROCESSING, attempts;
      result, error := None, None;
      this.leaseExpiresUs := Some(leaseExpiresUs);
    }

    function Fields(): MRec
      reads this
    {
      MRec(status, attempts, result, error, leaseExpiresUs)
    }
  }

  class InMemoryDeduplicationStore {
    const config: Config
    var store: map<Id, ProcessingStatus>

    /** No two ids share a record object, so a write in place touches one id only. */
    ghost predicate Valid()
      reads this
    {
      forall i, j :: i in store && j in store && store[i] == store[j] ==> i == j
    }

    ghost function Contents(): Mem
      reads this, store.Values
    {
      map id | id in store :: store[id].Fields()
    }

    constructor (config: Config)
      ensures Valid() && Contents() == map[] && this.config == config
    {
      this.config := config;
      store := map[];
    }

    /** A won claim installs a new object: a record handed out earlier keeps its old fields. */
    method Claim(id: Id, us: nat) returns (won: bool)
      requires Valid()
      modifies this
      ensures Valid()
      ensures won <==> MemWins(config, old(Contents()), id, us)
      ensures Contents() == MemClaim(config, old(Contents()), id, us)
      ensures forall i :: i in old(store) && i != id ==> i in store && store[i] == old(store[i])
      ensures won ==> id in store && fresh(store[id])
      ensures !won ==> store == old(store)
    {
      var leaseExpiresUs := us + 1000 * config.LeaseMs();
      if id in store {
        var existing := store[id];
        var retryable := existing.status == FAILED && config.retryFailed && existing.attempts < config.maxRetries;
        var orphaned :=
          existing.status == PROCESSING && existing.leaseExpiresUs.Some? && existing.leaseExpiresUs.value <= us;
        if retryable || orphaned {
          var record := new ProcessingStatus(existing.attempts + 1, leaseExpiresUs);
          store := store[id := record];
          return true;
        }
        return false;
      }
      var record := new ProcessingStatus(1, leaseExpiresUs);
      store := store[id := record];
      return true;
    }

    /** Writes in place: the dictionary keeps its objects. */
    method MarkCompleted(id: Id, result: Option<Value>)
      requires Valid()
      modifies store.Values
      ensures Valid()
      ensures Contents() == MemComplete(old(Contents()), id, result)
    {
      if id !in store || store[id].status != PROCESSING {
        return;
      }
      var record := store[id];
      record.status := COMPLETED;
      record.result := result;
      record.leaseExpiresUs := None;
    }

    method MarkFailed(id: Id, error: string, attempts: int)
      requires Valid()
      modifies store.Values
      ensures Valid()
      ensures Contents() == MemFail(old(Contents()), id, error, attempts)
    {
      if id !in store {
        return;
      }
      var record := store[id];
      record.status := FAILED;
      record.error := Some(error);
      record.attempts := attempts;
      record.leaseExpiresUs := None;
    }

    /** Hands out the stored object itself, so later marks show through it. */
    method GetStatus(id: Id) returns (found: ProcessingStatus?)
      requires Valid()
      ensures found == null <==> id !in store
      ensures found != null ==> found == store[id] && found.Fields() == Contents()[id]
    {
      found := if id in store then store[id] else null;
    }

    method Delete(id: Id)
      requires Valid()
      modifies this
      ensures Valid()
      ensures Contents() == old(Contents()) - {id}
    {
      store := store - {id};
    }
  }
}
