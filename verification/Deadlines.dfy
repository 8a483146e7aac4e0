/** The two deadlines of a key, in clock readings and in the seconds of the configuration. */
module Deadlines {
  import opened Types
  import opened RedisSpec
  import opened MemorySpec
  import opened StoreTrace

  /** `tr` continues `from` without a delete of `id`, at nondecreasing times no later than `us`. */
  ghost predicate Lasts(from: Trace, tr: Trace, id: Id, us: nat) {
    tr == from ||
    (tr.Then? && !(tr.id == id && tr.op == OpDelete) && LastUs(tr.prev) <= tr.us <= us &&
     Lasts(from, tr.prev, id, tr.us))
  }

  /** The claim at the end of `tr` finds no readable record, so it creates one. */
  ghost predicate CreatedAt(cfg: Config, tr: Trace, id: Id) {
    tr.Then? && tr.id == id && tr.op == OpClaim && Get(DbAfter(cfg, tr.prev), id, Ms(tr.us)).None?
  }

  /** The last millisecond at which a key created at `us` can be read. */
  function LastMs(cfg: Config, us: nat): nat { us / 1000 + 1000 * cfg.ttlSeconds }

  lemma {:induction false} DeadlineKept(cfg: Config, from: Trace, tr: Trace, id: Id, us: nat)
    requires CreatedAt(cfg, from, id) && Lasts(from, tr, id, us)
    requires tr != from ==> tr.us / 1000 <= LastMs(cfg, from.us)
    ensures id in DbAfter(cfg, tr) && DbAfter(cfg, tr)[id].deadlineMs == LastMs(cfg, from.us)
  {
    if tr != from {
      DeadlineKept(cfg, from, tr.prev, id, tr.us);
    }
  }

  /**
   A key created by a claim at `us` and not deleted is found at `later` exactly up to and including the millisecond
   `ttl_seconds` after it, whatever claims and marks come between.
   */
  lemma {:induction false} KeyLivesExactly(cfg: Config, from: Trace, tr: Trace, id: Id, later: nat)
    requires CreatedAt(cfg, from, id) && Lasts(from, tr, id, later)
    requires tr != from ==> tr.us / 1000 <= from.us / 1000 + 1000 * cfg.ttlSeconds
    ensures Get(DbAfter(cfg, tr), id, later / 1000).Some? <==> later / 1000 <= from.us / 1000 + 1000 * cfg.ttlSeconds
  {
    DeadlineKept(cfg, from, tr, id, later);
  }

  // ---------------------------------------------------------------- leases

  /** `tr` continues `from` by steps that do not mark or delete `id`, all before `us`. */
  ghost predicate Unmarked(from: Trace, tr: Trace, id: Id, us: nat) {
    tr == from || (tr.Then? && (tr.id == id ==> tr.op == OpClaim) && tr.us <= us && Unmarked(from, tr.prev, id, tr.us))
  }

  lemma {:induction false} RedisLeaseKept(cfg: Config, from: Trace, tr: Trace, id: Id, us: nat)
    requires from.Then? && from.id == id && from.op == OpClaim && Wins(cfg, DbAfter(cfg, from.prev), id, from.us / 1000)
    requires Unmarked(from, tr, id, us)
    requires id in DbAfter(cfg, from) && us / 1000 <= DbAfter(cfg, from)[id].deadlineMs
    requires tr != from ==> tr.us / 1000 < from.us / 1000 + 1000 * cfg.processingTimeoutSeconds
    ensures id in DbAfter(cfg, tr) && DbAfter(cfg, tr)[id] == DbAfter(cfg, from)[id]
  {
    if tr != from {
      RedisLeaseKept(cfg, from, tr.prev, id, tr.us);
    }
  }

  /**
   A claim won at `us` and not marked blocks the key on Redis exactly until the clock, in whole milliseconds, is
   `processing_timeout_seconds` further, within the TTL and whatever claims are refused meanwhile.
   */
  lemma {:induction false} RedisLeaseBlocksExactly(cfg: Config, from: Trace, tr: Trace, id: Id, later: nat)
    requires from.Then? && from.id == id && from.op == OpClaim && Wins(cfg, DbAfter(cfg, from.prev), id, from.us / 1000)
    requires Unmarked(from, tr, id, later)
    requires id in DbAfter(cfg, from) ==> later / 1000 <= DbAfter(cfg, from)[id].deadlineMs
    requires tr != from ==> tr.us / 1000 < from.us / 1000 + 1000 * cfg.processingTimeoutSeconds
    ensures !Wins(cfg, DbAfter(cfg, tr), id, later / 1000) <==>
            later / 1000 < from.us / 1000 + 1000 * cfg.processingTimeoutSeconds
  {
    RedisLeaseKept(cfg, from, tr, id, later);
  }

  lemma {:induction false} MemLeaseKept(cfg: Config, from: Trace, tr: Trace, id: Id, us: nat)
    requires from.Then? && from.id == id && from.op == OpClaim && MemWins(cfg, MemAfter(cfg, from.prev), id, from.us)
    requires Unmarked(from, tr, id, us)
    requires tr != from ==> tr.us < from.us + 1000000 * cfg.processingTimeoutSeconds
    ensures id in MemAfter(cfg, tr) && MemAfter(cfg, tr)[id] == MemAfter(cfg, from)[id]
  {
    if tr != from {
      MemLeaseKept(cfg, from, tr.prev, id, tr.us);
    }
  }

  /** In memory it blocks to the microsecond, and no TTL ends it. */
  lemma {:induction false} MemLeaseBlocksExactly(cfg: Config, from: Trace, tr: Trace, id: Id, later: nat)
    requires from.Then? && from.id == id && from.op == OpClaim && MemWins(cfg, MemAfter(cfg, from.prev), id, from.us)
    requires Unmarked(from, tr, id, later)
    requires tr != from ==> tr.us < from.us + 1000000 * cfg.processingTimeoutSeconds
    ensures !MemWins(cfg, MemAfter(cfg, tr), id, later) <==> later < from.us + 1000000 * cfg.processingTimeoutSeconds
  {
    MemLeaseKept(cfg, from, tr, id, later);
  }
}
