/** Values shared by the two stores, their clients and the outbox. */
module Types {

  datatype Option<+T> = None | Some(value: T)

  /** A message id or an idempotency key. */
  type Id = string

  /** A handler result, opaque to the framework. Python's `None` is `Option.None`. */
  type Value = string

  /** `SKIPPED` is declared by the source but never written by it. */
  datatype Status = PROCESSING | COMPLETED | FAILED

  datatype Config = Config(
    ttlSeconds: nat,
    maxRetries: nat,
    retryBackoffMs: nat,
    processingTimeoutSeconds: nat,
    retryFailed: bool)
  {
    function TtlMs(): nat { ttlSeconds * 1000 }

    function LeaseMs(): nat { processingTimeoutSeconds * 1000 }

    predicate Retries(status: Status, attempts: int) {
      status == FAILED && retryFailed && attempts < maxRetries
    }

    /** FAILED, and not to be retried. */
    predicate Spent(status: Status, attempts: int) {
      status == FAILED && !Retries(status, attempts)
    }
  }

  /** Whole milliseconds of a clock reading in microseconds; the rest is cut off. */
  function Ms(us: nat): nat { us / 1000 }

  function One(b: bool): nat { if b then 1 else 0 }
}
