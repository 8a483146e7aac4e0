/**
 The three clients of a store as one machine: where a delivery or a call stands, what it
 awaits next, and where each answer takes it. A step of the machine is one `await`.
 */
module ClientMachine {
  import opened Types

  datatype Kind = Consumer | Decorator | Guard

  /** The part of `get_status` the clients look at. */
  datatype Seen = Seen(status: Status, result: Option<Value>)

  datatype Call =
    | CallGetStatus
    | CallClaim
    | CallHandle
    | CallMarkFailed(error: string, attempts: nat)
    | CallSleep(ms: nat)
    | CallMarkCompleted(result: Option<Value>)
    | CallDlq(cause: Option<string>)   // sent to the dead letter topic, or dropped when there is none
    | CallCommit

  datatype Answer =
    | Status(found: Option<Seen>)
    | Granted(won: bool)
    | Returned(value: Option<Value>)
    | Fine
    | Exc(exc: string)

  datatype Verdict =
    | Processed(value: Option<Value>)        // the handler ran here and returned
    | Cached(value: Option<Value>)           // a COMPLETED record was found by get_status
    | Refused                                // decorator and guard: claim lost
    | Duplicate                              // consumer: claim lost, record not PROCESSING
    | ClaimLost                              // consumer: claim lost, record PROCESSING
    | DeadLettered(cause: Option<string>)    // consumer: gave up
    | Failed(cause: Option<string>)          // decorator and guard: raised
    | Escaped                                // an exception of a store, the broker or the DLQ got out

  datatype Pc =
    | Idle
    | Checking
    | Claiming
    | Skipping
    | Handling(attempt: nat)
    | Raised(attempt: nat, error: string)
    | Sleeping(attempt: nat, error: string)
    | Reclaiming(attempt: nat, error: string)
    | Succeeded(value: Option<Value>)
    | Dropping(cause: Option<string>)
    | Committing(verdict: Verdict)
    | Done(verdict: Verdict)

  /** The retry loop is left without a success. */
  function GiveUp(kind: Kind, cause: Option<string>): Pc {
    if kind.Consumer? then Dropping(cause) else Done(Failed(cause))
  }

  /** The loop head with `attempts == 1`. The guard runs its block once, without a loop. */
  function EnterLoop(kind: Kind, cfg: Config): Pc {
    if kind.Guard? || 1 <= cfg.maxRetries then Handling(1) else GiveUp(kind, None)
  }

  /** A consumer record without an id skips every store call. */
  function Entry(kind: Kind, cfg: Config, identified: bool): Pc {
    if !kind.Consumer? then Checking else if identified then Claiming else EnterLoop(kind, cfg)
  }

  function AfterFailure(kind: Kind, cfg: Config, attempt: nat, error: string): Pc {
    if kind.Guard? then Done(Failed(Some(error)))
    else if attempt < cfg.maxRetries then Sleeping(attempt, error)
    else GiveUp(kind, Some(error))
  }

  function NextCall(cfg: Config, pc: Pc): Option<Call> {
    match pc
    case Idle => None
    case Checking => Some(CallGetStatus)
    case Claiming => Some(CallClaim)
    case Skipping => Some(CallGetStatus)
    case Handling(_) => Some(CallHandle)
    case Raised(n, e) => Some(CallMarkFailed(e, n))
    case Sleeping(n, _) => Some(CallSleep(cfg.retryBackoffMs * n))
    case Reclaiming(_, _) => Some(CallClaim)
    case Succeeded(v) => Some(CallMarkCompleted(v))
    case Dropping(cause) => Some(CallDlq(cause))
    case Committing(_) => Some(CallCommit)
    case Done(_) => None
  }

  /** The answers an awaited call can give. */
  predicate Fits(call: Call, a: Answer) {
    match call
    case CallGetStatus => a.Status? || a.Exc?
    case CallClaim => a.Granted? || a.Exc?
    case CallHandle => a.Returned? || a.Exc?
    case CallSleep(_) => a.Fine?
    case _ => a.Fine? || a.Exc?
  }

  function Advance(kind: Kind, cfg: Config, identified: bool, pc: Pc, a: Answer): Pc {
    match pc
    case Idle => pc
    case Checking =>
      if !a.Status? then Done(Escaped)
      else if a.found.Some? && a.found.value.status == COMPLETED then Done(Cached(a.found.value.result))
      else Claiming
    case Claiming =>
      if !a.Granted? then Done(Escaped)
      else if a.won then EnterLoop(kind, cfg)
      else if kind.Consumer? then Skipping
      else Done(Refused)
    case Skipping =>
      if !a.Status? then Done(Escaped)
      else if a.found.Some? && a.found.value.status == PROCESSING then Committing(ClaimLost)
      else Committing(Duplicate)
    case Handling(n) =>
      if a.Returned? then (if identified then Succeeded(a.value) else Committing(Processed(a.value)))
      else
        var e := if a.Exc? then a.exc else "";
        if identified then Raised(n, e) else AfterFailure(kind, cfg, n, e)
    case Raised(n, e) => if a.Fine? then AfterFailure(kind, cfg, n, e) else Done(Escaped)
    case Sleeping(n, e) => if identified then Reclaiming(n, e) else Handling(n + 1)
    case Reclaiming(n, e) =>
      if !a.Granted? then Done(Escaped)
      else if a.won then Handling(n + 1)
      else GiveUp(kind, Some(e))
    case Succeeded(v) =>
      // The consumer and the decorator log an exception of mark_completed and go on.
      if kind.Consumer? then Committing(Processed(v))
      else if kind.Guard? && !a.Fine? then Done(Escaped)
      else Done(Processed(v))
    case Dropping(cause) => if a.Fine? then Committing(DeadLettered(cause)) else Done(Escaped)
    case Committing(verdict) => if a.Fine? then Done(verdict) else Done(Escaped)
    case Done(_) => pc
  }

  /** One awaited call with its answer. */
  datatype Exchange = Exchange(call: Call, answer: Answer)

  /** The machine run over a log of exchanges; `None` when a call is not the one the machine makes. */
  function Follow(kind: Kind, cfg: Config, identified: bool, start: Pc, log: seq<Exchange>): Option<Pc> {
    if |log| == 0 then Some(start)
    else
      var last := log[|log| - 1];
      match Follow(kind, cfg, identified, start, log[..|log| - 1])
      case None => None
      case Some(pc) =>
        if NextCall(cfg, pc) == Some(last.call) && Fits(last.call, last.answer)
        then Some(Advance(kind, cfg, identified, pc, last.answer))
        else None
  }

  lemma {:induction false} FollowOne(
    kind: Kind, cfg: Config, identified: bool, start: Pc, log: seq<Exchange>, x: Exchange)
    ensures Follow(kind, cfg, identified, start, log + [x]) ==
            match Follow(kind, cfg, identified, start, log)
            case None => None
            case Some(pc) =>
              if NextCall(cfg, pc) == Some(x.call) && Fits(x.call, x.answer)
              then Some(Advance(kind, cfg, identified, pc, x.answer)) else None
  {
    assert (log + [x])[..|log + [x]| - 1] == log;
  }

  // ---------------------------------------------------------------- what a log can contain

  predicate HandlerCall(x: Exchange) { x.call.CallHandle? }

  function Handled(log: seq<Exchange>): nat {
    if |log| == 0 then 0
    else Handled(log[..|log| - 1]) + if HandlerCall(log[|log| - 1]) then 1 else 0
  }

  function Slept(log: seq<Exchange>): nat {
    if |log| == 0 then 0
    else
      var x := log[|log| - 1];
      Slept(log[..|log| - 1]) + if x.call.CallSleep? then x.call.ms else 0
  }

  /** The exception of the last handler call that raised. */
  function LastException(log: seq<Exchange>): Option<string> {
    if |log| == 0 then None
    else
      var x := log[|log| - 1];
      if HandlerCall(x) && x.answer.Exc? then Some(x.answer.exc) else LastException(log[..|log| - 1])
  }

  /** 0 + 1 + ... + (n - 1). */
  function Triangle(n: nat): nat {
    if n == 0 then 0 else Triangle(n - 1) + (n - 1)
  }

  lemma {:induction false} TriangleClosed(n: nat)
    ensures 2 * Triangle(n) == n * (n - 1)
  {
    if n > 0 {
      TriangleClosed(n - 1);
      assert n * (n - 1) == (n - 1) * (n - 2) + 2 * (n - 1);
    }
  }

  /** The retry bound of a client: the guard runs its block once whatever the configuration. */
  function Bound(kind: Kind, cfg: Config): nat {
    if kind.Guard? then 1 else cfg.maxRetries
  }

  /** What the position of the machine says about the exchanges since its entry. */
  ghost predicate PositionTells(kind: Kind, cfg: Config, log: seq<Exchange>, pc: Pc) {
    var handled, slept, last := Handled(log), Slept(log), LastException(log);
    match pc
    case Idle => false
    case Checking => handled == 0 && slept == 0 && last == None
    case Claiming => handled == 0 && slept == 0 && last == None
    case Skipping => handled == 0 && slept == 0
    case Handling(n) =>
      && 1 <= n <= Bound(kind, cfg) && handled == n - 1
      && slept == cfg.retryBackoffMs * Triangle(n) && (last.Some? <==> n > 1)
    case Raised(n, e) =>
      1 <= n <= Bound(kind, cfg) && handled == n && slept == cfg.retryBackoffMs * Triangle(n) && last == Some(e)
    case Sleeping(n, e) =>
      1 <= n < Bound(kind, cfg) && handled == n && slept == cfg.retryBackoffMs * Triangle(n) && last == Some(e)
    case Reclaiming(n, e) =>
      1 <= n < Bound(kind, cfg) && handled == n && slept == cfg.retryBackoffMs * Triangle(n + 1) && last == Some(e)
    case Succeeded(_) => 1 <= handled <= Bound(kind, cfg)
    case Dropping(cause) => GivenUp(kind, cfg, log, cause)
    case Committing(verdict) => VerdictTells(kind, cfg, log, verdict)
    case Done(verdict) => VerdictTells(kind, cfg, log, verdict)
  }

  /** The last handler call raised `cause`; either every attempt was used or the reclaim after it was refused. */
  ghost predicate GivenUp(kind: Kind, cfg: Config, log: seq<Exchange>, cause: Option<string>) {
    var handled := Handled(log);
    && cause == LastException(log)
    && handled <= Bound(kind, cfg)
    && (cause.Some? <==> 1 <= Bound(kind, cfg))
    && (cause.Some? ==> handled >= 1)
    && (handled == Bound(kind, cfg) ==> Slept(log) == cfg.retryBackoffMs * Triangle(handled))
    && (handled < Bound(kind, cfg) ==> Slept(log) == cfg.retryBackoffMs * Triangle(handled + 1))
  }

  ghost predicate VerdictTells(kind: Kind, cfg: Config, log: seq<Exchange>, verdict: Verdict) {
    match verdict
    case Processed(_) => 1 <= Handled(log) <= Bound(kind, cfg)
    case DeadLettered(cause) => GivenUp(kind, cfg, log, cause)
    case Failed(cause) => GivenUp(kind, cfg, log, cause)
    case Escaped => Handled(log) <= Bound(kind, cfg)
    case _ => Handled(log) == 0
  }

  lemma {:induction false} NextTriangle(backoff: nat, n: nat)
    ensures backoff * Triangle(n + 1) == backoff * Triangle(n) + backoff * n
  {
    assert Triangle(n + 1) == Triangle(n) + n;
  }

  lemma {:induction false} PositionStep(
    kind: Kind, cfg: Config, identified: bool, log: seq<Exchange>, pc: Pc, x: Exchange)
    requires PositionTells(kind, cfg, log, pc)
    requires NextCall(cfg, pc) == Some(x.call) && Fits(x.call, x.answer)
    ensures PositionTells(kind, cfg, log + [x], Advance(kind, cfg, identified, pc, x.answer))
  {
    var log' := log + [x];
    assert log'[..|log'| - 1] == log && log'[|log'| - 1] == x;
    assert Handled(log') == Handled(log) + if HandlerCall(x) then 1 else 0;
    assert Slept(log') == Slept(log) + if x.call.CallSleep? then x.call.ms else 0;
    assert LastException(log') ==
           if HandlerCall(x) && x.answer.Exc? then Some(x.answer.exc) else LastException(log);
    if pc.Sleeping? {
      NextTriangle(cfg.retryBackoffMs, pc.attempt);
    }
  }

  /**
   For every answer of store, handler and broker: at most `max_retries` handler calls, exactly
   backoff * n(n-1)/2 slept before attempt n, and a caught exception at hand on giving up
   if and only if `max_retries` is at least 1.
   */
  lemma {:induction false} RetryArithmetic(kind: Kind, cfg: Config, identified: bool, log: seq<Exchange>)
    requires Follow(kind, cfg, identified, Entry(kind, cfg, identified), log).Some?
    ensures PositionTells(kind, cfg, log, Follow(kind, cfg, identified, Entry(kind, cfg, identified), log).value)
  {
    if |log| > 0 {
      var n := |log| - 1;
      assert log == log[..n] + [log[n]];
      FollowOne(kind, cfg, identified, Entry(kind, cfg, identified), log[..n], log[n]);
      RetryArithmetic(kind, cfg, identified, log[..n]);
      PositionStep(kind, cfg, identified, log[..n],
                   Follow(kind, cfg, identified, Entry(kind, cfg, identified), log[..n]).value, log[n]);
    }
  }

  lemma DoubledTriangle(backoff: nat, n: nat)
    ensures 2 * (backoff * Triangle(n)) == backoff * (n * (n - 1))
  {
    TriangleClosed(n);
    assert 2 * (backoff * Triangle(n)) == backoff * (2 * Triangle(n));
  }

  /** A delivery that used every attempt has slept backoff * m(m-1)/2 for m = max_retries. */
  lemma {:induction false} ExhaustedSleep(cfg: Config, identified: bool, log: seq<Exchange>, cause: Option<string>)
    requires Follow(Consumer, cfg, identified, Entry(Consumer, cfg, identified), log) == Some(Dropping(cause))
    requires Handled(log) == cfg.maxRetries
    ensures 2 * Slept(log) == cfg.retryBackoffMs * (cfg.maxRetries * (cfg.maxRetries - 1))
  {
    RetryArithmetic(Consumer, cfg, identified, log);
    DoubledTriangle(cfg.retryBackoffMs, cfg.maxRetries);
  }

  /** Without an id the machine makes no store call, so it never ends in a refusal. */
  predicate StoreFree(pc: Pc) {
    match pc
    case Handling(_) => true
    case Sleeping(_, _) => true
    case Dropping(_) => true
    case Committing(v) => v.Processed? || v.DeadLettered?
    case Done(v) => v.Processed? || v.DeadLettered? || v.Escaped?
    case _ => false
  }

  predicate NoStoreCall(call: Call) { call.CallHandle? || call.CallSleep? || call.CallDlq? || call.CallCommit? }

  lemma {:induction false} UnidentifiedStaysStoreFree(cfg: Config, log: seq<Exchange>)
    requires Follow(Consumer, cfg, false, Entry(Consumer, cfg, false), log).Some?
    ensures StoreFree(Follow(Consumer, cfg, false, Entry(Consumer, cfg, false), log).value)
  {
    if |log| > 0 {
      UnidentifiedStaysStoreFree(cfg, log[..|log| - 1]);
    }
  }

  /** A delivery without an id that ends unescaped has called the handler: there is nothing to deduplicate it by. */
  lemma {:induction false} UnidentifiedDeliveryIsHandled(cfg: Config, log: seq<Exchange>, v: Verdict)
    requires Follow(Consumer, cfg, false, Entry(Consumer, cfg, false), log) == Some(Done(v))
    requires v != Escaped && 1 <= cfg.maxRetries
    ensures 1 <= Handled(log) <= cfg.maxRetries
    ensures forall i :: 0 <= i < |log| ==> NoStoreCall(log[i].call)
  {
    RetryArithmetic(Consumer, cfg, false, log);
    UnidentifiedStaysStoreFree(cfg, log);
    UnidentifiedCalls(cfg, log);
  }

  lemma {:induction false} UnidentifiedCalls(cfg: Config, log: seq<Exchange>)
    requires Follow(Consumer, cfg, false, Entry(Consumer, cfg, false), log).Some?
    ensures forall i :: 0 <= i < |log| ==> NoStoreCall(log[i].call)
  {
    if |log| > 0 {
      var n := |log| - 1;
      UnidentifiedStaysStoreFree(cfg, log[..n]);
      UnidentifiedCalls(cfg, log[..n]);
      assert forall i :: 0 <= i < n ==> log[i] == log[..n][i];
    }
  }

  // ---------------------------------------------------------------- after a success

  predicate HandlerReturned(log: seq<Exchange>, i: nat) {
    i < |log| && log[i].call.CallHandle? && log[i].answer.Returned?
  }

  predicate PastSuccess(pc: Pc) {
    pc.Succeeded? || (pc.Committing? && pc.verdict.Processed?) || pc.Done?
  }

  /** Once the handler has returned, only mark_completed and commit are called, even if mark_completed raises. */
  lemma {:induction false} NoRerunAfterSuccess(
    kind: Kind, cfg: Config, identified: bool, start: Pc, log: seq<Exchange>, i: nat)
    requires Follow(kind, cfg, identified, start, log).Some? && HandlerReturned(log, i)
    ensures PastSuccess(Follow(kind, cfg, identified, start, log).value)
    ensures forall j :: i < j < |log| ==> log[j].call.CallMarkCompleted? || log[j].call.CallCommit?
  {
    var n := |log| - 1;
    assert log == log[..n] + [log[n]];
    FollowOne(kind, cfg, identified, start, log[..n], log[n]);
    if i < n {
      NoRerunAfterSuccess(kind, cfg, identified, start, log[..n], i);
      assert forall j :: i < j < n ==> log[j] == log[..n][j];
    }
  }

  // ---------------------------------------------------------------- the two loops are one

  predicate LoopCall(call: Call) {
    call.CallHandle? || call.CallMarkFailed? || call.CallSleep? || call.CallClaim? || call.CallMarkCompleted?
  }

  /** The same point of the consumer's loop and of the decorator's. */
  predicate SamePoint(c: Pc, d: Pc) {
    match c
    case Handling(_) => d == c
    case Raised(_, _) => d == c
    case Sleeping(_, _) => d == c
    case Reclaiming(_, _) => d == c
    case Succeeded(_) => d == c
    case Dropping(cause) => d == Done(Failed(cause))
    case Committing(verdict) => verdict.Processed? && d == Done(verdict)
    case Done(verdict) => verdict == Escaped && d == c
    case _ => false
  }

  /**
   After the first claim the consumer and the decorator accept exactly the same logs of loop
   calls, so equal answers draw equal calls from both, and they leave the loop together.
   */
  lemma {:induction false} LoopsCoincide(cfg: Config, log: seq<Exchange>)
    requires forall i :: 0 <= i < |log| ==> LoopCall(log[i].call)
    ensures var c := Follow(Consumer, cfg, true, EnterLoop(Consumer, cfg), log);
            var d := Follow(Decorator, cfg, true, EnterLoop(Decorator, cfg), log);
            && (c.Some? <==> d.Some?)
            && (c.Some? ==> SamePoint(c.value, d.value))
  {
    if |log| > 0 {
      var n := |log| - 1;
      assert log == log[..n] + [log[n]];
      assert forall i :: 0 <= i < n ==> log[..n][i] == log[i];
      LoopsCoincide(cfg, log[..n]);
      FollowOne(Consumer, cfg, true, EnterLoop(Consumer, cfg), log[..n], log[n]);
      FollowOne(Decorator, cfg, true, EnterLoop(Decorator, cfg), log[..n], log[n]);
      assert LoopCall(log[n].call);
    }
  }
}
