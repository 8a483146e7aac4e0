/**
 The protocol of the three clients told from the exchanges alone: which call follows a log of calls and answers, and
 how a log ends. The machine of `ClientMachine` makes these calls and comes to these ends, and no others.
 */
module Protocol {
  import opened Types
  import opened ClientMachine

  function Last(log: seq<Exchange>): Exchange
    requires |log| > 0
  {
    log[|log| - 1]
  }

  /** What follows when no attempt is left: the consumer sends the last exception to the DLQ, the others are done. */
  function AfterGivingUp(kind: Kind, log: seq<Exchange>): Option<Call> {
    if kind == Consumer then Some(CallDlq(LastException(log))) else None
  }

  /** What follows when the handler has raised and, with an id, mark_failed has been answered. */
  function AfterFailedAttempt(kind: Kind, cfg: Config, log: seq<Exchange>): Option<Call> {
    if kind == Guard then None
    else if Handled(log) < cfg.maxRetries then Some(CallSleep(cfg.retryBackoffMs * Handled(log)))
    else AfterGivingUp(kind, log)
  }

  function FirstCall(kind: Kind, cfg: Config, identified: bool): Option<Call> {
    if kind != Consumer then Some(CallGetStatus)
    else if identified then Some(CallClaim)
    else if cfg.maxRetries >= 1 then Some(CallHandle)
    else Some(CallDlq(None))
  }

  /** A claim is the first of the delivery or call as long as the handler has not been called. */
  function AfterClaim(kind: Kind, cfg: Config, log: seq<Exchange>): Option<Call>
    requires |log| > 0
  {
    match Last(log).answer
    case Granted(true) =>
      if kind == Guard || cfg.maxRetries >= 1 then Some(CallHandle) else AfterGivingUp(kind, log)
    case Granted(false) =>
      if Handled(log) > 0 then AfterGivingUp(kind, log)
      else if kind == Consumer then Some(CallGetStatus)
      else None
    case _ => None
  }

  function AfterStatus(kind: Kind, answer: Answer): Option<Call> {
    match answer
    case Status(found) =>
      if kind == Consumer then Some(CallCommit)
      else if found.Some? && found.value.status == COMPLETED then None
      else Some(CallClaim)
    case _ => None
  }

  function AfterHandler(kind: Kind, cfg: Config, identified: bool, log: seq<Exchange>): Option<Call>
    requires |log| > 0
  {
    match Last(log).answer
    case Returned(v) => if identified then Some(CallMarkCompleted(v)) else Some(CallCommit)
    case Exc(e) =>
      if identified then Some(CallMarkFailed(e, Handled(log))) else AfterFailedAttempt(kind, cfg, log)
    case _ => None
  }

  /** The call that follows the log; `None` when the delivery or call is over. */
  function CallAfter(kind: Kind, cfg: Config, identified: bool, log: seq<Exchange>): Option<Call> {
    if |log| == 0 then FirstCall(kind, cfg, identified)
    else
      match Last(log).call
      case CallGetStatus => AfterStatus(kind, Last(log).answer)
      case CallClaim => AfterClaim(kind, cfg, log)
      case CallHandle => AfterHandler(kind, cfg, identified, log)
      case CallMarkFailed(_, _) => if Last(log).answer == Fine then AfterFailedAttempt(kind, cfg, log) else None
      case CallSleep(_) => if identified then Some(CallClaim) else Some(CallHandle)
      case CallMarkCompleted(_) => if kind == Consumer then Some(CallCommit) else None
      case CallDlq(_) => if Last(log).answer == Fine then Some(CallCommit) else None
      case CallCommit => None
  }

  /** Every call of the log is the one that follows what came before it, with an answer of its kind. */
  ghost predicate Lawful(kind: Kind, cfg: Config, identified: bool, log: seq<Exchange>) {
    |log| > 0 ==>
      && Lawful(kind, cfg, identified, log[..|log| - 1])
      && CallAfter(kind, cfg, identified, log[..|log| - 1]) == Some(Last(log).call)
      && Fits(Last(log).call, Last(log).answer)
  }

  // ---------------------------------------------------------------- how a log ends

  /** The value of the first handler call that returned. */
  function Success(log: seq<Exchange>): Option<Option<Value>> {
    if |log| == 0 then None
    else
      var before := Success(log[..|log| - 1]);
      if before.Some? then before
      else if HandlerCall(Last(log)) && Last(log).answer.Returned? then Some(Last(log).answer.value)
      else None
  }

  /** The exception that gets out of the consumer, the wrapper or the guard: of a store, the DLQ or the broker. */
  predicate LetsOut(kind: Kind, x: Exchange) {
    x.answer.Exc? && x.call != CallHandle && (x.call.CallMarkCompleted? ==> kind == Guard)
  }

  /** get_status, asked first, found a COMPLETED record. */
  predicate FoundCompleted(kind: Kind, log: seq<Exchange>) {
    && kind != Consumer && |log| >= 1 && log[0].answer.Status? && log[0].answer.found.Some?
    && log[0].answer.found.value.status == COMPLETED
  }

  /** The claim of the delivery or call: the consumer's first exchange, the second of the others. */
  predicate FirstClaim(kind: Kind, log: seq<Exchange>, won: bool) {
    var i := if kind == Consumer then 0 else 1;
    |log| > i && log[i] == Exchange(CallClaim, Granted(won))
  }

  /** get_status, after the consumer's refused claim, found the message in flight. */
  predicate InFlight(log: seq<Exchange>) {
    |log| >= 2 && log[1].answer.Status? && log[1].answer.found.Some? && log[1].answer.found.value.status == PROCESSING
  }

  /** What came of it, if no exception got out. */
  function OutcomeOf(kind: Kind, log: seq<Exchange>): Verdict {
    if Success(log).Some? then Processed(Success(log).value)
    else if FoundCompleted(kind, log) then Cached(log[0].answer.found.value.result)
    else if FirstClaim(kind, log, false) then
      if kind != Consumer then Refused else if InFlight(log) then ClaimLost else Duplicate
    else if kind == Consumer then DeadLettered(LastException(log))
    else Failed(LastException(log))
  }

  /** The verdict of a delivery or call that is over. */
  function Ending(kind: Kind, log: seq<Exchange>): Verdict {
    if |log| > 0 && LetsOut(kind, Last(log)) then Escaped else OutcomeOf(kind, log)
  }

  // ---------------------------------------------------------------- the machine keeps to it

  /** The delivery or call is past its claim, if it makes one. */
  predicate Entered(kind: Kind, identified: bool, log: seq<Exchange>) {
    if identified then FirstClaim(kind, log, true) && !FoundCompleted(kind, log)
    else |log| > 0 ==> log[0].call != CallClaim
  }

  ghost predicate Told(kind: Kind, identified: bool, log: seq<Exchange>, pc: Pc) {
    match pc
    case Idle => false
    case Checking => kind != Consumer && log == []
    case Claiming =>
      identified && if kind == Consumer then log == [] else |log| == 1 && !FoundCompleted(kind, log)
    case Skipping => kind == Consumer && |log| == 1 && FirstClaim(kind, log, false)
    case Raised(_, _) => identified && Success(log) == None && Entered(kind, identified, log)
    case Reclaiming(_, _) => identified && Success(log) == None && Entered(kind, identified, log)
    case Handling(_) => Success(log) == None && Entered(kind, identified, log)
    case Sleeping(_, _) => Success(log) == None && Entered(kind, identified, log)
    case Dropping(_) => kind == Consumer && Success(log) == None && Entered(kind, identified, log)
    case Succeeded(v) => identified && Success(log) == Some(v)
    case Committing(v) => kind == Consumer && |log| > 0 && v == OutcomeOf(kind, log)
    case Done(v) => |log| > 0 && v == Ending(kind, log)
  }

  lemma {:induction false} Appended(log: seq<Exchange>, x: Exchange)
    ensures var log' := log + [x];
            && log'[..|log'| - 1] == log && Last(log') == x
            && Handled(log') == Handled(log) + One(x.call.CallHandle?)
            && LastException(log') ==
               (if HandlerCall(x) && x.answer.Exc? then Some(x.answer.exc) else LastException(log))
            && Success(log') == (if Success(log).Some? then Success(log)
                                 else if HandlerCall(x) && x.answer.Returned? then Some(x.answer.value) else None)
  {
    var log' := log + [x];
    assert log'[..|log'| - 1] == log && log'[|log'| - 1] == x;
  }

  lemma {:induction false} ToldStep(kind: Kind, cfg: Config, identified: bool, log: seq<Exchange>, pc: Pc, x: Exchange)
    requires identified || kind == Consumer
    requires PositionTells(kind, cfg, log, pc) && Told(kind, identified, log, pc)
    requires NextCall(cfg, pc) == Some(x.call) && Fits(x.call, x.answer)
    ensures Told(kind, identified, log + [x], Advance(kind, cfg, identified, pc, x.answer))
  {
    Appended(log, x);
    assert forall i :: 0 <= i < |log| ==> (log + [x])[i] == log[i];
    assert (log + [x])[|log|] == x;
  }

  /** The call the machine makes next is told by the last exchange. */
  lemma {:induction false} CallStep(kind: Kind, cfg: Config, identified: bool, log: seq<Exchange>, pc: Pc, x: Exchange)
    requires identified || kind == Consumer
    requires PositionTells(kind, cfg, log, pc) && Told(kind, identified, log, pc)
    requires NextCall(cfg, pc) == Some(x.call) && Fits(x.call, x.answer)
    ensures NextCall(cfg, Advance(kind, cfg, identified, pc, x.answer)) == CallAfter(kind, cfg, identified, log + [x])
  {
    Appended(log, x);
  }

  /**
   For every log of a consumer's delivery, a decorated call or a guard: the machine makes exactly the call that the
   protocol has follow, and when it is over its verdict is what the log comes to.
   */
  lemma {:induction false} MachineKeepsProtocol(kind: Kind, cfg: Config, identified: bool, log: seq<Exchange>)
    requires identified || kind == Consumer
    requires Follow(kind, cfg, identified, Entry(kind, cfg, identified), log).Some?
    ensures var pc := Follow(kind, cfg, identified, Entry(kind, cfg, identified), log).value;
            && NextCall(cfg, pc) == CallAfter(kind, cfg, identified, log)
            && Told(kind, identified, log, pc)
  {
    if |log| > 0 {
      var n := |log| - 1;
      assert log == log[..n] + [log[n]];
      FollowOne(kind, cfg, identified, Entry(kind, cfg, identified), log[..n], log[n]);
      MachineKeepsProtocol(kind, cfg, identified, log[..n]);
      RetryArithmetic(kind, cfg, identified, log[..n]);
      var pc := Follow(kind, cfg, identified, Entry(kind, cfg, identified), log[..n]).value;
      ToldStep(kind, cfg, identified, log[..n], pc, log[n]);
      CallStep(kind, cfg, identified, log[..n], pc, log[n]);
    }
  }

  /** The logs the machine follows are exactly the lawful ones. */
  lemma {:induction false} FollowedAreLawful(kind: Kind, cfg: Config, identified: bool, log: seq<Exchange>)
    requires identified || kind == Consumer
    ensures Follow(kind, cfg, identified, Entry(kind, cfg, identified), log).Some? <==>
            Lawful(kind, cfg, identified, log)
  {
    if |log| > 0 {
      var n := |log| - 1;
      FollowedAreLawful(kind, cfg, identified, log[..n]);
      if Follow(kind, cfg, identified, Entry(kind, cfg, identified), log[..n]).Some? {
        MachineKeepsProtocol(kind, cfg, identified, log[..n]);
      }
    }
  }

  lemma {:induction false} LawfulAt(kind: Kind, cfg: Config, identified: bool, log: seq<Exchange>, i: nat)
    requires Lawful(kind, cfg, identified, log) && i < |log|
    ensures CallAfter(kind, cfg, identified, log[..i]) == Some(log[i].call)
  {
    var n := |log| - 1;
    if i < n {
      LawfulAt(kind, cfg, identified, log[..n], i);
      assert log[..n][..i] == log[..i] && log[..n][i] == log[i];
    }
  }

  /**
   What the calls of a log carry: mark_failed the last exception and the number of handler calls, the backoff as many
   units, mark_completed the value just returned, the DLQ the last exception.
   */
  lemma {:induction false} CallsCarry(kind: Kind, cfg: Config, identified: bool, log: seq<Exchange>, i: nat)
    requires identified || kind == Consumer
    requires Follow(kind, cfg, identified, Entry(kind, cfg, identified), log).Some? && i < |log|
    ensures var before := log[..i];
            match log[i].call
            case CallMarkFailed(e, n) => n == Handled(before) && i > 0 && Last(before) == Exchange(CallHandle, Exc(e))
            case CallSleep(ms) => ms == cfg.retryBackoffMs * Handled(before)
            case CallMarkCompleted(v) => i > 0 && Last(before) == Exchange(CallHandle, Returned(v))
            case CallDlq(cause) => cause == LastException(before)
            case _ => true
  {
    FollowedAreLawful(kind, cfg, identified, log);
    LawfulAt(kind, cfg, identified, log, i);
  }
}
