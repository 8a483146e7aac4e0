/** The id of a Kafka record, as the consumer reads it. */
module Extraction {
  import opened Types

  /** A decoded value. A field that is missing or falsy reads as "". */
  datatype Body = Empty | NotAnObject | Object(messageId: string, id: string)

  /** The bytes of a header, decoded as UTF-8. `Undecodable` bytes are not empty, and decoding them raises. */
  datatype HeaderValue = Text(text: string) | Undecodable

  datatype Header = Header(name: string, value: HeaderValue)

  datatype Record = Record(headers: seq<Header>, key: string, body: Body)

  datatype Extracted = Found(id: Id) | Absent | Raises

  const HEADER := "X-Message-Id"

  /** The header is the one the search ends at. */
  predicate Decides(h: Header) { h.name == HEADER && h.value != Text("") }

  function Decoded(value: HeaderValue): Extracted {
    if value.Text? then Found(value.text) else Raises
  }

  function FromBody(body: Body): Extracted {
    if !body.Object? then Absent
    else if body.messageId != "" then Found(body.messageId)
    else if body.id != "" then Found(body.id)
    else Absent
  }

  /** The first non-empty header decides, then `message_id`, then `id`; the Kafka key is never looked at. */
  method ExtractMessageId(record: Record) returns (e: Extracted)
    ensures e == MessageId(record)
  {
    for i := 0 to |record.headers|
      invariant forall j :: 0 <= j < i ==> !Decides(record.headers[j])
    {
      var h := record.headers[i];
      if h.name == HEADER && h.value != Text("") {
        FirstHeaderDecides(record, i);
        return if h.value.Text? then Found(h.value.text) else Raises;
      }
    }
    NoHeader(record);
    if record.body.Empty? {
      return Absent;
    }
    return FromBody(record.body);
  }

  function MessageId(record: Record): (e: Extracted)
    ensures e.Found? ==> e.id != ""
    ensures e.Raises? ==> Header(HEADER, Undecodable) in record.headers
    decreases |record.headers|
  {
    if |record.headers| == 0 then FromBody(record.body)
    else if Decides(record.headers[0]) then Decoded(record.headers[0].value)
    else MessageId(record.(headers := record.headers[1..]))
  }

  lemma {:induction false} FirstHeaderDecides(record: Record, i: nat)
    requires i < |record.headers| && Decides(record.headers[i])
    requires forall j :: 0 <= j < i ==> !Decides(record.headers[j])
    ensures MessageId(record) == Decoded(record.headers[i].value)
    decreases i
  {
    if i > 0 {
      assert !Decides(record.headers[0]);
      FirstHeaderDecides(record.(headers := record.headers[1..]), i - 1);
    }
  }

  lemma {:induction false} NoHeader(record: Record)
    requires forall j :: 0 <= j < |record.headers| ==> !Decides(record.headers[j])
    ensures MessageId(record) == FromBody(record.body)
    decreases |record.headers|
  {
    if |record.headers| > 0 {
      assert !Decides(record.headers[0]);
      NoHeader(record.(headers := record.headers[1..]));
    }
  }

  /** The header `i` is not read: it has another name, or is empty. */
  predicate Ignored(h: Header) { h.name != "X-Message-Id" || h.value == Text("") }

  /** The text of the first non-empty X-Message-Id header is the id; if it cannot be decoded, reading it raises. */
  lemma {:induction false} HeaderTextIsId(record: Record, i: nat)
    requires i < |record.headers| && record.headers[i].name == "X-Message-Id"
    requires forall j :: 0 <= j < i ==> Ignored(record.headers[j])
    ensures forall t :: record.headers[i].value == Text(t) && t != "" ==> MessageId(record) == Found(t)
    ensures record.headers[i].value == Undecodable ==> MessageId(record) == Raises
  {
    assert forall j :: 0 <= j < i ==> Ignored(record.headers[j]) ==> !Decides(record.headers[j]);
    if !Ignored(record.headers[i]) {
      FirstHeaderDecides(record, i);
    }
  }

  /** Without such a header the id is the payload's `message_id`, else its `id`, and never the key. */
  lemma {:induction false} PayloadFieldIsId(record: Record)
    requires forall j :: 0 <= j < |record.headers| ==> Ignored(record.headers[j])
    ensures record.body.Object? && record.body.messageId != "" ==> MessageId(record) == Found(record.body.messageId)
    ensures record.body.Object? && record.body.messageId == "" && record.body.id != "" ==>
              MessageId(record) == Found(record.body.id)
    ensures !record.body.Object? || (record.body.messageId == "" && record.body.id == "") ==>
              MessageId(record) == Absent
  {
    assert forall j :: 0 <= j < |record.headers| ==> Ignored(record.headers[j]) ==> !Decides(record.headers[j]);
    NoHeader(record);
  }
}

/**
 The loops of the three clients. Each `await` goes through a `World`, whose precondition is that
 the call is the one the machine makes next; so a verified body makes the machine's calls, in the
 machine's order, whatever is answered.
 */
module Clients {
  import opened Types
  import opened ClientMachine
  import Extraction
  import Protocol

  /** Everything outside the client: store, handler, broker, timer. Its answers are arbitrary. */
  class World {
    const kind: Kind
    const cfg: Config
    var id: Option<Id>           // of the current delivery or call; every store call is made for it
    var log: seq<Exchange>       // its exchanges
    ghost var pc: Pc
    // What the outside world observes, over all deliveries.
    ghost var begun: seq<Option<Id>>
    ghost var handlerCalls: nat
    ghost var commits: nat
    ghost var refusedReclaims: nat

    constructor (kind: Kind, cfg: Config, id: Id)
      ensures this.kind == kind && this.cfg == cfg && Valid()
      ensures this.id == Some(id) && log == [] && pc == Entry(kind, cfg, true)
      ensures begun == [] && handlerCalls == 0 && commits == 0 && refusedReclaims == 0
    {
      this.kind, this.cfg := kind, cfg;
      this.id, log, pc := Some(id), [], Entry(kind, cfg, true);
      begun, handlerCalls, commits, refusedReclaims := [], 0, 0, 0;
    }

    /**
     The machine follows the log to `pc`, and the verdict of a delivery or call that is over is what its log comes to.
     The log is named as a slice so that callers need not unfold the two.
     */
    ghost predicate Valid()
      reads this
    {
      (id.Some? || kind.Consumer?) && Follows(kind, cfg, id, log, pc)
    }

    /** So the log keeps to the protocol. */
    lemma KeepsProtocol()
      requires Valid()
      ensures Protocol.Lawful(kind, cfg, id.Some?, log)
      ensures NextCall(cfg, pc) == Protocol.CallAfter(kind, cfg, id.Some?, log)
      ensures pc.Done? ==> pc.verdict == Protocol.Ending(kind, log)
    {
      assert log[..|log|] == log;
      Protocol.FollowedAreLawful(kind, cfg, id.Some?, log);
      Protocol.MachineKeepsProtocol(kind, cfg, id.Some?, log);
    }

    lemma BeginsEmpty()
      requires Valid() && pc == Checking
      ensures log == []
    {
      assert log[..|log|] == log;
      Protocol.MachineKeepsProtocol(kind, cfg, id.Some?, log);
    }

    static ghost predicate Follows(kind: Kind, cfg: Config, id: Option<Id>, log: seq<Exchange>, pc: Pc) {
      && (forall n: nat :: n == |log| ==>
        Follow(kind, cfg, id.Some?, Entry(kind, cfg, id.Some?), log[..n]) == Some(pc))
      && (forall n: nat :: n == |log| && pc.Done? ==> pc.verdict == Protocol.Ending(kind, log[..n]))
    }

    static lemma Grows(kind: Kind, cfg: Config, id: Option<Id>, log: seq<Exchange>, pc: Pc, x: Exchange)
      requires (id.Some? || kind.Consumer?) && Follows(kind, cfg, id, log, pc)
      requires NextCall(cfg, pc) == Some(x.call) && Fits(x.call, x.answer)
      ensures Follows(kind, cfg, id, log + [x], Advance(kind, cfg, id.Some?, pc, x.answer))
    {
      var log' := log + [x];
      assert log[..|log|] == log && log'[..|log'|] == log';
      FollowOne(kind, cfg, id.Some?, Entry(kind, cfg, id.Some?), log, x);
      Protocol.MachineKeepsProtocol(kind, cfg, id.Some?, log');
    }

    /** A new record is polled, or a new call begins. */
    method Open(id: Option<Id>)
      requires id.Some? || kind.Consumer?
      modifies this
      ensures Valid() && this.id == id && log == []
      ensures pc == Entry(kind, cfg, id.Some?)
      ensures begun == old(begun) + [id]
      ensures handlerCalls == old(handlerCalls) && commits == old(commits) && refusedReclaims == old(refusedReclaims)
    {
      this.id := id;
      log := [];
      pc := Entry(kind, cfg, id.Some?);
      begun := begun + [id];
    }

    method Await(call: Call) returns (a: Answer)
      requires Valid() && NextCall(cfg, pc) == Some(call)
      modifies this
      ensures Valid() && Fits(call, a)
      ensures id == old(id) && begun == old(begun) && log == old(log) + [Exchange(call, a)]
      ensures pc == Advance(kind, cfg, id.Some?, old(pc), a)
      ensures handlerCalls == old(handlerCalls) + if call.CallHandle? then 1 else 0
      ensures commits == old(commits) + if call.CallCommit? && a.Fine? then 1 else 0
      ensures refusedReclaims ==
              old(refusedReclaims) + if old(pc).Reclaiming? && a == Granted(false) then 1 else 0
    {
      var raises: bool := *;
      var won: bool := *;
      var exc: string := *;
      var value: Option<Value> := *;
      var found: Option<Seen> := *;
      match call {
        case CallGetStatus => a := if raises then Exc(exc) else Status(found);
        case CallClaim => a := if raises then Exc(exc) else Granted(won);
        case CallHandle => a := if raises then Exc(exc) else Returned(value);
        case CallSleep(_) => a := Fine;
        case _ => a := if raises then Exc(exc) else Fine;
      }
      Grows(kind, cfg, id, log, pc, Exchange(call, a));
      log := log + [Exchange(call, a)];
      if call.CallHandle? { handlerCalls := handlerCalls + 1; }
      if call.CallCommit? && a.Fine? { commits := commits + 1; }
      if pc.Reclaiming? && a == Granted(false) { refusedReclaims := refusedReclaims + 1; }
      pc := Advance(kind, cfg, id.Some?, pc, a);
    }
  }

  class DedupConsumer {
    const config: Config
    const world: World
    var running: bool
    // Prometheus counters.
    var processed: nat
    var duplicate: nat
    var claimLost: nat
    var noId: nat
    var dlq: nat
    var retries: nat
    ghost var deliveries: nat
    ghost var delivered: seq<Extraction.Record>

    constructor (world: World)
      requires world.kind == Consumer && world.Valid() && world.begun == []
      requires world.handlerCalls == 0 && world.commits == 0 && world.refusedReclaims == 0
      ensures this.world == world && Ready() && Balanced() && running && delivered == []
    {
      this.world, this.config := world, world.cfg;
      running := true;
      processed, duplicate, claimLost, noId, dlq, retries := 0, 0, 0, 0, 0, 0;
      deliveries, delivered := 0, [];
    }

    ghost predicate Ready()
      reads this, world
    {
      world.kind == Consumer && world.cfg == config && world.Valid()
    }

    /**
     Every delivery but the open ones is counted under one outcome and committed once, and every
     handler call but the open ones is accounted for.
     */
    ghost predicate Counted(open: nat, openCalls: int)
      reads this, world
    {
      && processed + duplicate + claimLost + dlq + open == deliveries == world.commits + open
      && (1 <= config.maxRetries ==>
        world.handlerCalls + world.refusedReclaims == processed + dlq + retries + openCalls)
    }

    ghost predicate Balanced()
      reads this, world
    {
      Counted(0, 0)
    }

    /** The ids of records none of which raises. */
    static function Ids(records: seq<Extraction.Record>): seq<Option<Id>> {
      if |records| == 0 then []
      else Ids(records[..|records| - 1]) + [IdOf(records[|records| - 1])]
    }

    static function IdOf(record: Extraction.Record): Option<Id> {
      match Extraction.MessageId(record)
      case Found(id) => Some(id)
      case _ => None
    }

    /**
     From `d0` and `b0` on, exactly the first `n` records have been delivered, in order, and a delivery of each id has
     begun. (The quantifier keeps callers from unfolding this.)
     */
    static ghost predicate InOrder(
      records: seq<Extraction.Record>, n: nat, d0: seq<Extraction.Record>, d: seq<Extraction.Record>,
      b0: seq<Option<Id>>, b: seq<Option<Id>>)
    {
      forall m: nat :: m == n ==> m <= |records| && d == d0 + records[..m] && b == b0 + Ids(records[..m])
    }

    /** The same of a run that a record has ended by raising, before or after its delivery began. */
    static ghost predicate InOrderUntilRaised(
      records: seq<Extraction.Record>, n: nat, d0: seq<Extraction.Record>, d: seq<Extraction.Record>,
      b0: seq<Option<Id>>, b: seq<Option<Id>>)
    {
      forall m: nat :: m == n ==> 1 <= m <= |records| && d == d0 + records[..m] && b == b0 + Ids(Begun(records[..m]))
    }

    /** The records a delivery has begun for: not for one that raises while its id is read. */
    static function Begun(records: seq<Extraction.Record>): seq<Extraction.Record>
      requires |records| > 0
    {
      var last := |records| - 1;
      if Extraction.MessageId(records[last]).Raises? then records[..last] else records
    }

    static lemma OneMore(
      records: seq<Extraction.Record>, n: nat, d0: seq<Extraction.Record>, d: seq<Extraction.Record>,
      b0: seq<Option<Id>>, b: seq<Option<Id>>, d': seq<Extraction.Record>, b': seq<Option<Id>>)
      requires n < |records| && InOrder(records, n, d0, d, b0, b) && d' == d + [records[n]]
      requires b' == if Extraction.MessageId(records[n]).Raises? then b else b + [IdOf(records[n])]
      ensures !Extraction.MessageId(records[n]).Raises? ==> InOrder(records, n + 1, d0, d', b0, b')
      ensures InOrderUntilRaised(records, n + 1, d0, d', b0, b')
    {
      assert records[..n + 1] == records[..n] + [records[n]];
      assert records[..n + 1][..n] == records[..n];
    }

    /** How many of `n` records are delivered unless an exception escapes. */
    static function Due(running: bool, n: nat, stopAt: nat): nat {
      if !running then 0 else if stopAt < n then stopAt else n
    }

    /**
     Delivers the records in order until they end, or until the first one polled after `stop`, which is called before
     record `stopAt`, or until an exception escapes, which no later delivery follows.
     */
    method Run(records: seq<Extraction.Record>, stopAt: nat) returns (escaped: bool, n: nat)
      requires Ready() && Balanced()
      modifies this, world
      ensures Ready()
      ensures !escaped ==>
                && Balanced() && n == Due(old(running), |records|, stopAt)
                && InOrder(records, n, old(delivered), delivered, old(world.begun), world.begun)
      ensures escaped ==>
                && 1 <= n <= Due(old(running), |records|, stopAt)
                && InOrderUntilRaised(records, n, old(delivered), delivered, old(world.begun), world.begun)
                && (Extraction.MessageId(records[n - 1]).Raises? || world.pc == Done(Escaped))
    {
      escaped, n := false, 0;
      ghost var d0, b0 := delivered, world.begun;
      while n < |records|
        invariant Ready() && Balanced() && !escaped
        invariant n <= Due(old(running), |records|, stopAt) && (running ==> old(running))
        invariant running || n == Due(old(running), |records|, stopAt)
        invariant InOrder(records, n, d0, delivered, b0, world.begun)
        decreases |records| - n
      {
        if n == stopAt { running := false; }
        if !running { return; }
        ghost var d, b := delivered, world.begun;
        escaped := ProcessRecord(records[n]);
        OneMore(records, n, d0, d, b0, b, delivered, world.begun);
        n := n + 1;
        if escaped { return; }
      }
    }

    /** The claim of the delivery was refused and get_status found the message in flight, or not. */
    predicate SkippedAs(log: seq<Exchange>, inFlight: bool) {
      && |log| >= 2 && log[0] == Exchange(CallClaim, Granted(false)) && log[1].answer.Status?
      && (InFlight(log[1].answer.found) <==> inFlight)
    }

    predicate InFlight(found: Option<Seen>) { found.Some? && found.value.status == PROCESSING }

    /** A header that cannot be decoded raises before any call is made. */
    method ProcessRecord(record: Extraction.Record) returns (escaped: bool)
      requires Ready() && Balanced()
      modifies this, world
      ensures Ready() && deliveries == old(deliveries) + 1 && delivered == old(delivered) + [record]
      ensures running == old(running)
      ensures !escaped ==> Balanced()
      ensures Extraction.MessageId(record).Raises? ==>
                && escaped && unchanged(world)
                && unchanged(this`processed, this`duplicate, this`claimLost, this`noId, this`dlq, this`retries)
      ensures !Extraction.MessageId(record).Raises? ==>
                && world.pc.Done? && (escaped <==> world.pc == Done(Escaped))
                && world.id == IdOf(record) && world.begun == old(world.begun) + [IdOf(record)]
                && noId == old(noId) + One(Extraction.MessageId(record).Absent?)
                // A refused delivery is counted before its commit, so also when the commit raises.
                && duplicate == old(duplicate) + One(world.id.Some? && SkippedAs(world.log, false))
                && claimLost == old(claimLost) + One(world.id.Some? && SkippedAs(world.log, true))
                && var v := world.pc.verdict;
                && (v.Duplicate? ==> SkippedAs(world.log, false)) && (v.ClaimLost? ==> SkippedAs(world.log, true))
                && (v.Processed? ==> processed == old(processed) + 1 && dlq == old(dlq))
                && (v.DeadLettered? ==> dlq == old(dlq) + 1 && processed == old(processed))
    {
      var extracted := Extraction.ExtractMessageId(record);
      deliveries, delivered := deliveries + 1, delivered + [record];
      if extracted.Raises? { return true; }
      world.Open(if extracted.Found? then Some(extracted.id) else None);
      if extracted.Absent? {
        noId := noId + 1;
        escaped := ExecuteAndCommit();
        return;
      }
      escaped := ProcessIdentified();
    }

    /** The rest for a record with an id: claim it, then handle or skip it. */
    method ProcessIdentified() returns (escaped: bool)
      requires Ready() && world.pc == Claiming && world.log == [] && Counted(1, 0)
      modifies this, world
      ensures Ready() && world.pc.Done? && world.id == old(world.id) && world.begun == old(world.begun)
      ensures unchanged(this`running, this`noId, this`deliveries, this`delivered)
      ensures escaped <==> world.pc == Done(Escaped)
      ensures !escaped ==> Balanced()
      ensures duplicate == old(duplicate) + One(SkippedAs(world.log, false))
      ensures claimLost == old(claimLost) + One(SkippedAs(world.log, true))
      ensures var v := world.pc.verdict;
              && (v.Duplicate? ==> SkippedAs(world.log, false)) && (v.ClaimLost? ==> SkippedAs(world.log, true))
              && (v.Processed? ==> processed == old(processed) + 1 && dlq == old(dlq))
              && (v.DeadLettered? ==> dlq == old(dlq) + 1 && processed == old(processed))
    {
      var claimed := world.Await(CallClaim);
      if claimed.Exc? { return true; }
      if !claimed.won {
        escaped := SkipDelivery();
        return;
      }
      escaped := ExecuteAndCommit();
    }

    /** The claim was refused: count the delivery and commit without handling. */
    method SkipDelivery() returns (escaped: bool)
      requires Ready() && world.pc == Skipping && Counted(1, 0)
      modifies this, world
      ensures Ready() && world.pc.Done? && world.id == old(world.id) && world.begun == old(world.begun)
      ensures unchanged(this`running, this`noId, this`delivered)
      ensures deliveries == old(deliveries) && world.handlerCalls == old(world.handlerCalls)
      ensures escaped <==> world.pc == Done(Escaped)
      ensures !escaped ==> Balanced()
      ensures old(world.log) < world.log
      ensures var status := world.log[|old(world.log)|].answer;
              && world.log[|old(world.log)|].call == CallGetStatus
              && duplicate == old(duplicate) + One(status.Status? && !InFlight(status.found))
              && claimLost == old(claimLost) + One(status.Status? && InFlight(status.found))
              && (world.pc.verdict.ClaimLost? ==> status.Status? && InFlight(status.found))
              && (world.pc.verdict.Duplicate? ==> status.Status? && !InFlight(status.found))
      ensures world.pc.verdict.ClaimLost? || world.pc.verdict.Duplicate? || escaped
      ensures unchanged(this`processed, this`dlq, this`retries)
    {
      var existing := world.Await(CallGetStatus);
      if existing.Exc? { return true; }
      if existing.found.Some? && existing.found.value.status == PROCESSING {
        claimLost := claimLost + 1;
      } else {
        duplicate := duplicate + 1;
      }
      var c := world.Await(CallCommit);
      return c.Exc?;
    }

    method ExecuteAndCommit() returns (escaped: bool)
      requires Ready() && world.pc == EnterLoop(Consumer, config) && Counted(1, 0)
      modifies this, world
      ensures Ready() && world.pc.Done? && world.id == old(world.id) && world.begun == old(world.begun)
      ensures unchanged(this`running, this`noId, this`delivered)
      ensures deliveries == old(deliveries) && duplicate == old(duplicate) && claimLost == old(claimLost)
      ensures old(world.log) <= world.log
      ensures escaped <==> world.pc == Done(Escaped)
      ensures !escaped ==> Balanced()
      ensures world.pc.verdict.Processed? || world.pc.verdict.DeadLettered? || escaped
      ensures world.pc.verdict.Processed? ==> processed == old(processed) + 1 && dlq == old(dlq)
      ensures world.pc.verdict.DeadLettered? ==> dlq == old(dlq) + 1 && processed == old(processed)
    {
      var attempts := 1;
      var lastExc: Option<string> := None;
      while attempts <= config.maxRetries
        invariant Ready() && 1 <= attempts && world.id == old(world.id) && world.begun == old(world.begun)
        invariant unchanged(this`running, this`noId, this`delivered)
        invariant world.pc == if attempts <= config.maxRetries then Handling(attempts) else Dropping(lastExc)
        invariant processed == old(processed) && dlq == old(dlq) && old(world.log) <= world.log
        invariant deliveries == old(deliveries) && duplicate == old(duplicate) && claimLost == old(claimLost)
        invariant Counted(1, if attempts <= config.maxRetries then 0 else 1)
        decreases config.maxRetries - attempts
      {
        var result := world.Await(CallHandle);
        if result.Exc? {
          lastExc := Some(result.exc);
          var refused: bool;
          escaped, refused := FailedAttempt(attempts, result.exc);
          if escaped { return; }
          if refused { break; }
          attempts := attempts + 1;
          continue;
        }
        escaped := CompleteDelivery(result.value);
        return;
      }
      escaped := DeadLetter(lastExc);
    }

    method DeadLetter(cause: Option<string>) returns (escaped: bool)
      requires Ready() && world.pc == Dropping(cause)
      modifies this, world
      ensures Ready() && world.pc == Done(if escaped then Escaped else DeadLettered(cause))
      ensures world.id == old(world.id) && world.begun == old(world.begun) && old(world.log) <= world.log
      ensures unchanged(this`running, this`noId, this`delivered)
      ensures world.handlerCalls == old(world.handlerCalls) && world.refusedReclaims == old(world.refusedReclaims)
      ensures dlq == old(dlq) + 1 && (!escaped ==> world.commits == old(world.commits) + 1)
      ensures unchanged(this`processed, this`duplicate, this`claimLost, this`retries, this`deliveries)
    {
      dlq := dlq + 1;
      var sent := world.Await(CallDlq(cause));
      if sent.Exc? { return true; }
      var c := world.Await(CallCommit);
      return c.Exc?;
    }

    /** The handler raised: record the failure and, if an attempt is left, back off and claim again. */
    method FailedAttempt(attempts: nat, exc: string) returns (escaped: bool, refused: bool)
      requires Ready() && 1 <= attempts <= config.maxRetries && Counted(1, 1)
      requires world.pc ==
               if world.id.Some? then Raised(attempts, exc) else AfterFailure(Consumer, config, attempts, exc)
      modifies this, world
      ensures Ready() && world.id == old(world.id) && old(world.log) <= world.log
      ensures world.begun == old(world.begun) && unchanged(this`running, this`noId, this`delivered)
      ensures unchanged(this`processed, this`dlq, this`duplicate, this`claimLost, this`deliveries)
      ensures if escaped then world.pc == Done(Escaped)
              else if refused || attempts == config.maxRetries then world.pc == Dropping(Some(exc))
              else world.pc == Handling(attempts + 1)
      ensures !escaped ==> Counted(1, if refused || attempts == config.maxRetries then 1 else 0)
    {
      if world.id.Some? {
        var marked := world.Await(CallMarkFailed(exc, attempts));
        if marked.Exc? { return true, false; }
      }
      if attempts < config.maxRetries {
        var _ := world.Await(CallSleep(config.retryBackoffMs * attempts));
        retries := retries + 1;
        if world.id.Some? {
          var reclaimed := world.Await(CallClaim);
          return reclaimed.Exc?, !reclaimed.Exc? && !reclaimed.won;
        }
      }
      return false, false;
    }

    /** An exception of mark_completed is logged and the offset committed all the same. */
    method CompleteDelivery(result: Option<Value>) returns (escaped: bool)
      requires Ready()
      requires world.pc == if world.id.Some? then Succeeded(result) else Committing(Processed(result))
      modifies this, world
      ensures Ready() && world.pc == Done(if escaped then Escaped else Processed(result))
      ensures world.id == old(world.id) && world.begun == old(world.begun) && old(world.log) <= world.log
      ensures unchanged(this`running, this`noId, this`delivered)
      ensures world.handlerCalls == old(world.handlerCalls) && world.refusedReclaims == old(world.refusedReclaims)
      ensures !escaped ==> world.commits == old(world.commits) + 1 && processed == old(processed) + 1
      ensures unchanged(this`dlq, this`duplicate, this`claimLost, this`retries, this`deliveries)
    {
      if world.id.Some? {
        var _ := world.Await(CallMarkCompleted(result));
      }
      var c := world.Await(CallCommit);
      if c.Exc? { return true; }
      processed := processed + 1;
      return false;
    }
  }

  /** What a decorated call does to its caller. */
  datatype Outcome = Value(value: Option<Value>) | RaisedOut(cause: Option<string>)

  predicate FindsCompleted(a: Answer) { a.Status? && a.found.Some? && a.found.value.status == COMPLETED }

  /** What the wrapper does with the end of its call: a result, the function's last exception, or one of the store. */
  ghost predicate Delivers(verdict: Verdict, log: seq<Exchange>, out: Outcome) {
    match verdict
    case Processed(v) => out == Value(v)
    case Cached(v) => out == Value(v)
    case Refused => out == Value(None)
    case Failed(cause) => out == RaisedOut(cause)
    case Escaped =>
      |log| > 0 && log[|log| - 1].answer.Exc? && out == RaisedOut(Some(log[|log| - 1].answer.exc))
    case _ => false
  }

  /** The wrapper of `@idempotent`, from the key on. */
  method IdempotentCall(world: World) returns (out: Outcome)
    requires world.kind == Decorator && world.Valid() && world.pc == Checking && world.id.Some?
    modifies world
    ensures world.Valid() && world.pc.Done? && world.id == old(world.id) && |world.log| > 0
    // A COMPLETED record is the end of the call, and its result is returned.
    ensures forall v :: world.log[0].answer == Status(Some(Seen(COMPLETED, v))) ==> |world.log| == 1 && out == Value(v)
    // After any other status the key is claimed, and a refused claim returns None.
    ensures world.log[0].answer.Status? && !FindsCompleted(world.log[0].answer) ==>
              && |world.log| >= 2 && world.log[1].call == CallClaim
              && (world.log[1].answer == Granted(false) ==> |world.log| == 2 && out == Value(None))
    ensures Delivers(world.pc.verdict, world.log, out)
  {
    world.BeginsEmpty();
    var existing := world.Await(CallGetStatus);
    if existing.Exc? { return RaisedOut(Some(existing.exc)); }
    if existing.found.Some? && existing.found.value.status == COMPLETED {
      return Value(existing.found.value.result);
    }
    var claimed := world.Await(CallClaim);
    if claimed.Exc? { return RaisedOut(Some(claimed.exc)); }
    if !claimed.won { return Value(None); }
    out := CallWithRetries(world);
  }

  /** The wrapper's loop. */
  method CallWithRetries(world: World) returns (out: Outcome)
    requires world.kind == Decorator && world.Valid() && world.pc == EnterLoop(Decorator, world.cfg) && world.id.Some?
    modifies world
    ensures world.Valid() && world.pc.Done? && world.id == old(world.id) && old(world.log) <= world.log
    ensures Delivers(world.pc.verdict, world.log, out)
  {
    var attempts := 1;
    var lastExc: Option<string> := None;
    while attempts <= world.cfg.maxRetries
      invariant world.Valid() && 1 <= attempts && world.id == old(world.id) && old(world.log) <= world.log
      invariant world.pc == if attempts <= world.cfg.maxRetries then Handling(attempts) else Done(Failed(lastExc))
      decreases world.cfg.maxRetries - attempts
    {
      var result := world.Await(CallHandle);
      if result.Exc? {
        lastExc := Some(result.exc);
        var marked := world.Await(CallMarkFailed(result.exc, attempts));
        if marked.Exc? { return RaisedOut(Some(marked.exc)); }
        if attempts < world.cfg.maxRetries {
          var _ := world.Await(CallSleep(world.cfg.retryBackoffMs * attempts));
          var reclaimed := world.Await(CallClaim);
          if reclaimed.Exc? { return RaisedOut(Some(reclaimed.exc)); }
          if !reclaimed.won { break; }
        }
        attempts := attempts + 1;
        continue;
      }
      var _ := world.Await(CallMarkCompleted(result.value));
      return Value(result.value);
    }
    return RaisedOut(lastExc);
  }

  class IdempotencyGuard {
    const world: World
    var alreadyProcessed: bool
    var previousResult: Option<Value>
    var result: Option<Value>

    constructor (world: World)
      ensures this.world == world && !alreadyProcessed && previousResult == None && result == None
    {
      this.world := world;
      alreadyProcessed, previousResult, result := false, None, None;
    }

    /** The block is entered, with a claim won, if neither a COMPLETED record nor a refused claim is in the way. */
    method Enter() returns (escaped: bool)
      requires world.kind == Guard && world.Valid() && world.pc == Checking && world.id.Some?
      requires !alreadyProcessed && previousResult == None
      modifies this, world
      ensures world.Valid() && world.id == old(world.id) && result == old(result) && 1 <= |world.log| <= 2
      ensures escaped <==> world.log[|world.log| - 1].answer.Exc?
      ensures forall v :: world.log[0].answer == Status(Some(Seen(COMPLETED, v))) ==>
                |world.log| == 1 && alreadyProcessed && previousResult == v
      ensures world.log[0].answer.Status? && !FindsCompleted(world.log[0].answer) ==>
                && |world.log| == 2 && world.log[1].call == CallClaim
                && (alreadyProcessed <==> world.log[1].answer == Granted(false)) && previousResult == None
      ensures world.log[0].answer.Exc? ==> !alreadyProcessed && previousResult == None
      ensures !escaped && !alreadyProcessed ==> world.pc == Handling(1)
      ensures escaped || alreadyProcessed ==> world.pc.Done?
    {
      world.BeginsEmpty();
      var existing := world.Await(CallGetStatus);
      if existing.Exc? { return true; }
      if existing.found.Some? && existing.found.value.status == COMPLETED {
        alreadyProcessed := true;
        previousResult := existing.found.value.result;
        return false;
      }
      var claimed := world.Await(CallClaim);
      if claimed.Exc? { return true; }
      if !claimed.won { alreadyProcessed := true; }
      return false;
    }

    /** `excOfBlock` is the exception the guarded block raised, if it did; its value is in `result`. */
    method Exit(excOfBlock: Option<string>) returns (escaped: bool)
      requires world.kind == Guard && world.Valid() && world.id.Some?
      requires
        || alreadyProcessed
        || world.pc == if excOfBlock.Some? then Raised(1, excOfBlock.value) else Succeeded(result)
      modifies world
      ensures world.Valid() && world.id == old(world.id)
      ensures alreadyProcessed ==> !escaped && world.log == old(world.log)
      // One mark: the exception with attempts 1, or the result the block has set.
      ensures !alreadyProcessed ==>
                && |world.log| == |old(world.log)| + 1 && old(world.log) < world.log
                && world.log[|old(world.log)|].call ==
                   (if excOfBlock.Some? then CallMarkFailed(excOfBlock.value, 1) else CallMarkCompleted(result))
                && (escaped <==> world.log[|old(world.log)|].answer.Exc?)
                && world.pc.Done?
      ensures !alreadyProcessed && !escaped ==>
                world.pc == Done(if excOfBlock.Some? then Failed(excOfBlock) else Processed(result))
    {
      if alreadyProcessed { return false; }
      var a: Answer;
      if excOfBlock.Some? {
        a := world.Await(CallMarkFailed(excOfBlock.value, 1));
      } else {
        a := world.Await(CallMarkCompleted(result));
      }
      return a.Exc?;
    }
  }
}
