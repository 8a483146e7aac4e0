/** Every client of a deployment follows the client machine, so the laws of the machine hold in every run. */
module ClientRuns {
  import opened Types
  import opened ClientMachine
  import opened Deployment

  /** What client `c` has exchanged since it last began a delivery or a call. */
  function Exchanges(cfg: Config, s0: State, r: Run, c: Cid): seq<Exchange> {
    if r.Begins? then []
    else
      var log, s := Exchanges(cfg, s0, r.prefix, c), Before(cfg, s0, r);
      match r.step
      case Begin(d, _) => if d == c then [] else log
      case Crash(d) => if d == c then [] else log
      case Await(d, fate) =>
        if d == c && c in s.clients && NextOf(cfg, s.clients[c]).Some?
        then log + [Exchange(NextOf(cfg, s.clients[c]).value, AnswerOf(cfg, s.store, s.us, s.clients[c], fate))]
        else log
      case _ => log
  }

  /** Every call on the store is made for an id. */
  predicate HasId(cl: Client) {
    cl.pc.Checking? || cl.pc.Claiming? || cl.pc.Skipping? || cl.pc.Raised? || cl.pc.Reclaiming? || cl.pc.Succeeded?
    ==> cl.id.Some?
  }

  ghost predicate Follows(cfg: Config, log: seq<Exchange>, cl: Client) {
    cl.pc.Idle? ||
    Follow(cl.kind, cfg, cl.id.Some?, ClientMachine.Entry(cl.kind, cfg, cl.id.Some?), log) == Some(cl.pc)
  }

  lemma {:induction false} HasIdStep(cfg: Config, s: State, st: Step, c: Cid)
    requires Enabled(cfg, s, st) && c in s.clients && HasId(s.clients[c])
    ensures HasId(Next(cfg, s, st).clients[c])
  {
  }

  /** In every run, over either store, the exchanges of a client since it began are a log of the machine. */
  lemma {:induction false} ClientsFollow(cfg: Config, s0: State, r: Run, c: Cid)
    requires Initial(s0) && Legal(cfg, s0, r) && c in s0.clients
    ensures c in After(cfg, s0, r).clients && HasId(After(cfg, s0, r).clients[c])
    ensures Follows(cfg, Exchanges(cfg, s0, r, c), After(cfg, s0, r).clients[c])
  {
    if r.Extend? {
      ClientsFollow(cfg, s0, r.prefix, c);
      var s := Before(cfg, s0, r);
      HasIdStep(cfg, s, r.step, c);
      if r.step.Await? && r.step.c == c {
        var cl := s.clients[c];
        FollowOne(cl.kind, cfg, cl.id.Some?, ClientMachine.Entry(cl.kind, cfg, cl.id.Some?),
                  Exchanges(cfg, s0, r.prefix, c),
                  Exchange(NextOf(cfg, cl).value, AnswerOf(cfg, s.store, s.us, cl, r.step.fate)));
      }
    }
  }

  /** So under any interference one delivery or call handles at most `max_retries` times, and never after a success. */
  lemma {:induction false} DeliveryLaws(cfg: Config, s0: State, r: Run, c: Cid)
    requires Initial(s0) && Legal(cfg, s0, r) && c in s0.clients
    requires c in After(cfg, s0, r).clients && !After(cfg, s0, r).clients[c].pc.Idle?
    ensures var cl, log := After(cfg, s0, r).clients[c], Exchanges(cfg, s0, r, c);
            && PositionTells(cl.kind, cfg, log, cl.pc)
            && forall i, j :: 0 <= i < j < |log| && HandlerReturned(log, i) ==> !log[j].call.CallHandle?
  {
    ClientsFollow(cfg, s0, r, c);
    var cl, log := After(cfg, s0, r).clients[c], Exchanges(cfg, s0, r, c);
    RetryArithmetic(cl.kind, cfg, cl.id.Some?, log);
    forall i, j | 0 <= i < j < |log| && HandlerReturned(log, i) ensures !log[j].call.CallHandle? {
      NoRerunAfterSuccess(cl.kind, cfg, cl.id.Some?, ClientMachine.Entry(cl.kind, cfg, cl.id.Some?), log, i);
    }
  }
}
