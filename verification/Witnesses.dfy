/** How the runs of `Findings` are built: a run is followed through the states and the deeds it reaches. */
module Witnesses {
  import opened Types
  import opened ClientMachine
  import opened RedisSpec
  import opened StoreTrace
  import opened Deployment
  import opened Deliveries
  import opened Exclusion

  const M: Id := "m"

  /** A consumer whose partition holds one record, the message M. */
  function Reader(): Client { Client(Consumer, [Some(M)], 0, 0, None, Idle, 0) }

  /** Two consumers, with M in the partition of each. */
  function Two(): State { State(0, Redis(map[]), map[0 := Reader(), 1 := Reader()]) }

  // A run is followed through a predicate that is kept by every step, so that each lemma below looks at states only.

  type Follower = (State, Deeds) -> bool

  /** `p` is kept by every enabled step; if `timely`, by every step within the lease contract. */
  ghost predicate Kept(cfg: Config, timely: bool, p: Follower) {
    forall s, deeds, st {:trigger p(s, deeds), DeedsNext(s, deeds, st)} |
      p(s, deeds) && Enabled(cfg, s, st) && (timely ==> SpareDelete(s, st, M) && Timely(cfg, Next(cfg, s, st), M)) ::
      p(Next(cfg, s, st), DeedsNext(s, deeds, st))
  }

  function DeedsNext(s: State, deeds: Deeds, st: Step): Deeds {
    if st.Await? && st.c in s.clients && s.clients[st.c].id == Some(M)
    then Deed(deeds, s.clients[st.c], st.fate) else deeds
  }

  function Did(calls: nat, successes: nat, drops: nat): Deeds { Deeds(calls, successes, drops) }

  function NoDeeds(): Deeds { Did(0, 0, 0) }

  /** Handled and marked, about to commit. */
  function Marked(value: Option<Value>): Pc { Committing(Processed(value)) }

  ghost predicate Witness(cfg: Config, timely: bool, s0: State, r: Run, s: State, deeds: Deeds) {
    && Initial(s0) && Legal(cfg, s0, r) && After(cfg, s0, r) == s
    && DeedsOf(cfg, s0, r, M) == deeds
    && (timely ==> TimelyRun(cfg, s0, r, M))
  }

  /** Some run from `s0` ends in `s`, with these handler calls for M. */
  ghost predicate Possible(cfg: Config, timely: bool, s0: State, s: State, deeds: Deeds) {
    exists r :: Witness(cfg, timely, s0, r, s, deeds)
  }

  lemma Extendable(cfg: Config, timely: bool, s0: State, s: State, deeds: Deeds, st: Step)
    requires Possible(cfg, timely, s0, s, deeds) && Enabled(cfg, s, st)
    requires timely ==> SpareDelete(s, st, M) && Timely(cfg, Next(cfg, s, st), M)
    ensures Possible(cfg, timely, s0, Next(cfg, s, st), DeedsNext(s, deeds, st))
  {
    var r :| Witness(cfg, timely, s0, r, s, deeds);
    assert Witness(cfg, timely, s0, Extend(r, st), Next(cfg, s, st), DeedsNext(s, deeds, st));
  }

  lemma RunsAreKept(cfg: Config, timely: bool, s0: State)
    requires Initial(s0)
    ensures Kept(cfg, timely, (s, d) => Possible(cfg, timely, s0, s, d))
    ensures Possible(cfg, timely, s0, s0, NoDeeds())
  {
    forall s, d, st |
      Possible(cfg, timely, s0, s, d) && Enabled(cfg, s, st) &&
      (timely ==> SpareDelete(s, st, M) && Timely(cfg, Next(cfg, s, st), M))
      ensures Possible(cfg, timely, s0, Next(cfg, s, st), DeedsNext(s, d, st))
    {
      Extendable(cfg, timely, s0, s, d, st);
    }
    assert Witness(cfg, timely, s0, Begins, s0, NoDeeds());
  }

  lemma Move(
    cfg: Config, timely: bool, p: Follower, s: State, deeds: Deeds, st: Step, s': State, deeds': Deeds)
    requires Kept(cfg, timely, p) && p(s, deeds) && Enabled(cfg, s, st)
    requires s' == Next(cfg, s, st) && deeds' == DeedsNext(s, deeds, st)
    requires timely ==> SpareDelete(s, st, M) && Timely(cfg, s', M)
    ensures p(s', deeds')
  {
  }

  /** Both consumers and the record of M. */
  function Cells(us: nat, e: Entry, c0: Client, c1: Client): State {
    State(us, Redis(map[M := e]), map[0 := c0, 1 := c1])
  }

  /** A consumer with M delivered and not committed. */
  function At(pc: Pc, claimedAt: nat): Client { Client(Consumer, [Some(M)], 1, 0, Some(M), pc, claimedAt) }

  lemma Overwrite(e: Entry, e': Entry)
    ensures map[M := e][M := e'] == map[M := e']
  {
  }

  function First(cfg: Config): Entry { ClaimedEntry(cfg, None, 0) }

  function Held(cfg: Config): State { Cells(0, First(cfg), At(Handling(1), 0), Reader()) }

  /** Consumer 0 wins the first claim, at time 0. */
  lemma FirstClaim(cfg: Config, timely: bool, p: Follower)
    requires Kept(cfg, timely, p) && p(Two(), NoDeeds())
    requires 1 <= cfg.maxRetries && (timely ==> 1 <= cfg.processingTimeoutSeconds)
    ensures p(Held(cfg), NoDeeds())
  {
    var s1 := State(0, Redis(map[]), map[0 := At(Claiming, 0), 1 := Reader()]);
    Move(cfg, timely, p, Two(), NoDeeds(), Begin(0, Some(M)), s1, NoDeeds());
    Move(cfg, timely, p, s1, NoDeeds(), Await(0, Ok), Held(cfg), NoDeeds());
  }
}
