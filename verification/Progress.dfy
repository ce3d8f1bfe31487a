/** When a running cluster can get stuck, and why an undisturbed one cannot. */
module Progress {
  import opened Prelude
  import opened Control
  import opened Arbiter
  import opened BoardRuntime
  import opened Protocol
  import opened Agreement

  /** The session runs, yet nothing that happens on its own changes the cluster. */
  ghost predicate Deadlocked(cfg: Config, c: Cluster) {
    !c.barrier && c.arb.running &&
    forall a | !IsCommand(a) && Enabled(cfg, c, a) :: Apply(cfg, c, a) == c
  }

  predicate Parked(l: Link) {
    l.inbox == [] && l.outbox == [] && l.node.state.NodeRunning? && Waiting(l.node)
  }

  /** Every queue is empty and every board is parked at its ceiling. */
  predicate Settled(c: Cluster) {
    !c.barrier && c.arb.running && c.drained == NothingDrained && forall b | b in c.links :: Parked(c.links[b])
  }

  /** The session's ceiling is the one its reports give, unless news is still being handled. */
  ghost predicate CeilingCurrent(s: Session, d: Drained) {
    s.running && !StopPending(d) && !d.changed ==> s.allowed == s.ceiling.AllowedNsUntil(s.untilCap)
  }

  predicate NodeHolds(n: Node) {
    (n.sim.allowed.Some? ==> n.sim.allowed.value == n.allowedNs) &&
    (n.state.NodeRunning? ==> n.sim.allowed.Some? && !n.sim.stepOnce)
  }

  /** Facts of every reachable state. */
  ghost predicate GeneralInv(cfg: Config, c: Cluster) {
    AgreeInv(cfg, c) && CeilingCurrent(c.arb, c.drained) && forall b | b in c.links :: NodeHolds(c.links[b].node)
  }

  lemma CollectKeepsCurrent(s: Session, d: Drained, b: BoardId, msg: ControlToArbiter)
    requires CeilingCurrent(s, d)
    ensures var (s', d') := Collect(s, d, b, msg); CeilingCurrent(s', d')
  {
  }

  lemma EffectsAreCurrent(s: Session, d: Drained, a: Action)
    ensures CeilingCurrent(s, d) ==> CeilingCurrent(Finish(s, d).session, NothingDrained)
    ensures IsCommand(a) && CeilingCurrent(s, NothingDrained) ==>
            CeilingCurrent(CommandEffect(s, a).session, NothingDrained)
  {
  }

  lemma NodeHoldsKept(me: BoardId, n: Node, msg: ControlToNode, out: StepOutcome, poll: PollOutcome)
    requires NodeHolds(n)
    ensures NodeHolds(AfterMessage(n, me, msg, out).node)
    ensures NodeHolds(AfterPoll(n, poll).node)
  {
  }

  lemma CurrentKept(cfg: Config, c: Cluster, a: Action)
    requires CeilingCurrent(c.arb, c.drained) && AgreeInv(cfg, c) && Enabled(cfg, c, a)
    ensures CeilingCurrent(Apply(cfg, c, a).arb, Apply(cfg, c, a).drained)
  {
    match a
    case CollectFrom(b) => CollectKeepsCurrent(c.arb, c.drained, b, c.links[b].outbox[0]);
    case FinishRound => EffectsAreCurrent(c.arb, c.drained, a);
    case _ =>
      if IsCommand(a) {
        EffectsAreCurrent(c.arb, NothingDrained, a);
      }
  }

  lemma NodesHold(cfg: Config, c: Cluster, a: Action, x: BoardId)
    requires forall b | b in c.links :: NodeHolds(c.links[b].node)
    requires Enabled(cfg, c, a) && x in c.links
    ensures x in Apply(cfg, c, a).links && NodeHolds(Apply(cfg, c, a).links[x].node)
  {
    match a
    case Deliver(b, out) => NodeHoldsKept(b, c.links[b].node, c.links[b].inbox[0], out, Failed);
    case PollGuest(b, out) => NodeHoldsKept(b, c.links[b].node, Reset, StepFailed, out);
    case _ =>
  }

  lemma GeneralStep(cfg: Config, c: Cluster, a: Action)
    requires GeneralInv(cfg, c) && Enabled(cfg, c, a)
    ensures GeneralInv(cfg, Apply(cfg, c, a))
  {
    AgreeStep(cfg, c, a);
    CurrentKept(cfg, c, a);
    forall x | x in c.links {
      NodesHold(cfg, c, a, x);
    }
  }

  lemma {:induction false} GeneralAlongRun(cfg: Config, actions: seq<Action>)
    requires Exec(cfg, Init(cfg), actions).Some?
    ensures GeneralInv(cfg, Exec(cfg, Init(cfg), actions).value)
    decreases |actions|
  {
    if actions != [] {
      var init := actions[..|actions| - 1];
      GeneralAlongRun(cfg, init);
      GeneralStep(cfg, Exec(cfg, Init(cfg), init).value, actions[|actions| - 1]);
    }
  }

  predicate SimsRun(c: Cluster) {
    forall b | b in c.links && c.links[b].node.state.NodeRunning? :: c.links[b].node.sim.running
  }

  /** A waiting message, a drained round or a board below its ceiling is something that moves. */
  lemma InboxMoves(cfg: Config, c: Cluster, b: BoardId)
    requires GeneralInv(cfg, c) && b in c.links && c.links[b].inbox != []
    ensures Enabled(cfg, c, Deliver(b, StepTimedOut)) && Apply(cfg, c, Deliver(b, StepTimedOut)) != c
  {
    assert Apply(cfg, c, Deliver(b, StepTimedOut)).links[b].inbox == c.links[b].inbox[1..];
  }

  lemma OutboxMoves(cfg: Config, c: Cluster, b: BoardId)
    requires GeneralInv(cfg, c) && !c.barrier && b in c.links && c.links[b].outbox != []
    ensures Enabled(cfg, c, CollectFrom(b)) && Apply(cfg, c, CollectFrom(b)) != c
  {
    assert Apply(cfg, c, CollectFrom(b)).links[b].outbox == c.links[b].outbox[1..];
  }

  lemma RoundMoves(cfg: Config, c: Cluster)
    requires GeneralInv(cfg, c) && !c.barrier && c.drained != NothingDrained
    ensures Enabled(cfg, c, FinishRound) && Apply(cfg, c, FinishRound) != c
  {
    assert Apply(cfg, c, FinishRound).drained == NothingDrained;
  }

  lemma GuestMoves(cfg: Config, c: Cluster, b: BoardId)
    requires GeneralInv(cfg, c) && b in c.links && c.links[b].node.state.NodeRunning?
    requires c.links[b].node.sim.running && !Waiting(c.links[b].node)
    ensures exists a :: !IsCommand(a) && Enabled(cfg, c, a) && Apply(cfg, c, a) != c
  {
    var n := c.links[b].node;
    assert NodeHolds(n);
    var a := PollGuest(b, Quiet(n.sim.allowed.value));
    assert Enabled(cfg, c, a) && Apply(cfg, c, a).links[b].node.clock == n.sim.allowed.value;
  }

  /** In a deadlock every queue is empty and, if no simulator has stopped on its own, every
      board is parked. */
  lemma DeadlockIsQuiet(cfg: Config, c: Cluster, b: BoardId)
    requires GeneralInv(cfg, c) && Deadlocked(cfg, c) && b in c.links
    ensures c.links[b].inbox == [] && c.links[b].outbox == [] && c.drained == NothingDrained
    ensures c.links[b].node.state.NodeRunning?
    ensures c.links[b].node.sim.running ==> Parked(c.links[b])
  {
    if c.links[b].inbox != [] {
      InboxMoves(cfg, c, b);
    }
    if c.links[b].outbox != [] {
      OutboxMoves(cfg, c, b);
    }
    if c.drained != NothingDrained {
      RoundMoves(cfg, c);
    }
    assert LinkAgrees(c.arb, c.links[b]);
    if c.links[b].node.sim.running && !Waiting(c.links[b].node) {
      GuestMoves(cfg, c, b);
    }
  }

  /** Some board has reached the ceiling and the arbiter was never told. */
  predicate StaleReport(c: Cluster) {
    exists b | b in c.links && b in c.arb.ceiling.reports ::
      c.arb.ceiling.reports[b] < c.arb.allowed <= c.links[b].node.clock
  }

  lemma SettledMoves(cfg: Config, c: Cluster)
    requires Shape(cfg, c) && Settled(c)
    ensures (exists a :: !IsCommand(a) && Enabled(cfg, c, a) && Apply(cfg, c, a) != c) <==>
            c.arb.untilCap.Some? && c.arb.ceiling.VirtualTimeNs() >= c.arb.untilCap.value
  {
    forall a | !IsCommand(a) && Enabled(cfg, c, a)
      ensures a == FinishRound
    {
    }
    var e := Finish(c.arb, c.drained);
    if c.arb.untilCap.Some? && c.arb.ceiling.VirtualTimeNs() >= c.arb.untilCap.value {
      assert !Apply(cfg, c, FinishRound).arb.running;
    } else {
      assert e == Effect(c.arb, []);
      assert Broadcast(c.links, []) == c.links;
    }
  }

  /** Exactly when a cluster is stuck, whatever its history: it is settled and the last report
      of some board is below the ceiling its clock has already reached. A parked board sends
      nothing, so that report never changes. */
  lemma StuckIffStaleReport(cfg: Config, actions: seq<Action>)
    requires cfg.Valid() && Exec(cfg, Init(cfg), actions).Some?
    requires SimsRun(Exec(cfg, Init(cfg), actions).value)
    requires 0 < cfg.marginNs
    requires Exec(cfg, Init(cfg), actions).value.arb.ceiling.VirtualTimeNs() + cfg.marginNs <= U64_MAX
    ensures var c := Exec(cfg, Init(cfg), actions).value;
            Deadlocked(cfg, c) <==>
            Settled(c) && StaleReport(c)
  {
    GeneralAlongRun(cfg, actions);
    var c := Exec(cfg, Init(cfg), actions).value;
    if Deadlocked(cfg, c) {
      forall b | b in c.links
        ensures Parked(c.links[b])
      {
        DeadlockIsQuiet(cfg, c, b);
      }
      var b :| b in cfg.boards;
      assert b in c.links;
      DeadlockIsQuiet(cfg, c, b);
      assert Settled(c);
    }
    if Settled(c) {
      StaleWhenSettled(cfg, c);
      SettledMoves(cfg, c);
    }
  }

  lemma StaleWhenSettled(cfg: Config, c: Cluster)
    requires cfg.Valid() && GeneralInv(cfg, c) && Settled(c)
    requires 0 < cfg.marginNs && c.arb.ceiling.VirtualTimeNs() + cfg.marginNs <= U64_MAX
    ensures !(c.arb.untilCap.Some? && c.arb.ceiling.VirtualTimeNs() >= c.arb.untilCap.value) <==>
            StaleReport(c)
  {
    var reports := c.arb.ceiling.reports;
    var least :| least in reports && reports[least] == c.arb.ceiling.VirtualTimeNs();
    forall b | b in c.links
      ensures c.arb.allowed <= c.links[b].node.clock
    {
      assert LinkAgrees(c.arb, c.links[b]) && Parked(c.links[b]) && NodeHolds(c.links[b].node);
    }
    assert forall b | b in reports :: reports[least] <= reports[b];
  }
}
