/** What to check before a quiet cluster is started, reset or stepped, so that it does not get
    stuck. */
module Openings {
  import opened Prelude
  import opened Control
  import opened Lifecycle
  import opened Arbiter
  import opened BoardRuntime
  import opened Protocol
  import opened Agreement
  import opened Reach
  import opened Hearing
  import opened Drive
  import opened Slipping
  import opened Sticking
  import opened SoundSessions
  import opened StuckIff

  /** A stopped cluster with nothing on its way. */
  predicate AtRest(c: Cluster) {
    !c.barrier && !c.arb.running && c.drained == NothingDrained &&
    forall b | b in c.links :: c.links[b].inbox == [] && c.links[b].outbox == []
  }

  /** No report is ahead of its board's clock. */
  predicate Honest(c: Cluster) {
    forall b | b in c.links && b in c.arb.ceiling.reports :: c.arb.ceiling.reports[b] <= c.links[b].node.clock
  }

  /** The board stands at the ceiling that its report will allow, and the report is below the
      limit. */
  predicate Late(cfg: Config, clock: u64, report: u64, limit: u64) {
    report < limit && TopFor(cfg, report, limit) <= clock
  }

  /** All that is left for the board to read makes it run up to `a`. */
  predicate Opened(b: BoardId, l: Link, a: u64) {
    l.outbox == [] && QuietOf(b, l) == Prospect(NodeRunning, true, a, if l.node.clock <= a then a else l.node.clock)
  }

  ghost predicate AllOpened(cfg: Config, c: Cluster) {
    c.drained.clusterStop.None? && c.links.Keys == c.arb.ceiling.reports.Keys &&
    forall b | b in c.links && b in c.arb.ceiling.reports ::
      OpenedWithin(cfg, b, c.links[b], c.arb.allowed, c.arb.ceiling.reports[b], Limit(c.arb))
  }

  /** The ceiling is one that the board's report allows, and the board cannot slip below it. */
  ghost predicate OpenedWithin(cfg: Config, b: BoardId, l: Link, a: u64, report: u64, limit: u64) {
    Opened(b, l, a) && a <= TopFor(cfg, report, limit) && !MaySlip(cfg, b, l, report, limit)
  }

  predicate SomeLate(cfg: Config, c: Cluster) {
    exists b | b in c.links && b in c.arb.ceiling.reports ::
      Late(cfg, c.links[b].node.clock, c.arb.ceiling.reports[b], Limit(c.arb))
  }

  lemma ProneIffLate(cfg: Config, b: BoardId, l: Link, a: u64, report: u64, limit: u64)
    requires 0 < cfg.thresholdNs && OpenedWithin(cfg, b, l, a, report, limit)
    ensures Prone(cfg, b, l, report, limit) <==> Late(cfg, l.node.clock, report, limit)
  {
  }

  lemma SomeProneIffLate(cfg: Config, c: Cluster)
    requires 0 < cfg.thresholdNs && AllOpened(cfg, c)
    ensures SomeProne(cfg, c) <==> SomeLate(cfg, c)
    ensures !StopComing(c)
  {
    forall b | b in c.links && b in c.arb.ceiling.reports
      ensures Prone(cfg, b, c.links[b], c.arb.ceiling.reports[b], Limit(c.arb)) <==>
              Late(cfg, c.links[b].node.clock, c.arb.ceiling.reports[b], Limit(c.arb))
    {
      ProneIffLate(cfg, b, c.links[b], c.arb.allowed, c.arb.ceiling.reports[b], Limit(c.arb));
    }
  }

  lemma OpenedSticksIffLate(cfg: Config, actions: seq<Action>, c: Cluster)
    requires cfg.Valid() && 0 < cfg.marginNs && 0 < cfg.thresholdNs
    requires Exec(cfg, Init(cfg), actions) == Some(c) && c.arb.running && AllOpened(cfg, c) && NoneLifted(c)
    ensures SomeLate(cfg, c) <==> exists more :: Sticks(cfg, c, more)
  {
    SomeProneIffLate(cfg, c);
    UnliftedIsAnchored(cfg, c);
    SticksIffProne(cfg, actions);
  }

  // ---- what a stopped board does with the messages of an opening ----

  lemma ReadStopped(b: BoardId, n: Node, m: ControlToNode, rest: seq<ControlToNode>)
    requires n.state.NodeStopped? && (m.ClusterStop? || m.Reset? || (m.GdbStep? && m.board != b))
    ensures QuietOf(b, Link(n, [m] + rest, [])) == QuietOf(b, Link(n, rest, []))
  {
    assert ([m] + rest)[1..] == rest;
    assert Take(ProspectOf(n), b, m, 0) == ProspectOf(n);
  }

  lemma ReadStart(b: BoardId, n: Node, a: u64)
    requires n.state.NodeStopped?
    ensures Opened(b, Link(n, [Start(a)], []), a)
  {
    var p, rest: seq<ControlToNode> := ProspectOf(n), [];
    var q := Take(p, b, Start(a), 0);
    assert [Start(a)][1..] == rest;
    assert Ahead(p, b, [Start(a)], 0) == Ahead(q, b, rest, 0) == Idle(q);
  }

  lemma StoppedLink(cfg: Config, c: Cluster, b: BoardId)
    requires FactsHold(cfg, c) && AtRest(c) && b in c.links
    ensures c.links[b].node.state.NodeStopped? && c.links[b] == Link(c.links[b].node, [], [])
    ensures b in c.arb.ceiling.reports && b in c.arb.peers
  {
    assert LinkAgrees(c.arb, c.links[b]);
  }

  // ---- a start ----

  /** One opening is all that is queued for a stopped board. */
  lemma StartedLink(cfg: Config, b: BoardId, n: Node, report: u64, a: u64, limit: u64)
    requires n.state.NodeStopped? && report <= n.clock && a <= TopFor(cfg, report, limit)
    ensures OpenedWithin(cfg, b, Link(n, [Start(a)], []), a, report, limit) && Unlifted(Link(n, [Start(a)], []), report)
  {
    ReadStart(b, n, a);
  }

  lemma StartedBoard(cfg: Config, c: Cluster, until: Option<u64>, a: u64, b: BoardId)
    requires FactsHold(cfg, c) && AtRest(c) && Honest(c) && b in c.links && a == c.arb.ceiling.AllowedNsUntil(until)
    ensures var l := c.links[b].(inbox := c.links[b].inbox + [Start(a)]);
            b in c.arb.ceiling.reports && Unlifted(l, c.arb.ceiling.reports[b]) &&
            OpenedWithin(cfg, b, l, a, c.arb.ceiling.reports[b], until.GetOr(U64_MAX))
  {
    StoppedLink(cfg, c, b);
    assert c.links[b].inbox + [Start(a)] == [Start(a)];
    CeilingBetween(cfg, c.arb.ceiling, until, b, 0);
    StartedLink(cfg, b, c.links[b].node, c.arb.ceiling.reports[b], a, until.GetOr(U64_MAX));
  }

  predicate SomeLateFor(cfg: Config, c: Cluster, limit: u64) {
    exists b | b in c.links && b in c.arb.ceiling.reports ::
      Late(cfg, c.links[b].node.clock, c.arb.ceiling.reports[b], limit)
  }

  lemma StartLinks(cfg: Config, c: Cluster, until: Option<u64>, a: u64, d: Cluster)
    requires FactsHold(cfg, c) && AtRest(c) && Honest(c) && a == c.arb.ceiling.AllowedNsUntil(until)
    requires d.arb.ceiling == c.arb.ceiling && d.arb.untilCap == until && d.arb.allowed == a
    requires d.links == Broadcast(c.links, [Start(a)]) && d.drained == NothingDrained
    ensures AllOpened(cfg, d) && NoneLifted(d)
    ensures SomeLate(cfg, d) <==> SomeLateFor(cfg, c, until.GetOr(U64_MAX))
  {
    forall b | b in c.links
      ensures b in c.arb.ceiling.reports && Unlifted(d.links[b], c.arb.ceiling.reports[b])
      ensures OpenedWithin(cfg, b, d.links[b], a, c.arb.ceiling.reports[b], Limit(d.arb))
    {
      StartedBoard(cfg, c, until, a, b);
    }
  }

  /** Starting a quiet cluster, capped or not, can get it stuck if and only if some board stands
      at or past the cap, or a margin past its report, and its report is below the cap. */
  lemma StartSticksIffLate(cfg: Config, actions: seq<Action>, until: Option<u64>)
    requires cfg.Valid() && 0 < cfg.marginNs && 0 < cfg.thresholdNs && Exec(cfg, Init(cfg), actions).Some?
    requires var c := Exec(cfg, Init(cfg), actions).value;
             AtRest(c) && Honest(c) && (until.Some? ==> c.arb.ceiling.VirtualTimeNs() < until.value)
    ensures var c := Exec(cfg, Init(cfg), actions).value;
            SomeLateFor(cfg, c, until.GetOr(U64_MAX)) <==>
            exists more :: Sticks(cfg, Apply(cfg, c, CmdStart(until)), more)
  {
    var c := Exec(cfg, Init(cfg), actions).value;
    var d := Apply(cfg, c, CmdStart(until));
    FactsAlongRun(cfg, actions);
    ExecMore(cfg, Init(cfg), actions, CmdStart(until));
    StartOutcome(c.arb, until);
    StartLinks(cfg, c, until, c.arb.ceiling.AllowedNsUntil(until), d);
    OpenedSticksIffLate(cfg, actions + [CmdStart(until)], d);
  }

  // ---- a Reset ----

  /** Under the ceiling after a Reset no board reports a time a threshold below the lifted one. */
  lemma ResetSlips(cfg: Config, b: BoardId, n: Node, now: u64, a: u64)
    requires 0 < cfg.thresholdNs && n.state.NodeStopped? && now < U64_MAX && a == SatAdd(now, cfg.marginNs)
    ensures !Slips(cfg, ProspectOf(n), n.lastReport, b, [ClusterStop(ExternalStop), Reset, Start(a)], now, U64_MAX)
  {
    var p, none: seq<ControlToNode> := ProspectOf(n), [];
    var s1, s2, s3 := [ClusterStop(ExternalStop), Reset, Start(a)], [Reset, Start(a)], [Start(a)];
    assert s1[1..] == s2 && s2[1..] == s3 && s3[1..] == none;
    assert Unrun(p, b, s1[0]) == p && Unrun(p, b, s2[0]) == p;
    var q := Unrun(p, b, s3[0]);
    forall t: u64 ensures !SlipsAt(cfg, q, None, b, none, t, now, U64_MAX) {
      assert Ahead(q.(hi := t), b, none, 0) == Idle(q.(hi := t));
    }
    assert !Slips(cfg, q, None, b, none, now, U64_MAX);
    assert !Slips(cfg, p, None, b, s3, now, U64_MAX);
    assert !Slips(cfg, p, n.lastReport, b, s2, now, U64_MAX);
  }

  lemma ResetLink(cfg: Config, b: BoardId, n: Node, report: u64, now: u64, a: u64)
    requires 0 < cfg.thresholdNs && n.state.NodeStopped? && report <= n.clock && now < U64_MAX &&
             a == SatAdd(now, cfg.marginNs)
    ensures OpenedWithin(cfg, b, Link(n, [ClusterStop(ExternalStop), Reset, Start(a)], []), a, Lifted(report, now),
            U64_MAX)
  {
    var sent := [ClusterStop(ExternalStop), Reset, Start(a)];
    assert sent == [ClusterStop(ExternalStop)] + ([Reset] + [Start(a)]);
    ReadStart(b, n, a);
    ReadStopped(b, n, Reset, [Start(a)]);
    ReadStopped(b, n, ClusterStop(ExternalStop), [Reset] + [Start(a)]);
    if MaySlip(cfg, b, Link(n, sent, []), Lifted(report, now), U64_MAX) {
      ResetSlips(cfg, b, n, now, a);
    }
  }

  /** Some board stands a margin past what its report will be after the Reset. */
  ghost predicate SomeLateForReset(cfg: Config, c: Cluster) {
    exists b | b in c.links && b in c.arb.ceiling.reports ::
      Late(cfg, c.links[b].node.clock, Lifted(c.arb.ceiling.reports[b], ResumeAt(c.arb)), U64_MAX)
  }

  lemma ResetBoard(cfg: Config, c: Cluster, b: BoardId, e: Effect, now: u64, a: u64)
    requires 0 < cfg.thresholdNs && FactsHold(cfg, c) && AtRest(c) && Honest(c) && now < U64_MAX && b in c.links
    requires e.sent == [ClusterStop(ExternalStop), Reset, Start(a)] && a == SatAdd(now, cfg.marginNs)
    ensures b in c.arb.ceiling.reports
    ensures OpenedWithin(cfg, b, c.links[b].(inbox := c.links[b].inbox + e.sent), a,
                         Lifted(c.arb.ceiling.reports[b], now), U64_MAX)
  {
    StoppedLink(cfg, c, b);
    assert c.links[b].inbox + e.sent == e.sent;
    ResetLink(cfg, b, c.links[b].node, c.arb.ceiling.reports[b], now, a);
  }

  lemma ResetLinks(cfg: Config, c: Cluster, e: Effect, a: u64, d: Cluster)
    requires 0 < cfg.thresholdNs && FactsHold(cfg, c) && AtRest(c) && Honest(c) && ResumeAt(c.arb) < U64_MAX
    requires e.sent == [ClusterStop(ExternalStop), Reset, Start(a)] && a == SatAdd(ResumeAt(c.arb), cfg.marginNs)
    requires d.arb.ceiling == c.arb.ceiling.AdvancedTo(ResumeAt(c.arb)) && d.arb.untilCap == None && d.arb.allowed == a
    requires d.links == Broadcast(c.links, e.sent) && d.drained == NothingDrained
    ensures AllOpened(cfg, d) && (SomeLate(cfg, d) <==> SomeLateForReset(cfg, c))
  {
    forall b | b in c.links
      ensures b in c.arb.ceiling.reports && OpenedWithin(cfg, b, d.links[b], a, d.arb.ceiling.reports[b], U64_MAX)
    {
      ResetBoard(cfg, c, b, e, ResumeAt(c.arb), a);
    }
    LateAfterReset(cfg, c, e.sent, d);
  }

  lemma LateAfterReset(cfg: Config, c: Cluster, sent: seq<ControlToNode>, d: Cluster)
    requires d.arb.ceiling == c.arb.ceiling.AdvancedTo(ResumeAt(c.arb)) && d.arb.untilCap == None
    requires d.links == Broadcast(c.links, sent)
    ensures SomeLate(cfg, d) <==> SomeLateForReset(cfg, c)
  {
    forall b | b in c.links && b in c.arb.ceiling.reports
      ensures d.arb.ceiling.reports[b] == Lifted(c.arb.ceiling.reports[b], ResumeAt(c.arb))
      ensures d.links[b].node == c.links[b].node
    {
    }
  }

  lemma ResetOpens(cfg: Config, c: Cluster, e: Effect, d: Cluster)
    requires cfg.Valid() && 0 < cfg.thresholdNs && FactsHold(cfg, c) && AtRest(c) && Honest(c) &&
             ResumeAt(c.arb) < U64_MAX
    requires e == ApplyReset(c.arb) && d == Commit(c, e)
    ensures !StopComing(d) && (SomeProne(cfg, d) <==> SomeLateForReset(cfg, c))
  {
    ResetSession(c.arb);
    var b0 :| b0 in cfg.boards;
    ResetLinks(cfg, c, e, e.session.allowed, d);
    SomeProneIffLate(cfg, d);
  }

  lemma RestIsUnlifted(c: Cluster)
    requires AtRest(c) && Honest(c)
    ensures NoneLifted(c)
  {
  }

  /** Resetting a quiet cluster can get it stuck if and only if some board stands a margin past
      its report and past the time the Reset goes on from. */
  lemma ResetSticksIffLate(cfg: Config, actions: seq<Action>)
    requires cfg.Valid() && 0 < cfg.marginNs && 0 < cfg.thresholdNs && Exec(cfg, Init(cfg), actions).Some?
    requires var c := Exec(cfg, Init(cfg), actions).value;
             AtRest(c) && Honest(c) && CeilingWithin(c.arb) && ResumeAt(c.arb) < U64_MAX
    ensures var c := Exec(cfg, Init(cfg), actions).value;
            SomeLateForReset(cfg, c) <==> exists more :: Sticks(cfg, Apply(cfg, c, CmdReset), more)
  {
    var c := Exec(cfg, Init(cfg), actions).value;
    FactsAlongRun(cfg, actions);
    RestIsUnlifted(c);
    UnliftedIsResettable(cfg, c);
    ResetSticksIffProne(cfg, actions);
    var d := ResetExec(cfg, actions, c);
    ResetOpens(cfg, c, ApplyReset(c.arb), d);
  }

  // ---- a gdb step ----

  /** A step that takes board `b` to `t`, up to the session that lets the others catch up. */
  function StepOf(b: BoardId, t: u64, reason: HostStopReason): seq<Action> {
    [CmdStep(b)] + [Deliver(b, Stepped(t, reason))] + [CollectFrom(b)] + [CollectFrom(b)] + [FinishRound]
  }

  function SteppedNode(n: Node, t: u64): Node {
    n.(clock := t, lastReport := Some(t), sim := n.sim.(running := false, stepOnce := false))
  }

  /** The cluster while board `b` has stepped to `t` and `outbox` of it is still to be collected. */
  predicate Stepping(c: Cluster, d: Cluster, b: BoardId, t: u64, told: bool, outbox: seq<ControlToArbiter>)
    requires b in c.links && b in c.arb.ceiling.reports
  {
    !d.barrier && !d.arb.running && d.arb.gdb == Some(WaitInsn(b)) && d.drained.clusterStop.None? &&
    d.arb.peers.Keys == c.arb.peers.Keys && d.arb.ceiling.marginNs == c.arb.ceiling.marginNs &&
    d.arb.ceiling.reports == (if told then c.arb.ceiling.reports[b := t] else c.arb.ceiling.reports) &&
    d.links.Keys == c.links.Keys && d.links[b] == Link(SteppedNode(c.links[b].node, t), [], outbox) &&
    forall x | x in c.links && x != b :: d.links[x] == Link(c.links[x].node, [GdbStep(b)], [])
  }

  lemma StepSent(cfg: Config, c: Cluster, b: BoardId, c1: Cluster)
    requires FactsHold(cfg, c) && AtRest(c) && b in c.links && c1 == Apply(cfg, c, CmdStep(b))
    ensures b in c.arb.ceiling.reports && b in c.arb.peers
    ensures c1.links.Keys == c.links.Keys && c1.arb == c.arb.(gdb := Some(WaitInsn(b))) &&
            c1 == c.(arb := c1.arb, links := c1.links)
    ensures forall x | x in c.links :: c1.links[x] == Link(c.links[x].node, [GdbStep(b)], [])
    ensures c.links[b].node.state.NodeStopped?
  {
    StoppedLink(cfg, c, b);
    forall x | x in c.links ensures c1.links[x] == Link(c.links[x].node, [GdbStep(b)], []) {
      StoppedLink(cfg, c, x);
      assert c.links[x].inbox + [GdbStep(b)] == [GdbStep(b)];
    }
  }

  lemma StepTaken(b: BoardId, n: Node, t: u64, reason: HostStopReason)
    requires n.state.NodeStopped?
    ensures LinkAfterDeliver(b, Link(n, [GdbStep(b)], []), Stepped(t, reason)) ==
            Link(SteppedNode(n, t), [], [TimeReport(t), HostStop(reason)])
  {
    var none: seq<ControlToArbiter> := [];
    assert none + [TimeReport(t), HostStop(reason)] == [TimeReport(t), HostStop(reason)];
    assert [GdbStep(b)][1..] == [];
  }

  lemma StepStarts(cfg: Config, c: Cluster, b: BoardId, t: u64, reason: HostStopReason) returns (d: Cluster)
    requires FactsHold(cfg, c) && AtRest(c) && b in c.links &&
             StepPossible(c.links[b].node, Stepped(t, reason), cfg.stepBound)
    ensures b in c.arb.ceiling.reports && b in c.arb.peers
    ensures Exec(cfg, c, [CmdStep(b)] + [Deliver(b, Stepped(t, reason))]) == Some(d)
    ensures Stepping(c, d, b, t, false, [TimeReport(t), HostStop(reason)]) && d.arb.peers == c.arb.peers
  {
    var c1 := Apply(cfg, c, CmdStep(b));
    StepSent(cfg, c, b, c1);
    StepTaken(b, c.links[b].node, t, reason);
    d := c1.(links := c1.links[b := Link(SteppedNode(c.links[b].node, t), [], [TimeReport(t), HostStop(reason)])]);
    ExecFirst(cfg, c, CmdStep(b), []);
    assert [CmdStep(b)] + [] == [CmdStep(b)];
    ExecMore(cfg, c, [CmdStep(b)], Deliver(b, Stepped(t, reason)));
  }

  lemma StepTold(cfg: Config, c: Cluster, b: BoardId, t: u64, reason: HostStopReason, c1: Cluster) returns (d: Cluster)
    requires b in c.links && b in c.arb.ceiling.reports && b in c.arb.peers
    requires Stepping(c, c1, b, t, false, [TimeReport(t), HostStop(reason)]) && !c1.arb.peers[b].AwaitingReady?
    ensures Enabled(cfg, c1, CollectFrom(b)) && Apply(cfg, c1, CollectFrom(b)) == d
    ensures Stepping(c, d, b, t, true, [HostStop(reason)]) && !d.arb.peers[b].AwaitingReady?
  {
    d := Apply(cfg, c1, CollectFrom(b));
    CollectSays(c1.arb, c1.drained, b, TimeReport(t));
    assert [TimeReport(t), HostStop(reason)][1..] == [HostStop(reason)];
  }

  lemma StepOver(cfg: Config, c: Cluster, b: BoardId, t: u64, reason: HostStopReason, c1: Cluster) returns (d: Cluster)
    requires b in c.links && b in c.arb.ceiling.reports && b in c.arb.peers
    requires Stepping(c, c1, b, t, true, [HostStop(reason)]) && !c1.arb.peers[b].AwaitingReady?
    ensures Enabled(cfg, c1, CollectFrom(b)) && Apply(cfg, c1, CollectFrom(b)) == d
    ensures Stepping(c, d, b, t, true, []) && d.drained.gdbInsn == Some((b, reason))
  {
    d := Apply(cfg, c1, CollectFrom(b));
    CollectSays(c1.arb, c1.drained, b, HostStop(reason));
    assert [HostStop(reason)][1..] == [];
  }

  /** The others are started towards the time the step has reached. */
  predicate CatchesUp(c: Cluster, d: Cluster, b: BoardId, t: u64)
    requires b in c.links && b in c.arb.ceiling.reports
  {
    d.arb.running && d.arb.untilCap == Some(t) && d.drained == NothingDrained && d.links.Keys == c.links.Keys &&
    d.arb.ceiling.reports == c.arb.ceiling.reports[b := t] &&
    d.links[b] == Link(SteppedNode(c.links[b].node, t), [Start(d.arb.allowed)], []) &&
    forall x | x in c.links && x != b :: d.links[x] == Link(c.links[x].node, [GdbStep(b)] + [Start(d.arb.allowed)], [])
  }

  lemma StepCatchesUp(cfg: Config, c: Cluster, b: BoardId, t: u64, reason: HostStopReason, c1: Cluster)
    returns (d: Cluster)
    requires b in c.links && b in c.arb.ceiling.reports
    requires Stepping(c, c1, b, t, true, []) && c1.drained.gdbInsn == Some((b, reason))
    ensures Enabled(cfg, c1, FinishRound) && Apply(cfg, c1, FinishRound) == d && CatchesUp(c, d, b, t)
    ensures d.arb.allowed == d.arb.ceiling.AllowedNsUntil(Some(t)) && d.arb.ceiling.marginNs == c.arb.ceiling.marginNs
  {
    d := Apply(cfg, c1, FinishRound);
    var none: seq<ControlToNode> := [];
    assert none + [Start(d.arb.allowed)] == [Start(d.arb.allowed)];
  }

  /** From the command to the session that lets the others catch up. */
  lemma StepRun(cfg: Config, c: Cluster, b: BoardId, t: u64, reason: HostStopReason) returns (d: Cluster)
    requires FactsHold(cfg, c) && AtRest(c) && b in c.links &&
             StepPossible(c.links[b].node, Stepped(t, reason), cfg.stepBound)
    ensures b in c.arb.ceiling.reports && Exec(cfg, c, StepOf(b, t, reason)) == Some(d) && CatchesUp(c, d, b, t)
    ensures d.arb.allowed == d.arb.ceiling.AllowedNsUntil(Some(t)) && d.arb.ceiling.marginNs == c.arb.ceiling.marginNs
  {
    var start := [CmdStep(b)] + [Deliver(b, Stepped(t, reason))];
    var c1 := StepStarts(cfg, c, b, t, reason);
    var c2 := StepTold(cfg, c, b, t, reason, c1);
    ExecMore(cfg, c, start, CollectFrom(b));
    var c3 := StepOver(cfg, c, b, t, reason, c2);
    ExecMore(cfg, c, start + [CollectFrom(b)], CollectFrom(b));
    d := StepCatchesUp(cfg, c, b, t, reason, c3);
    ExecMore(cfg, c, start + [CollectFrom(b)] + [CollectFrom(b)], FinishRound);
  }

  /** Some board other than `b` stands at or past `t`, or a margin past its report, and its report
      is below `t`. */
  predicate OtherLate(cfg: Config, c: Cluster, b: BoardId, t: u64) {
    exists x | x in c.links && x in c.arb.ceiling.reports && x != b ::
      Late(cfg, c.links[x].node.clock, c.arb.ceiling.reports[x], t)
  }

  lemma CatchUpLink(cfg: Config, c: Cluster, b: BoardId, t: u64, d: Cluster, x: BoardId)
    requires FactsHold(cfg, c) && AtRest(c) && Honest(c) && b in c.links && b in c.arb.ceiling.reports &&
             CatchesUp(c, d, b, t)
    requires x in d.links && d.arb.ceiling.marginNs == cfg.marginNs &&
             d.arb.allowed == d.arb.ceiling.AllowedNsUntil(Some(t))
    ensures x in d.arb.ceiling.reports && OpenedWithin(cfg, x, d.links[x], d.arb.allowed, d.arb.ceiling.reports[x], t)
    ensures Unlifted(d.links[x], d.arb.ceiling.reports[x])
  {
    StoppedLink(cfg, c, x);
    CeilingBetween(cfg, d.arb.ceiling, Some(t), x, 0);
    var n, a := d.links[x].node, d.arb.allowed;
    StartedLink(cfg, x, n, d.arb.ceiling.reports[x], a, t);
    if x != b {
      ReadStopped(x, n, GdbStep(b), [Start(a)]);
    }
  }

  lemma CatchUpOpens(cfg: Config, c: Cluster, b: BoardId, t: u64, d: Cluster)
    requires 0 < cfg.thresholdNs && FactsHold(cfg, c) && AtRest(c) && Honest(c) && b in c.links &&
             b in c.arb.ceiling.reports
    requires CatchesUp(c, d, b, t) && d.arb.ceiling.marginNs == cfg.marginNs &&
             c.links.Keys == c.arb.ceiling.reports.Keys
    requires d.arb.allowed == d.arb.ceiling.AllowedNsUntil(Some(t))
    ensures AllOpened(cfg, d) && NoneLifted(d) && (SomeLate(cfg, d) <==> OtherLate(cfg, c, b, t))
  {
    forall x | x in d.links
      ensures x in d.arb.ceiling.reports && OpenedWithin(cfg, x, d.links[x], d.arb.allowed, d.arb.ceiling.reports[x], t)
      ensures Unlifted(d.links[x], d.arb.ceiling.reports[x])
    {
      CatchUpLink(cfg, c, b, t, d, x);
    }
    LateAreOthers(cfg, c, b, t, d);
  }

  lemma LateAreOthers(cfg: Config, c: Cluster, b: BoardId, t: u64, d: Cluster)
    requires b in c.links && b in c.arb.ceiling.reports && CatchesUp(c, d, b, t) &&
             c.links.Keys == c.arb.ceiling.reports.Keys
    ensures SomeLate(cfg, d) <==> OtherLate(cfg, c, b, t)
  {
  }

  /** A gdb step of a quiet cluster that takes board `b` to `t` can get the cluster stuck if and
      only if some other board stands at or past `t`, or a margin past its report, and was last
      heard of below `t`. */
  lemma StepSticksIffLate(cfg: Config, actions: seq<Action>, b: BoardId, t: u64, reason: HostStopReason)
    requires cfg.Valid() && 0 < cfg.marginNs && 0 < cfg.thresholdNs && Exec(cfg, Init(cfg), actions).Some?
    requires var c := Exec(cfg, Init(cfg), actions).value;
             AtRest(c) && Honest(c) && b in c.links && StepPossible(c.links[b].node, Stepped(t, reason), cfg.stepBound)
    ensures var c := Exec(cfg, Init(cfg), actions).value;
            Exec(cfg, c, StepOf(b, t, reason)).Some? &&
            (OtherLate(cfg, c, b, t) <==>
             exists more :: Sticks(cfg, Exec(cfg, c, StepOf(b, t, reason)).value, more))
  {
    var c := Exec(cfg, Init(cfg), actions).value;
    FactsAlongRun(cfg, actions);
    var d := StepRun(cfg, c, b, t, reason);
    ExecAppend(cfg, Init(cfg), actions, StepOf(b, t, reason));
    CatchUpOpens(cfg, c, b, t, d);
    OpenedSticksIffLate(cfg, actions + StepOf(b, t, reason), d);
  }
}
