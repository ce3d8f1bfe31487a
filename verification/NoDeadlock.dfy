/** A cluster that is only started, stopped and left alone gets stuck exactly if it is started
    with a cap that some board may have passed, or may still pass, without telling the arbiter. */
module NoDeadlock {
  import opened Prelude
  import opened Control
  import opened Arbiter
  import opened BoardRuntime
  import opened Protocol
  import opened Agreement
  import opened Progress
  import opened Reach
  import opened Hearing
  import opened Drive
  import opened Sticking
  import opened SoundSessions
  import opened StuckIff

  /** The last time the board has reported is below `u`, and its clock is at `u` or may get there
      with so much headroom that it need not report. */
  predicate AtRisk(cfg: Config, b: BoardId, l: Link, report: u64, u: u64) {
    LastSent(report, l.outbox) < u && (u <= l.node.clock || u + cfg.thresholdNs <= QuietOf(b, l).hi)
  }

  /** What a caller can check before sending `Start { until: u }`. */
  predicate Risky(cfg: Config, c: Cluster, u: u64) {
    !StopComing(c) &&
    exists b | b in c.links && b in c.arb.ceiling.reports :: AtRisk(cfg, b, c.links[b], c.arb.ceiling.reports[b], u)
  }

  /** No Reset, no gdb step and no failing poll. */
  predicate Calm(a: Action) {
    !a.CmdReset? && !a.CmdStep? && (a.PollGuest? ==> !a.poll.Failed?)
  }

  predicate CalmRun(actions: seq<Action>) {
    forall i | 0 <= i < |actions| :: Calm(actions[i])
  }

  /** No capped start is risky. */
  ghost predicate StartsWell(cfg: Config, actions: seq<Action>)
    decreases |actions|
  {
    actions == [] ||
    var init, a := actions[..|actions| - 1], actions[|actions| - 1];
    StartsWell(cfg, init) && Exec(cfg, Init(cfg), init).Some? &&
    (a.CmdStart? && a.until.Some? ==> !Risky(cfg, Exec(cfg, Init(cfg), init).value, a.until.value))
  }

  /** A simulator stopped on its own only while word of it is travelling. */
  predicate StopKnown(l: Link, d: Drained) {
    l.node.state.NodeRunning? && !l.node.sim.running ==>
      d.clusterStop.Some? ||
      StopIn(l.outbox) ||
      (exists i :: 0 <= i < |l.inbox| && l.inbox[i].ClusterStop?)
  }

  /** No ceiling in the queue is above `top`, and nothing but ceilings moves the clock. */
  predicate Gentle(inbox: seq<ControlToNode>, top: u64) {
    forall i | 0 <= i < |inbox| :: GentleOne(inbox[i], top)
  }

  predicate GentleOne(m: ControlToNode, top: u64) {
    !m.Reset? && !m.GdbStep? && (CeilingIn(m).Some? ==> CeilingIn(m).value <= top)
  }

  /** `top` is the ceiling the reports give. A clock not yet reported stood more than the
      threshold below some ceiling, and no ceiling was ever above `top`. */
  predicate LinkClean(cfg: Config, l: Link, report: u64, d: Drained, top: u64) {
    Climbing(report, l.outbox) &&
    LastSent(report, l.outbox) == l.node.lastReport.GetOr(0) &&
    l.node.clock <= top && l.node.allowedNs <= top && Gentle(l.inbox, top) &&
    (LastSent(report, l.outbox) == l.node.clock || l.node.clock + cfg.thresholdNs <= top) &&
    StopKnown(l, d)
  }

  ghost predicate LinksClean(cfg: Config, c: Cluster) {
    forall b | b in c.links && b in c.arb.ceiling.reports ::
      LinkClean(cfg, c.links[b], c.arb.ceiling.reports[b], c.drained, c.arb.ceiling.AllowedNs())
  }

  ghost predicate BaseInv(cfg: Config, c: Cluster) {
    FactsHold(cfg, c) && c.arb.gdb.None? && c.drained.gdbInsn.None? && LinksClean(cfg, c)
  }

  lemma BaseInit(cfg: Config)
    ensures BaseInv(cfg, Init(cfg))
  {
  }

  // ---- steps of a node ----

  lemma PollClean(cfg: Config, l: Link, out: PollOutcome, report: u64, d: Drained, top: u64)
    requires LinkFacts(cfg, l) && LinkClean(cfg, l, report, d, top)
    requires PollPossible(l.node, out, cfg.stepBound) && !out.Failed? && !l.node.state.AwaitingStartup?
    ensures LinkClean(cfg, LinkAfterPoll(l, out), report, d, top)
  {
    var r := AfterPoll(l.node, out);
    SentAppend(report, l.outbox, r.sent);
    SentShort(LastSent(report, l.outbox), r.sent);
    ClimbAppend(report, l.outbox, r.sent);
    ClimbShort(LastSent(report, l.outbox), r.sent);
    if out.Halted? {
      var o := LinkAfterPoll(l, out).outbox;
      assert o[|o| - 1].HostStop?;
    }
  }

  lemma StopStaysKnown(me: BoardId, l: Link, out: StepOutcome, d: Drained)
    requires StopKnown(l, d) && l.inbox != [] && !l.inbox[0].GdbStep?
    ensures StopKnown(LinkAfterDeliver(me, l, out), d)
  {
    var l' := LinkAfterDeliver(me, l, out);
    if l'.node.state.NodeRunning? && !l'.node.sim.running && d.clusterStop.None? {
      if StopIn(l.outbox) {
        var i :| 0 <= i < |l.outbox| && l.outbox[i].HostStop?;
        assert l'.outbox[i].HostStop?;
      } else {
        var i :| 0 <= i < |l.inbox| && l.inbox[i].ClusterStop?;
        assert l'.inbox[i - 1] == l.inbox[i];
      }
    }
  }

  lemma ReadClimbs(me: BoardId, l: Link, out: StepOutcome, report: u64)
    requires l.inbox != [] && !l.inbox[0].GdbStep? && !l.inbox[0].Reset? && Climbing(report, l.outbox)
    ensures Climbing(report, LinkAfterDeliver(me, l, out).outbox)
    ensures LinkAfterDeliver(me, l, out).node.lastReport == l.node.lastReport
  {
    ReadSent(me, l, out, report);
    ClimbAppend(report, l.outbox, [Ready]);
    ClimbShort(LastSent(report, l.outbox), [Ready]);
  }

  lemma DeliverClean(cfg: Config, me: BoardId, l: Link, out: StepOutcome, report: u64, d: Drained, top: u64)
    requires LinkClean(cfg, l, report, d, top) && l.inbox != []
    ensures LinkClean(cfg, LinkAfterDeliver(me, l, out), report, d, top)
  {
    assert GentleOne(l.inbox[0], top);
    ReadSent(me, l, out, report);
    ReadClimbs(me, l, out, report);
    StopStaysKnown(me, l, out, d);
  }

  // ---- steps of the arbiter ----

  lemma CollectClean(cfg: Config, s: Session, d: Drained, b: BoardId, l: Link, top: u64)
    requires b in s.peers && b in s.ceiling.reports && !s.peers[b].AwaitingReady? && s.gdb.None?
    requires LinkClean(cfg, l, s.ceiling.reports[b], d, top) && l.outbox != []
    ensures var (s', d') := Collect(s, d, b, l.outbox[0]);
            var l' := l.(outbox := l.outbox[1..]);
            b in s'.ceiling.reports &&
            s.ceiling.reports[b] <= s'.ceiling.reports[b] &&
            s'.ceiling == s.ceiling.WithReport(b, s'.ceiling.reports[b]) &&
            LinkClean(cfg, l', s'.ceiling.reports[b], d', top) &&
            LastSent(s'.ceiling.reports[b], l'.outbox) == LastSent(s.ceiling.reports[b], l.outbox) &&
            s'.gdb == s.gdb && s'.untilCap == s.untilCap && s'.running == s.running &&
            d'.gdbInsn == d.gdbInsn && (d.clusterStop.Some? ==> d'.clusterStop.Some?) &&
            (StopIn(l.outbox) ==> d'.clusterStop.Some? || StopIn(l'.outbox))
  {
    var l' := l.(outbox := l.outbox[1..]);
    if StopIn(l.outbox) {
      var i :| 0 <= i < |l.outbox| && l.outbox[i].HostStop?;
      assert i > 0 ==> l'.outbox[i - 1].HostStop?;
    }
  }

  predicate AnyClusterStop(inbox: seq<ControlToNode>) {
    exists i :: 0 <= i < |inbox| && inbox[i].ClusterStop?
  }

  /** An arbiter step publishes no ceiling above the one the reports give, nor above a cap it
      keeps or sets, and passes a pending stop on. */
  ghost predicate EffectClean(s: Session, d: Drained, e: Effect) {
    e.session.gdb.None? && e.session.ceiling == s.ceiling &&
    (d.clusterStop.Some? ==> AnyClusterStop(e.sent) && !e.session.running) &&
    Gentle(e.sent, s.ceiling.AllowedNs()) &&
    (e.session.running && e.session.untilCap.Some? ==> Gentle(e.sent, e.session.untilCap.value))
  }

  lemma CommandClean(s: Session, a: Action)
    requires IsCommand(a) && !a.CmdReset? && !a.CmdStep? && s.gdb.None?
    ensures EffectClean(s, NothingDrained, CommandEffect(s, a))
    ensures CommandEffect(s, a).session.running && CommandEffect(s, a).session.untilCap.Some? ==>
              CommandEffect(s, a).session.untilCap == if a.CmdStart? then a.until else s.untilCap
  {
  }

  lemma FinishClean(s: Session, d: Drained)
    requires s.gdb.None? && d.gdbInsn.None? && CeilingCurrent(s, d)
    ensures EffectClean(s, d, Finish(s, d))
    ensures Finish(s, d).session.running ==> s.running && Finish(s, d).session.untilCap == s.untilCap
  {
    var sent := Finish(s, d).sent;
    if d.clusterStop.Some? {
      assert sent[0].ClusterStop?;
    }
  }

  lemma LinkCommit(cfg: Config, l: Link, report: u64, s: Session, d: Drained, e: Effect)
    requires LinkClean(cfg, l, report, d, s.ceiling.AllowedNs()) && EffectClean(s, d, e)
    ensures LinkClean(cfg, l.(inbox := l.inbox + e.sent), report, NothingDrained, s.ceiling.AllowedNs())
  {
    var inbox := l.inbox + e.sent;
    if d.clusterStop.Some? {
      var i :| 0 <= i < |e.sent| && e.sent[i].ClusterStop?;
      assert inbox[|l.inbox| + i].ClusterStop?;
    } else if i :| 0 <= i < |l.inbox| && l.inbox[i].ClusterStop? {
      assert inbox[i].ClusterStop?;
    }
  }

  // ---- every step keeps it ----

  lemma CommitLinks(cfg: Config, c: Cluster, e: Effect, c': Cluster)
    requires BaseInv(cfg, c) && EffectClean(c.arb, c.drained, e)
    requires c' == Commit(c, e).(drained := NothingDrained) && FactsHold(cfg, c')
    ensures BaseInv(cfg, c')
  {
    forall b | b in c'.links
      ensures LinkClean(cfg, c'.links[b], c'.arb.ceiling.reports[b], NothingDrained, c'.arb.ceiling.AllowedNs())
    {
      assert LinkClean(cfg, c.links[b], c.arb.ceiling.reports[b], c.drained, c.arb.ceiling.AllowedNs());
      LinkCommit(cfg, c.links[b], c.arb.ceiling.reports[b], c.arb, c.drained, e);
    }
  }

  lemma OthersClean(cfg: Config, l: Link, report: u64, d: Drained, d': Drained, top: u64, top': u64)
    requires LinkClean(cfg, l, report, d, top) && (d.clusterStop.Some? ==> d'.clusterStop.Some?) && top <= top'
    ensures LinkClean(cfg, l, report, d', top')
  {
    assert forall i | 0 <= i < |l.inbox| :: GentleOne(l.inbox[i], top);
  }

  /** `c'` differs from `c` in link `b` and its report only, and the reports' ceiling has not
      fallen. */
  ghost predicate OnlyLink(c: Cluster, c': Cluster, b: BoardId) {
    b in c.links && b in c'.links && c'.links == c.links[b := c'.links[b]] &&
    c'.arb.gdb.None? && c'.drained.gdbInsn.None? &&
    c'.arb.untilCap == c.arb.untilCap && c'.arb.running == c.arb.running &&
    (c.drained.clusterStop.Some? ==> c'.drained.clusterStop.Some?) &&
    c'.arb.ceiling.reports.Keys == c.arb.ceiling.reports.Keys == c.links.Keys &&
    (forall x | x in c.arb.ceiling.reports && x != b :: c'.arb.ceiling.reports[x] == c.arb.ceiling.reports[x]) &&
    c.arb.ceiling.AllowedNs() <= c'.arb.ceiling.AllowedNs()
  }

  lemma LinksChange(cfg: Config, c: Cluster, c': Cluster, b: BoardId)
    requires LinksClean(cfg, c) && OnlyLink(c, c', b)
    requires LinkClean(cfg, c'.links[b], c'.arb.ceiling.reports[b], c'.drained, c.arb.ceiling.AllowedNs())
    ensures LinksClean(cfg, c')
  {
    forall x | x in c'.links && x in c'.arb.ceiling.reports
      ensures LinkClean(cfg, c'.links[x], c'.arb.ceiling.reports[x], c'.drained, c'.arb.ceiling.AllowedNs())
    {
      OthersClean(cfg, c'.links[x], c'.arb.ceiling.reports[x], if x == b then c'.drained else c.drained, c'.drained,
                  c.arb.ceiling.AllowedNs(), c'.arb.ceiling.AllowedNs());
    }
  }

  lemma CollectIsLocal(cfg: Config, c: Cluster, b: BoardId, c': Cluster)
    requires LinksClean(cfg, c) && Shape(cfg, c) && Shape(cfg, c') && c.arb.gdb.None? && c.drained.gdbInsn.None?
    requires b in c.links && c.links[b].outbox != [] && !c.arb.peers[b].AwaitingReady? && c' == AfterCollect(c, b)
    ensures OnlyLink(c, c', b)
    ensures LinkClean(cfg, c'.links[b], c'.arb.ceiling.reports[b], c'.drained, c.arb.ceiling.AllowedNs())
  {
    CollectClean(cfg, c.arb, c.drained, b, c.links[b], c.arb.ceiling.AllowedNs());
    NaturalMonotone(c.arb.ceiling, b, c'.arb.ceiling.reports[b]);
  }

  /** A change of one link that keeps it clean. */
  lemma CleanLocal(cfg: Config, c: Cluster, b: BoardId, c': Cluster)
    requires BaseInv(cfg, c) && FactsHold(cfg, c') && OnlyLink(c, c', b)
    requires LinkClean(cfg, c'.links[b], c'.arb.ceiling.reports[b], c'.drained, c.arb.ceiling.AllowedNs())
    ensures BaseInv(cfg, c')
  {
    LinksChange(cfg, c, c', b);
  }

  lemma CleanCollect(cfg: Config, c: Cluster, b: BoardId, c': Cluster)
    requires BaseInv(cfg, c) && Enabled(cfg, c, CollectFrom(b)) && c' == AfterCollect(c, b) && FactsHold(cfg, c')
    ensures BaseInv(cfg, c')
  {
    CollectIsLocal(cfg, c, b, c');
    CleanLocal(cfg, c, b, c');
  }

  lemma CleanReady(cfg: Config, c: Cluster, b: BoardId, c': Cluster)
    requires BaseInv(cfg, c) && Enabled(cfg, c, CollectReady(b)) && c' == AfterReady(c, b) && FactsHold(cfg, c')
    ensures BaseInv(cfg, c')
  {
    assert LinkStarting(c.arb.peers[b], c.links[b]);
    assert LinkClean(cfg, c.links[b], c.arb.ceiling.reports[b], c.drained, c.arb.ceiling.AllowedNs());
    CleanLocal(cfg, c, b, c');
  }

  lemma CleanStartup(cfg: Config, c: Cluster, c': Cluster)
    requires BaseInv(cfg, c) && c.barrier && c' == Apply(cfg, c, PublishStartup) && FactsHold(cfg, c')
    ensures BaseInv(cfg, c')
  {
    CommitLinks(cfg, c, Effect(c.arb, [StartupRecord(cfg.marginNs, cfg.thresholdNs)]), c');
  }

  lemma CleanDeliver(cfg: Config, c: Cluster, b: BoardId, out: StepOutcome, c': Cluster)
    requires Enabled(cfg, c, Deliver(b, out)) && c' == c.(links := c.links[b := LinkAfterDeliver(b, c.links[b], out)])
    requires BaseInv(cfg, c) && FactsHold(cfg, c')
    ensures BaseInv(cfg, c')
  {
    DeliverClean(cfg, b, c.links[b], out, c.arb.ceiling.reports[b], c.drained, c.arb.ceiling.AllowedNs());
    CleanLocal(cfg, c, b, c');
  }

  lemma CleanPoll(cfg: Config, c: Cluster, b: BoardId, out: PollOutcome, c': Cluster)
    requires Enabled(cfg, c, PollGuest(b, out)) && !out.Failed?
    requires c' == c.(links := c.links[b := LinkAfterPoll(c.links[b], out)])
    requires BaseInv(cfg, c) && FactsHold(cfg, c')
    ensures BaseInv(cfg, c')
  {
    PollClean(cfg, c.links[b], out, c.arb.ceiling.reports[b], c.drained, c.arb.ceiling.AllowedNs());
    CleanLocal(cfg, c, b, c');
  }

  lemma BaseCommit(cfg: Config, c: Cluster, a: Action, e: Effect, c': Cluster)
    requires BaseInv(cfg, c) && Enabled(cfg, c, a) && !a.CmdReset? && !a.CmdStep? && (a.FinishRound? || IsCommand(a))
    requires e == if a.FinishRound? then Finish(c.arb, c.drained) else CommandEffect(c.arb, a)
    requires c' == Commit(c, e).(drained := NothingDrained) && FactsHold(cfg, c')
    ensures BaseInv(cfg, c')
  {
    if a.FinishRound? {
      FinishClean(c.arb, c.drained);
    } else {
      CommandClean(c.arb, a);
    }
    CommitLinks(cfg, c, e, c');
  }

  /** Starts, stops and everything that happens on its own keep every link clean. */
  lemma BaseStep(cfg: Config, c: Cluster, a: Action)
    requires BaseInv(cfg, c) && Enabled(cfg, c, a) && Calm(a)
    ensures BaseInv(cfg, Apply(cfg, c, a))
  {
    FactsStep(cfg, c, a);
    var c' := Apply(cfg, c, a);
    if a.CollectFrom? {
      CleanCollect(cfg, c, a.board, c');
    } else if a.Deliver? {
      CleanDeliver(cfg, c, a.board, a.step, c');
    } else if a.PollGuest? {
      CleanPoll(cfg, c, a.board, a.poll, c');
    } else if a.CollectReady? {
      CleanReady(cfg, c, a.board, c');
    } else if a.PublishStartup? {
      CleanStartup(cfg, c, c');
    } else if a.FinishRound? || IsCommand(a) {
      BaseCommit(cfg, c, a, if a.FinishRound? then Finish(c.arb, c.drained) else CommandEffect(c.arb, a), c');
    }
  }

  lemma {:induction false} BaseAlongRun(cfg: Config, actions: seq<Action>)
    requires Exec(cfg, Init(cfg), actions).Some? && CalmRun(actions)
    ensures BaseInv(cfg, Exec(cfg, Init(cfg), actions).value)
    decreases |actions|
  {
    if actions == [] {
      BaseInit(cfg);
    } else {
      var init := actions[..|actions| - 1];
      BaseAlongRun(cfg, init);
      BaseStep(cfg, Exec(cfg, Init(cfg), init).value, actions[|actions| - 1]);
    }
  }

  // ---- what a start does to a clean cluster ----

  /** What a board has been sent takes it no higher than the ceiling the reports give. */
  lemma QuietWithin(b: BoardId, l: Link, top: u64)
    requires l.node.clock <= top && l.node.allowedNs <= top && Gentle(l.inbox, top)
    ensures QuietOf(b, l).hi <= top
  {
    forall i | 0 <= i < |l.inbox| ensures Capped(l.inbox[i], top) {
      assert GentleOne(l.inbox[i], top);
    }
    CappedReach(ProspectOf(l.node), b, l.inbox, top, 0);
  }

  /** A simulator that has stopped will be started again, if the board is told to stop first. */
  lemma {:induction false} Revives(p: Prospect, me: BoardId, inbox: seq<ControlToNode>)
    requires p.state.NodeRunning? && !p.runs ==> AnyClusterStop(inbox)
    requires forall i | 0 <= i < |inbox| :: GentleOne(inbox[i], U64_MAX)
    ensures var q := Ahead(p, me, inbox, 0); q.state.NodeRunning? ==> Runs(q)
    decreases |inbox|
  {
    if inbox != [] {
      var q := Take(p, me, inbox[0], 0);
      assert GentleOne(inbox[0], U64_MAX);
      if q.state.NodeRunning? && !q.runs {
        var i :| 0 <= i < |inbox| && inbox[i].ClusterStop?;
        assert inbox[1..][i - 1].ClusterStop?;
      }
      Revives(q, me, inbox[1..]);
    }
  }

  lemma StartedReach(b: BoardId, l: Link, a: u64)
    requires !QuietOf(b, l).state.AwaitingStartup?
    ensures var q, q' := QuietOf(b, l), QuietOf(b, l.(inbox := l.inbox + [Start(a)]));
            (q.state.NodeRunning? ==> Runs(q)) ==> Runs(q') && q'.hi == Max(q.hi, a)
  {
    AheadAppend(ProspectOf(l.node), b, l.inbox, [Start(a)], 0);
    IdleOnce(ProspectOf(l.node), b, l.inbox, 0);
    var q, rest: seq<ControlToNode> := QuietOf(b, l), [];
    assert [Start(a)][1..] == rest;
    assert Ahead(q, b, [Start(a)], 0) == Ahead(Take(q, b, Start(a), 0), b, rest, 0) == Idle(Take(q, b, Start(a), 0));
  }

  /** After a start a clean board is prone exactly if it was at risk. */
  lemma ProneIffAtRisk(cfg: Config, b: BoardId, l: Link, report: u64, top: u64, a: u64, limit: u64)
    requires 0 < cfg.marginNs && 0 < cfg.thresholdNs && LinkFacts(cfg, l) &&
             LinkClean(cfg, l, report, NothingDrained, top)
    requires !StopIn(l.outbox) && !QuietOf(b, l).state.AwaitingStartup?
    requires top <= SatAdd(report, cfg.marginNs) && a == Min(top, limit)
    ensures Prone(cfg, b, l.(inbox := l.inbox + [Start(a)]), report, limit) <==> AtRisk(cfg, b, l, report, limit)
  {
    LastIsHighest(report, l.outbox);
    QuietWithin(b, l, top);
    forall i | 0 <= i < |l.inbox| ensures GentleOne(l.inbox[i], U64_MAX) {
      assert GentleOne(l.inbox[i], top);
    }
    Revives(ProspectOf(l.node), b, l.inbox);
    StartedReach(b, l, a);
  }

  predicate SomeAtRisk(cfg: Config, c: Cluster, limit: u64) {
    exists b | b in c.links && b in c.arb.ceiling.reports :: AtRisk(cfg, b, c.links[b], c.arb.ceiling.reports[b], limit)
  }

  lemma StartedBoard(cfg: Config, c: Cluster, b: BoardId, until: Option<u64>, a: u64)
    requires 0 < cfg.marginNs && 0 < cfg.thresholdNs && BaseInv(cfg, c) && !c.barrier && c.drained == NothingDrained
    requires !StopComing(c) && b in c.links && b in c.arb.ceiling.reports && a == c.arb.ceiling.AllowedNsUntil(until)
    ensures var l, report, limit := c.links[b], c.arb.ceiling.reports[b], until.GetOr(U64_MAX);
            (Prone(cfg, b, l.(inbox := l.inbox + [Start(a)]), report, limit) <==> AtRisk(cfg, b, l, report, limit)) &&
            Unlifted(l, report)
  {
    var l := c.links[b];
    assert LinkClean(cfg, l, c.arb.ceiling.reports[b], c.drained, c.arb.ceiling.AllowedNs());
    assert LinkAgrees(c.arb, l) && LinkFacts(cfg, l);
    AheadFolds(ProspectOf(l.node), b, l.inbox, 0);
    assert c.arb.ceiling.VirtualTimeNs() <= c.arb.ceiling.reports[b];
    ProneIffAtRisk(cfg, b, l, c.arb.ceiling.reports[b], c.arb.ceiling.AllowedNs(), a, until.GetOr(U64_MAX));
  }

  /** The cluster right after a start that has been accepted. */
  lemma StartedBoards(cfg: Config, c: Cluster, until: Option<u64>, a: u64, d: Cluster)
    requires 0 < cfg.marginNs && 0 < cfg.thresholdNs && BaseInv(cfg, c) && !c.barrier && c.drained == NothingDrained
    requires !StopComing(c) && a == c.arb.ceiling.AllowedNsUntil(until)
    requires d.links == Broadcast(c.links, [Start(a)]) && d.arb.ceiling == c.arb.ceiling && d.arb.untilCap == until
    ensures AllAnchored(cfg, d, Lowest(cfg)) && (SomeProne(cfg, d) <==> SomeAtRisk(cfg, c, until.GetOr(U64_MAX)))
  {
    forall b | b in c.links && b in c.arb.ceiling.reports
      ensures Prone(cfg, b, d.links[b], d.arb.ceiling.reports[b], Limit(d.arb)) <==>
              AtRisk(cfg, b, c.links[b], c.arb.ceiling.reports[b], Limit(d.arb))
      ensures Unlifted(d.links[b], d.arb.ceiling.reports[b])
    {
      StartedBoard(cfg, c, b, until, a);
    }
    UnliftedIsAnchored(cfg, d);
  }

  lemma StopComingKept(c: Cluster, a: u64, d: Cluster)
    requires c.drained == NothingDrained == d.drained && d.links == Broadcast(c.links, [Start(a)])
    ensures StopComing(d) <==> StopComing(c)
  {
    if StopComing(c) {
      var b :| b in c.links && StopIn(c.links[b].outbox);
      assert b in d.links && StopIn(d.links[b].outbox);
    }
  }

  /** An uncapped start puts no board of a clean cluster at risk. */
  lemma NoneAtRiskUncapped(cfg: Config, c: Cluster)
    requires 0 < cfg.thresholdNs && BaseInv(cfg, c)
    ensures !SomeAtRisk(cfg, c, U64_MAX)
  {
    forall b | b in c.links && b in c.arb.ceiling.reports
      ensures !AtRisk(cfg, b, c.links[b], c.arb.ceiling.reports[b], U64_MAX)
    {
      assert LinkClean(cfg, c.links[b], c.arb.ceiling.reports[b], c.drained, c.arb.ceiling.AllowedNs());
    }
  }

  /** A start of a clean cluster is sound unless some board is at risk and no stop is coming. */
  lemma CleanStart(cfg: Config, c: Cluster, until: Option<u64>, d: Cluster)
    requires 0 < cfg.marginNs && 0 < cfg.thresholdNs && BaseInv(cfg, c) && !c.barrier && c.drained == NothingDrained
    requires d == Commit(c, ApplyStart(c.arb, until)) && d.arb.running
    ensures !SomeAtRisk(cfg, c, until.GetOr(U64_MAX)) || StopComing(c) ==> Sound(cfg, d, Lowest(cfg))
    ensures StopComing(d) <==> StopComing(c)
    ensures !StopComing(c) ==>
              AllAnchored(cfg, d, Lowest(cfg)) && (SomeProne(cfg, d) <==> SomeAtRisk(cfg, c, until.GetOr(U64_MAX)))
  {
    var a := c.arb.ceiling.AllowedNsUntil(until);
    StartOutcome(c.arb, until);
    StopComingKept(c, a, d);
    if !StopComing(c) {
      StartedBoards(cfg, c, until, a, d);
    }
  }

  // ---- whole runs ----

  lemma CalmOpening(cfg: Config, c: Cluster, a: Action, d: Cluster)
    requires 0 < cfg.marginNs && 0 < cfg.thresholdNs && BaseInv(cfg, c) && Enabled(cfg, c, a) && d == Apply(cfg, c, a)
    requires Calm(a) && Opens(c, a) && (a.CmdStart? && a.until.Some? ==> !Risky(cfg, c, a.until.value))
    ensures OpensWell(cfg, d)
  {
    if d.arb.running {
      if a.until.None? {
        NoneAtRiskUncapped(cfg, c);
      }
      CleanStart(cfg, c, a.until, d);
    }
  }

  lemma {:induction false} CalmIsWatched(cfg: Config, actions: seq<Action>)
    requires 0 < cfg.marginNs && 0 < cfg.thresholdNs && Exec(cfg, Init(cfg), actions).Some?
    requires CalmRun(actions) && StartsWell(cfg, actions)
    ensures Watched(cfg, actions)
    decreases |actions|
  {
    if actions != [] {
      var init, a := actions[..|actions| - 1], actions[|actions| - 1];
      CalmIsWatched(cfg, init);
      BaseAlongRun(cfg, init);
      var c := Exec(cfg, Init(cfg), init).value;
      if Opens(c, a) {
        CalmOpening(cfg, c, a, Apply(cfg, c, a));
      }
    }
  }

  /** A cluster that is only started and stopped never gets stuck, unless by a risky start. */
  lemma CalmNeverStuck(cfg: Config, actions: seq<Action>)
    requires cfg.Valid() && 0 < cfg.marginNs && 0 < cfg.thresholdNs && Exec(cfg, Init(cfg), actions).Some?
    requires CalmRun(actions) && StartsWell(cfg, actions)
    ensures !Stuck(cfg, Exec(cfg, Init(cfg), actions).value)
  {
    CalmIsWatched(cfg, actions);
    NeverStuck(cfg, actions);
  }

  lemma StartAfterCalm(cfg: Config, actions: seq<Action>, until: Option<u64>, c: Cluster, d: Cluster)
    requires 0 < cfg.marginNs && 0 < cfg.thresholdNs && CalmRun(actions) && Exec(cfg, Init(cfg), actions) == Some(c)
    requires !c.barrier && c.drained == NothingDrained && (until.Some? ==> c.arb.ceiling.VirtualTimeNs() < until.value)
    requires d == Commit(c, ApplyStart(c.arb, until))
    ensures d.arb.running && (Risky(cfg, c, until.GetOr(U64_MAX)) <==> !StopComing(d) && SomeProne(cfg, d))
    ensures !StopComing(d) ==> AllAnchored(cfg, d, Lowest(cfg))
  {
    BaseAlongRun(cfg, actions);
    CleanStart(cfg, c, until, d);
  }

  /** A start that is sent while a clean cluster runs, capped or not, can leave it stuck if and
      only if no word of a stopped simulator is on its way and some board, last heard of below the
      cap, is past it or may get there with a threshold to spare. */
  lemma StartSticksIffRisky(cfg: Config, actions: seq<Action>, until: Option<u64>)
    requires cfg.Valid() && 0 < cfg.marginNs && 0 < cfg.thresholdNs
    requires Exec(cfg, Init(cfg), actions).Some? && CalmRun(actions)
    requires var c := Exec(cfg, Init(cfg), actions).value;
             Enabled(cfg, c, CmdStart(until)) && (until.Some? ==> c.arb.ceiling.VirtualTimeNs() < until.value)
    ensures var c := Exec(cfg, Init(cfg), actions).value;
            Risky(cfg, c, until.GetOr(U64_MAX)) <==> exists more :: Sticks(cfg, Apply(cfg, c, CmdStart(until)), more)
  {
    var c := Exec(cfg, Init(cfg), actions).value;
    var d := Apply(cfg, c, CmdStart(until));
    ExecMore(cfg, Init(cfg), actions, CmdStart(until));
    StartAfterCalm(cfg, actions, until, c, d);
    SticksIffProne(cfg, actions + [CmdStart(until)]);
  }
}
