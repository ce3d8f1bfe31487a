/** When a running cluster may get stuck: the condition, and why it does not come about by
    itself. */
module Sticking {
  import opened Prelude
  import opened Control
  import opened Lifecycle
  import opened Arbiter
  import opened BoardRuntime
  import opened Protocol
  import opened Agreement
  import opened Progress
  import opened Reach
  import opened Hearing
  import opened Drive
  import opened Slipping

  // ---- the condition ----

  /** The board can stay, or come to stand, where it will run no more, without reporting again:
      its simulator has stopped, or its clock is at the ceiling its last report allows, or it has
      been sent ceilings that let it get there with a threshold to spare. */
  predicate FallsSilent(cfg: Config, b: BoardId, l: Link, report: u64, limit: u64) {
    var top, q := TopFor(cfg, LastSent(report, l.outbox), limit), QuietOf(b, l);
    !Runs(q) || top <= l.node.clock || top + cfg.thresholdNs <= q.hi
  }

  /** A late report will pull the board back by a threshold or more, and until it is collected
      the arbiter may raise the ceiling as if nothing had happened. */
  predicate PulledBack(cfg: Config, l: Link, report: u64, limit: u64) {
    var last := LastSent(report, l.outbox);
    last + cfg.thresholdNs <= Highest(report, l.outbox) < limit &&
    last + cfg.marginNs + cfg.thresholdNs <= limit
  }

  /** The board may keep the session from ever reaching its limit, with what it has reported. */
  predicate Exposed(cfg: Config, b: BoardId, l: Link, report: u64, limit: u64) {
    LastSent(report, l.outbox) < limit && (FallsSilent(cfg, b, l, report, limit) || PulledBack(cfg, l, report, limit))
  }

  /** A Reset has lifted the board's report above its clock, and the board may still report a time
      that exposes it. */
  ghost predicate MaySlip(cfg: Config, b: BoardId, l: Link, report: u64, limit: u64) {
    l.node.clock < LastSent(report, l.outbox) &&
    Slips(cfg, ProspectOf(l.node), l.node.lastReport, b, l.inbox, report, limit)
  }

  /** What can be checked of one board of a running session. */
  ghost predicate Prone(cfg: Config, b: BoardId, l: Link, report: u64, limit: u64) {
    Exposed(cfg, b, l, report, limit) || MaySlip(cfg, b, l, report, limit)
  }

  ghost predicate SomeProne(cfg: Config, c: Cluster) {
    exists b | b in c.links && b in c.arb.ceiling.reports ::
      Prone(cfg, b, c.links[b], c.arb.ceiling.reports[b], Limit(c.arb))
  }

  /** The session runs towards its limit and nothing that happens on its own changes the cluster. */
  ghost predicate Stuck(cfg: Config, c: Cluster) {
    Deadlocked(cfg, c) && c.arb.ceiling.VirtualTimeNs() < Limit(c.arb)
  }

  /** `more` leads to a stuck cluster without host commands, failing polls or failing steps. */
  ghost predicate Sticks(cfg: Config, c: Cluster, more: seq<Action>) {
    Internal(more) && Unfailing(more) && Exec(cfg, c, more).Some? && Stuck(cfg, Exec(cfg, c, more).value)
  }

  // ---- reports that a Reset has lifted ----

  /** The board's report has been lifted above its clock, but less than a threshold above the next
      one that a ceiling a margin past `floor` can make it send; and whatever it sends will be at or
      past `floor`. */
  ghost predicate Sheltered(cfg: Config, b: BoardId, l: Link, report: u64, limit: u64, floor: int) {
    report < limit && NearNext(cfg, NextReport(cfg, l.node.clock, floor + cfg.marginNs), report, limit) &&
    (floor <= l.node.clock || StaysFrom(cfg, b, l, floor))
  }

  ghost predicate StaysFrom(cfg: Config, b: BoardId, l: Link, floor: int) {
    cfg.thresholdNs <= cfg.marginNs + 1 && TellsFrom(cfg, ProspectOf(l.node), l.node.lastReport, b, l.inbox, floor)
  }

  predicate ReportsFrom(outbox: seq<ControlToArbiter>, floor: int) {
    forall i | 0 <= i < |outbox| :: outbox[i].TimeReport? ==> floor <= outbox[i].virtualTimeNs
  }

  /** What the arbiter has heard of the board, or will, is at or past `floor` and no later than
      its clock, or the board is sheltered; no late report pulls it back below the limit. */
  ghost predicate Anchored(cfg: Config, b: BoardId, l: Link, report: u64, limit: u64, floor: int) {
    floor <= report && ReportsFrom(l.outbox, floor) && (limit <= report ==> limit <= LastSent(report, l.outbox)) &&
    (LastSent(report, l.outbox) <= l.node.clock || Sheltered(cfg, b, l, report, limit, floor))
  }

  ghost predicate AllAnchored(cfg: Config, c: Cluster, floor: int) {
    floor + cfg.marginNs <= Limit(c.arb) &&
    forall b | b in c.links && b in c.arb.ceiling.reports ::
      Anchored(cfg, b, c.links[b], c.arb.ceiling.reports[b], Limit(c.arb), floor)
  }

  // ---- reports in every reachable state ----

  /** The last time the board will be heard of is its latest report, or a later time. */
  predicate Recalls(l: Link, report: u64) {
    var last := LastSent(report, l.outbox);
    l.node.lastReport.GetOr(0) <= last &&
    forall i | 0 <= i < |l.outbox| :: l.outbox[i].TimeReport? ==> l.outbox[i].virtualTimeNs <= last
  }

  predicate AllRecall(c: Cluster) {
    forall b | b in c.links && b in c.arb.ceiling.reports :: Recalls(c.links[b], c.arb.ceiling.reports[b])
  }

  lemma {:induction false} SentWithin(report: u64, outbox: seq<ControlToArbiter>, top: u64)
    requires forall i | 0 <= i < |outbox| :: outbox[i].TimeReport? ==> outbox[i].virtualTimeNs <= top
    ensures LastSent(report, outbox) == report || LastSent(report, outbox) <= top
    ensures Highest(report, outbox) <= Max(report, top)
    decreases |outbox|
  {
    if outbox != [] {
      SentWithin(Said(report, outbox[0]), outbox[1..], top);
    }
  }

  lemma {:induction false} SentFrom(report: u64, outbox: seq<ControlToArbiter>, floor: int)
    requires floor <= report && ReportsFrom(outbox, floor)
    ensures floor <= LastSent(report, outbox)
    decreases |outbox|
  {
    if outbox != [] {
      SentFrom(Said(report, outbox[0]), outbox[1..], floor);
    }
  }

  lemma {:induction false} SentMonotone(low: u64, high: u64, outbox: seq<ControlToArbiter>)
    requires low <= high
    ensures LastSent(low, outbox) <= LastSent(high, outbox)
    decreases |outbox|
  {
    if outbox != [] {
      SentMonotone(Said(low, outbox[0]), Said(high, outbox[0]), outbox[1..]);
    }
  }

  /** What a node adds to its queue: nothing that counts, or its present clock. */
  lemma RecallsSent(l: Link, report: u64, n: Node, sent: seq<ControlToArbiter>)
    requires Recalls(l, report) && |sent| <= 2 && (|sent| == 2 ==> sent[1].HostStop?)
    requires forall i | 0 <= i < |l.outbox| :: l.outbox[i].TimeReport? ==> l.outbox[i].virtualTimeNs <= n.clock
    requires if sent != [] && sent[0].TimeReport? then sent[0].virtualTimeNs == n.clock && n.lastReport == Some(n.clock)
             else n.lastReport.GetOr(0) <= l.node.lastReport.GetOr(0)
    ensures Recalls(Link(n, l.inbox, l.outbox + sent), report)
  {
    SentAppend(report, l.outbox, sent);
    SentShort(LastSent(report, l.outbox), sent);
  }

  lemma ReadRecalls(cfg: Config, b: BoardId, l: Link, report: u64, out: StepOutcome, l': Link)
    requires LinkFacts(cfg, l) && Recalls(l, report) && l.inbox != [] && StepPossible(l.node, out, cfg.stepBound)
    requires l' == LinkAfterDeliver(b, l, out)
    ensures Recalls(l', report)
  {
    var r := AfterMessage(l.node, b, l.inbox[0], out);
    RecallsSent(l, report, r.node, r.sent);
  }

  lemma TurnRecalls(cfg: Config, l: Link, report: u64, out: PollOutcome, l': Link)
    requires LinkFacts(cfg, l) && Recalls(l, report) && PollPossible(l.node, out, cfg.stepBound)
    requires l' == LinkAfterPoll(l, out)
    ensures Recalls(l', report)
  {
    var r := AfterPoll(l.node, out);
    RecallsSent(l, report, r.node, r.sent);
  }

  lemma CollectRecalls(l: Link, report: u64)
    requires Recalls(l, report) && l.outbox != []
    ensures Recalls(l.(outbox := l.outbox[1..]), Said(report, l.outbox[0]))
  {
  }

  /** A collected message counts for its sender only. */
  lemma CollectSays(s: Session, d: Drained, b: BoardId, msg: ControlToArbiter)
    requires b in s.peers && b in s.ceiling.reports && !s.peers[b].AwaitingReady?
    ensures var (s', d') := Collect(s, d, b, msg);
            s'.ceiling.reports == s.ceiling.reports[b := Said(s.ceiling.reports[b], msg)] &&
            s' == s.(peers := s'.peers, ceiling := s.ceiling.(reports := s'.ceiling.reports)) &&
            (msg.HostStop? && (s.gdb.Some? ==> s.gdb.value.CatchUp?) ==> d'.clusterStop.Some?) &&
            (!msg.HostStop? ==> d'.clusterStop == d.clusterStop && d'.gdbInsn == d.gdbInsn) &&
            (d.clusterStop.Some? ==> d'.clusterStop.Some?)
  {
    assert s.ceiling.reports == s.ceiling.reports[b := s.ceiling.reports[b]];
  }

  lemma CommandReports(s: Session, a: Action, b: BoardId)
    requires IsCommand(a) && b in s.ceiling.reports
    ensures b in CommandEffect(s, a).session.ceiling.reports
    ensures s.ceiling.reports[b] <= CommandEffect(s, a).session.ceiling.reports[b]
    ensures !a.CmdReset? ==> s.ceiling.reports[b] == CommandEffect(s, a).session.ceiling.reports[b]
  {
  }

  lemma FinishReports(s: Session, d: Drained)
    ensures Finish(s, d).session.ceiling == s.ceiling
  {
  }

  predicate Broadcasts(a: Action) {
    a.PublishStartup? || a.PassBarrier? || a.FinishRound? || IsCommand(a)
  }

  /** A step of the arbiter that collects nothing adds to the inboxes and, in a Reset, lifts
      reports. */
  lemma BroadcastOnly(cfg: Config, c: Cluster, a: Action, b: BoardId, d: Cluster)
    requires Enabled(cfg, c, a) && Broadcasts(a) && d == Apply(cfg, c, a) && b in c.links && b in c.arb.ceiling.reports
    ensures b in d.links && d.links[b] == c.links[b].(inbox := d.links[b].inbox)
    ensures b in d.arb.ceiling.reports && c.arb.ceiling.reports[b] <= d.arb.ceiling.reports[b]
    ensures !a.CmdReset? ==> d.arb.ceiling.reports[b] == c.arb.ceiling.reports[b]
  {
    if a.FinishRound? {
      FinishReports(c.arb, c.drained);
    } else if IsCommand(a) {
      CommandReports(c.arb, a, b);
    }
  }

  lemma BroadcastRecalls(l: Link, report: u64, l': Link, report': u64)
    requires Recalls(l, report) && report <= report' && l' == l.(inbox := l'.inbox)
    ensures Recalls(l', report')
  {
    SentMonotone(report, report', l.outbox);
  }

  /** Before the barrier nothing that counts is on its way. */
  lemma ReadyCollected(cfg: Config, c: Cluster, x: BoardId, b: BoardId, d: Cluster)
    requires AgreeInv(cfg, c) && Enabled(cfg, c, CollectReady(x)) && d == AfterReady(c, x)
    requires b in c.links && b in c.arb.ceiling.reports
    ensures b in d.links && b in d.arb.ceiling.reports && d.arb.ceiling == c.arb.ceiling
    ensures d.links[b] == c.links[b] || (c.links[b].outbox != [] && c.links[b].outbox[0].Ready? &&
                                         d.links[b] == c.links[b].(outbox := c.links[b].outbox[1..]))
  {
    assert LinkStarting(c.arb.peers[x], c.links[x]);
  }

  lemma CollectedRecalls(cfg: Config, c: Cluster, x: BoardId, b: BoardId, d: Cluster)
    requires AgreeInv(cfg, c) && AllRecall(c) && Enabled(cfg, c, CollectFrom(x)) && d == AfterCollect(c, x)
    requires b in d.links && b in d.arb.ceiling.reports && b in c.links && b in c.arb.ceiling.reports
    ensures Recalls(d.links[b], d.arb.ceiling.reports[b])
  {
    CollectSays(c.arb, c.drained, x, c.links[x].outbox[0]);
    CollectRecalls(c.links[x], c.arb.ceiling.reports[x]);
  }

  /** A step of one node leaves the arbiter and the other links alone. */
  lemma NodeOnly(cfg: Config, c: Cluster, a: Action, b: BoardId, d: Cluster)
    requires Enabled(cfg, c, a) && (a.Deliver? || a.PollGuest?) && d == Apply(cfg, c, a) && b in c.links
    ensures d.arb == c.arb && b in d.links
    ensures d.links[b] == if a.board != b then c.links[b]
                          else if a.Deliver? then LinkAfterDeliver(b, c.links[b], a.step)
                          else LinkAfterPoll(c.links[b], a.poll)
  {
  }

  lemma NodeRecalls(cfg: Config, c: Cluster, a: Action, b: BoardId, d: Cluster)
    requires b in c.links && LinkFacts(cfg, c.links[b]) && AllRecall(c) && b in c.arb.ceiling.reports
    requires Enabled(cfg, c, a) && (a.Deliver? || a.PollGuest?) && d == Apply(cfg, c, a)
    ensures d.arb == c.arb && b in d.links && Recalls(d.links[b], c.arb.ceiling.reports[b])
  {
    NodeOnly(cfg, c, a, b, d);
    if a.board == b {
      if a.Deliver? {
        ReadRecalls(cfg, b, c.links[b], c.arb.ceiling.reports[b], a.step, d.links[b]);
      } else {
        TurnRecalls(cfg, c.links[b], c.arb.ceiling.reports[b], a.poll, d.links[b]);
      }
    }
  }

  lemma RecallStep(cfg: Config, c: Cluster, a: Action, b: BoardId, d: Cluster)
    requires AgreeInv(cfg, c) && AllRecall(c) && Enabled(cfg, c, a) && d == Apply(cfg, c, a)
    requires b in c.links && b in c.arb.ceiling.reports && LinkFacts(cfg, c.links[b])
    ensures b in d.links && b in d.arb.ceiling.reports && Recalls(d.links[b], d.arb.ceiling.reports[b])
  {
    if a.Deliver? || a.PollGuest? {
      NodeRecalls(cfg, c, a, b, d);
    } else if a.CollectFrom? {
      ShapeKept(cfg, c, a);
      CollectedRecalls(cfg, c, a.board, b, d);
    } else if a.CollectReady? {
      ReadyCollected(cfg, c, a.board, b, d);
      if c.links[b].outbox != [] {
        CollectRecalls(c.links[b], c.arb.ceiling.reports[b]);
      }
    } else {
      BroadcastOnly(cfg, c, a, b, d);
      BroadcastRecalls(c.links[b], c.arb.ceiling.reports[b], d.links[b], d.arb.ceiling.reports[b]);
    }
  }

  lemma {:induction false} RecallAlongRun(cfg: Config, actions: seq<Action>)
    requires Exec(cfg, Init(cfg), actions).Some?
    ensures FactsHold(cfg, Exec(cfg, Init(cfg), actions).value) && AllRecall(Exec(cfg, Init(cfg), actions).value)
    decreases |actions|
  {
    FactsAlongRun(cfg, actions);
    if actions != [] {
      var init := actions[..|actions| - 1];
      RecallAlongRun(cfg, init);
      var c, d := Exec(cfg, Init(cfg), init).value, Exec(cfg, Init(cfg), actions).value;
      ShapeKept(cfg, c, actions[|actions| - 1]);
      forall b | b in d.links && b in d.arb.ceiling.reports ensures Recalls(d.links[b], d.arb.ceiling.reports[b]) {
        RecallStep(cfg, c, actions[|actions| - 1], b, d);
      }
    }
  }

  // ---- no step of a node makes a board prone ----

  /** Anchored and not prone. */
  ghost predicate Safe(cfg: Config, b: BoardId, l: Link, report: u64, limit: u64, floor: int) {
    !Prone(cfg, b, l, report, limit) && Anchored(cfg, b, l, report, limit, floor)
  }

  predicate KnownLink(cfg: Config, l: Link, report: u64) {
    LinkFacts(cfg, l) && Recalls(l, report)
  }

  /** With the same reports, the same clock and no further reach. */
  lemma NoNewChance(cfg: Config, b: BoardId, l: Link, l': Link, report: u64, limit: u64)
    requires LastSent(report, l'.outbox) == LastSent(report, l.outbox) && l'.node.clock == l.node.clock
    requires Highest(report, l'.outbox) == Highest(report, l.outbox)
    requires QuietOf(b, l').hi <= QuietOf(b, l).hi && (Runs(QuietOf(b, l')) <==> Runs(QuietOf(b, l)))
    ensures Exposed(cfg, b, l', report, limit) ==> Exposed(cfg, b, l, report, limit)
  {
  }

  lemma ReadReach(b: BoardId, l: Link, out: StepOutcome)
    requires NodeHolds(l.node) && l.inbox != []
    requires out.Stepped? ==> NodeOnMessage(l.node.state, l.inbox[0]).effect != StepOnce(b)
    ensures var l', q := LinkAfterDeliver(b, l, out), Unrun(ProspectOf(l.node), b, l.inbox[0]);
            QuietOf(b, l').hi <= QuietOf(b, l).hi && (Runs(QuietOf(b, l')) <==> Runs(QuietOf(b, l))) &&
            Alike(ProspectOf(l'.node), q) && ProspectOf(l'.node).hi == q.hi && l'.inbox == l.inbox[1..] &&
            l'.node.lastReport == Recalled(l.node.lastReport, l.node.state, l.inbox[0])
  {
    var l', q := LinkAfterDeliver(b, l, out), Take(ProspectOf(l.node), b, l.inbox[0], 0);
    AheadMonotone(ProspectOf(l'.node), q, b, l'.inbox, 0, 0);
    AheadAlike(ProspectOf(l'.node), q, b, l'.inbox, 0, 0);
  }

  /** What a lifted board may still do is what it could do before it read. */
  lemma ReadKeepsLifted(cfg: Config, b: BoardId, l: Link, l': Link, report: u64, limit: u64, floor: int)
    requires l.inbox != [] && l'.inbox == l.inbox[1..] && l'.node.clock == l.node.clock
    requires Alike(ProspectOf(l'.node), Unrun(ProspectOf(l.node), b, l.inbox[0]))
    requires l'.node.lastReport == Recalled(l.node.lastReport, l.node.state, l.inbox[0])
    requires LastSent(report, l'.outbox) == LastSent(report, l.outbox)
    ensures MaySlip(cfg, b, l', report, limit) ==> MaySlip(cfg, b, l, report, limit)
    ensures Sheltered(cfg, b, l, report, limit, floor) ==> Sheltered(cfg, b, l', report, limit, floor)
  {
    var p', q := ProspectOf(l'.node), Unrun(ProspectOf(l.node), b, l.inbox[0]);
    if MaySlip(cfg, b, l', report, limit) {
      SlipsAlike(cfg, p', q, l'.node.lastReport, b, l'.inbox, report, limit);
    }
    if StaysFrom(cfg, b, l, floor) {
      TellsFromAlike(cfg, q, p', l'.node.lastReport, b, l'.inbox, floor);
    }
  }

  /** A message that is read without a step being taken. */
  lemma ReadStaysSafe(cfg: Config, b: BoardId, l: Link, out: StepOutcome, report: u64, limit: u64, floor: int)
    requires KnownLink(cfg, l, report) && l.inbox != [] && Safe(cfg, b, l, report, limit, floor)
    requires out.Stepped? ==> NodeOnMessage(l.node.state, l.inbox[0]).effect != StepOnce(b)
    ensures Safe(cfg, b, LinkAfterDeliver(b, l, out), report, limit, floor)
  {
    var l' := LinkAfterDeliver(b, l, out);
    ReadSent(b, l, out, report);
    ReadReach(b, l, out);
    NoNewChance(cfg, b, l, l', report, limit);
    ReadKeepsLifted(cfg, b, l, l', report, limit, floor);
    assert ReportsFrom(l'.outbox, floor);
  }

  /** A poll within the ceiling; what the board may still do is no more than before. */
  lemma TurnReach(cfg: Config, b: BoardId, l: Link, now: u64)
    requires NodeHolds(l.node) && PollPossible(l.node, Quiet(now), cfg.stepBound)
    ensures var l' := LinkAfterPoll(l, Quiet(now));
            QuietOf(b, l').hi <= QuietOf(b, l).hi && Alike(QuietOf(b, l'), QuietOf(b, l)) &&
            l.node.clock <= l'.node.clock == now <= l.node.allowedNs <= QuietOf(b, l).hi &&
            l.node.clock < l.node.allowedNs && Runs(ProspectOf(l.node)) &&
            ProspectOf(l'.node) == ProspectOf(l.node).(hi := now) && l'.inbox == l.inbox
  {
    var p, p' := ProspectOf(l.node), ProspectOf(LinkAfterPoll(l, Quiet(now)).node);
    AheadMonotone(p', Idle(p), b, l.inbox, 0, 0);
    AheadAlike(p', p, b, l.inbox, 0, 0);
    assert Ahead(Idle(p), b, l.inbox, 0) == QuietOf(b, l);
    AheadFolds(Idle(p), b, l.inbox, 0);
  }

  /** A poll that is not reported leaves the board below the ceiling its report allows, unless it
      might have got there before. */
  lemma SilentTurnNotExposed(cfg: Config, b: BoardId, l: Link, now: u64, report: u64, limit: u64)
    requires 0 < cfg.marginNs && KnownLink(cfg, l, report)
    requires PollPossible(l.node, Quiet(now), cfg.stepBound) && AfterPoll(l.node, Quiet(now)).sent == []
    ensures Exposed(cfg, b, LinkAfterPoll(l, Quiet(now)), report, limit) ==> Exposed(cfg, b, l, report, limit)
  {
    TurnReach(cfg, b, l, now);
    assert LinkAfterPoll(l, Quiet(now)).outbox == l.outbox;
  }

  lemma SilentTurnSafe(cfg: Config, b: BoardId, l: Link, now: u64, report: u64, limit: u64, floor: int)
    requires 0 < cfg.marginNs && KnownLink(cfg, l, report) && Safe(cfg, b, l, report, limit, floor)
    requires PollPossible(l.node, Quiet(now), cfg.stepBound) && AfterPoll(l.node, Quiet(now)).sent == []
    ensures Safe(cfg, b, LinkAfterPoll(l, Quiet(now)), report, limit, floor)
  {
    var l' := LinkAfterPoll(l, Quiet(now));
    SilentTurnNotExposed(cfg, b, l, now, report, limit);
    TurnReach(cfg, b, l, now);
    assert l'.outbox == l.outbox && l'.node.lastReport == l.node.lastReport;
    var p, p' := ProspectOf(l.node), ProspectOf(l'.node);
    if MaySlip(cfg, b, l', report, limit) {
      SlipsAlike(cfg, p', p, l.node.lastReport, b, l.inbox, report, limit);
    }
    if StaysFrom(cfg, b, l, floor) {
      TellsFromAlike(cfg, p, p', l.node.lastReport, b, l.inbox, floor);
    }
  }

  /** The queue after a report. */
  lemma Reported(report: u64, outbox: seq<ControlToArbiter>, now: u64)
    requires !StopIn(outbox)
    ensures LastSent(report, outbox + [TimeReport(now)]) == now
    ensures Highest(report, outbox + [TimeReport(now)]) == Max(Highest(report, outbox), now)
    ensures LastSent(report, outbox) <= Highest(report, outbox)
  {
    OneReport(report, outbox, now);
    HighestAppend(report, outbox, [TimeReport(now)]);
    SentShort(LastSent(report, outbox), [TimeReport(now)]);
  }

  /** Reports ahead of the last one leave less room to fall silent. */
  lemma GroundedReportSafe(cfg: Config, b: BoardId, l: Link, l': Link, report: u64, limit: u64)
    requires 0 < cfg.thresholdNs && 0 < cfg.marginNs
    requires !StopIn(l.outbox) && !Exposed(cfg, b, l, report, limit)
    requires LastSent(report, l.outbox) <= l'.node.clock && l'.outbox == l.outbox + [TimeReport(l'.node.clock)]
    requires QuietOf(b, l').hi <= QuietOf(b, l).hi && Runs(QuietOf(b, l')) == Runs(QuietOf(b, l))
    ensures !Prone(cfg, b, l', report, limit)
  {
    Reported(report, l.outbox, l'.node.clock);
  }

  /** A lifted board that reports again exposes itself only if it might have slipped. */
  lemma LiftedReportSafe(cfg: Config, b: BoardId, l: Link, l': Link, report: u64, limit: u64)
    requires 0 < cfg.thresholdNs && 0 < cfg.marginNs && KnownLink(cfg, l, report) && !StopIn(l.outbox)
    requires !Prone(cfg, b, l, report, limit) && l.node.clock < LastSent(report, l.outbox) && report < limit
    requires var t, p := l'.node.clock, ProspectOf(l.node);
             l'.outbox == l.outbox + [TimeReport(t)] && ProspectOf(l'.node) == p.(hi := t) && l'.inbox == l.inbox &&
             Runs(p) && p.hi < p.allowed < t + cfg.thresholdNs && p.hi <= t <= p.allowed && l.node.lastReport != Some(t)
    requires Runs(QuietOf(b, l')) == Runs(QuietOf(b, l))
    ensures !Prone(cfg, b, l', report, limit)
  {
    var t := l'.node.clock;
    Reported(report, l.outbox, t);
    SentWithin(report, l.outbox, l.node.clock);
    assert !SlipsAt(cfg, ProspectOf(l.node), l.node.lastReport, b, l.inbox, t, report, limit);
  }

  lemma ReportingTurnNotProne(cfg: Config, b: BoardId, l: Link, now: u64, report: u64, limit: u64, floor: int)
    requires 0 < cfg.thresholdNs && 0 < cfg.marginNs && KnownLink(cfg, l, report) && !StopIn(l.outbox)
    requires Safe(cfg, b, l, report, limit, floor)
    requires PollPossible(l.node, Quiet(now), cfg.stepBound) && AfterPoll(l.node, Quiet(now)).sent == [TimeReport(now)]
    ensures !Prone(cfg, b, LinkAfterPoll(l, Quiet(now)), report, limit)
  {
    var l' := LinkAfterPoll(l, Quiet(now));
    TurnReach(cfg, b, l, now);
    if LastSent(report, l.outbox) <= l.node.clock {
      GroundedReportSafe(cfg, b, l, l', report, limit);
    } else {
      LiftedReportSafe(cfg, b, l, l', report, limit);
    }
  }

  lemma ReportingTurnSafe(cfg: Config, b: BoardId, l: Link, now: u64, report: u64, limit: u64, floor: int)
    requires 0 < cfg.thresholdNs && 0 < cfg.marginNs && KnownLink(cfg, l, report) && !StopIn(l.outbox)
    requires Safe(cfg, b, l, report, limit, floor)
    requires PollPossible(l.node, Quiet(now), cfg.stepBound) && AfterPoll(l.node, Quiet(now)).sent == [TimeReport(now)]
    ensures Safe(cfg, b, LinkAfterPoll(l, Quiet(now)), report, limit, floor)
  {
    ReportingTurnNotProne(cfg, b, l, now, report, limit, floor);
    TurnReach(cfg, b, l, now);
    Reported(report, l.outbox, now);
    SentFrom(report, l.outbox, floor);
    assert CanReport(cfg, ProspectOf(l.node), l.node.lastReport, now);
  }

  lemma TurnStaysSafe(cfg: Config, b: BoardId, l: Link, now: u64, report: u64, limit: u64, floor: int)
    requires 0 < cfg.thresholdNs && 0 < cfg.marginNs && KnownLink(cfg, l, report) && !StopIn(l.outbox)
    requires Safe(cfg, b, l, report, limit, floor) && PollPossible(l.node, Quiet(now), cfg.stepBound)
    ensures Safe(cfg, b, LinkAfterPoll(l, Quiet(now)), report, limit, floor)
  {
    if AfterPoll(l.node, Quiet(now)).sent == [] {
      SilentTurnSafe(cfg, b, l, now, report, limit, floor);
    } else {
      ReportingTurnSafe(cfg, b, l, now, report, limit, floor);
    }
  }

  // ---- nor does a step of the arbiter ----

  /** A lifted board has nothing on its way that counts. */
  lemma LiftedIsSilent(cfg: Config, l: Link, report: u64)
    requires LinkFacts(cfg, l) && l.node.clock < LastSent(report, l.outbox)
    ensures LastSent(report, l.outbox) == report
    ensures l.outbox != [] ==> Said(report, l.outbox[0]) == report
  {
    SentWithin(report, l.outbox, l.node.clock);
    if l.outbox != [] {
      SentWithin(Said(report, l.outbox[0]), l.outbox[1..], l.node.clock);
    }
  }

  lemma CollectStaysSafe(cfg: Config, b: BoardId, l: Link, report: u64, limit: u64, floor: int)
    requires KnownLink(cfg, l, report) && Safe(cfg, b, l, report, limit, floor) && l.outbox != [] &&
             !l.outbox[0].HostStop?
    ensures Safe(cfg, b, l.(outbox := l.outbox[1..]), Said(report, l.outbox[0]), limit, floor)
  {
    var l', report' := l.(outbox := l.outbox[1..]), Said(report, l.outbox[0]);
    assert LastSent(report', l'.outbox) == LastSent(report, l.outbox);
    assert report' <= Highest(report', l'.outbox) <= Highest(report, l.outbox);
    assert forall i | 0 <= i < |l'.outbox| :: l'.outbox[i] == l.outbox[i + 1];
    SentWithin(report, l.outbox, LastSent(report, l.outbox));
    if l.node.clock < LastSent(report, l.outbox) {
      LiftedIsSilent(cfg, l, report);
    }
  }

  lemma LaterCeilings(b: BoardId, l: Link, m: ControlToNode)
    requires Fold(l.node.state, l.inbox) == NodeRunning && (m.ProbeWatch? || m.Allowed?)
    ensures var q, q' := QuietOf(b, l), QuietOf(b, l.(inbox := l.inbox + [m]));
            (Runs(q') <==> Runs(q)) && q'.hi == if Runs(q) && m.Allowed? then Max(q.hi, m.allowedNs) else q.hi
  {
    var p, q := ProspectOf(l.node), QuietOf(b, l);
    AheadAppend(p, b, l.inbox, [m], 0);
    AheadFolds(p, b, l.inbox, 0);
    IdleOnce(p, b, l.inbox, 0);
    assert [m][1..] == [];
    assert QuietOf(b, l.(inbox := l.inbox + [m])) == Idle(Take(q, b, m, 0));
  }

  /** A ceiling that the board's standing report allows. */
  lemma AllowedNotExposed(cfg: Config, b: BoardId, l: Link, l': Link, report: u64, a: u64, limit: u64)
    requires 0 < cfg.thresholdNs && Recalls(l, report) && !StopIn(l.outbox) && a <= TopFor(cfg, report, limit)
    requires limit <= report ==> limit <= LastSent(report, l.outbox)
    requires l'.outbox == l.outbox && l'.node == l.node && QuietOf(b, l').hi <= Max(QuietOf(b, l).hi, a)
    requires Runs(QuietOf(b, l')) <==> Runs(QuietOf(b, l))
    ensures Exposed(cfg, b, l', report, limit) ==> Exposed(cfg, b, l, report, limit)
  {
    HighestRises(report, l.outbox);
    SentWithin(report, l.outbox, LastSent(report, l.outbox));
  }

  /** A message that carries no ceiling the board's report does not allow. */
  lemma SentStaysSafe(cfg: Config, b: BoardId, l: Link, report: u64, m: ControlToNode, limit: u64, floor: int)
    requires 0 < cfg.thresholdNs && 0 < cfg.marginNs && KnownLink(cfg, l, report) && !StopIn(l.outbox)
    requires Fold(l.node.state, l.inbox) == NodeRunning
    requires m.ProbeWatch? || (m.Allowed? && floor + cfg.marginNs <= m.allowedNs <= TopFor(cfg, report, limit))
    requires Safe(cfg, b, l, report, limit, floor)
    ensures Safe(cfg, b, l.(inbox := l.inbox + [m]), report, limit, floor)
  {
    var l' := l.(inbox := l.inbox + [m]);
    LaterCeilings(b, l, m);
    AllowedNotExposed(cfg, b, l, l', report, if m.Allowed? then m.allowedNs else 0, limit);
    if l.node.clock < LastSent(report, l.outbox) {
      LiftedSentSafe(cfg, b, l, report, m, limit, floor);
    }
  }

  lemma LiftedSentSafe(cfg: Config, b: BoardId, l: Link, report: u64, m: ControlToNode, limit: u64, floor: int)
    requires 0 < cfg.thresholdNs && Sheltered(cfg, b, l, report, limit, floor)
    requires m.ProbeWatch? || (m.Allowed? && floor + cfg.marginNs <= m.allowedNs <= TopFor(cfg, report, limit))
    ensures var l' := l.(inbox := l.inbox + [m]);
            Sheltered(cfg, b, l', report, limit, floor) &&
            (MaySlip(cfg, b, l', report, limit) ==> MaySlip(cfg, b, l, report, limit))
  {
    var p := ProspectOf(l.node);
    if Slips(cfg, p, l.node.lastReport, b, l.inbox + [m], report, limit) {
      SlipsMore(cfg, p, l.node.lastReport, b, l.inbox, m, report, limit, floor + cfg.marginNs);
    }
    if StaysFrom(cfg, b, l, floor) {
      TellsFromMore(cfg, p, l.node.lastReport, b, l.inbox, m, floor);
    }
  }
}
