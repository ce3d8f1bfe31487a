/** When a start capped at `until` is followed by a stop for the cap that leaves some clock
    elsewhere: the exact condition on the state right after the start. */
module StopCondition {
  import opened Prelude
  import opened Control
  import opened Lifecycle
  import opened Arbiter
  import opened BoardRuntime
  import opened Protocol
  import opened Agreement
  import opened Reach
  import opened Hearing
  import opened ExactStop

  // ---- what a board can still tell ----

  /** The first chance of a board, running up to each ceiling it is given, to report `v` or more
      before it sends a stop report; the result is how far it can get when it takes that chance. */
  function FirstReport(p: Prospect, me: BoardId, inbox: seq<ControlToNode>, v: u64, stepBound: u64): Option<u64>
    decreases |inbox|
  {
    if Runs(p) && p.hi < p.allowed && v <= p.allowed then Some(Ahead(p, me, inbox, stepBound).hi)
    else if inbox == [] then None
    else if NodeOnMessage(p.state, inbox[0]).effect == StepOnce(me) && v <= SatAdd(Idle(p).hi, stepBound) then
      Some(Ahead(p, me, inbox, stepBound).hi)
    else FirstReport(Take(p, me, inbox[0], 0), me, inbox[1..], v, stepBound)
  }

  function FirstReportOf(cfg: Config, b: BoardId, l: Link, u: u64): Option<u64> {
    FirstReport(ProspectOf(l.node), b, l.inbox, u, cfg.stepBound)
  }

  /** The arbiter can hear from the board that it is at `u` or past it. */
  predicate CanTell(cfg: Config, b: BoardId, l: Link, report: u64, u: u64) {
    u <= Highest(report, l.outbox) ||
    (!StopIn(l.outbox) && (FirstReportOf(cfg, b, l, u).Some? || CanFollow(cfg, b, l, report, u)))
  }

  /** The same, and the board can get past `u` as well. */
  predicate CanTellPast(cfg: Config, b: BoardId, l: Link, report: u64, u: u64) {
    (u <= Highest(report, l.outbox) && u < ReachOf(cfg, b, l)) ||
    (!StopIn(l.outbox) && FirstReportOf(cfg, b, l, u).Some? && u < FirstReportOf(cfg, b, l, u).value)
  }

  /** A report lifted by a Reset stands in for a clock that is not there. */
  predicate LeftBehind(l: Link, report: u64, u: u64) {
    l.node.clock < u <= report
  }

  /** What can be checked right after the start. */
  predicate Inexact(cfg: Config, c: Cluster, u: u64) {
    (forall b | b in c.links && b in c.arb.ceiling.reports ::
        CanTell(cfg, b, c.links[b], c.arb.ceiling.reports[b], u)) &&
    exists b | b in c.links && b in c.arb.ceiling.reports ::
      CanTellPast(cfg, b, c.links[b], c.arb.ceiling.reports[b], u) ||
          LeftBehind(c.links[b], c.arb.ceiling.reports[b], u)
  }

  // ---- the first chance to report ----

  lemma {:induction false} FirstReportWithin(p: Prospect, me: BoardId, inbox: seq<ControlToNode>, v: u64,
                                             stepBound: u64)
    requires FirstReport(p, me, inbox, v, stepBound).Some?
    ensures FirstReport(p, me, inbox, v, stepBound).value <= Ahead(p, me, inbox, stepBound).hi
    decreases |inbox|
  {
    if Runs(p) && p.hi < p.allowed && v <= p.allowed {
    } else if NodeOnMessage(p.state, inbox[0]).effect == StepOnce(me) && v <= SatAdd(Idle(p).hi, stepBound) {
    } else {
      FirstReportWithin(Take(p, me, inbox[0], 0), me, inbox[1..], v, stepBound);
      AheadMonotone(Take(p, me, inbox[0], 0), Take(p, me, inbox[0], stepBound), me, inbox[1..], stepBound, stepBound);
    }
  }

  /** A board that can do less, but is not kept below `v`, has no chance that the other lacks. */
  lemma {:induction false} FirstReportMonotone(p: Prospect, q: Prospect, me: BoardId, inbox: seq<ControlToNode>, v: u64,
                                               stepBound: u64)
    requires NoFurther(p, q) && (p.hi == q.hi || q.hi < v) && FirstReport(p, me, inbox, v, stepBound).Some?
    ensures FirstReport(q, me, inbox, v, stepBound).Some?
    ensures FirstReport(p, me, inbox, v, stepBound).value <= FirstReport(q, me, inbox, v, stepBound).value
    decreases |inbox|
  {
    FirstReportWithin(p, me, inbox, v, stepBound);
    AheadMonotone(p, q, me, inbox, stepBound, stepBound);
    if Runs(q) && q.hi < q.allowed && v <= q.allowed {
    } else if NodeOnMessage(q.state, inbox[0]).effect == StepOnce(me) && v <= SatAdd(Idle(q).hi, stepBound) {
    } else {
      FirstReportMonotone(Take(p, me, inbox[0], 0), Take(q, me, inbox[0], 0), me, inbox[1..], v, stepBound);
    }
  }

  /** Running first, below `v`, loses no chance. */
  lemma FirstReportIdle(p: Prospect, me: BoardId, inbox: seq<ControlToNode>, v: u64, stepBound: u64)
    ensures (Runs(p) && p.hi < p.allowed && v <= p.allowed) ||
            FirstReport(Idle(p), me, inbox, v, stepBound) == FirstReport(p, me, inbox, v, stepBound)
  {
  }

  lemma {:induction false} FirstReportAppend(p: Prospect, me: BoardId, inbox: seq<ControlToNode>,
                                             more: seq<ControlToNode>, v: u64, stepBound: u64)
    ensures FirstReport(p, me, inbox, v, stepBound).Some? ==> FirstReport(p, me, inbox + more, v, stepBound).Some?
    ensures FirstReport(p, me, inbox, v, stepBound).None? ==>
              FirstReport(p, me, inbox + more, v, stepBound) ==
                  FirstReport(Ahead(p, me, inbox, 0), me, more, v, stepBound)
    decreases |inbox|
  {
    if inbox == [] {
      assert inbox + more == more;
      FirstReportIdle(p, me, more, v, stepBound);
    } else {
      assert (inbox + more)[1..] == inbox[1..] + more;
      FirstReportAppend(Take(p, me, inbox[0], 0), me, inbox[1..], more, v, stepBound);
    }
  }

  /** A chance that ends within `u` still does when only ceilings up to `u` follow. */
  lemma {:induction false} FirstReportCapped(p: Prospect, me: BoardId, inbox: seq<ControlToNode>,
                                             more: seq<ControlToNode>, v: u64, stepBound: u64, u: u64)
    requires FirstReport(p, me, inbox, v, stepBound).Some? && FirstReport(p, me, inbox, v, stepBound).value <= u
    requires forall i | 0 <= i < |more| :: Capped(more[i], u)
    ensures FirstReport(p, me, inbox + more, v, stepBound).Some? &&
            FirstReport(p, me, inbox + more, v, stepBound).value <= u
    decreases |inbox|
  {
    AheadAppend(p, me, inbox, more, stepBound);
    IdleOnce(p, me, inbox, stepBound);
    if Runs(p) && p.hi < p.allowed && v <= p.allowed {
      CappedReach(Ahead(p, me, inbox, stepBound), me, more, u, stepBound);
    } else if NodeOnMessage(p.state, inbox[0]).effect == StepOnce(me) && v <= SatAdd(Idle(p).hi, stepBound) {
      CappedReach(Ahead(p, me, inbox, stepBound), me, more, u, stepBound);
    } else {
      assert (inbox + more)[1..] == inbox[1..] + more;
      FirstReportCapped(Take(p, me, inbox[0], 0), me, inbox[1..], more, v, stepBound, u);
    }
  }

  // ---- no step gives a board a chance it did not have ----

  /** Whatever the board can do in `l'` it could do in `l`. */
  predicate NoGain(cfg: Config, b: BoardId, l: Link, report: u64, l': Link, report': u64, u: u64) {
    (CanTell(cfg, b, l', report', u) ==> CanTell(cfg, b, l, report, u)) &&
    (CanTellPast(cfg, b, l', report', u) ==> CanTellPast(cfg, b, l, report, u)) &&
    (LeftBehind(l', report', u) ==> LeftBehind(l, report, u))
  }

  /** After reading a message without running first. */
  lemma ReadLater(cfg: Config, b: BoardId, l: Link, n: Node, u: u64)
    requires l.inbox != [] && NoFurther(ProspectOf(n), Take(ProspectOf(l.node), b, l.inbox[0], 0)) &&
             n.clock == l.node.clock
    ensures FirstReport(ProspectOf(n), b, l.inbox[1..], u, cfg.stepBound).Some? ==>
              FirstReportOf(cfg, b, l, u).Some? &&
              FirstReport(ProspectOf(n), b, l.inbox[1..], u, cfg.stepBound).value <= FirstReportOf(cfg, b, l, u).value
  {
    var p, q, rest := ProspectOf(n), Take(ProspectOf(l.node), b, l.inbox[0], 0), l.inbox[1..];
    if FirstReport(p, b, rest, u, cfg.stepBound).Some? {
      FirstReportWithin(p, b, rest, u, cfg.stepBound);
      AheadMonotone(p, Take(ProspectOf(l.node), b, l.inbox[0], cfg.stepBound), b, rest, cfg.stepBound, cfg.stepBound);
      if p.hi == q.hi || q.hi < u {
        FirstReportMonotone(p, q, b, rest, u, cfg.stepBound);
      }
    }
  }

  /** A gdb step that is taken: it reports the time it has reached and then that it has stopped. */
  lemma SteppedGainsNothing(cfg: Config, b: BoardId, l: Link, out: StepOutcome, report: u64, u: u64)
    requires LinkFacts(cfg, l) && l.inbox != [] && StepPossible(l.node, out, cfg.stepBound)
    requires out.Stepped? && NodeOnMessage(l.node.state, l.inbox[0]).effect == StepOnce(b)
    ensures NoGain(cfg, b, l, report, LinkAfterDeliver(b, l, out), report, u)
  {
    var sent := [TimeReport(out.now), HostStop(out.reason)];
    assert LinkAfterDeliver(b, l, out).outbox == l.outbox + sent;
    HighestAppend(report, l.outbox, sent);
    StopInAppend(l.outbox, sent);
    NodeStaysInReach(cfg, b, l, out, Failed);
    assert sent[1].HostStop? && StopIn(sent);
    assert sent[1..][0].HostStop?;
    assert Highest(LastSent(report, l.outbox), sent) == Max(LastSent(report, l.outbox), out.now);
    assert u <= out.now ==> FirstReportOf(cfg, b, l, u) == Some(ReachOf(cfg, b, l));
  }

  lemma QuietGainsNothing(cfg: Config, b: BoardId, l: Link, l': Link, report: u64, u: u64)
    requires l.inbox != [] && l'.inbox == l.inbox[1..] && l'.node.clock == l.node.clock
    requires Highest(report, l'.outbox) == Highest(report, l.outbox) && (StopIn(l'.outbox) <==> StopIn(l.outbox))
    requires NoFurther(ProspectOf(l'.node), Take(ProspectOf(l.node), b, l.inbox[0], 0))
    requires ReachOf(cfg, b, l') <= ReachOf(cfg, b, l)
    ensures NoGain(cfg, b, l, report, l', report, u)
  {
    ReadLater(cfg, b, l, l'.node, u);
    AheadMonotone(ProspectOf(l'.node), Take(ProspectOf(l.node), b, l.inbox[0], 0), b, l.inbox[1..], 0, 0);
  }

  lemma ReadGainsNothing(cfg: Config, b: BoardId, l: Link, out: StepOutcome, report: u64, u: u64)
    requires LinkFacts(cfg, l) && l.inbox != [] && StepPossible(l.node, out, cfg.stepBound)
    ensures NoGain(cfg, b, l, report, LinkAfterDeliver(b, l, out), report, u)
  {
    if out.Stepped? && NodeOnMessage(l.node.state, l.inbox[0]).effect == StepOnce(b) {
      SteppedGainsNothing(cfg, b, l, out, report, u);
    } else {
      ReadSent(b, l, out, report);
      NodeStaysInReach(cfg, b, l, out, Failed);
      QuietGainsNothing(cfg, b, l, LinkAfterDeliver(b, l, out), report, u);
    }
  }

  /** What a poll sends, and the highest report it makes possible. */
  lemma TurnSent(cfg: Config, l: Link, out: PollOutcome, report: u64)
    requires LinkFacts(cfg, l) && PollPossible(l.node, out, cfg.stepBound)
    ensures var l' := LinkAfterPoll(l, out);
            l.node.clock < l.node.allowedNs && Runs(ProspectOf(l.node)) && l'.node.clock <= l.node.allowedNs &&
            (StopIn(l.outbox) ==> StopIn(l'.outbox)) &&
            (Highest(report, l'.outbox) <= Highest(report, l.outbox) ||
             (!StopIn(l.outbox) && Highest(report, l'.outbox) <= l'.node.clock))
  {
    var r := AfterPoll(l.node, out);
    HighestAppend(report, l.outbox, r.sent);
    StopInAppend(l.outbox, r.sent);
    var last := LastSent(report, l.outbox);
    if r.sent != [] {
      assert r.sent[0].TimeReport? ==> r.sent[0].virtualTimeNs == r.node.clock;
      assert |r.sent| == 1 || r.sent[1..][0].HostStop?;
      assert Highest(last, r.sent) <= Max(last, r.node.clock);
    }
  }

  lemma TurnChance(cfg: Config, b: BoardId, l: Link, out: PollOutcome, u: u64)
    requires LinkFacts(cfg, l) && PollPossible(l.node, out, cfg.stepBound)
    ensures var l' := LinkAfterPoll(l, out);
            FirstReportOf(cfg, b, l', u).Some? ==>
              FirstReportOf(cfg, b, l, u).Some? &&
                  FirstReportOf(cfg, b, l', u).value <= FirstReportOf(cfg, b, l, u).value
    ensures u <= l.node.allowedNs ==> FirstReportOf(cfg, b, l, u) == Some(ReachOf(cfg, b, l))
  {
    var p, p' := ProspectOf(l.node), ProspectOf(AfterPoll(l.node, out).node);
    NodeFollows(b, l, StepFailed, out, cfg.stepBound);
    if FirstReport(p', b, l.inbox, u, cfg.stepBound).Some? {
      if u <= p.allowed {
        FirstReportWithin(p', b, l.inbox, u, cfg.stepBound);
        NodeStaysInReach(cfg, b, l, StepFailed, out);
      } else {
        FirstReportIdle(p, b, l.inbox, u, cfg.stepBound);
        FirstReportMonotone(p', Idle(p), b, l.inbox, u, cfg.stepBound);
      }
    }
  }

  lemma TurnGainsNothing(cfg: Config, b: BoardId, l: Link, out: PollOutcome, report: u64, u: u64)
    requires LinkFacts(cfg, l) && PollPossible(l.node, out, cfg.stepBound)
    ensures NoGain(cfg, b, l, report, LinkAfterPoll(l, out), report, u)
  {
    var p := ProspectOf(l.node);
    TurnSent(cfg, l, out, report);
    TurnChance(cfg, b, l, out, u);
    NodeFollows(b, l, StepFailed, out, cfg.stepBound);
    NodeStaysInReach(cfg, b, l, StepFailed, out);
    AheadMonotone(ProspectOf(AfterPoll(l.node, out).node), Idle(p), b, l.inbox, 0, 0);
    assert Ahead(Idle(p), b, l.inbox, 0) == QuietOf(b, l);
    AheadFolds(Idle(p), b, l.inbox, 0);
  }

  lemma CollectGainsNothing(cfg: Config, b: BoardId, l: Link, report: u64, report': u64, u: u64)
    requires LinkFacts(cfg, l) && l.outbox != [] && !l.outbox[0].HostStop?
    requires report' == if l.outbox[0].TimeReport? then l.outbox[0].virtualTimeNs else report
    ensures NoGain(cfg, b, l, report, l.(outbox := l.outbox[1..]), report', u)
  {
    StopInTail(l.outbox);
  }

  /** A ceiling within the cap, and within a margin of what the board has reported. */
  lemma AllowedGainsNothing(cfg: Config, b: BoardId, l: Link, report: u64, sent: seq<ControlToNode>, u: u64)
    requires sent == [] || (|sent| == 1 && sent[0].Allowed? &&
             sent[0].allowedNs <= Min(u, SatAdd(report, cfg.marginNs)))
    requires Fold(l.node.state, l.inbox) == NodeRunning
    ensures NoGain(cfg, b, l, report, l.(inbox := l.inbox + sent), report, u)
  {
    if sent == [] {
      assert l.inbox + sent == l.inbox;
    } else {
      var p, a := ProspectOf(l.node), sent[0].allowedNs;
      assert sent == [Allowed(a)] && sent[1..] == [];
      HighestRises(report, l.outbox);
      AheadFolds(p, b, l.inbox, 0);
      AheadFolds(p, b, l.inbox, cfg.stepBound);
      AheadAppend(p, b, l.inbox, sent, 0);
      AheadAppend(p, b, l.inbox, sent, cfg.stepBound);
      FirstReportAppend(p, b, l.inbox, sent, u, cfg.stepBound);
      IdleOnce(p, b, l.inbox, 0);
      IdleOnce(p, b, l.inbox, cfg.stepBound);
      if FirstReportOf(cfg, b, l, u).Some? && FirstReportOf(cfg, b, l, u).value <= u {
        FirstReportCapped(p, b, l.inbox, sent, u, cfg.stepBound, u);
      }
    }
  }

  // ---- the session goes on ----

  /** Every stop reason on its way came from a simulator. */
  predicate ReasonsFromGuests(c: Cluster) {
    (c.drained.clusterStop.Some? ==> GuestReason(c.drained.clusterStop.value)) &&
    forall b | b in c.links :: StopsFromGuest(c.links[b].outbox)
  }

  predicate StopsFromGuest(outbox: seq<ControlToArbiter>) {
    forall i | 0 <= i < |outbox| :: outbox[i].HostStop? ==> GuestReason(outbox[i].reason)
  }

  lemma ReasonsStep(cfg: Config, c: Cluster, a: Action)
    requires ReasonsFromGuests(c) && Enabled(cfg, c, a)
    ensures ReasonsFromGuests(Apply(cfg, c, a))
  {
    match a
    case CollectFrom(b) => assert StopsFromGuest(c.links[b].outbox);
    case CollectReady(b) => assert StopsFromGuest(c.links[b].outbox);
    case Deliver(b, out) => assert StopsFromGuest(c.links[b].outbox);
    case PollGuest(b, out) => assert StopsFromGuest(c.links[b].outbox);
    case _ =>
  }

  lemma {:induction false} ReasonsAlongRun(cfg: Config, actions: seq<Action>)
    requires Exec(cfg, Init(cfg), actions).Some?
    ensures ReasonsFromGuests(Exec(cfg, Init(cfg), actions).value)
    decreases |actions|
  {
    if actions != [] {
      var init := actions[..|actions| - 1];
      ReasonsAlongRun(cfg, init);
      ReasonsStep(cfg, Exec(cfg, Init(cfg), init).value, actions[|actions| - 1]);
    }
  }

  /** Reports are still being collected for the cap. */
  predicate Open(c: Cluster) {
    c.arb.running && c.drained.clusterStop.None?
  }

  /** What a round publishes while the session goes on. */
  lemma FinishOpen(s: Session, d: Drained, u: u64, b: BoardId)
    requires CappedArb(s, d, u) && Finish(s, d).session.running && b in s.ceiling.reports
    ensures var sent := Finish(s, d).sent;
            sent == [] || (|sent| == 1 && sent[0].Allowed? &&
                sent[0].allowedNs <= Min(u, SatAdd(s.ceiling.reports[b], s.ceiling.marginNs)))
    ensures Finish(s, d).session.ceiling == s.ceiling
  {
    assert s.ceiling.VirtualTimeNs() <= s.ceiling.reports[b];
  }

  lemma FinishGainsNothing(cfg: Config, c: Cluster, u: u64, b: BoardId, d: Cluster)
    requires CappedSession(cfg, c, u) && d == Apply(cfg, c, FinishRound) && d.arb.running && b in c.links
    ensures b in d.links && b in d.arb.ceiling.reports
    ensures NoGain(cfg, b, c.links[b], c.arb.ceiling.reports[b], d.links[b], d.arb.ceiling.reports[b], u)
  {
    FinishOpen(c.arb, c.drained, u, b);
    FinishCapped(c.arb, c.drained, u);
    assert LinkAgrees(c.arb, c.links[b]);
    AllowedGainsNothing(cfg, b, c.links[b], c.arb.ceiling.reports[b], Finish(c.arb, c.drained).sent, u);
  }

  lemma CollectOpen(cfg: Config, c: Cluster, a: BoardId, u: u64, b: BoardId, d: Cluster)
    requires CappedSession(cfg, c, u) && Enabled(cfg, c, CollectFrom(a)) && d == AfterCollect(c, a) && Open(d) &&
             b in c.links
    ensures b in d.links && b in d.arb.ceiling.reports
    ensures NoGain(cfg, b, c.links[b], c.arb.ceiling.reports[b], d.links[b], d.arb.ceiling.reports[b], u)
  {
    var msg := c.links[a].outbox[0];
    assert a in c.arb.peers && !c.arb.peers[a].AwaitingReady?;
    assert LinkFacts(cfg, c.links[a]);
    CollectedReport(c.arb, c.drained, a, msg);
    if a == b {
      CollectGainsNothing(cfg, b, c.links[b], c.arb.ceiling.reports[b], d.arb.ceiling.reports[b], u);
    }
  }

  lemma CollectedReport(s: Session, d: Drained, b: BoardId, msg: ControlToArbiter)
    requires b in s.peers && b in s.ceiling.reports && !s.peers[b].AwaitingReady? && s.gdb.None?
    ensures var (s', d') := Collect(s, d, b, msg);
            s'.ceiling.reports == s.ceiling.reports[b := Said(s.ceiling.reports[b], msg)] &&
            (d'.clusterStop == if msg.HostStop? then Some(msg.reason) else d.clusterStop)
  {
    assert s.ceiling.reports == s.ceiling.reports[b := s.ceiling.reports[b]];
  }

  lemma NodeGainsNothing(cfg: Config, c: Cluster, a: Action, u: u64, b: BoardId, d: Cluster)
    requires FactsHold(cfg, c) && Enabled(cfg, c, a) && (a.Deliver? || a.PollGuest?) && d == Apply(cfg, c, a) &&
             b in c.links
    ensures b in d.links && b in d.arb.ceiling.reports
    ensures NoGain(cfg, b, c.links[b], c.arb.ceiling.reports[b], d.links[b], d.arb.ceiling.reports[b], u)
  {
    assert LinkFacts(cfg, c.links[b]);
    if a.board == b {
      if a.Deliver? {
        ReadGainsNothing(cfg, b, c.links[b], a.step, c.arb.ceiling.reports[b], u);
      } else {
        TurnGainsNothing(cfg, b, c.links[b], a.poll, c.arb.ceiling.reports[b], u);
      }
    }
  }

  lemma StepGainsNothing(cfg: Config, c: Cluster, a: Action, u: u64, b: BoardId, d: Cluster)
    requires CappedSession(cfg, c, u) && Enabled(cfg, c, a) && !IsCommand(a) && d == Apply(cfg, c, a) && Open(d) &&
             b in c.links
    ensures b in d.links && b in d.arb.ceiling.reports
    ensures NoGain(cfg, b, c.links[b], c.arb.ceiling.reports[b], d.links[b], d.arb.ceiling.reports[b], u)
  {
    match a
    case FinishRound => FinishGainsNothing(cfg, c, u, b, d);
    case CollectFrom(x) => CollectOpen(cfg, c, x, u, b, d);
    case _ => NodeGainsNothing(cfg, c, a, u, b, d);
  }

  // ---- a board that cannot tell keeps the cluster from stopping for the cap ----

  ghost predicate Mute(cfg: Config, c: Cluster, u: u64, b: BoardId) {
    CappedSession(cfg, c, u) && ReasonsFromGuests(c) && c.arb.lastStop != Some(Until) && b in c.links &&
    b in c.arb.ceiling.reports && (Open(c) ==> !CanTell(cfg, b, c.links[b], c.arb.ceiling.reports[b], u))
  }

  /** A session that stops for the cap has heard it from every board. */
  lemma StopMeansHeard(s: Session, d: Drained, u: u64)
    requires CappedArb(s, d, u) && SessionAgrees(s, d) && (d.clusterStop.Some? ==> GuestReason(d.clusterStop.value))
    requires Finish(s, d).session.lastStop == Some(Until) && s.lastStop != Some(Until)
    ensures s.running && d.clusterStop.None? && forall b | b in s.ceiling.reports :: u <= s.ceiling.reports[b]
  {
  }

  lemma StopStep(cfg: Config, c: Cluster, a: Action, u: u64, b: BoardId, d: Cluster)
    requires CappedSession(cfg, c, u) && ReasonsFromGuests(c) && Enabled(cfg, c, a) && !IsCommand(a) &&
             d == Apply(cfg, c, a)
    requires c.arb.lastStop != Some(Until) && d.arb.lastStop == Some(Until) && b in c.arb.ceiling.reports
    ensures a.FinishRound? && Open(c) && u <= c.arb.ceiling.reports[b]
  {
    match a
    case FinishRound => StopMeansHeard(c.arb, c.drained, u);
    case CollectFrom(x) => CollectCapped(c.arb, c.drained, x, c.links[x].outbox[0], u);
    case _ =>
  }

  lemma OpenBefore(cfg: Config, c: Cluster, a: Action, u: u64, d: Cluster)
    requires CappedSession(cfg, c, u) && Enabled(cfg, c, a) && !IsCommand(a) && d == Apply(cfg, c, a) && Open(d)
    ensures Open(c)
  {
    match a
    case FinishRound => FinishCapped(c.arb, c.drained, u);
    case CollectFrom(x) => CollectCapped(c.arb, c.drained, x, c.links[x].outbox[0], u);
    case _ =>
  }

  lemma MuteStep(cfg: Config, c: Cluster, a: Action, u: u64, b: BoardId, d: Cluster)
    requires Mute(cfg, c, u, b) && Enabled(cfg, c, a) && !IsCommand(a) && d == Apply(cfg, c, a)
    ensures Mute(cfg, d, u, b)
  {
    SessionStep(cfg, c, a, u);
    ReasonsStep(cfg, c, a);
    if d.arb.lastStop == Some(Until) {
      StopStep(cfg, c, a, u, b, d);
      HighestRises(c.arb.ceiling.reports[b], c.links[b].outbox);
    }
    if Open(d) {
      OpenBefore(cfg, c, a, u, d);
      StepGainsNothing(cfg, c, a, u, b, d);
    }
  }

  // ---- when no board can tell and be elsewhere, the stop is exact ----

  ghost predicate FairLink(cfg: Config, b: BoardId, l: Link, report: u64, u: u64) {
    !CanTellPast(cfg, b, l, report, u) && !LeftBehind(l, report, u)
  }

  ghost predicate Fair(cfg: Config, c: Cluster, u: u64, b: BoardId) {
    CappedSession(cfg, c, u) && ReasonsFromGuests(c) && b in c.links && b in c.arb.ceiling.reports &&
    (Open(c) ==> FairLink(cfg, b, c.links[b], c.arb.ceiling.reports[b], u)) &&
    (c.arb.lastStop == Some(Until) ==> u <= c.links[b].node.clock && ReachOf(cfg, b, c.links[b]) <= u)
  }

  lemma ClockRises(cfg: Config, c: Cluster, a: Action, b: BoardId, d: Cluster)
    requires Enabled(cfg, c, a) && !IsCommand(a) && d == Apply(cfg, c, a) && b in c.links
    ensures b in d.links && c.links[b].node.clock <= d.links[b].node.clock
  {
  }

  lemma FairStep(cfg: Config, c: Cluster, a: Action, u: u64, b: BoardId, d: Cluster)
    requires Fair(cfg, c, u, b) && Enabled(cfg, c, a) && !IsCommand(a) && d == Apply(cfg, c, a)
    ensures Fair(cfg, d, u, b)
  {
    SessionStep(cfg, c, a, u);
    ReasonsStep(cfg, c, a);
    ClockRises(cfg, c, a, b, d);
    if d.arb.lastStop == Some(Until) {
      if c.arb.lastStop != Some(Until) {
        StopStep(cfg, c, a, u, b, d);
        HighestRises(c.arb.ceiling.reports[b], c.links[b].outbox);
      }
      ReachStep(cfg, c, a, u, b);
    }
    if Open(d) {
      OpenBefore(cfg, c, a, u, d);
      StepGainsNothing(cfg, c, a, u, b, d);
    }
  }

  lemma {:induction false} MuteAlong(cfg: Config, c: Cluster, more: seq<Action>, u: u64, b: BoardId)
    requires Mute(cfg, c, u, b) && Internal(more) && Exec(cfg, c, more).Some?
    ensures Mute(cfg, Exec(cfg, c, more).value, u, b)
    decreases |more|
  {
    if more != [] {
      var init := more[..|more| - 1];
      MuteAlong(cfg, c, init, u, b);
      MuteStep(cfg, Exec(cfg, c, init).value, more[|more| - 1], u, b, Exec(cfg, c, more).value);
    }
  }

  lemma {:induction false} FairAlong(cfg: Config, c: Cluster, more: seq<Action>, u: u64, b: BoardId)
    requires Fair(cfg, c, u, b) && Internal(more) && Exec(cfg, c, more).Some?
    ensures Fair(cfg, Exec(cfg, c, more).value, u, b)
    decreases |more|
  {
    if more != [] {
      var init := more[..|more| - 1];
      FairAlong(cfg, c, init, u, b);
      FairStep(cfg, Exec(cfg, c, init).value, more[|more| - 1], u, b, Exec(cfg, c, more).value);
    }
  }
}
