/** Sessions in which no board is prone stay so, whatever happens on its own; hence they are never
    stuck. */
module SoundSessions {
  import opened Prelude
  import opened Control
  import opened Lifecycle
  import opened TimeSync
  import opened Arbiter
  import opened BoardRuntime
  import opened Protocol
  import opened Agreement
  import opened Progress
  import opened Reach
  import opened Hearing
  import opened Drive
  import opened Slipping
  import opened Sticking

  ghost predicate Known(cfg: Config, c: Cluster) {
    FactsHold(cfg, c) && AllRecall(c)
  }

  lemma KnownStep(cfg: Config, c: Cluster, a: Action, d: Cluster)
    requires Known(cfg, c) && Enabled(cfg, c, a) && d == Apply(cfg, c, a)
    ensures Known(cfg, d)
  {
    FactsStep(cfg, c, a);
    forall b | b in d.links && b in d.arb.ceiling.reports ensures Recalls(d.links[b], d.arb.ceiling.reports[b]) {
      RecallStep(cfg, c, a, b, d);
    }
  }

  ghost predicate AllSafe(cfg: Config, c: Cluster, floor: int) {
    floor + cfg.marginNs <= Limit(c.arb) &&
    forall b | b in c.links && b in c.arb.ceiling.reports ::
      Safe(cfg, b, c.links[b], c.arb.ceiling.reports[b], Limit(c.arb), floor)
  }

  /** A running session that is about to end, or in which no board is prone. */
  ghost predicate Sound(cfg: Config, c: Cluster, floor: int) {
    !c.barrier && c.arb.running && (StopComing(c) || AllSafe(cfg, c, floor))
  }

  lemma StopStays(c: Cluster, d: Cluster, b: BoardId)
    requires StopComing(c) && (c.drained.clusterStop.Some? ==> d.drained.clusterStop.Some?)
    requires d.links.Keys == c.links.Keys && (forall x | x in c.links && x != b :: d.links[x] == c.links[x])
    requires b in c.links && StopIn(c.links[b].outbox) ==> StopIn(d.links[b].outbox) || d.drained.clusterStop.Some?
    ensures StopComing(d)
  {
    if !d.drained.clusterStop.Some? {
      var x :| x in c.links && StopIn(c.links[x].outbox);
      assert x in d.links && StopIn(d.links[x].outbox);
    }
  }

  /** One link has changed and is still safe. */
  lemma OneStaysSafe(cfg: Config, c: Cluster, b: BoardId, d: Cluster, floor: int)
    requires AllSafe(cfg, c, floor) && b in d.links && b in d.arb.ceiling.reports && d.arb.untilCap == c.arb.untilCap
    requires d.links == c.links[b := d.links[b]]
    requires d.arb.ceiling.reports == c.arb.ceiling.reports[b := d.arb.ceiling.reports[b]]
    requires Safe(cfg, b, d.links[b], d.arb.ceiling.reports[b], Limit(c.arb), floor)
    ensures AllSafe(cfg, d, floor)
  {
  }

  lemma DeliverStaysSound(cfg: Config, c: Cluster, b: BoardId, out: StepOutcome, d: Cluster, floor: int)
    requires Known(cfg, c) && Sound(cfg, c, floor) && Enabled(cfg, c, Deliver(b, out)) && b in c.arb.ceiling.reports
    requires d == c.(links := c.links[b := LinkAfterDeliver(b, c.links[b], out)])
    ensures Sound(cfg, d, floor)
  {
    var l := c.links[b];
    var r := AfterMessage(l.node, b, l.inbox[0], out);
    StopInAppend(l.outbox, r.sent);
    if StopComing(c) {
      StopStays(c, d, b);
    } else if out.Stepped? && NodeOnMessage(l.node.state, l.inbox[0]).effect == StepOnce(b) {
      assert r.sent[1].HostStop?;
      assert StopIn(d.links[b].outbox);
    } else {
      ReadStaysSafe(cfg, b, l, out, c.arb.ceiling.reports[b], Limit(c.arb), floor);
      OneStaysSafe(cfg, c, b, d, floor);
    }
  }

  lemma PollSends(l: Link, out: PollOutcome)
    ensures StopIn(l.outbox) || out.Halted? ==> StopIn(LinkAfterPoll(l, out).outbox)
  {
    var sent := AfterPoll(l.node, out).sent;
    StopInAppend(l.outbox, sent);
    if out.Halted? {
      assert sent[|sent| - 1].HostStop?;
    }
  }

  lemma QuietStaysSound(cfg: Config, c: Cluster, b: BoardId, now: u64, l': Link, d: Cluster, floor: int)
    requires 0 < cfg.thresholdNs && 0 < cfg.marginNs && Known(cfg, c) && !StopComing(c) && AllSafe(cfg, c, floor)
    requires b in c.links && PollPossible(c.links[b].node, Quiet(now), cfg.stepBound) && b in c.arb.ceiling.reports
    requires l' == LinkAfterPoll(c.links[b], Quiet(now)) && d == c.(links := c.links[b := l'])
    ensures AllSafe(cfg, d, floor)
  {
    TurnStaysSafe(cfg, b, c.links[b], now, c.arb.ceiling.reports[b], Limit(c.arb), floor);
    OneStaysSafe(cfg, c, b, d, floor);
  }

  lemma PollStaysSound(cfg: Config, c: Cluster, b: BoardId, out: PollOutcome, l': Link, d: Cluster, floor: int)
    requires 0 < cfg.thresholdNs && 0 < cfg.marginNs && Known(cfg, c) && Sound(cfg, c, floor)
    requires b in c.links && PollPossible(c.links[b].node, out, cfg.stepBound) && !out.Failed? &&
             b in c.arb.ceiling.reports
    requires l' == LinkAfterPoll(c.links[b], out) && d == c.(links := c.links[b := l'])
    ensures Sound(cfg, d, floor)
  {
    PollSends(c.links[b], out);
    if StopComing(c) {
      StopStays(c, d, b);
    } else if out.Halted? {
      assert StopIn(d.links[b].outbox);
    } else {
      QuietStaysSound(cfg, c, b, out.now, l', d, floor);
    }
  }

  lemma CollectStaysSound(cfg: Config, c: Cluster, b: BoardId, d: Cluster, floor: int)
    requires Known(cfg, c) && Sound(cfg, c, floor) && Enabled(cfg, c, CollectFrom(b)) && d == AfterCollect(c, b)
    requires b in c.arb.peers && b in c.arb.ceiling.reports && SessionAgrees(c.arb, c.drained)
    ensures Sound(cfg, d, floor) && d.arb.untilCap == c.arb.untilCap
  {
    var l := c.links[b];
    CollectSays(c.arb, c.drained, b, l.outbox[0]);
    StopInTail(l.outbox);
    if StopComing(c) {
      StopStays(c, d, b);
    } else if !l.outbox[0].HostStop? {
      CollectStaysSafe(cfg, b, l, c.arb.ceiling.reports[b], Limit(c.arb), floor);
      OneStaysSafe(cfg, c, b, d, floor);
    }
  }

  lemma FinishGoesOn(s: Session, d: Drained, b: BoardId)
    requires s.running && d.gdbInsn.None? && Finish(s, d).session.running && b in s.ceiling.reports
    ensures var e := Finish(s, d);
            d.clusterStop.None? && e.session == s.(allowed := e.session.allowed) &&
            (e.sent == [] || e.sent == [Allowed(s.ceiling.AllowedNsUntil(s.untilCap))]) &&
            s.ceiling.VirtualTimeNs() <= s.ceiling.reports[b]
  {
  }

  lemma SendStaysSafe(cfg: Config, c: Cluster, b: BoardId, sent: seq<ControlToNode>, m: ControlToNode, floor: int)
    requires 0 < cfg.thresholdNs && 0 < cfg.marginNs && Known(cfg, c) && !c.barrier && c.arb.running
    requires AllSafe(cfg, c, floor) && !StopComing(c) && b in c.links && b in c.arb.ceiling.reports
    requires sent == [] || (sent == [m] && (m.ProbeWatch? || m.Allowed?))
    requires m.Allowed? ==> floor + cfg.marginNs <= m.allowedNs <= TopFor(cfg, c.arb.ceiling.reports[b], Limit(c.arb))
    ensures Safe(cfg, b, c.links[b].(inbox := c.links[b].inbox + sent), c.arb.ceiling.reports[b], Limit(c.arb), floor)
  {
    var l := c.links[b];
    if sent == [] {
      assert l.inbox + sent == l.inbox;
    } else {
      assert LinkAgrees(c.arb, l);
      SentStaysSafe(cfg, b, l, c.arb.ceiling.reports[b], m, Limit(c.arb), floor);
    }
  }

  lemma CommitStaysSound(cfg: Config, c: Cluster, e: Effect, m: ControlToNode, d: Cluster, floor: int)
    requires 0 < cfg.thresholdNs && 0 < cfg.marginNs && Known(cfg, c) && Sound(cfg, c, floor)
    requires c.drained.clusterStop.None? && e.session == c.arb.(allowed := e.session.allowed)
    requires e.sent == [] || (e.sent == [m] && (m.ProbeWatch? || m.Allowed?))
    requires m.Allowed? && !StopComing(c) ==> forall b | b in c.arb.ceiling.reports ::
               floor + cfg.marginNs <= m.allowedNs <= TopFor(cfg, c.arb.ceiling.reports[b], Limit(c.arb))
    requires d == Commit(c, e).(drained := NothingDrained)
    ensures Sound(cfg, d, floor)
  {
    if StopComing(c) {
      var x :| x in c.links && StopIn(c.links[x].outbox);
      assert x in d.links && StopIn(d.links[x].outbox);
    } else {
      forall b | b in d.links && b in d.arb.ceiling.reports
        ensures Safe(cfg, b, d.links[b], d.arb.ceiling.reports[b], Limit(d.arb), floor)
      {
        SendStaysSafe(cfg, c, b, e.sent, m, floor);
      }
    }
  }

  /** A published ceiling is within a margin of every report and of the floor below them. */
  lemma CeilingBetween(cfg: Config, c: Ceiling, until: Option<u64>, b: BoardId, floor: int)
    requires b in c.reports && c.marginNs == cfg.marginNs
    ensures c.AllowedNsUntil(until) <= TopFor(cfg, c.reports[b], until.GetOr(U64_MAX))
    ensures (forall x | x in c.reports :: floor <= c.reports[x]) && floor + cfg.marginNs <= until.GetOr(U64_MAX) ==>
              floor + cfg.marginNs <= c.AllowedNsUntil(until)
  {
  }

  lemma SafeCeiling(cfg: Config, c: Cluster, a: u64, floor: int)
    requires AllSafe(cfg, c, floor) && c.links.Keys == c.arb.ceiling.reports.Keys
    requires c.arb.ceiling.marginNs == cfg.marginNs && a == c.arb.ceiling.AllowedNsUntil(c.arb.untilCap)
    ensures forall b | b in c.arb.ceiling.reports ::
              floor + cfg.marginNs <= a <= TopFor(cfg, c.arb.ceiling.reports[b], Limit(c.arb))
  {
    forall x | x in c.arb.ceiling.reports ensures floor <= c.arb.ceiling.reports[x] {
      assert Safe(cfg, x, c.links[x], c.arb.ceiling.reports[x], Limit(c.arb), floor);
    }
    forall b | b in c.arb.ceiling.reports
      ensures floor + cfg.marginNs <= a <= TopFor(cfg, c.arb.ceiling.reports[b], Limit(c.arb))
    {
      CeilingBetween(cfg, c.arb.ceiling, c.arb.untilCap, b, floor);
    }
  }

  lemma RoundStaysSound(cfg: Config, c: Cluster, e: Effect, a: u64, d: Cluster, floor: int)
    requires 0 < cfg.thresholdNs && 0 < cfg.marginNs && Known(cfg, c) && Sound(cfg, c, floor)
    requires c.drained.clusterStop.None? && e.session == c.arb.(allowed := e.session.allowed)
    requires a == c.arb.ceiling.AllowedNsUntil(c.arb.untilCap) && (e.sent == [] || e.sent == [Allowed(a)])
    requires d == Commit(c, e).(drained := NothingDrained)
    ensures Sound(cfg, d, floor)
  {
    if !StopComing(c) {
      SafeCeiling(cfg, c, a, floor);
    }
    CommitStaysSound(cfg, c, e, Allowed(a), d, floor);
  }

  lemma FinishStaysSound(cfg: Config, c: Cluster, d: Cluster, floor: int)
    requires 0 < cfg.thresholdNs && 0 < cfg.marginNs && cfg.Valid() && Known(cfg, c) && Sound(cfg, c, floor)
    requires d == Apply(cfg, c, FinishRound) && d.arb.running
    ensures Sound(cfg, d, floor) && d.arb.untilCap == c.arb.untilCap
  {
    var b :| b in cfg.boards;
    FinishGoesOn(c.arb, c.drained, b);
    RoundStaysSound(cfg, c, Finish(c.arb, c.drained), c.arb.ceiling.AllowedNsUntil(c.arb.untilCap), d, floor);
  }

  /** No step changes the cap of a running session, nor leaves a board prone. */
  lemma SoundStep(cfg: Config, c: Cluster, a: Action, d: Cluster, floor: int)
    requires 0 < cfg.thresholdNs && 0 < cfg.marginNs && cfg.Valid() && Known(cfg, c) && Sound(cfg, c, floor)
    requires Enabled(cfg, c, a) && d == Apply(cfg, c, a) && d.arb.running
    requires (a.PollGuest? ==> !a.poll.Failed?) && !a.CmdStart? && !a.CmdReset?
    ensures Sound(cfg, d, floor) && d.arb.untilCap == c.arb.untilCap
  {
    match a
    case Deliver(b, out) => DeliverStaysSound(cfg, c, b, out, d, floor);
    case PollGuest(b, out) => PollStaysSound(cfg, c, b, out, LinkAfterPoll(c.links[b], out), d, floor);
    case CollectFrom(b) => CollectStaysSound(cfg, c, b, d, floor);
    case FinishRound => FinishStaysSound(cfg, c, d, floor);
    case CmdWatch(b) => CommitStaysSound(cfg, c, Effect(c.arb, [ProbeWatch(b)]), ProbeWatch(b), d, floor);
    case CmdStep(b) => CommitStaysSound(cfg, c, Effect(c.arb, []), ProbeWatch(b), d, floor);
    case _ =>
  }

  // ---- a stuck cluster has a prone board ----

  /** The slowest board of a stuck cluster is at the ceiling its report allows, or has stopped. */
  lemma SlowestIsProne(cfg: Config, c: Cluster, b: BoardId)
    requires Known(cfg, c) && Stuck(cfg, c) && b in c.links
    requires c.arb.ceiling.reports[b] == c.arb.ceiling.VirtualTimeNs()
    ensures Prone(cfg, b, c.links[b], c.arb.ceiling.reports[b], Limit(c.arb))
  {
    DeadlockIsQuiet(cfg, c, b);
    assert LinkAgrees(c.arb, c.links[b]) && NodeHolds(c.links[b].node);
    assert c.arb.allowed == c.arb.ceiling.AllowedNsUntil(c.arb.untilCap);
  }

  lemma StuckHasProne(cfg: Config, c: Cluster)
    requires cfg.Valid() && Known(cfg, c) && Stuck(cfg, c)
    ensures SomeProne(cfg, c) && !StopComing(c)
  {
    forall x | x in c.links ensures c.links[x].outbox == [] && c.drained == NothingDrained {
      DeadlockIsQuiet(cfg, c, x);
    }
    var b :| b in c.arb.ceiling.reports && c.arb.ceiling.reports[b] == c.arb.ceiling.VirtualTimeNs();
    assert b in c.links && c.drained == NothingDrained;
    SlowestIsProne(cfg, c, b);
  }

  lemma SoundIsNotStuck(cfg: Config, c: Cluster, floor: int)
    requires cfg.Valid() && Known(cfg, c) && Sound(cfg, c, floor)
    ensures !Stuck(cfg, c)
  {
    if Stuck(cfg, c) {
      StuckHasProne(cfg, c);
    }
  }

  // ---- runs without host commands ----

  /** The session is sound, or has ended for good. */
  ghost predicate SoundOrOver(cfg: Config, c: Cluster, floor: int) {
    Known(cfg, c) && !c.barrier &&
    if c.arb.running then Sound(cfg, c, floor) else c.arb.gdb.None? && c.drained.gdbInsn.None?
  }

  lemma OverStaysOver(s: Session, d: Drained)
    requires SessionAgrees(s, d) && (s.running || (s.gdb.None? && d.gdbInsn.None?))
    ensures Finish(s, d).session.running ==> s.running
    ensures !Finish(s, d).session.running ==> Finish(s, d).session.gdb.None?
  {
  }

  lemma SessionOver(cfg: Config, c: Cluster, a: Action, d: Cluster)
    requires Known(cfg, c) && !c.barrier && (c.arb.running || (c.arb.gdb.None? && c.drained.gdbInsn.None?))
    requires Enabled(cfg, c, a) && !IsCommand(a) && d == Apply(cfg, c, a)
    ensures !d.barrier && (d.arb.running ==> c.arb.running)
    ensures !d.arb.running ==> d.arb.gdb.None? && d.drained.gdbInsn.None?
  {
    match a
    case CollectFrom(b) => CollectAgrees(c.arb, c.drained, b, c.links[b].outbox[0]);
    case FinishRound => OverStaysOver(c.arb, c.drained);
    case _ =>
  }

  lemma {:induction false} SoundOnward(cfg: Config, c: Cluster, more: seq<Action>, floor: int)
    requires 0 < cfg.thresholdNs && 0 < cfg.marginNs && cfg.Valid() && Known(cfg, c) && Sound(cfg, c, floor)
    requires Internal(more) && Unfailing(more) && Exec(cfg, c, more).Some?
    ensures SoundOrOver(cfg, Exec(cfg, c, more).value, floor)
    decreases |more|
  {
    if more != [] {
      var init, a := more[..|more| - 1], more[|more| - 1];
      SoundOnward(cfg, c, init, floor);
      var before, d := Exec(cfg, c, init).value, Exec(cfg, c, more).value;
      KnownStep(cfg, before, a, d);
      SessionOver(cfg, before, a, d);
      if d.arb.running {
        SoundStep(cfg, before, a, d, floor);
      }
    }
  }

  /** A session in which every board is anchored and none is prone does not get stuck. */
  lemma SoundEnds(cfg: Config, c: Cluster, more: seq<Action>, floor: int)
    requires 0 < cfg.thresholdNs && 0 < cfg.marginNs && cfg.Valid() && Known(cfg, c) && !c.barrier && c.arb.running
    requires StopComing(c) || (AllAnchored(cfg, c, floor) && !SomeProne(cfg, c))
    ensures !Sticks(cfg, c, more)
  {
    if Sticks(cfg, c, more) {
      SoundOnward(cfg, c, more, floor);
      SoundIsNotStuck(cfg, Exec(cfg, c, more).value, floor);
    }
  }

  /** Nor does a session that is about to end. */
  lemma StopEnds(cfg: Config, c: Cluster, more: seq<Action>)
    requires 0 < cfg.thresholdNs && 0 < cfg.marginNs && cfg.Valid() && Known(cfg, c) && !c.barrier && c.arb.running
    requires StopComing(c)
    ensures !Sticks(cfg, c, more)
  {
    SoundEnds(cfg, c, more, 0);
  }

  // ---- whole runs, host commands included ----

  /** A session is opened: by a start, by a Reset, or by the step of a debugger once it is over. */
  predicate Opens(c: Cluster, a: Action) {
    a.CmdStart? || a.CmdReset? || (a.FinishRound? && c.drained.gdbInsn.Some?)
  }

  /** What can be checked whenever a session has been opened: it is about to end, or every board
      is anchored and none is prone. */
  ghost predicate OpensWell(cfg: Config, c: Cluster) {
    c.arb.running ==> exists floor :: Sound(cfg, c, floor)
  }

  ghost predicate Watched(cfg: Config, actions: seq<Action>)
    decreases |actions|
  {
    actions == [] ||
    var init, a := actions[..|actions| - 1], actions[|actions| - 1];
    Watched(cfg, init) && Exec(cfg, Init(cfg), init).Some? &&
    var c := Exec(cfg, Init(cfg), init).value;
    Enabled(cfg, c, a) && (a.PollGuest? ==> !a.poll.Failed?) && (Opens(c, a) ==> OpensWell(cfg, Apply(cfg, c, a)))
  }

  lemma OnlyOpened(cfg: Config, c: Cluster, a: Action, d: Cluster)
    requires FactsHold(cfg, c) && Enabled(cfg, c, a) && d == Apply(cfg, c, a) && d.arb.running && !Opens(c, a)
    ensures c.arb.running && !c.barrier
  {
    match a
    case CollectFrom(b) => CollectAgrees(c.arb, c.drained, b, c.links[b].outbox[0]);
    case _ =>
  }

  lemma {:induction false} WatchedIsSound(cfg: Config, actions: seq<Action>)
    requires cfg.Valid() && 0 < cfg.marginNs && 0 < cfg.thresholdNs
    requires Exec(cfg, Init(cfg), actions).Some? && Watched(cfg, actions)
    ensures OpensWell(cfg, Exec(cfg, Init(cfg), actions).value)
    decreases |actions|
  {
    if actions != [] {
      var init, a := actions[..|actions| - 1], actions[|actions| - 1];
      WatchedIsSound(cfg, init);
      RecallAlongRun(cfg, init);
      var c, d := Exec(cfg, Init(cfg), init).value, Exec(cfg, Init(cfg), actions).value;
      if d.arb.running && !Opens(c, a) {
        OnlyOpened(cfg, c, a, d);
        var floor :| Sound(cfg, c, floor);
        SoundStep(cfg, c, a, d, floor);
      }
    }
  }

  /** A cluster whose sessions are all opened well never gets stuck: whatever the interleaving and
      the host commands, Resets and gdb steps included, while a session runs towards its limit
      something can still happen on its own. */
  lemma NeverStuck(cfg: Config, actions: seq<Action>)
    requires cfg.Valid() && 0 < cfg.marginNs && 0 < cfg.thresholdNs
    requires Exec(cfg, Init(cfg), actions).Some? && Watched(cfg, actions)
    ensures !Stuck(cfg, Exec(cfg, Init(cfg), actions).value)
  {
    WatchedIsSound(cfg, actions);
    RecallAlongRun(cfg, actions);
    var c := Exec(cfg, Init(cfg), actions).value;
    if c.arb.running {
      var floor :| Sound(cfg, c, floor);
      SoundIsNotStuck(cfg, c, floor);
    }
  }
}
