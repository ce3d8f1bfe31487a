/** Exactly when a running cluster can get stuck: in the general case, in runs without a Reset, and
    right after a Reset. */
module StuckIff {
  import opened Prelude
  import opened Control
  import opened TimeSync
  import opened Arbiter
  import opened BoardRuntime
  import opened Protocol
  import opened Agreement
  import opened Progress
  import opened Reach
  import opened Hearing
  import opened Drive
  import opened Slipping
  import opened Sticking
  import opened SoundSessions
  import opened StickingRuns

  /** When a running cluster can get stuck on its own, whatever its history, host start or
      catch-up, capped or not: if and only if no stop report is coming and some board is prone.
      Of the states in which no board is prone it speaks for those with every board anchored. */
  lemma SticksIffProne(cfg: Config, actions: seq<Action>)
    requires cfg.Valid() && 0 < cfg.marginNs && 0 < cfg.thresholdNs
    requires Exec(cfg, Init(cfg), actions).Some? && Exec(cfg, Init(cfg), actions).value.arb.running
    requires var c := Exec(cfg, Init(cfg), actions).value;
             StopComing(c) || SomeProne(cfg, c) || exists floor :: AllAnchored(cfg, c, floor)
    ensures var c := Exec(cfg, Init(cfg), actions).value;
            !StopComing(c) && SomeProne(cfg, c) <==> exists more :: Sticks(cfg, c, more)
  {
    RecallAlongRun(cfg, actions);
    var c := Exec(cfg, Init(cfg), actions).value;
    if StopComing(c) {
      forall more ensures !Sticks(cfg, c, more) {
        StopEnds(cfg, c, more);
      }
    } else if SomeProne(cfg, c) {
      var more := ProneSticks(cfg, c);
    } else {
      var floor :| AllAnchored(cfg, c, floor);
      forall more ensures !Sticks(cfg, c, more) {
        SoundEnds(cfg, c, more, floor);
      }
    }
  }

  // ---- without a lifted report ----

  /** The report is a time the board has reached, and what is on its way is later. */
  predicate Unlifted(l: Link, report: u64) {
    Climbing(report, l.outbox) && LastSent(report, l.outbox) <= l.node.clock
  }

  predicate NoneLifted(c: Cluster) {
    forall b | b in c.links && b in c.arb.ceiling.reports :: Unlifted(c.links[b], c.arb.ceiling.reports[b])
  }

  /** A floor below every report and every ceiling. */
  function Lowest(cfg: Config): int {
    0 - (cfg.marginNs as int)
  }

  lemma UnliftedIsAnchored(cfg: Config, c: Cluster)
    requires NoneLifted(c)
    ensures AllAnchored(cfg, c, Lowest(cfg)) && (SomeProne(cfg, c) <==> SomeExposed(cfg, c))
  {
    forall b | b in c.links && b in c.arb.ceiling.reports
      ensures Anchored(cfg, b, c.links[b], c.arb.ceiling.reports[b], Limit(c.arb), Lowest(cfg))
    {
      LastIsHighest(c.arb.ceiling.reports[b], c.links[b].outbox);
    }
    if SomeProne(cfg, c) {
      var b :| b in c.links && b in c.arb.ceiling.reports &&
               Prone(cfg, b, c.links[b], c.arb.ceiling.reports[b], Limit(c.arb));
      assert Exposed(cfg, b, c.links[b], c.arb.ceiling.reports[b], Limit(c.arb));
    }
  }

  /** A running cluster without lifted reports can get stuck on its own if and only if no stop
      report is coming and some board is exposed. */
  lemma SticksIffExposed(cfg: Config, actions: seq<Action>)
    requires cfg.Valid() && 0 < cfg.marginNs && 0 < cfg.thresholdNs && Exec(cfg, Init(cfg), actions).Some?
    requires var c := Exec(cfg, Init(cfg), actions).value; c.arb.running && NoneLifted(c)
    ensures var c := Exec(cfg, Init(cfg), actions).value;
            !StopComing(c) && SomeExposed(cfg, c) <==> exists more :: Sticks(cfg, c, more)
  {
    UnliftedIsAnchored(cfg, Exec(cfg, Init(cfg), actions).value);
    SticksIffProne(cfg, actions);
  }

  // ---- in a run without a Reset no report is lifted ----

  lemma SendStaysUnlifted(l: Link, report: u64, n: Node, sent: seq<ControlToArbiter>)
    requires Unlifted(l, report) && |sent| <= 2 && (|sent| == 2 ==> sent[1].HostStop?) && l.node.clock <= n.clock
    requires sent != [] && sent[0].TimeReport? ==> sent[0].virtualTimeNs == n.clock
    ensures Unlifted(Link(n, l.inbox, l.outbox + sent), report)
  {
    SentAppend(report, l.outbox, sent);
    SentShort(LastSent(report, l.outbox), sent);
    ClimbAppend(report, l.outbox, sent);
    ClimbShort(LastSent(report, l.outbox), sent);
  }

  lemma ReadStaysUnlifted(cfg: Config, b: BoardId, l: Link, report: u64, out: StepOutcome, l': Link)
    requires Unlifted(l, report) && l.inbox != [] && StepPossible(l.node, out, cfg.stepBound)
    requires l' == LinkAfterDeliver(b, l, out)
    ensures Unlifted(l', report)
  {
    var r := AfterMessage(l.node, b, l.inbox[0], out);
    SendStaysUnlifted(l, report, r.node, r.sent);
  }

  lemma TurnStaysUnlifted(cfg: Config, l: Link, report: u64, out: PollOutcome, l': Link)
    requires Unlifted(l, report) && PollPossible(l.node, out, cfg.stepBound) && l' == LinkAfterPoll(l, out)
    ensures Unlifted(l', report)
  {
    var r := AfterPoll(l.node, out);
    SendStaysUnlifted(l, report, r.node, r.sent);
  }

  lemma CollectedUnlifted(cfg: Config, c: Cluster, x: BoardId, b: BoardId, d: Cluster)
    requires AgreeInv(cfg, c) && NoneLifted(c) && Enabled(cfg, c, CollectFrom(x)) && d == AfterCollect(c, x)
    requires b in d.links && b in d.arb.ceiling.reports && b in c.links && b in c.arb.ceiling.reports
    ensures Unlifted(d.links[b], d.arb.ceiling.reports[b])
  {
    CollectSays(c.arb, c.drained, x, c.links[x].outbox[0]);
    assert Unlifted(c.links[x], c.arb.ceiling.reports[x]);
  }

  lemma NodeStaysUnlifted(cfg: Config, c: Cluster, a: Action, b: BoardId, d: Cluster)
    requires NoneLifted(c) && Enabled(cfg, c, a) && (a.Deliver? || a.PollGuest?)
    requires d == Apply(cfg, c, a) && b in c.links && b in c.arb.ceiling.reports
    ensures d.arb == c.arb && b in d.links && Unlifted(d.links[b], c.arb.ceiling.reports[b])
  {
    NodeOnly(cfg, c, a, b, d);
    if a.board == b {
      if a.Deliver? {
        ReadStaysUnlifted(cfg, b, c.links[b], c.arb.ceiling.reports[b], a.step, d.links[b]);
      } else {
        TurnStaysUnlifted(cfg, c.links[b], c.arb.ceiling.reports[b], a.poll, d.links[b]);
      }
    }
  }

  lemma UnliftedStep(cfg: Config, c: Cluster, a: Action, b: BoardId, d: Cluster)
    requires AgreeInv(cfg, c) && NoneLifted(c) && Enabled(cfg, c, a) && !a.CmdReset? && d == Apply(cfg, c, a)
    requires b in c.links && b in c.arb.ceiling.reports
    ensures b in d.links && b in d.arb.ceiling.reports && Unlifted(d.links[b], d.arb.ceiling.reports[b])
  {
    if a.Deliver? || a.PollGuest? {
      NodeStaysUnlifted(cfg, c, a, b, d);
    } else if a.CollectFrom? {
      ShapeKept(cfg, c, a);
      CollectedUnlifted(cfg, c, a.board, b, d);
    } else if a.CollectReady? {
      ReadyCollected(cfg, c, a.board, b, d);
    } else {
      BroadcastOnly(cfg, c, a, b, d);
    }
  }

  /** The last ceiling published is within a margin of the slowest report. */
  ghost predicate CeilingWithin(s: Session) {
    s.allowed <= s.ceiling.AllowedNs()
  }

  lemma CollectKeepsWithin(s: Session, d: Drained, x: BoardId, msg: ControlToArbiter)
    requires x in s.peers && x in s.ceiling.reports && !s.peers[x].AwaitingReady?
    requires CeilingWithin(s) && s.ceiling.reports[x] <= Said(s.ceiling.reports[x], msg)
    ensures CeilingWithin(Collect(s, d, x, msg).0)
  {
    CollectSays(s, d, x, msg);
    var s' := Collect(s, d, x, msg).0;
    NaturalMonotone(s.ceiling, x, s'.ceiling.reports[x]);
    assert s'.ceiling == s.ceiling.WithReport(x, s'.ceiling.reports[x]);
  }

  lemma EffectKeepsWithin(s: Session, d: Drained, a: Action)
    requires CeilingWithin(s)
    ensures CeilingWithin(Finish(s, d).session)
    ensures IsCommand(a) && !a.CmdReset? ==> CeilingWithin(CommandEffect(s, a).session)
  {
  }

  lemma CeilingStep(cfg: Config, c: Cluster, a: Action, d: Cluster)
    requires FactsHold(cfg, c) && NoneLifted(c) && CeilingWithin(c.arb)
    requires Enabled(cfg, c, a) && !a.CmdReset? && d == Apply(cfg, c, a)
    ensures CeilingWithin(d.arb)
  {
    match a
    case CollectFrom(x) =>
      assert Unlifted(c.links[x], c.arb.ceiling.reports[x]);
      CollectKeepsWithin(c.arb, c.drained, x, c.links[x].outbox[0]);
    case _ => EffectKeepsWithin(c.arb, c.drained, a);
  }

  predicate WithoutReset(actions: seq<Action>) {
    forall i | 0 <= i < |actions| :: !actions[i].CmdReset?
  }

  lemma {:induction false} UnliftedAlongRun(cfg: Config, actions: seq<Action>)
    requires Exec(cfg, Init(cfg), actions).Some? && WithoutReset(actions)
    ensures var c := Exec(cfg, Init(cfg), actions).value; NoneLifted(c) && CeilingWithin(c.arb)
    decreases |actions|
  {
    if actions != [] {
      var init, a := actions[..|actions| - 1], actions[|actions| - 1];
      UnliftedAlongRun(cfg, init);
      FactsAlongRun(cfg, init);
      var c, d := Exec(cfg, Init(cfg), init).value, Exec(cfg, Init(cfg), actions).value;
      ShapeKept(cfg, c, a);
      CeilingStep(cfg, c, a, d);
      forall b | b in d.links && b in d.arb.ceiling.reports ensures Unlifted(d.links[b], d.arb.ceiling.reports[b]) {
        UnliftedStep(cfg, c, a, b, d);
      }
    }
  }

  // ---- right after a Reset ----

  /** The time a Reset goes on from. */
  ghost function ResumeAt(s: Session): u64 {
    if s.allowed <= s.ceiling.VirtualTimeNs() then s.ceiling.VirtualTimeNs() else s.allowed
  }

  function Lifted(report: u64, now: u64): u64 {
    if report <= now then now else report
  }

  lemma {:induction false} ClimbFrom(report: u64, outbox: seq<ControlToArbiter>, floor: int)
    requires Climbing(report, outbox) && floor <= report
    ensures ReportsFrom(outbox, floor)
    decreases |outbox|
  {
    if outbox != [] {
      ClimbFrom(Said(report, outbox[0]), outbox[1..], floor);
      forall i | 0 <= i < |outbox| && outbox[i].TimeReport? ensures floor <= outbox[i].virtualTimeNs {
        assert i > 0 ==> outbox[1..][i - 1] == outbox[i];
      }
    }
  }

  /** The board has not been lifted before; or it has, not above `now`, and the threshold is small
      enough for it to notice. No report of an earlier time is on its way. */
  predicate CanLift(cfg: Config, l: Link, report: u64, now: u64, floor: int) {
    ReportsFrom(l.outbox, floor) &&
    ((Unlifted(l, report) && floor <= report) ||
     (cfg.thresholdNs <= cfg.marginNs + 1 && report < U64_MAX && (report <= now || report <= l.node.clock) &&
      now + cfg.marginNs + cfg.thresholdNs <= U64_MAX))
  }

  /** What can be checked before a Reset. */
  ghost predicate Resettable(cfg: Config, c: Cluster) {
    ResumeAt(c.arb) < U64_MAX &&
    forall b | b in c.links && b in c.arb.ceiling.reports ::
      CanLift(cfg, c.links[b], c.arb.ceiling.reports[b], ResumeAt(c.arb), ResumeAt(c.arb) - cfg.marginNs as int)
  }

  lemma UnliftedIsResettable(cfg: Config, c: Cluster)
    requires Shape(cfg, c) && NoneLifted(c) && CeilingWithin(c.arb) && ResumeAt(c.arb) < U64_MAX
    ensures Resettable(cfg, c)
  {
    forall b | b in c.links && b in c.arb.ceiling.reports
      ensures CanLift(cfg, c.links[b], c.arb.ceiling.reports[b], ResumeAt(c.arb), ResumeAt(c.arb) - cfg.marginNs as int)
    {
      assert c.arb.ceiling.VirtualTimeNs() <= c.arb.ceiling.reports[b];
      ClimbFrom(c.arb.ceiling.reports[b], c.links[b].outbox, ResumeAt(c.arb) - cfg.marginNs as int);
    }
  }

  /** A board whose report a Reset has just lifted. */
  lemma LiftedIsAnchored(cfg: Config, b: BoardId, l: Link, inbox: seq<ControlToNode>, report: u64, now: u64, floor: int)
    requires LinkFacts(cfg, l) && CanLift(cfg, l, report, now, floor) && now < U64_MAX
    requires floor == now - cfg.marginNs as int && !MaySlip(cfg, b, l.(inbox := inbox), Lifted(report, now), U64_MAX)
    ensures Anchored(cfg, b, l.(inbox := inbox), Lifted(report, now), U64_MAX, floor)
  {
    SentMonotone(report, Lifted(report, now), l.outbox);
    SentWithin(Lifted(report, now), l.outbox, l.node.clock);
    if Unlifted(l, report) && floor <= report {
      LastIsHighest(report, l.outbox);
    } else if l.node.clock < LastSent(Lifted(report, now), l.outbox) {
      TellsUnlessSlips(cfg, ProspectOf(l.node), l.node.lastReport, b, inbox, now, U64_MAX, floor);
    }
  }

  lemma ResetSession(s: Session)
    ensures ApplyReset(s).session.running && ApplyReset(s).session.untilCap == None
    ensures ApplyReset(s).sent == [ClusterStop(ExternalStop), Reset, Start(ApplyReset(s).session.allowed)]
    ensures ApplyReset(s).session.ceiling == s.ceiling.AdvancedTo(ResumeAt(s))
    ensures s.ceiling.reports.Keys != {} ==> ApplyReset(s).session.allowed == SatAdd(ResumeAt(s), s.ceiling.marginNs)
  {
    if s.ceiling.reports.Keys != {} {
      AdvanceRaisesTheMinimum(s.ceiling, ResumeAt(s));
    }
  }

  lemma ResetIsAnchored(cfg: Config, c: Cluster, e: Effect, d: Cluster, floor: int)
    requires (forall b | b in c.links :: LinkFacts(cfg, c.links[b])) && Resettable(cfg, c) && !SomeProne(cfg, d)
    requires e.session.ceiling == c.arb.ceiling.AdvancedTo(ResumeAt(c.arb)) && e.session.untilCap == None
    requires d == Commit(c, e) && floor == ResumeAt(c.arb) - cfg.marginNs as int
    ensures AllAnchored(cfg, d, floor)
  {
    forall b | b in d.links && b in d.arb.ceiling.reports
      ensures Anchored(cfg, b, d.links[b], d.arb.ceiling.reports[b], Limit(d.arb), floor)
    {
      assert !Prone(cfg, b, d.links[b], d.arb.ceiling.reports[b], Limit(d.arb));
      assert LinkFacts(cfg, c.links[b]);
      LiftedIsAnchored(cfg, b, c.links[b], d.links[b].inbox, c.arb.ceiling.reports[b], ResumeAt(c.arb), floor);
    }
  }

  lemma ResetExec(cfg: Config, actions: seq<Action>, c: Cluster) returns (d: Cluster)
    requires Exec(cfg, Init(cfg), actions) == Some(c) && !c.barrier && c.drained == NothingDrained
    ensures Enabled(cfg, c, CmdReset) && d == Apply(cfg, c, CmdReset) == Commit(c, ApplyReset(c.arb))
    ensures Exec(cfg, Init(cfg), actions + [CmdReset]) == Some(d)
  {
    d := Apply(cfg, c, CmdReset);
    ExecMore(cfg, Init(cfg), actions, CmdReset);
  }

  /** A Reset, of a running cluster or a stopped one and whatever is on its way: the cluster can
      get stuck if and only if, right after it, no stop report is coming and some board is prone. */
  lemma ResetSticksIffProne(cfg: Config, actions: seq<Action>)
    requires cfg.Valid() && 0 < cfg.marginNs && 0 < cfg.thresholdNs && Exec(cfg, Init(cfg), actions).Some?
    requires var c := Exec(cfg, Init(cfg), actions).value; Enabled(cfg, c, CmdReset) && Resettable(cfg, c)
    ensures var d := Apply(cfg, Exec(cfg, Init(cfg), actions).value, CmdReset);
            !StopComing(d) && SomeProne(cfg, d) <==> exists more :: Sticks(cfg, d, more)
  {
    var c := Exec(cfg, Init(cfg), actions).value;
    var d := ResetExec(cfg, actions, c);
    FactsAlongRun(cfg, actions);
    ResetSession(c.arb);
    if !SomeProne(cfg, d) {
      ResetIsAnchored(cfg, c, ApplyReset(c.arb), d, ResumeAt(c.arb) - cfg.marginNs as int);
    }
    SticksIffProne(cfg, actions + [CmdReset]);
  }
}
