/** When a start capped at `until` may take a clock past it. */
module ExactStop {
  import opened Prelude
  import opened Control
  import opened Arbiter
  import opened BoardRuntime
  import opened Protocol
  import opened Agreement
  import opened Reach

  /** A session running under the cap `u`, as `CmdStart(Some(u))` leaves it. */
  predicate RunsCapped(c: Cluster, u: u64) {
    !c.barrier && c.drained == NothingDrained &&
    c.arb.running && c.arb.untilCap == Some(u) && c.arb.gdb.None? && c.arb.lastStop.None?
  }

  lemma StartRunsCapped(cfg: Config, c: Cluster, u: u64)
    requires Enabled(cfg, c, CmdStart(Some(u))) && c.arb.ceiling.VirtualTimeNs() < u
    ensures RunsCapped(Apply(cfg, c, CmdStart(Some(u))), u)
  {
  }

  /** No board can pass `u` before it learns of the cap. */
  predicate NoneCanPass(cfg: Config, c: Cluster, u: u64) {
    forall b | b in c.links :: ReachOf(cfg, b, c.links[b]) <= u
  }

  /** A session that was started with the cap `u` and left alone since. */
  predicate CappedArb(s: Session, d: Drained, u: u64) {
    s.gdb.None? && d.gdbInsn.None? && (s.running ==> s.untilCap == Some(u) && s.lastStop.None?)
  }

  ghost predicate CappedSession(cfg: Config, c: Cluster, u: u64) {
    FactsHold(cfg, c) && !c.barrier && CappedArb(c.arb, c.drained, u)
  }

  lemma FinishCapped(s: Session, d: Drained, u: u64)
    requires CappedArb(s, d, u)
    ensures CappedArb(Finish(s, d).session, NothingDrained, u)
    ensures Finish(s, d).session.running ==> s.running && d.clusterStop.None?
  {
  }

  lemma CollectCapped(s: Session, d: Drained, b: BoardId, msg: ControlToArbiter, u: u64)
    requires CappedArb(s, d, u)
    ensures var (s', d') := Collect(s, d, b, msg);
            CappedArb(s', d', u) && s'.running == s.running && s'.lastStop == s.lastStop &&
            (d.clusterStop.Some? ==> d'.clusterStop.Some?)
  {
  }

  lemma ArbStep(cfg: Config, c: Cluster, a: Action, u: u64, d: Cluster)
    requires !c.barrier && CappedArb(c.arb, c.drained, u) && Enabled(cfg, c, a) && !IsCommand(a) &&
             d == Apply(cfg, c, a)
    ensures !d.barrier && CappedArb(d.arb, d.drained, u) && (d.arb.running ==> c.arb.running)
  {
    match a
    case CollectFrom(b) => CollectCapped(c.arb, c.drained, b, c.links[b].outbox[0], u);
    case FinishRound => FinishCapped(c.arb, c.drained, u);
    case _ =>
  }

  lemma SessionStep(cfg: Config, c: Cluster, a: Action, u: u64)
    requires CappedSession(cfg, c, u) && Enabled(cfg, c, a) && !IsCommand(a)
    ensures CappedSession(cfg, Apply(cfg, c, a), u)
  {
    FactsStep(cfg, c, a);
    ArbStep(cfg, c, a, u, Apply(cfg, c, a));
  }

  /** What the arbiter publishes takes no board past `u`. */
  lemma FinishReach(cfg: Config, b: BoardId, l: Link, s: Session, d: Drained, u: u64)
    requires ReachOf(cfg, b, l) <= u && LinkAgrees(s, l) && SessionAgrees(s, d) && d.gdbInsn.None?
    requires s.running ==> s.untilCap == Some(u)
    ensures ReachOf(cfg, b, l.(inbox := l.inbox + Finish(s, d).sent)) <= u
  {
    var sent := Finish(s, d).sent;
    var p := ProspectOf(l.node);
    AheadAppend(p, b, l.inbox, sent, cfg.stepBound);
    AheadFolds(p, b, l.inbox, cfg.stepBound);
    var q := Ahead(p, b, l.inbox, cfg.stepBound);
    IdleOnce(p, b, l.inbox, cfg.stepBound);
    if s.running {
      CappedReach(q, b, sent, u, cfg.stepBound);
    } else {
      assert q.state.NodeStopped? && |sent| <= 1;
      if sent != [] {
        assert Take(q, b, sent[0], cfg.stepBound).hi == q.hi;
        assert sent[1..] == [];
      }
    }
  }

  lemma ReachStep(cfg: Config, c: Cluster, a: Action, u: u64, b: BoardId)
    requires CappedSession(cfg, c, u) && Enabled(cfg, c, a) && !IsCommand(a) && b in c.links
    requires ReachOf(cfg, b, c.links[b]) <= u
    ensures b in Apply(cfg, c, a).links && ReachOf(cfg, b, Apply(cfg, c, a).links[b]) <= u
  {
    assert LinkFacts(cfg, c.links[b]) && LinkAgrees(c.arb, c.links[b]);
    if a.FinishRound? {
      FinishReach(cfg, b, c.links[b], c.arb, c.drained, u);
    } else if a.Deliver? && a.board == b {
      NodeStaysInReach(cfg, b, c.links[b], a.step, Failed);
    } else if a.PollGuest? && a.board == b {
      NodeStaysInReach(cfg, b, c.links[b], StepFailed, a.poll);
    }
  }

  lemma {:induction false} ReachAlongRun(cfg: Config, c: Cluster, more: seq<Action>, u: u64, b: BoardId)
    requires CappedSession(cfg, c, u) && Internal(more) && Exec(cfg, c, more).Some?
    requires b in c.links && ReachOf(cfg, b, c.links[b]) <= u
    ensures var d := Exec(cfg, c, more).value;
            CappedSession(cfg, d, u) && b in d.links && ReachOf(cfg, b, d.links[b]) <= u
    decreases |more|
  {
    if more != [] {
      var init := more[..|more| - 1];
      ReachAlongRun(cfg, c, init, u, b);
      SessionStep(cfg, Exec(cfg, c, init).value, more[|more| - 1], u);
      ReachStep(cfg, Exec(cfg, c, init).value, more[|more| - 1], u, b);
    }
  }

  /** `more` takes board `b` past `u` without any host command. */
  ghost predicate SomeonePasses(cfg: Config, c: Cluster, u: u64, more: seq<Action>, b: BoardId) {
    Internal(more) && Exec(cfg, c, more).Some? &&
    b in Exec(cfg, c, more).value.links && Exec(cfg, c, more).value.links[b].node.clock > u
  }

  lemma StartsCapped(cfg: Config, actions: seq<Action>, u: u64)
    requires Exec(cfg, Init(cfg), actions).Some? && RunsCapped(Exec(cfg, Init(cfg), actions).value, u)
    ensures CappedSession(cfg, Exec(cfg, Init(cfg), actions).value, u)
  {
    FactsAlongRun(cfg, actions);
  }

  /** Some run without host commands takes a clock past the cap if and only if some board can
      pass it with what it has been sent. */
  lemma OverrunIffReach(cfg: Config, actions: seq<Action>, u: u64)
    requires Exec(cfg, Init(cfg), actions).Some? && RunsCapped(Exec(cfg, Init(cfg), actions).value, u)
    ensures var c := Exec(cfg, Init(cfg), actions).value;
            !NoneCanPass(cfg, c, u) <==> exists more, b :: SomeonePasses(cfg, c, u, more, b)
  {
    var c := Exec(cfg, Init(cfg), actions).value;
    StartsCapped(cfg, actions, u);
    if !NoneCanPass(cfg, c, u) {
      var b :| b in c.links && ReachOf(cfg, b, c.links[b]) > u;
      assert LinkFacts(cfg, c.links[b]);
      var l' := ReachIsReached(cfg, b, c.links[b]);
      var more := BecomesByRun(cfg, c, b, l');
      assert SomeonePasses(cfg, c, u, more, b);
    }
    if more, b :| SomeonePasses(cfg, c, u, more, b) && NoneCanPass(cfg, c, u) {
      StaysBehind(cfg, c, u, more, b);
    }
  }

  lemma StaysBehind(cfg: Config, c: Cluster, u: u64, more: seq<Action>, b: BoardId)
    requires CappedSession(cfg, c, u) && NoneCanPass(cfg, c, u)
    ensures !SomeonePasses(cfg, c, u, more, b)
  {
    if SomeonePasses(cfg, c, u, more, b) {
      var d := Exec(cfg, c, more).value;
      SameBoards(cfg, c, more, b);
      ReachAlongRun(cfg, c, more, u, b);
      AheadFolds(ProspectOf(d.links[b].node), b, d.links[b].inbox, cfg.stepBound);
    }
  }

  lemma {:induction false} SameBoards(cfg: Config, c: Cluster, more: seq<Action>, b: BoardId)
    requires Exec(cfg, c, more).Some?
    ensures b in Exec(cfg, c, more).value.links <==> b in c.links
    decreases |more|
  {
    if more != [] {
      SameBoards(cfg, c, more[..|more| - 1], b);
    }
  }
}
