/** How far apart the clocks of a cluster can drift, over every run and interleaving. */
module Skew {
  import opened Prelude
  import opened Control
  import opened Lifecycle
  import opened TimeSync
  import opened Arbiter
  import opened BoardRuntime
  import opened Protocol

  /** Virtual time that gdb steps still queued for `me` may add to its clock. */
  function StepDebt(me: BoardId, inbox: seq<ControlToNode>, stepBound: nat): nat {
    if inbox == [] then 0
    else (if inbox[0] == GdbStep(me) then stepBound else 0) + StepDebt(me, inbox[1..], stepBound)
  }

  lemma {:induction false} StepDebtAppend(me: BoardId, inbox: seq<ControlToNode>, more: seq<ControlToNode>,
                                          stepBound: nat)
    ensures StepDebt(me, inbox + more, stepBound) == StepDebt(me, inbox, stepBound) + StepDebt(me, more, stepBound)
  {
    if inbox == [] {
      assert inbox + more == more;
    } else {
      assert (inbox + more)[1..] == inbox[1..] + more;
      StepDebtAppend(me, inbox[1..], more, stepBound);
    }
  }

  lemma {:induction false} NoDebt(inbox: seq<ControlToNode>, stepBound: nat)
    requires forall i | 0 <= i < |inbox| :: !inbox[i].GdbStep?
    ensures forall me :: StepDebt(me, inbox, stepBound) == 0
  {
    if inbox != [] {
      NoDebt(inbox[1..], stepBound);
    }
  }

  lemma StepDebtOfStep(before: seq<ControlToNode>, b: BoardId, stepBound: nat)
    requires forall i | 0 <= i < |before| :: !before[i].GdbStep?
    ensures forall me :: StepDebt(me, before + [GdbStep(b)], stepBound) <= stepBound
  {
    NoDebt(before, stepBound);
    forall me
      ensures StepDebt(me, before + [GdbStep(b)], stepBound) <= stepBound
    {
      StepDebtAppend(me, before, [GdbStep(b)], stepBound);
      assert [GdbStep(b)][1..] == [];
    }
  }

  predicate CeilingsWithin(inbox: seq<ControlToNode>, top: int) {
    forall i | 0 <= i < |inbox| :: CeilingIn(inbox[i]).Some? ==> CeilingIn(inbox[i]).value <= top
  }

  predicate ReportsWithin(outbox: seq<ControlToArbiter>, top: int) {
    forall i | 0 <= i < |outbox| :: outbox[i].TimeReport? ==> outbox[i].virtualTimeNs <= top
  }

  predicate NodeSane(n: Node) {
    n.state.NodeRunning? ==> n.sim.allowed.Some? && !n.sim.stepOnce
  }

  /** What a link may hold when the slowest clock is at `floor`: `lift` is what Resets have added
      to reports, `over` what gdb steps may have added to clocks. */
  predicate LinkWithin(cfg: Config, me: BoardId, l: Link, report: u64, floor: nat, lift: nat, over: nat) {
    var top := floor + lift + cfg.marginNs;
    NodeSane(l.node) &&
    floor <= l.node.clock &&
    report <= Max(l.node.clock, floor + lift) &&
    (l.node.sim.allowed.Some? ==> l.node.sim.allowed.value <= top) &&
    CeilingsWithin(l.inbox, top) &&
    ReportsWithin(l.outbox, l.node.clock) &&
    StepDebt(me, l.inbox, cfg.stepBound) <= over &&
    l.node.clock + StepDebt(me, l.inbox, cfg.stepBound) <= top + over
  }

  predicate LinksWithin(cfg: Config, c: Cluster, floor: nat, lift: nat, over: nat)
    requires Shape(cfg, c)
  {
    forall b | b in c.links :: LinkWithin(cfg, b, c.links[b], c.arb.ceiling.reports[b], floor, lift, over)
  }

  predicate SkewInv(cfg: Config, c: Cluster, floor: nat, lift: nat, over: nat) {
    Shape(cfg, c) && c.arb.allowed <= floor + lift + cfg.marginNs && LinksWithin(cfg, c, floor, lift, over)
  }

  lemma SkewInit(cfg: Config)
    ensures SkewInv(cfg, Init(cfg), 0, 0, 0)
  {
  }

  /** Some clock is at `floor`. */
  predicate FloorReached(c: Cluster, floor: nat) {
    exists b :: b in c.links && c.links[b].node.clock == floor
  }

  /** The slowest clock never goes back, so the invariant can be read from the new slowest one. */
  lemma RaiseFloor(cfg: Config, c: Cluster, floor: nat, lift: nat, over: nat) returns (floor': nat)
    requires cfg.Valid() && SkewInv(cfg, c, floor, lift, over)
    ensures SkewInv(cfg, c, floor', lift, over) && FloorReached(c, floor')
  {
    var clocks: map<BoardId, u64> := map b | b in c.links :: c.links[b].node.clock;
    floor' := MinOf(clocks);
    var k :| k in clocks && clocks[k] == floor';
    assert LinkWithin(cfg, k, c.links[k], c.arb.ceiling.reports[k], floor, lift, over);
    forall b | b in c.links
      ensures LinkWithin(cfg, b, c.links[b], c.arb.ceiling.reports[b], floor', lift, over)
    {
      assert LinkWithin(cfg, b, c.links[b], c.arb.ceiling.reports[b], floor, lift, over);
      assert clocks[b] == c.links[b].node.clock;
    }
  }

  /** The least report is never more than `lift` above the slowest clock. */
  lemma VirtualTimeWithin(cfg: Config, c: Cluster, floor: nat, lift: nat, over: nat)
    requires SkewInv(cfg, c, floor, lift, over) && FloorReached(c, floor)
    ensures c.arb.ceiling.VirtualTimeNs() <= floor + lift
    ensures forall until :: c.arb.ceiling.AllowedNsUntil(until) <= floor + lift + cfg.marginNs
  {
    var b :| b in c.links && c.links[b].node.clock == floor;
    assert LinkWithin(cfg, b, c.links[b], c.arb.ceiling.reports[b], floor, lift, over);
    assert c.arb.ceiling.VirtualTimeNs() <= c.arb.ceiling.reports[b];
  }

  /** An arbiter step may publish `e`: its ceilings are within the bound, and no report is lifted
      by more than `lift'` allows. */
  ghost predicate EffectWithin(cfg: Config, s: Session, e: Effect, floor: nat, lift': nat, over: nat, over': nat)
    requires e.session.ceiling.reports.Keys == s.ceiling.reports.Keys
  {
    e.session.allowed <= floor + lift' + cfg.marginNs &&
    CeilingsWithin(e.sent, floor + lift' + cfg.marginNs) &&
    (forall b | b in s.ceiling.reports :: e.session.ceiling.reports[b] <= Max(s.ceiling.reports[b], floor + lift')) &&
    (forall b :: over + StepDebt(b, e.sent, cfg.stepBound) <= over')
  }

  /** The cluster `d` after the arbiter has published an effect within bounds. */
  ghost predicate CommitWithin(cfg: Config, c: Cluster, e: Effect, d: Cluster, floor: nat, lift: nat, over: nat,
                               lift': nat, over': nat) {
    SkewInv(cfg, c, floor, lift, over) && lift <= lift' && over <= over' && d == Commit(c, e) && Shape(cfg, d) &&
    e.session.ceiling.reports.Keys == c.arb.ceiling.reports.Keys &&
    EffectWithin(cfg, c.arb, e, floor, lift', over, over')
  }

  lemma SkewCommit(cfg: Config, c: Cluster, e: Effect, d: Cluster, floor: nat, lift: nat, over: nat, lift': nat,
                   over': nat)
    requires CommitWithin(cfg, c, e, d, floor, lift, over, lift', over')
    ensures SkewInv(cfg, d, floor, lift', over')
  {
    forall b | b in d.links
      ensures LinkWithin(cfg, b, d.links[b], d.arb.ceiling.reports[b], floor, lift', over')
    {
      StepDebtAppend(b, c.links[b].inbox, e.sent, cfg.stepBound);
      assert LinkWithin(cfg, b, c.links[b], c.arb.ceiling.reports[b], floor, lift, over);
    }
  }

  lemma DeliverWithin(cfg: Config, me: BoardId, l: Link, out: StepOutcome, report: u64, floor: nat, lift: nat,
                      over: nat)
    requires LinkWithin(cfg, me, l, report, floor, lift, over)
    requires l.inbox != [] && StepPossible(l.node, out, cfg.stepBound)
    ensures LinkWithin(cfg, me, LinkAfterDeliver(me, l, out), report, floor, lift, over)
  {
    var r := AfterMessage(l.node, me, l.inbox[0], out);
    assert CeilingIn(l.inbox[0]).Some? ==> CeilingIn(l.inbox[0]).value <= floor + lift + cfg.marginNs;
    assert l.node.clock <= r.node.clock <= l.node.clock + (if l.inbox[0] == GdbStep(me) then cfg.stepBound else 0);
  }

  lemma PollWithin(cfg: Config, me: BoardId, l: Link, out: PollOutcome, report: u64, floor: nat, lift: nat, over: nat)
    requires LinkWithin(cfg, me, l, report, floor, lift, over)
    requires PollPossible(l.node, out, cfg.stepBound)
    ensures LinkWithin(cfg, me, LinkAfterPoll(l, out), report, floor, lift, over)
  {
  }

  /** A step of one node leaves the rest of the cluster as it is. */
  lemma SkewNode(cfg: Config, c: Cluster, b: BoardId, l: Link, floor: nat, lift: nat, over: nat)
    requires SkewInv(cfg, c, floor, lift, over) && b in c.links
    requires LinkWithin(cfg, b, l, c.arb.ceiling.reports[b], floor, lift, over)
    ensures SkewInv(cfg, c.(links := c.links[b := l]), floor, lift, over)
  {
  }

  /** Taking one message off a link changes at most that board's report, to the time reported. */
  lemma CollectReports(s: Session, d: Drained, b: BoardId, msg: ControlToArbiter)
    requires b in s.peers && s.peers.Keys == s.ceiling.reports.Keys
    ensures var (s', d') := Collect(s, d, b, msg);
            s'.allowed == s.allowed && s'.ceiling.marginNs == s.ceiling.marginNs &&
            s'.ceiling.reports == (if msg.TimeReport? &&
                !s.peers[b].AwaitingReady? then s.ceiling.reports[b := msg.virtualTimeNs] else s.ceiling.reports)
  {
  }

  lemma SkewCollect(cfg: Config, c: Cluster, b: BoardId, floor: nat, lift: nat, over: nat)
    requires SkewInv(cfg, c, floor, lift, over) && b in c.links && c.links[b].outbox != []
    requires Shape(cfg, AfterCollect(c, b))
    ensures SkewInv(cfg, AfterCollect(c, b), floor, lift, over)
  {
    var d := AfterCollect(c, b);
    CollectReports(c.arb, c.drained, b, c.links[b].outbox[0]);
    assert LinkWithin(cfg, b, c.links[b], c.arb.ceiling.reports[b], floor, lift, over);
    forall x | x in d.links
      ensures LinkWithin(cfg, x, d.links[x], d.arb.ceiling.reports[x], floor, lift, over)
    {
      assert LinkWithin(cfg, x, c.links[x], c.arb.ceiling.reports[x], floor, lift, over);
    }
  }

  lemma SkewReady(cfg: Config, c: Cluster, b: BoardId, floor: nat, lift: nat, over: nat)
    requires SkewInv(cfg, c, floor, lift, over) && b in c.links && c.links[b].outbox != []
    ensures SkewInv(cfg, AfterReady(c, b), floor, lift, over)
  {
    assert LinkWithin(cfg, b, c.links[b], c.arb.ceiling.reports[b], floor, lift, over);
  }

  function LiftBy(cfg: Config, a: Action): nat { if a.CmdReset? then cfg.marginNs else 0 }

  function OverBy(cfg: Config, a: Action): nat { if a.CmdStep? then cfg.stepBound else 0 }

  lemma CommandWithin(cfg: Config, s: Session, a: Action, floor: nat, lift: nat, over: nat)
    requires IsCommand(a) && s.ceiling.marginNs == cfg.marginNs && s.ceiling.reports.Keys != {}
    requires s.ceiling.VirtualTimeNs() <= floor + lift && s.allowed <= floor + lift + cfg.marginNs
    ensures CommandEffect(s, a).session.ceiling.reports.Keys == s.ceiling.reports.Keys
    ensures EffectWithin(cfg, s, CommandEffect(s, a), floor, lift + LiftBy(cfg, a), over, over + OverBy(cfg, a))
  {
    var e := CommandEffect(s, a);
    if a.CmdStep? {
      if a.board in s.peers {
        StepDebtOfStep(if s.running then [ClusterStop(ExternalStop)] else [], a.board, cfg.stepBound);
      }
    } else {
      if a.CmdReset? {
        AdvanceRaisesTheMinimum(s.ceiling, Max(s.allowed, s.ceiling.VirtualTimeNs()));
      }
      NoDebt(e.sent, cfg.stepBound);
    }
  }

  lemma FinishWithin(cfg: Config, s: Session, d: Drained, floor: nat, lift: nat, over: nat)
    requires s.ceiling.marginNs == cfg.marginNs
    requires s.ceiling.VirtualTimeNs() <= floor + lift && s.allowed <= floor + lift + cfg.marginNs
    ensures EffectWithin(cfg, s, Finish(s, d), floor, lift, over, over)
  {
    NoDebt(Finish(s, d).sent, cfg.stepBound);
  }

  lemma SkewArbiterStep(cfg: Config, c: Cluster, a: Action, floor: nat, lift: nat, over: nat)
    requires cfg.Valid() && SkewInv(cfg, c, floor, lift, over) && FloorReached(c, floor) && Enabled(cfg, c, a)
    requires Shape(cfg, Apply(cfg, c, a))
    requires !IsCommand(a) && !a.Deliver? && !a.PollGuest?
    ensures SkewInv(cfg, Apply(cfg, c, a), floor, lift + LiftBy(cfg, a), over + OverBy(cfg, a))
  {
    assert lift + LiftBy(cfg, a) == lift && over + OverBy(cfg, a) == over;
    match a
    case PublishStartup =>
      var e := Effect(c.arb, [StartupRecord(cfg.marginNs, cfg.thresholdNs)]);
      NoDebt(e.sent, cfg.stepBound);
      SkewCommit(cfg, c, e, Commit(c, e), floor, lift, over, lift, over);
    case CollectReady(b) => SkewReady(cfg, c, b, floor, lift, over);
    case PassBarrier =>
    case CollectFrom(b) => SkewCollect(cfg, c, b, floor, lift, over);
    case FinishRound =>
      VirtualTimeWithin(cfg, c, floor, lift, over);
      FinishWithin(cfg, c.arb, c.drained, floor, lift, over);
      SkewCommit(cfg, c, Finish(c.arb, c.drained), Commit(c, Finish(c.arb, c.drained)), floor, lift, over, lift, over);
  }

  lemma SkewNodeStep(cfg: Config, c: Cluster, a: Action, floor: nat, lift: nat, over: nat)
    requires SkewInv(cfg, c, floor, lift, over) && Enabled(cfg, c, a)
    requires a.Deliver? || a.PollGuest?
    ensures SkewInv(cfg, Apply(cfg, c, a), floor, lift + LiftBy(cfg, a), over + OverBy(cfg, a))
  {
    assert lift + LiftBy(cfg, a) == lift && over + OverBy(cfg, a) == over;
    match a
    case Deliver(b, out) =>
      DeliverWithin(cfg, b, c.links[b], out, c.arb.ceiling.reports[b], floor, lift, over);
      SkewNode(cfg, c, b, LinkAfterDeliver(b, c.links[b], out), floor, lift, over);
    case PollGuest(b, out) =>
      PollWithin(cfg, b, c.links[b], out, c.arb.ceiling.reports[b], floor, lift, over);
      SkewNode(cfg, c, b, LinkAfterPoll(c.links[b], out), floor, lift, over);
  }

  /** A host command is an effect within bounds, at the price of one margin or one step. */
  lemma CommandAsEffect(cfg: Config, c: Cluster, a: Action, next: Cluster, floor: nat, lift: nat, over: nat)
    returns (e: Effect)
    requires cfg.Valid() && SkewInv(cfg, c, floor, lift, over) && FloorReached(c, floor)
    requires IsCommand(a) && Enabled(cfg, c, a) && next == Apply(cfg, c, a) && Shape(cfg, next)
    ensures CommitWithin(cfg, c, e, next, floor, lift, over, lift + LiftBy(cfg, a), over + OverBy(cfg, a))
  {
    e := CommandEffect(c.arb, a);
    VirtualTimeWithin(cfg, c, floor, lift, over);
    CommandWithin(cfg, c.arb, a, floor, lift, over);
  }

  lemma SkewByCommand(cfg: Config, c: Cluster, a: Action, next: Cluster, floor: nat, lift: nat, over: nat, lift': nat,
                      over': nat)
    requires cfg.Valid() && SkewInv(cfg, c, floor, lift, over) && FloorReached(c, floor) && IsCommand(a) &&
             Enabled(cfg, c, a)
    requires next == Apply(cfg, c, a) && Shape(cfg, next)
    requires lift' == lift + LiftBy(cfg, a) && over' == over + OverBy(cfg, a)
    ensures SkewInv(cfg, next, floor, lift', over')
  {
    var e := CommandAsEffect(cfg, c, a, next, floor, lift, over);
    SkewCommit(cfg, c, e, next, floor, lift, over, lift', over');
  }

  /** Any step keeps the invariant, read from the slowest clock before it. */
  lemma SkewStep(cfg: Config, c: Cluster, a: Action, floor: nat, lift: nat, over: nat) returns (floor': nat)
    requires cfg.Valid() && SkewInv(cfg, c, floor, lift, over) && Enabled(cfg, c, a)
    requires Shape(cfg, Apply(cfg, c, a))
    ensures SkewInv(cfg, Apply(cfg, c, a), floor', lift + LiftBy(cfg, a), over + OverBy(cfg, a))
  {
    floor' := RaiseFloor(cfg, c, floor, lift, over);
    if IsCommand(a) {
      SkewByCommand(cfg, c, a, Apply(cfg, c, a), floor', lift, over, lift + LiftBy(cfg, a), over + OverBy(cfg, a));
    } else if a.Deliver? || a.PollGuest? {
      SkewNodeStep(cfg, c, a, floor', lift, over);
    } else {
      SkewArbiterStep(cfg, c, a, floor', lift, over);
    }
  }

  function Resets(actions: seq<Action>): nat {
    if actions == [] then 0
    else Resets(actions[..|actions| - 1]) + (if actions[|actions| - 1].CmdReset? then 1 else 0)
  }

  function GdbSteps(actions: seq<Action>): nat {
    if actions == [] then 0
    else GdbSteps(actions[..|actions| - 1]) + (if actions[|actions| - 1].CmdStep? then 1 else 0)
  }

  /** `Resets(actions) * margin` and `GdbSteps(actions) * stepBound`, added up along the run. */
  function Lifted(cfg: Config, actions: seq<Action>): nat {
    if actions == [] then 0
    else Lifted(cfg, actions[..|actions| - 1]) + LiftBy(cfg, actions[|actions| - 1])
  }

  function Overrun(cfg: Config, actions: seq<Action>): nat {
    if actions == [] then 0
    else Overrun(cfg, actions[..|actions| - 1]) + OverBy(cfg, actions[|actions| - 1])
  }

  lemma OneMore(n: nat, m: nat)
    ensures (n + 1) * m == n * m + m
  {
  }

  lemma {:induction false} TotalsAreProducts(cfg: Config, actions: seq<Action>)
    ensures Lifted(cfg, actions) == Resets(actions) * cfg.marginNs
    ensures Overrun(cfg, actions) == GdbSteps(actions) * cfg.stepBound
    decreases |actions|
  {
    if actions != [] {
      var init := actions[..|actions| - 1];
      TotalsAreProducts(cfg, init);
      OneMore(Resets(init), cfg.marginNs);
      OneMore(GdbSteps(init), cfg.stepBound);
    }
  }

  lemma {:induction false} SkewAlongRun(cfg: Config, actions: seq<Action>) returns (floor: nat)
    requires cfg.Valid() && Exec(cfg, Init(cfg), actions).Some?
    ensures SkewInv(cfg, Exec(cfg, Init(cfg), actions).value, floor, Lifted(cfg, actions), Overrun(cfg, actions))
    decreases |actions|
  {
    floor := 0;
    if actions == [] {
      SkewInit(cfg);
    } else {
      var init, a := actions[..|actions| - 1], actions[|actions| - 1];
      floor := SkewAlongRun(cfg, init);
      var c := Exec(cfg, Init(cfg), init).value;
      ShapeKept(cfg, c, a);
      floor := SkewStep(cfg, c, a, floor, Lifted(cfg, init), Overrun(cfg, init));
    }
  }

  /** After any run with `r` Resets and `s` gdb steps no two clocks are further apart than
      `(1 + r) * margin + s * stepBound`, and every ceiling a node holds or will receive is
      within `(1 + r) * margin` of the slowest clock. */
  lemma GradedSkew(cfg: Config, actions: seq<Action>, x: BoardId, y: BoardId)
    requires Exec(cfg, Init(cfg), actions).Some?
    requires x in cfg.boards && y in cfg.boards
    ensures var c := Exec(cfg, Init(cfg), actions).value;
            x in c.links && y in c.links &&
            c.links[x].node.clock - c.links[y].node.clock
            <= (1 + Resets(actions)) * cfg.marginNs + GdbSteps(actions) * cfg.stepBound
    ensures var c := Exec(cfg, Init(cfg), actions).value;
            var top := c.links[y].node.clock + (1 + Resets(actions)) * cfg.marginNs;
            c.arb.allowed <= top && CeilingsWithin(c.links[x].inbox, top) &&
            (c.links[x].node.sim.allowed.Some? ==> c.links[x].node.sim.allowed.value <= top)
  {
    var floor := SkewAlongRun(cfg, actions);
    TotalsAreProducts(cfg, actions);
    var c := Exec(cfg, Init(cfg), actions).value;
    var lift, over := Lifted(cfg, actions), Overrun(cfg, actions);
    assert LinkWithin(cfg, x, c.links[x], c.arb.ceiling.reports[x], floor, lift, over);
    assert LinkWithin(cfg, y, c.links[y], c.arb.ceiling.reports[y], floor, lift, over);
  }

  /** Without Reset and gdb step the margin bounds the skew and every report trails its clock. */
  lemma PlainSkew(cfg: Config, actions: seq<Action>, x: BoardId, y: BoardId)
    requires Exec(cfg, Init(cfg), actions).Some?
    requires Resets(actions) == 0 && GdbSteps(actions) == 0
    requires x in cfg.boards && y in cfg.boards
    ensures var c := Exec(cfg, Init(cfg), actions).value;
            x in c.links && y in c.links && x in c.arb.ceiling.reports &&
            c.links[x].node.clock - c.links[y].node.clock <= cfg.marginNs &&
            c.arb.ceiling.reports[x] <= c.links[x].node.clock &&
            c.arb.allowed <= c.links[y].node.clock + cfg.marginNs
  {
    GradedSkew(cfg, actions, x, y);
    var floor := SkewAlongRun(cfg, actions);
    TotalsAreProducts(cfg, actions);
    var c := Exec(cfg, Init(cfg), actions).value;
    assert LinkWithin(cfg, x, c.links[x], c.arb.ceiling.reports[x], floor, 0, 0);
  }
}
