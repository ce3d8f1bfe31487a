/** The skew bound is the best possible: for every number of Resets and gdb steps some run
    reaches it. */
module Tightness {
  import opened Prelude
  import opened Control
  import opened Lifecycle
  import opened TimeSync
  import opened Arbiter
  import opened BoardRuntime
  import opened Protocol
  import opened Agreement
  import opened Progress
  import opened Skew
  import opened Reach

  /** In the Ready barrier, boards in `todo` have not read the startup record yet. */
  predicate Joining(cfg: Config, c: Cluster, todo: set<BoardId>) {
    Shape(cfg, c) && c.barrier && !c.arb.running && c.drained == NothingDrained &&
    forall b | b in c.links ::
      var l := c.links[b];
      l.node.clock == 0 && l.outbox == [] &&
      (if b in todo then l.node.state.AwaitingStartup? && c.arb.peers[b].AwaitingReady? && |l.inbox| == 1 &&
          l.inbox[0].StartupRecord?
       else c.arb.peers[b].PeerReady?)
  }

  /** Board `b` reads the record and its answer is collected. */
  lemma JoinOne(cfg: Config, c: Cluster, todo: set<BoardId>, b: BoardId) returns (d: Cluster)
    requires Joining(cfg, c, todo) && b in todo && todo <= cfg.boards
    ensures Joining(cfg, d, todo - {b})
    ensures Enabled(cfg, c, Deliver(b, StepFailed))
    ensures Enabled(cfg, Apply(cfg, c, Deliver(b, StepFailed)), CollectReady(b))
    ensures d == Apply(cfg, Apply(cfg, c, Deliver(b, StepFailed)), CollectReady(b))
  {
    var l := c.links[b];
    var l' := LinkAfterDeliver(b, l, StepFailed);
    assert l'.outbox == [Ready];
    var c1 := c.(links := c.links[b := l']);
    d := AfterReady(c1, b);
    assert d.links[b] == l'.(outbox := []);
    assert forall x | x in c.links && x != b :: d.links[x] == c.links[x] && d.arb.peers[x] == c.arb.peers[x];
  }

  lemma JoinStep(cfg: Config, actions: seq<Action>, c: Cluster, todo: set<BoardId>, b: BoardId)
    returns (more: seq<Action>, d: Cluster)
    requires Exec(cfg, Init(cfg), actions) == Some(c) && Internal(actions)
    requires Joining(cfg, c, todo) && b in todo && todo <= cfg.boards
    ensures Exec(cfg, Init(cfg), more) == Some(d) && Internal(more) && Joining(cfg, d, todo - {b})
  {
    d := JoinOne(cfg, c, todo, b);
    var read := actions + [Deliver(b, StepFailed)];
    ExecMore(cfg, Init(cfg), actions, Deliver(b, StepFailed));
    ExecMore(cfg, Init(cfg), read, CollectReady(b));
    more := read + [CollectReady(b)];
  }

  lemma {:induction false} JoinAll(cfg: Config, actions: seq<Action>, c: Cluster, todo: set<BoardId>)
    returns (more: seq<Action>, d: Cluster)
    requires Exec(cfg, Init(cfg), actions) == Some(c) && Internal(actions)
    requires Joining(cfg, c, todo) && todo <= cfg.boards
    ensures Exec(cfg, Init(cfg), more) == Some(d) && Internal(more) && Joining(cfg, d, {})
    decreases todo
  {
    more, d := actions, c;
    if todo != {} {
      var b :| b in todo;
      more, d := JoinStep(cfg, actions, c, todo, b);
      more, d := JoinAll(cfg, more, d, todo - {b});
    }
  }

  /** Every configuration gets past its Ready barrier. */
  lemma Handshake(cfg: Config) returns (actions: seq<Action>)
    ensures Exec(cfg, Init(cfg), actions).Some? && Internal(actions)
    ensures var c := Exec(cfg, Init(cfg), actions).value;
            !c.barrier && !c.arb.running && c.drained == NothingDrained &&
            forall b | b in c.links :: c.links[b].node.clock == 0
  {
    ExecMore(cfg, Init(cfg), [], PublishStartup);
    assert [] + [PublishStartup] == [PublishStartup];
    var joined, c := JoinAll(cfg, [PublishStartup], Apply(cfg, Init(cfg), PublishStartup), cfg.boards);
    ExecMore(cfg, Init(cfg), joined, PassBarrier);
    actions := joined + [PassBarrier];
  }

  /** Steps of the boards are neither Resets nor gdb steps. */
  lemma {:induction false} InternalCounts(actions: seq<Action>, more: seq<Action>)
    requires Internal(more)
    ensures Resets(actions + more) == Resets(actions) && GdbSteps(actions + more) == GdbSteps(actions)
    ensures forall cfg :: Lifted(cfg, actions + more) == Lifted(cfg, actions)
    decreases |more|
  {
    if more == [] {
      assert actions + more == actions;
    } else {
      var n := |more| - 1;
      InternalCounts(actions, more[..n]);
      assert (actions + more)[..|actions| + n] == actions + more[..n];
    }
  }

  /** `slow` has not moved, the session runs without a cap, and its ceiling is `top`. */
  ghost predicate Chase(cfg: Config, c: Cluster, slow: BoardId, top: nat) {
    !c.barrier && c.drained == NothingDrained && c.arb.running && c.arb.allowed == top &&
    c.arb.ceiling.VirtualTimeNs() <= top && c.arb.ceiling.marginNs == cfg.marginNs &&
    c.arb.ceiling.reports.Keys == cfg.boards && c.links.Keys == cfg.boards &&
    slow in c.links && c.links[slow].node.clock == 0
  }

  /** A queue ending in a Start leaves the node able to reach that ceiling. */
  lemma StartIsReachable(p: Prospect, me: BoardId, inbox: seq<ControlToNode>, a: u64, stepBound: u64)
    requires Ahead(p, me, inbox, stepBound).state.NodeStopped?
    ensures Ahead(p, me, inbox + [Start(a)], stepBound).hi >= a
  {
    AheadAppend(p, me, inbox, [Start(a)], stepBound);
    assert [Start(a)][1..] == [];
  }

  /** The fast board runs at least up to the ceiling just started, while the slow one stays put. */
  lemma RunFast(cfg: Config, c: Cluster, slow: BoardId, fast: BoardId, before: seq<ControlToNode>, top: u64)
    returns (run: seq<Action>)
    requires GeneralInv(cfg, c) && Chase(cfg, c, slow, top) && fast in c.links && fast != slow
    requires c.links[fast].inbox == before + [Start(top)] && Fold(c.links[fast].node.state, before) == NodeStopped
    ensures Internal(run) && Exec(cfg, c, run).Some? && Chase(cfg, Exec(cfg, c, run).value, slow, top)
    ensures Exec(cfg, c, run).value.links[fast].node.clock >= top
  {
    var l := c.links[fast];
    AheadFolds(ProspectOf(l.node), fast, before, cfg.stepBound);
    StartIsReachable(ProspectOf(l.node), fast, before, top, cfg.stepBound);
    var l' := ReachIsReached(cfg, fast, l);
    run := BecomesByRun(cfg, c, fast, l');
  }

  /** The skew bound of a run without gdb steps. */
  function Reached(cfg: Config, actions: seq<Action>): nat {
    cfg.marginNs + Lifted(cfg, actions)
  }

  lemma AtMostReached(cfg: Config, actions: seq<Action>, c: Cluster, fast: BoardId, slow: BoardId)
    requires Exec(cfg, Init(cfg), actions) == Some(c) && GdbSteps(actions) == 0
    requires fast in cfg.boards && slow in cfg.boards
    ensures fast in c.links && slow in c.links &&
            c.links[fast].node.clock - c.links[slow].node.clock <= Reached(cfg, actions)
  {
    GradedSkew(cfg, actions, fast, slow);
    TotalsAreProducts(cfg, actions);
  }

  /** `slow` stays at zero while `fast` has reached the session's ceiling, the highest possible. */
  ghost predicate Apart(cfg: Config, actions: seq<Action>, c: Cluster, slow: BoardId, fast: BoardId) {
    Exec(cfg, Init(cfg), actions) == Some(c) && GdbSteps(actions) == 0 &&
    Chase(cfg, c, slow, Reached(cfg, actions)) && fast in c.links && c.links[fast].node.clock == Reached(cfg, actions)
  }

  lemma RunToCeiling(cfg: Config, actions: seq<Action>, c: Cluster, slow: BoardId, fast: BoardId,
                     before: seq<ControlToNode>, top: u64)
    returns (more: seq<Action>, d: Cluster)
    requires cfg.Valid() && Exec(cfg, Init(cfg), actions) == Some(c) && GdbSteps(actions) == 0
    requires Chase(cfg, c, slow, top) && fast in cfg.boards && fast != slow
    requires c.links[fast].inbox == before + [Start(top)] && Fold(c.links[fast].node.state, before) == NodeStopped
    requires Reached(cfg, actions) == top
    ensures Resets(more) == Resets(actions) && Apart(cfg, more, d, slow, fast)
  {
    GeneralAlongRun(cfg, actions);
    var run := RunFast(cfg, c, slow, fast, before, top);
    ExecAppend(cfg, Init(cfg), actions, run);
    InternalCounts(actions, run);
    more, d := actions + run, Exec(cfg, c, run).value;
    AtMostReached(cfg, more, d, fast, slow);
  }

  lemma OneCommand(cfg: Config, actions: seq<Action>, c: Cluster, a: Action, more: seq<Action>)
    requires Exec(cfg, Init(cfg), actions) == Some(c) && GdbSteps(actions) == 0
    requires IsCommand(a) && Enabled(cfg, c, a) && !a.CmdStep? && more == actions + [a]
    ensures Exec(cfg, Init(cfg), more) == Some(Commit(c, CommandEffect(c.arb, a)))
    ensures GdbSteps(more) == 0 && Reached(cfg, more) == Reached(cfg, actions) + LiftBy(cfg, a)
    ensures Resets(more) == Resets(actions) + (if a.CmdReset? then 1 else 0)
  {
    assert more[..|actions|] == actions;
  }

  lemma StartChase(cfg: Config, c: Cluster, e: Effect, slow: BoardId, fast: BoardId)
    requires GeneralInv(cfg, c) && !c.barrier && !c.arb.running && c.drained == NothingDrained
    requires slow in c.links && fast in c.links && c.links[slow].node.clock == 0 && c.arb.ceiling.reports[slow] == 0
    requires e == ApplyStart(c.arb, None)
    ensures var d := Commit(c, e);
            Chase(cfg, d, slow, cfg.marginNs) && d.links[fast].node == c.links[fast].node &&
            d.links[fast].inbox == c.links[fast].inbox + [Start(cfg.marginNs)]
    ensures Fold(c.links[fast].node.state, c.links[fast].inbox) == NodeStopped
  {
    assert LinkAgrees(c.arb, c.links[fast]);
    assert c.arb.ceiling.VirtualTimeNs() == 0;
  }

  lemma ResetLifts(s: Session, top: u64)
    requires s.allowed == top && s.ceiling.VirtualTimeNs() <= top && s.ceiling.reports.Keys != {}
    requires top + s.ceiling.marginNs <= U64_MAX
    ensures var e := ApplyReset(s);
            e.sent == [ClusterStop(ExternalStop), Reset, Start(top + s.ceiling.marginNs)] &&
            e.session.running && e.session.allowed == top + s.ceiling.marginNs &&
            e.session.ceiling.VirtualTimeNs() == top && e.session.ceiling.marginNs == s.ceiling.marginNs &&
            e.session.ceiling.reports.Keys == s.ceiling.reports.Keys
  {
    AdvanceRaisesTheMinimum(s.ceiling, top);
  }

  /** After the messages of a Reset a node has stopped before it reads the Start. */
  lemma StoppedBeforeStart(s: Session, l: Link, top: u64) returns (before: seq<ControlToNode>)
    requires LinkAgrees(s, l)
    ensures Fold(l.node.state, before) == NodeStopped
    ensures l.inbox + [ClusterStop(ExternalStop), Reset, Start(top)] == before + [Start(top)]
  {
    var stop := [ClusterStop(ExternalStop)] + [Reset];
    before := l.inbox + stop;
    FoldAppend(l.node.state, l.inbox, stop);
    UnfoldMore(ClusterStop(ExternalStop), [Reset]);
    UnfoldOne(Reset);
  }

  lemma ResetChase(cfg: Config, c: Cluster, e: Effect, slow: BoardId, fast: BoardId, top: u64)
    returns (before: seq<ControlToNode>)
    requires Chase(cfg, c, slow, top) && fast in c.links && LinkAgrees(c.arb, c.links[fast]) &&
             top + cfg.marginNs <= U64_MAX
    requires e == ApplyReset(c.arb)
    ensures var d := Commit(c, e);
            Chase(cfg, d, slow, top + cfg.marginNs) && d.links[fast].node == c.links[fast].node &&
            d.links[fast].inbox == before + [Start(top + cfg.marginNs)]
    ensures Fold(c.links[fast].node.state, before) == NodeStopped
  {
    ResetLifts(c.arb, top);
    before := StoppedBeforeStart(c.arb, c.links[fast], top + cfg.marginNs);
  }

  lemma Greet(cfg: Config, slow: BoardId) returns (actions: seq<Action>, c: Cluster)
    requires slow in cfg.boards
    ensures Exec(cfg, Init(cfg), actions) == Some(c) && Resets(actions) == 0 && GdbSteps(actions) == 0
    ensures Reached(cfg, actions) == cfg.marginNs
    ensures GeneralInv(cfg, c) && !c.barrier && !c.arb.running && c.drained == NothingDrained
    ensures c.links[slow].node.clock == 0 && c.arb.ceiling.reports[slow] == 0
  {
    actions := Handshake(cfg);
    c := Exec(cfg, Init(cfg), actions).value;
    InternalCounts([], actions);
    assert [] + actions == actions;
    PlainSkew(cfg, actions, slow, slow);
    GeneralAlongRun(cfg, actions);
  }

  lemma FirstStart(cfg: Config, slow: BoardId, fast: BoardId) returns (actions: seq<Action>, d: Cluster)
    requires slow in cfg.boards && fast in cfg.boards && slow != fast && 0 < cfg.marginNs
    ensures Resets(actions) == 0 && Apart(cfg, actions, d, slow, fast)
  {
    var greeted, c := Greet(cfg, slow);
    var e := ApplyStart(c.arb, None);
    StartChase(cfg, c, e, slow, fast);
    var started := greeted + [CmdStart(None)];
    OneCommand(cfg, greeted, c, CmdStart(None), started);
    actions, d := RunToCeiling(cfg, started, Commit(c, e), slow, fast, c.links[fast].inbox, cfg.marginNs);
  }

  lemma ResetAgain(cfg: Config, actions: seq<Action>, c: Cluster, slow: BoardId, fast: BoardId)
    returns (more: seq<Action>, d: Cluster, before: seq<ControlToNode>)
    requires slow in cfg.boards && fast in cfg.boards
    requires Apart(cfg, actions, c, slow, fast) && Reached(cfg, actions) + cfg.marginNs <= U64_MAX &&
             LinkAgrees(c.arb, c.links[fast])
    ensures Exec(cfg, Init(cfg), more) == Some(d) && GdbSteps(more) == 0 && Resets(more) == Resets(actions) + 1
    ensures Reached(cfg, more) == Reached(cfg, actions) + cfg.marginNs && Chase(cfg, d, slow, Reached(cfg, more))
    ensures fast in d.links && d.links[fast].inbox == before + [Start(Reached(cfg, more))]
    ensures Fold(d.links[fast].node.state, before) == NodeStopped
  {
    var e := ApplyReset(c.arb);
    before := ResetChase(cfg, c, e, slow, fast, Reached(cfg, actions));
    more, d := actions + [CmdReset], Commit(c, e);
    OneCommand(cfg, actions, c, CmdReset, more);
  }

  lemma OneMoreReset(cfg: Config, actions: seq<Action>, c: Cluster, slow: BoardId, fast: BoardId)
    returns (more: seq<Action>, d: Cluster)
    requires slow in cfg.boards && fast in cfg.boards && slow != fast
    requires Apart(cfg, actions, c, slow, fast) && Reached(cfg, actions) + cfg.marginNs <= U64_MAX
    ensures Resets(more) == Resets(actions) + 1 && Apart(cfg, more, d, slow, fast)
    ensures Reached(cfg, more) == Reached(cfg, actions) + cfg.marginNs
  {
    GeneralAlongRun(cfg, actions);
    assert LinkAgrees(c.arb, c.links[fast]);
    var reset, c', before := ResetAgain(cfg, actions, c, slow, fast);
    more, d := RunToCeiling(cfg, reset, c', slow, fast, before, Reached(cfg, reset));
    SameResets(cfg, more, reset);
  }

  lemma SameResets(cfg: Config, a: seq<Action>, b: seq<Action>)
    requires Resets(a) == Resets(b)
    ensures Reached(cfg, a) == Reached(cfg, b)
  {
    TotalsAreProducts(cfg, a);
    TotalsAreProducts(cfg, b);
  }

  /** `(1 + r) * margin`, added up. */
  function Margins(cfg: Config, r: nat): nat {
    if r == 0 then cfg.marginNs else Margins(cfg, r - 1) + cfg.marginNs
  }

  lemma {:induction false} MarginsAreProduct(cfg: Config, r: nat)
    ensures Margins(cfg, r) == (1 + r) * cfg.marginNs
  {
    if r > 0 {
      MarginsAreProduct(cfg, r - 1);
      OneMore(r, cfg.marginNs);
    }
  }

  /** The session is started once; then every Reset lifts the ceiling by another margin. */
  lemma {:induction false} ChaseTo(cfg: Config, r: nat, slow: BoardId, fast: BoardId)
    returns (actions: seq<Action>, c: Cluster)
    requires slow in cfg.boards && fast in cfg.boards && slow != fast && 0 < cfg.marginNs
    requires Margins(cfg, r) <= U64_MAX
    ensures Resets(actions) == r && Apart(cfg, actions, c, slow, fast) && Reached(cfg, actions) == Margins(cfg, r)
  {
    if r == 0 {
      actions, c := FirstStart(cfg, slow, fast);
      SameResets(cfg, actions, []);
    } else {
      actions, c := ChaseTo(cfg, r - 1, slow, fast);
      actions, c := OneMoreReset(cfg, actions, c, slow, fast);
    }
  }

  // ---- gdb steps on top ----

  /** The skew bound of any run. */
  function Bound(cfg: Config, actions: seq<Action>): nat {
    cfg.marginNs + Lifted(cfg, actions) + Overrun(cfg, actions)
  }

  /** `slow` stays at zero while `fast` is as far ahead as it can be. */
  ghost predicate AtBound(cfg: Config, actions: seq<Action>, c: Cluster, slow: BoardId, fast: BoardId) {
    Exec(cfg, Init(cfg), actions) == Some(c) && !c.barrier && c.drained == NothingDrained &&
    slow in c.links && c.links[slow].node.clock == 0 && fast in c.links &&
        c.links[fast].node.clock == Bound(cfg, actions)
  }

  lemma AtMostBound(cfg: Config, actions: seq<Action>, c: Cluster, fast: BoardId, slow: BoardId)
    requires Exec(cfg, Init(cfg), actions) == Some(c) && fast in cfg.boards && slow in cfg.boards
    ensures fast in c.links && slow in c.links &&
            c.links[fast].node.clock - c.links[slow].node.clock <= Bound(cfg, actions)
  {
    GradedSkew(cfg, actions, fast, slow);
    TotalsAreProducts(cfg, actions);
  }

  /** A stopped board that reads a step message can get a step bound further. */
  lemma StepFurther(p: Prospect, b: BoardId, stepBound: u64)
    requires p.state.NodeStopped?
    ensures Ahead(p, b, [GdbStep(b)], stepBound).hi == SatAdd(p.hi, stepBound)
  {
    assert [GdbStep(b)][1..] == [];
    assert Ahead(Take(p, b, GdbStep(b), stepBound), b, [], stepBound).hi == SatAdd(p.hi, stepBound);
  }

  /** A board that is told to step, running or stopped, can get a step bound further. */
  lemma StepReach(cfg: Config, s: Session, b: BoardId, l: Link)
    requires LinkAgrees(s, l) && b in s.peers && l.node.clock + cfg.stepBound <= U64_MAX
    ensures l.node.clock + cfg.stepBound <= ReachOf(cfg, b, l.(inbox := l.inbox + ApplyGdbStep(s, b).sent))
  {
    var p, sent, stop := ProspectOf(l.node), ApplyGdbStep(s, b).sent, ClusterStop(ExternalStop);
    AheadAppend(p, b, l.inbox, sent, cfg.stepBound);
    AheadFolds(p, b, l.inbox, cfg.stepBound);
    var q := Ahead(p, b, l.inbox, cfg.stepBound);
    IdleOnce(p, b, l.inbox, cfg.stepBound);
    if s.running {
      assert sent[0] == stop && sent[1..] == [GdbStep(b)];
      StepFurther(Take(q, b, stop, cfg.stepBound), b, cfg.stepBound);
    } else {
      StepFurther(q, b, cfg.stepBound);
    }
  }

  /** One more gdb step on the fast board. */
  lemma OneMoreStep(cfg: Config, actions: seq<Action>, c: Cluster, slow: BoardId, fast: BoardId)
    returns (more: seq<Action>, d: Cluster)
    requires slow in cfg.boards && fast in cfg.boards && slow != fast
    requires AtBound(cfg, actions, c, slow, fast) && Bound(cfg, actions) + cfg.stepBound <= U64_MAX
    ensures AtBound(cfg, more, d, slow, fast) && Bound(cfg, more) == Bound(cfg, actions) + cfg.stepBound
    ensures Resets(more) == Resets(actions) && GdbSteps(more) == GdbSteps(actions) + 1
  {
    GeneralAlongRun(cfg, actions);
    assert LinkAgrees(c.arb, c.links[fast]) && NodeHolds(c.links[fast].node);
    StepReach(cfg, c.arb, fast, c.links[fast]);
    var told := actions + [CmdStep(fast)];
    var e := Commit(c, ApplyGdbStep(c.arb, fast));
    assert told[..|actions|] == actions && Exec(cfg, Init(cfg), told) == Some(e);
    more, d := RunToReach(cfg, told, e, slow, fast);
  }

  lemma RunToReach(cfg: Config, actions: seq<Action>, c: Cluster, slow: BoardId, fast: BoardId)
    returns (more: seq<Action>, d: Cluster)
    requires slow in cfg.boards && fast in cfg.boards && slow != fast
    requires Exec(cfg, Init(cfg), actions) == Some(c) && !c.barrier && c.drained == NothingDrained
    requires slow in c.links && c.links[slow].node.clock == 0 && fast in c.links && NodeHolds(c.links[fast].node)
    requires Bound(cfg, actions) <= ReachOf(cfg, fast, c.links[fast])
    ensures AtBound(cfg, more, d, slow, fast) && Bound(cfg, more) == Bound(cfg, actions)
    ensures Resets(more) == Resets(actions) && GdbSteps(more) == GdbSteps(actions)
  {
    var l' := ReachIsReached(cfg, fast, c.links[fast]);
    var run := BecomesByRun(cfg, c, fast, l');
    d := c.(links := c.links[fast := l']);
    more := actions + run;
    ExecAppend(cfg, Init(cfg), actions, run);
    InternalCounts(actions, run);
    TotalsAreProducts(cfg, actions);
    TotalsAreProducts(cfg, more);
    AtMostBound(cfg, more, d, fast, slow);
  }

  /** `margins + s * stepBound`, added up. */
  function Steps(cfg: Config, s: nat): nat {
    if s == 0 then 0 else Steps(cfg, s - 1) + cfg.stepBound
  }

  lemma {:induction false} StepsAreProduct(cfg: Config, s: nat)
    ensures Steps(cfg, s) == s * cfg.stepBound
  {
    if s > 0 {
      StepsAreProduct(cfg, s - 1);
      OneMore(s - 1, cfg.stepBound);
    }
  }

  /** After the Resets, every gdb step takes the fast board one step bound further. */
  lemma {:induction false} StepTo(cfg: Config, r: nat, s: nat, slow: BoardId, fast: BoardId)
    returns (actions: seq<Action>, c: Cluster)
    requires slow in cfg.boards && fast in cfg.boards && slow != fast && 0 < cfg.marginNs
    requires Margins(cfg, r) + Steps(cfg, s) <= U64_MAX
    ensures AtBound(cfg, actions, c, slow, fast) && Bound(cfg, actions) == Margins(cfg, r) + Steps(cfg, s)
    ensures Resets(actions) == r && GdbSteps(actions) == s
    decreases s
  {
    if s == 0 {
      actions, c := ChaseTo(cfg, r, slow, fast);
      TotalsAreProducts(cfg, actions);
      assert 0 * cfg.stepBound == 0;
    } else {
      actions, c := StepTo(cfg, r, s - 1, slow, fast);
      actions, c := OneMoreStep(cfg, actions, c, slow, fast);
    }
  }

  /** For every number `r` of Resets and `s` of gdb steps some run drives two clocks
      `(1 + r) * margin + s * stepBound` apart. */
  lemma SkewBoundIsReached(cfg: Config, r: nat, s: nat, slow: BoardId, fast: BoardId)
    requires slow in cfg.boards && fast in cfg.boards && slow != fast && 0 < cfg.marginNs
    requires (1 + r) * cfg.marginNs + s * cfg.stepBound <= U64_MAX
    ensures exists actions :: DrivesApart(cfg, actions, r, s, slow, fast)
  {
    MarginsAreProduct(cfg, r);
    StepsAreProduct(cfg, s);
    var actions, c := StepTo(cfg, r, s, slow, fast);
    assert DrivesApart(cfg, actions, r, s, slow, fast);
  }

  ghost predicate DrivesApart(cfg: Config, actions: seq<Action>, r: nat, s: nat, slow: BoardId, fast: BoardId) {
    Exec(cfg, Init(cfg), actions).Some? && Resets(actions) == r && GdbSteps(actions) == s &&
    var c := Exec(cfg, Init(cfg), actions).value;
    slow in c.links && fast in c.links &&
    c.links[fast].node.clock - c.links[slow].node.clock == (1 + r) * cfg.marginNs + s * cfg.stepBound
  }
}
