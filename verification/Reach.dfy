/** How far a board can get with what it has been sent, and runs made of its own steps. */
module Reach {
  import opened Prelude
  import opened Control
  import opened Lifecycle
  import opened Arbiter
  import opened BoardRuntime
  import opened Protocol
  import opened Agreement
  import opened Progress

  /** How far a node can get: `hi` is the highest clock value in its reach so far. */
  datatype Prospect = Prospect(state: NodeState, runs: bool, allowed: u64, hi: u64)

  function ProspectOf(n: Node): Prospect {
    Prospect(n.state, n.sim.running, n.allowedNs, n.clock)
  }

  predicate Runs(p: Prospect) {
    p.state.NodeRunning? && p.runs
  }

  /** Running up to the ceiling before the next message. */
  function Idle(p: Prospect): Prospect {
    if Runs(p) then p.(hi := Max(p.hi, p.allowed)) else p
  }

  /** Running up to the ceiling, then consuming `msg`. */
  function Take(p: Prospect, me: BoardId, msg: ControlToNode, stepBound: u64): Prospect {
    var move := NodeOnMessage(p.state, msg);
    var hi := Idle(p).hi;
    Prospect(
      move.next,
      if p.state.NodeRunning? == move.next.NodeRunning? then p.runs else move.next.NodeRunning?,
      if move.effect.SetAllowed? then move.effect.allowedNs else p.allowed,
      if move.effect == StepOnce(me) then SatAdd(hi, stepBound) else hi)
  }

  function Ahead(p: Prospect, me: BoardId, inbox: seq<ControlToNode>, stepBound: u64): Prospect
    decreases |inbox|
  {
    if inbox == [] then Idle(p) else Ahead(Take(p, me, inbox[0], stepBound), me, inbox[1..], stepBound)
  }

  /** The highest clock value board `me` can reach with the messages it has been sent. */
  function ReachOf(cfg: Config, me: BoardId, l: Link): u64 {
    Ahead(ProspectOf(l.node), me, l.inbox, cfg.stepBound).hi
  }

  /** The same without the progress of gdb steps. */
  function QuietOf(me: BoardId, l: Link): Prospect {
    Ahead(ProspectOf(l.node), me, l.inbox, 0)
  }

  lemma {:induction false} AheadAppend(p: Prospect, me: BoardId, inbox: seq<ControlToNode>, more: seq<ControlToNode>,
                                       stepBound: u64)
    ensures Ahead(p, me, inbox + more, stepBound) == Ahead(Ahead(p, me, inbox, stepBound), me, more, stepBound)
    decreases |inbox|
  {
    if inbox == [] {
      assert inbox + more == more;
    } else {
      assert (inbox + more)[1..] == inbox[1..] + more;
      AheadAppend(Take(p, me, inbox[0], stepBound), me, inbox[1..], more, stepBound);
    }
  }

  lemma {:induction false} AheadFolds(p: Prospect, me: BoardId, inbox: seq<ControlToNode>, stepBound: u64)
    ensures Ahead(p, me, inbox, stepBound).state == Fold(p.state, inbox)
    ensures Ahead(p, me, inbox, stepBound).allowed == Ahead(p, me, inbox, 0).allowed
    ensures p.hi <= Ahead(p, me, inbox, stepBound).hi
    decreases |inbox|
  {
    if inbox != [] {
      var q, z := Take(p, me, inbox[0], stepBound), Take(p, me, inbox[0], 0);
      AheadFolds(q, me, inbox[1..], stepBound);
      AheadAlike(q, z, me, inbox[1..], stepBound, 0);
      AheadAlike(q, q, me, inbox[1..], stepBound, 0);
    }
  }

  /** What a board reaches above its own start it also reaches from lower down. */
  lemma {:induction false} AheadFromBelow(p: Prospect, q: Prospect, me: BoardId, inbox: seq<ControlToNode>, v: u64)
    requires NoFurther(q.(hi := 0), p) && q.hi < v <= Ahead(q, me, inbox, 0).hi
    ensures v <= Ahead(p, me, inbox, 0).hi
    decreases |inbox|
  {
    if inbox != [] {
      if Idle(q).hi < v {
        AheadFromBelow(Take(p, me, inbox[0], 0), Take(q, me, inbox[0], 0), me, inbox[1..], v);
      } else {
        AheadFolds(Take(p, me, inbox[0], 0), me, inbox[1..], 0);
      }
    }
  }

  /** The same state, ceiling and readiness to run. */
  predicate Alike(p: Prospect, q: Prospect) {
    p.state == q.state && p.allowed == q.allowed && (Runs(p) <==> Runs(q))
  }

  /** Everything but the clock is independent of how far the board has run. */
  lemma {:induction false} AheadAlike(p: Prospect, q: Prospect, me: BoardId, inbox: seq<ControlToNode>, a: u64, b: u64)
    requires Alike(p, q)
    ensures Alike(Ahead(p, me, inbox, a), Ahead(q, me, inbox, b))
    decreases |inbox|
  {
    if inbox != [] {
      AheadAlike(Take(p, me, inbox[0], a), Take(q, me, inbox[0], b), me, inbox[1..], a, b);
    }
  }

  lemma {:induction false} IdleOnce(p: Prospect, me: BoardId, inbox: seq<ControlToNode>, stepBound: u64)
    ensures var q := Ahead(p, me, inbox, stepBound); Idle(q) == q
    decreases |inbox|
  {
    if inbox != [] {
      IdleOnce(Take(p, me, inbox[0], stepBound), me, inbox[1..], stepBound);
    }
  }

  /** `p` can do no more than `q`. */
  predicate NoFurther(p: Prospect, q: Prospect) {
    p.state == q.state && p.allowed == q.allowed && p.hi <= q.hi && (Runs(p) ==> q.runs)
  }

  lemma {:induction false} AheadMonotone(p: Prospect, q: Prospect, me: BoardId, inbox: seq<ControlToNode>, a: u64,
                                         b: u64)
    requires NoFurther(p, q) && a <= b
    ensures NoFurther(Ahead(p, me, inbox, a), Ahead(q, me, inbox, b))
    decreases |inbox|
  {
    if inbox != [] {
      AheadMonotone(Take(p, me, inbox[0], a), Take(q, me, inbox[0], b), me, inbox[1..], a, b);
    }
  }

  // ---- the steps of one node ----

  /** A node's own steps stay within its reach. */
  lemma NodeStaysInReach(cfg: Config, me: BoardId, l: Link, out: StepOutcome, poll: PollOutcome)
    requires NodeHolds(l.node)
    ensures l.inbox != [] && StepPossible(l.node, out, cfg.stepBound) ==>
              ReachOf(cfg, me, LinkAfterDeliver(me, l, out)) <= ReachOf(cfg, me, l)
    ensures PollPossible(l.node, poll, cfg.stepBound) ==>
            ReachOf(cfg, me, LinkAfterPoll(l, poll)) <= ReachOf(cfg, me, l)
  {
    var p := ProspectOf(l.node);
    if l.inbox != [] && StepPossible(l.node, out, cfg.stepBound) {
      var q := Take(p, me, l.inbox[0], cfg.stepBound);
      AheadMonotone(ProspectOf(AfterMessage(l.node, me, l.inbox[0], out).node), q, me, l.inbox[1..], cfg.stepBound,
          cfg.stepBound);
    }
    if PollPossible(l.node, poll, cfg.stepBound) {
      AheadMonotone(ProspectOf(AfterPoll(l.node, poll).node), Idle(p), me, l.inbox, cfg.stepBound, cfg.stepBound);
      assert Ahead(Idle(p), me, l.inbox, cfg.stepBound) == Ahead(p, me, l.inbox, cfg.stepBound);
    }
  }

  /** Reading a message without running first, or running without reading, gets no further than
      doing both; `quiet` says that a gdb step moved nothing. */
  lemma NodeFollows(me: BoardId, l: Link, out: StepOutcome, poll: PollOutcome, stepBound: u64)
    requires NodeHolds(l.node)
    ensures l.inbox != [] && (out.Stepped? ==> l.inbox[0] != GdbStep(me)) ==>
              NoFurther(ProspectOf(AfterMessage(l.node, me, l.inbox[0], out).node),
                  Take(ProspectOf(l.node), me, l.inbox[0], 0))
    ensures l.inbox != [] && StepPossible(l.node, out, stepBound) ==>
              NoFurther(ProspectOf(AfterMessage(l.node, me, l.inbox[0], out).node),
                  Take(ProspectOf(l.node), me, l.inbox[0], stepBound))
    ensures PollPossible(l.node, poll, stepBound) ==>
            NoFurther(ProspectOf(AfterPoll(l.node, poll).node), Idle(ProspectOf(l.node)))
  {
  }

  /** Messages that cannot take a node past `u`. */
  predicate Capped(m: ControlToNode, u: u64) {
    !m.GdbStep? && (CeilingIn(m).Some? ==> CeilingIn(m).value <= u)
  }

  lemma {:induction false} CappedReach(p: Prospect, me: BoardId, sent: seq<ControlToNode>, u: u64, stepBound: u64)
    requires Idle(p).hi <= u && forall i | 0 <= i < |sent| :: Capped(sent[i], u)
    ensures Ahead(p, me, sent, stepBound).hi <= u
    decreases |sent|
  {
    if sent != [] {
      assert Capped(sent[0], u);
      CappedReach(Take(p, me, sent[0], stepBound), me, sent[1..], u, stepBound);
    }
  }

  // ---- runs of one board ----

  predicate Internal(actions: seq<Action>) {
    forall i | 0 <= i < |actions| :: !IsCommand(actions[i])
  }

  predicate Fails(a: Action) {
    (a.PollGuest? && a.poll.Failed?) || (a.Deliver? && a.step.StepFailed?)
  }

  /** No poll and no gdb step fails. */
  predicate Unfailing(actions: seq<Action>) {
    forall i | 0 <= i < |actions| :: !Fails(actions[i])
  }

  lemma ExecFirst(cfg: Config, c: Cluster, a: Action, rest: seq<Action>)
    requires Enabled(cfg, c, a)
    ensures Exec(cfg, c, [a] + rest) == Exec(cfg, Apply(cfg, c, a), rest)
  {
    assert [a][..0] == [];
    assert Exec(cfg, c, [a]) == Some(Apply(cfg, c, a));
    ExecAppend(cfg, c, [a], rest);
  }

  lemma RunThen(cfg: Config, c: Cluster, first: seq<Action>, d: Cluster, second: seq<Action>)
    requires Exec(cfg, c, first) == Some(d) && Exec(cfg, d, second).Some?
    requires Internal(first) && Unfailing(first) && Internal(second) && Unfailing(second)
    ensures Exec(cfg, c, first + second) == Exec(cfg, d, second) && Internal(first + second) &&
            Unfailing(first + second)
  {
    ExecAppend(cfg, c, first, second);
  }

  /** A step of one node: it reads a message or polls its guest. */
  datatype Move = Read(step: StepOutcome) | Turn(poll: PollOutcome)

  predicate CanMove(cfg: Config, l: Link, m: Move) {
    match m
    case Read(out) => l.inbox != [] && StepPossible(l.node, out, cfg.stepBound) && !out.StepFailed?
    case Turn(out) => PollPossible(l.node, out, cfg.stepBound) && !out.Failed?
  }

  function Moved(cfg: Config, b: BoardId, l: Link, m: Move): Link
    requires CanMove(cfg, l, m)
  {
    match m
    case Read(out) => LinkAfterDeliver(b, l, out)
    case Turn(out) => LinkAfterPoll(l, out)
  }

  function AfterMoves(cfg: Config, b: BoardId, l: Link, moves: seq<Move>): Option<Link>
    decreases |moves|
  {
    if moves == [] then Some(l)
    else if CanMove(cfg, l, moves[0]) then AfterMoves(cfg, b, Moved(cfg, b, l, moves[0]), moves[1..])
    else None
  }

  ghost predicate Becomes(cfg: Config, b: BoardId, l: Link, l': Link) {
    exists moves :: AfterMoves(cfg, b, l, moves) == Some(l')
  }

  lemma BecomesItself(cfg: Config, b: BoardId, l: Link)
    ensures Becomes(cfg, b, l, l)
  {
    assert AfterMoves(cfg, b, l, []) == Some(l);
  }

  lemma BecomesNext(cfg: Config, b: BoardId, l: Link, m: Move, l': Link)
    requires CanMove(cfg, l, m) && Becomes(cfg, b, Moved(cfg, b, l, m), l')
    ensures Becomes(cfg, b, l, l')
  {
    var moves :| AfterMoves(cfg, b, Moved(cfg, b, l, m), moves) == Some(l');
    var all := [m] + moves;
    assert all[0] == m && all[1..] == moves;
    assert AfterMoves(cfg, b, l, all) == Some(l');
  }

  lemma {:induction false} MovesAppend(cfg: Config, b: BoardId, l: Link, first: seq<Move>, second: seq<Move>, l1: Link)
    requires AfterMoves(cfg, b, l, first) == Some(l1)
    ensures AfterMoves(cfg, b, l, first + second) == AfterMoves(cfg, b, l1, second)
    decreases |first|
  {
    if first == [] {
      assert first + second == second;
    } else {
      assert (first + second)[1..] == first[1..] + second;
      MovesAppend(cfg, b, Moved(cfg, b, l, first[0]), first[1..], second, l1);
    }
  }

  lemma BecomesThen(cfg: Config, b: BoardId, l: Link, l1: Link, l2: Link)
    requires Becomes(cfg, b, l, l1) && Becomes(cfg, b, l1, l2)
    ensures Becomes(cfg, b, l, l2)
  {
    var first :| AfterMoves(cfg, b, l, first) == Some(l1);
    var second :| AfterMoves(cfg, b, l1, second) == Some(l2);
    MovesAppend(cfg, b, l, first, second, l1);
  }

  /** What a board can become, a run of the cluster makes of it. */
  lemma BecomesByRun(cfg: Config, c: Cluster, b: BoardId, l': Link) returns (more: seq<Action>)
    requires b in c.links && Becomes(cfg, b, c.links[b], l')
    ensures Internal(more) && Unfailing(more) && Exec(cfg, c, more) == Some(c.(links := c.links[b := l']))
  {
    var moves :| AfterMoves(cfg, b, c.links[b], moves) == Some(l');
    more := MovesRun(cfg, c, b, moves, l');
  }

  lemma {:induction false} MovesRun(cfg: Config, c: Cluster, b: BoardId, moves: seq<Move>, l': Link)
    returns (more: seq<Action>)
    requires b in c.links && AfterMoves(cfg, b, c.links[b], moves) == Some(l')
    ensures Internal(more) && Unfailing(more) && Exec(cfg, c, more) == Some(c.(links := c.links[b := l']))
    decreases |moves|
  {
    if moves == [] {
      more := [];
      assert c == c.(links := c.links[b := c.links[b]]);
    } else {
      var a := if moves[0].Read? then Deliver(b, moves[0].step) else PollGuest(b, moves[0].poll);
      var l1 := Moved(cfg, b, c.links[b], moves[0]);
      var d := c.(links := c.links[b := l1]);
      assert Enabled(cfg, c, a) && Apply(cfg, c, a) == d;
      more := MovesRun(cfg, d, b, moves[1..], l');
      ExecFirst(cfg, c, a, more);
      assert d.links[b := l'] == c.links[b := l'];
      more := [a] + more;
    }
  }

  /** A board's reach is really reached by a run of its own steps. */
  lemma {:induction false} ReachIsReached(cfg: Config, b: BoardId, l: Link) returns (l': Link)
    requires NodeHolds(l.node)
    ensures Becomes(cfg, b, l, l') && l'.node.clock == ReachOf(cfg, b, l)
    decreases |l.inbox|, ProspectOf(l.node) != Idle(ProspectOf(l.node))
  {
    var p := ProspectOf(l.node);
    if Idle(p) != p {
      var m := Turn(Quiet(l.node.allowedNs));
      NodeHoldsKept(b, l.node, Reset, StepFailed, m.poll);
      assert ProspectOf(Moved(cfg, b, l, m).node) == Idle(p);
      l' := ReachIsReached(cfg, b, Moved(cfg, b, l, m));
      BecomesNext(cfg, b, l, m, l');
    } else if l.inbox != [] {
      var m := Read(Stepped(SatAdd(l.node.clock, cfg.stepBound), Step));
      NodeHoldsKept(b, l.node, l.inbox[0], m.step, Failed);
      DeliverReach(cfg, b, l, m.step);
      l' := ReachIsReached(cfg, b, Moved(cfg, b, l, m));
      BecomesNext(cfg, b, l, m, l');
    } else {
      l' := l;
      BecomesItself(cfg, b, l);
    }
  }

  lemma DeliverReach(cfg: Config, b: BoardId, l: Link, out: StepOutcome)
    requires NodeHolds(l.node) && l.inbox != [] && Idle(ProspectOf(l.node)) == ProspectOf(l.node)
    requires out.Stepped? && out.now == SatAdd(l.node.clock, cfg.stepBound)
    ensures ReachOf(cfg, b, LinkAfterDeliver(b, l, out)) == ReachOf(cfg, b, l)
  {
    var p := ProspectOf(LinkAfterDeliver(b, l, out).node);
    var q := Take(ProspectOf(l.node), b, l.inbox[0], cfg.stepBound);
    AheadMonotone(p, q, b, l.inbox[1..], cfg.stepBound, cfg.stepBound);
    AheadMonotone(q, p, b, l.inbox[1..], cfg.stepBound, cfg.stepBound);
  }

  // ---- facts about links in every reachable state ----

  /** A node never reports ahead of its clock, and knows the configured threshold. */
  predicate LinkFacts(cfg: Config, l: Link) {
    NodeHolds(l.node) &&
    l.node.lastReport.GetOr(0) <= l.node.clock &&
    (forall i | 0 <= i < |l.outbox| :: l.outbox[i].TimeReport? ==> l.outbox[i].virtualTimeNs <= l.node.clock) &&
    (!l.node.state.AwaitingStartup? ==> l.node.thresholdNs == cfg.thresholdNs) &&
    (forall i | 0 <= i < |l.inbox| :: l.inbox[i].StartupRecord? ==> l.inbox[i].headroomThresholdNs == cfg.thresholdNs)
  }

  ghost predicate FactsHold(cfg: Config, c: Cluster) {
    GeneralInv(cfg, c) && forall b | b in c.links :: LinkFacts(cfg, c.links[b])
  }

  lemma ReadFacts(cfg: Config, b: BoardId, l: Link, out: StepOutcome)
    requires LinkFacts(cfg, l) && l.inbox != [] && StepPossible(l.node, out, cfg.stepBound)
    requires l.node.state.AwaitingStartup? ==> l.inbox[0].StartupRecord?
    ensures LinkFacts(cfg, LinkAfterDeliver(b, l, out))
  {
    NodeHoldsKept(b, l.node, l.inbox[0], out, Failed);
    var r := AfterMessage(l.node, b, l.inbox[0], out);
    assert forall i | 0 <= i < |r.sent| :: r.sent[i].TimeReport? ==> r.sent[i].virtualTimeNs <= r.node.clock;
    var l' := LinkAfterDeliver(b, l, out);
    assert l.inbox[0].StartupRecord? ==> l.inbox[0].headroomThresholdNs == cfg.thresholdNs;
    assert forall i | 0 <= i < |l'.inbox| :: l'.inbox[i] == l.inbox[i + 1];
    assert l.node.clock <= l'.node.clock;
  }

  lemma TurnFacts(cfg: Config, l: Link, poll: PollOutcome)
    requires LinkFacts(cfg, l) && PollPossible(l.node, poll, cfg.stepBound)
    ensures LinkFacts(cfg, LinkAfterPoll(l, poll))
  {
  }

  /** No arbiter step repeats the startup record with another threshold. */
  lemma SentFacts(cfg: Config, s: Session, d: Drained, a: Action, l: Link)
    requires LinkFacts(cfg, l)
    ensures LinkFacts(cfg, l.(inbox := l.inbox + Finish(s, d).sent))
    ensures IsCommand(a) ==> LinkFacts(cfg, l.(inbox := l.inbox + CommandEffect(s, a).sent))
    ensures LinkFacts(cfg, l.(inbox := l.inbox + [StartupRecord(cfg.marginNs, cfg.thresholdNs)]))
  {
  }

  lemma NodeFacts(cfg: Config, c: Cluster, a: Action, b: BoardId)
    requires FactsHold(cfg, c) && Enabled(cfg, c, a) && b in c.links
    ensures a.Deliver? && a.board == b ==> LinkFacts(cfg, LinkAfterDeliver(b, c.links[b], a.step))
    ensures a.PollGuest? && a.board == b ==> LinkFacts(cfg, LinkAfterPoll(c.links[b], a.poll))
  {
    if a.Deliver? && a.board == b {
      HeadIsExpected(cfg, c, b);
      ReadFacts(cfg, b, c.links[b], a.step);
    } else if a.PollGuest? && a.board == b {
      TurnFacts(cfg, c.links[b], a.poll);
    }
  }

  lemma FactsKept(cfg: Config, c: Cluster, a: Action, x: BoardId)
    requires FactsHold(cfg, c) && Enabled(cfg, c, a) && x in c.links
    ensures x in Apply(cfg, c, a).links && LinkFacts(cfg, Apply(cfg, c, a).links[x])
  {
    SentFacts(cfg, c.arb, c.drained, a, c.links[x]);
    NodeFacts(cfg, c, a, x);
  }

  lemma FactsStep(cfg: Config, c: Cluster, a: Action)
    requires FactsHold(cfg, c) && Enabled(cfg, c, a)
    ensures FactsHold(cfg, Apply(cfg, c, a))
  {
    GeneralStep(cfg, c, a);
    ShapeKept(cfg, c, a);
    forall x | x in c.links {
      FactsKept(cfg, c, a, x);
    }
  }

  lemma {:induction false} FactsAlongRun(cfg: Config, actions: seq<Action>)
    requires Exec(cfg, Init(cfg), actions).Some?
    ensures FactsHold(cfg, Exec(cfg, Init(cfg), actions).value)
    decreases |actions|
  {
    if actions != [] {
      var init := actions[..|actions| - 1];
      FactsAlongRun(cfg, init);
      FactsStep(cfg, Exec(cfg, Init(cfg), init).value, actions[|actions| - 1]);
    }
  }

  lemma {:induction false} FactsOnward(cfg: Config, c: Cluster, more: seq<Action>, d: Cluster)
    requires FactsHold(cfg, c) && Exec(cfg, c, more) == Some(d)
    ensures FactsHold(cfg, d)
    decreases |more|
  {
    if more != [] {
      var init := more[..|more| - 1];
      FactsOnward(cfg, c, init, Exec(cfg, c, init).value);
      FactsStep(cfg, Exec(cfg, c, init).value, more[|more| - 1]);
    }
  }

  lemma {:induction false} AheadCeiling(p: Prospect, me: BoardId, inbox: seq<ControlToNode>, stepBound: u64)
    requires NoneIgnored(p.state, inbox)
    ensures Ahead(p, me, inbox, stepBound).allowed == CeilingAfter(p.allowed, inbox)
    decreases |inbox|
  {
    if inbox != [] {
      AheadCeiling(Take(p, me, inbox[0], stepBound), me, inbox[1..], stepBound);
    }
  }
}
