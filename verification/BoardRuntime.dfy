/** One node (sim-cluster/src/board_runtime.rs): how it folds control messages, when its guest
    may run, and what it reports. The simulated entity is represented by the outcome of its
    poll, constrained by the contract `EntityMayReach`. */
module BoardRuntime {
  import opened Prelude
  import opened Control
  import opened Lifecycle

  /** The part of `Simulator` a node relies on; `allowed` is `None` until the first ceiling. */
  datatype SimView = SimView(running: bool, stepOnce: bool, allowed: Option<u64>)

  /** The variables of `run_node`. `clock` is the entity's virtual time. */
  datatype Node = Node(
    state: NodeState,
    sim: SimView,
    clock: u64,
    allowedNs: u64,
    thresholdNs: u64,
    lastReport: Option<u64>)

  const FreshNode := Node(AwaitingStartup, SimView(false, false, None), 0, 0, 0, None)

  /** Response of `Simulator::poll`: `None`, `Stopped` for a host-visible reason, or `Error`. */
  datatype PollOutcome = Quiet(now: u64) | Halted(now: u64, reason: HostStopReason) | Failed

  /** Result of the polling loop of `perform_local_step`. */
  datatype StepOutcome = Stepped(now: u64, reason: HostStopReason) | StepTimedOut | StepFailed

  datatype Reaction = Reaction(node: Node, sent: seq<ControlToArbiter>)

  /** Virtual times an entity may reach in one poll from `now`. Without `stepOnce` it never
      passes the ceiling; a single step may pass it, by at most `stepBound`. */
  predicate EntityMayReach(now: u64, ceiling: Option<u64>, stepOnce: bool, stepBound: u64, next: u64) {
    now <= next &&
    (if stepOnce then next <= SatAdd(now, stepBound)
     else next <= Max(now, ceiling.GetOr(U64_MAX)))
  }

  /** `Simulator::waiting_on_allowed_ceiling`. */
  predicate Waiting(n: Node) {
    n.sim.running && n.sim.allowed.Some? && n.sim.allowed.value <= n.clock
  }

  function MaybeTimeReport(n: Node): Reaction {
    if SatSub(n.allowedNs, n.clock) < n.thresholdNs && n.lastReport != Some(n.clock) then
      Reaction(n.(lastReport := Some(n.clock)), [TimeReport(n.clock)])
    else
      Reaction(n, [])
  }

  predicate GuestMayPoll(n: Node) {
    n.state.NodeRunning? && n.sim.running && !Waiting(n)
  }

  /** Reasons a simulator can give (`cluster_host_stop_reason`); `Until` is the arbiter's own. */
  predicate GuestReason(reason: HostStopReason) {
    reason != Until
  }

  predicate PollPossible(n: Node, out: PollOutcome, stepBound: u64) {
    GuestMayPoll(n) && (out.Halted? ==> GuestReason(out.reason)) &&
    (!out.Failed? ==> EntityMayReach(n.clock, n.sim.allowed, n.sim.stepOnce, stepBound, out.now))
  }

  /** The guest part of one loop iteration. */
  function AfterPoll(n: Node, out: PollOutcome): Reaction {
    match out
    case Quiet(now) => MaybeTimeReport(n.(clock := now))
    case Halted(now, reason) =>
      var r := MaybeTimeReport(n.(clock := now, sim := n.sim.(running := false, stepOnce := false)));
      r.(sent := r.sent + [HostStop(reason)])
    case Failed => Reaction(n.(sim := n.sim.(running := false, stepOnce := false)), [])
  }

  predicate StepPossible(n: Node, out: StepOutcome, stepBound: u64) {
    out.Stepped? ==> GuestReason(out.reason) && EntityMayReach(n.clock, n.sim.allowed, true, stepBound, out.now)
  }

  function AfterLocalStep(n: Node, out: StepOutcome): Reaction {
    match out
    case Stepped(now, reason) =>
      Reaction(
        n.(clock := now, lastReport := Some(now), sim := n.sim.(running := false, stepOnce := false)),
        [TimeReport(now), HostStop(reason)])
    case StepTimedOut => Reaction(n.(sim := n.sim.(running := true, stepOnce := true)), [])
    case StepFailed => Reaction(n.(sim := n.sim.(running := false, stepOnce := false)), [])
  }

  function ApplyEffect(n: Node, me: BoardId, effect: NodeEffect, out: StepOutcome): Reaction {
    match effect
    case SendReady => Reaction(n, [Ready])
    case SetAllowed(a) => Reaction(n.(allowedNs := a, sim := n.sim.(allowed := Some(a))), [])
    case ResetEntity => Reaction(n.(lastReport := None), [])
    case StepOnce(target) => if target == me then AfterLocalStep(n, out) else Reaction(n, [])
    case _ => Reaction(n, [])
  }

  /** `state = next`, with the simulator commands that go with the edge. */
  function EnterState(n: Node, next: NodeState): Node {
    n.(state := next,
       sim := if !n.state.NodeRunning? && next.NodeRunning? then n.sim.(running := true, stepOnce := false)
              else if n.state.NodeRunning? && !next.NodeRunning? then n.sim.(running := false, stepOnce := false)
              else n.sim)
  }

  /** One message of the inner receive loop. `out` matters only for a step of this board. */
  function AfterMessage(n: Node, me: BoardId, msg: ControlToNode, out: StepOutcome): Reaction {
    var noted := if msg.StartupRecord? then n.(thresholdNs := msg.headroomThresholdNs) else n;
    var move := NodeOnMessage(n.state, msg);
    var r := ApplyEffect(noted, me, move.effect, out);
    Reaction(EnterState(r.node, move.next), r.sent)
  }

  function AfterMessages(n: Node, me: BoardId, inbox: seq<(ControlToNode, StepOutcome)>): Reaction
    decreases |inbox|
  {
    if inbox == [] then Reaction(n, [])
    else
      var first := AfterMessage(n, me, inbox[0].0, inbox[0].1);
      var rest := AfterMessages(first.node, me, inbox[1..]);
      Reaction(rest.node, first.sent + rest.sent)
  }

  lemma {:induction false} AfterMessagesStep(n: Node, me: BoardId, inbox: seq<(ControlToNode, StepOutcome)>, k: nat)
    requires k < |inbox|
    ensures var r := AfterMessages(n, me, inbox[..k]);
            var s := AfterMessage(r.node, me, inbox[k].0, inbox[k].1);
            AfterMessages(n, me, inbox[..k + 1]) == Reaction(s.node, r.sent + s.sent)
    decreases k
  {
    var first := AfterMessage(n, me, inbox[0].0, inbox[0].1);
    assert inbox[..k + 1][1..] == inbox[1..][..k];
    if k == 0 {
      assert inbox[..1][1..] == [];
    } else {
      assert inbox[..k][1..] == inbox[1..][..k - 1];
      AfterMessagesStep(first.node, me, inbox[1..], k - 1);
      var r := AfterMessages(first.node, me, inbox[1..][..k - 1]);
      var s := AfterMessage(r.node, me, inbox[k].0, inbox[k].1);
      assert first.sent + (r.sent + s.sent) == (first.sent + r.sent) + s.sent;
    }
  }

  class BoardNode {
    const me: BoardId
    var state: NodeState
    var sim: SimView
    var clock: u64
    var allowedNs: u64
    var thresholdNs: u64
    var lastReport: Option<u64>
    /** Everything published towards the arbiter, in order. */
    var published: seq<ControlToArbiter>

    ghost function View(): Node
      reads this
    {
      Node(state, sim, clock, allowedNs, thresholdNs, lastReport)
    }

    constructor (me: BoardId)
      ensures this.me == me && View() == FreshNode && published == []
    {
      this.me := me;
      state, sim, clock, published := AwaitingStartup, SimView(false, false, None), 0, [];
      allowedNs, thresholdNs, lastReport := 0, 0, None;
    }

    method ReportTime()
      modifies this`lastReport, this`published
      ensures Reaction(View(), published) == var r := MaybeTimeReport(old(View())); r.(sent := old(published) + r.sent)
    {
      var headroom := SatSub(allowedNs, clock);
      if headroom < thresholdNs && lastReport != Some(clock) {
        published := published + [TimeReport(clock)];
        lastReport := Some(clock);
      }
    }

    method GuestTurn(out: PollOutcome)
      requires GuestMayPoll(View())
      modifies this
      ensures Reaction(View(), published) == var r := AfterPoll(old(View()), out); r.(sent := old(published) + r.sent)
    {
      match out
      case Quiet(now) =>
        clock := now;
        ReportTime();
      case Halted(now, reason) =>
        clock := now;
        sim := sim.(running := false, stepOnce := false);
        ReportTime();
        published := published + [HostStop(reason)];
      case Failed =>
        sim := sim.(running := false, stepOnce := false);
    }

    method PerformLocalStep(out: StepOutcome)
      modifies this`clock, this`sim, this`lastReport, this`published
      ensures Reaction(View(), published) ==
              var r := AfterLocalStep(old(View()), out); r.(sent := old(published) + r.sent)
    {
      sim := sim.(running := true, stepOnce := true);
      match out
      case Stepped(now, reason) =>
        clock := now;
        sim := sim.(running := false, stepOnce := false);
        published := published + [TimeReport(now)];
        lastReport := Some(now);
        published := published + [HostStop(reason)];
        assert published == old(published) + [TimeReport(now), HostStop(reason)];
      case StepTimedOut =>
      case StepFailed =>
        sim := sim.(running := false, stepOnce := false);
    }

    method Perform(effect: NodeEffect, out: StepOutcome)
      modifies this
      ensures Reaction(View(), published) ==
              var r := ApplyEffect(old(View()), me, effect, out); r.(sent := old(published) + r.sent)
    {
      match effect {
        case SendReady => published := published + [Ready];
        case SetAllowed(a) =>
          allowedNs := a;
          sim := sim.(allowed := Some(a));
        case ResetEntity => lastReport := None;
        case StepOnce(target) =>
          if target == me {
            PerformLocalStep(out);
          }
        case _ =>
      }
    }

    method Enter(next: NodeState)
      modifies this`state, this`sim
      ensures View() == EnterState(old(View()), next)
    {
      var prev := state;
      state := next;
      if !prev.NodeRunning? && state.NodeRunning? {
        sim := sim.(running := true, stepOnce := false);
      } else if prev.NodeRunning? && !state.NodeRunning? {
        sim := sim.(running := false, stepOnce := false);
      }
    }

    method Receive(msg: ControlToNode, out: StepOutcome)
      modifies this
      ensures Reaction(View(), published) ==
              var r := AfterMessage(old(View()), me, msg, out); r.(sent := old(published) + r.sent)
    {
      if msg.StartupRecord? {
        thresholdNs := msg.headroomThresholdNs;
      }
      var move := NodeOnMessage(state, msg);
      Perform(move.effect, out);
      Enter(move.next);
    }

    /** The inner receive loop of one iteration. */
    method DrainInbox(inbox: seq<(ControlToNode, StepOutcome)>)
      modifies this
      ensures Reaction(View(), published) ==
              var r := AfterMessages(old(View()), me, inbox); r.(sent := old(published) + r.sent)
    {
      var i := 0;
      while i < |inbox|
        invariant 0 <= i <= |inbox|
        invariant Reaction(View(), published) ==
                  var r := AfterMessages(old(View()), me, inbox[..i]); r.(sent := old(published) + r.sent)
      {
        AfterMessagesStep(old(View()), me, inbox, i);
        Receive(inbox[i].0, inbox[i].1);
        i := i + 1;
      }
      assert inbox[..|inbox|] == inbox;
    }
  }
}
