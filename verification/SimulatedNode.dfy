/** A node together with the simulator it commands: what each control message makes of both, and how
    far the machine's clock comes under the ceilings the arbiter sends, over whole runs. */
module SimulatedNode {
  import opened Prelude
  import opened Machine
  import opened Timing
  import opened Simulator
  import Control
  import Lifecycle
  import BoardRuntime
  import Progress

  datatype Board = Board(node: BoardRuntime.Node, sim: Sim)

  /** What happens to a node: a message (with what the polls of a debugger step would do, and the
      timers the devices arm on a Reset) or the guest part of a loop iteration. */
  datatype Input =
    | Got(msg: Control.ControlToNode, guests: seq<Guest>, ops: seq<TimerOp>)
    | Turn(guest: Guest)

  function FreshBoard(maxQuantum: u64): Board {
    Board(BoardRuntime.FreshNode, Sim(SimStopped, false, None, maxQuantum, FreshMachine))
  }

  function Obey(s: Sim, cmds: seq<Command>): Sim
    decreases |cmds|
  {
    if cmds == [] then s else Obey(Apply(s, cmds[0]).sim, cmds[1..])
  }

  /** The commands a node in `state` gives its simulator for a message: a ceiling it accepts, then a
      start or a stop when it comes to run or ceases to. */
  function CommandsFor(state: Lifecycle.NodeState, msg: Control.ControlToNode): seq<Command> {
    var move := Lifecycle.NodeOnMessage(state, msg);
    (if move.effect.SetAllowed? then [SetAllowed(move.effect.allowedNs)] else []) +
    (if !state.NodeRunning? && move.next.NodeRunning? then [DoStart]
     else if state.NodeRunning? && !move.next.NodeRunning? then [DoStop]
     else [])
  }

  predicate StepsHere(me: Control.BoardId, state: Lifecycle.NodeState, msg: Control.ControlToNode) {
    Lifecycle.NodeOnMessage(state, msg).effect == Lifecycle.StepOnce(me)
  }

  /** The simulator before the commands: stepped for a debugger, reset, or as it was. */
  function Worked(me: Control.BoardId, state: Lifecycle.NodeState, s: Sim, input: Input): Answered
    requires input.Got?
  {
    if StepsHere(me, state, input.msg) then StepLoop(Apply(s, DoStep).sim, input.guests)
    else if Lifecycle.NodeOnMessage(state, input.msg).effect.ResetEntity? then
      Answered(s.(machine := Reset(s.machine, input.ops)), None)
    else Answered(s, None)
  }

  function After(me: Control.BoardId, b: Board, input: Input): Board {
    match input
    case Got(msg, guests, ops) =>
      var worked := Worked(me, b.node.state, b.sim, input);
      Board(BoardRuntime.AfterMessage(b.node, me, msg, StepOutcomeOf(worked)).node,
            Obey(worked.sim, CommandsFor(b.node.state, msg)))
    case Turn(guest) =>
      if !BoardRuntime.GuestMayPoll(b.node) then b
      else
        var a := PollSim(b.sim, guest);
        Board(BoardRuntime.AfterPoll(b.node, Outcome(a)).node, a.sim)
  }

  /** The processor keeps its contract in every poll an input causes. */
  predicate InputKeeps(me: Control.BoardId, b: Board, input: Input) {
    match input
    case Got(msg, guests, ops) =>
      StepsHere(me, b.node.state, msg) ==> GuestsKeep(Apply(b.sim, DoStep).sim, guests)
    case Turn(guest) => BoardRuntime.GuestMayPoll(b.node) ==> GuestKeeps(b.sim.machine, Ctx(b.sim), guest)
  }

  ghost predicate InStep(b: Board) {
    Mirrors(b.node, b.sim) && Sound(b.sim.machine) && b.sim.state != SimQuit && Progress.NodeHolds(b.node)
  }

  lemma CommandsSeen(n: BoardRuntime.Node, next: BoardRuntime.Node, s: Sim, msg: Control.ControlToNode)
    requires Mirrors(n, s) && s.state != SimQuit
    requires var move := Lifecycle.NodeOnMessage(n.state, msg);
             var held := if move.effect.SetAllowed?
                        then n.(sim := n.sim.(allowed := Some(move.effect.allowedNs))) else n;
             next.sim == BoardRuntime.EnterState(held, move.next).sim && next.clock == n.clock
    ensures var obeyed := Obey(s, CommandsFor(n.state, msg));
            Mirrors(next, obeyed) && obeyed.state != SimQuit && obeyed.machine == s.machine
  {
    var cmds := CommandsFor(n.state, msg);
    ObeyFew(s, cmds);
    assert cmds == [] || cmds == [cmds[0]] || cmds == [cmds[0], cmds[1]];
  }

  lemma ObeyFew(s: Sim, cmds: seq<Command>)
    ensures |cmds| == 1 ==> Obey(s, cmds) == Apply(s, cmds[0]).sim
    ensures |cmds| == 2 ==> Obey(s, cmds) == Apply(Apply(s, cmds[0]).sim, cmds[1]).sim
  {
    if |cmds| == 2 {
      var next := Apply(s, cmds[0]).sim;
      assert Obey(next, cmds[1..]) == Obey(Apply(next, cmds[1]).sim, cmds[1..][1..]);
    }
  }

  lemma WorkSeen(me: Control.BoardId, b: Board, input: Input)
    requires InStep(b) && input.Got? && InputKeeps(me, b, input)
    ensures var worked := Worked(me, b.node.state, b.sim, input);
            var out := StepOutcomeOf(worked);
            Sound(worked.sim.machine) && worked.sim.state != SimQuit &&
            (StepsHere(me, b.node.state, input.msg) ==>
               BoardRuntime.StepPossible(b.node, out, b.sim.maxQuantum) &&
               Mirrors(BoardRuntime.AfterLocalStep(b.node, out).node, worked.sim)) &&
            (!StepsHere(me, b.node.state, input.msg) ==> Mirrors(b.node, worked.sim))
  {
    if StepsHere(me, b.node.state, input.msg) {
      LocalStepSeesSimulator(b.node, b.sim, input.guests);
      StepLoopReach(Apply(b.sim, DoStep).sim, input.guests);
    } else {
      OpsKeepOrder(b.sim.machine.queue, input.ops, b.sim.machine.clock, false);
    }
  }

  /** After one message the node mirrors the simulator that has received the matching commands;
      whatever a debugger step did is a possible outcome of the node model. */
  lemma MessageSeen(me: Control.BoardId, b: Board, input: Input)
    requires InStep(b) && input.Got? && InputKeeps(me, b, input)
    ensures InStep(After(me, b, input))
    ensures StepsHere(me, b.node.state, input.msg) ==>
              BoardRuntime.StepPossible(
                b.node, StepOutcomeOf(Worked(me, b.node.state, b.sim, input)), b.sim.maxQuantum)
    ensures !StepsHere(me, b.node.state, input.msg) ==> After(me, b, input).node.clock == b.node.clock
  {
    var worked := Worked(me, b.node.state, b.sim, input);
    var out := StepOutcomeOf(worked);
    var after := After(me, b, input).node;
    WorkSeen(me, b, input);
    Progress.NodeHoldsKept(me, b.node, input.msg, out, BoardRuntime.Failed);
    if StepsHere(me, b.node.state, input.msg) {
      CommandsSeen(BoardRuntime.AfterLocalStep(b.node, out).node, after, worked.sim, input.msg);
    } else {
      CommandsSeen(b.node, after, worked.sim, input.msg);
    }
  }

  /** A woken node takes every ceiling; nothing but a startup record or a cluster stop wakes it. */
  lemma CeilingTaken(me: Control.BoardId, n: BoardRuntime.Node, msg: Control.ControlToNode,
                     out: BoardRuntime.StepOutcome)
    ensures var after := BoardRuntime.AfterMessage(n, me, msg, out).node;
            after.sim.allowed ==
            (if Control.CeilingIn(msg).Some? && !n.state.AwaitingStartup? then Control.CeilingIn(msg)
             else n.sim.allowed) &&
            (after.state.AwaitingStartup? <==>
               n.state.AwaitingStartup? && !msg.StartupRecord? && !msg.ClusterStop?)
  {
  }

  lemma TurnSeen(me: Control.BoardId, b: Board, input: Input)
    requires InStep(b) && input.Turn? && InputKeeps(me, b, input)
    ensures var after := After(me, b, input);
            InStep(after) && after.node.state == b.node.state && after.sim.allowed == b.sim.allowed &&
            b.node.clock <= after.node.clock &&
            (after.node.clock != b.node.clock ==>
               b.sim.allowed.Some? && after.node.clock <= Max(b.node.clock, b.sim.allowed.value))
  {
    if BoardRuntime.GuestMayPoll(b.node) {
      var a := PollSim(b.sim, input.guest);
      NodeSeesSimulator(b.node, b.sim, input.guest);
      PollReach(b.sim.machine, Ctx(b.sim), input.guest);
      Progress.NodeHoldsKept(me, b.node, Control.Reset, BoardRuntime.StepFailed, Outcome(a));
    }
  }

  // ---- whole runs ----

  function Run(me: Control.BoardId, maxQuantum: u64, inputs: seq<Input>): Board
    decreases |inputs|
  {
    if inputs == [] then FreshBoard(maxQuantum)
    else After(me, Run(me, maxQuantum, inputs[..|inputs| - 1]), inputs[|inputs| - 1])
  }

  predicate RunKeeps(me: Control.BoardId, maxQuantum: u64, inputs: seq<Input>)
    decreases |inputs|
  {
    inputs != [] ==>
      var n := |inputs| - 1;
      RunKeeps(me, maxQuantum, inputs[..n]) && InputKeeps(me, Run(me, maxQuantum, inputs[..n]), inputs[n])
  }

  /** Some message has woken the node; before that it takes no ceiling. */
  predicate Woken(inputs: seq<Input>)
    decreases |inputs|
  {
    inputs != [] &&
    (Woken(inputs[..|inputs| - 1]) ||
     (var last := inputs[|inputs| - 1]; last.Got? && (last.msg.StartupRecord? || last.msg.ClusterStop?)))
  }

  /** The last ceiling the arbiter has sent to a woken node. */
  function LastCeiling(inputs: seq<Input>): Option<u64>
    decreases |inputs|
  {
    if inputs == [] then None
    else
      var n := |inputs| - 1;
      if inputs[n].Got? && Control.CeilingIn(inputs[n].msg).Some? && Woken(inputs[..n]) then
        Control.CeilingIn(inputs[n].msg)
      else LastCeiling(inputs[..n])
  }

  /** In every run the node's picture of its simulator is true and the simulator stands under the
      last ceiling sent to the node, if any. */
  lemma {:induction false} RunMirrors(me: Control.BoardId, maxQuantum: u64, inputs: seq<Input>)
    requires RunKeeps(me, maxQuantum, inputs)
    ensures var b := Run(me, maxQuantum, inputs);
            InStep(b) && b.sim.allowed == LastCeiling(inputs) && (b.node.state.AwaitingStartup? <==> !Woken(inputs))
    decreases |inputs|
  {
    if inputs != [] {
      var n := |inputs| - 1;
      var b := Run(me, maxQuantum, inputs[..n]);
      RunMirrors(me, maxQuantum, inputs[..n]);
      if inputs[n].Got? {
        MessageSeen(me, b, inputs[n]);
        CeilingTaken(me, b.node, inputs[n].msg, StepOutcomeOf(Worked(me, b.node.state, b.sim, inputs[n])));
      } else {
        TurnSeen(me, b, inputs[n]);
      }
    }
  }

  predicate Follows(allowed: Option<u64>, now: u64, next: u64) {
    next == now || (allowed.Some? && now < next <= Max(now, allowed.value))
  }

  lemma InputFollows(me: Control.BoardId, b: Board, input: Input)
    requires InStep(b) && InputKeeps(me, b, input) && !(input.Got? && input.msg == Control.GdbStep(me))
    ensures InStep(After(me, b, input))
    ensures Follows(b.sim.allowed, b.node.clock, After(me, b, input).node.clock)
  {
    if input.Got? {
      MessageSeen(me, b, input);
    } else {
      TurnSeen(me, b, input);
    }
  }

  /** An input that is not a debugger step of this board moves the clock only forward, only under a
      ceiling, and not past the last one sent. */
  lemma InputObeysCeiling(me: Control.BoardId, maxQuantum: u64, inputs: seq<Input>, input: Input)
    requires RunKeeps(me, maxQuantum, inputs + [input]) && !(input.Got? && input.msg == Control.GdbStep(me))
    ensures RunKeeps(me, maxQuantum, inputs)
    ensures Follows(LastCeiling(inputs), Run(me, maxQuantum, inputs).sim.machine.clock,
                    Run(me, maxQuantum, inputs + [input]).sim.machine.clock)
  {
    assert (inputs + [input])[..|inputs|] == inputs;
    var b := Run(me, maxQuantum, inputs);
    RunMirrors(me, maxQuantum, inputs);
    InputFollows(me, b, input);
    assert Run(me, maxQuantum, inputs + [input]) == After(me, b, input);
  }

  predicate NoStepOf(me: Control.BoardId, inputs: seq<Input>) {
    forall i | 0 <= i < |inputs| :: !(inputs[i].Got? && inputs[i].msg == Control.GdbStep(me))
  }

  /** Over every run and from any point of it: while this board takes no debugger step and no ceiling
      above `limit` is in force, its clock does not pass `limit`, or where it stood if that is more. */
  lemma {:induction false} CeilingObeyed(
      me: Control.BoardId, maxQuantum: u64, past: seq<Input>, inputs: seq<Input>, limit: u64)
    requires RunKeeps(me, maxQuantum, past + inputs) && NoStepOf(me, inputs)
    requires forall i | 0 <= i <= |inputs| :: LastCeiling(past + inputs[..i]).GetOr(0) <= limit
    ensures var stood := Run(me, maxQuantum, past).sim.machine.clock;
            stood <= Run(me, maxQuantum, past + inputs).sim.machine.clock <= Max(stood, limit)
    decreases |inputs|
  {
    if inputs == [] {
      assert past + inputs == past;
    } else {
      var n := |inputs| - 1;
      var init := inputs[..n];
      assert past + inputs == (past + init) + [inputs[n]];
      InputObeysCeiling(me, maxQuantum, past + init, inputs[n]);
      forall i | 0 <= i <= n
        ensures LastCeiling(past + init[..i]).GetOr(0) <= limit
      {
        assert init[..i] == inputs[..i];
      }
      CeilingObeyed(me, maxQuantum, past, init, limit);
      assert init == init[..n];
    }
  }

  // ---- a simulator that does not run ----

  /** What a simulator is asked, by its node or an inspector. */
  datatype Request = Order(cmd: Command) | Advance(guest: Guest)

  function Serve(s: Sim, requests: seq<Request>): Answered
    decreases |requests|
  {
    if requests == [] then Answered(s, None)
    else
      var n := |requests| - 1;
      var before := Serve(s, requests[..n]).sim;
      match requests[n]
      case Order(cmd) => Apply(before, cmd)
      case Advance(guest) => PollSim(before, guest)
  }

  /** Once told to quit, a simulator answers every command with that and never moves again. */
  lemma {:induction false} QuitIsFinal(s: Sim, requests: seq<Request>)
    ensures var quit := Apply(s, DoQuit);
            quit.response == Some(HasQuit) && Serve(quit.sim, requests).sim == quit.sim &&
            (requests != [] ==>
               Serve(quit.sim, requests).response ==
               if requests[|requests| - 1].Order? then Some(HasQuit) else None)
    decreases |requests|
  {
    if requests != [] {
      QuitIsFinal(s, requests[..|requests| - 1]);
    }
  }

  /** A simulator told to stop keeps its machine as it is and answers inspection until it is started
      or stepped again, whatever else it is asked; one that is started refuses inspection. */
  lemma {:induction false} StopHolds(s: Sim, requests: seq<Request>)
    requires s.state != SimQuit
    requires forall i | 0 <= i < |requests| :: requests[i].Advance? || requests[i].cmd !in {DoStart, DoStep, DoQuit}
    ensures var held := Serve(Apply(s, DoStop).sim, requests).sim;
            held.machine == s.machine && held.state == SimStopped && !held.stepOnce &&
            Apply(held, DoInspect) == Answered(held, Some(Inspected)) &&
            var resumed := Apply(held, DoStart).sim;
            resumed.state == SimRunning && !resumed.stepOnce &&
            Apply(resumed, DoInspect) == Answered(resumed, Some(RefusedWhileRunning))
    decreases |requests|
  {
    if requests != [] {
      StopHolds(s, requests[..|requests| - 1]);
    }
  }
}
