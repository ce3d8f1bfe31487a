/** The simulator around a machine (sim-kernel/src/sim.rs): session state, single step, and the
    virtual-time ceiling. */
module Simulator {
  import opened Prelude
  import opened Machine
  import opened Timing
  import Control
  import BoardRuntime

  datatype Session = SimStopped | SimRunning | SimQuit

  datatype Sim = Sim(
    state: Session,
    stepOnce: bool,
    allowed: Option<u64>,
    maxQuantum: u64,
    machine: MachineState)

  datatype Command = DoStart | DoStep | DoStop | DoQuit | SetAllowed(tick: u64) | NotifyHalt | DoInspect

  datatype Response =
    | Started
    | HasStopped(reason: StopReason)
    | HasQuit
    | Accepted
    | RefusedWhileRunning
    | Inspected
    | PeriodError(period: u64, maxQuantum: u64)

  datatype Answered = Answered(sim: Sim, response: Option<Response>)

  /** `waiting_on_allowed_ceiling`. */
  predicate Waiting(s: Sim) {
    s.state == SimRunning && s.allowed.Some? && SatSub(s.allowed.value, s.machine.clock) == 0
  }

  function Apply(s: Sim, cmd: Command): Answered {
    if s.state == SimQuit then Answered(s, Some(HasQuit))
    else
      match cmd
      case DoStart => Answered(s.(state := SimRunning, stepOnce := false), Some(Started))
      case DoStep => Answered(s.(state := SimRunning, stepOnce := true), Some(Started))
      case DoStop => Answered(s.(state := SimStopped, stepOnce := false), Some(HasStopped(ExternalStop)))
      case DoQuit => Answered(s.(state := SimQuit), Some(HasQuit))
      case SetAllowed(tick) => Answered(s.(allowed := Some(tick)), Some(Accepted))
      case NotifyHalt => Answered(s, Some(Accepted))
      case DoInspect => Answered(s, Some(if s.state == SimRunning then RefusedWhileRunning else Inspected))
  }

  function Ctx(s: Sim): AdvanceCtx {
    AdvanceCtx(if s.allowed.Some? then SatSub(s.allowed.value, s.machine.clock) else U64_MAX,
               s.maxQuantum, s.stepOnce)
  }

  /** The session state a poll may change, whatever the entity. */
  datatype Shell = Shell(state: Session, stepOnce: bool)

  datatype Judged = Judged(shell: Shell, response: Option<Response>)

  /** `commit_stop`: a guest halt is idling, not a stop, unless it completes a single step. */
  function Commit(shell: Shell, reason: StopReason): Judged {
    if reason == Halt && !shell.stepOnce then Judged(shell, None)
    else Judged(Shell(SimStopped, false), Some(HasStopped(if reason == Halt then StepDone else reason)))
  }

  /** What the session makes of an entity's poll. */
  function Judge(shell: Shell, result: EntityPoll): Judged {
    match result
    case NoProgress => Judged(shell, None)
    case Progressed => if shell.stepOnce then Judged(Shell(SimStopped, false), Some(HasStopped(StepDone)))
        else Judged(shell, None)
    case Stopped(reason) => Commit(shell, reason)
    case PeriodExceedsQuantum(period, maxQuantum) => Judged(Shell(SimStopped, false),
        Some(PeriodError(period, maxQuantum)))
  }

  function Settled(s: Sim, j: Judged): Answered {
    Answered(s.(state := j.shell.state, stepOnce := j.shell.stepOnce), j.response)
  }

  function AfterEntity(s: Sim, p: Polled): Answered {
    Settled(s.(machine := p.machine), Judge(Shell(s.state, s.stepOnce), p.result))
  }

  function PollSim(s: Sim, guest: Guest): Answered {
    if s.state != SimRunning then Answered(s, None)
    else AfterEntity(s, Poll(s.machine, Ctx(s), guest))
  }

  // ---- a node sees the simulator through the contract of its entity ----

  /** `cluster_host_stop_reason`. */
  function HostReason(reason: StopReason): Option<Control.HostStopReason> {
    match reason
    case Halt => None
    case ExternalStop => Some(Control.ExternalStop)
    case StepDone => Some(Control.Step)
    case BreakpointHit(_) => Some(Control.Breakpoint)
    case UnmappedAccess(_) => Some(Control.Unmapped)
  }

  /** What the node's loop makes of one poll's response. */
  function Outcome(a: Answered): BoardRuntime.PollOutcome {
    match a.response
    case None => BoardRuntime.Quiet(a.sim.machine.clock)
    case Some(HasStopped(reason)) =>
      if HostReason(reason).Some? then BoardRuntime.Halted(a.sim.machine.clock, HostReason(reason).value)
      else BoardRuntime.Failed
    case Some(_) => BoardRuntime.Failed
  }

  function SimViewOf(s: Sim): BoardRuntime.SimView {
    BoardRuntime.SimView(s.state == SimRunning, s.stepOnce, s.allowed)
  }

  /** The node's picture of its simulator. */
  predicate Mirrors(n: BoardRuntime.Node, s: Sim) {
    n.sim == SimViewOf(s) && n.clock == s.machine.clock
  }

  lemma NodeSeesEntity(n: BoardRuntime.Node, s: Sim, guest: Guest, p: Polled)
    requires Mirrors(n, s) && BoardRuntime.GuestMayPoll(n)
    requires Reached(s.machine.clock, Ctx(s), guest.period.GetOr(0), p)
    ensures var a := AfterEntity(s, p);
            BoardRuntime.PollPossible(n, Outcome(a), s.maxQuantum) &&
            Mirrors(BoardRuntime.AfterPoll(n, Outcome(a)).node, a.sim) &&
            a.response != Some(HasStopped(Halt))
  {
    var a := AfterEntity(s, p);
    assert BoardRuntime.AfterPoll(n, Outcome(a)).node.sim == SimViewOf(a.sim);
  }

  /** One guest turn of a node is one poll of the simulator: the response is a possible poll
      outcome of the node model, and the node's picture stays true. A halted guest never
      surfaces as a stop. */
  lemma NodeSeesSimulator(n: BoardRuntime.Node, s: Sim, guest: Guest)
    requires Mirrors(n, s) && Sound(s.machine) && GuestKeeps(s.machine, Ctx(s), guest)
    requires BoardRuntime.GuestMayPoll(n)
    ensures var a := PollSim(s, guest);
            BoardRuntime.PollPossible(n, Outcome(a), s.maxQuantum) &&
            Mirrors(BoardRuntime.AfterPoll(n, Outcome(a)).node, a.sim) &&
            a.response != Some(HasStopped(Halt))
  {
    PollReach(s.machine, Ctx(s), guest);
    NodeSeesEntity(n, s, guest, Poll(s.machine, Ctx(s), guest));
  }

  /** The node parks exactly when the ceiling is reached, and there a poll of a running machine
      with no instruction pending would not move the clock. */
  lemma ParkedIsStill(n: BoardRuntime.Node, s: Sim, guest: Guest)
    requires Mirrors(n, s) && Sound(s.machine) && GuestKeeps(s.machine, Ctx(s), guest)
    ensures BoardRuntime.Waiting(n) <==> Waiting(s)
    ensures Waiting(s) && !s.stepOnce ==> PollSim(s, guest).sim.machine.clock == s.machine.clock
  {
    PollReach(s.machine, Ctx(s), guest);
  }

  // ---- the single step of a debugger ----

  /** The polling loop of `perform_local_step`, one guest behaviour per iteration; the loop
      times out when they run out. */
  function StepLoop(s: Sim, guests: seq<Guest>): Answered
    decreases |guests|
  {
    if guests == [] then Answered(s, None)
    else
      var a := PollSim(s, guests[0]);
      if a.response.Some? then a else StepLoop(a.sim, guests[1..])
  }

  predicate GuestsKeep(s: Sim, guests: seq<Guest>)
    decreases |guests|
  {
    guests != [] ==>
      GuestKeeps(s.machine, Ctx(s), guests[0]) && GuestsKeep(PollSim(s, guests[0]).sim, guests[1..])
  }

  function StepOutcomeOf(a: Answered): BoardRuntime.StepOutcome {
    match a.response
    case None => BoardRuntime.StepTimedOut
    case Some(HasStopped(reason)) =>
      if HostReason(reason).Some? then BoardRuntime.Stepped(a.sim.machine.clock, HostReason(reason).value)
      else BoardRuntime.StepFailed
    case Some(_) => BoardRuntime.StepFailed
  }

  /** What the loop may have concluded, starting at `now`. */
  ghost predicate StepConcluded(now: u64, allowed: Option<u64>, maxQuantum: u64, a: Answered) {
    Sound(a.sim.machine) && a.sim.allowed == allowed && now <= a.sim.machine.clock <= SatAdd(now, maxQuantum) &&
    (if a.response.None? then a.sim.machine.clock == now && a.sim.state == SimRunning && a.sim.stepOnce &&
        a.sim.maxQuantum == maxQuantum
     else a.sim.state == SimStopped && !a.sim.stepOnce) &&
    a.response != Some(HasStopped(Halt)) &&
    (StepOutcomeOf(a).StepFailed? ==> a.sim.machine.clock == now)
  }

  lemma StepPoll(s: Sim, guest: Guest)
    requires Sound(s.machine) && s.state == SimRunning && s.stepOnce && GuestKeeps(s.machine, Ctx(s), guest)
    ensures StepConcluded(s.machine.clock, s.allowed, s.maxQuantum, PollSim(s, guest))
  {
    PollReach(s.machine, Ctx(s), guest);
  }

  lemma {:induction false} StepLoopReach(s: Sim, guests: seq<Guest>)
    requires Sound(s.machine) && s.state == SimRunning && s.stepOnce && GuestsKeep(s, guests)
    ensures StepConcluded(s.machine.clock, s.allowed, s.maxQuantum, StepLoop(s, guests))
    decreases |guests|
  {
    if guests != [] {
      StepPoll(s, guests[0]);
      var a := PollSim(s, guests[0]);
      if a.response.None? {
        StepLoopReach(a.sim, guests[1..]);
      }
    }
  }

  lemma NodeSeesStep(n: BoardRuntime.Node, s: Sim, a: Answered)
    requires Mirrors(n, s) && a.sim.allowed == s.allowed
    requires s.machine.clock <= a.sim.machine.clock <= SatAdd(s.machine.clock, s.maxQuantum)
    requires if a.response.None? then a.sim.machine.clock == s.machine.clock && a.sim.state == SimRunning &&
             a.sim.stepOnce
             else a.sim.state == SimStopped && !a.sim.stepOnce
    requires a.response != Some(HasStopped(Halt))
    requires StepOutcomeOf(a).StepFailed? ==> a.sim.machine.clock == s.machine.clock
    ensures BoardRuntime.StepPossible(n, StepOutcomeOf(a), s.maxQuantum)
    ensures Mirrors(BoardRuntime.AfterLocalStep(n, StepOutcomeOf(a)).node, a.sim)
  {
    assert BoardRuntime.AfterLocalStep(n, StepOutcomeOf(a)).node.sim == SimViewOf(a.sim);
  }

  /** However many polls a debugger step takes, it moves the clock by at most one quantum, and
      what the node concludes from it is a possible outcome of the node model. */
  lemma LocalStepSeesSimulator(n: BoardRuntime.Node, s: Sim, guests: seq<Guest>)
    requires Mirrors(n, s) && Sound(s.machine) && s.state != SimQuit
    requires GuestsKeep(Apply(s, DoStep).sim, guests)
    ensures var a := StepLoop(Apply(s, DoStep).sim, guests);
            BoardRuntime.StepPossible(n, StepOutcomeOf(a), s.maxQuantum) &&
            Mirrors(BoardRuntime.AfterLocalStep(n, StepOutcomeOf(a)).node, a.sim)
  {
    StepLoopReach(Apply(s, DoStep).sim, guests);
    NodeSeesStep(n, s, StepLoop(Apply(s, DoStep).sim, guests));
  }

  // ---- the simulator as it runs ----

  class Simulator {
    const maxQuantum: u64
    const machine: Machine
    var state: Session
    var stepOnce: bool
    var allowed: Option<u64>

    ghost predicate Valid()
      reads this, machine, machine.events
    {
      machine.Valid()
    }

    ghost function View(): Sim
      reads this, machine, machine.events
    {
      Sim(state, stepOnce, allowed, maxQuantum, machine.View())
    }

    constructor (maxQuantum: u64)
      ensures Valid() && fresh(machine) && fresh(machine.events)
      ensures View() == Sim(SimStopped, false, None, maxQuantum, FreshMachine)
    {
      this.maxQuantum := maxQuantum;
      machine := new Machine();
      state, stepOnce, allowed := SimStopped, false, None;
    }

    method Command(cmd: Command) returns (response: Response)
      requires Valid()
      modifies this
      ensures Valid() && Answered(View(), Some(response)) == Apply(old(View()), cmd)
    {
      if state == SimQuit {
        return HasQuit;
      }
      match cmd
      case DoStart =>
        stepOnce, state := false, SimRunning;
        response := Started;
      case DoStep =>
        stepOnce, state := true, SimRunning;
        response := Started;
      case DoStop =>
        stepOnce, state := false, SimStopped;
        response := HasStopped(ExternalStop);
      case DoQuit =>
        state := SimQuit;
        response := HasQuit;
      case SetAllowed(tick) =>
        allowed := Some(tick);
        response := Accepted;
      case NotifyHalt => response := Accepted;
      case DoInspect => response := if state == SimRunning then RefusedWhileRunning else Inspected;
    }

    method CommitStopReason(reason: StopReason) returns (response: Option<Response>)
      requires Valid()
      modifies this`state, this`stepOnce
      ensures Valid() && Answered(View(), response) ==
              Settled(old(View()), Commit(Shell(old(state), old(stepOnce)), reason))
    {
      if reason == Halt && stepOnce {
        stepOnce, state := false, SimStopped;
        response := Some(HasStopped(StepDone));
      } else if reason == Halt {
        stepOnce := false;
        response := None;
      } else {
        stepOnce, state := false, SimStopped;
        response := Some(HasStopped(reason));
      }
    }

    method PollOnce(guest: Guest) returns (response: Option<Response>)
      requires Valid()
      modifies this, machine, machine.events
      ensures Valid() && Answered(View(), response) == PollSim(old(View()), guest)
    {
      if state != SimRunning {
        return None;
      }
      var budget := if allowed.Some? then SatSub(allowed.value, machine.clock) else U64_MAX;
      var result, firings, retired := machine.PollOnce(AdvanceCtx(budget, maxQuantum, stepOnce), guest);
      match result
      case NoProgress => response := None;
      case Progressed =>
        if stepOnce {
          stepOnce, state := false, SimStopped;
          response := Some(HasStopped(StepDone));
        } else {
          response := None;
        }
      case Stopped(reason) => response := CommitStopReason(reason);
      case PeriodExceedsQuantum(period, cap) =>
        stepOnce, state := false, SimStopped;
        response := Some(PeriodError(period, cap));
    }
  }
}
