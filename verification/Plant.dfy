/** A plant (sim-kernel/src/plant.rs): a model stepped on a fixed grid of virtual time. The
    model is represented by the instants at which it was stepped since its last reset. */
module Plant {
  import opened Prelude
  import BoardRuntime
  import Machine
  import S = Simulator

  datatype PlantState = PlantState(clock: u64, nextStepAt: u64, resetAt: u64, stepTimes: seq<u64>)

  const FreshPlant := PlantState(0, 0, 0, [])

  datatype PlantCall = DoPoll(budget: u64) | DoReset

  function PollPlant(p: PlantState, budget: u64, dt: u64): PlantState {
    if p.clock < p.nextStepAt then
      p.(clock := SatAdd(p.clock, SatSub(Min(SatAdd(p.clock, budget), p.nextStepAt), p.clock)))
    else
      p.(nextStepAt := SatAdd(p.nextStepAt, dt), stepTimes := p.stepTimes + [p.clock])
  }

  function ResetPlant(p: PlantState): PlantState {
    p.(nextStepAt := p.clock, resetAt := p.clock, stepTimes := [])
  }

  function CallPlant(p: PlantState, call: PlantCall, dt: u64): PlantState {
    match call
    case DoPoll(budget) => PollPlant(p, budget, dt)
    case DoReset => ResetPlant(p)
  }

  function RunPlant(calls: seq<PlantCall>, dt: u64): PlantState {
    if calls == [] then FreshPlant
    else CallPlant(RunPlant(calls[..|calls| - 1], dt), calls[|calls| - 1], dt)
  }

  /** The `k`-th instant of the grid that starts at `start`. */
  function GridPoint(start: u64, dt: u64, k: nat): u64 {
    if start + k * dt > U64_MAX then U64_MAX else start + k * dt
  }

  ghost predicate OnGrid(p: PlantState, dt: u64) {
    p.resetAt <= p.clock <= p.nextStepAt &&
    p.nextStepAt == GridPoint(p.resetAt, dt, |p.stepTimes|) &&
    p.nextStepAt <= SatAdd(p.clock, dt) &&
    forall k | 0 <= k < |p.stepTimes| :: p.stepTimes[k] == GridPoint(p.resetAt, dt, k) <= p.clock
  }

  lemma NextGridPoint(start: u64, dt: u64, k: nat)
    ensures GridPoint(start, dt, k + 1) == SatAdd(GridPoint(start, dt, k), dt)
  {
    assert (k + 1) * dt == k * dt + dt;
  }

  lemma PollKeepsGrid(p: PlantState, budget: u64, dt: u64)
    requires OnGrid(p, dt)
    ensures OnGrid(PollPlant(p, budget, dt), dt)
    ensures p.clock <= PollPlant(p, budget, dt).clock <= SatAdd(p.clock, budget)
    ensures PollPlant(p, budget, dt).clock <= SatAdd(p.clock, dt)
  {
    if p.clock == p.nextStepAt {
      NextGridPoint(p.resetAt, dt, |p.stepTimes|);
    }
  }

  lemma {:induction false} RunOnGrid(calls: seq<PlantCall>, dt: u64)
    ensures OnGrid(RunPlant(calls, dt), dt)
  {
    if calls == [] {
      assert 0 * dt == 0;
    } else {
      var before := RunPlant(calls[..|calls| - 1], dt);
      RunOnGrid(calls[..|calls| - 1], dt);
      match calls[|calls| - 1]
      case DoPoll(budget) => PollKeepsGrid(before, budget, dt);
      case DoReset => assert 0 * dt == 0;
    }
  }

  /** Whatever the budgets, the `k`-th model step since reset runs exactly at its grid point,
      none is skipped, and all grid points before the clock have been stepped. */
  lemma StepsRunOnTheGrid(calls: seq<PlantCall>, dt: u64)
    ensures var p := RunPlant(calls, dt);
            (forall k | 0 <= k < |p.stepTimes| :: p.stepTimes[k] == GridPoint(p.resetAt, dt, k)) &&
            (forall k: nat | GridPoint(p.resetAt, dt, k) < p.clock :: k < |p.stepTimes|) &&
            (forall k | 0 <= k < |p.stepTimes| :: p.stepTimes[k] <= p.clock)
  {
    RunOnGrid(calls, dt);
    var p := RunPlant(calls, dt);
    forall k: nat | GridPoint(p.resetAt, dt, k) < p.clock
      ensures k < |p.stepTimes|
    {
      if k >= |p.stepTimes| {
        GridGrows(p.resetAt, dt, |p.stepTimes|, k);
      }
    }
  }

  lemma GridGrows(start: u64, dt: u64, j: nat, k: nat)
    requires j <= k
    ensures GridPoint(start, dt, j) <= GridPoint(start, dt, k)
  {
    assert k * dt == j * dt + (k - j) * dt;
  }

  /** Two schedules that reach the same instant have stepped the model at the same instants,
      except that the step at that very instant may still be due in one of them. */
  lemma PlantScheduleIndependent(a: seq<PlantCall>, b: seq<PlantCall>, dt: u64)
    requires RunPlant(a, dt).clock == RunPlant(b, dt).clock && RunPlant(a, dt).resetAt == RunPlant(b, dt).resetAt
    requires |RunPlant(a, dt).stepTimes| <= |RunPlant(b, dt).stepTimes|
    ensures RunPlant(a, dt).stepTimes <= RunPlant(b, dt).stepTimes
    ensures forall k | |RunPlant(a, dt).stepTimes| <= k < |RunPlant(b, dt).stepTimes| ::
              RunPlant(b, dt).stepTimes[k] == RunPlant(b, dt).clock
  {
    RunOnGrid(a, dt);
    RunOnGrid(b, dt);
    var p, q := RunPlant(a, dt), RunPlant(b, dt);
    forall k | |p.stepTimes| <= k < |q.stepTimes| ensures q.stepTimes[k] == q.clock {
      GridGrows(p.resetAt, dt, |p.stepTimes|, k);
    }
  }

  /** A plant meets the contract a node assumes of its entity; a single step moves the clock by
      at most one model period. */
  lemma PlantMeetsContract(p: PlantState, ceiling: Option<u64>, stepOnce: bool, dt: u64)
    requires OnGrid(p, dt)
    ensures var budget := if ceiling.Some? then SatSub(ceiling.value, p.clock) else U64_MAX;
            BoardRuntime.EntityMayReach(p.clock, ceiling, stepOnce, dt, PollPlant(p, budget, dt).clock)
  {
    PollKeepsGrid(p, if ceiling.Some? then SatSub(ceiling.value, p.clock) else U64_MAX, dt);
  }

  // ---- a plant board in the protocol ----

  /** The simulator around a plant. */
  datatype PlantSim = PlantSim(state: S.Session, stepOnce: bool, allowed: Option<u64>, plant: PlantState)

  datatype PlantAnswer = PlantAnswer(sim: PlantSim, response: Option<S.Response>)

  function BudgetOf(s: PlantSim): u64 {
    if s.allowed.Some? then SatSub(s.allowed.value, s.plant.clock) else U64_MAX
  }

  /** A poll makes progress unless the plant waits for a grid point and may not advance. */
  predicate Progresses(p: PlantState, budget: u64) {
    p.nextStepAt <= p.clock || budget != 0
  }

  /** A poll counts as progress exactly if it moves the clock or steps the model. */
  lemma ProgressIsMovement(p: PlantState, budget: u64, dt: u64)
    ensures Progresses(p, budget) <==>
            PollPlant(p, budget, dt).clock > p.clock || |PollPlant(p, budget, dt).stepTimes| > |p.stepTimes|
  {
  }

  function PollPlantSim(s: PlantSim, dt: u64): PlantAnswer {
    if s.state != S.SimRunning then PlantAnswer(s, None)
    else
      var result := if Progresses(s.plant, BudgetOf(s)) then Machine.Progressed else Machine.NoProgress;
      var j := S.Judge(S.Shell(s.state, s.stepOnce), result);
      PlantAnswer(PlantSim(j.shell.state, j.shell.stepOnce, s.allowed, PollPlant(s.plant, BudgetOf(s), dt)), j.response)
  }

  predicate Mirrors(n: BoardRuntime.Node, s: PlantSim) {
    n.sim == BoardRuntime.SimView(s.state == S.SimRunning, s.stepOnce, s.allowed) && n.clock == s.plant.clock
  }

  /** What the node's loop makes of one poll: a plant never stops but to complete a step. */
  function Outcome(a: PlantAnswer): BoardRuntime.PollOutcome {
    if a.response.None? then BoardRuntime.Quiet(a.sim.plant.clock)
    else BoardRuntime.Halted(a.sim.plant.clock, BoardRuntime.Control.Step)
  }

  /** One guest turn of a plant board is one poll of its simulator: a possible outcome of the node
      model, after which the node's picture is still true and the plant on its grid. */
  lemma NodeSeesPlant(n: BoardRuntime.Node, s: PlantSim, dt: u64)
    requires Mirrors(n, s) && OnGrid(s.plant, dt) && BoardRuntime.GuestMayPoll(n)
    ensures var a := PollPlantSim(s, dt);
            (a.response.Some? ==> a.response == Some(S.HasStopped(Machine.StepDone)) && s.stepOnce) &&
            BoardRuntime.PollPossible(n, Outcome(a), dt) && OnGrid(a.sim.plant, dt) &&
            Mirrors(BoardRuntime.AfterPoll(n, Outcome(a)).node, a.sim)
  {
    PollKeepsGrid(s.plant, BudgetOf(s), dt);
    PlantMeetsContract(s.plant, s.allowed, s.stepOnce, dt);
    var a := PollPlantSim(s, dt);
    assert BoardRuntime.AfterPoll(n, Outcome(a)).node.sim ==
           BoardRuntime.SimView(a.sim.state == S.SimRunning, a.sim.stepOnce, a.sim.allowed);
  }

  /** The polling loop of `perform_local_step`, `polls` times at most. */
  function PlantStepLoop(s: PlantSim, dt: u64, polls: nat): PlantAnswer
    decreases polls
  {
    if polls == 0 then PlantAnswer(s, None)
    else
      var a := PollPlantSim(s, dt);
      if a.response.Some? then a else PlantStepLoop(a.sim, dt, polls - 1)
  }

  function StepOutcomeOf(a: PlantAnswer): BoardRuntime.StepOutcome {
    if a.response.None? then BoardRuntime.StepTimedOut
    else BoardRuntime.Stepped(a.sim.plant.clock, BoardRuntime.Control.Step)
  }

  lemma {:induction false} PlantStepReach(s: PlantSim, dt: u64, polls: nat)
    requires OnGrid(s.plant, dt) && s.state == S.SimRunning && s.stepOnce
    ensures var a := PlantStepLoop(s, dt, polls);
            OnGrid(a.sim.plant, dt) && a.sim.allowed == s.allowed &&
            s.plant.clock <= a.sim.plant.clock <= SatAdd(s.plant.clock, dt) &&
            if a.response.None? then a.sim == s else a.sim.state == S.SimStopped && !a.sim.stepOnce
  {
    if polls > 0 {
      PollKeepsGrid(s.plant, BudgetOf(s), dt);
      if PollPlantSim(s, dt).response.None? {
        assert PollPlant(s.plant, 0, dt) == s.plant;
        PlantStepReach(PollPlantSim(s, dt).sim, dt, polls - 1);
      }
    }
  }

  /** A debugger step of a plant board moves its clock by at most one model period, and times out
      only where the plant may not advance. */
  lemma LocalStepSeesPlant(n: BoardRuntime.Node, s: PlantSim, dt: u64, polls: nat)
    requires Mirrors(n, s) && OnGrid(s.plant, dt) && s.state != S.SimQuit
    ensures var a := PlantStepLoop(s.(state := S.SimRunning, stepOnce := true), dt, polls);
            BoardRuntime.StepPossible(n, StepOutcomeOf(a), dt) && OnGrid(a.sim.plant, dt) &&
            Mirrors(BoardRuntime.AfterLocalStep(n, StepOutcomeOf(a)).node, a.sim)
    ensures polls > 0 ==>
              (PlantStepLoop(s.(state := S.SimRunning, stepOnce := true), dt, polls).response.None? <==>
               !Progresses(s.plant, BudgetOf(s)))
  {
    var t := s.(state := S.SimRunning, stepOnce := true);
    PlantStepReach(t, dt, polls);
    var a := PlantStepLoop(t, dt, polls);
    assert BoardRuntime.AfterLocalStep(n, StepOutcomeOf(a)).node.sim ==
           BoardRuntime.SimView(a.sim.state == S.SimRunning, a.sim.stepOnce, a.sim.allowed);
    if polls > 0 && !Progresses(s.plant, BudgetOf(s)) {
      NeverProgresses(t, dt, polls);
    }
  }

  lemma {:induction false} NeverProgresses(s: PlantSim, dt: u64, polls: nat)
    requires s.state == S.SimRunning && !Progresses(s.plant, BudgetOf(s))
    ensures PlantStepLoop(s, dt, polls).response.None?
  {
    if polls > 0 {
      assert PollPlantSim(s, dt).sim == s;
      NeverProgresses(s, dt, polls - 1);
    }
  }

  class Plant {
    const dt: u64
    var clock: u64
    var nextStepAt: u64
    ghost var resetAt: u64
    /** When the model was stepped since its last reset. */
    ghost var stepTimes: seq<u64>

    ghost function View(): PlantState
      reads this
    {
      PlantState(clock, nextStepAt, resetAt, stepTimes)
    }

    constructor (dt: u64)
      ensures this.dt == dt && View() == FreshPlant
    {
      this.dt := dt;
      clock, nextStepAt, resetAt, stepTimes := 0, 0, 0, [];
    }

    method PollOnce(budget: u64) returns (progressed: bool)
      modifies this
      ensures View() == PollPlant(old(View()), budget, dt)
      ensures progressed <==> Progresses(old(View()), budget)
    {
      var now := clock;
      if now < nextStepAt {
        var target := Min(SatAdd(now, budget), nextStepAt);
        var delta := SatSub(target, now);
        if delta == 0 {
          return false;
        }
        clock := SatAdd(clock, delta);
        return true;
      }
      stepTimes := stepTimes + [clock];
      nextStepAt := SatAdd(nextStepAt, dt);
      progressed := true;
    }

    method HoldReset()
      modifies this
      ensures View() == ResetPlant(old(View()))
    {
      nextStepAt := clock;
      resetAt, stepTimes := clock, [];
    }
  }
}
