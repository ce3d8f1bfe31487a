/** What one poll of a board answers and why, read off the events that fired and what the core did,
    and what the node tells the arbiter about it. */
module PollAnswers {
  import opened Prelude
  import opened EventQueue
  import opened Machine
  import opened Simulator
  import Control
  import BoardRuntime

  // ---- what an observer of the machine sees ----

  /** The first reason to stop that the fired events ask for. */
  function Asked(firings: seq<Firing>): Option<StopReason> {
    if firings == [] then None
    else if firings[0].event.event.action.stop.Some? then firings[0].event.event.action.stop
    else Asked(firings[1..])
  }

  /** The last access that events had trapped, after one already pending. */
  function Trapped(pending: Option<Access>, firings: seq<Firing>): Option<Access>
    decreases |firings|
  {
    if firings == [] then pending
    else
      var touched := firings[0].event.event.action.touched;
      Trapped(if touched.Some? then touched else pending, firings[1..])
  }

  /** The events fired before the quantum, and those fired behind it. */
  function Early(m: MachineState): seq<Firing> {
    FireDue(m).firings
  }

  function Late(m: MachineState, p: Polled): seq<Firing> {
    if |Early(m)| <= |p.firings| then p.firings[|Early(m)|..] else []
  }

  /** The core is given at least one instruction. */
  predicate CoreIsCalled(m: MachineState, ctx: AdvanceCtx, guest: Guest) {
    Asked(Early(m)).None? && 0 < guest.period.GetOr(0) <= ctx.maxQuantum &&
    Requested(FireDue(m).machine, ctx, guest.period.value) > 0
  }

  /** The core has retired something or stopped by itself. */
  predicate CoreRuns(m: MachineState, ctx: AdvanceCtx, guest: Guest) {
    CoreIsCalled(m, ctx, guest) && !(guest.run.retired == 0 && guest.run.stop.None?)
  }

  /** The access trapped by the end of the quantum and not yet reported. */
  function TrappedInQuantum(m: MachineState, guest: Guest): Option<Access> {
    if guest.run.touched.Some? then guest.run.touched else Trapped(m.trap, Early(m))
  }

  /** Why a poll stops the machine, if it does. */
  function StopCause(m: MachineState, ctx: AdvanceCtx, guest: Guest, late: seq<Firing>): Option<StopReason> {
    if Asked(Early(m)).Some? then Asked(Early(m))
    else if CoreRuns(m, ctx, guest) && TrappedInQuantum(m, guest).Some? then
      Some(UnmappedAccess(TrappedInQuantum(m, guest).value))
    else if CoreRuns(m, ctx, guest) && guest.run.stop.Some? then guest.run.stop
    else Asked(late)
  }

  // ---- firing due events ----

  lemma {:induction false} FiringStops(m: MachineState)
    ensures var f := FireDue(m);
            f.stop == Asked(f.firings) && f.machine.trap == Trapped(m.trap, f.firings) &&
            f.machine.clock == m.clock &&
            (f.stop.None? ==> !HasDue(f.machine.queue, m.clock)) &&
            (f.stop.Some? ==> f.firings != [] && Asked(f.firings[..|f.firings| - 1]).None?)
    decreases QueueWork(m.queue.pending)
  {
    if HasDue(m.queue, m.clock) {
      var event := m.queue.pending[0];
      var next := FireOne(m);
      var firing := Firing(event, m.clock);
      if event.event.action.stop.Some? {
        assert [firing][1..] == [];
        assert [firing][..0] == [];
      } else {
        FiringStops(next);
        var rest := FireDue(next).firings;
        assert ([firing] + rest)[1..] == rest;
        if rest != [] {
          assert ([firing] + rest)[..|rest|] == [firing] + rest[..|rest| - 1];
          assert ([firing] + rest[..|rest| - 1])[1..] == rest[..|rest| - 1];
        }
      }
    }
  }

  // ---- the answer of a poll ----

  /** How the result of a poll of `m` that leads to `p` follows from what happened in it. */
  ghost predicate AnswerFits(m: MachineState, ctx: AdvanceCtx, guest: Guest, p: Polled) {
    var cause := StopCause(m, ctx, guest, Late(m, p));
    Early(m) <= p.firings &&
    p.retired == (if CoreRuns(m, ctx, guest) then guest.run.retired else 0) &&
    if cause.Some? then p.result == Stopped(cause.value)
    else if guest.period.GetOr(0) > ctx.maxQuantum then
      p.result == PeriodExceedsQuantum(guest.period.value, ctx.maxQuantum) && p.machine.clock == m.clock
    else if CoreRuns(m, ctx, guest) then p.result.Progressed? && !HasDue(p.machine.queue, p.machine.clock)
    else if CoreIsCalled(m, ctx, guest) || p.machine.clock == m.clock then
      p.result.NoProgress? && p.machine.clock == m.clock
    else p.result.Progressed? && p.machine.clock > m.clock && !HasDue(p.machine.queue, p.machine.clock)
  }

  /** A trap that has been reported is gone, one that has not waits for the next quantum. */
  predicate TrapFits(m: MachineState, ctx: AdvanceCtx, guest: Guest, p: Polled) {
    p.machine.trap ==
    if Asked(Early(m)).Some? || !CoreIsCalled(m, ctx, guest) then Trapped(m.trap, p.firings)
    else if CoreRuns(m, ctx, guest) && TrappedInQuantum(m, guest).Some? then None
    else Trapped(TrappedInQuantum(m, guest), Late(m, p))
  }

  lemma LateOf(m: MachineState, p: Polled, late: seq<Firing>)
    requires p.firings == Early(m) + late
    ensures Late(m, p) == late
  {
  }

  lemma {:induction false} TrappedOn(pending: Option<Access>, first: seq<Firing>, second: seq<Firing>)
    ensures Trapped(pending, first + second) == Trapped(Trapped(pending, first), second)
    decreases |first|
  {
    if first == [] {
      assert first + second == second;
    } else {
      var touched := first[0].event.event.action.touched;
      assert (first + second)[1..] == first[1..] + second;
      TrappedOn(if touched.Some? then touched else pending, first[1..], second);
    }
  }

  lemma IdleAnswer(m: MachineState, ctx: AdvanceCtx, guest: Guest, f: MachineState, p: Polled)
    requires f == FireDue(m).machine && Asked(Early(m)).None? && guest.period.GetOr(0) <= ctx.maxQuantum
    requires !CoreIsCalled(m, ctx, guest)
    requires var idle := Idle(f, BudgetNs(f, ctx)); p == idle.(firings := Early(m) + idle.firings)
    ensures AnswerFits(m, ctx, guest, p) && TrapFits(m, ctx, guest, p)
  {
    var budget := BudgetNs(f, ctx);
    FiringStops(m);
    if budget != 0 {
      var moved := f.(clock := SatAdd(f.clock, budget));
      FiringStops(moved);
      TrappedOn(m.trap, Early(m), FireDue(moved).firings);
      LateOf(m, p, FireDue(moved).firings);
    } else {
      TrappedOn(m.trap, Early(m), []);
      LateOf(m, p, []);
    }
  }

  lemma CoreAnswer(m: MachineState, ctx: AdvanceCtx, guest: Guest, f: MachineState, p: Polled)
    requires f == FireDue(m).machine && CoreIsCalled(m, ctx, guest)
    requires var ran := RunCore(f, BudgetNs(f, ctx), guest.period.value, guest.run);
             p == ran.(firings := Early(m) + ran.firings)
    ensures AnswerFits(m, ctx, guest, p) && TrapFits(m, ctx, guest, p)
  {
    FiringStops(m);
    if CoreRuns(m, ctx, guest) {
      var next := AfterQuantum(f, BudgetNs(f, ctx), guest.period.value, guest.run);
      FiringStops(next);
      if next.trap.None? && guest.run.stop.None? {
        LateOf(m, p, FireDue(next).firings);
      } else {
        LateOf(m, p, []);
      }
    } else {
      LateOf(m, p, []);
    }
  }

  /** A poll stops exactly for the first of these that occurs, and gives its reason: an event fired
      before the quantum asks to stop; the core ran and an access was trapped; the core stopped; an
      event fired behind the quantum asks to stop. Otherwise it has progressed, with nothing left
      due, or, if the core did nothing or there was no time to pass, it has not; and a trapped
      access is kept until a quantum reports it. */
  lemma PollAnswer(m: MachineState, ctx: AdvanceCtx, guest: Guest)
    ensures AnswerFits(m, ctx, guest, Poll(m, ctx, guest)) && TrapFits(m, ctx, guest, Poll(m, ctx, guest))
  {
    var f := FireDue(m);
    var p := Poll(m, ctx, guest);
    FiringStops(m);
    if f.stop.Some? {
      LateOf(m, p, []);
    } else if guest.period.GetOr(0) > ctx.maxQuantum {
      assert p.firings == Early(m);
      LateOf(m, p, []);
    } else if CoreIsCalled(m, ctx, guest) {
      CoreAnswer(m, ctx, guest, f.machine, p);
    } else {
      IdleAnswer(m, ctx, guest, f.machine, p);
    }
  }

  // ---- what the node tells the arbiter ----

  /** Messages of a node that announce a stop for `cause`: exactly one, at the end, or none for a
      guest that goes idle or does not stop. */
  predicate Announce(sent: seq<Control.ControlToArbiter>, cause: Option<StopReason>) {
    match cause
    case Some(BreakpointHit(_)) => EndsIn(sent, Control.Breakpoint)
    case Some(UnmappedAccess(_)) => EndsIn(sent, Control.Unmapped)
    case Some(ExternalStop) => EndsIn(sent, Control.ExternalStop)
    case Some(StepDone) => EndsIn(sent, Control.Step)
    case _ => NoStopIn(sent)
  }

  predicate EndsIn(sent: seq<Control.ControlToArbiter>, reason: Control.HostStopReason) {
    sent != [] && sent[|sent| - 1] == Control.HostStop(reason) && NoStopIn(sent[..|sent| - 1])
  }

  predicate NoStopIn(sent: seq<Control.ControlToArbiter>) {
    forall i | 0 <= i < |sent| :: !sent[i].HostStop?
  }

  /** A guest turn announces a stop exactly for the cause the machine stopped for; a guest that goes
      idle keeps running unannounced, and so does one that does not stop, unless its instruction
      period exceeds the quantum, which ends its run without a word. */
  lemma NodeTells(n: BoardRuntime.Node, s: Sim, guest: Guest)
    requires Mirrors(n, s) && BoardRuntime.GuestMayPoll(n) && !s.stepOnce
    ensures var a := PollSim(s, guest);
            var p := Poll(s.machine, Ctx(s), guest);
            var cause := StopCause(s.machine, Ctx(s), guest, Late(s.machine, p));
            Announce(BoardRuntime.AfterPoll(n, Outcome(a)).sent, cause) &&
            (a.sim.state == SimRunning <==>
               cause == Some(Halt) || (cause.None? && guest.period.GetOr(0) <= s.maxQuantum)) &&
            a.sim.machine == p.machine
  {
    PollAnswer(s.machine, Ctx(s), guest);
  }

  /** The budget of a debugger step. */
  function StepCtx(allowed: Option<u64>, maxQuantum: u64, clock: u64): AdvanceCtx {
    AdvanceCtx(if allowed.Some? then SatSub(allowed.value, clock) else U64_MAX, maxQuantum, true)
  }

  /** The machine and the guest behaviour of the first poll of a debugger step that gets anywhere. */
  function FirstAnswer(m: MachineState, allowed: Option<u64>, maxQuantum: u64, guests: seq<Guest>)
    : Option<(MachineState, Guest)>
    decreases |guests|
  {
    if guests == [] then None
    else
      var p := Poll(m, StepCtx(allowed, maxQuantum, m.clock), guests[0]);
      if p.result.NoProgress? then FirstAnswer(p.machine, allowed, maxQuantum, guests[1..])
      else Some((m, guests[0]))
  }

  /** What a debugger step concludes from a poll: an instruction that stops for nothing, or goes
      idle, completes it. */
  function StepCause(p: Polled, cause: Option<StopReason>): Option<StopReason> {
    if p.result.PeriodExceedsQuantum? then None
    else if cause.None? || cause == Some(Halt) then Some(StepDone)
    else cause
  }

  /** A debugger step reports the time and the stop of the first of its polls that gets anywhere:
      the cause the machine stopped for, or the completed step; it reports nothing if none does. */
  lemma {:induction false} StepTells(n: BoardRuntime.Node, s: Sim, guests: seq<Guest>)
    requires s.state == SimRunning && s.stepOnce
    ensures var sent := BoardRuntime.AfterLocalStep(n, StepOutcomeOf(StepLoop(s, guests))).sent;
            match FirstAnswer(s.machine, s.allowed, s.maxQuantum, guests)
            case None => sent == []
            case Some((m, guest)) =>
              var ctx := StepCtx(s.allowed, s.maxQuantum, m.clock);
              var p := Poll(m, ctx, guest);
              var cause := StepCause(p, StopCause(m, ctx, guest, Late(m, p)));
              Announce(sent, cause) &&
              if cause.None? then sent == [] else |sent| == 2 && sent[0] == Control.TimeReport(p.machine.clock)
    decreases |guests|
  {
    if guests != [] {
      PollAnswer(s.machine, Ctx(s), guests[0]);
      if PollSim(s, guests[0]).response.None? {
        StepTells(n, PollSim(s, guests[0]).sim, guests[1..]);
      }
    }
  }
}
