/** What the quantum loop guarantees: the clock respects the ceiling and every pending
    deadline, events fire on time, and instructions are retired on a schedule-independent
    time base. */
module Timing {
  import opened Prelude
  import opened EventQueue
  import opened Machine

  ghost predicate Sound(m: MachineState) {
    WellFormed(m.queue) && m.lastInsnAt <= m.clock
  }

  /** `Core::run_quantum` executes up to the number of instructions it is asked for. */
  predicate CoreKeeps(m: MachineState, ctx: AdvanceCtx, guest: Guest) {
    guest.period.GetOr(0) != 0 ==> guest.run.retired <= Requested(m, ctx, guest.period.value)
  }

  /** The same, for a whole poll: the core runs after the due events have fired. */
  predicate GuestKeeps(m: MachineState, ctx: AdvanceCtx, guest: Guest) {
    CoreKeeps(FireDue(m).machine, ctx, guest)
  }

  // ---- when an event is due ----

  /** The instant a pending event is due: its deadline, or the moment it was armed if the
      deadline had passed by then. */
  function Due(p: Pending<Timer>): u64 {
    Max(p.at, p.event.armedAt)
  }

  /** An event is not overdue by more than `slack`; with `exact`, an event armed outside a
      quantum is not overdue at all. */
  predicate Punctual(p: Pending<Timer>, clock: u64, slack: u64, exact: bool) {
    p.event.armedAt <= clock <= SatAdd(Due(p), slack) &&
    (exact && !p.event.inQuantum ==> clock <= Due(p))
  }

  ghost predicate AllPunctual(s: seq<Pending<Timer>>, clock: u64, slack: u64, exact: bool) {
    forall p | p in s :: Punctual(p, clock, slack, exact)
  }

  predicate FiredOnTime(f: Firing, slack: u64, exact: bool) {
    Due(f.event) <= f.clock && Punctual(f.event, f.clock, slack, exact)
  }

  ghost predicate AllFiredOnTime(s: seq<Firing>, slack: u64, exact: bool) {
    forall f | f in s :: FiredOnTime(f, slack, exact)
  }

  lemma {:induction false} OpsKeepPunctual(
      q: Queue<Timer>, ops: seq<TimerOp>, now: u64, inQuantum: bool, clock: u64, slack: u64, exact: bool)
    requires WellFormed(q) && AllPunctual(q.pending, clock, slack, exact)
    requires now <= clock <= SatAdd(now, slack) && (exact && !inQuantum ==> clock == now)
    ensures WellFormed(ApplyOps(q, ops, now, inQuantum))
    ensures AllPunctual(ApplyOps(q, ops, now, inQuantum).pending, clock, slack, exact)
    decreases |ops|
  {
    if ops != [] {
      var first := ApplyOp(q, ops[0], now, inQuantum);
      match ops[0] {
        case Arm(at, action) => ScheduleKeeps(q, at, Timer(action, now, inQuantum));
        case Disarm(id) => CancelKeeps(q, id);
      }
      assert AllPunctual(first.pending, clock, slack, exact);
      OpsKeepPunctual(first, ops[1..], now, inQuantum, clock, slack, exact);
    }
  }

  lemma FireOneKeeps(m: MachineState, slack: u64, exact: bool)
    requires Sound(m) && AllPunctual(m.queue.pending, m.clock, slack, exact) && HasDue(m.queue, m.clock)
    ensures Sound(FireOne(m)) && AllPunctual(FireOne(m).queue.pending, m.clock, slack, exact)
    ensures FiredOnTime(Firing(m.queue.pending[0], m.clock), slack, exact)
  {
    assert m.queue.pending[0] in m.queue.pending;
    PopKeeps(m.queue, m.clock);
    var q := PopDue(m.queue, m.clock).0;
    assert AllPunctual(q.pending, m.clock, slack, exact);
    OpsKeepPunctual(q, m.queue.pending[0].event.action.ops, m.clock, false, m.clock, slack, exact);
  }

  lemma {:induction false} FireDueKeeps(m: MachineState, slack: u64, exact: bool)
    requires Sound(m) && AllPunctual(m.queue.pending, m.clock, slack, exact)
    ensures var f := FireDue(m);
            f.machine.clock == m.clock && f.machine.lastInsnAt == m.lastInsnAt && Sound(f.machine) &&
            AllPunctual(f.machine.queue.pending, m.clock, slack, exact) &&
            AllFiredOnTime(f.firings, slack, exact) &&
            (f.stop.None? ==> !HasDue(f.machine.queue, m.clock))
    decreases QueueWork(m.queue.pending)
  {
    if HasDue(m.queue, m.clock) {
      FireOneKeeps(m, slack, exact);
      FireDueKeeps(FireOne(m), slack, exact);
    }
  }

  // ---- how far one poll moves the clock ----

  lemma WholePeriods(span: nat, period: nat, n: nat)
    requires period != 0 && n <= span / period
    ensures period * n <= span
    ensures n == span / period ==> span - period * n < period
  {
    assert span == period * (span / period) + span % period;
    assert period * n <= period * (span / period) by {
      assert period * (span / period) - period * n == period * (span / period - n);
    }
  }

  /** A quantum of a core that keeps its contract. */
  lemma QuantumBounds(m: MachineState, ctx: AdvanceCtx, period: u64, run: Quantum)
    requires Sound(m) && 0 < period <= ctx.maxQuantum
    requires run.retired <= Requested(m, ctx, period)
    ensures var b := BudgetNs(m, ctx);
            var next := AfterQuantum(m, b, period, run);
            m.clock + b <= next.clock && next.lastInsnAt <= next.clock &&
            (!ctx.stepOnce ==> next.clock == m.clock + b && next.lastInsnAt == m.lastInsnAt + period * run.retired) &&
            (ctx.stepOnce ==> next.clock <= Max(m.clock + b, SatAdd(m.clock, period)))
  {
    var b := BudgetNs(m, ctx);
    assert m.clock + b <= U64_MAX;
    if ctx.stepOnce {
      assert run.retired == 0 || run.retired == 1;
      assert period * 1 == period && period * 0 == 0;
    } else {
      WholePeriods(m.clock + b - m.lastInsnAt, period, run.retired);
    }
  }

  /** Where the clock may be after the part of a poll that follows the due events. */
  predicate ClockAfter(m: MachineState, ctx: AdvanceCtx, clock: u64) {
    m.clock <= clock <= SatAdd(m.clock, ctx.maxQuantum) &&
    (!ctx.stepOnce ==> clock <= m.clock + BudgetNs(m, ctx)) &&
    clock <= SatAdd(SatAdd(m.clock, ctx.budget), ctx.maxQuantum)
  }

  /** Pending events stay punctual while the clock moves as far as `ClockAfter` permits. */
  lemma ClockKeepsPunctual(m: MachineState, ctx: AdvanceCtx, clock: u64, slack: u64, exact: bool)
    requires Sound(m) && AllPunctual(m.queue.pending, m.clock, slack, exact) && !HasDue(m.queue, m.clock)
    requires ClockAfter(m, ctx, clock) && ctx.maxQuantum <= slack && (exact ==> !ctx.stepOnce)
    ensures AllPunctual(m.queue.pending, clock, slack, exact)
    ensures !ctx.stepOnce ==> forall p | p in m.queue.pending :: clock <= p.at
  {
    if m.queue.pending != [] {
      HeadIsLeast(m.queue);
    }
  }

  lemma SettleKeeps(m: MachineState, retired: nat, slack: u64, exact: bool)
    requires Sound(m) && AllPunctual(m.queue.pending, m.clock, slack, exact)
    ensures var p := Settle(m, retired);
            p.machine.clock == m.clock && p.machine.lastInsnAt == m.lastInsnAt && Sound(p.machine) &&
            AllPunctual(p.machine.queue.pending, m.clock, slack, exact) && AllFiredOnTime(p.firings, slack, exact)
  {
    FireDueKeeps(m, slack, exact);
  }

  /** A good outcome of the part of a poll after the due events. */
  ghost predicate GoodAdvance(m: MachineState, ctx: AdvanceCtx, p: Polled, slack: u64, exact: bool) {
    Sound(p.machine) && ClockAfter(m, ctx, p.machine.clock) &&
    AllPunctual(p.machine.queue.pending, p.machine.clock, slack, exact) &&
    AllFiredOnTime(p.firings, slack, exact)
  }

  lemma IdleKeeps(m: MachineState, ctx: AdvanceCtx, slack: u64, exact: bool)
    requires Sound(m) && AllPunctual(m.queue.pending, m.clock, slack, exact) && !HasDue(m.queue, m.clock)
    requires ctx.maxQuantum <= slack && (exact ==> !ctx.stepOnce)
    ensures GoodAdvance(m, ctx, Idle(m, BudgetNs(m, ctx)), slack, exact)
    ensures Idle(m, BudgetNs(m, ctx)).machine.clock == m.clock + BudgetNs(m, ctx)
    ensures Idle(m, BudgetNs(m, ctx)).machine.lastInsnAt == m.lastInsnAt
  {
    var b := BudgetNs(m, ctx);
    if b != 0 {
      ClockKeepsPunctual(m, ctx, m.clock + b, slack, exact);
      SettleKeeps(m.(clock := m.clock + b), 0, slack, exact);
    }
  }

  lemma RunCoreKeeps(m: MachineState, ctx: AdvanceCtx, period: u64, run: Quantum, slack: u64, exact: bool)
    requires Sound(m) && AllPunctual(m.queue.pending, m.clock, slack, exact) && !HasDue(m.queue, m.clock)
    requires ctx.maxQuantum <= slack && (exact ==> !ctx.stepOnce)
    requires 0 < period <= ctx.maxQuantum && run.retired <= Requested(m, ctx, period)
    ensures GoodAdvance(m, ctx, RunCore(m, BudgetNs(m, ctx), period, run), slack, exact)
  {
    var b := BudgetNs(m, ctx);
    QuantumBounds(m, ctx, period, run);
    OpsKeepPunctual(m.queue, run.ops, m.clock, true, m.clock, slack, exact);
    if !(run.retired == 0 && run.stop.None?) {
      var next := AfterQuantum(m, b, period, run);
      ClockKeepsPunctual(m, ctx, next.clock, slack, exact);
      OpsKeepPunctual(m.queue, run.ops, m.clock, true, next.clock, slack, exact);
      if next.trap.None? && run.stop.None? {
        SettleKeeps(next, run.retired, slack, exact);
      }
    }
  }

  lemma AdvanceKeeps(m: MachineState, ctx: AdvanceCtx, guest: Guest, slack: u64, exact: bool)
    requires Sound(m) && AllPunctual(m.queue.pending, m.clock, slack, exact) && !HasDue(m.queue, m.clock)
    requires ctx.maxQuantum <= slack && (exact ==> !ctx.stepOnce) && CoreKeeps(m, ctx, guest)
    ensures GoodAdvance(m, ctx, Advance(m, ctx, guest), slack, exact)
  {
    IdleKeeps(m, ctx, slack, exact);
    if guest.period.GetOr(0) != 0 && guest.period.value <= ctx.maxQuantum {
      RunCoreKeeps(m, ctx, guest.period.value, guest.run, slack, exact);
    }
  }

  /** One poll: the clock never goes back, never moves by more than a quantum, passes the
      ceiling only in a single step, and events stay on time. */
  lemma PollKeeps(m: MachineState, ctx: AdvanceCtx, guest: Guest, slack: u64, exact: bool)
    requires Sound(m) && AllPunctual(m.queue.pending, m.clock, slack, exact)
    requires ctx.maxQuantum <= slack && (exact ==> !ctx.stepOnce) && GuestKeeps(m, ctx, guest)
    ensures var p := Poll(m, ctx, guest);
            Sound(p.machine) && AllPunctual(p.machine.queue.pending, p.machine.clock, slack, exact) &&
            AllFiredOnTime(p.firings, slack, exact) &&
            m.clock <= p.machine.clock <= SatAdd(m.clock, ctx.maxQuantum) &&
            (!ctx.stepOnce ==> p.machine.clock <= SatAdd(m.clock, ctx.budget))
  {
    FireDueKeeps(m, slack, exact);
    var f := FireDue(m);
    if f.stop.None? {
      AdvanceKeeps(f.machine, ctx, guest, slack, exact);
    }
  }

  /** Where one poll from `now` can take the clock: never back, never more than a quantum on,
      and beyond the ceiling only in a single step, by at most one instruction period. */
  predicate Reached(now: u64, ctx: AdvanceCtx, period: u64, p: Polled) {
    p.machine.lastInsnAt <= p.machine.clock &&
    now <= p.machine.clock <= SatAdd(now, ctx.maxQuantum) &&
    (!ctx.stepOnce ==> p.machine.clock <= SatAdd(now, ctx.budget)) &&
    (ctx.stepOnce ==> p.retired <= 1 && p.machine.clock <= Max(SatAdd(now, ctx.budget), SatAdd(now, period))) &&
    (p.result.NoProgress? || p.result.PeriodExceedsQuantum? ==> p.machine.clock == now && p.retired == 0)
  }

  lemma IdleReach(m: MachineState, ctx: AdvanceCtx, period: u64)
    requires Sound(m)
    ensures var p := Idle(m, BudgetNs(m, ctx));
            Reached(m.clock, ctx, period, p) && WellFormed(p.machine.queue)
  {
    FireDueFrame(m.(clock := SatAdd(m.clock, BudgetNs(m, ctx))));
  }

  lemma RunCoreReach(m: MachineState, ctx: AdvanceCtx, period: u64, run: Quantum)
    requires Sound(m) && 0 < period <= ctx.maxQuantum && run.retired <= Requested(m, ctx, period)
    ensures var p := RunCore(m, BudgetNs(m, ctx), period, run);
            Reached(m.clock, ctx, period, p) && WellFormed(p.machine.queue)
  {
    QuantumBounds(m, ctx, period, run);
    OpsKeepOrder(m.queue, run.ops, m.clock, true);
    ConcludeFrame(AfterQuantum(m, BudgetNs(m, ctx), period, run), run);
  }

  lemma ConcludeFrame(m: MachineState, run: Quantum)
    requires WellFormed(m.queue)
    ensures var p := Conclude(m, run);
            p.machine.clock == m.clock && p.machine.lastInsnAt == m.lastInsnAt && WellFormed(p.machine.queue) &&
            p.retired == run.retired && !p.result.NoProgress? && !p.result.PeriodExceedsQuantum?
  {
    FireDueFrame(m);
  }

  lemma PollReach(m: MachineState, ctx: AdvanceCtx, guest: Guest)
    requires Sound(m) && GuestKeeps(m, ctx, guest)
    ensures var p := Poll(m, ctx, guest);
            Sound(p.machine) && Reached(m.clock, ctx, guest.period.GetOr(0), p)
  {
    FireDueFrame(m);
    var f := FireDue(m).machine;
    IdleReach(f, ctx, guest.period.GetOr(0));
    if 0 < guest.period.GetOr(0) <= ctx.maxQuantum {
      RunCoreReach(f, ctx, guest.period.value, guest.run);
    }
  }

  lemma {:induction false} FireDueFrame(m: MachineState)
    requires WellFormed(m.queue)
    ensures FireDue(m).machine.clock == m.clock && FireDue(m).machine.lastInsnAt == m.lastInsnAt
    ensures WellFormed(FireDue(m).machine.queue)
    decreases QueueWork(m.queue.pending)
  {
    if HasDue(m.queue, m.clock) {
      PopKeeps(m.queue, m.clock);
      OpsKeepOrder(PopDue(m.queue, m.clock).0, m.queue.pending[0].event.action.ops, m.clock, false);
      FireDueFrame(FireOne(m));
    }
  }

  lemma {:induction false} OpsKeepOrder(q: Queue<Timer>, ops: seq<TimerOp>, now: u64, inQuantum: bool)
    requires WellFormed(q)
    ensures WellFormed(ApplyOps(q, ops, now, inQuantum))
    decreases |ops|
  {
    if ops != [] {
      match ops[0] {
        case Arm(at, action) => ScheduleKeeps(q, at, Timer(action, now, inQuantum));
        case Disarm(id) => CancelKeeps(q, id);
      }
      OpsKeepOrder(ApplyOp(q, ops[0], now, inQuantum), ops[1..], now, inQuantum);
    }
  }
}
