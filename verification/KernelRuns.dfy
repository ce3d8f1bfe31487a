/** Whole runs of one machine: any sequence of polls, host timer calls and resets. */
module KernelRuns {
  import opened Prelude
  import opened EventQueue
  import opened Machine
  import opened Timing

  datatype KernelStep =
    | Polling(ctx: AdvanceCtx, guest: Guest)
    | Touching(ops: seq<TimerOp>)
    | Resetting(ops: seq<TimerOp>)

  /** A machine with what it has done: every firing, and since the last reset the instructions
      retired. */
  datatype Trace = Trace(machine: MachineState, firings: seq<Firing>, resetAt: u64, retired: nat)

  const FreshTrace := Trace(FreshMachine, [], 0, 0)

  function After(t: Trace, step: KernelStep): Trace {
    match step
    case Polling(ctx, guest) =>
      var p := Poll(t.machine, ctx, guest);
      Trace(p.machine, t.firings + p.firings, t.resetAt, t.retired + p.retired)
    case Touching(ops) =>
      t.(machine := t.machine.(queue := ApplyOps(t.machine.queue, ops, t.machine.clock, false)))
    case Resetting(ops) =>
      t.(machine := Reset(t.machine, ops), resetAt := t.machine.clock, retired := 0)
  }

  function Run(steps: seq<KernelStep>): Trace {
    if steps == [] then FreshTrace else After(Run(steps[..|steps| - 1]), steps[|steps| - 1])
  }

  /** The simulator always passes its configured quantum, and the core keeps its contract. */
  predicate StepPossible(t: Trace, step: KernelStep, maxQuantum: u64) {
    step.Polling? ==> step.ctx.maxQuantum == maxQuantum && GuestKeeps(t.machine, step.ctx, step.guest)
  }

  predicate Possible(steps: seq<KernelStep>, maxQuantum: u64) {
    steps == [] ||
    (Possible(steps[..|steps| - 1], maxQuantum) &&
     StepPossible(Run(steps[..|steps| - 1]), steps[|steps| - 1], maxQuantum))
  }

  predicate NoSingleStep(steps: seq<KernelStep>) {
    forall i | 0 <= i < |steps| && steps[i].Polling? :: !steps[i].ctx.stepOnce
  }

  ghost predicate OnTime(t: Trace, maxQuantum: u64, exact: bool) {
    Sound(t.machine) && AllPunctual(t.machine.queue.pending, t.machine.clock, maxQuantum, exact) &&
    AllFiredOnTime(t.firings, maxQuantum, exact)
  }

  lemma StepOnTime(t: Trace, step: KernelStep, maxQuantum: u64, exact: bool)
    requires OnTime(t, maxQuantum, exact) && StepPossible(t, step, maxQuantum)
    requires exact && step.Polling? ==> !step.ctx.stepOnce
    ensures OnTime(After(t, step), maxQuantum, exact)
    ensures t.machine.clock <= After(t, step).machine.clock
  {
    var m := t.machine;
    match step
    case Polling(ctx, guest) => PollKeeps(m, ctx, guest, maxQuantum, exact);
    case Touching(ops) => OpsKeepPunctual(m.queue, ops, m.clock, false, m.clock, maxQuantum, exact);
    case Resetting(ops) => OpsKeepPunctual(m.queue, ops, m.clock, false, m.clock, maxQuantum, exact);
  }

  lemma {:induction false} RunOnTime(steps: seq<KernelStep>, maxQuantum: u64, exact: bool)
    requires Possible(steps, maxQuantum) && (exact ==> NoSingleStep(steps))
    ensures OnTime(Run(steps), maxQuantum, exact)
  {
    if steps != [] {
      var before := steps[..|steps| - 1];
      RunOnTime(before, maxQuantum, exact);
      StepOnTime(Run(before), steps[|steps| - 1], maxQuantum, exact);
    }
  }

  /** In every run, each event fires no earlier than it is due and at most one quantum late,
      and nothing still pending is later than that. */
  lemma EventsFireWithinAQuantum(steps: seq<KernelStep>, maxQuantum: u64)
    requires Possible(steps, maxQuantum)
    ensures forall f | f in Run(steps).firings :: Due(f.event) <= f.clock <= SatAdd(Due(f.event), maxQuantum)
    ensures forall p | p in Run(steps).machine.queue.pending :: Run(steps).machine.clock <= SatAdd(Due(p), maxQuantum)
  {
    RunOnTime(steps, maxQuantum, false);
    assert forall f | f in Run(steps).firings :: FiredOnTime(f, maxQuantum, false);
    assert forall p | p in Run(steps).machine.queue.pending ::
        Punctual(p, Run(steps).machine.clock, maxQuantum, false);
  }

  /** Without single steps, an event armed outside a quantum fires exactly when it is due, and
      the clock never passes one that is pending. */
  lemma EventsFireExactly(steps: seq<KernelStep>, maxQuantum: u64)
    requires Possible(steps, maxQuantum) && NoSingleStep(steps)
    ensures forall f | f in Run(steps).firings && !f.event.event.inQuantum :: f.clock == Due(f.event)
    ensures forall p | p in Run(steps).machine.queue.pending && !p.event.inQuantum ::
              Run(steps).machine.clock <= Due(p)
  {
    RunOnTime(steps, maxQuantum, true);
    assert forall f | f in Run(steps).firings :: FiredOnTime(f, maxQuantum, true);
    assert forall p | p in Run(steps).machine.queue.pending ::
        Punctual(p, Run(steps).machine.clock, maxQuantum, true);
  }

  // ---- instructions ----

  /** A poll of a core that retires everything it is asked for. */
  predicate FullPoll(m: MachineState, ctx: AdvanceCtx, guest: Guest, period: u64)
    requires period != 0
  {
    !ctx.stepOnce && guest.period == Some(period) &&
    guest.run.retired == Requested(FireDue(m).machine, ctx, period)
  }

  /** What the time base still owes, in whole instructions, when the core is asked to run. */
  function Owed(m: MachineState, ctx: AdvanceCtx, period: u64): nat
    requires period != 0
  {
    SatSub(SatAdd(m.clock, BudgetNs(m, ctx)), m.lastInsnAt) / period
  }

  lemma MulMono(p: nat, a: nat, b: nat)
    requires a <= b
    ensures p * a <= p * b
  {
    assert p * b == p * a + p * (b - a);
  }

  lemma QuotientIs(span: nat, period: nat, q: nat, r: nat)
    requires r < period && span == period * q + r
    ensures span / period == q
  {
    var d := span / period;
    if d > q {
      MulMono(period, q + 1, d);
    } else if d < q {
      MulMono(period, d + 1, q);
    }
  }

  lemma SpanFits(span: nat, period: nat, bound: nat)
    requires period != 0 && span < period + bound
    ensures span / period <= bound
  {
    if span / period > bound {
      MulMono(period, bound + 1, span / period);
      MulMono(bound, 1, period);
    }
  }

  /** The core part of a full poll. */
  lemma RunCoreSettles(m: MachineState, ctx: AdvanceCtx, period: u64, run: Quantum)
    requires Sound(m) && 0 < period <= ctx.maxQuantum && !ctx.stepOnce
    requires 0 < run.retired == Owed(m, ctx, period) <= U32_MAX
    ensures var p := RunCore(m, BudgetNs(m, ctx), period, run);
            p.retired == run.retired &&
            p.machine.lastInsnAt == m.lastInsnAt + period * p.retired &&
            0 <= p.machine.clock - p.machine.lastInsnAt < period
  {
    var b := BudgetNs(m, ctx);
    QuantumBounds(m, ctx, period, run);
    WholePeriods(m.clock + b - m.lastInsnAt, period, run.retired);
    var next := AfterQuantum(m, b, period, run);
    OpsKeepOrder(m.queue, run.ops, m.clock, true);
    FireDueFrame(next);
  }

  /** A full poll that reaches the core pays the whole debt, whatever single steps or idling
      left behind: less than one period is owed afterwards. */
  lemma FullPollSettles(m: MachineState, ctx: AdvanceCtx, guest: Guest, period: u64)
    requires Sound(m) && 0 < period <= ctx.maxQuantum
    requires FullPoll(m, ctx, guest, period) && FireDue(m).stop.None?
    requires Owed(FireDue(m).machine, ctx, period) <= U32_MAX
    ensures var p := Poll(m, ctx, guest);
            p.machine.lastInsnAt == m.lastInsnAt + period * p.retired &&
            0 <= p.machine.clock - p.machine.lastInsnAt < period
  {
    FireDueFrame(m);
    var f := FireDue(m).machine;
    var b := BudgetNs(f, ctx);
    if Owed(f, ctx, period) == 0 {
      WholePeriods(f.clock + b - f.lastInsnAt, period, 0);
      assert period * 0 == 0;
      FireDueFrame(f.(clock := SatAdd(f.clock, b)));
    } else {
      RunCoreSettles(f, ctx, period, guest.run);
    }
  }

  /** With less than one period owed, a quantum never asks for more than a 32-bit count. */
  lemma DebtFits(m: MachineState, ctx: AdvanceCtx, period: u64)
    requires Sound(m) && 0 < period <= ctx.maxQuantum <= U32_MAX && m.clock - m.lastInsnAt < period
    ensures Owed(m, ctx, period) <= U32_MAX
  {
    SpanFits(SatSub(SatAdd(m.clock, BudgetNs(m, ctx)), m.lastInsnAt), period, ctx.maxQuantum);
  }

  predicate FullStep(t: Trace, step: KernelStep, period: u64, maxQuantum: u64)
    requires period != 0
  {
    step.Polling? ==> step.ctx.maxQuantum == maxQuantum && FullPoll(t.machine, step.ctx, step.guest, period)
  }

  /** A run of a core with a fixed period that always retires its full budget. */
  predicate FullRun(steps: seq<KernelStep>, period: u64, maxQuantum: u64)
    requires period != 0
  {
    steps == [] ||
    (FullRun(steps[..|steps| - 1], period, maxQuantum) &&
     FullStep(Run(steps[..|steps| - 1]), steps[|steps| - 1], period, maxQuantum))
  }

  ghost predicate InStep(t: Trace, period: u64) {
    Sound(t.machine) && t.machine.lastInsnAt == t.resetAt + period * t.retired &&
    t.machine.clock - t.machine.lastInsnAt < period
  }

  lemma FullPollKeeps(t: Trace, ctx: AdvanceCtx, guest: Guest, period: u64)
    requires 0 < period <= ctx.maxQuantum <= U32_MAX
    requires InStep(t, period) && FullPoll(t.machine, ctx, guest, period)
    ensures var p := Poll(t.machine, ctx, guest);
            Sound(p.machine) && p.machine.lastInsnAt == t.machine.lastInsnAt + period * p.retired &&
            p.machine.clock - p.machine.lastInsnAt < period
  {
    var m := t.machine;
    FireDueFrame(m);
    PollReach(m, ctx, guest);
    if FireDue(m).stop.None? {
      DebtFits(FireDue(m).machine, ctx, period);
      FullPollSettles(m, ctx, guest, period);
    } else {
      assert period * 0 == 0;
    }
  }

  lemma FullStepKeeps(t: Trace, step: KernelStep, period: u64, maxQuantum: u64)
    requires 0 < period <= maxQuantum <= U32_MAX
    requires InStep(t, period) && FullStep(t, step, period, maxQuantum)
    ensures InStep(After(t, step), period)
  {
    var m := t.machine;
    match step
    case Touching(ops) => OpsKeepOrder(m.queue, ops, m.clock, false);
    case Resetting(ops) =>
      OpsKeepOrder(m.queue, ops, m.clock, false);
      assert period * 0 == 0;
    case Polling(ctx, guest) =>
      FullPollKeeps(t, ctx, guest, period);
      Distribute(period, t.retired, Poll(m, ctx, guest).retired);
  }

  lemma Distribute(p: nat, a: nat, b: nat)
    ensures p * (a + b) == p * a + p * b
  {
  }

  lemma {:induction false} FullRunInStep(steps: seq<KernelStep>, period: u64, maxQuantum: u64)
    requires 0 < period <= maxQuantum <= U32_MAX && FullRun(steps, period, maxQuantum)
    ensures InStep(Run(steps), period)
  {
    if steps == [] {
      assert period * 0 == 0;
    } else {
      FullRunInStep(steps[..|steps| - 1], period, maxQuantum);
      FullStepKeeps(Run(steps[..|steps| - 1]), steps[|steps| - 1], period, maxQuantum);
    }
  }

  lemma InStepCounts(t: Trace, period: u64)
    requires 0 < period && InStep(t, period)
    ensures t.resetAt <= t.machine.clock && t.retired == (t.machine.clock - t.resetAt) / period
  {
    MulMono(period, 0, t.retired);
    QuotientIs(t.machine.clock - t.resetAt, period, t.retired, t.machine.clock - t.machine.lastInsnAt);
  }

  /** Whatever the ceilings, deadlines and poll boundaries, the instructions retired since the
      last reset are exactly those that fit in the time since then. */
  lemma InstructionsFollowTheClock(steps: seq<KernelStep>, period: u64, maxQuantum: u64)
    requires 0 < period <= maxQuantum <= U32_MAX && FullRun(steps, period, maxQuantum)
    ensures var t := Run(steps);
            t.resetAt <= t.machine.clock && t.retired == (t.machine.clock - t.resetAt) / period
  {
    FullRunInStep(steps, period, maxQuantum);
    InStepCounts(Run(steps), period);
  }

  lemma InStepAgree(a: Trace, b: Trace, period: u64)
    requires 0 < period && InStep(a, period) && InStep(b, period)
    requires a.machine.clock == b.machine.clock && a.resetAt == b.resetAt
    ensures a.retired == b.retired && a.machine.lastInsnAt == b.machine.lastInsnAt
  {
    InStepCounts(a, period);
    InStepCounts(b, period);
  }

  /** Two runs with different schedules agree wherever their clocks agree. */
  lemma ScheduleIndependent(a: seq<KernelStep>, b: seq<KernelStep>, period: u64, maxQuantum: u64)
    requires 0 < period <= maxQuantum <= U32_MAX
    requires FullRun(a, period, maxQuantum) && FullRun(b, period, maxQuantum)
    requires Run(a).machine.clock == Run(b).machine.clock && Run(a).resetAt == Run(b).resetAt
    ensures Run(a).retired == Run(b).retired && Run(a).machine.lastInsnAt == Run(b).machine.lastInsnAt
  {
    FullRunInStep(a, period, maxQuantum);
    FullRunInStep(b, period, maxQuantum);
    InStepAgree(Run(a), Run(b), period);
  }

  // ---- single steps ----

  /** A single step of a core that keeps its contract. */
  predicate SinglePoll(ctx: AdvanceCtx, guest: Guest, period: u64) {
    ctx.stepOnce && guest.period == Some(period) && guest.run.retired <= 1
  }

  /** What can be checked of the machine before a single step: the core does nothing at all, or no
      more instructions are owed for the whole budget than it retires. */
  predicate StepHarmless(m: MachineState, ctx: AdvanceCtx, run: Quantum, period: u64)
    requires period != 0
  {
    (run.retired == 0 && run.stop.None?) ||
    (Owed(m, ctx, period) <= run.retired && m.lastInsnAt + period * run.retired <= U64_MAX)
  }

  /** The core part of a single step. */
  lemma SingleCore(m: MachineState, ctx: AdvanceCtx, period: u64, run: Quantum)
    requires Sound(m) && 0 < period <= ctx.maxQuantum && ctx.stepOnce && run.retired <= 1
    ensures var b := BudgetNs(m, ctx);
            var p := RunCore(m, b, period, run);
            var still := run.retired == 0 && run.stop.None?;
            m.clock + b <= U64_MAX && b <= ctx.maxQuantum && Sound(p.machine) && p.retired == run.retired &&
            p.machine.lastInsnAt == SatAdd(m.lastInsnAt, period * run.retired) &&
            p.machine.clock == if still then m.clock else Max(p.machine.lastInsnAt, m.clock + b)
  {
    var b := BudgetNs(m, ctx);
    assert period * 1 == period && period * 0 == 0;
    OpsKeepOrder(m.queue, run.ops, m.clock, true);
    if run.retired == 1 || run.stop.Some? {
      QuantumBounds(m, ctx, period, run);
      ConcludeFrame(AfterQuantum(m, b, period, run), run);
    }
  }

  /** The formula holds of a machine whose time base is exact if and only if less than a period
      is owed. */
  lemma CountIff(clock: nat, last: nat, resetAt: nat, period: nat, retired: nat)
    requires 0 < period && resetAt <= last <= clock && last == resetAt + period * retired
    ensures retired == (clock - resetAt) / period <==> clock - last < period
  {
    if clock - last < period {
      QuotientIs(clock - resetAt, period, retired, clock - last);
    } else {
      WholePeriods(clock - resetAt, period, (clock - resetAt) / period);
    }
  }

  /** A count past the end of time is never reached. */
  lemma CountTooHigh(clock: nat, resetAt: nat, period: nat, retired: nat)
    requires 0 < period && resetAt <= clock < resetAt + period * retired
    ensures retired != (clock - resetAt) / period
  {
    WholePeriods(clock - resetAt, period, (clock - resetAt) / period);
  }

  lemma OwedFits(m: MachineState, ctx: AdvanceCtx, period: u64, retired: nat)
    requires Sound(m) && 0 < period && m.clock + BudgetNs(m, ctx) <= U64_MAX && retired <= 1
    ensures Owed(m, ctx, period) <= retired <==> m.clock + BudgetNs(m, ctx) - m.lastInsnAt < period * (retired + 1)
  {
    var span := m.clock + BudgetNs(m, ctx) - m.lastInsnAt;
    assert period * 1 == period && period * 2 == period + period;
    if span < period {
      QuotientIs(span, period, 0, span);
    } else if span < period + period {
      QuotientIs(span, period, 1, span - period);
    } else {
      WholePeriods(span, period, span / period);
      if span / period <= 1 {
        MulMono(period, span / period, 1);
      }
    }
  }

  lemma SingleCounts(m: MachineState, ctx: AdvanceCtx, run: Quantum, period: u64, resetAt: nat, retired: nat)
    requires Sound(m) && 0 < period <= ctx.maxQuantum && ctx.stepOnce && run.retired <= 1
    requires resetAt <= m.lastInsnAt == resetAt + period * retired && m.clock - m.lastInsnAt < period
    ensures var p := RunCore(m, BudgetNs(m, ctx), period, run);
            resetAt <= p.machine.clock && p.retired == run.retired &&
            (retired + run.retired == (p.machine.clock - resetAt) / period <==> StepHarmless(m, ctx, run, period))
  {
    var r := run.retired;
    SingleCore(m, ctx, period, run);
    var p := RunCore(m, BudgetNs(m, ctx), period, run).machine;
    if r == 0 && run.stop.None? {
      CountIff(p.clock, p.lastInsnAt, resetAt, period, retired);
    } else {
      Distribute(period, retired, r);
      Distribute(period, r, 1);
      OwedFits(m, ctx, period, r);
      if m.lastInsnAt + period * r <= U64_MAX {
        CountIff(p.clock, p.lastInsnAt, resetAt, period, retired + r);
      } else {
        CountTooHigh(p.clock, resetAt, period, retired + r);
      }
    }
  }

  /** From a machine in step, a single step leaves the instruction count what the clock says if
      and only if it is harmless. */
  lemma SingleStepHarmlessIff(t: Trace, ctx: AdvanceCtx, guest: Guest, period: u64)
    requires 0 < period <= ctx.maxQuantum && InStep(t, period) && SinglePoll(ctx, guest, period)
    requires FireDue(t.machine).stop.None?
    ensures var p := Poll(t.machine, ctx, guest);
            t.resetAt <= p.machine.clock &&
            (t.retired + p.retired == (p.machine.clock - t.resetAt) / period <==>
             StepHarmless(FireDue(t.machine).machine, ctx, guest.run, period))
  {
    FireDueFrame(t.machine);
    MulMono(period, 0, t.retired);
    SingleCounts(FireDue(t.machine).machine, ctx, guest.run, period, t.resetAt, t.retired);
  }

  // ---- the debt of mixed runs ----

  predicate MixedStep(t: Trace, step: KernelStep, period: u64, maxQuantum: u64)
    requires period != 0
  {
    step.Polling? ==>
      step.ctx.maxQuantum == maxQuantum &&
      (SinglePoll(step.ctx, step.guest, period) || FullPoll(t.machine, step.ctx, step.guest, period))
  }

  /** A run of full polls and single steps. */
  predicate MixedRun(steps: seq<KernelStep>, period: u64, maxQuantum: u64)
    requires period != 0
  {
    steps == [] ||
    (MixedRun(steps[..|steps| - 1], period, maxQuantum) &&
     MixedStep(Run(steps[..|steps| - 1]), steps[|steps| - 1], period, maxQuantum))
  }

  /** A full poll that reaches the core and whose request is not cut short. */
  predicate PaysUp(t: Trace, step: KernelStep, period: u64)
    requires period != 0
  {
    step.Polling? && !step.ctx.stepOnce && FireDue(t.machine).stop.None? &&
    Owed(FireDue(t.machine).machine, step.ctx, period) <= U32_MAX
  }

  /** Single steps since the machine was last reset or paid its debt. */
  function Singles(steps: seq<KernelStep>, period: u64): nat
    requires period != 0
  {
    if steps == [] then 0
    else
      var before, step := steps[..|steps| - 1], steps[|steps| - 1];
      if step.Resetting? || PaysUp(Run(before), step, period) then 0
      else Singles(before, period) + if step.Polling? && step.ctx.stepOnce then 1 else 0
  }

  /** The time base is exact, and less than a period plus `k` quanta is owed. */
  ghost predicate Accounted(t: Trace, period: u64, maxQuantum: u64, k: nat) {
    Sound(t.machine) && t.machine.lastInsnAt == t.resetAt + period * t.retired &&
    t.machine.clock - t.machine.lastInsnAt < period + maxQuantum * k
  }

  lemma SingleAccounts(t: Trace, ctx: AdvanceCtx, guest: Guest, period: u64, k: nat)
    requires 0 < period <= ctx.maxQuantum && SinglePoll(ctx, guest, period) && Accounted(t, period, ctx.maxQuantum, k)
    requires Poll(t.machine, ctx, guest).machine.clock < U64_MAX
    ensures Accounted(After(t, Polling(ctx, guest)), period, ctx.maxQuantum, k + 1)
  {
    FireDueFrame(t.machine);
    Distribute(ctx.maxQuantum, k, 1);
    if FireDue(t.machine).stop.None? {
      SingleCore(FireDue(t.machine).machine, ctx, period, guest.run);
      Distribute(period, t.retired, guest.run.retired);
    }
  }

  /** The core part of a full poll, whatever is owed. */
  lemma FullCore(m: MachineState, ctx: AdvanceCtx, period: u64, run: Quantum)
    requires Sound(m) && 0 < period <= ctx.maxQuantum <= U32_MAX && !ctx.stepOnce
    requires 0 < run.retired == Requested(m, ctx, period)
    ensures var p := RunCore(m, BudgetNs(m, ctx), period, run);
            Sound(p.machine) && p.retired == run.retired &&
            p.machine.lastInsnAt == m.lastInsnAt + period * run.retired &&
            (Owed(m, ctx, period) <= U32_MAX ==> p.machine.clock - p.machine.lastInsnAt < period) &&
            (Owed(m, ctx, period) > U32_MAX ==> p.machine.clock - p.machine.lastInsnAt <= m.clock - m.lastInsnAt)
  {
    var b := BudgetNs(m, ctx);
    QuantumBounds(m, ctx, period, run);
    WholePeriods(m.clock + b - m.lastInsnAt, period, run.retired);
    OpsKeepOrder(m.queue, run.ops, m.clock, true);
    ConcludeFrame(AfterQuantum(m, b, period, run), run);
    MulMono(run.retired, 1, period);
  }

  lemma FullAccounts(t: Trace, ctx: AdvanceCtx, guest: Guest, period: u64, k: nat)
    requires 0 < period <= ctx.maxQuantum <= U32_MAX && FullPoll(t.machine, ctx, guest, period)
    requires Accounted(t, period, ctx.maxQuantum, k)
    ensures Accounted(After(t, Polling(ctx, guest)), period, ctx.maxQuantum,
            if PaysUp(t, Polling(ctx, guest), period) then 0 else k)
  {
    FireDueFrame(t.machine);
    MulMono(ctx.maxQuantum, 0, k);
    assert ctx.maxQuantum * 0 == 0 && period * 0 == 0;
    if FireDue(t.machine).stop.None? {
      var m := FireDue(t.machine).machine;
      if Requested(m, ctx, period) == 0 {
        var b := BudgetNs(m, ctx);
        WholePeriods(m.clock + b - m.lastInsnAt, period, 0);
        FireDueFrame(m.(clock := SatAdd(m.clock, b)));
      } else {
        FullCore(m, ctx, period, guest.run);
      }
      Distribute(period, t.retired, Poll(t.machine, ctx, guest).retired);
    }
  }

  lemma MixedAccounts(t: Trace, step: KernelStep, period: u64, maxQuantum: u64, k: nat)
    requires 0 < period <= maxQuantum <= U32_MAX && MixedStep(t, step, period, maxQuantum) &&
             Accounted(t, period, maxQuantum, k)
    requires After(t, step).machine.clock < U64_MAX
    ensures var k' :=
              if step.Resetting? || PaysUp(t, step, period) then 0
              else if step.Polling? && step.ctx.stepOnce then k + 1 else k;
            Accounted(After(t, step), period, maxQuantum, k')
  {
    var m := t.machine;
    match step
    case Touching(ops) => OpsKeepOrder(m.queue, ops, m.clock, false);
    case Resetting(ops) =>
      OpsKeepOrder(m.queue, ops, m.clock, false);
      assert period * 0 == 0 && maxQuantum * 0 == 0;
    case Polling(ctx, guest) =>
      if ctx.stepOnce {
        SingleAccounts(t, ctx, guest, period, k);
      } else {
        FullAccounts(t, ctx, guest, period, k);
      }
  }

  lemma ClockNeverBack(t: Trace, step: KernelStep, period: u64, maxQuantum: u64)
    requires 0 < period <= maxQuantum <= U32_MAX && MixedStep(t, step, period, maxQuantum) && Sound(t.machine)
    ensures t.machine.clock <= After(t, step).machine.clock
  {
    FireDueFrame(t.machine);
    if step.Polling? {
      PollReach(t.machine, step.ctx, step.guest);
    }
  }

  lemma {:induction false} MixedRunSound(steps: seq<KernelStep>, period: u64, maxQuantum: u64)
    requires 0 < period <= maxQuantum <= U32_MAX && MixedRun(steps, period, maxQuantum)
    ensures Sound(Run(steps).machine)
  {
    if steps != [] {
      var before, step := steps[..|steps| - 1], steps[|steps| - 1];
      MixedRunSound(before, period, maxQuantum);
      var m := Run(before).machine;
      FireDueFrame(m);
      match step
      case Touching(ops) => OpsKeepOrder(m.queue, ops, m.clock, false);
      case Resetting(ops) => OpsKeepOrder(m.queue, ops, m.clock, false);
      case Polling(ctx, guest) => PollReach(m, ctx, guest);
    }
  }

  lemma {:induction false} MixedRunAccounts(steps: seq<KernelStep>, period: u64, maxQuantum: u64)
    requires 0 < period <= maxQuantum <= U32_MAX && MixedRun(steps, period, maxQuantum)
    requires Run(steps).machine.clock < U64_MAX
    ensures Accounted(Run(steps), period, maxQuantum, Singles(steps, period))
  {
    if steps == [] {
      assert period * 0 == 0 && maxQuantum * 0 == 0;
    } else {
      var before, step := steps[..|steps| - 1], steps[|steps| - 1];
      MixedRunSound(before, period, maxQuantum);
      ClockNeverBack(Run(before), step, period, maxQuantum);
      MixedRunAccounts(before, period, maxQuantum);
      MixedAccounts(Run(before), step, period, maxQuantum, Singles(before, period));
    }
  }

  lemma MissingIsDebt(clock: nat, last: nat, resetAt: nat, period: nat, retired: nat)
    requires 0 < period && last <= clock && last == resetAt + period * retired
    ensures resetAt <= last && clock - resetAt == period * retired + (clock - last)
    ensures (clock - resetAt) / period - retired == (clock - last) / period
  {
    MulMono(period, 0, retired);
    var q, r := (clock - last) / period, (clock - last) % period;
    assert clock - last == period * q + r;
    Distribute(period, retired, q);
    QuotientIs(clock - resetAt, period, retired + q, r);
  }

  /** The time since the last reset is what the retired instructions took plus a debt below
      `bound`, and the instructions that are missing are the whole periods in that debt. */
  predicate DebtIs(t: Trace, period: u64, bound: nat)
    requires period != 0
  {
    var debt := t.machine.clock - t.machine.lastInsnAt;
    t.resetAt <= t.machine.clock && 0 <= debt < bound &&
    t.machine.clock - t.resetAt == period * t.retired + debt &&
    (t.machine.clock - t.resetAt) / period - t.retired == debt / period
  }

  lemma AccountedDebt(t: Trace, period: u64, maxQuantum: u64, k: nat)
    requires 0 < period && Accounted(t, period, maxQuantum, k)
    ensures DebtIs(t, period, period + maxQuantum * k)
  {
    MissingIsDebt(t.machine.clock, t.machine.lastInsnAt, t.resetAt, period, t.retired);
  }

  /** Over any run of full polls and single steps the debt is less than a period plus one quantum
      for every single step since a full poll last paid it. */
  lemma DebtOfMixedRuns(steps: seq<KernelStep>, period: u64, maxQuantum: u64)
    requires 0 < period <= maxQuantum <= U32_MAX && MixedRun(steps, period, maxQuantum)
    requires Run(steps).machine.clock < U64_MAX
    ensures DebtIs(Run(steps), period, period + maxQuantum * Singles(steps, period))
  {
    MixedRunAccounts(steps, period, maxQuantum);
    AccountedDebt(Run(steps), period, maxQuantum, Singles(steps, period));
  }

  /** A single step moves the clock over the whole budget but retires one instruction: the
      formula of `InstructionsFollowTheClock` fails until the next full poll. */
  lemma SingleStepLeavesDebt()
    ensures var step := Polling(AdvanceCtx(10, 10, true), Guest(Some(1), Quantum(1, None, [], None)));
            Possible([step], 10) && Run([step]).machine.clock == 10 && Run([step]).retired == 1
  {
    var ctx := AdvanceCtx(10, 10, true);
    var step := Polling(ctx, Guest(Some(1), Quantum(1, None, [], None)));
    assert [step][..0] == [];
    assert Run([]) == FreshTrace;
    assert FireDue(FreshMachine) == Fired(FreshMachine, [], None);
    var next := AfterQuantum(FreshMachine, 10, 1, step.guest.run);
    assert next == MachineState(10, 1, Queue(0, []), None);
    assert FireDue(next) == Fired(next, [], None);
  }
}
