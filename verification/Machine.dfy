/** A board machine (sim-kernel/src/machine.rs): processor, clock and event queue, advanced one
    quantum per poll. The processor and the devices are outside: what a quantum retired and
    which timers it armed, and what an event does when it fires, are inputs. */
module Machine {
  import opened Prelude
  import opened EventQueue

  datatype Access = Access(addr: u64, write: bool)

  datatype StopReason =
    | Halt
    | ExternalStop
    | StepDone
    | BreakpointHit(id: nat)
    | UnmappedAccess(access: Access)

  /** A device's use of the event control handle. */
  datatype TimerOp = Arm(at: u64, action: Action) | Disarm(id: nat)

  /** What an event does when it fires: timers it arms or cancels, an access the bus traps, a
      requested stop. Timers armed in turn carry their own actions, so this is the unfolding
      of one event's behaviour. */
  datatype Action = Action(ops: seq<TimerOp>, touched: Option<Access>, stop: Option<StopReason>)

  /** A queued action. `armedAt` and `inQuantum` record when it was armed; the machine never
      looks at them. */
  datatype Timer = Timer(action: Action, armedAt: u64, inQuantum: bool)

  /** One `Core::run_quantum`. */
  datatype Quantum = Quantum(retired: nat, stop: Option<StopReason>, ops: seq<TimerOp>, touched: Option<Access>)

  /** The processor at one poll: nanoseconds per instruction, if its clock runs, and what the
      core would do with a quantum. */
  datatype Guest = Guest(period: Option<u64>, run: Quantum)

  datatype AdvanceCtx = AdvanceCtx(budget: u64, maxQuantum: u64, stepOnce: bool)

  datatype EntityPoll =
    | NoProgress
    | Progressed
    | Stopped(reason: StopReason)
    | PeriodExceedsQuantum(period: u64, maxQuantum: u64)

  datatype MachineState = MachineState(clock: u64, lastInsnAt: u64, queue: Queue<Timer>, trap: Option<Access>)

  datatype Firing = Firing(event: Pending<Timer>, clock: u64)

  datatype Fired = Fired(machine: MachineState, firings: seq<Firing>, stop: Option<StopReason>)

  datatype Polled = Polled(machine: MachineState, result: EntityPoll, firings: seq<Firing>, retired: nat)

  const U32_MAX: int := 0xFFFF_FFFF

  const FreshMachine := MachineState(0, 0, Queue(0, []), None)

  // ---- how much work an event can still cause ----

  ghost function Work(a: Action): nat {
    1 + OpsWork(a.ops)
  }

  ghost function OpWork(op: TimerOp): nat {
    match op
    case Arm(_, action) => Work(action)
    case Disarm(_) => 0
  }

  ghost function OpsWork(ops: seq<TimerOp>): nat {
    if ops == [] then 0 else OpWork(ops[0]) + OpsWork(ops[1..])
  }

  ghost function QueueWork(s: seq<Pending<Timer>>): nat {
    if s == [] then 0 else Work(s[0].event.action) + QueueWork(s[1..])
  }

  lemma {:induction false} InsertWork(s: seq<Pending<Timer>>, p: Pending<Timer>)
    ensures QueueWork(Insert(s, p)) == QueueWork(s) + Work(p.event.action)
  {
    if s == [] || Earlier(p.at, p.id, s[0].at, s[0].id) {
      assert ([p] + s)[1..] == s;
    } else {
      InsertWork(s[1..], p);
      assert ([s[0]] + Insert(s[1..], p))[1..] == Insert(s[1..], p);
    }
  }

  lemma {:induction false} WithoutWork(s: seq<Pending<Timer>>, id: nat)
    ensures QueueWork(Without(s, id)) <= QueueWork(s)
  {
    if s != [] {
      WithoutWork(s[1..], id);
      assert ([s[0]] + Without(s[1..], id))[1..] == Without(s[1..], id);
    }
  }

  // ---- timers and due events ----

  function ApplyOp(q: Queue<Timer>, op: TimerOp, now: u64, inQuantum: bool): Queue<Timer> {
    match op
    case Arm(at, action) => Schedule(q, at, Timer(action, now, inQuantum))
    case Disarm(id) => Cancel(q, id)
  }

  lemma ApplyOpWork(q: Queue<Timer>, ops: seq<TimerOp>, now: u64, inQuantum: bool)
    requires ops != []
    ensures QueueWork(ApplyOp(q, ops[0], now, inQuantum).pending) + OpsWork(ops[1..]) <=
            QueueWork(q.pending) + OpsWork(ops)
  {
    match ops[0]
    case Arm(at, action) => InsertWork(q.pending, Pending(at, q.nextId + 1, Timer(action, now, inQuantum)));
    case Disarm(id) => WithoutWork(q.pending, id);
  }

  function ApplyOps(q: Queue<Timer>, ops: seq<TimerOp>, now: u64, inQuantum: bool): (r: Queue<Timer>)
    ensures QueueWork(r.pending) <= QueueWork(q.pending) + OpsWork(ops)
    decreases |ops|
  {
    if ops == [] then q
    else
      var first := ApplyOp(q, ops[0], now, inQuantum);
      ApplyOpWork(q, ops, now, inQuantum);
      ApplyOps(first, ops[1..], now, inQuantum)
  }

  function Touch(trap: Option<Access>, touched: Option<Access>): Option<Access> {
    if touched.Some? then touched else trap
  }

  /** The machine after its least due event has fired. */
  function FireOne(m: MachineState): (r: MachineState)
    requires HasDue(m.queue, m.clock)
    ensures QueueWork(r.queue.pending) < QueueWork(m.queue.pending)
  {
    var q := PopDue(m.queue, m.clock).0;
    var action := m.queue.pending[0].event.action;
    m.(queue := ApplyOps(q, action.ops, m.clock, false), trap := Touch(m.trap, action.touched))
  }

  /** Fire due events, oldest deadline first, until none is due or one asks to stop. */
  function FireDue(m: MachineState): Fired
    decreases QueueWork(m.queue.pending)
  {
    if !HasDue(m.queue, m.clock) then Fired(m, [], None)
    else
      var event := m.queue.pending[0];
      var next := FireOne(m);
      var firing := [Firing(event, m.clock)];
      if event.event.action.stop.Some? then Fired(next, firing, event.event.action.stop)
      else
        var rest := FireDue(next);
        Prepend(firing, rest)
  }

  function Prepend(before: seq<Firing>, f: Fired): Fired {
    f.(firings := before + f.firings)
  }

  lemma FireDueUnfolds(m: MachineState, before: seq<Firing>)
    requires HasDue(m.queue, m.clock)
    ensures var event := m.queue.pending[0];
            var all := before + [Firing(event, m.clock)];
            Prepend(before, FireDue(m)) ==
            (if event.event.action.stop.Some? then Fired(FireOne(m), all, event.event.action.stop)
             else Prepend(all, FireDue(FireOne(m))))
  {
    var firing := [Firing(m.queue.pending[0], m.clock)];
    var rest := FireDue(FireOne(m)).firings;
    assert before + (firing + rest) == (before + firing) + rest;
  }

  // ---- one poll ----

  function BudgetNs(m: MachineState, ctx: AdvanceCtx): u64 {
    Min(Min(SatSub(NextDeadline(m.queue).GetOr(U64_MAX), m.clock), ctx.maxQuantum), ctx.budget)
  }

  function Requested(m: MachineState, ctx: AdvanceCtx, period: u64): nat
    requires period != 0
  {
    if ctx.stepOnce then 1
    else Min(SatSub(SatAdd(m.clock, BudgetNs(m, ctx)), m.lastInsnAt) / period, U32_MAX)
  }

  function SatMul(a: u64, n: nat): u64 {
    if a * n > U64_MAX then U64_MAX else a * n
  }

  /** Fire what is due at the end of a poll. */
  function Settle(m: MachineState, retired: nat): Polled {
    var f := FireDue(m);
    Polled(f.machine, if f.stop.Some? then Stopped(f.stop.value) else Progressed, f.firings, retired)
  }

  /** No instruction fits: only the clock moves. */
  function Idle(m: MachineState, budget: u64): Polled {
    if budget == 0 then Polled(m, NoProgress, [], 0)
    else Settle(m.(clock := SatAdd(m.clock, budget)), 0)
  }

  /** Clock and instruction time after `retired` instructions; timers armed on the way. */
  function AfterQuantum(m: MachineState, budget: u64, period: u64, run: Quantum): MachineState {
    var last := SatAdd(m.lastInsnAt, SatMul(period, run.retired));
    var delta := SatSub(Max(last, SatAdd(m.clock, budget)), m.clock);
    MachineState(SatAdd(m.clock, delta), last,
                 ApplyOps(m.queue, run.ops, m.clock, true), Touch(m.trap, run.touched))
  }

  /** A trapped access comes before the core's own stop, and that before due events. */
  function Conclude(m: MachineState, run: Quantum): Polled {
    if m.trap.Some? then Polled(m.(trap := None), Stopped(UnmappedAccess(m.trap.value)), [], run.retired)
    else if run.stop.Some? then Polled(m, Stopped(run.stop.value), [], run.retired)
    else Settle(m, run.retired)
  }

  function RunCore(m: MachineState, budget: u64, period: u64, run: Quantum): Polled {
    if run.retired == 0 && run.stop.None? then
      var q := ApplyOps(m.queue, run.ops, m.clock, true);
      Polled(m.(queue := q, trap := Touch(m.trap, run.touched)), NoProgress, [], 0)
    else
      Conclude(AfterQuantum(m, budget, period, run), run)
  }

  function Advance(m: MachineState, ctx: AdvanceCtx, guest: Guest): Polled {
    var budget := BudgetNs(m, ctx);
    if guest.period.GetOr(0) == 0 then Idle(m, budget)
    else
      var period := guest.period.value;
      if period > ctx.maxQuantum then Polled(m, PeriodExceedsQuantum(period, ctx.maxQuantum), [], 0)
      else if Requested(m, ctx, period) == 0 then Idle(m, budget)
      else RunCore(m, budget, period, guest.run)
  }

  function Poll(m: MachineState, ctx: AdvanceCtx, guest: Guest): Polled {
    var f := FireDue(m);
    if f.stop.Some? then Polled(f.machine, Stopped(f.stop.value), f.firings, 0)
    else
      var p := Advance(f.machine, ctx, guest);
      p.(firings := f.firings + p.firings)
  }

  function Reset(m: MachineState, ops: seq<TimerOp>): MachineState {
    m.(lastInsnAt := m.clock, queue := ApplyOps(m.queue, ops, m.clock, false))
  }

  // ---- the machine as it runs ----

  class Machine {
    var clock: u64
    var lastInsnAt: u64
    var trap: Option<Access>
    const events: EventQueue<Timer>

    ghost predicate Valid()
      reads this, events
    {
      events.Valid()
    }

    ghost function View(): MachineState
      reads this, events
    {
      MachineState(clock, lastInsnAt, events.View(), trap)
    }

    constructor ()
      ensures Valid() && fresh(events) && View() == FreshMachine
    {
      clock, lastInsnAt, trap := 0, 0, None;
      events := new EventQueue<Timer>();
    }

    method ApplyTimerOps(ops: seq<TimerOp>, inQuantum: bool)
      requires Valid()
      modifies events
      ensures Valid()
      ensures events.View() == ApplyOps(old(events.View()), ops, clock, inQuantum)
    {
      var i := 0;
      while i < |ops|
        invariant 0 <= i <= |ops|
        invariant Valid()
        invariant ApplyOps(old(events.View()), ops, clock, inQuantum) ==
                  ApplyOps(events.View(), ops[i..], clock, inQuantum)
      {
        assert ops[i..][1..] == ops[i + 1..];
        match ops[i] {
          case Arm(at, action) =>
            var _ := events.ScheduleEvent(at, Timer(action, clock, inQuantum));
          case Disarm(id) =>
            var _ := events.CancelEvent(id);
        }
        i := i + 1;
      }
    }

    /** One iteration of the loop: pop a due event and let it fire. */
    method FireNext() returns (out: Option<Pending<Timer>>)
      requires Valid()
      modifies this`trap, events
      ensures Valid()
      ensures out.None? ==> View() == old(View()) && !HasDue(View().queue, clock)
      ensures out.Some? ==> HasDue(old(View()).queue, clock) &&
                            out.value == old(View()).queue.pending[0] && View() == FireOne(old(View()))
    {
      out := events.PopDueEvent(clock);
      if out.Some? {
        var action := out.value.event.action;
        ApplyTimerOps(action.ops, false);
        if action.touched.Some? {
          trap := action.touched;
        }
      }
    }

    method FireDueEvents() returns (firings: seq<Firing>, stop: Option<StopReason>)
      requires Valid()
      modifies this`trap, events
      ensures Valid()
      ensures Fired(View(), firings, stop) == FireDue(old(View()))
    {
      ghost var start, now := View(), View();
      firings := [];
      while true
        invariant Valid() && clock == old(clock) && View() == now
        invariant FireDue(start) == Prepend(firings, FireDue(now))
        decreases QueueWork(now.queue.pending)
      {
        var out := FireNext();
        if out.None? {
          return firings, None;
        }
        FireDueUnfolds(now, firings);
        now := FireOne(now);
        firings := firings + [Firing(out.value, clock)];
        if out.value.event.action.stop.Some? {
          return firings, out.value.event.action.stop;
        }
      }
    }

    /** The end of a poll. */
    method SettleEvents() returns (result: EntityPoll, firings: seq<Firing>)
      requires Valid()
      modifies this`trap, events
      ensures Valid()
      ensures Polled(View(), result, firings, 0) == Settle(old(View()), 0)
    {
      var stop;
      firings, stop := FireDueEvents();
      result := if stop.Some? then Stopped(stop.value) else Progressed;
    }

    method IdleFor(budget: u64) returns (result: EntityPoll, firings: seq<Firing>)
      requires Valid()
      modifies this`clock, this`trap, events
      ensures Valid()
      ensures Polled(View(), result, firings, 0) == Idle(old(View()), budget)
    {
      if budget == 0 {
        return NoProgress, [];
      }
      clock := SatAdd(clock, budget);
      result, firings := SettleEvents();
    }

    method RunQuantum(budget: u64, period: u64, run: Quantum)
        returns (result: EntityPoll, firings: seq<Firing>, retired: nat)
      requires Valid()
      modifies this, events
      ensures Valid()
      ensures Polled(View(), result, firings, retired) == RunCore(old(View()), budget, period, run)
    {
      ApplyTimerOps(run.ops, true);
      if run.touched.Some? {
        trap := run.touched;
      }
      if run.retired == 0 && run.stop.None? {
        return NoProgress, [], 0;
      }
      lastInsnAt := SatAdd(lastInsnAt, SatMul(period, run.retired));
      var delta := SatSub(Max(lastInsnAt, SatAdd(clock, budget)), clock);
      clock := SatAdd(clock, delta);
      retired := run.retired;
      if trap.Some? {
        result := Stopped(UnmappedAccess(trap.value));
        trap := None;
        return result, [], retired;
      }
      if run.stop.Some? {
        return Stopped(run.stop.value), [], retired;
      }
      result, firings := SettleEvents();
    }

    method PollOnce(ctx: AdvanceCtx, guest: Guest)
        returns (result: EntityPoll, firings: seq<Firing>, retired: nat)
      requires Valid()
      modifies this, events
      ensures Valid()
      ensures Polled(View(), result, firings, retired) == Poll(old(View()), ctx, guest)
    {
      var stop;
      firings, stop := FireDueEvents();
      retired := 0;
      if stop.Some? {
        return Stopped(stop.value), firings, 0;
      }
      var deadline := events.NextDeadlineOf();
      var budget := Min(Min(SatSub(deadline.GetOr(U64_MAX), clock), ctx.maxQuantum), ctx.budget);
      assert budget == BudgetNs(View(), ctx);
      var period := guest.period.GetOr(0);
      var late: seq<Firing> := [];
      if period == 0 {
        result, late := IdleFor(budget);
      } else if period > ctx.maxQuantum {
        result := PeriodExceedsQuantum(period, ctx.maxQuantum);
      } else {
        var maxInstructions :=
          if ctx.stepOnce then 1 else Min(SatSub(SatAdd(clock, budget), lastInsnAt) / period, U32_MAX);
        if maxInstructions == 0 {
          result, late := IdleFor(budget);
        } else {
          result, late, retired := RunQuantum(budget, period, guest.run);
        }
      }
      firings := firings + late;
    }

    /** Devices, then the processor, then the instruction time base. Devices may arm timers. */
    method HoldReset(ops: seq<TimerOp>)
      requires Valid()
      modifies this`lastInsnAt, events
      ensures Valid() && View() == Reset(old(View()), ops)
    {
      ApplyTimerOps(ops, false);
      lastInsnAt := clock;
    }
  }
}
