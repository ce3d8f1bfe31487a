# Verified model of the multi-board simulator

This project models, in Dafny, how several simulated boards advance together under one arbiter,
and proves what the design promises about them. `dafny verify dfyconfig.toml` checks the
whole project.

## What is modelled

* **Virtual-time protocol** (`Control`, `Lifecycle`, `TimeSync`, `Arbiter`, `BoardRuntime`,
  `Protocol`). The arbiter's session and each node are classes whose methods are proved against
  functions on their state; `Protocol` puts these functions into a transition system with one
  lossless first-in first-out queue per direction and board, and every interleaving as a run.
  `Skew`, `Tightness` and `Agreement` prove its invariants over all runs; `StopReasons` says why a
  session stops, read off what has been heard, asked and published. `ExactStop`,
  `StopCondition` and `StopRuns` are about stops for a cap; `Progress`, `Slipping`, `Sticking`,
  `SoundSessions`, `StickingRuns`, `StuckIff`, `Openings` and `NoDeadlock` about clusters that get
  stuck. Both use `Reach` for how far a board gets with what it has been sent, `Hearing` for what
  the arbiter hears of it and `Drive` for runs that bring the reports up. `Scenarios` and
  `PairScenarios` are concrete runs.
* **Execution kernel** (`EventQueue`, `Machine`, `Timing`, `KernelRuns`, `Simulator`, `Plant`).
  The event queue with lazy cancellation, one quantum per poll, the simulator around it and the
  plant on its time grid. `Simulator` and `Plant` prove the contract that the protocol assumes
  of an entity. `PollAnswers` says what a poll answers and what the node then tells the arbiter,
  `SimulatedNode` what the arbiter's messages do to node and simulator.
* **Memory map** (`MemoryMap`, `AliasFlattening`, `AliasWindows`, `FlatMemory`, `MemoryBus`).
  Overlap-checked construction, alias chains, flattening as a meaning-preserving pass, and the
  bus as a flat memory, down to in-place buffers.
* **Probe history and export** (`SpillFile`, `Samples`, `ProbeLog`, `ProbeHistory`, `CsvExport`,
  `CsvOutcome`, `CsvHistory`): what a log keeps, what an export delivers, and when it fails,
  succeeds or is marked truncated.
* **Topologies and the test client** (`Topology`, `TopologyDsl`, `TopologySoundness`,
  `FlatContents`, `ScriptAcceptance`, `UartFetch`, `UartReads`): which scripts are accepted and what
  they flatten to, said of their calls alone, and what a client reads of a UART.

All 64-bit clock and address arithmetic saturates as in the program (`Prelude`).

## Where the program does not do what it is meant to

* *Exact stop.* A start capped at `until` is meant to leave every clock at `until`. It fails in two
  ways. A board may still run past `until` under an older, larger ceiling
  (`Scenarios.CappedStartCanOverrun`), even with every clock below `until`. And after a Reset a
  lifted report may stand in for a clock that is not there, so that the arbiter stops early
  (`PairScenarios.LiftedReportStopsEarly`). `StopRuns.InexactStopIff` gives the exact condition, to be
  read off the state right after the start: every board can still be heard at `until` or past it,
  and one of them can be heard and get past it, or stands below it behind a lifted report. Without
  such a board the stop is exact (`StopRuns.CappedRunStopsExactly`).
* *Progress.* A running cluster is meant to go on until it is stopped. It can get stuck, because a
  parked board sends no report: by a start capped below a board's unreported clock
  (`Scenarios.CappedStartCanDeadlock`), by a gdb step while another board stands ahead unreported
  (`PairScenarios.StepCanDeadlock`), and by a Reset behind a late report
  (`Scenarios.ResetCanDeadlock`); the last two need no cap. `StuckIff.SticksIffProne` gives the
  condition to be read off any running state: no stop report is on its way, and some board is
  *prone* (`Sticking.Prone`). A prone board is last heard of below the limit (the cap, or the end
  of time) and
  - its simulator has stopped, or
  - its clock is at the ceiling its last report allows, or it has been sent ceilings that take it
    there with a threshold to spare, or
  - a report on its way will pull it back by a threshold or more;

  or a Reset has lifted its report above its clock and it may next report a time that brings it
  there. A prone board always gets the cluster stuck (`StickingRuns.ProneSticks`). Without one the
  cluster goes on, if every board is *anchored* (`Sticking.Anchored`): true where no report is ahead
  of its board's clock, so in every run without Reset (`StuckIff.SticksIffExposed`,
  `StuckIff.UnliftedAlongRun`), and right after a Reset unless a report more than a margin behind it
  is still on its way (`StuckIff.ResetSticksIffProne`). Before a start, a gdb
  step or a Reset of a quiet cluster the condition is short (`Openings.StartSticksIffLate`,
  `Openings.StepSticksIffLate`, `Openings.ResetSticksIffLate`). A run whose sessions are all opened
  well never gets stuck (`SoundSessions.NeverStuck`); without Reset and gdb step only a risky
  capped start can do harm (`NoDeadlock.CalmNeverStuck`, `NoDeadlock.StartSticksIffRisky`). A state
  is stuck exactly when it is settled and some last report is stale
  (`Progress.StuckIffStaleReport`).
* *Single step.* A single step moves the clock over the whole quantum although it retires one
  instruction (`KernelRuns.SingleStepLeavesDebt`). It is harmless exactly when no more is owed for
  the budget than it retires (`KernelRuns.SingleStepHarmlessIff`); `KernelRuns.DebtOfMixedRuns`
  gives the debt of whole runs, and a full poll pays it (`KernelRuns.FullPollSettles`).
* *Top address.* Region ends saturate, so the last 64-bit address belongs to no region: two
  devices may claim it, and an alias may show a byte its target address does not
  (`AliasWindows.TopAddressIsLost`, `AliasWindows.WindowAtTheTopFails`). An access agrees with its
  target exactly when neither starts there, or both do (`AliasWindows.WindowAgreesIff`).
* *Visibility in the topology language.* Only the last hop of a port is checked, so a port made
  by hand can claim a direction its endpoint does not have
  (`TopologySoundness.ForgedPortSlipsThrough`). An accepted script is valid exactly when both ends
  of every edge exist (`TopologySoundness.ValidIffEndsExist`), which ports handed out by boards and
  children ensure.

## Model

| member | source | states |
|---|---|---|
| Skew.GradedSkew | sim-cluster/src/arbiter.rs:404-421 | After `r` Resets and `s` gdb steps, in every interleaving, no two clocks are further apart than `(1 + r) * margin + s * stepBound`, and every ceiling a node holds or will receive is within `(1 + r) * margin` of the slowest clock |
| Skew.PlainSkew | sim-cluster/src/time_sync.rs:49-66 | Without Reset and gdb step: skew at most the margin, every report at most its board's clock, every ceiling at most the slowest clock plus the margin |
| Skew.RaiseFloor | sim-cluster/src/board_runtime.rs:471-521 | The skew invariant can always be re-read from the slowest clock, which never goes back |
| Skew.SkewStep | sim-cluster/src/arbiter.rs:571-732 | Every step of the cluster keeps the skew invariant: a Reset at the price of one more margin, a gdb step at the price of one more step bound, everything else for free |
| Skew.CommandAsEffect | sim-cluster/src/arbiter.rs:571-637 | What a host command publishes and lifts stays within one more margin (Reset) or one more step bound (gdb step) of the slowest clock |
| Skew.CollectReports | sim-cluster/src/arbiter.rs:666-692 | Collecting a message changes at most the report of its sender, to the time reported, also downwards |
| Tightness.SkewBoundIsReached | sim-cluster/src/arbiter.rs:606-637 | For every `r` and `s` there is a run with `r` Resets and `s` gdb steps in which two clocks are exactly `(1 + r) * margin + s * stepBound` apart: the bound cannot be improved |
| Tightness.Handshake | sim-cluster/src/arbiter.rs:116-176 | From every configuration the Ready barrier can be passed |
| Agreement.NodesFollowTheArbiter | sim-cluster/src/lifecycle.rs:54-109 | After the barrier: folding a node's pending messages gives Running exactly when the session (and the peer entry) runs, ends at the session's ceiling, and ignores no message |
| Agreement.SessionFacts | sim-cluster/src/arbiter.rs:653-732 | In every reachable state: a cap implies running, catch-up implies running with a cap, waiting for a stepped instruction implies not running |
| Agreement.CommandAgrees | sim-cluster/src/arbiter.rs:374-435 | The messages of every host command take each node from the state assumed before to the state assumed after, without being ignored |
| Progress.StuckIffStaleReport | sim-cluster/src/board_runtime.rs:471-521 | For every reachable state with running simulators: the cluster is stuck if and only if every queue is empty, every board is parked and some board's last report is below the ceiling its clock has reached |
| Progress.DeadlockIsQuiet | sim-cluster/src/board_runtime.rs:643-660 | A stuck cluster has empty queues, nothing drained, and every running simulator parked at its ceiling |
| StuckIff.SticksIffProne | sim-cluster/src/arbiter.rs:653-732 | For every reachable state in which the session runs, by host start, Reset or catch-up, capped or not, whatever its history: some continuation without host commands and failures gets stuck if and only if no stop report is on its way and some board is prone; of the states without a prone board it speaks for those with every board anchored |
| StickingRuns.ProneSticks | sim-cluster/src/board_runtime.rs:471-521 | In every reachable running state without a coming stop report, a prone board has a continuation that gets the cluster stuck |
| StuckIff.SticksIffExposed | sim-cluster/src/board_runtime.rs:643-660 | Where no report is ahead of its board's clock: the cluster can get stuck if and only if no stop report is on its way and some board is exposed, that is, last heard of below the limit and stopped, at the ceiling its report allows, able to get there with a threshold to spare, or about to be pulled back by a late report |
| StuckIff.UnliftedAlongRun | sim-cluster/src/time_sync.rs:49-66 | In a run without Reset, with any starts, stops, gdb steps and failures, no report is ahead of its board's clock, reports on their way only rise, and the last ceiling is within a margin of the slowest report |
| StuckIff.ResetSticksIffProne | sim-cluster/src/arbiter.rs:404-421 | A Reset, of a running or stopped cluster and whatever is on its way, the first or a repeated one, can get the cluster stuck if and only if right after it no stop report is on its way and some board is prone; it must find no report on its way more than a margin behind the time it goes on from |
| SoundSessions.NeverStuck | sim-cluster/src/arbiter.rs:710-731 | A run with any host commands, Resets and gdb steps included, and without failing polls never gets stuck, if every session it opens has a stop report coming, or every board anchored and none prone, when it is opened |
| SoundSessions.SoundStep | sim-cluster/src/arbiter.rs:652-732 | No step but a start or a Reset makes a board prone or unanchored while the session runs, nor changes its cap |
| Openings.StartSticksIffLate | sim-cluster/src/arbiter.rs:571-601 | Starting a stopped cluster with nothing on its way, capped or not, can get it stuck if and only if some board is last heard of below the cap and stands at the cap or past it, or a margin past its report |
| Openings.StepSticksIffLate | sim-cluster/src/arbiter.rs:606-629 | A gdb step of a stopped cluster with nothing on its way, taking its board to `t`, ends in a catch-up that can get stuck if and only if some other board is last heard of below `t` and stands at `t` or past it, or a margin past its report |
| Openings.ResetSticksIffLate | sim-cluster/src/arbiter.rs:633-637 | Resetting such a cluster can get it stuck if and only if some board stands a margin past its report and past the time the Reset goes on from |
| NoDeadlock.CalmNeverStuck | sim-cluster/src/arbiter.rs:710-731 | A run without Reset, gdb step and failing poll never gets stuck, unless by a risky capped start; uncapped starts are never risky |
| NoDeadlock.StartSticksIffRisky | sim-cluster/src/arbiter.rs:581-600 | After any such run a start, also of a running cluster with messages in flight, can leave the cluster stuck if and only if no stop report is on its way and some board, last heard of below the cap, is at the cap already or may get there with a threshold to spare |
| NoDeadlock.BaseStep | sim-cluster/src/board_runtime.rs:385-528 | Every step of such a run keeps: no clock or ceiling above what the reports allow, and every clock either reported or a threshold below it |
| Sticking.TurnStaysSafe | sim-cluster/src/board_runtime.rs:643-660 | No poll makes a board prone: one that is not reported leaves it a threshold below its ceiling, one that is reported tells the arbiter where it is |
| Sticking.SentStaysSafe | sim-cluster/src/time_sync.rs:55-60 | No ceiling within a margin of a board's standing report makes the board prone |
| StickingRuns.Hush | sim-cluster/src/board_runtime.rs:471-521 | A board that can fall silent reads its messages and comes to stand at the ceiling its last report allows, without another report |
| StickingRuns.Settle | sim-cluster/src/arbiter.rs:710-731 | Around a silent board the cluster comes to rest after finitely many rounds, and is stuck |
| StopRuns.InexactStopIff | sim-cluster/src/arbiter.rs:717-729 | For every reachable state with a session just started under the cap `u`: some continuation without host commands stops for the cap with a clock elsewhere if and only if every board can still be heard at `u` or past it, and one of them can be heard and get past `u`, or stands below `u` behind a lifted report |
| StopRuns.StopIffAllTell | sim-cluster/src/arbiter.rs:710-731 | Such a session can stop for its cap at all if and only if every board can still be heard at `u` or past it |
| StopRuns.CappedRunStopsExactly | sim-cluster/src/arbiter.rs:717-729 | If no board can pass the cap with what it has been sent and no lifted report reaches it, no clock ever passes the cap and a stop for the cap finds every clock exactly there |
| Drive.DriveTo | sim-cluster/src/arbiter.rs:652-732 | A cluster in which every board has been heard at `v`, or can follow the session there, is driven until every report is at `v` or past it, slowest reporter first, leaving the boards already heard alone |
| StopRuns.DriveOut | sim-cluster/src/arbiter.rs:717-729 | A capped session in which every board can be heard is driven to its stop for the cap |
| StopCondition.StepGainsNothing | sim-cluster/src/board_runtime.rs:387-521 | No step while the session is open gives a board a chance to be heard, or to be heard and pass, that it did not have |
| ExactStop.OverrunIffReach | sim-cluster/src/arbiter.rs:595-600 | Some continuation without host commands takes a clock past the cap if and only if some board can pass it with what it has been sent |
| ExactStop.StartRunsCapped | sim-cluster/src/arbiter.rs:581-600 | A start capped ahead of the reported time leaves the session running under that cap |
| Reach.ReachIsReached | sim-cluster/src/board_runtime.rs:387-521 | A board's reach, computed from its state and pending messages, is really attained by steps of that board alone |
| Scenarios.CappedStartCanDeadlock | sim-cluster/src/board_runtime.rs:471-473 | A concrete run in which `Start { until }` below a parked board's unreported clock leaves the cluster stuck |
| Scenarios.CappedStartCanOverrun | sim-cluster/src/arbiter.rs:581-600 | A concrete run in which every clock is at 0 when a start capped at 5 is accepted, yet the arbiter stops for the cap with a clock at 9 |
| Scenarios.ResetCanDeadlock | sim-cluster/src/arbiter.rs:404-421 | A concrete run of one board without any cap or gdb step: a Reset lifts the report to 16, a late report takes it back to 7, and the cluster gets stuck |
| PairScenarios.StepCanDeadlock | sim-cluster/src/arbiter.rs:697-707 | A concrete run of two boards without any cap or Reset: board 0 is stepped to 1 while board 1 stands at 5 and was last heard of at 0, and the catch-up gets stuck |
| PairScenarios.LiftedReportStopsEarly | sim-cluster/src/arbiter.rs:404-421 | A concrete run of two boards in which no board can pass the cap 8, yet the arbiter stops for the cap with one clock still at 0: a Reset lifted its report and a late report pulled the other one back |
| TimeSync.TimeCeiling.Report | sim-cluster/src/time_sync.rs:23-27 | Only a known board's report changes, to the value given |
| TimeSync.TimeCeiling.AdvanceTo | sim-cluster/src/time_sync.rs:39-45 | Every report becomes the larger of itself and the given time |
| TimeSync.TimeCeiling.VirtualTimeNs | sim-cluster/src/time_sync.rs:64-66 | The loop over the reports returns the least one, 0 for none |
| TimeSync.TimeCeiling.AllowedNsUntil | sim-cluster/src/time_sync.rs:55-60 | The published ceiling: least report plus margin, saturating, at most the cap |
| TimeSync.VirtualTimeIsLeastReport | sim-cluster/src/time_sync.rs:64-66 | The virtual time is a report and no report is below it |
| TimeSync.AdvanceRaisesTheMinimum | sim-cluster/src/time_sync.rs:35-45 | Advancing to `now` makes the least report the larger of the old least and `now` |
| Arbiter.HostSession.HostStart | sim-cluster/src/arbiter.rs:571-601 | State and messages after a host start, capped or not, from running or stopped |
| Arbiter.HostSession.HostStop | sim-cluster/src/arbiter.rs:391-403 | State and messages after a host stop; nothing when already stopped |
| Arbiter.HostSession.HostReset | sim-cluster/src/arbiter.rs:404-421 | ClusterStop, Reset and Start in this order, reports raised to the old ceiling |
| Arbiter.HostSession.AllowedAfterReset | sim-cluster/src/arbiter.rs:633-637 | Reports raised to the larger of old ceiling and virtual time; the new natural ceiling |
| Arbiter.HostSession.HostGdbStep | sim-cluster/src/arbiter.rs:606-629 | ClusterStop only if running, then the step; unknown boards change nothing |
| Arbiter.HostSession.TimeSync | sim-cluster/src/arbiter.rs:653-732 | The receive loop folds every waiting message, then the verdict on what it has collected; `StopReasons` says over all runs what that verdict is |
| Arbiter.HostSession.BroadcastStart | sim-cluster/src/arbiter.rs:639-650 | One Start published; exactly the peers past Ready become Running |
| Arbiter.HostSession.BroadcastClusterStop | sim-cluster/src/arbiter.rs:854-865 | One ClusterStop published; every peer becomes Stopped |
| StopReasons.RoundReason | sim-cluster/src/arbiter.rs:662-731 | Over every run: a round that has heard a stop from a board that is not being stepped stops the session, and tells every board, for the last such reason; failing that, a stop of the stepped board starts the catch-up to that board's report, to end for the reason it gave; failing that, the session stops at its cap or goes on as it was |
| StopReasons.EndsForItsCap | sim-cluster/src/arbiter.rs:710-731 | With no command and no stop from a board, a session of any reachable state ends exactly when a round closes with every report at its cap, and then for its own reason, told to every board once; until then nobody is told to start or stop |
| StopReasons.CatchUpEndsForItsReason | sim-cluster/src/arbiter.rs:697-731 | A gdb step answered by the stepped board and by no other, and the run behind it: the session catches up to that board's report and, if nothing disturbs it, ends for the reason that board gave, exactly when every report has come that far |
| StopReasons.StartEndsForItsCap | sim-cluster/src/arbiter.rs:571-601 | A start towards a time ahead, undisturbed, ends for its cap exactly when every report has come that far; one without a cap does not end |
| StopReasons.CommandReasons | sim-cluster/src/arbiter.rs:374-435 | Reason, cap and debugger phase after every host command in every reachable state, and that a running session records no reason |
| StopReasons.ReasonIsWhatWasTold | sim-cluster/src/arbiter.rs:455-468 | In every reachable state the session runs exactly when the last order published to a board is a start, and otherwise the reason it records is that of the last ClusterStop published |
| StopReasons.EveryWishIsPassedOn | sim-cluster/src/arbiter.rs:404-435 | Over every run each board is sent exactly the resets, steps and watches the host asked for, in order |
| BoardRuntime.BoardNode.Receive | sim-cluster/src/board_runtime.rs:387-455 | One message: state machine, effect, and the simulator start or stop that goes with the edge |
| BoardRuntime.BoardNode.DrainInbox | sim-cluster/src/board_runtime.rs:387-455 | The receive loop is the fold of the single-message step over the queue |
| BoardRuntime.BoardNode.GuestTurn | sim-cluster/src/board_runtime.rs:480-515 | After a poll: clock, report if headroom is short and the time is new, then a stop report |
| BoardRuntime.BoardNode.ReportTime | sim-cluster/src/board_runtime.rs:643-660 | A time report exactly when headroom is below the threshold and the time differs from the last one sent |
| BoardRuntime.BoardNode.PerformLocalStep | sim-cluster/src/board_runtime.rs:598-641 | After a gdb step: unconditional time report, then the stop; a time-out or error publishes nothing |
| Lifecycle.FoldAppend | sim-cluster/src/lifecycle.rs:54-109 | Folding a concatenation of messages is folding one part after the other, for states and for ignored messages |
| EventQueue.EachEventLeavesOnce | sim-kernel/src/event.rs:85-127 | Over any calls every identifier handed out is exactly one of live, popped or cancelled, and none is popped twice |
| EventQueue.HeadIsLeast | sim-kernel/src/event.rs:112-115 | The next deadline is the least live one, ties by age |
| EventQueue.EventQueue.ScheduleEvent | sim-kernel/src/event.rs:85-96 | The live list gains the event at its place by time and age |
| EventQueue.EventQueue.CancelEvent | sim-kernel/src/event.rs:98-105 | The live list loses exactly that event; the answer says whether it was live |
| EventQueue.EventQueue.DropStale | sim-kernel/src/event.rs:129-137 | Dropping stale heap entries changes no live event and leaves a live one in front |
| EventQueue.EventQueue.NextDeadlineOf | sim-kernel/src/event.rs:112-115 | The least live deadline |
| EventQueue.EventQueue.PopDueEvent | sim-kernel/src/event.rs:118-127 | The least live event if it is due; nothing exactly when none is |
| EventQueue.LivePush | sim-kernel/src/event.rs:85-96 | Pushing on the lazily cancelled heap refines insertion into the sorted list of live events |
| Machine.Machine.FireDueEvents | sim-kernel/src/machine.rs:216-236 | The loop fires due events in order, including ones armed on the way, until none is due or one stops |
| Machine.Machine.PollOnce | sim-kernel/src/machine.rs:309-394 | One whole poll: due events, budget, period check, instruction count, time accounting, trap before stop before events |
| PollAnswers.PollAnswer | sim-kernel/src/machine.rs:309-394 | A poll stops exactly for the first of these that occurs and gives its reason: an event fired before the quantum asks to stop; the core ran and an access was trapped; the core stopped; an event fired behind the quantum asks to stop. Otherwise it has progressed with nothing left due, or the core did nothing, or there was no time to pass; and a trapped access is kept until a quantum reports it |
| PollAnswers.FiringStops | sim-kernel/src/machine.rs:216-236 | Firing stops at the first event that asks to stop and gives its reason, keeps the last access that trapped, and otherwise leaves nothing due |
| PollAnswers.NodeTells | sim-cluster/src/board_runtime.rs:305-313 | A guest turn announces a stop to the arbiter exactly for the cause the machine stopped for, as the last message; a halted guest keeps running unannounced |
| PollAnswers.StepTells | sim-cluster/src/board_runtime.rs:598-641 | A debugger step reports the time and the stop of the first of its polls that gets anywhere: the cause the machine stopped for, or the completed step; nothing if none does |
| Machine.Machine.HoldReset | sim-kernel/src/machine.rs:133-139 | Reset moves the instruction time base to now and keeps the clock |
| Timing.PollReach | sim-kernel/src/machine.rs:365-378 | A poll never moves the clock back nor by more than a quantum; past the ceiling only in a single step, by at most one instruction period |
| Timing.QuantumBounds | sim-kernel/src/machine.rs:365-378 | After a quantum of a core that keeps its contract the clock is exactly at the budget, in a single step at most one period further |
| Timing.PollKeeps | sim-kernel/src/machine.rs:309-394 | One poll keeps every pending event within a quantum of its due time, exactly on time without single steps, and fires accordingly |
| KernelRuns.EventsFireWithinAQuantum | sim-kernel/src/machine.rs:216-236 | In every run each event fires no earlier than due and at most one quantum late |
| KernelRuns.EventsFireExactly | sim-kernel/src/machine.rs:314-321 | Without single steps an event armed outside a quantum fires exactly when due and the clock never passes one that is pending |
| KernelRuns.InstructionsFollowTheClock | sim-kernel/src/machine.rs:344-378 | A core that retires its full budget has retired exactly the whole periods since reset, whatever the ceilings, deadlines and polls |
| KernelRuns.ScheduleIndependent | sim-kernel/src/machine.rs:344-378 | Two different schedules agree on instructions and time base wherever their clocks agree |
| KernelRuns.FullPollSettles | sim-kernel/src/machine.rs:344-378 | One full poll pays the whole instruction debt that idling or single steps left |
| KernelRuns.SingleStepHarmlessIff | sim-kernel/src/machine.rs:344-378 | A single step from a machine in step leaves the instruction count what the clock says if and only if the core does nothing at all or no more instructions are owed for the budget than it retires |
| KernelRuns.DebtOfMixedRuns | sim-kernel/src/machine.rs:344-378 | Over any run of full polls and single steps: time since reset is retired instructions plus a debt, the missing instructions are its whole periods, and it is below a period plus one quantum for each single step since a full poll last paid it |
| KernelRuns.SingleStepLeavesDebt | sim-kernel/src/machine.rs:344-378 | A concrete single step that moves the clock over ten periods and retires one instruction |
| Simulator.NodeSeesSimulator | sim-kernel/src/sim.rs:159-223 | A poll of the simulator over a machine is a possible poll outcome of the node model, and the node's picture stays true; a guest halt never surfaces |
| Simulator.LocalStepSeesSimulator | sim-cluster/src/board_runtime.rs:598-641 | A debugger step of any number of polls moves the clock by at most one quantum and ends as the node model allows |
| Simulator.ParkedIsStill | sim-kernel/src/sim.rs:89-97 | The node parks exactly when the ceiling is reached, and a poll there would not move the clock |
| Simulator.Simulator.Command | sim-kernel/src/sim.rs:114-156 | Every lifecycle command, with the quit state absorbing; `SimulatedNode.MessageSeen` says what ceilings, starts and stops do to the node's simulator |
| SimulatedNode.MessageSeen | sim-cluster/src/board_runtime.rs:387-454 | After one control message the node mirrors the simulator that has received the matching commands: the ceiling it accepts, then a start or a stop when it comes to run or ceases to; a debugger step ends as the node model allows |
| SimulatedNode.RunMirrors | sim-cluster/src/board_runtime.rs:385-454 | Over every run of messages and guest turns the node's picture of its simulator is true, and the simulator's ceiling is the last one sent to the woken node |
| SimulatedNode.InputObeysCeiling | sim-kernel/src/sim.rs:138-141 | No message and no poll but a debugger step of this board moves the clock, except forward under a ceiling and not past the last one sent |
| SimulatedNode.CeilingObeyed | sim-kernel/src/sim.rs:89-97 | From any point of any run: while the board takes no debugger step and no ceiling above a limit is in force, its clock does not pass the limit, or where it stood |
| SimulatedNode.QuitIsFinal | sim-kernel/src/sim.rs:114-135 | Once told to quit, a simulator answers every command with that and never moves again |
| SimulatedNode.StopHolds | sim-kernel/src/sim.rs:127-156 | A stopped simulator keeps its machine as it is and answers inspection until it is started or stepped; a running one refuses it |
| Simulator.Simulator.PollOnce | sim-kernel/src/sim.rs:159-198 | Budget from the ceiling, the entity's poll, and what becomes of its result |
| Simulator.Simulator.CommitStopReason | sim-kernel/src/sim.rs:206-223 | A halt keeps running and stays silent unless it completes a single step |
| Plant.StepsRunOnTheGrid | sim-kernel/src/plant.rs:68-90 | The k-th model step since reset runs exactly at its grid point, none is skipped, whatever the budgets |
| Plant.PlantScheduleIndependent | sim-kernel/src/plant.rs:68-90 | Two schedules that reach the same instant have stepped the model at the same instants, up to the step at that instant |
| Plant.NodeSeesPlant | sim-kernel/src/plant.rs:68-85 | One guest turn of a plant board is one poll of its simulator: a possible outcome of the node model, and the node's picture stays true |
| Plant.LocalStepSeesPlant | sim-cluster/src/board_runtime.rs:598-641 | A debugger step of a plant board moves its clock by at most one model period, and times out exactly where the plant may not advance |
| Plant.ProgressIsMovement | sim-kernel/src/plant.rs:68-90 | A poll of a plant counts as progress exactly if it moves the clock or steps the model |
| Plant.PlantMeetsContract | sim-kernel/src/plant.rs:68-85 | A plant meets the entity contract of the node model |
| Plant.Plant.PollOnce | sim-kernel/src/plant.rs:68-85 | One poll either idles towards the next grid point or steps the model |
| MemoryMap.WalkIsExact | sim-kernel/src/bus.rs:467-496 | The chain walk ends, and each outcome occurs exactly for its reason: device reached with this offset, base revisited with this path, target missing |
| MemoryMap.CycleIffEndless | sim-kernel/src/bus.rs:482-486 | With distinct bases a cycle is reported exactly when following the chain never ends |
| AliasFlattening.FlatteningPreservesMeaning | sim-kernel/src/bus.rs:433-463 | For every region list that flattens, one-hop resolution equals walking the unflattened chain, errors included |
| AliasFlattening.AcceptedAccessIsInside | sim-kernel/src/bus.rs:239-273 | An accepted access goes to a device and lies inside it; the panics are unreachable |
| AliasFlattening.BuilderMapsBuild | sim-kernel/src/bus.rs:421-430 | Every map made by map, alias and merge builds without error |
| AliasFlattening.BuiltWalk | sim-kernel/src/bus.rs:467-496 | In a builder-made map every chain descends to a device, and the window still fits there |
| AliasWindows.WindowAgreesIff | sim-kernel/src/bus.rs:353-398 | In a builder-made map an access through an alias window and the same access at the target address agree if and only if neither starts at the last address or they are one address |
| AliasWindows.WindowShowsTarget | sim-kernel/src/bus.rs:353-398 | Below the last address every access inside an alias window goes to the very place the same access at the target address goes to |
| AliasWindows.MergeIsUnion | sim-kernel/src/bus.rs:402-417 | Merging succeeds exactly when nothing overlaps, and then takes every region over unchanged; otherwise it reports the first overlap |
| AliasWindows.TopAddressIsLost | sim-kernel/src/bus.rs:295-297 | Two devices may both be mapped at the last address, and neither can be reached there |
| AliasWindows.WindowAtTheTopFails | sim-kernel/src/bus.rs:275-279 | A concrete map whose alias shows a byte that its target address does not |
| FlatMemory.ServeIsExact | sim-kernel/src/bus.rs:159-194 | Exactly which reads, writes and loads are accepted and with which error the others are refused; a refused access changes no byte and nothing panics |
| FlatMemory.ReadSeesFlatMemory | sim-kernel/src/bus.rs:159-169 | A read returns the flat memory's bytes |
| FlatMemory.WriteUpdatesFlatMemory | sim-kernel/src/bus.rs:171-194 | A write or load changes exactly the bytes it covers, as seen at every guest address |
| FlatMemory.WindowsShareBytes | sim-kernel/src/bus.rs:125-131 | What is written through an alias window is read at its target address, and the other way round |
| FlatMemory.AstrayIsTold | sim-kernel/src/bus.rs:284-291 | Over every run of accesses and of looks at the log and the trap: every access that led nowhere is in a log handed out or in the one being kept, once and in order, with address, length and direction; under the trapping policy the trap holds the last of them since it was last taken |
| MemoryBus.ResolveAliasChain | sim-kernel/src/bus.rs:467-496 | The loop computes the walk |
| MemoryBus.FlattenAliases | sim-kernel/src/bus.rs:433-463 | The two loops replace every alias in place, or report the first error and change nothing |
| MemoryBus.MemoryMapBuilder.MapAt | sim-kernel/src/bus.rs:333-351 | The region is appended unless empty or overlapping |
| MemoryBus.MemoryMapBuilder.AliasAt | sim-kernel/src/bus.rs:359-398 | The alias is appended unless empty, without target, out of its range or overlapping, in this order |
| MemoryBus.MemoryMapBuilder.MergeWith | sim-kernel/src/bus.rs:402-417 | The loop adopts region by region |
| MemoryBus.MemoryMapBuilder.Build | sim-kernel/src/bus.rs:421-430 | Always succeeds on a builder's map |
| MemoryBus.MemoryBus.Read | sim-kernel/src/bus.rs:159-169 | The bus on real buffers answers as the flat-memory model does |
| MemoryBus.MemoryBus.Write | sim-kernel/src/bus.rs:171-181 | Same for writes: one buffer changes, in the bytes written |
| MemoryBus.MemoryBus.Load | sim-kernel/src/bus.rs:184-194 | Same for image loads |
| MemoryBus.MemoryBus.TakeUnmappedLog | sim-kernel/src/bus.rs:197-199 | Hands out the log and clears it |
| MemoryBus.MemoryBus.TakeTrapped | sim-kernel/src/bus.rs:202-204 | Hands out the trapped access and clears it |
| MemoryBus.MemoryDevice.Copy | sim-kernel/src/bus.rs:618-636 | In place: exactly the addressed bytes change, out-of-range leaves all |
| SpillFile.DecodeIgnoresTornTail | sim-cluster/src/probe_log.rs:486-517 | Decoding returns exactly the appended records, even behind a torn one |
| SpillFile.RecordRoundTrip | sim-cluster/src/probe_log.rs:375-383 | A 19-byte record decodes to the sample it encodes |
| SpillFile.ReadSpill | sim-cluster/src/probe_log.rs:499-516 | The decoding loop yields the whole records within the noted length |
| ProbeHistory.ExportIsAPrefix | sim-cluster/src/probe_log.rs:480-484 | For every probe, a loaded export is a prefix of the samples pushed, and all of them while not truncated, for any queue order, torn tail and later file growth |
| ProbeHistory.RunKeepsHistory | sim-cluster/src/probe_log.rs:250-274 | In every run: the file holds the spilled samples plus at most a torn tail, and history stops only for a truncated log at capacity |
| ProbeHistory.TruncatedIffNoRoom | sim-cluster/src/probe_log.rs:250-258 | In every run the log is truncated exactly if some push of a full probe failed to spill |
| ProbeHistory.LatestIsNewest | sim-cluster/src/probe_log.rs:259-263 | In every run the sample noted as the latest of a probe is the newest one in its queue, whatever was spilled or dropped |
| ProbeHistory.CoarseStreamConserves | sim-cluster/src/probe_log.rs:234-286 | Every sample accepted while running is in exactly one published window or the open one, in order; the open one is empty while not running |
| ProbeHistory.BatchIsWholeWindow | sim-cluster/src/probe_log.rs:387-396 | A batch is sorted by time and probe and consists of every UART word of its window and one sample per digital or analog probe |
| ProbeHistory.BatchCarriesLast | sim-cluster/src/probe_log.rs:264-272 | The digital or analog sample carried is the last of its probe in the window |
| ProbeHistory.BatchCarriesOne | sim-cluster/src/probe_log.rs:234-286 | A batch carries one sample of each digital or analog probe, once |
| ProbeLog.BatchIsDetermined | sim-cluster/src/probe_log.rs:388-395 | The hash order in which maps are drained does not show in the batch |
| Samples.SortIsStable | sim-cluster/src/probe_log.rs:394-394 | The sort sorts, keeps every record, and keeps the order of equal keys |
| ProbeLog.ProbeLog.PushSample | sim-cluster/src/probe_log.rs:250-274 | One push: store, spill the oldest, or mark truncated and drop |
| ProbeLog.ProbeLog.SpillOldest | sim-cluster/src/probe_log.rs:339-353 | A failed append puts the sample back and leaves only a torn tail |
| ProbeLog.ProbeLog.SetRunningTo | sim-cluster/src/probe_log.rs:234-248 | Leaving running returns the open window; entering clears it |
| ProbeLog.ProbeLog.Poll | sim-cluster/src/probe_log.rs:276-286 | A due poll while running publishes and clears the window |
| ProbeLog.ProbeLog.Export | sim-cluster/src/probe_log.rs:313-331 | The noted length and every queue once, in some order |
| CsvExport.FinishedExportIsComplete | sim-cluster/src/server.rs:1050-1100 | When a job finishes without failure, the polls together return an interleaving of the answers of all boards asked, each complete and in order |
| CsvHistory.AssembledCsvIsHistory | sim-cluster/src/probe.rs:489-549 | A finished export, restricted to a probe of one board, is the in-range part of a prefix of the samples pushed for it, all of them unless the log was truncated |
| CsvHistory.SelectOfProbe | sim-cluster/src/probe.rs:501-506 | Selecting by range and probe ids keeps, for every probe asked for, exactly its in-range records in order |
| CsvHistory.SelectIsWindow | sim-cluster/src/probe_log.rs:152-168 | Selection keeps exactly the records of wanted probes whose time lies in the window, its ends included, each as often as it occurs |
| CsvHistory.UnmarkedCsvIsWhole | sim-cluster/src/probe.rs:489-512 | A finished export that is not marked truncated, restricted to a probe of one board, is the in-range part of all samples pushed for it |
| CsvOutcome.JobTells | sim-cluster/src/server.rs:1050-1082 | Over every run: a job has failed exactly if the transport broke or a check came too late while a board's last chunk was missing, is done exactly then or if a check found nothing missing, and is marked truncated exactly if some chunk taken for it was |
| CsvOutcome.SucceedsIffAllAnswer | sim-cluster/src/server.rs:1076-1082 | Over every run, while the job is not done: some continuation without another start ends in success if and only if every board asked has taken the request up or is idle with the request next in its queue; and then services, receipts and one check lead there |
| CsvOutcome.TruncationIsReported | sim-cluster/src/probe.rs:514-549 | Over every run a job that has succeeded is marked truncated exactly if the log of some board asked was cut short when the board took the request up |
| CsvOutcome.ChunksFit | sim-cluster/src/probe.rs:528-549 | In every run no chunk carries more than 32 records, and no board sends more than four chunks at a time |
| CsvExport.OneLastMarkEach | sim-cluster/src/probe.rs:528-549 | A board still expected owes exactly one last mark, also for an empty answer; a board no longer expected has delivered everything |
| CsvExport.RunKept | sim-cluster/src/server.rs:1003-1082 | The invariant behind both, kept by every interleaving of starts, services, receipts, checks, errors and polls |
| CsvExport.NodeCsv.ServiceCsv | sim-cluster/src/probe.rs:424-433 | First waiting request starts an export if none is running, the others are dropped, then one tick of chunks |
| CsvExport.NodeCsv.SendCsvTick | sim-cluster/src/probe.rs:528-549 | Up to four chunks of 32 records, the last one marked |
| CsvExport.CsvServer.IngestReplies | sim-cluster/src/server.rs:1050-1082 | The loop folds the replies of this request and then judges done or failed; `CsvOutcome.JobTells` says when over all runs |
| CsvExport.CsvServer.StartCsv | sim-cluster/src/server.rs:1003-1048 | Refused exactly while a job is unfinished and not expired |
| CsvExport.CsvServer.PollCsvJob | sim-cluster/src/server.rs:1084-1100 | Hands out the pending records once |
| Topology.Validate | sim-cluster/src/topology.rs:125-254 | Accepts exactly the valid topologies, and the error reported otherwise is true of the topology |
| Topology.CheckBoards | sim-cluster/src/topology.rs:132-163 | The board loop: ids and endpoint names nonempty and distinct, firmware strings accepted |
| Topology.CheckEdges | sim-cluster/src/topology.rs:165-251 | The edge loop: routes, duplicates, endpoints, directions, payloads, different boards |
| TopologySoundness.ValidIffEndsExist | python/topology_dsl/__init__.py:340-364 | The flat topology of any accepted script, honest or not, is valid if and only if it has a board, its firmware strings are acceptable, and both ends of every edge are endpoints that boards really have, of the right direction and payload |
| TopologySoundness.ExecAllShapes | python/topology_dsl/__init__.py:125-306 | Every accepted script leaves distinct names and ports at every level, and edges with whole routes between different boards |
| TopologySoundness.DslIsSound | python/topology_dsl/__init__.py:340-364 | Scripts that use only the ports they were handed satisfy the condition |
| TopologySoundness.PathsAreDistinct | python/topology_dsl/__init__.py:125-162 | Whatever ports a script uses, board paths are unique in the whole tree |
| TopologySoundness.RoutesClimb | python/topology_dsl/__init__.py:187-258 | Every route climbs exactly one level per hop from the source and descends one per hop to the sink |
| TopologySoundness.HandedIsGood | python/topology_dsl/__init__.py:280-294 | A port handed out by a board or child leads to a real endpoint of that direction and payload, one level below |
| TopologySoundness.ForgedPortSlipsThrough | python/topology_dsl/__init__.py:280-294 | A hand-made port that passes the visibility test yields an invalid flat topology |
| TopologyDsl.TopologyBuilder.DeclareBoard | python/topology_dsl/__init__.py:143-162 | Names nonempty, without slash and not taken; then the board is added under this path |
| TopologyDsl.TopologyBuilder.ExportPort | python/topology_dsl/__init__.py:187-203 | Name nonempty and new, target visible; then the chain gains this level |
| TopologyDsl.TopologyBuilder.ConnectPorts | python/topology_dsl/__init__.py:211-258 | Visibility, directions, payload, boards and duplicates checked in this order; then one edge |
| TopologyDsl.TopologyBuilder.AddChildTopology | python/topology_dsl/__init__.py:168-185 | Name checks, then the child's own build under this path |
| TopologyDsl.TopologyBuilder.RunBuild | python/topology_dsl/__init__.py:260-268 | The calls of a build in order, up to the first error |
| TopologyDsl.Collect | python/topology_dsl/__init__.py:296-306 | Own boards and edges, then those of the children in turn; `FlatContents.FlatHoldsTheScript` says which these are |
| TopologyDsl.RejectDuplicateEdges | python/topology_dsl/__init__.py:309-324 | Accepts exactly lists without two edges of the same ends |
| TopologyDsl.BuildFlat | python/topology_dsl/__init__.py:340-364 | The flat topology of a script, or its first error |
| FlatContents.FlatHoldsTheScript | python/topology_dsl/__init__.py:296-306 | The flat topology of an accepted script tree: one wire for each connect call at any depth, with its ends, route, payload and ring length, and one board for each board call, under its path with its kind, firmware and endpoints, in the order of the calls, parents before children, and nothing else |
| FlatContents.CalledIsThere | python/topology_dsl/__init__.py:211-258 | Every connect call at any depth of an accepted script tree has its wire, and every board call its board under the path of its level |
| ScriptAcceptance.BuildsIffAllowed | python/topology_dsl/__init__.py:340-364 | A configuration is accepted if and only if its root name is fit, every call of its script tree is allowed by the calls made before it at its level, and no two wires of the whole tree join the same ends |
| ScriptAcceptance.AcceptedIffAllowed | python/topology_dsl/__init__.py:143-268 | Whatever has been built so far, the rest of a script is accepted if and only if each of its calls is allowed by those before it |
| ScriptAcceptance.VisibleIffMayUse | python/topology_dsl/__init__.py:280-294 | A port passes for visible if and only if it names an endpoint of a board of this level or ends in an export of a child |
| UartFetch.SyncIsFullFetch | python/systemtest/systemtest/simulation.py:237-271 | One incremental fetch, wherever its query ends: the stream stays a prefix of the log with everything up to the query end, and is exactly that unless it was ahead before, when it stays as it is |
| UartFetch.StreamIsPrefix | python/systemtest/systemtest/uart.py:15-57 | Over any run of fetches and reads of a log that grows in time order, wherever the queries end, the stream is a prefix of the log with everything up to the last query end, exactly that if its last word is not after it, and each word is delivered once |
| UartFetch.RunIsFaithful | python/systemtest/systemtest/simulation.py:237-271 | If the query end never goes back, the stream is exactly the log up to it |
| UartFetch.UnwindowedReadsInOrder | python/systemtest/systemtest/uart.py:24-47 | Without windows the words come out in log order, without gaps |
| UartReads.PrintedLineIsRead | python/systemtest/systemtest/uart.py:24-36 | After any run of fetches and unwindowed reads: if the unread bytes begin with a printed line, `readline` returns its text without its line end, LF or CR LF, and leaves what follows; if they hold no whole line it returns nothing and leaves them |
| UartReads.ReadIsExact | python/systemtest/systemtest/uart.py:38-47 | `read` takes exactly as many words as asked for, the first unread ones of the window, and none if there are not that many |
| UartReads.LineIsExact | python/systemtest/systemtest/uart.py:24-36 | `readline` takes the first unread words of the window up to the first line feed among them, and none if there is none |
| UartReads.WordsAreLogged | python/systemtest/systemtest/uart.py:21-22 | Over any run every word of the stream shows the instant and the low eight bits of the sample at its place in the log |
| UartFetch.UartStream.Fetch | python/systemtest/systemtest/simulation.py:237-271 | Pushes exactly what follows the known words of the last instant; fails on a truncated log |
| UartFetch.UartStream.Read | python/systemtest/systemtest/uart.py:38-47 | The first `count` unread words of the window, or none |
| UartFetch.UartStream.Readline | python/systemtest/systemtest/uart.py:24-36 | The first complete line of the window without its line end, or none |
| UartFetch.UartStream.VisibleWords | python/systemtest/systemtest/uart.py:49-57 | The positions of the unread words of the window, in order |

## Left out

- KernelRuns.InstructionsFollowTheClock: stated for runs without single steps; `KernelRuns.DebtOfMixedRuns` says what single steps leave.
- KernelRuns.DebtOfMixedRuns: for runs whose clock has not reached the last 64-bit instant, where it saturates.
- AliasWindows.WindowShowsTarget: needs every region to end below the last address; `AliasWindows.WindowAgreesIff` is the exact statement for one access.
- StuckIff.SticksIffProne: while a report lifted by a Reset still stands, there may be neither a prone board nor every board anchored (a report more than a margin behind the Reset is still on its way, or the lifted report is at or past a cap set later). For such states nothing is said: whether they get stuck depends on the order in which late reports of several boards are collected.
- StuckIff.ResetSticksIffProne: for Resets that go on from before the last 64-bit instant; one that finds a report already lifted needs a threshold of at most the margin plus one. A session that has reached the end of time does not count as stuck.
- SoundSessions.NeverStuck: polls that fail are excluded, as a simulator that fails says nothing; the conditions on single states cover them.
- StopRuns.InexactStopIff: margin and headroom threshold are positive, as for all progress results.
- ProbeHistory.ExportIsAPrefix: the spill file is taken to be empty when the log is opened; a file left over from a crashed process of the same name is not modelled.
- TopologySoundness.DslIsSound: a script ends at its first error; scripts that catch an error and go on, reentrant builds and ports stored from other builds are not modelled.
- UartFetch.StreamIsPrefix: assumes that the log only grows, in time order; samples of another kind raise an error in the client and are not modelled.
- Transport: iceoryx ports, their safe overflow (`sim-cluster/src/ipc/control_bus.rs:57-59`), HTTP, sockets and processes are replaced by lossless queues; the sender of a control message is the link it arrives on.
- Wall clock: the Ready time-out, the CSV deadline, the gdb step time-out and the coarse interval are inputs.
- Shutdown, status publication, logs, what inspection returns, breakpoints and host actions.
- The processor engine and the devices: what a quantum retires and which timers are armed are inputs; an event's behaviour is its finite unfolding, so an event that re-arms itself for the same instant for ever is not modelled.
- The hook before each quantum, which drains mailboxes; timers it arms are host-side timer calls of `KernelRuns`.
- Walking the regions for direct mapping by host pointers (`sim-kernel/src/bus.rs:210-236`).
- `BinaryHeap` is represented by its pop order, `HashMap` draining by an arbitrary order.
- Identifiers and counters (event ids, request ids) do not wrap; hashes do not collide.
- Queries for latest and range samples, names and views of samples, CSV text; floating-point parts of plants and models.
- A CSV request that reaches a board still busy with an expired job is dropped there, as in the program; the job then ends by its deadline.
- Firmware strings and the embedding of local files; margins and thresholds of zero, which the validator accepts, are hypotheses of the progress results.
