/** Why a session stops: the reason the arbiter records and publishes, read off what it has heard
    from the boards and what the host asked, over whole runs. */
module StopReasons {
  import opened Prelude
  import opened Control
  import opened Arbiter
  import opened Protocol
  import opened Agreement

  // ---- what an observer of the queues sees ----

  /** The message an action takes from a board. */
  function HeardBy(c: Cluster, a: Action): Inbox {
    if a.CollectFrom? && a.board in c.links && c.links[a.board].outbox != [] then
      [(a.board, c.links[a.board].outbox[0])]
    else []
  }

  /** Everything the arbiter takes from the boards during `run`, in order. */
  ghost function Heard(cfg: Config, c: Cluster, run: seq<Action>): Inbox
    decreases |run|
  {
    if run == [] then []
    else
      var n := |run| - 1;
      var before := Exec(cfg, c, run[..n]);
      Heard(cfg, c, run[..n]) + if before.Some? then HeardBy(before.value, run[n]) else []
  }

  /** The reasons of the stops in `heard`: those of the board being stepped, or all others. */
  function StopsIn(heard: Inbox, gdb: Option<GdbPhase>, stepped: bool): seq<HostStopReason>
    decreases |heard|
  {
    if heard == [] then []
    else
      var n := |heard| - 1;
      var (b, msg) := heard[n];
      StopsIn(heard[..n], gdb, stepped) +
      if msg.HostStop? && (gdb == Some(WaitInsn(b))) == stepped then [msg.reason] else []
  }

  /** The messages that wait for board `x`. */
  function Waiting(c: Cluster, x: BoardId): seq<ControlToNode> {
    if x in c.links then c.links[x].inbox else []
  }

  /** What an action puts behind the messages that wait for `x`. */
  function Added(before: Cluster, a: Action, after: Cluster, x: BoardId): seq<ControlToNode> {
    if (a.Deliver? && a.board == x) || !(Waiting(before, x) <= Waiting(after, x)) then []
    else Waiting(after, x)[|Waiting(before, x)|..]
  }

  /** Everything published to `x` during `run`, in order. */
  ghost function Published(cfg: Config, c: Cluster, run: seq<Action>, x: BoardId): seq<ControlToNode>
    decreases |run|
  {
    if run == [] then []
    else
      var n := |run| - 1;
      var before, after := Exec(cfg, c, run[..n]), Exec(cfg, c, run);
      Published(cfg, c, run[..n], x) +
      if before.Some? && after.Some? then Added(before.value, run[n], after.value, x) else []
  }

  /** The reasons of the cluster stops among `msgs`. */
  function ClusterStops(msgs: seq<ControlToNode>): seq<HostStopReason>
    decreases |msgs|
  {
    if msgs == [] then []
    else
      var last := msgs[|msgs| - 1];
      ClusterStops(msgs[..|msgs| - 1]) + if last.ClusterStop? then [last.reason] else []
  }

  /** The last message that sets the boards going or stops them. */
  function LastOrder(msgs: seq<ControlToNode>): (r: Option<ControlToNode>)
    ensures r.Some? ==> r.value.Start? || r.value.ClusterStop?
    decreases |msgs|
  {
    if msgs == [] then None
    else
      var last := msgs[|msgs| - 1];
      if last.Start? || last.ClusterStop? then Some(last) else LastOrder(msgs[..|msgs| - 1])
  }

  function Last<T>(s: seq<T>): Option<T> {
    if s == [] then None else Some(s[|s| - 1])
  }

  predicate InsideRound(run: seq<Action>) {
    forall i | 0 <= i < |run| :: !IsCommand(run[i]) && !run[i].FinishRound?
  }

  predicate Undisturbed(run: seq<Action>) {
    forall i | 0 <= i < |run| :: !IsCommand(run[i])
  }

  // ---- what a round collects ----

  /** The session after part of a round: only reports and peer entries have changed, and the
      stops heard are noted. */
  predicate Noted(s0: Session, s: Session, d: Drained, heard: Inbox) {
    s == s0.(peers := s.peers, ceiling := s.ceiling) &&
    d.clusterStop == Last(StopsIn(heard, s0.gdb, false)) &&
    (d.gdbInsn.Some? <==> StopsIn(heard, s0.gdb, true) != []) &&
    (d.gdbInsn.Some? ==> s0.gdb == Some(WaitInsn(d.gdbInsn.value.0)) &&
                         Some(d.gdbInsn.value.1) == Last(StopsIn(heard, s0.gdb, true)))
  }

  lemma NoteOne(s0: Session, s: Session, d: Drained, heard: Inbox, b: BoardId, msg: ControlToArbiter)
    requires Noted(s0, s, d, heard) && b in s.peers && !s.peers[b].AwaitingReady?
    ensures var (s', d') := Collect(s, d, b, msg); Noted(s0, s', d', heard + [(b, msg)])
  {
    var more := heard + [(b, msg)];
    assert more[..|heard|] == heard;
  }

  lemma {:induction false} RoundNotes(cfg: Config, c0: Cluster, round: seq<Action>)
    requires AgreeInv(cfg, c0) && !c0.barrier && c0.drained == NothingDrained
    requires InsideRound(round) && Exec(cfg, c0, round).Some?
    ensures var c := Exec(cfg, c0, round).value;
            AgreeInv(cfg, c) && !c.barrier && Noted(c0.arb, c.arb, c.drained, Heard(cfg, c0, round))
    decreases |round|
  {
    if round != [] {
      var n := |round| - 1;
      RoundNotes(cfg, c0, round[..n]);
      var c := Exec(cfg, c0, round[..n]).value;
      var a := round[n];
      AgreeStep(cfg, c, a);
      if a.CollectFrom? {
        NoteOne(c0.arb, c.arb, c.drained, Heard(cfg, c0, round[..n]), a.board, c.links[a.board].outbox[0]);
      } else {
        assert Heard(cfg, c0, round) == Heard(cfg, c0, round[..n]);
      }
    }
  }

  // ---- how a round ends ----

  /** `x` is told one more cluster stop, for `reason`, and no start behind it. */
  predicate ToldToStop(before: Cluster, a: Action, after: Cluster, x: BoardId, reason: HostStopReason) {
    var told := Added(before, a, after, x);
    ClusterStops(told) == [reason] && LastOrder(told) == Some(ClusterStop(reason))
  }

  /** An action stops the session for `reason` and tells every board. */
  predicate StopsFor(before: Cluster, a: Action, after: Cluster, reason: HostStopReason) {
    !after.arb.running && after.arb.gdb.None? && after.arb.untilCap.None? && after.arb.lastStop == Some(reason) &&
    forall x | x in before.links :: ToldToStop(before, a, after, x, reason)
  }

  /** An action neither stops nor starts anything. */
  predicate CarriesOn(before: Cluster, a: Action, after: Cluster) {
    after.arb.running == before.arb.running && after.arb.gdb == before.arb.gdb &&
    after.arb.untilCap == before.arb.untilCap && after.arb.lastStop == before.arb.lastStop &&
    forall x | x in before.links :: LastOrder(Added(before, a, after, x)) == None
  }

  /** An action starts the session towards `cap`, to stop there for `reason`. */
  predicate CatchesUp(before: Cluster, a: Action, after: Cluster, cap: u64, reason: HostStopReason) {
    after.arb.running && after.arb.gdb == Some(CatchUp(reason)) && after.arb.untilCap == Some(cap) &&
    after.arb.lastStop.None? &&
    forall x | x in before.links :: LastOrder(Added(before, a, after, x)) == Some(Start(after.arb.allowed))
  }

  /** The reason for which a running session stops at its cap. */
  function CapReason(gdb: Option<GdbPhase>): HostStopReason {
    if gdb.Some? && gdb.value.CatchUp? then gdb.value.reason else Until
  }

  ghost predicate AtCap(s: Session) {
    s.untilCap.Some? && s.ceiling.VirtualTimeNs() >= s.untilCap.value
  }

  lemma AddedIsSent(before: Cluster, a: Action, after: Cluster, sent: seq<ControlToNode>, x: BoardId)
    requires !a.Deliver? && x in before.links && after.links == Broadcast(before.links, sent)
    ensures Added(before, a, after, x) == sent
  {
    assert Waiting(after, x) == Waiting(before, x) + sent;
  }

  lemma OrdersOfLast(msgs: seq<ControlToNode>, m: ControlToNode)
    ensures ClusterStops(msgs + [m]) == ClusterStops(msgs) + if m.ClusterStop? then [m.reason] else []
    ensures LastOrder(msgs + [m]) == if m.Start? || m.ClusterStop? then Some(m) else LastOrder(msgs)
  {
    assert (msgs + [m])[..|msgs|] == msgs;
  }

  lemma OrdersOfRound(was: u64, next: u64, reason: HostStopReason)
    ensures var raised := if next != was then [Allowed(next)] else [];
            ClusterStops(raised + []) == [] && LastOrder(raised + []) == None &&
            ClusterStops(raised + [ClusterStop(reason)]) == [reason] &&
            LastOrder(raised + [ClusterStop(reason)]) == Some(ClusterStop(reason))
  {
    var raised := if next != was then [Allowed(next)] else [];
    OrdersOfLast([], Allowed(next));
    OrdersOfLast(raised, ClusterStop(reason));
    assert [] + [Allowed(next)] == [Allowed(next)];
    assert raised + [] == raised;
  }

  /** What the end of a round publishes and records, by what it has collected. */
  ghost predicate Concludes(s: Session, d: Drained, e: Effect) {
    if d.clusterStop.Some? then Stops(e, d.clusterStop.value)
    else if d.gdbInsn.Some? then
      e.session.running && e.session.gdb == Some(CatchUp(d.gdbInsn.value.1)) && e.session.lastStop.None? &&
      e.session.untilCap == Some(ReportOf(s, d.gdbInsn.value.0)) &&
      LastOrder(e.sent) == Some(Start(e.session.allowed))
    else if AtCap(s) then Stops(e, CapReason(s.gdb))
    else
      e.session.running == s.running && e.session.gdb == s.gdb && e.session.untilCap == s.untilCap &&
      e.session.lastStop == s.lastStop && LastOrder(e.sent).None?
  }

  predicate Stops(e: Effect, reason: HostStopReason) {
    !e.session.running && e.session.gdb.None? && e.session.untilCap.None? && e.session.lastStop == Some(reason) &&
    ClusterStops(e.sent) == [reason] && LastOrder(e.sent) == Some(ClusterStop(reason))
  }

  function ReportOf(s: Session, b: BoardId): u64 {
    if b in s.ceiling.reports then s.ceiling.reports[b] else 0
  }

  lemma OneOrder(m: ControlToNode)
    ensures ClusterStops([m]) == if m.ClusterStop? then [m.reason] else []
    ensures LastOrder([m]) == if m.Start? || m.ClusterStop? then Some(m) else None
  {
    OrdersOfLast([], m);
    assert [] + [m] == [m];
  }

  lemma FinishConcludes(s: Session, d: Drained, e: Effect)
    requires e == Finish(s, d)
    ensures Concludes(s, d, e)
  {
    if StopPending(d) {
      OneOrder(e.sent[0]);
    } else {
      OrdersOfRound(s.allowed, e.session.allowed, CapReason(s.gdb));
      var raised := if e.session.allowed != s.allowed then [Allowed(e.session.allowed)] else [];
      assert e.sent == raised + if AtCap(s) then [ClusterStop(CapReason(s.gdb))] else [];
    }
  }

  /** How a round of a session with debugger phase `gdb` ends, by the stops heard in it. */
  ghost predicate RoundOutcome(before: Cluster, after: Cluster, gdb: Option<GdbPhase>, heard: Inbox) {
    var others, own := StopsIn(heard, gdb, false), StopsIn(heard, gdb, true);
    if others != [] then StopsFor(before, FinishRound, after, others[|others| - 1])
    else if own != [] then
      gdb.Some? && gdb.value.WaitInsn? &&
      CatchesUp(before, FinishRound, after, ReportOf(before.arb, gdb.value.board), own[|own| - 1])
    else if AtCap(before.arb) then StopsFor(before, FinishRound, after, CapReason(gdb))
    else CarriesOn(before, FinishRound, after)
  }

  lemma ConclusionFollows(before: Cluster, after: Cluster, e: Effect, heard: Inbox, s0: Session)
    requires Noted(s0, before.arb, before.drained, heard) && Concludes(before.arb, before.drained, e)
    requires after.arb == e.session
    requires forall x | x in before.links :: Added(before, FinishRound, after, x) == e.sent
    ensures RoundOutcome(before, after, s0.gdb, heard)
  {
  }

  lemma FinishFollows(before: Cluster, after: Cluster, heard: Inbox, s0: Session)
    requires Noted(s0, before.arb, before.drained, heard)
    requires after == Commit(before, Finish(before.arb, before.drained)).(drained := NothingDrained)
    ensures RoundOutcome(before, after, s0.gdb, heard)
  {
    var e := Finish(before.arb, before.drained);
    FinishConcludes(before.arb, before.drained, e);
    forall x | x in before.links
      ensures Added(before, FinishRound, after, x) == e.sent
    {
      AddedIsSent(before, FinishRound, after, e.sent, x);
    }
    ConclusionFollows(before, after, e, heard, s0);
  }

  /** Over every run: a round that has heard a stop from a board that is not being stepped stops
      the session for the last such reason, whatever else it has heard; failing that, a stop of the
      stepped board starts the catch-up to that board's report, to end for the reason it gave;
      failing that, the session stops at its cap or carries on. */
  lemma RoundReason(cfg: Config, past: seq<Action>, round: seq<Action>, c0: Cluster, before: Cluster, after: Cluster)
    requires Exec(cfg, Init(cfg), past) == Some(c0) && !c0.barrier && c0.drained == NothingDrained
    requires InsideRound(round) && Exec(cfg, c0, round) == Some(before)
    requires Enabled(cfg, before, FinishRound) && after == Apply(cfg, before, FinishRound)
    ensures AgreeInv(cfg, after) && !after.barrier && after.drained == NothingDrained
    ensures RoundOutcome(before, after, c0.arb.gdb, Heard(cfg, c0, round))
  {
    AgreeAlongRun(cfg, past);
    RoundNotes(cfg, c0, round);
    AgreeStep(cfg, before, FinishRound);
    FinishFollows(before, after, Heard(cfg, c0, round), c0.arb);
  }

  // ---- how a session ends when no board stops it ----

  predicate NoStopIn(heard: Inbox) {
    forall i | 0 <= i < |heard| :: !heard[i].1.HostStop?
  }

  /** Some round of `run` has closed with every report at the cap. */
  ghost predicate ClosedAtCap(cfg: Config, c: Cluster, run: seq<Action>) {
    exists k | 0 <= k < |run| :: ClosesAtCap(cfg, c, run, k)
  }

  ghost predicate ClosesAtCap(cfg: Config, c: Cluster, run: seq<Action>, k: nat)
    requires k < |run|
  {
    run[k].FinishRound? && Exec(cfg, c, run[..k]).Some? && AtCap(Exec(cfg, c, run[..k]).value.arb)
  }

  lemma {:induction false} OrdersAppend(first: seq<ControlToNode>, second: seq<ControlToNode>)
    ensures ClusterStops(first + second) == ClusterStops(first) + ClusterStops(second)
    ensures LastOrder(first + second) == if LastOrder(second).Some? then LastOrder(second) else LastOrder(first)
    decreases |second|
  {
    if second == [] {
      assert first + second == first;
    } else {
      var n := |second| - 1;
      OrdersAppend(first, second[..n]);
      assert (first + second)[..|first| + n] == first + second[..n];
    }
  }

  /** No order, no cluster stop. */
  lemma {:induction false} NoOrderNoStop(msgs: seq<ControlToNode>)
    requires LastOrder(msgs).None?
    ensures ClusterStops(msgs) == []
  {
    if msgs != [] {
      NoOrderNoStop(msgs[..|msgs| - 1]);
    }
  }

  lemma UnheardStep(cfg: Config, c: Cluster, a: Action, after: Cluster)
    requires AgreeInv(cfg, c) && !c.barrier && !StopPending(c.drained)
    requires Enabled(cfg, c, a) && !IsCommand(a) && NoStopIn(HeardBy(c, a)) && after == Apply(cfg, c, a)
    ensures !after.barrier && !StopPending(after.drained)
    ensures if a.FinishRound? && AtCap(c.arb) then StopsFor(c, a, after, CapReason(c.arb.gdb))
            else CarriesOn(c, a, after)
  {
    if a.FinishRound? {
      FinishFollows(c, after, [], c.arb);
    } else if a.CollectFrom? {
      CollectUnheard(c, a.board);
    } else {
      LinkStepCarriesOn(cfg, c, a, after);
    }
  }

  lemma LinkStepCarriesOn(cfg: Config, c: Cluster, a: Action, after: Cluster)
    requires Enabled(cfg, c, a) && (a.Deliver? || a.PollGuest?) && after == Apply(cfg, c, a)
    ensures after.barrier == c.barrier && after.drained == c.drained && CarriesOn(c, a, after)
  {
    assert forall x | x in c.links && x != a.board :: Waiting(after, x) == Waiting(c, x);
  }

  lemma CollectUnheard(c: Cluster, b: BoardId)
    requires b in c.links && c.links[b].outbox != [] && b in c.arb.peers && !c.arb.peers[b].AwaitingReady?
    requires !StopPending(c.drained) && NoStopIn(HeardBy(c, CollectFrom(b)))
    ensures !StopPending(AfterCollect(c, b).drained) && CarriesOn(c, CollectFrom(b), AfterCollect(c, b))
  {
    assert HeardBy(c, CollectFrom(b))[0].1 == c.links[b].outbox[0];
    assert forall x | x in c.links :: Waiting(AfterCollect(c, b), x) == Waiting(c, x);
  }

  lemma UnheardSplits(first: Inbox, second: Inbox)
    requires NoStopIn(first + second)
    ensures NoStopIn(first) && NoStopIn(second)
  {
    assert forall i | 0 <= i < |first| :: (first + second)[i] == first[i];
    assert forall i | 0 <= i < |second| :: (first + second)[|first| + i] == second[i];
  }

  /** Where a session stands that was `s0`, if its cap has been reported or not. */
  predicate StoodOut(s0: Session, s: Session, closed: bool) {
    if closed then !s.running && s.gdb.None? && s.untilCap.None? && s.lastStop == Some(CapReason(s0.gdb))
    else s.running == s0.running && s.gdb == s0.gdb && s.untilCap == s0.untilCap && s.lastStop == s0.lastStop
  }

  /** What a board has been told meanwhile. */
  predicate ToldOnce(told: seq<ControlToNode>, reason: HostStopReason, closed: bool) {
    ClusterStops(told) == (if closed then [reason] else []) &&
    LastOrder(told) == if closed then Some(ClusterStop(reason)) else None
  }

  lemma ClosedLater(cfg: Config, c0: Cluster, run: seq<Action>, c: Cluster)
    requires run != [] && Exec(cfg, c0, run[..|run| - 1]) == Some(c)
    ensures ClosedAtCap(cfg, c0, run) <==>
            ClosedAtCap(cfg, c0, run[..|run| - 1]) || (run[|run| - 1].FinishRound? && AtCap(c.arb))
  {
    var n := |run| - 1;
    var init := run[..n];
    forall k | 0 <= k < n
      ensures ClosesAtCap(cfg, c0, run, k) == ClosesAtCap(cfg, c0, init, k)
    {
      assert init[..k] == run[..k];
    }
    assert ClosesAtCap(cfg, c0, run, n) == (run[n].FinishRound? && AtCap(c.arb));
    if ClosedAtCap(cfg, c0, init) {
      var k :| 0 <= k < n && ClosesAtCap(cfg, c0, init, k);
      assert ClosesAtCap(cfg, c0, run, k);
    }
  }

  lemma ToldMore(told: seq<ControlToNode>, before: Cluster, a: Action, after: Cluster, x: BoardId,
                 reason: HostStopReason, closed: bool, closes: bool)
    requires ToldOnce(told, reason, closed) && !(closed && closes)
    requires if closes then ToldToStop(before, a, after, x, reason) else LastOrder(Added(before, a, after, x)).None?
    ensures ToldOnce(told + Added(before, a, after, x), reason, closed || closes)
  {
    OrdersAppend(told, Added(before, a, after, x));
    if !closes {
      NoOrderNoStop(Added(before, a, after, x));
    }
  }

  /** A session in which the host gives no command and no board reports a stop ends exactly when a
      round closes with every report at its cap, and then for its own reason: the one the stepped
      board gave if it is a catch-up, the cap otherwise. Every board is told so once; until then
      nobody is told to start or stop. */
  lemma {:induction false} EndsForItsCap(cfg: Config, c0: Cluster, rest: seq<Action>, c: Cluster)
    requires AgreeInv(cfg, c0) && !c0.barrier && !StopPending(c0.drained)
    requires Undisturbed(rest) && NoStopIn(Heard(cfg, c0, rest)) && Exec(cfg, c0, rest) == Some(c)
    ensures AgreeInv(cfg, c) && !c.barrier && !StopPending(c.drained)
    ensures StoodOut(c0.arb, c.arb, ClosedAtCap(cfg, c0, rest))
    ensures forall x | x in cfg.boards ::
              ToldOnce(Published(cfg, c0, rest, x), CapReason(c0.arb.gdb), ClosedAtCap(cfg, c0, rest))
    decreases |rest|
  {
    if rest != [] {
      var n := |rest| - 1;
      var before := Exec(cfg, c0, rest[..n]).value;
      var a := rest[n];
      UnheardSplits(Heard(cfg, c0, rest[..n]), HeardBy(before, a));
      EndsForItsCap(cfg, c0, rest[..n], before);
      AgreeStep(cfg, before, a);
      UnheardStep(cfg, before, a, c);
      ClosedLater(cfg, c0, rest, before);
      forall x | x in cfg.boards
        ensures ToldOnce(Published(cfg, c0, rest, x), CapReason(c0.arb.gdb), ClosedAtCap(cfg, c0, rest))
      {
        ToldMore(Published(cfg, c0, rest[..n], x), before, a, c, x, CapReason(c0.arb.gdb),
                 ClosedAtCap(cfg, c0, rest[..n]), a.FinishRound? && AtCap(before.arb));
      }
    }
  }

  lemma NotAtBarrier(cfg: Config, past: seq<Action>, c: Cluster)
    requires Exec(cfg, Init(cfg), past) == Some(c) && c.arb.gdb.Some?
    ensures !c.barrier
  {
    AgreeAlongRun(cfg, past);
  }

  /** A gdb step answered by the stepped board, and by no other, ends in a stop for the answer of
      that board: the catch-up runs towards its report and, with no further stop and no command,
      ends for that reason exactly when every report has come that far. */
  lemma CatchUpEndsForItsReason(cfg: Config, past: seq<Action>, round: seq<Action>, rest: seq<Action>, b: BoardId,
                                c0: Cluster, before: Cluster, begun: Cluster, c: Cluster)
    requires Exec(cfg, Init(cfg), past) == Some(c0) && c0.arb.gdb == Some(WaitInsn(b))
    requires c0.drained == NothingDrained && InsideRound(round) && Exec(cfg, c0, round) == Some(before)
    requires StopsIn(Heard(cfg, c0, round), c0.arb.gdb, false) == []
    requires StopsIn(Heard(cfg, c0, round), c0.arb.gdb, true) != []
    requires Enabled(cfg, before, FinishRound) && begun == Apply(cfg, before, FinishRound)
    requires Undisturbed(rest) && NoStopIn(Heard(cfg, begun, rest)) && Exec(cfg, begun, rest) == Some(c)
    ensures var own := StopsIn(Heard(cfg, c0, round), c0.arb.gdb, true);
            var reason, closed := own[|own| - 1], ClosedAtCap(cfg, begun, rest);
            begun.arb.untilCap == Some(ReportOf(before.arb, b)) &&
            (if closed then !c.arb.running && c.arb.gdb.None? && c.arb.lastStop == Some(reason)
             else c.arb.running && c.arb.gdb == Some(CatchUp(reason)) && c.arb.lastStop.None?) &&
            forall x | x in cfg.boards :: ToldOnce(Published(cfg, begun, rest, x), reason, closed)
  {
    NotAtBarrier(cfg, past, c0);
    RoundReason(cfg, past, round, c0, before, begun);
    EndsForItsCap(cfg, begun, rest, c);
  }

  predicate StandsFor(s: Session, gdb: Option<GdbPhase>, reason: Option<HostStopReason>) {
    !s.running && s.untilCap.None? && s.gdb == gdb && s.lastStop == reason
  }

  predicate RunsTo(s: Session, cap: Option<u64>) {
    s.running && s.untilCap == cap && s.gdb.None? && s.lastStop.None?
  }

  /** How a session goes on after a host command: a stop and a gdb step of a running one stop it from
      outside, a start that lies behind the reported time stops it for its cap and lets a standing
      reason stand, any other start or a Reset runs it without one and forgets the debugger. */
  ghost predicate CommandOutcome(cfg: Config, s: Session, a: Action, after: Session) {
    match a
    case CmdStop => if s.running then StandsFor(after, None, Some(ExternalStop)) else after == s
    case CmdStep(b) =>
      if b in cfg.boards then
        StandsFor(after, Some(WaitInsn(b)), if s.running then Some(ExternalStop) else s.lastStop)
      else after == s
    case CmdStart(until) =>
      if until.Some? && until.value <= s.ceiling.VirtualTimeNs() then
        StandsFor(after, None, if s.lastStop.Some? then s.lastStop else Some(Until))
      else RunsTo(after, until)
    case CmdReset => RunsTo(after, None)
    case _ => after == s
  }

  lemma CommandReasons(cfg: Config, past: seq<Action>, a: Action, c: Cluster)
    requires Exec(cfg, Init(cfg), past) == Some(c) && IsCommand(a) && Enabled(cfg, c, a)
    ensures CommandOutcome(cfg, c.arb, a, Apply(cfg, c, a).arb)
    ensures c.arb.running ==> c.arb.lastStop.None?
  {
    AgreeAlongRun(cfg, past);
    RunningHasNoReason(cfg, past);
  }

  /** A session started towards a cap that lies ahead, with no stop from a board and no further
      command, ends exactly when every report has come that far, and then for its cap. */
  lemma StartEndsForItsCap(cfg: Config, past: seq<Action>, until: Option<u64>, rest: seq<Action>,
                           c0: Cluster, begun: Cluster, c: Cluster)
    requires Exec(cfg, Init(cfg), past) == Some(c0) && Enabled(cfg, c0, CmdStart(until))
    requires until.Some? ==> c0.arb.ceiling.VirtualTimeNs() < until.value
    requires begun == Apply(cfg, c0, CmdStart(until))
    requires Undisturbed(rest) && NoStopIn(Heard(cfg, begun, rest)) && Exec(cfg, begun, rest) == Some(c)
    ensures var closed := ClosedAtCap(cfg, begun, rest);
            (if closed then StandsFor(c.arb, None, Some(Until)) else RunsTo(c.arb, until)) &&
            forall x | x in cfg.boards :: ToldOnce(Published(cfg, begun, rest, x), Until, closed)
  {
    AgreeAlongRun(cfg, past);
    CommandReasons(cfg, past, CmdStart(until), c0);
    AgreeStep(cfg, c0, CmdStart(until));
    EndsForItsCap(cfg, begun, rest, c);
  }

  /** What has been published on the bus decides whether the session runs and why it stands. */
  predicate Told(s: Session, told: seq<ControlToNode>) {
    match LastOrder(told)
    case Some(Start(_)) => s.running && s.lastStop.None?
    case Some(ClusterStop(reason)) => !s.running && s.lastStop == Some(reason)
    case _ => !s.running && (s.lastStop.None? || s.lastStop == Some(Until))
  }

  lemma {:induction false} RunningHasNoReason(cfg: Config, run: seq<Action>)
    requires Exec(cfg, Init(cfg), run).Some?
    ensures var s := Exec(cfg, Init(cfg), run).value.arb; s.running ==> s.lastStop.None?
    decreases |run|
  {
    if run != [] {
      RunningHasNoReason(cfg, run[..|run| - 1]);
    }
  }

  /** The last order sent with a step is the one the step follows. */
  predicate OrderFits(s: Session, next: Session, sent: seq<ControlToNode>) {
    match LastOrder(sent)
    case Some(Start(_)) => next.running && next.lastStop.None?
    case Some(ClusterStop(reason)) => !next.running && next.lastStop == Some(reason)
    case _ =>
      next.running == s.running &&
      (next.lastStop == s.lastStop || (!s.running && s.lastStop.None? && next.lastStop == Some(Until)))
  }

  lemma CommandFits(s: Session, a: Action, e: Effect)
    requires IsCommand(a) && e == CommandEffect(s, a) && (s.running ==> s.lastStop.None?)
    ensures OrderFits(s, e.session, e.sent)
  {
    if e.sent != [] {
      var n := |e.sent| - 1;
      OrdersOfLast(e.sent[..n], e.sent[n]);
      assert e.sent == e.sent[..n] + [e.sent[n]];
      if a.CmdStep? && n == 1 {
        OneOrder(e.sent[0]);
        assert e.sent[..n] == [e.sent[0]];
      }
    }
  }

  lemma FinishFits(s: Session, d: Drained, e: Effect)
    requires Concludes(s, d, e)
    ensures OrderFits(s, e.session, e.sent)
  {
  }

  lemma FittingOrderTold(s: Session, next: Session, told: seq<ControlToNode>, sent: seq<ControlToNode>)
    requires Told(s, told) && OrderFits(s, next, sent)
    ensures Told(next, told + sent)
  {
    OrdersAppend(told, sent);
  }

  lemma StepFits(cfg: Config, c: Cluster, a: Action, after: Cluster, x: BoardId)
    requires Enabled(cfg, c, a) && after == Apply(cfg, c, a) && x in c.links
    requires c.arb.running ==> c.arb.lastStop.None?
    ensures OrderFits(c.arb, after.arb, Added(c, a, after, x))
  {
    if a.FinishRound? {
      var e := Finish(c.arb, c.drained);
      AddedIsSent(c, a, after, e.sent, x);
      FinishConcludes(c.arb, c.drained, e);
      FinishFits(c.arb, c.drained, e);
    } else if IsCommand(a) {
      var e := CommandEffect(c.arb, a);
      AddedIsSent(c, a, after, e.sent, x);
      CommandFits(c.arb, a, e);
    } else {
      NoOrderAdded(cfg, c, a, after, x);
    }
  }

  lemma NoOrderAdded(cfg: Config, c: Cluster, a: Action, after: Cluster, x: BoardId)
    requires Enabled(cfg, c, a) && after == Apply(cfg, c, a) && x in c.links && !IsCommand(a) && !a.FinishRound?
    ensures LastOrder(Added(c, a, after, x)).None?
  {
    if a.PublishStartup? {
      var record := StartupRecord(cfg.marginNs, cfg.thresholdNs);
      AddedIsSent(c, a, after, [record], x);
      OneOrder(record);
    }
  }

  /** In every reachable state the session runs exactly when the last order published to a board
      is a start, and otherwise the reason it records is the one of the last cluster stop published
      (before the first order: none, or the cap of a start that lay behind the reported time). */
  lemma {:induction false} ReasonIsWhatWasTold(cfg: Config, run: seq<Action>, c: Cluster, x: BoardId)
    requires Exec(cfg, Init(cfg), run) == Some(c) && x in cfg.boards
    ensures Told(c.arb, Published(cfg, Init(cfg), run, x))
    decreases |run|
  {
    if run != [] {
      var n := |run| - 1;
      var before := Exec(cfg, Init(cfg), run[..n]).value;
      ReasonIsWhatWasTold(cfg, run[..n], before, x);
      var told := Published(cfg, Init(cfg), run[..n], x);
      AgreeAlongRun(cfg, run[..n]);
      RunningHasNoReason(cfg, run[..n]);
      StepFits(cfg, before, run[n], c, x);
      FittingOrderTold(before.arb, c.arb, told, Added(before, run[n], c, x));
    }
  }

  // ---- what is passed on to the boards ----

  /** The resets, debugger steps and watches among `msgs`. */
  function PassedOn(msgs: seq<ControlToNode>): seq<ControlToNode>
    decreases |msgs|
  {
    if msgs == [] then []
    else
      var last := msgs[|msgs| - 1];
      PassedOn(msgs[..|msgs| - 1]) + if last.Reset? || last.GdbStep? || last.ProbeWatch? then [last] else []
  }

  function Wanted(cfg: Config, a: Action): seq<ControlToNode> {
    match a
    case CmdReset => [Reset]
    case CmdStep(b) => if b in cfg.boards then [GdbStep(b)] else []
    case CmdWatch(b) => [ProbeWatch(b)]
    case _ => []
  }

  /** What the host has asked the boards for in `run`, in order. */
  function AllWanted(cfg: Config, run: seq<Action>): seq<ControlToNode>
    decreases |run|
  {
    if run == [] then [] else AllWanted(cfg, run[..|run| - 1]) + Wanted(cfg, run[|run| - 1])
  }

  lemma {:induction false} PassedOnAppend(first: seq<ControlToNode>, second: seq<ControlToNode>)
    ensures PassedOn(first + second) == PassedOn(first) + PassedOn(second)
    decreases |second|
  {
    if second == [] {
      assert first + second == first;
    } else {
      var n := |second| - 1;
      PassedOnAppend(first, second[..n]);
      assert (first + second)[..|first| + n] == first + second[..n];
    }
  }

  lemma PassedOnFew(msgs: seq<ControlToNode>)
    requires |msgs| <= 3
    ensures PassedOn(msgs) ==
            (if |msgs| > 0 && (msgs[0].Reset? || msgs[0].GdbStep? || msgs[0].ProbeWatch?) then [msgs[0]] else []) +
            (if |msgs| > 1 && (msgs[1].Reset? || msgs[1].GdbStep? || msgs[1].ProbeWatch?) then [msgs[1]] else []) +
            (if |msgs| > 2 && (msgs[2].Reset? || msgs[2].GdbStep? || msgs[2].ProbeWatch?) then [msgs[2]] else [])
  {
    if |msgs| > 0 {
      PassedOnFew(msgs[..|msgs| - 1]);
    }
  }

  lemma FinishPassesOn(s: Session, d: Drained, e: Effect)
    requires e == Finish(s, d)
    ensures PassedOn(e.sent) == []
  {
    PassedOnFew(e.sent);
  }

  lemma CommandPassesOn(cfg: Config, s: Session, a: Action, e: Effect)
    requires IsCommand(a) && e == CommandEffect(s, a) && s.peers.Keys == cfg.boards
    ensures PassedOn(e.sent) == Wanted(cfg, a)
  {
    PassedOnFew(e.sent);
  }

  lemma StepPassesOn(cfg: Config, c: Cluster, a: Action, after: Cluster, x: BoardId)
    requires Shape(cfg, c) && Enabled(cfg, c, a) && after == Apply(cfg, c, a) && x in c.links
    ensures PassedOn(Added(c, a, after, x)) == Wanted(cfg, a)
  {
    if a.FinishRound? {
      var e := Finish(c.arb, c.drained);
      AddedIsSent(c, a, after, e.sent, x);
      FinishPassesOn(c.arb, c.drained, e);
    } else if IsCommand(a) {
      var e := CommandEffect(c.arb, a);
      AddedIsSent(c, a, after, e.sent, x);
      CommandPassesOn(cfg, c.arb, a, e);
    } else if a.PublishStartup? {
      var record := StartupRecord(cfg.marginNs, cfg.thresholdNs);
      AddedIsSent(c, a, after, [record], x);
      PassedOnFew([record]);
    }
  }

  /** Over every run each board has been sent exactly the resets, steps and watches the host asked
      for, in order. */
  lemma {:induction false} EveryWishIsPassedOn(cfg: Config, run: seq<Action>, c: Cluster, x: BoardId)
    requires Exec(cfg, Init(cfg), run) == Some(c) && x in cfg.boards
    ensures PassedOn(Published(cfg, Init(cfg), run, x)) == AllWanted(cfg, run)
    decreases |run|
  {
    if run != [] {
      var n := |run| - 1;
      var before := Exec(cfg, Init(cfg), run[..n]).value;
      EveryWishIsPassedOn(cfg, run[..n], before, x);
      AgreeAlongRun(cfg, run[..n]);
      StepPassesOn(cfg, before, run[n], c, x);
      PassedOnAppend(Published(cfg, Init(cfg), run[..n], x), Added(before, run[n], c, x));
    }
  }
}
