/** Runs of a one-board cluster that show why a start and a Reset need their conditions. */
module Scenarios {
  import opened Prelude
  import opened Control
  import opened Lifecycle
  import opened TimeSync
  import opened Arbiter
  import opened BoardRuntime
  import opened Protocol
  import opened Progress
  import opened Reach
  import opened Hearing
  import opened ExactStop
  import opened Drive
  import opened Sticking
  import opened StickingRuns

  /** No start has a cap, no board is stepped. */
  predicate Uncapped(actions: seq<Action>) {
    forall i | 0 <= i < |actions| :: !actions[i].CmdStep? && (actions[i].CmdStart? ==> actions[i].until.None?)
  }

  const SOLO := Config({0}, 10, 5, 1)

  /** A one-board cluster past its barrier. */
  function Solo(s: Session, changed: bool, l: Link): Cluster {
    Cluster(false, s, Drained(changed, None, None), map[0 := l])
  }

  function SoloSession(peer: PeerState, report: u64, allowed: u64, until: Option<u64>,
                       last: Option<HostStopReason>): Session {
    Session(map[0 := peer], Ceiling(10, map[0 := report]), allowed, until, peer.PeerRunning?, None, last)
  }

  function SoloNode(running: bool, clock: u64, allowed: u64, lastReport: Option<u64>): Node {
    Node(if running then NodeRunning
        else NodeStopped, SimView(running, false, Some(allowed)), clock, allowed, 5, lastReport)
  }

  lemma SoloMaps(s: Session, l: Link)
    requires s.peers.Keys == {0} && s.ceiling.reports.Keys == {0}
    ensures forall sent :: Broadcast(map[0 := l], sent) == map[0 := l.(inbox := l.inbox + sent)]
    ensures forall l' :: map[0 := l][0 := l'] == map[0 := l']
    ensures AllStarted(s.peers) == map[0 := OnStartBroadcast(s.peers[0])]
    ensures AllStopped(s.peers) == map[0 := PeerStopped]
    ensures s.ceiling.VirtualTimeNs() == s.ceiling.reports[0]
    ensures forall t: u64 :: s.ceiling.reports[0 := t] == map[0 := t]
    ensures forall p :: s.peers[0 := p] == map[0 := p]
  {
    assert 0 in s.ceiling.reports.Keys;
  }

  lemma After(from: Cluster, actions: seq<Action>, c: Cluster, a: Action, d: Cluster)
    requires Exec(SOLO, from, actions) == Some(c) && Enabled(SOLO, c, a) && Apply(SOLO, c, a) == d
    ensures Exec(SOLO, from, actions + [a]) == Some(d)
  {
    ExecMore(SOLO, from, actions, a);
  }

  const JOINED: Session := SoloSession(PeerReady, 0, 10, None, None)
  const JOINED_NODE: Node := Node(NodeStopped, SimView(false, false, None), 0, 0, 5, None)

  const UNJOINED: Session := JOINED.(peers := map[0 := AwaitingReady])

  lemma SoloInit()
    ensures Init(SOLO) == Cluster(true, UNJOINED, NothingDrained, map[0 := Link(FreshNode, [], [])])
  {
    SoloMaps(UNJOINED, Link(FreshNode, [], []));
    assert Init(SOLO).arb.peers == UNJOINED.peers && Init(SOLO).arb.ceiling == UNJOINED.ceiling;
  }

  /** The startup record is published. */
  lemma Join1(c0: Cluster, c1: Cluster)
    requires c0 == Cluster(true, UNJOINED, NothingDrained, map[0 := Link(FreshNode, [], [])])
    requires c1 == c0.(links := map[0 := Link(FreshNode, [StartupRecord(10, 5)], [])])
    ensures Enabled(SOLO, c0, PublishStartup) && Apply(SOLO, c0, PublishStartup) == c1
  {
    var none: seq<ControlToNode> := [];
    assert none + [StartupRecord(10, 5)] == [StartupRecord(10, 5)];
    assert Broadcast(c0.links, [StartupRecord(10, 5)]) == c1.links;
  }

  /** Startup record, answer, barrier. */
  lemma Join() returns (actions: seq<Action>)
    ensures Exec(SOLO, Init(SOLO), actions) == Some(Solo(JOINED, false, Link(JOINED_NODE, [], []))) && Uncapped(actions)
  {
    var c0 := Init(SOLO);
    SoloInit();
    var c1 := c0.(links := map[0 := Link(FreshNode, [StartupRecord(10, 5)], [])]);
    Join1(c0, c1);
    After(c0, [], c0, PublishStartup, c1);
    Join2([] + [PublishStartup], c1);
    actions := [] + [PublishStartup] + [Deliver(0, StepTimedOut)] + [CollectReady(0)] + [PassBarrier];
  }

  lemma Join2(actions: seq<Action>, c1: Cluster)
    requires Exec(SOLO, Init(SOLO), actions) == Some(c1)
    requires c1 == Cluster(true, JOINED.(peers := map[0 := AwaitingReady]), NothingDrained,
             map[0 := Link(FreshNode, [StartupRecord(10, 5)], [])])
    ensures Exec(SOLO, Init(SOLO), actions + [Deliver(0, StepTimedOut)] + [CollectReady(0)] + [PassBarrier])
            == Some(Solo(JOINED, false, Link(JOINED_NODE, [], [])))
  {
    var l2 := Link(JOINED_NODE, [], [Ready]);
    SoloMaps(c1.arb, c1.links[0]);
    assert LinkAfterDeliver(0, c1.links[0], StepTimedOut) == l2;
    var c2 := c1.(links := map[0 := l2]);
    After(Init(SOLO), actions, c1, Deliver(0, StepTimedOut), c2);
    SoloMaps(c2.arb, l2);
    var c3 := c2.(links := map[0 := l2.(outbox := [])], arb := JOINED);
    assert l2.outbox[1..] == [];
    assert AfterReady(c2, 0).links == c3.links && AfterReady(c2, 0).arb == JOINED;
    After(Init(SOLO), actions + [Deliver(0, StepTimedOut)], c2, CollectReady(0), c3);
    After(Init(SOLO), actions + [Deliver(0, StepTimedOut)] + [CollectReady(0)], c3, PassBarrier, c3.(barrier := false));
  }

  lemma DoCommand(from: Cluster, actions: seq<Action>, s: Session, l: Link, a: Action, s': Session, m: ControlToNode)
    returns (more: seq<Action>)
    requires Exec(SOLO, from, actions) == Some(Solo(s, false, l)) && l.inbox == []
    requires IsCommand(a) && CommandEffect(s, a) == Effect(s', [m])
    ensures Exec(SOLO, from, more) == Some(Solo(s', false, l.(inbox := [m])))
    ensures Uncapped(actions + [a]) ==> Uncapped(more)
  {
    var c := Solo(s, false, l);
    assert l.inbox + [m] == [m];
    assert Broadcast(c.links, [m]) == map[0 := l.(inbox := [m])];
    After(from, actions, c, a, Solo(s', false, l.(inbox := [m])));
    more := actions + [a];
  }

  lemma DoDeliver(from: Cluster, actions: seq<Action>, s: Session, l: Link, n: Node) returns (more: seq<Action>)
    requires Exec(SOLO, from, actions) == Some(Solo(s, false, l)) && |l.inbox| == 1
    requires AfterMessage(l.node, 0, l.inbox[0], StepTimedOut) == Reaction(n, [])
    ensures Exec(SOLO, from, more) == Some(Solo(s, false, Link(n, [], l.outbox)))
    ensures Internal(actions) ==> Internal(more)
    ensures Uncapped(actions) ==> Uncapped(more)
  {
    var c := Solo(s, false, l);
    assert l.inbox[1..] == [] && l.outbox + [] == l.outbox;
    assert c.links[0 := Link(n, [], l.outbox)] == map[0 := Link(n, [], l.outbox)];
    After(from, actions, c, Deliver(0, StepTimedOut), Solo(s, false, Link(n, [], l.outbox)));
    more := actions + [Deliver(0, StepTimedOut)];
  }

  lemma DoPoll(from: Cluster, actions: seq<Action>, s: Session, l: Link, t: u64, r: Reaction)
    returns (more: seq<Action>)
    requires Exec(SOLO, from, actions) == Some(Solo(s, false, l)) && l.outbox == []
    requires PollPossible(l.node, Quiet(t), 1) && AfterPoll(l.node, Quiet(t)) == r
    ensures Exec(SOLO, from, more) == Some(Solo(s, false, Link(r.node, l.inbox, r.sent)))
    ensures Internal(actions) ==> Internal(more)
    ensures Uncapped(actions) ==> Uncapped(more)
  {
    var c := Solo(s, false, l);
    assert l.outbox + r.sent == r.sent;
    assert c.links[0 := Link(r.node, l.inbox, r.sent)] == map[0 := Link(r.node, l.inbox, r.sent)];
    After(from, actions, c, PollGuest(0, Quiet(t)), Solo(s, false, Link(r.node, l.inbox, r.sent)));
    more := actions + [PollGuest(0, Quiet(t))];
  }

  /** First start: the board runs under the ceiling 10 and stands at 0. */
  lemma FirstStart() returns (actions: seq<Action>)
    ensures Exec(SOLO, Init(SOLO), actions) ==
            Some(Solo(SoloSession(PeerRunning, 0, 10, None, None), false, Link(SoloNode(true, 0, 10, None), [], [])))
    ensures Uncapped(actions)
  {
    actions := Join();
    var l := Link(JOINED_NODE, [], []);
    SoloMaps(JOINED, l);
    var s := SoloSession(PeerRunning, 0, 10, None, None);
    actions := DoCommand(Init(SOLO), actions, JOINED, l, CmdStart(None), s, Start(10));
    actions := DoDeliver(Init(SOLO), actions, s, l.(inbox := [Start(10)]), SoloNode(true, 0, 10, None));
  }

  const STOPPED: Session := SoloSession(PeerStopped, 0, 10, None, Some(ExternalStop))

  /** The board runs to 5, too far below its ceiling to report, and is stopped. */
  lemma StopUnreported() returns (actions: seq<Action>)
    ensures Exec(SOLO, Init(SOLO), actions) == Some(Solo(STOPPED, false, Link(SoloNode(false, 5, 10, None), [], [])))
  {
    actions := FirstStart();
    var s := SoloSession(PeerRunning, 0, 10, None, None);
    actions := DoPoll(Init(SOLO), actions, s, Link(SoloNode(true, 0, 10, None), [], []), 5,
        Reaction(SoloNode(true, 5, 10, None), []));
    var l := Link(SoloNode(true, 5, 10, None), [], []);
    SoloMaps(s, l);
    actions := DoCommand(Init(SOLO), actions, s, l, CmdStop, STOPPED, ClusterStop(ExternalStop));
    actions := DoDeliver(Init(SOLO), actions, STOPPED, l.(inbox := [ClusterStop(ExternalStop)]),
        SoloNode(false, 5, 10, None));
  }

  const CAPPED: Session := SoloSession(PeerRunning, 0, 3, Some(3), None)

  lemma StartBelowClock() returns (actions: seq<Action>)
    ensures Exec(SOLO, Init(SOLO), actions) == Some(Solo(CAPPED, false, Link(SoloNode(true, 5, 3, None), [], [])))
  {
    actions := StopUnreported();
    var l := Link(SoloNode(false, 5, 10, None), [], []);
    SoloMaps(STOPPED, l);
    actions := DoCommand(Init(SOLO), actions, STOPPED, l, CmdStart(Some(3)), CAPPED, Start(3));
    actions := DoDeliver(Init(SOLO), actions, CAPPED, l.(inbox := [Start(3)]), SoloNode(true, 5, 3, None));
  }

  /** Stopping at 5, unreported, and starting again with `until = 3`: the session runs, the
      board is parked above its ceiling and nothing will ever happen. */
  lemma CappedStartCanDeadlock()
    ensures exists actions ::
              Exec(SOLO, Init(SOLO), actions).Some? && Deadlocked(SOLO, Exec(SOLO, Init(SOLO), actions).value)
  {
    var actions := StartBelowClock();
    var c := Solo(CAPPED, false, Link(SoloNode(true, 5, 3, None), [], []));
    SoloMaps(CAPPED, c.links[0]);
    assert Parked(c.links[0]);
    StuckIffStaleReport(SOLO, actions);
  }

  lemma DoCollect(from: Cluster, actions: seq<Action>, s: Session, l: Link, t: u64) returns (more: seq<Action>)
    requires Exec(SOLO, from, actions) == Some(Solo(s, false, l)) && l.outbox == [TimeReport(t)]
    requires s.peers == map[0 := PeerRunning] && s.ceiling.reports.Keys == {0}
    ensures Exec(SOLO, from, more) ==
            Some(Solo(s.(ceiling := s.ceiling.(reports := map[0 := t])), true, l.(outbox := [])))
    ensures Internal(actions) ==> Internal(more)
    ensures Uncapped(actions) ==> Uncapped(more)
  {
    var c := Solo(s, false, l);
    SoloMaps(s, l);
    var d := Solo(s.(ceiling := s.ceiling.(reports := map[0 := t])), true, l.(outbox := []));
    assert l.outbox[1..] == [];
    assert AfterCollect(c, 0).links == d.links && AfterCollect(c, 0).arb.peers == s.peers;
    After(from, actions, c, CollectFrom(0), d);
    more := actions + [CollectFrom(0)];
  }

  lemma DoFinish(from: Cluster, actions: seq<Action>, s: Session, l: Link, s': Session, m: ControlToNode)
    returns (more: seq<Action>)
    requires Exec(SOLO, from, actions) == Some(Solo(s, true, l)) && l.inbox == []
    requires Finish(s, Drained(true, None, None)) == Effect(s', [m])
    ensures Exec(SOLO, from, more) == Some(Solo(s', false, l.(inbox := [m])))
    ensures Internal(actions) ==> Internal(more)
    ensures Uncapped(actions) ==> Uncapped(more)
  {
    var c := Solo(s, true, l);
    assert l.inbox + [m] == [m];
    assert Broadcast(c.links, [m]) == map[0 := l.(inbox := [m])];
    After(from, actions, c, FinishRound, Solo(s', false, l.(inbox := [m])));
    more := actions + [FinishRound];
  }

  /** Starting with `until = 5` while the board may still run up to 10: every clock is at 0 when
      the start is accepted, yet the arbiter stops for the cap with the clock at 9. */
  lemma CappedStartCanOverrun() returns (actions: seq<Action>, more: seq<Action>, c: Cluster, d: Cluster)
    ensures Exec(SOLO, Init(SOLO), actions) == Some(c) && RunsCapped(c, 5)
    ensures 0 in c.links && c.links[0].node.clock == 0
    ensures Internal(more) && Exec(SOLO, c, more) == Some(d)
    ensures d.arb.lastStop == Some(Until) && 0 in d.links && d.links[0].node.clock == 9
  {
    actions := FirstStart();
    var s := SoloSession(PeerRunning, 0, 10, None, None);
    var l := Link(SoloNode(true, 0, 10, None), [], []);
    SoloMaps(s, l);
    var capped := SoloSession(PeerRunning, 0, 5, Some(5), None);
    actions := DoCommand(Init(SOLO), actions, s, l, CmdStart(Some(5)), capped, Start(5));
    l := l.(inbox := [Start(5)]);
    c := Solo(capped, false, l);
    more, d := Overrun5(c, capped, l);
  }

  lemma Overrun5(c: Cluster, s: Session, l: Link) returns (more: seq<Action>, d: Cluster)
    requires s == SoloSession(PeerRunning, 0, 5, Some(5), None)
    requires l == Link(SoloNode(true, 0, 10, None), [Start(5)], []) && c == Solo(s, false, l)
    ensures Internal(more) && Exec(SOLO, c, more) == Some(d)
    ensures d.arb.lastStop == Some(Until) && 0 in d.links && d.links[0].node.clock == 9
  {
    more := DoPoll(c, [], s, l, 9, Reaction(SoloNode(true, 9, 10, Some(9)), [TimeReport(9)]));
    more := DoDeliver(c, more, s, Link(SoloNode(true, 9, 10, Some(9)), [Start(5)], [TimeReport(9)]),
        SoloNode(true, 9, 5, Some(9)));
    var l' := Link(SoloNode(true, 9, 5, Some(9)), [], [TimeReport(9)]);
    more := DoCollect(c, more, s, l', 9);
    var seen := SoloSession(PeerRunning, 9, 5, Some(5), None);
    SoloMaps(seen, l');
    var stopped := SoloSession(PeerStopped, 9, 5, None, Some(Until));
    more := DoFinish(c, more, seen, l'.(outbox := []), stopped, ClusterStop(Until));
    d := Solo(stopped, false, Link(SoloNode(true, 9, 5, Some(9)), [ClusterStop(Until)], []));
  }

  // ---- a Reset behind a late report ----

  const AHEAD: Session := SoloSession(PeerRunning, 6, 16, None, None)

  const RESET_SENT: seq<ControlToNode> := [ClusterStop(ExternalStop), Reset, Start(26)]

  /** The board has reported 6, has not read its new ceiling 16 yet, and has just reported 7. */
  lemma ReportTwice() returns (actions: seq<Action>)
    ensures Exec(SOLO, Init(SOLO), actions) ==
            Some(Solo(AHEAD, false, Link(SoloNode(true, 7, 10, Some(7)), [Allowed(16)], [TimeReport(7)])))
    ensures Uncapped(actions)
  {
    actions := FirstStart();
    var s, l := SoloSession(PeerRunning, 0, 10, None, None), Link(SoloNode(true, 0, 10, None), [], []);
    actions := DoPoll(Init(SOLO), actions, s, l, 6, Reaction(SoloNode(true, 6, 10, Some(6)), [TimeReport(6)]));
    l := Link(SoloNode(true, 6, 10, Some(6)), [], [TimeReport(6)]);
    actions := DoCollect(Init(SOLO), actions, s, l, 6);
    var seen := SoloSession(PeerRunning, 6, 10, None, None);
    SoloMaps(seen, l);
    l := l.(outbox := []);
    actions := DoFinish(Init(SOLO), actions, seen, l, AHEAD, Allowed(16));
    l := l.(inbox := [Allowed(16)]);
    actions := DoPoll(Init(SOLO), actions, AHEAD, l, 7, Reaction(SoloNode(true, 7, 10, Some(7)), [TimeReport(7)]));
  }

  lemma ResetBehindReport() returns (actions: seq<Action>)
    ensures Exec(SOLO, Init(SOLO), actions) ==
            Some(Solo(SoloSession(PeerRunning, 16, 26, None, None), false,
                      Link(SoloNode(true, 7, 10, Some(7)), [Allowed(16)] + RESET_SENT, [TimeReport(7)])))
    ensures Uncapped(actions)
  {
    var init := ReportTwice();
    var l := Link(SoloNode(true, 7, 10, Some(7)), [Allowed(16)], [TimeReport(7)]);
    var s, c := SoloSession(PeerRunning, 16, 26, None, None), Solo(AHEAD, false, l);
    SoloMaps(AHEAD, l);
    SoloMaps(s, l);
    assert AHEAD.ceiling.AdvancedTo(16).reports == s.ceiling.reports;
    assert AllStarted(AllStopped(AHEAD.peers)) == s.peers;
    assert ApplyReset(AHEAD) == Effect(s, RESET_SENT);
    After(Init(SOLO), init, c, CmdReset, Solo(s, false, l.(inbox := l.inbox + RESET_SENT)));
    actions := init + [CmdReset];
  }

  /** One Reset while a report is on its way, and no cap anywhere: the Reset lifts the report of
      the board to 16, the late report takes it back to 7, and meanwhile the board is allowed to run
      to 26. The cluster gets stuck. */
  lemma ResetCanDeadlock() returns (actions: seq<Action>, more: seq<Action>, c: Cluster)
    ensures Exec(SOLO, Init(SOLO), actions) == Some(c) && Uncapped(actions) && c.arb.untilCap.None?
    ensures Sticks(SOLO, c, more)
  {
    actions := ResetBehindReport();
    c := Exec(SOLO, Init(SOLO), actions).value;
    FactsAlongRun(SOLO, actions);
    var sent := [TimeReport(7)];
    SentShort(16, sent);
    assert c.links[0].outbox == sent;
    assert PulledBack(SOLO, c.links[0], 16, U64_MAX);
    assert Prone(SOLO, 0, c.links[0], c.arb.ceiling.reports[0], Limit(c.arb));
    assert !StopIn(sent);
    more := ProneSticks(SOLO, c);
  }
}
