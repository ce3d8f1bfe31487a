/** Two runs of a two-board cluster. In one the arbiter stops for the cap while one board has not
    moved at all: a Reset has lifted its report, and a late report has pulled the other one back
    below the cap. In the other a gdb step leaves the cluster stuck, as the board that is not
    stepped stands ahead and has not reported it. */
module PairScenarios {
  import opened Prelude
  import opened Control
  import opened Lifecycle
  import opened TimeSync
  import opened Arbiter
  import opened BoardRuntime
  import opened Protocol
  import opened Reach
  import opened ExactStop
  import opened StopCondition
  import opened StopRuns
  import opened Sticking
  import opened Openings
  import Scenarios

  const PAIR := Config({0, 1}, 10, 5, 1)

  function Two<T>(x: T, y: T): map<BoardId, T> {
    map[0 := x, 1 := y]
  }

  function Pair(s: Session, changed: bool, l0: Link, l1: Link): Cluster {
    Cluster(false, s, Drained(changed, None, None), Two(l0, l1))
  }

  function PairSession(peer: PeerState, r0: u64, r1: u64, allowed: u64, until: Option<u64>,
                       last: Option<HostStopReason>): Session {
    Session(Two(peer, peer), Ceiling(10, Two(r0, r1)), allowed, until, peer.PeerRunning?, None, last)
  }

  lemma After(actions: seq<Action>, c: Cluster, a: Action, d: Cluster)
    requires Exec(PAIR, Init(PAIR), actions) == Some(c) && Enabled(PAIR, c, a) && Apply(PAIR, c, a) == d
    ensures Exec(PAIR, Init(PAIR), actions + [a]) == Some(d)
  {
    ExecMore(PAIR, Init(PAIR), actions, a);
  }

  lemma SlowerOfTwo(r0: u64, r1: u64)
    ensures Ceiling(10, Two(r0, r1)).VirtualTimeNs() == Min(r0, r1)
  {
    var c := Ceiling(10, Two(r0, r1));
    assert 0 in c.reports && c.reports[0] == r0 && 1 in c.reports && c.reports[1] == r1;
    assert forall b | b in c.reports :: b == 0 || b == 1;
  }

  lemma Command(actions: seq<Action>, s: Session, l0: Link, l1: Link, a: Action, s': Session, sent: seq<ControlToNode>)
    returns (more: seq<Action>)
    requires Exec(PAIR, Init(PAIR), actions) == Some(Pair(s, false, l0, l1))
    requires IsCommand(a) && CommandEffect(s, a) == Effect(s', sent)
    ensures Exec(PAIR, Init(PAIR), more) ==
            Some(Pair(s', false, l0.(inbox := l0.inbox + sent), l1.(inbox := l1.inbox + sent)))
    ensures Scenarios.Uncapped(actions + [a]) ==> Scenarios.Uncapped(more)
  {
    var d := Pair(s', false, l0.(inbox := l0.inbox + sent), l1.(inbox := l1.inbox + sent));
    assert Broadcast(Two(l0, l1), sent) == d.links;
    After(actions, Pair(s, false, l0, l1), a, d);
    more := actions + [a];
  }

  /** Board `b` becomes `l'` by its own steps. */
  lemma NodeSteps(actions: seq<Action>, c: Cluster, b: BoardId, l': Link, d: Cluster) returns (more: seq<Action>)
    requires Exec(PAIR, Init(PAIR), actions) == Some(c) && b in c.links && Becomes(PAIR, b, c.links[b], l')
    requires d.links == c.links[b := l'] && d == c.(links := d.links)
    ensures Exec(PAIR, Init(PAIR), more) == Some(d)
    ensures Scenarios.Uncapped(actions) ==> Scenarios.Uncapped(more)
  {
    var run := BecomesByRun(PAIR, c, b, l');
    ExecAppend(PAIR, Init(PAIR), actions, run);
    more := actions + run;
  }

  // ---- the barrier ----

  const JOINED: Node := Node(NodeStopped, SimView(false, false, None), 0, 0, 5, None)

  function Greeting(peers: Peers, l0: Link, l1: Link): Cluster {
    Cluster(true, Session(peers, Ceiling(10, Two(0, 0)), 10, None, false, None, None), NothingDrained, Two(l0, l1))
  }

  lemma Publish() returns (actions: seq<Action>)
    ensures var l := Link(FreshNode, [StartupRecord(10, 5)], []);
            Exec(PAIR, Init(PAIR), actions) == Some(Greeting(Two(AwaitingReady, AwaitingReady), l, l))
    ensures Scenarios.Uncapped(actions)
  {
    SlowerOfTwo(0, 0);
    var blank, l := Link(FreshNode, [], []), Link(FreshNode, [StartupRecord(10, 5)], []);
    var c0 := Greeting(Two(AwaitingReady, AwaitingReady), blank, blank);
    assert Init(PAIR).arb.peers == c0.arb.peers && Init(PAIR).arb.ceiling == c0.arb.ceiling &&
        Init(PAIR).links == c0.links;
    assert Init(PAIR) == c0;
    var d := Greeting(Two(AwaitingReady, AwaitingReady), l, l);
    assert blank.inbox + [StartupRecord(10, 5)] == l.inbox;
    assert Broadcast(c0.links, [StartupRecord(10, 5)]) == d.links;
    After([], c0, PublishStartup, d);
    actions := [] + [PublishStartup];
  }

  /** A board answers the startup record and the answer is collected. */
  lemma JoinBoard(actions: seq<Action>, c: Cluster, b: BoardId, d: Cluster) returns (more: seq<Action>)
    requires Exec(PAIR, Init(PAIR), actions) == Some(c) && c.barrier && b in c.links && b in c.arb.peers
    requires c.links[b] == Link(FreshNode, [StartupRecord(10, 5)], []) && c.arb.peers[b].AwaitingReady?
    requires d == c.(arb := c.arb.(peers := c.arb.peers[b := PeerReady]), links := c.links[b := Link(JOINED, [], [])])
    ensures Exec(PAIR, Init(PAIR), more) == Some(d)
    ensures Scenarios.Uncapped(actions) ==> Scenarios.Uncapped(more)
  {
    var l1 := Link(JOINED, [], [Ready]);
    assert LinkAfterDeliver(b, c.links[b], StepTimedOut) == l1;
    var c1 := c.(links := c.links[b := l1]);
    After(actions, c, Deliver(b, StepTimedOut), c1);
    assert l1.outbox[1..] == [];
    assert c1.links[b := Link(JOINED, [], [])] == d.links;
    After(actions + [Deliver(b, StepTimedOut)], c1, CollectReady(b), d);
    more := actions + [Deliver(b, StepTimedOut)] + [CollectReady(b)];
  }

  lemma JoinBoth() returns (actions: seq<Action>)
    ensures var l := Link(JOINED, [], []);
            Exec(PAIR, Init(PAIR), actions) == Some(Pair(PairSession(PeerReady, 0, 0, 10, None, None), false, l, l))
    ensures Scenarios.Uncapped(actions)
  {
    actions := Publish();
    var l, j := Link(FreshNode, [StartupRecord(10, 5)], []), Link(JOINED, [], []);
    var c0 := Greeting(Two(AwaitingReady, AwaitingReady), l, l);
    var c1 := Greeting(Two(PeerReady, AwaitingReady), j, l);
    assert c0.arb.peers[0 := PeerReady] == c1.arb.peers && c0.links[0 := j] == c1.links;
    actions := JoinBoard(actions, c0, 0, c1);
    var c2 := Greeting(Two(PeerReady, PeerReady), j, j);
    assert c1.arb.peers[1 := PeerReady] == c2.arb.peers && c1.links[1 := j] == c2.links;
    actions := JoinBoard(actions, c1, 1, c2);
    After(actions, c2, PassBarrier, c2.(barrier := false));
    actions := actions + [PassBarrier];
  }

  // ---- started, and one board runs to 6 ----

  function Running(clock: u64, allowed: u64, last: Option<u64>): Node {
    Node(NodeRunning, SimView(true, false, Some(allowed)), clock, allowed, 5, last)
  }

  function Stopped(clock: u64, allowed: u64, last: Option<u64>): Node {
    Node(NodeStopped, SimView(false, false, Some(allowed)), clock, allowed, 5, last)
  }

  const STARTED: Session := PairSession(PeerRunning, 0, 0, 10, None, None)

  lemma ReadStart(b: BoardId)
    ensures Becomes(PAIR, b, Link(JOINED, [Start(10)], []), Link(Running(0, 10, None), [], []))
  {
    var l, l' := Link(JOINED, [Start(10)], []), Link(Running(0, 10, None), [], []);
    assert Moved(PAIR, b, l, Read(StepTimedOut)) == l';
    BecomesItself(PAIR, b, l');
    BecomesNext(PAIR, b, l, Read(StepTimedOut), l');
  }

  lemma RunTo6(b: BoardId)
    ensures Becomes(PAIR, b, Link(JOINED, [Start(10)], []), Link(Running(6, 10, Some(6)), [], [TimeReport(6)]))
  {
    var l, l' := Link(Running(0, 10, None), [], []), Link(Running(6, 10, Some(6)), [], [TimeReport(6)]);
    ReadStart(b);
    assert Moved(PAIR, b, l, Turn(Quiet(6))) == l';
    BecomesItself(PAIR, b, l');
    BecomesNext(PAIR, b, l, Turn(Quiet(6)), l');
    BecomesThen(PAIR, b, Link(JOINED, [Start(10)], []), l, l');
  }

  /** Both boards have been told to start; board 0 runs and stands at 0. */
  lemma StartPair() returns (actions: seq<Action>)
    ensures Exec(PAIR, Init(PAIR), actions) ==
            Some(Pair(STARTED, false, Link(Running(0, 10, None), [], []), Link(JOINED, [Start(10)], [])))
    ensures Scenarios.Uncapped(actions)
  {
    actions := JoinBoth();
    SlowerOfTwo(0, 0);
    var j, s := Link(JOINED, [], []), PairSession(PeerReady, 0, 0, 10, None, None);
    assert AllStarted(s.peers) == STARTED.peers;
    assert CommandEffect(s, CmdStart(None)) == Effect(STARTED, [Start(10)]);
    actions := Command(actions, s, j, j, CmdStart(None), STARTED, [Start(10)]);
    var l, r0 := Link(JOINED, [Start(10)], []), Link(Running(0, 10, None), [], []);
    assert j.inbox + [Start(10)] == l.inbox;
    ReadStart(0);
    assert Two(l, l)[0 := r0] == Two(r0, l);
    actions := NodeSteps(actions, Pair(STARTED, false, l, l), 0, r0, Pair(STARTED, false, r0, l));
  }

  lemma StartBoth() returns (actions: seq<Action>)
    ensures Exec(PAIR, Init(PAIR), actions) ==
            Some(Pair(STARTED, false, Link(Running(0, 10, None), [], []),
                      Link(Running(6, 10, Some(6)), [], [TimeReport(6)])))
  {
    actions := StartPair();
    var l, r0 := Link(JOINED, [Start(10)], []), Link(Running(0, 10, None), [], []);
    var r1 := Link(Running(6, 10, Some(6)), [], [TimeReport(6)]);
    assert Two(r0, l)[1 := r1] == Two(r0, r1);
    RunTo6(1);
    actions := NodeSteps(actions, Pair(STARTED, false, r0, l), 1, r1, Pair(STARTED, false, r0, r1));
  }

  // ---- the Reset lifts both reports, the late one falls back ----

  const RESET_SENT: seq<ControlToNode> := [ClusterStop(ExternalStop), Reset, Start(20)]

  const LIFTED: Session := PairSession(PeerRunning, 10, 10, 20, None, None)

  const FALLEN: Session := PairSession(PeerRunning, 10, 6, 20, None, None)

  const LOWERED: Session := PairSession(PeerRunning, 10, 6, 16, None, None)

  lemma ResetBoth() returns (actions: seq<Action>)
    ensures Exec(PAIR, Init(PAIR), actions) ==
            Some(Pair(LIFTED, false, Link(Running(0, 10, None), RESET_SENT, []),
                Link(Running(6, 10, Some(6)), RESET_SENT, [TimeReport(6)])))
  {
    actions := StartBoth();
    SlowerOfTwo(0, 0);
    SlowerOfTwo(10, 10);
    var r0, r1 := Link(Running(0, 10, None), [], []), Link(Running(6, 10, Some(6)), [], [TimeReport(6)]);
    assert AllStarted(AllStopped(STARTED.peers)) == LIFTED.peers;
    assert STARTED.ceiling.AdvancedTo(10) == LIFTED.ceiling;
    assert CommandEffect(STARTED, CmdReset) == Effect(LIFTED, RESET_SENT);
    actions := Command(actions, STARTED, r0, r1, CmdReset, LIFTED, RESET_SENT);
    assert r0.inbox + RESET_SENT == RESET_SENT && r1.inbox + RESET_SENT == RESET_SENT;
  }

  lemma LateReport() returns (actions: seq<Action>)
    ensures var inbox := RESET_SENT + [Allowed(16)];
            Exec(PAIR, Init(PAIR), actions) ==
            Some(Pair(LOWERED, false, Link(Running(0, 10, None), inbox, []), Link(Running(6, 10, Some(6)), inbox, [])))
  {
    actions := ResetBoth();
    var inbox := RESET_SENT + [Allowed(16)];
    var r0, r1 := Link(Running(0, 10, None), RESET_SENT, []),
        Link(Running(6, 10, Some(6)), RESET_SENT, [TimeReport(6)]);
    var c := Pair(LIFTED, false, r0, r1);
    var d := Pair(FALLEN, true, r0, r1.(outbox := []));
    assert r1.outbox[1..] == [];
    assert LIFTED.peers[1 := PeerRunning] == FALLEN.peers && LIFTED.ceiling.reports[1 := 6] == FALLEN.ceiling.reports;
    assert c.links[1 := r1.(outbox := [])] == d.links;
    After(actions, c, CollectFrom(1), d);
    SlowerOfTwo(10, 6);
    assert Finish(FALLEN, d.drained) == Effect(LOWERED, [Allowed(16)]);
    var e := Pair(LOWERED, false, r0.(inbox := inbox), r1.(inbox := inbox, outbox := []));
    assert Broadcast(d.links, [Allowed(16)]) == e.links;
    After(actions + [CollectFrom(1)], d, FinishRound, e);
    actions := actions + [CollectFrom(1)] + [FinishRound];
  }

  // ---- stopped, everything read, and started again with the cap 8 ----

  const HALTED: Session := PairSession(PeerStopped, 10, 6, 16, None, Some(ExternalStop))

  const CAPPED: Session := PairSession(PeerRunning, 10, 6, 8, Some(8), None)

  const UNREAD: seq<ControlToNode> := RESET_SENT + [Allowed(16)] + [ClusterStop(ExternalStop)]

  lemma ReadOn(b: BoardId, n: Node, inbox: seq<ControlToNode>, n': Node, l': Link)
    requires inbox != [] && !inbox[0].GdbStep?
    requires AfterMessage(n, b, inbox[0], StepTimedOut) == Reaction(n', []) &&
             Becomes(PAIR, b, Link(n', inbox[1..], []), l')
    ensures Becomes(PAIR, b, Link(n, inbox, []), l')
  {
    var none: seq<ControlToArbiter> := [];
    assert none + [] == none;
    BecomesNext(PAIR, b, Link(n, inbox, []), Read(StepTimedOut), l');
  }

  /** The queue is read without running; the Reset makes the node forget its last report. */
  lemma ReadQueue(b: BoardId, clock: u64, last: Option<u64>)
    ensures Becomes(PAIR, b, Link(Running(clock, 10, last), UNREAD, []), Link(Stopped(clock, 16, None), [], []))
  {
    var l' := Link(Stopped(clock, 16, None), [], []);
    var q1, q2, q3, q4 := UNREAD[1..], UNREAD[2..], UNREAD[3..], UNREAD[4..];
    assert q1[1..] == q2 && q2[1..] == q3 && q3[1..] == q4 && q4[1..] == [];
    BecomesItself(PAIR, b, l');
    ReadOn(b, Running(clock, 16, None), q4, Stopped(clock, 16, None), l');
    ReadOn(b, Running(clock, 20, None), q3, Running(clock, 16, None), l');
    ReadOn(b, Stopped(clock, 10, None), q2, Running(clock, 20, None), l');
    ReadOn(b, Stopped(clock, 10, last), q1, Stopped(clock, 10, None), l');
    ReadOn(b, Running(clock, 10, last), UNREAD, Stopped(clock, 10, last), l');
  }

  lemma StopBoth() returns (actions: seq<Action>)
    ensures Exec(PAIR, Init(PAIR), actions) ==
            Some(Pair(HALTED, false, Link(Stopped(0, 16, None), [], []), Link(Stopped(6, 16, None), [], [])))
  {
    actions := LateReport();
    var inbox := RESET_SENT + [Allowed(16)];
    var r0, r1 := Link(Running(0, 10, None), inbox, []), Link(Running(6, 10, Some(6)), inbox, []);
    assert AllStopped(LOWERED.peers) == HALTED.peers;
    actions := Command(actions, LOWERED, r0, r1, CmdStop, HALTED, [ClusterStop(ExternalStop)]);
    r0, r1 := r0.(inbox := UNREAD), r1.(inbox := UNREAD);
    var s0, s1 := Link(Stopped(0, 16, None), [], []), Link(Stopped(6, 16, None), [], []);
    ReadQueue(0, 0, None);
    ReadQueue(1, 6, Some(6));
    assert Two(r0, r1)[0 := s0] == Two(s0, r1) && Two(s0, r1)[1 := s1] == Two(s0, s1);
    actions := NodeSteps(actions, Pair(HALTED, false, r0, r1), 0, s0, Pair(HALTED, false, s0, r1));
    actions := NodeSteps(actions, Pair(HALTED, false, s0, r1), 1, s1, Pair(HALTED, false, s0, s1));
  }

  lemma StartCapped() returns (actions: seq<Action>)
    ensures Exec(PAIR, Init(PAIR), actions) ==
            Some(Pair(CAPPED, false, Link(Stopped(0, 16, None), [Start(8)], []),
                Link(Stopped(6, 16, None), [Start(8)], [])))
  {
    actions := StopBoth();
    SlowerOfTwo(10, 6);
    var s0, s1 := Link(Stopped(0, 16, None), [], []), Link(Stopped(6, 16, None), [], []);
    assert AllStarted(HALTED.peers) == CAPPED.peers;
    actions := Command(actions, HALTED, s0, s1, CmdStart(Some(8)), CAPPED, [Start(8)]);
    assert s0.inbox + [Start(8)] == [Start(8)] && s1.inbox + [Start(8)] == [Start(8)];
  }

  lemma UnderCap(b: BoardId, clock: u64, report: u64)
    requires clock < 8
    ensures var l := Link(Stopped(clock, 16, None), [Start(8)], []);
            ReachOf(PAIR, b, l) <= 8 && CanTell(PAIR, b, l, report, 8)
  {
    var l := Link(Stopped(clock, 16, None), [Start(8)], []);
    var p := Take(ProspectOf(l.node), b, Start(8), 1);
    assert l.inbox[1..] == [] && p == Take(ProspectOf(l.node), b, Start(8), 0);
    assert Ahead(p, b, [], 1) == Idle(p);
    assert FirstReport(p, b, [], 8, 1).Some?;
  }

  lemma CappedPair(c: Cluster)
    requires c == Pair(CAPPED, false, Link(Stopped(0, 16, None), [Start(8)], []),
             Link(Stopped(6, 16, None), [Start(8)], []))
    ensures RunsCapped(c, 8) && NoneCanPass(PAIR, c, 8) && AllTell(PAIR, c, 8)
    ensures c.links[0].node.clock == 0 && c.links[1].node.clock == 6 && c.arb.ceiling.reports[0] == 10
  {
    UnderCap(0, 0, 10);
    UnderCap(1, 6, 6);
    assert forall b | b in c.links :: b == 0 || b == 1;
  }

  lemma DriveOut(c: Cluster) returns (more: seq<Action>, d: Cluster)
    requires DrivenTo(PAIR, c, 8) && AllTell(PAIR, c, 8) && 0 in c.links && c.arb.ceiling.reports[0] == 10
    ensures Internal(more) && Exec(PAIR, c, more) == Some(d)
    ensures d.arb.lastStop == Some(Until) && 0 in d.links && d.links[0].node == c.links[0].node
  {
    more, d := StopRuns.DriveOut(PAIR, c, 8);
  }

  /** Every clock is below the cap 8 when the start is accepted, and no board can pass it; yet
      the arbiter stops for the cap with board 0 still at 0. */
  lemma LiftedReportStopsEarly() returns (actions: seq<Action>, more: seq<Action>, c: Cluster, d: Cluster)
    ensures Exec(PAIR, Init(PAIR), actions) == Some(c) && RunsCapped(c, 8) && NoneCanPass(PAIR, c, 8)
    ensures 0 in c.links && 1 in c.links && c.links[0].node.clock == 0 && c.links[1].node.clock == 6
    ensures Internal(more) && Exec(PAIR, c, more) == Some(d)
    ensures d.arb.lastStop == Some(Until) && 0 in d.links && d.links[0].node.clock == 0
  {
    actions := StartCapped();
    c := Exec(PAIR, Init(PAIR), actions).value;
    CappedPair(c);
    StartsDriving(PAIR, actions, 8);
    more, d := DriveOut(c);
  }

  // ---- one board is stepped while the other stands ahead unheard ----

  lemma RunTo5(b: BoardId)
    ensures Becomes(PAIR, b, Link(JOINED, [Start(10)], []), Link(Running(5, 10, None), [], []))
  {
    var l, l' := Link(Running(0, 10, None), [], []), Link(Running(5, 10, None), [], []);
    ReadStart(b);
    assert Moved(PAIR, b, l, Turn(Quiet(5))) == l';
    BecomesItself(PAIR, b, l');
    BecomesNext(PAIR, b, l, Turn(Quiet(5)), l');
    BecomesThen(PAIR, b, Link(JOINED, [Start(10)], []), l, l');
  }

  lemma ReadStop(b: BoardId, clock: u64)
    ensures Becomes(PAIR, b, Link(Running(clock, 10, None), [ClusterStop(ExternalStop)], []),
                    Link(Stopped(clock, 10, None), [], []))
  {
    var l' := Link(Stopped(clock, 10, None), [], []);
    assert [ClusterStop(ExternalStop)][1..] == [];
    BecomesItself(PAIR, b, l');
    ReadOn(b, Running(clock, 10, None), [ClusterStop(ExternalStop)], Stopped(clock, 10, None), l');
  }

  const RESTING: Session := PairSession(PeerStopped, 0, 0, 10, None, Some(ExternalStop))

  /** Board 1 runs to 5, too far below its ceiling to report, and the cluster is told to stop. */
  lemma RunUnreported() returns (actions: seq<Action>)
    ensures var stop := [ClusterStop(ExternalStop)];
            Exec(PAIR, Init(PAIR), actions) ==
            Some(Pair(RESTING, false, Link(Running(0, 10, None), stop, []), Link(Running(5, 10, None), stop, [])))
    ensures Scenarios.Uncapped(actions)
  {
    actions := StartPair();
    var stop := [ClusterStop(ExternalStop)];
    var l, r0, r1 := Link(JOINED, [Start(10)], []), Link(Running(0, 10, None), [], []),
        Link(Running(5, 10, None), [], []);
    assert Two(r0, l)[1 := r1] == Two(r0, r1);
    RunTo5(1);
    actions := NodeSteps(actions, Pair(STARTED, false, r0, l), 1, r1, Pair(STARTED, false, r0, r1));
    assert AllStopped(STARTED.peers) == RESTING.peers;
    actions := Command(actions, STARTED, r0, r1, CmdStop, RESTING, stop);
    assert r0.inbox + stop == stop && r1.inbox + stop == stop;
  }

  lemma StopUnreported() returns (actions: seq<Action>)
    ensures Exec(PAIR, Init(PAIR), actions) ==
            Some(Pair(RESTING, false, Link(Stopped(0, 10, None), [], []), Link(Stopped(5, 10, None), [], [])))
    ensures Scenarios.Uncapped(actions)
  {
    actions := RunUnreported();
    var stop := [ClusterStop(ExternalStop)];
    var r0, r1 := Link(Running(0, 10, None), stop, []), Link(Running(5, 10, None), stop, []);
    var s0, s1 := Link(Stopped(0, 10, None), [], []), Link(Stopped(5, 10, None), [], []);
    ReadStop(0, 0);
    ReadStop(1, 5);
    assert Two(r0, r1)[0 := s0] == Two(s0, r1) && Two(s0, r1)[1 := s1] == Two(s0, s1);
    actions := NodeSteps(actions, Pair(RESTING, false, r0, r1), 0, s0, Pair(RESTING, false, s0, r1));
    actions := NodeSteps(actions, Pair(RESTING, false, s0, r1), 1, s1, Pair(RESTING, false, s0, s1));
  }

  /** Board 0 is stepped from 0 to 1 while board 1 stands at 5 and was last heard of at 0; there is
      no capped start and no Reset. The session that lets board 1 catch up gets stuck. */
  lemma StepCanDeadlock() returns (actions: seq<Action>, more: seq<Action>, c: Cluster, d: Cluster)
    ensures Exec(PAIR, Init(PAIR), actions) == Some(c) && Scenarios.Uncapped(actions) && AtRest(c)
    ensures 0 in c.links && 1 in c.links && c.links[0].node.clock == 0 && c.links[1].node.clock == 5
    ensures Exec(PAIR, c, StepOf(0, 1, Step)) == Some(d) && Sticks(PAIR, d, more)
  {
    actions := StopUnreported();
    c := Exec(PAIR, Init(PAIR), actions).value;
    StepSticksIffLate(PAIR, actions, 0, 1, Step);
    assert Late(PAIR, c.links[1].node.clock, c.arb.ceiling.reports[1], 1);
    assert OtherLate(PAIR, c, 0, 1);
    d := Exec(PAIR, c, StepOf(0, 1, Step)).value;
    more :| Sticks(PAIR, d, more);
  }
}
