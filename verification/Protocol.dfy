/** The cluster as a transition system: one arbiter, one node per board, and a lossless FIFO
    queue in each direction on every link. Every action is one atomic step; runs interleave
    them freely. */
module Protocol {
  import opened Prelude
  import opened Control
  import opened Lifecycle
  import opened TimeSync
  import opened Arbiter
  import opened BoardRuntime

  /** Topology constants; `stepBound` is the most one gdb step moves a clock. */
  datatype Config = Config(boards: set<BoardId>, marginNs: u64, thresholdNs: u64, stepBound: u64) {
    predicate Valid() { boards != {} }
  }

  /** A node with the messages travelling to it and from it. */
  datatype Link = Link(node: Node, inbox: seq<ControlToNode>, outbox: seq<ControlToArbiter>)

  datatype Cluster = Cluster(barrier: bool, arb: Session, drained: Drained, links: map<BoardId, Link>)

  datatype Action =
    | PublishStartup
    | CollectReady(board: BoardId)
    | PassBarrier
    | CmdStart(until: Option<u64>)
    | CmdStop
    | CmdReset
    | CmdStep(board: BoardId)
    | CmdWatch(board: BoardId)
    | CollectFrom(board: BoardId)
    | FinishRound
    | Deliver(board: BoardId, step: StepOutcome)
    | PollGuest(board: BoardId, poll: PollOutcome)

  /** Requests of the host; everything else happens on its own. */
  predicate IsCommand(a: Action) {
    a.CmdStart? || a.CmdStop? || a.CmdReset? || a.CmdStep? || a.CmdWatch?
  }

  ghost function Init(cfg: Config): Cluster {
    var ceiling := Ceiling(cfg.marginNs, map b | b in cfg.boards :: 0);
    Cluster(
      true,
      OpenSession(map b | b in cfg.boards :: AwaitingReady, ceiling, ceiling.AllowedNs()),
      NothingDrained,
      map b | b in cfg.boards :: Link(FreshNode, [], []))
  }

  function Broadcast(links: map<BoardId, Link>, sent: seq<ControlToNode>): map<BoardId, Link> {
    map b | b in links :: links[b].(inbox := links[b].inbox + sent)
  }

  function Commit(c: Cluster, e: Effect): Cluster {
    c.(arb := e.session, links := Broadcast(c.links, e.sent))
  }

  predicate PeersReady(peers: Peers) {
    forall b | b in peers :: peers[b].PeerReady?
  }

  predicate Enabled(cfg: Config, c: Cluster, a: Action) {
    match a
    case PublishStartup => c.barrier
    case CollectReady(b) => c.barrier && b in c.links && c.links[b].outbox != []
    case PassBarrier => c.barrier && PeersReady(c.arb.peers)
    case CollectFrom(b) => !c.barrier && b in c.links && c.links[b].outbox != []
    case FinishRound => !c.barrier
    case Deliver(b, out) =>
      b in c.links && c.links[b].inbox != [] && StepPossible(c.links[b].node, out, cfg.stepBound)
    case PollGuest(b, out) => b in c.links && PollPossible(c.links[b].node, out, cfg.stepBound)
    case _ => !c.barrier && c.drained == NothingDrained
  }

  /** What the arbiter does for a host command. */
  ghost function CommandEffect(s: Session, a: Action): Effect
    requires IsCommand(a)
  {
    match a
    case CmdStart(until) => ApplyStart(s, until)
    case CmdStop => ApplyStop(s)
    case CmdReset => ApplyReset(s)
    case CmdStep(b) => ApplyGdbStep(s, b)
    case CmdWatch(b) => Effect(s, [ProbeWatch(b)])
  }

  function AfterReady(c: Cluster, b: BoardId): Cluster
    requires b in c.links && c.links[b].outbox != []
  {
    var l := c.links[b];
    var peers := if l.outbox[0].Ready? && b in c.arb.peers
                 then c.arb.peers[b := PeerOnMessage(c.arb.peers[b], Ready).next] else c.arb.peers;
    c.(arb := c.arb.(peers := peers), links := c.links[b := l.(outbox := l.outbox[1..])])
  }

  function AfterCollect(c: Cluster, b: BoardId): Cluster
    requires b in c.links && c.links[b].outbox != []
  {
    var l := c.links[b];
    var (arb, drained) := Collect(c.arb, c.drained, b, l.outbox[0]);
    c.(arb := arb, drained := drained, links := c.links[b := l.(outbox := l.outbox[1..])])
  }

  function LinkAfterDeliver(b: BoardId, l: Link, out: StepOutcome): Link
    requires l.inbox != []
  {
    var r := AfterMessage(l.node, b, l.inbox[0], out);
    Link(r.node, l.inbox[1..], l.outbox + r.sent)
  }

  function LinkAfterPoll(l: Link, out: PollOutcome): Link {
    var r := AfterPoll(l.node, out);
    l.(node := r.node, outbox := l.outbox + r.sent)
  }

  ghost function Apply(cfg: Config, c: Cluster, a: Action): Cluster
    requires Enabled(cfg, c, a)
  {
    match a
    case PublishStartup => c.(links := Broadcast(c.links, [StartupRecord(cfg.marginNs, cfg.thresholdNs)]))
    case CollectReady(b) => AfterReady(c, b)
    case PassBarrier => c.(barrier := false)
    case CollectFrom(b) => AfterCollect(c, b)
    case FinishRound => Commit(c, Finish(c.arb, c.drained)).(drained := NothingDrained)
    case Deliver(b, out) => c.(links := c.links[b := LinkAfterDeliver(b, c.links[b], out)])
    case PollGuest(b, out) => c.(links := c.links[b := LinkAfterPoll(c.links[b], out)])
    case _ => Commit(c, CommandEffect(c.arb, a))
  }

  /** The cluster after `actions`, if every one of them is enabled when its turn comes. */
  ghost function Exec(cfg: Config, c: Cluster, actions: seq<Action>): Option<Cluster>
    decreases |actions|
  {
    if actions == [] then Some(c)
    else
      var before := Exec(cfg, c, actions[..|actions| - 1]);
      var last := actions[|actions| - 1];
      if before.Some? && Enabled(cfg, before.value, last) then Some(Apply(cfg, before.value, last)) else None
  }

  lemma ExecMore(cfg: Config, c: Cluster, actions: seq<Action>, a: Action)
    ensures var before := Exec(cfg, c, actions);
            Exec(cfg, c, actions + [a]) ==
            if before.Some? && Enabled(cfg, before.value, a) then Some(Apply(cfg, before.value, a)) else None
  {
    assert (actions + [a])[..|actions|] == actions;
  }

  /** Runs compose. */
  lemma {:induction false} ExecAppend(cfg: Config, c: Cluster, first: seq<Action>, second: seq<Action>)
    requires Exec(cfg, c, first).Some?
    ensures Exec(cfg, c, first + second) == Exec(cfg, Exec(cfg, c, first).value, second)
    decreases |second|
  {
    if second == [] {
      assert first + second == first;
    } else {
      var n := |second| - 1;
      ExecAppend(cfg, c, first, second[..n]);
      assert (first + second)[..|first| + n] == first + second[..n];
    }
  }

  /** The keys of every map are the configured boards. */
  predicate Shape(cfg: Config, c: Cluster) {
    c.links.Keys == cfg.boards && c.arb.peers.Keys == cfg.boards &&
    c.arb.ceiling.reports.Keys == cfg.boards && c.arb.ceiling.marginNs == cfg.marginNs
  }

  lemma ShapeKept(cfg: Config, c: Cluster, a: Action)
    requires Shape(cfg, c) && Enabled(cfg, c, a)
    ensures Shape(cfg, Apply(cfg, c, a))
  {
  }
}
