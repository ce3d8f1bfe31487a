/** Event-driven state machines of a node and of the arbiter's peer entry
    (sim-cluster/src/lifecycle.rs). */
module Lifecycle {
  import opened Prelude
  import opened Control

  datatype NodeState = AwaitingStartup | NodeStopped | NodeRunning

  datatype NodeEffect =
    | NoEffect
    | SendReady
    | SetAllowed(allowedNs: u64)
    | ResetEntity
    | WatchProbes(board: BoardId)
    | StepOnce(board: BoardId)
    | LogStop
    | Ignored

  datatype NodeMove = NodeMove(next: NodeState, effect: NodeEffect)

  function NodeOnMessage(state: NodeState, msg: ControlToNode): NodeMove {
    match (state, msg)
    case (AwaitingStartup, StartupRecord(_, _)) => NodeMove(NodeStopped, SendReady)
    case (NodeStopped, StartupRecord(_, _)) => NodeMove(NodeStopped, SendReady)
    case (NodeStopped, Start(a)) => NodeMove(NodeRunning, SetAllowed(a))
    case (NodeRunning, Start(a)) => NodeMove(NodeRunning, SetAllowed(a))
    case (NodeStopped, Allowed(a)) => NodeMove(NodeStopped, SetAllowed(a))
    case (NodeRunning, Allowed(a)) => NodeMove(NodeRunning, SetAllowed(a))
    case (NodeStopped, Reset) => NodeMove(NodeStopped, ResetEntity)
    case (NodeRunning, ClusterStop(_)) => NodeMove(NodeStopped, LogStop)
    case (AwaitingStartup, ClusterStop(_)) => NodeMove(NodeStopped, NoEffect)
    case (NodeStopped, ClusterStop(_)) => NodeMove(NodeStopped, NoEffect)
    case (_, ProbeWatch(b)) => NodeMove(state, WatchProbes(b))
    case (NodeStopped, GdbStep(b)) => NodeMove(NodeStopped, StepOnce(b))
    case (NodeRunning, GdbStep(b)) => NodeMove(NodeStopped, StepOnce(b))
    case (_, _) => NodeMove(state, Ignored)
  }

  datatype PeerState = AwaitingReady | PeerReady | PeerRunning | PeerStopped

  datatype PeerEffect =
    | NoPeerEffect
    | Report(virtualTimeNs: u64)
    | HostStopped(reason: HostStopReason)
    | PeerIgnored

  datatype PeerMove = PeerMove(next: PeerState, effect: PeerEffect)

  function PeerOnMessage(state: PeerState, msg: ControlToArbiter): PeerMove {
    match (state, msg)
    case (AwaitingReady, Ready) => PeerMove(PeerReady, NoPeerEffect)
    case (PeerReady, Ready) => PeerMove(PeerReady, PeerIgnored)
    case (AwaitingReady, _) => PeerMove(state, PeerIgnored)
    case (_, TimeReport(t)) => PeerMove(state, Report(t))
    case (_, HostStop(reason)) => PeerMove(PeerStopped, HostStopped(reason))
    case (_, _) => PeerMove(state, PeerIgnored)
  }

  function OnStartBroadcast(state: PeerState): PeerState {
    match state
    case AwaitingReady => AwaitingReady
    case _ => PeerRunning
  }

  /** The state a node reaches once it has consumed `queue`. */
  function Fold(state: NodeState, queue: seq<ControlToNode>): NodeState
    decreases |queue|
  {
    if queue == [] then state else Fold(NodeOnMessage(state, queue[0]).next, queue[1..])
  }

  /** No message of `queue` is ignored by a node that consumes it from `state`. */
  predicate NoneIgnored(state: NodeState, queue: seq<ControlToNode>)
    decreases |queue|
  {
    queue == [] ||
    (!NodeOnMessage(state, queue[0]).effect.Ignored? &&
     NoneIgnored(NodeOnMessage(state, queue[0]).next, queue[1..]))
  }

  /** Publishing behind a queue continues the fold where the queue leaves it. */
  lemma {:induction false} FoldAppend(state: NodeState, queue: seq<ControlToNode>, more: seq<ControlToNode>)
    ensures Fold(state, queue + more) == Fold(Fold(state, queue), more)
    ensures NoneIgnored(state, queue + more) <==>
            NoneIgnored(state, queue) && NoneIgnored(Fold(state, queue), more)
    decreases |queue|
  {
    if queue == [] {
      assert queue + more == more;
    } else {
      assert (queue + more)[1..] == queue[1..] + more;
      FoldAppend(NodeOnMessage(state, queue[0]).next, queue[1..], more);
    }
  }
}
