/** Control-plane messages (sim-cluster/src/control.rs). The sender of a node message is
    the link it arrives on, so the `from` field is not repeated. */
module Control {
  import opened Prelude

  type BoardId = nat

  datatype HostStopReason = Breakpoint | ExternalStop | Step | Unmapped | Until

  datatype ControlToNode =
    | StartupRecord(marginNs: u64, headroomThresholdNs: u64)
    | Start(allowedNs: u64)
    | Allowed(allowedNs: u64)
    | ClusterStop(reason: HostStopReason)
    | Reset
    | ProbeWatch(board: BoardId)
    | GdbStep(board: BoardId)

  datatype ControlToArbiter =
    | Ready
    | TimeReport(virtualTimeNs: u64)
    | HostStop(reason: HostStopReason)

  /** The ceiling a message carries, if it carries one. */
  function CeilingIn(msg: ControlToNode): Option<u64> {
    match msg
    case Start(a) => Some(a)
    case Allowed(a) => Some(a)
    case _ => None
  }
}
