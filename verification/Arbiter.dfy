/** The host session of the arbiter (sim-cluster/src/arbiter.rs): what each host command and
    each time-sync round does to the session, and which messages it broadcasts. */
module Arbiter {
  import opened Prelude
  import opened Control
  import opened Lifecycle
  import opened TimeSync

  type Peers = map<BoardId, PeerState>

  datatype GdbPhase =
    | WaitInsn(board: BoardId)
    | CatchUp(reason: HostStopReason)

  /** The variables of `run_host_session`. */
  datatype Session = Session(
    peers: Peers,
    ceiling: Ceiling,
    allowed: u64,
    untilCap: Option<u64>,
    running: bool,
    gdb: Option<GdbPhase>,
    lastStop: Option<HostStopReason>)

  /** What one call of `step_time_sync` has collected from its inbox so far. */
  datatype Drained = Drained(
    changed: bool,
    clusterStop: Option<HostStopReason>,
    gdbInsn: Option<(BoardId, HostStopReason)>)

  const NothingDrained := Drained(false, None, None)

  /** A new session and the messages broadcast on the way to it. */
  datatype Effect = Effect(session: Session, sent: seq<ControlToNode>)

  function AllStopped(peers: Peers): Peers {
    map b | b in peers :: PeerStopped
  }

  function AllStarted(peers: Peers): Peers {
    map b | b in peers :: OnStartBroadcast(peers[b])
  }

  function OpenSession(peers: Peers, ceiling: Ceiling, allowed: u64): Session {
    Session(peers, ceiling, allowed, None, false, None, None)
  }

  ghost function ApplyStart(s: Session, until: Option<u64>): Effect {
    var now := s.ceiling.VirtualTimeNs();
    if until.Some? && until.value <= now then
      Effect(
        s.(peers := if s.running then AllStopped(s.peers) else s.peers,
           running := false, untilCap := None, gdb := None,
           lastStop := if s.lastStop.Some? then s.lastStop else Some(Until)),
        if s.running then [ClusterStop(Until)] else [])
    else
      var allowed := s.ceiling.AllowedNsUntil(until);
      Effect(
        s.(peers := AllStarted(s.peers), untilCap := until, allowed := allowed,
           running := true, gdb := None, lastStop := None),
        [Start(allowed)])
  }

  /** A start that is accepted. */
  lemma StartOutcome(s: Session, until: Option<u64>)
    requires ApplyStart(s, until).session.running
    ensures var e := ApplyStart(s, until);
            e.sent == [Start(s.ceiling.AllowedNsUntil(until))] && e.session.ceiling == s.ceiling &&
                e.session.untilCap == until
  {
  }

  function ApplyStop(s: Session): Effect {
    if !s.running then Effect(s, [])
    else Effect(Halted(s, ExternalStop), [ClusterStop(ExternalStop)])
  }

  /** The session after a cluster stop for `reason`. */
  function Halted(s: Session, reason: HostStopReason): Session {
    s.(peers := AllStopped(s.peers), running := false, untilCap := None, gdb := None, lastStop := Some(reason))
  }

  ghost function ApplyReset(s: Session): Effect {
    var now := Max(s.allowed, s.ceiling.VirtualTimeNs());
    var ceiling := s.ceiling.AdvancedTo(now);
    var allowed := ceiling.AllowedNs();
    Effect(
      s.(peers := AllStarted(AllStopped(s.peers)), ceiling := ceiling, allowed := allowed,
         untilCap := None, running := true, gdb := None, lastStop := None),
      [ClusterStop(ExternalStop), Reset, Start(allowed)])
  }

  function ApplyGdbStep(s: Session, board: BoardId): Effect {
    if board !in s.peers then Effect(s, [])
    else
      var stopped := if s.running then Halted(s, ExternalStop) else s;
      Effect(
        stopped.(gdb := Some(WaitInsn(board))),
        (if s.running then [ClusterStop(ExternalStop)] else []) + [GdbStep(board)])
  }

  /** One message of the drain loop. */
  function Collect(s: Session, d: Drained, board: BoardId, msg: ControlToArbiter): (Session, Drained) {
    if board !in s.peers then (s, d)
    else
      var move := PeerOnMessage(s.peers[board], msg);
      var moved := s.(peers := s.peers[board := move.next]);
      match move.effect
      case Report(t) => (moved.(ceiling := s.ceiling.WithReport(board, t)), d.(changed := true))
      case HostStopped(reason) =>
        if s.gdb == Some(WaitInsn(board)) then (moved, d.(gdbInsn := Some((board, reason))))
        else (moved, d.(clusterStop := Some(reason)))
      case _ => (moved, d)
  }

  /** What the call does once the inbox is empty, with the session's reaction to its result. */
  ghost function Finish(s: Session, d: Drained): Effect {
    if d.clusterStop.Some? then
      Effect(Halted(s, d.clusterStop.value), [ClusterStop(d.clusterStop.value)])
    else if d.gdbInsn.Some? then
      var (board, reason) := d.gdbInsn.value;
      var target := if board in s.ceiling.reports then s.ceiling.reports[board] else 0;
      var allowed := s.ceiling.AllowedNsUntil(Some(target));
      Effect(
        s.(peers := AllStarted(s.peers), untilCap := Some(target), allowed := allowed,
           running := true, gdb := Some(CatchUp(reason)), lastStop := None),
        [Start(allowed)])
    else
      var next := if d.changed then s.ceiling.AllowedNsUntil(s.untilCap) else s.allowed;
      var raised := if next != s.allowed then [Allowed(next)] else [];
      if s.untilCap.Some? && s.ceiling.VirtualTimeNs() >= s.untilCap.value then
        var reason := if s.gdb.Some? && s.gdb.value.CatchUp? then s.gdb.value.reason else Until;
        Effect(Halted(s.(allowed := next), reason), raised + [ClusterStop(reason)])
      else
        Effect(s.(allowed := next), raised)
  }

  type Inbox = seq<(BoardId, ControlToArbiter)>

  /** The drain loop over a whole inbox. */
  function CollectAll(s: Session, d: Drained, inbox: Inbox): (Session, Drained)
    decreases |inbox|
  {
    if inbox == [] then (s, d)
    else
      var (s', d') := Collect(s, d, inbox[0].0, inbox[0].1);
      CollectAll(s', d', inbox[1..])
  }

  lemma {:induction false} CollectAllStep(s: Session, d: Drained, inbox: Inbox, k: nat)
    requires k < |inbox|
    ensures var (s', d') := CollectAll(s, d, inbox[..k]);
            CollectAll(s, d, inbox[..k + 1]) == Collect(s', d', inbox[k].0, inbox[k].1)
    decreases k
  {
    if k == 0 {
      assert inbox[..1][1..] == [];
      assert inbox[..0] == [];
    } else {
      var (s', d') := Collect(s, d, inbox[0].0, inbox[0].1);
      assert inbox[..k + 1][1..] == inbox[1..][..k];
      assert inbox[..k][1..] == inbox[1..][..k - 1];
      CollectAllStep(s', d', inbox[1..], k - 1);
    }
  }

  class HostSession {
    var peers: Peers
    const ceiling: TimeCeiling
    var allowed: u64
    var untilCap: Option<u64>
    var running: bool
    var gdb: Option<GdbPhase>
    var lastStop: Option<HostStopReason>
    /** Everything published on the control bus, in order. */
    var published: seq<ControlToNode>

    ghost function View(): Session
      reads this, ceiling
    {
      Session(peers, ceiling.View(), allowed, untilCap, running, gdb, lastStop)
    }

    /** `run_host_session` after the Ready barrier. */
    constructor (peers: Peers, marginNs: u64)
      ensures fresh(ceiling) && published == []
      ensures View() == OpenSession(peers, Ceiling(marginNs, map b | b in peers.Keys :: 0), View().ceiling.AllowedNs())
    {
      this.peers := peers;
      ceiling := new TimeCeiling(peers.Keys, marginNs);
      untilCap, running, gdb, lastStop, published := None, false, None, None, [];
      new;
      allowed := ceiling.AllowedNs();
    }

    method BroadcastStart(allowedNs: u64)
      modifies this`peers, this`published
      ensures published == old(published) + [Start(allowedNs)]
      ensures peers == AllStarted(old(peers))
    {
      published := published + [Start(allowedNs)];
      var todo := peers.Keys;
      while todo != {}
        invariant todo <= peers.Keys == old(peers.Keys)
        invariant forall b | b in peers ::
            peers[b] == if b in todo then old(peers)[b] else OnStartBroadcast(old(peers)[b])
        invariant published == old(published) + [Start(allowedNs)]
        decreases todo
      {
        var b :| b in todo;
        peers := peers[b := OnStartBroadcast(peers[b])];
        todo := todo - {b};
      }
      assert peers == AllStarted(old(peers));
    }

    method BroadcastClusterStop(reason: HostStopReason)
      modifies this`peers, this`published
      ensures published == old(published) + [ClusterStop(reason)]
      ensures peers == AllStopped(old(peers))
    {
      published := published + [ClusterStop(reason)];
      var todo := peers.Keys;
      while todo != {}
        invariant todo <= peers.Keys == old(peers.Keys)
        invariant forall b | b in peers :: peers[b] == if b in todo then old(peers)[b] else PeerStopped
        invariant published == old(published) + [ClusterStop(reason)]
        decreases todo
      {
        var b :| b in todo;
        peers := peers[b := PeerStopped];
        todo := todo - {b};
      }
      assert peers == AllStopped(old(peers));
    }

    method HostStart(until: Option<u64>)
      modifies this
      ensures Effect(View(), published) == var e := ApplyStart(old(View()), until); e.(sent := old(published) + e.sent)
    {
      gdb := None;
      var now := ceiling.VirtualTimeNs();
      if until.Some? && until.value <= now {
        if running {
          BroadcastClusterStop(Until);
          running := false;
        }
        untilCap := None;
        if lastStop.None? {
          lastStop := Some(Until);
        }
        return;
      }
      untilCap := until;
      allowed := ceiling.AllowedNsUntil(untilCap);
      BroadcastStart(allowed);
      running := true;
      lastStop := None;
    }

    method HostStop()
      modifies this
      ensures Effect(View(), published) == var e := ApplyStop(old(View())); e.(sent := old(published) + e.sent)
    {
      if running {
        gdb := None;
        BroadcastClusterStop(ExternalStop);
        running := false;
        untilCap := None;
        lastStop := Some(ExternalStop);
      }
    }

    method HostReset()
      modifies this, ceiling
      ensures Effect(View(), published) == var e := ApplyReset(old(View())); e.(sent := old(published) + e.sent)
    {
      gdb := None;
      untilCap := None;
      BroadcastClusterStop(ExternalStop);
      published := published + [Reset];
      allowed := AllowedAfterReset(allowed);
      BroadcastStart(allowed);
      running := true;
      lastStop := None;
      assert published == old(published) + [ClusterStop(ExternalStop), Reset, Start(allowed)];
    }

    method AllowedAfterReset(lastAllowed: u64) returns (next: u64)
      modifies ceiling
      ensures var now := Max(lastAllowed, old(ceiling.View()).VirtualTimeNs());
              ceiling.View() == old(ceiling.View()).AdvancedTo(now)
      ensures next == ceiling.View().AllowedNs()
    {
      var now := ceiling.VirtualTimeNs();
      if now < lastAllowed {
        now := lastAllowed;
      }
      ceiling.AdvanceTo(now);
      next := ceiling.AllowedNs();
    }

    method HostGdbStep(board: BoardId)
      modifies this
      ensures Effect(View(), published) ==
              var e := ApplyGdbStep(old(View()), board); e.(sent := old(published) + e.sent)
    {
      if board !in peers {
        return;
      }
      if running {
        BroadcastClusterStop(ExternalStop);
        running := false;
        untilCap := None;
        lastStop := Some(ExternalStop);
      }
      published := published + [GdbStep(board)];
      gdb := Some(WaitInsn(board));
    }

    /** `step_time_sync` on the messages waiting in `inbox`. */
    method TimeSync(inbox: Inbox)
      modifies this, ceiling
      ensures Effect(View(), published) ==
              var (s, d) := CollectAll(old(View()), NothingDrained, inbox);
              var e := Finish(s, d);
              e.(sent := old(published) + e.sent)
    {
      var changed := false;
      var clusterStop: Option<HostStopReason> := None;
      var gdbInsn: Option<(BoardId, HostStopReason)> := None;
      var i := 0;
      while i < |inbox|
        invariant 0 <= i <= |inbox|
        invariant (View(), Drained(changed, clusterStop, gdbInsn)) ==
                  CollectAll(old(View()), NothingDrained, inbox[..i])
        invariant published == old(published)
      {
        CollectAllStep(old(View()), NothingDrained, inbox, i);
        var (board, msg) := inbox[i];
        if board in peers {
          var move := PeerOnMessage(peers[board], msg);
          match move.effect {
            case Report(t) =>
              ceiling.Report(board, t);
              changed := true;
            case HostStopped(reason) =>
              if gdb == Some(WaitInsn(board)) {
                gdbInsn := Some((board, reason));
              } else {
                clusterStop := Some(reason);
              }
            case _ =>
          }
          peers := peers[board := move.next];
        }
        i := i + 1;
      }
      assert inbox[..|inbox|] == inbox;
      FinishSync(Drained(changed, clusterStop, gdbInsn));
    }

    method FinishSync(d: Drained)
      modifies this
      ensures Effect(View(), published) == var e := Finish(old(View()), d); e.(sent := old(published) + e.sent)
    {
      if d.clusterStop.Some? {
        BroadcastClusterStop(d.clusterStop.value);
        SessionStopped(d.clusterStop.value);
        return;
      }
      if d.gdbInsn.Some? {
        var (board, reason) := d.gdbInsn.value;
        var last := ceiling.LastReport(board);
        var target := last.GetOr(0);
        untilCap := Some(target);
        allowed := ceiling.AllowedNsUntil(untilCap);
        BroadcastStart(allowed);
        running := true;
        lastStop := None;
        gdb := Some(CatchUp(reason));
        return;
      }
      if d.changed {
        var next := ceiling.AllowedNsUntil(untilCap);
        if next != allowed {
          allowed := next;
          published := published + [Allowed(allowed)];
        }
      }
      var now := ceiling.VirtualTimeNs();
      if untilCap.Some? && now >= untilCap.value {
        var reason := if gdb.Some? && gdb.value.CatchUp? then gdb.value.reason else Until;
        BroadcastClusterStop(reason);
        SessionStopped(reason);
      }
    }

    /** The session's reaction to `SyncStep::Stopped`. */
    method SessionStopped(reason: HostStopReason)
      modifies this`running, this`untilCap, this`gdb, this`lastStop
      ensures !running && untilCap.None? && gdb.None? && lastStop == Some(reason)
    {
      running := false;
      untilCap := None;
      gdb := None;
      lastStop := Some(reason);
    }
  }
}
