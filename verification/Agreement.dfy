/** Node and arbiter never disagree for long: consuming the messages still travelling to a node
    leads it to the state the arbiter's session assumes, and no message is dropped on the way. */
module Agreement {
  import opened Prelude
  import opened Control
  import opened Lifecycle
  import opened TimeSync
  import opened Arbiter
  import opened BoardRuntime
  import opened Protocol

  /** The ceiling a node holds once it has consumed `inbox`. */
  function CeilingAfter(allowed: u64, inbox: seq<ControlToNode>): u64
    decreases |inbox|
  {
    if inbox == [] then allowed
    else CeilingAfter(CeilingIn(inbox[0]).GetOr(allowed), inbox[1..])
  }

  lemma {:induction false} CeilingAfterAppend(allowed: u64, inbox: seq<ControlToNode>, more: seq<ControlToNode>)
    ensures CeilingAfter(allowed, inbox + more) == CeilingAfter(CeilingAfter(allowed, inbox), more)
    decreases |inbox|
  {
    if inbox == [] {
      assert inbox + more == more;
    } else {
      assert (inbox + more)[1..] == inbox[1..] + more;
      CeilingAfterAppend(CeilingIn(inbox[0]).GetOr(allowed), inbox[1..], more);
    }
  }

  predicate StopPending(d: Drained) {
    d.clusterStop.Some? || d.gdbInsn.Some?
  }

  predicate SessionAgrees(s: Session, d: Drained) {
    (forall b | b in s.peers ::
      !s.peers[b].AwaitingReady? &&
      (s.peers[b].PeerRunning? ==> s.running) &&
      (s.running && !StopPending(d) ==> s.peers[b].PeerRunning?)) &&
    (!s.running ==> s.untilCap.None?) &&
    (d.gdbInsn.Some? ==> !s.running) &&
    (s.gdb.Some? && s.gdb.value.CatchUp? ==> s.running && s.untilCap.Some?) &&
    (s.gdb.Some? && s.gdb.value.WaitInsn? ==> !s.running)
  }

  predicate LinkAgrees(s: Session, l: Link) {
    !l.node.state.AwaitingStartup? &&
    NoneIgnored(l.node.state, l.inbox) &&
    Fold(l.node.state, l.inbox) == (if s.running then NodeRunning else NodeStopped) &&
    (s.running ==> CeilingAfter(l.node.allowedNs, l.inbox) == s.allowed)
  }

  /** Before the Ready barrier only startup records and their answers travel. */
  predicate LinkStarting(peer: PeerState, l: Link) {
    !l.node.state.NodeRunning? &&
    (forall i | 0 <= i < |l.inbox| :: l.inbox[i].StartupRecord?) &&
    (forall i | 0 <= i < |l.outbox| :: l.outbox[i].Ready?) &&
    (peer.AwaitingReady? || peer.PeerReady?) &&
    (peer.PeerReady? || l.outbox != [] ==> l.node.state.NodeStopped?)
  }

  predicate AgreeInv(cfg: Config, c: Cluster) {
    Shape(cfg, c) &&
    if c.barrier then
      c.arb.running == false && c.arb.untilCap.None? && c.arb.gdb.None? && c.drained == NothingDrained &&
      forall b | b in c.links :: LinkStarting(c.arb.peers[b], c.links[b])
    else
      SessionAgrees(c.arb, c.drained) && forall b | b in c.links :: LinkAgrees(c.arb, c.links[b])
  }

  /** Startup records find a stopped node stopped and are answered. */
  lemma {:induction false} StartupsFold(inbox: seq<ControlToNode>)
    requires forall i | 0 <= i < |inbox| :: inbox[i].StartupRecord?
    ensures Fold(NodeStopped, inbox) == NodeStopped && NoneIgnored(NodeStopped, inbox)
  {
    if inbox != [] {
      StartupsFold(inbox[1..]);
    }
  }

  /** What an arbiter step must satisfy: its messages take every node from the state assumed
      before to the state assumed after, without being ignored. */
  predicate EffectAgrees(s: Session, e: Effect) {
    var from := if s.running then NodeRunning else NodeStopped;
    NoneIgnored(from, e.sent) &&
    Fold(from, e.sent) == (if e.session.running then NodeRunning else NodeStopped) &&
    (e.session.running && s.running ==> CeilingAfter(s.allowed, e.sent) == e.session.allowed) &&
    (e.session.running && !s.running ==> forall x: u64 :: CeilingAfter(x, e.sent) == e.session.allowed)
  }

  lemma AgreeCommit(s: Session, l: Link, e: Effect)
    requires LinkAgrees(s, l) && EffectAgrees(s, e)
    ensures LinkAgrees(e.session, l.(inbox := l.inbox + e.sent))
  {
    FoldAppend(l.node.state, l.inbox, e.sent);
    CeilingAfterAppend(l.node.allowedNs, l.inbox, e.sent);
  }

  lemma UnfoldOne(m: ControlToNode)
    ensures forall st :: Fold(st, [m]) == NodeOnMessage(st, m).next
    ensures forall st :: NoneIgnored(st, [m]) == !NodeOnMessage(st, m).effect.Ignored?
    ensures forall x :: CeilingAfter(x, [m]) == CeilingIn(m).GetOr(x)
  {
    assert [m][1..] == [];
  }

  lemma UnfoldMore(m: ControlToNode, rest: seq<ControlToNode>)
    ensures forall st :: Fold(st, [m] + rest) == Fold(NodeOnMessage(st, m).next, rest)
    ensures forall st :: NoneIgnored(st, [m] + rest) <==>
                         !NodeOnMessage(st, m).effect.Ignored? && NoneIgnored(NodeOnMessage(st, m).next, rest)
    ensures forall x :: CeilingAfter(x, [m] + rest) == CeilingAfter(CeilingIn(m).GetOr(x), rest)
  {
    assert ([m] + rest)[1..] == rest;
  }

  lemma CommandKeepsSession(s: Session, a: Action)
    requires IsCommand(a) && SessionAgrees(s, NothingDrained)
    ensures SessionAgrees(CommandEffect(s, a).session, NothingDrained)
  {
  }

  lemma CommandAgrees(s: Session, a: Action)
    requires IsCommand(a) && SessionAgrees(s, NothingDrained)
    ensures EffectAgrees(s, CommandEffect(s, a))
  {
    var sent := CommandEffect(s, a).sent;
    if sent != [] {
      var last := sent[|sent| - 1];
      UnfoldOne(last);
      if |sent| >= 2 {
        UnfoldMore(sent[|sent| - 2], [last]);
      }
      if |sent| == 3 {
        UnfoldMore(sent[0], [sent[1]] + [last]);
        assert sent == [sent[0]] + ([sent[1]] + [last]);
      } else if |sent| == 2 {
        assert sent == [sent[0]] + [last];
      } else {
        assert sent == [last];
      }
    }
  }

  lemma FinishAgrees(s: Session, d: Drained)
    requires SessionAgrees(s, d)
    ensures EffectAgrees(s, Finish(s, d))
    ensures SessionAgrees(Finish(s, d).session, NothingDrained)
  {
    var sent := Finish(s, d).sent;
    if sent != [] {
      var last := sent[|sent| - 1];
      UnfoldOne(last);
      if |sent| == 2 {
        UnfoldMore(sent[0], [last]);
        assert sent == [sent[0]] + [last];
      } else {
        assert sent == [last];
      }
    }
  }

  lemma DeliverAgrees(s: Session, me: BoardId, l: Link, out: StepOutcome)
    requires LinkAgrees(s, l) && l.inbox != []
    ensures LinkAgrees(s, LinkAfterDeliver(me, l, out))
    ensures !NodeOnMessage(l.node.state, l.inbox[0]).effect.Ignored?
  {
  }

  lemma PollAgrees(s: Session, l: Link, out: PollOutcome)
    requires LinkAgrees(s, l)
    ensures LinkAgrees(s, LinkAfterPoll(l, out))
  {
  }

  lemma CollectAgrees(s: Session, d: Drained, b: BoardId, msg: ControlToArbiter)
    requires SessionAgrees(s, d) && b in s.peers
    ensures var (s', d') := Collect(s, d, b, msg);
            SessionAgrees(s', d') && s'.running == s.running && s'.allowed == s.allowed
  {
  }

  lemma BarrierStep(cfg: Config, c: Cluster, a: Action)
    requires AgreeInv(cfg, c) && Enabled(cfg, c, a) && Shape(cfg, Apply(cfg, c, a)) && c.barrier
    ensures AgreeInv(cfg, Apply(cfg, c, a))
  {
    assert forall b | b in c.links :: LinkStarting(c.arb.peers[b], c.links[b]);
    if a.PassBarrier? {
      forall b | b in c.links
        ensures LinkAgrees(c.arb, c.links[b])
      {
        StartupsFold(c.links[b].inbox);
      }
    }
  }

  lemma CommitStep(cfg: Config, c: Cluster, e: Effect)
    requires AgreeInv(cfg, c) && !c.barrier && Shape(cfg, Commit(c, e))
    requires EffectAgrees(c.arb, e) && SessionAgrees(e.session, NothingDrained)
    ensures AgreeInv(cfg, Commit(c, e).(drained := NothingDrained))
  {
    forall b | b in c.links
      ensures LinkAgrees(e.session, c.links[b].(inbox := c.links[b].inbox + e.sent))
    {
      AgreeCommit(c.arb, c.links[b], e);
    }
  }

  lemma AgreeStep(cfg: Config, c: Cluster, a: Action)
    requires AgreeInv(cfg, c) && Enabled(cfg, c, a)
    ensures AgreeInv(cfg, Apply(cfg, c, a))
  {
    ShapeKept(cfg, c, a);
    if c.barrier {
      BarrierStep(cfg, c, a);
      return;
    }
    if a.CollectFrom? {
      CollectAgrees(c.arb, c.drained, a.board, c.links[a.board].outbox[0]);
    } else if a.FinishRound? {
      FinishAgrees(c.arb, c.drained);
      CommitStep(cfg, c, Finish(c.arb, c.drained));
    } else if a.Deliver? {
      DeliverAgrees(c.arb, a.board, c.links[a.board], a.step);
    } else if a.PollGuest? {
      PollAgrees(c.arb, c.links[a.board], a.poll);
    } else if IsCommand(a) {
      CommandAgrees(c.arb, a);
      CommandKeepsSession(c.arb, a);
      CommitStep(cfg, c, CommandEffect(c.arb, a));
    }
  }

  /** What a node may find at the head of its queue. */
  lemma HeadIsExpected(cfg: Config, c: Cluster, b: BoardId)
    requires AgreeInv(cfg, c) && b in c.links && c.links[b].inbox != []
    ensures var l := c.links[b];
            !NodeOnMessage(l.node.state, l.inbox[0]).effect.Ignored? &&
            (l.node.state.AwaitingStartup? ==> l.inbox[0].StartupRecord?)
  {
    if c.barrier {
      assert LinkStarting(c.arb.peers[b], c.links[b]);
    } else {
      assert LinkAgrees(c.arb, c.links[b]);
    }
  }

  lemma {:induction false} AgreeAlongRun(cfg: Config, actions: seq<Action>)
    requires Exec(cfg, Init(cfg), actions).Some?
    ensures AgreeInv(cfg, Exec(cfg, Init(cfg), actions).value)
    decreases |actions|
  {
    if actions != [] {
      var init := actions[..|actions| - 1];
      AgreeAlongRun(cfg, init);
      AgreeStep(cfg, Exec(cfg, Init(cfg), init).value, actions[|actions| - 1]);
    }
  }

  /** After the Ready barrier, in every reachable state: the messages in flight take a node to
      Running exactly when the session runs, and then to the session's ceiling; the peer entry
      says the same unless a stop report is being handled; nothing in flight will be ignored. */
  lemma NodesFollowTheArbiter(cfg: Config, actions: seq<Action>, b: BoardId)
    requires Exec(cfg, Init(cfg), actions).Some?
    requires !Exec(cfg, Init(cfg), actions).value.barrier && b in cfg.boards
    ensures var c := Exec(cfg, Init(cfg), actions).value;
            b in c.links && b in c.arb.peers &&
            var l := c.links[b];
            (Fold(l.node.state, l.inbox) == NodeRunning <==> c.arb.running) &&
            (!StopPending(c.drained) ==> (c.arb.peers[b] == PeerRunning <==> c.arb.running)) &&
            (c.arb.running ==> CeilingAfter(l.node.allowedNs, l.inbox) == c.arb.allowed) &&
            NoneIgnored(l.node.state, l.inbox)
  {
    AgreeAlongRun(cfg, actions);
    var c := Exec(cfg, Init(cfg), actions).value;
    assert LinkAgrees(c.arb, c.links[b]);
  }

  /** Session facts in every reachable state. */
  lemma SessionFacts(cfg: Config, actions: seq<Action>)
    requires Exec(cfg, Init(cfg), actions).Some?
    ensures var s := Exec(cfg, Init(cfg), actions).value.arb;
            (s.untilCap.Some? ==> s.running) &&
            (s.gdb.Some? && s.gdb.value.CatchUp? ==> s.running && s.untilCap.Some?) &&
            (s.gdb.Some? && s.gdb.value.WaitInsn? ==> !s.running)
  {
    AgreeAlongRun(cfg, actions);
  }
}
