/** What the arbiter has heard of a board, what it will still hear, and runs that make it hear. */
module Hearing {
  import opened Prelude
  import opened Control
  import opened Lifecycle
  import opened TimeSync
  import opened BoardRuntime
  import opened Protocol
  import opened Reach

  // ---- messages on their way to the arbiter ----

  /** The last time reported once `outbox` has been collected. */
  function LastSent(report: u64, outbox: seq<ControlToArbiter>): u64
    decreases |outbox|
  {
    if outbox == [] then report else LastSent(Said(report, outbox[0]), outbox[1..])
  }

  function Said(report: u64, msg: ControlToArbiter): u64 {
    if msg.TimeReport? then msg.virtualTimeNs else report
  }

  /** The highest report that can stand at the arbiter before a stop report is collected. */
  function Highest(report: u64, outbox: seq<ControlToArbiter>): u64
    decreases |outbox|
  {
    if outbox == [] || outbox[0].HostStop? then report
    else Max(report, Highest(Said(report, outbox[0]), outbox[1..]))
  }

  predicate StopIn(outbox: seq<ControlToArbiter>) {
    exists i :: 0 <= i < |outbox| && outbox[i].HostStop?
  }

  /** Word of a stopped simulator is on its way to the arbiter. */
  predicate StopComing(c: Cluster) {
    c.drained.clusterStop.Some? || exists b | b in c.links :: StopIn(c.links[b].outbox)
  }

  lemma StopInTail(outbox: seq<ControlToArbiter>)
    requires outbox != []
    ensures StopIn(outbox) <==> outbox[0].HostStop? || StopIn(outbox[1..])
  {
    if StopIn(outbox) && !outbox[0].HostStop? {
      var i :| 0 <= i < |outbox| && outbox[i].HostStop?;
      assert outbox[1..][i - 1].HostStop?;
    }
    if StopIn(outbox[1..]) {
      var i :| 0 <= i < |outbox[1..]| && outbox[1..][i].HostStop?;
      assert outbox[i + 1].HostStop?;
    }
  }

  lemma StopInAppend(a: seq<ControlToArbiter>, b: seq<ControlToArbiter>)
    ensures StopIn(a + b) <==> StopIn(a) || StopIn(b)
  {
    if StopIn(a) {
      var i :| 0 <= i < |a| && a[i].HostStop?;
      assert (a + b)[i].HostStop?;
    }
    if StopIn(b) {
      var i :| 0 <= i < |b| && b[i].HostStop?;
      assert (a + b)[|a| + i].HostStop?;
    }
  }

  lemma {:induction false} SentAppend(report: u64, outbox: seq<ControlToArbiter>, more: seq<ControlToArbiter>)
    ensures LastSent(report, outbox + more) == LastSent(LastSent(report, outbox), more)
    decreases |outbox|
  {
    if outbox == [] {
      assert outbox + more == more;
    } else {
      assert (outbox + more)[1..] == outbox[1..] + more;
      SentAppend(Said(report, outbox[0]), outbox[1..], more);
    }
  }

  /** A node sends at most one time report at once, and sends it first. */
  lemma SentShort(report: u64, sent: seq<ControlToArbiter>)
    requires |sent| <= 2 && (|sent| == 2 ==> sent[1].HostStop?)
    ensures sent == [] ==> LastSent(report, sent) == Highest(report, sent) == report
    ensures sent != [] ==> LastSent(report, sent) == Said(report, sent[0])
    ensures sent != [] ==> Highest(report, sent) == Max(report, Said(report, sent[0]))
  {
    if sent != [] {
      var next, rest := Said(report, sent[0]), sent[1..];
      if |sent| == 2 {
        assert rest[0] == sent[1] && rest[1..] == [];
        assert LastSent(next, rest) == LastSent(next, []) == next && Highest(next, rest) == next;
      } else {
        assert rest == [];
      }
    }
  }

  lemma {:induction false} HighestAppend(report: u64, outbox: seq<ControlToArbiter>, more: seq<ControlToArbiter>)
    ensures report <= Highest(report, outbox)
    ensures StopIn(outbox) ==> Highest(report, outbox + more) == Highest(report, outbox)
    ensures !StopIn(outbox) ==>
              LastSent(report, outbox) <= Highest(report, outbox) &&
              Highest(report, outbox + more) == Max(Highest(report, outbox), Highest(LastSent(report, outbox), more))
    decreases |outbox|
  {
    if outbox == [] {
      assert outbox + more == more;
      HighestRises(report, more);
    } else {
      assert (outbox + more)[1..] == outbox[1..] + more;
      HighestAppend(Said(report, outbox[0]), outbox[1..], more);
      StopInTail(outbox);
    }
  }

  lemma HighestRises(report: u64, outbox: seq<ControlToArbiter>)
    ensures report <= Highest(report, outbox)
  {
  }

  /** The highest report stands once a prefix without stop reports has been collected. */
  lemma {:induction false} HighestAt(report: u64, outbox: seq<ControlToArbiter>) returns (k: nat)
    ensures k <= |outbox| && !StopIn(outbox[..k]) && LastSent(report, outbox[..k]) == Highest(report, outbox)
    decreases |outbox|
  {
    k := 0;
    if outbox != [] && !outbox[0].HostStop? {
      var next := Said(report, outbox[0]);
      if report < Highest(next, outbox[1..]) {
        var j := HighestAt(next, outbox[1..]);
        k := j + 1;
        assert outbox[..k][1..] == outbox[1..][..j];
        StopInTail(outbox[..k]);
      }
    }
  }

  lemma OneReport(report: u64, outbox: seq<ControlToArbiter>, t: u64)
    ensures LastSent(report, outbox + [TimeReport(t)]) == t
    ensures StopIn(outbox + [TimeReport(t)]) == StopIn(outbox)
    ensures !StopIn(outbox) ==> t <= Highest(report, outbox + [TimeReport(t)])
  {
    HighestAppend(report, outbox, [TimeReport(t)]);
    StopInAppend(outbox, [TimeReport(t)]);
    SentAppend(report, outbox, [TimeReport(t)]);
    SentShort(LastSent(report, outbox), [TimeReport(t)]);
  }

  /** Every time sent is at or past the one before. */
  predicate Climbing(report: u64, outbox: seq<ControlToArbiter>)
    decreases |outbox|
  {
    outbox == [] || (report <= Said(report, outbox[0]) && Climbing(Said(report, outbox[0]), outbox[1..]))
  }

  lemma {:induction false} ClimbAppend(report: u64, outbox: seq<ControlToArbiter>, more: seq<ControlToArbiter>)
    ensures Climbing(report, outbox + more) <==> Climbing(report, outbox) && Climbing(LastSent(report, outbox), more)
    decreases |outbox|
  {
    if outbox == [] {
      assert outbox + more == more;
    } else {
      assert (outbox + more)[1..] == outbox[1..] + more;
      ClimbAppend(Said(report, outbox[0]), outbox[1..], more);
    }
  }

  lemma ClimbShort(report: u64, sent: seq<ControlToArbiter>)
    requires |sent| <= 2 && (|sent| == 2 ==> sent[1].HostStop?)
    ensures Climbing(report, sent) <==> sent == [] || report <= Said(report, sent[0])
  {
    if |sent| == 2 {
      assert sent[1..][0] == sent[1] && sent[1..][1..] == [];
      assert Climbing(Said(report, sent[0]), sent[1..]);
    } else if |sent| == 1 {
      assert sent[1..] == [];
    }
  }

  /** Reports that only rise: the last one is the highest. */
  lemma {:induction false} LastIsHighest(report: u64, outbox: seq<ControlToArbiter>)
    requires Climbing(report, outbox)
    ensures report <= LastSent(report, outbox) && Highest(report, outbox) <= LastSent(report, outbox)
    ensures !StopIn(outbox) ==> LastSent(report, outbox) == Highest(report, outbox)
    decreases |outbox|
  {
    if outbox != [] {
      StopInTail(outbox);
      LastIsHighest(Said(report, outbox[0]), outbox[1..]);
    }
  }

  /** The board can follow the ceilings of a session capped at `limit`: it will run, is below
      `limit`, and the arbiter has heard, or can hear, of a time less than a margin behind its
      clock. */
  predicate CanFollow(cfg: Config, b: BoardId, l: Link, report: u64, limit: u64) {
    var q := QuietOf(b, l);
    Runs(q) && l.node.clock < limit &&
    (l.node.clock < q.hi || l.node.clock < SatAdd(Highest(report, l.outbox), cfg.marginNs))
  }

  /** Raising one report never lowers the natural ceiling. */
  lemma NaturalMonotone(c: Ceiling, b: BoardId, t: u64)
    requires b in c.reports && c.reports[b] <= t
    ensures c.AllowedNs() <= c.WithReport(b, t).AllowedNs()
  {
    var d := c.WithReport(b, t);
    assert b in d.reports.Keys;
    var k :| k in d.reports && d.reports[k] == d.VirtualTimeNs();
    assert c.reports[k] <= d.reports[k];
  }

  // ---- the board's side ----

  /** Running up to the ceiling is reported. */
  lemma TurnTells(cfg: Config, b: BoardId, l: Link)
    requires LinkFacts(cfg, l) && 0 < cfg.thresholdNs && Runs(ProspectOf(l.node)) && l.node.clock < l.node.allowedNs
    ensures var m := Turn(Quiet(l.node.allowedNs));
            CanMove(cfg, l, m) &&
            var l' := Moved(cfg, b, l, m);
            LinkFacts(cfg, l') && ProspectOf(l'.node) == Idle(ProspectOf(l.node)) && l'.inbox == l.inbox &&
            l'.outbox == l.outbox + [TimeReport(l.node.allowedNs)]
  {
    TurnFacts(cfg, l, Quiet(l.node.allowedNs));
  }

  const READ: Move := Read(StepTimedOut)

  /** A message is answered with nothing the arbiter counts, unless it is a gdb step that is taken. */
  lemma ReadSent(b: BoardId, l: Link, out: StepOutcome, report: u64)
    requires l.inbox != [] && (out.Stepped? ==> NodeOnMessage(l.node.state, l.inbox[0]).effect != StepOnce(b))
    ensures var l' := LinkAfterDeliver(b, l, out);
            (l'.outbox == l.outbox || l'.outbox == l.outbox + [Ready]) && (StopIn(l'.outbox) <==> StopIn(l.outbox)) &&
            Highest(report, l'.outbox) == Highest(report, l.outbox) &&
            LastSent(report, l'.outbox) == LastSent(report, l.outbox) && l'.node.clock == l.node.clock
  {
    var r := AfterMessage(l.node, b, l.inbox[0], out);
    HighestAppend(report, l.outbox, r.sent);
    StopInAppend(l.outbox, r.sent);
    SentAppend(report, l.outbox, r.sent);
    SentShort(LastSent(report, l.outbox), r.sent);
  }

  /** Reading a message without running first and with no step taken. */
  lemma ReadTells(cfg: Config, b: BoardId, l: Link, report: u64)
    requires LinkFacts(cfg, l) && l.inbox != [] && !l.node.state.AwaitingStartup?
    ensures CanMove(cfg, l, READ)
    ensures var l' := Moved(cfg, b, l, READ);
            LinkFacts(cfg, l') && !l'.node.state.AwaitingStartup? && l'.inbox == l.inbox[1..] &&
            l'.node.clock == l.node.clock && (StopIn(l'.outbox) ==> StopIn(l.outbox)) &&
            LastSent(report, l'.outbox) == LastSent(report, l.outbox) &&
            Alike(ProspectOf(l'.node), Take(ProspectOf(l.node), b, l.inbox[0], 0))
  {
    ReadFacts(cfg, b, l, StepTimedOut);
    ReadSent(b, l, StepTimedOut, report);
  }

  // ---- the arbiter's side ----

  /** A running session past its barrier that waits for messages. */
  predicate Listening(c: Cluster) {
    !c.barrier && c.arb.running && c.drained.clusterStop.None? && c.drained.gdbInsn.None? &&
    (c.arb.gdb.Some? ==> c.arb.gdb.value.CatchUp?) &&
    c.arb.peers.Keys == c.links.Keys == c.arb.ceiling.reports.Keys &&
    forall b | b in c.arb.peers :: !c.arb.peers[b].AwaitingReady?
  }

  /** `d` is `c` after `sent` has been taken off the front of `b`'s queue. */
  ghost predicate Collected(c: Cluster, d: Cluster, b: BoardId, sent: seq<ControlToArbiter>,
                            rest: seq<ControlToArbiter>)
    requires b in c.links && b in c.arb.ceiling.reports
  {
    d.links == c.links[b := c.links[b].(outbox := rest)] &&
    d.arb == c.arb.(
      peers := d.arb.peers,
      ceiling := c.arb.ceiling.WithReport(b, LastSent(c.arb.ceiling.reports[b], sent)))
  }

  lemma CollectOne(cfg: Config, c: Cluster, b: BoardId, d: Cluster)
    requires Listening(c) && b in c.links && c.links[b].outbox != [] && !c.links[b].outbox[0].HostStop?
    requires d == AfterCollect(c, b)
    ensures Exec(cfg, c, [CollectFrom(b)]) == Some(d) && Listening(d)
    ensures Collected(c, d, b, c.links[b].outbox[..1], c.links[b].outbox[1..])
  {
    ExecFirst(cfg, c, CollectFrom(b), []);
    assert [CollectFrom(b)] + [] == [CollectFrom(b)];
    var sent := c.links[b].outbox[..1];
    assert sent[1..] == [];
    assert c.arb.ceiling.reports[b := c.arb.ceiling.reports[b]] == c.arb.ceiling.reports;
  }

  /** The first `k` messages of a board's queue are collected. */
  lemma {:induction false} CollectSome(cfg: Config, c: Cluster, b: BoardId, k: nat)
    returns (more: seq<Action>, d: Cluster)
    requires Listening(c) && b in c.links && k <= |c.links[b].outbox| && !StopIn(c.links[b].outbox[..k])
    ensures Internal(more) && Unfailing(more) && Exec(cfg, c, more) == Some(d) && Listening(d)
    ensures Collected(c, d, b, c.links[b].outbox[..k], c.links[b].outbox[k..])
    decreases k
  {
    var outbox := c.links[b].outbox;
    if k == 0 {
      more, d := [], c;
      assert c.links == c.links[b := c.links[b].(outbox := outbox[0..])];
      assert c.arb.ceiling.reports[b := c.arb.ceiling.reports[b]] == c.arb.ceiling.reports;
    } else {
      StopInTail(outbox[..k]);
      var c1 := AfterCollect(c, b);
      CollectOne(cfg, c, b, c1);
      assert c1.links[b].outbox[..k - 1] == outbox[..k][1..];
      var rest;
      rest, d := CollectSome(cfg, c1, b, k - 1);
      CollectedTwice(c, c1, d, b, outbox, k);
      RunThen(cfg, c, [CollectFrom(b)], c1, rest);
      more := [CollectFrom(b)] + rest;
    }
  }

  lemma CollectedTwice(c: Cluster, c1: Cluster, d: Cluster, b: BoardId, outbox: seq<ControlToArbiter>, k: nat)
    requires b in c.links && b in c.arb.ceiling.reports && b in c1.links && b in c1.arb.ceiling.reports &&
             0 < k <= |outbox|
    requires Collected(c, c1, b, outbox[..1], outbox[1..]) &&
             Collected(c1, d, b, outbox[1..][..k - 1], outbox[1..][k - 1..])
    ensures Collected(c, d, b, outbox[..k], outbox[k..])
  {
    assert outbox[..1] == [outbox[0]] && outbox[..1][1..] == [];
    assert outbox[..k][1..] == outbox[1..][..k - 1] && outbox[1..][k - 1..] == outbox[k..];
    var r := c.arb.ceiling.reports;
    var head := LastSent(r[b], outbox[..1]);
    var said := Said(r[b], outbox[0]);
    assert LastSent(said, outbox[..1][1..]) == said;
    assert head == said;
    assert LastSent(r[b], outbox[..k]) == LastSent(head, outbox[..k][1..]);
    assert c.links[b := c.links[b].(outbox := outbox[1..])][b := c.links[b].(outbox := outbox[k..])] ==
           c.links[b := c.links[b].(outbox := outbox[k..])];
    assert r[b := LastSent(r[b], outbox[..1])][b := LastSent(r[b], outbox[..k])] == r[b := LastSent(r[b], outbox[..k])];
  }
}
