/** Runs that bring the report of every board up to a given time, slowest reporter first. */
module Drive {
  import opened Prelude
  import opened Control
  import opened Lifecycle
  import opened Arbiter
  import opened BoardRuntime
  import opened Protocol
  import opened Agreement
  import opened Reach
  import opened Hearing

  /** The cap of a session; without one it runs to the end of time. */
  function Limit(s: Session): u64 {
    s.untilCap.GetOr(U64_MAX)
  }

  ghost predicate Driving(cfg: Config, c: Cluster) {
    FactsHold(cfg, c) && Listening(c)
  }

  // ---- one board ----

  /** A board whose quiet reach is at or past `v` can run there and say so. */
  lemma {:induction false} FollowRun(cfg: Config, b: BoardId, l: Link, report: u64, v: u64) returns (l': Link)
    requires LinkFacts(cfg, l) && 0 < cfg.thresholdNs && !l.node.state.AwaitingStartup? && !StopIn(l.outbox)
    requires l.node.clock < v <= QuietOf(b, l).hi
    ensures Becomes(cfg, b, l, l') && !StopIn(l'.outbox)
    ensures v <= l'.node.clock == LastSent(report, l'.outbox)
    ensures Runs(QuietOf(b, l)) ==> Runs(QuietOf(b, l'))
    decreases |l.inbox|
  {
    var p := ProspectOf(l.node);
    if Runs(p) && v <= l.node.allowedNs {
      var m := Turn(Quiet(l.node.allowedNs));
      TurnTells(cfg, b, l);
      l' := Moved(cfg, b, l, m);
      OneReport(report, l.outbox, l.node.allowedNs);
      assert Ahead(Idle(p), b, l.inbox, 0) == QuietOf(b, l);
      BecomesItself(cfg, b, l');
      BecomesNext(cfg, b, l, m, l');
    } else {
      ReadTells(cfg, b, l, report);
      var l1, q := Moved(cfg, b, l, READ), Take(p, b, l.inbox[0], 0);
      AheadFromBelow(ProspectOf(l1.node), q, b, l1.inbox, v);
      AheadAlike(ProspectOf(l1.node), q, b, l1.inbox, 0, 0);
      l' := FollowRun(cfg, b, l1, report, v);
      BecomesNext(cfg, b, l, READ, l');
    }
  }

  // ---- one board of a running cluster ----

  /** Only board `b` and its report have changed. */
  predicate OnlyBoard(c: Cluster, d: Cluster, b: BoardId) {
    d.links.Keys == c.links.Keys && d.arb.ceiling.reports.Keys == c.arb.ceiling.reports.Keys == c.links.Keys &&
    d.arb == c.arb.(peers := d.arb.peers, ceiling := c.arb.ceiling.(reports := d.arb.ceiling.reports)) &&
    forall x | x in c.links && x != b ::
      d.links[x] == c.links[x] && d.arb.ceiling.reports[x] == c.arb.ceiling.reports[x]
  }

  /** The board becomes `l'` and the first `k` messages it has sent by then are collected. */
  lemma MoveAndCollect(cfg: Config, c: Cluster, b: BoardId, l': Link, k: nat) returns (more: seq<Action>, d: Cluster)
    requires Listening(c) && b in c.links && Becomes(cfg, b, c.links[b], l')
    requires k <= |l'.outbox| && !StopIn(l'.outbox[..k])
    ensures Internal(more) && Unfailing(more) && Exec(cfg, c, more) == Some(d) && Listening(d) && OnlyBoard(c, d, b)
    ensures b in d.links && d.links[b] == l'.(outbox := l'.outbox[k..])
    ensures d.arb.ceiling.reports[b] == LastSent(c.arb.ceiling.reports[b], l'.outbox[..k])
  {
    var first := BecomesByRun(cfg, c, b, l');
    var c1 := c.(links := c.links[b := l']);
    assert c1.links.Keys == c.links.Keys;
    var rest;
    rest, d := CollectSome(cfg, c1, b, k);
    RunThen(cfg, c, first, c1, rest);
    more := first + rest;
  }

  lemma StillDriving(cfg: Config, c: Cluster, more: seq<Action>, d: Cluster)
    requires Driving(cfg, c) && Exec(cfg, c, more) == Some(d) && Listening(d)
    ensures Driving(cfg, d)
  {
    FactsOnward(cfg, c, more, d);
  }

  lemma BoardFacts(cfg: Config, c: Cluster, b: BoardId)
    requires FactsHold(cfg, c) && !c.barrier && c.arb.running && b in c.links
    ensures LinkFacts(cfg, c.links[b]) && !c.links[b].node.state.AwaitingStartup?
    ensures Fold(c.links[b].node.state, c.links[b].inbox) == NodeRunning
    ensures QuietOf(b, c.links[b]).state.NodeRunning? && QuietOf(b, c.links[b]).allowed == c.arb.allowed
  {
    assert LinkAgrees(c.arb, c.links[b]);
    AheadFolds(ProspectOf(c.links[b].node), b, c.links[b].inbox, 0);
    AheadCeiling(ProspectOf(c.links[b].node), b, c.links[b].inbox, 0);
  }

  /** The arbiter has heard of a time at or past `v`, or will, or the board can follow the
      session's ceilings. */
  predicate Follows(cfg: Config, b: BoardId, l: Link, report: u64, v: u64, limit: u64) {
    v <= Highest(report, l.outbox) || (!StopIn(l.outbox) && CanFollow(cfg, b, l, report, limit))
  }

  ghost predicate Risen(cfg: Config, c: Cluster, d: Cluster, b: BoardId, v: u64)
    requires b in c.links && b in c.arb.ceiling.reports
  {
    OnlyBoard(c, d, b) && b in d.links && c.arb.ceiling.reports[b] < d.arb.ceiling.reports[b] &&
    Follows(cfg, b, d.links[b], d.arb.ceiling.reports[b], v, Limit(c.arb)) &&
    (StopIn(d.links[b].outbox) ==> StopIn(c.links[b].outbox))
  }

  /** What the ceiling of a settled round leaves to the slowest reporter. */
  lemma SlowestMayRun(cfg: Config, c: Cluster, b: BoardId)
    requires Driving(cfg, c) && 0 < cfg.marginNs && c.drained == NothingDrained && b in c.links
    requires c.arb.ceiling.reports[b] == c.arb.ceiling.VirtualTimeNs() < Limit(c.arb)
    requires CanFollow(cfg, b, c.links[b], c.arb.ceiling.reports[b], Limit(c.arb))
    requires Highest(c.arb.ceiling.reports[b], c.links[b].outbox) == c.arb.ceiling.reports[b]
    ensures Max(c.links[b].node.clock, c.arb.ceiling.reports[b]) < QuietOf(b, c.links[b]).hi
  {
    BoardFacts(cfg, c, b);
    IdleOnce(ProspectOf(c.links[b].node), b, c.links[b].inbox, 0);
    assert c.arb.allowed == c.arb.ceiling.AllowedNsUntil(c.arb.untilCap);
  }

  /** Something later than what stands at the arbiter is already on its way. */
  lemma CollectLater(cfg: Config, c: Cluster, v: u64, b: BoardId) returns (more: seq<Action>, d: Cluster)
    requires Listening(c) && b in c.links && Follows(cfg, b, c.links[b], c.arb.ceiling.reports[b], v, Limit(c.arb))
    requires c.arb.ceiling.reports[b] < Highest(c.arb.ceiling.reports[b], c.links[b].outbox)
    ensures Internal(more) && Unfailing(more) && Exec(cfg, c, more) == Some(d) && Listening(d) && Risen(cfg, c, d, b, v)
  {
    var l, report := c.links[b], c.arb.ceiling.reports[b];
    BecomesItself(cfg, b, l);
    var k := HighestAt(report, l.outbox);
    more, d := MoveAndCollect(cfg, c, b, l, k);
    assert l.outbox == l.outbox[..k] + l.outbox[k..];
    StopInAppend(l.outbox[..k], l.outbox[k..]);
    HighestRises(d.arb.ceiling.reports[b], l.outbox[k..]);
  }

  /** The board runs to its quiet reach and everything it has sent is collected. */
  lemma RunLater(cfg: Config, c: Cluster, v: u64, b: BoardId) returns (more: seq<Action>, d: Cluster)
    requires Listening(c) && b in c.links && LinkFacts(cfg, c.links[b]) && !c.links[b].node.state.AwaitingStartup?
    requires 0 < cfg.marginNs && 0 < cfg.thresholdNs && v <= Limit(c.arb)
    requires !StopIn(c.links[b].outbox) && Runs(QuietOf(b, c.links[b]))
    requires Max(c.links[b].node.clock, c.arb.ceiling.reports[b]) < QuietOf(b, c.links[b]).hi
    ensures Internal(more) && Unfailing(more) && Exec(cfg, c, more) == Some(d) && Listening(d) && Risen(cfg, c, d, b, v)
  {
    var l, report := c.links[b], c.arb.ceiling.reports[b];
    var l' := FollowRun(cfg, b, l, report, Max(l.node.clock, report) + 1);
    var k := |l'.outbox|;
    assert l'.outbox[..k] == l'.outbox && l'.outbox[k..] == [];
    more, d := MoveAndCollect(cfg, c, b, l', k);
    assert Highest(d.arb.ceiling.reports[b], []) == d.arb.ceiling.reports[b];
  }

  /** The slowest reporter gets a later time heard and can still follow. */
  lemma Advance(cfg: Config, c: Cluster, v: u64, b: BoardId) returns (more: seq<Action>, d: Cluster)
    requires Driving(cfg, c) && 0 < cfg.marginNs && 0 < cfg.thresholdNs && c.drained == NothingDrained && b in c.links
    requires c.arb.ceiling.reports[b] == c.arb.ceiling.VirtualTimeNs() < v <= Limit(c.arb)
    requires Follows(cfg, b, c.links[b], c.arb.ceiling.reports[b], v, Limit(c.arb))
    ensures Internal(more) && Unfailing(more) && Exec(cfg, c, more) == Some(d) && Driving(cfg, d) &&
            Risen(cfg, c, d, b, v)
  {
    HighestRises(c.arb.ceiling.reports[b], c.links[b].outbox);
    if c.arb.ceiling.reports[b] < Highest(c.arb.ceiling.reports[b], c.links[b].outbox) {
      more, d := CollectLater(cfg, c, v, b);
    } else {
      BoardFacts(cfg, c, b);
      SlowestMayRun(cfg, c, b);
      more, d := RunLater(cfg, c, v, b);
    }
    StillDriving(cfg, c, more, d);
  }

  // ---- all boards ----

  predicate AllFollow(cfg: Config, c: Cluster, v: u64) {
    forall b | b in c.links && b in c.arb.ceiling.reports ::
      Follows(cfg, b, c.links[b], c.arb.ceiling.reports[b], v, Limit(c.arb))
  }

  /** Boards heard at `v` or past it are left alone but for what they are sent. */
  predicate HeardKept(c: Cluster, d: Cluster, v: u64) {
    forall x | x in c.links && x in c.arb.ceiling.reports && v <= c.arb.ceiling.reports[x] ::
      x in d.links && x in d.arb.ceiling.reports && d.arb.ceiling.reports[x] == c.arb.ceiling.reports[x] &&
      d.links[x].node == c.links[x].node && d.links[x].outbox == c.links[x].outbox &&
      c.links[x].inbox <= d.links[x].inbox
  }

  lemma HeardThen(c: Cluster, d: Cluster, e: Cluster, v: u64)
    requires HeardKept(c, d, v) && HeardKept(d, e, v)
    ensures HeardKept(c, e, v)
  {
    forall x | x in c.links && x in c.arb.ceiling.reports && v <= c.arb.ceiling.reports[x]
      ensures x in e.links && x in e.arb.ceiling.reports && e.arb.ceiling.reports[x] == c.arb.ceiling.reports[x] &&
              e.links[x].node == c.links[x].node && e.links[x].outbox == c.links[x].outbox &&
              c.links[x].inbox <= e.links[x].inbox
    {
      assert x in d.links;
    }
  }

  /** The session and its cap are the same, and no board has sent word of a stop. */
  predicate SessionKept(c: Cluster, d: Cluster) {
    d.arb.untilCap == c.arb.untilCap && d.arb.gdb == c.arb.gdb && (StopComing(d) ==> StopComing(c))
  }

  lemma SentKeepsFollowing(cfg: Config, b: BoardId, l: Link, report: u64, sent: seq<ControlToNode>, v: u64, limit: u64)
    requires Follows(cfg, b, l, report, v, limit) && (sent == [] || (|sent| == 1 && sent[0].Allowed?))
    ensures Follows(cfg, b, l.(inbox := l.inbox + sent), report, v, limit)
  {
    if sent == [] {
      assert l.inbox + sent == l.inbox;
    } else {
      var p := ProspectOf(l.node);
      AheadAppend(p, b, l.inbox, sent, 0);
      AheadFolds(QuietOf(b, l), b, sent, 0);
      IdleOnce(p, b, l.inbox, 0);
      assert sent[1..] == [];
    }
  }

  lemma FinishBelowCap(s: Session, d: Drained)
    requires s.running && d.clusterStop.None? && d.gdbInsn.None? && s.ceiling.VirtualTimeNs() < Limit(s)
    ensures var e := Finish(s, d);
            e.session == s.(allowed := e.session.allowed) &&
            e.sent == (if e.session.allowed == s.allowed then [] else [Allowed(e.session.allowed)]) &&
            e.session.allowed == if d.changed then s.ceiling.AllowedNsUntil(s.untilCap) else s.allowed
  {
  }

  /** Every board has been sent the new ceiling, if it is a new one. */
  predicate AllSent(c: Cluster, d: Cluster) {
    d.links.Keys == c.links.Keys &&
    forall x | x in c.links ::
      d.links[x] == if d.arb.allowed == c.arb.allowed then c.links[x]
                    else c.links[x].(inbox := c.links[x].inbox + [Allowed(d.arb.allowed)])
  }

  lemma SentToAll(c: Cluster, e: Effect, d: Cluster)
    requires d.arb == e.session && d.links == Broadcast(c.links, e.sent)
    requires e.sent == if e.session.allowed == c.arb.allowed then [] else [Allowed(e.session.allowed)]
    ensures AllSent(c, d)
  {
    assert forall x | x in c.links :: c.links[x].inbox + [] == c.links[x].inbox;
  }

  /** The cluster after a round that has not reached the limit. */
  ghost predicate Rounded(cfg: Config, c: Cluster, d: Cluster) {
    Driving(cfg, d) && AllSent(c, d) && d.drained == NothingDrained && d.arb == c.arb.(allowed := d.arb.allowed) &&
    d.arb.allowed == d.arb.ceiling.AllowedNsUntil(d.arb.untilCap)
  }

  /** One more round with the limit still ahead. */
  lemma RoundOn(cfg: Config, c: Cluster, d: Cluster)
    requires Driving(cfg, c) && c.arb.ceiling.VirtualTimeNs() < Limit(c.arb) && d == Apply(cfg, c, FinishRound)
    ensures Exec(cfg, c, [FinishRound]) == Some(d) && Rounded(cfg, c, d)
  {
    FactsStep(cfg, c, FinishRound);
    ExecFirst(cfg, c, FinishRound, []);
    assert [FinishRound] + [] == [FinishRound];
    FinishBelowCap(c.arb, c.drained);
    SentToAll(c, Finish(c.arb, c.drained), d);
  }

  lemma RoundKeeps(cfg: Config, c: Cluster, v: u64, d: Cluster)
    requires AllFollow(cfg, c, v) && d.arb == c.arb.(allowed := d.arb.allowed) && AllSent(c, d)
    requires c.drained.clusterStop.None? && d.drained.clusterStop.None?
    ensures AllFollow(cfg, d, v) && HeardKept(c, d, v) && SessionKept(c, d)
  {
    forall b | b in d.links && b in d.arb.ceiling.reports
      ensures Follows(cfg, b, d.links[b], d.arb.ceiling.reports[b], v, Limit(d.arb))
    {
      SentKeepsFollowing(cfg, b, c.links[b], c.arb.ceiling.reports[b], [Allowed(d.arb.allowed)], v, Limit(c.arb));
    }
  }

  // ---- how far a cluster is from the time it is driven to ----

  ghost function Slowest(c: Cluster): set<BoardId> {
    set b | b in c.arb.ceiling.reports && c.arb.ceiling.reports[b] == c.arb.ceiling.VirtualTimeNs()
  }

  lemma SlowestShrinks(c: Cluster, d: Cluster, b: BoardId)
    requires OnlyBoard(c, d, b) && b in c.links && c.links.Keys != {}
    requires c.arb.ceiling.reports[b] == c.arb.ceiling.VirtualTimeNs() < d.arb.ceiling.reports[b]
    ensures c.arb.ceiling.VirtualTimeNs() <= d.arb.ceiling.VirtualTimeNs()
    ensures d.arb.ceiling.VirtualTimeNs() == c.arb.ceiling.VirtualTimeNs() ==> Slowest(d) < Slowest(c)
  {
    var k :| k in d.arb.ceiling.reports && d.arb.ceiling.reports[k] == d.arb.ceiling.VirtualTimeNs();
    assert k == b || d.arb.ceiling.reports[k] == c.arb.ceiling.reports[k];
    if d.arb.ceiling.VirtualTimeNs() == c.arb.ceiling.VirtualTimeNs() {
      assert b in Slowest(c) && b !in Slowest(d);
      forall x | x in Slowest(d) ensures x in Slowest(c) {
        assert x != b;
      }
    }
  }

  datatype Distance = Distance(vt: u64, slowest: set<BoardId>, news: bool)

  ghost function DistanceOf(c: Cluster): Distance {
    Distance(c.arb.ceiling.VirtualTimeNs(), Slowest(c), c.drained != NothingDrained)
  }

  /** The slowest report has risen, or fewer boards have it, or there is less news. */
  predicate Nearer(to: Distance, from: Distance, v: u64) {
    SatSub(v, to.vt) < SatSub(v, from.vt) ||
    (to.vt == from.vt && (to.slowest < from.slowest || (to.slowest == from.slowest && !to.news && from.news)))
  }

  /** `more` leads from `c` to `d`, changes nothing about the boards already heard, and leaves
      every board able to follow. */
  ghost predicate Driven(cfg: Config, c: Cluster, more: seq<Action>, d: Cluster, v: u64) {
    Internal(more) && Unfailing(more) && Exec(cfg, c, more) == Some(d) && Driving(cfg, d) &&
    AllFollow(cfg, d, v) && HeardKept(c, d, v) && SessionKept(c, d)
  }

  lemma DrivenThen(cfg: Config, c: Cluster, first: seq<Action>, c1: Cluster, rest: seq<Action>, d: Cluster, v: u64)
    requires Driven(cfg, c, first, c1, v) && Driven(cfg, c1, rest, d, v)
    ensures Driven(cfg, c, first + rest, d, v)
  {
    HeardThen(c, c1, d, v);
    RunThen(cfg, c, first, c1, rest);
  }

  lemma OthersFollow(cfg: Config, c: Cluster, d: Cluster, b: BoardId, v: u64)
    requires AllFollow(cfg, c, v) && b in c.links && b in c.arb.ceiling.reports && Risen(cfg, c, d, b, v)
    requires c.drained.clusterStop.None? && d.drained.clusterStop.None? && c.arb.ceiling.reports[b] < v
    ensures AllFollow(cfg, d, v) && HeardKept(c, d, v) && SessionKept(c, d)
  {
    if StopComing(d) {
      var x :| x in d.links && StopIn(d.links[x].outbox);
      assert x in c.links && StopIn(c.links[x].outbox);
    }
  }

  lemma DriveRound(cfg: Config, c: Cluster, v: u64) returns (d: Cluster)
    requires Driving(cfg, c) && AllFollow(cfg, c, v) && c.arb.ceiling.VirtualTimeNs() < v <= Limit(c.arb)
    requires c.drained != NothingDrained
    ensures Driven(cfg, c, [FinishRound], d, v) && Nearer(DistanceOf(d), DistanceOf(c), v)
  {
    d := Apply(cfg, c, FinishRound);
    RoundOn(cfg, c, d);
    RoundKeeps(cfg, c, v, d);
  }

  lemma BoardNearer(c: Cluster, d: Cluster, b: BoardId, v: u64)
    requires OnlyBoard(c, d, b) && b in c.links && c.drained == NothingDrained
    requires c.arb.ceiling.reports[b] == c.arb.ceiling.VirtualTimeNs() < d.arb.ceiling.reports[b]
    requires c.arb.ceiling.VirtualTimeNs() < v
    ensures Nearer(DistanceOf(d), DistanceOf(c), v)
  {
    SlowestShrinks(c, d, b);
  }

  lemma DriveBoard(cfg: Config, c: Cluster, v: u64, b: BoardId) returns (more: seq<Action>, d: Cluster)
    requires 0 < cfg.marginNs && 0 < cfg.thresholdNs && Driving(cfg, c) && AllFollow(cfg, c, v)
    requires c.drained == NothingDrained && b in c.links
    requires c.arb.ceiling.reports[b] == c.arb.ceiling.VirtualTimeNs() < v <= Limit(c.arb)
    ensures Driven(cfg, c, more, d, v) && Nearer(DistanceOf(d), DistanceOf(c), v)
  {
    more, d := Advance(cfg, c, v, b);
    OthersFollow(cfg, c, d, b, v);
    BoardNearer(c, d, b, v);
  }

  lemma DriveStep(cfg: Config, c: Cluster, v: u64) returns (more: seq<Action>, d: Cluster)
    requires cfg.Valid() && 0 < cfg.marginNs && 0 < cfg.thresholdNs && Driving(cfg, c) && AllFollow(cfg, c, v)
    requires c.arb.ceiling.VirtualTimeNs() < v <= Limit(c.arb)
    ensures Driven(cfg, c, more, d, v) && Nearer(DistanceOf(d), DistanceOf(c), v)
  {
    if c.drained != NothingDrained {
      more := [FinishRound];
      d := DriveRound(cfg, c, v);
    } else {
      var b :| b in c.arb.ceiling.reports && c.arb.ceiling.reports[b] == c.arb.ceiling.VirtualTimeNs();
      more, d := DriveBoard(cfg, c, v, b);
    }
  }

  lemma NothingToDrive(cfg: Config, c: Cluster, v: u64)
    requires Driving(cfg, c) && AllFollow(cfg, c, v)
    ensures Driven(cfg, c, [], c, v)
  {
  }

  /** A cluster in which every board can follow is driven until every report is at `v` or past it. */
  lemma {:induction false} DriveTo(cfg: Config, c: Cluster, v: u64, far: Distance)
    returns (more: seq<Action>, d: Cluster)
    requires cfg.Valid() && 0 < cfg.marginNs && 0 < cfg.thresholdNs && Driving(cfg, c) && AllFollow(cfg, c, v)
    requires v <= Limit(c.arb) && far == DistanceOf(c)
    ensures Driven(cfg, c, more, d, v) && v <= d.arb.ceiling.VirtualTimeNs()
    decreases SatSub(v, far.vt), far.slowest, far.news, 0
  {
    if v <= far.vt {
      more, d := [], c;
      NothingToDrive(cfg, c, v);
    } else {
      var first, c1 := DriveStep(cfg, c, v);
      more, d := DriveOn(cfg, c, first, c1, v, DistanceOf(c1));
    }
  }

  lemma {:induction false} DriveOn(cfg: Config, c: Cluster, first: seq<Action>, c1: Cluster, v: u64, far: Distance)
    returns (more: seq<Action>, d: Cluster)
    requires cfg.Valid() && 0 < cfg.marginNs && 0 < cfg.thresholdNs && Driven(cfg, c, first, c1, v)
    requires v <= Limit(c1.arb) && far == DistanceOf(c1)
    ensures Driven(cfg, c, more, d, v) && v <= d.arb.ceiling.VirtualTimeNs()
    decreases SatSub(v, far.vt), far.slowest, far.news, 1
  {
    var rest;
    rest, d := DriveTo(cfg, c1, v, far);
    DrivenThen(cfg, c, first, c1, rest, d, v);
    more := first + rest;
  }
}
