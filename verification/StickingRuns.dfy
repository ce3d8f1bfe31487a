/** The condition of `Sticking` is exact: runs that get a cluster with a prone board stuck. */
module StickingRuns {
  import opened Prelude
  import opened Control
  import opened Arbiter
  import opened BoardRuntime
  import opened Protocol
  import opened Agreement
  import opened Reach
  import opened Hearing
  import opened Drive
  import opened Slipping
  import opened Sticking

  // ---- one board comes to rest ----

  /** A board that will run, or keep its stopped simulator, once it has read its messages. */
  predicate Willing(cfg: Config, b: BoardId, l: Link) {
    LinkFacts(cfg, l) && !l.node.state.AwaitingStartup? && !StopIn(l.outbox) && QuietOf(b, l).state.NodeRunning?
  }

  /** Reading everything without running in between. */
  lemma {:induction false} ReadAll(cfg: Config, b: BoardId, l: Link, report: u64) returns (l': Link)
    requires LinkFacts(cfg, l) && !l.node.state.AwaitingStartup? && !StopIn(l.outbox)
    ensures Becomes(cfg, b, l, l') && LinkFacts(cfg, l') && !StopIn(l'.outbox) && l'.inbox == []
    ensures l'.node.clock == l.node.clock && LastSent(report, l'.outbox) == LastSent(report, l.outbox)
    ensures Alike(ProspectOf(l'.node), QuietOf(b, l))
    decreases |l.inbox|
  {
    if l.inbox == [] {
      l' := l;
      BecomesItself(cfg, b, l);
    } else {
      ReadTells(cfg, b, l, report);
      var l1 := Moved(cfg, b, l, READ);
      AheadAlike(ProspectOf(l1.node), Take(ProspectOf(l.node), b, l.inbox[0], 0), b, l1.inbox, 0, 0);
      l' := ReadAll(cfg, b, l1, report);
      BecomesNext(cfg, b, l, READ, l');
    }
  }

  /** Nothing left to read, and the guest has stopped or is at its ceiling. */
  predicate Resting(l: Link) {
    l.inbox == [] && l.node.state.NodeRunning? && (l.node.sim.running ==> Waiting(l.node)) && !StopIn(l.outbox)
  }

  /** The board will not run again under the ceilings it has been sent. */
  predicate StaysPut(x: BoardId, l: Link) {
    !Runs(QuietOf(x, l)) || QuietOf(x, l).allowed <= l.node.clock
  }

  /** Any board can read its messages, run to its last ceiling and stay there. It has nothing to
      report if it is there already. */
  lemma Park(cfg: Config, b: BoardId, l: Link, report: u64) returns (l': Link)
    requires Willing(cfg, b, l)
    ensures Becomes(cfg, b, l, l') && Resting(l')
    ensures StaysPut(b, l) ==> LastSent(report, l'.outbox) == LastSent(report, l.outbox)
  {
    var l1 := ReadAll(cfg, b, l, report);
    if !l1.node.sim.running || l1.node.allowedNs <= l1.node.clock {
      l' := l1;
    } else {
      var m := Turn(Quiet(l1.node.allowedNs));
      l' := Moved(cfg, b, l1, m);
      var sent := AfterPoll(l1.node, m.poll).sent;
      StopInAppend(l1.outbox, sent);
      BecomesItself(cfg, b, l');
      BecomesNext(cfg, b, l1, m, l');
      BecomesThen(cfg, b, l, l1, l');
    }
  }

  /** Nothing left to read, nothing more to say while the ceiling stays within what `last` allows. */
  predicate Hushed(cfg: Config, l: Link, last: u64, limit: u64) {
    l.inbox == [] && l.node.state.NodeRunning? && !StopIn(l.outbox) &&
    (l.node.sim.running ==> TopFor(cfg, last, limit) <= l.node.clock)
  }

  /** A board that can fall silent does. */
  lemma {:induction false} Hush(cfg: Config, b: BoardId, l: Link, report: u64, limit: u64) returns (l': Link)
    requires Willing(cfg, b, l) && FallsSilent(cfg, b, l, report, limit)
    ensures Becomes(cfg, b, l, l') && Hushed(cfg, l', LastSent(report, l.outbox), limit)
    ensures LastSent(report, l'.outbox) == LastSent(report, l.outbox)
    decreases |l.inbox|
  {
    var p, top := ProspectOf(l.node), TopFor(cfg, LastSent(report, l.outbox), limit);
    if top <= l.node.clock || !Runs(QuietOf(b, l)) {
      l' := ReadAll(cfg, b, l, report);
    } else if Runs(p) && top + cfg.thresholdNs <= l.node.allowedNs {
      var m := Turn(Quiet(top));
      var l1 := Moved(cfg, b, l, m);
      TurnFacts(cfg, l, m.poll);
      assert l1.outbox == l.outbox;
      AheadAlike(ProspectOf(l1.node), p, b, l.inbox, 0, 0);
      l' := ReadAll(cfg, b, l1, report);
      BecomesNext(cfg, b, l, m, l');
    } else {
      ReadTells(cfg, b, l, report);
      var l1, q := Moved(cfg, b, l, READ), Take(p, b, l.inbox[0], 0);
      AheadFromBelow(ProspectOf(l1.node), q, b, l1.inbox, top + cfg.thresholdNs);
      AheadAlike(ProspectOf(l1.node), q, b, l1.inbox, 0, 0);
      l' := Hush(cfg, b, l1, report, limit);
      BecomesNext(cfg, b, l, READ, l');
    }
  }

  // ---- the cluster comes to rest ----

  /** What becomes of board `x` when the cluster comes to rest around the silent board `b`. */
  predicate Settles(cfg: Config, x: BoardId, b: BoardId, l: Link, l': Link, report: u64, limit: u64) {
    if x == b then
      Hushed(cfg, l', LastSent(report, l.outbox), limit) && LastSent(report, l'.outbox) == LastSent(report, l.outbox)
    else
      Resting(l') && (StaysPut(x, l) ==> LastSent(report, l'.outbox) == LastSent(report, l.outbox))
  }

  lemma SettleBoard(cfg: Config, x: BoardId, b: BoardId, l: Link, report: u64, limit: u64) returns (l': Link)
    requires Willing(cfg, x, l) && (x == b ==> FallsSilent(cfg, b, l, report, limit))
    ensures Becomes(cfg, x, l, l') && Settles(cfg, x, b, l, l', report, limit)
  {
    if x == b {
      l' := Hush(cfg, b, l, report, limit);
    } else {
      l' := Park(cfg, x, l, report);
    }
  }

  /** Every board in `todo` comes to rest; the others and the arbiter stay as they are. */
  lemma {:induction false} RestAll(cfg: Config, c: Cluster, todo: set<BoardId>, b: BoardId)
    returns (more: seq<Action>, d: Cluster)
    requires todo <= c.links.Keys && c.links.Keys == c.arb.ceiling.reports.Keys
    requires forall x | x in todo :: Willing(cfg, x, c.links[x])
    requires b in todo ==> FallsSilent(cfg, b, c.links[b], c.arb.ceiling.reports[b], Limit(c.arb))
    ensures Internal(more) && Unfailing(more) && Exec(cfg, c, more) == Some(d)
    ensures d == c.(links := d.links) && d.links.Keys == c.links.Keys
    ensures forall x | x in c.links ::
              if x in todo then Settles(cfg, x, b, c.links[x], d.links[x], c.arb.ceiling.reports[x], Limit(c.arb))
              else d.links[x] == c.links[x]
    decreases todo
  {
    if todo == {} {
      more, d := [], c;
    } else {
      var x :| x in todo;
      var l' := SettleBoard(cfg, x, b, c.links[x], c.arb.ceiling.reports[x], Limit(c.arb));
      var first := BecomesByRun(cfg, c, x, l');
      var c1 := c.(links := c.links[x := l']);
      assert c1.links.Keys == c.links.Keys;
      var rest;
      rest, d := RestAll(cfg, c1, todo - {x}, b);
      RunThen(cfg, c, first, c1, rest);
      more := first + rest;
    }
  }

  /** Everything board `x` has sent is collected. */
  lemma CollectOneBoard(cfg: Config, c: Cluster, x: BoardId) returns (more: seq<Action>, d: Cluster)
    requires Listening(c) && x in c.links && !StopIn(c.links[x].outbox)
    ensures Internal(more) && Unfailing(more) && Exec(cfg, c, more) == Some(d) && Listening(d)
    ensures d.arb == c.arb.(peers := d.arb.peers, ceiling := c.arb.ceiling.(reports := d.arb.ceiling.reports))
    ensures d.links == c.links[x := c.links[x].(outbox := [])] && d.links.Keys == c.links.Keys
    ensures d.arb.ceiling.reports ==
            c.arb.ceiling.reports[x := LastSent(c.arb.ceiling.reports[x], c.links[x].outbox)]
  {
    var k := |c.links[x].outbox|;
    assert c.links[x].outbox[..k] == c.links[x].outbox && c.links[x].outbox[k..] == [];
    more, d := CollectSome(cfg, c, x, k);
  }

  /** Everything the boards in `todo` have sent is collected. */
  lemma {:induction false} CollectAllOf(cfg: Config, c: Cluster, todo: set<BoardId>)
    returns (more: seq<Action>, d: Cluster)
    requires Listening(c) && todo <= c.links.Keys && forall x | x in todo :: !StopIn(c.links[x].outbox)
    ensures Internal(more) && Unfailing(more) && Exec(cfg, c, more) == Some(d) && Listening(d)
    ensures d.arb == c.arb.(peers := d.arb.peers, ceiling := c.arb.ceiling.(reports := d.arb.ceiling.reports))
    ensures d.links.Keys == c.links.Keys
    ensures forall x | x in c.links ::
              d.links[x] == (if x in todo then c.links[x].(outbox := []) else c.links[x]) &&
              d.arb.ceiling.reports[x] == if x in todo then LastSent(c.arb.ceiling.reports[x], c.links[x].outbox)
                                          else c.arb.ceiling.reports[x]
    decreases todo
  {
    if todo == {} {
      more, d := [], c;
    } else {
      var x :| x in todo;
      var first, c1 := CollectOneBoard(cfg, c, x);
      var rest;
      rest, d := CollectAllOf(cfg, c1, todo - {x});
      RunThen(cfg, c, first, c1, rest);
      more := first + rest;
    }
  }

  predicate RestsAt(cfg: Config, x: BoardId, b: BoardId, l: Link, report: u64, limit: u64) {
    l.inbox == [] && l.outbox == [] && l.node.state.NodeRunning? &&
    (l.node.sim.running ==> if x == b then TopFor(cfg, report, limit) <= l.node.clock else Waiting(l.node))
  }

  /** Every queue is empty and every board rests, `b` with a report that keeps the session from
      its limit. */
  ghost predicate Rest(cfg: Config, c: Cluster, b: BoardId) {
    Driving(cfg, c) && b in c.links && c.arb.ceiling.reports[b] < Limit(c.arb) &&
    forall x | x in c.links :: RestsAt(cfg, x, b, c.links[x], c.arb.ceiling.reports[x], Limit(c.arb))
  }

  ghost predicate Silent(cfg: Config, c: Cluster, b: BoardId) {
    Driving(cfg, c) && !StopComing(c) && b in c.links &&
    LastSent(c.arb.ceiling.reports[b], c.links[b].outbox) < Limit(c.arb) &&
    FallsSilent(cfg, b, c.links[b], c.arb.ceiling.reports[b], Limit(c.arb))
  }

  /** The reports after everybody has come to rest: those of boards that were there already are
      what they had sent. */
  predicate ReportsSettle(c: Cluster, d: Cluster, b: BoardId) {
    d.arb.ceiling.reports.Keys == c.arb.ceiling.reports.Keys == c.links.Keys &&
    forall x | x in c.links && (x == b || StaysPut(x, c.links[x])) ::
      d.arb.ceiling.reports[x] == LastSent(c.arb.ceiling.reports[x], c.links[x].outbox)
  }

  lemma WillingBoard(cfg: Config, c: Cluster, x: BoardId)
    requires Driving(cfg, c) && !StopComing(c) && x in c.links
    ensures Willing(cfg, x, c.links[x])
  {
    BoardFacts(cfg, c, x);
  }

  lemma SettleAll(cfg: Config, c: Cluster, b: BoardId) returns (more: seq<Action>, d: Cluster)
    requires Silent(cfg, c, b)
    ensures Internal(more) && Unfailing(more) && Exec(cfg, c, more) == Some(d)
    ensures d == c.(links := d.links) && d.links.Keys == c.links.Keys == c.arb.ceiling.reports.Keys
    ensures forall x | x in c.links ::
            Settles(cfg, x, b, c.links[x], d.links[x], c.arb.ceiling.reports[x], Limit(c.arb))
  {
    forall x | x in c.links ensures Willing(cfg, x, c.links[x]) {
      WillingBoard(cfg, c, x);
    }
    more, d := RestAll(cfg, c, c.links.Keys, b);
  }

  /** Everybody comes to rest and the arbiter hears everything. */
  lemma ComeToRest(cfg: Config, c: Cluster, b: BoardId) returns (more: seq<Action>, d: Cluster)
    requires Silent(cfg, c, b)
    ensures Internal(more) && Unfailing(more) && Exec(cfg, c, more) == Some(d) && Rest(cfg, d, b)
    ensures d.arb.allowed == c.arb.allowed && d.arb.untilCap == c.arb.untilCap && ReportsSettle(c, d, b)
    ensures d.arb.ceiling.marginNs == c.arb.ceiling.marginNs
  {
    var first, c1 := SettleAll(cfg, c, b);
    var rest;
    rest, d := CollectAllOf(cfg, c1, c1.links.Keys);
    RunThen(cfg, c, first, c1, rest);
    more := first + rest;
    StillDriving(cfg, c, more, d);
    forall x | x in d.links ensures RestsAt(cfg, x, b, d.links[x], d.arb.ceiling.reports[x], Limit(d.arb)) {
      assert Settles(cfg, x, b, c.links[x], c1.links[x], c.arb.ceiling.reports[x], Limit(c.arb));
    }
  }

  // ---- rounds until nothing moves ----

  lemma AtItsCeiling(cfg: Config, c: Cluster, b: BoardId, x: BoardId)
    requires Rest(cfg, c, b) && x in c.links && c.links[x].node.sim.running
    requires c.arb.allowed == c.arb.ceiling.AllowedNsUntil(c.arb.untilCap) || x != b
    ensures Waiting(c.links[x].node) && c.arb.allowed <= c.links[x].node.clock
  {
    assert RestsAt(cfg, x, b, c.links[x], c.arb.ceiling.reports[x], Limit(c.arb));
    assert LinkAgrees(c.arb, c.links[x]) && LinkFacts(cfg, c.links[x]);
    assert c.arb.ceiling.VirtualTimeNs() <= c.arb.ceiling.reports[x];
  }

  lemma RestIsStuck(cfg: Config, c: Cluster, b: BoardId)
    requires Rest(cfg, c, b) && c.drained == NothingDrained
    requires c.arb.allowed == c.arb.ceiling.AllowedNsUntil(c.arb.untilCap)
    ensures Stuck(cfg, c)
  {
    assert c.arb.ceiling.VirtualTimeNs() <= c.arb.ceiling.reports[b];
    forall x | x in c.links
      ensures c.links[x].inbox == [] && c.links[x].outbox == [] && !GuestMayPoll(c.links[x].node)
    {
      assert RestsAt(cfg, x, b, c.links[x], c.arb.ceiling.reports[x], Limit(c.arb));
      if c.links[x].node.sim.running {
        AtItsCeiling(cfg, c, b, x);
      }
    }
    forall a | !IsCommand(a) && Enabled(cfg, c, a) ensures a == FinishRound {
    }
    assert Finish(c.arb, c.drained) == Effect(c.arb, []);
    assert Broadcast(c.links, []) == c.links;
  }

  /** A round that publishes a ceiling leaves the silent board silent. */
  lemma StillSilent(cfg: Config, c: Cluster, b: BoardId, d: Cluster)
    requires Rest(cfg, c, b) && Driving(cfg, d) && d.drained == NothingDrained && AllSent(c, d)
    requires d.arb == c.arb.(allowed := d.arb.allowed) && d.arb.allowed != c.arb.allowed
    ensures Silent(cfg, d, b)
    ensures forall x | x in d.links :: d.links[x].outbox == []
  {
    forall x | x in d.links ensures d.links[x].outbox == [] {
      assert RestsAt(cfg, x, b, c.links[x], c.arb.ceiling.reports[x], Limit(c.arb));
    }
    assert RestsAt(cfg, b, b, c.links[b], c.arb.ceiling.reports[b], Limit(c.arb));
    LaterCeilings(b, c.links[b], Allowed(d.arb.allowed));
  }

  /** The new ceiling of one board that rests. */
  lemma AfterFall(cfg: Config, c: Cluster, b: BoardId, d: Cluster, x: BoardId)
    requires Rest(cfg, c, b) && Driving(cfg, d) && AllSent(c, d) && d.arb.allowed < c.arb.allowed
    requires x in d.links && x != b
    ensures StaysPut(x, d.links[x])
  {
    assert RestsAt(cfg, x, b, c.links[x], c.arb.ceiling.reports[x], Limit(c.arb));
    LaterCeilings(x, c.links[x], Allowed(d.arb.allowed));
    BoardFacts(cfg, d, x);
    if c.links[x].node.sim.running {
      AtItsCeiling(cfg, c, b, x);
    }
  }

  /** A ceiling that falls finds every board at rest, so no report changes. */
  lemma FallIsLast(cfg: Config, c: Cluster, b: BoardId, d: Cluster, e: Cluster)
    requires Rest(cfg, c, b) && Driving(cfg, d) && AllSent(c, d) && d.arb == c.arb.(allowed := d.arb.allowed)
    requires d.arb.allowed < c.arb.allowed && forall x | x in d.links :: d.links[x].outbox == []
    requires ReportsSettle(d, e, b)
    ensures e.arb.ceiling.reports == c.arb.ceiling.reports
  {
    forall x | x in d.links ensures x == b || StaysPut(x, d.links[x]) {
      if x != b {
        AfterFall(cfg, c, b, d, x);
      }
    }
    SameReports(d, e, b);
  }

  lemma SameReports(d: Cluster, e: Cluster, b: BoardId)
    requires ReportsSettle(d, e, b) && forall x | x in d.links :: d.links[x].outbox == []
    requires forall x | x in d.links :: x == b || StaysPut(x, d.links[x])
    ensures e.arb.ceiling.reports == d.arb.ceiling.reports
  {
  }

  /** Whether the ceiling is news to the boards, and how often it can still rise. */
  ghost function RoundsLeft(c: Cluster): nat {
    if c.arb.allowed == c.arb.ceiling.AllowedNsUntil(c.arb.untilCap) then 0 else 1 + U64_MAX - c.arb.allowed
  }

  lemma RoundedRun(cfg: Config, c: Cluster) returns (more: seq<Action>, d: Cluster)
    requires Driving(cfg, c) && c.arb.ceiling.VirtualTimeNs() < Limit(c.arb)
    ensures Internal(more) && Unfailing(more) && Exec(cfg, c, more) == Some(d) && Rounded(cfg, c, d)
  {
    d := Apply(cfg, c, FinishRound);
    RoundOn(cfg, c, d);
    more := [FinishRound];
  }

  lemma RoundFromRest(cfg: Config, c: Cluster, b: BoardId) returns (more: seq<Action>, d: Cluster)
    requires Rest(cfg, c, b)
    ensures Internal(more) && Unfailing(more) && Exec(cfg, c, more) == Some(d) && Rounded(cfg, c, d)
  {
    assert c.arb.ceiling.VirtualTimeNs() <= c.arb.ceiling.reports[b];
    more, d := RoundedRun(cfg, c);
  }

  lemma RoundWithoutNews(cfg: Config, c: Cluster, b: BoardId, d: Cluster)
    requires Rest(cfg, c, b) && Rounded(cfg, c, d) && d.arb.allowed == c.arb.allowed
    ensures Stuck(cfg, d)
  {
    assert d.links == c.links;
    RestIsStuck(cfg, d, b);
  }

  lemma NextRest(cfg: Config, c: Cluster, b: BoardId, d: Cluster) returns (more: seq<Action>, e: Cluster)
    requires Rest(cfg, c, b) && Rounded(cfg, c, d) && d.arb.allowed != c.arb.allowed
    ensures Internal(more) && Unfailing(more) && Exec(cfg, d, more) == Some(e) && Rest(cfg, e, b)
    ensures RoundsLeft(e) < RoundsLeft(c)
  {
    StillSilent(cfg, c, b, d);
    more, e := ComeToRest(cfg, d, b);
    if d.arb.allowed < c.arb.allowed {
      FallIsLast(cfg, c, b, d, e);
      assert e.arb.ceiling == d.arb.ceiling;
    }
  }

  lemma SticksThen(cfg: Config, c: Cluster, first: seq<Action>, d: Cluster, rest: seq<Action>)
    requires Internal(first) && Unfailing(first) && Exec(cfg, c, first) == Some(d) && Sticks(cfg, d, rest)
    ensures Sticks(cfg, c, first + rest)
  {
    RunThen(cfg, c, first, d, rest);
  }

  lemma StuckNow(cfg: Config, c: Cluster)
    requires Stuck(cfg, c)
    ensures Sticks(cfg, c, [])
  {
  }

  /** A round from rest changes nothing, or leads to rest with fewer rounds left. */
  lemma RestOn(cfg: Config, c: Cluster, b: BoardId) returns (more: seq<Action>, d: Cluster)
    requires Rest(cfg, c, b)
    ensures Internal(more) && Unfailing(more) && Exec(cfg, c, more) == Some(d)
    ensures Stuck(cfg, d) || (Rest(cfg, d, b) && RoundsLeft(d) < RoundsLeft(c))
  {
    more, d := RoundFromRest(cfg, c, b);
    if d.arb.allowed == c.arb.allowed {
      RoundWithoutNews(cfg, c, b, d);
    } else {
      var rest, e := NextRest(cfg, c, b, d);
      RunThen(cfg, c, more, d, rest);
      more, d := more + rest, e;
    }
  }

  /** A cluster that rests around a silent board gets stuck. */
  lemma {:induction false} Settle(cfg: Config, c: Cluster, b: BoardId, left: nat) returns (more: seq<Action>)
    requires Rest(cfg, c, b) && left == RoundsLeft(c)
    ensures Sticks(cfg, c, more)
    decreases left
  {
    var first, d := RestOn(cfg, c, b);
    more := [];
    if Stuck(cfg, d) {
      StuckNow(cfg, d);
    } else {
      more := Settle(cfg, d, b, RoundsLeft(d));
    }
    SticksThen(cfg, c, first, d, more);
    more := first + more;
  }

  lemma SilentSticks(cfg: Config, c: Cluster, b: BoardId) returns (more: seq<Action>)
    requires Silent(cfg, c, b)
    ensures Sticks(cfg, c, more)
  {
    var first, d := ComeToRest(cfg, c, b);
    more := Settle(cfg, d, b, RoundsLeft(d));
    SticksThen(cfg, c, first, d, more);
    more := first + more;
  }

  // ---- a board that a late report pulls back ----

  /** The time the other boards have to reach before the late report is collected. */
  function RaiseTo(cfg: Config, l: Link, report: u64): int {
    LastSent(report, l.outbox) + cfg.thresholdNs
  }

  predicate Pulled(cfg: Config, l: Link, report: u64, limit: u64, v: u64) {
    !StopIn(l.outbox) && PulledBack(cfg, l, report, limit) && v == RaiseTo(cfg, l, report)
  }

  /** A board that cannot fall silent can follow. */
  lemma FollowsUnlessSilent(cfg: Config, c: Cluster, y: BoardId, v: u64)
    requires Driving(cfg, c) && !StopComing(c) && y in c.links && v <= Limit(c.arb) && !Silent(cfg, c, y)
    ensures Follows(cfg, y, c.links[y], c.arb.ceiling.reports[y], v, Limit(c.arb))
  {
    HighestAppend(c.arb.ceiling.reports[y], c.links[y].outbox, []);
  }

  lemma HighCollected(cfg: Config, l: Link, report: u64, k: nat, high: u64, limit: u64, v: u64)
    requires Pulled(cfg, l, report, limit, v) && k <= |l.outbox| && !StopIn(l.outbox[..k])
    requires high == LastSent(report, l.outbox[..k]) == Highest(report, l.outbox)
    ensures Pulled(cfg, l.(outbox := l.outbox[k..]), high, limit, v) && v <= high < limit
  {
    assert l.outbox == l.outbox[..k] + l.outbox[k..];
    StopInAppend(l.outbox[..k], l.outbox[k..]);
    SentAppend(report, l.outbox[..k], l.outbox[k..]);
    HighestAppend(report, l.outbox[..k], l.outbox[k..]);
    HighestRises(high, l.outbox[k..]);
  }

  lemma OthersStillFollow(cfg: Config, c: Cluster, b: BoardId, v: u64, d: Cluster)
    requires AllFollow(cfg, c, v) && OnlyBoard(c, d, b) && b in d.links && v <= d.arb.ceiling.reports[b]
    requires !StopComing(c) && d.drained.clusterStop.None? && !StopIn(d.links[b].outbox)
    ensures AllFollow(cfg, d, v) && !StopComing(d)
  {
    HighestRises(d.arb.ceiling.reports[b], d.links[b].outbox);
  }

  /** The report that is about to be overwritten is collected; the later ones are left. */
  lemma CollectHigh(cfg: Config, c: Cluster, b: BoardId, v: u64) returns (more: seq<Action>, d: Cluster)
    requires Driving(cfg, c) && AllFollow(cfg, c, v) && !StopComing(c) && b in c.links
    requires Pulled(cfg, c.links[b], c.arb.ceiling.reports[b], Limit(c.arb), v)
    ensures Internal(more) && Unfailing(more) && Exec(cfg, c, more) == Some(d)
    ensures Driving(cfg, d) && AllFollow(cfg, d, v) && !StopComing(d) && b in d.links
    ensures Pulled(cfg, d.links[b], d.arb.ceiling.reports[b], Limit(d.arb), v)
    ensures v <= d.arb.ceiling.reports[b] < Limit(d.arb)
  {
    var l, report := c.links[b], c.arb.ceiling.reports[b];
    BecomesItself(cfg, b, l);
    var k := HighestAt(report, l.outbox);
    more, d := MoveAndCollect(cfg, c, b, l, k);
    HighCollected(cfg, l, report, k, d.arb.ceiling.reports[b], Limit(c.arb), v);
    OthersStillFollow(cfg, c, b, v, d);
    StillDriving(cfg, c, more, d);
  }

  /** The ceiling that the raised reports allow takes the board a threshold past what its own
      report will allow. */
  lemma RaisedTooFar(cfg: Config, c: Cluster, b: BoardId, v: u64)
    returns (more: seq<Action>, d: Cluster)
    requires Driving(cfg, c) && !StopComing(c) && b in c.links
    requires Pulled(cfg, c.links[b], c.arb.ceiling.reports[b], Limit(c.arb), v)
    requires v <= c.arb.ceiling.VirtualTimeNs() < Limit(c.arb)
    ensures Internal(more) && Unfailing(more) && Exec(cfg, c, more) == Some(d) && Silent(cfg, d, b)
  {
    more, d := RoundedRun(cfg, c);
    RaisedOne(cfg, c, b, v, d);
  }

  lemma RaisedOne(cfg: Config, c: Cluster, b: BoardId, v: u64, d: Cluster)
    requires b in c.links && b in d.links && b in c.arb.ceiling.reports && c.arb.ceiling.marginNs == cfg.marginNs
    requires Pulled(cfg, c.links[b], c.arb.ceiling.reports[b], Limit(c.arb), v) && v <= c.arb.ceiling.VirtualTimeNs()
    requires d.arb == c.arb.(allowed := c.arb.ceiling.AllowedNsUntil(c.arb.untilCap)) && Driving(cfg, d)
    requires d.links[b].outbox == c.links[b].outbox
    ensures FallsSilent(cfg, b, d.links[b], d.arb.ceiling.reports[b], Limit(d.arb))
  {
    BoardFacts(cfg, d, b);
    IdleOnce(ProspectOf(d.links[b].node), b, d.links[b].inbox, 0);
  }

  lemma KeptPulled(cfg: Config, c: Cluster, b: BoardId, v: u64, d: Cluster)
    requires b in c.links && b in c.arb.ceiling.reports && HeardKept(c, d, v) && d.arb.untilCap == c.arb.untilCap
    requires v <= c.arb.ceiling.reports[b] < Limit(c.arb)
    requires Pulled(cfg, c.links[b], c.arb.ceiling.reports[b], Limit(c.arb), v)
    ensures b in d.links && b in d.arb.ceiling.reports && d.arb.ceiling.VirtualTimeNs() < Limit(d.arb)
    ensures Pulled(cfg, d.links[b], d.arb.ceiling.reports[b], Limit(d.arb), v)
  {
    assert d.arb.ceiling.VirtualTimeNs() <= d.arb.ceiling.reports[b];
  }

  lemma DriveAround(cfg: Config, c: Cluster, b: BoardId, v: u64) returns (more: seq<Action>, d: Cluster)
    requires cfg.Valid() && 0 < cfg.marginNs && 0 < cfg.thresholdNs && Driving(cfg, c) && AllFollow(cfg, c, v)
    requires !StopComing(c) && b in c.links && v <= c.arb.ceiling.reports[b] < Limit(c.arb)
    requires Pulled(cfg, c.links[b], c.arb.ceiling.reports[b], Limit(c.arb), v)
    ensures Internal(more) && Unfailing(more) && Exec(cfg, c, more) == Some(d) && Driving(cfg, d) && !StopComing(d)
    ensures b in d.links && Pulled(cfg, d.links[b], d.arb.ceiling.reports[b], Limit(d.arb), v)
    ensures v <= d.arb.ceiling.VirtualTimeNs() < Limit(d.arb)
  {
    more, d := DriveTo(cfg, c, v, DistanceOf(c));
    KeptPulled(cfg, c, b, v, d);
  }

  lemma Raise(cfg: Config, c: Cluster, b: BoardId, v: u64) returns (more: seq<Action>, d: Cluster)
    requires cfg.Valid() && 0 < cfg.marginNs && 0 < cfg.thresholdNs && Driving(cfg, c) && AllFollow(cfg, c, v)
    requires !StopComing(c) && b in c.links && v <= c.arb.ceiling.reports[b] < Limit(c.arb)
    requires Pulled(cfg, c.links[b], c.arb.ceiling.reports[b], Limit(c.arb), v)
    ensures Internal(more) && Unfailing(more) && Exec(cfg, c, more) == Some(d) && Silent(cfg, d, b)
  {
    var first, c1 := DriveAround(cfg, c, b, v);
    more, d := RaisedTooFar(cfg, c1, b, v);
    RunThen(cfg, c, first, c1, more);
    more := first + more;
  }

  /** While the late report waits, the other boards take the ceiling a threshold further. */
  lemma RaiseSticks(cfg: Config, c: Cluster, b: BoardId, v: u64) returns (more: seq<Action>)
    requires cfg.Valid() && 0 < cfg.marginNs && 0 < cfg.thresholdNs && Driving(cfg, c) && AllFollow(cfg, c, v)
    requires !StopComing(c) && b in c.links && v <= c.arb.ceiling.reports[b] < Limit(c.arb)
    requires Pulled(cfg, c.links[b], c.arb.ceiling.reports[b], Limit(c.arb), v)
    ensures Sticks(cfg, c, more)
  {
    var first, d := Raise(cfg, c, b, v);
    more := SilentSticks(cfg, d, b);
    SticksThen(cfg, c, first, d, more);
    more := first + more;
  }

  lemma PulledSticks(cfg: Config, c: Cluster, b: BoardId, v: u64) returns (more: seq<Action>)
    requires cfg.Valid() && 0 < cfg.marginNs && 0 < cfg.thresholdNs && Driving(cfg, c) && AllFollow(cfg, c, v)
    requires !StopComing(c) && b in c.links && Pulled(cfg, c.links[b], c.arb.ceiling.reports[b], Limit(c.arb), v)
    ensures Sticks(cfg, c, more)
  {
    var first, d := CollectHigh(cfg, c, b, v);
    more := RaiseSticks(cfg, d, b, v);
    SticksThen(cfg, c, first, d, more);
    more := first + more;
  }

  lemma ListensUnlessStopping(cfg: Config, c: Cluster)
    requires FactsHold(cfg, c) && !c.barrier && c.arb.running && !StopComing(c)
    ensures Driving(cfg, c)
  {
  }

  lemma NoneSilent(cfg: Config, c: Cluster, v: u64)
    requires Driving(cfg, c) && !StopComing(c) && v <= Limit(c.arb) && forall y | y in c.links :: !Silent(cfg, c, y)
    ensures AllFollow(cfg, c, v)
  {
    forall y | y in c.links && y in c.arb.ceiling.reports
      ensures Follows(cfg, y, c.links[y], c.arb.ceiling.reports[y], v, Limit(c.arb))
    {
      FollowsUnlessSilent(cfg, c, y, v);
    }
  }

  predicate SomeExposed(cfg: Config, c: Cluster) {
    exists b | b in c.links && b in c.arb.ceiling.reports ::
      Exposed(cfg, b, c.links[b], c.arb.ceiling.reports[b], Limit(c.arb))
  }

  lemma ExposedSticks(cfg: Config, c: Cluster) returns (more: seq<Action>)
    requires cfg.Valid() && 0 < cfg.marginNs && 0 < cfg.thresholdNs
    requires FactsHold(cfg, c) && !c.barrier && c.arb.running && !StopComing(c) && SomeExposed(cfg, c)
    ensures Sticks(cfg, c, more)
  {
    ListensUnlessStopping(cfg, c);
    if y :| y in c.links && Silent(cfg, c, y) {
      more := SilentSticks(cfg, c, y);
    } else {
      var b :| b in c.links && b in c.arb.ceiling.reports &&
               Exposed(cfg, b, c.links[b], c.arb.ceiling.reports[b], Limit(c.arb));
      var v := RaiseTo(cfg, c.links[b], c.arb.ceiling.reports[b]);
      NoneSilent(cfg, c, v);
      more := PulledSticks(cfg, c, b, v);
    }
  }

  // ---- a board that may slip ----

  /** The late report itself. */
  lemma SlipTurn(cfg: Config, b: BoardId, l: Link, report: u64, limit: u64, t: u64) returns (l': Link)
    requires LinkFacts(cfg, l) && !l.node.state.AwaitingStartup? && !StopIn(l.outbox)
    requires l.node.clock < LastSent(report, l.outbox)
    requires SlipsAt(cfg, ProspectOf(l.node), l.node.lastReport, b, l.inbox, t, report, limit)
    ensures Becomes(cfg, b, l, l') && !StopIn(l'.outbox) && Exposed(cfg, b, l', report, limit)
  {
    var m := Turn(Quiet(t));
    l' := Moved(cfg, b, l, m);
    assert l'.outbox == l.outbox + [TimeReport(t)];
    Reported(report, l.outbox, t);
    StopInAppend(l.outbox, [TimeReport(t)]);
    SentWithin(report, l.outbox, l.node.clock);
    assert QuietOf(b, l') == Ahead(ProspectOf(l.node).(hi := t), b, l.inbox, 0);
    BecomesItself(cfg, b, l');
    BecomesNext(cfg, b, l, m, l');
  }

  /** The board reads on to the ceiling under which it slips, without running, and slips. */
  lemma {:induction false} SlipRun(cfg: Config, b: BoardId, l: Link, report: u64, limit: u64) returns (l': Link)
    requires LinkFacts(cfg, l) && !l.node.state.AwaitingStartup? && !StopIn(l.outbox) &&
             MaySlip(cfg, b, l, report, limit)
    ensures Becomes(cfg, b, l, l') && !StopIn(l'.outbox) && Exposed(cfg, b, l', report, limit)
    decreases |l.inbox|
  {
    var p := ProspectOf(l.node);
    if t :| SlipsAt(cfg, p, l.node.lastReport, b, l.inbox, t, report, limit) {
      l' := SlipTurn(cfg, b, l, report, limit, t);
    } else {
      ReadTells(cfg, b, l, report);
      ReadReach(b, l, StepTimedOut);
      var l1 := Moved(cfg, b, l, READ);
      SlipsAlike(cfg, Unrun(p, b, l.inbox[0]), ProspectOf(l1.node), l1.node.lastReport, b, l1.inbox, report, limit);
      l' := SlipRun(cfg, b, l1, report, limit);
      BecomesNext(cfg, b, l, READ, l');
    }
  }

  lemma SlippedCluster(cfg: Config, c: Cluster, b: BoardId, l': Link, more: seq<Action>, d: Cluster)
    requires FactsHold(cfg, c) && !StopComing(c) && b in c.links && !StopIn(l'.outbox)
    requires d == c.(links := c.links[b := l']) && Exec(cfg, c, more) == Some(d)
    ensures FactsHold(cfg, d) && !StopComing(d)
  {
    FactsOnward(cfg, c, more, d);
  }

  lemma SlipSticks(cfg: Config, c: Cluster, b: BoardId) returns (more: seq<Action>)
    requires cfg.Valid() && 0 < cfg.marginNs && 0 < cfg.thresholdNs
    requires FactsHold(cfg, c) && !c.barrier && c.arb.running && !StopComing(c) && b in c.links
    requires b in c.arb.ceiling.reports && MaySlip(cfg, b, c.links[b], c.arb.ceiling.reports[b], Limit(c.arb))
    ensures Sticks(cfg, c, more)
  {
    BoardFacts(cfg, c, b);
    var l' := SlipRun(cfg, b, c.links[b], c.arb.ceiling.reports[b], Limit(c.arb));
    var first := BecomesByRun(cfg, c, b, l');
    var d := c.(links := c.links[b := l']);
    SlippedCluster(cfg, c, b, l', first, d);
    more := ExposedSticks(cfg, d);
    SticksThen(cfg, c, first, d, more);
    more := first + more;
  }

  /** A prone board gets the cluster stuck: for every reachable state in which the session runs. */
  lemma ProneSticks(cfg: Config, c: Cluster) returns (more: seq<Action>)
    requires cfg.Valid() && 0 < cfg.marginNs && 0 < cfg.thresholdNs
    requires FactsHold(cfg, c) && !c.barrier && c.arb.running && !StopComing(c) && SomeProne(cfg, c)
    ensures Sticks(cfg, c, more)
  {
    var b :| b in c.links && b in c.arb.ceiling.reports &&
             Prone(cfg, b, c.links[b], c.arb.ceiling.reports[b], Limit(c.arb));
    if Exposed(cfg, b, c.links[b], c.arb.ceiling.reports[b], Limit(c.arb)) {
      more := ExposedSticks(cfg, c);
    } else {
      more := SlipSticks(cfg, c, b);
    }
  }
}
