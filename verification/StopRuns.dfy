/** The condition of `StopCondition` is exact: runs that reach the stop it allows. */
module StopRuns {
  import opened Prelude
  import opened Control
  import opened Lifecycle
  import opened BoardRuntime
  import opened Protocol
  import opened Reach
  import opened Hearing
  import opened Drive
  import opened ExactStop
  import opened StopCondition

  // ---- one board ----

  lemma {:induction false} ReportRun(cfg: Config, b: BoardId, l: Link, report: u64, v: u64) returns (l': Link)
    requires LinkFacts(cfg, l) && 0 < cfg.thresholdNs && !l.node.state.AwaitingStartup? && !StopIn(l.outbox)
    requires FirstReportOf(cfg, b, l, v).Some?
    ensures Becomes(cfg, b, l, l') && v <= Highest(report, l'.outbox)
    ensures ReachOf(cfg, b, l') == FirstReportOf(cfg, b, l, v).value
    decreases |l.inbox|, ProspectOf(l.node) != Idle(ProspectOf(l.node))
  {
    var p := ProspectOf(l.node);
    if Idle(p) != p {
      var m := Turn(Quiet(l.node.allowedNs));
      TurnTells(cfg, b, l);
      var l1 := Moved(cfg, b, l, m);
      OneReport(report, l.outbox, l.node.allowedNs);
      assert Ahead(Idle(p), b, l.inbox, cfg.stepBound) == Ahead(p, b, l.inbox, cfg.stepBound);
      if v <= l.node.allowedNs {
        l' := l1;
        BecomesItself(cfg, b, l1);
      } else {
        FirstReportIdle(p, b, l.inbox, v, cfg.stepBound);
        l' := ReportRun(cfg, b, l1, report, v);
      }
      BecomesNext(cfg, b, l, m, l');
    } else if NodeOnMessage(p.state, l.inbox[0]).effect == StepOnce(b) && v <= SatAdd(p.hi, cfg.stepBound) {
      l' := StepRun(cfg, b, l, report, v);
    } else {
      ReadTells(cfg, b, l, report);
      var l1, q := Moved(cfg, b, l, READ), Take(p, b, l.inbox[0], 0);
      FirstReportMonotone(q, ProspectOf(l1.node), b, l1.inbox, v, cfg.stepBound);
      FirstReportMonotone(ProspectOf(l1.node), q, b, l1.inbox, v, cfg.stepBound);
      l' := ReportRun(cfg, b, l1, report, v);
      BecomesNext(cfg, b, l, READ, l');
    }
  }

  /** A gdb step that goes as far as it may reports the time it reaches. */
  lemma StepRun(cfg: Config, b: BoardId, l: Link, report: u64, v: u64) returns (l': Link)
    requires LinkFacts(cfg, l) && l.inbox != [] && !StopIn(l.outbox) && Idle(ProspectOf(l.node)) == ProspectOf(l.node)
    requires NodeOnMessage(l.node.state, l.inbox[0]).effect == StepOnce(b) && v <= SatAdd(l.node.clock, cfg.stepBound)
    ensures Becomes(cfg, b, l, l') && v <= Highest(report, l'.outbox) && ReachOf(cfg, b, l') == ReachOf(cfg, b, l)
  {
    var t := SatAdd(l.node.clock, cfg.stepBound);
    var m := Read(Stepped(t, Step));
    l' := Moved(cfg, b, l, m);
    DeliverReach(cfg, b, l, m.step);
    var sent := [TimeReport(t), HostStop(Step)];
    assert l'.outbox == l.outbox + sent;
    HighestAppend(report, l.outbox, sent);
    assert sent[1..][0].HostStop?;
    assert Highest(LastSent(report, l.outbox), sent) >= t;
    BecomesItself(cfg, b, l');
    BecomesNext(cfg, b, l, m, l');
  }

  // ---- the boards of a running cluster ----

  /** A session capped at `u` that may still stop for it. */
  ghost predicate DrivenTo(cfg: Config, c: Cluster, u: u64) {
    Driving(cfg, c) && c.arb.untilCap == Some(u) && c.arb.gdb.None?
  }

  predicate CanSay(cfg: Config, b: BoardId, l: Link, report: u64, u: u64) {
    u <= Highest(report, l.outbox) || (!StopIn(l.outbox) && FirstReportOf(cfg, b, l, u).Some?)
  }

  /** A board that has, or can have, a time at or past `u` heard gets it heard; how far it can get
      afterwards is what `StopCondition` says. */
  lemma HearBoard(cfg: Config, c: Cluster, u: u64, b: BoardId) returns (more: seq<Action>, d: Cluster)
    requires DrivenTo(cfg, c, u) && 0 < cfg.thresholdNs && b in c.links
    requires CanSay(cfg, b, c.links[b], c.arb.ceiling.reports[b], u)
    ensures Internal(more) && Exec(cfg, c, more) == Some(d) && DrivenTo(cfg, d, u) && OnlyBoard(c, d, b)
    ensures b in d.links && u <= d.arb.ceiling.reports[b]
    ensures ReachOf(cfg, b, d.links[b]) ==
            if u <= Highest(c.arb.ceiling.reports[b], c.links[b].outbox) then ReachOf(cfg, b, c.links[b])
            else FirstReportOf(cfg, b, c.links[b], u).value
  {
    var l, report := c.links[b], c.arb.ceiling.reports[b];
    BoardFacts(cfg, c, b);
    var l' := l;
    if u <= Highest(report, l.outbox) {
      BecomesItself(cfg, b, l);
    } else {
      l' := ReportRun(cfg, b, l, report, u);
    }
    var k := HighestAt(report, l'.outbox);
    more, d := MoveAndCollect(cfg, c, b, l', k);
    StillDriving(cfg, c, more, d);
  }

  ghost predicate AllTell(cfg: Config, c: Cluster, u: u64) {
    forall b | b in c.links && b in c.arb.ceiling.reports :: CanTell(cfg, b, c.links[b], c.arb.ceiling.reports[b], u)
  }

  /** The boards outside `todo` are heard at `u` or past it, or can follow the session there. */
  predicate FollowBut(cfg: Config, c: Cluster, u: u64, todo: set<BoardId>) {
    forall b | b in c.links && b in c.arb.ceiling.reports && b !in todo ::
      Follows(cfg, b, c.links[b], c.arb.ceiling.reports[b], u, u)
  }

  lemma HeardBoard(cfg: Config, c: Cluster, d: Cluster, b: BoardId, u: u64, todo: set<BoardId>)
    requires AllTell(cfg, c, u) && FollowBut(cfg, c, u, todo) && OnlyBoard(c, d, b)
    requires b in d.links && u <= d.arb.ceiling.reports[b]
    ensures AllTell(cfg, d, u) && FollowBut(cfg, d, u, todo - {b})
    ensures b in c.links && c.arb.ceiling.reports[b] < u ==> HeardKept(c, d, u)
  {
    HighestRises(d.arb.ceiling.reports[b], d.links[b].outbox);
  }

  lemma HeardOn(cfg: Config, c: Cluster, first: seq<Action>, c1: Cluster, rest: seq<Action>, d: Cluster, u: u64)
    requires Internal(first) && Exec(cfg, c, first) == Some(c1) && HeardKept(c, c1, u)
    requires Internal(rest) && Exec(cfg, c1, rest) == Some(d) && HeardKept(c1, d, u)
    ensures Internal(first + rest) && Exec(cfg, c, first + rest) == Some(d) && HeardKept(c, d, u)
  {
    HeardThen(c, c1, d, u);
    ExecAppend(cfg, c, first, rest);
  }

  /** Whoever can say on its own that it is at `u` or past it, says so. */
  lemma {:induction false} HearAll(cfg: Config, c: Cluster, u: u64, todo: set<BoardId>)
    returns (more: seq<Action>, d: Cluster)
    requires 0 < cfg.thresholdNs && DrivenTo(cfg, c, u) && AllTell(cfg, c, u) && FollowBut(cfg, c, u, todo)
    ensures Internal(more) && Exec(cfg, c, more) == Some(d) && DrivenTo(cfg, d, u) && HeardKept(c, d, u)
    ensures FollowBut(cfg, d, u, {})
    decreases todo
  {
    more, d := [], c;
    if todo != {} {
      var b :| b in todo;
      if b in c.links && c.arb.ceiling.reports[b] < u && CanSay(cfg, b, c.links[b], c.arb.ceiling.reports[b], u) {
        var first, c1 := HearNext(cfg, c, u, b, todo);
        more, d := HearAll(cfg, c1, u, todo - {b});
        HeardOn(cfg, c, first, c1, more, d, u);
        more := first + more;
      } else {
        SilentFollows(cfg, c, u, b, todo);
        more, d := HearAll(cfg, c, u, todo - {b});
      }
    }
  }

  lemma HearNext(cfg: Config, c: Cluster, u: u64, b: BoardId, todo: set<BoardId>)
    returns (more: seq<Action>, d: Cluster)
    requires 0 < cfg.thresholdNs && DrivenTo(cfg, c, u) && AllTell(cfg, c, u) && FollowBut(cfg, c, u, todo)
    requires b in c.links && c.arb.ceiling.reports[b] < u && CanSay(cfg, b, c.links[b], c.arb.ceiling.reports[b], u)
    ensures Internal(more) && Exec(cfg, c, more) == Some(d) && DrivenTo(cfg, d, u) && HeardKept(c, d, u)
    ensures AllTell(cfg, d, u) && FollowBut(cfg, d, u, todo - {b})
  {
    more, d := HearBoard(cfg, c, u, b);
    HeardBoard(cfg, c, d, b, u, todo);
  }

  lemma SilentFollows(cfg: Config, c: Cluster, u: u64, b: BoardId, todo: set<BoardId>)
    requires AllTell(cfg, c, u) && FollowBut(cfg, c, u, todo)
    requires b in c.links && b in c.arb.ceiling.reports && c.arb.ceiling.reports[b] < u ==>
               !CanSay(cfg, b, c.links[b], c.arb.ceiling.reports[b], u)
    ensures FollowBut(cfg, c, u, todo - {b})
  {
    if b in c.links && b in c.arb.ceiling.reports {
      HighestRises(c.arb.ceiling.reports[b], c.links[b].outbox);
    }
  }

  /** The round that ends the run. */
  lemma RoundStops(cfg: Config, c: Cluster, u: u64, d: Cluster)
    requires DrivenTo(cfg, c, u) && u <= c.arb.ceiling.VirtualTimeNs() && d == Apply(cfg, c, FinishRound)
    ensures Exec(cfg, c, [FinishRound]) == Some(d) && d.arb.lastStop == Some(Until) && HeardKept(c, d, u)
  {
    ExecFirst(cfg, c, FinishRound, []);
    assert [FinishRound] + [] == [FinishRound];
  }

  /** `more` drives `c` to a stop for the cap and leaves the boards already heard alone. */
  ghost predicate Drives(cfg: Config, c: Cluster, more: seq<Action>, d: Cluster, u: u64) {
    Internal(more) && Exec(cfg, c, more) == Some(d) && d.arb.lastStop == Some(Until) && HeardKept(c, d, u)
  }

  lemma DrivesThen(cfg: Config, c: Cluster, first: seq<Action>, c1: Cluster, rest: seq<Action>, d: Cluster, u: u64)
    requires Internal(first) && Exec(cfg, c, first) == Some(c1) && HeardKept(c, c1, u) && Drives(cfg, c1, rest, d, u)
    ensures Drives(cfg, c, first + rest, d, u)
  {
    HeardOn(cfg, c, first, c1, rest, d, u);
  }

  lemma DriveEnds(cfg: Config, c: Cluster, u: u64) returns (more: seq<Action>, d: Cluster)
    requires DrivenTo(cfg, c, u) && u <= c.arb.ceiling.VirtualTimeNs()
    ensures Drives(cfg, c, more, d, u)
  {
    more, d := [FinishRound], Apply(cfg, c, FinishRound);
    RoundStops(cfg, c, u, d);
  }

  lemma AllWillFollow(cfg: Config, c: Cluster, u: u64)
    requires FollowBut(cfg, c, u, {}) && c.arb.untilCap == Some(u)
    ensures AllFollow(cfg, c, u)
  {
  }

  lemma DriveAndEnd(cfg: Config, c: Cluster, u: u64) returns (more: seq<Action>, d: Cluster)
    requires cfg.Valid() && 0 < cfg.marginNs && 0 < cfg.thresholdNs && DrivenTo(cfg, c, u) && AllFollow(cfg, c, u)
    ensures Drives(cfg, c, more, d, u)
  {
    var first, c1 := DriveTo(cfg, c, u, DistanceOf(c));
    more, d := DriveEnds(cfg, c1, u);
    DrivesThen(cfg, c, first, c1, more, d, u);
    more := first + more;
  }

  /** A cluster in which every board can tell is driven to its stop. */
  lemma DriveOut(cfg: Config, c: Cluster, u: u64) returns (more: seq<Action>, d: Cluster)
    requires cfg.Valid() && 0 < cfg.marginNs && 0 < cfg.thresholdNs && DrivenTo(cfg, c, u) && AllTell(cfg, c, u)
    ensures Drives(cfg, c, more, d, u)
  {
    var first, c1 := HearAll(cfg, c, u, c.links.Keys);
    AllWillFollow(cfg, c1, u);
    more, d := DriveAndEnd(cfg, c1, u);
    DrivesThen(cfg, c, first, c1, more, d, u);
    more := first + more;
  }

  // ---- the exact condition ----

  /** `more` ends, without host commands, in a stop for the cap. */
  ghost predicate StopsForCap(cfg: Config, c: Cluster, more: seq<Action>) {
    Internal(more) && Exec(cfg, c, more).Some? && Exec(cfg, c, more).value.arb.lastStop == Some(Until)
  }

  /** Board `b` is then somewhere else. */
  ghost predicate StopsInexactly(cfg: Config, c: Cluster, u: u64, more: seq<Action>, b: BoardId) {
    StopsForCap(cfg, c, more) && b in Exec(cfg, c, more).value.links &&
        Exec(cfg, c, more).value.links[b].node.clock != u
  }

  lemma StartsDriving(cfg: Config, actions: seq<Action>, u: u64)
    requires Exec(cfg, Init(cfg), actions).Some? && RunsCapped(Exec(cfg, Init(cfg), actions).value, u)
    ensures var c := Exec(cfg, Init(cfg), actions).value;
            DrivenTo(cfg, c, u) && CappedSession(cfg, c, u) && ReasonsFromGuests(c)
  {
    FactsAlongRun(cfg, actions);
    ReasonsAlongRun(cfg, actions);
  }

  lemma HearPast(cfg: Config, c: Cluster, u: u64, b: BoardId) returns (more: seq<Action>, d: Cluster)
    requires 0 < cfg.thresholdNs && DrivenTo(cfg, c, u) && AllTell(cfg, c, u)
    requires b in c.links && CanTellPast(cfg, b, c.links[b], c.arb.ceiling.reports[b], u)
    ensures Internal(more) && Exec(cfg, c, more) == Some(d) && DrivenTo(cfg, d, u) && AllTell(cfg, d, u)
    ensures b in d.links && u <= d.arb.ceiling.reports[b] && u < ReachOf(cfg, b, d.links[b])
  {
    if FirstReportOf(cfg, b, c.links[b], u).Some? {
      FirstReportWithin(ProspectOf(c.links[b].node), b, c.links[b].inbox, u, cfg.stepBound);
    }
    more, d := HearBoard(cfg, c, u, b);
    HighestRises(d.arb.ceiling.reports[b], d.links[b].outbox);
    TellAfterHearing(cfg, c, d, b, u);
  }

  lemma StopAndPass(cfg: Config, c: Cluster, u: u64, b: BoardId) returns (more: seq<Action>)
    requires cfg.Valid() && 0 < cfg.marginNs && 0 < cfg.thresholdNs && DrivenTo(cfg, c, u) && AllTell(cfg, c, u)
    requires b in c.links && u <= c.arb.ceiling.reports[b] && u < ReachOf(cfg, b, c.links[b])
    ensures StopsInexactly(cfg, c, u, more, b)
  {
    var first, d := DriveOut(cfg, c, u);
    var rest := PassOn(cfg, c, d, u, b);
    ExecAppend(cfg, c, first, rest);
    more := first + rest;
  }

  /** The run that gets a board heard, stops, and then takes the board as far as it gets. */
  lemma TellAndPass(cfg: Config, c: Cluster, u: u64, b: BoardId) returns (more: seq<Action>)
    requires cfg.Valid() && 0 < cfg.marginNs && 0 < cfg.thresholdNs && DrivenTo(cfg, c, u) && AllTell(cfg, c, u)
    requires b in c.links && CanTellPast(cfg, b, c.links[b], c.arb.ceiling.reports[b], u)
    ensures StopsInexactly(cfg, c, u, more, b)
  {
    var first, c1 := HearPast(cfg, c, u, b);
    var rest := StopAndPass(cfg, c1, u, b);
    ExecAppend(cfg, c, first, rest);
    more := first + rest;
  }

  lemma TellAfterHearing(cfg: Config, c: Cluster, d: Cluster, b: BoardId, u: u64)
    requires AllTell(cfg, c, u) && OnlyBoard(c, d, b) && b in d.links &&
             CanTell(cfg, b, d.links[b], d.arb.ceiling.reports[b], u)
    ensures AllTell(cfg, d, u)
  {
  }

  lemma PassOn(cfg: Config, c: Cluster, d: Cluster, u: u64, b: BoardId) returns (more: seq<Action>)
    requires FactsHold(cfg, c) && HeardKept(c, d, u) && b in c.links && u <= c.arb.ceiling.reports[b] &&
             u < ReachOf(cfg, b, c.links[b])
    ensures Internal(more) && Exec(cfg, d, more).Some?
    ensures var e := Exec(cfg, d, more).value; e.arb == d.arb && b in e.links && u < e.links[b].node.clock
  {
    var l, l1 := c.links[b], d.links[b];
    assert LinkFacts(cfg, l);
    assert l1.inbox == l.inbox + l1.inbox[|l.inbox|..];
    AheadAppend(ProspectOf(l.node), b, l.inbox, l1.inbox[|l.inbox|..], cfg.stepBound);
    AheadFolds(Ahead(ProspectOf(l.node), b, l.inbox, cfg.stepBound), b, l1.inbox[|l.inbox|..], cfg.stepBound);
    var l' := ReachIsReached(cfg, b, l1);
    more := BecomesByRun(cfg, d, b, l');
  }

  lemma InexactRun(cfg: Config, c: Cluster, u: u64) returns (more: seq<Action>, b: BoardId)
    requires cfg.Valid() && 0 < cfg.marginNs && 0 < cfg.thresholdNs && DrivenTo(cfg, c, u) && Inexact(cfg, c, u)
    ensures StopsInexactly(cfg, c, u, more, b)
  {
    b :| b in c.links && b in c.arb.ceiling.reports &&
         (CanTellPast(cfg, b, c.links[b], c.arb.ceiling.reports[b], u) ||
             LeftBehind(c.links[b], c.arb.ceiling.reports[b], u));
    if LeftBehind(c.links[b], c.arb.ceiling.reports[b], u) {
      var d;
      more, d := DriveOut(cfg, c, u);
    } else {
      more := TellAndPass(cfg, c, u, b);
    }
  }

  lemma SilentCluster(cfg: Config, c: Cluster, u: u64, more: seq<Action>)
    requires CappedSession(cfg, c, u) && ReasonsFromGuests(c) && RunsCapped(c, u) && !AllTell(cfg, c, u)
    ensures !StopsForCap(cfg, c, more)
  {
    var b :| b in c.links && b in c.arb.ceiling.reports && !CanTell(cfg, b, c.links[b], c.arb.ceiling.reports[b], u);
    if StopsForCap(cfg, c, more) {
      MuteAlong(cfg, c, more, u, b);
    }
  }

  lemma FairCluster(cfg: Config, c: Cluster, u: u64, more: seq<Action>, b: BoardId)
    requires CappedSession(cfg, c, u) && ReasonsFromGuests(c) && RunsCapped(c, u)
    requires forall x | x in c.links && x in c.arb.ceiling.reports ::
             FairLink(cfg, x, c.links[x], c.arb.ceiling.reports[x], u)
    ensures !StopsInexactly(cfg, c, u, more, b)
  {
    if StopsInexactly(cfg, c, u, more, b) {
      SameBoards(cfg, c, more, b);
      FairAlong(cfg, c, more, u, b);
      var l := Exec(cfg, c, more).value.links[b];
      AheadFolds(ProspectOf(l.node), b, l.inbox, cfg.stepBound);
    }
  }

  /** Whether a capped session can stop for its cap at all: if and only if the arbiter can still
      hear from every board that it is at `u` or past it. */
  lemma StopIffAllTell(cfg: Config, actions: seq<Action>, u: u64)
    requires cfg.Valid() && 0 < cfg.marginNs && 0 < cfg.thresholdNs
    requires Exec(cfg, Init(cfg), actions).Some? && RunsCapped(Exec(cfg, Init(cfg), actions).value, u)
    ensures var c := Exec(cfg, Init(cfg), actions).value;
            AllTell(cfg, c, u) <==> exists more :: StopsForCap(cfg, c, more)
  {
    var c := Exec(cfg, Init(cfg), actions).value;
    StartsDriving(cfg, actions, u);
    if AllTell(cfg, c, u) {
      var more, d := DriveOut(cfg, c, u);
      assert StopsForCap(cfg, c, more);
    } else {
      forall more ensures !StopsForCap(cfg, c, more) {
        SilentCluster(cfg, c, u, more);
      }
    }
  }

  /** When a stop for the cap can find a clock elsewhere: if and only if every board can still be
      heard at `u` or past it, and one of them can be heard and get past `u`, or stands below `u`
      with a lifted report in its place. */
  lemma InexactStopIff(cfg: Config, actions: seq<Action>, u: u64)
    requires cfg.Valid() && 0 < cfg.marginNs && 0 < cfg.thresholdNs
    requires Exec(cfg, Init(cfg), actions).Some? && RunsCapped(Exec(cfg, Init(cfg), actions).value, u)
    ensures var c := Exec(cfg, Init(cfg), actions).value;
            Inexact(cfg, c, u) <==> exists more, b :: StopsInexactly(cfg, c, u, more, b)
  {
    var c := Exec(cfg, Init(cfg), actions).value;
    StartsDriving(cfg, actions, u);
    if Inexact(cfg, c, u) {
      var more, b := InexactRun(cfg, c, u);
    } else {
      forall more, b ensures !StopsInexactly(cfg, c, u, more, b) {
        if AllTell(cfg, c, u) {
          FairCluster(cfg, c, u, more, b);
        } else {
          SilentCluster(cfg, c, u, more);
        }
      }
    }
  }

  /** If no board can pass the cap and no lifted report reaches it, then however the run goes on
      without host commands no clock passes `u`, and once the arbiter stops for the cap every
      clock is at `u` and stays there. */
  lemma CappedRunStopsExactly(cfg: Config, actions: seq<Action>, u: u64, more: seq<Action>, b: BoardId)
    requires cfg.Valid() && Exec(cfg, Init(cfg), actions).Some? && b in cfg.boards
    requires var c := Exec(cfg, Init(cfg), actions).value;
             RunsCapped(c, u) && NoneCanPass(cfg, c, u) && Internal(more) && Exec(cfg, c, more).Some? &&
             forall x | x in c.links && x in c.arb.ceiling.reports ::
                 !LeftBehind(c.links[x], c.arb.ceiling.reports[x], u)
    ensures var d := Exec(cfg, Exec(cfg, Init(cfg), actions).value, more).value;
            b in d.links && d.links[b].node.clock <= u &&
            (d.arb.lastStop == Some(Until) ==> d.links[b].node.clock == u)
  {
    var c := Exec(cfg, Init(cfg), actions).value;
    StartsDriving(cfg, actions, u);
    SameBoards(cfg, c, more, b);
    StaysBehind(cfg, c, u, more, b);
    forall x | x in c.links && x in c.arb.ceiling.reports
      ensures FairLink(cfg, x, c.links[x], c.arb.ceiling.reports[x], u)
    {
      NotPast(cfg, x, c.links[x], c.arb.ceiling.reports[x], u);
    }
    FairCluster(cfg, c, u, more, b);
  }

  lemma NotPast(cfg: Config, b: BoardId, l: Link, report: u64, u: u64)
    requires ReachOf(cfg, b, l) <= u
    ensures !CanTellPast(cfg, b, l, report, u)
  {
    if FirstReportOf(cfg, b, l, u).Some? {
      FirstReportWithin(ProspectOf(l.node), b, l.inbox, u, cfg.stepBound);
    }
  }
}
