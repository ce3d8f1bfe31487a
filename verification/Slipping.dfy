/** Boards whose report a Reset has lifted above their clock: whether one of them may next report
    a time that comes too late to be made good. */
module Slipping {
  import opened Prelude
  import opened Control
  import opened Lifecycle
  import opened Protocol
  import opened Reach

  /** The highest ceiling a board can be given while `report` stands for it. */
  function TopFor(cfg: Config, report: u64, limit: u64): u64 {
    if SatAdd(report, cfg.marginNs) <= limit then SatAdd(report, cfg.marginNs) else limit
  }

  /** A board for which `report` stands and which now reports `t`, with ceilings up to `hi` still
      to come: it may pass the ceiling that `t` allows by a threshold, under those ceilings or
      under what `report` allows until `t` is collected. */
  predicate Misses(cfg: Config, t: u64, hi: u64, report: u64, limit: u64) {
    t < limit &&
    (TopFor(cfg, t, limit) + cfg.thresholdNs <= hi ||
     (t + cfg.thresholdNs <= report < limit && t + cfg.marginNs + cfg.thresholdNs <= limit))
  }

  /** Under its present ceiling the board can report `t`. */
  predicate CanReport(cfg: Config, p: Prospect, last: Option<u64>, t: u64) {
    Runs(p) && p.hi < p.allowed < t + cfg.thresholdNs && p.hi <= t <= p.allowed && last != Some(t)
  }

  /** And that is too late. */
  predicate SlipsAt(cfg: Config, p: Prospect, last: Option<u64>, me: BoardId, inbox: seq<ControlToNode>, t: u64,
                    report: u64, limit: u64) {
    CanReport(cfg, p, last, t) && Misses(cfg, t, Ahead(p.(hi := t), me, inbox, 0).hi, report, limit)
  }

  /** Reading `msg` without running first. */
  function Unrun(p: Prospect, me: BoardId, msg: ControlToNode): Prospect {
    Take(p, me, msg, 0).(hi := p.hi)
  }

  /** A Reset makes a node forget what it has reported. */
  function Recalled(last: Option<u64>, state: NodeState, msg: ControlToNode): Option<u64> {
    if NodeOnMessage(state, msg).effect.ResetEntity? then None else last
  }

  /** The board can do so under one of the ceilings it has been sent. */
  ghost predicate Slips(cfg: Config, p: Prospect, last: Option<u64>, me: BoardId, inbox: seq<ControlToNode>,
                        report: u64, limit: u64)
    decreases |inbox|
  {
    (exists t: u64 :: SlipsAt(cfg, p, last, me, inbox, t, report, limit)) ||
    (inbox != [] &&
     Slips(cfg, Unrun(p, me, inbox[0]), Recalled(last, p.state, inbox[0]), me, inbox[1..], report, limit))
  }

  /** Only the state, the ceiling, the readiness to run and the clock matter. */
  lemma {:induction false} SlipsAlike(cfg: Config, p: Prospect, q: Prospect, last: Option<u64>, me: BoardId,
                                      inbox: seq<ControlToNode>, report: u64, limit: u64)
    requires Alike(p, q) && q.hi <= p.hi && Slips(cfg, p, last, me, inbox, report, limit)
    ensures Slips(cfg, q, last, me, inbox, report, limit)
    decreases |inbox|
  {
    if t :| SlipsAt(cfg, p, last, me, inbox, t, report, limit) {
      AheadMonotone(p.(hi := t), q.(hi := t), me, inbox, 0, 0);
      assert SlipsAt(cfg, q, last, me, inbox, t, report, limit);
    } else {
      SlipsAlike(cfg, Unrun(p, me, inbox[0]), Unrun(q, me, inbox[0]), Recalled(last, p.state, inbox[0]), me, inbox[1..],
                 report, limit);
    }
  }

  /** A later ceiling that `report` allows. */
  lemma AheadOfMore(p: Prospect, me: BoardId, inbox: seq<ControlToNode>, m: ControlToNode)
    requires m.Allowed? || m.ProbeWatch?
    ensures Ahead(p, me, inbox + [m], 0).hi <=
            (if m.Allowed? then Max(Ahead(p, me, inbox, 0).hi, m.allowedNs) else Ahead(p, me, inbox, 0).hi)
  {
    AheadAppend(p, me, inbox, [m], 0);
    IdleOnce(p, me, inbox, 0);
    var q, none: seq<ControlToNode> := Ahead(p, me, inbox, 0), [];
    assert [m][1..] == none;
    assert Ahead(q, me, [m], 0) == Ahead(Take(q, me, m, 0), me, none, 0) == Idle(Take(q, me, m, 0));
  }

  /** The earliest time a board at `clock` can report under a ceiling of at least `low`. */
  function NextReport(cfg: Config, clock: u64, low: int): int {
    Max(clock, low - cfg.thresholdNs + 1)
  }

  /** A report at `next` or later is less than a threshold below the standing one, or so near the
      limit that nothing comes of it. */
  predicate NearNext(cfg: Config, next: int, report: u64, limit: u64) {
    report < next + cfg.thresholdNs || limit < next + cfg.marginNs + cfg.thresholdNs
  }

  /** A ceiling that the report allows, and that is not so low that the report is far above it,
      brings no new danger. */
  lemma {:induction false} SlipsMore(cfg: Config, p: Prospect, last: Option<u64>, me: BoardId,
                                     inbox: seq<ControlToNode>,
                                     m: ControlToNode, report: u64, limit: u64, low: int)
    requires 0 < cfg.thresholdNs && (m.ProbeWatch? || (m.Allowed? && low <= m.allowedNs <= TopFor(cfg, report, limit)))
    requires report < limit && NearNext(cfg, NextReport(cfg, p.hi, low), report, limit)
    requires Slips(cfg, p, last, me, inbox + [m], report, limit)
    ensures Slips(cfg, p, last, me, inbox, report, limit)
    decreases |inbox|
  {
    if t :| SlipsAt(cfg, p, last, me, inbox + [m], t, report, limit) {
      AheadOfMore(p.(hi := t), me, inbox, m);
      assert SlipsAt(cfg, p, last, me, inbox, t, report, limit);
    } else if inbox == [] {
      assert inbox + [m] == [m] && [m][1..] == inbox;
      var q, last' := Unrun(p, me, m), Recalled(last, p.state, m);
      var t :| SlipsAt(cfg, q, last', me, inbox, t, report, limit);
      if m.ProbeWatch? {
        assert SlipsAt(cfg, p, last, me, inbox, t, report, limit);
      }
    } else {
      assert (inbox + [m])[1..] == inbox[1..] + [m];
      SlipsMore(cfg, Unrun(p, me, inbox[0]), Recalled(last, p.state, inbox[0]), me, inbox[1..], m, report, limit, low);
    }
  }

  // ---- reports from a floor on ----

  /** Whatever the board can report under the ceilings it has been sent is at or past `floor`. */
  ghost predicate TellsFrom(cfg: Config, p: Prospect, last: Option<u64>, me: BoardId, inbox: seq<ControlToNode>,
                            floor: int)
    decreases |inbox|
  {
    (forall t: u64 | CanReport(cfg, p, last, t) :: floor <= t) &&
    (inbox == [] ||
     TellsFrom(cfg, Unrun(p, me, inbox[0]), Recalled(last, p.state, inbox[0]), me, inbox[1..], floor))
  }

  lemma {:induction false} TellsFromAlike(cfg: Config, p: Prospect, q: Prospect, last: Option<u64>, me: BoardId,
                                          inbox: seq<ControlToNode>, floor: int)
    requires Alike(p, q) && p.hi <= q.hi && TellsFrom(cfg, p, last, me, inbox, floor)
    ensures TellsFrom(cfg, q, last, me, inbox, floor)
    decreases |inbox|
  {
    forall t: u64 | CanReport(cfg, q, last, t) ensures floor <= t {
      assert CanReport(cfg, p, last, t);
    }
    if inbox != [] {
      TellsFromAlike(cfg, Unrun(p, me, inbox[0]), Unrun(q, me, inbox[0]), Recalled(last, p.state, inbox[0]), me,
                     inbox[1..], floor);
    }
  }

  lemma {:induction false} TellsFromMore(cfg: Config, p: Prospect, last: Option<u64>, me: BoardId,
                                         inbox: seq<ControlToNode>, m: ControlToNode, floor: int)
    requires TellsFrom(cfg, p, last, me, inbox, floor)
    requires m.ProbeWatch? || (CeilingIn(m).Some? && floor + cfg.thresholdNs - 1 <= CeilingIn(m).value)
    ensures TellsFrom(cfg, p, last, me, inbox + [m], floor)
    decreases |inbox|
  {
    if inbox == [] {
      var q, last' := Unrun(p, me, m), Recalled(last, p.state, m);
      assert inbox + [m] == [m] && [m][1..] == inbox;
      forall t: u64 | CanReport(cfg, q, last', t) ensures floor <= t {
        assert m.ProbeWatch? ==> CanReport(cfg, p, last, t);
      }
      assert TellsFrom(cfg, q, last', me, inbox, floor);
    } else {
      assert (inbox + [m])[1..] == inbox[1..] + [m];
      TellsFromMore(cfg, Unrun(p, me, inbox[0]), Recalled(last, p.state, inbox[0]), me, inbox[1..], m, floor);
    }
  }

  /** A board that cannot slip reports no time a threshold or more below its report. */
  lemma {:induction false} TellsUnlessSlips(cfg: Config, p: Prospect, last: Option<u64>, me: BoardId,
                                            inbox: seq<ControlToNode>, report: u64, limit: u64, floor: int)
    requires report < limit && report + cfg.marginNs + cfg.thresholdNs <= limit && floor < report - cfg.thresholdNs + 2
    requires !Slips(cfg, p, last, me, inbox, report, limit)
    ensures TellsFrom(cfg, p, last, me, inbox, floor)
    decreases |inbox|
  {
    forall t: u64 | CanReport(cfg, p, last, t) ensures floor <= t {
      assert !SlipsAt(cfg, p, last, me, inbox, t, report, limit);
    }
    if inbox != [] {
      TellsUnlessSlips(cfg, Unrun(p, me, inbox[0]), Recalled(last, p.state, inbox[0]), me, inbox[1..], report, limit,
                       floor);
    }
  }
}
