/** The shared virtual-time ceiling (sim-cluster/src/time_sync.rs). */
module TimeSync {
  import opened Prelude
  import opened Control

  /** Value of a `TimeCeiling`: the margin and the last report of every board. */
  datatype Ceiling = Ceiling(marginNs: u64, reports: map<BoardId, u64>) {

    function WithReport(board: BoardId, t: u64): Ceiling {
      if board in reports then this.(reports := reports[board := t]) else this
    }

    function AdvancedTo(now: u64): Ceiling {
      this.(reports := map b | b in reports :: Max(reports[b], now))
    }

    ghost function VirtualTimeNs(): u64 {
      MinOf(reports)
    }

    ghost function AllowedNs(): u64 {
      SatAdd(VirtualTimeNs(), marginNs)
    }

    ghost function AllowedNsUntil(until: Option<u64>): u64 {
      match until
      case Some(u) => Min(AllowedNs(), u)
      case None => AllowedNs()
    }
  }

  class TimeCeiling {
    const marginNs: u64
    var reports: map<BoardId, u64>

    ghost function View(): Ceiling
      reads this
    {
      Ceiling(marginNs, reports)
    }

    constructor (boards: set<BoardId>, marginNs: u64)
      ensures View() == Ceiling(marginNs, map b | b in boards :: 0)
    {
      this.marginNs := marginNs;
      this.reports := map b | b in boards :: 0;
    }

    method Report(board: BoardId, t: u64)
      modifies this
      ensures View() == old(View()).WithReport(board, t)
    {
      if board in reports {
        reports := reports[board := t];
      }
    }

    method LastReport(board: BoardId) returns (t: Option<u64>)
      ensures t == if board in reports then Some(reports[board]) else None
    {
      t := if board in reports then Some(reports[board]) else None;
    }

    method AdvanceTo(now: u64)
      modifies this
      ensures View() == old(View()).AdvancedTo(now)
    {
      var todo := reports.Keys;
      while todo != {}
        invariant todo <= reports.Keys == old(reports.Keys)
        invariant forall b | b in reports ::
            reports[b] == if b in todo then old(reports)[b] else Max(old(reports)[b], now)
        decreases todo
      {
        var b :| b in todo;
        if reports[b] < now {
          reports := reports[b := now];
        }
        todo := todo - {b};
      }
      assert reports == map b | b in old(reports) :: Max(old(reports)[b], now);
    }

    method VirtualTimeNs() returns (v: u64)
      ensures v == View().VirtualTimeNs()
    {
      var least: Option<u64> := None;
      var todo := reports.Keys;
      while todo != {}
        invariant todo <= reports.Keys
        invariant least.None? <==> todo == reports.Keys
        invariant least.Some? ==> exists b :: b in reports && reports[b] == least.value
        invariant least.Some? ==> forall b | b in reports && b !in todo :: least.value <= reports[b]
        decreases todo
      {
        var b :| b in todo;
        if least.None? || reports[b] < least.value {
          least := Some(reports[b]);
        }
        todo := todo - {b};
      }
      v := least.GetOr(0);
      assert reports.Keys != {} ==> exists k :: k in reports && reports[k] == MinOf(reports);
    }

    method AllowedNs() returns (v: u64)
      ensures v == View().AllowedNs()
    {
      var now := VirtualTimeNs();
      v := SatAdd(now, marginNs);
    }

    method AllowedNsUntil(until: Option<u64>) returns (v: u64)
      ensures v == View().AllowedNsUntil(until)
    {
      v := AllowedNs();
      if until.Some? && until.value < v {
        v := until.value;
      }
    }
  }

  /** The least report is reached by some board; it bounds all of them from below. */
  lemma VirtualTimeIsLeastReport(c: Ceiling)
    requires c.reports.Keys != {}
    ensures exists b :: b in c.reports && c.reports[b] == c.VirtualTimeNs()
    ensures forall b | b in c.reports :: c.VirtualTimeNs() <= c.reports[b]
  {
  }

  /** Reports behind `now` are lifted and reports ahead of it stay, so the ceiling continues
      from `now` or from where it was. */
  lemma AdvanceRaisesTheMinimum(c: Ceiling, now: u64)
    requires c.reports.Keys != {}
    ensures c.AdvancedTo(now).VirtualTimeNs() == Max(c.VirtualTimeNs(), now)
  {
    var d := c.AdvancedTo(now);
    var b :| b in c.reports && c.reports[b] == c.VirtualTimeNs();
    assert d.reports[b] == Max(c.VirtualTimeNs(), now);
    assert d.reports.Keys == c.reports.Keys;
    var e :| e in d.reports && d.reports[e] == d.VirtualTimeNs();
    assert d.reports[e] >= Max(c.VirtualTimeNs(), now);
  }
}
