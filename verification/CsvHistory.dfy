/** What an assembled CSV export says about one probe (sim-cluster/src/probe.rs,
    sim-cluster/src/probe_log.rs, sim-cluster/src/server.rs): range selection on the board,
    chunked transfer and history put together. */
module CsvHistory {
  import opened Prelude
  import opened SpillFile
  import opened Samples
  import opened CsvExport
  import L = ProbeLog
  import H = ProbeHistory
  import O = CsvOutcome

  /** A window of virtual time; both ends are included. */
  datatype ProbeRange = ProbeRange(fromNs: Option<u64>, toNs: Option<u64>) {
    predicate Contains(t: u64) {
      (fromNs.Some? ==> fromNs.value <= t) && (toNs.Some? ==> t <= toNs.value)
    }
  }

  datatype Query = Query(range: ProbeRange, wanted: set<u64>) {
    predicate Selects(r: Record) {
      range.Contains(r.time) && (wanted == {} || r.probeId in wanted)
    }
  }

  /** The records of `s` that the query selects, in order. */
  function Select(s: seq<Record>, q: Query): seq<Record> {
    if s == [] then []
    else Select(s[..|s| - 1], q) + (if q.Selects(s[|s| - 1]) then [s[|s| - 1]] else [])
  }

  /** The records of `s` within the range, in order. */
  function InRange(s: seq<Record>, range: ProbeRange): seq<Record> {
    Select(s, Query(range, {}))
  }

  datatype Selected = Selected(records: seq<Record>, truncated: bool)

  /** `range_records`: an export that cannot be read back is empty and marked truncated. */
  function RangeRecords(loaded: Option<seq<Record>>, truncated: bool, q: Query): Selected {
    match loaded
    case Some(records) => Selected(Select(records, q), truncated)
    case None => Selected([], true)
  }

  lemma SelectMore(s: seq<Record>, r: Record, q: Query)
    ensures Select(s + [r], q) == Select(s, q) + (if q.Selects(r) then [r] else [])
  {
    assert (s + [r])[..|s|] == s;
  }

  lemma {:induction false} SelectOfProbe(s: seq<Record>, q: Query, id: u64)
    ensures OfProbe(Select(s, q), id) ==
            if q.wanted == {} || id in q.wanted then InRange(OfProbe(s, id), q.range) else []
  {
    if s != [] {
      var front, last := s[..|s| - 1], s[|s| - 1];
      SelectOfProbe(front, q, id);
      OfProbeConcat(Select(front, q), if q.Selects(last) then [last] else [], id);
      OfProbeOne(last, id);
      var own := OfProbe(front, id);
      if last.probeId == id {
        SelectMore(own, last, Query(q.range, {}));
      } else {
        assert own + [] == own;
      }
    }
  }

  /** The records of a probe that only board `b` has come from that board's answer, in order. */
  lemma {:induction false} OnlyFromBoard(tags: seq<Tagged>, b: BoardId, id: u64)
    requires forall t | t in tags && t.board != b :: t.record.probeId != id
    ensures OfProbe(Untag(tags), id) == OfProbe(FromBoard(tags, b), id)
  {
    if tags != [] {
      var front, last := tags[..|tags| - 1], tags[|tags| - 1];
      OnlyFromBoard(front, b, id);
      assert Untag(tags)[..|tags| - 1] == Untag(front);
      OfProbeConcat(FromBoard(front, b), if last.board == b then [last.record] else [], id);
      OfProbeOne(last.record, id);
      assert last in tags;
    }
  }

  lemma {:induction false} FromBoardHas(tags: seq<Tagged>, t: Tagged)
    requires t in tags
    ensures t.record in FromBoard(tags, t.board)
  {
    var front, last := tags[..|tags| - 1], tags[|tags| - 1];
    assert tags == front + [last];
    if t in front {
      FromBoardHas(front, t);
    }
  }

  /** The answer of board `b` is what its log, after some run, gives for the query. */
  ghost predicate AnswersFromLog(answer: seq<Record>, t: H.Trace, order: seq<u64>, growth: seq<byte>, q: Query) {
    L.OrdersKeys(order, t.log.memory) &&
    answer == RangeRecords(Some(L.LoadExport(t.log.file + growth, |t.log.file|, L.MemoryList(t.log.memory, order))),
                           t.log.truncated, q).records
  }

  lemma AnswerOfProbe(cap: nat, calls: seq<H.Call>, answer: seq<Record>, order: seq<u64>, growth: seq<byte>, q: Query,
                      id: u64)
      returns (known: seq<Record>)
    requires AnswersFromLog(answer, H.Run(cap, calls), order, growth, q) && (q.wanted == {} || id in q.wanted)
    ensures known <= OfProbe(H.Run(cap, calls).offered, id) && OfProbe(answer, id) == InRange(known, q.range)
    ensures !H.Run(cap, calls).log.truncated ==> known == OfProbe(H.Run(cap, calls).offered, id)
  {
    var t := H.Run(cap, calls);
    var loaded := L.LoadExport(t.log.file + growth, |t.log.file|, L.MemoryList(t.log.memory, order));
    H.ExportIsAPrefix(cap, calls, order, growth, id);
    SelectOfProbe(loaded, q, id);
    known := OfProbe(loaded, id);
  }

  /** A finished export, restricted to a probe that only board `b` has, is the in-range part of a
      prefix of the samples pushed for that probe, and of all of them unless the log was
      truncated: none is reordered, repeated or missing in between, whatever the chunks, the
      other boards, the spilling and the polls. */
  lemma AssembledCsvIsHistory(boards: set<BoardId>, actions: seq<Action>, b: BoardId,
                              cap: nat, calls: seq<H.Call>, order: seq<u64>, growth: seq<byte>, q: Query, id: u64)
      returns (known: seq<Record>)
    requires Possible(boards, actions)
    requires var e := CsvExport.Run(boards, actions);
             e.job.Some? && e.job.value.done && !e.job.value.failed && b in e.answers
    requires var e := CsvExport.Run(boards, actions);
             AnswersFromLog(e.answers[b], H.Run(cap, calls), order, growth, q) &&
             forall x, r | x in e.answers && x != b && r in e.answers[x] :: r.probeId != id
    requires q.wanted == {} || id in q.wanted
    ensures var e := CsvExport.Run(boards, actions);
            var offered := OfProbe(H.Run(cap, calls).offered, id);
            known <= offered && (!H.Run(cap, calls).log.truncated ==> known == offered) &&
            OfProbe(e.delivered + e.job.value.pending, id) == InRange(known, q.range)
  {
    var e := CsvExport.Run(boards, actions);
    FinishedExportIsComplete(boards, actions);
    var tags: seq<Tagged> :|
      Untag(tags) == e.delivered + e.job.value.pending && (forall t | t in tags :: t.board in e.answers) &&
      forall x | x in e.answers :: FromBoard(tags, x) == e.answers[x];
    forall t | t in tags && t.board != b ensures t.record.probeId != id {
      FromBoardHas(tags, t);
    }
    OnlyFromBoard(tags, b, id);
    known := AnswerOfProbe(cap, calls, e.answers[b], order, growth, q, id);
  }

  /** Selection keeps exactly the records of wanted probes whose time lies in the window, its ends
      included, each as often as it occurs. */
  lemma {:induction false} SelectIsWindow(s: seq<Record>, q: Query, r: Record)
    ensures var from, to := q.range.fromNs.GetOr(0), q.range.toNs.GetOr(U64_MAX);
            multiset(Select(s, q))[r] ==
            if from <= r.time <= to && (q.wanted == {} || r.probeId in q.wanted) then multiset(s)[r] else 0
  {
    if s != [] {
      var n := |s| - 1;
      SelectIsWindow(s[..n], q, r);
      assert s == s[..n] + [s[n]];
    }
  }

  /** What board `b` found when it took the request up: its log after some run, read back or not. */
  ghost predicate FoundInLog(found: Selected, t: H.Trace, order: seq<u64>, growth: seq<byte>, readBack: bool,
                             q: Query) {
    L.OrdersKeys(order, t.log.memory) &&
    found == RangeRecords(
      if readBack then Some(L.LoadExport(t.log.file + growth, |t.log.file|, L.MemoryList(t.log.memory, order)))
          else None,
      t.log.truncated, q)
  }

  /** A finished export that is not marked truncated, restricted to a probe that only board `b` has, is
      the in-range part of all samples pushed for it: no push of a full probe had failed to spill, and
      the log could be read back. */
  lemma UnmarkedCsvIsWhole(boards: set<BoardId>, actions: seq<Action>, b: BoardId, cap: nat, calls: seq<H.Call>,
                           order: seq<u64>, growth: seq<byte>, readBack: bool, q: Query, id: u64)
    requires Possible(boards, actions)
    requires var e := CsvExport.Run(boards, actions);
             O.Succeeded(e) && !e.job.value.truncated && b in e.asked && b in e.answers &&
             b in O.FoundTruncated(boards, actions) &&
             FoundInLog(Selected(e.answers[b], O.FoundTruncated(boards, actions)[b]),
                        H.Run(cap, calls), order, growth, readBack, q) &&
             forall x, r | x in e.answers && x != b && r in e.answers[x] :: r.probeId != id
    requires q.wanted == {} || id in q.wanted
    ensures var e := CsvExport.Run(boards, actions);
            OfProbe(e.delivered + e.job.value.pending, id) ==
            InRange(OfProbe(H.Run(cap, calls).offered, id), q.range)
    ensures readBack && !H.NoRoom(cap, calls)
  {
    O.TruncationIsReported(boards, actions);
    H.TruncatedIffNoRoom(cap, calls);
    var known := AssembledCsvIsHistory(boards, actions, b, cap, calls, order, growth, q, id);
  }
}
