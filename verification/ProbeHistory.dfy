/** Whole runs of a probe log: any samples, disk failures, polls and running changes. */
module ProbeHistory {
  import opened Prelude
  import opened SpillFile
  import opened Samples
  import opened ProbeLog

  datatype Call = DoPush(sample: Record, disk: Append) | DoPoll(due: bool) | DoRun(running: bool)

  /** A log with what happened to it. `spilled` and `torn` are what the file should hold;
      `offered` is every pushed sample; `window` is what was accepted while running since the
      last batch; `batches` and `windows` are the published batches and the samples each of
      them stands for. */
  datatype Trace = Trace(
    log: Log,
    offered: seq<Record>,
    spilled: seq<Record>,
    torn: seq<byte>,
    window: seq<Record>,
    runningSamples: seq<Record>,
    batches: seq<seq<Record>>,
    windows: seq<seq<Record>>)

  function FreshTrace(cap: nat): Trace {
    Trace(FreshLog(cap), [], [], [], [], [], [], [])
  }

  ghost function PushTrace(t: Trace, r: Record, disk: Append): Trace
    requires t.log.cap > 0
  {
    var log := t.log;
    var spills := AtCap(log, r.probeId) && !log.truncated;
    var counted := if Accepts(log, r, disk) && log.running then [r] else [];
    t.(log := Push(log, r, disk),
       offered := t.offered + [r],
       spilled := t.spilled + (if spills && disk.Appended? then [log.memory[r.probeId][0]] else []),
       torn := t.torn + (if spills && !disk.Appended? then Torn(log.memory[r.probeId][0], disk) else []),
       window := t.window + counted,
       runningSamples := t.runningSamples + counted)
  }

  ghost function After(t: Trace, call: Call): (r: Trace)
    requires t.log.cap > 0
    ensures r.log.cap == t.log.cap
  {
    match call
    case DoPush(r, disk) => PushTrace(t, r, disk)
    case DoPoll(due) =>
      if t.log.running && due then
        t.(log := PollCoarse(t.log, due), window := [],
           batches := t.batches + [Batch(t.log)], windows := t.windows + [t.window])
      else t
    case DoRun(running) =>
      if t.log.running && !running then
        t.(log := SetRunning(t.log, running), window := [],
           batches := t.batches + [Batch(t.log)], windows := t.windows + [t.window])
      else t.(log := SetRunning(t.log, running))
  }

  ghost function Run(cap: nat, calls: seq<Call>): (t: Trace)
    ensures t.log.cap > 0
  {
    if calls == [] then FreshTrace(cap) else After(Run(cap, calls[..|calls| - 1]), calls[|calls| - 1])
  }

  // ---- history ----

  /** What the log still knows of a probe: spilled samples, then memory. */
  ghost function HistoryOf(t: Trace, id: u64): seq<Record> {
    OfProbe(t.spilled, id) + MemoryOf(t.log, id)
  }

  ghost predicate KeptOf(t: Trace, id: u64) {
    HistoryOf(t, id) <= OfProbe(t.offered, id) &&
    (HistoryOf(t, id) != OfProbe(t.offered, id) ==> t.log.truncated && AtCap(t.log, id)) &&
    forall r | r in MemoryOf(t.log, id) :: r.probeId == id
  }

  ghost predicate FileKept(t: Trace) {
    t.log.cap > 0 && t.log.file == EncodeAll(t.spilled) + t.torn && |t.torn| < SPILL_REC &&
    (t.torn != [] ==> t.log.truncated)
  }

  ghost predicate HistoryKept(t: Trace) {
    FileKept(t) && forall id: u64 :: KeptOf(t, id)
  }

  /** How a push changes the file, and the memory of each probe. */
  lemma SpillShape(t: Trace, r: Record)
    requires t.log.cap > 0 && AtCap(t.log, r.probeId) && !t.log.truncated
    ensures var oldest, next := t.log.memory[r.probeId][0], PushTrace(t, r, Appended);
            next.log.cap == t.log.cap && next.log.truncated == t.log.truncated &&
            next.log.file == t.log.file + Encode(oldest) && next.torn == t.torn &&
            next.spilled == t.spilled + [oldest] && next.offered == t.offered + [r] &&
            forall id :: MemoryOf(next.log, id) ==
                         if id == r.probeId then t.log.memory[id][1..] + [r] else MemoryOf(t.log, id)
  {
  }

  lemma DropShape(t: Trace, r: Record, disk: Append) returns (tail: seq<byte>)
    requires t.log.cap > 0 && !Accepts(t.log, r, disk)
    ensures var next := PushTrace(t, r, disk);
            next.log.cap == t.log.cap && next.log.truncated && next.log.memory == t.log.memory &&
            next.spilled == t.spilled && next.offered == t.offered + [r] && |tail| < SPILL_REC &&
            (if t.log.truncated then next.torn == t.torn && next.log.file == t.log.file
             else next.torn == t.torn + tail && next.log.file == t.log.file + tail)
  {
    tail := Torn(t.log.memory[r.probeId][0], disk);
    assert t.torn + [] == t.torn && t.spilled + [] == t.spilled;
  }

  lemma StoreShape(t: Trace, r: Record, disk: Append)
    requires t.log.cap > 0 && !AtCap(t.log, r.probeId)
    ensures var next := PushTrace(t, r, disk);
            next.log.cap == t.log.cap && next.log.truncated == t.log.truncated &&
            next.log.file == t.log.file && next.torn == t.torn &&
            next.spilled == t.spilled && next.offered == t.offered + [r] &&
            forall id :: MemoryOf(next.log, id) ==
                         if id == r.probeId then MemoryOf(t.log, id) + [r] else MemoryOf(t.log, id)
  {
  }

  lemma Moved(h: seq<Record>, x: Record, rest: seq<Record>, r: Record)
    ensures (h + [x]) + (rest + [r]) == (h + ([x] + rest)) + [r]
  {
  }

  /** One more sample of another probe changes nothing for `id`. */
  lemma OfOther(s: seq<Record>, r: Record, id: u64)
    requires r.probeId != id
    ensures OfProbe(s + [r], id) == OfProbe(s, id)
  {
    OfProbeConcat(s, [r], id);
    OfProbeOne(r, id);
    assert OfProbe(s, id) + [] == OfProbe(s, id);
  }

  lemma OfOwn(s: seq<Record>, r: Record)
    ensures OfProbe(s + [r], r.probeId) == OfProbe(s, r.probeId) + [r]
  {
    OfProbeConcat(s, [r], r.probeId);
    OfProbeOne(r, r.probeId);
  }

  lemma SpillKeeps(t: Trace, r: Record, next: Trace, id: u64)
    requires KeptOf(t, id) && KeptOf(t, r.probeId)
    requires AtCap(t.log, r.probeId) && t.log.memory[r.probeId] != []
    requires !t.log.truncated && next.log.truncated == t.log.truncated
    requires next.spilled == t.spilled + [t.log.memory[r.probeId][0]] && next.offered == t.offered + [r]
    requires MemoryOf(next.log, id) ==
             if id == r.probeId then t.log.memory[id][1..] + [r] else MemoryOf(t.log, id)
    ensures KeptOf(next, id)
  {
    var oldest := t.log.memory[r.probeId][0];
    assert oldest in MemoryOf(t.log, r.probeId) && oldest.probeId == r.probeId;
    if id == r.probeId {
      var rest := t.log.memory[id][1..];
      assert MemoryOf(t.log, id) == [oldest] + rest;
      OfOwn(t.offered, r);
      OfOwn(t.spilled, oldest);
      Moved(OfProbe(t.spilled, id), oldest, rest, r);
      assert HistoryOf(next, id) == HistoryOf(t, id) + [r];
    } else {
      OfOther(t.offered, r, id);
      OfOther(t.spilled, oldest, id);
      assert HistoryOf(next, id) == HistoryOf(t, id);
    }
  }

  lemma DropKeeps(t: Trace, r: Record, next: Trace, id: u64)
    requires KeptOf(t, id) && AtCap(t.log, r.probeId)
    requires next.log.truncated && next.log.cap == t.log.cap && next.log.memory == t.log.memory
    requires next.spilled == t.spilled && next.offered == t.offered + [r]
    ensures KeptOf(next, id)
  {
    OfProbeConcat(t.offered, [r], id);
    OfProbeOne(r, id);
  }

  lemma StoreKeeps(t: Trace, r: Record, next: Trace, id: u64)
    requires t.log.cap > 0 && KeptOf(t, id) && !AtCap(t.log, r.probeId)
    requires next.log.cap == t.log.cap && next.log.truncated == t.log.truncated
    requires next.spilled == t.spilled && next.offered == t.offered + [r]
    requires MemoryOf(next.log, id) == if id == r.probeId then MemoryOf(t.log, id) + [r] else MemoryOf(t.log, id)
    ensures KeptOf(next, id)
  {
    OfProbeConcat(t.offered, [r], id);
    OfProbeOne(r, id);
    if id == r.probeId {
      assert HistoryOf(next, id) == HistoryOf(t, id) + [r];
      assert OfProbe(next.offered, id) == OfProbe(t.offered, id) + [r];
    } else {
      assert HistoryOf(next, id) == HistoryOf(t, id) && OfProbe(next.offered, id) == OfProbe(t.offered, id);
    }
  }

  lemma PushKeepsHistory(t: Trace, r: Record, disk: Append, id: u64)
    requires t.log.cap > 0 && KeptOf(t, id) && KeptOf(t, r.probeId)
    ensures KeptOf(PushTrace(t, r, disk), id)
  {
    if !AtCap(t.log, r.probeId) {
      StoreShape(t, r, disk);
      StoreKeeps(t, r, PushTrace(t, r, disk), id);
    } else if Accepts(t.log, r, disk) {
      SpillShape(t, r);
      SpillKeeps(t, r, PushTrace(t, r, Appended), id);
    } else {
      var tail := DropShape(t, r, disk);
      DropKeeps(t, r, PushTrace(t, r, disk), id);
    }
  }

  lemma FileGrows(t: Trace, oldest: Record, next: Trace)
    requires FileKept(t) && !t.log.truncated
    requires next.log.cap == t.log.cap && !next.log.truncated && next.log.file == t.log.file + Encode(oldest)
    requires next.torn == t.torn && next.spilled == t.spilled + [oldest]
    ensures FileKept(next)
  {
    EncodeAppend(t.spilled, oldest);
    assert t.torn == [] && EncodeAll(t.spilled) + [] == EncodeAll(t.spilled);
    assert EncodeAll(next.spilled) + [] == EncodeAll(next.spilled);
  }

  lemma FileTears(t: Trace, tail: seq<byte>, next: Trace)
    requires FileKept(t) && |tail| < SPILL_REC
    requires next.log.cap == t.log.cap && next.log.truncated && next.spilled == t.spilled
    requires if t.log.truncated then next.torn == t.torn && next.log.file == t.log.file
             else next.torn == t.torn + tail && next.log.file == t.log.file + tail
    ensures FileKept(next)
  {
    if !t.log.truncated {
      assert t.torn == [] && [] + tail == tail;
      assert EncodeAll(t.spilled) + [] == EncodeAll(t.spilled);
    }
  }

  lemma PushKeepsFile(t: Trace, r: Record, disk: Append)
    requires FileKept(t)
    ensures FileKept(PushTrace(t, r, disk))
  {
    var next := PushTrace(t, r, disk);
    if !AtCap(t.log, r.probeId) {
      StoreShape(t, r, disk);
    } else if Accepts(t.log, r, disk) {
      SpillShape(t, r);
      FileGrows(t, t.log.memory[r.probeId][0], next);
    } else {
      var tail := DropShape(t, r, disk);
      FileTears(t, tail, next);
    }
  }

  lemma AfterKeepsHistory(t: Trace, call: Call)
    requires HistoryKept(t)
    ensures HistoryKept(After(t, call))
  {
    match call
    case DoPush(r, disk) =>
      PushKeepsFile(t, r, disk);
      forall id: u64 ensures KeptOf(After(t, call), id) {
        PushKeepsHistory(t, r, disk, id);
      }
    case _ =>
      forall id: u64 ensures KeptOf(After(t, call), id) {
        assert KeptOf(t, id);
      }
  }

  lemma {:induction false} RunKeepsHistory(cap: nat, calls: seq<Call>)
    ensures HistoryKept(Run(cap, calls))
  {
    if calls == [] {
      assert EncodeAll([]) + [] == [];
    } else {
      RunKeepsHistory(cap, calls[..|calls| - 1]);
      AfterKeepsHistory(Run(cap, calls[..|calls| - 1]), calls[|calls| - 1]);
    }
  }

  lemma {:induction false} MemoryListOf(memory: map<u64, seq<Record>>, order: seq<u64>, id: u64)
    requires forall i, j | 0 <= i < j < |order| :: order[i] != order[j]
    requires forall k, r | k in memory && r in memory[k] :: r.probeId == k
    ensures OfProbe(MemoryList(memory, order), id) == if id in order && id in memory then memory[id] else []
  {
    if order != [] {
      var front, last := order[..|order| - 1], order[|order| - 1];
      assert order == front + [last];
      MemoryListOf(memory, front, id);
      var queue := if last in memory then memory[last] else [];
      OfProbeConcat(MemoryList(memory, front), queue, id);
      if last == id {
        OfProbeAll(queue, id);
      } else {
        OfProbeNone(queue, id);
      }
    }
  }

  /** Loading an export gives, for every probe and whatever the order of the queues, a prefix of
      the samples pushed for it, and all of them unless the log is truncated: no sample is
      reordered and none is missing before the end, even with a torn record in the file, and
      even if the file has grown since the snapshot. */
  lemma ExportIsAPrefix(cap: nat, calls: seq<Call>, order: seq<u64>, growth: seq<byte>, id: u64)
    requires OrdersKeys(order, Run(cap, calls).log.memory)
    ensures var t := Run(cap, calls);
            var loaded := LoadExport(t.log.file + growth, |t.log.file|, MemoryList(t.log.memory, order));
            OfProbe(loaded, id) <= OfProbe(t.offered, id) &&
            (!t.log.truncated ==> OfProbe(loaded, id) == OfProbe(t.offered, id))
  {
    RunKeepsHistory(cap, calls);
    var t := Run(cap, calls);
    assert KeptOf(t, id);
    assert (t.log.file + growth)[..|t.log.file|] == t.log.file;
    DecodeIgnoresTornTail(t.spilled, t.torn);
    forall k, r | k in t.log.memory && r in t.log.memory[k] ensures r.probeId == k {
      assert KeptOf(t, k);
    }
    MemoryListOf(t.log.memory, order, id);
    OfProbeConcat(t.spilled, MemoryList(t.log.memory, order), id);
  }

  // ---- truncation ----

  /** Push `k` needed room on the disk and did not get it. */
  ghost predicate NoRoomAt(cap: nat, calls: seq<Call>, k: nat)
    requires k < |calls|
  {
    calls[k].DoPush? && calls[k].disk.TornAfter? && AtCap(Run(cap, calls[..k]).log, calls[k].sample.probeId)
  }

  lemma AfterTruncates(t: Trace, call: Call)
    requires t.log.cap > 0
    ensures After(t, call).log.truncated <==>
            t.log.truncated || (call.DoPush? && call.disk.TornAfter? && AtCap(t.log, call.sample.probeId))
  {
  }

  /** Some push needed room on the disk and did not get it. */
  ghost predicate NoRoom(cap: nat, calls: seq<Call>) {
    exists k | 0 <= k < |calls| :: NoRoomAt(cap, calls, k)
  }

  lemma NoRoomLater(cap: nat, calls: seq<Call>)
    requires calls != []
    ensures var n := |calls| - 1;
            NoRoom(cap, calls) <==> NoRoom(cap, calls[..n]) || NoRoomAt(cap, calls, n)
  {
    var n := |calls| - 1;
    forall k | 0 <= k < n
      ensures NoRoomAt(cap, calls, k) <==> NoRoomAt(cap, calls[..n], k)
    {
      assert calls[..n][..k] == calls[..k];
    }
    if NoRoom(cap, calls[..n]) {
      var k :| 0 <= k < n && NoRoomAt(cap, calls[..n], k);
      assert NoRoomAt(cap, calls, k);
    }
  }

  /** In every run the log is truncated exactly if some push of a full probe failed to spill. */
  lemma {:induction false} TruncatedIffNoRoom(cap: nat, calls: seq<Call>)
    ensures Run(cap, calls).log.truncated <==> NoRoom(cap, calls)
  {
    if calls != [] {
      var n := |calls| - 1;
      TruncatedIffNoRoom(cap, calls[..n]);
      AfterTruncates(Run(cap, calls[..n]), calls[n]);
      NoRoomLater(cap, calls);
    }
  }

  // ---- the newest sample ----

  /** Every queue is in use, and its newest sample is the one noted as the latest. */
  ghost predicate LatestOf(memory: map<u64, seq<Record>>, latest: map<u64, Record>) {
    latest.Keys == memory.Keys &&
    forall id | id in memory :: memory[id] != [] && latest[id] == memory[id][|memory[id]| - 1]
  }

  ghost predicate LatestKept(log: Log) {
    LatestOf(log.memory, log.latest)
  }

  /** In every run the latest sample noted for a probe is the newest one in memory, whatever has been
      spilled or dropped. */
  lemma {:induction false} LatestIsNewest(cap: nat, calls: seq<Call>)
    ensures LatestKept(Run(cap, calls).log)
  {
    if calls != [] {
      var n := |calls| - 1;
      LatestIsNewest(cap, calls[..n]);
      var t := Run(cap, calls[..n]);
      match calls[n]
      case DoPush(r, disk) => PushKeepsLatest(t.log, r, disk);
      case _ => assert Run(cap, calls).log.(running := t.log.running, digitalLast := t.log.digitalLast,
                                            analogLast := t.log.analogLast, uartWindow := t.log.uartWindow) == t.log;
    }
  }

  lemma LatestMoves(memory: map<u64, seq<Record>>, latest: map<u64, Record>, id: u64, queue: seq<Record>, r: Record)
    requires LatestOf(memory, latest)
    ensures LatestOf(memory[id := queue + [r]], latest[id := r])
  {
  }

  lemma PushKeepsLatest(log: Log, r: Record, disk: Append)
    requires log.cap > 0 && LatestKept(log)
    ensures LatestKept(Push(log, r, disk))
  {
    var id := r.probeId;
    var queue := if AtCap(log, id) then log.memory[id][1..] else MemoryOf(log, id);
    LatestMoves(log.memory, log.latest, id, queue, r);
    if AtCap(log, id) && Accepts(log, r, disk) {
      assert log.memory[id := queue][id := queue + [r]] == log.memory[id := queue + [r]];
    }
  }

  // ---- the coarse window ----

  /** Last sample of one kind for each probe. */
  function LastOf(s: seq<Record>, kind: ProbeKind): (m: map<u64, Record>)
    ensures KeyedById(m)
  {
    if s == [] then map[]
    else
      var r := s[|s| - 1];
      var before := LastOf(s[..|s| - 1], kind);
      if r.kind == kind then before[r.probeId := r] else before
  }

  function Words(s: seq<Record>): seq<Record> {
    if s == [] then []
    else Words(s[..|s| - 1]) + (if s[|s| - 1].kind == Uart then [s[|s| - 1]] else [])
  }

  /** The batch that stands for a window of samples. */
  ghost function BatchOf(window: seq<Record>): seq<Record> {
    SortByKey(ListOf(LastOf(window, Digital)) + ListOf(LastOf(window, Analog)) + Words(window))
  }

  function Join(parts: seq<seq<Record>>): seq<Record> {
    if parts == [] then [] else Join(parts[..|parts| - 1]) + parts[|parts| - 1]
  }

  ghost predicate CoarseKept(t: Trace) {
    t.log.digitalLast == LastOf(t.window, Digital) &&
    t.log.analogLast == LastOf(t.window, Analog) &&
    t.log.uartWindow == Words(t.window) &&
    (!t.log.running ==> t.window == []) &&
    |t.batches| == |t.windows| &&
    (forall i | 0 <= i < |t.batches| :: t.batches[i] == BatchOf(t.windows[i])) &&
    t.runningSamples == Join(t.windows) + t.window
  }

  lemma WindowGrows(window: seq<Record>, r: Record)
    ensures LastOf(window + [r], Digital) ==
            if r.kind == Digital then LastOf(window, Digital)[r.probeId := r] else LastOf(window, Digital)
    ensures LastOf(window + [r], Analog) ==
            if r.kind == Analog then LastOf(window, Analog)[r.probeId := r] else LastOf(window, Analog)
    ensures Words(window + [r]) == Words(window) + if r.kind == Uart then [r] else []
  {
    assert (window + [r])[..|window|] == window;
  }

  /** A push adds the sample to the window, or leaves the coarse part as it is. */
  lemma CoarseShape(t: Trace, r: Record, disk: Append)
    requires t.log.cap > 0
    ensures var next := PushTrace(t, r, disk);
            next.log.running == t.log.running && next.batches == t.batches && next.windows == t.windows &&
            if Accepts(t.log, r, disk) && t.log.running then
              next.window == t.window + [r] && next.runningSamples == t.runningSamples + [r] &&
              next.log.digitalLast == (if r.kind == Digital then t.log.digitalLast[r.probeId := r]
                  else t.log.digitalLast) &&
              next.log.analogLast == (if r.kind == Analog then t.log.analogLast[r.probeId := r]
                  else t.log.analogLast) &&
              next.log.uartWindow == t.log.uartWindow + (if r.kind == Uart then [r] else [])
            else
              next.window == t.window && next.runningSamples == t.runningSamples &&
              next.log.digitalLast == t.log.digitalLast && next.log.analogLast == t.log.analogLast &&
              next.log.uartWindow == t.log.uartWindow
  {
    assert t.log.uartWindow + [] == t.log.uartWindow;
    assert t.window + [] == t.window && t.runningSamples + [] == t.runningSamples;
  }

  lemma PushKeepsCoarse(t: Trace, r: Record, disk: Append)
    requires t.log.cap > 0 && CoarseKept(t)
    ensures CoarseKept(PushTrace(t, r, disk))
  {
    CoarseShape(t, r, disk);
    WindowGrows(t.window, r);
    assert (Join(t.windows) + t.window) + [r] == Join(t.windows) + (t.window + [r]);
  }

  lemma EmitKeepsCoarse(t: Trace)
    requires CoarseKept(t)
    ensures Batch(t.log) == BatchOf(t.window)
    ensures t.runningSamples == Join(t.windows + [t.window]) + []
  {
    assert (t.windows + [t.window])[..|t.windows|] == t.windows;
  }

  lemma AfterKeepsCoarse(t: Trace, call: Call)
    requires t.log.cap > 0 && CoarseKept(t)
    ensures CoarseKept(After(t, call))
  {
    match call
    case DoPush(r, disk) => PushKeepsCoarse(t, r, disk);
    case _ => EmitKeepsCoarse(t);
  }

  /** Over any run, every sample accepted while running belongs to exactly one published window
      or to the open one, in order; each batch is the one that stands for its window; and while
      not running the open window is empty, so clearing it on a restart loses nothing. */
  lemma {:induction false} CoarseStreamConserves(cap: nat, calls: seq<Call>)
    ensures CoarseKept(Run(cap, calls))
  {
    if calls != [] {
      CoarseStreamConserves(cap, calls[..|calls| - 1]);
      AfterKeepsCoarse(Run(cap, calls[..|calls| - 1]), calls[|calls| - 1]);
    }
  }

  lemma {:induction false} LastOfMembers(s: seq<Record>, kind: ProbeKind)
    ensures forall k | k in LastOf(s, kind) :: LastOf(s, kind)[k] in s && LastOf(s, kind)[k].kind == kind
    ensures forall r | r in s && r.kind == kind :: r.probeId in LastOf(s, kind)
  {
    if s != [] {
      assert s == s[..|s| - 1] + [s[|s| - 1]];
      LastOfMembers(s[..|s| - 1], kind);
    }
  }

  /** `i` is the position of the last sample of its kind and probe. */
  ghost predicate IsLast(s: seq<Record>, i: nat)
    requires i < |s|
  {
    forall j | i < j < |s| :: !(s[j].kind == s[i].kind && s[j].probeId == s[i].probeId)
  }

  lemma {:induction false} LastOfIsLast(s: seq<Record>, i: nat)
    requires i < |s| && IsLast(s, i)
    ensures var m := LastOf(s, s[i].kind); s[i].probeId in m && m[s[i].probeId] == s[i]
  {
    if i < |s| - 1 {
      assert IsLast(s[..|s| - 1], i);
      LastOfIsLast(s[..|s| - 1], i);
    }
  }

  lemma {:induction false} WordsMembers(s: seq<Record>)
    ensures forall r :: r in Words(s) <==> r in s && r.kind == Uart
  {
    if s != [] {
      assert s == s[..|s| - 1] + [s[|s| - 1]];
      WordsMembers(s[..|s| - 1]);
    }
  }

  lemma LastIsListed(window: seq<Record>, i: nat)
    requires i < |window| && IsLast(window, i)
    ensures window[i] in ListOf(LastOf(window, window[i].kind))
  {
    LastOfIsLast(window, i);
    ListOfLists(LastOf(window, window[i].kind));
  }

  lemma ListedIsInWindow(window: seq<Record>, kind: ProbeKind, r: Record)
    requires r in ListOf(LastOf(window, kind))
    ensures r in window && r.kind == kind
  {
    LastOfMembers(window, kind);
    ListOfLists(LastOf(window, kind));
  }

  /** What a batch tells about its window: it is sorted by time and probe, and it consists of
      every UART word, as often as the window has it, and one sample for each digital or analog
      probe that had any. */
  lemma BatchIsWholeWindow(window: seq<Record>)
    ensures var digital, analog := ListOf(LastOf(window, Digital)), ListOf(LastOf(window, Analog));
            Sorted(BatchOf(window)) &&
            multiset(BatchOf(window)) == multiset(digital) + multiset(analog) + multiset(Words(window)) &&
            Lists(digital, LastOf(window, Digital)) && Lists(analog, LastOf(window, Analog))
  {
    ListOfLists(LastOf(window, Digital));
    ListOfLists(LastOf(window, Analog));
    SortIsStable(ListOf(LastOf(window, Digital)) + ListOf(LastOf(window, Analog)) + Words(window),
        Record(0, 0, Uart, 0));
  }

  lemma InParts(all: seq<Record>, a: seq<Record>, b: seq<Record>, c: seq<Record>, r: Record)
    requires multiset(all) == multiset(a) + multiset(b) + multiset(c)
    ensures r in all <==> r in a || r in b || r in c
  {
    assert r in all <==> r in multiset(all);
  }

  /** The digital or analog sample a batch carries is the last one of its probe. */
  lemma BatchCarriesLast(window: seq<Record>, i: nat)
    requires i < |window| && window[i].kind != Uart && IsLast(window, i)
    ensures window[i] in BatchOf(window)
  {
    BatchIsWholeWindow(window);
    LastIsListed(window, i);
    InParts(BatchOf(window), ListOf(LastOf(window, Digital)), ListOf(LastOf(window, Analog)), Words(window), window[i]);
  }

  lemma {:induction false} DistinctOnce(l: seq<Record>, r: Record)
    requires forall i, j | 0 <= i < j < |l| :: l[i].probeId != l[j].probeId
    requires r in l
    ensures multiset(l)[r] == 1
  {
    assert l == [l[0]] + l[1..];
    if r == l[0] {
      forall k | 0 <= k < |l[1..]| ensures l[1..][k] != r {
        assert l[1..][k] == l[k + 1];
      }
    } else {
      DistinctOnce(l[1..], r);
    }
  }

  lemma OtherKind(window: seq<Record>, kind: ProbeKind, r: Record)
    requires r.kind != kind
    ensures r !in ListOf(LastOf(window, kind))
  {
    if r in ListOf(LastOf(window, kind)) {
      ListedIsInWindow(window, kind, r);
    }
  }

  /** Where a digital or analog sample of a batch comes from. */
  lemma BatchMember(window: seq<Record>, r: Record)
    requires r in BatchOf(window) && r.kind != Uart
    ensures r in ListOf(LastOf(window, r.kind)) &&
            r !in ListOf(LastOf(window, if r.kind == Digital then Analog else Digital))
    ensures r !in Words(window)
  {
    BatchIsWholeWindow(window);
    WordsMembers(window);
    InParts(BatchOf(window), ListOf(LastOf(window, Digital)), ListOf(LastOf(window, Analog)), Words(window), r);
    OtherKind(window, if r.kind == Digital then Analog else Digital, r);
  }

  lemma CountInParts(all: seq<Record>, a: seq<Record>, b: seq<Record>, c: seq<Record>, r: Record)
    requires multiset(all) == multiset(a) + multiset(b) + multiset(c)
    ensures r !in b && r !in c ==> multiset(all)[r] == multiset(a)[r]
    ensures r !in a && r !in c ==> multiset(all)[r] == multiset(b)[r]
  {
    assert r !in a ==> multiset(a)[r] == 0;
    assert r !in b ==> multiset(b)[r] == 0;
    assert r !in c ==> multiset(c)[r] == 0;
  }

  lemma ListedOnce(l: seq<Record>, m: map<u64, Record>, r: Record, other: Record)
    requires Lists(l, m) && r in l
    ensures multiset(l)[r] == 1
    ensures other in l && other.probeId == r.probeId ==> other == r
  {
    DistinctOnce(l, r);
  }

  /** A batch carries one sample of each digital or analog probe, once. */
  lemma BatchCarriesOne(window: seq<Record>, r: Record, other: Record)
    requires r in BatchOf(window) && r.kind != Uart
    ensures multiset(BatchOf(window))[r] == 1
    ensures other in BatchOf(window) && other.kind == r.kind && other.probeId == r.probeId ==> other == r
  {
    BatchIsWholeWindow(window);
    BatchMember(window, r);
    CountInParts(BatchOf(window), ListOf(LastOf(window, Digital)), ListOf(LastOf(window, Analog)), Words(window), r);
    ListedOnce(ListOf(LastOf(window, r.kind)), LastOf(window, r.kind), r, other);
    if other in BatchOf(window) && other.kind == r.kind {
      BatchMember(window, other);
    }
  }

}
