/** Per-node probe history (sim-cluster/src/probe_log.rs): bounded memory per probe, an
    append-only spill file, and the coarse window. The disk is outside: whether an append
    succeeds, and how much of a failing one reaches the file, is an input. */
module ProbeLog {
  import opened Prelude
  import opened SpillFile
  import opened Samples

  /** Outcome of one append to the spill file. A failing append may leave part of a record. */
  datatype Append = Appended | TornAfter(bytes: nat)

  datatype Log = Log(
    cap: nat,
    memory: map<u64, seq<Record>>,
    file: seq<byte>,
    truncated: bool,
    running: bool,
    digitalLast: map<u64, Record>,
    analogLast: map<u64, Record>,
    uartWindow: seq<Record>,
    latest: map<u64, Record>)

  function FreshLog(cap: nat): Log {
    Log(if cap == 0 then 1 else cap, map[], [], false, false, map[], map[], [], map[])
  }

  function MemoryOf(log: Log, id: u64): seq<Record> {
    if id in log.memory then log.memory[id] else []
  }

  predicate AtCap(log: Log, id: u64) {
    id in log.memory && |log.memory[id]| >= log.cap
  }

  // ---- push ----

  /** Put a sample into memory and, while running, into the coarse window. */
  function Store(log: Log, r: Record): Log {
    var stored := log.(memory := log.memory[r.probeId := MemoryOf(log, r.probeId) + [r]],
                       latest := log.latest[r.probeId := r]);
    if !log.running then stored
    else
      match r.kind
      case Digital => stored.(digitalLast := log.digitalLast[r.probeId := r])
      case Analog => stored.(analogLast := log.analogLast[r.probeId := r])
      case Uart => stored.(uartWindow := log.uartWindow + [r])
  }

  /** What a failing append of `r` leaves in the file. */
  function Torn(r: Record, disk: Append): seq<byte> {
    if disk.TornAfter? && disk.bytes < SPILL_REC then Encode(r)[..disk.bytes] else []
  }

  /** Move the oldest sample of a full probe to the file. */
  function Spill(log: Log, id: u64): Log
    requires id in log.memory && log.memory[id] != []
  {
    log.(file := log.file + Encode(log.memory[id][0]), memory := log.memory[id := log.memory[id][1..]])
  }

  function Push(log: Log, r: Record, disk: Append): Log
    requires log.cap > 0
  {
    var id := r.probeId;
    if !AtCap(log, id) then Store(log, r)
    else if log.truncated then log
    else if disk.Appended? then Store(Spill(log, id), r)
    else log.(file := log.file + Torn(log.memory[id][0], disk), truncated := true)
  }

  predicate Accepts(log: Log, r: Record, disk: Append) {
    !AtCap(log, r.probeId) || (!log.truncated && disk.Appended?)
  }

  // ---- the coarse window ----

  /** The values of a map, in some order. */
  ghost function ListOf(m: map<u64, Record>): seq<Record>
    decreases m.Keys
  {
    if m.Keys == {} then []
    else
      var k :| k in m;
      [m[k]] + ListOf(m - {k})
  }

  ghost predicate KeyedById(m: map<u64, Record>) {
    forall k | k in m :: m[k].probeId == k
  }

  /** `l` lists the values of `m`, each once. */
  ghost predicate Lists(l: seq<Record>, m: map<u64, Record>) {
    (forall i, j | 0 <= i < j < |l| :: l[i].probeId != l[j].probeId) &&
    (forall r | r in l :: r.probeId in m && m[r.probeId] == r) &&
    forall k | k in m :: m[k] in l
  }

  /** `emit_coarse`: what the window publishes. */
  ghost function Batch(log: Log): seq<Record> {
    SortByKey(ListOf(log.digitalLast) + ListOf(log.analogLast) + log.uartWindow)
  }

  function ClearWindow(log: Log): Log {
    log.(digitalLast := map[], analogLast := map[], uartWindow := [])
  }

  function SetRunning(log: Log, running: bool): Log {
    (if log.running != running then ClearWindow(log) else log).(running := running)
  }

  function PollCoarse(log: Log, due: bool): Log {
    if log.running && due then ClearWindow(log) else log
  }

  lemma {:induction false} ListOfLists(m: map<u64, Record>)
    requires KeyedById(m)
    ensures Lists(ListOf(m), m)
    decreases m.Keys
  {
    if m.Keys != {} {
      var k :| k in m && ListOf(m) == [m[k]] + ListOf(m - {k});
      ListOfLists(m - {k});
      var rest := ListOf(m - {k});
      forall r | r in rest ensures r.probeId != k {}
      assert m == (m - {k})[k := m[k]];
    }
  }

  lemma ListsTail(l: seq<Record>, m: map<u64, Record>)
    requires Lists(l, m) && KeyedById(m) && l != []
    ensures l[0].probeId in m && m[l[0].probeId] == l[0]
    ensures Lists(l[1..], m - {l[0].probeId})
  {
    var head, rest, less := l[0], l[1..], m - {l[0].probeId};
    assert l == [head] + rest;
    assert head in l;
    forall r | r in rest ensures r.probeId in less && less[r.probeId] == r {
      var i :| 0 <= i < |rest| && rest[i] == r;
      assert l[i + 1] == r && r in l;
    }
    forall x | x in less ensures less[x] in rest {
      assert m[x] in l && m[x] != head;
    }
  }

  lemma {:induction false} FiberOfList(l: seq<Record>, m: map<u64, Record>, k: Record)
    requires Lists(l, m) && KeyedById(m)
    ensures Fiber(l, k) == if k.probeId in m && SameKey(m[k.probeId], k) then [m[k.probeId]] else []
    decreases |l|
  {
    if l != [] {
      ListsTail(l, m);
      FiberOfList(l[1..], m - {l[0].probeId}, k);
    }
  }

  /** The hash order in which the maps are drained does not show: the batch is one sequence. */
  lemma BatchIsDetermined(log: Log, digital: seq<Record>, analog: seq<Record>)
    requires KeyedById(log.digitalLast) && KeyedById(log.analogLast)
    requires Lists(digital, log.digitalLast) && Lists(analog, log.analogLast)
    ensures SortByKey(digital + analog + log.uartWindow) == Batch(log)
  {
    var d, a := ListOf(log.digitalLast), ListOf(log.analogLast);
    ListOfLists(log.digitalLast);
    ListOfLists(log.analogLast);
    var mine, theirs := digital + analog + log.uartWindow, d + a + log.uartWindow;
    forall k ensures Fiber(mine, k) == Fiber(theirs, k) {
      FiberConcat3(digital, analog, log.uartWindow, k);
      FiberConcat3(d, a, log.uartWindow, k);
      FiberOfList(digital, log.digitalLast, k);
      FiberOfList(d, log.digitalLast, k);
      FiberOfList(analog, log.analogLast, k);
      FiberOfList(a, log.analogLast, k);
    }
    SortIsDetermined(mine, theirs);
  }

  // ---- export ----

  /** The queues one after the other, in the given order of probes. */
  function MemoryList(memory: map<u64, seq<Record>>, order: seq<u64>): seq<Record> {
    if order == [] then []
    else MemoryList(memory, order[..|order| - 1]) +
         (var id := order[|order| - 1]; if id in memory then memory[id] else [])
  }

  ghost predicate OrdersKeys(order: seq<u64>, memory: map<u64, seq<Record>>) {
    (forall i, j | 0 <= i < j < |order| :: order[i] != order[j]) && forall id :: id in order <==> id in memory
  }

  /** `load_export` of a snapshot: the file as it is now, up to the length noted then, and the
      memory as it was then. */
  function LoadExport(file: seq<byte>, fileLen: nat, memory: seq<Record>): seq<Record> {
    Decode(file[..if fileLen < |file| then fileLen else |file|]) + memory
  }

  // ---- the log as it runs ----

  /** `HashMap::drain`, in whatever order the map gives. */
  method Drain(m: map<u64, Record>) returns (l: seq<Record>)
    requires KeyedById(m)
    ensures Lists(l, m)
  {
    l := [];
    var rest := m;
    while rest.Keys != {}
      invariant rest.Keys <= m.Keys && forall k | k in rest :: rest[k] == m[k]
      invariant Lists(l, m - rest.Keys)
      decreases rest.Keys
    {
      var k :| k in rest;
      ghost var done := m - rest.Keys;
      assert forall r | r in l :: r.probeId in done && r.probeId != k;
      l := l + [rest[k]];
      rest := rest - {k};
      assert (m - rest.Keys).Keys == done.Keys + {k};
    }
    assert m - rest.Keys == m;
  }

  /** `export`'s walk over the queues, in whatever order the map gives. */
  method Collect(memory: map<u64, seq<Record>>) returns (l: seq<Record>, ghost order: seq<u64>)
    ensures OrdersKeys(order, memory) && l == MemoryList(memory, order)
  {
    l, order := [], [];
    var rest := memory;
    while rest.Keys != {}
      invariant rest.Keys <= memory.Keys && forall k | k in rest :: rest[k] == memory[k]
      invariant forall i, j | 0 <= i < j < |order| :: order[i] != order[j]
      invariant forall id :: id in order <==> id in memory && id !in rest
      invariant l == MemoryList(memory, order)
      decreases rest.Keys
    {
      var k :| k in rest;
      assert (order + [k])[..|order|] == order;
      assert forall i | 0 <= i < |order| :: order[i] in order && order[i] != k;
      l := l + rest[k];
      order := order + [k];
      rest := rest - {k};
    }
  }

  class ProbeLog {
    const cap: nat
    var memory: map<u64, seq<Record>>
    var file: seq<byte>
    var truncated: bool
    var running: bool
    var digitalLast: map<u64, Record>
    var analogLast: map<u64, Record>
    var uartWindow: seq<Record>
    var latest: map<u64, Record>

    ghost predicate Valid()
      reads this
    {
      cap > 0 && KeyedById(digitalLast) && KeyedById(analogLast)
    }

    ghost function View(): Log
      reads this
    {
      Log(cap, memory, file, truncated, running, digitalLast, analogLast, uartWindow, latest)
    }

    constructor (cap: nat)
      ensures Valid() && View() == FreshLog(cap)
    {
      this.cap := if cap == 0 then 1 else cap;
      memory, file, truncated, running := map[], [], false, false;
      digitalLast, analogLast, uartWindow, latest := map[], map[], [], map[];
    }

    predicate AtCapacity(id: u64)
      reads this
    {
      id in memory && |memory[id]| >= cap
    }

    method AppendSpill(r: Record, disk: Append) returns (ok: bool)
      modifies this`file
      ensures ok == disk.Appended?
      ensures file == old(file) + if ok then Encode(r) else Torn(r, disk)
    {
      match disk
      case Appended =>
        file := file + Encode(r);
        ok := true;
      case TornAfter(n) =>
        file := file + (if n < SPILL_REC then Encode(r)[..n] else []);
        ok := false;
    }

    method SpillOldest(id: u64, disk: Append) returns (ok: bool)
      requires id in memory && memory[id] != []
      modifies this`file, this`memory
      ensures ok == disk.Appended?
      ensures ok ==> View() == Spill(old(View()), id)
      ensures !ok ==> View() == old(View()).(file := old(file) + Torn(old(memory)[id][0], disk))
    {
      var oldest := memory[id][0];
      assert memory[id] == [oldest] + memory[id][1..];
      memory := memory[id := memory[id][1..]];
      ok := AppendSpill(oldest, disk);
      if !ok {
        memory := memory[id := [oldest] + memory[id]];
      }
    }

    method PushSample(r: Record, disk: Append)
      requires Valid()
      modifies this
      ensures Valid() && View() == Push(old(View()), r, disk)
    {
      if truncated && AtCapacity(r.probeId) {
        return;
      }
      if AtCapacity(r.probeId) {
        var ok := SpillOldest(r.probeId, disk);
        if !ok {
          truncated := true;
          return;
        }
      }
      memory := memory[r.probeId := (if r.probeId in memory then memory[r.probeId] else []) + [r]];
      latest := latest[r.probeId := r];
      if running {
        match r.kind
        case Digital => digitalLast := digitalLast[r.probeId := r];
        case Analog => analogLast := analogLast[r.probeId := r];
        case Uart => uartWindow := uartWindow + [r];
      }
    }

    method EmitCoarse() returns (records: seq<Record>)
      requires Valid()
      modifies this`digitalLast, this`analogLast, this`uartWindow
      ensures Valid() && View() == ClearWindow(old(View())) && records == Batch(old(View()))
    {
      var digital := Drain(digitalLast);
      var analog := Drain(analogLast);
      BatchIsDetermined(View(), digital, analog);
      records := digital + analog + uartWindow;
      digitalLast, analogLast, uartWindow := map[], map[], [];
      records := SortByKey(records);
    }

    method SetRunningTo(on: bool) returns (flushed: seq<Record>)
      requires Valid()
      modifies this
      ensures Valid() && View() == SetRunning(old(View()), on)
      ensures flushed == if old(running) && !on then Batch(old(View())) else []
    {
      flushed := [];
      if running && !on {
        flushed := EmitCoarse();
      }
      if !running && on {
        digitalLast, analogLast, uartWindow := map[], map[], [];
      }
      running := on;
    }

    /** `due`: the coarse interval has passed on the wall clock. */
    method Poll(due: bool) returns (records: seq<Record>)
      requires Valid()
      modifies this`digitalLast, this`analogLast, this`uartWindow
      ensures Valid() && View() == PollCoarse(old(View()), due)
      ensures records == if old(running) && due then Batch(old(View())) else []
    {
      if !running || !due {
        return [];
      }
      records := EmitCoarse();
    }

    method Export() returns (wasTruncated: bool, fileLen: nat, samples: seq<Record>, ghost order: seq<u64>)
      ensures wasTruncated == truncated && fileLen == |file|
      ensures OrdersKeys(order, memory) && samples == MemoryList(memory, order)
    {
      samples, order := Collect(memory);
      wasTruncated, fileLen := truncated, |file|;
    }
  }
}
