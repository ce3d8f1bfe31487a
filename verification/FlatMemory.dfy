/** The memory bus as a function of its state (sim-kernel/src/bus.rs), and the flat memory a
    guest sees through it. */
module FlatMemory {
  import opened Prelude
  import opened MemoryMap
  import opened AliasFlattening
  import opened AliasWindows

  type byte = x: int | 0 <= x < 256

  datatype Kind = Ram | Rom

  datatype Memory = Memory(kind: Kind, data: seq<byte>)

  datatype UnmappedPolicy = Log | Trap

  datatype UnmappedAccess = UnmappedAccess(addr: u64, len: u64, write: bool)

  /** A built bus. `memory` holds the bytes of each device, by region index. */
  datatype Bus<+D> = Bus(
    regions: seq<Region<D>>,
    memory: map<nat, Memory>,
    policy: UnmappedPolicy,
    log: seq<UnmappedAccess>,
    trap: Option<UnmappedAccess>)

  datatype Request = DoRead(len: u64) | DoWrite(buf: seq<byte>) | DoLoad(buf: seq<byte>) {
    predicate Sized() {
      DoRead? || |buf| <= U64_MAX
    }

    function Len(): u64
      requires Sized()
    {
      match this
      case DoRead(len) => len
      case DoWrite(buf) => |buf|
      case DoLoad(buf) => |buf|
    }
  }

  /** `Panicked` is the bus's own panic: an access led to a region that is no device. */
  datatype Reply = Done(result: Result<seq<byte>, BusError>) | Panicked

  datatype Served<+D> = Served(bus: Bus<D>, reply: Reply)

  // ---- devices ----

  function CopyFrom(data: seq<byte>, offset: u64, len: u64): Result<seq<byte>, BusError> {
    if offset + len > |data| then Err(OutOfRange(offset, offset, len))
    else Ok(data[offset..offset + len])
  }

  function CopyInto(data: seq<byte>, offset: u64, buf: seq<byte>): (r: Result<seq<byte>, BusError>)
    requires |buf| <= U64_MAX
    ensures r.Ok? ==> |r.value| == |data|
  {
    if offset + |buf| > |data| then Err(OutOfRange(offset, offset, |buf|))
    else Ok(data[..offset] + buf + data[offset + |buf|..])
  }

  function WriteMemory(m: Memory, offset: u64, buf: seq<byte>): Result<seq<byte>, BusError>
    requires |buf| <= U64_MAX
  {
    match m.kind
    case Ram => CopyInto(m.data, offset, buf)
    case Rom => Err(ReadOnly(offset))
  }

  function LoadMemory(m: Memory, offset: u64, buf: seq<byte>): Result<seq<byte>, BusError>
    requires |buf| <= U64_MAX
  {
    match m.kind
    case Ram => Err(NotLoadable(offset))
    case Rom => CopyInto(m.data, offset, buf)
  }

  function RewriteBusError(err: BusError, addr: u64): BusError {
    match err
    case ReadOnly(_) => ReadOnly(addr)
    case NotLoadable(_) => NotLoadable(addr)
    case OutOfRange(_, offset, len) => OutOfRange(addr, offset, len)
    case Unmapped(_, len) => Unmapped(addr, len)
  }

  function Rewritten<T>(r: Result<T, BusError>, addr: u64): Result<T, BusError> {
    match r
    case Ok(v) => Ok(v)
    case Err(e) => Err(RewriteBusError(e, addr))
  }

  // ---- the bus ----

  function NoteUnmapped<D>(bus: Bus<D>, access: UnmappedAccess): Bus<D> {
    bus.(log := bus.log + [access], trap := if bus.policy == Trap then Some(access) else bus.trap)
  }

  function StoreReply<D>(bus: Bus<D>, index: nat, addr: u64, r: Result<seq<byte>, BusError>): Served<D>
    requires index in bus.memory
  {
    match r
    case Ok(data) =>
      Served(bus.(memory := bus.memory[index := bus.memory[index].(data := data)]), Done(Ok([])))
    case Err(e) => Served(bus, Done(Err(RewriteBusError(e, addr))))
  }

  function ServeDevice<D>(bus: Bus<D>, index: nat, offset: u64, addr: u64, req: Request): Served<D>
    requires req.Sized()
  {
    if index !in bus.memory then Served(bus, Panicked)
    else
      match req
      case DoWrite(buf) => StoreReply(bus, index, addr, WriteMemory(bus.memory[index], offset, buf))
      case DoLoad(buf) => StoreReply(bus, index, addr, LoadMemory(bus.memory[index], offset, buf))
      case DoRead(len) => Served(bus, Done(Rewritten(CopyFrom(bus.memory[index].data, offset, len), addr)))
  }

  function Serve<D>(bus: Bus<D>, addr: u64, req: Request): Served<D>
    requires req.Sized()
  {
    match Resolve(bus.regions, addr, req.Len())
    case Err(e) =>
      if e.Unmapped? then
        Served(NoteUnmapped(bus, UnmappedAccess(addr, req.Len(), !req.DoRead?)), Done(Err(Unmapped(addr, req.Len()))))
      else Served(bus, Done(Err(e)))
    case Ok(spot) => ServeDevice(bus, spot.index, spot.offset, addr, req)
  }

  /** A bus built from `regions`, each device with as many bytes as its region. */
  ghost predicate BuiltFrom<D>(bus: Bus<D>, regions: seq<Region<D>>) {
    Flatten(regions) == Ok(bus.regions) && Bounded(regions) &&
    (forall i: nat :: i in bus.memory <==> i < |bus.regions| && bus.regions[i].backing.Device?) &&
    forall i | i in bus.memory :: |bus.memory[i].data| == bus.regions[i].size
  }

  /** Exactly which accesses a built bus accepts, and with which error it refuses the others.
      It never panics, and a refused access changes no byte. */
  lemma ServeIsExact<D>(bus: Bus<D>, regions: seq<Region<D>>, addr: u64, req: Request)
    requires BuiltFrom(bus, regions) && req.Sized()
    ensures var after := Serve(bus, addr, req);
            BuiltFrom(after.bus, regions) && after.reply.Done? &&
            (after.reply.result.Err? ==> after.bus.memory == bus.memory) &&
            match ChainResolve(regions, addr, req.Len())
            case Err(e) => after.reply.result == Err(e)
            case Ok(spot) =>
              spot.index in bus.memory &&
              (req.DoRead? ==> after.reply.result.Ok? && after.bus == bus) &&
              (req.DoWrite? ==> after.reply.result == if bus.memory[spot.index].kind == Ram then Ok([])
                  else Err(ReadOnly(addr))) &&
              (req.DoLoad? ==> after.reply.result == if bus.memory[spot.index].kind == Rom then Ok([])
                  else Err(NotLoadable(addr)))
  {
    FlatteningPreservesMeaning(regions, addr, req.Len());
    AcceptedAccessIsInside(regions, addr, req.Len());
  }

  // ---- the flat memory ----

  /** Where the byte at a guest address is kept. */
  function Place<D>(bus: Bus<D>, addr: u64): Option<Spot> {
    match Resolve(bus.regions, addr, 1)
    case Ok(spot) => Some(spot)
    case Err(_) => None
  }

  /** The byte at a guest address, if one is mapped there. */
  function ByteAt<D>(bus: Bus<D>, addr: u64): Option<byte> {
    match Place(bus, addr)
    case None => None
    case Some(spot) =>
      if spot.index in bus.memory && spot.offset < |bus.memory[spot.index].data|
      then Some(bus.memory[spot.index].data[spot.offset])
      else None
  }

  predicate ShowsAt<D>(bus: Bus<D>, addr: u64, bytes: seq<byte>, k: nat)
    requires k < |bytes|
  {
    addr + k <= U64_MAX && ByteAt(bus, addr + k) == Some(bytes[k])
  }

  /** `bytes` are the flat memory from `addr` on. */
  ghost predicate Shows<D>(bus: Bus<D>, addr: u64, bytes: seq<byte>) {
    forall k: nat | k < |bytes| :: ShowsAt(bus, addr, bytes, k)
  }

  lemma AcceptedSpot<D>(bus: Bus<D>, regions: seq<Region<D>>, addr: u64, len: u64, spot: Spot)
    requires BuiltFrom(bus, regions) && Resolve(bus.regions, addr, len) == Ok(spot)
    ensures spot.index in bus.memory && spot.offset + len <= |bus.memory[spot.index].data| < U64_MAX
    ensures ChainResolve(regions, addr, len) == Ok(spot)
  {
    FlatteningPreservesMeaning(regions, addr, len);
    AcceptedAccessIsInside(regions, addr, len);
  }

  lemma NextPlace<D>(bus: Bus<D>, regions: seq<Region<D>>, addr: u64, len: u64, k: u64, spot: Spot)
    requires BuiltFrom(bus, regions) && NoWrap(regions) && Built(regions)
    requires Resolve(bus.regions, addr, len) == Ok(spot) && k < len
    ensures addr + k <= U64_MAX && spot.offset + k <= U64_MAX
    ensures Place(bus, addr + k) == Some(Spot(spot.index, spot.offset + k))
  {
    AcceptedSpot(bus, regions, addr, len, spot);
    ChainIsConsecutive(regions, addr, len, k);
    FlatteningPreservesMeaning(regions, addr + k, 1);
  }

  lemma ByteOfAccess<D>(bus: Bus<D>, regions: seq<Region<D>>, addr: u64, bytes: seq<byte>, k: nat, spot: Spot)
    requires BuiltFrom(bus, regions) && NoWrap(regions) && Built(regions) && k < |bytes| <= U64_MAX
    requires Resolve(bus.regions, addr, |bytes|) == Ok(spot)
    requires spot.index in bus.memory && spot.offset + |bytes| <= |bus.memory[spot.index].data|
    requires bytes == bus.memory[spot.index].data[spot.offset..spot.offset + |bytes|]
    ensures ShowsAt(bus, addr, bytes, k)
  {
    NextPlace(bus, regions, addr, |bytes|, k, spot);
    assert bytes[k] == bus.memory[spot.index].data[spot.offset + k];
  }

  /** A read returns the flat memory's bytes. */
  lemma ReadSeesFlatMemory<D>(bus: Bus<D>, regions: seq<Region<D>>, addr: u64, len: u64)
    requires BuiltFrom(bus, regions) && NoWrap(regions) && Built(regions)
    requires Serve(bus, addr, DoRead(len)).reply.Done? && Serve(bus, addr, DoRead(len)).reply.result.Ok?
    ensures var bytes := Serve(bus, addr, DoRead(len)).reply.result.value;
            |bytes| == len && Shows(bus, addr, bytes)
  {
    var bytes := Serve(bus, addr, DoRead(len)).reply.result.value;
    var spot := Resolve(bus.regions, addr, len).value;
    AcceptedSpot(bus, regions, addr, len, spot);
    forall k: nat | k < |bytes| ensures ShowsAt(bus, addr, bytes, k) {
      ByteOfAccess(bus, regions, addr, bytes, k, spot);
    }
  }

  /** What a write or a load stores at a place. */
  function Stored(spot: Spot, buf: seq<byte>, at: Spot): Option<byte> {
    if at.index == spot.index && spot.offset <= at.offset < spot.offset + |buf|
    then Some(buf[at.offset - spot.offset])
    else None
  }

  lemma StoreShape<D>(bus: Bus<D>, addr: u64, req: Request)
    requires !req.DoRead? && req.Sized()
    requires Serve(bus, addr, req).reply == Done(Ok([]))
    ensures Resolve(bus.regions, addr, |req.buf|).Ok?
    ensures var spot := Resolve(bus.regions, addr, |req.buf|).value;
            spot.index in bus.memory &&
            spot.offset + |req.buf| <= |bus.memory[spot.index].data| &&
            var bytes := bus.memory[spot.index].data;
            Serve(bus, addr, req).bus ==
            bus.(memory := bus.memory[spot.index := bus.memory[spot.index].(data :=
                   bytes[..spot.offset] + req.buf + bytes[spot.offset + |req.buf|..])])
  {
  }

  /** An accepted write or load changes exactly the bytes it covers: at every guest address,
      through whatever window, the flat memory is the old one overridden by the new bytes. */
  lemma WriteUpdatesFlatMemory<D>(bus: Bus<D>, addr: u64, req: Request, a: u64)
    requires !req.DoRead? && req.Sized()
    requires Serve(bus, addr, req).reply == Done(Ok([]))
    ensures Resolve(bus.regions, addr, |req.buf|).Ok?
    ensures var spot := Resolve(bus.regions, addr, |req.buf|).value;
            ByteAt(Serve(bus, addr, req).bus, a) ==
            match Place(bus, a)
            case None => None
            case Some(at) =>
              if Stored(spot, req.buf, at).Some? then Stored(spot, req.buf, at) else ByteAt(bus, a)
  {
    StoreShape(bus, addr, req);
    var after := Serve(bus, addr, req).bus;
    assert Place(after, a) == Place(bus, a);
  }

  /** The bytes just written are read back at the address of the write and at every other
      address that resolves to the same place. */
  lemma ReadBack<D>(bus: Bus<D>, addr: u64, req: Request, other: u64)
    requires !req.DoRead? && req.Sized()
    requires Serve(bus, addr, req).reply == Done(Ok([]))
    requires Resolve(bus.regions, other, |req.buf|) == Resolve(bus.regions, addr, |req.buf|)
    ensures Serve(Serve(bus, addr, req).bus, other, DoRead(|req.buf|)).reply == Done(Ok(req.buf))
  {
    StoreShape(bus, addr, req);
    var spot := Resolve(bus.regions, addr, |req.buf|).value;
    var data := Serve(bus, addr, req).bus.memory[spot.index].data;
    assert data[spot.offset..spot.offset + |req.buf|] == req.buf;
  }

  /** Alias windows share their backing: what is written through a window is read at the
      address the window was aimed at, and the other way round. */
  lemma WindowsShareBytes<D>(bus: Bus<D>, regions: seq<Region<D>>, i: nat, at: u64, req: Request)
    requires BuiltFrom(bus, regions) && NoWrap(regions) && Built(regions)
    requires i < |regions| && regions[i].backing.Alias? && !req.DoRead? && req.Sized()
    requires at < regions[i].size && at + |req.buf| <= regions[i].size
    ensures regions[i].base + at <= U64_MAX
    ensures regions[i].backing.targetBase + regions[i].backing.targetOffset + at <= U64_MAX
    ensures var here := regions[i].base + at;
            var there := regions[i].backing.targetBase + regions[i].backing.targetOffset + at;
            (Serve(bus, here, req).reply == Done(Ok([])) <==> Serve(bus, there, req).reply == Done(Ok([]))) &&
            (Serve(bus, here, req).reply == Done(Ok([])) ==>
               Serve(bus, here, req).bus == Serve(bus, there, req).bus &&
               Serve(Serve(bus, here, req).bus, there, DoRead(|req.buf|)).reply == Done(Ok(req.buf)) &&
               Serve(Serve(bus, there, req).bus, here, DoRead(|req.buf|)).reply == Done(Ok(req.buf)))
  {
    WindowShowsTarget(regions, i, at, |req.buf|);
    var here := regions[i].base + at;
    var there := regions[i].backing.targetBase + regions[i].backing.targetOffset + at;
    SamePlaceSameStore(bus, here, there, req);
    if Serve(bus, here, req).reply == Done(Ok([])) {
      ReadBack(bus, here, req, there);
      ReadBack(bus, there, req, here);
    }
  }

  lemma SamePlaceSameStore<D>(bus: Bus<D>, a: u64, b: u64, req: Request)
    requires !req.DoRead? && req.Sized()
    requires Resolve(bus.regions, a, |req.buf|) == Resolve(bus.regions, b, |req.buf|)
    requires Resolve(bus.regions, a, |req.buf|).Ok?
    ensures Serve(bus, a, req).reply == Done(Ok([])) <==> Serve(bus, b, req).reply == Done(Ok([]))
    ensures Serve(bus, a, req).reply == Done(Ok([])) ==> Serve(bus, a, req).bus == Serve(bus, b, req).bus
  {
  }

  // ---- what the bus tells of accesses that led nowhere ----

  /** An access, or a look at what the bus has noted; looking clears it. */
  datatype BusCall = Access(addr: u64, req: Request) | TakeLog | TakeTrap

  predicate AllSized(calls: seq<BusCall>) {
    forall i | 0 <= i < |calls| && calls[i].Access? :: calls[i].req.Sized()
  }

  function AfterCall<D>(bus: Bus<D>, call: BusCall): Bus<D>
    requires call.Access? ==> call.req.Sized()
  {
    match call
    case Access(addr, req) => Serve(bus, addr, req).bus
    case TakeLog => bus.(log := [])
    case TakeTrap => bus.(trap := None)
  }

  function AfterCalls<D>(bus: Bus<D>, calls: seq<BusCall>): Bus<D>
    requires AllSized(calls)
    decreases |calls|
  {
    if calls == [] then bus else AfterCall(AfterCalls(bus, calls[..|calls| - 1]), calls[|calls| - 1])
  }

  /** The accesses of a call to which no region, followed through the aliases, answers. */
  function Astray<D>(regions: seq<Region<D>>, call: BusCall): seq<UnmappedAccess>
    requires call.Access? ==> call.req.Sized()
  {
    if call.Access? && ChainResolve(regions, call.addr, call.req.Len()) == Err(Unmapped(call.addr, call.req.Len()))
    then [UnmappedAccess(call.addr, call.req.Len(), call.req.DoWrite? || call.req.DoLoad?)]
    else []
  }

  function AllAstray<D>(regions: seq<Region<D>>, calls: seq<BusCall>): seq<UnmappedAccess>
    requires AllSized(calls)
    decreases |calls|
  {
    if calls == [] then [] else AllAstray(regions, calls[..|calls| - 1]) + Astray(regions, calls[|calls| - 1])
  }

  /** The logs handed out, one after the other. */
  function LogsTaken<D>(bus: Bus<D>, calls: seq<BusCall>): seq<UnmappedAccess>
    requires AllSized(calls)
    decreases |calls|
  {
    if calls == [] then []
    else
      var n := |calls| - 1;
      LogsTaken(bus, calls[..n]) + if calls[n].TakeLog? then AfterCalls(bus, calls[..n]).log else []
  }

  /** The last access gone astray since the trap was last taken. */
  function LastAstray<D>(regions: seq<Region<D>>, calls: seq<BusCall>, first: Option<UnmappedAccess>)
    : Option<UnmappedAccess>
    requires AllSized(calls)
    decreases |calls|
  {
    if calls == [] then first
    else
      var call := calls[|calls| - 1];
      if call.TakeTrap? then None
      else if Astray(regions, call) != [] then Some(Astray(regions, call)[0])
      else LastAstray(regions, calls[..|calls| - 1], first)
  }

  lemma CallNotes<D>(bus: Bus<D>, regions: seq<Region<D>>, call: BusCall)
    requires BuiltFrom(bus, regions) && (call.Access? ==> call.req.Sized())
    ensures var next := AfterCall(bus, call);
            var astray := Astray(regions, call);
            BuiltFrom(next, regions) && next.policy == bus.policy &&
            next.log == (if call.TakeLog? then [] else bus.log + astray) &&
            next.trap == (if call.TakeTrap? then None
                          else if astray != [] && bus.policy == Trap then Some(astray[0])
                          else bus.trap)
  {
    if call.Access? {
      ServeIsExact(bus, regions, call.addr, call.req);
      FlatteningPreservesMeaning(regions, call.addr, call.req.Len());
    }
  }

  /** Over every run of accesses to a built bus, every access that led nowhere is in the logs handed
      out or in the one being kept, once and in order, with its address, its length and its
      direction. Under the trapping policy the trap holds the last of them since it was last taken;
      otherwise no access ever sets it. */
  lemma {:induction false} AstrayIsTold<D>(bus: Bus<D>, regions: seq<Region<D>>, calls: seq<BusCall>)
    requires BuiltFrom(bus, regions) && AllSized(calls)
    ensures var after := AfterCalls(bus, calls);
            BuiltFrom(after, regions) && after.policy == bus.policy &&
            LogsTaken(bus, calls) + after.log == bus.log + AllAstray(regions, calls) &&
            (bus.policy == Trap ==> after.trap == LastAstray(regions, calls, bus.trap)) &&
            (bus.policy == Log && bus.trap.None? ==> after.trap.None?)
    decreases |calls|
  {
    if calls != [] {
      var n := |calls| - 1;
      var before := AfterCalls(bus, calls[..n]);
      AstrayIsTold(bus, regions, calls[..n]);
      CallNotes(before, regions, calls[n]);
      LogsAddUp(LogsTaken(bus, calls[..n]), before.log, bus.log, AllAstray(regions, calls[..n]),
                Astray(regions, calls[n]), calls[n].TakeLog?);
    }
  }

  lemma LogsAddUp<T>(taken: seq<T>, kept: seq<T>, first: seq<T>, all: seq<T>, more: seq<T>, take: bool)
    requires taken + kept == first + all && (take ==> more == [])
    ensures taken + (if take then kept else []) + (if take then [] else kept + more) == first + (all + more)
  {
    assert taken + (kept + more) == (taken + kept) + more;
    assert taken + [] == taken;
  }
}
