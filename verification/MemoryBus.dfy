/** The memory map as it is built and used (sim-kernel/src/bus.rs): device buffers, the builder,
    the in-place flattening loop, and the bus. */
module MemoryBus {
  import opened Prelude
  import opened MemoryMap
  import opened AliasFlattening
  import opened AliasWindows
  import opened FlatMemory

  /** RAM or ROM: a fixed buffer of bytes. */
  class MemoryDevice {
    const kind: Kind
    const data: array<byte>

    /** No buffer fills the whole address space. */
    ghost predicate Valid() {
      data.Length < U64_MAX
    }

    ghost function Contents(): Memory
      reads data
    {
      Memory(kind, data[..])
    }

    /** `Ram::from_bytes`, `Rom::from_bytes`. */
    constructor (kind: Kind, bytes: seq<byte>)
      requires |bytes| < U64_MAX
      ensures Valid() && fresh(data) && Contents() == Memory(kind, bytes)
    {
      this.kind := kind;
      data := new byte[|bytes|](i requires 0 <= i < |bytes| => bytes[i]);
      new;
      assert data[..] == bytes;
    }

    method Read(offset: u64, len: u64) returns (r: Result<seq<byte>, BusError>)
      ensures r == CopyFrom(data[..], offset, len)
    {
      if offset + len > data.Length {
        return Err(OutOfRange(offset, offset, len));
      }
      r := Ok(data[offset..offset + len]);
      assert data[offset..offset + len] == data[..][offset..offset + len];
    }

    /** `copy_into`. */
    method Copy(offset: u64, buf: seq<byte>) returns (error: Option<BusError>)
      requires |buf| <= U64_MAX
      modifies data
      ensures match CopyInto(old(data[..]), offset, buf)
              case Ok(bytes) => error == None && data[..] == bytes
              case Err(e) => error == Some(e) && data[..] == old(data[..])
    {
      if offset + |buf| > data.Length {
        return Some(OutOfRange(offset, offset, |buf|));
      }
      forall i | 0 <= i < |buf| {
        data[offset + i] := buf[i];
      }
      error := None;
      assert data[..] == old(data[..])[..offset] + buf + old(data[..])[offset + |buf|..];
    }

    method Write(offset: u64, buf: seq<byte>) returns (error: Option<BusError>)
      requires |buf| <= U64_MAX
      modifies data
      ensures match WriteMemory(old(Contents()), offset, buf)
              case Ok(bytes) => error == None && data[..] == bytes
              case Err(e) => error == Some(e) && data[..] == old(data[..])
    {
      if kind == Rom {
        return Some(ReadOnly(offset));
      }
      error := Copy(offset, buf);
    }

    method Load(offset: u64, buf: seq<byte>) returns (error: Option<BusError>)
      requires |buf| <= U64_MAX
      modifies data
      ensures match LoadMemory(old(Contents()), offset, buf)
              case Ok(bytes) => error == None && data[..] == bytes
              case Err(e) => error == Some(e) && data[..] == old(data[..])
    {
      if kind == Ram {
        return Some(NotLoadable(offset));
      }
      error := Copy(offset, buf);
    }
  }

  type Layout = seq<Region<MemoryDevice>>

  /** Every device fills its region, and no two regions share a buffer. */
  ghost predicate Owned(regions: Layout) {
    (forall i | 0 <= i < |regions| && regions[i].backing.Device? ::
       regions[i].backing.device.Valid() && regions[i].backing.device.data.Length == regions[i].size) &&
    forall i, j | 0 <= i < j < |regions| && regions[i].backing.Device? && regions[j].backing.Device? ::
      regions[i].backing.device.data != regions[j].backing.device.data
  }

  ghost function Buffers(regions: Layout): set<object> {
    set i | 0 <= i < |regions| && regions[i].backing.Device? :: regions[i].backing.device.data
  }

  /** The alias walk as a loop over the regions. */
  method ResolveAliasChain<D>(regions: seq<Region<D>>, start: nat) returns (r: Result<(nat, u64), MapError>)
    requires start < |regions|
    ensures match Resolution(regions, start)
            case Reached(device, offset) => r == Ok((device, offset))
            case Failed(e) => r == Err(e)
  {
    var path: seq<u64> := [];
    var idx: nat := start;
    var accum: u64 := 0;
    while true
      invariant idx < |regions|
      invariant Walk(regions, idx, path, accum) == Resolution(regions, start)
      decreases Unvisited(regions, path)
    {
      var region := regions[idx];
      match region.backing {
        case Device(_) => return Ok((idx, accum));
        case Alias(targetBase, targetOffset) =>
          if region.base in path {
            return Err(AliasCycle(path + [region.base]));
          }
          var next := FindBase(regions, targetBase);
          if next.None? {
            return Err(AliasTargetMissing(SatAdd(targetBase, targetOffset)));
          }
          assert idx in Unvisited(regions, path) && idx !in Unvisited(regions, path + [region.base]);
          path := path + [region.base];
          accum := SatAdd(accum, targetOffset);
          idx := next.value;
      }
    }
  }

  /** One iteration of the first flattening loop. */
  method FlattenRegion<D>(regions: seq<Region<D>>, i: nat) returns (r: Result<Region<D>, MapError>)
    requires i < |regions|
    ensures r == FlattenOne(regions, i)
  {
    if regions[i].backing.Device? {
      return Ok(regions[i]);
    }
    var end := ResolveAliasChain(regions, i);
    if end.Err? {
      return Err(end.error);
    }
    WalkReaches(regions, i, [], 0);
    var deviceBase, offset := regions[end.value.0].base, end.value.1;
    var device := FindBase(regions, deviceBase);
    assert device.Some?;
    var region := regions[device.value];
    if SatAdd(offset, regions[i].size) > region.size {
      return Err(AliasOutOfRange(SatAdd(deviceBase, offset), regions[i].size, deviceBase, region.size));
    }
    r := Ok(Region(regions[i].base, regions[i].size, Alias(deviceBase, offset)));
  }

  lemma {:induction false} FlattenFails<D>(regions: seq<Region<D>>, n: nat, m: nat)
    requires n <= m <= |regions| && FlattenPrefix(regions, n).Err?
    ensures FlattenPrefix(regions, m) == FlattenPrefix(regions, n)
    decreases m - n
  {
    if n < m {
      FlattenFails(regions, n + 1, m);
    }
  }

  /** `flatten_aliases`: resolve every alias against the unflattened list, then overwrite. On an
      error nothing is overwritten. */
  method FlattenAliases<D>(regions: array<Region<D>>) returns (error: Option<MapError>)
    modifies regions
    ensures match Flatten(old(regions[..]))
            case Ok(flat) => error == None && regions[..] == flat
            case Err(e) => error == Some(e) && regions[..] == old(regions[..])
  {
    ghost var was := regions[..];
    var resolved: seq<Region<D>> := [];
    var i: nat := 0;
    while i < regions.Length
      invariant i <= regions.Length && regions[..] == was
      invariant FlattenPrefix(was, i) == Ok(resolved)
    {
      var r := FlattenRegion(regions[..], i);
      if r.Err? {
        FlattenFails(was, i + 1, |was|);
        return Some(r.error);
      }
      resolved := resolved + [r.value];
      i := i + 1;
    }
    assert |resolved| == regions.Length;
    Overwrite(regions, resolved);
    error := None;
  }

  method Overwrite<T>(a: array<T>, s: seq<T>)
    requires a.Length == |s|
    modifies a
    ensures a[..] == s
  {
    var i := 0;
    while i < a.Length
      invariant 0 <= i <= a.Length
      invariant forall k | 0 <= k < i :: a[k] == s[k]
    {
      a[i] := s[i];
      i := i + 1;
    }
  }

  class MemoryMapBuilder {
    var regions: Layout
    var policy: UnmappedPolicy

    ghost predicate Valid()
      reads this
    {
      Built(regions) && Owned(regions)
    }

    constructor ()
      ensures Valid() && regions == [] && policy == Log
    {
      regions, policy := [], Log;
    }

    method SetPolicy(policy: UnmappedPolicy)
      requires Valid()
      modifies this`policy
      ensures Valid() && this.policy == policy
    {
      this.policy := policy;
    }

    /** `map`. A device is handed over, so it is not in the map yet. */
    method MapAt(base: u64, device: MemoryDevice) returns (error: Option<MapError>)
      requires Valid() && device.Valid() && device.data !in Buffers(regions)
      modifies this`regions
      ensures Valid()
      ensures match MapDevice(old(regions), base, device.data.Length, device)
              case Ok(more) => error == None && regions == more
              case Err(e) => error == Some(e) && regions == old(regions)
    {
      var size := device.data.Length;
      if size == 0 {
        return Some(EmptyDevice);
      }
      if Collides(regions, base, size) {
        return Some(Overlap(base, size));
      }
      var region := Region(base, size, Device(device));
      AdoptKeepsBuilt(regions, region);
      forall i | 0 <= i < |regions| && regions[i].backing.Device?
        ensures regions[i].backing.device.data != device.data
      {
        assert regions[i].backing.device.data in Buffers(regions);
      }
      regions := regions + [region];
      error := None;
    }

    method AliasAt(aliasBase: u64, target: u64, size: u64) returns (error: Option<MapError>)
      requires Valid()
      modifies this`regions
      ensures Valid()
      ensures match MapAlias(old(regions), aliasBase, target, size)
              case Ok(more) => error == None && regions == more
              case Err(e) => error == Some(e) && regions == old(regions)
    {
      if size == 0 {
        return Some(EmptyDevice);
      }
      var hit := FindRegion(regions, target);
      if hit.None? {
        return Some(AliasTargetMissing(target));
      }
      var region := regions[hit.value];
      var targetOffset := target - region.base;
      if SatAdd(targetOffset, size) > region.size {
        return Some(AliasOutOfRange(target, size, region.base, region.size));
      }
      if Collides(regions, aliasBase, size) {
        return Some(Overlap(aliasBase, size));
      }
      AliasKeepsBuilt(regions, aliasBase, target, size);
      regions := regions + [Region(aliasBase, size, Alias(region.base, targetOffset))];
      error := None;
    }

    /** One region of another map. */
    method AdoptRegion(region: Region<MemoryDevice>) returns (error: Option<MapError>)
      requires Valid()
      requires region.backing.Device? ==>
                 region.backing.device.Valid() && region.backing.device.data.Length == region.size &&
                 region.backing.device.data !in Buffers(regions)
      modifies this`regions
      ensures Valid()
      ensures match Adopt(old(regions), region)
              case Ok(more) => error == None && regions == more
              case Err(e) => error == Some(e) && regions == old(regions)
      ensures Buffers(regions) <= Buffers(old(regions)) + Buffers([region])
    {
      ghost var before := regions;
      match region.backing {
        case Device(device) => error := MapAt(region.base, device);
        case Alias(targetBase, targetOffset) =>
          error := AliasAt(region.base, SatAdd(targetBase, targetOffset), region.size);
      }
      if error.None? {
        BuffersGrow(before, regions[|before|]);
        BuffersGrow([], region);
        assert [] + [region] == [region];
      }
    }

    /** Fold another unfinished map into this one. A builder whose merge failed is dropped. */
    method MergeWith(others: Layout) returns (error: Option<MapError>)
      requires Valid() && Owned(others) && Buffers(regions) !! Buffers(others)
      modifies this`regions
      ensures Valid()
      ensures match Merge(old(regions), others)
              case Ok(more) => error == None && regions == more
              case Err(e) => error == Some(e)
    {
      var k := 0;
      while k < |others|
        invariant 0 <= k <= |others| && Valid()
        invariant Merge(old(regions), others) == Merge(regions, others[k..])
        invariant Buffers(regions) <= Buffers(old(regions)) + Buffers(others[..k])
      {
        assert others[k..][1..] == others[k + 1..];
        NotYetThere(others, k);
        error := AdoptRegion(others[k]);
        if error.Some? {
          return error;
        }
        k := k + 1;
      }
      error := None;
    }

    method Build() returns (r: Result<MemoryBus, MapError>)
      requires Valid()
      ensures r.Ok?
      ensures fresh(r.value) && r.value.Valid() && r.value.original == regions
      ensures r.value.View().policy == policy && r.value.View().log == [] && r.value.View().trap == None
    {
      var work := new Region<MemoryDevice>[|regions|](i requires 0 <= i < |regions| reads this => regions[i]);
      assert work[..] == regions;
      var error := FlattenAliases(work);
      BuilderMapsBuild(regions);
      var bus := new MemoryBus(work[..], policy, regions);
      r := Ok(bus);
    }
  }

  /** The next region brings a buffer of its own. */
  lemma NotYetThere(others: Layout, k: nat)
    requires Owned(others) && k < |others|
    ensures Buffers(others[..k + 1]) == Buffers(others[..k]) + Buffers([others[k]])
    ensures others[k].backing.Device? ==>
              others[k].backing.device.data in Buffers(others) && others[k].backing.device.data !in Buffers(others[..k])
  {
    BuffersGrow(others[..k], others[k]);
    BuffersGrow([], others[k]);
    assert [] + [others[k]] == [others[k]] && others[..k] + [others[k]] == others[..k + 1];
  }

  lemma BuffersGrow(regions: Layout, r: Region<MemoryDevice>)
    ensures Buffers(regions + [r]) == Buffers(regions) + (if r.backing.Device? then {r.backing.device.data} else {})
  {
    var more := regions + [r];
    forall b | b in Buffers(regions) ensures b in Buffers(more) {
      var i :| 0 <= i < |regions| && regions[i].backing.Device? && regions[i].backing.device.data == b;
      assert more[i] == regions[i];
    }
    assert more[|regions|] == r;
  }

  class MemoryBus {
    const regions: Layout
    const policy: UnmappedPolicy
    var unmappedLog: seq<UnmappedAccess>
    var trap: Option<UnmappedAccess>
    /** The builder's list this bus was flattened from. */
    ghost const original: Layout

    ghost predicate Valid() {
      Owned(regions) && Flatten(original) == Ok(regions) && Bounded(original)
    }

    ghost function View(): Bus<MemoryDevice>
      reads this, Buffers(regions)
    {
      Bus(regions,
          map i: nat | i < |regions| && regions[i].backing.Device? :: regions[i].backing.device.Contents(),
          policy, unmappedLog, trap)
    }

    lemma IsBuilt()
      requires Valid()
      ensures BuiltFrom(View(), original)
    {
    }

    constructor (regions: Layout, policy: UnmappedPolicy, ghost original: Layout)
      requires Flatten(original) == Ok(regions) && Owned(original)
      ensures Valid() && this.original == original
      ensures View().regions == regions && View().policy == policy && View().log == [] && View().trap == None
    {
      this.regions := regions;
      this.policy := policy;
      this.original := original;
      unmappedLog, trap := [], None;
      forall i | 0 <= i < |regions| ensures FlattenOne(original, i) == Ok(regions[i]) {
        FlattenAt(original, |original|, i);
      }
    }

    method Unmap(addr: u64, len: u64, write: bool) returns (error: BusError)
      requires Valid()
      modifies this
      ensures View() == NoteUnmapped(old(View()), UnmappedAccess(addr, len, write))
      ensures error == Unmapped(addr, len)
    {
      var access := UnmappedAccess(addr, len, write);
      unmappedLog := unmappedLog + [access];
      if policy == Trap {
        trap := Some(access);
      }
      error := Unmapped(addr, len);
    }

    method TakeUnmappedLog() returns (log: seq<UnmappedAccess>)
      requires Valid()
      modifies this`unmappedLog
      ensures Valid() && log == old(View()).log && View() == AfterCall(old(View()), TakeLog)
    {
      log := unmappedLog;
      unmappedLog := [];
    }

    method TakeTrapped() returns (access: Option<UnmappedAccess>)
      requires Valid()
      modifies this`trap
      ensures Valid() && access == old(View()).trap && View() == AfterCall(old(View()), TakeTrap)
    {
      access := trap;
      trap := None;
    }

    method Read(addr: u64, len: u64) returns (r: Result<seq<byte>, BusError>)
      requires Valid()
      modifies this
      ensures Valid() && Served(View(), Done(r)) == Serve(old(View()), addr, DoRead(len))
    {
      IsBuilt();
      AcceptedAccessIsInside(original, addr, len);
      var at := Resolve(regions, addr, len);
      if at.Err? {
        if at.error.Unmapped? {
          var e := Unmap(addr, len, false);
          return Err(e);
        }
        return Err(at.error);
      }
      var got := regions[at.value.index].backing.device.Read(at.value.offset, len);
      r := Rewritten(got, addr);
    }

    /** Write or load into device `index`; no other device changes. */
    method Store(index: nat, offset: u64, addr: u64, buf: seq<byte>, image: bool)
        returns (r: Result<seq<byte>, BusError>)
      requires Valid() && index < |regions| && regions[index].backing.Device? && |buf| <= U64_MAX
      modifies Buffers(regions)
      ensures Valid()
      ensures Served(View(), Done(r)) ==
              ServeDevice(old(View()), index, offset, addr, if image then DoLoad(buf) else DoWrite(buf))
    {
      var device := regions[index].backing.device;
      ghost var before := View();
      var error;
      if image {
        error := device.Load(offset, buf);
      } else {
        error := device.Write(offset, buf);
      }
      forall i | i in before.memory && i != index ensures View().memory[i] == before.memory[i] {
        assert regions[i].backing.device.data != device.data;
      }
      assert View().memory == before.memory[index := device.Contents()];
      r := if error.None? then Ok([]) else Err(RewriteBusError(error.value, addr));
    }

    method Write(addr: u64, buf: seq<byte>) returns (r: Result<seq<byte>, BusError>)
      requires Valid() && |buf| <= U64_MAX
      modifies this, Buffers(regions)
      ensures Valid() && Served(View(), Done(r)) == Serve(old(View()), addr, DoWrite(buf))
    {
      AcceptedAccessIsInside(original, addr, |buf|);
      var at := Resolve(regions, addr, |buf|);
      if at.Err? {
        if at.error.Unmapped? {
          var e := Unmap(addr, |buf|, true);
          return Err(e);
        }
        return Err(at.error);
      }
      r := Store(at.value.index, at.value.offset, addr, buf, false);
    }

    method Load(addr: u64, buf: seq<byte>) returns (r: Result<seq<byte>, BusError>)
      requires Valid() && |buf| <= U64_MAX
      modifies this, Buffers(regions)
      ensures Valid() && Served(View(), Done(r)) == Serve(old(View()), addr, DoLoad(buf))
    {
      AcceptedAccessIsInside(original, addr, |buf|);
      var at := Resolve(regions, addr, |buf|);
      if at.Err? {
        if at.error.Unmapped? {
          var e := Unmap(addr, |buf|, true);
          return Err(e);
        }
        return Err(at.error);
      }
      r := Store(at.value.index, at.value.offset, addr, buf, true);
    }
  }
}
