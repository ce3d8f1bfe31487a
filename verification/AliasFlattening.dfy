/** Flattening of alias chains (sim-kernel/src/bus.rs): a built map resolves every access in one
    hop, to the place the unflattened chain leads to. */
module AliasFlattening {
  import opened Prelude
  import opened MemoryMap

  // ---- the two resolutions ----

  /** `MemoryBus::resolve`: one hop at most. */
  function Resolve<D>(regions: seq<Region<D>>, addr: u64, len: u64): Result<Spot, BusError> {
    match FindRegion(regions, addr)
    case None => Err(Unmapped(addr, len))
    case Some(i) =>
      var offset := addr - regions[i].base;
      if SatAdd(offset, len) > regions[i].size then Err(OutOfRange(addr, offset, len))
      else
        match regions[i].backing
        case Device(_) => Ok(Spot(i, offset))
        case Alias(targetBase, targetOffset) =>
          match FindBase(regions, targetBase)
          case None => Err(Unmapped(addr, len))
          case Some(t) => Ok(Spot(t, SatAdd(targetOffset, offset)))
  }

  /** The reference meaning: from the window that contains the address, follow the alias chain
      of the unflattened map to its device. */
  function ChainResolve<D>(regions: seq<Region<D>>, addr: u64, len: u64): Result<Spot, BusError> {
    match FindRegion(regions, addr)
    case None => Err(Unmapped(addr, len))
    case Some(i) =>
      var offset := addr - regions[i].base;
      if SatAdd(offset, len) > regions[i].size then Err(OutOfRange(addr, offset, len))
      else
        match Resolution(regions, i)
        case Reached(device, travel) => Ok(Spot(device, SatAdd(travel, offset)))
        case Failed(_) => Err(Unmapped(addr, len))
  }

  // ---- flattening ----

  function FlattenOne<D>(regions: seq<Region<D>>, i: nat): Result<Region<D>, MapError>
    requires i < |regions|
  {
    var r := regions[i];
    if r.backing.Device? then Ok(r)
    else
      match Resolution(regions, i)
      case Failed(e) => Err(e)
      case Reached(device, offset) =>
        WalkReaches(regions, i, [], 0);
        var d := regions[device];
        if SatAdd(offset, r.size) > d.size then Err(AliasOutOfRange(SatAdd(d.base, offset), r.size, d.base, d.size))
        else Ok(Region(r.base, r.size, Alias(d.base, offset)))
  }

  /** The first `n` regions, flattened; the first error if there is one. */
  function FlattenPrefix<D>(regions: seq<Region<D>>, n: nat): (r: Result<seq<Region<D>>, MapError>)
    requires n <= |regions|
    ensures r.Ok? ==> |r.value| == n
  {
    if n == 0 then Ok([])
    else
      match FlattenPrefix(regions, n - 1)
      case Err(e) => Err(e)
      case Ok(done) =>
        match FlattenOne(regions, n - 1)
        case Err(e) => Err(e)
        case Ok(r) => Ok(done + [r])
  }

  function Flatten<D>(regions: seq<Region<D>>): Result<seq<Region<D>>, MapError> {
    FlattenPrefix(regions, |regions|)
  }

  /** A walk that is not at its start arrives at regions that are the first with their base. */
  lemma {:induction false} WalkReaches<D>(regions: seq<Region<D>>, idx: nat, path: seq<u64>, accum: u64)
    requires idx < |regions|
    requires path != [] ==> FindBase(regions, regions[idx].base) == Some(idx)
    ensures var w := Walk(regions, idx, path, accum);
            w.Reached? ==>
              w.device < |regions| && regions[w.device].backing.Device? &&
              (regions[idx].backing.Alias? || path != [] ==>
                  FindBase(regions, regions[w.device].base) == Some(w.device))
    decreases Unvisited(regions, path)
  {
    var r := regions[idx];
    if r.backing.Alias? && r.base !in path {
      var next := FindBase(regions, r.backing.targetBase);
      if next.Some? {
        assert idx in Unvisited(regions, path) && idx !in Unvisited(regions, path + [r.base]);
        WalkReaches(regions, next.value, path + [r.base], SatAdd(accum, r.backing.targetOffset));
      }
    }
  }

  lemma {:induction false} FlattenAt<D>(regions: seq<Region<D>>, n: nat, i: nat)
    requires n <= |regions| && FlattenPrefix(regions, n).Ok? && i < n
    ensures FlattenOne(regions, i) == Ok(FlattenPrefix(regions, n).value[i])
  {
    if i < n - 1 {
      FlattenAt(regions, n - 1, i);
    }
  }

  /** Lookups see only bases and sizes, which flattening keeps. */
  lemma SameLookups<D>(a: seq<Region<D>>, b: seq<Region<D>>, x: u64)
    requires |a| == |b| && forall i | 0 <= i < |a| :: a[i].base == b[i].base && a[i].size == b[i].size
    ensures FindRegion(a, x) == FindRegion(b, x) && FindBase(a, x) == FindBase(b, x)
  {
    RegionFound(a, x);
    RegionFound(b, x);
    BaseFound(a, x);
    BaseFound(b, x);
    assert forall i | 0 <= i < |a| :: Hits(a[i], x) == Hits(b[i], x);
  }

  /** For every region list that flattens, one hop on the result is the whole chain on the
      original: same device and offset, or the same error. */
  lemma FlatteningPreservesMeaning<D>(regions: seq<Region<D>>, addr: u64, len: u64)
    requires Flatten(regions).Ok?
    ensures Resolve(Flatten(regions).value, addr, len) == ChainResolve(regions, addr, len)
  {
    var flat := Flatten(regions).value;
    forall i | 0 <= i < |flat| ensures flat[i].base == regions[i].base && flat[i].size == regions[i].size {
      FlattenAt(regions, |regions|, i);
    }
    SameLookups(regions, flat, addr);
    var at := FindRegion(regions, addr);
    if at.Some? {
      var i := at.value;
      FlattenAt(regions, |regions|, i);
      if regions[i].backing.Alias? {
        WalkReaches(regions, i, [], 0);
        SameLookups(regions, flat, flat[i].backing.targetBase);
      }
    }
  }

  /** No device spans the whole 64-bit address space. */
  ghost predicate Bounded<D>(regions: seq<Region<D>>) {
    forall i | 0 <= i < |regions| :: regions[i].backing.Device? ==> regions[i].size < U64_MAX
  }

  /** An access a built map accepts goes to a device, and lies inside it: the panics of the bus
      are unreachable, and devices never see an out-of-range access. */
  lemma AcceptedAccessIsInside<D>(regions: seq<Region<D>>, addr: u64, len: u64)
    requires Flatten(regions).Ok? && Bounded(regions)
    ensures var flat := Flatten(regions).value;
            match Resolve(flat, addr, len)
            case Ok(spot) =>
              spot.index < |flat| && flat[spot.index] == regions[spot.index] &&
              flat[spot.index].backing.Device? && spot.offset + len <= flat[spot.index].size
            case Err(e) => (e.Unmapped? ==> FindRegion(regions, addr).None?) && (e.Unmapped? || e.OutOfRange?)
  {
    var flat := Flatten(regions).value;
    FlatteningPreservesMeaning(regions, addr, len);
    var at := FindRegion(regions, addr);
    if at.Some? {
      FlattenAt(regions, |regions|, at.value);
      WalkReaches(regions, at.value, [], 0);
      var w := Resolution(regions, at.value);
      if w.Reached? {
        FlattenAt(regions, |regions|, w.device);
      }
    }
  }

  // ---- maps made by the builder ----

  ghost predicate PointsBack<D>(regions: seq<Region<D>>, i: nat, j: nat)
    requires i < |regions| && regions[i].backing.Alias?
  {
    j < i && FindBase(regions, regions[i].backing.targetBase) == Some(j) &&
    SatAdd(regions[i].backing.targetOffset, regions[i].size) <= regions[j].size
  }

  ghost predicate GoodRegion<D>(regions: seq<Region<D>>, i: nat)
    requires i < |regions|
  {
    regions[i].size > 0 &&
    (regions[i].backing.Alias? ==>
      regions[i].backing.targetBase < U64_MAX && exists j: nat :: PointsBack(regions, i, j))
  }

  /** What `map`, `alias` and `merge` keep: nonempty regions that do not overlap, and aliases
      whose window lies in an earlier region. */
  ghost predicate Built<D>(regions: seq<Region<D>>) {
    (forall i: nat | i < |regions| :: GoodRegion(regions, i)) &&
    forall i, j | 0 <= i < j < |regions| ::
      !Overlaps(regions[i].base, regions[i].size, regions[j].base, regions[j].size)
  }

  lemma {:induction false} FindBaseInPrefix<D>(regions: seq<Region<D>>, r: Region<D>, base: u64)
    ensures FindBase(regions, base).Some? ==> FindBase(regions + [r], base) == FindBase(regions, base)
    ensures FindRegion(regions, base).Some? ==> FindRegion(regions + [r], base) == FindRegion(regions, base)
  {
    if regions != [] {
      assert (regions + [r])[1..] == regions[1..] + [r];
      FindBaseInPrefix(regions[1..], r, base);
    }
  }

  lemma PushKeepsBuilt<D>(regions: seq<Region<D>>, r: Region<D>)
    requires Built(regions) && !Collides(regions, r.base, r.size) && r.size > 0
    requires r.backing.Alias? ==>
               r.backing.targetBase < U64_MAX &&
               exists j: nat :: j < |regions| && FindBase(regions, r.backing.targetBase) == Some(j) &&
                                SatAdd(r.backing.targetOffset, r.size) <= regions[j].size
    ensures Built(regions + [r])
  {
    var more := regions + [r];
    forall i: nat | i < |more| ensures GoodRegion(more, i) {
      if i < |regions| {
        assert GoodRegion(regions, i);
        if regions[i].backing.Alias? {
          var j: nat :| PointsBack(regions, i, j);
          FindBaseInPrefix(regions, r, regions[i].backing.targetBase);
          assert PointsBack(more, i, j);
        }
      } else if r.backing.Alias? {
        var j: nat :| j < |regions| && FindBase(regions, r.backing.targetBase) == Some(j) &&
                      SatAdd(r.backing.targetOffset, r.size) <= regions[j].size;
        FindBaseInPrefix(regions, r, r.backing.targetBase);
        assert PointsBack(more, i, j);
      }
    }
  }

  /** A region that an address hits is the first with its base. */
  lemma HitIsFirst<D>(regions: seq<Region<D>>, addr: u64)
    requires Built(regions) && FindRegion(regions, addr).Some?
    ensures var j := FindRegion(regions, addr).value;
            regions[j].base < U64_MAX && FindBase(regions, regions[j].base) == Some(j)
  {
    var j := FindRegion(regions, addr).value;
    BaseFound(regions, regions[j].base);
    var k := FindBase(regions, regions[j].base).value;
    assert GoodRegion(regions, k) && GoodRegion(regions, j);
  }

  lemma AdoptKeepsBuilt<D>(regions: seq<Region<D>>, r: Region<D>)
    requires Built(regions)
    ensures Adopt(regions, r).Ok? ==> Built(Adopt(regions, r).value)
  {
    if Adopt(regions, r).Ok? {
      match r.backing
      case Device(device) => PushKeepsBuilt(regions, r);
      case Alias(base, offset) =>
        var target := SatAdd(base, offset);
        HitIsFirst(regions, target);
        var t := FindRegion(regions, target).value;
        PushKeepsBuilt(regions, Region(r.base, r.size, Alias(regions[t].base, target - regions[t].base)));
    }
  }

  lemma AliasKeepsBuilt<D>(regions: seq<Region<D>>, aliasBase: u64, target: u64, size: u64)
    requires Built(regions)
    ensures MapAlias(regions, aliasBase, target, size).Ok? ==> Built(MapAlias(regions, aliasBase, target, size).value)
  {
    var r: Region<D> := Region(aliasBase, size, Alias(target, 0));
    assert Adopt(regions, r) == MapAlias(regions, aliasBase, target, size);
    AdoptKeepsBuilt(regions, r);
  }

  /** Everything on the path belongs to regions after `idx`. */
  ghost predicate PathAbove<D>(regions: seq<Region<D>>, path: seq<u64>, idx: nat) {
    forall p | p in path :: exists k :: idx < k < |regions| && regions[k].base == p
  }

  lemma NotOnPath<D>(regions: seq<Region<D>>, idx: nat, path: seq<u64>)
    requires Built(regions) && idx < |regions| && PathAbove(regions, path, idx)
    requires path == [] || regions[idx].base < U64_MAX
    ensures regions[idx].base !in path
  {
    if path != [] {
      assert GoodRegion(regions, idx);
      forall k | idx < k < |regions| ensures regions[k].base != regions[idx].base {
        assert GoodRegion(regions, k);
        assert !Overlaps(regions[idx].base, regions[idx].size, regions[k].base, regions[k].size);
      }
    }
  }

  /** In a built map the chain always descends to a device, whatever the path so far, and a
      window that fits where the walk stands fits in the device. */
  lemma {:induction false} BuiltWalk<D>(regions: seq<Region<D>>, idx: nat, path: seq<u64>, accum: u64, size: u64)
    requires Built(regions) && idx < |regions| && PathAbove(regions, path, idx)
    requires path == [] || regions[idx].base < U64_MAX
    requires SatAdd(accum, size) <= regions[idx].size
    ensures var w := Walk(regions, idx, path, accum);
            w.Reached? && w.device < |regions| && SatAdd(w.offset, size) <= regions[w.device].size
    decreases idx
  {
    var r := regions[idx];
    assert GoodRegion(regions, idx);
    if r.backing.Alias? {
      var j: nat :| PointsBack(regions, idx, j);
      NotOnPath(regions, idx, path);
      assert PathAbove(regions, path + [r.base], j);
      BuiltWalk(regions, j, path + [r.base], SatAdd(accum, r.backing.targetOffset), size);
    }
  }

  /** Every map made by `map`, `alias` and `merge` alone builds without error. */
  lemma BuilderMapsBuild<D>(regions: seq<Region<D>>)
    requires Built(regions)
    ensures Flatten(regions).Ok?
  {
    BuiltPrefix(regions, |regions|);
  }

  lemma {:induction false} BuiltPrefix<D>(regions: seq<Region<D>>, n: nat)
    requires Built(regions) && n <= |regions|
    ensures FlattenPrefix(regions, n).Ok?
  {
    if n > 0 {
      BuiltPrefix(regions, n - 1);
      var i := n - 1;
      assert GoodRegion(regions, i);
      BuiltWalk(regions, i, [], 0, regions[i].size);
    }
  }
}
