/** What alias windows and merged maps mean to a guest (sim-kernel/src/bus.rs): a window shows
    the addresses it was aimed at, and merging is union. Both hold below the top address. */
module AliasWindows {
  import opened Prelude
  import opened MemoryMap
  import opened AliasFlattening

  /** No region reaches past the last address but one, so no end saturates. */
  ghost predicate NoWrap<D>(regions: seq<Region<D>>) {
    forall i | 0 <= i < |regions| :: regions[i].base + regions[i].size <= U64_MAX
  }

  /** In a map without overlaps, whatever region contains an address is the one found. */
  lemma HitIsFound<D>(regions: seq<Region<D>>, i: nat, addr: u64)
    requires Built(regions) && i < |regions| && Hits(regions[i], addr)
    ensures FindRegion(regions, addr) == Some(i)
  {
    RegionFound(regions, addr);
    forall k | 0 <= k < i ensures !Hits(regions[k], addr) {
      assert !Overlaps(regions[k].base, regions[k].size, regions[i].base, regions[i].size);
    }
  }

  /** The walk depends on the path only through the offset gained. */
  lemma {:induction false} WalkShift<D>(regions: seq<Region<D>>, idx: nat, p: seq<u64>, q: seq<u64>, a: u64, b: u64)
    requires Built(regions) && idx < |regions| && PathAbove(regions, p, idx) && PathAbove(regions, q, idx)
    requires p == q == [] || regions[idx].base < U64_MAX
    ensures var v, w := Walk(regions, idx, p, SatAdd(a, b)), Walk(regions, idx, q, b);
            v.Reached? && w.Reached? && v.device == w.device && v.offset == SatAdd(a, w.offset)
    decreases idx
  {
    var r := regions[idx];
    assert GoodRegion(regions, idx);
    if r.backing.Alias? {
      var j: nat :| PointsBack(regions, idx, j);
      NotOnPath(regions, idx, p);
      NotOnPath(regions, idx, q);
      assert PathAbove(regions, p + [r.base], j) && PathAbove(regions, q + [r.base], j);
      assert SatAdd(SatAdd(a, b), r.backing.targetOffset) == SatAdd(a, SatAdd(b, r.backing.targetOffset));
      WalkShift(regions, j, p + [r.base], q + [r.base], a, SatAdd(b, r.backing.targetOffset));
    }
  }

  /** An alias gains its own offset on the chain of its target. */
  lemma AliasResolution<D>(regions: seq<Region<D>>, i: nat, j: nat)
    requires Built(regions) && i < |regions| && regions[i].backing.Alias? && PointsBack(regions, i, j)
    ensures var v, w := Resolution(regions, i), Resolution(regions, j);
            v.Reached? && w.Reached? && v.device == w.device &&
            v.offset == SatAdd(regions[i].backing.targetOffset, w.offset)
  {
    var base := regions[i].base;
    assert GoodRegion(regions, i);
    assert [] + [base] == [base];
    assert PathAbove(regions, [base], j);
    WalkShift(regions, j, [base], [], regions[i].backing.targetOffset, 0);
  }

  /** Where an access inside window `i` goes, unless it starts at the very last address. */
  lemma InWindow<D>(regions: seq<Region<D>>, i: nat, at: u64, len: u64)
    requires Built(regions) && i < |regions| && regions[i].base + at < U64_MAX
    requires at < regions[i].size && SatAdd(at, len) <= regions[i].size
    ensures var w := Resolution(regions, i);
            w.Reached? && ChainResolve(regions, regions[i].base + at, len) == Ok(Spot(w.device, SatAdd(w.offset, at)))
  {
    HitIsFound(regions, i, regions[i].base + at);
    BuiltWalk(regions, i, [], 0, regions[i].size);
  }

  /** No region contains the last address. */
  lemma LastAddressUnmapped<D>(regions: seq<Region<D>>, len: u64)
    ensures ChainResolve(regions, U64_MAX, len) == Err(Unmapped(U64_MAX, len))
  {
    RegionFound(regions, U64_MAX);
  }

  lemma SatAddShifts(a: u64, b: u64, c: u64)
    requires a + c <= U64_MAX
    ensures SatAdd(SatAdd(a, b), c) == SatAdd(b, a + c)
  {
  }

  /** Below the last address an access inside an alias window goes to the very place that the same
      access at the target address goes to. */
  lemma WindowMeansTarget<D>(regions: seq<Region<D>>, i: nat, at: u64, len: u64)
    requires Built(regions) && i < |regions| && regions[i].backing.Alias?
    requires at < regions[i].size && at + len <= regions[i].size
    requires regions[i].base + at < U64_MAX && TargetOf(regions[i]) + at < U64_MAX
    ensures ChainResolve(regions, regions[i].base + at, len) == ChainResolve(regions, TargetOf(regions[i]) + at, len)
    ensures ChainResolve(regions, TargetOf(regions[i]) + at, len).Ok?
  {
    assert GoodRegion(regions, i);
    var j: nat :| PointsBack(regions, i, j);
    var offset := regions[i].backing.targetOffset;
    InWindow(regions, i, at, len);
    InWindow(regions, j, offset + at, len);
    AliasResolution(regions, i, j);
    SatAddShifts(offset, Resolution(regions, j).offset, at);
  }

  /** The address an alias was aimed at. */
  function TargetOf<D>(r: Region<D>): int
    requires r.backing.Alias?
  {
    r.backing.targetBase + r.backing.targetOffset
  }

  /** The target address of a window is mapped, below the last address. */
  lemma TargetMapped<D>(regions: seq<Region<D>>, i: nat, at: u64, len: u64)
    requires Built(regions) && i < |regions| && regions[i].backing.Alias?
    requires at < regions[i].size && at + len <= regions[i].size && TargetOf(regions[i]) + at < U64_MAX
    ensures ChainResolve(regions, TargetOf(regions[i]) + at, len).Ok?
  {
    assert GoodRegion(regions, i);
    var j: nat :| PointsBack(regions, i, j);
    InWindow(regions, j, regions[i].backing.targetOffset + at, len);
  }

  lemma ChainAgreesIff<D>(regions: seq<Region<D>>, i: nat, at: u64, len: u64, window: u64, target: u64)
    requires Built(regions) && i < |regions| && regions[i].backing.Alias?
    requires at < regions[i].size && at + len <= regions[i].size
    requires window == regions[i].base + at && target == TargetOf(regions[i]) + at
    ensures ChainResolve(regions, window, len) == ChainResolve(regions, target, len) <==>
            (window < U64_MAX && target < U64_MAX) || window == target
  {
    if window < U64_MAX && target < U64_MAX {
      WindowMeansTarget(regions, i, at, len);
    } else {
      LastAddressUnmapped(regions, len);
      if target < U64_MAX {
        TargetMapped(regions, i, at, len);
      } else if window < U64_MAX {
        InWindow(regions, i, at, len);
      }
    }
  }

  /** Exactly when an access through the window shows what the same access at the target address
      shows: when neither starts at the last address, or they are one address. */
  lemma WindowAgreesIff<D>(regions: seq<Region<D>>, i: nat, at: u64, len: u64)
    requires Built(regions) && i < |regions| && regions[i].backing.Alias?
    requires at < regions[i].size && at + len <= regions[i].size
    requires regions[i].base + at <= U64_MAX && TargetOf(regions[i]) + at <= U64_MAX
    ensures Flatten(regions).Ok?
    ensures var window, target := regions[i].base + at, TargetOf(regions[i]) + at;
            Resolve(Flatten(regions).value, window, len) == Resolve(Flatten(regions).value, target, len) <==>
            (window < U64_MAX && target < U64_MAX) || window == target
  {
    BuilderMapsBuild(regions);
    ChainAgreesIff(regions, i, at, len, regions[i].base + at, TargetOf(regions[i]) + at);
    FlatteningPreservesMeaning(regions, regions[i].base + at, len);
    FlatteningPreservesMeaning(regions, TargetOf(regions[i]) + at, len);
  }

  /** In a map below the last address every access through a window shows its target. */
  lemma WindowShowsTarget<D>(regions: seq<Region<D>>, i: nat, at: u64, len: u64)
    requires Built(regions) && NoWrap(regions) && i < |regions| && regions[i].backing.Alias?
    requires at < regions[i].size && at + len <= regions[i].size
    ensures Flatten(regions).Ok?
    ensures var target := TargetOf(regions[i]) + at;
            regions[i].base + at <= U64_MAX && target <= U64_MAX &&
            Resolve(Flatten(regions).value, regions[i].base + at, len) ==
                Resolve(Flatten(regions).value, target, len) &&
            Resolve(Flatten(regions).value, target, len).Ok?
  {
    assert GoodRegion(regions, i);
    var j: nat :| PointsBack(regions, i, j);
    assert regions[j].base + regions[j].size <= U64_MAX;
    WindowAgreesIff(regions, i, at, len);
    TargetMapped(regions, i, at, len);
    FlatteningPreservesMeaning(regions, TargetOf(regions[i]) + at, len);
  }

  /** The bytes of an access that fits its device are consecutive there. */
  lemma ChainIsConsecutive<D>(regions: seq<Region<D>>, addr: u64, len: u64, k: u64)
    requires Built(regions) && NoWrap(regions) && ChainResolve(regions, addr, len).Ok? && k < len
    requires ChainResolve(regions, addr, len).value.offset + len < U64_MAX
    ensures var spot := ChainResolve(regions, addr, len).value;
            addr + k <= U64_MAX && ChainResolve(regions, addr + k, 1) == Ok(Spot(spot.index, spot.offset + k))
  {
    var i := FindRegion(regions, addr).value;
    InWindow(regions, i, addr - regions[i].base + k, 1);
  }

  // ---- merging ----

  /** The first region of `others`, from `k` on, that overlaps the map. */
  function FirstClash<D>(regions: seq<Region<D>>, others: seq<Region<D>>, k: nat): (clash: Option<nat>)
    requires k <= |others|
    ensures clash.Some? ==> k <= clash.value < |others|
    ensures clash.None? <==> forall i | k <= i < |others| :: !Collides(regions, others[i].base, others[i].size)
    decreases |others| - k
  {
    if k == |others| then None
    else if Collides(regions, others[k].base, others[k].size) then Some(k)
    else FirstClash(regions, others, k + 1)
  }

  lemma AdoptNext<D>(regions: seq<Region<D>>, others: seq<Region<D>>, k: nat)
    requires Built(others) && NoWrap(others) && k < |others|
    requires forall i | 0 <= i < k :: !Collides(regions, others[i].base, others[i].size)
    ensures Adopt(regions + others[..k], others[k]) ==
            if Collides(regions, others[k].base, others[k].size) then Err(Overlap(others[k].base, others[k].size))
            else Ok(regions + others[..k + 1])
  {
    var now := regions + others[..k];
    var r := others[k];
    assert GoodRegion(others, k);
    assert Collides(now, r.base, r.size) == Collides(regions, r.base, r.size) by {
      forall i | 0 <= i < |regions| ensures now[i] == regions[i] {}
      forall i | |regions| <= i < |now| ensures !Overlaps(now[i].base, now[i].size, r.base, r.size) {
        assert now[i] == others[i - |regions|];
      }
    }
    assert now + [r] == regions + others[..k + 1];
    if r.backing.Alias? {
      var j: nat :| PointsBack(others, k, j);
      var t := SatAdd(r.backing.targetBase, r.backing.targetOffset);
      assert now[|regions| + j] == others[j];
      assert others[j].base + others[j].size <= U64_MAX;
      assert Hits(now[|regions| + j], t);
      forall i | 0 <= i < |regions| + j ensures !Hits(now[i], t) {
        if i < |regions| {
          assert now[i] == regions[i];
          assert !Overlaps(regions[i].base, regions[i].size, others[j].base, others[j].size);
        } else {
          assert now[i] == others[i - |regions|];
          assert !Overlaps(others[i - |regions|].base, others[i - |regions|].size, others[j].base, others[j].size);
        }
      }
      RegionFound(now, t);
      assert FindRegion(now, t) == Some(|regions| + j);
    }
  }

  lemma {:induction false} MergeFrom<D>(regions: seq<Region<D>>, others: seq<Region<D>>, k: nat)
    requires Built(others) && NoWrap(others) && k <= |others|
    requires forall i | 0 <= i < k :: !Collides(regions, others[i].base, others[i].size)
    ensures Merge(regions + others[..k], others[k..]) ==
            match FirstClash(regions, others, k)
            case None => Ok(regions + others)
            case Some(c) => Err(Overlap(others[c].base, others[c].size))
    decreases |others| - k
  {
    if k == |others| {
      assert others[..k] == others;
    } else {
      AdoptNext(regions, others, k);
      assert others[k..][1..] == others[k + 1..];
      if !Collides(regions, others[k].base, others[k].size) {
        MergeFrom(regions, others, k + 1);
      }
    }
  }

  /** Merging a builder-made map is union: it succeeds exactly when nothing overlaps, and then
      every region, aliases with their targets included, is taken over unchanged. */
  lemma MergeIsUnion<D>(regions: seq<Region<D>>, others: seq<Region<D>>)
    requires Built(others) && NoWrap(others)
    ensures Merge(regions, others) ==
            match FirstClash(regions, others, 0)
            case None => Ok(regions + others)
            case Some(c) => Err(Overlap(others[c].base, others[c].size))
  {
    assert regions + others[..0] == regions && others[0..] == others;
    MergeFrom(regions, others, 0);
  }

  // ---- the top address ----

  /** Ends saturate, so the last address belongs to no region: two devices may both claim it,
      and neither can be reached there. */
  lemma TopAddressIsLost<D>(d: D, e: D)
    ensures var one := MapDevice([], U64_MAX, 1, d);
            one.Ok? && MapDevice(one.value, U64_MAX, 1, e).Ok? &&
            Resolve(MapDevice(one.value, U64_MAX, 1, e).value, U64_MAX, 1) == Err(Unmapped(U64_MAX, 1))
  {
    var two := [Region(U64_MAX, 1, Device(d)), Region(U64_MAX, 1, Device(e))];
    var one := [Region(U64_MAX, 1, Device(d))];
    assert [] + one == one;
    assert MapDevice([], U64_MAX, 1, d) == Ok(one);
    assert one + [Region(U64_MAX, 1, Device(e))] == two;
    assert MapDevice(one, U64_MAX, 1, e) == Ok(two);
    assert FindRegion(two, U64_MAX) == None;
  }

  /** The condition of `WindowAgreesIff` can fail: the last byte of a window aimed at the end of
      the address space is mapped, but its target address is not. */
  lemma WindowAtTheTopFails<D>(d: D)
    ensures var map1 := MapDevice([], U64_MAX - 1, 2, d);
            var map2 := MapAlias(map1.value, 0x1000, U64_MAX - 1, 2);
            map1.Ok? && map2.Ok? && Flatten(map2.value) == Ok(map2.value) &&
            Resolve(map2.value, 0x1001, 1) == Ok(Spot(0, 1)) &&
            Resolve(map2.value, U64_MAX, 1) == Err(Unmapped(U64_MAX, 1))
  {
    var device := Region(U64_MAX - 1, 2, Device(d));
    var window: Region<D> := Region(0x1000, 2, Alias(U64_MAX - 1, 0));
    var map1 := [device];
    var map2 := [device, window];
    assert [] + map1 == map1;
    assert MapDevice([], U64_MAX - 1, 2, d) == Ok(map1);
    assert FindRegion(map1, U64_MAX - 1) == Some(0);
    assert map1 + [window] == map2;
    assert MapAlias(map1, 0x1000, U64_MAX - 1, 2) == Ok(map2);
    assert FindBase(map2, U64_MAX - 1) == Some(0);
    assert FindRegion(map2, 0x1001) == Some(1);
    assert Walk(map2, 0, [0x1000], 0) == Reached(0, 0);
    assert [] + [0x1000 as u64] == [0x1000];
    assert Resolution(map2, 1) == Reached(0, 0);
    assert FlattenPrefix(map2, 0) == Ok([]);
    assert FlattenPrefix(map2, 1) == Ok([device]);
    assert FlattenPrefix(map2, 2) == Ok([device] + [window]);
  }
}
