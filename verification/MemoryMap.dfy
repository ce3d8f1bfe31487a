/** The guest memory map (sim-kernel/src/bus.rs): overlap-checked construction, alias chains,
    and their flattening to single hops. `D` is whatever backs a device region. */
module MemoryMap {
  import opened Prelude

  datatype Backing<+D> = Device(device: D) | Alias(targetBase: u64, targetOffset: u64)

  datatype Region<+D> = Region(base: u64, size: u64, backing: Backing<D>)

  datatype MapError =
    | EmptyDevice
    | Overlap(base: u64, size: u64)
    | AliasTargetMissing(target: u64)
    | AliasOutOfRange(target: u64, size: u64, regionBase: u64, regionSize: u64)
    | AliasCycle(path: seq<u64>)

  datatype BusError =
    | Unmapped(addr: u64, len: nat)
    | OutOfRange(addr: u64, offset: u64, len: nat)
    | ReadOnly(addr: u64)
    | NotLoadable(addr: u64)

  /** A place in a device: the index of its region and an offset into it. */
  datatype Spot = Spot(index: nat, offset: u64)

  // ---- lookup ----

  predicate Hits<D>(r: Region<D>, addr: u64) {
    r.base <= addr < SatAdd(r.base, r.size)
  }

  /** Index of the first region that contains `addr`. */
  function FindRegion<D>(regions: seq<Region<D>>, addr: u64): (found: Option<nat>)
    ensures found.Some? ==> found.value < |regions| && Hits(regions[found.value], addr)
  {
    if regions == [] then None
    else if Hits(regions[0], addr) then Some(0)
    else
      match FindRegion(regions[1..], addr)
      case Some(i) => Some(i + 1)
      case None => None
  }

  /** Index of the first region that starts at `base`. */
  function FindBase<D>(regions: seq<Region<D>>, base: u64): (found: Option<nat>)
    ensures found.Some? ==> found.value < |regions| && regions[found.value].base == base
  {
    if regions == [] then None
    else if regions[0].base == base then Some(0)
    else
      match FindBase(regions[1..], base)
      case Some(i) => Some(i + 1)
      case None => None
  }

  lemma {:induction false} RegionFound<D>(regions: seq<Region<D>>, addr: u64)
    ensures match FindRegion(regions, addr)
            case Some(i) => Hits(regions[i], addr) && forall j | 0 <= j < i :: !Hits(regions[j], addr)
            case None => forall j | 0 <= j < |regions| :: !Hits(regions[j], addr)
  {
    if regions != [] && !Hits(regions[0], addr) {
      RegionFound(regions[1..], addr);
    }
  }

  lemma {:induction false} BaseFound<D>(regions: seq<Region<D>>, base: u64)
    ensures match FindBase(regions, base)
            case Some(i) => regions[i].base == base && forall j | 0 <= j < i :: regions[j].base != base
            case None => forall j | 0 <= j < |regions| :: regions[j].base != base
  {
    if regions != [] && regions[0].base != base {
      BaseFound(regions[1..], base);
    }
  }

  predicate Overlaps(aBase: u64, aSize: u64, bBase: u64, bSize: u64) {
    aBase < SatAdd(bBase, bSize) && bBase < SatAdd(aBase, aSize)
  }

  predicate Collides<D>(regions: seq<Region<D>>, base: u64, size: u64) {
    exists i | 0 <= i < |regions| :: Overlaps(regions[i].base, regions[i].size, base, size)
  }

  // ---- construction ----

  function MapDevice<D>(regions: seq<Region<D>>, base: u64, size: u64, device: D): Result<seq<Region<D>>, MapError> {
    if size == 0 then Err(EmptyDevice)
    else if Collides(regions, base, size) then Err(Overlap(base, size))
    else Ok(regions + [Region(base, size, Device(device))])
  }

  function MapAlias<D>(regions: seq<Region<D>>, aliasBase: u64, target: u64,
                       size: u64): Result<seq<Region<D>>, MapError> {
    if size == 0 then Err(EmptyDevice)
    else
      match FindRegion(regions, target)
      case None => Err(AliasTargetMissing(target))
      case Some(t) =>
        var offset := target - regions[t].base;
        if SatAdd(offset, size) > regions[t].size then
          Err(AliasOutOfRange(target, size, regions[t].base, regions[t].size))
        else if Collides(regions, aliasBase, size) then Err(Overlap(aliasBase, size))
        else Ok(regions + [Region(aliasBase, size, Alias(regions[t].base, offset))])
  }

  /** Add one region of another unfinished map. */
  function Adopt<D>(regions: seq<Region<D>>, r: Region<D>): Result<seq<Region<D>>, MapError> {
    match r.backing
    case Device(device) => MapDevice(regions, r.base, r.size, device)
    case Alias(base, offset) => MapAlias(regions, r.base, SatAdd(base, offset), r.size)
  }

  function Merge<D>(regions: seq<Region<D>>, others: seq<Region<D>>): Result<seq<Region<D>>, MapError>
    decreases |others|
  {
    if others == [] then Ok(regions)
    else
      match Adopt(regions, others[0])
      case Ok(more) => Merge(more, others[1..])
      case Err(e) => Err(e)
  }

  // ---- alias chains ----

  /** The region an alias points at. */
  function Hop<D>(regions: seq<Region<D>>, i: nat): (next: Option<nat>)
    requires i < |regions| && regions[i].backing.Alias?
    ensures next.Some? ==> next.value < |regions|
  {
    FindBase(regions, regions[i].backing.targetBase)
  }

  ghost predicate Inside<D>(regions: seq<Region<D>>, chain: seq<nat>) {
    forall k | 0 <= k < |chain| :: chain[k] < |regions|
  }

  ghost predicate AllAliases<D>(regions: seq<Region<D>>, chain: seq<nat>) {
    Inside(regions, chain) && forall k | 0 <= k < |chain| :: regions[chain[k]].backing.Alias?
  }

  ghost predicate Linked<D>(regions: seq<Region<D>>, chain: seq<nat>, k: nat)
    requires k + 1 < |chain| && Inside(regions, chain)
  {
    regions[chain[k]].backing.Alias? && Hop(regions, chain[k]) == Some(chain[k + 1])
  }

  /** `chain` follows alias links from `start`; every element but the last is an alias. */
  ghost predicate IsChain<D>(regions: seq<Region<D>>, start: nat, chain: seq<nat>) {
    chain != [] && chain[0] == start && Inside(regions, chain) &&
    forall k: nat | k < |chain| - 1 :: Linked(regions, chain, k)
  }

  /** The guest bases along a chain. */
  ghost function Bases<D>(regions: seq<Region<D>>, chain: seq<nat>): (r: seq<u64>)
    requires Inside(regions, chain)
    ensures |r| == |chain| && forall k | 0 <= k < |chain| :: r[k] == regions[chain[k]].base
  {
    if chain == [] then []
    else Bases(regions, chain[..|chain| - 1]) + [regions[chain[|chain| - 1]].base]
  }

  /** Offset gained along a chain, saturating like the program's. */
  ghost function Travel<D>(regions: seq<Region<D>>, chain: seq<nat>): u64
    requires AllAliases(regions, chain)
  {
    if chain == [] then 0
    else SatAdd(Travel(regions, chain[..|chain| - 1]), regions[chain[|chain| - 1]].backing.targetOffset)
  }

  /** The first `n` bases of the chain are distinct. */
  ghost predicate NoRepeat<D>(regions: seq<Region<D>>, chain: seq<nat>, n: nat)
    requires n <= |chain| && Inside(regions, chain)
  {
    forall i, j | 0 <= i < j < n :: regions[chain[i]].base != regions[chain[j]].base
  }

  datatype Walked = Reached(device: nat, offset: u64) | Failed(error: MapError)

  /** Regions whose base is not yet on the path: what the walk can still visit. */
  ghost function Unvisited<D>(regions: seq<Region<D>>, path: seq<u64>): set<nat> {
    set i | 0 <= i < |regions| && regions[i].base !in path
  }

  /** The walk of `resolve_alias_chain` from region `idx`. */
  function Walk<D>(regions: seq<Region<D>>, idx: nat, path: seq<u64>, accum: u64): Walked
    requires idx < |regions|
    decreases Unvisited(regions, path)
  {
    var r := regions[idx];
    match r.backing
    case Device(_) => Reached(idx, accum)
    case Alias(base, offset) =>
      if r.base in path then Failed(AliasCycle(path + [r.base]))
      else
        match FindBase(regions, base)
        case None => Failed(AliasTargetMissing(SatAdd(base, offset)))
        case Some(next) =>
          assert idx in Unvisited(regions, path) && idx !in Unvisited(regions, path + [r.base]);
          Walk(regions, next, path + [r.base], SatAdd(accum, offset))
  }

  function Resolution<D>(regions: seq<Region<D>>, start: nat): Walked
    requires start < |regions|
  {
    Walk(regions, start, [], 0)
  }

  /** The chain ends at a device, and its bases do not repeat on the way. */
  ghost predicate ReachesDevice<D>(regions: seq<Region<D>>, start: nat, chain: seq<nat>, device: nat, offset: u64) {
    IsChain(regions, start, chain) && chain[|chain| - 1] == device && regions[device].backing.Device? &&
    NoRepeat(regions, chain, |chain| - 1) &&
    AllAliases(regions, chain[..|chain| - 1]) && offset == Travel(regions, chain[..|chain| - 1])
  }

  /** The chain is all aliases, its last base repeats an earlier one, and none repeats before. */
  ghost predicate Revisits<D>(regions: seq<Region<D>>, start: nat, chain: seq<nat>) {
    IsChain(regions, start, chain) && regions[chain[|chain| - 1]].backing.Alias? &&
    NoRepeat(regions, chain, |chain| - 1) &&
    exists j :: 0 <= j < |chain| - 1 && regions[chain[j]].base == regions[chain[|chain| - 1]].base
  }

  /** The chain ends at an alias whose target base starts no region. */
  ghost predicate Dangles<D>(regions: seq<Region<D>>, start: nat, chain: seq<nat>) {
    IsChain(regions, start, chain) && regions[chain[|chain| - 1]].backing.Alias? &&
    NoRepeat(regions, chain, |chain|) && Hop(regions, chain[|chain| - 1]).None?
  }

  /** `chain` is the reason for outcome `w`. */
  ghost predicate Explains<D>(regions: seq<Region<D>>, start: nat, chain: seq<nat>, w: Walked) {
    match w
    case Reached(device, offset) => ReachesDevice(regions, start, chain, device, offset)
    case Failed(AliasCycle(path)) => Revisits(regions, start, chain) && path == Bases(regions, chain)
    case Failed(AliasTargetMissing(target)) =>
      Dangles(regions, start, chain) &&
      var last := regions[chain[|chain| - 1]].backing;
      target == SatAdd(last.targetBase, last.targetOffset)
    case Failed(_) => false
  }

  lemma ChainGrows<D>(regions: seq<Region<D>>, start: nat, chain: seq<nat>, next: nat)
    requires IsChain(regions, start, chain) && regions[chain[|chain| - 1]].backing.Alias?
    requires Hop(regions, chain[|chain| - 1]) == Some(next)
    ensures IsChain(regions, start, chain + [next])
  {
    var longer := chain + [next];
    forall k: nat | k < |longer| - 1 ensures Linked(regions, longer, k) {
      if k < |chain| - 1 {
        assert Linked(regions, chain, k);
      }
    }
  }

  lemma {:induction false} WalkExplained<D>(regions: seq<Region<D>>, start: nat, before: seq<nat>, idx: nat)
      returns (chain: seq<nat>)
    requires IsChain(regions, start, before + [idx]) && AllAliases(regions, before) && idx < |regions|
    requires NoRepeat(regions, before, |before|)
    ensures Explains(regions, start, chain, Walk(regions, idx, Bases(regions, before), Travel(regions, before)))
    decreases Unvisited(regions, Bases(regions, before))
  {
    chain := before + [idx];
    assert chain[..|before|] == before && chain[|before|] == idx;
    var path := Bases(regions, before);
    var r := regions[idx];
    assert Bases(regions, chain) == path + [r.base];
    if r.backing.Device? {
    } else if r.base in path {
      var j :| 0 <= j < |path| && path[j] == r.base;
      assert regions[chain[j]].base == r.base;
    } else {
      assert forall j | 0 <= j < |before| :: path[j] != r.base;
      var next := FindBase(regions, r.backing.targetBase);
      if next.Some? {
        assert idx in Unvisited(regions, path) && idx !in Unvisited(regions, path + [r.base]);
        ChainGrows(regions, start, chain, next.value);
        chain := WalkExplained(regions, start, chain, next.value);
      }
    }
  }

  lemma {:induction false} ChainsAgree<D>(regions: seq<Region<D>>, start: nat, a: seq<nat>, b: seq<nat>, k: nat)
    requires IsChain(regions, start, a) && IsChain(regions, start, b) && k < |a| && k < |b|
    ensures forall i | 0 <= i <= k :: a[i] == b[i]
  {
    if k > 0 {
      ChainsAgree(regions, start, a, b, k - 1);
      assert Linked(regions, a, k - 1) && Linked(regions, b, k - 1);
    }
  }

  /** A chain that explains an outcome cannot be continued without repeating a base. */
  lemma ExplanationEnds<D>(regions: seq<Region<D>>, start: nat, a: seq<nat>, v: Walked, b: seq<nat>)
    requires Explains(regions, start, a, v) && IsChain(regions, start, b) && |a| < |b|
    ensures v.Failed? && v.error.AliasCycle? && !NoRepeat(regions, b, |b| - 1)
  {
    ChainsAgree(regions, start, a, b, |a| - 1);
    assert Linked(regions, b, |a| - 1);
    var j :| 0 <= j < |a| - 1 && regions[a[j]].base == regions[a[|a| - 1]].base;
    assert regions[b[j]].base == regions[b[|a| - 1]].base;
  }

  lemma OneExplanation<D>(regions: seq<Region<D>>, start: nat, a: seq<nat>, v: Walked, b: seq<nat>, w: Walked)
    requires Explains(regions, start, a, v) && Explains(regions, start, b, w)
    ensures a == b && v == w
  {
    if |a| < |b| {
      ExplanationEnds(regions, start, a, v, b);
    } else if |b| < |a| {
      ExplanationEnds(regions, start, b, w, a);
    } else {
      ChainsAgree(regions, start, a, b, |a| - 1);
      assert a == b;
    }
  }

  /** The walk always ends, and its result is exact: a device with an offset is reached
      precisely when the chain leads there, a cycle is reported precisely when the chain comes
      back to a base, with the bases in visit order, and a missing target precisely when the
      chain dangles. */
  lemma WalkIsExact<D>(regions: seq<Region<D>>, start: nat, w: Walked)
    requires start < |regions|
    ensures w == Resolution(regions, start) <==> exists chain :: Explains(regions, start, chain, w)
  {
    assert [] + [start] == [start];
    var told := WalkExplained(regions, start, [], start);
    assert Explains(regions, start, told, Resolution(regions, start));
    forall chain | Explains(regions, start, chain, w) ensures w == Resolution(regions, start) {
      OneExplanation(regions, start, chain, w, told, Resolution(regions, start));
    }
  }

  ghost predicate DistinctBases<D>(regions: seq<Region<D>>) {
    forall i, j | 0 <= i < j < |regions| :: regions[i].base != regions[j].base
  }

  /** `chain` consists of aliases only. */
  ghost predicate AliasChain<D>(regions: seq<Region<D>>, start: nat, chain: seq<nat>) {
    IsChain(regions, start, chain) && regions[chain[|chain| - 1]].backing.Alias?
  }

  ghost predicate HasAliasChain<D>(regions: seq<Region<D>>, start: nat, n: nat) {
    exists chain :: |chain| == n && AliasChain(regions, start, chain)
  }

  lemma {:induction false} CycleGoesOn<D>(regions: seq<Region<D>>, start: nat, loop: seq<nat>, n: nat)
      returns (chain: seq<nat>, k: nat)
    requires DistinctBases(regions) && Revisits(regions, start, loop) && n > 0
    ensures |chain| == n && AliasChain(regions, start, chain)
    ensures k < |loop| - 1 && chain[n - 1] == loop[k]
  {
    var last := |loop| - 1;
    assert Linked(regions, loop, 0);
    if n == 1 {
      return [start], 0;
    }
    var shorter, k0 := CycleGoesOn(regions, start, loop, n - 1);
    assert Linked(regions, loop, k0);
    ChainGrows(regions, start, shorter, loop[k0 + 1]);
    chain := shorter + [loop[k0 + 1]];
    if k0 + 1 < last {
      k := k0 + 1;
      assert Linked(regions, loop, k);
    } else {
      k :| 0 <= k < last && regions[loop[k]].base == regions[loop[last]].base;
    }
  }

  /** With distinct bases, a cycle is reported exactly when following the chain never ends. */
  lemma CycleIffEndless<D>(regions: seq<Region<D>>, start: nat)
    requires DistinctBases(regions) && start < |regions|
    ensures (Resolution(regions, start).Failed? && Resolution(regions, start).error.AliasCycle?) <==>
            forall n: nat | n > 0 :: HasAliasChain(regions, start, n)
  {
    var w := Resolution(regions, start);
    WalkIsExact(regions, start, w);
    var told :| Explains(regions, start, told, w);
    if w.Failed? && w.error.AliasCycle? {
      forall n: nat | n > 0 ensures HasAliasChain(regions, start, n) {
        var chain, k := CycleGoesOn(regions, start, told, n);
      }
    } else if HasAliasChain(regions, start, |told| + 1) {
      var chain :| |chain| == |told| + 1 && AliasChain(regions, start, chain);
      ExplanationEnds(regions, start, told, w, chain);
      assert false;
    }
  }
}
