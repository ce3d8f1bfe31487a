/** Sequences of probe samples: selection by probe, and the stable sort by time and probe that
    every published batch goes through. */
module Samples {
  import opened Prelude
  import opened SpillFile

  /** The samples of one probe, in order. */
  function OfProbe(s: seq<Record>, id: u64): seq<Record> {
    if s == [] then []
    else OfProbe(s[..|s| - 1], id) + (if s[|s| - 1].probeId == id then [s[|s| - 1]] else [])
  }

  lemma {:induction false} OfProbeConcat(a: seq<Record>, b: seq<Record>, id: u64)
    ensures OfProbe(a + b, id) == OfProbe(a, id) + OfProbe(b, id)
    decreases |b|
  {
    if b == [] {
      assert a + b == a;
    } else {
      OfProbeConcat(a, b[..|b| - 1], id);
      assert (a + b)[..|a + b| - 1] == a + b[..|b| - 1];
    }
  }

  lemma OfProbeOne(r: Record, id: u64)
    ensures OfProbe([r], id) == if r.probeId == id then [r] else []
  {
    assert [r][..0] == [];
  }

  lemma {:induction false} OfProbeAll(s: seq<Record>, id: u64)
    requires forall r | r in s :: r.probeId == id
    ensures OfProbe(s, id) == s
  {
    if s != [] {
      assert s == s[..|s| - 1] + [s[|s| - 1]];
      OfProbeAll(s[..|s| - 1], id);
    }
  }

  lemma {:induction false} OfProbeNone(s: seq<Record>, id: u64)
    requires forall r | r in s :: r.probeId != id
    ensures OfProbe(s, id) == []
  {
    if s != [] {
      assert s == s[..|s| - 1] + [s[|s| - 1]];
      OfProbeNone(s[..|s| - 1], id);
    }
  }

  // ---- the stable sort ----

  predicate KeyLe(a: Record, b: Record) {
    a.time < b.time || (a.time == b.time && a.probeId <= b.probeId)
  }

  predicate SameKey(a: Record, b: Record) {
    a.time == b.time && a.probeId == b.probeId
  }

  function InsertStable(s: seq<Record>, x: Record): seq<Record> {
    if s == [] || !KeyLe(s[0], x) then [x] + s else [s[0]] + InsertStable(s[1..], x)
  }

  /** `sort_by_key` on time and probe. */
  function SortByKey(s: seq<Record>): seq<Record> {
    if s == [] then [] else InsertStable(SortByKey(s[..|s| - 1]), s[|s| - 1])
  }

  ghost predicate Sorted(s: seq<Record>) {
    s == [] || ((forall r | r in s[1..] :: KeyLe(s[0], r)) && Sorted(s[1..]))
  }

  /** The records with the key of `k`, in order. */
  ghost function Fiber(s: seq<Record>, k: Record): seq<Record> {
    if s == [] then [] else (if SameKey(s[0], k) then [s[0]] else []) + Fiber(s[1..], k)
  }

  lemma {:induction false} FiberConcat(a: seq<Record>, b: seq<Record>, k: Record)
    ensures Fiber(a + b, k) == Fiber(a, k) + Fiber(b, k)
  {
    if a == [] {
      assert a + b == b;
    } else {
      FiberConcat(a[1..], b, k);
      assert (a + b)[1..] == a[1..] + b;
    }
  }

  lemma {:induction false} FiberMembers(s: seq<Record>, k: Record)
    ensures forall r :: r in Fiber(s, k) <==> r in s && SameKey(r, k)
  {
    if s != [] {
      FiberMembers(s[1..], k);
      assert s == [s[0]] + s[1..];
    }
  }

  lemma {:induction false} FiberEmpty(s: seq<Record>, k: Record)
    requires forall r | r in s :: !SameKey(r, k)
    ensures Fiber(s, k) == []
  {
    if s != [] {
      assert s == [s[0]] + s[1..];
      FiberEmpty(s[1..], k);
    }
  }

  lemma {:induction false} InsertStableKeeps(s: seq<Record>, x: Record)
    requires Sorted(s)
    ensures Sorted(InsertStable(s, x)) && multiset(InsertStable(s, x)) == multiset(s) + multiset{x}
  {
    if s == [] {
    } else if !KeyLe(s[0], x) {
      assert ([x] + s)[1..] == s;
      assert s == [s[0]] + s[1..];
    } else {
      InsertStableKeeps(s[1..], x);
      var t := InsertStable(s[1..], x);
      assert ([s[0]] + t)[1..] == t;
      assert s == [s[0]] + s[1..];
      forall r | r in t ensures KeyLe(s[0], r) {
        assert r in multiset(t);
      }
    }
  }

  lemma {:induction false} InsertStableFiber(s: seq<Record>, x: Record, k: Record)
    requires Sorted(s)
    ensures Fiber(InsertStable(s, x), k) == Fiber(s, k) + Fiber([x], k)
  {
    if s == [] {
      assert [x][1..] == [];
    } else if !KeyLe(s[0], x) {
      FiberConcat([x], s, k);
      assert [x][1..] == [];
      if SameKey(x, k) {
        assert s == [s[0]] + s[1..];
        FiberEmpty(s, k);
      }
    } else {
      InsertStableFiber(s[1..], x, k);
      assert ([s[0]] + InsertStable(s[1..], x))[1..] == InsertStable(s[1..], x);
    }
  }

  lemma FiberConcat3(a: seq<Record>, b: seq<Record>, c: seq<Record>, k: Record)
    ensures Fiber(a + b + c, k) == Fiber(a, k) + Fiber(b, k) + Fiber(c, k)
  {
    FiberConcat(a + b, c, k);
    FiberConcat(a, b, k);
  }

  /** The sort sorts, keeps every record, and keeps the order of records with equal keys. */
  lemma {:induction false} SortIsStable(s: seq<Record>, k: Record)
    ensures Sorted(SortByKey(s)) && multiset(SortByKey(s)) == multiset(s)
    ensures Fiber(SortByKey(s), k) == Fiber(s, k)
  {
    if s != [] {
      var front, last := s[..|s| - 1], s[|s| - 1];
      assert s == front + [last];
      SortIsStable(front, k);
      InsertStableKeeps(SortByKey(front), last);
      InsertStableFiber(SortByKey(front), last, k);
      FiberConcat(front, [last], k);
    }
  }

  lemma FirstOfFiber(a: seq<Record>, b: seq<Record>)
    requires Sorted(a) && Sorted(b) && a != []
    requires forall k :: Fiber(a, k) == Fiber(b, k)
    ensures b != [] && KeyLe(b[0], a[0])
  {
    assert Fiber(a, a[0]) == Fiber(b, a[0]);
    assert a[0] in Fiber(a, a[0]);
    FiberMembers(b, a[0]);
    assert b == [b[0]] + b[1..];
  }

  /** A sorted sequence is determined by the order inside each key. */
  lemma {:induction false} SortedIsDetermined(a: seq<Record>, b: seq<Record>)
    requires Sorted(a) && Sorted(b)
    requires forall k :: Fiber(a, k) == Fiber(b, k)
    ensures a == b
  {
    if a == [] {
      if b != [] {
        FirstOfFiber(b, a);
      }
    } else {
      FirstOfFiber(a, b);
      FirstOfFiber(b, a);
      assert Fiber(a, a[0]) == Fiber(b, a[0]);
      assert a[0] == Fiber(a, a[0])[0] == Fiber(b, a[0])[0] == b[0];
      forall k ensures Fiber(a[1..], k) == Fiber(b[1..], k) {
        assert Fiber(a, k) == Fiber(b, k);
        var head := if SameKey(a[0], k) then [a[0]] else [];
        assert Fiber(a[1..], k) == (head + Fiber(a[1..], k))[|head|..];
        assert Fiber(b[1..], k) == (head + Fiber(b[1..], k))[|head|..];
      }
      SortedIsDetermined(a[1..], b[1..]);
      assert a == [a[0]] + a[1..] && b == [b[0]] + b[1..];
    }
  }

  lemma SortIsDetermined(a: seq<Record>, b: seq<Record>)
    requires forall k :: Fiber(a, k) == Fiber(b, k)
    ensures SortByKey(a) == SortByKey(b)
  {
    forall k ensures Fiber(SortByKey(a), k) == Fiber(SortByKey(b), k) {
      SortIsStable(a, k);
      SortIsStable(b, k);
    }
    var any := Record(0, 0, Uart, 0);
    SortIsStable(a, any);
    SortIsStable(b, any);
    SortedIsDetermined(SortByKey(a), SortByKey(b));
  }
}
