/** Shared vocabulary: options, 64-bit unsigned numbers and their saturating arithmetic,
    and the least value of a finite map. */
module Prelude {

  datatype Option<+T> = None | Some(value: T) {
    function GetOr(default: T): T {
      match this
      case Some(v) => v
      case None => default
    }
  }

  datatype Result<+T, +E> = Ok(value: T) | Err(error: E)

  const U64_MAX: int := 0xFFFF_FFFF_FFFF_FFFF

  /** The `u64` of the program. All of its clock arithmetic saturates. */
  type u64 = x: int | 0 <= x <= U64_MAX

  function SatAdd(a: u64, b: u64): u64 {
    if a + b > U64_MAX then U64_MAX else a + b
  }

  function SatSub(a: u64, b: u64): u64 {
    if a < b then 0 else a - b
  }

  function Min(a: int, b: int): int {
    if a <= b then a else b
  }

  function Max(a: int, b: int): int {
    if a >= b then a else b
  }

  ghost predicate IsLeastOf<K>(m: map<K, u64>, keys: set<K>, k: K)
    requires keys <= m.Keys
  {
    k in keys && forall j | j in keys :: m[k] <= m[j]
  }

  lemma {:induction false} LeastKey<K>(m: map<K, u64>, keys: set<K>) returns (k: K)
    requires keys <= m.Keys && keys != {}
    ensures IsLeastOf(m, keys, k)
    decreases keys
  {
    var first :| first in keys;
    k := first;
    var rest := keys - {first};
    assert forall j | j in keys :: j == first || j in rest;
    if rest != {} {
      var r := LeastKey(m, rest);
      if m[r] < m[k] {
        k := r;
      }
    }
  }

  lemma HasLeast<K>(m: map<K, u64>)
    requires m.Keys != {}
    ensures exists k :: IsLeastOf(m, m.Keys, k)
  {
    var k := LeastKey(m, m.Keys);
  }

  /** The least value of a map, `0` for the empty map. */
  ghost function MinOf<K(!new)>(m: map<K, u64>): (v: u64)
    ensures forall k | k in m :: v <= m[k]
    ensures m.Keys != {} ==> exists k :: k in m && m[k] == v
    ensures m.Keys == {} ==> v == 0
  {
    if m.Keys == {} then 0
    else
      HasLeast(m);
      var k :| IsLeastOf(m, m.Keys, k);
      m[k]
  }
}
