/** Small vocabulary shared by every part of the model. */
module Basics {

  datatype Option<+T> = None | Some(value: T)

  datatype Result<+T, +E> = Ok(value: T) | Err(error: E)

  /** Nanoseconds since the zero value of the program's time type. */
  type Time = int

  const MIN_INT64 := -0x8000_0000_0000_0000
  const MAX_INT64 := 0x7FFF_FFFF_FFFF_FFFF
  const TWO_TO_THE_64 := 0x1_0000_0000_0000_0000

  /** Every 64-bit value of the program is an integer in this range. */
  type int64 = x: int | MIN_INT64 <= x <= MAX_INT64

  predicate FitsInt64(x: int) {
    MIN_INT64 <= x <= MAX_INT64
  }

  /** Two's-complement truncation: what a 64-bit register holds after computing x. */
  function Wrap64(x: int): int64 {
    if FitsInt64(x) then x else (x - MIN_INT64) % TWO_TO_THE_64 + MIN_INT64
  }

  /** It is the one 64-bit value that differs from x by a multiple of 2 to the 64th. */
  lemma Wrap64Exact(x: int, r: int64)
    ensures r == Wrap64(x) <==> (x - r) % TWO_TO_THE_64 == 0
  {
  }

  /** The range is that of 64-bit two's complement. */
  lemma Int64Range(x: int)
    ensures FitsInt64(x) <==> -9_223_372_036_854_775_808 <= x <= 9_223_372_036_854_775_807
    ensures Wrap64(x) == x <==> FitsInt64(x)
  {
  }

  function Pow2(n: nat): (r: nat)
    ensures r >= 1
  {
    if n == 0 then 1 else 2 * Pow2(n - 1)
  }

  function Min(x: int, y: int): int {
    if x <= y then x else y
  }

  function Last<T>(s: seq<T>): T
    requires s != []
  {
    s[|s| - 1]
  }

  function Front<T>(s: seq<T>): seq<T>
    requires s != []
  {
    s[..|s| - 1]
  }

  // ----- Sums over finite maps -----

  ghost function MapSum<K>(m: map<K, int>): int {
    if m == map[] then 0
    else
      var k :| k in m;
      m[k] + MapSum(m - {k})
  }

  /** The sum does not depend on the order in which the keys are taken. */
  lemma {:induction false} MapSumTake<K>(m: map<K, int>, k: K)
    requires k in m
    ensures MapSum(m) == m[k] + MapSum(m - {k})
    decreases |m|
  {
    var first :| first in m && MapSum(m) == m[first] + MapSum(m - {first});
    if first != k {
      MapSumTake(m - {first}, k);
      MapSumTake(m - {k}, first);
      assert m - {first} - {k} == m - {k} - {first};
    }
  }

  lemma MapSumPut<K>(m: map<K, int>, k: K, v: int)
    ensures MapSum(m[k := v]) == MapSum(m) + v - if k in m then m[k] else 0
  {
    MapSumTake(m[k := v], k);
    if k in m {
      MapSumTake(m, k);
      assert m[k := v] - {k} == m - {k};
    } else {
      assert m[k := v] - {k} == m;
    }
  }

  lemma {:induction false} MapSumZero<K>(m: map<K, int>)
    requires forall k | k in m :: m[k] == 0
    ensures MapSum(m) == 0
    decreases |m|
  {
    if m != map[] {
      var k :| k in m;
      MapSumTake(m, k);
      MapSumZero(m - {k});
    }
  }
}
