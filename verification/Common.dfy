/** Types shared by every component of the model. */
module Common {

  datatype Option<+T> = None | Some(value: T)

  function Max(a: int, b: int): int {
    if a < b then b else a
  }

  function Min(a: int, b: int): int {
    if a < b then a else b
  }

  // Go's int64: the value a 64-bit two's complement result actually holds.
  const TWO63: int := 0x8000_0000_0000_0000
  const TWO64: int := 0x1_0000_0000_0000_0000

  predicate IsInt64(x: int) {
    -TWO63 <= x < TWO63
  }

  function Wrap64(x: int): (r: int)
    ensures IsInt64(r)
    ensures IsInt64(x) ==> r == x
    ensures (r - x) % TWO64 == 0
  {
    var r := (x + TWO63) % TWO64 - TWO63;
    assert r - x == -TWO64 * ((x + TWO63) / TWO64);
    r
  }

  // The difference of two int64 values, as the machine computes it.
  function Sub64(a: int, b: int): int {
    if a - b < -TWO63 then a - b + TWO64 else if a - b >= TWO63 then a - b - TWO64 else a - b
  }

  // The longest time.Duration, in nanoseconds.
  const MAX_DURATION: int := TWO63 - 1

  // time.Time.Sub saturates.
  function Sub(a: int, b: int): (d: int)
    ensures IsInt64(d) && (IsInt64(a - b) ==> d == a - b)
    ensures (a >= b ==> d >= 0) && (a > b ==> d > 0)
  {
    Max(-TWO63, Min(MAX_DURATION, a - b))
  }

  lemma LastApart<T>(s: seq<T>)
    requires s != []
    ensures s[..|s| - 1] + [s[|s| - 1]] == s
  {
  }

  lemma UpdatedTwice<K, V>(m: map<K, V>, k: K, first: V, second: V)
    ensures m[k := first][k := second] == m[k := second]
  {
  }

  lemma SubsetSize<T>(a: set<T>, b: set<T>)
    requires a <= b
    ensures |a| <= |b|
  {
    assert b == a + (b - a);
  }
}
