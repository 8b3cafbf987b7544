/** Small shared vocabulary: an optional value, map lookup, and the two
    JavaScript idioms the storefront leans on everywhere — `x || 0` on a
    number that may be missing, and `Math.max(0, x)`. */
module Common {

  datatype Option<+T> = None | Some(value: T)

  /** `m.get(k)` / `m[k]`: the stored value, or nothing when the key is absent. */
  function Get<K, V>(m: map<K, V>, k: K): (r: Option<V>)
    ensures r.Some? <==> k in m
    ensures r.Some? ==> r.value == m[k]
  {
    if k in m then Some(m[k]) else None
  }

  /** JavaScript `v || 0` on a number: `undefined` and `0` are falsy and give 0,
      every other number is returned as it is (negative ones included). */
  function OrZero(v: Option<int>): int
  {
    match v
    case None => 0
    case Some(x) => if x == 0 then 0 else x
  }

  /** `Math.max(0, x)`. */
  function Max0(x: int): (r: int)
    ensures r >= 0 && r >= x
    ensures x >= 0 ==> r == x
    ensures x < 0 ==> r == 0
  {
    if x < 0 then 0 else x
  }
}
