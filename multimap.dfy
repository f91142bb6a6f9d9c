/** Multi-valued string maps: the `url.Values` of a query string and the
    `http.Header` of a request, with their `Get`, `Add` and `Del`. Header key
    canonicalisation is not modelled: keys are taken as already canonical. */
module Multimap {

  type Multimap = map<string, seq<string>>

  /** Every value stored under `key`, in insertion order. */
  function ValuesOf(m: Multimap, key: string): seq<string>
  {
    if key in m then m[key] else []
  }

  /** The first value stored under `key`, or "" when there is none. */
  function Get(m: Multimap, key: string): string
  {
    if key in m && |m[key]| > 0 then m[key][0] else ""
  }

  /** Appends `v` to the values of `key`. */
  function Add(m: Multimap, key: string, v: string): (r: Multimap)
    ensures r.Keys == m.Keys + {key}
    ensures r[key] == ValuesOf(m, key) + [v]
    ensures forall k :: k in m && k != key ==> r[k] == m[k]
  {
    m[key := ValuesOf(m, key) + [v]]
  }

  /** Removes `key` and all its values. */
  function Del(m: Multimap, key: string): (r: Multimap)
    ensures r.Keys == m.Keys - {key}
    ensures forall k :: k in r ==> r[k] == m[k]
  {
    m - {key}
  }

  /** The map that `for m.Get(key) != "" { m.Del(key) }` leaves: the key is
      removed only when its first value is non-empty. */
  function Cleared(m: Multimap, key: string): Multimap
  {
    if Get(m, key) != "" then Del(m, key) else m
  }

  /** The map left by clearing each of `keys` in turn. */
  function ClearedAll(m: Multimap, keys: seq<string>): Multimap
    decreases |keys|
  {
    if |keys| == 0 then m else Cleared(ClearedAll(m, keys[..|keys| - 1]), keys[|keys| - 1])
  }

  /** The loop `for m.Get(key) != "" { m.Del(key) }`. */
  method DeleteWhileSet(m: Multimap, key: string) returns (r: Multimap)
    ensures r == Cleared(m, key)
  {
    r := m;
    while Get(r, key) != ""
      invariant r == m || (Get(m, key) != "" && r == Del(m, key))
      decreases if key in r then 1 else 0
    {
      r := Del(r, key);
    }
  }

  /** Clearing `key` and then adding `v` under it: every other key keeps its
      values; `v` becomes the last value of `key`; it is the only one unless the
      old first value was "" while other values were stored, which then survive. */
  lemma ReplaceEffect(m: Multimap, key: string, v: string)
    ensures forall k :: k != key ==> (k in Add(Cleared(m, key), key, v) <==> k in m)
    ensures forall k :: k != key && k in m ==> Add(Cleared(m, key), key, v)[k] == m[k]
    ensures key in Add(Cleared(m, key), key, v)
    ensures Get(m, key) != "" || ValuesOf(m, key) == [] ==> Add(Cleared(m, key), key, v)[key] == [v]
    ensures Get(m, key) == "" ==> Add(Cleared(m, key), key, v)[key] == ValuesOf(m, key) + [v]
  {
  }
}
