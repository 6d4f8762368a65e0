/**
 * A JavaScript plain object (or `Map`) keyed by strings, as the hooks use
 * them: lookups by key, `{ ...prev, [k]: v }` updates, and `Object.keys`
 * enumeration in insertion order. Card numbers are too large to be array
 * indices, so insertion order is the enumeration order.
 */
module OrderedMaps {
  import opened JsValues

  datatype RawMap<V> = RawMap(keys: seq<string>, vals: map<string, V>)

  /** Keys are distinct and are exactly the domain of the value map. */
  ghost predicate WellFormed<V>(m: RawMap<V>) {
    && (forall i, j :: 0 <= i < j < |m.keys| ==> m.keys[i] != m.keys[j])
    && (forall k :: k in m.vals <==> k in m.keys)
  }

  type OrderedMap<V> = m: RawMap<V> | WellFormed(m) witness RawMap([], map[])

  function Empty<V>(): (m: OrderedMap<V>)
    ensures m.keys == [] && m.vals == map[]
  {
    RawMap([], map[])
  }

  /** `m[k]`, None standing for undefined. */
  function Lookup<V>(m: OrderedMap<V>, k: string): (r: Option<V>)
    ensures r.Some? <==> k in m.keys
    ensures r.Some? ==> r.value == m.vals[k]
  {
    if k in m.vals then Some(m.vals[k]) else None
  }

  /** `{ ...m, [k]: v }`: an existing key keeps its place, a new key goes last. */
  function Set<V>(m: OrderedMap<V>, k: string, v: V): (r: OrderedMap<V>)
    ensures r.vals == m.vals[k := v]
    ensures k in m.keys ==> r.keys == m.keys
    ensures k !in m.keys ==> r.keys == m.keys + [k]
  {
    if k in m.vals then RawMap(m.keys, m.vals[k := v])
    else
      var r := RawMap(m.keys + [k], m.vals[k := v]);
      assert forall i :: 0 <= i < |m.keys| ==> r.keys[i] == m.keys[i];
      r
  }

  /** Reading back after `Set`: the written key gives the new value, every
      other key what it gave before. */
  lemma SetLookups<V>(m: OrderedMap<V>, k: string, v: V)
    ensures forall j :: Lookup(Set(m, k, v), j) == if j == k then Some(v) else Lookup(m, j)
  {
  }

  /** `{ ...prev, [k]: !prev[k] }` on a map of flags, a missing key counting
      as false. */
  function Toggle(m: OrderedMap<bool>, k: string): (r: OrderedMap<bool>)
    ensures Lookup(r, k) == Some(!Lookup(m, k).GetOr(false))
    ensures forall j :: j != k ==> Lookup(r, j) == Lookup(m, j)
    ensures k in m.keys ==> r.keys == m.keys
    ensures k !in m.keys ==> r.keys == m.keys + [k]
  {
    Set(m, k, !Lookup(m, k).GetOr(false))
  }

  /** Toggling twice restores a key that was present; a key that was absent
      comes back as present and false. */
  lemma ToggleTwice(m: OrderedMap<bool>, k: string)
    ensures k in m.keys ==> Toggle(Toggle(m, k), k) == m
    ensures k !in m.keys ==> Toggle(Toggle(m, k), k) == Set(m, k, false)
    ensures Lookup(Toggle(Toggle(m, k), k), k).GetOr(false) == Lookup(m, k).GetOr(false)
  {
    var r := Toggle(Toggle(m, k), k);
    if k in m.keys {
      assert r.vals == m.vals;
    } else {
      assert r.vals == Set(m, k, false).vals;
    }
  }
}
