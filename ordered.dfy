/** JavaScript's `Set` and `Map` keep their entries in insertion order, and the
    modelled code iterates them (`forEach`, `for … of`, `Array.from`). This module
    models both: a set is a sequence without duplicates, a map is such a sequence of
    keys beside a Dafny `map`. Re-adding a present element or key keeps its place. */
module Ordered {

  ghost predicate NoDup<T>(s: seq<T>) {
    forall i, j :: 0 <= i < j < |s| ==> s[i] != s[j]
  }

  /** `Set.prototype.add`. */
  function Add<T(==,!new)>(s: seq<T>, x: T): (r: seq<T>)
    ensures forall y :: y in r <==> y in s || y == x
    ensures x in s ==> r == s
    ensures |s| <= |r| && r[..|s|] == s
    ensures NoDup(s) ==> NoDup(r)
  {
    if x in s then s else s + [x]
  }

  /** `Set.prototype.delete`: removes `x` and keeps the order of the rest. */
  function Remove<T(==,!new)>(s: seq<T>, x: T): (r: seq<T>)
    ensures forall y :: y in r <==> y in s && y != x
    ensures x !in s ==> r == s
    ensures NoDup(s) ==> NoDup(r)
    ensures |r| <= |s|
  {
    if s == [] then []
    else
      var rest := Remove(s[1..], x);
      assert NoDup(s) ==> NoDup(s[1..]) && s[0] !in rest by {
        if NoDup(s) {
          assert forall i, j :: 0 <= i < j < |s| - 1 ==> s[1..][i] == s[i + 1] && s[1..][j] == s[j + 1];
        }
      }
      (if s[0] == x then [] else [s[0]]) + rest
  }

  /** An insertion-ordered map: `keys` lists the keys of `entries` in the order they
      were first set. */
  datatype OMap<K(!new), V> = OMap(keys: seq<K>, entries: map<K, V>) {

    ghost predicate Valid() {
      NoDup(keys) && (forall k :: k in keys <==> k in entries)
    }

    /** `Map.prototype.set`: a new key goes last, a present key keeps its place. */
    function Put(k: K, v: V): (r: OMap<K, V>)
      ensures Valid() ==> r.Valid()
      ensures r.entries == entries[k := v]
      ensures k in keys ==> r.keys == keys
      ensures k !in keys ==> r.keys == keys + [k]
    {
      OMap(Add(keys, k), entries[k := v])
    }

    /** `Map.prototype.delete`. */
    function Delete(k: K): (r: OMap<K, V>)
      ensures Valid() ==> r.Valid()
      ensures r.entries == entries - {k}
      ensures forall j :: j in r.keys <==> j in keys && j != k
    {
      OMap(Remove(keys, k), entries - {k})
    }

    /** `Array.from(m.values())`: the values in key order. */
    function Values(): (r: seq<V>)
      requires Valid()
      ensures |r| == |keys|
      ensures forall i :: 0 <= i < |keys| ==> r[i] == entries[keys[i]]
    {
      seq(|keys|, i requires 0 <= i < |keys| => entries[keys[i]])
    }
  }

  function EmptyMap<K(!new), V>(): (r: OMap<K, V>)
    ensures r.Valid() && r.entries == map[] && r.keys == []
  {
    OMap([], map[])
  }
}
