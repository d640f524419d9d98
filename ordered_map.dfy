/**
 * Insertion-ordered maps: the shape of a PHP array with string keys, which every
 * collection of the repository definition is built on. Assigning to an existing
 * key keeps its position; assigning to a new key appends it.
 */
module OrderedMaps {

  /** No element occurs twice. */
  ghost predicate Distinct<T>(s: seq<T>) {
    forall i, j :: 0 <= i < j < |s| ==> s[i] != s[j]
  }

  datatype OrderedMap<K, V> = OrderedMap(keys: seq<K>, table: map<K, V>) {

    /** The key sequence lists each key of the table exactly once. */
    ghost predicate Valid() {
      && Distinct(keys)
      && (forall k :: k in table ==> k in keys)
      && (forall i :: 0 <= i < |keys| ==> keys[i] in table)
    }

    predicate Has(k: K) {
      k in table
    }

    /** `$array[$k] = $v`. */
    function Put(k: K, v: V): (r: OrderedMap<K, V>)
      ensures Valid() ==> r.Valid()
      ensures r.table == table[k := v]
    {
      if k in table then OrderedMap(keys, table[k := v]) else OrderedMap(keys + [k], table[k := v])
    }

    /** The values in insertion order, as a `foreach` over the array yields them. */
    function Values(): (r: seq<V>)
      requires Valid()
      ensures |r| == |keys|
      ensures forall i :: 0 <= i < |keys| ==> r[i] == table[keys[i]]
    {
      seq(|keys|, i requires 0 <= i < |keys| => table[keys[i]])
    }

    /** `count($array)`: the number of distinct keys. */
    function Size(): (n: nat)
      requires Valid()
      ensures n == |table|
    {
      assert table.Keys == set k | k in keys;
      DistinctCardinality(keys);
      |keys|
    }
  }

  function Empty<K, V>(): (m: OrderedMap<K, V>)
    ensures m.Valid() && m.table == map[] && m.Values() == []
  {
    OrderedMap([], map[])
  }

  /** A position of `x` in `s`. */
  function IndexOf<T(==)>(s: seq<T>, x: T): (i: nat)
    requires x in s
    ensures i < |s| && s[i] == x
  {
    if s[0] == x then 0 else 1 + IndexOf(s[1..], x)
  }

  lemma {:induction false} DistinctCardinality<T>(s: seq<T>)
    requires Distinct(s)
    ensures |set x | x in s| == |s|
  {
    if s != [] {
      var rest := s[1..];
      assert Distinct(rest) by {
        forall i, j | 0 <= i < j < |rest| ensures rest[i] != rest[j] {
          assert rest[i] == s[i + 1] && rest[j] == s[j + 1];
        }
      }
      DistinctCardinality(rest);
      assert (set x | x in s) == (set x | x in rest) + {s[0]};
      assert s[0] !in rest by {
        forall i | 0 <= i < |rest| ensures rest[i] != s[0] {
          assert rest[i] == s[i + 1];
        }
      }
    }
  }

  /** Inserting a new key appends it and its value at the end of the iteration order. */
  lemma PutNewAppends<K, V>(m: OrderedMap<K, V>, k: K, v: V)
    requires m.Valid() && k !in m.table
    ensures m.Put(k, v).keys == m.keys + [k]
    ensures m.Put(k, v).Values() == m.Values() + [v]
  {
    var r := m.Put(k, v);
    assert r.Values() == m.Values() + [v] by {
      forall i | 0 <= i < |r.keys| ensures r.Values()[i] == (m.Values() + [v])[i] {
        if i < |m.keys| {
          assert m.keys[i] in m.table && m.keys[i] != k;
        }
      }
    }
  }

  /**
   * Assigning to a key already present keeps the iteration order and replaces that
   * key's value in place; assigning the value already stored changes nothing.
   */
  lemma PutExistingInPlace<K, V>(m: OrderedMap<K, V>, k: K, v: V)
    requires m.Valid() && k in m.table
    ensures m.Put(k, v).keys == m.keys
    ensures forall i :: 0 <= i < |m.keys| ==>
      m.Put(k, v).Values()[i] == (if m.keys[i] == k then v else m.Values()[i])
    ensures m.table[k] == v ==> m.Put(k, v) == m
  {
    if m.table[k] == v {
      assert m.table[k := v] == m.table;
    }
  }

  /** Keys appended to a valid map were pairwise different and new to it. */
  lemma AppendedKeysFresh<K, V>(a: OrderedMap<K, V>, b: OrderedMap<K, V>, added: seq<K>)
    requires a.Valid() && b.Valid() && b.keys == a.keys + added
    ensures Distinct(added)
    ensures forall i :: 0 <= i < |added| ==> added[i] !in a.table
  {
    forall i, j | 0 <= i < j < |added| ensures added[i] != added[j] {
      assert b.keys[|a.keys| + i] == added[i] && b.keys[|a.keys| + j] == added[j];
    }
    forall i | 0 <= i < |added| ensures added[i] !in a.table {
      assert b.keys[|a.keys| + i] == added[i];
      assert forall k :: 0 <= k < |a.keys| ==> a.keys[k] == b.keys[k];
    }
  }
}
