/**
 * The JavaScript `Map` the client fills while indexing GTFS tables: a finite map
 * that also remembers the order in which its keys were first inserted, the order
 * in which `values()` yields them.
 *
 * `IndexBy` and `GroupBy` are the two ways the client fills such a Map from a
 * parsed table; the lemmas below say what the resulting Map holds.
 */
module JsMaps {
  import opened Gtfs

  /** No key is listed twice. */
  ghost predicate Distinct<K(!new)>(ks: seq<K>) {
    forall i, j :: 0 <= i < j < |ks| ==> ks[i] != ks[j]
  }

  datatype JsMap<K(==,!new), V> = JsMap(keys: seq<K>, entries: map<K, V>) {

    /** The insertion order lists every key of `entries` once and nothing else. */
    ghost predicate Valid() {
      Distinct(keys) && forall k :: k in entries <==> k in keys
    }

    /** `m.has(k)` */
    predicate Has(k: K) { k in entries }

    /** `m.get(k)`, with `undefined` as `None`. */
    function Get(k: K): Option<V> {
      if k in entries then Some(entries[k]) else None
    }

    /** `m.set(k, v)`: a new key joins the end of the iteration order, a key already
        present keeps its place and takes the new value. */
    function Set(k: K, v: V): (m: JsMap<K, V>)
      ensures Valid() ==> m.Valid()
      ensures m.Get(k) == Some(v)
      ensures forall j :: j != k ==> m.Get(j) == Get(j)
      ensures Has(k) ==> m.keys == keys
      ensures !Has(k) ==> m.keys == keys + [k]
    {
      if k in entries then JsMap(keys, entries[k := v])
      else JsMap(keys + [k], entries[k := v])
    }

    /** `Array.from(m.values())`: the values in key insertion order. */
    function Values(): seq<V>
      requires Valid()
    {
      seq(|keys|, i requires 0 <= i < |keys| => entries[keys[i]])
    }
  }

  /** `new Map()` */
  function Empty<K(==,!new), V>(): JsMap<K, V> {
    JsMap([], map[])
  }

  /** The Map that `for (const x of s) m.set(key(x), x)` fills, starting from an empty Map. */
  function IndexBy<T, K(==,!new)>(s: seq<T>, key: T -> K): (m: JsMap<K, T>)
    ensures m.Valid()
    decreases |s|
  {
    if s == [] then Empty()
    else IndexBy(s[..|s| - 1], key).Set(key(s[|s| - 1]), s[|s| - 1])
  }

  /** A key is present exactly when some element of the input carries it. */
  lemma {:induction false} IndexByHas<T, K(!new)>(s: seq<T>, key: T -> K, k: K)
    ensures IndexBy(s, key).Has(k) <==> exists i :: 0 <= i < |s| && key(s[i]) == k
    decreases |s|
  {
    if s != [] {
      var p := s[..|s| - 1];
      IndexByHas(p, key, k);
      if exists i :: 0 <= i < |s| && key(s[i]) == k {
        var i :| 0 <= i < |s| && key(s[i]) == k;
        if i < |p| {
          assert p[i] == s[i];
        }
      }
      if exists i :: 0 <= i < |p| && key(p[i]) == k {
        var i :| 0 <= i < |p| && key(p[i]) == k;
        assert s[i] == p[i];
      }
    }
  }

  /** A later element with the same key replaces an earlier one: the Map holds, for each
      key, the last element that carries it. */
  lemma {:induction false} IndexByLastWins<T, K(!new)>(s: seq<T>, key: T -> K, i: nat)
    requires i < |s|
    requires forall j :: i < j < |s| ==> key(s[j]) != key(s[i])
    ensures IndexBy(s, key).Get(key(s[i])) == Some(s[i])
    decreases |s|
  {
    if i < |s| - 1 {
      var p := s[..|s| - 1];
      assert p[i] == s[i];
      forall j | i < j < |p| ensures key(p[j]) != key(p[i]) {
        assert p[j] == s[j];
      }
      IndexByLastWins(p, key, i);
    }
  }

  /** The Map that `if (!m.has(key(x))) m.set(key(x), []); m.get(key(x))!.push(x)`
      fills, for each x of s in turn, starting from an empty Map. */
  function GroupBy<T, K(==,!new)>(s: seq<T>, key: T -> K): (m: JsMap<K, seq<T>>)
    ensures m.Valid()
    decreases |s|
  {
    if s == [] then Empty()
    else
      var x := s[|s| - 1];
      var m0 := GroupBy(s[..|s| - 1], key);
      var m1 := if m0.Has(key(x)) then m0 else m0.Set(key(x), []);
      m1.Set(key(x), m1.entries[key(x)] + [x])
  }

  /** The elements of s whose key is k, in input order. */
  function Members<T, K(==,!new)>(s: seq<T>, key: T -> K, k: K): (r: seq<T>)
    ensures |r| <= |s|
    ensures forall x :: x in r ==> x in s && key(x) == k
    decreases |s|
  {
    if s == [] then []
    else Members(s[..|s| - 1], key, k) + (if key(s[|s| - 1]) == k then [s[|s| - 1]] else [])
  }

  /** Each group is exactly the elements with that key, in input order, and a key has a
      group exactly when some element carries it. */
  lemma {:induction false} GroupByMembers<T, K(!new)>(s: seq<T>, key: T -> K, k: K)
    ensures GroupBy(s, key).Get(k) == if Members(s, key, k) == [] then None else Some(Members(s, key, k))
    decreases |s|
  {
    if s != [] {
      var x := s[|s| - 1];
      var m0 := GroupBy(s[..|s| - 1], key);
      var m1 := if m0.Has(key(x)) then m0 else m0.Set(key(x), []);
      var ms := Members(s[..|s| - 1], key, k);
      GroupByMembers(s[..|s| - 1], key, k);
      assert GroupBy(s, key) == m1.Set(key(x), m1.entries[key(x)] + [x]);
      if key(x) == k {
        assert m1.Get(k) == Some(ms);
        assert Members(s, key, k) == ms + [x];
      } else {
        assert m1.Get(k) == m0.Get(k);
        assert Members(s, key, k) == ms;
      }
    }
  }

  /** The summed lengths of the groups filed under ks. */
  function SumSizes<K(==,!new), V>(ks: seq<K>, e: map<K, seq<V>>): nat
    requires forall k :: k in ks ==> k in e
    decreases |ks|
  {
    if ks == [] then 0 else SumSizes(ks[..|ks| - 1], e) + |e[ks[|ks| - 1]]|
  }

  /** The number of elements held over all groups of m. */
  function TotalSize<K(==,!new), V>(m: JsMap<K, seq<V>>): nat
    requires m.Valid()
  {
    SumSizes(m.keys, m.entries)
  }

  /** Changing a group that ks does not list leaves the sum unchanged. */
  lemma {:induction false} SumSizesFrame<K(!new), V>(ks: seq<K>, e: map<K, seq<V>>, k: K, v: seq<V>)
    requires forall j :: j in ks ==> j in e
    requires k !in ks
    ensures SumSizes(ks, e[k := v]) == SumSizes(ks, e)
    decreases |ks|
  {
    if ks != [] {
      SumSizesFrame(ks[..|ks| - 1], e, k, v);
    }
  }

  /** Replacing one listed group changes the sum by the difference in its length. */
  lemma {:induction false} SumSizesUpdate<K(!new), V>(ks: seq<K>, e: map<K, seq<V>>, k: K, v: seq<V>)
    requires forall j :: j in ks ==> j in e
    requires Distinct(ks) && k in ks
    ensures SumSizes(ks, e[k := v]) + |e[k]| == SumSizes(ks, e) + |v|
    decreases |ks|
  {
    var p := ks[..|ks| - 1];
    assert Distinct(p);
    if ks[|ks| - 1] == k {
      assert k !in p;
      SumSizesFrame(p, e, k, v);
    } else {
      assert k in p;
      SumSizesUpdate(p, e, k, v);
    }
  }

  /** No element is lost or duplicated: the group sizes add up to the input length. */
  lemma {:induction false} GroupBySize<T, K(!new)>(s: seq<T>, key: T -> K)
    ensures TotalSize(GroupBy(s, key)) == |s|
    decreases |s|
  {
    if s != [] {
      var x := s[|s| - 1];
      var k := key(x);
      var m0 := GroupBy(s[..|s| - 1], key);
      GroupBySize(s[..|s| - 1], key);
      var m1 := if m0.Has(k) then m0 else m0.Set(k, []);
      assert TotalSize(m1) == |s| - 1 by {
        if !m0.Has(k) {
          assert m1.keys[..|m0.keys|] == m0.keys;
          assert k !in m0.keys;
          SumSizesFrame(m0.keys, m0.entries, k, []);
        }
      }
      SumSizesUpdate(m1.keys, m1.entries, k, m1.entries[k] + [x]);
    }
  }
}
