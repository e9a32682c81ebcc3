/** The JavaScript `Map` the memory store lives in: a finite map that also
    remembers the order in which keys were first inserted. `set` on a key
    already present replaces the value in place; `delete` drops the entry;
    `values()` iterates in insertion order. */
module OrderedMap {
  import opened Results

  datatype Entry<K, V> = Entry(key: K, value: V)

  /** Entries in insertion order. */
  type Map<K, V> = seq<Entry<K, V>>

  function Keys<K, V>(m: Map<K, V>): (r: seq<K>)
    ensures |r| == |m|
    ensures forall i :: 0 <= i < |m| ==> r[i] == m[i].key
  {
    seq(|m|, i requires 0 <= i < |m| => m[i].key)
  }

  /** The keys of a map with `e` in front. */
  lemma KeysCons<K, V>(e: Entry<K, V>, m: Map<K, V>)
    ensures Keys([e] + m) == [e.key] + Keys(m)
  {
  }

  /** The keys of a non-empty map: the first key, then the keys of the rest. */
  lemma KeysTail<K, V>(m: Map<K, V>)
    requires |m| > 0
    ensures Keys(m) == [m[0].key] + Keys(m[1..])
  {
  }

  /** `Array.from(m.values())`. */
  function Values<K, V>(m: Map<K, V>): (r: seq<V>)
    ensures |r| == |m|
    ensures forall i :: 0 <= i < |m| ==> r[i] == m[i].value
  {
    seq(|m|, i requires 0 <= i < |m| => m[i].value)
  }

  /** No element occurs twice in `s`. */
  ghost predicate Distinct<K>(s: seq<K>)
    decreases |s|
  {
    |s| == 0 || (s[0] !in s[1..] && Distinct(s[1..]))
  }

  /** No key is stored twice; every map built with `Set` and `Remove` keeps this. */
  ghost predicate Valid<K, V>(m: Map<K, V>) {
    Distinct(Keys(m))
  }

  /** `m.get(k)`: the value stored under `k`, if any. */
  function Get<K(==), V>(m: Map<K, V>, k: K): (r: Option<V>)
    ensures r.Some? <==> k in Keys(m)
    ensures r.Some? ==> Entry(k, r.value) in m
    decreases |m|
  {
    if |m| == 0 then None
    else if m[0].key == k then Some(m[0].value)
    else
      assert Keys(m) == [m[0].key] + Keys(m[1..]);
      Get(m[1..], k)
  }

  /** In a valid map, the entry holding `k` is the one `Get` returns. */
  lemma {:induction false} GetAt<K, V>(m: Map<K, V>, i: nat)
    requires Valid(m) && i < |m|
    ensures Get(m, m[i].key) == Some(m[i].value)
    decreases |m|
  {
    if i > 0 {
      assert Keys(m)[1..] == Keys(m[1..]);
      assert m[1..][i - 1] == m[i];
      assert Keys(m[1..])[i - 1] == m[i].key;
      GetAt(m[1..], i - 1);
    }
  }

  /** Replace the value of the first entry holding `k`, in place. */
  function Replace<K(==), V>(m: Map<K, V>, k: K, v: V): (r: Map<K, V>)
    ensures Keys(r) == Keys(m)
    decreases |m|
  {
    if |m| == 0 then []
    else if m[0].key == k then
      KeysCons(Entry(k, v), m[1..]);
      KeysTail(m);
      [Entry(k, v)] + m[1..]
    else
      KeysCons(m[0], Replace(m[1..], k, v));
      KeysTail(m);
      [m[0]] + Replace(m[1..], k, v)
  }

  /** `m.set(k, v)`: a present key keeps its position, a new key goes last. */
  function Set<K(==), V>(m: Map<K, V>, k: K, v: V): (r: Map<K, V>)
    ensures k in Keys(m) ==> Keys(r) == Keys(m)
    ensures k !in Keys(m) ==> r == m + [Entry(k, v)]
  {
    if k in Keys(m) then Replace(m, k, v) else m + [Entry(k, v)]
  }

  /** `m.delete(k)`: every entry except the one under `k`, in the same order. */
  function Remove<K(==), V>(m: Map<K, V>, k: K): (r: Map<K, V>)
    ensures |r| <= |m|
    ensures k !in Keys(m) ==> r == m
    decreases |m|
  {
    if |m| == 0 then []
    else if m[0].key == k then Remove(m[1..], k)
    else
      assert Keys(m) == [m[0].key] + Keys(m[1..]);
      [m[0]] + Remove(m[1..], k)
  }

  lemma {:induction false} ReplaceGet<K, V>(m: Map<K, V>, k: K, v: V, k': K)
    ensures Get(Replace(m, k, v), k') == if k' == k && k in Keys(m) then Some(v) else Get(m, k')
    decreases |m|
  {
    if |m| > 0 && m[0].key != k {
      assert Keys(m) == [m[0].key] + Keys(m[1..]);
      ReplaceGet(m[1..], k, v, k');
    }
  }

  /** After `Set(m, k, v)`, `k` maps to `v` and every other key reads as before. */
  lemma SetGet<K, V>(m: Map<K, V>, k: K, v: V, k': K)
    ensures Get(Set(m, k, v), k') == if k' == k then Some(v) else Get(m, k')
  {
    if k in Keys(m) {
      ReplaceGet(m, k, v, k');
    } else {
      AppendGet(m, Entry(k, v), k');
    }
  }

  lemma {:induction false} AppendGet<K, V>(m: Map<K, V>, e: Entry<K, V>, k': K)
    ensures Get(m + [e], k') == if k' in Keys(m) then Get(m, k') else if k' == e.key then Some(e.value) else None
    decreases |m|
  {
    if |m| == 0 {
      assert Keys(m) == [];
    } else {
      assert (m + [e])[1..] == m[1..] + [e];
      assert Keys(m) == [m[0].key] + Keys(m[1..]);
      AppendGet(m[1..], e, k');
    }
  }

  lemma {:induction false} DistinctAppend<K>(s: seq<K>, x: K)
    requires Distinct(s) && x !in s
    ensures Distinct(s + [x])
    decreases |s|
  {
    if |s| > 0 {
      assert (s + [x])[1..] == s[1..] + [x];
      DistinctAppend(s[1..], x);
    }
  }

  /** `Set` never stores a key twice. */
  lemma SetValid<K, V>(m: Map<K, V>, k: K, v: V)
    requires Valid(m)
    ensures Valid(Set(m, k, v))
  {
    if k !in Keys(m) {
      assert Keys(m + [Entry(k, v)]) == Keys(m) + [k];
      DistinctAppend(Keys(m), k);
    }
  }

  /** After `Remove(m, k)`, `k` is absent and every other key reads as before. */
  lemma {:induction false} RemoveGet<K, V>(m: Map<K, V>, k: K, k': K)
    ensures Get(Remove(m, k), k') == if k' == k then None else Get(m, k')
    decreases |m|
  {
    if |m| > 0 {
      RemoveGet(m[1..], k, k');
    }
  }

  /** `Remove` keeps exactly the entries whose key differs from `k`. */
  lemma {:induction false} RemoveEntries<K, V>(m: Map<K, V>, k: K)
    ensures forall e :: e in Remove(m, k) <==> e in m && e.key != k
    decreases |m|
  {
    if |m| > 0 {
      RemoveEntries(m[1..], k);
      assert m == [m[0]] + m[1..];
    }
  }

  /** `Remove` keeps exactly the keys other than `k`. */
  lemma {:induction false} RemoveKeys<K, V>(m: Map<K, V>, k: K)
    ensures forall x :: x in Keys(Remove(m, k)) <==> x in Keys(m) && x != k
    decreases |m|
  {
    if |m| > 0 {
      var t := m[1..];
      RemoveKeys(t, k);
      KeysTail(m);
      if m[0].key != k {
        KeysCons(m[0], Remove(t, k));
      }
    }
  }

  /** `Remove` never stores a key twice, and removes exactly one entry of a
      valid map that holds the key. */
  lemma {:induction false} RemoveValid<K, V>(m: Map<K, V>, k: K)
    requires Valid(m)
    ensures Valid(Remove(m, k))
    ensures k in Keys(m) ==> |Remove(m, k)| == |m| - 1
    decreases |m|
  {
    if |m| > 0 {
      var t := m[1..];
      KeysTail(m);
      RemoveValid(t, k);
      if m[0].key != k {
        RemoveKeys(t, k);
        KeysCons(m[0], Remove(t, k));
      }
    }
  }
}
