/** A JavaScript `Map`: a finite map that remembers the order in which its keys were first inserted.
    Re-assigning a present key keeps its place; iteration follows the order. */
module JsMap {
  import opened Option

  datatype JsMap<K(==), V> = JsMap(order: seq<K>, data: map<K, V>)

  /** The order lists every key once. */
  ghost predicate Ordered<K, V>(m: JsMap<K, V>) {
    multiset(m.order) == multiset(m.data.Keys)
  }

  ghost predicate Distinct<K>(s: seq<K>) {
    forall i, j :: 0 <= i < j < |s| ==> s[i] != s[j]
  }

  lemma CountsBoth<K>(s: seq<K>, i: nat, j: nat)
    requires i < j < |s|
    ensures s[i] == s[j] ==> multiset(s)[s[i]] >= 2
  {
    assert s == s[..j] + [s[j]] + s[j + 1..];
    assert s[..j][i] == s[i];
    assert s[i] in multiset(s[..j]);
  }

  lemma OrderedMeans<K(!new), V>(m: JsMap<K, V>)
    requires Ordered(m)
    ensures Distinct(m.order)
    ensures forall k :: k in m.order <==> k in m.data
  {
    forall k ensures k in m.order <==> k in m.data {
      assert k in m.order <==> multiset(m.order)[k] > 0;
      assert k in m.data <==> multiset(m.data.Keys)[k] > 0;
    }
    forall i, j | 0 <= i < j < |m.order| ensures m.order[i] != m.order[j] {
      CountsBoth(m.order, i, j);
      assert multiset(m.data.Keys)[m.order[i]] <= 1;
    }
  }

  function Empty<K(!new), V>(): JsMap<K, V> {
    JsMap([], map[])
  }

  function Get<K(!new), V>(m: JsMap<K, V>, k: K): Option<V> {
    if k in m.data then Some(m.data[k]) else None
  }

  function Set<K(!new), V>(m: JsMap<K, V>, k: K, v: V): JsMap<K, V> {
    if k in m.data then JsMap(m.order, m.data[k := v]) else JsMap(m.order + [k], m.data[k := v])
  }

  function Without<K(!new,==)>(s: seq<K>, k: K): (r: seq<K>)
    ensures forall x :: x in r <==> x in s && x != k
    ensures |r| <= |s|
    ensures k !in s ==> r == s
  {
    if s == [] then []
    else if s[0] == k then Without(s[1..], k)
    else
      assert s == [s[0]] + s[1..];
      [s[0]] + Without(s[1..], k)
  }

  function Delete<K(!new), V>(m: JsMap<K, V>, k: K): JsMap<K, V> {
    JsMap(Without(m.order, k), m.data - {k})
  }

  lemma SetOrdered<K(!new), V>(m: JsMap<K, V>, k: K, v: V)
    requires Ordered(m)
    ensures Ordered(Set(m, k, v))
  {
    assert Set(m, k, v).data.Keys == m.data.Keys + {k};
  }

  lemma DeleteUndoesInsert<K(!new), V>(m: JsMap<K, V>, k: K, v: V)
    requires Ordered(m) && k !in m.data
    ensures Delete(Set(m, k, v), k) == m
  {
    OrderedMeans(m);
    WithoutAppend(m.order, k);
    assert m.data[k := v] - {k} == m.data;
  }

  lemma WithoutAppend<K(!new)>(s: seq<K>, k: K)
    requires k !in s
    ensures Without(s + [k], k) == s
  {
    if s != [] {
      assert (s + [k])[1..] == s[1..] + [k];
      WithoutAppend(s[1..], k);
    }
  }

  function ValuesOf<K(!new), V>(order: seq<K>, data: map<K, V>): seq<V> {
    if order == [] then []
    else
      var n := |order| - 1;
      ValuesOf(order[..n], data) + (if order[n] in data then [data[order[n]]] else [])
  }

  /** `[...m.values()]` */
  function Values<K(!new), V>(m: JsMap<K, V>): seq<V> {
    ValuesOf(m.order, m.data)
  }

  lemma {:induction false} InValuesOf<K(!new), V>(order: seq<K>, data: map<K, V>, v: V)
    ensures v in ValuesOf(order, data) <==> exists k :: k in order && k in data && data[k] == v
  {
    if order != [] {
      var n := |order| - 1;
      InValuesOf(order[..n], data, v);
      assert order == order[..n] + [order[n]];
    }
  }

  lemma InValues<K(!new), V>(m: JsMap<K, V>, v: V)
    requires Ordered(m)
    ensures v in Values(m) <==> exists k :: k in m.data && m.data[k] == v
  {
    OrderedMeans(m);
    InValuesOf(m.order, m.data, v);
  }

  /** Refill an empty map from a saved list, keyed by `key`. */
  function FromList<K(!new), V>(values: seq<V>, key: V -> K): JsMap<K, V> {
    if values == [] then Empty()
    else
      var n := |values| - 1;
      Set(FromList(values[..n], key), key(values[n]), values[n])
  }

  lemma {:induction false} FromListOrdered<K(!new), V>(values: seq<V>, key: V -> K)
    ensures Ordered(FromList(values, key))
    ensures forall k :: k in FromList(values, key).data ==> key(FromList(values, key).data[k]) == k
  {
    if values != [] {
      var n := |values| - 1;
      FromListOrdered(values[..n], key);
      SetOrdered(FromList(values[..n], key), key(values[n]), values[n]);
    }
  }

  function Restrict<K(!new), V>(data: map<K, V>, order: seq<K>): map<K, V> {
    map k | k in order && k in data :: data[k]
  }

  lemma RestrictSnoc<K(!new), V>(data: map<K, V>, order: seq<K>, k: K)
    requires k in data && k !in order
    ensures Restrict(data, order + [k]) == Restrict(data, order)[k := data[k]]
    ensures k !in Restrict(data, order)
  {
  }

  lemma ValuesSnoc<K(!new), V>(data: map<K, V>, order: seq<K>, k: K)
    requires k in data
    ensures ValuesOf(order + [k], data) == ValuesOf(order, data) + [data[k]]
  {
    assert (order + [k])[..|order|] == order;
  }

  lemma FromListSnoc<K(!new), V>(values: seq<V>, v: V, key: V -> K)
    ensures FromList(values + [v], key) == Set(FromList(values, key), key(v), v)
  {
    assert (values + [v])[..|values|] == values;
  }

  lemma DistinctSnoc<K(!new)>(s: seq<K>)
    requires s != [] && Distinct(s)
    ensures Distinct(s[..|s| - 1]) && s[|s| - 1] !in s[..|s| - 1] && s == s[..|s| - 1] + [s[|s| - 1]]
  {
  }

  lemma {:induction false} RefillOrder<K(!new), V>(order: seq<K>, data: map<K, V>, key: V -> K)
    requires Distinct(order)
    requires forall k :: k in order ==> k in data && key(data[k]) == k
    ensures FromList(ValuesOf(order, data), key) == JsMap(order, Restrict(data, order))
  {
    if order != [] {
      var init, k := order[..|order| - 1], order[|order| - 1];
      DistinctSnoc(order);
      RefillOrder(init, data, key);
      ValuesSnoc(data, init, k);
      FromListSnoc(ValuesOf(init, data), data[k], key);
      RestrictSnoc(data, init, k);
    }
  }

  /** Saving a keyed map as the list of its values and refilling gives back the map and its order. */
  lemma SaveAndRefill<K(!new), V>(m: JsMap<K, V>, key: V -> K)
    requires Ordered(m) && forall k :: k in m.data ==> key(m.data[k]) == k
    ensures FromList(Values(m), key) == m
  {
    OrderedMeans(m);
    RefillOrder(m.order, m.data, key);
    assert Restrict(m.data, m.order) == m.data;
  }
}
