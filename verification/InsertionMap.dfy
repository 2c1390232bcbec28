/** A map that remembers insertion order, like the built-in `Map` the plugins iterate and delete from. */
module InsertionMap {
  import opened Collections

  /** Keys are only ever compared, so they are numbered. */
  type Key = nat

  datatype Map<V> = Map(order: seq<Key>, at: map<Key, V>)

  ghost predicate Valid<V>(m: Map<V>) {
    Distinct(m.order) && forall k :: k in m.order <==> k in m.at
  }

  function IndexOf(order: seq<Key>, key: Key): (i: nat)
    requires key in order
    ensures i < |order| && order[i] == key
  {
    if order[0] == key then 0 else 1 + IndexOf(order[1..], key)
  }

  /** Setting a new key appends it; setting a known key keeps its place. */
  function Set<V>(m: Map<V>, key: Key, value: V): Map<V> {
    Map(if key in m.at then m.order else m.order + [key], m.at[key := value])
  }

  function Delete<V>(m: Map<V>, key: Key): Map<V> {
    if key in m.order then Map(RemoveAt(m.order, IndexOf(m.order, key)), m.at - {key}) else m
  }

  /** Deleting a key and setting it again makes it the newest one. */
  function Touch<V>(m: Map<V>, key: Key): Map<V>
    requires key in m.at
  {
    Set(Delete(m, key), key, m.at[key])
  }

  lemma RemovedOrder(order: seq<Key>, i: nat)
    requires Distinct(order) && i < |order|
    ensures Distinct(RemoveAt(order, i))
    ensures forall k :: k in RemoveAt(order, i) <==> k in order && k != order[i]
  {
  }

  lemma SetValid<V>(m: Map<V>, key: Key, value: V)
    requires Valid(m)
    ensures Valid(Set(m, key, value))
  {
  }

  lemma DeleteValid<V>(m: Map<V>, key: Key)
    requires Valid(m)
    ensures Valid(Delete(m, key))
    ensures Delete(m, key).at == m.at - {key}
    ensures key in m.at ==> Delete(m, key).order == RemoveAt(m.order, IndexOf(m.order, key))
    ensures |Delete(m, key).order| == |m.order| - if key in m.at then 1 else 0
  {
  }

  lemma TouchValid<V>(m: Map<V>, key: Key)
    requires Valid(m) && key in m.at
    ensures Valid(Touch(m, key)) && Touch(m, key).at == m.at
    ensures |Touch(m, key).order| == |m.order| && Touch(m, key).order[|m.order| - 1] == key
  {
    DeleteValid(m, key);
    SetValid(Delete(m, key), key, m.at[key]);
    assert Touch(m, key).at == m.at;
  }
}
