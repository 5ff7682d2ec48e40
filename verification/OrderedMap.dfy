/** Maps that remember the order in which their keys were inserted. */
module OrderedMap {
  import opened Common

  /** A map in insertion order; front is the entry a map iterator yields first. */
  type Entries<K, V> = seq<(K, V)>

  function Find<K(==), V>(store: Entries<K, V>, key: K): Option<V> {
    if store == [] then None
    else if store[0].0 == key then Some(store[0].1)
    else Find(store[1..], key)
  }

  function Without<K(==), V>(store: Entries<K, V>, key: K): Entries<K, V> {
    if store == [] then []
    else if store[0].0 == key then store[1..]
    else [store[0]] + Without(store[1..], key)
  }

  function Keys<K, V>(store: Entries<K, V>): (keys: seq<K>)
    ensures |keys| == |store|
  {
    if store == [] then [] else [store[0].0] + Keys(store[1..])
  }

  function Values<K, V>(store: Entries<K, V>): seq<V> {
    if store == [] then [] else [store[0].1] + Values(store[1..])
  }

  lemma {:induction false} KeysConcat<K, V>(a: Entries<K, V>, b: Entries<K, V>)
    ensures Keys(a + b) == Keys(a) + Keys(b)
  {
    if a == [] {
      assert a + b == b;
    } else {
      KeysConcat(a[1..], b);
      assert (a + b)[1..] == a[1..] + b;
    }
  }

  lemma {:induction false} ValuesConcat<K, V>(a: Entries<K, V>, b: Entries<K, V>)
    ensures Values(a + b) == Values(a) + Values(b)
  {
    if a == [] {
      assert a + b == b;
    } else {
      ValuesConcat(a[1..], b);
      assert (a + b)[1..] == a[1..] + b;
    }
  }

  lemma {:induction false} KeysDrop<K, V>(store: Entries<K, V>, n: nat)
    requires n <= |store|
    ensures Keys(store[n..]) == Keys(store)[n..] && Keys(store[..n]) == Keys(store)[..n]
    ensures Values(store) == Values(store[..n]) + Values(store[n..])
  {
    assert store == store[..n] + store[n..];
    KeysConcat(store[..n], store[n..]);
    ValuesConcat(store[..n], store[n..]);
  }

  lemma {:induction false} FindIsMembership<K, V>(store: Entries<K, V>, key: K)
    ensures Find(store, key).Some? <==> key in Keys(store)
  {
    if store != [] {
      FindIsMembership(store[1..], key);
    }
  }

  lemma {:induction false} WithoutValues<K, V>(store: Entries<K, V>, key: K)
    ensures var rest := multiset(Values(Without(store, key)));
            multiset(Values(store)) == match Find(store, key) case None => rest
                case Some(value) => rest + multiset{value}
  {
    if store != [] {
      WithoutValues(store[1..], key);
      assert Values(store) == [store[0].1] + Values(store[1..]);
      if store[0].0 != key {
        assert Without(store, key)[1..] == Without(store[1..], key);
      }
    }
  }

  lemma {:induction false} AbsentKeyStays<K, V>(store: Entries<K, V>, key: K)
    ensures key !in Keys(store) ==> Without(store, key) == store
  {
    if store != [] {
      AbsentKeyStays(store[1..], key);
      assert Keys(store)[1..] == Keys(store[1..]);
    }
  }

  lemma {:induction false} FindAppend<K, V>(store: Entries<K, V>, key: K, value: V, k: K)
    ensures Find(store + [(key, value)], k) ==
            if Find(store, k).Some? then Find(store, k) else if k == key then Some(value) else None
  {
    if store != [] {
      FindAppend(store[1..], key, value, k);
      assert (store + [(key, value)])[1..] == store[1..] + [(key, value)];
    }
  }

  lemma ValuesPrefix<K, V>(store: Entries<K, V>, n: nat)
    requires n < |store|
    ensures Values(store[..n + 1]) == Values(store[..n]) + [store[n].1]
  {
    assert store[..n + 1] == store[..n] + [store[n]];
    ValuesConcat(store[..n], [store[n]]);
    assert Values([store[n]]) == [store[n].1];
  }
}
