/**
 * The bounded cache behind both proxy factories: a map that remembers insertion
 * order, in which a hit or a set moves its entry to the end and eviction takes
 * entries from the front. The dispatcher cache is the same algorithm.
 */
module AgentCache {
  import opened Common
  import opened OrderedMap

  /** How many entries from the front are evicted from a store that has grown past the limit. */
  function Excess<K, V>(store: Entries<K, V>, maxEntries: nat): (n: nat)
    ensures n <= |store|
  {
    if |store| > maxEntries then |store| - maxEntries else 0
  }

  function Moved<K(==), V>(store: Entries<K, V>, key: K, value: V): Entries<K, V> {
    Without(store, key) + [(key, value)]
  }

  // ---- Runs ----

  datatype State<K, V> = State(store: Entries<K, V>, evicted: seq<V>)

  datatype Op<K, V> = Get(key: K) | Set(key: K, value: V) | Clear

  function AfterGet<K(==), V>(s: State<K, V>, key: K): State<K, V> {
    match Find(s.store, key)
    case None => s
    case Some(value) => s.(store := Moved(s.store, key, value))
  }

  function AfterSet<K(==), V(==)>(s: State<K, V>, key: K, value: V, maxEntries: nat): State<K, V> {
    if maxEntries == 0 then s
    else
      var prior := Find(s.store, key);
      var moved := Moved(s.store, key, value);
      var excess := Excess(moved, maxEntries);
      State(moved[excess..],
            s.evicted + (if prior.Some? && prior.value != value then [prior.value] else []) + Values(moved[..excess]))
  }

  function AfterClear<K, V>(s: State<K, V>): State<K, V> {
    State([], s.evicted + Values(s.store))
  }

  function Next<K(==), V(==)>(s: State<K, V>, op: Op<K, V>, maxEntries: nat): State<K, V> {
    match op
    case Get(key) => AfterGet(s, key)
    case Set(key, value) => AfterSet(s, key, value, maxEntries)
    case Clear => AfterClear(s)
  }

  function Run<K(==), V(==)>(ops: seq<Op<K, V>>, maxEntries: nat): State<K, V> {
    if ops == [] then State([], []) else Next(Run(ops[..|ops| - 1], maxEntries), ops[|ops| - 1], maxEntries)
  }

  // ---- What a run means, told without the store's order ----

  /** The keys used since the last clear, in the order of use: every set, and every get that hit. */
  function Used<K(==), V>(used: seq<K>, s: State<K, V>, op: Op<K, V>): seq<K> {
    match op
    case Get(key) => if Find(s.store, key).Some? then used + [key] else used
    case Set(key, _) => used + [key]
    case Clear => []
  }

  function Uses<K(==), V(==)>(ops: seq<Op<K, V>>, maxEntries: nat): seq<K> {
    if ops == [] then []
    else Used(Uses(ops[..|ops| - 1], maxEntries), Run(ops[..|ops| - 1], maxEntries), ops[|ops| - 1])
  }

  /** The values handed to the cache by sets that changed what their key maps to. */
  function Adopted<K(==), V(==)>(s: State<K, V>, op: Op<K, V>): seq<V> {
    if op.Set? && Find(s.store, op.key) != Some(op.value) then [op.value] else []
  }

  function Inserted<K(==), V(==)>(ops: seq<Op<K, V>>, maxEntries: nat): seq<V> {
    if ops == [] then []
    else Inserted(ops[..|ops| - 1], maxEntries) + Adopted(Run(ops[..|ops| - 1], maxEntries), ops[|ops| - 1])
  }

  /** What the last set of a key since the last clear stored there. */
  function LastSet<K(==), V>(ops: seq<Op<K, V>>, key: K): Option<V> {
    if ops == [] then None
    else
      match ops[|ops| - 1]
      case Set(k, value) => if k == key then Some(value) else LastSet(ops[..|ops| - 1], key)
      case Clear => None
      case Get(_) => LastSet(ops[..|ops| - 1], key)
  }

  /** The position of the last use of a key, or -1 if it was not used. */
  function LastUse<K(==)>(uses: seq<K>, key: K): int {
    if uses == [] then -1
    else if uses[|uses| - 1] == key then |uses| - 1
    else LastUse(uses[..|uses| - 1], key)
  }

  /** Ascending by last use, each key once. */
  ghost predicate ByLastUse<K>(keys: seq<K>, uses: seq<K>) {
    keys == []
    || (ByLastUse(keys[1..], uses) && forall k :: k in keys[1..] ==> LastUse(uses, keys[0]) < LastUse(uses, k))
  }

  /** Residents were used; a used key that is not resident is older than all residents, and the store is full. */
  ghost predicate MostRecent<K>(keys: seq<K>, uses: seq<K>, maxEntries: nat) {
    && (forall k :: k in keys ==> k in uses)
    && (forall k :: k in uses && k !in keys ==> |keys| == maxEntries && Older(k, keys, uses))
  }

  ghost predicate Older<K>(k: K, keys: seq<K>, uses: seq<K>) {
    forall r :: r in keys ==> LastUse(uses, k) < LastUse(uses, r)
  }

  // ---- The store and its keys ----

  lemma {:induction false} WithoutKeys<K, V>(store: Entries<K, V>, key: K, uses: seq<K>)
    requires ByLastUse(Keys(store), uses)
    ensures var rest := Keys(Without(store, key));
            && (forall k :: k in rest <==> k in Keys(store) && k != key)
            && ByLastUse(rest, uses)
            && |rest| == |store| - (if key in Keys(store) then 1 else 0)
  {
    if store != [] {
      var tail := store[1..];
      WithoutKeys(tail, key, uses);
      KeysConcat(tail, []);
      assert Keys(store)[1..] == Keys(tail);
      if store[0].0 != key {
        assert Without(store, key)[1..] == Without(tail, key);
      }
    }
  }

  // ---- Order of last use ----

  lemma {:induction false} LastUseBound<K>(uses: seq<K>, key: K)
    ensures -1 <= LastUse(uses, key) < |uses|
    ensures LastUse(uses, key) >= 0 <==> key in uses
    ensures key in uses ==> uses[LastUse(uses, key)] == key
  {
    if uses != [] {
      var init := uses[..|uses| - 1];
      LastUseBound(init, key);
      assert uses == init + [uses[|uses| - 1]];
    }
  }

  lemma LastUseAppend<K>(uses: seq<K>, used: K, key: K)
    ensures LastUse(uses + [used], key) == if key == used then |uses| else LastUse(uses, key)
  {
    assert (uses + [used])[..|uses|] == uses;
  }

  lemma {:induction false} TouchOrder<K>(rest: seq<K>, uses: seq<K>, key: K)
    requires ByLastUse(rest, uses) && key !in rest
    ensures ByLastUse(rest + [key], uses + [key])
  {
    if rest != [] {
      TouchOrder(rest[1..], uses, key);
      assert (rest + [key])[1..] == rest[1..] + [key];
      forall k | k in rest[1..] + [key]
        ensures LastUse(uses + [key], rest[0]) < LastUse(uses + [key], k)
      {
        LastUseAppend(uses, key, k);
        LastUseAppend(uses, key, rest[0]);
        LastUseBound(uses, rest[0]);
        assert k != key ==> k in rest[1..];
      }
    }
  }

  lemma OlderAfterTouch<K>(k: K, keys: seq<K>, rest: seq<K>, uses: seq<K>, key: K)
    requires Older(k, keys, uses) && k != key
    requires forall r :: r in rest ==> r in keys
    ensures Older(k, rest + [key], uses + [key])
  {
    LastUseAppend(uses, key, k);
    LastUseBound(uses, k);
    forall r | r in rest + [key]
      ensures LastUse(uses + [key], k) < LastUse(uses + [key], r)
    {
      LastUseAppend(uses, key, r);
    }
  }

  lemma OlderDrop<K>(k: K, keys: seq<K>, uses: seq<K>, n: nat)
    requires Older(k, keys, uses) && n <= |keys|
    ensures Older(k, keys[n..], uses)
  {
  }

  /** Using a key moves it to the back and, if that makes one too many, drops the front. */
  lemma TouchKeepsMostRecent<K>(keys: seq<K>, rest: seq<K>, uses: seq<K>, key: K, maxEntries: nat)
    requires ByLastUse(rest, uses) && MostRecent(keys, uses, maxEntries)
    requires forall k :: k in rest <==> k in keys && k != key
    requires |rest| == |keys| - (if key in keys then 1 else 0) && 1 <= maxEntries && |keys| <= maxEntries
    ensures var touched := rest + [key]; var n := if |touched| > maxEntries then 1 else 0;
            && |touched| - n <= maxEntries
            && ByLastUse(touched[n..], uses + [key])
            && MostRecent(touched[n..], uses + [key], maxEntries)
  {
    var touched := rest + [key];
    var n := if |touched| > maxEntries then 1 else 0;
    TouchOrder(rest, uses, key);
    assert touched[0..] == touched;
    assert key == touched[n..][|touched| - n - 1];
    forall k | k in uses + [key] && k !in touched[n..]
      ensures |touched| - n == maxEntries && Older(k, touched[n..], uses + [key])
    {
      if k in keys {
        assert k in rest && k in touched;
        assert touched == touched[..n] + touched[n..];
        assert n == 1 && k == touched[0];
      } else {
        OlderAfterTouch(k, keys, rest, uses, key);
        OlderDrop(k, touched, uses + [key], n);
      }
    }
  }

  // ---- Theorems over runs ----

  ghost predicate LruInv<K, V>(store: Entries<K, V>, uses: seq<K>, maxEntries: nat) {
    |store| <= maxEntries && ByLastUse(Keys(store), uses) && MostRecent(Keys(store), uses, maxEntries)
  }

  lemma MovedOrder<K, V>(store: Entries<K, V>, uses: seq<K>, key: K, value: V)
    requires ByLastUse(Keys(store), uses)
    ensures Keys(Moved(store, key, value)) == Keys(Without(store, key)) + [key]
    ensures ByLastUse(Keys(Moved(store, key, value)), uses + [key])
  {
    WithoutKeys(store, key, uses);
    KeysConcat(Without(store, key), [(key, value)]);
    assert Keys([(key, value)]) == [key];
    TouchOrder(Keys(Without(store, key)), uses, key);
  }

  lemma MovedKeepsLru<K, V>(store: Entries<K, V>, uses: seq<K>, key: K, value: V, maxEntries: nat)
    requires LruInv(store, uses, maxEntries) && maxEntries >= 1
    ensures var moved := Moved(store, key, value); var excess := Excess(moved, maxEntries);
            && excess <= 1
            && LruInv(moved[excess..], uses + [key], maxEntries)
            && (key in Keys(store) ==> excess == 0)
            && key in Keys(moved[excess..])
  {
    var rest := Without(store, key);
    WithoutKeys(store, key, uses);
    MovedOrder(store, uses, key, value);
    var moved := Moved(store, key, value);
    TouchKeepsMostRecent(Keys(store), Keys(rest), uses, key, maxEntries);
    KeysDrop(moved, Excess(moved, maxEntries));
    assert key == Keys(moved)[|moved| - 1];
  }

  lemma StepKeepsLru<K, V>(s: State<K, V>, uses: seq<K>, op: Op<K, V>, maxEntries: nat)
    requires LruInv(s.store, uses, maxEntries) && maxEntries >= 1
    ensures LruInv(Next(s, op, maxEntries).store, Used(uses, s, op), maxEntries)
  {
    match op
    case Get(key) =>
      FindIsMembership(s.store, key);
      if value :| Find(s.store, key) == Some(value) {
        MovedKeepsLru(s.store, uses, key, value, maxEntries);
        assert Moved(s.store, key, value)[0..] == Moved(s.store, key, value);
      }
    case Set(key, value) => MovedKeepsLru(s.store, uses, key, value, maxEntries);
    case Clear =>
  }

  /**
   * The residents are the maxEntries most recently used keys, in the order of their
   * last use, whatever sets, hits, misses and clears came before.
   */
  lemma {:induction false} ResidentsAreMostRecent<K, V>(ops: seq<Op<K, V>>, maxEntries: nat)
    requires maxEntries >= 1
    ensures LruInv(Run(ops, maxEntries).store, Uses(ops, maxEntries), maxEntries)
  {
    if ops != [] {
      var init := ops[..|ops| - 1];
      ResidentsAreMostRecent(init, maxEntries);
      StepKeepsLru(Run(init, maxEntries), Uses(init, maxEntries), ops[|ops| - 1], maxEntries);
    }
  }

  /** A set keeps its own key and evicts at most one other, the one whose last use lies furthest back. */
  lemma VictimIsLeastRecent<K, V>(ops: seq<Op<K, V>>, key: K, value: V, maxEntries: nat, victim: K)
    requires maxEntries >= 1
    ensures var before := Keys(Run(ops, maxEntries).store);
            var after := Keys(AfterSet(Run(ops, maxEntries), key, value, maxEntries).store);
            && key in after
            && (victim in before && victim !in after ==>
                  |before| == maxEntries && victim != key && key !in before
                  && before[0] == victim && Older(victim, before[1..], Uses(ops, maxEntries)))
  {
    var s := Run(ops, maxEntries);
    ResidentsAreMostRecent(ops, maxEntries);
    MovedKeepsLru(s.store, Uses(ops, maxEntries), key, value, maxEntries);
    var moved := Moved(s.store, key, value);
    WithoutKeys(s.store, key, Uses(ops, maxEntries));
    MovedOrder(s.store, Uses(ops, maxEntries), key, value);
    KeysDrop(moved, Excess(moved, maxEntries));
    if victim in Keys(s.store) && victim !in Keys(AfterSet(s, key, value, maxEntries).store) {
      assert victim in Keys(Without(s.store, key)) && victim in Keys(moved);
      AbsentKeyStays(s.store, key);
      FindIsMembership(s.store, key);
      assert Keys(moved) == [Keys(moved)[0]] + Keys(moved)[1..];
    }
  }

  lemma {:induction false} FindMoved<K, V>(store: Entries<K, V>, key: K, value: V, k: K, uses: seq<K>)
    requires ByLastUse(Keys(store), uses)
    ensures Find(Moved(store, key, value), k) == if k == key then Some(value) else Find(store, k)
  {
    if store != [] {
      var tail := store[1..];
      assert Keys(store)[1..] == Keys(tail);
      FindMoved(tail, key, value, k, uses);
      if store[0].0 == key {
        FindIsMembership(tail, key);
        FindAppend(tail, key, value, k);
      } else {
        assert Moved(store, key, value)[1..] == Moved(tail, key, value);
      }
    }
  }

  lemma {:induction false} FindDrop<K, V>(store: Entries<K, V>, n: nat, k: K, uses: seq<K>)
    requires ByLastUse(Keys(store), uses) && n <= |store| && k in Keys(store[n..])
    ensures Find(store[n..], k) == Find(store, k)
  {
    if n > 0 {
      var tail := store[1..];
      assert Keys(store)[1..] == Keys(tail);
      assert store[n..] == tail[n - 1..];
      FindDrop(tail, n - 1, k, uses);
      KeysDrop(tail, n - 1);
      assert k in Keys(tail);
    }
  }

  lemma SetFind<K, V>(s: State<K, V>, uses: seq<K>, key: K, value: V, maxEntries: nat, k: K)
    requires maxEntries >= 1 && LruInv(s.store, uses, maxEntries)
    requires k in Keys(AfterSet(s, key, value, maxEntries).store)
    ensures Find(AfterSet(s, key, value, maxEntries).store, k) == if k == key then Some(value) else Find(s.store, k)
    ensures k != key ==> k in Keys(s.store)
  {
    var moved := Moved(s.store, key, value);
    var n := Excess(moved, maxEntries);
    FindMoved(s.store, key, value, k, uses);
    MovedOrder(s.store, uses, key, value);
    FindDrop(moved, n, k, uses + [key]);
    KeysDrop(moved, n);
    FindIsMembership(moved, k);
    FindIsMembership(s.store, k);
  }

  /** A resident key maps to what the last set of it stored. */
  lemma {:induction false} ResidentValueIsLastSet<K, V>(ops: seq<Op<K, V>>, maxEntries: nat, k: K)
    requires maxEntries >= 1 && k in Keys(Run(ops, maxEntries).store)
    ensures Find(Run(ops, maxEntries).store, k) == LastSet(ops, k)
  {
    if ops != [] {
      var init := ops[..|ops| - 1];
      var s := Run(init, maxEntries);
      var uses := Uses(init, maxEntries);
      ResidentsAreMostRecent(init, maxEntries);
      FindIsMembership(s.store, k);
      if k in Keys(s.store) {
        ResidentValueIsLastSet(init, maxEntries, k);
      }
      match ops[|ops| - 1]
      case Get(key) =>
        if value :| Find(s.store, key) == Some(value) {
          FindMoved(s.store, key, value, k, uses);
          FindIsMembership(Moved(s.store, key, value), k);
        }
      case Set(key, value) => SetFind(s, uses, key, value, maxEntries, k);
      case Clear =>
    }
  }

  // ---- Conservation ----

  lemma MovedValues<K, V>(store: Entries<K, V>, key: K, value: V)
    ensures multiset(Values(Moved(store, key, value))) == multiset(Values(Without(store, key))) + multiset{value}
  {
    ValuesConcat(Without(store, key), [(key, value)]);
    assert Values([(key, value)]) == [value];
  }

  ghost function Handled<K, V>(s: State<K, V>): multiset<V> {
    multiset(Values(s.store)) + multiset(s.evicted)
  }

  lemma Balance<V>(before: multiset<V>, adopted: multiset<V>, rest: multiset<V>, value: multiset<V>, prior: multiset<V>,
                   evicted: multiset<V>, out: multiset<V>, kept: multiset<V>)
    requires before + adopted == rest + prior + value && out + kept == rest + value
    ensures kept + (evicted + prior + out) == before + evicted + adopted
  {
    assert kept + (evicted + prior + out) == (evicted + prior) + (out + kept);
    assert (evicted + prior) + (rest + value) == evicted + (rest + prior + value);
    assert evicted + (before + adopted) == before + evicted + adopted;
  }

  lemma MovedSplit<K, V>(store: Entries<K, V>, key: K, value: V, n: nat)
    requires n <= |Moved(store, key, value)|
    ensures var moved := Moved(store, key, value);
            multiset(Values(moved[..n])) + multiset(Values(moved[n..])) == multiset(Values(Without(store, key)))
                + multiset{value}
  {
    MovedValues(store, key, value);
    KeysDrop(Moved(store, key, value), n);
  }

  lemma EvictedBySet<K, V>(s: State<K, V>, key: K, value: V, maxEntries: nat, replaced: seq<V>)
    requires maxEntries >= 1
    requires replaced == match Find(s.store, key)
                         case None => []
                         case Some(prior) => if prior == value then [] else [prior]
    ensures var moved := Moved(s.store, key, value); var n := Excess(moved, maxEntries);
            Handled(AfterSet(s, key, value, maxEntries))
            == multiset(Values(moved[n..])) + (multiset(s.evicted) + multiset(replaced) + multiset(Values(moved[..n])))
  {
  }

  lemma ValuesBeforeSet<K, V>(s: State<K, V>, key: K, value: V, replaced: seq<V>)
    requires replaced == match Find(s.store, key)
                         case None => []
                         case Some(prior) => if prior == value then [] else [prior]
    ensures multiset(Values(s.store)) + multiset(Adopted(s, Set(key, value)))
            == multiset(Values(Without(s.store, key))) + multiset(replaced) + multiset{value}
  {
    WithoutValues(s.store, key);
  }

  lemma {:induction false} SetConserves<K, V>(s: State<K, V>, key: K, value: V, maxEntries: nat)
    requires maxEntries >= 1
    ensures Handled(AfterSet(s, key, value, maxEntries)) == Handled(s) + multiset(Adopted(s, Set(key, value)))
  {
    var moved := Moved(s.store, key, value);
    var n := Excess(moved, maxEntries);
    var replaced := match Find(s.store, key) case None => [] case Some(prior) => if prior == value then [] else [prior];
    MovedSplit(s.store, key, value, n);
    ValuesBeforeSet(s, key, value, replaced);
    EvictedBySet(s, key, value, maxEntries, replaced);
    Balance(multiset(Values(s.store)), multiset(Adopted(s, Set(key, value))), multiset(Values(Without(s.store, key))),
            multiset{value}, multiset(replaced), multiset(s.evicted), multiset(Values(moved[..n])),
                multiset(Values(moved[n..])));
  }

  lemma {:induction false} StepConserves<K, V>(s: State<K, V>, op: Op<K, V>, maxEntries: nat)
    requires maxEntries >= 1
    ensures Handled(Next(s, op, maxEntries)) == Handled(s) + multiset(Adopted(s, op))
  {
    match op
    case Get(key) =>
      if value :| Find(s.store, key) == Some(value) {
        WithoutValues(s.store, key);
        MovedValues(s.store, key, value);
      }
    case Set(key, value) => SetConserves(s, key, value, maxEntries);
    case Clear =>
  }

  /** Every value taken in is resident or was passed to the eviction callback, as often as it was taken in. */
  lemma {:induction false} CacheConserves<K, V>(ops: seq<Op<K, V>>, maxEntries: nat)
    requires maxEntries >= 1
    ensures multiset(Values(Run(ops, maxEntries).store)) + multiset(Run(ops, maxEntries).evicted)
            == multiset(Inserted(ops, maxEntries))
  {
    if ops != [] {
      var init := ops[..|ops| - 1];
      CacheConserves(init, maxEntries);
      StepConserves(Run(init, maxEntries), ops[|ops| - 1], maxEntries);
    }
  }

  /** After a clear each value was evicted as often as it was inserted: a value inserted once, exactly once. */
  lemma {:induction false} ClearEvictsEachOnce<K, V>(ops: seq<Op<K, V>>, maxEntries: nat)
    requires maxEntries >= 1
    ensures var s := Run(ops + [Clear], maxEntries);
            s.store == [] && multiset(s.evicted) == multiset(Inserted(ops, maxEntries))
  {
    assert (ops + [Clear])[..|ops|] == ops;
    CacheConserves(ops, maxEntries);
  }

  // ---- The object ----

  class BoundedAgentCache<K(==), V(==)> {
    const maxEntries: nat
    var store: Entries<K, V>
    /** The values passed to the eviction callback so far. */
    var evicted: seq<V>

    constructor (maxEntries: nat)
      ensures this.maxEntries == maxEntries && Value() == State([], [])
    {
      this.maxEntries := maxEntries;
      store, evicted := [], [];
    }

    function Value(): State<K, V>
      reads this
    {
      State(store, evicted)
    }

    method Clear()
      modifies this
      ensures Value() == AfterClear(old(Value()))
    {
      var i := 0;
      ghost var before := evicted;
      while i < |store|
        invariant i <= |store| && store == old(store)
        invariant evicted == before + Values(store[..i])
      {
        evicted := evicted + [store[i].1];
        ValuesPrefix(store, i);
        i := i + 1;
      }
      assert store[..i] == store;
      store := [];
    }

    method Get(key: K) returns (value: Option<V>)
      modifies this`store
      ensures Value() == AfterGet(old(Value()), key) && value == Find(old(store), key)
    {
      value := Find(store, key);
      if value.Some? {
        store := Without(store, key);
        store := store + [(key, value.value)];
      }
    }

    method Set(key: K, value: V)
      modifies this
      ensures Value() == AfterSet(old(Value()), key, value, maxEntries)
    {
      if maxEntries == 0 {
        return;
      }
      AbsentKeyStays(store, key);
      FindIsMembership(store, key);
      var prior := Find(store, key);
      if prior.Some? {
        store := Without(store, key);
        if prior.value != value {
          evicted := evicted + [prior.value];
        }
      }
      store := store + [(key, value)];
      ghost var moved, before, n := store, evicted, 0;
      while |store| > maxEntries
        invariant n <= Excess(moved, maxEntries) && store == moved[n..]
        invariant evicted == before + Values(moved[..n])
        decreases |store|
      {
        var oldest := store[0];
        ValuesPrefix(moved, n);
        store := Without(store, oldest.0);
        evicted := evicted + [oldest.1];
        n := n + 1;
      }
    }
  }
}
