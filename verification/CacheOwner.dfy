/**
 * What the owner of a bounded cache relies on when the cached values are resources
 * it created itself: each is cleaned up at most once, and none is handed out afterwards.
 */
module CacheOwner {
  import opened Common
  import opened OrderedMap
  import opened AgentCache

  /** A resource: the identity of the object, what it was built for, and the settings generation it was built under. */
  datatype Agent<S> = Agent(id: nat, spec: S, epoch: nat)

  datatype Error =
    | InvalidTargetUrl
    | InvalidProxyUrl
    | UnsupportedProxyProtocol(protocol: string)
    | UnsupportedTargetProtocol(protocol: string)

  datatype Result<+T> = Ok(value: T) | Err(error: Error)

  /** What a factory is asked to do; reloading from the environment is an update, too. */
  datatype Step<Settings, Url> = Resolve(url: Option<Url>) | UpdateSettings(settings: Settings) | Destroy

  /** The settings installed last, and how often settings were installed. */
  function Installed<Settings, Url>(settings: Settings, steps: seq<Step<Settings, Url>>): (Settings, nat) {
    if steps == [] then (settings, 0)
    else
      var (current, updates) := Installed(settings, steps[..|steps| - 1]);
      if steps[|steps| - 1].UpdateSettings? then (steps[|steps| - 1].settings, updates + 1) else (current, updates)
  }

  type Cache<S> = State<string, Agent<S>>

  ghost predicate Lru<S>(cache: Cache<S>, maxEntries: nat) {
    exists uses :: LruInv(cache.store, uses, maxEntries)
  }

  /** How specifications are filed, and which are proper. */
  datatype Filing<!S> = Filing(key: S -> string, proper: S -> bool)

  /** A resident is filed under the key of what it was built for, and is of the current generation. */
  ghost predicate Filed<S>(cache: Cache<S>, epoch: nat, filing: Filing<S>) {
    forall k :: k in Keys(cache.store) ==>
      match Find(cache.store, k)
      case None => false
      case Some(a) => filing.key(a.spec) == k && filing.proper(a.spec) && a.epoch == epoch
  }

  /** The objects created so far carry consecutive numbers, so each is in the list once. */
  ghost predicate Numbered<S>(made: seq<Agent<S>>) {
    forall i :: 0 <= i < |made| ==> made[i].id == i
  }

  /**
   * Every object ever created is a resident or was cleaned up, not both, and not twice; a cache for
   * nothing holds none.
   */
  ghost predicate Accounted<S>(cache: Cache<S>, made: seq<Agent<S>>, maxEntries: nat) {
    if maxEntries == 0 then cache == State([], []) else Handled(cache) == multiset(made)
  }

  ghost predicate Owned<S>(cache: Cache<S>, made: seq<Agent<S>>, epoch: nat, filing: Filing<S>, maxEntries: nat) {
    && Filed(cache, epoch, filing) && Numbered(made) && Accounted(cache, made, maxEntries) && Lru(cache, maxEntries)
  }

  lemma NumberedOnce<S>(made: seq<Agent<S>>, a: Agent<S>)
    requires Numbered(made)
    ensures multiset(made)[a] <= 1
    ensures a in made ==> a.id < |made|
  {
    if made != [] {
      var init := made[..|made| - 1];
      NumberedOnce(init, a);
      assert made == init + [made[|made| - 1]];
    }
  }

  lemma {:induction false} FindInValues<S>(store: Entries<string, Agent<S>>, k: string)
    ensures match Find(store, k) case None => true case Some(a) => a in Values(store)
  {
    if store != [] {
      FindInValues(store[1..], k);
    }
  }

  lemma ResidentIsNotEvicted<S>(cache: Cache<S>, made: seq<Agent<S>>, maxEntries: nat, k: string)
    requires Numbered(made) && Accounted(cache, made, maxEntries) && Find(cache.store, k).Some?
    ensures var a := Find(cache.store, k).value; a !in cache.evicted && a.id < |made|
  {
    var a := Find(cache.store, k).value;
    FindInValues(cache.store, k);
    NumberedOnce(made, a);
    assert Handled(cache)[a] == multiset(Values(cache.store))[a] + multiset(cache.evicted)[a];
  }

  lemma GetKeepsFiled<S>(cache: Cache<S>, epoch: nat, filing: Filing<S>, uses: seq<string>, maxEntries: nat, k: string)
    requires Filed(cache, epoch, filing) && LruInv(cache.store, uses, maxEntries)
    ensures Filed(AfterGet(cache, k), epoch, filing)
  {
    if Find(cache.store, k).Some? {
      var a := Find(cache.store, k).value;
      forall x | x in Keys(AfterGet(cache, k).store)
        ensures x in Keys(cache.store) && Find(AfterGet(cache, k).store, x) == Find(cache.store, x)
      {
        FindMoved(cache.store, k, a, x, uses);
        FindIsMembership(AfterGet(cache, k).store, x);
        FindIsMembership(cache.store, x);
      }
    }
  }

  lemma SetKeepsFiled<S>(cache: Cache<S>, epoch: nat, filing: Filing<S>, uses: seq<string>, maxEntries: nat,
                         a: Agent<S>)
    requires Filed(cache, epoch, filing) && LruInv(cache.store, uses, maxEntries) && maxEntries > 0 && a.epoch == epoch
        && filing.proper(a.spec)
    ensures Filed(AfterSet(cache, filing.key(a.spec), a, maxEntries), epoch, filing)
  {
    forall x | x in Keys(AfterSet(cache, filing.key(a.spec), a, maxEntries).store)
      ensures Find(AfterSet(cache, filing.key(a.spec), a, maxEntries).store, x) == if x == filing.key(a.spec)
          then Some(a) else Find(cache.store, x)
      ensures x != filing.key(a.spec) ==> x in Keys(cache.store)
    {
      SetFind(cache, uses, filing.key(a.spec), a, maxEntries, x);
    }
  }

  /** A hit is of the current generation, was built for its key and has not been cleaned up; it stays so. */
  lemma HitIsSafe<S>(cache: Cache<S>, made: seq<Agent<S>>, epoch: nat, filing: Filing<S>, maxEntries: nat, k: string)
    requires Owned(cache, made, epoch, filing, maxEntries)
    ensures Owned(AfterGet(cache, k), made, epoch, filing, maxEntries)
    ensures match Find(cache.store, k)
            case None => AfterGet(cache, k) == cache
            case Some(a) =>
              && filing.key(a.spec) == k && filing.proper(a.spec) && a.epoch == epoch
              && a.id < |made| && a !in AfterGet(cache, k).evicted
  {
    if Find(cache.store, k).Some? {
      FindIsMembership(cache.store, k);
      ResidentIsNotEvicted(cache, made, maxEntries, k);
      StepConserves(cache, Get(k), maxEntries);
      var uses :| LruInv(cache.store, uses, maxEntries);
      StepKeepsLru(cache, uses, Get(k), maxEntries);
      GetKeepsFiled(cache, epoch, filing, uses, maxEntries, k);
    }
  }

  lemma {:induction false} SetKeepsAccounts<S>(cache: Cache<S>, made: seq<Agent<S>>, k: string, a: Agent<S>,
                                               maxEntries: nat)
    requires Numbered(made) && Accounted(cache, made, maxEntries) && a.id == |made|
    ensures Accounted(AfterSet(cache, k, a, maxEntries), made + [a], maxEntries) && Numbered(made + [a])
  {
    if maxEntries > 0 {
      if Find(cache.store, k) == Some(a) {
        FindInValues(cache.store, k);
        assert a in Handled(cache);
        NumberedOnce(made, a);
        assert false;
      }
      StepConserves(cache, Set(k, a), maxEntries);
      assert multiset(made + [a]) == multiset(made) + multiset([a]);
    }
  }

  lemma SetThenFind<S>(cache: Cache<S>, uses: seq<string>, k: string, a: Agent<S>, maxEntries: nat)
    requires maxEntries > 0 && LruInv(cache.store, uses, maxEntries)
    ensures Find(AfterSet(cache, k, a, maxEntries).store, k) == Some(a)
  {
    MovedKeepsLru(cache.store, uses, k, a, maxEntries);
    SetFind(cache, uses, k, a, maxEntries, k);
  }

  /** Filing a new object keeps the ownership, and the new object is not the one evicted. */
  lemma InsertIsSafe<S>(cache: Cache<S>, made: seq<Agent<S>>, epoch: nat, filing: Filing<S>, maxEntries: nat,
                        a: Agent<S>)
    requires Owned(cache, made, epoch, filing, maxEntries)
    requires filing.proper(a.spec) && a.id == |made| && a.epoch == epoch
    ensures var after := AfterSet(cache, filing.key(a.spec), a, maxEntries);
            Owned(after, made + [a], epoch, filing, maxEntries) && a !in after.evicted
  {
    var k := filing.key(a.spec);
    SetKeepsAccounts(cache, made, k, a, maxEntries);
    if maxEntries > 0 {
      var uses :| LruInv(cache.store, uses, maxEntries);
      StepKeepsLru(cache, uses, Set(k, a), maxEntries);
      SetKeepsFiled(cache, epoch, filing, uses, maxEntries, a);
      SetThenFind(cache, uses, k, a, maxEntries);
      ResidentIsNotEvicted(AfterSet(cache, k, a, maxEntries), made + [a], maxEntries, k);
    }
  }

  /**
   * After a clear exactly the objects ever created have been cleaned up, each once, if and
   * only if the cache holds anything at all or nothing was created.
   */
  lemma ClearIsSafe<S>(cache: Cache<S>, made: seq<Agent<S>>, epoch: nat, newEpoch: nat, filing: Filing<S>,
                       maxEntries: nat)
    requires Owned(cache, made, epoch, filing, maxEntries)
    ensures var after := AfterClear(cache);
            && Owned(after, made, newEpoch, filing, maxEntries)
            && (multiset(after.evicted) == multiset(made) <==> maxEntries > 0 || made == [])
  {
    assert LruInv<string, Agent<S>>([], [], maxEntries);
    if maxEntries > 0 {
      StepConserves(cache, Clear, maxEntries);
      assert Handled(AfterClear(cache)) == multiset(AfterClear(cache).evicted);
    } else if made != [] {
      assert made[0] in multiset(made);
    }
  }

  /** Nothing is cleaned up twice. */
  lemma DisposedOnce<S>(cache: Cache<S>, made: seq<Agent<S>>, maxEntries: nat, a: Agent<S>)
    requires Numbered(made) && Accounted(cache, made, maxEntries)
    ensures multiset(cache.evicted)[a] <= 1
  {
    NumberedOnce(made, a);
    assert Handled(cache)[a] == multiset(Values(cache.store))[a] + multiset(cache.evicted)[a];
  }
}
