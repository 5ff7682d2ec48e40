/**
 * The dispatcher factory for Undici clients: the same cache, keyed by the normalized
 * proxy URL alone, beside one direct dispatcher that lives outside the cache.
 */
module ProxyDispatchers {
  import opened Common
  import opened OrderedMap
  import opened AgentCache
  import opened CacheOwner

  /** A parsed proxy URL: its normalized text and its protocol. */
  datatype ProxyUrl = ProxyUrl(href: string, protocol: string)

  datatype Network<!Settings, !Url> = Network(
    route: (Url, Settings) -> Option<string>,
    protocolOf: Url -> string,
    parse: string -> Option<ProxyUrl>)

  /** What a dispatcher was built for: direct connections, or a proxy. */
  datatype Spec = Direct | Proxy(href: string)

  type Dispatcher = Agent<Spec>

  datatype Resolution = Resolution(dispatcher: Dispatcher, proxyUrl: Option<string>, viaProxy: bool, fromCache: bool)

  /**
   * made are the proxied dispatchers ever created, madeDirect the direct ones, closedDirect those
   * of them that were closed.
   */
  datatype Factory<Settings> = Factory(
    settings: Settings,
    cache: Cache<Spec>,
    made: seq<Dispatcher>,
    direct: Option<Dispatcher>,
    madeDirect: seq<Dispatcher>,
    closedDirect: seq<Dispatcher>,
    epoch: nat)

  function KeyOf(spec: Spec): string {
    if spec.Direct? then "" else spec.href
  }

  /** Proxied dispatchers are filed by the normalized URL of their proxy. */
  function DispatcherFiling(): Filing<Spec> {
    Filing(KeyOf, (spec: Spec) => spec.Proxy?)
  }

  /** Routing without a cache: an error, or what kind of dispatcher to build. */
  function Uncached<Settings, Url>(net: Network<Settings, Url>, settings: Settings, url: Option<Url>): Result<Spec> {
    match url
    case None => Err(InvalidTargetUrl)
    case Some(target) =>
      if net.protocolOf(target) !in {"http:", "https:"} then Err(UnsupportedTargetProtocol(net.protocolOf(target)))
      else
        match net.route(target, settings)
        case None => Ok(Direct)
        case Some(proxyUrl) =>
          if proxyUrl == "" then Ok(Direct)
          else
            match net.parse(proxyUrl)
            case None => Err(InvalidProxyUrl)
            case Some(parsed) =>
              if parsed.protocol in {"http:", "https:"} then Ok(Proxy(parsed.href))
                  else Err(UnsupportedProxyProtocol(parsed.protocol))
  }

  function ResolvedDirect<Settings>(s: Factory<Settings>): (Factory<Settings>, Resolution) {
    match s.direct
    case Some(dispatcher) => (s, Resolution(dispatcher, None, false, true))
    case None =>
      var dispatcher := Agent(|s.madeDirect|, Direct, s.epoch);
      (s.(direct := Some(dispatcher), madeDirect := s.madeDirect + [dispatcher]),
       Resolution(dispatcher, None, false, false))
  }

  function ResolvedProxy<Settings>(s: Factory<Settings>, href: string, maxEntries: nat)
    : (Factory<Settings>, Resolution)
  {
    match Find(s.cache.store, href)
    case Some(dispatcher) => (s.(cache := AfterGet(s.cache, href)), Resolution(dispatcher, Some(href), true, true))
    case None =>
      var dispatcher := Agent(|s.made|, Proxy(href), s.epoch);
      (s.(cache := AfterSet(s.cache, href, dispatcher, maxEntries), made := s.made + [dispatcher]),
       Resolution(dispatcher, Some(href), true, false))
  }

  function Resolved<Settings, Url>(net: Network<Settings, Url>, s: Factory<Settings>, url: Option<Url>,
                                   maxEntries: nat):
    (Factory<Settings>, Result<Resolution>)
  {
    match Uncached(net, s.settings, url)
    case Err(error) => (s, Err(error))
    case Ok(Direct) => var (after, r) := ResolvedDirect(s); (after, Ok(r))
    case Ok(Proxy(href)) => var (after, r) := ResolvedProxy(s, href, maxEntries); (after, Ok(r))
  }

  function Destroyed<Settings>(s: Factory<Settings>): Factory<Settings> {
    s.(cache := AfterClear(s.cache),
       direct := None,
       closedDirect := s.closedDirect + match s.direct case None => [] case Some(dispatcher) => [dispatcher])
  }

  function AfterStep<Settings, Url>(net: Network<Settings, Url>, s: Factory<Settings>, step: Step<Settings, Url>,
                                    maxEntries: nat): Factory<Settings> {
    match step
    case Resolve(url) => Resolved(net, s, url, maxEntries).0
    case UpdateSettings(settings) => Destroyed(s).(settings := settings, epoch := s.epoch + 1)
    case Destroy => Destroyed(s)
  }

  function AfterSteps<Settings, Url>(net: Network<Settings, Url>, settings: Settings, steps: seq<Step<Settings, Url>>,
                                     maxEntries: nat): Factory<Settings> {
    if steps == [] then Factory(settings, State([], []), [], None, [], [], 0)
    else AfterStep(net, AfterSteps(net, settings, steps[..|steps| - 1], maxEntries), steps[|steps| - 1], maxEntries)
  }

  /** The direct dispatchers were closed in the order of their creation, all but the current one. */
  ghost predicate DirectInv<Settings>(s: Factory<Settings>) {
    && Numbered(s.madeDirect)
    && s.madeDirect == s.closedDirect + (match s.direct case None => [] case Some(dispatcher) => [dispatcher])
    && (s.direct.Some? ==> s.direct.value.epoch == s.epoch && s.direct.value.spec.Direct?)
  }

  ghost predicate Inv<Settings>(s: Factory<Settings>, maxEntries: nat) {
    Owned(s.cache, s.made, s.epoch, DispatcherFiling(), maxEntries) && DirectInv(s)
  }

  /** Whether a dispatcher was closed by the factory. */
  predicate Closed(s: Factory, dispatcher: Dispatcher) {
    if dispatcher.spec.Direct? then dispatcher in s.closedDirect else dispatcher in s.cache.evicted
  }

  /** What resolve promises its caller. */
  ghost predicate Serves(r: Resolution, spec: Spec, s: Factory, after: Factory) {
    && r.dispatcher.spec == spec && r.dispatcher.epoch == s.epoch && !Closed(after, r.dispatcher)
    && r.viaProxy == spec.Proxy? && r.proxyUrl == (if spec.Proxy? then Some(spec.href) else None)
    && (r.fromCache <==> r.dispatcher.id < if spec.Direct? then |s.madeDirect| else |s.made|)
  }

  lemma ResolvedProxyIsSafe<Settings>(s: Factory<Settings>, href: string, maxEntries: nat)
    requires Inv(s, maxEntries)
    ensures var (after, r) := ResolvedProxy(s, href, maxEntries);
            Inv(after, maxEntries) && Serves(r, Proxy(href), s, after)
  {
    HitIsSafe(s.cache, s.made, s.epoch, DispatcherFiling(), maxEntries, href);
    if Find(s.cache.store, href).None? {
      InsertIsSafe(s.cache, s.made, s.epoch, DispatcherFiling(), maxEntries, Agent(|s.made|, Proxy(href), s.epoch));
    }
  }

  lemma ResolvedDirectIsSafe<Settings>(s: Factory<Settings>)
    requires DirectInv(s)
    ensures var (after, r) := ResolvedDirect(s); DirectInv(after) && Serves(r, Direct, s, after)
  {
    if s.direct.Some? {
      assert s.madeDirect[|s.closedDirect|] == s.direct.value;
    }
    forall i | 0 <= i < |s.closedDirect|
      ensures s.closedDirect[i].id < |s.closedDirect|
    {
      assert s.madeDirect[i] == s.closedDirect[i];
    }
  }

  lemma DestroyedKeepsDirect<Settings>(s: Factory<Settings>)
    requires DirectInv(s)
    ensures DirectInv(Destroyed(s)) && Destroyed(s).closedDirect == s.madeDirect
  {
  }

  lemma ResolvedIsSafe<Settings, Url>(net: Network<Settings, Url>, s: Factory<Settings>, url: Option<Url>,
                                      maxEntries: nat)
    requires Inv(s, maxEntries)
    ensures var (after, r) := Resolved(net, s, url, maxEntries);
            && Inv(after, maxEntries)
            && match Uncached(net, s.settings, url)
               case Err(error) => r == Err(error) && after == s
               case Ok(spec) => r.Ok? && Serves(r.value, spec, s, after)
  {
    match Uncached(net, s.settings, url)
    case Err(_) =>
    case Ok(Direct) => ResolvedDirectIsSafe(s);
    case Ok(Proxy(href)) => ResolvedProxyIsSafe(s, href, maxEntries);
  }

  lemma DestroyedKeepsInv<Settings>(s: Factory<Settings>, t: Factory<Settings>, maxEntries: nat)
    requires Inv(s, maxEntries) && t == Destroyed(s).(settings := t.settings, epoch := t.epoch)
    ensures Inv(t, maxEntries)
  {
    ClearIsSafe(s.cache, s.made, s.epoch, t.epoch, DispatcherFiling(), maxEntries);
    DestroyedKeepsDirect(s);
  }

  lemma InitialInv<Settings, Url>(net: Network<Settings, Url>, settings: Settings, maxEntries: nat)
    ensures Inv(AfterSteps<Settings, Url>(net, settings, [], maxEntries), maxEntries)
  {
    assert LruInv<string, Dispatcher>([], [], maxEntries);
  }

  lemma StepKeepsInv<Settings, Url>(net: Network<Settings, Url>, s: Factory<Settings>, step: Step<Settings, Url>,
                                    maxEntries: nat)
    requires Inv(s, maxEntries)
    ensures Inv(AfterStep(net, s, step, maxEntries), maxEntries)
  {
    if step.Resolve? {
      ResolvedIsSafe(net, s, step.url, maxEntries);
    } else {
      DestroyedKeepsInv(s, AfterStep(net, s, step, maxEntries), maxEntries);
    }
  }

  lemma StepInstalls<Settings, Url>(net: Network<Settings, Url>, s: Factory<Settings>, step: Step<Settings, Url>,
                                    maxEntries: nat)
    ensures var t := AfterStep(net, s, step, maxEntries);
            (t.settings, t.epoch) ==
            if step.UpdateSettings? then (step.settings, s.epoch + 1) else (s.settings, s.epoch)
  {
  }

  lemma {:induction false} StepsKeepInv<Settings, Url>(net: Network<Settings, Url>, settings: Settings,
                                                       steps: seq<Step<Settings, Url>>, maxEntries: nat)
    ensures var s := AfterSteps(net, settings, steps, maxEntries);
            Inv(s, maxEntries) && (s.settings, s.epoch) == Installed(settings, steps)
  {
    if steps == [] {
      InitialInv(net, settings, maxEntries);
    } else {
      var before, step := AfterSteps(net, settings, steps[..|steps| - 1], maxEntries), steps[|steps| - 1];
      StepsKeepInv(net, settings, steps[..|steps| - 1], maxEntries);
      StepKeepsInv(net, before, step, maxEntries);
      StepInstalls(net, before, step, maxEntries);
      assert AfterSteps(net, settings, steps, maxEntries) == AfterStep(net, before, step, maxEntries);
    }
  }

  /**
   * Whatever happened before, resolve answers as routing under the current settings
   * does, error for error, with a dispatcher for that proxy (or for direct
   * connections) that was not closed and is not older than the current settings.
   */
  lemma {:induction false} CachedDispatchIsTransparent<Settings, Url>(net: Network<Settings, Url>, settings: Settings,
                                                   steps: seq<Step<Settings, Url>>,
                                                   maxEntries: nat, url: Option<Url>)
    ensures var s := AfterSteps(net, settings, steps, maxEntries);
            var (after, r) := Resolved(net, s, url, maxEntries);
            var (current, updates) := Installed(settings, steps);
            match Uncached(net, current, url)
            case Err(error) => r == Err(error) && after == s
            case Ok(spec) => r.Ok? && Serves(r.value, spec, s, after) && r.value.dispatcher.epoch == updates
  {
    StepsKeepInv(net, settings, steps, maxEntries);
    ResolvedIsSafe(net, AfterSteps(net, settings, steps, maxEntries), url, maxEntries);
  }

  /** What resolve answers, read off the target, its route and the protocols. */
  ghost predicate Routed<Settings, Url>(net: Network<Settings, Url>, current: Settings, url: Option<Url>,
                                        r: Result<Resolution>) {
    if url.None? then r == Err(InvalidTargetUrl)
    else
      var protocol, route := net.protocolOf(url.value), net.route(url.value, current);
      if protocol != "http:" && protocol != "https:" then r == Err(UnsupportedTargetProtocol(protocol))
      else if route.None? || route.value == "" then
        r.Ok? && r.value.dispatcher.spec == Direct && r.value.proxyUrl == None && !r.value.viaProxy
      else
        var parsed := net.parse(route.value);
        if parsed.None? then r == Err(InvalidProxyUrl)
        else if parsed.value.protocol != "http:" && parsed.value.protocol != "https:" then
          r == Err(UnsupportedProxyProtocol(parsed.value.protocol))
        else
          && r.Ok? && r.value.dispatcher.spec == Proxy(parsed.value.href)
          && r.value.proxyUrl == Some(parsed.value.href) && r.value.viaProxy
  }

  /**
   * After any run, resolve answers as the current settings route the target: with one of the
   * errors exactly on its input, the direct dispatcher, or one for that proxy.
   */
  lemma {:induction false} DispatchIsRight<Settings, Url>(net: Network<Settings, Url>, settings: Settings,
                                       steps: seq<Step<Settings, Url>>, maxEntries: nat, url: Option<Url>)
    ensures var s := AfterSteps(net, settings, steps, maxEntries);
            Routed(net, Installed(settings, steps).0, url, Resolved(net, s, url, maxEntries).1)
  {
    CachedDispatchIsTransparent(net, settings, steps, maxEntries, url);
  }

  /**
   * No dispatcher is closed twice. A destroy or an update leaves no direct one open, and no
   * proxied one if and only if the factory caches at all or never created one.
   */
  lemma {:induction false} DispatchersAreClosedOnce<Settings, Url>(net: Network<Settings, Url>, settings: Settings,
                                                steps: seq<Step<Settings, Url>>, maxEntries: nat,
                                                dispatcher: Dispatcher)
    ensures var s := AfterSteps(net, settings, steps, maxEntries);
            && multiset(s.cache.evicted)[dispatcher] <= 1
            && multiset(s.closedDirect)[dispatcher] <= 1
            && (steps != [] && !steps[|steps| - 1].Resolve? ==>
                  && s.closedDirect == s.madeDirect
                  && (multiset(s.cache.evicted) == multiset(s.made) <==> maxEntries > 0 || s.made == []))
  {
    var s := AfterSteps(net, settings, steps, maxEntries);
    StepsKeepInv(net, settings, steps, maxEntries);
    DisposedOnce(s.cache, s.made, maxEntries, dispatcher);
    NumberedOnce(s.madeDirect, dispatcher);
    if steps != [] {
      var before := AfterSteps(net, settings, steps[..|steps| - 1], maxEntries);
      StepsKeepInv(net, settings, steps[..|steps| - 1], maxEntries);
      ClearIsSafe(before.cache, before.made, before.epoch, before.epoch, DispatcherFiling(), maxEntries);
      DestroyedKeepsDirect(before);
    }
  }

  class ProxyUndiciDispatcherFactory<!Settings(==), !Url> {
    const net: Network<Settings, Url>
    const cache: BoundedAgentCache<string, Dispatcher>
    var settings: Settings
    var made: seq<Dispatcher>
    var directDispatcher: Option<Dispatcher>
    var madeDirect: seq<Dispatcher>
    var closedDirect: seq<Dispatcher>
    var epoch: nat

    constructor (net: Network<Settings, Url>, settings: Settings, maxCacheEntries: nat)
      ensures this.net == net && cache.maxEntries == maxCacheEntries && fresh(cache)
      ensures Value() == AfterSteps(net, settings, [], maxCacheEntries)
    {
      this.net := net;
      this.settings := settings;
      cache := new BoundedAgentCache(maxCacheEntries);
      made, directDispatcher, madeDirect, closedDirect, epoch := [], None, [], [], 0;
    }

    ghost function Value(): Factory<Settings>
      reads this, cache
    {
      Factory(settings, cache.Value(), made, directDispatcher, madeDirect, closedDirect, epoch)
    }

    method ResolveDirect() returns (r: Resolution)
      modifies this`directDispatcher, this`madeDirect
      ensures (Value(), r) == ResolvedDirect(old(Value()))
    {
      if directDispatcher.Some? {
        return Resolution(directDispatcher.value, None, false, true);
      }
      var dispatcher := Agent(|madeDirect|, Direct, epoch);
      madeDirect := madeDirect + [dispatcher];
      directDispatcher := Some(dispatcher);
      return Resolution(dispatcher, None, false, false);
    }

    method ResolveTarget(url: Option<Url>) returns (r: Result<Resolution>)
      modifies this`made, this`directDispatcher, this`madeDirect, cache
      ensures Value() == Resolved(net, old(Value()), url, cache.maxEntries).0
      ensures r == Resolved(net, old(Value()), url, cache.maxEntries).1
    {
      if url.None? {
        return Err(InvalidTargetUrl);
      }
      var targetProtocol := net.protocolOf(url.value);
      if targetProtocol !in {"http:", "https:"} {
        return Err(UnsupportedTargetProtocol(targetProtocol));
      }
      var proxyUrl := net.route(url.value, settings);
      if proxyUrl.None? || proxyUrl.value == "" {
        var direct := ResolveDirect();
        return Ok(direct);
      }
      var parsed := net.parse(proxyUrl.value);
      if parsed.None? {
        return Err(InvalidProxyUrl);
      }
      if parsed.value.protocol !in {"http:", "https:"} {
        return Err(UnsupportedProxyProtocol(parsed.value.protocol));
      }
      var key := parsed.value.href;
      var cached := cache.Get(key);
      if cached.Some? {
        return Ok(Resolution(cached.value, Some(key), true, true));
      }
      var dispatcher := Agent(|made|, Proxy(key), epoch);
      made := made + [dispatcher];
      cache.Set(key, dispatcher);
      return Ok(Resolution(dispatcher, Some(key), true, false));
    }

    method DestroyDispatchers()
      modifies this`directDispatcher, this`closedDirect, cache
      ensures Value() == Destroyed(old(Value()))
    {
      if directDispatcher.Some? {
        closedDirect := closedDirect + [directDispatcher.value];
        directDispatcher := None;
      }
      cache.Clear();
    }

    /** Also what reloading from the environment does with the settings it loaded. */
    method Update(newSettings: Settings)
      modifies this`settings, this`epoch, this`directDispatcher, this`closedDirect, cache
      ensures Value() == AfterStep(net, old(Value()), UpdateSettings(newSettings), cache.maxEntries)
    {
      settings := newSettings;
      epoch := epoch + 1;
      DestroyDispatchers();
    }
  }
}
