/** The proxy agent factory: routing through a bounded cache of agents it owns. */
module ProxyAgents {
  import opened Common
  import opened OrderedMap
  import opened AgentCache
  import opened CacheOwner

  /** The protocol of a parsed URL: a scheme and a colon, so it holds no '|'. */
  type Protocol = p: string | '|' !in p witness "http:"

  datatype Kind = Socks | Pac | Http | Https

  /** What an agent is built from, and the agent class this selects. */
  datatype Spec = Spec(proxyUrl: string, protocol: Protocol, kind: Kind)

  /** The routing rules and the URL parser; parseProtocol fails on what is not a URL. */
  datatype Network<!Settings, !Url> = Network(
    route: (Url, Settings) -> Option<string>,
    protocolOf: Url -> Protocol,
    parseProtocol: string -> Option<string>)

  datatype Resolution = Resolution(agent: Option<Agent<Spec>>, proxyUrl: Option<string>, viaProxy: bool,
                                   fromCache: bool)

  datatype Factory<Settings> = Factory(settings: Settings, cache: Cache<Spec>, made: seq<Agent<Spec>>, epoch: nat)

  const DIRECT := Resolution(None, None, false, false)

  function CacheKey(proxyUrl: string, protocol: Protocol): string {
    proxyUrl + "|" + protocol
  }

  function KeyOf(spec: Spec): string {
    CacheKey(spec.proxyUrl, spec.protocol)
  }

  /** The selection of an agent class, with its three errors. */
  function AgentKind(proxyProtocol: Option<string>, protocol: Protocol): Result<Kind> {
    if protocol !in {"http:", "https:", "ws:", "wss:"} then Err(UnsupportedTargetProtocol(protocol))
    else if proxyProtocol.None? then Err(InvalidProxyUrl)
    else if proxyProtocol.value in {"socks:", "socks4:", "socks4a:", "socks5:", "socks5h:"} then Ok(Socks)
    else if proxyProtocol.value in {"pac+http:", "pac+https:", "pac+file:", "pac+data:"} then Ok(Pac)
    else if proxyProtocol.value in {"http:", "https:"} then
      Ok(if protocol == "http:" || protocol == "ws:" then Http else Https)
    else Err(UnsupportedProxyProtocol(proxyProtocol.value))
  }

  /** Routing without a cache: an error, a direct connection, or what agent to build. */
  function Uncached<Settings, Url>(net: Network<Settings, Url>, settings: Settings,
                                   url: Option<Url>): Result<Option<Spec>> {
    match url
    case None => Err(InvalidTargetUrl)
    case Some(target) =>
      match net.route(target, settings)
      case None => Ok(None)
      case Some(proxyUrl) =>
        if proxyUrl == "" then Ok(None)
        else
          match AgentKind(net.parseProtocol(proxyUrl), net.protocolOf(target))
          case Err(error) => Err(error)
          case Ok(kind) => Ok(Some(Spec(proxyUrl, net.protocolOf(target), kind)))
  }

  function Resolved<Settings, Url>(net: Network<Settings, Url>, s: Factory<Settings>, url: Option<Url>,
                                   maxEntries: nat):
    (Factory<Settings>, Result<Resolution>)
  {
    match url
    case None => (s, Err(InvalidTargetUrl))
    case Some(target) =>
      match net.route(target, s.settings)
      case None => (s, Ok(DIRECT))
      case Some(proxyUrl) => if proxyUrl == "" then (s, Ok(DIRECT))
          else Proxied(net, s, proxyUrl, net.protocolOf(target), maxEntries)
  }

  function Proxied<Settings, Url>(net: Network<Settings, Url>, s: Factory<Settings>, proxyUrl: string,
                                  protocol: Protocol, maxEntries: nat):
    (Factory<Settings>, Result<Resolution>)
  {
    var key := CacheKey(proxyUrl, protocol);
    match Find(s.cache.store, key)
    case Some(agent) => (s.(cache := AfterGet(s.cache, key)), Ok(Resolution(Some(agent), Some(proxyUrl), true, true)))
    case None =>
      match AgentKind(net.parseProtocol(proxyUrl), protocol)
      case Err(error) => (s, Err(error))
      case Ok(kind) =>
        var agent := Agent(|s.made|, Spec(proxyUrl, protocol, kind), s.epoch);
        (s.(cache := AfterSet(s.cache, key, agent, maxEntries), made := s.made + [agent]),
         Ok(Resolution(Some(agent), Some(proxyUrl), true, false)))
  }

  function AfterStep<Settings, Url>(net: Network<Settings, Url>, s: Factory<Settings>, step: Step<Settings, Url>,
                                    maxEntries: nat): Factory<Settings> {
    match step
    case Resolve(url) => Resolved(net, s, url, maxEntries).0
    case UpdateSettings(settings) => s.(settings := settings, cache := AfterClear(s.cache), epoch := s.epoch + 1)
    case Destroy => s.(cache := AfterClear(s.cache))
  }

  function AfterSteps<Settings, Url>(net: Network<Settings, Url>, settings: Settings, steps: seq<Step<Settings, Url>>,
                                     maxEntries: nat): Factory<Settings> {
    if steps == [] then Factory(settings, State([], []), [], 0)
    else AfterStep(net, AfterSteps(net, settings, steps[..|steps| - 1], maxEntries), steps[|steps| - 1], maxEntries)
  }

  /** A target protocol holds no '|', so the joined key determines both of its parts. */
  lemma CacheKeyInjective(proxyUrl: string, protocol: Protocol, otherUrl: string, otherProtocol: Protocol)
    requires CacheKey(proxyUrl, protocol) == CacheKey(otherUrl, otherProtocol)
    ensures proxyUrl == otherUrl && protocol == otherProtocol
  {
    LastPart('|', proxyUrl, protocol, otherUrl, otherProtocol);
  }

  /** Agents are filed by proxy URL and target protocol, and are of the class these call for. */
  function AgentFiling<Settings, Url>(net: Network<Settings, Url>): Filing<Spec> {
    Filing(KeyOf, (spec: Spec) => AgentKind(net.parseProtocol(spec.proxyUrl), spec.protocol) == Ok(spec.kind))
  }

  ghost predicate Inv<Settings, Url>(net: Network<Settings, Url>, s: Factory<Settings>, maxEntries: nat) {
    Owned(s.cache, s.made, s.epoch, AgentFiling(net), maxEntries)
  }

  /** What resolve promises its caller. */
  ghost predicate Serves(r: Result<Resolution>, uncached: Result<Option<Spec>>, s: Factory, after: Factory) {
    match uncached
    case Err(error) => r == Err(error) && after == s
    case Ok(None) => r == Ok(DIRECT) && after == s
    case Ok(Some(spec)) =>
      r.Ok? && r.value.agent.Some? && ServesAgent(r.value, r.value.agent.value, spec, s, after)
  }

  ghost predicate ServesAgent(r: Resolution, agent: Agent<Spec>, spec: Spec, s: Factory, after: Factory) {
    && r.proxyUrl == Some(spec.proxyUrl) && r.viaProxy
    && agent.spec == spec && agent.epoch == s.epoch && agent !in after.cache.evicted
    && (r.fromCache <==> agent.id < |s.made|)
  }

  lemma ProxiedIsSafe<Settings, Url>(net: Network<Settings, Url>, s: Factory<Settings>, proxyUrl: string,
                                     protocol: Protocol, maxEntries: nat)
    requires Inv(net, s, maxEntries)
    ensures var (after, r) := Proxied(net, s, proxyUrl, protocol, maxEntries);
            && Inv(net, after, maxEntries)
            && match AgentKind(net.parseProtocol(proxyUrl), protocol)
               case Err(error) => r == Err(error) && after == s
               case Ok(kind) =>
                 r.Ok? && r.value.agent.Some?
                 && ServesAgent(r.value, r.value.agent.value, Spec(proxyUrl, protocol, kind), s, after)
  {
    var key := CacheKey(proxyUrl, protocol);
    var filing := AgentFiling(net);
    HitIsSafe(s.cache, s.made, s.epoch, filing, maxEntries, key);
    match Find(s.cache.store, key)
    case Some(agent) =>
      CacheKeyInjective(proxyUrl, protocol, agent.spec.proxyUrl, agent.spec.protocol);
    case None =>
      match AgentKind(net.parseProtocol(proxyUrl), protocol)
      case Err(_) =>
      case Ok(kind) => InsertIsSafe(s.cache, s.made, s.epoch, filing, maxEntries,
                                    Agent(|s.made|, Spec(proxyUrl, protocol, kind), s.epoch));
  }

  lemma ResolvedIsSafe<Settings, Url>(net: Network<Settings, Url>, s: Factory<Settings>, url: Option<Url>,
                                      maxEntries: nat)
    requires Inv(net, s, maxEntries)
    ensures var (after, r) := Resolved(net, s, url, maxEntries);
            Inv(net, after, maxEntries) && Serves(r, Uncached(net, s.settings, url), s, after)
  {
    if url.Some? {
      var proxyUrl := net.route(url.value, s.settings);
      if proxyUrl.Some? && proxyUrl.value != "" {
        var protocol := net.protocolOf(url.value);
        ProxiedIsSafe(net, s, proxyUrl.value, protocol, maxEntries);
        assert Resolved(net, s, url, maxEntries) == Proxied(net, s, proxyUrl.value, protocol, maxEntries);
      } else {
        assert Resolved(net, s, url, maxEntries).0 == s;
      }
    }
  }

  lemma ClearedKeepsInv<Settings, Url>(net: Network<Settings, Url>, s: Factory<Settings>, t: Factory<Settings>,
                                       maxEntries: nat)
    requires Inv(net, s, maxEntries) && t.cache == AfterClear(s.cache) && t.made == s.made
    ensures Inv(net, t, maxEntries)
    ensures multiset(t.cache.evicted) == multiset(t.made) <==> maxEntries > 0 || t.made == []
  {
    ClearIsSafe(s.cache, s.made, s.epoch, t.epoch, AgentFiling(net), maxEntries);
  }

  lemma StepKeepsInv<Settings, Url>(net: Network<Settings, Url>, s: Factory<Settings>, step: Step<Settings, Url>,
                                    maxEntries: nat)
    requires Inv(net, s, maxEntries)
    ensures Inv(net, AfterStep(net, s, step, maxEntries), maxEntries)
  {
    if step.Resolve? {
      ResolvedIsSafe(net, s, step.url, maxEntries);
    } else {
      ClearedKeepsInv(net, s, AfterStep(net, s, step, maxEntries), maxEntries);
    }
  }

  lemma InitialInv<Settings, Url>(net: Network<Settings, Url>, settings: Settings, maxEntries: nat)
    ensures Inv(net, AfterSteps<Settings, Url>(net, settings, [], maxEntries), maxEntries)
  {
    assert LruInv<string, Agent<Spec>>([], [], maxEntries);
  }

  lemma {:induction false} StepsKeepInv<Settings, Url>(net: Network<Settings, Url>, settings: Settings,
                                                       steps: seq<Step<Settings, Url>>, maxEntries: nat)
    ensures Inv(net, AfterSteps(net, settings, steps, maxEntries), maxEntries)
  {
    if steps == [] {
      InitialInv(net, settings, maxEntries);
    } else {
      var before := AfterSteps(net, settings, steps[..|steps| - 1], maxEntries);
      StepsKeepInv(net, settings, steps[..|steps| - 1], maxEntries);
      StepKeepsInv(net, before, steps[|steps| - 1], maxEntries);
      assert AfterSteps(net, settings, steps, maxEntries) == AfterStep(net, before, steps[|steps| - 1], maxEntries);
    }
  }

  lemma {:induction false} CurrentSettings<Settings, Url>(net: Network<Settings, Url>, settings: Settings,
                                                          steps: seq<Step<Settings, Url>>, maxEntries: nat)
    ensures var s := AfterSteps(net, settings, steps, maxEntries); (s.settings, s.epoch) == Installed(settings, steps)
  {
    if steps != [] {
      CurrentSettings(net, settings, steps[..|steps| - 1], maxEntries);
    }
  }

  /**
   * Whatever happened before, resolve routes as the current settings do without a
   * cache, error for error, with an agent built for that proxy and target protocol;
   * the agent has not been cleaned up and is not older than the current settings.
   */
  lemma {:induction false} CachedRoutingIsTransparent<Settings, Url>(net: Network<Settings, Url>, settings: Settings,
                                                  steps: seq<Step<Settings, Url>>,
                                                  maxEntries: nat, url: Option<Url>)
    ensures var s := AfterSteps(net, settings, steps, maxEntries);
            var (after, r) := Resolved(net, s, url, maxEntries);
            var (current, updates) := Installed(settings, steps);
            && Serves(r, Uncached(net, current, url), s, after)
            && (r.Ok? && r.value.agent.Some? ==> r.value.agent.value.epoch == updates)
  {
    CurrentSettings(net, settings, steps, maxEntries);
    StepsKeepInv(net, settings, steps, maxEntries);
    ResolvedIsSafe(net, AfterSteps(net, settings, steps, maxEntries), url, maxEntries);
  }

  /** The class of agent for a target through a proxy, read off the two protocols. */
  ghost predicate RightClass(kind: Kind, proxyProtocol: string, protocol: string) {
    && (kind == Socks <==> proxyProtocol in {"socks:", "socks4:", "socks4a:", "socks5:", "socks5h:"})
    && (kind == Pac <==> proxyProtocol in {"pac+http:", "pac+https:", "pac+file:", "pac+data:"})
    && (kind == Http <==> proxyProtocol in {"http:", "https:"} && protocol in {"http:", "ws:"})
    && (kind == Https <==> proxyProtocol in {"http:", "https:"} && protocol in {"https:", "wss:"})
  }

  ghost predicate KnownProxy(proxyProtocol: string) {
    proxyProtocol in {"socks:", "socks4:", "socks4a:", "socks5:", "socks5h:", "pac+http:", "pac+https:", "pac+file:",
                      "pac+data:", "http:", "https:"}
  }

  /** What resolve answers, read off the target, its route and the protocols. */
  ghost predicate Routed<Settings, Url>(net: Network<Settings, Url>, current: Settings, url: Option<Url>,
                                        r: Result<Resolution>) {
    if url.None? then r == Err(InvalidTargetUrl)
    else
      var protocol, route := net.protocolOf(url.value), net.route(url.value, current);
      if route.None? || route.value == "" then r == Ok(Resolution(None, None, false, false))
      else
        var proxyProtocol := net.parseProtocol(route.value);
        if protocol !in {"http:", "https:", "ws:", "wss:"} then r == Err(UnsupportedTargetProtocol(protocol))
        else if proxyProtocol.None? then r == Err(InvalidProxyUrl)
        else if !KnownProxy(proxyProtocol.value) then r == Err(UnsupportedProxyProtocol(proxyProtocol.value))
        else
          && r.Ok? && r.value.agent.Some? && r.value.proxyUrl == route && r.value.viaProxy
          && r.value.agent.value.spec.proxyUrl == route.value && r.value.agent.value.spec.protocol == protocol
          && RightClass(r.value.agent.value.spec.kind, proxyProtocol.value, protocol)
  }

  /**
   * After any run, resolve answers as the current settings route the target: directly, with one
   * of the three errors exactly on its input, or with an agent for that proxy and target of the
   * class their protocols call for.
   */
  lemma {:induction false} RoutingIsRight<Settings, Url>(net: Network<Settings, Url>, settings: Settings,
                                      steps: seq<Step<Settings, Url>>, maxEntries: nat, url: Option<Url>)
    ensures var s := AfterSteps(net, settings, steps, maxEntries);
            Routed(net, Installed(settings, steps).0, url, Resolved(net, s, url, maxEntries).1)
  {
    CachedRoutingIsTransparent(net, settings, steps, maxEntries, url);
  }

  /**
   * No agent is cleaned up twice, ever. After a destroy or an update of the settings
   * exactly the agents ever created have been cleaned up, if and only if the factory
   * caches at all or never created one: with a limit of zero none ever is.
   */
  lemma {:induction false} AgentsAreDisposedOnce<Settings, Url>(net: Network<Settings, Url>, settings: Settings,
                                             steps: seq<Step<Settings, Url>>, maxEntries: nat,
                                             agent: Agent<Spec>)
    ensures var s := AfterSteps(net, settings, steps, maxEntries);
            && multiset(s.cache.evicted)[agent] <= 1
            && (steps != [] && !steps[|steps| - 1].Resolve? ==>
                  (multiset(s.cache.evicted) == multiset(s.made) <==> maxEntries > 0 || s.made == []))
  {
    var s := AfterSteps(net, settings, steps, maxEntries);
    StepsKeepInv(net, settings, steps, maxEntries);
    DisposedOnce(s.cache, s.made, maxEntries, agent);
    if steps != [] {
      var before, step := AfterSteps(net, settings, steps[..|steps| - 1], maxEntries), steps[|steps| - 1];
      StepsKeepInv(net, settings, steps[..|steps| - 1], maxEntries);
      assert s == AfterStep(net, before, step, maxEntries);
      if !step.Resolve? {
        ClearedKeepsInv(net, before, s, maxEntries);
      }
    }
  }

  class ProxyAgentFactory<!Settings(==), !Url> {
    const net: Network<Settings, Url>
    const cache: BoundedAgentCache<string, Agent<Spec>>
    var settings: Settings
    /** The agents created so far; the position of an agent is its identity. */
    var made: seq<Agent<Spec>>
    var epoch: nat

    constructor (net: Network<Settings, Url>, settings: Settings, maxCacheEntries: nat)
      ensures this.net == net && cache.maxEntries == maxCacheEntries && fresh(cache)
      ensures Value() == AfterSteps(net, settings, [], maxCacheEntries)
    {
      this.net := net;
      this.settings := settings;
      cache := new BoundedAgentCache(maxCacheEntries);
      made, epoch := [], 0;
    }

    ghost function Value(): Factory<Settings>
      reads this, cache
    {
      Factory(settings, cache.Value(), made, epoch)
    }

    method ResolveTarget(url: Option<Url>) returns (r: Result<Resolution>)
      modifies this`made, cache
      ensures Value() == Resolved(net, old(Value()), url, cache.maxEntries).0
      ensures r == Resolved(net, old(Value()), url, cache.maxEntries).1
    {
      if url.None? {
        return Err(InvalidTargetUrl);
      }
      var proxyUrl := net.route(url.value, settings);
      if proxyUrl.None? || proxyUrl.value == "" {
        return Ok(DIRECT);
      }
      var protocol := net.protocolOf(url.value);
      var key := CacheKey(proxyUrl.value, protocol);
      var cached := cache.Get(key);
      if cached.Some? {
        return Ok(Resolution(cached, proxyUrl, true, true));
      }
      var kind := AgentKind(net.parseProtocol(proxyUrl.value), protocol);
      if kind.Err? {
        return Err(kind.error);
      }
      var agent := Agent(|made|, Spec(proxyUrl.value, protocol, kind.value), epoch);
      made := made + [agent];
      cache.Set(key, agent);
      return Ok(Resolution(Some(agent), proxyUrl, true, false));
    }

    method DestroyAgents()
      modifies cache
      ensures Value() == AfterStep<Settings, Url>(net, old(Value()), Destroy, cache.maxEntries)
    {
      cache.Clear();
    }

    /** Also what reloading from the environment does with the settings it loaded. */
    method Update(newSettings: Settings)
      modifies this`settings, this`epoch, cache
      ensures Value() == AfterStep(net, old(Value()), UpdateSettings(newSettings), cache.maxEntries)
    {
      settings := newSettings;
      epoch := epoch + 1;
      DestroyAgents();
    }
  }
}
