/** `ThreadLocalNameService`: the override resolution chain (thread-local
    explicit override, then hosts-file override, then genuine resolution) and
    the per-thread cache that memoises its results. */
module NameService {
  import opened Base

  /** What the resolver consults but does not implement, as seen from one
      thread at one moment. */
  datatype Environment = Environment(
    /** `OverrideNameServiceManager.hasIpForHost` / `getIpForHost`. */
    threadOverrides: map<string, string>,
    /** `HostsFileResolver.hasOverride` / `getOverride`. */
    hostsFile: map<string, string>,
    /** `TextToNumeric.convert`, which takes a possibly null text and returns
        possibly null bytes. */
    convert: Option<string> -> Option<Bytes>,
    /** `InetAddress.getByAddress`, for possibly null bytes. */
    byAddress: Option<Bytes> -> Result<InetAddress>,
    /** `InetAddress.getByName`. Unconstrained here; with this service
        installed as the provider it would re-enter `lookupAllHostAddr`. */
    byName: string -> Result<InetAddress>,
    /** `DNSJavaNameService.lookupAllHostAddr`: genuine resolution. */
    normalLookup: string -> Result<seq<InetAddress>>)

  // ---------------------------------------------------------------------
  // The cache loader

  /** `convertToInetAddress`: an override address becomes a one-element array
      holding the address built from the converted text; a failure of the
      address construction is passed on unchanged. */
  function ConvertToInetAddress(ipAddress: string, env: Environment): (r: Result<seq<InetAddress>>)
    ensures r.Ok? <==> env.byAddress(env.convert(Some(ipAddress))).Ok?
    ensures r.Ok? ==> |r.value| == 1 && env.byAddress(env.convert(Some(ipAddress))) == Ok(r.value[0])
    ensures r.Err? ==> env.byAddress(env.convert(Some(ipAddress))) == Err(r.error)
  {
    match env.byAddress(env.convert(Some(ipAddress)))
    case Ok(a) => Ok([a])
    case Err(e) => Err(e)
  }

  /** `CacheLoader.load`: the first source that knows `key` decides. An
      override always yields a single address. */
  function Load(key: string, env: Environment): (r: Result<seq<InetAddress>>)
    ensures (key in env.threadOverrides || key in env.hostsFile) && r.Ok? ==> |r.value| == 1
    ensures key !in env.threadOverrides && key !in env.hostsFile ==> r == env.normalLookup(key)
  {
    if key in env.threadOverrides then
      ConvertToInetAddress(env.threadOverrides[key], env)
    else if key in env.hostsFile then
      ConvertToInetAddress(env.hostsFile[key], env)
    else
      env.normalLookup(key)
  }

  /** An explicit thread-local override is used even when the hosts file also
      has an entry, and then neither the hosts file nor genuine resolution has
      any say in the result. */
  lemma ExplicitOverrideWins(key: string, env: Environment,
                             otherHosts: map<string, string>,
                             otherLookup: string -> Result<seq<InetAddress>>)
    requires key in env.threadOverrides
    ensures Load(key, env) == ConvertToInetAddress(env.threadOverrides[key], env)
    ensures Load(key, env) == Load(key, env.(hostsFile := otherHosts, normalLookup := otherLookup))
  {
  }

  /** The hosts file is consulted only when there is no explicit override;
      then it decides and genuine resolution has no say. */
  lemma HostsFileOnlyWithoutExplicitOverride(key: string, env: Environment,
                                             otherHosts: map<string, string>,
                                             otherLookup: string -> Result<seq<InetAddress>>)
    ensures key in env.threadOverrides ==>
              Load(key, env) == Load(key, env.(hostsFile := otherHosts))
    ensures key !in env.threadOverrides && key in env.hostsFile ==>
              Load(key, env) == ConvertToInetAddress(env.hostsFile[key], env)
              && Load(key, env) == Load(key, env.(normalLookup := otherLookup))
  {
  }

  /** With no override from either source, the loader returns exactly what
      genuine resolution returns, success or failure. */
  lemma NoOverrideIsNormalLookup(key: string, env: Environment)
    requires key !in env.threadOverrides && key !in env.hostsFile
    ensures Load(key, env) == env.normalLookup(key)
  {
  }

  /** A successful override result is a single address. */
  lemma OverrideYieldsOneAddress(key: string, env: Environment)
    requires key in env.threadOverrides || key in env.hostsFile
    requires Load(key, env).Ok?
    ensures |Load(key, env).value| == 1
  {
  }

  // ---------------------------------------------------------------------
  // Direct override lookup

  /** The `val` that `getOverride` computes: the explicit override's text,
      else the hosts file's, else null. */
  function OverrideText(hostname: string, env: Environment): (val: Option<string>)
    ensures hostname in env.threadOverrides ==> val == Some(env.threadOverrides[hostname])
    ensures hostname !in env.threadOverrides && hostname in env.hostsFile ==>
              val == Some(env.hostsFile[hostname])
    ensures val == None <==> hostname !in env.threadOverrides && hostname !in env.hostsFile
  {
    if hostname in env.threadOverrides then Some(env.threadOverrides[hostname])
    else if hostname in env.hostsFile then Some(env.hostsFile[hostname])
    else None
  }

  /** The loader and `getOverride` apply the same precedence: the loader
      converts exactly the text `getOverride` would pick, and resolves
      genuinely exactly when that text is null. */
  lemma LoadFollowsOverrideText(key: string, env: Environment)
    ensures OverrideText(key, env).Some? ==>
              Load(key, env) == ConvertToInetAddress(OverrideText(key, env).value, env)
    ensures OverrideText(key, env).None? ==> Load(key, env) == env.normalLookup(key)
  {
  }

  /** `getOverride`: a null host name is rejected before any source is
      consulted; otherwise the chosen text (possibly null) is converted. */
  function GetOverride(hostname: Option<string>, env: Environment): (r: Result<Option<Bytes>>)
    ensures hostname.None? ==> r == Err(UnknownHost("Null host string"))
    ensures hostname.Some? ==> r.Ok? && r.value == env.convert(OverrideText(hostname.value, env))
  {
    match hostname
    case None => Err(UnknownHost("Null host string"))
    case Some(h) => Ok(env.convert(OverrideText(h, env)))
  }

  /** The null-host failure does not depend on anything the environment
      holds: no source, converter or resolver is consulted. */
  lemma NullHostConsultsNothing(env1: Environment, env2: Environment)
    ensures GetOverride(None, env1) == GetOverride(None, env2)
    ensures GetOverride(None, env1).Err?
  {
  }

  /** With no override, `getOverride` hands null to the converter. */
  lemma NoOverrideConvertsNull(hostname: string, env: Environment)
    requires hostname !in env.threadOverrides && hostname !in env.hostsFile
    ensures GetOverride(Some(hostname), env) == Ok(env.convert(None))
  {
  }

  /** `getByName`: `InetAddress.getByName` when `getOverride` yields null bytes,
      the address built from the bytes otherwise; a null host name fails as
      in `getOverride`. */
  function GetByName(hostname: Option<string>, env: Environment): (r: Result<InetAddress>)
    ensures hostname.None? ==> r == Err(UnknownHost("Null host string"))
    ensures hostname.Some? && env.convert(OverrideText(hostname.value, env)).None? ==>
              r == env.byName(hostname.value)
    ensures hostname.Some? && env.convert(OverrideText(hostname.value, env)).Some? ==>
              r == env.byAddress(env.convert(OverrideText(hostname.value, env)))
  {
    match GetOverride(hostname, env)
    case Err(e) => Err(e)
    case Ok(val) =>
      if val.None? then env.byName(hostname.value) else env.byAddress(val)
  }

  /** When an override applies and its text converts, `getByName` and the
      loader agree: the loader's one-element array holds what `getByName`
      returns, and both fail alike. */
  lemma GetByNameAgreesWithLoad(hostname: string, env: Environment)
    requires OverrideText(hostname, env).Some?
    requires env.convert(OverrideText(hostname, env)).Some?
    ensures Load(hostname, env) == match GetByName(Some(hostname), env)
                                   case Ok(a) => Ok([a])
                                   case Err(e) => Err(e)
  {
  }

  /** An override whose text the converter rejects (returns null for) makes
      `getByName` call `InetAddress.getByName`, whereas the loader hands
      the null bytes to address construction. */
  lemma UnconvertibleOverrideFallsBack(hostname: string, env: Environment)
    requires OverrideText(hostname, env).Some?
    requires env.convert(OverrideText(hostname, env)) == None
    ensures GetByName(Some(hostname), env) == env.byName(hostname)
    ensures Load(hostname, env) == match env.byAddress(None)
                                   case Ok(a) => Ok([a])
                                   case Err(e) => Err(e)
  {
  }

  // ---------------------------------------------------------------------
  // isLocal

  /** The three address classes `InetAddress` can test for. */
  datatype AddressClasses = AddressClasses(
    isLinkLocal: InetAddress -> bool,
    isLoopback: InetAddress -> bool,
    isSiteLocal: InetAddress -> bool)

  /** `isLocal`: link-local, loopback or site-local. */
  function IsLocal(ip: InetAddress, classes: AddressClasses): (r: bool)
    ensures r <==> classes.isLinkLocal(ip) || classes.isLoopback(ip) || classes.isSiteLocal(ip)
  {
    classes.isLinkLocal(ip) || classes.isLoopback(ip) || classes.isSiteLocal(ip)
  }

  // ---------------------------------------------------------------------
  // The per-thread cache

  /** What `lookupAllHostAddr` reports for a load outcome: a failure reaches
      the caller as a `RuntimeException` wrapping the cache's
      `ExecutionException`. */
  function Reported(loaded: Result<seq<InetAddress>>): (r: Result<seq<InetAddress>>)
    ensures loaded.Ok? ==> r == loaded
    ensures loaded.Err? ==> r == Err(RuntimeExecution(loaded.error))
  {
    match loaded
    case Ok(v) => Ok(v)
    case Err(e) => Err(RuntimeExecution(e))
  }

  /** One `lookupAllHostAddr` against a cache: a hit returns the stored
      addresses; a miss runs the loader, stores a success under `hostname`
      and stores nothing for a failure. Returns the reported outcome and the
      new cache. */
  function CachedLookup(cache: map<string, seq<InetAddress>>, hostname: string, env: Environment)
    : (out: (Result<seq<InetAddress>>, map<string, seq<InetAddress>>))
    ensures hostname in cache ==> out == (Ok(cache[hostname]), cache)
    ensures hostname !in cache ==> out.0 == Reported(Load(hostname, env))
    ensures hostname !in cache && out.0.Ok? ==> out.1 == cache[hostname := out.0.value]
    ensures out.0.Err? ==> out.1 == cache
    ensures out.0.Ok? ==> hostname in out.1 && out.1[hostname] == out.0.value
    ensures forall k :: k != hostname ==> (k in out.1 <==> k in cache)
    ensures forall k :: k != hostname && k in cache ==> out.1[k] == cache[k]
  {
    if hostname in cache then (Ok(cache[hostname]), cache)
    else
      match Load(hostname, env)
      case Ok(v) => (Ok(v), cache[hostname := v])
      case Err(e) => (Err(RuntimeExecution(e)), cache)
  }

  /** Every cached entry is what the loader produces for its key under
      `env`: the cache holds nothing the chain would not compute. */
  ghost predicate Coherent(cache: map<string, seq<InetAddress>>, env: Environment)
  {
    forall k :: k in cache ==> Load(k, env) == Ok(cache[k])
  }

  /** Once a lookup has succeeded, looking the same name up again returns the
      same addresses without running the chain (whatever the sources say by
      then), and leaves the cache as it is. */
  lemma RepeatLookupIsCacheHit(cache: map<string, seq<InetAddress>>, hostname: string,
                                                  env: Environment, later: Environment)
    requires CachedLookup(cache, hostname, env).0.Ok?
    ensures var (r1, c1) := CachedLookup(cache, hostname, env);
            CachedLookup(c1, hostname, later) == (r1, c1)
  {
  }

  /** Caching is transparent while the sources stay as they were: on a
      coherent cache a lookup reports exactly what the uncached chain would,
      and the cache stays coherent. */
  lemma CachedLookupIsTransparent(cache: map<string, seq<InetAddress>>,
                                                     hostname: string, env: Environment)
    requires Coherent(cache, env)
    ensures CachedLookup(cache, hostname, env).0 == Reported(Load(hostname, env))
    ensures Coherent(CachedLookup(cache, hostname, env).1, env)
  {
  }

  /** A run of lookups, one name after another, on one thread. */
  function RunLookups(cache: map<string, seq<InetAddress>>, hostnames: seq<string>, env: Environment)
    : (out: (seq<Result<seq<InetAddress>>>, map<string, seq<InetAddress>>))
    ensures |out.0| == |hostnames|
    decreases |hostnames|
  {
    if hostnames == [] then ([], cache)
    else
      var (r, c) := CachedLookup(cache, hostnames[0], env);
      var (rs, c') := RunLookups(c, hostnames[1..], env);
      ([r] + rs, c')
  }

  /** From an empty (or any coherent) cache, every lookup in a run reports
      exactly what the uncached chain computes, and the cache ends coherent. */
  lemma {:induction false} RunLookupsIsTransparent(cache: map<string, seq<InetAddress>>,
                                                   hostnames: seq<string>, env: Environment)
    requires Coherent(cache, env)
    ensures forall i :: 0 <= i < |hostnames| ==>
              RunLookups(cache, hostnames, env).0[i] == Reported(Load(hostnames[i], env))
    ensures Coherent(RunLookups(cache, hostnames, env).1, env)
    decreases |hostnames|
  {
    if hostnames != [] {
      CachedLookupIsTransparent(cache, hostnames[0], env);
      var (r, c) := CachedLookup(cache, hostnames[0], env);
      RunLookupsIsTransparent(c, hostnames[1..], env);
      var out := RunLookups(cache, hostnames, env);
      forall i | 0 <= i < |hostnames|
        ensures out.0[i] == Reported(Load(hostnames[i], env))
      {
        if i > 0 {
          assert hostnames[i] == hostnames[1..][i - 1];
        }
      }
    }
  }

  /** The resolver as one thread sees it: its own cache of successful
      lookups, starting empty and never evicted. */
  class ThreadLocalNameService {
    var cache: map<string, seq<InetAddress>>

    constructor ()
      ensures cache == map[]
    {
      cache := map[];
    }

    /** `lookupAllHostAddr`: the cached entry if there is one, else the
        loader's outcome, stored when it is a success. */
    method LookupAllHostAddr(hostname: string, env: Environment) returns (r: Result<seq<InetAddress>>)
      modifies this
      ensures (r, cache) == CachedLookup(old(cache), hostname, env)
      ensures hostname in old(cache) ==> r == Ok(old(cache)[hostname]) && cache == old(cache)
      ensures Coherent(old(cache), env) ==> r == Reported(Load(hostname, env)) && Coherent(cache, env)
    {
      if hostname in cache {
        r := Ok(cache[hostname]);
      } else {
        var loaded := Load(hostname, env);
        match loaded {
          case Ok(v) =>
            cache := cache[hostname := v];
            r := Ok(v);
          case Err(e) =>
            r := Err(RuntimeExecution(e));
        }
      }
      if Coherent(old(cache), env) {
        CachedLookupIsTransparent(old(cache), hostname, env);
      }
    }
  }
}
