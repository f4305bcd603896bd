# thread-local-dns, modelled in Dafny

This project models the core of thread-local-dns. The library lets a Java
process override host-name resolution for chosen hosts, one thread family at
a time. Each overridden name goes to a configured test address, and every
other name still gets genuine DNS resolution. The model covers five parts:

- **The resolution chain** of `ThreadLocalNameService`. The thread's explicit
  override is tried first, then the hosts-file override, then genuine
  resolution. The first source that knows the name decides. An override
  yields a one-element address array.
- **The per-thread cache** in front of that chain. `lookupAllHostAddr`
  returns a cached entry when there is one. Otherwise it runs the chain and
  stores a successful result. A failure comes back as a `RuntimeException`
  that wraps the cache's `ExecutionException`.
- **`getOverride` / `getByName`**. `getOverride` is a direct override lookup
  that rejects a null host name. `getByName` calls
  `InetAddress.getByName` when `getOverride` yields null bytes.
- **`ThreadLocalDns`**:
  - the one-time global `initialize`, guarded by the `initialized` flag;
  - the ordered setup steps of the task that `executeContext` submits;
  - the factory that names worker threads `ThreadLocalDnsWorker-<n>`, where
    `n` comes from a 32-bit counter that wraps around.
- **`IpToHostsMapping`**: an (IP, hosts) pair with structural
  equality.

Files, one module each:

- `base.dfy` (`Base`): Java null as `Option`, exceptions as `Result`/`Failure`,
  addresses as `InetAddress` values.
- `ip_to_hosts_mapping.dfy` (`Mapping`): `IpToHostsMapping`.
- `thread_local_name_service.dfy` (`NameService`): the loader, `getOverride`,
  `getByName`, `isLocal`, and the cache. The cache is the class
  `ThreadLocalNameService`, whose `cache` field the lookup method updates.
- `java_int.dfy` (`JavaInt`): Java `int` wrap-around and `Integer.toString`,
  with the proof that distinct values have distinct decimal texts.
- `thread_local_dns.dfy` (`Dns`): `ThreadLocalDns` and its thread factory.

The resolver calls several collaborators whose code is not part of this
model. They become inputs, bundled in `NameService.Environment`:

- `OverrideNameServiceManager` and `HostsFileResolver` become two read-only
  maps from host name to IP text.
- `TextToNumeric.convert`, `InetAddress.getByAddress`, `InetAddress.getByName`
  and DNSJava's genuine `lookupAllHostAddr` become function-valued fields.
  The model gives them no rules of its own.

Three behaviours of the code are worth stating plainly:

- Failed loads are not stored. Guava's `LoadingCache` keeps no entry for a
  load that threw, so a later lookup of the same name runs the chain again.
- A null host name in `getOverride` raises
  `UnknownHostException("Null host string")`.
- In the context task, the name service is registered and its cache
  initialised before `validate` runs. A validation failure is only logged,
  and the context's own code does not run.

## Model

| member | source | states |
|---|---|---|
| `Mapping.NewEmpty` | src/main/java/com/hystericalporpoises/dns/IpToHostsMapping.java:17-21 | the no-argument constructor yields a null IP and an empty host list, as read through the getters |
| `Mapping.New` | src/main/java/com/hystericalporpoises/dns/IpToHostsMapping.java:23-26 | the two-argument constructor stores exactly the given IP and host list: the getters give them back |
| `Mapping.GetIpAddress` | src/main/java/com/hystericalporpoises/dns/IpToHostsMapping.java:28 | returns the stored IP unchanged, null included |
| `Mapping.GetHosts` | src/main/java/com/hystericalporpoises/dns/IpToHostsMapping.java:30 | returns a list of the same length with the same element at every index; as a value copy, it cannot change the mapping |
| `Mapping.RebuildFromGetters` | src/main/java/com/hystericalporpoises/dns/IpToHostsMapping.java:23-30 | building a mapping from its own getters' results gives back the same mapping, so IP and hosts are all of its state |
| `Mapping.Equals` | src/main/java/com/hystericalporpoises/dns/IpToHostsMapping.java:32-34 | `equals` holds exactly when the other object is a mapping with the same IP and the same host list; null and other types are unequal |
| `Mapping.EqualsIsEquivalence` | src/main/java/com/hystericalporpoises/dns/IpToHostsMapping.java:32-34 | `equals` is reflexive, symmetric and transitive, and false for null |
| `Mapping.HashCode` | src/main/java/com/hystericalporpoises/dns/IpToHostsMapping.java:36-38 | no contract of its own: the hash is some function of the two properties; its agreement with `equals` is stated by `HashCodeConsistentWithEquals` |
| `Mapping.HashCodeConsistentWithEquals` | src/main/java/com/hystericalporpoises/dns/IpToHostsMapping.java:32-38 | mappings that are `equals` have equal hash codes |
| `NameService.ConvertToInetAddress` | src/main/java/com/hystericalporpoises/dns/ThreadLocalNameService.java:47-52 | success exactly when building the address from the converted IP text succeeds; the array then has length 1 and holds that address; otherwise the construction's exception is passed on |
| `NameService.Load` | src/main/java/com/hystericalporpoises/dns/ThreadLocalNameService.java:29-45 | a successful override load yields one address, and with no override the result is exactly `normalLookup`'s; the full precedence is stated by `ExplicitOverrideWins`, `HostsFileOnlyWithoutExplicitOverride`, `NoOverrideIsNormalLookup`, `OverrideYieldsOneAddress` and `LoadFollowsOverrideText` |
| `NameService.ExplicitOverrideWins` | src/main/java/com/hystericalporpoises/dns/ThreadLocalNameService.java:29-35 | with an explicit thread-local override, the loader converts that override's IP; replacing the hosts file or genuine resolution does not change the result |
| `NameService.HostsFileOnlyWithoutExplicitOverride` | src/main/java/com/hystericalporpoises/dns/ThreadLocalNameService.java:36-40 | the hosts file has no effect when an explicit override exists; without one, a hosts entry decides and genuine resolution has no say |
| `NameService.NoOverrideIsNormalLookup` | src/main/java/com/hystericalporpoises/dns/ThreadLocalNameService.java:41-44 | when neither source knows the name, the loader returns exactly genuine resolution's result, success or failure |
| `NameService.OverrideYieldsOneAddress` | src/main/java/com/hystericalporpoises/dns/ThreadLocalNameService.java:29-52 | a successful load of an overridden name yields exactly one address |
| `NameService.OverrideText` | src/main/java/com/hystericalporpoises/dns/ThreadLocalNameService.java:85-91 | `getOverride` picks the explicit override's text if present, else the hosts file's, and is null exactly when neither source knows the name |
| `NameService.LoadFollowsOverrideText` | src/main/java/com/hystericalporpoises/dns/ThreadLocalNameService.java:29-44 | the loader and `getOverride` use the same precedence: the loader converts the text `getOverride` picks, and resolves genuinely exactly when that text is null |
| `NameService.GetOverride` | src/main/java/com/hystericalporpoises/dns/ThreadLocalNameService.java:79-93 | a null host name raises `UnknownHostException("Null host string")`; otherwise returns the conversion of the chosen, possibly null, text |
| `NameService.NullHostConsultsNothing` | src/main/java/com/hystericalporpoises/dns/ThreadLocalNameService.java:81-83 | the null-host failure is the same whatever the sources, converter and resolvers hold: none of them is consulted |
| `NameService.NoOverrideConvertsNull` | src/main/java/com/hystericalporpoises/dns/ThreadLocalNameService.java:85-92 | with no override in either source, the converter is handed null |
| `NameService.GetByName` | src/main/java/com/hystericalporpoises/dns/ThreadLocalNameService.java:100-106 | fails on a null name as `getOverride` does; calls `InetAddress.getByName` exactly when the override bytes are null, and otherwise the address built from those bytes |
| `NameService.GetByNameAgreesWithLoad` | src/main/java/com/hystericalporpoises/dns/ThreadLocalNameService.java:100-105 | for an override whose text converts, the loader's one-element array holds what `getByName` returns, and the two fail alike |
| `NameService.UnconvertibleOverrideFallsBack` | src/main/java/com/hystericalporpoises/dns/ThreadLocalNameService.java:100-105 | for an override whose text the converter turns into null, `getByName` calls `InetAddress.getByName`, while the loader builds its address from null bytes |
| `NameService.IsLocal` | src/main/java/com/hystericalporpoises/dns/ThreadLocalNameService.java:59-62 | an address is local exactly when it is link-local, loopback or site-local |
| `NameService.Reported` | src/main/java/com/hystericalporpoises/dns/ThreadLocalNameService.java:115-120 | a successful load is returned as is; a failed load surfaces as a `RuntimeException` wrapping the failure |
| `NameService.CachedLookup` | src/main/java/com/hystericalporpoises/dns/ThreadLocalNameService.java:113-121 | a hit returns the stored entry and changes nothing; a miss reports the loader's outcome, stores a success under the name and stores nothing on failure; other names' entries are untouched |
| `NameService.RepeatLookupIsCacheHit` | src/main/java/com/hystericalporpoises/dns/ThreadLocalNameService.java:23-26 | after a successful lookup, a repeat lookup of that name returns the same addresses and the same cache, whatever the sources say by then |
| `NameService.CachedLookupIsTransparent` | src/main/java/com/hystericalporpoises/dns/ThreadLocalNameService.java:113-121 | on a cache whose every entry is what the chain computes, a lookup reports exactly what the uncached chain would, and the cache keeps that property |
| `NameService.RunLookupsIsTransparent` | src/main/java/com/hystericalporpoises/dns/ThreadLocalNameService.java:113-121 | starting from such a cache (the empty one included), every lookup in a sequence reports what the uncached chain computes for its name |
| `NameService.ThreadLocalNameService.constructor` | src/main/java/com/hystericalporpoises/dns/ThreadLocalNameService.java:23-26 | a thread's cache starts empty |
| `NameService.ThreadLocalNameService.LookupAllHostAddr` | src/main/java/com/hystericalporpoises/dns/ThreadLocalNameService.java:113-121 | the returned value and the new cache are those of `CachedLookup`; a hit leaves the cache unchanged; on a coherent cache the result is what the uncached chain reports, and coherence is kept |
| `JavaInt.IncrementCounts` | src/main/java/com/theotherian/dns/ThreadLocalDns.java:88-92 | a counter that starts at 0 and is incremented with 32-bit wrap-around holds the truncation of the number of increments |
| `JavaInt.Increment` | src/main/java/com/theotherian/dns/ThreadLocalDns.java:92 | adding one to an `int` gives the 32-bit two's-complement truncation of the sum, so `MAX_VALUE` wraps to `MIN_VALUE` |
| `JavaInt.ToString` | src/main/java/com/theotherian/dns/ThreadLocalDns.java:92 | the decimal text is non-empty and starts with a minus sign exactly for negative values; `ToStringInjective` states that distinct values give distinct texts |
| `JavaInt.DigitsInjective` | src/main/java/com/theotherian/dns/ThreadLocalDns.java:92 | different magnitudes have different digit strings |
| `JavaInt.ToStringInjective` | src/main/java/com/theotherian/dns/ThreadLocalDns.java:92 | different `int` values have different decimal texts |
| `Dns.EmptyConfiguration` | src/main/java/com/theotherian/dns/ThreadLocalDns.java:60 | the configuration from a fresh builder holds no mappings |
| `Dns.ProviderValue` | src/main/java/com/theotherian/dns/ThreadLocalDns.java:74 | the value is the descriptor's type, then a comma, then the provider name; `ProviderValueSplits` states that both parts can be read back |
| `Dns.ProviderValueSplits` | src/main/java/com/theotherian/dns/ThreadLocalDns.java:73-75 | the provider value is the type, a comma, then the provider name: splitting it at the first comma gives both back when the type has no comma |
| `Dns.ThreadLocalDns.constructor` | src/main/java/com/theotherian/dns/ThreadLocalDns.java:23 | the process starts uninitialised with no name service registered |
| `Dns.ThreadLocalDns.Initialize` | src/main/java/com/theotherian/dns/ThreadLocalDns.java:70-84 | the first call sets the provider property and a cache TTL of "0", registers a name service built from the configuration's mappings and sets `initialized`; a later call throws `RuntimeException` and changes nothing |
| `Dns.ThreadLocalDns.InitializeDefault` | src/main/java/com/theotherian/dns/ThreadLocalDns.java:59-61 | behaves as `initialize` applied to an empty configuration |
| `Dns.InitializeTwice` | src/main/java/com/theotherian/dns/ThreadLocalDns.java:71-83 | of two successive initialisations, the first succeeds and the second throws, leaving the first one's state |
| `Dns.RunSteps` | src/main/java/com/theotherian/dns/ThreadLocalDns.java:40-48 | the steps reached form a prefix of the step list; every step reached but the last completed; the run stops early only at a step that threw |
| `Dns.TaskRun` | src/main/java/com/theotherian/dns/ThreadLocalDns.java:40-48 | the task reaches steps in the order create, register, initialise cache, validate, execute, stopping at the first step that throws |
| `Dns.ContextRunsOnlyAfterSetup` | src/main/java/com/theotherian/dns/ThreadLocalDns.java:40-45 | the context's code runs if and only if creating, registering, cache initialisation and validation all completed |
| `Dns.WorkerThread.RunContextTask` | src/main/java/com/theotherian/dns/ThreadLocalDns.java:39-49 | runs the steps as `RunSteps` says; logs the step that threw instead of propagating it; registers the configuration's service and initialises the cache only when those steps complete |
| `Dns.WorkerThread.constructor` | src/main/java/com/theotherian/dns/ThreadLocalDns.java:92 | a new pool thread starts with the name service registration and cache state it inherits from the thread calling `submit`, and has not started any context code |
| `Dns.WorkerName` | src/main/java/com/theotherian/dns/ThreadLocalDns.java:92 | every worker name starts with `ThreadLocalDnsWorker-` and has a counter text after it; `WorkerNamesDistinct` and `NewThread` state the rest |
| `Dns.WorkerNamesDistinct` | src/main/java/com/theotherian/dns/ThreadLocalDns.java:86-93 | the first 2^32 worker threads have pairwise different names |
| `Dns.ThreadLocalDnsFactory.constructor` | src/main/java/com/theotherian/dns/ThreadLocalDns.java:88 | the counter starts at 0 |
| `Dns.ThreadLocalDnsFactory.NewThread` | src/main/java/com/theotherian/dns/ThreadLocalDns.java:90-93 | the k-th thread (from 0) is named `ThreadLocalDnsWorker-` followed by the counter's value; the counter grows by exactly one per thread, wrapping at the `int` maximum |

## Left out

- Threads are not modelled. This covers:
  - the `InheritableThreadLocal` that gives child threads their parent's cache;
  - the cached thread pool and `submit`;
  - Guava's single-flight loading of one key from concurrent callers.
  
  Each model is one thread's sequential view. One `ThreadLocalNameService`
  object stands for one thread's cache.
- Genuine resolution is not modelled. DNSJava's `lookupAllHostAddr` and
  `InetAddress.getByAddress` are abstract inputs.
- `NameService.GetByName`: `byName`, which stands for `InetAddress.getByName`,
  is an unconstrained input. With this service installed as the provider,
  `InetAddress.getByName` re-enters `lookupAllHostAddr`, its cache and the
  loader. The model does not make that connection.
- `getHostByAddr` only delegates to DNSJava, so the model has nothing to state
  about it.
- `TextToNumeric.convert` is an abstract input. Its parsing rules are not part
  of this model.
- `OverrideNameServiceManager` and `HostsFileResolver` are not part of this
  model. Two read-only maps stand for them. How the thread's map is built from
  a configuration's mappings is not modelled.
- `OverrideNameService` and its `validate` are not part of this model.
  Validation appears only as a step that may throw. The duplicate-host check
  is not modelled.
- `NameService.IsLocal`: the link-local, loopback and site-local tests are
  abstract predicates. Their byte ranges belong to `InetAddress`.
- `Dns.EmptyConfiguration`: `DnsConfigurationBuilder` is not part of this
  model. A fresh builder's `build()` is assumed to return a configuration
  with no mappings.
- `Mapping.HashCode`: stated only as some function of the two properties.
  The exact Pojomatic formula is not modelled, and neither is `toString`.
- `Mapping.New`: the mapping is immutable in the model only. The source's
  two-argument constructor keeps the caller's list by reference, so a caller
  that later changes that list changes what `getHosts`, `equals` and
  `hashCode` see. The model stores the list as a value and drops this
  aliasing.
- `Mapping.New`: a null host list, and null elements in the list, are not
  modelled. `ImmutableList.copyOf` rejects both.
- `NameService.ThreadLocalNameService.LookupAllHostAddr`: a null host name is
  not modelled. The cache rejects it with a `NullPointerException`.
- Unchecked exceptions and errors from the loader are not modelled. Guava
  wraps them in `UncheckedExecutionException` or `ExecutionError`. Neither is
  an `ExecutionException`, so they pass the `catch` of `lookupAllHostAddr`
  without becoming its `RuntimeException`. The model assumes the loader
  throws only `UnknownHostException`.
- `Dns.ThreadLocalDns.Initialize`: exceptions thrown part-way through are not
  modelled. This covers `initialize(null)`, which writes both properties and
  then throws a `NullPointerException` at `configuration.getMappings()`,
  leaving `initialized` false. It also covers exceptions from
  `ThreadLocalDnsDescriptor` and from the `OverrideNameService` constructor.
  The model's configuration is never null.
- Logging is not modelled.
- `NameService.ThreadLocalNameService.LookupAllHostAddr`: the cache holds
  each `InetAddress[]` as a value. The source returns the cached array object
  itself (ThreadLocalNameService.java:116), so a caller that writes into it
  changes what every later hit returns. The model does not capture that aliasing. The JDK's
  `InetAddress` clones the array before passing it on, so its own callers
  cannot see it.
- System and security properties are two maps. Only the two keys that
  `initialize` writes are modelled.
- `Dns.WorkerThread.RunContextTask`: whether a step changes state when it
  throws is unknown. The model gives a throwing step no effect, except that
  the context's own code counts as started once it is reached.
