/** `ThreadLocalDns`: the one-time global initialisation, the task that sets
    up and runs an isolated context on a worker thread, and the factory that
    names those worker threads. */
module Dns {
  import opened Base
  import opened Mapping
  import JavaInt

  /** `ThreadLocalDnsConfiguration`, reduced to what this code reads from it. */
  datatype Configuration = Configuration(mappings: seq<IpToHostsMapping>)

  /** What `DnsConfigurationBuilder.newBuilder().build()` yields: a
      configuration to which no mapping was added. */
  function EmptyConfiguration(): (c: Configuration)
    ensures |c.mappings| == 0
  {
    Configuration([])
  }

  /** `OverrideNameService`, built from a configuration's mappings. */
  datatype OverrideNameService = OverrideNameService(mappings: seq<IpToHostsMapping>)

  /** `ThreadLocalDnsDescriptor`'s `getType()` and `getProviderName()`. */
  datatype Descriptor = Descriptor(typeName: string, providerName: string)

  const ProviderPropertyKey: string := "sun.net.spi.nameservice.provider.1"
  const CacheTtlPropertyKey: string := "networkaddress.cache.ttl"
  const CacheTtlValue: string := "0"
  const AlreadyInitializedMessage: string := "You can't initialize DNS twice in an application"

  // ---------------------------------------------------------------------
  // The name-service provider property

  /** The value of the provider property: the descriptor's type, a comma,
      then the provider name. */
  function ProviderValue(d: Descriptor): (value: string)
    ensures |value| == |d.typeName| + 1 + |d.providerName|
    ensures value[..|d.typeName|] == d.typeName && value[|d.typeName|] == ','
    ensures value[|d.typeName| + 1..] == d.providerName
  {
    d.typeName + "," + d.providerName
  }

  /** The position of the first comma in `s`, or `|s|` if there is none. */
  function FirstComma(s: string): (i: nat)
    ensures i <= |s|
    ensures forall j :: 0 <= j < i ==> s[j] != ','
    ensures i < |s| ==> s[i] == ','
  {
    if s == [] then 0
    else if s[0] == ',' then 0
    else 1 + FirstComma(s[1..])
  }

  /** Splits a provider value at its first comma into type and name. The
      source only ever builds the value; this split exists solely to state
      `ProviderValueSplits`. */
  function SplitProvider(s: string): (parts: (string, string))
  {
    var i := FirstComma(s);
    if i < |s| then (s[..i], s[i + 1..]) else (s, "")
  }

  /** The type and provider name can be read back from the property value
      whenever the type itself holds no comma. */
  lemma ProviderValueSplits(d: Descriptor)
    requires ',' !in d.typeName
    ensures SplitProvider(ProviderValue(d)) == (d.typeName, d.providerName)
  {
    var s := ProviderValue(d);
    var n := |d.typeName|;
    assert s[n] == ',';
    forall j | 0 <= j < n
      ensures s[j] != ','
    {
      assert s[j] == d.typeName[j];
    }
    var i := FirstComma(s);
    assert i == n;
    assert s[..n] == d.typeName;
    assert s[n + 1..] == d.providerName;
  }

  // ---------------------------------------------------------------------
  // One-time global initialisation

  /** The process-wide state `initialize` touches: the `initialized` flag,
      the system and security properties, and the name service registered
      for the calling thread. */
  class ThreadLocalDns {
    var initialized: bool
    var systemProperties: map<string, string>
    var securityProperties: map<string, string>
    var threadService: Option<OverrideNameService>

    /** The state at class load: not initialised, no service registered. */
    constructor (systemProperties: map<string, string>, securityProperties: map<string, string>)
      ensures !initialized && threadService == None
      ensures this.systemProperties == systemProperties
      ensures this.securityProperties == securityProperties
    {
      initialized := false;
      this.systemProperties := systemProperties;
      this.securityProperties := securityProperties;
      threadService := None;
    }

    /** `initialize(configuration)`: the first call sets both properties,
        registers a name service built from the configuration's mappings and
        sets `initialized`; every later call throws and changes nothing. */
    method Initialize(configuration: Configuration, descriptor: Descriptor) returns (thrown: Option<Failure>)
      modifies this
      ensures thrown.None? <==> !old(initialized)
      ensures initialized
      ensures old(initialized) ==>
                thrown == Some(Runtime(AlreadyInitializedMessage))
                && systemProperties == old(systemProperties)
                && securityProperties == old(securityProperties)
                && threadService == old(threadService)
      ensures !old(initialized) ==>
                systemProperties == old(systemProperties)[ProviderPropertyKey := ProviderValue(descriptor)]
                && securityProperties == old(securityProperties)[CacheTtlPropertyKey := CacheTtlValue]
                && threadService == Some(OverrideNameService(configuration.mappings))
    {
      if !initialized {
        var provider := ProviderValue(descriptor);
        systemProperties := systemProperties[ProviderPropertyKey := provider];
        securityProperties := securityProperties[CacheTtlPropertyKey := CacheTtlValue];
        var nameService := OverrideNameService(configuration.mappings);
        threadService := Some(nameService);
        initialized := true;
        thrown := None;
      } else {
        thrown := Some(Runtime(AlreadyInitializedMessage));
      }
    }

    /** `initialize()`: `initialize` with the configuration of a fresh,
        empty builder. */
    method InitializeDefault(descriptor: Descriptor) returns (thrown: Option<Failure>)
      modifies this
      ensures thrown.None? <==> !old(initialized)
      ensures initialized
      ensures old(initialized) ==>
                thrown == Some(Runtime(AlreadyInitializedMessage))
                && systemProperties == old(systemProperties)
                && securityProperties == old(securityProperties)
                && threadService == old(threadService)
      ensures !old(initialized) ==>
                systemProperties == old(systemProperties)[ProviderPropertyKey := ProviderValue(descriptor)]
                && securityProperties == old(securityProperties)[CacheTtlPropertyKey := CacheTtlValue]
                && threadService == Some(OverrideNameService([]))
    {
      thrown := Initialize(EmptyConfiguration(), descriptor);
    }
  }

  /** Two initialisations in a row: the first succeeds, the second throws
      and leaves the state the first one made. */
  method InitializeTwice(dns: ThreadLocalDns, first: Configuration, second: Configuration, d: Descriptor)
    returns (thrown1: Option<Failure>, thrown2: Option<Failure>)
    requires !dns.initialized
    modifies dns
    ensures thrown1 == None && thrown2 == Some(Runtime(AlreadyInitializedMessage))
    ensures dns.initialized && dns.threadService == Some(OverrideNameService(first.mappings))
    ensures ProviderPropertyKey in dns.systemProperties
            && dns.systemProperties[ProviderPropertyKey] == ProviderValue(d)
    ensures CacheTtlPropertyKey in dns.securityProperties
            && dns.securityProperties[CacheTtlPropertyKey] == CacheTtlValue
  {
    thrown1 := dns.Initialize(first, d);
    thrown2 := dns.Initialize(second, d);
  }

  // ---------------------------------------------------------------------
  // The task body of executeContext

  /** The steps of the context task, in the order the task runs them. */
  datatype Step = CreateNameService | InitializeForThread | InitializeCache | Validate | Execute

  const TaskSteps: seq<Step> := [CreateNameService, InitializeForThread, InitializeCache, Validate, Execute]

  /** The steps reached when `steps` run in order and the first one that
      throws ends the run: a prefix of `steps` in which every step but the
      last completed, and which stops short only at a step that threw. */
  function RunSteps(steps: seq<Step>, throwing: set<Step>): (ran: seq<Step>)
    ensures ran <= steps
    ensures steps != [] ==> |ran| >= 1
    ensures forall i :: 0 <= i < |ran| - 1 ==> steps[i] !in throwing
    ensures |ran| < |steps| ==> ran[|ran| - 1] in throwing
    decreases |steps|
  {
    if steps == [] then []
    else if steps[0] in throwing then [steps[0]]
    else [steps[0]] + RunSteps(steps[1..], throwing)
  }

  /** A step is reached only if every step before it completed; so the
      context's own code runs only after the name service was created,
      registered, its cache initialised and the configuration validated. */
  lemma ContextRunsOnlyAfterSetup(throwing: set<Step>)
    ensures Execute in RunSteps(TaskSteps, throwing) <==>
              CreateNameService !in throwing && InitializeForThread !in throwing
              && InitializeCache !in throwing && Validate !in throwing
  {
  }

  /** The context task's run, spelled out: it stops at the first step that
      throws, and reaches the context's code only if no setup step threw. */
  lemma TaskRun(throwing: set<Step>)
    ensures RunSteps(TaskSteps, throwing) ==
      if CreateNameService in throwing then [CreateNameService]
      else if InitializeForThread in throwing then [CreateNameService, InitializeForThread]
      else if InitializeCache in throwing then [CreateNameService, InitializeForThread, InitializeCache]
      else if Validate in throwing then [CreateNameService, InitializeForThread, InitializeCache, Validate]
      else TaskSteps
  {
  }

  /** The worker thread's slice of `OverrideNameServiceManager`: the name
      service registered for it, whether its cache was initialised, and
      whether the context's code was started on it. */
  class WorkerThread {
    var service: Option<OverrideNameService>
    var cacheInitialized: bool
    var contextStarted: bool

    /** A pool thread made by `newThread`. It runs on the thread that calls
        `submit`, so the new worker inherits that thread's registration and
        cache state (`InheritableThreadLocal`). No context code has run on
        it yet. */
    constructor (inherited: Option<OverrideNameService>, inheritedCache: bool)
      ensures service == inherited && cacheInitialized == inheritedCache
      ensures !contextStarted
    {
      service := inherited;
      cacheInitialized := inheritedCache;
      contextStarted := false;
    }

    /** The `run` body of the task `executeContext` submits. `throwing` holds
        which steps throw. The steps run in order; the first that throws
        ends the run and is logged (`fatal`) instead of propagating. A step
        takes effect only if it completes; the context's code counts as
        started once it is reached. */
    method RunContextTask(configuration: Configuration, throwing: set<Step>)
      returns (ran: seq<Step>, fatal: Option<Step>)
      modifies this
      ensures ran == RunSteps(TaskSteps, throwing)
      ensures fatal == (if ran[|ran| - 1] in throwing then Some(ran[|ran| - 1]) else None)
      ensures service == (if InitializeForThread in ran && InitializeForThread !in throwing
                          then Some(OverrideNameService(configuration.mappings))
                          else old(service))
      ensures cacheInitialized == ((InitializeCache in ran && InitializeCache !in throwing) || old(cacheInitialized))
      ensures contextStarted == (Execute in ran || old(contextStarted))
    {
      TaskRun(throwing);
      ran := [CreateNameService];
      if CreateNameService in throwing {
        fatal := Some(CreateNameService);
        return;
      }
      var nameService := OverrideNameService(configuration.mappings);
      ran := [CreateNameService, InitializeForThread];
      if InitializeForThread in throwing {
        fatal := Some(InitializeForThread);
        return;
      }
      service := Some(nameService);
      ran := [CreateNameService, InitializeForThread, InitializeCache];
      if InitializeCache in throwing {
        fatal := Some(InitializeCache);
        return;
      }
      cacheInitialized := true;
      ran := [CreateNameService, InitializeForThread, InitializeCache, Validate];
      if Validate in throwing {
        fatal := Some(Validate);
        return;
      }
      ran := TaskSteps;
      contextStarted := true;
      fatal := if Execute in throwing then Some(Execute) else None;
    }
  }

  // ---------------------------------------------------------------------
  // Worker thread naming

  /** A thread the factory made: the task it runs and its name. */
  datatype NamedThread<R> = NamedThread(task: R, name: string)

  const WorkerNamePrefix: string := "ThreadLocalDnsWorker-"

  /** The name of the `k`-th worker thread, counting from 0: the prefix and
      the decimal text of the counter's `int` value at that point. */
  function WorkerName(k: nat): (name: string)
    ensures |name| > |WorkerNamePrefix| && name[..|WorkerNamePrefix|] == WorkerNamePrefix
  {
    WorkerNamePrefix + JavaInt.ToString(JavaInt.ToInt32(k))
  }

  /** The first 2^32 worker threads all have different names. */
  lemma {:induction false} WorkerNamesDistinct(k1: nat, k2: nat)
    requires k1 < 0x1_0000_0000 && k2 < 0x1_0000_0000
    requires WorkerName(k1) == WorkerName(k2)
    ensures k1 == k2
  {
    var n := |WorkerNamePrefix|;
    assert JavaInt.ToString(JavaInt.ToInt32(k1)) == WorkerName(k1)[n..];
    assert JavaInt.ToString(JavaInt.ToInt32(k2)) == WorkerName(k2)[n..];
    JavaInt.ToStringInjective(JavaInt.ToInt32(k1), JavaInt.ToInt32(k2));
    JavaInt.ToInt32InjectiveBelow(k1, k2);
  }

  /** `ThreadLocalDnsFactory`: an `AtomicInteger` counter starting at 0;
      `created` counts the threads made so far. */
  class ThreadLocalDnsFactory {
    var counter: JavaInt.int32
    ghost var created: nat

    ghost predicate Valid()
      reads this
    {
      counter == JavaInt.ToInt32(created)
    }

    constructor ()
      ensures Valid() && created == 0 && counter == 0
    {
      counter := 0;
      created := 0;
    }

    /** `newThread`: names the thread after the counter's current value and
        advances the counter by one. */
    method NewThread<R>(task: R) returns (t: NamedThread<R>)
      requires Valid()
      modifies this
      ensures Valid() && created == old(created) + 1
      ensures counter == JavaInt.Increment(old(counter))
      ensures t.task == task && t.name == WorkerName(old(created))
    {
      var k := counter;
      JavaInt.IncrementCounts(created);
      counter := JavaInt.Increment(counter);
      created := created + 1;
      t := NamedThread(task, WorkerNamePrefix + JavaInt.ToString(k));
    }
  }
}
