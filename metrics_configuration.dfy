/**
 * The metric registry: an ordered, append-only list of the metrics a build will measure,
 * filled from named presets and user-defined metrics and resolved once when the build ends.
 */
module MetricsConfig {
  import opened Wrappers
  import opened Entities

  /**
   * A registered metric, identified by its kind. The probes behind the built-in metrics are
   * not part of this model; `Custom(id)` is a user-supplied metric instance, `SimpleBuild`
   * and `SimpleTask` are the trivial metrics made from a `(key, value)` pair, and `BuildId`
   * assigns a freshly generated build identifier.
   */
  datatype Metric =
    | RootProjectName | GradleRequestedTasks | GradleVersion | GradleBuildCacheMode
    | GradleBuildCachePushEnabled | GradleScanLink
    | GitUser | GitBranch
    | OsManufacturer | Hostname | PublicIp | DefaultCharset
    | User | Os | ProcessorCount | RamAvailable | JavaVmName | Locale | GradleMaxWorkers
    | JvmXms | JvmXmx | JvmMaxPermSize
    | GradleSwitchCaching | GradleSwitchBuildScan | GradleSwitchParallel
    | GradleSwitchConfigureOnDemand | GradleSwitchDryRun | GradleSwitchRefreshDependencies
    | GradleSwitchRerunTasks | GradleSwitchDaemon
    | BuildId
    | Custom(id: nat)
    | SimpleBuild(key: string, value: string)
    | SimpleTask(key: string, value: string)

  const DefaultBundle: seq<Metric> :=
    [RootProjectName, GradleRequestedTasks, GradleVersion, GradleBuildCacheMode,
     GradleBuildCachePushEnabled, GradleScanLink]

  const GitBundle: seq<Metric> := [GitUser, GitBranch]

  const EnvironmentBundle: seq<Metric> := [OsManufacturer, Hostname, PublicIp, DefaultCharset]

  const PerformanceBundle: seq<Metric> :=
    [User, Os, ProcessorCount, RamAvailable, JavaVmName, Locale, GradleMaxWorkers,
     JvmXms, JvmXmx, JvmMaxPermSize]

  const GradleSwitchesBundle: seq<Metric> :=
    [GradleSwitchCaching, GradleSwitchBuildScan, GradleSwitchParallel,
     GradleSwitchConfigureOnDemand, GradleSwitchDryRun, GradleSwitchRefreshDependencies,
     GradleSwitchRerunTasks, GradleSwitchDaemon]

  /** What `build()` falls back to when nothing was registered, in the order it calls the presets. */
  const AllPresets: seq<Metric> :=
    DefaultBundle + PerformanceBundle + GradleSwitchesBundle + GitBundle + EnvironmentBundle

  /** One simple build metric per pair, in argument order. */
  function SimpleBuildMetrics(pairs: seq<(string, string)>): (r: seq<Metric>)
    ensures |r| == |pairs|
  {
    if pairs == [] then []
    else SimpleBuildMetrics(pairs[..|pairs| - 1]) + [SimpleBuild(pairs[|pairs| - 1].0, pairs[|pairs| - 1].1)]
  }

  /** The `i`-th registered simple build metric carries the `i`-th pair, key and value unchanged. */
  lemma {:induction false} SimpleBuildMetricsAt(pairs: seq<(string, string)>, i: nat)
    requires i < |pairs|
    ensures SimpleBuildMetrics(pairs)[i] == SimpleBuild(pairs[i].0, pairs[i].1)
  {
    if i < |pairs| - 1 {
      SimpleBuildMetricsAt(pairs[..|pairs| - 1], i);
    }
  }

  lemma SimpleBuildMetricsStep(pairs: seq<(string, string)>, i: nat)
    requires i < |pairs|
    ensures SimpleBuildMetrics(pairs[..i + 1]) == SimpleBuildMetrics(pairs[..i]) + [SimpleBuild(pairs[i].0, pairs[i].1)]
  {
    assert pairs[..i + 1][..i] == pairs[..i];
  }

  /** The loop of the vararg `customBuildMetrics` overload: one simple build metric per pair, appended in order. */
  method AppendSimpleBuildMetrics(registered: seq<Metric>, pairs: seq<(string, string)>) returns (r: seq<Metric>)
    ensures r == registered + SimpleBuildMetrics(pairs)
  {
    r := registered;
    var i := 0;
    while i < |pairs|
      invariant 0 <= i <= |pairs|
      invariant r == registered + SimpleBuildMetrics(pairs[..i])
    {
      SimpleBuildMetricsStep(pairs, i);
      r := r + [SimpleBuild(pairs[i].0, pairs[i].1)];
      i := i + 1;
    }
    assert pairs[..i] == pairs;
  }

  /** One simple task metric per pair, in argument order. */
  function SimpleTaskMetrics(pairs: seq<(string, string)>): (r: seq<Metric>)
    ensures |r| == |pairs|
  {
    if pairs == [] then []
    else SimpleTaskMetrics(pairs[..|pairs| - 1]) + [SimpleTask(pairs[|pairs| - 1].0, pairs[|pairs| - 1].1)]
  }

  /** The `i`-th registered simple task metric carries the `i`-th pair, key and value unchanged. */
  lemma {:induction false} SimpleTaskMetricsAt(pairs: seq<(string, string)>, i: nat)
    requires i < |pairs|
    ensures SimpleTaskMetrics(pairs)[i] == SimpleTask(pairs[i].0, pairs[i].1)
  {
    if i < |pairs| - 1 {
      SimpleTaskMetricsAt(pairs[..|pairs| - 1], i);
    }
  }

  lemma SimpleTaskMetricsStep(pairs: seq<(string, string)>, i: nat)
    requires i < |pairs|
    ensures SimpleTaskMetrics(pairs[..i + 1]) == SimpleTaskMetrics(pairs[..i]) + [SimpleTask(pairs[i].0, pairs[i].1)]
  {
    assert pairs[..i + 1][..i] == pairs[..i];
  }

  /** The loop of the vararg `customTaskMetrics` overload: one simple task metric per pair, appended in order. */
  method AppendSimpleTaskMetrics(registered: seq<Metric>, pairs: seq<(string, string)>) returns (r: seq<Metric>)
    ensures r == registered + SimpleTaskMetrics(pairs)
  {
    r := registered;
    var i := 0;
    while i < |pairs|
      invariant 0 <= i <= |pairs|
      invariant r == registered + SimpleTaskMetrics(pairs[..i])
    {
      SimpleTaskMetricsStep(pairs, i);
      r := r + [SimpleTask(pairs[i].0, pairs[i].1)];
      i := i + 1;
    }
    assert pairs[..i] == pairs;
  }

  /**
   * The list `build()` leaves behind: the registered metrics, or all presets when none was
   * registered, followed by one build-id metric when it is requested.
   */
  function Resolve(registered: seq<Metric>, generateBuildId: bool): (r: seq<Metric>)
    ensures |r| == (if registered == [] then 30 else |registered|) + (if generateBuildId then 1 else 0)
    ensures registered != [] ==> r[..|registered|] == registered
    ensures registered == [] ==> r[..30] == AllPresets
    ensures !generateBuildId ==> (BuildId in r <==> BuildId in registered)
    ensures generateBuildId ==> r[|r| - 1] == BuildId
  {
    (if registered == [] then AllPresets else registered) + (if generateBuildId then [BuildId] else [])
  }

  /** The registry; `metrics` is the private list every operation appends to. */
  class MetricsConfiguration {
    /** Whether `build()` adds the unique build-id metric; off by default. */
    var generateBuildId: bool
    var metrics: seq<Metric>

    constructor ()
      ensures !generateBuildId && metrics == []
    {
      generateBuildId := false;
      metrics := [];
    }

    method Default()
      modifies this`metrics
      ensures metrics == old(metrics) + DefaultBundle && |metrics| == |old(metrics)| + 6
    {
      metrics := metrics + [RootProjectName];
      metrics := metrics + [GradleRequestedTasks];
      metrics := metrics + [GradleVersion];
      metrics := metrics + [GradleBuildCacheMode];
      metrics := metrics + [GradleBuildCachePushEnabled];
      metrics := metrics + [GradleScanLink];
    }

    method Git()
      modifies this`metrics
      ensures metrics == old(metrics) + GitBundle && |metrics| == |old(metrics)| + 2
    {
      metrics := metrics + [GitUser];
      metrics := metrics + [GitBranch];
    }

    method Environment()
      modifies this`metrics
      ensures metrics == old(metrics) + EnvironmentBundle && |metrics| == |old(metrics)| + 4
    {
      metrics := metrics + [OsManufacturer];
      metrics := metrics + [Hostname];
      metrics := metrics + [PublicIp];
      metrics := metrics + [DefaultCharset];
    }

    method Performance()
      modifies this`metrics
      ensures metrics == old(metrics) + PerformanceBundle && |metrics| == |old(metrics)| + 10
    {
      metrics := metrics + [User];
      metrics := metrics + [Os];
      metrics := metrics + [ProcessorCount];
      metrics := metrics + [RamAvailable];
      metrics := metrics + [JavaVmName];
      metrics := metrics + [Locale];
      metrics := metrics + [GradleMaxWorkers];
      metrics := metrics + [JvmXms];
      metrics := metrics + [JvmXmx];
      metrics := metrics + [JvmMaxPermSize];
    }

    method GradleSwitches()
      modifies this`metrics
      ensures metrics == old(metrics) + GradleSwitchesBundle && |metrics| == |old(metrics)| + 8
    {
      metrics := metrics + [GradleSwitchCaching];
      metrics := metrics + [GradleSwitchBuildScan];
      metrics := metrics + [GradleSwitchParallel];
      metrics := metrics + [GradleSwitchConfigureOnDemand];
      metrics := metrics + [GradleSwitchDryRun];
      metrics := metrics + [GradleSwitchRefreshDependencies];
      metrics := metrics + [GradleSwitchRerunTasks];
      metrics := metrics + [GradleSwitchDaemon];
    }

    /** Appends the given metric instances in argument order. */
    method CustomMetrics(custom: seq<Metric>)
      modifies this`metrics
      ensures metrics == old(metrics) + custom
    {
      var i := 0;
      while i < |custom|
        invariant 0 <= i <= |custom|
        invariant metrics == old(metrics) + custom[..i]
      {
        metrics := metrics + [custom[i]];
        i := i + 1;
      }
      assert custom[..i] == custom;
    }

    /** The vararg overload: one simple build metric per pair. */
    method CustomBuildMetrics(buildMetrics: seq<(string, string)>)
      modifies this`metrics
      ensures metrics == old(metrics) + SimpleBuildMetrics(buildMetrics)
    {
      metrics := AppendSimpleBuildMetrics(metrics, buildMetrics);
    }

    /** The single-pair overload. */
    method CustomBuildMetric(buildMetric: (string, string))
      modifies this`metrics
      ensures metrics == old(metrics) + [SimpleBuild(buildMetric.0, buildMetric.1)]
    {
      metrics := metrics + [SimpleBuild(buildMetric.0, buildMetric.1)];
    }

    /** The map overload: one simple build metric per entry, in the map's iteration order. */
    method CustomBuildMetricsMap(buildMetrics: Bag)
      modifies this`metrics
      ensures metrics == old(metrics) + SimpleBuildMetrics(buildMetrics)
      ensures |metrics| == |old(metrics)| + |buildMetrics|
    {
      CustomBuildMetrics(buildMetrics);
    }

    /** The vararg overload: one simple task metric per pair. */
    method CustomTaskMetrics(taskMetrics: seq<(string, string)>)
      modifies this`metrics
      ensures metrics == old(metrics) + SimpleTaskMetrics(taskMetrics)
    {
      metrics := AppendSimpleTaskMetrics(metrics, taskMetrics);
    }

    /** The single-pair overload. */
    method CustomTaskMetric(taskMetric: (string, string))
      modifies this`metrics
      ensures metrics == old(metrics) + [SimpleTask(taskMetric.0, taskMetric.1)]
    {
      metrics := metrics + [SimpleTask(taskMetric.0, taskMetric.1)];
    }

    /** The map overload: one simple task metric per entry, in the map's iteration order. */
    method CustomTaskMetricsMap(taskMetrics: Bag)
      modifies this`metrics
      ensures metrics == old(metrics) + SimpleTaskMetrics(taskMetrics)
      ensures |metrics| == |old(metrics)| + |taskMetrics|
    {
      CustomTaskMetrics(taskMetrics);
    }

    /**
     * Resolves the registry: falls back to all presets when nothing was registered, then
     * appends the build-id metric when requested. The list is kept and returned.
     */
    method Build() returns (resolved: seq<Metric>)
      modifies this`metrics
      ensures metrics == Resolve(old(metrics), generateBuildId)
      ensures resolved == metrics
    {
      if |metrics| == 0 {
        Default();
        Performance();
        GradleSwitches();
        Git();
        Environment();
      }
      if generateBuildId {
        metrics := metrics + [BuildId];
      }
      resolved := metrics;
    }
  }

  /** With nothing registered and no build id, `build()` yields the five bundles, 30 metrics. */
  lemma ResolveFallback()
    ensures Resolve([], false) == DefaultBundle + PerformanceBundle + GradleSwitchesBundle + GitBundle + EnvironmentBundle
    ensures |Resolve([], false)| == 30
    ensures multiset(Resolve([], false)) ==
            multiset(DefaultBundle + GitBundle + EnvironmentBundle + PerformanceBundle + GradleSwitchesBundle)
  {
  }

  /** Any earlier registration, even one custom pair, suppresses the fallback. */
  lemma ResolveKeepsCustomisation(registered: seq<Metric>, generateBuildId: bool)
    requires registered != []
    ensures Resolve(registered, generateBuildId) ==
            registered + (if generateBuildId then [BuildId] else [])
    ensures forall m :: m in AllPresets && m !in registered ==> m !in Resolve(registered, generateBuildId)
  {
  }

  /** The build-id flag adds exactly one metric, at the end and after any fallback. */
  lemma ResolveBuildId(registered: seq<Metric>)
    ensures Resolve(registered, true) == Resolve(registered, false) + [BuildId]
    ensures BuildId !in registered ==> BuildId !in Resolve(registered, false)
  {
  }

  /**
   * How a simple metric records its value, as written: the value it provides is its pair's
   * second component, and it is stored under that same second component, so the pair's key
   * is never used.
   */
  function AssignAsWritten(m: Metric, props: CustomProperties): (r: CustomProperties)
    ensures m.SimpleBuild? ==>
              && Lookup(r.buildProperties, m.value) == Some(m.value)
              && r.taskProperties == props.taskProperties
              && forall k :: k != m.value ==> Lookup(r.buildProperties, k) == Lookup(props.buildProperties, k)
    ensures m.SimpleTask? ==>
              && Lookup(r.taskProperties, m.value) == Some(m.value)
              && r.buildProperties == props.buildProperties
              && forall k :: k != m.value ==> Lookup(r.taskProperties, k) == Lookup(props.taskProperties, k)
    ensures !m.SimpleBuild? && !m.SimpleTask? ==> r == props
  {
    match m
    case SimpleBuild(_, v) =>
      PutLookup(props.buildProperties, v, v);
      props.(buildProperties := Put(props.buildProperties, v, v))
    case SimpleTask(_, v) =>
      PutLookup(props.taskProperties, v, v);
      props.(taskProperties := Put(props.taskProperties, v, v))
    case _ => props
  }

  /**
   * Whatever pair a simple metric is given, when its key differs from its value the key is
   * not written: a lookup under the key answers what it answered before, and the value is
   * found under the value. The pair `("buildType", "release")` is one instance.
   */
  lemma AssignAsWrittenLosesKey(k: string, v: string, props: CustomProperties)
    requires k != v
    ensures Lookup(AssignAsWritten(SimpleBuild(k, v), props).buildProperties, k) == Lookup(props.buildProperties, k)
    ensures Lookup(AssignAsWritten(SimpleBuild(k, v), props).buildProperties, v) == Some(v)
    ensures Lookup(AssignAsWritten(SimpleTask(k, v), props).taskProperties, k) == Lookup(props.taskProperties, k)
    ensures Lookup(AssignAsWritten(SimpleTask(k, v), props).taskProperties, v) == Some(v)
    ensures Lookup(AssignAsWritten(SimpleBuild("buildType", "release"), NoCustomProperties).buildProperties, "buildType") == None
  {
    var r := AssignAsWritten(SimpleBuild("buildType", "release"), NoCustomProperties);
    assert r.buildProperties == [("release", "release")];
  }

  /**
   * How a simple metric records its value, as intended: the pair's value under the pair's
   * key, in the build or the task bag. The other metrics write report fields this model
   * does not carry, and leave the custom bags alone.
   */
  function Assign(m: Metric, props: CustomProperties): (r: CustomProperties)
    ensures m.SimpleBuild? ==>
              && Lookup(r.buildProperties, m.key) == Some(m.value)
              && r.taskProperties == props.taskProperties
              && forall k :: k != m.key ==> Lookup(r.buildProperties, k) == Lookup(props.buildProperties, k)
    ensures m.SimpleTask? ==>
              && Lookup(r.taskProperties, m.key) == Some(m.value)
              && r.buildProperties == props.buildProperties
              && forall k :: k != m.key ==> Lookup(r.taskProperties, k) == Lookup(props.taskProperties, k)
    ensures !m.SimpleBuild? && !m.SimpleTask? ==> r == props
    ensures DistinctKeys(props.buildProperties) ==> DistinctKeys(r.buildProperties)
    ensures DistinctKeys(props.taskProperties) ==> DistinctKeys(r.taskProperties)
  {
    match m
    case SimpleBuild(k, v) =>
      PutLookup(props.buildProperties, k, v);
      var r := props.(buildProperties := Put(props.buildProperties, k, v));
      assert DistinctKeys(props.buildProperties) ==> DistinctKeys(r.buildProperties) by {
        if DistinctKeys(props.buildProperties) {
          PutDistinct(props.buildProperties, k, v);
        }
      }
      r
    case SimpleTask(k, v) =>
      PutLookup(props.taskProperties, k, v);
      var r := props.(taskProperties := Put(props.taskProperties, k, v));
      assert DistinctKeys(props.taskProperties) ==> DistinctKeys(r.taskProperties) by {
        if DistinctKeys(props.taskProperties) {
          PutDistinct(props.taskProperties, k, v);
        }
      }
      r
    case _ => props
  }

  /** Applies resolved metrics to the custom bags in registration order. */
  function ApplyMetrics(ms: seq<Metric>, props: CustomProperties): CustomProperties {
    if ms == [] then props else Assign(ms[|ms| - 1], ApplyMetrics(ms[..|ms| - 1], props))
  }

  /** The value of the last pair with key `k`, if any: the one a map built from `pairs` keeps. */
  function LastValue(pairs: seq<(string, string)>, k: string): Option<string> {
    if pairs == [] then None
    else if pairs[|pairs| - 1].0 == k then Some(pairs[|pairs| - 1].1)
    else LastValue(pairs[..|pairs| - 1], k)
  }

  /**
   * Registering custom build pairs and applying them leaves, under each key, the last value
   * given for it (last write wins), keeps other keys and the task bag as they were, and
   * keeps keys distinct.
   */
  lemma {:induction false} ApplySimpleBuildMetrics(pairs: seq<(string, string)>, props: CustomProperties, k: string)
    ensures ApplyMetrics(SimpleBuildMetrics(pairs), props).taskProperties == props.taskProperties
    ensures Lookup(ApplyMetrics(SimpleBuildMetrics(pairs), props).buildProperties, k) ==
            if LastValue(pairs, k).Some? then LastValue(pairs, k) else Lookup(props.buildProperties, k)
    ensures DistinctKeys(props.buildProperties) ==>
            DistinctKeys(ApplyMetrics(SimpleBuildMetrics(pairs), props).buildProperties)
  {
    if pairs != [] {
      var init := pairs[..|pairs| - 1];
      assert SimpleBuildMetrics(pairs)[..|pairs| - 1] == SimpleBuildMetrics(init);
      ApplySimpleBuildMetrics(init, props, k);
    }
  }

  /** The task-bag counterpart of ApplySimpleBuildMetrics. */
  lemma {:induction false} ApplySimpleTaskMetrics(pairs: seq<(string, string)>, props: CustomProperties, k: string)
    ensures ApplyMetrics(SimpleTaskMetrics(pairs), props).buildProperties == props.buildProperties
    ensures Lookup(ApplyMetrics(SimpleTaskMetrics(pairs), props).taskProperties, k) ==
            if LastValue(pairs, k).Some? then LastValue(pairs, k) else Lookup(props.taskProperties, k)
    ensures DistinctKeys(props.taskProperties) ==>
            DistinctKeys(ApplyMetrics(SimpleTaskMetrics(pairs), props).taskProperties)
  {
    if pairs != [] {
      var init := pairs[..|pairs| - 1];
      assert SimpleTaskMetrics(pairs)[..|pairs| - 1] == SimpleTaskMetrics(init);
      ApplySimpleTaskMetrics(init, props, k);
    }
  }
}
