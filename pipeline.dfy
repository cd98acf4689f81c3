/**
 * The three parts together: a custom build property registered in the registry is recorded
 * by the resolved metrics and reaches the flattened build row a publisher writes.
 */
module Pipeline {
  import opened Wrappers
  import opened Entities
  import opened MetricsConfig
  import opened MetricsProvider

  /** The metrics `build()` resolves after a lone `customBuildMetrics(k to v)`. */
  function ResolvedCustomPair(k: string, v: string, generateBuildId: bool): seq<Metric> {
    Resolve(SimpleBuildMetrics([(k, v)]), generateBuildId)
  }

  /** Applying those metrics records `v` under `k`, and keeps the build keys distinct. */
  lemma {:induction false} ResolvedCustomPairRecorded(k: string, v: string, generateBuildId: bool, props: CustomProperties)
    requires DistinctKeys(props.buildProperties)
    ensures Lookup(ApplyMetrics(ResolvedCustomPair(k, v, generateBuildId), props).buildProperties, k) == Some(v)
    ensures DistinctKeys(ApplyMetrics(ResolvedCustomPair(k, v, generateBuildId), props).buildProperties)
  {
    var simple := SimpleBuildMetrics([(k, v)]);
    var ms := ResolvedCustomPair(k, v, generateBuildId);
    assert simple == [SimpleBuild(k, v)];
    assert ApplyMetrics(ms, props) == ApplyMetrics(simple, props) by {
      if generateBuildId {
        assert ms[..|ms| - 1] == simple;
      } else {
        assert ms == simple;
      }
    }
    ApplySimpleBuildMetrics([(k, v)], props, k);
  }

  /**
   * Once the metrics resolved from a registry given only `customBuildMetrics(k to v)` are
   * applied to a report, the flattened output carries `(k, v)` among the build properties.
   */
  lemma {:induction false} CustomBuildPropertyReachesBuildRow(
    k: string, v: string, generateBuildId: bool, report: ExecutionReport)
    requires DistinctKeys(report.customProperties.buildProperties)
    ensures var applied := report.(customProperties := ApplyMetrics(ResolvedCustomPair(k, v, generateBuildId), report.customProperties));
            Flatten(applied).Ok? ==>
              exists j :: |applied.buildEnv| + 3 <= j < TailStart(applied) && Flatten(applied).value[j] == (k, Str(v))
  {
    var props := ApplyMetrics(ResolvedCustomPair(k, v, generateBuildId), report.customProperties);
    ResolvedCustomPairRecorded(k, v, generateBuildId, report.customProperties);
    var bag := props.buildProperties;
    var i :| 0 <= i < |bag| && bag[i].0 == k;
    assert bag[i] == (k, v);
    var applied := report.(customProperties := props);
    if Flatten(applied).Ok? {
      FlattenLayout(applied);
      assert Flatten(applied).value[|applied.buildEnv| + 3 + i] == (k, Str(v));
    }
  }
}
